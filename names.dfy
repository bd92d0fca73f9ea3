/** The string operations name resolution is built from: Python's `str.strip()` and
    `str.startswith`, and the two searches the core performs over listings: first entry
    that starts with the query (`getRiverID`, `getReachID`, `getXSID`) and first element
    whose name equals the query (`Ras.river`, `River.reach`, `Reach.xs`). */
module Names {
  import opened Common

  /** The characters Python's `str.isspace()` accepts, which `str.strip()` removes. */
  predicate IsSpace(c: char)
  {
    || '\t' <= c <= '\r'                          // tab, newline, vertical tab, form feed, return
    || '\U{1C}' <= c <= '\U{1F}'                   // file, group, record, unit separators
    || c == ' ' || c == '\U{85}' || c == '\U{A0}' || c == '\U{1680}'
    || '\U{2000}' <= c <= '\U{200A}'
    || c == '\U{2028}' || c == '\U{2029}' || c == '\U{202F}' || c == '\U{205F}' || c == '\U{3000}'
  }

  /** `s.lstrip()`. */
  function TrimLeft(s: string): string
  {
    if s != [] && IsSpace(s[0]) then TrimLeft(s[1..]) else s
  }

  /** `s.rstrip()`. */
  function TrimRight(s: string): string
  {
    if s != [] && IsSpace(s[|s| - 1]) then TrimRight(s[..|s| - 1]) else s
  }

  /** `lstrip` removes exactly the leading whitespace: what it keeps is a suffix that is
      empty or starts with a non-space, and everything it drops is whitespace. */
  lemma {:induction false} TrimLeftSpec(s: string)
    ensures |TrimLeft(s)| <= |s| && TrimLeft(s) == s[|s| - |TrimLeft(s)|..]
    ensures TrimLeft(s) == [] || !IsSpace(TrimLeft(s)[0])
    ensures forall i :: 0 <= i < |s| - |TrimLeft(s)| ==> IsSpace(s[i])
  {
    if s != [] && IsSpace(s[0]) {
      var t := s[1..];
      TrimLeftSpec(t);
      assert TrimLeft(s) == TrimLeft(t);
      assert t[|t| - |TrimLeft(t)|..] == s[|s| - |TrimLeft(t)|..];
      forall i | 1 <= i < |s| - |TrimLeft(t)|
        ensures IsSpace(s[i])
      {
        assert s[i] == t[i - 1];
      }
    }
  }

  /** `rstrip` removes exactly the trailing whitespace: what it keeps is a prefix that is
      empty or ends with a non-space, and everything it drops is whitespace. */
  lemma {:induction false} TrimRightSpec(s: string)
    ensures TrimRight(s) <= s
    ensures TrimRight(s) == [] || !IsSpace(TrimRight(s)[|TrimRight(s)| - 1])
    ensures forall i :: |TrimRight(s)| <= i < |s| ==> IsSpace(s[i])
  {
    if s != [] && IsSpace(s[|s| - 1]) {
      var t := s[..|s| - 1];
      TrimRightSpec(t);
      assert TrimRight(s) == TrimRight(t);
      forall i | |TrimRight(t)| <= i < |t|
        ensures IsSpace(s[i])
      {
        assert s[i] == t[i];
      }
    }
  }

  /** `s.strip()`. */
  function Trim(s: string): string
  {
    TrimRight(TrimLeft(s))
  }

  /** `s` is what `strip()` leaves: empty, or starting and ending with a non-space. */
  predicate Stripped(s: string)
  {
    s == [] || (!IsSpace(s[0]) && !IsSpace(s[|s| - 1]))
  }

  /** `strip` keeps the middle of `s` from its first to its last non-space character:
      the result is a slice of `s` that is stripped, and everything outside the slice is
      whitespace. */
  lemma TrimSpec(s: string)
    ensures var t := Trim(s); var a := |s| - |TrimLeft(s)|;
            && 0 <= a && a + |t| <= |s| && t == s[a..a + |t|]
            && Stripped(t)
            && (forall i :: 0 <= i < a ==> IsSpace(s[i]))
            && (forall i :: a + |t| <= i < |s| ==> IsSpace(s[i]))
  {
    TrimIsStrippedSlice(s);
    TrimDropsWhitespace(s);
  }

  /** The slice half of `TrimSpec`. */
  lemma TrimIsStrippedSlice(s: string)
    ensures var t := Trim(s); var a := |s| - |TrimLeft(s)|;
            && 0 <= a && a + |t| <= |s| && t == s[a..a + |t|] && Stripped(t)
  {
    var l := TrimLeft(s);
    var a := |s| - |l|;
    assert |l| <= |s| && l == s[a..] && (l == [] || !IsSpace(l[0])) by { TrimLeftSpec(s); }
    var t := TrimRight(l);
    assert Trim(s) == t;
    assert t <= l && (t == [] || !IsSpace(t[|t| - 1])) by { TrimRightSpec(l); }
    assert t == l[..|t|];
    assert t == s[a..a + |t|];
    if t != [] {
      assert t[0] == l[0];
    }
  }

  /** The whitespace half of `TrimSpec`. */
  lemma TrimDropsWhitespace(s: string)
    ensures |TrimLeft(s)| <= |s| && |Trim(s)| <= |TrimLeft(s)|
    ensures forall i :: 0 <= i < |s| - |TrimLeft(s)| ==> IsSpace(s[i])
    ensures forall i :: |s| - |TrimLeft(s)| + |Trim(s)| <= i < |s| ==> IsSpace(s[i])
  {
    var l := TrimLeft(s);
    var a := |s| - |l|;
    TrimLeftSpec(s);
    TrimRightSpec(l);
    forall i | a + |TrimRight(l)| <= i < |s|
      ensures IsSpace(s[i])
    {
      assert s[i] == l[i - a];
    }
  }

  /** `[x.strip() for x in s]`. */
  function TrimAll(s: seq<string>): (r: seq<string>)
    ensures |r| == |s|
    ensures forall i :: 0 <= i < |s| ==> r[i] == Trim(s[i])
  {
    seq(|s|, i requires 0 <= i < |s| => Trim(s[i]))
  }

  /** Every entry of a stripped listing is stripped. */
  lemma TrimAllStripped(s: seq<string>)
    ensures forall i :: 0 <= i < |s| ==> Stripped(TrimAll(s)[i])
  {
    forall i | 0 <= i < |s|
      ensures Stripped(TrimAll(s)[i])
    {
      TrimSpec(s[i]);
    }
  }

  /** `s.startswith(p)`. */
  predicate StartsWith(s: string, p: string)
  {
    p <= s
  }

  /** The value of `for ix, e in enumerate(entries): if e.startswith(q): return ix + 1`
      followed by `return False`: the 1-based position of the first entry starting with
      `q`, or `NotFound` when there is none. */
  function FirstMatch(entries: seq<string>, q: string): Index
  {
    if entries == [] then NotFound
    else if StartsWith(entries[0], q) then Found(1)
    else match FirstMatch(entries[1..], q)
      case Found(k) => Found(k + 1)
      case NotFound => NotFound
  }

  /** The search returns a 1-based index in range whose entry starts with `q` and no
      earlier entry does; it returns `NotFound` exactly when no entry starts with `q`. */
  lemma {:induction false} FirstMatchSpec(entries: seq<string>, q: string)
    ensures FirstMatch(entries, q).Found? ==>
              && 1 <= FirstMatch(entries, q).ix <= |entries|
              && StartsWith(entries[FirstMatch(entries, q).ix - 1], q)
              && forall j :: 0 <= j < FirstMatch(entries, q).ix - 1 ==> !StartsWith(entries[j], q)
    ensures FirstMatch(entries, q).NotFound? <==> forall j :: 0 <= j < |entries| ==> !StartsWith(entries[j], q)
  {
    if entries != [] && !StartsWith(entries[0], q) {
      FirstMatchSpec(entries[1..], q);
      assert forall j :: 1 <= j < |entries| ==> entries[j] == entries[1..][j - 1];
    }
  }

  /** What the service receives when a search result is passed on: a position within the
      listing, and Python's `False`, the integer 0, exactly when no entry starts with the
      query. */
  lemma ResolverArgument(entries: seq<string>, q: string)
    ensures 0 <= ComArg(FirstMatch(entries, q)) <= |entries|
    ensures ComArg(FirstMatch(entries, q)) == 0 <==> forall j :: 0 <= j < |entries| ==> !StartsWith(entries[j], q)
  {
    FirstMatchSpec(entries, q);
  }

  /** The search result is pinned down by the position of the first matching entry. */
  lemma FirstMatchAt(entries: seq<string>, q: string, k: nat)
    requires k < |entries| && StartsWith(entries[k], q)
    requires forall j :: 0 <= j < k ==> !StartsWith(entries[j], q)
    ensures FirstMatch(entries, q) == Found(k + 1)
  {
    FirstMatchSpec(entries, q);
  }

  /** The 0-based position of the first name equal to `q`: the element
      `[x for x in xs if x.name == q][0]` selects; `None` is the IndexError. */
  function FirstExact(names: seq<string>, q: string): (r: Option<nat>)
    ensures r.Some? ==> r.value < |names| && names[r.value] == q
    ensures r.Some? ==> forall j :: 0 <= j < r.value ==> names[j] != q
    ensures r.None? <==> q !in names
  {
    if names == [] then None
    else if names[0] == q then Some(0)
    else match FirstExact(names[1..], q)
      case Some(k) => Some(k + 1)
      case None => None
  }

  /** Stripping a name that has no leading whitespace only removes trailing padding,
      so the stripped name is a prefix of the original. */
  lemma TrimIsPrefix(s: string)
    requires s == [] || !IsSpace(s[0])
    ensures StartsWith(s, Trim(s))
  {
    TrimLeftSpec(s);
    assert TrimLeft(s) == s;
    TrimRightSpec(s);
  }

  /** Resolving the stripped form of a listing entry (as the object tree does) finds that
      entry or an earlier one: first-match-wins may pick an earlier entry that happens to
      start with the same text. */
  lemma OwnNameResolves(entries: seq<string>, k: nat)
    requires k < |entries|
    requires entries[k] == [] || !IsSpace(entries[k][0])
    ensures FirstMatch(entries, Trim(entries[k])).Found?
    ensures FirstMatch(entries, Trim(entries[k])).ix <= k + 1
  {
    TrimIsPrefix(entries[k]);
    FirstMatchSpec(entries, Trim(entries[k]));
  }

  /** When no earlier entry starts with the stripped name of entry `k`, resolution returns
      exactly position `k + 1`. */
  lemma UnambiguousNameResolvesToPosition(entries: seq<string>, k: nat)
    requires k < |entries|
    requires entries[k] == [] || !IsSpace(entries[k][0])
    requires forall j :: 0 <= j < k ==> !StartsWith(entries[j], Trim(entries[k]))
    ensures FirstMatch(entries, Trim(entries[k])) == Found(k + 1)
  {
    TrimIsPrefix(entries[k]);
    FirstMatchAt(entries, Trim(entries[k]), k);
  }

  /** First-match-wins on a prefix: with rivers "Ab" and "A", the name "A" resolves to
      river 1, not river 2. */
  lemma PrefixShadowsLaterEntry()
    ensures FirstMatch(["Ab", "A"], "A") == Found(1)
  {
    assert StartsWith("Ab", "A");
  }

  /** A station listing is stripped before the search, so every stripped label resolves,
      to its own position or an earlier one. */
  lemma StrippedLabelResolves(labels: seq<string>, k: nat)
    requires k < |labels|
    ensures FirstMatch(TrimAll(labels), Trim(labels[k])).Found?
    ensures FirstMatch(TrimAll(labels), Trim(labels[k])).ix <= k + 1
  {
    assert StartsWith(TrimAll(labels)[k], Trim(labels[k]));
    FirstMatchSpec(TrimAll(labels), Trim(labels[k]));
  }

  /** `p` is `c` followed by whitespace only. */
  ghost predicate PaddedWith(p: string, c: string)
  {
    c <= p && forall i :: |c| <= i < |p| ==> IsSpace(p[i])
  }

  /** A query that does not end in whitespace starts a padded name exactly when it starts
      the unpadded one. */
  lemma StartsWithIgnoresPadding(p: string, c: string, q: string)
    requires PaddedWith(p, c)
    requires q == [] || !IsSpace(q[|q| - 1])
    ensures StartsWith(p, q) <==> StartsWith(c, q)
  {
    if StartsWith(p, q) && q != [] {
      assert !IsSpace(p[|q| - 1]);
      assert |q| <= |c|;
      assert q == p[..|q|] == c[..|q|];
    }
  }

  /** Resolution against a listing is unchanged when the service pads its entries with
      trailing whitespace, as long as the query does not itself end in whitespace (a
      stripped name never does). */
  lemma {:induction false} FirstMatchIgnoresPadding(padded: seq<string>, clean: seq<string>, q: string)
    requires |padded| == |clean|
    requires forall i :: 0 <= i < |clean| ==> PaddedWith(padded[i], clean[i])
    requires q == [] || !IsSpace(q[|q| - 1])
    ensures FirstMatch(padded, q) == FirstMatch(clean, q)
  {
    if clean != [] {
      StartsWithIgnoresPadding(padded[0], clean[0], q);
      FirstMatchIgnoresPadding(padded[1..], clean[1..], q);
    }
  }
}

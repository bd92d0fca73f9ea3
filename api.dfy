/** The user-facing API of `api/api.py`: running a computation (`OpsAPI.compute`), reading
    a single quantity out of the nested results (`DataAPI.getSingleDatum`, `velocity`,
    `stage`), and setting Manning's n over a reach (`ParamsAPI.modifyN`). */
module Api {
  import opened Common
  import opened Nested
  import opened Service
  import opened RasTree

  // ---------------------------------------------------------------------------------
  // Running

  class OpsAPI {
    const ras: Ras

    constructor (ras: Ras)
      ensures this.ras == ras
    {
      this.ras := ras;
    }

    /** `compute(steady, plan)`: `computeSteady(plan)` when `steady`, otherwise
        `computeUnsteady(plan)`; both ask the controller to run its current plan. */
    method Compute(steady: bool, plan: Option<string>)
      modifies ras.ras
      ensures ras.ras.log == old(ras.ras.log) + [Event.Compute]
    {
      if steady {
        ras.ComputeSteady(plan);
      } else {
        ras.ComputeUnsteady(plan);
      }
    }
  }

  // ---------------------------------------------------------------------------------
  // Reading one quantity

  /** How many levels of `result.items()` loops `getSingleDatum` runs: none when `rs` is
      given, one when `reach` is, two when `river` is, three otherwise. It matches the
      nesting of the result only when no name is omitted above a given one. */
  function LoopDepth(q: Query): (d: nat)
    ensures d <= q.Nones()
    ensures d == q.Nones() <==> (q.river.None? ==> q.reach.None?) && (q.reach.None? ==> q.rs.None?)
  {
    if q.rs.Some? then 0
    else if q.reach.Some? then 1
    else if q.river.Some? then 2
    else 3
  }

  /** What `d` nested `for k, v in x.items(): x[k] = ...` loops, with `func` applied at the
      innermost level, make of a result: `SimData` has no `items()` and `func` (an
      attribute projection such as `lambda x: x.velocity`) does not apply to a dict, so a
      result nested deeper or shallower than `d` raises AttributeError. */
  function FixedDepthMap<S, T>(f: S -> T, t: Tree<S>, d: nat): (r: Result<Tree<T>>)
    ensures r.Err? ==> r.error == AttributeError
  {
    if d == 0 then
      if t.Leaf? then Ok(Leaf(f(t.value))) else Err(AttributeError)
    else
      match t
      case Leaf(_) => Err(AttributeError)
      case Branch(m) =>
        if forall k :: k in m ==> FixedDepthMap(f, m[k], d - 1).Ok?
        then Ok(Branch(map k | k in m :: FixedDepthMap(f, m[k], d - 1).value))
        else Err(AttributeError)
  }

  /** On a result nested exactly `d` deep, the fixed loops map every leaf. */
  lemma {:induction false} FixedDepthMapAgrees<S, T>(f: S -> T, t: Tree<S>, d: nat)
    requires UniformDepth(t, d)
    ensures FixedDepthMap(f, t, d) == Ok(MapLeaves(f, t))
  {
    match t
    case Leaf(_) =>
    case Branch(m) =>
      forall k | k in m
        ensures FixedDepthMap(f, m[k], d - 1) == Ok(MapLeaves(f, m[k]))
      {
        FixedDepthMapAgrees(f, m[k], d - 1);
      }
      SameChildren(f, t, d);
  }

  /** On a result nested deeper than `d` that holds any datum, the fixed loops raise. */
  lemma {:induction false} FixedDepthMapTooShallow<S, T>(f: S -> T, t: Tree<S>, d: nat, n: nat)
    requires UniformDepth(t, n) && d < n && Inhabited(t)
    ensures FixedDepthMap(f, t, d) == Err(AttributeError)
  {
    if d > 0 {
      var k :| k in t.children && Inhabited(t.children[k]);
      FixedDepthMapTooShallow(f, t.children[k], d - 1, n - 1);
    }
  }

  /** The fixed loops never produce anything but the mapped result: when they do not
      raise, every leaf has been replaced by `f(leaf)`. */
  lemma {:induction false} FixedDepthMapSound<S, T>(f: S -> T, t: Tree<S>, d: nat)
    requires FixedDepthMap(f, t, d).Ok?
    ensures FixedDepthMap(f, t, d) == Ok(MapLeaves(f, t))
  {
    if d > 0 {
      var m := t.children;
      forall k | k in m
        ensures FixedDepthMap(f, m[k], d - 1) == Ok(MapLeaves(f, m[k]))
      {
        FixedDepthMapSound(f, m[k], d - 1);
      }
      SameChildren(f, t, d);
    }
  }

  /** One step of both lemmas above: when the fixed loops map every child as `MapLeaves`
      does, they map the parent as it does. */
  lemma SameChildren<S, T>(f: S -> T, t: Tree<S>, d: nat)
    requires d > 0 && t.Branch?
    requires forall k :: k in t.children ==> FixedDepthMap(f, t.children[k], d - 1) == Ok(MapLeaves(f, t.children[k]))
    ensures FixedDepthMap(f, t, d) == Ok(MapLeaves(f, t))
  {
    var r := FixedDepthMap(f, t, d).value;
    var g := MapLeaves(f, t);
    assert forall k | k in t.children :: r.children[k] == g.children[k];
    assert r.children == g.children;
  }

  class DataAPI {
    const ras: Ras

    constructor (ras: Ras)
      ensures this.ras == ras
    {
      this.ras := ras;
    }

    /** What `getSingleDatum(func, river, reach, rs)` returns as written: `allFlow`
        (`getSimData` with profile 1), then as many loops as `LoopDepth` says. */
    function SingleDatumAsWritten<T>(func: SimData -> T, q: Query): (r: Result<Tree<T>>)
      ensures ras.GetSimData(q, 1).Err? ==> r == Err(ras.GetSimData(q, 1).error)
      ensures r.Err? ==> r.error == IndexError || r.error == AttributeError
    {
      match ras.GetSimData(q, 1)
      case Err(e) => Err(e)
      case Ok(t) => FixedDepthMap(func, t, LoopDepth(q))
    }

    /** `getSingleDatum` as written. The Python loops overwrite each entry of the result
        dict in place; here each level builds the rewritten dict with the same keys. */
    method GetSingleDatum<T>(func: SimData -> T, q: Query) returns (r: Result<Tree<T>>)
      ensures r == SingleDatumAsWritten(func, q)
    {
      var result := ras.GetSimData(q, 1);
      if result.Err? {
        return Err(result.error);
      }
      if q.rs.Some? {
        r := MapLevels(func, result.value, 0);
      } else if q.reach.Some? {
        r := MapLevels(func, result.value, 1);
      } else if q.river.Some? {
        r := MapLevels(func, result.value, 2);
      } else {
        r := MapLevels(func, result.value, 3);
      }
    }

    /** `d` nested `for k, dat in x.items(): x[k] = ...` loops with `func` innermost. */
    static method MapLevels<T>(func: SimData -> T, t: Tree<SimData>, d: nat) returns (r: Result<Tree<T>>)
      ensures r == FixedDepthMap(func, t, d)
      decreases d
    {
      if d == 0 {
        if t.Branch? {
          return Err(AttributeError);
        }
        return Ok(Leaf(func(t.value)));
      }
      if t.Leaf? {
        return Err(AttributeError);
      }
      var m := t.children;
      var out: map<string, Tree<T>> := map[];
      var todo := m.Keys;
      while todo != {}
        invariant todo <= m.Keys && out.Keys == m.Keys - todo
        invariant forall k :: k in out ==> FixedDepthMap(func, m[k], d - 1) == Ok(out[k])
        decreases todo
      {
        var k :| k in todo;
        var dat := MapLevels(func, m[k], d - 1);
        if dat.Err? {
          return Err(AttributeError);
        }
        out := out[k := dat.value];
        todo := todo - {k};
      }
      assert forall k | k in m :: FixedDepthMap(func, m[k], d - 1).Ok?;
      assert FixedDepthMap(func, t, d).value.children == out;
      r := Ok(Branch(out));
    }

    /** The evidently intended `getSingleDatum` ("regardless of level of nesting"): the
        result of `allFlow` with every leaf replaced by `func(leaf)`, at any depth. */
    function SingleDatum<T>(func: SimData -> T, q: Query): (r: Result<Tree<T>>)
      ensures r.Ok? <==> ras.GetSimData(q, 1).Ok?
      ensures r.Err? ==> r.error == ras.GetSimData(q, 1).error
      ensures r.Ok? ==> UniformDepth(r.value, q.Nones())
      ensures r.Ok? ==> forall path ::
                Lookup(r.value, path) == MapSub(func, Lookup(ras.GetSimData(q, 1).value, path))
    {
      match ras.GetSimData(q, 1)
      case Err(e) => Err(e)
      case Ok(t) =>
        ras.SimDataDepth(q, 1);
        MapLeavesKeepsDepth(func, t, q.Nones());
        MapLeavesEverywhere(func, t);
        Ok(MapLeaves(func, t))
    }

    /** Wherever the loops of `getSingleDatum` do not raise, they return what the intended
        definition returns. */
    lemma AsWrittenSound<T>(func: SimData -> T, q: Query)
      requires SingleDatumAsWritten(func, q).Ok?
      ensures SingleDatumAsWritten(func, q) == SingleDatum(func, q)
    {
      FixedDepthMapSound(func, ras.GetSimData(q, 1).value, LoopDepth(q));
    }

    /** When no name is omitted above a given one, the loops match the nesting and
        `getSingleDatum` behaves as intended. */
    lemma AsWrittenAgreesOnOrderedQueries<T>(func: SimData -> T, q: Query)
      requires (q.river.None? ==> q.reach.None?) && (q.reach.None? ==> q.rs.None?)
      ensures SingleDatumAsWritten(func, q) == SingleDatum(func, q)
    {
      if ras.GetSimData(q, 1).Ok? {
        ras.SimDataDepth(q, 1);
        FixedDepthMapAgrees(func, ras.GetSimData(q, 1).value, q.Nones());
      }
    }

    /** When a name is omitted above a given one (`getSingleDatum(f, None, reach, None)`,
        say) and the result holds any datum, `getSingleDatum` raises although `allFlow`
        succeeded and the intended definition returns the mapped result. */
    lemma AsWrittenRaisesOnSkippedLevel<T>(func: SimData -> T, q: Query)
      requires ras.GetSimData(q, 1).Ok? && Inhabited(ras.GetSimData(q, 1).value)
      requires (q.river.None? && q.reach.Some?) || (q.river.None? && q.rs.Some?) ||
               (q.reach.None? && q.rs.Some?)
      ensures SingleDatumAsWritten(func, q) == Err(AttributeError)
      ensures SingleDatum(func, q).Ok?
    {
      ras.SimDataDepth(q, 1);
      FixedDepthMapTooShallow(func, ras.GetSimData(q, 1).value, LoopDepth(q), q.Nones());
    }

    /** Everything the two halves of the finding say about one query at once: the
        as-written `getSingleDatum` raises what `allFlow` raises, agrees with the intended
        mapping whenever it returns and on every ordered query, and raises AttributeError
        on a non-empty result with a skipped level. */
    lemma AsWrittenVersusIntended<T>(func: SimData -> T, q: Query)
      ensures ras.GetSimData(q, 1).Err? ==> SingleDatumAsWritten(func, q) == Err(ras.GetSimData(q, 1).error)
      ensures SingleDatumAsWritten(func, q).Ok? ==> SingleDatumAsWritten(func, q) == SingleDatum(func, q)
      ensures (q.river.None? ==> q.reach.None?) && (q.reach.None? ==> q.rs.None?) ==>
                SingleDatumAsWritten(func, q) == SingleDatum(func, q)
      ensures ras.GetSimData(q, 1).Ok? && Inhabited(ras.GetSimData(q, 1).value) &&
              !((q.river.None? ==> q.reach.None?) && (q.reach.None? ==> q.rs.None?)) ==>
                SingleDatumAsWritten(func, q) == Err(AttributeError)
    {
      if SingleDatumAsWritten(func, q).Ok? {
        AsWrittenSound(func, q);
      }
      if (q.river.None? ==> q.reach.None?) && (q.reach.None? ==> q.rs.None?) {
        AsWrittenAgreesOnOrderedQueries(func, q);
      } else if ras.GetSimData(q, 1).Ok? && Inhabited(ras.GetSimData(q, 1).value) {
        AsWrittenRaisesOnSkippedLevel(func, q);
      }
    }

    /** Corrected `velocity(river, reach, rs)`: the velocity of every datum of `allFlow`'s
        result, at any depth. */
    function Velocity(q: Query): (r: Result<Tree<real>>)
      ensures r.Ok? <==> ras.GetSimData(q, 1).Ok?
      ensures r.Err? ==> r.error == ras.GetSimData(q, 1).error
      ensures r.Ok? ==> forall path ::
                Lookup(r.value, path) == MapSub(VelocityOf, Lookup(ras.GetSimData(q, 1).value, path))
    {
      SingleDatum(VelocityOf, q)
    }

    /** Corrected `stage(river, reach, rs)`: the maximum depth of every datum of `allFlow`'s
        result, at any depth. */
    function Stage(q: Query): (r: Result<Tree<real>>)
      ensures r.Ok? <==> ras.GetSimData(q, 1).Ok?
      ensures r.Err? ==> r.error == ras.GetSimData(q, 1).error
      ensures r.Ok? ==> forall path ::
                Lookup(r.value, path) == MapSub(MaxDepthOf, Lookup(ras.GetSimData(q, 1).value, path))
    {
      SingleDatum(MaxDepthOf, q)
    }

    /** `velocity(river, reach, rs)` as written: `getSingleDatum` with the velocity
        projection. It returns only what the corrected `Velocity` returns, and raises
        AttributeError where a name is omitted above a given one. */
    function VelocityAsWritten(q: Query): (r: Result<Tree<real>>)
      ensures ras.GetSimData(q, 1).Err? ==> r == Err(ras.GetSimData(q, 1).error)
      ensures r.Ok? ==> r == Velocity(q)
      ensures (q.river.None? ==> q.reach.None?) && (q.reach.None? ==> q.rs.None?) ==> r == Velocity(q)
      ensures ras.GetSimData(q, 1).Ok? && Inhabited(ras.GetSimData(q, 1).value) &&
              !((q.river.None? ==> q.reach.None?) && (q.reach.None? ==> q.rs.None?)) ==>
                r == Err(AttributeError)
    {
      AsWrittenVersusIntended(VelocityOf, q);
      SingleDatumAsWritten(VelocityOf, q)
    }

    /** `stage(river, reach, rs)` as written: `getSingleDatum` with the depth projection. */
    function StageAsWritten(q: Query): (r: Result<Tree<real>>)
      ensures ras.GetSimData(q, 1).Err? ==> r == Err(ras.GetSimData(q, 1).error)
      ensures r.Ok? ==> r == Stage(q)
      ensures (q.river.None? ==> q.reach.None?) && (q.reach.None? ==> q.rs.None?) ==> r == Stage(q)
      ensures ras.GetSimData(q, 1).Ok? && Inhabited(ras.GetSimData(q, 1).value) &&
              !((q.river.None? ==> q.reach.None?) && (q.reach.None? ==> q.rs.None?)) ==>
                r == Err(AttributeError)
    {
      AsWrittenVersusIntended(MaxDepthOf, q);
      SingleDatumAsWritten(MaxDepthOf, q)
    }
  }

  /** The `func` of `velocity`: `lambda x: x.velocity`. */
  function VelocityOf(d: SimData): real
  {
    d.velocity
  }

  /** The `func` of `stage`: `lambda x: x.maxDepth`. */
  function MaxDepthOf(d: SimData): real
  {
    d.maxDepth
  }

  /** The counterexample: `getSimData(None, "Main", None)` on one river "Creek" with one
      station "100" is nested two deep (river, station), but `getSingleDatum` takes its
      `reach` branch and runs one loop, applying `func` to the station dict. */
  lemma SkippedRiverExample(f: SimData -> real, sd: SimData)
    ensures var t := Branch(map["Creek" := Branch(map["100" := Leaf(sd)])]);
            && FixedDepthMap(f, t, LoopDepth(Query(None, Some("Main"), None))) == Err(AttributeError)
            && MapLeaves(f, t) == Branch(map["Creek" := Branch(map["100" := Leaf(f(sd))])])
  {
    var t := Branch(map["Creek" := Branch(map["100" := Leaf(sd)])]);
    assert FixedDepthMap(f, t.children["Creek"], 0) == Err(AttributeError);
    assert (map k | k in t.children :: MapLeaves(f, t.children[k])) ==
           map["Creek" := MapLeaves(f, Branch(map["100" := Leaf(sd)]))];
    assert (map k | k in map["100" := Leaf(sd)] :: MapLeaves(f, map["100" := Leaf(sd)][k])) ==
           map["100" := Leaf(f(sd))];
  }

  // ---------------------------------------------------------------------------------
  // Setting Manning's n

  /** One element of a list or one value of a dict given to `modifyN`: a list of ns for
      `setAllManning`, or a single n for `setMainChannelManning`. */
  datatype Item = Several(ns: seq<real>) | Single(n: real)

  /** The `manning` argument of `modifyN`, by its Python class. Dict entries are in the
      dict's iteration order. `Other` is any value of another class (an int, a tuple, ...). */
  datatype Manning =
    | Float(n: real)
    | List(items: seq<Item>)
    | Dict(entries: seq<(string, Item)>)
    | Other

  /** The roughness requests a call issues, in order, and how it ends. Requests issued
      before an exception stay issued. */
  datatype Plan = Plan(calls: seq<MannCall>, outcome: Outcome)

  /** `p` preceded by the request `c`. */
  function Then(c: MannCall, p: Plan): Plan
  {
    Plan([c] + p.calls, p.outcome)
  }

  /** The request one item makes of a cross-section, or the IndexError of a short list. */
  function ItemCall(x: XS, item: Item): (r: Result<MannCall>)
    ensures r.Ok? ==> r.value.river == x.river && r.value.reach == x.reach && r.value.rs == x.rs
    ensures item.Single? ==> r == Ok(x.MainChannelCall(item.n))
    ensures item.Several? ==> r == x.AllCall(item.ns)
  {
    match item
    case Several(ns) => x.AllCall(ns)
    case Single(n) => Ok(x.MainChannelCall(n))
  }

  /** The list branch: cross-section `i` takes `manning[i]`; running out of items raises
      IndexError. */
  function ListPlan(xses: seq<XS>, items: seq<Item>): (r: Plan)
    ensures |r.calls| <= |xses|
    ensures r.outcome == Done || r.outcome == Raised(IndexError)
    ensures r.outcome == Done ==> |r.calls| == |xses|
  {
    if xses == [] then Plan([], Done)
    else if items == [] then Plan([], Raised(IndexError))
    else match ItemCall(xses[0], items[0])
      case Err(e) => Plan([], Raised(e))
      case Ok(c) => Then(c, ListPlan(xses[1..], items[1..]))
  }

  /** The request one dict entry makes: `xsAt(rs)` (IndexError for an unknown label), then
      the value applied to that cross-section. */
  function EntryCall(rch: Reach, entry: (string, Item)): Result<MannCall>
  {
    match rch.FindXS(entry.0)
    case Err(e) => Err(e)
    case Ok(x) => ItemCall(x, entry.1)
  }

  /** The dict branch: each key is looked up with `xsAt` and its value applied there. */
  function DictPlan(rch: Reach, entries: seq<(string, Item)>): (r: Plan)
    ensures |r.calls| <= |entries|
    ensures r.outcome == Done || r.outcome == Raised(IndexError)
    ensures r.outcome == Done ==> |r.calls| == |entries|
  {
    if entries == [] then Plan([], Done)
    else match EntryCall(rch, entries[0])
      case Err(e) => Plan([], Raised(e))
      case Ok(c) => Then(c, DictPlan(rch, entries[1..]))
  }

  /** The float branch: the main-channel request for every cross-section. */
  function FloatPlan(xses: seq<XS>, n: real): (r: Plan)
    ensures |r.calls| == |xses| && r.outcome == Done
  {
    if xses == [] then Plan([], Done)
    else Then(xses[0].MainChannelCall(n), FloatPlan(xses[1..], n))
  }

  /** What `modifyN(manning, river, reach)` does: a non-empty list, a dict or a float
      first looks the reach up (IndexError if the river or the reach is missing); anything
      else, the empty list included, raises TypeError before any request. */
  function ModifyNPlan(ras: Ras, manning: Manning, river: string, reach: string): (p: Plan)
    ensures (manning.Other? || manning == List([])) ==> p == Plan([], Raised(TypeError))
    ensures !(manning.Other? || manning == List([])) && ras.FindReach(river, reach).Err? ==>
              p == Plan([], Raised(IndexError))
  {
    if manning.List? && |manning.items| > 0 then
      match ras.FindReach(river, reach)
      case Err(e) => Plan([], Raised(e))
      case Ok(rch) => ListPlan(rch.xses, manning.items)
    else if manning.Dict? then
      match ras.FindReach(river, reach)
      case Err(e) => Plan([], Raised(e))
      case Ok(rch) => DictPlan(rch, manning.entries)
    else if manning.Float? then
      match ras.FindReach(river, reach)
      case Err(e) => Plan([], Raised(e))
      case Ok(rch) => FloatPlan(rch.xses, manning.n)
    else Plan([], Raised(TypeError))
  }

  /** The float branch issues one main-channel request per cross-section, in order,
      and completes. */
  lemma {:induction false} FloatPlanSpec(xses: seq<XS>, n: real)
    ensures FloatPlan(xses, n).outcome == Done
    ensures |FloatPlan(xses, n).calls| == |xses|
    ensures forall i :: 0 <= i < |xses| ==> FloatPlan(xses, n).calls[i] == xses[i].MainChannelCall(n)
  {
    if xses != [] {
      FloatPlanSpec(xses[1..], n);
      assert forall i :: 1 <= i < |xses| ==> xses[i] == xses[1..][i - 1];
    }
  }

  /** The list branch is positional: request `i` is item `i` applied to cross-section `i`;
      it completes exactly when every cross-section was served, and otherwise stops at the
      first cross-section without an item or with a list of fewer than three ns. */
  lemma {:induction false} ListPlanSpec(xses: seq<XS>, items: seq<Item>)
    ensures var p := ListPlan(xses, items);
            && |p.calls| <= |xses| && |p.calls| <= |items|
            && (forall i :: 0 <= i < |p.calls| ==> ItemCall(xses[i], items[i]) == Ok(p.calls[i]))
            && (p.outcome == Done <==> |p.calls| == |xses|)
            && (p.outcome != Done ==>
                  p.outcome == Raised(IndexError) &&
                  (|p.calls| == |items| || ItemCall(xses[|p.calls|], items[|p.calls|]).Err?))
  {
    if xses != [] && items != [] && ItemCall(xses[0], items[0]).Ok? {
      ListPlanSpec(xses[1..], items[1..]);
      var p := ListPlan(xses[1..], items[1..]);
      assert forall i :: 1 <= i < |xses| ==> xses[i] == xses[1..][i - 1];
      assert forall i :: 1 <= i < |items| ==> items[i] == items[1..][i - 1];
    }
  }

  /** A list with an item for every cross-section, none of them a short list, completes. */
  lemma ListPlanCompletes(xses: seq<XS>, items: seq<Item>)
    requires |items| >= |xses|
    requires forall i :: 0 <= i < |xses| ==> items[i].Several? ==> |items[i].ns| >= 3
    ensures ListPlan(xses, items).outcome == Done
  {
    assert forall i :: 0 <= i < |xses| ==> ItemCall(xses[i], items[i]).Ok?;
    ListPlanSpec(xses, items);
  }

  /** The dict branch serves its entries in order, each at the first cross-section with
      that label; it completes exactly when every entry was served, and otherwise stops at
      the first label without a cross-section or value with fewer than three ns. */
  lemma {:induction false} DictPlanSpec(rch: Reach, entries: seq<(string, Item)>)
    ensures var p := DictPlan(rch, entries);
            && |p.calls| <= |entries|
            && (forall i :: 0 <= i < |p.calls| ==> EntryCall(rch, entries[i]) == Ok(p.calls[i]))
            && (p.outcome == Done <==> |p.calls| == |entries|)
            && (p.outcome != Done ==>
                  p.outcome == Raised(IndexError) && EntryCall(rch, entries[|p.calls|]).Err?)
  {
    if entries != [] && EntryCall(rch, entries[0]).Ok? {
      var c := EntryCall(rch, entries[0]).value;
      var q := DictPlan(rch, entries[1..]);
      DictPlanSpec(rch, entries[1..]);
      assert DictPlan(rch, entries) == Plan([c] + q.calls, q.outcome);
      forall i | 1 <= i < 1 + |q.calls|
        ensures EntryCall(rch, entries[i]) == Ok(([c] + q.calls)[i])
      {
        assert entries[i] == entries[1..][i - 1];
      }
      if q.outcome != Done {
        assert entries[1 + |q.calls|] == entries[1..][|q.calls|];
      }
    }
  }

  /** Every request of the dict branch goes to the station its key names. */
  lemma DictRequestsNameTheirStation(rch: Reach, entries: seq<(string, Item)>, i: nat)
    requires rch.Valid() && i < |DictPlan(rch, entries).calls|
    ensures i < |entries|
    ensures DictPlan(rch, entries).calls[i].rs == entries[i].0
    ensures DictPlan(rch, entries).calls[i].river == rch.river
    ensures DictPlan(rch, entries).calls[i].reach == rch.reach
  {
    DictPlanSpec(rch, entries);
  }

  /** `modifyN` with a float sets left, channel and right to that n at every station of
      the reach, in listing order, and completes. */
  lemma ModifyNFloat(ras: Ras, n: real, river: string, reach: string)
    requires ras.Valid() && ras.FindReach(river, reach).Ok?
    ensures var rch := ras.FindReach(river, reach).value;
            var p := ModifyNPlan(ras, Float(n), river, reach);
            && p.outcome == Done
            && |p.calls| == |rch.GetCrossSections()|
            && forall i :: 0 <= i < |p.calls| ==>
                 p.calls[i] == MannLCR(river, reach, rch.GetCrossSections()[i], n, n, n)
  {
    var rch := ras.FindReach(river, reach).value;
    ras.FoundReachValid(river, reach);
    FloatPlanSpec(rch.xses, n);
  }

  /** `modifyN` with a non-empty list serves station `i` of the reach with `manning[i]`
      (a list of ns for left, channel and right, a single n for all three); it completes
      exactly when the list covers every station and none of its lists is shorter than
      three, and raises IndexError otherwise. */
  lemma ModifyNList(ras: Ras, items: seq<Item>, river: string, reach: string)
    requires ras.Valid() && ras.FindReach(river, reach).Ok? && items != []
    ensures var rch := ras.FindReach(river, reach).value;
            var p := ModifyNPlan(ras, List(items), river, reach);
            && rch.river == river && rch.reach == reach
            && ListServes(rch, items, p)
  {
    var rch := ras.FindReach(river, reach).value;
    ras.FoundReachValid(river, reach);
    ListPlanOnReach(rch, items);
  }

  /** What the list branch does to a reach: request `i` names station `i` and carries the
      ns of item `i`; the branch completes exactly when every station has an item that is
      not a short list; the only exception is IndexError. */
  ghost predicate ListServes(rch: Reach, items: seq<Item>, p: Plan)
  {
    && (forall i :: 0 <= i < |p.calls| ==>
          && i < |items| && i < |rch.GetCrossSections()|
          && p.calls[i].river == rch.river && p.calls[i].reach == rch.reach
          && p.calls[i].rs == rch.GetCrossSections()[i]
          && (items[i].Single? ==> p.calls[i].left == p.calls[i].channel == p.calls[i].right == items[i].n)
          && (items[i].Several? ==> |items[i].ns| >= 3 && p.calls[i].left == items[i].ns[0] && p.calls[i].channel == items[i].ns[1] &&
                                    p.calls[i].right == items[i].ns[2]))
    && (p.outcome == Done <==>
          |items| >= |rch.xses| && forall i :: 0 <= i < |rch.xses| ==> items[i].Several? ==> |items[i].ns| >= 3)
    && (p.outcome.Raised? ==> p.outcome.error == IndexError)
  }

  /** The list branch on a reach of a valid tree. */
  lemma ListPlanOnReach(rch: Reach, items: seq<Item>)
    requires rch.Valid()
    ensures ListServes(rch, items, ListPlan(rch.xses, items))
  {
    ListPlanSpec(rch.xses, items);
    var p := ListPlan(rch.xses, items);
    if |items| >= |rch.xses| && forall i :: 0 <= i < |rch.xses| ==> items[i].Several? ==> |items[i].ns| >= 3 {
      ListPlanCompletes(rch.xses, items);
    }
    forall i | 0 <= i < |p.calls|
      ensures p.calls[i].river == rch.river && p.calls[i].reach == rch.reach
      ensures p.calls[i].rs == rch.GetCrossSections()[i]
    {
      assert ItemCall(rch.xses[i], items[i]) == Ok(p.calls[i]);
    }
  }

  /** `modifyN` with a dict issues its requests in key order, each to the station its key
      names in the given river and reach, and completes exactly when every key was served. */
  lemma ModifyNDict(ras: Ras, entries: seq<(string, Item)>, river: string, reach: string)
    requires ras.Valid() && ras.FindReach(river, reach).Ok?
    ensures var p := ModifyNPlan(ras, Dict(entries), river, reach);
            && |p.calls| <= |entries|
            && (forall i :: 0 <= i < |p.calls| ==>
                  p.calls[i].river == river && p.calls[i].reach == reach && p.calls[i].rs == entries[i].0)
            && (p.outcome == Done <==> |p.calls| == |entries|)
            && (p.outcome.Raised? ==> p.outcome.error == IndexError)
  {
    var rch := ras.FindReach(river, reach).value;
    ras.FoundReachValid(river, reach);
    DictPlanSpec(rch, entries);
    forall i | 0 <= i < |DictPlan(rch, entries).calls|
      ensures DictPlan(rch, entries).calls[i].river == river && DictPlan(rch, entries).calls[i].reach == reach
      ensures DictPlan(rch, entries).calls[i].rs == entries[i].0
    {
      DictRequestsNameTheirStation(rch, entries, i);
    }
  }

  /** One step of the list branch, from cross-section `i` on. */
  lemma ListPlanStep(xses: seq<XS>, items: seq<Item>, i: nat)
    requires i < |xses| && i < |items|
    ensures ItemCall(xses[i], items[i]).Err? ==>
              ListPlan(xses[i..], items[i..]) == Plan([], Raised(ItemCall(xses[i], items[i]).error))
    ensures ItemCall(xses[i], items[i]).Ok? ==>
              ListPlan(xses[i..], items[i..]) ==
              Then(ItemCall(xses[i], items[i]).value, ListPlan(xses[i + 1..], items[i + 1..]))
  {
    assert xses[i..][1..] == xses[i + 1..] && items[i..][1..] == items[i + 1..];
  }

  /** The list branch after the requests `done`, with cross-section `i` served by request
      `c`, is the list branch after `done + [c]` from cross-section `i + 1` on. */
  lemma ListAdvance(xses: seq<XS>, items: seq<Item>, i: nat, done: seq<MannCall>, c: MannCall)
    requires i < |xses| && i < |items| && ItemCall(xses[i], items[i]) == Ok(c)
    ensures Plan(done + ListPlan(xses[i..], items[i..]).calls, ListPlan(xses[i..], items[i..]).outcome)
            == Plan((done + [c]) + ListPlan(xses[i + 1..], items[i + 1..]).calls,
                    ListPlan(xses[i + 1..], items[i + 1..]).outcome)
  {
    var rest := ListPlan(xses[i + 1..], items[i + 1..]);
    ListPlanStep(xses, items, i);
    assert ListPlan(xses[i..], items[i..]) == Plan([c] + rest.calls, rest.outcome);
    assert done + ([c] + rest.calls) == (done + [c]) + rest.calls;
  }

  /** ... and with no item for cross-section `i`, or a short list, the branch ends after
      `done` with IndexError. */
  lemma ListStop(xses: seq<XS>, items: seq<Item>, i: nat, done: seq<MannCall>)
    requires i < |xses| && (i >= |items| || ItemCall(xses[i], items[i]).Err?)
    requires i <= |items|
    ensures Plan(done + ListPlan(xses[i..], items[i..]).calls, ListPlan(xses[i..], items[i..]).outcome)
            == Plan(done, Raised(IndexError))
  {
    if i < |items| {
      ListPlanStep(xses, items, i);
    } else {
      assert items[i..] == [] && xses[i..] != [];
    }
    assert done + [] == done;
  }

  /** One step of the dict branch, from entry `j` on. */
  lemma DictPlanStep(rch: Reach, entries: seq<(string, Item)>, j: nat)
    requires j < |entries|
    ensures EntryCall(rch, entries[j]).Err? ==>
              DictPlan(rch, entries[j..]) == Plan([], Raised(EntryCall(rch, entries[j]).error))
    ensures EntryCall(rch, entries[j]).Ok? ==>
              DictPlan(rch, entries[j..]) == Then(EntryCall(rch, entries[j]).value, DictPlan(rch, entries[j + 1..]))
  {
    assert entries[j..][1..] == entries[j + 1..];
  }

  /** The dict branch after the requests `done`, with entry `j` served by request `c`, is the
      dict branch after `done + [c]` from entry `j + 1` on. */
  lemma DictAdvance(rch: Reach, entries: seq<(string, Item)>, j: nat, done: seq<MannCall>, c: MannCall)
    requires j < |entries| && EntryCall(rch, entries[j]) == Ok(c)
    ensures Plan(done + DictPlan(rch, entries[j..]).calls, DictPlan(rch, entries[j..]).outcome)
            == Plan((done + [c]) + DictPlan(rch, entries[j + 1..]).calls, DictPlan(rch, entries[j + 1..]).outcome)
  {
    var rest := DictPlan(rch, entries[j + 1..]);
    DictPlanStep(rch, entries, j);
    assert DictPlan(rch, entries[j..]) == Plan([c] + rest.calls, rest.outcome);
    assert done + ([c] + rest.calls) == (done + [c]) + rest.calls;
  }

  /** ... and with entry `j` raising, the dict branch ends after `done` with that exception. */
  lemma DictStop(rch: Reach, entries: seq<(string, Item)>, j: nat, done: seq<MannCall>)
    requires j < |entries| && EntryCall(rch, entries[j]).Err?
    ensures Plan(done + DictPlan(rch, entries[j..]).calls, DictPlan(rch, entries[j..]).outcome)
            == Plan(done, Raised(EntryCall(rch, entries[j]).error))
  {
    DictPlanStep(rch, entries, j);
    assert done + [] == done;
  }

  /** One step of the float branch, from cross-section `i` on. */
  lemma FloatPlanStep(xses: seq<XS>, n: real, i: nat)
    requires i < |xses|
    ensures FloatPlan(xses[i..], n) == Then(xses[i].MainChannelCall(n), FloatPlan(xses[i + 1..], n))
  {
    assert xses[i..][1..] == xses[i + 1..];
  }

  /** The float branch after the requests `done`, with cross-section `i` served, is the float
      branch after one more main-channel request from cross-section `i + 1` on. */
  lemma FloatAdvance(xses: seq<XS>, n: real, i: nat, done: seq<MannCall>)
    requires i < |xses|
    ensures done + FloatPlan(xses[i..], n).calls == (done + [xses[i].MainChannelCall(n)]) + FloatPlan(xses[i + 1..], n).calls
  {
    var rest := FloatPlan(xses[i + 1..], n);
    FloatPlanStep(xses, n, i);
    assert FloatPlan(xses[i..], n).calls == [xses[i].MainChannelCall(n)] + rest.calls;
    assert done + ([xses[i].MainChannelCall(n)] + rest.calls) == (done + [xses[i].MainChannelCall(n)]) + rest.calls;
  }

  /** Every cross-section of a reach of a valid tree talks to the tree's service. */
  lemma ReachUsesService(rch: Reach)
    requires rch.Valid()
    ensures forall i :: 0 <= i < |rch.xses| ==> rch.xses[i].ras == rch.ras
    ensures forall x :: x in rch.xses ==> x.ras == rch.ras
  {
  }

  class ParamsAPI {
    const ras: Ras

    constructor (ras: Ras)
      ensures this.ras == ras
    {
      this.ras := ras;
    }

    /** `modifyN(manning, river, reach)`: issues exactly the requests of `ModifyNPlan`, each
        followed by a save, and ends as it says. */
    method ModifyN(manning: Manning, river: string, reach: string) returns (o: Outcome)
      requires ras.Valid()
      modifies ras.ras
      ensures ras.ras.log == old(ras.ras.log) + Writes(ModifyNPlan(ras, manning, river, reach).calls)
      ensures o == ModifyNPlan(ras, manning, river, reach).outcome
    {
      if !(manning.List? && |manning.items| > 0) && !manning.Dict? && !manning.Float? {
        return Raised(TypeError);
      }
      var found := ras.FindReach(river, reach);
      if found.Err? {
        return Raised(found.error);
      }
      var rch := found.value;
      ras.FoundReachValid(river, reach);
      ReachUsesService(rch);
      if manning.List? {
        assert ModifyNPlan(ras, manning, river, reach) == ListPlan(rch.xses, manning.items);
        o := ModifyList(ras.ras, rch.xses, manning.items);
      } else if manning.Dict? {
        assert ModifyNPlan(ras, manning, river, reach) == DictPlan(rch, manning.entries);
        o := ModifyDict(ras.ras, rch, manning.entries);
      } else {
        assert ModifyNPlan(ras, manning, river, reach) == FloatPlan(rch.xses, manning.n);
        ModifyFloat(ras.ras, rch.xses, manning.n);
        FloatPlanSpec(rch.xses, manning.n);
        o := Done;
      }
    }

    /** Applies one item to a cross-section. */
    static method Apply(x: XS, item: Item) returns (o: Outcome)
      modifies x.ras
      ensures o == (if ItemCall(x, item).Ok? then Done else Raised(ItemCall(x, item).error))
      ensures x.ras.log == old(x.ras.log) + (if ItemCall(x, item).Ok? then Writes([ItemCall(x, item).value]) else [])
    {
      if item.Several? {
        o := x.SetAllManning(item.ns);
      } else {
        x.SetMainChannelManning(item.n);
        o := Done;
      }
    }

    /** The list branch: `i` counts the cross-sections, `manning[i]` is each one's item. */
    static method ModifyList(svc: RasObject, xses: seq<XS>, items: seq<Item>) returns (o: Outcome)
      requires forall i :: 0 <= i < |xses| ==> xses[i].ras == svc
      modifies svc
      ensures svc.log == old(svc.log) + Writes(ListPlan(xses, items).calls)
      ensures o == ListPlan(xses, items).outcome
    {
      ghost var done: seq<MannCall> := [];
      var i := 0;
      while i < |xses|
        invariant 0 <= i <= |xses| && i <= |items|
        invariant svc.log == old(svc.log) + Writes(done)
        invariant ListPlan(xses, items) == Plan(done + ListPlan(xses[i..], items[i..]).calls, ListPlan(xses[i..], items[i..]).outcome)
      {
        if i >= |items| {
          ListStop(xses, items, i, done);
          return Raised(IndexError);
        }
        ghost var before := svc.log;
        var r := Apply(xses[i], items[i]);
        if r.Raised? {
          ListStop(xses, items, i, done);
          return r;
        }
        ghost var c := ItemCall(xses[i], items[i]).value;
        LogGrows(old(svc.log), before, svc.log, done, [c]);
        ListAdvance(xses, items, i, done, c);
        done := done + [c];
        i := i + 1;
      }
      assert xses[i..] == [] && done + [] == done;
      o := Done;
    }

    /** The dict branch: each key in turn through `xsAt`. */
    static method ModifyDict(svc: RasObject, rch: Reach, entries: seq<(string, Item)>) returns (o: Outcome)
      requires forall i :: 0 <= i < |rch.xses| ==> rch.xses[i].ras == svc
      modifies svc
      ensures svc.log == old(svc.log) + Writes(DictPlan(rch, entries).calls)
      ensures o == DictPlan(rch, entries).outcome
    {
      ghost var done: seq<MannCall> := [];
      var j := 0;
      while j < |entries|
        invariant 0 <= j <= |entries|
        invariant svc.log == old(svc.log) + Writes(done)
        invariant DictPlan(rch, entries) == Plan(done + DictPlan(rch, entries[j..]).calls, DictPlan(rch, entries[j..]).outcome)
      {
        ghost var before := svc.log;
        var r, issued := ModifyEntry(svc, rch, entries[j]);
        LogGrows(old(svc.log), before, svc.log, done, issued);
        if r.Raised? {
          DictStop(rch, entries, j, done);
          assert done + issued == done;
          return r;
        }
        DictAdvance(rch, entries, j, done, issued[0]);
        done := done + issued;
        j := j + 1;
      }
      assert entries[j..] == [] && done + [] == done;
      o := Done;
    }

    /** One key of the dict branch: `xs = rch.xsAt(rs)`, then the value applied there. */
    static method ModifyEntry(svc: RasObject, rch: Reach, entry: (string, Item)) returns (o: Outcome, ghost issued: seq<MannCall>)
      requires forall i :: 0 <= i < |rch.xses| ==> rch.xses[i].ras == svc
      modifies svc
      ensures o == (if EntryCall(rch, entry).Ok? then Done else Raised(EntryCall(rch, entry).error))
      ensures issued == (if EntryCall(rch, entry).Ok? then [EntryCall(rch, entry).value] else [])
      ensures svc.log == old(svc.log) + Writes(issued)
    {
      var found := rch.FindXS(entry.0);
      if found.Err? {
        return Raised(found.error), [];
      }
      assert found.value.ras == svc;
      o := Apply(found.value, entry.1);
      issued := if o == Done then [ItemCall(found.value, entry.1).value] else [];
    }

    /** The float branch: the same n for the main channel of every cross-section. */
    static method ModifyFloat(svc: RasObject, xses: seq<XS>, n: real)
      requires forall i :: 0 <= i < |xses| ==> xses[i].ras == svc
      modifies svc
      ensures svc.log == old(svc.log) + Writes(FloatPlan(xses, n).calls)
    {
      ghost var done: seq<MannCall> := [];
      var i := 0;
      while i < |xses|
        invariant 0 <= i <= |xses|
        invariant svc.log == old(svc.log) + Writes(done)
        invariant FloatPlan(xses, n).calls == done + FloatPlan(xses[i..], n).calls
      {
        FloatAdvance(xses, n, i, done);
        ghost var before := svc.log;
        xses[i].SetMainChannelManning(n);
        LogGrows(old(svc.log), before, svc.log, done, [xses[i].MainChannelCall(n)]);
        done := done + [xses[i].MainChannelCall(n)];
        i := i + 1;
      }
      assert xses[i..] == [] && done + [] == done;
    }
  }
}

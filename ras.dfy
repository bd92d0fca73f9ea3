/** The controller layer of `src/raspy_auto/ras/ras.py`: name-to-index resolution
    (`getRiverID`, `getReachID`, `getXSID`), the river -> reach -> cross-section object
    tree built from the service's listings, exact-name lookups in that tree, the
    roughness setters of a cross-section, and the nested result query `getSimData`. */
module RasTree {
  import opened Common
  import opened Names
  import opened Nested
  import opened Service

  // ---------------------------------------------------------------------------------
  // Name resolution

  /** What `getRiverID(ras, river)` returns: prefix search over the untrimmed listing. */
  function RiverIndex(svc: RasObject, river: string): Index
  {
    FirstMatch(svc.rivers, river)
  }

  /** What `getReachID(ras, river, reach)` returns: prefix search over the untrimmed reach
      listing of the river `getRiverID` resolves (or of river `0` when it resolves to
      `False`). */
  function ReachIndex(svc: RasObject, river: string, reach: string): Index
  {
    FirstMatch(svc.reachListing(ComArg(RiverIndex(svc, river))), reach)
  }

  /** The stripped station labels of the node listing `getXSID` searches. */
  function NodeLabels(svc: RasObject, river: string, reach: string): seq<string>
  {
    TrimAll(svc.nodeListing(ComArg(RiverIndex(svc, river)), ComArg(ReachIndex(svc, river, reach))))
  }

  /** What `getXSID(ras, river, reach, xs)` returns: prefix search over stripped labels. */
  function XSIndex(svc: RasObject, river: string, reach: string, rs: string): Index
  {
    FirstMatch(NodeLabels(svc, river, reach), rs)
  }

  /** The `for ix, e in enumerate(entries)` loop with early return shared by the three
      resolvers. */
  method SearchPrefix(entries: seq<string>, q: string) returns (id: Index)
    ensures id == FirstMatch(entries, q)
  {
    var ix := 0;
    while ix < |entries|
      invariant 0 <= ix <= |entries|
      invariant forall j :: 0 <= j < ix ==> !StartsWith(entries[j], q)
    {
      if StartsWith(entries[ix], q) {
        FirstMatchAt(entries, q, ix);
        return Found(ix + 1);
      }
      ix := ix + 1;
    }
    FirstMatchSpec(entries, q);
    return NotFound;
  }

  /** `getRiverID`: 1-based position of the first river whose listed name starts with
      `river`, or `False`. */
  method GetRiverID(svc: RasObject, river: string) returns (id: Index)
    ensures id == RiverIndex(svc, river)
  {
    id := SearchPrefix(svc.rivers, river);
  }

  /** `getReachID`: the same search over the reaches of the resolved river. */
  method GetReachID(svc: RasObject, river: string, reach: string) returns (id: Index)
    ensures id == ReachIndex(svc, river, reach)
  {
    var riv := GetRiverID(svc, river);
    id := SearchPrefix(svc.reachListing(ComArg(riv)), reach);
  }

  /** `getXSID`: the same search over the stripped station labels of the resolved reach. */
  method GetXSID(svc: RasObject, river: string, reach: string, rs: string) returns (id: Index)
    ensures id == XSIndex(svc, river, reach, rs)
  {
    var riv := GetRiverID(svc, river);
    var rch := GetReachID(svc, river, reach);
    var labels := TrimAll(svc.nodeListing(ComArg(riv), ComArg(rch)));
    id := SearchPrefix(labels, rs);
  }

  // ---------------------------------------------------------------------------------
  // Simulation results

  /** `SimData`: the output for one cross-section and one profile. */
  datatype SimData = SimData(velocity: real, maxDepth: real, flow: real, etc: map<string, real>)

  /** `t[0]` for the element `t` of a tuple, when both exist. */
  function HeadOf(t: Option<seq<real>>): Option<real>
  {
    if t.Some? then PyAt(t.value, 0) else None
  }

  /** The projection of a `GetVelDist` tuple into `SimData`: `sd[-1][0]` is the velocity,
      `sd[-2][0]` the depth, `sd[-3][0]` the flow, `sd[-4][0]` the area and `sd[-5][0]`
      the wetted perimeter; any missing element raises IndexError. */
  function SimDataOf(sd: seq<seq<real>>): (r: Result<SimData>)
    ensures r.Ok? <==> |sd| >= 5 && |sd[|sd| - 1]| > 0 && |sd[|sd| - 2]| > 0 &&
                       |sd[|sd| - 3]| > 0 && |sd[|sd| - 4]| > 0 && |sd[|sd| - 5]| > 0
    ensures r.Ok? ==> r.value.velocity == sd[|sd| - 1][0] && r.value.maxDepth == sd[|sd| - 2][0]
    ensures r.Ok? ==> r.value.flow == sd[|sd| - 3][0]
    ensures r.Ok? ==> r.value.etc == map["area" := sd[|sd| - 4][0], "wp" := sd[|sd| - 5][0]]
    ensures r.Err? ==> r.error == IndexError
  {
    var velocity := HeadOf(PyAt(sd, -1));
    var depth := HeadOf(PyAt(sd, -2));
    var flow := HeadOf(PyAt(sd, -3));
    var area := HeadOf(PyAt(sd, -4));
    var wp := HeadOf(PyAt(sd, -5));
    if velocity.Some? && depth.Some? && flow.Some? && area.Some? && wp.Some? then
      Ok(SimData(velocity.value, depth.value, flow.value, map["area" := area.value, "wp" := wp.value]))
    else
      Err(IndexError)
  }

  /** The arguments of `getSimData(river, reach, rs)`; `None` means omitted. */
  datatype Query = Query(river: Option<string>, reach: Option<string>, rs: Option<string>) {
    /** How many of the three names are omitted: the nesting depth of the result. */
    function Nones(): nat
    {
      (if river.None? then 1 else 0) + (if reach.None? then 1 else 0) + (if rs.None? then 1 else 0)
    }

    /** The query of the recursive call for key `k`: the first omitted name becomes `k`. */
    function Fill(k: string): (q: Query)
      requires Nones() > 0
      ensures q.Nones() == Nones() - 1
    {
      if river.None? then Query(Some(k), reach, rs)
      else if reach.None? then Query(river, Some(k), rs)
      else Query(river, reach, Some(k))
    }
  }

  // ---------------------------------------------------------------------------------
  // The object tree

  /** `XS`: a cross-section with its identity triple, resolved once at construction. */
  class XS {
    const ras: RasObject
    const river: string
    const reach: string
    const rs: string
    const riverID: Index
    const reachID: Index
    const xsID: Index

    /** The identity triple is what the three resolvers return for the names. */
    ghost predicate Valid()
    {
      && riverID == RiverIndex(ras, river)
      && reachID == ReachIndex(ras, river, reach)
      && xsID == XSIndex(ras, river, reach, rs)
    }

    constructor (ras: RasObject, river: string, reach: string, rs: string)
      ensures this.ras == ras && this.river == river && this.reach == reach && this.rs == rs
      ensures Valid()
    {
      this.ras := ras;
      this.river := river;
      this.reach := reach;
      this.rs := rs;
      var riv := GetRiverID(ras, river);
      var rch := GetReachID(ras, river, reach);
      var x := GetXSID(ras, river, reach, rs);
      riverID, reachID, xsID := riv, rch, x;
    }

    /** The request `setMainChannelManning(n)` issues: `n` for left, channel and right. */
    function MainChannelCall(n: real): (c: MannCall)
      ensures c.river == river && c.reach == reach && c.rs == rs
      ensures c.left == c.channel == c.right == n
    {
      MannLCR(river, reach, rs, n, n, n)
    }

    /** The request `setAllManning(ns)` issues: `ns[0]`, `ns[1]`, `ns[2]` as left, channel
      and right; a list of fewer than three raises IndexError before anything is issued. */
    function AllCall(ns: seq<real>): (r: Result<MannCall>)
      ensures r.Ok? <==> |ns| >= 3
      ensures r.Ok? ==> r.value.river == river && r.value.reach == reach && r.value.rs == rs
      ensures r.Ok? ==> r.value.left == ns[0] && r.value.channel == ns[1] && r.value.right == ns[2]
      ensures r.Err? ==> r.error == IndexError
    {
      if |ns| >= 3 then Ok(MannLCR(river, reach, rs, ns[0], ns[1], ns[2])) else Err(IndexError)
    }

    /** `setAllManning(ns)`. */
    method SetAllManning(ns: seq<real>) returns (o: Outcome)
      modifies ras
      ensures o == (if AllCall(ns).Ok? then Done else Raised(AllCall(ns).error))
      ensures ras.log == old(ras.log) + (if AllCall(ns).Ok? then Writes([AllCall(ns).value]) else [])
    {
      if |ns| < 3 {
        return Raised(IndexError);
      }
      ras.SetMannLCR(river, reach, rs, ns[0], ns[1], ns[2]);
      o := Done;
    }

    /** `setMainChannelManning(n)`. */
    method SetMainChannelManning(n: real)
      modifies ras
      ensures ras.log == old(ras.log) + Writes([MainChannelCall(n)])
    {
      ras.SetMannLCR(river, reach, rs, n, n, n);
    }
  }

  /** `Reach`: a reach of a river and its cross-sections, one per stripped node label. */
  class Reach {
    const ras: RasObject
    const river: string
    const reach: string
    const riverID: Index
    const reachID: Index
    const xses: seq<XS>

    /** `getCrossSections()`: the stripped labels of the node listing. */
    function GetCrossSections(): (r: seq<string>)
      ensures |r| == |ras.nodeListing(ComArg(riverID), ComArg(reachID))|
      ensures forall i :: 0 <= i < |r| ==> Stripped(r[i])
    {
      TrimAllStripped(ras.nodeListing(ComArg(riverID), ComArg(reachID)));
      TrimAll(ras.nodeListing(ComArg(riverID), ComArg(reachID)))
    }

    /** The labels of the cross-section objects, in order. */
    function Labels(): (r: seq<string>)
      ensures |r| == |xses| && forall i :: 0 <= i < |xses| ==> r[i] == xses[i].rs
    {
      seq(|xses|, i requires 0 <= i < |xses| => xses[i].rs)
    }

    ghost predicate Valid()
    {
      && riverID == RiverIndex(ras, river)
      && reachID == ReachIndex(ras, river, reach)
      && |xses| == |GetCrossSections()|
      && forall i :: 0 <= i < |xses| ==>
           && xses[i].ras == ras && xses[i].river == river && xses[i].reach == reach
           && xses[i].rs == GetCrossSections()[i] && xses[i].Valid()
    }

    constructor (ras: RasObject, river: string, reach: string)
      ensures this.ras == ras && this.river == river && this.reach == reach
      ensures Valid()
    {
      this.ras := ras;
      this.river := river;
      this.reach := reach;
      var riv := GetRiverID(ras, river);
      var rch := GetReachID(ras, river, reach);
      riverID, reachID := riv, rch;
      var labels := TrimAll(ras.nodeListing(ComArg(riv), ComArg(rch)));
      var acc: seq<XS> := [];
      var i := 0;
      while i < |labels|
        invariant 0 <= i <= |labels| && |acc| == i
        invariant forall j :: 0 <= j < i ==>
                    && acc[j].ras == ras && acc[j].river == river
                    && acc[j].reach == reach && acc[j].rs == labels[j] && acc[j].Valid()
      {
        var x := new XS(ras, river, reach, labels[i]);
        acc := acc + [x];
        i := i + 1;
      }
      xses := acc;
    }

    /** `xs(rs)`: the first cross-section whose label equals `rs`; IndexError if none. */
    function FindXS(rs: string): (r: Result<XS>)
      ensures r.Ok? <==> rs in Labels()
      ensures r.Ok? ==> r.value.rs == rs && r.value in xses
      ensures r.Ok? ==> exists i :: 0 <= i < |xses| && xses[i] == r.value &&
                          forall j :: 0 <= j < i ==> xses[j].rs != rs
      ensures r.Err? ==> r.error == IndexError
    {
      match FirstExact(Labels(), rs)
      case Some(i) => Ok(xses[i])
      case None => Err(IndexError)
    }

    /** In a reach built from the service, every cross-section's node index resolves, to its
        own 1-based position or, when an earlier label starts with its label, an earlier one. */
    lemma StationIdentity(i: nat)
      requires Valid() && i < |xses|
      ensures xses[i].xsID.Found? && xses[i].xsID.ix <= i + 1
    {
      StrippedLabelResolves(ras.nodeListing(ComArg(riverID), ComArg(reachID)), i);
    }

    /** ... and exactly its own position when no earlier label starts with it. */
    lemma UnambiguousStationIdentity(i: nat)
      requires Valid() && i < |xses|
      requires forall j :: 0 <= j < i ==> !StartsWith(xses[j].rs, xses[i].rs)
      ensures xses[i].xsID == Found(i + 1)
    {
      FirstMatchAt(GetCrossSections(), xses[i].rs, i);
    }
  }

  /** `River`: a river and its reaches, one per stripped reach name. */
  class River {
    const ras: RasObject
    const river: string
    const riverID: Index
    const reaches: seq<Reach>

    /** `getReaches()`: the stripped names of the reach listing. */
    function GetReaches(): (r: seq<string>)
      ensures |r| == |ras.reachListing(ComArg(riverID))|
      ensures forall i :: 0 <= i < |r| ==> Stripped(r[i])
    {
      TrimAllStripped(ras.reachListing(ComArg(riverID)));
      TrimAll(ras.reachListing(ComArg(riverID)))
    }

    /** The names of the reach objects, in order. */
    function ReachNames(): (r: seq<string>)
      ensures |r| == |reaches| && forall i :: 0 <= i < |reaches| ==> r[i] == reaches[i].reach
    {
      seq(|reaches|, i requires 0 <= i < |reaches| => reaches[i].reach)
    }

    ghost predicate Valid()
    {
      && riverID == RiverIndex(ras, river)
      && |reaches| == |GetReaches()|
      && forall i :: 0 <= i < |reaches| ==>
           && reaches[i].ras == ras && reaches[i].river == river
           && reaches[i].reach == GetReaches()[i] && reaches[i].Valid()
    }

    constructor (ras: RasObject, river: string)
      ensures this.ras == ras && this.river == river
      ensures Valid()
    {
      this.ras := ras;
      this.river := river;
      var riv := GetRiverID(ras, river);
      riverID := riv;
      var names := TrimAll(ras.reachListing(ComArg(riv)));
      var acc: seq<Reach> := [];
      var i := 0;
      while i < |names|
        invariant 0 <= i <= |names| && |acc| == i
        invariant forall j :: 0 <= j < i ==>
                    && acc[j].ras == ras && acc[j].river == river
                    && acc[j].reach == names[j] && acc[j].Valid()
      {
        var r := new Reach(ras, river, names[i]);
        acc := acc + [r];
        i := i + 1;
      }
      reaches := acc;
    }

    /** `reach(name)`: the first reach whose name equals `name`; IndexError if none. */
    function FindReach(name: string): (r: Result<Reach>)
      ensures r.Ok? <==> name in ReachNames()
      ensures r.Ok? ==> r.value.reach == name && r.value in reaches
      ensures r.Ok? ==> exists i :: 0 <= i < |reaches| && reaches[i] == r.value &&
                          forall j :: 0 <= j < i ==> reaches[j].reach != name
      ensures r.Err? ==> r.error == IndexError
    {
      match FirstExact(ReachNames(), name)
      case Some(i) => Ok(reaches[i])
      case None => Err(IndexError)
    }
  }

  /** `Ras`: the whole controller, holding the service and the tree of rivers. */
  class Ras {
    const ras: RasObject
    const rivers: seq<River>

    /** The names of the river objects, in order. */
    function RiverNames(): (r: seq<string>)
      ensures |r| == |rivers| && forall i :: 0 <= i < |rivers| ==> r[i] == rivers[i].river
    {
      seq(|rivers|, i requires 0 <= i < |rivers| => rivers[i].river)
    }

    /** One river object per stripped entry of the river listing, in listing order, each
        with its whole subtree built from the same service. */
    ghost predicate Valid()
    {
      && |rivers| == |ras.rivers|
      && forall i :: 0 <= i < |rivers| ==>
           rivers[i].ras == ras && rivers[i].river == Trim(ras.rivers[i]) && rivers[i].Valid()
    }

    constructor (svc: RasObject)
      ensures ras == svc
      ensures Valid()
    {
      ras := svc;
      var names := svc.rivers;
      var acc: seq<River> := [];
      var i := 0;
      while i < |names|
        invariant 0 <= i <= |names| && |acc| == i
        invariant forall j :: 0 <= j < i ==>
                    acc[j].ras == svc && acc[j].river == Trim(names[j]) && acc[j].Valid()
      {
        var r := new River(svc, Trim(names[i]));
        acc := acc + [r];
        i := i + 1;
      }
      rivers := acc;
    }

    /** `river(name)`: the first river whose name equals `name`; IndexError if none. */
    function FindRiver(name: string): (r: Result<River>)
      ensures r.Ok? <==> name in RiverNames()
      ensures r.Ok? ==> r.value.river == name && r.value in rivers
      ensures r.Ok? ==> exists i :: 0 <= i < |rivers| && rivers[i] == r.value &&
                          forall j :: 0 <= j < i ==> rivers[j].river != name
      ensures r.Err? ==> r.error == IndexError
    {
      match FirstExact(RiverNames(), name)
      case Some(i) => Ok(rivers[i])
      case None => Err(IndexError)
    }

    /** `reach(river, reach)`: `river(river).reach(reach)`. */
    function FindReach(river: string, reach: string): (r: Result<Reach>)
      ensures r.Ok? <==> FindRiver(river).Ok? && FindRiver(river).value.FindReach(reach).Ok?
      ensures r.Ok? ==> r.value == FindRiver(river).value.FindReach(reach).value
      ensures r.Ok? ==> r.value.reach == reach
      ensures r.Err? ==> r.error == IndexError
    {
      match FindRiver(river)
      case Err(e) => Err(e)
      case Ok(riv) => riv.FindReach(reach)
    }

    /** `computeSteady(plan)`: the plan is ignored and the current plan is run. */
    method ComputeSteady(plan: Option<string>)
      modifies ras
      ensures ras.log == old(ras.log) + [Event.Compute]
    {
      ras.Compute();
    }

    /** `computeUnsteady(plan)`: the same request as `computeSteady`. */
    method ComputeUnsteady(plan: Option<string>)
      modifies ras
      ensures ras.log == old(ras.log) + [Event.Compute]
    {
      ras.Compute();
    }

    /** `getSimData(river, reach, rs, prof)`: a dict comprehension over the rivers, the
        reaches of the river or the cross-sections of the reach, truncated at the most
        specific name given, and the `GetVelDist` projection at the leaves. The recursive
        calls do not pass `prof` on, so nested results are for profile 1. */
    function GetSimData(q: Query, prof: int): (r: Result<Tree<SimData>>)
      ensures r.Ok? ==> (r.value.Leaf? <==> q.Nones() == 0)
      ensures r.Err? ==> r.error == IndexError
      decreases q.Nones(), 1, 0
    {
      if q.river.None? then
        match Gather(RiverNames(), q)
        case Err(e) => Err(e)
        case Ok(m) => Ok(Branch(m))
      else if q.reach.None? then
        match FindRiver(q.river.value)
        case Err(e) => Err(e)
        case Ok(riv) =>
          match Gather(riv.ReachNames(), q)
          case Err(e) => Err(e)
          case Ok(m) => Ok(Branch(m))
      else if q.rs.None? then
        match FindRiver(q.river.value)
        case Err(e) => Err(e)
        case Ok(_) =>
          match FindReach(q.river.value, q.reach.value)
          case Err(e) => Err(e)
          case Ok(rch) =>
            match Gather(rch.Labels(), q)
            case Err(e) => Err(e)
            case Ok(m) => Ok(Branch(m))
      else
        match FindRiver(q.river.value)
        case Err(e) => Err(e)
        case Ok(riv) =>
          match riv.FindReach(q.reach.value)
          case Err(e) => Err(e)
          case Ok(rch) =>
            match rch.FindXS(q.rs.value)
            case Err(e) => Err(e)
            case Ok(xs) =>
              var sd := ras.velDist(ComArg(xs.riverID), ComArg(xs.reachID), ComArg(xs.xsID), 0, prof);
              match SimDataOf(sd)
              case Err(e) => Err(e)
              case Ok(d) => Ok(Leaf(d))
    }

    /** The dict comprehension `{k: getSimData(<q with k filled in>) for k in keys}`,
        evaluated in key order; the first raising call raises. */
    function Gather(keys: seq<string>, q: Query): (r: Result<map<string, Tree<SimData>>>)
      requires q.Nones() > 0
      ensures r.Ok? ==> r.value.Keys == set k | k in keys
      ensures r.Err? ==> r.error == IndexError
      decreases q.Nones(), 0, |keys|
    {
      if keys == [] then Ok(map[])
      else
        match GetSimData(q.Fill(keys[0]), 1)
        case Err(e) => Err(e)
        case Ok(t) =>
          match Gather(keys[1..], q)
          case Err(e) => Err(e)
          case Ok(m) => Ok(m[keys[0] := t])
    }

    /** The comprehension succeeds exactly when every recursive call does; its keys are
        exactly the given keys and each holds the result of its own recursive call. */
    lemma {:induction false} GatherSpec(keys: seq<string>, q: Query)
      requires q.Nones() > 0
      ensures Gather(keys, q).Ok? <==> forall k :: k in keys ==> GetSimData(q.Fill(k), 1).Ok?
      ensures Gather(keys, q).Ok? ==> Gather(keys, q).value.Keys == set k | k in keys
      ensures Gather(keys, q).Ok? ==>
                forall k :: k in keys ==> Gather(keys, q).value[k] == GetSimData(q.Fill(k), 1).value
      decreases |keys|
    {
      if keys != [] {
        GatherSpec(keys[1..], q);
        assert forall k :: k in keys <==> k == keys[0] || k in keys[1..];
      }
    }

    /** The result is nested exactly as deep as the number of omitted names. */
    lemma {:induction false} SimDataDepth(q: Query, prof: int)
      requires GetSimData(q, prof).Ok?
      ensures UniformDepth(GetSimData(q, prof).value, q.Nones())
      decreases q.Nones()
    {
      if q.Nones() > 0 {
        var keys :=
          if q.river.None? then RiverNames()
          else if q.reach.None? then FindRiver(q.river.value).value.ReachNames()
          else FindReach(q.river.value, q.reach.value).value.Labels();
        GatherSpec(keys, q);
        var m := Gather(keys, q).value;
        assert GetSimData(q, prof) == Ok(Branch(m));
        forall k | k in m
          ensures UniformDepth(m[k], q.Nones() - 1)
        {
          SimDataDepth(q.Fill(k), 1);
        }
      }
    }

    /** The keys follow the most specific name given: all river names when `river` is
        omitted, the river's reach names when only `reach` is omitted, the reach's station
        labels when only `rs` is omitted. */
    lemma SimDataKeys(q: Query, prof: int)
      requires GetSimData(q, prof).Ok? && q.Nones() > 0
      ensures GetSimData(q, prof).value.Branch?
      ensures q.river.None? ==>
                GetSimData(q, prof).value.children.Keys == set k | k in RiverNames()
      ensures q.river.Some? && q.reach.None? ==>
                && FindRiver(q.river.value).Ok?
                && GetSimData(q, prof).value.children.Keys ==
                   set k | k in FindRiver(q.river.value).value.ReachNames()
      ensures q.river.Some? && q.reach.Some? && q.rs.None? ==>
                && FindReach(q.river.value, q.reach.value).Ok?
                && GetSimData(q, prof).value.children.Keys ==
                   set k | k in FindReach(q.river.value, q.reach.value).value.Labels()
    {
      if q.river.None? {
        GatherSpec(RiverNames(), q);
      } else if q.reach.None? {
        GatherSpec(FindRiver(q.river.value).value.ReachNames(), q);
      } else {
        GatherSpec(FindReach(q.river.value, q.reach.value).value.Labels(), q);
      }
    }

    /** A nested query ignores `prof`: it always reports profile 1. */
    lemma NestedUsesProfileOne(q: Query, prof: int)
      requires q.Nones() > 0
      ensures GetSimData(q, prof) == GetSimData(q, 1)
    {
    }

    /** A fully specified query on a tree built from the service asks `GetVelDist` for the
        indices the three resolvers give for the names, and reports the projection of its
        answer. */
    lemma LeafQuery(river: string, reach: string, rs: string, prof: int)
      requires Valid()
      requires GetSimData(Query(Some(river), Some(reach), Some(rs)), prof).Ok?
      ensures GetSimData(Query(Some(river), Some(reach), Some(rs)), prof) ==
              var sd := ras.velDist(ComArg(RiverIndex(ras, river)), ComArg(ReachIndex(ras, river, reach)),
                                    ComArg(XSIndex(ras, river, reach, rs)), 0, prof);
              Ok(Leaf(SimDataOf(sd).value))
    {
      var riv := FindRiver(river).value;
      var i :| 0 <= i < |rivers| && rivers[i] == riv;
      var rch := riv.FindReach(reach).value;
      var j :| 0 <= j < |riv.reaches| && riv.reaches[j] == rch;
      var xs := rch.FindXS(rs).value;
      var k :| 0 <= k < |rch.xses| && rch.xses[k] == xs;
      assert xs.Valid() && xs.ras == ras && xs.river == river && xs.reach == reach;
    }

    /** A reach found by name in a valid tree is itself valid and uses the same service. */
    lemma FoundReachValid(river: string, reach: string)
      requires Valid() && FindReach(river, reach).Ok?
      ensures FindReach(river, reach).value.Valid() && FindReach(river, reach).value.ras == ras
      ensures FindReach(river, reach).value.river == river
    {
      var riv := FindRiver(river).value;
      var i :| 0 <= i < |rivers| && rivers[i] == riv;
      var rch := riv.FindReach(reach).value;
      var j :| 0 <= j < |riv.reaches| && riv.reaches[j] == rch;
    }

    /** In a valid tree the river names are the stripped river listing, in order. */
    lemma RiverNamesAreStrippedListing()
      requires Valid()
      ensures RiverNames() == TrimAll(ras.rivers)
    {
    }

    /** Each river object's index resolves to its own position in the listing or, when an
        earlier listed name starts with its name, to an earlier one (first match wins);
        listed names with leading whitespace are not covered, since stripping them leaves a
        name that is not a prefix of the listed one. */
    lemma RiverIdentity(k: nat)
      requires Valid() && k < |rivers|
      requires ras.rivers[k] == [] || !IsSpace(ras.rivers[k][0])
      ensures rivers[k].riverID.Found? && rivers[k].riverID.ix <= k + 1
      ensures (forall j :: 0 <= j < k ==> !StartsWith(ras.rivers[j], rivers[k].river)) ==>
                rivers[k].riverID == Found(k + 1)
    {
      OwnNameResolves(ras.rivers, k);
      if forall j :: 0 <= j < k ==> !StartsWith(ras.rivers[j], rivers[k].river) {
        UnambiguousNameResolvesToPosition(ras.rivers, k);
      }
    }
  }
}

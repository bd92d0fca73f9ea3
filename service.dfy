/** The HEC-RAS controller seen through the COM wrapper `RasObject`, reduced to what the
    core relies on: the river, reach and node listings, the velocity-distribution output,
    and a log of the calls that change the project. */
module Service {

  /** One `SetMannLCR(river, reach, rs, left, channel, right)` request. Manning's n values
      are opaque numbers: the core never does arithmetic on them. */
  datatype MannCall = MannLCR(river: string, reach: string, rs: string,
                              left: real, channel: real, right: real)

  /** What the controller is asked to do, in order. */
  datatype Event =
    | SetMann(call: MannCall)  // Geometry_SetMann_LChR
    | Save                     // Project_Save
    | Compute                  // Compute_CurrentPlan

  /** The events one accepted roughness request leaves behind: the edit, then a save. */
  function Committed(c: MannCall): seq<Event>
  {
    [SetMann(c), Save]
  }

  /** The events a sequence of roughness requests leaves behind, in request order. */
  function Writes(cs: seq<MannCall>): (w: seq<Event>)
    ensures |w| == 2 * |cs|
  {
    if cs == [] then [] else Committed(cs[0]) + Writes(cs[1..])
  }

  /** Every request leaves its edit at an even position, immediately followed by a save. */
  lemma {:induction false} WritesAt(cs: seq<MannCall>, i: nat)
    requires i < |cs|
    ensures Writes(cs)[2 * i] == SetMann(cs[i])
    ensures Writes(cs)[2 * i + 1] == Save
  {
    if i > 0 {
      WritesAt(cs[1..], i - 1);
      assert Writes(cs) == Committed(cs[0]) + Writes(cs[1..]);
    }
  }

  /** Requests issued one after another log their events one after another. */
  lemma {:induction false} WritesAppend(a: seq<MannCall>, b: seq<MannCall>)
    ensures Writes(a + b) == Writes(a) + Writes(b)
  {
    if a == [] {
      assert a + b == b;
    } else {
      assert (a + b)[1..] == a[1..] + b;
      WritesAppend(a[1..], b);
    }
  }

  /** A log that has grown by the events of `done` and then by those of `more` has grown by
      the events of `done + more`. */
  lemma LogGrows(start: seq<Event>, mid: seq<Event>, now: seq<Event>, done: seq<MannCall>, more: seq<MannCall>)
    requires mid == start + Writes(done) && now == mid + Writes(more)
    ensures now == start + Writes(done + more)
  {
    WritesAppend(done, more);
  }

  /** The controller. The listings are what its COM methods return for the open project;
      `GetRivers()[1]`, `GetReaches(riv)[2]` and `GetNodes(riv, rch)[3]` are the name
      tuples. The listings are fixed for the lifetime of the object: the model does not
      edit geometry. */
  class RasObject {
    /** `GetRivers()[1]`, names as the controller pads them. */
    const rivers: seq<string>
    /** `GetReaches(riv)[2]` for any integer `riv`. */
    const reachListing: int -> seq<string>
    /** `GetNodes(riv, rch)[3]`, the river-station labels. */
    const nodeListing: (int, int) -> seq<string>
    /** `GetVelDist(riv, rch, n, updn, prof)`: the tuple as a sequence of sequences. */
    const velDist: (int, int, int, int, int) -> seq<seq<real>>
    /** The project-changing calls issued so far. */
    var log: seq<Event>

    constructor (rivers: seq<string>, reachListing: int -> seq<string>,
                 nodeListing: (int, int) -> seq<string>,
                 velDist: (int, int, int, int, int) -> seq<seq<real>>)
      ensures this.rivers == rivers && this.reachListing == reachListing
      ensures this.nodeListing == nodeListing && this.velDist == velDist
      ensures log == []
    {
      this.rivers := rivers;
      this.reachListing := reachListing;
      this.nodeListing := nodeListing;
      this.velDist := velDist;
      log := [];
    }

    /** `SetMannLCR`: the left/channel/right edit, immediately saved. */
    method SetMannLCR(river: string, reach: string, rs: string, left: real, channel: real, right: real)
      modifies this
      ensures log == old(log) + Writes([MannLCR(river, reach, rs, left, channel, right)])
    {
      log := log + [SetMann(MannLCR(river, reach, rs, left, channel, right))];
      log := log + [Save];
    }

    /** `Compute`: run the current plan. */
    method Compute()
      modifies this
      ensures log == old(log) + [Event.Compute]
    {
      log := log + [Event.Compute];
    }
  }
}

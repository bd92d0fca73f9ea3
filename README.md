# raspy: a verified model of the HEC-RAS scripting core

raspy scripts the HEC-RAS hydraulic model through its COM controller. This project
models the part of raspy that does not depend on the running application. HEC-RAS itself
becomes an abstract service, `Service.RasObject`. It holds the river, reach and node
listings the controller returns, the velocity-distribution output `GetVelDist`, and a log
of the calls that change the project: a roughness edit, each followed by a save, or a
compute request.

On top of the service the model covers:

- **Name resolution** (`src/raspy_auto/ras/ras.py`, module `RasTree`):
  - `getRiverID`, `getReachID` and `getXSID` return the 1-based position of the first
    listing entry that starts with the query, or `False`. When `False` is passed on to
    the controller it is the integer 0, as in Python.
  - River and reach listings are searched as listed. Station labels are stripped first.
- **The object tree**: `Ras`, `River`, `Reach` and `XS` are classes.
  - Each has one child object per stripped listing entry, built in a loop in its
    constructor.
  - Each child resolves its identity triple once, at construction.
  - The exact-name lookups `river`, `reach` and `xs` raise IndexError when no name
    matches.
- **`getSimData`**: a nested result, river → reach → station → `SimData`.
  - It stops at the most specific name given.
  - A leaf projects fixed positions of the `GetVelDist` tuple.
  - Nested calls do not pass the profile on.
- **`api/api.py`** (module `Api`):
  - `OpsAPI.compute`.
  - `DataAPI.getSingleDatum`, modelled twice: as written, and as evidently intended (see
    Findings). `velocity` and `stage` are modelled the same way, each as written and
    corrected.
  - `ParamsAPI.modifyN` for float, list, dict and other inputs: the exact sequence of
    roughness requests it issues, and how it ends.

Python's exceptions are values: `Result`/`Outcome` carry IndexError, TypeError or
AttributeError. A request issued before an exception stays in the log, as it does against
the real controller. Dicts are `map`s, so key order is not modelled. Manning's n and the
hydraulic outputs are `real`s on which no arithmetic is done.

Four behaviours of the code are easy to miss, and the model follows the code in each:

- **Profiles.** In `getSimData` (`src/raspy_auto/ras/ras.py:77-84`) a profile number
  does not select a per-profile mapping. It is passed to `GetVelDist` for a full query and
  dropped by the recursive calls of a nested one (`RasTree.Ras.NestedUsesProfileOne`).
- **Name padding.** `getRiverID` and `getReachID` (`src/raspy_auto/ras/ras.py:158-160`,
  `164-167`) search the listing without stripping it. Resolution is therefore invariant
  under trailing padding of listing entries (`Names.FirstMatchIgnoresPadding`) but not
  under leading padding.
- **Bad lists in `modifyN`.** The list branch (`api/api.py:121-131`) checks nothing before
  it starts. A list shorter than the reach, or an inner list shorter than three, raises
  IndexError partway, after the earlier requests were issued.
- **Any-depth mapping.** The comment at `api/api.py:68` promises to map every leaf at any
  depth. The loops of `getSingleDatum` do not do that (Findings).

## Model

| member | source | states |
|---|---|---|
| Service.WritesAt | src/raspy_auto/ras/wrapper.py:126-127 | every roughness request leaves its edit at position 2i of the log, immediately followed by a save |
| Service.WritesAppend | src/raspy_auto/ras/wrapper.py:126-127 | requests issued one after another log their events one after another |
| Service.RasObject.SetMannLCR | src/raspy_auto/ras/wrapper.py:114-128 | appends the left/channel/right edit and then a save to the log, and nothing else |
| Service.RasObject.Compute | src/raspy_auto/ras/wrapper.py:104-109 | appends exactly one compute request to the log |
| Names.TrimLeftSpec | src/raspy_auto/ras/ras.py:45 | `lstrip` keeps a suffix that is empty or starts with a non-space, and drops only whitespace |
| Names.TrimRightSpec | src/raspy_auto/ras/ras.py:45 | `rstrip` keeps a prefix that is empty or ends with a non-space, and drops only whitespace |
| Names.TrimSpec | src/raspy_auto/ras/ras.py:45 | `strip` returns the slice of its argument from the first to the last non-space, and everything it drops is whitespace |
| Names.TrimAllStripped | src/raspy_auto/ras/ras.py:175 | every entry of a stripped listing is empty or starts and ends with a non-space |
| Names.ResolverArgument | src/raspy_auto/ras/ras.py:158-162 | what a resolver passes on to the controller is a position within the listing, and 0 (Python's `False`) exactly when no entry starts with the query |
| Names.FirstMatchSpec | src/raspy_auto/ras/ras.py:158-162 | the search returns a 1-based index in range whose entry starts with the query, with no earlier entry doing so; it returns `False` exactly when no entry starts with the query |
| Names.FirstMatchAt | src/raspy_auto/ras/ras.py:159-161 | when entry k is the first that starts with the query, the search returns k + 1 |
| Names.FirstExact | src/raspy_auto/ras/ras.py:60 | the position of the first name equal to the query, or none exactly when no name equals it |
| Names.TrimIsPrefix | src/raspy_auto/ras/ras.py:45 | a name with no leading whitespace starts with its stripped form |
| Names.OwnNameResolves | src/raspy_auto/ras/ras.py:158-161 | the stripped form of a listed name resolves, to that entry or an earlier one |
| Names.UnambiguousNameResolvesToPosition | src/raspy_auto/ras/ras.py:158-161 | when no earlier entry starts with it, the stripped name resolves to its own position |
| Names.PrefixShadowsLaterEntry | src/raspy_auto/ras/ras.py:160 | first match wins: with rivers "Ab" and "A", the name "A" resolves to river 1 |
| Names.StrippedLabelResolves | src/raspy_auto/ras/ras.py:175-178 | every stripped station label resolves against the stripped node listing, to its position or an earlier one |
| Names.StartsWithIgnoresPadding | src/raspy_auto/ras/ras.py:160 | a query not ending in whitespace starts a padded name exactly when it starts the unpadded one |
| Names.FirstMatchIgnoresPadding | src/raspy_auto/ras/ras.py:158-162 | resolution against a listing is unchanged when its entries carry trailing padding |
| Nested.MapLeaves | api/api.py:67-88 | the mapped structure is a leaf exactly where the input is, holds `f` of the leaf, and keeps the keys of every mapping |
| Nested.MapLeavesAt | api/api.py:67-88 | every path reaches the mapped form of what it reaches in the input, and a path missing in one is missing in the other |
| Nested.MapLeavesEverywhere | api/api.py:67-88 | the same for all paths at once |
| Nested.LeafMapped | api/api.py:75-76 | a leaf at any path holds `f` of the input's leaf at that path |
| Nested.MapLeavesIdentity | api/api.py:67-88 | mapping with the identity gives back the input |
| Nested.MapLeavesCompose | api/api.py:67-88 | mapping twice is mapping once with the composition |
| Nested.MapLeavesKeepsDepth | api/api.py:67-88 | mapping keeps the nesting depth |
| RasTree.SearchPrefix | src/raspy_auto/ras/ras.py:159-162 | the `enumerate` loop with early return computes the first-match search |
| RasTree.GetRiverID | src/raspy_auto/ras/ras.py:151-162 | returns the first-match index of the river over the untrimmed river listing |
| RasTree.GetReachID | src/raspy_auto/ras/ras.py:164-169 | returns the first-match index over the untrimmed reach listing of the resolved river (river 0 when unresolved) |
| RasTree.GetXSID | src/raspy_auto/ras/ras.py:171-179 | returns the first-match index over the stripped node listing of the resolved river and reach |
| RasTree.Ras.GetSimData | src/raspy_auto/ras/ras.py:75-99 | `getSimData` raises only IndexError, and its result is a single datum exactly when all three names are given (the rest is in the lemmas below) |
| RasTree.Ras.Gather | src/raspy_auto/ras/ras.py:77-84 | a comprehension over the given names has exactly those names as keys, and raises only IndexError |
| RasTree.SimDataOf | src/raspy_auto/ras/ras.py:89-99 | succeeds exactly when the last five tuple elements exist and are non-empty; velocity, depth, flow, area and wetted perimeter are `sd[-1][0]` to `sd[-5][0]`; IndexError otherwise |
| RasTree.XS.constructor | src/raspy_auto/ras/ras.py:115-128 | keeps the names and resolves the identity triple with the three resolvers |
| RasTree.XS.MainChannelCall | src/raspy_auto/ras/ras.py:137-142 | the request names this cross-section and writes n to left, channel and right |
| RasTree.XS.AllCall | src/raspy_auto/ras/ras.py:130-135 | the request writes `ns[0]`, `ns[1]`, `ns[2]` to left, channel, right; IndexError exactly when fewer than three are given |
| RasTree.XS.SetAllManning | src/raspy_auto/ras/ras.py:130-135 | logs that one request and a save, or raises IndexError and logs nothing |
| RasTree.XS.SetMainChannelManning | src/raspy_auto/ras/ras.py:137-142 | logs the main-channel request and a save |
| RasTree.Reach.GetCrossSections | src/raspy_auto/ras/ras.py:193-194 | one label per node-listing entry, each empty or starting and ending with a non-space |
| RasTree.Reach.constructor | src/raspy_auto/ras/ras.py:185-194 | one valid cross-section per stripped node label, in listing order, each on the same service, river and reach |
| RasTree.Reach.FindXS | src/raspy_auto/ras/ras.py:196-200 | the first cross-section whose label equals the query exactly; IndexError exactly when none does |
| RasTree.Reach.StationIdentity | src/raspy_auto/ras/ras.py:175-178 | in a reach built from the service, every station's node index resolves, to its position or an earlier one |
| RasTree.Reach.UnambiguousStationIdentity | src/raspy_auto/ras/ras.py:175-178 | the station's node index is exactly its own position when no earlier label starts with its label |
| RasTree.River.GetReaches | src/raspy_auto/ras/ras.py:212-213 | one name per reach-listing entry, each empty or starting and ending with a non-space |
| RasTree.River.constructor | src/raspy_auto/ras/ras.py:206-213 | one valid reach per stripped reach-listing entry, in listing order, each on the same service and river |
| RasTree.River.FindReach | src/raspy_auto/ras/ras.py:215-216 | the first reach whose name equals the query exactly; IndexError exactly when none does |
| RasTree.Ras.constructor | src/raspy_auto/ras/ras.py:41-45 | one valid river per stripped river-listing entry, in listing order, on the given service |
| RasTree.Ras.FindRiver | src/raspy_auto/ras/ras.py:59-60 | the first river whose name equals the query exactly; IndexError exactly when none does |
| RasTree.Ras.FindReach | src/raspy_auto/ras/ras.py:62-64 | succeeds exactly when the river and then its reach are found, and returns that reach; IndexError otherwise |
| RasTree.Ras.ComputeSteady | src/raspy_auto/ras/ras.py:66-67 | logs one compute request; the plan argument is ignored |
| RasTree.Ras.ComputeUnsteady | src/raspy_auto/ras/ras.py:69-70 | logs the same single compute request |
| RasTree.Ras.GatherSpec | src/raspy_auto/ras/ras.py:77-84 | a comprehension succeeds exactly when every recursive query does; its keys are the given names and each holds its own query's result |
| RasTree.Ras.SimDataDepth | src/raspy_auto/ras/ras.py:75-99 | a result is nested exactly as deep as the number of omitted names |
| RasTree.Ras.SimDataKeys | src/raspy_auto/ras/ras.py:76-84 | the keys are all river names, the river's reach names, or the reach's station labels, following the most specific name given |
| RasTree.Ras.NestedUsesProfileOne | src/raspy_auto/ras/ras.py:77-84 | a nested query ignores the profile argument |
| RasTree.Ras.LeafQuery | src/raspy_auto/ras/ras.py:85-99 | a full query asks `GetVelDist` for the three resolver indices of the names, with direction 0 and the given profile, and returns that tuple's projection |
| RasTree.Ras.FoundReachValid | src/raspy_auto/ras/ras.py:62-64 | a reach found by name is itself valid, on the same service and river |
| RasTree.Ras.RiverNamesAreStrippedListing | src/raspy_auto/ras/ras.py:45 | the river names are the stripped river listing, in order |
| RasTree.Ras.RiverIdentity | src/raspy_auto/ras/ras.py:45 | each river's index resolves to its position or an earlier one, and to its own position when no earlier entry starts with its name |
| Api.OpsAPI.Compute | api/api.py:46-50 | either branch logs exactly one compute request |
| Api.LoopDepth | api/api.py:71-88 | the loops nest no deeper than the result, and exactly as deep iff no name is omitted above a given one |
| Api.FixedDepthMap | api/api.py:71-88 | the fixed-depth loops fail only with AttributeError |
| Api.FixedDepthMapAgrees | api/api.py:73-88 | on a result nested exactly as deep as the loops, they map every leaf |
| Api.FixedDepthMapTooShallow | api/api.py:71-88 | on a non-empty result nested deeper than the loops, they raise AttributeError |
| Api.FixedDepthMapSound | api/api.py:71-88 | whenever the loops do not raise, they have mapped every leaf |
| Api.DataAPI.SingleDatumAsWritten | api/api.py:67-88 | as written, `getSingleDatum` raises what `allFlow` raises when it raises, and otherwise can raise only AttributeError |
| Api.DataAPI.GetSingleDatum | api/api.py:67-88 | the as-written branches and loops compute the fixed-depth rewrite of `allFlow`'s result |
| Api.DataAPI.MapLevels | api/api.py:74-87 | d nested `items()` loops with `func` innermost compute the fixed-depth rewrite |
| Api.DataAPI.SingleDatum | api/api.py:67-68 | corrected: succeeds exactly when `allFlow` does, with its error; keeps its depth; every path reaches `func` mapped over what `allFlow` has there |
| Api.DataAPI.AsWrittenSound | api/api.py:67-88 | where the as-written function does not raise, it agrees with the corrected one |
| Api.DataAPI.AsWrittenAgreesOnOrderedQueries | api/api.py:67-88 | with no name omitted above a given one, as written and corrected agree |
| Api.DataAPI.AsWrittenRaisesOnSkippedLevel | api/api.py:71-82 | with a name omitted above a given one and a non-empty result, as written raises AttributeError while the corrected version succeeds |
| Api.SkippedRiverExample | api/api.py:73-77 | for `(None, "Main", None)`: the loops raise on a two-level result, while the intended mapping returns `{"Creek": {"100": f(sd)}}` |
| Api.DataAPI.AsWrittenVersusIntended | api/api.py:67-88 | for one query: as written raises what `allFlow` raises; whenever it returns, and on every ordered query, it equals the intended mapping; on a non-empty result with a skipped level it raises AttributeError |
| Api.DataAPI.VelocityAsWritten | api/api.py:89-90 | `velocity` as written: raises what `allFlow` raises; when it returns, and on every ordered query, it equals the corrected `Velocity`; with a skipped level and a non-empty result it raises AttributeError |
| Api.DataAPI.StageAsWritten | api/api.py:91-92 | `stage` as written: the same relation to the corrected `Stage` |
| Api.DataAPI.Velocity | api/api.py:89-90 | corrected: succeeds exactly when `allFlow` does, with its error; every path reaches the velocity projection of what `allFlow` has there, and a path missing there is missing here |
| Api.DataAPI.Stage | api/api.py:91-92 | corrected: the same with the maximum depth |
| Api.ItemCall | api/api.py:125-130 | a list item writes all three ns of that cross-section, a single n writes the main channel |
| Api.ModifyNPlan | api/api.py:121-147 | any other class and the empty list raise TypeError with no request; an unknown river or reach raises IndexError with no request |
| Api.ListPlan | api/api.py:121-131 | the list branch issues at most one request per cross-section, issues one for every cross-section when it completes, and can only raise IndexError |
| Api.DictPlan | api/api.py:132-141 | the dict branch issues at most one request per entry, one for every entry when it completes, and can only raise IndexError |
| Api.FloatPlan | api/api.py:142-145 | the float branch issues exactly one request per cross-section and always completes |
| Api.FloatPlanSpec | api/api.py:142-145 | a float issues one main-channel request per cross-section, in order, and completes |
| Api.ListPlanSpec | api/api.py:121-131 | request i is item i on cross-section i; completes exactly when every cross-section was served; otherwise IndexError at the first missing item or short list |
| Api.ListPlanCompletes | api/api.py:121-131 | a list covering every cross-section, with no short inner list, completes |
| Api.DictPlanSpec | api/api.py:132-141 | entries are served in order at the first station with their label; completes exactly when all are served; otherwise IndexError at the first unknown label or short list |
| Api.DictRequestsNameTheirStation | api/api.py:135-136 | each dict request is for the station its key names, in the given river and reach |
| Api.ModifyNFloat | api/api.py:142-145 | `modifyN` with a float writes n to left, channel and right at every station of the reach, in node order, and completes |
| Api.ModifyNList | api/api.py:121-131 | `modifyN` with a list serves station i with item i; completes exactly when the list covers the reach with no short inner list; else IndexError |
| Api.ListPlanOnReach | api/api.py:121-131 | the list branch on a reach of a valid tree names the reach's stations in order |
| Api.ModifyNDict | api/api.py:132-141 | `modifyN` with a dict issues requests in key order, each for the station its key names; completes exactly when every key was served; else IndexError |
| Api.ParamsAPI.Apply | api/api.py:125-130 | one item logs its request and a save, or raises IndexError and logs nothing |
| Api.ParamsAPI.ModifyEntry | api/api.py:135-141 | one dict entry logs the request of `EntryCall`, the station lookup then the value, with a save; or raises that IndexError and logs nothing |
| Api.ParamsAPI.ModifyList | api/api.py:122-131 | the counter loop logs exactly the list branch's requests, each with a save, and ends as it says |
| Api.ParamsAPI.ModifyDict | api/api.py:134-141 | the key loop logs exactly the dict branch's requests, each with a save, and ends as it says |
| Api.ParamsAPI.ModifyFloat | api/api.py:144-145 | the loop logs exactly the float branch's requests, each with a save |
| Api.ParamsAPI.ModifyN | api/api.py:106-147 | `modifyN` logs exactly the requests of `ModifyNPlan`, each followed by a save, and ends with its outcome |

## Left out

- The COM wrappers (`src/raspy_auto/ras/wrapper.py`, `ras/wrapper.py`, `wrapper.py`) forward to the controller and hold no logic. They are replaced by `Service.RasObject`. Its listings and `GetVelDist` are fixed functions of their arguments, so geometry edits and new compute results are not modelled.
- Errors reported by the controller itself (its `errmsg` results, COM exceptions) are not modelled. Every controller call succeeds.
- `openProject`, `quit`, `save`, `currentProject`, `computeIsComplete`, `ShowRas`, `editSteadyFlow` and `setSteadyFlow` are external process control or interactive I/O. `Ras.constructor` takes an open service instead of a project path.
- The `geom` argument of `river`, `reach` and `modifyN` is ignored by the source. The model does not take it.
- `RasObject.SetMann`, the multi-point roughness call, is not used by the modelled code.
- `ras/ras.py` holds only docstrings. `api/running.py` does not parse. Neither is part of this model.
- `DataAPI.allFlow` is a plain call of `getSimData` with profile 1. `SingleDatumAsWritten` and `SingleDatum` call `Ras.GetSimData` directly.
- Api.DataAPI.GetSingleDatum: builds each rewritten dict as a new value instead of overwriting the caller's dict in place. Aliasing between the returned structure and `allFlow`'s result is not captured. Neither is the partly rewritten dict an exception leaves behind.
- Api.DataAPI.GetSingleDatum: `func` is a total function on `SimData`. Applying it to a dict is AttributeError, which holds for the attribute projections `velocity` and `stage` pass. A caller's `func` that accepts dicts is not modelled.
- Api.ParamsAPI.ModifyN: models items of a list or dict as either a list of ns or a single n. An item of another type is passed on to the controller by the source, which is not modelled.
- Dict key order and dict iteration order are not modelled. A `modifyN` dict is a sequence of entries in iteration order.
- Python's class test in `modifyN` (`__class__ ==`) is modelled by the `Manning` variant: subclasses of list, dict or float, and ints, are `Other`.
- Manning's n and the hydraulic outputs are `real`s with no arithmetic. Single-precision conversion at the COM boundary is not modelled.
- RasTree.Ras.RiverIdentity: stated only for listed names without leading whitespace. A name listed with leading whitespace is stripped, so the object's name is not a prefix of the listed entry and may not resolve at all.

## Findings

| source | as written | input that shows it | evidently intended | confidence | as-written member | corrected member |
|---|---|---|---|---|---|---|
| api/api.py:71-88 | `getSingleDatum` picks the loop depth from the first name that is given (`rs`, then `reach`, then `river`). But `getSimData` nests once per omitted name, so a query that omits an outer name and gives an inner one runs fewer loops than the result has levels, applies `func` to a dict, and raises AttributeError | `velocity(None, "Main", None)` on a project with river "Creek" whose reach "Main" has station "100": `allFlow` returns `{"Creek": {"100": sd}}`, one loop runs and `func` gets the dict `{"100": sd}` | map `func` over every leaf regardless of nesting, as the comment at api/api.py:68 says, returning `{"Creek": {"100": sd.velocity}}` | high (by reading the code, not executed) | Api.DataAPI.AsWrittenRaisesOnSkippedLevel | Api.DataAPI.SingleDatum |

# Train tracking and route simulation: a Dafny model

This project models the core of a Roblox train-tracking game. The original is written
in TypeScript and compiled with roblox-ts, so it keeps JavaScript truthiness (0, NaN and
`""` are falsy) but Luau library behaviour such as `math.clamp`. The model covers these parts:

- **Shared data and helpers:**
  - the route catalog (`RouteDefinitions`) and the route shapes derived from it (`RouteShapes`);
  - the map-coordinate helpers (`MapUtils`);
  - the cleaned schedule table (`CleanedSchedule`);
  - the one-dimensional Kalman filter (`Kalman`);
  - the segment-time statistics (`SegmentTimes`);
  - the per-train trip modifications and shape rules (`TripMod`).
- **The server tracker of player trains (`MapBroadcaster`).** On every heartbeat it matches
  the train to the nearest segment of its route and turns it round at the termini. It also
  canonicalises the matched segment and fraction and keeps a moving average of segment
  durations. Finally it predicts, smooths and resets per-station arrival times (ETAs) and
  broadcasts the result.
- **The server driver of simulated AI trains (`RouteSpawner`).** It covers spawning, the
  peak and off-peak auto-spawn pass, and the per-heartbeat step. That step takes a train out
  of the depot, along the route, round at the termini and through the station dwells, and
  the driver then reports the AI train's canonical position.
- **The client mini-map (`MapView`).** It draws the route lines and places each train icon
  on its route's UI polyline. It also renders the train's ETA list, sorted and laid out as
  text labels.

Each source file is one Dafny module. Some code changes state in place: the filters, the
segment-time calculator, the trip-modification manager, the route catalog, the tracker,
the spawner and the mini-map. That code is modelled as classes whose methods state their
whole new state.

Some records are mutated in place but only live inside a map: the tracker's `TrainState`
and the spawner's `RouteTrainState`. These are datatypes, and the owning class reassigns
the map entry. The arithmetic is pure and lives in functions, and the properties are stated
about those functions.

Clock readings (`tick()`), the current hour, the `pairs` enumeration order and geometry
the model cannot compute are parameters. Geometry like that means Euclidean lengths.

Two behaviours of the code are worth knowing before reading the model:

- **Projection onto a segment** (`src/shared/MapUtilsSimple.ts:54-59`). The code divides by
  `ab·ab` and has no guard for a zero-length segment. So `MapUtils.ProjectOntoSegment`
  requires a non-degenerate segment.
- **Canonicalising a matched position** is idempotent going forward
  (`MapBroadcaster.CanonicalizeForwardIdempotent`) but not in reverse
  (`MapBroadcaster.CanonicalizeReverseNotIdempotent` exhibits the input).

## Model

| member | source | states |
|---|---|---|
| MapUtils.Clamp | src/shared/MapUtilsSimple.ts:57 | `math.clamp`: the result lies in [lo, hi], is x inside the range and the nearer bound outside it |
| MapUtils.ProjectOntoSegment | src/shared/MapUtilsSimple.ts:54-59 | the fraction lies in [0, 1] and the returned point is `a + (b - a)·t` on the segment |
| MapUtils.ProjectionIsNearest | src/shared/MapUtilsSimple.ts:53-58 | the projected point is the closest point of the segment: no point `a + (b - a)·s` with s in [0, 1] is nearer to p in squared distance (via `SqDistAlong`, the distance as a quadratic in s, and `ClampedVertexIsLeast`, whose three cases are the vertex inside, below and above [0, 1]) |
| MapUtils.ProjectionOfPointOnSegment | src/shared/MapUtilsSimple.ts:54-59 | projecting a point of the segment gives back that point and its own fraction |
| MapUtils.ScaleRoundTrip | src/shared/MapUtilsSimple.ts:30-49 | normalising a coordinate to UI scale and back gives the coordinate again |
| MapUtils.UiToWorldInvertsWorldToUI | src/shared/MapUtilsSimple.ts:30-49 | `uiToWorld(worldToUI(c))` gives back c's x and z, at the fixed height 0.5 |
| MapUtils.WorldToUICorners | src/shared/MapUtilsSimple.ts:30-38 | the bounds' minimum corner maps to UI (0, 0) and the maximum corner to (uiWidth, uiHeight) |
| MapUtils.CoordinateTransformer.UiToWorld | src/shared/MapUtilsSimple.ts:40-49 | a UI point maps to world height 0.5 |
| CleanedSchedule.ProcessRawSchedule | src/shared/CleanedScheduleSimple.ts:15-23 | the schedule is valid, is for train "default", carries the Main table (keys 1..4) and its total is the sum of the table |
| CleanedSchedule.ProcessRawScheduleIgnoresInput | src/shared/CleanedScheduleSimple.ts:15-23 | the raw input does not influence the result |
| CleanedSchedule.GetSegmentTime | src/shared/CleanedScheduleSimple.ts:25-27 | the table entry when there is one, else the 10-second default; always positive |
| CleanedSchedule.MainTable | src/shared/CleanedScheduleSimple.ts:34-42 | the Main table holds 14, 13, 9, 10 for segments 1..4, and lookups outside it give the default |
| Kalman.Gain | src/shared/KalmanSimple.ts:77 | the gain `P/(P+R)` lies strictly between 0 and 1 and satisfies `K·(P+R) = P` |
| Kalman.FractionShrinks | src/shared/KalmanSimple.ts:80 | multiplying a variance by a fraction in (0, 1) keeps it positive and makes it smaller |
| Kalman.Step | src/shared/KalmanSimple.ts:66-83 | the value form of `KalmanSimple.update`: the first measurement is taken as is with the variance at 1e6; a later one leaves the estimate between the old estimate and the measurement and strictly lowers the variance, which stays in (0, 1e6] |
| Kalman.Confidence | src/shared/KalmanSimple.ts:41 | `1 - P/1e6` lies in [0, 1) and is 0 exactly at the initial variance |
| Kalman.ConfidenceRises | src/shared/KalmanSimple.ts:27-43 | after an update of an initialised filter the confidence strictly rises; after the first measurement it is 0 |
| Kalman.SimpleKalmanFilter.Create | src/shared/KalmanSimple.ts:56-64 | a new filter is uninitialised at x = 0 with variance 1e6 |
| Kalman.SimpleKalmanFilter.Update | src/shared/KalmanSimple.ts:66-83 | the filter's new (x, P, initialized) is `Step` of the old one and the measurement; the first measurement is taken verbatim; later ones move the estimate between the old estimate and the measurement and strictly reduce the variance; the new estimate is returned |
| Kalman.TrainKalmanFilter.constructor | src/shared/KalmanSimple.ts:21-26 | a fresh filter, the initial position, the clock reading and zero velocity |
| Kalman.TrainKalmanFilter.Update | src/shared/KalmanSimple.ts:27-32 | the filter's new state is `Step` of the old one and the position (so the first position is taken as is, with confidence 0, and a later one strictly lowers the variance and strictly raises the confidence); position, velocity and clock reading are recorded |
| Kalman.TrainKalmanFilter.Predict | src/shared/KalmanSimple.ts:34-43 | the predicted position is `x + v·(ms/1000)`, the velocity is kept, and the confidence is `Confidence(P)`, in [0, 1) and 0 exactly at the initial variance; at 0 ms the prediction is the estimate |
| Kalman.TrainKalmanFilter.GetPosition | src/shared/KalmanSimple.ts:46-48 | the filter's estimate |
| Kalman.TrainKalmanFilter.GetVelocity | src/shared/KalmanSimple.ts:50-52 | the recorded velocity |
| SegmentTimes.DefaultFor | src/shared/SegmentTimesSimple.ts:51-57 | the fallback record: average 10, bounds 8 and 12, confidence 0.5, and average within the bounds |
| SegmentTimes.Observe | src/shared/SegmentTimesSimple.ts:63-68 | the bounds widen to include the observation and only by it; confidence is unchanged; bracketed records stay bracketed |
| SegmentTimes.ObserveMovesAverage | src/shared/SegmentTimesSimple.ts:65-66 | the average moves a tenth of the way towards the observation, and stays put when the two are equal |
| SegmentTimes.FirstObservation | src/shared/SegmentTimesSimple.ts:69-76 | a first observation sets average, min and max to it with confidence 0.5 |
| SegmentTimes.Seeded | src/shared/SegmentTimesSimple.ts:14-47 | the seeded table covers segments 1..4, each record is filed under its own index and is bracketed |
| SegmentTimes.SegmentTimesCalculator.constructor | src/shared/SegmentTimesSimple.ts:14-47 | the calculator starts with the seeded table, its keys ordered 1..4 |
| SegmentTimes.SegmentTimesCalculator.GetSegmentTime | src/shared/SegmentTimesSimple.ts:49-59 | the stored record for a known segment, else the fallback; always bracketed and for the asked index |
| SegmentTimes.SegmentTimesCalculator.UpdateSegmentTime | src/shared/SegmentTimesSimple.ts:61-78 | a known segment is updated by `Observe` in place; an unknown one is added as a first observation at the end of the key order |
| SegmentTimes.SegmentTimesCalculator.GetAllSegmentTimes | src/shared/SegmentTimesSimple.ts:80-86 | one record per stored segment, in the calculator's key order (one of the orders `forEach` may take), with no segment twice |
| RouteDefinitions.Catalog | src/shared/RouteDefinitions.ts:53-192 | the catalog holds R001, R029, R026 and R001X, each filed under its own route number |
| RouteDefinitions.CatalogConsistent | src/shared/RouteDefinitions.ts:53-192 | every catalog route passes `validateRoute`, and the catalog order lists each route once |
| RouteDefinitions.RouteFrequency | src/shared/RouteDefinitions.ts:215-219 | the peak frequency when it is peak time and that frequency is set and non-zero, else the base frequency |
| RouteDefinitions.SelectedFromCatalog | src/shared/RouteDefinitions.ts:196-203 | a route is selected exactly when it is in the catalog and matches the operator filter |
| RouteDefinitions.SelectedMembers | src/shared/RouteDefinitions.ts:196-203 | a route is in `Selected` from a key list exactly when one of the keys names it and it `Matches` the filter (no filter, an empty operator, or that operator) |
| RouteDefinitions.SelectAll | src/shared/RouteDefinitions.ts:196-203 | with no filter (or an empty operator) every route is selected, in key order |
| RouteDefinitions.RouteCatalog.constructor | src/shared/RouteDefinitions.ts:53-192 | the manager starts with the catalog and its order |
| RouteDefinitions.RouteCatalog.GetRoute | src/shared/RouteDefinitions.ts:205-207 | found exactly for known route ids, and then the stored route |
| RouteDefinitions.RouteCatalog.IsOperational | src/shared/RouteDefinitions.ts:209-213 | true exactly for a known route whose operating hours include the hour |
| RouteDefinitions.RouteCatalog.GetFrequency | src/shared/RouteDefinitions.ts:215-219 | 10 for an unknown route, else the route's peak or base frequency |
| RouteDefinitions.RouteCatalog.GetAvailableRoutes | src/shared/RouteDefinitions.ts:196-203 | the routes in enumeration order (collected by `RoutesInOrder`, the loop of lines 198-200) that match the operator filter: every match and nothing else |
| RouteDefinitions.RouteCatalog.UpdateRouteWaypoints | src/shared/RouteDefinitions.ts:222-233 | a known route gets the new waypoints and nothing else changes; an unknown id changes nothing; the result says which happened |
| RouteDefinitions.RouteCatalog.ValidateRoute | src/shared/RouteDefinitions.ts:236-259 | true exactly for a known route with as many UI as world waypoints and no station index past the end |
| RouteShapes.LegacyMain | src/shared/RouteShapes.ts:14-33 | the legacy Main shape has 4 world and 4 UI waypoints, is not reversible and has StationA at waypoint 2 |
| RouteShapes.LegacyRoutes | src/shared/RouteShapes.ts:14-33 | the legacy table holds only Main |
| RouteShapes.StripWhitespace | src/shared/RouteShapes.ts:48 | the result is no longer than the input and holds no whitespace |
| RouteShapes.StripWhitespaceAppend | src/shared/RouteShapes.ts:48 | stripping distributes over concatenation, so (with `StripWhitespaceChar`: a whitespace character is dropped, any other kept) exactly the non-whitespace characters are kept, in order |
| RouteShapes.StripWhitespaceChar | src/shared/RouteShapes.ts:48 | a single whitespace character strips to nothing and any other character to itself |
| RouteShapes.StripWhitespaceKeepsClean | src/shared/RouteShapes.ts:48 | a name without whitespace is left unchanged |
| RouteShapes.StripWhitespaceIdempotent | src/shared/RouteShapes.ts:48 | stripping twice is stripping once |
| RouteShapes.IndexTableKeys | src/shared/RouteShapes.ts:44-50 | the station table's keys are exactly the stripped station names |
| RouteShapes.IndexTableLastWins | src/shared/RouteShapes.ts:44-50 | when two stations strip to the same name, the later station's waypoint index wins |
| RouteShapes.BuildStationIndices | src/shared/RouteShapes.ts:44-50 | the loop builds the station table |
| RouteShapes.ShapeOf | src/shared/RouteShapes.ts:39-58 | a route's shape carries its waypoints, its reversibility and its station table |
| RouteShapes.ScrShapes | src/shared/RouteShapes.ts:36-61 | there is one shape per catalog route |
| RouteShapes.GenerateSCRRouteShapes | src/shared/RouteShapes.ts:36-61 | the loop over the catalog builds exactly the shapes of its routes |
| RouteShapes.CreateIntegratedRouteShapes | src/shared/RouteShapes.ts:64-84 | the catalog routes' shapes plus the legacy Main |
| TripMod.ActiveShapeIsLastApplicable | src/shared/TripModSimple.ts:118-138 | without a raising rule (`Raises`), `ActiveShape` is Main when no rule applies, else the shape of the last rule whose direction applies and whose trigger `Fires` |
| TripMod.ActiveShapeRaiseSticks | src/shared/TripModSimple.ts:129-133 | once a rule makes the comparison raise (`Raises`), the whole lookup fails |
| TripMod.RuleOf | src/shared/TripModSimple.ts:38-54 | the rule a modification installs has its trigger, value, shape and direction |
| TripMod.RulesOf | src/shared/TripModSimple.ts:62-75 | one rule per modification, in order |
| TripMod.Unexpireds | src/shared/TripModSimple.ts:60 | the filter keeps exactly the `Unexpired` modifications: without expiry or with expiry (ms) after now |
| TripMod.UnexpiredsSameSize | src/shared/TripModSimple.ts:60-62 | a filter that drops nothing returns the list itself |
| TripMod.AppendKeepsMirror | src/shared/TripModSimple.ts:38-54 | appending a modification and its rule keeps the rules the image of the modifications, train by train |
| TripMod.ReplaceKeepsMirror | src/shared/TripModSimple.ts:62-75 | rebuilding one train's rules from its kept modifications keeps the rules the image of the modifications |
| TripMod.TripModSimple.constructor | src/shared/TripModSimple.ts:89-90 | no rules |
| TripMod.TripModSimple.AddRule | src/shared/TripModSimple.ts:92-110 | the rule is appended to the train's list and no other train changes |
| TripMod.TripModSimple.ClearRules | src/shared/TripModSimple.ts:112-114 | the train's rules are removed and nothing else |
| TripMod.TripModSimple.GetShapeFor | src/shared/TripModSimple.ts:118-138 | the shape the train's rules leave active, or an error when a comparison raises |
| TripMod.TripModificationManager.constructor | src/shared/TripModSimple.ts:34-36 | no modifications, with a fresh rule store |
| TripMod.TripModificationManager.AddModification | src/shared/TripModSimple.ts:38-54 | the modification is appended to its train's list, its rule to its train's rules, and the rules keep mirroring the modifications |
| TripMod.TripModificationManager.CleanupExpiredModifications | src/shared/TripModSimple.ts:56-77 | every train keeps exactly its unexpired modifications, and the rules are rebuilt to match |
| TripMod.TripModificationManager.CleanupTrain | src/shared/TripModSimple.ts:58-76 | one train's list is filtered, and its rules are rebuilt only when something expired |
| TripMod.TripModificationManager.RebuildRules | src/shared/TripModSimple.ts:62-75 | the train's rules become the rules of the kept modifications; other trains keep theirs |
| TripMod.TripModificationManager.GetActiveModifications | src/shared/TripModSimple.ts:79-81 | the train's modifications, or none |
| TripMod.TripModificationManager.GetTripStatus | src/shared/TripModSimple.ts:83-86 | Modified exactly when the train has a modification, else Normal |
| MapBroadcaster.ShapeKeyFor | src/server/MapBroadcaster.server.ts:89-104 | the route key for a train name: `_R001X` checked before `_R001`, then `_R026`, then `_R029`, else Main; every case stated as an if-and-only-if |
| MapBroadcaster.ContainsLonger | src/server/MapBroadcaster.server.ts:93-97 | a name containing `_R001X` also contains `_R001`, which is why the longer key is checked first |
| MapBroadcaster.Terminus | src/server/MapBroadcaster.server.ts:145-167 | the turn-round at each terminus of a reversible route and the wrap to segment 1 on a one-way route, each with its exact segment, fraction and direction; in every other case (a forward train at the end of a middle segment, say) the state is returned unchanged, and the list, pointer and departure time are never touched |
| MapBroadcaster.TerminusIdempotent | src/server/MapBroadcaster.server.ts:145-167 | applying the terminus rule twice is applying it once |
| MapBroadcaster.Canonicalize | src/server/MapBroadcaster.server.ts:193-221 | pinned to (1, 0) at the origin terminus and to (maxSeg, 1) at the end terminus; otherwise t near 0 becomes the end of the previous segment and t near 1 becomes 1 |
| MapBroadcaster.CanonicalizeInRange | src/server/MapBroadcaster.server.ts:193-221 | a matched position in range stays in range |
| MapBroadcaster.CanonicalizeForwardIdempotent | src/server/MapBroadcaster.server.ts:193-221 | going forward, canonicalising twice is canonicalising once |
| MapBroadcaster.CanonicalizeReverseNotIdempotent | src/server/MapBroadcaster.server.ts:200-212 | in reverse on 3 segments, (2, 0) becomes (1, 1) and then (1, 0) |
| MapBroadcaster.SegmentDuration | src/server/MapBroadcaster.server.ts:60-66 | the train's own history average, else the cleaned-schedule entry, else the fallback |
| MapBroadcaster.BaseAvg | src/server/MapBroadcaster.server.ts:227-233 | the same lookup with 30 seconds as the fallback |
| MapBroadcaster.DurationsFrame | src/server/MapBroadcaster.server.ts:59-68 | `Durations`, the ETA sum, depends only on the history of the segments it spans |
| MapBroadcaster.DurationsMonotone | src/server/MapBroadcaster.server.ts:59-68 | with non-negative durations, a longer span never sums to less |
| MapBroadcaster.EtaMonotone | src/server/MapBroadcaster.server.ts:57-70 | `Eta`: a station further along never gets an earlier raw ETA |
| MapBroadcaster.EtaExample | src/server/MapBroadcaster.server.ts:57-70 | halfway along segment 1 with no history, waypoint 4 is 0.5·14 + 13 + 9 seconds away |
| MapBroadcaster.Recorded | src/server/MapBroadcaster.server.ts:44-54 | a first departure records the elapsed time with alpha 0.2; a later one keeps alpha and sets the average to `Ema(alpha, delta, avg)` = alpha·delta + (1 - alpha)·avg, which lies between the old average and delta when alpha is in [0, 1] |
| MapBroadcaster.EmaBetween | src/server/MapBroadcaster.server.ts:49 | an exponential moving average step lies between the old average and the new sample |
| MapBroadcaster.RecordedKeepsHistoryOk | src/server/MapBroadcaster.server.ts:44-54 | recording a departure keeps every history entry at alpha 0.2 (`HistoryOk`, part of the tracker's invariant), so the new average always lies between the old one and the elapsed time |
| MapBroadcaster.MatchToRoute | src/server/MapBroadcaster.server.ts:169-187 | with fewer than two waypoints, segment 1 at t = 0; otherwise a segment whose projection is nearest (squared distance), the first such one, with its fraction and point |
| MapBroadcaster.InsertByIdx | src/server/MapBroadcaster.server.ts:117 | inserting adds exactly the new entry: the result is the input plus it, as multisets |
| MapBroadcaster.InsertKeepsSorted | src/server/MapBroadcaster.server.ts:117 | inserting into a list sorted by waypoint index keeps it sorted |
| MapBroadcaster.InsertKeepsNamesDistinct | src/server/MapBroadcaster.server.ts:114-117 | inserting a new station name keeps the names distinct |
| MapBroadcaster.LaterNameIsNew | src/server/MapBroadcaster.server.ts:114-117 | with distinct names, a station's name is not among the stations inserted before it, so each insertion is of a new name |
| MapBroadcaster.SortByIdx | src/server/MapBroadcaster.server.ts:117 | the station list sorted by waypoint index: sorted, a permutation, and names stay distinct |
| MapBroadcaster.EntriesOf | src/server/MapBroadcaster.server.ts:114-116 | one entry per station key, carrying its waypoint index |
| MapBroadcaster.EntriesAreTable | src/server/MapBroadcaster.server.ts:110-117 | the sorted list holds exactly the pairs of the station table |
| MapBroadcaster.ClampInt | src/server/MapBroadcaster.server.ts:282-283 | the broadcast segment is clamped into [1, maxSeg] and is unchanged inside it |
| MapBroadcaster.Lookup | src/server/MapBroadcaster.server.ts:227 | the history entry for a segment, present exactly for recorded segments |
| MapBroadcaster.RawEtas | src/server/MapBroadcaster.server.ts:251-256 | one raw time per station entry: `Eta` to the entry's 1-based waypoint (`RawEta`) plus the live delay |
| MapBroadcaster.PassEtas | src/server/MapBroadcaster.server.ts:241-279 | the per-station pass as a function of the station list, the raw times and the filter contents: a reached target (`Arrived`) reads 0 and leaves the filter alone; every other reported entry is one `Kalman.Step` with its raw time and reads the new estimate; the rest are skipped; the filter's variance stays in (0, 1e6] |
| MapBroadcaster.PassEtasKeys | src/server/MapBroadcaster.server.ts:251-279 | the pass reports a station exactly when it is the target or its raw time is positive, reports no other name, and a reached target reads 0 (`EtaKeys`, built one entry at a time by `EtaKeysStep`) |
| MapBroadcaster.PassEtasValue | src/server/MapBroadcaster.server.ts:258-277 | every reported value is 0 for a reached target and otherwise the filter's estimate right after the pass smoothed that entry |
| MapBroadcaster.FilterIdleUntilSmoothed | src/server/MapBroadcaster.server.ts:258-277 | entries that are skipped or are a reached target leave the filter as it was |
| MapBroadcaster.FirstSmoothedIsRaw | src/server/MapBroadcaster.server.ts:267-276 | with a filter that has taken no measurement yet, the first smoothed station reports its raw time unchanged (`KalmanSimple.update` takes the first measurement verbatim) |
| MapBroadcaster.PassEtasStep | src/server/MapBroadcaster.server.ts:247-278 | one visit of the loop body, with what it reports and the filter contents it leaves, extends the pass by that entry |
| MapBroadcaster.Located | src/server/MapBroadcaster.server.ts:139-224 | the located state keeps the station list, pointer and departure time; it is the terminus rule followed by the canonicalised match |
| MapBroadcaster.ReportFromPass | src/server/MapBroadcaster.server.ts:225-288 | the pass over the located state, with the departure rule, gives `ReportFrom`: the broadcast carries the located segment, fraction and direction and the pass's ETA map, the filter is left as the pass leaves it, the reported names are exactly those of `PassEtasKeys`, and a reached target is departed from (history by `Recorded`, pointer + 1, departure time now) while otherwise state and history are unchanged |
| MapBroadcaster.ShippedPathsNonDegenerate | src/shared/RouteDefinitions.ts:60-64 | no segment of a shipped world path has zero length: R001 and R001X's two 100-stud segments, R029's one and R026's three (lines 97-100, 132-137, 167-171), and the legacy Main path's three (src/shared/RouteShapes.ts:16-21); each squared length is computed and found non-zero |
| MapBroadcaster.IntegratedShapesOk | src/shared/RouteShapes.ts:64-87 | the table `createIntegratedRouteShapes` builds at start-up (the catalog's shapes plus the legacy Main) satisfies `ShapesOk`, the condition under which the tracker projects onto its segments, so a `Tracker` over the shipped shapes can be constructed |
| MapBroadcaster.Tracker.constructor | src/server/MapBroadcaster.server.ts:38-41 | the shapes given and empty train state, history, delays and filters |
| MapBroadcaster.Tracker.RecordDeparture | src/server/MapBroadcaster.server.ts:44-54 | the history entry of the train's last segment is updated by `Recorded` and its departure time becomes now; nothing else changes |
| MapBroadcaster.Tracker.StationEtas | src/server/MapBroadcaster.server.ts:236-279 | the loop computes `PassEtas` over `RawEtas` (with `Arrived` deciding the target) from the train's filter contents: the ETA map and the filter's new contents are the pass's; a reached target is departed from once (history entry by `Recorded`, pointer + 1); other trains, the filter table and the delays are unchanged |
| MapBroadcaster.Tracker.VisitStation | src/server/MapBroadcaster.server.ts:247-277 | one station of the loop: reported exactly when target or positive raw time; a reached target reads 0, departs once and leaves the filter; a smoothed entry moves the filter by `Step` and reads its new estimate; a skipped one changes nothing |
| MapBroadcaster.Tracker.Depart | src/server/MapBroadcaster.server.ts:261-265 | the departure is recorded and the pointer moves to the next station |
| MapBroadcaster.Tracker.Smooth | src/server/MapBroadcaster.server.ts:268-269 | the train's filter contents become `Step` of the old ones and the raw ETA (`KalmanSimple.update`), and the smoothed value is the new estimate |
| MapBroadcaster.Tracker.StartTracking | src/server/MapBroadcaster.server.ts:106-129 | a new train is `Started`: segment 1, t = 0, pointer 1, forward, departed now, its stations the station table sorted by index with distinct names; a fresh, uninitialised filter at variance 1e6 |
| MapBroadcaster.Tracker.Locate | src/server/MapBroadcaster.server.ts:139-224 | the match satisfies `Matched` (nearest segment by squared distance, the first such, its projection as the point) and the stored state is `Located`: terminus rule then canonicalisation; nothing else changes |
| MapBroadcaster.Tracker.ReportLocated | src/server/MapBroadcaster.server.ts:225-288 | steps 5 to 8 from the stored located state: the broadcast, the new state, history and filter contents satisfy `ReportFrom` |
| MapBroadcaster.Tracker.TrackTrain | src/server/MapBroadcaster.server.ts:76-288 | AI trains (`IsAiTrain`) are skipped and change nothing; every other train is registered, and one with an unknown shape is not broadcast; otherwise the broadcast's position is a `Matched` point and the broadcast, the train's new state, history and filter contents are a `ReportFrom` its `Located` state — from its stored state and filter, or, for a train seen first, from a `Started` state and a fresh filter; other trains' states and filters, and the delays, are unchanged, and only this train's history may change |
| MapBroadcaster.Tracker.Report | src/server/MapBroadcaster.server.ts:139-288 | a matched point (`Matched`) and a report from its `Located` state (`ReportFrom`): position is the projected point, segment and t the canonicalised ones, ETAs the pass's; other trains' state, history and the delays are unchanged |
| MapBroadcaster.Tracker.EtaToWp | src/server/MapBroadcaster.server.ts:57-70 | the loop computes the remaining fraction of the current segment times the base average plus the durations of the segments in between |
| RouteSpawner.InitialState | src/server/RouteSpawner.ts:95-105 | a new train starts in the depot at waypoint 0, t = 0, forward, targeting station 0, not dwelling |
| RouteSpawner.AiNamesAreSkipped | src/server/RouteSpawner.ts:58 | a train spawned without a player is named (`TrainNameFor`) with the `AI_` prefix the tracker skips (`IsAiTrain`) |
| RouteSpawner.AiNamesDistinct | src/server/RouteSpawner.ts:58 | at one clock reading, different routes give different AI names |
| RouteSpawner.ValidatedIndex | src/server/RouteSpawner.ts:144-161 | an error for an empty path; otherwise valid exactly when in range, and the index clamped into range |
| RouteSpawner.LastBelow | src/server/RouteSpawner.ts:356-363 | the index found names a station below the waypoint |
| RouteSpawner.LastBelowIsLast | src/server/RouteSpawner.ts:356-363 | the backward scan finds the last station below the waypoint, and finds none only when there is none |
| RouteSpawner.FirstAbove | src/server/RouteSpawner.ts:366-374 | the index found names a station above the waypoint |
| RouteSpawner.FirstAboveIsFirst | src/server/RouteSpawner.ts:366-374 | the forward scan finds the first station above the waypoint, and finds none only when there is none |
| RouteSpawner.ScanBackward | src/server/RouteSpawner.ts:356-363 | the backward loop computes `LastBelow` |
| RouteSpawner.ScanForward | src/server/RouteSpawner.ts:366-374 | the forward loop computes `FirstAbove` |
| RouteSpawner.DepotSegmentAtTopSpeed | src/server/RouteSpawner.ts:233-238 | `SegmentTimeFor` in the depot: segment time times top speed is the segment length |
| RouteSpawner.EvenSpreadCoversJourney | src/server/RouteSpawner.ts:239-250 | `SegmentTimeFor` in service without a table: the equal segment times add up to the journey time for the direction |
| RouteSpawner.Moved | src/server/RouteSpawner.ts:252-274 | t advances by the elapsed fraction; on reaching the waypoint t restarts at 0 and the index moves one step, and a depot train at the end of the depot path enters service at the merge point |
| RouteSpawner.AfterTerminus | src/server/RouteSpawner.ts:293-315 | forward at the end of a reversible route, turn round targeting the last station below; in reverse at the origin, restart forward targeting station 1; otherwise no change |
| RouteSpawner.TurnAtTerminus | src/server/RouteSpawner.ts:293-315 | the terminus branch, with its scan, computes `AfterTerminus` |
| RouteSpawner.AfterDwell | src/server/RouteSpawner.ts:329-396 | away from the target station nothing changes; at it the dwell starts, goes on until the dwell time has passed, then ends and targets the next station; at a terminus of a reversible route the result is also `Reversed`, so the direction flips |
| RouteSpawner.Reversed | src/server/RouteSpawner.ts:348-388 | the direction flips, the target is re-scanned in the new direction and the index is kept on the route |
| RouteSpawner.HandleStationLogic | src/server/RouteSpawner.ts:329-396 | the station handler computes `AfterDwell`, so it also turns the train round after a finished dwell at a terminus of a reversible route |
| RouteSpawner.UpdatedKeepsState | src/server/RouteSpawner.ts:174-327 | a step (`Updated`) keeps the name and route, keeps t below 1 and never takes a train in service back to the depot |
| RouteSpawner.UpdatedKeepsFraction | src/server/RouteSpawner.ts:233-263 | with positive segment times, t stays in [0, 1) |
| RouteSpawner.StepTrain | src/server/RouteSpawner.ts:186-326 | the step computes `Updated`: validation, movement or terminus, then the service logic |
| RouteSpawner.CanonicalizeAi | src/server/RouteSpawner.ts:428-450 | the spawner's copy of canonicalisation, stated case by case: (1, 0) at the origin terminus; (maxSegments, 1) at or past the last segment when heading forward with t near 1 or in reverse with t near 0 (the `>=` end test); otherwise t near 0 moves to the end of the previous segment, t near 1 snaps to 1, and any other position is kept |
| RouteSpawner.LastWaypointBroadcastsEnd | src/server/RouteSpawner.ts:410-450 | a train that has just reached the last waypoint (t within EPS of 0) is reported at the end of the last segment (segment count, t = 1) in either direction, on any path of two or more waypoints |
| RouteSpawner.CanonicalizeCopiesAgree | src/server/RouteSpawner.ts:428-450 | the two copies agree whenever the segment is within range |
| RouteSpawner.CanonicalizeCopiesDiffer | src/server/RouteSpawner.ts:440-444 | past the last segment they differ: the spawner's `>=` pins (4, 1) to (3, 1), the tracker's `==` leaves it |
| RouteSpawner.AiBroadcastOf | src/server/RouteSpawner.ts:399-467 | the AI report carries the route as shape, the direction, no ETAs, and the canonicalised segment and fraction |
| RouteSpawner.MovingBroadcastInRange | src/server/RouteSpawner.ts:415-450 | a train inside its route is reported with segment in [1, maxSeg] and t in [0, 1] |
| RouteSpawner.ReverseAtOriginBroadcastsSegmentZero | src/server/RouteSpawner.ts:415-420 | on any path of two or more waypoints, a reversing train at waypoint 0 is reported at segment 0 |
| RouteSpawner.HourOf | src/server/RouteSpawner.ts:124 | the hour of the clock reading lies in 0..23 |
| RouteSpawner.ScheduledAt | src/server/RouteSpawner.ts:127-140 | after the pass a `Due` route's last spawn is now, and every other route's is unchanged; due means operational this hour and at least the frequency (peak frequency in `IsPeakHour` hours) past the last spawn |
| RouteSpawner.SpawnedAt | src/server/RouteSpawner.ts:127-140 | after the pass the trains are the earlier ones plus one AI train in its initial state per due route |
| RouteSpawner.AutoSpawnCoversCatalog | src/server/RouteSpawner.ts:122-140 | every due catalog route gets its AI train and its spawn time |
| RouteSpawner.Spawner.constructor | src/server/RouteSpawner.ts:22-23 | no trains and no spawn times |
| RouteSpawner.Spawner.SpawnTrainForRoute | src/server/RouteSpawner.ts:53-107 | a known route gets a train in its initial state under the player's or the AI name; an unknown one changes nothing |
| RouteSpawner.Spawner.SelectRoute | src/server/RouteSpawner.ts:35-51 | a player's train is spawned exactly when the route operates in the current hour |
| RouteSpawner.Spawner.AutoSpawnTrains | src/server/RouteSpawner.ts:122-140 | the pass over the catalog sets spawn times and spawns trains exactly as `Scheduled` and `Spawned` say |
| RouteSpawner.Spawner.DespawnTrain | src/server/RouteSpawner.ts:470-476 | the train is removed and nothing else |
| RouteSpawner.Spawner.UpdateTrainOnRoute | src/server/RouteSpawner.ts:174-327 | a vanished train is removed; an unknown route or an empty path changes nothing; otherwise the state becomes `Updated`, and a train in service is reported |
| MapView.OperatorColors | src/client/MapView.client.ts:35-43 | one colour per operator: Connect, Metro, Waterline, AirLink, Express, Training, Main |
| MapView.RouteColor | src/client/MapView.client.ts:72-83 | a catalog route's own colour, else its operator's colour, else white; a key that is no catalog route takes the operator colour of that name, else white (`operatorColors.Main`) |
| MapView.CatalogColors | src/client/MapView.client.ts:72-83 | the catalog routes' line colours, and white for the legacy Main |
| MapView.CreateRouteLine | src/client/MapView.client.ts:48-65 | no line for fewer than two UI waypoints; otherwise a 3-pixel line named after the route through its UI waypoints |
| MapView.DrawRouteLines | src/client/MapView.client.ts:68-87 | a line for exactly the shapes with at least two UI waypoints, each in its route colour |
| MapView.Clamp | src/client/MapView.client.ts:119 | `math.clamp` on integers: an error when max < min, else the nearest value in range |
| MapView.InterpolateIsAffine | src/client/MapView.client.ts:122 | `A + (B - A)·t` is `A·(1 - t) + B·t`: A at t = 0 and B at t = 1 |
| MapView.PlaceIcon | src/client/MapView.client.ts:113-122 | no icon without waypoints; an error with one; otherwise the segment index clamped into [1, n - 1] |
| MapView.PlacedOnSegment | src/client/MapView.client.ts:119-122 | the icon lies on the clamped segment between its two pixel ends |
| MapView.Digit | src/client/MapView.client.ts:199-204 | a digit character for 0..9 |
| MapView.NatToString | src/client/MapView.client.ts:199-204 | decimal text of digits, one digit exactly below 10, no leading zero |
| MapView.NatToStringValue | src/client/MapView.client.ts:199-204 | the text reads back as the number |
| MapView.LuaMod60 | src/client/MapView.client.ts:200 | Luau's floored `%`: a result in [0, 60) that differs from the ETA by a multiple of 60 |
| MapView.Seconds | src/client/MapView.client.ts:200 | the whole seconds past the minute, below 60 |
| MapView.SecondsFieldValue | src/client/MapView.client.ts:203 | the seconds field is two characters and reads back as the seconds |
| MapView.ShownMinutes | src/client/MapView.client.ts:199-204 | the shown minutes m satisfy `60m - 20 ≤ eta < 60m + 40` |
| MapView.ShortEtaText | src/client/MapView.client.ts:202-203 | below a minute the `FormatEta` text is `name: 0:ss` with two-digit whole seconds |
| MapView.LongEtaText | src/client/MapView.client.ts:204 | from a minute on the `FormatEta` text is `name: m min`, rounded up from 40 seconds past |
| MapView.EtaEntries | src/client/MapView.client.ts:180-184 | one entry per station ETA |
| MapView.EtaEntriesAreMap | src/client/MapView.client.ts:180-184 | the entries are exactly the pairs of the ETA map |
| MapView.InsertByEta | src/client/MapView.client.ts:185 | inserting adds exactly the element |
| MapView.InsertByEtaSorted | src/client/MapView.client.ts:185 | inserting into a list sorted by ETA keeps it sorted |
| MapView.SortByEta | src/client/MapView.client.ts:185 | the list sorted by ETA: sorted and a permutation |
| MapView.Layout | src/client/MapView.client.ts:186-207 | a frame 20 pixels per entry, one label per entry in order with its text, every label inside the frame and none overlapping |
| MapView.RenderEtaList | src/client/MapView.client.ts:186-207 | the label loop builds the layout |
| MapView.MiniMap.ShapeFor | src/client/MapView.client.ts:110 | the route's shape, else Main |
| MapView.MiniMap.constructor | src/client/MapView.client.ts:68-87 | the lines drawn at start-up |
| MapView.MiniMap.OnMapUpdate | src/client/MapView.client.ts:100-209 | nothing drawn for a zero-width map or a shape with under two UI waypoints; otherwise the train's icon moves to the placed position with the sorted ETA list laid out |

## Left out

- Euclidean lengths (`Magnitude`, square roots) cannot be computed over the reals used here. Map matching compares squared distances, which picks the same nearest segment. The depot segment length is a parameter of the step.
- Rendering and engine calls are not modelled:
  - CFrame placement, `Lerp`, the icon's rotation (`atan2`) and tweens;
  - Roblox instances and GUI objects, and the remote events;
  - the heartbeat and workspace wiring, and debug prints and warnings.
- `broadcastScheduleUpdate` and `broadcastTripModification` only fire remote events and are not modelled.
- `src/shared/RemoteEvents.ts`, `src/client/RouteSelection.client.ts` and `src/server/main.server.ts` are not part of this model. They only wire events and user interface.
- `pairs` visits keys in an unspecified order, so that order is a parameter: `OrderedKeys` lists each key once.
- SegmentTimes.SegmentTimesCalculator.GetAllSegmentTimes: the calculator keeps its keys in the order they were first added and returns the records in that order. The source's `Map` compiles to a Luau table whose `forEach` promises no order, so this is one order the source may produce, not the only one.
- TripMod.TripModSimple.AddRule: the direction parameter has no default. The source defaults it to `"both"`, but both of its callers pass the modification's direction.
- SegmentTimes.SegmentTimesCalculator.GetSegmentTime: returns the record as a value. The source hands out the stored object, and a caller that changed it would change the table; nothing in the source calls `getSegmentTime`.
- MapBroadcaster.Tracker.TrackTrain: that other trains' filters keep their contents is stated by the `modifies` clause (only this train's filter object may change) together with `FiltersDistinct` (no two trains share a filter object), not by a separate ensures.
- `table.sort` is not stable. The model sorts by insertion, so equal keys keep their input order, which is one of the orders the source may produce.
- Floating point is modelled as exact reals: no NaN, no infinity and no rounding.
- Clock readings and the current hour are parameters. One auto-spawn pass uses a single clock reading for its AI names.
- MapBroadcaster.Tracker: nothing writes the live-delay table, so the model reads it but no operation changes it.
- MapUtils.ProjectOntoSegment: requires a segment of non-zero length, because the source divides by its squared length.
- TripMod.TripModSimple.GetShapeFor: a segment rule whose value is text makes Luau's `>=` raise. The model returns `None` for that error.
- TripMod.TripModificationManager.RebuildRules: requires that every kept modification belongs to the train. That is how the cleanup calls it.
- RouteSpawner.SegmentTimeFor: a zero top speed gives `Forever` (the train never reaches the next waypoint) instead of Luau's infinite division.
- RouteSpawner.UpdatedKeepsFraction: proved only for positive segment times and journey times, which every catalog route has.
- RouteSpawner.Spawner.UpdateTrainOnRoute: the "Returning" phase exists in the source's type but is never entered, so the model has no transitions for it.
- RouteSpawner.Spawner.UpdateTrainOnRoute: on an empty waypoint path the source's `math.clamp` raises, which aborts the rest of that heartbeat. The model leaves this train unchanged and does not model the skipped updates of the other trains.
- MapView.MiniMap.OnMapUpdate: `math.clamp` raises when a shape has exactly one UI waypoint. The model leaves the icons unchanged, as the aborted callback does.

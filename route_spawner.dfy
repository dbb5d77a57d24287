/** The server-side driver of simulated trains (src/server/RouteSpawner.ts).
    Each spawned train carries a `RouteTrainState` that the heartbeat
    advances in place: out of the depot, along the route, round at the
    termini and through the station dwells. The Roblox instances, the
    interpolated position and the remote events are left to the caller:
    `UpdateTrainOnRoute` is the per-train step and returns what would be
    broadcast. */
module RouteSpawner {
  import opened Wrappers
  import opened Vectors
  import opened RouteDefinitions
  import MB = MapBroadcaster

  datatype Phase = Depot | Service | Returning

  /** `RouteTrainState`. `waypointIndex` is 0-based into the depot path
      (depot phase) or the route's waypoints; `t` is the fraction of the
      segment towards the next waypoint in the direction of travel. */
  datatype RouteTrainState = RouteTrainState(
    trainName: string,
    routeId: string,
    currentPhase: Phase,
    waypointIndex: int,
    t: real,
    direction: MB.Direction,
    nextStationIndex: int,
    dwellStartTime: Option<real>)

  /** The arguments of an AI train's map-update broadcast (its position is
      the interpolated part position, which is not modelled). */
  datatype AiBroadcast = AiBroadcast(
    trainName: string,
    seg: int,
    t: real,
    stationETAs: map<string, real>,
    shapeKey: string,
    direction: MB.Direction)

  /** The state of a train just spawned at its route's depot. */
  function InitialState(trainName: string, routeId: string): (s: RouteTrainState)
    ensures s.trainName == trainName && s.routeId == routeId
    ensures s.currentPhase == Depot && s.waypointIndex == 0 && s.t == 0.0
    ensures s.direction == MB.Forward && s.nextStationIndex == 0 && s.dwellStartTime == None
  {
    RouteTrainState(trainName, routeId, Depot, 0, 0.0, MB.Forward, 0, None)
  }

  /** The name of a spawned train: the player's name and the route when a
      (non-empty) player name is given, otherwise `AI_`, the route and the
      clock reading `stamp` as text. */
  function TrainNameFor(routeId: string, playerName: Option<string>, stamp: string): string {
    if playerName.Some? && playerName.value != "" then playerName.value + "_" + routeId
    else "AI_" + routeId + "_" + stamp
  }

  /** Trains spawned without a player carry the `AI_` prefix, so the sensed
      train tracker skips them. */
  lemma AiNamesAreSkipped(routeId: string, stamp: string)
    ensures MB.IsAiTrain(TrainNameFor(routeId, None, stamp))
  {
    var name := TrainNameFor(routeId, None, stamp);
    assert name[..3] == "AI_";
  }

  /** With one clock reading, different routes get different AI names. */
  lemma AiNamesDistinct(a: string, b: string, stamp: string)
    requires TrainNameFor(a, None, stamp) == TrainNameFor(b, None, stamp)
    ensures a == b
  {
    var na := TrainNameFor(a, None, stamp);
    var nb := TrainNameFor(b, None, stamp);
    assert |a| == |b|;
    assert a == na[3..3 + |a|];
    assert b == nb[3..3 + |b|];
  }

  // ---------------------------------------------------------------------
  // Waypoint index validation

  /** The outcome of `validateWaypointIndex`: whether the index was valid,
      and the index after clamping. */
  datatype IndexCheck = IndexCheck(valid: bool, index: int)

  /** `validateWaypointIndex` over a path of `size` waypoints. An index in
      [0, size - 1] is valid and kept; any other is clamped into that range.
      On an empty path the range is empty and Luau's `math.clamp` raises an
      error, which is `None` here. */
  function ValidatedIndex(index: int, size: int): (r: Option<IndexCheck>)
    ensures r.None? <==> (size < 1)
    ensures r.Some? ==> (r.value.valid <==> 0 <= index <= size - 1)
    ensures r.Some? ==> 0 <= r.value.index <= size - 1
    ensures r.Some? && r.value.valid ==> r.value.index == index
    ensures r.Some? && index < 0 ==> r.value.index == 0
    ensures r.Some? && index > size - 1 ==> r.value.index == size - 1
  {
    var maxIndex := size - 1;
    if 0 <= index <= maxIndex then Some(IndexCheck(true, index))
    else if maxIndex < 0 then None
    else Some(IndexCheck(false, if index < 0 then 0 else maxIndex))
  }

  // ---------------------------------------------------------------------
  // Station scans

  /** The last station whose waypoint lies below `w`. */
  function LastBelow(stations: seq<StationStop>, w: int): (r: Option<int>)
    ensures r.Some? ==> 0 <= r.value < |stations| && stations[r.value].waypointIndex < w
  {
    if stations == [] then None
    else if stations[|stations| - 1].waypointIndex < w then Some(|stations| - 1)
    else LastBelow(stations[..|stations| - 1], w)
  }

  /** No later station lies below `w`; when there is none, none does. */
  lemma {:induction false} LastBelowIsLast(stations: seq<StationStop>, w: int)
    ensures LastBelow(stations, w).Some? ==>
      forall j :: LastBelow(stations, w).value < j < |stations| ==> stations[j].waypointIndex >= w
    ensures LastBelow(stations, w).None? ==>
      forall j :: 0 <= j < |stations| ==> stations[j].waypointIndex >= w
  {
    if stations != [] && stations[|stations| - 1].waypointIndex >= w {
      var init := stations[..|stations| - 1];
      LastBelowIsLast(init, w);
      assert forall j :: 0 <= j < |init| ==> init[j] == stations[j];
    }
  }

  /** The first station whose waypoint lies above `w`. */
  function FirstAbove(stations: seq<StationStop>, w: int): (r: Option<int>)
    ensures r.Some? ==> 0 <= r.value < |stations| && stations[r.value].waypointIndex > w
  {
    if stations == [] then None
    else if stations[0].waypointIndex > w then Some(0)
    else match FirstAbove(stations[1..], w)
      case Some(i) => Some(i + 1)
      case None => None
  }

  /** No earlier station lies above `w`; when there is none, none does. */
  lemma {:induction false} FirstAboveIsFirst(stations: seq<StationStop>, w: int)
    ensures FirstAbove(stations, w).Some? ==>
      forall j :: 0 <= j < FirstAbove(stations, w).value ==> stations[j].waypointIndex <= w
    ensures FirstAbove(stations, w).None? ==>
      forall j :: 0 <= j < |stations| ==> stations[j].waypointIndex <= w
  {
    if stations != [] && stations[0].waypointIndex <= w {
      FirstAboveIsFirst(stations[1..], w);
      assert forall j :: 1 <= j < |stations| ==> stations[j] == stations[1..][j - 1];
    }
  }

  /** The backward station scan (`for i = size - 1 down to 0 ... break`). */
  method ScanBackward(stations: seq<StationStop>, w: int) returns (r: Option<int>)
    ensures r == LastBelow(stations, w)
  {
    var i := |stations| - 1;
    assert stations[..i + 1] == stations;
    while i >= 0
      invariant -1 <= i <= |stations| - 1
      invariant LastBelow(stations, w) == LastBelow(stations[..i + 1], w)
    {
      if stations[i].waypointIndex < w {
        return Some(i);
      }
      assert stations[..i + 1][..i] == stations[..i];
      i := i - 1;
    }
    return None;
  }

  /** The forward station scan (`for i = 0 up to size - 1 ... break`). */
  method ScanForward(stations: seq<StationStop>, w: int) returns (r: Option<int>)
    ensures r == FirstAbove(stations, w)
  {
    var i := 0;
    while i < |stations|
      invariant 0 <= i <= |stations|
      invariant FirstAbove(stations, w) == Shifted(FirstAbove(stations[i..], w), i)
    {
      if stations[i].waypointIndex > w {
        return Some(i);
      }
      assert stations[i..][1..] == stations[i + 1..];
      i := i + 1;
    }
    return None;
  }

  /** An index into a suffix starting at `k`, as an index into the whole. */
  function Shifted(r: Option<int>, k: int): Option<int> {
    match r
    case Some(i) => Some(i + k)
    case None => None
  }

  // ---------------------------------------------------------------------
  // Moving along the path

  /** Seconds the train takes for its current segment, or `Forever` when
      the division by a zero speed leaves it standing still. */
  datatype SegmentTime = Secs(secs: real) | Forever

  /** Whether the train can move on along `maxIndex + 1` waypoints in its
      direction of travel. */
  predicate CanMove(s: RouteTrainState, maxIndex: int) {
    (s.direction == MB.Forward && s.waypointIndex < maxIndex) ||
    (s.direction == MB.Reverse && s.waypointIndex > 0)
  }

  /** The time for the current segment. In the depot: the segment's length
      over the route's top speed. In service: the route's table entry for
      the direction and the segment's first waypoint, else the journey time
      for the direction (minutes) spread evenly over the segments. */
  function SegmentTimeFor(s: RouteTrainState, route: RouteDefinition, numSegments: int, segmentLength: real): SegmentTime
    requires numSegments >= 1
  {
    if s.currentPhase == Depot then
      if route.maxSpeed == 0.0 then Forever else Secs(segmentLength / route.maxSpeed)
    else
      var table := if route.segmentTimes.None? then map[]
        else if s.direction == MB.Forward then route.segmentTimes.value.forward
        else route.segmentTimes.value.reverse;
      if s.waypointIndex in table then Secs(table[s.waypointIndex])
      else
        var total := if s.direction == MB.Forward then route.journeyTime.forward else route.journeyTime.reverse;
        Secs(total * 60.0 / numSegments as real)
  }

  /** In the depot the segment time is the time to cover the segment at the
      route's top speed. */
  lemma DepotSegmentAtTopSpeed(s: RouteTrainState, route: RouteDefinition, numSegments: int, segmentLength: real)
    requires numSegments >= 1 && s.currentPhase == Depot && route.maxSpeed != 0.0
    ensures SegmentTimeFor(s, route, numSegments, segmentLength).Secs?
    ensures SegmentTimeFor(s, route, numSegments, segmentLength).secs * route.maxSpeed == segmentLength
  {
  }

  /** In service without a table entry for the segment, `numSegments` equal
      segment times add up to the journey time for the direction. */
  lemma EvenSpreadCoversJourney(s: RouteTrainState, route: RouteDefinition, numSegments: int, segmentLength: real)
    requires numSegments >= 1 && s.currentPhase != Depot && route.segmentTimes.None?
    ensures SegmentTimeFor(s, route, numSegments, segmentLength).Secs?
    ensures SegmentTimeFor(s, route, numSegments, segmentLength).secs * numSegments as real ==
      (if s.direction == MB.Forward then route.journeyTime.forward else route.journeyTime.reverse) * 60.0
  {
  }

  /** Whether adding `deltaTime / segmentTime` to `t` reaches the next
      waypoint. A zero segment time is an infinite step. */
  predicate Reached(t: real, deltaTime: real, st: SegmentTime) {
    match st
    case Forever => t >= 1.0
    case Secs(v) => v == 0.0 || t + deltaTime / v >= 1.0
  }

  /** The fraction after a step that does not reach the next waypoint. */
  function Advanced(t: real, deltaTime: real, st: SegmentTime): real {
    match st
    case Forever => t
    case Secs(v) => if v == 0.0 then t else t + deltaTime / v
  }

  /** A heartbeat of movement for a train that can move: `t` advances by
      the elapsed fraction of the segment; on reaching the next waypoint `t`
      restarts at 0 and the index moves one waypoint in the direction of
      travel, and a depot train that reaches the end of the depot path
      enters service at the route's merge point. */
  function Moved(s: RouteTrainState, route: RouteDefinition, wps: int, deltaTime: real, segmentLength: real)
    : (r: RouteTrainState)
    requires CanMove(s, wps - 1) && 0 <= s.waypointIndex <= wps - 1
    ensures r.trainName == s.trainName && r.routeId == s.routeId && r.direction == s.direction
    ensures r.nextStationIndex == s.nextStationIndex && r.dwellStartTime == s.dwellStartTime
    ensures var st := SegmentTimeFor(s, route, wps - 1, segmentLength);
      !Reached(s.t, deltaTime, st) ==> r == s.(t := Advanced(s.t, deltaTime, st)) && r.t < 1.0
    ensures var st := SegmentTimeFor(s, route, wps - 1, segmentLength);
      var step := if s.direction == MB.Forward then 1 else -1;
      Reached(s.t, deltaTime, st) ==>
        r.t == 0.0 &&
        if s.currentPhase == Depot && s.waypointIndex + step >= wps - 1
        then r.currentPhase == Service && r.waypointIndex == route.mergePoint
        else r.currentPhase == s.currentPhase && r.waypointIndex == s.waypointIndex + step
  {
    var st := SegmentTimeFor(s, route, wps - 1, segmentLength);
    if !Reached(s.t, deltaTime, st) then s.(t := Advanced(s.t, deltaTime, st))
    else
      var index := if s.direction == MB.Forward then s.waypointIndex + 1 else s.waypointIndex - 1;
      // the index stays on the path, so re-validating it changes nothing
      assert ValidatedIndex(index, wps) == Some(IndexCheck(true, index));
      if s.currentPhase == Depot && index >= wps - 1 then
        s.(t := 0.0, currentPhase := Service, waypointIndex := route.mergePoint)
      else s.(t := 0.0, waypointIndex := index)
  }

  // ---------------------------------------------------------------------
  // Termini

  /** A train that cannot move on. Going forward at (or past) the last
      waypoint, it turns round on a reversible route, pinned to the last
      waypoint, and targets the last station below it (the target is kept
      when there is none); on other routes it stays put. Going in reverse at
      (or before) the first waypoint it restarts forward from waypoint 0,
      targeting station 1, whether or not the route is reversible. */
  function AfterTerminus(s: RouteTrainState, route: RouteDefinition, maxIndex: int): (r: RouteTrainState)
    ensures r.trainName == s.trainName && r.routeId == s.routeId && r.currentPhase == s.currentPhase
    ensures r.dwellStartTime == s.dwellStartTime
    ensures s.direction == MB.Forward && s.waypointIndex >= maxIndex && route.allowReverse ==>
      r.direction == MB.Reverse && r.waypointIndex == maxIndex && r.t == 0.0 &&
      r.nextStationIndex == LastBelow(route.stations, maxIndex).GetOr(s.nextStationIndex)
    ensures s.direction == MB.Reverse && s.waypointIndex <= 0 ==>
      r.direction == MB.Forward && r.waypointIndex == 0 && r.t == 0.0 && r.nextStationIndex == 1
    ensures (!(s.direction == MB.Forward && s.waypointIndex >= maxIndex && route.allowReverse) &&
             !(s.direction == MB.Reverse && s.waypointIndex <= 0)) ==> r == s
  {
    if s.direction == MB.Forward && s.waypointIndex >= maxIndex then
      if route.allowReverse then
        var turned := s.(direction := MB.Reverse, waypointIndex := maxIndex, t := 0.0);
        match LastBelow(route.stations, turned.waypointIndex)
        case Some(i) => turned.(nextStationIndex := i)
        case None => turned
      else s
    else if s.direction == MB.Reverse && s.waypointIndex <= 0 then
      s.(direction := MB.Forward, waypointIndex := 0, t := 0.0, nextStationIndex := 1)
    else s
  }

  /** The terminus branch of `updateTrainOnRoute`, with its backward scan. */
  method TurnAtTerminus(s: RouteTrainState, route: RouteDefinition, maxIndex: int) returns (r: RouteTrainState)
    ensures r == AfterTerminus(s, route, maxIndex)
  {
    r := s;
    if r.direction == MB.Forward && r.waypointIndex >= maxIndex {
      if route.allowReverse {
        r := r.(direction := MB.Reverse, waypointIndex := maxIndex, t := 0.0);
        var found := ScanBackward(route.stations, r.waypointIndex);
        if found.Some? {
          r := r.(nextStationIndex := found.value);
        }
      }
    } else if r.direction == MB.Reverse && r.waypointIndex <= 0 {
      r := r.(direction := MB.Forward, waypointIndex := 0, t := 0.0, nextStationIndex := 1);
    }
  }

  // ---------------------------------------------------------------------
  // Station dwell

  /** Whether no dwell is running: the start time is absent, or 0, which
      reads as false. */
  predicate DwellUnset(start: Option<real>) {
    start.None? || start.value == 0.0
  }

  /** `handleStationLogic` at clock reading `now`. Only a train standing at
      the waypoint of its target station is affected: its dwell starts
      unless one is running, and once the dwell has lasted the station's
      dwell time it ends and the target moves to the next station. At a
      terminus station of a reversible route the train also turns round and
      re-targets: the last station below it going in reverse (else station
      0), the first station above it going forward (else the last station);
      a reversed index past the route's end is pulled back to it, a forward
      index before its start to 0. */
  function AfterDwell(s: RouteTrainState, route: RouteDefinition, now: real): (r: RouteTrainState)
    ensures r.trainName == s.trainName && r.routeId == s.routeId && r.currentPhase == s.currentPhase
    ensures r.t == s.t
    ensures !(0 <= s.nextStationIndex < |route.stations|) ==> r == s
    ensures (0 <= s.nextStationIndex < |route.stations| &&
             s.waypointIndex != route.stations[s.nextStationIndex].waypointIndex) ==> r == s
    ensures (0 <= s.nextStationIndex < |route.stations| &&
             s.waypointIndex == route.stations[s.nextStationIndex].waypointIndex) ==>
      var start := if DwellUnset(s.dwellStartTime) then now else s.dwellStartTime.value;
      var station := route.stations[s.nextStationIndex];
      (now - start < station.dwellTime ==> r == s.(dwellStartTime := Some(start))) &&
      (now - start >= station.dwellTime ==> r.dwellStartTime == None) &&
      (now - start >= station.dwellTime && !(station.isTerminus && route.allowReverse) ==>
        r == s.(dwellStartTime := None, nextStationIndex := s.nextStationIndex + 1)) &&
      (now - start >= station.dwellTime && station.isTerminus && route.allowReverse ==>
        r == Reversed(s.(dwellStartTime := None, nextStationIndex := s.nextStationIndex + 1), route) &&
        r.direction != s.direction)
  {
    if !(0 <= s.nextStationIndex < |route.stations|) then s
    else
      var station := route.stations[s.nextStationIndex];
      if s.waypointIndex != station.waypointIndex then s
      else
        var start := if DwellUnset(s.dwellStartTime) then now else s.dwellStartTime.value;
        if now - start < station.dwellTime then s.(dwellStartTime := Some(start))
        else
          var next := s.(dwellStartTime := None, nextStationIndex := s.nextStationIndex + 1);
          if station.isTerminus && route.allowReverse then Reversed(next, route) else next
  }

  /** The turn-round at a terminus station: flipped direction, re-scanned
      target and the index kept on the route. */
  function Reversed(s: RouteTrainState, route: RouteDefinition): (r: RouteTrainState)
    ensures r.trainName == s.trainName && r.routeId == s.routeId && r.currentPhase == s.currentPhase
    ensures r.t == s.t && r.dwellStartTime == s.dwellStartTime
    ensures r.direction != s.direction
    ensures r.direction == MB.Reverse ==>
      r.nextStationIndex == LastBelow(route.stations, s.waypointIndex).GetOr(0) &&
      r.waypointIndex == if s.waypointIndex > |route.worldWaypoints| - 1 then |route.worldWaypoints| - 1 else s.waypointIndex
    ensures r.direction == MB.Forward ==>
      r.nextStationIndex == FirstAbove(route.stations, s.waypointIndex).GetOr(|route.stations| - 1) &&
      r.waypointIndex == if s.waypointIndex < 0 then 0 else s.waypointIndex
  {
    var maxIndex := |route.worldWaypoints| - 1;
    if s.direction == MB.Forward then
      var target := LastBelow(route.stations, s.waypointIndex).GetOr(0);
      var index := if s.waypointIndex > maxIndex then maxIndex else s.waypointIndex;
      s.(direction := MB.Reverse, nextStationIndex := target, waypointIndex := index)
    else
      var target := FirstAbove(route.stations, s.waypointIndex).GetOr(|route.stations| - 1);
      var index := if s.waypointIndex < 0 then 0 else s.waypointIndex;
      s.(direction := MB.Forward, nextStationIndex := target, waypointIndex := index)
  }

  /** `handleStationLogic`, with its station scans. */
  method HandleStationLogic(s: RouteTrainState, route: RouteDefinition, now: real) returns (r: RouteTrainState)
    ensures r == AfterDwell(s, route, now)
  {
    r := s;
    if !(0 <= r.nextStationIndex < |route.stations|) {
      return;
    }
    var currentStation := route.stations[r.nextStationIndex];
    if r.waypointIndex == currentStation.waypointIndex {
      if DwellUnset(r.dwellStartTime) {
        r := r.(dwellStartTime := Some(now));
      }
      var dwellTime := now - r.dwellStartTime.value;
      if dwellTime >= currentStation.dwellTime {
        r := r.(dwellStartTime := None, nextStationIndex := r.nextStationIndex + 1);
        if currentStation.isTerminus && route.allowReverse {
          var newDirection := if r.direction == MB.Forward then MB.Reverse else MB.Forward;
          r := r.(direction := newDirection);
          if newDirection == MB.Reverse {
            var found := ScanBackward(route.stations, r.waypointIndex);
            r := r.(nextStationIndex := found.GetOr(0));
          } else {
            var found := ScanForward(route.stations, r.waypointIndex);
            r := r.(nextStationIndex := found.GetOr(|route.stations| - 1));
          }
          var maxIndex := |route.worldWaypoints| - 1;
          if newDirection == MB.Reverse && r.waypointIndex > maxIndex {
            r := r.(waypointIndex := maxIndex);
          } else if newDirection == MB.Forward && r.waypointIndex < 0 {
            r := r.(waypointIndex := 0);
          }
        }
      }
    }
  }

  // ---------------------------------------------------------------------
  // The whole step

  /** The path a train follows in its phase. */
  function PathOf(s: RouteTrainState, route: RouteDefinition): seq<Vec3> {
    if s.currentPhase == Depot then route.depotPath else route.worldWaypoints
  }

  /** The state after one heartbeat of `updateTrainOnRoute` on a known
      route: validation, movement or the terminus rules, then the station
      logic in service. `None` when the path is empty and the validation's
      clamp raises. */
  function Updated(s: RouteTrainState, route: RouteDefinition, deltaTime: real, now: real, segmentLength: real)
    : Option<RouteTrainState>
  {
    var wps := |PathOf(s, route)|;
    match ValidatedIndex(s.waypointIndex, wps)
    case None => None
    case Some(check) =>
      var checked := s.(waypointIndex := check.index, t := if check.valid then s.t else 0.0);
      var moved :=
        if CanMove(checked, wps - 1) then Moved(checked, route, wps, deltaTime, segmentLength)
        else AfterTerminus(checked, route, wps - 1);
      Some(if moved.currentPhase == Service then AfterDwell(moved, route, now) else moved)
  }

  /** A train state as the spawner keeps it: within a segment and never in
      the (unused) returning phase. */
  predicate StateOk(s: RouteTrainState) {
    s.t < 1.0 && s.currentPhase != Returning
  }

  /** A step keeps a state in shape, keeps its name and route, and never
      takes a train back to the depot. */
  lemma UpdatedKeepsState(s: RouteTrainState, route: RouteDefinition, deltaTime: real, now: real, segmentLength: real)
    requires StateOk(s)
    ensures var r := Updated(s, route, deltaTime, now, segmentLength);
      r.Some? ==> (StateOk(r.value) && r.value.trainName == s.trainName && r.value.routeId == s.routeId &&
                   (s.currentPhase == Service ==> r.value.currentPhase == Service))
  {
  }

  /** With positive segment times a step never moves a train backwards
      within its segment: `t` stays in [0, 1). */
  lemma UpdatedKeepsFraction(s: RouteTrainState, route: RouteDefinition, deltaTime: real, now: real, segmentLength: real)
    requires 0.0 <= s.t < 1.0 && deltaTime > 0.0 && segmentLength >= 0.0 && route.maxSpeed >= 0.0
    requires route.journeyTime.forward > 0.0 && route.journeyTime.reverse > 0.0
    requires route.segmentTimes.Some? ==>
      (forall k :: k in route.segmentTimes.value.forward ==> route.segmentTimes.value.forward[k] > 0.0) &&
      (forall k :: k in route.segmentTimes.value.reverse ==> route.segmentTimes.value.reverse[k] > 0.0)
    ensures var r := Updated(s, route, deltaTime, now, segmentLength);
      r.Some? ==> 0.0 <= r.value.t < 1.0
  {
    var wps := |PathOf(s, route)|;
    var check := ValidatedIndex(s.waypointIndex, wps);
    if check.Some? {
      var checked := s.(waypointIndex := check.value.index, t := if check.value.valid then s.t else 0.0);
      if CanMove(checked, wps - 1) {
        var st := SegmentTimeFor(checked, route, wps - 1, segmentLength);
        if st.Secs? && st.secs != 0.0 {
          assert st.secs > 0.0;
          assert deltaTime / st.secs > 0.0;
        }
      }
    }
  }

  /** The body of `updateTrainOnRoute` after the route lookup, step by
      step on a copy of the state. */
  method StepTrain(s: RouteTrainState, route: RouteDefinition, deltaTime: real, now: real, segmentLength: real)
    returns (r: Option<RouteTrainState>)
    ensures r == Updated(s, route, deltaTime, now, segmentLength)
  {
    var state := s;
    var waypoints := if state.currentPhase == Depot then route.depotPath else route.worldWaypoints;
    var maxIndex := |waypoints| - 1;
    var check := ValidatedIndex(state.waypointIndex, |waypoints|);
    if check.None? {
      return None;
    }
    state := state.(waypointIndex := check.value.index);
    if !check.value.valid {
      state := state.(t := 0.0);
    }
    var canMoveForward := state.direction == MB.Forward && state.waypointIndex < maxIndex;
    var canMoveReverse := state.direction == MB.Reverse && state.waypointIndex > 0;
    if canMoveForward || canMoveReverse {
      state := Moved(state, route, |waypoints|, deltaTime, segmentLength);
    } else {
      state := TurnAtTerminus(state, route, maxIndex);
    }
    if state.currentPhase == Service {
      state := HandleStationLogic(state, route, now);
    }
    return Some(state);
  }

  // ---------------------------------------------------------------------
  // Broadcast position

  /** The spawner's end-terminus test: like the tracker's, but at or past
      the last segment. */
  predicate AtOrPastEnd(seg: int, t: real, dir: MB.Direction, maxSegments: int) {
    seg >= maxSegments && ((dir == MB.Forward && t >= 1.0 - MB.Eps) || (dir == MB.Reverse && t <= MB.Eps))
  }

  /** The canonicalisation of `broadcastAITrainPosition`: the tracker's,
      except that the end terminus is recognised at or past the last
      segment. */
  function CanonicalizeAi(seg: int, t: real, dir: MB.Direction, maxSegments: int): (r: MB.SegPos)
    ensures MB.AtOriginTerminus(seg, t, dir) ==> r == MB.SegPos(1, 0.0)
    ensures !MB.AtOriginTerminus(seg, t, dir) && AtOrPastEnd(seg, t, dir, maxSegments) ==>
      r == MB.SegPos(maxSegments, 1.0)
    ensures !MB.AtOriginTerminus(seg, t, dir) && !AtOrPastEnd(seg, t, dir, maxSegments) ==>
      if t <= MB.Eps && seg > 1 then r == MB.SegPos(seg - 1, 1.0)
      else if t >= 1.0 - MB.Eps then r == MB.SegPos(seg, 1.0)
      else r == MB.SegPos(seg, t)
  {
    var origin := MB.AtOriginTerminus(seg, t, dir);
    var end := AtOrPastEnd(seg, t, dir, maxSegments);
    var first :=
      if t <= MB.Eps && seg > 1 && !origin && !end then MB.SegPos(seg - 1, 1.0)
      else if t >= 1.0 - MB.Eps then MB.SegPos(seg, 1.0)
      else MB.SegPos(seg, t);
    if origin then MB.SegPos(1, 0.0)
    else if end then MB.SegPos(maxSegments, 1.0)
    else first
  }

  /** The two copies of the canonicalisation agree on segments up to the
      last one. */
  lemma CanonicalizeCopiesAgree(seg: int, t: real, dir: MB.Direction, maxSegments: int)
    requires seg <= maxSegments
    ensures CanonicalizeAi(seg, t, dir, maxSegments) == MB.Canonicalize(seg, t, dir, maxSegments)
  {
  }

  /** Past the last segment they differ: the spawner's copy snaps a train
      at the forward end back onto the last segment. */
  lemma CanonicalizeCopiesDiffer()
    ensures CanonicalizeAi(4, 1.0, MB.Forward, 3) == MB.SegPos(3, 1.0)
    ensures MB.Canonicalize(4, 1.0, MB.Forward, 3) == MB.SegPos(4, 1.0)
  {
  }

  /** The segment an AI train is on: a forward train at waypoint `i` is on
      segment `i + 1` (1-based), a reverse one on segment `i`. */
  function AiSegment(s: RouteTrainState): int {
    if s.direction == MB.Forward then s.waypointIndex + 1 else s.waypointIndex
  }

  /** `broadcastAITrainPosition`: the canonicalised segment and fraction,
      no station arrival times, and the route id as the shape key. */
  function AiBroadcastOf(s: RouteTrainState, route: RouteDefinition): (b: AiBroadcast)
    ensures b.trainName == s.trainName && b.shapeKey == s.routeId && b.direction == s.direction
    ensures b.stationETAs == map[]
    ensures MB.SegPos(b.seg, b.t) ==
      CanonicalizeAi(AiSegment(s), s.t, s.direction, |route.worldWaypoints| - 1)
  {
    var c := CanonicalizeAi(AiSegment(s), s.t, s.direction, |route.worldWaypoints| - 1);
    AiBroadcast(s.trainName, c.seg, c.t, map[], s.routeId, s.direction)
  }

  /** A train that can move on broadcasts a segment of the route and a
      fraction in [0, 1]. */
  lemma MovingBroadcastInRange(s: RouteTrainState, route: RouteDefinition)
    requires |route.worldWaypoints| >= 2 && 0 <= s.waypointIndex <= |route.worldWaypoints| - 1
    requires CanMove(s, |route.worldWaypoints| - 1) && 0.0 <= s.t <= 1.0
    ensures 1 <= AiBroadcastOf(s, route).seg <= |route.worldWaypoints| - 1
    ensures 0.0 <= AiBroadcastOf(s, route).t <= 1.0
  {
  }

  /** A reverse train that has just reached waypoint 0 is on no segment and
      broadcasts segment 0 for that heartbeat; it turns forward on the
      next one. */
  lemma ReverseAtOriginBroadcastsSegmentZero(s: RouteTrainState, route: RouteDefinition)
    requires |route.worldWaypoints| >= 2
    requires s.direction == MB.Reverse && s.waypointIndex == 0 && s.t == 0.0
    ensures AiBroadcastOf(s, route).seg == 0 && AiBroadcastOf(s, route).t == 0.0
  {
  }

  /** A train that has just reached the last waypoint (t still near 0)
      broadcasts the end of the last segment in either direction: going
      forward it is on the segment past the end, which the first stage moves
      back; going in reverse the end-terminus rule pins it. */
  lemma LastWaypointBroadcastsEnd(s: RouteTrainState, route: RouteDefinition)
    requires |route.worldWaypoints| >= 2
    requires s.waypointIndex == |route.worldWaypoints| - 1 && 0.0 <= s.t <= MB.Eps
    ensures AiBroadcastOf(s, route).seg == |route.worldWaypoints| - 1
    ensures AiBroadcastOf(s, route).t == 1.0
  {
  }

  // ---------------------------------------------------------------------
  // Spawning

  /** The hour of the day of clock reading `now` (seconds). */
  function HourOf(now: real): (h: int)
    ensures 0 <= h < 24
  {
    (now / 3600.0).Floor % 24
  }

  /** Peak hours: 7 to 9 and 17 to 19, both ends included. */
  predicate IsPeakHour(hour: int) {
    (7 <= hour <= 9) || (17 <= hour <= 19)
  }

  /** The last spawn time of a route; 0 for a route never spawned. */
  function LastSpawn(routeSchedules: map<string, real>, routeId: string): real {
    if routeId in routeSchedules then routeSchedules[routeId] else 0.0
  }

  /** Whether `autoSpawnTrains` spawns on `routeId` at `now`: the route
      operates in this hour, and at least its frequency (minutes, the peak
      one in peak hours) has passed since its last spawn. */
  predicate Due(catalog: RouteCatalog, routeSchedules: map<string, real>, routeId: string, now: real)
    reads catalog
  {
    var hour := HourOf(now);
    catalog.IsOperational(routeId, hour) &&
    now - LastSpawn(routeSchedules, routeId) >= catalog.GetFrequency(routeId, IsPeakHour(hour)) * 60.0
  }

  /** The spawner's tables: the state of every active train, keyed by its
      name, and the last spawn time of every route. */
  class Spawner {
    var activeTrains: map<string, RouteTrainState>
    var routeSchedules: map<string, real>

    /** Every train is stored under its own name and is within a segment,
        outside the returning phase. */
    ghost predicate Valid()
      reads this
    {
      forall n :: n in activeTrains ==> activeTrains[n].trainName == n && StateOk(activeTrains[n])
    }

    constructor()
      ensures Valid()
      ensures activeTrains == map[] && routeSchedules == map[]
    {
      activeTrains := map[];
      routeSchedules := map[];
    }

    /** `spawnTrainForRoute`: nothing for an unknown route; otherwise a
        train in its initial state, under its name (replacing any train of
        that name). */
    method SpawnTrainForRoute(catalog: RouteCatalog, routeId: string, playerName: Option<string>, stamp: string)
      requires Valid()
      modifies this
      ensures Valid()
      ensures routeSchedules == old(routeSchedules)
      ensures routeId !in catalog.routes ==> activeTrains == old(activeTrains)
      ensures routeId in catalog.routes ==>
        var name := TrainNameFor(routeId, playerName, stamp);
        activeTrains == old(activeTrains)[name := InitialState(name, routeId)]
    {
      var route := catalog.GetRoute(routeId);
      if route.None? {
        return;
      }
      var trainName := TrainNameFor(routeId, playerName, stamp);
      activeTrains := activeTrains[trainName := InitialState(trainName, routeId)];
    }

    /** The route-selection handler: a player's train is spawned only on a
        known route that operates in the current hour. */
    method SelectRoute(catalog: RouteCatalog, routeId: string, playerName: string, now: real, stamp: string)
      requires Valid()
      modifies this
      ensures Valid()
      ensures routeSchedules == old(routeSchedules)
      ensures !catalog.IsOperational(routeId, HourOf(now)) ==> activeTrains == old(activeTrains)
      ensures catalog.IsOperational(routeId, HourOf(now)) ==>
        var name := TrainNameFor(routeId, Some(playerName), stamp);
        activeTrains == old(activeTrains)[name := InitialState(name, routeId)]
    {
      var route := catalog.GetRoute(routeId);
      if route.None? {
        return;
      }
      var currentHour := HourOf(now);
      if !catalog.IsOperational(routeId, currentHour) {
        return;
      }
      SpawnTrainForRoute(catalog, routeId, Some(playerName), stamp);
    }

    /** `autoSpawnTrains` at clock reading `now`: the routes are visited in
        catalog order, and every route that is due gets an AI train and has
        its spawn time set to `now`. */
    method AutoSpawnTrains(catalog: RouteCatalog, now: real, stamp: string)
      requires Valid() && catalog.Valid()
      modifies this
      ensures Valid()
      ensures routeSchedules == Scheduled(catalog, catalog.order, old(routeSchedules), now)
      ensures activeTrains == Spawned(catalog, catalog.order, old(routeSchedules), old(activeTrains), now, stamp)
    {
      var currentTime := now;
      var currentHour := HourOf(currentTime);
      var isPeakHour := IsPeakHour(currentHour);
      ghost var schedules0 := routeSchedules;
      ghost var active0 := activeTrains;
      var n := 0;
      while n < |catalog.order|
        invariant 0 <= n <= |catalog.order|
        invariant Valid()
        invariant routeSchedules == Scheduled(catalog, catalog.order[..n], schedules0, now)
        invariant activeTrains == Spawned(catalog, catalog.order[..n], schedules0, active0, now, stamp)
      {
        var routeId := catalog.order[n];
        assert catalog.order[..n + 1][..n] == catalog.order[..n];
        assert routeId !in catalog.order[..n];
        ScheduledElsewhere(catalog, catalog.order[..n], schedules0, now, routeId);
        if catalog.IsOperational(routeId, currentHour) {
          var lastSpawn := LastSpawn(routeSchedules, routeId);
          var frequency := catalog.GetFrequency(routeId, isPeakHour);
          var spawnInterval := frequency * 60.0;
          if currentTime - lastSpawn >= spawnInterval {
            SpawnTrainForRoute(catalog, routeId, None, stamp);
            routeSchedules := routeSchedules[routeId := currentTime];
          }
        }
        n := n + 1;
      }
      assert catalog.order[..n] == catalog.order;
    }

    /** `despawnTrain`: the train is no longer active. */
    method DespawnTrain(name: string)
      requires Valid()
      modifies this
      ensures Valid()
      ensures activeTrains == old(activeTrains) - {name} && routeSchedules == old(routeSchedules)
    {
      activeTrains := activeTrains - {name};
    }

    /** `updateTrainOnRoute` for the active train `name` over `deltaTime`
        seconds at clock reading `now`. `present` says whether its model is
        still in the workspace (a train whose model is gone is dropped) and
        `segmentLength` is the length of the depot segment it is on. On a
        known route the train takes one step of `Updated`, and a train in
        service reports its position. */
    method UpdateTrainOnRoute(catalog: RouteCatalog, name: string, present: bool, deltaTime: real, now: real,
        segmentLength: real)
      returns (report: Option<AiBroadcast>)
      requires Valid() && name in activeTrains
      modifies this
      ensures Valid()
      ensures routeSchedules == old(routeSchedules)
      ensures !present ==> activeTrains == old(activeTrains) - {name} && report == None
      ensures present && old(activeTrains[name]).routeId !in catalog.routes ==>
        activeTrains == old(activeTrains) && report == None
      ensures present && old(activeTrains[name]).routeId in catalog.routes ==>
        var route := catalog.routes[old(activeTrains[name]).routeId];
        var r := Updated(old(activeTrains[name]), route, deltaTime, now, segmentLength);
        (r.None? ==> activeTrains == old(activeTrains) && report == None) &&
        (r.Some? ==> (activeTrains == old(activeTrains)[name := r.value] &&
                      (report.Some? <==> r.value.currentPhase == Service) &&
                      (report.Some? ==> report.value == AiBroadcastOf(r.value, route))))
    {
      if !present {
        activeTrains := activeTrains - {name};
        return None;
      }
      var state := activeTrains[name];
      var found := catalog.GetRoute(state.routeId);
      if found.None? {
        return None;
      }
      var route := found.value;
      var next := StepTrain(state, route, deltaTime, now, segmentLength);
      if next.None? {
        return None;
      }
      UpdatedKeepsState(state, route, deltaTime, now, segmentLength);
      state := next.value;
      activeTrains := activeTrains[name := state];
      if state.currentPhase == Service {
        report := Some(AiBroadcastOf(state, route));
      } else {
        report := None;
      }
    }
  }

  /** The spawn times after visiting the routes `ids` in order, starting
      from `routeSchedules`. */
  ghost function Scheduled(catalog: RouteCatalog, ids: seq<string>, routeSchedules: map<string, real>, now: real)
    : map<string, real>
    reads catalog
  {
    if ids == [] then routeSchedules
    else
      var m := Scheduled(catalog, ids[..|ids| - 1], routeSchedules, now);
      var id := ids[|ids| - 1];
      if Due(catalog, routeSchedules, id, now) then m[id := now] else m
  }

  /** The active trains after visiting the routes `ids` in order. */
  ghost function Spawned(catalog: RouteCatalog, ids: seq<string>, routeSchedules: map<string, real>,
      activeTrains: map<string, RouteTrainState>, now: real, stamp: string): map<string, RouteTrainState>
    reads catalog
  {
    if ids == [] then activeTrains
    else
      var m := Spawned(catalog, ids[..|ids| - 1], routeSchedules, activeTrains, now, stamp);
      var id := ids[|ids| - 1];
      var name := TrainNameFor(id, None, stamp);
      if Due(catalog, routeSchedules, id, now) then m[name := InitialState(name, id)] else m
  }

  /** A route not among `ids` keeps its spawn time. */
  lemma {:induction false} ScheduledElsewhere(catalog: RouteCatalog, ids: seq<string>, routeSchedules: map<string, real>,
      now: real, id: string)
    requires id !in ids
    ensures LastSpawn(Scheduled(catalog, ids, routeSchedules, now), id) == LastSpawn(routeSchedules, id)
    ensures (id in Scheduled(catalog, ids, routeSchedules, now) <==> id in routeSchedules)
  {
    if ids != [] {
      ScheduledElsewhere(catalog, ids[..|ids| - 1], routeSchedules, now, id);
    }
  }

  /** After a pass over distinct ids, a due route among them has spawn time
      `now` and every other route keeps its own. */
  lemma {:induction false} ScheduledAt(catalog: RouteCatalog, ids: seq<string>, routeSchedules: map<string, real>,
      now: real, id: string)
    ensures id in ids && Due(catalog, routeSchedules, id, now) ==>
      id in Scheduled(catalog, ids, routeSchedules, now) && Scheduled(catalog, ids, routeSchedules, now)[id] == now
    ensures !(id in ids && Due(catalog, routeSchedules, id, now)) ==>
      (id in Scheduled(catalog, ids, routeSchedules, now) <==> id in routeSchedules) &&
      (id in routeSchedules ==> Scheduled(catalog, ids, routeSchedules, now)[id] == routeSchedules[id])
  {
    if ids != [] {
      var init := ids[..|ids| - 1];
      ScheduledAt(catalog, init, routeSchedules, now, id);
      assert ids == init + [ids[|ids| - 1]];
    }
  }

  /** After a pass, the active trains are the earlier ones plus one AI
      train, in its initial state, per due route among `ids`; an earlier
      train keeps its state unless a new train took its name. */
  lemma {:induction false} SpawnedAt(catalog: RouteCatalog, ids: seq<string>, routeSchedules: map<string, real>,
      activeTrains: map<string, RouteTrainState>, now: real, stamp: string, name: string)
    ensures var m := Spawned(catalog, ids, routeSchedules, activeTrains, now, stamp);
      name in m <==> (name in activeTrains ||
        exists i :: 0 <= i < |ids| && Due(catalog, routeSchedules, ids[i], now) && TrainNameFor(ids[i], None, stamp) == name)
    ensures var m := Spawned(catalog, ids, routeSchedules, activeTrains, now, stamp);
      forall i :: 0 <= i < |ids| && Due(catalog, routeSchedules, ids[i], now) && TrainNameFor(ids[i], None, stamp) == name ==>
        m[name] == InitialState(name, ids[i])
    ensures var m := Spawned(catalog, ids, routeSchedules, activeTrains, now, stamp);
      name in activeTrains &&
      (forall i :: 0 <= i < |ids| && Due(catalog, routeSchedules, ids[i], now) ==> TrainNameFor(ids[i], None, stamp) != name) ==>
        m[name] == activeTrains[name]
  {
    if ids != [] {
      var init := ids[..|ids| - 1];
      SpawnedAt(catalog, init, routeSchedules, activeTrains, now, stamp, name);
      var id := ids[|ids| - 1];
      forall i | 0 <= i < |ids| && Due(catalog, routeSchedules, ids[i], now) && TrainNameFor(ids[i], None, stamp) == name
        ensures Spawned(catalog, ids, routeSchedules, activeTrains, now, stamp)[name] == InitialState(name, ids[i])
      {
        if i < |init| {
          assert init[i] == ids[i];
          if Due(catalog, routeSchedules, id, now) && TrainNameFor(id, None, stamp) == name {
            AiNamesDistinct(id, ids[i], stamp);
          }
        }
      }
      if exists i :: 0 <= i < |init| && Due(catalog, routeSchedules, init[i], now) && TrainNameFor(init[i], None, stamp) == name {
        var i :| 0 <= i < |init| && Due(catalog, routeSchedules, init[i], now) && TrainNameFor(init[i], None, stamp) == name;
        assert ids[i] == init[i];
      }
    }
  }

  /** The pass visits every route: a route of the catalog is due exactly
      when it gets its AI train and spawn time `now`. */
  lemma AutoSpawnCoversCatalog(catalog: RouteCatalog, routeSchedules: map<string, real>,
      activeTrains: map<string, RouteTrainState>, now: real, stamp: string, id: string)
    requires catalog.Valid() && id in catalog.routes && Due(catalog, routeSchedules, id, now)
    ensures var name := TrainNameFor(id, None, stamp);
      var m := Spawned(catalog, catalog.order, routeSchedules, activeTrains, now, stamp);
      id in Scheduled(catalog, catalog.order, routeSchedules, now) &&
      Scheduled(catalog, catalog.order, routeSchedules, now)[id] == now && name in m && m[name] == InitialState(name, id)
  {
    ScheduledAt(catalog, catalog.order, routeSchedules, now, id);
    var i :| 0 <= i < |catalog.order| && catalog.order[i] == id;
    SpawnedAt(catalog, catalog.order, routeSchedules, activeTrains, now, stamp, TrainNameFor(id, None, stamp));
  }
}

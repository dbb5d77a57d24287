/** The server-side tracker of player-driven trains
    (src/server/MapBroadcaster.server.ts). Every heartbeat it matches each
    train to its route, canonicalises the matched position, keeps a history
    of segment durations, predicts per-station arrival times and broadcasts
    the result. The heartbeat wiring, the workspace lookup and the remote
    event are left to the caller: `TrackTrain` is the body of the per-train
    loop and returns what would be broadcast. */
module MapBroadcaster {
  import opened Wrappers
  import opened Vectors
  import opened Collections
  import opened MapUtils
  import opened CleanedSchedule
  import opened Kalman
  import opened RouteShapes
  import RouteDefinitions

  /** Tolerance of the waypoint canonicalisation. */
  const Eps: real := 0.0001

  /** Duration assumed for the current segment when neither the history
      nor the schedule knows it. */
  const DefaultBaseAvg: real := 30.0

  /** Smoothing factor of a new history entry. */
  const HistoryAlpha: real := 0.2

  datatype Direction = Forward | Reverse

  /** One station of a train's station list: its name and its 0-based
      waypoint. */
  datatype StationEntry = StationEntry(name: string, idx: int)

  /** Per-train tracking state. `lastSeg` is 1-based; `lastT` runs from the
      lower to the higher waypoint of that segment. */
  datatype TrainState = TrainState(
    lastSeg: int,
    lastT: real,
    departureTime: real,
    nextStationList: seq<StationEntry>,
    nextStationPtr: int,
    direction: Direction)

  /** A segment-history entry: smoothed duration and smoothing factor. */
  datatype HistoryEntry = HistoryEntry(avg: real, alpha: real)

  /** A position on a route: 1-based segment and fraction along it. */
  datatype SegPos = SegPos(seg: int, t: real)

  /** The arguments of one map-update broadcast. */
  datatype Broadcast = Broadcast(
    trainName: string,
    seg: int,
    t: real,
    stationETAs: map<string, real>,
    position: Vec3,
    shapeKey: string,
    direction: Direction)

  predicate HasPrefix(s: string, p: string) {
    |p| <= |s| && s[..|p|] == p
  }

  /** Whether `part` occurs in `s` (a `find` with a pattern free of magic
      characters). */
  predicate Contains(s: string, part: string) {
    exists i :: 0 <= i <= |s| - |part| && OccursAt(s, part, i)
  }

  predicate OccursAt(s: string, part: string, i: int)
    requires 0 <= i <= |s| - |part|
  {
    s[i..i + |part|] == part
  }

  /** Trains whose name starts with `AI_` belong to the spawner and are
      skipped. */
  predicate IsAiTrain(name: string) {
    HasPrefix(name, "AI_")
  }

  /** The route a train follows, read off its name. `_R001X` is tested
      before `_R001`, which it contains. */
  function ShapeKeyFor(name: string): (k: string)
    ensures k in {"Main", "R001X", "R001", "R026", "R029"}
    ensures Contains(name, "_R001X") ==> k == "R001X"
    ensures k == "R001" <==> !Contains(name, "_R001X") && Contains(name, "_R001")
    ensures k == "R026" <==> !Contains(name, "_R001") && Contains(name, "_R026")
    ensures k == "R029" <==> !Contains(name, "_R001") && !Contains(name, "_R026") && Contains(name, "_R029")
    ensures k == "Main" <==> !Contains(name, "_R001") && !Contains(name, "_R026") && !Contains(name, "_R029")
  {
    ContainsLonger(name);
    if Contains(name, "_R001X") then "R001X"
    else if Contains(name, "_R001") then "R001"
    else if Contains(name, "_R026") then "R026"
    else if Contains(name, "_R029") then "R029"
    else "Main"
  }

  /** A name that contains `_R001X` also contains `_R001`. */
  lemma ContainsLonger(name: string)
    ensures Contains(name, "_R001X") ==> Contains(name, "_R001")
  {
    if Contains(name, "_R001X") {
      var i :| 0 <= i <= |name| - 6 && OccursAt(name, "_R001X", i);
      assert name[i..i + 5] == name[i..i + 6][..5];
      assert OccursAt(name, "_R001", i);
    }
  }

  // ---------------------------------------------------------------------
  // Terminus handling

  /** Step 3 of the heartbeat. On a reversible route a forward train at or
      past the last segment's end turns round just inside it, and a reverse
      train at the origin turns round just inside it; a non-reversible route
      sends a train at the end of its last segment back to the start. */
  function Terminus(s: TrainState, allowReverse: bool, maxSeg: int): (r: TrainState)
    ensures r.departureTime == s.departureTime && r.nextStationList == s.nextStationList
    ensures r.nextStationPtr == s.nextStationPtr
    ensures allowReverse && s.direction == Forward && s.lastSeg >= maxSeg && s.lastT >= 0.99 ==>
      r.direction == Reverse && r.lastSeg == maxSeg && r.lastT == 0.99
    ensures allowReverse && s.direction == Reverse && s.lastSeg <= 1 && s.lastT <= 0.01 ==>
      r.direction == Forward && r.lastSeg == 1 && r.lastT == 0.01
    ensures !allowReverse && s.lastSeg == maxSeg && s.lastT >= 0.99 ==>
      r.direction == Forward && r.lastSeg == 1 && r.lastT == 0.0
    ensures r != s ==> (s.lastT >= 0.99 || s.lastT <= 0.01)
    ensures (!(allowReverse && s.direction == Forward && s.lastSeg >= maxSeg && s.lastT >= 0.99) &&
             !(allowReverse && s.direction == Reverse && s.lastSeg <= 1 && s.lastT <= 0.01) &&
             !(!allowReverse && s.lastSeg == maxSeg && s.lastT >= 0.99)) ==> r == s
  {
    if allowReverse then
      if s.direction == Forward && s.lastSeg >= maxSeg && s.lastT >= 0.99 then
        s.(direction := Reverse, lastSeg := maxSeg, lastT := 0.99)
      else if s.direction == Reverse && s.lastSeg <= 1 && s.lastT <= 0.01 then
        s.(direction := Forward, lastSeg := 1, lastT := 0.01)
      else s
    else if s.lastSeg == maxSeg && s.lastT >= 0.99 then
      s.(lastSeg := 1, lastT := 0.0, direction := Forward)
    else s
  }

  /** A turned-round train lands strictly inside the opposite trigger, so a
      second pass in the same tick changes nothing. */
  lemma TerminusIdempotent(s: TrainState, allowReverse: bool, maxSeg: int)
    ensures Terminus(Terminus(s, allowReverse, maxSeg), allowReverse, maxSeg) == Terminus(s, allowReverse, maxSeg)
  {
  }

  // ---------------------------------------------------------------------
  // Canonicalisation

  predicate AtOriginTerminus(seg: int, t: real, dir: Direction) {
    seg == 1 && ((dir == Forward && t <= Eps) || (dir == Reverse && t >= 1.0 - Eps))
  }

  predicate AtEndTerminus(seg: int, t: real, dir: Direction, maxSegments: int) {
    seg == maxSegments && ((dir == Forward && t >= 1.0 - Eps) || (dir == Reverse && t <= Eps))
  }

  /** Step 4's canonicalisation of the matched position, in the source's
      two stages: first a position at the very start of a segment is moved
      to the end of the previous one and a position at the very end is
      snapped to it; then the terminus positions override both. */
  function Canonicalize(seg: int, t: real, dir: Direction, maxSegments: int): (r: SegPos)
    ensures AtOriginTerminus(seg, t, dir) ==> r == SegPos(1, 0.0)
    ensures !AtOriginTerminus(seg, t, dir) && AtEndTerminus(seg, t, dir, maxSegments) ==>
      r == SegPos(maxSegments, 1.0)
    ensures !AtOriginTerminus(seg, t, dir) && !AtEndTerminus(seg, t, dir, maxSegments) ==>
      if t <= Eps && seg > 1 then r == SegPos(seg - 1, 1.0)
      else if t >= 1.0 - Eps then r == SegPos(seg, 1.0)
      else r == SegPos(seg, t)
  {
    var origin := AtOriginTerminus(seg, t, dir);
    var end := AtEndTerminus(seg, t, dir, maxSegments);
    var first :=
      if t <= Eps && seg > 1 && !origin && !end then SegPos(seg - 1, 1.0)
      else if t >= 1.0 - Eps then SegPos(seg, 1.0)
      else SegPos(seg, t);
    if origin then SegPos(1, 0.0)
    else if end then SegPos(maxSegments, 1.0)
    else first
  }

  /** Canonicalisation keeps a position on the route. */
  lemma CanonicalizeInRange(seg: int, t: real, dir: Direction, maxSegments: int)
    requires 1 <= seg <= maxSegments && 0.0 <= t <= 1.0
    ensures 1 <= Canonicalize(seg, t, dir, maxSegments).seg <= maxSegments
    ensures 0.0 <= Canonicalize(seg, t, dir, maxSegments).t <= 1.0
  {
  }

  /** Travelling forward, canonicalising a canonical position changes
      nothing. */
  lemma CanonicalizeForwardIdempotent(seg: int, t: real, maxSegments: int)
    ensures var c := Canonicalize(seg, t, Forward, maxSegments);
      Canonicalize(c.seg, c.t, Forward, maxSegments) == c
  {
  }

  /** Travelling in reverse it does not: the start of segment 2 becomes the
      end of segment 1, which a reverse train reads as the origin. */
  lemma CanonicalizeReverseNotIdempotent()
    ensures Canonicalize(2, 0.0, Reverse, 3) == SegPos(1, 1.0)
    ensures Canonicalize(1, 1.0, Reverse, 3) == SegPos(1, 0.0)
  {
  }

  // ---------------------------------------------------------------------
  // Segment durations and arrival times

  /** The duration of segment `seg`: the train's history, else the cleaned
      schedule, else `fallback`. */
  function SegmentDuration(hist: map<int, HistoryEntry>, seg: int, fallback: real): (r: real)
    ensures seg in hist ==> r == hist[seg].avg
    ensures seg !in hist && seg in Main ==> r == Main[seg]
    ensures seg !in hist && seg !in Main ==> r == fallback
  {
    if seg in hist then hist[seg].avg
    else if seg in Main then Main[seg]
    else fallback
  }

  /** Step 5's `baseAvg`: the same chain ending in 30 seconds. */
  function BaseAvg(hist: map<int, HistoryEntry>, seg: int): (r: real)
    ensures r == SegmentDuration(hist, seg, DefaultBaseAvg)
    ensures seg !in hist && seg !in Main ==> r == 30.0
  {
    SegmentDuration(hist, seg, DefaultBaseAvg)
  }

  /** Sum of the durations of segments `lo .. hi - 1`. */
  function Durations(hist: map<int, HistoryEntry>, lo: int, hi: int, fallback: real): real
    decreases hi - lo
  {
    if hi <= lo then 0.0
    else Durations(hist, lo, hi - 1, fallback) + SegmentDuration(hist, hi - 1, fallback)
  }

  /** The arrival time at 1-based waypoint `wpIdx`: the rest of the current
      segment plus every whole segment from the next one up to the
      waypoint. */
  function Eta(hist: map<int, HistoryEntry>, wpIdx: int, bestSeg: int, lastT: real, baseAvg: real): real {
    (1.0 - lastT) * baseAvg + Durations(hist, bestSeg + 1, wpIdx, baseAvg)
  }

  /** Durations depend only on the history entries of the segments they
      cover. */
  lemma {:induction false} DurationsFrame(h1: map<int, HistoryEntry>, h2: map<int, HistoryEntry>, lo: int, hi: int, fallback: real)
    requires forall s :: lo <= s < hi ==> (s in h1 <==> s in h2) && (s in h1 ==> h1[s] == h2[s])
    ensures Durations(h1, lo, hi, fallback) == Durations(h2, lo, hi, fallback)
    decreases hi - lo
  {
    if lo < hi {
      DurationsFrame(h1, h2, lo, hi - 1, fallback);
    }
  }

  /** With non-negative durations, a farther waypoint is never reached
      sooner. */
  lemma {:induction false} DurationsMonotone(hist: map<int, HistoryEntry>, lo: int, hi1: int, hi2: int, fallback: real)
    requires hi1 <= hi2 && fallback >= 0.0
    requires forall s :: s in hist ==> hist[s].avg >= 0.0
    ensures Durations(hist, lo, hi1, fallback) <= Durations(hist, lo, hi2, fallback)
    decreases hi2 - hi1
  {
    if hi1 < hi2 {
      DurationsMonotone(hist, lo, hi1, hi2 - 1, fallback);
      if lo < hi2 {
        assert SegmentDuration(hist, hi2 - 1, fallback) >= 0.0;
      }
    }
  }

  lemma EtaMonotone(hist: map<int, HistoryEntry>, wp1: int, wp2: int, bestSeg: int, lastT: real, baseAvg: real)
    requires wp1 <= wp2 && baseAvg >= 0.0
    requires forall s :: s in hist ==> hist[s].avg >= 0.0
    ensures Eta(hist, wp1, bestSeg, lastT, baseAvg) <= Eta(hist, wp2, bestSeg, lastT, baseAvg)
  {
    DurationsMonotone(hist, bestSeg + 1, wp1, wp2, baseAvg);
  }

  /** Halfway along segment 1 with no history, the waypoint at 0-based
      index 3 is half of segment 1 plus segments 2 and 3 of the schedule
      away. */
  lemma EtaExample()
    ensures Eta(map[], 4, 1, 0.5, BaseAvg(map[], 1)) == 0.5 * 14.0 + 13.0 + 9.0
  {
    assert Durations(map[], 2, 4, 14.0) == 13.0 + 9.0;
  }

  /** The history entry `recordDeparture` leaves for a segment whose
      previous entry was `e` (absent on the first departure) after a run of
      `delta` seconds. */
  function Recorded(e: Option<HistoryEntry>, delta: real): (r: HistoryEntry)
    ensures e.None? ==> r == HistoryEntry(delta, HistoryAlpha)
    ensures e.Some? ==> r.alpha == e.value.alpha && r.avg == Ema(e.value.alpha, delta, e.value.avg)
    ensures e.Some? && 0.0 <= e.value.alpha <= 1.0 && e.value.avg <= delta ==> e.value.avg <= r.avg <= delta
    ensures e.Some? && 0.0 <= e.value.alpha <= 1.0 && delta <= e.value.avg ==> delta <= r.avg <= e.value.avg
  {
    var start := e.GetOr(HistoryEntry(delta, HistoryAlpha));
    EmaBetween(start.alpha, delta, start.avg);
    HistoryEntry(Ema(start.alpha, delta, start.avg), start.alpha)
  }

  /** One exponential-moving-average step: weight `a` on the new sample. */
  function Ema(a: real, sample: real, avg: real): real {
    a * sample + (1.0 - a) * avg
  }

  /** A weighted mean with weight `a` in [0, 1] lies between its two
      values. */
  lemma EmaBetween(a: real, delta: real, avg: real)
    ensures 0.0 <= a <= 1.0 && avg <= delta ==> avg <= Ema(a, delta, avg) <= delta
    ensures 0.0 <= a <= 1.0 && delta <= avg ==> delta <= Ema(a, delta, avg) <= avg
  {
    var d := delta - avg;
    var step := a * d;
    assert Ema(a, delta, avg) == avg + step;
    if 0.0 <= a <= 1.0 {
      FractionBetween(a, d);
    }
  }

  /** A fraction in [0, 1] of a difference lies between 0 and it. */
  lemma FractionBetween(a: real, d: real)
    requires 0.0 <= a <= 1.0
    ensures d >= 0.0 ==> 0.0 <= a * d <= d
    ensures d <= 0.0 ==> d <= a * d <= 0.0
  {
  }

  // ---------------------------------------------------------------------
  // Map matching

  /** Every segment of the polyline has non-zero length (the projection
      divides by its squared length). */
  predicate NonDegenerate(wps: seq<Vec3>) {
    forall i :: 0 <= i < |wps| - 1 ==> Dot(Sub(wps[i + 1], wps[i]), Sub(wps[i + 1], wps[i])) != 0.0
  }

  /** The projection of `pos` onto segment `i` (0-based). */
  function SegmentProjection(wps: seq<Vec3>, pos: Vec3, i: int): Projection
    requires NonDegenerate(wps) && 0 <= i < |wps| - 1
  {
    ProjectOntoSegment(wps[i], wps[i + 1], pos)
  }

  /** Whether segment `seg` (1-based), fraction `t` and point `bestPos` are
      the map match of `pos`: with fewer than two waypoints the start of
      segment 1 and `pos` itself, otherwise the projection onto a segment
      whose projection is nearest, the first such segment on ties. */
  predicate Matched(wps: seq<Vec3>, pos: Vec3, seg: int, t: real, bestPos: Vec3)
    requires NonDegenerate(wps)
  {
    if |wps| < 2 then seg == 1 && t == 0.0 && bestPos == pos
    else
      1 <= seg <= |wps| - 1 && SegmentProjection(wps, pos, seg - 1) == Projection(bestPos, t) &&
      (forall j :: 0 <= j < |wps| - 1 ==> SqDist(pos, bestPos) <= SqDist(pos, SegmentProjection(wps, pos, j).point)) &&
      (forall j :: 0 <= j < seg - 1 ==> SqDist(pos, bestPos) < SqDist(pos, SegmentProjection(wps, pos, j).point))
  }

  /** Step 4's map matching: the first segment whose projection is nearest
      to `pos`, as a 1-based index with the projection's fraction and point.
      With fewer than two waypoints nothing is matched and the train stays
      at the start of segment 1. Distances are compared squared, which
      orders them as the engine's magnitudes do. */
  method MatchToRoute(wps: seq<Vec3>, pos: Vec3) returns (bestSeg: int, bestT: real, bestPos: Vec3)
    requires NonDegenerate(wps)
    ensures |wps| < 2 ==> bestSeg == 1 && bestT == 0.0 && bestPos == pos
    ensures 0.0 <= bestT <= 1.0
    ensures |wps| >= 2 ==> 1 <= bestSeg <= |wps| - 1
    ensures |wps| >= 2 ==> SegmentProjection(wps, pos, bestSeg - 1) == Projection(bestPos, bestT)
    ensures |wps| >= 2 ==> forall j :: 0 <= j < |wps| - 1 ==>
      SqDist(pos, bestPos) <= SqDist(pos, SegmentProjection(wps, pos, j).point)
    ensures |wps| >= 2 ==> forall j :: 0 <= j < bestSeg - 1 ==>
      SqDist(pos, bestPos) < SqDist(pos, SegmentProjection(wps, pos, j).point)
  {
    var bestD := 0.0;
    var found := false;
    bestSeg, bestT, bestPos := 1, 0.0, pos;
    var i := 0;
    while i < |wps| - 1
      invariant 0 <= i <= if |wps| < 1 then 0 else |wps| - 1
      invariant found <==> i > 0
      invariant !found ==> bestSeg == 1 && bestT == 0.0 && bestPos == pos
      invariant found ==> 1 <= bestSeg <= i && SegmentProjection(wps, pos, bestSeg - 1) == Projection(bestPos, bestT)
      invariant found ==> bestD == SqDist(pos, bestPos)
      invariant forall j :: 0 <= j < i ==> bestD <= SqDist(pos, SegmentProjection(wps, pos, j).point)
      invariant forall j :: 0 <= j < bestSeg - 1 ==> bestD < SqDist(pos, SegmentProjection(wps, pos, j).point)
    {
      var proj := ProjectOntoSegment(wps[i], wps[i + 1], pos);
      var d := SqDist(pos, proj.point);
      if !found || d < bestD {
        bestD := d;
        bestSeg := i + 1;
        bestT := proj.t;
        bestPos := proj.point;
        found := true;
      }
      i := i + 1;
    }
  }

  // ---------------------------------------------------------------------
  // Station lists

  predicate SortedByIdx(list: seq<StationEntry>) {
    forall i, j :: 0 <= i < j < |list| ==> list[i].idx <= list[j].idx
  }

  predicate DistinctNames(list: seq<StationEntry>) {
    forall i, j :: 0 <= i < j < |list| ==> list[i].name != list[j].name
  }

  /** Inserts `e` before the first entry with a larger waypoint. */
  function InsertByIdx(e: StationEntry, list: seq<StationEntry>): (r: seq<StationEntry>)
    ensures multiset(r) == multiset(list) + multiset{e}
    ensures forall x :: x in r ==> x == e || x in list
  {
    if list == [] || e.idx < list[0].idx then [e] + list
    else
      assert list == [list[0]] + list[1..];
      [list[0]] + InsertByIdx(e, list[1..])
  }

  /** Insertion keeps a list sorted. */
  lemma {:induction false} InsertKeepsSorted(e: StationEntry, list: seq<StationEntry>)
    requires SortedByIdx(list)
    ensures SortedByIdx(InsertByIdx(e, list))
  {
    if list != [] && e.idx >= list[0].idx {
      var rest := InsertByIdx(e, list[1..]);
      InsertKeepsSorted(e, list[1..]);
      forall x | x in rest
        ensures list[0].idx <= x.idx
      {
        if x != e {
          var k :| 0 <= k < |list[1..]| && list[1..][k] == x;
          assert list[k + 1] == x;
        }
      }
      var r := [list[0]] + rest;
      assert forall j :: 1 <= j < |r| ==> r[j] == rest[j - 1] && r[j] in rest;
    }
  }

  /** Inserting a station with a new name keeps the names distinct. */
  lemma {:induction false} InsertKeepsNamesDistinct(e: StationEntry, list: seq<StationEntry>)
    requires DistinctNames(list)
    requires forall x :: x in list ==> x.name != e.name
    ensures DistinctNames(InsertByIdx(e, list))
  {
    if list != [] && e.idx >= list[0].idx {
      var rest := InsertByIdx(e, list[1..]);
      InsertKeepsNamesDistinct(e, list[1..]);
      forall x | x in rest
        ensures x.name != list[0].name
      {
        if x != e {
          var k :| 0 <= k < |list[1..]| && list[1..][k] == x;
          assert list[k + 1] == x;
        }
      }
      var r := [list[0]] + rest;
      assert forall j :: 1 <= j < |r| ==> r[j] == rest[j - 1];
    }
  }

  /** With distinct names, the `i`-th station's name is not among any
      rearrangement of the stations before it. */
  lemma LaterNameIsNew(list: seq<StationEntry>, i: int, prefix: seq<StationEntry>)
    requires DistinctNames(list) && 0 <= i < |list|
    requires multiset(prefix) == multiset(list[..i])
    ensures forall x :: x in prefix ==> x.name != list[i].name
  {
    forall x | x in prefix
      ensures x.name != list[i].name
    {
      assert x in multiset(list[..i]);
      var k :| 0 <= k < i && list[k] == x;
    }
  }

  /** The `table.sort` of the station list by waypoint. */
  method SortByIdx(list: seq<StationEntry>) returns (sorted: seq<StationEntry>)
    ensures SortedByIdx(sorted)
    ensures multiset(sorted) == multiset(list)
    ensures DistinctNames(list) ==> DistinctNames(sorted)
  {
    sorted := [];
    var i := 0;
    while i < |list|
      invariant 0 <= i <= |list|
      invariant SortedByIdx(sorted)
      invariant multiset(sorted) == multiset(list[..i])
      invariant DistinctNames(list) ==> DistinctNames(sorted)
    {
      assert list[..i + 1] == list[..i] + [list[i]];
      InsertKeepsSorted(list[i], sorted);
      if DistinctNames(list) {
        LaterNameIsNew(list, i, sorted);
        InsertKeepsNamesDistinct(list[i], sorted);
      }
      sorted := InsertByIdx(list[i], sorted);
      i := i + 1;
    }
    assert list[..i] == list;
  }

  /** The entries `pairs` yields for a station table, in the enumeration
      order `keys`. */
  function EntriesOf(keys: seq<string>, table: map<string, int>): (r: seq<StationEntry>)
    requires forall k :: k in keys ==> k in table
    ensures |r| == |keys|
    ensures forall i :: 0 <= i < |r| ==> r[i] == StationEntry(keys[i], table[keys[i]])
  {
    if keys == [] then [] else [StationEntry(keys[0], table[keys[0]])] + EntriesOf(keys[1..], table)
  }

  /** Listing a table in an enumeration order of its keys gives one entry
      per station name. */
  lemma EntriesDistinct(keys: seq<string>, table: map<string, int>)
    requires OrderedKeys(keys, table)
    ensures DistinctNames(EntriesOf(keys, table))
  {
  }

  /** A list with the same entries as the table's enumeration holds
      exactly the table's stations, each at its waypoint. */
  lemma {:induction false} EntriesAreTable(keys: seq<string>, table: map<string, int>, list: seq<StationEntry>)
    requires OrderedKeys(keys, table)
    requires multiset(list) == multiset(EntriesOf(keys, table))
    ensures forall e :: e in list <==> e.name in table && e.idx == table[e.name]
  {
    var r := EntriesOf(keys, table);
    forall e | true
      ensures e in list <==> e.name in table && e.idx == table[e.name]
    {
      assert e in list <==> e in multiset(list);
      assert e in r <==> e in multiset(r);
      if e in r {
        var i :| 0 <= i < |r| && r[i] == e;
        assert e.name == keys[i];
      }
      if e.name in table && e.idx == table[e.name] {
        var i :| 0 <= i < |keys| && keys[i] == e.name;
        assert r[i] == e;
      }
    }
  }

  /** The station table of a route, empty when the route is unknown. */
  function StationTable(shapes: map<string, RouteShape>, shapeKey: string): map<string, int> {
    if shapeKey in shapes then shapes[shapeKey].stationIndices else map[]
  }

  /** Whether a station entry is reached: the train is past the segment
      that ends at the station's waypoint, or at its very end. */
  predicate Arrived(bestSeg: int, lastT: real, idx: int) {
    bestSeg > idx + 1 || (bestSeg == idx + 1 && lastT >= 0.99)
  }

  /** The integer `math.clamp`. */
  function ClampInt(x: int, lo: int, hi: int): (r: int)
    requires lo <= hi
    ensures lo <= r <= hi
    ensures lo <= x <= hi ==> r == x
  {
    if x < lo then lo else if x > hi then hi else x
  }

  /** The history entry stored for a segment, if any. */
  function Lookup(hist: map<int, HistoryEntry>, seg: int): (r: Option<HistoryEntry>)
    ensures r.Some? <==> seg in hist
    ensures r.Some? ==> r.value == hist[seg]
  {
    if seg in hist then Some(hist[seg]) else None
  }

  /** Whether entry `i` of the list names the station the pointer targets. */
  predicate IsTarget(list: seq<StationEntry>, ptr: int, i: int)
    requires 1 <= ptr && 0 <= i < |list|
  {
    ptr <= |list| && list[i].name == list[ptr - 1].name
  }

  /** Whether the train has reached the station its pointer targets. */
  predicate TargetArrived(s: TrainState)
    requires s.nextStationPtr >= 1
  {
    s.nextStationPtr <= |s.nextStationList| &&
    Arrived(s.lastSeg, s.lastT, s.nextStationList[s.nextStationPtr - 1].idx)
  }

  /** The raw arrival time at entry `i` of the train's station list. */
  function RawEta(hist: map<int, HistoryEntry>, s: TrainState, i: int, baseAvg: real, liveDelay: real): real
    requires 0 <= i < |s.nextStationList|
  {
    Eta(hist, s.nextStationList[i].idx + 1, s.lastSeg, s.lastT, baseAvg) + liveDelay
  }

  /** The raw arrival times of all entries of the train's station list. */
  function RawEtas(hist: map<int, HistoryEntry>, s: TrainState, baseAvg: real, liveDelay: real): (r: seq<real>)
    ensures |r| == |s.nextStationList|
    ensures forall i :: 0 <= i < |r| ==> r[i] == RawEta(hist, s, i, baseAvg, liveDelay)
  {
    seq(|s.nextStationList|, i requires 0 <= i < |s.nextStationList| => RawEta(hist, s, i, baseAvg, liveDelay))
  }

  /** What the per-station pass has reported after the first `e` entries of
      `s`'s list, whose raw times are `raws`: an entry is reported exactly
      when it is the target or its raw time is positive, nothing else is,
      and a reached target reads 0. */
  predicate EtaKeys(s: TrainState, raws: seq<real>, e: int, etas: map<string, real>)
    requires s.nextStationPtr >= 1 && |raws| == |s.nextStationList|
  {
    var list := s.nextStationList;
    var ptr := s.nextStationPtr;
    0 <= e <= |list| &&
    (forall i :: 0 <= i < e ==> (list[i].name in etas <==> IsTarget(list, ptr, i) || raws[i] > 0.0)) &&
    (forall k :: k in etas ==> exists i :: 0 <= i < e && list[i].name == k) &&
    (TargetArrived(s) && ptr - 1 < e ==> list[ptr - 1].name in etas && etas[list[ptr - 1].name] == 0.0)
  }

  /** Reporting entry `e` (or not) extends what the pass has reported;
      names are distinct, so earlier entries keep their verdicts. */
  lemma EtaKeysStep(s: TrainState, raws: seq<real>, e: int, etas: map<string, real>, reported: Option<real>)
    requires s.nextStationPtr >= 1 && DistinctNames(s.nextStationList) && |raws| == |s.nextStationList|
    requires EtaKeys(s, raws, e, etas) && e < |s.nextStationList|
    requires reported.Some? <==> IsTarget(s.nextStationList, s.nextStationPtr, e) || raws[e] > 0.0
    requires IsTarget(s.nextStationList, s.nextStationPtr, e) && TargetArrived(s) ==> reported == Some(0.0)
    ensures EtaKeys(s, raws, e + 1, if reported.Some? then etas[s.nextStationList[e].name := reported.value] else etas)
  {
  }

  /** Whether the pass reports entry `i` through the filter: it is reported
      (the target, or a positive raw time) and is not a reached target. */
  predicate Smoothed(s: TrainState, raws: seq<real>, i: int)
    requires s.nextStationPtr >= 1 && 0 <= i < |s.nextStationList| == |raws|
  {
    var target := IsTarget(s.nextStationList, s.nextStationPtr, i);
    (target || raws[i] > 0.0) && !(target && TargetArrived(s))
  }

  /** Step 7's per-station pass over the first `e` entries of `s`'s list,
      whose raw times are `raws`, starting from filter contents `kf`: the
      reported times and the filter contents it leaves. A reached target
      reads 0 and leaves the filter alone; every other reported entry is
      one filter update with its raw time and reads the new estimate; the
      rest are skipped. */
  function PassEtas(s: TrainState, raws: seq<real>, e: int, kf: FilterState): (r: (map<string, real>, FilterState))
    requires s.nextStationPtr >= 1 && |raws| == |s.nextStationList| && 0 <= e <= |raws| && VarianceOk(kf.p)
    ensures VarianceOk(r.1.p)
    decreases e
  {
    if e == 0 then (map[], kf)
    else
      var prev := PassEtas(s, raws, e - 1, kf);
      var i := e - 1;
      var name := s.nextStationList[i].name;
      if IsTarget(s.nextStationList, s.nextStationPtr, i) && TargetArrived(s) then
        (prev.0[name := 0.0], prev.1)
      else if Smoothed(s, raws, i) then
        var f := Step(prev.1, raws[i]);
        (prev.0[name := f.x], f)
      else
        prev
  }

  /** Visiting entry `e` as step 7's loop body does extends the pass by
      that entry: `reported` is what the body reports and `f1` the filter
      contents it leaves behind. */
  lemma PassEtasStep(s: TrainState, raws: seq<real>, e: int, kf: FilterState,
      etas: map<string, real>, f: FilterState, reported: Option<real>, f1: FilterState)
    requires s.nextStationPtr >= 1 && |raws| == |s.nextStationList| && 0 <= e < |raws| && VarianceOk(kf.p)
    requires (etas, f) == PassEtas(s, raws, e, kf)
    requires var target := IsTarget(s.nextStationList, s.nextStationPtr, e);
      (reported.Some? <==> target || raws[e] > 0.0) &&
      (target && TargetArrived(s) ==> reported == Some(0.0) && f1 == f) &&
      (!(target && TargetArrived(s)) && (target || raws[e] > 0.0) ==> f1 == Step(f, raws[e]) && reported == Some(f1.x)) &&
      (!(target || raws[e] > 0.0) ==> f1 == f)
    ensures (if reported.Some? then etas[s.nextStationList[e].name := reported.value] else etas, f1) ==
      PassEtas(s, raws, e + 1, kf)
  {
  }

  /** The pass reports exactly the target and the entries with a positive
      raw time, nothing else, and 0 for a reached target. */
  lemma {:induction false} PassEtasKeys(s: TrainState, raws: seq<real>, e: int, kf: FilterState)
    requires StateOk(s) && |raws| == |s.nextStationList| && 0 <= e <= |raws| && VarianceOk(kf.p)
    ensures EtaKeys(s, raws, e, PassEtas(s, raws, e, kf).0)
    decreases e
  {
    if e > 0 {
      var i := e - 1;
      PassEtasKeys(s, raws, i, kf);
      var prev := PassEtas(s, raws, i, kf);
      var reported :=
        if IsTarget(s.nextStationList, s.nextStationPtr, i) && TargetArrived(s) then Some(0.0)
        else if Smoothed(s, raws, i) then Some(Step(prev.1, raws[i]).x)
        else None;
      EtaKeysStep(s, raws, i, prev.0, reported);
    }
  }

  /** Every reported entry reads 0 if it is a reached target and otherwise
      the filter's estimate right after the pass visited it. */
  lemma {:induction false} PassEtasValue(s: TrainState, raws: seq<real>, e: int, kf: FilterState, i: int)
    requires StateOk(s) && |raws| == |s.nextStationList| && 0 <= i < e <= |raws| && VarianceOk(kf.p)
    requires s.nextStationList[i].name in PassEtas(s, raws, e, kf).0
    ensures PassEtas(s, raws, e, kf).0[s.nextStationList[i].name] ==
      if IsTarget(s.nextStationList, s.nextStationPtr, i) && TargetArrived(s) then 0.0
      else PassEtas(s, raws, i + 1, kf).1.x
    decreases e
  {
    var list := s.nextStationList;
    if i < e - 1 {
      assert list[e - 1].name != list[i].name;
      PassEtasValue(s, raws, e - 1, kf, i);
    } else {
      PassEtasKeys(s, raws, i, kf);
    }
  }

  /** Until the first smoothed entry the filter is left as it was. */
  lemma {:induction false} FilterIdleUntilSmoothed(s: TrainState, raws: seq<real>, e: int, kf: FilterState)
    requires StateOk(s) && |raws| == |s.nextStationList| && 0 <= e <= |raws| && VarianceOk(kf.p)
    requires forall j :: 0 <= j < e ==> !Smoothed(s, raws, j)
    ensures PassEtas(s, raws, e, kf).1 == kf
    decreases e
  {
    if e > 0 {
      FilterIdleUntilSmoothed(s, raws, e - 1, kf);
    }
  }

  /** With a filter that has not yet taken a measurement, the first
      smoothed entry of the pass reports its raw arrival time unchanged. */
  lemma FirstSmoothedIsRaw(s: TrainState, raws: seq<real>, kf: FilterState, i: int)
    requires StateOk(s) && |raws| == |s.nextStationList| && 0 <= i < |raws| && VarianceOk(kf.p) && !kf.initialized
    requires Smoothed(s, raws, i) && forall j :: 0 <= j < i ==> !Smoothed(s, raws, j)
    ensures var etas := PassEtas(s, raws, |raws|, kf).0;
      s.nextStationList[i].name in etas && etas[s.nextStationList[i].name] == raws[i]
  {
    FilterIdleUntilSmoothed(s, raws, i, kf);
    PassEtasKeys(s, raws, |raws|, kf);
    PassEtasValue(s, raws, |raws|, kf, i);
  }

  /** The train state after steps 3 and 4 from `s` on route `shape`, given
      the raw match `seg`, `t`: the terminus rules, then the canonicalised
      match as `lastSeg` and `lastT`. */
  function Located(s: TrainState, shape: RouteShape, seg: int, t: real): (r: TrainState)
    ensures r.nextStationList == s.nextStationList && r.nextStationPtr == s.nextStationPtr
    ensures r.departureTime == s.departureTime
  {
    var wps := shape.worldWaypoints;
    var turned := Terminus(s, shape.allowReverse, |wps| - 1);
    var c := Canonicalize(seg, t, turned.direction, Max(|wps| - 1, 1));
    turned.(lastSeg := c.seg, lastT := c.t)
  }

  /** Whether `s` is the state of a train seen for the first time: at the
      start of segment 1, heading forward, departed at `now`, targeting the
      first of its stations, which are the station table `table` sorted by
      waypoint. */
  ghost predicate Started(s: TrainState, table: map<string, int>, now: real) {
    s.lastSeg == 1 && s.lastT == 0.0 && s.departureTime == now &&
    s.nextStationPtr == 1 && s.direction == Forward &&
    SortedByIdx(s.nextStationList) && DistinctNames(s.nextStationList) &&
    forall e :: e in s.nextStationList <==> e.name in table && e.idx == table[e.name]
  }

  /** Steps 5 to 8 from the located state `L`, history `h0`, live delay
      `ld` and filter contents `kf0` at time `now`: the broadcast `b` carries
      `L`'s position and direction and the per-station pass's times, and
      the train leaves with state `s1`, history `h1` and filter contents
      `kf1`; a reached target is departed from, and nothing else changes. */
  predicate ReportFrom(L: TrainState, h0: map<int, HistoryEntry>, ld: real, kf0: FilterState, now: real,
      b: Broadcast, s1: TrainState, h1: map<int, HistoryEntry>, kf1: FilterState)
    requires StateOk(L) && VarianceOk(kf0.p)
  {
    var raws := RawEtas(h0, L, BaseAvg(h0, L.lastSeg), ld);
    var pass := PassEtas(L, raws, |raws|, kf0);
    b.seg == L.lastSeg && b.t == L.lastT && b.direction == L.direction &&
    b.stationETAs == pass.0 && kf1 == pass.1 &&
    EtaKeys(L, raws, |raws|, b.stationETAs) &&
    (TargetArrived(L) ==>
      s1 == L.(departureTime := now, nextStationPtr := L.nextStationPtr + 1) &&
      h1 == h0[L.lastSeg := Recorded(Lookup(h0, L.lastSeg), now - L.departureTime)]) &&
    (!TargetArrived(L) ==> s1 == L && h1 == h0)
  }

  /** The pass over the located state, with the departure rule, is a
      report. */
  lemma ReportFromPass(L: TrainState, h0: map<int, HistoryEntry>, ld: real, kf0: FilterState, now: real,
      b: Broadcast, s1: TrainState, h1: map<int, HistoryEntry>, kf1: FilterState)
    requires StateOk(L) && VarianceOk(kf0.p)
    requires b.seg == L.lastSeg && b.t == L.lastT && b.direction == L.direction
    requires var raws := RawEtas(h0, L, BaseAvg(h0, L.lastSeg), ld);
      (b.stationETAs, kf1) == PassEtas(L, raws, |raws|, kf0)
    requires TargetArrived(L) ==>
      s1 == L.(departureTime := now, nextStationPtr := L.nextStationPtr + 1) &&
      h1 == h0[L.lastSeg := Recorded(Lookup(h0, L.lastSeg), now - L.departureTime)]
    requires !TargetArrived(L) ==> s1 == L && h1 == h0
    ensures ReportFrom(L, h0, ld, kf0, now, b, s1, h1, kf1)
  {
    var raws := RawEtas(h0, L, BaseAvg(h0, L.lastSeg), ld);
    PassEtasKeys(L, raws, |raws|, kf0);
  }

  /** Every history entry carries the smoothing factor of a new entry:
      entries are created with it and their factor is never changed. */
  predicate HistoryOk(history: map<string, map<int, HistoryEntry>>) {
    forall n, seg :: n in history && seg in history[n] ==> history[n][seg].alpha == HistoryAlpha
  }

  /** Folding a departure into a history keeps every factor at 0.2, and the
      new average lies between the old one and the run's duration. */
  lemma RecordedKeepsHistoryOk(history: map<string, map<int, HistoryEntry>>, name: string, seg: int, delta: real)
    requires HistoryOk(history)
    ensures var h := if name in history then history[name] else map[];
      var r := Recorded(Lookup(h, seg), delta);
      HistoryOk(history[name := h[seg := r]]) &&
      (seg in h ==> (h[seg].avg <= delta ==> h[seg].avg <= r.avg <= delta) &&
                    (delta <= h[seg].avg ==> delta <= r.avg <= h[seg].avg))
  {
  }

  /** Updating a key twice keeps the second value. */
  lemma UpdateTwice<K, V>(m: map<K, V>, k: K, a: V, b: V)
    ensures m[k := a][k := b] == m[k := b]
  {
  }

  /** Every route shape has segments of non-zero length. */
  predicate ShapesOk(shapes: map<string, RouteShape>) {
    forall k :: k in shapes ==> NonDegenerate(shapes[k].worldWaypoints)
  }

  /** The squared length of segment `i` of a path. */
  function SegmentSqLength(wps: seq<Vec3>, i: int): real
    requires 0 <= i < |wps| - 1
  {
    Dot(Sub(wps[i + 1], wps[i]), Sub(wps[i + 1], wps[i]))
  }

  /** A path of at most four waypoints is non-degenerate when each of its
      (at most three) segments has non-zero length. */
  lemma NonDegenerateUpToFour(wps: seq<Vec3>)
    requires |wps| <= 4
    requires forall i :: 0 <= i < |wps| - 1 && i < 3 ==> SegmentSqLength(wps, i) != 0.0
    ensures NonDegenerate(wps)
  {
    forall i | 0 <= i < |wps| - 1
      ensures Dot(Sub(wps[i + 1], wps[i]), Sub(wps[i + 1], wps[i])) != 0.0
    {
      assert SegmentSqLength(wps, i) != 0.0;
    }
  }

  /** The world paths of the shipped routes and of the legacy Main shape
      have no zero-length segment. */
  lemma ShippedPathsNonDegenerate()
    ensures NonDegenerate(RouteDefinitions.R001().worldWaypoints)
    ensures NonDegenerate(RouteDefinitions.R001X().worldWaypoints)
    ensures NonDegenerate(RouteDefinitions.R029().worldWaypoints)
    ensures NonDegenerate(RouteDefinitions.R026().worldWaypoints)
    ensures NonDegenerate(LegacyMain().worldWaypoints)
  {
    RouteDefinitions.WorldPaths();
    StraightPathNonDegenerate();
    MainPathNonDegenerate();
  }

  lemma StraightPathNonDegenerate()
    ensures NonDegenerate([Vec3(0.0, 0.5, 0.0), Vec3(100.0, 0.5, 0.0), Vec3(200.0, 0.5, 0.0)])
    ensures NonDegenerate([Vec3(-100.0, 0.5, 100.0), Vec3(-50.0, 0.5, 150.0)])
    ensures NonDegenerate([Vec3(-100.0, 0.5, 100.0), Vec3(-150.0, 0.5, 200.0), Vec3(-200.0, 0.5, 300.0), Vec3(-300.0, 0.5, 500.0)])
  {
    var a := [Vec3(0.0, 0.5, 0.0), Vec3(100.0, 0.5, 0.0), Vec3(200.0, 0.5, 0.0)];
    assert SegmentSqLength(a, 0) == 10000.0 && SegmentSqLength(a, 1) == 10000.0;
    NonDegenerateUpToFour(a);
    var b := [Vec3(-100.0, 0.5, 100.0), Vec3(-50.0, 0.5, 150.0)];
    assert SegmentSqLength(b, 0) == 5000.0;
    NonDegenerateUpToFour(b);
    var c := [Vec3(-100.0, 0.5, 100.0), Vec3(-150.0, 0.5, 200.0), Vec3(-200.0, 0.5, 300.0), Vec3(-300.0, 0.5, 500.0)];
    assert SegmentSqLength(c, 0) == 12500.0 && SegmentSqLength(c, 1) == 12500.0 && SegmentSqLength(c, 2) == 50000.0;
    NonDegenerateUpToFour(c);
  }

  lemma MainPathNonDegenerate()
    ensures NonDegenerate(LegacyMain().worldWaypoints)
  {
    var a := [Vec3(196.7, 0.5, 270.8), Vec3(-18.192, 0.5, -86.013), Vec3(-293.0, 0.5, -86.909), Vec3(-565.855, 0.5, -86.909)];
    assert LegacyMain().worldWaypoints == a;
    assert SegmentSqLength(a, 0) > 0.0 && SegmentSqLength(a, 1) > 0.0 && SegmentSqLength(a, 2) > 0.0;
    NonDegenerateUpToFour(a);
  }

  /** The shapes the server builds at start-up (`CreateIntegratedRouteShapes`
      over the catalog: the catalog routes' shapes plus the legacy Main
      shape) have no zero-length segment, so a tracker over them is valid. */
  lemma IntegratedShapesOk(integrated: map<string, RouteShape>)
    requires integrated.Keys == RouteDefinitions.Catalog().Keys + {"Main"}
    requires forall id :: id in integrated ==>
      integrated[id] == if id in RouteDefinitions.Catalog() then ShapeOf(RouteDefinitions.Catalog()[id]) else LegacyMain()
    ensures ShapesOk(integrated)
  {
    ShippedPathsNonDegenerate();
    RouteDefinitions.CatalogIs();
  }

  /** A train state whose pointer is at least 1 and whose station list has
      one entry per name. */
  predicate StateOk(s: TrainState) {
    s.nextStationPtr >= 1 && DistinctNames(s.nextStationList)
  }

  predicate StatesOk(m: map<string, TrainState>) {
    forall n :: n in m ==> StateOk(m[n])
  }

  function Max(a: int, b: int): int {
    if a >= b then a else b
  }

  /** The tracker's module-level tables: the state, segment history, live
      delay and Kalman filter of each train, keyed by train name, over a
      fixed table of route shapes. */
  class Tracker {
    const shapes: map<string, RouteShape>
    var trainState: map<string, TrainState>
    var segmentHistory: map<string, map<int, HistoryEntry>>
    var liveDelays: map<string, real>
    var filters: map<string, SimpleKalmanFilter>

    /** Every tracked train has a filter (they are created together), a
        station pointer that starts at 1 and only grows, and a station list
        with one entry per station name; every filter keeps its variance in
        range and every history entry its factor of 0.2. */
    ghost predicate Valid()
      reads this, filters.Values
    {
      ShapesOk(shapes) && filters.Keys == trainState.Keys && FiltersOk() &&
      StatesOk(trainState) && HistoryOk(segmentHistory)
    }

    /** No two trains share a filter: each is created for its train. Kept
        apart from `Valid` since only the per-train entry points need it. */
    ghost predicate FiltersDistinct()
      reads this
    {
      forall a, b :: a in filters && b in filters && a != b ==> filters[a] != filters[b]
    }

    /** Every filter keeps its variance in range. */
    ghost predicate FiltersOk()
      reads this, filters.Values
    {
      forall n :: n in filters ==> filters[n].Valid()
    }

    /** Empty tables over the given route shapes, whose segments all have
        non-zero length. */
    constructor(shapes: map<string, RouteShape>)
      requires ShapesOk(shapes)
      ensures Valid() && FiltersDistinct()
      ensures this.shapes == shapes
      ensures trainState == map[] && segmentHistory == map[] && liveDelays == map[] && filters == map[]
    {
      this.shapes := shapes;
      trainState := map[];
      segmentHistory := map[];
      liveDelays := map[];
      filters := map[];
    }

    /** The train's segment history, empty when it has none. */
    function HistFor(name: string): map<int, HistoryEntry>
      reads this
    {
      if name in segmentHistory then segmentHistory[name] else map[]
    }

    /** The train's live delay, 0 when none is recorded. */
    function LiveDelay(name: string): real
      reads this
    {
      if name in liveDelays then liveDelays[name] else 0.0
    }

    /** `recordDeparture`: the time since the last departure is folded into
        the history entry of the train's current segment, and the departure
        time becomes `now`. No other entry changes. */
    method RecordDeparture(name: string, now: real)
      requires Valid() && name in trainState
      modifies this
      ensures Valid()
      ensures filters == old(filters) && liveDelays == old(liveDelays)
      ensures var s := old(trainState[name]);
        var h := old(HistFor(name));
        segmentHistory == old(segmentHistory)[name := h[s.lastSeg := Recorded(Lookup(h, s.lastSeg), now - s.departureTime)]] &&
        trainState == old(trainState)[name := s.(departureTime := now)]
    {
      var state := trainState[name];
      var delta := now - state.departureTime;
      var hist := HistFor(name);
      var e := Recorded(Lookup(hist, state.lastSeg), delta);
      RecordedKeepsHistoryOk(segmentHistory, name, state.lastSeg, delta);
      hist := hist[state.lastSeg := e];
      segmentHistory := segmentHistory[name := hist];
      trainState := trainState[name := state.(departureTime := now)];
    }

    /** Step 7, the per-station pass. Every station gets a raw arrival
        time. The station the pointer targets is always reported: 0 once the
        train has reached it, when the pointer also advances by one and the
        departure is recorded, and otherwise the filtered estimate. Any other
        station is reported only when its raw arrival time is positive. */
    method StationEtas(name: string, baseAvg: real, now: real) returns (etas: map<string, real>)
      requires Valid() && name in trainState
      modifies this, filters[name]
      ensures Valid()
      ensures filters == old(filters) && liveDelays == old(liveDelays)
      ensures var s := old(trainState[name]);
        (etas, filters[name].State()) ==
        PassEtas(s, RawEtas(old(HistFor(name)), s, baseAvg, old(LiveDelay(name))), |s.nextStationList|, old(filters[name].State()))
      ensures name in trainState && trainState == old(trainState)[name := trainState[name]]
      ensures var s := old(trainState[name]);
        var h := old(HistFor(name));
        TargetArrived(s) ==>
          trainState[name] == s.(departureTime := now, nextStationPtr := s.nextStationPtr + 1) &&
          HistFor(name) == h[s.lastSeg := Recorded(Lookup(h, s.lastSeg), now - s.departureTime)] &&
          segmentHistory == old(segmentHistory)[name := HistFor(name)]
      ensures !TargetArrived(old(trainState[name])) ==>
        trainState == old(trainState) && segmentHistory == old(segmentHistory)
    {
      var liveDelay := LiveDelay(name);
      ghost var h0 := HistFor(name);
      ghost var ts0 := trainState;
      ghost var sh0 := segmentHistory;
      ghost var kf0 := filters[name].State();
      var state := trainState[name];
      var list := state.nextStationList;
      ghost var raws := RawEtas(h0, state, baseAvg, liveDelay);
      etas := map[];
      var e := 0;
      while e < |list|
        invariant PassInvariant(name, state, baseAvg, liveDelay, now, ts0, sh0, old(filters), old(liveDelays), kf0, raws, e, etas)
      {
        etas := PassStep(name, state, baseAvg, liveDelay, now, ts0, sh0, old(filters), old(liveDelays), kf0, raws, e, etas);
        e := e + 1;
      }
    }

    /** What the per-station pass has established after the first `e`
        stations of `state`'s list, starting from tables `ts0`, `sh0`. */
    ghost predicate PassInvariant(name: string, state: TrainState, baseAvg: real, liveDelay: real, now: real,
        ts0: map<string, TrainState>, sh0: map<string, map<int, HistoryEntry>>,
        fs0: map<string, SimpleKalmanFilter>, ld0: map<string, real>, kf0: FilterState, raws: seq<real>,
        e: int, etas: map<string, real>)
      reads this, filters.Values
    {
      var ptr := state.nextStationPtr;
      ptr >= 1 && DistinctNames(state.nextStationList) && 0 <= e <= |state.nextStationList| &&
      Valid() && filters == fs0 && liveDelays == ld0 &&
      name in ts0 && ts0[name] == state && name in trainState && VarianceOk(kf0.p) &&
      raws == RawEtas(if name in sh0 then sh0[name] else map[], state, baseAvg, liveDelay) &&
      (etas, filters[name].State()) == PassEtas(state, raws, e, kf0) &&
      trainState[name].lastSeg == state.lastSeg && trainState[name].lastT == state.lastT &&
      (TargetArrived(state) && ptr - 1 < e ==> Departed(ts0, sh0, name, now)) &&
      (!(TargetArrived(state) && ptr - 1 < e) ==> trainState == ts0 && segmentHistory == sh0)
    }

    /** One station of the per-station pass. */
    method PassStep(name: string, state: TrainState, baseAvg: real, liveDelay: real, now: real,
        ghost ts0: map<string, TrainState>, ghost sh0: map<string, map<int, HistoryEntry>>,
        ghost fs0: map<string, SimpleKalmanFilter>, ghost ld0: map<string, real>, ghost kf0: FilterState,
        ghost raws: seq<real>, e: int, etas: map<string, real>)
      returns (etas': map<string, real>)
      requires PassInvariant(name, state, baseAvg, liveDelay, now, ts0, sh0, fs0, ld0, kf0, raws, e, etas)
      requires e < |state.nextStationList|
      modifies this, filters[name]
      ensures PassInvariant(name, state, baseAvg, liveDelay, now, ts0, sh0, fs0, ld0, kf0, raws, e + 1, etas')
    {
      ghost var h0 := if name in sh0 then sh0[name] else map[];
      var list := state.nextStationList;
      var ptr := state.nextStationPtr;
      var entry := list[e];
      var rawEta := StationRawEta(name, state, e, baseAvg, liveDelay, h0);
      var isTarget := ptr <= |list| && entry.name == list[ptr - 1].name;
      assert isTarget <==> IsTarget(list, ptr, e);
      assert isTarget ==> e == ptr - 1;
      assert isTarget ==> (Arrived(state.lastSeg, state.lastT, entry.idx) <==> TargetArrived(state));
      ghost var f := filters[name].State();
      var reported := VisitStation(name, entry, isTarget, rawEta, ptr, now);
      etas' := etas;
      if reported.Some? {
        etas' := etas[entry.name := reported.value];
      }
      PassEtasStep(state, raws, e, kf0, etas, f, reported, filters[name].State());
    }

    /** The raw arrival time at entry `e`, `etaToWp` plus the live delay.
        It reads the current history, which differs from `h0` at most in the
        current segment's entry, and that entry is not part of the sum. */
    method StationRawEta(name: string, state: TrainState, e: int, baseAvg: real, liveDelay: real, ghost h0: map<int, HistoryEntry>)
      returns (rawEta: real)
      requires 0 <= e < |state.nextStationList|
      requires forall seg :: seg != state.lastSeg ==>
        (seg in HistFor(name) <==> seg in h0) && (seg in h0 ==> HistFor(name)[seg] == h0[seg])
      ensures rawEta == RawEta(h0, state, e, baseAvg, liveDelay)
    {
      var entry := state.nextStationList[e];
      var eta := EtaToWp(entry.idx + 1, state.lastSeg, state.lastT, baseAvg, name);
      DurationsFrame(HistFor(name), h0, state.lastSeg + 1, entry.idx + 1, baseAvg);
      rawEta := eta + liveDelay;
    }

    /** The body of the per-station pass for one station: what it reports
        for the station, if anything. The target station reports 0 once
        reached, advancing the pointer (if it still reads `ptr`) and
        recording the departure; otherwise the raw time is filtered and
        reported when the station is the target or the time is positive. */
    method VisitStation(name: string, entry: StationEntry, isTarget: bool, rawEta: real, ptr: int, now: real)
      returns (reported: Option<real>)
      requires Valid() && name in trainState
      modifies this, filters[name]
      ensures Valid()
      ensures filters == old(filters) && liveDelays == old(liveDelays)
      ensures reported.Some? <==> isTarget || rawEta > 0.0
      ensures isTarget && Arrived(old(trainState[name]).lastSeg, old(trainState[name]).lastT, entry.idx) ==>
        reported == Some(0.0) && filters[name].State() == old(filters[name].State())
      ensures !(isTarget && Arrived(old(trainState[name]).lastSeg, old(trainState[name]).lastT, entry.idx)) &&
              (isTarget || rawEta > 0.0) ==>
        filters[name].State() == Step(old(filters[name].State()), rawEta) && reported == Some(filters[name].x)
      ensures !(isTarget || rawEta > 0.0) ==> filters[name].State() == old(filters[name].State())
      ensures (isTarget && Arrived(old(trainState[name]).lastSeg, old(trainState[name]).lastT, entry.idx) &&
               old(trainState[name]).nextStationPtr == ptr) ==>
        Departed(old(trainState), old(segmentHistory), name, now)
      ensures !(isTarget && Arrived(old(trainState[name]).lastSeg, old(trainState[name]).lastT, entry.idx) &&
                old(trainState[name]).nextStationPtr == ptr) ==>
        trainState == old(trainState) && segmentHistory == old(segmentHistory)
    {
      var state := trainState[name];
      if isTarget {
        var arrived := state.lastSeg > entry.idx + 1 || (state.lastSeg == entry.idx + 1 && state.lastT >= 0.99);
        if arrived {
          reported := Some(0.0);
          if state.nextStationPtr == ptr {
            Depart(name, now);
          }
        } else {
          var smoothed := Smooth(name, rawEta);
          reported := Some(smoothed);
        }
      } else if rawEta > 0.0 {
        var smoothed := Smooth(name, rawEta);
        reported := Some(smoothed);
      } else {
        reported := None;
      }
    }

    /** Whether the tables are those of `trainState0`/`history0` after the
        train `name` has departed at `now`: its departure recorded and its
        station pointer advanced by one. */
    ghost predicate Departed(trainState0: map<string, TrainState>, history0: map<string, map<int, HistoryEntry>>, name: string, now: real)
      requires name in trainState0
      reads this
    {
      var s := trainState0[name];
      var h := if name in history0 then history0[name] else map[];
      trainState == trainState0[name := s.(departureTime := now, nextStationPtr := s.nextStationPtr + 1)] &&
      segmentHistory == history0[name := h[s.lastSeg := Recorded(Lookup(h, s.lastSeg), now - s.departureTime)]]
    }

    /** The arrival branch: `recordDeparture`, then the pointer moves on. */
    method Depart(name: string, now: real)
      requires Valid() && name in trainState
      modifies this
      ensures Valid()
      ensures filters == old(filters) && liveDelays == old(liveDelays)
      ensures Departed(old(trainState), old(segmentHistory), name, now)
    {
      ghost var ts0 := trainState;
      RecordDeparture(name, now);
      var st := trainState[name];
      assert st == ts0[name].(departureTime := now);
      ghost var ts1 := trainState;
      trainState := trainState[name := st.(nextStationPtr := st.nextStationPtr + 1)];
      assert trainState == ts0[name := st.(nextStationPtr := st.nextStationPtr + 1)];
      assert StatesOk(trainState) by {
        assert StatesOk(ts1);
      }
      assert FiltersOk();
    }

    /** `KalmanSimple.update` on the train's filter. */
    method Smooth(name: string, rawEta: real) returns (smoothed: real)
      requires Valid() && name in trainState
      modifies filters[name]
      ensures Valid()
      ensures filters[name].State() == Step(old(filters[name].State()), rawEta)
      ensures smoothed == filters[name].x
    {
      var kf := filters[name];
      smoothed := kf.Update(rawEta);
      forall n | n in filters
        ensures filters[n].Valid()
      {
        if filters[n] != kf {
          assert unchanged(filters[n]);
        }
      }
    }

    /** Step 1's initialisation of a train seen for the first time: its
        station list is its route's station table, enumerated in
        `stationOrder` and sorted by waypoint; it starts at the beginning of
        segment 1, heading forward, targeting the first station, with a
        fresh filter. */
    method StartTracking(name: string, shapeKey: string, now: real, stationOrder: seq<string>)
      requires Valid() && FiltersDistinct() && name !in trainState
      requires OrderedKeys(stationOrder, StationTable(shapes, shapeKey))
      modifies this
      ensures Valid() && FiltersDistinct()
      ensures segmentHistory == old(segmentHistory) && liveDelays == old(liveDelays)
      ensures name in trainState && name in filters
      ensures trainState == old(trainState)[name := trainState[name]]
      ensures filters == old(filters)[name := filters[name]]
      ensures fresh(filters[name]) && filters[name].State() == FilterState(0.0, InitialVariance, false)
      ensures Started(trainState[name], StationTable(shapes, shapeKey), now)
    {
      var table := StationTable(shapes, shapeKey);
      var raw := EntriesOf(stationOrder, table);
      EntriesDistinct(stationOrder, table);
      var list := SortByIdx(raw);
      EntriesAreTable(stationOrder, table, list);
      var kf := new SimpleKalmanFilter.Create();
      trainState := trainState[name := TrainState(1, 0.0, now, list, 1, Forward)];
      filters := filters[name := kf];
      assert StateOk(trainState[name]);
      forall n | n in filters
        ensures filters[n].Valid()
      {
        if n != name {
          assert n in old(filters);
        }
      }
    }

    /** Steps 3 and 4 for a tracked train on route `shapeKey`: the terminus
        rules, then the map match, whose canonicalisation becomes the
        train's `lastSeg` and `lastT`. Returns the raw match: the nearest
        segment (first on ties), the fraction along it and the point. */
    method Locate(name: string, shapeKey: string, pos: Vec3) returns (matchSeg: int, matchT: real, bestPos: Vec3)
      requires Valid() && name in trainState && shapeKey in shapes
      modifies this
      ensures Valid()
      ensures filters == old(filters) && liveDelays == old(liveDelays) && segmentHistory == old(segmentHistory)
      ensures name in trainState && trainState == old(trainState)[name := trainState[name]]
      ensures Matched(shapes[shapeKey].worldWaypoints, pos, matchSeg, matchT, bestPos)
      ensures trainState[name] == Located(old(trainState[name]), shapes[shapeKey], matchSeg, matchT)
      ensures var n := |shapes[shapeKey].worldWaypoints|;
        1 <= trainState[name].lastSeg <= Max(n - 1, 1) && 0.0 <= trainState[name].lastT <= 1.0
    {
      var shape := shapes[shapeKey];
      var wps := shape.worldWaypoints;
      var state := Terminus(trainState[name], shape.allowReverse, |wps| - 1);
      matchSeg, matchT, bestPos := MatchToRoute(wps, pos);
      var maxSegments := Max(|wps| - 1, 1);
      CanonicalizeInRange(matchSeg, matchT, state.direction, maxSegments);
      var c := Canonicalize(matchSeg, matchT, state.direction, maxSegments);
      trainState := trainState[name := state.(lastSeg := c.seg, lastT := c.t)];
      assert StateOk(trainState[name]);
    }

    /** One pass of the per-train loop for the train `name` at `pos`:
        nothing for an AI train or a route without a shape (though a train
        on such a route is still registered); otherwise the train is
        located, its arrival times computed and its broadcast returned.
        `stationOrder` is the order in which `pairs` enumerates the station
        table of a train seen for the first time. */
    method TrackTrain(name: string, pos: Vec3, now: real, stationOrder: seq<string>) returns (b: Option<Broadcast>)
      requires Valid() && FiltersDistinct()
      requires !IsAiTrain(name) && name !in trainState ==>
        OrderedKeys(stationOrder, StationTable(shapes, ShapeKeyFor(name)))
      modifies this, if name in filters then {filters[name]} else {}
      ensures Valid() && FiltersDistinct()
      ensures IsAiTrain(name) ==>
        b == None && trainState == old(trainState) && segmentHistory == old(segmentHistory) && filters == old(filters)
      ensures !IsAiTrain(name) ==> name in trainState
      ensures !IsAiTrain(name) && ShapeKeyFor(name) !in shapes ==> b == None
      ensures b.Some? ==> !IsAiTrain(name) && ShapeKeyFor(name) in shapes
      ensures forall n :: n in old(trainState) && n != name ==> n in trainState && trainState[n] == old(trainState[n])
      ensures forall n :: n in old(filters) && n != name ==> n in filters && filters[n] == old(filters[n])
      ensures liveDelays == old(liveDelays)
      ensures segmentHistory == old(segmentHistory) || segmentHistory == old(segmentHistory)[name := HistFor(name)]
      ensures b.Some? ==> b.value.trainName == name && b.value.shapeKey == ShapeKeyFor(name)
      ensures b.Some? && name in old(trainState) ==>
        var shape := shapes[ShapeKeyFor(name)];
        exists seg, t :: Matched(shape.worldWaypoints, pos, seg, t, b.value.position) &&
          ReportFrom(Located(old(trainState[name]), shape, seg, t), old(HistFor(name)), old(LiveDelay(name)),
            old(filters[name].State()), now, b.value, trainState[name], HistFor(name), filters[name].State())
      ensures b.Some? && name !in old(trainState) ==>
        var shape := shapes[ShapeKeyFor(name)];
        exists s0, seg, t :: Started(s0, StationTable(shapes, ShapeKeyFor(name)), now) &&
          Matched(shape.worldWaypoints, pos, seg, t, b.value.position) &&
          ReportFrom(Located(s0, shape, seg, t), old(HistFor(name)), old(LiveDelay(name)),
            FilterState(0.0, InitialVariance, false), now, b.value, trainState[name], HistFor(name), filters[name].State())
    {
      if IsAiTrain(name) {
        return None;
      }
      var shapeKey := ShapeKeyFor(name);
      if name !in trainState {
        StartTracking(name, shapeKey, now, stationOrder);
      }
      if shapeKey !in shapes {
        return None;
      }
      var report := Report(name, shapeKey, pos, now);
      b := Some(report);
    }

    /** Steps 3 to 8 for a tracked train on a known route: locate it, then
        report from the located state. Only the train's own state, history
        entry and filter change. */
    method Report(name: string, shapeKey: string, pos: Vec3, now: real) returns (b: Broadcast)
      requires Valid() && FiltersDistinct() && name in trainState && shapeKey in shapes
      modifies this, filters[name]
      ensures Valid() && FiltersDistinct()
      ensures name in trainState && trainState == old(trainState)[name := trainState[name]]
      ensures filters == old(filters) && liveDelays == old(liveDelays)
      ensures segmentHistory == old(segmentHistory) || segmentHistory == old(segmentHistory)[name := HistFor(name)]
      ensures var n := |shapes[shapeKey].worldWaypoints|;
        b.trainName == name && b.shapeKey == shapeKey &&
        1 <= b.seg <= Max(n - 1, 1) && 0.0 <= b.t <= 1.0
      ensures var shape := shapes[shapeKey];
        exists seg, t :: Matched(shape.worldWaypoints, pos, seg, t, b.position) &&
          ReportFrom(Located(old(trainState[name]), shape, seg, t), old(HistFor(name)), old(LiveDelay(name)),
            old(filters[name].State()), now, b, trainState[name], HistFor(name), filters[name].State())
    {
      ghost var ts0 := trainState;
      var matchSeg, matchT, bestPos := Locate(name, shapeKey, pos);
      ghost var located := trainState[name];
      b := ReportLocated(name, shapeKey, bestPos, now);
      UpdateTwice(ts0, name, located, trainState[name]);
      assert Matched(shapes[shapeKey].worldWaypoints, pos, matchSeg, matchT, b.position);
    }

    /** Steps 5 to 8 from the train's located state: take the base duration
        of its segment, compute the station arrival times and clamp the
        position for the broadcast (a no-op, since the located position is
        already on the route). */
    method ReportLocated(name: string, shapeKey: string, bestPos: Vec3, now: real) returns (b: Broadcast)
      requires Valid() && name in trainState && shapeKey in shapes
      requires var n := |shapes[shapeKey].worldWaypoints|;
        1 <= trainState[name].lastSeg <= Max(n - 1, 1) && 0.0 <= trainState[name].lastT <= 1.0
      modifies this, filters[name]
      ensures Valid()
      ensures name in trainState && trainState == old(trainState)[name := trainState[name]]
      ensures filters == old(filters) && liveDelays == old(liveDelays)
      ensures segmentHistory == old(segmentHistory) || segmentHistory == old(segmentHistory)[name := HistFor(name)]
      ensures b.trainName == name && b.shapeKey == shapeKey && b.position == bestPos
      ensures ReportFrom(old(trainState[name]), old(HistFor(name)), old(LiveDelay(name)), old(filters[name].State()),
        now, b, trainState[name], HistFor(name), filters[name].State())
    {
      ghost var h0, ld, kf0 := HistFor(name), LiveDelay(name), filters[name].State();
      var state := trainState[name];
      var baseAvg := BaseAvg(HistFor(name), state.lastSeg);
      var etas := StationEtas(name, baseAvg, now);
      var after := trainState[name];
      var maxSegIdx := Max(|shapes[shapeKey].worldWaypoints| - 1, 1);
      var safeSeg := ClampInt(after.lastSeg, 1, maxSegIdx);
      var safeT := Clamp(after.lastT, 0.0, 1.0);
      b := Broadcast(name, safeSeg, safeT, etas, bestPos, shapeKey, after.direction);
      ReportFromPass(state, h0, ld, kf0, now, b, after, HistFor(name), filters[name].State());
    }

    /** `etaToWp`: accumulates the segment durations up to waypoint
        `wpIdx` (1-based). */
    method EtaToWp(wpIdx: int, bestSeg: int, lastT: real, baseAvg: real, name: string) returns (eta: real)
      ensures eta == Eta(HistFor(name), wpIdx, bestSeg, lastT, baseAvg)
    {
      var hist := HistFor(name);
      eta := (1.0 - lastT) * baseAvg;
      var seg := bestSeg + 1;
      while seg < wpIdx
        invariant bestSeg + 1 <= seg && (seg <= wpIdx || seg == bestSeg + 1)
        invariant eta == (1.0 - lastT) * baseAvg + Durations(hist, bestSeg + 1, seg, baseAvg)
      {
        eta := eta + SegmentDuration(hist, seg, baseAvg);
        seg := seg + 1;
      }
    }
  }
}

/** Per-segment travel-time statistics (src/shared/SegmentTimesSimple.ts).
    The calculator owns a map from segment index to its statistics and
    updates entries in place. */
module SegmentTimes {
  import opened Collections

  datatype SegmentTime = SegmentTime(segmentIndex: int, averageTime: real, minTime: real, maxTime: real, confidence: real)

  /** An entry is consistent when its bounds bracket its average. */
  predicate Bracketed(s: SegmentTime) {
    s.minTime <= s.averageTime <= s.maxTime
  }

  /** Smoothing factor of the moving average. */
  const Alpha: real := 0.1

  /** What `getSegmentTime` answers for a segment it has no entry for. */
  function DefaultFor(segmentIndex: int): (r: SegmentTime)
    ensures r.segmentIndex == segmentIndex && Bracketed(r)
    ensures r.averageTime == 10.0 && r.minTime == 8.0 && r.maxTime == 12.0 && r.confidence == 0.5
  {
    SegmentTime(segmentIndex, 10.0, 8.0, 12.0, 0.5)
  }

  /** The entry after one observation `actualTime` of an existing entry:
      exponential moving average with factor 0.1, widened bounds, same
      confidence. */
  function Observe(s: SegmentTime, actualTime: real): (r: SegmentTime)
    ensures r.segmentIndex == s.segmentIndex && r.confidence == s.confidence
    ensures r.minTime <= actualTime <= r.maxTime
    ensures r.minTime <= s.minTime && s.maxTime <= r.maxTime
    ensures r.minTime == s.minTime || r.minTime == actualTime
    ensures r.maxTime == s.maxTime || r.maxTime == actualTime
    ensures Bracketed(s) ==> Bracketed(r)
  {
    var avg := s.averageTime * (1.0 - Alpha) + actualTime * Alpha;
    var lo := if s.minTime <= actualTime then s.minTime else actualTime;
    var hi := if s.maxTime >= actualTime then s.maxTime else actualTime;
    SegmentTime(s.segmentIndex, avg, lo, hi, s.confidence)
  }

  /** The entry created by the first observation of a segment. */
  function FirstObservation(segmentIndex: int, actualTime: real): (r: SegmentTime)
    ensures r.segmentIndex == segmentIndex && Bracketed(r)
    ensures r.averageTime == actualTime && r.minTime == actualTime && r.maxTime == actualTime
    ensures r.confidence == 0.5
  {
    SegmentTime(segmentIndex, actualTime, actualTime, actualTime, 0.5)
  }

  /** The seeded table of the constructor: segments 1 to 4. */
  function Seeded(): (m: map<int, SegmentTime>)
    ensures m.Keys == {1, 2, 3, 4}
    ensures forall i :: i in m ==> m[i].segmentIndex == i && Bracketed(m[i])
  {
    map[1 := SegmentTime(1, 14.0, 12.0, 16.0, 0.9),
        2 := SegmentTime(2, 13.0, 11.0, 15.0, 0.85),
        3 := SegmentTime(3, 9.0, 8.0, 11.0, 0.92),
        4 := SegmentTime(4, 10.0, 9.0, 12.0, 0.88)]
  }

  class SegmentTimesCalculator {
    var segmentTimes: map<int, SegmentTime>
    /** The order `forEach` visits `segmentTimes`' keys in. The table
        promises none; the model keeps the order the keys were first added,
        which is one it may take. */
    var order: seq<int>

    /** Every entry is stored under its own index and is bracketed. */
    ghost predicate Valid()
      reads this
    {
      OrderedKeys(order, segmentTimes) &&
      forall i :: i in segmentTimes ==> segmentTimes[i].segmentIndex == i && Bracketed(segmentTimes[i])
    }

    constructor()
      ensures Valid()
      ensures segmentTimes == Seeded() && order == [1, 2, 3, 4]
    {
      segmentTimes := Seeded();
      order := [1, 2, 3, 4];
    }

    /** `getSegmentTime`: the stored entry, else the default, which is not
        inserted. */
    function GetSegmentTime(segmentIndex: int): (r: SegmentTime)
      requires Valid()
      reads this
      ensures r.segmentIndex == segmentIndex && Bracketed(r)
      ensures segmentIndex in segmentTimes ==> r == segmentTimes[segmentIndex]
      ensures segmentIndex !in segmentTimes ==> r == DefaultFor(segmentIndex)
    {
      if segmentIndex in segmentTimes then segmentTimes[segmentIndex] else DefaultFor(segmentIndex)
    }

    /** `updateSegmentTime`: only the entry for `segmentIndex` changes; a new
        index is appended to the iteration order. */
    method UpdateSegmentTime(segmentIndex: int, actualTime: real)
      requires Valid()
      modifies this
      ensures Valid()
      ensures segmentIndex in old(segmentTimes) ==>
        segmentTimes == old(segmentTimes)[segmentIndex := Observe(old(segmentTimes)[segmentIndex], actualTime)] &&
        order == old(order)
      ensures segmentIndex !in old(segmentTimes) ==>
        segmentTimes == old(segmentTimes)[segmentIndex := FirstObservation(segmentIndex, actualTime)] &&
        order == old(order) + [segmentIndex]
    {
      if segmentIndex in segmentTimes {
        var existing := segmentTimes[segmentIndex];
        segmentTimes := segmentTimes[segmentIndex := Observe(existing, actualTime)];
      } else {
        segmentTimes := segmentTimes[segmentIndex := FirstObservation(segmentIndex, actualTime)];
        order := order + [segmentIndex];
      }
    }

    /** `getAllSegmentTimes`: the stored entries, one record per stored
        index, in the calculator's key order (one of the orders `forEach`
        may visit them in). */
    method GetAllSegmentTimes() returns (times: seq<SegmentTime>)
      requires Valid()
      ensures |times| == |order|
      ensures forall i :: 0 <= i < |times| ==> times[i] == segmentTimes[order[i]]
      ensures forall i :: 0 <= i < |times| ==> times[i].segmentIndex == order[i]
      ensures forall k :: k in segmentTimes <==> exists i :: 0 <= i < |times| && times[i].segmentIndex == k
      ensures forall i, j :: 0 <= i < j < |times| ==> times[i].segmentIndex != times[j].segmentIndex
    {
      times := [];
      var n := 0;
      while n < |order|
        invariant 0 <= n <= |order|
        invariant |times| == n
        invariant forall i :: 0 <= i < n ==> times[i] == segmentTimes[order[i]]
      {
        times := times + [segmentTimes[order[n]]];
        n := n + 1;
      }
      assert forall i :: 0 <= i < |times| ==> times[i].segmentIndex == order[i];
    }
  }

  /** Feeding one observation to an entry moves its average a tenth of the
      way toward the observation. */
  lemma ObserveMovesAverage(s: SegmentTime, actualTime: real)
    ensures Observe(s, actualTime).averageTime - s.averageTime == (actualTime - s.averageTime) / 10.0
    ensures actualTime == s.averageTime ==> Observe(s, actualTime).averageTime == s.averageTime
  {
  }
}

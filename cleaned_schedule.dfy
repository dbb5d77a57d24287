/** The cleaned per-segment schedule of the `Main` line and its processor
    (src/shared/CleanedScheduleSimple.ts). Segment indices are 1-based;
    times are seconds. */
module CleanedSchedule {

  /** `CleanedScheduleSimple.Main`: cleaned travel time of each segment. */
  const Main: map<int, real> := map[1 := 14.0, 2 := 13.0, 3 := 9.0, 4 := 10.0]

  /** Time used for a segment the table does not list. */
  const DefaultSegmentTime: real := 10.0

  datatype Schedule = Schedule(trainId: string, segments: map<int, real>, totalTime: real, isValid: bool)

  /** Sum of the table's times over segments `lo .. hi - 1` (0 for a
      missing segment). */
  function SumTimes(table: map<int, real>, lo: int, hi: int): real
    decreases hi - lo
  {
    if hi <= lo then 0.0
    else (if lo in table then table[lo] else 0.0) + SumTimes(table, lo + 1, hi)
  }

  /** `CleanedScheduleProcessor.processRawSchedule`: the raw input is
      ignored; the result is always the `Main` table, valid, with the
      total reported as 46 seconds. */
  function ProcessRawSchedule<T>(rawData: T): (r: Schedule)
    ensures r.trainId == "default" && r.isValid
    ensures r.segments == Main
    ensures r.totalTime == SumTimes(Main, 1, 5)
    ensures forall k :: k in r.segments <==> 1 <= k <= 4
  {
    Schedule("default", Main, 46.0, true)
  }

  /** `CleanedScheduleProcessor.getSegmentTime`. */
  function GetSegmentTime(segmentIndex: int): (r: real)
    ensures segmentIndex in Main ==> r == Main[segmentIndex]
    ensures segmentIndex !in Main ==> r == DefaultSegmentTime
    ensures r > 0.0
  {
    if segmentIndex in Main then Main[segmentIndex] else DefaultSegmentTime
  }

  /** The processor's answer does not depend on its input. */
  lemma ProcessRawScheduleIgnoresInput<T>(a: T, b: T)
    ensures ProcessRawSchedule(a) == ProcessRawSchedule(b)
  {
  }

  /** The table's lookup agrees with the processed schedule's segments
      wherever the table has an entry, and the table lists exactly
      segments 1 to 4. */
  lemma MainTable()
    ensures Main.Keys == {1, 2, 3, 4}
    ensures GetSegmentTime(1) == 14.0 && GetSegmentTime(2) == 13.0
    ensures GetSegmentTime(3) == 9.0 && GetSegmentTime(4) == 10.0
    ensures GetSegmentTime(5) == DefaultSegmentTime && GetSegmentTime(0) == DefaultSegmentTime
  {
  }
}

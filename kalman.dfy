/** The one-dimensional Kalman filter that smooths positions along the line
    (src/shared/KalmanSimple.ts). The filter record is updated in place by
    `KalmanSimple.update`, so it is a class here. Clock readings (`tick()`)
    are passed in as `now`. */
module Kalman {

  /** Initial (and first-measurement) variance. */
  const InitialVariance: real := 1000000.0

  /** Measurement-noise variance `R` of `KalmanSimple.update`. */
  const MeasurementNoise: real := 5.0

  /** The gain `K = P / (P + R)` lies strictly between 0 and 1 when P > 0. */
  function Gain(p: real): (k: real)
    requires p > 0.0
    ensures 0.0 < k < 1.0
    ensures k * (p + MeasurementNoise) == p
  {
    p / (p + MeasurementNoise)
  }

  /** A fraction strictly between 0 and 1 of a positive quantity is
      positive and smaller than it. */
  lemma FractionShrinks(f: real, q: real)
    requires 0.0 < f < 1.0 && q > 0.0
    ensures 0.0 < f * q < q
  {
  }

  /** A fraction strictly between 0 and 1 of a difference lies between 0
      and that difference. */
  lemma FractionOfDifference(f: real, d: real)
    requires 0.0 < f < 1.0
    ensures d >= 0.0 ==> 0.0 <= f * d <= d
    ensures d <= 0.0 ==> d <= f * d <= 0.0
  {
  }

  /** The contents of a filter record: estimate, variance and whether a
      measurement has been taken. */
  datatype FilterState = FilterState(x: real, p: real, initialized: bool)

  /** A variance in (0, 1e6], the range every filter keeps. */
  predicate VarianceOk(p: real) {
    0.0 < p <= InitialVariance
  }

  /** `KalmanSimple.update` on a record's contents. The first measurement
      is taken verbatim with variance 1e6; afterwards the standard update
      with gain `P / (P + 5)` moves the estimate toward the measurement,
      never past it, and strictly shrinks the variance. */
  function Step(s: FilterState, m: real): (r: FilterState)
    requires VarianceOk(s.p)
    ensures r.initialized && VarianceOk(r.p)
    ensures !s.initialized ==> r.x == m && r.p == InitialVariance
    ensures s.initialized ==> 0.0 < r.p < s.p
    ensures s.initialized && s.x <= m ==> s.x <= r.x <= m
    ensures s.initialized && m <= s.x ==> m <= r.x <= s.x
  {
    if !s.initialized then
      FilterState(m, InitialVariance, true)
    else
      var k := Gain(s.p);
      var innovation := m - s.x;
      var step := k * innovation;
      FractionOfDifference(k, innovation);
      FractionShrinks(1.0 - k, s.p);
      FilterState(s.x + step, (1.0 - k) * s.p, true)
  }

  /** The confidence `1 - P/1e6` of a prediction: 0 at the initial
      variance, rising toward 1 as the variance shrinks. */
  function Confidence(p: real): (c: real)
    requires VarianceOk(p)
    ensures 0.0 <= c < 1.0
    ensures c == 0.0 <==> p == InitialVariance
  {
    1.0 - p / InitialVariance
  }

  /** Every measurement after the first strictly raises the confidence;
      the first one leaves it at 0. */
  lemma ConfidenceRises(s: FilterState, m: real)
    requires VarianceOk(s.p)
    ensures s.initialized ==> Confidence(Step(s, m).p) > Confidence(s.p)
    ensures !s.initialized ==> Confidence(Step(s, m).p) == 0.0
  {
  }

  /** `SimpleKalmanFilter`: estimate `x`, variance `P`, and whether a
      measurement has been taken. */
  class SimpleKalmanFilter {
    var x: real
    var p: real
    var initialized: bool

    /** The variance stays in (0, 1e6]; every update keeps it so. */
    predicate Valid()
      reads this
    {
      VarianceOk(p)
    }

    /** The record's contents as a value. */
    function State(): FilterState
      reads this
    {
      FilterState(x, p, initialized)
    }

    /** `KalmanSimple.create`: x = 0, P = 1e6, not initialised. */
    constructor Create()
      ensures x == 0.0 && p == InitialVariance && !initialized
      ensures Valid()
    {
      x := 0.0;
      p := InitialVariance;
      initialized := false;
    }

    /** `KalmanSimple.update`. The first measurement is taken verbatim and
        the variance stays at 1e6; afterwards the standard update with gain
        `P / (P + 5)` moves the estimate toward the measurement and strictly
        shrinks the variance, which stays positive. */
    method Update(measurement: real) returns (estimate: real)
      requires Valid()
      modifies this
      ensures Valid() && initialized
      ensures estimate == x
      ensures State() == Step(old(State()), measurement)
      ensures !old(initialized) ==> x == measurement && p == InitialVariance
      ensures old(initialized) ==>
        x == old(x) + Gain(old(p)) * (measurement - old(x)) &&
        p == (1.0 - Gain(old(p))) * old(p)
      ensures old(initialized) ==> 0.0 < p < old(p)
      ensures old(initialized) && old(x) <= measurement ==> old(x) <= x <= measurement
      ensures old(initialized) && measurement <= old(x) ==> measurement <= x <= old(x)
    {
      if !initialized {
        x := measurement;
        p := InitialVariance;
        initialized := true;
        return measurement;
      }
      var k := Gain(p);
      var innovation := measurement - x;
      var step := k * innovation;
      FractionOfDifference(k, innovation);
      var keep := 1.0 - k;
      var p0 := p;
      var p1 := keep * p0;
      FractionShrinks(keep, p0);
      x := x + step;
      p := p1;
      return x;
    }
  }

  /** `KalmanPrediction`. */
  datatype Prediction = Prediction(predictedPosition: real, predictedVelocity: real, confidence: real)

  /** `TrainKalmanFilter`: a filter plus the last reported position, time and
      velocity. */
  class TrainKalmanFilter {
    const filter: SimpleKalmanFilter
    var lastPosition: real
    var lastTime: real
    var velocity: real

    predicate Valid()
      reads this, filter
    {
      filter.Valid()
    }

    /** The noise parameters are accepted and ignored, as in the source. */
    constructor(initialPosition: real, processNoise: real, measurementNoise: real, now: real)
      ensures Valid() && fresh(filter)
      ensures filter.x == 0.0 && filter.p == InitialVariance && !filter.initialized
      ensures lastPosition == initialPosition && lastTime == now && velocity == 0.0
    {
      filter := new SimpleKalmanFilter.Create();
      lastPosition := initialPosition;
      lastTime := now;
      velocity := 0.0;
    }

    /** Feeds the position to the inner filter and records position,
        velocity and time. */
    method Update(position: real, newVelocity: real, now: real)
      requires Valid()
      modifies this, filter
      ensures Valid() && filter.initialized
      ensures filter.State() == Step(old(filter.State()), position)
      ensures !old(filter.initialized) ==> filter.x == position && Predict(0.0).confidence == 0.0
      ensures old(filter.initialized) ==> 0.0 < filter.p < old(filter.p)
      ensures old(filter.initialized) ==> Predict(0.0).confidence > old(Predict(0.0).confidence)
      ensures lastPosition == position && velocity == newVelocity && lastTime == now
    {
      ghost var s0 := filter.State();
      var _ := filter.Update(position);
      ConfidenceRises(s0, position);
      lastPosition := position;
      velocity := newVelocity;
      lastTime := now;
    }

    /** Dead reckoning from the filtered position: `x + v·ms/1000`, with a
        confidence `1 - P/1e6` that lies in [0, 1). */
    function Predict(deltaTimeMs: real): (r: Prediction)
      requires Valid()
      reads this, filter
      ensures r.predictedPosition == GetPosition() + GetVelocity() * (deltaTimeMs / 1000.0)
      ensures r.predictedVelocity == GetVelocity()
      ensures r.confidence == Confidence(filter.p)
      ensures deltaTimeMs == 0.0 ==> r.predictedPosition == filter.x
      ensures 0.0 <= r.confidence < 1.0
      ensures r.confidence == 0.0 <==> filter.p == InitialVariance
    {
      var deltaTime := deltaTimeMs / 1000.0;
      Prediction(filter.x + velocity * deltaTime, velocity, Confidence(filter.p))
    }

    function GetPosition(): (r: real)
      reads this, filter
      ensures r == filter.x
    {
      filter.x
    }

    function GetVelocity(): (r: real)
      reads this
      ensures r == velocity
    {
      velocity
    }
  }
}

/**
 * TrafficAgent.analyze_traffic: travel times in minutes become a traffic tier,
 * a penalty, a traffic-adjusted travel time and a 0-1 travel score.
 */
module TrafficAgent {
  import opened Wrappers
  import opened Places
  import opened Rounding

  /** The penalty that goes with each tier. */
  function PenaltyOf(level: Level): real {
    match level
    case Low => 0.0
    case Medium => 0.2
    case High => 0.4
  }

  datatype TrafficReport = TrafficReport(
    trafficLevel: Level,
    trafficPenalty: real,
    effectiveTravelTime: Option<int>,
    travelScore: Option<real>)

  /** The Python default of `max_acceptable_time`. */
  const DefaultMaxAcceptableTime := 30

  /** Tier from the congestion ratio `travelTime / baseTime`. */
  function RatioLevel(ratio: real): Level {
    if ratio < 1.3 then Low else if ratio < 1.7 then Medium else High
  }

  /** Tier from the absolute travel time, used when no traffic-free time is known. */
  function AbsoluteLevel(travelTime: int): Level {
    if travelTime <= 10 then Low else if travelTime <= 20 then Medium else High
  }

  /** The severity branch: ratio tiers when both times are truthy, absolute tiers when only the travel time is. */
  function Severity(travelTime: Option<int>, baseTime: Option<int>): Level {
    if TruthyInt(baseTime) && TruthyInt(travelTime) then
      RatioLevel(travelTime.value as real / baseTime.value as real)
    else if TruthyInt(travelTime) then
      AbsoluteLevel(travelTime.value)
    else
      Low
  }

  /** Python `int(x)` on a real: truncation toward zero. */
  function Truncate(x: real): (n: int)
    ensures x >= 0.0 ==> n == x.Floor
    ensures x >= 0.0 ==> n as real <= x < n as real + 1.0
    ensures x < 0.0 ==> n as real - 1.0 < x <= n as real
  {
    if x >= 0.0 then x.Floor else -((-x).Floor)
  }

  /** `max(0, 1 - effective / maxAcceptable)`, rounded to two decimals. */
  function TravelScore(effective: int, maxAcceptable: int): (s: real)
    requires maxAcceptable != 0
    ensures effective >= 0 && maxAcceptable > 0 ==> 0.0 <= s <= 1.0
    ensures var raw := 1.0 - effective as real / maxAcceptable as real;
            var c := if raw > 0.0 then raw else 0.0;
            c - 0.005 <= s <= c + 0.005
  {
    var raw := 1.0 - effective as real / maxAcceptable as real;
    Round2(if raw > 0.0 then raw else 0.0)
  }

  /** `analyze_traffic(place, max_acceptable_time)`. */
  function AnalyzeTraffic(place: Place, maxAcceptableTime: int): (r: TrafficReport)
    requires place.travelTime.Some? ==> maxAcceptableTime != 0
    ensures r.trafficPenalty == PenaltyOf(r.trafficLevel)
    ensures r.effectiveTravelTime.Some? <==> place.travelTime.Some?
    ensures r.travelScore.Some? <==> place.travelTime.Some?
    ensures r.travelScore.Some? ==> r.travelScore.value == TravelScore(r.effectiveTravelTime.value, maxAcceptableTime)
  {
    var level := Severity(place.travelTime, place.travelTimeNoTraffic);
    var penalty := PenaltyOf(level);
    var effective :=
      if TruthyInt(place.travelTime) then
        Some(Truncate(place.travelTime.value as real * (1.0 + penalty)))
      else place.travelTime;
    var score :=
      if effective.Some? then Some(TravelScore(effective.value, maxAcceptableTime)) else None;
    TrafficReport(level, penalty, effective, score)
  }

  // ---------------------------------------------------------------
  // Properties
  // ---------------------------------------------------------------

  /** With both times present and nonzero, the ratio decides; 1.3 and 1.7 fall into the higher tier. */
  lemma RatioTiers(place: Place, maxAcceptableTime: int)
    requires TruthyInt(place.travelTime) && TruthyInt(place.travelTimeNoTraffic)
    requires maxAcceptableTime != 0
    ensures var ratio := place.travelTime.value as real / place.travelTimeNoTraffic.value as real;
      var r := AnalyzeTraffic(place, maxAcceptableTime);
      && (ratio < 1.3 ==> r.trafficLevel == Low && r.trafficPenalty == 0.0)
      && (1.3 <= ratio < 1.7 ==> r.trafficLevel == Medium && r.trafficPenalty == 0.2)
      && (1.7 <= ratio ==> r.trafficLevel == High && r.trafficPenalty == 0.4)
  {
  }

  /** For a positive traffic-free time the ratio tests are integer comparisons. */
  lemma RatioTestsInIntegers(travelTime: int, baseTime: int)
    requires baseTime > 0
    ensures var ratio := travelTime as real / baseTime as real;
      && (ratio < 1.3 <==> 10 * travelTime < 13 * baseTime)
      && (ratio < 1.7 <==> 10 * travelTime < 17 * baseTime)
  {
    DivBelow(travelTime as real, baseTime as real, 1.3);
    DivBelow(travelTime as real, baseTime as real, 1.7);
  }

  lemma DivBelow(x: real, b: real, c: real)
    requires b > 0.0
    ensures x / b < c <==> x < c * b
  {
    assert (x / b) * b == x;
    if x / b < c {
      assert (x / b) * b < c * b;
    } else {
      assert (x / b) * b >= c * b;
    }
  }

  /** With only the travel time (no or zero base time), tiers follow absolute minutes. */
  lemma AbsoluteTiers(place: Place, maxAcceptableTime: int)
    requires TruthyInt(place.travelTime) && !TruthyInt(place.travelTimeNoTraffic)
    requires maxAcceptableTime != 0
    ensures var t := place.travelTime.value;
      var r := AnalyzeTraffic(place, maxAcceptableTime);
      && (t <= 10 ==> r.trafficLevel == Low && r.trafficPenalty == 0.0)
      && (10 < t <= 20 ==> r.trafficLevel == Medium && r.trafficPenalty == 0.2)
      && (20 < t ==> r.trafficLevel == High && r.trafficPenalty == 0.4)
  {
  }

  /** Without a travel time nothing is computed: tier low, no penalty, no times, no score. */
  lemma NoTravelTime(place: Place, maxAcceptableTime: int)
    requires place.travelTime.None?
    ensures AnalyzeTraffic(place, maxAcceptableTime)
         == TrafficReport(Low, 0.0, None, None)
  {
  }

  /** The effective time is the travel time scaled by the penalty and floored: never shorter. */
  lemma EffectiveTime(place: Place, maxAcceptableTime: int)
    requires place.travelTime.Some? && place.travelTime.value >= 0
    requires maxAcceptableTime != 0
    ensures var t := place.travelTime.value;
      var r := AnalyzeTraffic(place, maxAcceptableTime);
      && r.effectiveTravelTime == Some((t as real * (1.0 + r.trafficPenalty)).Floor)
      && r.effectiveTravelTime.value >= t
      && (r.trafficPenalty == 0.0 ==> r.effectiveTravelTime == Some(t))
  {
    var t := place.travelTime.value;
    var p := PenaltyOf(Severity(place.travelTime, place.travelTimeNoTraffic));
    var x := t as real * (1.0 + p);
    assert x >= t as real;
    var n := Truncate(x);
    assert n == x.Floor && n as real <= x < n as real + 1.0;
    assert n >= t;
    assert AnalyzeTraffic(place, maxAcceptableTime).effectiveTravelTime == Some(n) by {
      if t == 0 {
        assert x == 0.0;
      }
    }
  }

  /** The travel score never rises as the effective time grows. */
  lemma TravelScoreNonIncreasing(e1: int, e2: int, maxAcceptable: int)
    requires e1 <= e2 && maxAcceptable > 0
    ensures TravelScore(e2, maxAcceptable) <= TravelScore(e1, maxAcceptable)
  {
    var r1 := 1.0 - e1 as real / maxAcceptable as real;
    var r2 := 1.0 - e2 as real / maxAcceptable as real;
    assert e1 as real / maxAcceptable as real <= e2 as real / maxAcceptable as real;
    Round2Monotone(if r2 > 0.0 then r2 else 0.0, if r1 > 0.0 then r1 else 0.0);
  }

  /** From the acceptable limit on the score is exactly zero. */
  lemma TravelScoreZeroBeyondLimit(effective: int, maxAcceptable: int)
    requires maxAcceptable > 0 && effective >= maxAcceptable
    ensures TravelScore(effective, maxAcceptable) == 0.0
  {
    assert effective as real / maxAcceptable as real >= 1.0;
    Round2OfHundredths(0);
  }

  /** A present travel time gives a score in [0, 1], zero once the effective time reaches the limit. */
  lemma ReportScoreBounds(place: Place, maxAcceptableTime: int)
    requires place.travelTime.Some? && place.travelTime.value >= 0
    requires maxAcceptableTime > 0
    ensures var r := AnalyzeTraffic(place, maxAcceptableTime);
      && 0.0 <= r.travelScore.value <= 1.0
      && (r.effectiveTravelTime.value >= maxAcceptableTime ==> r.travelScore.value == 0.0)
  {
    EffectiveTime(place, maxAcceptableTime);
    var r := AnalyzeTraffic(place, maxAcceptableTime);
    if r.effectiveTravelTime.value >= maxAcceptableTime {
      TravelScoreZeroBeyondLimit(r.effectiveTravelTime.value, maxAcceptableTime);
    }
  }

  /** A zero travel time skips the penalty: effective time 0 and score 1. */
  lemma ZeroTravelTime(place: Place, maxAcceptableTime: int)
    requires place.travelTime == Some(0) && maxAcceptableTime != 0
    ensures AnalyzeTraffic(place, maxAcceptableTime) == TrafficReport(Low, 0.0, Some(0), Some(1.0))
  {
    Round2OfHundredths(100);
  }
}

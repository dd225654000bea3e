/**
 * PopularityAgent.estimate_crowd: up to three additive crowd signals, clamped
 * at 1, tiered into low / medium / high.
 */
module PopularityAgent {
  import opened Wrappers
  import opened Places
  import opened Rounding

  datatype CrowdEstimate = CrowdEstimate(crowdLevel: Level, confidence: real)

  /** Popular-times signal: the 0-100 figure scaled to 0-1, when present. */
  function PopularSignal(popularTimes: Option<real>): (s: real)
    ensures popularTimes.None? ==> s == 0.0
    ensures popularTimes.Some? ==> 100.0 * s == popularTimes.value
  {
    if popularTimes.Some? then popularTimes.value / 100.0 else 0.0
  }

  /** Review-density signal, added only for a truthy review count. */
  function ReviewSignal(ratingCount: Option<int>): (s: real)
    ensures s in {0.0, 0.1, 0.2, 0.4}
    ensures s == 0.0 <==> !TruthyInt(ratingCount)
  {
    if TruthyInt(ratingCount) then
      if ratingCount.value > 2000 then 0.4
      else if ratingCount.value > 500 then 0.2
      else 0.1
    else 0.0
  }

  /** Time-of-day signal: lunch rush 12-14, evening rush 18-21, any other hour 0.1. */
  function TimeSignal(timeOfDay: Option<int>): (s: real)
    ensures s in {0.0, 0.1, 0.3, 0.4}
    ensures s == 0.0 <==> timeOfDay.None?
  {
    match timeOfDay
    case None => 0.0
    case Some(h) =>
      if 12 <= h <= 14 then 0.3
      else if 18 <= h <= 21 then 0.4
      else 0.1
  }

  /** The accumulated score before clamping. */
  function RawCrowdScore(place: Place, timeOfDay: Option<int>): real {
    PopularSignal(place.popularTimes) + ReviewSignal(place.userRatingsTotal) + TimeSignal(timeOfDay)
  }

  /** `min(score, 1.0)`. */
  function Clamp(score: real): (c: real)
    ensures c <= 1.0 && c <= score
    ensures c == score || c == 1.0
  {
    if score < 1.0 then score else 1.0
  }

  /** The tier of a (clamped) score. */
  function CrowdTier(score: real): (level: Level)
    ensures level == Low <==> score < 0.4
    ensures level == High <==> score >= 0.7
  {
    if score < 0.4 then Low else if score < 0.7 then Medium else High
  }

  /** `estimate_crowd(place, time_of_day)`. */
  function EstimateCrowd(place: Place, timeOfDay: Option<int>): (r: CrowdEstimate)
    ensures r.confidence <= 1.0
    ensures (place.popularTimes.None? || place.popularTimes.value >= 0.0) ==> r.confidence >= 0.0
    ensures r.crowdLevel == CrowdTier(Clamp(RawCrowdScore(place, timeOfDay)))
    ensures var c := Clamp(RawCrowdScore(place, timeOfDay));
            c - 0.005 <= r.confidence <= c + 0.005
  {
    var score := Clamp(RawCrowdScore(place, timeOfDay));
    Round2Monotone(score, 1.0);
    Round2OfHundredths(100);
    CrowdEstimate(CrowdTier(score), Round2(score))
  }

  // ---------------------------------------------------------------
  // Properties
  // ---------------------------------------------------------------

  /** With no signal at all the place is quiet, with confidence 0. */
  lemma NoSignals(place: Place)
    requires place.popularTimes.None? && !TruthyInt(place.userRatingsTotal)
    ensures EstimateCrowd(place, None) == CrowdEstimate(Low, 0.0)
  {
    Round2OfHundredths(0);
  }

  /** The review signal by review count. */
  lemma ReviewSignalValues(n: int)
    ensures ReviewSignal(None) == 0.0 && ReviewSignal(Some(0)) == 0.0
    ensures n > 2000 ==> ReviewSignal(Some(n)) == 0.4
    ensures 500 < n <= 2000 ==> ReviewSignal(Some(n)) == 0.2
    ensures n <= 500 && n != 0 ==> ReviewSignal(Some(n)) == 0.1
  {
  }

  /** The time signal by hour; both window ends are inside the window, and hour 0 is just "other". */
  lemma TimeSignalValues(h: int)
    ensures 12 <= h <= 14 ==> TimeSignal(Some(h)) == 0.3
    ensures 18 <= h <= 21 ==> TimeSignal(Some(h)) == 0.4
    ensures !(12 <= h <= 14) && !(18 <= h <= 21) ==> TimeSignal(Some(h)) == 0.1
    ensures TimeSignal(Some(0)) == 0.1
  {
  }

  /** A higher raw score never gives a lower tier or a lower confidence. */
  lemma EstimateMonotone(p: Place, t1: Option<int>, q: Place, t2: Option<int>)
    requires RawCrowdScore(p, t1) <= RawCrowdScore(q, t2)
    ensures EstimateCrowd(p, t1).crowdLevel.Rank() <= EstimateCrowd(q, t2).crowdLevel.Rank()
    ensures EstimateCrowd(p, t1).confidence <= EstimateCrowd(q, t2).confidence
  {
    Round2Monotone(Clamp(RawCrowdScore(p, t1)), Clamp(RawCrowdScore(q, t2)));
  }

  /** Supplying a time of day never lowers the tier. */
  lemma AddingTimeNeverLowers(place: Place, h: int)
    ensures EstimateCrowd(place, None).crowdLevel.Rank() <= EstimateCrowd(place, Some(h)).crowdLevel.Rank()
  {
    EstimateMonotone(place, None, place, Some(h));
  }

  /** Supplying a review count never lowers the tier. */
  lemma AddingReviewsNeverLowers(place: Place, timeOfDay: Option<int>, n: int)
    requires place.userRatingsTotal.None?
    ensures EstimateCrowd(place, timeOfDay).crowdLevel.Rank()
         <= EstimateCrowd(place.(userRatingsTotal := Some(n)), timeOfDay).crowdLevel.Rank()
  {
    EstimateMonotone(place, timeOfDay, place.(userRatingsTotal := Some(n)), timeOfDay);
  }

  /** Supplying a non-negative popular-times figure never lowers the tier. */
  lemma AddingPopularTimesNeverLowers(place: Place, timeOfDay: Option<int>, p: real)
    requires place.popularTimes.None? && p >= 0.0
    ensures EstimateCrowd(place, timeOfDay).crowdLevel.Rank()
         <= EstimateCrowd(place.(popularTimes := Some(p)), timeOfDay).crowdLevel.Rank()
  {
    EstimateMonotone(place, timeOfDay, place.(popularTimes := Some(p)), timeOfDay);
  }
}

/**
 * PlannerAgent.create_plan: mood, budget and an optional time become search
 * categories, a radius, an ordered priority list and a booking flag.
 */
module PlannerAgent {
  import opened Wrappers
  import opened Text
  import opened Places

  datatype Plan = Plan(
    placeTypes: seq<string>,
    radiusKm: real,
    priorities: seq<string>,
    bookingLikely: bool)

  const WorkTypes: seq<string> := ["cafe", "coworking_space", "library"]
  const DateTypes: seq<string> := ["restaurant", "cafe"]
  const QuickBiteTypes: seq<string> := ["fast_food", "cafe"]
  const FallbackTypes: seq<string> := ["restaurant", "cafe"]

  /** The plan picked by the (already lower-cased) mood, before budget and time adjust it. */
  function MoodPlan(mood: string): (p: Plan)
    ensures p.placeTypes in {WorkTypes, DateTypes, QuickBiteTypes, FallbackTypes}
    ensures p.radiusKm > 0.0
  {
    if mood == "work" then
      Plan(WorkTypes, 2.0, ["quiet", "wifi", "distance"], false)
    else if mood == "date" then
      Plan(DateTypes, 3.0, ["ambience", "rating", "distance"], true)
    else if mood == "quick bite" then
      Plan(QuickBiteTypes, 1.5, ["speed", "distance", "price"], false)
    else
      Plan(FallbackTypes, 2.0, ["rating", "distance"], true)
  }

  /** The budget adjustment (for an already lower-cased budget). */
  function BudgetPriorities(budget: string): (ps: seq<string>)
    ensures |ps| <= 1
  {
    if budget == "low" then ["price"] else if budget == "high" then ["rating"] else []
  }

  /** The time adjustment: "open_now" for a truthy time. */
  function TimePriorities(time: Option<string>): (ps: seq<string>)
    ensures ps == [] || ps == ["open_now"]
  {
    if TruthyStr(time) then ["open_now"] else []
  }

  /** `create_plan(mood, budget, time)`. */
  function CreatePlan(mood: string, budget: string, time: Option<string>): (p: Plan)
    ensures p.placeTypes in {WorkTypes, DateTypes, QuickBiteTypes, FallbackTypes}
    ensures |p.placeTypes| > 0 && p.radiusKm > 0.0
  {
    var base := MoodPlan(Lower(mood));
    base.(priorities := base.priorities + BudgetPriorities(Lower(budget)) + TimePriorities(time))
  }

  // ---------------------------------------------------------------
  // Properties
  // ---------------------------------------------------------------

  /** Mood and budget are matched case-insensitively. */
  lemma CaseInsensitive(mood: string, budget: string, time: Option<string>)
    ensures CreatePlan(mood, budget, time) == CreatePlan(Lower(mood), Lower(budget), time)
  {
    LowerIdempotent(mood);
    LowerIdempotent(budget);
  }

  /** "Date" plans exactly as "date" does. */
  lemma DateIsDate(budget: string, time: Option<string>)
    ensures CreatePlan("Date", budget, time) == CreatePlan("date", budget, time)
  {
    assert Lower("Date") == "date";
  }

  /** The mood alone gives the radius: work 2.0, date 3.0, quick bite 1.5, anything else 2.0. */
  lemma RadiusByMood(mood: string, budget: string, time: Option<string>)
    ensures var r := CreatePlan(mood, budget, time).radiusKm;
      var m := Lower(mood);
      && (m == "work" ==> r == 2.0)
      && (m == "date" ==> r == 3.0)
      && (m == "quick bite" ==> r == 1.5)
      && (m !in {"work", "date", "quick bite"} ==> r == 2.0)
  {
  }

  /** Booking is likely exactly for a date and for the fallback. */
  lemma BookingLikelyIff(mood: string, budget: string, time: Option<string>)
    ensures CreatePlan(mood, budget, time).bookingLikely
        <==> Lower(mood) !in {"work", "quick bite"}
  {
  }

  /** An unknown mood gives restaurant and cafe within 2 km, with booking likely. */
  lemma UnknownMood(mood: string, budget: string, time: Option<string>)
    requires Lower(mood) !in {"work", "date", "quick bite"}
    ensures var p := CreatePlan(mood, budget, time);
      p.placeTypes == ["restaurant", "cafe"] && p.radiusKm == 2.0 && p.bookingLikely
  {
  }

  /** Budget and time never change the categories, the radius or the booking flag. */
  lemma OnlyMoodDecidesSearch(mood: string, b1: string, t1: Option<string>, b2: string, t2: Option<string>)
    ensures var p, q := CreatePlan(mood, b1, t1), CreatePlan(mood, b2, t2);
      p.placeTypes == q.placeTypes && p.radiusKm == q.radiusKm && p.bookingLikely == q.bookingLikely
  {
  }

  /**
   * Priorities come in three parts: the mood's own list, then "price" for a low
   * budget or "rating" for a high one, then "open_now" exactly when a time is given.
   */
  lemma PrioritiesInThreeParts(mood: string, budget: string, time: Option<string>)
    ensures var ps := CreatePlan(mood, budget, time).priorities;
      var base := MoodPlan(Lower(mood)).priorities;
      var b := Lower(budget);
      && ps[..|base|] == base
      && |ps| == |base| + (if b in {"low", "high"} then 1 else 0) + (if TruthyStr(time) then 1 else 0)
      && (b == "low" ==> ps[|base|] == "price")
      && (b == "high" ==> ps[|base|] == "rating")
      && (TruthyStr(time) <==> "open_now" in ps)
      && (TruthyStr(time) ==> ps[|ps| - 1] == "open_now")
  {
    var ps := CreatePlan(mood, budget, time).priorities;
    var base := MoodPlan(Lower(mood)).priorities;
    assert "open_now" !in base;
    assert ps == base + BudgetPriorities(Lower(budget)) + TimePriorities(time);
    assert "open_now" !in BudgetPriorities(Lower(budget));
  }

  /** Duplicates are kept: a date on a high budget lists "rating" twice, whatever the letter case. */
  lemma DateHighKeepsDuplicate(mood: string, budget: string, time: Option<string>)
    requires Lower(mood) == "date" && Lower(budget) == "high" && !TruthyStr(time)
    ensures CreatePlan(mood, budget, time).priorities == ["ambience", "rating", "distance", "rating"]
  {
    var base := MoodPlan("date").priorities;
    assert base == ["ambience", "rating", "distance"];
    assert BudgetPriorities("high") == ["rating"];
    assert TimePriorities(time) == [];
    assert CreatePlan(mood, budget, time).priorities == base + ["rating"] + [];
  }

  /** Duplicates are kept: a quick bite on a low budget lists "price" twice, whatever the letter case. */
  lemma QuickBiteLowKeepsDuplicate(mood: string, budget: string, time: Option<string>)
    requires Lower(mood) == "quick bite" && Lower(budget) == "low" && !TruthyStr(time)
    ensures CreatePlan(mood, budget, time).priorities == ["speed", "distance", "price", "price"]
  {
    assert "quick bite" != "work" && "quick bite" != "date";
    var base := MoodPlan("quick bite").priorities;
    assert base == ["speed", "distance", "price"];
    assert BudgetPriorities("low") == ["price"];
    assert TimePriorities(time) == [];
    assert CreatePlan(mood, budget, time).priorities == base + ["price"] + [];
  }
}

/**
 * The venue record that the agents pass to one another. In the source it is a
 * free-form dictionary; here every key an agent reads is an optional slot,
 * `None` standing for a missing key and for a key that holds `None` alike.
 */
module Places {
  import opened Wrappers

  /** A traffic or crowd tier. */
  datatype Level = Low | Medium | High {

    /** The string the agents store under "traffic_level" / "crowd_level". */
    function Name(): (s: string)
      ensures s in {"low", "medium", "high"}
    {
      match this
      case Low => "low"
      case Medium => "medium"
      case High => "high"
    }

    /** Low < Medium < High. */
    function Rank(): (k: nat)
      ensures k < 3
    {
      match this
      case Low => 0
      case Medium => 1
      case High => 2
    }
  }

  datatype Place = Place(
    name: Option<string>,
    address: Option<string>,
    placeId: Option<string>,
    rating: Option<real>,                // "rating", 0-5
    userRatingsTotal: Option<int>,       // "user_ratings_total"
    popularTimes: Option<real>,          // "popular_times", 0-100
    travelTime: Option<int>,             // "travel_time", minutes with traffic
    travelTimeNoTraffic: Option<int>,    // "travel_time_no_traffic", minutes
    crowdLevel: Option<string>,          // "crowd_level"
    budgetMatch: bool,                   // truthiness of "budget_match"
    moodMatch: Option<string>            // "mood_match"
  ) {

    /** Python's truthiness of the dictionary: it has at least one key. */
    predicate NonEmpty() {
      name.Some? || address.Some? || placeId.Some? || rating.Some? || userRatingsTotal.Some?
      || popularTimes.Some? || travelTime.Some? || travelTimeNoTraffic.Some? || crowdLevel.Some?
      || budgetMatch || moodMatch.Some?
    }
  }

  // Python truthiness of optional values: `None`, `0` and `""` are false.

  predicate TruthyInt(o: Option<int>) { o.Some? && o.value != 0 }

  predicate TruthyReal(o: Option<real>) { o.Some? && o.value != 0.0 }

  predicate TruthyStr(o: Option<string>) { o.Some? && o.value != "" }
}

/**
 * ScoringAgent: a fixed-weight score per place, and ranking, which writes the
 * score into every place and returns a stable descending sort of them.
 */
module ScoringAgent {
  import opened Wrappers
  import opened Places
  import opened Rounding

  // ---------------------------------------------------------------
  // score_place
  // ---------------------------------------------------------------

  /** Rating term: rating/5 weighted 0.30, when a rating is present (0 counts). */
  function RatingTerm(rating: Option<real>): real {
    if rating.Some? then (rating.value / 5.0) * 0.30 else 0.0
  }

  /** Travel term: `max(0, 1 - t/30)` weighted 0.30, when a travel time is present. */
  function TravelTerm(travelTime: Option<int>): real {
    if travelTime.Some? then
      var closeness := 1.0 - travelTime.value as real / 30.0;
      (if closeness > 0.0 then closeness else 0.0) * 0.30
    else 0.0
  }

  /** Crowd term: low 0.15, medium 0.08, high 0.02, anything else 0. */
  function CrowdTerm(crowd: Option<string>): real {
    if crowd == Some("low") then 0.15
    else if crowd == Some("medium") then 0.08
    else if crowd == Some("high") then 0.02
    else 0.0
  }

  function BudgetTerm(budgetMatch: bool): real {
    if budgetMatch then 0.15 else 0.0
  }

  function MoodTerm(moodMatch: Option<string>): real {
    if TruthyStr(moodMatch) then 0.10 else 0.0
  }

  /** The weighted sum before rounding. */
  function RawScore(place: Place): real {
    RatingTerm(place.rating) + TravelTerm(place.travelTime) + CrowdTerm(place.crowdLevel)
    + BudgetTerm(place.budgetMatch) + MoodTerm(place.moodMatch)
  }

  /** `score_place(place)`: the weighted sum rounded to two decimals. */
  function ScorePlace(place: Place): (s: real)
    ensures RawScore(place) - 0.005 <= s <= RawScore(place) + 0.005
  {
    Round2(RawScore(place))
  }

  /** With a rating in [0, 5] and a non-negative travel time the score is in [0, 1]. */
  lemma ScoreInUnitInterval(place: Place)
    requires place.rating.Some? ==> 0.0 <= place.rating.value <= 5.0
    requires place.travelTime.Some? ==> place.travelTime.value >= 0
    ensures 0.0 <= RawScore(place) <= 0.30 + 0.30 + 0.15 + 0.15 + 0.10
    ensures 0.0 <= ScorePlace(place) <= 1.0
  {
  }

  /** A place with none of the scored attributes scores 0. */
  lemma NoAttributesScoresZero(place: Place)
    requires place.rating.None? && place.travelTime.None? && place.crowdLevel.None?
    requires !place.budgetMatch && !TruthyStr(place.moodMatch)
    ensures ScorePlace(place) == 0.0
  {
    Round2OfHundredths(0);
  }

  /** Crowd order: low > medium > high > absent or unknown; a less crowded place never scores lower. */
  lemma CrowdOrdering(place: Place, other: Option<string>)
    requires other !in {Some("low"), Some("medium"), Some("high")}
    ensures CrowdTerm(Some("low")) > CrowdTerm(Some("medium")) > CrowdTerm(Some("high")) > CrowdTerm(other)
    ensures ScorePlace(place.(crowdLevel := Some("medium"))) <= ScorePlace(place.(crowdLevel := Some("low")))
    ensures ScorePlace(place.(crowdLevel := Some("high"))) <= ScorePlace(place.(crowdLevel := Some("medium")))
    ensures ScorePlace(place.(crowdLevel := other)) <= ScorePlace(place.(crowdLevel := Some("high")))
  {
    Round2Monotone(RawScore(place.(crowdLevel := Some("medium"))), RawScore(place.(crowdLevel := Some("low"))));
    Round2Monotone(RawScore(place.(crowdLevel := Some("high"))), RawScore(place.(crowdLevel := Some("medium"))));
    Round2Monotone(RawScore(place.(crowdLevel := other)), RawScore(place.(crowdLevel := Some("high"))));
  }

  /** A longer travel time never scores higher; from 30 minutes on the travel term is 0. */
  lemma TravelNonIncreasing(place: Place, t1: int, t2: int)
    requires t1 <= t2
    ensures ScorePlace(place.(travelTime := Some(t2))) <= ScorePlace(place.(travelTime := Some(t1)))
    ensures t2 >= 30 ==> TravelTerm(Some(t2)) == 0.0
  {
    assert TravelTerm(Some(t2)) <= TravelTerm(Some(t1));
    Round2Monotone(RawScore(place.(travelTime := Some(t2))), RawScore(place.(travelTime := Some(t1))));
  }

  /** A higher rating never scores lower. */
  lemma RatingNonDecreasing(place: Place, r1: real, r2: real)
    requires r1 <= r2
    ensures ScorePlace(place.(rating := Some(r1))) <= ScorePlace(place.(rating := Some(r2)))
  {
    Round2Monotone(RawScore(place.(rating := Some(r1))), RawScore(place.(rating := Some(r2))));
  }

  /** A truthy budget match adds 0.15 and a truthy mood match 0.10, before rounding. */
  lemma MatchBonuses(place: Place, mood: string)
    requires !place.budgetMatch && !TruthyStr(place.moodMatch) && mood != ""
    ensures RawScore(place.(budgetMatch := true)) == RawScore(place) + 0.15
    ensures RawScore(place.(moodMatch := Some(mood))) == RawScore(place) + 0.10
  {
  }

  // ---------------------------------------------------------------
  // The stable descending order used by rank_places
  // ---------------------------------------------------------------

  /** Index `i` goes before index `j`: a higher key, or an equal key and an earlier position. */
  predicate Precedes(keys: seq<real>, i: nat, j: nat)
    requires i < |keys| && j < |keys|
  {
    keys[i] > keys[j] || (keys[i] == keys[j] && i < j)
  }

  ghost predicate ValidIndices(keys: seq<real>, xs: seq<nat>) {
    forall k :: 0 <= k < |xs| ==> xs[k] < |keys|
  }

  ghost predicate SortedByPrecedes(keys: seq<real>, xs: seq<nat>)
    requires ValidIndices(keys, xs)
  {
    forall a, b :: 0 <= a < b < |xs| ==> Precedes(keys, xs[a], xs[b])
  }

  /** Insert index `x` into an ordered list of indices. */
  function Insert(keys: seq<real>, x: nat, xs: seq<nat>): (r: seq<nat>)
    requires x < |keys| && ValidIndices(keys, xs)
    ensures ValidIndices(keys, r)
    ensures |r| == |xs| + 1
    ensures forall y :: y in r <==> y == x || y in xs
  {
    if xs == [] then [x]
    else if Precedes(keys, x, xs[0]) then [x] + xs
    else [xs[0]] + Insert(keys, x, xs[1..])
  }

  lemma {:induction false} InsertPermutes(keys: seq<real>, x: nat, xs: seq<nat>)
    requires x < |keys| && ValidIndices(keys, xs)
    ensures multiset(Insert(keys, x, xs)) == multiset(xs) + multiset{x}
  {
    if xs != [] && !Precedes(keys, x, xs[0]) {
      InsertPermutes(keys, x, xs[1..]);
      assert xs == [xs[0]] + xs[1..];
    }
  }

  /** Insertion sort of a list of indices by `Precedes`. */
  function SortIndices(keys: seq<real>, xs: seq<nat>): (r: seq<nat>)
    requires ValidIndices(keys, xs)
    ensures ValidIndices(keys, r)
    ensures multiset(r) == multiset(xs)
  {
    if xs == [] then []
    else
      var r := Insert(keys, xs[0], SortIndices(keys, xs[1..]));
      InsertPermutes(keys, xs[0], SortIndices(keys, xs[1..]));
      assert xs == [xs[0]] + xs[1..];
      r
  }

  function Range(n: nat): (r: seq<nat>)
    ensures |r| == n && forall k :: 0 <= k < n ==> r[k] == k
  {
    if n == 0 then [] else Range(n - 1) + [n - 1]
  }

  /** The order in which `sorted(..., key=final_score, reverse=True)` lists positions 0..n-1. */
  function RankOrder(keys: seq<real>): (r: seq<nat>)
    ensures ValidIndices(keys, r)
    ensures multiset(r) == multiset(Range(|keys|))
  {
    SortIndices(keys, Range(|keys|))
  }

  /** The elements of `xs` at the given positions, in order. */
  function Arrange<T>(xs: seq<T>, order: seq<nat>): (r: seq<T>)
    requires forall k :: 0 <= k < |order| ==> order[k] < |xs|
    ensures |r| == |order| && forall k :: 0 <= k < |order| ==> r[k] == xs[order[k]]
  {
    seq(|order|, k requires 0 <= k < |order| => xs[order[k]])
  }

  /** A head that precedes every element of a sorted tail keeps the list sorted. */
  lemma SortedCons(keys: seq<real>, h: nat, t: seq<nat>)
    requires h < |keys| && ValidIndices(keys, t) && SortedByPrecedes(keys, t)
    requires forall k :: 0 <= k < |t| ==> Precedes(keys, h, t[k])
    ensures ValidIndices(keys, [h] + t) && SortedByPrecedes(keys, [h] + t)
  {
    var r := [h] + t;
    forall a, b | 0 <= a < b < |r| ensures Precedes(keys, r[a], r[b]) {
      if a == 0 {
        assert r[b] == t[b - 1];
      } else {
        assert r[a] == t[a - 1] && r[b] == t[b - 1];
      }
    }
  }

  lemma {:induction false} InsertSorted(keys: seq<real>, x: nat, xs: seq<nat>)
    requires x < |keys| && ValidIndices(keys, xs) && x !in xs
    requires SortedByPrecedes(keys, xs)
    ensures SortedByPrecedes(keys, Insert(keys, x, xs))
  {
    if xs == [] {
    } else if Precedes(keys, x, xs[0]) {
      forall k | 0 <= k < |xs| ensures Precedes(keys, x, xs[k]) {
        if k > 0 {
          assert Precedes(keys, xs[0], xs[k]);
        }
      }
      SortedCons(keys, x, xs);
    } else {
      var tail := xs[1..];
      assert SortedByPrecedes(keys, tail) by {
        forall a, b | 0 <= a < b < |tail| ensures Precedes(keys, tail[a], tail[b]) {
          assert tail[a] == xs[a + 1] && tail[b] == xs[b + 1];
        }
      }
      InsertSorted(keys, x, tail);
      var t := Insert(keys, x, tail);
      forall k | 0 <= k < |t| ensures Precedes(keys, xs[0], t[k]) {
        if t[k] != x {
          assert t[k] in tail;
          var j :| 0 <= j < |tail| && tail[j] == t[k];
          assert xs[j + 1] == tail[j];
        }
      }
      SortedCons(keys, xs[0], t);
    }
  }

  lemma {:induction false} SortIndicesSorted(keys: seq<real>, xs: seq<nat>)
    requires ValidIndices(keys, xs)
    requires forall a, b :: 0 <= a < b < |xs| ==> xs[a] != xs[b]
    ensures SortedByPrecedes(keys, SortIndices(keys, xs))
  {
    if xs != [] {
      SortIndicesSorted(keys, xs[1..]);
      assert multiset(SortIndices(keys, xs[1..])) == multiset(xs[1..]);
      assert xs[0] !in multiset(xs[1..]);
      InsertSorted(keys, xs[0], SortIndices(keys, xs[1..]));
    }
  }

  /** Ranking order: every position exactly once, scores non-increasing, ties in input order. */
  lemma RankOrderIsStableSort(keys: seq<real>)
    ensures |RankOrder(keys)| == |keys|
    ensures forall i :: 0 <= i < |keys| ==> i in RankOrder(keys)
    ensures forall a, b :: 0 <= a < b < |keys| ==> RankOrder(keys)[a] != RankOrder(keys)[b]
    ensures forall a, b :: 0 <= a < b < |keys| ==> keys[RankOrder(keys)[a]] >= keys[RankOrder(keys)[b]]
    ensures forall a, b :: 0 <= a < b < |keys| && keys[RankOrder(keys)[a]] == keys[RankOrder(keys)[b]]
              ==> RankOrder(keys)[a] < RankOrder(keys)[b]
  {
    var r := RankOrder(keys);
    var n := |keys|;
    SortIndicesSorted(keys, Range(n));
    assert |r| == |multiset(r)| == |multiset(Range(n))| == n;
    forall i | 0 <= i < n ensures i in r {
      assert Range(n)[i] == i;
      assert i in multiset(Range(n));
    }
  }

  /** The example of equal leaders: scores [0.82, 0.82, 0.55] keep the order A, B, C. */
  lemma TieKeepsInputOrder()
    ensures RankOrder([0.82, 0.82, 0.55]) == [0, 1, 2]
  {
    var keys := [0.82, 0.82, 0.55];
    assert Range(3) == [0, 1, 2];
    assert [0, 1, 2][1..] == [1, 2] && [1, 2][1..] == [2] && [2][1..] == [];
    assert SortIndices(keys, [2]) == Insert(keys, 2, []) == [2];
    assert Insert(keys, 1, [2]) == [1, 2];
    assert SortIndices(keys, [1, 2]) == [1, 2];
    assert Insert(keys, 0, [1, 2]) == [0, 1, 2];
  }

  // ---------------------------------------------------------------
  // rank_places over mutable place objects
  // ---------------------------------------------------------------

  /** A place dictionary as an object: its attributes, and the "final_score" slot that ranking writes. */
  class Venue {
    var attrs: Place
    var finalScore: Option<real>

    constructor (p: Place)
      ensures attrs == p && finalScore == None
    {
      attrs := p;
      finalScore := None;
    }
  }

  /** The `for` loop of `rank_places`: `place["final_score"] = score_place(place)` for every place. */
  method WriteScores(places: array<Venue>)
    modifies set i | 0 <= i < places.Length :: places[i]
    ensures forall i :: 0 <= i < places.Length ==>
      places[i].attrs == old(places[i].attrs) && places[i].finalScore == Some(ScorePlace(places[i].attrs))
  {
    for i := 0 to places.Length
      invariant forall j :: 0 <= j < places.Length ==> places[j].attrs == old(places[j].attrs)
      invariant forall j :: 0 <= j < i ==> places[j].finalScore == Some(ScorePlace(places[j].attrs))
    {
      places[i].finalScore := Some(ScorePlace(places[i].attrs));
    }
  }

  /**
   * `rank_places(places)`: writes `final_score` into every place, leaves every other
   * attribute and the given array alone, and returns a new array holding the same
   * places in the stable descending order of their scores. `keys` names the
   * scores that `sorted` reads back from "final_score".
   */
  method RankPlaces(places: array<Venue>) returns (ranked: array<Venue>, ghost keys: seq<real>)
    modifies set i | 0 <= i < places.Length :: places[i]
    ensures forall i :: 0 <= i < places.Length ==>
      places[i].attrs == old(places[i].attrs) && places[i].finalScore == Some(ScorePlace(places[i].attrs))
    ensures places[..] == old(places[..])
    ensures |keys| == places.Length && forall i :: 0 <= i < places.Length ==> keys[i] == ScorePlace(places[i].attrs)
    ensures fresh(ranked)
    ensures ranked[..] == Arrange(places[..], RankOrder(keys))
  {
    WriteScores(places);
    var finals := seq(places.Length, i
      requires 0 <= i < places.Length
      reads places, set j | 0 <= j < places.Length :: places[j]
      => places[i].finalScore.GetOr(0.0));
    var order := RankOrder(finals);
    keys := finals;
    ranked := new Venue[|order|](k requires 0 <= k < |order| reads places => places[order[k]]);
  }
}

/**
 * ExplanationAgent.generate_explanation: one sentence built from the clauses that
 * apply to a place, in a fixed order, with a fixed sentence when none applies.
 * Rendering a float rating as text is library behaviour and is passed in as `showRating`.
 */
module ExplanationAgent {
  import opened Wrappers
  import opened Text
  import opened Places

  const Fallback: string := "This place matches your preferences."
  const Opening: string := "I recommended this place because "

  /** The five kinds of clause, in the order the agent considers them. */
  datatype Clause = TravelClause | RatingClause | CrowdClause | BudgetClause | MoodClause {
    function Rank(): (k: nat)
      ensures k < 5
    {
      match this
      case TravelClause => 0
      case RatingClause => 1
      case CrowdClause => 2
      case BudgetClause => 3
      case MoodClause => 4
    }
  }

  /** Whether the place contributes a clause of the given kind. */
  predicate Applies(place: Place, c: Clause) {
    match c
    case TravelClause => TruthyInt(place.travelTime)
    case RatingClause => TruthyReal(place.rating)
    case CrowdClause => place.crowdLevel in {Some("low"), Some("medium"), Some("high")}
    case BudgetClause => place.budgetMatch
    case MoodClause => TruthyStr(place.moodMatch)
  }

  /** The phrase for each crowd tier. */
  function CrowdPhrase(crowd: string): string {
    if crowd == "low" then "it is usually quiet at this time"
    else if crowd == "medium" then "it has a moderate crowd level"
    else "it can be a bit crowded right now"
  }

  function MoodPhrase(mood: string): string {
    "it suits your " + mood + " preference"
  }

  /** The text of an applicable clause. */
  function Render(place: Place, c: Clause, showRating: real -> string): string
    requires Applies(place, c)
  {
    match c
    case TravelClause =>
      "it is about " + IntToString(place.travelTime.value) + " minutes away considering current traffic"
    case RatingClause => "it has a rating of " + showRating(place.rating.value)
    case CrowdClause => CrowdPhrase(place.crowdLevel.value)
    case BudgetClause => "it fits your budget"
    case MoodClause => MoodPhrase(place.moodMatch.value)
  }

  /** One clause if it applies, none otherwise. */
  function Optional(place: Place, c: Clause, showRating: real -> string): (ps: seq<string>)
    ensures |ps| <= 1
  {
    if Applies(place, c) then [Render(place, c, showRating)] else []
  }

  /** The order in which the source appends clauses. */
  const Order: seq<Clause> := [TravelClause, RatingClause, CrowdClause, BudgetClause, MoodClause]

  /** Append, for each kind in turn, its clause if it applies. */
  function PartsOf(place: Place, cs: seq<Clause>, showRating: real -> string): seq<string> {
    if cs == [] then [] else Optional(place, cs[0], showRating) + PartsOf(place, cs[1..], showRating)
  }

  /** The `parts` list. */
  function Parts(place: Place, showRating: real -> string): seq<string> {
    PartsOf(place, Order, showRating)
  }

  /** `generate_explanation(place)`. */
  function GenerateExplanation(place: Place, showRating: real -> string): (s: string)
    ensures |s| > 0
    ensures s == Fallback <==> Parts(place, showRating) == []
  {
    var parts := Parts(place, showRating);
    if parts == [] then Fallback
    else
      var s := Opening + Join(parts, ", ") + ".";
      assert s[0] != Fallback[0];
      s
  }

  // ---------------------------------------------------------------
  // Properties
  // ---------------------------------------------------------------

  /** The kinds among `cs` that apply, in the order of `cs`. */
  function KindsOf(place: Place, cs: seq<Clause>): seq<Clause> {
    if cs == [] then []
    else (if Applies(place, cs[0]) then [cs[0]] else []) + KindsOf(place, cs[1..])
  }

  ghost predicate RanksIncrease(cs: seq<Clause>) {
    forall i, j :: 0 <= i < j < |cs| ==> cs[i].Rank() < cs[j].Rank()
  }

  lemma {:induction false} PartsRenderKinds(place: Place, cs: seq<Clause>, showRating: real -> string)
    ensures var ks, ps := KindsOf(place, cs), PartsOf(place, cs, showRating);
      && |ps| == |ks| <= |cs|
      && forall i :: 0 <= i < |ks| ==> Applies(place, ks[i]) && ps[i] == Render(place, ks[i], showRating)
  {
    if cs != [] {
      PartsRenderKinds(place, cs[1..], showRating);
    }
  }

  lemma {:induction false} KindsMembers(place: Place, cs: seq<Clause>)
    ensures forall c :: c in KindsOf(place, cs) <==> c in cs && Applies(place, c)
  {
    if cs != [] {
      KindsMembers(place, cs[1..]);
      assert cs == [cs[0]] + cs[1..];
    }
  }

  lemma {:induction false} KindsKeepOrder(place: Place, cs: seq<Clause>)
    requires RanksIncrease(cs)
    ensures RanksIncrease(KindsOf(place, cs))
  {
    if cs != [] {
      var tail := cs[1..];
      assert RanksIncrease(tail) by {
        forall i, j | 0 <= i < j < |tail| ensures tail[i].Rank() < tail[j].Rank() {
          assert tail[i] == cs[i + 1] && tail[j] == cs[j + 1];
        }
      }
      KindsKeepOrder(place, tail);
      KindsMembers(place, tail);
      var kt := KindsOf(place, tail);
      forall k | k in kt ensures cs[0].Rank() < k.Rank() {
        var j :| 0 <= j < |tail| && tail[j] == k;
        assert cs[j + 1] == k;
      }
      if Applies(place, cs[0]) {
        var ks := [cs[0]] + kt;
        forall i, j | 0 <= i < j < |ks| ensures ks[i].Rank() < ks[j].Rank() {
          assert ks[j] == kt[j - 1];
          if i > 0 {
            assert ks[i] == kt[i - 1];
          } else {
            assert kt[j - 1] in kt;
          }
        }
      }
    }
  }

  /** Parts over a list with one more kind at the end end with that kind's clause, if any. */
  lemma {:induction false} PartsOfSnoc(place: Place, cs: seq<Clause>, c: Clause, showRating: real -> string)
    ensures PartsOf(place, cs + [c], showRating) == PartsOf(place, cs, showRating) + Optional(place, c, showRating)
  {
    if cs == [] {
      assert [c][1..] == [];
    } else {
      assert (cs + [c])[0] == cs[0] && (cs + [c])[1..] == cs[1..] + [c];
      var head, tail := Optional(place, cs[0], showRating), PartsOf(place, cs[1..], showRating);
      PartsOfSnoc(place, cs[1..], c, showRating);
      assert PartsOf(place, cs + [c], showRating) == head + (tail + Optional(place, c, showRating));
    }
  }

  /**
   * The clauses are the applicable kinds rendered in the fixed order travel,
   * rating, crowd, budget, mood: each kind at most once, so at most five.
   */
  lemma ClauseOrder(place: Place, showRating: real -> string)
    ensures var ks, ps := KindsOf(place, Order), Parts(place, showRating);
      && |ps| == |ks| <= 5
      && (forall i :: 0 <= i < |ks| ==> Applies(place, ks[i]) && ps[i] == Render(place, ks[i], showRating))
      && (forall i, j :: 0 <= i < j < |ks| ==> ks[i].Rank() < ks[j].Rank())
      && (forall c :: c in ks <==> Applies(place, c))
  {
    assert RanksIncrease(Order);
    PartsRenderKinds(place, Order, showRating);
    KindsMembers(place, Order);
    KindsKeepOrder(place, Order);
    forall c ensures c in Order {
      assert Order[c.Rank()] == c;
    }
  }

  /** With at least one clause the sentence is the opening, the clauses joined by ", ", and a full stop. */
  lemma SentenceShape(place: Place, showRating: real -> string)
    requires Parts(place, showRating) != []
    ensures GenerateExplanation(place, showRating) == Opening + Join(Parts(place, showRating), ", ") + "."
  {
  }

  /** Falsy travel times and ratings, and crowd values other than the three tiers, give no clause. */
  lemma FalsyAttributesSilent(place: Place)
    ensures place.travelTime in {None, Some(0)} ==> !Applies(place, TravelClause)
    ensures place.rating in {None, Some(0.0)} ==> !Applies(place, RatingClause)
    ensures place.crowdLevel !in {Some("low"), Some("medium"), Some("high")} ==> !Applies(place, CrowdClause)
  {
  }

  /** Each crowd tier has a phrase of its own. */
  lemma CrowdPhrasesDistinct()
    ensures CrowdPhrase("low") != CrowdPhrase("medium")
    ensures CrowdPhrase("medium") != CrowdPhrase("high")
    ensures CrowdPhrase("low") != CrowdPhrase("high")
  {
    assert CrowdPhrase("low")[3] == 'i' && CrowdPhrase("medium")[3] == 'h' && CrowdPhrase("high")[3] == 'c';
  }

  /** With a mood match the mood clause is the last part. */
  lemma MoodIsLastPart(place: Place, showRating: real -> string)
    requires TruthyStr(place.moodMatch)
    ensures Parts(place, showRating) == PartsOf(place, Order[..4], showRating) + [MoodPhrase(place.moodMatch.value)]
  {
    assert Order == Order[..4] + [MoodClause];
    PartsOfSnoc(place, Order[..4], MoodClause, showRating);
  }

  /** A sentence built from parts ends with its last part and a full stop. */
  lemma SentenceEndsWithLast(front: seq<string>, last: string)
    ensures var s := Opening + Join(front + [last], ", ") + ".";
      exists head :: s == head + last + "."
  {
    if front == [] {
      assert front + [last] == [last];
      assert Opening + Join(front + [last], ", ") + "." == Opening + last + ".";
    } else {
      JoinSnoc(front, last, ", ");
      var head := Opening + Join(front, ", ") + ", ";
      assert Opening + Join(front + [last], ", ") + "." == head + last + ".";
    }
  }

  /** A mood match ends the sentence with its clause, which quotes the mood verbatim. */
  lemma MoodQuotedVerbatim(place: Place, showRating: real -> string)
    requires TruthyStr(place.moodMatch)
    ensures var s, m := GenerateExplanation(place, showRating), place.moodMatch.value;
      EndsWith(s, MoodPhrase(m) + ".") && Contains(s, m)
  {
    var m := place.moodMatch.value;
    var front := PartsOf(place, Order[..4], showRating);
    MoodIsLastPart(place, showRating);
    var s := GenerateExplanation(place, showRating);
    assert s == Opening + Join(front + [MoodPhrase(m)], ", ") + ".";
    SentenceEndsWithLast(front, MoodPhrase(m));
    var head :| s == head + MoodPhrase(m) + ".";
    MoodPhraseAtEnd(head, m);
  }

  lemma MoodPhraseAtEnd(head: string, m: string)
    ensures var s := head + MoodPhrase(m) + ".";
      EndsWith(s, MoodPhrase(m) + ".") && Contains(s, m)
  {
    var s := head + MoodPhrase(m) + ".";
    assert s == (head + "it suits your ") + m + (" preference" + ".");
    ContainsMiddle(head + "it suits your ", m, " preference" + ".");
    assert s == head + (MoodPhrase(m) + ".");
    EndsWithAppended(head, MoodPhrase(m) + ".");
  }
}

# TableScout decision core in Dafny

TableScout recommends places to eat or work from and helps book a table. This project models the deterministic decisions behind that flow and proves properties of them:

- how traffic turns travel times into a tier, a penalty and a travel score (`TrafficAgent`);
- how popularity signals become a crowd estimate (`PopularityAgent`);
- how a place is scored and a list of places is ranked (`ScoringAgent`);
- how mood, budget and time become a search plan (`PlannerAgent`);
- how a recommendation is explained in one sentence (`ExplanationAgent`);
- whether a booking may proceed and what it carries (`BookingAgent`);
- which booking handoff to offer for a venue URL (`BookingMcp`);
- how the language model's reply is cleaned up and validated (`IntentExtraction`);
- how the per-user preference table is read and updated (`Crud`).

The network, the language model, the database, the clock and a few library routines are not modelled. Each one is a parameter instead:
- the model reply (`generate`);
- schema validation (`validate`);
- ISO date parsing and formatting (`parseIso`);
- URL quoting (`quote`);
- float formatting (`showRating`);
- the current time (`now`).

Shared modules:
- `Wrappers`: `Option` and `Result`.
- `Text`: Python string operations written out.
  - `str.lower` on ASCII letters.
  - `str.strip` over the full `isspace` set.
  - `removeprefix`/`removesuffix`, `in` on strings, `join`, and integer formatting.
- `Rounding`: `round(x, 2)` as exact round-half-even on reals.
- `Places`: the enriched place dictionary.
  - A missing key and a `None` value are both `None`.
  - Python truthiness (`0`, `0.0`, `""` and `None` are false) is spelled out by `TruthyInt`, `TruthyReal` and `TruthyStr`.

The model follows the agents' own code, which is not intent-weighted. The rest of the repository expects intent-weighted agents:
- the orchestrator passes an `intent` argument to `create_plan`, `rank_places` and `generate_explanation` (`backend/agents/orchestrator.py`, lines 43-47, 93-96 and 100-103);
- `backend/tests/test_scoring_agent.py` (lines 17 and 34) expects a `place_type_affinity` preference to raise a place's score.

None of those functions takes an intent, and `score_place` reads no user preferences.

## Model

| member | source | states |
|---|---|---|
| TrafficAgent.AnalyzeTraffic | backend/agents/traffic_agent.py:14-76 | the penalty always agrees with the tier (low 0, medium 0.2, high 0.4); an effective time and a travel score are reported exactly when a travel time is given, and the score is `TravelScore` of the effective time |
| TrafficAgent.RatioTiers | backend/agents/traffic_agent.py:34-45 | with both times present and nonzero, the ratio picks the tier; exactly 1.3 and 1.7 fall into the higher tier |
| TrafficAgent.RatioTestsInIntegers | backend/agents/traffic_agent.py:35-40 | for a positive traffic-free time the ratio tests are the integer tests 10·t < 13·b and 10·t < 17·b |
| TrafficAgent.AbsoluteTiers | backend/agents/traffic_agent.py:47-56 | with only a travel time (base missing or 0): at most 10 low/0, at most 20 medium/0.2, otherwise high/0.4 |
| TrafficAgent.NoTravelTime | backend/agents/traffic_agent.py:31-32 | without a travel time the report is low, 0, no effective time and no score |
| TrafficAgent.EffectiveTime | backend/agents/traffic_agent.py:58-61 | for a travel time t ≥ 0 the effective time is floor(t·(1+penalty)), never below t, and equal to t when the penalty is 0 |
| TrafficAgent.Truncate | backend/agents/traffic_agent.py:61 | `int()` rounds toward zero: the floor for non-negative values, the ceiling for negative ones |
| TrafficAgent.TravelScore | backend/agents/traffic_agent.py:64-69 | the score is within 0.005 of max(0, 1 − effective/limit), the value before `round(…, 2)`; for an effective time ≥ 0 and a positive limit it is in [0, 1] |
| TrafficAgent.TravelScoreNonIncreasing | backend/agents/traffic_agent.py:66-69 | the travel score never rises as the effective time grows |
| TrafficAgent.TravelScoreZeroBeyondLimit | backend/agents/traffic_agent.py:66-69 | once the effective time reaches the limit the score is exactly 0 |
| TrafficAgent.ReportScoreBounds | backend/agents/traffic_agent.py:63-75 | the reported score of a non-negative travel time is in [0, 1], and 0 once the effective time reaches the limit |
| TrafficAgent.ZeroTravelTime | backend/agents/traffic_agent.py:47-75 | a travel time of 0 gives low, no penalty, effective time 0 and score 1 |
| PopularityAgent.PopularSignal | backend/agents/popularity_agent.py:24-27 | popular_times contributes popular_times/100, and nothing when absent |
| PopularityAgent.ReviewSignal | backend/agents/popularity_agent.py:29-37 | the review signal is one of 0, 0.1, 0.2, 0.4, and is 0 exactly when the count is missing or 0 |
| PopularityAgent.TimeSignal | backend/agents/popularity_agent.py:39-46 | the time signal is one of 0, 0.1, 0.3, 0.4, and is 0 exactly when no hour is given |
| PopularityAgent.ReviewSignalValues | backend/agents/popularity_agent.py:30-37 | more than 2000 reviews add 0.4, more than 500 add 0.2, any other nonzero count adds 0.1 |
| PopularityAgent.TimeSignalValues | backend/agents/popularity_agent.py:40-46 | hours 12–14 add 0.3, hours 18–21 add 0.4, any other hour (0 included) adds 0.1 |
| PopularityAgent.Clamp | backend/agents/popularity_agent.py:49 | `min(score, 1.0)`: at most 1 and at most the score, and equal to one of them |
| PopularityAgent.CrowdTier | backend/agents/popularity_agent.py:52-57 | low exactly below 0.4, high exactly from 0.7, medium in between |
| PopularityAgent.EstimateCrowd | backend/agents/popularity_agent.py:13-62 | the confidence is within 0.005 of min(score, 1), the summed signals before `round(…, 2)`; it is at most 1, non-negative when popular_times is absent or non-negative, and the tier is that of the clamped score |
| PopularityAgent.NoSignals | backend/agents/popularity_agent.py:22-53 | with no signal at all the estimate is low with confidence 0 |
| PopularityAgent.EstimateMonotone | backend/agents/popularity_agent.py:49-62 | a larger raw score never gives a lower tier or a lower confidence |
| PopularityAgent.AddingTimeNeverLowers | backend/agents/popularity_agent.py:40-57 | giving an hour never lowers the tier |
| PopularityAgent.AddingReviewsNeverLowers | backend/agents/popularity_agent.py:30-57 | giving a review count never lowers the tier |
| PopularityAgent.AddingPopularTimesNeverLowers | backend/agents/popularity_agent.py:25-57 | giving a non-negative popular_times never lowers the tier |
| Rounding.RoundHalfEven | backend/agents/scoring_agent.py:49 | the chosen integer is within 1/2 of its argument |
| Rounding.Round2 | backend/agents/scoring_agent.py:49 | `round(x, 2)` is within 0.005 of x and stays in [0, 1] when x does |
| Rounding.Round2Monotone | backend/agents/scoring_agent.py:49 | rounding never reverses the order of two values |
| Rounding.Round2OfHundredths | backend/agents/traffic_agent.py:75 | a value that is already in hundredths is unchanged |
| ScoringAgent.ScorePlace | backend/agents/scoring_agent.py:13-49 | the score is within 0.005 of the weighted sum before rounding |
| ScoringAgent.ScoreInUnitInterval | backend/agents/scoring_agent.py:13-49 | with a rating in [0, 5] and a non-negative travel time the weights add to at most 1 and the score is in [0, 1] |
| ScoringAgent.NoAttributesScoresZero | backend/agents/scoring_agent.py:18-49 | a place with none of the five attributes scores 0 |
| ScoringAgent.CrowdOrdering | backend/agents/scoring_agent.py:32-39 | crowd terms are ordered low > medium > high > anything else, so a less crowded place never scores lower |
| ScoringAgent.TravelNonIncreasing | backend/agents/scoring_agent.py:25-30 | a longer travel time never raises the score, and its term is 0 from 30 minutes on |
| ScoringAgent.RatingNonDecreasing | backend/agents/scoring_agent.py:20-23 | a higher rating never lowers the score |
| ScoringAgent.MatchBonuses | backend/agents/scoring_agent.py:41-47 | a budget match adds 0.15 and a truthy mood match adds 0.10 before rounding |
| ScoringAgent.Insert | backend/agents/scoring_agent.py:59-63 | inserting an index into the ranked order keeps valid indices, grows it by one, and adds exactly that index |
| ScoringAgent.InsertPermutes | backend/agents/scoring_agent.py:59-63 | insertion adds the index once to the multiset of the order |
| ScoringAgent.SortIndices | backend/agents/scoring_agent.py:59-63 | sorting indices yields a permutation of them |
| ScoringAgent.InsertSorted | backend/agents/scoring_agent.py:59-63 | inserting into a sorted order keeps it sorted by (score descending, input position ascending) |
| ScoringAgent.SortIndicesSorted | backend/agents/scoring_agent.py:59-63 | distinct indices come out sorted by (score descending, input position ascending) |
| ScoringAgent.RankOrder | backend/agents/scoring_agent.py:59-63 | the ranking is a permutation of the input positions |
| ScoringAgent.RankOrderIsStableSort | backend/agents/scoring_agent.py:59-63 | the ranking lists every input position exactly once, scores never increase along it, and tied places keep their input order |
| ScoringAgent.TieKeepsInputOrder | backend/agents/scoring_agent.py:59-63 | scores [0.82, 0.82, 0.55] rank as positions 0, 1, 2 |
| ScoringAgent.Arrange | backend/agents/scoring_agent.py:59-63 | the arranged list holds, at each rank, the place at that input position |
| ScoringAgent.WriteScores | backend/agents/scoring_agent.py:56-57 | every place's final_score becomes its score and nothing else about it changes |
| ScoringAgent.RankPlaces | backend/agents/scoring_agent.py:51-63 | every place gets final_score = its score and keeps its other fields, the input list keeps its order, and the result is a new list arranged by the stable descending ranking of those scores |
| PlannerAgent.MoodPlan | backend/agents/planner_agent.py:29-52 | the place types are one of the four fixed lists and the radius is positive |
| PlannerAgent.CreatePlan | backend/agents/planner_agent.py:11-69 | the place types are one of four fixed non-empty lists and the radius is positive |
| PlannerAgent.CaseInsensitive | backend/agents/planner_agent.py:21-22 | the plan depends on mood and budget only through their lower-case forms |
| PlannerAgent.DateIsDate | backend/agents/planner_agent.py:21-40 | "Date" and "date" give the same plan |
| PlannerAgent.RadiusByMood | backend/agents/planner_agent.py:26-45 | the radius is 2.0 for work, 3.0 for date, 1.5 for quick bite and 2.0 otherwise |
| PlannerAgent.BookingLikelyIff | backend/agents/planner_agent.py:34-52 | booking_likely holds exactly for "date" and for an unknown mood |
| PlannerAgent.UnknownMood | backend/agents/planner_agent.py:48-52 | an unknown mood gives ["restaurant", "cafe"], radius 2.0 and booking_likely |
| PlannerAgent.OnlyMoodDecidesSearch | backend/agents/planner_agent.py:54-62 | budget and time never change place types, radius or booking_likely |
| PlannerAgent.PrioritiesInThreeParts | backend/agents/planner_agent.py:54-62 | the priorities are the mood's list, then "price" for low or "rating" for high, then "open_now" exactly when time is truthy |
| PlannerAgent.DateHighKeepsDuplicate | backend/agents/planner_agent.py:38-58 | a date on a high budget lists "rating" twice |
| PlannerAgent.QuickBiteLowKeepsDuplicate | backend/agents/planner_agent.py:44-56 | a quick bite on a low budget lists "price" twice |
| ExplanationAgent.GenerateExplanation | backend/agents/explanation_agent.py:15-59 | the sentence is never empty, and it is the fallback sentence exactly when no clause applies |
| ExplanationAgent.ClauseOrder | backend/agents/explanation_agent.py:20-51 | the parts are the applicable clauses in the order travel, rating, crowd, budget, mood, each at most once (so at most five), and a clause appears exactly when it applies |
| ExplanationAgent.SentenceShape | backend/agents/explanation_agent.py:57 | with at least one clause the sentence is the opening, the clauses joined by ", ", and a full stop |
| ExplanationAgent.FalsyAttributesSilent | backend/agents/explanation_agent.py:23-42 | a falsy travel time or rating, and a crowd value other than the three tiers, give no clause |
| ExplanationAgent.CrowdPhrasesDistinct | backend/agents/explanation_agent.py:37-42 | each crowd tier has a phrase of its own |
| ExplanationAgent.MoodIsLastPart | backend/agents/explanation_agent.py:49-51 | a truthy mood match contributes the last part |
| ExplanationAgent.MoodQuotedVerbatim | backend/agents/explanation_agent.py:49-57 | with a mood match the sentence ends with "it suits your <mood> preference." and contains the mood verbatim |
| ExplanationAgent.PartsRenderKinds | backend/agents/explanation_agent.py:20-51 | each part is the rendering of an applicable clause, in step with the clause list |
| ExplanationAgent.KindsMembers | backend/agents/explanation_agent.py:20-51 | a clause kind is listed exactly when it is among those tried and applies |
| ExplanationAgent.KindsKeepOrder | backend/agents/explanation_agent.py:20-51 | dropping clauses that do not apply keeps the fixed order |
| BookingAgent.EvaluateBookingState | backend/agents/booking_agent.py:12-60 | "ready" exactly when a place is given, a time is non-empty, people_count is nonzero and the user confirmed; "error" exactly when no place is given |
| BookingAgent.FirstFailingCheckDecides | backend/agents/booking_agent.py:23-55 | the checks run as place, time, people, confirmation, and the first one that fails fixes the result and its message |
| BookingAgent.ZeroAndEmptyAreMissing | backend/agents/booking_agent.py:31-39 | an empty time and a party of 0 count as missing |
| BookingAgent.QuestionQuotesDetails | backend/agents/booking_agent.py:46-55 | the confirmation question contains the place name, the party size and the time |
| BookingAgent.BuildBookingPayload | backend/agents/booking_agent.py:62-82 | name, address and place_id come from the place, and time, people, user name and contact are passed through |
| BookingAgent.PayloadMatchesQuestion | backend/agents/booking_agent.py:46-82 | the payload carries the party size and time that the confirmation asked about, and once confirmed the same inputs are ready |
| BookingMcp.ReplaceChar | backend/mcp_servers/booking_mcp.py:19 | `replace('Z', '+00:00')` leaves no "Z" behind and leaves a string without one unchanged |
| BookingMcp.ZuluBecomesOffset | backend/mcp_servers/booking_mcp.py:19 | a trailing "Z" becomes "+00:00" |
| BookingMcp.TimeStrings | backend/mcp_servers/booking_mcp.py:18-24 | a time that parses (after "Z" becomes "+00:00") gives the parser's formatted and readable strings; an unparsable one gives formatted "" and readable "requested time" |
| BookingMcp.ChooseProvider | backend/mcp_servers/booking_mcp.py:29-60 | no or empty URL gives the search; otherwise "opentable" is checked first, then "resy", else the site itself |
| BookingMcp.ActionUrl | backend/mcp_servers/booking_mcp.py:33-63 | the OpenTable link starts with the URL and "?dateTime=" and ends with "&covers=2"; the search link starts with the Google search prefix |
| BookingMcp.Message | backend/mcp_servers/booking_mcp.py:39-70 | every message names the place, and the OpenTable one ends with " at <readable time>..." |
| BookingMcp.GenerateBookingAction | backend/mcp_servers/booking_mcp.py:10-71 | status, provider and confidence follow the chosen strategy; Resy and generic handoffs return the URL unchanged; OpenTable gets URL + "?dateTime=" + formatted time + "&covers=2"; the fallback searches for the quoted "reservations at <name> <address>"; the message names the place, and on OpenTable ends with the readable time |
| BookingMcp.HandoffIffUrl | backend/mcp_servers/booking_mcp.py:29-70 | "handoff" exactly when there is a non-empty URL, "fallback" otherwise; confidence is high exactly for OpenTable and Resy and low exactly for the search |
| BookingMcp.OpenTableWins | backend/mcp_servers/booking_mcp.py:30-42 | a URL containing both "opentable" and "resy" goes to OpenTable |
| BookingMcp.MatchingIsCaseSensitive | backend/mcp_servers/booking_mcp.py:30-58 | a URL without lower-case "o" and "r" (an upper-case host, say) is treated as a generic website |
| BookingMcp.MixedCaseHostIsDirect | backend/mcp_servers/booking_mcp.py:30-58 | "https://www.OpenTable.com" is a direct-website handoff, not an OpenTable deep link |
| BookingMcp.UnparsableTimeOnOpenTable | backend/mcp_servers/booking_mcp.py:22-39 | with an unparsable time the OpenTable link has an empty dateTime and the message says "requested time" |
| BookingMcp.EmptyUrlFallsBack | backend/mcp_servers/booking_mcp.py:29 | an empty URL is treated exactly like a missing one |
| BookingMcp.WhatEachStrategyUses | backend/mcp_servers/booking_mcp.py:29-70 | only the OpenTable link depends on the booking time, and only the search depends on the address |
| IntentExtraction.Prompt | backend/agents/intent_extraction_agent.py:12-44 | the prompt starts with the system prompt and contains the user's query verbatim, in double quotes, at its end |
| IntentExtraction.CallGemini | backend/agents/gemini_client.py:36-39 | a missing or empty reply is an error; otherwise the result is exactly the stripped reply text |
| IntentExtraction.Clean | backend/agents/intent_extraction_agent.py:50 | the cleaned text has no whitespace at either end |
| IntentExtraction.Extract | backend/agents/intent_extraction_agent.py:27-56 | success exactly when the model replied and the cleaned reply validates, and then the result is the validated intent; otherwise a failure: the client's error, or an invalid-intent error quoting the reply after a fixed header |
| IntentExtraction.FencedReplyUnwrapped | backend/agents/intent_extraction_agent.py:49-50 | a reply wrapped in "```json … ```" is reduced to its stripped body |
| IntentExtraction.UnfencedReplyOnlyStripped | backend/agents/intent_extraction_agent.py:50 | with no fence at either end the cleaned text is the stripped reply |
| IntentExtraction.CleanAfterClientStrip | backend/agents/intent_extraction_agent.py:50 | cleaning a reply the client already stripped is the same as cleaning the raw reply |
| IntentExtraction.OtherOpeningFenceKept | backend/agents/intent_extraction_agent.py:50 | with an opening fence other than "```json", the result is exactly the strip of the reply without its closing "```", so the opening fence is kept |
| IntentExtraction.UppercaseFenceKept | backend/agents/intent_extraction_agent.py:50 | the prefix test is case-sensitive: "```JSON" stays |
| IntentExtraction.BareFenceKept | backend/agents/intent_extraction_agent.py:50 | a bare "```" opening without a "json" tag stays |
| IntentExtraction.ValidatorSeesTrimmedText | backend/agents/intent_extraction_agent.py:50-51 | two validators that agree on every text without outer whitespace give the same extraction, so the validator never sees leading or trailing whitespace |
| IntentExtraction.InvalidReplyQuoted | backend/agents/intent_extraction_agent.py:53-56 | a reply that fails validation gives an invalid-intent error whose message starts with the header and ends with the reply |
| Crud.Lookup | backend/db/crud.py:46-50 | a record is found exactly when the user has one, and it is that record |
| Crud.AddVisited | backend/db/crud.py:53-65 | other users' records are untouched; nothing changes without a record, or when `place_name in visited` holds (list membership, substring of a stored string, key of a stored object); otherwise the stored list gets the name appended at the end, the time is updated and the other preference keys are kept |
| Crud.Upsert | backend/db/crud.py:68-84 | the user's record holds exactly the given preferences and time, and other users' records are untouched |
| Crud.Remove | backend/db/crud.py:87-95 | the user's record is gone and all others are untouched |
| Crud.OperationsKeepKeyed | backend/db/crud.py:46-95 | every operation keeps each record stored under its own user id |
| Crud.AddVisitedIdempotent | backend/db/crud.py:60-62 | adding the same place twice is adding it once |
| Crud.AddVisitedKeepsDistinct | backend/db/crud.py:60-62 | a visited list without repeats stays without repeats |
| Crud.NonListVisitedUnchanged | backend/db/crud.py:59-60 | a stored string containing the name, or a stored object with the name as a key, leaves the table unchanged |
| Crud.AddVisitedNeedsRow | backend/db/crud.py:57-58 | a user without a record still has none afterwards |
| Crud.UpsertThenGet | backend/db/crud.py:72-84 | after an upsert the lookup returns a record with exactly the given preferences and time |
| Crud.UpsertOverwrites | backend/db/crud.py:80-82 | the last upsert wins; preferences are replaced, never merged |
| Crud.UpsertDropsVisited | backend/db/crud.py:80-82 | upserting preferences without a visited list leaves none |
| Crud.RemoveThenGet | backend/db/crud.py:87-95 | after a delete there is no record, and a second delete changes nothing |
| Crud.CreateThenRemove | backend/db/crud.py:72-93 | creating a record for a new user and deleting it restores the table |
| Crud.PreferenceStore.GetUserPreferences | backend/db/crud.py:46-50 | returns the lookup of the table, and a found record carries the requested user id |
| Crud.PreferenceStore.AddVisitedPlace | backend/db/crud.py:53-65 | the table becomes `AddVisited` of the old table, and records stay keyed by user id |
| Crud.PreferenceStore.CreateOrUpdateUserPreference | backend/db/crud.py:68-84 | the table becomes `Upsert` of the old table, and the returned record is the stored one with the given preferences and time |
| Crud.PreferenceStore.DeleteUserPreferences | backend/db/crud.py:87-95 | the table becomes `Remove` of the old table, and the result is the removed record or nothing |
| Text.Contains | backend/mcp_servers/booking_mcp.py:30 | membership `sub in s` for strings; `ContainsIff` shows it holds exactly when `sub` occurs at some position |
| Text.ContainsIff | backend/mcp_servers/booking_mcp.py:30-42 | a string contains another exactly when it occurs at some position |
| Text.Lower | backend/agents/planner_agent.py:21-22 | lower-casing keeps the length and maps each character to its lower-case form |
| Text.LowerIdempotent | backend/agents/planner_agent.py:21-22 | lower-casing twice is lower-casing once |
| Text.Strip | backend/agents/intent_extraction_agent.py:50 | the result is a slice s[i..j] of the input with only whitespace before i and from j on, and it neither starts nor ends with whitespace, so it is the longest such slice |
| Text.StripIdempotent | backend/agents/intent_extraction_agent.py:50 | stripping twice is stripping once |
| Text.RemovePrefix | backend/agents/intent_extraction_agent.py:50 | `removeprefix` drops the prefix once when present and changes nothing otherwise |
| Text.RemoveSuffix | backend/agents/intent_extraction_agent.py:50 | `removesuffix` drops the suffix once when present and changes nothing otherwise |
| Text.IntToString | backend/agents/booking_agent.py:52 | for n ≥ 0 the rendering is digits only, has no leading zero and denotes n; for n < 0 it is "-" followed by the rendering of −n |
| Text.NatToString | backend/agents/booking_agent.py:52 | a non-empty string of digits with no leading zero whose decimal value is n |
| Text.JoinSnoc | backend/agents/explanation_agent.py:57 | joining one more part appends the separator and that part |

## Left out

- Network and I/O are not modelled: the Gemini SDK call, the map service, the HTTP routes, authentication, the frontend and the orchestrator. The orchestrator calls the agents with arguments their code does not accept, so it could not be modelled faithfully.
- Library routines are parameters: `datetime.fromisoformat` with `strftime` (`parseIso`), `urllib.parse.quote` (`quote`), pydantic's `model_validate_json` (`validate`), float formatting in the rating clause (`showRating`), and `datetime.utcnow` (`now`). No property of them is assumed.
- Floating point: scores, ratios and penalties are exact reals, and `round(x, 2)` is exact round-half-even on them. IEEE representation error, such as a decimal tie that is not exact in binary, is not modelled.
- `str.lower` is modelled for ASCII letters only; other Unicode case mappings are left out.
- `IntentExtraction.CallGemini`: an exception raised by the SDK itself (network, quota) is not distinguished. It is folded into the same failure as a missing reply.
- `TrafficAgent.AnalyzeTraffic`: `max_acceptable_time` must be nonzero when a travel time is given, since Python raises `ZeroDivisionError` there. The default of 30 is `DefaultMaxAcceptableTime`.
- `ScoringAgent.ScoreInUnitInterval`: the [0, 1] bound is stated for ratings in [0, 5] and non-negative travel times, from the docstring. For other inputs the sum can leave [0, 1].
- `Places.Place.NonEmpty`: a dictionary's truthiness counts fields present with a value. Three non-empty dictionaries are not distinguished from an empty one, because the model maps them all to the same value:
  - one holding only `None` values;
  - one holding only keys outside the modelled fields;
  - one whose only key is a falsy `budget_match`, such as `{"budget_match": False}`. `budget_match` is modelled only by its truthiness, so the model's `NonEmpty` is false and `EvaluateBookingState` reports an error. Python finds the dictionary truthy and goes on to the time check (`backend/agents/booking_agent.py:24`).
- `Crud.AddVisited` requires that the call return normally. A stored `visited_places` that is `null`, a number or a boolean makes `in` raise `TypeError`. A stored string or object that does not contain the name reaches `append`, which they do not have, and raises `AttributeError`.
- The `users` table operations `get_user`, `get_user_by_email` and `create_user` are not modelled. They are single-row queries and inserts with no decision logic.
- Crud.PreferenceStore: the model gives the in-memory effect of each operation. It does not cover sessions, commit/refresh, or whether SQLAlchemy notices the in-place update of the JSONB `preferences` column. It also does not cover aliasing between the caller's dictionary and the stored one.
- `ScoringAgent.RankPlaces`: the scores written in place come back as a ghost sequence `keys`. The ranking is stated against it.

/**
 * BookingAgent: a check-in-order state machine that decides whether a booking
 * can go ahead, and the payload handed on once it can.
 */
module BookingAgent {
  import opened Wrappers
  import opened Text
  import opened Places

  const NoPlaceMessage: string := "No place has been selected for booking."
  const AskTime: string := "At what time should I book the table?"
  const AskPeople: string := "For how many people should I book the table?"

  datatype BookingState =
    | Error(message: string)
    | NeedInfo(field: string, question: string)
    | NeedConfirmation(question: string)
    | Ready
  {
    /** The "status" entry of the returned dictionary. */
    function Status(): string {
      match this
      case Error(_) => "error"
      case NeedInfo(_, _) => "need_info"
      case NeedConfirmation(_) => "need_confirmation"
      case Ready => "ready"
    }
  }

  /** Python truthiness of the selected place: not `None` and not an empty dictionary. */
  predicate PlaceGiven(selected: Option<Place>) {
    selected.Some? && selected.value.NonEmpty()
  }

  /** An f-string renders a missing name as "None". */
  function ShowOptional(o: Option<string>): string {
    if o.Some? then o.value else "None"
  }

  function ConfirmationQuestion(place: Place, people: int, time: string): string {
    "Should I proceed with booking a table at " + ShowOptional(place.name)
    + " for " + IntToString(people) + " people at " + time + "?"
  }

  /** `evaluate_booking_state(selected_place, booking_time, people_count, user_confirmed)`. */
  function EvaluateBookingState(
    selected: Option<Place>, bookingTime: Option<string>, peopleCount: Option<int>, userConfirmed: bool
  ): (r: BookingState)
    ensures r.Ready? <==>
      PlaceGiven(selected) && TruthyStr(bookingTime) && TruthyInt(peopleCount) && userConfirmed
    ensures r.Error? <==> !PlaceGiven(selected)
    ensures r.Status() in {"error", "need_info", "need_confirmation", "ready"}
  {
    if !PlaceGiven(selected) then Error(NoPlaceMessage)
    else if !TruthyStr(bookingTime) then NeedInfo("time", AskTime)
    else if !TruthyInt(peopleCount) then NeedInfo("people", AskPeople)
    else if !userConfirmed then
      NeedConfirmation(ConfirmationQuestion(selected.value, peopleCount.value, bookingTime.value))
    else Ready
  }

  // ---------------------------------------------------------------
  // Properties
  // ---------------------------------------------------------------

  /** The checks run in the order place, time, people, confirmation, and the first one that fails decides. */
  lemma FirstFailingCheckDecides(
    selected: Option<Place>, bookingTime: Option<string>, peopleCount: Option<int>, userConfirmed: bool)
    ensures var r := EvaluateBookingState(selected, bookingTime, peopleCount, userConfirmed);
      && (!PlaceGiven(selected) ==> r == Error(NoPlaceMessage))
      && (PlaceGiven(selected) && !TruthyStr(bookingTime) ==> r == NeedInfo("time", AskTime))
      && (PlaceGiven(selected) && TruthyStr(bookingTime) && !TruthyInt(peopleCount)
          ==> r == NeedInfo("people", AskPeople))
      && (PlaceGiven(selected) && TruthyStr(bookingTime) && TruthyInt(peopleCount) && !userConfirmed
          ==> r.NeedConfirmation?)
  {
  }

  /** Zero people and an empty time count as missing. */
  lemma ZeroAndEmptyAreMissing(place: Place, confirmed: bool)
    requires place.NonEmpty()
    ensures EvaluateBookingState(Some(place), Some(""), Some(4), confirmed) == NeedInfo("time", AskTime)
    ensures EvaluateBookingState(Some(place), Some("19:00"), Some(0), confirmed) == NeedInfo("people", AskPeople)
  {
  }

  /** The confirmation question names the place, the party size and the time. */
  lemma QuestionQuotesDetails(place: Place, bookingTime: string, people: int)
    requires place.NonEmpty() && bookingTime != "" && people != 0
    ensures var r := EvaluateBookingState(Some(place), Some(bookingTime), Some(people), false);
      && r.NeedConfirmation?
      && Contains(r.question, ShowOptional(place.name))
      && Contains(r.question, IntToString(people))
      && Contains(r.question, bookingTime)
  {
    ContainsEachPiece("Should I proceed with booking a table at ", ShowOptional(place.name), " for ",
                      IntToString(people), " people at ", bookingTime, "?");
  }

  /** A string built by alternating fixed text and three inserted pieces contains each piece. */
  lemma ContainsEachPiece(a: string, x: string, b: string, y: string, c: string, z: string, d: string)
    ensures var q := a + x + b + y + c + z + d;
      Contains(q, x) && Contains(q, y) && Contains(q, z)
  {
    var q := a + x + b + y + c + z + d;
    assert q == a + x + (b + y + c + z + d);
    ContainsMiddle(a, x, b + y + c + z + d);
    assert q == (a + x + b) + y + (c + z + d);
    ContainsMiddle(a + x + b, y, c + z + d);
    assert q == (a + x + b + y + c) + z + d;
    ContainsMiddle(a + x + b + y + c, z, d);
  }

  // ---------------------------------------------------------------
  // build_booking_payload
  // ---------------------------------------------------------------

  datatype BookingPayload = BookingPayload(
    restaurantName: Option<string>,
    address: Option<string>,
    placeId: Option<string>,
    time: string,
    people: int,
    userName: string,
    contact: Option<string>)

  /** `build_booking_payload(...)`; `user_contact` defaults to `None`. */
  function BuildBookingPayload(
    place: Place, bookingTime: string, peopleCount: int, userName: string, userContact: Option<string>
  ): (p: BookingPayload)
    ensures p.restaurantName == place.name && p.address == place.address && p.placeId == place.placeId
    ensures p.time == bookingTime && p.people == peopleCount && p.userName == userName
    ensures p.contact == userContact
  {
    BookingPayload(place.name, place.address, place.placeId, bookingTime, peopleCount, userName, userContact)
  }

  /** The payload carries exactly the name, party size and time that the confirmation question asked about. */
  lemma PayloadMatchesQuestion(place: Place, bookingTime: string, people: int, userName: string)
    requires place.NonEmpty() && bookingTime != "" && people != 0
    ensures var p := BuildBookingPayload(place, bookingTime, people, userName, None);
      && EvaluateBookingState(Some(place), Some(p.time), Some(p.people), false)
         == NeedConfirmation(ConfirmationQuestion(place, p.people, p.time))
      && EvaluateBookingState(Some(place), Some(p.time), Some(p.people), true) == Ready
      && ShowOptional(p.restaurantName) == ShowOptional(place.name)
      && p.contact == None
  {
  }
}

/**
 * BookingMCP: picks a booking strategy for a place and returns the action the
 * client should take (deep link, plain handoff, or a reservation search).
 *
 * Parsing an ISO-8601 date-time and URL percent-encoding are library calls;
 * they are parameters here.  `parseIso(s)` is `Some((formatted, readable))`
 * when `datetime.fromisoformat(s)` succeeds, the two strings being its
 * "%Y-%m-%dT%H:%M" and "%I:%M %p" renderings, and `None` when it raises.
 */
module BookingMcp {
  import opened Wrappers
  import opened Text

  datatype BookingAction = BookingAction(
    status: string,
    provider: string,
    confidence: string,
    actionUrl: string,
    message: string)

  const GoogleSearchPrefix: string := "https://www.google.com/search?q="

  /** `str.replace(old, new)` for a single-character `old`: every occurrence is replaced. */
  function ReplaceChar(s: string, target: char, replacement: string): (r: string)
    ensures target !in replacement ==> target !in r
    ensures target !in s ==> r == s
    ensures |r| >= |s| || |replacement| == 0
  {
    if s == [] then []
    else (if s[0] == target then replacement else [s[0]]) + ReplaceChar(s[1..], target, replacement)
  }

  /** The two strings the parsed booking time contributes: formatted and readable. */
  function TimeStrings(bookingTime: string, parseIso: string -> Option<(string, string)>): (t: (string, string))
    ensures parseIso(ReplaceChar(bookingTime, 'Z', "+00:00")).None? ==> t == ("", "requested time")
    ensures parseIso(ReplaceChar(bookingTime, 'Z', "+00:00")).Some? ==>
      t == parseIso(ReplaceChar(bookingTime, 'Z', "+00:00")).value
  {
    match parseIso(ReplaceChar(bookingTime, 'Z', "+00:00"))
    case Some(p) => p
    case None => ("", "requested time")
  }

  /** The four strategies; each fixes the status, provider and confidence entries of the action. */
  datatype Provider = OpenTable | Resy | DirectWebsite | GoogleSearch
  {
    function Name(): string {
      match this
      case OpenTable => "OpenTable"
      case Resy => "Resy"
      case DirectWebsite => "Direct Website"
      case GoogleSearch => "Google Search"
    }

    function Status(): string {
      if this == GoogleSearch then "fallback" else "handoff"
    }

    function Confidence(): string {
      match this
      case OpenTable => "high"
      case Resy => "high"
      case DirectWebsite => "medium"
      case GoogleSearch => "low"
    }
  }

  /** `if raw_url:` — a URL that is present and not empty. */
  predicate HasUrl(rawUrl: Option<string>) {
    rawUrl.Some? && rawUrl.value != ""
  }

  /** The strategy selection: known providers by substring, "opentable" first, else the site itself, else a search. */
  function ChooseProvider(rawUrl: Option<string>): (p: Provider)
    ensures p == GoogleSearch <==> !HasUrl(rawUrl)
    ensures p == OpenTable <==> HasUrl(rawUrl) && Contains(rawUrl.value, "opentable")
    ensures p == Resy <==>
      HasUrl(rawUrl) && !Contains(rawUrl.value, "opentable") && Contains(rawUrl.value, "resy")
    ensures p == DirectWebsite <==>
      HasUrl(rawUrl) && !Contains(rawUrl.value, "opentable") && !Contains(rawUrl.value, "resy")
  {
    if HasUrl(rawUrl) then
      if Contains(rawUrl.value, "opentable") then OpenTable
      else if Contains(rawUrl.value, "resy") then Resy
      else DirectWebsite
    else GoogleSearch
  }

  /** The "action_url" entry: the deep link, the URL itself, or a reservation search. */
  function ActionUrl(
    p: Provider, rawUrl: Option<string>, formatted: string, placeName: string, address: string, quote: string -> string
  ): (u: string)
    requires p != GoogleSearch ==> rawUrl.Some?
    ensures p == OpenTable ==>
      StartsWith(u, rawUrl.value + "?dateTime=" + formatted) && EndsWith(u, formatted + "&covers=2")
    ensures p == OpenTable ==>
      StartsWith(u, rawUrl.value + "?dateTime=") && EndsWith(u, "&covers=2")
    ensures p == GoogleSearch ==> StartsWith(u, GoogleSearchPrefix)
  {
    match p
    case OpenTable =>
      var u := rawUrl.value + "?dateTime=" + formatted + "&covers=2";
      assert u == (rawUrl.value + "?dateTime=" + formatted) + "&covers=2";
      assert u == (rawUrl.value + "?dateTime=") + (formatted + "&covers=2");
      EndsWithAppended(rawUrl.value + "?dateTime=", formatted + "&covers=2");
      StartsWithLonger(u, rawUrl.value + "?dateTime=", formatted);
      EndsWithShorter(u, formatted, "&covers=2");
      u
    case Resy => rawUrl.value
    case DirectWebsite => rawUrl.value
    case GoogleSearch => GoogleSearchPrefix + quote("reservations at " + placeName + " " + address)
  }

  /** The "message" entry: always names the place; the OpenTable one ends with the readable time. */
  function Message(p: Provider, placeName: string, readable: string): (m: string)
    ensures Contains(m, placeName)
    ensures p == OpenTable ==> EndsWith(m, " at " + readable + "...")
  {
    match p
    case OpenTable =>
      var tail := " at " + readable + "...";
      ContainsMiddle("Opening OpenTable for ", placeName, tail);
      var m := "Opening OpenTable for " + placeName + " at " + readable + "...";
      assert m == "Opening OpenTable for " + placeName + tail;
      EndsWithAppended("Opening OpenTable for " + placeName, tail);
      m
    case Resy =>
      ContainsMiddle("Redirecting to Resy for ", placeName, "...");
      "Redirecting to Resy for " + placeName + "..."
    case DirectWebsite =>
      ContainsMiddle("Checking ", placeName, "'s official website...");
      "Checking " + placeName + "'s official website..."
    case GoogleSearch =>
      ContainsMiddle("No direct booking link found. Searching reservations for ", placeName, "...");
      "No direct booking link found. Searching reservations for " + placeName + "..."
  }

  /** `generate_booking_action(place_name, address, booking_time, raw_url)`. */
  function GenerateBookingAction(
    placeName: string, address: string, bookingTime: string, rawUrl: Option<string>,
    parseIso: string -> Option<(string, string)>, quote: string -> string
  ): (a: BookingAction)
    ensures var p := ChooseProvider(rawUrl);
      a.status == p.Status() && a.provider == p.Name() && a.confidence == p.Confidence()
    ensures ChooseProvider(rawUrl) in {Resy, DirectWebsite} ==> a.actionUrl == rawUrl.value
    ensures ChooseProvider(rawUrl) == OpenTable ==>
      a.actionUrl == rawUrl.value + "?dateTime=" + TimeStrings(bookingTime, parseIso).0 + "&covers=2"
      && StartsWith(a.actionUrl, rawUrl.value + "?dateTime=") && EndsWith(a.actionUrl, "&covers=2")
    ensures ChooseProvider(rawUrl) == GoogleSearch ==>
      a.actionUrl == GoogleSearchPrefix + quote("reservations at " + placeName + " " + address)
    ensures ChooseProvider(rawUrl) == OpenTable ==>
      EndsWith(a.message, " at " + TimeStrings(bookingTime, parseIso).1 + "...")
    ensures Contains(a.message, placeName)
  {
    var p := ChooseProvider(rawUrl);
    var (formatted, readable) := TimeStrings(bookingTime, parseIso);
    var u := ActionUrl(p, rawUrl, formatted, placeName, address, quote);
    BookingAction(p.Status(), p.Name(), p.Confidence(), u, Message(p, placeName, readable))
  }

  // ---------------------------------------------------------------
  // Properties
  // ---------------------------------------------------------------

  lemma StartsWithLonger(s: string, a: string, b: string)
    requires StartsWith(s, a + b)
    ensures StartsWith(s, a)
  {
    assert s[..|a|] == (a + b)[..|a|];
  }

  lemma EndsWithShorter(s: string, a: string, b: string)
    requires EndsWith(s, a + b)
    ensures EndsWith(s, b)
  {
    assert s[|s| - |b|..] == (a + b)[|a|..];
  }

  /** A trailing "Z" becomes an explicit UTC offset before parsing. */
  lemma ZuluBecomesOffset(s: string)
    requires 'Z' !in s
    ensures ReplaceChar(s + "Z", 'Z', "+00:00") == s + "+00:00"
  {
    ReplaceCharAppend(s, "Z", 'Z', "+00:00");
  }

  lemma {:induction false} ReplaceCharAppend(s: string, t: string, target: char, replacement: string)
    ensures ReplaceChar(s + t, target, replacement)
         == ReplaceChar(s, target, replacement) + ReplaceChar(t, target, replacement)
    decreases |s|
  {
    if s == [] {
      assert s + t == t;
    } else {
      assert (s + t)[1..] == s[1..] + t;
      ReplaceCharAppend(s[1..], t, target, replacement);
    }
  }

  /** A handoff happens exactly when there is a URL; the confidence follows the provider. */
  lemma HandoffIffUrl(
    placeName: string, address: string, bookingTime: string, rawUrl: Option<string>,
    parseIso: string -> Option<(string, string)>, quote: string -> string)
    ensures var a := GenerateBookingAction(placeName, address, bookingTime, rawUrl, parseIso, quote);
      && (a.status == "handoff" <==> HasUrl(rawUrl))
      && (a.status == "fallback" <==> !HasUrl(rawUrl))
      && (a.confidence == "high" <==> a.provider in {"OpenTable", "Resy"})
      && (a.confidence == "low" <==> a.provider == "Google Search")
  {
  }

  /** "opentable" is checked before "resy": a URL mentioning both gets the OpenTable deep link. */
  lemma OpenTableWins(
    placeName: string, address: string, bookingTime: string, url: string,
    parseIso: string -> Option<(string, string)>, quote: string -> string)
    requires Contains(url, "opentable") && Contains(url, "resy")
    ensures GenerateBookingAction(placeName, address, bookingTime, Some(url), parseIso, quote).provider == "OpenTable"
  {
    ContainsLength(url, "opentable");
  }

  /** Matching is case-sensitive: a URL with no lower-case "o" or "r" (say, an upper-case host) is a generic website. */
  lemma MatchingIsCaseSensitive(
    placeName: string, address: string, bookingTime: string, url: string,
    parseIso: string -> Option<(string, string)>, quote: string -> string)
    requires url != "" && 'o' !in url && 'r' !in url
    ensures GenerateBookingAction(placeName, address, bookingTime, Some(url), parseIso, quote).provider
         == "Direct Website"
  {
    AbsentFirstCharNotContained(url, "opentable");
    AbsentFirstCharNotContained(url, "resy");
  }

  /** A mixed-case host is not recognised: "www.OpenTable.com" gets no deep link, only the direct-website handoff. */
  lemma MixedCaseHostIsDirect(
    placeName: string, address: string, bookingTime: string,
    parseIso: string -> Option<(string, string)>, quote: string -> string)
    ensures GenerateBookingAction(placeName, address, bookingTime, Some("https://www.OpenTable.com"), parseIso, quote).provider
         == "Direct Website"
  {
    var head, tail := "https://www.OpenTable.c", "om";
    assert head + tail == "https://www.OpenTable.com";
    assert 'o' !in head && 'r' !in head + tail;
    FirstCharOnlyInShortTail(head, tail, "opentable");
    AbsentFirstCharNotContained(head + tail, "resy");
  }

  /** When `sub`'s first character occurs only in a tail shorter than `sub`, the string does not contain `sub`. */
  lemma FirstCharOnlyInShortTail(head: string, tail: string, sub: string)
    requires sub != [] && sub[0] !in head && |tail| < |sub|
    ensures !Contains(head + tail, sub)
  {
    var s := head + tail;
    ContainsIff(s, sub);
    forall i | 0 <= i < |head| ensures !OccursAt(s, sub, i) {
      if i + |sub| <= |s| {
        assert s[i..i + |sub|][0] == head[i];
      }
    }
  }

  lemma {:induction false} AbsentFirstCharNotContained(s: string, sub: string)
    requires sub != [] && sub[0] !in s
    ensures !Contains(s, sub)
    decreases |s|
  {
    if s != [] {
      assert s[0] in s;
      assert forall c :: c in s[1..] ==> c in s;
      AbsentFirstCharNotContained(s[1..], sub);
    }
  }

  /** An unparsable time still yields an OpenTable link, with an empty dateTime, and a generic time in the message. */
  lemma UnparsableTimeOnOpenTable(
    placeName: string, address: string, bookingTime: string, url: string,
    parseIso: string -> Option<(string, string)>, quote: string -> string)
    requires Contains(url, "opentable")
    requires parseIso(ReplaceChar(bookingTime, 'Z', "+00:00")).None?
    ensures var a := GenerateBookingAction(placeName, address, bookingTime, Some(url), parseIso, quote);
      && a.actionUrl == url + "?dateTime=&covers=2"
      && a.message == "Opening OpenTable for " + placeName + " at requested time..."
  {
    ContainsLength(url, "opentable");
    var a := GenerateBookingAction(placeName, address, bookingTime, Some(url), parseIso, quote);
    assert a == BookingAction("handoff", "OpenTable", "high",
      ActionUrl(OpenTable, Some(url), "", placeName, address, quote),
      Message(OpenTable, placeName, "requested time"));
    DeepLinkWithoutTime(url, placeName, address, quote);
  }

  lemma DeepLinkWithoutTime(url: string, placeName: string, address: string, quote: string -> string)
    ensures ActionUrl(OpenTable, Some(url), "", placeName, address, quote) == url + "?dateTime=&covers=2"
    ensures Message(OpenTable, placeName, "requested time")
         == "Opening OpenTable for " + placeName + " at requested time..."
  {
    assert url + "?dateTime=" + "" + "&covers=2" == url + "?dateTime=&covers=2";
    assert "Opening OpenTable for " + placeName + " at " + "requested time" + "..."
        == "Opening OpenTable for " + placeName + " at requested time...";
  }

  /** An empty URL is treated like a missing one. */
  lemma EmptyUrlFallsBack(
    placeName: string, address: string, bookingTime: string,
    parseIso: string -> Option<(string, string)>, quote: string -> string)
    ensures GenerateBookingAction(placeName, address, bookingTime, Some(""), parseIso, quote)
         == GenerateBookingAction(placeName, address, bookingTime, None, parseIso, quote)
  {
  }

  /** Only the OpenTable deep link depends on the booking time, and only the fallback search on the address. */
  lemma WhatEachStrategyUses(
    placeName: string, address1: string, address2: string, time1: string, time2: string, url: string,
    parseIso: string -> Option<(string, string)>, quote: string -> string)
    requires url != ""
    ensures !Contains(url, "opentable") ==>
      GenerateBookingAction(placeName, address1, time1, Some(url), parseIso, quote)
      == GenerateBookingAction(placeName, address2, time2, Some(url), parseIso, quote)
    ensures GenerateBookingAction(placeName, address1, time1, Some(url), parseIso, quote)
         == GenerateBookingAction(placeName, address2, time1, Some(url), parseIso, quote)
    ensures GenerateBookingAction(placeName, address1, time1, None, parseIso, quote)
         == GenerateBookingAction(placeName, address1, time2, None, parseIso, quote)
  {
  }
}

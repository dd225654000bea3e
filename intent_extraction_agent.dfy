/**
 * IntentExtractionAgent: builds the prompt for the language model, cleans up
 * its reply and hands the result to the schema validator.
 *
 * The model itself (`generate`, standing for `response.text` of the Gemini
 * client) and the JSON schema validation of `UserIntent` (`validate`, which
 * is `None` when pydantic raises) are parameters.
 */
module IntentExtraction {
  import opened Wrappers
  import opened Text

  /** The validated intent object. */
  datatype UserIntent = UserIntent(
    descriptors: seq<string>,
    preferences: map<string, real>,
    placeTypes: seq<string>,
    constraints: seq<string>,
    timeOfDay: Option<string>,
    bookingRequired: bool)

  datatype ExtractError =
    | EmptyResponse                 // RuntimeError("Empty response from Gemini")
    | InvalidIntent(message: string) // ValueError raised by `extract`

  const SystemPrompt: string :=
    "\nYou are an intent extraction agent.\n\nYour task:\n"
    + "1. Extract descriptive phrases exactly as the user says them.\n"
    + "2. Project them into abstract preference dimensions with values between 0 and 1.\n\n"
    + "Rules:\n- Do NOT restrict vocabulary\n- Do NOT invent information\n"
    + "- Be conservative with scores\n- Output ONLY valid JSON\n"
    + "- Do NOT add explanations or markdown\n"

  const FormatBlock: string :=
    "\n\nReturn JSON strictly in this format:\n\n{\n"
    + "  \"descriptors\": string[],\n"
    + "  \"preferences\": { \"<dimension>\": number },\n"
    + "  \"place_types\": string[],\n"
    + "  \"constraints\": string[],\n"
    + "  \"time_of_day\": string | null,\n"
    + "  \"booking_required\": boolean\n"
    + "}\n\nUser query:\n"

  const InvalidIntentHeader: string := "Invalid intent JSON returned by Gemini:\n"

  /** The prompt sent to the model: the system prompt, the expected JSON shape, then the query in double quotes. */
  function Prompt(userQuery: string): (p: string)
    ensures StartsWith(p, "\n" + SystemPrompt)
    ensures Contains(p, "\"" + userQuery + "\"")
    ensures EndsWith(p, userQuery + "\"\n")
  {
    PromptShape("\n" + SystemPrompt, FormatBlock, userQuery);
    "\n" + SystemPrompt + FormatBlock + "\"" + userQuery + "\"\n"
  }

  lemma PromptShape(lead: string, format: string, q: string)
    ensures var p := lead + format + "\"" + q + "\"\n";
      && StartsWith(p, lead)
      && Contains(p, "\"" + q + "\"")
      && EndsWith(p, q + "\"\n")
  {
    var p := lead + format + "\"" + q + "\"\n";
    assert p == lead + (format + "\"" + q + "\"\n");
    assert p == (lead + format) + ("\"" + q + "\"") + "\n";
    ContainsMiddle(lead + format, "\"" + q + "\"", "\n");
    assert p == (lead + format + "\"") + (q + "\"\n");
    EndsWithAppended(lead + format + "\"", q + "\"\n");
  }

  /** `call_gemini(prompt)`: an empty or missing reply text is an error, otherwise the text with whitespace stripped. */
  function CallGemini(prompt: string, generate: string -> Option<string>): (r: Result<string, ExtractError>)
    ensures r.Failure? <==> generate(prompt).None? || generate(prompt).value == ""
    ensures r.Failure? ==> r.error == EmptyResponse
    ensures r.Success? ==> r.value == Strip(generate(prompt).value)
    ensures r.Success? ==> r.value == [] || (!IsSpace(r.value[0]) && !IsSpace(r.value[|r.value| - 1]))
  {
    match generate(prompt)
    case None => Failure(EmptyResponse)
    case Some(text) => if text == "" then Failure(EmptyResponse) else Success(Strip(text))
  }

  /** The clean-up applied to the reply: strip, drop one leading "```json" and one trailing "```", strip again. */
  function Clean(raw: string): (c: string)
    ensures c == [] || (!IsSpace(c[0]) && !IsSpace(c[|c| - 1]))
  {
    Strip(RemoveSuffix(RemovePrefix(Strip(raw), "```json"), "```"))
  }

  /** `extract(user_query)`. */
  function Extract(
    userQuery: string, generate: string -> Option<string>, validate: string -> Option<UserIntent>
  ): (r: Result<UserIntent, ExtractError>)
    ensures r.Success? <==>
      CallGemini(Prompt(userQuery), generate).Success?
      && validate(Clean(CallGemini(Prompt(userQuery), generate).value)).Some?
    ensures r.Success? ==> validate(Clean(CallGemini(Prompt(userQuery), generate).value)) == Some(r.value)
    ensures CallGemini(Prompt(userQuery), generate).Failure? ==> r == Failure(EmptyResponse)
    ensures r.Failure? && r.error.InvalidIntent? ==>
      r.error.message == InvalidIntentHeader + CallGemini(Prompt(userQuery), generate).value
  {
    match CallGemini(Prompt(userQuery), generate)
    case Failure(e) => Failure(e)
    case Success(raw) =>
      match validate(Clean(raw))
      case Some(intent) => Success(intent)
      case None => Failure(InvalidIntent(InvalidIntentHeader + raw))
  }

  // ---------------------------------------------------------------
  // Properties of the clean-up
  // ---------------------------------------------------------------

  /** A reply wrapped in a "```json ... ```" fence is reduced to its stripped body. */
  lemma FencedReplyUnwrapped(body: string)
    ensures Clean("```json" + body + "```") == Strip(body)
  {
    var raw := "```json" + body + "```";
    StripNoSpace(raw);
    assert raw == "```json" + (body + "```");
    assert RemovePrefix(raw, "```json") == body + "```";
    assert RemoveSuffix(body + "```", "```") == body;
  }

  /** A reply with no fence is only stripped. */
  lemma UnfencedReplyOnlyStripped(raw: string)
    requires !StartsWith(Strip(raw), "```json") && !EndsWith(Strip(raw), "```")
    ensures Clean(raw) == Strip(raw)
  {
    StripIdempotent(raw);
  }

  /** The reply is already stripped by the client; stripping it once more changes nothing. */
  lemma CleanAfterClientStrip(raw: string)
    ensures Clean(Strip(raw)) == Clean(raw)
  {
    StripIdempotent(raw);
  }

  /** An opening fence other than "```json" stays in the cleaned text; only the closing "```" is removed. */
  lemma OtherOpeningFenceKept(opening: string, body: string)
    requires opening != [] && !IsSpace(opening[0]) && !IsSpace(opening[|opening| - 1])
    requires !StartsWith(opening + body + "```", "```json")
    ensures Clean(opening + body + "```") == Strip(opening + body)
    ensures StartsWith(Clean(opening + body + "```"), opening)
  {
    var raw := opening + body + "```";
    var inner := opening + body;
    assert raw == inner + "```";
    assert raw[0] == opening[0];
    StripNoSpace(raw);
    assert RemoveSuffix(raw, "```") == inner;
    assert inner[0] == opening[0];
    assert TrimStart(inner) == inner;
    TrimEndKeepsPrefix(opening, body);
  }

  /** The prefix test is case-sensitive: a "```JSON" fence is not removed. */
  lemma UppercaseFenceKept(body: string)
    ensures StartsWith(Clean("```JSON" + body + "```"), "```JSON")
  {
    var raw := "```JSON" + body + "```";
    assert !StartsWith(raw, "```json") by {
      assert raw[3] == 'J';
    }
    OtherOpeningFenceKept("```JSON", body);
  }

  /** A bare "```" opening fence (no language tag) is not removed either. */
  lemma BareFenceKept(body: string)
    requires body != [] && body[0] != 'j'
    ensures StartsWith(Clean("```" + body + "```"), "```")
  {
    var raw := "```" + body + "```";
    assert !StartsWith(raw, "```json") by {
      assert raw[3] == body[0];
    }
    OtherOpeningFenceKept("```", body);
  }

  /** Trailing whitespace is only removed up to a prefix that ends in a non-space character. */
  lemma TrimEndKeepsPrefix(p: string, b: string)
    requires p != [] && !IsSpace(p[|p| - 1])
    ensures StartsWith(TrimEnd(p + b), p)
  {
    var s := p + b;
    var r := TrimEnd(s);
    assert s[|p| - 1] == p[|p| - 1];
    assert |r| >= |p|;
    assert r[..|p|] == s[..|p|];
    assert s[..|p|] == p;
  }

  /** Neither end of `s` is whitespace. */
  predicate NoOuterSpace(s: string) {
    s == [] || (!IsSpace(s[0]) && !IsSpace(s[|s| - 1]))
  }

  /**
   * Whatever the model returns, the validator only ever sees text with no
   * whitespace at either end: two validators that agree on all such texts
   * give the same extraction.
   */
  lemma ValidatorSeesTrimmedText(
    userQuery: string, generate: string -> Option<string>,
    validate1: string -> Option<UserIntent>, validate2: string -> Option<UserIntent>)
    requires forall t :: NoOuterSpace(t) ==> validate1(t) == validate2(t)
    ensures Extract(userQuery, generate, validate1) == Extract(userQuery, generate, validate2)
  {
    var reply := CallGemini(Prompt(userQuery), generate);
    if reply.Success? {
      var c := Clean(reply.value);
      assert NoOuterSpace(c);
      assert validate1(c) == validate2(c);
    }
  }

  /** The error message quotes the reply verbatim after its fixed header. */
  lemma InvalidReplyQuoted(
    userQuery: string, generate: string -> Option<string>, validate: string -> Option<UserIntent>)
    requires generate(Prompt(userQuery)).Some? && generate(Prompt(userQuery)).value != ""
    requires validate(Clean(Strip(generate(Prompt(userQuery)).value))).None?
    ensures var r := Extract(userQuery, generate, validate);
      && r.Failure? && r.error.InvalidIntent?
      && StartsWith(r.error.message, InvalidIntentHeader)
      && EndsWith(r.error.message, Strip(generate(Prompt(userQuery)).value))
  {
    var raw := Strip(generate(Prompt(userQuery)).value);
    assert CallGemini(Prompt(userQuery), generate) == Success(raw);
    var r := Extract(userQuery, generate, validate);
    assert r == Failure(InvalidIntent(InvalidIntentHeader + raw));
    EndsWithAppended(InvalidIntentHeader, raw);
  }
}

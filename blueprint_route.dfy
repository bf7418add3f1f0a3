/**
 * The generate-blueprint route (app/api/generate-blueprint/route.ts): build a
 * prompt from the request, send it to the model, cut the JSON object out of
 * the reply and coerce it into the fourteen fields of a business blueprint.
 */
module BlueprintRoute {
  import opened Wrappers
  import opened Json
  import Text

  /** The five text fields of BusinessBlueprint (types/blueprint-types.ts). */
  const TextKeys: set<string> :=
    {"title", "subtitle", "situationSummary", "recommendedDirection", "businessModelSummary"}

  /** The nine list fields of BusinessBlueprint. */
  const ListKeys: set<string> :=
    {"exampleOffers", "monetization", "howToFindCustomers", "stepByStepGuide", "dayOneActions",
     "first30Days", "keyRisks", "howToDeRisk", "growthLevers"}

  /**
   * `extractJson`: parse the brace span of the reply; `{}` when there is no
   * span and `{}` when the span does not parse. It never throws.
   */
  function ExtractJson(content: string, parse: Parser): (r: Json)
    ensures r.JObj?
    ensures Text.BraceSpan(content).None? ==> r == JObj(map[])
    ensures Text.BraceSpan(content).Some? && parse(Text.BraceSpan(content).value).None? ==> r == JObj(map[])
    ensures Text.BraceSpan(content).Some? && parse(Text.BraceSpan(content).value).Some? ==>
      r == parse(Text.BraceSpan(content).value).value
    ensures r != JObj(map[]) ==>
      Text.BraceSpan(content).Some? && parse(Text.BraceSpan(content).value) == Some(r)
  {
    match Text.BraceSpan(content)
    case None => JObj(map[])
    case Some(span) =>
      match parse(span)
      case None => JObj(map[])
      case Some(v) => v
  }

  /** `blueprint.key ?? ""`: no type check, only null and missing are replaced. */
  function TextField(parsed: map<string, Json>, key: string): Json {
    Coalesce(Get(parsed, key), JStr(""))
  }

  /** `Array.isArray(blueprint.key) ? blueprint.key : []`: elements are not filtered. */
  function ListField(parsed: map<string, Json>, key: string): Json {
    match Get(parsed, key)
    case Some(JArr(items)) => JArr(items)
    case _ => JArr([])
  }

  /** `finalBlueprint`: the object literal that coerces the parsed reply. */
  function FinalBlueprint(parsed: map<string, Json>): (r: map<string, Json>)
    ensures r.Keys == TextKeys + ListKeys
    ensures forall k :: k in r ==> r[k] != JNull
    ensures forall k :: k in TextKeys ==>
      r[k] == (if Nullish(Get(parsed, k)) then JStr("") else parsed[k])
    ensures forall k :: k in ListKeys ==>
      r[k] == (if k in parsed && parsed[k].JArr? then parsed[k] else JArr([]))
  {
    // One entry per field of the object literal: `?? ""` for the text
    // fields, the `Array.isArray` test for the list fields.
    map k | k in TextKeys + ListKeys ::
      if k in TextKeys then TextField(parsed, k) else ListField(parsed, k)
  }

  /** Coercing an already coerced blueprint changes nothing. */
  lemma FinalBlueprintIdempotent(parsed: map<string, Json>)
    ensures FinalBlueprint(FinalBlueprint(parsed)) == FinalBlueprint(parsed)
  {
    var once := FinalBlueprint(parsed);
    var twice := FinalBlueprint(once);
    forall k | k in twice
      ensures twice[k] == once[k]
    {
      if k in TextKeys {
        assert !Nullish(Get(once, k));
      }
    }
  }

  /**
   * Neither kind of field is type-checked: a number in a text field passes
   * through, and a list field keeps elements that are not strings.
   */
  lemma FieldsNotTypeChecked()
    ensures FinalBlueprint(map["title" := JNum(42)])["title"] == JNum(42)
    ensures FinalBlueprint(map["keyRisks" := JArr([JNum(1), JNull])])["keyRisks"] == JArr([JNum(1), JNull])
    ensures FinalBlueprint(map["monetization" := JStr("x")])["monetization"] == JArr([])
  {
  }

  /** The template text up to the user input (the JSON shape asked for). */
  const BlueprintPromptHead: string := "\nYou are an AI that generates a structured business blueprint.\n\nReturn ONLY valid JSON in the following format:\n\n{\n  \"title\": \"...\",\n  \"subtitle\": \"...\",\n  \"situationSummary\": \"...\",\n  \"recommendedDirection\": \"...\",\n  \"businessModelSummary\": \"...\",\n  \"exampleOffers\": [\"...\", \"...\"],\n  \"monetization\": [\"...\", \"...\"],\n  \"howToFindCustomers\": [\"...\", \"...\"],\n  \"stepByStepGuide\": [\"...\", \"...\"],\n  \"dayOneActions\": [\"...\", \"...\"],\n  \"first30Days\": [\"...\", \"...\"],\n  \"keyRisks\": [\"...\", \"...\"],\n  \"howToDeRisk\": [\"...\", \"...\"],\n  \"growthLevers\": [\"...\", \"...\"]\n}\n\nUser input:\n"

  const BlueprintPromptMiddle: string := "\n\nChoices history:\n"

  /** The prompt template, given the rendered user input and history. */
  function BlueprintPrompt(userInputText: string, historyText: string): string {
    BlueprintPromptHead + userInputText + BlueprintPromptMiddle + historyText + "\n"
  }

  /**
   * `body.userInput ?? ""` and `body.history ?? []` for a body that is not
   * null (reading a property of a null body throws).
   */
  function RequestInputs(body: Json): (r: (Json, Json))
    requires body != JNull
    ensures Nullish(Member(body, "userInput")) ==> r.0 == JStr("")
    ensures Nullish(Member(body, "history")) ==> r.1 == JArr([])
    ensures !Nullish(Member(body, "userInput")) ==> Member(body, "userInput") == Some(r.0)
    ensures !Nullish(Member(body, "history")) ==> Member(body, "history") == Some(r.1)
  {
    (Coalesce(Member(body, "userInput"), JStr("")), Coalesce(Member(body, "history"), JArr([])))
  }

  /** The prompt for a non-null body; None where `${userInput}` throws. */
  function PromptFor(body: Json, rt: Runtime): (r: Option<string>)
    requires body != JNull
    ensures r.None? <==> Interpolate(RequestInputs(body).0, rt).None?
  {
    match Interpolate(RequestInputs(body).0, rt)
    case None => None
    case Some(userInputText) => Some(BlueprintPrompt(userInputText, rt.stringify(RequestInputs(body).1)))
  }

  /**
   * The prompt carries the interpolated user input and the serialised
   * history; a string user input is interpolated as it is.
   */
  lemma PromptContainsRequest(body: Json, rt: Runtime)
    requires body != JNull
    ensures PromptFor(body, rt).Some? ==>
      && Text.Contains(PromptFor(body, rt).value, Interpolate(RequestInputs(body).0, rt).value)
      && Text.Contains(PromptFor(body, rt).value, rt.stringify(RequestInputs(body).1))
    ensures RequestInputs(body).0.JStr? ==>
      PromptFor(body, rt).Some? && Text.Contains(PromptFor(body, rt).value, RequestInputs(body).0.s)
  {
    var (u, h) := RequestInputs(body);
    if Interpolate(u, rt).Some? {
      Text.ContainsBoth(BlueprintPromptHead, Interpolate(u, rt).value, BlueprintPromptMiddle, rt.stringify(h), "\n");
    }
  }

  const ServerErrorMessage: string := "Server error while generating blueprint"

  /** The catch block: status 500 with `{ success: false, error }`. */
  const ErrorResponse: Response :=
    Response(500, JObj(map["success" := JBool(false), "error" := JStr(ServerErrorMessage)]))

  function SuccessResponse(blueprint: map<string, Json>): Response {
    Response(200, JObj(map["success" := JBool(true), "blueprint" := JObj(blueprint)]))
  }

  /** The success body `{ success: true, blueprint }` with a fourteen-field blueprint. */
  predicate IsBlueprintEnvelope(body: Json) {
    && body.JObj?
    && body.fields.Keys == {"success", "blueprint"}
    && body.fields["success"] == JBool(true)
    && body.fields["blueprint"].JObj?
    && body.fields["blueprint"].fields.Keys == TextKeys + ListKeys
  }

  lemma SuccessIsEnvelope(blueprint: map<string, Json>)
    requires blueprint.Keys == TextKeys + ListKeys
    ensures SuccessResponse(blueprint).status == 200
    ensures IsBlueprintEnvelope(SuccessResponse(blueprint).body)
  {
  }

  /**
   * `POST`: `body` is None when `req.json()` throws. Every exception (an
   * unreadable or null body, a user input that `${}` cannot convert, a
   * failed model call) ends in ErrorResponse; otherwise the answer is a
   * success envelope with a full blueprint.
   */
  function GenerateBlueprintPost(body: Option<Json>, gateway: string -> Completion, rt: Runtime): (r: Response)
    ensures r.status == 200 || r == ErrorResponse
    ensures r.status != 200 <==>
      || body.None? || body.value == JNull || PromptFor(body.value, rt).None?
      || gateway(PromptFor(body.value, rt).value).Threw?
    ensures r.status == 200 ==> IsBlueprintEnvelope(r.body)
  {
    match body
    case None => ErrorResponse
    case Some(b) =>
      if b == JNull then ErrorResponse
      else
        match PromptFor(b, rt)
        case None => ErrorResponse
        case Some(prompt) =>
          match gateway(prompt)
          case Threw => ErrorResponse
          case Replied(content) =>
            var blueprint := FinalBlueprint(ExtractJson(content.GetOr(""), rt.parse).fields);
            SuccessIsEnvelope(blueprint);
            SuccessResponse(blueprint)
  }

  /**
   * A string user input (or none) always reaches the model: the answer is
   * then a 500 only when the model call throws.
   */
  lemma StringInputReachesModel(body: Json, gateway: string -> Completion, rt: Runtime)
    requires body != JNull
    requires Nullish(Member(body, "userInput")) || Member(body, "userInput").value.JStr?
    ensures PromptFor(body, rt).Some?
    ensures GenerateBlueprintPost(Some(body), gateway, rt).status != 200 <==>
      gateway(PromptFor(body, rt).value).Threw?
  {
    assert RequestInputs(body).0.JStr?;
  }

  /**
   * The blueprint the route answers with is the coercion of the object cut
   * out of the reply (a missing `output_text` is read as ""); a reply with
   * no parsable brace span gives fourteen defaults.
   */
  lemma {:induction false} PostCarriesCoercedReply(body: Json, gateway: string -> Completion, rt: Runtime)
    requires body != JNull
    requires PromptFor(body, rt).Some? && gateway(PromptFor(body, rt).value).Replied?
    ensures GenerateBlueprintPost(Some(body), gateway, rt) ==
      SuccessResponse(FinalBlueprint(ExtractJson(gateway(PromptFor(body, rt).value).content.GetOr(""), rt.parse).fields))
    ensures Text.BraceSpan(gateway(PromptFor(body, rt).value).content.GetOr("")).None? ==>
      GenerateBlueprintPost(Some(body), gateway, rt) == SuccessResponse(FinalBlueprint(map[]))
  {
  }
}

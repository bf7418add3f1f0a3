/**
 * The next-question route (app/api/next-question/route.ts): pick the trade-off
 * dimension of the requested step, build the prompt, send it to the model and
 * hand back the JSON object found in the reply, unvalidated.
 */
module QuestionRoute {
  import opened Wrappers
  import opened Json
  import opened QuestionTypes
  import Text

  datatype Dimension = Dimension(id: string, labelText: string)

  /** The fixed catalog `DIMENSIONS`; step n asks about entry n - 1. */
  const Dimensions: seq<Dimension> := [
    Dimension("lifestyle_pace", "Business pace and lifestyle alignment"),
    Dimension("skills_vs_capital", "Skill-driven vs capital-driven approach"),
    Dimension("involvement_level", "Active involvement vs strategic oversight"),
    Dimension("digital_vs_physical", "Digital-first vs physical/local business"),
    Dimension("risk_profile", "Innovative vs proven business model"),
    Dimension("solo_vs_social", "Solo work vs client-facing work")
  ]

  /** `MAX_STEPS = DIMENSIONS.length`. */
  const MaxSteps: int := |Dimensions|

  /** `DIMENSIONS[step - 1]`; None stands for `undefined`. */
  function DimensionAt(step: int): (r: Option<Dimension>)
    ensures r.Some? <==> 1 <= step <= 6
    ensures r.Some? ==> r.value == Dimensions[step - 1]
  {
    if 1 <= step <= MaxSteps then Some(Dimensions[step - 1]) else None
  }

  /** The catalog has six entries with pairwise different ids. */
  lemma DimensionCatalog()
    ensures MaxSteps == 6
    ensures forall i, j :: 0 <= i < j < |Dimensions| ==> Dimensions[i].id != Dimensions[j].id
  {
  }

  /** `{ step, question, choice, option }`: `optionLabel` renamed to `option`. */
  datatype FormattedItem = FormattedItem(step: int, question: string, choice: string, option: string)

  function Format(h: HistoryItem): FormattedItem {
    FormattedItem(h.step, h.question, h.choice, h.optionLabel)
  }

  function Unformat(f: FormattedItem): HistoryItem {
    HistoryItem(f.step, f.question, f.choice, f.option)
  }

  /** `history.map(...)` into `formattedHistory`. */
  function FormatHistory(history: seq<HistoryItem>): (r: seq<FormattedItem>)
    ensures |r| == |history|
    ensures forall i :: 0 <= i < |history| ==>
      r[i].step == history[i].step && r[i].question == history[i].question &&
      r[i].choice == history[i].choice && r[i].option == history[i].optionLabel
  {
    seq(|history|, i requires 0 <= i < |history| => Format(history[i]))
  }

  function UnformatHistory(items: seq<FormattedItem>): (r: seq<HistoryItem>)
    ensures |r| == |items|
  {
    seq(|items|, i requires 0 <= i < |items| => Unformat(items[i]))
  }

  /** The renaming loses nothing: the history can be read back from it. */
  lemma FormatHistoryLossless(history: seq<HistoryItem>)
    ensures UnformatHistory(FormatHistory(history)) == history
  {
    var back := UnformatHistory(FormatHistory(history));
    forall i | 0 <= i < |history|
      ensures back[i] == history[i]
    {
    }
  }

  /** Formatting keeps order: it distributes over appending. */
  lemma FormatHistoryAppend(a: seq<HistoryItem>, b: seq<HistoryItem>)
    ensures FormatHistory(a + b) == FormatHistory(a) + FormatHistory(b)
  {
    var whole, parts := FormatHistory(a + b), FormatHistory(a) + FormatHistory(b);
    forall i | 0 <= i < |a + b|
      ensures whole[i] == parts[i]
    {
      if i < |a| {
        assert (a + b)[i] == a[i];
      } else {
        assert (a + b)[i] == b[i - |a|];
      }
    }
  }

  /** The objects `JSON.stringify(formattedHistory, null, 2)` is given. */
  function FormattedJson(items: seq<FormattedItem>): Json {
    JArr(seq(|items|, i requires 0 <= i < |items| =>
      JObj(map[
        "step" := JNum(items[i].step),
        "question" := JStr(items[i].question),
        "choice" := JStr(items[i].choice),
        "option" := JStr(items[i].option)])))
  }

  // The fixed text of the prompt template, in five pieces around its four
  // interpolations. Each section heading sits between two lines of 32
  // box-drawing characters (U+2500); one en dash (U+2013) appears in the rules.

  /** The template text before the dimension label. */
  const PromptIntro: string :=
    "\nYou are NicheRoot, an elite business decision engine.  \nYour job: generate ONE unique, personalized A/B question about THIS dimension:\n\n\""

  /** Between the dimension label and the user input (the USER STORY heading). */
  const PromptStory: string :=
    "\"\n\n\U{2500}\U{2500}\U{2500}\U{2500}\U{2500}\U{2500}\U{2500}\U{2500}\U{2500}\U{2500}\U{2500}\U{2500}\U{2500}\U{2500}\U{2500}\U{2500}\U{2500}\U{2500}\U{2500}\U{2500}\U{2500}\U{2500}\U{2500}\U{2500}\U{2500}\U{2500}\U{2500}\U{2500}\U{2500}\U{2500}\U{2500}\U{2500}\nUSER STORY (USE HEAVILY)\n\U{2500}\U{2500}\U{2500}\U{2500}\U{2500}\U{2500}\U{2500}\U{2500}\U{2500}\U{2500}\U{2500}\U{2500}\U{2500}\U{2500}\U{2500}\U{2500}\U{2500}\U{2500}\U{2500}\U{2500}\U{2500}\U{2500}\U{2500}\U{2500}\U{2500}\U{2500}\U{2500}\U{2500}\U{2500}\U{2500}\U{2500}\U{2500}\n"

  /** Between the user input and the history (the PREVIOUS ANSWERS heading). */
  const PromptAnswers: string :=
    "\n\n\U{2500}\U{2500}\U{2500}\U{2500}\U{2500}\U{2500}\U{2500}\U{2500}\U{2500}\U{2500}\U{2500}\U{2500}\U{2500}\U{2500}\U{2500}\U{2500}\U{2500}\U{2500}\U{2500}\U{2500}\U{2500}\U{2500}\U{2500}\U{2500}\U{2500}\U{2500}\U{2500}\U{2500}\U{2500}\U{2500}\U{2500}\U{2500}\nPREVIOUS ANSWERS\n\U{2500}\U{2500}\U{2500}\U{2500}\U{2500}\U{2500}\U{2500}\U{2500}\U{2500}\U{2500}\U{2500}\U{2500}\U{2500}\U{2500}\U{2500}\U{2500}\U{2500}\U{2500}\U{2500}\U{2500}\U{2500}\U{2500}\U{2500}\U{2500}\U{2500}\U{2500}\U{2500}\U{2500}\U{2500}\U{2500}\U{2500}\U{2500}\n"

  /** Between the history and the step: the STRICT RULES and the option shape. */
  const PromptRules: string :=
    "\n\n\U{2500}\U{2500}\U{2500}\U{2500}\U{2500}\U{2500}\U{2500}\U{2500}\U{2500}\U{2500}\U{2500}\U{2500}\U{2500}\U{2500}\U{2500}\U{2500}\U{2500}\U{2500}\U{2500}\U{2500}\U{2500}\U{2500}\U{2500}\U{2500}\U{2500}\U{2500}\U{2500}\U{2500}\U{2500}\U{2500}\U{2500}\U{2500}\nSTRICT RULES\n\U{2500}\U{2500}\U{2500}\U{2500}\U{2500}\U{2500}\U{2500}\U{2500}\U{2500}\U{2500}\U{2500}\U{2500}\U{2500}\U{2500}\U{2500}\U{2500}\U{2500}\U{2500}\U{2500}\U{2500}\U{2500}\U{2500}\U{2500}\U{2500}\U{2500}\U{2500}\U{2500}\U{2500}\U{2500}\U{2500}\U{2500}\U{2500}\n\n1. The question MUST be about the current dimension ONLY.\n2. It MUST feel personal and specific to the user's life.\n3. It MUST NOT repeat any previous question structure.\n4. Each option MUST represent a STRONG opposite trade-off.\n5. Each option MUST include:\n\n{\n  \"key\": \"A\",\n  \"label\": \"short label\",\n  \"details\": {\n    \"description\": \"1\U{2013}2 sentences\",\n    \"pros\": [\"pro1\", \"pro2\"],\n    \"cons\": [\"con1\", \"con2\"],\n    \"example\": \"one short real example\",\n    \"why_this_fits\": \"personalized explanation for THIS user\"\n  }\n}\n\n6. Return ONLY this JSON:\n\n{\n  \"step\": "

  /** After the step: the rest of the JSON shape asked for. */
  const PromptTail: string :=
    ",\n  \"question\": \"Your personalized question...\",\n  \"options\": [OPTION_A_OBJECT, OPTION_B_OBJECT]\n}\n"

  /** The prompt template with its four interpolations. */
  function QuestionPrompt(step: int, dimensionLabel: string, userInput: string, historyText: string): string {
    PromptIntro + dimensionLabel + PromptStory + userInput + PromptAnswers + historyText
      + PromptRules + Text.IntToString(step) + PromptTail
  }

  /** The prompt names the dimension, quotes the user's story and the history, and asks for the step. */
  lemma QuestionPromptContents(step: int, dimensionLabel: string, userInput: string, historyText: string)
    ensures var p := QuestionPrompt(step, dimensionLabel, userInput, historyText);
      && Text.Contains(p, dimensionLabel)
      && Text.Contains(p, userInput)
      && Text.Contains(p, historyText)
      && Text.Contains(p, Text.IntToString(step))
  {
    Text.ContainsEachOfFour(PromptIntro, dimensionLabel, PromptStory, userInput, PromptAnswers,
      historyText, PromptRules, Text.IntToString(step), PromptTail);
  }

  datatype ExtractError =
    | JsonNotFound  // "JSON not found in OpenAI response"
    | SyntaxError   // JSON.parse's SyntaxError

  /**
   * `extractJson` of this route: throws when the reply has no brace span,
   * and lets `JSON.parse` throw when the span does not parse.
   */
  function ExtractJson(text: string, parse: Parser): (r: Result<Json, ExtractError>)
    ensures r == Err(JsonNotFound) <==> Text.BraceSpan(text).None?
    ensures r == Err(SyntaxError) <==>
      Text.BraceSpan(text).Some? && parse(Text.BraceSpan(text).value).None?
    ensures r.Ok? ==>
      r.value.JObj? && parse(Text.BraceSpan(text).value) == Some(r.value)
  {
    match Text.BraceSpan(text)
    case None => Err(JsonNotFound)
    case Some(span) =>
      match parse(span)
      case None => Err(SyntaxError)
      case Some(v) => Ok(v)
  }

  const FailureMessage: string := "Failed to generate next question"

  /** The catch block: status 500 with `{ success: false, error }`. */
  const FailureResponse: Response :=
    Response(500, JObj(map["success" := JBool(false), "error" := JStr(FailureMessage)]))

  /** `{ success: true, done: true }`: the interview is over. */
  const DoneResponse: Response :=
    Response(200, JObj(map["success" := JBool(true), "done" := JBool(true)]))

  function QuestionResponse(question: Json): Response {
    Response(200, JObj(map["success" := JBool(true), "done" := JBool(false), "question" := question]))
  }

  /** `{ success: true, done: false, question }` with an object as the question. */
  predicate IsQuestionEnvelope(body: Json) {
    && body.JObj?
    && body.fields.Keys == {"success", "done", "question"}
    && body.fields["success"] == JBool(true)
    && body.fields["done"] == JBool(false)
    && body.fields["question"].JObj?
  }

  lemma QuestionEnvelope(question: Json)
    requires question.JObj?
    ensures QuestionResponse(question).status == 200
    ensures IsQuestionEnvelope(QuestionResponse(question).body)
  {
  }

  /** The prompt for a request whose step has a dimension. */
  function PromptFor(request: QuestionRequest, rt: Runtime): string
    requires DimensionAt(request.step).Some?
  {
    QuestionPrompt(request.step, DimensionAt(request.step).value.labelText, request.userInput,
      rt.stringifyIndented(FormattedJson(FormatHistory(request.history))))
  }

  /**
   * `POST`: `body` is None when `req.json()` throws. A step past the
   * catalog ends the interview; any exception (no dimension for the step,
   * a failed model call, no or unparsable JSON in the reply) is answered
   * with FailureResponse; otherwise the parsed object is passed on.
   */
  function NextQuestionPost(body: Option<QuestionRequest>, gateway: string -> Completion, rt: Runtime): (r: Response)
    ensures body.Some? && body.value.step > 6 ==> r == DoneResponse
    ensures body.Some? && body.value.step < 1 ==> r == FailureResponse
    ensures body.None? ==> r == FailureResponse
    ensures r.status == 200 || r == FailureResponse
    ensures r.status == 200 ==> r == DoneResponse || IsQuestionEnvelope(r.body)
  {
    match body
    case None => FailureResponse
    case Some(request) =>
      if request.step > MaxSteps then DoneResponse
      else
        match DimensionAt(request.step)
        case None => FailureResponse
        case Some(_) =>
          match gateway(PromptFor(request, rt))
          case Threw => FailureResponse
          case Replied(content) =>
            // `completion.choices[0]?.message?.content || ""`
            match ExtractJson(content.GetOr(""), rt.parse)
            case Err(_) => FailureResponse
            case Ok(question) =>
              QuestionEnvelope(question);
              QuestionResponse(question)
  }

  /** Past the last step the answer does not depend on the model at all. */
  lemma DoneWithoutModel(request: QuestionRequest, g1: string -> Completion, g2: string -> Completion, rt: Runtime)
    requires request.step > MaxSteps
    ensures NextQuestionPost(Some(request), g1, rt) == NextQuestionPost(Some(request), g2, rt) == DoneResponse
  {
  }

  /** A failed model call, or a reply without a parsable brace span, is a failure. */
  lemma FailuresOfTheModelReply(request: QuestionRequest, gateway: string -> Completion, rt: Runtime)
    requires 1 <= request.step <= MaxSteps
    ensures gateway(PromptFor(request, rt)).Threw? ==> NextQuestionPost(Some(request), gateway, rt) == FailureResponse
    ensures gateway(PromptFor(request, rt)).Replied? &&
      ExtractJson(gateway(PromptFor(request, rt)).content.GetOr(""), rt.parse).Err?
      ==> NextQuestionPost(Some(request), gateway, rt) == FailureResponse
  {
  }

  /**
   * The reply is not validated: whatever object the brace span parses to
   * (any number of options, any step) is answered as the question.
   */
  lemma UnvalidatedQuestionPassesThrough(request: QuestionRequest, gateway: string -> Completion, rt: Runtime, content: string, question: Json)
    requires 1 <= request.step <= MaxSteps
    requires gateway(PromptFor(request, rt)) == Replied(Some(content))
    requires Text.BraceSpan(content).Some? && rt.parse(Text.BraceSpan(content).value) == Some(question)
    ensures NextQuestionPost(Some(request), gateway, rt) == QuestionResponse(question)
    ensures question.JObj?
  {
  }
}

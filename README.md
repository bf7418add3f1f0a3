# NicheRoot core, modelled in Dafny

NicheRoot interviews a user in six A/B trade-off questions and then asks a
language model for a business blueprint. This project models the logic
around the two model calls:

- the blueprint route (`app/api/generate-blueprint/route.ts`). It cuts the
  JSON object out of the model's reply and coerces it into the fourteen
  fields of a `BusinessBlueprint`. Every exception becomes a 500 envelope.
- the next-question route (`app/api/next-question/route.ts`). It holds the
  six-entry dimension catalog and the `step > 6` cut-off. It renames the
  history fields, builds the prompt and passes back the object found in
  the reply without checking it.
- the question normaliser in `lib/generateQuestion.ts`. It rejects empty and
  unparsable content, defaults a falsy step, demands two options, and
  writes the keys "A" and "B" into them in place.
- the results page (`app/blueprint/page.tsx`). It decodes and parses the
  `result` parameter, coerces lists with `safeArray`, and reads each
  field as `primary ?? alias ?? default`.
- the interview wizard of the home page (`app/page.tsx`). This is the state
  machine of `fetchNextQuestion`, `startFlow` and `closeWizard`, plus the
  gating of the Continue button.

JSON values are the datatype `Json.Json`, with `undefined` as `None`. The
JavaScript library calls are fields of a `Json.Runtime` value:
`JSON.parse`, `JSON.stringify`, template interpolation of a non-string
(which may throw a TypeError) and `decodeURIComponent`. The model gateway and the browser's `fetch` are
function parameters from the request to what came back. The parser is
any function that, on a text starting with `{`, either fails or returns
an object (section 4 of RFC 8259).

Files: `wrappers.dfy` (Option, Result), `json.dfy` (values, `??`,
truthiness, runtime), `text.dfy` (brace span, containment, integer text),
`question_types.dfy` (the records of `types/question-types.ts`),
`blueprint_route.dfy`, `question_route.dfy`, `generate_question.dfy`,
`blueprint_page.dfy` and `wizard.dfy`.

Behaviours of the code that the model keeps as written:

- Text fields use `?? ""` and are not type-checked: a number passes
  through. List fields use `Array.isArray(v) ? v : []`: their elements are
  not filtered (`BlueprintRoute.FieldsNotTypeChecked`).
- A falsy step in the question reply, including `0` and `""`, is replaced
  by the requested step (`GenerateQuestion.NormalizeRecord`).
- The wizard appends the history before it sends the request. After a
  request that throws or answers `success: false`, committing the same
  choice again records the same step a second time
  (`InterviewWizard.FailedFetchDuplicatesStep`).
- The next-question route does not call the question normaliser: it
  passes any object on, whatever its options
  (`QuestionRoute.UnvalidatedQuestionPassesThrough`).

## Model

| member | source | states |
|---|---|---|
| Text.BraceSpan | app/api/generate-blueprint/route.ts:10-11 | the span exists iff some '{' comes before some '}'; it then starts with '{' and ends with '}' |
| Text.BraceSpanIsLeftmostLongest | app/api/next-question/route.ts:10 | the span is the leftmost match of `/\{[\s\S]*\}/` and the longest among the matches starting there, i.e. first '{' through last '}' |
| Text.IntToString | app/api/next-question/route.ts:88 | `${step}` is a minus sign exactly for negative steps, then decimal digits without leading zeros |
| Text.IntToStringRoundTrip | app/api/next-question/route.ts:88 | the step text in the prompt reads back as the step |
| Text.NatToStringRoundTrip | app/api/next-question/route.ts:88 | the digits of a natural number read back as the number |
| BlueprintRoute.ExtractJson | app/api/generate-blueprint/route.ts:8-17 | always an object: the parse of the span when the span parses, else `{}` (no span, or a span that does not parse) |
| BlueprintRoute.FinalBlueprint | app/api/generate-blueprint/route.ts:69-85 | exactly the 14 keys, none null; a text field is the parsed value unless nullish (then `""`); a list field is the parsed value if it is an array (then unfiltered), else `[]` |
| BlueprintRoute.FinalBlueprintIdempotent | app/api/generate-blueprint/route.ts:69-85 | coercing an already coerced blueprint changes nothing |
| BlueprintRoute.FieldsNotTypeChecked | app/api/generate-blueprint/route.ts:71-84 | a number in `title` passes through, non-string list elements are kept, a string list field becomes `[]` |
| BlueprintRoute.RequestInputs | app/api/generate-blueprint/route.ts:21-23 | a nullish `userInput` becomes `""` and a nullish `history` becomes `[]`; present values are kept |
| BlueprintRoute.PromptContainsRequest | app/api/generate-blueprint/route.ts:29-56 | when `${userInput}` converts, the prompt contains the converted user input and the serialised history; a string user input always converts and appears as it is |
| BlueprintRoute.StringInputReachesModel | app/api/generate-blueprint/route.ts:21-62 | with a string or missing user input the prompt is built, and the answer is a 500 only when the model call throws |
| BlueprintRoute.SuccessIsEnvelope | app/api/generate-blueprint/route.ts:87-90 | the success answer is status 200 with `{success: true, blueprint}` and a 14-key blueprint |
| BlueprintRoute.GenerateBlueprintPost | app/api/generate-blueprint/route.ts:19-98 | status 500 with "Server error while generating blueprint" exactly when the body is unreadable or null, `${userInput}` throws, or the model call throws; otherwise a 200 success envelope |
| BlueprintRoute.PostCarriesCoercedReply | app/api/generate-blueprint/route.ts:63-90 | for any reply that did not throw, the blueprint sent is the coercion of the object cut out of `output_text ?? ""`; with no span it is the 14 defaults |
| QuestionRoute.DimensionAt | app/api/next-question/route.ts:18-25 | a dimension exists iff 1 <= step <= 6, and it is catalog entry step - 1 |
| QuestionRoute.DimensionCatalog | app/api/next-question/route.ts:18-32 | the catalog has six entries with distinct ids, so the step limit is 6 |
| QuestionRoute.FormatHistory | app/api/next-question/route.ts:40-45 | same length and order; step, question and choice copied, `optionLabel` renamed to `option` |
| QuestionRoute.FormatHistoryLossless | app/api/next-question/route.ts:40-45 | the renaming loses nothing: the history can be read back |
| QuestionRoute.FormatHistoryAppend | app/api/next-question/route.ts:40-45 | formatting distributes over concatenation (order is kept) |
| QuestionRoute.QuestionPromptContents | app/api/next-question/route.ts:47-92 | the prompt contains the dimension label, the user input, the formatted history and the step |
| QuestionRoute.ExtractJson | app/api/next-question/route.ts:9-15 | "JSON not found" exactly when there is no span; a syntax error exactly when the span does not parse; otherwise the object the span parses to |
| QuestionRoute.QuestionEnvelope | app/api/next-question/route.ts:106-110 | the answer is status 200 with `{success: true, done: false, question}` |
| QuestionRoute.NextQuestionPost | app/api/next-question/route.ts:27-119 | step > 6 gives `{success: true, done: true}`; step < 1 or an unreadable body gives the 500 failure; every answer is done, failure or a question envelope |
| QuestionRoute.DoneWithoutModel | app/api/next-question/route.ts:34-36 | past the last step the answer does not depend on the model |
| QuestionRoute.FailuresOfTheModelReply | app/api/next-question/route.ts:103-117 | a throwing model call or a reply without a parsable span gives the 500 failure |
| QuestionRoute.UnvalidatedQuestionPassesThrough | app/api/next-question/route.ts:103-110 | whatever object the span parses to is sent back as the question, unchecked |
| GenerateQuestion.LengthOf | lib/generateQuestion.ts:94 | `.length` of an array or string is its size, of an object its `length` member, otherwise undefined |
| GenerateQuestion.ElementAt | lib/generateQuestion.ts:99-100 | `options[i]` is the i-th array element or the member "0"/"1" of an object |
| GenerateQuestion.WithKey | lib/generateQuestion.ts:99-100 | writing `key` succeeds exactly on objects and arrays; on an object it sets only the `key` member |
| GenerateQuestion.SetOptionKey | lib/generateQuestion.ts:99-100 | the write succeeds exactly when the element exists and can take the property |
| GenerateQuestion.NormalizeRecord | lib/generateQuestion.ts:93-100 | a truthy step is kept even if it differs, a falsy one becomes the requested step; the record always has a step |
| GenerateQuestion.QuestionRecord.ApplySafetyChecks | lib/generateQuestion.ts:92-100 | the in-place writes leave the record and error that NormalizeRecord gives, including a partial write before a TypeError |
| GenerateQuestion.QuestionOutcome | lib/generateQuestion.ts:78-102 | missing or empty content throws first; a parse failure is rethrown; a success is an object with a step and options |
| GenerateQuestion.GenerateQuestion | lib/generateQuestion.ts:78-102 | the method returns or throws what QuestionOutcome says |
| GenerateQuestion.NotTwoOptionsExactly | lib/generateQuestion.ts:94-96 | "exactly two options" is thrown iff `options` is falsy or its length is not the number 2 |
| GenerateQuestion.SetOptionKeyKeepsOther | lib/generateQuestion.ts:99-100 | writing one option's key leaves the other option and the rest of the container unchanged |
| GenerateQuestion.TypeErrorExactly | lib/generateQuestion.ts:93-100 | a TypeError is thrown iff there are two options and one of them is neither an object nor an array |
| GenerateQuestion.NothingElseChanges | lib/generateQuestion.ts:92-102 | on success only `step` and the two options' `key` members change; order, labels, summaries, details and every other member are kept |
| GenerateQuestion.KeysAreAB | lib/generateQuestion.ts:98-100 | on success `options[0].key` is "A" and `options[1].key` is "B" |
| BlueprintPage.Strings | app/blueprint/page.tsx:15 | the result has exactly the string elements of the array |
| BlueprintPage.SafeArray | app/blueprint/page.tsx:12-21 | falsy gives `[]`; a non-empty string gives itself alone; a number, boolean or object gives `[]`; an array gives exactly its string elements in order, repeats kept (`Strings`) |
| BlueprintPage.StringsAppend | app/blueprint/page.tsx:14-16 | the filter keeps the original order (it distributes over concatenation) |
| BlueprintPage.StringsOfStringArray | app/blueprint/page.tsx:14-16 | an array of strings only is kept whole |
| BlueprintPage.SafeArrayIdempotent | app/blueprint/page.tsx:12-21 | applying `safeArray` to its own result changes nothing |
| BlueprintPage.LoadDecoded | app/blueprint/page.tsx:47-55 | a parse failure gives null and "We couldn't read your blueprint data."; otherwise the parsed value with no error |
| BlueprintPage.LoadBlueprint | app/blueprint/page.tsx:27-56 | missing or empty parameter: null and "No blueprint data found in the URL."; a decode failure parses the raw text, otherwise the decoded text; an error always comes with a null blueprint |
| BlueprintPage.Lookup | app/blueprint/page.tsx:89-125 | the alias is consulted only when the primary key is nullish |
| BlueprintPage.ResolveBlueprint | app/blueprint/page.tsx:82-125 | each text field is the primary value, else the alias value, else its default, never null; each list field is `safeArray` of primary else alias |
| BlueprintPage.Render | app/blueprint/page.tsx:58-80 | the error card shows iff there is an error or the blueprint is falsy, with the error or the generic message; otherwise the blueprint view holds `ResolveBlueprint` of the loaded blueprint |
| BlueprintPage.BlueprintPageView | app/blueprint/page.tsx:27-80 | no parameter shows the no-data message; the blueprint shows only when loading raised no error, and a truthy blueprint loaded without error is shown resolved through its fallbacks |
| BlueprintPage.FalsyBlueprintShowsGenericError | app/blueprint/page.tsx:58-68 | a parameter that parses to a falsy value shows the generic message |
| BlueprintPage.UnparsableShowsUnreadable | app/blueprint/page.tsx:47-55 | an unparsable parameter shows the unreadable-data message |
| BlueprintPage.EmptyObjectShowsDefaults | app/blueprint/page.tsx:83-125 | an empty object shows every default text and empty lists |
| InterviewWizard.FinalChoice | app/page.tsx:31 | the override wins when present, else the selection |
| InterviewWizard.FindOption | app/page.tsx:35-37 | the first option with the key, or none iff no option has it |
| InterviewWizard.CommitHistory | app/page.tsx:34-51 | the earlier items are kept; exactly one item `{step, question, choice, label}` is appended iff the choice is truthy, a question is shown and an option matches |
| InterviewWizard.NextStep | app/page.tsx:53 | step + 1 with a truthy choice, step without |
| InterviewWizard.StoredBlueprint | app/page.tsx:68-75 | nothing is stored iff the call threw or the body is null; otherwise the stored text is `JSON.stringify(data.blueprint)`, or "undefined" when there is no blueprint member |
| InterviewWizard.Fetch | app/page.tsx:28-103 | the new history is the committed history whatever the reply, the story is kept, and the blueprint is requested iff the next step passes 6 |
| InterviewWizard.Close | app/page.tsx:117-118 | closing while the blueprint loads changes nothing |
| InterviewWizard.Wizard.constructor | app/page.tsx:15-21 | step 1, no question, empty history and input, no selection, not loading, wizard hidden |
| InterviewWizard.Wizard.SetUserInput | app/page.tsx:371 | only the user input changes |
| InterviewWizard.Wizard.Select | app/page.tsx:500 | only the selection changes |
| InterviewWizard.Wizard.FetchNextQuestion | app/page.tsx:28-103 | the new state and the request sent are those of Fetch |
| InterviewWizard.Wizard.StartFlow | app/page.tsx:106-115 | the reset followed by a fetch with no choice |
| InterviewWizard.Wizard.CloseWizard | app/page.tsx:117-124 | the new state is Close of the old |
| InterviewWizard.Wizard.Continue | app/page.tsx:514-523 | a fetch with the selection happens iff a question is on screen, a choice is selected and nothing is loading; otherwise nothing changes |
| InterviewWizard.CommitPrecedesRequest | app/page.tsx:30-51 | the committed history is in the new state and in the request sent, whatever the reply |
| InterviewWizard.RequestFollowsNextStep | app/page.tsx:53-91 | the blueprint is requested iff the next step passes 6; a question request carries the next step, which is at most 6 |
| InterviewWizard.BlueprintRequestPath | app/page.tsx:56-79 | loading is set for good; a usable reply is stored under `nicheroot_blueprint`, hides the wizard and navigates to `/blueprint`; otherwise storage, wizard and location are kept |
| InterviewWizard.QuestionRequestPath | app/page.tsx:82-99 | success installs the returned question and its step and clears the selection; failure keeps step, question and selection |
| InterviewWizard.FailedFetchDuplicatesStep | app/page.tsx:34-53 | after a failed request, committing the same choice again appends a second item with the same step |
| InterviewWizard.StartFlowAsksStepOne | app/page.tsx:106-115 | starting always requests step 1 with an empty history |
| InterviewWizard.CloseResets | app/page.tsx:117-124 | outside loading, closing resets step, history, question and selection and hides the wizard, keeping the story, the storage, the location and the loading flag |
| InterviewWizard.SelectThenContinueRecords | app/page.tsx:496-523 | selecting an option on screen and pressing Continue appends that option's item for the current step |

## Left out

- The model calls themselves (`app/api/next-question/route.ts:94-101`, `app/api/generate-blueprint/route.ts:58-61`, `lib/generateQuestion.ts:21-76`) are network I/O. The gateway is a function parameter and the reply is any string.
- `fetch`, `localStorage` and `window.location` on the home page are I/O. Replies are function parameters, and storage and location are fields of the wizard.
- `JSON.parse`, `JSON.stringify`, template interpolation and `decodeURIComponent` are library calls. They are parameters, and the regular expression is specified directly on strings.
- The pages never hand a blueprint to each other. The home page writes `localStorage` and navigates without a query; the results page reads the `result` query parameter. No round trip between them is claimed.
- Json: numbers are integers. Fractions and the JavaScript rendering of large numbers are not modelled.
- Json: object key order is not modelled.
- String lengths count characters, not UTF-16 code units.
- `progressPercent` (`app/page.tsx:23-25`) is a floating-point display value.
- JSX rendering, `components/OptionCard.tsx` and `app/layout.tsx` are user interface only.
- The system prompt and user message of the `lib/generateQuestion.ts` call are not modelled, because they are part of the model call.
- InterviewWizard.Wizard.FetchNextQuestion: a call is one atomic step, from commit to reply. In the source the requests are awaited, and the user can act in between. A second Continue click while a question request is pending appends another item for the same step and sends a second request. A Close while a request is pending is partly undone when the reply arrives, because `setQuestion` and `setStep` still run. These interleavings are not modelled.
- InterviewWizard.Wizard.StartFlow: React setters are taken to apply at once. The source's `fetchNextQuestion()` call inside `startFlow` sees the state from before the reset.
- InterviewWizard.QuestionFetch: a successful reply is taken to carry a typed question. A success whose `question` is not an object (where `data.question.step` throws after `setQuestion`) is not modelled.
- QuestionRoute.NextQuestionPost: the request body is taken to be a typed `{step, history, userInput}` with an integer step and an array history. Bodies with other shapes, where `history.map` throws or `step` compares as a string, are not modelled.
- GenerateQuestion.KeysAreAB: an option element that is an array takes the `key` property, which JSON cannot represent. The model leaves such an element unchanged and states the key only for object elements.
- Model-chosen keys and steps are strings and integers the wizard uses unchecked. Their intended `"A" | "B"` type is not enforced on the wizard's path: `lib/generateQuestion.ts` overwrites the keys with "A" and "B", but the next-question route does not call it.

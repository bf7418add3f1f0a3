/**
 * The question, option and history records of types/question-types.ts, and
 * the body the wizard posts to the next-question route.
 *
 * Keys and choices are declared `"A" | "B"` in TypeScript, but the values
 * come from an unvalidated model reply, so they are modelled as strings.
 */
module QuestionTypes {

  datatype OptionDetails = OptionDetails(
    pros: seq<string>,
    cons: seq<string>,
    example: string,
    whyThisFits: string)

  datatype QuestionOption = QuestionOption(
    key: string,
    labelText: string,   // `label` (a reserved word in Dafny)
    summary: string,
    details: OptionDetails)

  datatype Question = Question(step: int, question: string, options: seq<QuestionOption>)

  /** One answered step, as the wizard records it. */
  datatype HistoryItem = HistoryItem(step: int, question: string, choice: string, optionLabel: string)

  /** The JSON body `{ step, history, userInput }` of a next-question request. */
  datatype QuestionRequest = QuestionRequest(step: int, history: seq<HistoryItem>, userInput: string)
}

/**
 * The interview wizard of the home page (app/page.tsx): six state cells that
 * `fetchNextQuestion`, `startFlow` and `closeWizard` update, the browser
 * storage and location it writes, and the gating of the Continue button.
 *
 * The two routes it calls are parameters: a function from the request sent
 * to what came back. React state setters are taken to apply immediately.
 */
module InterviewWizard {
  import opened Wrappers
  import opened Json
  import opened QuestionTypes

  /** `MAX_STEPS` of the page. */
  const MaxSteps: int := 6

  /** The localStorage key the blueprint is written under. */
  const BlueprintKey: string := "nicheroot_blueprint"

  const BlueprintPath: string := "/blueprint"

  /** The body `{ userInput, history }` posted to the blueprint route. */
  datatype BlueprintRequest = BlueprintRequest(userInput: string, history: seq<HistoryItem>)

  /** The one request a call of `fetchNextQuestion` sends. */
  datatype Sent =
    | QuestionRequestSent(question: QuestionRequest)
    | BlueprintRequestSent(blueprint: BlueprintRequest)

  /**
   * What the next-question call gave back: it threw (network error or a body
   * that is not JSON), or a reply whose `success` is truthy or not.
   */
  datatype QuestionFetch =
    | QuestionThrew
    | QuestionReplied(succeeded: bool, question: Question)

  /** What the blueprint call gave back: it threw, or the parsed body `data`. */
  datatype BlueprintFetch =
    | BlueprintThrew
    | BlueprintReplied(data: Json)

  /** The page's state cells, the stored items and the navigation target. */
  datatype WizardState = WizardState(
    step: int,
    question: Option<Question>,
    history: seq<HistoryItem>,
    userInput: string,
    selectedChoice: Option<string>,
    loadingBlueprint: bool,
    showWizard: bool,
    storage: map<string, string>,
    location: Option<string>)

  /** `choiceOverride ?? selectedChoice ?? undefined`. */
  function FinalChoice(choiceOverride: Option<string>, selectedChoice: Option<string>): (r: Option<string>)
    ensures choiceOverride.Some? ==> r == choiceOverride
    ensures choiceOverride.None? ==> r == selectedChoice
  {
    if choiceOverride.Some? then choiceOverride else selectedChoice
  }

  /** A truthy choice: present and not the empty string. */
  predicate IsChosen(choice: Option<string>) {
    choice.Some? && choice.value != ""
  }

  /** `options.find(opt => opt.key === key)`: the first option with that key. */
  function FindOption(options: seq<QuestionOption>, key: string): (r: Option<QuestionOption>)
    ensures r.None? <==> forall i :: 0 <= i < |options| ==> options[i].key != key
    ensures r.Some? ==>
      exists i :: 0 <= i < |options| && options[i] == r.value && r.value.key == key &&
        forall j :: 0 <= j < i ==> options[j].key != key
  {
    if options == [] then None
    else if options[0].key == key then Some(options[0])
    else
      match FindOption(options[1..], key)
      case None => None
      case Some(o) =>
        assert forall j :: 1 <= j < |options| ==> options[j] == options[1..][j - 1];
        Some(o)
  }

  /** The history after the commit: one more item when a chosen key matches an option. */
  function CommitHistory(history: seq<HistoryItem>, step: int, question: Option<Question>,
                         choice: Option<string>): (r: seq<HistoryItem>)
    ensures |r| == |history| || |r| == |history| + 1
    ensures r[..|history|] == history
    ensures |r| == |history| + 1 <==>
      IsChosen(choice) && question.Some? && FindOption(question.value.options, choice.value).Some?
    ensures |r| == |history| + 1 ==>
      r[|history|] == HistoryItem(step, question.value.question, choice.value,
                                  FindOption(question.value.options, choice.value).value.labelText)
  {
    if IsChosen(choice) && question.Some? then
      match FindOption(question.value.options, choice.value)
      case None => history
      case Some(option) =>
        history + [HistoryItem(step, question.value.question, choice.value, option.labelText)]
    else history
  }

  /** `step + (finalChoice ? 1 : 0)`. */
  function NextStep(step: int, choice: Option<string>): (r: int)
    ensures IsChosen(choice) ==> r == step + 1
    ensures !IsChosen(choice) ==> r == step
  {
    step + (if IsChosen(choice) then 1 else 0)
  }

  /**
   * The text `localStorage.setItem(key, JSON.stringify(data.blueprint))`
   * stores, or None when the call threw or `data` is null. `undefined`
   * (no `blueprint` member) is stored as the string "undefined".
   */
  function StoredBlueprint(reply: BlueprintFetch, stringify: Json -> string): (r: Option<string>)
    ensures r.None? <==> reply.BlueprintThrew? || reply.data == JNull
    ensures reply.BlueprintReplied? && reply.data != JNull ==>
      r == Some(match Member(reply.data, "blueprint")
                case None => "undefined"
                case Some(v) => stringify(v))
  {
    match reply
    case BlueprintThrew => None
    case BlueprintReplied(data) =>
      if data == JNull then None
      else
        match Member(data, "blueprint")
        case None => Some("undefined")
        case Some(v) => Some(stringify(v))
  }

  /**
   * `fetchNextQuestion(choiceOverride)`: commit the choice to the history,
   * then ask for the blueprint past the last step, or for the next question.
   * An exception anywhere is caught and leaves the state as it then is.
   */
  function Fetch(s: WizardState, choiceOverride: Option<string>,
                 questionApi: QuestionRequest -> QuestionFetch,
                 blueprintApi: BlueprintRequest -> BlueprintFetch,
                 stringify: Json -> string): (r: (WizardState, Sent))
    ensures r.0.history == CommitHistory(s.history, s.step, s.question, FinalChoice(choiceOverride, s.selectedChoice))
    ensures r.0.userInput == s.userInput
    ensures r.1.BlueprintRequestSent? <==> NextStep(s.step, FinalChoice(choiceOverride, s.selectedChoice)) > MaxSteps
  {
    var choice := FinalChoice(choiceOverride, s.selectedChoice);
    var committed := s.(history := CommitHistory(s.history, s.step, s.question, choice));
    var nextStep := NextStep(s.step, choice);
    if nextStep > MaxSteps then
      var request := BlueprintRequest(s.userInput, committed.history);
      var loading := committed.(loadingBlueprint := true);
      var after := match StoredBlueprint(blueprintApi(request), stringify)
        case None => loading
        case Some(text) =>
          loading.(storage := loading.storage[BlueprintKey := text], showWizard := false,
                   location := Some(BlueprintPath));
      (after, BlueprintRequestSent(request))
    else
      var request := QuestionRequest(nextStep, committed.history, s.userInput);
      var after := match questionApi(request)
        case QuestionReplied(true, q) => committed.(question := Some(q), step := q.step, selectedChoice := None)
        case _ => committed;
      (after, QuestionRequestSent(request))
  }

  /** The resets `startFlow` makes before it fetches. */
  function StartReset(s: WizardState): WizardState {
    s.(showWizard := true, history := [], selectedChoice := None, step := 1, question := None,
       loadingBlueprint := false)
  }

  /** `closeWizard`: ignored while the blueprint is loading. */
  function Close(s: WizardState): (r: WizardState)
    ensures s.loadingBlueprint ==> r == s
  {
    if s.loadingBlueprint then s
    else s.(showWizard := false, selectedChoice := None, question := None, step := 1, history := [])
  }

  /**
   * The Continue button is on screen (wizard shown, not loading, a question
   * present) and enabled (a truthy selection, not loading).
   */
  predicate ContinueEnabled(s: WizardState) {
    s.showWizard && !s.loadingBlueprint && s.question.Some? && IsChosen(s.selectedChoice)
  }

  /** The home page's interview state. */
  class Wizard {
    var step: int
    var question: Option<Question>
    var history: seq<HistoryItem>
    var userInput: string
    var selectedChoice: Option<string>
    var loadingBlueprint: bool
    var showWizard: bool
    var storage: map<string, string>   // localStorage
    var location: Option<string>       // a navigation the page started

    function State(): WizardState
      reads this
    {
      WizardState(step, question, history, userInput, selectedChoice, loadingBlueprint,
                  showWizard, storage, location)
    }

    /** The initial `useState` values; `storage` is what the browser already holds. */
    constructor(storage: map<string, string>)
      ensures State() == WizardState(1, None, [], "", None, false, false, storage, None)
    {
      step := 1;
      question := None;
      history := [];
      userInput := "";
      selectedChoice := None;
      loadingBlueprint := false;
      showWizard := false;
      this.storage := storage;
      location := None;
    }

    /** The story text area's `onChange`. */
    method SetUserInput(text: string)
      modifies this
      ensures State() == old(State()).(userInput := text)
    {
      userInput := text;
    }

    /** An option card's `onSelect`. */
    method Select(key: string)
      modifies this
      ensures State() == old(State()).(selectedChoice := Some(key))
    {
      selectedChoice := Some(key);
    }

    method FetchNextQuestion(choiceOverride: Option<string>,
                             questionApi: QuestionRequest -> QuestionFetch,
                             blueprintApi: BlueprintRequest -> BlueprintFetch,
                             stringify: Json -> string) returns (sent: Sent)
      modifies this
      ensures (State(), sent) == Fetch(old(State()), choiceOverride, questionApi, blueprintApi, stringify)
    {
      var updatedHistory := history;
      var finalChoice := FinalChoice(choiceOverride, selectedChoice);
      if IsChosen(finalChoice) && question.Some? {
        var chosenOption := FindOption(question.value.options, finalChoice.value);
        if chosenOption.Some? {
          updatedHistory := history + [HistoryItem(step, question.value.question, finalChoice.value,
                                                   chosenOption.value.labelText)];
          history := updatedHistory;
        }
      }
      var nextStep := NextStep(step, finalChoice);
      if nextStep > MaxSteps {
        loadingBlueprint := true;
        var request := BlueprintRequest(userInput, updatedHistory);
        sent := BlueprintRequestSent(request);
        var stored := StoredBlueprint(blueprintApi(request), stringify);
        if stored.Some? {
          storage := storage[BlueprintKey := stored.value];
          showWizard := false;
          location := Some(BlueprintPath);
        }
        return;
      }
      var request := QuestionRequest(nextStep, updatedHistory, userInput);
      sent := QuestionRequestSent(request);
      var reply := questionApi(request);
      if reply.QuestionReplied? && reply.succeeded {
        question := Some(reply.question);
        step := reply.question.step;
        selectedChoice := None;
      }
    }

    /** `startFlow`: reset the interview, show the wizard and fetch the first question. */
    method StartFlow(questionApi: QuestionRequest -> QuestionFetch,
                     blueprintApi: BlueprintRequest -> BlueprintFetch,
                     stringify: Json -> string) returns (sent: Sent)
      modifies this
      ensures (State(), sent) == Fetch(StartReset(old(State())), None, questionApi, blueprintApi, stringify)
    {
      showWizard := true;
      history := [];
      selectedChoice := None;
      step := 1;
      question := None;
      loadingBlueprint := false;
      sent := FetchNextQuestion(None, questionApi, blueprintApi, stringify);
    }

    method CloseWizard()
      modifies this
      ensures State() == Close(old(State()))
    {
      if loadingBlueprint {
        return;
      }
      showWizard := false;
      selectedChoice := None;
      question := None;
      step := 1;
      history := [];
    }

    /** A click on Continue: a fetch with the selection, or nothing when the button is not enabled. */
    method Continue(questionApi: QuestionRequest -> QuestionFetch,
                    blueprintApi: BlueprintRequest -> BlueprintFetch,
                    stringify: Json -> string) returns (sent: Option<Sent>)
      modifies this
      ensures sent.Some? <==> ContinueEnabled(old(State()))
      ensures ContinueEnabled(old(State())) ==>
        (State(), sent.value) == Fetch(old(State()), old(selectedChoice), questionApi, blueprintApi, stringify)
      ensures !ContinueEnabled(old(State())) ==> State() == old(State())
    {
      if !ContinueEnabled(State()) {
        return None;
      }
      var s := FetchNextQuestion(selectedChoice, questionApi, blueprintApi, stringify);
      return Some(s);
    }
  }

  /**
   * The history is committed before any request is sent, and whatever the
   * reply: both requests carry it and the new state keeps it.
   */
  lemma CommitPrecedesRequest(s: WizardState, choiceOverride: Option<string>,
                              questionApi: QuestionRequest -> QuestionFetch,
                              blueprintApi: BlueprintRequest -> BlueprintFetch, stringify: Json -> string)
    ensures var (t, sent) := Fetch(s, choiceOverride, questionApi, blueprintApi, stringify);
      var committed := CommitHistory(s.history, s.step, s.question, FinalChoice(choiceOverride, s.selectedChoice));
      && t.history == committed
      && (sent.QuestionRequestSent? ==> sent.question.history == committed && sent.question.userInput == s.userInput)
      && (sent.BlueprintRequestSent? ==> sent.blueprint.history == committed && sent.blueprint.userInput == s.userInput)
  {
  }

  /**
   * Past the last step the blueprint is requested; otherwise the next
   * question, for the next step, which is then never more than six.
   */
  lemma RequestFollowsNextStep(s: WizardState, choiceOverride: Option<string>,
                               questionApi: QuestionRequest -> QuestionFetch,
                               blueprintApi: BlueprintRequest -> BlueprintFetch, stringify: Json -> string)
    ensures var sent := Fetch(s, choiceOverride, questionApi, blueprintApi, stringify).1;
      var nextStep := NextStep(s.step, FinalChoice(choiceOverride, s.selectedChoice));
      && (sent.BlueprintRequestSent? <==> nextStep > MaxSteps)
      && (sent.QuestionRequestSent? ==> sent.question.step == nextStep <= MaxSteps)
  {
  }

  /**
   * The blueprint path sets the loading flag for good; a usable reply is
   * stored under the blueprint key, hides the wizard and navigates to the
   * results page, and anything else leaves those as they were.
   */
  lemma BlueprintRequestPath(s: WizardState, choiceOverride: Option<string>,
                      questionApi: QuestionRequest -> QuestionFetch,
                      blueprintApi: BlueprintRequest -> BlueprintFetch, stringify: Json -> string)
    requires NextStep(s.step, FinalChoice(choiceOverride, s.selectedChoice)) > MaxSteps
    ensures var (t, sent) := Fetch(s, choiceOverride, questionApi, blueprintApi, stringify);
      var stored := StoredBlueprint(blueprintApi(sent.blueprint), stringify);
      && t.loadingBlueprint
      && t.step == s.step && t.question == s.question && t.selectedChoice == s.selectedChoice
      && (stored.Some? ==> t.storage == s.storage[BlueprintKey := stored.value] &&
                           !t.showWizard && t.location == Some(BlueprintPath))
      && (stored.None? ==> t.storage == s.storage && t.showWizard == s.showWizard && t.location == s.location)
  {
  }

  /**
   * The question path: a successful reply installs the returned question and
   * its (unchecked) step and clears the selection; a failure leaves step,
   * question and selection unchanged. Neither touches the loading flag,
   * storage or location.
   */
  lemma QuestionRequestPath(s: WizardState, choiceOverride: Option<string>,
                     questionApi: QuestionRequest -> QuestionFetch,
                     blueprintApi: BlueprintRequest -> BlueprintFetch, stringify: Json -> string)
    requires NextStep(s.step, FinalChoice(choiceOverride, s.selectedChoice)) <= MaxSteps
    ensures var (t, sent) := Fetch(s, choiceOverride, questionApi, blueprintApi, stringify);
      var reply := questionApi(sent.question);
      && t.loadingBlueprint == s.loadingBlueprint && t.storage == s.storage && t.location == s.location
      && t.showWizard == s.showWizard
      && (reply.QuestionReplied? && reply.succeeded ==>
            t.question == Some(reply.question) && t.step == reply.question.step && t.selectedChoice.None?)
      && (!(reply.QuestionReplied? && reply.succeeded) ==>
            t.question == s.question && t.step == s.step && t.selectedChoice == s.selectedChoice)
  {
  }

  /**
   * A commit whose request fails does not advance the step, so committing
   * the same choice again appends a second item with the same step.
   */
  lemma {:induction false} FailedFetchDuplicatesStep(s: WizardState, key: string,
                                                     questionApi: QuestionRequest -> QuestionFetch,
                                                     blueprintApi: BlueprintRequest -> BlueprintFetch,
                                                     stringify: Json -> string)
    requires key != "" && s.question.Some? && FindOption(s.question.value.options, key).Some?
    requires s.step + 1 <= MaxSteps
    requires forall r: QuestionRequest :: !(questionApi(r).QuestionReplied? && questionApi(r).succeeded)
    ensures var once := Fetch(s, Some(key), questionApi, blueprintApi, stringify).0;
      var twice := Fetch(once, Some(key), questionApi, blueprintApi, stringify).0;
      && |twice.history| == |s.history| + 2
      && twice.history[|s.history|].step == twice.history[|s.history| + 1].step == s.step
  {
    var once := Fetch(s, Some(key), questionApi, blueprintApi, stringify).0;
    assert once.step == s.step && once.question == s.question;
    assert |once.history| == |s.history| + 1;
    var twice := Fetch(once, Some(key), questionApi, blueprintApi, stringify).0;
    assert twice.history[..|once.history|] == once.history;
    assert twice.history[|s.history|] == once.history[|s.history|];
  }

  /**
   * `startFlow` always asks for the question of step 1 with an empty
   * history, whatever state it starts from.
   */
  lemma StartFlowAsksStepOne(s: WizardState, questionApi: QuestionRequest -> QuestionFetch,
                             blueprintApi: BlueprintRequest -> BlueprintFetch, stringify: Json -> string)
    ensures var (t, sent) := Fetch(StartReset(s), None, questionApi, blueprintApi, stringify);
      && sent == QuestionRequestSent(QuestionRequest(1, [], s.userInput))
      && t.history == [] && t.showWizard && !t.loadingBlueprint
  {
  }

  /** Outside loading, closing resets the interview and hides the wizard, keeping the story. */
  lemma CloseResets(s: WizardState)
    requires !s.loadingBlueprint
    ensures var t := Close(s);
      && t.step == 1 && t.history == [] && t.question.None? && t.selectedChoice.None? && !t.showWizard
      && t.userInput == s.userInput && t.storage == s.storage && !t.loadingBlueprint && t.location == s.location
  {
  }

  /**
   * Selecting an option of the question on screen and pressing Continue
   * records that option: the history grows by the item for the current step.
   */
  lemma SelectThenContinueRecords(s: WizardState, i: nat,
                                  questionApi: QuestionRequest -> QuestionFetch,
                                  blueprintApi: BlueprintRequest -> BlueprintFetch, stringify: Json -> string)
    requires s.showWizard && !s.loadingBlueprint && s.question.Some?
    requires i < |s.question.value.options| && s.question.value.options[i].key != ""
    requires forall j :: 0 <= j < i ==> s.question.value.options[j].key != s.question.value.options[i].key
    ensures var option := s.question.value.options[i];
      var selected := s.(selectedChoice := Some(option.key));
      && ContinueEnabled(selected)
      && Fetch(selected, selected.selectedChoice, questionApi, blueprintApi, stringify).0.history ==
           s.history + [HistoryItem(s.step, s.question.value.question, option.key, option.labelText)]
  {
    var option := s.question.value.options[i];
    var found := FindOption(s.question.value.options, option.key);
    assert found.Some?;
    var k :| 0 <= k < |s.question.value.options| && s.question.value.options[k] == found.value &&
      found.value.key == option.key && forall j :: 0 <= j < k ==> s.question.value.options[j].key != option.key;
    assert k == i;
  }
}

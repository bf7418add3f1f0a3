/**
 * The checks and fix-ups `generateQuestion` (lib/generateQuestion.ts) applies
 * to the model's reply once it has it: reject empty and unparsable content,
 * default a falsy step, insist on two options, and write the keys "A" and
 * "B" into the two options in place.
 *
 * The module runs in strict mode (it is an ES module), so writing a property
 * of a primitive throws a TypeError, as does reading or writing a property of
 * `null` or `undefined`.
 */
module GenerateQuestion {
  import opened Wrappers
  import opened Json

  /** The ways `generateQuestion` throws after the model call has returned. */
  datatype QuestionError =
    | NoContent      // "No content returned from OpenAI for question generation."
    | ParseFailed    // JSON.parse's SyntaxError, rethrown
    | NotTwoOptions  // "Question must have exactly two options A and B."
    | TypeError      // a property write on null, undefined or a primitive

  /** `v.length`: arrays and strings have one; an object only if it has the member. */
  function LengthOf(v: Json): (r: Option<Json>)
    ensures v.JArr? ==> r == Some(JNum(|v.items|))
    ensures v.JStr? ==> r == Some(JNum(|v.s|))
    ensures v.JObj? ==> r == Get(v.fields, "length")
    ensures !v.JArr? && !v.JStr? && !v.JObj? ==> r.None?
  {
    match v
    case JArr(items) => Some(JNum(|items|))
    case JStr(s) => Some(JNum(|s|))
    case JObj(fields) => Get(fields, "length")
    case _ => None
  }

  /** `!parsed.options || parsed.options.length !== 2` is false. */
  predicate HasTwoOptions(options: Option<Json>) {
    Truthy(options) && LengthOf(options.value) == Some(JNum(2))
  }

  /** The two indices the normaliser writes to. */
  type OptionIndex = i: nat | i < 2

  /** The key written into the option at index i. */
  function KeyFor(i: OptionIndex): string {
    if i == 0 then "A" else "B"
  }

  /** The property name `options[i]` reads on an object. */
  function IndexName(i: OptionIndex): string {
    if i == 0 then "0" else "1"
  }

  /** `options[i]`; None stands for `undefined`. */
  function ElementAt(options: Json, i: OptionIndex): (r: Option<Json>)
    ensures options.JArr? ==> (r.Some? <==> i < |options.items|)
    ensures options.JArr? && i < |options.items| ==> r == Some(options.items[i])
    ensures options.JObj? ==> r == Get(options.fields, IndexName(i))
  {
    match options
    case JArr(items) => if i < |items| then Some(items[i]) else None
    case JObj(fields) => Get(fields, IndexName(i))
    case JStr(s) => if i < |s| then Some(JStr([s[i]])) else None
    case _ => None
  }

  /**
   * `element.key = key`: an object gets the member; an array takes the
   * property, which JSON does not represent, so it stays as it is; anything
   * else throws (None).
   */
  function WithKey(element: Json, key: string): (r: Option<Json>)
    ensures r.Some? <==> element.JObj? || element.JArr?
    ensures element.JObj? ==> r == Some(JObj(element.fields["key" := JStr(key)]))
    ensures element.JArr? ==> r == Some(element)
  {
    match element
    case JObj(fields) => Some(JObj(fields["key" := JStr(key)]))
    case JArr(_) => Some(element)
    case _ => None
  }

  /** `options` with its element at index i replaced. */
  function ReplaceElement(options: Json, i: OptionIndex, element: Json): Json {
    match options
    case JArr(items) => if i < |items| then JArr(items[i := element]) else options
    case JObj(fields) => JObj(fields[IndexName(i) := element])
    case _ => options
  }

  /** `options[i].key = key` on the options value; None where it throws. */
  function SetOptionKey(options: Json, i: OptionIndex, key: string): (r: Option<Json>)
    ensures r.Some? <==>
      ElementAt(options, i).Some? && WithKey(ElementAt(options, i).value, key).Some?
  {
    match ElementAt(options, i)
    case None => None
    case Some(element) =>
      match WithKey(element, key)
      case None => None
      case Some(updated) => Some(ReplaceElement(options, i, updated))
  }

  /** The parsed record after the checks, and the error they threw, if any. */
  datatype Normalized = Normalized(fields: map<string, Json>, error: Option<QuestionError>)

  /**
   * The in-place steps on a parsed object, in source order. A check that
   * throws leaves the record as the earlier steps made it.
   */
  function NormalizeRecord(fields: map<string, Json>, step: int): (r: Normalized)
    // a truthy step is kept even when it differs from the one asked for
    ensures "step" in r.fields
    ensures r.fields["step"] == if Truthy(Get(fields, "step")) then fields["step"] else JNum(step)
    ensures r.error != Some(NoContent) && r.error != Some(ParseFailed)
  {
    var stepped := if Truthy(Get(fields, "step")) then fields else fields["step" := JNum(step)];
    var options := Get(stepped, "options");
    if !HasTwoOptions(options) then Normalized(stepped, Some(NotTwoOptions))
    else
      match SetOptionKey(options.value, 0, KeyFor(0))
      case None => Normalized(stepped, Some(TypeError))
      case Some(first) =>
        match SetOptionKey(first, 1, KeyFor(1))
        case None => Normalized(stepped["options" := first], Some(TypeError))
        case Some(second) => Normalized(stepped["options" := second], None)
  }

  /** The object `JSON.parse` returned, which the normaliser updates in place. */
  class QuestionRecord {
    var fields: map<string, Json>

    constructor(fields: map<string, Json>)
      ensures this.fields == fields
    {
      this.fields := fields;
    }

    /**
     * The safety checks and defaults: `error` is None when they return
     * normally; either way `fields` holds what the in-place writes left.
     */
    method ApplySafetyChecks(step: int) returns (error: Option<QuestionError>)
      modifies this
      ensures Normalized(fields, error) == NormalizeRecord(old(fields), step)
    {
      if !Truthy(Get(fields, "step")) {
        fields := fields["step" := JNum(step)];
      }
      var options := Get(fields, "options");
      if !HasTwoOptions(options) {
        return Some(NotTwoOptions);
      }
      var first := SetOptionKey(options.value, 0, KeyFor(0));
      if first.None? {
        return Some(TypeError);
      }
      fields := fields["options" := first.value];
      var second := SetOptionKey(first.value, 1, KeyFor(1));
      if second.None? {
        return Some(TypeError);
      }
      fields := fields["options" := second.value];
      return None;
    }
  }

  /** What `generateQuestion` returns or throws once the reply `content` is in. */
  function QuestionOutcome(content: Option<string>, step: int, parse: Parser): (r: Result<Json, QuestionError>)
    ensures r == Err(NoContent) <==> content.None? || content.value == ""
    ensures r == Err(ParseFailed) <==> content.Some? && content.value != "" && parse(content.value).None?
    ensures r.Ok? ==> r.value.JObj? && "step" in r.value.fields && "options" in r.value.fields
  {
    if content.None? || content.value == "" then Err(NoContent)
    else
      match parse(content.value)
      case None => Err(ParseFailed)
      case Some(JObj(fields)) =>
        var n := NormalizeRecord(fields, step);
        if n.error.Some? then Err(n.error.value) else Ok(JObj(n.fields))
      // An array takes the `step` write, but has no `options`.
      case Some(JArr(_)) => Err(NotTwoOptions)
      // `null.step` throws; a primitive has no `step`, and writing one throws.
      case Some(_) => Err(TypeError)
  }

  /**
   * The part of `generateQuestion` after the model call: `content` is
   * `response.choices[0]?.message?.content`.
   */
  method GenerateQuestion(content: Option<string>, step: int, parse: Parser) returns (r: Result<Json, QuestionError>)
    ensures r == QuestionOutcome(content, step, parse)
  {
    if content.None? || content.value == "" {
      return Err(NoContent);
    }
    var parsed := parse(content.value);
    if parsed.None? {
      return Err(ParseFailed);
    }
    match parsed.value
    case JObj(fields) =>
      var record := new QuestionRecord(fields);
      var error := record.ApplySafetyChecks(step);
      if error.Some? {
        return Err(error.value);
      }
      return Ok(JObj(record.fields));
    case JArr(_) =>
      return Err(NotTwoOptions);
    case _ =>
      return Err(TypeError);
  }

  /** The normaliser throws the options error exactly when there are not two options. */
  lemma NotTwoOptionsExactly(fields: map<string, Json>, step: int)
    ensures NormalizeRecord(fields, step).error == Some(NotTwoOptions) <==>
      !HasTwoOptions(Get(fields, "options"))
  {
    var stepped := if Truthy(Get(fields, "step")) then fields else fields["step" := JNum(step)];
    assert Get(stepped, "options") == Get(fields, "options");
  }

  /** Writing the key of one option leaves the other option where it was. */
  lemma {:induction false} SetOptionKeyKeepsOther(options: Json, i: OptionIndex, key: string)
    requires SetOptionKey(options, i, key).Some?
    ensures ElementAt(SetOptionKey(options, i, key).value, 1 - i) == ElementAt(options, 1 - i)
    ensures ElementAt(SetOptionKey(options, i, key).value, i) == WithKey(ElementAt(options, i).value, key)
    ensures options.JArr? ==>
      SetOptionKey(options, i, key).value.JArr? &&
      |SetOptionKey(options, i, key).value.items| == |options.items|
    ensures options.JObj? ==>
      SetOptionKey(options, i, key).value.JObj? &&
      SetOptionKey(options, i, key).value.fields.Keys == options.fields.Keys &&
      forall name :: name in options.fields && name != IndexName(i) ==>
        SetOptionKey(options, i, key).value.fields[name] == options.fields[name]
  {
    var element := ElementAt(options, i).value;
    var updated := WithKey(element, key).value;
    assert SetOptionKey(options, i, key).value == ReplaceElement(options, i, updated);
    if options.JObj? {
      assert IndexName(1 - i) != IndexName(i);
    }
  }

  /**
   * A type error happens exactly when there are two options and one of the
   * two elements is neither an object nor an array.
   */
  lemma TypeErrorExactly(fields: map<string, Json>, step: int)
    ensures NormalizeRecord(fields, step).error == Some(TypeError) <==>
      HasTwoOptions(Get(fields, "options")) &&
      exists i: OptionIndex :: !(ElementAt(fields["options"], i).Some? &&
        (ElementAt(fields["options"], i).value.JObj? || ElementAt(fields["options"], i).value.JArr?))
  {
    var stepped := if Truthy(Get(fields, "step")) then fields else fields["step" := JNum(step)];
    assert Get(stepped, "options") == Get(fields, "options");
    if HasTwoOptions(Get(fields, "options")) {
      var options := fields["options"];
      if SetOptionKey(options, 0, KeyFor(0)).Some? {
        SetOptionKeyKeepsOther(options, 0, KeyFor(0));
      } else {
        assert !(ElementAt(options, 0).Some? && (ElementAt(options, 0).value.JObj? || ElementAt(options, 0).value.JArr?));
      }
    }
  }

  /**
   * `updated` is `original` with only its `key` member set: every other
   * member is the same, and a value that cannot hold the member is unchanged.
   */
  ghost predicate OnlyKeyWritten(original: Json, updated: Json, key: string) {
    && (updated.JObj? <==> original.JObj?)
    && (updated.JObj? ==> Member(updated, "key") == Some(JStr(key)))
    && (forall m :: m != "key" ==> Member(updated, m) == Member(original, m))
    && (!updated.JObj? ==> updated == original)
  }

  /**
   * On success the options are, in their original order, the same two
   * values with only their keys set to "A" and "B"; the container keeps its
   * length or its other members, and the record keeps every member other
   * than `step` and `options`.
   */
  lemma NothingElseChanges(fields: map<string, Json>, step: int)
    requires NormalizeRecord(fields, step).error.None?
    ensures var r := NormalizeRecord(fields, step).fields;
      && r.Keys == fields.Keys + {"step"}
      && (forall k :: k in fields && k != "step" && k != "options" ==> r[k] == fields[k])
      && "options" in fields
      && (forall i: OptionIndex ::
            ElementAt(fields["options"], i).Some? && ElementAt(r["options"], i).Some? &&
            OnlyKeyWritten(ElementAt(fields["options"], i).value, ElementAt(r["options"], i).value, KeyFor(i)))
      && (fields["options"].JArr? ==> r["options"].JArr? && |r["options"].items| == 2)
      && (fields["options"].JObj? ==>
            r["options"].JObj? &&
            r["options"].fields.Keys == fields["options"].fields.Keys &&
            forall name :: name in fields["options"].fields && name != "0" && name != "1" ==>
              r["options"].fields[name] == fields["options"].fields[name])
  {
    var options := fields["options"];
    var first := SetOptionKey(options, 0, KeyFor(0)).value;
    var second := SetOptionKey(first, 1, KeyFor(1)).value;
    SetOptionKeyKeepsOther(options, 0, KeyFor(0));
    SetOptionKeyKeepsOther(first, 1, KeyFor(1));
    forall i: OptionIndex
      ensures OnlyKeyWritten(ElementAt(options, i).value, ElementAt(second, i).value, KeyFor(i))
    {
      var e := ElementAt(options, i).value;
      assert ElementAt(second, i) == WithKey(e, KeyFor(i));
    }
  }

  /** On success both options that can carry a key carry "A" and "B", in that order. */
  lemma KeysAreAB(content: Option<string>, step: int, parse: Parser)
    requires QuestionOutcome(content, step, parse).Ok?
    ensures var q := QuestionOutcome(content, step, parse).value;
      && q.JObj? && "options" in q.fields
      && forall i: OptionIndex :: ElementAt(q.fields["options"], i).Some? &&
           (ElementAt(q.fields["options"], i).value.JObj? ==>
              Member(ElementAt(q.fields["options"], i).value, "key") == Some(JStr(KeyFor(i))))
  {
    var fields := parse(content.value).value.fields;
    NothingElseChanges(fields, step);
  }
}

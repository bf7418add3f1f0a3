/**
 * The results page (app/blueprint/page.tsx): read the `result` query
 * parameter, decode and parse it, and read each blueprint field with its
 * older alias and a fixed default, coercing list fields with `safeArray`.
 */
module BlueprintPage {
  import opened Wrappers
  import opened Json
  import BlueprintRoute

  /** The string elements of `items`, in order (`items.filter(v => typeof v === "string")`). */
  function Strings(items: seq<Json>): (r: seq<string>)
    ensures |r| <= |items|
    ensures forall s :: s in r <==> JStr(s) in items
  {
    if items == [] then []
    else (if items[0].JStr? then [items[0].s] else []) + Strings(items[1..])
  }

  /** A string list as a JSON array. */
  function StringArray(r: seq<string>): (items: seq<Json>)
    ensures |items| == |r|
    ensures forall i :: 0 <= i < |r| ==> items[i] == JStr(r[i])
  {
    seq(|r|, i requires 0 <= i < |r| => JStr(r[i]))
  }

  /** `safeArray`: any value as a list of strings. */
  function SafeArray(value: Option<Json>): (r: seq<string>)
    ensures !Truthy(value) ==> r == []
    ensures Truthy(value) && value.value.JStr? ==> r == [value.value.s]
    ensures value.Some? && (value.value.JNum? || value.value.JBool? || value.value.JObj?) ==> r == []
    ensures value.Some? && value.value.JArr? ==> r == Strings(value.value.items)
    ensures value.Some? && value.value.JArr? ==> forall s :: s in r <==> JStr(s) in value.value.items
  {
    if !Truthy(value) then []
    else
      match value.value
      case JArr(items) => Strings(items)
      case JStr(s) => [s]
      case _ => []
  }

  /** Filtering distributes over concatenation, so it keeps the order of the strings. */
  lemma {:induction false} StringsAppend(a: seq<Json>, b: seq<Json>)
    ensures Strings(a + b) == Strings(a) + Strings(b)
  {
    if a == [] {
      assert a + b == b;
    } else {
      assert (a + b)[0] == a[0];
      assert (a + b)[1..] == a[1..] + b;
      StringsAppend(a[1..], b);
    }
  }

  /** An array of strings only is kept whole. */
  lemma {:induction false} StringsOfStringArray(r: seq<string>)
    ensures Strings(StringArray(r)) == r
  {
    if r != [] {
      assert StringArray(r)[1..] == StringArray(r[1..]);
      StringsOfStringArray(r[1..]);
    }
  }

  /** `safeArray` is idempotent: its result, as an array, comes back unchanged. */
  lemma SafeArrayIdempotent(value: Option<Json>)
    ensures SafeArray(Some(JArr(StringArray(SafeArray(value))))) == SafeArray(value)
  {
    StringsOfStringArray(SafeArray(value));
  }

  const NoDataMessage: string := "No blueprint data found in the URL."
  const UnreadableMessage: string := "We couldn't read your blueprint data."
  const LoadFailedMessage: string :=
    "We couldn't load your business blueprint. Please go back and try generating it again."

  /** The memoised `{ blueprint, error }`; a null blueprint is JNull. */
  datatype Loaded = Loaded(blueprint: Json, error: Option<string>)

  /** `JSON.parse(decoded)`: the blueprint, or null with the unreadable-data error. */
  function LoadDecoded(decoded: string, parse: Parser): (r: Loaded)
    ensures parse(decoded).None? <==> r == Loaded(JNull, Some(UnreadableMessage))
    ensures parse(decoded).Some? ==> r == Loaded(parse(decoded).value, None)
  {
    match parse(decoded)
    case None => Loaded(JNull, Some(UnreadableMessage))
    case Some(v) => Loaded(v, None)
  }

  /**
   * The `useMemo` block: `raw` is `searchParams.get("result")`. A missing
   * or empty parameter is an error; a decode failure falls back to the raw
   * text; a parse failure is an error.
   */
  function LoadBlueprint(raw: Option<string>, rt: Runtime): (r: Loaded)
    ensures raw.None? || raw.value == "" ==> r == Loaded(JNull, Some(NoDataMessage))
    // a decode failure falls back to the raw text
    ensures raw.Some? && raw.value != "" && rt.decodeUri(raw.value).None? ==>
      r == LoadDecoded(raw.value, rt.parse)
    ensures raw.Some? && raw.value != "" && rt.decodeUri(raw.value).Some? ==>
      r == LoadDecoded(rt.decodeUri(raw.value).value, rt.parse)
    ensures r.error.Some? ==> r.blueprint == JNull
  {
    if raw.None? || raw.value == "" then Loaded(JNull, Some(NoDataMessage))
    else
      LoadDecoded(rt.decodeUri(raw.value).GetOr(raw.value), rt.parse)
  }

  /** The older key each field falls back to, where there is one. */
  const TextAliases: map<string, string> := map[
    "situationSummary" := "howWeSeeYourSituation",
    "businessModelSummary" := "businessSummary"]

  const ListAliases: map<string, string> := map[
    "exampleOffers" := "exampleOfferIdeas",
    "howToFindCustomers" := "customerAcquisition",
    "stepByStepGuide" := "executionSteps",
    "dayOneActions" := "firstDayActions",
    "first30Days" := "firstMonthPlan",
    "keyRisks" := "risks",
    "howToDeRisk" := "riskMitigation",
    "growthLevers" := "scalingIdeas"]

  /** The fixed text each text field shows when neither key has a value. */
  const TextDefaults: map<string, string> := map[
    "title" := "Your Personalized Business Blueprint",
    "subtitle" := "A focused, executable direction based on your answers.",
    "situationSummary" := "This blueprint summarizes your constraints, preferences, and goals.",
    "recommendedDirection" := "Here is the recommended direction based on your answers.",
    "businessModelSummary" := "This is the core business model we suggest you follow."]

  /** `blueprint.key ?? blueprint.alias` (just `blueprint.key` without an alias). */
  function Lookup(blueprint: Json, key: string, aliases: map<string, string>): (r: Option<Json>)
    ensures !Nullish(Member(blueprint, key)) ==> r == Member(blueprint, key)
    ensures Nullish(Member(blueprint, key)) && key in aliases ==> r == Member(blueprint, aliases[key])
    ensures key !in aliases ==> Nullish(r) == Nullish(Member(blueprint, key))
  {
    OrElse(Member(blueprint, key), if key in aliases then Member(blueprint, aliases[key]) else None)
  }

  /** The fields the page renders: text fields are not type-checked, list fields are string lists. */
  datatype Resolved = Resolved(texts: map<string, Json>, lists: map<string, seq<string>>)

  /**
   * Every field read with its fallbacks; `blueprint` is not null, because
   * the page shows its error view first.
   */
  function ResolveBlueprint(blueprint: Json): (r: Resolved)
    requires blueprint != JNull
    ensures r.texts.Keys == BlueprintRoute.TextKeys && r.lists.Keys == BlueprintRoute.ListKeys
    ensures forall k :: k in r.texts ==> r.texts[k] != JNull
    ensures forall k :: k in r.texts && !Nullish(Member(blueprint, k)) ==> r.texts[k] == blueprint.fields[k]
    ensures forall k :: k in r.texts && Nullish(Member(blueprint, k)) ==>
      r.texts[k] == (if k in TextAliases && !Nullish(Member(blueprint, TextAliases[k]))
                     then blueprint.fields[TextAliases[k]] else JStr(TextDefaults[k]))
    ensures forall k :: k in r.lists && !Nullish(Member(blueprint, k)) ==>
      r.lists[k] == SafeArray(Member(blueprint, k))
    ensures forall k :: k in r.lists && Nullish(Member(blueprint, k)) ==>
      r.lists[k] == (if k in ListAliases then SafeArray(Member(blueprint, ListAliases[k])) else [])
  {
    Resolved(
      map k | k in BlueprintRoute.TextKeys :: Coalesce(Lookup(blueprint, k, TextAliases), JStr(TextDefaults[k])),
      map k | k in BlueprintRoute.ListKeys :: SafeArray(Lookup(blueprint, k, ListAliases)))
  }

  /** What the page renders: the error card or the blueprint. */
  datatype PageView = ErrorView(message: string) | BlueprintView(fields: Resolved)

  /** `error || !blueprint` picks the error card, with `error ?? <default message>`. */
  function Render(loaded: Loaded): (r: PageView)
    ensures r.ErrorView? <==> (loaded.error.Some? && loaded.error.value != "") || !Truthy(Some(loaded.blueprint))
    ensures r.ErrorView? && loaded.error.None? ==> r.message == LoadFailedMessage
    ensures r.ErrorView? && loaded.error.Some? ==> r.message == loaded.error.value
    ensures r.BlueprintView? ==> r.fields == ResolveBlueprint(loaded.blueprint)
  {
    if (loaded.error.Some? && loaded.error.value != "") || !Truthy(Some(loaded.blueprint)) then
      ErrorView(loaded.error.GetOr(LoadFailedMessage))
    else
      BlueprintView(ResolveBlueprint(loaded.blueprint))
  }

  /** The page for a given `result` parameter. */
  function BlueprintPageView(raw: Option<string>, rt: Runtime): (r: PageView)
    ensures raw.None? || raw.value == "" ==> r == ErrorView(NoDataMessage)
    ensures r.BlueprintView? ==> LoadBlueprint(raw, rt).error.None?
    ensures LoadBlueprint(raw, rt).error.None? && Truthy(Some(LoadBlueprint(raw, rt).blueprint)) ==>
      r == BlueprintView(ResolveBlueprint(LoadBlueprint(raw, rt).blueprint))
  {
    Render(LoadBlueprint(raw, rt))
  }

  /**
   * A parameter that parses to `null`, `false`, `0` or `""` has no error
   * message of its own and shows the generic one.
   */
  lemma FalsyBlueprintShowsGenericError(raw: string, rt: Runtime)
    requires raw != ""
    requires rt.parse(rt.decodeUri(raw).GetOr(raw)).Some?
    requires !Truthy(rt.parse(rt.decodeUri(raw).GetOr(raw)))
    ensures BlueprintPageView(Some(raw), rt) == ErrorView(LoadFailedMessage)
  {
  }

  /** An unparsable parameter shows the unreadable-data message. */
  lemma UnparsableShowsUnreadable(raw: string, rt: Runtime)
    requires raw != ""
    requires rt.parse(rt.decodeUri(raw).GetOr(raw)).None?
    ensures BlueprintPageView(Some(raw), rt) == ErrorView(UnreadableMessage)
  {
  }

  /** A text field is never rendered empty-handed: without any key it shows its default. */
  lemma EmptyObjectShowsDefaults()
    ensures var r := ResolveBlueprint(JObj(map[]));
      (forall k :: k in r.texts ==> r.texts[k] == JStr(TextDefaults[k])) &&
      (forall k :: k in r.lists ==> r.lists[k] == [])
  {
  }
}

/**
 * JSON values as the TypeScript code sees them once `JSON.parse` has run,
 * the JavaScript operators the code applies to them (`?.`, `??`, truthiness),
 * and the library calls it makes, which this model takes as parameters.
 *
 * JSON numbers are modelled as integers: every number the application
 * exchanges (steps, counts) is whole.
 */
module Json {
  import opened Wrappers

  datatype Json =
    | JNull
    | JBool(b: bool)
    | JNum(n: int)
    | JStr(s: string)
    | JArr(items: seq<Json>)
    | JObj(fields: map<string, Json>)

  /** `obj[key]` on a plain object; None stands for `undefined`. */
  function Get(fields: map<string, Json>, key: string): (r: Option<Json>)
    ensures r.Some? <==> key in fields
    ensures r.Some? ==> r.value == fields[key]
  {
    if key in fields then Some(fields[key]) else None
  }

  /**
   * `v.key` for a value that is not `null` (reading a property of `null`
   * throws, and callers model that themselves). Strings, numbers, booleans and
   * arrays have none of the property names the application reads, so they
   * give `undefined`.
   */
  function Member(v: Json, key: string): (r: Option<Json>)
    ensures r.Some? ==> v.JObj? && key in v.fields && r.value == v.fields[key]
    ensures v.JObj? && key in v.fields ==> r.Some?
  {
    if v.JObj? then Get(v.fields, key) else None
  }

  /** `v == null`, true of `null` and of `undefined`. */
  predicate Nullish(v: Option<Json>) {
    v.None? || v.value.JNull?
  }

  /** JavaScript truthiness (`!!v`) of a JSON value or of `undefined`. */
  predicate Truthy(v: Option<Json>) {
    match v
    case None => false
    case Some(JNull) => false
    case Some(JBool(b)) => b
    case Some(JNum(n)) => n != 0
    case Some(JStr(s)) => s != ""
    case Some(JArr(_)) => true
    case Some(JObj(_)) => true
  }

  /** `v ?? fallback` where the fallback is a value. */
  function Coalesce(v: Option<Json>, fallback: Json): (r: Json)
    ensures !Nullish(v) ==> r == v.value
    ensures Nullish(v) ==> r == fallback
  {
    if Nullish(v) then fallback else v.value
  }

  /** `a ?? b` where `b` may itself be `undefined`. */
  function OrElse(a: Option<Json>, b: Option<Json>): (r: Option<Json>)
    ensures !Nullish(a) ==> r == a
    ensures Nullish(a) ==> r == b
  {
    if Nullish(a) then b else a
  }

  /**
   * A text that starts with '{' and parses is an object (section 4 of
   * RFC 8259): the parser either fails (None) or returns an object on it.
   */
  ghost predicate ParsesBraceToObject(parse: string -> Option<Json>) {
    forall s :: |s| > 0 && s[0] == '{' && parse(s).Some? ==> parse(s).value.JObj?
  }

  /** `JSON.parse`: None where it throws a SyntaxError. */
  type Parser = parse: string -> Option<Json> | ParsesBraceToObject(parse)
    witness (s: string) => None

  /**
   * The JavaScript library functions the application calls on strings and
   * values, whose implementation is not part of this model.
   */
  datatype Runtime = Runtime(
    parse: Parser,                       // JSON.parse
    stringify: Json -> string,           // JSON.stringify(v)
    stringifyIndented: Json -> string,   // JSON.stringify(v, null, 2)
    display: Json -> Option<string>,     // `${v}` of a non-string, None where it throws
    decodeUri: string -> Option<string>  // decodeURIComponent, None where it throws
  )

  /** What the model gateway (the hosted text-generation call) gives back. */
  datatype Completion =
    | Threw                          // network or API error: the await throws
    | Replied(content: Option<string>) // the reply text, None when it is absent

  /**
   * Template interpolation `${v}`: a string is kept as it is (ToString,
   * section 7.1.17 of ECMA-262); any other value goes through the runtime,
   * which may throw a TypeError (an object whose `toString` and `valueOf`
   * give no primitive), shown as None.
   */
  function Interpolate(v: Json, rt: Runtime): (r: Option<string>)
    ensures v.JStr? ==> r == Some(v.s)
    ensures !v.JStr? ==> r == rt.display(v)
  {
    if v.JStr? then Some(v.s) else rt.display(v)
  }

  /** A route handler's answer: HTTP status and JSON body. */
  datatype Response = Response(status: int, body: Json)
}

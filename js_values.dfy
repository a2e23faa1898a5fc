/** JavaScript values as the two route handlers see them: the JSON value that
    `request.json()` yields, the `undefined` that destructuring yields for a
    missing property, JavaScript truthiness, and what a `catch` clause receives. */
module JsValues {

  datatype Option<+T> = None | Some(value: T)

  datatype Result<+T, +E> = Ok(value: T) | Err(error: E)

  /** A value produced by parsing a JSON text.  Numbers are JSON numbers, so
      never NaN; an object maps each key to the last value given for it. */
  datatype Json =
    | JNull
    | JBool(b: bool)
    | JNum(n: real)
    | JStr(s: string)
    | JArr(items: seq<Json>)
    | JObj(fields: map<string, Json>)

  /** A property read from a parsed body: `undefined` when the property is
      missing, otherwise the JSON value stored under it. */
  datatype JsValue = Undefined | Defined(json: Json)

  /** What a `catch (error)` clause receives: an `Error` instance with its
      `message`, or any other thrown value. */
  datatype Thrown = ErrorInstance(message: string) | OtherValue

  /** JavaScript truthiness: `undefined`, `null`, `false`, `0`, `-0` and the
      empty string are falsy; every other value, including `[]` and `{}`, is
      truthy. */
  predicate Truthy(v: JsValue)
  {
    match v
    case Undefined => false
    case Defined(j) =>
      match j
      case JNull => false
      case JBool(b) => b
      case JNum(n) => n != 0.0
      case JStr(s) => s != ""
      case JArr(_) => true
      case JObj(_) => true
  }

  /** `const { key } = body`: destructuring a `null` body throws a
      `TypeError`, whose message the JavaScript engine chooses and which is
      therefore a parameter; an object yields its own property, and any other
      JSON value yields `undefined` (the keys the handlers read are not
      properties of arrays, strings, numbers or booleans). */
  function Property(body: Json, key: string, typeError: string): (r: Result<JsValue, Thrown>)
    ensures r.Err? <==> body.JNull?
    ensures r.Err? ==> r.error == ErrorInstance(typeError)
    ensures r.Ok? ==> r.value == if body.JObj? && key in body.fields then Defined(body.fields[key]) else Undefined
  {
    match body
    case JNull => Err(ErrorInstance(typeError))
    case JObj(fields) => if key in fields then Ok(Defined(fields[key])) else Ok(Undefined)
    case _ => Ok(Undefined)
  }

  /** The falsy values, listed: a value is truthy exactly when it is none of
      `undefined`, `null`, `false`, `0` and `""`. */
  lemma FalsyValues(v: JsValue)
    ensures !Truthy(v) <==> v in {Undefined, Defined(JNull), Defined(JBool(false)), Defined(JNum(0.0)), Defined(JStr(""))}
  {
  }

  /** `error instanceof Error ? error.message : "Unknown error"` */
  function Details(t: Thrown): string
  {
    match t
    case ErrorInstance(m) => m
    case OtherValue => "Unknown error"
  }
}

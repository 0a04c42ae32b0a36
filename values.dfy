/** JSON values as the routes receive and store them, `undefined` as an absent key, and the
    JavaScript truthiness that the `||` fallbacks and `if (x)` guards test. */
module Values {

  datatype Option<+T> = None | Some(value: T)

  /** A JSON value. Numbers are integers here: fractional numbers are not modelled. */
  datatype Json =
    | JNull
    | JBool(b: bool)
    | JNum(n: int)
    | JStr(s: string)
    | JArray(items: seq<Json>)
    | JObject(fields: map<string, Json>)

  /** A JSON object; a key that is absent reads as `undefined`. */
  type Object = map<string, Json>

  /** JavaScript truthiness of a JSON value: `null`, `false`, `0` and `""` are falsy. */
  predicate Truthy(j: Json) {
    match j
    case JNull => false
    case JBool(b) => b
    case JNum(n) => n != 0
    case JStr(s) => s != ""
    case _ => true
  }

  /** Truthiness of `o.k`, where an absent key is `undefined` and therefore falsy. */
  predicate TruthyAt(o: Object, k: string) {
    k in o && Truthy(o[k])
  }

  /** The fields `const { a, b } = body` reads from a parsed body that is not `null`: an
      object's own fields; a number, a string, a boolean or an array has none of the keys the
      routes read, so each of them is `undefined`. */
  function ReadFields(body: Json): (o: Object)
    ensures body.JObject? ==> o == body.fields
    ensures !body.JObject? ==> o == map[]
  {
    if body.JObject? then body.fields else map[]
  }

  /** Destructuring throws on a body that cannot be parsed or that parses to `null`. */
  predicate DestructureThrows(body: Option<Json>) {
    body.None? || body.value.JNull?
  }

  /** `o.k || fallback`: the stored value when it is truthy, otherwise the fallback. */
  function FieldOr(o: Object, k: string, fallback: Json): (r: Json)
    ensures TruthyAt(o, k) ==> r == o[k]
    ensures !TruthyAt(o, k) ==> r == fallback
  {
    if TruthyAt(o, k) then o[k] else fallback
  }
}

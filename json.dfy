/** The JavaScript values that flow through request bodies and form state,
    with JavaScript's notion of truthiness (what `||` and `if (x)` test). */
module Json {

  datatype JsonValue =
    | JNull
    | JBool(b: bool)
    | JNum(n: int)
    | JStr(s: string)
    | JArr(items: seq<JsonValue>)
    | JObj(fields: map<string, JsonValue>)

  /** A JavaScript object: spreading `{...a, ...b}` is the map union `a + b`. */
  type Object = map<string, JsonValue>

  /** `!!v`: null, false, 0 and "" are falsy; arrays and objects always truthy. */
  predicate Truthy(v: JsonValue) {
    match v
    case JNull => false
    case JBool(b) => b
    case JNum(n) => n != 0
    case JStr(s) => s != ""
    case JArr(_) => true
    case JObj(_) => true
  }

  /** `!!o.key`, where `undefined` is falsy. */
  predicate TruthyAt(o: Object, key: string) {
    key in o && Truthy(o[key])
  }

  /** A JSON array of strings. */
  function Strings(xs: seq<string>): (r: seq<JsonValue>)
    ensures |r| == |xs|
    ensures forall i :: 0 <= i < |xs| ==> r[i] == JStr(xs[i])
  {
    if xs == [] then [] else [JStr(xs[0])] + Strings(xs[1..])
  }
}

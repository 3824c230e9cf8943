/**
 * Parsed JSON values, as `JSON.parse` hands them to the route, and the two
 * JavaScript operations the route applies to them: reading a property and
 * testing truthiness. Numbers are integers here.
 */
module Json {
  import opened Wrappers

  datatype JsonValue =
    | JNull
    | JBool(b: bool)
    | JNumber(n: int)
    | JString(s: string)
    | JArray(items: seq<JsonValue>)
    | JObject(fields: map<string, JsonValue>)

  /** `v[key]`: the member of an object, `undefined` (`None`) for a missing key or a non-object. */
  function Prop(v: JsonValue, key: string): (r: Option<JsonValue>)
    ensures r.Some? <==> v.JObject? && key in v.fields
    ensures r.Some? ==> r.value == v.fields[key]
  {
    if v.JObject? && key in v.fields then Some(v.fields[key]) else None
  }

  /** JavaScript truthiness: `null`, `false`, `0` and `""` are falsy, every array and object is truthy. */
  predicate Truthy(v: JsonValue) {
    match v
    case JNull => false
    case JBool(b) => b
    case JNumber(n) => n != 0
    case JString(s) => s != ""
    case JArray(_) => true
    case JObject(_) => true
  }

  /** Truthiness of a property read, where `undefined` is falsy: `!!v[key]`. */
  predicate TruthyProp(v: JsonValue, key: string) {
    var p := Prop(v, key);
    p.Some? && Truthy(p.value)
  }

  /** The string value of a property, when it is a string. */
  function StringProp(v: JsonValue, key: string): (r: Option<string>)
    ensures r.Some? <==> Prop(v, key).Some? && Prop(v, key).value.JString?
    ensures r.Some? ==> Prop(v, key) == Some(JString(r.value))
  {
    match Prop(v, key)
    case Some(JString(s)) => Some(s)
    case _ => None
  }

  /** The number value of a property, when it is a number. */
  function NumberProp(v: JsonValue, key: string): (r: Option<int>)
    ensures r.Some? <==> Prop(v, key).Some? && Prop(v, key).value.JNumber?
    ensures r.Some? ==> Prop(v, key) == Some(JNumber(r.value))
  {
    match Prop(v, key)
    case Some(JNumber(n)) => Some(n)
    case _ => None
  }
}

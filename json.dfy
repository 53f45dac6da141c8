/** The values that JSON.parse produces, and the two JavaScript operations
    the relay applies to them: truthiness tests and property reads. */
module Json {
  import opened Wrappers

  /** A parsed JSON text. Numbers are the doubles JSON.parse produces, seen
      as reals; an object maps each key to the value of its last occurrence. */
  datatype Json =
    | JNull
    | JBool(b: bool)
    | JNumber(n: real)
    | JString(s: string)
    | JArray(items: seq<Json>)
    | JObject(fields: map<string, Json>)

  /** A JavaScript value reachable from a parsed body: undefined, or a JSON value. */
  datatype Value = Undefined | Of(json: Json)

  /** What the transport collected, as JSON.parse sees it: a value, or a text
      on which JSON.parse throws. */
  datatype Body = Parsed(value: Json) | Unparseable

  /** JavaScript truthiness. undefined, null, false, 0 and "" are falsy;
      every other string, number, array and object is truthy (JSON.parse
      never produces NaN). */
  predicate Truthy(v: Value) {
    match v
    case Undefined => false
    case Of(JNull) => false
    case Of(JBool(b)) => b
    case Of(JNumber(n)) => n != 0.0
    case Of(JString(s)) => s != ""
    case Of(JArray(_)) => true
    case Of(JObject(_)) => true
  }

  /** The property names the relay reads. None of them is defined on
      Object.prototype, Array.prototype, String.prototype, Number.prototype or
      Boolean.prototype, so only an object's own key can supply one. */
  datatype Name = Choices | Message | Content {
    function Text(): string {
      match this
      case Choices => "choices"
      case Message => "message"
      case Content => "content"
    }
  }

  /** Reading property name of v (v.name): None when JavaScript throws a
      TypeError, which it does exactly for undefined and null. */
  function Property(v: Value, name: Name): (r: Option<Value>)
    ensures r.None? <==> v == Undefined || v == Of(JNull)
    ensures r.Some? && r.value != Undefined ==> v.Of? && v.json.JObject? && name.Text() in v.json.fields
  {
    match v
    case Undefined => None
    case Of(JNull) => None
    case Of(JObject(fields)) => Some(if name.Text() in fields then Of(fields[name.Text()]) else Undefined)
    case Of(_) => Some(Undefined)
  }

  /** Reading v[0]: the first element of an array, the first character of a
      string, the value of an object's key "0"; undefined for booleans and
      numbers and past the end; None (a TypeError) for undefined and null. */
  function Element0(v: Value): (r: Option<Value>)
    ensures r.None? <==> v == Undefined || v == Of(JNull)
  {
    match v
    case Undefined => None
    case Of(JNull) => None
    case Of(JArray(items)) => Some(if |items| > 0 then Of(items[0]) else Undefined)
    case Of(JString(s)) => Some(if |s| > 0 then Of(JString([s[0]])) else Undefined)
    case Of(JObject(fields)) => Some(if "0" in fields then Of(fields["0"]) else Undefined)
    case Of(_) => Some(Undefined)
  }

  /** A truthy value never makes a property read throw. */
  lemma TruthyReadable(v: Value, name: Name)
    requires Truthy(v)
    ensures Property(v, name).Some? && Element0(v).Some?
  {
  }
}

/** JSON values as JavaScript sees them after `JSON.parse`, with the two
    pieces of JavaScript semantics the handler depends on: truthiness and
    reading the property `message`. */
module Json {
  import opened Wrappers

  /** A parsed JSON value. Numbers are reals: a JSON number never parses to
      NaN, but one too large for a double parses to an infinity, which a real
      cannot hold; how `JSON.stringify` would write such a value back is not
      part of this model. An object is a map because `JSON.parse` keeps the
      last of duplicated keys. */
  datatype Json =
    | Null
    | Bool(b: bool)
    | Num(n: real)
    | Str(s: string)
    | Arr(items: seq<Json>)
    | Obj(fields: map<string, Json>)

  /** JavaScript truthiness of a JSON value: `null`, `false`, `0` and `""`
      are falsy, everything else (every array and object included) is truthy. */
  predicate Truthy(v: Json) {
    match v
    case Null => false
    case Bool(b) => b
    case Num(n) => n != 0.0
    case Str(s) => s != ""
    case Arr(_) => true
    case Obj(_) => true
  }

  /** The outcome of evaluating `v.message`: a value (`None` is `undefined`)
      or the `TypeError` JavaScript throws when `v` is `null`. */
  datatype Read = Value(result: Option<Json>) | TypeError

  /** `v.message` on a parsed JSON value. Only an object can own the property;
      strings, numbers, booleans and arrays yield `undefined` (none of their
      prototypes defines `message`), and `null` throws. */
  function ReadMessage(v: Json): (r: Read)
    ensures r.TypeError? <==> v.Null?
    ensures r.Value? && r.result.Some? <==> v.Obj? && "message" in v.fields
    ensures r.Value? && r.result.Some? ==> r.result.value == v.fields["message"]
  {
    match v
    case Null => TypeError
    case Obj(fields) => Value(if "message" in fields then Some(fields["message"]) else None)
    case _ => Value(None)
  }

  /** JavaScript's `a || b` where `a` may be `undefined`: `a` when it is a
      truthy value, `b` otherwise. */
  function Or(a: Option<Json>, b: Json): (r: Json)
    ensures Truthy(b) ==> Truthy(r)
    ensures r == b || Some(r) == a
    ensures a.Some? && Truthy(a.value) ==> r == a.value
    ensures !(a.Some? && Truthy(a.value)) ==> r == b
  {
    if a.Some? && Truthy(a.value) then a.value else b
  }

}

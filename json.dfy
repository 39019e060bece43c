/** Untrusted JSON-like values as the JavaScript code sees them. */
module Json {

  /** A JavaScript value received from the network. `Undefined` stands for a missing property. */
  datatype Json =
    | Undefined
    | Null
    | Bool(b: bool)
    | Num(n: int)
    | Str(s: string)
    | Arr(items: seq<Json>)
    | Obj(fields: map<string, Json>)

  /** JavaScript truthiness: `[]` and `{}` are truthy; `0`, `""`, `false`, `null` and `undefined` are not. */
  predicate Truthy(v: Json) {
    match v
    case Undefined => false
    case Null => false
    case Bool(b) => b
    case Num(n) => n != 0
    case Str(s) => s != ""
    case Arr(_) => true
    case Obj(_) => true
  }

  /** `v?.key`: only objects carry the keys the source reads; on anything else the result is `undefined`. */
  function Member(v: Json, key: string): Json {
    if v.Obj? && key in v.fields then v.fields[key] else Undefined
  }

  /** `v?.[0]`: the first element of an array, key "0" of an object, the first character of a string. */
  function First(v: Json): Json {
    match v
    case Arr(items) => if |items| > 0 then items[0] else Undefined
    case Obj(fields) => if "0" in fields then fields["0"] else Undefined
    case Str(s) => if |s| > 0 then Str([s[0]]) else Undefined
    case _ => Undefined
  }

  /** `a || b` */
  function Or(a: Json, b: Json): (r: Json)
    ensures Truthy(a) ==> r == a
    ensures !Truthy(a) ==> r == b
  {
    if Truthy(a) then a else b
  }

  /** `typeof v === 'object'` (which holds for `null` and arrays too). */
  predicate IsObjectType(v: Json) {
    v.Null? || v.Arr? || v.Obj?
  }

  /** `Array.isArray(v) && v.length > 0` */
  predicate IsNonEmptyArray(v: Json) {
    v.Arr? && |v.items| > 0
  }

  /** `v > 0` for the values a `length` property may hold; other coercions are not modelled. */
  predicate Positive(v: Json) {
    match v
    case Num(n) => n > 0
    case Bool(b) => b
    case _ => false
  }

  /** `v.length > 0`, for a value that is not `null` or `undefined`. */
  predicate LengthPositive(v: Json) {
    match v
    case Arr(items) => |items| > 0
    case Str(s) => |s| > 0
    case Obj(fields) => "length" in fields && Positive(fields["length"])
    case _ => false
  }

  /** A JavaScript array of strings. */
  function Strings(ss: seq<string>): (r: Json)
    ensures r.Arr? && |r.items| == |ss|
    ensures forall i :: 0 <= i < |ss| ==> r.items[i] == Str(ss[i])
  {
    Arr(seq(|ss|, i requires 0 <= i < |ss| => Str(ss[i])))
  }

  /** Text produced by `JSON.stringify`; only the value it encodes is modelled. */
  datatype JsonText = Stringified(value: Json)

  function Stringify(v: Json): JsonText {
    Stringified(v)
  }

  function Parse(t: JsonText): Json {
    t.value
  }
}

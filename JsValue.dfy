/** The slice of JavaScript value semantics that the server and the chat widget
    rely on: JSON-like values plus `undefined`, truthiness (what `!x` and
    `x || d` test), property reads that throw on `null`/`undefined`, optional
    chaining (`x?.k`) and the conversion of a value to an object key. */
module JsValue {

  datatype Option<T> = None | Some(value: T)

  /** The outcome of an operation that may throw; `message` is the thrown
      error's `message`. */
  datatype Result<T> = Ok(value: T) | Fail(message: string)

  /** A JavaScript value as it flows through the handlers. Numbers are
      modelled as integers. */
  datatype Value =
    | Undefined
    | Null
    | Bool(b: bool)
    | Num(n: int)
    | Str(s: string)
    | Arr(elements: seq<Value>)
    | Obj(fields: map<string, Value>)

  predicate Nullish(v: Value) {
    v.Undefined? || v.Null?
  }

  /** JavaScript truthiness: `undefined`, `null`, `false`, `0` and `""` are
      falsy, every array and object is truthy. */
  predicate Truthy(v: Value) {
    match v
    case Undefined => false
    case Null => false
    case Bool(b) => b
    case Num(n) => n != 0
    case Str(s) => s != ""
    case Arr(_) => true
    case Obj(_) => true
  }

  /** `v || fallback` */
  function Or(v: Value, fallback: Value): (r: Value)
    ensures Truthy(v) ==> r == v
    ensures !Truthy(v) ==> r == fallback
  {
    if Truthy(v) then v else fallback
  }

  /** `v.key` on a value that is not null or undefined. Only own fields of
      objects are modelled; every other read gives `undefined`. */
  function Get(v: Value, key: string): Value
    requires !Nullish(v)
  {
    match v
    case Obj(fields) => if key in fields then fields[key] else Undefined
    case _ => Undefined
  }

  /** `v.key`: throws a TypeError when `v` is null or undefined. The message
      follows the V8 engine's wording. */
  function Member(v: Value, key: string): (r: Result<Value>)
    ensures r.Fail? <==> Nullish(v)
    ensures r.Ok? ==> r.value == Get(v, key)
  {
    if v.Undefined? then Fail("Cannot read properties of undefined (reading '" + key + "')")
    else if v.Null? then Fail("Cannot read properties of null (reading '" + key + "')")
    else Ok(Get(v, key))
  }

  /** `v?.key`: short-circuits to `undefined` instead of throwing. */
  function OptionalMember(v: Value, key: string): (r: Value)
    ensures Nullish(v) ==> r == Undefined
    ensures !Nullish(v) ==> r == Get(v, key)
  {
    if Nullish(v) then Undefined else Get(v, key)
  }

  function DigitChar(d: nat): char
    requires d < 10
  {
    "0123456789"[d]
  }

  function NatString(n: nat): string
    decreases n
  {
    if n < 10 then [DigitChar(n)] else NatString(n / 10) + [DigitChar(n % 10)]
  }

  function IntString(i: int): string {
    if i < 0 then "-" + NatString(-i) else NatString(i)
  }

  /** `String(v)` as used when `v` is an object key (`map[v] = ...`):
      strings stay as they are, arrays join their elements with commas
      (null and undefined elements give the empty string) and plain
      objects become "[object Object]". */
  function PropertyKey(v: Value): (r: string)
    ensures v.Str? ==> r == v.s
    decreases v, 0
  {
    match v
    case Undefined => "undefined"
    case Null => "null"
    case Bool(b) => if b then "true" else "false"
    case Num(n) => IntString(n)
    case Str(s) => s
    case Arr(xs) => JoinKeys(seq(|xs|, i requires 0 <= i < |xs| => ElementKey(xs[i])))
    case Obj(_) => "[object Object]"
  }

  function ElementKey(v: Value): string
    decreases v, 1
  {
    if Nullish(v) then "" else PropertyKey(v)
  }

  function JoinKeys(parts: seq<string>): string {
    if |parts| == 0 then ""
    else if |parts| == 1 then parts[0]
    else parts[0] + "," + JoinKeys(parts[1..])
  }
}

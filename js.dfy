/** JavaScript values as the services see them (parsed JSON bodies and option
    arguments), with the few language operations the services apply to them:
    truthiness, property access, optional chaining, spreading, string
    conversion and strict equality. */
module Js {

  /** A value as JSON.parse produces it, plus `undefined` for absent
      arguments and missing properties. Numbers are integers: the services
      never compute with them. */
  datatype Json =
    | Undefined
    | Null
    | Bool(b: bool)
    | Num(n: int)
    | Str(s: string)
    | Arr(elems: seq<Json>)
    | Obj(fields: map<string, Json>)

  /** What a service call can reject with. */
  datatype Error =
    | MissingParameter(message: string)         // `throw new Error(message)` in a service guard
    | MissingRequiredHeaders(message: string)   // the HTTP client's credential check
    | TransportError(status: int)               // the request itself failed (network or non-2xx status)
    | Unanswered                                // a request the scripted server has no reply left for
    | TypeError                                 // JS TypeError: property of null/undefined, spreading a non-iterable, ...

  datatype Result<T> = Ok(value: T) | Err(error: Error)

  datatype Outcome = Pass | Fail(error: Error)

  /** A value that `if (v)` accepts. */
  predicate Truthy(v: Json) {
    match v
    case Undefined => false
    case Null => false
    case Bool(b) => b
    case Num(n) => n != 0
    case Str(s) => s != ""
    case Arr(_) => true
    case Obj(_) => true
  }

  /** The falsy values of the model are exactly `undefined`, `null`,
      `false`, `0` and the empty string; in particular null and undefined
      are falsy. */
  lemma FalsyValues(v: Json)
    ensures !Truthy(v) <==> v == Undefined || v == Null || v == Bool(false) || v == Num(0) || v == Str("")
    ensures Nullish(v) ==> !Truthy(v)
  {
  }

  predicate Nullish(v: Json) {
    v.Undefined? || v.Null?
  }

  /** The property `key` of a value that is not null or undefined; a key the
      value does not have reads as undefined. Only keys that are not built-in
      properties of strings or arrays are ever read. */
  function Field(v: Json, key: string): Json {
    if v.Obj? && key in v.fields then v.fields[key] else Undefined
  }

  /** `v.key`: a TypeError on null and undefined. */
  function Member(v: Json, key: string): (r: Result<Json>)
    ensures r.Err? <==> Nullish(v)
    ensures r.Err? ==> r.error == TypeError
    ensures r.Ok? ==> r.value == Field(v, key)
  {
    if Nullish(v) then Err(TypeError) else Ok(Field(v, key))
  }

  /** `v?.key`: undefined on null and undefined instead of a TypeError. */
  function OptMember(v: Json, key: string): (r: Json)
    ensures Nullish(v) ==> r == Undefined
    ensures Member(v, key).Ok? ==> r == Member(v, key).value
  {
    if Nullish(v) then Undefined else Field(v, key)
  }

  /** `a ?? b` */
  function Coalesce(a: Json, b: Json): Json {
    if Nullish(a) then b else a
  }

  /** `...v` in an argument list: arrays give their elements, strings their
      characters, everything else is not iterable. */
  function Spread(v: Json): (r: Result<seq<Json>>)
    ensures v.Arr? ==> r == Ok(v.elems)
    ensures !v.Arr? && !v.Str? ==> r == Err(TypeError)
  {
    match v
    case Arr(xs) => Ok(xs)
    case Str(s) => Ok(seq(|s|, i requires 0 <= i < |s| => Str([s[i]])))
    case _ => Err(TypeError)
  }

  /** The own properties that `{...v}` copies. Strings and arrays (whose
      indices would become keys) are not modelled and copy nothing. */
  function ObjectSpread(v: Json): map<string, Json> {
    if v.Obj? then v.fields else map[]
  }

  /** `a === b` between a value and a value parsed from a response: equal
      primitives; two objects are never the same object. */
  predicate StrictEquals(a: Json, b: Json) {
    a == b && !a.Arr? && !a.Obj?
  }

  function DigitText(d: nat): string
    requires d < 10
  {
    ["0123456789"[d]]
  }

  function NatText(n: nat): (r: string)
    ensures 1 <= |r| && forall i :: 0 <= i < |r| ==> '0' <= r[i] <= '9'
    ensures r[0] == '0' <==> n == 0
    decreases n
  {
    if n < 10 then DigitText(n) else NatText(n / 10) + DigitText(n % 10)
  }

  function NumText(n: int): (r: string)
    ensures r != "" && (r[0] == '-' <==> n < 0)
  {
    if n < 0 then "-" + NatText(-n) else NatText(n)
  }

  /** `String(v)`, as a template literal `${v}` converts it: numbers in
      plain decimal (which is JavaScript's form only below 10^21) and every
      object as "[object Object]" (an own `toString` key is not consulted). */
  function Text(v: Json): (r: string)
    ensures v.Str? ==> r == v.s
    ensures !v.Str? && !v.Arr? ==> r != ""
    decreases v, 1
  {
    match v
    case Undefined => "undefined"
    case Null => "null"
    case Bool(b) => if b then "true" else "false"
    case Num(n) => NumText(n)
    case Str(s) => s
    case Arr(xs) => ElementsText(xs)
    case Obj(_) => "[object Object]"
  }

  /** `Array.prototype.join(",")`: null and undefined elements become "". */
  function ElementsText(xs: seq<Json>): string
    decreases xs, 0
  {
    if xs == [] then ""
    else
      (if Nullish(xs[0]) then "" else Text(xs[0]))
      + (if |xs| == 1 then "" else "," + ElementsText(xs[1..]))
  }

  /** `parts.join(sep)` */
  function Join(parts: seq<string>, sep: string): string {
    if parts == [] then ""
    else if |parts| == 1 then parts[0]
    else parts[0] + sep + Join(parts[1..], sep)
  }

  /** `xs.map(f)` where `f` may throw: the first failure in index order wins. */
  function MapResults(xs: seq<Json>, f: Json -> Result<Json>): (r: Result<seq<Json>>)
    ensures r.Ok? <==> forall i :: 0 <= i < |xs| ==> f(xs[i]).Ok?
    ensures r.Ok? ==> |r.value| == |xs| && forall i :: 0 <= i < |xs| ==> r.value[i] == f(xs[i]).value
    ensures r.Err? ==> exists i :: 0 <= i < |xs| && f(xs[i]).Err? && r.error == f(xs[i]).error
  {
    if xs == [] then Ok([])
    else
      match f(xs[0])
      case Err(e) => Err(e)
      case Ok(y) =>
        match MapResults(xs[1..], f)
        case Err(e) => Err(e)
        case Ok(ys) => Ok([y] + ys)
  }
}

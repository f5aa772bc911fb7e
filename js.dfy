/**
 * The JavaScript values the disaster pipeline handles, and the few built-ins its
 * decisions rest on: truthiness, the coercing global `isNaN`, `Math.min`/`Math.max`
 * with their NaN rule, `toLowerCase`, `includes` and `trim`.
 *
 * String-to-number conversions (`Number(s)`, `parseFloat`, `parseInt`, `new Date(s)`)
 * are not modelled; a `Parsers` value supplies them, so every statement below holds
 * whatever those conversions return.
 */
module Js {

  datatype Option<T> = None | Some(value: T)

  /** A JavaScript number: finite, or NaN. Infinities are not modelled. */
  datatype Number = Finite(x: real) | NaN

  /** A value as a record field may hold it. `Instant` is a `Date` object with its time value in milliseconds. */
  datatype JsValue =
    | Undefined
    | Null
    | Bool(b: bool)
    | Num(n: Number)
    | Text(s: string)
    | Instant(time: Number)

  /** The runtime's conversions of strings: `Number(s)`, `parseFloat(s)`, `parseInt(s)` and the time value of `new Date(s)`. */
  datatype Parsers = Parsers(
    toNumber: string -> Number,
    parseFloat: string -> Number,
    parseInt: string -> Number,
    parseDate: string -> Number)

  /** Milliseconds in a day, the divisor of every day difference. */
  const MsPerDay: real := 86400000.0

  predicate Truthy(v: JsValue) {
    match v
    case Undefined => false
    case Null => false
    case Bool(b) => b
    case Num(n) => n.Finite? && n.x != 0.0
    case Text(s) => s != ""
    case Instant(_) => true
  }

  /** `typeof v === 'number' && !isNaN(v)` */
  predicate IsNumber(v: JsValue) {
    v.Num? && v.n.Finite?
  }

  /** `Number(v)`, the coercion behind arithmetic and the global `isNaN`. */
  function ToNumber(p: Parsers, v: JsValue): Number {
    match v
    case Undefined => NaN
    case Null => Finite(0.0)
    case Bool(b) => Finite(if b then 1.0 else 0.0)
    case Num(n) => n
    case Text(s) => p.toNumber(s)
    case Instant(t) => t
  }

  /** The global `isNaN(v)`, which coerces its argument first. */
  predicate IsNaN(p: Parsers, v: JsValue) {
    ToNumber(p, v).NaN?
  }

  /** `parseFloat(v)`: only numbers and numeric text can parse; the string forms of the other values never do. */
  function ParseFloat(p: Parsers, v: JsValue): Number {
    match v
    case Num(n) => n
    case Text(s) => p.parseFloat(s)
    case _ => NaN
  }

  /** The time value of `new Date(v)` for a value that is present. */
  function DateOf(p: Parsers, v: JsValue): Number {
    match v
    case Undefined => NaN
    case Null => Finite(0.0)
    case Bool(b) => Finite(if b then 1.0 else 0.0)
    case Num(n) => n
    case Text(s) => p.parseDate(s)
    case Instant(t) => t
  }

  /** An optional string field read as a value: an absent field reads as `undefined`. */
  function FromOption(o: Option<string>): JsValue {
    if o.Some? then Text(o.value) else Undefined
  }

  function Mul(a: Number, b: Number): Number {
    if a.Finite? && b.Finite? then Finite(a.x * b.x) else NaN
  }

  function Sub(a: Number, b: Number): Number {
    if a.Finite? && b.Finite? then Finite(a.x - b.x) else NaN
  }

  function Div(a: Number, d: real): Number
    requires d != 0.0
  {
    if a.Finite? then Finite(a.x / d) else NaN
  }

  /** `Math.min(a, b)`: NaN as soon as either argument is NaN. */
  function MathMin(a: Number, b: Number): Number {
    if a.Finite? && b.Finite? then Finite(if a.x <= b.x then a.x else b.x) else NaN
  }

  /** `Math.max(a, b)`: NaN as soon as either argument is NaN. */
  function MathMax(a: Number, b: Number): Number {
    if a.Finite? && b.Finite? then Finite(if a.x >= b.x then a.x else b.x) else NaN
  }

  /** Lower-casing of one character; only the ASCII letters change (the words the pipeline looks for are ASCII). */
  function LowerChar(c: char): char {
    if 'A' <= c <= 'Z' then (c as int + 32) as char else c
  }

  /** `s.toLowerCase()` */
  function ToLower(s: string): (r: string)
    ensures |r| == |s|
    ensures forall i :: 0 <= i < |s| ==> r[i] == LowerChar(s[i])
  {
    seq(|s|, i requires 0 <= i < |s| => LowerChar(s[i]))
  }

  /** `t` occurs in `s` starting at index `i`. */
  predicate OccursAt(s: string, t: string, i: int) {
    0 <= i <= |s| - |t| && s[i..i + |t|] == t
  }

  /** `s.includes(t)` */
  predicate Includes(s: string, t: string) {
    exists i :: 0 <= i <= |s| - |t| && OccursAt(s, t, i)
  }

  /** The characters `String.prototype.trim` removes: white space and line terminators. */
  predicate IsSpace(c: char) {
    || c == ' ' || c == '\t' || c == '\n' || c == '\r'
    || c == '\U{000B}' || c == '\U{000C}' || c == '\U{00A0}' || c == '\U{1680}'
    || ('\U{2000}' <= c <= '\U{200A}')
    || c == '\U{2028}' || c == '\U{2029}' || c == '\U{202F}' || c == '\U{205F}'
    || c == '\U{3000}' || c == '\U{FEFF}'
  }

  function TrimStart(s: string): string {
    if s != [] && IsSpace(s[0]) then TrimStart(s[1..]) else s
  }

  function TrimEnd(s: string): string {
    if s != [] && IsSpace(s[|s| - 1]) then TrimEnd(s[..|s| - 1]) else s
  }

  /** `s.trim()` */
  function Trim(s: string): string {
    TrimEnd(TrimStart(s))
  }

  /** `s.trim()` is empty exactly when every character of `s` is white space. */
  lemma {:induction false} TrimEmptyIffBlank(s: string)
    ensures Trim(s) == "" <==> forall i :: 0 <= i < |s| ==> IsSpace(s[i])
  {
    TrimStartEmptyIffBlank(s);
    var t := TrimStart(s);
    TrimStartShape(s);
    TrimEndEmptyIffBlank(t);
    if t != "" {
      // t starts with a character that is not white space
      assert !IsSpace(t[0]);
    }
  }

  lemma {:induction false} TrimStartShape(s: string)
    ensures TrimStart(s) == "" || !IsSpace(TrimStart(s)[0])
  {
    if s != [] && IsSpace(s[0]) {
      TrimStartShape(s[1..]);
    }
  }

  lemma {:induction false} TrimStartEmptyIffBlank(s: string)
    ensures TrimStart(s) == "" <==> forall i :: 0 <= i < |s| ==> IsSpace(s[i])
  {
    if s != [] && IsSpace(s[0]) {
      TrimStartEmptyIffBlank(s[1..]);
      assert forall i :: 1 <= i < |s| ==> s[i] == s[1..][i - 1];
    }
  }

  lemma {:induction false} TrimEndEmptyIffBlank(s: string)
    ensures TrimEnd(s) == "" <==> forall i :: 0 <= i < |s| ==> IsSpace(s[i])
  {
    if s != [] && IsSpace(s[|s| - 1]) {
      TrimEndEmptyIffBlank(s[..|s| - 1]);
      assert forall i :: 0 <= i < |s| - 1 ==> s[i] == s[..|s| - 1][i];
    }
  }
}

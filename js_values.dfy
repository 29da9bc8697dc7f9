/**
 * JavaScript values as the story queue, the service worker and the page
 * helpers touch them: primitives, plain records (objects with own
 * properties), truthiness, `||`, and the few string operations the
 * code uses (startsWith, includes, template-literal conversion).
 *
 * Numbers are integers: the fractional part of a JavaScript number
 * (and NaN) is not modelled.
 */
module JsValues {

  datatype Option<+T> = None | Some(value: T)

  /** A settled promise: fulfilled with a value or rejected with an error. */
  datatype Result<+T, +E> = Ok(value: T) | Err(error: E)

  /** A JavaScript primitive value. */
  datatype Value = Undefined | Null | Bool(b: bool) | Num(n: int) | Str(s: string)

  /** A plain object, as its own properties. A missing property reads as `undefined`. */
  type Record = map<string, Value>

  /** `!!v` */
  predicate Truthy(v: Value) {
    match v
    case Undefined => false
    case Null => false
    case Bool(b) => b
    case Num(n) => n != 0
    case Str(s) => s != ""
  }

  /** `a || b` */
  function Or(a: Value, b: Value): Value {
    if Truthy(a) then a else b
  }

  /** `r.name` (and `r?.name` on a present record). */
  function Field(r: Record, name: string): Value {
    if name in r then r[name] else Undefined
  }

  /** What `localStorage.getItem(k)` yields: a string or `null`. */
  function StoredValue(item: Option<string>): Value {
    match item
    case Some(s) => Str(s)
    case None => Null
  }

  /** `s.startsWith(p)` */
  predicate StartsWith(s: string, p: string) {
    |p| <= |s| && s[..|p|] == p
  }

  /** `s.includes(sub)` */
  predicate Contains(s: string, sub: string)
    decreases |s|
  {
    StartsWith(s, sub) || (|s| > 0 && Contains(s[1..], sub))
  }

  /** `s.endsWith(p)` */
  predicate EndsWith(s: string, p: string) {
    |p| <= |s| && s[|s| - |p|..] == p
  }

  /** The position of the first `c` in `s`, if any. */
  function IndexOf(s: string, c: char): (r: Option<nat>)
    ensures r.None? <==> c !in s
    ensures r.Some? ==> r.value < |s| && s[r.value] == c && c !in s[..r.value]
  {
    if |s| == 0 then None
    else if s[0] == c then Some(0)
    else
      match IndexOf(s[1..], c)
      case None => None
      case Some(i) =>
        assert s[..i + 1] == [s[0]] + s[1..][..i];
        Some(i + 1)
  }

  /** The position of the last `c` in `s`, if any. */
  function LastIndexOf(s: string, c: char): (r: Option<nat>)
    ensures r.None? <==> c !in s
    ensures r.Some? ==> r.value < |s| && s[r.value] == c && c !in s[r.value + 1..]
    decreases |s|
  {
    if |s| == 0 then None
    else
      var n := |s| - 1;
      if s[n] == c then
        assert s[n + 1..] == [];
        Some(n)
      else
        match LastIndexOf(s[..n], c)
        case None =>
          assert s == s[..n] + [s[n]];
          None
        case Some(i) =>
          assert s[i + 1..] == s[..n][i + 1..] + [s[n]];
          Some(i)
  }

  /** The first `c` of `s` is at `i` when `s[i]` is `c` and no earlier character is. */
  lemma IndexOfAt(s: string, c: char, i: nat)
    requires i < |s| && s[i] == c && c !in s[..i]
    ensures IndexOf(s, c) == Some(i)
  {
    assert s[i] in s;
  }

  /** The last `c` of `s` is at `i` when `s[i]` is `c` and no later character is. */
  lemma LastIndexOfAt(s: string, c: char, i: nat)
    requires i < |s| && s[i] == c && c !in s[i + 1..]
    ensures LastIndexOf(s, c) == Some(i)
  {
    assert s[i] in s;
  }

  function DigitChar(d: nat): char
    requires d < 10
  {
    ('0' as int + d) as char
  }

  /** Decimal digits of a natural number, most significant first. */
  function NatToString(n: nat): (r: string)
    ensures |r| > 0
    decreases n
  {
    if n < 10 then [DigitChar(n)] else NatToString(n / 10) + [DigitChar(n % 10)]
  }

  /** `String(v)` (also what `${v}` in a template literal produces). */
  function ToJsString(v: Value): string {
    match v
    case Undefined => "undefined"
    case Null => "null"
    case Bool(b) => if b then "true" else "false"
    case Num(n) => if n < 0 then "-" + NatToString(-n) else NatToString(n)
    case Str(s) => s
  }
}

/**
 * JavaScript values as they arrive in a parsed JSON request body, and the few
 * pieces of JavaScript semantics the route handlers rely on: truthiness,
 * conversion to a string, and lower-casing.
 */
module Values {

  datatype Option<+T> = None | Some(value: T) {
    /** `x = d` destructuring default: the value when present, `d` when undefined. */
    function GetOr(d: T): T {
      match this
      case Some(v) => v
      case None => d
    }
  }

  /**
   * A value of a request-body field. Numbers are integers here; `Obj` stands
   * for a (non-array) JSON object.
   */
  datatype Value =
    | Undefined
    | Null
    | Bool(b: bool)
    | Num(n: int)
    | Str(s: string)
    | Obj

  /** JavaScript truthiness: `!v` is true exactly for these falsy values. */
  predicate Truthy(v: Value) {
    match v
    case Undefined => false
    case Null => false
    case Bool(b) => b
    case Num(n) => n != 0
    case Str(s) => s != ""
    case Obj => true
  }

  /** `r` can be obtained from `s` by deleting elements: order is kept. */
  ghost predicate IsSubsequence<T>(r: seq<T>, s: seq<T>) {
    if r == [] then true
    else if s == [] then false
    else (r[0] == s[0] && IsSubsequence(r[1..], s[1..])) || IsSubsequence(r, s[1..])
  }

  predicate IsDigit(c: char) {
    '0' <= c <= '9'
  }

  predicate AllDigits(s: string) {
    forall i :: 0 <= i < |s| ==> IsDigit(s[i])
  }

  /** Decimal notation of a natural number, most significant digit first. */
  function NatText(n: nat): (t: string)
    ensures t != [] && AllDigits(t)
    ensures t[0] == '0' ==> n == 0
  {
    if n < 10 then ["0123456789"[n]]
    else NatText(n / 10) + ["0123456789"[n % 10]]
  }

  /** `String(n)` for an integer `n`. */
  function IntText(i: int): string {
    if i < 0 then "-" + NatText(-i) else NatText(i)
  }

  /** `String(v)`: the string a value converts to, e.g. when used as a property key. */
  function JsString(v: Value): string {
    match v
    case Undefined => "undefined"
    case Null => "null"
    case Bool(b) => if b then "true" else "false"
    case Num(n) => IntText(n)
    case Str(s) => s
    case Obj => "[object Object]"
  }

  function LowerChar(c: char): char {
    if 'A' <= c <= 'Z' then (c as int + 32) as char else c
  }

  /** `s.toLowerCase()`, restricted to the ASCII letters. */
  function Lower(s: string): (r: string)
    ensures |r| == |s|
    ensures forall i :: 0 <= i < |s| ==> r[i] == LowerChar(s[i])
  {
    if s == [] then [] else [LowerChar(s[0])] + Lower(s[1..])
  }

  lemma {:induction false} LowerIdempotent(s: string)
    ensures Lower(Lower(s)) == Lower(s)
  {
    if s != [] {
      LowerIdempotent(s[1..]);
      assert Lower(s)[1..] == Lower(s[1..]);
    }
  }

  /** `s.includes(sub)`: `sub` occurs in `s` at some offset. */
  ghost predicate Contains(s: string, sub: string) {
    exists i :: 0 <= i <= |s| && sub <= s[i..]
  }

  function Includes(s: string, sub: string): (r: bool)
    ensures r <==> Contains(s, sub)
  {
    if sub <= s then
      assert sub <= s[0..];
      true
    else if |s| <= |sub| then
      assert forall i :: 0 < i <= |s| ==> !(sub <= s[i..]);
      false
    else
      var r := Includes(s[1..], sub);
      assert forall i :: 0 < i <= |s| ==> s[i..] == s[1..][i - 1..];
      r
  }
}

/**
 * The few JavaScript value semantics the client's logic depends on: truthiness,
 * `Number.isInteger`, strict equality and `String.prototype.toLowerCase`.
 */
module JsValues {

  /**
   * A JavaScript value as far as the synchronisation layer inspects it. Primitives are
   * compared by value; objects and arrays only by identity, so they are references.
   * With this representation Dafny's `==` is JavaScript's `===` (NaN is not modelled).
   */
  datatype Value =
    | Undefined
    | Null
    | Bool(b: bool)
    | Number(n: real)
    | Str(s: string)
    | Reference(address: nat)

  /** JavaScript truthiness: what an `if (v)` or `v && …` test accepts. */
  predicate Truthy(v: Value)
  {
    match v
    case Undefined => false
    case Null => false
    case Bool(b) => b
    case Number(n) => n != 0.0
    case Str(s) => s != ""
    case Reference(_) => true
  }

  /** `Number.isInteger(v)`: a number without a fractional part; false for every other type. */
  predicate IsInteger(v: Value)
  {
    v.Number? && v.n.Floor as real == v.n
  }

  predicate IsUpper(c: char)
  {
    'A' <= c <= 'Z'
  }

  /** No character of `s` is an upper-case letter. */
  predicate IsLower(s: string)
  {
    forall i :: 0 <= i < |s| ==> !IsUpper(s[i])
  }

  /** Lower-casing of one character (ASCII letters). */
  function LowerChar(c: char): (d: char)
    ensures !IsUpper(d)
    ensures !IsUpper(c) ==> d == c
    ensures IsUpper(c) ==> d as int == c as int + ('a' as int - 'A' as int)
  {
    if IsUpper(c) then (c as int + ('a' as int - 'A' as int)) as char else c
  }

  /** `s.toLowerCase()`: maps every character through `LowerChar` and keeps the length. */
  function ToLower(s: string): (r: string)
    ensures |r| == |s|
    ensures forall i :: 0 <= i < |s| ==> r[i] == LowerChar(s[i])
  {
    if s == [] then [] else [LowerChar(s[0])] + ToLower(s[1..])
  }

  /** Lower-casing always yields a lower-case string. */
  lemma ToLowerIsLower(s: string)
    ensures IsLower(ToLower(s))
  {
  }

  /** A string that is already lower-case is left as it is. */
  lemma {:induction false} ToLowerKeepsLower(s: string)
    requires IsLower(s)
    ensures ToLower(s) == s
  {
    if s != [] {
      ToLowerKeepsLower(s[1..]);
    }
  }

  /** Lower-casing twice is lower-casing once. */
  lemma ToLowerIdempotent(s: string)
    ensures ToLower(ToLower(s)) == ToLower(s)
  {
    ToLowerIsLower(s);
    ToLowerKeepsLower(ToLower(s));
  }
}

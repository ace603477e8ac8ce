/**
 * The few JavaScript coercions the server's option checks rely on:
 * `isNaN`, `=== null`, comparisons against numbers, and `x | 0`.
 */
module Js {
  import opened Common

  /** A loosely typed option value, as far as the server's checks tell values apart. */
  datatype JsValue = Undefined | Null | NaN | Num(n: real) | Str(s: string)

  /** An option value that reaches the numeric checks (string values are not modelled). */
  type NumericValue = v: JsValue | !v.Str? witness Undefined

  /** `Number(v)`; `None` stands for NaN. */
  function ToNumber(v: NumericValue): (r: Option<real>)
    ensures r.None? <==> v.Undefined? || v.NaN?
    ensures v.Null? ==> r == Some(0.0)
    ensures v.Num? ==> r == Some(v.n)
  {
    match v
    case Undefined => None
    case Null => Some(0.0)
    case NaN => None
    case Num(n) => Some(n)
  }

  /** The global `isNaN(v)`: true for undefined and NaN, false for null and every number. */
  predicate IsNaN(v: NumericValue): (b: bool)
    ensures b <==> v.Undefined? || v.NaN?
  {
    ToNumber(v).None?
  }

  /** `v < c` for a number `c`: false whenever `v` is NaN. */
  predicate LessThan(v: NumericValue, c: real): (b: bool)
    ensures b <==> (v.Null? && 0.0 < c) || (v.Num? && v.n < c)
  {
    ToNumber(v).Some? && ToNumber(v).value < c
  }

  /** `v >= c` for a number `c`: false whenever `v` is NaN. */
  predicate AtLeast(v: NumericValue, c: real): (b: bool)
    ensures b <==> (v.Null? && 0.0 >= c) || (v.Num? && v.n >= c)
  {
    ToNumber(v).Some? && ToNumber(v).value >= c
  }

  const TWO_31: int := 0x8000_0000
  const TWO_32: int := 0x1_0000_0000

  /** Rounding toward zero, the first step of ToInt32. */
  function Trunc(x: real): (r: int)
    ensures 0.0 <= x ==> 0 <= r && r as real <= x < r as real + 1.0
    ensures x < 0.0 ==> r <= 0 && r as real - 1.0 < x <= r as real
  {
    if x >= 0.0 then x.Floor else -((-x).Floor)
  }

  /** `x | 0` on a finite number: truncate, then wrap into a signed 32-bit integer. */
  function ToInt32(x: real): (r: int)
    ensures -TWO_31 <= r < TWO_31
    ensures (r - Trunc(x)) % TWO_32 == 0
  {
    var m := Trunc(x) % TWO_32;
    if m >= TWO_31 then m - TWO_32 else m
  }

  /** In the signed 32-bit range `x | 0` only drops the fraction. */
  lemma ToInt32InRange(x: real)
    requires -TWO_31 <= Trunc(x) < TWO_31
    ensures ToInt32(x) == Trunc(x)
  {
    var t := Trunc(x);
    if t < 0 {
      assert t % TWO_32 == t + TWO_32;
    } else {
      assert t % TWO_32 == t;
    }
  }
}

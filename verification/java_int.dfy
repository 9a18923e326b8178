/** Java's 32-bit `int` arithmetic, written out over unbounded integers:
    two's-complement wrap-around for `+` and unary `-`, and the narrowing
    conversion of a `double` to an `int` (truncation toward zero, saturating
    at the ends of the range). Doubles are modelled as exact reals, so NaN
    and the infinities do not arise. */
module JavaInt {

  const MinInt: int := -0x8000_0000
  const MaxInt: int := 0x7fff_ffff
  /** Two to the 32: the period of `int` wrap-around. */
  const Modulus: int := 0x1_0000_0000

  /** A value of Java type `int`. */
  newtype Int32 = x: int | MinInt <= x <= MaxInt

  predicate InRange(n: int) {
    MinInt <= n <= MaxInt
  }

  /** Java `a + b` on two `int`s. */
  function Add(a: Int32, b: Int32): (s: Int32)
    ensures InRange(a as int + b as int) ==> s as int == a as int + b as int
    ensures a as int + b as int > MaxInt ==> s as int == a as int + b as int - Modulus
    ensures a as int + b as int < MinInt ==> s as int == a as int + b as int + Modulus
  {
    var n := a as int + b as int;
    if n > MaxInt then (n - Modulus) as Int32
    else if n < MinInt then (n + Modulus) as Int32
    else n as Int32
  }

  /** Java unary `-a` on an `int`: exact except that `-MIN_VALUE` is `MIN_VALUE`. */
  function Negate(a: Int32): (r: Int32)
    ensures a as int != MinInt ==> r as int == -(a as int)
    ensures a as int == MinInt ==> r as int == MinInt
  {
    if a as int == MinInt then a else -a
  }

  /** The integer nearest to `v` in the direction of zero. */
  function TruncateTowardZero(v: real): (t: int)
    ensures v >= 0.0 ==> 0 <= t && t as real <= v < (t + 1) as real
    ensures v < 0.0 ==> t <= 0 && (t - 1) as real < v <= t as real
  {
    if v >= 0.0 then v.Floor else -((-v).Floor)
  }

  /** Java `(int) v` for a finite `double v` (narrowing primitive conversion):
      round toward zero, then saturate at `MIN_VALUE` / `MAX_VALUE`. */
  function DoubleToInt(v: real): (i: Int32)
    ensures InRange(TruncateTowardZero(v)) ==> i as int == TruncateTowardZero(v)
    ensures TruncateTowardZero(v) > MaxInt ==> i as int == MaxInt
    ensures TruncateTowardZero(v) < MinInt ==> i as int == MinInt
  {
    var t := TruncateTowardZero(v);
    if t > MaxInt then MaxInt as Int32
    else if t < MinInt then MinInt as Int32
    else t as Int32
  }
}

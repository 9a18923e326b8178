/** `DriveBase.scaleInput` with Java's `int` semantics spelled out: the index
    is `(int)(dVal * 16.0)`, negated when negative and clamped from above at
    16, and the array access is bounds-checked. For `dVal <= -2^27` the cast
    saturates at `Integer.MIN_VALUE`, whose negation overflows back to
    itself, so the index stays negative, passes the upper clamp and the
    lookup throws. Everywhere else the result is the curve of `InputScaler`. */
module ScalerAsWritten {
  import opened JavaInt
  import InputScaler

  /** The outcome of the Java method: a power, or the
      `ArrayIndexOutOfBoundsException` raised by the table lookup. */
  datatype Lookup = Scaled(power: real) | IndexOutOfBounds(index: int)

  /** The first input, counting down, whose sixteenfold value no longer
      truncates to an `int` other than `Integer.MIN_VALUE`. */
  const FirstFailingInput: real := -134217728.0

  /** The index computed by the Java code before the lookup: the curve's
      band index above `FirstFailingInput`, and `Integer.MIN_VALUE` (which
      the upper clamp lets through) from there down. */
  function JavaScaleIndex(x: real): (r: Int32)
    ensures x > FirstFailingInput ==> r as int == InputScaler.ScaleIndex(x)
    ensures x <= FirstFailingInput ==> r as int == MinInt
  {
    var index := DoubleToInt(x * 16.0);
    var positive := if index < 0 then Negate(index) else index;
    if positive > 16 then 16 else positive
  }

  /** The Java method as written: it returns the curve's value exactly when
      `x > -2^27`, and throws on every smaller input. */
  function ScaleInputJava(x: real): (o: Lookup)
    ensures o.IndexOutOfBounds? <==> x <= FirstFailingInput
    ensures o.Scaled? ==> o.power == InputScaler.ScaleInput(x)
  {
    var index := JavaScaleIndex(x);
    if 0 <= index as int < |InputScaler.ScaleTable| then
      var magnitude := InputScaler.ScaleTable[index];
      Scaled(if x < 0.0 then -magnitude else magnitude)
    else
      IndexOutOfBounds(index as int)
  }

  /** A concrete input on which the Java method throws: the index it computes
      is `Integer.MIN_VALUE`. */
  lemma ScaleInputJavaThrows()
    ensures ScaleInputJava(FirstFailingInput) == IndexOutOfBounds(MinInt)
  {
  }

  /** On the stick range `[-1, 1]` that `tankDrive` feeds it, the Java method
      never throws and agrees with the curve. */
  lemma ScaleInputJavaOnStickRange(x: real)
    requires -1.0 <= x <= 1.0
    ensures ScaleInputJava(x) == Scaled(InputScaler.ScaleInput(x))
  {
  }
}

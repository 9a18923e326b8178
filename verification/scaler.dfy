/** The manual-drive input curve of `DriveBase.scaleInput`: a joystick value
    is mapped to a motor power through a fixed 17-entry table, indexed by the
    sixteenth-band that `|x|` falls into (clamped to the last entry), with the
    sign of the input restored. This is the curve with a table index that is
    always in range; `ScalerAsWritten` models the Java index arithmetic
    exactly and shows where the two differ. */
module InputScaler {

  /** The power table, one entry per sixteenth of full stick travel. */
  const ScaleTable: seq<real> :=
    [0.0, 0.11, 0.13, 0.15, 0.18, 0.24, 0.30, 0.36, 0.43,
     0.50, 0.65, 0.72, 0.75, 0.80, 0.85, 0.90, 0.90]

  /** The last valid table index. */
  const TopIndex: nat := 16

  /** The largest power the curve produces. */
  const MaxPower: real := 0.90

  function Abs(x: real): real {
    if x < 0.0 then -x else x
  }

  /** The table is non-decreasing and bounded by `MaxPower`. */
  ghost predicate TableShape() {
    && |ScaleTable| == TopIndex + 1
    && (forall i, j :: 0 <= i <= j < |ScaleTable| ==> ScaleTable[i] <= ScaleTable[j])
    && (forall i :: 0 <= i < |ScaleTable| ==> 0.0 <= ScaleTable[i] <= MaxPower)
  }

  /** Entry `i` of the table is at most entry `j` whenever `i <= j`. */
  lemma TableMonotone(i: nat, j: nat)
    requires i <= j <= TopIndex
    ensures ScaleTable[i] <= ScaleTable[j]
  {
  }

  lemma TableHasShape()
    ensures TableShape()
  {
  }

  /** The table index used for input `x`: the sixteenth-band `|x|` lies in,
      clamped to `TopIndex`. */
  function ScaleIndex(x: real): (i: nat)
    ensures i <= TopIndex
    ensures i as real <= Abs(x) * 16.0
    ensures i < TopIndex ==> Abs(x) * 16.0 < (i + 1) as real
  {
    var band := (Abs(x) * 16.0).Floor;
    if band > TopIndex then TopIndex else band
  }

  /** The scaled motor power for stick value `x`: bounded by `MaxPower` and
      carrying the sign of `x`. */
  function ScaleInput(x: real): (r: real)
    ensures Abs(r) <= MaxPower
    ensures x >= 0.0 ==> r >= 0.0
    ensures x <= 0.0 ==> r <= 0.0
  {
    TableHasShape();
    var magnitude := ScaleTable[ScaleIndex(x)];
    if x < 0.0 then -magnitude else magnitude
  }

  /** Reference definition of the curve by bands: on the band
      `[i/16, (i+1)/16)` the magnitude is entry `i` (the last band, from
      `15/16` on, is covered by `ScaleInputSaturates`). */
  lemma ScaleInputBands(x: real, i: nat)
    requires i < TopIndex
    requires i as real / 16.0 <= Abs(x) < (i + 1) as real / 16.0
    ensures Abs(ScaleInput(x)) == ScaleTable[i]
  {
    var k := ScaleIndex(x);
    assert k <= i by {
      assert k as real <= Abs(x) * 16.0 < (i + 1) as real;
    }
  }

  /** The curve is odd: negating the stick negates the power. */
  lemma ScaleInputOdd(x: real)
    ensures ScaleInput(-x) == -ScaleInput(x)
  {
  }

  /** The dead zone: the power is zero exactly when `|x| < 1/16`. */
  lemma ScaleInputDeadZone(x: real)
    ensures ScaleInput(x) == 0.0 <==> Abs(x) < 1.0 / 16.0
  {
    var k := ScaleIndex(x);
    if k > 0 {
      TableMonotone(1, k);
    }
  }

  /** Saturation: the power reaches `MaxPower` in magnitude exactly when
      `|x| >= 15/16`, which includes every `|x| > 1`. */
  lemma ScaleInputSaturates(x: real)
    ensures Abs(ScaleInput(x)) == MaxPower <==> Abs(x) >= 15.0 / 16.0
  {
    var k := ScaleIndex(x);
    if k < 15 {
      TableMonotone(k, 14);
    } else {
      assert ScaleTable[k] == MaxPower;
    }
  }

  /** The band index never decreases as `|x|` grows. */
  lemma ScaleIndexMonotone(x: real, y: real)
    requires Abs(x) <= Abs(y)
    ensures ScaleIndex(x) <= ScaleIndex(y)
  {
  }

  /** The magnitude of the power never decreases as `|x|` grows. */
  lemma ScaleInputMagnitudeMonotone(x: real, y: real)
    requires Abs(x) <= Abs(y)
    ensures Abs(ScaleInput(x)) <= Abs(ScaleInput(y))
  {
    ScaleIndexMonotone(x, y);
    TableMonotone(ScaleIndex(x), ScaleIndex(y));
  }

  /** The curve is non-decreasing over the whole real line. */
  lemma ScaleInputMonotone(x: real, y: real)
    requires x <= y
    ensures ScaleInput(x) <= ScaleInput(y)
  {
    if 0.0 <= x {
      ScaleInputMagnitudeMonotone(x, y);
    } else if y <= 0.0 {
      ScaleInputMagnitudeMonotone(y, x);
    }
  }

  /** Half stick gives entry 8 of the table, with the sign of the stick. */
  lemma ScaleInputHalfStick()
    ensures ScaleInput(0.5) == 0.43
    ensures ScaleInput(-0.5) == -0.43
  {
    assert ScaleIndex(0.5) == 8;
    assert ScaleIndex(-0.5) == 8;
  }
}

# Drive base of FTC team 8564 (2016–2017), modelled in Dafny

This project models `DriveBase`, the drive-train controller of a two-wheel
differential robot. The model covers five pieces:

- **Input curve.** `scaleInput` is the joystick-to-power curve: a 17-entry
  table indexed by the sixteenth-band of `|x|`, with the input's sign put back.
- **Manual drive.** `tankDrive` clips each stick to `[-1, 1]`, scales it, and
  writes it to that side's motor.
- **Blocking PID commands.** `drivePID` and `spinPID` loop until their
  controllers are on target. Each pass mixes the controller outputs into the
  two wheel powers. After the loop they clean up once: reset the motors, then
  reset the drive PID, then the turn PID.
- **Feedback.** `getInput` answers a PID controller: encoder average times
  `SCALE` for the drive controller, the gyro's integrated heading for the
  turn controller, and 0 for any other.
- **Abort predicate.** `shouldAbort` fires for a line trigger when its
  side's light reading is at or below 3.0.

Modules:

- `JavaInt` (java_int.dfy): Java `int` arithmetic. It has an `Int32`
  newtype, wrapping `+` and unary `-`, and the `(int)` cast of a double.
- `InputScaler` (scaler.dfy): the curve, with an index that is always in
  range. The rest of the model uses it.
- `ScalerAsWritten` (scaler_as_written.dfy): `scaleInput` with Java's index
  arithmetic written out exactly. See Findings.
- `Feedback` (feedback.dfy): `getInput`. Java tells the controllers apart by
  reference identity; here a tag `Drive | Turn | Other` does that. The
  hardware readings are parameters.
- `LineAbort` (line_abort.dfy): `shouldAbort`. The tag is
  `LeftLine | RightLine | OtherLine` and the light readings are parameters.
- `Motion` (motion.dfy): `drivePID`, `spinPID` and `tankDrive`. Each one
  returns the sequence of commands it issues.

How the PID loops are modelled:

- `PIDControl` is opaque. Its per-pass `isOnTarget()`/`getPowerOutput()`
  values are a sequence of samples, one per evaluation of the loop condition.
- The Java loops have no cap. A run whose samples end before the exit
  condition holds is reported as `settled == false`, with no cleanup: the
  command would still be running.
- `opMode.idle()` is the `Idle` command.

Notes on the code:

- `drivePID`/`spinPID` poll no abort predicate inside their loops.
- The drive feedback adds the two encoder counts as a Java `int` before
  scaling. The model keeps that wrap-around.
- On the curve `InputScaler.ScaleInput`, the clip in `tankDrive` has no
  effect on the result, because the curve already saturates from `15/16` on
  (`Motion.ScaleInputIgnoresClip`). For `scaleInput` as written, the clip is
  what keeps inputs at or below `-2^27` from throwing
  (`Motion.ClipGuardsJavaScaleInput`).

## Model

| member | source | states |
|---|---|---|
| InputScaler.TableMonotone | FTC8564_2016_2017/TeamCode/src/main/java/ftc8564lib/DriveBase.java:138-139 | any earlier entry of the power table is at most any later entry |
| InputScaler.TableHasShape | FTC8564_2016_2017/TeamCode/src/main/java/ftc8564lib/DriveBase.java:138-139 | the table has 17 entries, is non-decreasing, and every entry lies in `[0, 0.90]` |
| InputScaler.ScaleIndex | FTC8564_2016_2017/TeamCode/src/main/java/ftc8564lib/DriveBase.java:141-149 | the index is in `[0, 16]`, so the lookup is in bounds. It is the sixteenth-band of `|x|`: `i/16 <= |x|`, and `|x| < (i+1)/16` unless the index was clamped to 16 |
| InputScaler.ScaleInput | FTC8564_2016_2017/TeamCode/src/main/java/ftc8564lib/DriveBase.java:137-159 | the power's magnitude is at most 0.90. It is `>= 0` for `x >= 0` and `<= 0` for `x <= 0` |
| InputScaler.ScaleInputBands | FTC8564_2016_2017/TeamCode/src/main/java/ftc8564lib/DriveBase.java:138-155 | reference definition by bands: for `i < 16`, every `x` with `i/16 <= |x| < (i+1)/16` has power magnitude equal to table entry `i` |
| InputScaler.ScaleInputOdd | FTC8564_2016_2017/TeamCode/src/main/java/ftc8564lib/DriveBase.java:141-156 | the curve is odd: `scaleInput(-x) == -scaleInput(x)` |
| InputScaler.ScaleInputDeadZone | FTC8564_2016_2017/TeamCode/src/main/java/ftc8564lib/DriveBase.java:138-155 | the power is 0 if and only if `|x| < 1/16`; in particular `scaleInput(0) == 0` |
| InputScaler.ScaleInputSaturates | FTC8564_2016_2017/TeamCode/src/main/java/ftc8564lib/DriveBase.java:138-149 | the power magnitude is 0.90 if and only if `|x| >= 15/16`; this includes every `|x| > 1` |
| InputScaler.ScaleIndexMonotone | FTC8564_2016_2017/TeamCode/src/main/java/ftc8564lib/DriveBase.java:141-149 | a larger `|x|` never gets a smaller table index |
| InputScaler.ScaleInputMagnitudeMonotone | FTC8564_2016_2017/TeamCode/src/main/java/ftc8564lib/DriveBase.java:138-155 | `|scaleInput(x)|` is non-decreasing in `|x|` |
| InputScaler.ScaleInputMonotone | FTC8564_2016_2017/TeamCode/src/main/java/ftc8564lib/DriveBase.java:137-159 | `scaleInput` is non-decreasing on the whole real line |
| InputScaler.ScaleInputHalfStick | FTC8564_2016_2017/TeamCode/src/main/java/ftc8564lib/DriveBase.java:138-156 | `scaleInput(0.5) == 0.43` and `scaleInput(-0.5) == -0.43` (table entry 8) |
| ScalerAsWritten.JavaScaleIndex | FTC8564_2016_2017/TeamCode/src/main/java/ftc8564lib/DriveBase.java:141-149 | the Java index equals the curve's band index `InputScaler.ScaleIndex(x)` for `x > -2^27`, and is `Integer.MIN_VALUE` for every `x <= -2^27` |
| ScalerAsWritten.ScaleInputJava | FTC8564_2016_2017/TeamCode/src/main/java/ftc8564lib/DriveBase.java:137-159 | with Java's narrowing cast and `int` negation, the method throws exactly when `x <= -2^27`. Otherwise it returns the curve's value |
| ScalerAsWritten.ScaleInputJavaThrows | FTC8564_2016_2017/TeamCode/src/main/java/ftc8564lib/DriveBase.java:141-153 | on `x = -134217728.0` the computed index is `Integer.MIN_VALUE` and the table lookup is out of bounds |
| ScalerAsWritten.ScaleInputJavaOnStickRange | FTC8564_2016_2017/TeamCode/src/main/java/ftc8564lib/DriveBase.java:113-116 | on the clipped range `[-1, 1]` that `tankDrive` passes in, the Java method never throws and agrees with the curve |
| Motion.DrivePid | FTC8564_2016_2017/TeamCode/src/main/java/ftc8564lib/DriveBase.java:85-97 | targets `distance` and heading 0, then loops exactly while either controller is off target. Each pass writes `left + right == 2·drive` and `left - right == 2·turn` from the same pass's samples, then yields. The exit comes on the first pass where both are on target. Cleanup is `ResetMotors`, `ResetPid(Drive)`, `ResetPid(Turn)`: issued once, last, and only after exit. Targets are set only at the start |
| Motion.SpinPid | FTC8564_2016_2017/TeamCode/src/main/java/ftc8564lib/DriveBase.java:99-110 | targets `degrees` on the turn controller only, then loops exactly while it is off target. Each pass writes left = output and right = -left, then yields. The exit comes on the first on-target pass, followed by the same single final cleanup of both controllers |
| Motion.Clip | FTC8564_2016_2017/TeamCode/src/main/java/ftc8564lib/DriveBase.java:113-114 | `Range.clip`: the result lies in `[lo, hi]` and equals the input when the input already does |
| Motion.ScaleInputIgnoresClip | FTC8564_2016_2017/TeamCode/src/main/java/ftc8564lib/DriveBase.java:113-116 | on the curve `InputScaler.ScaleInput`, clipping to `[-1, 1]` before scaling never changes the scaled power |
| Motion.ClipGuardsJavaScaleInput | FTC8564_2016_2017/TeamCode/src/main/java/ftc8564lib/DriveBase.java:113-116 | for `scaleInput` as written, a clipped input never throws and gives the curve's value; for every input at or below `-2^27`, the result without the clip differs (it throws) |
| Motion.TankDrive | FTC8564_2016_2017/TeamCode/src/main/java/ftc8564lib/DriveBase.java:112-118 | writes left then right. Each power is the curve's value at that side's stick, at most 0.90 in magnitude, with the stick's sign |
| Motion.TankDriveSidesIndependent | FTC8564_2016_2017/TeamCode/src/main/java/ftc8564lib/DriveBase.java:112-118 | the left power depends only on the left stick, and the right power only on the right stick |
| Feedback.GetInput | FTC8564_2016_2017/TeamCode/src/main/java/ftc8564lib/DriveBase.java:161-176 | other controllers get 0, and the turn controller gets the gyro heading. The drive controller gets `SCALE ×` the mean of the two encoder counts when their `int` sum does not overflow. When the sum overflows upward the reading turns negative; when it overflows downward, non-negative |
| Feedback.GetInputReadsOnlyItsSensors | FTC8564_2016_2017/TeamCode/src/main/java/ftc8564lib/DriveBase.java:166-173 | the drive feedback ignores the gyro, and the turn feedback ignores the encoders |
| Feedback.DriveInputSymmetric | FTC8564_2016_2017/TeamCode/src/main/java/ftc8564lib/DriveBase.java:168 | swapping the two wheels' counts leaves the drive feedback unchanged |
| Feedback.DriveInputMonotone | FTC8564_2016_2017/TeamCode/src/main/java/ftc8564lib/DriveBase.java:168 | without overflow, the drive feedback never decreases when either count grows |
| Feedback.DriveInputOverflow | FTC8564_2016_2017/TeamCode/src/main/java/ftc8564lib/DriveBase.java:168 | two counts of `2^30` each wrap the `int` sum to `-2^31`, giving a drive reading of `-2^30 × SCALE` |
| LineAbort.ShouldAbort | FTC8564_2016_2017/TeamCode/src/main/java/ftc8564lib/DriveBase.java:178-191 | the left trigger aborts if and only if the left reading is `<= 3.0`, and the right trigger likewise with the right reading. Any other trigger never aborts |
| LineAbort.ShouldAbortMonotone | FTC8564_2016_2017/TeamCode/src/main/java/ftc8564lib/DriveBase.java:182-189 | if a reading aborts, every darker (lower) reading on the same side aborts too |

## Left out

- `PIDControl` internals are not modelled: gains, integral and derivative
  terms, the settling timer, `setTarget`/`reset` effects. Its source is not
  part of this model. Its outputs are abstract samples, and nothing is claimed
  about settling time or convergence.
- `drivePID(distance, trigger)` and the `DriveBase.AbortTrigger` interface
  are left out. They are used by the autonomous program but are not defined in
  `DriveBase.java`, so there is no abort inside the loops.
- The constructor is left out: hardware-map lookups, motor directions and run
  modes, the gyro calibration wait loop, and the dashboard. These are
  hardware I/O and host scheduling.
- `resetMotors`/`noEncoders` only set motor run modes. `resetMotors` is the
  single `ResetMotors` command, and `noEncoders` is not modelled.
- `displayPidInfo` in the `spinPID` loop is left out: it only writes to
  the dashboard.
- The unused constants `ENCODER_CPR`, `GEAR_RATIO`, `WHEEL_DIAMETER` and
  `CIRCUMFERENCE` are left out.
- Floating point is not modelled: the `float` parameters and casts of
  `tankDrive`, double rounding of `SCALE` and of the table entries, NaN and
  infinities. Values are exact reals.
- Motion.ScaleInputIgnoresClip: holds for the curve only. For `scaleInput` as written, the clip keeps inputs at or below `-2^27` from throwing; `Motion.ClipGuardsJavaScaleInput` and `ScalerAsWritten.ScaleInputJavaOnStickRange` state that.
- Motion.DrivePid: Java's `||` skips the turn controller's `isOnTarget()`
  while the drive controller is off target. With samples as plain values this
  cannot be observed, so any side effect of `isOnTarget()` is not modelled.
- Motion.DrivePid: the loops can run forever. The model covers only finite
  prefixes, one per sample sequence; a run past the last sample is reported
  unsettled.
- The autonomous opmode is left out: menus, strategy dispatch, a wall-clock
  busy wait and its own abort predicate. It is program plumbing around the
  drive base.

## Findings

| source | as written | input that shows it | evidently intended | confidence | as-written member | corrected member |
|---|---|---|---|---|---|---|
| FTC8564_2016_2017/TeamCode/src/main/java/ftc8564lib/DriveBase.java:141-153 | `(int)(dVal * 16.0)` saturates to `Integer.MIN_VALUE`. `index = -index` overflows back to `MIN_VALUE`, the `> 16` clamp does not catch a negative index, and `scaleArray[index]` throws `ArrayIndexOutOfBoundsException` | `scaleInput(-134217728.0)`, or any `dVal <= -2^27` | a non-negative index `min(floor(|dVal|·16), 16)`, giving `-0.90` (the comment at line 142 says the index should be positive). `tankDrive` clips first, so it never reaches this | not executed; follows from Java's rules for narrowing conversion and `int` negation | ScalerAsWritten.JavaScaleIndex, ScalerAsWritten.ScaleInputJavaThrows | InputScaler.ScaleIndex |

/** The motion commands of `DriveBase`: the blocking `drivePID` and
    `spinPID` loops and the single-shot `tankDrive`. Each command is modelled
    by the sequence of actuator and controller commands it issues.

    The PID controllers are opaque: what `isOnTarget()` and
    `getPowerOutput()` return on each pass of a loop is given as a sequence
    of samples, one per evaluation of the loop condition. If the samples run
    out before the loop condition releases, the command is still running
    (the Java loop has no iteration or time cap). */
module Motion {
  import opened InputScaler
  import opened Feedback
  import ScalerAsWritten

  /** What one PID controller reports on one pass: whether it is on target
      and the power it outputs. */
  datatype PidSample = PidSample(onTarget: bool, power: real)

  /** One pass of `drivePID`: a sample from each of the two controllers. */
  datatype Tick = Tick(drive: PidSample, turn: PidSample) {
    predicate BothOnTarget() {
      drive.onTarget && turn.onTarget
    }
  }

  /** The effects a motion command has, in the order it has them. */
  datatype Command =
    | SetTarget(controller: Controller, target: real)
    | SetLeftPower(power: real)
    | SetRightPower(power: real)
    | Idle
    | ResetMotors
    | ResetPid(controller: Controller)
  {
    /** Commands issued only once the loop has exited. */
    predicate IsCleanup() {
      ResetMotors? || ResetPid?
    }
  }

  /** The fixed cleanup after every PID command: `resetMotors()`, then
      `resetPIDDrive()`, which resets the drive and then the turn controller. */
  const Cleanup: seq<Command> := [ResetMotors, ResetPid(Drive), ResetPid(Turn)]

  /** `drivePID(distance)`: target `distance` on the drive controller and a
      straight heading on the turn controller, then loop while either
      controller is off target, mixing the two outputs into the wheels
      (left = drive + turn, right = drive - turn) and yielding once per pass.
      On exit, clean up exactly once. `iterations` counts the loop passes;
      `settled` says the loop exited within the given samples. */
  method DrivePid(distance: real, ticks: seq<Tick>)
    returns (trace: seq<Command>, iterations: nat, settled: bool)
    ensures iterations <= |ticks|
    ensures forall j :: 0 <= j < iterations ==> !ticks[j].BothOnTarget()
    ensures settled <==> iterations < |ticks|
    ensures settled ==> ticks[iterations].BothOnTarget()
    ensures |trace| == 2 + 3 * iterations + (if settled then |Cleanup| else 0)
    ensures trace[0] == SetTarget(Drive, distance) && trace[1] == SetTarget(Turn, 0.0)
    ensures forall j :: 0 <= j < iterations ==>
              && trace[2 + 3 * j].SetLeftPower?
              && trace[3 + 3 * j].SetRightPower?
              && trace[2 + 3 * j].power + trace[3 + 3 * j].power == 2.0 * ticks[j].drive.power
              && trace[2 + 3 * j].power - trace[3 + 3 * j].power == 2.0 * ticks[j].turn.power
              && trace[4 + 3 * j] == Idle
    ensures settled ==> trace[|trace| - |Cleanup|..] == Cleanup
    ensures forall i :: 0 <= i < |trace| && trace[i].IsCleanup() ==>
              settled && |trace| - |Cleanup| <= i
    ensures forall i :: 0 <= i < |trace| && trace[i].SetTarget? ==> i < 2
  {
    trace := [SetTarget(Drive, distance), SetTarget(Turn, 0.0)];
    iterations := 0;
    while iterations < |ticks| && !ticks[iterations].BothOnTarget()
      invariant iterations <= |ticks|
      invariant forall j :: 0 <= j < iterations ==> !ticks[j].BothOnTarget()
      invariant |trace| == 2 + 3 * iterations
      invariant trace[0] == SetTarget(Drive, distance) && trace[1] == SetTarget(Turn, 0.0)
      invariant forall j :: 0 <= j < iterations ==>
                  && trace[2 + 3 * j].SetLeftPower?
                  && trace[3 + 3 * j].SetRightPower?
                  && trace[2 + 3 * j].power + trace[3 + 3 * j].power == 2.0 * ticks[j].drive.power
                  && trace[2 + 3 * j].power - trace[3 + 3 * j].power == 2.0 * ticks[j].turn.power
                  && trace[4 + 3 * j] == Idle
      invariant forall i :: 0 <= i < |trace| ==> !trace[i].IsCleanup()
      invariant forall i :: 0 <= i < |trace| && trace[i].SetTarget? ==> i < 2
    {
      var drivePower := ticks[iterations].drive.power;
      var turnPower := ticks[iterations].turn.power;
      trace := trace + [SetLeftPower(drivePower + turnPower), SetRightPower(drivePower - turnPower), Idle];
      iterations := iterations + 1;
    }
    settled := iterations < |ticks|;
    if settled {
      trace := trace + Cleanup;
    }
  }

  /** `spinPID(degrees)`: target `degrees` on the turn controller only, then
      loop while it is off target, driving the wheels in opposite directions
      (left = output, right = -output) and yielding once per pass. On exit,
      clean up exactly once, resetting both controllers. */
  method SpinPid(degrees: real, samples: seq<PidSample>)
    returns (trace: seq<Command>, iterations: nat, settled: bool)
    ensures iterations <= |samples|
    ensures forall j :: 0 <= j < iterations ==> !samples[j].onTarget
    ensures settled <==> iterations < |samples|
    ensures settled ==> samples[iterations].onTarget
    ensures |trace| == 1 + 3 * iterations + (if settled then |Cleanup| else 0)
    ensures trace[0] == SetTarget(Turn, degrees)
    ensures forall j :: 0 <= j < iterations ==>
              && trace[1 + 3 * j] == SetLeftPower(samples[j].power)
              && trace[2 + 3 * j].SetRightPower?
              && trace[2 + 3 * j].power == -trace[1 + 3 * j].power
              && trace[3 + 3 * j] == Idle
    ensures settled ==> trace[|trace| - |Cleanup|..] == Cleanup
    ensures forall i :: 0 <= i < |trace| && trace[i].IsCleanup() ==>
              settled && |trace| - |Cleanup| <= i
    ensures forall i :: 0 <= i < |trace| && trace[i].SetTarget? ==> i == 0
  {
    trace := [SetTarget(Turn, degrees)];
    iterations := 0;
    while iterations < |samples| && !samples[iterations].onTarget
      invariant iterations <= |samples|
      invariant forall j :: 0 <= j < iterations ==> !samples[j].onTarget
      invariant |trace| == 1 + 3 * iterations
      invariant trace[0] == SetTarget(Turn, degrees)
      invariant forall j :: 0 <= j < iterations ==>
                  && trace[1 + 3 * j] == SetLeftPower(samples[j].power)
                  && trace[2 + 3 * j].SetRightPower?
                  && trace[2 + 3 * j].power == -trace[1 + 3 * j].power
                  && trace[3 + 3 * j] == Idle
      invariant forall i :: 0 <= i < |trace| ==> !trace[i].IsCleanup()
      invariant forall i :: 0 <= i < |trace| && trace[i].SetTarget? ==> i == 0
    {
      var outputPower := samples[iterations].power;
      trace := trace + [SetLeftPower(outputPower), SetRightPower(-outputPower), Idle];
      iterations := iterations + 1;
    }
    settled := iterations < |samples|;
    if settled {
      trace := trace + Cleanup;
    }
  }

  /** `Range.clip(v, lo, hi)`. */
  function Clip(v: real, lo: real, hi: real): (c: real)
    requires lo <= hi
    ensures lo <= c <= hi
    ensures lo <= v <= hi ==> c == v
  {
    if v < lo then lo else if v > hi then hi else v
  }

  /** Clipping to `[-1, 1]` before scaling changes nothing on the curve
      `ScaleInput`: it is already saturated at `MaxPower` from `15/16` on.
      (The Java method as written is another matter; see
      `ClipGuardsJavaScaleInput`.) */
  lemma ScaleInputIgnoresClip(x: real)
    ensures ScaleInput(Clip(x, -1.0, 1.0)) == ScaleInput(x)
  {
    var c := Clip(x, -1.0, 1.0);
    if c != x {
      ScaleInputSaturates(x);
      ScaleInputSaturates(c);
    }
  }

  /** For the Java `scaleInput` as written, the clip in `tankDrive` matters:
      after clipping the method never throws, while on every input at or
      below `-2^27` it throws without the clip. */
  lemma ClipGuardsJavaScaleInput(x: real)
    ensures ScalerAsWritten.ScaleInputJava(Clip(x, -1.0, 1.0)) == ScalerAsWritten.Scaled(ScaleInput(x))
    ensures x <= ScalerAsWritten.FirstFailingInput ==>
              ScalerAsWritten.ScaleInputJava(Clip(x, -1.0, 1.0)) != ScalerAsWritten.ScaleInputJava(x)
  {
    ScaleInputIgnoresClip(x);
    ScalerAsWritten.ScaleInputJavaOnStickRange(Clip(x, -1.0, 1.0));
  }

  /** `tankDrive(leftPower, rightPower)`: each side is clipped to `[-1, 1]`,
      scaled, and written to its motor; left first, then right. Each motor's
      power is the curve's value at that side's stick, bounded by `MaxPower`
      and with the stick's sign. */
  function TankDrive(leftPower: real, rightPower: real): (trace: seq<Command>)
    ensures |trace| == 2
    ensures trace[0] == SetLeftPower(ScaleInput(leftPower))
    ensures trace[1] == SetRightPower(ScaleInput(rightPower))
    ensures Abs(trace[0].power) <= MaxPower && Abs(trace[1].power) <= MaxPower
    ensures (leftPower >= 0.0 ==> trace[0].power >= 0.0) && (leftPower <= 0.0 ==> trace[0].power <= 0.0)
    ensures (rightPower >= 0.0 ==> trace[1].power >= 0.0) && (rightPower <= 0.0 ==> trace[1].power <= 0.0)
  {
    ScaleInputIgnoresClip(leftPower);
    ScaleInputIgnoresClip(rightPower);
    var left := ScaleInput(Clip(leftPower, -1.0, 1.0));
    var right := ScaleInput(Clip(rightPower, -1.0, 1.0));
    [SetLeftPower(left), SetRightPower(right)]
  }

  /** Each motor's power depends only on its own side's stick. */
  lemma TankDriveSidesIndependent(left: real, right: real, left': real, right': real)
    ensures TankDrive(left, right)[0] == TankDrive(left, right')[0]
    ensures TankDrive(left, right)[1] == TankDrive(left', right)[1]
  {
  }
}

/** The feedback source `DriveBase.getInput` that both PID controllers call
    back into. The Java code tells the controllers apart by reference
    identity; here the asking controller is a tag. Hardware reads (the two
    encoder counts and the gyro's integrated heading) are parameters. */
module Feedback {
  import opened JavaInt

  /** Which PID controller is asking: the drive (distance) controller, the
      turn (heading) controller, or any other controller. */
  datatype Controller = Drive | Turn | Other

  /** The hardware values `getInput` reads: the two wheel encoder counts and
      the gyro's integrated Z heading, all Java `int`s. */
  datatype Readings = Readings(leftPos: Int32, rightPos: Int32, heading: Int32)

  /** Encoder counts to inches (`SCALE`), as an exact rational. */
  const Scale: real := 144.5 / 12556.5

  /** The feedback value for controller `c`. The sum of the two encoder
      counts is a Java `int` addition, so it wraps past 2^31 - 1. */
  function GetInput(c: Controller, h: Readings): (input: real)
    ensures c == Other ==> input == 0.0
    ensures c == Turn ==> input == h.heading as real
    ensures c == Drive && InRange(h.leftPos as int + h.rightPos as int) ==>
              input == Scale * ((h.leftPos as real + h.rightPos as real) / 2.0)
    ensures c == Drive && h.leftPos as int + h.rightPos as int > MaxInt ==> input < 0.0
    ensures c == Drive && h.leftPos as int + h.rightPos as int < MinInt ==> input >= 0.0
  {
    match c
    case Drive => Add(h.leftPos, h.rightPos) as real * Scale / 2.0
    case Turn => h.heading as real
    case Other => 0.0
  }

  /** The drive feedback does not depend on the heading, and the turn
      feedback does not depend on the encoders. */
  lemma GetInputReadsOnlyItsSensors(h: Readings, h': Readings)
    ensures h.leftPos == h'.leftPos && h.rightPos == h'.rightPos ==>
              GetInput(Drive, h) == GetInput(Drive, h')
    ensures h.heading == h'.heading ==> GetInput(Turn, h) == GetInput(Turn, h')
  {
  }

  /** Swapping the two wheels leaves the drive feedback unchanged. */
  lemma DriveInputSymmetric(h: Readings)
    ensures GetInput(Drive, h) == GetInput(Drive, h.(leftPos := h.rightPos, rightPos := h.leftPos))
  {
  }

  /** Without overflow, the drive feedback grows with either encoder count. */
  lemma DriveInputMonotone(h: Readings, h': Readings)
    requires InRange(h.leftPos as int + h.rightPos as int)
    requires InRange(h'.leftPos as int + h'.rightPos as int)
    requires h.leftPos <= h'.leftPos && h.rightPos <= h'.rightPos
    ensures GetInput(Drive, h) <= GetInput(Drive, h')
  {
  }

  /** Two wheels that both read `2^30` counts overflow the `int` sum and the
      drive feedback reports the robot a long way behind its start. */
  lemma DriveInputOverflow()
    ensures GetInput(Drive, Readings(0x4000_0000, 0x4000_0000, 0)) == -0x4000_0000 as real * Scale
  {
  }
}

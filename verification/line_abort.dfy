/** The abort predicate `DriveBase.shouldAbort` that a line trigger polls:
    each trigger watches one optical distance sensor and fires when that
    sensor's light reading is at or below a fixed threshold (the robot is
    over a line). The Java code tells triggers apart by reference identity;
    here the asking trigger is a tag, and the sensor readings are
    parameters. */
module LineAbort {

  /** Which line trigger is asking. */
  datatype Trigger = LeftLine | RightLine | OtherLine

  /** The two light readings (`getLightDetected`). */
  datatype LightReadings = LightReadings(left: real, right: real)

  /** A reading at or below this value means a line is under the sensor. */
  const LineThreshold: real := 3.0

  /** Whether trigger `t` asks the motion to abort: the left trigger watches
      only the left sensor, the right trigger only the right one, and any
      other trigger never aborts. */
  function ShouldAbort(t: Trigger, lights: LightReadings): (abort: bool)
    ensures t == LeftLine ==> (abort <==> lights.left <= LineThreshold)
    ensures t == RightLine ==> (abort <==> lights.right <= LineThreshold)
    ensures t == OtherLine ==> !abort
  {
    if t == LeftLine then lights.left <= LineThreshold
    else if t == RightLine then lights.right <= LineThreshold
    else false
  }

  /** A darker reading on the watched side keeps an abort an abort. */
  lemma ShouldAbortMonotone(t: Trigger, lights: LightReadings, darker: LightReadings)
    requires darker.left <= lights.left && darker.right <= lights.right
    ensures ShouldAbort(t, lights) ==> ShouldAbort(t, darker)
  {
  }
}

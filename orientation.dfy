/** Frame orientation: how the capturer combines the camera's sensor
    orientation, its facing and the display rotation into the rotation tag
    attached to each frame. */
module Orientation {
  import opened JavaArith

  /** `CameraInfo.facing`. */
  datatype Facing = Back | Front

  /** The display rotation codes `Surface.ROTATION_0` .. `Surface.ROTATION_270`. */
  const Rotation0: int := 0
  const Rotation90: int := 1
  const Rotation180: int := 2
  const Rotation270: int := 3

  /** The display rotation in degrees; an unknown code counts as no rotation. */
  function DeviceOrientation(rotation: int): (degrees: int)
    ensures degrees == 0 || degrees == 90 || degrees == 180 || degrees == 270
    ensures Rotation0 <= rotation <= Rotation270 ==> degrees == 90 * rotation
    ensures !(Rotation0 <= rotation <= Rotation270) ==> degrees == 0
  {
    if rotation == Rotation90 then 90
    else if rotation == Rotation180 then 180
    else if rotation == Rotation270 then 270
    else 0
  }

  /** The rotation that is added to the sensor orientation: a back-facing
      camera turns the other way. */
  function Compensated(facing: Facing, deviceDegrees: int): int
  {
    if facing == Back then 360 - deviceDegrees else deviceDegrees
  }

  /** The orientation tag of a frame; a combined rotation of 180 degrees is
      reported as 0. */
  function FrameOrientation(sensorOrientation: int, facing: Facing, displayRotation: int): (r: int)
    ensures 0 <= sensorOrientation ==> 0 <= r < 360 && r != 180
  {
    var rotation := Compensated(facing, DeviceOrientation(displayRotation));
    if JavaRem(sensorOrientation + rotation, 360) == 180 then 0
    else JavaRem(sensorOrientation + rotation, 360)
  }

  /** The combined rotation normalized into [0, 360), with 180 replaced by 0. */
  function Normalized(combined: int): (r: int)
  {
    if combined % 360 == 180 then 0 else combined % 360
  }

  /** For the orientations Android reports (never negative) the frame
      orientation is the combined rotation normalized, 180 becoming 0. */
  lemma FrameOrientationIsNormalized(sensorOrientation: int, facing: Facing, displayRotation: int)
    requires 0 <= sensorOrientation
    ensures FrameOrientation(sensorOrientation, facing, displayRotation)
         == Normalized(sensorOrientation + Compensated(facing, DeviceOrientation(displayRotation)))
  {
    JavaRemOfNonNegative(sensorOrientation + Compensated(facing, DeviceOrientation(displayRotation)), 360);
  }

  /** Android reports a sensor orientation of 0, 90, 180 or 270 degrees, and
      then every frame is tagged 0, 90 or 270. */
  lemma FrameOrientationQuarterTurns(sensorOrientation: int, facing: Facing, displayRotation: int)
    requires sensorOrientation == 0 || sensorOrientation == 90 || sensorOrientation == 180 || sensorOrientation == 270
    ensures var r := FrameOrientation(sensorOrientation, facing, displayRotation);
            r == 0 || r == 90 || r == 270
  {
    var combined := sensorOrientation + Compensated(facing, DeviceOrientation(displayRotation));
    JavaRemOfNonNegative(combined, 360);
    assert combined == 0 || combined == 90 || combined == 180 || combined == 270 || combined == 360 ||
           combined == 450 || combined == 540 || combined == 630;
  }

  /** Facing only matters through the compensated rotation: a front and a
      back camera agree when the display is at 0 or 180 degrees. */
  lemma FacingAgreesAtHalfTurns(sensorOrientation: int, displayRotation: int)
    requires 0 <= sensorOrientation
    requires var d := DeviceOrientation(displayRotation); d == 0 || d == 180
    ensures FrameOrientation(sensorOrientation, Front, displayRotation)
         == FrameOrientation(sensorOrientation, Back, displayRotation)
  {
    FrameOrientationIsNormalized(sensorOrientation, Front, displayRotation);
    FrameOrientationIsNormalized(sensorOrientation, Back, displayRotation);
  }
}

/** The record of facial feature coordinates and metrics one frame produces. */
module Models {

  /** A pixel position (x, y). */
  type Pixel = (int, int)

  /** The head-rotation triple (pitch proxy, yaw proxy, roll). */
  type Rotation = (real, real, real)

  /** Every field has a default, so `FaceCoordinates()` is the all-zero record. */
  datatype FaceCoordinates = FaceCoordinates(
    noseTip: Pixel := (0, 0),
    leftEye: Pixel := (0, 0),
    rightEye: Pixel := (0, 0),
    mouthCenter: Pixel := (0, 0),
    mouthWidth: real := 0.0,
    eyeBlinkLeft: real := 0.0,
    eyeBlinkRight: real := 0.0,
    headRotation: Rotation := (0.0, 0.0, 0.0))

  /** The default record places every point at the origin and every metric at zero. */
  lemma DefaultIsZero()
    ensures FaceCoordinates().noseTip == (0, 0) && FaceCoordinates().leftEye == (0, 0)
    ensures FaceCoordinates().rightEye == (0, 0) && FaceCoordinates().mouthCenter == (0, 0)
    ensures FaceCoordinates().mouthWidth == 0.0
    ensures FaceCoordinates().eyeBlinkLeft == 0.0 && FaceCoordinates().eyeBlinkRight == 0.0
    ensures FaceCoordinates().headRotation == (0.0, 0.0, 0.0)
  {
  }

  /** Two records are equal exactly when all eight fields are. */
  lemma FieldwiseEquality(a: FaceCoordinates, b: FaceCoordinates)
    ensures a == b <==>
      a.noseTip == b.noseTip && a.leftEye == b.leftEye && a.rightEye == b.rightEye &&
      a.mouthCenter == b.mouthCenter && a.mouthWidth == b.mouthWidth &&
      a.eyeBlinkLeft == b.eyeBlinkLeft && a.eyeBlinkRight == b.eyeBlinkRight &&
      a.headRotation == b.headRotation
  {
  }
}

/** The feature-extraction and calibration engine: landmark positions from the
    detector become pixel points, raw distances and a head-rotation proxy,
    and the raw distances are normalised against baselines captured once,
    on the first frame a face is seen. */
module FaceTracking {
  import opened Builtins
  import opened Reals
  import opened LinAlg
  import opened Models

  /** A detector landmark, normalised to the frame: x and y lie in [0, 1]
      for a point inside it. */
  datatype Landmark = Landmark(x: real, y: real)

  /** The landmarks the detector reports for one face, indexed by id. */
  type Mesh = seq<Landmark>

  const NoseTip: nat := 1
  const LeftEyeOuter: nat := 33
  const RightEyeOuter: nat := 263
  const MouthCenter: nat := 0
  const MouthLeft: nat := 61
  const MouthRight: nat := 291
  const LeftEyeTop: nat := 159
  const LeftEyeBottom: nat := 145
  const RightEyeTop: nat := 386
  const RightEyeBottom: nat := 374

  /** Every id the tracker reads is a valid index; 386 is the largest. */
  predicate Covers(landmarks: Mesh)
  {
    RightEyeTop < |landmarks|
  }

  /** `p` is landmark `l` scaled to an h-by-w frame (x by the width, y by the
      height) and truncated toward zero, coordinate by coordinate. */
  predicate PixelOf(p: Pixel, l: Landmark, h: int, w: int)
  {
    TruncatedTo(p.0, l.x * w as real) && TruncatedTo(p.1, l.y * h as real)
  }

  /** One coordinate of `to_pixel`: a normalised coordinate `f` times the
      frame extent `n`, truncated toward zero. */
  function Scale(f: real, n: int): int
  {
    Trunc(f * n as real)
  }

  /** A scaled coordinate is truncated toward zero, and a coordinate in
      [0, 1] lands in [0, n]. */
  lemma ScaleTruncates(f: real, n: int)
    ensures TruncatedTo(Scale(f, n), f * n as real)
    ensures 0.0 <= f <= 1.0 && 0 <= n ==> 0 <= Scale(f, n) <= n
  {
    TruncTowardZero(f * n as real);
    ScaledInFrame(f, n);
  }

  lemma ScaledInFrame(f: real, n: int)
    ensures 0.0 <= f <= 1.0 && 0 <= n ==> 0 <= Trunc(f * n as real) <= n
  {
    var v := f * n as real;
    ScaleWithin(f, n as real);
    TruncWithin(v, n);
    if 0.0 <= f <= 1.0 && 0 <= n {
      assert 0.0 <= v <= n as real;
    }
  }

  /** The pixel position of landmark `id` in an h-by-w frame. */
  function ToPixel(landmarks: Mesh, id: nat, h: int, w: int): Pixel
    requires id < |landmarks|
  {
    (Scale(landmarks[id].x, w), Scale(landmarks[id].y, h))
  }

  /** `to_pixel` scales x by the width and y by the height and truncates
      each toward zero; a landmark with x and y in [0, 1] lands in
      [0, w] x [0, h] (column w and row h are one past the frame's last). */
  lemma ToPixelTruncates(landmarks: Mesh, id: nat, h: int, w: int)
    requires id < |landmarks|
    ensures PixelOf(ToPixel(landmarks, id, h, w), landmarks[id], h, w)
    ensures 0 <= w && 0.0 <= landmarks[id].x <= 1.0 ==> 0 <= ToPixel(landmarks, id, h, w).0 <= w
    ensures 0 <= h && 0.0 <= landmarks[id].y <= 1.0 ==> 0 <= ToPixel(landmarks, id, h, w).1 <= h
  {
    ScaleTruncates(landmarks[id].x, w);
    ScaleTruncates(landmarks[id].y, h);
  }

  /** `p` lies in [0, w] x [0, h]: the h-by-w frame plus its far edges, which
      is where `to_pixel` sends coordinates in [0, 1]. */
  predicate InFrame(p: Pixel, h: int, w: int)
  {
    0 <= p.0 <= w && 0 <= p.1 <= h
  }

  /** The head-rotation proxy: the vector from the midpoint of the two outer
      eye corners to the nose tip, its y part over the frame height (pitch)
      and its x part over the width (yaw), with roll 0.0. */
  function HeadRotation(noseTip: Pixel, leftEye: Pixel, rightEye: Pixel, h: int, w: int): Rotation
    requires 0 < h && 0 < w
  {
    var eyeCenter := ((leftEye.0 + rightEye.0) as real / 2.0, (leftEye.1 + rightEye.1) as real / 2.0);
    var noseVec := (noseTip.0 as real - eyeCenter.0, noseTip.1 as real - eyeCenter.1);
    (noseVec.1 / h as real, noseVec.0 / w as real, 0.0)
  }

  /** Roll is always 0.0. Each proxy is zero exactly when the nose is level
      with the eye midpoint on that axis, positive exactly when it lies below
      (pitch) or to the right (yaw), and within [-1, 1] when all three points
      lie in [0, w] x [0, h]. */
  lemma HeadRotationProxies(noseTip: Pixel, leftEye: Pixel, rightEye: Pixel, h: int, w: int)
    requires 0 < h && 0 < w
    ensures var r := HeadRotation(noseTip, leftEye, rightEye, h, w);
      r.2 == 0.0 &&
      (r.0 == 0.0 <==> 2 * noseTip.1 == leftEye.1 + rightEye.1) &&
      (r.0 > 0.0 <==> 2 * noseTip.1 > leftEye.1 + rightEye.1) &&
      (r.1 == 0.0 <==> 2 * noseTip.0 == leftEye.0 + rightEye.0) &&
      (r.1 > 0.0 <==> 2 * noseTip.0 > leftEye.0 + rightEye.0) &&
      (InFrame(noseTip, h, w) && InFrame(leftEye, h, w) && InFrame(rightEye, h, w) ==>
        -1.0 <= r.0 <= 1.0 && -1.0 <= r.1 <= 1.0)
  {
    var eyeCenter := ((leftEye.0 + rightEye.0) as real / 2.0, (leftEye.1 + rightEye.1) as real / 2.0);
    var noseVec := (noseTip.0 as real - eyeCenter.0, noseTip.1 as real - eyeCenter.1);
    QuotientSign(noseVec.1, h as real);
    QuotientSign(noseVec.0, w as real);
  }

  /** face_tracker.py lines 28-54, `calculate_features` up to calibration:
      the record before normalisation, its three metrics still raw pixel
      distances. */
  function Measure(norm: Norm2, landmarks: Mesh, h: int, w: int): FaceCoordinates
    requires Covers(landmarks) && 0 < h && 0 < w
  {
    var noseTip := ToPixel(landmarks, NoseTip, h, w);
    var leftEye := ToPixel(landmarks, LeftEyeOuter, h, w);
    var rightEye := ToPixel(landmarks, RightEyeOuter, h, w);
    FaceCoordinates(
      noseTip := noseTip,
      leftEye := leftEye,
      rightEye := rightEye,
      mouthCenter := ToPixel(landmarks, MouthCenter, h, w),
      mouthWidth := Distance(norm, ToPixel(landmarks, MouthRight, h, w), ToPixel(landmarks, MouthLeft, h, w)),
      eyeBlinkLeft := Distance(norm, ToPixel(landmarks, LeftEyeTop, h, w), ToPixel(landmarks, LeftEyeBottom, h, w)),
      eyeBlinkRight := Distance(norm, ToPixel(landmarks, RightEyeTop, h, w), ToPixel(landmarks, RightEyeBottom, h, w)),
      headRotation := HeadRotation(noseTip, leftEye, rightEye, h, w))
  }

  /** The four reported points are landmarks 1, 33, 263 and 0 converted to
      pixels by truncation, and the roll component is 0.0. */
  lemma MeasuredPoints(norm: Norm2, landmarks: Mesh, h: int, w: int)
    requires Covers(landmarks) && 0 < h && 0 < w
    ensures var raw := Measure(norm, landmarks, h, w);
      PixelOf(raw.noseTip, landmarks[1], h, w) &&
      PixelOf(raw.leftEye, landmarks[33], h, w) &&
      PixelOf(raw.rightEye, landmarks[263], h, w) &&
      PixelOf(raw.mouthCenter, landmarks[0], h, w) &&
      raw.headRotation.2 == 0.0
  {
    ToPixelTruncates(landmarks, NoseTip, h, w);
    ToPixelTruncates(landmarks, LeftEyeOuter, h, w);
    ToPixelTruncates(landmarks, RightEyeOuter, h, w);
    ToPixelTruncates(landmarks, MouthCenter, h, w);
  }

  /** None of the three measured point pairs collapses onto one pixel, so
      no raw distance is zero. */
  predicate Nondegenerate(landmarks: Mesh, h: int, w: int)
    requires Covers(landmarks)
  {
    ToPixel(landmarks, MouthLeft, h, w) != ToPixel(landmarks, MouthRight, h, w) &&
    ToPixel(landmarks, LeftEyeTop, h, w) != ToPixel(landmarks, LeftEyeBottom, h, w) &&
    ToPixel(landmarks, RightEyeTop, h, w) != ToPixel(landmarks, RightEyeBottom, h, w)
  }

  /** The raw distances are lengths: never negative, and zero exactly when
      the two points of the pair fall on the same pixel. Hence all three are
      positive exactly when the frame is non-degenerate. */
  lemma MeasuredDistances(norm: Norm2, landmarks: Mesh, h: int, w: int)
    requires IsEuclidean(norm) && Covers(landmarks) && 0 < h && 0 < w
    ensures var raw := Measure(norm, landmarks, h, w);
      0.0 <= raw.mouthWidth && 0.0 <= raw.eyeBlinkLeft && 0.0 <= raw.eyeBlinkRight &&
      (raw.mouthWidth == 0.0 <==> ToPixel(landmarks, MouthLeft, h, w) == ToPixel(landmarks, MouthRight, h, w)) &&
      (raw.eyeBlinkLeft == 0.0 <==> ToPixel(landmarks, LeftEyeTop, h, w) == ToPixel(landmarks, LeftEyeBottom, h, w)) &&
      (raw.eyeBlinkRight == 0.0 <==> ToPixel(landmarks, RightEyeTop, h, w) == ToPixel(landmarks, RightEyeBottom, h, w)) &&
      (Positive(BaselinesOf(raw)) <==> Nondegenerate(landmarks, h, w))
  {
    DistanceIsMetric(norm, ToPixel(landmarks, MouthRight, h, w), ToPixel(landmarks, MouthLeft, h, w));
    DistanceIsMetric(norm, ToPixel(landmarks, LeftEyeTop, h, w), ToPixel(landmarks, LeftEyeBottom, h, w));
    DistanceIsMetric(norm, ToPixel(landmarks, RightEyeTop, h, w), ToPixel(landmarks, RightEyeBottom, h, w));
  }

  /** The three calibration baselines, as raw pixel distances. */
  datatype Baselines = Baselines(mouthWidth: real, eyeBlinkLeft: real, eyeBlinkRight: real)

  predicate Positive(b: Baselines)
  {
    0.0 < b.mouthWidth && 0.0 < b.eyeBlinkLeft && 0.0 < b.eyeBlinkRight
  }

  predicate NonZero(b: Baselines)
  {
    b.mouthWidth != 0.0 && b.eyeBlinkLeft != 0.0 && b.eyeBlinkRight != 0.0
  }

  /** The three raw distances of a measured record, taken together. */
  function BaselinesOf(raw: FaceCoordinates): Baselines
  {
    Baselines(raw.mouthWidth, raw.eyeBlinkLeft, raw.eyeBlinkRight)
  }

  /** face_tracker.py lines 57-60: unset baselines are all captured from this frame's raw
      distances; set ones are kept. */
  function Calibrate(current: Option<Baselines>, raw: FaceCoordinates): Baselines
  {
    match current
    case None => BaselinesOf(raw)
    case Some(b) => b
  }

  /** face_tracker.py lines 62-64: mouth width becomes raw/base - 1 and each
      eye's blink degree 1 - raw/base; every other field is left as
      measured. */
  function Normalize(raw: FaceCoordinates, base: Baselines): FaceCoordinates
    requires NonZero(base)
  {
    raw.(mouthWidth := raw.mouthWidth / base.mouthWidth - 1.0,
         eyeBlinkLeft := 1.0 - raw.eyeBlinkLeft / base.eyeBlinkLeft,
         eyeBlinkRight := 1.0 - raw.eyeBlinkRight / base.eyeBlinkRight)
  }

  /** Normalisation loses nothing: the points and the rotation are kept, and
      each raw distance is recovered from its normalised value as
      (mouth + 1) * base or (1 - blink) * base. */
  lemma NormalizeInverse(raw: FaceCoordinates, base: Baselines)
    requires NonZero(base)
    ensures var c := Normalize(raw, base);
      c.noseTip == raw.noseTip && c.leftEye == raw.leftEye && c.rightEye == raw.rightEye &&
      c.mouthCenter == raw.mouthCenter && c.headRotation == raw.headRotation &&
      raw.mouthWidth == (c.mouthWidth + 1.0) * base.mouthWidth &&
      raw.eyeBlinkLeft == (1.0 - c.eyeBlinkLeft) * base.eyeBlinkLeft &&
      raw.eyeBlinkRight == (1.0 - c.eyeBlinkRight) * base.eyeBlinkRight
  {
    var q1, q2, q3 := raw.mouthWidth / base.mouthWidth, raw.eyeBlinkLeft / base.eyeBlinkLeft,
      raw.eyeBlinkRight / base.eyeBlinkRight;
    assert q1 * base.mouthWidth == raw.mouthWidth;
    assert q2 * base.eyeBlinkLeft == raw.eyeBlinkLeft;
    assert q3 * base.eyeBlinkRight == raw.eyeBlinkRight;
  }

  /** Against positive baselines: the mouth value is zero at the baseline
      width and positive exactly when the mouth is wider; a blink value is
      zero at the baseline opening and positive exactly when the eyelids are
      closer together than at calibration. */
  lemma NormalizeOrdering(raw: FaceCoordinates, base: Baselines)
    requires Positive(base)
    ensures var c := Normalize(raw, base);
      (c.mouthWidth == 0.0 <==> raw.mouthWidth == base.mouthWidth) &&
      (c.mouthWidth > 0.0 <==> raw.mouthWidth > base.mouthWidth) &&
      (c.eyeBlinkLeft == 0.0 <==> raw.eyeBlinkLeft == base.eyeBlinkLeft) &&
      (c.eyeBlinkLeft > 0.0 <==> raw.eyeBlinkLeft < base.eyeBlinkLeft) &&
      (c.eyeBlinkRight == 0.0 <==> raw.eyeBlinkRight == base.eyeBlinkRight) &&
      (c.eyeBlinkRight > 0.0 <==> raw.eyeBlinkRight < base.eyeBlinkRight)
  {
    QuotientCompare(raw.mouthWidth, 1.0, base.mouthWidth);
    QuotientCompare(raw.eyeBlinkLeft, 1.0, base.eyeBlinkLeft);
    QuotientCompare(raw.eyeBlinkRight, 1.0, base.eyeBlinkRight);
  }

  /** With positive baselines every normalised mouth width is at least -1 and
      every blink degree at most 1, because raw distances are lengths; -1 and
      1 are reached exactly when the two measured points coincide. */
  lemma NormalizedBounds(norm: Norm2, landmarks: Mesh, h: int, w: int, base: Baselines)
    requires IsEuclidean(norm) && Covers(landmarks) && 0 < h && 0 < w && Positive(base)
    ensures var c := Normalize(Measure(norm, landmarks, h, w), base);
      -1.0 <= c.mouthWidth && c.eyeBlinkLeft <= 1.0 && c.eyeBlinkRight <= 1.0 &&
      (c.mouthWidth == -1.0 <==> ToPixel(landmarks, MouthLeft, h, w) == ToPixel(landmarks, MouthRight, h, w)) &&
      (c.eyeBlinkLeft == 1.0 <==> ToPixel(landmarks, LeftEyeTop, h, w) == ToPixel(landmarks, LeftEyeBottom, h, w)) &&
      (c.eyeBlinkRight == 1.0 <==> ToPixel(landmarks, RightEyeTop, h, w) == ToPixel(landmarks, RightEyeBottom, h, w))
  {
    var raw := Measure(norm, landmarks, h, w);
    MeasuredDistances(norm, landmarks, h, w);
    QuotientCompare(raw.mouthWidth, 0.0, base.mouthWidth);
    QuotientCompare(raw.eyeBlinkLeft, 0.0, base.eyeBlinkLeft);
    QuotientCompare(raw.eyeBlinkRight, 0.0, base.eyeBlinkRight);
  }

  /** A record normalised against its own distances has mouth width and
      both blink degrees exactly 0.0. */
  lemma NormalizeAtBaseline(raw: FaceCoordinates)
    requires NonZero(BaselinesOf(raw))
    ensures var c := Normalize(raw, BaselinesOf(raw));
      c.mouthWidth == 0.0 && c.eyeBlinkLeft == 0.0 && c.eyeBlinkRight == 0.0
  {
    SelfQuotient(raw.mouthWidth);
    SelfQuotient(raw.eyeBlinkLeft);
    SelfQuotient(raw.eyeBlinkRight);
  }

  /** The calibrating frame, if non-degenerate, yields positive baselines and
      is normalised against its own distances, so its mouth width and both
      blink degrees are exactly 0.0. */
  lemma CalibrationFrameIsNeutral(norm: Norm2, landmarks: Mesh, h: int, w: int)
    requires IsEuclidean(norm) && Covers(landmarks) && 0 < h && 0 < w
    requires Nondegenerate(landmarks, h, w)
    ensures var raw := Measure(norm, landmarks, h, w);
      Positive(Calibrate(None, raw)) &&
      var c := Normalize(raw, Calibrate(None, raw));
      c.mouthWidth == 0.0 && c.eyeBlinkLeft == 0.0 && c.eyeBlinkRight == 0.0
  {
    MeasuredDistances(norm, landmarks, h, w);
    NormalizeAtBaseline(Measure(norm, landmarks, h, w));
  }

  /** The baselines after successive calls of `calculate_features` whose raw
      measurements are `raws`, starting from `start`. After at least one call
      they are set. */
  function CalibrationAfter(start: Option<Baselines>, raws: seq<FaceCoordinates>): (b: Option<Baselines>)
    ensures raws != [] ==> b.Some?
    decreases |raws|
  {
    if raws == [] then start else CalibrationAfter(Some(Calibrate(start, raws[0])), raws[1..])
  }

  /** Set baselines survive any number of later calls unchanged. */
  lemma {:induction false} CalibratedStaysFixed(b: Baselines, raws: seq<FaceCoordinates>)
    ensures CalibrationAfter(Some(b), raws) == Some(b)
    decreases |raws|
  {
    if raws != [] {
      CalibratedStaysFixed(b, raws[1..]);
    }
  }

  /** Only the first call writes the baselines: after any non-empty run of
      calls they are whatever that first call's calibration step left. */
  lemma {:induction false} OnlyFirstCallCalibrates(start: Option<Baselines>, raws: seq<FaceCoordinates>)
    requires raws != []
    ensures CalibrationAfter(start, raws) == Some(Calibrate(start, raws[0]))
  {
    CalibratedStaysFixed(Calibrate(start, raws[0]), raws[1..]);
  }

  /** The raw measurements of a run of frames or faces, one per mesh, in order. */
  function Measures(norm: Norm2, faces: seq<Mesh>, h: int, w: int): (raws: seq<FaceCoordinates>)
    requires 0 < h && 0 < w && forall k | 0 <= k < |faces| :: Covers(faces[k])
    ensures |raws| == |faces|
    decreases |faces|
  {
    if faces == [] then [] else [Measure(norm, faces[0], h, w)] + Measures(norm, faces[1..], h, w)
  }

  /** Each raw measurement is that of the mesh in the same position. */
  lemma {:induction false} MeasuresInOrder(norm: Norm2, faces: seq<Mesh>, h: int, w: int)
    requires 0 < h && 0 < w && forall k | 0 <= k < |faces| :: Covers(faces[k])
    ensures forall k | 0 <= k < |faces| :: Measures(norm, faces, h, w)[k] == Measure(norm, faces[k], h, w)
    decreases |faces|
  {
    if faces != [] {
      MeasuresInOrder(norm, faces[1..], h, w);
    }
  }

  /** A run of calls over several meshes leaves the baselines that the first
      mesh's calibration step leaves. */
  lemma CalibrationAfterEach(start: Option<Baselines>, norm: Norm2, faces: seq<Mesh>, h: int, w: int)
    requires 0 < h && 0 < w && faces != [] && forall k | 0 <= k < |faces| :: Covers(faces[k])
    ensures CalibrationAfter(start, Measures(norm, faces, h, w)) == Some(Calibrate(start, Measure(norm, faces[0], h, w)))
  {
    OnlyFirstCallCalibrates(start, Measures(norm, faces, h, w));
  }

  /** The detector's `multi_face_landmarks` is truthy: present and non-empty. */
  predicate Detected(multiFaceLandmarks: Option<seq<Mesh>>)
  {
    multiFaceLandmarks.Some? && |multiFaceLandmarks.value| > 0
  }

  /** The tracker's calibration state. The detector and drawing helpers it
      also holds are not part of this model. */
  class FaceTracker {
    var mouthWidthBase: Option<real>
    var eyeBlinkBaseLeft: Option<real>
    var eyeBlinkBaseRight: Option<real>

    /** The three baselines are all unset or all set, and set ones are
        positive. */
    ghost predicate Valid()
      reads this
    {
      (mouthWidthBase.None? && eyeBlinkBaseLeft.None? && eyeBlinkBaseRight.None?) ||
      (Calibration().Some? && Positive(Calibration().value))
    }

    /** The baselines taken together, or None while any is unset. */
    ghost function Calibration(): Option<Baselines>
      reads this
    {
      if mouthWidthBase.Some? && eyeBlinkBaseLeft.Some? && eyeBlinkBaseRight.Some? then
        Some(Baselines(mouthWidthBase.value, eyeBlinkBaseLeft.value, eyeBlinkBaseRight.value))
      else
        None
    }

    /** The test `calculate_features` makes before calibrating. */
    predicate Calibrated()
      reads this
    {
      mouthWidthBase.Some?
    }

    constructor ()
      ensures Valid() && !Calibrated() && Calibration() == None
    {
      mouthWidthBase := None;
      eyeBlinkBaseLeft := None;
      eyeBlinkBaseRight := None;
    }

    /** `calculate_features(landmarks, h, w)`: measures the frame, captures
        the baselines if none are set, and returns the measurement normalised
        against the baselines. */
    method CalculateFeatures(norm: Norm2, landmarks: Mesh, h: int, w: int) returns (coordinates: FaceCoordinates)
      requires Valid() && IsEuclidean(norm) && Covers(landmarks) && 0 < h && 0 < w
      requires !Calibrated() ==> Nondegenerate(landmarks, h, w)
      modifies this
      ensures Valid() && Calibrated()
      ensures Calibration() == Some(Calibrate(old(Calibration()), Measure(norm, landmarks, h, w)))
      ensures old(Calibrated()) ==> Calibration() == old(Calibration())
      ensures coordinates == Normalize(Measure(norm, landmarks, h, w), Calibration().value)
      ensures !old(Calibrated()) ==>
        coordinates.mouthWidth == 0.0 && coordinates.eyeBlinkLeft == 0.0 && coordinates.eyeBlinkRight == 0.0
    {
      coordinates := FaceCoordinates();

      coordinates := coordinates.(noseTip := ToPixel(landmarks, NoseTip, h, w));
      coordinates := coordinates.(leftEye := ToPixel(landmarks, LeftEyeOuter, h, w));
      coordinates := coordinates.(rightEye := ToPixel(landmarks, RightEyeOuter, h, w));
      coordinates := coordinates.(mouthCenter := ToPixel(landmarks, MouthCenter, h, w));

      var mouthLeft := ToPixel(landmarks, MouthLeft, h, w);
      var mouthRight := ToPixel(landmarks, MouthRight, h, w);
      coordinates := coordinates.(mouthWidth := Distance(norm, mouthRight, mouthLeft));

      var leftEyeTop := ToPixel(landmarks, LeftEyeTop, h, w);
      var leftEyeBottom := ToPixel(landmarks, LeftEyeBottom, h, w);
      var rightEyeTop := ToPixel(landmarks, RightEyeTop, h, w);
      var rightEyeBottom := ToPixel(landmarks, RightEyeBottom, h, w);
      coordinates := coordinates.(eyeBlinkLeft := Distance(norm, leftEyeTop, leftEyeBottom));
      coordinates := coordinates.(eyeBlinkRight := Distance(norm, rightEyeTop, rightEyeBottom));

      coordinates := coordinates.(headRotation :=
        HeadRotation(coordinates.noseTip, coordinates.leftEye, coordinates.rightEye, h, w));
      assert coordinates == Measure(norm, landmarks, h, w);

      if mouthWidthBase.None? {
        MeasuredDistances(norm, landmarks, h, w);
        CalibrationFrameIsNeutral(norm, landmarks, h, w);
        mouthWidthBase := Some(coordinates.mouthWidth);
        eyeBlinkBaseLeft := Some(coordinates.eyeBlinkLeft);
        eyeBlinkBaseRight := Some(coordinates.eyeBlinkRight);
      }

      coordinates := coordinates.(mouthWidth := coordinates.mouthWidth / mouthWidthBase.value - 1.0);
      coordinates := coordinates.(eyeBlinkLeft := 1.0 - coordinates.eyeBlinkLeft / eyeBlinkBaseLeft.value);
      coordinates := coordinates.(eyeBlinkRight := 1.0 - coordinates.eyeBlinkRight / eyeBlinkBaseRight.value);
    }

    /** `process_frame` after detection: with no face the default record is
        returned and the baselines are untouched; otherwise each detected face
        is passed to `CalculateFeatures` in turn, the first one calibrating if
        nothing is calibrated yet, and the last face's record is returned. */
    method ProcessFrame(norm: Norm2, multiFaceLandmarks: Option<seq<Mesh>>, h: int, w: int)
      returns (coordinates: FaceCoordinates)
      requires Valid() && IsEuclidean(norm) && 0 < h && 0 < w
      requires multiFaceLandmarks.Some? ==>
        forall k | 0 <= k < |multiFaceLandmarks.value| :: Covers(multiFaceLandmarks.value[k])
      requires Detected(multiFaceLandmarks) && !Calibrated() ==> Nondegenerate(multiFaceLandmarks.value[0], h, w)
      modifies this
      ensures Valid()
      ensures !Detected(multiFaceLandmarks) ==> coordinates == FaceCoordinates() && unchanged(this)
      ensures Detected(multiFaceLandmarks) ==>
        var faces := multiFaceLandmarks.value;
        Calibrated() &&
        Calibration() == Some(Calibrate(old(Calibration()), Measure(norm, faces[0], h, w))) &&
        Calibration() == CalibrationAfter(old(Calibration()), Measures(norm, faces, h, w)) &&
        coordinates == Normalize(Measure(norm, faces[|faces| - 1], h, w), Calibration().value)
    {
      coordinates := FaceCoordinates();
      if Detected(multiFaceLandmarks) {
        coordinates := CalculateEach(norm, multiFaceLandmarks.value, h, w);
        CalibrationAfterEach(old(Calibration()), norm, multiFaceLandmarks.value, h, w);
      }
    }

    /** The loop over the detected faces: `CalculateFeatures` on each in turn. */
    method CalculateEach(norm: Norm2, faces: seq<Mesh>, h: int, w: int)
      returns (coordinates: FaceCoordinates)
      requires Valid() && IsEuclidean(norm) && 0 < h && 0 < w && faces != []
      requires forall k | 0 <= k < |faces| :: Covers(faces[k])
      requires !Calibrated() ==> Nondegenerate(faces[0], h, w)
      modifies this
      ensures Valid() && Calibrated()
      ensures Calibration() == Some(Calibrate(old(Calibration()), Measure(norm, faces[0], h, w)))
      ensures coordinates == Normalize(Measure(norm, faces[|faces| - 1], h, w), Calibration().value)
    {
      ghost var first := Calibrate(Calibration(), Measure(norm, faces[0], h, w));
      ghost var lastFace := faces[0];
      coordinates := FaceCoordinates();
      for i := 0 to |faces|
        invariant Valid()
        invariant i == 0 ==> Calibration() == old(Calibration()) && Calibrated() == old(Calibrated())
        invariant 0 < i ==> Calibrated() && Calibration() == Some(first)
        invariant 0 < i ==> lastFace == faces[i - 1]
        invariant 0 < i ==> coordinates == Normalize(Measure(norm, lastFace, h, w), first)
      {
        coordinates := CalculateFeatures(norm, faces[i], h, w);
        lastFace := faces[i];
      }
    }
  }
}

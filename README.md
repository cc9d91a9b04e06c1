# Face tracker: feature extraction and one-shot calibration

A Dafny model of the core of a webcam face tracker. For every frame, a face-mesh
detector supplies landmark positions normalised to the frame. `FaceTracker`
turns them into a `FaceCoordinates` record:

- four pixel points: nose tip, outer eye corners and mouth centre;
- three raw pixel distances: mouth corners, left eyelids and right eyelids;
- a crude head-rotation proxy, taken from the vector between the eye midpoint
  and the nose.

On the first frame with a face, the tracker stores the three raw distances as
baselines. They are never written again. Every frame's distances are then
normalised against them: mouth width becomes raw/base − 1 and each blink degree
1 − raw/base.

Files:

- `builtins.dfy` (module `Builtins`): Python's `None` (an `Option`) and `int()`
  on a float, which truncates toward zero.
- `reals.dfy` (module `Reals`): facts about real multiplication and division used
  by the proofs.
- `linalg.dfy` (module `LinAlg`): the distance `numpy.linalg.norm` gives between
  two integer pixels. The square root is a parameter `norm`. `IsEuclidean` pins it
  down as the non-negative root of x² + y².
- `models.dfy` (module `Models`): the `FaceCoordinates` record. Its constructor
  parameters carry the dataclass defaults.
- `face_tracker.dfy` (module `FaceTracking`):
  - the pure formulas: `ToPixel`, `HeadRotation`, `Measure`, `Normalize` and
    `Calibrate`;
  - the class `FaceTracker`, whose three `Option<real>` fields are the
    calibration baselines;
  - its methods `CalculateFeatures` and `ProcessFrame`, whose loop over the
    detected faces is the method `CalculateEach`. Each is proved against those
    formulas.

The invariant `FaceTracker.Valid()` states that the three baselines are either
all unset or all set and positive.

The model follows the code as written:

- pixel conversion truncates with `int()`; it does not round;
- the tracker has no reset method, so baselines once captured stay for good;
- a zero baseline raises no error;
- the tracker has no network output.

## Model

| member | source | states |
|---|---|---|
| `Builtins.TruncTowardZero` | face_tracker.py:25-26 | `int()` of a float never moves away from zero: for x ≥ 0 the result r satisfies 0 ≤ r ≤ x < r + 1, for x < 0 it satisfies r − 1 < x ≤ r ≤ 0 |
| `Builtins.TruncVersusFloor` | face_tracker.py:25-26 | `int()` equals flooring exactly for non-negative or integral inputs, and is floor + 1 on a negative non-integer |
| `FaceTracking.ScaleTruncates` | face_tracker.py:25-26 | one pixel coordinate is the normalised coordinate times the frame extent, truncated toward zero; a coordinate in [0, 1] lands in [0, extent] (the extent itself is one past the last pixel) |
| `FaceTracking.ToPixelTruncates` | face_tracker.py:24-26 | `to_pixel`: x is scaled by the width and y by the height, each truncated toward zero (`PixelOf`); a landmark with x and y in [0, 1] lands in [0, w] × [0, h] |
| `LinAlg.DistanceIsMetric` | face_tracker.py:39-48 | the `np.linalg.norm` distance of two pixels is non-negative, zero exactly when the pixels are equal, and symmetric |
| `FaceTracking.HeadRotationProxies` | face_tracker.py:50-54 | the third component is always 0.0; pitch (y over h) and yaw (x over w) of the eye-midpoint-to-nose vector are each zero exactly when the nose is level with the eye midpoint and positive exactly when it lies below or to the right; both lie in [−1, 1] when all three points lie in [0, w] × [0, h] |
| `FaceTracking.MeasuredPoints` | face_tracker.py:30-34 | the reported points of the record before normalisation are landmarks 1, 33, 263 and 0 converted by truncation, and its roll component is 0.0 |
| `FaceTracking.MeasuredDistances` | face_tracker.py:36-48 | the raw distances (mouth corners 61/291, eyelids 159/145 and 386/374) are non-negative, each is zero exactly when its two points fall on one pixel, and all three are positive exactly when the frame is non-degenerate |
| `FaceTracking.NormalizeInverse` | face_tracker.py:62-64 | normalisation keeps the points and the rotation, and loses no metric: raw mouth width = (mouth + 1)·base and raw eyelid distance = (1 − blink)·base |
| `FaceTracking.NormalizeAtBaseline` | face_tracker.py:62-64 | a record normalised against its own three distances has mouth width and both blinks exactly 0.0 |
| `FaceTracking.NormalizeOrdering` | face_tracker.py:62-64 | with positive baselines, the mouth value is 0 exactly at the baseline width and positive exactly when wider; a blink value is 0 exactly at the baseline opening and positive exactly when the eyelids are closer |
| `FaceTracking.NormalizedBounds` | face_tracker.py:36-64 | with positive baselines, mouth width ≥ −1 and both blink degrees ≤ 1, with −1 and 1 reached exactly when the measured pair coincides |
| `FaceTracking.CalibrationFrameIsNeutral` | face_tracker.py:57-64 | on the calibrating frame, if it is non-degenerate, the new baselines are positive and mouth width and both blinks are exactly 0.0 |
| `FaceTracking.CalibrationAfter` | face_tracker.py:57-60 | the baselines after a run of calls; after at least one call they are set |
| `FaceTracking.CalibratedStaysFixed` | face_tracker.py:57-60 | once set, the baselines are unchanged by any number of later calls |
| `FaceTracking.OnlyFirstCallCalibrates` | face_tracker.py:57-60 | after any non-empty run of calls, the baselines are those left by the first call's calibration step |
| `FaceTracking.MeasuresInOrder` | face_tracker.py:76-88 | the measurements of a run of faces are those of each face in turn, in the detector's order |
| `FaceTracking.CalibrationAfterEach` | face_tracker.py:57-88 | after `calculate_features` on every face of a non-empty list, the baselines are those the first face's calibration step leaves |
| `FaceTracking.FaceTracker.constructor` | face_tracker.py:17-20 | a new tracker has all three baselines unset (`None`) and satisfies the invariant |
| `FaceTracking.FaceTracker.CalculateFeatures` | face_tracker.py:22-66 | keeps the all-or-none invariant and leaves all baselines set; captures them from this frame only if unset and otherwise keeps them; returns `Normalize(Measure(...), baselines)`; on the calibrating call, mouth width and both blinks are 0.0 |
| `FaceTracking.FaceTracker.ProcessFrame` | face_tracker.py:73-97 | with no face (no list or an empty one) it returns the default record and changes nothing; otherwise it runs `CalculateFeatures` on each face in turn and returns the last face's record, with the baselines taken from the first face if none were set; the new baselines are exactly those of the `CalibrationAfter` fold over the faces' measurements, which ties that fold to the class |
| `FaceTracking.FaceTracker.CalculateEach` | face_tracker.py:75-89 | the loop over the detected faces: after it the baselines are set, taken from the first face if they were unset before and unchanged otherwise, and the result is the last face's measured record normalised against them |
| `Models.DefaultIsZero` | models.py:6-13 | the default record has all four points at (0, 0), the three metrics at 0.0 and head rotation (0.0, 0.0, 0.0) |
| `Models.FieldwiseEquality` | models.py:3-13 | two records are equal exactly when all eight fields are equal |

## Left out

- The MediaPipe face mesh (face_tracker.py:8-15, 70) is left out. Its output enters
  `ProcessFrame` as an optional list of landmark sequences.
- OpenCV colour conversion, tessellation drawing and key-point circles
  (face_tracker.py:69, 71, 77-95) are left out. They only render. The frame that
  `process_frame` returns is not modelled.
- main.py is not part of this model. It holds the video loop, the text overlay,
  window display and the catch-all exception handler.
- utils.py is not part of this model. It holds logging setup, `.env` loading,
  configuration reads, capture-device fallback and resource cleanup.
- Floating point is left out. Values are Dafny reals, so float64 rounding is not
  modelled.
- The square root inside `numpy.linalg.norm` is a parameter. It is constrained
  only by `IsEuclidean`.
- Zero baselines are left out. A zero raw distance on the calibrating frame would
  give numpy inf/nan, and the tracker would keep that zero baseline for good.
  The model instead requires the calibrating frame to be non-degenerate
  (`Nondegenerate`), and `Valid()` keeps baselines positive.
- A landmark list shorter than 387 entries would raise IndexError in the source.
  `Covers` is required instead, because the detector's mesh always has more
  points than that.
- A zero frame height or width (numpy nan in the head-rotation division, since every pixel coordinate on that axis is then 0) is left
  out. `0 < h && 0 < w` is required, since a captured frame is never empty.

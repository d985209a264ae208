/**
 * The per-frame metrics derived from the first detected face:
 * the mean eye-openness, the two head angles and the yawn flag
 * (EyeTrackingFragment.analyzeImage).
 */
module FrameMetrics {
  import opened Wrappers

  /** A face is yawning when the gap from the nose base down to the bottom lip exceeds this fraction of the face box height. */
  const YawnGapRatio: real := 0.35

  /** What the detector reports about one face. Landmarks are reduced to their y coordinate. */
  datatype Face = Face(
    leftEyeOpenProbability: Option<real>,
    rightEyeOpenProbability: Option<real>,
    headEulerAngleY: real,
    headEulerAngleX: real,
    mouthBottomY: Option<real>,
    noseBaseY: Option<real>,
    boxHeight: int)

  /** The metrics the driver-state monitor consumes for one frame. */
  datatype Frame = Frame(ear: real, headTurnY: real, headTiltX: real, isYawning: bool)

  function Min(a: real, b: real): real { if a <= b then a else b }
  function Max(a: real, b: real): real { if a <= b then b else a }

  predicate IsProbability(p: Option<real>) {
    p.Some? ==> 0.0 <= p.value <= 1.0
  }

  /** Mean eye-open probability; an eye the detector could not classify counts as fully open. */
  function EyeAverage(left: Option<real>, right: Option<real>): (avg: real)
    ensures Min(left.GetOr(1.0), right.GetOr(1.0)) <= avg <= Max(left.GetOr(1.0), right.GetOr(1.0))
    ensures left.Some? && right.Some? && left.value == right.value ==> avg == left.value
    ensures left.None? && right.None? ==> avg == 1.0
    ensures IsProbability(left) && IsProbability(right) ==> 0.0 <= avg <= 1.0
  {
    (left.GetOr(1.0) + right.GetOr(1.0)) / 2.0
  }

  /**
   * Fail-safe bias: a missing probability never makes a frame look more closed than
   * any real reading of that eye would.
   */
  lemma MissingReadsAsOpen(other: Option<real>, p: real)
    requires 0.0 <= p <= 1.0
    ensures EyeAverage(Some(p), other) <= EyeAverage(None, other)
    ensures EyeAverage(other, Some(p)) <= EyeAverage(other, None)
  {
  }

  /** The yawn test: both landmarks present and the mouth well below the nose. */
  function IsYawning(mouthBottomY: Option<real>, noseBaseY: Option<real>, boxHeight: int): (yawning: bool)
    ensures yawning ==> mouthBottomY.Some? && noseBaseY.Some?
    ensures yawning && boxHeight >= 0 ==> mouthBottomY.value > noseBaseY.value
    ensures mouthBottomY.Some? && noseBaseY.Some? && boxHeight <= 0 && mouthBottomY.value > noseBaseY.value ==> yawning
  {
    match (mouthBottomY, noseBaseY)
    case (Some(mouth), Some(nose)) => mouth - nose > (boxHeight as real) * YawnGapRatio
    case _ => false
  }

  /** Opening the mouth further never ends a yawn; a taller face box never starts one. */
  lemma YawnMonotone(mouth: real, wider: real, nose: real, h: int, taller: int)
    requires mouth <= wider && h >= taller
    ensures IsYawning(Some(mouth), Some(nose), h) ==> IsYawning(Some(wider), Some(nose), taller)
  {
    assert (taller as real) * YawnGapRatio <= (h as real) * YawnGapRatio;
  }

  /** The metrics of one face, as handed to the monitor. */
  function FrameOf(face: Face): (f: Frame)
    ensures f.headTurnY == face.headEulerAngleY && f.headTiltX == face.headEulerAngleX
    ensures IsProbability(face.leftEyeOpenProbability) && IsProbability(face.rightEyeOpenProbability)
            ==> 0.0 <= f.ear <= 1.0
    ensures f.isYawning ==> face.mouthBottomY.Some? && face.noseBaseY.Some?
  {
    Frame(EyeAverage(face.leftEyeOpenProbability, face.rightEyeOpenProbability),
          face.headEulerAngleY, face.headEulerAngleX,
          IsYawning(face.mouthBottomY, face.noseBaseY, face.boxHeight))
  }

  /** Only the first detected face is analysed; a frame with no face yields no metrics. */
  function FirstFaceFrame(faces: seq<Face>): (r: Option<Frame>)
    ensures r.None? <==> |faces| == 0
    ensures r.Some? ==> r.value == FrameOf(faces[0])
  {
    if |faces| == 0 then None else Some(FrameOf(faces[0]))
  }
}

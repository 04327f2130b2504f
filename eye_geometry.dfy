/** The eye-contact heuristic applied to one detected face
    (`isMakingEyeContact` and its nested `isCentered` in
    SpeechFlow/EyeTracker.swift). Landmark coordinates are normalized to the
    face's bounding box and modelled as `real`. */
module EyeContactGeometry {

  import opened Basics

  datatype Point = Point(x: real, y: real)

  /** The `normalizedPoints` of one landmark region; its `pointCount` is the length. */
  type Region = seq<Point>

  /** The regions of `VNFaceLandmarks2D` the heuristic reads; each may be absent. */
  datatype Landmarks = Landmarks(
    leftPupil: Option<Region>,
    rightPupil: Option<Region>,
    leftEye: Option<Region>,
    rightEye: Option<Region>)

  /** One `VNFaceObservation`: an optional yaw (radians) and optional landmarks. */
  datatype Face = Face(yaw: Option<real>, landmarks: Option<Landmarks>)

  /** A face turned further than this (radians) is skipped. */
  const YawThreshold: real := 0.4
  /** The pupil must lie in [minY + BandLow * h, minY + BandHigh * h]. */
  const BandLow: real := 0.35
  const BandHigh: real := 0.65
  /** The pupil must lie strictly closer than this to the eye's mean x. */
  const MaxDeviationX: real := 0.02

  /** `eyeYs.min()` */
  function MinY(pts: Region): (m: real)
    requires |pts| > 0
    ensures exists i :: 0 <= i < |pts| && pts[i].y == m
    ensures forall i :: 0 <= i < |pts| ==> m <= pts[i].y
  {
    if |pts| == 1 then pts[0].y
    else
      var rest := MinY(pts[1..]);
      if pts[0].y <= rest then pts[0].y else rest
  }

  /** `eyeYs.max()` */
  function MaxY(pts: Region): (m: real)
    requires |pts| > 0
    ensures exists i :: 0 <= i < |pts| && pts[i].y == m
    ensures forall i :: 0 <= i < |pts| ==> pts[i].y <= m
  {
    if |pts| == 1 then pts[0].y
    else
      var rest := MaxY(pts[1..]);
      if pts[0].y >= rest then pts[0].y else rest
  }

  /** `eyeXs.reduce(0, +)`, folding from the left. */
  function SumX(pts: Region): real
  {
    if |pts| == 0 then 0.0 else SumX(pts[..|pts| - 1]) + pts[|pts| - 1].x
  }

  /** The horizontal centre of the eye outline: the mean of its x coordinates. */
  function MeanX(pts: Region): real
    requires |pts| > 0
  {
    SumX(pts) / (|pts| as real)
  }

  /** `isCentered(pupil:eye:)`: the first pupil point lies in the middle band of
      the eye's vertical extent and close to its horizontal centre. */
  function IsCentered(pupil: Region, eye: Region): (r: bool)
    ensures r ==> |pupil| > 0 && |eye| >= 2
    ensures r ==> Abs(pupil[0].x - MeanX(eye)) < MaxDeviationX
    ensures r ==> MinY(eye) <= pupil[0].y <= MaxY(eye)
  {
    if |pupil| == 0 || |eye| < 2 then false
    else
      var p := pupil[0];
      var minY := MinY(eye);
      var height := MaxY(eye) - minY;
      var lowerCutoff := minY + height * BandHigh;
      var upperCutoff := minY + height * BandLow;
      var isOutsideVerticalZone := p.y < upperCutoff || p.y > lowerCutoff;
      var deltaX := Abs(p.x - MeanX(eye));
      deltaX < MaxDeviationX && !isOutsideVerticalZone
  }

  /** `isMakingEyeContact(face:)` */
  function IsMakingEyeContact(face: Face): (r: bool)
    ensures r ==> face.yaw.None? || Abs(face.yaw.value) <= YawThreshold
    ensures r ==> face.landmarks.Some?
  {
    if face.yaw.Some? && Abs(face.yaw.value) > YawThreshold then false
    else
      match face.landmarks
      case None => false
      case Some(l) =>
        if l.leftPupil.None? || l.rightPupil.None? || l.leftEye.None? || l.rightEye.None? then false
        else IsCentered(l.leftPupil.value, l.leftEye.value) && IsCentered(l.rightPupil.value, l.rightEye.value)
  }

  // ---------------------------------------------------------------------------
  // Reference definitions of the eye's extent, independent of the folds above.

  ghost predicate IsLowest(eye: Region, lo: real)
  {
    (exists i :: 0 <= i < |eye| && eye[i].y == lo) && forall i :: 0 <= i < |eye| ==> lo <= eye[i].y
  }

  ghost predicate IsHighest(eye: Region, hi: real)
  {
    (exists i :: 0 <= i < |eye| && eye[i].y == hi) && forall i :: 0 <= i < |eye| ==> eye[i].y <= hi
  }

  /** Every x coordinate of the outline lies in [lo, hi]. */
  ghost predicate XWithin(pts: Region, lo: real, hi: real)
  {
    forall i :: 0 <= i < |pts| ==> lo <= pts[i].x <= hi
  }

  /** The fold `reduce(0, +)` of n coordinates in [lo, hi] lies in [n lo, n hi]. */
  lemma {:induction false} SumXBounds(pts: Region, lo: real, hi: real)
    requires XWithin(pts, lo, hi)
    ensures |pts| as real * lo <= SumX(pts) <= |pts| as real * hi
  {
    if |pts| > 0 {
      var n := |pts| - 1;
      SumXBounds(pts[..n], lo, hi);
      assert |pts| as real * lo == n as real * lo + lo;
      assert |pts| as real * hi == n as real * hi + hi;
    }
  }

  /** The horizontal centre of the outline lies between its leftmost and
      rightmost coordinates. */
  lemma MeanXWithinOutline(pts: Region, lo: real, hi: real)
    requires |pts| > 0 && XWithin(pts, lo, hi)
    ensures lo <= MeanX(pts) <= hi
  {
    SumXBounds(pts, lo, hi);
    var n := |pts| as real;
    assert MeanX(pts) * n == SumX(pts);
  }

  /** The pupil's height lies in the closed band [lo + 0.35 h, lo + 0.65 h], h = hi - lo. */
  ghost predicate InVerticalBand(y: real, lo: real, hi: real)
  {
    lo + BandLow * (hi - lo) <= y <= lo + BandHigh * (hi - lo)
  }

  /** `isCentered` holds exactly when the pupil has a point, the eye has at
      least two, the first pupil point is strictly within 0.02 of the mean x of
      the outline, and it lies in the inclusive middle band between the
      outline's lowest and highest point. */
  lemma CenteredCharacterization(pupil: Region, eye: Region, lo: real, hi: real)
    requires IsLowest(eye, lo) && IsHighest(eye, hi)
    ensures IsCentered(pupil, eye) <==>
      |pupil| > 0 && |eye| >= 2 &&
      Abs(pupil[0].x - MeanX(eye)) < MaxDeviationX &&
      InVerticalBand(pupil[0].y, lo, hi)
  {
  }

  /** A face turned more than 0.4 rad either way is rejected whatever its landmarks. */
  lemma TurnedFaceRejected(face: Face)
    requires face.yaw.Some? && Abs(face.yaw.value) > YawThreshold
    ensures !IsMakingEyeContact(face)
  {
  }

  /** A face whose yaw is absent or at most 0.4 rad in magnitude (0.4 itself
      included) is judged by its landmarks alone: it makes eye contact exactly
      when all four regions are present and both eyes are centered. */
  lemma EyeContactByLandmarks(face: Face)
    requires face.yaw.None? || Abs(face.yaw.value) <= YawThreshold
    ensures IsMakingEyeContact(face) <==>
      face.landmarks.Some? &&
      var l := face.landmarks.value;
      l.leftPupil.Some? && l.rightPupil.Some? && l.leftEye.Some? && l.rightEye.Some? &&
      IsCentered(l.leftPupil.value, l.leftEye.value) &&
      IsCentered(l.rightPupil.value, l.rightEye.value)
  {
  }

  /** Eye contact requires both eyes: one eye failing its check forces false. */
  lemma OneEyeOffRejects(face: Face)
    requires face.landmarks.Some?
    requires var l := face.landmarks.value;
      (l.leftPupil.Some? && l.leftEye.Some? && !IsCentered(l.leftPupil.value, l.leftEye.value)) ||
      (l.rightPupil.Some? && l.rightEye.Some? && !IsCentered(l.rightPupil.value, l.rightEye.value))
    ensures !IsMakingEyeContact(face)
  {
  }

  /** A pupil region without points, or an eye outline with fewer than two, is never centered. */
  lemma TooFewPointsNotCentered(pupil: Region, eye: Region)
    requires |pupil| == 0 || |eye| < 2
    ensures !IsCentered(pupil, eye)
  {
  }

  // ---------------------------------------------------------------------------
  // Concrete faces.

  /** An eye outline spanning x in [0.4, 0.6] and y in [0.5, 0.7]. */
  const SampleEye: Region := [Point(0.4, 0.5), Point(0.6, 0.7)]

  /** Pupils exactly at the centre of both eyes: eye contact. */
  lemma CentredPupilsMakeContact()
    ensures IsMakingEyeContact(Face(Some(0.0), Some(Landmarks(
      Some([Point(0.5, 0.6)]), Some([Point(0.5, 0.6)]), Some(SampleEye), Some(SampleEye)))))
  {
    assert MinY(SampleEye) == 0.5 && MaxY(SampleEye) == 0.7;
    assert SumX(SampleEye) == 1.0 by {
      assert SampleEye[..1] == [Point(0.4, 0.5)];
      assert SumX(SampleEye[..1]) == 0.4 by {
        assert SampleEye[..1][..0] == [];
      }
    }
  }

  /** The same face with the right pupil 0.05 off centre: no eye contact. */
  lemma OffCentrePupilBreaksContact()
    ensures !IsMakingEyeContact(Face(Some(0.0), Some(Landmarks(
      Some([Point(0.5, 0.6)]), Some([Point(0.55, 0.6)]), Some(SampleEye), Some(SampleEye)))))
  {
  }
}

/** A keypoint sample from the pose estimator and the pure checks made on it:
    the sideways frame check and the posture classification. */
module Pose {

  /** One landmark, in the estimator's order `[y, x, score]`, normalized to the frame. */
  datatype Point = Point(y: real, x: real, score: real)

  /** The six of the estimator's seventeen landmarks that the controller reads. */
  datatype Keypoints = Keypoints(
    nose: Point,
    leftEye: Point,
    rightEye: Point,
    leftShoulder: Point,
    rightShoulder: Point,
    leftHip: Point)

  function Abs(v: real): (r: real)
    ensures 0.0 <= r && (r == v || r == -v)
  {
    if v < 0.0 then -v else v
  }

  /** The face scale: the vertical distance between nose and left eye. */
  function FaceScale(k: Keypoints): real
  {
    Abs(k.nose.y - k.leftEye.y)
  }

  /** Two heights `p` and `q` lie more than `c` face scales apart, the face
      scale being the distance between the heights `n` and `e`. */
  predicate FartherThan(p: real, q: real, c: real, n: real, e: real)
  {
    Abs(p - q) > c * Abs(n - e)
  }

  /** Two heights `p` and `q` lie less than `c` face scales apart. */
  predicate CloserThan(p: real, q: real, c: real, n: real, e: real)
  {
    Abs(p - q) < c * Abs(n - e)
  }

  /** The shoulders are tilted: their heights differ by more than twice the face scale. */
  predicate ShouldersTilted(k: Keypoints)
  {
    FartherThan(k.leftShoulder.y, k.rightShoulder.y, 2.0, k.nose.y, k.leftEye.y)
  }

  /** The face is sunk towards the shoulder: closer than twice the face scale. */
  predicate FaceNearShoulder(k: Keypoints)
  {
    CloserThan(k.leftShoulder.y, k.nose.y, 2.0, k.nose.y, k.leftEye.y)
  }

  /** The user slouches: hip and shoulder closer than four times the face scale. */
  predicate HipNearShoulder(k: Keypoints)
  {
    CloserThan(k.leftHip.y, k.leftShoulder.y, 4.0, k.nose.y, k.leftEye.y)
  }

  predicate IsBadPosture(k: Keypoints)
  {
    ShouldersTilted(k) || FaceNearShoulder(k) || HipNearShoulder(k)
  }

  /** The user sits too far to one side: the left shoulder is right of
      `leftXLimit` or the right shoulder is left of `rightXLimit`. */
  predicate OutOfFrameSideways(k: Keypoints, leftXLimit: real, rightXLimit: real)
  {
    k.leftShoulder.x > leftXLimit || k.rightShoulder.x < rightXLimit
  }

  function RescalePoint(p: Point, a: real, b: real): Point
  {
    p.(y := a * p.y + b)
  }

  /** The same user seen nearer or farther away, or shifted up or down:
      every height `y` becomes `a * y + b`. */
  function Rescale(k: Keypoints, a: real, b: real): Keypoints
  {
    Keypoints(
      RescalePoint(k.nose, a, b),
      RescalePoint(k.leftEye, a, b),
      RescalePoint(k.rightEye, a, b),
      RescalePoint(k.leftShoulder, a, b),
      RescalePoint(k.rightShoulder, a, b),
      RescalePoint(k.leftHip, a, b))
  }

  lemma AbsOfScaledDifference(a: real, b: real, u: real, v: real)
    requires a > 0.0
    ensures Abs((a * u + b) - (a * v + b)) == a * Abs(u - v)
  {
    assert (a * u + b) - (a * v + b) == a * (u - v);
    if u - v < 0.0 {
      assert a * (u - v) < 0.0;
    } else {
      assert a * (u - v) >= 0.0;
    }
  }

  lemma ScaledCompare(a: real, c: real, u: real, v: real)
    requires a > 0.0
    ensures (a * u > c * (a * v)) == (u > c * v)
    ensures (a * u < c * (a * v)) == (u < c * v)
  {
    assert c * (a * v) == a * (c * v);
    if u > c * v {
      assert a * u - a * (c * v) == a * (u - c * v);
    }
    if u < c * v {
      assert a * (c * v) - a * u == a * (c * v - u);
    }
    if u == c * v {
      assert a * u == a * (c * v);
    }
  }

  /** Both ratio tests answer the same once every height `y` becomes `a * y + b`. */
  lemma RatioTestsRescaled(a: real, b: real, c: real, p: real, q: real, n: real, e: real)
    requires a > 0.0
    ensures FartherThan(a * p + b, a * q + b, c, a * n + b, a * e + b) == FartherThan(p, q, c, n, e)
    ensures CloserThan(a * p + b, a * q + b, c, a * n + b, a * e + b) == CloserThan(p, q, c, n, e)
  {
    AbsOfScaledDifference(a, b, p, q);
    AbsOfScaledDifference(a, b, n, e);
    ScaledCompare(a, c, Abs(p - q), Abs(n - e));
  }

  /** The classification compares ratios of heights to the face scale, so it gives
      the same verdict for the same posture whatever the user's distance from the
      camera (a positive scale `a`) and height in the frame (a shift `b`). */
  lemma RescalePreservesVerdict(k: Keypoints, a: real, b: real)
    requires a > 0.0
    ensures ShouldersTilted(Rescale(k, a, b)) == ShouldersTilted(k)
    ensures FaceNearShoulder(Rescale(k, a, b)) == FaceNearShoulder(k)
    ensures HipNearShoulder(Rescale(k, a, b)) == HipNearShoulder(k)
    ensures IsBadPosture(Rescale(k, a, b)) == IsBadPosture(k)
  {
    var k' := Rescale(k, a, b);
    var n, e, ls, rs, lh := k.nose.y, k.leftEye.y, k.leftShoulder.y, k.rightShoulder.y, k.leftHip.y;
    assert k'.nose.y == a * n + b && k'.leftEye.y == a * e + b;
    assert k'.leftShoulder.y == a * ls + b && k'.rightShoulder.y == a * rs + b && k'.leftHip.y == a * lh + b;
    RatioTestsRescaled(a, b, 2.0, ls, rs, n, e);
    RatioTestsRescaled(a, b, 2.0, ls, n, n, e);
    RatioTestsRescaled(a, b, 4.0, lh, ls, n, e);
  }

  /** With the nose level with the left eye the face scale is zero: the two
      "too close" tests can never fire and the posture is bad exactly when the
      shoulders are not level. */
  lemma ZeroFaceScale(k: Keypoints)
    requires FaceScale(k) == 0.0
    ensures IsBadPosture(k) <==> k.leftShoulder.y != k.rightShoulder.y
  {
  }

}

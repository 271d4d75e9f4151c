/**
 The pure geometry helpers of the scaling engine: interpolation of a point
 about a centre, the public vector scaler, the choice of the scaling origin
 (an explicit point, a face of a box, or its position) and the rescaling of
 a keypoint curve.
 */
module Geometry {
  import opened Options
  import opened Vectors
  import opened ScaleSpecifiers

  /** `lerpVector`: moves `v` away from (or toward) `center` by the 3D view
      of the scale, axis by axis. */
  function Lerp(v: Vec3, center: Vec3, spec: ScaleSpecifier): (r: Vec3)
    ensures Sub(r, center) == Mul(Sub(v, center), spec.asVector3)
  {
    var delta := Sub(v, center);
    var factors := spec.asVector3;
    Vec3(center.x + delta.x * factors.x, center.y + delta.y * factors.y, center.z + delta.z * factors.z)
  }

  /** `scaleVector`: the literal 1 returns the vector; with a centre the
      vector is interpolated about it; without one it is multiplied by the
      size factors (per axis only for a raw Vector3). */
  function ScaleVector(v: Vec3, scale: ScaleInput, center: Option<Vec3>): (r: Vec3)
    ensures center.Some? ==> Sub(r, center.value) == Mul(Sub(v, center.value), Specify(scale).asVector3)
    ensures center.None? && !scale.Vector3? ==> r == MulScalar(v, Specify(scale).asNumber)
    ensures center.None? && scale.Vector3? ==> r == Mul(v, scale.v3)
  {
    if IsLiteralOne(scale) then
      v
    else
      var spec := Specify(scale);
      match center
      case Some(c) => Lerp(v, c, spec)
      case None => Mul(v, SizeFactors(spec))
  }

  /** A face of a box (`Enum.NormalId`). */
  datatype NormalId = Front | Back | Right | Left | Top | Bottom

  /** The outward unit normal of a face, as `Vector3.FromNormalId`. */
  function FaceNormal(side: NormalId): Vec3 {
    match side
    case Front => Vec3(0.0, 0.0, -1.0)
    case Back => Vec3(0.0, 0.0, 1.0)
    case Right => Vec3(1.0, 0.0, 0.0)
    case Left => Vec3(-1.0, 0.0, 0.0)
    case Top => Vec3(0.0, 1.0, 0.0)
    case Bottom => Vec3(0.0, -1.0, 0.0)
  }

  /** `_minSide`: the centre of the chosen face of a box of the given size
      centred on `position`. */
  function MinSide(size: Vec3, position: Vec3, side: NormalId): (r: Vec3)
    ensures Sub(r, position) == Mul(FaceNormal(side), MulScalar(size, 0.5))
  {
    var halfSize := MulScalar(size, 0.5);
    match side
    case Front => Vec3(position.x, position.y, position.z - halfSize.z)
    case Back => Vec3(position.x, position.y, position.z + halfSize.z)
    case Right => Vec3(position.x + halfSize.x, position.y, position.z)
    case Left => Vec3(position.x - halfSize.x, position.y, position.z)
    case Top => Vec3(position.x, position.y + halfSize.y, position.z)
    case Bottom => Vec3(position.x, position.y - halfSize.y, position.z)
  }

  /** The optional `center` argument of the entry points. */
  datatype Center = NoCenter | AtPoint(point: Vec3) | AtSide(side: NormalId)

  /** `_centerToOrigin`: an explicit point wins, else the chosen face of the
      box, else the box's position. */
  function CenterToOrigin(center: Center, size: Vec3, position: Vec3): (r: Vec3)
    ensures center.AtPoint? ==> r == center.point
    ensures center.AtSide? ==> r == MinSide(size, position, center.side)
    ensures center.NoCenter? ==> r == position
  {
    match center
    case AtPoint(p) => p
    case AtSide(side) => MinSide(size, position, side)
    case NoCenter => position
  }

  /** A point of a size-over-lifetime curve (`NumberSequenceKeypoint`). */
  datatype Keypoint = Keypoint(time: real, value: real, envelope: real)

  /** `scaleNumberSequence`: multiplies every keypoint's value and envelope
      by the scalar view, keeping its time and the keypoint order. */
  function ScaleNumberSequence(keypoints: seq<Keypoint>, scale: ScaleInput): (r: seq<Keypoint>)
    ensures |r| == |keypoints|
    ensures forall i :: 0 <= i < |r| ==> r[i].time == keypoints[i].time
    ensures forall i :: 0 <= i < |r| ==>
      r[i].value == keypoints[i].value * Specify(scale).asNumber &&
      r[i].envelope == keypoints[i].envelope * Specify(scale).asNumber
  {
    if |keypoints| == 0 then
      []
    else
      var k := Specify(scale).asNumber;
      var kp := keypoints[0];
      [Keypoint(kp.time, kp.value * k, kp.envelope * k)] + ScaleNumberSequence(keypoints[1..], scale)
  }

  /** The times of a curve's keypoints, in order. */
  function Times(keypoints: seq<Keypoint>): seq<real> {
    seq(|keypoints|, i requires 0 <= i < |keypoints| => keypoints[i].time)
  }

  // Interpolation

  /** The centre is a fixed point of every scale. */
  lemma CenterIsFixed(center: Vec3, spec: ScaleSpecifier)
    ensures Lerp(center, center, spec) == center
  {
  }

  /** A 3D view of (1, 1, 1) leaves every point where it is. */
  lemma UnitLerpIsIdentity(v: Vec3, center: Vec3, spec: ScaleSpecifier)
    requires spec.asVector3 == One
    ensures Lerp(v, center, spec) == v
  {
  }

  /** Scaling by `a` and then by `b` about the same centre is scaling once
      by the component-wise product of their 3D views. */
  lemma LerpComposes(v: Vec3, center: Vec3, a: ScaleSpecifier, b: ScaleSpecifier, ab: ScaleSpecifier)
    requires ab.asVector3 == Mul(a.asVector3, b.asVector3)
    ensures Lerp(Lerp(v, center, a), center, b) == Lerp(v, center, ab)
  {
    var d := Sub(v, center);
    var fa := a.asVector3;
    var fb := b.asVector3;
    var once := Lerp(v, center, a);
    assert once.x - center.x == d.x * fa.x && once.y - center.y == d.y * fa.y && once.z - center.z == d.z * fa.z;
    var twice := Lerp(once, center, b);
    assert twice.x - center.x == (d.x * fa.x) * fb.x == d.x * (fa.x * fb.x);
    assert twice.y - center.y == (d.y * fa.y) * fb.y == d.y * (fa.y * fb.y);
    assert twice.z - center.z == (d.z * fa.z) * fb.z == d.z * (fa.z * fb.z);
  }

  /** Two number scales compose into their product. */
  lemma NumberScalesCompose(v: Vec3, center: Vec3, a: real, b: real)
    ensures Lerp(Lerp(v, center, Specify(Number(a))), center, Specify(Number(b)))
         == Lerp(v, center, Specify(Number(a * b)))
  {
    LerpComposes(v, center, Specify(Number(a)), Specify(Number(b)), Specify(Number(a * b)));
  }

  /** Scaling by a number and then by its reciprocal returns every point. */
  lemma LerpInverse(v: Vec3, center: Vec3, a: real)
    requires a != 0.0
    ensures Lerp(Lerp(v, center, Specify(Number(a))), center, Specify(Number(1.0 / a))) == v
  {
    NumberScalesCompose(v, center, a, 1.0 / a);
    assert a * (1.0 / a) == 1.0;
  }

  // The public vector scaler

  /** Every unit scale, not only the literal 1, returns the vector unchanged,
      with or without a centre. */
  lemma ScaleVectorUnit(v: Vec3, scale: ScaleInput, center: Option<Vec3>)
    requires scale == Number(1.0) || scale == Vector2(Vec2(1.0, 1.0)) || scale == Vector3(One)
    ensures ScaleVector(v, scale, center) == v
  {
    UnitInputsHaveUnitViews(scale);
  }

  /** For a number or a Vector3, scaling without a centre is scaling about
      the zero point. */
  lemma NoCenterIsZeroCenter(v: Vec3, scale: ScaleInput)
    requires scale.Number? || scale.Vector3?
    ensures ScaleVector(v, scale, None) == ScaleVector(v, scale, Some(Zero))
  {
  }

  /** A Vector2 scale without a centre is uniform by the mean of its axes:
      (2, 4) sends (1, 1, 1) to (3, 3, 3). */
  lemma Vector2WithoutCenterIsUniform()
    ensures ScaleVector(One, Vector2(Vec2(2.0, 4.0)), None) == Vec3(3.0, 3.0, 3.0)
  {
  }

  /** About a centre, a Vector2 scale keeps its two axes apart and uses their
      mean on the third: (2, 4) sends (1, 1, 1) to (2, 4, 3) about the zero
      point. */
  lemma Vector2AboutCenterIsPerAxis()
    ensures ScaleVector(One, Vector2(Vec2(2.0, 4.0)), Some(Zero)) == Vec3(2.0, 4.0, 3.0)
  {
  }

  /** Scaling a vector about a centre by `a` and then by `b` is one scale by
      `a * b`. */
  lemma ScaleVectorComposes(v: Vec3, center: Vec3, a: real, b: real)
    ensures ScaleVector(ScaleVector(v, Number(a), Some(center)), Number(b), Some(center))
         == ScaleVector(v, Number(a * b), Some(center))
  {
    NumberScalesCompose(v, center, a, b);
    UnitInputsHaveUnitViews(Number(1.0));
  }

  // Origin resolution

  /** A face moves exactly one coordinate of the position, by half the size
      along that face's axis: Front, Left and Bottom subtract, Back, Right
      and Top add. */
  lemma MinSideMovesOneAxis(size: Vec3, position: Vec3, side: NormalId)
    ensures side == Front ==> MinSide(size, position, side) == Vec3(position.x, position.y, position.z - size.z / 2.0)
    ensures side == Back ==> MinSide(size, position, side) == Vec3(position.x, position.y, position.z + size.z / 2.0)
    ensures side == Left ==> MinSide(size, position, side) == Vec3(position.x - size.x / 2.0, position.y, position.z)
    ensures side == Right ==> MinSide(size, position, side) == Vec3(position.x + size.x / 2.0, position.y, position.z)
    ensures side == Bottom ==> MinSide(size, position, side) == Vec3(position.x, position.y - size.y / 2.0, position.z)
    ensures side == Top ==> MinSide(size, position, side) == Vec3(position.x, position.y + size.y / 2.0, position.z)
  {
  }

  /** Opposite faces lie symmetrically about the box's position. */
  lemma OppositeFacesAreSymmetric(size: Vec3, position: Vec3)
    ensures Add(MinSide(size, position, Front), MinSide(size, position, Back)) == MulScalar(position, 2.0)
    ensures Add(MinSide(size, position, Left), MinSide(size, position, Right)) == MulScalar(position, 2.0)
    ensures Add(MinSide(size, position, Bottom), MinSide(size, position, Top)) == MulScalar(position, 2.0)
  {
  }

  /** A box of size (4, 2, 6) at the zero point: its top face is at
      (0, 1, 0). */
  lemma TopFaceExample()
    ensures CenterToOrigin(AtSide(Top), Vec3(4.0, 2.0, 6.0), Zero) == Vec3(0.0, 1.0, 0.0)
  {
  }

  /** The same box has its left face at (-2, 0, 0). */
  lemma LeftFaceExample()
    ensures CenterToOrigin(AtSide(Left), Vec3(4.0, 2.0, 6.0), Zero) == Vec3(-2.0, 0.0, 0.0)
  {
  }

  // Keypoint curves

  /** Rescaling keeps the times of the keypoints, in order. */
  lemma ScaleNumberSequenceKeepsTimes(keypoints: seq<Keypoint>, scale: ScaleInput)
    ensures Times(ScaleNumberSequence(keypoints, scale)) == Times(keypoints)
  {
  }

  /** Rescaling by `a` and then by `b` is rescaling once by `a * b`. */
  lemma ScaleNumberSequenceComposes(keypoints: seq<Keypoint>, a: real, b: real)
    ensures ScaleNumberSequence(ScaleNumberSequence(keypoints, Number(a)), Number(b))
         == ScaleNumberSequence(keypoints, Number(a * b))
  {
    var once := ScaleNumberSequence(keypoints, Number(a * b));
    var twice := ScaleNumberSequence(ScaleNumberSequence(keypoints, Number(a)), Number(b));
    forall i | 0 <= i < |keypoints|
      ensures twice[i] == once[i]
    {
      assert keypoints[i].value * a * b == keypoints[i].value * (a * b);
      assert keypoints[i].envelope * a * b == keypoints[i].envelope * (a * b);
    }
  }

  /** The curve [(0, 1, 0), (1, 2, 0)] scaled by 2 is [(0, 2, 0), (1, 4, 0)]. */
  lemma NumberSequenceExample()
    ensures ScaleNumberSequence([Keypoint(0.0, 1.0, 0.0), Keypoint(1.0, 2.0, 0.0)], Number(2.0))
         == [Keypoint(0.0, 2.0, 0.0), Keypoint(1.0, 4.0, 0.0)]
  {
  }
}

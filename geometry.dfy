/** Frustum geometry of one camera (calc_cam_cone_pts_3d): from a camera-to-world
    pose, a field of view and a zoom, the apex of the viewing cone and the four
    corners of its far plane. Arithmetic is over the reals; np.tan and
    np.linalg.norm are inputs (see Numerics). */
module Geometry {

  datatype Vec3 = Vec3(x: real, y: real, z: real)

  function Add(a: Vec3, b: Vec3): Vec3 { Vec3(a.x + b.x, a.y + b.y, a.z + b.z) }

  function Sub(a: Vec3, b: Vec3): Vec3 { Vec3(a.x - b.x, a.y - b.y, a.z - b.z) }

  function Scale(c: real, v: Vec3): Vec3 { Vec3(c * v.x, c * v.y, c * v.z) }

  function Dot(a: Vec3, b: Vec3): real { a.x * b.x + a.y * b.y + a.z * b.z }

  function Abs(r: real): real { if r < 0.0 then -r else r }

  /** A 4x4 camera-to-world matrix, row by row. Its upper-left 3x3 block is the
      rotation, rows 0..2 of column 3 the camera position; row 3 is never read. */
  type Pose = m: seq<seq<real>> | IsPoseMatrix(m) witness IdentityPose

  predicate IsPoseMatrix(m: seq<seq<real>>)
  {
    |m| == 4 && |m[0]| == 4 && |m[1]| == 4 && |m[2]| == 4 && |m[3]| == 4
  }

  const IdentityPose: seq<seq<real>> :=
    [[1.0, 0.0, 0.0, 0.0], [0.0, 1.0, 0.0, 0.0], [0.0, 0.0, 1.0, 0.0], [0.0, 0.0, 0.0, 1.0]]

  /** The camera position (c2w[0, -1], c2w[1, -1], c2w[2, -1]). */
  function Translation(c2w: Pose): Vec3
  {
    Vec3(c2w[0][3], c2w[1][3], c2w[2][3])
  }

  /** np.dot(c2w[:3, :3], v): the rotation block applied to v. */
  function Rotate(c2w: Pose, v: Vec3): Vec3
  {
    Vec3(c2w[0][0] * v.x + c2w[0][1] * v.y + c2w[0][2] * v.z,
         c2w[1][0] * v.x + c2w[1][1] * v.y + c2w[1][2] * v.z,
         c2w[2][0] * v.x + c2w[2][1] * v.y + c2w[2][2] * v.z)
  }

  /** The pose moved by v: its translation column shifted, everything else kept. */
  function TranslatePose(c2w: Pose, v: Vec3): (m: Pose)
    ensures Translation(m) == Add(Translation(c2w), v)
    ensures forall d :: Rotate(m, d) == Rotate(c2w, d)
    ensures m[3] == c2w[3]
  {
    [c2w[0][3 := c2w[0][3] + v.x],
     c2w[1][3 := c2w[1][3] + v.y],
     c2w[2][3 := c2w[2][3] + v.z],
     c2w[3]]
  }

  /** The upper-left 3x3 block is the identity. */
  predicate IsIdentityRotation(c2w: Pose)
  {
    c2w[0][0] == 1.0 && c2w[0][1] == 0.0 && c2w[0][2] == 0.0 &&
    c2w[1][0] == 0.0 && c2w[1][1] == 1.0 && c2w[1][2] == 0.0 &&
    c2w[2][0] == 0.0 && c2w[2][1] == 0.0 && c2w[2][2] == 1.0
  }

  /** The numeric library routines the geometry calls: np.tan and
      np.linalg.norm(v, ord=2). */
  datatype Numerics = Numerics(tan: real -> real, norm: Vec3 -> real)

  /** norm is the Euclidean length: non-negative, and its square is v . v. */
  ghost predicate IsEuclidean(num: Numerics)
  {
    forall v: Vec3 :: num.norm(v) >= 0.0 && num.norm(v) * num.norm(v) == Dot(v, v)
  }

  /** np.pi, written as a decimal. */
  const Pi: real := 3.141592653589793

  /** np.deg2rad. */
  function DegToRad(deg: real): real { deg * (Pi / 180.0) }

  /** tan(fov / 2), with fov converted to radians. */
  function HalfFovTan(num: Numerics, fovDeg: real): real
  {
    num.tan(DegToRad(fovDeg) / 2.0)
  }

  /** Camera-local direction of corner k on the plane z = -1, for t = tan(fov / 2):
      1 top right, 2 top left, 3 bottom left, 4 bottom right. */
  function CornerDir(t: real, k: int): Vec3
    requires 1 <= k <= 4
  {
    if k == 1 then Vec3(t, t, -1.0)
    else if k == 2 then Vec3(-t, t, -1.0)
    else if k == 3 then Vec3(-t, -t, -1.0)
    else Vec3(t, -t, -1.0)
  }

  /** Corner direction k rotated into world space (not yet normalised). */
  function RotatedCorner(c2w: Pose, t: real, k: int): Vec3
    requires 1 <= k <= 4
  {
    Rotate(c2w, CornerDir(t, k))
  }

  /** Every rotated corner direction has a non-zero norm, so the division that
      normalises it is defined. An orthonormal rotation guarantees this. */
  predicate ConeDefined(c2w: Pose, fovDeg: real, num: Numerics)
  {
    forall k :: 1 <= k <= 4 ==> num.norm(RotatedCorner(c2w, HalfFovTan(num, fovDeg), k)) != 0.0
  }

  /** The offset of corner k from the apex: the rotated direction divided by its
      norm, times zoom, in the order the source evaluates it. */
  function CornerOffset(c2w: Pose, t: real, k: int, zoom: real, num: Numerics): Vec3
    requires 1 <= k <= 4
    requires num.norm(RotatedCorner(c2w, t, k)) != 0.0
  {
    var w := RotatedCorner(c2w, t, k);
    var n := num.norm(w);
    Vec3(w.x / n * zoom, w.y / n * zoom, w.z / n * zoom)
  }

  /** calc_cam_cone_pts_3d: the apex followed by the four far-plane corners. */
  function ConePoints(c2w: Pose, fovDeg: real, zoom: real, num: Numerics): (cone: seq<Vec3>)
    requires ConeDefined(c2w, fovDeg, num)
    ensures |cone| == 5
    ensures cone[0] == Translation(c2w)
  {
    var t := HalfFovTan(num, fovDeg);
    var apex := Translation(c2w);
    seq(5, k requires 0 <= k < 5 => if k == 0 then apex else Add(apex, CornerOffset(c2w, t, k, zoom, num)))
  }

  /** Where point k of a cone lies relative to its apex. */
  function Offset(cone: seq<Vec3>, k: nat): Vec3
    requires 0 < |cone| && k < |cone|
  {
    Sub(cone[k], cone[0])
  }

  /** Corner k is the apex plus zoom times the unit vector along the rotated
      local direction d_k. */
  lemma ConeCornerOffset(c2w: Pose, fovDeg: real, zoom: real, num: Numerics, k: nat)
    requires ConeDefined(c2w, fovDeg, num)
    requires 1 <= k <= 4
    ensures var w := RotatedCorner(c2w, HalfFovTan(num, fovDeg), k);
      Offset(ConePoints(c2w, fovDeg, zoom, num), k) == Scale(zoom / num.norm(w), w)
  {
    var t := HalfFovTan(num, fovDeg);
    var w := RotatedCorner(c2w, t, k);
    var cone := ConePoints(c2w, fovDeg, zoom, num);
    assert cone[k] == Add(cone[0], CornerOffset(c2w, t, k, zoom, num));
    NormalisedTimesZoom(w, num.norm(w), zoom);
  }

  lemma NormalisedTimesZoom(w: Vec3, n: real, zoom: real)
    requires n != 0.0
    ensures Vec3(w.x / n * zoom, w.y / n * zoom, w.z / n * zoom) == Scale(zoom / n, w)
  {
    QuotientTimes(w.x, n, zoom);
    QuotientTimes(w.y, n, zoom);
    QuotientTimes(w.z, n, zoom);
  }

  lemma QuotientTimes(a: real, n: real, zoom: real)
    requires n != 0.0
    ensures a / n * zoom == zoom / n * a
  {
  }

  /** Moving the pose by v moves all five points by v; the corner offsets from
      the apex stay the same. */
  lemma ConeTranslationEquivariant(c2w: Pose, v: Vec3, fovDeg: real, zoom: real, num: Numerics)
    requires ConeDefined(c2w, fovDeg, num)
    ensures ConeDefined(TranslatePose(c2w, v), fovDeg, num)
    ensures forall k :: 0 <= k < 5 ==>
      ConePoints(TranslatePose(c2w, v), fovDeg, zoom, num)[k] == Add(ConePoints(c2w, fovDeg, zoom, num)[k], v)
    ensures forall k :: 0 <= k < 5 ==>
      Offset(ConePoints(TranslatePose(c2w, v), fovDeg, zoom, num), k) == Offset(ConePoints(c2w, fovDeg, zoom, num), k)
  {
    var m := TranslatePose(c2w, v);
    var t := HalfFovTan(num, fovDeg);
    forall k | 1 <= k <= 4
      ensures RotatedCorner(m, t, k) == RotatedCorner(c2w, t, k)
    {
      assert Rotate(m, CornerDir(t, k)) == Rotate(c2w, CornerDir(t, k));
    }
  }

  /** Zooming scales every corner offset linearly: going from zoom z1 to z2
      multiplies each offset by z2 / z1, and the apex does not move. */
  lemma ConeZoomLinear(c2w: Pose, fovDeg: real, z1: real, z2: real, num: Numerics)
    requires ConeDefined(c2w, fovDeg, num)
    requires z1 != 0.0
    ensures ConePoints(c2w, fovDeg, z2, num)[0] == ConePoints(c2w, fovDeg, z1, num)[0]
    ensures forall k :: 1 <= k <= 4 ==>
      Offset(ConePoints(c2w, fovDeg, z2, num), k) == Scale(z2 / z1, Offset(ConePoints(c2w, fovDeg, z1, num), k))
  {
    var t := HalfFovTan(num, fovDeg);
    forall k | 1 <= k <= 4
      ensures Offset(ConePoints(c2w, fovDeg, z2, num), k) == Scale(z2 / z1, Offset(ConePoints(c2w, fovDeg, z1, num), k))
    {
      var w := RotatedCorner(c2w, t, k);
      var n := num.norm(w);
      ConeCornerOffset(c2w, fovDeg, z1, num, k);
      ConeCornerOffset(c2w, fovDeg, z2, num, k);
      RatioScale(z1, z2, n, w);
    }
  }

  lemma RatioScale(z1: real, z2: real, n: real, w: Vec3)
    requires z1 != 0.0 && n != 0.0
    ensures Scale(z2 / n, w) == Scale(z2 / z1, Scale(z1 / n, w))
  {
    assert z2 / n == (z2 / z1) * (z1 / n);
  }

  /** For a Euclidean norm, every corner lies at distance |zoom| from the apex. */
  lemma ConeCornerDistance(c2w: Pose, fovDeg: real, zoom: real, num: Numerics)
    requires IsEuclidean(num)
    requires ConeDefined(c2w, fovDeg, num)
    ensures forall k :: 1 <= k <= 4 ==>
      Dot(Offset(ConePoints(c2w, fovDeg, zoom, num), k), Offset(ConePoints(c2w, fovDeg, zoom, num), k)) == zoom * zoom &&
      num.norm(Offset(ConePoints(c2w, fovDeg, zoom, num), k)) == Abs(zoom)
  {
    var t := HalfFovTan(num, fovDeg);
    forall k | 1 <= k <= 4
      ensures Dot(Offset(ConePoints(c2w, fovDeg, zoom, num), k), Offset(ConePoints(c2w, fovDeg, zoom, num), k)) == zoom * zoom
      ensures num.norm(Offset(ConePoints(c2w, fovDeg, zoom, num), k)) == Abs(zoom)
    {
      ConeCornerOffset(c2w, fovDeg, zoom, num, k);
      UnitTimesZoom(RotatedCorner(c2w, t, k), zoom, num);
    }
  }

  /** Dividing a vector by its Euclidean norm and scaling by zoom gives length |zoom|. */
  lemma UnitTimesZoom(w: Vec3, zoom: real, num: Numerics)
    requires IsEuclidean(num)
    requires num.norm(w) != 0.0
    ensures Dot(Scale(zoom / num.norm(w), w), Scale(zoom / num.norm(w), w)) == zoom * zoom
    ensures num.norm(Scale(zoom / num.norm(w), w)) == Abs(zoom)
  {
    var n := num.norm(w);
    var c := zoom / n;
    var u := Scale(c, w);
    assert n * n == Dot(w, w);
    DotScale(c, w);
    assert c * n == zoom;
    calc {
      Dot(u, u);
      c * c * Dot(w, w);
      c * c * (n * n);
      (c * n) * (c * n);
      zoom * zoom;
    }
    assert num.norm(u) >= 0.0 && num.norm(u) * num.norm(u) == Dot(u, u);
    RootUnique(num.norm(u), Abs(zoom));
  }

  lemma DotScale(c: real, w: Vec3)
    ensures Dot(Scale(c, w), Scale(c, w)) == c * c * Dot(w, w)
  {
  }

  /** Non-negative reals with equal squares are equal. */
  lemma RootUnique(a: real, b: real)
    requires a >= 0.0 && b >= 0.0 && a * a == b * b
    ensures a == b
  {
    assert (a - b) * (a + b) == a * a - b * b;
    if a + b != 0.0 {
      assert a - b == 0.0;
    }
  }

  /** The case of a camera with identity rotation and a positive zoom and half-fov
      tangent: all corners lie below the apex (the camera looks along -z), and the
      four offsets are mirror images of each other in x and y, in the order
      top right, top left, bottom left, bottom right. */
  lemma ConeIdentityRotation(c2w: Pose, fovDeg: real, zoom: real, num: Numerics)
    requires IsEuclidean(num)
    requires IsIdentityRotation(c2w)
    requires HalfFovTan(num, fovDeg) > 0.0 && zoom > 0.0
    ensures ConeDefined(c2w, fovDeg, num)
    ensures var cone := ConePoints(c2w, fovDeg, zoom, num);
      (forall k :: 1 <= k <= 4 ==> cone[k].z < cone[0].z) &&
      Offset(cone, 1).x > 0.0 && Offset(cone, 1).y > 0.0 &&
      Offset(cone, 2) == Vec3(-Offset(cone, 1).x, Offset(cone, 1).y, Offset(cone, 1).z) &&
      Offset(cone, 3) == Vec3(-Offset(cone, 1).x, -Offset(cone, 1).y, Offset(cone, 1).z) &&
      Offset(cone, 4) == Vec3(Offset(cone, 1).x, -Offset(cone, 1).y, Offset(cone, 1).z)
  {
    var t := HalfFovTan(num, fovDeg);
    var n := IdentityCorners(c2w, t, num);
    assert ConeDefined(c2w, fovDeg, num);
    var cone := ConePoints(c2w, fovDeg, zoom, num);
    var c := zoom / n;
    forall k | 1 <= k <= 4
      ensures Offset(cone, k) == Scale(c, CornerDir(t, k))
    {
      ConeCornerOffset(c2w, fovDeg, zoom, num, k);
    }
    MirroredCorners(cone, c, t);
  }

  /** Without rotation the corner directions are the unrotated ones, and all four
      have the same non-zero Euclidean norm n. */
  lemma IdentityCorners(c2w: Pose, t: real, num: Numerics) returns (n: real)
    requires IsEuclidean(num)
    requires IsIdentityRotation(c2w)
    ensures n > 0.0
    ensures forall k :: 1 <= k <= 4 ==> RotatedCorner(c2w, t, k) == CornerDir(t, k) && num.norm(CornerDir(t, k)) == n
  {
    var d := Vec3(t, t, -1.0);
    n := num.norm(d);
    assert n >= 0.0 && n * n == Dot(d, d);
    assert Dot(d, d) > 0.0;
    forall k | 1 <= k <= 4
      ensures RotatedCorner(c2w, t, k) == CornerDir(t, k)
      ensures num.norm(CornerDir(t, k)) == n
    {
      var dk := CornerDir(t, k);
      assert Dot(dk, dk) == Dot(d, d);
      assert num.norm(dk) >= 0.0 && num.norm(dk) * num.norm(dk) == Dot(dk, dk);
      RootUnique(num.norm(dk), n);
    }
  }

  /** Offsets that are a positive multiple of the corner directions of a positive
      half-angle tangent lie below the apex and mirror one another. */
  lemma MirroredCorners(cone: seq<Vec3>, c: real, t: real)
    requires |cone| == 5 && c > 0.0 && t > 0.0
    requires forall k :: 1 <= k <= 4 ==> Offset(cone, k) == Scale(c, CornerDir(t, k))
    ensures forall k :: 1 <= k <= 4 ==> cone[k].z < cone[0].z
    ensures Offset(cone, 1).x > 0.0 && Offset(cone, 1).y > 0.0
    ensures Offset(cone, 2) == Vec3(-Offset(cone, 1).x, Offset(cone, 1).y, Offset(cone, 1).z)
    ensures Offset(cone, 3) == Vec3(-Offset(cone, 1).x, -Offset(cone, 1).y, Offset(cone, 1).z)
    ensures Offset(cone, 4) == Vec3(Offset(cone, 1).x, -Offset(cone, 1).y, Offset(cone, 1).z)
  {
    forall k | 1 <= k <= 4
      ensures cone[k].z < cone[0].z
    {
      assert Offset(cone, k).z == cone[k].z - cone[0].z;
      assert Offset(cone, k).z == -c;
    }
    assert c * t > 0.0;
  }
}

/**
  Rigid transforms `p |-> R p + t` over exact reals, as built, composed, inverted and applied
  by the registration viewer. Every operation returns a fresh value, so a transform is a
  datatype.

  Trigonometry is not definable in Dafny's reals: constructors that need it take `sin` and
  `cos` as parameters (angles in radians) together with the value of pi, and properties that
  depend on trigonometry require `IsSinCos(sin, cos)`.
*/
module Transformation {
  import opened Vectors
  import opened Options

  datatype Transform = Transform(rotation: Mat3, translation: Vec3)

  /** `Transformation()` with no arguments. */
  const Identity: Transform := Transform(Identity3, Zero)

  /** Below this axis length the axis-angle constructor falls back to the identity. */
  const AxisEpsilon: real := 0.000001

  /** Sine and cosine: they satisfy the Pythagorean identity and take their values at 0. */
  ghost predicate IsSinCos(sin: real -> real, cos: real -> real) {
    sin(0.0) == 0.0 && cos(0.0) == 1.0 &&
    forall x :: sin(x) * sin(x) + cos(x) * cos(x) == 1.0
  }

  /** `np.radians`. */
  function Radians(degrees: real, pi: real): real { degrees * pi / 180.0 }

  /** `np.cross(np.eye(3), n)`: row i is e_i x n. */
  function CrossRows(n: Vec3): Mat3 {
    Mat3(Cross(Identity3.r0, n), Cross(Identity3.r1, n), Cross(Identity3.r2, n))
  }

  /** The matrix `np.cross(np.eye(3), n)` maps every v to n x v. */
  lemma CrossRowsApply(n: Vec3, v: Vec3)
    ensures MatVec(CrossRows(n), v) == Cross(n, v)
  {
  }

  /** Rodrigues' matrix c I + (1 - c) n n^T + s [n]x. */
  function Rodrigues(c: real, s: real, n: Vec3): Mat3 {
    MatAdd(MatAdd(MatScale(c, Identity3), MatScale(1.0 - c, Outer(n, n))), MatScale(s, CrossRows(n)))
  }

  /**
    `Transformation(angle, axis, translation)`, where `None` stands for an argument left at
    its default. The angle is in degrees.
  */
  function New(angle: Option<real>, axis: Option<Vec3>, translation: Option<Vec3>,
               sqrt: real -> real, sin: real -> real, cos: real -> real, pi: real): (t: Transform)
    ensures angle.None? || axis.None? ==>
              t.rotation == Identity3 && t.translation == translation.GetOr(Zero)
    ensures angle.Some? && axis.Some? && Norm(axis.value, sqrt) <= AxisEpsilon ==> t == Identity
  {
    if angle.Some? && axis.Some? then
      var rad := Radians(angle.value, pi);
      var c, s := cos(rad), sin(rad);
      var len := Norm(axis.value, sqrt);
      if len > AxisEpsilon then
        var n := Scale(1.0 / len, axis.value);
        Transform(Rodrigues(c, s, n), translation.GetOr(Zero))
      else
        Identity
    else
      Transform(Identity3, translation.GetOr(Zero))
  }

  /** The rotation of Rodrigues' formula leaves a unit axis fixed. */
  lemma RodriguesFixesAxis(c: real, s: real, n: Vec3)
    requires Dot(n, n) == 1.0
    ensures MatVec(Rodrigues(c, s, n), n) == n
  {
    var a := MatAdd(MatScale(c, Identity3), MatScale(1.0 - c, Outer(n, n)));
    MatVecMatAdd(a, MatScale(s, CrossRows(n)), n);
    MatVecMatAdd(MatScale(c, Identity3), MatScale(1.0 - c, Outer(n, n)), n);
    MatVecMatScale(c, Identity3, n);
    MatVecMatScale(1.0 - c, Outer(n, n), n);
    MatVecMatScale(s, CrossRows(n), n);
    MatVecIdentity(n);
    MatVecOuter(n, n, n);
    CrossRowsApply(n, n);
    assert Cross(n, n) == Zero;
    assert Scale(1.0, n) == n;
    assert Scale(Dot(n, n), n) == n;
    assert Add(Add(Scale(c, n), Scale(1.0 - c, n)), Scale(s, Zero)) == n;
  }

  /**
    A non-degenerate axis-angle transform rotates about its normalised axis (the axis
    direction is fixed) and keeps the given translation, or zero when none is given.
  */
  lemma NewAxisAngle(angle: real, axis: Vec3, translation: Option<Vec3>,
                     sqrt: real -> real, sin: real -> real, cos: real -> real, pi: real)
    requires IsSqrt(sqrt)
    requires Norm(axis, sqrt) > AxisEpsilon
    ensures var t := New(Some(angle), Some(axis), translation, sqrt, sin, cos, pi);
            var n := Unit(axis, sqrt);
            && t.rotation == Rodrigues(cos(Radians(angle, pi)), sin(Radians(angle, pi)), n)
            && MatVec(t.rotation, n) == n
            && t.translation == translation.GetOr(Zero)
  {
    var n := Unit(axis, sqrt);
    NormZeroIff(axis, sqrt);
    UnitLength(axis, sqrt);
    RodriguesFixesAxis(cos(Radians(angle, pi)), sin(Radians(angle, pi)), n);
  }

  // ---------------------------------------------------------------- small-angle construction

  /** Rotation about the x axis by the angle with sine `s` and cosine `c`. */
  function RotX(s: real, c: real): Mat3 { Mat3(Vec3(1.0, 0.0, 0.0), Vec3(0.0, c, -s), Vec3(0.0, s, c)) }

  function RotY(s: real, c: real): Mat3 { Mat3(Vec3(c, 0.0, s), Vec3(0.0, 1.0, 0.0), Vec3(-s, 0.0, c)) }

  function RotZ(s: real, c: real): Mat3 { Mat3(Vec3(c, -s, 0.0), Vec3(s, c, 0.0), Vec3(0.0, 0.0, 1.0)) }

  /** The rotation listed by `from_angles_and_translation`, from the sines and cosines of the angles. */
  function AnglesMatrix(sa: real, ca: real, sb: real, cb: real, sr: real, cr: real): Mat3 {
    Mat3(
      Vec3(cb * cr, -cb * sr, sb),
      Vec3(sa * sb * cr + ca * sr, -sa * sb * sr + ca * cr, -sa * cb),
      Vec3(-ca * sb * cr + sa * sr, ca * sb * sr + sa * cr, ca * cb))
  }

  /** `Transformation.from_angles_and_translation(angles, translation)`. */
  function FromAngles(angles: Vec3, translation: Vec3, sin: real -> real, cos: real -> real): (t: Transform)
    ensures t.translation == translation
  {
    Transform(AnglesMatrix(sin(angles.x), cos(angles.x), sin(angles.y), cos(angles.y),
                           sin(angles.z), cos(angles.z)),
              translation)
  }

  lemma RotXY(sa: real, ca: real, sb: real, cb: real)
    ensures MatMul(RotX(sa, ca), RotY(sb, cb)) ==
            Mat3(Vec3(cb, 0.0, sb), Vec3(sa * sb, ca, -sa * cb), Vec3(-ca * sb, sa, ca * cb))
  {
    var p := MatMul(RotX(sa, ca), RotY(sb, cb));
    assert p.r0 == Vec3(cb, 0.0, sb);
    assert p.r1 == Vec3(sa * sb, ca, -sa * cb);
    assert p.r2 == Vec3(-ca * sb, sa, ca * cb);
  }

  lemma RotXYThenZ(sa: real, ca: real, sb: real, cb: real, sr: real, cr: real)
    ensures MatMul(Mat3(Vec3(cb, 0.0, sb), Vec3(sa * sb, ca, -sa * cb), Vec3(-ca * sb, sa, ca * cb)),
                   RotZ(sr, cr)) == AnglesMatrix(sa, ca, sb, cb, sr, cr)
  {
    var xy := Mat3(Vec3(cb, 0.0, sb), Vec3(sa * sb, ca, -sa * cb), Vec3(-ca * sb, sa, ca * cb));
    var z := RotZ(sr, cr);
    assert Col0(z) == Vec3(cr, sr, 0.0) && Col1(z) == Vec3(-sr, cr, 0.0) && Col2(z) == Vec3(0.0, 0.0, 1.0);
    var p := MatMul(xy, z);
    assert p.r0 == Vec3(cb * cr, -cb * sr, sb);
    assert p.r1 == Vec3(sa * sb * cr + ca * sr, -sa * sb * sr + ca * cr, -sa * cb);
    assert p.r2 == Vec3(-ca * sb * cr + sa * sr, ca * sb * sr + sa * cr, ca * cb);
  }

  /** The listed matrix is the product Rx(alpha) Ry(beta) Rz(gamma). */
  lemma AnglesMatrixIsProduct(sa: real, ca: real, sb: real, cb: real, sr: real, cr: real)
    ensures AnglesMatrix(sa, ca, sb, cb, sr, cr) == MatMul(MatMul(RotX(sa, ca), RotY(sb, cb)), RotZ(sr, cr))
  {
    RotXY(sa, ca, sb, cb);
    RotXYThenZ(sa, ca, sb, cb, sr, cr);
  }

  /** With all three angles zero the rotation is the identity. */
  lemma FromAnglesZero(translation: Vec3, sin: real -> real, cos: real -> real)
    requires IsSinCos(sin, cos)
    ensures FromAngles(Zero, translation, sin, cos) == Transform(Identity3, translation)
  {
    assert AnglesMatrix(0.0, 1.0, 0.0, 1.0, 0.0, 1.0) == Identity3;
  }

  /** Each elementary rotation has orthonormal columns. */
  lemma ElementaryOrthonormal(s: real, c: real)
    requires s * s + c * c == 1.0
    ensures IsOrthonormal(RotX(s, c)) && IsOrthonormal(RotY(s, c)) && IsOrthonormal(RotZ(s, c))
  {
    var x := MatMul(Transpose(RotX(s, c)), RotX(s, c));
    assert Transpose(RotX(s, c)) == Mat3(Vec3(1.0, 0.0, 0.0), Vec3(0.0, c, s), Vec3(0.0, -s, c));
    assert x.r0 == Vec3(1.0, 0.0, 0.0);
    assert x.r1 == Vec3(0.0, c * c + s * s, c * (-s) + s * c);
    assert x.r2 == Vec3(0.0, -s * c + c * s, s * s + c * c);
    var y := MatMul(Transpose(RotY(s, c)), RotY(s, c));
    assert Transpose(RotY(s, c)) == Mat3(Vec3(c, 0.0, -s), Vec3(0.0, 1.0, 0.0), Vec3(s, 0.0, c));
    assert y.r0 == Vec3(c * c + s * s, 0.0, c * s - s * c);
    assert y.r1 == Vec3(0.0, 1.0, 0.0);
    assert y.r2 == Vec3(s * c - c * s, 0.0, s * s + c * c);
    var z := MatMul(Transpose(RotZ(s, c)), RotZ(s, c));
    assert Transpose(RotZ(s, c)) == Mat3(Vec3(c, s, 0.0), Vec3(-s, c, 0.0), Vec3(0.0, 0.0, 1.0));
    assert z.r0 == Vec3(c * c + s * s, c * (-s) + s * c, 0.0);
    assert z.r1 == Vec3(-s * c + c * s, s * s + c * c, 0.0);
    assert z.r2 == Vec3(0.0, 0.0, 1.0);
  }

  /** The small-angle construction always yields a rotation: R^T R = I. */
  lemma FromAnglesOrthonormal(angles: Vec3, translation: Vec3, sin: real -> real, cos: real -> real)
    requires IsSinCos(sin, cos)
    ensures IsOrthonormal(FromAngles(angles, translation, sin, cos).rotation)
  {
    var sa, ca, sb, cb, sr, cr := sin(angles.x), cos(angles.x), sin(angles.y), cos(angles.y),
                                  sin(angles.z), cos(angles.z);
    assert sa * sa + ca * ca == 1.0 && sb * sb + cb * cb == 1.0 && sr * sr + cr * cr == 1.0;
    AnglesOrthonormal(sa, ca, sb, cb, sr, cr);
  }

  lemma AnglesOrthonormal(sa: real, ca: real, sb: real, cb: real, sr: real, cr: real)
    requires sa * sa + ca * ca == 1.0 && sb * sb + cb * cb == 1.0 && sr * sr + cr * cr == 1.0
    ensures IsOrthonormal(AnglesMatrix(sa, ca, sb, cb, sr, cr))
  {
    var rx, ry, rz := RotX(sa, ca), RotY(sb, cb), RotZ(sr, cr);
    ElementaryOrthonormal(sa, ca);
    ElementaryOrthonormal(sb, cb);
    ElementaryOrthonormal(sr, cr);
    OrthonormalMul(rx, ry);
    OrthonormalMul(MatMul(rx, ry), rz);
    AnglesMatrixIsProduct(sa, ca, sb, cb, sr, cr);
  }

  // ---------------------------------------------------------------- application and algebra

  /** `transform_point(p)`. */
  function TransformPoint(t: Transform, p: Vec3): Vec3 { Add(MatVec(t.rotation, p), t.translation) }

  /** `transform_points(ps)`: the transform applied to each row, in order. */
  function TransformPoints(t: Transform, ps: seq<Vec3>): (r: seq<Vec3>)
    ensures |r| == |ps|
    ensures forall i :: 0 <= i < |ps| ==> r[i] == TransformPoint(t, ps[i])
  {
    seq(|ps|, i requires 0 <= i < |ps| => TransformPoint(t, ps[i]))
  }

  /** `a * b`. */
  function Compose(a: Transform, b: Transform): Transform {
    Transform(MatMul(a.rotation, b.rotation), Add(MatVec(a.rotation, b.translation), a.translation))
  }

  /** `inverse()`. */
  function Inverse(t: Transform): Transform {
    var rt := Transpose(t.rotation);
    Transform(rt, Neg(MatVec(rt, t.translation)))
  }

  /** Applying a product applies its right factor first. */
  lemma ComposeApply(a: Transform, b: Transform, p: Vec3)
    ensures TransformPoint(Compose(a, b), p) == TransformPoint(a, TransformPoint(b, p))
  {
    MatMulVec(a.rotation, b.rotation, p);
    MatVecLinear(a.rotation, MatVec(b.rotation, p), b.translation);
  }

  /** The same for whole point lists. */
  lemma ComposeApplyPoints(a: Transform, b: Transform, ps: seq<Vec3>)
    ensures TransformPoints(Compose(a, b), ps) == TransformPoints(a, TransformPoints(b, ps))
  {
    forall i | 0 <= i < |ps| {
      ComposeApply(a, b, ps[i]);
    }
  }

  lemma ComposeAssoc(a: Transform, b: Transform, c: Transform)
    ensures Compose(Compose(a, b), c) == Compose(a, Compose(b, c))
  {
    MatMulAssoc(a.rotation, b.rotation, c.rotation);
    MatMulVec(a.rotation, b.rotation, c.translation);
    MatVecLinear(a.rotation, MatVec(b.rotation, c.translation), b.translation);
  }

  /** The default transform is a two-sided identity and fixes every point. */
  lemma ComposeIdentity(t: Transform, p: Vec3)
    ensures Compose(Identity, t) == t && Compose(t, Identity) == t
    ensures TransformPoint(Identity, p) == p
  {
    MatMulIdentity(t.rotation);
    MatVecIdentity(t.translation);
    MatVecIdentity(p);
  }

  /** With orthonormal columns the inverse undoes the transform and is a left inverse. */
  lemma InverseLeft(t: Transform, p: Vec3)
    requires IsOrthonormal(t.rotation)
    ensures TransformPoint(Inverse(t), TransformPoint(t, p)) == p
    ensures Compose(Inverse(t), t) == Identity
  {
    var rt := Transpose(t.rotation);
    MatVecLinear(rt, MatVec(t.rotation, p), t.translation);
    MatMulVec(rt, t.rotation, p);
    MatVecIdentity(p);
  }

  /** With orthonormal columns the inverse is also a right inverse: t * t.inverse() is the identity. */
  lemma InverseRight(t: Transform, p: Vec3)
    requires IsOrthonormal(t.rotation)
    ensures Compose(t, Inverse(t)) == Identity
    ensures TransformPoint(t, TransformPoint(Inverse(t), p)) == p
  {
    var r, rt := t.rotation, Transpose(t.rotation);
    OrthonormalRows(r);
    MatMulVec(r, rt, t.translation);
    MatVecIdentity(t.translation);
    assert MatVec(r, Neg(MatVec(rt, t.translation))) == Neg(MatVec(r, MatVec(rt, t.translation))) by {
      MatVecLinear(r, MatVec(rt, t.translation), t.translation);
    }
    ComposeApply(t, Inverse(t), p);
    ComposeIdentity(t, p);
  }

  // ---------------------------------------------------------------- homogeneous matrix

  /** `to_matrix()`: R in the top-left block, t in the last column, (0, 0, 0, 1) below. */
  function ToMatrix(t: Transform): (m: seq<seq<real>>)
    ensures |m| == 4 && forall i :: 0 <= i < 4 ==> |m[i]| == 4
    ensures m[3] == [0.0, 0.0, 0.0, 1.0]
  {
    var r, tr := t.rotation, t.translation;
    [[r.r0.x, r.r0.y, r.r0.z, tr.x],
     [r.r1.x, r.r1.y, r.r1.z, tr.y],
     [r.r2.x, r.r2.y, r.r2.z, tr.z],
     [0.0, 0.0, 0.0, 1.0]]
  }

  /** Product of a 4x4 matrix (as rows) with a 4-vector. */
  function MatVec4(m: seq<seq<real>>, v: seq<real>): (r: seq<real>)
    requires |m| == 4 && |v| == 4 && forall i :: 0 <= i < 4 ==> |m[i]| == 4
    ensures |r| == 4
  {
    seq(4, i requires 0 <= i < 4 => m[i][0] * v[0] + m[i][1] * v[1] + m[i][2] * v[2] + m[i][3] * v[3])
  }

  /** The homogeneous matrix maps (p, 1) to (transform_point(p), 1). */
  lemma ToMatrixApply(t: Transform, p: Vec3)
    ensures var q := TransformPoint(t, p);
            MatVec4(ToMatrix(t), [p.x, p.y, p.z, 1.0]) == [q.x, q.y, q.z, 1.0]
  {
    var m, v, q := ToMatrix(t), [p.x, p.y, p.z, 1.0], TransformPoint(t, p);
    var r := MatVec4(m, v);
    var rot, tr := t.rotation, t.translation;
    assert v[0] == p.x && v[1] == p.y && v[2] == p.z && v[3] == 1.0;
    assert m[0] == [rot.r0.x, rot.r0.y, rot.r0.z, tr.x];
    assert m[1] == [rot.r1.x, rot.r1.y, rot.r1.z, tr.y];
    assert m[2] == [rot.r2.x, rot.r2.y, rot.r2.z, tr.z];
    assert r[0] == rot.r0.x * p.x + rot.r0.y * p.y + rot.r0.z * p.z + tr.x * 1.0;
    assert r[1] == rot.r1.x * p.x + rot.r1.y * p.y + rot.r1.z * p.z + tr.y * 1.0;
    assert r[2] == rot.r2.x * p.x + rot.r2.y * p.y + rot.r2.z * p.z + tr.z * 1.0;
    assert r[3] == 0.0 * p.x + 0.0 * p.y + 0.0 * p.z + 1.0 * 1.0;
    assert q == Vec3(Dot(rot.r0, p) + tr.x, Dot(rot.r1, p) + tr.y, Dot(rot.r2, p) + tr.z);
    assert r[0] == q.x && r[1] == q.y && r[2] == q.z && r[3] == 1.0;
    assert r == [q.x, q.y, q.z, 1.0];
  }
}

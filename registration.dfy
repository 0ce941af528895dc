/**
  The linearised least-squares systems of one ICP step. Unknowns are
  x = (alpha, beta, gamma, tx, ty, tz): a small rotation omega = (alpha, beta, gamma), under
  which p moves to p + omega x p, followed by a translation t.

  Each system is built the way the source builds it: zero-filled arrays `A` (rows x 6) and `b`,
  overwritten row by row for each pair of `zip(src, target[, normals])`, so rows of unmatched
  source points stay zero. The solve `np.linalg.lstsq` is a parameter.
*/
module Registration {
  import opened Vectors
  import opened Transformation
  import opened LeastSquares

  /** Row times unknown vector. */
  function Dot6(row: seq<real>, x: seq<real>): real
    requires |row| == 6 && |x| == 6
  {
    row[0] * x[0] + row[1] * x[1] + row[2] * x[2] + row[3] * x[3] + row[4] * x[4] + row[5] * x[5]
  }

  /** The rotation part of an unknown vector. */
  function Omega(x: seq<real>): Vec3 requires |x| == 6 { Vec3(x[0], x[1], x[2]) }

  /** The translation part of an unknown vector. */
  function Translation(x: seq<real>): Vec3 requires |x| == 6 { Vec3(x[3], x[4], x[5]) }

  // ---------------------------------------------------------------- point to point

  /** The three rows one pair contributes to the point-to-point system. */
  function PointRows(p: Vec3): seq<seq<real>> {
    [[0.0, p.z, -p.y, 1.0, 0.0, 0.0],
     [-p.z, 0.0, p.x, 0.0, 1.0, 0.0],
     [p.y, -p.x, 0.0, 0.0, 0.0, 1.0]]
  }

  /** Their right-hand sides: q - p componentwise. */
  function PointRhs(p: Vec3, q: Vec3): seq<real> { [q.x - p.x, q.y - p.y, q.z - p.z] }

  /** The full A: 3 rows per source point, zero rows for sources without a target. */
  function PointMatrix(src: seq<Vec3>, target: seq<Vec3>): seq<seq<real>> {
    seq(3 * |src|, k requires 0 <= k < 3 * |src| =>
      if k / 3 < |target| then PointRows(src[k / 3])[k % 3] else Zeros(6))
  }

  /** The full b. */
  function PointVector(src: seq<Vec3>, target: seq<Vec3>): seq<real> {
    seq(3 * |src|, k requires 0 <= k < 3 * |src| =>
      if k / 3 < |target| then PointRhs(src[k / 3], target[k / 3])[k % 3] else 0.0)
  }

  /** The three rows applied to x compute omega x p + t. */
  lemma PointRowsApply(p: Vec3, x: seq<real>)
    requires |x| == 6
    ensures var v := Add(Cross(Omega(x), p), Translation(x));
            Dot6(PointRows(p)[0], x) == v.x && Dot6(PointRows(p)[1], x) == v.y &&
            Dot6(PointRows(p)[2], x) == v.z
  {
  }

  /** A pair's three equations hold exactly when the small motion takes p to q. */
  lemma PointRowsExact(p: Vec3, q: Vec3, x: seq<real>)
    requires |x| == 6
    ensures (Dot6(PointRows(p)[0], x) == PointRhs(p, q)[0] && Dot6(PointRows(p)[1], x) == PointRhs(p, q)[1] &&
             Dot6(PointRows(p)[2], x) == PointRhs(p, q)[2]) <==>
            Add(Add(p, Cross(Omega(x), p)), Translation(x)) == q
  {
    PointRowsApply(p, x);
    var rows, rhs := PointRows(p), PointRhs(p, q);
    if Add(Add(p, Cross(Omega(x), p)), Translation(x)) == q {
      forall r | 0 <= r < 3 ensures Dot6(rows[r], x) == rhs[r] {
      }
    }
  }

  /** Row k of the whole system belongs to pair k / 3 when that pair exists and is zero otherwise. */
  lemma PointMatrixRow(src: seq<Vec3>, target: seq<Vec3>, k: nat, x: seq<real>)
    requires k < 3 * |src| && |x| == 6
    ensures |PointMatrix(src, target)| == |PointVector(src, target)| == 3 * |src|
    ensures k / 3 < |target| ==>
              PointMatrix(src, target)[k] == PointRows(src[k / 3])[k % 3] &&
              PointVector(src, target)[k] == PointRhs(src[k / 3], target[k / 3])[k % 3]
    ensures |target| <= k / 3 ==>
              Dot6(PointMatrix(src, target)[k], x) == 0.0 == PointVector(src, target)[k]
  {
  }

  /**
    The whole system holds exactly for x when the small motion takes every matched source
    point onto its target; unmatched sources impose nothing.
  */
  lemma {:induction false} PointSystemExact(src: seq<Vec3>, target: seq<Vec3>, x: seq<real>)
    requires |x| == 6
    ensures (forall k :: 0 <= k < 3 * |src| ==>
               Dot6(PointMatrix(src, target)[k], x) == PointVector(src, target)[k]) <==>
            (forall i :: 0 <= i < |src| && i < |target| ==>
               Add(Add(src[i], Cross(Omega(x), src[i])), Translation(x)) == target[i])
  {
    var a, b := PointMatrix(src, target), PointVector(src, target);
    if forall k :: 0 <= k < 3 * |src| ==> Dot6(a[k], x) == b[k] {
      forall i | 0 <= i < |src| && i < |target|
        ensures Add(Add(src[i], Cross(Omega(x), src[i])), Translation(x)) == target[i]
      {
        PointPairExact(src, target, i, x);
        assert Dot6(a[3 * i], x) == b[3 * i];
        assert Dot6(a[3 * i + 1], x) == b[3 * i + 1];
        assert Dot6(a[3 * i + 2], x) == b[3 * i + 2];
      }
    }
    if forall i :: 0 <= i < |src| && i < |target| ==>
         Add(Add(src[i], Cross(Omega(x), src[i])), Translation(x)) == target[i] {
      forall k | 0 <= k < 3 * |src| ensures Dot6(a[k], x) == b[k] {
        PointMatrixRow(src, target, k, x);
        var i := k / 3;
        if i < |target| {
          PointRowsExact(src[i], target[i], x);
        }
      }
    }
  }

  /** The three equations of pair i hold exactly when the small motion takes its source onto its target. */
  lemma PointPairExact(src: seq<Vec3>, target: seq<Vec3>, i: nat, x: seq<real>)
    requires i < |src| && i < |target| && |x| == 6
    ensures |PointMatrix(src, target)| == |PointVector(src, target)| == 3 * |src|
    ensures var a, b := PointMatrix(src, target), PointVector(src, target);
            (Dot6(a[3 * i], x) == b[3 * i] && Dot6(a[3 * i + 1], x) == b[3 * i + 1] &&
             Dot6(a[3 * i + 2], x) == b[3 * i + 2]) <==>
            Add(Add(src[i], Cross(Omega(x), src[i])), Translation(x)) == target[i]
  {
    var a, b := PointMatrix(src, target), PointVector(src, target);
    var rows, rhs := PointRows(src[i]), PointRhs(src[i], target[i]);
    PointPairRows(src, target, i, x);
    assert a[3 * i] == rows[0] && a[3 * i + 1] == rows[1] && a[3 * i + 2] == rows[2];
    assert b[3 * i] == rhs[0] && b[3 * i + 1] == rhs[1] && b[3 * i + 2] == rhs[2];
    PointRowsExact(src[i], target[i], x);
  }

  /** Rows 3i..3i+2 of the whole system are those of pair i. */
  lemma PointPairRows(src: seq<Vec3>, target: seq<Vec3>, i: nat, x: seq<real>)
    requires i < |src| && i < |target| && |x| == 6
    ensures forall r :: 0 <= r < 3 ==>
              PointMatrix(src, target)[3 * i + r] == PointRows(src[i])[r] &&
              PointVector(src, target)[3 * i + r] == PointRhs(src[i], target[i])[r]
  {
    forall r | 0 <= r < 3
      ensures PointMatrix(src, target)[3 * i + r] == PointRows(src[i])[r] &&
              PointVector(src, target)[3 * i + r] == PointRhs(src[i], target[i])[r]
    {
      assert (3 * i + r) / 3 == i && (3 * i + r) % 3 == r;
    }
  }

  /** Registering points that already coincide with their targets: b is zero. */
  lemma PointVectorOfSelf(ps: seq<Vec3>)
    ensures PointVector(ps, ps) == Zeros(3 * |ps|)
  {
  }

  // ---------------------------------------------------------------- point to surface

  /** The single row a pair with target normal n contributes: [p x n, n]. */
  function SurfaceRow(p: Vec3, n: Vec3): seq<real> {
    [n.z * p.y - n.y * p.z, n.x * p.z - n.z * p.x, n.y * p.x - n.x * p.y, n.x, n.y, n.z]
  }

  /** Its right-hand side n . (q - p). */
  function SurfaceRhs(p: Vec3, q: Vec3, n: Vec3): real {
    n.x * (q.x - p.x) + n.y * (q.y - p.y) + n.z * (q.z - p.z)
  }

  /** The full A: one row per source point, zero rows for sources without a target or normal. */
  function SurfaceMatrix(src: seq<Vec3>, target: seq<Vec3>, normals: seq<Vec3>): seq<seq<real>> {
    seq(|src|, i requires 0 <= i < |src| =>
      if i < |target| && i < |normals| then SurfaceRow(src[i], normals[i]) else Zeros(6))
  }

  /** The full b. */
  function SurfaceVector(src: seq<Vec3>, target: seq<Vec3>, normals: seq<Vec3>): seq<real> {
    seq(|src|, i requires 0 <= i < |src| =>
      if i < |target| && i < |normals| then SurfaceRhs(src[i], target[i], normals[i]) else 0.0)
  }

  /** The row is [p x n, n] and its right-hand side is the residual q - p projected on n. */
  lemma SurfaceRowMeaning(p: Vec3, q: Vec3, n: Vec3)
    ensures var c := Cross(p, n);
            SurfaceRow(p, n) == [c.x, c.y, c.z, n.x, n.y, n.z]
    ensures SurfaceRhs(p, q, n) == Dot(n, Sub(q, p))
  {
  }

  /** A point-to-surface equation is the normal-weighted sum of the three point-to-point ones. */
  lemma SurfaceRowIsCombination(p: Vec3, q: Vec3, n: Vec3)
    ensures forall j :: 0 <= j < 6 ==>
              SurfaceRow(p, n)[j] ==
              n.x * PointRows(p)[0][j] + n.y * PointRows(p)[1][j] + n.z * PointRows(p)[2][j]
    ensures SurfaceRhs(p, q, n) ==
            n.x * PointRhs(p, q)[0] + n.y * PointRhs(p, q)[1] + n.z * PointRhs(p, q)[2]
  {
    var row, rows := SurfaceRow(p, n), PointRows(p);
    assert rows[0] == [0.0, p.z, -p.y, 1.0, 0.0, 0.0];
    assert rows[1] == [-p.z, 0.0, p.x, 0.0, 1.0, 0.0];
    assert rows[2] == [p.y, -p.x, 0.0, 0.0, 0.0, 1.0];
  }

  /** The row applied to x is n . (omega x p + t). */
  lemma SurfaceRowApply(p: Vec3, n: Vec3, x: seq<real>)
    requires |x| == 6
    ensures Dot6(SurfaceRow(p, n), x) == Dot(n, Add(Cross(Omega(x), p), Translation(x)))
  {
  }

  /** The equation holds exactly when the small motion ends on the tangent plane at q. */
  lemma SurfaceRowExact(p: Vec3, q: Vec3, n: Vec3, x: seq<real>)
    requires |x| == 6
    ensures Dot6(SurfaceRow(p, n), x) == SurfaceRhs(p, q, n) <==>
            Dot(n, Sub(Add(Add(p, Cross(Omega(x), p)), Translation(x)), q)) == 0.0
  {
    var w := Add(Cross(Omega(x), p), Translation(x));
    SurfaceRowApply(p, n, x);
    assert Add(Add(p, Cross(Omega(x), p)), Translation(x)) == Add(p, w);
    DotSplit(n, p, w, q);
  }

  /** n . ((p + w) - q) splits into n . w minus n . (q - p). */
  lemma DotSplit(n: Vec3, p: Vec3, w: Vec3, q: Vec3)
    ensures Dot(n, Sub(Add(p, w), q)) == Dot(n, w) - SurfaceRhs(p, q, n)
  {
  }

  /** Points already on their targets give a zero right-hand side. */
  lemma SurfaceVectorOfSelf(ps: seq<Vec3>, normals: seq<Vec3>)
    ensures SurfaceVector(ps, ps, normals) == Zeros(|ps|)
  {
  }

  // ---------------------------------------------------------------- building the systems

  /** The first `rows` rows of `a` hold those of `m`; the rest are still zero. */
  ghost predicate FilledUpTo(a: array2<real>, m: seq<seq<real>>, rows: nat)
    reads a
  {
    |m| == a.Length0 && rows <= a.Length0 && (forall k :: 0 <= k < |m| ==> |m[k]| == a.Length1) &&
    forall k, j :: 0 <= k < a.Length0 && 0 <= j < a.Length1 ==> a[k, j] == if k < rows then m[k][j] else 0.0
  }

  /** The first `count` entries of `b` hold those of `v`; the rest are still zero. */
  ghost predicate FilledVecUpTo(b: array<real>, v: seq<real>, count: nat)
    reads b
  {
    |v| == b.Length && count <= b.Length &&
    forall k :: 0 <= k < b.Length ==> b[k] == if k < count then v[k] else 0.0
  }

  /** `A[r, :] = row`, writing the next row of the intended matrix `m`. */
  method SetRow(a: array2<real>, r: nat, row: seq<real>, ghost m: seq<seq<real>>)
    requires FilledUpTo(a, m, r) && r < a.Length0 && row == m[r]
    modifies a
    ensures FilledUpTo(a, m, r + 1)
  {
    for j := 0 to a.Length1
      invariant forall i, k :: 0 <= i < a.Length0 && 0 <= k < a.Length1 ==>
                  a[i, k] == if i < r || (i == r && k < j) then m[i][k] else 0.0
    {
      a[r, j] := row[j];
    }
  }

  /** `b[r] = value`, writing the next entry of the intended vector `v`. */
  method SetEntry(b: array<real>, r: nat, value: real, ghost v: seq<real>)
    requires FilledVecUpTo(b, v, r) && r < b.Length && value == v[r]
    modifies b
    ensures FilledVecUpTo(b, v, r + 1)
  {
    b[r] := value;
  }

  /** Once every matched row is written, the arrays hold the whole system. */
  lemma FilledAll(a: array2<real>, m: seq<seq<real>>, b: array<real>, v: seq<real>, rows: nat)
    requires FilledUpTo(a, m, rows) && FilledVecUpTo(b, v, rows) && |m| == |v|
    requires forall k :: rows <= k < |m| ==> m[k] == Zeros(a.Length1) && v[k] == 0.0
    ensures forall k, j :: 0 <= k < a.Length0 && 0 <= j < a.Length1 ==> a[k, j] == m[k][j]
    ensures b[..] == v
  {
    assert forall k :: 0 <= k < b.Length ==> b[..][k] == v[k];
  }

  /** Rows base..base+2 of the point-to-point system and their right-hand sides, for the pair (p, q). */
  method SetPointRows(a: array2<real>, b: array<real>, base: nat, p: Vec3, q: Vec3,
                      ghost m: seq<seq<real>>, ghost v: seq<real>)
    requires FilledUpTo(a, m, base) && FilledVecUpTo(b, v, base) && base + 3 <= a.Length0 == b.Length
    requires m[base] == PointRows(p)[0] && m[base + 1] == PointRows(p)[1] && m[base + 2] == PointRows(p)[2]
    requires v[base] == PointRhs(p, q)[0] && v[base + 1] == PointRhs(p, q)[1] && v[base + 2] == PointRhs(p, q)[2]
    modifies a, b
    ensures FilledUpTo(a, m, base + 3) && FilledVecUpTo(b, v, base + 3)
  {
    SetRow(a, base, [0.0, p.z, -p.y, 1.0, 0.0, 0.0], m);
    SetEntry(b, base, q.x - p.x, v);
    SetRow(a, base + 1, [-p.z, 0.0, p.x, 0.0, 1.0, 0.0], m);
    SetEntry(b, base + 1, q.y - p.y, v);
    SetRow(a, base + 2, [p.y, -p.x, 0.0, 0.0, 0.0, 1.0], m);
    SetEntry(b, base + 2, q.z - p.z, v);
  }

  /** The system-building half of `register_point2point`. */
  method PointSystem(src: seq<Vec3>, target: seq<Vec3>) returns (a: array2<real>, b: array<real>)
    ensures a.Length0 == 3 * |src| && a.Length1 == 6 && b.Length == 3 * |src|
    ensures forall k, j :: 0 <= k < 3 * |src| && 0 <= j < 6 ==> a[k, j] == PointMatrix(src, target)[k][j]
    ensures b[..] == PointVector(src, target)
  {
    var n := |src|;
    a := new real[3 * n, 6]((_, _) => 0.0);
    b := new real[3 * n](_ => 0.0);
    ghost var m, v := PointMatrix(src, target), PointVector(src, target);
    var count := if n < |target| then n else |target|;
    for i := 0 to count
      invariant FilledUpTo(a, m, 3 * i) && FilledVecUpTo(b, v, 3 * i)
    {
      var p, q := src[i], target[i];
      var base := 3 * i;
      assert base / 3 == i && (base + 1) / 3 == i && (base + 2) / 3 == i;
      assert base % 3 == 0 && (base + 1) % 3 == 1 && (base + 2) % 3 == 2;
      PointMatrixRow(src, target, base, Zeros(6));
      PointMatrixRow(src, target, base + 1, Zeros(6));
      PointMatrixRow(src, target, base + 2, Zeros(6));
      SetPointRows(a, b, base, p, q, m, v);
    }
    forall k | 3 * count <= k < 3 * n ensures m[k] == Zeros(6) && v[k] == 0.0 {
      PointMatrixRow(src, target, k, Zeros(6));
    }
    FilledAll(a, m, b, v, 3 * count);
    assert forall k, j :: 0 <= k < 3 * n && 0 <= j < 6 ==> a[k, j] == m[k][j];
  }

  /** The system-building half of `register_point2surface`. */
  method SurfaceSystem(src: seq<Vec3>, target: seq<Vec3>, normals: seq<Vec3>)
    returns (a: array2<real>, b: array<real>)
    ensures a.Length0 == |src| && a.Length1 == 6 && b.Length == |src|
    ensures forall i, j :: 0 <= i < |src| && 0 <= j < 6 ==>
              a[i, j] == SurfaceMatrix(src, target, normals)[i][j]
    ensures b[..] == SurfaceVector(src, target, normals)
  {
    var n := |src|;
    a := new real[n, 6]((_, _) => 0.0);
    b := new real[n](_ => 0.0);
    ghost var m, v := SurfaceMatrix(src, target, normals), SurfaceVector(src, target, normals);
    var count := if n < |target| then n else |target|;
    count := if count < |normals| then count else |normals|;
    for i := 0 to count
      invariant FilledUpTo(a, m, i) && FilledVecUpTo(b, v, i)
    {
      var p, q, nv := src[i], target[i], normals[i];
      assert m[i] == SurfaceRow(p, nv) && v[i] == SurfaceRhs(p, q, nv);
      SetRow(a, i, [nv.z * p.y - nv.y * p.z, nv.x * p.z - nv.z * p.x, nv.y * p.x - nv.x * p.y,
                    nv.x, nv.y, nv.z], m);
      SetEntry(b, i, nv.x * (q.x - p.x) + nv.y * (q.y - p.y) + nv.z * (q.z - p.z), v);
    }
    FilledAll(a, m, b, v, count);
    assert forall k, j :: 0 <= k < n && 0 <= j < 6 ==> a[k, j] == m[k][j];
  }

  /** The rows of a filled matrix, as the sequence handed to the solver. */
  function Rows(a: array2<real>): (r: seq<seq<real>>)
    reads a
    ensures |r| == a.Length0
    ensures forall i, j :: 0 <= i < a.Length0 && 0 <= j < a.Length1 ==> |r[i]| == a.Length1 && r[i][j] == a[i, j]
  {
    seq(a.Length0, i requires 0 <= i < a.Length0 reads a =>
      seq(a.Length1, j requires 0 <= j < a.Length1 reads a => a[i, j]))
  }

  /** The rows of an array that holds m are m. */
  lemma RowsOf(a: array2<real>, m: seq<seq<real>>)
    requires |m| == a.Length0 && forall k :: 0 <= k < |m| ==> |m[k]| == a.Length1
    requires forall k, j :: 0 <= k < a.Length0 && 0 <= j < a.Length1 ==> a[k, j] == m[k][j]
    ensures Rows(a) == m
  {
    var r := Rows(a);
    forall k | 0 <= k < |m| ensures r[k] == m[k] {
      assert |r[k]| == |m[k]|;
    }
  }

  // ---------------------------------------------------------------- solving

  /** Packing of a solution: entries 0..2 are the angles, entries 3..5 the translation. */
  function FromSolution(x: seq<real>, sin: real -> real, cos: real -> real): Transform
    requires |x| == 6
  {
    FromAngles(Omega(x), Translation(x), sin, cos)
  }

  /** What `register_point2point` returns. */
  function PointRegistration(src: seq<Vec3>, target: seq<Vec3>,
                             lstsq: (nat, seq<seq<real>>, seq<real>) -> seq<real>,
                             sin: real -> real, cos: real -> real): Transform
    requires IsLstsq(lstsq)
  {
    FromSolution(lstsq(6, PointMatrix(src, target), PointVector(src, target)), sin, cos)
  }

  /** What `register_point2surface` returns. */
  function SurfaceRegistration(src: seq<Vec3>, target: seq<Vec3>, normals: seq<Vec3>,
                               lstsq: (nat, seq<seq<real>>, seq<real>) -> seq<real>,
                               sin: real -> real, cos: real -> real): Transform
    requires IsLstsq(lstsq)
  {
    FromSolution(lstsq(6, SurfaceMatrix(src, target, normals), SurfaceVector(src, target, normals)), sin, cos)
  }

  /** The solution's angles and translation become the returned transform. */
  lemma FromSolutionPacking(x: seq<real>, sin: real -> real, cos: real -> real)
    requires |x| == 6
    ensures FromSolution(x, sin, cos).translation == Vec3(x[3], x[4], x[5])
    ensures FromSolution(x, sin, cos).rotation ==
            AnglesMatrix(sin(x[0]), cos(x[0]), sin(x[1]), cos(x[1]), sin(x[2]), cos(x[2]))
  {
  }

  /** Registering a cloud against itself returns the identity, with either system. */
  lemma {:induction false} RegistrationOfSelf(ps: seq<Vec3>, normals: seq<Vec3>,
                                              lstsq: (nat, seq<seq<real>>, seq<real>) -> seq<real>,
                                              sin: real -> real, cos: real -> real)
    requires IsLstsq(lstsq) && IsSinCos(sin, cos)
    ensures PointRegistration(ps, ps, lstsq, sin, cos) == Identity
    ensures SurfaceRegistration(ps, ps, normals, lstsq, sin, cos) == Identity
  {
    PointVectorOfSelf(ps);
    SurfaceVectorOfSelf(ps, normals);
    assert lstsq(6, PointMatrix(ps, ps), Zeros(3 * |ps|)) == Zeros(6);
    assert lstsq(6, SurfaceMatrix(ps, ps, normals), Zeros(|ps|)) == Zeros(6);
    assert Omega(Zeros(6)) == Zero && Translation(Zeros(6)) == Zero;
    FromAnglesZero(Zero, sin, cos);
  }

  /** `register_point2point(src, target)`. */
  method RegisterPointToPoint(src: seq<Vec3>, target: seq<Vec3>,
                              lstsq: (nat, seq<seq<real>>, seq<real>) -> seq<real>,
                              sin: real -> real, cos: real -> real) returns (t: Transform)
    requires IsLstsq(lstsq)
    ensures t == PointRegistration(src, target, lstsq, sin, cos)
  {
    var a, b := PointSystem(src, target);
    var rows := Rows(a);
    RowsOf(a, PointMatrix(src, target));
    var x := lstsq(6, rows, b[..]);
    t := FromAngles(Vec3(x[0], x[1], x[2]), Vec3(x[3], x[4], x[5]), sin, cos);
  }

  /** `register_point2surface(src, target, target_normals)`. */
  method RegisterPointToSurface(src: seq<Vec3>, target: seq<Vec3>, normals: seq<Vec3>,
                                lstsq: (nat, seq<seq<real>>, seq<real>) -> seq<real>,
                                sin: real -> real, cos: real -> real) returns (t: Transform)
    requires IsLstsq(lstsq)
    ensures t == SurfaceRegistration(src, target, normals, lstsq, sin, cos)
  {
    var a, b := SurfaceSystem(src, target, normals);
    var rows := Rows(a);
    RowsOf(a, SurfaceMatrix(src, target, normals));
    var x := lstsq(6, rows, b[..]);
    t := FromAngles(Vec3(x[0], x[1], x[2]), Vec3(x[3], x[4], x[5]), sin, cos);
  }
}

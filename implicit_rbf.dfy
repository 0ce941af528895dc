/**
  The radial-basis-function implicit surface with the triharmonic kernel phi(r) = r^3. From N
  oriented samples it builds 3N constraints: f(p) = 0 at each sample, f(p + eps n) = eps and
  f(p - eps n) = -eps, where eps is one hundredth of the bounding-box diagonal. It fits one
  weight per sample, the samples being the centres, and evaluates
  f(x) = sum_j w_j |x - c_j|^3. The least-squares solve is a parameter.
*/
module ImplicitRbf {
  import opened Vectors
  import opened Options
  import opened LeastSquares

  /** Fraction of the bounding-box diagonal used as the off-surface offset. */
  const OffsetFraction: real := 0.01

  /** The fitted function: one weight per centre. */
  datatype Rbf = Rbf(weights: seq<real>, centres: seq<Vec3>)

  // ---------------------------------------------------------------- bounding box

  /** The smallest value of a non-empty list. */
  function MinOf(xs: seq<real>): (m: real)
    requires |xs| > 0
    decreases |xs|
  {
    if |xs| == 1 then xs[0]
    else
      var prev := MinOf(xs[..|xs| - 1]);
      if xs[|xs| - 1] < prev then xs[|xs| - 1] else prev
  }

  /** The largest value of a non-empty list. */
  function MaxOf(xs: seq<real>): (m: real)
    requires |xs| > 0
    decreases |xs|
  {
    if |xs| == 1 then xs[0]
    else
      var prev := MaxOf(xs[..|xs| - 1]);
      if prev < xs[|xs| - 1] then xs[|xs| - 1] else prev
  }

  /** MinOf is a member of the list and no larger than any member. */
  lemma {:induction false} MinOfIsLeast(xs: seq<real>)
    requires |xs| > 0
    ensures MinOf(xs) in xs
    ensures forall k :: 0 <= k < |xs| ==> MinOf(xs) <= xs[k]
    decreases |xs|
  {
    if |xs| > 1 {
      var init := xs[..|xs| - 1];
      MinOfIsLeast(init);
      assert forall k :: 0 <= k < |init| ==> init[k] == xs[k];
    }
  }

  /** MaxOf is a member of the list and no smaller than any member. */
  lemma {:induction false} MaxOfIsGreatest(xs: seq<real>)
    requires |xs| > 0
    ensures MaxOf(xs) in xs
    ensures forall k :: 0 <= k < |xs| ==> xs[k] <= MaxOf(xs)
    decreases |xs|
  {
    if |xs| > 1 {
      var init := xs[..|xs| - 1];
      MaxOfIsGreatest(init);
      assert forall k :: 0 <= k < |init| ==> init[k] == xs[k];
    }
  }

  /** Coordinate `axis` of every point. */
  function Column(points: seq<Vec3>, axis: nat): (c: seq<real>)
    requires axis < 3
    ensures |c| == |points|
  {
    seq(|points|, k requires 0 <= k < |points| => At(points[k], axis))
  }

  /** `np.min(points, axis=0)`. */
  function MinCorner(points: seq<Vec3>): Vec3
    requires |points| > 0
  {
    Vec3(MinOf(Column(points, 0)), MinOf(Column(points, 1)), MinOf(Column(points, 2)))
  }

  /** `np.max(points, axis=0)`. */
  function MaxCorner(points: seq<Vec3>): Vec3
    requires |points| > 0
  {
    Vec3(MaxOf(Column(points, 0)), MaxOf(Column(points, 1)), MaxOf(Column(points, 2)))
  }

  /** Every sample lies in the box spanned by the two corners. */
  lemma CornersBound(points: seq<Vec3>, k: nat)
    requires k < |points|
    ensures var lo, hi, p := MinCorner(points), MaxCorner(points), points[k];
            lo.x <= p.x <= hi.x && lo.y <= p.y <= hi.y && lo.z <= p.z <= hi.z
  {
    var xs, ys, zs := Column(points, 0), Column(points, 1), Column(points, 2);
    MinOfIsLeast(xs);
    MinOfIsLeast(ys);
    MinOfIsLeast(zs);
    MaxOfIsGreatest(xs);
    MaxOfIsGreatest(ys);
    MaxOfIsGreatest(zs);
    assert xs[k] == points[k].x && ys[k] == points[k].y && zs[k] == points[k].z;
  }

  /** `epsilon`: one hundredth of the bounding-box diagonal. */
  function Epsilon(points: seq<Vec3>, sqrt: real -> real): real
    requires |points| > 0
  {
    OffsetFraction * Norm(Sub(MaxCorner(points), MinCorner(points)), sqrt)
  }

  /** The offset is never negative, and it is zero exactly when all samples coincide. */
  lemma EpsilonNonNegative(points: seq<Vec3>, sqrt: real -> real)
    requires IsSqrt(sqrt) && |points| > 0
    ensures 0.0 <= Epsilon(points, sqrt)
    ensures Epsilon(points, sqrt) == 0.0 <==> MaxCorner(points) == MinCorner(points)
  {
    var lo, hi := MinCorner(points), MaxCorner(points);
    NormNonNegative(Sub(hi, lo), sqrt);
    DistZeroIff(hi, lo, sqrt);
  }

  // ---------------------------------------------------------------- constraints

  /** `points + epsilon * normals`. */
  function Raised(points: seq<Vec3>, normals: seq<Vec3>, eps: real): (r: seq<Vec3>)
    requires |normals| == |points|
    ensures |r| == |points|
  {
    seq(|points|, i requires 0 <= i < |points| => Add(points[i], Scale(eps, normals[i])))
  }

  /** `points - epsilon * normals`. */
  function Lowered(points: seq<Vec3>, normals: seq<Vec3>, eps: real): (r: seq<Vec3>)
    requires |normals| == |points|
    ensures |r| == |points|
  {
    seq(|points|, i requires 0 <= i < |points| => Sub(points[i], Scale(eps, normals[i])))
  }

  /** `X = np.vstack((pts_on, pts_pos, pts_neg))`. */
  function ConstraintPoints(points: seq<Vec3>, normals: seq<Vec3>, eps: real): (xs: seq<Vec3>)
    requires |normals| == |points|
    ensures |xs| == 3 * |points|
  {
    points + Raised(points, normals, eps) + Lowered(points, normals, eps)
  }

  /** n copies of v. */
  function Constant(n: nat, v: real): (r: seq<real>)
    ensures |r| == n
  {
    seq(n, _ => v)
  }

  /** `d`: N zeros, N copies of +eps and N copies of -eps. */
  function Targets(n: nat, eps: real): (d: seq<real>)
    ensures |d| == 3 * n
  {
    Zeros(n) + Constant(n, eps) + Constant(n, -eps)
  }

  /**
    The constraint rows come in three blocks of N, in the order on-surface, raised, lowered,
    and each row's target is 0, +eps or -eps according to its block.
  */
  lemma ConstraintLayout(points: seq<Vec3>, normals: seq<Vec3>, eps: real, i: nat)
    requires |normals| == |points| && i < |points|
    ensures var x, d, n := ConstraintPoints(points, normals, eps), Targets(|points|, eps), |points|;
            |x| == |d| == 3 * n &&
            x[i] == points[i] && d[i] == 0.0 &&
            x[n + i] == Add(points[i], Scale(eps, normals[i])) && d[n + i] == eps &&
            x[2 * n + i] == Sub(points[i], Scale(eps, normals[i])) && d[2 * n + i] == -eps
  {
  }

  /** A raised and a lowered constraint are eps |n| from their sample, on either side along n. */
  lemma OffsetConstraints(p: Vec3, n: Vec3, eps: real)
    ensures Sub(Add(p, Scale(eps, n)), p) == Scale(eps, n)
    ensures Sub(Sub(p, Scale(eps, n)), p) == Scale(-eps, n)
  {
  }

  // ---------------------------------------------------------------- kernel matrix

  /** The triharmonic kernel. */
  function Cube(r: real): real { r * r * r }

  /** The kernel is non-negative on distances, and zero only at distance zero. */
  lemma CubeSign(r: real)
    requires 0.0 <= r
    ensures 0.0 <= Cube(r)
    ensures Cube(r) == 0.0 <==> r == 0.0
  {
    var s := r * r;
    SquareSign(r, s);
    ProductNonNegative(s, r, s * r);
    if r != 0.0 {
      ProductPositive(s, r, s * r);
    }
  }

  /** Kernel responses of x to every centre: one row of M. */
  function KernelRow(x: Vec3, centres: seq<Vec3>, sqrt: real -> real): (row: seq<real>)
    ensures |row| == |centres|
  {
    seq(|centres|, j requires 0 <= j < |centres| => Cube(Dist(x, centres[j], sqrt)))
  }

  /** `M = r ** 3`: one row per constraint point and one column per centre. */
  function KernelMatrix(xs: seq<Vec3>, centres: seq<Vec3>, sqrt: real -> real): (m: seq<seq<real>>)
    ensures |m| == |xs| && forall i :: 0 <= i < |xs| ==> |m[i]| == |centres|
  {
    seq(|xs|, i requires 0 <= i < |xs| => KernelRow(xs[i], centres, sqrt))
  }

  /**
    Every entry of M is the cubed distance from a constraint point to a centre: it is
    non-negative, and zero exactly when the point is the centre.
  */
  lemma KernelEntries(xs: seq<Vec3>, centres: seq<Vec3>, sqrt: real -> real, i: nat, j: nat)
    requires IsSqrt(sqrt) && i < |xs| && j < |centres|
    ensures var m := KernelMatrix(xs, centres, sqrt);
            m[i][j] == Cube(Dist(xs[i], centres[j], sqrt)) && 0.0 <= m[i][j]
    ensures KernelMatrix(xs, centres, sqrt)[i][j] == 0.0 <==> xs[i] == centres[j]
  {
    DistNonNegative(xs[i], centres[j], sqrt);
    CubeSign(Dist(xs[i], centres[j], sqrt));
    DistZeroIff(xs[i], centres[j], sqrt);
  }

  /** In the on-surface block, the entry pairing sample j with itself is zero. */
  lemma KernelDiagonal(points: seq<Vec3>, normals: seq<Vec3>, eps: real, sqrt: real -> real, j: nat)
    requires IsSqrt(sqrt) && |normals| == |points| && j < |points|
    ensures KernelMatrix(ConstraintPoints(points, normals, eps), points, sqrt)[j][j] == 0.0
  {
    var xs := ConstraintPoints(points, normals, eps);
    var m := KernelMatrix(xs, points, sqrt);
    assert xs[j] == points[j];
    var r := Dist(points[j], points[j], sqrt);
    assert m[j][j] == Cube(r);
    DistSelf(points[j], sqrt);
    CubeSign(r);
  }

  // ---------------------------------------------------------------- fit and evaluation

  /** `np.dot(row, w)`. */
  function WeightedSum(row: seq<real>, w: seq<real>): real
    requires |w| == |row|
    decreases |row|
  {
    if |row| == 0 then 0.0
    else WeightedSum(row[..|row| - 1], w[..|row| - 1]) + row[|row| - 1] * w[|row| - 1]
  }

  /** Zero weights give zero. */
  lemma {:induction false} WeightedSumOfZeros(row: seq<real>, w: seq<real>)
    requires |w| == |row| && forall k :: 0 <= k < |w| ==> w[k] == 0.0
    ensures WeightedSum(row, w) == 0.0
    decreases |row|
  {
    if |row| > 0 {
      var n := |row| - 1;
      assert forall k :: 0 <= k < n ==> w[..n][k] == w[k];
      WeightedSumOfZeros(row[..n], w[..n]);
    }
  }

  /** `M @ w`: one weighted sum per row. */
  function MatVec(m: seq<seq<real>>, w: seq<real>): (r: seq<real>)
    requires forall i :: 0 <= i < |m| ==> |m[i]| == |w|
    ensures |r| == |m|
  {
    seq(|m|, i requires 0 <= i < |m| => WeightedSum(m[i], w))
  }

  /**
    `ImplicitRBF.__init__`: the constraints, targets and kernel matrix from the samples, the
    weights from the solve, and the samples as centres. None when there is no sample
    (`np.min` over an empty array raises).
  */
  function Fit(points: seq<Vec3>, normals: seq<Vec3>, sqrt: real -> real,
               lstsq: (nat, seq<seq<real>>, seq<real>) -> seq<real>): (r: Option<Rbf>)
    requires |normals| == |points|
    ensures r.None? <==> |points| == 0
  {
    if |points| == 0 then None
    else
      var eps := Epsilon(points, sqrt);
      var xs := ConstraintPoints(points, normals, eps);
      var d := Targets(|points|, eps);
      var m := KernelMatrix(xs, points, sqrt);
      Some(Rbf(lstsq(|points|, m, d), points))
  }

  /** The centres are the samples and there is one weight per centre. */
  lemma FitShape(points: seq<Vec3>, normals: seq<Vec3>, sqrt: real -> real,
                 lstsq: (nat, seq<seq<real>>, seq<real>) -> seq<real>)
    requires |normals| == |points| && |points| > 0 && IsLstsq(lstsq)
    ensures var f := Fit(points, normals, sqrt, lstsq).value;
            f.centres == points && |f.weights| == |points|
  {
  }

  /** One value `sum_j w_j |x - c_j|^3`. */
  function Evaluate(f: Rbf, x: Vec3, sqrt: real -> real): real
    requires |f.weights| == |f.centres|
  {
    WeightedSum(KernelRow(x, f.centres, sqrt), f.weights)
  }

  /** `ImplicitRBF.__call__`: one value per query, in query order. */
  function Call(f: Rbf, queries: seq<Vec3>, sqrt: real -> real): (r: seq<real>)
    requires |f.weights| == |f.centres|
    ensures |r| == |queries| && forall k :: 0 <= k < |queries| ==> r[k] == Evaluate(f, queries[k], sqrt)
  {
    seq(|queries|, k requires 0 <= k < |queries| => Evaluate(f, queries[k], sqrt))
  }

  /**
    Evaluating the fitted function at the constraint points gives M w: the residual of the
    fitted system is exactly what the function misses at its constraints.
  */
  lemma EvaluateAtConstraints(points: seq<Vec3>, normals: seq<Vec3>, sqrt: real -> real,
                              lstsq: (nat, seq<seq<real>>, seq<real>) -> seq<real>)
    requires |normals| == |points| && |points| > 0 && IsLstsq(lstsq)
    ensures var f := Fit(points, normals, sqrt, lstsq).value;
            var xs := ConstraintPoints(points, normals, Epsilon(points, sqrt));
            |f.weights| == |f.centres| &&
            Call(f, xs, sqrt) == MatVec(KernelMatrix(xs, points, sqrt), f.weights)
  {
    var f := Fit(points, normals, sqrt, lstsq).value;
    var xs := ConstraintPoints(points, normals, Epsilon(points, sqrt));
    var m := KernelMatrix(xs, points, sqrt);
    assert forall i :: 0 <= i < |xs| ==> m[i] == KernelRow(xs[i], f.centres, sqrt);
  }

  /** Coincident samples give eps = 0, all-zero targets, zero weights and the zero function. */
  lemma CoincidentSamplesGiveZero(points: seq<Vec3>, normals: seq<Vec3>, sqrt: real -> real,
                                  lstsq: (nat, seq<seq<real>>, seq<real>) -> seq<real>, x: Vec3)
    requires IsSqrt(sqrt) && IsLstsq(lstsq) && |normals| == |points| && |points| > 0
    requires MaxCorner(points) == MinCorner(points)
    ensures var f := Fit(points, normals, sqrt, lstsq).value;
            |f.weights| == |f.centres| && Evaluate(f, x, sqrt) == 0.0
  {
    EpsilonNonNegative(points, sqrt);
    ZeroOffsetGivesZero(points, normals, sqrt, lstsq, x);
  }

  /** With eps = 0 every target is zero, so the solve returns zero weights. */
  lemma ZeroOffsetGivesZero(points: seq<Vec3>, normals: seq<Vec3>, sqrt: real -> real,
                            lstsq: (nat, seq<seq<real>>, seq<real>) -> seq<real>, x: Vec3)
    requires IsLstsq(lstsq) && |normals| == |points| && |points| > 0
    requires Epsilon(points, sqrt) == 0.0
    ensures var f := Fit(points, normals, sqrt, lstsq).value;
            |f.weights| == |f.centres| && Evaluate(f, x, sqrt) == 0.0
  {
    var f := Fit(points, normals, sqrt, lstsq).value;
    var n := |points|;
    assert Targets(n, 0.0) == Zeros(3 * n);
    assert f.weights == Zeros(n);
    WeightedSumOfZeros(KernelRow(x, f.centres, sqrt), f.weights);
  }
}

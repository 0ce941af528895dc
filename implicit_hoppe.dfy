/**
  Hoppe's implicit surface from oriented samples: the value at a query point is the signed
  distance from the query to the tangent plane of its nearest sample, that is
  n . (x - c) / |n| for the nearest sample c with normal n. A zero normal has its length
  replaced by 1. The nearest sample is found by exhaustive search with `np.argmin`.
*/
module ImplicitHoppe {
  import opened Vectors
  import opened Options
  import opened Closest

  /** The stored samples and their normals, one normal per sample. */
  datatype Hoppe = Hoppe(points: seq<Vec3>, normals: seq<Vec3>)

  /** `normal_norms` after `np.where(normal_norms == 0, 1, normal_norms)`. */
  function Denominator(n: Vec3, sqrt: real -> real): (d: real)
    ensures d != 0.0
    ensures Norm(n, sqrt) != 0.0 ==> d == Norm(n, sqrt)
  {
    var nn := Norm(n, sqrt);
    if nn == 0.0 then 1.0 else nn
  }

  /** The tangent-plane value for one query; None when there is no sample (`np.argmin` raises). */
  function Value(h: Hoppe, x: Vec3, sqrt: real -> real): (r: Option<real>)
    requires |h.normals| == |h.points|
    ensures r.None? <==> |h.points| == 0
  {
    match Nearest(h.points, x, sqrt)
    case None => None
    case Some(i) =>
      Some(PlaneValue(h.normals[i], Sub(x, h.points[i]), sqrt))
  }

  /** `__call__`: one value per query, in query order; None when there is no sample. */
  function Call(h: Hoppe, queries: seq<Vec3>, sqrt: real -> real): (r: Option<seq<real>>)
    requires |h.normals| == |h.points|
    ensures r.None? <==> |h.points| == 0
    ensures r.Some? ==> |r.value| == |queries| &&
                        forall k :: 0 <= k < |queries| ==> Some(r.value[k]) == Value(h, queries[k], sqrt)
  {
    if |h.points| == 0 then None
    else Some(seq(|queries|, k requires 0 <= k < |queries| => Value(h, queries[k], sqrt).value))
  }

  /** The sample a query is measured against is its nearest one, the first on a tie. */
  lemma ChosenSampleIsNearest(h: Hoppe, x: Vec3, sqrt: real -> real)
    requires |h.normals| == |h.points| && |h.points| > 0
    ensures var i := Nearest(h.points, x, sqrt).value;
            i < |h.points| &&
            (forall j :: 0 <= j < |h.points| ==> Dist(x, h.points[i], sqrt) <= Dist(x, h.points[j], sqrt)) &&
            (forall j :: 0 <= j < i ==> Dist(x, h.points[i], sqrt) < Dist(x, h.points[j], sqrt))
  {
    NearestIsClosest(h.points, x, sqrt);
  }

  /** The value for the nearest sample i, unfolded. */
  lemma ValueAt(h: Hoppe, x: Vec3, sqrt: real -> real)
    requires |h.normals| == |h.points| && |h.points| > 0
    ensures var i := Nearest(h.points, x, sqrt).value;
            Value(h, x, sqrt) == Some(PlaneValue(h.normals[i], Sub(x, h.points[i]), sqrt))
  {
  }

  /** n . d / |n|, with |n| replaced by 1 when it is 0. */
  function PlaneValue(n: Vec3, d: Vec3, sqrt: real -> real): real {
    Dot(n, d) / Denominator(n, sqrt)
  }

  /** The plane value is the component of d along the unit normal (along n itself when n is zero). */
  lemma PlaneValueIsProjection(n: Vec3, d: Vec3, sqrt: real -> real)
    ensures PlaneValue(n, d, sqrt) == Dot(Unit(n, sqrt), d)
  {
    var nn := Norm(n, sqrt);
    if nn != 0.0 {
      assert Unit(n, sqrt) == Scale(1.0 / nn, n);
      DotScale(1.0 / nn, n, d);
      assert Dot(n, d) / nn == (1.0 / nn) * Dot(n, d);
    }
  }

  /** A zero normal gives the plane value 0. */
  lemma PlaneValueOfZero(d: Vec3, sqrt: real -> real)
    ensures PlaneValue(Zero, d, sqrt) == 0.0
  {
    var q := Denominator(Zero, sqrt);
    assert Dot(Zero, d) == 0.0;
    assert 0.0 / q == 0.0;
  }

  /** The plane value is no larger in magnitude than |d|. */
  lemma PlaneValueBounded(n: Vec3, d: Vec3, sqrt: real -> real)
    requires IsSqrt(sqrt)
    ensures PlaneValue(n, d, sqrt) <= Norm(d, sqrt) && -PlaneValue(n, d, sqrt) <= Norm(d, sqrt)
  {
    var nn, p, r := Norm(n, sqrt), Dot(n, d), Norm(d, sqrt);
    NormNonNegative(d, sqrt);
    if nn == 0.0 {
      NormZeroIff(n, sqrt);
      PlaneValueOfZero(d, sqrt);
    } else {
      assert PlaneValue(n, d, sqrt) == p / nn;
      NormNonNegative(n, sqrt);
      CauchySchwarz(n, d, sqrt);
      QuotientBound(p, nn, r);
    }
  }

  /**
    The value is the signed distance along the unit normal: the component of x - c along
    n / |n| (along n itself when n is zero).
  */
  lemma ValueIsPlaneDistance(h: Hoppe, x: Vec3, sqrt: real -> real)
    requires |h.normals| == |h.points| && |h.points| > 0
    ensures var i := Nearest(h.points, x, sqrt).value;
            Value(h, x, sqrt) == Some(Dot(Unit(h.normals[i], sqrt), Sub(x, h.points[i])))
  {
    var i := Nearest(h.points, x, sqrt).value;
    ValueAt(h, x, sqrt);
    PlaneValueIsProjection(h.normals[i], Sub(x, h.points[i]), sqrt);
  }

  /** A sample with a zero normal contributes the value 0. */
  lemma ZeroNormalGivesZero(h: Hoppe, x: Vec3, sqrt: real -> real)
    requires |h.normals| == |h.points| && |h.points| > 0
    requires h.normals[Nearest(h.points, x, sqrt).value] == Zero
    ensures Value(h, x, sqrt) == Some(0.0)
  {
    ValueAt(h, x, sqrt);
    PlaneValueOfZero(Sub(x, h.points[Nearest(h.points, x, sqrt).value]), sqrt);
  }

  /** A query placed on a sample point lies on that sample's tangent plane. */
  lemma ValueAtSample(h: Hoppe, k: nat, sqrt: real -> real)
    requires IsSqrt(sqrt) && |h.normals| == |h.points| && k < |h.points|
    ensures Value(h, h.points[k], sqrt) == Some(0.0)
  {
    var x := h.points[k];
    NearestAtSample(h.points, k, sqrt);
    var i := Nearest(h.points, x, sqrt).value;
    ValueAt(h, x, sqrt);
    assert Sub(x, h.points[i]) == Zero;
  }

  /** -r <= p / q <= r when q is positive and -q r <= p <= q r. */
  lemma QuotientBound(p: real, q: real, r: real)
    requires 0.0 < q && p <= q * r && -p <= q * r
    ensures p / q <= r && -(p / q) <= r
  {
    var s := p / q;
    assert s * q == p;
  }

  /** The value never exceeds, in magnitude, the distance from the query to its nearest sample. */
  lemma ValueBounded(h: Hoppe, x: Vec3, sqrt: real -> real)
    requires IsSqrt(sqrt) && |h.normals| == |h.points| && |h.points| > 0
    ensures var i := Nearest(h.points, x, sqrt).value;
            var v := Value(h, x, sqrt).value;
            v <= Dist(x, h.points[i], sqrt) && -v <= Dist(x, h.points[i], sqrt)
  {
    var i := Nearest(h.points, x, sqrt).value;
    ValueAt(h, x, sqrt);
    PlaneValueBounded(h.normals[i], Sub(x, h.points[i]), sqrt);
  }
}

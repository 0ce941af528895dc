/**
  Nearest-sample queries by exhaustive search: `np.argmin` over the distances from a query to
  every sample. The lowest index wins a tie, as `np.argmin` returns the first minimum.
*/
module Closest {
  import opened Vectors
  import opened Options

  /** Index of the first minimum of a non-empty list of values. */
  function ArgMin(ds: seq<real>): (i: nat)
    requires |ds| > 0
    ensures i < |ds|
  {
    if |ds| == 1 then 0
    else
      var j := ArgMin(ds[..|ds| - 1]);
      if ds[|ds| - 1] < ds[j] then |ds| - 1 else j
  }

  /** The chosen value is a minimum, and every earlier value is strictly larger. */
  lemma {:induction false} ArgMinIsFirstMin(ds: seq<real>)
    requires |ds| > 0
    ensures forall j :: 0 <= j < |ds| ==> ds[ArgMin(ds)] <= ds[j]
    ensures forall j :: 0 <= j < ArgMin(ds) ==> ds[ArgMin(ds)] < ds[j]
    decreases |ds|
  {
    if |ds| > 1 {
      var init := ds[..|ds| - 1];
      ArgMinIsFirstMin(init);
      assert forall k :: 0 <= k < |init| ==> init[k] == ds[k];
    }
  }

  /** `np.linalg.norm(x - points, axis=1)`: one distance per sample. */
  function Distances(points: seq<Vec3>, x: Vec3, sqrt: real -> real): (ds: seq<real>)
    ensures |ds| == |points|
  {
    seq(|points|, j requires 0 <= j < |points| => Dist(x, points[j], sqrt))
  }

  /** Index of the sample nearest to x; None when there are no samples. */
  function Nearest(points: seq<Vec3>, x: Vec3, sqrt: real -> real): (r: Option<nat>)
    ensures r.None? <==> |points| == 0
    ensures r.Some? ==> r.value < |points|
  {
    if |points| == 0 then None else Some(ArgMin(Distances(points, x, sqrt)))
  }

  /**
    The nearest sample is no farther than any other, and strictly nearer than every sample
    before it.
  */
  lemma NearestIsClosest(points: seq<Vec3>, x: Vec3, sqrt: real -> real)
    requires |points| > 0
    ensures var i := Nearest(points, x, sqrt).value;
            (forall j :: 0 <= j < |points| ==> Dist(x, points[i], sqrt) <= Dist(x, points[j], sqrt)) &&
            (forall j :: 0 <= j < i ==> Dist(x, points[i], sqrt) < Dist(x, points[j], sqrt))
  {
    var ds := Distances(points, x, sqrt);
    ArgMinIsFirstMin(ds);
    assert forall j :: 0 <= j < |points| ==> ds[j] == Dist(x, points[j], sqrt);
  }

  /** The sample nearest to a sample point lies at that same position. */
  lemma NearestAtSample(points: seq<Vec3>, k: nat, sqrt: real -> real)
    requires IsSqrt(sqrt) && k < |points|
    ensures points[Nearest(points, points[k], sqrt).value] == points[k]
  {
    var x := points[k];
    var r := Nearest(points, x, sqrt);
    assert r.Some?;
    var i := r.value;
    assert i < |points|;
    NearestIsClosest(points, x, sqrt);
    assert Dist(x, points[i], sqrt) <= Dist(x, points[k], sqrt);
    DistNotBelowSelf(x, points[i], sqrt);
  }
}

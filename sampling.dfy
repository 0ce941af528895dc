/**
  Greedy uniform-radius subsampling of a point cloud: points are visited in a shuffled order
  and a point is kept when no point kept so far lies nearer than the radius. The shuffle is
  a parameter, a permutation `order` of the point indices.
*/
module Sampling {
  import opened Vectors

  /** `order` lists each of 0 .. n-1 exactly once. */
  predicate IsPermutation(order: seq<nat>, n: nat) {
    |order| == n && InRange(order, n) &&
    (forall a, b :: 0 <= a < b < n ==> order[a] != order[b])
  }

  /** Every entry indexes a list of length n. */
  predicate InRange(indices: seq<nat>, n: nat) {
    forall k :: 0 <= k < |indices| ==> indices[k] < n
  }

  /** No kept point is nearer to p than radius: the inner loop runs to the end without a break. */
  predicate FarFromAll(pts: seq<Vec3>, kept: seq<nat>, p: Vec3, radius: real, sqrt: real -> real)
    requires InRange(kept, |pts|)
  {
    forall k :: 0 <= k < |kept| ==> !(Dist(p, pts[kept[k]], sqrt) < radius)
  }

  /** Checking one more kept point: the step the inner loop takes. */
  lemma FarFromAllStep(pts: seq<Vec3>, kept: seq<nat>, p: Vec3, radius: real, sqrt: real -> real, m: nat)
    requires InRange(kept, |pts|) && m < |kept|
    ensures InRange(kept[..m], |pts|) && InRange(kept[..m + 1], |pts|)
    ensures FarFromAll(pts, kept[..m + 1], p, radius, sqrt) <==>
            FarFromAll(pts, kept[..m], p, radius, sqrt) && !(Dist(p, pts[kept[m]], sqrt) < radius)
  {
    assert kept[..m + 1][m] == kept[m];
  }

  /**
    The indices kept after visiting `order`: the first visited point is kept, and a later one
    is kept when it is far from all kept so far.
  */
  function Greedy(pts: seq<Vec3>, order: seq<nat>, radius: real, sqrt: real -> real): (r: seq<nat>)
    requires InRange(order, |pts|)
    ensures InRange(r, |pts|) && |r| <= |order|
    decreases |order|
  {
    if |order| == 0 then []
    else
      var prev := Greedy(pts, order[..|order| - 1], radius, sqrt);
      var idx := order[|order| - 1];
      if |prev| == 0 || FarFromAll(pts, prev, pts[idx], radius, sqrt) then prev + [idx] else prev
  }

  /** One more visited index: the step the loop body takes. */
  lemma GreedyStep(pts: seq<Vec3>, order: seq<nat>, radius: real, sqrt: real -> real, n: nat)
    requires InRange(order, |pts|) && n < |order|
    ensures var prev := Greedy(pts, order[..n], radius, sqrt);
            Greedy(pts, order[..n + 1], radius, sqrt) ==
              if |prev| == 0 || FarFromAll(pts, prev, pts[order[n]], radius, sqrt) then prev + [order[n]] else prev
  {
    assert order[..n + 1][..n] == order[..n];
  }

  /** Visiting more points only appends: what is kept is never dropped later. */
  lemma {:induction false} GreedyPrefix(pts: seq<Vec3>, order: seq<nat>, radius: real, sqrt: real -> real, n: nat)
    requires InRange(order, |pts|) && n <= |order|
    ensures Greedy(pts, order[..n], radius, sqrt) <= Greedy(pts, order, radius, sqrt)
    decreases |order|
  {
    if n < |order| {
      var shorter := order[..|order| - 1];
      GreedyPrefix(pts, shorter, radius, sqrt, n);
      assert shorter[..n] == order[..n];
    } else {
      assert order[..n] == order;
    }
  }

  /**
    Where each kept index was visited: the kept indices appear in `order` at strictly
    increasing positions, so they are kept in visit order.
  */
  ghost function VisitPositions(pts: seq<Vec3>, order: seq<nat>, radius: real, sqrt: real -> real): (pos: seq<nat>)
    requires InRange(order, |pts|)
    ensures var r := Greedy(pts, order, radius, sqrt);
            |pos| == |r| &&
            (forall k :: 0 <= k < |pos| ==> pos[k] < |order| && order[pos[k]] == r[k]) &&
            (forall a, b :: 0 <= a < b < |pos| ==> pos[a] < pos[b])
    decreases |order|
  {
    if |order| == 0 then []
    else
      var prev := Greedy(pts, order[..|order| - 1], radius, sqrt);
      var prevPos := VisitPositions(pts, order[..|order| - 1], radius, sqrt);
      if |prev| == 0 || FarFromAll(pts, prev, pts[order[|order| - 1]], radius, sqrt)
      then prevPos + [|order| - 1] else prevPos
  }

  /** The kept indices are distinct, since the visit order lists each index once. */
  lemma GreedyDistinct(pts: seq<Vec3>, order: seq<nat>, radius: real, sqrt: real -> real)
    requires IsPermutation(order, |pts|)
    ensures var r := Greedy(pts, order, radius, sqrt);
            forall a, b :: 0 <= a < b < |r| ==> r[a] != r[b]
  {
    var r := Greedy(pts, order, radius, sqrt);
    var pos := VisitPositions(pts, order, radius, sqrt);
    forall a, b | 0 <= a < b < |r| ensures r[a] != r[b] {
      assert pos[a] < pos[b] && order[pos[a]] == r[a] && order[pos[b]] == r[b];
    }
  }

  /** Each point of `kept` is at least radius away from every point listed before it. */
  predicate Separated(pts: seq<Vec3>, kept: seq<nat>, radius: real, sqrt: real -> real)
    requires InRange(kept, |pts|)
  {
    forall a, b :: 0 <= a < b < |kept| ==> radius <= Dist(pts[kept[b]], pts[kept[a]], sqrt)
  }

  /** Each kept point is at least radius away from every point kept before it. */
  lemma {:induction false} GreedySeparatedFromEarlier(pts: seq<Vec3>, order: seq<nat>, radius: real, sqrt: real -> real)
    requires InRange(order, |pts|)
    ensures Separated(pts, Greedy(pts, order, radius, sqrt), radius, sqrt)
    decreases |order|
  {
    if |order| > 0 {
      var prev := Greedy(pts, order[..|order| - 1], radius, sqrt);
      var idx := order[|order| - 1];
      GreedySeparatedFromEarlier(pts, order[..|order| - 1], radius, sqrt);
      if |prev| == 0 || FarFromAll(pts, prev, pts[idx], radius, sqrt) {
        var r := prev + [idx];
        assert Greedy(pts, order, radius, sqrt) == r;
        forall a, b | 0 <= a < b < |r| ensures radius <= Dist(pts[r[b]], pts[r[a]], sqrt) {
          if b == |prev| {
            assert r[b] == idx && r[a] == prev[a];
            assert !(Dist(pts[idx], pts[prev[a]], sqrt) < radius);
          } else {
            assert r[b] == prev[b] && r[a] == prev[a];
          }
        }
      } else {
        assert Greedy(pts, order, radius, sqrt) == prev;
      }
    }
  }

  /** Any two kept points are at least radius apart. */
  lemma GreedySeparated(pts: seq<Vec3>, order: seq<nat>, radius: real, sqrt: real -> real)
    requires InRange(order, |pts|)
    ensures var r := Greedy(pts, order, radius, sqrt);
            forall a, b :: 0 <= a < |r| && 0 <= b < |r| && a != b ==> radius <= Dist(pts[r[a]], pts[r[b]], sqrt)
  {
    var r := Greedy(pts, order, radius, sqrt);
    GreedySeparatedFromEarlier(pts, order, radius, sqrt);
    forall a, b | 0 <= a < |r| && 0 <= b < |r| && a != b
      ensures radius <= Dist(pts[r[a]], pts[r[b]], sqrt)
    {
      if a < b {
        assert radius <= Dist(pts[r[b]], pts[r[a]], sqrt);
        DistSymmetric(pts[r[b]], pts[r[a]], sqrt);
      } else {
        assert radius <= Dist(pts[r[a]], pts[r[b]], sqrt);
      }
    }
  }

  /** The first visited point is always kept, and it comes first. */
  lemma GreedyKeepsFirst(pts: seq<Vec3>, order: seq<nat>, radius: real, sqrt: real -> real)
    requires InRange(order, |pts|) && |order| > 0
    ensures var r := Greedy(pts, order, radius, sqrt);
            |r| > 0 && r[0] == order[0]
  {
    GreedyPrefix(pts, order, radius, sqrt, 1);
    GreedyStep(pts, order, radius, sqrt, 0);
  }

  /**
    The selection is maximal: every visited point is either kept or lies nearer than radius
    to a point kept before it was visited.
  */
  lemma GreedyMaximal(pts: seq<Vec3>, order: seq<nat>, radius: real, sqrt: real -> real, k: nat)
    requires InRange(order, |pts|) && k < |order|
    ensures var r := Greedy(pts, order, radius, sqrt);
            order[k] in r ||
            exists a :: 0 <= a < |r| && a < |Greedy(pts, order[..k], radius, sqrt)| &&
                        Dist(pts[order[k]], pts[r[a]], sqrt) < radius
  {
    var r := Greedy(pts, order, radius, sqrt);
    var prev := Greedy(pts, order[..k], radius, sqrt);
    var next := Greedy(pts, order[..k + 1], radius, sqrt);
    GreedyStep(pts, order, radius, sqrt, k);
    GreedyPrefix(pts, order, radius, sqrt, k);
    GreedyPrefix(pts, order, radius, sqrt, k + 1);
    if |prev| == 0 || FarFromAll(pts, prev, pts[order[k]], radius, sqrt) {
      assert next == prev + [order[k]] && next <= r;
      assert r[|next| - 1] == order[k];
    } else {
      var a :| 0 <= a < |prev| && Dist(pts[order[k]], pts[prev[a]], sqrt) < radius;
      assert prev <= r && r[a] == prev[a];
      assert a < |r| && a < |prev| && Dist(pts[order[k]], pts[r[a]], sqrt) < radius;
    }
  }
}

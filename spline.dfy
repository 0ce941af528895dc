/**
  The Catmull-Rom spline through a list of control points, with an arc-length lookup of the
  piece a parameter t falls in, and the rotation-minimising TNB frames of Sloan's method.

  The control list is padded by repeating its first and last point, so that every control
  point has neighbours; the chord lengths of the padded list drive the lookup.
*/
module Spline {
  import opened Vectors
  import opened Options

  // ---------------------------------------------------------------- the Catmull-Rom piece

  /**
    `_catmull_rom` for one coordinate:
    0.5 (2 p1 + (-p0 + p2) t + (2 p0 - 5 p1 + 4 p2 - p3) t^2 + (-p0 + 3 p1 - 3 p2 + p3) t^3).
  */
  function CatmullRomCoord(p0: real, p1: real, p2: real, p3: real, t: real): real {
    var t2 := t * t;
    var t3 := t2 * t;
    0.5 * (2.0 * p1 + (-p0 + p2) * t + (2.0 * p0 - 5.0 * p1 + 4.0 * p2 - p3) * t2 +
           (-p0 + 3.0 * p1 - 3.0 * p2 + p3) * t3)
  }

  /** `_catmull_rom(points, t)` for exactly four control points and t in [0, 1]. */
  function CatmullRom(p0: Vec3, p1: Vec3, p2: Vec3, p3: Vec3, t: real): Vec3
    requires 0.0 <= t <= 1.0
  {
    Vec3(CatmullRomCoord(p0.x, p1.x, p2.x, p3.x, t),
         CatmullRomCoord(p0.y, p1.y, p2.y, p3.y, t),
         CatmullRomCoord(p0.z, p1.z, p2.z, p3.z, t))
  }

  /** One coordinate passes through p1 at t = 0 and through p2 at t = 1. */
  lemma CatmullRomCoordEnds(p0: real, p1: real, p2: real, p3: real)
    ensures CatmullRomCoord(p0, p1, p2, p3, 0.0) == p1
    ensures CatmullRomCoord(p0, p1, p2, p3, 1.0) == p2
  {
    assert 1.0 * 1.0 == 1.0 && 0.0 * 0.0 == 0.0;
  }

  /** The piece interpolates its two middle control points: p1 at t = 0, p2 at t = 1. */
  lemma CatmullRomEnds(p0: Vec3, p1: Vec3, p2: Vec3, p3: Vec3)
    ensures CatmullRom(p0, p1, p2, p3, 0.0) == p1
    ensures CatmullRom(p0, p1, p2, p3, 1.0) == p2
  {
    CatmullRomCoordEnds(p0.x, p1.x, p2.x, p3.x);
    CatmullRomCoordEnds(p0.y, p1.y, p2.y, p3.y);
    CatmullRomCoordEnds(p0.z, p1.z, p2.z, p3.z);
  }

  // ---------------------------------------------------------------- padding and chords

  /** The control points with the first and the last one repeated: n + 2 points. */
  function Padded(control: seq<Vec3>): (p: seq<Vec3>)
    requires |control| > 0
  {
    [control[0]] + control + [control[|control| - 1]]
  }

  /** The padded list keeps the control points in order between two repeated end points. */
  lemma PaddedLayout(control: seq<Vec3>)
    requires |control| > 0
    ensures var p := Padded(control);
            |p| == |control| + 2 &&
            p[0] == control[0] && p[|p| - 1] == control[|control| - 1] &&
            (forall k :: 0 <= k < |control| ==> p[k + 1] == control[k])
  {
  }

  /** `_segment_lengths`: the distance from each padded point to the next one. */
  function SegmentLengths(p: seq<Vec3>, sqrt: real -> real): (lens: seq<real>)
    requires |p| > 0
  {
    seq(|p| - 1, i requires 0 <= i < |p| - 1 => Dist(p[i + 1], p[i], sqrt))
  }

  /** There is one chord fewer than points, and none is negative. */
  lemma SegmentLengthsNonNegative(p: seq<Vec3>, sqrt: real -> real)
    requires IsSqrt(sqrt) && |p| > 0
    ensures var lens := SegmentLengths(p, sqrt);
            |lens| == |p| - 1 && NonNegative(lens)
  {
    var lens := SegmentLengths(p, sqrt);
    forall k | 0 <= k < |lens| ensures 0.0 <= lens[k] {
      DistNonNegative(p[k + 1], p[k], sqrt);
    }
  }

  /**
    For a padded list there are n + 1 chords, and the first and the last are 0: each joins a
    repeated end point to itself.
  */
  lemma PaddedChords(control: seq<Vec3>, sqrt: real -> real)
    requires IsSqrt(sqrt) && |control| > 0
    ensures var lens := SegmentLengths(Padded(control), sqrt);
            |lens| == |control| + 1 && PaddedChordShape(lens)
  {
    SegmentLengthsNonNegative(Padded(control), sqrt);
    PaddedEndChords(control, sqrt);
    DistSelf(control[0], sqrt);
    DistSelf(control[|control| - 1], sqrt);
  }

  /** The first and the last chord of a padded list join an end point to itself. */
  lemma PaddedEndChords(control: seq<Vec3>, sqrt: real -> real)
    requires |control| > 0
    ensures var lens := SegmentLengths(Padded(control), sqrt);
            var n := |control|;
            lens[0] == Dist(control[0], control[0], sqrt) &&
            lens[n] == Dist(control[n - 1], control[n - 1], sqrt)
  {
    var n := |control|;
    var p := Padded(control);
    assert p[0] == control[0] && p[1] == control[0];
    assert p[n] == control[n - 1] && p[n + 1] == control[n - 1];
  }

  predicate NonNegative(s: seq<real>) {
    forall k :: 0 <= k < |s| ==> 0.0 <= s[k]
  }

  /** The chords of a padded list: none negative, and the first and the last are 0. */
  predicate PaddedChordShape(lens: seq<real>) {
    2 <= |lens| && NonNegative(lens) && lens[0] == 0.0 && lens[|lens| - 1] == 0.0
  }

  /** `np.sum`, adding from the left. */
  function Sum(s: seq<real>): real
    decreases |s|
  {
    if |s| == 0 then 0.0 else Sum(s[..|s| - 1]) + s[|s| - 1]
  }

  /** The running total through index j: the accumulated length once chord j is added. */
  function RunningTotal(s: seq<real>, j: nat): real
    requires j < |s|
  {
    Sum(s[..j + 1])
  }

  /** One more term: the step of a running total. */
  lemma SumStep(s: seq<real>, i: nat)
    requires i < |s|
    ensures Sum(s[..i + 1]) == Sum(s[..i]) + s[i]
  {
    assert s[..i + 1][..i] == s[..i];
  }

  /** A sum of non-negative terms is at least each of its prefix sums. */
  lemma {:induction false} SumPrefixBound(s: seq<real>, i: nat)
    requires NonNegative(s) && i <= |s|
    ensures Sum(s[..i]) <= Sum(s)
    decreases |s| - i
  {
    if i < |s| {
      SumStep(s, i);
      SumPrefixBound(s, i + 1);
    } else {
      assert s[..i] == s;
    }
  }

  /** Dropping a zero first term leaves the sum unchanged. */
  lemma {:induction false} SumDropZeroHead(s: seq<real>)
    requires |s| > 0 && s[0] == 0.0
    ensures Sum(s[1..]) == Sum(s)
    decreases |s|
  {
    if |s| > 1 {
      var init := s[..|s| - 1];
      SumDropZeroHead(init);
      assert init[1..] == s[1..][..|s| - 2];
    } else {
      assert s[1..] == [];
      assert s[..0] == [];
    }
  }

  // ---------------------------------------------------------------- the arc-length lookup

  /** The piece a parameter falls in and the parameter local to that piece. */
  datatype Piece = Piece(index: nat, localT: real)

  /**
    The search loop of `__call__` from index i on, with `acc` the length accumulated so far:
    the first i < count whose chord brings the total to the target length, and the local
    parameter there (0 for a chord of length 0); None when no index does.
  */
  function Find(lens: seq<real>, target: real, acc: real, i: nat, count: nat): (r: Option<Piece>)
    requires count <= |lens| && NonNegative(lens) && acc <= target
    ensures r.Some? ==> i <= r.value.index < count && 0.0 <= r.value.localT <= 1.0
    decreases count - i
  {
    if i >= count then None
    else if acc + lens[i] >= target then
      var local := if lens[i] != 0.0 then (target - acc) / lens[i] else 0.0;
      assert 0.0 <= local <= 1.0 by {
        if lens[i] != 0.0 {
          FractionInUnit(target - acc, lens[i]);
        }
      }
      Some(Piece(i, local))
    else Find(lens, target, acc + lens[i], i + 1, count)
  }

  /** 0 <= d / l <= 1 for 0 <= d <= l and l != 0. */
  lemma FractionInUnit(d: real, l: real)
    requires 0.0 <= d <= l && l != 0.0
    ensures 0.0 <= d / l <= 1.0
  {
    var q := d / l;
    assert q * l == d;
  }

  /**
    The search picks the first index whose running chord total reaches the target, and
    fails exactly when no running total below `count` does.
  */
  lemma {:induction false} FindFirst(lens: seq<real>, target: real, i: nat, count: nat)
    requires count <= |lens| && NonNegative(lens) && i <= count && Sum(lens[..i]) <= target
    ensures var r := Find(lens, target, Sum(lens[..i]), i, count);
            (r.Some? ==> target <= RunningTotal(lens, r.value.index) &&
                         forall j :: i <= j < r.value.index ==> RunningTotal(lens, j) < target) &&
            (r.None? <==> forall j :: i <= j < count ==> RunningTotal(lens, j) < target)
    decreases count - i
  {
    if i < count {
      SumStep(lens, i);
      if Sum(lens[..i]) + lens[i] < target {
        FindFirst(lens, target, i + 1, count);
      }
    }
  }

  /**
    `__call__(t)` on a padded list and its chords: the Catmull-Rom piece of the segment found
    for the length t * total, or the point before the last (`_points[-2]`) when the search
    runs off the end.
  */
  function Evaluate(pts: seq<Vec3>, lens: seq<real>, total: real, t: real): Vec3
    requires 4 <= |pts| && |lens| == |pts| - 1 && NonNegative(lens) && 0.0 <= total
    requires 0.0 <= t <= 1.0
  {
    ProductNonNegative(total, t, total * t);
    match Find(lens, total * t, 0.0, 0, |pts| - 3)
    case Some(p) => CatmullRom(pts[p.index], pts[p.index + 1], pts[p.index + 2], pts[p.index + 3], p.localT)
    case None => pts[|pts| - 2]
  }

  /** A sum of non-negative terms is non-negative. */
  lemma {:induction false} SumNonNegative(s: seq<real>)
    requires NonNegative(s)
    ensures 0.0 <= Sum(s)
    decreases |s|
  {
    if |s| > 0 {
      SumNonNegative(s[..|s| - 1]);
    }
  }

  /** At t = 0 the zero-length first chord is chosen with local parameter 0: the piece's start. */
  lemma {:induction false} EvaluateStart(pts: seq<Vec3>, lens: seq<real>)
    requires 4 <= |pts| && |lens| == |pts| - 1 && PaddedChordShape(lens)
    ensures (SumNonNegative(lens); Evaluate(pts, lens, Sum(lens), 0.0) == pts[1])
  {
    SumNonNegative(lens);
    assert Sum(lens) * 0.0 == 0.0;
    assert Find(lens, 0.0, 0.0, 0, |pts| - 3) == Some(Piece(0, 0.0));
    CatmullRomEnds(pts[0], pts[1], pts[2], pts[3]);
  }

  /** The value on the piece the search finds, or the fallback point when it finds none. */
  lemma EvaluateOnPiece(pts: seq<Vec3>, lens: seq<real>, total: real, t: real)
    requires 4 <= |pts| && |lens| == |pts| - 1 && NonNegative(lens) && 0.0 <= total
    requires 0.0 <= t <= 1.0
    ensures (ProductNonNegative(total, t, total * t);
             var r := Find(lens, total * t, 0.0, 0, |pts| - 3);
             Evaluate(pts, lens, total, t) ==
               if r.Some? then
                 CatmullRom(pts[r.value.index], pts[r.value.index + 1], pts[r.value.index + 2], pts[r.value.index + 3], r.value.localT)
               else pts[|pts| - 2])
  {
  }

  /** The spline starts at the first control point. */
  lemma EvaluateAtZero(control: seq<Vec3>, sqrt: real -> real)
    requires IsSqrt(sqrt) && 4 <= |control|
    ensures var p := Padded(control);
            var lens := SegmentLengths(p, sqrt);
            (PaddedChords(control, sqrt); SumNonNegative(lens);
             Evaluate(p, lens, Sum(lens), 0.0) == control[0])
  {
    PaddedChords(control, sqrt);
    EvaluateStart(Padded(control), SegmentLengths(Padded(control), sqrt));
  }

  /**
    The lookup tests chord i (from point i to i + 1) for piece i, which runs from point
    i + 1 to i + 2. The running totals below the piece count therefore stop short of the
    total by the last two chords, and a length t * total beyond that runs off the end.
  */
  lemma {:induction false} SearchRunsOffEnd(lens: seq<real>, target: real)
    requires 3 <= |lens| && PaddedChordShape(lens) && 0.0 <= target
    requires Sum(lens) - lens[|lens| - 2] < target
    ensures Find(lens, target, 0.0, 0, |lens| - 2).None?
  {
    var m := |lens| - 2;
    SumNonNegative(lens[..m]);
    assert lens[..0] == [];
    SumStep(lens, m);
    SumStep(lens, m + 1);
    assert lens[..m + 2] == lens;
    forall j | 0 <= j < m ensures RunningTotal(lens, j) < target {
      SumPrefixBound(lens[..m], j + 1);
      assert lens[..m][..j + 1] == lens[..j + 1];
    }
    FindFirst(lens, target, 0, m);
  }

  /** Past the total less the last real chord, the as-written spline returns `_points[-2]`. */
  lemma EvaluateRunsOffEnd(pts: seq<Vec3>, lens: seq<real>, total: real, t: real)
    requires 4 <= |pts| && |lens| == |pts| - 1 && PaddedChordShape(lens) && total == Sum(lens)
    requires 0.0 <= total && 0.0 <= t <= 1.0 && total - lens[|lens| - 2] < total * t
    ensures Evaluate(pts, lens, total, t) == pts[|pts| - 2]
  {
    ProductNonNegative(total, t, total * t);
    SearchRunsOffEnd(lens, total * t);
    EvaluateOnPiece(pts, lens, total, t);
  }

  /**
    The lookup the code evidently intends: piece i is chosen by its own chord, from point
    i + 1 to i + 2 (chord i + 1).
  */
  function EvaluateCorrected(pts: seq<Vec3>, lens: seq<real>, total: real, t: real): Vec3
    requires 4 <= |pts| && |lens| == |pts| - 1 && NonNegative(lens) && 0.0 <= total
    requires 0.0 <= t <= 1.0
  {
    ProductNonNegative(total, t, total * t);
    match Find(lens[1..], total * t, 0.0, 0, |pts| - 3)
    case Some(p) => CatmullRom(pts[p.index], pts[p.index + 1], pts[p.index + 2], pts[p.index + 3], p.localT)
    case None => pts[|pts| - 2]
  }

  /**
    With the corrected lookup every length up to the total finds a piece: the chords of the
    pieces add up to the whole length, so the fallback is never taken.
  */
  lemma {:induction false} CorrectedSearchSucceeds(lens: seq<real>, target: real)
    requires 3 <= |lens| && PaddedChordShape(lens) && 0.0 <= target <= Sum(lens)
    ensures Find(lens[1..], target, 0.0, 0, |lens| - 2).Some?
  {
    var m := |lens| - 2;
    var inner := lens[1..];
    assert NonNegative(inner);
    assert inner[..0] == [];
    SumDropZeroHead(lens);
    SumStep(inner, m);
    assert inner[..m + 1] == inner;
    assert RunningTotal(inner, m - 1) == Sum(lens);
    FindFirst(inner, target, 0, m);
  }

  /** The corrected search finds a piece for every t in [0, 1]. */
  lemma CorrectedFindsPiece(lens: seq<real>, total: real, t: real)
    requires 3 <= |lens| && PaddedChordShape(lens) && total == Sum(lens) && 0.0 <= total && 0.0 <= t <= 1.0
    ensures (ProductNonNegative(total, t, total * t);
             Find(lens[1..], total * t, 0.0, 0, |lens| - 2).Some?)
  {
    ProductNonNegative(total, t, total * t);
    ProductNonNegative(total, 1.0 - t, total * (1.0 - t));
    CorrectedSearchSucceeds(lens, total * t);
  }

  /** The corrected value on the piece its search finds, or the fallback point. */
  lemma EvaluateCorrectedOnPiece(pts: seq<Vec3>, lens: seq<real>, total: real, t: real)
    requires 4 <= |pts| && |lens| == |pts| - 1 && NonNegative(lens) && 0.0 <= total
    requires 0.0 <= t <= 1.0
    ensures (ProductNonNegative(total, t, total * t);
             var r := Find(lens[1..], total * t, 0.0, 0, |pts| - 3);
             EvaluateCorrected(pts, lens, total, t) ==
               if r.Some? then
                 CatmullRom(pts[r.value.index], pts[r.value.index + 1], pts[r.value.index + 2], pts[r.value.index + 3], r.value.localT)
               else pts[|pts| - 2])
  {
  }

  /** The corrected lookup still starts the curve at the first control point. */
  lemma {:induction false} CorrectedStart(pts: seq<Vec3>, lens: seq<real>)
    requires 4 <= |pts| && |lens| == |pts| - 1 && PaddedChordShape(lens)
    ensures (SumNonNegative(lens); EvaluateCorrected(pts, lens, Sum(lens), 0.0) == pts[1])
  {
    SumNonNegative(lens);
    assert Sum(lens) * 0.0 == 0.0;
    assert lens[1..][0] == lens[1];
    var r := Find(lens[1..], 0.0, 0.0, 0, |pts| - 3);
    assert r.Some? && r.value.index == 0 && r.value.localT == 0.0;
    CatmullRomEnds(pts[0], pts[1], pts[2], pts[3]);
  }

  // ---------------------------------------------------------------- the spline object

  class Spline {
    /** `_points`: the padded control points. */
    var points: array<Vec3>
    /** `_segment_lengths`: the chord from each padded point to the next. */
    var segmentLengths: array<real>
    /** `_total_length`. */
    var totalLength: real
    /** `_num_points`: the number of padded points. */
    var numPoints: nat

    /** What the lookup relies on: matching sizes and the chord shape of a padded list. */
    ghost predicate Valid()
      reads this, points, segmentLengths
    {
      6 <= numPoints == points.Length && segmentLengths.Length == numPoints - 1 &&
      PaddedChordShape(segmentLengths[..]) && 0.0 <= totalLength
    }

    /** The arrays are those built from `control`, with chords measured by `sqrt`. */
    ghost predicate BuiltFrom(control: seq<Vec3>, sqrt: real -> real)
      reads this, points, segmentLengths
    {
      0 < |control| && points[..] == Padded(control) &&
      segmentLengths[..] == SegmentLengths(points[..], sqrt) && Totalled()
    }

    /** `_total_length` is the sum of the chords. */
    ghost predicate Totalled()
      reads this, segmentLengths
    {
      totalLength == Sum(segmentLengths[..])
    }

    /** `Spline(points)`: at least four control points are required. */
    constructor (input: seq<Vec3>, sqrt: real -> real)
      requires IsSqrt(sqrt) && 4 <= |input|
      ensures Valid() && BuiltFrom(input, sqrt)
      ensures fresh(points) && fresh(segmentLengths)
    {
      var pts := PadControl(input);
      var lens := ChordLengths(pts, sqrt);
      PaddedChords(input, sqrt);
      SumNonNegative(lens[..]);
      points, segmentLengths, numPoints := pts, lens, pts.Length;
      totalLength := Sum(lens[..]);
    }

    /** The padded array: zeros, the control points in the middle, the end points repeated. */
    static method PadControl(input: seq<Vec3>) returns (pts: array<Vec3>)
      requires 0 < |input|
      ensures fresh(pts) && pts[..] == Padded(input)
    {
      var n := |input|;
      pts := new Vec3[n + 2](_ => Zero);
      forall k | 1 <= k <= n {
        pts[k] := input[k - 1];
      }
      pts[0] := input[0];
      pts[n + 1] := input[n - 1];
      assert pts[..] == Padded(input);
    }

    /** The chord lengths of a point array, one per pair of neighbours. */
    static method ChordLengths(pts: array<Vec3>, sqrt: real -> real) returns (lens: array<real>)
      requires 0 < pts.Length
      ensures fresh(lens) && lens[..] == SegmentLengths(pts[..], sqrt)
    {
      lens := new real[pts.Length - 1](_ => 0.0);
      for i := 0 to pts.Length - 1
        invariant forall k :: 0 <= k < i ==> lens[k] == Dist(pts[k + 1], pts[k], sqrt)
      {
        lens[i] := Dist(pts[i + 1], pts[i], sqrt);
      }
      assert lens[..] == SegmentLengths(pts[..], sqrt);
    }

    /** `spline(t)` for t in [0, 1]. */
    method Call(t: real) returns (q: Vec3)
      requires Valid() && 0.0 <= t <= 1.0
      ensures q == Evaluate(points[..], segmentLengths[..], totalLength, t)
    {
      ghost var lens := segmentLengths[..];
      var target := totalLength * t;
      ProductNonNegative(totalLength, t, target);
      var acc := 0.0;
      var i := 0;
      while i < numPoints - 3
        invariant 0 <= i <= numPoints - 3 && acc <= target
        invariant Find(lens, target, 0.0, 0, numPoints - 3) == Find(lens, target, acc, i, numPoints - 3)
      {
        if acc + segmentLengths[i] >= target {
          var local := 0.0;
          if segmentLengths[i] != 0.0 {
            local := (target - acc) / segmentLengths[i];
          }
          assert Find(lens, target, acc, i, numPoints - 3) == Some(Piece(i, local));
          q := CatmullRom(points[i], points[i + 1], points[i + 2], points[i + 3], local);
          assert numPoints == points.Length;
          EvaluateOnPiece(points[..], lens, totalLength, t);
          return;
        }
        acc := acc + segmentLengths[i];
        i := i + 1;
      }
      assert Find(lens, target, acc, i, numPoints - 3).None?;
      assert numPoints == points.Length;
      q := points[numPoints - 2];
      EvaluateOnPiece(points[..], lens, totalLength, t);
    }

    /**
      `spline(t)` with the lookup corrected: piece i is compared with its own chord,
      `_segment_lengths[i + 1]`.
    */
    method CallCorrected(t: real) returns (q: Vec3)
      requires Valid() && 0.0 <= t <= 1.0
      ensures q == EvaluateCorrected(points[..], segmentLengths[..], totalLength, t)
    {
      ghost var lens := segmentLengths[..][1..];
      var target := totalLength * t;
      ProductNonNegative(totalLength, t, target);
      var acc := 0.0;
      var i := 0;
      while i < numPoints - 3
        invariant 0 <= i <= numPoints - 3 && acc <= target
        invariant Find(lens, target, 0.0, 0, numPoints - 3) == Find(lens, target, acc, i, numPoints - 3)
      {
        if acc + segmentLengths[i + 1] >= target {
          var local := 0.0;
          if segmentLengths[i + 1] != 0.0 {
            local := (target - acc) / segmentLengths[i + 1];
          }
          assert Find(lens, target, acc, i, numPoints - 3) == Some(Piece(i, local));
          q := CatmullRom(points[i], points[i + 1], points[i + 2], points[i + 3], local);
          assert numPoints == points.Length;
          EvaluateCorrectedOnPiece(points[..], segmentLengths[..], totalLength, t);
          return;
        }
        acc := acc + segmentLengths[i + 1];
        i := i + 1;
      }
      assert Find(lens, target, acc, i, numPoints - 3).None?;
      assert numPoints == points.Length;
      q := points[numPoints - 2];
      EvaluateCorrectedOnPiece(points[..], segmentLengths[..], totalLength, t);
    }

    /**
      As written, every t with t * total beyond the total less the last real chord returns
      the last control point: the curve stops short and stays there.
    */
    lemma AsWrittenStallsAtEnd(control: seq<Vec3>, sqrt: real -> real, t: real)
      requires Valid() && BuiltFrom(control, sqrt) && 0.0 <= t <= 1.0
      requires totalLength - segmentLengths[numPoints - 3] < totalLength * t
      ensures Evaluate(points[..], segmentLengths[..], totalLength, t) == control[|control| - 1]
    {
      var pts, lens := points[..], segmentLengths[..];
      assert pts[|pts| - 2] == control[|control| - 1];
      EvaluateRunsOffEnd(pts, lens, totalLength, t);
    }

    /** With the corrected lookup every t in [0, 1] lies on a piece: no fallback. */
    lemma CorrectedNeverFallsBack(t: real)
      requires Valid() && Totalled() && 0.0 <= t <= 1.0
      ensures (ProductNonNegative(totalLength, t, totalLength * t);
               Find(segmentLengths[..][1..], totalLength * t, 0.0, 0, numPoints - 3).Some?)
    {
      var lens := segmentLengths[..];
      assert |lens| - 2 == numPoints - 3 && totalLength == Sum(lens);
      CorrectedFindsPiece(lens, totalLength, t);
      ProductNonNegative(totalLength, t, totalLength * t);
      assert NonNegative(lens[1..]);
      assert Find(lens[1..], totalLength * t, 0.0, 0, |lens| - 2).Some?;
      assert Find(lens[1..], totalLength * t, 0.0, 0, numPoints - 3).Some?;
    }

    /** The spline starts at its first control point. */
    lemma StartsAtFirstControlPoint(control: seq<Vec3>, sqrt: real -> real)
      requires Valid() && BuiltFrom(control, sqrt)
      ensures Evaluate(points[..], segmentLengths[..], totalLength, 0.0) == control[0]
    {
      var pts, lens := points[..], segmentLengths[..];
      assert pts[1] == control[0];
      EvaluateStart(pts, lens);
    }
  }

  // ---------------------------------------------------------------- Sloan's frames

  /** The tangent, normal and binormal lists of `sloan_method`. */
  datatype Frames = Frames(ts: seq<Vec3>, ns: seq<Vec3>, bs: seq<Vec3>)

  /** The upward binormal the first frame starts from. */
  const InitialBinormal: Vec3 := Vec3(0.0, 0.0, 1.0)

  /** The first frame: T along the first chord, N = unit(B0 x T), B = T x N. */
  function FirstFrame(p0: Vec3, p1: Vec3, sqrt: real -> real): (f: (Vec3, Vec3, Vec3)) {
    var t := Unit(Sub(p1, p0), sqrt);
    var n := Unit(Cross(InitialBinormal, t), sqrt);
    (t, n, Cross(t, n))
  }

  /** A later frame: T along the chord, B = unit(T' x N'), N = unit(B x T) from the previous T', N'. */
  function NextFrame(prevT: Vec3, prevN: Vec3, p: Vec3, q: Vec3, sqrt: real -> real): (f: (Vec3, Vec3, Vec3)) {
    var t := Unit(Sub(q, p), sqrt);
    var b := Unit(Cross(prevT, prevN), sqrt);
    (t, Unit(Cross(b, t), sqrt), b)
  }

  /** The frames after the first k iterations of the loop, 1 <= k <= |points| - 1. */
  function FramesUpTo(points: seq<Vec3>, k: nat, sqrt: real -> real): (f: Frames)
    requires 1 <= k < |points|
    ensures |f.ts| == k && |f.ns| == k && |f.bs| == k
    decreases k
  {
    if k == 1 then
      var (t, n, b) := FirstFrame(points[0], points[1], sqrt);
      Frames([t], [n], [b])
    else
      var prev := FramesUpTo(points, k - 1, sqrt);
      var (t, n, b) := NextFrame(prev.ts[k - 2], prev.ns[k - 2], points[k - 1], points[k], sqrt);
      Frames(prev.ts + [t], prev.ns + [n], prev.bs + [b])
  }

  /** The loop's frames with the last one repeated for the last point. */
  function Sloan(points: seq<Vec3>, sqrt: real -> real): Frames
    requires 2 <= |points|
  {
    var f := FramesUpTo(points, |points| - 1, sqrt);
    var m := |points| - 2;
    Frames(f.ts + [f.ts[m]], f.ns + [f.ns[m]], f.bs + [f.bs[m]])
  }

  /** `sloan_method(points)`; a list of fewer than two points has no chord (`Ts[-1]` raises). */
  method SloanMethod(points: seq<Vec3>, sqrt: real -> real) returns (ts: seq<Vec3>, ns: seq<Vec3>, bs: seq<Vec3>)
    requires 2 <= |points|
    ensures Frames(ts, ns, bs) == Sloan(points, sqrt)
  {
    var n := |points|;
    ts, ns, bs := [], [], [];
    var normal := Zero;
    for i := 0 to n - 1
      invariant i >= 1 ==> Frames(ts, ns, bs) == FramesUpTo(points, i, sqrt) && normal == ns[i - 1]
      invariant i == 0 ==> ts == [] && ns == [] && bs == []
    {
      var t, b;
      if i == 0 {
        t := Unit(Sub(points[i + 1], points[i]), sqrt);
        b := InitialBinormal;
        normal := Unit(Cross(b, t), sqrt);
        b := Cross(t, normal);
      } else {
        t := Unit(Sub(points[i + 1], points[i]), sqrt);
        b := Unit(Cross(ts[|ts| - 1], normal), sqrt);
        normal := Unit(Cross(b, t), sqrt);
      }
      ts, ns, bs := ts + [t], ns + [normal], bs + [b];
    }
    ts, ns, bs := ts + [ts[|ts| - 1]], ns + [ns[|ns| - 1]], bs + [bs[|bs| - 1]];
  }

  /** One frame per point, and the last frame repeats the one before it. */
  lemma SloanShape(points: seq<Vec3>, sqrt: real -> real)
    requires 2 <= |points|
    ensures var f := Sloan(points, sqrt);
            var m := |points| - 1;
            |f.ts| == |points| && |f.ns| == |points| && |f.bs| == |points| &&
            f.ts[m] == f.ts[m - 1] && f.ns[m] == f.ns[m - 1] && f.bs[m] == f.bs[m - 1]
  {
  }

  /** In each of the frames the normal is orthogonal to the tangent and to the binormal. */
  predicate NormalsOrthogonal(f: Frames)
    requires |f.ns| == |f.ts| == |f.bs|
  {
    forall j :: 0 <= j < |f.ns| ==> Dot(f.ns[j], f.ts[j]) == 0.0 && Dot(f.ns[j], f.bs[j]) == 0.0
  }

  /** In every frame the normal is orthogonal to the tangent and to the binormal. */
  lemma {:induction false} FramesNormalOrthogonal(points: seq<Vec3>, k: nat, sqrt: real -> real)
    requires 1 <= k < |points|
    ensures NormalsOrthogonal(FramesUpTo(points, k, sqrt))
    decreases k
  {
    var f := FramesUpTo(points, k, sqrt);
    if k == 1 {
      FirstFrameOrthogonal(points[0], points[1], sqrt);
    } else {
      var prev := FramesUpTo(points, k - 1, sqrt);
      FramesNormalOrthogonal(points, k - 1, sqrt);
      var (t, n, b) := NextFrame(prev.ts[k - 2], prev.ns[k - 2], points[k - 1], points[k], sqrt);
      CrossOrthogonal(b, t);
      UnitOrthogonal(Cross(b, t), t, sqrt);
      UnitOrthogonal(Cross(b, t), b, sqrt);
      assert f.ns[k - 1] == n && f.ts[k - 1] == t && f.bs[k - 1] == b;
      forall j | 0 <= j < k - 1
        ensures Dot(f.ns[j], f.ts[j]) == 0.0 && Dot(f.ns[j], f.bs[j]) == 0.0
      {
        assert f.ns[j] == prev.ns[j] && f.ts[j] == prev.ts[j] && f.bs[j] == prev.bs[j];
      }
    }
  }

  /** The first frame is mutually orthogonal. */
  lemma FirstFrameOrthogonal(p0: Vec3, p1: Vec3, sqrt: real -> real)
    ensures var (t, n, b) := FirstFrame(p0, p1, sqrt);
            Dot(n, t) == 0.0 && Dot(n, b) == 0.0 && Dot(t, b) == 0.0
  {
    var (t, n, b) := FirstFrame(p0, p1, sqrt);
    CrossOrthogonal(InitialBinormal, t);
    UnitOrthogonal(Cross(InitialBinormal, t), t, sqrt);
    CrossOrthogonal(t, n);
  }

  /**
    The frames `sloan_method` returns: N is orthogonal to T and to B in every frame, and the
    first frame is mutually orthogonal.
  */
  lemma SloanOrthogonal(points: seq<Vec3>, sqrt: real -> real)
    requires 2 <= |points|
    ensures var f := Sloan(points, sqrt);
            |f.ns| == |f.ts| == |f.bs| == |points| && NormalsOrthogonal(f) &&
            Dot(f.ts[0], f.bs[0]) == 0.0
  {
    var m := |points| - 1;
    var inner := FramesUpTo(points, m, sqrt);
    var f := Sloan(points, sqrt);
    FramesNormalOrthogonal(points, m, sqrt);
    FirstFrameOrthogonal(points[0], points[1], sqrt);
    FirstFrameIsFirst(points, m, sqrt);
    forall j | 0 <= j < |points|
      ensures Dot(f.ns[j], f.ts[j]) == 0.0 && Dot(f.ns[j], f.bs[j]) == 0.0
    {
      var jj := if j < m then j else m - 1;
      assert f.ns[j] == inner.ns[jj] && f.ts[j] == inner.ts[jj] && f.bs[j] == inner.bs[jj];
    }
  }

  /** Later iterations never rewrite the first frame. */
  lemma {:induction false} FirstFrameIsFirst(points: seq<Vec3>, k: nat, sqrt: real -> real)
    requires 1 <= k < |points|
    ensures var f := FramesUpTo(points, k, sqrt);
            (f.ts[0], f.ns[0], f.bs[0]) == FirstFrame(points[0], points[1], sqrt)
    decreases k
  {
    if k > 1 {
      FirstFrameIsFirst(points, k - 1, sqrt);
    }
  }
}

/**
  The railway of the ride: the control points read from the track file are flipped and
  scaled, a Catmull-Rom spline through them is sampled at evenly spaced parameters, Sloan's
  frames are computed for the samples, the right rail is the left one moved along the
  binormals, wooden ties are spaced along the track, and the camera rides above it.
*/
module Railway {
  import opened Vectors
  import opened Spline

  // ---------------------------------------------------------------- orientation

  /** The track file's y axis points the other way: y is negated, then all is scaled by 1.5. */
  function Oriented(p: Vec3): (q: Vec3) {
    Scale(1.5, Vec3(p.x, -p.y, p.z))
  }

  /** The orientation is undone by negating y again and dividing by 1.5. */
  function Unoriented(q: Vec3): (p: Vec3) {
    Vec3(q.x / 1.5, -(q.y / 1.5), q.z / 1.5)
  }

  lemma OrientedRoundTrip(p: Vec3)
    ensures Unoriented(Oriented(p)) == p
    ensures Oriented(Unoriented(p)) == p
  {
  }

  /** `points[:, 1] *= -1` followed by `points *= 1.5`, in place. */
  method Orient(points: array<Vec3>)
    modifies points
    ensures forall k :: 0 <= k < points.Length ==> points[k] == Oriented(old(points[k]))
  {
    forall k | 0 <= k < points.Length {
      points[k] := Vec3(points[k].x, -points[k].y, points[k].z);
    }
    forall k | 0 <= k < points.Length {
      points[k] := Scale(1.5, points[k]);
    }
  }

  // ---------------------------------------------------------------- sampling

  /** Sample k of `np.linspace(0, 0.99, n)`: k times the step 0.99 / (n - 1); just 0 when n is 1. */
  function Linspace(k: nat, n: nat): (t: real)
    requires k < n
  {
    if n == 1 then 0.0 else (k as real) * (0.99 / ((n - 1) as real))
  }

  /** The samples run from 0 to 0.99 in equal steps, so each lies in [0, 0.99]. */
  lemma LinspaceBounds(k: nat, n: nat)
    requires k < n
    ensures 0.0 <= Linspace(k, n) <= 0.99
    ensures k == 0 ==> Linspace(k, n) == 0.0
    ensures 2 <= n && k == n - 1 ==> Linspace(k, n) == 0.99
  {
    if n > 1 {
      var d := (n - 1) as real;
      var step := 0.99 / d;
      assert step * d == 0.99;
      ProductNonNegative(k as real, step, (k as real) * step);
      ProductNonNegative(d - k as real, step, (d - k as real) * step);
    }
  }

  /** Later samples have larger parameters. */
  lemma LinspaceIncreasing(j: nat, k: nat, n: nat)
    requires j < k < n
    ensures Linspace(j, n) < Linspace(k, n)
  {
    var step := 0.99 / ((n - 1) as real);
    ProductPositive((k - j) as real, step, ((k - j) as real) * step);
  }

  /** `list(map(spline, np.linspace(0, 0.99, num_steps)))`: the spline at each sample. */
  method SampleSpline(spline: Spline, numSteps: nat) returns (samples: seq<Vec3>)
    requires spline.Valid()
    ensures |samples| == numSteps
    ensures forall k :: 0 <= k < numSteps ==>
              (LinspaceBounds(k, numSteps);
               samples[k] == Evaluate(spline.points[..], spline.segmentLengths[..], spline.totalLength, Linspace(k, numSteps)))
  {
    samples := [];
    for k := 0 to numSteps
      invariant |samples| == k
      invariant forall j :: 0 <= j < k ==>
                  (LinspaceBounds(j, numSteps);
                   samples[j] == Evaluate(spline.points[..], spline.segmentLengths[..], spline.totalLength, Linspace(j, numSteps)))
    {
      LinspaceBounds(k, numSteps);
      var q := spline.Call(Linspace(k, numSteps));
      samples := samples + [q];
    }
  }

  // ---------------------------------------------------------------- the track curve

  /** The control points after `Orient`. */
  function OrientedAll(raw: seq<Vec3>): (o: seq<Vec3>) {
    seq(|raw|, i requires 0 <= i < |raw| => Oriented(raw[i]))
  }

  /** The chords of the padded, oriented control points. */
  function TrackChords(raw: seq<Vec3>, sqrt: real -> real): (lens: seq<real>)
    requires 0 < |raw|
  {
    SegmentLengths(Padded(OrientedAll(raw)), sqrt)
  }

  /** `spline(t)` for the spline through the oriented control points, with its lookup as written. */
  function Track(raw: seq<Vec3>, sqrt: real -> real, t: real): Vec3
    requires IsSqrt(sqrt) && 4 <= |raw| && 0.0 <= t <= 1.0
  {
    var control := OrientedAll(raw);
    var lens := TrackChords(raw, sqrt);
    PaddedChords(control, sqrt);
    SumNonNegative(lens);
    Evaluate(Padded(control), lens, Sum(lens), t)
  }

  /** The track starts at the first control point of the file, oriented. */
  lemma TrackStart(raw: seq<Vec3>, sqrt: real -> real)
    requires IsSqrt(sqrt) && 4 <= |raw|
    ensures Track(raw, sqrt, 0.0) == Oriented(raw[0])
  {
    EvaluateAtZero(OrientedAll(raw), sqrt);
  }

  /** The end stall of the as-written lookup, on any padded list and chords of the padded shape. */
  lemma PaddedStallsAtEnd(control: seq<Vec3>, lens: seq<real>, t: real)
    requires 4 <= |control| && |lens| == |control| + 1 && PaddedChordShape(lens) && 0.0 <= t <= 1.0
    requires Sum(lens) - lens[|lens| - 2] < Sum(lens) * t
    ensures (SumNonNegative(lens); Evaluate(Padded(control), lens, Sum(lens), t) == control[|control| - 1])
  {
    SumNonNegative(lens);
    var pts := Padded(control);
    EvaluateRunsOffEnd(pts, lens, Sum(lens), t);
    assert pts[|pts| - 2] == control[|control| - 1];
  }

  /**
    Every parameter whose length t * total lies beyond the total less the last real chord
    gives the last control point: those samples of the railway all coincide there.
  */
  lemma TrackStallsAtEnd(raw: seq<Vec3>, sqrt: real -> real, t: real)
    requires IsSqrt(sqrt) && 4 <= |raw| && 0.0 <= t <= 1.0
    requires var lens := TrackChords(raw, sqrt);
             2 <= |lens| && Sum(lens) - lens[|lens| - 2] < Sum(lens) * t
    ensures Track(raw, sqrt, t) == Oriented(raw[|raw| - 1])
  {
    var control := OrientedAll(raw);
    var lens := TrackChords(raw, sqrt);
    assert Sum(lens) - lens[|lens| - 2] < Sum(lens) * t;
    PaddedChords(control, sqrt);
    PaddedStallsAtEnd(control, lens, t);
  }

  /** Samples of the spline built from the oriented points are samples of the track. */
  lemma SamplesOnTrack(raw: seq<Vec3>, sqrt: real -> real, pts: seq<Vec3>, lens: seq<real>,
                       samples: seq<Vec3>, n: nat)
    requires IsSqrt(sqrt) && 4 <= |raw| && |samples| == n
    requires pts == Padded(OrientedAll(raw)) && lens == TrackChords(raw, sqrt)
    requires |lens| == |pts| - 1 && NonNegative(lens) && 0.0 <= Sum(lens)
    requires forall k :: 0 <= k < n ==>
               (LinspaceBounds(k, n); samples[k] == Evaluate(pts, lens, Sum(lens), Linspace(k, n)))
    ensures forall k :: 0 <= k < n ==>
              (LinspaceBounds(k, n); samples[k] == Track(raw, sqrt, Linspace(k, n)))
  {
    forall k | 0 <= k < n
      ensures (LinspaceBounds(k, n); samples[k] == Track(raw, sqrt, Linspace(k, n)))
    {
      LinspaceBounds(k, n);
    }
  }

  // ---------------------------------------------------------------- length and rails

  /** `np.linalg.norm(points[1:] - points[:-1], axis=1).sum()`: the length of the polyline. */
  function PathLength(points: seq<Vec3>, sqrt: real -> real): real {
    if |points| == 0 then 0.0 else Sum(SegmentLengths(points, sqrt))
  }

  /** One more sample adds the distance from the previous last sample. */
  lemma PathLengthAppend(points: seq<Vec3>, q: Vec3, sqrt: real -> real)
    requires 0 < |points|
    ensures PathLength(points + [q], sqrt) == PathLength(points, sqrt) + Dist(q, points[|points| - 1], sqrt)
  {
    var p := points + [q];
    var lens := SegmentLengths(p, sqrt);
    assert lens[..|lens| - 1] == SegmentLengths(points, sqrt);
  }

  /** The length is never negative. */
  lemma PathLengthNonNegative(points: seq<Vec3>, sqrt: real -> real)
    requires IsSqrt(sqrt)
    ensures 0.0 <= PathLength(points, sqrt)
  {
    if |points| > 0 {
      SegmentLengthsNonNegative(points, sqrt);
      SumNonNegative(SegmentLengths(points, sqrt));
    }
  }

  /** The spacing between the two rails along the binormal. */
  const RailOffset: real := 0.1

  /** `points + offset * np.array(Bs)`: the right rail. */
  function RightRail(points: seq<Vec3>, bs: seq<Vec3>): (right: seq<Vec3>)
    requires |bs| == |points|
  {
    seq(|points|, k requires 0 <= k < |points| => Add(points[k], Scale(RailOffset, bs[k])))
  }

  /**
    The right rail has a point for every left point, 0.1 B away from it; where N is
    orthogonal to B (every frame of Sloan's method), the rails are level with each other
    along N.
  */
  lemma RightRailOffset(points: seq<Vec3>, bs: seq<Vec3>, ns: seq<Vec3>, k: nat)
    requires |bs| == |points| == |ns| && k < |points|
    requires Dot(ns[k], bs[k]) == 0.0
    ensures var right := RightRail(points, bs);
            |right| == |points| && Sub(right[k], points[k]) == Scale(RailOffset, bs[k]) &&
            Dot(ns[k], Sub(right[k], points[k])) == 0.0
  {
    DotScale(RailOffset, bs[k], ns[k]);
  }

  // ---------------------------------------------------------------- ties

  const TieSpacing: real := 5.0

  /** `int(total_length // tie_spacing)` for a non-negative length. */
  function NumTies(total: real): (n: nat)
    requires 0.0 <= total
  {
    (total / TieSpacing).Floor
  }

  /** The ties fit in the length: n ties span at most the total, one more would not. */
  lemma NumTiesFits(total: real)
    requires 0.0 <= total
    ensures (NumTies(total) as real) * TieSpacing <= total < ((NumTies(total) + 1) as real) * TieSpacing
  {
  }

  /** `int(i / num_ties * len(points))`: the sample the tie i sits on. */
  function TieIndex(i: nat, numTies: nat, len: nat): (idx: int)
    requires i < numTies
  {
    ((i as real) / (numTies as real) * (len as real)).Floor
  }

  /** Every tie sits on an existing sample, and later ties never sit on earlier samples. */
  lemma TieIndexInRange(i: nat, numTies: nat, len: nat)
    requires i < numTies && 0 < len
    ensures 0 <= TieIndex(i, numTies, len) < len
    ensures i == 0 ==> TieIndex(i, numTies, len) == 0
  {
    var f := (i as real) / (numTies as real);
    assert f * (numTies as real) == i as real;
    assert 0.0 <= f < 1.0;
    ProductNonNegative(f, len as real, f * (len as real));
    assert f * (len as real) < len as real by {
      ProductPositive(1.0 - f, len as real, (1.0 - f) * (len as real));
    }
  }

  /** Tie indices do not decrease. */
  lemma TieIndexMonotone(i: nat, j: nat, numTies: nat, len: nat)
    requires i <= j < numTies
    ensures TieIndex(i, numTies, len) <= TieIndex(j, numTies, len)
  {
    var d := numTies as real;
    var fi, fj := (i as real) / d, (j as real) / d;
    assert fj - fi == ((j - i) as real) / d;
    ProductNonNegative(fj - fi, len as real, (fj - fi) * (len as real));
  }

  /** The positions of the ties drawn by `draw`, one per tie, in tie order. */
  method TiePositions(points: seq<Vec3>, total: real) returns (positions: seq<Vec3>)
    requires 0.0 <= total && 0 < |points|
    ensures |positions| == NumTies(total)
    ensures forall i :: 0 <= i < |positions| ==>
              (TieIndexInRange(i, NumTies(total), |points|);
               positions[i] == points[TieIndex(i, NumTies(total), |points|)])
  {
    var numTies := NumTies(total);
    positions := [];
    for i := 0 to numTies
      invariant |positions| == i
      invariant forall j :: 0 <= j < i ==>
                  (TieIndexInRange(j, numTies, |points|);
                   positions[j] == points[TieIndex(j, numTies, |points|)])
    {
      var t := (i as real) / (numTies as real);
      var idx := (t * (|points| as real)).Floor;
      assert idx == TieIndex(i, numTies, |points|);
      TieIndexInRange(i, numTies, |points|);
      positions := positions + [points[idx]];
    }
  }

  // ---------------------------------------------------------------- the camera

  /** The eye, the point looked at and the up direction given to `create_look_at`. */
  datatype Camera = Camera(eye: Vec3, lookat: Vec3, up: Vec3)

  /** The lift of the eye above the track, along the world y axis. */
  const Lift: Vec3 := Vec3(0.0, 2.0, 0.0)

  /** `int(t * (len(points) - 1))`: the sample the camera sits at. */
  function CameraIndex(t: real, len: nat): (idx: int)
    requires 0.0 <= t <= 1.0 && 0 < len
  {
    (t * ((len - 1) as real)).Floor
  }

  /** The camera sits on an existing sample: the first at t = 0 and the last at t = 1. */
  lemma CameraIndexInRange(t: real, len: nat)
    requires 0.0 <= t <= 1.0 && 0 < len
    ensures 0 <= CameraIndex(t, len) < len
    ensures t == 0.0 ==> CameraIndex(t, len) == 0
    ensures t == 1.0 ==> CameraIndex(t, len) == len - 1
  {
    var m := (len - 1) as real;
    ProductNonNegative(t, m, t * m);
    ProductNonNegative(1.0 - t, m, (1.0 - t) * m);
  }

  /** `get_camera_along_railway(t)`, without the look-at matrix it is turned into. */
  function CameraAt(points: seq<Vec3>, ts: seq<Vec3>, ns: seq<Vec3>, bs: seq<Vec3>, t: real): (c: Camera)
    requires 0.0 <= t <= 1.0 && 0 < |points| && |ts| == |ns| == |bs| == |points|
  {
    CameraIndexInRange(t, |points|);
    var i := CameraIndex(t, |points|);
    var eye := Add(Add(points[i], Scale(1.0, bs[i])), Lift);
    Camera(eye, Add(eye, ts[i]), ns[i])
  }

  /**
    The eye is the sample moved by its binormal and lifted by 2, the camera looks along the
    tangent of the sample and its up direction is the sample's normal.
  */
  lemma CameraFrame(points: seq<Vec3>, ts: seq<Vec3>, ns: seq<Vec3>, bs: seq<Vec3>, t: real)
    requires 0.0 <= t <= 1.0 && 0 < |points| && |ts| == |ns| == |bs| == |points|
    ensures (CameraIndexInRange(t, |points|);
             var i := CameraIndex(t, |points|);
             var c := CameraAt(points, ts, ns, bs, t);
             Sub(c.lookat, c.eye) == ts[i] && c.up == ns[i] &&
             Sub(Sub(c.eye, Lift), points[i]) == bs[i])
  {
  }

  // ---------------------------------------------------------------- rail vertices

  /** One row of `np.concatenate((points, colors, Ns, Ts), axis=1)`: 12 values, zero colour. */
  function RailVertex(p: Vec3, n: Vec3, t: Vec3): (row: seq<real>) {
    [p.x, p.y, p.z, 0.0, 0.0, 0.0, n.x, n.y, n.z, t.x, t.y, t.z]
  }

  /** The vertex rows of a rail, one per sample. */
  function RailVertices(points: seq<Vec3>, ns: seq<Vec3>, ts: seq<Vec3>): (rows: seq<seq<real>>)
    requires |ns| == |ts| == |points|
  {
    seq(|points|, k requires 0 <= k < |points| => RailVertex(points[k], ns[k], ts[k]))
  }

  /** The three attributes read back from a row at the offsets 0, 6 and 9 of the stride 12. */
  function Attribute(row: seq<real>, offset: nat): Vec3
    requires offset + 3 <= |row|
  {
    Vec3(row[offset], row[offset + 1], row[offset + 2])
  }

  /** Reading the attributes back gives position, black, normal and tangent. */
  lemma RailVertexLayout(points: seq<Vec3>, ns: seq<Vec3>, ts: seq<Vec3>, k: nat)
    requires |ns| == |ts| == |points| && k < |points|
    ensures var rows := RailVertices(points, ns, ts);
            |rows| == |points| && |rows[k]| == 12 &&
            Attribute(rows[k], 0) == points[k] && Attribute(rows[k], 3) == Zero &&
            Attribute(rows[k], 6) == ns[k] && Attribute(rows[k], 9) == ts[k]
  {
  }

  // ---------------------------------------------------------------- the railway

  class RailwayEntity {
    /** `_points`: the spline samples. */
    var points: seq<Vec3>
    var ts: seq<Vec3>
    var ns: seq<Vec3>
    var bs: seq<Vec3>
    /** `_total_length`. */
    var totalLength: real
    /** The points of the right rail. */
    var rightRail: seq<Vec3>

    ghost predicate Valid()
      reads this
    {
      0 < |points| && |ts| == |points| && |ns| == |points| && |bs| == |points| &&
      |rightRail| == |points| && 0.0 <= totalLength
    }

    /**
      `RailwayEntity(...)` from the control points read from the track file (at least four,
      as the spline requires) and at least two samples, as Sloan's method needs.
    */
    constructor (raw: seq<Vec3>, numSteps: nat, sqrt: real -> real)
      requires IsSqrt(sqrt) && 4 <= |raw| && 2 <= numSteps
      ensures Valid()
      ensures |points| == numSteps
      ensures forall k :: 0 <= k < numSteps ==>
                (LinspaceBounds(k, numSteps); points[k] == Track(raw, sqrt, Linspace(k, numSteps)))
      ensures points[0] == Oriented(raw[0])
      ensures Frames(ts, ns, bs) == Sloan(points, sqrt)
      ensures totalLength == PathLength(points, sqrt)
      ensures rightRail == RightRail(points, bs)
    {
      var control := new Vec3[|raw|](k requires 0 <= k < |raw| => raw[k]);
      Orient(control);
      assert control[..] == OrientedAll(raw);
      var spline := new Spline(control[..], sqrt);
      var samples := SampleSpline(spline, numSteps);
      ghost var pts, lens := spline.points[..], spline.segmentLengths[..];
      SamplesOnTrack(raw, sqrt, pts, lens, samples, numSteps);
      LinspaceBounds(0, numSteps);
      TrackStart(raw, sqrt);
      var t, n, b := SloanMethod(samples, sqrt);
      PathLengthNonNegative(samples, sqrt);
      points, ts, ns, bs := samples, t, n, b;
      totalLength := PathLength(samples, sqrt);
      rightRail := RightRail(samples, b);
    }

    /** The tie positions `draw` moves the tie model to. */
    method Ties() returns (positions: seq<Vec3>)
      requires Valid()
      ensures |positions| == NumTies(totalLength)
      ensures forall i :: 0 <= i < |positions| ==>
                (TieIndexInRange(i, NumTies(totalLength), |points|);
                 positions[i] == points[TieIndex(i, NumTies(totalLength), |points|)])
    {
      positions := TiePositions(points, totalLength);
    }

    /** `get_camera_along_railway(t)`. */
    method CameraAlong(t: real) returns (c: Camera)
      requires Valid() && 0.0 <= t <= 1.0
      ensures c == CameraAt(points, ts, ns, bs, t)
    {
      var index := (t * ((|points| - 1) as real)).Floor;
      CameraIndexInRange(t, |points|);
      var eye := Add(Add(points[index], Scale(1.0, bs[index])), Lift);
      c := Camera(eye, Add(eye, ts[index]), ns[index]);
    }
  }
}

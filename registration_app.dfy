/**
  The state of the scan-registration viewer: the loaded scans, one pose per scan, the scan
  being registered and how many scans have been brought in. Scan 0 is the fixed target; an
  ICP step moves the current scan's pose by the increment one registration returns.
  Mesh loading, centring, rendering and the mouse-driven pose edits are not modelled.
*/
module RegistrationApp {
  import opened Vectors
  import opened Transformation
  import opened LeastSquares
  import opened Registration
  import opened Closest
  import opened Sampling
  import opened Matching

  /** A triangle mesh as the registration sees it: its vertex positions and vertex normals. */
  datatype Mesh = Mesh(points: seq<Vec3>, normals: seq<Vec3>)

  /** Subsampling radius: eight times the average edge length. */
  const RadiusFactor: real := 8.0

  /** The selected vertices of a scan, moved by its current pose. */
  function PosedSamples(pose: Transform, pts: seq<Vec3>, sampled: seq<nat>): (src: seq<Vec3>)
    requires InRange(sampled, |pts|)
    ensures |src| == |sampled|
    ensures forall k :: 0 <= k < |sampled| ==> src[k] == TransformPoint(pose, pts[sampled[k]])
  {
    seq(|sampled|, k requires 0 <= k < |sampled| => TransformPoint(pose, pts[sampled[k]]))
  }

  /**
    The increment one registration step returns: the posed samples of the scan are paired
    with the target scan, and the surviving pairs are registered point-to-surface when
    `tangential` holds and point-to-point otherwise.
  */
  function Increment(target: Mesh, pts: seq<Vec3>, pose: Transform, sampled: seq<nat>, tangential: bool,
                     sqrt: real -> real, median: seq<real> -> real,
                     lstsq: (nat, seq<seq<real>>, seq<real>) -> seq<real>,
                     sin: real -> real, cos: real -> real): Transform
    requires InRange(sampled, |pts|) && |target.normals| == |target.points| && IsLstsq(lstsq)
  {
    var pairs := Correspondences(PosedSamples(pose, pts, sampled), target.points, target.normals, sqrt, median);
    if tangential then SurfaceRegistration(SourcesOf(pairs), TargetsOf(pairs), NormalsOf(pairs), lstsq, sin, cos)
    else PointRegistration(SourcesOf(pairs), TargetsOf(pairs), lstsq, sin, cos)
  }

  /** Lists owned by the caller of the correspondence search, which appends to them. */
  class CorrespondenceLists {
    var sources: seq<Vec3>
    var targets: seq<Vec3>
    var normals: seq<Vec3>

    constructor ()
      ensures sources == [] && targets == [] && normals == []
    {
      sources, targets, normals := [], [], [];
    }

    /** The lists hold their contents `sources0`, `targets0`, `normals0` followed by the parts of `pairs`. */
    ghost predicate Extends(sources0: seq<Vec3>, targets0: seq<Vec3>, normals0: seq<Vec3>, pairs: seq<Candidate>)
      reads this
    {
      sources == sources0 + SourcesOf(pairs) && targets == targets0 + TargetsOf(pairs) && normals == normals0 + NormalsOf(pairs)
    }

    /** `src_f.append(c.source)`, `target_f.append(c.target)` and `target_n_f.append(c.normal)`. */
    method Append(c: Candidate, ghost sources0: seq<Vec3>, ghost targets0: seq<Vec3>, ghost normals0: seq<Vec3>,
                  ghost pairs: seq<Candidate>)
      requires Extends(sources0, targets0, normals0, pairs)
      modifies this
      ensures sources == old(sources) + [c.source] && targets == old(targets) + [c.target]
      ensures normals == old(normals) + [c.normal]
      ensures Extends(sources0, targets0, normals0, pairs + [c])
    {
      ProjectionsAppend(pairs, c);
      sources := sources + [c.source];
      targets := targets + [c.target];
      normals := normals + [c.normal];
    }
  }

  class RegistrationViewerApp {
    var meshes: seq<Mesh>
    var transformations: seq<Transform>
    var curIndex: int
    var numProcessed: int
    var sampledPoints: seq<nat>
    var averageVertexDistance: real

    /**
      One pose per scan, position and normal lists of equal length, and the current scan is
      always one of the scans brought in so far.
    */
    ghost predicate Valid()
      reads this
    {
      |transformations| == |meshes| &&
      (forall m :: m in meshes ==> |m.normals| == |m.points|) &&
      (if |meshes| == 0 then curIndex == 0 && numProcessed == 0
       else 0 <= curIndex < numProcessed <= |meshes|)
    }

    constructor ()
      ensures Valid()
      ensures meshes == [] && transformations == [] && sampledPoints == []
      ensures curIndex == 0 && numProcessed == 0 && averageVertexDistance == 0.0
    {
      meshes, transformations, sampledPoints := [], [], [];
      curIndex, numProcessed := 0, 0;
      averageVertexDistance := 0.0;
    }

    /**
      `open_meshes` after reading: each scan is appended with the identity pose, the average
      edge length of the last one loaded is kept, and the first two scans count as brought in.
    */
    method OpenMeshes(loaded: seq<Mesh>, averages: seq<real>)
      requires Valid() && |averages| == |loaded|
      requires forall m :: m in loaded ==> |m.normals| == |m.points|
      modifies this
      ensures Valid()
      ensures meshes == old(meshes) + loaded
      ensures transformations == old(transformations) + seq(|loaded|, _ => Identity)
      ensures averageVertexDistance == if |loaded| == 0 then old(averageVertexDistance) else averages[|loaded| - 1]
      ensures numProcessed == Min(2, |meshes|) && curIndex == Max(0, numProcessed - 1)
      ensures sampledPoints == old(sampledPoints)
    {
      for k := 0 to |loaded|
        invariant meshes == old(meshes) + loaded[..k]
        invariant transformations == old(transformations) + seq(k, _ => Identity)
        invariant averageVertexDistance == if k == 0 then old(averageVertexDistance) else averages[k - 1]
        invariant sampledPoints == old(sampledPoints)
      {
        meshes := meshes + [loaded[k]];
        transformations := transformations + [Identity];
        averageVertexDistance := averages[k];
        assert loaded[..k + 1] == loaded[..k] + [loaded[k]];
      }
      assert loaded[..|loaded|] == loaded;
      numProcessed := Min(2, |meshes|);
      curIndex := Max(0, numProcessed - 1);
    }

    /** The N key: move on to the next scan, bringing in one more if any is left. */
    method PressN()
      requires Valid() && |meshes| > 0
      modifies this
      ensures meshes == old(meshes) && transformations == old(transformations)
      ensures Valid()
      ensures sampledPoints == []
      ensures numProcessed == Min(old(numProcessed) + 1, |meshes|)
      ensures curIndex == (old(curIndex) + 1) % |meshes|
      ensures averageVertexDistance == old(averageVertexDistance)
    {
      sampledPoints := [];
      numProcessed := Min(numProcessed + 1, |meshes|);
      curIndex := (curIndex + 1) % |meshes|;
    }

    /**
      `subsample`: visit the points in the shuffled order `order` and keep a point when it is
      the first or when no kept point is nearer than the radius.
    */
    method Subsample(pts: seq<Vec3>, order: seq<nat>, sqrt: real -> real) returns (sampled: seq<nat>)
      requires IsPermutation(order, |pts|)
      ensures sampled == Greedy(pts, order, averageVertexDistance * RadiusFactor, sqrt)
    {
      var radius := averageVertexDistance * RadiusFactor;
      sampled := [];
      for n := 0 to |order|
        invariant sampled == Greedy(pts, order[..n], radius, sqrt)
      {
        var idx := order[n];
        var p := pts[idx];
        GreedyStep(pts, order, radius, sqrt, n);
        if |sampled| == 0 {
          sampled := sampled + [idx];
        } else {
          var keep := FarFromSampled(pts, sampled, p, radius, sqrt);
          if keep {
            sampled := sampled + [idx];
          }
        }
      }
      assert order[..|order|] == order;
    }

    /** The inner loop of `subsample`: compare p with every kept point, stopping at the first near one. */
    static method FarFromSampled(pts: seq<Vec3>, sampled: seq<nat>, p: Vec3, radius: real, sqrt: real -> real)
      returns (keep: bool)
      requires InRange(sampled, |pts|)
      ensures keep == FarFromAll(pts, sampled, p, radius, sqrt)
    {
      keep := true;
      var m := 0;
      while m < |sampled|
        invariant 0 <= m <= |sampled| && keep
        invariant InRange(sampled[..m], |pts|) && FarFromAll(pts, sampled[..m], p, radius, sqrt)
      {
        FarFromAllStep(pts, sampled, p, radius, sqrt, m);
        if Dist(p, pts[sampled[m]], sqrt) < radius {
          keep := false;
          break;
        }
        m := m + 1;
      }
      assert sampled[..|sampled|] == sampled;
    }

    /**
      `calculate_correspondences`: pair each source point with its closest target point, then
      append the pairs that pass the distance and normal tests to the caller's lists.
    */
    static method CalculateCorrespondences(src: seq<Vec3>, target: seq<Vec3>, targetNormals: seq<Vec3>,
                                    sqrt: real -> real, median: seq<real> -> real, lists: CorrespondenceLists)
      requires |targetNormals| == |target|
      modifies lists
      ensures var pairs := Correspondences(src, target, targetNormals, sqrt, median);
              lists.sources == old(lists.sources) + SourcesOf(pairs) &&
              lists.targets == old(lists.targets) + TargetsOf(pairs) &&
              lists.normals == old(lists.normals) + NormalsOf(pairs)
    {
      ghost var cs := Candidates(src, target, targetNormals, sqrt);
      var srcCandidates, targetCandidates, normalCandidates, distances :=
        CollectCandidates(src, target, targetNormals, sqrt);
      if |distances| == 0 {
        ProjectionsAppend([], Candidate(Zero, Zero, Zero, 0.0));
        return;
      }
      var threshold := DistanceFactor * median(distances);
      assert threshold == Threshold(cs, median);
      AppendAccepted(srcCandidates, targetCandidates, normalCandidates, distances, threshold, sqrt, lists, cs);
    }

    /** The first loop of `calculate_correspondences`: one candidate per answered closest-point query. */
    static method CollectCandidates(src: seq<Vec3>, target: seq<Vec3>, targetNormals: seq<Vec3>, sqrt: real -> real)
      returns (srcCandidates: seq<Vec3>, targetCandidates: seq<Vec3>, normalCandidates: seq<Vec3>, distances: seq<real>)
      requires |targetNormals| == |target|
      ensures var cs := Candidates(src, target, targetNormals, sqrt);
              srcCandidates == SourcesOf(cs) && targetCandidates == TargetsOf(cs) &&
              normalCandidates == NormalsOf(cs) && distances == CandidateDistances(cs)
    {
      ghost var cs: seq<Candidate> := [];
      srcCandidates, targetCandidates, normalCandidates, distances := [], [], [], [];
      ProjectionsAppend([], Candidate(Zero, Zero, Zero, 0.0));
      for k := 0 to |src|
        invariant cs == Candidates(src[..k], target, targetNormals, sqrt)
        invariant srcCandidates == SourcesOf(cs) && targetCandidates == TargetsOf(cs)
        invariant normalCandidates == NormalsOf(cs) && distances == CandidateDistances(cs)
      {
        CandidatesStep(src, target, targetNormals, sqrt, k);
        var point := src[k];
        var best := Nearest(target, point, sqrt);
        if best.None? {
          continue;
        }
        var bestIndex := best.value;
        var closest := target[bestIndex];
        var d := Dist(point, closest, sqrt);
        ghost var c := Candidate(point, closest, targetNormals[bestIndex], d);
        ProjectionsAppend(cs, c);
        cs := cs + [c];
        srcCandidates := srcCandidates + [point];
        targetCandidates := targetCandidates + [closest];
        normalCandidates := normalCandidates + [targetNormals[bestIndex]];
        distances := distances + [d];
      }
      assert src[..|src|] == src;
    }

    /** The second loop of `calculate_correspondences`: append every candidate that passes. */
    static method AppendAccepted(srcCandidates: seq<Vec3>, targetCandidates: seq<Vec3>, normalCandidates: seq<Vec3>,
                                 distances: seq<real>, threshold: real, sqrt: real -> real,
                                 lists: CorrespondenceLists, ghost cs: seq<Candidate>)
      requires srcCandidates == SourcesOf(cs) && targetCandidates == TargetsOf(cs)
      requires normalCandidates == NormalsOf(cs) && distances == CandidateDistances(cs)
      modifies lists
      ensures var pairs := Accepted(cs, threshold, sqrt);
              lists.sources == old(lists.sources) + SourcesOf(pairs) &&
              lists.targets == old(lists.targets) + TargetsOf(pairs) &&
              lists.normals == old(lists.normals) + NormalsOf(pairs)
    {
      ghost var accepted: seq<Candidate> := [];
      ghost var sources0, targets0, normals0 := lists.sources, lists.targets, lists.normals;
      ProjectionsAppend([], Candidate(Zero, Zero, Zero, 0.0));
      for i := 0 to |srcCandidates|
        invariant accepted == Accepted(cs[..i], threshold, sqrt)
        invariant lists.Extends(sources0, targets0, normals0, accepted)
      {
        AcceptedStep(cs, threshold, sqrt, i);
        var c := Candidate(srcCandidates[i], targetCandidates[i], normalCandidates[i], distances[i]);
        assert c == cs[i];
        var passes := PairPasses(c, threshold, sqrt);
        if !passes {
          continue;
        }
        lists.Append(c, sources0, targets0, normals0, accepted);
        accepted := accepted + [c];
      }
      assert cs[..|cs|] == cs;
    }

    /**
      The body of the second loop of `calculate_correspondences`: the distance test, the
      coincident-points test and the normal test, in that order.
    */
    static method PairPasses(c: Candidate, threshold: real, sqrt: real -> real) returns (passes: bool)
      ensures passes == Passes(c, threshold, sqrt)
    {
      var d := c.distance;
      if d > threshold {
        return false;
      }
      var vec := Sub(c.source, c.target);
      var normVec := Norm(vec, sqrt);
      if normVec == 0.0 {
        return false;
      }
      var vecUnit := Scale(1.0 / normVec, vec);
      var dotVal := Dot(vecUnit, c.normal);
      if dotVal < NormalThreshold {
        return false;
      }
      return true;
    }

    /**
      `perform_registration`: subsample the current scan, pair its posed samples with scan 0,
      register, and compose the increment onto the current pose. No other pose changes.
    */
    method PerformRegistration(tangential: bool, order: seq<nat>,
                               sqrt: real -> real, median: seq<real> -> real,
                               lstsq: (nat, seq<seq<real>>, seq<real>) -> seq<real>,
                               sin: real -> real, cos: real -> real)
      requires Valid() && |meshes| > 0
      requires IsPermutation(order, |meshes[curIndex].points|) && IsLstsq(lstsq)
      modifies this
      ensures meshes == old(meshes) && curIndex == old(curIndex) && numProcessed == old(numProcessed)
      ensures averageVertexDistance == old(averageVertexDistance)
      ensures Valid()
      ensures sampledPoints == Greedy(meshes[curIndex].points, order, averageVertexDistance * RadiusFactor, sqrt)
      ensures transformations ==
              old(transformations)[curIndex := Compose(
                Increment(meshes[0], meshes[curIndex].points, old(transformations)[curIndex], sampledPoints,
                          tangential, sqrt, median, lstsq, sin, cos),
                old(transformations)[curIndex])]
    {
      var srcPts := meshes[curIndex].points;
      var pose := transformations[curIndex];
      var sampled := Subsample(srcPts, order, sqrt);
      var targetMesh := meshes[0];
      assert targetMesh in meshes;
      var tr := RegisterSamples(targetMesh, srcPts, pose, sampled, tangential, sqrt, median, lstsq, sin, cos);
      sampledPoints, transformations := sampled, transformations[curIndex := Compose(tr, pose)];
    }

    /**
      The registration part of `perform_registration`: pose the samples, pair them with the
      target scan, and solve the chosen system.
    */
    static method RegisterSamples(targetMesh: Mesh, srcPts: seq<Vec3>, pose: Transform, sampled: seq<nat>,
                                  tangential: bool, sqrt: real -> real, median: seq<real> -> real,
                                  lstsq: (nat, seq<seq<real>>, seq<real>) -> seq<real>,
                                  sin: real -> real, cos: real -> real) returns (tr: Transform)
      requires InRange(sampled, |srcPts|) && |targetMesh.normals| == |targetMesh.points| && IsLstsq(lstsq)
      ensures tr == Increment(targetMesh, srcPts, pose, sampled, tangential, sqrt, median, lstsq, sin, cos)
    {
      var src := PosedSamples(pose, srcPts, sampled);
      ghost var pairs := Correspondences(src, targetMesh.points, targetMesh.normals, sqrt, median);
      var lists := new CorrespondenceLists();
      CalculateCorrespondences(src, targetMesh.points, targetMesh.normals, sqrt, median, lists);
      assert lists.sources == SourcesOf(pairs) && lists.targets == TargetsOf(pairs) && lists.normals == NormalsOf(pairs);
      if tangential {
        tr := RegisterPointToSurface(lists.sources, lists.targets, lists.normals, lstsq, sin, cos);
      } else {
        tr := RegisterPointToPoint(lists.sources, lists.targets, lstsq, sin, cos);
      }
    }
  }

  function Min(a: int, b: int): int { if a <= b then a else b }

  function Max(a: int, b: int): int { if a <= b then b else a }

  /** The new pose moves every point of the scan by the old pose, then by the increment. */
  lemma PoseUpdateApply(increment: Transform, pose: Transform, p: Vec3)
    ensures TransformPoint(Compose(increment, pose), p) == TransformPoint(increment, TransformPoint(pose, p))
  {
    ComposeApply(increment, pose, p);
  }
}

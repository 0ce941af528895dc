/**
  Correspondence finding and rejection for one ICP step. Each source point is paired with
  its nearest target point (the closest-point query); pairs farther apart than three times
  the median candidate distance, pairs whose points coincide, and pairs whose direction from
  target to source makes an angle of 60 degrees or more with the target normal are dropped.
  The median is a parameter.
*/
module Matching {
  import opened Vectors
  import opened Options
  import opened Closest

  /** One candidate pair: the source point, its closest target point, that point's normal and their distance. */
  datatype Candidate = Candidate(source: Vec3, target: Vec3, normal: Vec3, distance: real)

  /** Cosine of 60 degrees: the least accepted agreement between pair direction and normal. */
  const NormalThreshold: real := 0.5

  /** Factor applied to the median candidate distance. */
  const DistanceFactor: real := 3.0

  /**
    The candidate for one source point. The closest-point query fails (and the point is
    skipped) when there is no target point.
  */
  function CandidateFor(p: Vec3, target: seq<Vec3>, normals: seq<Vec3>, sqrt: real -> real): (r: Option<Candidate>)
    requires |normals| == |target|
    ensures r.None? <==> |target| == 0
    ensures r.Some? ==>
              var i := Nearest(target, p, sqrt).value;
              r.value == Candidate(p, target[i], normals[i], Dist(p, target[i], sqrt))
  {
    match Nearest(target, p, sqrt)
    case None => None
    case Some(i) => Some(Candidate(p, target[i], normals[i], Dist(p, target[i], sqrt)))
  }

  /** The candidate lists built by the first loop, in source order. */
  function Candidates(src: seq<Vec3>, target: seq<Vec3>, normals: seq<Vec3>, sqrt: real -> real): (cs: seq<Candidate>)
    requires |normals| == |target|
    ensures |cs| == if |target| == 0 then 0 else |src|
    decreases |src|
  {
    if |src| == 0 then []
    else
      var prev := Candidates(src[..|src| - 1], target, normals, sqrt);
      match CandidateFor(src[|src| - 1], target, normals, sqrt)
      case None => prev
      case Some(c) => prev + [c]
  }

  /** With a target point, candidate k is the candidate for source point k. */
  lemma {:induction false} CandidatesElements(src: seq<Vec3>, target: seq<Vec3>, normals: seq<Vec3>, sqrt: real -> real)
    requires |normals| == |target| && |target| > 0
    ensures var cs := Candidates(src, target, normals, sqrt);
            forall k :: 0 <= k < |src| ==> Some(cs[k]) == CandidateFor(src[k], target, normals, sqrt)
    decreases |src|
  {
    if |src| > 0 {
      var init := src[..|src| - 1];
      CandidatesElements(init, target, normals, sqrt);
      assert forall k :: 0 <= k < |init| ==> init[k] == src[k];
    }
  }

  /** `candidate_distances`. */
  function CandidateDistances(cs: seq<Candidate>): (ds: seq<real>)
    ensures |ds| == |cs| && forall k :: 0 <= k < |cs| ==> ds[k] == cs[k].distance
  {
    seq(|cs|, k requires 0 <= k < |cs| => cs[k].distance)
  }

  /** The three tests of the second loop. */
  predicate Passes(c: Candidate, threshold: real, sqrt: real -> real) {
    var vec := Sub(c.source, c.target);
    var normVec := Norm(vec, sqrt);
    !(c.distance > threshold) &&
    normVec != 0.0 &&
    !(Dot(Scale(1.0 / normVec, vec), c.normal) < NormalThreshold)
  }

  /** The candidates that pass, in their original order. */
  function Accepted(cs: seq<Candidate>, threshold: real, sqrt: real -> real): (r: seq<Candidate>)
    ensures |r| <= |cs|
    decreases |cs|
  {
    if |cs| == 0 then []
    else
      var prev := Accepted(cs[..|cs| - 1], threshold, sqrt);
      if Passes(cs[|cs| - 1], threshold, sqrt) then prev + [cs[|cs| - 1]] else prev
  }

  /** The distance threshold: three times the median candidate distance. */
  function Threshold(cs: seq<Candidate>, median: seq<real> -> real): real {
    DistanceFactor * median(CandidateDistances(cs))
  }

  /** The pairs `calculate_correspondences` appends; none when there is no candidate. */
  function Correspondences(src: seq<Vec3>, target: seq<Vec3>, normals: seq<Vec3>,
                           sqrt: real -> real, median: seq<real> -> real): (r: seq<Candidate>)
    requires |normals| == |target|
  {
    var cs := Candidates(src, target, normals, sqrt);
    if |cs| == 0 then [] else Accepted(cs, Threshold(cs, median), sqrt)
  }

  /** The source points of a list of pairs. */
  function SourcesOf(cs: seq<Candidate>): (r: seq<Vec3>)
    ensures |r| == |cs| && forall k :: 0 <= k < |cs| ==> r[k] == cs[k].source
  {
    seq(|cs|, k requires 0 <= k < |cs| => cs[k].source)
  }

  /** The target points of a list of pairs. */
  function TargetsOf(cs: seq<Candidate>): (r: seq<Vec3>)
    ensures |r| == |cs| && forall k :: 0 <= k < |cs| ==> r[k] == cs[k].target
  {
    seq(|cs|, k requires 0 <= k < |cs| => cs[k].target)
  }

  /** The target normals of a list of pairs. */
  function NormalsOf(cs: seq<Candidate>): (r: seq<Vec3>)
    ensures |r| == |cs| && forall k :: 0 <= k < |cs| ==> r[k] == cs[k].normal
  {
    seq(|cs|, k requires 0 <= k < |cs| => cs[k].normal)
  }

  /** The projections of an empty list are empty, and appending a pair appends its parts. */
  lemma ProjectionsAppend(cs: seq<Candidate>, c: Candidate)
    ensures SourcesOf([]) == [] && TargetsOf([]) == [] && NormalsOf([]) == [] && CandidateDistances([]) == []
    ensures SourcesOf(cs + [c]) == SourcesOf(cs) + [c.source]
    ensures TargetsOf(cs + [c]) == TargetsOf(cs) + [c.target]
    ensures NormalsOf(cs + [c]) == NormalsOf(cs) + [c.normal]
    ensures CandidateDistances(cs + [c]) == CandidateDistances(cs) + [c.distance]
  {
  }

  /** One more candidate: the step the first loop takes. */
  lemma CandidatesStep(src: seq<Vec3>, target: seq<Vec3>, normals: seq<Vec3>, sqrt: real -> real, k: nat)
    requires |normals| == |target| && k < |src|
    ensures Candidates(src[..k + 1], target, normals, sqrt) ==
            match CandidateFor(src[k], target, normals, sqrt)
            case None => Candidates(src[..k], target, normals, sqrt)
            case Some(c) => Candidates(src[..k], target, normals, sqrt) + [c]
  {
    assert src[..k + 1][..k] == src[..k];
  }

  /** One more candidate examined: the step the second loop takes. */
  lemma AcceptedStep(cs: seq<Candidate>, threshold: real, sqrt: real -> real, k: nat)
    requires k < |cs|
    ensures Accepted(cs[..k + 1], threshold, sqrt) ==
            if Passes(cs[k], threshold, sqrt) then Accepted(cs[..k], threshold, sqrt) + [cs[k]]
            else Accepted(cs[..k], threshold, sqrt)
  {
    assert cs[..k + 1][..k] == cs[..k];
  }

  /** A pair is accepted exactly when it is a candidate that passes all three tests. */
  lemma {:induction false} AcceptedMembership(cs: seq<Candidate>, threshold: real, sqrt: real -> real, c: Candidate)
    ensures c in Accepted(cs, threshold, sqrt) <==> c in cs && Passes(c, threshold, sqrt)
    decreases |cs|
  {
    if |cs| > 0 {
      var init := cs[..|cs| - 1];
      AcceptedMembership(init, threshold, sqrt, c);
      assert cs == init + [cs[|cs| - 1]];
    }
  }

  /** Filtering keeps the candidates' order: it distributes over concatenation. */
  lemma {:induction false} AcceptedAppend(xs: seq<Candidate>, ys: seq<Candidate>, threshold: real, sqrt: real -> real)
    ensures Accepted(xs + ys, threshold, sqrt) == Accepted(xs, threshold, sqrt) + Accepted(ys, threshold, sqrt)
    decreases |ys|
  {
    if |ys| == 0 {
      assert xs + ys == xs;
    } else {
      var init := ys[..|ys| - 1];
      AcceptedAppend(xs, init, threshold, sqrt);
      assert (xs + ys)[..|xs + ys| - 1] == xs + init;
    }
  }

  /**
    Every accepted pair is a candidate: its source is a source point and its target the
    nearest target point to it, at the recorded distance.
  */
  lemma {:induction false} CandidateOrigin(src: seq<Vec3>, target: seq<Vec3>, normals: seq<Vec3>,
                                           sqrt: real -> real, c: Candidate)
    requires |normals| == |target|
    requires c in Candidates(src, target, normals, sqrt)
    ensures c.source in src
    ensures c.distance == Dist(c.source, c.target, sqrt)
    ensures c.target in target
    ensures forall j :: 0 <= j < |target| ==> c.distance <= Dist(c.source, target[j], sqrt)
  {
    var cs := Candidates(src, target, normals, sqrt);
    CandidatesElements(src, target, normals, sqrt);
    var k :| 0 <= k < |cs| && cs[k] == c;
    assert Some(c) == CandidateFor(src[k], target, normals, sqrt);
    NearestIsClosest(target, src[k], sqrt);
  }

  /**
    A pair passing the tests is within the threshold, joins two distinct points, and points
    along the normal to within 60 degrees.
  */
  lemma PassesMeaning(c: Candidate, threshold: real, sqrt: real -> real)
    requires IsSqrt(sqrt) && Passes(c, threshold, sqrt)
    ensures c.distance <= threshold
    ensures c.source != c.target
    ensures NormalThreshold <= Dot(Unit(Sub(c.source, c.target), sqrt), c.normal)
  {
    if c.source == c.target {
      assert Sub(c.source, c.target) == Zero;
      NormZeroIff(Zero, sqrt);
    }
  }

  /**
    Every appended pair is within three times the median candidate distance, joins two
    distinct points, points along the normal to within 60 degrees, and pairs a source point
    with its nearest target point.
  */
  lemma CorrespondenceSound(src: seq<Vec3>, target: seq<Vec3>, normals: seq<Vec3>,
                            sqrt: real -> real, median: seq<real> -> real, c: Candidate)
    requires IsSqrt(sqrt) && |normals| == |target|
    requires c in Correspondences(src, target, normals, sqrt, median)
    ensures var cs := Candidates(src, target, normals, sqrt);
            c in cs && c.distance <= DistanceFactor * median(CandidateDistances(cs))
    ensures c.source != c.target
    ensures NormalThreshold <= Dot(Unit(Sub(c.source, c.target), sqrt), c.normal)
    ensures c.source in src && c.target in target
    ensures forall j :: 0 <= j < |target| ==> Dist(c.source, c.target, sqrt) <= Dist(c.source, target[j], sqrt)
  {
    var cs := Candidates(src, target, normals, sqrt);
    AcceptedMembership(cs, Threshold(cs, median), sqrt, c);
    PassesMeaning(c, Threshold(cs, median), sqrt);
    CandidateOrigin(src, target, normals, sqrt, c);
  }

  /**
    Conversely, every candidate that passes the three tests is appended, so nothing but the
    tests removes a pair.
  */
  lemma CorrespondenceComplete(src: seq<Vec3>, target: seq<Vec3>, normals: seq<Vec3>,
                               sqrt: real -> real, median: seq<real> -> real, c: Candidate)
    requires |normals| == |target|
    requires var cs := Candidates(src, target, normals, sqrt);
             c in cs && Passes(c, Threshold(cs, median), sqrt)
    ensures c in Correspondences(src, target, normals, sqrt, median)
  {
    var cs := Candidates(src, target, normals, sqrt);
    AcceptedMembership(cs, Threshold(cs, median), sqrt, c);
  }

  /** Without a target point, or without a source point, nothing is appended. */
  lemma {:induction false} NoCandidates(src: seq<Vec3>, target: seq<Vec3>, normals: seq<Vec3>,
                                        sqrt: real -> real, median: seq<real> -> real)
    requires |normals| == |target|
    requires |src| == 0 || |target| == 0
    ensures Correspondences(src, target, normals, sqrt, median) == []
  {
    assert |Candidates(src, target, normals, sqrt)| == 0;
  }
}

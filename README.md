# CV804 geometry cores in Dafny

This project models the computational cores of a computer-graphics and geometry-processing
course repository (six assignments, written in Python with NumPy), and proves properties of
them. All arithmetic is over Dafny's exact `real`.

The main core is the rigid registration (ICP) step of Assignment 5:

- **Transformation algebra** (`transformation.dfy`, module `Transformation`). This covers:
  - construction from an axis and an angle in degrees, by Rodrigues' formula;
  - construction from three small rotation angles and a translation;
  - composition, inverse, point transform and the 4 × 4 homogeneous matrix.
- **The least-squares systems** of `Registration` (`registration.dfy`).
  - Point-to-point registration adds three rows per correspondence; point-to-plane adds one.
  - The rows are written into zero-filled arrays, and the solution vector is packed into a
    transform.
- **The registration viewer** (`registration_app.dfy`, with `closest.dfy`, `sampling.dfy` and
  `correspondences.dfy`). It has four parts:
  - greedy subsampling at a radius of 8 × the average edge length;
  - nearest-point correspondences, pruned by a 3 × median distance threshold and a normal
    cosine of 0.5;
  - the pose update of the current scan;
  - the scan-cycling state, both after loading and on key N.

The smaller cores are:

- **Assignment 1** (`height_map.dfy`): heights and colours of a height-map image, grid
  vertices, triangle-strip indices, and rescaling of the heights in place.
- **Assignment 2** (`mesh_viewer.dfy`): the triangle index buffer, vertex valences, the
  valence colour coding, accumulated vertex normals, the interleaved vertex layout, and the
  colormap switch.
- **Assignment 3** (`spline.dfy`, `railway.dfy`):
  - a padded Catmull-Rom spline with arc-length piece lookup;
  - Sloan's tangent/normal/binormal frames;
  - the railway's point orientation, sampling and length, its right rail, tie placement,
    camera and rail vertex layout.
- **Assignment 4** (`scene.dfy`): the scene-file reader of the ray tracer, which reads records
  line by line into the scene's lists.
- **Assignment 6** (`implicit_hoppe.py`, `implicit_rbf.py` → `implicit_hoppe.dfy`,
  `implicit_rbf.dfy`):
  - Hoppe's signed distance to the tangent plane of the nearest sample;
  - the triharmonic RBF fit (constraints, targets and kernel matrix) and its evaluation.

`ImplicitHoppe.__init__` is the datatype constructor `Hoppe(points, normals)`, which stores
both unchanged.

`vectors.dfy` (3-vectors and 3 × 3 matrices), `options.dfy` (an `Option` type) and `lstsq.dfy`
(what the model assumes of the least-squares solver) hold the shared vocabulary.

Code that works step by step is modelled as methods with loops, each proved against a
specification function. This covers the array filling in `registration.py`, the loops of
`subsample` and `calculate_correspondences`, the spline's loops, and the height-map, mesh and
scene loops. Objects whose fields the source updates are classes:

- `RegistrationViewerApp`
- `Spline`
- `RailwayEntity`
- `HeightMap`
- `MeshViewer`
- `Scene`

Pure NumPy expressions are functions. The properties are lemmas about those functions.

Library calls the source makes become parameters, with the least the proofs need of them:

- `sqrt` (non-negative, and it squares back);
- `sin` and `cos` (on the unit circle);
- `np.linalg.lstsq` (returns one value per column, and zero for a zero right-hand side);
- `np.median`;
- a matplotlib colormap;
- openmesh's `valence`;
- the shuffle, passed in as a permutation.

`Vec3.normalize` in the scene reader is kept symbolic in a `Normalized(v)` record, because
that vector type's module is not part of this model.

Most places where the source raises are modelled as an error result: the model returns
`None`, `Failed` or `false`. Examples:

- `np.argmin` on no samples;
- `np.min` of an empty array;
- a colormap index outside the list;
- a malformed scene line.

A few crashes on inputs the program never produces are preconditions instead. "## Left out"
lists them. The source's own `assert` statements also become preconditions. Examples are the
four-point minimum of the spline constructor, and `0 <= t <= 1` of the Catmull-Rom step, the
spline lookup and the railway camera.

The small-angle rotation of `from_angles_and_translation` is written out entry by entry. It is
the product Rx(α)·Ry(β)·Rz(γ), which `Transformation.AnglesMatrixIsProduct` proves. The
registration solvers solve whatever system they are given, of any size, and so does the model.

## Model

| member | source | states |
|---|---|---|
| Transformation.CrossRowsApply | Assignment_5/assignment5/transformation.py:42 | the rows `np.cross(np.eye(3), n)` form the matrix that maps `v` to `n × v` |
| Transformation.New | Assignment_5/assignment5/transformation.py:35-50 | without an angle or an axis: identity rotation and the given translation (zero if none); with an axis of norm at most 1e-6: the identity transform, translation dropped |
| Transformation.NewAxisAngle | Assignment_5/assignment5/transformation.py:36-44 | with an axis of norm above 1e-6: the Rodrigues matrix `c·I + (1-c)·n nᵀ + s·[n]×` of the unit axis and the angle in radians, which fixes the axis, and the given translation |
| Transformation.RodriguesFixesAxis | Assignment_5/assignment5/transformation.py:41-43 | the Rodrigues matrix of a unit axis leaves the axis in place |
| Transformation.FromAngles | Assignment_5/assignment5/transformation.py:53-65 | `from_angles_and_translation` keeps the translation as given |
| Transformation.AnglesMatrixIsProduct | Assignment_5/assignment5/transformation.py:59-63 | the matrix written out entry by entry is the product Rx(α)·Ry(β)·Rz(γ) |
| Transformation.FromAnglesZero | Assignment_5/assignment5/transformation.py:53-65 | zero angles give the identity rotation |
| Transformation.AnglesOrthonormal | Assignment_5/assignment5/transformation.py:59-63 | the matrix is orthonormal whenever each (sin, cos) pair lies on the unit circle |
| Transformation.FromAnglesOrthonormal | Assignment_5/assignment5/transformation.py:53-65 | the rotation built from any three angles is orthonormal |
| Transformation.ComposeApply | Assignment_5/assignment5/transformation.py:73-83 | applying `a * b` is applying `b` then `a` |
| Transformation.ComposeApplyPoints | Assignment_5/assignment5/transformation.py:76-83 | `transform_points` (one transformed row per input row) of `a * b` equals `transform_points` of a after b |
| Transformation.ComposeAssoc | Assignment_5/assignment5/transformation.py:79-83 | composition is associative |
| Transformation.ComposeIdentity | Assignment_5/assignment5/transformation.py:73-83 | the default transform is neutral for `*` and fixes every point |
| Transformation.InverseLeft | Assignment_5/assignment5/transformation.py:85-89 | for an orthonormal rotation, `t.inverse() * t` is the identity and undoes `t` on every point |
| Transformation.InverseRight | Assignment_5/assignment5/transformation.py:85-89 | for an orthonormal rotation, `t * t.inverse()` is the identity and `t` undoes the inverse |
| Transformation.ToMatrix | Assignment_5/assignment5/transformation.py:67-71 | `to_matrix` is 4×4 with last row `[0, 0, 0, 1]` |
| Transformation.ToMatrixApply | Assignment_5/assignment5/transformation.py:67-74 | multiplying the homogeneous point by `to_matrix()` gives `transform_point` with 1 appended |
| Registration.PointRowsApply | Assignment_5/assignment5/registration.py:52-64 | the three rows of a pair, applied to x = (α, β, γ, t), give `ω × p + t` |
| Registration.PointRowsExact | Assignment_5/assignment5/registration.py:52-64 | the three equations of a pair hold exactly when `p + ω × p + t == q` |
| Registration.PointMatrixRow | Assignment_5/assignment5/registration.py:43-64 | A and b have 3n rows; rows of a pair with a target are that pair's rows; rows past the shorter list stay zero |
| Registration.PointSystemExact | Assignment_5/assignment5/registration.py:43-64 | A x = b holds exactly when the linearised motion maps every source point with a target onto it |
| Registration.PointPairExact | Assignment_5/assignment5/registration.py:47-64 | rows 3i..3i+2 hold exactly when pair i is matched |
| Registration.PointPairRows | Assignment_5/assignment5/registration.py:52-64 | row 3i+r of A and b is row r of pair i |
| Registration.PointVectorOfSelf | Assignment_5/assignment5/registration.py:56-64 | registering a cloud to itself gives a zero right-hand side |
| Registration.SurfaceRowMeaning | Assignment_5/assignment5/registration.py:96-104 | the row is `[p × n, n]` and the right-hand side is `n · (q - p)` |
| Registration.SurfaceRowIsCombination | Assignment_5/assignment5/registration.py:78-104 | the point-to-plane row and right-hand side are the n-weighted sum of the three point-to-point rows |
| Registration.SurfaceRowApply | Assignment_5/assignment5/registration.py:96-101 | the row applied to x is `n · (ω × p + t)` |
| Registration.SurfaceRowExact | Assignment_5/assignment5/registration.py:78-104 | the equation holds exactly when `p + ω × p + t` lies on the plane through q with normal n |
| Registration.SurfaceVectorOfSelf | Assignment_5/assignment5/registration.py:104 | registering a cloud to itself gives a zero right-hand side |
| Registration.PointSystem | Assignment_5/assignment5/registration.py:43-64 | the arrays filled by the loop are A and b of the point-to-point system, 3n × 6 and 3n |
| Registration.SurfaceSystem | Assignment_5/assignment5/registration.py:83-104 | the arrays filled by the loop are A and b of the point-to-plane system, n × 6 and n |
| Registration.FromSolutionPacking | Assignment_5/assignment5/registration.py:67-70 | x[:3] become the angles and x[3:] the translation |
| Registration.RegistrationOfSelf | Assignment_5/assignment5/registration.py:36-110 | registering a cloud to itself, for either metric, gives the identity transform |
| Registration.RegisterPointToPoint | Assignment_5/assignment5/registration.py:36-70 | `register_point2point` returns the transform of the least-squares solution of its system |
| Registration.RegisterPointToSurface | Assignment_5/assignment5/registration.py:73-110 | `register_point2surface` returns the transform of the least-squares solution of its system |
| Closest.ArgMin | Assignment_6/implicit_hoppe.py:60 | `np.argmin` of a non-empty list is an index into it |
| Closest.ArgMinIsFirstMin | Assignment_6/implicit_hoppe.py:60 | the `np.argmin` index holds a least value and every earlier entry is strictly larger, so ties go to the lowest index |
| Closest.Distances | Assignment_6/implicit_hoppe.py:58-59 | one Euclidean distance per sample |
| Closest.Nearest | Assignment_5/assignment5/app.py:384-391 | the closest-point query gives no index exactly when there are no samples, and otherwise an index into them |
| Closest.NearestIsClosest | Assignment_6/implicit_hoppe.py:58-60 | the chosen sample is at least as close as every other one, and strictly closer than every earlier one |
| Closest.NearestAtSample | Assignment_5/assignment5/app.py:385-391 | a query at a sample position finds a sample at that same position |
| Sampling.FarFromAllStep | Assignment_5/assignment5/app.py:355-359 | the inner loop's `keep` after m+1 sampled points is `keep` after m and the (m+1)-th not within the radius |
| Sampling.Greedy | Assignment_5/assignment5/app.py:342-363 | the sampled list holds indices below `len(pts)` and is no longer than the visit order |
| Sampling.GreedyStep | Assignment_5/assignment5/app.py:348-361 | visiting one more index appends it when nothing is sampled yet or it is at least the radius from every sampled point, and otherwise leaves the list as it was |
| Sampling.GreedyPrefix | Assignment_5/assignment5/app.py:348-361 | the list sampled after the first n visits is a prefix of the final list: sampled points are never dropped or reordered |
| Sampling.VisitPositions | Assignment_5/assignment5/app.py:348-361 | every sampled index is the visited index at a strictly increasing visit position, so the result is in visit order |
| Sampling.GreedyDistinct | Assignment_5/assignment5/app.py:343-361 | for a permutation of `range(len(pts))` the sampled indices are pairwise distinct |
| Sampling.GreedySeparatedFromEarlier | Assignment_5/assignment5/app.py:355-361 | each sampled point is at least the radius from every point sampled before it |
| Sampling.GreedySeparated | Assignment_5/assignment5/app.py:341-361 | any two sampled points are at least the radius apart, because a point is rejected only at distance below it |
| Sampling.GreedyKeepsFirst | Assignment_5/assignment5/app.py:351-352 | the first visited index is always sampled, first |
| Sampling.GreedyMaximal | Assignment_5/assignment5/app.py:348-361 | every visited index is sampled or lies within the radius of a point sampled before it was visited |
| Matching.CandidateFor | Assignment_5/assignment5/app.py:384-397 | with no target the query fails and the point is skipped; otherwise the candidate is the source, its closest target with that target's normal, and their distance |
| Matching.Candidates | Assignment_5/assignment5/app.py:383-397 | one candidate per source point, or none at all when there is no target |
| Matching.CandidatesElements | Assignment_5/assignment5/app.py:383-397 | candidate k is the pair built for source point k |
| Matching.Accepted | Assignment_5/assignment5/app.py:412-432 | the pruning loop keeps a sub-list of the candidates |
| Matching.ProjectionsAppend | Assignment_5/assignment5/app.py:430-432 | the source, target and normal columns of a pair list (`SourcesOf`, `TargetsOf`, `NormalsOf`) each grow by exactly the new pair's part when a pair is appended |
| Matching.CandidatesStep | Assignment_5/assignment5/app.py:383-397 | one more source point adds its candidate, or nothing when the query fails |
| Matching.AcceptedStep | Assignment_5/assignment5/app.py:412-432 | one more candidate is appended exactly when it passes both tests |
| Matching.AcceptedMembership | Assignment_5/assignment5/app.py:412-432 | a pair is accepted exactly when it is a candidate and passes both tests |
| Matching.AcceptedAppend | Assignment_5/assignment5/app.py:412-432 | pruning is done candidate by candidate, so it distributes over concatenation and keeps order |
| Matching.CandidateOrigin | Assignment_5/assignment5/app.py:385-397 | a candidate's source is a source point, its target a target point no farther than any other, and its distance their Euclidean distance |
| Matching.PassesMeaning | Assignment_5/assignment5/app.py:413-427 | a passing pair is within the threshold, has source ≠ target, and its unit offset has dot product at least 0.5 with the normal |
| Matching.CorrespondenceSound | Assignment_5/assignment5/app.py:383-432 | every kept pair is a candidate with distance at most 3 × median of the candidate distances, source ≠ target, normal cosine ≥ 0.5, and a nearest target |
| Matching.CorrespondenceComplete | Assignment_5/assignment5/app.py:405-432 | every candidate that passes both tests against 3 × median is kept |
| Matching.NoCandidates | Assignment_5/assignment5/app.py:383-402 | with no source point or no target there are no pairs, so the output lists are left as they were |
| RegistrationApp.CorrespondenceLists.constructor | Assignment_5/assignment5/app.py:329 | the three output lists start empty |
| RegistrationApp.CorrespondenceLists.Append | Assignment_5/assignment5/app.py:430-432 | one pair appends to all three lists together, keeping them aligned with the accepted pairs |
| RegistrationApp.RegistrationViewerApp.constructor | Assignment_5/assignment5/app.py:44-54 | no meshes, poses or samples; index, count and average edge length zero |
| RegistrationApp.RegistrationViewerApp.OpenMeshes | Assignment_5/assignment5/app.py:120-142 | loaded meshes are appended with identity poses, the average edge length is the last mesh's, `num_processed = min(2, count)` and `cur_index = max(0, num_processed - 1)` |
| RegistrationApp.RegistrationViewerApp.PressN | Assignment_5/assignment5/app.py:287-290 | key N clears the samples, sets `num_processed = min(num_processed + 1, count)` and `cur_index = (cur_index + 1) mod count`, and changes nothing else |
| RegistrationApp.RegistrationViewerApp.Subsample | Assignment_5/assignment5/app.py:336-363 | the nested loop with its early `break` computes the greedy selection at radius 8 × average edge length |
| RegistrationApp.RegistrationViewerApp.FarFromSampled | Assignment_5/assignment5/app.py:355-359 | the inner loop's `keep` is true exactly when the point is at least the radius from every sampled point |
| RegistrationApp.RegistrationViewerApp.CalculateCorrespondences | Assignment_5/assignment5/app.py:366-432 | the caller's three lists grow by exactly the accepted pairs' sources, targets and normals, in source order |
| RegistrationApp.RegistrationViewerApp.CollectCandidates | Assignment_5/assignment5/app.py:377-397 | the first loop's four lists are the source, target, normal and distance columns of `Candidates`, so entry k of each belongs to the same candidate |
| RegistrationApp.RegistrationViewerApp.AppendAccepted | Assignment_5/assignment5/app.py:412-432 | the pruning loop appends exactly the candidates that pass, to all three lists |
| RegistrationApp.RegistrationViewerApp.PairPasses | Assignment_5/assignment5/app.py:413-427 | the three `continue` tests let a pair through exactly when it passes |
| RegistrationApp.RegistrationViewerApp.PerformRegistration | Assignment_5/assignment5/app.py:318-334 | the samples become the greedy selection, and only the current pose changes, to the solved increment composed with the old pose; mesh 0 is the target |
| RegistrationApp.RegistrationViewerApp.RegisterSamples | Assignment_5/assignment5/app.py:322-333 | the sampled vertices moved by the current pose are matched against mesh 0 and solved with the chosen metric: the result is `Increment` of the posed samples |
| RegistrationApp.PoseUpdateApply | Assignment_5/assignment5/app.py:334 | the new pose `tr * old` moves a point by the old pose and then by the increment |
| ImplicitHoppe.Denominator | Assignment_6/implicit_hoppe.py:71-74 | the normal's length, with 0 replaced by 1, so it is never zero |
| ImplicitHoppe.Value | Assignment_6/implicit_hoppe.py:58-75 | a query has a value exactly when there is a sample to measure against |
| ImplicitHoppe.Call | Assignment_6/implicit_hoppe.py:41-77 | one value per query, in query order |
| ImplicitHoppe.ChosenSampleIsNearest | Assignment_6/implicit_hoppe.py:58-60 | the sample used is nearest to the query, the lowest index on ties |
| ImplicitHoppe.PlaneValueIsProjection | Assignment_6/implicit_hoppe.py:69-75 | the quotient is the offset projected on the unit normal |
| ImplicitHoppe.PlaneValueOfZero | Assignment_6/implicit_hoppe.py:73-75 | a zero normal gives 0 |
| ImplicitHoppe.PlaneValueBounded | Assignment_6/implicit_hoppe.py:69-75 | the tangent-plane value is no larger in size than the offset's length |
| ImplicitHoppe.ValueIsPlaneDistance | Assignment_6/implicit_hoppe.py:62-75 | the value `n · (x - c) / ‖n‖` is the signed distance from x to the tangent plane of the nearest sample c |
| ImplicitHoppe.ZeroNormalGivesZero | Assignment_6/implicit_hoppe.py:73-75 | if the chosen sample's normal is zero the value is 0 |
| ImplicitHoppe.ValueAtSample | Assignment_6/implicit_hoppe.py:58-75 | a query on a sample point evaluates to 0 |
| ImplicitHoppe.ValueBounded | Assignment_6/implicit_hoppe.py:58-75 | the value is no larger in size than the distance from the query to its chosen sample |
| ImplicitRbf.MinOfIsLeast | Assignment_6/implicit_rbf.py:43 | `np.min` over a column is one of its entries and no entry is smaller |
| ImplicitRbf.MaxOfIsGreatest | Assignment_6/implicit_rbf.py:44 | `np.max` over a column is one of its entries and no entry is larger |
| ImplicitRbf.Column | Assignment_6/implicit_rbf.py:43-44 | one coordinate per point |
| ImplicitRbf.CornersBound | Assignment_6/implicit_rbf.py:43-44 | every point lies inside the box from `min_pt` to `max_pt` |
| ImplicitRbf.EpsilonNonNegative | Assignment_6/implicit_rbf.py:43-45 | eps = 0.01 × diagonal is non-negative, and zero exactly when the box is a point |
| ImplicitRbf.Raised | Assignment_6/implicit_rbf.py:50 | one raised point per sample |
| ImplicitRbf.Lowered | Assignment_6/implicit_rbf.py:51 | one lowered point per sample |
| ImplicitRbf.ConstraintPoints | Assignment_6/implicit_rbf.py:48-54 | X has 3N rows |
| ImplicitRbf.Constant | Assignment_6/implicit_rbf.py:57-59 | `np.zeros`/`np.full`: n entries |
| ImplicitRbf.Targets | Assignment_6/implicit_rbf.py:56-60 | d has 3N entries |
| ImplicitRbf.ConstraintLayout | Assignment_6/implicit_rbf.py:47-60 | rows i, N+i and 2N+i are p, p + eps·n and p - eps·n, with targets 0, +eps and -eps |
| ImplicitRbf.OffsetConstraints | Assignment_6/implicit_rbf.py:50-51 | the raised and lowered points sit at +eps·n and -eps·n from their sample |
| ImplicitRbf.KernelRow | Assignment_6/implicit_rbf.py:65-67 | one kernel value per centre |
| ImplicitRbf.KernelMatrix | Assignment_6/implicit_rbf.py:65-67 | M is 3N × N |
| ImplicitRbf.KernelEntries | Assignment_6/implicit_rbf.py:65-67 | `M[i][j] = ‖X_i - c_j‖³`, which is non-negative and zero only when X_i is c_j |
| ImplicitRbf.KernelDiagonal | Assignment_6/implicit_rbf.py:48-67 | in the on-surface block `M[j][j] = 0` |
| ImplicitRbf.MatVec | Assignment_6/implicit_rbf.py:94 | one value per matrix row |
| ImplicitRbf.Fit | Assignment_6/implicit_rbf.py:37-73 | the constructor fails exactly when there are no samples (`np.min` of an empty array raises) |
| ImplicitRbf.FitShape | Assignment_6/implicit_rbf.py:70-73 | the centres are exactly the input samples, with one weight each |
| ImplicitRbf.Call | Assignment_6/implicit_rbf.py:75-95 | one value per query, each the weighted sum of the cubed distances to the centres |
| ImplicitRbf.EvaluateAtConstraints | Assignment_6/implicit_rbf.py:65-94 | evaluating at the constraint points gives M·w, tying `__call__` to the fitted system |
| ImplicitRbf.CoincidentSamplesGiveZero | Assignment_6/implicit_rbf.py:43-94 | when all samples coincide eps is 0 and the fitted function is 0 everywhere |
| ImplicitRbf.ZeroOffsetGivesZero | Assignment_6/implicit_rbf.py:55-94 | with eps = 0 every target is zero, so the weights and the function (a weighted sum with zero weights) are zero |
| Spline.CatmullRomCoordEnds | Assignment_3/assignment3/spline.py:79-90 | each coordinate of the Catmull-Rom polynomial is p1 at t = 0 and p2 at t = 1 |
| Spline.CatmullRomEnds | Assignment_3/assignment3/spline.py:64-92 | `_catmull_rom` returns p1 at t = 0 and p2 at t = 1 |
| Spline.PaddedLayout | Assignment_3/assignment3/spline.py:51-54 | the padded list has n + 2 points: the first and last control points repeated, the others unchanged and in order |
| Spline.SegmentLengthsNonNegative | Assignment_3/assignment3/spline.py:57-59 | one chord fewer than points, none negative |
| Spline.PaddedChords | Assignment_3/assignment3/spline.py:51-59 | for the padded list there are n + 1 chords, the first and the last 0 |
| Spline.PaddedEndChords | Assignment_3/assignment3/spline.py:53-59 | the first and last chords join a repeated end point to itself |
| Spline.SumPrefixBound | Assignment_3/assignment3/spline.py:111-119 | the running total, grown by one chord per step, never exceeds `_total_length` |
| Spline.SumDropZeroHead | Assignment_3/assignment3/spline.py:53-61 | the zero padding chord does not change the total |
| Spline.Find | Assignment_3/assignment3/spline.py:112-119 | the search returns a piece index in its range with `local_t` in [0, 1] (0 for a zero-length chord), or nothing |
| Spline.FindFirst | Assignment_3/assignment3/spline.py:112-119 | the piece found is the first whose running total reaches `t · total`, with `local_t` in [0, 1]; nothing is found exactly when none does |
| Spline.SumNonNegative | Assignment_3/assignment3/spline.py:61 | `_total_length` is not negative |
| Spline.EvaluateStart | Assignment_3/assignment3/spline.py:112-118 | at t = 0 the zero padding chord is chosen with `local_t = 0`, giving point 1 |
| Spline.EvaluateOnPiece | Assignment_3/assignment3/spline.py:106-122 | `__call__` is the Catmull-Rom value on the piece found, or `_points[-2]` when the search finds none |
| Spline.EvaluateAtZero | Assignment_3/assignment3/spline.py:106-116 | `spline(0)` is the first control point |
| Spline.SearchRunsOffEnd | Assignment_3/assignment3/spline.py:112-122 | as written, a target beyond the total less the last real chord finds no piece |
| Spline.EvaluateRunsOffEnd | Assignment_3/assignment3/spline.py:112-122 | as written, such a t returns the fallback `_points[-2]` instead of a point on the last piece |
| Spline.CorrectedSearchSucceeds | Assignment_3/assignment3/spline.py:112-119 | testing the chord of piece i (chord i + 1) always finds a piece for targets up to the total |
| Spline.CorrectedFindsPiece | Assignment_3/assignment3/spline.py:106-119 | the corrected search finds a piece for every t in [0, 1] |
| Spline.EvaluateCorrectedOnPiece | Assignment_3/assignment3/spline.py:112-122 | the corrected lookup gives the Catmull-Rom value on the piece it finds |
| Spline.CorrectedStart | Assignment_3/assignment3/spline.py:106-118 | the corrected lookup still starts the curve at point 1 |
| Spline.Spline.constructor | Assignment_3/assignment3/spline.py:45-61 | requires at least 4 control points; stores the padded points, their chords and their sum |
| Spline.Spline.PadControl | Assignment_3/assignment3/spline.py:51-54 | the filled array is the padded control list |
| Spline.Spline.ChordLengths | Assignment_3/assignment3/spline.py:57-59 | the loop fills the chord array with each point's distance to the next |
| Spline.Spline.Call | Assignment_3/assignment3/spline.py:95-122 | the loop accumulating `accumulated_length` computes the value of the curve at t as written |
| Spline.Spline.CallCorrected | Assignment_3/assignment3/spline.py:95-122 | the same loop testing chord i + 1 computes the corrected value |
| Spline.Spline.AsWrittenStallsAtEnd | Assignment_3/assignment3/spline.py:112-122 | on a built spline, every t past the second-to-last running total returns the last control point |
| Spline.Spline.CorrectedNeverFallsBack | Assignment_3/assignment3/spline.py:112-122 | on a built spline the corrected search never reaches the fallback |
| Spline.Spline.StartsAtFirstControlPoint | Assignment_3/assignment3/spline.py:106-118 | on a built spline, `spline(0)` is the first control point |
| Spline.NextFrame | Assignment_3/assignment3/spline.py:150-155 | a later frame: the normalised tangent (zero for a zero chord), B from the previous T and N, N from B and T |
| Spline.FramesUpTo | Assignment_3/assignment3/spline.py:141-159 | after k iterations there are k frames in each list |
| Spline.SloanMethod | Assignment_3/assignment3/spline.py:125-166 | the loop appending to Ts, Ns and Bs computes the frames of the points, with the last frame repeated |
| Spline.SloanShape | Assignment_3/assignment3/spline.py:138-164 | three lists of length n, the last frame a copy of the one before it |
| Spline.FramesNormalOrthogonal | Assignment_3/assignment3/spline.py:142-155 | in every frame built by the loop, N is orthogonal to T and to B |
| Spline.FirstFrameOrthogonal | Assignment_3/assignment3/spline.py:142-148 | in the first frame T, N and B are mutually orthogonal |
| Spline.SloanOrthogonal | Assignment_3/assignment3/spline.py:138-164 | in every returned frame N is orthogonal to T and B, and the first frame is mutually orthogonal |
| Spline.FirstFrameIsFirst | Assignment_3/assignment3/spline.py:142-159 | later iterations never rewrite the first frame |
| Railway.OrientedRoundTrip | Assignment_3/assignment3/railway_entity.py:195-196 | flipping y and scaling by 1.5 is undone exactly by its inverse, so no control point is lost |
| Railway.Orient | Assignment_3/assignment3/railway_entity.py:195-196 | in place, every point has its y negated and then all coordinates scaled by 1.5 |
| Railway.LinspaceBounds | Assignment_3/assignment3/railway_entity.py:202 | each `np.linspace(0, 0.99, n)` parameter lies in [0, 0.99], the first is 0 and (for n ≥ 2) the last 0.99 |
| Railway.LinspaceIncreasing | Assignment_3/assignment3/railway_entity.py:202 | the parameters are evenly spaced and strictly increasing |
| Railway.SampleSpline | Assignment_3/assignment3/railway_entity.py:201-203 | exactly `num_steps` samples, sample k the spline, with its lookup as written, at the k-th linspace parameter |
| Railway.TrackStart | Assignment_3/assignment3/railway_entity.py:195-202 | the railway curve starts at the first control point of the file, flipped and scaled |
| Railway.TrackStallsAtEnd | Assignment_3/assignment3/railway_entity.py:195-202 | every parameter whose length along the curve lies past the total less the last real chord gives the last oriented control point, so those samples coincide |
| Railway.PathLengthAppend | Assignment_3/assignment3/railway_entity.py:210 | `total_length` grows by the distance of each new sample from the previous one |
| Railway.PathLengthNonNegative | Assignment_3/assignment3/railway_entity.py:210 | `total_length` is not negative |
| Railway.RightRailOffset | Assignment_3/assignment3/railway_entity.py:218-220 | right-rail point k is left point k moved by 0.1·B_k, and both rails have the same length; where N ⟂ B the offset has no N component |
| Railway.NumTiesFits | Assignment_3/assignment3/railway_entity.py:259-260 | `num_ties = total_length // 5.0`: the largest count of 5-unit spacings that fits |
| Railway.TieIndexInRange | Assignment_3/assignment3/railway_entity.py:262-264 | tie i sits at sample index `int(i / num_ties * len)`, which is below `len`; tie 0 at sample 0 |
| Railway.TieIndexMonotone | Assignment_3/assignment3/railway_entity.py:262-264 | later ties never sit at earlier samples |
| Railway.TiePositions | Assignment_3/assignment3/railway_entity.py:259-268 | the loop in `draw` places `num_ties` ties, tie i at the sample its index names; with no tie there is no division |
| Railway.CameraIndexInRange | Assignment_3/assignment3/railway_entity.py:288-297 | for 0 ≤ t ≤ 1 the camera index `int(t · (len - 1))` is in [0, len - 1], with 0 at t = 0 and len - 1 at t = 1 |
| Railway.CameraFrame | Assignment_3/assignment3/railway_entity.py:297-301 | eye = sample + 1.0·B + (0, 2, 0), lookat - eye = T, up = N, all at the camera index |
| Railway.RailVertexLayout | Assignment_3/assignment3/railway_entity.py:81-82 | each rail vertex is 12 values: position, zero colour, N and T, in that order |
| Railway.RailwayEntity.constructor | Assignment_3/assignment3/railway_entity.py:184-220 | sample k is `Track` (the spline through the flipped, scaled control points) at the k-th linspace parameter, the first sample is the first oriented control point; then their frames, the summed sample distances as `total_length`, and the right rail |
| Railway.RailwayEntity.Ties | Assignment_3/assignment3/railway_entity.py:259-268 | the tie positions of the stored samples and length |
| Railway.RailwayEntity.CameraAlong | Assignment_3/assignment3/railway_entity.py:273-301 | `get_camera_along_railway` gives the camera of the stored frames at t |
| HeightMap.HeightInUnit | Assignment_1/assignment1/height_map.py:76 | each height `pixel / 255` lies in [0, 1], is 0 for black and 1 for white, and determines its pixel |
| HeightMap.HeightMonotone | Assignment_1/assignment1/height_map.py:76 | brighter pixels give strictly higher heights |
| HeightMap.ColourChannels | Assignment_1/assignment1/height_map.py:88-99 | for h in [0, 1] the stored texture triple `[g, r, b]` = (1 - abs(2h - 1), h, 1 - h) has every channel in [0, 1], its second and third channels add up to 1, and its first is 1 at h = 0.5 |
| HeightMap.ColourEnds | Assignment_1/assignment1/height_map.py:88-99 | the stored triple is (0, 0, 1) at height 0 and (0, 1, 0) at height 1; the vertex reads these as blue and green |
| HeightMap.VertexColourAsWritten | Assignment_1/assignment1/height_map.py:99-151 | the vertex unpacks the stored `[g, r, b]` as `r, g, b`: its red is 1 - abs(2h - 1) and its green is h, so height 1 is pure green and height 0.5 has red 1 |
| HeightMap.IntendedVertexColour | Assignment_1/assignment1/height_map.py:68-99 | with the channels stored as `[r, g, b]`, the vertex's red is the height: height 0 is pure blue, height 1 pure red, and red increases strictly with height |
| HeightMap.GridCoordBounds | Assignment_1/assignment1/height_map.py:148-149 | `j / (W - 1) · 2 - 1` lies in [-1, 1], -1 at the first column and 1 at the last |
| HeightMap.GridCoordIncreasing | Assignment_1/assignment1/height_map.py:148-149 | grid coordinates increase strictly with the column or row |
| HeightMap.RowMajor | Assignment_1/assignment1/height_map.py:111-146 | `idx = i · W + j` determines i and j for j < W |
| HeightMap.RowOfIndex | Assignment_1/assignment1/height_map.py:146 | an index below H · W has its row below H |
| HeightMap.RowMajorBound | Assignment_1/assignment1/height_map.py:146 | `i · W + j` is below H · W |
| HeightMap.StripOfRow | Assignment_1/assignment1/height_map.py:161-162 | inside a row's strip, even entries walk row i and odd entries row i + 1 |
| HeightMap.StripIndicesInRange | Assignment_1/assignment1/height_map.py:157-171 | the index list has 2 · W · (H - 1) entries, each below H · W |
| HeightMap.StripLayout | Assignment_1/assignment1/height_map.py:158-163 | entries 2(i·W + j) and 2(i·W + j) + 1 are i·W + j and (i + 1)·W + j |
| HeightMap.HeightMap.LoadHeights | Assignment_1/assignment1/height_map.py:76 | every height is its pixel divided by 255 |
| HeightMap.HeightMap.ComputeTexture | Assignment_1/assignment1/height_map.py:79-99 | the nested loops give every pixel the colour of its height |
| HeightMap.HeightMap.BuildVertices | Assignment_1/assignment1/height_map.py:137-154 | H · W vertices, vertex i·W + j holding the grid coordinates, height and colour of pixel (i, j) |
| HeightMap.HeightMap.BuildIndices | Assignment_1/assignment1/height_map.py:157-171 | the row loop builds the triangle-strip index list |
| HeightMap.HeightMap.constructor | Assignment_1/assignment1/height_map.py:72-171 | for an image of at least 2 × 2 pixels: heights, texture, consistent vertices and the strip indices |
| HeightMap.HeightMap.ScaleHeights | Assignment_1/assignment1/height_map.py:105 | every height is multiplied by the factor |
| HeightMap.HeightMap.RewriteHeights | Assignment_1/assignment1/height_map.py:108-112 | only the z column of each vertex is rewritten, to its pixel's height |
| HeightMap.HeightMap.ScaledStaysConsistent | Assignment_1/assignment1/height_map.py:103-112 | after scaling and rewriting, each vertex is its old self with z scaled, and still matches its pixel |
| HeightMap.HeightMap.ApplyScale | Assignment_1/assignment1/height_map.py:103-112 | `apply_scale` multiplies every height by the factor and changes only the z of each vertex, which it scales the same way |
| MeshViewer.TriangleCount | Assignment_2/assignment2/mesh_viewer.py:46-49 | the number of three-vertex faces, at most the number of faces |
| MeshViewer.TriangleIndicesShape | Assignment_2/assignment2/mesh_viewer.py:45-50 | the index buffer has 3 entries per three-vertex face and every entry names a vertex |
| MeshViewer.AllTrianglesKept | Assignment_2/assignment2/mesh_viewer.py:45-50 | for a pure triangle mesh, entries 3k..3k+2 are the vertices of face k, in order |
| MeshViewer.ExtractIndices | Assignment_2/assignment2/mesh_viewer.py:45-50 | the face loop extends the buffer with exactly the faces that have 3 vertices |
| MeshViewer.SeqMin | Assignment_2/assignment2/mesh_viewer.py:114 | `np.min` is an entry no larger than any other |
| MeshViewer.SeqMax | Assignment_2/assignment2/mesh_viewer.py:116 | `np.max` is an entry no smaller than any other |
| MeshViewer.NormalizedBounds | Assignment_2/assignment2/mesh_viewer.py:118 | a normalised valence lies in [0, 1), the minimum mapping to 0 |
| MeshViewer.NormalizedMonotone | Assignment_2/assignment2/mesh_viewer.py:118 | normalisation never reverses the order of two valences |
| MeshViewer.ColormapNameSameIff | Assignment_2/assignment2/mesh_viewer.py:121 | indexing the twelve names of `_colormaps` as Python does: two indices in [-12, 12) select the same colormap exactly when they are congruent modulo 12 |
| MeshViewer.ColorCodingValues | Assignment_2/assignment2/mesh_viewer.py:110-136 | one colour per vertex, each the colormap at that vertex's normalised valence, which is in [0, 1) and 0 for the least valence |
| MeshViewer.ColorCodingEmpty | Assignment_2/assignment2/mesh_viewer.py:114 | a mesh without vertices has no colour coding (`np.min` of an empty array raises) |
| MeshViewer.AccumulatedUntouched | Assignment_2/assignment2/mesh_viewer.py:83-94 | a vertex in no face keeps the zero it was filled with |
| MeshViewer.AccumulatedStep | Assignment_2/assignment2/mesh_viewer.py:85-94 | each face adds its unit normal once to each of its vertices (one more face normal on top of the earlier ones) and leaves the others alone |
| MeshViewer.VertexNormalDirection | Assignment_2/assignment2/mesh_viewer.py:96-97 | each final normal has length 1 and is a positive multiple of the summed face normals |
| MeshViewer.InterleavedEntry | Assignment_2/assignment2/mesh_viewer.py:146-148 | entry 9v + c of the buffer is component c of vertex v's position, normal and colour |
| MeshViewer.InterleavedAttribute | Assignment_2/assignment2/mesh_viewer.py:146-168 | the three values at offset 0, 3 or 6 of vertex v are its position, normal or colour |
| MeshViewer.InterleavedLayout | Assignment_2/assignment2/mesh_viewer.py:145-161 | the buffer has 9 values per vertex: position, normal, colour |
| MeshViewer.MeshViewer.constructor | Assignment_2/assignment2/mesh_viewer.py:39-78 | triangle indices, the points as positions, the valences, colormap 3 (`prism`), its colour coding, and the vertex normals |
| MeshViewer.MeshViewer.CopyPoints | Assignment_2/assignment2/mesh_viewer.py:74-77 | `positions[idx]` is the point of vertex idx |
| MeshViewer.MeshViewer.CalcValences | Assignment_2/assignment2/mesh_viewer.py:99-108 | one entry per vertex, `valences[idx]` the valence of vertex idx |
| MeshViewer.MeshViewer.ComputeNormals | Assignment_2/assignment2/mesh_viewer.py:82-97 | zero all normals, add each face's unit normal to its vertices, then divide each by its length: every vertex gets its vertex normal |
| MeshViewer.MeshViewer.NormalizeAll | Assignment_2/assignment2/mesh_viewer.py:96-97 | each normal is divided by its own length |
| MeshViewer.MeshViewer.AddFaceNormal | Assignment_2/assignment2/mesh_viewer.py:93-94 | each vertex of the face gains the face normal once per occurrence; the others are untouched |
| MeshViewer.MeshViewer.SetColormap | Assignment_2/assignment2/mesh_viewer.py:138-140 | stores the new index, and recomputes the colours when the index names a colormap; the rest of the viewer is unchanged |
| Scene.AsFloat | Assignment_4/assignment4/scene.py:54-58 | `float` fails exactly on a token that is not a number, and reads an integer token as that integer |
| Scene.AsInt | Assignment_4/assignment4/scene.py:46 | `int` succeeds exactly on an integer token |
| Scene.ParseVertices | Assignment_4/assignment4/scene.py:53-59 | reading k vertices gives exactly k when it succeeds |
| Scene.ParseVerticesStep | Assignment_4/assignment4/scene.py:53-59 | one vertex read from its five lines either fails the triangle or is followed by the rest from five lines on |
| Scene.AfterEnds | Assignment_4/assignment4/scene.py:52-59 | the vertex list starts empty and is complete when nothing is left to read |
| Scene.TriangleLayout | Assignment_4/assignment4/scene.py:51-60 | a triangle is read exactly when its three five-line vertex groups are, and its vertices are those groups in order |
| Scene.ParseObjectAdvance | Assignment_4/assignment4/scene.py:49-71 | a record consumes its header and exactly 15 (triangle), 5 (sphere), 2 (light) or 0 (other) lines, and its kind is its header word |
| Scene.VertexFields | Assignment_4/assignment4/scene.py:54-59 | only the vertex normal is normalised; position, diffuse, specular and shininess are stored as read |
| Scene.ObjectsRead | Assignment_4/assignment4/scene.py:48-71 | the loop reads at most the announced number of objects |
| Scene.AppendAllExtends | Assignment_4/assignment4/scene.py:60-71 | appending objects extends each list by the objects of its kind, in order, and leaves the ambient light and camera alone |
| Scene.ObjectsReadStep | Assignment_4/assignment4/scene.py:48-71 | one loop iteration either raises, ending the reading, or appends its object and leaves the same outcome for the remaining count |
| Scene.ApplyKinds | Assignment_4/assignment4/scene.py:60-71 | one object is appended to the list of its kind only |
| Scene.KindsBounded | Assignment_4/assignment4/scene.py:48-71 | there are no more triangles, spheres and lights than objects read, since unknown records add nothing |
| Scene.LoadSceneEffect | Assignment_4/assignment4/scene.py:44-71 | an unreadable count or ambient line changes nothing; otherwise the ambient colour is tokens 1..3 of line 2, its position and the camera stay, the lists only grow, and by at most the count |
| Scene.LoadSceneOrder | Assignment_4/assignment4/scene.py:48-71 | each list is extended by the objects of its kind in file order, and loading completes exactly when all announced objects were read |
| Scene.Scene.constructor | Assignment_4/assignment4/scene.py:37-42 | ambient light at the origin with colour (0.1, 0.1, 0.1), no objects, camera at the origin |
| Scene.Scene.LoadSceneFrom | Assignment_4/assignment4/scene.py:44-71 | the line-by-line loop leaves the scene and the outcome that `load_scene` describes |
| Scene.Scene.Append | Assignment_4/assignment4/scene.py:60-71 | appends the object to the list of its kind |
| Scene.Scene.ReadObject | Assignment_4/assignment4/scene.py:49-71 | one record, chosen by its header word |
| Scene.Scene.ReadTriangle | Assignment_4/assignment4/scene.py:52-60 | the `for _ in range(3)` loop reads the three vertices of a triangle |
| Scene.Scene.ReadVertex | Assignment_4/assignment4/scene.py:54-59 | the five lines of one vertex |

## Left out

- These crashes of the source are excluded by a precondition rather than modelled as an error
  result:
  - `RegistrationApp.RegistrationViewerApp.PressN` requires at least one mesh;
    `% len(self.meshes)` divides by zero at Assignment_5/assignment5/app.py:290.
  - `RegistrationApp.RegistrationViewerApp.PerformRegistration` requires at least one mesh;
    `self.meshes[self.cur_index]` raises IndexError at Assignment_5/assignment5/app.py:319.
  - `MeshViewer.MeshViewer.constructor` requires a mesh with at least one vertex; `np.min`
    raises at Assignment_2/assignment2/mesh_viewer.py:114.
  - `Spline.SloanMethod` requires at least two points; `Ts[-1]` raises at
    Assignment_3/assignment3/spline.py:162.
  - `HeightMap.HeightMap.constructor` requires an image of at least 2 × 2 pixels; a single row
    or column divides by zero at Assignment_1/assignment1/height_map.py:148-149.
  - `Railway.RailwayEntity.constructor` requires at least two steps; fewer samples leave
    `sloan_method` with no chord, and it raises at `Ts[-1]`.
- Window, GLFW input, OpenGL buffers and shaders, and every `draw`, `display`, `destroy`,
  `_setup_gl_buffers` and `setup_shaders` method are left out. They are UI and foreign calls.
  The layouts they upload are modelled: interleaved mesh vertices and rail vertices.
- The mouse-driven `motion` (Assignment_5/assignment5/app.py:300-316), `mouse` and the zoom
  keys are left out as UI.
- File reading is left out:
  - `open_meshes` reading meshes with openmesh, centring them and measuring edges. The loaded
    meshes and their average edge lengths are inputs of `OpenMeshes`, which models the state
    it sets.
  - `save_points`, `load_shader_file`, the track-file reading of `RailwayEntity.__init__`
    (the control points are an input) and `cv2.imread` (the image is an input array).
  - In the scene reader, the file becomes a sequence of tokenised lines. A token is
    classified by whether Python's `int` and `float` accept it; the parsing of digits and
    whitespace is not modelled.
- Entry points and plotting are not part of this model: every `main.py`, `run_all.py`,
  Assignment 6's marching cubes, `utils.py`, `spline.animate` and the plotting under
  `__main__`.
- No floating-point rounding is modelled: no float32 casts, no NaN and no infinity. All values
  are exact reals.
- Normalising a zero vector yields NaN in the source. `Vectors.Unit` returns the zero vector
  instead. This affects `sloan_method`, `compute_normals` and the point-to-correspondence
  unit vector, which is only formed for a non-zero offset.
- `transformation.py` uses `np.radians` with π as a parameter. `sqrt`, `sin`, `cos`,
  `np.linalg.lstsq`, `np.median`, the matplotlib colormap and openmesh's `valence` are
  parameters with minimal axioms. No property of their values is proved beyond those axioms.
  The shuffle is an arbitrary permutation.
- The closest-point structure is an argmin over the target points with the lowest index on
  ties; `closest_point.py` is not part of this model. Its query raising is modelled only for
  an empty target.
- `Vec3.normalize` in `load_scene` is recorded symbolically (`Scene.Normalized`), because the
  vector module of Assignment 4 is not part of this model.
- UI enums and state callbacks are left out as UI-only logic: `DrawingMode.next`,
  `ControlState` transitions and colour-scale clamps.
- Assignment_4/assignment4/primitives.py records are datatypes only; they have no behaviour.
- `update_model_transform` in the height map is left out. It builds its matrices with pyrr
  calls, which are foreign code.
- MeshViewer.MeshViewer.SetColormap: the source takes any index; Python's list indexing raising
  for an index out of range is modelled as `ok == false` with the colours unchanged.
- Scene.Scene.LoadSceneFrom: for a line with too many values, the source's `Vec3(*…[1:4])`
  uses only the first three values after the label. The model does the same; it does not
  model `Vec3` rejecting other argument counts beyond "fewer than three".

## Findings

| source | as written | input that shows it | evidently intended | confidence | as-written member | corrected member |
|---|---|---|---|---|---|---|
| Assignment_3/assignment3/spline.py:112-120 | `__call__` tests `segment_lengths[i]`, the chord before piece i, when it chooses piece i (which runs from padded point i + 1 to i + 2), so the running totals stop one chord short | four collinear control points (0,0,0), (1,0,0), (2,0,0), (3,0,0) and t = 0.8: the totals 0, 1, 2 never reach 2.4, so the loop ends and `_points[-2]` = (3,0,0) is returned instead of a point on the last piece | test `segment_lengths[i + 1]`, the chord of piece i, so that every t in [0, 1] finds a piece | not executed | Spline.Spline.AsWrittenStallsAtEnd, Spline.EvaluateRunsOffEnd, Railway.TrackStallsAtEnd | Spline.Spline.CallCorrected, Spline.EvaluateCorrectedOnPiece, Spline.CorrectedSearchSucceeds, Spline.Spline.CorrectedNeverFallsBack |
| Assignment_1/assignment1/height_map.py:99-151 | `texture[i, j] = [g, r, b]` stores the channels in the order g, r, b, and `_build_vertex_data` unpacks them as `r, g, b = texture[i, j]` | a white pixel (height 1): the stored triple is (0, 1, 0) and the vertex colour is pure green; height 0.5 gives the vertex (1, 0.5, 0.5), mostly red | store `[r, g, b]`, so that red represents high heights as the method's documentation and the comment "Red increases with height" say | not executed | HeightMap.VertexColourAsWritten, HeightMap.ColourEnds | HeightMap.IntendedVertexColour |

The railway keeps the lookup as written, since that is what `railway_entity.py` samples.
`Railway.TrackStallsAtEnd` shows what this costs the railway: every sample whose length along
the curve lies past the total less the last real chord is the last control point. Those
trailing samples repeat, their chords are zero, and `sloan_method` gives them zero tangents
(the model's `Vectors.Unit` keeps a zero vector where NumPy would produce NaN).

The height map keeps the channel order as written, since it is what the vertices receive.
`HeightMap.VertexColourAsWritten` states the colours the vertices get.

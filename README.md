# Curvilinear grid engine: verified model of its core

This project models the core of a Rust renderer that draws a 3D grid through
a user-supplied curvilinear coordinate system X(x, y, z), Y(x, y, z), Z(x, y, z):

- `Coords` (coords_sys.dfy): building a coordinate system, including the
  per-axis curvature density sqrt(sum of squared second partials), evaluating
  it, integrating the density with a quadrature, and comparing texts.
- `GridEdge`, `GridKeys`, `Grid` (grid_edge.dfy, grid_keys.dfy, grid.dfy):
  - the edge templates (`Edge`) and the density `curvature_to_vertices`;
  - the enumeration of every candidate segment key of a `GridConfig`;
  - `build_segment`;
  - the `Grid` object, which reconciles its segment map with a new key set and
    regroups segments into per-vertex-count buckets, reusing existing edges.
- `GridPoints` (grid_world.dfy): `GridWorld::new` / `process_data`. Every
  vertex of every placed edge goes through the coordinate system and into a
  spatial index.
- `MetricSpace` (space.dfy): `dot3`, `sum3`, `Space::new` (the metric tensor
  J^T J built from the Jacobian) and `get_metric`.
- `InputState` (input.dfy): the `Input` object (keys held, mouse position and
  delta, mouse buttons).
- `ObjLoader` (obj_loader.dfy): the line loop of `load_obj`.
- `EquationUi` (ui.dfy): `check_eq_validity` and the error-popup state of
  `ControlApp` (set by "Apply", cleared by "Close").
- `Results`, `Expressions`, `MapFolds`, `Decimal`: shared `Option`/`Result`, the
  abstract symbolic expression engine, order-independent folds over hash maps,
  and the decimal text of numbers (parsed by the OBJ reader, printed by
  `Space::new`'s panic message).

Modelling conventions:

- Floating-point numbers are reals.
- The symbolic engine (exmex) is abstract:
  - A parsed formula is its canonical text plus its variable names.
  - What the core builds from formulas is a symbolic `Term`.
  - Numbers come out of a term only through an `Engine` value, assumed `Sound`:
    squaring is v*v, and sqrt of a non-negative number is non-negative.
- These are parameters known only through the stated properties:
  - the quadrature (trapezoidal rule), through `QuadratureMonotone`;
  - the natural logarithm, through `LnLike`;
  - the 4x4 placement-matrix application;
  - float parsing;
  - symbolic differentiation.
- Rust's `as usize` saturates and `f64::round` rounds halves away from zero;
  both are written out.
- Panics (`unwrap` on a NaN, `panic!` on edge creation) become `Err` results or
  an `ok = false` outcome.
- Hash-map iteration order is never relied on:
  - group-by results are stated as multisets;
  - sums over a map use order-independent folds;
  - where the source emits in iteration order, the order is a ghost out-parameter.

Behaviours of the code the model keeps:

- `update_config` does not compare the new configuration with the previous one; it
  always recomputes the key set and reconciles. That a repeated configuration
  changes nothing follows from the reconciliation itself (`Grid.UpdateConfigTwice`).
- A failing edge creation panics; it returns no typed error. The curvature is
  computed unconditionally, so there is no curvature-evaluation error to propagate.
- `create_edge` stores the indices of `build_indices` as written, n pairs for n
  vertices (see Findings).
- Zero-length segments cannot arise from keys: every segment spans one unit.

## Model

| member | source | states |
|---|---|---|
| Coords.IndexOf | src/app/coords_sys.rs:39-55 | the position found holds the name and is the first one; None exactly when the name is absent |
| Coords.CurvatureTerm | src/app/coords_sys.rs:37-59 | fails exactly when the equation has 0 or more than 3 variables; with 1-2 variables it is the squared second partial along the axis' coordinate name if present, else the constant 0; with 3 it is the squared second partial of the axis-th variable |
| Coords.ThreeCoordinateVars | src/app/coords_sys.rs:56 | sorted distinct variables drawn from {x,y,z}, three of them, are exactly x, y, z |
| Coords.CurvatureTermDifferentiatesAlongAxis | src/app/coords_sys.rs:37-59 | for a validated equation every branch differentiates with respect to the variable named after the axis, including the positional three-variable branch |
| Coords.AxisCurvature | src/app/coords_sys.rs:60-65 | succeeds exactly when all three equations have 1..3 variables; the density is sqrt(term_X + term_Y + term_Z) |
| Coords.CalculateCurvature | src/app/coords_sys.rs:33-69 | succeeds under the same condition; the three densities are those of axes x, y, z in order |
| Coords.New | src/app/coords_sys.rs:20-30 | succeeds exactly when calculate_curvature does; keeps the three equations; the x, y and z curvatures are the per-axis densities calculate_curvature computes, each of the sqrt-of-sum-of-squares shape |
| Coords.DensityShape | src/app/coords_sys.rs:60-65 | each computed density is sqrt of a sum of three squares or zero constants |
| Coords.DensityNonNegative | src/app/coords_sys.rs:60-65 | such a density evaluates to a non-negative number at every point (sqrt(0) included) |
| Coords.SquareOrZeroNonNegative | src/app/coords_sys.rs:42 | a squared term or the zero constant is never negative |
| Coords.Fixed | src/app/coords_sys.rs:73-75 | fixing two coordinates of a density gives the density along the third at those coordinates |
| Coords.Integrand | src/app/coords_sys.rs:72-75 | the integrand of an axis is that axis' density with the other two coordinates taken from the point |
| Coords.GetCurvature | src/app/coords_sys.rs:71-80 | component i is the quadrature of axis i's integrand over [p_i - len, p_i + len] with 100 sub-intervals |
| Coords.CurvatureNonNegative | src/app/coords_sys.rs:71-80 | with a monotone quadrature and len >= 0 every curvature component is >= 0 |
| Coords.Eval | src/app/coords_sys.rs:82-87 | component i is equation i evaluated at the same (x, y, z) |
| Coords.IdentityEval | src/app/coords_sys.rs:82-87 | the identity system X=x, Y=y, Z=z maps every point to itself |
| Coords.IsEquivalent | src/app/coords_sys.rs:89-92 | true exactly when each text equals the canonical text of the equation at the same position |
| Expressions.WithCoord | src/app/grid.rs:260-266 | the chosen coordinate is replaced and the other two are unchanged |
| Expressions.SquareNonNegative | src/app/coords_sys.rs:42 | `t ^ 2` never evaluates negative |
| GridEdge.BuildIndicesAsWritten | src/app/grid.rs:21-27 | the indices as written: n pairs, pair i is (i, i+1) |
| GridEdge.AsWrittenIndexOutOfRange | src/app/grid.rs:21-27 | for n >= 2 the last pair written names vertex n, one past the last vertex of the edge; so does the last pair of the edge create_edge stores |
| GridEdge.BuildIndices | src/app/grid.rs:21-27 | corrected: n-1 pairs (i, i+1), every index below n |
| GridEdge.EdgeVerticesSpan | src/app/grid.rs:44-48 | an edge of n vertices starts at (0,0,0), ends at (1,0,0), stays in [0,1] and is evenly spaced by 1/(n-1) |
| GridEdge.CreateEdge | src/app/grid.rs:38-51 | fails exactly when n < 2; otherwise n evenly spaced samples on the x axis, the n index pairs (i, i+1) build_indices writes, and no VAO |
| GridEdge.CreateVao | src/app/grid.rs:57-64 | succeeds exactly when the vertex count matches nb_vertices, and then only marks the edge as uploaded |
| GridEdge.RoundMonotone | src/app/grid.rs:93 | rounding half away from zero is monotone on non-negative reals |
| GridEdge.CurvatureToVerticesAtZero | src/app/grid.rs:92-94 | zero curvature gives exactly 2 vertices |
| GridEdge.CurvatureToVerticesAtLeastTwo | src/app/grid.rs:92-94 | non-negative curvature gives at least 2 vertices |
| GridEdge.CurvatureToVerticesMonotone | src/app/grid.rs:92-94 | 0 <= c1 <= c2 implies vertices(c1) <= vertices(c2) |
| GridKeys.SegmentLength | src/app/grid.rs:185-187 | the length fails (NaN unwrap) exactly when span and count are both zero |
| GridKeys.AxesOf | src/app/grid.rs:177-187 | fails exactly when a range length is negative or a segment length is NaN |
| GridKeys.SweepMember | src/app/grid.rs:189-236 | a key is in a sweep iff its direction and length match and its outer, middle and inner coordinates come from the three arrays |
| GridKeys.KeySetMembers | src/app/grid.rs:189-236 | a key belongs to the key set iff, for its direction, the varying coordinate is in the unit range and the other two are in the linspaces |
| GridKeys.UnitRangeBounds | src/app/grid.rs:177-179 | every element of range(a, b, 1) lies in [a, b) at an integral offset from a |
| GridKeys.LinspaceBounds | src/app/grid.rs:181-183 | every element of linspace(a, b, n) lies in [a, b]; it starts at a and, for n >= 2, ends at b |
| GridKeys.KeyWithinBounds | src/app/grid.rs:174-238 | every key lies inside the configured box, and its start along its own direction is at an integral offset below the maximum |
| GridKeys.InsertSweep | src/app/grid.rs:189-204 | the triple loop adds exactly the sweep's keys to the set |
| GridKeys.BuildKeysForIndices | src/app/grid.rs:174-238 | fails exactly when the axes fail; otherwise returns the key set of the three sweeps |
| Grid.BuildSegment | src/app/grid.rs:241-304 | always yields a segment with the key's direction, a placement from the key's start to one unit further along its axis, and thickness 0.02 |
| Grid.BuildSegmentEdgeKey | src/app/grid.rs:274-301 | the vertex count is curvature_to_vertices of the key's axis component of the curvature at the midpoint with half-width 1 |
| Grid.BuildSegmentIgnoresLength | src/app/grid.rs:241-304 | the segment does not depend on the key's length field |
| Grid.SegmentEdgeKeyAtLeastTwo | src/app/grid.rs:274-301 | with sound numerics every segment gets at least 2 vertices |
| Grid.ReconcileIdempotent | src/app/grid.rs:350-363 | reconciling twice with the same keys changes nothing the second time |
| Grid.ReconcileKeys | src/app/grid.rs:350-363 | the reconciled keys are the new keys and existing entries are kept unchanged |
| Grid.ReconcileEdgeKeysAtLeastTwo | src/app/grid.rs:350-363 | reconciling preserves "every segment has at least 2 vertices" |
| Grid.BucketAdd | src/app/grid.rs:309-315 | adding a segment adds its placement only to its own bucket |
| Grid.BucketEmptyIff | src/app/grid.rs:309-315 | a bucket is empty iff no segment has that vertex count |
| Grid.BucketMember | src/app/grid.rs:309-315 | a placement is in bucket n iff some segment with n vertices carries it |
| Grid.RenderedBuckets | src/app/grid.rs:307-347 | in a valid grid no edge has an empty list and every vertex count in use has its edge |
| Grid.RenderedAtLeastTwo | src/app/grid.rs:331-337 | in a valid grid every segment has at least two vertices, so regrouping it cannot hit the create_edge panic |
| Grid.GroupStep | src/app/grid.rs:310-314 | one grouping step keeps the bucket keys and bucket contents in step with the segments seen |
| Grid.EdgeKeysAdd | src/app/grid.rs:310-314 | adding a segment adds its vertex count to the set of counts in use |
| Grid.GroupByEdge | src/app/grid.rs:309-315 | the groups are keyed by the counts in use, and each group is a permutation of that bucket |
| Grid.ReuseEdges | src/app/grid.rs:318-328 | an old edge survives iff its count still has segments, and it gets the new list; the counts left over are those without an old edge |
| Grid.CreateEdges | src/app/grid.rs:330-344 | succeeds iff every missing count is >= 2; then the data is the reused edges plus a fresh edge per missing count, each with its group |
| Grid.Grid.constructor | src/app/grid.rs:164-170 | a new grid is valid, keeps its coordinate system, and has no segments and no render data |
| Grid.Grid.RebuildRenderData | src/app/grid.rs:307-347 | succeeds iff every segment has >= 2 vertices; then the grid is valid (each count in use has exactly its edge with that bucket) and only the new counts got new edges |
| Grid.ReconcileSegments | src/app/grid.rs:351-362 | the retain-then-build loop yields exactly the reconciled table, and build_segment runs only for the keys that were missing |
| Grid.Grid.UpdateSegmentsFromKeys | src/app/grid.rs:350-363 | segments become the reconciliation with the new keys (kept segments untouched, see Grid.ReconcileKeys), only keys absent before are built, then the render data is rebuilt with the same outcome as Grid.Grid.RebuildRenderData |
| Grid.Grid.UpdateConfig | src/app/grid.rs:365-370 | a config whose arrays fail reports failure and leaves segments, render data and the build records as they were; otherwise segments are reconciled with the config's key set and the render data rebuilt |
| Grid.UpdateConfigAgain | src/app/grid.rs:365-370 | applying the configuration a grid already shows leaves the segment table as it is, builds nothing, creates no edge and keeps the grid valid |
| Grid.UpdateConfigTwice | src/app/grid.rs:365-370 | applying the same config twice to a valid grid: neither call fails, the segments are those the first reconciliation gives, and the second call builds no segment and creates no edge |
| MapFolds.SumOverRemove | src/app/grid_world.rs:19-22 | a sum over a map's keys can peel off any key, so it is independent of iteration order |
| MapFolds.BagOverRemove | src/app/grid.rs:309-315 | likewise for multiset unions |
| MapFolds.BagOverAgree | src/app/grid.rs:309-315 | the union depends only on the values at the keys summed over |
| MapFolds.BagOverEmpty | src/app/grid.rs:309-315 | the union is empty iff every contribution is |
| GridPoints.EstimateCap | src/app/grid_world.rs:19-22 | the capacity is the sum, over all edges, of vertex count times number of transforms |
| GridPoints.ProcessData | src/app/grid_world.rs:16-36 | every edge is visited exactly once; the points are, per edge and per transform, every vertex placed and then evaluated by the coordinate system |
| GridPoints.BucketPointAt | src/app/grid_world.rs:24-34 | one edge contributes transforms times vertices points; point i*|vs|+j is vertex j under transform i, evaluated |
| GridPoints.BucketPointsIgnoreDirection | src/app/grid_world.rs:26 | the points do not depend on the direction tags |
| GridPoints.GatheredLength | src/app/grid_world.rs:16-36 | the number of points gathered equals the capacity estimate |
| GridPoints.DropLast | src/app/grid_world.rs:24 | the visiting order without its last edge visits exactly the other edges, once each |
| GridPoints.ValidEdgesHoldTheirVertices | src/app/grid.rs:57-64 | every edge of valid render data holds nb_vertices vertices |
| GridPoints.New | src/app/grid_world.rs:11-15 | the index holds exactly the gathered points; for a valid grid their number equals the capacity estimate |
| MetricSpace.Sum3Value | src/maths/space.rs:18-21 | sum3 evaluates to the sum of its three values |
| MetricSpace.Dot3Value | src/maths/space.rs:23-28 | dot3 evaluates to the dot product of the values |
| MetricSpace.New | src/maths/space.rs:31-59 | succeeds iff the three gradients have 3 components; then a 3x3 matrix whose (i,j) entry, for i <= j, is the dot product of Jacobian columns i and j, mirrored below the diagonal |
| MetricSpace.MatrixEntries | src/maths/space.rs:52-56 | the assembled matrix is 3x3, holds the dot product of columns i and j at (i, j) for i <= j, and mirrors it below the diagonal |
| MetricSpace.MetricSymmetric | src/maths/space.rs:45-56 | the metric is symmetric |
| MetricSpace.MetricValue | src/maths/space.rs:45-56 | entry (i,j) evaluates to the sum over k of dX_k/dx_i * dX_k/dx_j, for every i, j |
| MetricSpace.MetricDiagonalNonNegative | src/maths/space.rs:45-56 | diagonal entries evaluate to a sum of squares, never negative |
| MetricSpace.IdentityMetric | tests/metric.rs:54-77 | the identity transform has the identity metric |
| MetricSpace.LinearMetric | tests/metric.rs:38-53 | X=x+2y, Y=3y-z, Z=4z has metric [1 2 0; 2 13 -3; 0 -3 17] |
| InputState.Remove | src/toolbox/input.rs:28 | removing a key keeps exactly the other keys and never grows the list |
| InputState.RemoveNoDuplicates | src/toolbox/input.rs:28 | removal keeps a duplicate-free list duplicate-free |
| InputState.KeysAfterQuery | src/toolbox/input.rs:22-30 | after a press the key is held, after a release it is not, after a repeat nothing changes; other keys are unaffected |
| InputState.KeysAfterNoDuplicates | src/toolbox/input.rs:22-30 | a key is never held twice |
| InputState.Input.constructor | src/toolbox/input.rs:12-20 | nothing held, mouse at the origin, zero delta |
| InputState.Input.KeyHandler | src/toolbox/input.rs:22-30 | the held keys become those after the event, and stay duplicate-free |
| InputState.Input.SetMousePos | src/toolbox/input.rs:32-35 | the position becomes the new one and the delta is new minus old |
| InputState.Input.MouseButtonHandler | src/toolbox/input.rs:37-55 | press sets, release clears and repeat keeps the left/right flag of that button; other buttons change nothing |
| InputState.Input.IsKeyPressed | src/toolbox/input.rs:57-59 | true iff the key is among those held |
| InputState.Input.IsMouseButtonPressed | src/toolbox/input.rs:61-67 | the left and right flags for those buttons, false for any other |
| InputState.PressThenRelease | src/toolbox/input.rs:22-30 | after press and release a key is not held, and other keys are as before |
| ObjLoader.Find | src/toolbox/obj_loader.rs:23 | the first position of the character, or the length when it is absent |
| ObjLoader.Lines | src/toolbox/obj_loader.rs:9 | no line contains a newline |
| ObjLoader.TokenLength | src/toolbox/obj_loader.rs:10 | the longest whitespace-free prefix |
| ObjLoader.SplitWhitespace | src/toolbox/obj_loader.rs:10 | tokens are non-empty and contain no whitespace |
| ObjLoader.ParseUsize | src/toolbox/obj_loader.rs:23 | a parsed index fits in usize |
| Decimal.DecimalText | src/toolbox/obj_loader.rs:22-24 | the decimal text of a number is non-empty and made of digits |
| Decimal.DecimalTextValue | src/toolbox/obj_loader.rs:22-24 | reading the decimal text back gives the number |
| ObjLoader.ParseUsizeDecimal | src/toolbox/obj_loader.rs:23 | parsing the decimal text, with or without '+', gives the number |
| ObjLoader.ParseIndex | src/toolbox/obj_loader.rs:23 | the u32 index taken from the field before '/' is below 2^32 |
| ObjLoader.FindAfterDigits | src/toolbox/obj_loader.rs:23 | the '/' after a digit run is found right after it |
| ObjLoader.FaceIndexAsWritten | src/toolbox/obj_loader.rs:21-26 | a face field "n/..." with n < 2^32 yields index n |
| ObjLoader.LoadObj | src/toolbox/obj_loader.rs:3-32 | the loop's result is the fold of the line step over the lines of the file |
| ObjLoader.LoadLinesAbort | src/toolbox/obj_loader.rs:15-26 | once a line fails, the rest of the file does not change the error |
| ObjLoader.StepResult | src/toolbox/obj_loader.rs:10-28 | a line fails iff it is malformed; otherwise it appends a vertex for `v`, a face for `f`, nothing else |
| ObjLoader.LoadLinesResult | src/toolbox/obj_loader.rs:3-32 | loading succeeds iff no line is malformed, and the mesh holds the vertex records and face records in file order |
| ObjLoader.RecordCounts | src/toolbox/obj_loader.rs:9-29 | the mesh has one vertex per `v` line and one face per `f` line |
| EquationUi.FirstInvalidVar | src/app/ui.rs:310-315 | None iff every variable is x, y or z; otherwise a variable that is not |
| EquationUi.CheckEqValidity | src/app/ui.rs:305-317 | accepts iff the text is non-empty, parses, and uses only x, y, z; the accepted expression is the parsed one; the empty and parse-error messages are as in the source |
| EquationUi.RejectedVariable | src/app/ui.rs:310-315 | a parsed equation is rejected only because of a variable outside {x, y, z} |
| EquationUi.PopupFields | src/app/ui.rs:249-253 | the popup text is the header, then the x, y and z messages separated by the fixed labels |
| EquationUi.ControlApp.constructor | src/app/ui.rs:88-95 | no popup at start |
| EquationUi.ControlApp.Apply | src/app/ui.rs:242-256 | with three valid equations the popup is untouched; otherwise it shows the three error messages |
| EquationUi.ControlApp.ShowPopup | src/app/ui.rs:260-301 | closing the window or pressing Close clears the popup; otherwise it stays |
| EquationUi.ApplyThenClose | src/app/ui.rs:242-301 | an empty equation opens the popup and Close dismisses it |

## Left out

- OpenGL: VAO/VBO creation and upload are left out. A failing `VAO::create_vao` inside `create_vao` is not modelled; only the vertex-count check is.
- Floating-point rounding is not modelled; numbers are reals:
  - `build_segment` returns `None` only when the f64 sum u + 1 equals u or the length is below epsilon. With reals neither happens, so `Grid.BuildSegment` always returns `Some`.
  - NaN and infinite coordinates are not modelled, except the NaN segment-length panic and the infinite length kept in keys.
  - The f32 conversion of edge vertices for upload is left out.
- The rotation and scale matrices of `build_segment` are not modelled. The placement is kept as its origin, target and thickness, and its application to a vertex is a parameter of `GridPoints`.
- The trapezoidal rule and the natural logarithm are parameters. The model uses only their monotonicity, and ln(1) = 0.
- The exmex engine is left out: parsing, `partial_nth` (its errors are not modelled), canonical printing and fast compilation.
  - Formulas from the UI are assumed to list their variables sorted over {x, y, z} where a lemma needs it.
  - `Form::d` in `Space::new` is the parameter `derive`.
- The polar-coordinate branch of `build_segment` (grid.rs:280-287) assigns the same value on both sides of its test, so it is modelled as one computation.
- The kd-tree of `GridWorld` is modelled as the multiset of points it holds. Its queries (nearest, ray cast) and world.rs orchestration are not part of this model.
- Logging, `println!`, egui layout and widgets, and threads with their mutexes are left out.
  - `ControlApp::apply` has a commented-out "apply changes" branch that does nothing and is not modelled.
  - Equations are modelled only as far as their validation and the error popup.
- `Grid.Grid.RebuildRenderData`: the source panics on an edge of fewer than 2 vertices after it has already drained the old render data. The model reports `ok = false` and makes no claim about the render data in that case.
- Edge identity: reused edges are compared by value, because the source hashes them by value. Object identity of segments across updates is not expressed.
- ndarray's `range` and `linspace` are modelled by their documented element sequences.
- Reading the OBJ file from the embedded resources is left out: the file contents are a parameter. Float parsing in the OBJ loader is the parameter `parseFloat`.
- `Space.dim` is kept but never varied; `get_data` is a field read of `renderData`.
- Key codes and mouse buttons other than left and right are plain numbers.

## Findings

| source | as written | input that shows it | evidently intended | confidence | as-written member | corrected member |
|---|---|---|---|---|---|---|
| src/app/grid.rs:21-27 | `build_indices(n)` pushes n pairs [i, i+1] | n = 2 gives [0,1], [1,2] for an edge with vertices 0 and 1 only | n - 1 pairs joining consecutive vertices | medium: the renderer draws only 2n-1 index entries (src/render/grid_renderer.rs:33), so the extra pair is never drawn; the model's `create_edge` keeps the pairs as written; not executed | GridEdge.AsWrittenIndexOutOfRange | GridEdge.BuildIndices |

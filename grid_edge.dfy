/// Reusable edge geometry of src/app/grid.rs: `Edge` (a straight polyline
/// from (0,0,0) to (1,0,0) with `nb_vertices` samples and its line indices) and
/// `curvature_to_vertices`, the density that picks `nb_vertices` for a segment.
module GridEdge {
  import opened Results
  import opened Expressions

  /** An edge template. It is a hash-map key by value in the source, so it is a
      value here; `hasVao` records that `create_vao` has run on it. */
  datatype Edge = Edge(nbVertices: nat, vertices: seq<Point>, indices: seq<(nat, nat)>, hasVao: bool)

  /** `build_indices` as written: `nb_vertices` pairs [i, i + 1]. */
  function IndicesAsWritten(n: nat): seq<(nat, nat)>
  {
    seq(n, i requires 0 <= i < n => (i, i + 1))
  }

  method BuildIndicesAsWritten(n: nat) returns (indices: seq<(nat, nat)>)
    ensures |indices| == n
    ensures forall i :: 0 <= i < n ==> indices[i] == (i, i + 1)
    ensures indices == IndicesAsWritten(n)
  {
    indices := [];
    for i := 0 to n
      invariant |indices| == i
      invariant forall j :: 0 <= j < i ==> indices[j] == (j, j + 1)
    {
      indices := indices + [(i, i + 1)];
    }
  }

  /** The last pair `build_indices` writes for an edge of `n` vertices names
      vertex `n`, one past the last vertex the edge has. */
  lemma AsWrittenIndexOutOfRange(n: nat)
    requires n >= 2
    ensures IndicesAsWritten(n)[n - 1].1 == n == |EdgeVertices(n)|
    ensures EdgeFor(n).indices[n - 1].1 == |EdgeFor(n).vertices|
  {
  }

  /** The line indices of a polyline of `n` vertices: the `n - 1` pairs [i, i + 1]. */
  function SegmentIndices(n: nat): seq<(nat, nat)>
  {
    if n == 0 then [] else seq(n - 1, i requires 0 <= i < n - 1 => (i, i + 1))
  }

  /** `build_indices` with the evident intent: consecutive vertices joined, and
      every index names an existing vertex. */
  method BuildIndices(n: nat) returns (indices: seq<(nat, nat)>)
    ensures n >= 1 ==> |indices| == n - 1
    ensures forall i :: 0 <= i < |indices| ==> indices[i] == (i, i + 1)
    ensures forall i :: 0 <= i < |indices| ==> indices[i].0 < n && indices[i].1 < n
    ensures indices == SegmentIndices(n)
  {
    indices := [];
    if n == 0 {
      return;
    }
    for i := 0 to n - 1
      invariant |indices| == i
      invariant forall j :: 0 <= j < i ==> indices[j] == (j, j + 1)
    {
      indices := indices + [(i, i + 1)];
    }
  }

  /** The samples of an edge of `n` vertices: vertex i is (i / (n - 1), 0, 0). */
  function EdgeVertices(n: nat): seq<Point>
    requires n >= 2
  {
    seq(n, i requires 0 <= i < n => Point(i as real / (n - 1) as real, 0.0, 0.0))
  }

  /** The edge `create_edge(n)` builds, after `create_vao`; its indices are
      those `build_indices` writes, last pair included. */
  function EdgeFor(n: nat): Edge
    requires n >= 2
  {
    Edge(n, EdgeVertices(n), IndicesAsWritten(n), true)
  }

  /** An edge of `n` vertices runs from (0,0,0) to (1,0,0), its samples evenly
      spaced along the x axis. */
  lemma {:induction false} EdgeVerticesSpan(n: nat, i: nat)
    requires n >= 2 && i < n
    ensures |EdgeVertices(n)| == n
    ensures EdgeVertices(n)[0] == Point(0.0, 0.0, 0.0)
    ensures EdgeVertices(n)[n - 1] == Point(1.0, 0.0, 0.0)
    ensures 0.0 <= EdgeVertices(n)[i].x <= 1.0
    ensures i + 1 < n ==> EdgeVertices(n)[i + 1].x - EdgeVertices(n)[i].x == 1.0 / (n - 1) as real
  {
    var d := (n - 1) as real;
    assert EdgeVertices(n)[n - 1].x == d / d == 1.0;
    assert i as real <= d;
    assert i as real / d <= 1.0;
    if i + 1 < n {
      assert (i + 1) as real / d - i as real / d == 1.0 / d;
    }
  }

  /** `create_edge`: fails below two vertices, otherwise pushes the samples. */
  method CreateEdge(n: nat) returns (r: Result<Edge>)
    ensures r.Err? <==> n < 2
    ensures r.Ok? ==> r.value == Edge(n, EdgeVertices(n), IndicesAsWritten(n), false)
  {
    if n < 2 {
      return Err("Edge must have at least 2 vertices");
    }
    var indices := BuildIndicesAsWritten(n);
    var vertices: seq<Point> := [];
    for i := 0 to n
      invariant |vertices| == i
      invariant forall j :: 0 <= j < i ==> vertices[j] == EdgeVertices(n)[j]
    {
      var t := i as real / (n - 1) as real;
      vertices := vertices + [Point(t, 0.0, 0.0)];
    }
    r := Ok(Edge(n, vertices, indices, false));
  }

  /** The length check of `create_vao` (the buffer upload itself is GPU
      plumbing): it succeeds exactly when the edge holds `nb_vertices` vertices. */
  method CreateVao(e: Edge) returns (r: Result<Edge>)
    ensures r.Ok? <==> e.nbVertices == |e.vertices|
    ensures r.Ok? ==> r.value == e.(hasVao := true)
  {
    if e.nbVertices != |e.vertices| {
      return Err("Edge has a different number of vertices than were added");
    }
    r := Ok(e.(hasVao := true));
  }

  /** The largest `usize`. */
  const USIZE_MAX: int := 0xFFFF_FFFF_FFFF_FFFF

  /** `f64::round`: halves are rounded away from zero. */
  function Round(r: real): int
  {
    if r >= 0.0 then (r + 0.5).Floor else -((-r + 0.5).Floor)
  }

  /** `as usize` on an integral float: saturating at 0 and at `USIZE_MAX`. */
  function SaturateUsize(i: int): nat
  {
    if i < 0 then 0 else if i > USIZE_MAX then USIZE_MAX else i
  }

  function Abs(r: real): real
  {
    if r < 0.0 then -r else r
  }

  /** The natural logarithm, known through ln(1) = 0 and monotonicity on [1, oo). */
  ghost predicate LnLike(ln: real -> real)
  {
    && ln(1.0) == 0.0
    && forall a: real, b: real :: 1.0 <= a <= b ==> ln(a) <= ln(b)
  }

  /** `curvature_to_vertices`: round(3 cu + 2 ln(1 + |cu|) + 2) as usize. */
  function CurvatureToVertices(cu: real, ln: real -> real): nat
  {
    SaturateUsize(Round(cu * 3.0 + 2.0 * ln(1.0 + Abs(cu)) + 2.0))
  }

  lemma RoundMonotone(a: real, b: real)
    requires 0.0 <= a <= b
    ensures Round(a) <= Round(b)
  {
  }

  /** A straight segment (curvature 0) gets exactly two vertices. */
  lemma CurvatureToVerticesAtZero(ln: real -> real)
    requires LnLike(ln)
    ensures CurvatureToVertices(0.0, ln) == 2
  {
    assert Round(2.0) == 2;
  }

  /** A non-negative curvature never asks for fewer than two vertices. */
  lemma {:induction false} CurvatureToVerticesAtLeastTwo(cu: real, ln: real -> real)
    requires LnLike(ln) && cu >= 0.0
    ensures CurvatureToVertices(cu, ln) >= 2
  {
    assert ln(1.0) <= ln(1.0 + Abs(cu));
    var arg := cu * 3.0 + 2.0 * ln(1.0 + Abs(cu)) + 2.0;
    assert arg >= 2.0;
    RoundMonotone(2.0, arg);
    assert Round(2.0) == 2;
  }

  /** More curvature never means fewer vertices. */
  lemma {:induction false} CurvatureToVerticesMonotone(c1: real, c2: real, ln: real -> real)
    requires LnLike(ln) && 0.0 <= c1 <= c2
    ensures CurvatureToVertices(c1, ln) <= CurvatureToVertices(c2, ln)
  {
    assert 1.0 <= 1.0 + Abs(c1) <= 1.0 + Abs(c2);
    assert ln(1.0 + Abs(c1)) <= ln(1.0 + Abs(c2));
    assert ln(1.0) <= ln(1.0 + Abs(c1));
    var a1 := c1 * 3.0 + 2.0 * ln(1.0 + Abs(c1)) + 2.0;
    var a2 := c2 * 3.0 + 2.0 * ln(1.0 + Abs(c2)) + 2.0;
    assert 0.0 <= a1 <= a2;
    RoundMonotone(a1, a2);
  }
}

/// The adaptive grid cache of src/app/grid.rs: a table of segments keyed by
/// `SegmentKey`, reconciled in place against a new key set, and regrouped into
/// one bucket of placement transforms per vertex count (`render_data`).
module Grid {
  import opened Results
  import opened Expressions
  import opened Coords
  import opened GridEdge
  import opened GridKeys
  import opened MapFolds

  /** Thickness of a segment's placement (the y and z scale). */
  const THICKNESS: real := 0.02

  /** `f64::EPSILON`, 2^-52. */
  const EPSILON: real := 0.0000000000000002220446049250313080847263336181640625

  /** The placement transform translation(origin) . rotation(e_x to
      target - origin) . scale(|target - origin|, thickness, thickness),
      kept symbolic: only its defining points and thickness are modelled. */
  datatype Transform = Placement(origin: Point, target: Point, thickness: real)

  /** A built segment: its vertex count (the bucket id), placement and colour tag. */
  datatype Segment = Segment(edgeKey: nat, transform: Transform, dir: SegmentDir)

  /** A placement with its colour tag, as listed in `render_data`. */
  type Placed = (Transform, SegmentDir)

  /** The floating-point primitives the cache relies on: the expression
      engine, the trapezoidal rule and the natural logarithm. */
  datatype Numerics = Numerics(eng: Engine, quad: (real -> real, real, real, nat) -> real, ln: real -> real)

  ghost predicate SoundNumerics(num: Numerics)
  {
    Sound(num.eng) && QuadratureMonotone(num.quad) && LnLike(num.ln)
  }

  /** Axis index of a direction. */
  function AxisOf(dir: SegmentDir): (i: nat)
    ensures i < 3
  {
    match dir case X => 0 case Y => 1 case Z => 2
  }

  function Plus(a: Point, b: Point): Point
  {
    Point(a.x + b.x, a.y + b.y, a.z + b.z)
  }

  function Minus(a: Point, b: Point): Point
  {
    Point(a.x - b.x, a.y - b.y, a.z - b.z)
  }

  function Scale(a: Point, s: real): Point
  {
    Point(a.x * s, a.y * s, a.z * s)
  }

  function NormSquared(a: Point): real
  {
    a.x * a.x + a.y * a.y + a.z * a.z
  }

  /** The first corner of a key's segment. */
  function Start(key: SegmentKey): Point
  {
    Point(key.u, key.v, key.w)
  }

  /** `build_segment`: p0 is the key's corner and p1 the corner one unit further
      along the key's direction (whatever `key.len` says); the segment's vertex
      count comes from the curvature of that axis at the midpoint, over a
      half-width of 1; a segment no longer than EPSILON is dropped. */
  function BuildSegment(cs: CoordsSys, num: Numerics, key: SegmentKey): (r: Option<Segment>)
    ensures r.Some?
    ensures r.value.dir == key.dir
    ensures r.value.transform.origin == Start(key)
    ensures r.value.transform.target ==
      WithCoord(Start(key), AxisOf(key.dir), Coord(Start(key), AxisOf(key.dir)) + 1.0)
    ensures r.value.transform.thickness == THICKNESS
  {
    var (p0, p1, coordIndex) := match key.dir
      case X => (Point(key.u, key.v, key.w), Point(key.u + 1.0, key.v, key.w), 0)
      case Y => (Point(key.u, key.v, key.w), Point(key.u, key.v + 1.0, key.w), 1)
      case Z => (Point(key.u, key.v, key.w), Point(key.u, key.v, key.w + 1.0), 2);
    var dir := Minus(p1, p0);
    // |dir| <= EPSILON, compared on squares since both sides are non-negative.
    if NormSquared(dir) <= EPSILON * EPSILON then None
    else
      var mid := Scale(Plus(p0, p1), 0.5);
      var curvature := GetCurvature(cs, mid, 1.0, num.eng, num.quad);
      // The source's branch "specific for polar coordinates" picks the same
      // value on both sides.
      var (cu, segmentDir) := match coordIndex
        case 0 => (curvature.0, X)
        case 1 => (curvature.1, Y)
        case 2 => (curvature.2, Z);
      var transform := Placement(p0, p1, THICKNESS);
      Some(Segment(CurvatureToVertices(cu, num.ln), transform, segmentDir))
  }

  /** The vertex count of a segment comes from the curvature along the key's
      axis, taken at the segment's midpoint over a half-width of 1. */
  lemma BuildSegmentEdgeKey(cs: CoordsSys, num: Numerics, key: SegmentKey)
    ensures BuildSegment(cs, num, key).value.edgeKey == CurvatureToVertices(
      Component(GetCurvature(cs, WithCoord(Start(key), AxisOf(key.dir), Coord(Start(key), AxisOf(key.dir)) + 0.5),
                             1.0, num.eng, num.quad), AxisOf(key.dir)), num.ln)
  {
  }

  /** The segment does not depend on the key's recorded length. */
  lemma BuildSegmentIgnoresLength(cs: CoordsSys, num: Numerics, key: SegmentKey, len: Length)
    ensures BuildSegment(cs, num, key.(len := len)) == BuildSegment(cs, num, key)
  {
  }

  /** With sound numerics and a coordinate system built by `new`, every segment
      asks for at least two vertices, so `create_edge` never fails on it. */
  lemma {:induction false} SegmentEdgeKeyAtLeastTwo(cs: CoordsSys, num: Numerics, key: SegmentKey)
    requires SoundNumerics(num) && DensitiesWellFormed(cs)
    ensures BuildSegment(cs, num, key).value.edgeKey >= 2
  {
    var axis := AxisOf(key.dir);
    var mid := WithCoord(Start(key), axis, Coord(Start(key), axis) + 0.5);
    var c := Component(GetCurvature(cs, mid, 1.0, num.eng, num.quad), axis);
    BuildSegmentEdgeKey(cs, num, key);
    assert BuildSegment(cs, num, key).value.edgeKey == CurvatureToVertices(c, num.ln);
    CurvatureNonNegative(cs, mid, 1.0, num.eng, num.quad, axis);
    CurvatureToVerticesAtLeastTwo(c, num.ln);
  }

  /** The segment table after reconciling `segs` with `keys`: entries whose key
      stays are kept as they were, keys that were missing are built. */
  function Reconcile(segs: map<SegmentKey, Segment>, keys: set<SegmentKey>, cs: CoordsSys, num: Numerics)
    : map<SegmentKey, Segment>
  {
    map k | k in keys && (k in segs || BuildSegment(cs, num, k).Some?) ::
      if k in segs then segs[k] else BuildSegment(cs, num, k).value
  }

  /** Reconciling twice with the same keys changes nothing the second time. */
  lemma {:induction false} ReconcileIdempotent(segs: map<SegmentKey, Segment>, keys: set<SegmentKey>,
                                               cs: CoordsSys, num: Numerics)
    ensures Reconcile(Reconcile(segs, keys, cs, num), keys, cs, num) == Reconcile(segs, keys, cs, num)
  {
    var once := Reconcile(segs, keys, cs, num);
    var twice := Reconcile(once, keys, cs, num);
    assert once.Keys == keys;
    assert twice.Keys == keys;
  }

  /** A table whose keys are exactly `keys` is left as it is. */
  lemma ReconcileFixed(segs: map<SegmentKey, Segment>, keys: set<SegmentKey>, cs: CoordsSys, num: Numerics)
    requires segs.Keys == keys
    ensures Reconcile(segs, keys, cs, num) == segs
  {
  }

  /** After reconciling, the table's keys are exactly `keys` (every build
      succeeds over the reals), and only the missing keys were built. */
  lemma {:induction false} ReconcileKeys(segs: map<SegmentKey, Segment>, keys: set<SegmentKey>,
                                         cs: CoordsSys, num: Numerics)
    ensures Reconcile(segs, keys, cs, num).Keys == keys
    ensures forall k :: k in keys && k in segs ==> Reconcile(segs, keys, cs, num)[k] == segs[k]
  {
    forall k | k in keys ensures k in Reconcile(segs, keys, cs, num) {
      assert BuildSegment(cs, num, k).Some?;
    }
  }

  /** Reconciling keeps every vertex count at two or more, given sound numerics. */
  lemma {:induction false} ReconcileEdgeKeysAtLeastTwo(segs: map<SegmentKey, Segment>, keys: set<SegmentKey>,
                                                       cs: CoordsSys, num: Numerics)
    requires SoundNumerics(num) && DensitiesWellFormed(cs)
    requires AtLeastTwo(segs)
    ensures AtLeastTwo(Reconcile(segs, keys, cs, num))
  {
    forall k | k in Reconcile(segs, keys, cs, num) && k !in segs
      ensures Reconcile(segs, keys, cs, num)[k].edgeKey >= 2
    {
      SegmentEdgeKeyAtLeastTwo(cs, num, k);
    }
  }

  /** Every segment asks for at least two vertices, the least `create_edge`
      accepts. */
  predicate AtLeastTwo(segs: map<SegmentKey, Segment>)
  {
    forall k :: k in segs ==> segs[k].edgeKey >= 2
  }

  /** The contribution of one segment to the bucket of `n` vertices. */
  function Own(n: nat): (SegmentKey, Segment) -> multiset<Placed>
  {
    (k: SegmentKey, s: Segment) => if s.edgeKey == n then multiset{(s.transform, s.dir)} else multiset{}
  }

  /** The placements of the segments of `n` vertices, with multiplicity. */
  ghost function Bucket(segs: map<SegmentKey, Segment>, n: nat): multiset<Placed>
  {
    BagOver(segs.Keys, segs, Own(n))
  }

  /** The distinct vertex counts among the segments. */
  function EdgeKeys(segs: map<SegmentKey, Segment>): set<nat>
  {
    set k | k in segs :: segs[k].edgeKey
  }

  /** The vertex counts of the edges of a render table. */
  function EdgeSizes(rd: map<Edge, seq<Placed>>): set<nat>
  {
    set e | e in rd :: e.nbVertices
  }

  /** Every edge of the render table is the one `create_edge` + `create_vao` build. */
  ghost predicate EdgesValid(rd: map<Edge, seq<Placed>>)
  {
    forall e :: e in rd ==> e.nbVertices >= 2 && e == EdgeFor(e.nbVertices)
  }

  /** The render table holds one edge per vertex count in use, listing exactly
      the placements of the segments of that count. */
  ghost predicate Rendered(segs: map<SegmentKey, Segment>, rd: map<Edge, seq<Placed>>)
  {
    && (forall e :: e in rd ==> multiset(rd[e]) == Bucket(segs, e.nbVertices))
    && EdgeSizes(rd) == EdgeKeys(segs)
  }

  lemma BucketAdd(done: map<SegmentKey, Segment>, k: SegmentKey, s: Segment, n: nat)
    requires k !in done
    ensures Bucket(done[k := s], n) == Own(n)(k, s) + Bucket(done, n)
  {
    var done' := done[k := s];
    BagOverRemove(done'.Keys, done', Own(n), k);
    assert done'.Keys - {k} == done.Keys;
    BagOverAgree(done.Keys, done', done, Own(n));
  }

  /** A bucket is empty exactly when no segment has that vertex count. */
  lemma {:induction false} BucketEmptyIff(segs: map<SegmentKey, Segment>, n: nat)
    ensures Bucket(segs, n) == multiset{} <==> n !in EdgeKeys(segs)
  {
    BagOverEmpty(segs.Keys, segs, Own(n));
    if n in EdgeKeys(segs) {
      var k :| k in segs && segs[k].edgeKey == n;
      assert Own(n)(k, segs[k]) != multiset{};
    }
  }

  /** A placement is listed in the bucket of `n` vertices exactly when some
      segment of `n` vertices has it: the buckets partition the segments. */
  lemma {:induction false} BucketMember(segs: map<SegmentKey, Segment>, n: nat, x: Placed)
    ensures x in Bucket(segs, n) <==>
      exists k :: k in segs && segs[k].edgeKey == n && (segs[k].transform, segs[k].dir) == x
  {
    BucketMemberOver(segs.Keys, segs, n, x);
  }

  lemma {:induction false} BucketMemberOver(keys: set<SegmentKey>, segs: map<SegmentKey, Segment>, n: nat, x: Placed)
    requires keys <= segs.Keys
    ensures x in BagOver(keys, segs, Own(n)) <==>
      exists k :: k in keys && segs[k].edgeKey == n && (segs[k].transform, segs[k].dir) == x
    decreases keys
  {
    if keys != {} {
      var k :| k in keys;
      BagOverRemove(keys, segs, Own(n), k);
      BucketMemberOver(keys - {k}, segs, n, x);
    }
  }

  /** In a rendered table no edge has an empty list, and every vertex count in
      use has its edge. */
  lemma {:induction false} RenderedBuckets(segs: map<SegmentKey, Segment>, rd: map<Edge, seq<Placed>>, n: nat)
    requires EdgesValid(rd) && Rendered(segs, rd)
    ensures forall e :: e in rd ==> rd[e] != []
    ensures n in EdgeKeys(segs) ==> n >= 2 && EdgeFor(n) in rd
  {
    forall e | e in rd ensures rd[e] != [] {
      assert e.nbVertices in EdgeSizes(rd);
      BucketEmptyIff(segs, e.nbVertices);
    }
    if n in EdgeKeys(segs) {
      assert n in EdgeSizes(rd);
      var e :| e in rd && e.nbVertices == n;
    }
  }

  /** In a rendered table every segment has at least two vertices, since its
      count has an edge. */
  lemma RenderedAtLeastTwo(segs: map<SegmentKey, Segment>, rd: map<Edge, seq<Placed>>)
    requires EdgesValid(rd) && Rendered(segs, rd)
    ensures AtLeastTwo(segs)
  {
    forall k | k in segs ensures segs[k].edgeKey >= 2 {
      RenderedBuckets(segs, rd, segs[k].edgeKey);
      assert segs[k].edgeKey in EdgeKeys(segs);
    }
  }

  /** One step of grouping: appending a segment's placement to its count's
      list keeps each list equal to its bucket. */
  lemma GroupStep(done: map<SegmentKey, Segment>, byEdge: map<nat, seq<Placed>>, k: SegmentKey, s: Segment)
    requires k !in done
    requires byEdge.Keys == EdgeKeys(done)
    requires forall n :: n in byEdge ==> multiset(byEdge[n]) == Bucket(done, n)
    ensures var list := if s.edgeKey in byEdge then byEdge[s.edgeKey] else [];
      var grown := byEdge[s.edgeKey := list + [(s.transform, s.dir)]];
      && grown.Keys == EdgeKeys(done[k := s])
      && forall n :: n in grown ==> multiset(grown[n]) == Bucket(done[k := s], n)
  {
    var list := if s.edgeKey in byEdge then byEdge[s.edgeKey] else [];
    var grown := byEdge[s.edgeKey := list + [(s.transform, s.dir)]];
    forall n | n in grown ensures multiset(grown[n]) == Bucket(done[k := s], n) {
      BucketAdd(done, k, s, n);
      if n == s.edgeKey && s.edgeKey !in byEdge {
        BucketEmptyIff(done, n);
      }
    }
    EdgeKeysAdd(done, k, s);
  }

  lemma EdgeKeysAdd(done: map<SegmentKey, Segment>, k: SegmentKey, s: Segment)
    requires k !in done
    ensures EdgeKeys(done[k := s]) == EdgeKeys(done) + {s.edgeKey}
  {
    var done' := done[k := s];
    forall n | n in EdgeKeys(done) ensures n in EdgeKeys(done') {
      var j :| j in done && done[j].edgeKey == n;
      assert done'[j] == done[j];
    }
    assert done'[k].edgeKey == s.edgeKey;
  }

  lemma MapGrow<K, V>(m: map<K, V>, todo: set<K>, k: K)
    requires k in todo && k in m
    ensures (m - todo)[k := m[k]] == m - (todo - {k})
  {
    var a := (m - todo)[k := m[k]];
    var b := m - (todo - {k});
    assert a.Keys == b.Keys;
    forall j | j in a ensures a[j] == b[j] {
    }
  }

  /** The first loop of `rebuild_render_data`: the placements of all segments,
      grouped by vertex count. */
  method GroupByEdge(segs: map<SegmentKey, Segment>) returns (byEdge: map<nat, seq<Placed>>)
    ensures byEdge.Keys == EdgeKeys(segs)
    ensures forall n :: n in byEdge ==> multiset(byEdge[n]) == Bucket(segs, n)
  {
    byEdge := map[];
    var todo := segs.Keys;
    ghost var done: map<SegmentKey, Segment> := map[];
    while todo != {}
      invariant todo <= segs.Keys
      invariant done == segs - todo
      invariant byEdge.Keys == EdgeKeys(done)
      invariant forall n :: n in byEdge ==> multiset(byEdge[n]) == Bucket(done, n)
      decreases todo
    {
      var k :| k in todo;
      var s := segs[k];
      var list := if s.edgeKey in byEdge then byEdge[s.edgeKey] else [];
      GroupStep(done, byEdge, k, s);
      byEdge := byEdge[s.edgeKey := list + [(s.transform, s.dir)]];
      MapGrow(segs, todo, k);
      done := done[k := s];
      todo := todo - {k};
    }
    assert done == segs;
  }

  /** The second loop: every existing edge whose vertex count is still in use
      takes that count's new list; the other edges are dropped, and `remaining`
      holds the lists of the counts that have no edge yet. */
  method ReuseEdges(oldData: map<Edge, seq<Placed>>, byEdge: map<nat, seq<Placed>>)
    returns (newData: map<Edge, seq<Placed>>, remaining: map<nat, seq<Placed>>)
    requires EdgesValid(oldData)
    ensures forall e :: e in newData <==> e in oldData && e.nbVertices in byEdge
    ensures forall e :: e in newData ==> newData[e] == byEdge[e.nbVertices]
    ensures remaining.Keys == byEdge.Keys - EdgeSizes(oldData)
    ensures forall n :: n in remaining ==> remaining[n] == byEdge[n]
  {
    newData := map[];
    remaining := byEdge;
    var pending := oldData.Keys;
    while pending != {}
      invariant pending <= oldData.Keys
      invariant forall e :: e in newData <==> e in oldData && e !in pending && e.nbVertices in byEdge
      invariant forall e :: e in newData ==> newData[e] == byEdge[e.nbVertices]
      invariant remaining.Keys <= byEdge.Keys
      invariant forall n :: n in remaining ==> remaining[n] == byEdge[n]
      invariant forall n :: n in byEdge && n !in remaining ==>
        n >= 2 && EdgeFor(n) in oldData && EdgeFor(n) !in pending
      invariant forall e :: e in oldData && e !in pending ==> e.nbVertices !in remaining
      decreases pending
    {
      var e :| e in pending;
      if e.nbVertices in remaining {
        newData := newData[e := remaining[e.nbVertices]];
        remaining := remaining - {e.nbVertices};
      }
      pending := pending - {e};
    }
    forall n | n in byEdge && n !in remaining ensures n in EdgeSizes(oldData) {
      assert EdgeFor(n) in oldData;
    }
  }

  /** The third loop: create and upload an edge for each vertex count in
      `missing`. `create_edge` fails (a panic) on a count below two. */
  method CreateEdges(byEdge: map<nat, seq<Placed>>, missing: set<nat>, reused: map<Edge, seq<Placed>>)
    returns (ok: bool, data: map<Edge, seq<Placed>>)
    requires missing <= byEdge.Keys
    requires forall e :: e in reused ==> e.nbVertices in byEdge && reused[e] == byEdge[e.nbVertices]
    ensures ok <==> forall n :: n in missing ==> n >= 2
    ensures ok ==> forall e :: e in data <==>
      e in reused || (e.nbVertices in missing && e.nbVertices >= 2 && e == EdgeFor(e.nbVertices))
    ensures ok ==> forall e :: e in data ==> data[e] == byEdge[e.nbVertices]
  {
    data := reused;
    var toCreate := missing;
    ghost var created: set<nat> := {};
    while toCreate != {}
      invariant toCreate <= missing
      invariant created == missing - toCreate
      invariant forall n :: n in created ==> n >= 2
      invariant forall e :: e in data <==>
        e in reused || (e.nbVertices in created && e.nbVertices >= 2 && e == EdgeFor(e.nbVertices))
      invariant forall e :: e in data ==> data[e] == byEdge[e.nbVertices]
      decreases toCreate
    {
      var n :| n in toCreate;
      var edge := CreateEdge(n);
      if edge.Err? {
        return false, data;
      }
      var uploaded := CreateVao(edge.value);
      data := data[uploaded.value := byEdge[n]];
      created := created + {n};
      toCreate := toCreate - {n};
    }
    assert created == missing;
    ok := true;
  }

  /** The loop of `update_segments_from_keys`: keep the entries whose key is
      in `newKeys`, then build each key still missing (the others are not
      rebuilt). `built` holds the keys `build_segment` ran for. */
  method ReconcileSegments(segs: map<SegmentKey, Segment>, newKeys: set<SegmentKey>, cs: CoordsSys, num: Numerics)
    returns (result: map<SegmentKey, Segment>, built: set<SegmentKey>)
    ensures result == Reconcile(segs, newKeys, cs, num)
    ensures built == newKeys - segs.Keys
  {
    result := map k | k in segs && k in newKeys :: segs[k];
    built := {};
    var todo := newKeys;
    while todo != {}
      invariant todo <= newKeys
      invariant forall k :: k in result <==>
        k in newKeys && (k in segs || (k !in todo && BuildSegment(cs, num, k).Some?))
      invariant forall k :: k in result ==>
        result[k] == if k in segs then segs[k] else BuildSegment(cs, num, k).value
      invariant built == (newKeys - todo) - segs.Keys
      decreases todo
    {
      var key :| key in todo;
      if key !in result {
        built := built + {key};
        var seg := BuildSegment(cs, num, key);
        if seg.Some? {
          result := result[key := seg.value];
        }
      }
      todo := todo - {key};
    }
  }

  class Grid {
    const coordinates: CoordsSys
    const numerics: Numerics
    var segments: map<SegmentKey, Segment>
    var renderData: map<Edge, seq<Placed>>
    /** Keys `build_segment` ran for during the last reconcile. */
    ghost var lastBuilt: set<SegmentKey>
    /** Vertex counts whose edge was created during the last regrouping. */
    ghost var lastCreated: set<nat>

    ghost predicate Valid()
      reads this
    {
      EdgesValid(renderData) && Rendered(segments, renderData)
    }

    constructor (coordinates: CoordsSys, numerics: Numerics)
      ensures Valid()
      ensures this.coordinates == coordinates && this.numerics == numerics
      ensures segments == map[] && renderData == map[]
    {
      this.coordinates := coordinates;
      this.numerics := numerics;
      segments := map[];
      renderData := map[];
      lastBuilt := {};
      lastCreated := {};
    }

    /** `rebuild_render_data`: group the segments by vertex count, keep the edges
        whose count is still in use (with the new list), create edges for new
        counts, drop the rest. `create_edge` failing is a panic: `ok` is false
        exactly when some segment asks for fewer than two vertices. */
    method RebuildRenderData() returns (ok: bool)
      requires EdgesValid(renderData)
      modifies this`renderData, this`lastCreated
      ensures ok <==> AtLeastTwo(segments)
      ensures ok ==> Valid()
      ensures ok ==> lastCreated == EdgeKeys(segments) - EdgeSizes(old(renderData))
    {
      var byEdge := GroupByEdge(segments);
      var reused, remaining := ReuseEdges(renderData, byEdge);
      var data;
      ok, data := CreateEdges(byEdge, remaining.Keys, reused);
      if !ok {
        var n :| n in remaining && n < 2;
        var k :| k in segments && segments[k].edgeKey == n;
        return;
      }
      forall k | k in segments ensures segments[k].edgeKey >= 2 {
        var n := segments[k].edgeKey;
        assert n in byEdge;
        if n !in remaining {
          var e :| e in renderData && e.nbVertices == n;
        }
      }
      assert EdgeSizes(data) == EdgeKeys(segments) by {
        forall n | n in byEdge ensures n in EdgeSizes(data) {
          if n in remaining {
            assert EdgeFor(n) in data;
          } else {
            var e :| e in renderData && e.nbVertices == n;
            assert e in data;
          }
        }
      }
      renderData := data;
      lastCreated := remaining.Keys;
    }

    /** `update_segments_from_keys`: drop the entries whose key is not in
        `newKeys`, build the keys that are missing (the others are left as they
        are, not rebuilt), then regroup. */
    method UpdateSegmentsFromKeys(newKeys: set<SegmentKey>) returns (ok: bool)
      requires EdgesValid(renderData)
      modifies this`segments, this`renderData, this`lastBuilt, this`lastCreated
      ensures segments == Reconcile(old(segments), newKeys, coordinates, numerics)
      ensures lastBuilt == newKeys - old(segments).Keys
      ensures ok <==> AtLeastTwo(segments)
      ensures ok ==> Valid() && lastCreated == EdgeKeys(segments) - EdgeSizes(old(renderData))
    {
      var built;
      segments, built := ReconcileSegments(segments, newKeys, coordinates, numerics);
      lastBuilt := built;
      ok := RebuildRenderData();
    }

    /** `update_config`: enumerate the keys of `cfg` and reconcile with them.
        `ok` is false when the enumeration or an edge creation panics. */
    method UpdateConfig(cfg: GridConfig) returns (ok: bool)
      requires EdgesValid(renderData)
      modifies this`segments, this`renderData, this`lastBuilt, this`lastCreated
      ensures AxesOf(cfg).Err? ==>
        && !ok && segments == old(segments) && renderData == old(renderData)
        && lastBuilt == old(lastBuilt) && lastCreated == old(lastCreated)
      ensures AxesOf(cfg).Ok? ==>
        && segments == Reconcile(old(segments), KeySet(AxesOf(cfg).value), coordinates, numerics)
        && lastBuilt == KeySet(AxesOf(cfg).value) - old(segments).Keys
        && (ok <==> AtLeastTwo(segments))
      ensures ok ==> Valid() && lastCreated == EdgeKeys(segments) - EdgeSizes(old(renderData))
    {
      var keys := BuildKeysForIndices(cfg);
      if keys.Err? {
        return false;
      }
      ok := UpdateSegmentsFromKeys(keys.value);
    }
  }

  /** Applying a configuration to a grid that already shows it: nothing is
      built, no edge is created and the segment table stays as it is. */
  method UpdateConfigAgain(g: Grid, cfg: GridConfig)
    requires g.Valid()
    requires AxesOf(cfg).Ok? && g.segments.Keys == KeySet(AxesOf(cfg).value)
    modifies g
    ensures g.Valid() && g.segments == old(g.segments)
    ensures g.lastBuilt == {} && g.lastCreated == {}
  {
    RenderedAtLeastTwo(g.segments, g.renderData);
    ReconcileFixed(g.segments, g.segments.Keys, g.coordinates, g.numerics);
    var ok := g.UpdateConfig(cfg);
    assert ok;
  }

  /** Applying the same configuration twice: with sound numerics neither call
      panics, and the second builds no segment, creates no edge and leaves the
      segment table as the first left it. */
  method UpdateConfigTwice(g: Grid, cfg: GridConfig)
    requires g.Valid() && SoundNumerics(g.numerics) && DensitiesWellFormed(g.coordinates)
    requires AxesOf(cfg).Ok?
    modifies g
    ensures g.Valid()
    ensures g.segments == Reconcile(old(g.segments), KeySet(AxesOf(cfg).value), g.coordinates, g.numerics)
    ensures g.lastBuilt == {} && g.lastCreated == {}
  {
    RenderedAtLeastTwo(g.segments, g.renderData);
    var keys := KeySet(AxesOf(cfg).value);
    ReconcileEdgeKeysAtLeastTwo(g.segments, keys, g.coordinates, g.numerics);
    ReconcileKeys(g.segments, keys, g.coordinates, g.numerics);
    var ok := g.UpdateConfig(cfg);
    assert ok;
    UpdateConfigAgain(g, cfg);
  }
}

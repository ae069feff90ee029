/// src/app/grid_world.rs: the sample points of a grid, one per
/// (edge, placement, vertex), mapped through the coordinate system, and the
/// point set the picking tree is built from.
module GridPoints {
  import opened Expressions
  import opened Coords
  import opened GridEdge
  import opened Grid
  import opened MapFolds

  /** One bucket's share of the capacity estimate. */
  function CapTerm(e: Edge, ts: seq<Placed>): int
  {
    e.nbVertices * |ts|
  }

  /** The capacity loop of `process_data`: the sum over the buckets of
      vertex count times number of placements, whatever the iteration order. */
  method EstimateCap(data: map<Edge, seq<Placed>>) returns (cap: nat)
    ensures cap == SumOver(data.Keys, data, CapTerm)
  {
    cap := 0;
    var todo := data.Keys;
    while todo != {}
      invariant todo <= data.Keys
      invariant cap + SumOver(todo, data, CapTerm) == SumOver(data.Keys, data, CapTerm)
      decreases todo
    {
      var e :| e in todo;
      SumOverRemove(todo, data, CapTerm, e);
      cap := cap + e.nbVertices * |data[e]|;
      todo := todo - {e};
    }
  }

  /** `coords.eval` on a point. */
  function EvalPoint(cs: CoordsSys, p: Point, eng: Engine): Point
  {
    var (x, y, z) := Eval(cs, p.x, p.y, p.z, eng);
    Point(x, y, z)
  }

  /** The points of one placement: every vertex, transformed (as the
      homogeneous vector (vertex, 1)) and then mapped by the coordinate system. */
  function PlaceVertices(vs: seq<Point>, t: Transform, cs: CoordsSys, eng: Engine,
                         apply: (Transform, Point) -> Point): seq<Point>
  {
    seq(|vs|, j requires 0 <= j < |vs| => EvalPoint(cs, apply(t, vs[j]), eng))
  }

  /** The points of one bucket, placement after placement. */
  function BucketPoints(vs: seq<Point>, ts: seq<Placed>, cs: CoordsSys, eng: Engine,
                        apply: (Transform, Point) -> Point): seq<Point>
    decreases |ts|
  {
    if ts == [] then []
    else BucketPoints(vs, ts[..|ts| - 1], cs, eng, apply) + PlaceVertices(vs, ts[|ts| - 1].0, cs, eng, apply)
  }

  /** The points of the buckets of `order`, bucket after bucket. */
  function Gathered(order: seq<Edge>, data: map<Edge, seq<Placed>>, cs: CoordsSys, eng: Engine,
                    apply: (Transform, Point) -> Point): seq<Point>
    requires forall e :: e in order ==> e in data
    decreases |order|
  {
    if order == [] then []
    else
      var last := order[|order| - 1];
      Gathered(order[..|order| - 1], data, cs, eng, apply) + BucketPoints(last.vertices, data[last], cs, eng, apply)
  }

  ghost predicate NoDuplicates<T>(s: seq<T>)
  {
    forall i, j :: 0 <= i < j < |s| ==> s[i] != s[j]
  }

  /** The gathering loops of `process_data`: the buckets are visited in some
      order (the hash map's), each exactly once. */
  method ProcessData(data: map<Edge, seq<Placed>>, cs: CoordsSys, eng: Engine,
                     apply: (Transform, Point) -> Point)
    returns (points: seq<Point>, ghost order: seq<Edge>)
    ensures NoDuplicates(order)
    ensures forall e :: e in order <==> e in data
    ensures points == Gathered(order, data, cs, eng, apply)
  {
    points := [];
    order := [];
    var todo := data.Keys;
    while todo != {}
      invariant todo <= data.Keys
      invariant forall e :: e in order <==> e in data && e !in todo
      invariant NoDuplicates(order)
      invariant points == Gathered(order, data, cs, eng, apply)
      decreases todo
    {
      var edge :| edge in todo;
      var vertices := edge.vertices;
      var transforms := data[edge];
      ghost var base := points;
      var i := 0;
      while i < |transforms|
        invariant 0 <= i <= |transforms|
        invariant points == base + BucketPoints(vertices, transforms[..i], cs, eng, apply)
      {
        var transform := transforms[i].0;
        ghost var before := points;
        var j := 0;
        while j < |vertices|
          invariant 0 <= j <= |vertices|
          invariant points == before + PlaceVertices(vertices, transform, cs, eng, apply)[..j]
        {
          var worldPos := apply(transform, vertices[j]);
          var (x, y, z) := Eval(cs, worldPos.x, worldPos.y, worldPos.z, eng);
          assert PlaceVertices(vertices, transform, cs, eng, apply)[..j + 1]
              == PlaceVertices(vertices, transform, cs, eng, apply)[..j] + [Point(x, y, z)];
          points := points + [Point(x, y, z)];
          j := j + 1;
        }
        assert transforms[..i + 1][..i] == transforms[..i];
        assert PlaceVertices(vertices, transform, cs, eng, apply)[..j] == PlaceVertices(vertices, transform, cs, eng, apply);
        i := i + 1;
      }
      assert transforms[..i] == transforms;
      assert (order + [edge])[..|order|] == order;
      order := order + [edge];
      todo := todo - {edge};
    }
  }

  /** A bucket holds |vertices| points per placement, and the point at
      (placement i, vertex j) is the image of vertex j under placement i. */
  lemma {:induction false} BucketPointAt(vs: seq<Point>, ts: seq<Placed>, cs: CoordsSys, eng: Engine,
                                         apply: (Transform, Point) -> Point, i: nat, j: nat)
    ensures |BucketPoints(vs, ts, cs, eng, apply)| == |ts| * |vs|
    ensures i < |ts| && j < |vs| ==>
      i * |vs| + j < |ts| * |vs| &&
      BucketPoints(vs, ts, cs, eng, apply)[i * |vs| + j] == EvalPoint(cs, apply(ts[i].0, vs[j]), eng)
    decreases |ts|
  {
    if ts != [] {
      var init := ts[..|ts| - 1];
      var n := |ts| - 1;
      assert |ts| * |vs| == n * |vs| + |vs|;
      if i < n {
        BucketPointAt(vs, init, cs, eng, apply, i, j);
        if j < |vs| {
          assert init[i] == ts[i];
          assert i * |vs| + j < n * |vs| by {
            assert (i + 1) * |vs| <= n * |vs| by {
              assert i + 1 <= n;
            }
          }
        }
      } else {
        BucketPointAt(vs, init, cs, eng, apply, 0, 0);
        if i == n && j < |vs| {
          assert i * |vs| + j == n * |vs| + j;
        }
      }
    }
  }

  /** The colour tag of a placement has no influence on its points. */
  lemma {:induction false} BucketPointsIgnoreDirection(vs: seq<Point>, ts: seq<Placed>, ts': seq<Placed>, cs: CoordsSys,
                                                       eng: Engine, apply: (Transform, Point) -> Point)
    requires |ts| == |ts'|
    requires forall i :: 0 <= i < |ts| ==> ts[i].0 == ts'[i].0
    ensures BucketPoints(vs, ts, cs, eng, apply) == BucketPoints(vs, ts', cs, eng, apply)
    decreases |ts|
  {
    if ts != [] {
      BucketPointsIgnoreDirection(vs, ts[..|ts| - 1], ts'[..|ts'| - 1], cs, eng, apply);
    }
  }

  /** The number of gathered points is the capacity estimate, once every edge
      holds as many vertices as its count says. */
  lemma {:induction false} GatheredLength(order: seq<Edge>, data: map<Edge, seq<Placed>>, cs: CoordsSys, eng: Engine,
                                          apply: (Transform, Point) -> Point, keys: set<Edge>)
    requires NoDuplicates(order)
    requires forall e :: e in order <==> e in keys
    requires keys <= data.Keys
    requires forall e :: e in data ==> |e.vertices| == e.nbVertices
    ensures |Gathered(order, data, cs, eng, apply)| == SumOver(keys, data, CapTerm)
    decreases |order|
  {
    if order == [] {
      assert keys == {};
    } else {
      var last := order[|order| - 1];
      var init := order[..|order| - 1];
      DropLast(order, keys);
      GatheredLength(init, data, cs, eng, apply, keys - {last});
      SumOverRemove(keys, data, CapTerm, last);
      BucketPointAt(last.vertices, data[last], cs, eng, apply, 0, 0);
      var ts := data[last];
      assert CapTerm(last, ts) == |ts| * |last.vertices| by {
        assert last.nbVertices == |last.vertices|;
      }
    }
  }

  lemma DropLast<T>(order: seq<T>, keys: set<T>)
    requires order != [] && NoDuplicates(order)
    requires forall e :: e in order <==> e in keys
    ensures NoDuplicates(order[..|order| - 1])
    ensures forall e :: e in order[..|order| - 1] <==> e in keys && e != order[|order| - 1]
  {
    var last := order[|order| - 1];
    var init := order[..|order| - 1];
    forall e ensures e in init <==> e in keys && e != last {
      if e in init {
        var i :| 0 <= i < |init| && init[i] == e;
        assert order[i] == e;
      }
      if e in keys && e != last {
        var i :| 0 <= i < |order| && order[i] == e;
        assert i != |order| - 1;
        assert init[i] == e;
      }
    }
  }

  /** Every edge of a valid render table holds as many vertices as its count. */
  lemma ValidEdgesHoldTheirVertices(data: map<Edge, seq<Placed>>)
    requires EdgesValid(data)
    ensures forall e :: e in data ==> |e.vertices| == e.nbVertices
  {
  }

  /** `GridWorld`: the picking tree over the gathered points; the tree is
      modelled by the multiset of points it holds. */
  datatype GridWorld = GridWorld(tree: multiset<Point>)

  /** `GridWorld::new`: the tree holds exactly the points `process_data`
      gathers, as many as the capacity estimate for a valid grid. */
  method New(g: Grid, apply: (Transform, Point) -> Point) returns (w: GridWorld, ghost order: seq<Edge>)
    ensures NoDuplicates(order)
    ensures forall e :: e in order <==> e in g.renderData
    ensures w.tree == multiset(Gathered(order, g.renderData, g.coordinates, g.numerics.eng, apply))
    ensures g.Valid() ==> |w.tree| == SumOver(g.renderData.Keys, g.renderData, CapTerm)
  {
    var points;
    points, order := ProcessData(g.renderData, g.coordinates, g.numerics.eng, apply);
    if g.Valid() {
      ValidEdgesHoldTheirVertices(g.renderData);
      GatheredLength(order, g.renderData, g.coordinates, g.numerics.eng, apply, g.renderData.Keys);
    }
    w := GridWorld(multiset(points));
  }
}

/// Segment keys of src/app/grid.rs: the grid configuration and the
/// enumeration of every candidate segment (`build_keys_for_indices`).
/// Coordinates are reals; the source keeps them as non-NaN floats.
module GridKeys {
  import opened Results
  import GridEdge

  /** The axis a segment runs along (also its colour tag). */
  datatype SegmentDir = X | Y | Z

  /** A segment length `(max - min) / nb`: a float that is finite, or infinite
      when `nb` is zero and the span is not (a zero span over zero is NaN). */
  datatype Length = Finite(value: real) | Infinite(negative: bool)

  /** One candidate edge of the parametric lattice. */
  datatype SegmentKey = SegmentKey(dir: SegmentDir, u: real, v: real, w: real, len: Length)

  /** Bounds and subdivision counts of the three axes. */
  datatype GridConfig = GridConfig(
    uMin: real, uMax: real, vMin: real, vMax: real, wMin: real, wMax: real,
    nbU: real, nbV: real, nbW: real)

  /** `GridConfig::default()`: [0, 7] on every axis, two subdivisions each. */
  function DefaultConfig(): GridConfig
  {
    GridConfig(0.0, 7.0, 0.0, 7.0, 0.0, 7.0, 2.0, 2.0, 2.0)
  }

  function Ceil(r: real): int
  {
    -((-r).Floor)
  }

  /** Element count of ndarray's `range(a, b, 1.0)`, ceil(b - a); `None` when
      that count is negative, where the conversion to `usize` fails and panics. */
  function UnitRangeCount(a: real, b: real): Option<nat>
  {
    var c := Ceil(b - a);
    if c < 0 then None else Some(c)
  }

  /** The elements of a unit-step range from `a`: a, a + 1, ... */
  function UnitRange(a: real, count: nat): seq<real>
  {
    seq(count, k requires 0 <= k < count => a + k as real)
  }

  /** ndarray's `linspace(a, b, n)`: `n` evenly spaced values from `a` to `b`
      inclusive; `[a]` when n = 1. */
  function Linspace(a: real, b: real, n: nat): seq<real>
  {
    seq(n, k requires 0 <= k < n => if n > 1 then a + (b - a) / (n - 1) as real * k as real else a)
  }

  /** `as usize` on a float: truncation, saturating at 0 and at `usize::MAX`. */
  function ToUsize(r: real): nat
  {
    if r <= 0.0 then 0 else if r.Floor > GridEdge.USIZE_MAX then GridEdge.USIZE_MAX else r.Floor
  }

  /** `NonNaN::new(span / nb).unwrap()`: `None` stands for the NaN panic. */
  function SegmentLength(span: real, nb: real): (r: Option<Length>)
    ensures r.None? <==> span == 0.0 && nb == 0.0
  {
    if nb != 0.0 then Some(Finite(span / nb))
    else if span == 0.0 then None
    else Some(Infinite(span < 0.0))
  }

  /** The arrays and lengths `build_keys_for_indices` computes before its loops. */
  datatype Axes = Axes(
    totalU: seq<real>, totalV: seq<real>, totalW: seq<real>,
    us: seq<real>, vs: seq<real>, ws: seq<real>,
    lenU: Length, lenV: Length, lenW: Length)

  /** Those arrays for `cfg`, or the panic one of them raises. */
  function AxesOf(cfg: GridConfig): (r: Result<Axes>)
    ensures r.Err? <==>
      || UnitRangeCount(cfg.uMin, cfg.uMax).None?
      || UnitRangeCount(cfg.vMin, cfg.vMax).None?
      || UnitRangeCount(cfg.wMin, cfg.wMax).None?
      || (cfg.uMax - cfg.uMin == 0.0 && cfg.nbU == 0.0)
      || (cfg.vMax - cfg.vMin == 0.0 && cfg.nbV == 0.0)
      || (cfg.wMax - cfg.wMin == 0.0 && cfg.nbW == 0.0)
  {
    match (UnitRangeCount(cfg.uMin, cfg.uMax), UnitRangeCount(cfg.vMin, cfg.vMax), UnitRangeCount(cfg.wMin, cfg.wMax))
    case (Some(cu), Some(cv), Some(cw)) =>
      var lens := (SegmentLength(cfg.uMax - cfg.uMin, cfg.nbU),
                   SegmentLength(cfg.vMax - cfg.vMin, cfg.nbV),
                   SegmentLength(cfg.wMax - cfg.wMin, cfg.nbW));
      if lens.0.None? || lens.1.None? || lens.2.None? then Err("segment length is NaN")
      else Ok(Axes(
        UnitRange(cfg.uMin, cu), UnitRange(cfg.vMin, cv), UnitRange(cfg.wMin, cw),
        Linspace(cfg.uMin, cfg.uMax, ToUsize(cfg.nbU)),
        Linspace(cfg.vMin, cfg.vMax, ToUsize(cfg.nbV)),
        Linspace(cfg.wMin, cfg.wMax, ToUsize(cfg.nbW)),
        lens.0.value, lens.1.value, lens.2.value))
    case _ => Err("range length is negative")
  }

  /** The key whose coordinates, in the loop order of direction `dir`, are
      outer `a`, middle `b`, inner `c`: u, v, w for X; v, w, u for Y; w, u, v for Z. */
  function Place(dir: SegmentDir, a: real, b: real, c: real, len: Length): SegmentKey
  {
    match dir
    case X => SegmentKey(X, a, b, c, len)
    case Y => SegmentKey(Y, c, a, b, len)
    case Z => SegmentKey(Z, b, c, a, len)
  }

  function OuterOf(k: SegmentKey): real
  {
    match k.dir case X => k.u case Y => k.v case Z => k.w
  }

  function MiddleOf(k: SegmentKey): real
  {
    match k.dir case X => k.v case Y => k.w case Z => k.u
  }

  function InnerOf(k: SegmentKey): real
  {
    match k.dir case X => k.w case Y => k.u case Z => k.v
  }

  /** The keys of one triple-nested sweep. */
  function Sweep(dir: SegmentDir, outer: seq<real>, middle: seq<real>, inner: seq<real>, len: Length): set<SegmentKey>
  {
    set a, b, c | a in outer && b in middle && c in inner :: Place(dir, a, b, c, len)
  }

  predicate InSweep(k: SegmentKey, dir: SegmentDir, outer: seq<real>, middle: seq<real>, inner: seq<real>, len: Length)
  {
    k.dir == dir && k.len == len && OuterOf(k) in outer && MiddleOf(k) in middle && InnerOf(k) in inner
  }

  lemma SweepMember(k: SegmentKey, dir: SegmentDir, outer: seq<real>, middle: seq<real>, inner: seq<real>, len: Length)
    ensures k in Sweep(dir, outer, middle, inner, len) <==> InSweep(k, dir, outer, middle, inner, len)
  {
    if InSweep(k, dir, outer, middle, inner, len) {
      assert k == Place(dir, OuterOf(k), MiddleOf(k), InnerOf(k), len);
    }
  }

  /** Every key of `cfg`: X keys from the unit range of u, Y keys from that of
      v, Z keys from that of w, each crossed with the linspaces of the other two. */
  function KeySet(ax: Axes): set<SegmentKey>
  {
    Sweep(X, ax.totalU, ax.vs, ax.ws, ax.lenU)
    + Sweep(Y, ax.totalV, ax.ws, ax.us, ax.lenV)
    + Sweep(Z, ax.totalW, ax.us, ax.vs, ax.lenW)
  }

  /** What a key of `cfg` is, direction by direction. */
  predicate IsKeyOf(ax: Axes, k: SegmentKey)
  {
    match k.dir
    case X => k.u in ax.totalU && k.v in ax.vs && k.w in ax.ws && k.len == ax.lenU
    case Y => k.v in ax.totalV && k.w in ax.ws && k.u in ax.us && k.len == ax.lenV
    case Z => k.w in ax.totalW && k.u in ax.us && k.v in ax.vs && k.len == ax.lenW
  }

  lemma KeySetMembers(ax: Axes, k: SegmentKey)
    ensures k in KeySet(ax) <==> IsKeyOf(ax, k)
  {
    SweepMember(k, X, ax.totalU, ax.vs, ax.ws, ax.lenU);
    SweepMember(k, Y, ax.totalV, ax.ws, ax.us, ax.lenV);
    SweepMember(k, Z, ax.totalW, ax.us, ax.vs, ax.lenW);
  }

  /** Every element of the unit range from `a` below `b` is a lattice point of
      [a, b): `a` plus a natural number, strictly below `b`. */
  lemma {:induction false} UnitRangeBounds(a: real, b: real, x: real)
    requires UnitRangeCount(a, b).Some? && x in UnitRange(a, UnitRangeCount(a, b).value)
    ensures a <= x < b
    ensures (x - a).Floor >= 0 && (x - a).Floor as real == x - a
  {
    var n := UnitRangeCount(a, b).value;
    var k :| 0 <= k < n && UnitRange(a, n)[k] == x;
    assert x == a + k as real;
    assert (k as real).Floor == k;
    assert k as real <= (n - 1) as real;
    assert (-(b - a)).Floor == -(n as int);
  }

  /** The values of `linspace(a, b, n)` lie in [a, b], start at `a` and, with two
      or more values, end at `b`. */
  lemma {:induction false} LinspaceBounds(a: real, b: real, n: nat, x: real)
    requires a <= b && x in Linspace(a, b, n)
    ensures a <= x <= b
    ensures Linspace(a, b, n)[0] == a
    ensures n >= 2 ==> Linspace(a, b, n)[n - 1] == b
  {
    var k :| 0 <= k < n && Linspace(a, b, n)[k] == x;
    if n > 1 {
      var d := (n - 1) as real;
      var step := (b - a) / d;
      assert step >= 0.0;
      assert k as real <= d;
      assert step * k as real <= step * d;
      assert step * d == b - a;
    }
  }

  /** A key of direction X starts on a lattice point of [u_min, u_max) and has
      v and w within their bounds; Y and Z are alike. */
  lemma {:induction false} KeyWithinBounds(cfg: GridConfig, k: SegmentKey)
    requires AxesOf(cfg).Ok? && k in KeySet(AxesOf(cfg).value)
    requires cfg.uMin <= cfg.uMax && cfg.vMin <= cfg.vMax && cfg.wMin <= cfg.wMax
    ensures k.dir == X ==> cfg.uMin <= k.u < cfg.uMax && (k.u - cfg.uMin).Floor as real == k.u - cfg.uMin
    ensures k.dir == Y ==> cfg.vMin <= k.v < cfg.vMax && (k.v - cfg.vMin).Floor as real == k.v - cfg.vMin
    ensures k.dir == Z ==> cfg.wMin <= k.w < cfg.wMax && (k.w - cfg.wMin).Floor as real == k.w - cfg.wMin
    ensures cfg.uMin <= k.u <= cfg.uMax && cfg.vMin <= k.v <= cfg.vMax && cfg.wMin <= k.w <= cfg.wMax
  {
    var ax := AxesOf(cfg).value;
    KeySetMembers(ax, k);
    match k.dir
    case X =>
      UnitRangeBounds(cfg.uMin, cfg.uMax, k.u);
      LinspaceBounds(cfg.vMin, cfg.vMax, ToUsize(cfg.nbV), k.v);
      LinspaceBounds(cfg.wMin, cfg.wMax, ToUsize(cfg.nbW), k.w);
    case Y =>
      UnitRangeBounds(cfg.vMin, cfg.vMax, k.v);
      LinspaceBounds(cfg.wMin, cfg.wMax, ToUsize(cfg.nbW), k.w);
      LinspaceBounds(cfg.uMin, cfg.uMax, ToUsize(cfg.nbU), k.u);
    case Z =>
      UnitRangeBounds(cfg.wMin, cfg.wMax, k.w);
      LinspaceBounds(cfg.uMin, cfg.uMax, ToUsize(cfg.nbU), k.u);
      LinspaceBounds(cfg.vMin, cfg.vMax, ToUsize(cfg.nbV), k.v);
  }

  lemma SweepExtendOuter(dir: SegmentDir, outer: seq<real>, i: nat, middle: seq<real>, inner: seq<real>, len: Length)
    requires i < |outer|
    ensures Sweep(dir, outer[..i + 1], middle, inner, len)
         == Sweep(dir, outer[..i], middle, inner, len) + Sweep(dir, [outer[i]], middle, inner, len)
  {
    assert outer[..i + 1] == outer[..i] + [outer[i]];
    forall k ensures k in Sweep(dir, outer[..i + 1], middle, inner, len)
                 <==> k in Sweep(dir, outer[..i], middle, inner, len) + Sweep(dir, [outer[i]], middle, inner, len)
    {
      SweepMember(k, dir, outer[..i + 1], middle, inner, len);
      SweepMember(k, dir, outer[..i], middle, inner, len);
      SweepMember(k, dir, [outer[i]], middle, inner, len);
    }
  }

  lemma SweepExtendMiddle(dir: SegmentDir, a: real, middle: seq<real>, j: nat, inner: seq<real>, len: Length)
    requires j < |middle|
    ensures Sweep(dir, [a], middle[..j + 1], inner, len)
         == Sweep(dir, [a], middle[..j], inner, len) + Sweep(dir, [a], [middle[j]], inner, len)
  {
    assert middle[..j + 1] == middle[..j] + [middle[j]];
    forall k ensures k in Sweep(dir, [a], middle[..j + 1], inner, len)
                 <==> k in Sweep(dir, [a], middle[..j], inner, len) + Sweep(dir, [a], [middle[j]], inner, len)
    {
      SweepMember(k, dir, [a], middle[..j + 1], inner, len);
      SweepMember(k, dir, [a], middle[..j], inner, len);
      SweepMember(k, dir, [a], [middle[j]], inner, len);
    }
  }

  lemma SweepExtendInner(dir: SegmentDir, a: real, b: real, inner: seq<real>, l: nat, len: Length)
    requires l < |inner|
    ensures Sweep(dir, [a], [b], inner[..l + 1], len)
         == Sweep(dir, [a], [b], inner[..l], len) + {Place(dir, a, b, inner[l], len)}
  {
    assert inner[..l + 1] == inner[..l] + [inner[l]];
    forall k ensures k in Sweep(dir, [a], [b], inner[..l + 1], len)
                 <==> k in Sweep(dir, [a], [b], inner[..l], len) + {Place(dir, a, b, inner[l], len)}
    {
      SweepMember(k, dir, [a], [b], inner[..l + 1], len);
      SweepMember(k, dir, [a], [b], inner[..l], len);
    }
  }

  lemma SweepEmpty(dir: SegmentDir, outer: seq<real>, middle: seq<real>, inner: seq<real>, len: Length)
    requires outer == [] || middle == [] || inner == []
    ensures Sweep(dir, outer, middle, inner, len) == {}
  {
  }

  /** One triple-nested loop of `build_keys_for_indices`: inserts the key of
      every (outer, middle, inner) combination. */
  method InsertSweep(keys: set<SegmentKey>, dir: SegmentDir, outer: seq<real>, middle: seq<real>,
                     inner: seq<real>, len: Length) returns (result: set<SegmentKey>)
    ensures result == keys + Sweep(dir, outer, middle, inner, len)
  {
    result := keys;
    SweepEmpty(dir, outer[..0], middle, inner, len);
    for i := 0 to |outer|
      invariant result == keys + Sweep(dir, outer[..i], middle, inner, len)
    {
      var a := outer[i];
      SweepEmpty(dir, [a], middle[..0], inner, len);
      for j := 0 to |middle|
        invariant result == keys + Sweep(dir, outer[..i], middle, inner, len) + Sweep(dir, [a], middle[..j], inner, len)
      {
        var b := middle[j];
        SweepEmpty(dir, [a], [b], inner[..0], len);
        for l := 0 to |inner|
          invariant result == keys + Sweep(dir, outer[..i], middle, inner, len)
                              + Sweep(dir, [a], middle[..j], inner, len) + Sweep(dir, [a], [b], inner[..l], len)
        {
          result := result + {Place(dir, a, b, inner[l], len)};
          SweepExtendInner(dir, a, b, inner, l, len);
        }
        assert inner[..|inner|] == inner;
        SweepExtendMiddle(dir, a, middle, j, inner, len);
      }
      assert middle[..|middle|] == middle;
      SweepExtendOuter(dir, outer, i, middle, inner, len);
    }
    assert outer[..|outer|] == outer;
  }

  /** `build_keys_for_indices`: the key set of `cfg`, or the panic raised while
      preparing the ranges and lengths. */
  method BuildKeysForIndices(cfg: GridConfig) returns (r: Result<set<SegmentKey>>)
    ensures r.Err? <==> AxesOf(cfg).Err?
    ensures r.Ok? ==> r.value == KeySet(AxesOf(cfg).value)
  {
    var axes := AxesOf(cfg);
    if axes.Err? {
      return Err(axes.error);
    }
    var ax := axes.value;
    var keys: set<SegmentKey> := {};
    keys := InsertSweep(keys, X, ax.totalU, ax.vs, ax.ws, ax.lenU);
    keys := InsertSweep(keys, Y, ax.totalV, ax.ws, ax.us, ax.lenV);
    keys := InsertSweep(keys, Z, ax.totalW, ax.us, ax.vs, ax.lenW);
    r := Ok(keys);
  }
}

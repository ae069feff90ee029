/// The coordinate system: three coordinate expressions X, Y, Z of (x, y, z),
/// and, per axis, the curvature density derived from their second partial
/// derivatives (`CoordsSys` in src/app/coords_sys.rs).
module Coords {
  import opened Results
  import opened Expressions

  /** Number of sub-intervals of the quadrature in `get_curvature`. */
  const SUBINTERVALS: nat := 100

  /** The three coordinate expressions and the three curvature densities
      (the compiled evaluators are the terms read through an `Engine`). */
  datatype CoordsSys = CoordsSys(
    xEq: Formula, yEq: Formula, zEq: Formula,
    xCurvature: Term, yCurvature: Term, zCurvature: Term)

  /** First position of `name` in `vars`, if any: a reference for which variable
      of a formula is "the coordinate of this axis". */
  function IndexOf(vars: seq<string>, name: string): (r: Option<nat>)
    ensures r.Some? ==> (r.value < |vars| && vars[r.value] == name
                         && forall k :: 0 <= k < r.value ==> vars[k] != name)
    ensures r.None? <==> name !in vars
  {
    if |vars| == 0 then None
    else if vars[0] == name then Some(0)
    else match IndexOf(vars[1..], name)
      case None => None
      case Some(k) => Some(k + 1)
  }

  /** The squared second derivative with respect to variable `k` of `f`, or the
      zero constant when `f` has no such variable. */
  function SquaredSecondPartial(f: Formula, k: Option<nat>): Term
  {
    match k
    case Some(i) => Square(Partial(f, i, 2))
    case None => Num(0.0)
  }

  /** The closure `mk` of `calculate_curvature` for axis `axis`: the squared
      second partial derivative of `f` along that axis. */
  function CurvatureTerm(f: Formula, axis: nat): (r: Result<Term>)
    requires axis < 3
    ensures r.Err? <==> !(1 <= |f.vars| <= 3)
    ensures 1 <= |f.vars| <= 2 ==>
      r == Ok(SquaredSecondPartial(f, IndexOf(f.vars, COORD[axis])))
    ensures |f.vars| == 3 ==> r == Ok(Square(Partial(f, axis, 2)))
  {
    var vars := f.vars;
    if |vars| == 1 then
      if vars[0] == COORD[axis] then Ok(Square(Partial(f, 0, 2))) else Ok(Num(0.0))
    else if |vars| == 2 then
      if vars[0] == COORD[axis] then Ok(Square(Partial(f, 0, 2)))
      else if vars[1] == COORD[axis] then Ok(Square(Partial(f, 1, 2)))
      else Ok(Num(0.0))
    else if |vars| == 3 then
      Ok(Square(Partial(f, axis, 2)))
    else
      Err("")
  }

  /** Rank of a coordinate name: x < y < z. */
  function Rank(name: string): nat
  {
    if name == "x" then 0 else if name == "y" then 1 else 2
  }

  /** Variables as the engine lists them for a validated equation: drawn from
      {x, y, z}, sorted and without repetition. */
  ghost predicate CoordinateVars(vars: seq<string>)
  {
    && (forall k :: 0 <= k < |vars| ==> vars[k] in COORD)
    && (forall i, j :: 0 <= i < j < |vars| ==> Rank(vars[i]) < Rank(vars[j]))
  }

  lemma {:induction false} ThreeCoordinateVars(vars: seq<string>)
    requires CoordinateVars(vars) && |vars| == 3
    ensures vars == COORD
  {
    assert Rank(vars[0]) < Rank(vars[1]) < Rank(vars[2]);
    assert vars[0] in COORD && vars[1] in COORD && vars[2] in COORD;
    assert Rank(vars[2]) <= 2;
  }

  /** For an equation whose variables come from {x, y, z}, the term of axis `axis`
      is the squared second derivative with respect to the variable named
      COORD[axis] when the equation has it, and the constant 0 otherwise; with
      three variables the positional choice of the source picks that variable. */
  lemma {:induction false} CurvatureTermDifferentiatesAlongAxis(f: Formula, axis: nat)
    requires axis < 3 && 1 <= |f.vars| <= 3 && CoordinateVars(f.vars)
    ensures CurvatureTerm(f, axis) == Ok(SquaredSecondPartial(f, IndexOf(f.vars, COORD[axis])))
    ensures IndexOf(f.vars, COORD[axis]).Some? ==>
      f.vars[IndexOf(f.vars, COORD[axis]).value] == COORD[axis]
  {
    if |f.vars| == 3 {
      ThreeCoordinateVars(f.vars);
      assert f.vars[axis] == COORD[axis];
    }
  }

  /** The curvature density of axis `axis`: sqrt(term_X + term_Y + term_Z). */
  function AxisCurvature(xEq: Formula, yEq: Formula, zEq: Formula, axis: nat): (r: Result<Term>)
    requires axis < 3
    ensures r.Ok? <==> 1 <= |xEq.vars| <= 3 && 1 <= |yEq.vars| <= 3 && 1 <= |zEq.vars| <= 3
    ensures r.Ok? ==> r.value == Sqrt(Add(Add(CurvatureTerm(xEq, axis).value,
      CurvatureTerm(yEq, axis).value), CurvatureTerm(zEq, axis).value))
  {
    match CurvatureTerm(xEq, axis)
    case Err(e) => Err(e)
    case Ok(ddx1) =>
      match CurvatureTerm(yEq, axis)
      case Err(e) => Err(e)
      case Ok(ddx2) =>
        match CurvatureTerm(zEq, axis)
        case Err(e) => Err(e)
        case Ok(ddx3) => Ok(Sqrt(Add(Add(ddx1, ddx2), ddx3)))
  }

  /** `calculate_curvature`: the three densities, in x, y, z order. */
  function CalculateCurvature(xEq: Formula, yEq: Formula, zEq: Formula): (r: Result<(Term, Term, Term)>)
    ensures r.Ok? <==> 1 <= |xEq.vars| <= 3 && 1 <= |yEq.vars| <= 3 && 1 <= |zEq.vars| <= 3
    ensures r.Ok? ==>
      && r.value.0 == AxisCurvature(xEq, yEq, zEq, 0).value
      && r.value.1 == AxisCurvature(xEq, yEq, zEq, 1).value
      && r.value.2 == AxisCurvature(xEq, yEq, zEq, 2).value
  {
    match AxisCurvature(xEq, yEq, zEq, 0)
    case Err(e) => Err(e)
    case Ok(a) =>
      match AxisCurvature(xEq, yEq, zEq, 1)
      case Err(e) => Err(e)
      case Ok(b) =>
        match AxisCurvature(xEq, yEq, zEq, 2)
        case Err(e) => Err(e)
        case Ok(c) => Ok((a, b, c))
  }

  /** `CoordsSys::new`; the source unwraps the curvature result, so the
      `Err` case stands for that panic. */
  function New(xEq: Formula, yEq: Formula, zEq: Formula): (r: Result<CoordsSys>)
    ensures r.Ok? <==> 1 <= |xEq.vars| <= 3 && 1 <= |yEq.vars| <= 3 && 1 <= |zEq.vars| <= 3
    ensures r.Ok? ==> r.value.xEq == xEq && r.value.yEq == yEq && r.value.zEq == zEq
    ensures r.Ok? ==>
      && r.value.xCurvature == AxisCurvature(xEq, yEq, zEq, 0).value
      && r.value.yCurvature == AxisCurvature(xEq, yEq, zEq, 1).value
      && r.value.zCurvature == AxisCurvature(xEq, yEq, zEq, 2).value
    ensures r.Ok? ==> DensitiesWellFormed(r.value)
  {
    match CalculateCurvature(xEq, yEq, zEq)
    case Err(e) => Err(e)
    case Ok(c) =>
      var cs := CoordsSys(xEq, yEq, zEq, c.0, c.1, c.2);
      assert IsDensity(cs.xCurvature) by { DensityShape(xEq, yEq, zEq, 0); }
      assert IsDensity(cs.yCurvature) by { DensityShape(xEq, yEq, zEq, 1); }
      assert IsDensity(cs.zCurvature) by { DensityShape(xEq, yEq, zEq, 2); }
      Ok(cs)
  }

  /** A term that is a square or the zero constant. */
  predicate SquareOrZero(t: Term)
  {
    t == Num(0.0) || (t.Pow? && t.exponent == Num(2.0))
  }

  /** The shape of a curvature density: the square root of a sum of three
      squares-or-zeros. */
  predicate IsDensity(t: Term)
  {
    && t.Sqrt? && t.arg.Add? && t.arg.left.Add?
    && SquareOrZero(t.arg.left.left) && SquareOrZero(t.arg.left.right)
    && SquareOrZero(t.arg.right)
  }

  ghost predicate DensitiesWellFormed(cs: CoordsSys)
  {
    IsDensity(cs.xCurvature) && IsDensity(cs.yCurvature) && IsDensity(cs.zCurvature)
  }

  lemma DensityShape(xEq: Formula, yEq: Formula, zEq: Formula, axis: nat)
    requires axis < 3
    requires AxisCurvature(xEq, yEq, zEq, axis).Ok?
    ensures IsDensity(AxisCurvature(xEq, yEq, zEq, axis).value)
  {
  }

  /** A curvature density never evaluates to a negative number: it is the
      square root of a sum of squares (sqrt(0) = 0 included). */
  lemma {:induction false} DensityNonNegative(t: Term, p: Point, eng: Engine)
    requires Sound(eng) && IsDensity(t)
    ensures Value(t, p, eng) >= 0.0
  {
    var a, b, c := t.arg.left.left, t.arg.left.right, t.arg.right;
    SquareOrZeroNonNegative(a, p, eng);
    SquareOrZeroNonNegative(b, p, eng);
    SquareOrZeroNonNegative(c, p, eng);
    assert Value(t.arg, p, eng) >= 0.0;
  }

  lemma SquareOrZeroNonNegative(t: Term, p: Point, eng: Engine)
    requires Sound(eng) && SquareOrZero(t)
    ensures Value(t, p, eng) >= 0.0
  {
    if t != Num(0.0) {
      SquareNonNegative(t.base, p, eng);
    }
  }

  /** The density of axis `axis`. */
  function CurvatureOf(cs: CoordsSys, axis: nat): Term
    requires axis < 3
  {
    if axis == 0 then cs.xCurvature else if axis == 1 then cs.yCurvature else cs.zCurvature
  }

  /** The point whose coordinate `axis` is `s` and whose two other
      coordinates are `a` and `b`, in x, y, z order. */
  function InsertAt(axis: nat, s: real, a: real, b: real): Point
  {
    if axis == 0 then Point(s, a, b) else if axis == 1 then Point(a, s, b) else Point(a, b, s)
  }

  /** A compiled density with two coordinates fixed: a function of the remaining
      one (`FastExpr2dto1d` applied to the two fixed values). `a` and `b` are the
      other two coordinates in x, y, z order. */
  function Fixed(t: Term, axis: nat, a: real, b: real, eng: Engine): (g: real -> real)
    requires axis < 3
    ensures forall s: real :: g(s) == Value(t, InsertAt(axis, s, a, b), eng)
  {
    if axis == 0 then (s: real) => Value(t, Point(s, a, b), eng)
    else if axis == 1 then (s: real) => Value(t, Point(a, s, b), eng)
    else (s: real) => Value(t, Point(a, b, s), eng)
  }

  /** The integrand of axis `axis` at `p`: the density along that axis with the
      other two coordinates fixed at those of `p`. */
  function Integrand(cs: CoordsSys, axis: nat, p: Point, eng: Engine): (g: real -> real)
    requires axis < 3
    ensures forall s: real :: g(s) == Value(CurvatureOf(cs, axis), WithCoord(p, axis, s), eng)
  {
    if axis == 0 then Fixed(cs.xCurvature, 0, p.y, p.z, eng)
    else if axis == 1 then Fixed(cs.yCurvature, 1, p.x, p.z, eng)
    else Fixed(cs.zCurvature, 2, p.x, p.y, eng)
  }

  /** A quadrature rule `quad(f, a, b, n)` (the trapezoidal rule with `n`
      sub-intervals), known only through this property: a non-negative
      integrand over a <= b has a non-negative integral. */
  ghost predicate QuadratureMonotone(quad: (real -> real, real, real, nat) -> real)
  {
    forall f: real -> real, a: real, b: real, n: nat ::
      a <= b && (forall s: real :: f(s) >= 0.0) ==> quad(f, a, b, n) >= 0.0
  }

  /** Component `axis` of a triple. */
  function Component(c: (real, real, real), axis: nat): real
    requires axis < 3
  {
    if axis == 0 then c.0 else if axis == 1 then c.1 else c.2
  }

  /** `get_curvature`: per axis, the integral of that axis' density over
      [p_axis - len, p_axis + len] with 100 sub-intervals, the two other
      coordinates fixed at the point's. */
  function GetCurvature(cs: CoordsSys, p: Point, len: real, eng: Engine,
                        quad: (real -> real, real, real, nat) -> real): (r: (real, real, real))
    ensures forall axis :: 0 <= axis < 3 ==>
      Component(r, axis) == quad(Integrand(cs, axis, p, eng), Coord(p, axis) - len, Coord(p, axis) + len, SUBINTERVALS)
  {
    var fx := Fixed(cs.xCurvature, 0, p.y, p.z, eng);
    var fy := Fixed(cs.yCurvature, 1, p.x, p.z, eng);
    var fz := Fixed(cs.zCurvature, 2, p.x, p.y, eng);
    (quad(fx, p.x - len, p.x + len, SUBINTERVALS),
     quad(fy, p.y - len, p.y + len, SUBINTERVALS),
     quad(fz, p.z - len, p.z + len, SUBINTERVALS))
  }

  /** With a sound engine, a monotone quadrature and a non-negative half-width,
      every curvature of a coordinate system built by `New` is non-negative. */
  lemma {:induction false} CurvatureNonNegative(cs: CoordsSys, p: Point, len: real, eng: Engine,
                                                quad: (real -> real, real, real, nat) -> real, axis: nat)
    requires Sound(eng) && QuadratureMonotone(quad) && DensitiesWellFormed(cs)
    requires len >= 0.0 && axis < 3
    ensures Component(GetCurvature(cs, p, len, eng, quad), axis) >= 0.0
  {
    var f := Integrand(cs, axis, p, eng);
    forall s: real ensures f(s) >= 0.0 {
      DensityNonNegative(CurvatureOf(cs, axis), WithCoord(p, axis, s), eng);
    }
  }

  /** `eval`: the three coordinate expressions at one and the same (x, y, z). */
  function Eval(cs: CoordsSys, x: real, y: real, z: real, eng: Engine): (r: (real, real, real))
    ensures forall axis :: 0 <= axis < 3 ==>
      Component(r, axis) == eng.atom([cs.xEq, cs.yEq, cs.zEq][axis], Point(x, y, z))
  {
    (eng.atom(cs.xEq, Point(x, y, z)), eng.atom(cs.yEq, Point(x, y, z)), eng.atom(cs.zEq, Point(x, y, z)))
  }

  /** A formula the engine evaluates to coordinate `axis` of its point. */
  ghost predicate IsCoordinate(f: Formula, axis: nat, eng: Engine)
    requires axis < 3
  {
    forall p: Point :: eng.atom(f, p) == Coord(p, axis)
  }

  /** The identity coordinate system maps every point to itself. */
  lemma IdentityEval(cs: CoordsSys, eng: Engine, a: real, b: real, c: real)
    requires IsCoordinate(cs.xEq, 0, eng) && IsCoordinate(cs.yEq, 1, eng) && IsCoordinate(cs.zEq, 2, eng)
    ensures Eval(cs, a, b, c, eng) == (a, b, c)
  {
    assert eng.atom(cs.xEq, Point(a, b, c)) == a;
    assert eng.atom(cs.yEq, Point(a, b, c)) == b;
    assert eng.atom(cs.zEq, Point(a, b, c)) == c;
  }

  /** `is_equivalent`: the three texts equal the stored expressions' canonical
      texts, position by position. */
  function IsEquivalent(cs: CoordsSys, eqs: seq<string>): (r: bool)
    requires |eqs| == 3
    ensures r <==> forall i :: 0 <= i < 3 ==> eqs[i] == [cs.xEq, cs.yEq, cs.zEq][i].text
  {
    eqs[0] == cs.xEq.text && eqs[1] == cs.yEq.text && eqs[2] == cs.zEq.text
  }
}

/// The symbolic expression engine (exmex) as an abstract capability.
/// A parsed user formula is known only through its canonical text (`to_string`)
/// and its variable names (`var_names`); what the engine builds from it is kept as
/// a symbolic term, and numbers come out of it only through an `Engine`.
module Expressions {

  /** A point of parametric space (x, y, z). */
  datatype Point = Point(x: real, y: real, z: real)

  /** The coordinate names, indexed by axis 0, 1, 2. */
  const COORD: seq<string> := ["x", "y", "z"]

  /** Coordinate `axis` of `p`. */
  function Coord(p: Point, axis: nat): real
    requires axis < 3
  {
    if axis == 0 then p.x else if axis == 1 then p.y else p.z
  }

  /** `p` with coordinate `axis` replaced by `t`. */
  function WithCoord(p: Point, axis: nat, t: real): (q: Point)
    requires axis < 3
    ensures Coord(q, axis) == t
    ensures forall j :: 0 <= j < 3 && j != axis ==> Coord(q, j) == Coord(p, j)
  {
    if axis == 0 then p.(x := t) else if axis == 1 then p.(y := t) else p.(z := t)
  }

  /** A formula as parsed by the engine: its canonical text and its variables
      in the engine's order. */
  datatype Formula = Formula(text: string, vars: seq<string>)

  /** The expressions the engine builds: a number, a formula, the `order`-th
      partial derivative of a formula with respect to its `index`-th variable,
      and the binary and unary operators the source applies. */
  datatype Term =
    | Num(c: real)
    | Atom(f: Formula)
    | Partial(f: Formula, index: nat, order: nat)
    | Pow(base: Term, exponent: Term)
    | Add(left: Term, right: Term)
    | Mul(left: Term, right: Term)
    | Sqrt(arg: Term)

  /** Numeric meaning of the engine's primitives at a point. */
  datatype Engine = Engine(
    atom: (Formula, Point) -> real,
    partial: (Formula, nat, nat, Point) -> real,
    pow: (real, real) -> real,
    sqrt: real -> real)

  /** What the model relies on from the engine's arithmetic: squaring is `v * v`
      and the square root of a non-negative number is non-negative. */
  ghost predicate Sound(eng: Engine)
  {
    && (forall v: real :: eng.pow(v, 2.0) == v * v)
    && (forall v: real :: 0.0 <= v ==> 0.0 <= eng.sqrt(v))
  }

  /** The value of a term at a point. */
  function Value(t: Term, p: Point, eng: Engine): real
  {
    match t
    case Num(c) => c
    case Atom(f) => eng.atom(f, p)
    case Partial(f, i, n) => eng.partial(f, i, n, p)
    case Pow(b, e) => eng.pow(Value(b, p, eng), Value(e, p, eng))
    case Add(l, r) => Value(l, p, eng) + Value(r, p, eng)
    case Mul(l, r) => Value(l, p, eng) * Value(r, p, eng)
    case Sqrt(a) => eng.sqrt(Value(a, p, eng))
  }

  /** `t ^ 2`, as the source writes it with `operate_binary(two, "^")`. */
  function Square(t: Term): Term
  {
    Pow(t, Num(2.0))
  }

  lemma SquareNonNegative(t: Term, p: Point, eng: Engine)
    requires Sound(eng)
    ensures Value(Square(t), p, eng) >= 0.0
  {
    var v := Value(t, p, eng);
    assert eng.pow(v, 2.0) == v * v;
  }
}

/// src/maths/space.rs: the metric g = J^T J of a coordinate map, assembled
/// symbolically from the Jacobian's columns.
module MetricSpace {
  import opened Results
  import opened Expressions
  import opened Decimal

  /** `sum3`: (a + b) + c. */
  function Sum3(a: Term, b: Term, c: Term): Term
  {
    Add(Add(a, b), c)
  }

  /** `dot3`: (a0 * b0 + a1 * b1) + a2 * b2. */
  function Dot3(a0: Term, a1: Term, a2: Term, b0: Term, b1: Term, b2: Term): Term
  {
    Sum3(Mul(a0, b0), Mul(a1, b1), Mul(a2, b2))
  }

  /** Evaluated, `sum3` is the sum of its three operands. */
  lemma Sum3Value(a: Term, b: Term, c: Term, p: Point, eng: Engine)
    ensures Value(Sum3(a, b, c), p, eng) == Value(a, p, eng) + Value(b, p, eng) + Value(c, p, eng)
  {
    assert Value(Add(a, b), p, eng) == Value(a, p, eng) + Value(b, p, eng);
  }

  /** Evaluated, `dot3` is the dot product of its operands' values. */
  lemma Dot3Value(a0: Term, a1: Term, a2: Term, b0: Term, b1: Term, b2: Term, p: Point, eng: Engine)
    ensures Value(Dot3(a0, a1, a2, b0, b1, b2), p, eng) ==
      Value(a0, p, eng) * Value(b0, p, eng) + Value(a1, p, eng) * Value(b1, p, eng)
        + Value(a2, p, eng) * Value(b2, p, eng)
  {
    Sum3Value(Mul(a0, b0), Mul(a1, b1), Mul(a2, b2), p, eng);
  }

  /** A space: its dimension and its metric, a 3 x 3 array of expressions. */
  datatype Space = Space(dim: nat, metric: seq<seq<Term>>)

  /** The derivatives of the three coordinate expressions, each the list
      (d/dx, d/dy, d/dz) of one component: row `k` of the Jacobian. */
  datatype Jacobian = Jacobian(dX: seq<Term>, dY: seq<Term>, dZ: seq<Term>)

  predicate IsSquare(jac: Jacobian)
  {
    |jac.dX| == 3 && |jac.dY| == 3 && |jac.dZ| == 3
  }

  /** Column `i` of the Jacobian: the derivatives of X, Y and Z along
      coordinate `i`. */
  function Column(jac: Jacobian, i: nat): seq<Term>
    requires IsSquare(jac) && i < 3
  {
    [jac.dX[i], jac.dY[i], jac.dZ[i]]
  }

  /** The dot product of columns `i` and `j`. */
  function ColumnDot(jac: Jacobian, i: nat, j: nat): Term
    requires IsSquare(jac) && i < 3 && j < 3
  {
    var a := Column(jac, i);
    var b := Column(jac, j);
    Dot3(a[0], a[1], a[2], b[0], b[1], b[2])
  }

  /** `Space::new`: the derivative lists come from `derive` (the differential
      form's `d`); anything but three derivatives per expression is a panic. Entry
      (i, j) is the dot product of columns min(i, j) and max(i, j): the lower
      triangle holds copies of the upper one. */
  function New(xEq: Formula, yEq: Formula, zEq: Formula, derive: Formula -> seq<Term>): (r: Result<Space>)
    ensures r.Ok? <==> IsSquare(Jacobian(derive(xEq), derive(yEq), derive(zEq)))
    ensures r.Ok? ==>
      var jac := Jacobian(derive(xEq), derive(yEq), derive(zEq));
      && r.value.dim == 3
      && |r.value.metric| == 3
      && (forall i :: 0 <= i < 3 ==> |r.value.metric[i]| == 3)
      && (forall i, j :: 0 <= i <= j < 3 ==> r.value.metric[i][j] == ColumnDot(jac, i, j))
      && (forall i, j :: 0 <= j < i < 3 ==> r.value.metric[i][j] == ColumnDot(jac, j, i))
  {
    var dx := derive(xEq);
    var dy := derive(yEq);
    var dz := derive(zEq);
    if !(|dx| == 3 && |dy| == 3 && |dz| == 3) then
      Err("Expected 3 derivatives per coordinate expression; got X=" + DecimalText(|dx|)
          + ", Y=" + DecimalText(|dy|) + ", Z=" + DecimalText(|dz|))
    else
      var gxx := Dot3(dx[0], dy[0], dz[0], dx[0], dy[0], dz[0]);
      var gxy := Dot3(dx[0], dy[0], dz[0], dx[1], dy[1], dz[1]);
      var gxz := Dot3(dx[0], dy[0], dz[0], dx[2], dy[2], dz[2]);
      var gyy := Dot3(dx[1], dy[1], dz[1], dx[1], dy[1], dz[1]);
      var gyz := Dot3(dx[1], dy[1], dz[1], dx[2], dy[2], dz[2]);
      var gzz := Dot3(dx[2], dy[2], dz[2], dx[2], dy[2], dz[2]);
      var m := [[gxx, gxy, gxz], [gxy, gyy, gyz], [gxz, gyz, gzz]];
      MatrixEntries(Jacobian(dx, dy, dz), m);
      Ok(Space(3, m))
  }

  /** The matrix `Space::new` assembles: the six dot products of the upper
      triangle, mirrored below the diagonal. */
  lemma MatrixEntries(jac: Jacobian, m: seq<seq<Term>>)
    requires IsSquare(jac)
    requires m == [[ColumnDot(jac, 0, 0), ColumnDot(jac, 0, 1), ColumnDot(jac, 0, 2)],
                   [ColumnDot(jac, 0, 1), ColumnDot(jac, 1, 1), ColumnDot(jac, 1, 2)],
                   [ColumnDot(jac, 0, 2), ColumnDot(jac, 1, 2), ColumnDot(jac, 2, 2)]]
    ensures |m| == 3 && forall i :: 0 <= i < 3 ==> |m[i]| == 3
    ensures forall i, j :: 0 <= i <= j < 3 ==> m[i][j] == ColumnDot(jac, i, j)
    ensures forall i, j :: 0 <= j < i < 3 ==> m[i][j] == ColumnDot(jac, j, i)
  {
    forall i, j | 0 <= i <= j < 3 ensures m[i][j] == ColumnDot(jac, i, j) {
      if i == 0 {
        assert m[0] == [ColumnDot(jac, 0, 0), ColumnDot(jac, 0, 1), ColumnDot(jac, 0, 2)];
      } else if i == 1 {
        assert m[1] == [ColumnDot(jac, 0, 1), ColumnDot(jac, 1, 1), ColumnDot(jac, 1, 2)];
      } else {
        assert m[2] == [ColumnDot(jac, 0, 2), ColumnDot(jac, 1, 2), ColumnDot(jac, 2, 2)];
      }
    }
    forall i, j | 0 <= j < i < 3 ensures m[i][j] == ColumnDot(jac, j, i) {
      if i == 1 {
        assert m[1] == [ColumnDot(jac, 0, 1), ColumnDot(jac, 1, 1), ColumnDot(jac, 1, 2)];
      } else {
        assert m[2] == [ColumnDot(jac, 0, 2), ColumnDot(jac, 1, 2), ColumnDot(jac, 2, 2)];
      }
    }
  }

  /** `get_metric`. */
  function GetMetric(s: Space): seq<seq<Term>>
  {
    s.metric
  }

  /** The metric is symmetric, entry by entry, as expressions. */
  lemma MetricSymmetric(xEq: Formula, yEq: Formula, zEq: Formula, derive: Formula -> seq<Term>, i: nat, j: nat)
    requires New(xEq, yEq, zEq, derive).Ok? && i < 3 && j < 3
    ensures GetMetric(New(xEq, yEq, zEq, derive).value)[i][j] == GetMetric(New(xEq, yEq, zEq, derive).value)[j][i]
  {
  }

  /** Evaluated at any point, entry (i, j) is the sum over the components k of
      dk/di * dk/dj. */
  lemma MetricValue(xEq: Formula, yEq: Formula, zEq: Formula, derive: Formula -> seq<Term>,
                    i: nat, j: nat, p: Point, eng: Engine)
    requires New(xEq, yEq, zEq, derive).Ok? && i < 3 && j < 3
    ensures var jac := Jacobian(derive(xEq), derive(yEq), derive(zEq));
      Value(New(xEq, yEq, zEq, derive).value.metric[i][j], p, eng) ==
        Value(jac.dX[i], p, eng) * Value(jac.dX[j], p, eng)
        + Value(jac.dY[i], p, eng) * Value(jac.dY[j], p, eng)
        + Value(jac.dZ[i], p, eng) * Value(jac.dZ[j], p, eng)
  {
    var jac := Jacobian(derive(xEq), derive(yEq), derive(zEq));
    var a0, a1, a2 := Value(jac.dX[i], p, eng), Value(jac.dY[i], p, eng), Value(jac.dZ[i], p, eng);
    var b0, b1, b2 := Value(jac.dX[j], p, eng), Value(jac.dY[j], p, eng), Value(jac.dZ[j], p, eng);
    if i <= j {
      assert New(xEq, yEq, zEq, derive).value.metric[i][j] == ColumnDot(jac, i, j);
      Dot3Value(jac.dX[i], jac.dY[i], jac.dZ[i], jac.dX[j], jac.dY[j], jac.dZ[j], p, eng);
    } else {
      assert New(xEq, yEq, zEq, derive).value.metric[i][j] == ColumnDot(jac, j, i);
      Dot3Value(jac.dX[j], jac.dY[j], jac.dZ[j], jac.dX[i], jac.dY[i], jac.dZ[i], p, eng);
      assert b0 * a0 == a0 * b0 && b1 * a1 == a1 * b1 && b2 * a2 == a2 * b2;
    }
  }

  /** Diagonal entries are sums of squares, never negative over the reals. */
  lemma {:induction false} MetricDiagonalNonNegative(xEq: Formula, yEq: Formula, zEq: Formula,
                                                     derive: Formula -> seq<Term>, i: nat, p: Point, eng: Engine)
    requires New(xEq, yEq, zEq, derive).Ok? && i < 3
    ensures Value(New(xEq, yEq, zEq, derive).value.metric[i][i], p, eng) >= 0.0
  {
    MetricValue(xEq, yEq, zEq, derive, i, i, p, eng);
    var a := Value(derive(xEq)[i], p, eng);
    var b := Value(derive(yEq)[i], p, eng);
    var c := Value(derive(zEq)[i], p, eng);
    assert a * a >= 0.0 && b * b >= 0.0 && c * c >= 0.0;
  }

  /** The identity coordinates X = x, Y = y, Z = z (whose derivatives are the
      constants of the identity Jacobian) give the Euclidean metric. */
  lemma {:induction false} IdentityMetric(xEq: Formula, yEq: Formula, zEq: Formula,
                                          derive: Formula -> seq<Term>, p: Point, eng: Engine)
    requires derive(xEq) == [Num(1.0), Num(0.0), Num(0.0)]
    requires derive(yEq) == [Num(0.0), Num(1.0), Num(0.0)]
    requires derive(zEq) == [Num(0.0), Num(0.0), Num(1.0)]
    ensures New(xEq, yEq, zEq, derive).Ok?
    ensures forall i, j :: 0 <= i < 3 && 0 <= j < 3 ==>
      Value(New(xEq, yEq, zEq, derive).value.metric[i][j], p, eng) == if i == j then 1.0 else 0.0
  {
    forall i, j | 0 <= i < 3 && 0 <= j < 3
      ensures Value(New(xEq, yEq, zEq, derive).value.metric[i][j], p, eng) == if i == j then 1.0 else 0.0
    {
      MetricValue(xEq, yEq, zEq, derive, i, j, p, eng);
    }
  }

  /** The linear map X = x + 2y, Y = 3y - z, Z = 4z has the constant metric
      [1 2 0; 2 13 -3; 0 -3 17]. */
  lemma {:induction false} LinearMetric(xEq: Formula, yEq: Formula, zEq: Formula,
                                        derive: Formula -> seq<Term>, p: Point, eng: Engine)
    requires derive(xEq) == [Num(1.0), Num(2.0), Num(0.0)]
    requires derive(yEq) == [Num(0.0), Num(3.0), Num(-1.0)]
    requires derive(zEq) == [Num(0.0), Num(0.0), Num(4.0)]
    ensures New(xEq, yEq, zEq, derive).Ok?
    ensures forall i, j :: 0 <= i < 3 && 0 <= j < 3 ==>
      Value(New(xEq, yEq, zEq, derive).value.metric[i][j], p, eng)
        == [[1.0, 2.0, 0.0], [2.0, 13.0, -3.0], [0.0, -3.0, 17.0]][i][j]
  {
    forall i, j | 0 <= i < 3 && 0 <= j < 3
      ensures Value(New(xEq, yEq, zEq, derive).value.metric[i][j], p, eng)
        == [[1.0, 2.0, 0.0], [2.0, 13.0, -3.0], [0.0, -3.0, 17.0]][i][j]
    {
      MetricValue(xEq, yEq, zEq, derive, i, j, p, eng);
    }
  }
}

/**
 * The field view: n plots laid out on a grid of `ceil(sqrt n)` columns and
 * `ceil(n / cols)` rows, plot i at `((i % cols) * 10, floor(i / cols) * 6)`,
 * the selected plot drawn in its own colour.
 */
module Campo3D {
  import opened Wrappers
  import opened Plantations

  /** The search behind `Math.ceil(Math.sqrt(n))`, upward from `c`. */
  function CeilSqrtFrom(n: nat, c: nat): (r: nat)
    requires c == 0 || (c - 1) * (c - 1) < n
    ensures r >= c && r * r >= n
    ensures r == 0 || (r - 1) * (r - 1) < n
    decreases n - c
  {
    if c * c >= n then c
    else
      assert c <= c * c;
      CeilSqrtFrom(n, c + 1)
  }

  /** `cols = Math.ceil(Math.sqrt(n))` */
  function Cols(n: nat): (c: nat)
    ensures c * c >= n
    ensures c == 0 || (c - 1) * (c - 1) < n
  {
    CeilSqrtFrom(n, 0)
  }

  lemma SquareMonotone(a: nat, b: nat)
    requires a <= b
    ensures a * a <= b * b
  {
    assert a * a <= a * b <= b * b;
  }

  lemma MulMonotone(a: nat, b: nat, c: nat)
    requires a <= b
    ensures a * c <= b * c
  {
  }

  /** `cols` is the least c with c * c >= n; it is 0 exactly for no plots. */
  lemma ColsIsLeast(n: nat, c: nat)
    requires c * c >= n
    ensures Cols(n) <= c
    ensures (Cols(n) == 0) == (n == 0)
  {
    var r := Cols(n);
    if r > c {
      SquareMonotone(c, r - 1);
      assert false;
    }
  }

  /** `rows = Math.ceil(n / cols)`; with no plots that is `0 / 0`, `NaN`, here `None`. */
  function Rows(n: nat): (r: Option<nat>)
    ensures r.None? <==> n == 0
  {
    if n == 0 then None else Some((n + Cols(n) - 1) / Cols(n))
  }

  /** For n >= 1, `rows` is the least number of rows of `cols` plots that hold all n. */
  lemma RowsIsCeiling(n: nat)
    requires n >= 1
    ensures Cols(n) >= 1
    ensures Rows(n).value * Cols(n) >= n
    ensures (Rows(n).value - 1) * Cols(n) < n
  {
    ColsIsLeast(n, n);
    var c := Cols(n);
    var q := (n + c - 1) / c;
    assert (n + c - 1) == q * c + (n + c - 1) % c;
    assert q * c >= n;
    assert (q - 1) * c == q * c - c;
  }

  /** The grid holds every plot. */
  lemma GridHoldsAll(n: nat)
    requires n >= 1
    ensures Cols(n) * Rows(n).value >= n
  {
    RowsIsCeiling(n);
  }

  /** Plot i's column and row: the grid is filled row by row, `cols` plots to a row. */
  function Column(i: nat, cols: nat): (c: nat)
    requires cols > 0
    ensures c < cols
    ensures i < cols ==> c == i
  {
    i % cols
  }

  function Row(i: nat, cols: nat): (r: nat)
    requires cols > 0
    ensures r * cols <= i < r * cols + cols
    ensures r * cols + Column(i, cols) == i
  {
    i / cols
  }

  /** Every plot falls inside the grid: its row is below `rows`, its column below `cols`. */
  lemma PlotInGrid(n: nat, i: nat)
    requires i < n
    ensures Cols(n) >= 1
    ensures Column(i, Cols(n)) < Cols(n)
    ensures Row(i, Cols(n)) < Rows(n).value
  {
    RowsIsCeiling(n);
    var c, r := Cols(n), Rows(n).value;
    var q := i / c;
    assert q * c <= i by {
      assert i == q * c + i % c;
    }
    if q >= r {
      MulMonotone(r, q, c);
      assert false;
    }
  }

  /** A plot on the field. */
  datatype Parcela = Parcela(x: int, y: int, plantacion: Plantacion, seleccionada: bool, color: string)

  /** `x = (i % cols) * 10`, `y = Math.floor(i / cols) * 6` */
  function Position(i: nat, cols: nat): (p: (int, int))
    requires cols > 0
    ensures 0 <= p.0 < 10 * cols && p.0 % 10 == 0
    ensures 0 <= p.1 && p.1 % 6 == 0
  {
    (Column(i, cols) * 10, Row(i, cols) * 6)
  }

  /** Distinct plots get distinct positions. */
  lemma PositionsDistinct(i: nat, j: nat, cols: nat)
    requires cols > 0 && i != j
    ensures Position(i, cols) != Position(j, cols)
  {
    if i % cols == j % cols {
      assert i == (i / cols) * cols + i % cols;
      assert j == (j / cols) * cols + j % cols;
      assert i / cols != j / cols;
    }
  }

  /** The material colour of a plot: green when selected, brown otherwise. */
  function Color(seleccionada: bool): string {
    if seleccionada then "#4CAF50" else "#8B5E3C"
  }

  /** `plantaciones.map((p, i) => <Parcela x y seleccionada={p.id === seleccionadaId} .../>)` */
  function Layout(ps: seq<Plantacion>, sel: Option<string>): (r: seq<Parcela>)
    ensures |r| == |ps|
    ensures forall i :: 0 <= i < |ps| ==> r[i].plantacion == ps[i]
    ensures forall i :: 0 <= i < |ps| ==> (r[i].seleccionada <==> sel == Some(ps[i].id))
    ensures forall i :: 0 <= i < |ps| ==> (r[i].x, r[i].y) == Position(i, Cols(|ps|))
    ensures forall i :: 0 <= i < |ps| ==> r[i].color == Color(r[i].seleccionada)
  {
    var cols := Cols(|ps|);
    assert |ps| > 0 ==> cols > 0;
    seq(|ps|, i requires 0 <= i < |ps| =>
      var chosen := Some(ps[i].id) == sel;
      Parcela(Position(i, cols).0, Position(i, cols).1, ps[i], chosen, Color(chosen)))
  }

  /** When ids are unique at most one plot is drawn as selected (green), and no two plots overlap. */
  lemma LayoutProperties(ps: seq<Plantacion>, sel: Option<string>)
    requires forall i, j :: 0 <= i < j < |ps| ==> ps[i].id != ps[j].id
    ensures var r := Layout(ps, sel);
      forall i, j :: 0 <= i < j < |r| ==> !(r[i].seleccionada && r[j].seleccionada)
    ensures var r := Layout(ps, sel);
      forall i, j :: 0 <= i < j < |r| ==> !(r[i].color == Color(true) && r[j].color == Color(true))
    ensures var r := Layout(ps, sel);
      forall i, j :: 0 <= i < j < |r| ==> (r[i].x, r[i].y) != (r[j].x, r[j].y)
  {
    var r := Layout(ps, sel);
    forall i, j | 0 <= i < j < |r|
      ensures (r[i].x, r[i].y) != (r[j].x, r[j].y)
    {
      PositionsDistinct(i, j, Cols(|ps|));
    }
  }
}

/** The gap-limited fill `df.interpolate(method='linear', limit=1, limit_direction=...)`
    of src/data/data_processing.py, column by column. `None` is a missing (NaN) cell;
    `real` is exact, so the interpolated values are exact too. */
module Interpolation {
  import opened Wrappers

  type Cell = Option<real>
  type Column = seq<Cell>

  /** `limit_direction`: which side of a present cell the fill may reach. */
  datatype Direction = Both | Forward | Backward

  /** The nearest present cell above row `i`. */
  function PrevPresent(col: Column, i: nat): (p: Option<nat>)
    requires i <= |col|
    ensures p.Some? ==> p.value < i && col[p.value].Some? && forall k :: p.value < k < i ==> col[k].None?
    ensures p.None? ==> forall k :: 0 <= k < i ==> col[k].None?
  {
    if i == 0 then None else if col[i - 1].Some? then Some(i - 1) else PrevPresent(col, i - 1)
  }

  /** The nearest present cell below row `i`. */
  function NextPresent(col: Column, i: nat): (q: Option<nat>)
    requires i < |col|
    ensures q.Some? ==> i < q.value < |col| && col[q.value].Some? && forall k :: i < k < q.value ==> col[k].None?
    ensures q.None? ==> forall k :: i < k < |col| ==> col[k].None?
    decreases |col| - i
  {
    if i + 1 == |col| then None else if col[i + 1].Some? then Some(i + 1) else NextPresent(col, i + 1)
  }

  /** With `limit=1`, a missing cell is filled only when the cell next to it, on a side
      the direction allows, is present. */
  predicate Reachable(col: Column, i: nat, dir: Direction)
    requires i < |col|
  {
    var fromAbove := i > 0 && col[i - 1].Some?;
    var fromBelow := i + 1 < |col| && col[i + 1].Some?;
    match dir
    case Both => fromAbove || fromBelow
    case Forward => fromAbove
    case Backward => fromBelow
  }

  /** Linear interpolation by row position between the present rows `p` and `q`. */
  function Between(a: real, b: real, p: nat, i: nat, q: nat): (v: real)
    requires p < i < q
  {
    a + (b - a) * ((i - p) as real) / ((q - p) as real)
  }

  /** The filled value of row `i`: linear between the nearest present cells, or the
      nearest present value past the first or last present cell. */
  function FillCell(col: Column, i: nat, dir: Direction): (c: Cell)
    requires i < |col|
    ensures col[i].Some? ==> c == col[i]
    ensures c.Some? <==> col[i].Some? || Reachable(col, i, dir)
  {
    if col[i].Some? || !Reachable(col, i, dir) then col[i]
    else
      assert PrevPresent(col, i).Some? || NextPresent(col, i).Some?;
      match (PrevPresent(col, i), NextPresent(col, i))
      case (Some(p), Some(q)) => Some(Between(col[p].value, col[q].value, p, i, q))
      case (Some(p), None) => col[p]
      case (None, Some(q)) => col[q]
  }

  /** One column after interpolation. Same length; present cells unchanged; a missing
      cell gets a value exactly when it is reachable from a present neighbour. */
  function FillColumn(col: Column, dir: Direction): (r: Column)
    ensures |r| == |col|
    ensures forall i :: 0 <= i < |col| && col[i].Some? ==> r[i] == col[i]
    ensures forall i :: 0 <= i < |col| ==> (r[i].Some? <==> col[i].Some? || Reachable(col, i, dir))
  {
    seq(|col|, i requires 0 <= i < |col| => FillCell(col, i, dir))
  }

  /** A single gap becomes the mean of the cells above and below it, in any direction. */
  lemma SingleGapIsMean(col: Column, i: nat, dir: Direction)
    requires 0 < i < |col| - 1
    requires col[i].None? && col[i - 1].Some? && col[i + 1].Some?
    ensures FillColumn(col, dir)[i] == Some((col[i - 1].value + col[i + 1].value) / 2.0)
  {
    assert PrevPresent(col, i) == Some(i - 1);
    assert NextPresent(col, i) == Some(i + 1);
    var a, b := col[i - 1].value, col[i + 1].value;
    assert Between(a, b, i - 1, i, i + 1) == a + (b - a) * 1.0 / 2.0;
  }

  /** An interpolated value lies between the two present values it is drawn from. */
  lemma InteriorFillBetween(col: Column, i: nat, dir: Direction)
    requires i < |col| && col[i].None? && Reachable(col, i, dir)
    requires PrevPresent(col, i).Some? && NextPresent(col, i).Some?
    ensures var a, b := col[PrevPresent(col, i).value].value, col[NextPresent(col, i).value].value;
      var v := FillColumn(col, dir)[i].value;
      (a <= v <= b) || (b <= v <= a)
  {
    var p, q := PrevPresent(col, i).value, NextPresent(col, i).value;
    BetweenBounds(col[p].value, col[q].value, p, i, q);
  }

  /** A filled value never leaves the range of the column's present values. */
  lemma FillStaysInRange(col: Column, i: nat, dir: Direction)
    requires i < |col| && FillColumn(col, dir)[i].Some?
    ensures exists k :: 0 <= k < |col| && col[k].Some? && col[k].value <= FillColumn(col, dir)[i].value
    ensures exists k :: 0 <= k < |col| && col[k].Some? && FillColumn(col, dir)[i].value <= col[k].value
  {
    if col[i].None? {
      match (PrevPresent(col, i), NextPresent(col, i))
      case (Some(p), Some(q)) => BetweenBounds(col[p].value, col[q].value, p, i, q);
      case (Some(p), None) =>
      case (None, Some(q)) =>
      case (None, None) =>
    }
  }

  lemma BetweenBounds(a: real, b: real, p: nat, i: nat, q: nat)
    requires p < i < q
    ensures var v := Between(a, b, p, i, q); (a <= v <= b) || (b <= v <= a)
  {
    var n, d := (i - p) as real, (q - p) as real;
    var t := n / d;
    FractionBounds(n, d);
    var x := b - a;
    assert x * n / d == x * t;
    ScaleBounds(x, t);
    assert Between(a, b, p, i, q) == a + x * t;
  }

  lemma ScaleBounds(x: real, t: real)
    requires 0.0 < t < 1.0
    ensures x >= 0.0 ==> 0.0 <= x * t <= x
    ensures x < 0.0 ==> x <= x * t <= 0.0
  {
  }

  lemma FractionBounds(n: real, d: real)
    requires 0.0 < n < d
    ensures 0.0 < n / d < 1.0
  {
    var t := n / d;
    assert t * d == n;
    if t >= 1.0 {
      MulMonotone(t, 1.0, d);
      assert false;
    }
    if t <= 0.0 {
      MulMonotone(0.0, t, d);
      assert false;
    }
  }

  lemma MulMonotone(x: real, y: real, d: real)
    requires x >= y && d > 0.0
    ensures x * d >= y * d
  {
  }

  /** Before the first present cell the fill repeats it; after the last it repeats that. */
  lemma EdgesRepeatNearestValue(col: Column, i: nat, dir: Direction)
    requires i < |col| && col[i].None? && Reachable(col, i, dir)
    ensures PrevPresent(col, i).None? ==> FillColumn(col, dir)[i] == col[i + 1]
    ensures NextPresent(col, i).None? ==> FillColumn(col, dir)[i] == col[i - 1]
  {
  }

  /** With both directions, a missing cell whose neighbours above and below are both
      missing (or absent) stays missing. */
  lemma SurroundedGapStaysMissing(col: Column, i: nat)
    requires i < |col| && col[i].None?
    requires i == 0 || col[i - 1].None?
    requires i == |col| - 1 || col[i + 1].None?
    ensures FillColumn(col, Both)[i].None?
  {
  }

  /** Forward fills only below a present cell, backward only above one. */
  lemma OneSidedDirections(col: Column, i: nat)
    requires i < |col| && col[i].None?
    ensures FillColumn(col, Forward)[i].Some? <==> i > 0 && col[i - 1].Some?
    ensures FillColumn(col, Backward)[i].Some? <==> i + 1 < |col| && col[i + 1].Some?
  {
  }

  /** `limit=1` bounds each call, not the data: a run of three missing cells keeps its
      middle cell missing after one interpolation, and a second interpolation fills it
      from the values the first one produced. */
  lemma LimitIsPerCall()
    ensures FillColumn([Some(5.0), None, None, None, Some(9.0)], Both) == [Some(5.0), Some(6.0), None, Some(8.0), Some(9.0)]
    ensures FillColumn([Some(5.0), Some(6.0), None, Some(8.0), Some(9.0)], Both)
         == [Some(5.0), Some(6.0), Some(7.0), Some(8.0), Some(9.0)]
  {
    var col: Column := [Some(5.0), None, None, None, Some(9.0)];
    assert PrevPresent(col, 1) == Some(0) && NextPresent(col, 1) == Some(4);
    assert PrevPresent(col, 3) == Some(0) && NextPresent(col, 3) == Some(4);
    var r := FillColumn(col, Both);
    assert r[1] == Some(Between(5.0, 9.0, 0, 1, 4));
    assert r[3] == Some(Between(5.0, 9.0, 0, 3, 4));
    var once: Column := [Some(5.0), Some(6.0), None, Some(8.0), Some(9.0)];
    assert PrevPresent(once, 2) == Some(1) && NextPresent(once, 2) == Some(3);
    var r2 := FillColumn(once, Both);
    assert r2[2] == Some(Between(6.0, 8.0, 1, 2, 3));
  }

  /** The example from the pandas documentation of `limit_direction='both'` with `limit=1`. */
  lemma DocumentedExample()
    ensures FillColumn([None, None, Some(5.0), None, None, None, Some(13.0), None, None], Both)
         == [None, Some(5.0), Some(5.0), Some(7.0), None, Some(11.0), Some(13.0), Some(13.0), None]
  {
    var col: Column := [None, None, Some(5.0), None, None, None, Some(13.0), None, None];
    assert PrevPresent(col, 3) == Some(2) && NextPresent(col, 3) == Some(6);
    assert PrevPresent(col, 5) == Some(2) && NextPresent(col, 5) == Some(6);
    assert PrevPresent(col, 1) == None && NextPresent(col, 7) == None;
    var r := FillColumn(col, Both);
    assert r[3] == Some(Between(5.0, 13.0, 2, 3, 6));
    assert r[5] == Some(Between(5.0, 13.0, 2, 5, 6));
  }

  // ----- whole tables -----

  type Row = seq<Cell>

  predicate Rectangular(rows: seq<Row>, width: nat)
  {
    forall i :: 0 <= i < |rows| ==> |rows[i]| == width
  }

  function ColumnOf(rows: seq<Row>, j: nat, width: nat): (c: Column)
    requires Rectangular(rows, width) && j < width
    ensures |c| == |rows| && forall i :: 0 <= i < |rows| ==> c[i] == rows[i][j]
  {
    seq(|rows|, i requires 0 <= i < |rows| => rows[i][j])
  }

  /** `DataFrame.interpolate` on the cells: every column filled on its own. */
  function FillTable(rows: seq<Row>, width: nat, dir: Direction): (r: seq<Row>)
    requires Rectangular(rows, width)
    ensures |r| == |rows| && Rectangular(r, width)
    ensures forall i, j :: 0 <= i < |rows| && 0 <= j < width ==> r[i][j] == FillColumn(ColumnOf(rows, j, width), dir)[i]
  {
    var cols := seq(width, j requires 0 <= j < width => FillColumn(ColumnOf(rows, j, width), dir));
    seq(|rows|, i requires 0 <= i < |rows| => seq(width, j requires 0 <= j < width => cols[j][i]))
  }

  /** Row count, column count and present cells survive the fill, and each output column
      depends on its own input column only. */
  lemma FillTableColumnwise(rows: seq<Row>, other: seq<Row>, width: nat, dir: Direction, j: nat)
    requires Rectangular(rows, width) && Rectangular(other, width) && j < width
    requires ColumnOf(rows, j, width) == ColumnOf(other, j, width)
    ensures ColumnOf(FillTable(rows, width, dir), j, width) == FillColumn(ColumnOf(rows, j, width), dir)
    ensures ColumnOf(FillTable(rows, width, dir), j, width) == ColumnOf(FillTable(other, width, dir), j, width)
    ensures forall i :: 0 <= i < |rows| && rows[i][j].Some? ==> FillTable(rows, width, dir)[i][j] == rows[i][j]
  {
  }
}

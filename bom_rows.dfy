/** The body of the table drawn by `makeBillOfMaterialSVG`
    (BillOfMaterial/BillOfMaterial_SVG.py): one row per mark, in ascending
    mark order, and the per-diameter running totals that the footer shows. */
module BomRows {
  import opened Wrappers
  import opened SeqUtil
  import opened NumberText
  import opened BOMfunc
  import opened ColumnLayout

  datatype LengthType = RealLength | LengthWithSharpEdges

  /** The keyword arguments of `makeBillOfMaterialSVG` that shape the table,
      and the diameter-to-weight table `DIA_WEIGHT_MAP` (diameter in mm to
      weight per length). */
  datatype Config = Config(
    headers: Headers,
    units: map<Column, string>,
    lengthType: LengthType,
    columnWidth: real,
    rowHeight: real,
    leftOffset: real,
    topOffset: real,
    minRightOffset: real,
    minBottomOffset: real,
    maxWidth: Option<real>,
    maxHeight: Option<real>,
    weights: map<real, real>)

  function UnitOf(cfg: Config, column: Column): Option<string>
  {
    if column in cfg.units then Some(cfg.units[column]) else None
  }

  /** The y of the first body row: two rows down when the aggregate column
      is configured, hidden or not, else one row down. The header band is
      two rows high only when that column is visible, so a hidden aggregate
      column leaves an empty row between the band and the body. */
  function FirstRowY(cfg: Config): real
  {
    if RebarsTotalLength in cfg.headers then 2.0 * cfg.rowHeight else cfg.rowHeight
  }

  /** The first body row starts right under the header band, except with a
      hidden aggregate column: the band is then one row high and the body
      starts one row further down. */
  lemma FirstRowUnderBand(cfg: Config)
    ensures !(RebarsTotalLength in cfg.headers && cfg.headers[RebarsTotalLength].order == 0)
            ==> FirstRowY(cfg) == BandHeight(cfg.headers, cfg.rowHeight)
    ensures RebarsTotalLength in cfg.headers && cfg.headers[RebarsTotalLength].order == 0
            ==> BandHeight(cfg.headers, cfg.rowHeight) == cfg.rowHeight
                && FirstRowY(cfg) == BandHeight(cfg.headers, cfg.rowHeight) + cfg.rowHeight
  {
  }

  /** The y of body row `i`: `y_offset` grows by one row height per mark. */
  function RowY(cfg: Config, i: nat): real
  {
    if i == 0 then FirstRowY(cfg) else RowY(cfg, i - 1) + cfg.rowHeight
  }

  /** Row `i` sits exactly `i` row heights below the first row. */
  lemma {:induction false} RowYClosedForm(cfg: Config, i: nat)
    ensures RowY(cfg, i) == FirstRowY(cfg) + cfg.rowHeight * i as real
  {
    if i > 0 {
      RowYClosedForm(cfg, i - 1);
      ScaleAdd(cfg.rowHeight, i - 1, 1);
    }
  }

  // ---------------------------------------------------------------------
  // Count and total length of one mark
  // ---------------------------------------------------------------------

  /** The total `Amount` of a group. */
  function AmountSum(group: seq<Item>): int
  {
    if group == [] then 0 else AmountSum(group[..|group| - 1]) + group[|group| - 1].amount
  }

  /** The `rebars_count` loop. */
  method CountRebars(group: seq<Item>) returns (count: int)
    ensures count == AmountSum(group)
  {
    count := 0;
    var i := 0;
    while i < |group|
      invariant 0 <= i <= |group|
      invariant count == AmountSum(group[..i])
    {
      assert group[..i + 1][..i] == group[..i];
      count := count + group[i].amount;
      i := i + 1;
    }
    assert group[..i] == group;
  }

  lemma MulAddInt(a: int, b: int, x: real)
    ensures (a + b) as real * x == a as real * x + b as real * x
  {
  }

  /** The `rebar_total_length` loop: a sum of `Amount` times the base length,
      which is the group's count times the base length. */
  method RowTotalLength(group: seq<Item>, baseLength: real) returns (total: real)
    ensures total == AmountSum(group) as real * baseLength
  {
    total := 0.0;
    var i := 0;
    while i < |group|
      invariant 0 <= i <= |group|
      invariant total == AmountSum(group[..i]) as real * baseLength
    {
      assert group[..i + 1][..i] == group[..i];
      MulAddInt(AmountSum(group[..i]), group[i].amount, baseLength);
      total := total + group[i].amount as real * baseLength;
      i := i + 1;
    }
    assert group[..i] == group;
  }

  /** `base_rebar_length`: 0 when the length column is not configured,
      otherwise the authored or the sharp-edged length of the mark's rebar. */
  function BaseLength(cfg: Config, rebar: BaseRebar): (r: real)
    ensures RebarLength !in cfg.headers ==> r == 0.0
    ensures RebarLength in cfg.headers && cfg.lengthType == RealLength ==> r == rebar.length
    ensures RebarLength in cfg.headers && cfg.lengthType == LengthWithSharpEdges
            ==> r == SharpEdgedLength(rebar.base)
  {
    if RebarLength !in cfg.headers then 0.0
    else if cfg.lengthType == RealLength then rebar.length
    else SharpEdgedLength(rebar.base)
  }

  // ---------------------------------------------------------------------
  // One row
  // ---------------------------------------------------------------------

  /** A body row: the mark's data and the cells drawn for it. A column that
      is not configured has no cell; `totalCells` holds the aggregate
      sub-columns. */
  datatype Row = Row(
    mark: int,
    y: real,
    diameter: real,
    count: int,
    total: real,
    markCell: Option<Cell>,
    countCell: Option<Cell>,
    diameterCell: Option<Cell>,
    lengthCell: Option<Cell>,
    totalCells: seq<Cell>)

  /** A cell one column wide and one row tall at the left edge of `column`,
      when that column is configured (its number may be 0). */
  function ColumnCell(cfg: Config, diameters: seq<real>, column: Column, text: string, y: real): Option<Cell>
  {
    if column in cfg.headers
    then Some(DataCell(text, ColumnOffset(cfg.headers, diameters, column, cfg.columnWidth), y, cfg.columnWidth, cfg.rowHeight))
    else None
  }

  /** Sub-column `i` of the aggregate column in a row at `y`: the row's total
      length under its own diameter, a bare rectangle under any other. */
  function TotalCell(cfg: Config, env: Numerals, diameters: seq<real>, i: int, rowDiameter: real, total: real, y: real): Cell
    requires 0 <= i < |diameters| && RebarsTotalLength in cfg.headers
  {
    var x := ColumnOffset(cfg.headers, diameters, RebarsTotalLength, cfg.columnWidth) + cfg.columnWidth * i as real;
    if diameters[i] == rowDiameter
    then DataCell(Display(env, total, UnitOf(cfg, RebarsTotalLength)), x, y, cfg.columnWidth, cfg.rowHeight)
    else Rect(x, y, cfg.columnWidth, cfg.rowHeight)
  }

  /** `row` is the row drawn at `y` for mark `mark` and its group: the
      count is the total `Amount`, the total length the count times the
      base length of the group's first rebar, and every configured column
      has its cell at its `getColumnOffset`. */
  ghost predicate RowLaidOut(row: Row, cfg: Config, env: Numerals, diameters: seq<real>,
                             mark: int, group: seq<Item>, y: real)
    requires GroupHasRebar(group)
  {
    var rebar := FirstRebar(group);
    var length := BaseLength(cfg, rebar);
    && row.mark == mark
    && row.y == y
    && row.diameter == rebar.diameter
    && row.count == AmountSum(group)
    && row.total == AmountSum(group) as real * length
    && row.markCell == ColumnCell(cfg, diameters, Mark, IntToString(mark), y)
    && row.countCell == ColumnCell(cfg, diameters, RebarsCount, IntToString(row.count), y)
    && row.diameterCell == ColumnCell(cfg, diameters, Diameter, Display(env, rebar.diameter, UnitOf(cfg, Diameter)), y)
    && row.lengthCell == ColumnCell(cfg, diameters, RebarLength, Display(env, length, UnitOf(cfg, RebarLength)), y)
    && TotalCellsLaidOut(row.totalCells, cfg, env, diameters, row.diameter, row.total, y)
  }

  /** The aggregate sub-cells of a row at `y`: one per diameter when the
      aggregate column is configured, none otherwise. */
  ghost predicate TotalCellsLaidOut(cells: seq<Cell>, cfg: Config, env: Numerals, diameters: seq<real>,
                                    rowDiameter: real, total: real, y: real)
  {
    && |cells| == (if RebarsTotalLength in cfg.headers then |diameters| else 0)
    && forall i :: 0 <= i < |cells| ==> cells[i] == TotalCell(cfg, env, diameters, i, rowDiameter, total, y)
  }

  /** The aggregate sub-columns of one row. */
  method TotalCells(cfg: Config, env: Numerals, diameters: seq<real>, rowDiameter: real, total: real, y: real)
    returns (cells: seq<Cell>)
    requires RebarsTotalLength in cfg.headers
    ensures |cells| == |diameters|
    ensures forall i :: 0 <= i < |cells| ==> cells[i] == TotalCell(cfg, env, diameters, i, rowDiameter, total, y)
  {
    var offset := ColumnOffset(cfg.headers, diameters, RebarsTotalLength, cfg.columnWidth);
    var text := Display(env, total, UnitOf(cfg, RebarsTotalLength));
    cells := [];
    var i := 0;
    while i < |diameters|
      invariant 0 <= i <= |diameters| && |cells| == i
      invariant forall j :: 0 <= j < i ==> cells[j] == TotalCell(cfg, env, diameters, j, rowDiameter, total, y)
    {
      var x := offset + cfg.columnWidth * i as real;
      if diameters[i] == rowDiameter {
        cells := cells + [DataCell(text, x, y, cfg.columnWidth, cfg.rowHeight)];
      } else {
        cells := cells + [Rect(x, y, cfg.columnWidth, cfg.rowHeight)];
      }
      i := i + 1;
    }
  }

  /** The computation of `base_rebar_length`. */
  method RowBaseLength(cfg: Config, rebar: BaseRebar) returns (length: real)
    ensures length == BaseLength(cfg, rebar)
  {
    length := 0.0;
    if RebarLength in cfg.headers {
      if cfg.lengthType == RealLength {
        length := rebar.length;
      } else {
        length := RebarSharpEdgedLength(rebar);
      }
    }
  }

  /** The body of the mark loop of `makeBillOfMaterialSVG` for one mark. */
  method BuildRow(cfg: Config, env: Numerals, diameters: seq<real>, mark: int, group: seq<Item>, y: real)
    returns (row: Row)
    requires GroupHasRebar(group)
    ensures RowLaidOut(row, cfg, env, diameters, mark, group, y)
  {
    var rebar := group[0].baseRebar.value;
    var markCell := ColumnCell(cfg, diameters, Mark, IntToString(mark), y);
    var count := CountRebars(group);
    var countCell := ColumnCell(cfg, diameters, RebarsCount, IntToString(count), y);
    var diameterCell := ColumnCell(cfg, diameters, Diameter, Display(env, rebar.diameter, UnitOf(cfg, Diameter)), y);
    var length := RowBaseLength(cfg, rebar);
    var lengthCell := ColumnCell(cfg, diameters, RebarLength, Display(env, length, UnitOf(cfg, RebarLength)), y);
    var total := RowTotalLength(group, length);
    var totalCells := [];
    if RebarsTotalLength in cfg.headers {
      totalCells := TotalCells(cfg, env, diameters, rebar.diameter, total, y);
    }
    assert TotalCellsLaidOut(totalCells, cfg, env, diameters, rebar.diameter, total, y);
    row := Row(mark, y, rebar.diameter, count, total, markCell, countCell, diameterCell, lengthCell, totalCells);
  }

  /** Without the length column a row's total length is 0 whatever its
      bars, and so its aggregate sub-cell displays 0. */
  lemma NoLengthColumnNoTotal(row: Row, cfg: Config, env: Numerals, diameters: seq<real>,
                              mark: int, group: seq<Item>, y: real)
    requires GroupHasRebar(group) && RowLaidOut(row, cfg, env, diameters, mark, group, y)
    requires RebarLength !in cfg.headers
    ensures row.total == 0.0
    ensures row.lengthCell.None?
  {
    assert BaseLength(cfg, FirstRebar(group)) == 0.0;
  }

  /** In the aggregate sub-columns a row has a data cell exactly under its
      own diameter and bare rectangles under all the others; with distinct
      diameters that is one data cell. */
  lemma OneTotalCellPerRow(row: Row, cfg: Config, env: Numerals, diameters: seq<real>,
                           mark: int, group: seq<Item>, y: real, k: int)
    requires GroupHasRebar(group) && RowLaidOut(row, cfg, env, diameters, mark, group, y)
    requires RebarsTotalLength in cfg.headers && Distinct(diameters)
    requires 0 <= k < |diameters| && diameters[k] == row.diameter
    ensures row.totalCells[k].DataCell?
    ensures row.totalCells[k].x == ColumnOffset(cfg.headers, diameters, RebarsTotalLength, cfg.columnWidth)
                                   + cfg.columnWidth * k as real
    ensures forall i :: 0 <= i < |diameters| && i != k ==> row.totalCells[i].Rect?
  {
    assert |row.totalCells| == |diameters|;
    TotalCellsSplit(row.totalCells, cfg, env, diameters, row.diameter, row.total, y, k);
  }

  lemma TotalCellsSplit(cells: seq<Cell>, cfg: Config, env: Numerals, diameters: seq<real>,
                        rowDiameter: real, total: real, y: real, k: int)
    requires RebarsTotalLength in cfg.headers && Distinct(diameters)
    requires |cells| == |diameters|
    requires forall i :: 0 <= i < |cells| ==> cells[i] == TotalCell(cfg, env, diameters, i, rowDiameter, total, y)
    requires 0 <= k < |diameters| && diameters[k] == rowDiameter
    ensures cells[k].DataCell?
    ensures cells[k].x == ColumnOffset(cfg.headers, diameters, RebarsTotalLength, cfg.columnWidth)
                          + cfg.columnWidth * k as real
    ensures forall i :: 0 <= i < |diameters| && i != k ==> cells[i].Rect?
  {
    assert cells[k] == TotalCell(cfg, env, diameters, k, rowDiameter, total, y);
    forall i | 0 <= i < |diameters| && i != k ensures cells[i].Rect? {
      assert cells[i] == TotalCell(cfg, env, diameters, i, rowDiameter, total, y);
      assert diameters[i] != diameters[k];
    }
  }

  // ---------------------------------------------------------------------
  // The per-diameter totals
  // ---------------------------------------------------------------------

  /** The sum of the totals of the rows with diameter `d`. */
  function DiameterTotal(rows: seq<Row>, d: real): real
  {
    if rows == [] then 0.0
    else DiameterTotal(rows[..|rows| - 1], d) + (if rows[|rows| - 1].diameter == d then rows[|rows| - 1].total else 0.0)
  }

  /** The sum of all row totals. */
  function RowsTotal(rows: seq<Row>): real
  {
    if rows == [] then 0.0 else RowsTotal(rows[..|rows| - 1]) + rows[|rows| - 1].total
  }

  /** The per-diameter totals listed in the order of `diameters`. */
  function DiameterTotals(diameters: seq<real>, rows: seq<Row>): (r: seq<real>)
    ensures |r| == |diameters|
    ensures forall i :: 0 <= i < |r| ==> r[i] == DiameterTotal(rows, diameters[i])
  {
    if diameters == [] then []
    else DiameterTotals(diameters[..|diameters| - 1], rows) + [DiameterTotal(rows, diameters[|diameters| - 1])]
  }

  /** Adding a row adds its total to the entry of its own diameter and
      leaves the other entries as they were. */
  lemma DiameterTotalAppend(rows: seq<Row>, row: Row, d: real)
    ensures DiameterTotal(rows + [row], d)
            == DiameterTotal(rows, d) + (if row.diameter == d then row.total else 0.0)
  {
    assert (rows + [row])[..|rows|] == rows;
  }

  lemma {:induction false} DiameterTotalsAppend(diameters: seq<real>, rows: seq<Row>, row: Row)
    requires Distinct(diameters)
    ensures Sum(DiameterTotals(diameters, rows + [row]))
            == Sum(DiameterTotals(diameters, rows)) + (if row.diameter in diameters then row.total else 0.0)
    decreases |diameters|
  {
    if diameters != [] {
      var init := diameters[..|diameters| - 1];
      var last := diameters[|diameters| - 1];
      assert Distinct(init);
      DiameterTotalsAppend(init, rows, row);
      DiameterTotalAppend(rows, row, last);
      assert diameters == init + [last];
      var before := DiameterTotals(diameters, rows);
      var after := DiameterTotals(diameters, rows + [row]);
      assert before[..|before| - 1] == DiameterTotals(init, rows);
      assert after[..|after| - 1] == DiameterTotals(init, rows + [row]);
      if row.diameter == last {
        assert row.diameter !in init;
      }
    }
  }

  /** With distinct diameters covering every row's diameter, the totals
      over all diameters add up to the total over all rows. */
  lemma {:induction false} DiameterTotalsSumRows(diameters: seq<real>, rows: seq<Row>)
    requires Distinct(diameters)
    requires forall i :: 0 <= i < |rows| ==> rows[i].diameter in diameters
    ensures Sum(DiameterTotals(diameters, rows)) == RowsTotal(rows)
    decreases |rows|
  {
    if rows == [] {
      ZeroTotals(diameters);
    } else {
      var init := rows[..|rows| - 1];
      var last := rows[|rows| - 1];
      assert rows == init + [last];
      DiameterTotalsSumRows(diameters, init);
      DiameterTotalsAppend(diameters, init, last);
    }
  }

  lemma {:induction false} ZeroTotals(diameters: seq<real>)
    ensures Sum(DiameterTotals(diameters, [])) == 0.0
    decreases |diameters|
  {
    if diameters != [] {
      var r := DiameterTotals(diameters, []);
      assert r[..|r| - 1] == DiameterTotals(diameters[..|diameters| - 1], []);
      ZeroTotals(diameters[..|diameters| - 1]);
    }
  }

  // ---------------------------------------------------------------------
  // The mark loop
  // ---------------------------------------------------------------------

  function MarkKey(m: int): real { m as real }

  /** `sorted(mark_reinforcements_dict)`: the marks in ascending order. */
  method SortedMarks(groups: map<int, seq<Item>>) returns (marks: seq<int>)
    ensures forall m :: m in marks <==> m in groups
    ensures forall i, j :: 0 <= i < j < |marks| ==> marks[i] < marks[j]
  {
    var list: seq<int> := [];
    var rest := groups.Keys;
    while rest != {}
      invariant rest <= groups.Keys
      invariant forall m :: m in list <==> m in groups && m !in rest
      invariant Distinct(list)
      decreases rest
    {
      var m := Choose(rest);
      list := list + [m];
      rest := rest - {m};
    }
    marks := SortBy(list, MarkKey);
    forall m ensures m in marks <==> m in list {
      PermutationMembers(list, marks, m);
    }
    forall i, j | 0 <= i < j < |marks| ensures marks[i] < marks[j] {
      assert MarkKey(marks[i]) <= MarkKey(marks[j]);
    }
  }

  /** The accumulator's entries listed in the order of `diameters`. */
  function InOrder(diameters: seq<real>, totals: map<real, real>): (r: seq<real>)
    requires forall i :: 0 <= i < |diameters| ==> diameters[i] in totals
    ensures |r| == |diameters|
    ensures forall i :: 0 <= i < |r| ==> r[i] == totals[diameters[i]]
  {
    if diameters == [] then []
    else InOrder(diameters[..|diameters| - 1], totals) + [totals[diameters[|diameters| - 1]]]
  }

  ghost predicate RowsLaidOut(rows: seq<Row>, cfg: Config, env: Numerals, diameters: seq<real>,
                              marks: seq<int>, groups: map<int, seq<Item>>)
    requires WellFormedGroups(groups)
    requires |rows| <= |marks| && forall m :: m in marks ==> m in groups
  {
    forall i :: 0 <= i < |rows| ==>
      RowLaidOut(rows[i], cfg, env, diameters, marks[i], groups[marks[i]], RowY(cfg, i))
  }

  /** `totals` holds, for each diameter of the list, the total length of
      the rows made so far with that diameter. */
  ghost predicate Accumulated(totals: map<real, real>, diameters: seq<real>, rows: seq<Row>)
  {
    && (forall d :: d in totals <==> d in diameters)
    && (forall i :: 0 <= i < |diameters| ==> diameters[i] in totals)
    && (forall d :: d in totals ==> totals[d] == DiameterTotal(rows, d))
  }

  lemma AccumulateStep(totals: map<real, real>, diameters: seq<real>, rows: seq<Row>, row: Row)
    requires Accumulated(totals, diameters, rows) && row.diameter in diameters
    ensures Accumulated(totals[row.diameter := totals[row.diameter] + row.total], diameters, rows + [row])
  {
    forall d ensures DiameterTotal(rows + [row], d) == DiameterTotal(rows, d) + (if row.diameter == d then row.total else 0.0) {
      DiameterTotalAppend(rows, row, d);
    }
  }

  lemma RowsStep(rows: seq<Row>, row: Row, cfg: Config, env: Numerals, diameters: seq<real>,
                 marks: seq<int>, groups: map<int, seq<Item>>)
    requires WellFormedGroups(groups)
    requires |rows| < |marks| && forall m :: m in marks ==> m in groups
    requires RowsLaidOut(rows, cfg, env, diameters, marks, groups)
    requires RowLaidOut(row, cfg, env, diameters, marks[|rows|], groups[marks[|rows|]], RowY(cfg, |rows|))
    ensures RowsLaidOut(rows + [row], cfg, env, diameters, marks, groups)
  {
    forall i | 0 <= i < |rows| + 1
      ensures RowLaidOut((rows + [row])[i], cfg, env, diameters, marks[i], groups[marks[i]], RowY(cfg, i))
    {
      if i < |rows| {
        assert (rows + [row])[i] == rows[i];
      } else {
        assert (rows + [row])[i] == row && i == |rows|;
      }
    }
  }

  /** The mark loop of `makeBillOfMaterialSVG`: row `i` at `RowY(cfg, i)`,
      and `dia_total_length_dict` updated in place, its
      entry for the row's diameter growing by the row's total length. */
  method BodyRows(cfg: Config, env: Numerals, groups: map<int, seq<Item>>, diameters: seq<real>, marks: seq<int>)
    returns (rows: seq<Row>, totals: map<real, real>, y: real)
    requires WellFormedGroups(groups)
    requires forall m :: m in marks ==> m in groups
    requires forall m :: m in groups ==> FirstRebar(groups[m]).diameter in diameters
    ensures |rows| == |marks|
    ensures RowsLaidOut(rows, cfg, env, diameters, marks, groups)
    ensures Accumulated(totals, diameters, rows)
    ensures y == RowY(cfg, |marks|)
  {
    totals := map d | d in diameters :: 0.0;
    rows := [];
    y := FirstRowY(cfg);
    var i := 0;
    while i < |marks|
      invariant 0 <= i <= |marks| && |rows| == i
      invariant RowsLaidOut(rows, cfg, env, diameters, marks, groups)
      invariant Accumulated(totals, diameters, rows)
      invariant y == RowY(cfg, i)
    {
      var mark := marks[i];
      var row := BuildRow(cfg, env, diameters, mark, groups[mark], y);
      AccumulateStep(totals, diameters, rows, row);
      totals := totals[row.diameter := totals[row.diameter] + row.total];
      RowsStep(rows, row, cfg, env, diameters, marks, groups);
      rows := rows + [row];
      y := y + cfg.rowHeight;
      i := i + 1;
    }
  }

  /** After the loop, the accumulator's entries add up to the sum of the
      row totals. */
  lemma AccumulatorSumsRows(cfg: Config, env: Numerals, groups: map<int, seq<Item>>, diameters: seq<real>,
                            marks: seq<int>, rows: seq<Row>, totals: map<real, real>)
    requires WellFormedGroups(groups) && Distinct(diameters)
    requires |rows| == |marks| && forall m :: m in marks ==> m in groups
    requires forall m :: m in groups ==> FirstRebar(groups[m]).diameter in diameters
    requires RowsLaidOut(rows, cfg, env, diameters, marks, groups)
    requires Accumulated(totals, diameters, rows)
    ensures Sum(InOrder(diameters, totals)) == RowsTotal(rows)
  {
    forall i | 0 <= i < |rows| ensures rows[i].diameter in diameters {
      assert rows[i].diameter == FirstRebar(groups[marks[i]]).diameter;
    }
    DiameterTotalsSumRows(diameters, rows);
    AccumulatedInOrder(totals, diameters, rows);
  }

  lemma AccumulatedInOrder(totals: map<real, real>, diameters: seq<real>, rows: seq<Row>)
    requires Accumulated(totals, diameters, rows)
    ensures InOrder(diameters, totals) == DiameterTotals(diameters, rows)
  {
  }
}

/** The totals footer of `makeBillOfMaterialSVG`
    (BillOfMaterial/BillOfMaterial_SVG.py): three rows under the aggregate
    column giving, per diameter, the total length, the weight per length and
    the total weight, with their captions. */
module BomFooter {
  import opened Wrappers
  import opened NumberText
  import opened BOMfunc
  import opened ColumnLayout
  import opened BomRows

  /** Why no table comes out: the footer reads the unit of the aggregate
      column unguarded (a `KeyError`), and the scale divides by the table's
      size (a `ZeroDivisionError`). */
  datatype BomError = MissingTotalLengthUnit | ZeroSizedTable

  /** The footer: absent without an aggregate column; otherwise the three
      captions, the cells drawn for each diameter (in diameter order) and
      the placeholder rectangles right of the aggregate column. */
  datatype Footer =
    | NoFooter
    | Footer(captions: seq<Cell>, columns: seq<seq<Cell>>, trailing: seq<Cell>)

  /** The "Total length", "Weight" and "Total Weight" captions, one row
      each from `y` down. */
  function Captions(unit: string, x: real, y: real, width: real, rowHeight: real): seq<Cell>
  {
    [ DataCell("Total length in " + unit + "/Diameter", x, y, width, rowHeight),
      DataCell("Weight in Kg/" + unit, x, y + rowHeight, width, rowHeight),
      DataCell("Total Weight in Kg/Diameter", x, y + 2.0 * rowHeight, width, rowHeight) ]
  }

  /** The weight text: the weight converted to "kg/" + unit, rounded,
      trimmed, followed by the bare unit. */
  function WeightText(env: Numerals, weight: real, unit: string): string
  {
    TrimNumber(env.roundStr(env.valueAs(weight, "kg/" + unit), env.precision)) + " " + unit
  }

  /** The total-weight text: the rounded weight `Quantity` itself, unit
      and all, with no clean-up. */
  function TotalWeightText(env: Numerals, weight: real, total: real): string
  {
    env.quantityStr(weight * total, WeightQuantity, env.precision)
  }

  /** The cells of one diameter at `x`, stacked one row each from `y`
      down: its total length; then, when its weight is known, the weight
      and the total weight below it; when it is not, two bare rectangles,
      except in the leftmost layout, which draws nothing there. */
  function FooterColumn(cfg: Config, env: Numerals, d: real, total: real, x: real, y: real,
                        unit: string, leftmost: bool): (cells: seq<Cell>)
    ensures |cells| == (if d !in cfg.weights && leftmost then 1 else 3)
    ensures cells[0] == DataCell(InUnit(env, total, unit), x, y, cfg.columnWidth, cfg.rowHeight)
    ensures |cells| == 3 ==> (cells[1].DataCell? && cells[2].DataCell? <==> d in cfg.weights)
    ensures |cells| == 3 ==> cells[1].y == y + cfg.rowHeight && cells[2].y == y + 2.0 * cfg.rowHeight
    ensures forall c :: c in cells ==> c.x == x && c.w == cfg.columnWidth && c.h == cfg.rowHeight
  {
    var w, h := cfg.columnWidth, cfg.rowHeight;
    var length := DataCell(InUnit(env, total, unit), x, y, w, h);
    if d in cfg.weights then
      [ length,
        DataCell(WeightText(env, cfg.weights[d], unit), x, y + h, w, h),
        DataCell(TotalWeightText(env, cfg.weights[d], total), x, y + 2.0 * h, w, h) ]
    else if leftmost then [length]
    else [length, Rect(x, y + h, w, h), Rect(x, y + 2.0 * h, w, h)]
  }

  function Max0(n: int): nat { if n < 0 then 0 else n }

  /** The x of the footer cells of diameter `i`: after the aggregate
      column's offset, or from the table's left edge in the leftmost
      layout. */
  function FooterX(cfg: Config, diameters: seq<real>, i: int): real
    requires RebarsTotalLength in cfg.headers
  {
    if cfg.headers[RebarsTotalLength].order == 1 then cfg.columnWidth * i as real
    else ColumnOffset(cfg.headers, diameters, RebarsTotalLength, cfg.columnWidth) + cfg.columnWidth * i as real
  }

  /** Placeholder `k` right of the aggregate column: column `k / 3` of them,
      row `k % 3` of the footer. It is a bare rectangle one column wide,
      in one of the three footer rows. */
  function TrailingCell(cfg: Config, order: int, diameterCount: nat, y: real, k: nat): (c: Cell)
    ensures c.Rect? && c.w == cfg.columnWidth && c.h == cfg.rowHeight
    ensures k % 3 == 0 ==> c.y == y
    ensures k % 3 == 1 ==> c.y == y + cfg.rowHeight
    ensures k % 3 == 2 ==> c.y == y + 2.0 * cfg.rowHeight
  {
    Rect((order + diameterCount - 1 + k / 3) as real * cfg.columnWidth,
         y + (k % 3) as real * cfg.rowHeight, cfg.columnWidth, cfg.rowHeight)
  }

  /** The captions: right of the values, as wide as all the other
      configured columns, when the aggregate column is numbered 1; otherwise
      from x = 0 up to the aggregate column's offset. */
  function FooterCaptions(cfg: Config, diameters: seq<real>, unit: string, y: real): (captions: seq<Cell>)
    requires RebarsTotalLength in cfg.headers
    ensures |captions| == 3
    ensures forall i :: 0 <= i < 3 ==>
              captions[i].DataCell? && captions[i].x == captions[0].x
              && captions[i].w == captions[0].w && captions[i].h == cfg.rowHeight
    ensures captions[0].y == y && captions[1].y == y + cfg.rowHeight && captions[2].y == y + 2.0 * cfg.rowHeight
    ensures captions[0].text == "Total length in " + unit + "/Diameter"
    ensures cfg.headers[RebarsTotalLength].order == 1
            ==> captions[0].x == cfg.columnWidth * |diameters| as real
                && captions[0].w == cfg.columnWidth * (|cfg.headers| - 1) as real
    ensures cfg.headers[RebarsTotalLength].order != 1
            ==> captions[0].x == 0.0
                && captions[0].x + captions[0].w
                   == ColumnOffset(cfg.headers, diameters, RebarsTotalLength, cfg.columnWidth)
  {
    var w := cfg.columnWidth;
    if cfg.headers[RebarsTotalLength].order == 1
    then Captions(unit, w * |diameters| as real, y, w * (|cfg.headers| - 1) as real, cfg.rowHeight)
    else Captions(unit, 0.0, y, ColumnOffset(cfg.headers, diameters, RebarsTotalLength, w), cfg.rowHeight)
  }

  /** The layout rule of the footer at `y`, given the unit of the aggregate
      column. Aggregate numbered 1: values from x = 0, captions to their
      right, as wide as all the other configured columns. Otherwise:
      captions from x = 0 up to the aggregate column's offset, values under
      its sub-columns, and three placeholder rows for every configured
      column past the aggregate column's number. */
  ghost predicate IsFooter(f: Footer, cfg: Config, env: Numerals, diameters: seq<real>,
                           totals: map<real, real>, y: real)
    requires RebarsTotalLength in cfg.headers && RebarsTotalLength in cfg.units
    requires forall i :: 0 <= i < |diameters| ==> diameters[i] in totals
  {
    var unit := cfg.units[RebarsTotalLength];
    var order := cfg.headers[RebarsTotalLength].order;
    var n := |diameters|;
    var leftmost := order == 1;
    && f.Footer?
    && f.captions == FooterCaptions(cfg, diameters, unit, y)
    && |f.columns| == n
    && (forall i :: 0 <= i < n ==>
          f.columns[i] == FooterColumn(cfg, env, diameters[i], totals[diameters[i]],
                                       FooterX(cfg, diameters, i), y, unit, leftmost))
    && |f.trailing| == (if leftmost then 0 else 3 * Max0(|cfg.headers| - order))
    && (forall k :: 0 <= k < |f.trailing| ==> f.trailing[k] == TrailingCell(cfg, order, n, y, k))
  }

  /** The per-diameter loop of the footer. */
  method FooterColumns(cfg: Config, env: Numerals, diameters: seq<real>, totals: map<real, real>,
                       y: real, unit: string)
    returns (columns: seq<seq<Cell>>)
    requires RebarsTotalLength in cfg.headers
    requires forall i :: 0 <= i < |diameters| ==> diameters[i] in totals
    ensures |columns| == |diameters|
    ensures forall i :: 0 <= i < |diameters| ==>
              columns[i] == FooterColumn(cfg, env, diameters[i], totals[diameters[i]], FooterX(cfg, diameters, i),
                                         y, unit, cfg.headers[RebarsTotalLength].order == 1)
  {
    var leftmost := cfg.headers[RebarsTotalLength].order == 1;
    columns := [];
    var i := 0;
    while i < |diameters|
      invariant 0 <= i <= |diameters| && |columns| == i
      invariant forall j :: 0 <= j < i ==>
                  columns[j] == FooterColumn(cfg, env, diameters[j], totals[diameters[j]], FooterX(cfg, diameters, j),
                                             y, unit, leftmost)
    {
      var d := diameters[i];
      var x := FooterX(cfg, diameters, i);
      var column := FooterColumn(cfg, env, d, totals[d], x, y, unit, leftmost);
      AppendColumn(columns, column, cfg, env, diameters, totals, y, unit, leftmost);
      columns := columns + [column];
      i := i + 1;
    }
  }

  lemma AppendColumn(columns: seq<seq<Cell>>, column: seq<Cell>, cfg: Config, env: Numerals, diameters: seq<real>,
                     totals: map<real, real>, y: real, unit: string, leftmost: bool)
    requires RebarsTotalLength in cfg.headers && |columns| < |diameters|
    requires forall i :: 0 <= i < |diameters| ==> diameters[i] in totals
    requires forall j :: 0 <= j < |columns| ==>
               columns[j] == FooterColumn(cfg, env, diameters[j], totals[diameters[j]], FooterX(cfg, diameters, j),
                                          y, unit, leftmost)
    requires column == FooterColumn(cfg, env, diameters[|columns|], totals[diameters[|columns|]],
                                    FooterX(cfg, diameters, |columns|), y, unit, leftmost)
    ensures forall j :: 0 <= j < |columns| + 1 ==>
              (columns + [column])[j] == FooterColumn(cfg, env, diameters[j], totals[diameters[j]],
                                                      FooterX(cfg, diameters, j), y, unit, leftmost)
  {
    forall j | 0 <= j < |columns| + 1
      ensures (columns + [column])[j] == FooterColumn(cfg, env, diameters[j], totals[diameters[j]],
                                                      FooterX(cfg, diameters, j), y, unit, leftmost)
    {
      if j < |columns| {
        assert (columns + [column])[j] == columns[j];
      }
    }
  }

  /** The `remColumn` loop: three rectangles per configured column past the
      aggregate column's number. */
  method TrailingCells(cfg: Config, order: int, diameterCount: nat, y: real) returns (cells: seq<Cell>)
    ensures |cells| == 3 * Max0(|cfg.headers| - order)
    ensures forall k :: 0 <= k < |cells| ==> cells[k] == TrailingCell(cfg, order, diameterCount, y, k)
  {
    cells := [];
    var count := Max0(|cfg.headers| - order);
    var column := 0;
    while column < count
      invariant 0 <= column <= count && |cells| == 3 * column
      invariant forall k :: 0 <= k < |cells| ==> cells[k] == TrailingCell(cfg, order, diameterCount, y, k)
    {
      var x := (order + diameterCount - 1 + column) as real * cfg.columnWidth;
      var row := 0;
      while row < 3
        invariant 0 <= row <= 3 && |cells| == 3 * column + row
        invariant forall k :: 0 <= k < |cells| ==> cells[k] == TrailingCell(cfg, order, diameterCount, y, k)
      {
        var cell := Rect(x, y + row as real * cfg.rowHeight, cfg.columnWidth, cfg.rowHeight);
        TrailingCellAt(cfg, order, diameterCount, y, column, row);
        AppendTrailing(cells, cell, cfg, order, diameterCount, y);
        cells := cells + [cell];
        row := row + 1;
      }
      column := column + 1;
    }
  }

  lemma TrailingCellAt(cfg: Config, order: int, diameterCount: nat, y: real, column: nat, row: nat)
    requires row < 3
    ensures TrailingCell(cfg, order, diameterCount, y, 3 * column + row)
            == Rect((order + diameterCount - 1 + column) as real * cfg.columnWidth,
                    y + row as real * cfg.rowHeight, cfg.columnWidth, cfg.rowHeight)
  {
    var k := 3 * column + row;
    DivModThree(column, row);
    var slot := order + diameterCount - 1 + k / 3;
    assert slot == order + diameterCount - 1 + column;
    assert (k % 3) as real == row as real;
  }

  lemma DivModThree(column: nat, row: nat)
    requires row < 3
    ensures (3 * column + row) / 3 == column && (3 * column + row) % 3 == row
  {
  }

  lemma AppendTrailing(cells: seq<Cell>, cell: Cell, cfg: Config, order: int, diameterCount: nat, y: real)
    requires forall k :: 0 <= k < |cells| ==> cells[k] == TrailingCell(cfg, order, diameterCount, y, k)
    requires cell == TrailingCell(cfg, order, diameterCount, y, |cells|)
    ensures forall k :: 0 <= k < |cells| + 1 ==> (cells + [cell])[k] == TrailingCell(cfg, order, diameterCount, y, k)
  {
    forall k | 0 <= k < |cells| + 1
      ensures (cells + [cell])[k] == TrailingCell(cfg, order, diameterCount, y, k)
    {
      if k < |cells| {
        assert (cells + [cell])[k] == cells[k];
      }
    }
  }

  /** The footer block of `makeBillOfMaterialSVG` at `y`. */
  method FooterCells(cfg: Config, env: Numerals, diameters: seq<real>, totals: map<real, real>, y: real)
    returns (r: Result<Footer, BomError>)
    requires forall i :: 0 <= i < |diameters| ==> diameters[i] in totals
    ensures RebarsTotalLength !in cfg.headers ==> r == Ok(NoFooter)
    ensures (RebarsTotalLength in cfg.headers && RebarsTotalLength !in cfg.units) ==> r == Err(MissingTotalLengthUnit)
    ensures (RebarsTotalLength in cfg.headers && RebarsTotalLength in cfg.units)
            ==> r.Ok? && IsFooter(r.value, cfg, env, diameters, totals, y)
  {
    if RebarsTotalLength !in cfg.headers {
      return Ok(NoFooter);
    }
    if RebarsTotalLength !in cfg.units {
      return Err(MissingTotalLengthUnit);
    }
    var unit := cfg.units[RebarsTotalLength];
    var order := cfg.headers[RebarsTotalLength].order;
    var columns := FooterColumns(cfg, env, diameters, totals, y, unit);
    var captions := FooterCaptions(cfg, diameters, unit, y);
    var trailing := [];
    if order != 1 {
      trailing := TrailingCells(cfg, order, |diameters|, y);
    }
    r := Ok(Footer(captions, columns, trailing));
  }

  // ---------------------------------------------------------------------
  // What the footer layout guarantees
  // ---------------------------------------------------------------------

  /** In both layouts the total length of diameter `i` sits under
      sub-column `i` of the aggregate column, where every body row draws its
      total cell. */
  lemma FooterValuesUnderTotals(cfg: Config, diameters: seq<real>, i: int)
    requires RebarsTotalLength in cfg.headers && 0 <= i < |diameters|
    ensures FooterX(cfg, diameters, i)
            == ColumnOffset(cfg.headers, diameters, RebarsTotalLength, cfg.columnWidth) + cfg.columnWidth * i as real
  {
    if cfg.headers[RebarsTotalLength].order == 1 {
      assert Slot(cfg.headers, diameters, RebarsTotalLength) == 1;
      ScaleCongruent(cfg.columnWidth, Slot(cfg.headers, diameters, RebarsTotalLength) - 1, 0);
    }
  }

  /** The last value column of the leftmost layout ends where its captions
      begin. */
  lemma LeftmostCaptionsFollowValues(cfg: Config, diameters: seq<real>)
    requires RebarsTotalLength in cfg.headers && cfg.headers[RebarsTotalLength].order == 1
    requires |diameters| >= 1
    ensures FooterX(cfg, diameters, |diameters| - 1) + cfg.columnWidth == cfg.columnWidth * |diameters| as real
  {
    ScaleAdd(cfg.columnWidth, |diameters| - 1, 1);
  }

  /** The placeholder columns start right after the last sub-column of the
      aggregate column and follow one another column by column: placeholder
      column `c` sits `c` columns past the aggregate's right edge. */
  lemma TrailingAfterAggregate(cfg: Config, diameters: seq<real>, y: real, k: nat)
    requires RebarsTotalLength in cfg.headers
    ensures TrailingCell(cfg, cfg.headers[RebarsTotalLength].order, |diameters|, y, k).x
            == ColumnOffset(cfg.headers, diameters, RebarsTotalLength, cfg.columnWidth)
               + cfg.columnWidth * (|diameters| + k / 3) as real
  {
    var order := cfg.headers[RebarsTotalLength].order;
    assert Slot(cfg.headers, diameters, RebarsTotalLength) == order;
    ScaleAdd(cfg.columnWidth, order - 1, |diameters| + k / 3);
    assert (order + |diameters| - 1 + k / 3) as real * cfg.columnWidth
           == cfg.columnWidth * ((order - 1) + (|diameters| + k / 3)) as real;
  }
}

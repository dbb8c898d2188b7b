/** Column geometry of the bill-of-materials table
    (BillOfMaterial/BillOfMaterial_SVG.py): the cells, the column
    configuration, `getColumnOffset`, and the header band of
    `getColumnHeadersSVG`. */
module ColumnLayout {
  import opened Wrappers
  import opened SeqUtil
  import opened NumberText

  /** A drawn cell in table coordinates (origin top left): a bordered
      rectangle with centred text (`getSVGDataCell`) or a bare bordered
      rectangle (`getSVGRectangle`). */
  datatype Cell =
    | DataCell(text: string, x: real, y: real, w: real, h: real)
    | Rect(x: real, y: real, w: real, h: real)

  /** The keys of the column configuration. `RebarsTotalLength` is the
      aggregate column, which spreads over one sub-column per diameter. */
  datatype Column = Mark | RebarsCount | Diameter | RebarLength | RebarsTotalLength

  /** A column's label and its sequence number; 0 hides the column. */
  datatype Header = Header(title: string, order: int)

  type Headers = map<Column, Header>

  const AllColumns: seq<Column> := [Mark, RebarsCount, Diameter, RebarLength, RebarsTotalLength]

  /** The 1-based slot of `column` after the shift of `getColumnOffset`:
      columns numbered after the aggregate column move right by the diameter
      count less one. */
  function Slot(headers: Headers, diameters: seq<real>, column: Column): int
    requires column in headers
  {
    var order := headers[column].order;
    if RebarsTotalLength in headers && headers[RebarsTotalLength].order < order && |diameters| != 0
    then order + |diameters| - 1 else order
  }

  /** The x position `slots` column widths from the table's left edge. */
  function Scaled(width: real, slots: int): real
  {
    width * slots as real
  }

  /** `getColumnOffset`: the left edge of `column`. A visible column of a
      table with a non-negative column width starts inside the table. */
  function ColumnOffset(headers: Headers, diameters: seq<real>, column: Column, width: real): (r: real)
    requires column in headers
    ensures width >= 0.0 && headers[column].order >= 1 ==> r >= 0.0
  {
    ScaleNonNegative(width, Slot(headers, diameters, column) - 1);
    Scaled(width, Slot(headers, diameters, column) - 1)
  }

  /** The three cases of `getColumnOffset`, written as the source writes
      them: `width` times the number less one, shifted right by the diameter
      count less one when the aggregate column is numbered before the
      column and there are diameters. */
  lemma ColumnOffsetCases(headers: Headers, diameters: seq<real>, column: Column, width: real)
    requires column in headers
    ensures var order := headers[column].order;
            ColumnOffset(headers, diameters, column, width)
            == if RebarsTotalLength in headers && headers[RebarsTotalLength].order < order && |diameters| >= 1
               then width * (order - 1 + |diameters| - 1) as real
               else width * (order - 1) as real
  {
  }

  /** The number of slots a column takes up: the aggregate one per diameter. */
  function SpanSlots(column: Column, diameterCount: nat): nat
  {
    if column == RebarsTotalLength then diameterCount else 1
  }

  /** The width a column takes up. */
  function Span(column: Column, diameterCount: nat, width: real): real
  {
    Scaled(width, SpanSlots(column, diameterCount))
  }

  /** With columns numbered o1 < o2, the slot of the second column is past
      every slot the first one covers, for any diameter list (with none,
      the aggregate column covers no slot). */
  lemma SlotsDoNotOverlap(headers: Headers, diameters: seq<real>, c1: Column, c2: Column)
    requires c1 in headers && c2 in headers
    requires headers[c1].order < headers[c2].order
    ensures Slot(headers, diameters, c1) + SpanSlots(c1, |diameters|) <= Slot(headers, diameters, c2)
  {
  }

  /** The same in table coordinates: the second column starts no earlier
      than where the first one ends (for a non-negative column width). */
  lemma ColumnOffsetsDoNotOverlap(headers: Headers, diameters: seq<real>, c1: Column, c2: Column, width: real)
    requires c1 in headers && c2 in headers
    requires headers[c1].order < headers[c2].order
    requires width >= 0.0
    ensures ColumnOffset(headers, diameters, c2, width)
            >= ColumnOffset(headers, diameters, c1, width) + Span(c1, |diameters|, width)
  {
    SlotsDoNotOverlap(headers, diameters, c1, c2);
    SlotGap(width, Slot(headers, diameters, c1) - 1, SpanSlots(c1, |diameters|), Slot(headers, diameters, c2) - 1);
  }

  lemma SlotGap(w: real, a: int, span: int, b: int)
    requires w >= 0.0 && a + span <= b
    ensures Scaled(w, a) + Scaled(w, span) <= Scaled(w, b)
  {
    ScaleAdd(w, a, span);
    ScaleMono(w, a + span, b);
  }

  lemma ScaleMono(w: real, a: int, b: int)
    requires w >= 0.0 && a <= b
    ensures w * a as real <= w * b as real
  {
    assert w * b as real - w * a as real == w * (b - a) as real;
  }

  lemma ScaleNonNegative(w: real, a: int)
    ensures w >= 0.0 && a >= 0 ==> w * a as real >= 0.0
  {
    if w >= 0.0 && a >= 0 {
      ScaleMono(w, 0, a);
    }
  }

  /** Equal slot counts give equal widths (a step the solver does not take
      by itself once products are involved). */
  lemma ScaleCongruent(w: real, a: int, b: int)
    requires a == b
    ensures w * a as real == w * b as real
  {
  }

  lemma ScaleAdd(w: real, a: int, b: int)
    ensures w * (a + b) as real == w * a as real + w * b as real
  {
  }

  /** A hidden aggregate column (number 0) still counts as numbered before
      every visible column, so all of them move right. */
  lemma HiddenAggregateShiftsAll(headers: Headers, diameters: seq<real>, column: Column, width: real)
    requires RebarsTotalLength in headers && headers[RebarsTotalLength].order == 0
    requires column in headers && headers[column].order > 0 && |diameters| >= 1
    ensures ColumnOffset(headers, diameters, column, width)
            == width * (headers[column].order - 1 + |diameters| - 1) as real
  {
  }

  // ---------------------------------------------------------------------
  // Header band
  // ---------------------------------------------------------------------

  function OrderOf(headers: Headers, column: Column): int
  {
    if column in headers then headers[column].order else 0
  }

  /** The columns of `columns` that are configured and not hidden. */
  function Shown(columns: seq<Column>, headers: Headers): (r: seq<Column>)
    ensures forall c :: c in r <==> c in columns && c in headers && headers[c].order != 0
    ensures Distinct(columns) ==> Distinct(r)
  {
    if columns == [] then []
    else
      var rest := Shown(columns[1..], headers);
      DistinctTail(columns);
      if columns[0] in headers && headers[columns[0]].order != 0 then [columns[0]] + rest else rest
  }

  /** The sort key of the header loop: a column's number. */
  function OrderKey(headers: Headers): Column -> real
  {
    c => OrderOf(headers, c) as real
  }

  /** Every column kind appears exactly once in `AllColumns`. */
  lemma AllColumnsListed()
    ensures Distinct(AllColumns)
    ensures forall c: Column :: c in AllColumns
  {
    forall c: Column ensures c in AllColumns {
      match c
      case Mark => assert AllColumns[0] == c;
      case RebarsCount => assert AllColumns[1] == c;
      case Diameter => assert AllColumns[2] == c;
      case RebarLength => assert AllColumns[3] == c;
      case RebarsTotalLength => assert AllColumns[4] == c;
    }
  }

  /** The filtering dictionary comprehension and the `sorted` call of
      `getColumnHeadersSVG`: the visible columns in order of their numbers. */
  function VisibleColumns(headers: Headers): (visible: seq<Column>)
    ensures forall c :: c in visible <==> c in headers && headers[c].order != 0
    ensures Distinct(visible)
    ensures forall i, j :: 0 <= i < j < |visible| ==> headers[visible[i]].order <= headers[visible[j]].order
  {
    AllColumnsListed();
    var shown := Shown(AllColumns, headers);
    var r := SortBy(shown, OrderKey(headers));
    VisibleColumnsFacts(headers, shown, r);
    r
  }

  lemma VisibleColumnsFacts(headers: Headers, shown: seq<Column>, r: seq<Column>)
    requires forall c :: c in shown <==> c in headers && headers[c].order != 0
    requires multiset(r) == multiset(shown)
    requires SortedBy(r, OrderKey(headers))
    ensures forall c :: c in r <==> c in headers && headers[c].order != 0
    ensures forall i, j :: 0 <= i < j < |r| ==> headers[r[i]].order <= headers[r[j]].order
  {
    forall c ensures c in r <==> c in shown {
      PermutationMembers(shown, r, c);
    }
    forall i, j | 0 <= i < j < |r| ensures headers[r[i]].order <= headers[r[j]].order {
      assert OrderKey(headers)(r[i]) <= OrderKey(headers)(r[j]);
    }
  }

  /** The slots taken by the first `k` visible columns. */
  function LeftSlots(visible: seq<Column>, k: nat, diameterCount: nat): int
    requires k <= |visible|
  {
    if k == 0 then 0
    else LeftSlots(visible, k - 1, diameterCount) + SpanSlots(visible[k - 1], diameterCount)
  }

  /** The running `column_offset` of the header loop before column `k`: the
      total width of the columns before it. */
  function LeftEdge(visible: seq<Column>, k: nat, diameterCount: nat, width: real): real
    requires k <= |visible|
  {
    Scaled(width, LeftSlots(visible, k, diameterCount))
  }

  /** The running offset moves by one column width past an ordinary column
      and by one per diameter past the aggregate column. */
  lemma EdgeStep(visible: seq<Column>, k: nat, diameterCount: nat, width: real)
    requires k < |visible|
    ensures visible[k] != RebarsTotalLength
            ==> LeftEdge(visible, k + 1, diameterCount, width) == LeftEdge(visible, k, diameterCount, width) + width
    ensures visible[k] == RebarsTotalLength
            ==> LeftEdge(visible, k + 1, diameterCount, width)
                == LeftEdge(visible, k, diameterCount, width) + width * diameterCount as real
  {
    var l := LeftSlots(visible, k, diameterCount);
    assert LeftSlots(visible, k + 1, diameterCount) == l + SpanSlots(visible[k], diameterCount);
    ScaleAdd(width, l, SpanSlots(visible[k], diameterCount));
  }

  /** One header entry: an ordinary label cell, or the aggregate label with
      its diameter sub-headers. */
  datatype HeaderBlock =
    | Plain(cell: Cell)
    | Aggregate(cell: Cell, subHeaders: seq<Cell>)

  /** The sub-header text of a diameter: "#" and the trimmed rounded value. */
  function DiameterLabel(env: Numerals, diameter: real): string
  {
    "#" + TrimNumber(env.roundStr(diameter, env.precision))
  }

  /** The header entry of visible column `k` of the band at `y`: ordinary
      columns one column wide and `height` tall; the aggregate label one row
      tall and one column per diameter wide, over one sub-header per
      diameter, side by side on the row below. */
  ghost predicate IsHeaderBlock(block: HeaderBlock, headers: Headers, diameters: seq<real>, env: Numerals,
                                visible: seq<Column>, k: nat, y: real, width: real, rowHeight: real, height: real)
    requires k < |visible| && visible[k] in headers
  {
    var n := |diameters|;
    var x := LeftEdge(visible, k, n, width);
    var title := headers[visible[k]].title;
    if visible[k] == RebarsTotalLength then
      && block.Aggregate?
      && block.cell == DataCell(title, x, y, width * n as real, rowHeight)
      && |block.subHeaders| == n
      && forall i :: 0 <= i < n ==>
           block.subHeaders[i]
           == DataCell(DiameterLabel(env, diameters[i]), x + width * i as real, y + rowHeight, width, rowHeight)
    else
      block == Plain(DataCell(title, x, y, width, height))
  }

  /** The band height: two rows when the aggregate column is visible. */
  function BandHeight(headers: Headers, rowHeight: real): (h: real)
    ensures RebarsTotalLength in headers && headers[RebarsTotalLength].order != 0 ==> h == 2.0 * rowHeight
    ensures !(RebarsTotalLength in headers && headers[RebarsTotalLength].order != 0) ==> h == rowHeight
  {
    if RebarsTotalLength in VisibleColumns(headers) then 2.0 * rowHeight else rowHeight
  }

  /** The header band at `y`: one entry per visible column, in ascending
      number. */
  ghost predicate IsHeaderBand(blocks: seq<HeaderBlock>, headers: Headers, diameters: seq<real>,
                               env: Numerals, y: real, width: real, rowHeight: real)
  {
    var visible := VisibleColumns(headers);
    && |blocks| == |visible|
    && forall k :: 0 <= k < |visible| ==>
         IsHeaderBlock(blocks[k], headers, diameters, env, visible, k, y, width, rowHeight, BandHeight(headers, rowHeight))
  }

  /** The inner loop of `getColumnHeadersSVG`: one "#<diameter>" sub-header
      per diameter, side by side from `x` on the row below `y`; `next` is the
      running offset after the last one. */
  method DiameterHeaders(diameters: seq<real>, env: Numerals, x: real, y: real, width: real, rowHeight: real)
    returns (cells: seq<Cell>, next: real)
    ensures |cells| == |diameters|
    ensures forall i :: 0 <= i < |diameters| ==>
              cells[i] == DataCell(DiameterLabel(env, diameters[i]), x + width * i as real, y + rowHeight, width, rowHeight)
    ensures next == x + width * |diameters| as real
  {
    cells := [];
    next := x;
    var i := 0;
    while i < |diameters|
      invariant 0 <= i <= |diameters| && |cells| == i
      invariant next == x + width * i as real
      invariant forall j :: 0 <= j < i ==>
                  cells[j] == DataCell(DiameterLabel(env, diameters[j]), x + width * j as real, y + rowHeight, width, rowHeight)
    {
      cells := cells + [DataCell(DiameterLabel(env, diameters[i]), next, y + rowHeight, width, rowHeight)];
      ScaleAdd(width, i, 1);
      next := next + width;
      i := i + 1;
    }
  }

  /** One pass of the header loop of `getColumnHeadersSVG`: the entry of
      visible column `k`, whose left edge is `offset`, and the running offset
      after it. */
  method HeaderEntry(headers: Headers, diameters: seq<real>, env: Numerals, visible: seq<Column>, k: nat,
                     offset: real, y: real, width: real, rowHeight: real, height: real)
    returns (block: HeaderBlock, next: real)
    requires k < |visible| && visible[k] in headers
    requires offset == LeftEdge(visible, k, |diameters|, width)
    ensures IsHeaderBlock(block, headers, diameters, env, visible, k, y, width, rowHeight, height)
    ensures next == LeftEdge(visible, k + 1, |diameters|, width)
  {
    var n := |diameters|;
    var column := visible[k];
    var title := headers[column].title;
    EdgeStep(visible, k, n, width);
    if column != RebarsTotalLength {
      block := Plain(DataCell(title, offset, y, width, height));
      next := offset + width;
    } else {
      var subHeaders;
      subHeaders, next := DiameterHeaders(diameters, env, offset, y, width, rowHeight);
      block := Aggregate(DataCell(title, offset, y, width * n as real, rowHeight), subHeaders);
    }
  }

  /** `getColumnHeadersSVG`. */
  method ColumnHeaders(headers: Headers, diameters: seq<real>, env: Numerals,
                       y: real, width: real, rowHeight: real) returns (blocks: seq<HeaderBlock>)
    ensures IsHeaderBand(blocks, headers, diameters, env, y, width, rowHeight)
  {
    blocks := HeaderLoop(headers, diameters, env, VisibleColumns(headers), y, width, rowHeight,
                         BandHeight(headers, rowHeight));
  }

  /** The header loop over the visible columns `visible`, with the running
      offset starting at 0. */
  method HeaderLoop(headers: Headers, diameters: seq<real>, env: Numerals, visible: seq<Column>,
                    y: real, width: real, rowHeight: real, height: real) returns (blocks: seq<HeaderBlock>)
    requires forall c :: c in visible ==> c in headers
    ensures |blocks| == |visible|
    ensures forall k :: 0 <= k < |visible| ==>
              IsHeaderBlock(blocks[k], headers, diameters, env, visible, k, y, width, rowHeight, height)
  {
    var offset := 0.0;
    blocks := [];
    var k := 0;
    while k < |visible|
      invariant 0 <= k <= |visible| && |blocks| == k
      invariant offset == LeftEdge(visible, k, |diameters|, width)
      invariant forall j :: 0 <= j < k ==>
                  IsHeaderBlock(blocks[j], headers, diameters, env, visible, j, y, width, rowHeight, height)
    {
      var block;
      block, offset := HeaderEntry(headers, diameters, env, visible, k, offset, y, width, rowHeight, height);
      AppendBlock(blocks, block, headers, diameters, env, visible, y, width, rowHeight, height);
      blocks := blocks + [block];
      k := k + 1;
    }
  }

  lemma AppendBlock(blocks: seq<HeaderBlock>, block: HeaderBlock, headers: Headers, diameters: seq<real>, env: Numerals,
                    visible: seq<Column>, y: real, width: real, rowHeight: real, height: real)
    requires |blocks| < |visible| && forall c :: c in visible ==> c in headers
    requires forall j :: 0 <= j < |blocks| ==>
               IsHeaderBlock(blocks[j], headers, diameters, env, visible, j, y, width, rowHeight, height)
    requires IsHeaderBlock(block, headers, diameters, env, visible, |blocks|, y, width, rowHeight, height)
    ensures forall j :: 0 <= j <= |blocks| ==>
              IsHeaderBlock((blocks + [block])[j], headers, diameters, env, visible, j, y, width, rowHeight, height)
  {
    forall j | 0 <= j <= |blocks|
      ensures IsHeaderBlock((blocks + [block])[j], headers, diameters, env, visible, j, y, width, rowHeight, height)
    {
      if j < |blocks| {
        assert (blocks + [block])[j] == blocks[j];
      }
    }
  }

  /** Where the visible numbers are exactly 1..k, the aggregate column is
      not hidden and there is at least one diameter, the slots taken before
      visible column `k` are exactly those before its shifted slot. */
  lemma HeaderSlotsAlign(headers: Headers, diameters: seq<real>, k: nat)
    requires forall j :: 0 <= j < |VisibleColumns(headers)| ==> headers[VisibleColumns(headers)[j]].order == j + 1
    requires RebarsTotalLength in headers ==> headers[RebarsTotalLength].order != 0
    requires |diameters| >= 1
    requires k < |VisibleColumns(headers)|
    ensures LeftSlots(VisibleColumns(headers), k, |diameters|) == Slot(headers, diameters, VisibleColumns(headers)[k]) - 1
  {
    VisibleSlotsAlign(headers, VisibleColumns(headers), diameters, k);
  }

  /** The induction of `HeaderSlotsAlign`, over any list of the visible
      columns numbered 1, 2, ... in turn. */
  lemma {:induction false} VisibleSlotsAlign(headers: Headers, visible: seq<Column>, diameters: seq<real>, k: nat)
    requires forall c :: c in visible <==> c in headers && headers[c].order != 0
    requires forall j :: 0 <= j < |visible| ==> headers[visible[j]].order == j + 1
    requires RebarsTotalLength in headers ==> headers[RebarsTotalLength].order != 0
    requires |diameters| >= 1
    requires k < |visible|
    ensures LeftSlots(visible, k, |diameters|) == Slot(headers, diameters, visible[k]) - 1
  {
    if k > 0 {
      VisibleSlotsAlign(headers, visible, diameters, k - 1);
      var prev := visible[k - 1];
      assert headers[prev].order == k && headers[visible[k]].order == k + 1;
      if prev != RebarsTotalLength && RebarsTotalLength in headers {
        assert RebarsTotalLength in visible;
        var p :| 0 <= p < |visible| && visible[p] == RebarsTotalLength;
        assert p != k - 1;
      }
    }
  }

  /** Hence the running offset of the header loop is `getColumnOffset` for
      every visible column, so the body cells line up under their headers. */
  lemma HeaderAlignsWithOffsets(headers: Headers, diameters: seq<real>, width: real, k: nat)
    requires forall j :: 0 <= j < |VisibleColumns(headers)| ==> headers[VisibleColumns(headers)[j]].order == j + 1
    requires RebarsTotalLength in headers ==> headers[RebarsTotalLength].order != 0
    requires |diameters| >= 1
    requires k < |VisibleColumns(headers)|
    ensures LeftEdge(VisibleColumns(headers), k, |diameters|, width)
            == ColumnOffset(headers, diameters, VisibleColumns(headers)[k], width)
  {
    HeaderSlotsAlign(headers, diameters, k);
    SlotsGiveOffset(headers, VisibleColumns(headers), diameters, width, k);
  }

  /** The agreement needs the aggregate column not to be hidden: with
      "Mark" numbered 1, the aggregate column present but numbered 0 and two
      diameters, the header loop draws the "Mark" header at x = 0 while
      `getColumnOffset` puts the body cells of "Mark" one column further
      right. */
  lemma HiddenAggregateMisaligns()
    ensures var headers := map[Mark := Header("Mark", 1), RebarsTotalLength := Header("Total", 0)];
            var visible := VisibleColumns(headers);
            && |visible| >= 1 && visible[0] == Mark
            && LeftEdge(visible, 0, 2, 10.0) == 0.0
            && ColumnOffset(headers, [8.0, 12.0], Mark, 10.0) == 10.0
  {
    var headers := map[Mark := Header("Mark", 1), RebarsTotalLength := Header("Total", 0)];
    var visible := VisibleColumns(headers);
    assert Mark in visible;
    assert visible[0] in headers && headers[visible[0]].order != 0;
  }

  lemma SlotsGiveOffset(headers: Headers, visible: seq<Column>, diameters: seq<real>, width: real, k: nat)
    requires k < |visible| && visible[k] in headers
    requires LeftSlots(visible, k, |diameters|) == Slot(headers, diameters, visible[k]) - 1
    ensures LeftEdge(visible, k, |diameters|, width) == ColumnOffset(headers, diameters, visible[k], width)
  {
  }

  /** The first `k` visible columns take one slot each, and the aggregate
      column one more per diameter beyond the first. */
  lemma {:induction false} LeftSlotsCount(visible: seq<Column>, k: nat, diameterCount: nat)
    requires Distinct(visible) && k <= |visible|
    ensures LeftSlots(visible, k, diameterCount)
            == k + (if RebarsTotalLength in visible[..k] then diameterCount - 1 else 0)
  {
    if k > 0 {
      LeftSlotsCount(visible, k - 1, diameterCount);
      assert visible[..k] == visible[..k - 1] + [visible[k - 1]];
      if visible[k - 1] == RebarsTotalLength {
        var before := visible[..k - 1];
        forall i | 0 <= i < |before| ensures before[i] != RebarsTotalLength {
          assert before[i] == visible[i];
        }
      }
    }
  }

  /** When every configured column is shown, the header band takes one slot
      per configured column, plus one per diameter beyond the first when the
      aggregate column is configured. */
  lemma AllShownSlots(headers: Headers, visible: seq<Column>, diameterCount: nat)
    requires forall c :: c in visible <==> c in headers
    requires Distinct(visible)
    ensures LeftSlots(visible, |visible|, diameterCount)
            == |headers| + (if RebarsTotalLength in headers then diameterCount - 1 else 0)
  {
    LeftSlotsCount(visible, |visible|, diameterCount);
    assert visible[..|visible|] == visible;
    DistinctCardinality(visible);
    assert (set x | x in visible) == headers.Keys;
  }
}

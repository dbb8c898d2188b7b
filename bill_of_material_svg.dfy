/** `makeBillOfMaterialSVG` (BillOfMaterial/BillOfMaterial_SVG.py): the
    whole table, its size, its scale on the drawing page and where the
    scaled table is placed. */
module BillOfMaterialSVG {
  import opened Wrappers
  import opened SeqUtil
  import opened NumberText
  import opened BOMfunc
  import opened ColumnLayout
  import opened BomRows
  import opened BomFooter

  /** The bill of materials: the grouping and the diameter list it was made
      from, the header band, the body rows, the per-diameter totals, the
      closing rectangle, the footer, the table's size, its scale and the
      position of its centre on the page. */
  datatype Bom = Bom(
    groups: map<int, seq<Item>>,
    marks: seq<int>,
    diameters: seq<real>,
    headerBand: seq<HeaderBlock>,
    rows: seq<Row>,
    totals: map<real, real>,
    closing: Cell,
    footer: Footer,
    width: real,
    height: real,
    scale: real,
    x: real,
    y: real)

  /** `bom_width`: one column per configured column (hidden ones included)
      plus one per diameter beyond the first. With the aggregate column
      configured, that is the other configured columns one column each and
      the aggregate column its span. */
  function TableWidth(cfg: Config, diameterCount: nat): (w: real)
    ensures w == cfg.columnWidth * |cfg.headers| as real + cfg.columnWidth * (diameterCount - 1) as real
    ensures RebarsTotalLength in cfg.headers
            ==> w == cfg.columnWidth * (|cfg.headers| - 1) as real
                     + Span(RebarsTotalLength, diameterCount, cfg.columnWidth)
  {
    ScaleAdd(cfg.columnWidth, |cfg.headers|, diameterCount - 1);
    ScaleAdd(cfg.columnWidth, |cfg.headers| - 1, diameterCount);
    cfg.columnWidth * (|cfg.headers| + diameterCount - 1) as real
  }

  /** With every configured column shown, the header band spans exactly the
      table's width when the aggregate column is configured, for any number
      of diameters; without it the table's width exceeds the band's by
      N - 1 columns for N diameters (so they agree for one diameter, and the
      table is a column narrower than its band for none). */
  lemma HeaderBandWidth(cfg: Config, diameterCount: nat)
    requires forall c :: c in cfg.headers ==> cfg.headers[c].order != 0
    ensures var visible := VisibleColumns(cfg.headers);
            && (RebarsTotalLength in cfg.headers
                ==> LeftEdge(visible, |visible|, diameterCount, cfg.columnWidth) == TableWidth(cfg, diameterCount))
            && (RebarsTotalLength !in cfg.headers
                ==> LeftEdge(visible, |visible|, diameterCount, cfg.columnWidth)
                    + cfg.columnWidth * (diameterCount - 1) as real
                    == TableWidth(cfg, diameterCount))
  {
    var visible := VisibleColumns(cfg.headers);
    AllShownSlots(cfg.headers, visible, diameterCount);
    BandWidthFromSlots(cfg, visible, diameterCount);
  }

  lemma BandWidthFromSlots(cfg: Config, visible: seq<Column>, diameterCount: nat)
    requires LeftSlots(visible, |visible|, diameterCount)
             == |cfg.headers| + (if RebarsTotalLength in cfg.headers then diameterCount - 1 else 0)
    ensures RebarsTotalLength in cfg.headers
            ==> LeftEdge(visible, |visible|, diameterCount, cfg.columnWidth) == TableWidth(cfg, diameterCount)
    ensures RebarsTotalLength !in cfg.headers
            ==> LeftEdge(visible, |visible|, diameterCount, cfg.columnWidth)
                + cfg.columnWidth * (diameterCount - 1) as real
                == TableWidth(cfg, diameterCount)
  {
    ScaleAdd(cfg.columnWidth, |cfg.headers|, diameterCount - 1);
  }

  /** `bom_height`: the header band, one row per mark, the closing row and
      the three footer rows (counted even when no footer is drawn). */
  lemma TableHeight(cfg: Config, markCount: nat)
    ensures RowY(cfg, markCount) + cfg.rowHeight + 3.0 * cfg.rowHeight
            == FirstRowY(cfg) + cfg.rowHeight * (markCount + 4) as real
  {
    RowYClosedForm(cfg, markCount);
    ScaleAdd(cfg.rowHeight, markCount, 4);
  }

  /** The `X` and `Y` of the drawing view: the centre of the scaled table,
      `leftOffset` from the page's left edge and `topOffset` below its top
      edge, with y measured upwards from the page's bottom edge. */
  function Placement(width: real, height: real, scale: real, leftOffset: real, topOffset: real,
                     pageHeight: real): (p: (real, real))
    ensures p.0 - width * scale / 2.0 == leftOffset
    ensures pageHeight - (p.1 + height * scale / 2.0) == topOffset
  {
    (width * scale / 2.0 + leftOffset, pageHeight - height * scale / 2.0 - topOffset)
  }

  /** A table of non-negative size placed with the scale `getBOMScalingFactor`
      returns keeps at least `minRight` to the page's right edge and at least
      `minBottom` to its bottom edge, and is no larger than the set caps. */
  lemma PlacedWithinMargins(width: real, height: real, leftOffset: real, topOffset: real,
                            pageWidth: real, pageHeight: real, minRight: real, minBottom: real,
                            maxWidth: Option<real>, maxHeight: Option<real>)
    requires width >= 0.0 && height >= 0.0
    requires ScalingFactor(width, height, leftOffset, topOffset, pageWidth, pageHeight,
                           minRight, minBottom, maxWidth, maxHeight).Ok?
    ensures var s := ScalingFactor(width, height, leftOffset, topOffset, pageWidth, pageHeight,
                                   minRight, minBottom, maxWidth, maxHeight).value;
            var p := Placement(width, height, s, leftOffset, topOffset, pageHeight);
            && p.0 + width * s / 2.0 + minRight <= pageWidth
            && p.1 - height * s / 2.0 >= minBottom
            && (CapSet(maxWidth) ==> width * s <= maxWidth.value)
            && (CapSet(maxHeight) ==> height * s <= maxHeight.value)
  {
    var s := ScalingFactor(width, height, leftOffset, topOffset, pageWidth, pageHeight,
                           minRight, minBottom, maxWidth, maxHeight).value;
    if NeedsScaling(width, height, leftOffset, topOffset, pageWidth, pageHeight, minRight, minBottom, maxWidth, maxHeight) {
      ScalingFactorIsTightestFit(width, height, leftOffset, topOffset, pageWidth, pageHeight,
                                 minRight, minBottom, maxWidth, maxHeight);
    }
    assert Fits(s, width, height, leftOffset, topOffset, pageWidth, pageHeight, minRight, minBottom, maxWidth, maxHeight);
  }

  /** The body of the table made from `objects`: the grouping by mark, the
      sorted marks and diameters, the header band at the top, one row per
      mark and the per-diameter totals of those rows. */
  ghost predicate IsBody(objects: seq<Item>, cfg: Config, env: Numerals, groups: map<int, seq<Item>>,
                         marks: seq<int>, diameters: seq<real>, headerBand: seq<HeaderBlock>,
                         rows: seq<Row>, totals: map<real, real>)
  {
    && GroupedByMark(objects, groups)
    && WellFormedGroups(groups)
    && (forall m :: m in marks <==> m in groups)
    && (forall i, j :: 0 <= i < j < |marks| ==> marks[i] < marks[j])
    && StrictlyAscending(diameters)
    && Distinct(diameters)
    && (forall d :: d in diameters <==> IsGroupDiameter(groups, d))
    && IsHeaderBand(headerBand, cfg.headers, diameters, env, 0.0, cfg.columnWidth, cfg.rowHeight)
    && |rows| == |marks|
    && RowsLaidOut(rows, cfg, env, diameters, marks, groups)
    && Accumulated(totals, diameters, rows)
  }

  /** The footer below the closing row at `y`: none without the aggregate
      column, otherwise the layout of `makeBillOfMaterialSVG`'s footer. */
  ghost predicate IsFooterOf(footer: Footer, cfg: Config, env: Numerals, diameters: seq<real>,
                             totals: map<real, real>, y: real)
  {
    && (RebarsTotalLength !in cfg.headers ==> footer == NoFooter)
    && (RebarsTotalLength in cfg.headers && RebarsTotalLength in cfg.units
        ==> (forall i :: 0 <= i < |diameters| ==> diameters[i] in totals)
            && IsFooter(footer, cfg, env, diameters, totals, y))
  }

  /** What closes the table below the body rows, and the table's size. */
  datatype Frame = Frame(closing: Cell, footer: Footer, width: real, height: real)

  /** The frame of a table with `markCount` body rows: the closing
      rectangle across the whole width, the footer below it, and the width
      and height of `makeBillOfMaterialSVG`. */
  ghost predicate IsFrame(f: Frame, cfg: Config, env: Numerals, diameters: seq<real>,
                          totals: map<real, real>, markCount: nat)
  {
    && f.width == TableWidth(cfg, |diameters|)
    && f.closing == Rect(0.0, RowY(cfg, markCount), f.width, cfg.rowHeight)
    && IsFooterOf(f.footer, cfg, env, diameters, totals, RowY(cfg, markCount) + cfg.rowHeight)
    && f.height == FirstRowY(cfg) + cfg.rowHeight * (markCount + 4) as real
  }

  /** `b` is the bill of materials of `objects` under `cfg` on a page of the
      given size. */
  ghost predicate Assembled(b: Bom, objects: seq<Item>, cfg: Config, env: Numerals,
                            pageWidth: real, pageHeight: real)
  {
    && IsBody(objects, cfg, env, b.groups, b.marks, b.diameters, b.headerBand, b.rows, b.totals)
    && IsFrame(Frame(b.closing, b.footer, b.width, b.height), cfg, env, b.diameters, b.totals, |b.marks|)
    && ScalingFactor(b.width, b.height, cfg.leftOffset, cfg.topOffset, pageWidth, pageHeight,
                     cfg.minRightOffset, cfg.minBottomOffset, cfg.maxWidth, cfg.maxHeight) == Ok(b.scale)
    && (b.x, b.y) == Placement(b.width, b.height, b.scale, cfg.leftOffset, cfg.topOffset, pageHeight)
  }

  /** Everything of `makeBillOfMaterialSVG` down to the last body row. */
  method BuildBody(objects: seq<Item>, cfg: Config, env: Numerals)
    returns (groups: map<int, seq<Item>>, marks: seq<int>, diameters: seq<real>,
             headerBand: seq<HeaderBlock>, rows: seq<Row>, totals: map<real, real>)
    ensures IsBody(objects, cfg, env, groups, marks, diameters, headerBand, rows, totals)
  {
    groups := GroupByMark(objects);
    diameters := UniqueDiameters(groups);
    headerBand := ColumnHeaders(cfg.headers, diameters, env, 0.0, cfg.columnWidth, cfg.rowHeight);
    marks := SortedMarks(groups);
    forall m | m in groups ensures FirstRebar(groups[m]).diameter in diameters {
      assert FirstDiameterAmong(groups, groups.Keys, FirstRebar(groups[m]).diameter);
    }
    var y;
    rows, totals, y := BodyRows(cfg, env, groups, diameters, marks);
  }

  /** The closing rectangle, the footer and the size of a table with
      `markCount` body rows; `MissingTotalLengthUnit` when the footer needs
      the aggregate column's unit and none is configured. */
  method BuildFrame(cfg: Config, env: Numerals, diameters: seq<real>, totals: map<real, real>, markCount: nat)
    returns (r: Result<Frame, BomError>)
    requires forall i :: 0 <= i < |diameters| ==> diameters[i] in totals
    ensures r.Err? <==> RebarsTotalLength in cfg.headers && RebarsTotalLength !in cfg.units
    ensures r.Err? ==> r.error == MissingTotalLengthUnit
    ensures r.Ok? ==> IsFrame(r.value, cfg, env, diameters, totals, markCount)
  {
    var y := RowY(cfg, markCount);
    var width := TableWidth(cfg, |diameters|);
    var closing := Rect(0.0, y, width, cfg.rowHeight);
    var footer := FooterCells(cfg, env, diameters, totals, y + cfg.rowHeight);
    if footer.Err? {
      return Err(footer.error);
    }
    TableHeight(cfg, markCount);
    var height := y + cfg.rowHeight + 3.0 * cfg.rowHeight;
    r := Ok(Frame(closing, footer.value, width, height));
  }

  /** `makeBillOfMaterialSVG` over the document's objects, with the page
      size of the template. It fails when the footer needs the aggregate
      column's unit and none is configured, and when a table of zero width
      or height must be scaled. */
  method MakeBillOfMaterial(objects: seq<Item>, cfg: Config, env: Numerals, pageWidth: real, pageHeight: real)
    returns (r: Result<Bom, BomError>)
    ensures r.Err? ==> r.error == MissingTotalLengthUnit || r.error == ZeroSizedTable
    ensures r == Err(MissingTotalLengthUnit)
            <==> RebarsTotalLength in cfg.headers && RebarsTotalLength !in cfg.units
    ensures r.Ok? ==> Assembled(r.value, objects, cfg, env, pageWidth, pageHeight)
  {
    var groups, marks, diameters, headerBand, rows, totals := BuildBody(objects, cfg, env);
    var frame := BuildFrame(cfg, env, diameters, totals, |marks|);
    if frame.Err? {
      return Err(frame.error);
    }
    var f := frame.value;
    var scale := ScalingFactor(f.width, f.height, cfg.leftOffset, cfg.topOffset, pageWidth, pageHeight,
                               cfg.minRightOffset, cfg.minBottomOffset, cfg.maxWidth, cfg.maxHeight);
    if scale.Err? {
      return Err(ZeroSizedTable);
    }
    var p := Placement(f.width, f.height, scale.value, cfg.leftOffset, cfg.topOffset, pageHeight);
    r := Ok(Bom(groups, marks, diameters, headerBand, rows, totals, f.closing, f.footer,
                f.width, f.height, scale.value, p.0, p.1));
  }
}

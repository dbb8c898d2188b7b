# Bill of materials of reinforcement bars — a Dafny model

This project models how the BillOfMaterial workbench tool of a FreeCAD
reinforcement add-on lays out its bill of materials (BOM) as an SVG table,
and proves properties of that layout.

- **Grouping.** The document's reinforcement objects are grouped by mark
  number. An object without a mark counts as mark 0.
- **Diameters.** The diameter list is the ascending, duplicate-free list of
  the first diameter of each group.
- **Header band.** The band shows each visible column in order of its column
  number. The aggregate "total length" column spans one sub-column per
  diameter.
- **Body rows.** There is one row per mark, in ascending mark order. A row
  shows the mark, the bar count, the diameter and the length of one bar.
  It also shows the row's total length, in the sub-column of its diameter.
- **Per-diameter totals.** A running total per diameter is kept while the
  rows are drawn.
- **Closing row and footer.** A closing rectangle follows the rows. The
  footer has three rows: total length, weight per length and total weight per
  diameter. It has two layouts, depending on whether the aggregate column is
  column 1.
- **Size and placement.** The model computes the table's width and height,
  the factor that fits it on the drawing page, and the position of the scaled
  table.
- **Number text.** Numbers are put into text with `str(...).rstrip("0").rstrip(".")`.

Modules:

- `Wrappers`: `Option` and `Result`.
- `SeqUtil`: sums, a stable insertion sort and duplicate-freedom.
- `NumberText`: the `rstrip` clean-up of decimal text, and the display rule
  of the cells.
- `BOMfunc`: `getMarkReinforcementsDict`, `getUniqueDiameterList`,
  `getRebarSharpEdgedLength` and `getBOMScalingFactor`.
- `ColumnLayout`: `getColumnOffset` and `getColumnHeadersSVG`.
- `BomRows`: the body rows of `makeBillOfMaterialSVG`, and the per-diameter
  accumulator `dia_total_length_dict`.
- `BomFooter`: the closing footer in its two layouts.
- `BillOfMaterialSVG`: the whole table, its size, its scale and its placement.

In the model, cells are values in table coordinates:

- a data cell `DataCell(text, x, y, w, h)`, which is `getSVGDataCell`;
- a bare rectangle `Rect(x, y, w, h)`, which is `getSVGRectangle`.

Each row is a record with one optional cell per column plus its aggregate
sub-cells. Lengths are `real` millimetres. Marks and bar amounts are `int`.

Four of the host's services are parameters of type `Numerals`:

- `roundStr`: Python's `str(round(x, p))` of a plain float (the `.Value`
  of a converted quantity, or a diameter's `.Value` in the sub-headers);
- `quantityStr`: `str(round(q, p))` of a FreeCAD `Quantity` itself, whose
  text ends in the quantity's own unit. It is used where a cell shows a
  length without a configured unit, and for the total weight cells;
- unit conversion with `Quantity.getValueAs`;
- the user's preferred number of decimals.

The model treats them as arbitrary functions, so every property holds
whatever they compute.

Points where the code behaves in ways a reader might not expect:

- **The table includes the closing row.** Its height is the first body
  row's y, plus one row per mark, plus the closing rectangle row, plus three
  footer rows. With a two-row header and two marks that is 8 rows, not 7.
  The three footer rows are counted even when the aggregate column is not
  configured and no footer is drawn.
- **A hidden aggregate column leaves an empty row.** The first body row's y
  is two rows down whenever the aggregate column is configured
  (`BomRows.FirstRowY`). The header band is two rows high only when that
  column is visible (`ColumnLayout.BandHeight`). With the aggregate column
  hidden, one empty row therefore sits between the one-row band and the body,
  and the height counts it (`BomRows.FirstRowUnderBand`).
- **A hidden column (number 0) still counts.** It is dropped from the
  header band only. The body rows, the footer, the width and
  `getColumnOffset` all use the unfiltered header table. So a hidden column
  still gets cells, at offset `-width`. With at least one diameter, a
  hidden aggregate column still shifts every visible column by N−1
  columns, N being the diameter count
  (`ColumnLayout.HiddenAggregateShiftsAll`); with no diameter nothing
  moves. The header band does not shift, so with two or more diameters the
  body cells sit N−1 columns right of their headers
  (`ColumnLayout.HiddenAggregateMisaligns`).
- **The table width always counts the diameters.** It is one column per
  configured column plus one per diameter beyond the first, whether or not
  the aggregate column is configured (`BillOfMaterialSVG.HeaderBandWidth`).
- **The footer needs the aggregate column's unit.** Both footer layouts read
  that unit without a guard. A configuration that configures the aggregate
  column (even hidden) but gives it no unit is an error (`MissingTotalLengthUnit`), so unit-less
  footer text is never shown. In the layout where the aggregate column is
  not column 1, the unit is read before the per-diameter loop, so its
  unit-less branch is never reached. In the layout where it is column 1,
  the loop and its unit-less branches run first and their cells are lost
  when the unit is read afterwards; the model gives the error alone.
- **No length column, no totals.** Without the "RebarLength" column, a
  row's total length, and so every footer total, is 0
  (`BomRows.NoLengthColumnNoTotal`).
- **The scaling factor has no lower bound.** It can be zero or negative
  (`BOMfunc.ScalingFactorUnbounded`). A table of zero width or height that
  must be scaled is a division by zero (`ZeroSizedTable`).

## Model

| member | source | states |
|---|---|---|
| NumberText.RStrip | BillOfMaterial/BillOfMaterial_SVG.py:223-226 | `rstrip(c)` keeps a prefix of the text, leaves it not ending in `c`, and removes only copies of `c` |
| NumberText.RStripUnique | BillOfMaterial/BillOfMaterial_SVG.py:223-226 | those three facts determine the `rstrip` result uniquely |
| NumberText.TrimNumber | BillOfMaterial/BillOfMaterial_SVG.py:395-396 | the cleaned-up number text is a prefix of the original that never ends in a decimal point |
| NumberText.TrimDecimal | BillOfMaterial/BillOfMaterial_SVG.py:395-396 | on "I.F" the integer part survives, and the fraction loses its trailing zeros; an all-zero fraction goes with the point |
| NumberText.TrimAllZeros | BillOfMaterial/BillOfMaterial_SVG.py:223-226 | a fraction that `rstrip("0")` empties is removed together with the point |
| NumberText.TrimSomeDigits | BillOfMaterial/BillOfMaterial_SVG.py:223-226 | a fraction with a nonzero digit keeps its point and loses only its trailing zeros |
| NumberText.TrimWholeNumber | BillOfMaterial/BillOfMaterial_SVG.py:434-435 | "I.000" becomes "I" |
| NumberText.InUnitShape | BillOfMaterial/BillOfMaterial_SVG.py:385-398 | `InUnit`: a value shown in a unit ends in a space and that unit; the number before it is a prefix of the rounded converted value and never ends in a decimal point |
| NumberText.DisplayRule | BillOfMaterial/BillOfMaterial_SVG.py:383-401 | `Display`: with a configured unit the cell text is `InUnit`, ending in " " and the unit; without one it is the text of the rounded length `Quantity`, unit included, not the plain float text |
| SeqUtil.SortBy | BillOfMaterial/BOMfunc.py:69 | the sorted list is a permutation of the input, ordered by the key, and still duplicate-free if the input was |
| BOMfunc.KeptWithMark | BillOfMaterial/BOMfunc.py:44-53 | an object is in the filtered list iff it is a reinforcing bar with a base rebar whose mark (0 when missing) is `m` |
| BOMfunc.AddObject | BillOfMaterial/BOMfunc.py:45-53 | a reinforcing bar with a base rebar is appended to the list of its mark (0 when it has none), created when missing; any other object leaves the grouping unchanged |
| BOMfunc.GroupByMark | BillOfMaterial/BOMfunc.py:34-54 | there is one group per mark that occurs among the kept objects; it holds exactly those objects, in document order, and is never empty |
| BOMfunc.NoMarkNoGroup | BillOfMaterial/BOMfunc.py:44-53 | a mark no kept object carries gets no objects |
| BOMfunc.GroupsPartitionKept | BillOfMaterial/BOMfunc.py:44-53 | every kept object lies in the group of its own mark and in no other |
| BOMfunc.UniqueDiameters | BillOfMaterial/BOMfunc.py:57-70 | the diameter list is strictly ascending and duplicate-free, and holds exactly the diameters of the groups' first objects |
| BOMfunc.EveryOther | BillOfMaterial/BOMfunc.py:94-95 | `edges[::2]` has ceil(E/2) entries, and entry i is edge 2i |
| BOMfunc.SharpEdgedLength | BillOfMaterial/BOMfunc.py:73-111 | a wire without a fillet keeps its length; a filleted wire gets its even-position edges plus E·r (closed, E edges) or (E−1)·r (open); a sketch gets the sum of its geometry; any other base gets 0 |
| BOMfunc.SumLoop | BillOfMaterial/BOMfunc.py:93-104 | the accumulating loops over the edges and over the sketch geometry compute the sum of their values |
| BOMfunc.RebarSharpEdgedLength | BillOfMaterial/BOMfunc.py:73-111 | the loops compute the sharp-edged length. It is the wire's own length when there is no fillet radius or it is 0. Otherwise it is the even-position edges plus twice the radius per corner. For a sketch it is the sum of its geometry, and for any other base it is 0 |
| BOMfunc.ScalingFactor | BillOfMaterial/BOMfunc.py:143-202 | the factor is 1 when the table fits and is under the caps; a table of zero width or height that must be scaled is a division by zero |
| BOMfunc.NeedsScaling | BillOfMaterial/BOMfunc.py:160-180 | scaling is triggered exactly when the table at its natural size (factor 1) does not fit the page margins or a set cap |
| BOMfunc.ScalingFactorValue | BillOfMaterial/BOMfunc.py:185-201 | when scaling, the factor is the minimum of the capped horizontal and vertical room-over-size bounds; an unfolding of the definition, whose meaning is `ScalingFactorIsTightestFit` |
| BOMfunc.CappedBoundIff | BillOfMaterial/BOMfunc.py:185-191 | a factor is at most a capped bound iff the scaled size fits the room and the cap |
| BOMfunc.FitsIff | BillOfMaterial/BOMfunc.py:185-201 | a factor keeps the table in the margins and under the caps iff it is at most both capped bounds |
| BOMfunc.ScalingFactorIsTightestFit | BillOfMaterial/BOMfunc.py:160-202 | when scaling is triggered, the factor is below 1, keeps the table in the margins and under the caps, and is the largest factor that does |
| BOMfunc.ScalingFactorUnbounded | BillOfMaterial/BOMfunc.py:185-202 | an offset wider than the page gives a negative factor (−0.5 in the example) |
| ColumnLayout.ColumnOffsetCases | BillOfMaterial/BillOfMaterial_SVG.py:64-70 | the three cases of `getColumnOffset` as the source writes them: `width·(order−1)`, shifted by `width·(N−1)` when the aggregate column has a lower number and there are N ≥ 1 diameters. This is an unfolding of the definition; its layout meaning is in `ColumnOffsetsDoNotOverlap` and `HeaderAlignsWithOffsets` |
| ColumnLayout.ColumnOffset | BillOfMaterial/BillOfMaterial_SVG.py:44-70 | a configured column numbered 1 or more, in a table with a non-negative column width, starts at or right of the table's left edge |
| ColumnLayout.HiddenAggregateShiftsAll | BillOfMaterial/BillOfMaterial_SVG.py:65-68 | with N ≥ 1 diameters, a hidden aggregate column (number 0) shifts every visible column by N−1 slots |
| ColumnLayout.SlotsDoNotOverlap | BillOfMaterial/BillOfMaterial_SVG.py:64-70 | for any diameter list, including none, a column numbered after another starts past every slot the first covers; the aggregate column covers N slots |
| ColumnLayout.ColumnOffsetsDoNotOverlap | BillOfMaterial/BillOfMaterial_SVG.py:64-70 | the same in table coordinates, for a non-negative column width and any diameter list: offset(o2) ≥ offset(o1) + width(o1) |
| ColumnLayout.Shown | BillOfMaterial/BillOfMaterial_SVG.py:175-180 | the filtered headers are exactly the configured columns with a nonzero number, without repetition |
| ColumnLayout.VisibleColumns | BillOfMaterial/BillOfMaterial_SVG.py:175-192 | the header loop visits exactly the visible columns, each once, in nondecreasing column number |
| ColumnLayout.EdgeStep | BillOfMaterial/BillOfMaterial_SVG.py:193-235 | the running offset grows by one width past an ordinary column and by N widths past the aggregate column; a one-step unfolding of `LeftEdge` that `HeaderEntry` uses |
| ColumnLayout.BandHeight | BillOfMaterial/BillOfMaterial_SVG.py:185-188 | the header cells are two rows high iff the aggregate column is visible |
| ColumnLayout.DiameterHeaders | BillOfMaterial/BillOfMaterial_SVG.py:220-235 | sub-header i reads "#" plus the cleaned-up rounded diameter i. It sits i widths right of the aggregate label, one row down, and the offset ends N widths on |
| ColumnLayout.HeaderEntry | BillOfMaterial/BillOfMaterial_SVG.py:193-236 | one loop step draws the label cell of the column, followed by the diameter sub-headers for the aggregate column |
| ColumnLayout.ColumnHeaders | BillOfMaterial/BillOfMaterial_SVG.py:150-238 | the band has one block per visible column, in loop order, each at the left edge the loop has reached |
| ColumnLayout.HeaderLoop | BillOfMaterial/BillOfMaterial_SVG.py:184-236 | the loop draws one block per column of the given order, each at the running offset of the columns before it |
| ColumnLayout.HeaderSlotsAlign | BillOfMaterial/BillOfMaterial_SVG.py:193-235 | with visible columns numbered 1..k, an aggregate column that, when configured, is not hidden, and N ≥ 1 diameters, the slot the loop reaches is the `getColumnOffset` slot |
| ColumnLayout.HeaderAlignsWithOffsets | BillOfMaterial/BillOfMaterial_SVG.py:193-235 | under the same conditions (visible numbers 1..k, a configured aggregate column not hidden, N ≥ 1) every header starts at `getColumnOffset` of its column, so the body cells line up under their headers |
| ColumnLayout.HiddenAggregateMisaligns | BillOfMaterial/BillOfMaterial_SVG.py:64-70 | with "Mark" numbered 1, a hidden aggregate column and two diameters, the header loop draws "Mark" at x = 0 while `getColumnOffset` puts its body cells at one column width, so the "not hidden" condition above is needed |
| ColumnLayout.LeftSlotsCount | BillOfMaterial/BillOfMaterial_SVG.py:193-235 | the first k visible columns take k slots, plus N−1 if the aggregate column is among them |
| ColumnLayout.AllShownSlots | BillOfMaterial/BillOfMaterial_SVG.py:193-235 | with every configured column shown, the band takes one slot per configured column, plus N−1 with the aggregate column |
| BomRows.FirstRowUnderBand | BillOfMaterial/BillOfMaterial_SVG.py:329-336 | the first body row starts right under the header band, except with a hidden aggregate column: the band is then one row high and the body starts a row further down |
| BomRows.RowYClosedForm | BillOfMaterial/BillOfMaterial_SVG.py:329-336 | row i starts at the first row's y (two row heights below the top with the aggregate column, else one) plus i row heights |
| BomRows.CountRebars | BillOfMaterial/BillOfMaterial_SVG.py:363-365 | the count of a row is the sum of the amounts of its group |
| BomRows.RowTotalLength | BillOfMaterial/BillOfMaterial_SVG.py:459-461 | the total length of a row is the bar count times the length of one bar |
| BomRows.BaseLength | BillOfMaterial/BillOfMaterial_SVG.py:417-422 | the base length is 0 without the length column, the authored length for "RealLength", and the sharp-edged length otherwise |
| BomRows.RowBaseLength | BillOfMaterial/BillOfMaterial_SVG.py:417-422 | the statements computing `base_rebar_length` give `BaseLength` |
| BomRows.BuildRow | BillOfMaterial/BillOfMaterial_SVG.py:338-512 | a row has a cell for each configured column, at its `getColumnOffset`, holding the displayed value. The aggregate part has one sub-cell per diameter |
| BomRows.TotalCells | BillOfMaterial/BillOfMaterial_SVG.py:489-512 | there is one aggregate sub-cell per diameter, cell i being `TotalCell` i: the total under the row's own diameter, a bare rectangle elsewhere |
| BomRows.NoLengthColumnNoTotal | BillOfMaterial/BillOfMaterial_SVG.py:417-418 | without the length column a row has no length cell and its total length is 0 |
| BomRows.OneTotalCellPerRow | BillOfMaterial/BillOfMaterial_SVG.py:488-512 | the sub-cell under the row's own diameter holds its total, i widths into the aggregate column; all the other sub-cells are bare rectangles |
| BomRows.DiameterTotals | BillOfMaterial/BillOfMaterial_SVG.py:573-574 | the per-diameter totals are listed in the order of the diameter list |
| BomRows.DiameterTotalAppend | BillOfMaterial/BillOfMaterial_SVG.py:462 | drawing a row adds its total to its own diameter's entry and to no other; a one-step unfolding of `DiameterTotal` that `DiameterTotalsAppend` and `BodyRows` build on |
| BomRows.DiameterTotalsAppend | BillOfMaterial/BillOfMaterial_SVG.py:462 | with distinct diameters, the sum of the totals grows by exactly the new row's total |
| BomRows.DiameterTotalsSumRows | BillOfMaterial/BillOfMaterial_SVG.py:462 | the per-diameter totals add up to the sum of all row totals |
| BomRows.SortedMarks | BillOfMaterial/BillOfMaterial_SVG.py:338 | `sorted(...)` visits every mark exactly once, strictly ascending |
| BomRows.InOrder | BillOfMaterial/BillOfMaterial_SVG.py:573-574 | the accumulator read in diameter-list order |
| BomRows.BodyRows | BillOfMaterial/BillOfMaterial_SVG.py:322-516 | there is one row per mark in sorted order, row i at `RowY(i)`. The accumulator's keys are exactly the diameters, each holding the sum of its rows' totals. The offset ends after the last row |
| BomRows.AccumulatorSumsRows | BillOfMaterial/BillOfMaterial_SVG.py:322-462 | after the loop the accumulator covers the whole table: its entries add up to the sum of the row totals |
| BomRows.AccumulatedInOrder | BillOfMaterial/BillOfMaterial_SVG.py:573-574 | the accumulator in list order is the per-diameter totals of the rows |
| BomFooter.FooterColumns | BillOfMaterial/BillOfMaterial_SVG.py:573-670 | the footer has one value column per diameter, at its footer x, holding `FooterColumn` of its accumulated total. The loop only maps `FooterColumn` over the diameters; what the columns mean is stated by `FooterColumn` and `FooterValuesUnderTotals` |
| BomFooter.TrailingCells | BillOfMaterial/BillOfMaterial_SVG.py:672-688 | there are three placeholder rectangles for each configured column numbered after the aggregate one |
| BomFooter.TrailingCell | BillOfMaterial/BillOfMaterial_SVG.py:672-688 | each placeholder is a bare one-column rectangle in footer row k mod 3 |
| BomFooter.FooterCells | BillOfMaterial/BillOfMaterial_SVG.py:528-808 | there is no footer without the aggregate column, and an error when that column has no unit. Otherwise the footer has the captions, the value columns and the placeholders of the layout its column number selects |
| BomFooter.FooterCaptions | BillOfMaterial/BillOfMaterial_SVG.py:528-808 | the three captions stack at one x with one width; in the leftmost layout they start N widths in and span the other configured columns, otherwise they start at 0 and end where the aggregate column begins |
| BomFooter.FooterValuesUnderTotals | BillOfMaterial/BillOfMaterial_SVG.py:595-605 | in both layouts the total of diameter i sits under sub-column i of the aggregate column |
| BomFooter.FooterColumn | BillOfMaterial/BillOfMaterial_SVG.py:573-670 | the cells of one diameter stack one row each at the same x: the total length first; the weight rows hold data iff the weight is known, and otherwise are two bare rectangles, or absent in the leftmost layout |
| BomFooter.LeftmostCaptionsFollowValues | BillOfMaterial/BillOfMaterial_SVG.py:773-784 | in the leftmost layout the last value column ends where the captions begin |
| BomFooter.TrailingAfterAggregate | BillOfMaterial/BillOfMaterial_SVG.py:672-688 | placeholder column c starts c widths past the right edge of the aggregate column |
| BillOfMaterialSVG.HeaderBandWidth | BillOfMaterial/BillOfMaterial_SVG.py:814 | with every column shown and any number N of diameters, the band spans the table width when the aggregate column is configured. Without it the table width exceeds the band by N−1 columns, so the two agree for N = 1 and the table is one column narrower for N = 0 |
| BillOfMaterialSVG.TableWidth | BillOfMaterial/BillOfMaterial_SVG.py:814 | the width is one column per configured column plus N−1; with the aggregate column configured, that is the other columns one width each plus the aggregate's span of N widths |
| BillOfMaterialSVG.TableHeight | BillOfMaterial/BillOfMaterial_SVG.py:809-813 | the height is the first row's y plus (marks + 4) row heights: the rows, the closing row and three footer rows |
| BillOfMaterialSVG.Placement | BillOfMaterial/BillOfMaterial_SVG.py:852-855 | the scaled table's left edge is the left offset from the page edge; its top edge is the top offset below the page top |
| BillOfMaterialSVG.PlacedWithinMargins | BillOfMaterial/BillOfMaterial_SVG.py:826-856 | placed with the computed factor, the table keeps the minimum right and bottom margins and stays under the caps |
| BillOfMaterialSVG.BuildBody | BillOfMaterial/BillOfMaterial_SVG.py:298-516 | grouping, diameter list, header band, sorted marks, rows and accumulator, each as its component states |
| BillOfMaterialSVG.BuildFrame | BillOfMaterial/BillOfMaterial_SVG.py:518-814 | the closing rectangle spans the table width below the last row, then comes the footer, then the width and height. It fails iff the aggregate column has no unit |
| BillOfMaterialSVG.MakeBillOfMaterial | BillOfMaterial/BillOfMaterial_SVG.py:241-856 | the whole table plus its scale and placement. The only errors are a missing aggregate unit (iff that is the configuration) and scaling a zero-sized table |

## Left out

- XML building, `minidom` pretty-printing, the SVG root element and attributes, and the row `id` attributes are not modelled; rows and header blocks are records of cells.
- The drawing template (reading, substitution, `makeBOMObject`) and the output file are not modelled; the page width and height are parameters.
- `getStringWidth`, the font family and size, and the text element are not modelled: they affect only how text is drawn.
- Python's `round`/`str`, the text of a FreeCAD `Quantity` and FreeCAD's unit conversion are not modelled; they are the `Numerals` parameter, as above.
- Floating-point arithmetic is modelled as exact real arithmetic. `BomRows.RowTotalLength` (the sum of Amount·L is count·L) and `BomRows.AccumulatorSumsRows` hold in the reals, not bit for bit in the program.
- The `Quantity(str(x) + "mm")` round trip of the sharp-edged length is taken as the identity.
- The document's `findObjects("Part::FeaturePython")` is the `objects` parameter; `hasattr` checks are `Option` fields.
- Reading the number of decimals from the user preferences is the `precision` field.
- `FreeCAD.Console.PrintError` for a base object of unknown kind is not modelled; only the 0 length it returns is.
- `ColumnLayout.VisibleColumns`: Python sorts the headers in the insertion order of the header dictionary and keeps that order for ties. The model keeps ties in the fixed order Mark, RebarsCount, Diameter, RebarLength, RebarsTotalLength. The two differ only when two visible columns share a number.
- `BOMfunc.GroupByMark`: marks are integers only. Python would fail to sort a mix of text and number marks.
- `BOMfunc.UniqueDiameters`: the order in which the groups are visited is not modelled. The result is sorted, so that order does not show.
- `BillOfMaterialSVG.MakeBillOfMaterial`: the `ZeroSizedTable` error is stated only as a possible outcome. Its exact condition is `BOMfunc.ScalingFactor`'s division by zero.
- The setting of the view's properties other than its size, position and scale is not modelled (font, template link, the offsets copied back), nor is the document recompute at the end of `makeBillOfMaterialSVG`: both are FreeCAD document side effects.

/** The widths of the rows that the monospace layout emits (src/render/mono.rs): what a reader sees of every
    row, tags removed and entities decoded. */
module MonoWidth {
  import opened Arithmetic
  import opened Wrappers
  import opened Html
  import opened RenderModel
  import opened Mono

  /** Cell text is escaped text with whole elements; class names contain no `>`. */
  predicate CellClosed(cell: Cell) {
    Closed(cell.text) && (cell.cssClass.Some? ==> '>' !in cell.cssClass.value)
  }

  ghost predicate RowClosed(row: Row) {
    forall cell :: cell in row ==> CellClosed(cell)
  }

  /** How much wider a cell shows than it is laid out for; only a layout width can make a difference. */
  function Drift(cell: Cell): int {
    if cell.layoutWidth.Some? then VisibleWidth(cell.text) - cell.layoutWidth.value else 0
  }

  function RowDrift(row: Row): int {
    if row == [] then 0 else RowDrift(row[..|row| - 1]) + Drift(row[|row| - 1])
  }

  lemma {:induction false} NoOverrideNoDrift(row: Row)
    requires forall cell :: cell in row ==> cell.layoutWidth.None?
    ensures RowDrift(row) == 0
  {
    if row != [] { NoOverrideNoDrift(row[..|row| - 1]); }
  }

  // ----- pieces

  /** A closed fragment of the given visible width. */
  ghost predicate Takes(html: string, width: int) {
    Closed(html) && VisibleWidth(html) == width
  }

  lemma TakesAppend(a: string, wa: int, b: string, wb: int)
    requires Takes(a, wa) && Takes(b, wb)
    ensures Takes(a + b, wa + wb)
  {
    VisibleWidthAppend(a, b);
  }

  lemma NothingTakes()
    ensures Takes("", 0)
  {
  }

  lemma TagsTake()
    ensures Takes(GAP_OPEN, 0) && Takes(SPAN_CLOSE, 0) && Takes(DIV_OPEN, 0) && Takes(DIV_CLOSE, 0)
  {
    hide Find, VisibleWidth, Closed;
    FindIs(GAP_OPEN, '>', |GAP_OPEN| - 1);
    FindIs(SPAN_CLOSE, '>', |SPAN_CLOSE| - 1);
    FindIs(DIV_OPEN, '>', |DIV_OPEN| - 1);
    FindIs(DIV_CLOSE, '>', |DIV_CLOSE| - 1);
    TagHasNoWidth(GAP_OPEN);
    TagHasNoWidth(SPAN_CLOSE);
    TagHasNoWidth(DIV_OPEN);
    TagHasNoWidth(DIV_CLOSE);
  }

  lemma SpacesTake(count: nat)
    ensures Takes(NonBreakingSpaces(count), count)
  {
    SpacesWidth(count);
  }

  lemma PaddingTakes(count: nat)
    ensures Takes(Padding(count), count)
  {
    hide Takes, NonBreakingSpaces;
    NothingTakes();
    TagsTake();
    SpacesTake(count);
    TakesAppend(GAP_OPEN, 0, NonBreakingSpaces(count), count);
    TakesAppend(GAP_OPEN + NonBreakingSpaces(count), count, SPAN_CLOSE, 0);
  }

  lemma ClassTagTakes(classes: string)
    requires '>' !in classes
    ensures Takes("<span class=\"" + classes + "\">", 0)
  {
    hide Find, VisibleWidth, Closed;
    var tag := "<span class=\"" + classes + "\">";
    var k := |tag| - 1;
    forall i | 0 <= i < k
      ensures tag[i] != '>'
    {
      if 13 <= i < k - 1 { assert tag[i] == classes[i - 13]; }
    }
    FindIs(tag, '>', k);
    TagHasNoWidth(tag);
  }

  lemma InnerTakes(cell: Cell)
    requires CellClosed(cell)
    ensures Takes(CellInner(cell), CellWidth(cell) + Drift(cell))
  {
    var left, right := NonBreakingSpaces(cell.padLeft), NonBreakingSpaces(cell.padRight);
    SpacesTake(cell.padLeft);
    SpacesTake(cell.padRight);
    assert Takes(cell.text, VisibleWidth(cell.text));
    hide Takes, NonBreakingSpaces, VisibleWidth;
    TakesAppend(left, cell.padLeft, cell.text, VisibleWidth(cell.text));
    TakesAppend(left + cell.text, cell.padLeft + VisibleWidth(cell.text), right, cell.padRight);
  }

  /** A cell shows with exactly its laid-out width, up to a layout width's drift. */
  lemma SpanTakes(cell: Cell)
    requires CellClosed(cell)
    ensures Takes(Span(cell), CellWidth(cell) + Drift(cell))
  {
    hide Takes, CellInner, CellWidth, Drift;
    InnerTakes(cell);
    if cell.cssClass.Some? && cell.cssClass.value != "" {
      var open, w := "<span class=\"" + cell.cssClass.value + "\">", CellWidth(cell) + Drift(cell);
      ClassTagTakes(cell.cssClass.value);
      TagsTake();
      TakesAppend(open, 0, CellInner(cell), w);
      TakesAppend(open + CellInner(cell), w, SPAN_CLOSE, 0);
    }
  }

  lemma PaddedCellTakes(cell: Cell, width: nat)
    requires CellClosed(cell) && CellWidth(cell) <= width
    ensures Takes(PaddedCell(cell, width), width + Drift(cell))
  {
    hide Takes, Span, Padding, CellWidth, Drift;
    var gap, w := width - CellWidth(cell), CellWidth(cell) + Drift(cell);
    SpanTakes(cell);
    PaddingTakes(gap);
    TakesAppend(Padding(gap), gap, Span(cell), w);
    TakesAppend(Span(cell), w, Padding(gap), gap);
  }

  /** Columns show with the sum of their widths. */
  lemma {:induction false} ColumnsTake(cells: Row, widths: seq<nat>)
    requires |cells| <= |widths| && RowClosed(cells)
    requires forall j :: 0 <= j < |cells| ==> CellWidth(cells[j]) <= widths[j]
    ensures Takes(Columns(cells, widths), Sum(widths[..|cells|]) + RowDrift(cells))
  {
    hide Takes, PaddedCell, CellWidth, CellClosed;
    if cells == [] {
      NothingTakes();
    } else {
      var last := |cells| - 1;
      ColumnsTake(cells[..last], widths);
      PaddedCellTakes(cells[last], widths[last]);
      TakesAppend(Columns(cells[..last], widths), Sum(widths[..last]) + RowDrift(cells[..last]),
                  PaddedCell(cells[last], widths[last]), widths[last] + Drift(cells[last]));
      assert widths[..|cells|][..last] == widths[..last];
    }
  }

  // ----- one plan

  lemma DivTakes(html: string, width: int)
    requires Takes(html, width)
    ensures Takes(DIV_OPEN + html + DIV_CLOSE, width)
  {
    hide Takes;
    TagsTake();
    TakesAppend(DIV_OPEN, 0, html, width);
    TakesAppend(DIV_OPEN + html, width, DIV_CLOSE, 0);
  }

  lemma RightValueTakes(plan: Plan, globalWidth: nat, dl: int, dv: int)
    requires plan.RightValue? && plan.leftWidth + plan.valueWidth <= globalWidth
    requires Takes(plan.leftHtml, plan.leftWidth + dl) && Takes(plan.valueHtml, plan.valueWidth + dv)
    ensures Takes(Emit(plan, globalWidth), globalWidth + dl + dv)
  {
    hide Takes, Padding;
    var (l, v) := (plan.leftHtml, plan.valueHtml);
    var (lw, vw) := (plan.leftWidth + dl, plan.valueWidth + dv);
    var gap := globalWidth - (plan.leftWidth + plan.valueWidth);
    PaddingTakes(gap);
    TagsTake();
    TakesAppend(DIV_OPEN, 0, l, lw);
    TakesAppend(DIV_OPEN + l, lw, Padding(gap), gap);
    TakesAppend(DIV_OPEN + l + Padding(gap), lw + gap, v, vw);
    TakesAppend(DIV_OPEN + l + Padding(gap) + v, lw + gap + vw, DIV_CLOSE, 0);
  }

  /** The middle is centred beside the value column, so a value no wider than that column always fits. */
  lemma CenterMiddleTakes(plan: Plan, globalWidth: nat, dl: int, dm: int, dv: int)
    requires plan.CenterMiddle? && plan.valueWidth <= plan.valueColumnWidth
    requires plan.leftWidth + plan.middleWidth + plan.valueColumnWidth <= globalWidth
    requires Takes(plan.leftHtml, plan.leftWidth + dl) && Takes(plan.middleHtml, plan.middleWidth + dm)
    requires Takes(plan.valueHtml, plan.valueWidth + dv)
    ensures Takes(Emit(plan, globalWidth), globalWidth + dl + dm + dv)
  {
    hide Takes, Padding;
    var (l, m, v) := (plan.leftHtml, plan.middleHtml, plan.valueHtml);
    var (lw, mw, vw) := (plan.leftWidth + dl, plan.middleWidth + dm, plan.valueWidth + dv);
    var before := (globalWidth - plan.valueColumnWidth - plan.leftWidth - plan.middleWidth) / 2;
    var after := globalWidth - plan.valueWidth - plan.leftWidth - before - plan.middleWidth;
    PaddingTakes(before);
    PaddingTakes(after);
    TagsTake();
    TakesAppend(DIV_OPEN, 0, l, lw);
    TakesAppend(DIV_OPEN + l, lw, Padding(before), before);
    TakesAppend(DIV_OPEN + l + Padding(before), lw + before, m, mw);
    TakesAppend(DIV_OPEN + l + Padding(before) + m, lw + before + mw, Padding(after), after);
    TakesAppend(DIV_OPEN + l + Padding(before) + m + Padding(after), lw + before + mw + after, v, vw);
    TakesAppend(DIV_OPEN + l + Padding(before) + m + Padding(after) + v, lw + before + mw + after + vw, DIV_CLOSE, 0);
  }

  /** Width of a pair of cells, and the share of the row it ends up with. */
  function PairWidth(caption: Cell, value: Cell): nat {
    CellWidth(caption) + CellWidth(value)
  }

  lemma TwoPairTakes(plan: Plan, globalWidth: nat)
    requires plan.TwoPair?
    requires CellClosed(plan.firstLabel) && CellClosed(plan.firstValue)
    requires CellClosed(plan.secondLabel) && CellClosed(plan.secondValue)
    ensures var half := globalWidth / 2;
      Takes(Emit(plan, globalWidth),
            Max(half, PairWidth(plan.firstLabel, plan.firstValue))
            + Max(globalWidth - half, PairWidth(plan.secondLabel, plan.secondValue))
            + Drift(plan.firstLabel) + Drift(plan.firstValue) + Drift(plan.secondLabel) + Drift(plan.secondValue))
  {
    hide Takes, Padding, Span, CellClosed, CellWidth, Drift;
    var half := globalWidth / 2;
    var (a, b, c, d) := (plan.firstLabel, plan.firstValue, plan.secondLabel, plan.secondValue);
    var (aw, bw, cw, dw) := (CellWidth(a) + Drift(a), CellWidth(b) + Drift(b), CellWidth(c) + Drift(c), CellWidth(d) + Drift(d));
    var first := SaturatingSub(half, PairWidth(a, b));
    var second := SaturatingSub(globalWidth - half, PairWidth(c, d));
    SpanTakes(a);
    SpanTakes(b);
    SpanTakes(c);
    SpanTakes(d);
    PaddingTakes(first);
    PaddingTakes(second);
    TagsTake();
    TakesAppend(DIV_OPEN, 0, Span(a), aw);
    TakesAppend(DIV_OPEN + Span(a), aw, Padding(first), first);
    TakesAppend(DIV_OPEN + Span(a) + Padding(first), aw + first, Span(b), bw);
    var left, lw := DIV_OPEN + Span(a) + Padding(first) + Span(b), aw + first + bw;
    TakesAppend(left, lw, Span(c), cw);
    TakesAppend(left + Span(c), lw + cw, Padding(second), second);
    TakesAppend(left + Span(c) + Padding(second), lw + cw + second, Span(d), dw);
    TakesAppend(left + Span(c) + Padding(second) + Span(d), lw + cw + second + dw, DIV_CLOSE, 0);
  }

  // ----- one row of a block

  lemma RowFits(rows: seq<Row>, i: nat)
    requires i < |rows|
    ensures |rows[i]| <= |ColumnWidths(rows)|
    ensures forall j :: 0 <= j < |rows[i]| ==> CellWidth(rows[i][j]) <= ColumnWidths(rows)[j]
  {
    hide CellWidth, ColumnWidth;
    RowsFit(rows, i);
    forall j | 0 <= j < |rows[i]|
      ensures CellWidth(rows[i][j]) <= ColumnWidths(rows)[j]
    {
      RowsFitColumns(rows, i, j);
    }
  }

  lemma {:induction false} SumGrows(widths: seq<nat>, n: nat)
    requires n <= |widths|
    ensures Sum(widths[..n]) <= Sum(widths)
  {
    if n == |widths| {
      assert widths[..n] == widths;
    } else {
      SumGrows(widths[..|widths| - 1], n);
      assert widths[..|widths| - 1][..n] == widths[..n];
    }
  }

  /** The columns to the left of the last cell. */
  lemma LeftColumnsTake(row: Row, widths: seq<nat>, n: nat)
    requires n <= |row| <= |widths| && RowClosed(row)
    requires forall j :: 0 <= j < |row| ==> CellWidth(row[j]) <= widths[j]
    ensures Takes(Columns(row[..n], widths[..n]), Sum(widths[..n]) + RowDrift(row[..n]))
  {
    hide Takes, CellWidth, CellClosed, Columns;
    ColumnsTake(row[..n], widths[..n]);
    assert widths[..n][..n] == widths[..n];
  }

  /** A row with a value at its right end fills the global width exactly. */
  lemma RightValueRowIsExact(rows: seq<Row>, i: nat, globalWidth: nat)
    requires i < |rows| && RowClosed(rows[i])
    requires PlanIn(rows, i).RightValue? && PlanIn(rows, i).NaturalWidth() <= globalWidth
    ensures VisibleWidth(Emit(PlanIn(rows, i), globalWidth)) == globalWidth + RowDrift(rows[i])
  {
    hide Takes, VisibleWidth, Closed, Emit, Columns, Span, ColumnWidth, ValueColumnWidth, CellClosed;
    var row, widths, last := rows[i], ColumnWidths(rows), |rows[i]| - 1;
    RowFits(rows, i);
    LeftColumnsTake(row, widths, last);
    SpanTakes(row[last]);
    RightValueTakes(PlanIn(rows, i), globalWidth, RowDrift(row[..last]), Drift(row[last]));
    TakesVisible(Emit(PlanIn(rows, i), globalWidth), globalWidth + RowDrift(row));
  }

  lemma TakesVisible(html: string, width: int)
    ensures Takes(html, width) ==> VisibleWidth(html) == width
  {
  }

  /** So does a row with a centred middle. */
  lemma CenterMiddleRowIsExact(rows: seq<Row>, i: nat, globalWidth: nat)
    requires i < |rows| && RowClosed(rows[i])
    requires PlanIn(rows, i).CenterMiddle? && PlanIn(rows, i).NaturalWidth() <= globalWidth
    ensures VisibleWidth(Emit(PlanIn(rows, i), globalWidth)) == globalWidth + RowDrift(rows[i])
  {
    hide Takes, VisibleWidth, Closed, Emit, Columns, Span, ColumnWidth, ValueColumnWidth, CellClosed;
    var row, widths := rows[i], ColumnWidths(rows);
    RowFits(rows, i);
    ValueFitsColumn(rows, i);
    LeftColumnsTake(row, widths, 1);
    SpanTakes(row[1]);
    SpanTakes(row[2]);
    assert widths[..1] == [widths[0]] && Sum([widths[0]]) == widths[0];
    CenterMiddleTakes(PlanIn(rows, i), globalWidth, RowDrift(row[..1]), Drift(row[1]), Drift(row[2]));
    assert row[..2][..1] == row[..1];
    assert RowDrift(row) == RowDrift(row[..2]) + Drift(row[2]);
    TakesVisible(Emit(PlanIn(rows, i), globalWidth), globalWidth + RowDrift(row));
  }

  /** Any other row stays within the global width. */
  lemma LeftRowStaysWithin(rows: seq<Row>, i: nat, globalWidth: nat)
    requires i < |rows| && RowClosed(rows[i])
    requires PlanIn(rows, i).LeftPlan? && PlanIn(rows, i).NaturalWidth() <= globalWidth
    ensures VisibleWidth(Emit(PlanIn(rows, i), globalWidth)) <= globalWidth + RowDrift(rows[i])
  {
    hide Takes, VisibleWidth, Closed, Columns, Span, ColumnWidths, ValueColumnWidth, CellClosed, CellWidth, Sum;
    var row, widths, html := rows[i], ColumnWidths(rows), PlanIn(rows, i).html;
    RowFits(rows, i);
    var w := if |row| == 1 then CellWidth(row[0]) else Sum(widths[..|row|]);
    if |row| == 1 {
      SpanTakes(row[0]);
      OneDrift(row);
    } else {
      ColumnsTake(row, widths);
      SumGrows(widths, |row|);
    }
    DivTakes(html, w + RowDrift(row));
    TakesVisible(DIV_OPEN + html + DIV_CLOSE, w + RowDrift(row));
  }

  lemma OneDrift(row: Row)
    requires |row| == 1
    ensures RowDrift(row) == Drift(row[0])
  {
    hide Drift;
    assert row[..0] == [];
  }

  /** A two-pair row is never narrower than the global width, and has it exactly when each pair fits its half. */
  lemma TwoPairRowIsExactIffHalvesFit(rows: seq<Row>, i: nat, globalWidth: nat)
    requires i < |rows| && RowClosed(rows[i]) && PlanIn(rows, i).TwoPair?
    ensures var row, width := rows[i], VisibleWidth(Emit(PlanIn(rows, i), globalWidth));
      && width >= globalWidth + RowDrift(row)
      && (width == globalWidth + RowDrift(row) <==>
            PairWidth(row[0], row[1]) <= globalWidth / 2
            && PairWidth(row[2], row[3]) <= globalWidth - globalWidth / 2)
  {
    hide Takes, VisibleWidth, Closed, Emit, Columns, Span, ColumnWidth, ValueColumnWidth, CellClosed, CellWidth;
    var row, plan := rows[i], PlanIn(rows, i);
    TwoPairTakes(plan, globalWidth);
    FourDrifts(row);
    var half := globalWidth / 2;
    TakesVisible(Emit(plan, globalWidth),
                 Max(half, PairWidth(row[0], row[1])) + Max(globalWidth - half, PairWidth(row[2], row[3])) + RowDrift(row));
  }

  lemma FourDrifts(row: Row)
    requires |row| == 4
    ensures RowDrift(row) == Drift(row[0]) + Drift(row[1]) + Drift(row[2]) + Drift(row[3])
  {
    hide Drift;
    assert row[..3][..2] == row[..2] && row[..2][..1] == row[..1] && row[..1][..0] == [];
    assert RowDrift(row[..3]) == RowDrift(row[..2]) + Drift(row[2]);
    assert RowDrift(row[..2]) == RowDrift(row[..1]) + Drift(row[1]);
  }

  /** The rows of a whole document: at the width the layout itself chooses, every row with a value or a
      centred middle has exactly that width, and every plain row at most that width. */
  lemma DocumentRowsAlign(blocks: seq<Block>, minWidth: nat, b: nat, i: nat)
    requires b < |blocks| && i < |blocks[b].rows| && RowClosed(blocks[b].rows[i])
    ensures var width, plan, drift := GlobalWidth(blocks, minWidth), PlanIn(blocks[b].rows, i), RowDrift(blocks[b].rows[i]);
      var visible := VisibleWidth(Emit(plan, width));
      && (plan.RightValue? || plan.CenterMiddle? ==> visible == width + drift)
      && (plan.LeftPlan? ==> visible <= width + drift)
  {
    hide VisibleWidth, Emit, PlanIn, RowDrift, RowClosed;
    var rows, width := blocks[b].rows, GlobalWidth(blocks, minWidth);
    GlobalWidthBounds(blocks, minWidth, b, i);
    match PlanIn(rows, i)
    case RightValue(_, _, _, _, _) => RightValueRowIsExact(rows, i, width);
    case CenterMiddle(_, _, _, _, _, _, _, _) => CenterMiddleRowIsExact(rows, i, width);
    case LeftPlan(_, _) => LeftRowStaysWithin(rows, i, width);
    case _ =>
  }

  const LOPSIDED: Row := [
    Cell("", None, Left, 10, 0, None), Cell("", None, Right, 5, 0, None),
    Cell("", None, Left, 2, 0, None), Cell("", None, Right, 1, 0, None)]

  /** Two pairs of 15 and 3 in a document of their own: the width chosen is 18, the row shows with 24. */
  lemma LopsidedPairsOverflow()
    ensures RowClosed(LOPSIDED) && RowDrift(LOPSIDED) == 0
    ensures GlobalWidth([Block([LOPSIDED], None)], 0) == 18
    ensures VisibleWidth(Emit(PlanIn([LOPSIDED], 0), 18)) == 24
  {
    var row := LOPSIDED;
    hide Takes, Emit, ColumnWidth, ValueColumnWidth;
    NothingTakes();
    FourDrifts(row);
    assert row[..3][..2] == row[..2] && row[..2][..1] == row[..1] && row[..1][..0] == [];
    assert CellsWidth(row[..1]) == 10 && CellsWidth(row[..2]) == 15 && CellsWidth(row[..3]) == 17;
    var plan := PlanIn([row], 0);
    assert plan.TwoPair? && plan.natural == 18;
    var blocks := [Block([row], None)];
    assert blocks[..0] == [];
    assert WidestRow([row], 1, 0) == Max(WidestRow([row], 0, 0), 18);
    TwoPairTakes(plan, 18);
    TakesVisible(Emit(plan, 18), 24);
  }
}

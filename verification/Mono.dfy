/** The monospace layout of tooltips and vertical panels (src/render/mono.rs): columns are padded to their
    widest cell, and every row is padded to one global width. */
module Mono {
  import opened Arithmetic
  import opened Wrappers
  import opened Html
  import opened RenderModel

  const GAP_OPEN := "<span class=\"gap\">"
  const SPAN_CLOSE := "</span>"
  const DIV_OPEN := "<div>"
  const DIV_CLOSE := "</div>"
  const TITLE_RULE := "<div width=\"100%\" class=\"title-rule\">&nbsp;</div>"

  function Padding(count: nat): string {
    if count == 0 then "" else GAP_OPEN + NonBreakingSpaces(count) + SPAN_CLOSE
  }

  function CellWidth(cell: Cell): nat {
    cell.padLeft + (if cell.layoutWidth.Some? then cell.layoutWidth.value else VisibleWidth(cell.text)) + cell.padRight
  }

  function Span(cell: Cell): string {
    if cell.cssClass.Some? && cell.cssClass.value != ""
    then "<span class=\"" + cell.cssClass.value + "\">" + CellInner(cell) + SPAN_CLOSE
    else CellInner(cell)
  }

  predicate IsTitleRule(cell: Cell) {
    CellRole(cell) == "title-rule"
  }

  predicate IsTwoPair(row: Row) {
    |row| == 4 && row[1].align == Right && row[3].align == Right
  }

  // ----- columns

  function MostCells(rows: seq<Row>): nat {
    if rows == [] then 0 else Max(MostCells(rows[..|rows| - 1]), |rows[|rows| - 1]|)
  }

  /** Width of the widest cell in column `j`. */
  function ColumnWidth(rows: seq<Row>, j: nat): nat {
    if rows == [] then 0
    else
      var last := rows[|rows| - 1];
      var w := ColumnWidth(rows[..|rows| - 1], j);
      if j < |last| then Max(w, CellWidth(last[j])) else w
  }

  function ColumnWidths(rows: seq<Row>): (r: seq<nat>)
    ensures |r| == MostCells(rows)
  {
    seq(MostCells(rows), j requires 0 <= j => ColumnWidth(rows, j))
  }

  method MeasureColumns(block: Block) returns (widths: seq<nat>)
    ensures widths == ColumnWidths(block.rows)
  {
    hide CellWidth;
    var rows := block.rows;
    var count := 0;
    for i := 0 to |rows|
      invariant count == MostCells(rows[..i])
    {
      assert rows[..i + 1][..i] == rows[..i];
      count := Max(count, |rows[i]|);
    }
    assert rows[..|rows|] == rows;
    widths := seq(count, j => 0);
    for i := 0 to |rows|
      invariant |widths| == count
      invariant forall j :: 0 <= j < count ==> widths[j] == ColumnWidth(rows[..i], j)
    {
      assert rows[..i + 1][..i] == rows[..i];
      widths := WidenColumns(widths, rows[i]);
    }
  }

  /** One row's part: each column grows to the row's cell in it. */
  method WidenColumns(widths0: seq<nat>, row: Row) returns (widths: seq<nat>)
    ensures |widths| == |widths0|
    ensures forall j :: 0 <= j < |widths| ==>
      widths[j] == if j < |row| then Max(widths0[j], CellWidth(row[j])) else widths0[j]
  {
    hide CellWidth;
    widths := widths0;
    var j := 0;
    while j < |widths| && j < |row|
      invariant j <= |row| && |widths| == |widths0| && j <= |widths|
      invariant forall k :: 0 <= k < j ==> widths[k] == Max(widths0[k], CellWidth(row[k]))
      invariant forall k :: j <= k < |widths| ==> widths[k] == widths0[k]
    {
      widths := widths[j := Max(widths[j], CellWidth(row[j]))];
      j := j + 1;
    }
  }

  lemma {:induction false} RowsFitColumns(rows: seq<Row>, i: nat, j: nat)
    requires i < |rows| && j < |rows[i]|
    ensures j < MostCells(rows) && CellWidth(rows[i][j]) <= ColumnWidth(rows, j)
    ensures |rows[i]| <= MostCells(rows)
  {
    if i < |rows| - 1 { RowsFitColumns(rows[..|rows| - 1], i, j); }
  }

  lemma {:induction false} RowsFit(rows: seq<Row>, i: nat)
    requires i < |rows|
    ensures |rows[i]| <= MostCells(rows)
  {
    if i < |rows| - 1 { RowsFit(rows[..|rows| - 1], i); }
  }

  function Sum(widths: seq<nat>): nat {
    if widths == [] then 0 else Sum(widths[..|widths| - 1]) + widths[|widths| - 1]
  }

  /** One cell brought to the width of its column. */
  function PaddedCell(cell: Cell, width: nat): string {
    var gap := Padding(SaturatingSub(width, CellWidth(cell)));
    if cell.align == Right then gap + Span(cell) else Span(cell) + gap
  }

  function Columns(cells: Row, widths: seq<nat>): string
    requires |cells| <= |widths|
  {
    if cells == [] then ""
    else
      var last := |cells| - 1;
      Columns(cells[..last], widths) + PaddedCell(cells[last], widths[last])
  }

  method RenderColumns(cells: Row, widths: seq<nat>) returns (html: string, width: nat)
    requires |cells| <= |widths|
    ensures html == Columns(cells, widths) && width == Sum(widths)
  {
    hide CellWidth, Span, Padding;
    html := "";
    for i := 0 to |cells|
      invariant html == Columns(cells[..i], widths)
    {
      assert cells[..i + 1][..i] == cells[..i];
      ghost var before := html;
      var gap := SaturatingSub(widths[i], CellWidth(cells[i]));
      if cells[i].align == Right {
        html := html + Padding(gap);
        html := html + Span(cells[i]);
      } else {
        html := html + Span(cells[i]);
        html := html + Padding(gap);
      }
      assert html == before + PaddedCell(cells[i], widths[i]);
    }
    assert cells[..|cells|] == cells;
    width := 0;
    for i := 0 to |widths|
      invariant width == Sum(widths[..i])
    {
      assert widths[..i + 1][..i] == widths[..i];
      width := width + widths[i];
    }
    assert widths[..|widths|] == widths;
  }

  // ----- plans

  datatype Plan =
    | LeftPlan(natural: nat, html: string)
    | RightValue(natural: nat, leftHtml: string, leftWidth: nat, valueHtml: string, valueWidth: nat)
    | CenterMiddle(natural: nat, leftHtml: string, leftWidth: nat, middleHtml: string, middleWidth: nat,
                   valueHtml: string, valueWidth: nat, valueColumnWidth: nat)
    | TwoPair(natural: nat, firstLabel: Cell, firstValue: Cell, secondLabel: Cell, secondValue: Cell)
    | TitleRule
  {
    function NaturalWidth(): nat {
      if TitleRule? then 0 else natural
    }
  }

  function CellsWidth(row: Row): nat {
    if row == [] then 0 else CellsWidth(row[..|row| - 1]) + CellWidth(row[|row| - 1])
  }

  function PlanRow(row: Row, widths: seq<nat>, valueColumnWidth: nat): Plan
    requires |row| <= |widths|
  {
    var last := |row| - 1;
    if |row| == 3 && row[2].align == Right && row[1].align == Center then
      var (left, middle, value) := (widths[0], CellWidth(row[1]), CellWidth(row[2]));
      CenterMiddle(left + middle + Max(value, valueColumnWidth), Columns(row[..1], widths[..1]), left,
                   Span(row[1]), middle, Span(row[2]), value, valueColumnWidth)
    else if |row| == 1 then
      if IsTitleRule(row[0]) then TitleRule else LeftPlan(CellWidth(row[0]), Span(row[0]))
    else if IsTwoPair(row) then
      TwoPair(CellsWidth(row), row[0], row[1], row[2], row[3])
    else if row != [] && row[last].align == Right then
      RightValue(Sum(widths[..last]) + CellWidth(row[last]), Columns(row[..last], widths[..last]), Sum(widths[..last]),
                 Span(row[last]), CellWidth(row[last]))
    else
      LeftPlan(Sum(widths), Columns(row, widths))
  }

  function Emit(plan: Plan, globalWidth: nat): string {
    match plan
    case TwoPair(_, firstLabel, firstValue, secondLabel, secondValue) =>
      var half := globalWidth / 2;
      var firstGap := SaturatingSub(half, CellWidth(firstLabel) + CellWidth(firstValue));
      var secondGap := SaturatingSub(globalWidth - half, CellWidth(secondLabel) + CellWidth(secondValue));
      DIV_OPEN + Span(firstLabel) + Padding(firstGap) + Span(firstValue)
      + Span(secondLabel) + Padding(secondGap) + Span(secondValue) + DIV_CLOSE
    case RightValue(_, leftHtml, leftWidth, valueHtml, valueWidth) =>
      DIV_OPEN + leftHtml + Padding(SaturatingSub(globalWidth, leftWidth + valueWidth)) + valueHtml + DIV_CLOSE
    case CenterMiddle(_, leftHtml, leftWidth, middleHtml, middleWidth, valueHtml, valueWidth, valueColumnWidth) =>
      var region := SaturatingSub(globalWidth, valueColumnWidth + leftWidth);
      var before := SaturatingSub(region, middleWidth) / 2;
      var after := SaturatingSub(globalWidth, valueWidth + leftWidth + before + middleWidth);
      DIV_OPEN + leftHtml + Padding(before) + middleHtml + Padding(after) + valueHtml + DIV_CLOSE
    case TitleRule => TITLE_RULE
    case LeftPlan(_, html) => DIV_OPEN + html + DIV_CLOSE
  }

  /** The widest value at the right end of a row of several cells. */
  function ValueColumnWidth(rows: seq<Row>): nat {
    if rows == [] then 0
    else
      var last := rows[|rows| - 1];
      var w := ValueColumnWidth(rows[..|rows| - 1]);
      if |last| >= 2 && last[|last| - 1].align == Right then Max(w, CellWidth(last[|last| - 1])) else w
  }

  lemma {:induction false} ValueFitsColumn(rows: seq<Row>, i: nat)
    requires i < |rows| && |rows[i]| >= 2 && rows[i][|rows[i]| - 1].align == Right
    ensures CellWidth(rows[i][|rows[i]| - 1]) <= ValueColumnWidth(rows)
  {
    if i < |rows| - 1 { ValueFitsColumn(rows[..|rows| - 1], i); }
  }

  /** The plan of row `i` of a block. */
  function PlanIn(rows: seq<Row>, i: nat): Plan
    requires i < |rows|
  {
    RowsFit(rows, i);
    PlanRow(rows[i], ColumnWidths(rows), ValueColumnWidth(rows))
  }

  // ----- the global width

  /** The widest of the first `n` rows of a block, and at least `width`. */
  function WidestRow(rows: seq<Row>, n: nat, width: nat): nat
    requires n <= |rows|
  {
    if n == 0 then width else Max(WidestRow(rows, n - 1, width), PlanIn(rows, n - 1).NaturalWidth())
  }

  function GlobalWidth(blocks: seq<Block>, minWidth: nat): nat {
    if blocks == [] then minWidth
    else
      var last := |blocks| - 1;
      WidestRow(blocks[last].rows, |blocks[last].rows|, GlobalWidth(blocks[..last], minWidth))
  }

  lemma {:induction false} WidestRowBounds(rows: seq<Row>, n: nat, width: nat, i: nat)
    requires n <= |rows|
    ensures width <= WidestRow(rows, n, width)
    ensures i < n ==> PlanIn(rows, i).NaturalWidth() <= WidestRow(rows, n, width)
  {
    hide PlanIn, PlanRow;
    if n > 0 { WidestRowBounds(rows, n - 1, width, i); }
  }

  /** No row is wider than the global width. */
  lemma {:induction false} GlobalWidthBounds(blocks: seq<Block>, minWidth: nat, b: nat, i: nat)
    requires b < |blocks| && i < |blocks[b].rows|
    ensures PlanIn(blocks[b].rows, i).NaturalWidth() <= GlobalWidth(blocks, minWidth)
  {
    hide PlanIn, WidestRow;
    var last := |blocks| - 1;
    WidestRowBounds(blocks[last].rows, |blocks[last].rows|, GlobalWidth(blocks[..last], minWidth), i);
    if b < last { GlobalWidthBounds(blocks[..last], minWidth, b, i); }
  }

  method MeasureBlocks(blocks: seq<Block>, minWidth: nat) returns (width: nat)
    ensures width == GlobalWidth(blocks, minWidth)
  {
    hide PlanRow, ColumnWidths, ValueColumnWidth;
    width := minWidth;
    for b := 0 to |blocks|
      invariant width == GlobalWidth(blocks[..b], minWidth)
    {
      assert blocks[..b + 1][..b] == blocks[..b];
      var rows := blocks[b].rows;
      var widths := MeasureColumns(blocks[b]);
      var valueColumnWidth := ValueColumnWidth(rows);
      for i := 0 to |rows|
        invariant width == WidestRow(rows, i, GlobalWidth(blocks[..b], minWidth))
      {
        RowsFit(rows, i);
        width := Max(width, PlanRow(rows[i], widths, valueColumnWidth).NaturalWidth());
      }
    }
    assert blocks[..|blocks|] == blocks;
  }

  // ----- the document

  function SeparatorRule(size: SeparatorSize): string {
    "<div width=\"100%\" class=\"separator-rule-" + (if size == Small then "small" else "big") + "\">&nbsp;</div>"
  }

  /** The first `n` rows of a block, each from its own plan, in order. */
  function RowsHtml(rows: seq<Row>, n: nat, globalWidth: nat): string
    requires n <= |rows|
  {
    if n == 0 then "" else RowsHtml(rows, n - 1, globalWidth) + Emit(PlanIn(rows, n - 1), globalWidth)
  }

  function BlockHtml(block: Block, globalWidth: nat): string {
    (if block.separator.Some? then SeparatorRule(block.separator.value) else "")
    + RowsHtml(block.rows, |block.rows|, globalWidth)
  }

  function Document(blocks: seq<Block>, globalWidth: nat): string {
    if blocks == [] then ""
    else Document(blocks[..|blocks| - 1], globalWidth) + BlockHtml(blocks[|blocks| - 1], globalWidth)
  }

  function Plans(rows: seq<Row>): seq<Plan> {
    seq(|rows|, i requires 0 <= i < |rows| => PlanIn(rows, i))
  }

  datatype LaidOut = LaidOut(separator: Option<SeparatorSize>, plans: seq<Plan>)

  /** Plans every block, finding the global width on the way, then writes all plans out at that width. */
  method RenderBlocksMonospace(blocks: seq<Block>, minWidth: nat) returns (output: string)
    ensures output == Document(blocks, GlobalWidth(blocks, minWidth))
  {
    hide PlanIn, WidestRow, RowsHtml, SeparatorRule, Emit;
    var laidOut := [];
    var width := minWidth;
    for b := 0 to |blocks|
      invariant width == GlobalWidth(blocks[..b], minWidth)
      invariant |laidOut| == b
      invariant forall k :: 0 <= k < b ==> laidOut[k] == LaidOut(blocks[k].separator, Plans(blocks[k].rows))
    {
      assert blocks[..b + 1][..b] == blocks[..b];
      var plans;
      plans, width := PlanBlock(blocks[b], width);
      laidOut := laidOut + [LaidOut(blocks[b].separator, plans)];
    }
    assert blocks[..|blocks|] == blocks;
    output := "";
    for b := 0 to |laidOut|
      invariant output == Document(blocks[..b], width)
    {
      assert blocks[..b + 1][..b] == blocks[..b];
      output := WriteBlock(output, laidOut[b], blocks[b], width);
    }
  }

  method PlanBlock(block: Block, width0: nat) returns (plans: seq<Plan>, width: nat)
    ensures plans == Plans(block.rows)
    ensures width == WidestRow(block.rows, |block.rows|, width0)
  {
    hide PlanRow, ColumnWidths, ValueColumnWidth;
    var rows := block.rows;
    var widths := MeasureColumns(block);
    var valueColumnWidth := ValueColumnWidth(rows);
    plans := [];
    for i := 0 to |rows|
      invariant |plans| == i && forall k :: 0 <= k < i ==> plans[k] == PlanIn(rows, k)
    {
      RowsFit(rows, i);
      plans := plans + [PlanRow(rows[i], widths, valueColumnWidth)];
    }
    width := width0;
    for i := 0 to |plans|
      invariant width == WidestRow(rows, i, width0)
    {
      width := Max(width, plans[i].NaturalWidth());
    }
  }

  method WriteBlock(output0: string, laidOut: LaidOut, ghost block: Block, width: nat) returns (output: string)
    requires laidOut == LaidOut(block.separator, Plans(block.rows))
    ensures output == output0 + BlockHtml(block, width)
  {
    hide PlanIn, SeparatorRule, Emit;
    ghost var rule := if laidOut.separator.Some? then SeparatorRule(laidOut.separator.value) else "";
    output := output0;
    if laidOut.separator.Some? {
      output := output + SeparatorRule(laidOut.separator.value);
    }
    for i := 0 to |laidOut.plans|
      invariant output == output0 + (rule + RowsHtml(block.rows, i, width))
    {
      output := output + Emit(laidOut.plans[i], width);
    }
  }
}

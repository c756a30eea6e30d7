/** What a reader sees of the rows that the monospace layout writes (src/render/mono.rs): the texts of their cells,
    in order, each at the place that its column, its alignment and the width of the document give it. */
module MonoText {
  import opened Arithmetic
  import opened Wrappers
  import opened Html
  import opened RenderModel
  import opened Mono
  import opened MonoWidth

  /** The text of a cell leaves no tag open, and its class cannot close one. */
  predicate CellTagged(cell: Cell) {
    TagsClosed(cell.text) && (cell.cssClass.Some? ==> '>' !in cell.cssClass.value)
  }

  ghost predicate RowTagged(row: Row) {
    forall cell :: cell in row ==> CellTagged(cell)
  }

  function CellText(cell: Cell): string {
    Stripped(CellInner(cell))
  }

  // ----- where a cell stands

  /** The first place behind the first `n` cells. */
  function EndOf(row: Row, starts: seq<nat>, n: nat): nat
    requires n <= |row| <= |starts|
  {
    if n == 0 then 0 else starts[n - 1] + CellWidth(row[n - 1])
  }

  /** The first `n` cells, each from its place on, and non-breaking spaces up to that. */
  function Line(row: Row, starts: seq<nat>, n: nat): string
    requires n <= |row| <= |starts|
  {
    if n == 0 then ""
    else
      var gap := SaturatingSub(starts[n - 1], EndOf(row, starts, n - 1));
      Line(row, starts, n - 1) + NonBreakingSpaces(gap) + CellText(row[n - 1])
  }

  /** Every cell begins where the one before it ends, or later. */
  predicate Apart(row: Row, starts: seq<nat>)
    requires |row| <= |starts|
  {
    forall j :: 0 <= j < |row| ==> EndOf(row, starts, j) <= starts[j]
  }

  /** In columns, a cell stands at the left end of its own, or if right-aligned at the right end. */
  function ColumnStart(row: Row, widths: seq<nat>, j: nat): nat
    requires j < |row| <= |widths|
  {
    Sum(widths[..j]) + if row[j].align == Right then SaturatingSub(widths[j], CellWidth(row[j])) else 0
  }

  predicate IsCentred(row: Row) {
    |row| == 3 && row[2].align == Right && row[1].align == Center
  }

  predicate EndsRight(row: Row) {
    |row| >= 2 && row[|row| - 1].align == Right
  }

  /** Where a cell begins that ends at `end`, or as soon as it can behind `earliest`. */
  function EndingAt(cell: Cell, end: nat, earliest: nat): nat {
    Max(end, earliest + CellWidth(cell)) - CellWidth(cell)
  }

  /** The middle of a centred row stands halfway between the first column and the value column. */
  function MiddleStart(row: Row, widths: seq<nat>, valueColumnWidth: nat, globalWidth: nat): nat
    requires IsCentred(row) && |widths| >= 3
  {
    widths[0] + SaturatingSub(SaturatingSub(globalWidth, valueColumnWidth + widths[0]), CellWidth(row[1])) / 2
  }

  /** Where the first pair of two ends, and the second begins. */
  function PairEnd(row: Row, globalWidth: nat): nat
    requires |row| == 4
  {
    Max(globalWidth / 2, CellWidth(row[0]) + CellWidth(row[1]))
  }

  function CellStart(row: Row, widths: seq<nat>, valueColumnWidth: nat, globalWidth: nat, j: nat): nat
    requires j < |row| <= |widths|
  {
    var last := |row| - 1;
    if IsCentred(row) then
      var middle := MiddleStart(row, widths, valueColumnWidth, globalWidth);
      if j == 0 then ColumnStart(row, widths, 0)
      else if j == 1 then middle
      else EndingAt(row[2], globalWidth, middle + CellWidth(row[1]))
    else if |row| == 1 then 0
    else if |row| == 4 && row[1].align == Right && row[3].align == Right then
      if j == 0 then 0
      else if j == 1 then EndingAt(row[1], PairEnd(row, globalWidth), CellWidth(row[0]))
      else if j == 2 then PairEnd(row, globalWidth)
      else EndingAt(row[3], PairEnd(row, globalWidth) + (globalWidth - globalWidth / 2), PairEnd(row, globalWidth) + CellWidth(row[2]))
    else if EndsRight(row) && j == last then EndingAt(row[last], globalWidth, Sum(widths[..last]))
    else ColumnStart(row, widths, j)
  }

  function CellStarts(row: Row, widths: seq<nat>, valueColumnWidth: nat, globalWidth: nat): (r: seq<nat>)
    requires |row| <= |widths|
    ensures |r| == |row|
  {
    seq(|row|, j requires 0 <= j < |row| => CellStart(row, widths, valueColumnWidth, globalWidth, j))
  }

  /** The rest of the last column; nothing follows a value at the right end, or the cell of a row of one. */
  function Tail(row: Row, widths: seq<nat>, starts: seq<nat>): nat
    requires |row| <= |widths| && |row| <= |starts|
  {
    if |row| <= 1 || EndsRight(row) then 0 else SaturatingSub(Sum(widths[..|row|]), EndOf(row, starts, |row|))
  }

  /** What a row shows. */
  function RowText(row: Row, widths: seq<nat>, valueColumnWidth: nat, globalWidth: nat): string
    requires |row| <= |widths|
  {
    if |row| == 1 && CellRole(row[0]) == "title-rule" then "&nbsp;"
    else
      var starts := CellStarts(row, widths, valueColumnWidth, globalWidth);
      Line(row, starts, |row|) + NonBreakingSpaces(Tail(row, widths, starts))
  }

  // ----- pieces

  ghost predicate ShowsAs(html: string, text: string) {
    TagsClosed(html) && Stripped(html) == text
  }

  lemma ShowsAppend(a: string, ta: string, b: string, tb: string)
    requires ShowsAs(a, ta) && ShowsAs(b, tb)
    ensures ShowsAs(a + b, ta + tb)
  {
    StrippedAppend(a, b);
  }

  lemma PlainShows(s: string)
    requires '<' !in s
    ensures ShowsAs(s, s)
  {
    PlainStays(s);
    PlainClosed(s);
  }

  lemma {:induction false} PlainClosed(s: string)
    requires '<' !in s
    ensures TagsClosed(s)
  {
    if s != [] { PlainClosed(s[1..]); }
  }

  lemma {:induction false} SpacesShow(count: nat)
    ensures '<' !in NonBreakingSpaces(count)
    ensures ShowsAs(NonBreakingSpaces(count), NonBreakingSpaces(count))
  {
    SpacesArePlain(count);
    PlainShows(NonBreakingSpaces(count));
  }

  lemma {:induction false} SpacesArePlain(count: nat)
    ensures '<' !in NonBreakingSpaces(count)
  {
    if count > 0 { SpacesArePlain(count - 1); }
  }

  lemma TagShows(tag: string)
    requires |tag| >= 3 && tag[0] == '<' && Find(tag, '>') == |tag| - 1
    ensures ShowsAs(tag, "")
  {
    hide Find;
    StripOne(tag);
    NothingStripped();
    var k := Find(tag, '>');
    assert tag[k + 1..] == "" && tag[..k + 1] == tag && |tag| != |"<>"|;
    assert TagsClosed(tag[k + 1..]);
  }

  lemma MarkupShows()
    ensures ShowsAs(GAP_OPEN, "") && ShowsAs(SPAN_CLOSE, "") && ShowsAs(DIV_OPEN, "") && ShowsAs(DIV_CLOSE, "")
  {
    hide Find, ShowsAs;
    FindIs(GAP_OPEN, '>', |GAP_OPEN| - 1);
    FindIs(SPAN_CLOSE, '>', |SPAN_CLOSE| - 1);
    FindIs(DIV_OPEN, '>', |DIV_OPEN| - 1);
    FindIs(DIV_CLOSE, '>', |DIV_CLOSE| - 1);
    TagShows(GAP_OPEN);
    TagShows(SPAN_CLOSE);
    TagShows(DIV_OPEN);
    TagShows(DIV_CLOSE);
  }

  lemma PaddingShows(count: nat)
    ensures ShowsAs(Padding(count), NonBreakingSpaces(count))
  {
    hide ShowsAs, NonBreakingSpaces;
    MarkupShows();
    SpacesShow(count);
    PlainShows("");
    if count == 0 {
      NoSpaces();
    } else {
      var spaces := NonBreakingSpaces(count);
      ShowsAppend(GAP_OPEN, "", spaces, spaces);
      ShowsAppend(GAP_OPEN + spaces, "" + spaces, SPAN_CLOSE, "");
      assert "" + spaces + "" == spaces;
    }
  }

  lemma NoSpaces()
    ensures NonBreakingSpaces(0) == ""
  {
  }

  lemma {:induction false} SpacesAdd(a: nat, b: nat)
    ensures NonBreakingSpaces(a) + NonBreakingSpaces(b) == NonBreakingSpaces(a + b)
  {
    if a > 0 {
      SpacesAdd(a - 1, b);
      assert "&nbsp;" + NonBreakingSpaces(a - 1) + NonBreakingSpaces(b) == "&nbsp;" + (NonBreakingSpaces(a - 1) + NonBreakingSpaces(b));
    }
  }

  lemma InnerShows(cell: Cell)
    requires CellTagged(cell)
    ensures ShowsAs(CellInner(cell), CellText(cell))
    ensures CellText(cell) == NonBreakingSpaces(cell.padLeft) + Stripped(cell.text) + NonBreakingSpaces(cell.padRight)
  {
    hide NonBreakingSpaces, Stripped;
    var left, right := NonBreakingSpaces(cell.padLeft), NonBreakingSpaces(cell.padRight);
    SpacesShow(cell.padLeft);
    SpacesShow(cell.padRight);
    ShowsAppend(left, left, cell.text, Stripped(cell.text));
    ShowsAppend(left + cell.text, left + Stripped(cell.text), right, right);
  }

  /** A cell shows its text, whatever its class. */
  lemma SpanShows(cell: Cell)
    requires CellTagged(cell)
    ensures ShowsAs(Span(cell), CellText(cell))
  {
    hide ShowsAs, CellInner, CellText;
    InnerShows(cell);
    if cell.cssClass.Some? && cell.cssClass.value != "" {
      var open, text := "<span class=\"" + cell.cssClass.value + "\">", CellText(cell);
      ClassTagShows(cell.cssClass.value);
      MarkupShows();
      ShowsAppend(open, "", CellInner(cell), text);
      ShowsAppend(open + CellInner(cell), "" + text, SPAN_CLOSE, "");
      assert "" + text + "" == text;
    }
  }

  lemma ClassTagShows(classes: string)
    requires '>' !in classes
    ensures ShowsAs("<span class=\"" + classes + "\">", "")
  {
    hide Find, ShowsAs;
    var tag := "<span class=\"" + classes + "\">";
    var k := |tag| - 1;
    forall i | 0 <= i < k
      ensures tag[i] != '>'
    {
      if 13 <= i < k - 1 { assert tag[i] == classes[i - 13]; }
    }
    FindIs(tag, '>', k);
    TagShows(tag);
  }

  // ----- columns

  lemma PaddedShows(cell: Cell, width: nat)
    requires CellTagged(cell) && CellWidth(cell) <= width
    ensures var gap := NonBreakingSpaces(width - CellWidth(cell));
      ShowsAs(PaddedCell(cell, width), if cell.align == Right then gap + CellText(cell) else CellText(cell) + gap)
  {
    hide ShowsAs, Span, Padding, CellWidth, CellText, NonBreakingSpaces;
    var gap := width - CellWidth(cell);
    SpanShows(cell);
    PaddingShows(gap);
    ShowsAppend(Padding(gap), NonBreakingSpaces(gap), Span(cell), CellText(cell));
    ShowsAppend(Span(cell), CellText(cell), Padding(gap), NonBreakingSpaces(gap));
  }

  /** The first `n` cells stand in their columns. */
  ghost predicate InColumns(row: Row, widths: seq<nat>, starts: seq<nat>, n: nat)
    requires n <= |row| <= |widths| && |row| <= |starts|
  {
    forall j :: 0 <= j < n ==> starts[j] == ColumnStart(row, widths, j) && CellWidth(row[j]) <= widths[j]
  }

  lemma ColumnEnd(row: Row, widths: seq<nat>, starts: seq<nat>, n: nat)
    requires n <= |row| <= |widths| && |row| <= |starts| && InColumns(row, widths, starts, n)
    ensures EndOf(row, starts, n) <= Sum(widths[..n])
    ensures n > 0 ==> Sum(widths[..n]) == Sum(widths[..n - 1]) + widths[n - 1]
    ensures n > 0 ==> EndOf(row, starts, n) == if row[n - 1].align == Right then Sum(widths[..n])
                                               else Sum(widths[..n - 1]) + CellWidth(row[n - 1])
  {
    hide CellWidth;
    if n > 0 { assert widths[..n][..n - 1] == widths[..n - 1]; }
  }

  lemma {:induction false} ColumnsShow(row: Row, widths: seq<nat>, starts: seq<nat>, n: nat)
    requires n <= |row| <= |widths| && |row| <= |starts| && RowTagged(row) && InColumns(row, widths, starts, n)
    ensures EndOf(row, starts, n) <= Sum(widths[..n])
    ensures ShowsAs(Columns(row[..n], widths[..n]), Line(row, starts, n) + NonBreakingSpaces(Sum(widths[..n]) - EndOf(row, starts, n)))
    ensures forall j :: 0 <= j < n ==> EndOf(row, starts, j) <= starts[j]
  {
    hide ShowsAs, CellWidth, CellText, NonBreakingSpaces, PaddedCell, CellTagged, Sum, Columns, EndOf;
    ColumnEnd(row, widths, starts, n);
    if n == 0 {
      PlainShows("");
      NoColumns(row, widths, starts);
    } else {
      var last := n - 1;
      ColumnsShow(row, widths, starts, last);
      ColumnEnd(row, widths, starts, last);
      PaddedShows(row[last], widths[last]);
      OneMoreColumn(row, widths, n);
      var tail, gap := Sum(widths[..last]) - EndOf(row, starts, last), widths[last] - CellWidth(row[last]);
      ShowsAppend(Columns(row[..last], widths[..last]), Line(row, starts, last) + NonBreakingSpaces(tail), PaddedCell(row[last], widths[last]),
                  if row[last].align == Right then NonBreakingSpaces(gap) + CellText(row[last]) else CellText(row[last]) + NonBreakingSpaces(gap));
      ColumnText(row, widths, starts, n, tail, gap);
    }
  }

  lemma NoColumns(row: Row, widths: seq<nat>, starts: seq<nat>)
    requires |row| <= |widths| && |row| <= |starts|
    ensures Columns(row[..0], widths[..0]) == "" && Sum(widths[..0]) == EndOf(row, starts, 0) == 0
    ensures Line(row, starts, 0) + NonBreakingSpaces(0) == ""
  {
  }

  lemma OneMoreColumn(row: Row, widths: seq<nat>, n: nat)
    requires 0 < n <= |row| <= |widths|
    ensures Columns(row[..n], widths[..n]) == Columns(row[..n - 1], widths[..n - 1]) + PaddedCell(row[n - 1], widths[n - 1])
  {
    hide PaddedCell;
    assert row[..n][..n - 1] == row[..n - 1];
    MoreWidths(row[..n - 1], widths[..n], widths[..n - 1]);
  }

  lemma {:induction false} MoreWidths(cells: Row, widths: seq<nat>, fewer: seq<nat>)
    requires |cells| <= |fewer| <= |widths| && fewer == widths[..|fewer|]
    ensures Columns(cells, widths) == Columns(cells, fewer)
  {
    hide PaddedCell;
    if cells != [] { MoreWidths(cells[..|cells| - 1], widths, fewer); }
  }

  lemma ColumnText(row: Row, widths: seq<nat>, starts: seq<nat>, n: nat, tail: nat, gap: nat)
    requires 0 < n <= |row| <= |widths| && |row| <= |starts| && starts[n - 1] == ColumnStart(row, widths, n - 1)
    requires EndOf(row, starts, n - 1) + tail == Sum(widths[..n - 1]) && CellWidth(row[n - 1]) + gap == widths[n - 1]
    requires Sum(widths[..n]) == Sum(widths[..n - 1]) + widths[n - 1]
    ensures var cell := row[n - 1];
      Line(row, starts, n - 1) + NonBreakingSpaces(tail)
        + (if cell.align == Right then NonBreakingSpaces(gap) + CellText(cell) else CellText(cell) + NonBreakingSpaces(gap))
      == Line(row, starts, n) + NonBreakingSpaces(Sum(widths[..n]) - EndOf(row, starts, n))
  {
    hide CellWidth, CellText, NonBreakingSpaces, Sum;
    var line, text := Line(row, starts, n - 1), CellText(row[n - 1]);
    if row[n - 1].align == Right {
      SpacesAdd(tail, gap);
      NoSpaces();
      assert line + NonBreakingSpaces(tail) + (NonBreakingSpaces(gap) + text) == line + (NonBreakingSpaces(tail) + NonBreakingSpaces(gap)) + text;
      assert Line(row, starts, n) + "" == Line(row, starts, n);
    } else {
      assert line + NonBreakingSpaces(tail) + (text + NonBreakingSpaces(gap)) == (line + NonBreakingSpaces(tail) + text) + NonBreakingSpaces(gap);
    }
  }

  // ----- one row

  lemma DivShows(html: string, text: string)
    requires ShowsAs(html, text)
    ensures ShowsAs(DIV_OPEN + html + DIV_CLOSE, text)
  {
    hide ShowsAs;
    MarkupShows();
    ShowsAppend(DIV_OPEN, "", html, text);
    ShowsAppend(DIV_OPEN + html, "" + text, DIV_CLOSE, "");
    assert "" + text + "" == text;
  }

  /** One cell more, behind what stands up to `from` and a padding up to its place. */
  lemma NextCell(row: Row, starts: seq<nat>, n: nat, html: string, from: nat, gap: nat)
    requires n < |row| <= |starts| && CellTagged(row[n])
    requires EndOf(row, starts, n) <= from && starts[n] == from + gap
    requires ShowsAs(html, Line(row, starts, n) + NonBreakingSpaces(from - EndOf(row, starts, n)))
    ensures ShowsAs(html + Padding(gap) + Span(row[n]), Line(row, starts, n + 1))
    ensures EndOf(row, starts, n) <= starts[n]
  {
    hide ShowsAs, CellTagged, CellText, NonBreakingSpaces, Padding, Span, EndOf;
    var tail := from - EndOf(row, starts, n);
    var line := Line(row, starts, n);
    PaddingShows(gap);
    SpanShows(row[n]);
    ShowsAppend(html, line + NonBreakingSpaces(tail), Padding(gap), NonBreakingSpaces(gap));
    ShowsAppend(html + Padding(gap), line + NonBreakingSpaces(tail) + NonBreakingSpaces(gap), Span(row[n]), CellText(row[n]));
    SpacesAdd(tail, gap);
    assert line + NonBreakingSpaces(tail) + NonBreakingSpaces(gap) == line + NonBreakingSpaces(tail + gap);
  }

  /** The same directly behind the cell before. */
  lemma CellBehind(row: Row, starts: seq<nat>, n: nat, html: string, gap: nat)
    requires n < |row| <= |starts| && CellTagged(row[n])
    requires starts[n] == EndOf(row, starts, n) + gap && ShowsAs(html, Line(row, starts, n))
    ensures ShowsAs(html + Padding(gap) + Span(row[n]), Line(row, starts, n + 1))
    ensures EndOf(row, starts, n) <= starts[n]
  {
    hide ShowsAs, CellTagged, CellText, Line, EndOf;
    NoSpaces();
    assert Line(row, starts, n) + "" == Line(row, starts, n);
    NextCell(row, starts, n, html, EndOf(row, starts, n), gap);
  }

  /** The row and its columns: every cell fits its own. */
  ghost predicate Fitting(row: Row, widths: seq<nat>) {
    |row| <= |widths| && forall j :: 0 <= j < |row| ==> CellWidth(row[j]) <= widths[j]
  }

  lemma RightValueStarts(row: Row, widths: seq<nat>, valueColumnWidth: nat, globalWidth: nat)
    requires Fitting(row, widths) && EndsRight(row) && !IsCentred(row) && !IsTwoPair(row)
    ensures var last, starts := |row| - 1, CellStarts(row, widths, valueColumnWidth, globalWidth);
      && InColumns(row, widths, starts, last)
      && starts[last] == Sum(widths[..last]) + SaturatingSub(globalWidth, Sum(widths[..last]) + CellWidth(row[last]))
  {
    hide CellWidth, Sum, ColumnStart;
  }

  lemma RightValueIs(row: Row, widths: seq<nat>, valueColumnWidth: nat, globalWidth: nat)
    requires |row| <= |widths| && EndsRight(row) && !IsCentred(row) && !IsTwoPair(row)
    ensures var last := |row| - 1;
      var gap := SaturatingSub(globalWidth, Sum(widths[..last]) + CellWidth(row[last]));
      Emit(PlanRow(row, widths, valueColumnWidth), globalWidth)
        == DIV_OPEN + Columns(row[..last], widths[..last]) + Padding(gap) + Span(row[last]) + DIV_CLOSE
  {
    hide CellWidth, Columns, Sum, Span, Padding;
  }

  lemma ThreeConcatenate(a: string, b: string, c: string)
    ensures DIV_OPEN + (a + b + c) + DIV_CLOSE == DIV_OPEN + a + b + c + DIV_CLOSE
  {
  }

  lemma RightValueShows(row: Row, widths: seq<nat>, valueColumnWidth: nat, globalWidth: nat)
    requires RowTagged(row) && Fitting(row, widths) && EndsRight(row) && !IsCentred(row) && !IsTwoPair(row)
    ensures var starts := CellStarts(row, widths, valueColumnWidth, globalWidth);
      Apart(row, starts) && ShowsAs(Emit(PlanRow(row, widths, valueColumnWidth), globalWidth), Line(row, starts, |row|))
  {
    hide ShowsAs, CellTagged, CellText, NonBreakingSpaces, Padding, Span, CellWidth, Line, EndOf, Columns, Sum;
    hide CellStarts, PlanRow, Emit, ColumnStart, IsCentred, IsTwoPair;
    var last, starts := |row| - 1, CellStarts(row, widths, valueColumnWidth, globalWidth);
    RightValueStarts(row, widths, valueColumnWidth, globalWidth);
    RightValueIs(row, widths, valueColumnWidth, globalWidth);
    var left, leftWidth, value := Columns(row[..last], widths[..last]), Sum(widths[..last]), CellWidth(row[last]);
    var gap := SaturatingSub(globalWidth, leftWidth + value);
    ColumnsShow(row, widths, starts, last);
    NextCell(row, starts, last, left, leftWidth, gap);
    DivShows(left + Padding(gap) + Span(row[last]), Line(row, starts, |row|));
    ThreeConcatenate(left, Padding(gap), Span(row[last]));
  }

  lemma CentredShows(row: Row, widths: seq<nat>, valueColumnWidth: nat, globalWidth: nat)
    requires RowTagged(row) && Fitting(row, widths) && IsCentred(row)
    ensures var starts := CellStarts(row, widths, valueColumnWidth, globalWidth);
      Apart(row, starts) && ShowsAs(Emit(PlanRow(row, widths, valueColumnWidth), globalWidth), Line(row, starts, 3))
  {
    hide ShowsAs, CellTagged, CellText, NonBreakingSpaces, Padding, Span, CellWidth, Line, Columns;
    var starts := CellStarts(row, widths, valueColumnWidth, globalWidth);
    var left, middle, value := Columns(row[..1], widths[..1]), CellWidth(row[1]), CellWidth(row[2]);
    OneWidth(widths);
    var before := SaturatingSub(SaturatingSub(globalWidth, valueColumnWidth + widths[0]), middle) / 2;
    var after := SaturatingSub(globalWidth, value + widths[0] + before + middle);
    ColumnsShow(row, widths, starts, 1);
    NextCell(row, starts, 1, left, widths[0], before);
    var two := left + Padding(before) + Span(row[1]);
    CellBehind(row, starts, 2, two, after);
    DivShows(two + Padding(after) + Span(row[2]), Line(row, starts, 3));
    assert DIV_OPEN + (two + Padding(after) + Span(row[2])) + DIV_CLOSE
        == DIV_OPEN + left + Padding(before) + Span(row[1]) + Padding(after) + Span(row[2]) + DIV_CLOSE;
  }

  lemma OneWidth(widths: seq<nat>)
    requires |widths| > 0
    ensures Sum(widths[..1]) == widths[0] && Sum(widths[..0]) == 0
  {
    assert widths[..1][..0] == widths[..0];
  }

  function PairGap(row: Row, k: nat, width: nat): nat
    requires k + 1 < |row|
  {
    SaturatingSub(width, CellWidth(row[k]) + CellWidth(row[k + 1]))
  }

  lemma TwoPairStarts(row: Row, widths: seq<nat>, valueColumnWidth: nat, globalWidth: nat)
    requires |row| <= |widths| && IsTwoPair(row)
    ensures var starts := CellStarts(row, widths, valueColumnWidth, globalWidth);
      && starts[0] == 0
      && starts[1] == EndOf(row, starts, 1) + PairGap(row, 0, globalWidth / 2)
      && starts[2] == EndOf(row, starts, 2)
      && starts[3] == EndOf(row, starts, 3) + PairGap(row, 2, globalWidth - globalWidth / 2)
  {
    hide CellWidth;
  }

  lemma TwoPairIs(row: Row, widths: seq<nat>, valueColumnWidth: nat, globalWidth: nat)
    requires |row| <= |widths| && IsTwoPair(row)
    ensures Emit(PlanRow(row, widths, valueColumnWidth), globalWidth)
         == DIV_OPEN + Span(row[0]) + Padding(PairGap(row, 0, globalWidth / 2)) + Span(row[1])
            + Span(row[2]) + Padding(PairGap(row, 2, globalWidth - globalWidth / 2)) + Span(row[3]) + DIV_CLOSE
  {
    hide CellWidth, Span, Padding;
  }

  lemma ApartFour(row: Row, starts: seq<nat>)
    requires |row| == 4 <= |starts|
    requires EndOf(row, starts, 0) <= starts[0] && EndOf(row, starts, 1) <= starts[1]
    requires EndOf(row, starts, 2) <= starts[2] && EndOf(row, starts, 3) <= starts[3]
    ensures Apart(row, starts)
  {
    hide EndOf;
  }

  /** A pair of cells with a gap between, directly behind what stands there. */
  lemma PairShows(row: Row, starts: seq<nat>, k: nat, html: string, gap: nat)
    requires k + 1 < |row| <= |starts| && CellTagged(row[k]) && CellTagged(row[k + 1])
    requires starts[k] == EndOf(row, starts, k) && starts[k + 1] == EndOf(row, starts, k + 1) + gap
    requires ShowsAs(html, Line(row, starts, k))
    ensures ShowsAs(html + Span(row[k]) + Padding(gap) + Span(row[k + 1]), Line(row, starts, k + 2))
  {
    hide ShowsAs, CellTagged, CellText, NonBreakingSpaces, Span, CellWidth, Line, EndOf;
    CellBehind(row, starts, k, html, 0);
    NoPadding();
    assert html + "" + Span(row[k]) == html + Span(row[k]);
    hide Padding;
    CellBehind(row, starts, k + 1, html + Span(row[k]), gap);
  }

  lemma FourShow(row: Row, starts: seq<nat>, first: nat, second: nat)
    requires RowTagged(row) && |row| == 4 <= |starts|
    requires starts[0] == 0 && starts[1] == EndOf(row, starts, 1) + first
    requires starts[2] == EndOf(row, starts, 2) && starts[3] == EndOf(row, starts, 3) + second
    ensures Apart(row, starts)
    ensures ShowsAs("" + Span(row[0]) + Padding(first) + Span(row[1]) + Span(row[2]) + Padding(second) + Span(row[3]), Line(row, starts, 4))
  {
    hide ShowsAs, CellTagged, Padding, Span, Line, Apart;
    PlainShows("");
    NoLine(row, starts);
    hide EndOf;
    PairShows(row, starts, 0, "", first);
    PairShows(row, starts, 2, "" + Span(row[0]) + Padding(first) + Span(row[1]), second);
    ApartFour(row, starts);
  }

  lemma TwoPairShows(row: Row, widths: seq<nat>, valueColumnWidth: nat, globalWidth: nat)
    requires RowTagged(row) && |row| <= |widths| && IsTwoPair(row)
    ensures var starts := CellStarts(row, widths, valueColumnWidth, globalWidth);
      Apart(row, starts) && ShowsAs(Emit(PlanRow(row, widths, valueColumnWidth), globalWidth), Line(row, starts, 4))
  {
    hide ShowsAs, RowTagged, Padding, Span, Line, EndOf, CellStarts, PlanRow, Emit, PairGap, Apart;
    var starts := CellStarts(row, widths, valueColumnWidth, globalWidth);
    var first, second := PairGap(row, 0, globalWidth / 2), PairGap(row, 2, globalWidth - globalWidth / 2);
    TwoPairStarts(row, widths, valueColumnWidth, globalWidth);
    TwoPairIs(row, widths, valueColumnWidth, globalWidth);
    FourShow(row, starts, first, second);
    var html := "" + Span(row[0]) + Padding(first) + Span(row[1]) + Span(row[2]) + Padding(second) + Span(row[3]);
    DivShows(html, Line(row, starts, 4));
    PairsConcatenate(Span(row[0]), Padding(first), Span(row[1]), Span(row[2]), Padding(second), Span(row[3]));
  }

  lemma PairsConcatenate(a: string, g: string, b: string, c: string, h: string, d: string)
    ensures DIV_OPEN + ("" + a + g + b + c + h + d) + DIV_CLOSE == DIV_OPEN + a + g + b + c + h + d + DIV_CLOSE
  {
  }

  lemma NoLine(row: Row, starts: seq<nat>)
    requires |row| <= |starts|
    ensures Line(row, starts, 0) == "" && EndOf(row, starts, 0) == 0
  {
  }

  lemma NoPadding()
    ensures Padding(0) == ""
  {
  }

  lemma SingleShows(row: Row, widths: seq<nat>, valueColumnWidth: nat, globalWidth: nat)
    requires RowTagged(row) && |row| == 1 <= |widths| && !IsTitleRule(row[0])
    ensures var starts := CellStarts(row, widths, valueColumnWidth, globalWidth);
      Apart(row, starts) && ShowsAs(Emit(PlanRow(row, widths, valueColumnWidth), globalWidth), Line(row, starts, 1))
  {
    hide ShowsAs, CellTagged, CellText, NonBreakingSpaces, Padding, Span, CellWidth, Line, IsTitleRule;
    var starts := CellStarts(row, widths, valueColumnWidth, globalWidth);
    PlainShows("");
    NoLine(row, starts);
    assert "" + Padding(0) + Span(row[0]) == Span(row[0]) by { NoPadding(); }
    CellBehind(row, starts, 0, "", 0);
    DivShows(Span(row[0]), Line(row, starts, 1));
  }

  lemma ColumnRowIs(row: Row, widths: seq<nat>, valueColumnWidth: nat, globalWidth: nat)
    requires Fitting(row, widths) && |row| != 1 && !EndsRight(row)
    ensures InColumns(row, widths, CellStarts(row, widths, valueColumnWidth, globalWidth), |row|)
    ensures Emit(PlanRow(row, widths, valueColumnWidth), globalWidth) == DIV_OPEN + Columns(row, widths) + DIV_CLOSE
  {
    hide CellWidth, Columns, Sum, ColumnStart;
  }

  lemma ColumnBodyShows(row: Row, widths: seq<nat>, starts: seq<nat>)
    requires RowTagged(row) && |row| <= |widths| && |row| <= |starts| && InColumns(row, widths, starts, |row|)
    ensures Apart(row, starts) && EndOf(row, starts, |row|) <= Sum(widths[..|row|])
    ensures ShowsAs(Columns(row, widths),
                    Line(row, starts, |row|) + NonBreakingSpaces(Sum(widths[..|row|]) - EndOf(row, starts, |row|)))
  {
    hide ShowsAs, RowTagged, InColumns, NonBreakingSpaces, Line, Columns, EndOf, Sum;
    ColumnsShow(row, widths, starts, |row|);
    assert row[..|row|] == row;
    MoreWidths(row, widths, widths[..|row|]);
  }

  lemma TailIs(row: Row, widths: seq<nat>, starts: seq<nat>)
    requires |row| <= |widths| && |row| <= |starts| && |row| != 1 && !EndsRight(row) && EndOf(row, starts, |row|) <= Sum(widths[..|row|])
    ensures Tail(row, widths, starts) == Sum(widths[..|row|]) - EndOf(row, starts, |row|)
  {
    hide CellWidth;
  }

  lemma ColumnRowShows(row: Row, widths: seq<nat>, valueColumnWidth: nat, globalWidth: nat)
    requires RowTagged(row) && Fitting(row, widths) && |row| != 1 && !EndsRight(row)
    ensures var starts := CellStarts(row, widths, valueColumnWidth, globalWidth);
      && Apart(row, starts)
      && ShowsAs(Emit(PlanRow(row, widths, valueColumnWidth), globalWidth),
                 Line(row, starts, |row|) + NonBreakingSpaces(Tail(row, widths, starts)))
  {
    hide ShowsAs, RowTagged, NonBreakingSpaces, CellWidth, Line, Columns, EndOf, Sum, CellStarts, PlanRow, Emit, InColumns, Apart, Tail, EndsRight;
    var starts := CellStarts(row, widths, valueColumnWidth, globalWidth);
    ColumnRowIs(row, widths, valueColumnWidth, globalWidth);
    ColumnBodyShows(row, widths, starts);
    TailIs(row, widths, starts);
    DivShows(Columns(row, widths), Line(row, starts, |row|) + NonBreakingSpaces(Tail(row, widths, starts)));
  }

  /** A rule of one space inside a tag. */
  lemma RuleShows(open: string)
    requires ShowsAs(open, "")
    ensures ShowsAs(open + "&nbsp;" + DIV_CLOSE, "&nbsp;")
  {
    hide ShowsAs;
    MarkupShows();
    PlainShows("&nbsp;");
    ShowsAppend(open, "", "&nbsp;", "&nbsp;");
    ShowsAppend(open + "&nbsp;", "" + "&nbsp;", DIV_CLOSE, "");
    assert "" + "&nbsp;" + "" == "&nbsp;";
  }

  lemma TitleRuleShows()
    ensures ShowsAs(TITLE_RULE, "&nbsp;")
  {
    hide ShowsAs, Find;
    var open := "<div width=\"100%\" class=\"title-rule\">";
    FindIs(open, '>', |open| - 1);
    TagShows(open);
    RuleShows(open);
    assert TITLE_RULE == open + "&nbsp;" + DIV_CLOSE;
  }

  // ----- results

  /** What a row of a block shows, written at any width: the texts of its cells, in order, and non-breaking spaces
      only between them and behind the last; every cell stands where its column, its alignment and that width put
      it, and none begins before the one in front of it ends. A title rule shows one such space. */
  lemma RowShows(rows: seq<Row>, i: nat, globalWidth: nat)
    requires i < |rows| && RowTagged(rows[i])
    ensures var row, widths, valueColumnWidth := rows[i], ColumnWidths(rows), ValueColumnWidth(rows);
      && |row| <= |widths|
      && TagsClosed(Emit(PlanIn(rows, i), globalWidth))
      && Stripped(Emit(PlanIn(rows, i), globalWidth)) == RowText(row, widths, valueColumnWidth, globalWidth)
      && ((|row| == 1 && IsTitleRule(row[0])) || Apart(row, CellStarts(row, widths, valueColumnWidth, globalWidth)))
  {
    hide Stripped, TagsClosed, Emit, CellTagged, CellStarts, Line, Apart, CellWidth, ColumnWidths, ValueColumnWidth, NonBreakingSpaces, PlanRow;
    var row, widths, valueColumnWidth := rows[i], ColumnWidths(rows), ValueColumnWidth(rows);
    RowFits(rows, i);
    var starts := CellStarts(row, widths, valueColumnWidth, globalWidth);
    NoSpaces();
    assert Line(row, starts, |row|) + "" == Line(row, starts, |row|);
    if |row| == 1 && IsTitleRule(row[0]) {
      TitleRuleShows();
      TitleRuleIs(row, widths, valueColumnWidth, globalWidth);
    } else if |row| == 1 {
      SingleShows(row, widths, valueColumnWidth, globalWidth);
    } else if IsCentred(row) {
      CentredShows(row, widths, valueColumnWidth, globalWidth);
    } else if IsTwoPair(row) {
      TwoPairShows(row, widths, valueColumnWidth, globalWidth);
    } else if EndsRight(row) {
      RightValueShows(row, widths, valueColumnWidth, globalWidth);
    } else {
      ColumnRowShows(row, widths, valueColumnWidth, globalWidth);
    }
  }

  lemma TitleRuleIs(row: Row, widths: seq<nat>, valueColumnWidth: nat, globalWidth: nat)
    requires |row| == 1 <= |widths| && IsTitleRule(row[0])
    ensures Emit(PlanRow(row, widths, valueColumnWidth), globalWidth) == TITLE_RULE
  {
    hide IsTitleRule;
  }

  /** The value at the right end is the last thing its row shows, and ends at the width of the document. */
  lemma ValueEndsRow(rows: seq<Row>, i: nat, globalWidth: nat)
    requires i < |rows| && EndsRight(rows[i]) && PlanIn(rows, i).NaturalWidth() <= globalWidth
    requires !IsTwoPair(rows[i])
    ensures var row, widths, last := rows[i], ColumnWidths(rows), |rows[i]| - 1;
      && |row| <= |widths|
      && var starts := CellStarts(row, widths, ValueColumnWidth(rows), globalWidth);
      && RowText(row, widths, ValueColumnWidth(rows), globalWidth)
           == Line(row, starts, last) + NonBreakingSpaces(SaturatingSub(starts[last], EndOf(row, starts, last))) + CellText(row[last])
      && starts[last] + CellWidth(row[last]) == globalWidth
  {
    hide CellWidth, CellText, NonBreakingSpaces, ColumnWidth, ValueColumnWidth, Columns, Span, CellRole, Sum;
    var row, widths, last := rows[i], ColumnWidths(rows), |rows[i]| - 1;
    RowsFit(rows, i);
    var starts := CellStarts(row, widths, ValueColumnWidth(rows), globalWidth);
    NoSpaces();
    assert Line(row, starts, |row|) + "" == Line(row, starts, |row|);
    if IsCentred(row) { ValueFitsColumn(rows, i); }
  }

  /** The cell is laid out in a column of its block: it is no value at the right end, no middle, none of two pairs and
      not alone in its row. */
  predicate InColumn(row: Row, j: nat)
    requires j < |row|
  {
    |row| >= 2 && !(IsCentred(row) && j == 1) && !IsTwoPair(row) && !(EndsRight(row) && j == |row| - 1)
  }

  /** Cells of one column line up over all rows of a block, with their beginnings, or if right-aligned with their ends. */
  lemma ColumnsLineUp(rows: seq<Row>, i: nat, k: nat, j: nat, globalWidth: nat)
    requires i < |rows| && k < |rows| && j < |rows[i]| && j < |rows[k]| && InColumn(rows[i], j) && InColumn(rows[k], j)
    requires (rows[i][j].align == Right) == (rows[k][j].align == Right)
    ensures var widths, w := ColumnWidths(rows), ValueColumnWidth(rows);
      && |rows[i]| <= |widths| && |rows[k]| <= |widths|
      && var a, b := CellStart(rows[i], widths, w, globalWidth, j), CellStart(rows[k], widths, w, globalWidth, j);
      if rows[i][j].align == Right then a + CellWidth(rows[i][j]) == b + CellWidth(rows[k][j]) else a == b
  {
    hide CellWidth, ColumnWidths, ValueColumnWidth, Sum;
    RowFits(rows, i);
    RowFits(rows, k);
  }

  /** The middle of a centred row leaves as much room in front of it as behind it, up to one place, between the first
      column and the value column of the block. */
  lemma MiddleIsCentred(rows: seq<Row>, i: nat, globalWidth: nat)
    requires i < |rows| && IsCentred(rows[i]) && PlanIn(rows, i).NaturalWidth() <= globalWidth
    ensures var row, widths, w := rows[i], ColumnWidths(rows), ValueColumnWidth(rows);
      && |widths| >= 3 && widths[0] + w <= globalWidth
      && var start := CellStart(row, widths, w, globalWidth, 1);
      var before, behind := start - widths[0], (globalWidth - w) - (start + CellWidth(row[1]));
      0 <= before && 0 <= behind - before <= 1
  {
    hide CellWidth, ColumnWidth, ValueColumnWidth, Columns, Span, CellRole, Sum;
    RowsFit(rows, i);
    ValueFitsColumn(rows, i);
  }

  // ----- the document

  function BlockText(block: Block, globalWidth: nat, n: nat): string
    requires n <= |block.rows|
  {
    if n == 0 then (if block.separator.Some? then "&nbsp;" else "")
    else
      RowFits(block.rows, n - 1);
      BlockText(block, globalWidth, n - 1)
      + RowText(block.rows[n - 1], ColumnWidths(block.rows), ValueColumnWidth(block.rows), globalWidth)
  }

  function DocumentText(blocks: seq<Block>, globalWidth: nat): string {
    if blocks == [] then ""
    else
      var block := blocks[|blocks| - 1];
      DocumentText(blocks[..|blocks| - 1], globalWidth) + BlockText(block, globalWidth, |block.rows|)
  }

  ghost predicate BlockTagged(block: Block) {
    forall row :: row in block.rows ==> RowTagged(row)
  }

  lemma SeparatorShows(size: SeparatorSize)
    ensures ShowsAs(SeparatorRule(size), "&nbsp;")
  {
    hide ShowsAs, SeparatorRule;
    var name := if size == Small then "small" else "big";
    SeparatorIs(size, name);
    ClassOpens(SEPARATOR_OPEN, name);
    RuleShows(SEPARATOR_OPEN + name + "\">");
  }

  const SEPARATOR_OPEN := "<div width=\"100%\" class=\"separator-rule-"

  lemma SeparatorIs(size: SeparatorSize, name: string)
    requires name == if size == Small then "small" else "big"
    ensures SeparatorRule(size) == SEPARATOR_OPEN + name + "\">" + "&nbsp;" + DIV_CLOSE
    ensures '>' !in name && '>' !in SEPARATOR_OPEN && SEPARATOR_OPEN[0] == '<'
  {
    assert '>' !in name;
    RuleEnd(SEPARATOR_OPEN + name);
  }

  lemma RuleEnd(open: string)
    ensures open + "\">&nbsp;</div>" == open + "\">" + "&nbsp;" + DIV_CLOSE
  {
    assert "\">&nbsp;</div>" == "\">" + "&nbsp;" + DIV_CLOSE;
  }

  lemma ClassOpens(prefix: string, name: string)
    requires prefix != "" && prefix[0] == '<' && '>' !in prefix && '>' !in name
    ensures ShowsAs(prefix + name + "\">", "")
  {
    hide Find, ShowsAs;
    var tag := prefix + name + "\">";
    var k := |tag| - 1;
    assert tag == (prefix + name) + "\">";
    forall i | 0 <= i < k
      ensures tag[i] != '>'
    {
      if i < |prefix| {
        assert tag[i] == prefix[i];
      } else if i < |prefix| + |name| {
        assert tag[i] == name[i - |prefix|];
      }
    }
    FindIs(tag, '>', k);
    TagShows(tag);
  }

  lemma {:induction false} RowsShow(block: Block, globalWidth: nat, n: nat)
    requires n <= |block.rows| && BlockTagged(block)
    ensures ShowsAs((if block.separator.Some? then SeparatorRule(block.separator.value) else "") + RowsHtml(block.rows, n, globalWidth),
                    BlockText(block, globalWidth, n))
  {
    hide ShowsAs, SeparatorRule, Emit, RowText, ColumnWidths, ValueColumnWidth, PlanIn, RowTagged;
    var rule := if block.separator.Some? then SeparatorRule(block.separator.value) else "";
    if n == 0 {
      PlainShows("");
      if block.separator.Some? { SeparatorShows(block.separator.value); }
      assert rule + "" == rule;
    } else {
      var row, html := block.rows[n - 1], RowsHtml(block.rows, n - 1, globalWidth);
      assert row in block.rows;
      RowsShow(block, globalWidth, n - 1);
      RowShows(block.rows, n - 1, globalWidth);
      var text := RowText(row, ColumnWidths(block.rows), ValueColumnWidth(block.rows), globalWidth);
      assert ShowsAs(Emit(PlanIn(block.rows, n - 1), globalWidth), text) by { RowShowsAs(block.rows, n - 1, globalWidth); }
      ShowsAppend(rule + html, BlockText(block, globalWidth, n - 1), Emit(PlanIn(block.rows, n - 1), globalWidth), text);
      assert (rule + html) + Emit(PlanIn(block.rows, n - 1), globalWidth) == rule + (html + Emit(PlanIn(block.rows, n - 1), globalWidth));
    }
  }

  lemma RowShowsAs(rows: seq<Row>, i: nat, globalWidth: nat)
    requires i < |rows| && RowTagged(rows[i])
    ensures |rows[i]| <= |ColumnWidths(rows)|
    ensures ShowsAs(Emit(PlanIn(rows, i), globalWidth), RowText(rows[i], ColumnWidths(rows), ValueColumnWidth(rows), globalWidth))
  {
    hide Stripped, TagsClosed, Emit, RowText, RowTagged, PlanIn, ColumnWidths;
    RowShows(rows, i, globalWidth);
  }

  /** A whole document shows its rows in order, block by block, and one space for every separator. */
  lemma {:induction false} DocumentShows(blocks: seq<Block>, globalWidth: nat)
    requires forall block :: block in blocks ==> BlockTagged(block)
    ensures TagsClosed(Document(blocks, globalWidth))
    ensures Stripped(Document(blocks, globalWidth)) == DocumentText(blocks, globalWidth)
  {
    hide Stripped, TagsClosed, BlockHtml, BlockText, BlockTagged;
    if blocks == [] {
      assert ShowsAs("", "") by { PlainShows(""); }
    } else {
      var front, block := blocks[..|blocks| - 1], blocks[|blocks| - 1];
      DocumentShows(front, globalWidth);
      BlockShows(block, globalWidth);
      ShowsAppend(Document(front, globalWidth), DocumentText(front, globalWidth),
                  BlockHtml(block, globalWidth), BlockText(block, globalWidth, |block.rows|));
    }
  }

  lemma BlockShows(block: Block, globalWidth: nat)
    requires BlockTagged(block)
    ensures ShowsAs(BlockHtml(block, globalWidth), BlockText(block, globalWidth, |block.rows|))
  {
    hide ShowsAs, SeparatorRule, RowsHtml, BlockText, BlockTagged;
    RowsShow(block, globalWidth, |block.rows|);
  }

  // ----- classes

  ghost predicate Contains(html: string, part: string) {
    exists a: string, b: string :: html == a + part + b
  }

  lemma ContainsIn(a: string, html: string, b: string, part: string)
    requires Contains(html, part)
    ensures Contains(a + html + b, part)
  {
    var x: string, y: string :| html == x + part + y;
    assert a + html + b == (a + x) + part + (y + b);
  }

  lemma ContainsOwn(a: string, part: string, b: string)
    ensures Contains(a + part + b, part)
  {
  }

  /** The cell's text inside an element of its class. */
  function Classed(cell: Cell): string
    requires cell.cssClass.Some?
  {
    "<span class=\"" + cell.cssClass.value + "\">" + CellInner(cell) + "</span>"
  }

  lemma SpanIsClassed(cell: Cell)
    requires cell.cssClass.Some? && cell.cssClass.value != ""
    ensures Span(cell) == Classed(cell)
  {
    hide CellInner;
  }

  lemma {:induction false} ColumnsContain(cells: Row, widths: seq<nat>, j: nat)
    requires j < |cells| <= |widths|
    ensures Contains(Columns(cells, widths), Span(cells[j]))
  {
    hide Contains, PaddedCell;
    var last := |cells| - 1;
    if j < last {
      ColumnsContain(cells[..last], widths, j);
      ContainsIn("", Columns(cells[..last], widths), PaddedCell(cells[last], widths[last]), Span(cells[j]));
      assert "" + Columns(cells[..last], widths) + PaddedCell(cells[last], widths[last]) == Columns(cells, widths);
    } else {
      PaddedContains(cells[last], widths[last]);
      ContainsIn(Columns(cells[..last], widths), PaddedCell(cells[last], widths[last]), "", Span(cells[j]));
      assert Columns(cells[..last], widths) + PaddedCell(cells[last], widths[last]) + "" == Columns(cells, widths);
    }
  }

  lemma PaddedContains(cell: Cell, width: nat)
    ensures Contains(PaddedCell(cell, width), Span(cell))
  {
    hide Contains, Span, Padding, CellWidth;
    var gap := Padding(SaturatingSub(width, CellWidth(cell)));
    ContainsOwn(gap, Span(cell), "");
    ContainsOwn("", Span(cell), gap);
    assert gap + Span(cell) + "" == gap + Span(cell) && "" + Span(cell) + gap == Span(cell) + gap;
  }

  /** Every cell of a row that has a class is written inside an element of that class, unless it is a title rule. */
  lemma RowKeepsClasses(rows: seq<Row>, i: nat, globalWidth: nat, j: nat)
    requires i < |rows| && j < |rows[i]| && rows[i][j].cssClass.Some? && rows[i][j].cssClass.value != ""
    requires !(|rows[i]| == 1 && IsTitleRule(rows[i][0]))
    ensures Contains(Emit(PlanIn(rows, i), globalWidth), Classed(rows[i][j]))
  {
    hide Contains, Span, Padding, Columns, PlanRow, Emit, CellWidth, ColumnWidths, ValueColumnWidth, Sum, Classed, IsTitleRule;
    var row, widths, w := rows[i], ColumnWidths(rows), ValueColumnWidth(rows);
    RowFits(rows, i);
    SpanIsClassed(row[j]);
    if |row| == 1 {
      SingleIs(row, widths, w, globalWidth);
      ContainsOwn(DIV_OPEN, Span(row[0]), DIV_CLOSE);
    } else if IsCentred(row) {
      CentredContains(row, widths, w, globalWidth, j);
    } else if IsTwoPair(row) {
      TwoPairContains(row, widths, w, globalWidth, j);
    } else if EndsRight(row) {
      RightValueContains(row, widths, w, globalWidth, j);
    } else {
      ColumnRowIs(row, widths, w, globalWidth);
      ColumnsContain(row, widths, j);
      ContainsIn(DIV_OPEN, Columns(row, widths), DIV_CLOSE, Span(row[j]));
    }
  }

  lemma SingleIs(row: Row, widths: seq<nat>, valueColumnWidth: nat, globalWidth: nat)
    requires |row| == 1 <= |widths| && !IsTitleRule(row[0])
    ensures Emit(PlanRow(row, widths, valueColumnWidth), globalWidth) == DIV_OPEN + Span(row[0]) + DIV_CLOSE
  {
    hide Span, CellWidth, IsTitleRule;
  }

  lemma RightValueContains(row: Row, widths: seq<nat>, valueColumnWidth: nat, globalWidth: nat, j: nat)
    requires j < |row| <= |widths| && EndsRight(row) && !IsCentred(row) && !IsTwoPair(row)
    ensures Contains(Emit(PlanRow(row, widths, valueColumnWidth), globalWidth), Span(row[j]))
  {
    hide Contains, Span, Padding, Columns, PlanRow, Emit, CellWidth, Sum;
    var last := |row| - 1;
    var left, gap := Columns(row[..last], widths[..last]), Padding(SaturatingSub(globalWidth, Sum(widths[..last]) + CellWidth(row[last])));
    RightValueIs(row, widths, valueColumnWidth, globalWidth);
    if j < last {
      ColumnsContain(row[..last], widths[..last], j);
      ContainsIn(DIV_OPEN, left, gap + Span(row[last]) + DIV_CLOSE, Span(row[j]));
      Reassociate(DIV_OPEN + left, gap, Span(row[last]), DIV_CLOSE);
    } else {
      ContainsOwn(DIV_OPEN + left + gap, Span(row[last]), DIV_CLOSE);
    }
  }

  lemma Reassociate(a: string, b: string, c: string, d: string)
    ensures a + (b + c + d) == a + b + c + d
  {
  }

  lemma CentredContains(row: Row, widths: seq<nat>, valueColumnWidth: nat, globalWidth: nat, j: nat)
    requires j < |row| <= |widths| && IsCentred(row)
    ensures Contains(Emit(PlanRow(row, widths, valueColumnWidth), globalWidth), Span(row[j]))
  {
    hide Contains, Span, Padding, Columns, CellWidth;
    var plan := PlanRow(row, widths, valueColumnWidth);
    var before := SaturatingSub(SaturatingSub(globalWidth, valueColumnWidth + widths[0]), CellWidth(row[1])) / 2;
    var after := SaturatingSub(globalWidth, CellWidth(row[2]) + widths[0] + before + CellWidth(row[1]));
    var left, a, b := Columns(row[..1], widths[..1]), Padding(before), Padding(after);
    assert Emit(plan, globalWidth) == DIV_OPEN + left + a + Span(row[1]) + b + Span(row[2]) + DIV_CLOSE;
    hide Emit, PlanRow;
    if j == 0 {
      ColumnsContain(row[..1], widths[..1], 0);
      ContainsIn(DIV_OPEN, left, a + Span(row[1]) + b + Span(row[2]) + DIV_CLOSE, Span(row[0]));
      assert DIV_OPEN + left + (a + Span(row[1]) + b + Span(row[2]) + DIV_CLOSE) == DIV_OPEN + left + a + Span(row[1]) + b + Span(row[2]) + DIV_CLOSE;
    } else if j == 1 {
      ContainsOwn(DIV_OPEN + left + a, Span(row[1]), b + Span(row[2]) + DIV_CLOSE);
      Reassociate(DIV_OPEN + left + a + Span(row[1]), b, Span(row[2]), DIV_CLOSE);
    } else {
      ContainsOwn(DIV_OPEN + left + a + Span(row[1]) + b, Span(row[2]), DIV_CLOSE);
    }
  }

  lemma TwoPairContains(row: Row, widths: seq<nat>, valueColumnWidth: nat, globalWidth: nat, j: nat)
    requires j < |row| <= |widths| && IsTwoPair(row)
    ensures Contains(Emit(PlanRow(row, widths, valueColumnWidth), globalWidth), Span(row[j]))
  {
    hide Contains, Span, Padding, CellWidth, PlanRow, Emit, PairGap;
    TwoPairIs(row, widths, valueColumnWidth, globalWidth);
    var g, h := Padding(PairGap(row, 0, globalWidth / 2)), Padding(PairGap(row, 2, globalWidth - globalWidth / 2));
    var (a, b, c, d) := (Span(row[0]), Span(row[1]), Span(row[2]), Span(row[3]));
    if j == 0 {
      ContainsOwn(DIV_OPEN, a, g + b + (c + h + d + DIV_CLOSE));
      assert DIV_OPEN + a + (g + b + (c + h + d + DIV_CLOSE)) == DIV_OPEN + a + g + b + c + h + d + DIV_CLOSE;
    } else if j == 1 {
      ContainsOwn(DIV_OPEN + a + g, b, c + h + d + DIV_CLOSE);
      assert DIV_OPEN + a + g + b + (c + h + d + DIV_CLOSE) == DIV_OPEN + a + g + b + c + h + d + DIV_CLOSE;
    } else if j == 2 {
      ContainsOwn(DIV_OPEN + a + g + b, c, h + d + DIV_CLOSE);
      Reassociate(DIV_OPEN + a + g + b + c, h, d, DIV_CLOSE);
    } else {
      ContainsOwn(DIV_OPEN + a + g + b + c + h, d, DIV_CLOSE);
    }
  }

  // ----- no wider than needed

  /** A column is as wide as one of its cells. */
  lemma {:induction false} ColumnIsNeeded(rows: seq<Row>, j: nat)
    ensures ColumnWidth(rows, j) > 0 ==>
      exists i :: 0 <= i < |rows| && j < |rows[i]| && CellWidth(rows[i][j]) == ColumnWidth(rows, j)
  {
    hide CellWidth;
    if rows != [] {
      var front, last := rows[..|rows| - 1], rows[|rows| - 1];
      ColumnIsNeeded(front, j);
      assert forall i :: 0 <= i < |front| ==> front[i] == rows[i];
      if ColumnWidth(rows, j) == ColumnWidth(front, j) && ColumnWidth(front, j) > 0 {
        var i :| 0 <= i < |front| && j < |front[i]| && CellWidth(front[i][j]) == ColumnWidth(front, j);
        assert rows[i] == front[i];
      } else if ColumnWidth(rows, j) > 0 {
        assert CellWidth(rows[|rows| - 1][j]) == ColumnWidth(rows, j);
      }
    }
  }

  /** The value column is as wide as one of the values at a right end. */
  lemma {:induction false} ValueColumnIsNeeded(rows: seq<Row>)
    ensures ValueColumnWidth(rows) > 0 ==>
      exists i :: 0 <= i < |rows| && EndsRight(rows[i]) && CellWidth(rows[i][|rows[i]| - 1]) == ValueColumnWidth(rows)
  {
    hide CellWidth;
    if rows != [] {
      var front, last := rows[..|rows| - 1], rows[|rows| - 1];
      ValueColumnIsNeeded(front);
      if ValueColumnWidth(rows) == ValueColumnWidth(front) && ValueColumnWidth(front) > 0 {
        var i :| 0 <= i < |front| && EndsRight(front[i]) && CellWidth(front[i][|front[i]| - 1]) == ValueColumnWidth(front);
        assert rows[i] == front[i];
      } else if ValueColumnWidth(rows) > 0 {
        assert EndsRight(rows[|rows| - 1]) && CellWidth(rows[|rows| - 1][|rows[|rows| - 1]| - 1]) == ValueColumnWidth(rows);
      }
    }
  }

  lemma {:induction false} WidestIsARow(rows: seq<Row>, n: nat, width: nat)
    requires n <= |rows|
    ensures WidestRow(rows, n, width) == width || exists i :: 0 <= i < n && PlanIn(rows, i).NaturalWidth() == WidestRow(rows, n, width)
  {
    hide PlanIn, PlanRow;
    if n > 0 {
      WidestIsARow(rows, n - 1, width);
      assert WidestRow(rows, n, width) == WidestRow(rows, n - 1, width) || PlanIn(rows, n - 1).NaturalWidth() == WidestRow(rows, n, width);
    }
  }

  /** The width of a document is the least one asked for, or that of one of its rows. */
  lemma {:induction false} GlobalWidthIsNeeded(blocks: seq<Block>, minWidth: nat)
    ensures minWidth <= GlobalWidth(blocks, minWidth)
    ensures GlobalWidth(blocks, minWidth) == minWidth
         || exists b, i :: 0 <= b < |blocks| && 0 <= i < |blocks[b].rows|
                           && PlanIn(blocks[b].rows, i).NaturalWidth() == GlobalWidth(blocks, minWidth)
  {
    hide PlanIn, WidestRow;
    if blocks != [] {
      var front, last := blocks[..|blocks| - 1], |blocks| - 1;
      GlobalWidthIsNeeded(front, minWidth);
      WidestIsARow(blocks[last].rows, |blocks[last].rows|, GlobalWidth(front, minWidth));
      WidestRowBounds(blocks[last].rows, |blocks[last].rows|, GlobalWidth(front, minWidth), 0);
      assert forall b :: 0 <= b < |front| ==> front[b] == blocks[b];
    }
  }

  /** The width a row asks for is the one it needs: with a value at its right end, exactly from then on it ends with
      that width; with a centred middle, exactly from then on the middle keeps clear of the value column. */
  lemma RowFitsIff(rows: seq<Row>, i: nat, globalWidth: nat)
    requires i < |rows| && EndsRight(rows[i]) && !IsTwoPair(rows[i])
    ensures var row, widths, w := rows[i], ColumnWidths(rows), ValueColumnWidth(rows);
      && |row| <= |widths|
      && var starts := CellStarts(row, widths, w, globalWidth);
      PlanIn(rows, i).NaturalWidth() <= globalWidth <==>
        if IsCentred(row) then starts[1] + CellWidth(row[1]) + w <= globalWidth
        else EndOf(row, starts, |row|) <= globalWidth
  {
    hide CellWidth, ColumnWidth, ValueColumnWidth, Columns, Span, CellRole, Sum;
    RowsFit(rows, i);
    if IsCentred(rows[i]) { ValueFitsColumn(rows, i); }
  }

  /** Any other row asks for the width of its cells: two pairs for all four, a single cell for its own, and a row of
      columns for all columns of its block. */
  lemma OtherRowsNeed(rows: seq<Row>, i: nat)
    requires i < |rows| && (IsTwoPair(rows[i]) || !EndsRight(rows[i]))
    ensures PlanIn(rows, i).NaturalWidth() ==
      if IsTwoPair(rows[i]) then PairWidth(rows[i][0], rows[i][1]) + PairWidth(rows[i][2], rows[i][3])
      else if |rows[i]| == 1 then (if IsTitleRule(rows[i][0]) then 0 else CellWidth(rows[i][0]))
      else Sum(ColumnWidths(rows))
  {
    hide CellWidth, ColumnWidths, ValueColumnWidth, Columns, Span, CellRole, Sum;
    RowsFit(rows, i);
    if IsTwoPair(rows[i]) { FourWidths(rows[i]); }
  }

  lemma FourWidths(row: Row)
    requires |row| == 4
    ensures CellsWidth(row) == PairWidth(row[0], row[1]) + PairWidth(row[2], row[3])
  {
    hide CellWidth;
    assert row[..3][..2] == row[..2] && row[..2][..1] == row[..1] && row[..1][..0] == [];
    assert CellsWidth(row[..3]) == CellsWidth(row[..2]) + CellWidth(row[2]);
    assert CellsWidth(row[..2]) == CellsWidth(row[..1]) + CellWidth(row[1]);
  }
}

/** Cells, rows and blocks of the renderers (src/render/model.rs). The `min_width` of a cell, which only the
    horizontal panel reads, is not part of this model. */
module RenderModel {
  import opened Wrappers
  import opened Html

  datatype Align = Left | Center | Right

  datatype Cell = Cell(
    text: string,
    cssClass: Option<string>,
    align: Align,
    padLeft: nat,
    padRight: nat,
    layoutWidth: Option<nat>)

  type Row = seq<Cell>

  datatype SeparatorSize = Small | Big

  datatype Entry = RowEntry(row: Row) | SeparatorEntry(size: SeparatorSize)

  datatype Block = Block(rows: seq<Row>, separator: Option<SeparatorSize>)

  /** The white space of Unicode. */
  predicate IsSpace(c: char) {
    '\U{0009}' <= c <= '\U{000D}' || c == ' ' || c == '\U{0085}' || c == '\U{00A0}' || c == '\U{1680}'
    || '\U{2000}' <= c <= '\U{200A}' || c == '\U{2028}' || c == '\U{2029}' || c == '\U{202F}' || c == '\U{205F}'
    || c == '\U{3000}'
  }

  /** The beginning of `s` up to the first white space. */
  function Word(s: string): string {
    if s == [] || IsSpace(s[0]) then [] else [s[0]] + Word(s[1..])
  }

  /** The first word between white space; empty when there is none. */
  function FirstWord(s: string): string {
    if s != [] && IsSpace(s[0]) then FirstWord(s[1..]) else Word(s)
  }

  /** The role of a cell is its first CSS class. */
  function CellRole(cell: Cell): string {
    if cell.cssClass.Some? then FirstWord(cell.cssClass.value) else ""
  }

  function RowShape(row: Row): seq<string> {
    seq(|row|, i requires 0 <= i < |row| => CellRole(row[i]))
  }

  function CellInner(cell: Cell): string {
    NonBreakingSpaces(cell.padLeft) + cell.text + NonBreakingSpaces(cell.padRight)
  }
}

/** Separators and blocks of render rows (src/render/cells.rs, src/render/model.rs): runs of separators are
    first reduced to the largest one between two rows, then rows are grouped by shape. */
module Grouping {
  import opened Wrappers
  import opened RenderModel

  // ----- normalising separators

  function Larger(pending: Option<SeparatorSize>, size: SeparatorSize): Option<SeparatorSize> {
    if pending.None? || (size == Big && pending.value == Small) then Some(size) else pending
  }

  /** Entries written so far and the separator held back. */
  datatype Normal = Normal(out: seq<Entry>, pending: Option<SeparatorSize>)

  function SeparatorOf(size: Option<SeparatorSize>): seq<Entry> {
    if size.Some? then [SeparatorEntry(size.value)] else []
  }

  function NormalStep(n: Normal, entry: Entry): Normal {
    match entry
    case SeparatorEntry(size) => n.(pending := Larger(n.pending, size))
    case RowEntry(row) => Normal(n.out + (if n.out == [] then [] else SeparatorOf(n.pending)) + [entry], None)
  }

  function NormalFold(entries: seq<Entry>): Normal {
    if entries == [] then Normal([], None)
    else NormalStep(NormalFold(entries[..|entries| - 1]), entries[|entries| - 1])
  }

  function Normalized(entries: seq<Entry>): seq<Entry> {
    NormalFold(entries).out
  }

  method NormalizeSeparators(entries: seq<Entry>) returns (out: seq<Entry>)
    ensures out == Normalized(entries)
  {
    out := [];
    var pending: Option<SeparatorSize> := None;
    for i := 0 to |entries|
      invariant Normal(out, pending) == NormalFold(entries[..i])
    {
      assert entries[..i + 1][..i] == entries[..i];
      match entries[i] {
        case SeparatorEntry(size) =>
          if pending.None? || (size == Big && pending.value == Small) {
            pending := Some(size);
          }
        case RowEntry(row) =>
          if pending.Some? && out != [] {
            out := out + [SeparatorEntry(pending.value)];
          }
          pending := None;
          out := out + [RowEntry(row)];
      }
    }
    assert entries[..|entries|] == entries;
  }

  // ----- what a list of entries says

  function Rows(entries: seq<Entry>): seq<Row> {
    if entries == [] then []
    else
      var last := entries[|entries| - 1];
      Rows(entries[..|entries| - 1]) + (if last.RowEntry? then [last.row] else [])
  }

  /** The largest separator after the last row. */
  function Trailing(entries: seq<Entry>): Option<SeparatorSize> {
    if entries == [] || entries[|entries| - 1].RowEntry? then None
    else Larger(Trailing(entries[..|entries| - 1]), entries[|entries| - 1].size)
  }

  /** For every row, the largest separator between it and the row before. */
  function Leads(entries: seq<Entry>): seq<Option<SeparatorSize>> {
    if entries == [] then []
    else
      var front, last := entries[..|entries| - 1], entries[|entries| - 1];
      Leads(front) + (if last.RowEntry? then [Trailing(front)] else [])
  }

  /** No two separators in a row, and none at the end. */
  predicate NoAdjacentSeparators(entries: seq<Entry>) {
    forall i :: 0 <= i < |entries| - 1 ==> entries[i].RowEntry? || entries[i + 1].RowEntry?
  }

  predicate Single(entries: seq<Entry>) {
    NoAdjacentSeparators(entries) && (entries != [] ==> entries[|entries| - 1].RowEntry?)
  }

  predicate IsNormal(entries: seq<Entry>) {
    Single(entries) && (entries != [] ==> entries[0].RowEntry?)
  }

  lemma OneMore(entries: seq<Entry>, entry: Entry)
    ensures Rows(entries + [entry]) == Rows(entries) + (if entry.RowEntry? then [entry.row] else [])
    ensures Leads(entries + [entry]) == Leads(entries) + (if entry.RowEntry? then [Trailing(entries)] else [])
    ensures Trailing(entries + [entry]) == if entry.RowEntry? then None else Larger(Trailing(entries), entry.size)
  {
    assert (entries + [entry])[..|entries|] == entries;
  }

  predicate AllSeparators(entries: seq<Entry>) {
    forall i :: 0 <= i < |entries| ==> entries[i].SeparatorEntry?
  }

  predicate AnyBig(entries: seq<Entry>)
    requires AllSeparators(entries)
  {
    exists i :: 0 <= i < |entries| && entries[i].size == Big
  }

  lemma AnyBigMore(less: seq<Entry>, last: Entry)
    requires AllSeparators(less) && last.SeparatorEntry?
    ensures AllSeparators(less + [last]) && (AnyBig(less + [last]) <==> AnyBig(less) || last.size == Big)
  {
    var all := less + [last];
    assert all[|less|] == last && forall i :: 0 <= i < |less| ==> all[i] == less[i];
  }

  /** Behind a row, or at the beginning, a run of separators counts as a big one exactly when one of them is big. */
  lemma {:induction false} TrailingIsLargest(front: seq<Entry>, run: seq<Entry>)
    requires AllSeparators(run) && (front != [] ==> front[|front| - 1].RowEntry?)
    ensures Trailing(front + run) ==
      if run == [] then None else if AnyBig(run) then Some(Big) else Some(Small)
  {
    if run == [] {
      assert front + run == front;
    } else {
      var less, last := run[..|run| - 1], run[|run| - 1];
      assert run == less + [last] && front + run == (front + less) + [last];
      TrailingIsLargest(front, less);
      OneMore(front + less, last);
      AnyBigMore(less, last);
      hide Trailing, AnyBig;
      if less == [] { NoneBig(less); }
    }
  }

  lemma NoneBig(less: seq<Entry>)
    requires less == []
    ensures AllSeparators(less) && !AnyBig(less)
  {
  }

  /** The separators before the first row are dropped; everything else about the leads stays. */
  function WithoutFirst(leads: seq<Option<SeparatorSize>>): (r: seq<Option<SeparatorSize>>)
    ensures |r| == |leads|
  {
    if leads == [] then [] else leads[0 := None]
  }

  /** The rows, each behind its separator if it has one. */
  function Rebuilt(rows: seq<Row>, leads: seq<Option<SeparatorSize>>): seq<Entry>
    requires |rows| == |leads|
  {
    if rows == [] then []
    else
      var last := |rows| - 1;
      Rebuilt(rows[..last], leads[..last]) + SeparatorOf(leads[last]) + [RowEntry(rows[last])]
  }

  lemma RebuiltOneMore(rows: seq<Row>, leads: seq<Option<SeparatorSize>>, row: Row, lead: Option<SeparatorSize>)
    requires |rows| == |leads|
    ensures Rebuilt(rows + [row], leads + [lead]) == Rebuilt(rows, leads) + SeparatorOf(lead) + [RowEntry(row)]
  {
    assert (rows + [row])[..|rows|] == rows && (leads + [lead])[..|leads|] == leads;
  }

  lemma Nothing()
    ensures Rows([]) == [] && Leads([]) == [] && Trailing([]) == None && Rebuilt([], []) == [] && Single([])
  {
  }

  /** Normalising keeps every row in order and between two rows, exactly, the largest separator there was. */
  lemma {:induction false} NormalizingRebuilds(entries: seq<Entry>)
    ensures |Leads(entries)| == |Rows(entries)|
    ensures Normalized(entries) == Rebuilt(Rows(entries), WithoutFirst(Leads(entries)))
    ensures NormalFold(entries).pending == Trailing(entries)
    ensures Normalized(entries) == [] <==> Rows(entries) == []
  {
    hide Rows, Leads, Trailing, Rebuilt;
    if entries == [] {
      Nothing();
    } else {
      var front, last := entries[..|entries| - 1], entries[|entries| - 1];
      NormalizingRebuilds(front);
      assert entries == front + [last];
      OneMore(front, last);
      if last.RowEntry? {
        var leads := Leads(front);
        var lead := if leads == [] then None else Trailing(front);
        assert WithoutFirst(leads + [Trailing(front)]) == WithoutFirst(leads) + [lead];
        RebuiltOneMore(Rows(front), WithoutFirst(leads), last.row, lead);
      } else {
        assert Rows(front) + [] == Rows(front) && Leads(front) + [] == Leads(front);
      }
    }
  }

  /** A list without adjacent separators is what its rows, leads and last separator say. */
  lemma {:induction false} RebuildsItself(entries: seq<Entry>)
    requires NoAdjacentSeparators(entries)
    ensures |Leads(entries)| == |Rows(entries)|
    ensures Rebuilt(Rows(entries), Leads(entries)) + SeparatorOf(Trailing(entries)) == entries
  {
    hide Rows, Leads, Rebuilt;
    if entries == [] {
      Nothing();
    } else {
      var front, last := entries[..|entries| - 1], entries[|entries| - 1];
      RebuildsItself(front);
      assert entries == front + [last];
      OneMore(front, last);
      if last.RowEntry? {
        RebuiltOneMore(Rows(front), Leads(front), last.row, Trailing(front));
      } else {
        assert Trailing(front) == None;
        assert Rows(front) + [] == Rows(front) && Leads(front) + [] == Leads(front);
        assert Rebuilt(Rows(front), Leads(front)) + [] == front;
      }
    }
  }

  lemma {:induction false} RebuiltSays(rows: seq<Row>, leads: seq<Option<SeparatorSize>>)
    requires |rows| == |leads|
    ensures var entries := Rebuilt(rows, leads);
      Rows(entries) == rows && Leads(entries) == leads && Trailing(entries) == None && Single(entries)
  {
    hide Rows, Leads, Trailing, Rebuilt, Single;
    if rows == [] {
      Nothing();
    } else {
      var last := |rows| - 1;
      var front, lead := Rebuilt(rows[..last], leads[..last]), leads[last];
      RebuiltSays(rows[..last], leads[..last]);
      assert rows == rows[..last] + [rows[last]] && leads == leads[..last] + [lead];
      RebuiltOneMore(rows[..last], leads[..last], rows[last], lead);
      RowBehindLead(front, lead, rows[last]);
      SingleOneMore(front, lead, rows[last]);
    }
  }

  lemma RowBehindLead(front: seq<Entry>, lead: Option<SeparatorSize>, row: Row)
    requires Trailing(front) == None
    ensures var entries := front + SeparatorOf(lead) + [RowEntry(row)];
      Rows(entries) == Rows(front) + [row] && Leads(entries) == Leads(front) + [lead] && Trailing(entries) == None
  {
    hide Rows, Leads, Trailing;
    if lead.Some? {
      OneMore(front, SeparatorEntry(lead.value));
      OneMore(front + SeparatorOf(lead), RowEntry(row));
      assert Rows(front) + [] == Rows(front) && Leads(front) + [] == Leads(front);
    } else {
      assert front + SeparatorOf(lead) == front;
      OneMore(front, RowEntry(row));
    }
  }

  lemma SingleOneMore(front: seq<Entry>, lead: Option<SeparatorSize>, row: Row)
    requires Single(front)
    ensures Single(front + SeparatorOf(lead) + [RowEntry(row)])
  {
  }

  /** What is left has one separator at most between two rows and none at either end; the rows and the
      separators between them are those of the original. */
  lemma NormalizingKeeps(entries: seq<Entry>)
    ensures IsNormal(Normalized(entries))
    ensures Rows(Normalized(entries)) == Rows(entries)
    ensures Leads(Normalized(entries)) == WithoutFirst(Leads(entries))
  {
    hide Single, Rows, Leads, Rebuilt;
    var rows, leads := Rows(entries), WithoutFirst(Leads(entries));
    NormalizingRebuilds(entries);
    RebuiltSays(rows, leads);
    FirstIsRow(rows, leads);
  }

  lemma {:induction false} FirstIsRow(rows: seq<Row>, leads: seq<Option<SeparatorSize>>)
    requires |rows| == |leads| && (leads != [] ==> leads[0] == None)
    ensures Rebuilt(rows, leads) != [] ==> Rebuilt(rows, leads)[0].RowEntry?
  {
    if |rows| > 1 {
      FirstIsRow(rows[..|rows| - 1], leads[..|rows| - 1]);
      RebuiltNotEmpty(rows[..|rows| - 1], leads[..|rows| - 1]);
    }
  }

  lemma RebuiltNotEmpty(rows: seq<Row>, leads: seq<Option<SeparatorSize>>)
    requires |rows| == |leads| && rows != []
    ensures Rebuilt(rows, leads) != []
  {
  }

  lemma {:induction false} FirstLead(entries: seq<Entry>)
    requires entries != [] && entries[0].RowEntry?
    ensures Leads(entries) != [] && Leads(entries)[0] == None
  {
    if |entries| > 1 { FirstLead(entries[..|entries| - 1]); }
  }

  /** Normalising leaves exactly the normal lists alone; in particular it is idempotent. */
  lemma NormalizedIff(entries: seq<Entry>)
    ensures Normalized(entries) == entries <==> IsNormal(entries)
    ensures Normalized(Normalized(entries)) == Normalized(entries)
  {
    NormalStays(Normalized(entries)) by { NormalizingKeeps(entries); }
    NormalizingKeeps(entries);
    if IsNormal(entries) { NormalStays(entries); }
  }

  lemma NormalStays(entries: seq<Entry>)
    requires IsNormal(entries)
    ensures Normalized(entries) == entries
  {
    hide Rows, Leads, Rebuilt, NormalFold;
    NormalizingRebuilds(entries);
    RebuildsItself(entries);
    if entries == [] {
      EmptyNormal();
    } else {
      FirstLead(entries);
      LastIsRow(entries);
      assert WithoutFirst(Leads(entries)) == Leads(entries);
      assert Normalized(entries) + [] == Normalized(entries);
    }
  }

  lemma EmptyNormal()
    ensures Normalized([]) == []
  {
  }

  lemma LastIsRow(entries: seq<Entry>)
    requires Single(entries)
    ensures Trailing(entries) == None
  {
  }

  // ----- shapes

  /** The role of a cell is what stands between the first white space of its classes, if any, and the next. */
  lemma {:induction false} FirstWordIs(s: string) returns (blanks: string, rest: string)
    ensures s == blanks + FirstWord(s) + rest
    ensures (forall c :: c in blanks ==> IsSpace(c)) && (forall c :: c in FirstWord(s) ==> !IsSpace(c))
    ensures rest != "" ==> IsSpace(rest[0])
    ensures FirstWord(s) == "" ==> rest == ""
  {
    hide IsSpace;
    blanks, rest := "", "";
    if s != "" && IsSpace(s[0]) {
      blanks, rest := FirstWordIs(s[1..]);
      blanks := [s[0]] + blanks;
    } else {
      rest := WordIs(s);
    }
  }

  lemma {:induction false} WordIs(s: string) returns (rest: string)
    ensures s == Word(s) + rest && (forall c :: c in Word(s) ==> !IsSpace(c))
    ensures rest != "" ==> IsSpace(rest[0])
    ensures s != "" && !IsSpace(s[0]) ==> Word(s) != ""
  {
    hide IsSpace;
    rest := s;
    if s != "" && !IsSpace(s[0]) { rest := WordIs(s[1..]); }
  }

  /** Rows have the same shape exactly when they have as many cells, in the same roles. */
  lemma SameShapeIff(a: Row, b: Row)
    ensures RowShape(a) == RowShape(b) <==> |a| == |b| && forall i :: 0 <= i < |a| ==> CellRole(a[i]) == CellRole(b[i])
  {
    hide CellRole;
    if RowShape(a) == RowShape(b) {
      forall i | 0 <= i < |a|
        ensures CellRole(a[i]) == CellRole(b[i])
      {
        assert RowShape(a)[i] == RowShape(b)[i];
      }
    }
  }

  // ----- grouping rows into blocks

  /** The blocks finished, the block being filled, and the separator in front of it. */
  datatype Groups = Groups(blocks: seq<Block>, current: seq<Row>, shape: Option<seq<string>>, separator: Option<SeparatorSize>)

  function Flush(g: Groups, after: Option<SeparatorSize>): Groups {
    Groups(if g.current == [] then g.blocks else g.blocks + [Block(g.current, g.separator)], [], None, after)
  }

  function GroupStep(g: Groups, entry: Entry): Groups {
    match entry
    case SeparatorEntry(size) => Flush(g, Some(size))
    case RowEntry(row) =>
      var shape := RowShape(row);
      var g1 := if g.shape.Some? && g.shape.value != shape then Flush(g, None) else g;
      g1.(current := g1.current + [row], shape := Some(shape))
  }

  function GroupFold(entries: seq<Entry>): Groups {
    if entries == [] then Groups([], [], None, None)
    else GroupStep(GroupFold(entries[..|entries| - 1]), entries[|entries| - 1])
  }

  function Grouped(entries: seq<Entry>): seq<Block> {
    Flush(GroupFold(entries), None).blocks
  }

  method GroupRowsIntoBlocks(entries: seq<Entry>) returns (blocks: seq<Block>)
    ensures blocks == Grouped(entries)
  {
    hide RowShape;
    blocks := [];
    var current: seq<Row> := [];
    var shape: Option<seq<string>>, separator: Option<SeparatorSize> := None, None;
    for i := 0 to |entries|
      invariant Groups(blocks, current, shape, separator) == GroupFold(entries[..i])
    {
      assert entries[..i + 1][..i] == entries[..i];
      match entries[i] {
        case SeparatorEntry(size) =>
          if current != [] {
            blocks := blocks + [Block(current, separator)];
          }
          current, shape, separator := [], None, Some(size);
        case RowEntry(row) =>
          if shape.Some? && shape.value != RowShape(row) {
            if current != [] {
              blocks := blocks + [Block(current, separator)];
            }
            current, separator := [], None;
          }
          current, shape := current + [row], Some(RowShape(row));
      }
    }
    assert entries[..|entries|] == entries;
    if current != [] {
      blocks := blocks + [Block(current, separator)];
    }
  }

  function RowEntries(rows: seq<Row>): seq<Entry> {
    seq(|rows|, i requires 0 <= i < |rows| => RowEntry(rows[i]))
  }

  function BlockEntries(block: Block): seq<Entry> {
    SeparatorOf(block.separator) + RowEntries(block.rows)
  }

  /** The entries that a list of blocks stands for. */
  function Ungrouped(blocks: seq<Block>): seq<Entry> {
    if blocks == [] then []
    else Ungrouped(blocks[..|blocks| - 1]) + BlockEntries(blocks[|blocks| - 1])
  }

  /** Rows of one shape. */
  predicate Homogeneous(rows: seq<Row>) {
    forall i, j :: 0 <= i < |rows| && 0 <= j < |rows| ==> RowShape(rows[i]) == RowShape(rows[j])
  }

  /** Blocks are not empty and of one shape each; without a separator between them, neighbours differ. */
  predicate WellGrouped(blocks: seq<Block>) {
    && (forall i :: 0 <= i < |blocks| ==> blocks[i].rows != [] && Homogeneous(blocks[i].rows))
    && (forall i :: 0 < i < |blocks| && blocks[i].separator.None? ==>
          RowShape(blocks[i - 1].rows[0]) != RowShape(blocks[i].rows[0]))
  }

  /** The entries that grouping has taken in so far. */
  function TakenIn(g: Groups): seq<Entry> {
    Ungrouped(g.blocks) + (SeparatorOf(g.separator) + RowEntries(g.current))
  }

  ghost predicate Grouping(g: Groups) {
    && WellGrouped(g.blocks)
    && (g.current == [] <==> g.shape.None?)
    && (g.current == [] && g.blocks != [] ==> g.separator.Some?)
    && (forall i :: 0 <= i < |g.current| ==> g.shape == Some(RowShape(g.current[i])))
    && (g.current != [] && g.blocks != [] && g.separator.None? ==>
          g.shape != Some(RowShape(g.blocks[|g.blocks| - 1].rows[0])))
  }

  lemma UngroupedOneMore(blocks: seq<Block>, block: Block)
    ensures Ungrouped(blocks + [block]) == Ungrouped(blocks) + BlockEntries(block)
  {
    assert (blocks + [block])[..|blocks|] == blocks;
  }

  lemma FlushKeeps(g: Groups, after: Option<SeparatorSize>)
    requires Grouping(g) && g.current != []
    ensures WellGrouped(Flush(g, after).blocks)
    ensures TakenIn(Flush(g, after)) == TakenIn(g) + SeparatorOf(after)
  {
    hide RowShape, Ungrouped;
    var block := Block(g.current, g.separator);
    UngroupedOneMore(g.blocks, block);
    BlockJoins(g.blocks, block);
    assert RowEntries([]) == [];
    assert Ungrouped(g.blocks) + (BlockEntries(block)) + (SeparatorOf(after) + []) == TakenIn(g) + SeparatorOf(after);
  }

  lemma BlockJoins(blocks: seq<Block>, block: Block)
    requires WellGrouped(blocks) && block.rows != [] && Homogeneous(block.rows)
    requires blocks != [] && block.separator.None? ==>
               RowShape(blocks[|blocks| - 1].rows[0]) != RowShape(block.rows[0])
    ensures WellGrouped(blocks + [block])
  {
    hide RowShape;
  }

  lemma {:induction false} GroupingKeeps(entries: seq<Entry>)
    ensures Grouping(GroupFold(entries))
  {
    hide RowShape, Grouping, GroupStep;
    if entries == [] {
      NothingGroups();
    } else {
      var g, last := GroupFold(entries[..|entries| - 1]), entries[|entries| - 1];
      GroupingKeeps(entries[..|entries| - 1]);
      if last.RowEntry? {
        RowKeepsGrouping(g, last.row);
      } else {
        SeparatorKeepsGrouping(g, last.size);
      }
    }
  }

  lemma NothingGroups()
    ensures Grouping(Groups([], [], None, None))
  {
  }

  lemma SeparatorKeepsGrouping(g: Groups, size: SeparatorSize)
    requires Grouping(g)
    ensures Grouping(GroupStep(g, SeparatorEntry(size)))
  {
    hide RowShape, WellGrouped;
    if g.current != [] { FlushKeeps(g, Some(size)); }
  }

  lemma RowKeepsGrouping(g: Groups, row: Row)
    requires Grouping(g)
    ensures Grouping(GroupStep(g, RowEntry(row)))
  {
    hide RowShape, WellGrouped;
    if g.current != [] {
      FlushKeeps(g, None);
      LastShape(g);
    }
  }

  /** A block flushed for a change of shape is followed by a different one. */
  lemma LastShape(g: Groups)
    requires Grouping(g) && g.current != []
    ensures g.shape == Some(RowShape(g.current[0]))
  {
    hide RowShape;
  }

  /** Grouping makes blocks of one shape each, and as few as the separators allow. */
  lemma GroupedIsWellGrouped(entries: seq<Entry>)
    ensures WellGrouped(Grouped(entries))
  {
    GroupingKeeps(entries);
    if GroupFold(entries).current != [] { FlushKeeps(GroupFold(entries), None); }
  }

  lemma TakesInMore(entries: seq<Entry>)
    requires entries != [] && NoAdjacentSeparators(entries)
    requires var front := entries[..|entries| - 1];
      Grouping(GroupFold(front)) && TakenIn(GroupFold(front)) == front
      && (front != [] && GroupFold(front).current == [] ==> front[|front| - 1].SeparatorEntry?)
    ensures TakenIn(GroupFold(entries)) == entries
    ensures GroupFold(entries).current == [] ==> entries[|entries| - 1].SeparatorEntry?
  {
    hide RowShape, WellGrouped, TakenIn, Flush, NoAdjacentSeparators;
    var front, last := entries[..|entries| - 1], entries[|entries| - 1];
    var g := GroupFold(front);
    assert entries == front + [last];
    match last
    case SeparatorEntry(size) =>
      FlushEmpties(g, Some(size));
      if g.current != [] {
        FlushKeeps(g, Some(size));
      } else {
        RowBeforeSeparator(front, size);
        assert front == [];
        SeparatorTakenIn(g, size);
      }
    case RowEntry(row) =>
      var g1 := if g.shape.Some? && g.shape.value != RowShape(row) then Flush(g, None) else g;
      if g.shape.Some? && g.shape.value != RowShape(row) {
        FlushKeeps(g, None);
        assert TakenIn(g) + [] == TakenIn(g);
      }
      RowTakenIn(g1, row);
  }

  lemma FlushEmpties(g: Groups, after: Option<SeparatorSize>)
    ensures Flush(g, after).current == []
  {
  }

  lemma SeparatorTakenIn(g: Groups, size: SeparatorSize)
    requires g.current == [] && TakenIn(g) == []
    ensures TakenIn(Flush(g, Some(size))) == [SeparatorEntry(size)]
  {
    assert RowEntries([]) == [];
    assert Ungrouped(g.blocks) == [];
  }

  lemma RowBeforeSeparator(front: seq<Entry>, size: SeparatorSize)
    ensures NoAdjacentSeparators(front + [SeparatorEntry(size)]) && front != [] ==> front[|front| - 1].RowEntry?
  {
    var entries := front + [SeparatorEntry(size)];
    assert front != [] ==> entries[|front| - 1] == front[|front| - 1] && entries[|front|].SeparatorEntry?;
  }

  lemma RowTakenIn(g: Groups, row: Row)
    ensures TakenIn(g.(current := g.current + [row], shape := Some(RowShape(row)))) == TakenIn(g) + [RowEntry(row)]
  {
    assert RowEntries(g.current + [row]) == RowEntries(g.current) + [RowEntry(row)];
  }

  lemma {:induction false} TakesInAll(entries: seq<Entry>)
    requires NoAdjacentSeparators(entries)
    ensures TakenIn(GroupFold(entries)) == entries
    ensures entries != [] && GroupFold(entries).current == [] ==> entries[|entries| - 1].SeparatorEntry?
  {
    if entries != [] {
      TakesInAll(entries[..|entries| - 1]);
      GroupingKeeps(entries[..|entries| - 1]);
      TakesInMore(entries);
    } else {
      assert RowEntries([]) == [];
    }
  }

  /** Taking blocks apart again gives back exactly the lists that have no adjacent and no last separator. */
  lemma UngroupingUndoesIff(entries: seq<Entry>)
    ensures Ungrouped(Grouped(entries)) == entries <==> Single(entries)
  {
    GroupedIsWellGrouped(entries);
    UngroupedIsSingle(Grouped(entries));
    if Single(entries) {
      TakesInAll(entries);
      UngroupsBack(entries);
    }
  }

  lemma UngroupsBack(entries: seq<Entry>)
    requires Single(entries) && TakenIn(GroupFold(entries)) == entries
    requires entries != [] && GroupFold(entries).current == [] ==> entries[|entries| - 1].SeparatorEntry?
    ensures Ungrouped(Grouped(entries)) == entries
  {
    hide GroupFold, Ungrouped, RowShape, Single;
    var g := GroupFold(entries);
    EndsInRow(entries);
    if g.current != [] {
      UngroupedOneMore(g.blocks, Block(g.current, g.separator));
    } else {
      NothingGrouped();
    }
  }

  lemma EndsInRow(entries: seq<Entry>)
    ensures Single(entries) && entries != [] ==> entries[|entries| - 1].RowEntry?
  {
  }

  lemma NothingGrouped()
    ensures GroupFold([]).blocks == [] && Ungrouped([]) == []
  {
  }

  lemma {:induction false} UngroupedIsSingle(blocks: seq<Block>)
    requires forall i :: 0 <= i < |blocks| ==> blocks[i].rows != []
    ensures Single(Ungrouped(blocks))
  {
    if blocks != [] {
      var last := |blocks| - 1;
      UngroupedIsSingle(blocks[..last]);
      BlockBehind(Ungrouped(blocks[..last]), blocks[last]);
    }
  }

  lemma BlockBehind(front: seq<Entry>, block: Block)
    requires Single(front) && block.rows != []
    ensures Single(front + BlockEntries(block))
  {
    var all, n := front + BlockEntries(block), |front|;
    var k := |SeparatorOf(block.separator)|;
    assert forall i :: n + k <= i < |all| ==> all[i].RowEntry?;
    assert forall i :: 0 <= i < n ==> all[i] == front[i];
  }

  /** Entries that have been normalised survive grouping: taking the blocks apart gives them back. */
  lemma NormalizedSurvivesGrouping(entries: seq<Entry>)
    ensures Ungrouped(Grouped(Normalized(entries))) == Normalized(entries)
  {
    NormalizingKeeps(entries);
    UngroupingUndoesIff(Normalized(entries));
  }

  lemma FoldOneMore(entries: seq<Entry>, entry: Entry)
    ensures GroupFold(entries + [entry]) == GroupStep(GroupFold(entries), entry)
  {
    assert (entries + [entry])[..|entries|] == entries;
  }

  /** A block may follow what has been grouped so far. */
  predicate MayFollow(g: Groups, block: Block) {
    && block.rows != [] && Homogeneous(block.rows)
    && (g.current == [] <==> g.shape.None?)
    && (block.separator.None? ==>
          if g.shape.Some? then g.shape.value != RowShape(block.rows[0]) else g.separator.None?)
  }

  lemma {:induction false} FoldBlock(entries: seq<Entry>, block: Block, n: nat)
    requires 0 < n <= |block.rows| && MayFollow(GroupFold(entries), block)
    ensures GroupFold(entries + (SeparatorOf(block.separator) + RowEntries(block.rows[..n])))
         == Groups(Flush(GroupFold(entries), None).blocks, block.rows[..n], Some(RowShape(block.rows[0])), block.separator)
  {
    hide RowShape, GroupFold;
    var lead, rows := SeparatorOf(block.separator), block.rows;
    assert rows[..n] == rows[..n - 1] + [rows[n - 1]];
    assert RowEntries(rows[..n]) == RowEntries(rows[..n - 1]) + [RowEntry(rows[n - 1])];
    var before := entries + (lead + RowEntries(rows[..n - 1]));
    assert entries + (lead + RowEntries(rows[..n])) == before + [RowEntry(rows[n - 1])];
    FoldOneMore(before, RowEntry(rows[n - 1]));
    if n == 1 {
      assert RowEntries(rows[..0]) == [];
      if block.separator.Some? {
        assert before == entries + [SeparatorEntry(block.separator.value)];
        FoldOneMore(entries, SeparatorEntry(block.separator.value));
      } else {
        assert before == entries;
      }
    } else {
      FoldBlock(entries, block, n - 1);
      assert RowShape(rows[n - 1]) == RowShape(rows[0]);
    }
  }

  lemma {:induction false} FoldBlocks(blocks: seq<Block>)
    requires WellGrouped(blocks)
    ensures var g := GroupFold(Ungrouped(blocks));
      if blocks == [] then g == Groups([], [], None, None)
      else
        var last := blocks[|blocks| - 1];
        g == Groups(blocks[..|blocks| - 1], last.rows, Some(RowShape(last.rows[0])), last.separator)
  {
    hide RowShape;
    if blocks != [] {
      var front, last := blocks[..|blocks| - 1], blocks[|blocks| - 1];
      FoldBlocks(front);
      assert front != [] ==> front == front[..|front| - 1] + [front[|front| - 1]];
      assert last.rows[..|last.rows|] == last.rows;
      FoldBlock(Ungrouped(front), last, |last.rows|);
    }
  }

  /** And grouping the entries of a list of blocks gives back exactly the well grouped ones: the two are
      inverse to each other. */
  lemma GroupingUndoesIff(blocks: seq<Block>)
    ensures Grouped(Ungrouped(blocks)) == blocks <==> WellGrouped(blocks)
  {
    hide RowShape;
    GroupedIsWellGrouped(Ungrouped(blocks));
    if WellGrouped(blocks) {
      FoldBlocks(blocks);
      assert blocks != [] ==> blocks == blocks[..|blocks| - 1] + [blocks[|blocks| - 1]];
    }
  }
}

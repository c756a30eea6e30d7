/** Merging configuration tables (src/config/merge.rs): tables merge key by key, anything else is replaced. */
module DeepMerge {
  /** Scalars and arrays are leaves: merging never looks inside them. */
  datatype Value = Leaf(text: string) | Branch(table: Table)

  type Table = map<string, Value>

  // ----- the merge

  function Merge(base: Table, over: Table): (r: Table)
    ensures r.Keys == base.Keys + over.Keys
    decreases Branch(over)
  {
    map k | k in base.Keys + over.Keys ::
      if k !in over then base[k]
      else if k in base && base[k].Branch? && over[k].Branch? then Branch(Merge(base[k].table, over[k].table))
      else over[k]
  }

  method DeepMergeTables(base0: Table, over: Table) returns (base: Table)
    ensures base == Merge(base0, over)
    decreases Branch(over)
  {
    base := base0;
    var left := over.Keys;
    while left != {}
      invariant left <= over.Keys
      invariant base.Keys == base0.Keys + (over.Keys - left)
      invariant forall k :: k in base && (k in left || k !in over) ==> k in base0 && base[k] == base0[k]
      invariant forall k :: k in over && k !in left ==> k in base && base[k] == Merge(base0, over)[k]
      decreases left
    {
      var key :| key in left;
      left := left - {key};
      var value := over[key];
      if key in base && base[key].Branch? && value.Branch? {
        var merged := DeepMergeTables(base[key].table, value.table);
        base := base[key := Branch(merged)];
      } else {
        base := base[key := value];
      }
    }
    assert base.Keys == Merge(base0, over).Keys;
  }

  // ----- what a path leads to

  datatype Found = Absent | Scalar(text: string) | Section

  /** What the table holds at a path; a path through a leaf leads nowhere. */
  function At(t: Table, path: seq<string>): Found
    decreases |path|
  {
    if path == [] then Section
    else if path[0] !in t then Absent
    else match t[path[0]]
      case Leaf(text) => if |path| == 1 then Scalar(text) else Absent
      case Branch(sub) => At(sub, path[1..])
  }

  /** The table has a leaf on the way to the path, short of its end. */
  predicate Shadows(t: Table, path: seq<string>)
    decreases |path|
  {
    |path| > 1 && path[0] in t
    && match t[path[0]]
       case Leaf(_) => true
       case Branch(sub) => Shadows(sub, path[1..])
  }

  /** Below a branch a path is followed without its first key. */
  lemma AtBelow(t: Table, path: seq<string>, n: nat)
    requires 0 < n <= |path| && path[0] in t && t[path[0]].Branch?
    ensures At(t, path[..n]) == At(t[path[0]].table, path[1..][..n - 1])
    ensures n == 1 ==> At(t, path[..n]) == Section
  {
    assert path[..n][1..] == path[1..][..n - 1];
  }

  /** `Shadows`, said of the prefixes of the path. */
  lemma {:induction false} ShadowsIsLeafAbove(t: Table, path: seq<string>)
    ensures Shadows(t, path) <==> exists n :: 0 < n < |path| && At(t, path[..n]).Scalar?
    decreases |path|
  {
    if |path| > 1 && path[0] in t {
      if t[path[0]].Leaf? {
        assert At(t, path[..1]).Scalar?;
      } else {
        var sub, rest := t[path[0]].table, path[1..];
        ShadowsIsLeafAbove(sub, rest);
        if n :| 0 < n < |rest| && At(sub, rest[..n]).Scalar? {
          AtBelow(t, path, n + 1);
        }
        if n :| 0 < n < |path| && At(t, path[..n]).Scalar? {
          AtBelow(t, path, n);
        }
      }
    } else {
      if n :| 0 < n < |path| && At(t, path[..n]).Scalar? { assert path[..n][0] == path[0]; }
    }
  }

  /** At every path the override decides if it has anything there or a leaf above it, else the base does. */
  lemma {:induction false} MergeAt(base: Table, over: Table, path: seq<string>)
    ensures At(Merge(base, over), path)
         == if At(over, path) != Absent then At(over, path)
            else if Shadows(over, path) then Absent
            else At(base, path)
    decreases |path|
  {
    if path != [] && path[0] in base && path[0] in over && base[path[0]].Branch? && over[path[0]].Branch? {
      MergeAt(base[path[0]].table, over[path[0]].table, path[1..]);
    }
  }

  /** What a path of one key leads to. */
  lemma OneKey(t: Table, k: string)
    ensures At(t, [k]) == if k !in t then Absent else match t[k] case Leaf(text) => Scalar(text) case Branch(_) => Section
  {
  }

  /** Two tables that agree at every path are the same. */
  lemma {:induction false} PathsDetermineTable(a: Table, b: Table)
    requires forall path :: At(a, path) == At(b, path)
    ensures a == b
    decreases Branch(a)
  {
    forall k: string
      ensures k in a <==> k in b
      ensures k in a && k in b ==> a[k] == b[k]
    {
      OneKey(a, k);
      OneKey(b, k);
      assert At(a, [k]) == At(b, [k]);
      if k in a && k in b && a[k].Branch? && b[k].Branch? {
        forall path
          ensures At(a[k].table, path) == At(b[k].table, path)
        {
          assert ([k] + path)[1..] == path;
          assert At(a, [k] + path) == At(b, [k] + path);
        }
        PathsDetermineTable(a[k].table, b[k].table);
      }
    }
  }

  // ----- laws

  lemma MergeIdentity(t: Table)
    ensures Merge(t, map[]) == t && Merge(map[], t) == t
  {
  }

  lemma {:induction false} MergeIdempotent(t: Table)
    ensures Merge(t, t) == t
    decreases Branch(t)
  {
    forall k | k in t && t[k].Branch?
      ensures Merge(t[k].table, t[k].table) == t[k].table
    {
      MergeIdempotent(t[k].table);
    }
  }

  /** `c` overrides all that `a` has. */
  predicate Covers(c: Table, a: Table)
    decreases Branch(a)
  {
    forall k :: k in a ==> k in c && (a[k].Branch? && c[k].Branch? ==> Covers(c[k].table, a[k].table))
  }

  lemma {:induction false} CoversMeansAbsorbs(c: Table, a: Table)
    ensures Covers(c, a) <==> Merge(a, c) == c
    decreases Branch(a)
  {
    var m := Merge(a, c);
    forall k | k in a && k in c && a[k].Branch? && c[k].Branch?
      ensures Covers(c[k].table, a[k].table) <==> m[k] == c[k]
    {
      CoversMeansAbsorbs(c[k].table, a[k].table);
    }
    if m == c {
      assert m.Keys == c.Keys;
      assert forall k :: k in a ==> k in m.Keys;
    } else {
      assert Covers(c, a) ==> m.Keys == c.Keys;
      assert Covers(c, a) ==> forall k :: k in c ==> m[k] == c[k];
    }
  }

  /** Wherever the middle table has a leaf between two sections, the last covers the first. */
  predicate Associates(a: Table, b: Table, c: Table)
    decreases Branch(b)
  {
    forall k :: k in a && k in b && k in c && a[k].Branch? && c[k].Branch? ==>
      if b[k].Leaf? then Covers(c[k].table, a[k].table) else Associates(a[k].table, b[k].table, c[k].table)
  }

  /** Merging is associative exactly when no leaf in the middle hides, from the left merge alone, something the
      right merge keeps. */
  lemma {:induction false} MergeAssociatesIff(a: Table, b: Table, c: Table)
    ensures Merge(Merge(a, b), c) == Merge(a, Merge(b, c)) <==> Associates(a, b, c)
    decreases Branch(b)
  {
    var left, right := Merge(Merge(a, b), c), Merge(a, Merge(b, c));
    assert left.Keys == right.Keys;
    forall k | k in left
      ensures left[k] == right[k] <==> AssociatesAt(a, b, c, k)
    {
      if k in a && k in b && k in c && a[k].Branch? && c[k].Branch? {
        if b[k].Leaf? {
          CoversMeansAbsorbs(c[k].table, a[k].table);
        } else {
          MergeAssociatesIff(a[k].table, b[k].table, c[k].table);
        }
      }
    }
    assert left == right <==> forall k :: k in left ==> left[k] == right[k];
    assert Associates(a, b, c) <==> forall k :: k in left ==> AssociatesAt(a, b, c, k);
  }

  predicate AssociatesAt(a: Table, b: Table, c: Table, k: string) {
    k in a && k in b && k in c && a[k].Branch? && c[k].Branch? ==>
      if b[k].Leaf? then Covers(c[k].table, a[k].table) else Associates(a[k].table, b[k].table, c[k].table)
  }

  /** A leaf between two sections: merged from the left it hides the first section, from the right it does not. */
  lemma MergeIsNotAssociative()
    ensures var a, b, c: Table := map["m" := Branch(map["x" := Leaf("1")])], map["m" := Leaf("2")], map["m" := Branch(map[])];
      && At(Merge(Merge(a, b), c), ["m", "x"]) == Absent
      && At(Merge(a, Merge(b, c)), ["m", "x"]) == Scalar("1")
  {
    var a, b, c: Table := map["m" := Branch(map["x" := Leaf("1")])], map["m" := Leaf("2")], map["m" := Branch(map[])];
    var path := ["m", "x"];
    assert path[1..] == ["x"] && ["x"][1..] == [];
    MergeAt(Merge(a, b), c, path);
    MergeAt(a, b, path);
    MergeAt(a, Merge(b, c), path);
    MergeAt(b, c, path);
  }

  // ----- machine blocks

  /** The machine files, low to high; one that is missing or malformed contributes nothing. */
  datatype Source = Unreadable | Loaded(table: Table)

  function Machines(sources: seq<Source>): Table {
    if sources == [] then map[]
    else
      var before, last := Machines(sources[..|sources| - 1]), sources[|sources| - 1];
      if last.Loaded? then Merge(before, last.table) else before
  }

  method LoadMachines(sources: seq<Source>) returns (machines: Table)
    ensures machines == Machines(sources)
  {
    machines := map[];
    for i := 0 to |sources|
      invariant machines == Machines(sources[..i])
    {
      assert sources[..i + 1][..i] == sources[..i];
      match sources[i] {
        case Unreadable =>
        case Loaded(table) => machines := DeepMergeTables(machines, table);
      }
    }
    assert sources[..|sources|] == sources;
  }

  /** The source says something about the path: it has something there, or a leaf above it. */
  predicate Speaks(source: Source, path: seq<string>) {
    source.Loaded? && (At(source.table, path) != Absent || Shadows(source.table, path))
  }

  /** What the machines hold at a path is what the highest source that speaks about it says. */
  lemma {:induction false} HighestSourceWins(sources: seq<Source>, i: nat, path: seq<string>)
    requires i < |sources| && Speaks(sources[i], path)
    requires forall j :: i < j < |sources| ==> !Speaks(sources[j], path)
    ensures At(Machines(sources), path) == At(sources[i].table, path)
  {
    var last := |sources| - 1;
    if sources[last].Loaded? {
      MergeAt(Machines(sources[..last]), sources[last].table, path);
    }
    if i < last { HighestSourceWins(sources[..last], i, path); }
  }

  /** And a path no source speaks about stays absent. */
  lemma {:induction false} SilentPathStaysAbsent(sources: seq<Source>, path: seq<string>)
    requires path != [] && forall j :: 0 <= j < |sources| ==> !Speaks(sources[j], path)
    ensures At(Machines(sources), path) == Absent
  {
    if sources != [] {
      var last := |sources| - 1;
      SilentPathStaysAbsent(sources[..last], path);
      if sources[last].Loaded? {
        MergeAt(Machines(sources[..last]), sources[last].table, path);
      }
    }
  }
}

/** The editor of the main tooltip's layout (src/config_ui/tooltip.rs): reading the sections out of the
    configuration document, and writing an edited list back. Of the document only the `tooltip` table is
    modelled, as its entries in order. */
module Tooltip {
  import opened Wrappers

  /** An element of an array: a string or anything else. */
  datatype Value = Str(s: string) | NotStr

  datatype Item =
    | Array(values: seq<Value>)
    | Section(title: Option<string>, items: Option<seq<Value>>)   // items that are no array read as none
    | Other

  datatype Entry = Entry(key: string, item: Item)

  /** A table has every key once. */
  type Table = seq<Entry>

  ghost predicate DistinctKeys(t: Table) {
    forall i, j :: 0 <= i < j < |t| ==> t[i].key != t[j].key
  }

  datatype TooltipSection = TooltipSection(key: string, title: string, enabled: bool, items: seq<string>)

  // ----- table access

  function Find(t: Table, key: string): (i: nat)
    ensures i <= |t|
    ensures i < |t| ==> t[i].key == key
    ensures forall j :: 0 <= j < i ==> t[j].key != key
  {
    if t == [] || t[0].key == key then 0 else 1 + Find(t[1..], key)
  }

  function Get(t: Table, key: string): Option<Item> {
    if Find(t, key) < |t| then Some(t[Find(t, key)].item) else None
  }

  /** Replaces an entry where it stands, or adds it at the end. */
  function Set(t: Table, key: string, item: Item): Table {
    var i := Find(t, key);
    if i < |t| then t[i := Entry(key, item)] else t + [Entry(key, item)]
  }

  lemma FindIs(t: Table, key: string, i: nat)
    requires i <= |t| && (i < |t| ==> t[i].key == key) && forall j :: 0 <= j < i ==> t[j].key != key
    ensures Find(t, key) == i
  {
  }

  lemma SetGets(t: Table, key: string, item: Item, other: string)
    ensures Get(Set(t, key, item), other) == if other == key then Some(item) else Get(t, other)
    ensures DistinctKeys(t) ==> DistinctKeys(Set(t, key, item))
  {
    var i, set1 := Find(t, key), Set(t, key, item);
    var j := Find(t, other);
    if other == key {
      FindIs(set1, key, i);
    } else if j < |t| {
      FindIs(set1, other, j);
    } else {
      FindIs(set1, other, |set1|);
    }
  }

  function Texts(values: seq<Value>): seq<string> {
    if values == [] then []
    else
      var last := values[|values| - 1];
      Texts(values[..|values| - 1]) + (if last.Str? then [last.s] else [])
  }

  /** The strings of an array; nothing else has any. */
  function Strings(item: Option<Item>): seq<string> {
    if item.Some? && item.value.Array? then Texts(item.value.values) else []
  }

  function ItemsOf(item: Item): seq<string> {
    if item.Section? && item.items.Some? then Texts(item.items.value) else []
  }

  function ArrayOf(strings: seq<string>): seq<Value> {
    seq(|strings|, i requires 0 <= i < |strings| => Str(strings[i]))
  }

  lemma {:induction false} TextsOfArray(strings: seq<string>)
    ensures Texts(ArrayOf(strings)) == strings
  {
    if strings != [] {
      var last := |strings| - 1;
      TextsOfArray(strings[..last]);
      assert ArrayOf(strings)[..last] == ArrayOf(strings[..last]);
      assert strings == strings[..last] + [strings[last]];
    }
  }

  // ----- reading the sections

  predicate IsSection(t: Table, key: string) {
    Get(t, key).Some? && Get(t, key).value.Section?
  }

  /** The listed keys that name a section, each at its first place. */
  function Named(order: seq<string>, t: Table): (r: seq<string>)
    ensures forall key :: key in r <==> key in order && IsSection(t, key)
  {
    if order == [] then []
    else
      var front, key := order[..|order| - 1], order[|order| - 1];
      var r := Named(front, t);
      assert order == front + [key];
      if IsSection(t, key) && key !in r then r + [key] else r
  }

  /** The keys, to which the sections of the first `n` entries that are missing are added in table order. */
  function Completed(keys: seq<string>, t: Table, n: nat): seq<string>
    requires n <= |t|
  {
    if n == 0 then keys
    else
      var r := Completed(keys, t, n - 1);
      if t[n - 1].item.Section? && t[n - 1].key !in r then r + [t[n - 1].key] else r
  }

  function Order(t: Table): seq<string> {
    Strings(Get(t, "order"))
  }

  function Keys(t: Table): seq<string> {
    Completed(Named(Order(t), t), t, |t|)
  }

  function SectionAt(t: Table, key: string): TooltipSection
    requires IsSection(t, key)
  {
    var item := Get(t, key).value;
    TooltipSection(key, if item.title.Some? then item.title.value else key, key in Order(t), ItemsOf(item))
  }

  function SectionsOf(keys: seq<string>, t: Table): seq<TooltipSection> {
    if keys == [] then []
    else
      var key := keys[|keys| - 1];
      SectionsOf(keys[..|keys| - 1], t) + (if IsSection(t, key) then [SectionAt(t, key)] else [])
  }

  function Sections(t: Table): seq<TooltipSection> {
    SectionsOf(Keys(t), t)
  }

  method ReadSections(t: Table) returns (sections: seq<TooltipSection>)
    ensures sections == Sections(t)
  {
    hide Find, SectionAt, Named, Completed, SectionsOf, Order;
    var order := Order(t);
    var keys := [];
    ListsStart(order, keys, t);
    for i := 0 to |order|
      invariant keys == Named(order[..i], t)
    {
      NamedMore(order, i, t);
      if IsSection(t, order[i]) && order[i] !in keys {
        keys := keys + [order[i]];
      }
    }
    assert order[..|order|] == order;
    for i := 0 to |t|
      invariant keys == Completed(Named(order, t), t, i)
    {
      CompletedMore(Named(order, t), t, i);
      if t[i].item.Section? && t[i].key !in keys {
        keys := keys + [t[i].key];
      }
    }
    sections := [];
    ListsStart(order, keys, t);
    for i := 0 to |keys|
      invariant sections == SectionsOf(keys[..i], t)
    {
      SectionsMore(keys, i, t);
      if IsSection(t, keys[i]) {
        sections := sections + [SectionAt(t, keys[i])];
      }
    }
    assert keys[..|keys|] == keys;
  }

  lemma ListsStart(order: seq<string>, keys: seq<string>, t: Table)
    ensures Named(order[..0], t) == [] && Completed(Named(order, t), t, 0) == Named(order, t) && SectionsOf(keys[..0], t) == []
  {
  }

  lemma NamedMore(order: seq<string>, i: nat, t: Table)
    requires i < |order|
    ensures var r := Named(order[..i], t);
      Named(order[..i + 1], t) == if IsSection(t, order[i]) && order[i] !in r then r + [order[i]] else r
  {
    assert order[..i + 1][..i] == order[..i];
  }

  lemma CompletedMore(keys: seq<string>, t: Table, i: nat)
    requires i < |t|
    ensures var r := Completed(keys, t, i);
      Completed(keys, t, i + 1) == if t[i].item.Section? && t[i].key !in r then r + [t[i].key] else r
  {
  }

  lemma SectionsMore(keys: seq<string>, i: nat, t: Table)
    requires i < |keys|
    ensures SectionsOf(keys[..i + 1], t)
         == SectionsOf(keys[..i], t) + if IsSection(t, keys[i]) then [SectionAt(t, keys[i])] else []
  {
    assert keys[..i + 1][..i] == keys[..i];
  }

  // ----- what is read

  predicate Distinct(keys: seq<string>) {
    forall i, j :: 0 <= i < j < |keys| ==> keys[i] != keys[j]
  }

  lemma {:induction false} NamedDistinct(order: seq<string>, t: Table)
    ensures Distinct(Named(order, t))
  {
    if order != [] { NamedDistinct(order[..|order| - 1], t); }
  }

  lemma GetEntry(t: Table, i: nat)
    requires i < |t| && DistinctKeys(t)
    ensures Get(t, t[i].key) == Some(t[i].item)
  {
    FindIs(t, t[i].key, i);
  }

  lemma {:induction false} CompletedKeys(keys: seq<string>, t: Table, n: nat)
    requires n <= |t| && DistinctKeys(t) && Distinct(keys) && forall key :: key in keys ==> IsSection(t, key)
    ensures var r := Completed(keys, t, n);
      && Distinct(r)
      && (forall key :: key in r ==> IsSection(t, key))
      && (forall key :: key in keys ==> key in r)
      && (forall i :: 0 <= i < n && t[i].item.Section? ==> t[i].key in r)
  {
    hide IsSection, DistinctKeys, Distinct, Completed;
    NothingAdded(keys, t);
    if n > 0 {
      CompletedKeys(keys, t, n - 1);
      CompletedMore(keys, t, n - 1);
      EntryIsSection(t, n - 1);
      var before, key := Completed(keys, t, n - 1), t[n - 1].key;
      if key !in before { DistinctMore(before, key); }
    }
  }

  lemma NothingAdded(keys: seq<string>, t: Table)
    ensures Completed(keys, t, 0) == keys
  {
  }

  lemma EntryIsSection(t: Table, i: nat)
    requires i < |t| && DistinctKeys(t)
    ensures t[i].item.Section? ==> IsSection(t, t[i].key)
  {
    hide Find;
    GetEntry(t, i);
  }

  lemma DistinctMore(keys: seq<string>, key: string)
    requires Distinct(keys) && key !in keys
    ensures Distinct(keys + [key])
  {
  }

  /** The keys read are the sections of the table, each once. */
  lemma KeysAreSections(t: Table)
    requires DistinctKeys(t)
    ensures Distinct(Keys(t))
    ensures forall key :: key in Keys(t) <==> IsSection(t, key)
  {
    hide Completed, Named;
    NamedDistinct(Order(t), t);
    CompletedKeys(Named(Order(t), t), t, |t|);
    forall key | IsSection(t, key)
      ensures key in Keys(t)
    {
      assert t[Find(t, key)].item.Section?;
    }
  }

  lemma {:induction false} SectionsOfKeys(keys: seq<string>, t: Table)
    requires forall key :: key in keys ==> IsSection(t, key)
    ensures |SectionsOf(keys, t)| == |keys|
    ensures forall i :: 0 <= i < |keys| ==> SectionsOf(keys, t)[i] == SectionAt(t, keys[i])
  {
    hide SectionAt, Find;
    if keys != [] {
      assert keys[|keys| - 1] in keys;
      SectionsOfKeys(keys[..|keys| - 1], t);
    }
  }

  /** Reading lists every section of the table once, each as the table has it. */
  lemma ReadingListsSections(t: Table)
    requires DistinctKeys(t)
    ensures |Sections(t)| == |Keys(t)|
    ensures forall i :: 0 <= i < |Keys(t)| ==> IsSection(t, Keys(t)[i]) && Sections(t)[i] == SectionAt(t, Keys(t)[i])
  {
    hide Keys, Get, IsSection;
    KeysAreSections(t);
    SectionsOfKeys(Keys(t), t);
  }

  // ----- writing an edited list back

  function KeyList(req: seq<TooltipSection>): (r: seq<string>)
    ensures |r| == |req|
  {
    seq(|req|, i requires 0 <= i < |req| => req[i].key)
  }

  function EnabledKeys(req: seq<TooltipSection>): seq<string> {
    if req == [] then []
    else
      var last := req[|req| - 1];
      EnabledKeys(req[..|req| - 1]) + (if last.enabled then [last.key] else [])
  }

  /** The entries of an order that are none of the known keys. */
  function Unknown(order: seq<string>, known: seq<string>): seq<string> {
    if order == [] then []
    else
      var last := order[|order| - 1];
      Unknown(order[..|order| - 1], known) + (if last in known then [] else [last])
  }

  function DesiredOrder(t: Table, req: seq<TooltipSection>): seq<string> {
    EnabledKeys(req) + Unknown(Order(t), Keys(t))
  }

  /** The edit names every section of the table, once. */
  predicate NamesSections(t: Table, req: seq<TooltipSection>) {
    && Distinct(KeyList(req))
    && (forall key :: key in KeyList(req) ==> key in Keys(t))
    && (forall key :: key in Keys(t) ==> key in KeyList(req))
  }

  /** An item may be used when the tooltip offers it or the section already has it. */
  predicate Allowed(t: Table, section: TooltipSection, available: set<string>) {
    forall item :: item in section.items ==>
      item in available || (IsSection(t, section.key) && item in SectionAt(t, section.key).items)
  }

  predicate AllAllowed(t: Table, req: seq<TooltipSection>, available: set<string>) {
    forall section :: section in req ==> Allowed(t, section, available)
  }

  /** Writing to a section that is no longer one stops the program. */
  datatype Outcome = SectionsChanged | NotAvailable | Stopped | Saved(table: Table, changed: bool)

  function WithOrder(t: Table, req: seq<TooltipSection>): Table {
    if DesiredOrder(t, req) == Order(t) then t else Set(t, "order", Array(ArrayOf(DesiredOrder(t, req))))
  }

  predicate ItemsChange(t: Table, section: TooltipSection) {
    IsSection(t, section.key) && SectionAt(t, section.key).items != section.items
  }

  function WithItems(item: Item, items: seq<string>): Item
    requires item.Section?
  {
    item.(items := Some(ArrayOf(items)))
  }

  /** The items of the edited sections, written one section after the other; `t` is the table as it was. */
  function WithAllItems(t: Table, t1: Table, req: seq<TooltipSection>): Option<Table> {
    if req == [] then Some(t1)
    else
      var before, section := WithAllItems(t, t1, req[..|req| - 1]), req[|req| - 1];
      if before.None? then None
      else if !ItemsChange(t, section) then before
      else if !IsSection(before.value, section.key) then None
      else Some(Set(before.value, section.key, WithItems(Get(before.value, section.key).value, section.items)))
  }

  function Changes(t: Table, req: seq<TooltipSection>): bool {
    DesiredOrder(t, req) != Order(t) || exists section :: section in req && ItemsChange(t, section)
  }

  function Applied(t: Table, req: seq<TooltipSection>, available: set<string>): Outcome {
    if !NamesSections(t, req) then SectionsChanged
    else if !AllAllowed(t, req, available) then NotAvailable
    else
      var r := WithAllItems(t, WithOrder(t, req), req);
      if r.None? then Stopped else Saved(r.value, Changes(t, req))
  }

  /** `iter().find(..)`: the section read under a key. */
  function Previous(sections: seq<TooltipSection>, key: string): Option<TooltipSection> {
    if sections == [] then None
    else if sections[0].key == key then Some(sections[0]) else Previous(sections[1..], key)
  }

  lemma {:induction false} PreviousFinds(sections: seq<TooltipSection>, key: string)
    ensures Previous(sections, key).Some? ==> Previous(sections, key).value in sections && Previous(sections, key).value.key == key
    ensures Previous(sections, key).None? ==> forall section :: section in sections ==> section.key != key
  {
    if sections != [] { PreviousFinds(sections[1..], key); }
  }

  lemma SectionIsListed(t: Table, key: string)
    requires DistinctKeys(t)
    ensures IsSection(t, key) ==> exists section :: section in Sections(t) && section.key == key
  {
    hide Get, Keys, Order;
    KeysAreSections(t);
    ReadingListsSections(t);
    if IsSection(t, key) {
      var i :| 0 <= i < |Keys(t)| && Keys(t)[i] == key;
      assert Sections(t)[i] in Sections(t);
    }
  }

  lemma PreviousIs(t: Table, key: string)
    requires DistinctKeys(t)
    ensures Previous(Sections(t), key) == if IsSection(t, key) then Some(SectionAt(t, key)) else None
  {
    hide Get, Keys, Order;
    KeysAreSections(t);
    ReadingListsSections(t);
    PreviousFinds(Sections(t), key);
    var p := Previous(Sections(t), key);
    if p.Some? {
      var i :| 0 <= i < |Sections(t)| && Sections(t)[i] == p.value;
      assert p.value == SectionAt(t, Keys(t)[i]);
    }
    SectionIsListed(t, key);
  }

  lemma {:induction false} DistinctCount(keys: seq<string>)
    ensures |set key | key in keys| <= |keys|
    ensures |set key | key in keys| == |keys| <==> Distinct(keys)
  {
    if keys != [] {
      var front, last := keys[..|keys| - 1], keys[|keys| - 1];
      DistinctCount(front);
      var all, some := set key | key in keys, set key | key in front;
      assert keys == front + [last];
      assert all == some + {last};
      assert Distinct(keys) <==> Distinct(front) && last !in front;
    }
  }

  method Apply(t: Table, req: seq<TooltipSection>, available: set<string>) returns (outcome: Outcome)
    requires DistinctKeys(t)
    ensures outcome == Applied(t, req, available)
  {
    hide Find, Get, Keys, Order, Sections, WithAllItems, Unknown, EnabledKeys, Set, Allowed, Distinct;
    var current := ReadSections(t);
    var named := CheckKeys(t, req, current);
    if !named {
      return SectionsChanged;
    }
    for i := 0 to |req|
      invariant forall k :: 0 <= k < i ==> Allowed(t, req[k], available)
    {
      var allowed := CheckItems(t, req[i], current, available);
      if !allowed {
        return NotAvailable;
      }
    }
    var original := Order(t);
    var desired := FilterOrder(req, original, Keys(t));
    var changed := desired != original;
    var table := t;
    if changed {
      table := Set(t, "order", Array(ArrayOf(desired)));
    }
    NothingWritten(t, table);
    for i := 0 to |req|
      invariant WithAllItems(t, WithOrder(t, req), req[..i]) == Some(table)
      invariant changed <==> desired != original || exists k :: 0 <= k < i && ItemsChange(t, req[k])
    {
      PreviousIs(t, req[i].key);
      WriteOneMore(t, WithOrder(t, req), req, i);
      var previous := Previous(current, req[i].key);
      if previous.Some? && previous.value.items != req[i].items {
        if !IsSection(table, req[i].key) {
          NeverRecovers(t, WithOrder(t, req), req, i + 1);
          return Stopped;
        }
        table := Set(table, req[i].key, WithItems(Get(table, req[i].key).value, req[i].items));
        changed := true;
      }
    }
    assert req[..|req|] == req;
    outcome := Saved(table, changed);
  }

  method CheckKeys(t: Table, req: seq<TooltipSection>, current: seq<TooltipSection>) returns (named: bool)
    requires DistinctKeys(t) && current == Sections(t)
    ensures named == NamesSections(t, req)
  {
    hide Get, Keys, Sections, Distinct;
    var currentKeys := set section | section in current :: section.key;
    var requestedKeys := set section | section in req :: section.key;
    named := requestedKeys == currentKeys && |requestedKeys| == |req|;
    CurrentKeys(t);
    DistinctCount(KeyList(req));
    KeySet(req);
    SameSet(KeyList(req), Keys(t));
  }

  lemma SameSet(a: seq<string>, b: seq<string>)
    ensures (set key | key in a) == (set key | key in b) <==> (forall key :: key in a ==> key in b) && (forall key :: key in b ==> key in a)
  {
    var sa, sb := set key | key in a, set key | key in b;
    assert forall key :: key in sa <==> key in a;
    assert forall key :: key in sb <==> key in b;
  }

  lemma KeySet(req: seq<TooltipSection>)
    ensures (set section | section in req :: section.key) == set key | key in KeyList(req)
  {
    forall section | section in req
      ensures section.key in KeyList(req)
    {
      var i :| 0 <= i < |req| && req[i] == section;
      assert KeyList(req)[i] == section.key;
    }
  }

  lemma CurrentKeys(t: Table)
    requires DistinctKeys(t)
    ensures (set section | section in Sections(t) :: section.key) == set key | key in Keys(t)
  {
    hide Get, Keys, Sections, IsSection, Order;
    ReadingListsSections(t);
    forall key | key in Keys(t)
      ensures exists section :: section in Sections(t) && section.key == key
    {
      var i :| 0 <= i < |Keys(t)| && Keys(t)[i] == key;
      assert Sections(t)[i] in Sections(t);
    }
  }

  method CheckItems(t: Table, section: TooltipSection, current: seq<TooltipSection>, available: set<string>) returns (allowed: bool)
    requires DistinctKeys(t) && current == Sections(t)
    ensures allowed == Allowed(t, section, available)
  {
    hide Get, Keys, Sections, Order;
    PreviousIs(t, section.key);
    var previous := Previous(current, section.key);
    for i := 0 to |section.items|
      invariant forall k :: 0 <= k < i ==>
        section.items[k] in available || (IsSection(t, section.key) && section.items[k] in SectionAt(t, section.key).items)
    {
      if section.items[i] !in available && !(previous.Some? && section.items[i] in previous.value.items) {
        return false;
      }
    }
    return true;
  }

  method FilterOrder(req: seq<TooltipSection>, original: seq<string>, known: seq<string>) returns (desired: seq<string>)
    ensures desired == EnabledKeys(req) + Unknown(original, known)
  {
    desired := [];
    for i := 0 to |req|
      invariant desired == EnabledKeys(req[..i])
    {
      assert req[..i + 1][..i] == req[..i];
      if req[i].enabled {
        desired := desired + [req[i].key];
      }
    }
    assert req[..|req|] == req;
    for i := 0 to |original|
      invariant desired == EnabledKeys(req) + Unknown(original[..i], known)
    {
      assert original[..i + 1][..i] == original[..i];
      if original[i] !in known {
        desired := desired + [original[i]];
      }
    }
    assert original[..|original|] == original;
  }

  lemma NothingWritten(t: Table, t1: Table)
    ensures WithAllItems(t, t1, []) == Some(t1)
  {
  }

  lemma WriteOneMore(t: Table, t1: Table, req: seq<TooltipSection>, i: nat)
    requires i < |req|
    ensures var before, section := WithAllItems(t, t1, req[..i]), req[i];
      WithAllItems(t, t1, req[..i + 1]) ==
        if before.None? then None
        else if !ItemsChange(t, section) then before
        else if !IsSection(before.value, section.key) then None
        else Some(Set(before.value, section.key, WithItems(Get(before.value, section.key).value, section.items)))
    ensures req[..0] == []
  {
    assert req[..i + 1][..i] == req[..i];
  }

  lemma {:induction false} NeverRecovers(t: Table, t1: Table, req: seq<TooltipSection>, i: nat)
    requires i <= |req| && WithAllItems(t, t1, req[..i]).None?
    ensures WithAllItems(t, t1, req).None?
    decreases |req| - i
  {
    hide WithAllItems, Set, Get, ItemsChange;
    if i < |req| {
      WriteOneMore(t, t1, req, i);
      NeverRecovers(t, t1, req, i + 1);
    } else {
      assert req[..i] == req;
    }
  }
}

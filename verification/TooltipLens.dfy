/** Reading back what the tooltip editor wrote (src/config_ui/tooltip.rs). */
module TooltipLens {
  import opened Wrappers
  import opened Tooltip

  // ----- shape

  /** Same keys at the same places, the same of them sections; what was added at the end is no section. */
  ghost predicate SameShape(a: Table, b: Table) {
    && |a| <= |b|
    && (forall i :: 0 <= i < |a| ==> a[i].key == b[i].key && a[i].item.Section? == b[i].item.Section?)
    && (forall i :: |a| <= i < |b| ==> !b[i].item.Section?)
  }

  lemma ShapesChain(a: Table, b: Table, c: Table)
    requires SameShape(a, b) && SameShape(b, c)
    ensures SameShape(a, c)
  {
  }

  lemma SetShape(t: Table, key: string, item: Item)
    requires if Get(t, key).Some? then item.Section? == Get(t, key).value.Section? else !item.Section?
    ensures SameShape(t, Set(t, key, item))
  {
  }

  /** The sections outside the listed keys, in table order. */
  function Rest(t: Table, n: nat, listed: seq<string>): seq<string>
    requires n <= |t|
  {
    if n == 0 then []
    else Rest(t, n - 1, listed)
         + (if t[n - 1].item.Section? && t[n - 1].key !in listed then [t[n - 1].key] else [])
  }

  lemma {:induction false} RestOfShape(a: Table, b: Table, n: nat, listed: seq<string>)
    requires SameShape(a, b) && n <= |b|
    ensures Rest(b, n, listed) == Rest(a, if n <= |a| then n else |a|, listed)
  {
    if n > 0 { RestOfShape(a, b, n - 1, listed); }
  }

  lemma {:induction false} RestOutside(t: Table, n: nat, listed: seq<string>)
    requires n <= |t| && DistinctKeys(t)
    ensures forall key :: key in Rest(t, n, listed) ==> exists i :: 0 <= i < n && t[i].key == key
    ensures forall key :: key in Rest(t, n, listed) ==> key !in listed
  {
    if n > 0 { RestOutside(t, n - 1, listed); }
  }

  lemma {:induction false} CompletedIs(keys: seq<string>, t: Table, n: nat)
    requires n <= |t| && DistinctKeys(t)
    ensures Completed(keys, t, n) == keys + Rest(t, n, keys)
  {
    if n > 0 {
      CompletedIs(keys, t, n - 1);
      RestOutside(t, n - 1, keys);
    }
  }

  // ----- orders

  lemma {:induction false} EnabledKeysAre(req: seq<TooltipSection>)
    requires Distinct(KeyList(req))
    ensures Distinct(EnabledKeys(req))
    ensures forall key :: key in EnabledKeys(req) ==> key in KeyList(req)
    ensures forall section :: section in req ==> (section.key in EnabledKeys(req) <==> section.enabled)
  {
    if req != [] {
      var front, last := req[..|req| - 1], req[|req| - 1];
      assert KeyList(front) == KeyList(req)[..|req| - 1];
      assert KeyList(req) == KeyList(front) + [last.key];
      EnabledKeysAre(front);
      LastIsNew(req);
      forall section | section in req
        ensures section.key in EnabledKeys(req) <==> section.enabled
      {
        assert req == front + [last];
        KeyIsListed(front, section);
      }
    }
  }

  lemma KeyIsListed(req: seq<TooltipSection>, section: TooltipSection)
    ensures section in req ==> section.key in KeyList(req)
  {
    if section in req {
      var i :| 0 <= i < |req| && req[i] == section;
      assert KeyList(req)[i] == section.key;
    }
  }

  lemma LastIsNew(req: seq<TooltipSection>)
    requires Distinct(KeyList(req)) && req != []
    ensures req[|req| - 1].key !in KeyList(req[..|req| - 1])
  {
    var front := KeyList(req[..|req| - 1]);
    assert forall i :: 0 <= i < |front| ==> front[i] == KeyList(req)[i];
    assert KeyList(req)[|req| - 1] == req[|req| - 1].key;
  }

  lemma {:induction false} UnknownAre(order: seq<string>, known: seq<string>)
    ensures forall key :: key in Unknown(order, known) <==> key in order && key !in known
  {
    if order != [] {
      UnknownAre(order[..|order| - 1], known);
      assert order == order[..|order| - 1] + [order[|order| - 1]];
    }
  }

  lemma {:induction false} UnknownAppend(a: seq<string>, b: seq<string>, known: seq<string>)
    ensures Unknown(a + b, known) == Unknown(a, known) + Unknown(b, known)
  {
    if b == [] {
      assert a + b == a;
    } else {
      assert (a + b)[..|a + b| - 1] == a + b[..|b| - 1];
      UnknownAppend(a, b[..|b| - 1], known);
    }
  }

  lemma {:induction false} AllKnown(order: seq<string>, known: seq<string>)
    requires forall key :: key in order ==> key in known
    ensures Unknown(order, known) == []
  {
    if order != [] { AllKnown(order[..|order| - 1], known); }
  }

  lemma {:induction false} NoneKnown(order: seq<string>, known: seq<string>)
    requires forall key :: key in order ==> key !in known
    ensures Unknown(order, known) == order
  {
    if order != [] {
      var front, key := order[..|order| - 1], order[|order| - 1];
      assert order == front + [key];
      NoneKnown(front, known);
      assert key in order;
    }
  }

  lemma NamedOneMore(order: seq<string>, key: string, t: Table)
    ensures var r := Named(order, t);
      Named(order + [key], t) == if IsSection(t, key) && key !in r then r + [key] else r
  {
    assert (order + [key])[..|order|] == order;
  }

  lemma {:induction false} NamedSections(sections: seq<string>, t: Table)
    requires Distinct(sections) && forall key :: key in sections ==> IsSection(t, key)
    ensures Named(sections, t) == sections
  {
    hide IsSection, Named;
    if sections == [] {
      NamedNothing(t);
    } else {
      var front, last := sections[..|sections| - 1], sections[|sections| - 1];
      assert sections == front + [last] && last in sections;
      NamedSections(front, t);
      NamedOneMore(front, last, t);
    }
  }

  lemma NamedNothing(t: Table)
    ensures Named([], t) == []
  {
  }

  /** Of an order made of distinct sections and of entries that are none, the sections are listed. */
  lemma {:induction false} NamedIs(sections: seq<string>, others: seq<string>, t: Table)
    requires Distinct(sections) && forall key :: key in sections ==> IsSection(t, key)
    requires forall key :: key in others ==> !IsSection(t, key)
    ensures Named(sections + others, t) == sections
  {
    hide IsSection, Named, Distinct;
    if others == [] {
      assert sections + others == sections;
      NamedSections(sections, t);
    } else {
      var front, last := others[..|others| - 1], others[|others| - 1];
      assert sections + others == (sections + front) + [last] && last in others;
      NamedIs(sections, front, t);
      NamedOneMore(sections + front, last, t);
    }
  }

  // ----- the order written

  /** The `order` entry is not itself a section, or nothing is enabled. */
  predicate OrderIsSafe(t: Table, req: seq<TooltipSection>) {
    IsSection(t, "order") ==> EnabledKeys(req) == []
  }

  lemma WithOrderKeeps(t: Table, req: seq<TooltipSection>)
    requires DistinctKeys(t) && OrderIsSafe(t, req)
    ensures var t1 := WithOrder(t, req);
      && SameShape(t, t1) && DistinctKeys(t1)
      && Order(t1) == DesiredOrder(t, req)
      && (forall key :: key != "order" || IsSection(t, "order") ==> Get(t1, key) == Get(t, key))
  {
    hide Find, Keys, EnabledKeys, Unknown;
    var desired := DesiredOrder(t, req);
    if IsSection(t, "order") {
      NoOrder(t);
      assert desired == Order(t);
    } else if desired != Order(t) {
      var item := Array(ArrayOf(desired));
      forall key
        ensures Get(Set(t, "order", item), key) == if key == "order" then Some(item) else Get(t, key)
      {
        SetGets(t, "order", item, key);
      }
      SetGets(t, "order", item, "order");
      SetShape(t, "order", item);
      TextsOfArray(desired);
    }
  }

  lemma NoOrder(t: Table)
    requires IsSection(t, "order")
    ensures Order(t) == [] && Unknown([], Keys(t)) == []
  {
  }

  // ----- the items written

  /** The section's entry has the requested items, and its title as it was. */
  predicate Written(t: Table, r: Table, section: TooltipSection) {
    && IsSection(r, section.key) && IsSection(t, section.key)
    && ItemsOf(Get(r, section.key).value) == section.items
    && Get(r, section.key).value.title == Get(t, section.key).value.title
  }

  lemma {:induction false} AllItemsAreWritten(t: Table, t1: Table, req: seq<TooltipSection>)
    requires DistinctKeys(t1) && Distinct(KeyList(req))
    requires forall section :: section in req ==> IsSection(t, section.key) && Get(t1, section.key) == Get(t, section.key)
    ensures var r := WithAllItems(t, t1, req);
      && r.Some? && DistinctKeys(r.value) && SameShape(t1, r.value)
      && (forall section :: section in req ==> Written(t, r.value, section))
      && (forall key :: key !in KeyList(req) ==> Get(r.value, key) == Get(t1, key))
  {
    hide Find, Get, Set, Distinct, SameShape, DistinctKeys, Written;
    if req == [] {
      SelfShape(t1);
    } else {
      var front, last := req[..|req| - 1], req[|req| - 1];
      assert req == front + [last];
      FrontIsDistinct(req);
      AllItemsAreWritten(t, t1, front);
      LastIsNew(req);
      OneIsWritten(t, t1, front, last, WithAllItems(t, t1, front).value);
    }
  }

  lemma SelfShape(t: Table)
    ensures SameShape(t, t)
  {
  }

  lemma FrontIsDistinct(req: seq<TooltipSection>)
    requires Distinct(KeyList(req)) && req != []
    ensures Distinct(KeyList(req[..|req| - 1]))
    ensures KeyList(req) == KeyList(req[..|req| - 1]) + [req[|req| - 1].key]
  {
    assert KeyList(req[..|req| - 1]) == KeyList(req)[..|req| - 1];
  }

  lemma OneIsWritten(t: Table, t1: Table, front: seq<TooltipSection>, last: TooltipSection, before: Table)
    requires DistinctKeys(before) && SameShape(t1, before) && last.key !in KeyList(front)
    requires IsSection(t, last.key) && Get(before, last.key) == Get(t, last.key)
    requires forall section :: section in front ==> Written(t, before, section)
    requires forall key :: key !in KeyList(front) ==> Get(before, key) == Get(t1, key)
    ensures IsSection(before, last.key)
    ensures var r := if ItemsChange(t, last) then Set(before, last.key, WithItems(Get(before, last.key).value, last.items)) else before;
      && DistinctKeys(r) && SameShape(t1, r)
      && (forall section :: section in front + [last] ==> Written(t, r, section))
      && (forall key :: key !in KeyList(front) + [last.key] ==> Get(r, key) == Get(t1, key))
  {
    hide Find, Get, Set, Distinct, DistinctKeys, SameShape;
    if ItemsChange(t, last) {
      var item := WithItems(Get(before, last.key).value, last.items);
      var r := Set(before, last.key, item);
      forall key
        ensures Get(r, key) == if key == last.key then Some(item) else Get(before, key)
      {
        SetGets(before, last.key, item, key);
      }
      SetGets(before, last.key, item, last.key);
      SetShape(before, last.key, item);
      ShapesChain(t1, before, r);
      TextsOfArray(last.items);
      forall section | section in front + [last]
        ensures Written(t, r, section)
      {
        KeyIsListed(front, section);
      }
    }
  }

  // ----- results

  lemma RequestedAreSections(t: Table, req: seq<TooltipSection>)
    requires DistinctKeys(t) && NamesSections(t, req)
    ensures forall section :: section in req ==> IsSection(t, section.key)
    ensures forall key :: key in KeyList(req) <==> IsSection(t, key)
  {
    hide IsSection, Keys, KeyList;
    KeysAreSections(t);
    forall section | section in req
      ensures IsSection(t, section.key)
    {
      KeyIsListed(req, section);
    }
  }

  lemma SafeOrderGets(t: Table, req: seq<TooltipSection>)
    requires DistinctKeys(t) && OrderIsSafe(t, req) && NamesSections(t, req)
    ensures forall section :: section in req ==> Get(WithOrder(t, req), section.key) == Get(t, section.key)
  {
    hide Find, Get, Keys, WithOrder, Distinct, KeyList, SameShape, DistinctKeys, DesiredOrder, Order;
    WithOrderKeeps(t, req);
    RequestedAreSections(t, req);
    forall section | section in req
      ensures Get(WithOrder(t, req), section.key) == Get(t, section.key)
    {
      assert section.key == "order" ==> IsSection(t, "order");
    }
  }

  /** What the table holds after an edit that could be saved. */
  lemma SavedTable(t: Table, req: seq<TooltipSection>)
    requires DistinctKeys(t) && NamesSections(t, req) && OrderIsSafe(t, req)
    ensures var r := WithAllItems(t, WithOrder(t, req), req);
      && r.Some? && DistinctKeys(r.value) && SameShape(t, r.value)
      && (forall section :: section in req ==> Written(t, r.value, section))
      && (forall key :: key !in KeyList(req) && key != "order" ==> Get(r.value, key) == Get(t, key))
      && Order(r.value) == DesiredOrder(t, req)
  {
    hide Find, Get, Keys, WithAllItems, WithOrder, Distinct, KeyList, SameShape, DistinctKeys, DesiredOrder, Order, Written;
    WithOrderKeeps(t, req);
    SafeOrderGets(t, req);
    RequestedAreSections(t, req);
    var t1 := WithOrder(t, req);
    AllItemsAreWritten(t, t1, req);
    var r := WithAllItems(t, t1, req).value;
    ShapesChain(t, t1, r);
    OrderStays(t, t1, r, req);
  }

  lemma OrderStays(t: Table, t1: Table, r: Table, req: seq<TooltipSection>)
    requires forall key :: key !in KeyList(req) ==> Get(r, key) == Get(t1, key)
    requires forall section :: section in req ==> Written(t, r, section)
    requires forall key :: key in KeyList(req) <==> IsSection(t, key)
    requires forall key :: key != "order" || IsSection(t, "order") ==> Get(t1, key) == Get(t, key)
    ensures Order(r) == Order(t1)
  {
    hide Find, Get, KeyList;
    if IsSection(t, "order") {
      assert "order" in KeyList(req);
      SomeRequest(req, "order");
    }
  }

  lemma SomeRequest(req: seq<TooltipSection>, key: string)
    ensures key in KeyList(req) ==> exists section :: section in req && section.key == key
  {
    if key in KeyList(req) {
      var i :| 0 <= i < |KeyList(req)| && KeyList(req)[i] == key;
      assert req[i] in req;
    }
  }

  /** The keys of the edit as reading lists them: the enabled ones as requested, then the others in table order. */
  function ReadOrder(t: Table, req: seq<TooltipSection>): seq<string> {
    EnabledKeys(req) + Rest(t, |t|, EnabledKeys(req))
  }

  /** Reading `r` gives what the edit of `t` asked for: the enabled sections in the requested order and then
      the others in table order, each with the requested items and state and the title it had. The order entry
      begins with the enabled keys and ends with the entries that named no section; nothing else changed. */
  ghost predicate ReadsBack(t: Table, req: seq<TooltipSection>, r: Table) {
    && DistinctKeys(r)
    && Keys(r) == ReadOrder(t, req)
    && Order(r) == DesiredOrder(t, req)
    && (forall section :: section in req ==> SectionReadsBack(t, section, r))
    && (forall key :: key !in KeyList(req) && key != "order" ==> Get(r, key) == Get(t, key))
  }

  predicate SectionReadsBack(t: Table, section: TooltipSection, r: Table) {
    && IsSection(t, section.key) && IsSection(r, section.key)
    && SectionAt(r, section.key) == section.(title := SectionAt(t, section.key).title)
  }

  /** An accepted edit is saved and reads back, unless the table has a section called `order` and the edit
      enables anything. */
  lemma SavedEditReadsBack(t: Table, req: seq<TooltipSection>, available: set<string>)
    requires DistinctKeys(t) && NamesSections(t, req) && AllAllowed(t, req, available) && OrderIsSafe(t, req)
    ensures Applied(t, req, available).Saved? && ReadsBack(t, req, Applied(t, req, available).table)
  {
    hide Find, Get, Keys, WithAllItems, WithOrder, Distinct, KeyList, DesiredOrder, Order, SameShape, ReadOrder, DistinctKeys;
    hide NamesSections, Written, SectionReadsBack;
    SavedTable(t, req);
    var r := WithAllItems(t, WithOrder(t, req), req).value;
    SavedKeys(t, req, r);
    forall section | section in req
      ensures SectionReadsBack(t, section, r)
    {
      SavedSection(t, req, r, section);
    }
  }

  lemma WrittenAreSections(t: Table, req: seq<TooltipSection>, r: Table)
    requires Distinct(KeyList(req)) && forall section :: section in req ==> Written(t, r, section)
    ensures forall key :: key in EnabledKeys(req) ==> IsSection(r, key)
  {
    EnabledKeysAre(req);
    hide Find, Get, EnabledKeys;
    forall key | key in EnabledKeys(req)
      ensures IsSection(r, key)
    {
      SomeRequest(req, key);
    }
  }

  lemma SavedKeys(t: Table, req: seq<TooltipSection>, r: Table)
    requires DistinctKeys(t) && NamesSections(t, req) && DistinctKeys(r) && SameShape(t, r)
    requires Order(r) == DesiredOrder(t, req)
    requires forall section :: section in req ==> Written(t, r, section)
    requires forall key :: key !in KeyList(req) && key != "order" ==> Get(r, key) == Get(t, key)
    ensures Keys(r) == ReadOrder(t, req)
  {
    var listed, others := EnabledKeys(req), Unknown(Order(t), Keys(t));
    EnabledKeysAre(req);
    UnknownAre(Order(t), Keys(t));
    KeysAreSections(t);
    hide Find, Get, EnabledKeys, Unknown, KeyList, Distinct, SameShape, DistinctKeys, Order, Completed, Rest, Named;
    WrittenAreSections(t, req, r);
    hide Written, IsSection, NamesSections;
    assert forall key :: key in others ==> !IsSection(r, key) by { UnknownAreNot(t, r, others); }
    KeysOfOrder(t, r, listed, others);
  }

  lemma KeysOfOrder(t: Table, r: Table, listed: seq<string>, others: seq<string>)
    requires DistinctKeys(r) && SameShape(t, r) && Order(r) == listed + others
    requires Distinct(listed) && forall key :: key in listed ==> IsSection(r, key)
    requires forall key :: key in others ==> !IsSection(r, key)
    ensures Keys(r) == listed + Rest(t, |t|, listed)
  {
    hide Distinct, SameShape, DistinctKeys, Order, Completed, Rest, Named, Keys, IsSection;
    NamedIs(listed, others, r);
    CompletedIs(listed, r, |r|);
    RestOfShape(t, r, |r|, listed);
    ShapeIsLonger(t, r);
    KeysAre(r);
  }

  lemma UnknownAreNot(t: Table, r: Table, others: seq<string>)
    requires SameShape(t, r) && DistinctKeys(r) && forall key :: key in others ==> !IsSection(t, key)
    ensures forall key :: key in others ==> !IsSection(r, key)
  {
    hide IsSection, SameShape, DistinctKeys;
    forall key | key in others
      ensures !IsSection(r, key)
    {
      ShapeKeepsSections(t, r, key);
    }
  }

  lemma KeysAre(t: Table)
    ensures Keys(t) == Completed(Named(Order(t), t), t, |t|)
  {
  }

  lemma ShapeIsLonger(a: Table, b: Table)
    requires SameShape(a, b)
    ensures |a| <= |b|
  {
  }

  lemma ShapeKeepsSections(a: Table, b: Table, key: string)
    requires SameShape(a, b) && DistinctKeys(b)
    ensures IsSection(b, key) ==> IsSection(a, key)
  {
    if IsSection(b, key) {
      FindIs(a, key, Find(b, key));
    }
  }

  lemma SavedSection(t: Table, req: seq<TooltipSection>, r: Table, section: TooltipSection)
    requires DistinctKeys(t) && NamesSections(t, req) && section in req
    requires Order(r) == DesiredOrder(t, req) && Written(t, r, section)
    ensures SectionReadsBack(t, section, r)
  {
    hide Find, Get, EnabledKeys, Unknown, KeyList, Distinct, DistinctKeys;
    EnabledKeysAre(req);
    UnknownAre(Order(t), Keys(t));
    KeysAreSections(t);
    assert section.key in DesiredOrder(t, req) <==> section.enabled;
  }

  /** The read order has every section of the table, once: the edit never loses or adds one. */
  lemma ReadOrderIsComplete(t: Table, req: seq<TooltipSection>)
    requires DistinctKeys(t) && NamesSections(t, req) && OrderIsSafe(t, req)
    ensures forall key :: key in ReadOrder(t, req) <==> key in Keys(t)
    ensures Distinct(ReadOrder(t, req))
  {
    hide Find, Get, Keys, WithAllItems, WithOrder, Distinct, KeyList, DesiredOrder, Order, SameShape, ReadOrder, Written, IsSection;
    SavedTable(t, req);
    var r := WithAllItems(t, WithOrder(t, req), req).value;
    SavedKeys(t, req, r);
    KeysAreSections(t);
    KeysAreSections(r);
    forall key
      ensures IsSection(r, key) <==> IsSection(t, key)
    {
      ShapeKeepsSections(t, r, key);
      ShapeHasSections(t, r, key);
    }
  }

  lemma ShapeHasSections(a: Table, b: Table, key: string)
    requires SameShape(a, b)
    ensures IsSection(a, key) ==> IsSection(b, key)
  {
    if IsSection(a, key) { FindIs(b, key, Find(a, key)); }
  }

  /** When the table does have a section called `order` and something is enabled, that section is lost: the
      edit either stops the program or saves a table without it. */
  lemma SectionCalledOrderIsLost(t: Table, req: seq<TooltipSection>, available: set<string>)
    requires DistinctKeys(t) && NamesSections(t, req) && AllAllowed(t, req, available) && !OrderIsSafe(t, req)
    ensures var o := Applied(t, req, available); o.Stopped? || (o.Saved? && !IsSection(o.table, "order"))
    ensures IsSection(t, "order")
  {
    hide Find, Get, Set, Keys, WithAllItems, Distinct, KeyList, DistinctKeys, EnabledKeys, Unknown, AllAllowed, NamesSections;
    NoOrder(t);
    var item := Array(ArrayOf(DesiredOrder(t, req)));
    SetGets(t, "order", item, "order");
    var r := WithAllItems(t, WithOrder(t, req), req);
    if r.Some? { NonSectionStays(t, WithOrder(t, req), req, "order"); }
  }

  lemma {:induction false} NonSectionStays(t: Table, t1: Table, req: seq<TooltipSection>, key: string)
    requires !IsSection(t1, key) && WithAllItems(t, t1, req).Some?
    ensures !IsSection(WithAllItems(t, t1, req).value, key)
  {
    hide Find, Get, Set, ItemsChange;
    if req != [] {
      var front, last := req[..|req| - 1], req[|req| - 1];
      NonSectionStays(t, t1, front, key);
      var before := WithAllItems(t, t1, front).value;
      if ItemsChange(t, last) {
        SetGets(before, last.key, WithItems(Get(before, last.key).value, last.items), key);
      }
    }
  }

  /** An accepted edit keeps every section exactly when no section is called `order` or nothing is enabled. */
  lemma SectionsAreKeptIff(t: Table, req: seq<TooltipSection>, available: set<string>)
    requires DistinctKeys(t) && NamesSections(t, req) && AllAllowed(t, req, available)
    ensures var o := Applied(t, req, available);
      (o.Saved? && forall key :: IsSection(t, key) ==> IsSection(o.table, key)) <==> OrderIsSafe(t, req)
  {
    hide Find, Get, Keys, WithAllItems, WithOrder, Distinct, KeyList, DistinctKeys, AllAllowed, NamesSections, ReadsBack, IsSection;
    if OrderIsSafe(t, req) {
      SavedEditReadsBack(t, req, available);
      SavedTable(t, req);
      forall key | IsSection(t, key)
        ensures IsSection(Applied(t, req, available).table, key)
      {
        ShapeHasSections(t, Applied(t, req, available).table, key);
      }
    } else {
      SectionCalledOrderIsLost(t, req, available);
    }
  }

  /** Saving the same edit again changes nothing. */
  lemma SavingTwiceChangesNothing(t: Table, req: seq<TooltipSection>, available: set<string>)
    requires DistinctKeys(t) && NamesSections(t, req) && AllAllowed(t, req, available) && OrderIsSafe(t, req)
    ensures Applied(t, req, available).Saved?
    ensures var r := Applied(t, req, available).table; Applied(r, req, available) == Saved(r, false)
  {
    hide Find, Get, Keys, WithAllItems, WithOrder, Distinct, DistinctKeys, Order, ReadOrder, SectionAt;
    hide Applied, AllAllowed, NamesSections, DesiredOrder, SectionReadsBack, KeyList, ReadsBack;
    SavedEditReadsBack(t, req, available);
    var r := Applied(t, req, available).table;
    ReadBackFacts(t, req, r);
    StillAccepted(t, req, available, r);
    DesiredAgain(t, req, r);
    NoItemsChange(t, req, r);
    NothingToWrite(r, req);
    assert Applied(r, req, available) == Saved(r, false) by { AppliedUnchanged(r, req, available); }
  }

  lemma ReadBackFacts(t: Table, req: seq<TooltipSection>, r: Table)
    requires ReadsBack(t, req, r)
    ensures Keys(r) == ReadOrder(t, req) && Order(r) == DesiredOrder(t, req) && DistinctKeys(r)
    ensures forall section :: section in req ==> SectionReadsBack(t, section, r)
  {
  }

  lemma StillAccepted(t: Table, req: seq<TooltipSection>, available: set<string>, r: Table)
    requires DistinctKeys(t) && NamesSections(t, req) && OrderIsSafe(t, req) && Keys(r) == ReadOrder(t, req)
    requires forall section :: section in req ==> SectionReadsBack(t, section, r)
    ensures NamesSections(r, req) && AllAllowed(r, req, available)
  {
    hide Find, Get, Keys, Distinct, DistinctKeys, Order, ReadOrder, KeyList, OrderIsSafe;
    ReadOrderIsComplete(t, req);
  }

  lemma DesiredAgain(t: Table, req: seq<TooltipSection>, r: Table)
    requires DistinctKeys(t) && NamesSections(t, req) && OrderIsSafe(t, req) && Keys(r) == ReadOrder(t, req)
    requires Order(r) == DesiredOrder(t, req)
    ensures DesiredOrder(r, req) == Order(r)
  {
    hide Find, Get, Keys, Distinct, DistinctKeys, Order, ReadOrder, KeyList, OrderIsSafe, EnabledKeys, Unknown;
    var listed, others := EnabledKeys(req), Unknown(Order(t), Keys(t));
    ReadOrderIsComplete(t, req);
    EnabledKeysAre(req);
    UnknownAre(Order(t), Keys(t));
    UnknownAppend(listed, others, Keys(r));
    AllKnown(listed, Keys(r));
    NoneKnown(others, Keys(r));
    assert [] + others == others;
  }

  lemma NoItemsChange(t: Table, req: seq<TooltipSection>, r: Table)
    requires forall section :: section in req ==> SectionReadsBack(t, section, r)
    ensures forall section :: section in req ==> !ItemsChange(r, section)
  {
    hide Find, Get, Order;
  }

  lemma {:induction false} NothingToWrite(r: Table, req: seq<TooltipSection>)
    requires forall section :: section in req ==> !ItemsChange(r, section)
    ensures WithAllItems(r, r, req) == Some(r)
  {
    hide ItemsChange;
    if req != [] { NothingToWrite(r, req[..|req| - 1]); }
  }

  lemma AppliedUnchanged(r: Table, req: seq<TooltipSection>, available: set<string>)
    requires NamesSections(r, req) && AllAllowed(r, req, available)
    requires DesiredOrder(r, req) == Order(r) && WithAllItems(r, r, req) == Some(r)
    requires forall section :: section in req ==> !ItemsChange(r, section)
    ensures Applied(r, req, available) == Saved(r, false)
  {
    hide Find, Get, Order, NamesSections, AllAllowed, DesiredOrder, WithAllItems, ItemsChange;
  }

  // ----- what an edit reports

  /** `Set` keeps every other entry, and a section where it was one. */
  lemma SetKeepsSections(t: Table, key: string, item: Item)
    requires IsSection(t, key) && item.Section?
    ensures forall other :: IsSection(t, other) <==> IsSection(Set(t, key, item), other)
  {
    hide Find, Get, Set;
    forall other
      ensures IsSection(t, other) <==> IsSection(Set(t, key, item), other)
    {
      SetGets(t, key, item, other);
    }
  }

  /** Writing items stops the program exactly when some of them belong to what is no section any more. */
  lemma {:induction false} WritesUnlessLost(t: Table, t1: Table, req: seq<TooltipSection>)
    ensures WithAllItems(t, t1, req).Some? <==> forall section :: section in req && ItemsChange(t, section) ==> IsSection(t1, section.key)
    ensures WithAllItems(t, t1, req).Some? ==> forall key :: IsSection(t1, key) <==> IsSection(WithAllItems(t, t1, req).value, key)
  {
    hide Find, Get, Set, ItemsChange, IsSection;
    if req != [] {
      var front, last := req[..|req| - 1], req[|req| - 1];
      assert req == front + [last];
      WritesUnlessLost(t, t1, front);
      var before := WithAllItems(t, t1, front);
      if before.Some? && ItemsChange(t, last) && IsSection(before.value, last.key) {
        WrittenItem(before.value, last);
        SetKeepsSections(before.value, last.key, WithItems(Get(before.value, last.key).value, last.items));
      }
    }
  }

  lemma WrittenItem(t: Table, section: TooltipSection)
    requires IsSection(t, section.key)
    ensures Get(t, section.key).Some? && Get(t, section.key).value.Section?
  {
    hide Get;
  }

  /** Writing items leaves every entry that is no section alone. */
  lemma {:induction false} OthersStay(t: Table, t1: Table, req: seq<TooltipSection>, key: string)
    requires !IsSection(t1, key) && WithAllItems(t, t1, req).Some?
    ensures Get(WithAllItems(t, t1, req).value, key) == Get(t1, key)
  {
    hide Find, Get, Set, ItemsChange;
    if req != [] {
      var front, last := req[..|req| - 1], req[|req| - 1];
      OthersStay(t, t1, front, key);
      var before := WithAllItems(t, t1, front).value;
      if ItemsChange(t, last) {
        SetGets(before, last.key, WithItems(Get(before, last.key).value, last.items), key);
      }
    }
  }

  /** A changed order is in the saved table, whatever else was written. */
  lemma OrderIsSaved(t: Table, req: seq<TooltipSection>)
    requires DesiredOrder(t, req) != Order(t) && WithAllItems(t, WithOrder(t, req), req).Some?
    ensures Order(WithAllItems(t, WithOrder(t, req), req).value) == DesiredOrder(t, req)
  {
    hide Find, Get, Set, Keys, WithAllItems, EnabledKeys, Unknown, DesiredOrder;
    var item := Array(ArrayOf(DesiredOrder(t, req)));
    SetGets(t, "order", item, "order");
    TextsOfArray(DesiredOrder(t, req));
    OthersStay(t, WithOrder(t, req), req, "order");
  }

  /** Changed items are in the saved table. */
  lemma ItemsAreSaved(t: Table, req: seq<TooltipSection>, section: TooltipSection)
    requires DistinctKeys(t) && NamesSections(t, req) && DesiredOrder(t, req) == Order(t)
    requires section in req && ItemsChange(t, section)
    ensures WithAllItems(t, t, req).Some? && WithAllItems(t, t, req).value != t
  {
    hide Find, Get, Set, Keys, WithAllItems, Distinct, DistinctKeys, KeyList, DesiredOrder, Order, SameShape;
    RequestedAreSections(t, req);
    AllItemsAreWritten(t, t, req);
    assert Written(t, WithAllItems(t, t, req).value, section);
  }

  /** A saved edit reports a change, and so is written to the file, exactly when the table has changed. */
  lemma ChangedIff(t: Table, req: seq<TooltipSection>, available: set<string>)
    requires DistinctKeys(t) && Applied(t, req, available).Saved?
    ensures var saved := Applied(t, req, available); saved.changed <==> saved.table != t
  {
    hide Find, Get, Set, Keys, WithAllItems, Distinct, DistinctKeys, KeyList, DesiredOrder, Order, ItemsChange, AllAllowed, NamesSections;
    if DesiredOrder(t, req) != Order(t) {
      OrderIsSaved(t, req);
    } else if section :| section in req && ItemsChange(t, section) {
      ItemsAreSaved(t, req, section);
    } else {
      NothingToWrite(t, req);
    }
  }

  // ----- which edits are refused

  lemma KeysRead(t: Table)
    requires DistinctKeys(t)
    ensures KeyList(Sections(t)) == Keys(t)
  {
    hide Keys, Get, IsSection, Sections;
    ReadingListsSections(t);
  }

  lemma {:induction false} OccursOnce(keys: seq<string>)
    ensures Distinct(keys) <==> forall key :: key in keys ==> multiset(keys)[key] == 1
  {
    if keys != [] {
      var front, last := keys[..|keys| - 1], keys[|keys| - 1];
      assert keys == front + [last];
      assert multiset(keys) == multiset(front) + multiset{last};
      OccursOnce(front);
      DistinctFront(front, last);
      assert last in front <==> last in multiset(front);
      assert forall key :: key in keys <==> key in front || key == last;
    }
  }

  lemma DistinctFront(front: seq<string>, last: string)
    ensures Distinct(front + [last]) <==> Distinct(front) && last !in front
  {
    if Distinct(front + [last]) {
      assert forall i :: 0 <= i < |front| ==> (front + [last])[i] == front[i];
      assert (front + [last])[|front|] == last;
    }
  }

  lemma SameMembersOnce(a: seq<string>, b: seq<string>)
    requires Distinct(b)
    ensures Distinct(a) && (forall key :: key in a ==> key in b) && (forall key :: key in b ==> key in a)
       <==> multiset(a) == multiset(b)
  {
    hide Distinct;
    OccursOnce(a);
    OccursOnce(b);
    assert forall key :: key in a <==> key in multiset(a);
    assert forall key :: key in b <==> key in multiset(b);
    if Distinct(a) && (forall key :: key in a ==> key in b) && (forall key :: key in b ==> key in a) {
      forall key
        ensures multiset(a)[key] == multiset(b)[key]
      {
      }
      assert multiset(a) == multiset(b);
    }
  }

  /** The section read under the key of `section` had the item. */
  ghost predicate HadItem(t: Table, section: TooltipSection, item: string) {
    exists was :: was in Sections(t) && was.key == section.key && item in was.items
  }

  lemma HadItemIff(t: Table, section: TooltipSection, item: string)
    requires DistinctKeys(t)
    ensures HadItem(t, section, item) <==> IsSection(t, section.key) && item in SectionAt(t, section.key).items
  {
    hide Get, Keys, Order, Sections, IsSection, SectionAt;
    SectionRead(t, section.key);
    forall was | was in Sections(t) && was.key == section.key
      ensures IsSection(t, section.key) && was == SectionAt(t, section.key)
    {
      ReadSection(t, was);
    }
  }

  lemma SectionRead(t: Table, key: string)
    requires DistinctKeys(t)
    ensures IsSection(t, key) ==> SectionAt(t, key) in Sections(t) && SectionAt(t, key).key == key
  {
    hide Get, Keys, Order, Sections;
    KeysAreSections(t);
    ReadingListsSections(t);
    if IsSection(t, key) {
      var i :| 0 <= i < |Keys(t)| && Keys(t)[i] == key;
      assert Sections(t)[i] == SectionAt(t, key);
    }
  }

  lemma ReadSection(t: Table, was: TooltipSection)
    requires DistinctKeys(t) && was in Sections(t)
    ensures IsSection(t, was.key) && was == SectionAt(t, was.key)
  {
    hide Get, Keys, Order, Sections;
    ReadingListsSections(t);
    var i :| 0 <= i < |Sections(t)| && Sections(t)[i] == was;
    assert was == SectionAt(t, Keys(t)[i]);
  }

  /** An edit is turned away exactly when its keys are no rearrangement of the keys read, or else exactly when it
      puts an item into a section that neither the tooltip offers nor that section had when it was read. */
  lemma RefusedIff(t: Table, req: seq<TooltipSection>, available: set<string>)
    requires DistinctKeys(t)
    ensures var o, rearranged := Applied(t, req, available), multiset(KeyList(req)) == multiset(KeyList(Sections(t)));
      && (o == SectionsChanged <==> !rearranged)
      && (o == NotAvailable <==> rearranged && exists section, item ::
            section in req && item in section.items && item !in available && !HadItem(t, section, item))
  {
    hide Find, Get, Set, Keys, Sections, WithAllItems, Distinct, DistinctKeys, KeyList, Changes, WithOrder, IsSection, SectionAt, HadItem;
    KeysRead(t);
    KeysAreSections(t);
    SameMembersOnce(KeyList(req), Keys(t));
    forall section, item | section in req && item in section.items
      ensures HadItem(t, section, item) <==> IsSection(t, section.key) && item in SectionAt(t, section.key).items
    {
      HadItemIff(t, section, item);
    }
  }

  /** An edit that is not refused stops the program exactly when it enables a section, and changes the items of
      a section called `order`. */
  lemma StoppedIff(t: Table, req: seq<TooltipSection>, available: set<string>)
    requires DistinctKeys(t) && NamesSections(t, req) && AllAllowed(t, req, available)
    ensures Applied(t, req, available) == Stopped <==>
      EnabledKeys(req) != [] && exists section :: section in req && section.key == "order" && ItemsChange(t, section)
  {
    hide Find, Get, Set, Keys, WithAllItems, Distinct, DistinctKeys, KeyList, EnabledKeys, AllAllowed, NamesSections, Unknown;
    var t1 := WithOrder(t, req);
    WritesUnlessLost(t, t1, req);
    OrderReplaced(t, req);
  }

  lemma OrderReplaced(t: Table, req: seq<TooltipSection>)
    ensures forall key :: IsSection(t, key) ==> (IsSection(WithOrder(t, req), key) <==> key != "order" || EnabledKeys(req) == [])
  {
    hide Find, Get, Set, Keys, EnabledKeys, Unknown;
    if IsSection(t, "order") { NoOrder(t); }
    forall key | IsSection(t, key)
      ensures IsSection(WithOrder(t, req), key) <==> key != "order" || EnabledKeys(req) == []
    {
      SetGets(t, "order", Array(ArrayOf(DesiredOrder(t, req))), key);
    }
  }

  // ----- what reading shows

  /** A section is read under its title, or under its key when it has none; it is enabled exactly when the order lists
      it; and of its items the strings are read, in order. */
  lemma SectionReads(t: Table, i: nat)
    requires DistinctKeys(t) && i < |t| && t[i].item.Section?
    ensures exists section :: section in Sections(t) && section.key == t[i].key
              && section.title == (match t[i].item.title case Some(title) => title case None => t[i].key)
              && (section.enabled <==> Get(t, "order").Some? && Get(t, "order").value.Array? && Str(t[i].key) in Get(t, "order").value.values)
              && (match t[i].item.items case Some(values) => Texts(values) == section.items case None => section.items == [])
  {
    hide Find, Keys, Order, Sections;
    GetEntry(t, i);
    SectionRead(t, t[i].key);
    var section := SectionAt(t, t[i].key);
    OrderHas(t, t[i].key);
  }

  lemma OrderHas(t: Table, key: string)
    ensures key in Order(t) <==> Get(t, "order").Some? && Get(t, "order").value.Array? && Str(key) in Get(t, "order").value.values
  {
    hide Find, Get;
    if Get(t, "order").Some? && Get(t, "order").value.Array? { TextsHave(Get(t, "order").value.values, key); }
  }

  lemma {:induction false} TextsHave(values: seq<Value>, s: string)
    ensures s in Texts(values) <==> Str(s) in values
  {
    if values != [] {
      TextsHave(values[..|values| - 1], s);
      assert values == values[..|values| - 1] + [values[|values| - 1]];
    }
  }
}

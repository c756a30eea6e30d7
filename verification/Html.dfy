/** On-screen width of the HTML fragments the renderers emit (src/render/model.rs): tags have none, an
    entity counts as the one character it stands for. */
module Html {
  import opened Arithmetic
  import opened Wrappers

  /** Index of the first `c`, or the length when there is none. */
  function Find(s: string, c: char): (k: nat)
    ensures k <= |s|
    ensures k < |s| ==> s[k] == c
    ensures forall i :: 0 <= i < k ==> s[i] != c
  {
    if s == [] || s[0] == c then 0 else 1 + Find(s[1..], c)
  }

  lemma {:induction false} FindIs(s: string, c: char, k: nat)
    requires k <= |s| && (k < |s| ==> s[k] == c) && forall i :: 0 <= i < k ==> s[i] != c
    ensures Find(s, c) == k
  {
  }

  // ----- tags

  /** The text without its tags; an unclosed `<` and an empty tag stay. */
  function Stripped(s: string): string {
    if s == [] then []
    else if s[0] != '<' then [s[0]] + Stripped(s[1..])
    else
      var k := Find(s, '>');
      if k == |s| then s
      else (if k == 1 then "<>" else "") + Stripped(s[k + 1..])
  }

  method StripTags(text: string) returns (output: string)
    ensures output == Stripped(text)
  {
    hide Find, Stripped;
    output := "";
    var i := 0;
    NothingStripped();
    while i < |text|
      invariant i <= |text| && output + Stripped(text[i..]) == Stripped(text)
    {
      if text[i] == '<' {
        var tag, closed := TakeTag(text, i);
        StripTag(text, i, output, tag, closed);
        if !closed || tag == "<>" {
          output := output + tag;
        }
        i := i + |tag|;
      } else {
        StripCharacter(text, i, output);
        output := output + [text[i]];
        i := i + 1;
      }
    }
    assert text[i..] == [];
  }

  /** Reads from a `<` up to the next `>`, or to the end. */
  method TakeTag(text: string, start: nat) returns (tag: string, closed: bool)
    requires start < |text| && text[start] == '<'
    ensures var k := Find(text[start..], '>');
      closed == (k < |text| - start) && tag == if closed then text[start..][..k + 1] else text[start..]
  {
    var i := start + 1;
    tag, closed := "<", false;
    while i < |text| && !closed
      invariant start < i <= |text| && tag == text[start..i]
      invariant closed ==> start + 1 < i && text[i - 1] == '>'
      invariant forall k :: start <= k < (if closed then i - 1 else i) ==> text[k] != '>'
    {
      tag := tag + [text[i]];
      closed := text[i] == '>';
      i := i + 1;
    }
    FindIs(text[start..], '>', if closed then i - 1 - start else |text| - start);
    assert tag == text[start..][..i - start];
  }

  lemma StripTag(text: string, i: nat, output: string, tag: string, closed: bool)
    requires i < |text| && text[i] == '<'
    requires var k := Find(text[i..], '>');
      closed == (k < |text| - i) && tag == if closed then text[i..][..k + 1] else text[i..]
    ensures 0 < |tag| <= |text| - i
    ensures output + Stripped(text[i..]) == (if !closed || tag == "<>" then output + tag else output) + Stripped(text[i + |tag|..])
  {
    hide Find, Stripped;
    var rest := text[i..];
    WholeTag(rest, tag, closed);
    assert text[i + |tag|..] == rest[|tag|..];
    Regroup(output, if !closed || tag == "<>" then tag else "", Stripped(rest[|tag|..]));
    assert output + "" == output;
  }

  lemma WholeTag(rest: string, tag: string, closed: bool)
    requires rest != "" && rest[0] == '<'
    requires var k := Find(rest, '>'); closed == (k < |rest|) && tag == if closed then rest[..k + 1] else rest
    ensures 0 < |tag| <= |rest|
    ensures Stripped(rest) == (if !closed || tag == "<>" then tag else "") + Stripped(rest[|tag|..])
  {
    hide Find, Stripped;
    StripOne(rest);
    NothingStripped();
    assert !closed ==> rest[|tag|..] == "" && tag + "" == rest;
  }

  lemma StripCharacter(text: string, i: nat, output: string)
    requires i < |text| && text[i] != '<'
    ensures output + Stripped(text[i..]) == (output + [text[i]]) + Stripped(text[i + 1..])
  {
    hide Stripped;
    StripOne(text[i..]);
    assert text[i..][1..] == text[i + 1..];
    Regroup(output, [text[i]], Stripped(text[i + 1..]));
  }

  lemma NothingStripped()
    ensures Stripped("") == ""
    ensures forall s: string :: s[0..] == s && "" + Stripped(s) == Stripped(s)
  {
  }

  /** What the stripped text begins with. */
  lemma StripOne(s: string)
    requires s != []
    ensures s[0] != '<' ==> Stripped(s) == [s[0]] + Stripped(s[1..])
    ensures s[0] == '<' && Find(s, '>') == |s| ==> Stripped(s) == s
    ensures s[0] == '<' && Find(s, '>') < |s| ==>
      var k := Find(s, '>');
      Stripped(s) == (if s[..k + 1] == "<>" then s[..k + 1] else "") + Stripped(s[k + 1..])
  {
    hide Find;
    if s[0] == '<' {
      var k := Find(s, '>');
      if k < |s| { EmptyTag(s, k); }
    }
  }

  lemma EmptyTag(s: string, k: nat)
    requires 0 < k < |s| && s[0] == '<' && s[k] == '>'
    ensures s[..k + 1] == "<>" <==> k == 1
  {
    if k == 1 { assert s[..2] == [s[0], s[1]]; }
  }

  /** Every `<` opens a tag that is closed. */
  predicate TagsClosed(s: string) {
    s == [] || (if s[0] != '<' then TagsClosed(s[1..])
                else var k := Find(s, '>'); k < |s| && TagsClosed(s[k + 1..]))
  }

  lemma {:induction false} StrippedAppend(a: string, b: string)
    requires TagsClosed(a)
    ensures Stripped(a + b) == Stripped(a) + Stripped(b)
    ensures TagsClosed(a + b) == TagsClosed(b)
  {
    hide Find, Stripped;
    if a == [] {
      NothingStripped();
      assert a + b == b;
    } else if a[0] != '<' {
      StrippedAppend(a[1..], b);
      CharacterAppend(a, b);
    } else {
      StrippedAppend(a[Find(a, '>') + 1..], b);
      TagAppend(a, b);
    }
  }

  /** The step of `StrippedAppend` over a character outside tags. */
  lemma CharacterAppend(a: string, b: string)
    requires a != [] && a[0] != '<'
    requires Stripped(a[1..] + b) == Stripped(a[1..]) + Stripped(b)
    ensures Stripped(a + b) == Stripped(a) + Stripped(b)
    ensures TagsClosed(a + b) == TagsClosed(a[1..] + b)
  {
    hide Find, Stripped;
    StripOne(a);
    StripOne(a + b);
    assert (a + b)[1..] == a[1..] + b;
    Regroup([a[0]], Stripped(a[1..]), Stripped(b));
  }

  /** The step over a whole tag. */
  lemma TagAppend(a: string, b: string)
    requires a != [] && a[0] == '<' && Find(a, '>') < |a|
    requires var rest := a[Find(a, '>') + 1..]; Stripped(rest + b) == Stripped(rest) + Stripped(b)
    ensures Stripped(a + b) == Stripped(a) + Stripped(b)
    ensures TagsClosed(a + b) == TagsClosed(a[Find(a, '>') + 1..] + b)
  {
    hide Find, Stripped;
    StripOne(a);
    StripOne(a + b);
    var k := Find(a, '>');
    FindIs(a + b, '>', k);
    assert (a + b)[..k + 1] == a[..k + 1];
    assert (a + b)[k + 1..] == a[k + 1..] + b;
    Regroup(if a[..k + 1] == "<>" then a[..k + 1] else "", Stripped(a[k + 1..]), Stripped(b));
  }

  lemma Regroup(a: string, b: string, c: string)
    ensures (a + b) + c == a + (b + c)
  {
  }

  // ----- entities

  function Digit(c: char, radix: nat): Option<nat> {
    var d := if '0' <= c <= '9' then c as int - '0' as int
             else if 'a' <= c <= 'z' then c as int - 'a' as int + 10
             else if 'A' <= c <= 'Z' then c as int - 'A' as int + 10
             else radix;
    if d < radix then Some(d) else None
  }

  function Digits(s: string, radix: nat): Option<nat> {
    if s == [] then Some(0)
    else
      var last := |s| - 1;
      match (Digits(s[..last], radix), Digit(s[last], radix))
      case (Some(n), Some(d)) => Some(n * radix + d)
      case _ => None
  }

  /** An unsigned 32-bit number, with the leading plus sign that Rust's parsers accept. */
  function ParseU32(s: string, radix: nat): Option<nat> {
    var digits := if s != [] && s[0] == '+' then s[1..] else s;
    var n := Digits(digits, radix);
    if digits == [] || n.None? || n.value > U32_MAX then None else n
  }

  function CharFrom(code: Option<nat>): Option<nat> {
    if code.Some? && (code.value < 0xD800 || 0xE000 <= code.value < 0x11_0000) then code else None
  }

  /** The code point an entity name stands for. */
  function DecodedEntity(entity: string): Option<nat> {
    if entity == "nbsp" then Some(0xA0)
    else if entity == "amp" then Some(0x26)
    else if entity == "lt" then Some(0x3C)
    else if entity == "gt" then Some(0x3E)
    else if entity == "quot" then Some(0x22)
    else if entity == "apos" || entity == "#39" then Some(0x27)
    else if "#x" <= entity || "#X" <= entity then CharFrom(ParseU32(entity[2..], 16))
    else if "#" <= entity then CharFrom(ParseU32(entity[1..], 10))
    else None
  }

  /** Number of characters once entities are decoded. */
  function EntityWidth(s: string): nat {
    if s == [] then 0
    else if s[0] != '&' then 1 + EntityWidth(s[1..])
    else
      var k := Find(s, ';');
      if k == |s| then |s|
      else if DecodedEntity(s[1..k]).Some? then 1 + EntityWidth(s[k + 1..])
      else 1 + EntityWidth(s[1..])
  }

  /** What an `&` at the beginning counts for. */
  lemma EntityStep(s: string, k: nat)
    requires s != "" && s[0] == '&' && Find(s, ';') == k
    ensures EntityWidth(s) ==
      if k == |s| then |s| else if DecodedEntity(s[1..k]).Some? then 1 + EntityWidth(s[k + 1..]) else 1 + EntityWidth(s[1..])
    ensures k > 0
  {
    hide DecodedEntity;
  }

  lemma NothingIsWide()
    ensures EntityWidth("") == 0
  {
  }

  method DecodedEntityWidth(text: string) returns (width: nat)
    ensures width == EntityWidth(text)
  {
    hide Find, EntityWidth, DecodedEntity;
    width := 0;
    var rest := text;
    var start := Find(rest, '&');
    while start < |rest|
      invariant start == Find(rest, '&')
      invariant width + EntityWidth(rest) == EntityWidth(text)
      decreases |rest|
    {
      PlainWidth(rest, start);
      width := width + start;
      var entity := rest[start..];
      var end := Find(entity, ';');
      EntityStep(entity, end);
      if end == |entity| {
        return width + |entity|;
      }
      width := width + 1;
      rest := if DecodedEntity(entity[1..end]).Some? then entity[end + 1..] else entity[1..];
      start := Find(rest, '&');
    }
    PlainWidth(rest, start);
    assert rest[start..] == "";
    NothingIsWide();
    width := width + |rest|;
  }

  lemma {:induction false} PlainWidth(s: string, k: nat)
    requires k <= |s| && forall i :: 0 <= i < k ==> s[i] != '&'
    ensures EntityWidth(s) == k + EntityWidth(s[k..])
  {
    if k == 0 {
      assert s[0..] == s;
    } else {
      PlainWidth(s[1..], k - 1);
      assert s[1..][k - 1..] == s[k..];
    }
  }

  /** Every `&` has a `;` after it. */
  predicate EntitiesClosed(s: string) {
    s == [] || ((s[0] == '&' ==> Find(s, ';') < |s|) && EntitiesClosed(s[1..]))
  }

  lemma {:induction false} EntitiesClosedAfter(s: string, k: nat)
    requires k <= |s| && EntitiesClosed(s)
    ensures EntitiesClosed(s[k..])
  {
    if k == 0 {
      assert s[0..] == s;
    } else {
      assert s[1..][k - 1..] == s[k..];
      EntitiesClosedAfter(s[1..], k - 1);
    }
  }

  lemma {:induction false} EntityWidthAppend(a: string, b: string)
    requires EntitiesClosed(a)
    ensures EntityWidth(a + b) == EntityWidth(a) + EntityWidth(b)
    decreases |a|
  {
    hide DecodedEntity, Find;
    if a == [] {
      assert a + b == b;
    } else {
      assert (a + b)[1..] == a[1..] + b;
      EntityWidthAppend(a[1..], b);
      if a[0] == '&' {
        var k := Find(a, ';');
        FindIs(a + b, ';', k);
        assert (a + b)[1..k] == a[1..k];
        assert (a + b)[k + 1..] == a[k + 1..] + b;
        EntitiesClosedAfter(a, k + 1);
        EntityWidthAppend(a[k + 1..], b);
      }
    }
  }

  lemma {:induction false} EntitiesClosedAppend(a: string, b: string)
    requires EntitiesClosed(a) && EntitiesClosed(b)
    ensures EntitiesClosed(a + b)
  {
    if a == [] {
      assert a + b == b;
    } else {
      assert (a + b)[1..] == a[1..] + b;
      EntitiesClosedAppend(a[1..], b);
      if a[0] == '&' { FindIs(a + b, ';', Find(a, ';')); }
    }
  }

  // ----- visible width

  function VisibleWidth(s: string): nat {
    EntityWidth(Stripped(s))
  }

  /** A fragment whose tags and entities are all complete, as escaped text and whole elements are. */
  predicate Closed(s: string) {
    TagsClosed(s) && EntitiesClosed(Stripped(s))
  }

  /** The width of a closed fragment does not depend on what follows it. */
  lemma VisibleWidthAppend(a: string, b: string)
    requires Closed(a)
    ensures VisibleWidth(a + b) == VisibleWidth(a) + VisibleWidth(b)
    ensures Closed(b) ==> Closed(a + b)
  {
    StrippedAppend(a, b);
    EntityWidthAppend(Stripped(a), Stripped(b));
    if Closed(b) { EntitiesClosedAppend(Stripped(a), Stripped(b)); }
  }

  /** Without closure the width is not additive: two halves of one entity are wider apart. */
  lemma OpenTextIsNotAdditive()
    ensures VisibleWidth("&am" + "p;") == 1 && VisibleWidth("&am") + VisibleWidth("p;") == 5
  {
    hide Find, Stripped, DecodedEntity, EntityWidth;
    var s := "&amp;";
    assert "&am" + "p;" == s;
    assert s[1..4] == "amp" && s[5..] == "";
    PlainStays(s);
    FindIs(s, ';', 4);
    EntityStep(s, 4);
    AmpDecodes();
    NothingIsWide();
    PlainStays("&am");
    PlainStays("p;");
    FindIs("&am", ';', 3);
    EntityStep("&am", 3);
    PlainWidth("p;", 2);
    assert "p;"[2..] == "";
  }

  lemma AmpDecodes()
    ensures DecodedEntity("amp") == Some(0x26)
  {
  }

  lemma {:induction false} PlainStays(s: string)
    requires '<' !in s
    ensures Stripped(s) == s && TagsClosed(s)
  {
    if s != [] { PlainStays(s[1..]); }
  }

  /** One whole tag. */
  predicate IsTag(s: string) {
    |s| > 2 && s[0] == '<' && Find(s, '>') == |s| - 1
  }

  lemma TagHasNoWidth(s: string)
    requires IsTag(s)
    ensures Closed(s) && VisibleWidth(s) == 0
  {
    hide Find;
    assert s[|s|..] == [];
    NothingStripped();
    StripOne(s);
    assert s[..|s|] == s;
    NoTextNoWidth();
  }

  // ----- non-breaking spaces

  function NonBreakingSpaces(count: nat): string {
    if count == 0 then "" else "&nbsp;" + NonBreakingSpaces(count - 1)
  }

  lemma OneSpace()
    ensures Closed("&nbsp;") && VisibleWidth("&nbsp;") == 1
  {
    hide Find, Digits, ParseU32, CharFrom;
    var s := "&nbsp;";
    PlainStays(s);
    FindIs(s, ';', 5);
    assert s[1..5] == "nbsp" && s[6..] == "" && s[1..] == "nbsp;";
    hide DecodedEntity, Stripped;
    PlainEntities("nbsp;");
    assert DecodedEntity("nbsp").Some? by { NbspDecodes(); }
  }

  lemma NbspDecodes()
    ensures DecodedEntity("nbsp") == Some(0xA0)
  {
  }

  lemma NoTextNoWidth()
    ensures Closed("") && VisibleWidth("") == 0
  {
  }

  lemma {:induction false} PlainEntities(s: string)
    requires '&' !in s
    ensures EntitiesClosed(s) && EntityWidth(s) == |s|
  {
    if s != [] { PlainEntities(s[1..]); }
  }

  lemma {:induction false} SpacesWidth(count: nat)
    ensures Closed(NonBreakingSpaces(count)) && VisibleWidth(NonBreakingSpaces(count)) == count
  {
    hide VisibleWidth, Closed;
    if count == 0 {
      NoTextNoWidth();
    } else {
      OneSpace();
      SpacesWidth(count - 1);
      VisibleWidthAppend("&nbsp;", NonBreakingSpaces(count - 1));
    }
  }
}

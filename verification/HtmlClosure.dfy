/** When the visible width of a fragment does not depend on what follows it (src/render/model.rs). */
module HtmlClosure {
  import opened Wrappers
  import opened Html

  const CODE_POINTS: nat := 0x11_0000

  /** Nothing, a plus sign, or digits behind an optional plus sign that stay below the end of Unicode. */
  predicate BeginsNumber(s: string, radix: nat) {
    var digits := if s != [] && s[0] == '+' then s[1..] else s;
    digits == [] || (Digits(digits, radix).Some? && Digits(digits, radix).value < CODE_POINTS)
  }

  predicate BeginsNamed(s: string) {
    s <= "nbsp" || s <= "amp" || s <= "lt" || s <= "gt" || s <= "quot" || s <= "apos" || s <= "#39"
  }

  predicate IsHex(s: string) {
    "#x" <= s || "#X" <= s
  }

  /** The text is the beginning of an entity name. */
  predicate BeginsEntity(s: string) {
    BeginsNamed(s) || (if IsHex(s) then BeginsNumber(s[2..], 16) else "#" <= s && BeginsNumber(s[1..], 10))
  }

  /** An `&` is open at `i`: no `;` follows it, and its tail begins an entity name. */
  ghost predicate OpenAt(s: string, i: nat) {
    i < |s| && s[i] == '&' && ';' !in s[i..] && BeginsEntity(s[i + 1..])
  }

  ghost predicate OpenEntity(s: string) {
    exists i: nat :: OpenAt(s, i)
  }

  /** The width adds up with that of anything behind it. */
  ghost predicate Additive(a: string) {
    forall b: string :: VisibleWidth(a + b) == VisibleWidth(a) + VisibleWidth(b)
  }

  // ----- entity names

  lemma {:induction false} DigitsOnly(s: string, radix: nat, c: char)
    requires Digits(s, radix).Some? && c in s
    ensures Digit(c, radix).Some?
  {
    var last := |s| - 1;
    assert s == s[..last] + [s[last]];
    if c != s[last] { DigitsOnly(s[..last], radix, c); }
  }

  lemma NumberHasNo(s: string, radix: nat, c: char)
    requires ParseU32(s, radix).Some? && c in {'&', '<', ';'}
    ensures c !in s
  {
    hide Digits;
    var digits := if s != [] && s[0] == '+' then s[1..] else s;
    if c in digits { DigitsOnly(digits, radix, c); }
    assert s == digits || s == ['+'] + digits;
  }

  predicate IsNamed(entity: string) {
    entity in {"nbsp", "amp", "lt", "gt", "quot", "apos", "#39"}
  }

  lemma NamedHasNo(entity: string, c: char)
    requires IsNamed(entity) && c in {'&', '<', ';'}
    ensures c !in entity
  {
  }

  lemma NumericName(entity: string)
    requires DecodedEntity(entity).Some? && !IsNamed(entity)
    ensures (("#x" <= entity || "#X" <= entity) && ParseU32(entity[2..], 16).Some?)
         || ("#" <= entity && ParseU32(entity[1..], 10).Some?)
  {
    hide ParseU32;
  }

  /** No entity name contains any of the characters that matter here. */
  lemma NameHasNo(entity: string, c: char)
    requires DecodedEntity(entity).Some? && c in {'&', '<', ';'}
    ensures c !in entity
  {
    hide ParseU32, DecodedEntity, IsNamed;
    if IsNamed(entity) {
      NamedHasNo(entity, c);
    } else {
      NumericName(entity);
      if ("#x" <= entity || "#X" <= entity) && ParseU32(entity[2..], 16).Some? {
        NumberHasNo(entity[2..], 16, c);
        assert entity == entity[..2] + entity[2..];
      } else {
        NumberHasNo(entity[1..], 10, c);
        assert entity == entity[..1] + entity[1..];
      }
    }
  }

  // ----- beginnings of entity names

  lemma DigitsMore(digits: string, c: char, radix: nat)
    ensures var n, d := Digits(digits, radix), Digit(c, radix);
      Digits(digits + [c], radix) == if n.Some? && d.Some? then Some(n.value * radix + d.value) else None
  {
    assert (digits + [c])[..|digits|] == digits;
  }

  lemma {:induction false} DigitsPrefix(digits: string, u: string, radix: nat)
    requires radix > 0 && Digits(digits + u, radix).Some?
    ensures Digits(digits, radix).Some? && Digits(digits, radix).value <= Digits(digits + u, radix).value
  {
    hide Digits, Digit;
    if u == "" {
      assert digits + u == digits;
    } else {
      var last := |u| - 1;
      assert digits + u == digits + u[..last] + [u[last]];
      DigitsMore(digits + u[..last], u[last], radix);
      DigitsPrefix(digits, u[..last], radix);
      TimesRadix(Digits(digits + u[..last], radix).value, radix);
    }
  }

  lemma TimesRadix(n: nat, radix: nat)
    requires radix > 0
    ensures n <= n * radix
  {
  }

  lemma NumberBegins(s: string, u: string, radix: nat)
    requires radix > 0 && CharFrom(ParseU32(s + u, radix)).Some?
    ensures BeginsNumber(s, radix)
  {
    hide Digits;
    if s != "" {
      var digits := if s[0] == '+' then s[1..] else s;
      assert (s + u)[1..] == s[1..] + u;
      DigitsPrefix(digits, u, radix);
    }
  }

  /** A number that is no code point only because it is a surrogate is one with a further digit. */
  lemma NumberContinues(s: string, radix: nat) returns (u: string)
    requires radix in {10, 16} && BeginsNumber(s, radix)
    ensures ';' !in u && CharFrom(ParseU32(s + u, radix)).Some?
  {
    hide Digits;
    var plus := s != [] && s[0] == '+';
    var digits := if plus then s[1..] else s;
    if digits == [] {
      u := "1";
      DigitsMore("", '1', radix);
      NoDigits(radix);
      assert s + u == if plus then ['+'] + ("" + u) else "" + u;
    } else if CharFrom(Digits(digits, radix)).Some? {
      u := "";
      assert s + u == s;
    } else {
      u := "0";
      DigitsMore(digits, '0', radix);
      assert (s + u)[1..] == s[1..] + u;
    }
  }

  lemma NoDigits(radix: nat)
    ensures Digits("", radix) == Some(0)
  {
  }

  lemma NumericEntity(s: string)
    requires !IsNamed(s)
    ensures DecodedEntity(s)
         == if IsHex(s) then CharFrom(ParseU32(s[2..], 16))
            else if "#" <= s then CharFrom(ParseU32(s[1..], 10)) else None
  {
    hide ParseU32, CharFrom;
  }

  lemma NamedDecodes(s: string)
    ensures IsNamed(s) ==> DecodedEntity(s).Some? && BeginsNamed(s)
  {
  }

  lemma NameContinues(s: string) returns (u: string)
    requires BeginsNamed(s)
    ensures ';' !in u && DecodedEntity(s + u).Some?
  {
    hide ParseU32, CharFrom;
    var name := if s <= "nbsp" then "nbsp" else if s <= "amp" then "amp" else if s <= "lt" then "lt" else if s <= "gt" then "gt"
                else if s <= "quot" then "quot" else if s <= "apos" then "apos" else "#39";
    u := name[|s|..];
    assert s + u == name;
    NamedHasNo(name, ';');
  }

  lemma HashBegins(s: string)
    requires |s| < 2 && "#" <= s
    ensures BeginsNamed(s)
  {
  }

  /** Exactly the beginnings of entity names can be continued to one. */
  lemma BeginsEntityIff(s: string)
    ensures BeginsEntity(s) <==> exists u: string :: ';' !in u && DecodedEntity(s + u).Some?
  {
    if BeginsEntity(s) {
      var u := Continuation(s);
    }
    if u: string :| ';' !in u && DecodedEntity(s + u).Some? {
      EntityBegins(s, u);
    }
  }

  lemma Continuation(s: string) returns (u: string)
    requires BeginsEntity(s)
    ensures ';' !in u && DecodedEntity(s + u).Some?
  {
    hide DecodedEntity, ParseU32, CharFrom, BeginsNumber, BeginsNamed, IsNamed;
    if BeginsNamed(s) {
      u := NameContinues(s);
    } else if IsHex(s) {
      u := NumberContinues(s[2..], 16);
      assert (s + u)[2..] == s[2..] + u;
      assert IsHex(s + u) by { assert (s + u)[..2] == s[..2]; }
      NamedDecodes(s + u);
      if !IsNamed(s + u) { NumericEntity(s + u); }
    } else {
      u := NumberContinues(s[1..], 10);
      assert (s + u)[1..] == s[1..] + u;
      assert s[..1] == "#" && |s| >= 2 by { if |s| < 2 { HashBegins(s); } }
      assert !IsHex(s + u) by { assert (s + u)[..2] == s[..2]; }
      NamedDecodes(s + u);
      if !IsNamed(s + u) { NumericEntity(s + u); }
    }
  }

  lemma EntityBegins(s: string, u: string)
    requires DecodedEntity(s + u).Some?
    ensures BeginsEntity(s)
  {
    hide DecodedEntity, ParseU32, CharFrom, BeginsNumber;
    if !BeginsNamed(s) {
      assert |s| >= 1;
      assert !IsNamed(s + u);
      NumericEntity(s + u);
      if IsHex(s) {
        assert (s + u)[2..] == s[2..] + u;
        NumberBegins(s[2..], u, 16);
      } else {
        assert (s + u)[1..] == s[1..] + u;
        NumberBegins(s[1..], u, 10);
      }
    }
  }

  // ----- widths

  lemma NoneFound(s: string)
    ensures ';' !in s <==> Find(s, ';') == |s|
  {
    FindIs(s, ';', if ';' in s then Find(s, ';') else |s|);
  }

  lemma PlainStep(s: string)
    requires s != "" && s[0] != '&'
    ensures EntityWidth(s) == 1 + EntityWidth(s[1..])
  {
  }

  /** The first `;` of a text behind one that has none. */
  lemma FindBehind(t: string, r: string)
    requires ';' !in t
    ensures Find(t + r, ';') == |t| + Find(r, ';')
  {
    var j := Find(r, ';');
    assert forall i :: 0 <= i < |t| ==> (t + r)[i] == t[i] && t[i] in t;
    assert forall i :: 0 <= i < |r| ==> (t + r)[|t| + i] == r[i];
    FindIs(t + r, ';', |t| + j);
  }

  lemma {:induction false} NoSemicolon(s: string)
    requires ';' !in s
    ensures EntityWidth(s) == |s|
  {
    hide DecodedEntity, Find;
    if s != "" {
      NoSemicolon(s[1..]);
      NoneFound(s);
    }
  }

  lemma OpenLater(s: string, k: nat)
    requires k <= |s| && !OpenEntity(s)
    ensures !OpenEntity(s[k..])
  {
    hide BeginsEntity;
    forall i: nat
      ensures !OpenAt(s[k..], i)
    {
      if i < |s| - k {
        assert s[k..][i..] == s[k + i..] && s[k..][i + 1..] == s[k + i + 1..];
        assert !OpenAt(s, k + i);
      }
    }
  }

  /** Without an open `&`, the widths of two texts add up. */
  lemma {:induction false} ClosedAdds(t: string, r: string)
    requires !OpenEntity(t)
    ensures EntityWidth(t + r) == EntityWidth(t) + EntityWidth(r)
    decreases |t|
  {
    hide DecodedEntity, Find, OpenEntity;
    if t == "" {
      assert t + r == r;
    } else {
      assert (t + r)[1..] == t[1..] + r;
      OpenLater(t, 1);
      ClosedAdds(t[1..], r);
      if t[0] == '&' {
        var k := Find(t, ';');
        if k < |t| {
          FindIs(t + r, ';', k);
          assert (t + r)[1..k] == t[1..k] && (t + r)[k + 1..] == t[k + 1..] + r;
          OpenLater(t, k + 1);
          ClosedAdds(t[k + 1..], r);
        } else {
          UnfinishedAdds(t, r);
        }
      }
    }
  }

  lemma UnfinishedAdds(t: string, r: string)
    requires t != "" && t[0] == '&' && Find(t, ';') == |t| && !OpenEntity(t)
    requires EntityWidth(t[1..] + r) == EntityWidth(t[1..]) + EntityWidth(r)
    ensures EntityWidth(t + r) == EntityWidth(t) + EntityWidth(r)
  {
    hide DecodedEntity, Find, EntityWidth, BeginsEntity;
    var j := Find(r, ';');
    NoneFound(t);
    FindBehind(t, r);
    NoSemicolon(t);
    NoSemicolon(t[1..]);
    EntityStep(t + r, |t| + j);
    assert (t + r)[1..] == t[1..] + r;
    if j == |r| {
      NoneFound(r);
      NoSemicolon(r);
    } else {
      assert (t + r)[1..|t| + j] == t[1..] + r[..j];
      NoName(t, r[..j]);
    }
  }

  lemma NoName(t: string, u: string)
    requires t != "" && t[0] == '&' && ';' !in t && ';' !in u && !OpenEntity(t)
    ensures DecodedEntity(t[1..] + u).None?
  {
    hide DecodedEntity, BeginsEntity;
    assert t[0..] == t && !OpenAt(t, 0);
    if DecodedEntity(t[1..] + u).Some? { EntityBegins(t[1..], u); }
  }

  // ----- what breaks it

  /** Completing an open `&` makes its tail one character. */
  lemma {:induction false} CompletionShrinks(p: string, q: string, u: string)
    requires q != "" && q[0] == '&' && ';' !in q && ';' !in u && DecodedEntity(q[1..] + u).Some?
    ensures EntityWidth(p + q + (u + ";")) + |q| == EntityWidth(p + q) + 1
    decreases |p|
  {
    hide DecodedEntity, Find, EntityWidth;
    var b := u + ";";
    var all, cut := p + q + b, p + q;
    if p == "" {
      Completed(q, u);
      NoSemicolon(q);
      assert all == q + b && cut == q;
    } else {
      assert all[1..] == p[1..] + q + b && cut[1..] == p[1..] + q;
      CompletionShrinks(p[1..], q, u);
      if p[0] != '&' {
        PlainStep(all);
        PlainStep(cut);
      } else if Find(p, ';') == |p| {
        EarlierStaysOpen(p, q, u);
      } else {
        CompletionShrinks(p[Find(p, ';') + 1..], q, u);
        FinishedBefore(p, q + b);
        FinishedBefore(p, q);
        assert p + (q + b) == all && p[1..] + (q + b) == p[1..] + q + b;
        assert p[Find(p, ';') + 1..] + (q + b) == p[Find(p, ';') + 1..] + q + b;
      }
    }
  }

  /** An `&` that is followed by a `;` counts the same whatever comes later. */
  lemma FinishedBefore(p: string, r: string)
    requires p != "" && p[0] == '&' && Find(p, ';') < |p|
    ensures var k := Find(p, ';');
      EntityWidth(p + r) == 1 + if DecodedEntity(p[1..k]).Some? then EntityWidth(p[k + 1..] + r) else EntityWidth(p[1..] + r)
  {
    hide DecodedEntity, Find, EntityWidth;
    var k := Find(p, ';');
    FindIs(p + r, ';', k);
    EntityStep(p + r, k);
    assert (p + r)[1..k] == p[1..k] && (p + r)[k + 1..] == p[k + 1..] + r && (p + r)[1..] == p[1..] + r;
  }

  lemma Completed(q: string, u: string)
    requires q != "" && q[0] == '&' && ';' !in q && ';' !in u && DecodedEntity(q[1..] + u).Some?
    ensures EntityWidth(q + (u + ";")) == 1
  {
    hide DecodedEntity, Find;
    var s, k := q + (u + ";"), |q| + |u|;
    assert forall i :: 0 <= i < |q| ==> s[i] == q[i];
    assert forall i :: 0 <= i < |u| ==> s[|q| + i] == u[i];
    FindIs(s, ';', k);
    assert s[1..k] == q[1..] + u && s[k + 1..] == "";
  }

  /** An `&` in front of the one completed stays as it is: no name contains another `&`. */
  lemma EarlierStaysOpen(p: string, q: string, u: string)
    requires p != "" && p[0] == '&' && Find(p, ';') == |p|
    requires q != "" && q[0] == '&' && ';' !in q && ';' !in u
    requires EntityWidth(p[1..] + q + (u + ";")) + |q| == EntityWidth(p[1..] + q) + 1
    ensures EntityWidth(p + q + (u + ";")) + |q| == EntityWidth(p + q) + 1
  {
    hide DecodedEntity, Find, EntityWidth;
    var b, cut := u + ";", p + q;
    NoneFound(p);
    assert cut[1..] == p[1..] + q && cut[|p|] == '&';
    AmpersandStays(cut, u, |p|);
    NoSemicolon(cut);
    NoSemicolon(cut[1..]);
    assert cut + b == p + q + b && cut[1..] + b == p[1..] + q + b;
  }

  lemma AmpersandStays(s: string, u: string, i: nat)
    requires s != "" && s[0] == '&' && ';' !in s && ';' !in u && 0 < i < |s| && s[i] == '&'
    ensures EntityWidth(s + (u + ";")) == 1 + EntityWidth(s[1..] + (u + ";"))
  {
    hide DecodedEntity, Find, EntityWidth;
    var all, k := s + (u + ";"), |s| + |u|;
    FindBehind(s, u + ";");
    FindBehind(u, ";");
    OneSemicolon();
    EntityStep(all, k);
    assert all[1..] == s[1..] + (u + ";");
    var name := all[1..k];
    assert name[i - 1] == '&';
    if DecodedEntity(name).Some? { NameHasNo(name, '&'); }
  }

  lemma OneSemicolon()
    ensures Find(";", ';') == 0
  {
  }

  /** A `<` behind a text completes no entity in it. */
  lemma {:induction false} AngleOnlyAdds(s: string, q: string)
    requires q != "" && q[0] == '<'
    ensures EntityWidth(s + q) >= EntityWidth(s)
    decreases |s|
  {
    hide DecodedEntity, Find;
    if s != "" {
      assert (s + q)[1..] == s[1..] + q;
      AngleOnlyAdds(s[1..], q);
      if s[0] == '&' {
        var k := Find(s, ';');
        if k < |s| {
          FindIs(s + q, ';', k);
          assert (s + q)[1..k] == s[1..k] && (s + q)[k + 1..] == s[k + 1..] + q;
          AngleOnlyAdds(s[k + 1..], q);
        } else {
          AngleInside(s, q);
        }
      }
    }
  }

  lemma AngleInside(s: string, q: string)
    requires s != "" && s[0] == '&' && Find(s, ';') == |s| && q != "" && q[0] == '<'
    requires EntityWidth(s[1..] + q) >= EntityWidth(s[1..])
    ensures EntityWidth(s + q) >= EntityWidth(s)
  {
    hide DecodedEntity, Find, EntityWidth;
    NoneFound(s);
    NoSemicolon(s);
    NoSemicolon(s[1..]);
    var all, k := s + q, Find(s + q, ';');
    FindBehind(s, q);
    EntityStep(all, k);
    assert all[1..] == s[1..] + q;
    if k < |all| {
      var name := all[1..k];
      assert q[k - |s|] == ';';
      assert name[|s| - 1] == '<';
      if DecodedEntity(name).Some? { NameHasNo(name, '<'); }
    }
  }

  /** A text with an unclosed `<`: what comes before it, and the rest. */
  lemma {:induction false} OpenTag(a: string) returns (p: string, q: string)
    requires !TagsClosed(a)
    ensures a == p + q && TagsClosed(p) && q != "" && q[0] == '<' && '>' !in q
  {
    hide Find;
    if a[0] != '<' {
      p, q := OpenTag(a[1..]);
      p := [a[0]] + p;
      assert p[1..] == a[1..][..|p| - 1];
    } else {
      var k := Find(a, '>');
      if k == |a| {
        p, q := "", a;
      } else {
        p, q := OpenTag(a[k + 1..]);
        var tag := a[..k + 1];
        FindIs(tag + p, '>', k);
        assert (tag + p)[k + 1..] == p;
        p := tag + p;
      }
    }
  }

  lemma OpenTagIsNotAdditive(a: string)
    requires !TagsClosed(a)
    ensures !Additive(a)
  {
    hide Stripped, EntityWidth, TagsClosed, Find;
    var p, q := OpenTag(a);
    var b := "x>";
    assert a + b == p + (q + b);
    TagCloses(q);
    StripUnclosed(q);
    StrippedAppend(p, q + b);
    StrippedAppend(p, q);
    AngleOnlyAdds(Stripped(p), q);
    assert Stripped(p) + "" == Stripped(p);
    assert VisibleWidth(a + b) < VisibleWidth(a) + VisibleWidth(b);
  }

  /** What closes an open `<` takes it, and itself, away. */
  lemma TagCloses(q: string)
    requires q != "" && q[0] == '<' && '>' !in q
    ensures Stripped(q + "x>") == "" && VisibleWidth("x>") == 2
  {
    hide Find, Stripped, VisibleWidth;
    var tag, k := q + "x>", |q| + 1;
    assert tag[|q|] == 'x' && tag[k] == '>' && forall i :: 0 <= i < |q| ==> tag[i] == q[i];
    FindIs(tag, '>', k);
    StripOne(tag);
    assert tag[k + 1..] == "" && |tag[..k + 1]| == |q| + 2;
    NothingStripped();
    TwoPlain();
  }

  lemma TwoPlain()
    ensures VisibleWidth("x>") == 2
  {
    hide Find, Stripped, EntityWidth;
    PlainStays("x>");
    NoSemicolon("x>");
  }

  lemma StripUnclosed(q: string)
    requires q != "" && q[0] == '<' && '>' !in q
    ensures Stripped(q) == q
  {
    FindIs(q, '>', |q|);
  }

  lemma OpenEntityIsNotAdditive(a: string)
    requires TagsClosed(a) && OpenEntity(Stripped(a))
    ensures !Additive(a)
  {
    hide DecodedEntity, EntityWidth, BeginsEntity;
    var t := Stripped(a);
    var i: nat :| OpenAt(t, i);
    var u := Continuation(t[i + 1..]);
    var p, q, b := t[..i], t[i..], u + ";";
    NameHasNo(q[1..] + u, '<');
    NameHasNo(q[1..] + u, '&');
    assert forall k :: 0 <= k < |u| ==> (q[1..] + u)[|q| - 1 + k] == u[k];
    assert '<' !in b && '&' !in b;
    PlainStays(b);
    PlainEntities(b);
    assert q[1..] == t[i + 1..] && t == p + q;
    CompletionShrinks(p, q, u);
    StrippedAppend(a, b);
    assert VisibleWidth(a + b) < VisibleWidth(a) + VisibleWidth(b);
  }

  /** A fragment's width adds up with anything behind it exactly when every `<` in it is closed and, without
      the tags, no `&` is open whose tail begins an entity name. */
  lemma WidthAddsUpIff(a: string)
    ensures Additive(a) <==> TagsClosed(a) && !OpenEntity(Stripped(a))
  {
    hide EntityWidth, OpenEntity;
    if !TagsClosed(a) {
      OpenTagIsNotAdditive(a);
    } else if OpenEntity(Stripped(a)) {
      OpenEntityIsNotAdditive(a);
    } else {
      forall b: string
        ensures VisibleWidth(a + b) == VisibleWidth(a) + VisibleWidth(b)
      {
        StrippedAppend(a, b);
        ClosedAdds(Stripped(a), Stripped(b));
      }
    }
  }
}

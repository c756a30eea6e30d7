/** When removing colour sequences twice is the same as removing them once (src/page_commands/terminal.rs). */
module TerminalStrip {
  import opened Terminal

  /** The text without its colour sequences. */
  function Strip(s: string): string {
    PlainText(Tokens(s))
  }

  // ----- texts without colour sequences

  lemma {:induction false} StripShortens(s: string)
    ensures |Strip(s)| <= |s|
    ensures SgrLength(s) > 0 ==> |Strip(s)| < |s|
  {
    hide SgrLength, Tokens;
    if s == "" {
      NoTokens();
    } else {
      StripStep(s);
      StripShortens(s[if SgrLength(s) > 0 then SgrLength(s) else 1..]);
    }
  }

  /** The first token of a text and the rest. */
  lemma StripStep(s: string)
    requires s != ""
    ensures var n := SgrLength(s);
      Strip(s) == if n > 0 then Strip(s[n..]) else [s[0]] + Strip(s[1..])
  {
    hide SgrLength;
    var n := SgrLength(s);
    var first, rest := if n > 0 then Sgr(s[..n]) else Plain(s[0]), s[if n > 0 then n else 1..];
    PlainTextAppend([first], Tokens(rest));
    assert [first][..0] == [];
    assert Tokens(s) == [first] + Tokens(rest);
  }

  /** A colour sequence begins at some place of the text. */
  ghost predicate HasSgr(s: string) {
    exists k :: 0 <= k < |s| && SgrLength(s[k..]) > 0
  }

  lemma {:induction false} UnstrippedIff(s: string)
    ensures Strip(s) == s <==> !HasSgr(s)
  {
    hide SgrLength, Tokens;
    if s == "" {
      NoTokens();
    } else {
      assert s[0..] == s;
      StripStep(s);
      StripShortens(s);
      if SgrLength(s) == 0 {
        UnstrippedIff(s[1..]);
        HasSgrLater(s);
        assert s == [s[0]] + s[1..];
      }
    }
  }

  lemma HasSgrLater(s: string)
    requires s != "" && SgrLength(s) == 0
    ensures HasSgr(s) <==> HasSgr(s[1..])
  {
    hide SgrLength;
    assert s[0..] == s;
    forall k | 0 <= k < |s| - 1
      ensures s[1..][k..] == s[k + 1..]
    {
    }
    if HasSgr(s[1..]) {
      var k :| 0 <= k < |s[1..]| && SgrLength(s[1..][k..]) > 0;
      assert SgrLength(s[k + 1..]) > 0;
    }
    if HasSgr(s) {
      var k :| 0 <= k < |s| && SgrLength(s[k..]) > 0;
      assert k > 0 && s[1..][k - 1..] == s[k..];
    }
  }

  // ----- interrupted sequences

  /** A plain ESC at `i` and a plain `m` at `j` that would end a colour sequence, were it not for the colour
      sequences between them: of the plain characters in between, the first is `[` and no other is final. */
  ghost predicate Interrupted(ts: seq<Token>, i: nat, j: nat) {
    && i < j < |ts| && ts[i] == Plain(ESC) && ts[j] == Plain('m')
    && Between(PlainText(ts[i + 1..j]))
    && exists k :: i < k < j && ts[k].Sgr?
  }

  /** What stands between the ESC and the `m` of a colour sequence. */
  predicate Between(s: string) {
    s != "" && s[0] == '[' && forall k :: 1 <= k < |s| ==> !IsFinal(s[k])
  }

  /** The shape of a colour sequence at the beginning of a text. */
  lemma SgrShape(s: string)
    ensures SgrLength(s) > 0 ==> var n := SgrLength(s); s[0] == ESC && s[n - 1] == 'm' && Between(s[1..n - 1])
  {
  }

  lemma ShapeIsSgr(body: string, rest: string)
    requires Between(body)
    ensures SgrLength([ESC] + body + ['m'] + rest) == |body| + 2
  {
    var s := [ESC] + body + ['m'] + rest;
    assert s[1] == '[' && s[2..] == body[1..] + ['m'] + rest;
    FinalIndexIs(s[2..], |body| - 1);
  }

  /** Where the `n`-th plain character of a list of tokens stands. */
  lemma {:induction false} Locate(ts: seq<Token>, n: nat) returns (i: nat)
    requires n < |PlainText(ts)|
    ensures i < |ts| && ts[i] == Plain(PlainText(ts)[n])
    ensures PlainText(ts[..i]) == PlainText(ts)[..n]
  {
    var last := |ts| - 1;
    assert ts == ts[..last] + [ts[last]];
    if n < |PlainText(ts[..last])| {
      i := Locate(ts[..last], n);
      assert ts[..last][..i] == ts[..i];
    } else {
      i := last;
    }
  }

  /** The plain text around two plain tokens. */
  lemma PlainAround(ts: seq<Token>, i: nat, j: nat)
    requires i < j < |ts| && ts[i].Plain? && ts[j].Plain?
    ensures PlainText(ts) == PlainText(ts[..i]) + ([ts[i].c] + PlainText(ts[i + 1..j]) + [ts[j].c] + PlainText(ts[j + 1..]))
    ensures |PlainText(ts[..j])| == |PlainText(ts[..i])| + 1 + |PlainText(ts[i + 1..j])|
  {
    hide PlainText;
    var a, m, r := ts[..i], ts[i + 1..j], ts[j + 1..];
    OnePlain(ts[i]);
    OnePlain(ts[j]);
    PlainTextAppend([ts[i]], m);
    PlainTextAppend([ts[i]] + m, [ts[j]]);
    PlainTextAppend([ts[i]] + m + [ts[j]], r);
    PlainTextAppend(a, [ts[i]] + m + [ts[j]] + r);
    assert ts == a + ([ts[i]] + m + [ts[j]] + r);
    PlainTextAppend(a, [ts[i]] + m);
    assert ts[..j] == a + ([ts[i]] + m);
  }

  lemma OnePlain(t: Token)
    requires t.Plain?
    ensures PlainText([t]) == [t.c]
  {
    assert [t][..0] == [];
  }

  lemma InterruptedGivesSgr(ts: seq<Token>, i: nat, j: nat)
    requires Interrupted(ts, i, j)
    ensures HasSgr(PlainText(ts))
  {
    hide SgrLength, PlainText;
    PlainAround(ts, i, j);
    var body, rest := PlainText(ts[i + 1..j]), PlainText(ts[j + 1..]);
    var k := |PlainText(ts[..i])|;
    ShapeIsSgr(body, rest);
    assert PlainText(ts)[k..] == [ESC] + body + ['m'] + rest;
  }

  /** Without a colour sequence among them, tokens are as long as their text. */
  lemma {:induction false} AllPlainFlat(ts: seq<Token>)
    requires forall t :: t in ts ==> t.Plain?
    ensures Flat(ts) == PlainText(ts)
  {
    if ts != [] { AllPlainFlat(ts[..|ts| - 1]); }
  }

  lemma {:induction false} StableReads(ts: seq<Token>, i: nat)
    requires Stable(ts) && i < |ts|
    ensures Reads(ts[i], Flat(ts[i..]))
  {
    hide Reads;
    if i == 0 {
      assert ts[0..] == ts;
    } else {
      StableReads(ts[1..], i - 1);
      assert ts[1..][i - 1..] == ts[i..];
    }
  }

  lemma PlainBetween(ts: seq<Token>, i: nat, j: nat)
    requires i < j < |ts| && ts[i] == Plain(ESC) && ts[j] == Plain('m') && Between(PlainText(ts[i + 1..j]))
    requires forall k :: i < k < j ==> ts[k].Plain?
    ensures SgrLength(Flat(ts[i..])) > 0
  {
    hide SgrLength, PlainText, Flat;
    var body := ts[i + 1..j];
    assert ts[i..] == [ts[i]] + body + [ts[j]] + ts[j + 1..];
    FlatAppend([ts[i]] + body + [ts[j]], ts[j + 1..]);
    FlatAppend([ts[i]] + body, [ts[j]]);
    FlatAppend([ts[i]], body);
    AllPlainFlat(body);
    OneFlat(ts[i]);
    OneFlat(ts[j]);
    ShapeIsSgr(PlainText(body), Flat(ts[j + 1..]));
  }

  lemma OneFlat(t: Token)
    ensures Flat([t]) == TextOf(t)
  {
    assert [t][..0] == [];
  }

  lemma SgrGivesInterrupted(ts: seq<Token>, k: nat)
    requires Stable(ts) && k < |PlainText(ts)| && SgrLength(PlainText(ts)[k..]) > 0
    ensures exists i: nat, j: nat :: Interrupted(ts, i, j)
  {
    hide SgrLength, PlainText, Flat, Stable;
    var text := PlainText(ts);
    var n := SgrLength(text[k..]);
    SgrShape(text[k..]);
    SgrFits(text[k..]);
    var i := Locate(ts, k);
    var j := Locate(ts, k + n - 1);
    PrefixOrder(ts, i, j);
    PlainAround(ts, i, j);
    assert text[k + 1..k + n - 1] == PlainText(ts[i + 1..j]);
    assert text[k..][1..n - 1] == text[k + 1..k + n - 1];
    StableReads(ts, i);
    assert SgrLength(Flat(ts[i..])) == 0;
    assert exists p :: i < p < j && ts[p].Sgr? by { NotAllPlain(ts, i, j); }
    assert Interrupted(ts, i, j);
  }

  lemma NotAllPlain(ts: seq<Token>, i: nat, j: nat)
    requires i < j < |ts| && ts[i] == Plain(ESC) && ts[j] == Plain('m') && Between(PlainText(ts[i + 1..j]))
    requires SgrLength(Flat(ts[i..])) == 0
    ensures exists p :: i < p < j && ts[p].Sgr?
  {
    hide SgrLength, PlainText, Flat;
    if forall p :: i < p < j ==> ts[p].Plain? {
      PlainBetween(ts, i, j);
    }
  }

  lemma SgrFits(s: string)
    ensures SgrLength(s) <= |s| && (SgrLength(s) > 0 ==> SgrLength(s) >= 3)
  {
  }

  /** More plain text before it means further on. */
  lemma PrefixOrder(ts: seq<Token>, i: nat, j: nat)
    requires i < |ts| && j < |ts| && |PlainText(ts[..i])| < |PlainText(ts[..j])|
    ensures i < j
  {
    if j <= i {
      assert ts[..i] == ts[..j] + ts[j..i];
      PlainTextAppend(ts[..j], ts[j..i]);
    }
  }

  // ----- results

  /** Removing colour sequences twice is the same as once exactly when none of them interrupts another: no
      plain ESC, `[` and so on up to a plain `m` is left that only colour sequences kept apart. */
  lemma StrippingIsStableIff(s: string)
    ensures Strip(Strip(s)) == Strip(s) <==> !exists i: nat, j: nat :: Interrupted(Tokens(s), i, j)
  {
    hide SgrLength, Tokens, PlainText, Interrupted;
    var ts, once := Tokens(s), Strip(s);
    assert once == PlainText(ts);
    TokensAreStable(s);
    UnstrippedIff(once);
    if i: nat, j: nat :| Interrupted(ts, i, j) {
      InterruptedGivesSgr(ts, i, j);
    }
    if HasSgr(once) {
      var k :| 0 <= k < |once| && SgrLength(once[k..]) > 0;
      SgrGivesInterrupted(ts, k);
      var i: nat, j: nat :| Interrupted(ts, i, j);
      assert Interrupted(Tokens(s), i, j);
    }
  }

  /** So it is for every text in which each ESC begins a colour sequence. */
  lemma EveryEscapeColoursIsStable(s: string)
    requires Plain(ESC) !in Tokens(s)
    ensures Strip(Strip(s)) == Strip(s)
  {
    hide SgrLength, Tokens, PlainText;
    StrippingIsStableIff(s);
  }
}

/** What word wrapping keeps (src/page_commands/terminal.rs). */
module TerminalWrap {
  import opened Terminal

  // ----- width

  ghost predicate Within(lines: Lines, width: nat) {
    forall line :: line in lines ==> PlainCount(line) <= width
  }

  lemma CountExtend(lines: Lines, ts: seq<Token>)
    requires lines != []
    ensures PlainCount(Last(Extend(lines, ts))) == PlainCount(Last(lines)) + PlainCount(ts)
    ensures PlainCount([Plain(' ')]) == 1
    ensures forall t: Token :: PlainCount([t]) == if t.Plain? then 1 else 0
  {
    PlainCountAppend(Last(lines), ts);
    forall t: Token
      ensures PlainCount([t]) == if t.Plain? then 1 else 0
    {
      assert [t][..0] == [];
    }
  }

  lemma ExtendWithin(lines: Lines, ts: seq<Token>, width: nat)
    requires lines != [] && Within(lines, width) && PlainCount(Last(lines)) + PlainCount(ts) <= width
    ensures Within(Extend(lines, ts), width)
  {
    CountExtend(lines, ts);
    forall line | line in Extend(lines, ts)
      ensures PlainCount(line) <= width
    {
      assert line in lines || line == Last(Extend(lines, ts));
    }
  }

  lemma PutWithin(lines: Lines, t: Token, width: nat, indent: nat)
    requires lines != [] && Within(lines, width) && indent < width
    ensures Within(Put(lines, t, width, indent), width)
  {
    hide PlainCount;
    CountExtend(lines, [t]);
    if t.Plain? && PlainCount(Last(lines)) >= width {
      SpacesAreBlank(indent);
      PlainCountAppend(Spaces(indent), [t]);
    } else {
      assert Last(lines) in lines;
      ExtendWithin(lines, [t], width);
    }
  }

  lemma {:induction false} PutWordWithin(lines: Lines, word: seq<Token>, width: nat, indent: nat)
    requires lines != [] && Within(lines, width) && indent < width
    ensures Within(PutWord(lines, word, width, indent), width)
  {
    hide Within, Put;
    if word != [] {
      PutWordWithin(lines, word[..|word| - 1], width, indent);
      PutWithin(PutWord(lines, word[..|word| - 1], width, indent), word[|word| - 1], width, indent);
    }
  }

  lemma SeparateWithin(lines: Lines, word: seq<Token>, width: nat, indent: nat)
    requires lines != [] && Within(lines, width) && indent < width
    ensures Within(Separate(lines, word, width, indent), width)
  {
    hide PlainCount;
    SpacesAreBlank(indent);
    CountExtend(lines, [Plain(' ')]);
    if PlainCount(Last(lines)) + 1 + PlainCount(word) <= width {
      ExtendWithin(lines, [Plain(' ')], width);
    }
  }

  lemma {:induction false} WrapWithin(words: seq<seq<Token>>, n: nat, width: nat, indent: nat)
    requires n <= |words| && indent < width
    ensures Within(WrapWords(words, n, width, indent), width)
  {
    hide PutWord, Separate;
    if n > 0 {
      var lines := WrapWords(words, n - 1, width, indent);
      WrapWithin(words, n - 1, width, indent);
      SeparateWithin(lines, words[n - 1], width, indent);
      PutWordWithin(lines, words[n - 1], width, indent);
      PutWordWithin(Separate(lines, words[n - 1], width, indent), words[n - 1], width, indent);
    }
  }

  // ----- content

  function LinesInk(lines: Lines): seq<Token> {
    if lines == [] then [] else LinesInk(lines[..|lines| - 1]) + Ink(lines[|lines| - 1])
  }

  lemma InkOne(t: Token)
    ensures Ink([t]) == if t == Plain(' ') then [] else [t]
  {
    assert [t][..0] == [];
  }

  lemma ExtendInk(lines: Lines, ts: seq<Token>)
    requires lines != []
    ensures LinesInk(Extend(lines, ts)) == LinesInk(lines) + Ink(ts)
  {
    var last := |lines| - 1;
    InkAppend(Last(lines), ts);
    assert Extend(lines, ts)[..last] == lines[..last];
    assert LinesInk(lines[..last]) + (Ink(Last(lines)) + Ink(ts)) == (LinesInk(lines[..last]) + Ink(Last(lines))) + Ink(ts);
  }

  lemma NewLineInk(lines: Lines, line: seq<Token>)
    ensures LinesInk(lines + [line]) == LinesInk(lines) + Ink(line)
  {
    assert (lines + [line])[..|lines|] == lines;
  }

  lemma PutInk(lines: Lines, t: Token, width: nat, indent: nat)
    requires lines != []
    ensures LinesInk(Put(lines, t, width, indent)) == LinesInk(lines) + Ink([t])
  {
    hide LinesInk, Ink;
    ExtendInk(lines, [t]);
    SpacesAreBlank(indent);
    InkAppend(Spaces(indent), [t]);
    NewLineInk(lines, Spaces(indent) + [t]);
    assert [] + Ink([t]) == Ink([t]);
  }

  lemma {:induction false} PutWordInk(lines: Lines, word: seq<Token>, width: nat, indent: nat)
    requires lines != []
    ensures LinesInk(PutWord(lines, word, width, indent)) == LinesInk(lines) + Ink(word)
  {
    hide LinesInk, Put;
    if word == [] {
      assert LinesInk(lines) + [] == LinesInk(lines);
    } else {
      var front, t := word[..|word| - 1], word[|word| - 1];
      PutWordInk(lines, front, width, indent);
      PutInk(PutWord(lines, front, width, indent), t, width, indent);
      assert word == front + [t];
      InkAppend(front, [t]);
      assert LinesInk(lines) + (Ink(front) + Ink([t])) == (LinesInk(lines) + Ink(front)) + Ink([t]);
    }
  }

  lemma SeparateInk(lines: Lines, word: seq<Token>, width: nat, indent: nat)
    requires lines != []
    ensures LinesInk(Separate(lines, word, width, indent)) == LinesInk(lines)
  {
    hide LinesInk, Ink;
    SpacesAreBlank(indent);
    NewLineInk(lines, Spaces(indent));
    InkOne(Plain(' '));
    ExtendInk(lines, [Plain(' ')]);
    assert LinesInk(lines) + [] == LinesInk(lines);
  }

  lemma {:induction false} WrapInk(words: seq<seq<Token>>, n: nat, width: nat, indent: nat)
    requires n <= |words|
    ensures LinesInk(WrapWords(words, n, width, indent)) == Ink(Joined(words, n))
  {
    hide LinesInk, Ink, PutWord, Separate;
    if n == 0 {
      NoInk();
    } else {
      var lines, word := WrapWords(words, n - 1, width, indent), words[n - 1];
      var gap := if n > 1 then [Plain(' ')] else [];
      WrapInk(words, n - 1, width, indent);
      SeparateInk(lines, word, width, indent);
      PutWordInk(if n > 1 then Separate(lines, word, width, indent) else lines, word, width, indent);
      InkAppend(Joined(words, n - 1) + gap, word);
      InkAppend(Joined(words, n - 1), gap);
      InkOne(Plain(' '));
      NoInk();
      assert Ink(Joined(words, n - 1)) + [] == Ink(Joined(words, n - 1));
    }
  }

  lemma NoInk()
    ensures Ink([]) == [] && LinesInk([[]]) == []
  {
    var empty: Lines := [[]];
    assert empty[..0] == [];
  }

  // ----- the lines read back

  /** What is still to be placed behind the first `n` words. */
  function Remaining(words: seq<seq<Token>>, n: nat): seq<Token>
    requires n <= |words|
    decreases |words| - n
  {
    if n == |words| then [] else (if n > 0 then [Plain(' ')] else []) + (words[n] + Remaining(words, n + 1))
  }

  lemma {:induction false} JoinedRemaining(words: seq<seq<Token>>, n: nat)
    requires n <= |words|
    ensures Joined(words, n) + Remaining(words, n) == Joined(words, |words|)
    decreases |words| - n
  {
    if n == |words| {
      assert Joined(words, n) + [] == Joined(words, n);
    } else {
      JoinedRemaining(words, n + 1);
      var gap := if n > 0 then [Plain(' ')] else [];
      assert Joined(words, n) + (gap + (words[n] + Remaining(words, n + 1)))
          == (Joined(words, n) + gap + words[n]) + Remaining(words, n + 1);
    }
  }

  /** Finished lines are stable, and so is the last one with what may still follow it. */
  ghost predicate Readable(lines: Lines, rest: seq<Token>) {
    lines != [] && (forall i :: 0 <= i < |lines| - 1 ==> Stable(lines[i])) && Stable(Last(lines) + rest)
  }

  lemma BreakReadable(lines: Lines, rest: seq<Token>, indent: nat)
    requires Readable(lines, rest)
    ensures Readable(lines + [Spaces(indent)], rest)
  {
    hide Stable;
    StablePrefix(Last(lines), rest);
    StableIndent(indent, rest);
  }

  lemma ExtendReadable(lines: Lines, ts: seq<Token>, rest: seq<Token>)
    requires Readable(lines, ts + rest)
    ensures Readable(Extend(lines, ts), rest)
  {
    hide Stable;
    assert (Last(lines) + ts) + rest == Last(lines) + (ts + rest);
  }

  lemma PutReadable(lines: Lines, t: Token, rest: seq<Token>, width: nat, indent: nat)
    requires Readable(lines, [t] + rest)
    ensures Readable(Put(lines, t, width, indent), rest)
  {
    hide Readable;
    assert lines != [] by { NotEmpty(lines, [t] + rest); }
    ExtendReadable(lines, [t], rest);
    if t.Plain? && PlainCount(Last(lines)) >= width {
      var broken := lines + [Spaces(indent)];
      BreakReadable(lines, [t] + rest, indent);
      ExtendReadable(broken, [t], rest);
      assert Extend(broken, [t]) == lines + [Spaces(indent) + [t]];
    }
  }

  lemma NotEmpty(lines: Lines, rest: seq<Token>)
    ensures Readable(lines, rest) ==> lines != []
  {
  }

  lemma {:induction false} PutWordReadable(lines: Lines, word: seq<Token>, rest: seq<Token>, width: nat, indent: nat)
    requires Readable(lines, word + rest) && lines != []
    ensures Readable(PutWord(lines, word, width, indent), rest)
  {
    hide Readable, Put;
    if word == [] {
      assert word + rest == rest;
    } else {
      var front, t := word[..|word| - 1], word[|word| - 1];
      assert front + ([t] + rest) == word + rest;
      PutWordReadable(lines, front, [t] + rest, width, indent);
      PutReadable(PutWord(lines, front, width, indent), t, rest, width, indent);
    }
  }

  lemma SeparateReadable(lines: Lines, word: seq<Token>, rest: seq<Token>, width: nat, indent: nat)
    requires Readable(lines, [Plain(' ')] + rest) && lines != []
    ensures Readable(Separate(lines, word, width, indent), rest)
  {
    hide Stable;
    ExtendReadable(lines, [Plain(' ')], rest);
    StablePrefix(Last(lines), [Plain(' ')] + rest);
    StablePrefix([Plain(' ')], rest);
    StableIndent(indent, rest);
  }

  lemma {:induction false} WrapReadable(words: seq<seq<Token>>, n: nat, width: nat, indent: nat)
    requires n <= |words| && Stable(Joined(words, |words|))
    ensures Readable(WrapWords(words, n, width, indent), Remaining(words, n))
  {
    hide Stable, PutWord, Separate;
    if n == 0 {
      JoinedRemaining(words, 0);
      assert [] + Remaining(words, 0) == Remaining(words, 0);
    } else {
      hide Readable;
      var lines, word, rest := WrapWords(words, n - 1, width, indent), words[n - 1], Remaining(words, n);
      WrapReadable(words, n - 1, width, indent);
      if n > 1 {
        SeparateReadable(lines, word, word + rest, width, indent);
        PutWordReadable(Separate(lines, word, width, indent), word, rest, width, indent);
      } else {
        assert Remaining(words, n - 1) == word + rest;
        PutWordReadable(lines, word, rest, width, indent);
      }
    }
  }

  // ----- line breaks

  /** The lines of a text, without their line breaks. */
  function SplitLines(s: string): (r: seq<string>)
    ensures r != []
  {
    if s == [] then [""]
    else
      var last := |s| - 1;
      var ls := SplitLines(s[..last]);
      if s[last] == '\n' then ls + [""] else ls[|ls| - 1 := ls[|ls| - 1] + [s[last]]]
  }

  predicate Unbroken(ts: seq<Token>) {
    forall t :: t in ts ==> '\n' !in TextOf(t)
  }

  lemma {:induction false} UnbrokenFlat(ts: seq<Token>)
    requires Unbroken(ts)
    ensures '\n' !in Flat(ts)
  {
    if ts != [] { UnbrokenFlat(ts[..|ts| - 1]); }
  }

  lemma {:induction false} FlatUnbroken(ts: seq<Token>)
    requires '\n' !in Flat(ts)
    ensures Unbroken(ts)
  {
    if ts != [] {
      FlatUnbroken(ts[..|ts| - 1]);
      assert ts == ts[..|ts| - 1] + [ts[|ts| - 1]];
    }
  }

  lemma {:induction false} SplitPlain(a: string, b: string)
    requires '\n' !in b
    ensures var ls := SplitLines(a); SplitLines(a + b) == ls[|ls| - 1 := ls[|ls| - 1] + b]
  {
    if b == [] {
      assert a + b == a;
      assert SplitLines(a)[|SplitLines(a)| - 1] + b == SplitLines(a)[|SplitLines(a)| - 1];
    } else {
      var last := |b| - 1;
      SplitPlain(a, b[..last]);
      assert (a + b)[..|a + b| - 1] == a + b[..last];
      assert b == b[..last] + [b[last]] && b[last] in b && (a + b)[|a + b| - 1] == b[last];
      var tail := SplitLines(a)[|SplitLines(a)| - 1];
      assert (tail + b[..last]) + [b[last]] == tail + b;
    }
  }

  lemma SplitBreak(a: string)
    ensures SplitLines(a + ['\n']) == SplitLines(a) + [""]
  {
    assert (a + ['\n'])[..|a|] == a;
  }

  ghost predicate AllUnbroken(lines: Lines) {
    forall line :: line in lines ==> Unbroken(line)
  }

  function FlatLines(lines: Lines): seq<string> {
    seq(|lines|, i requires 0 <= i < |lines| => Flat(lines[i]))
  }

  /** Splitting the text shown gives the lines back. */
  lemma {:induction false} SplitShown(lines: Lines)
    requires lines != [] && AllUnbroken(lines)
    ensures SplitLines(Shown(lines)) == FlatLines(lines)
  {
    hide Flat, SplitLines;
    var last := Last(lines);
    UnbrokenFlat(last);
    if |lines| == 1 {
      SplitPlain("", Flat(last));
      EmptySplits();
      assert "" + Flat(last) == Flat(last);
    } else {
      var front := lines[..|lines| - 1];
      SplitShown(front);
      SplitBreak(Shown(front));
      SplitPlain(Shown(front) + ['\n'], Flat(last));
      assert "" + Flat(last) == Flat(last);
    }
  }

  lemma EmptySplits()
    ensures SplitLines("") == [""]
  {
  }

  lemma {:induction false} SpacesUnbroken(n: nat)
    ensures Unbroken(Spaces(n))
  {
    if n > 0 { SpacesUnbroken(n - 1); }
  }

  lemma ExtendUnbroken(lines: Lines, ts: seq<Token>)
    requires lines != [] && AllUnbroken(lines) && Unbroken(ts)
    ensures AllUnbroken(Extend(lines, ts))
  {
    assert Last(lines) in lines;
  }

  lemma {:induction false} PutWordUnbroken(lines: Lines, word: seq<Token>, width: nat, indent: nat)
    requires lines != [] && AllUnbroken(lines) && Unbroken(word)
    ensures AllUnbroken(PutWord(lines, word, width, indent))
  {
    hide PlainCount;
    if word != [] {
      var before, t := PutWord(lines, word[..|word| - 1], width, indent), word[|word| - 1];
      PutWordUnbroken(lines, word[..|word| - 1], width, indent);
      SpacesUnbroken(indent);
      ExtendUnbroken(before, [t]);
    }
  }

  lemma {:induction false} WrapUnbroken(words: seq<seq<Token>>, n: nat, width: nat, indent: nat)
    requires n <= |words| && forall word :: word in words ==> Unbroken(word)
    ensures AllUnbroken(WrapWords(words, n, width, indent))
  {
    hide PlainCount, PutWord, Unbroken;
    if n == 0 {
      NothingUnbroken();
    } else {
      var lines, word := WrapWords(words, n - 1, width, indent), words[n - 1];
      WrapUnbroken(words, n - 1, width, indent);
      NothingUnbroken();
      ExtendUnbroken(lines, [Plain(' ')]);
      SpacesUnbroken(indent);
      PutWordUnbroken(if n > 1 then Separate(lines, word, width, indent) else lines, word, width, indent);
    }
  }

  lemma NothingUnbroken()
    ensures Unbroken([]) && Unbroken([Plain(' ')])
  {
  }

  lemma {:induction false} WordsUnbroken(ts: seq<Token>)
    requires Unbroken(ts)
    ensures forall word :: word in Words(ts) ==> Unbroken(word)
  {
    if ts != [] {
      var last := |ts| - 1;
      WordsUnbroken(ts[..last]);
      var ws := Words(ts[..last]);
      assert ts[last] in ts && ws[|ws| - 1] in ws;
      forall word | word in Words(ts)
        ensures Unbroken(word)
      {
        assert word in ws || word == [] || word == ws[|ws| - 1] + [ts[last]];
      }
    }
  }

  // ----- results

  /** The tokens of each line of a text, as a terminal or `strip_sgr` reads that line. */
  function LineTokens(s: string): Lines {
    var ls := SplitLines(s);
    seq(|ls|, i requires 0 <= i < |ls| => Tokens(ls[i]))
  }

  /** Splitting the wrapped text at its line breaks and reading each line afresh gives the lines laid out. */
  lemma WrappedReadsBack(line: string, width: nat)
    requires '\n' !in line
    ensures LineTokens(Shown(WrappedLines(line, width))) == WrappedLines(line, width)
  {
    hide SplitLines, Shown, WrapWords, Tokens, Flat, Words, Joined, Remaining, Unbroken, Stable;
    var ts := Tokens(line);
    var words, lines := Words(ts), WrappedLines(line, width);
    FlatTokens(line);
    FlatUnbroken(ts);
    WordsUnbroken(ts);
    WrapUnbroken(words, |words|, width, Indent(width));
    SplitShown(lines);
    WordsJoin(ts);
    TokensAreStable(line);
    WrapReadable(words, |words|, width, Indent(width));
    assert Last(lines) + Remaining(words, |words|) == Last(lines) by { NothingRemains(words); }
    forall i | 0 <= i < |lines|
      ensures Tokens(Flat(lines[i])) == lines[i]
    {
      StableReadsBack(lines[i]);
    }
  }

  lemma NothingRemains(words: seq<seq<Token>>)
    ensures Remaining(words, |words|) == []
  {
  }

  lemma {:induction false} OneLine(s: string)
    requires '\n' !in s
    ensures SplitLines(s) == [s]
  {
    if s != [] {
      var last := |s| - 1;
      OneLine(s[..last]);
      assert s[last] in s && s == s[..last] + [s[last]];
    }
  }

  /** Every line of the wrapped text has at most `width` visible characters. */
  lemma WrappedLinesFit(line: string, width: nat)
    requires '\n' !in line && width > 0
    ensures forall l :: l in SplitLines(Wrapped(line, width)) ==> PlainCount(Tokens(l)) <= width
  {
    hide Tokens, PlainCount, WrappedLines, SplitLines, Shown;
    if FitsAsItIs(line, width) {
      OneLine(line);
    } else {
      var shown := Shown(WrappedLines(line, width));
      WrappedReadsBack(line, width);
      LinesWithin(line, width);
      forall l | l in SplitLines(shown)
        ensures PlainCount(Tokens(l)) <= width
      {
        var i :| 0 <= i < |SplitLines(shown)| && SplitLines(shown)[i] == l;
        assert LineTokens(shown)[i] == Tokens(l);
        assert LineTokens(shown)[i] in LineTokens(shown);
      }
    }
  }

  lemma LinesWithin(line: string, width: nat)
    requires width > 0
    ensures forall l :: l in WrappedLines(line, width) ==> PlainCount(l) <= width
  {
    hide Tokens, PlainCount, WrapWords, Words;
    var words := Words(Tokens(line));
    WrapWithin(words, |words|, width, Indent(width));
  }

  /** Wrapping keeps every character that is not a space and every whole colour sequence, in order. */
  lemma WrappedKeepsInk(line: string, width: nat)
    requires '\n' !in line
    ensures LinesInk(LineTokens(Wrapped(line, width))) == Ink(Tokens(line))
  {
    hide Tokens, PlainCount, WrapWords, SplitLines, Shown, Words, Ink, LinesInk, Joined;
    if FitsAsItIs(line, width) {
      OneLine(line);
      assert LineTokens(line) == [Tokens(line)];
      SingleInk(Tokens(line));
    } else {
      var words := Words(Tokens(line));
      WrappedReadsBack(line, width);
      WrapInk(words, |words|, width, Indent(width));
      WordsJoin(Tokens(line));
    }
  }

  lemma SingleInk(ts: seq<Token>)
    ensures LinesInk([ts]) == Ink(ts)
  {
    var none: Lines := [];
    assert [ts][..0] == none;
    assert LinesInk([ts]) == LinesInk([ts][..0]) + Ink(ts);
  }

  /** Exactly the lines that fit are left as they are; any other is broken up. */
  lemma OnlyFittingLinesStay(line: string, width: nat)
    requires '\n' !in line
    ensures Wrapped(line, width) == line <==> width == 0 || PlainCount(Tokens(line)) <= width
  {
    hide Tokens, PlainCount, WrappedLines, SplitLines, Shown;
    if width > 0 {
      WrappedLinesFit(line, width);
      OneLine(line);
    }
  }

  lemma {:induction false} PutWordWhole(lines: Lines, word: seq<Token>, width: nat, indent: nat)
    requires lines != [] && PlainCount(Last(lines)) + PlainCount(word) <= width
    ensures PutWord(lines, word, width, indent) == Extend(lines, word)
  {
    hide PlainCount;
    if word == [] {
      assert Last(lines) + word == Last(lines);
    } else {
      var front, t := word[..|word| - 1], word[|word| - 1];
      assert word == front + [t];
      PlainCountAppend(front, [t]);
      CountExtend(lines, front);
      PutWordWhole(lines, front, width, indent);
      assert Last(lines) + word == (Last(lines) + front) + [t];
    }
  }

  /** The word stands in the line with nothing but spaces next to it. */
  ghost predicate WholeIn(line: seq<Token>, word: seq<Token>, before: seq<Token>, after: seq<Token>) {
    && line == before + word + after
    && (before != [] ==> before[|before| - 1] == Plain(' '))
    && (after != [] ==> after[0] == Plain(' '))
  }

  /** The word is whole in line `i`, and nothing but a new line or a space may follow it there. */
  ghost predicate Placed(lines: Lines, i: nat, word: seq<Token>, before: seq<Token>, after: seq<Token>) {
    i < |lines| && WholeIn(lines[i], word, before, after)
  }

  ghost predicate Settled(lines: Lines, i: nat, word: seq<Token>, before: seq<Token>, after: seq<Token>) {
    Placed(lines, i, word, before, after) && (i < |lines| - 1 || after != [])
  }

  lemma ExtendSettled(lines: Lines, i: nat, word: seq<Token>, before: seq<Token>, after: seq<Token>, t: Token)
    returns (more: seq<Token>)
    requires Placed(lines, i, word, before, after) && (Settled(lines, i, word, before, after) || t == Plain(' '))
    ensures Settled(Extend(lines, [t]), i, word, before, more)
  {
    if i == |lines| - 1 {
      more := after + [t];
      assert (before + word + after) + [t] == before + word + more;
    } else {
      more := after;
    }
  }

  lemma BreakSettled(lines: Lines, i: nat, word: seq<Token>, before: seq<Token>, after: seq<Token>, line: seq<Token>)
    requires Placed(lines, i, word, before, after)
    ensures Settled(lines + [line], i, word, before, after)
  {
  }

  lemma {:induction false} PutWordSettled(lines: Lines, i: nat, word: seq<Token>, before: seq<Token>, after: seq<Token>,
                                          next: seq<Token>, width: nat, indent: nat)
    returns (more: seq<Token>)
    requires lines != [] && Settled(lines, i, word, before, after)
    ensures Settled(PutWord(lines, next, width, indent), i, word, before, more)
  {
    hide Settled, WholeIn;
    more := after;
    if next != [] {
      var t := next[|next| - 1];
      more := PutWordSettled(lines, i, word, before, after, next[..|next| - 1], width, indent);
      var far := PutWord(lines, next[..|next| - 1], width, indent);
      assert Placed(far, i, word, before, more) by { SettledIsPlaced(far, i, word, before, more); }
      if t.Plain? && PlainCount(Last(far)) >= width {
        BreakSettled(far, i, word, before, more, Spaces(indent) + [t]);
      } else {
        more := ExtendSettled(far, i, word, before, more, t);
      }
    }
  }

  lemma SettledIsPlaced(lines: Lines, i: nat, word: seq<Token>, before: seq<Token>, after: seq<Token>)
    requires Settled(lines, i, word, before, after)
    ensures Placed(lines, i, word, before, after)
  {
  }

  /** The words that come later leave a whole word whole. */
  lemma {:induction false} LaterWordsKeep(words: seq<seq<Token>>, n: nat, m: nat, width: nat, indent: nat)
    returns (i: nat, before: seq<Token>, after: seq<Token>)
    requires n < m <= |words| && (if n > 0 then indent else 0) + PlainCount(words[n]) <= width
    ensures Placed(WrapWords(words, m, width, indent), i, words[n], before, after)
  {
    hide Settled, WholeIn, Placed, PutWord;
    if m == n + 1 {
      i, before := PlacedWhole(words, n, width, indent);
      after := [];
    } else {
      var lines := WrapWords(words, m - 1, width, indent);
      i, before, after := LaterWordsKeep(words, n, m - 1, width, indent);
      if PlainCount(Last(lines)) + 1 + PlainCount(words[m - 1]) > width {
        BreakSettled(lines, i, words[n], before, after, Spaces(indent));
      } else {
        after := ExtendSettled(lines, i, words[n], before, after, Plain(' '));
      }
      var apart := Separate(lines, words[m - 1], width, indent);
      after := PutWordSettled(apart, i, words[n], before, after, words[m - 1], width, indent);
      SettledIsPlaced(WrapWords(words, m, width, indent), i, words[n], before, after);
    }
  }

  /** A word that fits on a line of its own is put there, or behind a space, in one piece. */
  lemma PlacedWhole(words: seq<seq<Token>>, n: nat, width: nat, indent: nat) returns (i: nat, before: seq<Token>)
    requires n < |words| && (if n > 0 then indent else 0) + PlainCount(words[n]) <= width
    ensures Placed(WrapWords(words, n + 1, width, indent), i, words[n], before, [])
  {
    hide PutWord;
    var lines, word := WrapWords(words, n, width, indent), words[n];
    SpacesAreBlank(indent);
    SpacesEnd(indent);
    var start := if n > 0 then Separate(lines, word, width, indent) else lines;
    if n > 0 && PlainCount(Last(lines)) + 1 + PlainCount(word) <= width {
      CountExtend(lines, [Plain(' ')]);
    }
    PutWordWhole(start, word, width, indent);
    i, before := |start| - 1, Last(start);
    assert before + word + [] == before + word;
  }

  lemma SpacesEnd(n: nat)
    ensures n > 0 ==> Spaces(n)[|Spaces(n)| - 1] == Plain(' ')
    ensures |Spaces(n)| > 0 <==> n > 0
  {
  }

  /** A word of the line as it was. */
  lemma WordInLine(words: seq<seq<Token>>, n: nat) returns (before: seq<Token>, after: seq<Token>)
    requires n < |words|
    ensures WholeIn(Joined(words, |words|), words[n], before, after)
  {
    before := Joined(words, n) + if n > 0 then [Plain(' ')] else [];
    after := Remaining(words, n + 1);
    JoinedRemaining(words, n + 1);
  }

  /** A word that fits behind the indentation, or as the first one without it, is never broken: some line of the
      wrapped text, read afresh, has it whole, with nothing but spaces next to it. */
  lemma ShortWordsStayWhole(line: string, width: nat, n: nat)
    requires '\n' !in line && n < |Words(Tokens(line))|
    requires (if n > 0 then Indent(width) else 0) + PlainCount(Words(Tokens(line))[n]) <= width
    ensures exists i: nat, before: seq<Token>, after: seq<Token> ::
      Placed(LineTokens(Wrapped(line, width)), i, Words(Tokens(line))[n], before, after)
  {
    hide Tokens, PlainCount, WrapWords, SplitLines, Shown, Words, WholeIn, Joined, Indent;
    var words := Words(Tokens(line));
    if FitsAsItIs(line, width) {
      OneLine(line);
      WordsJoin(Tokens(line));
      assert LineTokens(line) == [Tokens(line)];
      var before, after := WordInLine(words, n);
      assert Wrapped(line, width) == line;
      assert Placed(LineTokens(Wrapped(line, width)), 0, words[n], before, after);
    } else {
      WrappedReadsBack(line, width);
      var i, before, after := LaterWordsKeep(words, n, |words|, width, Indent(width));
      assert LineTokens(Wrapped(line, width)) == WrappedLines(line, width);
      assert Placed(LineTokens(Wrapped(line, width)), i, words[n], before, after);
    }
  }

  /** Stripping can make a colour sequence out of what surrounded one. */
  lemma StrippingTwiceDiffers()
    ensures var s := [ESC, ESC, '[', 'm', '[', 'm'];
      && PlainText(Tokens(s)) == [ESC, '[', 'm']
      && PlainText(Tokens(PlainText(Tokens(s)))) == ""
  {
    var s := [ESC, ESC, '[', 'm', '[', 'm'];
    var sgr := [ESC, '[', 'm'];
    assert s[1..][2..] == ['m', '[', 'm'] && sgr[2..] == ['m'];
    assert SgrLength(s) == 0 && SgrLength(s[1..]) == 3 && SgrLength(sgr) == 3;
    assert s[1..][3..] == ['[', 'm'] && s[1..][..3] == sgr;
    assert ['[', 'm'][1..] == ['m'] && ['m'][1..] == [];
    assert Tokens(['[', 'm']) == [Plain('['), Plain('m')];
    var ts := [Plain(ESC), Sgr(sgr), Plain('['), Plain('m')];
    assert Tokens(s) == ts;
    assert ts[..3][..2] == ts[..2] && ts[..2][..1] == ts[..1] && ts[..1][..0] == [];
    assert PlainText(ts[..1]) == PlainText(ts[..1][..0]) + [ESC] == [ESC];
    assert PlainText(ts[..2]) == PlainText(ts[..1]);
    assert PlainText(ts[..3]) == [ESC, '['];
    assert sgr[3..] == [] && sgr[..3] == sgr;
    assert Tokens(sgr) == [Sgr(sgr)];
    assert [Sgr(sgr)][..0] == [];
  }
}

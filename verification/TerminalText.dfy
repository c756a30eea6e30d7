/** The loops over the text itself (src/page_commands/terminal.rs), each proved to do what the functions on
    tokens say. */
module TerminalText {
  import opened Arithmetic
  import opened Terminal
  import opened TerminalWrap

  /** Finds the end of the control sequence at `start`, and whether it is a colour sequence. */
  method SkipCsi(text: string, start: nat) returns (next: nat, keep: bool)
    requires start + 2 <= |text| && text[start] == ESC && text[start + 1] == '['
    ensures keep <==> SgrLength(text[start..]) > 0
    ensures keep ==> start + 3 <= next <= |text| && next - start == SgrLength(text[start..])
  {
    var index := start + 2;
    assert text[start..][2..] == text[start + 2..];
    while index < |text|
      invariant start + 2 <= index <= |text|
      invariant forall i :: start + 2 <= i < index ==> !IsFinal(text[i])
    {
      if IsFinal(text[index]) {
        FinalIndexIs(text[start + 2..], index - start - 2);
        return index + 1, text[index] == 'm';
      }
      index := index + 1;
    }
    FinalIndexIs(text[start + 2..], |text| - start - 2);
    return |text|, false;
  }

  /** Whether a colour sequence begins at `index`, and where it ends; the test at the head of every loop. */
  method AtSgr(text: string, index: nat) returns (next: nat, keep: bool)
    requires index < |text|
    ensures keep <==> SgrLength(text[index..]) > 0
    ensures keep ==> index + 3 <= next <= |text| && next - index == SgrLength(text[index..])
  {
    next, keep := index, false;
    if text[index] == ESC && index + 1 < |text| && text[index + 1] == '[' {
      next, keep := SkipCsi(text, index);
    }
  }

  /** The first token of a suffix, and what is left. */
  lemma NextToken(text: string, index: nat)
    requires index < |text|
    ensures var n := SgrLength(text[index..]);
      && n <= |text| - index
      && (n > 0 ==> Tokens(text[index..]) == [Sgr(text[index..index + n])] + Tokens(text[index + n..]))
      && (n == 0 ==> Tokens(text[index..]) == [Plain(text[index])] + Tokens(text[index + 1..]))
  {
    hide SgrLength;
    var rest, n := text[index..], SgrLength(text[index..]);
    assert n > 0 ==> rest[..n] == text[index..index + n] && rest[n..] == text[index + n..];
    assert rest[1..] == text[index + 1..];
  }

  lemma TokensSplit(done: seq<Token>, t: Token, rest: seq<Token>)
    ensures done + ([t] + rest) == (done + [t]) + rest
    ensures (done + [t])[..|done|] == done
  {
  }

  lemma NoMoreTokens(done: seq<Token>)
    ensures Tokens("") == [] && done + [] == done
  {
  }

  lemma PlainTextMore(done: seq<Token>, t: Token)
    ensures PlainText(done + [t]) == PlainText(done) + (if t.Plain? then [t.c] else [])
    ensures PlainText([]) == ""
  {
    assert (done + [t])[..|done|] == done;
  }

  method StripSgr(text: string) returns (out: string)
    ensures out == PlainText(Tokens(text))
  {
    hide SgrLength, Tokens, PlainText;
    out := "";
    var index := 0;
    ghost var done: seq<Token> := [];
    assert text[0..] == text;
    PlainTextMore([], Plain(' '));
    while index < |text|
      invariant index <= |text| && Tokens(text) == done + Tokens(text[index..])
      invariant out == PlainText(done)
    {
      NextToken(text, index);
      var next, keep := AtSgr(text, index);
      ghost var t := if keep then Sgr(text[index..next]) else Plain(text[index]);
      TokensSplit(done, t, Tokens(text[if keep then next else index + 1..]));
      PlainTextMore(done, t);
      done := done + [t];
      if keep {
        index := next;
      } else {
        out := out + [text[index]];
        index := index + 1;
      }
    }
    assert text[index..] == "";
    NoMoreTokens(done);
  }

  /** A word's text and its number of visible characters. */
  datatype Word = Word(text: string, width: nat)

  ghost predicate Spells(word: Word, ts: seq<Token>) {
    word.text == Flat(ts) && word.width == PlainCount(ts)
  }

  ghost predicate SpellsAll(words: seq<Word>, tss: seq<seq<Token>>) {
    |words| == |tss| && forall i :: 0 <= i < |words| ==> Spells(words[i], tss[i])
  }

  lemma SpellsMore(word: Word, ts: seq<Token>, t: Token)
    requires Spells(word, ts)
    ensures Spells(Word(word.text + TextOf(t), word.width + (if t.Plain? then 1 else 0)), ts + [t])
  {
    assert (ts + [t])[..|ts|] == ts;
  }

  /** The words so far and the one being read, as `Words` of the tokens consumed. */
  ghost predicate Splitting(words: seq<Word>, current: Word, done: seq<Token>) {
    SpellsAll(words + [current], Words(done))
  }

  lemma SplittingMore(words: seq<Word>, current: Word, done: seq<Token>, t: Token)
    requires Splitting(words, current, done)
    ensures t == Plain(' ') ==> Splitting(words + [current], Word("", 0), done + [t])
    ensures t != Plain(' ') ==>
      Splitting(words, Word(current.text + TextOf(t), current.width + (if t.Plain? then 1 else 0)), done + [t])
  {
    var ws, all := Words(done), words + [current];
    WordsMore(done, t);
    hide Words, Spells;
    assert |ws| == |words| + 1 && all[|words|] == current;
    assert Spells(current, ws[|words|]);
    SpellsMore(current, ws[|words|], t);
    SpellsNothing();
    forall i | 0 <= i < |words|
      ensures Spells(words[i], ws[i])
    {
      assert all[i] == words[i];
    }
  }

  lemma WordsMore(done: seq<Token>, t: Token)
    ensures var ws := Words(done); var last := |ws| - 1;
      Words(done + [t]) == if t == Plain(' ') then ws + [[]] else ws[last := ws[last] + [t]]
  {
    assert (done + [t])[..|done|] == done;
  }

  lemma SpellsNothing()
    ensures Spells(Word("", 0), [])
  {
  }

  /** Splits on spaces, keeping each colour sequence with the word it precedes or ends. */
  method SplitWords(line: string) returns (words: seq<Word>)
    ensures SpellsAll(words, Words(Tokens(line)))
  {
    hide SgrLength, Tokens, Splitting;
    words := [];
    var current := Word("", 0);
    var index := 0;
    ghost var done: seq<Token> := [];
    assert line[0..] == line;
    SplittingNone();
    while index < |line|
      invariant index <= |line| && Tokens(line) == done + Tokens(line[index..])
      invariant Splitting(words, current, done)
    {
      NextToken(line, index);
      var next, keep := AtSgr(line, index);
      ghost var t := if keep then Sgr(line[index..next]) else Plain(line[index]);
      TokensSplit(done, t, Tokens(line[if keep then next else index + 1..]));
      SplittingMore(words, current, done, t);
      done := done + [t];
      if keep {
        current := Word(current.text + line[index..next], current.width);
        index := next;
      } else {
        var ch := line[index];
        index := index + 1;
        if ch == ' ' {
          words, current := words + [current], Word("", 0);
        } else {
          current := Word(current.text + [ch], current.width + 1);
        }
      }
    }
    assert line[index..] == "";
    NoMoreTokens(done);
    SplittingDone(words, current, done);
    words := words + [current];
  }

  lemma SplittingNone()
    ensures Splitting([], Word("", 0), [])
  {
  }

  lemma SplittingDone(words: seq<Word>, current: Word, done: seq<Token>)
    requires Splitting(words, current, done)
    ensures SpellsAll(words + [current], Words(done))
  {
  }

  /** The text written so far and the column after it show the given lines. */
  ghost predicate Shows(out: string, col: nat, lines: Lines) {
    lines != [] && out == Shown(lines) && col == PlainCount(Last(lines))
  }

  method BreakLine(out: string, indent: nat, ghost lines: Lines) returns (next: string, col: nat)
    requires lines != [] && out == Shown(lines)
    ensures Shows(next, col, lines + [Spaces(indent)])
  {
    next := out + ['\n'];
    for i := 0 to indent
      invariant next == out + ['\n'] + Flat(Spaces(i))
    {
      next := next + [' '];
    }
    col := indent;
    SpacesAreBlank(indent);
    assert (lines + [Spaces(indent)])[..|lines|] == lines;
  }

  lemma TokenMore(ts: seq<Token>, t: Token)
    ensures Flat(ts + [t]) == Flat(ts) + TextOf(t)
    ensures PlainCount(ts + [t]) == PlainCount(ts) + (if t.Plain? then 1 else 0)
  {
    assert (ts + [t])[..|ts|] == ts;
  }

  lemma ExtendLast(lines: Lines, t: Token)
    requires lines != []
    ensures var longer := Extend(lines, [t]);
      && |longer| == |lines| && longer[..|lines| - 1] == lines[..|lines| - 1] && Last(longer) == Last(lines) + [t]
  {
  }

  lemma TextMore(a: string, b: string, c: string)
    ensures a + (b + c) == (a + b) + c
  {
  }

  lemma ShownLast(lines: Lines)
    requires lines != []
    ensures Shown(lines) == (if |lines| == 1 then "" else Shown(lines[..|lines| - 1]) + ['\n']) + Flat(Last(lines))
  {
    assert "" + Flat(Last(lines)) == Flat(Last(lines));
  }

  lemma ShowsMore(out: string, col: nat, lines: Lines, t: Token)
    requires Shows(out, col, lines)
    ensures Shows(out + TextOf(t), col + (if t.Plain? then 1 else 0), Extend(lines, [t]))
  {
    hide Flat, PlainCount, Shown, Extend, Last;
    var longer := Extend(lines, [t]);
    ExtendLast(lines, t);
    TokenMore(Last(lines), t);
    ShownLast(lines);
    ShownLast(longer);
    TextMore(if |lines| == 1 then "" else Shown(lines[..|lines| - 1]) + ['\n'], Flat(Last(lines)), TextOf(t));
  }

  method PushWord(out: string, word: string, col: nat, width: nat, indent: nat, ghost lines: Lines)
    returns (next: string, end: nat)
    requires Shows(out, col, lines)
    ensures Shows(next, end, PutWord(lines, Tokens(word), width, indent))
  {
    hide SgrLength, Tokens, PutWord, Shows;
    next, end := out, col;
    var index := 0;
    ghost var done: seq<Token> := [];
    assert word[0..] == word;
    ShowsColumn(out, col, lines);
    PutNothing(lines, width, indent);
    while index < |word|
      invariant index <= |word| && Tokens(word) == done + Tokens(word[index..])
      invariant Shows(next, end, PutWord(lines, done, width, indent))
    {
      NextToken(word, index);
      var stop, keep := AtSgr(word, index);
      ghost var t := if keep then Sgr(word[index..stop]) else Plain(word[index]);
      ghost var before := PutWord(lines, done, width, indent);
      TokensSplit(done, t, Tokens(word[if keep then stop else index + 1..]));
      PutOneMore(lines, done, t, width, indent);
      done := done + [t];
      ShowsColumn(next, end, before);
      if keep {
        ShowsMore(next, end, before, t);
        next := next + word[index..stop];
        index := stop;
      } else {
        if end >= width {
          next, end := BreakLine(next, indent, before);
          before := before + [Spaces(indent)];
        }
        ShowsMore(next, end, before, t);
        next := next + [word[index]];
        end := end + 1;
        index := index + 1;
      }
    }
    assert word[index..] == "";
    NoMoreTokens(done);
  }

  lemma PutNothing(lines: Lines, width: nat, indent: nat)
    requires lines != []
    ensures PutWord(lines, [], width, indent) == lines
  {
  }

  lemma PutOneMore(lines: Lines, done: seq<Token>, t: Token, width: nat, indent: nat)
    requires lines != []
    ensures var before := PutWord(lines, done, width, indent);
      PutWord(lines, done + [t], width, indent)
      == if t.Plain? && PlainCount(Last(before)) >= width then Extend(before + [Spaces(indent)], [t]) else Extend(before, [t])
  {
    assert (done + [t])[..|done|] == done;
  }

  lemma ShowsColumn(out: string, col: nat, lines: Lines)
    requires Shows(out, col, lines)
    ensures lines != [] && col == PlainCount(Last(lines)) && out == Shown(lines)
  {
  }

  /** A word read back from its own text is the word it was cut out as. */
  lemma WordReadsBack(line: string, n: nat)
    requires n < |Words(Tokens(line))|
    ensures var word := Words(Tokens(line))[n]; Tokens(Flat(word)) == word
  {
    hide Stable, Tokens, Words, Joined;
    var words := Words(Tokens(line));
    TokensAreStable(line);
    WordsJoin(Tokens(line));
    JoinedRemaining(words, n);
    var gap, rest := if n > 0 then [Plain(' ')] else [], Remaining(words, n + 1);
    StablePrefix(Joined(words, n), gap + (words[n] + rest));
    StablePrefix(gap, words[n] + rest);
    StablePrefix(words[n], rest);
    StableReadsBack(words[n]);
  }

  /** Word-wraps `line` to `width` visible characters. */
  method WrapVisible(line: string, width: nat) returns (out: string)
    ensures out == Wrapped(line, width)
  {
    hide Tokens, Words, WrapWords, PutWord, Shown, Shows, PlainCount;
    ghost var tss := Words(Tokens(line));
    if width == 0 {
      return line;
    }
    var visible := StripSgr(line);
    PlainTextLength(Tokens(line));
    if |visible| <= width {
      return line;
    }
    var indent := Min(WRAP_INDENT, width / 2);
    var words := SplitWords(line);
    var col: nat := 0;
    out := "";
    ghost var lines: Lines := [[]];
    WrapNone(tss, width, indent);
    for index := 0 to |words|
      invariant lines == WrapWords(tss, index, width, indent) && Shows(out, col, lines)
    {
      WordReadsBack(line, index);
      WrapOneMore(tss, index, width, indent);
      ShowsColumn(out, col, lines);
      if index > 0 {
        ghost var next := Separate(lines, tss[index], width, indent);
        if col + 1 + words[index].width > width {
          out, col := BreakLine(out, indent, lines);
        } else {
          ShowsMore(out, col, lines, Plain(' '));
          out := out + [' '];
          col := col + 1;
        }
        lines := next;
      }
      out, col := PushWord(out, words[index].text, col, width, indent, lines);
      lines := PutWord(lines, tss[index], width, indent);
    }
    ShowsColumn(out, col, lines);
  }

  lemma WrapNone(words: seq<seq<Token>>, width: nat, indent: nat)
    ensures WrapWords(words, 0, width, indent) == [[]] && Shows("", 0, [[]])
  {
  }

  lemma WrapOneMore(words: seq<seq<Token>>, n: nat, width: nat, indent: nat)
    requires n < |words|
    ensures var lines := WrapWords(words, n, width, indent);
      WrapWords(words, n + 1, width, indent)
      == PutWord(if n > 0 then Separate(lines, words[n], width, indent) else lines, words[n], width, indent)
  {
  }
}

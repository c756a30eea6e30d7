/** Where word wrapping breaks a line, and where it does not (src/page_commands/terminal.rs). */
module TerminalBreaks {
  import opened Terminal
  import opened TerminalWrap

  /** Line `i + 1` begins with the indentation, and there was no room on line `i` for what comes then: it is full, or
      the next word does not fit behind a space. That word begins the new line, in one piece if it fits there. */
  ghost predicate Needed(lines: Lines, i: nat, words: seq<seq<Token>>, width: nat, indent: nat)
    requires i + 1 < |lines|
  {
    Spaces(indent) <= lines[i + 1]
    && (PlainCount(lines[i]) >= width
        || exists k: nat, m: nat :: 0 < k < |words| && m <= |words[k]| && Begun(lines, i, words[k], m, width, indent))
  }

  /** The first `m` tokens of a word that does not fit on line `i` begin line `i + 1`; more of it would not fit. */
  ghost predicate Begun(lines: Lines, i: nat, word: seq<Token>, m: nat, width: nat, indent: nat)
    requires i + 1 < |lines| && m <= |word|
  {
    && PlainCount(lines[i]) + 1 + PlainCount(word) > width
    && Spaces(indent) + word[..m] <= lines[i + 1]
    && (m == |word| || indent + PlainCount(word[..m]) >= width)
  }

  /** Every break but the one behind line `p` is needed. */
  ghost predicate AllNeeded(lines: Lines, p: int, words: seq<seq<Token>>, width: nat, indent: nat) {
    forall i: nat :: i + 1 < |lines| && i != p ==> Needed(lines, i, words, width, indent)
  }

  /** Lines that are finished stay, and the last one is only added to. */
  ghost predicate Grows(a: Lines, b: Lines) {
    && 0 < |a| <= |b|
    && (forall i: nat :: i + 1 < |a| ==> b[i] == a[i])
    && Last(a) <= b[|a| - 1]
  }

  lemma GrowsChain(a: Lines, b: Lines, c: Lines)
    requires Grows(a, b) && Grows(b, c)
    ensures Grows(a, c)
  {
    if |a| < |b| { assert c[|a| - 1] == b[|a| - 1]; }
  }

  lemma GrowsKeepsNeeded(a: Lines, b: Lines, i: nat, words: seq<seq<Token>>, width: nat, indent: nat)
    requires Grows(a, b) && i + 1 < |a| && Needed(a, i, words, width, indent)
    ensures Needed(b, i, words, width, indent)
  {
    assert b[i] == a[i] && a[i + 1] <= b[i + 1];
    if PlainCount(a[i]) < width {
      var k: nat, m: nat :| 0 < k < |words| && m <= |words[k]| && Begun(a, i, words[k], m, width, indent);
      assert Begun(b, i, words[k], m, width, indent);
    }
  }

  lemma PutGrows(lines: Lines, t: Token, width: nat, indent: nat)
    requires lines != []
    ensures Grows(lines, Put(lines, t, width, indent))
  {
    hide PlainCount;
  }

  lemma PutNeeds(lines: Lines, t: Token, p: int, words: seq<seq<Token>>, width: nat, indent: nat)
    requires lines != [] && p + 1 < |lines| && AllNeeded(lines, p, words, width, indent)
    ensures AllNeeded(Put(lines, t, width, indent), p, words, width, indent)
  {
    hide Needed, PlainCount;
    var after := Put(lines, t, width, indent);
    PutGrows(lines, t, width, indent);
    forall i: nat | i + 1 < |after| && i != p
      ensures Needed(after, i, words, width, indent)
    {
      if i + 1 < |lines| {
        GrowsKeepsNeeded(lines, after, i, words, width, indent);
      } else {
        FullLine(after, i, words, width, indent, t);
      }
    }
  }

  lemma FullLine(lines: Lines, i: nat, words: seq<seq<Token>>, width: nat, indent: nat, t: Token)
    requires i + 1 < |lines| && PlainCount(lines[i]) >= width && lines[i + 1] == Spaces(indent) + [t]
    ensures Needed(lines, i, words, width, indent)
  {
  }

  lemma {:induction false} PutWordNeeds(lines: Lines, word: seq<Token>, p: int, words: seq<seq<Token>>, width: nat, indent: nat)
    requires lines != [] && p + 1 < |lines| && AllNeeded(lines, p, words, width, indent)
    ensures AllNeeded(PutWord(lines, word, width, indent), p, words, width, indent) && Grows(lines, PutWord(lines, word, width, indent))
  {
    hide AllNeeded, Grows, Put;
    if word == [] {
      GrowsSelf(lines);
    } else {
      var before, t := PutWord(lines, word[..|word| - 1], width, indent), word[|word| - 1];
      PutWordNeeds(lines, word[..|word| - 1], p, words, width, indent);
      assert p + 1 < |before| by { GrowsLonger(lines, before); }
      PutNeeds(before, t, p, words, width, indent);
      PutGrows(before, t, width, indent);
      GrowsChain(lines, before, Put(before, t, width, indent));
    }
  }

  lemma GrowsSelf(lines: Lines)
    requires lines != []
    ensures Grows(lines, lines)
  {
  }

  lemma GrowsLonger(a: Lines, b: Lines)
    requires Grows(a, b)
    ensures |a| <= |b| && b != []
  {
  }

  /** A word put behind a break begins the new line, whole or up to where that is full. */
  ghost predicate Placing(lines: Lines, l: nat, word: seq<Token>, j: nat, m: nat, width: nat, indent: nat)
    requires m <= j <= |word|
  {
    && l < |lines| && Spaces(indent) + word[..m] <= lines[l]
    && ((m == j && |lines| == l + 1 && lines[l] == Spaces(indent) + word[..j]) || indent + PlainCount(word[..m]) >= width)
  }

  lemma {:induction false} WordBegins(start: Lines, word: seq<Token>, j: nat, width: nat, indent: nat) returns (m: nat)
    requires start != [] && Last(start) == Spaces(indent) && j <= |word|
    ensures m <= j && Placing(PutWord(start, word[..j], width, indent), |start| - 1, word, j, m, width, indent)
  {
    hide PlainCount, Put;
    if j == 0 {
      m := 0;
      assert Spaces(indent) + word[..0] == Spaces(indent);
    } else {
      var before, l := PutWord(start, word[..j - 1], width, indent), |start| - 1;
      m := WordBegins(start, word, j - 1, width, indent);
      assert word[..j][..j - 1] == word[..j - 1] && word[..j][j - 1] == word[j - 1];
      m := OneMoreBegins(before, l, word, j, m, width, indent);
    }
  }

  lemma OneMoreBegins(before: Lines, l: nat, word: seq<Token>, j: nat, m: nat, width: nat, indent: nat) returns (n: nat)
    requires 0 < j <= |word| && m <= j - 1 && before != [] && Placing(before, l, word, j - 1, m, width, indent)
    ensures n <= j && Placing(Put(before, word[j - 1], width, indent), l, word, j, n, width, indent)
  {
    hide PlainCount;
    var t, after := word[j - 1], Put(before, word[j - 1], width, indent);
    PutGrows(before, t, width, indent);
    n := m;
    assert before[l] <= after[l];
    if m == j - 1 && |before| == l + 1 && before[l] == Spaces(indent) + word[..j - 1] {
      SpacesAreBlank(indent);
      PlainCountAppend(Spaces(indent), word[..j - 1]);
      if !(t.Plain? && PlainCount(before[l]) >= width) {
        n := j;
        assert (Spaces(indent) + word[..j - 1]) + [t] == Spaces(indent) + word[..j];
      }
    }
  }

  lemma BreakNeeds(lines: Lines, words: seq<seq<Token>>, k: nat, width: nat, indent: nat)
    requires lines != [] && 0 < k < |words| && AllNeeded(lines, -1, words, width, indent)
    requires PlainCount(Last(lines)) + 1 + PlainCount(words[k]) > width
    ensures AllNeeded(PutWord(lines + [Spaces(indent)], words[k], width, indent), -1, words, width, indent)
  {
    hide Needed, PlainCount, PutWord;
    var p, start, word := |lines| - 1, lines + [Spaces(indent)], words[k];
    GrowsByLine(lines, Spaces(indent));
    forall i: nat | i + 1 < |start| && i != p
      ensures Needed(start, i, words, width, indent)
    {
      GrowsKeepsNeeded(lines, start, i, words, width, indent);
    }
    PutWordNeeds(start, word, p, words, width, indent);
    var after := PutWord(start, word, width, indent);
    var m := WordBegins(start, word, |word|, width, indent);
    assert word[..|word|] == word;
    BrokenIsNeeded(after, p, words, k, m, width, indent, Last(lines));
  }

  lemma GrowsByLine(lines: Lines, line: seq<Token>)
    requires lines != []
    ensures Grows(lines, lines + [line])
  {
  }

  lemma BrokenIsNeeded(lines: Lines, p: nat, words: seq<seq<Token>>, k: nat, m: nat, width: nat, indent: nat, last: seq<Token>)
    requires p + 1 < |lines| && lines[p] == last && 0 < k < |words| && m <= |words[k]|
    requires PlainCount(last) + 1 + PlainCount(words[k]) > width
    requires Placing(lines, p + 1, words[k], |words[k]|, m, width, indent)
    ensures Needed(lines, p, words, width, indent)
  {
    assert Spaces(indent) <= Spaces(indent) + words[k][..m];
    assert Begun(lines, p, words[k], m, width, indent);
  }

  lemma {:induction false} WrapNeeds(words: seq<seq<Token>>, n: nat, width: nat, indent: nat)
    requires n <= |words|
    ensures AllNeeded(WrapWords(words, n, width, indent), -1, words, width, indent)
  {
    hide AllNeeded, PutWord, PlainCount;
    if n == 0 {
      NoBreaks(words, width, indent);
    } else {
      var lines, word := WrapWords(words, n - 1, width, indent), words[n - 1];
      WrapNeeds(words, n - 1, width, indent);
      if n > 1 && PlainCount(Last(lines)) + 1 + PlainCount(word) > width {
        BreakNeeds(lines, words, n - 1, width, indent);
      } else if n > 1 {
        ExtendNeeds(lines, Plain(' '), words, width, indent);
        PutWordNeeds(Extend(lines, [Plain(' ')]), word, -1, words, width, indent);
      } else {
        PutWordNeeds(lines, word, -1, words, width, indent);
      }
    }
  }

  lemma NoBreaks(words: seq<seq<Token>>, width: nat, indent: nat)
    ensures AllNeeded([[]], -1, words, width, indent)
  {
  }

  lemma ExtendNeeds(lines: Lines, t: Token, words: seq<seq<Token>>, width: nat, indent: nat)
    requires lines != [] && AllNeeded(lines, -1, words, width, indent)
    ensures AllNeeded(Extend(lines, [t]), -1, words, width, indent)
  {
    hide Needed, PlainCount;
    var after := Extend(lines, [t]);
    assert Grows(lines, after);
    forall i: nat | i + 1 < |after|
      ensures Needed(after, i, words, width, indent)
    {
      GrowsKeepsNeeded(lines, after, i, words, width, indent);
    }
  }

  /** Wrapping breaks no line without need: each line but the first is indented and begins with what the line before,
      read afresh, had no room for. */
  lemma BreaksAreNeeded(line: string, width: nat)
    requires '\n' !in line
    ensures AllNeeded(LineTokens(Wrapped(line, width)), -1, Words(Tokens(line)), width, Indent(width))
  {
    hide Tokens, PlainCount, WrapWords, SplitLines, Shown, Words, AllNeeded, Indent;
    if FitsAsItIs(line, width) {
      OneLine(line);
      assert LineTokens(line) == [Tokens(line)];
      OneLineNeeds(Tokens(line), Words(Tokens(line)), width, Indent(width));
    } else {
      WrappedReadsBack(line, width);
      WrapNeeds(Words(Tokens(line)), |Words(Tokens(line))|, width, Indent(width));
      assert LineTokens(Wrapped(line, width)) == WrappedLines(line, width);
    }
  }

  lemma OneLineNeeds(ts: seq<Token>, words: seq<seq<Token>>, width: nat, indent: nat)
    ensures AllNeeded([ts], -1, words, width, indent)
  {
  }
}

/** Wrapping of terminal output to the width of the tooltip (src/page_commands/terminal.rs). Text is a
    sequence of characters; the source's byte indices only ever stop at ASCII bytes, so they cut between
    characters. A colour sequence is a control sequence (section 5.4 of ECMA-48) whose final byte is `m`. */
module Terminal {
  import opened Arithmetic

  const ESC: char := '\U{001B}'

  const WRAP_INDENT: nat := 2

  // ----- tokens

  /** A visible character, or a whole colour sequence. */
  datatype Token = Plain(c: char) | Sgr(s: string)

  predicate IsFinal(c: char) {
    '@' <= c <= '~'
  }

  /** Index of the first final byte, or the length when there is none. */
  function FinalIndex(s: string): (k: nat)
    ensures k <= |s|
    ensures k < |s| ==> IsFinal(s[k])
    ensures forall i :: 0 <= i < k ==> !IsFinal(s[i])
  {
    if s == [] || IsFinal(s[0]) then 0 else 1 + FinalIndex(s[1..])
  }

  lemma {:induction false} FinalIndexIs(s: string, k: nat)
    requires k <= |s| && (k < |s| ==> IsFinal(s[k])) && forall i :: 0 <= i < k ==> !IsFinal(s[i])
    ensures FinalIndex(s) == k
  {
  }

  /** Length of the colour sequence at the beginning of `s`; zero when there is none. */
  function SgrLength(s: string): (n: nat)
    ensures n <= |s| && (n > 0 ==> n >= 3)
  {
    if |s| < 2 || s[0] != ESC || s[1] != '[' then 0
    else
      var k := FinalIndex(s[2..]);
      if k < |s| - 2 && s[2 + k] == 'm' then k + 3 else 0
  }

  function Tokens(s: string): seq<Token> {
    if s == [] then []
    else
      var n := SgrLength(s);
      if n > 0 then [Sgr(s[..n])] + Tokens(s[n..]) else [Plain(s[0])] + Tokens(s[1..])
  }

  function TextOf(t: Token): string {
    match t
    case Plain(c) => [c]
    case Sgr(s) => s
  }

  function Flat(ts: seq<Token>): string {
    if ts == [] then "" else Flat(ts[..|ts| - 1]) + TextOf(ts[|ts| - 1])
  }

  function PlainCount(ts: seq<Token>): nat {
    if ts == [] then 0 else PlainCount(ts[..|ts| - 1]) + (if ts[|ts| - 1].Plain? then 1 else 0)
  }

  /** What wrapping must not touch: everything but spaces. */
  function Ink(ts: seq<Token>): seq<Token> {
    if ts == [] then []
    else
      var last := ts[|ts| - 1];
      Ink(ts[..|ts| - 1]) + (if last == Plain(' ') then [] else [last])
  }

  function PlainText(ts: seq<Token>): string {
    if ts == [] then ""
    else PlainText(ts[..|ts| - 1]) + (if ts[|ts| - 1].Plain? then [ts[|ts| - 1].c] else [])
  }

  lemma {:induction false} FlatAppend(a: seq<Token>, b: seq<Token>)
    ensures Flat(a + b) == Flat(a) + Flat(b)
  {
    if b == [] {
      assert a + b == a;
    } else {
      assert (a + b)[..|a + b| - 1] == a + b[..|b| - 1];
      FlatAppend(a, b[..|b| - 1]);
    }
  }

  lemma {:induction false} PlainCountAppend(a: seq<Token>, b: seq<Token>)
    ensures PlainCount(a + b) == PlainCount(a) + PlainCount(b)
  {
    if b == [] {
      assert a + b == a;
    } else {
      assert (a + b)[..|a + b| - 1] == a + b[..|b| - 1];
      PlainCountAppend(a, b[..|b| - 1]);
    }
  }

  lemma {:induction false} InkAppend(a: seq<Token>, b: seq<Token>)
    ensures Ink(a + b) == Ink(a) + Ink(b)
  {
    if b == [] {
      assert a + b == a;
    } else {
      assert (a + b)[..|a + b| - 1] == a + b[..|b| - 1];
      InkAppend(a, b[..|b| - 1]);
    }
  }

  lemma {:induction false} PlainTextAppend(a: seq<Token>, b: seq<Token>)
    ensures PlainText(a + b) == PlainText(a) + PlainText(b)
    ensures |PlainText(a)| == PlainCount(a)
  {
    PlainTextLength(a);
    if b == [] {
      assert a + b == a;
    } else {
      assert (a + b)[..|a + b| - 1] == a + b[..|b| - 1];
      PlainTextAppend(a, b[..|b| - 1]);
    }
  }

  lemma {:induction false} PlainTextLength(ts: seq<Token>)
    ensures |PlainText(ts)| == PlainCount(ts)
  {
    if ts != [] { PlainTextLength(ts[..|ts| - 1]); }
  }

  lemma FlatHead(ts: seq<Token>)
    requires ts != []
    ensures Flat(ts) == TextOf(ts[0]) + Flat(ts[1..])
  {
    assert ts == [ts[0]] + ts[1..];
    FlatAppend([ts[0]], ts[1..]);
    assert [ts[0]][..0] == [];
  }

  lemma TokensHead(s: string)
    requires s != []
    ensures var ts, n := Tokens(s), SgrLength(s);
      && ts != [] && Reads(ts[0], s)
      && s == TextOf(ts[0]) + s[if n > 0 then n else 1..]
      && ts[1..] == Tokens(s[if n > 0 then n else 1..])
  {
    hide SgrLength;
  }

  /** Reading tokens loses nothing. */
  lemma {:induction false} FlatTokens(s: string)
    ensures Flat(Tokens(s)) == s
  {
    hide SgrLength, Flat, Tokens;
    if s == [] {
      NoTokens();
    } else {
      TokensHead(s);
      var n := SgrLength(s);
      FlatTokens(s[if n > 0 then n else 1..]);
      FlatHead(Tokens(s));
    }
  }

  lemma NoTokens()
    ensures Tokens("") == [] && Flat([]) == ""
  {
  }

  // ----- when a list of tokens is read back as it is

  /** No character of the list begins a colour sequence with what follows it, and colour sequences are whole. */
  ghost predicate Stable(ts: seq<Token>) {
    ts == [] || (Stable(ts[1..]) && Reads(ts[0], Flat(ts)))
  }

  /** The text `s` is read as beginning with `t`. */
  predicate Reads(t: Token, s: string) {
    if t.Sgr? then SgrLength(s) == |t.s| > 0 else SgrLength(s) == 0
  }

  lemma {:induction false} TokensAreStable(s: string)
    ensures Stable(Tokens(s))
  {
    if s != [] {
      var n := SgrLength(s);
      FlatTokens(s);
      TokensAreStable(if n > 0 then s[n..] else s[1..]);
    }
  }

  lemma {:induction false} StableReadsBack(ts: seq<Token>)
    requires Stable(ts)
    ensures Tokens(Flat(ts)) == ts
  {
    hide SgrLength;
    if ts != [] {
      FlatHead(ts);
      StableReadsBack(ts[1..]);
      var s := Flat(ts);
      assert ts[0].Sgr? ==> s[..|ts[0].s|] == ts[0].s && s[|ts[0].s|..] == Flat(ts[1..]);
      assert ts[0].Plain? ==> s[1..] == Flat(ts[1..]);
    }
  }

  lemma SgrLengthLocal(s: string, u: string)
    ensures SgrLength(s) > 0 ==> SgrLength(s + u) == SgrLength(s)
    ensures 0 < SgrLength(s + u) <= |s| ==> SgrLength(s) == SgrLength(s + u)
  {
    if |s| >= 2 && s[0] == ESC && s[1] == '[' {
      assert (s + u)[2..] == s[2..] + u;
      var k := FinalIndex(s[2..]);
      if k < |s| - 2 {
        FinalIndexIs(s[2..] + u, k);
      }
      var m := FinalIndex(s[2..] + u);
      if m < |s| - 2 {
        assert (s[2..] + u)[m] == s[2..][m];
        assert forall i :: 0 <= i < m ==> (s[2..] + u)[i] == s[2..][i];
        FinalIndexIs(s[2..], m);
      }
    }
  }

  /** Cutting a list keeps it stable on both sides. */
  lemma {:induction false} StablePrefix(a: seq<Token>, b: seq<Token>)
    requires Stable(a + b)
    ensures Stable(a) && Stable(b)
  {
    hide SgrLength, Flat;
    if a == [] {
      assert a + b == b;
    } else {
      assert (a + b)[1..] == a[1..] + b;
      StablePrefix(a[1..], b);
      FlatAppend(a, b);
      FlatHead(a);
      SgrLengthLocal(Flat(a), Flat(b));
    }
  }

  function Spaces(n: nat): seq<Token> {
    if n == 0 then [] else Spaces(n - 1) + [Plain(' ')]
  }

  lemma StableSpace(ts: seq<Token>)
    requires Stable(ts)
    ensures Stable([Plain(' ')] + ts)
  {
    hide Flat;
    var indented := [Plain(' ')] + ts;
    assert indented[1..] == ts;
    FlatHead(indented);
  }

  /** Indenting keeps it stable. */
  lemma {:induction false} StableIndent(n: nat, ts: seq<Token>)
    requires Stable(ts)
    ensures Stable(Spaces(n) + ts)
  {
    hide Stable;
    if n == 0 {
      assert Spaces(n) + ts == ts;
    } else {
      StableSpace(ts);
      StableIndent(n - 1, [Plain(' ')] + ts);
      assert Spaces(n) + ts == Spaces(n - 1) + ([Plain(' ')] + ts);
    }
  }

  lemma {:induction false} SpacesAreBlank(n: nat)
    ensures PlainCount(Spaces(n)) == n && Ink(Spaces(n)) == []
  {
    if n > 0 { SpacesAreBlank(n - 1); }
  }

  // ----- words

  /** The tokens between spaces. */
  function Words(ts: seq<Token>): (r: seq<seq<Token>>)
    ensures r != []
  {
    if ts == [] then [[]]
    else
      var last := |ts| - 1;
      var ws := Words(ts[..last]);
      if ts[last] == Plain(' ') then ws + [[]] else ws[|ws| - 1 := ws[|ws| - 1] + [ts[last]]]
  }

  /** The first `n` words with the spaces between them. */
  function Joined(words: seq<seq<Token>>, n: nat): seq<Token>
    requires n <= |words|
  {
    if n == 0 then [] else Joined(words, n - 1) + (if n > 1 then [Plain(' ')] else []) + words[n - 1]
  }

  lemma {:induction false} JoinedPrefix(a: seq<seq<Token>>, b: seq<seq<Token>>, n: nat)
    requires n <= |a| && n <= |b| && a[..n] == b[..n]
    ensures Joined(a, n) == Joined(b, n)
  {
    if n > 0 {
      assert a[..n - 1] == a[..n][..n - 1] == b[..n][..n - 1] == b[..n - 1];
      assert a[n - 1] == a[..n][n - 1] == b[..n][n - 1] == b[n - 1];
      JoinedPrefix(a, b, n - 1);
    }
  }

  lemma {:induction false} WordsJoin(ts: seq<Token>)
    ensures Joined(Words(ts), |Words(ts)|) == ts
  {
    if ts != [] {
      var last := |ts| - 1;
      var before, ws := Words(ts[..last]), Words(ts);
      var n := |before|;
      WordsJoin(ts[..last]);
      assert ts == ts[..last] + [ts[last]];
      if ts[last] == Plain(' ') {
        JoinedPrefix(ws, before, n);
      } else {
        JoinedPrefix(ws, before, n - 1);
      }
    }
  }

  // ----- lines

  type Lines = seq<seq<Token>>

  function Last(lines: Lines): seq<Token>
    requires lines != []
  {
    lines[|lines| - 1]
  }

  function Extend(lines: Lines, ts: seq<Token>): Lines
    requires lines != []
  {
    lines[|lines| - 1 := Last(lines) + ts]
  }

  /** A token goes to the last line, or to a new one when a character no longer fits. */
  function Put(lines: Lines, t: Token, width: nat, indent: nat): (r: Lines)
    requires lines != []
    ensures r != []
  {
    if t.Plain? && PlainCount(Last(lines)) >= width then lines + [Spaces(indent) + [t]] else Extend(lines, [t])
  }

  function PutWord(lines: Lines, word: seq<Token>, width: nat, indent: nat): (r: Lines)
    requires lines != []
    ensures r != []
  {
    if word == [] then lines
    else Put(PutWord(lines, word[..|word| - 1], width, indent), word[|word| - 1], width, indent)
  }

  /** A space before the next word, or a new line when the word does not fit behind one. */
  function Separate(lines: Lines, word: seq<Token>, width: nat, indent: nat): (r: Lines)
    requires lines != []
    ensures r != []
  {
    if PlainCount(Last(lines)) + 1 + PlainCount(word) > width then lines + [Spaces(indent)] else Extend(lines, [Plain(' ')])
  }

  function WrapWords(words: seq<seq<Token>>, n: nat, width: nat, indent: nat): (r: Lines)
    requires n <= |words|
    ensures r != []
  {
    if n == 0 then [[]]
    else
      var lines := WrapWords(words, n - 1, width, indent);
      PutWord(if n > 1 then Separate(lines, words[n - 1], width, indent) else lines, words[n - 1], width, indent)
  }

  function Shown(lines: Lines): string
    requires lines != []
  {
    if |lines| == 1 then Flat(lines[0]) else Shown(lines[..|lines| - 1]) + ['\n'] + Flat(lines[|lines| - 1])
  }

  function Indent(width: nat): nat {
    Min(WRAP_INDENT, width / 2)
  }

  function WrappedLines(line: string, width: nat): (r: Lines)
    ensures r != []
  {
    var words := Words(Tokens(line));
    WrapWords(words, |words|, width, Indent(width))
  }

  predicate FitsAsItIs(line: string, width: nat) {
    width == 0 || PlainCount(Tokens(line)) <= width
  }

  function Wrapped(line: string, width: nat): string {
    if FitsAsItIs(line, width) then line else Shown(WrappedLines(line, width))
  }
}

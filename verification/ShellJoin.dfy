/** Quoting of a command for the shell (src/page_commands.rs), against the way a POSIX shell splits a line
    into words (sections 2.2.1 to 2.2.3 and 2.3 of the Shell Command Language in POSIX.1-2017). */
module ShellJoin {
  import opened Wrappers

  // ----- quoting

  predicate IsPlain(c: char) {
    'a' <= c <= 'z' || 'A' <= c <= 'Z' || '0' <= c <= '9' || c == '_' || c == '-' || c == '.' || c == '/' || c == ':'
  }

  predicate AllPlain(arg: string) {
    forall i :: 0 <= i < |arg| ==> IsPlain(arg[i])
  }

  /** Every single quote becomes `'"'"'`: the quotes end, a quoted quote follows, they begin again. */
  function Escaped(arg: string): string {
    if arg == "" then ""
    else
      var c := arg[|arg| - 1];
      Escaped(arg[..|arg| - 1]) + (if c == '\'' then "'\"'\"'" else [c])
  }

  function Quoted(arg: string): string {
    if AllPlain(arg) then arg else "'" + Escaped(arg) + "'"
  }

  function ShellJoin(argv: seq<string>): string {
    if argv == [] then ""
    else if |argv| == 1 then Quoted(argv[0])
    else ShellJoin(argv[..|argv| - 1]) + " " + Quoted(argv[|argv| - 1])
  }

  // ----- the shell's words

  datatype Mode =
    | Between
    | InWord(word: string)
    | InSingle(word: string)
    | InDouble(word: string)
    | Escaping(word: string)         // after an unquoted backslash
    | EscapingDouble(word: string)   // after a backslash between double quotes
    | Beyond                         // an operator, expansion, pattern or comment: no longer plain words

  datatype Scan = Scan(words: seq<string>, mode: Mode)

  predicate IsBlank(c: char) {
    c == ' ' || c == '\t'
  }

  /** Characters that mean something to the shell when they are not quoted. */
  predicate IsSpecial(c: char) {
    c in {'|', '&', ';', '<', '>', '(', ')', '$', '`', '*', '?', '[', '#', '~', '=', '%', '!', '{', '}', '\n'}
  }

  /** One unquoted character, within the word read so far. */
  function Unquoted(s: Scan, word: string, started: bool, c: char): Scan {
    if IsBlank(c) then (if started then Scan(s.words + [word], Between) else s)
    else if c == '\'' then s.(mode := InSingle(word))
    else if c == '"' then s.(mode := InDouble(word))
    else if c == '\\' then s.(mode := Escaping(word))
    else if IsSpecial(c) then s.(mode := Beyond)
    else s.(mode := InWord(word + [c]))
  }

  function Next(s: Scan, c: char): Scan {
    match s.mode
    case Between => Unquoted(s, "", false, c)
    case InWord(word) => Unquoted(s, word, true, c)
    case InSingle(word) => if c == '\'' then s.(mode := InWord(word)) else s.(mode := InSingle(word + [c]))
    case InDouble(word) =>
      if c == '"' then s.(mode := InWord(word))
      else if c == '\\' then s.(mode := EscapingDouble(word))
      else if c == '$' || c == '`' then s.(mode := Beyond)
      else s.(mode := InDouble(word + [c]))
    case Escaping(word) => s.(mode := InWord(if c == '\n' then word else word + [c]))
    case EscapingDouble(word) =>
      s.(mode := InDouble(if c == '\n' then word
                          else if c in {'$', '`', '"', '\\'} then word + [c] else word + ['\\', c]))
    case Beyond => s
  }

  function ScanFrom(s: Scan, text: string): Scan {
    if text == "" then s else Next(ScanFrom(s, text[..|text| - 1]), text[|text| - 1])
  }

  /** The words of a line; none when a quote is left open or the line is more than words. */
  function Words(text: string): Option<seq<string>> {
    var s := ScanFrom(Scan([], Between), text);
    match s.mode
    case Between => Some(s.words)
    case InWord(word) => Some(s.words + [word])
    case _ => None
  }

  // ----- what the shell makes of a quoted command

  lemma {:induction false} ScanAppend(s: Scan, a: string, b: string)
    ensures ScanFrom(s, a + b) == ScanFrom(ScanFrom(s, a), b)
  {
    if b == "" {
      assert a + b == a;
    } else {
      assert (a + b)[..|a + b| - 1] == a + b[..|b| - 1];
      ScanAppend(s, a, b[..|b| - 1]);
    }
  }

  lemma ScanOne(s: Scan, c: char)
    ensures ScanFrom(s, [c]) == Next(s, c)
  {
    assert [c][..0] == "";
  }

  lemma PlainIsNotSpecial(c: char)
    ensures IsPlain(c) ==> !IsSpecial(c) && !IsBlank(c) && c != '\'' && c != '"' && c != '\\'
  {
  }

  /** Plain characters are themselves. */
  lemma {:induction false} PlainIsRead(words: seq<string>, arg: string)
    requires AllPlain(arg)
    ensures ScanFrom(Scan(words, Between), arg) == Scan(words, if arg == "" then Between else InWord(arg))
  {
    if arg != "" {
      var front, c := arg[..|arg| - 1], arg[|arg| - 1];
      PlainIsRead(words, front);
      assert arg == front + [c];
      PlainIsNotSpecial(c);
      hide IsSpecial, IsPlain;
    }
  }

  /** The quote that replaces a quote. */
  lemma EscapedQuoteIsRead(words: seq<string>, word: string)
    ensures ScanFrom(Scan(words, InSingle(word)), "'\"'\"'") == Scan(words, InSingle(word + ['\'']))
  {
    var text := "'\"'\"'";
    assert text[..4][..3] == text[..3] && text[..3][..2] == text[..2] && text[..2][..1] == text[..1] && text[..1][..0] == "";
    var s := Scan(words, InSingle(word));
    assert ScanFrom(s, text[..1]) == Scan(words, InWord(word));
    assert ScanFrom(s, text[..2]) == Scan(words, InDouble(word));
    assert ScanFrom(s, text[..3]) == Scan(words, InDouble(word + ['\'']));
    assert ScanFrom(s, text[..4]) == Scan(words, InWord(word + ['\'']));
  }

  lemma {:induction false} EscapedIsRead(words: seq<string>, arg: string)
    ensures ScanFrom(Scan(words, InSingle("")), Escaped(arg)) == Scan(words, InSingle(arg))
  {
    if arg != "" {
      var front, c := arg[..|arg| - 1], arg[|arg| - 1];
      EscapedIsRead(words, front);
      assert arg == front + [c];
      ScanAppend(Scan(words, InSingle("")), Escaped(front), if c == '\'' then "'\"'\"'" else [c]);
      EscapedQuoteIsRead(words, front);
      ScanOne(Scan(words, InSingle(front)), c);
    }
  }

  /** A quoted argument is read as one word, the argument itself; an empty one is not read at all. */
  lemma QuotedIsRead(words: seq<string>, arg: string)
    ensures ScanFrom(Scan(words, Between), Quoted(arg)) == Scan(words, if arg == "" then Between else InWord(arg))
  {
    if AllPlain(arg) {
      PlainIsRead(words, arg);
    } else {
      var s := Scan(words, Between);
      ScanAppend(s, "'" + Escaped(arg), "'");
      ScanAppend(s, "'", Escaped(arg));
      ScanOne(s, '\'');
      EscapedIsRead(words, arg);
      ScanOne(Scan(words, InSingle(arg)), '\'');
    }
  }

  function NonEmpty(argv: seq<string>): seq<string> {
    if argv == [] then []
    else NonEmpty(argv[..|argv| - 1]) + (if argv[|argv| - 1] == "" then [] else [argv[|argv| - 1]])
  }

  /** Where the shell is after a joined list: the last argument, if any, is still being read. */
  function Reached(argv: seq<string>): Scan {
    if argv == [] then Scan([], Between)
    else
      var last := argv[|argv| - 1];
      Scan(NonEmpty(argv[..|argv| - 1]), if last == "" then Between else InWord(last))
  }

  lemma {:induction false} JoinedIsRead(argv: seq<string>)
    ensures ScanFrom(Scan([], Between), ShellJoin(argv)) == Reached(argv)
  {
    hide Quoted, IsSpecial;
    if argv != [] {
      var front, last := argv[..|argv| - 1], argv[|argv| - 1];
      var s := Scan([], Between);
      if |argv| == 1 {
        QuotedIsRead([], last);
      } else {
        JoinedIsRead(front);
        ScanAppend(s, ShellJoin(front), " ");
        ScanAppend(s, ShellJoin(front) + " ", Quoted(last));
        ScanOne(Reached(front), ' ');
        BlankEndsWord(front);
        QuotedIsRead(NonEmpty(front), last);
      }
    }
  }

  lemma BlankEndsWord(argv: seq<string>)
    requires argv != []
    ensures Next(Reached(argv), ' ') == Scan(NonEmpty(argv), Between)
  {
    hide IsSpecial;
  }

  /** The shell reads a joined list as its arguments that are not empty. */
  lemma WordsOfJoined(argv: seq<string>)
    ensures Words(ShellJoin(argv)) == Some(NonEmpty(argv))
  {
    JoinedIsRead(argv);
    if argv != [] {
      assert NonEmpty(argv[..|argv| - 1]) + [] == NonEmpty(argv[..|argv| - 1]);
    }
  }

  lemma {:induction false} NonEmptyIff(argv: seq<string>)
    ensures |NonEmpty(argv)| <= |argv|
    ensures NonEmpty(argv) == argv <==> "" !in argv
  {
    if argv != [] {
      var front, last := argv[..|argv| - 1], argv[|argv| - 1];
      NonEmptyIff(front);
      assert argv == front + [last];
    }
  }

  /** So the round trip is exact for exactly the lists without an empty argument. */
  lemma RoundTripIff(argv: seq<string>)
    ensures Words(ShellJoin(argv)) == Some(argv) <==> "" !in argv
  {
    WordsOfJoined(argv);
    NonEmptyIff(argv);
  }
}

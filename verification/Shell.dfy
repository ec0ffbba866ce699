/** Quoting for the remote shell, against how a POSIX shell cuts a command into words. */
module Shell {
  import opened Records

  // ---- words, as the Shell Command Language of POSIX.1-2017 cuts them

  /** A byte of a word: quoted, so that it stands for itself, or not. */
  datatype Byte = Literal(c: char) | Active(c: char)

  type Word = seq<Byte>

  /** Where the reading of a command line stands: the words so far and the one begun, if any.  Backquotes,
      substitutions in brackets and here-documents are beyond this reading. */
  datatype Reading =
    | Bare(done: seq<Word>, begun: Option<Word>)
    | Escape(done: seq<Word>, begun: Option<Word>)
    | Single(done: seq<Word>, word: Word)
    | Double(done: seq<Word>, word: Word)
    | DoubleEscape(done: seq<Word>, word: Word)
    | Comment(done: seq<Word>)
    | Beyond

  const START := Bare([], None)

  predicate Blank(c: char) {
    c == ' ' || c == '\t'
  }

  predicate Operator(c: char) {
    c in "|&;<>()\n"
  }

  function OrEmpty(word: Option<Word>): Word {
    if word.Some? then word.value else []
  }

  function Ended(done: seq<Word>, word: Option<Word>): seq<Word> {
    if word.Some? then done + [word.value] else done
  }

  /** An opening bracket right after an unquoted dollar sign. */
  predicate Substitution(word: Word, c: char) {
    c in "({" && word != [] && word[|word| - 1] == Active('$')
  }

  predicate HereDocument(done: seq<Word>, word: Option<Word>, c: char) {
    c == '<' && word.None? && done != [] && done[|done| - 1] == [Active('<')]
  }

  /** Token recognition (section 2.3) one byte further, with the escape character (2.2.1), single quotes
      (2.2.2) and double quotes (2.2.3).  An operator is read as words of one byte each. */
  function Step(r: Reading, c: char): Reading {
    match r
    case Bare(done, word) =>
      if Blank(c) then Bare(Ended(done, word), None)
      else if c == '\'' then Single(done, OrEmpty(word))
      else if c == '\"' then Double(done, OrEmpty(word))
      else if c == '\\' then Escape(done, word)
      else if c == '`' || Substitution(OrEmpty(word), c) || HereDocument(done, word, c) then Beyond
      else if Operator(c) then Bare(Ended(done, word) + [[Active(c)]], None)
      else if c == '#' && word.None? then Comment(done)
      else Bare(done, Some(OrEmpty(word) + [Active(c)]))
    case Escape(done, word) =>
      if c == '\n' then Bare(done, word) else Bare(done, Some(OrEmpty(word) + [Literal(c)]))
    case Single(done, word) =>
      if c == '\'' then Bare(done, Some(word)) else Single(done, word + [Literal(c)])
    case Double(done, word) =>
      if c == '\"' then Bare(done, Some(word))
      else if c == '\\' then DoubleEscape(done, word)
      else if c == '`' || Substitution(word, c) then Beyond
      else Double(done, word + [if c == '$' then Active(c) else Literal(c)])
    case DoubleEscape(done, word) =>
      if c == '\n' then Double(done, word)
      else if c in "$`\"\\" then Double(done, word + [Literal(c)])
      else Double(done, word + [Literal('\\'), Literal(c)])
    case Comment(done) =>
      if c == '\n' then Bare(done + [[Active(c)]], None) else r
    case Beyond => Beyond
  }

  function Read(s: string, r: Reading): Reading {
    if s == "" then r else Read(s[1..], Step(r, s[0]))
  }

  /** The words of a text that ends outside quotes, escapes and comments. */
  function Words(s: string): Option<seq<Word>> {
    var r := Read(s, START);
    if r.Bare? then Some(Ended(r.done, r.begun)) else None
  }

  lemma {:induction false} ReadAppends(a: string, b: string, r: Reading)
    ensures Read(a + b, r) == Read(b, Read(a, r))
  {
    if a == "" {
      assert a + b == b;
    } else {
      assert (a + b)[0] == a[0] && (a + b)[1..] == a[1..] + b;
      ReadAppends(a[1..], b, Step(r, a[0]));
    }
  }

  // ---- quoting

  const QUOTED_QUOTE := "'\\''"

  function Inner(s: string): string {
    if s == "" then "" else (if s[0] == '\'' then QUOTED_QUOTE else [s[0]]) + Inner(s[1..])
  }

  function Escaped(s: string): string {
    "'" + Inner(s) + "'"
  }

  function Command(server: string, args: seq<string>): string {
    if args == [] then server else Command(server, args[..|args| - 1]) + " " + Escaped(args[|args| - 1])
  }

  lemma {:induction false} InnerAppends(a: string, c: char)
    ensures Inner(a + [c]) == Inner(a) + (if c == '\'' then QUOTED_QUOTE else [c])
  {
    if a == "" {
      assert a + [c] == [c] && [c][1..] == "";
    } else {
      InnerAppends(a[1..], c);
      assert (a + [c])[1..] == a[1..] + [c];
    }
  }

  /** `shell_escape`. */
  method ShellEscape(s: string) returns (escaped: string)
    ensures escaped == Escaped(s)
  {
    escaped := "'";
    for k := 0 to |s|
      invariant escaped == "'" + Inner(s[..k])
    {
      assert s[..k + 1] == s[..k] + [s[k]];
      InnerAppends(s[..k], s[k]);
      if s[k] == '\'' {
        escaped := escaped + "'\\''";
      } else {
        escaped := escaped + [s[k]];
      }
    }
    assert s[..|s|] == s;
    escaped := escaped + "'";
  }

  /** The command line handed to the remote shell. */
  method BuildCommand(server: string, args: seq<string>) returns (cmd: string)
    ensures cmd == Command(server, args)
  {
    cmd := server;
    for k := 0 to |args|
      invariant cmd == Command(server, args[..k])
    {
      assert args[..k + 1][..k] == args[..k];
      var quoted := ShellEscape(args[k]);
      cmd := cmd + " " + quoted;
    }
    assert args[..|args|] == args;
  }

  // ---- the round trip

  /** A text every byte of which stands for itself. */
  function Literally(s: string): (w: Word)
    ensures |w| == |s| && forall i | 0 <= i < |s| :: w[i] == Literal(s[i])
  {
    seq(|s|, i requires 0 <= i < |s| => Literal(s[i]))
  }

  function AllLiterally(args: seq<string>): (ws: seq<Word>)
    ensures |ws| == |args| && forall i | 0 <= i < |args| :: ws[i] == Literally(args[i])
  {
    seq(|args|, i requires 0 <= i < |args| => Literally(args[i]))
  }

  lemma LiterallyIsInjective(s: string, t: string)
    requires Literally(s) == Literally(t)
    ensures s == t
  {
    forall i | 0 <= i < |s| ensures s[i] == t[i] { assert Literally(s)[i] == Literally(t)[i]; }
  }

  /** A quoted quote inside single quotes adds one quote. */
  lemma QuotedQuoteReads(done: seq<Word>, word: Word)
    ensures Read(QUOTED_QUOTE, Single(done, word)) == Single(done, word + [Literal('\'')])
  {
    var q := QUOTED_QUOTE;
    assert q[1..] == "\\''" && q[1..][1..] == "''" && q[1..][1..][1..] == "'" && q[1..][1..][1..][1..] == "";
    assert Read("'", Bare(done, Some(word + [Literal('\'')]))) == Single(done, word + [Literal('\'')]);
    assert Read("''", Escape(done, Some(word))) == Read("'", Bare(done, Some(word + [Literal('\'')])));
    assert Read("\\''", Bare(done, Some(word))) == Read("''", Escape(done, Some(word)));
  }

  lemma {:induction false} InnerReads(a: string, done: seq<Word>, word: Word)
    ensures Read(Inner(a), Single(done, word)) == Single(done, word + Literally(a))
  {
    if a == "" {
      assert word + Literally(a) == word;
    } else {
      var first, more := word + [Literal(a[0])], Inner(a[1..]);
      InnerReads(a[1..], done, first);
      assert word + Literally(a) == first + Literally(a[1..]);
      if a[0] == '\'' {
        ReadAppends(QUOTED_QUOTE, more, Single(done, word));
        QuotedQuoteReads(done, word);
      } else {
        assert ([a[0]] + more)[1..] == more;
      }
    }
  }

  /** After a blank a quoted argument is one word of its own: exactly its text, every byte for itself. */
  lemma EscapedReads(a: string, done: seq<Word>, word: Option<Word>)
    ensures Read(" " + Escaped(a), Bare(done, word)) == Bare(Ended(done, word), Some(Literally(a)))
  {
    var ended := Ended(done, word);
    var rest := Inner(a) + "'";
    assert (" " + Escaped(a))[1..] == "'" + rest && ("'" + rest)[1..] == rest;
    assert Read("'" + rest, Bare(ended, None)) == Read(rest, Single(ended, []));
    ReadAppends(Inner(a), "'", Single(ended, []));
    InnerReads(a, ended, []);
    assert [] + Literally(a) == Literally(a) && "'"[1..] == "";
  }

  /** Whatever was read before, if it ends outside quotes, escapes and comments. */
  lemma {:induction false} ArgumentsRead(server: string, args: seq<string>, r: Reading)
    requires Read(server, r).Bare?
    ensures var before, after := Read(server, r), Read(Command(server, args), r);
      after.Bare? && Ended(after.done, after.begun) == Ended(before.done, before.begun) + AllLiterally(args)
    decreases |args|
  {
    var before := Read(server, r);
    var words := Ended(before.done, before.begun);
    if args == [] {
      assert words + AllLiterally(args) == words;
    } else {
      var init, last := args[..|args| - 1], args[|args| - 1];
      ArgumentsRead(server, init, r);
      var middle := Read(Command(server, init), r);
      assert Command(server, args) == Command(server, init) + (" " + Escaped(last));
      ReadAppends(Command(server, init), " " + Escaped(last), r);
      EscapedReads(last, middle.done, middle.begun);
      assert AllLiterally(args) == AllLiterally(init) + [Literally(last)];
      assert words + AllLiterally(init) + [Literally(last)] == words + AllLiterally(args);
    }
  }

  /** The remote shell sees the words of the server command followed by exactly the arguments, every byte of
      them quoted: empty ones, and ones with quotes, blanks or newlines, included. */
  lemma CommandRoundTrip(server: string, args: seq<string>)
    requires Words(server).Some?
    ensures Words(Command(server, args)) == Some(Words(server).value + AllLiterally(args))
  {
    ArgumentsRead(server, args, START);
  }

  /** What follows the server command depends on the arguments only. */
  lemma {:induction false} CommandTail(server: string, args: seq<string>)
    ensures Command(server, args) == server + Command("", args)
    decreases |args|
  {
    if args != [] {
      CommandTail(server, args[..|args| - 1]);
    }
  }

  lemma AllLiterallyIsInjective(args: seq<string>, args': seq<string>)
    requires AllLiterally(args) == AllLiterally(args')
    ensures args == args'
  {
    forall i | 0 <= i < |args| ensures args[i] == args'[i] {
      assert AllLiterally(args)[i] == AllLiterally(args')[i];
      LiterallyIsInjective(args[i], args'[i]);
    }
  }

  /** The arguments can be read off what follows the server command. */
  lemma TailReads(args: seq<string>)
    ensures Words(Command("", args)) == Some(AllLiterally(args))
  {
    CommandRoundTrip("", args);
    assert [] + AllLiterally(args) == AllLiterally(args);
  }

  /** Different arguments never make the same command line, whatever the server command. */
  lemma CommandsDiffer(server: string, args: seq<string>, args': seq<string>)
    ensures Command(server, args) == Command(server, args') <==> args == args'
  {
    if Command(server, args) == Command(server, args') {
      CommandTail(server, args);
      CommandTail(server, args');
      assert Command(server, args)[|server|..] == Command("", args) && Command(server, args')[|server|..] == Command("", args');
      TailReads(args);
      TailReads(args');
      AllLiterallyIsInjective(args, args');
    }
  }
}

/** Placeholder expansion in transform arguments and expected outputs. */
module Placeholders {
  import opened Records

  // ---- what a template is made of

  /** Plain text and a token, which runs from a brace to the first closing one, and so on; then a tail. */
  datatype Template = Tail(tail: string) | Next(text: string, token: string, rest: Template)

  predicate Lacks(s: string, c: char) {
    forall i | 0 <= i < |s| :: s[i] != c
  }

  predicate IsToken(t: string) {
    |t| >= 2 && t[0] == '{' && t[|t| - 1] == '}' && forall i | 0 <= i < |t| - 1 :: t[i] != '}'
  }

  /** No brace is opened and closed. */
  predicate IsTail(s: string) {
    forall i, j | 0 <= i < j < |s| :: !(s[i] == '{' && s[j] == '}')
  }

  predicate WellFormed(t: Template) {
    match t
    case Tail(tail) => IsTail(tail)
    case Next(text, token, rest) => Lacks(text, '{') && IsToken(token) && WellFormed(rest)
  }

  function Text(t: Template): string {
    match t
    case Tail(tail) => tail
    case Next(text, token, rest) => text + token + Text(rest)
  }

  /** The first position of a character at or after one, or the length. */
  function Find(s: string, c: char, from: nat): (r: nat)
    requires from <= |s|
    ensures from <= r <= |s| && (r < |s| ==> s[r] == c)
    ensures forall i | from <= i < r :: s[i] != c
    decreases |s| - from
  {
    if from == |s| || s[from] == c then from else Find(s, c, from + 1)
  }

  /** The first opening brace and the first closing brace after it. */
  function Open(s: string): nat {
    Find(s, '{', 0)
  }

  function Close(s: string): (r: nat)
    ensures Open(s) <= r <= |s| && (Open(s) < r < |s| ==> s[r] == '}')
  {
    Find(s, '}', Open(s))
  }

  /** Cut once, from the left. */
  function Tokenized(s: string): Template
    decreases |s|
  {
    if Close(s) == |s| then Tail(s)
    else Next(s[..Open(s)], s[Open(s)..Close(s) + 1], Tokenized(s[Close(s) + 1..]))
  }

  lemma FirstPart(s: string)
    requires Close(s) < |s|
    ensures Lacks(s[..Open(s)], '{') && IsToken(s[Open(s)..Close(s) + 1])
    ensures s == s[..Open(s)] + s[Open(s)..Close(s) + 1] + s[Close(s) + 1..]
  {
    assert s[Open(s)] == '{' && s[Close(s)] == '}';
    var token := s[Open(s)..Close(s) + 1];
    assert forall i | 0 <= i < |token| :: token[i] == s[Open(s) + i];
  }

  lemma NoMatchIsTail(s: string)
    ensures Close(s) == |s| <==> IsTail(s)
  {
    if Close(s) == |s| {
      forall i, j | 0 <= i < j < |s| ensures !(s[i] == '{' && s[j] == '}') {}
    } else {
      assert s[Open(s)] == '{' && s[Close(s)] == '}' && Open(s) < Close(s);
    }
  }

  /** Cutting loses nothing, and yields well-formed parts. */
  lemma {:induction false} TokenizedIsLossless(s: string)
    ensures WellFormed(Tokenized(s)) && Text(Tokenized(s)) == s
    decreases |s|
  {
    NoMatchIsTail(s);
    if Close(s) < |s| {
      FirstPart(s);
      TokenizedIsLossless(s[Close(s) + 1..]);
    }
  }

  lemma FindIsFirst(s: string, c: char, from: nat, k: nat)
    requires from <= k < |s| && s[k] == c && forall i | from <= i < k :: s[i] != c
    ensures Find(s, c, from) == k
  {}

  /** Text without an opening brace, a token and anything else: the braces are found where they are. */
  lemma BracesFound(text: string, token: string, more: string)
    requires Lacks(text, '{') && IsToken(token)
    ensures var s := text + token + more; Open(s) == |text| && Close(s) == |text| + |token| - 1
  {
    var s := text + token + more;
    assert forall i | 0 <= i < |text| :: s[i] == text[i];
    assert forall i | 0 <= i < |token| :: s[|text| + i] == token[i];
    FindIsFirst(s, '{', 0, |text|);
    assert forall i | |text| <= i < |text| + |token| - 1 :: s[i] == token[i - |text|];
    FindIsFirst(s, '}', |text|, |text| + |token| - 1);
  }

  lemma Cuts(text: string, token: string, more: string)
    ensures var s := text + token + more;
      s[..|text|] == text && s[|text|..|text| + |token|] == token && s[|text| + |token|..] == more
  {}

  /** It is the only way to cut: any well-formed parts that make up the text are these. */
  lemma {:induction false} TokenizedIsUnique(t: Template)
    requires WellFormed(t)
    ensures Tokenized(Text(t)) == t
  {
    match t
    case Tail(tail) => NoMatchIsTail(tail);
    case Next(text, token, rest) =>
      TokenizedIsUnique(rest);
      BracesFound(text, token, Text(rest));
      Cuts(text, token, Text(rest));
  }

  // ---- substitution

  /** Paths and names a transform may ask for. */
  datatype Target = Target(path: string, directory: string, fileName: string, fileStem: string)

  datatype Values = Values(input: string, parent: string, fileName: string, fileStem: string,
                           target: Option<Target>, legacyDirectory: Option<string>)

  type Table = map<string, string>

  /** The tokens that have a value: all of them when the target is resolved. */
  function Known(v: Values): Table {
    map["{input}" := v.input, "{parent}" := v.parent, "{file_name}" := v.fileName, "{file_stem}" := v.fileStem]
    + (match v.target
       case Some(t) => map["{target_path}" := t.path, "{target_directory}" := t.directory,
                           "{target_file_name}" := t.fileName, "{target_file_stem}" := t.fileStem]
       case None => if v.legacyDirectory.Some? then map["{target_directory}" := v.legacyDirectory.value] else map[])
  }

  /** A token without a value stands for itself. */
  function Rendered(v: Table, token: string): string {
    if token in v then v[token] else token
  }

  /** Every token of the template, and nothing else, gives way to its value. */
  function Substituted(v: Table, t: Template): string {
    match t
    case Tail(tail) => tail
    case Next(text, token, rest) => text + Rendered(v, token) + Substituted(v, rest)
  }

  /** What is expanded, followed by what the rest expands to, is the whole. */
  ghost predicate ExpandedSoFar(v: Table, template: string, expanded: string, remaining: string) {
    Substituted(v, Tokenized(template)) == expanded + Substituted(v, Tokenized(remaining))
  }

  lemma ExpansionGoesOn(v: Table, template: string, expanded: string, remaining: string)
    requires ExpandedSoFar(v, template, expanded, remaining) && Close(remaining) < |remaining|
    ensures var open, close := Open(remaining), Close(remaining);
      ExpandedSoFar(v, template, (expanded + remaining[..open]) + Rendered(v, remaining[open..close + 1]), remaining[close + 1..])
  {
    var open, close := Open(remaining), Close(remaining);
    Regroup(expanded, remaining[..open], Rendered(v, remaining[open..close + 1]), Substituted(v, Tokenized(remaining[close + 1..])));
  }

  lemma ExpansionEnds(v: Table, template: string, expanded: string, remaining: string)
    requires ExpandedSoFar(v, template, expanded, remaining) && Close(remaining) == |remaining|
    ensures Substituted(v, Tokenized(template)) == expanded + remaining
  {}

  lemma CutAgain(a: string, b: string, k: nat)
    requires k <= |b|
    ensures a + b == (a + b[..k]) + b[k..]
  {
    assert b == b[..k] + b[k..];
  }

  lemma Regroup(a: string, b: string, c: string, d: string)
    ensures a + (b + c + d) == (a + b) + c + d
  {}

  /** The value of a token, looked up by its name. */
  method Replacement(v: Values, token: string) returns (r: Option<string>)
    ensures r == if token in Known(v) then Some(Known(v)[token]) else None
  {
    match token {
      case "{input}" => r := Some(v.input);
      case "{parent}" => r := Some(v.parent);
      case "{file_name}" => r := Some(v.fileName);
      case "{file_stem}" => r := Some(v.fileStem);
      case "{target_path}" => r := if v.target.Some? then Some(v.target.value.path) else None;
      case "{target_directory}" => r := if v.target.Some? then Some(v.target.value.directory) else v.legacyDirectory;
      case "{target_file_name}" => r := if v.target.Some? then Some(v.target.value.fileName) else None;
      case "{target_file_stem}" => r := if v.target.Some? then Some(v.target.value.fileStem) else None;
      case _ => r := None;
    }
  }

  /** The next token, or what stands for it. */
  method Expansion(v: Values, token: string) returns (text: string)
    ensures text == Rendered(Known(v), token)
  {
    var value := Replacement(v, token);
    text := if value.Some? then value.value else token;
  }

  /** `expand_placeholders`: one pass over the template; substituted text is never looked at again. */
  method ExpandPlaceholders(v: Values, template: string) returns (expanded: string)
    ensures expanded == Substituted(Known(v), Tokenized(template))
  {
    expanded := "";
    var remaining := template;
    ExpansionStarts(Known(v), template);
    while Open(remaining) < |remaining|
      invariant ExpandedSoFar(Known(v), template, expanded, remaining)
      decreases |remaining|
    {
      var open, close := Open(remaining), Close(remaining);
      if close == |remaining| {
        ExpansionEnds(Known(v), template, expanded, remaining);
        CutAgain(expanded, remaining, open);
        return (expanded + remaining[..open]) + remaining[open..];
      }
      ExpansionGoesOn(Known(v), template, expanded, remaining);
      var text := Expansion(v, remaining[open..close + 1]);
      expanded := (expanded + remaining[..open]) + text;
      remaining := remaining[close + 1..];
    }
    ExpansionEnds(Known(v), template, expanded, remaining);
    expanded := expanded + remaining;
  }

  lemma ExpansionStarts(v: Table, template: string)
    ensures ExpandedSoFar(v, template, "", template)
  {
    var whole := Substituted(v, Tokenized(template));
    assert "" + whole == whole;
  }

  /** A template in which no token has a value comes out as it went in. */
  lemma {:induction false} UnknownTokensStay(v: Table, t: Template)
    requires NoneKnown(v, t)
    ensures Substituted(v, t) == Text(t)
  {
    if t.Next? { UnknownTokensStay(v, t.rest); }
  }

  predicate NoneKnown(v: Table, t: Template) {
    t.Next? ==> t.token !in v && NoneKnown(v, t.rest)
  }

  /** A value that itself looks like a placeholder comes out literally, and what follows is expanded as if it
      stood alone. */
  lemma ValuesAreLiteral(v: Table, before: string, token: string, rest: string)
    requires Lacks(before, '{') && IsToken(token)
    ensures Substituted(v, Tokenized(before + token + rest)) == before + Rendered(v, token) + Substituted(v, Tokenized(rest))
  {
    TokenizedIsLossless(rest);
    TokenizedIsUnique(Next(before, token, Tokenized(rest)));
  }
}

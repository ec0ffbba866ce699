/** Nicknames: which are valid, and how one is made from a user or host name. */
module NicknameText {
  import opened Records

  predicate Alphanumeric(c: char) {
    'a' <= c <= 'z' || 'A' <= c <= 'Z' || '0' <= c <= '9'
  }

  predicate Separator(c: char) {
    c == '-' || c == '_'
  }

  datatype NicknameError = Empty | InvalidCharacter(c: char)

  predicate ValidNickname(s: string) {
    s != "" && forall i | 0 <= i < |s| :: Alphanumeric(s[i]) || Separator(s[i])
  }

  /** `Nickname::new`: None when valid, else what is wrong with it first. */
  method CheckNickname(s: string) returns (e: Option<NicknameError>)
    ensures e == None <==> ValidNickname(s)
    ensures e == Some(Empty) <==> s == ""
    ensures forall c | e == Some(InvalidCharacter(c)) ::
      exists k | 0 <= k < |s| :: s[k] == c && !Alphanumeric(c) && !Separator(c)
        && forall i | 0 <= i < k :: Alphanumeric(s[i]) || Separator(s[i])
  {
    if s == "" {
      return Some(Empty);
    }
    for k := 0 to |s|
      invariant forall i | 0 <= i < k :: Alphanumeric(s[i]) || Separator(s[i])
    {
      if !Alphanumeric(s[k]) && s[k] != '-' && s[k] != '_' {
        return Some(InvalidCharacter(s[k]));
      }
    }
    return None;
  }

  // ---- sanitising

  function Replaced(s: string): string {
    seq(|s|, i requires 0 <= i < |s| => if Alphanumeric(s[i]) || Separator(s[i]) then s[i] else '-')
  }

  predicate EndsInSeparator(s: string) {
    s != "" && Separator(s[|s| - 1])
  }

  /** Of adjacent separators only the first stays. */
  function Deduped(s: string): (r: string)
  {
    if s == "" then ""
    else
      var init := Deduped(s[..|s| - 1]);
      if Separator(s[|s| - 1]) && EndsInSeparator(init) then init else init + [s[|s| - 1]]
  }

  function TrimStart(s: string): string {
    if s != "" && Separator(s[0]) then TrimStart(s[1..]) else s
  }

  function TrimEnd(s: string): string {
    if EndsInSeparator(s) then TrimEnd(s[..|s| - 1]) else s
  }

  function Sanitized(raw: string): string {
    var trimmed := TrimEnd(TrimStart(Deduped(Replaced(raw))));
    if trimmed == "" then "client" else trimmed
  }

  /** `sanitize_nickname`. */
  method SanitizeNickname(raw: string) returns (r: string)
    ensures r == Sanitized(raw)
  {
    var result := "";
    for k := 0 to |raw|
      invariant result == Replaced(raw)[..k]
    {
      if Alphanumeric(raw[k]) || raw[k] == '-' || raw[k] == '_' {
        result := result + [raw[k]];
      } else {
        result := result + "-";
      }
    }
    assert result == Replaced(raw);
    var deduped := "";
    for k := 0 to |result|
      invariant deduped == Deduped(result[..k])
    {
      assert result[..k + 1][..k] == result[..k];
      var ch := result[k];
      if Separator(ch) {
        if !EndsInSeparator(deduped) {
          deduped := deduped + [ch];
        }
      } else {
        deduped := deduped + [ch];
      }
    }
    assert result[..|result|] == result;
    var trimmed := TrimEnd(TrimStart(deduped));
    return if trimmed == "" then "client" else trimmed;
  }

  // ---- what comes out

  predicate NoAdjacent(s: string) {
    forall i | 0 <= i < |s| - 1 :: !(Separator(s[i]) && Separator(s[i + 1]))
  }

  predicate NoEdges(s: string) {
    s != "" ==> !Separator(s[0]) && !Separator(s[|s| - 1])
  }

  predicate Characters(s: string) {
    forall i | 0 <= i < |s| :: Alphanumeric(s[i]) || Separator(s[i])
  }

  /** The letters and digits, in order. */
  function Letters(s: string): string {
    if s == "" then "" else (if Alphanumeric(s[0]) then [s[0]] else "") + Letters(s[1..])
  }

  lemma {:induction false} LettersAppend(s: string, t: string)
    ensures Letters(s + t) == Letters(s) + Letters(t)
  {
    if s == "" {
      assert s + t == t;
    } else {
      var first := if Alphanumeric(s[0]) then [s[0]] else "";
      LettersAppend(s[1..], t);
      assert (s + t)[0] == s[0] && (s + t)[1..] == s[1..] + t;
      assert first + (Letters(s[1..]) + Letters(t)) == (first + Letters(s[1..])) + Letters(t);
    }
  }

  lemma LettersOfOne(c: char)
    ensures Letters([c]) == if Alphanumeric(c) then [c] else ""
  {
    assert [c][1..] == "";
  }

  lemma {:induction false} ReplacedKeepsLetters(s: string)
    ensures Letters(Replaced(s)) == Letters(s) && Characters(Replaced(s))
  {
    if s != "" {
      ReplacedKeepsLetters(s[1..]);
      assert Replaced(s)[1..] == Replaced(s[1..]);
    }
  }

  lemma {:induction false} DedupedIsClean(s: string)
    requires Characters(s)
    ensures var r := Deduped(s); Characters(r) && NoAdjacent(r) && Letters(r) == Letters(s)
  {
    if s != "" {
      var init, last := s[..|s| - 1], s[|s| - 1];
      DedupedIsClean(init);
      assert s == init + [last];
      LettersAppend(init, [last]);
      LettersAppend(Deduped(init), [last]);
      LettersOfOne(last);
      assert Letters(init) + "" == Letters(init);
    }
  }

  lemma {:induction false} TrimStartIsClean(s: string)
    requires Characters(s) && NoAdjacent(s)
    ensures var r := TrimStart(s);
      Characters(r) && NoAdjacent(r) && Letters(r) == Letters(s) && (r != "" ==> !Separator(r[0]))
  {
    if s != "" && Separator(s[0]) { TrimStartIsClean(s[1..]); }
  }

  lemma {:induction false} TrimEndIsClean(s: string)
    requires Characters(s) && NoAdjacent(s) && (s != "" ==> !Separator(s[0]))
    ensures var r := TrimEnd(s);
      Characters(r) && NoAdjacent(r) && Letters(r) == Letters(s) && NoEdges(r)
  {
    if EndsInSeparator(s) {
      var init, last := s[..|s| - 1], s[|s| - 1];
      TrimEndIsClean(init);
      assert s == init + [last];
      LettersAppend(init, [last]);
      LettersOfOne(last);
      assert Letters(init) + "" == Letters(init);
    }
  }

  lemma {:induction false} NoLettersNoText(s: string)
    requires Characters(s) && NoAdjacent(s) && NoEdges(s)
    ensures s == "" <==> Letters(s) == ""
  {}

  /** Whatever the name, the sanitised one is a valid nickname without adjacent or edge separators, and
      it keeps the letters and digits in their order; without any it is "client". */
  lemma SanitizedIsValid(raw: string)
    ensures var r := Sanitized(raw);
      && ValidNickname(r) && NoAdjacent(r) && NoEdges(r)
      && (if Letters(raw) == "" then r == "client" else Letters(r) == Letters(raw))
  {
    ReplacedKeepsLetters(raw);
    var a := Replaced(raw);
    DedupedIsClean(a);
    TrimStartIsClean(Deduped(a));
    TrimEndIsClean(TrimStart(Deduped(a)));
    NoLettersNoText(TrimEnd(TrimStart(Deduped(a))));
  }

  lemma {:induction false} CleanStays(s: string)
    requires Characters(s) && NoAdjacent(s)
    ensures Replaced(s) == s && Deduped(s) == s
  {
    if s != "" {
      var init := s[..|s| - 1];
      assert init + [s[|s| - 1]] == s;
      CleanStays(init);
      if EndsInSeparator(init) { assert s[|s| - 2] == init[|init| - 1]; }
    }
  }

  /** Sanitising again changes nothing. */
  lemma SanitizingAgain(raw: string)
    ensures Sanitized(Sanitized(raw)) == Sanitized(raw)
  {
    SanitizedIsValid(raw);
    CleanStays(Sanitized(raw));
  }
}

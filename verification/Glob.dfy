/** The wildcard matcher behind --split, over bytes: patterns without bracket expressions. */
module Glob {
  import opened Records

  // ---- what a pattern without "**" means

  predicate NoSlash(s: string) {
    '/' !in s
  }

  /** The text one pattern character may stand for. */
  predicate StandsFor(c: char, piece: string) {
    if c == '*' then NoSlash(piece)
    else if c == '?' then |piece| == 1 && piece[0] != '/'
    else piece == [c]
  }

  function Concat(pieces: seq<string>): string {
    if pieces == [] then "" else pieces[0] + Concat(pieces[1..])
  }

  ghost predicate Cut(pattern: string, s: string, pieces: seq<string>) {
    |pieces| == |pattern| && Concat(pieces) == s && forall i | 0 <= i < |pattern| :: StandsFor(pattern[i], pieces[i])
  }

  /** The path can be cut into one piece for every pattern character: a slash-free run for a star, one
      byte that is no slash for a question mark, and the byte itself for any other. */
  ghost predicate Matches(pattern: string, s: string) {
    exists pieces :: Cut(pattern, s, pieces)
  }

  /** The same by recursion on the pattern. */
  ghost predicate Accepts(pattern: string, s: string)
    decreases |pattern|, 1
  {
    if pattern == "" then s == ""
    else if pattern[0] == '*' then exists k | 0 <= k <= |s| :: TakesStar(pattern, s, k)
    else s != "" && StandsFor(pattern[0], s[..1]) && Accepts(pattern[1..], s[1..])
  }

  /** A star takes the first k bytes. */
  ghost predicate TakesStar(pattern: string, s: string, k: nat)
    requires pattern != "" && k <= |s|
    decreases |pattern|, 0
  {
    NoSlash(s[..k]) && Accepts(pattern[1..], s[k..])
  }

  lemma {:induction false} CutIsAccepted(pattern: string, s: string, pieces: seq<string>)
    requires Cut(pattern, s, pieces)
    ensures Accepts(pattern, s)
  {
    if pattern != "" {
      var k := |pieces[0]|;
      assert s[..k] == pieces[0] && s[k..] == Concat(pieces[1..]);
      CutIsAccepted(pattern[1..], s[k..], pieces[1..]);
      assert StandsFor(pattern[0], pieces[0]);
      if pattern[0] == '*' { assert TakesStar(pattern, s, k); }
    }
  }

  lemma {:induction false} AcceptedIsCut(pattern: string, s: string) returns (pieces: seq<string>)
    requires Accepts(pattern, s)
    ensures Cut(pattern, s, pieces)
  {
    if pattern == "" {
      pieces := [];
    } else {
      var k := 1;
      if pattern[0] == '*' {
        k :| 0 <= k <= |s| && TakesStar(pattern, s, k);
      }
      var rest := AcceptedIsCut(pattern[1..], s[k..]);
      pieces := [s[..k]] + rest;
      assert pieces[1..] == rest && s == s[..k] + s[k..];
      forall i | 0 <= i < |pattern| ensures StandsFor(pattern[i], pieces[i]) {
        if i > 0 { assert pattern[i] == pattern[1..][i - 1] && pieces[i] == rest[i - 1]; }
      }
    }
  }

  lemma AcceptsIsMatches(pattern: string, s: string)
    ensures Accepts(pattern, s) <==> Matches(pattern, s)
  {
    if Accepts(pattern, s) {
      var pieces := AcceptedIsCut(pattern, s);
    }
    if Matches(pattern, s) {
      var pieces :| Cut(pattern, s, pieces);
      CutIsAccepted(pattern, s, pieces);
    }
  }

  predicate NoWildcard(p: string) {
    '*' !in p && '?' !in p && '[' !in p
  }

  predicate NoDoubleStar(p: string) {
    forall i | 0 <= i < |p| - 1 :: !(p[i] == '*' && p[i + 1] == '*')
  }

  /** Every pattern matches itself read as a path, so the shortcut for equal strings is harmless. */
  lemma {:induction false} MatchesItself(p: string)
    ensures Accepts(p, p)
  {
    if p != "" {
      MatchesItself(p[1..]);
      if p[0] == '*' { assert TakesStar(p, p, 1); }
    }
  }

  lemma {:induction false} LiteralMatchesOnlyItself(p: string, s: string)
    requires NoWildcard(p)
    ensures Accepts(p, s) <==> p == s
  {
    if p != "" && s != "" {
      LiteralMatchesOnlyItself(p[1..], s[1..]);
      assert p == [p[0]] + p[1..] && s == [s[0]] + s[1..];
    }
  }

  /** A star at the end of the pattern takes exactly a slash-free rest. */
  lemma FinalStar(s: string)
    ensures Accepts("*", s) <==> NoSlash(s)
  {
    assert "*"[1..] == "";
    if NoSlash(s) {
      assert s[..|s|] == s && s[|s|..] == "";
      assert TakesStar("*", s, |s|);
    }
    if Accepts("*", s) {
      var k :| 0 <= k <= |s| && TakesStar("*", s, k);
      assert s[..k] == s;
    }
  }

  /** The places a star before `rest` could end, none of which is right. */
  ghost predicate NotUpTo(rest: string, s: string, k: nat)
    requires k <= |s|
  {
    forall j | 0 <= j < k :: !Accepts(rest, s[j..])
  }

  lemma StarFails(pattern: string, s: string, k: nat)
    requires pattern != "" && pattern[0] == '*' && k <= |s|
    requires NotUpTo(pattern[1..], s, k)
    requires if k < |s| then s[k] == '/' && !Accepts(pattern[1..], s[k..]) else pattern[1..] != "" && pattern[1] != '*'
    ensures !Accepts(pattern, s)
  {
    forall j | 0 <= j <= |s| ensures !TakesStar(pattern, s, j) {
      if k < |s| {
        if j > k { assert s[..j][k] == '/'; }
      } else if j == |s| {
        assert s[j..] == "";
      }
    }
  }

  /** `simple_glob` after a star that is not the last: the rest of the pattern, tried ever further right. */
  method StarThen(pattern: string, pi: nat, path: string, start: nat) returns (matched: bool)
    requires '[' !in pattern && NoDoubleStar(pattern) && pi + 1 < |pattern| && pattern[pi] == '*' && start <= |path|
    ensures matched <==> Accepts(pattern[pi..], path[start..])
    decreases |pattern| - pi, 0
  {
    ghost var p, s := pattern[pi..], path[start..];
    assert p[1..] == pattern[pi + 1..] && p[1] != '*';
    var si := start;
    while si < |path|
      invariant start <= si <= |path| && NoSlash(s[..si - start]) && NotUpTo(p[1..], s, si - start)
    {
      assert path[si..] == s[si - start..];
      var here := SimpleGlob(pattern[pi + 1..], path[si..]);
      if here {
        assert TakesStar(p, s, si - start);
        return true;
      }
      if path[si] == '/' {
        break;
      }
      assert s[..si + 1 - start] == s[..si - start] + [path[si]];
      si := si + 1;
    }
    StarFails(p, s, si - start);
    return false;
  }

  lemma OneByte(pattern: string, pi: nat, path: string, si: nat)
    requires pi < |pattern| && pattern[pi] != '*' && si <= |path|
    ensures Accepts(pattern[pi..], path[si..]) <==>
      si < |path| && StandsFor(pattern[pi], [path[si]]) && Accepts(pattern[pi + 1..], path[si + 1..])
  {
    assert pattern[pi..][1..] == pattern[pi + 1..];
    if si < |path| {
      assert path[si..][..1] == [path[si]] && path[si..][1..] == path[si + 1..];
    }
  }

  /** `simple_glob`. */
  method SimpleGlob(pattern: string, path: string) returns (matched: bool)
    requires '[' !in pattern && NoDoubleStar(pattern)
    ensures matched <==> Accepts(pattern, path)
    decreases |pattern|, 1
  {
    if pattern == path {
      MatchesItself(pattern);
      return true;
    }
    if '*' !in pattern && '?' !in pattern && '[' !in pattern {
      LiteralMatchesOnlyItself(pattern, path);
      return pattern == path;
    }
    var pi, si := 0, 0;
    while pi < |pattern|
      invariant pi <= |pattern| && si <= |path|
      invariant Accepts(pattern, path) <==> Accepts(pattern[pi..], path[si..])
    {
      if pattern[pi] == '*' {
        if pi + 1 == |pattern| {
          assert pattern[pi..] == "*";
          FinalStar(path[si..]);
          return NoSlash(path[si..]);
        }
        matched := StarThen(pattern, pi, path, si);
        return;
      }
      OneByte(pattern, pi, path, si);
      if pattern[pi] == '?' {
        if si >= |path| || path[si] == '/' {
          return false;
        }
      } else if si >= |path| || path[si] != pattern[pi] {
        return false;
      }
      pi, si := pi + 1, si + 1;
    }
    return si == |path|;
  }
}

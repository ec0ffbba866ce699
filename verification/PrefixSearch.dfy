/** The search for a first segment: the prefixes a pattern matches, and when the search finds one. */
module PrefixSearch {
  import opened Records
  import opened Glob

  /** Some prefix of path[start..] matches. */
  ghost predicate SomePrefix(pattern: string, path: string, start: nat) {
    exists e | start <= e <= |path| :: Accepts(pattern, path[start..e])
  }

  /** A star directly before a slash. */
  predicate StarBeforeSlash(p: string) {
    exists i | 0 <= i < |p| - 1 :: p[i] == '*' && p[i + 1] == '/'
  }

  lemma StarsOfTail(p: string, i: nat)
    requires i < |p|
    ensures StarBeforeSlash(p[i..]) <==> (i + 1 < |p| && p[i] == '*' && p[i + 1] == '/') || StarBeforeSlash(p[i + 1..])
    ensures NoDoubleStar(p[i..]) ==> NoDoubleStar(p[i + 1..])
    ensures NoDoubleStar(p[i..]) && i + 1 < |p| && p[i] == '*' ==> p[i + 1] != '*'
  {
    var now, next := p[i..], p[i + 1..];
    forall k | 0 <= k < |next| ensures next[k] == now[k + 1] {}
    if StarBeforeSlash(now) {
      var k :| 0 <= k < |now| - 1 && now[k] == '*' && now[k + 1] == '/';
      if k > 0 { assert next[k - 1] == '*' && next[k] == '/'; }
    }
    if StarBeforeSlash(next) {
      var k :| 0 <= k < |next| - 1 && next[k] == '*' && next[k + 1] == '/';
      assert now[k + 1] == '*' && now[k + 2] == '/';
    }
    if i + 1 < |p| && p[i] == '*' { assert now[0] == '*' && now[1] == p[i + 1]; }
  }

  /** The first slash at or after lo, or the length. */
  function FirstSlash(path: string, lo: nat): (r: nat)
    requires lo <= |path|
    ensures lo <= r <= |path| && NoSlash(path[lo..r]) && (r < |path| ==> path[r] == '/')
    decreases |path| - lo
  {
    if lo == |path| || path[lo] == '/' then lo
    else
      assert path[lo..FirstSlash(path, lo + 1)] == [path[lo]] + path[lo + 1..FirstSlash(path, lo + 1)];
      FirstSlash(path, lo + 1)
  }

  /** A star before the rest takes path[start..si]. */
  lemma StarTakes(pattern: string, pi: nat, path: string, start: nat, si: nat, e: nat)
    requires pi < |pattern| && pattern[pi] == '*' && start <= si <= e <= |path|
    requires NoSlash(path[start..si]) && Accepts(pattern[pi + 1..], path[si..e])
    ensures Accepts(pattern[pi..], path[start..e])
  {
    var p, s := pattern[pi..], path[start..e];
    assert p[1..] == pattern[pi + 1..] && s[..si - start] == path[start..si] && s[si - start..] == path[si..e];
    assert TakesStar(p, s, si - start);
  }

  /** If a star matches a prefix, then the rest does from somewhere before the next slash. */
  lemma StarTook(pattern: string, pi: nat, path: string, start: nat) returns (si: nat)
    requires pi + 1 < |pattern| && pattern[pi] == '*' && pattern[pi + 1] !in {'*', '/'} && start <= |path|
    requires SomePrefix(pattern[pi..], path, start)
    ensures start <= si < |path| && SomePrefix(pattern[pi + 1..], path, si)
    ensures forall j | start <= j <= si :: path[j] != '/'
  {
    var e :| start <= e <= |path| && Accepts(pattern[pi..], path[start..e]);
    var p, s := pattern[pi..], path[start..e];
    assert Accepts(p, s) && p[0] == '*' && p[1..] == pattern[pi + 1..] && p[1..][0] == pattern[pi + 1];
    var k :| 0 <= k <= |s| && TakesStar(p, s, k);
    si := start + k;
    assert s[k..] == path[si..e] && s[..k] == path[start..si];
    OneMoreByte(pattern, pi + 1, path, si, e);
    forall j | start <= j < si ensures path[j] != '/' { assert s[..k][j - start] == path[j]; }
  }

  /** One byte of the pattern against one of the path. */
  lemma OneMoreByte(pattern: string, pi: nat, path: string, si: nat, e: nat)
    requires pi < |pattern| && pattern[pi] != '*' && si <= e <= |path|
    ensures Accepts(pattern[pi..], path[si..e]) <==>
      si < e && StandsFor(pattern[pi], [path[si]]) && Accepts(pattern[pi + 1..], path[si + 1..e])
  {
    assert pattern[pi..][1..] == pattern[pi + 1..];
    if si < e {
      assert path[si..e][..1] == [path[si]] && path[si..e][1..] == path[si + 1..e];
    }
  }

  // ---- what the search finds

  /** The end of the prefix found: every star takes as little as lets the rest be found, a star at the end
      everything up to the next slash, and no star may end directly before a slash or at the end of the path. */
  function FirstEnd(p: string, path: string, start: nat): (r: Option<nat>)
    requires start <= |path|
    ensures r.Some? ==> start <= r.value <= |path|
    decreases |p|, 0
  {
    if p == "" then Some(start)
    else if p == "*" then Some(FirstSlash(path, start))
    else if p[0] == '*' then FirstAfterStar(p[1..], path, start)
    else if start == |path| || !StandsFor(p[0], [path[start]]) then None
    else FirstEnd(p[1..], path, start + 1)
  }

  function FirstAfterStar(p: string, path: string, start: nat): (r: Option<nat>)
    requires start <= |path|
    ensures r.Some? ==> start <= r.value <= |path|
    decreases |p|, 1 + |path| - start
  {
    if start == |path| || path[start] == '/' then None
    else if FirstEnd(p, path, start).Some? then FirstEnd(p, path, start)
    else FirstAfterStar(p, path, start + 1)
  }

  /** Where the star stopped. */
  lemma {:induction false} StarStopped(p: string, path: string, start: nat) returns (si: nat)
    requires start <= |path| && FirstAfterStar(p, path, start).Some?
    ensures start <= si < |path| && FirstEnd(p, path, si) == FirstAfterStar(p, path, start)
    ensures forall j | start <= j <= si :: path[j] != '/'
    ensures forall j | start <= j < si :: FirstEnd(p, path, j).None?
    decreases |path| - start
  {
    si := start;
    if FirstEnd(p, path, start).None? { si := StarStopped(p, path, start + 1); }
  }

  lemma {:induction false} StarFindsNone(p: string, path: string, start: nat, si: nat)
    requires start <= si < |path| && FirstAfterStar(p, path, start).None? && forall j | start <= j <= si :: path[j] != '/'
    ensures FirstEnd(p, path, si).None?
    decreases si - start
  {
    if start < si { StarFindsNone(p, path, start + 1, si); }
  }

  /** What is found does match. */
  lemma {:induction false} FoundIsAccepted(p: string, path: string, start: nat)
    requires start <= |path| && FirstEnd(p, path, start).Some?
    ensures Accepts(p, path[start..FirstEnd(p, path, start).value])
    decreases |p|
  {
    var e := FirstEnd(p, path, start).value;
    if p == "*" {
      FinalStar(path[start..e]);
    } else if p != "" && p[0] == '*' {
      var si := StarStopped(p[1..], path, start);
      FoundIsAccepted(p[1..], path, si);
      StarTakes(p, 0, path, start, si, e);
      assert p[0..] == p;
    } else if p != "" {
      FoundIsAccepted(p[1..], path, start + 1);
      OneMoreByte(p, 0, path, start, e);
      assert p[0..] == p;
    }
  }

  /** With a star directly before a slash nothing is found. */
  lemma {:induction false} StarredSlashFindsNone(p: string, path: string, start: nat)
    requires start <= |path| && StarBeforeSlash(p)
    ensures FirstEnd(p, path, start).None?
    decreases |p|
  {
    StarsOfTail(p, 0);
    assert p[0..] == p;
    if p[0] == '*' && FirstEnd(p, path, start).Some? {
      var si := StarStopped(p[1..], path, start);
      if StarBeforeSlash(p[1..]) { StarredSlashFindsNone(p[1..], path, si); }
    } else if p[0] != '*' && start < |path| {
      StarredSlashFindsNone(p[1..], path, start + 1);
    }
  }

  /** Without one, something is found whenever a prefix matches. */
  lemma {:induction false} PrefixIsFound(p: string, path: string, start: nat)
    requires start <= |path| && NoDoubleStar(p) && !StarBeforeSlash(p) && SomePrefix(p, path, start)
    ensures FirstEnd(p, path, start).Some?
    decreases |p|
  {
    if p != "" {
      StarsOfTail(p, 0);
      assert p[0..] == p;
    }
    if p != "" && p != "*" && p[0] == '*' {
      assert p[1] !in {'*', '/'} by { assert p[1] == p[0..][1]; }
      var si := StarTook(p, 0, path, start);
      PrefixIsFound(p[1..], path, si);
      if FirstAfterStar(p[1..], path, start).None? { StarFindsNone(p[1..], path, start, si); }
    } else if p != "" && p != "*" {
      var e :| start <= e <= |path| && Accepts(p, path[start..e]);
      OneMoreByte(p, 0, path, start, e);
      PrefixIsFound(p[1..], path, start + 1);
    }
  }

  /** Nothing shorter matches, even when it starts further right in the same component. */
  lemma {:induction false} FoundIsLeast(p: string, path: string, start: nat, from: nat, e: nat)
    requires start <= from <= e <= |path| && NoSlash(path[start..from])
    requires NoDoubleStar(p) && (p != "" ==> p[|p| - 1] != '*')
    requires FirstEnd(p, path, start).Some? && Accepts(p, path[from..e])
    ensures FirstEnd(p, path, start).value <= e
    decreases |p|
  {
    if p != "" {
      StarsOfTail(p, 0);
      assert p[0..] == p && (|p| > 1 ==> p[1..][|p| - 2] == p[|p| - 1]);
      if p[0] == '*' {
        StarLeast(p, path, start, from, e);
      } else {
        OneMoreByte(p, 0, path, from, e);
        if start < from { assert path[start..from][0] == path[start] != '/'; }
        forall j | start + 1 <= j < from + 1 ensures path[j] != '/' {
          if j < from { assert path[start..from][j - start] == path[j]; }
        }
        FoundIsLeast(p[1..], path, start + 1, from + 1, e);
      }
    }
  }

  lemma {:induction false} StarLeast(p: string, path: string, start: nat, from: nat, e: nat)
    requires start <= from <= e <= |path| && NoSlash(path[start..from])
    requires |p| > 1 && p[0] == '*' && NoDoubleStar(p[1..]) && p[1..][|p| - 2] != '*'
    requires FirstEnd(p, path, start).Some? && Accepts(p, path[from..e])
    ensures FirstEnd(p, path, start).value <= e
    decreases |p|, 0
  {
    var si := StarStopped(p[1..], path, start);
    var s := path[from..e];
    var k :| 0 <= k <= |s| && TakesStar(p, s, k);
    var to := from + k;
    assert s[k..] == path[to..e] && s[..k] == path[from..to];
    forall j | start <= j < to ensures path[j] != '/' {
      if j < from { assert path[start..from][j - start] == path[j]; } else { assert s[..k][j - from] == path[j]; }
    }
    if to < si {
      FirstEndMeans(p[1..], path, to);
      FirstEndMeans(p[1..], path, si);
      assert false;
    }
    FoundIsLeast(p[1..], path, si, to, e);
  }

  /** `first_match_len`. */
  method FirstMatchLen(pattern: string, path: string, start: nat) returns (len: Option<nat>)
    requires '[' !in pattern && start <= |path|
    ensures len == FirstEnd(pattern, path, start)
    ensures len.Some? ==> start <= len.value <= |path| && Accepts(pattern, path[start..len.value])
    ensures StarBeforeSlash(pattern) ==> len.None?
    ensures NoDoubleStar(pattern) && !StarBeforeSlash(pattern) ==> (len.Some? <==> SomePrefix(pattern, path, start))
    decreases |pattern|, 1
  {
    FirstEndMeans(pattern, path, start);
    var pi, si := 0, start;
    while pi < |pattern|
      invariant pi <= |pattern| && start <= si <= |path|
      invariant FirstEnd(pattern, path, start) == FirstEnd(pattern[pi..], path, si)
    {
      assert pattern[pi..][1..] == pattern[pi + 1..];
      if pattern[pi] == '*' {
        if pi + 1 == |pattern| {
          assert pattern[pi..] == "*";
          return Some(FirstSlash(path, si));
        }
        assert pattern[pi..] != "*";
        len := FirstStarThen(pattern, pi, path, si);
        return;
      }
      if pattern[pi] == '?' {
        if si >= |path| || path[si] == '/' {
          return None;
        }
      } else if si >= |path| || path[si] != pattern[pi] {
        return None;
      }
      pi, si := pi + 1, si + 1;
    }
    assert pattern[pi..] == "";
    return Some(si);
  }

  lemma FirstEndMeans(p: string, path: string, start: nat)
    requires start <= |path|
    ensures var len := FirstEnd(p, path, start);
      && (len.Some? ==> Accepts(p, path[start..len.value]))
      && (StarBeforeSlash(p) ==> len.None?)
      && (NoDoubleStar(p) && !StarBeforeSlash(p) ==> (len.Some? <==> SomePrefix(p, path, start)))
  {
    if FirstEnd(p, path, start).Some? { FoundIsAccepted(p, path, start); }
    if StarBeforeSlash(p) { StarredSlashFindsNone(p, path, start); }
    if NoDoubleStar(p) && !StarBeforeSlash(p) && SomePrefix(p, path, start) { PrefixIsFound(p, path, start); }
  }

  /** `first_match_len` after a star: the rest, tried at every byte before the next slash. */
  method FirstStarThen(pattern: string, pi: nat, path: string, start: nat) returns (len: Option<nat>)
    requires '[' !in pattern && start <= |path| && pi + 1 < |pattern| && pattern[pi] == '*'
    ensures len == FirstAfterStar(pattern[pi + 1..], path, start)
    decreases |pattern| - pi, 0
  {
    var si := start;
    while si < |path| && path[si] != '/'
      invariant start <= si <= |path|
      invariant FirstAfterStar(pattern[pi + 1..], path, start) == FirstAfterStar(pattern[pi + 1..], path, si)
    {
      len := FirstMatchLen(pattern[pi + 1..], path, si);
      if len.Some? {
        return;
      }
      si := si + 1;
    }
    return None;
  }

  // ---- the shortest text of a pattern

  /** Every star left empty, every question mark for itself. */
  function Least(p: string): string {
    if p == "" then "" else if p[0] == '*' then Least(p[1..]) else [p[0]] + Least(p[1..])
  }

  /** At the front of a path it is what the search finds. */
  lemma {:induction false} LeastIsFound(p: string, path: string, start: nat)
    requires NoDoubleStar(p) && !StarBeforeSlash(p) && (p != "" ==> p[|p| - 1] != '*')
    requires start <= |path| && Least(p) <= path[start..]
    ensures FirstEnd(p, path, start) == Some(start + |Least(p)|)
    decreases |p|
  {
    if p != "" {
      StarsOfTail(p, 0);
      assert p[0..] == p && (|p| > 1 ==> p[1..][|p| - 2] == p[|p| - 1]);
      if p[0] == '*' {
        assert p[1] !in {'*', '/'};
        assert Least(p)[0] == p[1] && path[start..][0] == path[start];
        LeastIsFound(p[1..], path, start);
      } else {
        assert path[start..][0] == path[start] && path[start..][1..] == path[start + 1..] && Least(p)[1..] == Least(p[1..]);
        LeastIsFound(p[1..], path, start + 1);
      }
    }
  }

  // ---- a pattern that ends in a slash matches one prefix at most

  function Slashes(s: string): (n: nat)
    ensures n == 0 <==> NoSlash(s)
  {
    if s == "" then 0 else (if s[0] == '/' then 1 else 0) + Slashes(s[1..])
  }

  lemma {:induction false} SlashesAdd(a: string, b: string)
    ensures Slashes(a + b) == Slashes(a) + Slashes(b)
  {
    if a == "" {
      assert a + b == b;
    } else {
      assert (a + b)[0] == a[0] && (a + b)[1..] == a[1..] + b;
      SlashesAdd(a[1..], b);
    }
  }

  /** Wildcards take no slash. */
  lemma {:induction false} SlashesAgree(p: string, s: string)
    requires Accepts(p, s)
    ensures Slashes(s) == Slashes(p)
    ensures p != "" && p[|p| - 1] == '/' ==> s != "" && s[|s| - 1] == '/'
  {
    if p != "" {
      var k := 1;
      if p[0] == '*' {
        k :| 0 <= k <= |s| && TakesStar(p, s, k);
      }
      SlashesAgree(p[1..], s[k..]);
      assert s == s[..k] + s[k..];
      SlashesAdd(s[..k], s[k..]);
      if |p| > 1 { assert p[1..][|p| - 2] == p[|p| - 1]; }
    }
  }

  lemma OnePrefix(p: string, path: string, start: nat, e: nat, e': nat)
    requires p != "" && p[|p| - 1] == '/' && start <= e <= e' <= |path|
    requires Accepts(p, path[start..e]) && Accepts(p, path[start..e'])
    ensures e == e'
  {
    assert path[start..e'] == path[start..e] + path[e..e'];
    NothingAfter(p, path[start..e], path[e..e']);
  }

  lemma NothingAfter(p: string, a: string, b: string)
    requires p != "" && p[|p| - 1] == '/' && Accepts(p, a) && Accepts(p, a + b)
    ensures b == ""
  {
    SlashesAgree(p, a);
    SlashesAgree(p, a + b);
    SlashesAdd(a, b);
    if b != "" {
      SlashAtEnd(b);
    }
  }

  lemma SlashAtEnd(b: string)
    requires b != "" && b[|b| - 1] == '/'
    ensures Slashes(b) > 0
  {
    assert '/' in b;
  }
}

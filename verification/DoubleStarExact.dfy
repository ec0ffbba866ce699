/** A path for every pattern that breaks the promise of "**", and so the exact condition. */
module DoubleStarExact {
  import opened Records
  import opened Glob
  import opened PrefixSearch
  import opened DoubleStar
  import opened DoubleStarMeaning

  // ---- whole components, and a star before a slash

  /** The texts of the segments one after another, and something at the end if the end is open. */
  function Tail(parts: seq<string>, i: nat): string
    requires i < |parts|
    decreases |parts| - i
  {
    var segment := Segment(parts, i);
    if i < |parts| - 1 then segment + Tail(parts, i + 1) else if segment == "" then "x" else segment
  }

  /** The pattern's own text. */
  function WholeText(parts: seq<string>): string
    requires |parts| >= 2
  {
    parts[0] + Tail(parts, 1)
  }

  lemma LastTextMeans(parts: seq<string>, path: string, a: nat)
    requires |parts| >= 2 && a <= |path| && Boundary(path, a)
    requires Segment(parts, |parts| - 1) != "" ==> Segment(parts, |parts| - 1) == path[a..]
    ensures RestMeans(parts, |parts| - 1, path, a)
  {
    LastMeans(parts, path, a);
    MatchesItself(Segment(parts, |parts| - 1));
    if Segment(parts, |parts| - 1) != "" { assert EndsAt(Segment(parts, |parts| - 1), path, a); }
  }

  lemma PieceOfText(parts: seq<string>, i: nat, path: string, a: nat)
    requires 0 < i < |parts| - 1 && EndsInSlash(parts[i]) && parts[i][0] == '/' && Boundary(path, a)
    requires a + |Segment(parts, i)| <= |path| && path[a..a + |Segment(parts, i)|] == Segment(parts, i)
    ensures Boundary(path, a + |Segment(parts, i)|)
    ensures RestMeans(parts, i + 1, path, a + |Segment(parts, i)|) ==> RestMeans(parts, i, path, a)
  {
    var segment := Segment(parts, i);
    var e := a + |segment|;
    MatchesItself(segment);
    if segment != "" { assert path[a..e][|segment| - 1] == path[e - 1] && segment[|segment| - 1] == '/'; }
    if RestMeans(parts, i + 1, path, e) { assert PieceMeans(parts, i, path, a, e); }
  }

  lemma LastTailMeans(parts: seq<string>, before: string)
    requires |parts| >= 2 && AtStart(before)
    ensures RestMeans(parts, |parts| - 1, before + Tail(parts, |parts| - 1), |before|)
  {
    var tail := Tail(parts, |parts| - 1);
    assert (before + tail)[|before|..] == tail;
    LastTextMeans(parts, before + tail, |before|);
  }

  lemma TailGoesOn(parts: seq<string>, i: nat, before: string)
    requires 0 < i < |parts| - 1 && AtStart(before) && EndsInSlash(parts[i]) && parts[i][0] == '/'
    ensures var now := before + Segment(parts, i);
      && AtStart(now)
      && (RestMeans(parts, i + 1, now + Tail(parts, i + 1), |now|) ==> RestMeans(parts, i, before + Tail(parts, i), |before|))
  {
    var segment, more := Segment(parts, i), Tail(parts, i + 1);
    Regroup(before, segment, more);
    if segment != "" { LastOfBoth(before, segment); }
    PieceOfText(parts, i, before + (segment + more), |before|);
  }

  predicate MiddlesWhole(parts: seq<string>, i: nat)
    decreases |parts| - i
  {
    i + 1 < |parts| ==> EndsInSlash(parts[i]) && parts[i][0] == '/' && MiddlesWhole(parts, i + 1)
  }

  lemma {:induction false} WholeMiddles(parts: seq<string>, i: nat)
    requires Whole(parts) && 0 < i
    ensures MiddlesWhole(parts, i)
    decreases |parts| - i
  {
    if i + 1 < |parts| { WholeMiddles(parts, i + 1); }
  }

  lemma {:induction false} TailMeans(parts: seq<string>, i: nat, before: string)
    requires 0 < i < |parts| && AtStart(before) && MiddlesWhole(parts, i)
    ensures RestMeans(parts, i, before + Tail(parts, i), |before|)
    decreases |parts| - i
  {
    if i == |parts| - 1 {
      LastTailMeans(parts, before);
    } else {
      TailGoesOn(parts, i, before);
      TailMeans(parts, i + 1, before + Segment(parts, i));
    }
  }

  lemma Regroup(a: string, b: string, c: string)
    ensures var s := a + (b + c); s == (a + b) + c && |a| + |b| <= |s| && s[|a|..|a| + |b|] == b
    ensures b == "" ==> a + b == a
  {}

  lemma {:induction false} TailEnds(parts: seq<string>, i: nat)
    requires i < |parts|
    ensures Tail(parts, i) != "" && (EndsInSlash(Tail(parts, i)) ==> EndsInSlash(Segment(parts, |parts| - 1)))
    decreases |parts| - i
  {
    if i < |parts| - 1 {
      TailEnds(parts, i + 1);
      LastOfBoth(Segment(parts, i), Tail(parts, i + 1));
    }
  }

  lemma LastOfBoth(s: string, t: string)
    requires t != ""
    ensures s + t != "" && (EndsInSlash(s + t) <==> EndsInSlash(t))
  {}

  lemma WholeTextMeans(parts: seq<string>)
    requires Whole(parts)
    ensures PartsMean(parts, WholeText(parts))
    ensures EndsInSlash(WholeText(parts)) ==> EndsInSlash(Segment(parts, |parts| - 1))
  {
    var first, path := parts[0], WholeText(parts);
    MatchesItself(first);
    assert path[..|first|] == first;
    TailEnds(parts, 1);
    LastOfBoth(first, Tail(parts, 1));
    WholeMiddles(parts, 1);
    TailMeans(parts, 1, first);
  }

  /** Once the search stands at the end of the path no last segment that ends in a slash is found. */
  lemma {:induction false} NothingAtTheEnd(segments: seq<string>, i: nat, path: string)
    requires 0 < i < |segments| && EndsInSlash(segments[|segments| - 1])
    requires forall j | i <= j < |segments| - 1 :: segments[j] == "" || EndsInSlash(segments[j])
    ensures !SegmentsFound(segments, i, path, |path|)
    decreases |segments| - i
  {
    if i == |segments| - 1 {
      assert path[|path|..] == "";
      if EndsAt(segments[i], path, |path|) { SlashesAgree(segments[i], ""); }
    } else {
      MiddleMeans(segments[i], path, |path|);
      NothingAtTheEnd(segments, i + 1, path);
    }
  }

  /** A middle segment leaves the search at the end of the path, where a last segment that ends in a slash
      finds nothing. */
  lemma {:induction false} MiddleIsTheEnd(segments: seq<string>, i: nat, path: string, start: nat, m: nat)
    requires 0 < i <= m < |segments| - 1 && start <= |path| && segments[m] != ""
    requires EndsInSlash(segments[|segments| - 1])
    requires forall j | i <= j < |segments| - 1 :: segments[j] == "" || EndsInSlash(segments[j])
    ensures !SegmentsFound(segments, i, path, start)
    decreases m - i
  {
    if segments[i] == "" {
      MiddleIsTheEnd(segments, i + 1, path, start, m);
    } else {
      MiddleMeans(segments[i], path, start);
      NothingAtTheEnd(segments, i + 1, path);
    }
  }

  lemma MiddlesEndInSlash(parts: seq<string>, m: nat)
    requires Whole(parts) && 0 < m < |parts| - 1
    ensures Segment(parts, m) == "" || EndsInSlash(Segment(parts, m))
    ensures parts[m] != "/" ==> '/' in Segment(parts, m)
  {
    var segment := Segment(parts, m);
    assert segment == parts[m][1..];
    if segment != "" { assert segment[|segment| - 1] == parts[m][|parts[m]| - 1]; }
  }

  lemma NotBefore(segments: seq<string>, m: nat, path: string)
    requires 0 < m < |segments| - 1 && EndsInSlash(segments[m]) && !EndsInSlash(path)
    ensures !SegmentsFound(segments, 0, path, 0)
  {
    if SegmentsFound(segments, 0, path, 0) { Refusals(segments, 0, path, 0); }
  }

  lemma NotAtTheEnd(parts: seq<string>, m: nat, path: string, start: nat)
    requires Whole(parts) && 0 < m < |parts| - 1 && parts[m] != "/" && EndsInSlash(Segment(parts, |parts| - 1)) && start <= |path|
    ensures !SegmentsFound(Segments(parts), 1, path, start)
  {
    forall j | 0 < j < |parts| - 1 ensures Segment(parts, j) == "" || EndsInSlash(Segment(parts, j)) { MiddlesEndInSlash(parts, j); }
    MiddlesEndInSlash(parts, m);
    MiddleIsTheEnd(Segments(parts), 1, path, start, m);
  }

  lemma WholeRefused(parts: seq<string>, m: nat, path: string)
    requires Parts(parts) && Whole(parts) && 0 < m < |parts| - 1 && parts[m] != "/"
    requires EndsInSlash(path) ==> EndsInSlash(Segment(parts, |parts| - 1))
    ensures !SegmentsFound(Segments(parts), 0, path, 0)
  {
    if !EndsInSlash(path) {
      MiddlesEndInSlash(parts, m);
      NotBefore(Segments(parts), m, path);
    } else if parts[0] == "" {
      NotAtTheEnd(parts, m, path, 0);
    } else if FirstEnd(parts[0], path, 0).Some? {
      NotAtTheEnd(parts, m, path, FirstEnd(parts[0], path, 0).value);
    }
  }

  /** Whole components with something between two of them: the pattern's own text is refused. */
  lemma WholeBroken(parts: seq<string>, m: nat)
    requires Parts(parts) && Whole(parts) && 0 < m < |parts| - 1 && parts[m] != "/"
    ensures PartsMean(parts, WholeText(parts)) && !SegmentsFound(Segments(parts), 0, WholeText(parts), 0)
    ensures '/' in WholeText(parts)
  {
    WholeTextMeans(parts);
    WholeRefused(parts, m, WholeText(parts));
    MiddlesEndInSlash(parts, m);
    TextHas(parts, 1, m);
  }

  lemma {:induction false} TextHas(parts: seq<string>, i: nat, m: nat)
    requires 0 < i <= m < |parts| && '/' in Segment(parts, m)
    ensures '/' in Tail(parts, i)
    decreases m - i
  {
    if i < m { TextHas(parts, i + 1, m); }
  }

  // ---- one "**"

  /** Before a last part that begins no component and cannot be continued to the left: a byte too many. */
  lemma {:induction false} Unstretched(p: string) returns (z: char, t: string)
    requires NoDoubleStar(p) && !Stretches(p) && (p != "" ==> p[0] != '*')
    ensures z != '/' && Accepts(p, t) && !Accepts(p, [z] + t) && (p != "" ==> t != "")
    decreases |p|
  {
    if p == "" {
      z, t := 'x', "";
      assert [z] + t != "";
    } else if p[0] == '?' {
      var t' := "";
      z, t' := Unstretched(p[1..]);
      t := [z] + t';
      assert t[..1] == [z] && t[1..] == t' && ([z] + t)[1..] == t;
    } else {
      z, t := if p[0] == 'x' then 'y' else 'x', p;
      MatchesItself(p);
      assert ([z] + t)[..1] == [z];
    }
  }

  lemma {:induction false} LeastIsPlain(p: string)
    requires p != "" && p[|p| - 1] != '*'
    ensures Least(p) != ""
  {
    if p[0] == '*' {
      assert p[1..][|p| - 2] == p[|p| - 1];
      LeastIsPlain(p[1..]);
    }
  }

  /** What the search does with a path that begins with the first part's shortest text. */
  lemma AfterLeast(parts: seq<string>, more: string)
    requires Parts(parts) && Single(parts) && !StarBeforeSlash(parts[0])
    ensures var first, last := parts[0], Segment(parts, 1);
      var path, e := Least(first) + more, |Least(first)|;
      && path[..e] == Least(first) && path[e..] == more && Accepts(first, path[..e]) && Slashes(path[..e]) == Slashes(first)
      && Fallback(path, e) == e
      && (SegmentsFound(Segments(parts), 0, path, 0) <==> last == "" || LastFinds(last, path, e))
  {
    var first := parts[0];
    var p := Least(first);
    var path, e := p + more, |p|;
    assert path[0..] == path && path[..e] == p && path[0..e] == p && path[e..] == more;
    LeastIsFound(first, path, 0);
    FoundIsAccepted(first, path, 0);
    SlashesAgree(first, path[..e]);
    FallbackStays(path, e);
    var segments := Segments(parts);
    EmptyMiddles(segments, 1, path, e);
    assert SegmentsFound(segments, 0, path, 0) <==> SegmentsFound(segments, 1, path, e);
  }

  /** A text of a pattern, read from behind one of its slashes, is no text of that pattern. */
  lemma NotFromWithin(p: string, path: string, a: nat, b: nat)
    requires a < b <= |path| && path[b - 1] == '/' && Slashes(path[a..]) == Slashes(p)
    ensures !EndsAt(p, path, b)
  {
    var t, u := path[a..b], path[b..];
    assert path[a..] == t + u && t[b - 1 - a] == '/';
    SlashesAdd(t, u);
    if Accepts(p, u) { SlashesAgree(p, u); }
  }

  /** After a first part and one byte more the last part's own text: meant, but not found. */
  lemma BeyondReach(parts: seq<string>) returns (path: string)
    requires Parts(parts) && Single(parts) && !StarBeforeSlash(parts[0])
    requires parts[1] != "" && parts[1][0] != '/' && !Stretches(parts[1])
    ensures PartsMean(parts, path) && !SegmentsFound(Segments(parts), 0, path, 0) && |path| > 1
    ensures NoSlash(parts[0]) && NoSlash(parts[1]) ==> NoSlash(path)
  {
    var first, last := parts[0], parts[1];
    var z, t := Unstretched(last);
    var more, e := [z] + t, |Least(first)|;
    path := Least(first) + more;
    AfterLeast(parts, more);
    SlashesAgree(last, t);
    assert more[1..] == t && Slashes(more) == Slashes(t);
    assert path[e + 1..] == t;
    OneFurther(parts, path, e);
    OutOfReach(last, path, e);
    SlashesAdd(path[..e], more);
  }

  lemma OutOfReach(last: string, path: string, e: nat)
    requires e <= |path| && Fallback(path, e) == e && !Accepts(last, path[e..]) && Slashes(path[e..]) == Slashes(last)
    ensures !LastFinds(last, path, e)
  {
    forall b | e < b <= |path| && Boundary(path, b) ensures !EndsAt(last, path, b) {
      NotFromWithin(last, path, e, b);
    }
  }

  lemma OneFurther(parts: seq<string>, path: string, e: nat)
    requires |parts| == 2 && parts[1] != "" && parts[1][0] != '/'
    requires e < |path| && Accepts(parts[0], path[..e]) && Accepts(parts[1], path[e + 1..])
    ensures PartsMean(parts, path)
  {
    assert EndsAt(parts[1], path, e + 1);
    LastMeans(parts, path, e);
  }

  lemma FallbackStays(path: string, e: nat)
    requires e <= |path| && (Boundary(path, e) || NoSlash(path[..e]))
    ensures Fallback(path, e) == e
  {
    if !Boundary(path, e) {
      forall j | 0 <= j < e ensures path[j] != '/' { assert path[..e][j] == path[j]; }
    }
  }

  /** A first part that ends within a component, a slash behind the "**": the two texts without anything between
      are found, although the last part should begin a component. */
  lemma TooClose(parts: seq<string>) returns (path: string)
    requires Parts(parts) && |parts| == 2 && parts[0] != "" && NoSlash(parts[0]) && |parts[1]| > 1 && parts[1][0] == '/'
    ensures !PartsMean(parts, path) && SegmentsFound(Segments(parts), 0, path, 0) && |path| > 1
  {
    var first, last := parts[0], Segment(parts, 1);
    var e := |Least(first)|;
    path := Least(first) + last;
    LeastIsPlain(first);
    MatchesItself(last);
    AfterLeast(parts, last);
    assert EndsAt(last, path, e);
    forall a | 0 <= a <= |path| && Accepts(first, path[..a]) ensures !RestMeans(parts, 1, path, a) {
      LastMeans(parts, path, a);
      NeedsText(first, path[..a]);
      forall b | a <= b <= |path| && Boundary(path, b) ensures !EndsAt(last, path, b) {
        SlashBehind(path, e, b);
        NotFromWithin(last, path, e, b);
      }
    }
  }

  lemma SlashBehind(path: string, e: nat, b: nat)
    requires e <= |path| && NoSlash(path[..e]) && 0 < b && Boundary(path, b)
    ensures e < b
  {
    assert forall j | 0 <= j < e :: path[..e][j] == path[j];
  }

  lemma {:induction false} NeedsText(p: string, s: string)
    requires p != "" && p[|p| - 1] != '*' && Accepts(p, s)
    ensures s != ""
    decreases |p|
  {
    if p[0] == '*' {
      assert p[1..][|p| - 2] == p[|p| - 1];
      var k :| 0 <= k <= |s| && TakesStar(p, s, k);
      NeedsText(p[1..], s[k..]);
    }
  }

  /** A first part with a star directly before a slash: nothing is found. */
  lemma SingleStarred(parts: seq<string>)
    requires Parts(parts) && Single(parts) && StarBeforeSlash(parts[0])
    ensures var path := parts[0] + Segment(parts, 1);
      PartsMean(parts, path) && !SegmentsFound(Segments(parts), 0, path, 0) && '/' in path
  {
    var first, last := parts[0], Segment(parts, 1);
    var path := first + last;
    assert '/' in first && EndsInSlash(first);
    MatchesItself(first);
    MatchesItself(last);
    assert path[..|first|] == first && path[|first|..] == last;
    LastMeans(parts, path, |first|);
    assert EndsAt(last, path, |first|) && Boundary(path, |first|);
    if SegmentsFound(Segments(parts), 0, path, 0) { Refusals(Segments(parts), 0, path, 0); }
  }

  // ---- the exact condition

  /** A path on which a pattern that breaks the promise does so. */
  lemma Broken(pattern: string) returns (path: string)
    requires Decided(pattern) && !Keeps(pattern)
    ensures Means(pattern, path) != Finds(pattern, path) && path != "." && ('/' !in pattern ==> '/' !in path)
  {
    CutsAreParts(pattern);
    var parts := SplitStars(pattern);
    if StarBeforeSlash(parts[0]) {
      if Whole(parts) {
        path := WholeText(parts);
        WholeTextMeans(parts);
        if SegmentsFound(Segments(parts), 0, path, 0) { Refusals(Segments(parts), 0, path, 0); }
      } else {
        path := parts[0] + Segment(parts, 1);
        SingleStarred(parts);
      }
    } else if m :| 0 < m < |parts| - 1 && parts[m] != "/" {
      path := WholeText(parts);
      WholeBroken(parts, m);
    } else if parts[|parts| - 1][0] == '/' {
      path := TooClose(parts);
    } else {
      path := BeyondReach(parts);
    }
  }

  /** A pattern selects exactly what it means if and only if it is one of those that keep the promise. */
  lemma KeptExactly(pattern: string)
    requires Decided(pattern)
    ensures (forall path :: Means(pattern, path) <==> Finds(pattern, path)) <==> Keeps(pattern)
  {
    if Keeps(pattern) {
      forall path ensures Means(pattern, path) <==> Finds(pattern, path) { KeptOn(pattern, path); }
    } else {
      var path := Broken(pattern);
    }
  }

  lemma KeptOn(pattern: string, path: string)
    requires Decided(pattern) && Keeps(pattern)
    ensures Means(pattern, path) <==> Finds(pattern, path)
  {
    if !NoDoubleStar(pattern) {
      CutsAreParts(pattern);
      if Single(SplitStars(pattern)) { SingleKeeps(SplitStars(pattern), path); } else { WholeKeeps(SplitStars(pattern), path); }
    }
  }

  // ---- for instance

  lemma CutAt(before: string, rest: string)
    requires NoDoubleStar(before) && (before != "" ==> before[|before| - 1] != '*')
    ensures var p := before + "**" + rest; !NoDoubleStar(p) && SplitStars(p) == [before] + SplitStars(rest)
  {
    var p := before + "**" + rest;
    assert StarsAt(p, |before|);
    NoneAnywhere(p);
    NoneAnywhere(before);
    forall j | 0 <= j < |before| ensures !StarsAt(p, j) { assert !StarsAt(before, j); }
    assert FindStars(p, 0) == |before| && p[..|before|] == before && p[|before| + 2..] == rest;
  }

  lemma PartsOf(before: string, after: string)
    requires NoDoubleStar(before) && NoDoubleStar(after) && (before != "" ==> before[|before| - 1] != '*')
    ensures var p := before + "**" + after; !NoDoubleStar(p) && SplitStars(p) == [before, after]
  {
    CutAt(before, after);
    NoneAnywhere(after);
  }

  lemma StarSlashForInstance()
    ensures Means("*/**/x", "a/b/x") && !Finds("*/**/x", "a/b/x")
  {
    StarThenSlash("a");
    assert "*/"[0] == '*' && "*/"[1] == '/' && "a" + "/" == "a/";
    StarSlashRefuses("*/", "a/", "b/", "x");
    assert "*/" + "**" + ("/" + "x") == "*/**/x" && "a/" + ("b/" + "x") == "a/b/x";
  }

  lemma StarThenSlash(s: string)
    requires NoSlash(s)
    ensures Accepts("*/", s + "/")
  {
    MatchesItself("/");
    assert "*/"[1..] == "/" && (s + "/")[|s|..] == "/" && (s + "/")[..|s|] == s;
    assert TakesStar("*/", s + "/", |s|);
  }

  /** A star directly before a slash: nothing is found, whatever text of the first part and directories the
      last part follows. */
  lemma StarSlashRefuses(first: string, text: string, directories: string, last: string)
    requires NoDoubleStar(first) && NoDoubleStar("/" + last) && StarBeforeSlash(first) && EndsInSlash(first)
    requires Accepts(first, text) && EndsInSlash(directories)
    ensures var pattern := first + "**" + ("/" + last);
      Means(pattern, text + (directories + last)) && !Finds(pattern, text + (directories + last))
  {
    var parts, path := [first, "/" + last], text + (directories + last);
    PartsOf(first, "/" + last);
    MatchesItself(last);
    Regroup(text, directories, last);
    var b := |text| + |directories|;
    assert path[..|text|] == text && path[b..] == last && Segment(parts, 1) == last;
    LastOfBoth(text, directories);
    assert path[b - 1] == (text + directories)[b - 1];
    assert EndsAt(last, path, b);
    LastMeans(parts, path, |text|);
    if SegmentsFound(Segments(parts), 0, path, 0) { Refusals(Segments(parts), 0, path, 0); }
  }

  lemma LiteralIsLeast(p: string)
    requires NoWildcard(p)
    ensures NoDoubleStar(p) && !StarBeforeSlash(p) && Least(p) == p
  {
    forall i | 0 <= i < |p| ensures p[i] != '*' {}
    LeastOfLiteral(p);
  }

  lemma {:induction false} LeastOfLiteral(p: string)
    requires '*' !in p
    ensures Least(p) == p
  {
    if p != "" { LeastOfLiteral(p[1..]); }
  }

  /** A "**" with literal text on both sides never stands for text that leaves them in one component. */
  lemma LiteralApart(first: string, between: string, last: string)
    requires NoWildcard(first) && NoWildcard(last) && (AtStart(first) || NoSlash(first)) && last != "" && last[0] != '/'
    requires between != "" && NoSlash(between)
    ensures Means(first + "**" + last, first + (between + last)) && !Finds(first + "**" + last, first + (between + last))
  {
    LiteralIsLeast(first);
    LiteralIsLeast(last);
    PartsOf(first, last);
    AfterLeast([first, last], between + last);
    ApartIsMeant(first, between, last);
    ApartIsRefused(first + (between + last), |first|, between, last);
  }

  lemma ApartIsMeant(first: string, between: string, last: string)
    requires last != "" && last[0] != '/'
    ensures PartsMean([first, last], first + (between + last))
  {
    var path, b := first + (between + last), |first| + |between|;
    MatchesItself(first);
    MatchesItself(last);
    assert path[..|first|] == first && path[b..] == last && EndsAt(last, path, b);
    LastMeans([first, last], path, |first|);
  }

  lemma ApartIsRefused(path: string, e: nat, between: string, last: string)
    requires e <= |path| && path[e..] == between + last && between != "" && NoSlash(between) && NoWildcard(last) && Fallback(path, e) == e
    ensures !LastFinds(last, path, e)
  {
    LiteralMatchesOnlyItself(last, between + last);
    SlashesAdd(between, last);
    OutOfReach(last, path, e);
  }

  lemma SuffixForInstance()
    ensures Means("**.txt", "foo.txt") && !Finds("**.txt", "foo.txt")
  {
    LiteralApart("", "foo", ".txt");
    assert "" + "**" + ".txt" == "**.txt" && "" + ("foo" + ".txt") == "foo.txt";
  }

  lemma InfixForInstance()
    ensures Means("a**b", "axb") && !Finds("a**b", "axb")
  {
    LiteralApart("a", "x", "b");
    assert "a" + "**" + "b" == "a**b" && "a" + ("x" + "b") == "axb";
  }

  /** Something between two whole components is never found: not even in the pattern's own text. */
  lemma BetweenTwo(first: string, middle: string, last: string)
    requires NoDoubleStar(first) && EndsInSlash(first)
    requires NoDoubleStar("/" + middle) && EndsInSlash(middle) && NoDoubleStar("/" + last) && last != ""
    ensures var pattern := first + "**" + (("/" + middle) + "**" + ("/" + last));
      Means(pattern, first + (middle + last)) && !Finds(pattern, first + (middle + last))
  {
    var m, l := "/" + middle, "/" + last;
    var parts := [first, m, l];
    PartsOf(m, l);
    CutAt(first, m + "**" + l);
    assert [first] + [m, l] == parts;
    assert m[1..] == middle && l[1..] == last;
    TextOfThree(parts);
    ThreeWhole(first, middle, l);
    WholeBroken(parts, 1);
  }

  lemma ThreeWhole(first: string, middle: string, last: string)
    requires NoDoubleStar(first) && EndsInSlash(first) && NoDoubleStar("/" + middle) && EndsInSlash(middle)
    requires NoDoubleStar(last) && last != "" && last[0] == '/'
    ensures var parts := [first, "/" + middle, last]; Parts(parts) && Whole(parts) && parts[1] != "/"
  {
    var m := "/" + middle;
    assert m[|m| - 1] == middle[|middle| - 1];
  }

  lemma TextOfThree(parts: seq<string>)
    requires |parts| == 3 && Segment(parts, 2) != ""
    ensures WholeText(parts) == parts[0] + (Segment(parts, 1) + Segment(parts, 2))
  {
    assert Tail(parts, 2) == Segment(parts, 2);
    assert Tail(parts, 1) == Segment(parts, 1) + Tail(parts, 2);
  }

  lemma TwoForInstance()
    ensures Means("a/**/b/**/c", "a/b/c") && !Finds("a/**/b/**/c", "a/b/c")
  {
    BetweenTwo("a/", "b/", "c");
    assert "a/" + "**" + (("/" + "b/") + "**" + ("/" + "c")) == "a/**/b/**/c";
    assert "a/" + ("b/" + "c") == "a/b/c";
  }

  /** A "**" within a component, with a slash further left: from the first part's end the search goes back into
      it, and finds what is not meant. */
  lemma TooFarBack(above: string, both: string, below: string)
    requires NoWildcard(above) && NoWildcard(both) && NoWildcard(below) && both != "" && NoSlash(both)
    ensures var first, last := above + "/" + both, both + "/" + below;
      var path := first + ("/" + below);
      !Means(first + "**" + last, path) && Finds(first + "**" + last, path)
  {
    var first, last, more := above + "/" + both, both + "/" + below, "/" + below;
    LiteralIsLeast(first);
    LiteralIsLeast(last);
    PartsOf(first, last);
    BackInto(above, both, below);
    FoundNotMeant(first, last, more);
  }

  lemma FoundNotMeant(first: string, last: string, more: string)
    requires NoWildcard(first) && NoWildcard(last) && last != "" && last[0] != '/' && |more| < |last|
    requires LastFinds(last, first + more, |first|)
    ensures !PartsMean([first, last], first + more) && SegmentsFound(Segments([first, last]), 0, first + more, 0)
  {
    LiteralStart(first, last, more);
    TooShort(first, last, first + more);
  }

  lemma LiteralStart(first: string, last: string, more: string)
    requires NoWildcard(first) && NoWildcard(last) && last != "" && last[0] != '/'
    requires LastFinds(last, first + more, |first|)
    ensures SegmentsFound(Segments([first, last]), 0, first + more, 0)
  {
    var path, parts := first + more, [first, last];
    LiteralIsLeast(first);
    assert path[0..] == path && Segments(parts) == parts;
    LeastIsFound(first, path, 0);
    EmptyMiddles(parts, 1, path, |first|);
    assert SegmentsFound(parts, 0, path, 0) <==> SegmentsFound(parts, 1, path, |first|);
  }

  lemma TooShort(first: string, last: string, path: string)
    requires NoWildcard(first) && NoWildcard(last) && last != "" && last[0] != '/' && |path| < |first| + |last|
    ensures !PartsMean([first, last], path)
  {
    var parts := [first, last];
    forall a | 0 <= a <= |path| && Accepts(first, path[..a]) ensures !RestMeans(parts, 1, path, a) {
      LiteralMatchesOnlyItself(first, path[..a]);
      LastMeans(parts, path, a);
      forall b | a <= b <= |path| ensures !EndsAt(last, path, b) { LiteralMatchesOnlyItself(last, path[b..]); }
    }
  }

  lemma BackInto(above: string, both: string, below: string)
    requires NoSlash(both)
    ensures var path, e := (above + "/" + both) + ("/" + below), |above| + 1 + |both|; LastFinds(both + "/" + below, path, e)
  {
    var path, e, b := (above + "/" + both) + ("/" + below), |above| + 1 + |both|, |above| + 1;
    assert path[e..][0] == '/' && path[b - 1] == '/';
    assert path[b..e] == both;
    forall j | b <= j < e ensures path[j] != '/' { assert path[b..e][j - b] == path[j]; }
    assert Fallback(path, e) == b;
    SpellOut(above, both, below);
    MatchesItself(both + "/" + below);
    assert EndsAt(both + "/" + below, path, b);
  }

  lemma SpellOut(above: string, both: string, below: string)
    ensures ((above + "/" + both) + ("/" + below))[|above| + 1..] == both + "/" + below
  {}

  lemma TooFarBackForInstance()
    ensures !Means("r/a**a/c", "r/a/c") && Finds("r/a**a/c", "r/a/c")
  {
    TooFarBack("r", "a", "c");
    assert ("r" + "/" + "a") + "**" + ("a" + "/" + "c") == "r/a**a/c";
    assert ("r" + "/" + "a") + ("/" + "c") == "r/a/c";
  }
}

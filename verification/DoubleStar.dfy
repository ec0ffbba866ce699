/** Patterns with "**": the segment search of the matcher, and exactly what it finds. */
module DoubleStar {
  import opened Records
  import opened Glob
  import opened PrefixSearch

  // ---- cutting a pattern at "**"

  predicate StarsAt(p: string, i: nat) {
    i + 1 < |p| && p[i] == '*' && p[i + 1] == '*'
  }

  /** The leftmost "**" at or after i, or the length. */
  function FindStars(p: string, i: nat): (r: nat)
    requires i <= |p|
    ensures i <= r <= |p|
    ensures r < |p| ==> StarsAt(p, r)
    ensures forall j | i <= j < r :: !StarsAt(p, j)
    decreases |p| - i
  {
    if i == |p| || StarsAt(p, i) then i else FindStars(p, i + 1)
  }

  function SplitStars(p: string): (r: seq<string>)
    ensures r != [] && (!NoDoubleStar(p) ==> |r| >= 2)
    ensures forall k | 0 <= k < |r| :: NoDoubleStar(r[k]) && ('[' !in p ==> '[' !in r[k])
    decreases |p|
  {
    var i := FindStars(p, 0);
    NoneBefore(p, i);
    if i == |p| then [p] else [p[..i]] + SplitStars(p[i + 2..])
  }

  lemma NoneBefore(p: string, i: nat)
    requires i <= |p| && forall j | 0 <= j < i :: !StarsAt(p, j)
    ensures NoDoubleStar(p[..i])
  {
    forall j | 0 <= j < i - 1 ensures !(p[..i][j] == '*' && p[..i][j + 1] == '*') { assert !StarsAt(p, j); }
  }

  lemma NoneAnywhere(p: string)
    ensures NoDoubleStar(p) <==> forall j: nat :: !StarsAt(p, j)
  {
    forall j | 0 <= j < |p| - 1 ensures StarsAt(p, j) <==> p[j] == '*' && p[j + 1] == '*' {}
  }

  /** A leading slash goes from every part but the first. */
  function Segment(parts: seq<string>, i: nat): (r: string)
    requires i < |parts|
    ensures NoDoubleStar(parts[i]) ==> NoDoubleStar(r)
    ensures '[' !in parts[i] ==> '[' !in r
  {
    if i > 0 && parts[i] != "" && parts[i][0] == '/' then parts[i][1..] else parts[i]
  }

  function Segments(parts: seq<string>): (r: seq<string>)
    ensures |r| == |parts| && forall i | 0 <= i < |r| :: r[i] == Segment(parts, i)
  {
    seq(|parts|, i requires 0 <= i < |parts| => Segment(parts, i))
  }

  // ---- the pieces of the search

  /** Position 0, or just after a slash. */
  predicate Boundary(path: string, b: nat) {
    b == 0 || (b <= |path| && path[b - 1] == '/')
  }

  ghost predicate EndsAt(segment: string, path: string, b: nat)
    requires b <= |path|
  {
    Accepts(segment, path[b..])
  }

  /** Some suffix that starts at a slash boundary, no earlier than `from`, matches. */
  ghost predicate SuffixMatches(segment: string, path: string, from: nat) {
    exists b | from <= b <= |path| && Boundary(path, b) :: EndsAt(segment, path, b)
  }

  /** The last slash of path[lo..hi], if there is one. */
  function LastSlash(path: string, lo: nat, hi: nat): (r: Option<nat>)
    requires lo <= hi <= |path|
    ensures r.Some? ==> lo <= r.value < hi && path[r.value] == '/' && forall j | r.value < j < hi :: path[j] != '/'
    ensures r.None? ==> forall j | lo <= j < hi :: path[j] != '/'
    decreases hi - lo
  {
    if lo == hi then None
    else if path[hi - 1] == '/' then Some(hi - 1)
    else LastSlash(path, lo, hi - 1)
  }

  /** The last suffix tried: from where the search starts, or, if a slash lies further right, from the
      component that holds that place. */
  function Fallback(path: string, from: nat): (r: nat)
    requires from <= |path|
    ensures r <= from
  {
    if NoSlash(path[from..]) then from
    else
      var last := LastSlash(path, 0, from);
      if last.Some? then last.value + 1 else from
  }

  ghost predicate LastFinds(segment: string, path: string, from: nat)
    requires from <= |path|
  {
    || (exists b | from < b <= |path| && Boundary(path, b) :: EndsAt(segment, path, b))
    || EndsAt(segment, path, Fallback(path, from))
  }

  /** The last segment: suffixes at slash boundaries, shortest first.  Starting from a boundary it finds one
      exactly when there is one. */
  method LastSegment(segment: string, path: string, searchStart: nat) returns (found: bool)
    requires '[' !in segment && NoDoubleStar(segment) && searchStart <= |path|
    ensures found <==> LastFinds(segment, path, searchStart)
    ensures Boundary(path, searchStart) ==> (found <==> SuffixMatches(segment, path, searchStart))
  {
    if Boundary(path, searchStart) {
      FromBoundary(segment, path, searchStart);
    }
    var last := LastSlash(path, searchStart, |path|);
    var suffixStart: nat := if last.Some? then last.value + 1 else searchStart;
    SlashesFrom(path, searchStart);
    while true
      invariant suffixStart <= |path|
      invariant suffixStart > searchStart ==> Boundary(path, suffixStart)
      invariant suffixStart <= searchStart ==> suffixStart == Fallback(path, searchStart)
      invariant forall b | searchStart < b <= |path| && suffixStart < b && Boundary(path, b) :: !EndsAt(segment, path, b)
      decreases suffixStart
    {
      var here := SimpleGlob(segment, path[suffixStart..]);
      if here {
        assert EndsAt(segment, path, suffixStart);
        return true;
      }
      if suffixStart <= searchStart {
        return false;
      }
      var previous := LastSlash(path, 0, suffixStart - 1);
      if previous.None? || previous.value < searchStart {
        BackPast(path, searchStart, suffixStart);
      }
      suffixStart := if previous.Some? then previous.value + 1 else searchStart;
    }
  }

  lemma SlashesFrom(path: string, from: nat)
    requires from <= |path|
    ensures NoSlash(path[from..]) <==> LastSlash(path, from, |path|).None?
  {
    var last := LastSlash(path, from, |path|);
    if last.Some? { assert path[from..][last.value - from] == '/'; }
  }

  /** The first boundary to the right of the start has been tried; left of it comes the fallback. */
  lemma BackPast(path: string, from: nat, b: nat)
    requires from < b <= |path| && path[b - 1] == '/' && forall j | from <= j < b - 1 :: path[j] != '/'
    ensures Fallback(path, from) == (match LastSlash(path, 0, b - 1) case Some(p) => p + 1 case None => from)
  {
    assert path[from..][b - 1 - from] == '/';
    LastSlashSkips(path, from, b - 1);
  }

  lemma {:induction false} LastSlashSkips(path: string, lo: nat, hi: nat)
    requires lo <= hi <= |path| && forall j | lo <= j < hi :: path[j] != '/'
    ensures LastSlash(path, 0, hi) == LastSlash(path, 0, lo)
    decreases hi
  {
    if lo < hi { LastSlashSkips(path, lo, hi - 1); }
  }

  lemma FromBoundary(segment: string, path: string, from: nat)
    requires from <= |path| && Boundary(path, from)
    ensures Fallback(path, from) == from
    ensures LastFinds(segment, path, from) <==> SuffixMatches(segment, path, from)
  {}

  /** Where the search goes on after a middle segment: the first place from which the segment matches all the
      rest of the path, and behind what its own search finds there. */
  ghost function MiddleEnd(segment: string, path: string, from: nat): (r: Option<nat>)
    requires from <= |path|
    ensures r.Some? ==> from <= r.value <= |path|
    decreases |path| - from
  {
    if EndsAt(segment, path, from) && FirstEnd(segment, path[from..], 0).Some?
    then Some(from + FirstEnd(segment, path[from..], 0).value)
    else if from == |path| then None else MiddleEnd(segment, path, from + 1)
  }

  method MiddleSegment(segment: string, path: string, searchStart: nat) returns (next: Option<nat>)
    requires '[' !in segment && NoDoubleStar(segment) && searchStart <= |path|
    ensures next == MiddleEnd(segment, path, searchStart)
    ensures StarBeforeSlash(segment) ==> next.None?
    ensures segment != "" && segment[|segment| - 1] == '/' && (path == "" || path[|path| - 1] != '/') ==> next.None?
  {
    MiddleMeans(segment, path, searchStart);
    var pos := searchStart;
    while pos <= |path|
      invariant searchStart <= pos <= |path| + 1
      invariant MiddleEnd(segment, path, searchStart) == if pos <= |path| then MiddleEnd(segment, path, pos) else None
    {
      var here := SimpleGlob(segment, path[pos..]);
      if here {
        var len := FirstMatchLen(segment, path[pos..], 0);
        if len.Some? {
          return Some(pos + len.value);
        }
      }
      pos := pos + 1;
    }
    return None;
  }

  /** A middle segment that ends in a slash is found only where the path ends, and only if that ends in one. */
  lemma {:induction false} MiddleMeans(segment: string, path: string, from: nat)
    requires from <= |path|
    ensures StarBeforeSlash(segment) ==> MiddleEnd(segment, path, from).None?
    ensures segment != "" && segment[|segment| - 1] == '/' && MiddleEnd(segment, path, from).Some? ==>
      MiddleEnd(segment, path, from).value == |path| && path != "" && path[|path| - 1] == '/'
    decreases |path| - from
  {
    if StarBeforeSlash(segment) { StarredSlashFindsNone(segment, path[from..], 0); }
    if EndsAt(segment, path, from) && FirstEnd(segment, path[from..], 0).Some? {
      if segment != "" && segment[|segment| - 1] == '/' { WholeRest(segment, path[from..]); }
    } else if from < |path| {
      MiddleMeans(segment, path, from + 1);
    }
  }

  lemma WholeRest(segment: string, rest: string)
    requires segment != "" && segment[|segment| - 1] == '/' && Accepts(segment, rest) && FirstEnd(segment, rest, 0).Some?
    ensures FirstEnd(segment, rest, 0) == Some(|rest|) && rest != "" && rest[|rest| - 1] == '/'
  {
    var e := FirstEnd(segment, rest, 0).value;
    FoundIsAccepted(segment, rest, 0);
    assert rest[0..] == rest && rest[0..|rest|] == rest;
    OnePrefix(segment, rest, 0, e, |rest|);
    SlashesAgree(segment, rest);
  }

  // ---- the matcher

  /** The segments from the i-th on, one after another, each from where the last one ended. */
  ghost predicate SegmentsFound(segments: seq<string>, i: nat, path: string, start: nat)
    requires i <= |segments| && start <= |path|
    decreases |segments| - i
  {
    if i == |segments| then true
    else if segments[i] == "" then SegmentsFound(segments, i + 1, path, start)
    else if i == 0 then
      FirstEnd(segments[0], path, 0).Some? && SegmentsFound(segments, 1, path, FirstEnd(segments[0], path, 0).value)
    else if i == |segments| - 1 then LastFinds(segments[i], path, start)
    else MiddleEnd(segments[i], path, start).Some? && SegmentsFound(segments, i + 1, path, MiddleEnd(segments[i], path, start).value)
  }

  /** What the matcher finds. */
  ghost predicate Finds(pattern: string, path: string) {
    if NoDoubleStar(pattern) then Accepts(pattern, path)
    else SegmentsFound(Segments(SplitStars(pattern)), 0, path, 0)
  }

  method SegmentsMatch(segments: seq<string>, path: string) returns (matched: bool)
    requires |segments| >= 2 && forall k | 0 <= k < |segments| :: '[' !in segments[k] && NoDoubleStar(segments[k])
    ensures matched <==> SegmentsFound(segments, 0, path, 0)
  {
    var last := |segments| - 1;
    var searchStart: nat := 0;
    for i := 0 to |segments|
      invariant searchStart <= |path| && (i == 0 ==> searchStart == 0)
      invariant SegmentsFound(segments, 0, path, 0) <==> SegmentsFound(segments, i, path, searchStart)
    {
      var segment := segments[i];
      if segment == "" {
        continue;
      }
      if i == 0 {
        var len := FirstMatchLen(segment, path, 0);
        if len.None? {
          return false;
        }
        searchStart := len.value;
      } else if i == last {
        matched := LastSegment(segment, path, searchStart);
        return;
      } else {
        var next := MiddleSegment(segment, path, searchStart);
        if next.None? {
          return false;
        }
        searchStart := next.value;
      }
    }
    return true;
  }

  /** `glob_match`, for every pattern without brackets. */
  method GlobMatch(pattern: string, path: string) returns (matched: bool)
    requires '[' !in pattern
    ensures matched <==> Finds(pattern, path)
    ensures NoDoubleStar(pattern) ==> (matched <==> Accepts(pattern, path))
    ensures forall i | 0 <= i < |SplitStars(pattern)| - 1 && StarBeforeSlash(Segments(SplitStars(pattern))[i]) :: !matched
    ensures path == "" || path[|path| - 1] != '/' ==>
      forall i | 0 < i < |SplitStars(pattern)| - 1 && EndsInSlash(Segments(SplitStars(pattern))[i]) :: !matched
  {
    NoneAnywhere(pattern);
    ghost var segments := Segments(SplitStars(pattern));
    if SegmentsFound(segments, 0, path, 0) {
      Refusals(segments, 0, path, 0);
    }
    if pattern == "**" {
      assert StarsAt(pattern, 0) && pattern[2..] == "" && SplitStars(pattern) == ["", ""];
      assert segments[0] == "" && segments[1] == "";
      assert SegmentsFound(segments, 2, path, 0) && SegmentsFound(segments, 1, path, 0);
      return true;
    }
    if FindStars(pattern, 0) == |pattern| {
      assert SplitStars(pattern) == [pattern];
      matched := SimpleGlob(pattern, path);
      return;
    }
    assert StarsAt(pattern, FindStars(pattern, 0));
    matched := SegmentsMatch(Segments(SplitStars(pattern)), path);
  }

  predicate EndsInSlash(s: string) {
    s != "" && s[|s| - 1] == '/'
  }

  /** A segment before the last with a star directly before a slash refuses everything; a middle one that ends
      in a slash every path that does not. */
  lemma {:induction false} Refusals(segments: seq<string>, i: nat, path: string, start: nat)
    requires i <= |segments| && start <= |path| && SegmentsFound(segments, i, path, start)
    ensures forall j | i <= j < |segments| - 1 :: !StarBeforeSlash(segments[j])
    ensures !EndsInSlash(path) ==> forall j | i <= j < |segments| - 1 && 0 < j :: !EndsInSlash(segments[j])
    decreases |segments| - i
  {
    if i < |segments| {
      var segment := segments[i];
      if segment == "" {
        Refusals(segments, i + 1, path, start);
      } else if i == 0 {
        FirstEndMeans(segment, path, 0);
        Refusals(segments, 1, path, FirstEnd(segment, path, 0).value);
      } else if i < |segments| - 1 {
        MiddleMeans(segment, path, start);
        Refusals(segments, i + 1, path, MiddleEnd(segment, path, start).value);
      }
    }
  }
}

/** What "**" promises, and for which patterns the matcher keeps the promise. */
module DoubleStarMeaning {
  import opened Records
  import opened Glob
  import opened PrefixSearch
  import opened DoubleStar

  // ---- the promise

  /** "**" stands for any text, slashes included; with a slash behind it, for directories: any number of them,
      none included, so that what follows begins a component. */
  predicate Gap(part: string, path: string, b: nat) {
    part != "" && part[0] == '/' ==> Boundary(path, b)
  }

  /** The parts from the i-th on, each after a "**", match the path from a on. */
  ghost predicate RestMeans(parts: seq<string>, i: nat, path: string, a: nat)
    requires 0 < i < |parts| && a <= |path|
    decreases |parts| - i, 1
  {
    (i == |parts| - 1 && Segment(parts, i) == "") || exists b, e | a <= b <= e <= |path| :: PieceMeans(parts, i, path, b, e)
  }

  ghost predicate PieceMeans(parts: seq<string>, i: nat, path: string, b: nat, e: nat)
    requires 0 < i < |parts| && b <= e <= |path|
    decreases |parts| - i, 0
  {
    && Gap(parts[i], path, b) && Accepts(Segment(parts, i), path[b..e])
    && if i == |parts| - 1 then e == |path| else RestMeans(parts, i + 1, path, e)
  }

  ghost predicate PartsMean(parts: seq<string>, path: string)
    requires |parts| >= 2
  {
    exists a | 0 <= a <= |path| :: Accepts(parts[0], path[..a]) && RestMeans(parts, 1, path, a)
  }

  /** What a pattern means. */
  ghost predicate Means(pattern: string, path: string) {
    if NoDoubleStar(pattern) then Accepts(pattern, path) else PartsMean(SplitStars(pattern), path)
  }

  // ---- the patterns decided here, and when they keep the promise

  /** What cutting at "**" yields: no part but the last ends in a star. */
  ghost predicate Parts(parts: seq<string>) {
    && |parts| >= 2
    && (forall i | 0 <= i < |parts| :: NoDoubleStar(parts[i]))
    && forall i | 0 <= i < |parts| - 1 && parts[i] != "" :: parts[i][|parts[i]| - 1] != '*'
  }

  lemma {:induction false} CutsAreParts(pattern: string)
    requires !NoDoubleStar(pattern)
    ensures Parts(SplitStars(pattern))
    ensures '/' !in pattern ==> forall i | 0 <= i < |SplitStars(pattern)| :: NoSlash(SplitStars(pattern)[i])
    decreases |pattern|
  {
    NoneAnywhere(pattern);
    var f := FindStars(pattern, 0);
    var rest := pattern[f + 2..];
    assert f > 0 ==> !StarsAt(pattern, f - 1);
    if NoDoubleStar(rest) {
      NoneAnywhere(rest);
    } else {
      CutsAreParts(rest);
    }
  }

  /** At a component's start: nothing, or a slash, comes before. */
  predicate AtStart(part: string) {
    part == "" || EndsInSlash(part)
  }

  /** One "**", with no slash before it or one directly before it. */
  predicate Single(parts: seq<string>) {
    |parts| == 2 && (AtStart(parts[0]) || NoSlash(parts[0]))
  }

  /** Every "**" is a whole component. */
  predicate Whole(parts: seq<string>) {
    && |parts| >= 2 && AtStart(parts[0])
    && (forall i | 0 < i < |parts| - 1 :: EndsInSlash(parts[i]) && parts[i][0] == '/')
    && (parts[|parts| - 1] != "" ==> parts[|parts| - 1][0] == '/')
  }

  /** Question marks and then a star: what it matches can be continued to the left. */
  predicate Stretches(p: string) {
    p != "" && (p[0] == '*' || (p[0] == '?' && Stretches(p[1..])))
  }

  predicate LastKeeps(first: string, part: string) {
    || part == "" || part == "/"
    || (if part[0] == '/' then AtStart(first) else Stretches(part))
  }

  predicate PartsKeep(parts: seq<string>)
    requires |parts| >= 2
  {
    && !StarBeforeSlash(parts[0])
    && (forall i | 0 < i < |parts| - 1 :: parts[i] == "/")
    && LastKeeps(parts[0], parts[|parts| - 1])
  }

  /** A pattern without "**", with one that has no slash or just a slash before it, or with whole-component ones. */
  predicate Decided(pattern: string) {
    NoDoubleStar(pattern) || Single(SplitStars(pattern)) || Whole(SplitStars(pattern))
  }

  /** No star directly before a slash before the first "**"; nothing between two of them; and after the last one
      nothing, or a slash if the "**" begins a component, or else question marks and a star. */
  predicate Keeps(pattern: string) {
    NoDoubleStar(pattern) || PartsKeep(SplitStars(pattern))
  }

  // ---- a pattern that keeps it

  lemma {:induction false} EmptyMiddles(segments: seq<string>, i: nat, path: string, start: nat)
    requires 0 < i < |segments| && start <= |path| && forall j | i <= j < |segments| - 1 :: segments[j] == ""
    ensures SegmentsFound(segments, i, path, start) <==> segments[|segments| - 1] == "" || LastFinds(segments[|segments| - 1], path, start)
    decreases |segments| - i
  {
    if i < |segments| - 1 {
      EmptyMiddles(segments, i + 1, path, start);
    } else {
      assert SegmentsFound(segments, i + 1, path, start);
    }
  }

  /** The end alone. */
  ghost predicate EndMeans(part: string, segment: string, path: string, a: nat) {
    segment == "" || exists b | a <= b <= |path| && Gap(part, path, b) :: EndsAt(segment, path, b)
  }

  lemma SomePiece(parts: seq<string>, i: nat, path: string, a: nat) returns (b: nat, e: nat)
    requires 0 < i < |parts| && a <= |path| && RestMeans(parts, i, path, a) && !(i == |parts| - 1 && Segment(parts, i) == "")
    ensures a <= b <= e <= |path| && PieceMeans(parts, i, path, b, e)
  {
    b, e :| a <= b <= e <= |path| && PieceMeans(parts, i, path, b, e);
  }

  lemma LastMeans(parts: seq<string>, path: string, a: nat)
    requires |parts| >= 2 && a <= |path|
    ensures var i := |parts| - 1; RestMeans(parts, i, path, a) <==> EndMeans(parts[i], Segment(parts, i), path, a)
  {
    var i, n := |parts| - 1, |path|;
    forall b | a <= b <= n ensures PieceMeans(parts, i, path, b, n) <==> Gap(parts[i], path, b) && EndsAt(Segment(parts, i), path, b) {
      assert path[b..n] == path[b..];
    }
    if RestMeans(parts, i, path, a) && Segment(parts, i) != "" {
      var b, e := SomePiece(parts, i, path, a);
      assert e == n;
    }
    if b :| a <= b <= n && Gap(parts[i], path, b) && EndsAt(Segment(parts, i), path, b) {
      assert PieceMeans(parts, i, path, b, n);
    }
  }

  lemma {:induction false} WholeMeans(parts: seq<string>, i: nat, path: string, a: nat)
    requires 0 < i < |parts| && a <= |path| && Boundary(path, a)
    requires forall j | i <= j < |parts| - 1 :: parts[j] == "/"
    requires parts[|parts| - 1] != "" ==> parts[|parts| - 1][0] == '/'
    ensures var last := Segment(parts, |parts| - 1); RestMeans(parts, i, path, a) <==> last == "" || SuffixMatches(last, path, a)
    decreases |parts| - i
  {
    var last := Segment(parts, |parts| - 1);
    if i == |parts| - 1 {
      LastMeans(parts, path, a);
    } else {
      assert Segment(parts, i) == "";
      if RestMeans(parts, i, path, a) {
        var b, e := SomePiece(parts, i, path, a);
        assert b == e;
        WholeMeans(parts, i + 1, path, e);
      }
      WholeMeans(parts, i + 1, path, a);
      assert path[a..a] == "";
      if RestMeans(parts, i + 1, path, a) { assert PieceMeans(parts, i, path, a, a); }
    }
  }

  /** What begins with question marks and a star takes up whatever precedes it in its component. */
  lemma {:induction false} Stretched(p: string, z: string, s: string)
    requires Stretches(p) && NoSlash(z) && Accepts(p, s)
    ensures Accepts(p, z + s)
    decreases |p|
  {
    if p[0] == '*' {
      var k :| 0 <= k <= |s| && TakesStar(p, s, k);
      var t := z + s;
      assert t[..|z| + k] == z + s[..k] && t[|z| + k..] == s[k..];
      assert TakesStar(p, t, |z| + k);
    } else if z == "" {
      assert z + s == s;
    } else {
      var z' := z[1..] + s[..1];
      assert s[..1] == [s[0]];
      Stretched(p[1..], z', s[1..]);
      var t := z + s;
      assert t[..1] == [z[0]] && t[1..] == z' + s[1..];
    }
  }

  lemma StretchedBack(p: string, path: string, b: nat, c: nat)
    requires Stretches(p) && c <= b <= |path| && NoSlash(path[c..b]) && EndsAt(p, path, b)
    ensures EndsAt(p, path, c)
  {
    Stretched(p, path[c..b], path[b..]);
    assert path[c..] == path[c..b] + path[b..];
  }

  /** From any place the matching suffix can be had from a component's start, or from where the search starts. */
  lemma StretchedFinds(p: string, path: string, e: nat, b: nat)
    requires Stretches(p) && e <= b <= |path| && EndsAt(p, path, b)
    requires Boundary(path, e) || NoSlash(path[..e])
    ensures LastFinds(p, path, e)
  {
    var slash := LastSlash(path, e, b);
    var c := if slash.Some? then slash.value + 1 else e;
    forall j | 0 <= j < b - c ensures path[c..b][j] != '/' { assert path[c..b][j] == path[c + j]; }
    StretchedBack(p, path, b, c);
    if slash.None? {
      if Boundary(path, e) {
        FromBoundary(p, path, e);
      } else {
        forall j | 0 <= j < e ensures path[j] != '/' { assert path[..e][j] == path[j]; }
      }
    }
  }

  lemma SingleMeans(parts: seq<string>, path: string)
    requires |parts| == 2
    ensures PartsMean(parts, path) <==>
      exists a | 0 <= a <= |path| :: Accepts(parts[0], path[..a]) && EndMeans(parts[1], Segment(parts, 1), path, a)
  {
    forall a | 0 <= a <= |path| ensures RestMeans(parts, 1, path, a) <==> EndMeans(parts[1], Segment(parts, 1), path, a) {
      LastMeans(parts, path, a);
    }
  }

  lemma SingleFound(parts: seq<string>, path: string)
    requires |parts| == 2
    ensures var e, last := FirstEnd(parts[0], path, 0), Segment(parts, 1);
      SegmentsFound(Segments(parts), 0, path, 0) <==> e.Some? && (last == "" || LastFinds(last, path, e.value))
  {
    var e := FirstEnd(parts[0], path, 0);
    if e.Some? { EmptyMiddles(Segments(parts), 1, path, e.value); }
  }

  lemma SingleKeeps(parts: seq<string>, path: string)
    requires Parts(parts) && Single(parts) && PartsKeep(parts)
    ensures PartsMean(parts, path) <==> SegmentsFound(Segments(parts), 0, path, 0)
  {
    var first, part, last := parts[0], parts[1], Segment(parts, 1);
    FirstEndMeans(first, path, 0);
    SingleMeans(parts, path);
    SingleFound(parts, path);
    forall a | 0 <= a <= |path| ensures path[..a] == path[0..a] {}
    if FirstEnd(first, path, 0).Some? {
      var e := FirstEnd(first, path, 0).value;
      if a :| 0 <= a <= |path| && Accepts(first, path[..a]) && EndMeans(part, last, path, a) {
        EndIsFound(first, part, last, path, e, a);
      }
      if last == "" || LastFinds(last, path, e) { FoundIsMeant(first, part, last, path, e); }
    }
  }

  lemma EndIsFound(first: string, part: string, last: string, path: string, e: nat, a: nat)
    requires NoDoubleStar(first) && (first != "" ==> first[|first| - 1] != '*') && (AtStart(first) || NoSlash(first))
    requires FirstEnd(first, path, 0) == Some(e) && a <= |path| && Accepts(first, path[..a]) && EndMeans(part, last, path, a)
    requires last == (if part != "" && part[0] == '/' then part[1..] else part) && LastKeeps(first, part)
    ensures last == "" || LastFinds(last, path, e)
  {
    assert path[..a] == path[0..a] && path[..e] == path[0..e] && path[0..0] == "";
    FoundIsLeast(first, path, 0, 0, a);
    FoundIsAccepted(first, path, 0);
    SlashesAgree(first, path[..e]);
    if last != "" {
      var b :| a <= b <= |path| && Gap(part, path, b) && EndsAt(last, path, b);
      if part[0] == '/' {
        FromBoundary(last, path, e);
      } else {
        StretchedFinds(last, path, e, b);
      }
    }
  }

  lemma FoundIsMeant(first: string, part: string, last: string, path: string, e: nat)
    requires AtStart(first) || NoSlash(first)
    requires FirstEnd(first, path, 0) == Some(e)
    requires last == (if part != "" && part[0] == '/' then part[1..] else part) && LastKeeps(first, part)
    requires last == "" || LastFinds(last, path, e)
    ensures EndMeans(part, last, path, e)
  {
    FoundIsAccepted(first, path, 0);
    assert path[0..e] == path[..e];
    SlashesAgree(first, path[..e]);
    if last != "" {
      if AtStart(first) {
        FromBoundary(last, path, e);
      } else {
        forall j | 0 <= j < e ensures path[j] != '/' { assert path[..e][j] == path[j]; }
        assert Fallback(path, e) == e;
      }
    }
  }

  lemma WholeRest(parts: seq<string>, path: string, a: nat)
    requires Whole(parts) && PartsKeep(parts) && a <= |path| && Accepts(parts[0], path[..a])
    ensures Boundary(path, a)
    ensures var last := Segment(parts, |parts| - 1); RestMeans(parts, 1, path, a) <==> last == "" || SuffixMatches(last, path, a)
  {
    SlashesAgree(parts[0], path[..a]);
    WholeMeans(parts, 1, path, a);
  }

  lemma WholeFound(parts: seq<string>, path: string, e: nat)
    requires Whole(parts) && PartsKeep(parts) && FirstEnd(parts[0], path, 0) == Some(e) && Boundary(path, e)
    ensures var last := Segment(parts, |parts| - 1);
      SegmentsFound(Segments(parts), 0, path, 0) <==> last == "" || SuffixMatches(last, path, e)
  {
    var segments := Segments(parts);
    EmptyMiddles(segments, 1, path, e);
    FromBoundary(segments[|segments| - 1], path, e);
    assert SegmentsFound(segments, 0, path, 0) <==> SegmentsFound(segments, 1, path, e);
  }

  lemma OneStart(first: string, path: string, a: nat, e: nat)
    requires AtStart(first) && a <= |path| && e <= |path| && Accepts(first, path[..a]) && Accepts(first, path[..e])
    ensures a == e
  {
    assert path[..a] == path[0..a] && path[..e] == path[0..e];
    if first != "" { OnePrefix(first, path, 0, if a < e then a else e, if a < e then e else a); }
  }

  lemma WholeKeeps(parts: seq<string>, path: string)
    requires Parts(parts) && Whole(parts) && PartsKeep(parts)
    ensures PartsMean(parts, path) <==> SegmentsFound(Segments(parts), 0, path, 0)
  {
    var first := parts[0];
    FirstEndMeans(first, path, 0);
    if FirstEnd(first, path, 0).None? {
      forall a | 0 <= a <= |path| ensures path[..a] == path[0..a] {}
    } else {
      var e := FirstEnd(first, path, 0).value;
      assert path[..e] == path[0..e];
      WholeRest(parts, path, e);
      WholeFound(parts, path, e);
      if PartsMean(parts, path) {
        var a :| 0 <= a <= |path| && Accepts(first, path[..a]) && RestMeans(parts, 1, path, a);
        OneStart(first, path, a, e);
      }
    }
  }
}

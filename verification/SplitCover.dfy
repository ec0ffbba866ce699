/** Which roots --split works on: the matched entries that have no matched ancestor. */
module SplitCover {
  import opened Records
  import opened PathText

  datatype SplitCandidate = SplitCandidate(path: Path, isDir: bool)

  /** One candidate per path. */
  predicate DistinctPaths(cs: seq<SplitCandidate>) {
    forall i, j | 0 <= i < j < |cs| :: cs[i].path != cs[j].path
  }

  /** What the walk below a source yields: named entries strictly below it, each once, in any order. */
  predicate WalkBelow(source: Path, walk: seq<SplitCandidate>) {
    && AllNames(source)
    && DistinctPaths(walk)
    && forall i | 0 <= i < |walk| :: source < walk[i].path && AllNames(walk[i].path)
  }

  predicate MatchedPath(matched: seq<SplitCandidate>, p: Path) {
    exists i | 0 <= i < |matched| :: matched[i].path == p
  }

  /** Matched, with no matched proper ancestor. */
  predicate IsRoot(matched: seq<SplitCandidate>, p: Path) {
    MatchedPath(matched, p) && forall i | 0 <= i < |matched| :: !(matched[i].path < p)
  }

  function Filter(cs: seq<SplitCandidate>, accepts: (Path, bool) -> bool): (r: seq<SplitCandidate>)
    ensures forall c :: c in r <==> c in cs && accepts(c.path, c.isDir)
  {
    if cs == [] then []
    else (if accepts(cs[0].path, cs[0].isDir) then [cs[0]] else []) + Filter(cs[1..], accepts)
  }

  lemma {:induction false} FilterKeepsDistinct(cs: seq<SplitCandidate>, accepts: (Path, bool) -> bool)
    requires DistinctPaths(cs)
    ensures DistinctPaths(Filter(cs, accepts))
  {
    if cs != [] {
      FilterKeepsDistinct(cs[1..], accepts);
      var rest := Filter(cs[1..], accepts);
      forall i | 0 <= i < |rest| ensures rest[i].path != cs[0].path {
        assert rest[i] in cs[1..];
        var j :| 0 <= j < |cs[1..]| && cs[1..][j] == rest[i];
      }
    }
  }

  // ---- the order of the result

  predicate Ordered(cs: seq<SplitCandidate>) {
    forall i, j | 0 <= i < j < |cs| :: Less(Join(cs[i].path), Join(cs[j].path))
  }

  function InsertByPath(c: SplitCandidate, cs: seq<SplitCandidate>): seq<SplitCandidate> {
    if cs == [] || !Less(Join(cs[0].path), Join(c.path)) then [c] + cs else [cs[0]] + InsertByPath(c, cs[1..])
  }

  function SortByPath(cs: seq<SplitCandidate>): seq<SplitCandidate> {
    if cs == [] then [] else InsertByPath(cs[0], SortByPath(cs[1..]))
  }

  lemma {:induction false} InsertOrders(c: SplitCandidate, cs: seq<SplitCandidate>)
    requires Ordered(cs) && forall x | x in cs :: Join(x.path) != Join(c.path)
    ensures Ordered(InsertByPath(c, cs)) && forall x :: x in InsertByPath(c, cs) <==> x == c || x in cs
  {
    if cs != [] {
      assert cs == [cs[0]] + cs[1..];
      if Less(Join(cs[0].path), Join(c.path)) {
        InsertOrders(c, cs[1..]);
        var rest := InsertByPath(c, cs[1..]);
        forall j | 0 <= j < |rest| ensures Less(Join(cs[0].path), Join(rest[j].path)) {
          assert rest[j] in rest;
          if rest[j] != c { var k :| 0 <= k < |cs[1..]| && cs[1..][k] == rest[j]; }
        }
      } else {
        LessIsTotal(Join(c.path), Join(cs[0].path));
        forall j | 0 <= j < |cs| ensures Less(Join(c.path), Join(cs[j].path)) {
          if j > 0 { LessIsTransitive(Join(c.path), Join(cs[0].path), Join(cs[j].path)); }
        }
      }
    }
  }

  lemma {:induction false} SortOrders(cs: seq<SplitCandidate>)
    requires DistinctPaths(cs) && forall i | 0 <= i < |cs| :: AllNames(cs[i].path)
    ensures Ordered(SortByPath(cs)) && forall x :: x in SortByPath(cs) <==> x in cs
  {
    if cs != [] {
      SortOrders(cs[1..]);
      forall x | x in SortByPath(cs[1..]) ensures Join(x.path) != Join(cs[0].path) {
        var k :| 0 <= k < |cs[1..]| && cs[1..][k] == x;
        assert x == cs[k + 1];
        ComponentsOfJoin(x.path);
        ComponentsOfJoin(cs[0].path);
      }
      InsertOrders(cs[0], SortByPath(cs[1..]));
      assert cs == [cs[0]] + cs[1..];
    }
  }

  /** Every entry is reported as the kind of thing it is. */
  predicate KindsAreReal(source: Path, sourceIsDir: bool, walk: seq<SplitCandidate>, roots: seq<SplitCandidate>) {
    forall c | c in roots :: c == SplitCandidate(source, sourceIsDir) || c in walk
  }

  /** `discover_split_entries`.  The source itself, when it matches, is reported as a directory. */
  method DiscoverSplitEntries(source: Path, sourceIsDir: bool, walk: seq<SplitCandidate>, accepts: (Path, bool) -> bool)
    returns (roots: seq<SplitCandidate>)
    requires WalkBelow(source, walk)
    ensures KindsAreReal(source, sourceIsDir, walk, roots) <==> !accepts(source, sourceIsDir) || sourceIsDir
    ensures accepts(source, sourceIsDir) ==> roots == [SplitCandidate(source, true)]
    ensures !accepts(source, sourceIsDir) ==>
      && Ordered(roots)
      && forall c :: c in roots <==> c in Filter(walk, accepts) && IsRoot(Filter(walk, accepts), c.path)
  {
    var candidates := [SplitCandidate(source, sourceIsDir)] + walk;
    var matched := Filter(candidates, accepts);
    assert candidates[1..] == walk;
    FilterKeepsDistinct(candidates, accepts);
    var sourceMatched, pruned := PruneDescendants(source, matched);
    SourceIsFirst(source, sourceIsDir, walk, accepts);
    if sourceMatched {
      assert SplitCandidate(source, true) !in walk;
      return [SplitCandidate(source, true)];
    }
    forall i | 0 <= i < |pruned| ensures AllNames(pruned[i].path) {
      assert pruned[i] in matched && pruned[i] in candidates;
    }
    SortOrders(pruned);
    roots := SortByPath(pruned);
  }

  lemma SourceIsFirst(source: Path, sourceIsDir: bool, walk: seq<SplitCandidate>, accepts: (Path, bool) -> bool)
    requires WalkBelow(source, walk)
    ensures var matched := Filter([SplitCandidate(source, sourceIsDir)] + walk, accepts);
      && (MatchedPath(matched, source) <==> accepts(source, sourceIsDir))
      && (!accepts(source, sourceIsDir) ==> matched == Filter(walk, accepts))
  {
    var all := [SplitCandidate(source, sourceIsDir)] + walk;
    var matched := Filter(all, accepts);
    assert all[1..] == walk;
    if accepts(source, sourceIsDir) {
      assert matched[0].path == source;
    } else {
      forall i | 0 <= i < |matched| ensures matched[i].path != source {
        assert matched[i] in matched && matched[i] in walk;
        var j :| 0 <= j < |walk| && walk[j] == matched[i];
      }
    }
  }

  /** The roots among the first n matched entries, each once. */
  ghost predicate RootsOfFirst(matched: seq<SplitCandidate>, n: nat, pruned: seq<SplitCandidate>)
    requires n <= |matched|
  {
    DistinctPaths(pruned) && forall c :: c in pruned <==> c in matched[..n] && IsRoot(matched, c.path)
  }

  lemma OneMoreRoot(matched: seq<SplitCandidate>, n: nat, pruned: seq<SplitCandidate>)
    requires DistinctPaths(matched) && n < |matched| && RootsOfFirst(matched, n, pruned)
    ensures RootsOfFirst(matched, n + 1, if IsRoot(matched, matched[n].path) then pruned + [matched[n]] else pruned)
  {
    assert matched[..n + 1] == matched[..n] + [matched[n]];
    forall i | 0 <= i < |pruned| ensures pruned[i].path != matched[n].path {
      assert pruned[i] in matched[..n];
      var j :| 0 <= j < n && matched[..n][j] == pruned[i];
    }
  }

  lemma NoAncestorMeansRoot(matched: seq<SplitCandidate>, c: SplitCandidate)
    requires c in matched
    ensures IsRoot(matched, c.path) <==>
      !exists j | 0 <= j < |matched| :: matched[j].path != c.path && matched[j].path <= c.path
  {
    var i :| 0 <= i < |matched| && matched[i] == c;
    assert MatchedPath(matched, c.path);
  }

  /** The matched entries without a matched ancestor, unless the source itself matched. */
  method PruneDescendants(source: Path, matched: seq<SplitCandidate>) returns (sourceMatched: bool, pruned: seq<SplitCandidate>)
    requires DistinctPaths(matched)
    ensures sourceMatched <==> MatchedPath(matched, source)
    ensures !sourceMatched ==> DistinctPaths(pruned) && forall c :: c in pruned <==> c in matched && IsRoot(matched, c.path)
  {
    pruned := [];
    for k := 0 to |matched|
      invariant RootsOfFirst(matched, k, pruned)
      invariant forall j | 0 <= j < k :: matched[j].path != source
    {
      var candidate := matched[k];
      if candidate.path == source {
        return true, [];
      }
      var hasAncestor := exists j | 0 <= j < |matched| :: matched[j].path != candidate.path && matched[j].path <= candidate.path;
      NoAncestorMeansRoot(matched, candidate);
      OneMoreRoot(matched, k, pruned);
      if !hasAncestor {
        pruned := pruned + [candidate];
      }
    }
    assert matched[..|matched|] == matched;
    return false, pruned;
  }

  // ---- what the roots are good for

  /** The paths of the result: roots of everything matched, the source included. */
  ghost predicate Covers(matched: seq<SplitCandidate>, roots: seq<SplitCandidate>) {
    forall p :: (exists i | 0 <= i < |roots| :: roots[i].path == p) <==> IsRoot(matched, p)
  }

  /** The result names exactly the roots of all that matched, also when the source itself did. */
  lemma ResultCovers(source: Path, sourceIsDir: bool, walk: seq<SplitCandidate>, accepts: (Path, bool) -> bool,
                     roots: seq<SplitCandidate>)
    requires WalkBelow(source, walk)
    requires if accepts(source, sourceIsDir) then roots == [SplitCandidate(source, true)]
             else forall c :: c in roots <==> c in Filter(walk, accepts) && IsRoot(Filter(walk, accepts), c.path)
    ensures Covers(Filter([SplitCandidate(source, sourceIsDir)] + walk, accepts), roots)
  {
    var all := [SplitCandidate(source, sourceIsDir)] + walk;
    var matched := Filter(all, accepts);
    assert all[1..] == walk;
    forall p ensures (exists i | 0 <= i < |roots| :: roots[i].path == p) <==> IsRoot(matched, p) {
      if accepts(source, sourceIsDir) {
        SourceIsOnlyRoot(source, sourceIsDir, walk, accepts, p);
        assert roots[0].path == source;
      } else {
        assert matched == Filter(walk, accepts);
        if IsRoot(matched, p) {
          var i :| 0 <= i < |matched| && matched[i].path == p;
          assert matched[i] in roots;
        }
        if i :| 0 <= i < |roots| && roots[i].path == p {
          assert roots[i] in roots;
        }
      }
    }
  }

  lemma SourceIsOnlyRoot(source: Path, sourceIsDir: bool, walk: seq<SplitCandidate>, accepts: (Path, bool) -> bool, p: Path)
    requires WalkBelow(source, walk) && accepts(source, sourceIsDir)
    ensures IsRoot(Filter([SplitCandidate(source, sourceIsDir)] + walk, accepts), p) <==> p == source
  {
    var all := [SplitCandidate(source, sourceIsDir)] + walk;
    var matched := Filter(all, accepts);
    assert matched[0] == SplitCandidate(source, sourceIsDir);
    forall i | 0 <= i < |matched| ensures source <= matched[i].path {
      assert matched[i] in matched && matched[i] in all;
    }
  }

  /** No root lies above another. */
  lemma RootsAreApart(matched: seq<SplitCandidate>, p: Path, q: Path)
    requires IsRoot(matched, p) && IsRoot(matched, q) && p <= q
    ensures p == q
  {
    var i :| 0 <= i < |matched| && matched[i].path == p;
    assert !(matched[i].path < q);
  }

  /** Every matched path lies at or under a root, and under only one. */
  lemma {:induction false} ExactlyOneRoot(matched: seq<SplitCandidate>, p: Path) returns (root: Path)
    requires MatchedPath(matched, p)
    ensures IsRoot(matched, root) && root <= p
    ensures forall q | IsRoot(matched, q) && q <= p :: q == root
    decreases |p|
  {
    if i :| 0 <= i < |matched| && matched[i].path < p {
      root := ExactlyOneRoot(matched, matched[i].path);
    } else {
      root := p;
    }
    forall q | IsRoot(matched, q) && q <= p ensures q == root {
      assert q <= root || root <= q;
      if q <= root { RootsAreApart(matched, q, root); } else { RootsAreApart(matched, root, q); }
    }
  }

  /** Two ordered lists of the same elements are the same list. */
  lemma {:induction false} OrderIsUnique(a: seq<SplitCandidate>, b: seq<SplitCandidate>)
    requires Ordered(a) && Ordered(b) && forall x :: x in a <==> x in b
    ensures a == b
  {
    assert a != [] ==> a[0] in b;
    assert b != [] ==> b[0] in a;
    if a != [] {
      SmallestFirst(a, b);
      assert a == [a[0]] + a[1..] && b == [b[0]] + b[1..];
      forall x ensures x in a[1..] <==> x in b[1..] {
        HeadOnlyFirst(a, x);
        HeadOnlyFirst(b, x);
      }
      OrderIsUnique(a[1..], b[1..]);
    }
  }

  lemma HeadOnlyFirst(a: seq<SplitCandidate>, x: SplitCandidate)
    requires Ordered(a) && a != []
    ensures x in a[1..] <==> x in a && x != a[0]
  {
    if x in a[1..] {
      var i :| 0 <= i < |a[1..]| && a[1..][i] == x;
      LessIsStrict(Join(a[0].path), Join(a[i + 1].path));
    }
    assert a == [a[0]] + a[1..];
  }

  lemma SmallestFirst(a: seq<SplitCandidate>, b: seq<SplitCandidate>)
    requires Ordered(a) && Ordered(b) && a != [] && b != [] && forall x :: x in a <==> x in b
    ensures a[0] == b[0]
  {
    assert a[0] in b && b[0] in a;
    var i :| 0 <= i < |b| && b[i] == a[0];
    var j :| 0 <= j < |a| && a[j] == b[0];
    if i > 0 && j > 0 { LessIsStrict(Join(a[0].path), Join(b[0].path)); }
  }

  /** The result does not depend on the order of the walk. */
  lemma WalkOrderDoesNotMatter(walk: seq<SplitCandidate>, walk': seq<SplitCandidate>, accepts: (Path, bool) -> bool,
                               roots: seq<SplitCandidate>, roots': seq<SplitCandidate>)
    requires forall c :: c in walk <==> c in walk'
    requires Ordered(roots) && forall c :: c in roots <==> c in Filter(walk, accepts) && IsRoot(Filter(walk, accepts), c.path)
    requires Ordered(roots') && forall c :: c in roots' <==> c in Filter(walk', accepts) && IsRoot(Filter(walk', accepts), c.path)
    ensures roots == roots'
  {
    forall p ensures IsRoot(Filter(walk, accepts), p) <==> IsRoot(Filter(walk', accepts), p) {
      SameElementsSameRoots(Filter(walk, accepts), Filter(walk', accepts), p);
    }
    OrderIsUnique(roots, roots');
  }

  lemma SameElementsSameRoots(a: seq<SplitCandidate>, b: seq<SplitCandidate>, p: Path)
    requires forall c :: c in a <==> c in b
    ensures IsRoot(a, p) <==> IsRoot(b, p)
  {
    forall i | 0 <= i < |a| ensures exists j :: 0 <= j < |b| && b[j] == a[i] { assert a[i] in b; }
    forall i | 0 <= i < |b| ensures exists j :: 0 <= j < |a| && a[j] == b[i] { assert b[i] in a; }
  }
}

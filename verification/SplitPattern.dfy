/** The pattern of --split as rsync users write it: a leading slash anchors, a trailing one asks for directories. */
module SplitPattern {
  import opened Glob
  import opened DoubleStar
  import opened DoubleStarMeaning
  import opened DoubleStarExact
  import opened PathText
  import opened Records
  import opened SplitCover

  datatype PatternMatcher = PatternMatcher(pattern: string, anchored: bool, dirOnly: bool)

  function NewPatternMatcher(p: string): PatternMatcher {
    var anchored := p != "" && p[0] == '/';
    var q := if anchored then p[1..] else p;
    var dirOnly := q != "" && q[|q| - 1] == '/';
    PatternMatcher(if dirOnly then q[..|q| - 1] else q, anchored, dirOnly)
  }

  /** What `--split` promises of a pattern: an anchored one, or one with a slash in it, is held against the whole
      path below the source, any other against each component; one for directories selects no file and not the
      source itself.  `meets` is what it takes for a pattern and a text to match. */
  ghost predicate SelectsBy(meets: (string, string) -> bool, p: string, path: string, isDir: bool) {
    var m := NewPatternMatcher(p);
    && (m.dirOnly ==> isDir && path != ".")
    && if m.anchored || '/' in m.pattern then meets(m.pattern, path)
       else exists i | 0 <= i < |SplitSlash(path)| :: meets(m.pattern, SplitSlash(path)[i])
  }

  /** What the pattern means selects this entry. */
  ghost predicate Promised(p: string, path: string, isDir: bool) {
    SelectsBy((q, s) => Means(q, s), p, path, isDir)
  }

  /** What the matcher finds selects it. */
  ghost predicate Selects(p: string, path: string, isDir: bool) {
    SelectsBy((q, s) => Finds(q, s), p, path, isDir)
  }

  /** A pattern selects just what it promises exactly when it is one of those for which "**" keeps its promise. */
  lemma PromiseKeptExactly(p: string)
    requires Decided(NewPatternMatcher(p).pattern)
    ensures (forall path, isDir :: Promised(p, path, isDir) <==> Selects(p, path, isDir)) <==> Keeps(NewPatternMatcher(p).pattern)
  {
    var m := NewPatternMatcher(p);
    KeptExactly(m.pattern);
    if !Keeps(m.pattern) {
      var path := Broken(m.pattern);
      if !m.anchored && '/' !in m.pattern {
        SplitOfName(path);
        assert SplitSlash(path)[0] == path && |SplitSlash(path)| == 1;
        assert Promised(p, path, true) == Means(m.pattern, path);
        assert Selects(p, path, true) == Finds(m.pattern, path);
      }
      assert Promised(p, path, true) != Selects(p, path, true);
    }
  }

  /** `is_match` of the parsed pattern. */
  method IsMatch(p: string, path: string, isDir: bool) returns (matched: bool)
    requires '[' !in p
    ensures matched <==> Selects(p, path, isDir)
    ensures NewPatternMatcher(p).dirOnly && (!isDir || path == ".") ==> !matched
  {
    var m := NewPatternMatcher(p);
    if m.dirOnly && !isDir {
      return false;
    }
    if m.dirOnly && path == "." {
      return false;
    }
    if m.anchored || '/' in m.pattern {
      matched := GlobMatch(m.pattern, path);
      return;
    }
    var components := SplitSlash(path);
    for i := 0 to |components|
      invariant forall j | 0 <= j < i :: !Finds(m.pattern, components[j])
    {
      var here := GlobMatch(m.pattern, components[i]);
      if here {
        return true;
      }
    }
    return false;
  }

  /** A candidate as the pattern sees it: its path below the source, or "." for the source itself. */
  function Relative(source: Path, p: Path): string {
    if p == source then "." else if source < p then Join(p[|source|..]) else Join(p)
  }

  ghost predicate SelectsBelow(pattern: string, source: Path, c: SplitCandidate) {
    Selects(pattern, Relative(source, c.path), c.isDir)
  }

  /** `discover_split_entries` of a pattern, with the matcher's own answers. */
  method DiscoverByPattern(source: Path, sourceIsDir: bool, walk: seq<SplitCandidate>, pattern: string)
    returns (roots: seq<SplitCandidate>)
    requires WalkBelow(source, walk) && '[' !in pattern
    ensures var accepts := (p, d) => SelectsBelow(pattern, source, SplitCandidate(p, d));
      && (accepts(source, sourceIsDir) ==> roots == [SplitCandidate(source, true)])
      && (!accepts(source, sourceIsDir) ==> Ordered(roots))
      && (!accepts(source, sourceIsDir) ==>
          forall c :: c in roots <==> c in Filter(walk, accepts) && IsRoot(Filter(walk, accepts), c.path))
  {
    var candidates := [SplitCandidate(source, sourceIsDir)] + walk;
    var yes: set<SplitCandidate> := {};
    for k := 0 to |candidates|
      invariant forall c | c in candidates[..k] :: c in yes <==> SelectsBelow(pattern, source, c)
    {
      var c := candidates[k];
      assert candidates[..k + 1] == candidates[..k] + [c];
      var matched := IsMatch(pattern, Relative(source, c.path), c.isDir);
      yes := if matched then yes + {c} else yes - {c};
    }
    assert candidates[..|candidates|] == candidates;
    var answers := (p, d) => SplitCandidate(p, d) in yes;
    roots := DiscoverSplitEntries(source, sourceIsDir, walk, answers);
    ghost var accepts := (p, d) => SelectsBelow(pattern, source, SplitCandidate(p, d));
    assert candidates[0] == SplitCandidate(source, sourceIsDir);
    forall c | c in walk ensures answers(c.path, c.isDir) == accepts(c.path, c.isDir) {
      assert c in candidates && c == SplitCandidate(c.path, c.isDir);
    }
    FilterAgrees(walk, answers, accepts);
  }

  lemma {:induction false} FilterAgrees(cs: seq<SplitCandidate>, f: (Path, bool) -> bool, g: (Path, bool) -> bool)
    requires forall c | c in cs :: f(c.path, c.isDir) == g(c.path, c.isDir)
    ensures Filter(cs, f) == Filter(cs, g)
  {
    if cs != [] {
      FilterAgrees(cs[1..], f, g);
    }
  }

  /** A lone file selected by its own pattern is reported as a directory. */
  lemma FileReportedAsDirectory()
    ensures Selects("*", ".", false)
  {
    var m := NewPatternMatcher("*");
    assert m.pattern == "*" && !m.dirOnly && !m.anchored;
    SplitOfName(".");
    FinalStar(".");
    NoneAnywhere("*");
    assert NoDoubleStar("*");
    assert Finds("*", SplitSlash(".")[0]);
  }
}

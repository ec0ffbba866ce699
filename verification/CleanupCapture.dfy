/** How the ledger comes about: the walk over a source and the order its entries end up in.  Paths are those
    below the directory that holds the source, and `fs` is what lies there. */
module CleanupCapture {
  import opened Records
  import opened SourceFiles
  import opened Cleanup

  /** No directory has entries of its own that are called "." or "..". */
  ghost predicate PlainTree(fs: Files) {
    forall p | p in fs :: PlainPath(p)
  }

  /** What lies below a directory, by the path from there. */
  function Under(fs: Files, dir: Path): Files {
    map t | t in (set p | p in fs && dir <= p :: p[|dir|..]) && dir + t in fs :: fs[dir + t]
  }

  lemma UnderIs(fs: Files, dir: Path, p: Path)
    ensures p in Under(fs, dir) <==> dir + p in fs
    ensures p in Under(fs, dir) ==> Under(fs, dir)[p] == fs[dir + p]
  {
    assert (dir + p)[|dir|..] == p && dir <= dir + p;
  }

  /** Whatever is neither a file nor a symlink is recorded as a directory. */
  function EntryFor(node: Node, relative: Path, local: Path): CleanupEntry {
    match node
    case File(size, mtime, sha) => CleanupEntry(relative, local, RegularFile, size, mtime, Some(sha), None, false, false)
    case Link(target) => CleanupEntry(relative, local, Symlink, 0, 0, None, Some(target), false, false)
    case _ => CleanupEntry(relative, local, Directory, 0, 0, None, None, false, false)
  }

  function RelativeName(source: Path, name: Path, p: Path): Path
    requires source <= p
  {
    name + p[|source|..]
  }

  predicate Distinct(ledger: Ledger) {
    forall i, j | 0 <= i < j < |ledger| :: ledger[i].localPath != ledger[j].localPath
  }

  predicate DeepestFirst(ledger: Ledger) {
    forall i, j | 0 <= i < j < |ledger| :: |ledger[i].localPath| >= |ledger[j].localPath|
  }

  predicate NamesPath(ledger: Ledger, p: Path) {
    exists i | 0 <= i < |ledger| :: ledger[i].localPath == p
  }

  /** The walk below a source: every path once, in any order. */
  ghost predicate WalkOf(fs: Files, source: Path, walk: seq<Path>) {
    && NoRepeats(walk)
    && (forall p :: p in walk <==> p in fs && source < p)
  }

  /** Does the walk record this path?  Devices, sockets and pipes below the source are skipped. */
  predicate Recorded(fs: Files, source: Path, p: Path) {
    p in fs && source <= p && (p == source || !fs[p].Special?)
  }

  /** One unconfirmed entry for every recorded path, with its present identity, in deletion order. */
  ghost predicate Captures(fs: Files, source: Path, name: Path, entries: Ledger) {
    && LedgerOk(entries)
    && (forall i | 0 <= i < |entries| ::
          var p := entries[i].localPath;
          Recorded(fs, source, p) && entries[i] == EntryFor(fs[p], RelativeName(source, name, p), p))
    && (forall p | Recorded(fs, source, p) :: NamesPath(entries, p))
  }

  // ---- the stable sort by depth

  function Insert(e: CleanupEntry, ledger: Ledger): Ledger {
    if ledger == [] || |e.localPath| >= |ledger[0].localPath| then [e] + ledger
    else [ledger[0]] + Insert(e, ledger[1..])
  }

  function SortDeepestFirst(ledger: Ledger): Ledger {
    if ledger == [] then [] else Insert(ledger[0], SortDeepestFirst(ledger[1..]))
  }

  lemma {:induction false} InsertKeeps(e: CleanupEntry, ledger: Ledger)
    ensures |Insert(e, ledger)| == |ledger| + 1 && forall x :: x in Insert(e, ledger) <==> x == e || x in ledger
  {
    if ledger != [] && |e.localPath| < |ledger[0].localPath| {
      InsertKeeps(e, ledger[1..]);
      assert ledger == [ledger[0]] + ledger[1..];
    }
  }

  /** Every entry differs from the head in its path and is no deeper. */
  predicate Below(head: CleanupEntry, rest: Ledger) {
    forall i | 0 <= i < |rest| :: |rest[i].localPath| <= |head.localPath| && rest[i].localPath != head.localPath
  }

  lemma ConsSorts(head: CleanupEntry, rest: Ledger)
    requires DeepestFirst(rest) && Distinct(rest) && Below(head, rest)
    ensures DeepestFirst([head] + rest) && Distinct([head] + rest)
  {}

  lemma {:induction false} InsertSorts(e: CleanupEntry, ledger: Ledger)
    requires DeepestFirst(ledger) && Distinct(ledger) && !NamesPath(ledger, e.localPath)
    ensures DeepestFirst(Insert(e, ledger)) && Distinct(Insert(e, ledger))
  {
    if ledger != [] && |e.localPath| < |ledger[0].localPath| {
      InsertSorts(e, ledger[1..]);
      InsertKeeps(e, ledger[1..]);
      var rest := Insert(e, ledger[1..]);
      forall i | 0 <= i < |rest| ensures |rest[i].localPath| <= |ledger[0].localPath| && rest[i].localPath != ledger[0].localPath {
        assert rest[i] in rest;
        if rest[i] != e { var j :| 0 <= j < |ledger[1..]| && ledger[1..][j] == rest[i]; }
      }
      ConsSorts(ledger[0], rest);
    } else {
      ConsSorts(e, ledger);
    }
  }

  lemma {:induction false} SortSorts(ledger: Ledger)
    requires Distinct(ledger)
    ensures var r := SortDeepestFirst(ledger);
      DeepestFirst(r) && Distinct(r) && |r| == |ledger| && forall x :: x in r <==> x in ledger
  {
    if ledger != [] {
      SortSorts(ledger[1..]);
      var rest := SortDeepestFirst(ledger[1..]);
      forall i | 0 <= i < |rest| ensures rest[i].localPath != ledger[0].localPath {
        assert rest[i] in ledger[1..];
        var j :| 0 <= j < |ledger[1..]| && ledger[1..][j] == rest[i];
      }
      InsertSorts(ledger[0], rest);
      InsertKeeps(ledger[0], rest);
      assert ledger == [ledger[0]] + ledger[1..];
    }
  }

  predicate AllBelow(source: Path, walked: seq<Path>) {
    forall i | 0 <= i < |walked| :: source < walked[i]
  }

  /** The leaves among the paths walked, as entries. */
  function LeafEntries(fs: Files, source: Path, name: Path, walked: seq<Path>): Ledger
    requires AllBelow(source, walked)
    decreases |walked|
  {
    if walked == [] then []
    else
      var p := walked[|walked| - 1];
      var before := LeafEntries(fs, source, name, walked[..|walked| - 1]);
      if IsLeaf(fs, p) then before + [EntryFor(fs[p], RelativeName(source, name, p), p)] else before
  }

  /** The source and the directories among the paths walked. */
  function DirsOf(fs: Files, source: Path, walked: seq<Path>): seq<Path>
    decreases |walked|
  {
    if walked == [] then [source]
    else
      var p := walked[|walked| - 1];
      var before := DirsOf(fs, source, walked[..|walked| - 1]);
      if p in fs && fs[p].Dir? then before + [p] else before
  }

  /** The walk: leaves become entries at once, directories are kept for later. */
  method WalkSource(fs: Files, source: Path, name: Path, walk: seq<Path>) returns (entries: Ledger, dirs: seq<Path>)
    requires AllBelow(source, walk) && forall p | p in walk :: p in fs
    ensures entries == LeafEntries(fs, source, name, walk) && dirs == DirsOf(fs, source, walk)
  {
    entries, dirs := [], [source];
    for k := 0 to |walk|
      invariant entries == LeafEntries(fs, source, name, walk[..k]) && dirs == DirsOf(fs, source, walk[..k])
    {
      var path := walk[k];
      assert path in walk && walk[..k + 1][..k] == walk[..k];
      if fs[path].Dir? {
        dirs := dirs + [path];
      } else if !fs[path].Special? {
        entries := entries + [EntryFor(fs[path], RelativeName(source, name, path), path)];
      }
    }
    assert walk[..|walk|] == walk;
  }

  /** The directories, last first. */
  method PushDirectories(fs: Files, source: Path, name: Path, leaves: Ledger, dirs: seq<Path>) returns (entries: Ledger)
    requires forall d | d in dirs :: d in fs && source <= d
    ensures entries == leaves + Reversed(fs, source, name, dirs, |dirs|)
  {
    entries := leaves;
    for k := 0 to |dirs|
      invariant entries == leaves + Reversed(fs, source, name, dirs, k)
    {
      entries := entries + [DirectoryEntry(fs, source, name, dirs[|dirs| - 1 - k])];
    }
  }

  /** `capture_cleanup_identity`: leaves while walking, then the directories in reverse, then the sort. */
  method CaptureCleanupIdentity(fs: Files, source: Path, name: Path, walk: seq<Path>) returns (entries: Ledger)
    requires Closed(fs) && PlainTree(fs) && source in fs && source != [] && WalkOf(fs, source, walk)
    ensures Captures(fs, source, name, entries)
  {
    if fs[source].File? || fs[source].Link? {
      LeafCaptured(fs, source, name);
      return [EntryFor(fs[source], name, source)];
    }
    AllPushed(fs, source, name, walk);
    var leaves, dirs := WalkSource(fs, source, name, walk);
    entries := PushDirectories(fs, source, name, leaves, dirs);
    UnsortedCaptures(fs, source, name, walk, leaves, dirs, entries);
    entries := SortDeepestFirst(entries);
  }

  lemma LeafCaptured(fs: Files, source: Path, name: Path)
    requires Closed(fs) && PlainTree(fs) && IsLeaf(fs, source) && source != []
    ensures Captures(fs, source, name, [EntryFor(fs[source], name, source)])
  {
    var entries := [EntryFor(fs[source], name, source)];
    LeafIsAlone(fs, source);
    assert RelativeName(source, name, source) == name;
    assert entries[0].localPath == source;
  }

  lemma UnsortedCaptures(fs: Files, source: Path, name: Path, walk: seq<Path>, leaves: Ledger, dirs: seq<Path>, all: Ledger)
    requires Closed(fs) && PlainTree(fs) && source != [] && WalkOf(fs, source, walk) && source in fs && !IsLeaf(fs, source)
    requires LeavesPushed(fs, source, name, walk, leaves) && DirsPushed(fs, source, walk, dirs)
    requires all == leaves + Reversed(fs, source, name, dirs, |dirs|)
    ensures Captures(fs, source, name, SortDeepestFirst(all))
  {
    AllRecorded(fs, source, name, walk, leaves, dirs, all);
    SortSorts(all);
    SortedCaptures(fs, source, name, all, SortDeepestFirst(all));
  }

  lemma AllPushed(fs: Files, source: Path, name: Path, walk: seq<Path>)
    requires source in fs && WalkOf(fs, source, walk)
    ensures AllBelow(source, walk) && forall p | p in walk :: p in fs
    ensures LeavesPushed(fs, source, name, walk, LeafEntries(fs, source, name, walk))
    ensures DirsPushed(fs, source, walk, DirsOf(fs, source, walk))
    ensures forall d | d in DirsOf(fs, source, walk) :: d in fs && source <= d
  {
    forall i | 0 <= i < |walk| ensures source < walk[i] { assert walk[i] in walk; }
    LeavesArePushed(fs, source, name, walk);
    DirsArePushed(fs, source, walk);
  }

  predicate NoRepeats(walked: seq<Path>) {
    forall i, j | 0 <= i < j < |walked| :: walked[i] != walked[j]
  }

  lemma {:induction false} LeavesArePushed(fs: Files, source: Path, name: Path, walked: seq<Path>)
    requires NoRepeats(walked) && AllBelow(source, walked)
    ensures LeavesPushed(fs, source, name, walked, LeafEntries(fs, source, name, walked))
    decreases |walked|
  {
    if walked != [] {
      var init, p := walked[..|walked| - 1], walked[|walked| - 1];
      assert walked == init + [p] && p in walked && forall q | q in init :: q in walked;
      assert p !in init;
      LeavesArePushed(fs, source, name, init);
      LeafPushKeeps(fs, source, name, init, p, LeafEntries(fs, source, name, init));
    }
  }

  lemma {:induction false} DirsArePushed(fs: Files, source: Path, walked: seq<Path>)
    requires source in fs && NoRepeats(walked) && AllBelow(source, walked)
    ensures DirsPushed(fs, source, walked, DirsOf(fs, source, walked))
    decreases |walked|
  {
    if walked != [] {
      var init, p := walked[..|walked| - 1], walked[|walked| - 1];
      assert walked == init + [p] && p in walked && forall q | q in init :: q in walked;
      assert p !in init;
      DirsArePushed(fs, source, init);
      DirPushKeeps(fs, source, init, p, DirsOf(fs, source, init));
    }
  }

  lemma LeafIsAlone(fs: Files, source: Path)
    requires Closed(fs) && source in fs && !fs[source].Dir?
    ensures forall p | p in fs && source <= p :: p == source
  {
    forall p | p in fs && source <= p ensures p == source {
      if source < p { NoChildNoDescendant(fs, source, p); }
    }
  }

  /** The leaves the walk has pushed so far. */
  ghost predicate LeavesPushed(fs: Files, source: Path, name: Path, walked: seq<Path>, entries: Ledger) {
    && Distinct(entries)
    && (forall i | 0 <= i < |entries| ::
          var p := entries[i].localPath;
          p in walked && IsLeaf(fs, p) && source <= p && entries[i] == EntryFor(fs[p], RelativeName(source, name, p), p))
    && (forall p | p in walked && IsLeaf(fs, p) :: NamesPath(entries, p))
  }

  /** The source and the directories the walk has pushed so far. */
  ghost predicate DirsPushed(fs: Files, source: Path, walked: seq<Path>, dirs: seq<Path>) {
    && (forall i, j | 0 <= i < j < |dirs| :: dirs[i] != dirs[j])
    && (forall d | d in dirs :: d in fs && (d == source || (d in walked && source < d && fs[d].Dir?)))
    && source in dirs
    && (forall p | p in walked && p in fs && fs[p].Dir? :: p in dirs)
  }

  predicate IsLeaf(fs: Files, p: Path) {
    p in fs && (fs[p].File? || fs[p].Link?)
  }

  lemma LeafPushKeeps(fs: Files, source: Path, name: Path, walked: seq<Path>, p: Path, entries: Ledger)
    requires LeavesPushed(fs, source, name, walked, entries) && p !in walked && source < p
    ensures LeavesPushed(fs, source, name, walked + [p],
              if IsLeaf(fs, p) then entries + [EntryFor(fs[p], RelativeName(source, name, p), p)] else entries)
  {
    if IsLeaf(fs, p) {
      var entry := EntryFor(fs[p], RelativeName(source, name, p), p);
      forall q | q in walked + [p] && IsLeaf(fs, q) ensures NamesPath(entries + [entry], q) {
        NamesOneMore(entries, entry, q);
      }
    }
  }

  lemma NamesOneMore(entries: Ledger, entry: CleanupEntry, p: Path)
    ensures NamesPath(entries, p) || entry.localPath == p ==> NamesPath(entries + [entry], p)
  {
    if i :| 0 <= i < |entries| && entries[i].localPath == p { assert (entries + [entry])[i].localPath == p; }
    if entry.localPath == p { assert (entries + [entry])[|entries|].localPath == p; }
  }

  lemma DirPushKeeps(fs: Files, source: Path, walked: seq<Path>, p: Path, dirs: seq<Path>)
    requires DirsPushed(fs, source, walked, dirs) && p !in walked && source < p
    ensures DirsPushed(fs, source, walked + [p], if p in fs && fs[p].Dir? then dirs + [p] else dirs)
  {
    assert p !in dirs;
    assert source in dirs + [p];
  }

  /** The last k directories, last first, as entries. */
  function Reversed(fs: Files, source: Path, name: Path, dirs: seq<Path>, k: nat): (r: Ledger)
    requires k <= |dirs| && forall d | d in dirs :: d in fs && source <= d
    ensures |r| == k && forall i | 0 <= i < k :: r[i] == DirectoryEntry(fs, source, name, dirs[|dirs| - 1 - i])
  {
    seq(k, i requires 0 <= i < k => DirectoryEntry(fs, source, name, dirs[|dirs| - 1 - i]))
  }

  function DirectoryEntry(fs: Files, source: Path, name: Path, d: Path): (e: CleanupEntry)
    requires d in fs && source <= d
    ensures e.localPath == d
  {
    EntryFor(fs[d], RelativeName(source, name, d), d)
  }

  lemma AllRecorded(fs: Files, source: Path, name: Path, walk: seq<Path>, leaves: Ledger, dirs: seq<Path>, all: Ledger)
    requires WalkOf(fs, source, walk) && source in fs && !IsLeaf(fs, source)
    requires LeavesPushed(fs, source, name, walk, leaves) && DirsPushed(fs, source, walk, dirs)
    requires all == leaves + Reversed(fs, source, name, dirs, |dirs|)
    ensures Distinct(all)
    ensures forall i | 0 <= i < |all| :: var p := all[i].localPath;
      Recorded(fs, source, p) && all[i] == EntryFor(fs[p], RelativeName(source, name, p), p)
    ensures forall p | Recorded(fs, source, p) :: NamesPath(all, p)
  {
    var n := |leaves|;
    forall i | n <= i < |all|
      ensures all[i].localPath == dirs[|dirs| - 1 - (i - n)] && all[i] == DirectoryEntry(fs, source, name, all[i].localPath)
      ensures all[i].localPath in dirs
    {
      assert all[i] == Reversed(fs, source, name, dirs, |dirs|)[i - n];
    }
    forall i | 0 <= i < n ensures all[i].localPath !in dirs && all[i] == leaves[i] {}
    forall p | Recorded(fs, source, p) ensures NamesPath(all, p) {
      if p in dirs {
        var d :| 0 <= d < |dirs| && dirs[d] == p;
        var i := n + (|dirs| - 1 - d);
        assert all[i].localPath == dirs[|dirs| - 1 - (i - n)];
      } else {
        assert p != source && source < p;
        assert p in walk;
        var i :| 0 <= i < n && leaves[i].localPath == p;
        assert all[i].localPath == p;
      }
    }
  }

  lemma SortedCaptures(fs: Files, source: Path, name: Path, all: Ledger, entries: Ledger)
    requires Closed(fs) && PlainTree(fs) && source != []
    requires forall i | 0 <= i < |all| :: var p := all[i].localPath;
      Recorded(fs, source, p) && all[i] == EntryFor(fs[p], RelativeName(source, name, p), p)
    requires forall p | Recorded(fs, source, p) :: NamesPath(all, p)
    requires DeepestFirst(entries) && Distinct(entries) && forall x :: x in entries <==> x in all
    ensures Captures(fs, source, name, entries)
  {
    forall i | 0 <= i < |entries| ensures var p := entries[i].localPath;
      Recorded(fs, source, p) && entries[i] == EntryFor(fs[p], RelativeName(source, name, p), p)
    {
      assert entries[i] in all;
    }
    forall p | Recorded(fs, source, p) ensures NamesPath(entries, p) {
      var i :| 0 <= i < |all| && all[i].localPath == p;
      assert all[i] in entries;
    }
    forall i, j | 0 <= i < |entries| && 0 <= j < |entries| && entries[i].localPath < entries[j].localPath
      ensures entries[i].kind == Directory
    {
      NoChildNoDescendant(fs, entries[i].localPath, entries[j].localPath);
    }
  }

  function AllConfirmed(ledger: Ledger): (r: Ledger)
    ensures |r| == |ledger|
  {
    seq(|ledger|, i requires 0 <= i < |ledger| => ledger[i].(confirmed := true))
  }
}

/** The client's source tree, how a path leads into it, and the ledger entries that say what may be deleted. */
module SourceFiles {
  import opened Records
  import opened PathText

  /** What lstat and a content hash reveal about an entry; `Special` is a device, socket or pipe. */
  datatype Node = File(size: nat, mtime: int, sha: string) | Link(target: string) | Dir | Special

  type Files = map<Path, Node>

  /** `localPath` is the path below the directory that holds the source: its name, and what follows. */
  datatype CleanupEntry = CleanupEntry(
    relativePath: Path,
    localPath: Path,
    kind: EntryKind,
    size: nat,
    mtime: int,
    sha: Option<string>,
    linkTarget: Option<string>,
    confirmed: bool,
    cleaned: bool)

  type Ledger = seq<CleanupEntry>

  function Parent(p: Path): Path
    requires p != []
  {
    p[..|p| - 1]
  }

  /** Every entry lies in a directory. */
  ghost predicate Closed(fs: Files) {
    forall p | p in fs && p != [] :: Parent(p) in fs && fs[Parent(p)].Dir?
  }

  predicate HasChild(fs: Files, p: Path) {
    exists q | q in fs :: q != [] && Parent(q) == p
  }

  // ---- where a path leads

  datatype Lookup = Found(place: Path, node: Node) | NotFound | Blocked

  /** The most symlinks one path resolution follows. */
  const MAX_LINKS: nat := 40

  /** Path resolution, component by component from a directory.  Symlinks on the way are followed, the last
      component only on request; anything else in the way is ENOTDIR, too many links are ELOOP. */
  function Walk(fs: Files, at: Path, rest: Path, follow: bool, links: nat): Lookup
    decreases links, |rest|
  {
    if rest == [] then if at in fs then Found(at, fs[at]) else NotFound
    else if rest[0] == "." then Walk(fs, at, rest[1..], follow, links)
    else if rest[0] == ".." then Walk(fs, if at == [] then [] else Parent(at), rest[1..], follow, links)
    else
      var q := at + [rest[0]];
      if q !in fs then NotFound
      else if fs[q].Dir? then Walk(fs, q, rest[1..], follow, links)
      else if |rest| == 1 && !(fs[q].Link? && follow) then Found(q, fs[q])
      else if !fs[q].Link? || links == 0 then Blocked
      else if fs[q].target == "" then NotFound
      else Walk(fs, if fs[q].target[0] == '/' then [] else at, Components(fs[q].target) + rest[1..], follow, links - 1)
  }

  /** The directory that holds a source, as a process finds it: there, missing, or behind something that
      is not a directory. */
  datatype Base = Standing(dir: Path) | Gone | Barred

  /** An operand's directory part: relative to the working directory, unless it starts at the root. */
  function BaseOf(fs: Files, cwd: Path, parent: Path): Base {
    match (if parent != [] && parent[0] == "/" then Walk(fs, [], parent[1..], true, MAX_LINKS)
           else Walk(fs, cwd, parent, true, MAX_LINKS))
    case Found(dir, node) => if node.Dir? then Standing(dir) else Barred
    case NotFound => Gone
    case Blocked => Barred
  }

  /** Where the path of an entry leads: lstat. */
  function Look(fs: Files, base: Base, local: Path): Lookup {
    match base
    case Standing(dir) => Walk(fs, dir, local, false, MAX_LINKS)
    case Gone => NotFound
    case Barred => Blocked
  }

  /** Names that mean themselves. */
  predicate PlainPath(p: Path) {
    forall i | 0 <= i < |p| :: p[i] != "." && p[i] != ".."
  }

  /** Some proper ancestor is a symlink. */
  predicate LinkAbove(fs: Files, p: Path) {
    exists k | 0 <= k < |p| :: p[..k] in fs && fs[p[..k]].Link?
  }

  predicate BlockedAt(fs: Files, p: Path, k: nat)
    requires k <= |p|
  {
    p[..k] in fs && !fs[p[..k]].Dir?
  }

  /** The path taken literally: no symlink followed. */
  function Literally(fs: Files, p: Path): Lookup {
    if p in fs then Found(p, fs[p])
    else if exists k | 0 <= k < |p| :: BlockedAt(fs, p, k) then Blocked
    else NotFound
  }

  lemma {:induction false} AncestorsAreThere(fs: Files, p: Path, k: nat)
    requires Closed(fs) && p in fs && k <= |p|
    ensures p[..k] in fs && (k < |p| ==> fs[p[..k]].Dir?)
    decreases |p| - k
  {
    if k < |p| {
      AncestorsAreThere(fs, p, k + 1);
      assert Parent(p[..k + 1]) == p[..k];
    } else {
      assert p[..k] == p;
    }
  }

  lemma NoChildNoDescendant(fs: Files, p: Path, q: Path)
    requires Closed(fs) && q in fs && p < q
    ensures HasChild(fs, p) && p in fs && fs[p].Dir?
  {
    AncestorsAreThere(fs, q, |p| + 1);
    AncestorsAreThere(fs, q, |p|);
    assert q[..|p|] == p;
    assert Parent(q[..|p| + 1]) == p;
  }

  lemma {:induction false} FoundIsThere(fs: Files, at: Path, rest: Path, follow: bool, links: nat)
    ensures var r := Walk(fs, at, rest, follow, links); r.Found? ==> r.place in fs && fs[r.place] == r.node
    decreases links, |rest|
  {
    if rest == [] {
    } else if rest[0] == "." {
      FoundIsThere(fs, at, rest[1..], follow, links);
    } else if rest[0] == ".." {
      FoundIsThere(fs, if at == [] then [] else Parent(at), rest[1..], follow, links);
    } else {
      var q := at + [rest[0]];
      if q in fs && fs[q].Dir? {
        FoundIsThere(fs, q, rest[1..], follow, links);
      } else if q in fs && fs[q].Link? && !(|rest| == 1 && !follow) && links > 0 && fs[q].target != "" {
        FoundIsThere(fs, if fs[q].target[0] == '/' then [] else at, Components(fs[q].target) + rest[1..], follow, links - 1);
      }
    }
  }

  /** Without a symlink above it, a plain path leads where it says, or nowhere. */
  lemma {:induction false} StraightWalk(fs: Files, at: Path, rest: Path, links: nat)
    requires Closed(fs) && at in fs && fs[at].Dir? && PlainPath(rest) && !LinkAbove(fs, at + rest)
    ensures Walk(fs, at, rest, false, links) == Literally(fs, at + rest)
    decreases |rest|
  {
    var p := at + rest;
    if rest == [] {
      assert p == at;
    } else {
      var q := at + [rest[0]];
      assert p[..|q|] == q;
      if q in fs && fs[q].Dir? {
        assert q + rest[1..] == p;
        assert PlainPath(rest[1..]);
        StraightWalk(fs, q, rest[1..], links);
      } else if q in fs {
        if |rest| == 1 { assert q == p; } else { InTheWay(fs, p, |q|); }
      } else {
        NothingInTheWay(fs, at, rest);
      }
    }
  }

  lemma InTheWay(fs: Files, p: Path, k: nat)
    requires Closed(fs) && k < |p| && BlockedAt(fs, p, k)
    ensures Literally(fs, p) == Blocked
  {
    if p in fs { AncestorsAreThere(fs, p, k); }
  }

  lemma NothingInTheWay(fs: Files, at: Path, rest: Path)
    requires Closed(fs) && at in fs && fs[at].Dir? && rest != [] && at + [rest[0]] !in fs
    ensures Literally(fs, at + rest) == NotFound
  {
    var p := at + rest;
    forall k | 0 <= k <= |p| ensures p[..k] in fs ==> k <= |at| && fs[p[..k]].Dir? {
      if k > |at| {
        assert p[..k][..|at| + 1] == at + [rest[0]];
        if p[..k] in fs { AncestorsAreThere(fs, p[..k], |at| + 1); }
      } else {
        AncestorsAreThere(fs, at, k);
        assert at[..k] == p[..k];
      }
    }
    assert p[..|p|] == p;
  }

  /** What is there has no symlink above it, so its own path leads to it. */
  lemma PresentIsStraight(fs: Files, p: Path)
    requires Closed(fs) && p in fs
    ensures !LinkAbove(fs, p)
  {
    forall k | 0 <= k < |p| ensures p[..k] in fs && fs[p[..k]].Dir? { AncestorsAreThere(fs, p, k); }
  }

  lemma PresentIsFound(fs: Files, dir: Path, local: Path)
    requires Closed(fs) && PlainPath(local) && dir + local in fs && (local != [] || fs[dir + local].Dir?)
    ensures Look(fs, Standing(dir), local) == Found(dir + local, fs[dir + local])
  {
    var p := dir + local;
    AncestorsAreThere(fs, p, |dir|);
    assert p[..|dir|] == dir;
    if local == [] { assert p == dir; }
    PresentIsStraight(fs, p);
    StraightWalk(fs, dir, local, MAX_LINKS);
  }

  /** A path that leads to something leads to the place it names exactly when no symlink lies above that place. */
  lemma LeadsStraightIff(fs: Files, dir: Path, local: Path)
    requires Closed(fs) && dir in fs && fs[dir].Dir? && PlainPath(local) && Look(fs, Standing(dir), local).Found?
    ensures Look(fs, Standing(dir), local).place == dir + local <==> !LinkAbove(fs, dir + local)
  {
    var p := dir + local;
    if !LinkAbove(fs, p) {
      StraightWalk(fs, dir, local, MAX_LINKS);
    } else {
      FoundIsThere(fs, dir, local, false, MAX_LINKS);
      if Look(fs, Standing(dir), local).place == p { PresentIsStraight(fs, p); }
    }
  }

  // ---- ledgers

  /** Kind and identity as captured; directories carry no identity. */
  predicate Matches(e: CleanupEntry, node: Node) {
    match e.kind
    case Directory => false
    case Symlink => node.Link? && e.linkTarget == Some(node.target)
    case RegularFile => node.File? && node.size == e.size && node.mtime == e.mtime && e.sha == Some(node.sha)
  }

  predicate Eligible(e: CleanupEntry) {
    e.confirmed && !e.cleaned
  }

  /** Entries have plain paths, are distinct and deepest first; whatever lies above one is a directory entry. */
  ghost predicate LedgerOk(ledger: Ledger) {
    && (forall i | 0 <= i < |ledger| :: ledger[i].localPath != [] && PlainPath(ledger[i].localPath))
    && (forall i, j | 0 <= i < j < |ledger| :: ledger[i].localPath != ledger[j].localPath)
    && (forall i, j | 0 <= i < j < |ledger| :: |ledger[i].localPath| >= |ledger[j].localPath|)
    && (forall i, j | 0 <= i < |ledger| && 0 <= j < |ledger| ::
          ledger[i].localPath < ledger[j].localPath ==> ledger[i].kind == Directory)
  }
}

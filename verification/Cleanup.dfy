/** One cleanup pass over a ledger, and why it may be interrupted anywhere. */
module Cleanup {
  import opened Records
  import opened SourceFiles

  /** The source tree, the ledger as it is on disk, and the directory that its paths start from. */
  datatype Work = Work(fs: Files, base: Base, ledger: Ledger)

  // ---- one iteration of the pass: k < n visits files and symlinks, n <= k < 2n visits directories

  function IndexOf(n: nat, k: nat): nat
    requires k < 2 * n
    ensures IndexOf(n, k) < n
  {
    if k < n then k else k - n
  }

  /** Where an entry's path leads. */
  function Target(w: Work, i: nat): Lookup
    requires i < |w.ledger|
  {
    Look(w.fs, w.base, w.ledger[i].localPath)
  }

  /** `try_clean_entry`: gone already, or unchanged and hence removed. */
  predicate CleansLeaf(fs: Files, base: Base, e: CleanupEntry) {
    match Look(fs, base, e.localPath)
    case NotFound => true
    case Blocked => false
    case Found(_, node) => Matches(e, node)
  }

  /** `can_remove_directory`: every child on disk is tracked under the directory's path, and cleaned or
      unconfirmed.  A symlink in the directory's place is left to remove_dir, which refuses it. */
  predicate CanRemoveDirectory(fs: Files, base: Base, ledger: Ledger, local: Path) {
    match Look(fs, base, local)
    case NotFound => true
    case Blocked => false
    case Found(place, node) =>
      node.Dir? && forall q | q in fs && q != [] && Parent(q) == place ::
        exists e | e in ledger :: e.localPath == local + [q[|q| - 1]] && (e.cleaned || !e.confirmed)
  }

  /** remove_dir succeeds on an empty directory; a missing one counts as removed. */
  predicate RemoveDirOk(fs: Files, base: Base, local: Path) {
    match Look(fs, base, local)
    case NotFound => true
    case Blocked => false
    case Found(place, node) => node.Dir? && !HasChild(fs, place)
  }

  /** Does iteration k set the entry's `cleaned` flag? */
  predicate Cleans(w: Work, k: nat)
    requires k < 2 * |w.ledger|
  {
    var e := w.ledger[IndexOf(|w.ledger|, k)];
    && Eligible(e)
    && (if k < |w.ledger| then e.kind != Directory && CleansLeaf(w.fs, w.base, e)
        else e.kind == Directory && CanRemoveDirectory(w.fs, w.base, w.ledger, e.localPath) && RemoveDirOk(w.fs, w.base, e.localPath))
  }

  /** What is left when the entry at the end of a path, if there is one, is unlinked. */
  function Unlinked(fs: Files, target: Lookup): Files {
    if target.Found? then fs - {target.place} else fs
  }

  /** Iteration k after its deletion and before its ledger write. */
  function Torn(w: Work, k: nat): Work
    requires k < 2 * |w.ledger|
  {
    if Cleans(w, k) then w.(fs := Unlinked(w.fs, Target(w, IndexOf(|w.ledger|, k)))) else w
  }

  function Mark(ledger: Ledger, i: nat): Ledger
    requires i < |ledger|
  {
    ledger[i := ledger[i].(cleaned := true)]
  }

  function Iterate(w: Work, k: nat): Work
    requires k < 2 * |w.ledger|
    ensures |Iterate(w, k).ledger| == |w.ledger| && Iterate(w, k).base == w.base
  {
    if Cleans(w, k) then Torn(w, k).(ledger := Mark(w.ledger, IndexOf(|w.ledger|, k))) else w
  }

  /** The first k iterations. */
  function Iterations(w: Work, k: nat): (r: Work)
    requires k <= 2 * |w.ledger|
    ensures |r.ledger| == |w.ledger| && r.base == w.base
  {
    if k == 0 then w else Iterate(Iterations(w, k - 1), k - 1)
  }

  function Pass(w: Work): Work {
    Iterations(w, 2 * |w.ledger|)
  }

  /** What every iteration keeps, or moves on by one, holds after any number of them. */
  lemma {:induction false} IterationsInduct(w: Work, k: nat, P: (Work, nat) -> bool)
    requires k <= 2 * |w.ledger| && P(w, 0)
    requires forall u: Work, j: nat | |u.ledger| == |w.ledger| && j < 2 * |u.ledger| && P(u, j) :: P(Iterate(u, j), j + 1)
    ensures P(Iterations(w, k), k)
  {
    if k > 0 { IterationsInduct(w, k - 1, P); }
  }

  /** The same for one pass: only the iterations that happen matter. */
  lemma {:induction false} PassInduct(w: Work, k: nat, P: (Work, nat) -> bool)
    requires k <= 2 * |w.ledger| && P(w, 0)
    requires forall j: nat | j < 2 * |w.ledger| && P(Iterations(w, j), j) :: P(Iterate(Iterations(w, j), j), j + 1)
    ensures P(Iterations(w, k), k)
  {
    if k > 0 {
      PassInduct(w, k - 1, P);
      assert P(Iterate(Iterations(w, k - 1), k - 1), k);
    }
  }

  // ---- what a pass amounts to, without iterations

  ghost predicate WorkOk(w: Work) {
    Closed(w.fs) && LedgerOk(w.ledger) && w.base.Standing?
  }

  /** The place that an entry names. */
  function Place(w: Work, i: nat): Path
    requires w.base.Standing? && i < |w.ledger|
  {
    w.base.dir + w.ledger[i].localPath
  }

  /** An unchanged file or symlink that some confirmed entry names. */
  ghost predicate LeafDoomed(w: Work, p: Path)
    requires w.base.Standing?
  {
    p in w.fs && exists i | 0 <= i < |w.ledger| ::
      Place(w, i) == p && Eligible(w.ledger[i]) && w.ledger[i].kind != Directory && Matches(w.ledger[i], w.fs[p])
  }

  /** A directory that some confirmed entry names as a directory. */
  ghost predicate TrackedDir(w: Work, p: Path)
    requires w.base.Standing?
  {
    p in w.fs && w.fs[p].Dir? && exists i | 0 <= i < |w.ledger| ::
      Place(w, i) == p && Eligible(w.ledger[i]) && w.ledger[i].kind == Directory
  }

  /** Due to go: an unchanged file or symlink, or a tracked directory below which everything is either. */
  ghost predicate Doomed(w: Work, p: Path)
    requires w.base.Standing?
  {
    || LeafDoomed(w, p)
    || (TrackedDir(w, p) && forall q | q in w.fs && p < q :: LeafDoomed(w, q) || TrackedDir(w, q))
  }

  ghost function Survivors(w: Work): Files
    requires w.base.Standing?
  {
    map p | p in w.fs && !Doomed(w, p) :: w.fs[p]
  }

  /** The flag an entry ends with: already set, or confirmed and its place due to go or not there. */
  ghost predicate Flag(w: Work, i: nat)
    requires w.base.Standing? && i < |w.ledger|
  {
    var e := w.ledger[i];
    e.cleaned || (e.confirmed && (Doomed(w, Place(w, i)) || Literally(w.fs, Place(w, i)) == NotFound))
  }

  ghost function Flags(w: Work): Ledger
    requires w.base.Standing?
  {
    seq(|w.ledger|, i requires 0 <= i < |w.ledger| => w.ledger[i].(cleaned := Flag(w, i)))
  }

  ghost function Final(w: Work): Work
    requires w.base.Standing?
  {
    Work(Survivors(w), w.base, Flags(w))
  }

  lemma PlacesDiffer(w: Work, i: nat, j: nat)
    requires WorkOk(w) && i < |w.ledger| && j < |w.ledger| && Place(w, i) == Place(w, j)
    ensures i == j
  {
    var d := |w.base.dir|;
    assert Place(w, i)[d..] == w.ledger[i].localPath && Place(w, j)[d..] == w.ledger[j].localPath;
  }

  lemma PlaceAbove(w: Work, i: nat, j: nat)
    requires WorkOk(w) && i < |w.ledger| && j < |w.ledger| && Place(w, i) < Place(w, j)
    ensures w.ledger[i].localPath < w.ledger[j].localPath && w.ledger[i].kind == Directory
    ensures |w.ledger[i].localPath| < |w.ledger[j].localPath|
  {
    var d := |w.base.dir|;
    var p, q := Place(w, i), Place(w, j);
    assert p[d..] == w.ledger[i].localPath && q[d..] == w.ledger[j].localPath;
    assert q[..|p|] == p && q[d..][..|p| - d] == p[d..];
  }

  // ---- one deletion, or one mark, and what is due to go

  /** What is due to go and has nothing below it is deleted. */
  ghost predicate Deletes(w: Work, w': Work, p: Path) {
    w.base.Standing? && Doomed(w, p) && !HasChild(w.fs, p) && w' == w.(fs := w.fs - {p})
  }

  lemma DeletionKeepsDoom(w: Work, w': Work, p: Path, q: Path)
    requires Deletes(w, w', p) && q in w'.fs
    ensures Doomed(w', q) == Doomed(w, q)
  {
    assert forall i | 0 <= i < |w.ledger| :: Place(w', i) == Place(w, i);
    assert forall r | r in w'.fs :: LeafDoomed(w', r) == LeafDoomed(w, r) && TrackedDir(w', r) == TrackedDir(w, r);
  }

  /** Removing a childless path keeps every entry in a directory. */
  lemma RemovalKeepsClosed(fs: Files, p: Path)
    requires Closed(fs) && !HasChild(fs, p)
    ensures Closed(fs - {p})
  {
    var fs' := fs - {p};
    forall q | q in fs' && q != [] ensures Parent(q) in fs' && fs'[Parent(q)].Dir? {
      assert Parent(q) != p;
    }
  }

  lemma DeletionKeepsSurvivors(w: Work, w': Work, p: Path)
    requires WorkOk(w) && Deletes(w, w', p)
    ensures WorkOk(w') && Survivors(w') == Survivors(w)
  {
    RemovalKeepsClosed(w.fs, p);
    forall q | q in w'.fs ensures Doomed(w', q) == Doomed(w, q) { DeletionKeepsDoom(w, w', p, q); }
  }

  lemma MarkingKeepsTracking(w: Work, i: nat, q: Path)
    requires w.base.Standing? && i < |w.ledger| && q != Place(w, i)
    ensures var w' := w.(ledger := Mark(w.ledger, i)); LeafDoomed(w', q) == LeafDoomed(w, q) && TrackedDir(w', q) == TrackedDir(w, q)
  {
    var w' := w.(ledger := Mark(w.ledger, i));
    forall j | 0 <= j < |w.ledger| ensures Place(w', j) == Place(w, j) && (j != i ==> w'.ledger[j] == w.ledger[j]) {}
  }

  /** Marking an entry whose place is empty. */
  lemma MarkingKeepsSurvivors(w: Work, i: nat)
    requires WorkOk(w) && i < |w.ledger| && Place(w, i) !in w.fs
    ensures var w' := w.(ledger := Mark(w.ledger, i)); WorkOk(w') && Survivors(w') == Survivors(w)
    ensures var w' := w.(ledger := Mark(w.ledger, i)); forall q :: Doomed(w', q) == Doomed(w, q)
  {
    var w' := w.(ledger := Mark(w.ledger, i));
    forall q | q in w.fs ensures LeafDoomed(w', q) == LeafDoomed(w, q) && TrackedDir(w', q) == TrackedDir(w, q) {
      MarkingKeepsTracking(w, i, q);
    }
    forall q ensures Doomed(w', q) == Doomed(w, q) {}
  }
}

/** One pass over a source without symlinks above tracked places: the tree and the ledger it ends with. */
module CleanupFinal {
  import opened Records
  import opened SourceFiles
  import opened Cleanup
  import opened CleanupSurvivors

  // ---- a source without symlinks above tracked places

  /** No confirmed entry names a place below a symlink. */
  ghost predicate Unbent(w: Work) {
    w.base.Standing? && forall i | 0 <= i < |w.ledger| && Eligible(w.ledger[i]) :: !LinkAbove(w.fs, Place(w, i))
  }

  /** Then every path is what it looks like, and stays so. */
  ghost predicate Plain(w: Work) {
    WorkOk(w) && Unbent(w) && w.base.dir in w.fs && w.fs[w.base.dir].Dir?
  }

  lemma PlainTarget(w: Work, i: nat)
    requires Plain(w) && i < |w.ledger| && Eligible(w.ledger[i])
    ensures Target(w, i) == Literally(w.fs, Place(w, i))
  {
    StraightWalk(w.fs, w.base.dir, w.ledger[i].localPath, MAX_LINKS);
  }

  lemma RemovalKeepsUnbent(w: Work, w': Work, p: Path)
    requires Unbent(w) && w' == w.(fs := w.fs - {p})
    ensures Unbent(w')
  {
    forall i | 0 <= i < |w.ledger| && Eligible(w.ledger[i]) ensures !LinkAbove(w'.fs, Place(w', i)) {
      assert !LinkAbove(w.fs, Place(w, i)) && Place(w', i) == Place(w, i);
    }
  }

  lemma DeletedIsNotThere(w: Work, w': Work, p: Path)
    requires WorkOk(w) && Deletes(w, w', p)
    ensures Literally(w'.fs, p) == NotFound
  {
    forall k | 0 <= k < |p| ensures !BlockedAt(w'.fs, p, k) {
      AncestorsAreThere(w.fs, p, k);
    }
  }

  lemma DeletionKeepsLookup(w: Work, w': Work, p: Path, i: nat)
    requires WorkOk(w) && Deletes(w, w', p) && i < |w.ledger| && Place(w, i) != p
    ensures (Literally(w'.fs, Place(w', i)) == NotFound) == (Literally(w.fs, Place(w, i)) == NotFound)
  {
    var r := Place(w, i);
    assert Place(w', i) == r;
    forall k | 0 <= k < |r| ensures BlockedAt(w'.fs, r, k) == BlockedAt(w.fs, r, k) {
      if r[..k] == p {
        assert p < r;
        var j := DoomedIsNamed(w, p);
        PlaceAbove(w, j, i);
        if !w.fs[p].Dir? { LeafDoomedIsLeaf(w, j, p); }
      }
    }
  }

  lemma LeafDoomedIsLeaf(w: Work, j: nat, p: Path)
    requires WorkOk(w) && Doomed(w, p) && !w.fs[p].Dir? && j < |w.ledger| && Place(w, j) == p
    ensures w.ledger[j].kind != Directory
  {
    var l :| 0 <= l < |w.ledger| && Place(w, l) == p && w.ledger[l].kind != Directory;
    PlacesDiffer(w, j, l);
  }

  lemma DeletionKeepsFinal(w: Work, w': Work, p: Path)
    requires WorkOk(w) && Deletes(w, w', p)
    ensures WorkOk(w') && Final(w') == Final(w)
  {
    DeletionKeepsSurvivors(w, w', p);
    DeletedIsNotThere(w, w', p);
    forall i | 0 <= i < |w.ledger| ensures Flag(w', i) == Flag(w, i) {
      assert Place(w', i) == Place(w, i);
      if Place(w, i) != p {
        DeletionKeepsLookup(w, w', p, i);
        if Place(w, i) in w'.fs { DeletionKeepsDoom(w, w', p, Place(w, i)); }
      }
    }
    assert Flags(w') == Flags(w);
  }

  lemma MarkingKeepsFinal(w: Work, i: nat)
    requires WorkOk(w) && i < |w.ledger| && Eligible(w.ledger[i]) && Literally(w.fs, Place(w, i)) == NotFound
    ensures var w' := w.(ledger := Mark(w.ledger, i)); WorkOk(w') && Final(w') == Final(w)
  {
    var w' := w.(ledger := Mark(w.ledger, i));
    MarkingKeepsSurvivors(w, i);
    forall j | 0 <= j < |w.ledger| ensures Flag(w', j) == Flag(w, j) { assert Place(w', j) == Place(w, j); }
    assert Flags(w') == Flags(w);
  }

  /** In a plain source no iteration, finished or torn, changes where the pass is heading. */
  lemma IterationKeepsFinal(w: Work, k: nat)
    requires Plain(w) && k < 2 * |w.ledger|
    ensures Plain(Torn(w, k)) && Final(Torn(w, k)) == Final(w)
    ensures Plain(Iterate(w, k)) && Final(Iterate(w, k)) == Final(w)
  {
    if Cleans(w, k) {
      var i := IndexOf(|w.ledger|, k);
      var t := Torn(w, k);
      PlainTarget(w, i);
      if Target(w, i).Found? {
        var p := Place(w, i);
        StraightIsDoomed(w, k);
        VictimIsChildless(w, k);
        assert Deletes(w, t, p);
        DeletionKeepsFinal(w, t, p);
        DeletedIsNotThere(w, t, p);
        RemovalKeepsUnbent(w, t, p);
        BaseStays(w, i);
      }
      assert Place(t, i) == Place(w, i);
      MarkingKeepsFinal(t, i);
      MarkingKeepsPlain(t, i);
    }
  }

  lemma BaseStays(w: Work, i: nat)
    requires WorkOk(w) && i < |w.ledger|
    ensures Place(w, i) != w.base.dir
  {
    assert |Place(w, i)| > |w.base.dir|;
  }

  lemma MarkingKeepsPlain(w: Work, i: nat)
    requires Plain(w) && i < |w.ledger|
    ensures Plain(w.(ledger := Mark(w.ledger, i)))
  {
    var w' := w.(ledger := Mark(w.ledger, i));
    forall j | 0 <= j < |w.ledger| && Eligible(w'.ledger[j]) ensures !LinkAbove(w'.fs, Place(w', j)) {
      assert Place(w', j) == Place(w, j) && w'.ledger[j] == w.ledger[j];
    }
  }

  lemma IterationsKeepFinal(w: Work, k: nat)
    requires Plain(w) && k <= 2 * |w.ledger|
    ensures Plain(Iterations(w, k)) && Final(Iterations(w, k)) == Final(w)
  {
    var P := (u: Work, j: nat) => Plain(u) && Final(u) == Final(w);
    forall u: Work, j: nat | |u.ledger| == |w.ledger| && j < 2 * |u.ledger| && P(u, j) ensures P(Iterate(u, j), j + 1) {
      IterationKeepsFinal(u, j);
    }
    IterationsInduct(w, k, P);
  }

  lemma PlainNeverStrays(w: Work)
    requires Plain(w)
    ensures Harmless(w)
  {
    forall k: nat | k < 2 * |w.ledger| ensures !Strays(Iterations(w, k), k) {
      IterationsKeepFinal(w, k);
      var v := Iterations(w, k);
      assert Eligible(v.ledger[IndexOf(|v.ledger|, k)]) ==> !LinkAbove(v.fs, Place(v, IndexOf(|v.ledger|, k)));
    }
  }

  // ---- in a plain source a full pass arrives there, flags included

  /** The entry's flag is what it will be in the end. */
  ghost predicate Settled(w: Work, i: nat)
    requires w.base.Standing? && i < |w.ledger|
  {
    Flag(w, i) == w.ledger[i].cleaned
  }

  /** What is due to go is named by an entry whose flag is still to be set. */
  lemma DoomedIsPending(w: Work, q: Path) returns (j: nat)
    requires w.base.Standing? && Doomed(w, q)
    ensures j < |w.ledger| && Place(w, j) == q && Eligible(w.ledger[j]) && !Settled(w, j)
  {
    j := DoomedIsNamed(w, q);
  }

  /** Later iterations of other entries leave a settled entry settled. */
  lemma SettledStays(w: Work, k: nat, i: nat)
    requires Plain(w) && k < 2 * |w.ledger| && i < |w.ledger| && Settled(w, i)
    ensures Settled(Iterate(w, k), i)
  {
    IterationKeepsFinal(w, k);
    var w' := Iterate(w, k);
    assert Flags(w)[i].cleaned == Flag(w, i) && Flags(w')[i].cleaned == Flag(w', i);
  }

  lemma FlaggedLeafIsReady(w: Work, i: nat)
    requires Plain(w) && i < |w.ledger| && w.ledger[i].kind != Directory && Eligible(w.ledger[i]) && Flag(w, i)
    ensures CleansLeaf(w.fs, w.base, w.ledger[i])
  {
    PlainTarget(w, i);
    if Place(w, i) in w.fs { DoomOfEntry(w, i); }
  }

  lemma LeafSettles(w: Work, k: nat)
    requires Plain(w) && k < |w.ledger| && w.ledger[k].kind != Directory
    ensures Settled(Iterate(w, k), k)
  {
    if Eligible(w.ledger[k]) && Flag(w, k) { FlaggedLeafIsReady(w, k); }
    if Cleans(w, k) {
      assert Iterate(w, k).ledger[k].cleaned;
    } else {
      assert Iterate(w, k) == w;
    }
  }

  /** A directory whose flag is due can be removed once everything before it is settled. */
  lemma FlaggedDirIsReady(w: Work, i: nat)
    requires Plain(w) && i < |w.ledger| && w.ledger[i].kind == Directory && Eligible(w.ledger[i]) && Flag(w, i)
    requires forall j | 0 <= j < |w.ledger| && w.ledger[j].kind != Directory :: Settled(w, j)
    requires forall j | 0 <= j < i :: Settled(w, j)
    ensures CanRemoveDirectory(w.fs, w.base, w.ledger, w.ledger[i].localPath)
    ensures RemoveDirOk(w.fs, w.base, w.ledger[i].localPath)
  {
    var p := Place(w, i);
    PlainTarget(w, i);
    if Doomed(w, p) {
      DoomedDirIsDir(w, i);
      forall q | q in w.fs && q != [] ensures Parent(q) != p {
        if Parent(q) == p { ChildNotDoomed(w, i, q); }
      }
    }
  }

  lemma DirSettles(w: Work, k: nat)
    requires Plain(w) && |w.ledger| <= k < 2 * |w.ledger| && w.ledger[k - |w.ledger|].kind == Directory
    requires forall j | 0 <= j < |w.ledger| && w.ledger[j].kind != Directory :: Settled(w, j)
    requires forall j | 0 <= j < k - |w.ledger| :: Settled(w, j)
    ensures Settled(Iterate(w, k), k - |w.ledger|)
  {
    var i := k - |w.ledger|;
    if Eligible(w.ledger[i]) && Flag(w, i) {
      FlaggedDirIsReady(w, i);
    }
    if Cleans(w, k) {
      assert Iterate(w, k).ledger[i].cleaned;
    } else {
      assert Iterate(w, k) == w;
    }
  }

  lemma ChildNotDoomed(w: Work, i: nat, q: Path)
    requires WorkOk(w) && i < |w.ledger| && q in w.fs && q != [] && Parent(q) == Place(w, i) && TrackedDir(w, Place(w, i))
    requires !LeafDoomed(w, Place(w, i))
    requires forall j | 0 <= j < |w.ledger| && w.ledger[j].kind != Directory :: Settled(w, j)
    requires forall j | 0 <= j < i :: Settled(w, j)
    ensures !Doomed(w, Place(w, i))
  {
    var p := Place(w, i);
    if Doomed(w, p) {
      ChildOfDoomed(w, p, q);
      var j := DoomedIsPending(w, q);
      PlaceAbove(w, i, j);
      PendingComesLater(w, i, j);
    }
  }

  /** Directories stand in the ledger behind what is below them. */
  lemma PendingComesLater(w: Work, i: nat, j: nat)
    requires WorkOk(w) && i < |w.ledger| && j < |w.ledger|
    requires w.ledger[i].kind == Directory && |w.ledger[i].localPath| < |w.ledger[j].localPath|
    ensures w.ledger[j].kind != Directory || j < i
  {}

  /** Every entry that one of the first k iterations visited is settled. */
  ghost predicate Visited(v: Work, k: nat)
    requires v.base.Standing?
  {
    && (forall i | 0 <= i < |v.ledger| && v.ledger[i].kind != Directory && i < k :: Settled(v, i))
    && (forall i | 0 <= i < |v.ledger| && v.ledger[i].kind == Directory && |v.ledger| + i < k :: Settled(v, i))
  }

  lemma IterationSettles(u: Work, k: nat)
    requires Plain(u) && k < 2 * |u.ledger| && Visited(u, k)
    ensures Visited(Iterate(u, k), k + 1)
  {
    var v, n := Iterate(u, k), |u.ledger|;
    forall i | 0 <= i < n && (if v.ledger[i].kind != Directory then i < k + 1 else n + i < k + 1) ensures Settled(v, i) {
      assert v.ledger[i].kind == u.ledger[i].kind;
      if u.ledger[i].kind != Directory && i == k {
        LeafSettles(u, k);
      } else if u.ledger[i].kind == Directory && n + i == k {
        DirSettles(u, k);
      } else {
        SettledStays(u, k, i);
      }
    }
  }

  lemma IterationsSettle(w: Work, k: nat)
    requires Plain(w) && k <= 2 * |w.ledger|
    ensures Visited(Iterations(w, k), k)
  {
    var P := (u: Work, j: nat) => Plain(u) && Visited(u, j);
    forall u: Work, j: nat | |u.ledger| == |w.ledger| && j < 2 * |u.ledger| && P(u, j) ensures P(Iterate(u, j), j + 1) {
      IterationKeepsFinal(u, j);
      IterationSettles(u, j);
    }
    IterationsInduct(w, k, P);
  }

  lemma AllVisited(w: Work)
    requires w.base.Standing? && Visited(w, 2 * |w.ledger|)
    ensures forall i | 0 <= i < |w.ledger| :: Settled(w, i)
  {}

  /** With every flag settled there is nothing left to do. */
  lemma SettledIsFinal(w: Work)
    requires WorkOk(w) && forall i | 0 <= i < |w.ledger| :: Settled(w, i)
    ensures Final(w) == w
  {
    forall q | q in w.fs ensures !Doomed(w, q) {
      if Doomed(w, q) { var j := DoomedIsPending(w, q); }
    }
    assert Survivors(w) == w.fs;
    forall i | 0 <= i < |w.ledger| ensures Flags(w)[i] == w.ledger[i] {
      assert Settled(w, i);
      assert Flags(w)[i] == w.ledger[i].(cleaned := Flag(w, i));
    }
    assert Flags(w) == w.ledger;
  }

  /** One pass over any well-formed ledger and any source tree without symlinks above tracked places: what
      is left on disk and in the ledger. */
  lemma PassIsFinal(w: Work)
    requires Plain(w)
    ensures Pass(w) == Final(w)
  {
    IterationsSettle(w, 2 * |w.ledger|);
    IterationsKeepFinal(w, 2 * |w.ledger|);
    AllVisited(Pass(w));
    SettledIsFinal(Pass(w));
  }
}

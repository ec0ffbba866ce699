/** What one pass removes, whatever has become of the tree, and exactly when that is what it should. */
module CleanupSurvivors {
  import opened Records
  import opened SourceFiles
  import opened Cleanup

  // ---- deletions through a symlink

  /** Iteration k removes something although a symlink lies above the place that its entry names. */
  predicate Strays(w: Work, k: nat)
    requires w.base.Standing? && k < 2 * |w.ledger|
  {
    var i := IndexOf(|w.ledger|, k);
    Cleans(w, k) && Target(w, i).Found? && LinkAbove(w.fs, Place(w, i))
  }

  /** Then, and only then, it removes something else than its entry names. */
  lemma StrayMisses(w: Work, k: nat)
    requires WorkOk(w) && k < 2 * |w.ledger| && Cleans(w, k) && Target(w, IndexOf(|w.ledger|, k)).Found?
    ensures Strays(w, k) <==> Target(w, IndexOf(|w.ledger|, k)).place != Place(w, IndexOf(|w.ledger|, k))
  {
    var i := IndexOf(|w.ledger|, k);
    var dir, local := w.base.dir, w.ledger[i].localPath;
    if dir in w.fs && w.fs[dir].Dir? {
      LeadsStraightIff(w.fs, dir, local);
    } else {
      NothingBelow(w.fs, dir, local);
    }
  }

  /** Below something that is no directory a plain path leads nowhere. */
  lemma NothingBelow(fs: Files, dir: Path, local: Path)
    requires Closed(fs) && !(dir in fs && fs[dir].Dir?) && local != [] && PlainPath(local)
    ensures !Look(fs, Standing(dir), local).Found?
  {
    assert Parent(dir + [local[0]]) == dir;
  }

  /** What a cleaning iteration removes is there, and has nothing below it. */
  lemma VictimIsChildless(w: Work, k: nat)
    requires WorkOk(w) && k < 2 * |w.ledger| && Cleans(w, k) && Target(w, IndexOf(|w.ledger|, k)).Found?
    ensures var p := Target(w, IndexOf(|w.ledger|, k)).place; p in w.fs && !HasChild(w.fs, p)
  {
    var i := IndexOf(|w.ledger|, k);
    FoundIsThere(w.fs, w.base.dir, w.ledger[i].localPath, false, MAX_LINKS);
    if k < |w.ledger| { LeafIsChildless(w.fs, Target(w, i).place); }
  }

  lemma LeafIsChildless(fs: Files, p: Path)
    requires Closed(fs) && p in fs && !fs[p].Dir?
    ensures !HasChild(fs, p)
  {}

  lemma ChildlessIsBare(fs: Files, p: Path)
    requires Closed(fs) && !HasChild(fs, p)
    ensures forall q | q in fs :: !(p < q)
  {
    forall q | q in fs ensures !(p < q) {
      if p < q { NoChildNoDescendant(fs, p, q); }
    }
  }

  /** Whatever is removed straight was due to go. */
  lemma StraightIsDoomed(w: Work, k: nat)
    requires WorkOk(w) && k < 2 * |w.ledger| && Cleans(w, k) && Target(w, IndexOf(|w.ledger|, k)).Found? && !Strays(w, k)
    ensures Doomed(w, Target(w, IndexOf(|w.ledger|, k)).place)
  {
    var i := IndexOf(|w.ledger|, k);
    StrayMisses(w, k);
    VictimIsChildless(w, k);
    FoundIsThere(w.fs, w.base.dir, w.ledger[i].localPath, false, MAX_LINKS);
    ChildlessIsBare(w.fs, Target(w, i).place);
  }

  /** Nothing is removed through a symlink, unless it was due to go anyway. */
  ghost predicate Harmless(w: Work)
    requires w.base.Standing?
  {
    forall k: nat | k < 2 * |w.ledger| :: HarmlessAt(w, Iterations(w, k), k)
  }

  ghost predicate HarmlessAt(w: Work, v: Work, k: nat)
    requires w.base.Standing? && v.base.Standing? && k < 2 * |v.ledger|
  {
    Strays(v, k) ==> Doomed(w, Target(v, IndexOf(|v.ledger|, k)).place)
  }

  // ---- what a pass removes

  /** Nothing comes back. */
  lemma {:induction false} PassOnlyRemoves(w: Work, j: nat, k: nat, p: Path)
    requires j <= k <= 2 * |w.ledger| && p in Iterations(w, k).fs
    ensures p in Iterations(w, j).fs && Iterations(w, k).fs[p] == Iterations(w, j).fs[p]
  {
    if j < k { PassOnlyRemoves(w, j, k - 1, p); }
  }

  /** The place of an entry that was visited is not due to go any more. */
  ghost predicate VisitedOnce(v: Work, k: nat)
    requires v.base.Standing?
  {
    && (forall i | 0 <= i < |v.ledger| && v.ledger[i].kind != Directory && i < k :: !Doomed(v, Place(v, i)))
    && (forall i | 0 <= i < |v.ledger| && v.ledger[i].kind == Directory && |v.ledger| + i < k :: !Doomed(v, Place(v, i)))
  }

  /** An iteration that removes only what was due to go. */
  ghost predicate Proper(w: Work, k: nat)
    requires k < 2 * |w.ledger|
  {
    WorkOk(w) && (Strays(w, k) ==> Doomed(w, Target(w, IndexOf(|w.ledger|, k)).place))
  }

  /** A cleaned entry's place is empty once its path was followed to the end. */
  lemma CleanedPlaceIsEmpty(w: Work, k: nat)
    requires WorkOk(w) && k < 2 * |w.ledger| && Cleans(w, k)
    ensures Place(w, IndexOf(|w.ledger|, k)) !in Torn(w, k).fs
  {
    var i := IndexOf(|w.ledger|, k);
    if Place(w, i) in w.fs { PresentIsFound(w.fs, w.base.dir, w.ledger[i].localPath); }
  }

  lemma ProperKeepsSurvivors(w: Work, k: nat)
    requires k < 2 * |w.ledger| && Proper(w, k)
    ensures WorkOk(Iterate(w, k)) && Survivors(Iterate(w, k)) == Survivors(w)
    ensures forall q | q in Iterate(w, k).fs :: Doomed(Iterate(w, k), q) == Doomed(w, q)
  {
    if Cleans(w, k) {
      var i := IndexOf(|w.ledger|, k);
      var t := Torn(w, k);
      CleanedPlaceIsEmpty(w, k);
      if Target(w, i).Found? {
        var p := Target(w, i).place;
        if !Strays(w, k) { StraightIsDoomed(w, k); }
        VictimIsChildless(w, k);
        DeletionKeepsSurvivors(w, t, p);
        forall q | q in t.fs ensures Doomed(t, q) == Doomed(w, q) { DeletionKeepsDoom(w, t, p, q); }
      }
      assert Place(t, i) == Place(w, i);
      MarkingKeepsSurvivors(t, i);
    }
  }

  /** A file or symlink that is due to go is gone after its entry was visited. */
  lemma DoomedLeafGoes(w: Work, k: nat)
    requires WorkOk(w) && k < |w.ledger| && w.ledger[k].kind != Directory && Doomed(w, Place(w, k))
    ensures Place(w, k) !in Iterate(w, k).fs
  {
    var p := Place(w, k);
    if TrackedDir(w, p) {
      var i :| 0 <= i < |w.ledger| && Place(w, i) == p && w.ledger[i].kind == Directory;
      PlacesDiffer(w, i, k);
    }
    var i :| 0 <= i < |w.ledger| && Place(w, i) == p && Eligible(w.ledger[i]) && Matches(w.ledger[i], w.fs[p]);
    PlacesDiffer(w, i, k);
    PresentIsFound(w.fs, w.base.dir, w.ledger[k].localPath);
    assert Cleans(w, k);
  }

  /** What is due to go is named by an entry: a leaf's, or a directory's. */
  lemma DoomedIsNamed(w: Work, q: Path) returns (j: nat)
    requires w.base.Standing? && Doomed(w, q)
    ensures j < |w.ledger| && Place(w, j) == q && Eligible(w.ledger[j])
  {
    j :| 0 <= j < |w.ledger| && Place(w, j) == q && Eligible(w.ledger[j]);
  }

  /** Doom is inherited. */
  lemma ChildOfDoomed(w: Work, p: Path, q: Path)
    requires w.base.Standing? && Doomed(w, p) && TrackedDir(w, p) && !LeafDoomed(w, p) && q in w.fs && p < q
    ensures Doomed(w, q)
  {
    assert forall r | r in w.fs && q < r :: p < r;
  }

  /** Everything below a directory was visited before it. */
  lemma NothingBelowIsDoomed(w: Work, k: nat, q: Path)
    requires WorkOk(w) && |w.ledger| <= k < 2 * |w.ledger| && VisitedOnce(w, k)
    requires q in w.fs && Place(w, k - |w.ledger|) < q
    ensures !Doomed(w, q)
  {
    if Doomed(w, q) {
      var j := DoomedIsNamed(w, q);
      BelowWasVisited(w, k, j);
    }
  }

  lemma BelowWasVisited(w: Work, k: nat, j: nat)
    requires WorkOk(w) && |w.ledger| <= k < 2 * |w.ledger| && VisitedOnce(w, k) && j < |w.ledger|
    requires Place(w, k - |w.ledger|) < Place(w, j)
    ensures !Doomed(w, Place(w, j))
  {
    PlaceAbove(w, k - |w.ledger|, j);
    assert j < k - |w.ledger|;
  }

  lemma DoomedDirGoes(w: Work, k: nat)
    requires WorkOk(w) && |w.ledger| <= k < 2 * |w.ledger| && VisitedOnce(w, k)
    requires w.ledger[k - |w.ledger|].kind == Directory && Doomed(w, Place(w, k - |w.ledger|))
    ensures Place(w, k - |w.ledger|) !in Iterate(w, k).fs
  {
    var i := k - |w.ledger|;
    var p := Place(w, i);
    DoomedDirIsDir(w, i);
    PresentIsFound(w.fs, w.base.dir, w.ledger[i].localPath);
    forall q | q in w.fs && q != [] ensures Parent(q) != p {
      if Parent(q) == p {
        ChildOfDoomed(w, p, q);
        NothingBelowIsDoomed(w, k, q);
      }
    }
    assert Cleans(w, k);
  }

  lemma DoomedDirIsDir(w: Work, i: nat)
    requires WorkOk(w) && i < |w.ledger| && w.ledger[i].kind == Directory && Doomed(w, Place(w, i))
    ensures TrackedDir(w, Place(w, i)) && !LeafDoomed(w, Place(w, i)) && Eligible(w.ledger[i])
  {
    var j := DoomedIsNamed(w, Place(w, i));
    PlacesDiffer(w, i, j);
    if LeafDoomed(w, Place(w, i)) {
      var l :| 0 <= l < |w.ledger| && Place(w, l) == Place(w, i) && w.ledger[l].kind != Directory;
      PlacesDiffer(w, i, l);
    }
  }

  /** What was not due to go is not due to go later, and neither is what an iteration just visited. */
  lemma NotDoomedAfter(w: Work, k: nat, i: nat)
    requires k < 2 * |w.ledger| && Proper(w, k) && VisitedOnce(w, k) && i < |w.ledger|
    requires Doomed(w, Place(w, i)) ==> i == IndexOf(|w.ledger|, k) && (k < |w.ledger|) == (w.ledger[i].kind != Directory)
    ensures !Doomed(Iterate(w, k), Place(Iterate(w, k), i))
  {
    ProperKeepsSurvivors(w, k);
    assert Place(Iterate(w, k), i) == Place(w, i);
    if Doomed(w, Place(w, i)) {
      if k < |w.ledger| { DoomedLeafGoes(w, k); } else { DoomedDirGoes(w, k); }
    }
  }

  lemma ProperVisits(w: Work, k: nat)
    requires k < 2 * |w.ledger| && Proper(w, k) && VisitedOnce(w, k)
    ensures VisitedOnce(Iterate(w, k), k + 1)
  {
    var v, n := Iterate(w, k), |w.ledger|;
    forall i | 0 <= i < n && (if v.ledger[i].kind != Directory then i < k + 1 else n + i < k + 1) ensures !Doomed(v, Place(v, i)) {
      assert v.ledger[i].kind == w.ledger[i].kind;
      NotDoomedAfter(w, k, i);
    }
  }

  /** As far as pass w has come, everything went properly. */
  ghost predicate OnCourse(w: Work, v: Work, k: nat)
    requires w.base.Standing?
  {
    WorkOk(v) && Survivors(v) == Survivors(w) && VisitedOnce(v, k) && v.fs.Keys <= w.fs.Keys
    && forall q | q in v.fs :: Doomed(v, q) == Doomed(w, q)
  }

  lemma CourseStarts(w: Work)
    requires WorkOk(w)
    ensures OnCourse(w, w, 0)
  {}

  lemma CourseGoesOn(w: Work, v: Work, k: nat)
    requires w.base.Standing? && OnCourse(w, v, k) && k < 2 * |v.ledger| && HarmlessAt(w, v, k)
    ensures OnCourse(w, Iterate(v, k), k + 1)
  {
    if Strays(v, k) { VictimIsChildless(v, k); }
    ProperKeepsSurvivors(v, k);
    ProperVisits(v, k);
  }

  lemma StaysOnCourse(w: Work, k: nat)
    requires WorkOk(w) && Harmless(w) && k <= 2 * |w.ledger|
    ensures OnCourse(w, Iterations(w, k), k)
  {
    var P := (u: Work, j: nat) => |u.ledger| == |w.ledger| && OnCourse(w, u, j);
    CourseStarts(w);
    forall j: nat | j < 2 * |w.ledger| && P(Iterations(w, j), j) ensures P(Iterate(Iterations(w, j), j), j + 1) {
      assert HarmlessAt(w, Iterations(w, j), j);
      CourseGoesOn(w, Iterations(w, j), j);
    }
    PassInduct(w, k, P);
  }

  lemma EverythingVisited(v: Work)
    requires WorkOk(v) && VisitedOnce(v, 2 * |v.ledger|)
    ensures Survivors(v) == v.fs
  {
    forall q | q in v.fs ensures !Doomed(v, q) {
      if Doomed(v, q) { var j := DoomedIsNamed(v, q); }
    }
  }

  /** What a pass leaves of the source is exactly what is not due to go, if and only if nothing that is not
      due to go is removed through a symlink that has come to lie above a tracked place. */
  lemma SurvivorsExactly(w: Work)
    requires WorkOk(w)
    ensures Pass(w).fs == Survivors(w) <==> Harmless(w)
  {
    if Harmless(w) {
      StaysOnCourse(w, 2 * |w.ledger|);
      EverythingVisited(Pass(w));
    }
    if Pass(w).fs == Survivors(w) {
      forall k: nat | k < 2 * |w.ledger| ensures HarmlessAt(w, Iterations(w, k), k) {
        if Strays(Iterations(w, k), k) { RemovedForGood(w, k); }
      }
    }
  }

  /** What iteration k removes was there at first, and is not there in the end. */
  lemma RemovedForGood(w: Work, k: nat)
    requires k < 2 * |w.ledger| && w.base.Standing? && Strays(Iterations(w, k), k)
    ensures var p := Target(Iterations(w, k), IndexOf(|w.ledger|, k)).place; p in w.fs && p !in Pass(w).fs
  {
    var v := Iterations(w, k);
    var p := Target(v, IndexOf(|w.ledger|, k)).place;
    FoundIsThere(v.fs, v.base.dir, v.ledger[IndexOf(|w.ledger|, k)].localPath, false, MAX_LINKS);
    StrayIsRemoved(v, k);
    NeverBack(w, k, p);
  }

  lemma StrayIsRemoved(v: Work, k: nat)
    requires k < 2 * |v.ledger| && v.base.Standing? && Strays(v, k)
    ensures Target(v, IndexOf(|v.ledger|, k)).place !in Iterate(v, k).fs
  {}

  lemma NeverBack(w: Work, k: nat, p: Path)
    requires k < 2 * |w.ledger| && p in Iterations(w, k).fs && p !in Iterate(Iterations(w, k), k).fs
    ensures p in w.fs && p !in Pass(w).fs
  {
    PassOnlyRemoves(w, 0, k, p);
    assert Iterations(w, k + 1) == Iterate(Iterations(w, k), k);
    if p in Pass(w).fs { PassOnlyRemoves(w, k + 1, 2 * |w.ledger|, p); }
  }

  /** Path by path: an unchanged tracked file or symlink goes; a tracked directory goes exactly when nothing
      below it survives; and nothing that no confirmed entry names. */
  lemma PassSurvivors(w: Work, p: Path)
    requires WorkOk(w) && Harmless(w)
    ensures var after := Pass(w).fs;
      && (p in after ==> p in w.fs && after[p] == w.fs[p])
      && ((forall i | 0 <= i < |w.ledger| :: Place(w, i) == p ==> !Eligible(w.ledger[i])) ==> (p in w.fs <==> p in after))
      && (forall i | 0 <= i < |w.ledger| && Place(w, i) == p && Eligible(w.ledger[i]) && p in w.fs ::
            p !in after <==> if w.ledger[i].kind != Directory then Matches(w.ledger[i], w.fs[p])
                             else w.fs[p].Dir? && forall q | q in w.fs && p < q :: q !in after)
  {
    SurvivorsExactly(w);
    forall i | 0 <= i < |w.ledger| && Place(w, i) == p && Eligible(w.ledger[i]) && p in w.fs
      ensures Doomed(w, p) <==> if w.ledger[i].kind != Directory then Matches(w.ledger[i], w.fs[p])
                               else w.fs[p].Dir? && forall q | q in w.fs && p < q :: Doomed(w, q)
    {
      DoomOfEntry(w, i);
    }
  }

  lemma DoomOfEntry(w: Work, i: nat)
    requires WorkOk(w) && i < |w.ledger| && Eligible(w.ledger[i]) && Place(w, i) in w.fs
    ensures Doomed(w, Place(w, i)) <==>
      if w.ledger[i].kind != Directory then Matches(w.ledger[i], w.fs[Place(w, i)])
      else w.fs[Place(w, i)].Dir? && forall q | q in w.fs && Place(w, i) < q :: Doomed(w, q)
  {
    var p := Place(w, i);
    forall j | 0 <= j < |w.ledger| && Place(w, j) == p ensures j == i { PlacesDiffer(w, i, j); }
    if w.ledger[i].kind == Directory {
      assert !LeafDoomed(w, p);
      if Doomed(w, p) {
        forall q | q in w.fs && p < q ensures Doomed(w, q) { ChildOfDoomed(w, p, q); }
      }
    } else {
      assert !TrackedDir(w, p);
    }
  }
}

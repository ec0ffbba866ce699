/** What can be told of a pass from the tree and the ledger it starts with, symlinks included. */
module CleanupStart {
  import opened Records
  import opened SourceFiles
  import opened Cleanup
  import opened CleanupSurvivors
  import opened CleanupFinal
  import opened CleanupCrash
  import PathText

  // ---- a tree that shrinks

  ghost predicate Shrunk(fs: Files, fs': Files) {
    forall p | p in fs' :: p in fs && fs[p] == fs'[p]
  }

  /** In it a path leads to where it led before, or nowhere. */
  lemma {:induction false} LessIsFound(fs: Files, fs': Files, at: Path, rest: Path, follow: bool, links: nat)
    requires Shrunk(fs, fs')
    ensures Walk(fs', at, rest, follow, links) in {Walk(fs, at, rest, follow, links), NotFound}
    decreases links, |rest|
  {
    var q := at + (if rest == [] then [] else [rest[0]]);
    if rest == [] {
    } else if rest[0] == "." {
      LessIsFound(fs, fs', at, rest[1..], follow, links);
    } else if rest[0] == ".." {
      LessIsFound(fs, fs', if at == [] then [] else Parent(at), rest[1..], follow, links);
    } else if q !in fs' {
    } else if fs[q].Dir? {
      LessIsFound(fs, fs', q, rest[1..], follow, links);
    } else if !(|rest| == 1 && !(fs[q].Link? && follow)) && fs[q].Link? && links > 0 && fs[q].target != "" {
      LessIsFound(fs, fs', if fs[q].target[0] == '/' then [] else at, PathText.Components(fs[q].target) + rest[1..], follow, links - 1);
    }
  }

  /** An entry changes only in its flag, and that is never taken back. */
  lemma {:induction false} EntryStays(w: Work, k: nat, i: nat)
    requires k <= 2 * |w.ledger| && i < |w.ledger|
    ensures var e, e' := w.ledger[i], Iterations(w, k).ledger[i]; e' == e.(cleaned := e'.cleaned) && (e.cleaned ==> e'.cleaned)
  {
    if k > 0 { EntryStays(w, k - 1, i); }
  }

  lemma OnlyShrinks(w: Work, k: nat)
    requires k <= 2 * |w.ledger|
    ensures Shrunk(w.fs, Iterations(w, k).fs)
  {
    forall p | p in Iterations(w, k).fs ensures p in w.fs && w.fs[p] == Iterations(w, k).fs[p] { PassOnlyRemoves(w, 0, k, p); }
  }

  // ---- entries whose places lie behind symlinks

  /** The entry's path leads to something else than it names, and that would be removed or may come to be:
      it is what the entry describes, or a directory if the entry describes one. */
  predicate Misleads(w: Work, i: nat)
    requires w.base.Standing? && i < |w.ledger|
  {
    var e := w.ledger[i];
    && Eligible(e) && LinkAbove(w.fs, Place(w, i)) && Target(w, i).Found?
    && if e.kind == Directory then Target(w, i).node.Dir? else Matches(e, Target(w, i).node)
  }

  /** Every confirmed entry below a symlink leads nowhere, to something that it does not describe, or to a place
      that is due to go anyway. */
  ghost predicate HarmlessAtStart(w: Work)
    requires w.base.Standing?
  {
    forall i | 0 <= i < |w.ledger| && Misleads(w, i) :: Doomed(w, Target(w, i).place)
  }

  /** Then the pass spares exactly what it should. */
  lemma HarmlessFromStart(w: Work)
    requires WorkOk(w) && HarmlessAtStart(w)
    ensures Harmless(w) && Pass(w).fs == Survivors(w)
  {
    forall k: nat | k < 2 * |w.ledger| ensures HarmlessAt(w, Iterations(w, k), k) {
      if Strays(Iterations(w, k), k) { StraysMislead(w, k); }
    }
    SurvivorsExactly(w);
  }

  lemma StraysMislead(w: Work, k: nat)
    requires WorkOk(w) && k < 2 * |w.ledger| && Strays(Iterations(w, k), k)
    ensures var i := IndexOf(|w.ledger|, k); Misleads(w, i) && Target(w, i) == Target(Iterations(w, k), i)
  {
    var v, i := Iterations(w, k), IndexOf(|w.ledger|, k);
    OnlyShrinks(w, k);
    EntryStays(w, k, i);
    LessIsFound(w.fs, v.fs, w.base.dir, w.ledger[i].localPath, false, MAX_LINKS);
  }

  // ---- a pass that may be run again

  /** Every confirmed entry below a symlink leads nowhere. */
  predicate NowhereBehindLinks(w: Work)
    requires w.base.Standing?
  {
    forall i | 0 <= i < |w.ledger| && Behind(w, i) :: Target(w, i) == NotFound
  }

  predicate Behind(w: Work, i: nat)
    requires w.base.Standing? && i < |w.ledger|
  {
    Eligible(w.ledger[i]) && LinkAbove(w.fs, Place(w, i))
  }

  /** The same work with those entries done already. */
  function Ahead(w: Work): Work
    requires w.base.Standing?
  {
    w.(ledger := seq(|w.ledger|, i requires 0 <= i < |w.ledger| =>
      if Behind(w, i) then w.ledger[i].(cleaned := true) else w.ledger[i]))
  }

  lemma AheadIsPlain(w: Work)
    requires WorkOk(w) && w.base.dir in w.fs && w.fs[w.base.dir].Dir?
    ensures Plain(Ahead(w))
  {
    var u := Ahead(w);
    forall i | 0 <= i < |w.ledger| ensures Place(u, i) == Place(w, i) && u.ledger[i].localPath == w.ledger[i].localPath
      && u.ledger[i].kind == w.ledger[i].kind {}
  }

  /** v has come as far as u, except that entries behind symlinks may not be done yet. */
  ghost predicate KeepsUp(w: Work, v: Work, u: Work)
    requires w.base.Standing?
  {
    && v.fs == u.fs && v.base == u.base == w.base && |v.ledger| == |u.ledger| == |w.ledger| && Shrunk(w.fs, v.fs)
    && forall i | 0 <= i < |w.ledger| :: EntryKeepsUp(w, v, u, i)
  }

  predicate EntryKeepsUp(w: Work, v: Work, u: Work, i: nat)
    requires w.base.Standing? && i < |w.ledger| && |v.ledger| == |u.ledger| == |w.ledger|
  {
    var e, e' := w.ledger[i], v.ledger[i];
    && e' == e.(cleaned := e'.cleaned) && (e.cleaned ==> e'.cleaned)
    && u.ledger[i] == if Behind(w, i) then e.(cleaned := true) else e'
  }

  /** Behind symlinks there is nothing to remove, now or later. */
  lemma NothingBehind(w: Work, v: Work, i: nat)
    requires w.base.Standing? && NowhereBehindLinks(w) && i < |w.ledger| && Behind(w, i)
    requires v.base == w.base && |v.ledger| == |w.ledger| && v.ledger[i].localPath == w.ledger[i].localPath && Shrunk(w.fs, v.fs)
    ensures Target(v, i) == NotFound
  {
    LessIsFound(w.fs, v.fs, w.base.dir, w.ledger[i].localPath, false, MAX_LINKS);
  }

  /** Where an entry in the open leads. */
  lemma InTheOpen(w: Work, v: Work, i: nat)
    requires WorkOk(w) && w.base.dir in w.fs && w.fs[w.base.dir].Dir? && i < |w.ledger| && !LinkAbove(w.fs, Place(w, i))
    requires v.base == w.base && |v.ledger| == |w.ledger| && v.ledger[i].localPath == w.ledger[i].localPath && Shrunk(w.fs, v.fs)
    ensures Target(v, i).Found? ==> Target(v, i).place == Place(w, i) && Place(w, i) in w.fs
  {
    LessIsFound(w.fs, v.fs, w.base.dir, w.ledger[i].localPath, false, MAX_LINKS);
    StraightWalk(w.fs, w.base.dir, w.ledger[i].localPath, MAX_LINKS);
  }

  /** What is tracked in a directory in the open is in the open. */
  lemma ChildInTheOpen(w: Work, q: Path, l: nat)
    requires WorkOk(w) && l < |w.ledger| && Place(w, l) == q && q in w.fs
    ensures !Behind(w, l)
  {
    forall k | 0 <= k < |q| ensures q[..k] in w.fs && !w.fs[q[..k]].Link? { AncestorsAreThere(w.fs, q, k); }
  }

  lemma SameChildren(w: Work, v: Work, u: Work, i: nat)
    requires WorkOk(w) && w.base.dir in w.fs && w.fs[w.base.dir].Dir? && KeepsUp(w, v, u)
    requires i < |w.ledger| && !LinkAbove(w.fs, Place(w, i))
    ensures var local := w.ledger[i].localPath;
      CanRemoveDirectory(v.fs, v.base, v.ledger, local) == CanRemoveDirectory(u.fs, u.base, u.ledger, local)
  {
    var local := w.ledger[i].localPath;
    assert EntryKeepsUp(w, v, u, i);
    InTheOpen(w, v, i);
    if Target(v, i).Found? {
      forall q | q in v.fs && q != [] && Parent(q) == Place(w, i)
        ensures (exists e | e in v.ledger :: e.localPath == local + [q[|q| - 1]] && (e.cleaned || !e.confirmed))
           <==> (exists e | e in u.ledger :: e.localPath == local + [q[|q| - 1]] && (e.cleaned || !e.confirmed))
      {
        SameChild(w, v, u, i, q);
      }
    }
  }

  lemma SameChild(w: Work, v: Work, u: Work, i: nat, q: Path)
    requires WorkOk(w) && KeepsUp(w, v, u) && i < |w.ledger| && q in v.fs && q != [] && Parent(q) == Place(w, i)
    ensures var local := w.ledger[i].localPath + [q[|q| - 1]];
      (exists e | e in v.ledger :: e.localPath == local && (e.cleaned || !e.confirmed))
      <==> (exists e | e in u.ledger :: e.localPath == local && (e.cleaned || !e.confirmed))
  {
    var local := w.ledger[i].localPath + [q[|q| - 1]];
    assert w.base.dir + local == Place(w, i) + [q[|q| - 1]] == q;
    forall l | 0 <= l < |w.ledger| && w.ledger[l].localPath == local ensures v.ledger[l] == u.ledger[l] {
      ChildInTheOpen(w, q, l);
      assert EntryKeepsUp(w, v, u, l);
    }
    SameTracking(w, v, u, local);
  }

  lemma SameTracking(w: Work, v: Work, u: Work, local: Path)
    requires w.base.Standing? && KeepsUp(w, v, u)
    requires forall l | 0 <= l < |w.ledger| && w.ledger[l].localPath == local :: v.ledger[l] == u.ledger[l]
    ensures (exists e | e in v.ledger :: e.localPath == local && (e.cleaned || !e.confirmed))
       <==> (exists e | e in u.ledger :: e.localPath == local && (e.cleaned || !e.confirmed))
  {
    forall l | 0 <= l < |w.ledger| ensures v.ledger[l].localPath == u.ledger[l].localPath == w.ledger[l].localPath {
      assert EntryKeepsUp(w, v, u, l);
    }
    if e :| e in v.ledger && e.localPath == local && (e.cleaned || !e.confirmed) {
      var l :| 0 <= l < |v.ledger| && v.ledger[l] == e;
      assert u.ledger[l] in u.ledger;
    }
    if e :| e in u.ledger && e.localPath == local && (e.cleaned || !e.confirmed) {
      var l :| 0 <= l < |u.ledger| && u.ledger[l] == e;
      assert v.ledger[l] in v.ledger;
    }
  }

  /** In the open both do the same. */
  lemma SameInTheOpen(w: Work, v: Work, u: Work, k: nat)
    requires WorkOk(w) && w.base.dir in w.fs && w.fs[w.base.dir].Dir? && KeepsUp(w, v, u)
    requires k < 2 * |w.ledger| && !Behind(w, IndexOf(|w.ledger|, k))
    ensures Cleans(v, k) == Cleans(u, k)
  {
    var i := IndexOf(|w.ledger|, k);
    assert EntryKeepsUp(w, v, u, i);
    if Eligible(v.ledger[i]) { SameChildren(w, v, u, i); }
  }

  lemma KeepingUp(w: Work, v: Work, u: Work, k: nat)
    requires WorkOk(w) && w.base.dir in w.fs && w.fs[w.base.dir].Dir? && NowhereBehindLinks(w) && KeepsUp(w, v, u)
    requires k < 2 * |w.ledger|
    ensures KeepsUp(w, Iterate(v, k), Iterate(u, k))
  {
    var i := IndexOf(|w.ledger|, k);
    assert EntryKeepsUp(w, v, u, i);
    if Behind(w, i) { NothingBehind(w, v, i); } else { SameInTheOpen(w, v, u, k); }
    var v', u' := Iterate(v, k), Iterate(u, k);
    forall l | 0 <= l < |w.ledger| ensures EntryKeepsUp(w, v', u', l) {
      assert EntryKeepsUp(w, v, u, l);
    }
  }

  lemma StartsTogether(w: Work)
    requires w.base.Standing?
    ensures KeepsUp(w, w, Ahead(w))
  {
    forall i | 0 <= i < |w.ledger| ensures EntryKeepsUp(w, w, Ahead(w), i) {}
  }

  lemma {:induction false} AllTheWay(w: Work, k: nat)
    requires WorkOk(w) && w.base.dir in w.fs && w.fs[w.base.dir].Dir? && NowhereBehindLinks(w) && k <= 2 * |w.ledger|
    ensures KeepsUp(w, Iterations(w, k), Iterations(Ahead(w), k))
  {
    if k == 0 {
      StartsTogether(w);
    } else {
      AllTheWay(w, k - 1);
      KeepingUp(w, Iterations(w, k - 1), Iterations(Ahead(w), k - 1), k - 1);
    }
  }

  /** The visit of an entry behind symlinks sets its flag. */
  lemma FlaggedAtOnce(w: Work, j: nat, m: nat)
    requires w.base.Standing? && NowhereBehindLinks(w)
    requires j < m <= 2 * |w.ledger| && Visits(w.ledger, j) && Behind(w, IndexOf(|w.ledger|, j))
    ensures Iterations(w, m).ledger[IndexOf(|w.ledger|, j)].cleaned
  {
    var i, v := IndexOf(|w.ledger|, j), Iterations(w, j);
    EntryStays(w, j, i);
    OnlyShrinks(w, j);
    FlaggedThere(w, v, j);
    FlagStays(w, j + 1, m, i);
  }

  lemma FlaggedThere(w: Work, v: Work, j: nat)
    requires w.base.Standing? && NowhereBehindLinks(w) && v.base == w.base && |v.ledger| == |w.ledger| && Shrunk(w.fs, v.fs)
    requires j < 2 * |w.ledger| && Visits(w.ledger, j) && Behind(w, IndexOf(|w.ledger|, j))
    requires var i := IndexOf(|w.ledger|, j); v.ledger[i] == w.ledger[i].(cleaned := v.ledger[i].cleaned)
    ensures Iterate(v, j).ledger[IndexOf(|w.ledger|, j)].cleaned
  {
    var i := IndexOf(|w.ledger|, j);
    NothingBehind(w, v, i);
    assert Cleans(v, j) || v.ledger[i].cleaned;
  }

  /** When every confirmed entry below a symlink leads nowhere, the pass may be stopped anywhere and run again,
      and spares exactly what it should. */
  lemma StableFromStart(w: Work)
    requires WorkOk(w) && w.base.dir in w.fs && w.fs[w.base.dir].Dir? && NowhereBehindLinks(w)
    ensures Stable(w) && Reruns(w) && Harmless(w)
  {
    HarmlessFromStart(w);
    AheadIsPlain(w);
    PlainIsStable(Ahead(w));
    forall m: nat | m <= 2 * |w.ledger| ensures StableAt(Iterations(w, m), m) { StableThere(w, m); }
    RerunsExactly(w);
  }

  lemma StableThere(w: Work, m: nat)
    requires WorkOk(w) && w.base.dir in w.fs && w.fs[w.base.dir].Dir? && NowhereBehindLinks(w)
    requires m <= 2 * |w.ledger| && Stable(Ahead(w))
    ensures StableAt(Iterations(w, m), m)
  {
    var v, u := Iterations(w, m), Iterations(Ahead(w), m);
    AllTheWay(w, m);
    assert StableAt(u, m);
    forall j: nat | j < m ensures !Cleans(v, j) {
      var i := IndexOf(|w.ledger|, j);
      assert EntryKeepsUp(w, v, u, i);
      if !Behind(w, i) {
        SameInTheOpen(w, v, u, j);
      } else if Visits(w.ledger, j) {
        FlaggedAtOnce(w, j, m);
      }
    }
  }
}

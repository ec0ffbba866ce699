/** A source captured, confirmed, and cleaned: what is left of it, with and without edits in between. */
module CleanupCaptured {
  import opened Records
  import opened SourceFiles
  import opened Cleanup
  import opened CleanupSurvivors
  import opened CleanupFinal
  import opened CleanupCapture

  /** Same content, or a directory as before. */
  predicate Unchanged(was: Node, now: Node) {
    if was.File? || was.Link? then now == was else now.Dir?
  }

  lemma ConfirmedLedgerOk(entries: Ledger)
    requires LedgerOk(entries)
    ensures LedgerOk(AllConfirmed(entries))
  {
    var c := AllConfirmed(entries);
    assert forall i | 0 <= i < |c| :: c[i].localPath == entries[i].localPath && c[i].kind == entries[i].kind;
  }

  /** The captured entries, all confirmed, in the tree as it is now, from the directory that is said to hold
      the source now. */
  function Confirmed(now: Files, dir: Path, entries: Ledger): Work {
    Work(now, Standing(dir), AllConfirmed(entries))
  }

  /** The path names something that was captured, and what is there now is what was captured. */
  predicate AsBefore(was: Files, source: Path, now: Files, dir: Path, p: Path) {
    p in now && dir <= p && Recorded(was, source, p[|dir|..]) && Unchanged(was[p[|dir|..]], now[p])
  }

  /** A path is gone exactly when it was captured, is what it was, and, being a directory, is empty by then. */
  ghost predicate GoesAsCaptured(was: Files, source: Path, now: Files, dir: Path, after: Files, p: Path) {
    && (p in after ==> p in now && after[p] == now[p])
    && (p in now ==>
          (p !in after <==> AsBefore(was, source, now, dir, p) && (now[p].Dir? ==> forall q | q in now && p < q :: q !in after)))
  }

  lemma ConfirmedEntry(was: Files, source: Path, name: Path, entries: Ledger, now: Files, dir: Path, i: nat)
    requires Captures(was, source, name, entries) && i < |entries|
    ensures var w, local := Confirmed(now, dir, entries), entries[i].localPath;
      && w.ledger[i] == entries[i].(confirmed := true) && Eligible(w.ledger[i]) && Place(w, i) == dir + local
      && dir <= Place(w, i) && Place(w, i)[|dir|..] == local && Recorded(was, source, local)
      && (w.ledger[i].kind == Directory <==> !was[local].File? && !was[local].Link?)
      && forall node :: Matches(w.ledger[i], node) <==> (was[local].File? || was[local].Link?) && node == was[local]
  {
    var local := entries[i].localPath;
    assert entries[i] == EntryFor(was[local], RelativeName(source, name, local), local);
    assert (dir + local)[|dir|..] == local;
  }

  /** What an entry of the confirmed ledger tracks. */
  lemma CapturedTracking(was: Files, source: Path, name: Path, entries: Ledger, now: Files, dir: Path, p: Path)
    requires Captures(was, source, name, entries) && p in now
    ensures var w := Confirmed(now, dir, entries);
      && LeafDoomed(w, p) == (AsBefore(was, source, now, dir, p) && !now[p].Dir?)
      && TrackedDir(w, p) == (AsBefore(was, source, now, dir, p) && now[p].Dir?)
  {
    var w := Confirmed(now, dir, entries);
    if dir <= p && Recorded(was, source, p[|dir|..]) {
      var i :| 0 <= i < |entries| && entries[i].localPath == p[|dir|..];
      ConfirmedEntry(was, source, name, entries, now, dir, i);
      OnlyEntry(was, source, name, entries, now, dir, p, i);
    } else {
      forall i | 0 <= i < |entries| ensures Place(w, i) != p { ConfirmedEntry(was, source, name, entries, now, dir, i); }
    }
  }

  lemma OnlyEntry(was: Files, source: Path, name: Path, entries: Ledger, now: Files, dir: Path, p: Path, i: nat)
    requires Captures(was, source, name, entries) && i < |entries| && Place(Confirmed(now, dir, entries), i) == p
    ensures forall j | 0 <= j < |entries| && Place(Confirmed(now, dir, entries), j) == p :: j == i
  {
    var w := Confirmed(now, dir, entries);
    forall j | 0 <= j < |entries| && Place(w, j) == p ensures j == i {
      assert Place(w, j)[|dir|..] == entries[j].localPath && Place(w, i)[|dir|..] == entries[i].localPath;
    }
  }

  lemma CapturedDoom(was: Files, source: Path, name: Path, entries: Ledger, now: Files, dir: Path, p: Path)
    requires Captures(was, source, name, entries) && p in now
    ensures Doomed(Confirmed(now, dir, entries), p) <==>
      AsBefore(was, source, now, dir, p) && (now[p].Dir? ==> forall q | q in now && p < q :: AsBefore(was, source, now, dir, q))
  {
    forall q | q in now ensures (LeafDoomed(Confirmed(now, dir, entries), q) || TrackedDir(Confirmed(now, dir, entries), q))
                             == AsBefore(was, source, now, dir, q)
    {
      CapturedTracking(was, source, name, entries, now, dir, q);
    }
    CapturedTracking(was, source, name, entries, now, dir, p);
  }

  /** The paths strictly below one. */
  function Below(fs: Files, p: Path): set<Path> {
    set q | q in fs && p < q
  }

  /** If everything goes as captured, whatever is due to go goes. */
  lemma {:induction false} DueGoes(was: Files, source: Path, now: Files, dir: Path, after: Files, p: Path)
    requires forall q :: GoesAsCaptured(was, source, now, dir, after, q)
    requires p in now && AsBefore(was, source, now, dir, p)
    requires now[p].Dir? ==> forall q | q in now && p < q :: AsBefore(was, source, now, dir, q)
    ensures p !in after
    decreases |Below(now, p)|
  {
    assert GoesAsCaptured(was, source, now, dir, after, p);
    if now[p].Dir? {
      forall q | q in now && p < q ensures q !in after {
        assert Below(now, q) < Below(now, p) by { assert q in Below(now, p) && q !in Below(now, q); }
        SmallerIsFewer(Below(now, q), Below(now, p));
        DueGoes(was, source, now, dir, after, q);
      }
    }
  }

  lemma SmallerIsFewer(a: set<Path>, b: set<Path>)
    requires a < b
    ensures |a| < |b|
  {
    var x :| x in b && x !in a;
    assert a <= b - {x};
    FewerOrEqual(a, b - {x});
  }

  lemma {:induction false} FewerOrEqual(a: set<Path>, b: set<Path>)
    requires a <= b
    ensures |a| <= |b|
    decreases |a|
  {
    if a != {} {
      var x :| x in a;
      FewerOrEqual(a - {x}, b - {x});
    }
  }

  /** Everything goes as captured exactly when what is left is what is not due to go. */
  lemma GoesAsSurvivors(was: Files, source: Path, name: Path, entries: Ledger, now: Files, dir: Path, after: Files)
    requires Captures(was, source, name, entries) && after.Keys <= now.Keys && forall p | p in after :: after[p] == now[p]
    ensures (forall p :: GoesAsCaptured(was, source, now, dir, after, p)) <==> after == Survivors(Confirmed(now, dir, entries))
  {
    var w := Confirmed(now, dir, entries);
    forall p | p in now ensures Doomed(w, p) <==>
      AsBefore(was, source, now, dir, p) && (now[p].Dir? ==> forall q | q in now && p < q :: AsBefore(was, source, now, dir, q))
    {
      CapturedDoom(was, source, name, entries, now, dir, p);
    }
    if forall p :: GoesAsCaptured(was, source, now, dir, after, p) {
      forall p | p in now ensures p in after <==> !Doomed(w, p) {
        if Doomed(w, p) {
          DueGoes(was, source, now, dir, after, p);
        } else if p !in after {
          assert GoesAsCaptured(was, source, now, dir, after, p);
          forall q | q in now && p < q && now[p].Dir? ensures AsBefore(was, source, now, dir, q) {
            assert GoesAsCaptured(was, source, now, dir, after, q);
          }
        }
      }
    }
    if after == Survivors(w) {
      forall p ensures GoesAsCaptured(was, source, now, dir, after, p) { SurvivorGoes(was, source, name, entries, now, dir, p); }
    }
  }

  lemma SurvivorGoes(was: Files, source: Path, name: Path, entries: Ledger, now: Files, dir: Path, p: Path)
    requires Captures(was, source, name, entries)
    ensures GoesAsCaptured(was, source, now, dir, Survivors(Confirmed(now, dir, entries)), p)
  {
    var w := Confirmed(now, dir, entries);
    if p in now {
      CapturedDoom(was, source, name, entries, now, dir, p);
      CapturedTracking(was, source, name, entries, now, dir, p);
      if Doomed(w, p) && now[p].Dir? {
        forall q | q in now && p < q ensures Doomed(w, q) { ChildOfDoomed(w, p, q); }
      }
      forall q | q in now && Doomed(w, q) ensures AsBefore(was, source, now, dir, q) {
        CapturedDoom(was, source, name, entries, now, dir, q);
      }
    }
  }

  /** Any tree captured, any edits since, everything confirmed: one pass removes exactly the captured files
      and symlinks that are what they were, and the captured directories below which nothing survives, if and
      only if it removes nothing else through a symlink that has come to lie above a tracked place. */
  lemma CapturedSurvivors(was: Files, source: Path, name: Path, entries: Ledger, now: Files, dir: Path)
    requires Captures(was, source, name, entries) && Closed(now)
    ensures var w := Confirmed(now, dir, entries);
      Harmless(w) <==> forall p :: GoesAsCaptured(was, source, now, dir, Pass(w).fs, p)
  {
    var w := Confirmed(now, dir, entries);
    ConfirmedLedgerOk(entries);
    SurvivorsExactly(w);
    forall p | p in Pass(w).fs ensures p in now && Pass(w).fs[p] == now[p] { PassOnlyRemoves(w, 0, 2 * |w.ledger|, p); }
    GoesAsSurvivors(was, source, name, entries, now, dir, Pass(w).fs);
  }

  /** As long as no symlink lies above a captured place, that is so. */
  lemma NoLinkNoHarm(was: Files, source: Path, name: Path, entries: Ledger, now: Files, dir: Path)
    requires Captures(was, source, name, entries) && Closed(now) && dir in now && now[dir].Dir?
    requires forall p | Recorded(was, source, p) :: !LinkAbove(now, dir + p)
    ensures Plain(Confirmed(now, dir, entries)) && Harmless(Confirmed(now, dir, entries))
  {
    var w := Confirmed(now, dir, entries);
    ConfirmedLedgerOk(entries);
    forall i | 0 <= i < |w.ledger| ensures !LinkAbove(now, Place(w, i)) {
      assert Recorded(was, source, entries[i].localPath) && Place(w, i) == dir + entries[i].localPath;
    }
    PlainNeverStrays(w);
  }

  // ---- without edits

  /** Nothing at or below the path is a device, socket or pipe. */
  ghost predicate Removable(fs: Files, p: Path) {
    forall q | q in fs && p <= q :: !fs[q].Special?
  }

  /** The source captured where it stands. */
  ghost predicate CapturedHere(fs: Files, dir: Path, source: Path, name: Path, entries: Ledger) {
    Closed(fs) && Captures(Under(fs, dir), source, name, entries) && dir + source in fs
  }

  lemma UneditedIsPlain(fs: Files, dir: Path, source: Path, name: Path, entries: Ledger)
    requires CapturedHere(fs, dir, source, name, entries)
    ensures Plain(Confirmed(fs, dir, entries))
  {
    assert Recorded(Under(fs, dir), source, source) by { UnderIs(fs, dir, source); }
    var i :| 0 <= i < |entries| && entries[i].localPath == source;
    AncestorsAreThere(fs, dir + source, |dir|);
    assert (dir + source)[..|dir|] == dir;
    forall p | Recorded(Under(fs, dir), source, p) ensures !LinkAbove(fs, dir + p) {
      UnderIs(fs, dir, p);
      PresentIsStraight(fs, dir + p);
    }
    NoLinkNoHarm(Under(fs, dir), source, name, entries, fs, dir);
  }

  lemma UneditedIsAsBefore(fs: Files, dir: Path, source: Path, name: Path, entries: Ledger, p: Path)
    requires CapturedHere(fs, dir, source, name, entries) && p in fs
    ensures AsBefore(Under(fs, dir), source, fs, dir, p) <==> dir + source <= p && !fs[p].Special?
  {
    if dir <= p {
      var local := p[|dir|..];
      assert p == dir + local;
      UnderIs(fs, dir, local);
      assert dir + source <= p <==> source <= local;
    }
  }

  lemma UneditedDoom(fs: Files, dir: Path, source: Path, name: Path, entries: Ledger, p: Path)
    requires CapturedHere(fs, dir, source, name, entries) && p in fs
    ensures Doomed(Confirmed(fs, dir, entries), p) <==> dir + source <= p && Removable(fs, p)
  {
    CapturedDoom(Under(fs, dir), source, name, entries, fs, dir, p);
    forall q | q in fs ensures AsBefore(Under(fs, dir), source, fs, dir, q) <==> dir + source <= q && !fs[q].Special? {
      UneditedIsAsBefore(fs, dir, source, name, entries, q);
    }
    forall q | q in fs && p <= q ensures q == p || p < q {}
    if !fs[p].Dir? { LeafIsAlone(fs, p); }
  }

  /** With no edits, one pass removes all there is except special files and the directories above them. */
  lemma UneditedSurvivors(fs: Files, dir: Path, source: Path, name: Path, entries: Ledger, p: Path)
    requires CapturedHere(fs, dir, source, name, entries) && p in fs
    ensures p !in Pass(Confirmed(fs, dir, entries)).fs <==> dir + source <= p && Removable(fs, p)
  {
    UneditedIsPlain(fs, dir, source, name, entries);
    PassIsFinal(Confirmed(fs, dir, entries));
    UneditedDoom(fs, dir, source, name, entries, p);
  }

  /** The outcome of that pass is Complete exactly when the source holds no device, socket or pipe;
      the whole source is then gone, and nothing else. */
  lemma CompleteInOnePass(fs: Files, dir: Path, source: Path, name: Path, entries: Ledger)
    requires CapturedHere(fs, dir, source, name, entries)
    ensures var done := Pass(Confirmed(fs, dir, entries));
      && ((forall e | e in done.ledger :: e.cleaned) <==> Removable(fs, dir + source))
      && (Removable(fs, dir + source) ==> done.fs == map p | p in fs && !(dir + source <= p) :: fs[p])
  {
    var w := Confirmed(fs, dir, entries);
    UneditedIsPlain(fs, dir, source, name, entries);
    PassIsFinal(w);
    forall p | p in fs ensures Doomed(w, p) == (dir + source <= p && Removable(fs, p)) {
      UneditedDoom(fs, dir, source, name, entries, p);
    }
    CompletionFlags(fs, dir, source, name, entries);
    if Removable(fs, dir + source) { AllGone(w, dir + source); }
  }

  lemma AllGone(w: Work, source: Path)
    requires w.base.Standing? && Removable(w.fs, source)
    requires forall p | p in w.fs :: Doomed(w, p) == (source <= p && Removable(w.fs, p))
    ensures Survivors(w) == map p | p in w.fs && !(source <= p) :: w.fs[p]
  {
    forall p | p in w.fs && source <= p ensures Removable(w.fs, p) { RemovableBelow(w.fs, source, p); }
  }

  lemma RemovableBelow(fs: Files, p: Path, q: Path)
    requires Removable(fs, p) && p <= q
    ensures Removable(fs, q)
  {
    forall r | r in fs && q <= r ensures !fs[r].Special? { assert p <= r; }
  }

  lemma FlagIsRemovable(fs: Files, dir: Path, source: Path, name: Path, entries: Ledger, i: nat)
    requires CapturedHere(fs, dir, source, name, entries) && i < |entries|
    ensures dir + source <= dir + entries[i].localPath
    ensures Flags(Confirmed(fs, dir, entries))[i].cleaned == Removable(fs, dir + entries[i].localPath)
  {
    var w := Confirmed(fs, dir, entries);
    var p := dir + entries[i].localPath;
    assert Flags(w)[i].cleaned == Flag(w, i) && Place(w, i) == p;
    assert Recorded(Under(fs, dir), source, entries[i].localPath);
    UnderIs(fs, dir, entries[i].localPath);
    UneditedDoom(fs, dir, source, name, entries, p);
    assert !AllConfirmed(entries)[i].cleaned && AllConfirmed(entries)[i].confirmed by {
      assert entries[i] == EntryFor(Under(fs, dir)[entries[i].localPath], RelativeName(source, name, entries[i].localPath), entries[i].localPath);
    }
  }

  lemma CompletionFlags(fs: Files, dir: Path, source: Path, name: Path, entries: Ledger)
    requires CapturedHere(fs, dir, source, name, entries)
    ensures (forall e | e in Flags(Confirmed(fs, dir, entries)) :: e.cleaned) <==> Removable(fs, dir + source)
  {
    var flags := Flags(Confirmed(fs, dir, entries));
    forall i | 0 <= i < |flags|
      ensures flags[i].cleaned == Removable(fs, dir + entries[i].localPath) && dir + source <= dir + entries[i].localPath
    {
      FlagIsRemovable(fs, dir, source, name, entries, i);
    }
    SourceIsNamed(fs, dir, source, name, entries);
    Unanimous(fs, dir, source, entries, flags);
  }

  lemma SourceIsNamed(fs: Files, dir: Path, source: Path, name: Path, entries: Ledger)
    requires CapturedHere(fs, dir, source, name, entries)
    ensures NamesPath(entries, source)
  {
    UnderIs(fs, dir, source);
    assert Recorded(Under(fs, dir), source, source);
  }

  lemma Unanimous(fs: Files, dir: Path, source: Path, entries: Ledger, flags: Ledger)
    requires |flags| == |entries| && NamesPath(entries, source)
    requires forall i | 0 <= i < |flags| ::
      flags[i].cleaned == Removable(fs, dir + entries[i].localPath) && dir + source <= dir + entries[i].localPath
    ensures (forall e | e in flags :: e.cleaned) <==> Removable(fs, dir + source)
  {
    if Removable(fs, dir + source) {
      forall i | 0 <= i < |flags| ensures flags[i].cleaned {
        RemovableBelow(fs, dir + source, dir + entries[i].localPath);
      }
    } else {
      var i :| 0 <= i < |entries| && entries[i].localPath == source;
      assert flags[i] in flags;
    }
  }
}

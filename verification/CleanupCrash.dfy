/** Interrupting a pass anywhere and running it again, and confirming again before that. */
module CleanupCrash {
  import opened Records
  import opened SourceFiles
  import opened Cleanup
  import opened CleanupSurvivors
  import opened CleanupFinal
  import PathText

  /** Stopping after any number of iterations, or between a deletion and its ledger write, and running the
      pass again gives the same tree and the same ledger as one uninterrupted pass. */
  ghost predicate Reruns(w: Work) {
    forall k: nat | k <= 2 * |w.ledger| :: RerunsAt(w, k)
  }

  ghost predicate RerunsAt(w: Work, k: nat)
    requires k <= 2 * |w.ledger|
  {
    var v := Iterations(w, k);
    Pass(v) == Pass(w) && (k < 2 * |w.ledger| ==> Pass(Torn(v, k)) == Pass(w))
  }

  /** No visit, made again at any later point of the pass, would clean its entry. */
  ghost predicate Stable(w: Work) {
    forall m: nat | m <= 2 * |w.ledger| :: StableAt(Iterations(w, m), m)
  }

  predicate StableAt(v: Work, m: nat)
    requires m <= 2 * |v.ledger|
  {
    forall j: nat | j < m :: !Cleans(v, j)
  }

  // ---- running again what does nothing

  lemma {:induction false} IdlePrefix(v: Work, m: nat, j: nat)
    requires j <= m <= 2 * |v.ledger| && StableAt(v, m)
    ensures Iterations(v, j) == v
  {
    if j > 0 {
      IdlePrefix(v, m, j - 1);
      assert !Cleans(v, j - 1);
    }
  }

  lemma {:induction false} SameFromThere(v: Work, w: Work, m: nat, k: nat)
    requires |v.ledger| == |w.ledger| && m <= k <= 2 * |w.ledger| && Iterations(v, m) == Iterations(w, m)
    ensures Iterations(v, k) == Iterations(w, k)
  {
    if m < k { SameFromThere(v, w, m, k - 1); }
  }

  /** A path that led to what has been unlinked leads nowhere. */
  lemma {:induction false} LeadsNowhere(fs: Files, at: Path, rest: Path, links: nat)
    requires Walk(fs, at, rest, false, links).Found?
    ensures Walk(fs - {Walk(fs, at, rest, false, links).place}, at, rest, false, links) == NotFound
    decreases links, |rest|
  {
    var q := at + (if rest == [] then [] else [rest[0]]);
    var victim := Walk(fs, at, rest, false, links).place;
    if rest == [] {
    } else if rest[0] == "." {
      LeadsNowhere(fs, at, rest[1..], links);
    } else if rest[0] == ".." {
      LeadsNowhere(fs, if at == [] then [] else Parent(at), rest[1..], links);
    } else if q != victim && fs[q].Dir? {
      LeadsNowhere(fs, q, rest[1..], links);
    } else if q != victim {
      LeadsNowhere(fs, if fs[q].target[0] == '/' then [] else at, PathText.Components(fs[q].target) + rest[1..], links - 1);
    }
  }

  /** The iteration that was torn, run again: nothing is found, and the flag is set. */
  lemma TornIsMadeGood(v: Work, m: nat)
    requires m < 2 * |v.ledger| && Cleans(v, m)
    ensures Iterate(Torn(v, m), m) == Iterate(v, m)
  {
    var i := IndexOf(|v.ledger|, m);
    var t := Torn(v, m);
    if Target(v, i).Found? { LeadsNowhere(v.fs, v.base.dir, v.ledger[i].localPath, MAX_LINKS); }
    assert Target(t, i) == NotFound;
  }

  /** With its flag still unset, a torn iteration lets earlier visits do no more than the finished one. */
  lemma TornIsStable(v: Work, m: nat)
    requires m < 2 * |v.ledger| && Cleans(v, m) && StableAt(Iterate(v, m), m)
    ensures StableAt(Torn(v, m), m)
  {
    var t, u, i := Torn(v, m), Iterate(v, m), IndexOf(|v.ledger|, m);
    forall j: nat | j < m ensures !Cleans(t, j) {
      assert !Cleans(u, j);
      var l := IndexOf(|v.ledger|, j);
      if l != i && j >= |v.ledger| { FlagsOnlyHelp(t, u, i, t.ledger[l].localPath); }
    }
  }

  lemma FlagsOnlyHelp(t: Work, u: Work, i: nat, local: Path)
    requires i < |t.ledger| && u == t.(ledger := Mark(t.ledger, i))
    ensures CanRemoveDirectory(t.fs, t.base, t.ledger, local) ==> CanRemoveDirectory(u.fs, u.base, u.ledger, local)
  {
    forall e | e in t.ledger && (e.cleaned || !e.confirmed)
      ensures exists f | f in u.ledger :: f.localPath == e.localPath && (f.cleaned || !f.confirmed)
    {
      var l :| 0 <= l < |t.ledger| && t.ledger[l] == e;
      assert u.ledger[l] in u.ledger;
    }
  }

  lemma StableReruns(w: Work, k: nat)
    requires Stable(w) && k <= 2 * |w.ledger|
    ensures RerunsAt(w, k)
  {
    var v := Iterations(w, k);
    assert StableAt(v, k);
    IdlePrefix(v, k, k);
    SameFromThere(v, w, k, 2 * |w.ledger|);
    if k < 2 * |w.ledger| && Cleans(v, k) {
      var t := Torn(v, k);
      assert Iterations(w, k + 1) == Iterate(v, k);
      assert StableAt(Iterations(w, k + 1), k + 1);
      TornIsStable(v, k);
      IdlePrefix(t, k, k);
      TornIsMadeGood(v, k);
      assert Iterations(t, k + 1) == Iterations(w, k + 1);
      SameFromThere(t, w, k + 1, 2 * |w.ledger|);
    }
  }

  // ---- and the other way round

  /** The phase that visits an entry of its kind. */
  predicate Visits(ledger: Ledger, k: nat)
    requires k < 2 * |ledger|
  {
    (k < |ledger|) == (ledger[IndexOf(|ledger|, k)].kind != Directory)
  }

  lemma {:induction false} KindStays(w: Work, k: nat, i: nat)
    requires k <= 2 * |w.ledger| && i < |w.ledger|
    ensures Iterations(w, k).ledger[i].kind == w.ledger[i].kind
  {
    if k > 0 { KindStays(w, k - 1, i); }
  }

  /** A flag is set by the one iteration that visits its entry, and by no other. */
  lemma {:induction false} FlagWaits(w: Work, j: nat, m: nat, k: nat)
    requires j < m <= k <= 2 * |w.ledger| && Visits(w.ledger, j)
    requires !Iterations(w, m).ledger[IndexOf(|w.ledger|, j)].cleaned
    ensures !Iterations(w, k).ledger[IndexOf(|w.ledger|, j)].cleaned
  {
    if m < k {
      FlagWaits(w, j, m, k - 1);
      KindStays(w, k - 1, IndexOf(|w.ledger|, k - 1));
    }
  }

  lemma {:induction false} FlagStays(w: Work, j: nat, k: nat, i: nat)
    requires j <= k <= 2 * |w.ledger| && i < |w.ledger| && Iterations(w, j).ledger[i].cleaned
    ensures Iterations(w, k).ledger[i].cleaned
  {
    if j < k { FlagStays(w, j, k - 1, i); }
  }

  lemma {:induction false} FirstToClean(v: Work, m: nat) returns (j: nat)
    requires m <= 2 * |v.ledger| && !StableAt(v, m)
    ensures j < m && Cleans(v, j) && StableAt(v, j)
  {
    if StableAt(v, m - 1) {
      j := m - 1;
    } else {
      j := FirstToClean(v, m - 1);
    }
  }

  lemma RerunsAreStable(w: Work, m: nat)
    requires Reruns(w) && m <= 2 * |w.ledger|
    ensures StableAt(Iterations(w, m), m)
  {
    var v := Iterations(w, m);
    assert RerunsAt(w, m);
    if !StableAt(v, m) {
      var j := FirstToClean(v, m);
      var i := IndexOf(|w.ledger|, j);
      IdlePrefix(v, j, j);
      assert Iterations(v, j + 1).ledger[i].cleaned;
      FlagStays(v, j + 1, 2 * |w.ledger|, i);
      KindStays(w, m, i);
      FlagWaits(w, j, m, 2 * |w.ledger|);
    }
  }

  /** A pass may be interrupted anywhere and run again, for any ledger and any tree, if and only if nothing
      that one of its visits left alone would be cleaned by a later one. */
  lemma RerunsExactly(w: Work)
    ensures Reruns(w) <==> Stable(w)
  {
    if Stable(w) {
      forall k: nat | k <= 2 * |w.ledger| ensures RerunsAt(w, k) { StableReruns(w, k); }
    }
    if Reruns(w) {
      forall m: nat | m <= 2 * |w.ledger| ensures StableAt(Iterations(w, m), m) { RerunsAreStable(w, m); }
    }
  }

  // ---- interrupted again and again

  /** A place to stop: after k iterations, or in the middle of the next. */
  datatype StopAt = StopAt(k: nat, torn: bool)

  function StoppedAt(w: Work, stop: StopAt): Work {
    if stop.k > 2 * |w.ledger| then Pass(w)
    else if stop.torn && stop.k < 2 * |w.ledger| then Torn(Iterations(w, stop.k), stop.k)
    else Iterations(w, stop.k)
  }

  /** Started from the beginning after every stop. */
  function Interrupted(w: Work, stops: seq<StopAt>): Work
    decreases |stops|
  {
    if stops == [] then w else StoppedAt(Interrupted(w, stops[..|stops| - 1]), stops[|stops| - 1])
  }

  /** What does nothing up to k, and from m on is where the whole pass is, is as stable. */
  lemma StableFromThere(t: Work, w: Work, k: nat, m: nat)
    requires Stable(w) && |t.ledger| == |w.ledger| && k <= m <= k + 1 && m <= 2 * |w.ledger|
    requires StableAt(t, k) && Iterations(t, m) == Iterations(w, m)
    ensures Stable(t)
  {
    forall j: nat | j <= 2 * |t.ledger| ensures StableAt(Iterations(t, j), j) {
      if j <= k {
        IdlePrefix(t, k, j);
      } else {
        SameFromThere(t, w, m, j);
      }
    }
  }

  lemma StoppedIsStable(w: Work, k: nat)
    requires Stable(w) && k <= 2 * |w.ledger|
    ensures Stable(Iterations(w, k))
  {
    var v := Iterations(w, k);
    assert StableAt(v, k);
    IdlePrefix(v, k, k);
    StableFromThere(v, w, k, k);
  }

  lemma TornIsStableToo(w: Work, k: nat)
    requires Stable(w) && k < 2 * |w.ledger| && Cleans(Iterations(w, k), k)
    ensures Stable(Torn(Iterations(w, k), k))
  {
    var v := Iterations(w, k);
    var t := Torn(v, k);
    assert StableAt(Iterations(w, k + 1), k + 1);
    TornIsStable(v, k);
    IdlePrefix(t, k, k);
    TornIsMadeGood(v, k);
    StableFromThere(t, w, k, k + 1);
  }

  lemma OneStop(w: Work, stop: StopAt)
    requires Stable(w)
    ensures Stable(StoppedAt(w, stop)) && Pass(StoppedAt(w, stop)) == Pass(w)
  {
    var n := 2 * |w.ledger|;
    var k := if stop.k > n then n else stop.k;
    StoppedIsStable(w, k);
    StableReruns(w, k);
    if stop.torn && k < n && Cleans(Iterations(w, k), k) { TornIsStableToo(w, k); }
  }

  /** However often a pass is stopped, and wherever, running it once more to the end gives what one uninterrupted
      pass gives. */
  lemma {:induction false} RerunsAgainAndAgain(w: Work, stops: seq<StopAt>)
    requires Stable(w)
    ensures Stable(Interrupted(w, stops)) && Pass(Interrupted(w, stops)) == Pass(w)
    decreases |stops|
  {
    if stops != [] {
      RerunsAgainAndAgain(w, stops[..|stops| - 1]);
      OneStop(Interrupted(w, stops[..|stops| - 1]), stops[|stops| - 1]);
    }
  }

  /** Without symlinks above tracked places that is so. */
  lemma PlainIsStable(w: Work)
    requires Plain(w)
    ensures Stable(w)
  {
    forall m: nat | m <= 2 * |w.ledger| ensures StableAt(Iterations(w, m), m) {
      IterationsKeepFinal(w, m);
      IterationsSettle(w, m);
      SettledIsStable(Iterations(w, m), m);
    }
  }

  lemma SettledIsStable(v: Work, m: nat)
    requires Plain(v) && m <= 2 * |v.ledger| && Visited(v, m)
    ensures StableAt(v, m)
  {
    forall j: nat | j < m ensures !Cleans(v, j) {
      var i := IndexOf(|v.ledger|, j);
      if Visits(v.ledger, j) {
        assert Settled(v, i);
        IterationKeepsFinal(v, j);
        assert Flags(Iterate(v, j))[i].cleaned == Flag(Iterate(v, j), i) && Flags(v)[i].cleaned == Flag(v, i);
      }
    }
  }

  /** A crash after any number of iterations, or between a deletion and its ledger write, is made
      good by running the pass again: same source tree, same ledger as one uninterrupted pass. */
  lemma CrashRefinement(w: Work, k: nat)
    requires Plain(w) && k <= 2 * |w.ledger|
    ensures Pass(Iterations(w, k)) == Pass(w)
    ensures k < 2 * |w.ledger| ==> Pass(Torn(Iterations(w, k), k)) == Pass(w)
  {
    PlainIsStable(w);
    StableReruns(w, k);
  }

  // ---- confirmation

  /** The status marks this very entry imported. */
  predicate NamedImported(status: RunStatus, e: CleanupEntry) {
    exists s | s in status.entries ::
      s.status == Imported && s.localPath == e.localPath && s.relativePath == e.relativePath && s.kind == e.kind
  }

  /** The entry, or a directory entry of the ledger above it, is marked imported. */
  predicate ConfirmedBy(ledger: Ledger, status: RunStatus, i: nat)
    requires i < |ledger|
  {
    || NamedImported(status, ledger[i])
    || exists j | 0 <= j < |ledger| ::
         ledger[j].kind == Directory && NamedImported(status, ledger[j]) && ledger[j].relativePath < ledger[i].relativePath
  }

  function ConfirmFromStatus(ledger: Ledger, status: RunStatus): (r: Ledger)
    ensures |r| == |ledger|
  {
    seq(|ledger|, i requires 0 <= i < |ledger| => ledger[i].(confirmed := ConfirmedBy(ledger, status, i)))
  }

  /** The parts of an entry that confirming and cleaning leave alone. */
  predicate SameEntry(a: CleanupEntry, b: CleanupEntry) {
    b == a.(confirmed := b.confirmed, cleaned := b.cleaned)
  }

  predicate SameEntries(a: Ledger, b: Ledger) {
    |a| == |b| && forall i | 0 <= i < |a| :: SameEntry(a[i], b[i])
  }

  lemma SameEntriesConfirmAlike(a: Ledger, b: Ledger, status: RunStatus, i: nat)
    requires SameEntries(a, b) && i < |a|
    ensures ConfirmedBy(a, status, i) == ConfirmedBy(b, status, i)
  {
    forall j | 0 <= j < |a| ensures NamedImported(status, a[j]) == NamedImported(status, b[j]) { assert SameEntry(a[j], b[j]); }
    forall j | 0 <= j < |a| ensures a[j].relativePath == b[j].relativePath && a[j].kind == b[j].kind { assert SameEntry(a[j], b[j]); }
  }

  lemma IterationsKeepEntries(w: Work, k: nat)
    requires k <= 2 * |w.ledger|
    ensures SameEntries(w.ledger, Iterations(w, k).ledger)
    ensures forall i | 0 <= i < |w.ledger| :: Iterations(w, k).ledger[i].confirmed == w.ledger[i].confirmed
  {
    var P := (u: Work, j: nat) =>
      SameEntries(w.ledger, u.ledger) && forall i | 0 <= i < |w.ledger| :: u.ledger[i].confirmed == w.ledger[i].confirmed;
    IterationsInduct(w, k, P);
  }

  /** Confirming again, with the same status, changes nothing at any point of the pass. */
  lemma ReconfirmingChangesNothing(w: Work, status: RunStatus, k: nat)
    requires w.ledger == ConfirmFromStatus(w.ledger, status) && k <= 2 * |w.ledger|
    ensures ConfirmFromStatus(Iterations(w, k).ledger, status) == Iterations(w, k).ledger
  {
    var v := Iterations(w, k);
    IterationsKeepEntries(w, k);
    forall i | 0 <= i < |w.ledger| ensures ConfirmFromStatus(v.ledger, status)[i] == v.ledger[i] {
      SameEntriesConfirmAlike(w.ledger, v.ledger, status, i);
      assert w.ledger[i] == ConfirmFromStatus(w.ledger, status)[i];
      assert v.ledger[i].(confirmed := v.ledger[i].confirmed) == v.ledger[i];
    }
  }

  /** So resuming a confirmed pass by confirming and cleaning gives what the uninterrupted pass gives. */
  lemma ReconfirmAndResume(w: Work, status: RunStatus, k: nat)
    requires Stable(w) && w.ledger == ConfirmFromStatus(w.ledger, status) && k <= 2 * |w.ledger|
    ensures var v := Iterations(w, k);
      && Pass(v.(ledger := ConfirmFromStatus(v.ledger, status))) == Pass(w)
      && (k < 2 * |w.ledger| ==>
            var t := Torn(v, k); Pass(t.(ledger := ConfirmFromStatus(t.ledger, status))) == Pass(w))
  {
    ReconfirmingChangesNothing(w, status, k);
    StableReruns(w, k);
  }

  /** Entry i lies below directory j, which the status marks; entry i itself it does not mark. */
  predicate UnmarkedBelow(ledger: Ledger, status: RunStatus, i: nat, j: nat)
    requires i < |ledger| && j < |ledger|
  {
    && ledger[j].kind == Directory && NamedImported(status, ledger[j])
    && ledger[j].relativePath < ledger[i].relativePath && !NamedImported(status, ledger[i])
  }

  /** A status that marks a directory confirms the file in it, which it does not mark. */
  lemma ConfirmedUnmarked() returns (ledger: Ledger, status: RunStatus)
    ensures |ledger| == 2 && !NamedImported(status, ledger[0]) && ConfirmFromStatus(ledger, status)[0].confirmed
  {
    ledger := [CleanupEntry(["d", "f"], ["d", "f"], RegularFile, 0, 0, Some(""), None, false, false),
               CleanupEntry(["d"], ["d"], Directory, 0, 0, None, None, false, false)];
    status := RunStatus("n", "r", StateDone, [EntryStatus(Directory, ["d"], ["d"], Imported)], "");
    assert status.entries[0] in status.entries;
    assert NamedImported(status, ledger[1]) && ledger[1].relativePath < ledger[0].relativePath;
  }

  /** Some entry is confirmed although the status does not mark it exactly when a marked directory of the
      ledger has an entry below it that the status does not mark. */
  lemma ConfirmedBeyondStatus(ledger: Ledger, status: RunStatus)
    ensures (exists i | 0 <= i < |ledger| :: ConfirmFromStatus(ledger, status)[i].confirmed && !NamedImported(status, ledger[i]))
       <==> (exists i, j | 0 <= i < |ledger| && 0 <= j < |ledger| :: UnmarkedBelow(ledger, status, i, j))
  {
    var c := ConfirmFromStatus(ledger, status);
    forall i | 0 <= i < |ledger| ensures c[i].confirmed == ConfirmedBy(ledger, status, i) {}
    if i, j :| 0 <= i < |ledger| && 0 <= j < |ledger| && UnmarkedBelow(ledger, status, i, j) {
      assert c[i].confirmed;
    }
    if i :| 0 <= i < |ledger| && c[i].confirmed && !NamedImported(status, ledger[i]) {
      var j :| 0 <= j < |ledger| && ledger[j].kind == Directory && NamedImported(status, ledger[j])
        && ledger[j].relativePath < ledger[i].relativePath;
      assert UnmarkedBelow(ledger, status, i, j);
    }
  }
}

/** What holds of the client in every state it can reach, whatever crashes and whoever edits the source. */
module ClientTheorems {
  import opened Records
  import opened SourceFiles
  import opened Cleanup
  import opened CleanupCrash
  import opened CleanupCapture
  import opened ClientProtocol

  // ---- the invariant, operation by operation

  /** A direct transfer succeeded, or a status of this very run marks the entry, or a directory entry
      of the ledger above it, imported. */
  ghost predicate Authorised(s: Client, op: Op, i: nat)
    requires op in s.captured && i < |s.captured[op].entries|
  {
    op in s.synced || exists st | st in s.told :: Envelope(st, op) && ConfirmedBy(s.captured[op].entries, st, i)
  }

  ghost predicate LedgerFileOk(s: Client, op: Op)
    requires op in s.ledgers
  {
    && op in s.captured
    && SameEntries(s.captured[op].entries, s.ledgers[op])
    && forall i | 0 <= i < |s.ledgers[op]| :: s.ledgers[op][i].confirmed || s.ledgers[op][i].cleaned ==> Authorised(s, op, i)
  }

  /** A ledger is given up only when every entry had authority to go. */
  ghost predicate GivenUpOk(s: Client, op: Op) {
    op in s.captured && op !in s.ledgers ==> forall i | 0 <= i < |s.captured[op].entries| :: Authorised(s, op, i)
  }

  predicate CompleteOk(s: Client, op: Op, complete: bool) {
    complete ==> op in s.ledgers && AllCleaned(s.ledgers[op])
  }

  /** A run before CleanupComplete has its ledger; a seen status is stored and is this run's. */
  predicate RunFileOk(s: Client, op: Op)
    requires op in s.runs
  {
    && (s.runs[op].phase != CleanupComplete ==> op in s.ledgers)
    && (s.runs[op].phase == TerminalStatusSeen ==>
          s.runs[op].status.Some? && Envelope(s.runs[op].status.value, op) && s.runs[op].status.value in s.told)
  }

  predicate HasPhase(s: Client, op: Op, phase: RunPhase) {
    op in s.runs && s.runs[op].phase == phase
  }

  predicate AtRunOk(s: Client, op: Op, step: RunStep) {
    match step
    case Finishing => HasPhase(s, op, UploadCompleteFinishPending)
    case Waiting => HasPhase(s, op, WaitingForTerminalState)
    case Confirming(st) => HasPhase(s, op, TerminalStatusSeen) && s.runs[op].status == Some(st)
    case PersistingComplete(complete) => HasPhase(s, op, TerminalStatusSeen) && CompleteOk(s, op, complete)
    case Retiring(complete) => HasPhase(s, op, CleanupComplete) && CompleteOk(s, op, complete)
    case RemovingRun => HasPhase(s, op, CleanupComplete)
    case _ => false
  }

  predicate CleaningOk(s: Client, op: Op, k: nat, torn: bool, mode: Mode) {
    && op in s.ledgers
    && (torn ==> k < 2 * |s.ledgers[op]| && s.ledgers[op][IndexOf(|s.ledgers[op]|, k)].confirmed)
    && (mode.Direct? ==> op !in s.runs)
    && (mode.Inline? ==> HasPhase(s, op, TerminalStatusSeen))
    && (mode.Local? ==> HasPhase(s, op, CleanupComplete))
  }

  predicate PcOk(s: Client) {
    match s.pc
    case Fresh(op, stage) => op in s.ledgers && op !in s.runs && (stage == DirectConfirm ==> op in s.synced)
    case AtRun(op, step, _) => AtRunOk(s, op, step)
    case Cleaning(op, k, torn, mode) => CleaningOk(s, op, k, torn, mode)
    case _ => true
  }

  ghost predicate OpOk(s: Client, op: Op) {
    && (op in s.ledgers ==> LedgerFileOk(s, op))
    && (op in s.runs ==> op in s.captured && RunFileOk(s, op))
    && GivenUpOk(s, op)
  }

  ghost predicate Inv(s: Client) {
    PcOk(s) && forall op :: OpOk(s, op)
  }

  // ---- every step keeps it

  /** Steps that leave an operation's two files alone, and forget no history. */
  predicate Untouched(s: Client, s': Client, op: Op) {
    && (op in s'.ledgers <==> op in s.ledgers) && (op in s.ledgers ==> s'.ledgers[op] == s.ledgers[op])
    && (op in s'.runs <==> op in s.runs) && (op in s.runs ==> s'.runs[op] == s.runs[op])
    && (op in s.captured <==> op in s'.captured) && (op in s.captured ==> s'.captured[op] == s.captured[op])
    && s.synced <= s'.synced && s.told <= s'.told
  }

  lemma UntouchedStaysOk(s: Client, s': Client, op: Op)
    requires OpOk(s, op) && Untouched(s, s', op)
    ensures OpOk(s', op)
  {
    if op in s.captured {
      forall i | 0 <= i < |s.captured[op].entries| && Authorised(s, op, i) ensures Authorised(s', op, i) {}
    }
  }

  /** A step of one operation leaves all others alone. */
  lemma OthersStayOk(s: Client, s': Client, op: Op)
    requires Inv(s) && OpOk(s', op) && forall o | o != op :: Untouched(s, s', o)
    ensures forall o :: OpOk(s', o)
  {
    forall o ensures OpOk(s', o) {
      assert OpOk(s, o);
      if o != op { UntouchedStaysOk(s, s', o); }
    }
  }

  lemma StartingKeepsInv(s: Client, c: Choice)
    requires Inv(s) && s.pc == Starting
    ensures Inv(ActStarting(s, c))
  {
    var s' := ActStarting(s, c);
    if CanStart(s, c) {
      assert OpOk(s, c.op);
      assert forall i | 0 <= i < |c.entries| :: SameEntry(c.entries[i], c.entries[i]);
      assert OpOk(s', c.op);
      OthersStayOk(s, s', c.op);
    } else {
      MoveKeepsInv(s, s');
    }
  }

  lemma ConfirmedStaysOk(s: Client, op: Op)
    requires op in s.ledgers && LedgerFileOk(s, op) && op in s.synced
    ensures LedgerFileOk(s.(ledgers := s.ledgers[op := AllConfirmed(s.ledgers[op])]), op)
  {
    var c := AllConfirmed(s.ledgers[op]);
    forall i | 0 <= i < |c| ensures SameEntry(s.captured[op].entries[i], c[i]) {
      assert SameEntry(s.captured[op].entries[i], s.ledgers[op][i]);
    }
  }

  lemma FreshKeepsInv(s: Client, c: Choice)
    requires Inv(s) && s.pc.Fresh?
    ensures Inv(ActFresh(s, c, s.pc.op, s.pc.stage))
  {
    var op := s.pc.op;
    var s' := ActFresh(s, c, op, s.pc.stage);
    assert OpOk(s, op);
    if s.pc.stage == DirectConfirm {
      ConfirmedStaysOk(s, op);
      assert LedgerFileOk(s', op);
    } else if op in s'.ledgers {
      UntouchedLedgerOk(s, s', op);
    }
    OthersStayOk(s, s', op);
  }

  /** The ledger file is as before and no history is lost. */
  lemma UntouchedLedgerOk(s: Client, s': Client, op: Op)
    requires op in s.ledgers && LedgerFileOk(s, op) && op in s'.ledgers && s'.ledgers[op] == s.ledgers[op]
    requires op in s'.captured && s'.captured[op] == s.captured[op] && s.synced <= s'.synced && s.told <= s'.told
    ensures LedgerFileOk(s', op)
  {
    forall i | 0 <= i < |s.captured[op].entries| && Authorised(s, op, i) ensures Authorised(s', op, i) {}
  }

  lemma GivingUpOk(s: Client, s': Client, op: Op)
    requires op in s.ledgers && LedgerFileOk(s, op) && AllCleaned(s.ledgers[op])
    requires s'.captured == s.captured && s'.synced == s.synced && s'.told == s.told
    ensures GivenUpOk(s', op)
  {
    forall i | 0 <= i < |s.captured[op].entries| ensures Authorised(s', op, i) { assert Authorised(s, op, i); }
  }

  /** Confirming from a status that the server gave for this run. */
  lemma StatusConfirmOk(s: Client, op: Op, st: RunStatus)
    requires op in s.ledgers && LedgerFileOk(s, op) && st in s.told && Envelope(st, op)
    ensures LedgerFileOk(s.(ledgers := s.ledgers[op := ConfirmFromStatus(s.ledgers[op], st)]), op)
  {
    var was, c := s.ledgers[op], ConfirmFromStatus(s.ledgers[op], st);
    forall i | 0 <= i < |c|
      ensures SameEntry(s.captured[op].entries[i], c[i]) && c[i].confirmed == ConfirmedBy(s.captured[op].entries, st, i)
    {
      assert SameEntry(s.captured[op].entries[i], was[i]);
      SameEntriesConfirmAlike(s.captured[op].entries, was, st, i);
    }
  }

  /** The two files of the run at hand after one of its steps. */
  lemma RunStepOk(s: Client, c: Choice, op: Op, step: RunStep, next: Then)
    requires Inv(s) && s.pc == AtRun(op, step, next)
    ensures OpOk(ActRun(s, c, op, step, next), op) && PcOk(ActRun(s, c, op, step, next))
  {
    var s' := ActRun(s, c, op, step, next);
    assert AtRunOk(s, op, step);
    assert OpOk(s, op);
    if step.Confirming? {
      StatusConfirmOk(s, op, step.st);
      assert LedgerFileOk(s', op);
    } else if op in s'.ledgers {
      UntouchedLedgerOk(s, s', op);
    } else if op in s.ledgers {
      GivingUpOk(s, s', op);
    } else {
      UntouchedStaysGivenUp(s, s', op);
    }
  }

  lemma UntouchedStaysGivenUp(s: Client, s': Client, op: Op)
    requires GivenUpOk(s, op) && op !in s.ledgers
    requires s'.captured == s.captured && s.synced <= s'.synced && s.told <= s'.told
    ensures GivenUpOk(s', op)
  {
    if op in s.captured {
      forall i | 0 <= i < |s.captured[op].entries| && Authorised(s, op, i) ensures Authorised(s', op, i) {}
    }
  }

  lemma RunLeavesOthers(s: Client, c: Choice, op: Op, step: RunStep, next: Then, o: Op)
    requires o != op
    ensures Untouched(s, ActRun(s, c, op, step, next), o)
  {}

  lemma RunKeepsInv(s: Client, c: Choice)
    requires Inv(s) && s.pc.AtRun?
    ensures Inv(ActRun(s, c, s.pc.op, s.pc.step, s.pc.next))
  {
    var op, step, next := s.pc.op, s.pc.step, s.pc.next;
    RunStepOk(s, c, op, step, next);
    forall o | o != op ensures Untouched(s, ActRun(s, c, op, step, next), o) { RunLeavesOthers(s, c, op, step, next, o); }
    OthersStayOk(s, ActRun(s, c, op, step, next), op);
  }

  lemma MarkOk(s: Client, op: Op, i: nat)
    requires op in s.ledgers && LedgerFileOk(s, op) && i < |s.ledgers[op]| && s.ledgers[op][i].confirmed
    ensures LedgerFileOk(s.(ledgers := s.ledgers[op := Mark(s.ledgers[op], i)]), op)
  {
    var was, l := s.ledgers[op], Mark(s.ledgers[op], i);
    forall j | 0 <= j < |l| ensures SameEntry(s.captured[op].entries[j], l[j]) && l[j].confirmed == was[j].confirmed {
      assert SameEntry(s.captured[op].entries[j], was[j]);
    }
    var s' := s.(ledgers := s.ledgers[op := l]);
    forall j | 0 <= j < |l| && (l[j].confirmed || l[j].cleaned) ensures Authorised(s', op, j) {
      assert Authorised(s, op, j);
    }
  }

  lemma CleaningStepOk(s: Client, op: Op, k: nat, torn: bool, mode: Mode)
    requires Inv(s) && s.pc == Cleaning(op, k, torn, mode)
    ensures OpOk(ActCleaning(s, op, k, torn, mode), op) && PcOk(ActCleaning(s, op, k, torn, mode))
  {
    var s' := ActCleaning(s, op, k, torn, mode);
    assert CleaningOk(s, op, k, torn, mode);
    assert OpOk(s, op);
    if k < 2 * |s.ledgers[op]| && torn {
      MarkOk(s, op, IndexOf(|s.ledgers[op]|, k));
      assert LedgerFileOk(s', op);
    } else if op in s'.ledgers {
      UntouchedLedgerOk(s, s', op);
    } else {
      GivingUpOk(s, s', op);
    }
  }

  lemma CleaningLeavesOthers(s: Client, op: Op, k: nat, torn: bool, mode: Mode, o: Op)
    requires o != op
    ensures Untouched(s, ActCleaning(s, op, k, torn, mode), o)
  {}

  lemma CleaningKeepsInv(s: Client)
    requires Inv(s) && s.pc.Cleaning?
    ensures Inv(ActCleaning(s, s.pc.op, s.pc.k, s.pc.torn, s.pc.mode))
  {
    var op, k, torn, mode := s.pc.op, s.pc.k, s.pc.torn, s.pc.mode;
    CleaningStepOk(s, op, k, torn, mode);
    forall o | o != op ensures Untouched(s, ActCleaning(s, op, k, torn, mode), o) { CleaningLeavesOthers(s, op, k, torn, mode, o); }
    OthersStayOk(s, ActCleaning(s, op, k, torn, mode), op);
  }

  /** Steps that only move the client along. */
  lemma MoveKeepsInv(s: Client, s': Client)
    requires Inv(s) && s' == s.(pc := s'.pc, fs := s'.fs, cwd := s'.cwd) && PcOk(s')
    ensures Inv(s')
  {
    forall op ensures OpOk(s', op) {
      assert OpOk(s, op);
      UntouchedStaysOk(s, s', op);
    }
  }

  lemma ScanningMoves(s: Client, c: Choice)
    requires Inv(s) && s.pc.Scanning?
    ensures Inv(ActScanning(s, c, s.pc.todo))
  {
    MoveKeepsInv(s, ActScanning(s, c, s.pc.todo));
  }

  lemma DrainingMoves(s: Client, c: Choice)
    requires Inv(s) && s.pc.Draining?
    ensures Inv(ActDraining(s, c, s.pc.todo, s.pc.failed))
  {
    assert OpOk(s, c.op);
    MoveKeepsInv(s, ActDraining(s, c, s.pc.todo, s.pc.failed));
  }

  lemma ActKeepsInv(s: Client, c: Choice)
    requires Inv(s)
    ensures Inv(Advance(s, c))
  {
    match s.pc
    case Idle =>
    case Scanning(_) => ScanningMoves(s, c);
    case Draining(_, _) => DrainingMoves(s, c);
    case Starting => StartingKeepsInv(s, c);
    case Fresh(_, _) => FreshKeepsInv(s, c);
    case AtRun(_, _, _) => RunKeepsInv(s, c);
    case Cleaning(_, _, _, _) => CleaningKeepsInv(s);
  }

  lemma StepKeepsInv(s: Client, e: Event)
    requires Inv(s)
    ensures Inv(Step(s, e))
  {
    if e.Act? { ActKeepsInv(s, e.choice); } else { MoveKeepsInv(s, Step(s, e)); }
  }

  lemma {:induction false} AlwaysInv(fs: Files, events: seq<Event>)
    ensures Inv(After(fs, events))
    decreases |events|
  {
    if events != [] {
      AlwaysInv(fs, events[..|events| - 1]);
      StepKeepsInv(After(fs, events[..|events| - 1]), events[|events| - 1]);
    }
  }

  // ---- theorems

  /** In every crash state a run before CleanupComplete still has its cleanup ledger, and a run at
      TerminalStatusSeen has a stored status of that very run. */
  lemma TwoFileOrdering(fs: Files, events: seq<Event>, op: Op)
    ensures var s := After(fs, events);
      op in s.runs ==>
        && (s.runs[op].phase != CleanupComplete ==> op in s.ledgers)
        && (s.runs[op].phase == TerminalStatusSeen ==> s.runs[op].status.Some? && Envelope(s.runs[op].status.value, op))
  {
    AlwaysInv(fs, events);
    assert OpOk(After(fs, events), op);
  }

  /** A cleanup ledger is removed only when every entry in it is cleaned, and only when its run, if one is
      persisted, is past needing it; every entry ever captured then had authority to go. */
  lemma RetiredOnlyWhenCleaned(fs: Files, events: seq<Event>, e: Event, op: Op)
    ensures var s := After(fs, events);
      && (op in s.ledgers && op !in Step(s, e).ledgers ==>
            && AllCleaned(s.ledgers[op])
            && (op in s.runs ==> s.runs[op].phase == CleanupComplete))
      && (op in s.captured && op !in s.ledgers ==> forall i | 0 <= i < |s.captured[op].entries| :: Authorised(s, op, i))
  {
    AlwaysInv(fs, events);
    var s := After(fs, events);
    assert OpOk(s, op);
    if op in s.ledgers && op !in Step(s, e).ledgers { RetirementNeedsCompletion(s, e, op); }
  }

  lemma RunRetires(s: Client, c: Choice, at: Op, step: RunStep, next: Then, op: Op)
    requires op in s.ledgers && op !in ActRun(s, c, at, step, next).ledgers
    ensures at == op && step == Retiring(true)
  {}

  lemma CleaningRetires(s: Client, at: Op, k: nat, torn: bool, mode: Mode, op: Op)
    requires op in s.ledgers && op !in ActCleaning(s, at, k, torn, mode).ledgers && CleaningOk(s, at, k, torn, mode)
    ensures at == op && AllCleaned(s.ledgers[op]) && op !in s.runs
  {}

  lemma OnlyTheseRetire(s: Client, e: Event, op: Op)
    requires op in s.ledgers && op !in Step(s, e).ledgers
    ensures e.Act? && (s.pc.AtRun? || s.pc.Cleaning?)
  {
    if e.Act? && !s.pc.AtRun? && !s.pc.Cleaning? {
      OthersKeepLedgers(s, e.choice);
    }
  }

  lemma OthersKeepLedgers(s: Client, c: Choice)
    requires !s.pc.AtRun? && !s.pc.Cleaning?
    ensures s.ledgers.Keys <= Advance(s, c).ledgers.Keys
  {}

  lemma RetirementNeedsCompletion(s: Client, e: Event, op: Op)
    requires PcOk(s) && op in s.ledgers && op !in Step(s, e).ledgers
    ensures AllCleaned(s.ledgers[op]) && (op in s.runs ==> s.runs[op].phase == CleanupComplete)
  {
    OnlyTheseRetire(s, e, op);
    if s.pc.AtRun? {
      RunRetires(s, e.choice, s.pc.op, s.pc.step, s.pc.next, op);
      assert AtRunOk(s, op, s.pc.step);
    } else {
      CleaningRetires(s, s.pc.op, s.pc.k, s.pc.torn, s.pc.mode, op);
    }
  }

  /** `drain_one` never bails out over a missing ledger, never finds a foreign stored status, and never
      has to ask the server again for a status it had seen. */
  lemma DrainNeverBails(fs: Files, events: seq<Event>)
    ensures var pc := After(fs, events).pc;
      pc.AtRun? ==> pc.step != MissingLedger && pc.step != WrongEnvelope && pc.step != Reread
  {
    AlwaysInv(fs, events);
  }

  /** Why something may go: the path of a captured entry leads to it, the transfer or import of that entry is
      known, and what is there is what was captured, or an empty directory. */
  ghost predicate MayDelete(s: Client, op: Op, i: nat, p: Path) {
    && op in s.captured && i < |s.captured[op].entries| && p in s.fs
    && Look(s.fs, BaseNow(s, op), s.captured[op].entries[i].localPath) == Found(p, s.fs[p])
    && Authorised(s, op, i)
    && (if s.captured[op].entries[i].kind == Directory then s.fs[p].Dir? && !HasChild(s.fs, p)
        else Matches(s.captured[op].entries[i], s.fs[p]))
  }

  /** Over every history of syncs, crashes, resumes and foreign edits: whatever the client deletes, it may. */
  lemma DeletionAuthority(fs: Files, events: seq<Event>, e: Event, p: Path)
    requires !e.Edit?
    ensures var s := After(fs, events);
      p in s.fs && p !in Step(s, e).fs ==> exists op, i :: MayDelete(s, op, i, p)
  {
    AlwaysInv(fs, events);
    var s := After(fs, events);
    if p in s.fs && p !in Step(s, e).fs { DeletedMay(s, e, p); }
  }

  lemma DeletedMay(s: Client, e: Event, p: Path)
    requires Inv(s) && !e.Edit? && p in s.fs && p !in Step(s, e).fs
    ensures exists op, i :: MayDelete(s, op, i, p)
  {
    DeletedByCleaning(s, e, p);
    var op := s.pc.op;
    assert OpOk(s, op);
    var w := WorkOn(s, op);
    var i := IndexOf(|w.ledger|, s.pc.k);
    assert SameEntry(s.captured[op].entries[i], s.ledgers[op][i]);
    if w.base.Standing? { FoundIsThere(w.fs, w.base.dir, w.ledger[i].localPath, false, MAX_LINKS); }
    assert MayDelete(s, op, i, p);
  }

  lemma DeletedByCleaning(s: Client, e: Event, p: Path)
    requires !e.Edit? && p in s.fs && p !in Step(s, e).fs
    ensures e.Act? && s.pc.Cleaning? && !s.pc.torn && s.pc.op in s.ledgers && s.pc.k < 2 * |s.ledgers[s.pc.op]|
    ensures Cleans(WorkOn(s, s.pc.op), s.pc.k)
    ensures var t := Target(WorkOn(s, s.pc.op), IndexOf(|s.ledgers[s.pc.op]|, s.pc.k)); t.Found? && t.place == p
  {
    if !(e.Act? && s.pc.Cleaning?) { OnlyCleaningTouchesSource(s, e); }
  }

  // ---- is that what was captured?

  /** Where the entry was when it was captured. */
  function CapturedPlace(s: Client, op: Op, i: nat): Path
    requires op in s.captured && i < |s.captured[op].entries| && s.captured[op].base.Standing?
  {
    s.captured[op].base.dir + s.captured[op].entries[i].localPath
  }

  /** As long as the operand still leads to the directory in which the source was captured, what is deleted
      is what was captured exactly when no symlink has come to lie above it. */
  lemma DeletesWhatWasCaptured(fs: Files, events: seq<Event>, op: Op, i: nat, p: Path)
    ensures var s := After(fs, events);
      Closed(s.fs) && MayDelete(s, op, i, p) && s.captured[op].base.Standing? && BaseNow(s, op) == s.captured[op].base ==>
        (p == CapturedPlace(s, op, i) <==> !LinkAbove(s.fs, CapturedPlace(s, op, i)))
  {
    AlwaysInv(fs, events);
    var s := After(fs, events);
    if Closed(s.fs) && MayDelete(s, op, i, p) && s.captured[op].base.Standing? && BaseNow(s, op) == s.captured[op].base {
      CapturesStayPlain(fs, events, op, i);
      BaseIsDirectory(s.fs, s.cwd, s.captured[op].parent);
      LeadsStraightIff(s.fs, s.captured[op].base.dir, s.captured[op].entries[i].localPath);
    }
  }

  /** And whatever is then taken for cleaned is gone from where it was captured. */
  lemma CleanedIsGone(fs: Files, events: seq<Event>, op: Op, k: nat)
    ensures var s := After(fs, events);
      Closed(s.fs) && op in s.ledgers && op in s.captured && k < 2 * |s.ledgers[op]| && Cleans(WorkOn(s, op), k)
      && s.captured[op].base.Standing? && BaseNow(s, op) == s.captured[op].base ==>
        var i := IndexOf(|s.ledgers[op]|, k);
        i < |s.captured[op].entries| && CapturedPlace(s, op, i) !in Torn(WorkOn(s, op), k).fs
  {
    AlwaysInv(fs, events);
    var s := After(fs, events);
    if op in s.ledgers && op in s.captured && k < 2 * |s.ledgers[op]| {
      var i := IndexOf(|s.ledgers[op]|, k);
      assert OpOk(s, op);
      assert SameEntry(s.captured[op].entries[i], s.ledgers[op][i]);
      CapturesStayPlain(fs, events, op, i);
      if Closed(s.fs) && s.captured[op].base.Standing? && BaseNow(s, op) == s.captured[op].base && CapturedPlace(s, op, i) in s.fs {
        PresentIsFound(s.fs, s.captured[op].base.dir, s.captured[op].entries[i].localPath);
      }
    }
  }

  lemma BaseIsDirectory(fs: Files, cwd: Path, parent: Path)
    requires BaseOf(fs, cwd, parent).Standing?
    ensures var dir := BaseOf(fs, cwd, parent).dir; dir in fs && fs[dir].Dir?
  {
    if parent != [] && parent[0] == "/" {
      FoundIsThere(fs, [], parent[1..], true, MAX_LINKS);
    } else {
      FoundIsThere(fs, cwd, parent, true, MAX_LINKS);
    }
  }

  lemma RunCapturesNothing(s: Client, c: Choice, op: Op, step: RunStep, next: Then)
    ensures ActRun(s, c, op, step, next).captured == s.captured
  {}

  lemma CleaningCapturesNothing(s: Client, op: Op, k: nat, torn: bool, mode: Mode)
    ensures ActCleaning(s, op, k, torn, mode).captured == s.captured
  {}

  lemma OnlyStartingCaptures(s: Client, e: Event)
    requires !(e.Act? && s.pc.Starting?)
    ensures Step(s, e).captured == s.captured
  {
    if e.Act? && s.pc.AtRun? {
      RunCapturesNothing(s, e.choice, s.pc.op, s.pc.step, s.pc.next);
    } else if e.Act? && s.pc.Cleaning? {
      CleaningCapturesNothing(s, s.pc.op, s.pc.k, s.pc.torn, s.pc.mode);
    }
  }

  lemma StepKeepsPlain(s: Client, e: Event, op: Op, i: nat)
    requires op in Step(s, e).captured && i < |Step(s, e).captured[op].entries|
    ensures op in s.captured ==> Step(s, e).captured[op] == s.captured[op]
    ensures op !in s.captured ==>
      var local := Step(s, e).captured[op].entries[i].localPath; local != [] && PlainPath(local)
  {
    if e.Act? && s.pc.Starting? {
      assert Step(s, e) == ActStarting(s, e.choice);
    } else {
      OnlyStartingCaptures(s, e);
    }
  }

  lemma {:induction false} CapturesStayPlain(fs: Files, events: seq<Event>, op: Op, i: nat)
    requires op in After(fs, events).captured && i < |After(fs, events).captured[op].entries|
    ensures var local := After(fs, events).captured[op].entries[i].localPath; local != [] && PlainPath(local)
    decreases |events|
  {
    if events != [] {
      var s := After(fs, events[..|events| - 1]);
      StepKeepsPlain(s, events[|events| - 1], op, i);
      if op in s.captured { CapturesStayPlain(fs, events[..|events| - 1], op, i); }
    }
  }

  /** The directory that an operand names when it is taken literally. */
  function NamedDir(cwd: Path, parent: Path): Path {
    if parent != [] && parent[0] == "/" then parent[1..] else cwd + parent
  }

  /** With an absolute operand, or launched in the same directory, and with that directory in its place, the
      operand leads where it led before. */
  lemma SameOperandSameBase(was: Files, cwdBefore: Path, fs: Files, cwd: Path, parent: Path)
    requires Closed(was) && Closed(fs) && PlainPath(parent)
    requires (parent != [] && parent[0] == "/") || cwd == cwdBefore
    requires var d := NamedDir(cwd, parent); d in was && was[d].Dir? && d in fs && fs[d].Dir?
    ensures BaseOf(was, cwdBefore, parent) == BaseOf(fs, cwd, parent) == Standing(NamedDir(cwd, parent))
  {
    PresentIsBase(was, cwdBefore, parent);
    PresentIsBase(fs, cwd, parent);
  }

  lemma PresentIsBase(fs: Files, cwd: Path, parent: Path)
    requires Closed(fs) && PlainPath(parent) && NamedDir(cwd, parent) in fs && fs[NamedDir(cwd, parent)].Dir?
    ensures BaseOf(fs, cwd, parent) == Standing(NamedDir(cwd, parent))
  {
    if parent != [] && parent[0] == "/" {
      assert [] + parent[1..] == parent[1..];
      WalkDown(fs, [], parent[1..]);
    } else {
      WalkDown(fs, cwd, parent);
    }
  }

  lemma {:induction false} WalkDown(fs: Files, at: Path, rest: Path)
    requires Closed(fs) && PlainPath(rest) && at + rest in fs && fs[at + rest].Dir?
    ensures Walk(fs, at, rest, true, MAX_LINKS) == Found(at + rest, fs[at + rest])
    decreases |rest|
  {
    var p := at + rest;
    if rest == [] {
      assert p == at;
    } else {
      var q := at + [rest[0]];
      AncestorsAreThere(fs, p, |q|);
      assert p[..|q|] == q && q + rest[1..] == p;
      WalkDown(fs, q, rest[1..]);
    }
  }

  lemma OnlyCleaningTouchesSource(s: Client, e: Event)
    requires !e.Edit? && !(e.Act? && s.pc.Cleaning?)
    ensures Step(s, e).fs == s.fs
  {
    if e.Act? && s.pc.AtRun? {
      RunKeepsSource(s, e.choice, s.pc.op, s.pc.step, s.pc.next);
    } else if e.Act? && s.pc.Draining? {
      assert ActDraining(s, e.choice, s.pc.todo, s.pc.failed).fs == s.fs;
    } else if e.Act? && s.pc.Fresh? {
      assert ActFresh(s, e.choice, s.pc.op, s.pc.stage).fs == s.fs;
    }
  }

  lemma RunKeepsSource(s: Client, c: Choice, op: Op, step: RunStep, next: Then)
    ensures ActRun(s, c, op, step, next).fs == s.fs
  {}

  /** The client creates and changes nothing in the source tree. */
  lemma OnlyDeletes(s: Client, e: Event, p: Path)
    requires !e.Edit? && p in Step(s, e).fs
    ensures p in s.fs && Step(s, e).fs[p] == s.fs[p]
  {
    if e.Act? && s.pc.Cleaning? {
      var s' := ActCleaning(s, s.pc.op, s.pc.k, s.pc.torn, s.pc.mode);
      assert p in s'.fs;
    } else {
      OnlyCleaningTouchesSource(s, e);
    }
  }
}

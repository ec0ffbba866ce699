/** The client's state directory as one uninterrupted process works on it, and why a resumed run ends
    where the uninterrupted one would have. */
module ClientRuns {
  import opened Records
  import opened SourceFiles
  import opened Cleanup
  import opened CleanupFinal
  import opened CleanupCrash
  import opened CleanupFile
  import opened ClientProtocol

  /** What the server says while one run is drained: is it compatible, did finish-run and the supervision
      succeed, and which status was read. */
  datatype Server = Server(compatible: bool, finished: bool, answer: Option<RunStatus>)

  /** The source and the ledger once a status has been confirmed and cleaned up after. */
  function Drained(w: Work, st: RunStatus): Work {
    Pass(w.(ledger := ConfirmFromStatus(w.ledger, st)))
  }

  /** The status a run ends with, if it gets that far. */
  function FinalStatus(record: RunRecord, op: Op, server: Server): Option<RunStatus> {
    if record.phase == TerminalStatusSeen then
      if record.status.None? then server.answer
      else if Envelope(record.status.value, op) then record.status else None
    else if record.phase == UploadCompleteFinishPending && !server.finished then None
    else if server.answer.None? || !Envelope(server.answer.value, op) then None
    else server.answer
  }

  class StateDir {
    var fs: Files
    const cwd: Path
    const parents: map<Op, Path>
    var ledgers: map<Op, Ledger>
    var runs: map<Op, RunRecord>

    /** The files, where the client was launched, and the directory part of each operation's local paths. */
    constructor (source: Files, launchedIn: Path, operands: map<Op, Path>, cleanups: map<Op, Ledger>, records: map<Op, RunRecord>)
      ensures fs == source && cwd == launchedIn && parents == operands && ledgers == cleanups && runs == records
    {
      fs, ledgers, runs, cwd, parents := source, cleanups, records, launchedIn, operands;
    }

    /** One operation's tree and ledger, from where its paths start. */
    function WorkOf(op: Op): Work
      requires op in ledgers
      reads this`fs, this`ledgers
    {
      Work(fs, if op in parents then BaseOf(fs, cwd, parents[op]) else Gone, ledgers[op])
    }

    /** One pass over the ledger of an operation. */
    method ProcessLedger(op: Op) returns (outcome: CleanupOutcome)
      requires op in ledgers
      modifies this`fs, this`ledgers
      ensures ledgers == old(ledgers)[op := Pass(old(WorkOf(op))).ledger]
      ensures fs == Pass(old(WorkOf(op))).fs
      ensures outcome == Complete <==> AllCleaned(ledgers[op])
    {
      var file := new CleanupStateFile(fs, WorkOf(op).base, ledgers[op]);
      outcome := file.ProcessCleanupStateFile();
      fs, ledgers := file.fs, ledgers[op := file.ledger];
    }

    /** `finish_cleanup_complete_resume`. */
    method FinishCleanupCompleteResume(op: Op)
      modifies this
      ensures runs == old(runs) - {op}
      ensures op !in old(ledgers) ==> fs == old(fs) && ledgers == old(ledgers)
      ensures op in old(ledgers) ==>
        var done := Pass(old(WorkOf(op)));
        && fs == done.fs
        && ledgers == if AllCleaned(done.ledger) then old(ledgers) - {op} else old(ledgers)[op := done.ledger]
    {
      if op in ledgers {
        var outcome := ProcessLedger(op);
        if outcome == Complete {
          ledgers := ledgers - {op};
        }
      }
      runs := runs - {op};
    }

    /** Confirm the ledger of an operation from a status, and write it back. */
    method ConfirmLedger(op: Op, st: RunStatus)
      requires op in ledgers
      modifies this`ledgers
      ensures ledgers == old(ledgers)[op := ConfirmFromStatus(old(ledgers)[op], st)]
      ensures Pass(WorkOf(op)) == Drained(old(WorkOf(op)), st)
    {
      var file := new CleanupStateFile(fs, WorkOf(op).base, ledgers[op]);
      file.ConfirmImportsFromStatus(st);
      ledgers := ledgers[op := file.ledger];
    }

    /** `process_cleanup_from_status`. */
    method ProcessCleanupFromStatus(op: Op, st: RunStatus) returns (ok: bool)
      modifies this
      ensures ok == (op in old(ledgers))
      ensures !ok ==> fs == old(fs) && ledgers == old(ledgers) && runs == old(runs)
      ensures ok ==>
        var done := Drained(old(WorkOf(op)), st);
        && fs == done.fs
        && ledgers == (if AllCleaned(done.ledger) then old(ledgers) - {op} else old(ledgers)[op := done.ledger])
        && runs == old(runs) - {op}
    {
      if op !in ledgers {
        return false;
      }
      ConfirmLedger(op, st);
      var outcome := ProcessLedger(op);
      runs := runs[op := RunRecord(CleanupComplete, None)];
      if outcome == Complete {
        ledgers := ledgers - {op};
      }
      runs := runs - {op};
      return true;
    }

    /** `drain_one`: from whatever phase was persisted to the end, or stopped at the last phase reached. */
    method DrainOne(op: Op, server: Server) returns (ok: bool)
      requires op in runs
      modifies this
      ensures old(runs)[op].phase == CleanupComplete ==> ok && runs == old(runs) - {op}
      ensures old(runs)[op].phase == CleanupComplete && op in old(ledgers) ==>
        fs == Pass(old(WorkOf(op))).fs
      ensures old(runs)[op].phase != CleanupComplete ==>
        var final := if server.compatible then FinalStatus(old(runs)[op], op, server) else None;
        if final.None? || op !in old(ledgers) then !ok && fs == old(fs) && ledgers == old(ledgers) && op in runs
        else var done := Drained(old(WorkOf(op)), final.value);
          && fs == done.fs
          && ledgers == (if AllCleaned(done.ledger) then old(ledgers) - {op} else old(ledgers)[op := done.ledger])
          && runs == old(runs) - {op}
          && ok == (final.value.state == StateDone)
      ensures forall o | o != op :: (o in runs <==> o in old(runs)) && (o in runs ==> runs[o] == old(runs)[o])
    {
      if runs[op].phase == CleanupComplete {
        FinishCleanupCompleteResume(op);
        return true;
      }
      if !server.compatible {
        return false;
      }
      var phase, terminal := runs[op].phase, runs[op].status;
      while phase != TerminalStatusSeen
        invariant fs == old(fs) && ledgers == old(ledgers)
        invariant op in runs && runs[op] == RunRecord(phase, terminal) && phase != CleanupComplete
        invariant FinalStatus(runs[op], op, server) == FinalStatus(old(runs)[op], op, server)
        invariant forall o | o != op :: (o in runs <==> o in old(runs)) && (o in runs ==> runs[o] == old(runs)[o])
        decreases phase != TerminalStatusSeen, phase == UploadCompleteFinishPending
      {
        if phase == UploadCompleteFinishPending {
          if !server.finished {
            return false;
          }
          phase, terminal := WaitingForTerminalState, None;
        } else {
          if server.answer.None? || !Envelope(server.answer.value, op) {
            return false;
          }
          phase, terminal := TerminalStatusSeen, server.answer;
        }
        runs := runs[op := RunRecord(phase, terminal)];
      }
      if terminal.None? {
        terminal := server.answer;
      } else if !Envelope(terminal.value, op) {
        return false;
      }
      if terminal.None? {
        return false;
      }
      ok := ProcessCleanupFromStatus(op, terminal.value);
      ok := ok && terminal.value.state == StateDone;
    }
  }

  /** A ledger with nothing confirmed is left alone, and so is the source. */
  lemma {:induction false} NothingConfirmedNothingDone(w: Work, k: nat)
    requires k <= 2 * |w.ledger| && forall i | 0 <= i < |w.ledger| :: !Eligible(w.ledger[i])
    ensures Iterations(w, k) == w
  {
    if k > 0 { NothingConfirmedNothingDone(w, k - 1); }
  }

  lemma ConfirmIsStable(ledger: Ledger, st: RunStatus)
    ensures ConfirmFromStatus(ConfirmFromStatus(ledger, st), st) == ConfirmFromStatus(ledger, st)
  {
    var c := ConfirmFromStatus(ledger, st);
    assert SameEntries(ledger, c);
    forall i | 0 <= i < |ledger| ensures ConfirmFromStatus(c, st)[i] == c[i] {
      SameEntriesConfirmAlike(ledger, c, st, i);
    }
  }

  /** What a sync was about to clean when it was stopped: the ledger not yet confirmed, or the confirmed one
      after k iterations, the last of them possibly torn. */
  datatype Stop = BeforeConfirming | After(k: nat) | Tearing(k: nat)

  function Stopped(w: Work, st: RunStatus, stop: Stop): Work {
    var confirmed := w.(ledger := ConfirmFromStatus(w.ledger, st));
    match stop
    case BeforeConfirming => w
    case After(k) => if k <= 2 * |w.ledger| then Iterations(confirmed, k) else Pass(confirmed)
    case Tearing(k) => if k < 2 * |w.ledger| then Torn(Iterations(confirmed, k), k) else Pass(confirmed)
  }

  /** The next launch resumes the pending cleanup, and then drains the run with the status it had stored. */
  function Relaunched(v: Work, st: RunStatus): Work {
    Drained(Pass(v), st)
  }

  /** A transform sync stopped anywhere in its cleanup and started again, with its operand leading to the same
      directory, leaves the same source tree and the same ledger as the sync that was never stopped, as long as
      no visit of the pass would do more when made again. */
  lemma ResumeEqualsUninterrupted(w: Work, st: RunStatus, stop: Stop)
    requires forall i | 0 <= i < |w.ledger| :: !w.ledger[i].confirmed
    requires Stable(w.(ledger := ConfirmFromStatus(w.ledger, st)))
    ensures Relaunched(Stopped(w, st, stop), st) == Drained(w, st)
  {
    var confirmed := w.(ledger := ConfirmFromStatus(w.ledger, st));
    var n := 2 * |w.ledger|;
    var v := Stopped(w, st, stop);
    if stop.BeforeConfirming? {
      NothingConfirmedNothingDone(w, n);
    } else {
      ConfirmIsStable(w.ledger, st);
      StableReruns(confirmed, n);
      if stop.k <= n { StableReruns(confirmed, stop.k); }
      assert Pass(v) == Pass(confirmed);
      ReconfirmingChangesNothing(confirmed, st, n);
      assert Pass(confirmed).(ledger := ConfirmFromStatus(Pass(confirmed).ledger, st)) == Pass(confirmed);
    }
  }

  /** That holds in particular when no symlink lies above a place that the ledger names. */
  lemma PlainResumes(w: Work, st: RunStatus)
    requires WorkOk(w) && w.base.dir in w.fs && w.fs[w.base.dir].Dir?
    requires forall i | 0 <= i < |w.ledger| :: !LinkAbove(w.fs, Place(w, i))
    ensures Stable(w.(ledger := ConfirmFromStatus(w.ledger, st)))
  {
    var confirmed := w.(ledger := ConfirmFromStatus(w.ledger, st));
    forall i | 0 <= i < |w.ledger|
      ensures confirmed.ledger[i].localPath == w.ledger[i].localPath && confirmed.ledger[i].kind == w.ledger[i].kind
      ensures Place(confirmed, i) == Place(w, i)
    {}
    PlainIsStable(confirmed);
  }

  /** Launched where its operand leads nowhere, a pass removes nothing and takes every confirmed entry for
      cleaned; so a fully confirmed ledger counts as complete although its source is still there. */
  lemma {:induction false} NowhereForgets(w: Work, k: nat)
    requires w.base == Gone && k <= 2 * |w.ledger|
    ensures var v := Iterations(w, k);
      && v.fs == w.fs
      && forall i | 0 <= i < |w.ledger| ::
           v.ledger[i] == w.ledger[i].(cleaned := w.ledger[i].cleaned || (w.ledger[i].confirmed && VisitedBy(w.ledger, i, k)))
  {
    if k > 0 {
      NowhereForgets(w, k - 1);
      NowhereStep(Iterations(w, k - 1), k - 1);
    } else {
      forall i | 0 <= i < |w.ledger| ensures w.ledger[i] == w.ledger[i].(cleaned := w.ledger[i].cleaned) {}
    }
  }

  lemma NowhereStep(v: Work, k: nat)
    requires v.base == Gone && k < 2 * |v.ledger|
    ensures var i := IndexOf(|v.ledger|, k);
      var visits := (k < |v.ledger|) == (v.ledger[i].kind != Directory);
      Iterate(v, k) == if Eligible(v.ledger[i]) && visits then v.(ledger := Mark(v.ledger, i)) else v
  {}

  /** One of the first k iterations visits the entry in the phase of its kind. */
  predicate VisitedBy(ledger: Ledger, i: nat, k: nat)
    requires i < |ledger|
  {
    (if ledger[i].kind == Directory then |ledger| + i else i) < k
  }
}

/** The two accounts of the client agree: launched again and left alone, the client of the protocol takes a
    run with a stored status to the very end that `ClientRuns` promises. */
module ClientProgress {
  import opened Records
  import opened SourceFiles
  import opened Cleanup
  import opened CleanupCrash
  import opened ClientProtocol
  import RunFiles
  import ClientRuns
  import opened CleanupFinal
  import ClientTheorems

  /** What the surroundings say while nothing goes wrong and only this operation is at hand. */
  function Smooth(op: Op): Choice {
    Choice(true, None, op, false, [], [], RunFiles.ManifestEntry(Directory, [], []))
  }

  /** n steps of the client alone. */
  function Acts(s: Client, op: Op, n: nat): Client
    decreases n
  {
    if n == 0 then s else Acts(Advance(s, Smooth(op)), op, n - 1)
  }

  lemma {:induction false} ActsAdd(s: Client, op: Op, m: nat, n: nat)
    ensures Acts(s, op, m + n) == Acts(Acts(s, op, m), op, n)
    decreases m
  {
    if m > 0 { ActsAdd(Advance(s, Smooth(op)), op, m - 1, n); }
  }

  ghost predicate Reaches(s: Client, op: Op, t: Client) {
    exists n: nat :: Acts(s, op, n) == t
  }

  lemma Stays(s: Client, op: Op)
    ensures Reaches(s, op, s)
  {
    assert Acts(s, op, 0) == s;
  }

  lemma One(s: Client, op: Op, t: Client)
    requires Advance(s, Smooth(op)) == t
    ensures Reaches(s, op, t)
  {
    assert Acts(t, op, 0) == t;
    assert Acts(s, op, 1) == t;
  }

  lemma Chain(s: Client, op: Op, t: Client, u: Client)
    requires Reaches(s, op, t) && Reaches(t, op, u)
    ensures Reaches(s, op, u)
  {
    var m: nat :| Acts(s, op, m) == t;
    var n: nat :| Acts(t, op, n) == u;
    ActsAdd(s, op, m, n);
  }

  // ---- one pass

  /** The client's state with this tree and this ledger of the operation, at this point. */
  function At(s: Client, op: Op, fs: Files, ledger: Ledger, pc: Pc): Client {
    s.(fs := fs, ledgers := s.ledgers[op := ledger], pc := pc)
  }

  /** All through the pass the operand leads to the same directory. */
  ghost predicate Steady(s: Client, op: Op, w: Work)
    requires op in s.captured
  {
    forall k: nat | k <= 2 * |w.ledger| ::
      && BaseOf(Iterations(w, k).fs, s.cwd, s.captured[op].parent) == w.base
      && (k < 2 * |w.ledger| ==> BaseOf(Torn(Iterations(w, k), k).fs, s.cwd, s.captured[op].parent) == w.base)
  }

  /** That is so when the operand's directory is what it says and no symlink lies above a tracked place. */
  lemma PlainIsSteady(s: Client, op: Op, w: Work)
    requires op in s.captured && Plain(w) && PlainPath(s.captured[op].parent)
    requires w.base == Standing(ClientTheorems.NamedDir(s.cwd, s.captured[op].parent))
    ensures Steady(s, op, w)
  {
    forall k: nat | k <= 2 * |w.ledger|
      ensures BaseOf(Iterations(w, k).fs, s.cwd, s.captured[op].parent) == w.base
      ensures k < 2 * |w.ledger| ==> BaseOf(Torn(Iterations(w, k), k).fs, s.cwd, s.captured[op].parent) == w.base
    {
      IterationsKeepFinal(w, k);
      ClientTheorems.PresentIsBase(Iterations(w, k).fs, s.cwd, s.captured[op].parent);
      if k < 2 * |w.ledger| {
        IterationKeepsFinal(Iterations(w, k), k);
        ClientTheorems.PresentIsBase(Torn(Iterations(w, k), k).fs, s.cwd, s.captured[op].parent);
      }
    }
  }

  lemma IterationRuns(s: Client, op: Op, v: Work, k: nat, mode: Mode)
    requires op in s.captured && k < 2 * |v.ledger|
    requires BaseOf(v.fs, s.cwd, s.captured[op].parent) == v.base
    ensures var v' := Iterate(v, k);
      Reaches(At(s, op, v.fs, v.ledger, Cleaning(op, k, false, mode)), op, At(s, op, v'.fs, v'.ledger, Cleaning(op, k + 1, false, mode)))
  {
    var x := At(s, op, v.fs, v.ledger, Cleaning(op, k, false, mode));
    assert WorkOn(x, op) == v;
    if Cleans(v, k) {
      var y := At(s, op, Torn(v, k).fs, v.ledger, Cleaning(op, k, true, mode));
      One(x, op, y);
      var z := At(s, op, Torn(v, k).fs, Mark(v.ledger, IndexOf(|v.ledger|, k)), Cleaning(op, k + 1, false, mode));
      One(y, op, z);
      Chain(x, op, y, z);
    } else {
      One(x, op, At(s, op, v.fs, v.ledger, Cleaning(op, k + 1, false, mode)));
    }
  }

  lemma {:induction false} PassRuns(s: Client, op: Op, w: Work, k: nat, mode: Mode)
    requires op in s.captured && Steady(s, op, w) && k <= 2 * |w.ledger|
    ensures var v := Iterations(w, k);
      Reaches(At(s, op, w.fs, w.ledger, Cleaning(op, 0, false, mode)), op, At(s, op, v.fs, v.ledger, Cleaning(op, k, false, mode)))
  {
    var x := At(s, op, w.fs, w.ledger, Cleaning(op, 0, false, mode));
    if k == 0 {
      Stays(x, op);
    } else {
      var v := Iterations(w, k - 1);
      PassRuns(s, op, w, k - 1, mode);
      IterationRuns(s, op, v, k - 1, mode);
      var v' := Iterate(v, k - 1);
      var y := At(s, op, v.fs, v.ledger, Cleaning(op, k - 1, false, mode));
      var z := At(s, op, v'.fs, v'.ledger, Cleaning(op, k, false, mode));
      Chain(x, op, y, z);
    }
  }

  // ---- the whole way

  /** Stopped with one ledger and one run, which has a stored status. */
  predicate Waiting(s: Client, op: Op, st: RunStatus) {
    && s.pc == Idle && op in s.captured
    && s.ledgers.Keys == {op} && s.runs.Keys == {op}
    && s.runs[op] == RunRecord(TerminalStatusSeen, Some(st)) && Envelope(st, op)
  }

  /** First the pending cleanup is resumed, and kept because a run still needs it. */
  lemma CleanupResumed(s: Client, op: Op, st: RunStatus, w: Work)
    requires Waiting(s, op, st) && w == WorkOn(s, op) && Steady(s, op, w)
    ensures var v := Pass(w);
      Reaches(s.(pc := Scanning({op})), op, At(s, op, v.fs, v.ledger, Draining({op}, false)))
  {
    var v := Pass(w);
    var x0 := s.(pc := Scanning({op}));
    var x1 := At(s, op, w.fs, w.ledger, Cleaning(op, 0, false, Scan({})));
    assert {op} - {op} == {};
    assert s.ledgers[op := w.ledger] == s.ledgers;
    One(x0, op, x1);
    PassRuns(s, op, w, 2 * |w.ledger|, Scan({}));
    var x2 := At(s, op, v.fs, v.ledger, Cleaning(op, 2 * |w.ledger|, false, Scan({})));
    var x3 := At(s, op, v.fs, v.ledger, Scanning({}));
    One(x2, op, x3);
    var x4 := At(s, op, v.fs, v.ledger, Draining({op}, false));
    One(x3, op, x4);
    Chain(x0, op, x1, x2);
    Chain(x0, op, x2, x3);
    Chain(x0, op, x3, x4);
  }

  /** Then the run is drained: confirmed, cleaned, completed. */
  lemma RunDrained(s: Client, op: Op, st: RunStatus, v: Work)
    requires op in s.captured && s.ledgers.Keys == {op} && s.runs.Keys == {op}
    requires s.runs[op] == RunRecord(TerminalStatusSeen, Some(st)) && Envelope(st, op)
    requires Steady(s, op, v.(ledger := ConfirmFromStatus(v.ledger, st)))
    ensures var d := ClientRuns.Drained(v, st);
      Reaches(At(s, op, v.fs, v.ledger, Draining({op}, false)), op,
              s.(fs := d.fs, ledgers := if AllCleaned(d.ledger) then map[] else map[op := d.ledger], runs := map[], pc := Starting))
  {
    var confirmed := v.(ledger := ConfirmFromStatus(v.ledger, st));
    var d := Pass(confirmed);
    var n, next := 2 * |v.ledger|, NextRun({op}, false);
    var x0 := At(s, op, v.fs, v.ledger, Draining({op}, false));
    var x1 := At(s, op, v.fs, v.ledger, AtRun(op, Confirming(st), next));
    One(x0, op, x1);
    var x2 := At(s, op, confirmed.fs, confirmed.ledger, Cleaning(op, 0, false, Inline(next)));
    One(x1, op, x2);
    PassRuns(s, op, confirmed, n, Inline(next));
    var x3 := At(s, op, d.fs, d.ledger, Cleaning(op, n, false, Inline(next)));
    Chain(x0, op, x1, x2);
    Chain(x0, op, x2, x3);
    RunCompleted(s, op, d, next, n);
    Chain(x0, op, x3, s.(fs := d.fs, ledgers := if AllCleaned(d.ledger) then map[] else map[op := d.ledger], runs := map[], pc := Starting));
  }

  /** What is left of the ledgers after the pass. */
  function Left(op: Op, ledger: Ledger): map<Op, Ledger> {
    if AllCleaned(ledger) then map[] else map[op := ledger]
  }

  lemma RunCompleted(s: Client, op: Op, d: Work, next: Then, n: nat)
    requires s.ledgers.Keys == {op} && s.runs.Keys == {op} && next == NextRun({op}, false) && n == 2 * |d.ledger|
    ensures Reaches(At(s, op, d.fs, d.ledger, Cleaning(op, n, false, Inline(next))), op,
              s.(fs := d.fs, ledgers := if AllCleaned(d.ledger) then map[] else map[op := d.ledger], runs := map[], pc := Starting))
  {
    var completed := s.(fs := d.fs, ledgers := map[op := d.ledger], runs := map[op := RunRecord(CleanupComplete, None)],
                        pc := AtRun(op, Retiring(AllCleaned(d.ledger)), next));
    CompletionStored(s, op, d, next, n);
    RunRemoved(completed, op, d.ledger, next);
    Chain(At(s, op, d.fs, d.ledger, Cleaning(op, n, false, Inline(next))), op, completed,
          s.(fs := d.fs, ledgers := Left(op, d.ledger), runs := map[], pc := Starting));
  }

  lemma CompletionStored(s: Client, op: Op, d: Work, next: Then, n: nat)
    requires s.ledgers.Keys == {op} && s.runs.Keys == {op} && n == 2 * |d.ledger|
    ensures Reaches(At(s, op, d.fs, d.ledger, Cleaning(op, n, false, Inline(next))), op,
              s.(fs := d.fs, ledgers := map[op := d.ledger], runs := map[op := RunRecord(CleanupComplete, None)],
                 pc := AtRun(op, Retiring(AllCleaned(d.ledger)), next)))
  {
    var complete := AllCleaned(d.ledger);
    var x0 := At(s, op, d.fs, d.ledger, Cleaning(op, n, false, Inline(next)));
    var x1 := At(s, op, d.fs, d.ledger, AtRun(op, PersistingComplete(complete), next));
    One(x0, op, x1);
    assert s.ledgers[op := d.ledger] == map[op := d.ledger];
    var x2 := x1.(runs := map[op := RunRecord(CleanupComplete, None)], pc := AtRun(op, Retiring(complete), next));
    assert s.runs[op := RunRecord(CleanupComplete, None)] == x2.runs;
    One(x1, op, x2);
    Chain(x0, op, x1, x2);
  }

  lemma RunRemoved(x: Client, op: Op, ledger: Ledger, next: Then)
    requires x.ledgers == map[op := ledger] && x.runs.Keys == {op} && next == NextRun({op}, false)
    requires x.pc == AtRun(op, Retiring(AllCleaned(ledger)), next)
    ensures Reaches(x, op, x.(ledgers := Left(op, ledger), runs := map[], pc := Starting))
  {
    assert map[op := ledger] - {op} == map[];
    var x1 := x.(ledgers := Left(op, ledger), pc := AtRun(op, RemovingRun, next));
    One(x, op, x1);
    assert x1.runs - {op} == map[] && {op} - {op} == {};
    var x2 := x1.(runs := map[], pc := Draining({}, false));
    One(x1, op, x2);
    var x3 := x2.(pc := Starting);
    One(x2, op, x3);
    Chain(x, op, x1, x2);
    Chain(x, op, x2, x3);
  }

  // ---- as a history of the protocol

  lemma {:induction false} ActsAreEvents(fs: Files, events: seq<Event>, op: Op, n: nat) returns (later: seq<Event>)
    ensures (forall i | 0 <= i < |later| :: later[i] == Act(Smooth(op))) && After(fs, events + later) == Acts(After(fs, events), op, n)
    decreases n
  {
    if n == 0 {
      later := [];
      assert events + [] == events;
    } else {
      var e := Act(Smooth(op));
      assert (events + [e])[..|events|] == events;
      var rest := ActsAreEvents(fs, events + [e], op, n - 1);
      later := [e] + rest;
      assert events + later == (events + [e]) + rest;
    }
  }

  /** However a transform sync was stopped once its status was stored: launched again where its operand still
      leads to one directory, and left alone, the client ends with the tree and the ledger that a pass over the
      pending ledger and draining it with the stored status give, with the run state gone, and the ledger
      gone exactly when all of it is cleaned. */
  lemma RelaunchDrains(fs: Files, before: seq<Event>, cwd: Path, op: Op, st: RunStatus) returns (later: seq<Event>)
    requires var s := After(fs, before).(cwd := cwd);
      && Waiting(s, op, st) && Steady(s, op, WorkOn(s, op))
      && Steady(s, op, Pass(WorkOn(s, op)).(ledger := ConfirmFromStatus(Pass(WorkOn(s, op)).ledger, st)))
    ensures later != [] && later[0] == Launch(cwd) && forall i | 1 <= i < |later| :: later[i] == Act(Smooth(op))
    ensures var s, s' := After(fs, before).(cwd := cwd), After(fs, before + later);
      var d := ClientRuns.Relaunched(WorkOn(s, op), st);
      && s'.fs == d.fs && s'.runs == map[] && s'.pc == Starting
      && s'.ledgers == if AllCleaned(d.ledger) then map[] else map[op := d.ledger]
  {
    var s := After(fs, before).(cwd := cwd);
    var w := WorkOn(s, op);
    CleanupResumed(s, op, st, w);
    RunDrained(s, op, st, Pass(w));
    var d := ClientRuns.Relaunched(w, st);
    var start := s.(pc := Scanning({op}));
    var end := s.(fs := d.fs, ledgers := if AllCleaned(d.ledger) then map[] else map[op := d.ledger], runs := map[], pc := Starting);
    Chain(start, op, At(s, op, Pass(w).fs, Pass(w).ledger, Draining({op}, false)), end);
    var n: nat :| Acts(start, op, n) == end;
    assert (before + [Launch(cwd)])[..|before|] == before;
    assert After(fs, before + [Launch(cwd)]) == start;
    var rest := ActsAreEvents(fs, before + [Launch(cwd)], op, n);
    later := [Launch(cwd)] + rest;
    assert before + later == (before + [Launch(cwd)]) + rest;
  }
}

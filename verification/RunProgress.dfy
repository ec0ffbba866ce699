/** The two accounts of the server agree: a process of the protocol that nobody disturbs takes an abandoned
    run to the very end that the sequential procedures of `RunServer` promise. */
module RunProgress {
  import opened Records
  import opened RunFiles
  import opened RunProtocol
  import opened RunInvariant
  import RunServer
  import RunTheorems

  type Oracle = RunServer.Oracle

  /** What the outside influences decide at each program point. */
  function ChoiceAt(pc: Pc, o: Oracle): Choice {
    Choice(if pc.Working? then
             match pc.work
             case Validate(_) => o.valid
             case CheckEntry(_) => o.checked
             case StartTransform(_, _) => o.prepared
             case Transforming(_) => o.success
             case _ => false
           else false, o.plan, o.text)
  }

  predicate Local(pc: Pc) {
    !pc.Knocking? && !pc.Probing? && !pc.Leaving?
  }

  /** Up to n operations of one process, until it is about to wait for or release a lock. */
  function Steps(x: Outcome, o: Oracle, n: nat): Outcome
    decreases n
  {
    if n == 0 || !Local(x.pc) then x
    else Steps(Operate(x.disk, ChoiceAt(x.pc, o), x.pc), o, n - 1)
  }

  lemma {:induction false} StepsAdd(x: Outcome, o: Oracle, m: nat, n: nat)
    ensures Steps(x, o, m + n) == Steps(Steps(x, o, m), o, n)
    decreases m
  {
    if m > 0 && Local(x.pc) { StepsAdd(Operate(x.disk, ChoiceAt(x.pc, o), x.pc), o, m - 1, n); }
  }

  lemma OneStep(x: Outcome, o: Oracle)
    requires Local(x.pc)
    ensures Steps(x, o, 1) == Operate(x.disk, ChoiceAt(x.pc, o), x.pc)
  {
    assert Steps(Operate(x.disk, ChoiceAt(x.pc, o), x.pc), o, 0) == Operate(x.disk, ChoiceAt(x.pc, o), x.pc);
  }

  /** Stepping from one point reaches another. */
  ghost predicate Reaches(x: Outcome, o: Oracle, y: Outcome) {
    exists n: nat :: Steps(x, o, n) == y
  }

  lemma Step1(x: Outcome, o: Oracle, y: Outcome)
    requires Local(x.pc) && Operate(x.disk, ChoiceAt(x.pc, o), x.pc) == y
    ensures Reaches(x, o, y)
  {
    OneStep(x, o);
  }

  lemma Chain(x: Outcome, o: Oracle, y: Outcome, z: Outcome)
    requires Reaches(x, o, y) && Reaches(y, o, z)
    ensures Reaches(x, o, z)
  {
    var m: nat :| Steps(x, o, m) == y;
    var n: nat :| Steps(y, o, n) == z;
    StepsAdd(x, o, m, n);
  }

  // ---- stretches of the way, in the processing directory

  /** The files as the recovering process finds them. */
  ghost predicate Abandoned(d: Disk, fd: Inode) {
    DiskOk(d) && Here(d, Processing, fd)
  }

  /** Disk d with its processing directory and history replaced. */
  function With(d: Disk, dir: Dir): Disk {
    PutDir(d, Processing, dir)
  }

  /** The terminal rename and the tidying after it. */
  lemma FinalizeEnds(d: Disk, s: RunStatus, o: Oracle, fd: Inode) returns (d': Disk)
    requires d.tree.Keys == {Processing} && d.tree[Processing].status == Some(WellFormed(s))
    ensures Reaches(Outcome(d, Working(Finalize(s), Recovery, fd)), o, Outcome(d', Leaving(Finished, fd)))
    ensures RunServer.EndedWith(d', s) && d'.starts == d.starts
  {
    var dst := TerminalPhase(s.state);
    var x := Outcome(d, Working(Finalize(s), Recovery, fd));
    var moved := d.(tree := Rename(d.tree, Processing, dst));
    var y := Outcome(moved, Closing(Tidy(s), Recovery, fd));
    Step1(x, o, y);
    d' := AdvanceClosing(moved, Tidy(s), Recovery, fd).disk;
    var z := Outcome(d', Closing(Respond, Recovery, fd));
    Step1(y, o, z);
    var end := Outcome(d', Leaving(Finished, fd));
    Step1(z, o, end);
    Chain(x, o, y, z);
    Chain(x, o, z, end);
    assert moved.tree.Keys == {dst};
    assert d'.tree.Keys == {dst};
  }

  /** `write_run_failure` from its first write. */
  lemma FailureEnds(d: Disk, o: Oracle, fd: Inode) returns (d': Disk)
    requires d.tree.Keys == {Processing}
    ensures Reaches(Outcome(d, Visiting(FailWrite(ReturnError), Recovery, fd)), o, Outcome(d', Leaving(Finished, fd)))
    ensures RunServer.EndedWith(d', FailureStatus(d.nickname, d.runId, o.text)) && d'.starts == d.starts
  {
    var st := FailureStatus(d.nickname, d.runId, o.text);
    var x0 := Outcome(d, Visiting(FailWrite(ReturnError), Recovery, fd));
    var d1 := With(d, d.tree[Processing].(statusTmp := Some(st)));
    var x1 := Outcome(d1, Working(FailPublish(ReturnError, st), Recovery, fd));
    Step1(x0, o, x1);
    var d2 := PublishStatus(d1);
    var x2 := Outcome(d2, Working(FailMove(ReturnError), Recovery, fd));
    Step1(x1, o, x2);
    assert d2.tree.Keys == {Processing};
    var d3 := d2.(tree := Rename(d2.tree, Processing, Failed));
    var x3 := Outcome(d3, Closing(FailUnlock(ReturnError), Recovery, fd));
    Step1(x2, o, x3);
    assert d3.tree.Keys == {Failed};
    d' := UnlockAt(d3, Failed);
    assert d'.tree.Keys == {Failed};
    var x4 := Outcome(d', Closing(AfterError(false), Recovery, fd));
    Step1(x3, o, x4);
    var x5 := Outcome(d', Closing(Respond, Recovery, fd));
    Step1(x4, o, x5);
    var x6 := Outcome(d', Leaving(Finished, fd));
    Step1(x5, o, x6);
    Chain(x0, o, x1, x2);
    Chain(x0, o, x2, x3);
    Chain(x0, o, x3, x4);
    Chain(x0, o, x4, x5);
    Chain(x0, o, x5, x6);
  }

  /** Writing and publishing a status, and finalising. */
  lemma StatusEnds(d: Disk, s: RunStatus, o: Oracle, fd: Inode) returns (d': Disk)
    requires d.tree.Keys == {Processing}
    ensures Reaches(Outcome(d, Working(StatusWrite(s), Recovery, fd)), o, Outcome(d', Leaving(Finished, fd)))
    ensures RunServer.EndedWith(d', s) && d'.starts == d.starts
  {
    var x0 := Outcome(d, Working(StatusWrite(s), Recovery, fd));
    var d1 := With(d, d.tree[Processing].(statusTmp := Some(s)));
    var x1 := Outcome(d1, Working(StatusPublish(s), Recovery, fd));
    Step1(x0, o, x1);
    var d2 := PublishStatus(d1);
    var x2 := Outcome(d2, Working(Finalize(s), Recovery, fd));
    Step1(x1, o, x2);
    assert d2.tree.Keys == {Processing};
    d' := FinalizeEnds(d2, s, o, fd);
    Chain(x0, o, x1, x2);
    Chain(x0, o, x2, Outcome(d', Leaving(Finished, fd)));
  }

  /** Starting the transform with a plan, and what it leads to. */
  lemma TransformEnds(d: Disk, entry: ManifestEntry, plan: Plan, o: Oracle, fd: Inode) returns (d': Disk)
    requires d.tree.Keys == {Processing}
    ensures Reaches(Outcome(d, Working(StartTransform(entry, plan), Recovery, fd)), o, Outcome(d', Leaving(Finished, fd)))
    ensures RunServer.EndedWith(d', EntryOutcome(d.nickname, d.runId, entry, o.prepared && o.success))
    ensures d'.starts == d.starts + (if o.prepared then [plan] else [])
  {
    var x0 := Outcome(d, Working(StartTransform(entry, plan), Recovery, fd));
    var s := EntryOutcome(d.nickname, d.runId, entry, o.prepared && o.success);
    if !o.prepared {
      var x1 := Outcome(d, Working(StatusWrite(s), Recovery, fd));
      Step1(x0, o, x1);
      d' := StatusEnds(d, s, o, fd);
      Chain(x0, o, x1, Outcome(d', Leaving(Finished, fd)));
      assert d.starts + [] == d.starts;
    } else {
      var d1 := d.(starts := d.starts + [plan]);
      var x1 := Outcome(d1, Working(Transforming(entry), Recovery, fd));
      Step1(x0, o, x1);
      var d2 := d1.(succeeded := d1.succeeded || o.success);
      var x2 := Outcome(d2, Working(StatusWrite(s), Recovery, fd));
      Step1(x1, o, x2);
      d' := StatusEnds(d2, s, o, fd);
      Chain(x0, o, x1, x2);
      Chain(x0, o, x2, Outcome(d', Leaving(Finished, fd)));
    }
  }

  /** The staged entry is checked, the plan loaded or resolved. */
  lemma EntryEnds(d: Disk, entry: ManifestEntry, o: Oracle, fd: Inode) returns (d': Disk)
    requires d.tree.Keys == {Processing} && d.tree[Processing].plan == d.chosen
    ensures Reaches(Outcome(d, Working(CheckEntry(entry), Recovery, fd)), o, Outcome(d', Leaving(Finished, fd)))
    ensures var started := o.checked && RunServer.PlanFor(d, o).Some? && o.prepared;
      && RunServer.EndedWith(d', EntryOutcome(d.nickname, d.runId, entry, started && o.success))
      && d'.starts == d.starts + (if started then [RunServer.PlanFor(d, o).value] else [])
  {
    var x0 := Outcome(d, Working(CheckEntry(entry), Recovery, fd));
    var failed := Outcome(d, Working(StatusWrite(EntryOutcome(d.nickname, d.runId, entry, false)), Recovery, fd));
    if !o.checked {
      Step1(x0, o, failed);
      d' := StatusEnds(d, failed.pc.work.st, o, fd);
      Chain(x0, o, failed, Outcome(d', Leaving(Finished, fd)));
      assert d.starts + [] == d.starts;
    } else {
      var x1 := Outcome(d, Working(PlanLoad(entry), Recovery, fd));
      Step1(x0, o, x1);
      d' := PlanEnds(d, entry, o, fd);
      Chain(x0, o, x1, Outcome(d', Leaving(Finished, fd)));
    }
  }

  lemma PlanEnds(d: Disk, entry: ManifestEntry, o: Oracle, fd: Inode) returns (d': Disk)
    requires d.tree.Keys == {Processing} && d.tree[Processing].plan == d.chosen
    ensures Reaches(Outcome(d, Working(PlanLoad(entry), Recovery, fd)), o, Outcome(d', Leaving(Finished, fd)))
    ensures var started := RunServer.PlanFor(d, o).Some? && o.prepared;
      && RunServer.EndedWith(d', EntryOutcome(d.nickname, d.runId, entry, started && o.success))
      && d'.starts == d.starts + (if started then [RunServer.PlanFor(d, o).value] else [])
  {
    var x0 := Outcome(d, Working(PlanLoad(entry), Recovery, fd));
    if d.chosen.Some? {
      var x1 := Outcome(d, Working(StartTransform(entry, d.chosen.value), Recovery, fd));
      Step1(x0, o, x1);
      d' := TransformEnds(d, entry, d.chosen.value, o, fd);
      Chain(x0, o, x1, Outcome(d', Leaving(Finished, fd)));
    } else if o.plan.None? {
      var s := EntryOutcome(d.nickname, d.runId, entry, false);
      var x1 := Outcome(d, Working(StatusWrite(s), Recovery, fd));
      Step1(x0, o, x1);
      d' := StatusEnds(d, s, o, fd);
      Chain(x0, o, x1, Outcome(d', Leaving(Finished, fd)));
      assert d.starts + [] == d.starts;
    } else {
      var plan := o.plan.value;
      var x1 := Outcome(d, Working(PlanWrite(entry, plan), Recovery, fd));
      Step1(x0, o, x1);
      var d1 := With(d, d.tree[Processing].(planTmp := Some(plan)));
      var x2 := Outcome(d1, Working(PlanPublish(entry, plan), Recovery, fd));
      Step1(x1, o, x2);
      var d2 := With(d1, d1.tree[Processing].(plan := Some(plan), planTmp := None)).(chosen := Some(plan));
      var x3 := Outcome(d2, Working(StartTransform(entry, plan), Recovery, fd));
      Step1(x2, o, x3);
      assert d2.tree.Keys == {Processing};
      d' := TransformEnds(d2, entry, plan, o, fd);
      Chain(x0, o, x1, x2);
      Chain(x0, o, x2, x3);
      Chain(x0, o, x3, Outcome(d', Leaving(Finished, fd)));
    }
  }

  /** Replaying from the staged files. */
  lemma ReplayEnds(d: Disk, o: Oracle, fd: Inode) returns (d': Disk)
    requires Abandoned(d, fd) && d.decided.None?
    ensures Reaches(Outcome(d, Visiting(ReadAgain, Recovery, fd)), o, Outcome(d', Leaving(Finished, fd)))
    ensures RunServer.Concluded(d, o, d')
  {
    var dir := d.tree[Processing];
    assert d.tree.Keys == {Processing};
    var manifest := dir.inputs.manifest.value;
    var x0 := Outcome(d, Visiting(ReadAgain, Recovery, fd));
    var x1 := Outcome(d, Working(Validate(manifest), Recovery, fd));
    Step1(x0, o, x1);
    if !RunServer.Accepted(dir, o) {
      var x2 := Outcome(d, Visiting(FailWrite(ReturnError), Recovery, fd));
      Step1(x1, o, x2);
      d' := FailureEnds(d, o, fd);
      Chain(x0, o, x1, x2);
      Chain(x0, o, x2, Outcome(d', Leaving(Finished, fd)));
      assert d.starts + [] == d.starts;
    } else {
      var entry := manifest.entries[0];
      var x2 := Outcome(d, Working(WorkArea(entry), Recovery, fd));
      Step1(x1, o, x2);
      var d1 := With(d, dir.(bulky := true));
      var x3 := Outcome(d1, Working(CheckEntry(entry), Recovery, fd));
      Step1(x2, o, x3);
      assert d1.tree.Keys == {Processing};
      d' := EntryEnds(d1, entry, o, fd);
      Chain(x0, o, x1, x2);
      Chain(x0, o, x2, x3);
      Chain(x0, o, x3, Outcome(d', Leaving(Finished, fd)));
    }
  }

  /** Under the lock, a recovery that nobody disturbs concludes the run. */
  lemma RecoveryEnds(d: Disk, o: Oracle, fd: Inode) returns (d': Disk)
    requires Abandoned(d, fd)
    ensures Reaches(Outcome(d, Visiting(RecoverLease, Recovery, fd)), o, Outcome(d', Leaving(Finished, fd)))
    ensures RunServer.Concluded(d, o, d')
  {
    var x0 := Outcome(d, Visiting(RecoverLease, Recovery, fd));
    var x1 := Outcome(d, Visiting(RecoverStatus, Recovery, fd));
    Step1(x0, o, x1);
    assert d.tree.Keys == {Processing};
    if d.decided.Some? {
      var s := d.decided.value;
      var x2 := Outcome(d, Working(Finalize(s), Recovery, fd));
      Step1(x1, o, x2);
      d' := FinalizeEnds(d, s, o, fd);
      Chain(x0, o, x1, x2);
      Chain(x0, o, x2, Outcome(d', Leaving(Finished, fd)));
    } else {
      var x2 := Outcome(d, Visiting(ReadAgain, Recovery, fd));
      Step1(x1, o, x2);
      d' := ReplayEnds(d, o, fd);
      Chain(x0, o, x1, x2);
      Chain(x0, o, x2, Outcome(d', Leaving(Finished, fd)));
    }
  }

  // ---- as a history of the protocol

  /** Only this process acts. */
  predicate Solo(events: seq<Event>, p: Pid) {
    forall i | 0 <= i < |events| :: events[i] == SpawnRecovery(p) || (events[i].Act? && events[i].pid == p)
  }

  lemma RunOne(w: World, e: Event)
    ensures Run(w, [e]) == Step(w, e)
  {
    assert [e][..0] == [];
    assert Run(w, []) == w;
  }

  /** The operations of `Steps` as events. */
  lemma {:induction false} StepsAreEvents(w: World, p: Pid, o: Oracle, n: nat) returns (events: seq<Event>)
    requires p in w.procs
    ensures var w' := Run(w, events);
      && Solo(events, p) && p in w'.procs && w'.holders == w.holders
      && Outcome(w'.disk, w'.procs[p]) == Steps(Outcome(w.disk, w.procs[p]), o, n)
    decreases n
  {
    events := [];
    if n > 0 && Local(w.procs[p]) {
      var e := Act(p, ChoiceAt(w.procs[p], o));
      RunOne(w, e);
      var rest := StepsAreEvents(Step(w, e), p, o, n - 1);
      RunTheorems.RunAppends(w, [e], rest);
      events := [e] + rest;
    }
  }

  lemma ToTheLock(d: Disk, o: Oracle, fd: Inode)
    requires Processing in d.tree && d.tree[Processing].lock == Some(fd)
    ensures Steps(Outcome(d, Outside(RecoverStart)), o, 3) == Outcome(d, Knocking(Processing, Recovery, fd))
  {
    OneStep(Outcome(d, Outside(RecoverStart)), o);
    OneStep(Outcome(d, Outside(LockCheck(Processing, Recovery))), o);
    OneStep(Outcome(d, Outside(LockOpen(Processing, Recovery))), o);
    StepsAdd(Outcome(d, Outside(RecoverStart)), o, 1, 2);
    StepsAdd(Outcome(d, Outside(LockCheck(Processing, Recovery))), o, 1, 1);
  }

  /** From the start of a recovery to the lock. */
  lemma LockTaken(w: World, p: Pid, o: Oracle) returns (events: seq<Event>)
    requires Inv(w) && p !in w.procs && Processing in w.disk.tree && w.disk.tree[Processing].lock.value !in w.holders
    ensures var w' := Run(w, events);
      && Solo(events, p) && w'.disk == w.disk && p in w'.procs
      && w'.procs[p] == Visiting(RecoverLease, Recovery, w.disk.tree[Processing].lock.value)
  {
    var fd := w.disk.tree[Processing].lock.value;
    assert DirOk(w.disk, Processing, w.disk.tree[Processing]);
    var w1 := Step(w, SpawnRecovery(p));
    RunOne(w, SpawnRecovery(p));
    ToTheLock(w.disk, o, fd);
    var acts := StepsAreEvents(w1, p, o, 3);
    var w2 := Run(w1, acts);
    var knock := Act(p, ChoiceAt(w2.procs[p], o));
    RunOne(w2, knock);
    RunTheorems.RunAppends(w, [SpawnRecovery(p)], acts);
    RunTheorems.RunAppends(w, [SpawnRecovery(p)] + acts, [knock]);
    events := [SpawnRecovery(p)] + acts + [knock];
  }

  /** From the lock to the end. */
  lemma RecoveryFromTheLock(w: World, p: Pid, o: Oracle, fd: Inode) returns (events: seq<Event>)
    requires Inv(w) && p in w.procs && w.procs[p] == Visiting(RecoverLease, Recovery, fd) && Abandoned(w.disk, fd)
    ensures var w' := Run(w, events);
      && Solo(events, p) && RunServer.Concluded(w.disk, o, w'.disk)
      && p in w'.procs && w'.procs[p] == FINISHED && forall i | i in w'.holders :: w'.holders[i] != p
  {
    var d' := RecoveryEnds(w.disk, o, fd);
    var x := Outcome(w.disk, Visiting(RecoverLease, Recovery, fd));
    var n: nat :| Steps(x, o, n) == Outcome(d', Leaving(Finished, fd));
    var acts := StepsAreEvents(w, p, o, n);
    var w1 := Run(w, acts);
    var leave := Act(p, ChoiceAt(w1.procs[p], o));
    RunOne(w1, leave);
    RunTheorems.RunAppends(w, acts, [leave]);
    events := acts + [leave];
  }

  /** However a run was abandoned in processing/ -- after any history, with its lock free -- a recovery that
      runs undisturbed takes it to the terminal phase of the status it had published, or else of the outcome
      of replaying it, exactly as `RunServer` says one call does, and gives the lock back. */
  lemma RecoveryConcludes(nickname: string, runId: string, before: seq<Event>, p: Pid, o: Oracle) returns (later: seq<Event>)
    requires var w := After(nickname, runId, before);
      p !in w.procs && Processing in w.disk.tree && w.disk.tree[Processing].lock.Some?
      && w.disk.tree[Processing].lock.value !in w.holders
    ensures var w, w' := After(nickname, runId, before), After(nickname, runId, before + later);
      && Solo(later, p)
      && RunServer.Concluded(w.disk, o, w'.disk)
      && p in w'.procs && w'.procs[p] == FINISHED && forall i | i in w'.holders :: w'.holders[i] != p
  {
    var w := After(nickname, runId, before);
    RunTheorems.RunKeepsInv(nickname, runId, before);
    assert DirOk(w.disk, Processing, w.disk.tree[Processing]);
    var fd := w.disk.tree[Processing].lock.value;
    var enter := LockTaken(w, p, o);
    RunTheorems.RunAppends(Init(nickname, runId), before, enter);
    RunTheorems.RunKeepsInv(nickname, runId, before + enter);
    var finish := RecoveryFromTheLock(Run(w, enter), p, o, fd);
    later := enter + finish;
    RunTheorems.RunAppends(w, enter, finish);
    RunTheorems.RunAppends(Init(nickname, runId), before, later);
  }

  function After(nickname: string, runId: string, events: seq<Event>): World {
    RunTheorems.After(nickname, runId, events)
  }
}

/** Safety of the server protocol over whole runs: every interleaving of processors,
    crashes, garbage collection and client calls. */
module RunTheorems {
  import opened Records
  import opened RunFiles
  import opened RunProtocol
  import opened RunInvariant

  // ---- every event keeps the invariant

  lemma ActKeepsInv(w: World, p: Pid, c: Choice)
    requires Inv(w) && p in w.procs
    ensures Inv(Advance(w, p, c))
  {
    var d, pc, w' := w.disk, w.procs[p], Advance(w, p, c);
    assert ProcOk(d, pc);
    match pc
    case Outside(step) => OutsideKeepsInv(w, p, c);
    case Knocking(_, _, fd) => FlockKeepsInv(w, p, c);
    case Probing(fd) => FlockKeepsInv(w, p, c);
    case Leaving(next, fd) =>
      LocksReleased(w, w', p, Outside(next));
    case Closing(step, via, fd) =>
      var phase := if Done in d.tree then Done else Failed;
      forall at | at in d.tree ensures Rank(at) == 3 && at == phase {}
      ClosingSound(d, phase, step, via, fd);
      if Untouched(d, AdvanceClosing(d, step, via, fd).disk) {
        OthersUnmoved(w, AdvanceClosing(d, step, via, fd).disk, p);
      } else {
        OthersUndisturbed(w, AdvanceClosing(d, step, via, fd).disk, p, phase);
      }
      Assemble(w, p, AdvanceClosing(d, step, via, fd));
    case _ => LocalKeepsInv(w, p, c);
  }

  lemma OutsideKeepsInv(w: World, p: Pid, c: Choice)
    requires Inv(w) && p in w.procs && w.procs[p].Outside?
    ensures Inv(Advance(w, p, c))
  {
    var d, step := w.disk, w.procs[p].out;
    var o := AdvanceOutside(d, step);
    assert ProcOk(d, w.procs[p]);
    if step.LockOpen? && step.phase in d.tree && d.tree[step.phase].lock.None? {
      LockFileSound(d, step);
      forall q | q in w.procs && q != p ensures ProcOk(o.disk, w.procs[q]) {
        assert ProcOk(d, w.procs[q]);
        assert DirOk(d, step.phase, d.tree[step.phase]);
        LockFileKeepsProc(d, o.disk, w.procs[q]);
      }
    } else {
      OutsideSound(d, step);
      OthersUnmoved(w, o.disk, p);
    }
    Assemble(w, p, o);
  }

  lemma FlockKeepsInv(w: World, p: Pid, c: Choice)
    requires Inv(w) && p in w.procs && (w.procs[p].Knocking? || w.procs[p].Probing?)
    ensures Inv(Advance(w, p, c))
  {
    var pc, w' := w.procs[p], Advance(w, p, c);
    assert ProcOk(w.disk, pc);
    if pc.fd in w.holders {
      LocksKept(w, w', p, FINISHED);
    } else {
      LocksTaken(w, w', p, w'.procs[p], pc.fd);
    }
  }

  /** A directory disappears, or a process that had no part in it. */
  lemma RemovalKeepsProc(d: Disk, d': Disk, pc: Pc, phase: Phase)
    requires SinglePhase(d.tree) && ProcOk(d, pc) && d' == d.(tree := d.tree - {phase})
    requires !(pc.Working? && phase == Processing)
    ensures ProcOk(d', pc)
  {
  }

  lemma CollectKeepsInv(w: World, phase: Phase)
    requires Inv(w)
    ensures Inv(w.(disk := CollectRun(w, phase)))
  {
    var d, d' := w.disk, CollectRun(w, phase);
    if d' != d {
      forall p | p in w.procs ensures ProcOk(d', w.procs[p]) {
        assert ProcOk(d, w.procs[p]);
        assert !(w.procs[p].Working? && phase == Processing);
        RemovalKeepsProc(d, d', w.procs[p], phase);
      }
      assert d'.tree == map[];
    }
  }

  lemma PruneKeepsInv(w: World)
    requires Inv(w)
    ensures Inv(w.(disk := CollectPruneDone(w.disk)))
  {
    var d, d' := w.disk, CollectPruneDone(w.disk);
    if d' != d {
      assert DirOk(d, Done, d.tree[Done]);
      assert DirOk(d', Done, d'.tree[Done]);
      forall p | p in w.procs ensures ProcOk(d', w.procs[p]) {
        assert ProcOk(d, w.procs[p]);
      }
    }
  }

  /** While the run is incoming no process has anything of it open. */
  lemma IncomingKeepsInv(w: World, d': Disk)
    requires Inv(w)
    requires (exists inputs :: d' == UploadInputs(w.disk, inputs)) || d' == FinishIncoming(w.disk) || d' == BeginRun(w.disk)
    ensures Inv(w.(disk := d'))
  {
    var d := w.disk;
    if d' != d {
      forall at | at in d.tree ensures DirOk(d, at, d.tree[at]) {}
      forall at | at in d'.tree ensures DirOk(d', at, d'.tree[at]) {}
      forall p | p in w.procs ensures ProcOk(d', w.procs[p]) {
        assert ProcOk(d, w.procs[p]);
      }
    }
  }

  lemma StepKeepsInv(w: World, e: Event)
    requires Inv(w)
    ensures Inv(Step(w, e))
  {
    match e
    case Begin => IncomingKeepsInv(w, BeginRun(w.disk));
    case Upload(inputs) => IncomingKeepsInv(w, UploadInputs(w.disk, inputs));
    case FinishRun => IncomingKeepsInv(w, FinishIncoming(w.disk));
    case Act(p, c) => if p in w.procs { ActKeepsInv(w, p, c); }
    case Collect(phase) => CollectKeepsInv(w, phase);
    case CollectPrune => PruneKeepsInv(w);
    case _ => SpawnOrDeathKeepsInv(w, e);
  }

  lemma SpawnOrDeathKeepsInv(w: World, e: Event)
    requires Inv(w) && !e.Begin? && !e.Upload? && !e.FinishRun? && !e.Act? && !e.Collect? && !e.CollectPrune?
    ensures Inv(Step(w, e))
  {
    if e.SpawnRecovery? {
      forall at | at in w.disk.tree ensures w.disk.begun && DirOk(w.disk, at, w.disk.tree[at]) {}
    } else if e.SpawnProbe? {
      assert Step(w, e).disk == w.disk;
    }
  }

  lemma {:induction false} RunKeepsInv(nickname: string, runId: string, events: seq<Event>)
    ensures Inv(Run(Init(nickname, runId), events))
    decreases |events|
  {
    if events != [] {
      RunKeepsInv(nickname, runId, events[..|events| - 1]);
      StepKeepsInv(Run(Init(nickname, runId), events[..|events| - 1]), events[|events| - 1]);
    }
  }

  // ---- consequences for every run

  /** The world after any events since before the run existed. */
  function After(nickname: string, runId: string, events: seq<Event>): World {
    Run(Init(nickname, runId), events)
  }

  /** `p` holds the lock file of the directory the run currently has. */
  ghost predicate OwnsRun(w: World, p: Pid) {
    p in w.procs && Holding(w.procs[p]) && exists phase :: Owns(w.disk, phase, w.procs[p].fd)
  }

  lemma MutualExclusion(nickname: string, runId: string, events: seq<Event>, p: Pid, q: Pid)
    ensures var w := After(nickname, runId, events); OwnsRun(w, p) && OwnsRun(w, q) ==> p == q
  {
    RunKeepsInv(nickname, runId, events);
  }

  /** open(2) with create, on a ready run that has no lock file yet. */
  ghost predicate CreatesLockFile(w: World, p: Pid, d': Disk) {
    && p in w.procs && w.procs[p].Outside? && w.procs[p].out.LockOpen? && w.procs[p].out.phase == Ready
    && Ready in w.disk.tree && w.disk.tree[Ready].lock.None?
    && d' == w.disk.(tree := w.disk.tree[Ready := w.disk.tree[Ready].(lock := Some(w.disk.nextInode))],
                     nextInode := w.disk.nextInode + 1)
  }

  /** A process that does not own the run's current directory changes no file and no history,
      whatever it does next; only the creation of the lock file needs no lock.  In particular a
      lock taken on a descriptor opened before the directory was renamed away is harmless. */
  lemma OnlyTheOwnerActs(nickname: string, runId: string, events: seq<Event>, p: Pid, c: Choice)
    ensures var w := After(nickname, runId, events);
      p in w.procs && !OwnsRun(w, p) ==>
        var d' := Advance(w, p, c).disk;
        d' == w.disk || CreatesLockFile(w, p, d')
  {
    RunKeepsInv(nickname, runId, events);
    var w := After(nickname, runId, events);
    if p in w.procs && !OwnsRun(w, p) {
      StrangerIsHarmless(w, p, c);
    }
  }

  lemma StrangerIsHarmless(w: World, p: Pid, c: Choice)
    requires Inv(w) && p in w.procs && !OwnsRun(w, p)
    ensures var d' := Advance(w, p, c).disk;
      d' == w.disk || CreatesLockFile(w, p, d')
  {
    var d, pc := w.disk, w.procs[p];
    assert ProcOk(d, pc);
    match pc
    case Outside(step) =>
      if step.LockOpen? && step.phase in d.tree && d.tree[step.phase].lock.None? {
        assert DirOk(d, step.phase, d.tree[step.phase]);
        LockFileSound(d, step);
      }
    case AtReady(step, via, fd) => GoneSound(d, c, pc);
    case Visiting(step, via, fd) => GoneSound(d, c, pc);
    case Closing(step, via, fd) =>
      forall at | at in d.tree ensures d.tree[at].lock.None? && Rank(at) == 3 && DirOk(d, at, d.tree[at]) {}
      TidyingAgain(d, step, via, fd);
    case _ =>
  }

  /** Tidying a terminal directory whose lock file is gone changes nothing. */
  lemma TidyingAgain(d: Disk, step: ClosingStep, via: Caller, fd: Inode)
    requires forall at | at in d.tree :: d.tree[at].lock.None? && Rank(at) == 3 && DirOk(d, at, d.tree[at])
    requires Possible(Closing(step, via, fd))
    ensures AdvanceClosing(d, step, via, fd).disk == d
  {
    if Done in d.tree { assert d.tree[Done := d.tree[Done]] == d.tree; }
    if Failed in d.tree { assert d.tree[Failed := d.tree[Failed]] == d.tree; }
  }

  /** A terminal directory always carries a status of this run whose state belongs to that phase. */
  lemma StatusBeforeTerminal(nickname: string, runId: string, events: seq<Event>, phase: Phase)
    ensures var tree := After(nickname, runId, events).disk.tree;
      Rank(phase) == 3 && phase in tree ==>
        && tree[phase].status.Some? && tree[phase].status.value.WellFormed?
        && var s := tree[phase].status.value.status;
        && s.nickname == nickname && s.runId == runId && TerminalPhase(s.state) == phase
        && VerifiedTerminalStatus(tree, nickname, runId) == Verified(phase, s.state)
  {
    RunKeepsInv(nickname, runId, events);
    SameName(nickname, runId, events);
    var d := After(nickname, runId, events).disk;
    if Rank(phase) == 3 && phase in d.tree {
      assert DirOk(d, phase, d.tree[phase]);
    }
  }

  lemma {:induction false} SameName(nickname: string, runId: string, events: seq<Event>)
    ensures After(nickname, runId, events).disk.nickname == nickname && After(nickname, runId, events).disk.runId == runId
    decreases |events|
  {
    if events != [] {
      SameName(nickname, runId, events[..|events| - 1]);
      NameKept(After(nickname, runId, events[..|events| - 1]), events[|events| - 1]);
    }
  }

  predicate SameNames(d: Disk, d': Disk) {
    d'.nickname == d.nickname && d'.runId == d.runId
  }

  lemma WorkKeepsName(d: Disk, c: Choice, step: WorkStep, via: Caller, fd: Inode)
    ensures SameNames(d, AdvanceWork(d, c, step, via, fd).disk)
  {}

  lemma ReadyKeepsName(d: Disk, c: Choice, step: ReadyStep, via: Caller, fd: Inode)
    ensures SameNames(d, AdvanceReady(d, c, step, via, fd).disk)
  {}

  lemma OperateKeepsName(d: Disk, c: Choice, pc: Pc)
    requires !pc.Knocking? && !pc.Probing? && !pc.Leaving?
    ensures SameNames(d, Operate(d, c, pc).disk)
  {
    match pc
    case Outside(step) => assert SameNames(d, AdvanceOutside(d, step).disk);
    case AtReady(step, via, fd) => ReadyKeepsName(d, c, step, via, fd);
    case Visiting(step, via, fd) => assert SameNames(d, AdvanceVisit(d, c, step, via, fd).disk);
    case Working(step, via, fd) => WorkKeepsName(d, c, step, via, fd);
    case Closing(step, via, fd) => assert SameNames(d, AdvanceClosing(d, step, via, fd).disk);
  }

  lemma NameKept(w: World, e: Event)
    ensures SameNames(w.disk, Step(w, e).disk)
  {
    if e.Act? && e.pid in w.procs {
      var pc := w.procs[e.pid];
      if !pc.Knocking? && !pc.Probing? && !pc.Leaving? {
        OperateKeepsName(w.disk, e.choice, pc);
      }
    }
  }

  /** The bails of `terminal_response` and the statusless move of `move_to_failed` are dead code: a process
      that reports a terminal outcome finds a verified status, or garbage collection has been there; no claimed
      or recovered run turns out incompatible; and nothing is left to move when `move_to_failed` runs. */
  lemma DeadBranches(nickname: string, runId: string, events: seq<Event>, p: Pid)
    ensures var w := After(nickname, runId, events);
      p in w.procs ==> (match w.procs[p]
        case Outside(RespondUnlocked) => w.disk.tree == map[] || VerifiedTerminalStatus(w.disk.tree, nickname, runId).Verified?
        case Closing(Respond, _, _) => w.disk.tree == map[] || VerifiedTerminalStatus(w.disk.tree, nickname, runId).Verified?
        case Closing(AfterError(incompatible), _, _) => !incompatible
        case Closing(MoveFailed, _, _) => Processing !in w.disk.tree
        case Visiting(FailWrite(next), _, _) => next == ReturnError
        case _ => true)
  {
    RunKeepsInv(nickname, runId, events);
    var w := After(nickname, runId, events);
    if p in w.procs {
      assert ProcOk(w.disk, w.procs[p]);
      if Settled(w.disk) && w.disk.tree != map[] {
        var at :| at in w.disk.tree;
        StatusBeforeTerminal(nickname, runId, events, at);
      }
    }
  }

  lemma {:induction false} RunAppends(w: World, before: seq<Event>, later: seq<Event>)
    ensures Run(w, before + later) == Run(Run(w, before), later)
    decreases |later|
  {
    if later == [] {
      assert before + later == before;
    } else {
      var init, last := later[..|later| - 1], later[|later| - 1];
      assert (before + later)[..|before + later| - 1] == before + init;
      RunAppends(w, before, init);
    }
  }

  lemma StepKeepsDecision(w: World, e: Event)
    requires Inv(w) && w.disk.decided.Some?
    ensures Step(w, e).disk.decided == w.disk.decided && Step(w, e).disk.starts == w.disk.starts
  {
    match e
    case Act(p, c) => if p in w.procs { ActKeepsDecision(w, p, c); }
    case _ =>
  }

  lemma ActKeepsDecision(w: World, p: Pid, c: Choice)
    requires Inv(w) && w.disk.decided.Some? && p in w.procs
    ensures Step(w, Act(p, c)).disk.decided == w.disk.decided && Step(w, Act(p, c)).disk.starts == w.disk.starts
  {
    assert ProcOk(w.disk, w.procs[p]);
    forall at | at in w.disk.tree ensures DirOk(w.disk, at, w.disk.tree[at]) {}
  }

  lemma {:induction false} DecisionStays(w: World, later: seq<Event>)
    requires Inv(w) && w.disk.decided.Some?
    ensures Inv(Run(w, later)) && Run(w, later).disk.decided == w.disk.decided && Run(w, later).disk.starts == w.disk.starts
    decreases |later|
  {
    if later != [] {
      DecisionStays(w, later[..|later| - 1]);
      StepKeepsInv(Run(w, later[..|later| - 1]), later[|later| - 1]);
      StepKeepsDecision(Run(w, later[..|later| - 1]), later[|later| - 1]);
    }
  }

  /** Once a status is published in processing/, nothing that happens later starts another transform or
      shows the run anywhere but in processing/ or in the phase that status implies, with that very status. */
  lemma IrrevocableOutcome(nickname: string, runId: string, before: seq<Event>, later: seq<Event>)
    ensures var w, w' := After(nickname, runId, before), After(nickname, runId, before + later);
      Processing in w.disk.tree && w.disk.tree[Processing].status.Some? ==>
        && w.disk.tree[Processing].status.value.WellFormed?
        && w'.disk.starts == w.disk.starts
        && forall phase | phase in w'.disk.tree ::
             && w'.disk.tree[phase].status == w.disk.tree[Processing].status
             && (phase == Processing || phase == TerminalPhase(w.disk.tree[Processing].status.value.status.state))
  {
    var w, w' := After(nickname, runId, before), After(nickname, runId, before + later);
    RunKeepsInv(nickname, runId, before);
    if Processing in w.disk.tree && w.disk.tree[Processing].status.Some? {
      assert DirOk(w.disk, Processing, w.disk.tree[Processing]);
      RunAppends(Init(nickname, runId), before, later);
      DecisionStays(w, later);
      forall phase | phase in w'.disk.tree ensures DirOk(w'.disk, phase, w'.disk.tree[phase]) {}
    }
  }

  /** All transform invocations of a run get one plan, however often the run is replayed and whatever the
      destination looks like by then. */
  lemma OnePlan(nickname: string, runId: string, events: seq<Event>, i: nat, j: nat)
    ensures var starts := After(nickname, runId, events).disk.starts;
      i < |starts| && j < |starts| ==> starts[i] == starts[j]
  {
    RunKeepsInv(nickname, runId, events);
  }

  /** One phase directory at a time. */
  lemma OnePhase(nickname: string, runId: string, events: seq<Event>, a: Phase, b: Phase)
    ensures var tree := After(nickname, runId, events).disk.tree; a in tree && b in tree ==> a == b
  {
    RunKeepsInv(nickname, runId, events);
  }

  lemma EffectMovesForward(d: Disk, d': Disk, phase: Phase, fd: Inode)
    requires TreeOk(d) && OwnerEffect(d, d', phase, fd)
    ensures Forward(d, d')
  {
    if !Untouched(d, d') && !Rewrote(d, d', phase, fd) {
      var dst :| Moved(d, d', phase, fd, dst);
      assert Owns(d, phase, fd);
    }
  }

  lemma LocalMovesForward(w: World, p: Pid, c: Choice)
    requires Inv(w) && p in w.procs && (w.procs[p].AtReady? || w.procs[p].Visiting? || w.procs[p].Working?)
    ensures Forward(w.disk, Operate(w.disk, c, w.procs[p]).disk)
  {
    var d, pc := w.disk, w.procs[p];
    var phase := if pc.AtReady? then Ready else Processing;
    assert ProcOk(d, pc);
    if phase in d.tree {
      assert DirOk(d, phase, d.tree[phase]);
      assert Here(d, phase, pc.fd);
      if pc.AtReady? { ReadySound(d, c, pc.ready, pc.via, pc.fd); }
      else if pc.Visiting? { VisitSound(d, c, pc.visit, pc.via, pc.fd); }
      else { WorkSound(d, c, pc.work, pc.via, pc.fd); }
      EffectMovesForward(d, Operate(d, c, pc).disk, phase, pc.fd);
    } else {
      GoneSound(d, c, pc);
    }
  }

  lemma ActMovesForward(w: World, p: Pid, c: Choice)
    requires Inv(w) && p in w.procs
    ensures Forward(w.disk, Advance(w, p, c).disk)
  {
    var d, pc := w.disk, w.procs[p];
    assert ProcOk(d, pc);
    match pc
    case Closing(step, via, fd) =>
      var phase := if Done in d.tree then Done else Failed;
      forall at | at in d.tree ensures Rank(at) == 3 && at == phase {}
      ClosingSound(d, phase, step, via, fd);
      EffectMovesForward(d, AdvanceClosing(d, step, via, fd).disk, phase, fd);
    case Outside(step) =>
    case Knocking(_, _, _) =>
    case Probing(_) =>
    case Leaving(_, _) =>
    case _ => LocalMovesForward(w, p, c);
  }

  lemma StepMovesForward(w: World, e: Event)
    requires Inv(w)
    ensures Forward(w.disk, Step(w, e).disk)
  {
    if e.Act? {
      if e.pid in w.procs { ActMovesForward(w, e.pid, e.choice); }
    }
  }

  /** The run is in the same phase, further on, or collected for good. */
  ghost predicate Forward(d: Disk, d': Disk) {
    && (forall a, b | a in d.tree && b in d'.tree :: a == b || Rank(a) < Rank(b))
    && (d.begun ==> d'.begun && (d.tree == map[] ==> d'.tree == map[]))
  }

  lemma ForwardComposes(d: Disk, d': Disk, d'': Disk)
    requires TreeOk(d) && TreeOk(d') && Forward(d, d') && Forward(d', d'')
    ensures Forward(d, d'')
  {
    forall a, b | a in d.tree && b in d''.tree ensures a == b || Rank(a) < Rank(b) {
      assert d'.tree != map[];
      var c :| c in d'.tree;
    }
  }

  /** Phases only move forward, and a collected run never comes back. */
  lemma {:induction false} PhasesMoveForward(nickname: string, runId: string, before: seq<Event>, later: seq<Event>)
    ensures Forward(After(nickname, runId, before).disk, After(nickname, runId, before + later).disk)
    decreases |later|
  {
    RunKeepsInv(nickname, runId, before);
    if later == [] {
      assert before + later == before;
    } else {
      var init, last := later[..|later| - 1], later[|later| - 1];
      assert (before + later)[..|before + later| - 1] == before + init;
      PhasesMoveForward(nickname, runId, before, init);
      RunKeepsInv(nickname, runId, before + init);
      StepMovesForward(After(nickname, runId, before + init), last);
      ForwardComposes(After(nickname, runId, before).disk, After(nickname, runId, before + init).disk,
                      After(nickname, runId, before + later).disk);
    }
  }

  /** A published status marks an entry imported only if that entry is the manifest's and a transform of
      this run was started and seen to succeed. */
  lemma ImportedOnlyAfterSuccess(nickname: string, runId: string, events: seq<Event>, phase: Phase, entry: EntryStatus)
    ensures var d := After(nickname, runId, events).disk;
      phase in d.tree && d.tree[phase].status.Some? && d.tree[phase].status.value.WellFormed?
      && entry in d.tree[phase].status.value.status.entries && entry.status == Imported ==>
        && d.succeeded && d.starts != []
        && d.tree[phase].inputs.manifest.Parsed? && d.tree[phase].inputs.manifest.value.entries != []
        && var m := d.tree[phase].inputs.manifest.value.entries[0];
           entry == EntryStatus(m.kind, m.localPath, m.relativePath, Imported)
  {
    RunKeepsInv(nickname, runId, events);
    var d := After(nickname, runId, events).disk;
    if phase in d.tree {
      assert DirOk(d, phase, d.tree[phase]);
    }
  }
}

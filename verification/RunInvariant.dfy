/** What every reachable world of `RunProtocol` satisfies, proved one operation at a time. */
module RunInvariant {
  import opened Records
  import opened RunFiles
  import opened RunProtocol

  // ---- the run directory

  ghost predicate IsFailure(d: Disk, s: RunStatus) {
    s == FailureStatus(d.nickname, d.runId, s.error)
  }

  /** The statuses this code publishes: a run-level failure, or the outcome of the manifest's
      entry, and `imported` only when a transform has been seen to succeed. */
  ghost predicate StatusOk(d: Disk, inputs: Inputs, s: RunStatus) {
    || IsFailure(d, s)
    || (inputs.manifest.Parsed? && inputs.manifest.value.entries != [] &&
        var entry := inputs.manifest.value.entries[0];
        || s == EntryOutcome(d.nickname, d.runId, entry, false)
        || (d.succeeded && s == EntryOutcome(d.nickname, d.runId, entry, true)))
  }

  ghost predicate SinglePhase(tree: Tree) {
    forall a, b | a in tree && b in tree :: a == b
  }

  ghost predicate DirOk(d: Disk, phase: Phase, dir: Dir) {
    var verdict := ReadRunInputs(dir.inputs, d.nickname, d.runId);
    && (dir.lock.Some? ==> dir.lock.value < d.nextInode)
    && (match phase
        case Incoming =>
          && dir.lock.None? && dir.status.None? && dir.statusTmp.None? && dir.plan.None? && dir.planTmp.None?
          && d.decided.None? && d.chosen.None?
        case Ready =>
          && dir.plan.None? && dir.planTmp.None? && d.decided.None? && d.chosen.None?
          && (dir.status.Some? ==> verdict.Malformed? && dir.status.value.WellFormed? && IsFailure(d, dir.status.value.status))
          && (dir.statusTmp.Some? ==> verdict.Malformed? && IsFailure(d, dir.statusTmp.value))
        case Processing =>
          && dir.lock.Some? && verdict.Compatible? && dir.plan == d.chosen
          && dir.status == (if d.decided.None? then None else Some(WellFormed(d.decided.value)))
          && (d.decided.Some? ==> StatusOk(d, dir.inputs, d.decided.value))
        case _ =>
          && dir.status.Some? && dir.status.value.WellFormed?
          && (var s := dir.status.value.status;
              && StatusOk(d, dir.inputs, s) && TerminalPhase(s.state) == phase
              && (d.decided == Some(s) || (d.decided.None? && IsFailure(d, s))))
          && (phase == Done && dir.lock.None? ==> dir == Prune(dir)))
  }

  ghost predicate TreeOk(d: Disk) {
    && SinglePhase(d.tree)
    && (d.tree != map[] ==> d.begun) && (!d.begun ==> d.decided.None? && d.chosen.None?)
    && (forall phase | phase in d.tree :: DirOk(d, phase, d.tree[phase]))
  }

  /** Every transform was started with the one published plan; success is only seen of a started transform. */
  ghost predicate HistoryOk(d: Disk) {
    && (forall i | 0 <= i < |d.starts| :: d.chosen == Some(d.starts[i]))
    && (d.succeeded ==> d.starts != [])
  }

  // ---- the processes

  ghost predicate Owns(d: Disk, phase: Phase, fd: Inode) {
    phase in d.tree && d.tree[phase].lock == Some(fd)
  }

  /** The run has passed `phase` or is still in it. */
  ghost predicate Reached(d: Disk, phase: Phase) {
    d.begun && forall at | at in d.tree :: Rank(phase) <= Rank(at)
  }

  /** `fd` is the run's one and only lock file, wherever the directory has moved since it was
      opened; terminal directories may have lost it. */
  ghost predicate LockFile(d: Disk, fd: Inode) {
    fd < d.nextInode && forall at | at in d.tree :: Owns(d, at, fd) || (Rank(at) == 3 && d.tree[at].lock.None?)
  }

  /** The directory a process once opened at `phase` is still there, or gone from there for good. */
  ghost predicate OwnsOrGone(d: Disk, phase: Phase, fd: Inode) {
    Reached(d, phase) && LockFile(d, fd)
  }

  ghost predicate Settled(d: Disk) {
    d.begun && forall at | at in d.tree :: Rank(at) == 3
  }

  /** Where the run can be while a process stands at `pc`. */
  ghost predicate PlaceOk(d: Disk, pc: Pc) {
    match pc
    case Outside(step) => (
      match step
      case RecoverStart => Reached(d, Processing)
      case LockCheck(phase, via) => if via == Recovery then phase == Processing && Reached(d, Processing) else phase == Ready
      case LockOpen(phase, via) => if via == Recovery then phase == Processing && Reached(d, Processing) else phase == Ready
      case RespondUnlocked => Settled(d)
      case Recheck(via) => via != Recovery
      case ClaimStart(via) => via != Recovery
      case _ => true
    )
    case Knocking(phase, via, fd) => phase == (if via == Recovery then Processing else Ready) && OwnsOrGone(d, phase, fd)
    case Probing(fd) => fd < d.nextInode
    case AtReady(_, via, fd) => via != Recovery && OwnsOrGone(d, Ready, fd)
    case Visiting(_, _, fd) => OwnsOrGone(d, Processing, fd)
    case Working(_, _, fd) => OwnsOrGone(d, Processing, fd) && Processing in d.tree
    case Closing(_, _, fd) => Settled(d) && LockFile(d, fd)
    case Leaving(next, fd) => fd < d.nextInode && (next.Finished? || (next.Recheck? && next.via != Recovery))
  }

  /** What a process knows about the ready directory while it holds its lock. */
  ghost predicate KnowsReady(d: Disk, step: ReadyStep, dir: Dir) {
    var verdict := ReadRunInputs(dir.inputs, d.nickname, d.runId);
    match step
    case ClaimRead => true
    case ClaimRename => verdict.Compatible?
    case BadWrite => verdict.Malformed?
    case BadPublish(st) => verdict.Malformed? && dir.statusTmp == Some(st)
    case BadMove => verdict.Malformed? && dir.status.Some?
    case BadUndo => false
  }

  ghost predicate EntryIs(dir: Dir, entry: ManifestEntry) {
    dir.inputs.manifest.Parsed? && dir.inputs.manifest.value.entries != [] && dir.inputs.manifest.value.entries[0] == entry
  }

  /** What a process knows about the processing directory while it holds its lock. */
  ghost predicate KnowsVisit(d: Disk, step: VisitStep) {
    match step
    case RecoverLease => true
    case RecoverStatus => true
    case ReadAgain => d.decided.None?
    case FailWrite(next) => d.decided.None?
  }

  ghost predicate KnowsWork(d: Disk, step: WorkStep, dir: Dir) {
    match step
    case Validate(manifest) => d.decided.None? && dir.inputs.manifest == Parsed(manifest)
    case WorkArea(entry) => d.decided.None? && EntryIs(dir, entry)
    case CheckEntry(entry) => d.decided.None? && EntryIs(dir, entry)
    case PlanLoad(entry) => d.decided.None? && EntryIs(dir, entry)
    case PlanWrite(entry, _) => d.decided.None? && EntryIs(dir, entry) && d.chosen.None?
    case PlanPublish(entry, plan) => d.decided.None? && EntryIs(dir, entry) && d.chosen.None? && dir.planTmp == Some(plan)
    case StartTransform(entry, plan) => d.decided.None? && EntryIs(dir, entry) && d.chosen == Some(plan)
    case Transforming(entry) => d.decided.None? && EntryIs(dir, entry) && d.starts != []
    case StatusWrite(st) => d.decided.None? && StatusOk(d, dir.inputs, st)
    case StatusPublish(st) => d.decided.None? && StatusOk(d, dir.inputs, st) && dir.statusTmp == Some(st)
    case Finalize(st) => d.decided == Some(st)
    case FailPublish(_, st) => d.decided.None? && dir.statusTmp == Some(st) && IsFailure(d, st)
    case FailMove(_) => d.decided.Some? && d.decided.value.state == StateFailed
  }

  /** Program points that no interleaving reaches. */
  ghost predicate Possible(pc: Pc) {
    match pc
    case Visiting(FailWrite(next), _, _) => next == ReturnError
    case Working(FailPublish(next, _), _, _) => next == ReturnError
    case Working(FailMove(next), _, _) => next == ReturnError
    case Closing(FailUnlock(next), _, _) => next == ReturnError
    case Closing(AfterError(incompatible), _, _) => !incompatible
    case Closing(MoveUnlock, _, _) => false
    case Closing(Tidy(st), _, _) => st.state != StatePartial
    case _ => true
  }

  ghost predicate Knows(d: Disk, pc: Pc) {
    match pc
    case AtReady(step, _, _) => Ready in d.tree ==> KnowsReady(d, step, d.tree[Ready])
    case Visiting(step, _, _) => Processing in d.tree ==> KnowsVisit(d, step)
    case Working(step, _, _) => Processing in d.tree ==> KnowsWork(d, step, d.tree[Processing])
    case _ => true
  }

  ghost predicate ProcOk(d: Disk, pc: Pc) {
    PlaceOk(d, pc) && Possible(pc) && Knows(d, pc)
  }

  ghost predicate ProcsOk(w: World) {
    forall p | p in w.procs :: ProcOk(w.disk, w.procs[p])
  }

  /** flock: each lock file has at most one holder, and the holders are exactly the processes
      standing between a successful flock and its release. */
  ghost predicate LocksOk(w: World) {
    && (forall i | i in w.holders ::
          w.holders[i] in w.procs && Holding(w.procs[w.holders[i]]) && w.procs[w.holders[i]].fd == i)
    && (forall p | p in w.procs && Holding(w.procs[p]) ::
          w.procs[p].fd in w.holders && w.holders[w.procs[p].fd] == p)
  }

  ghost predicate DiskOk(d: Disk) {
    TreeOk(d) && HistoryOk(d)
  }

  ghost predicate Inv(w: World) {
    DiskOk(w.disk) && ProcsOk(w) && LocksOk(w)
  }

  // ---- what one operation of the lock holder leaves alone

  /** Same identity of the run, no history lost. */
  ghost predicate SameRun(d: Disk, d': Disk) {
    && d'.nickname == d.nickname && d'.runId == d.runId
    && d'.begun == d.begun && d.nextInode <= d'.nextInode && (d.succeeded ==> d'.succeeded) && d.starts <= d'.starts
  }

  /** The holder of the lock of the directory at `phase` rewrote that directory in place. */
  ghost predicate Rewrote(d: Disk, d': Disk, phase: Phase, fd: Inode) {
    && Owns(d, phase, fd) && SameRun(d, d')
    && phase in d'.tree && d'.tree == d.tree[phase := d'.tree[phase]]
    && (d'.tree[phase].lock == Some(fd) || (d'.tree[phase].lock.None? && Rank(phase) == 3))
  }

  /** The holder of the lock of the directory at `src` moved it forward. */
  ghost predicate Moved(d: Disk, d': Disk, src: Phase, fd: Inode, dst: Phase) {
    && Owns(d, src, fd) && SameRun(d, d') && Rank(src) < Rank(dst)
    && CanRename(d.tree, src, dst) && d'.tree == Rename(d.tree, src, dst)
  }

  /** Histories aside, no file changed. */
  ghost predicate Untouched(d: Disk, d': Disk) {
    SameRun(d, d') && d'.tree == d.tree && d'.decided == d.decided && d'.chosen == d.chosen
  }

  ghost predicate OwnerEffect(d: Disk, d': Disk, phase: Phase, fd: Inode) {
    || Untouched(d, d')
    || (phase != Incoming && (Rewrote(d, d', phase, fd) || exists dst :: Moved(d, d', phase, fd, dst)))
  }

  /** A process that does not hold the lock of the run's directory knows nothing that the holder can change. */
  lemma StrangerKeepsPlace(d: Disk, d': Disk, pc: Pc, phase: Phase, fd: Inode)
    requires SinglePhase(d.tree) && ProcOk(d, pc) && (Holding(pc) ==> pc.fd != fd)
    requires OwnerEffect(d, d', phase, fd)
    ensures ProcOk(d', pc)
  {
  }

  // ---- one operation of one process, seen alone

  /** The run's only directory is at `phase`, locked through `fd`. */
  ghost predicate Here(d: Disk, phase: Phase, fd: Inode) {
    && d.begun && fd < d.nextInode && Owns(d, phase, fd) && DirOk(d, phase, d.tree[phase])
    && forall at | at in d.tree :: at == phase
  }

  /** A proper outcome of an operation under the lock `fd` of the directory at `phase`. */
  ghost predicate Sound(d: Disk, o: Outcome, phase: Phase, fd: Inode) {
    && ProcOk(o.disk, o.pc) && Holding(o.pc) && o.pc.fd == fd
    && TreeOk(o.disk) && OwnerEffect(d, o.disk, phase, fd)
    && o.disk.starts == d.starts && (o.disk.chosen == d.chosen || d.chosen.None?)
    && (o.disk.succeeded ==> d.succeeded || d.starts != [])
  }

  lemma ReadySound(d: Disk, c: Choice, step: ReadyStep, via: Caller, fd: Inode)
    requires Here(d, Ready, fd) && KnowsReady(d, step, d.tree[Ready]) && via != Recovery
    ensures Sound(d, AdvanceReady(d, c, step, via, fd), Ready, fd)
  {
    var o := AdvanceReady(d, c, step, via, fd);
    match step
    case ClaimRead =>
    case ClaimRename => assert Moved(d, o.disk, Ready, fd, Processing);
    case BadWrite => assert Rewrote(d, o.disk, Ready, fd);
    case BadPublish(st) => assert Rewrote(d, o.disk, Ready, fd);
    case BadMove => assert Moved(d, o.disk, Ready, fd, Failed);
    case BadUndo =>
  }

  lemma VisitSound(d: Disk, c: Choice, step: VisitStep, via: Caller, fd: Inode)
    requires Here(d, Processing, fd) && KnowsVisit(d, step) && Possible(Visiting(step, via, fd))
    ensures Sound(d, AdvanceVisit(d, c, step, via, fd), Processing, fd)
  {
    var o := AdvanceVisit(d, c, step, via, fd);
    if step.FailWrite? { assert Rewrote(d, o.disk, Processing, fd); }
  }

  /** Before the transform: decisions that write nothing, and writes. */
  predicate Checking(step: WorkStep) {
    step.Validate? || step.CheckEntry? || step.PlanLoad?
  }

  predicate Planning(step: WorkStep) {
    step.WorkArea? || step.PlanWrite? || step.PlanPublish?
  }

  lemma CheckSound(d: Disk, c: Choice, step: WorkStep, via: Caller, fd: Inode)
    requires Here(d, Processing, fd) && KnowsWork(d, step, d.tree[Processing]) && Checking(step)
    ensures Sound(d, AdvanceWork(d, c, step, via, fd), Processing, fd)
  {
    var o := AdvanceWork(d, c, step, via, fd);
    assert Untouched(d, o.disk);
    assert KnowsWork(o.disk, step, d.tree[Processing]);
  }

  lemma PlanSound(d: Disk, c: Choice, step: WorkStep, via: Caller, fd: Inode)
    requires Here(d, Processing, fd) && KnowsWork(d, step, d.tree[Processing]) && Planning(step)
    ensures Sound(d, AdvanceWork(d, c, step, via, fd), Processing, fd)
  {
    var o := AdvanceWork(d, c, step, via, fd);
    assert Rewrote(d, o.disk, Processing, fd);
    assert DirOk(o.disk, Processing, o.disk.tree[Processing]);
  }

  lemma PublishSound(d: Disk, c: Choice, step: WorkStep, via: Caller, fd: Inode)
    requires Here(d, Processing, fd) && KnowsWork(d, step, d.tree[Processing]) && Possible(Working(step, via, fd))
    requires !Checking(step) && !Planning(step) && !step.StartTransform? && !step.Finalize? && !step.FailMove?
    ensures Sound(d, AdvanceWork(d, c, step, via, fd), Processing, fd)
  {
    var o := AdvanceWork(d, c, step, via, fd);
    if !step.Transforming? {
      assert Rewrote(d, o.disk, Processing, fd);
    }
  }

  lemma TerminalMoveSound(d: Disk, c: Choice, step: WorkStep, via: Caller, fd: Inode)
    requires Here(d, Processing, fd) && KnowsWork(d, step, d.tree[Processing]) && Possible(Working(step, via, fd))
    requires step.Finalize? || step.FailMove?
    ensures Sound(d, AdvanceWork(d, c, step, via, fd), Processing, fd)
  {
    var o := AdvanceWork(d, c, step, via, fd);
    var dst := if step.Finalize? then TerminalPhase(step.st.state) else Failed;
    assert Moved(d, o.disk, Processing, fd, dst);
    assert DirOk(o.disk, dst, d.tree[Processing]);
  }

  /** What a closing step leaves: its process stands properly, and the directory is rewritten or as it was. */
  ghost predicate ClosedSoundly(d: Disk, o: Outcome, phase: Phase, fd: Inode) {
    && ProcOk(o.disk, o.pc) && Holding(o.pc) && o.pc.fd == fd && TreeOk(o.disk)
    && o.disk.starts == d.starts && o.disk.chosen == d.chosen && o.disk.succeeded == d.succeeded
    && (Untouched(d, o.disk) || OwnerEffect(d, o.disk, phase, fd))
  }

  /** Unlocking a terminal directory, or pruning a done one. */
  lemma TidyingKeepsTree(d: Disk, phase: Phase, dir: Dir)
    requires TreeOk(d) && phase in d.tree && Rank(phase) == 3
    requires dir == Unlock(d.tree[phase]) || (phase == Done && dir == Prune(d.tree[phase]))
    requires phase == Done ==> dir == Prune(dir) || dir.lock.Some?
    ensures TreeOk(PutDir(d, phase, dir))
  {
    var d' := PutDir(d, phase, dir);
    assert DirOk(d, phase, d.tree[phase]);
    forall at | at in d'.tree ensures at == phase && DirOk(d', at, d'.tree[at]) { assert at in d.tree; }
  }

  lemma TidySound(d: Disk, phase: Phase, step: ClosingStep, via: Caller, fd: Inode)
    requires TreeOk(d) && ProcOk(d, Closing(step, via, fd)) && phase in d.tree && step.Tidy?
    ensures ClosedSoundly(d, AdvanceClosing(d, step, via, fd), phase, fd)
  {
    var o := AdvanceClosing(d, step, via, fd);
    assert Rank(phase) == 3 && DirOk(d, phase, d.tree[phase]);
    forall at | at in d.tree ensures at == phase {}
    if o.disk.tree != d.tree {
      TidyingKeepsTree(d, phase, o.disk.tree[phase]);
      assert o.disk == PutDir(d, phase, o.disk.tree[phase]);
      assert Rewrote(d, o.disk, phase, fd);
    }
  }

  lemma UnlockingSound(d: Disk, phase: Phase, step: ClosingStep, via: Caller, fd: Inode)
    requires TreeOk(d) && ProcOk(d, Closing(step, via, fd)) && phase in d.tree && (step.BadUnlock? || step.FailUnlock?)
    ensures ClosedSoundly(d, AdvanceClosing(d, step, via, fd), phase, fd)
  {
    var o := AdvanceClosing(d, step, via, fd);
    assert Rank(phase) == 3 && DirOk(d, phase, d.tree[phase]);
    forall at | at in d.tree ensures at == phase {}
    if o.disk.tree != d.tree {
      TidyingKeepsTree(d, phase, o.disk.tree[phase]);
      assert o.disk == PutDir(d, phase, o.disk.tree[phase]);
      assert Rewrote(d, o.disk, phase, fd);
    }
  }

  lemma ClosingSound(d: Disk, phase: Phase, step: ClosingStep, via: Caller, fd: Inode)
    requires TreeOk(d) && ProcOk(d, Closing(step, via, fd)) && (phase in d.tree || d.tree == map[])
    ensures ClosedSoundly(d, AdvanceClosing(d, step, via, fd), phase, fd)
  {
    if phase in d.tree && step.Tidy? {
      TidySound(d, phase, step, via, fd);
    } else if phase in d.tree && (step.BadUnlock? || step.FailUnlock?) {
      UnlockingSound(d, phase, step, via, fd);
    } else {
      if phase in d.tree { assert Rank(phase) == 3 && DirOk(d, phase, d.tree[phase]); }
      assert AdvanceClosing(d, step, via, fd).disk == d;
    }
  }

  lemma TransformStarts(d: Disk, c: Choice, entry: ManifestEntry, plan: Plan, via: Caller, fd: Inode)
    requires Here(d, Processing, fd) && KnowsWork(d, StartTransform(entry, plan), d.tree[Processing])
    ensures var o := AdvanceWork(d, c, StartTransform(entry, plan), via, fd);
      && ProcOk(o.disk, o.pc) && Holding(o.pc) && o.pc.fd == fd && Untouched(d, o.disk)
      && (HistoryOk(d) ==> HistoryOk(o.disk))
  {
  }

  /** Where the existence checks lead. */
  lemma OutsideSound(d: Disk, step: OutsideStep)
    requires TreeOk(d) && PlaceOk(d, Outside(step))
    requires !(step.LockOpen? && step.phase in d.tree && d.tree[step.phase].lock.None?)
    ensures var o := AdvanceOutside(d, step); o.disk == d && !Holding(o.pc) && ProcOk(d, o.pc)
  {
    forall at | at in d.tree ensures d.begun && DirOk(d, at, d.tree[at]) {}
  }

  /** Creating the lock file of a ready run. */
  lemma LockFileSound(d: Disk, step: OutsideStep)
    requires TreeOk(d) && PlaceOk(d, Outside(step))
    requires step.LockOpen? && step.phase in d.tree && d.tree[step.phase].lock.None?
    ensures var o := AdvanceOutside(d, step);
      && !Holding(o.pc) && ProcOk(o.disk, o.pc) && TreeOk(o.disk) && SameRun(d, o.disk)
      && o.disk == d.(tree := d.tree[Ready := d.tree[Ready].(lock := Some(d.nextInode))], nextInode := d.nextInode + 1)
  {
    assert DirOk(d, step.phase, d.tree[step.phase]);
    var o := AdvanceOutside(d, step);
    assert DirOk(o.disk, Ready, o.disk.tree[Ready]);
  }

  /** Nobody had the new lock file open. */
  lemma LockFileKeepsProc(d: Disk, d': Disk, pc: Pc)
    requires ProcOk(d, pc) && Ready in d.tree && d.tree[Ready].lock.None?
    requires d' == d.(tree := d.tree[Ready := d.tree[Ready].(lock := Some(d.nextInode))], nextInode := d.nextInode + 1)
    ensures ProcOk(d', pc)
  {
  }

  // ---- the flock table

  lemma LocksKept(w: World, w': World, p: Pid, pc: Pc)
    requires LocksOk(w) && p in w.procs
    requires w'.holders == w.holders && w'.procs == w.procs[p := pc]
    requires Holding(pc) == Holding(w.procs[p]) && (Holding(pc) ==> pc.fd == w.procs[p].fd)
    ensures LocksOk(w')
  {
  }

  lemma LocksReleased(w: World, w': World, p: Pid, pc: Pc)
    requires LocksOk(w) && p in w.procs
    requires w'.holders == Release(w.holders, p) && w'.procs == w.procs[p := pc] && !Holding(pc)
    ensures LocksOk(w')
  {
  }

  lemma LocksTaken(w: World, w': World, p: Pid, pc: Pc, fd: Inode)
    requires LocksOk(w) && p in w.procs && !Holding(w.procs[p]) && fd !in w.holders
    requires w'.holders == w.holders[fd := p] && w'.procs == w.procs[p := pc] && Holding(pc) && pc.fd == fd
    ensures LocksOk(w')
  {
  }

  // ---- one operation among many processes

  ghost predicate OthersOk(w: World, d': Disk, p: Pid) {
    forall q | q in w.procs && q != p :: ProcOk(d', w.procs[q])
  }

  lemma OthersUnmoved(w: World, d': Disk, p: Pid)
    requires ProcsOk(w) && Untouched(w.disk, d')
    ensures OthersOk(w, d', p)
  {
    forall q | q in w.procs && q != p ensures ProcOk(d', w.procs[q]) {
      UntouchedKeepsPlace(w.disk, d', w.procs[q]);
    }
  }

  lemma UntouchedKeepsPlace(d: Disk, d': Disk, pc: Pc)
    requires ProcOk(d, pc) && Untouched(d, d')
    ensures ProcOk(d', pc)
  {
  }

  lemma OthersUndisturbed(w: World, d': Disk, p: Pid, phase: Phase)
    requires Inv(w) && p in w.procs && Holding(w.procs[p]) && OwnerEffect(w.disk, d', phase, w.procs[p].fd)
    ensures OthersOk(w, d', p)
  {
    forall q | q in w.procs && q != p ensures ProcOk(d', w.procs[q]) {
      assert ProcOk(w.disk, w.procs[q]);
      StrangerKeepsPlace(w.disk, d', w.procs[q], phase, w.procs[p].fd);
    }
  }

  lemma Assemble(w: World, p: Pid, o: Outcome)
    requires Inv(w) && p in w.procs && DiskOk(o.disk) && ProcOk(o.disk, o.pc) && OthersOk(w, o.disk, p)
    requires Holding(o.pc) == Holding(w.procs[p]) && (Holding(o.pc) ==> o.pc.fd == w.procs[p].fd)
    ensures Inv(Goto(w.(disk := o.disk), p, o.pc))
  {
    LocksKept(w, Goto(w.(disk := o.disk), p, o.pc), p, o.pc);
  }

  lemma LocalKeepsInv(w: World, p: Pid, c: Choice)
    requires Inv(w) && p in w.procs && (w.procs[p].AtReady? || w.procs[p].Visiting? || w.procs[p].Working?)
    ensures Inv(Advance(w, p, c))
  {
    var d, pc := w.disk, w.procs[p];
    var o := Operate(d, c, pc);
    var phase := if pc.AtReady? then Ready else Processing;
    assert ProcOk(d, pc);
    if phase in d.tree {
      assert DirOk(d, phase, d.tree[phase]);
      assert Here(d, phase, pc.fd);
      if pc.AtReady? { ReadySound(d, c, pc.ready, pc.via, pc.fd); }
      else if pc.Visiting? { VisitSound(d, c, pc.visit, pc.via, pc.fd); }
      else { WorkSound(d, c, pc.work, pc.via, pc.fd); }
      OthersUndisturbed(w, o.disk, p, phase);
    } else {
      GoneSound(d, c, pc);
      OthersUnmoved(w, o.disk, p);
    }
    Assemble(w, p, o);
  }

  /** Every working step at once. */
  lemma WorkSound(d: Disk, c: Choice, step: WorkStep, via: Caller, fd: Inode)
    requires Here(d, Processing, fd) && HistoryOk(d) && KnowsWork(d, step, d.tree[Processing]) && Possible(Working(step, via, fd))
    requires TreeOk(d)
    ensures var o := AdvanceWork(d, c, step, via, fd);
      && ProcOk(o.disk, o.pc) && Holding(o.pc) && o.pc.fd == fd && DiskOk(o.disk) && OwnerEffect(d, o.disk, Processing, fd)
  {
    if step.StartTransform? { TransformStarts(d, c, step.entry, step.plan, via, fd); }
    else if Checking(step) { CheckSound(d, c, step, via, fd); }
    else if Planning(step) { PlanSound(d, c, step, via, fd); }
    else if step.Finalize? || step.FailMove? { TerminalMoveSound(d, c, step, via, fd); }
    else { PublishSound(d, c, step, via, fd); }
  }

  /** A stale lock: the directory is gone for good, and every write is refused. */
  lemma GoneSound(d: Disk, c: Choice, pc: Pc)
    requires TreeOk(d) && ProcOk(d, pc) && ((pc.AtReady? && Ready !in d.tree) || (pc.Visiting? && Processing !in d.tree))
    ensures var o := Operate(d, c, pc); o.disk == d && ProcOk(d, o.pc) && Holding(o.pc) && o.pc.fd == pc.fd
  {
    if pc.Visiting? {
      forall at | at in d.tree ensures Rank(at) == 3 && DirOk(d, at, d.tree[at]) {}
      assert Settled(d);
    }
  }
}

/** Any number of server processes working on one run.  A process performs one file
    operation at a time; between two of them other processes, crashes, garbage
    collection and the uploading client may act.  `Advance` is the next operation of
    one process, named after where it stands in the source. */
module RunProtocol {
  import opened Records
  import opened RunFiles

  type Pid = nat

  /** Who called: `process_run_inner`, the batch loop of `process_once_raw`, or recovery. */
  datatype Caller = Target | Batch | Recovery

  /** What follows a `write_run_failure`. */
  datatype Then = ReturnError | Recovered | LastResort

  /** Without an open lock file. */
  datatype OutsideStep =
    | ClaimStart(via: Caller)
    | Recheck(via: Caller)
    | FallThrough
    | RecoverStart
    | LockCheck(phase: Phase, via: Caller)
    | LockOpen(phase: Phase, via: Caller)
    | ProbeOpen(phase: Phase)
    | RespondUnlocked
    | Finished

  /** `claim_ready_run` and `handle_malformed_ready`, holding a lock opened under ready/. */
  datatype ReadyStep = ClaimRead | ClaimRename | BadWrite | BadPublish(st: RunStatus) | BadMove | BadUndo

  /** Reading the processing directory, or starting `write_run_failure` in it. */
  datatype VisitStep = RecoverLease | RecoverStatus | ReadAgain | FailWrite(next: Then)

  /** `process_processing_run` and `write_run_failure`, after something was read or written there. */
  datatype WorkStep =
    | Validate(manifest: Manifest)
    | WorkArea(entry: ManifestEntry)
    | CheckEntry(entry: ManifestEntry)
    | PlanLoad(entry: ManifestEntry)
    | PlanWrite(entry: ManifestEntry, plan: Plan)
    | PlanPublish(entry: ManifestEntry, plan: Plan)
    | StartTransform(entry: ManifestEntry, plan: Plan)
    | Transforming(entry: ManifestEntry)
    | StatusWrite(st: RunStatus)
    | StatusPublish(st: RunStatus)
    | Finalize(st: RunStatus)
    | FailPublish(next: Then, st: RunStatus)
    | FailMove(next: Then)

  /** After the terminal rename, or after an error. */
  datatype ClosingStep =
    | BadUnlock
    | Tidy(st: RunStatus)
    | FailUnlock(next: Then)
    | AfterError(incompatible: bool)
    | MoveFailed
    | MoveUnlock
    | Respond

  datatype Pc =
    | Outside(out: OutsideStep)
    | Knocking(phase: Phase, via: Caller, fd: Inode)
    | Probing(fd: Inode)
    | AtReady(ready: ReadyStep, via: Caller, fd: Inode)
    | Visiting(visit: VisitStep, via: Caller, fd: Inode)
    | Working(work: WorkStep, via: Caller, fd: Inode)
    | Closing(close: ClosingStep, via: Caller, fd: Inode)
    | Leaving(next: OutsideStep, fd: Inode)

  const FINISHED := Outside(Finished)

  /** Between a successful flock and its release. */
  predicate Holding(pc: Pc) {
    !pc.Outside? && !pc.Knocking? && !pc.Probing?
  }

  /** Outside influences on one operation: does a check or the transform succeed,
      which plan does destination resolution give, what does an error say. */
  datatype Choice = Choice(good: bool, plan: Option<Plan>, text: string)

  /** The run's files as all processes see them, with the run's name. */
  datatype Disk = Disk(
    nickname: string,
    runId: string,
    begun: bool,
    tree: Tree,
    nextInode: Inode,
    // history, read by no operation
    decided: Option<RunStatus>,
    chosen: Option<Plan>,
    starts: seq<Plan>,
    succeeded: bool)

  /** The files, the holder of each locked lock file, and where every process stands. */
  datatype World = World(disk: Disk, holders: map<Inode, Pid>, procs: map<Pid, Pc>)

  /** What one file operation leaves behind: the files, and where its process goes on. */
  datatype Outcome = Outcome(disk: Disk, pc: Pc)

  datatype Event =
    | Begin
    | Upload(inputs: Inputs)
    | FinishRun
    | SpawnTarget(pid: Pid)
    | SpawnBatch(pid: Pid)
    | SpawnRecovery(pid: Pid)
    | SpawnProbe(pid: Pid, at: Phase)
    | Act(pid: Pid, choice: Choice)
    | Crash(pid: Pid)
    | Collect(phase: Phase)
    | CollectPrune

  function Init(nickname: string, runId: string): World {
    World(Disk(nickname, runId, false, map[], 0, None, None, [], false), map[], map[])
  }

  // ---- small updates

  function PutDir(d: Disk, phase: Phase, dir: Dir): Disk {
    d.(tree := d.tree[phase := dir])
  }

  /** rename(2) of the run directory, or `refused`. */
  function TryRename(d: Disk, src: Phase, dst: Phase, moved: Pc, refused: Pc): Outcome {
    if CanRename(d.tree, src, dst) then Outcome(d.(tree := Rename(d.tree, src, dst)), moved) else Outcome(d, refused)
  }

  /** remove_file(processor.lock), errors ignored. */
  function UnlockAt(d: Disk, phase: Phase): Disk {
    if phase in d.tree then PutDir(d, phase, Unlock(d.tree[phase])) else d
  }

  /** Closing the lock file, by choice or by dying, releases the lock. */
  function Release(holders: map<Inode, Pid>, p: Pid): map<Inode, Pid> {
    map i | i in holders && holders[i] != p :: holders[i]
  }

  // ---- the operations of one process

  /** The next operation of a process: locking is decided by the holders, everything else by the files. */
  function Advance(w: World, p: Pid, c: Choice): World
    requires p in w.procs
  {
    var pc := w.procs[p];
    if pc.Knocking? || pc.Probing? then
      if pc.fd in w.holders then Goto(w, p, FINISHED)
      else Goto(w.(holders := w.holders[pc.fd := p]), p, if pc.Probing? then Leaving(Finished, pc.fd) else Entered(pc.via, pc.fd))
    else if pc.Leaving? then Goto(w.(holders := Release(w.holders, p)), p, Outside(pc.next))
    else
      var o := Operate(w.disk, c, pc);
      Goto(w.(disk := o.disk), p, o.pc)
  }

  function Goto(w: World, p: Pid, pc: Pc): World {
    w.(procs := w.procs[p := pc])
  }

  /** The first program point under the lock. */
  function Entered(via: Caller, fd: Inode): Pc {
    if via == Recovery then Visiting(RecoverLease, via, fd) else AtReady(ClaimRead, via, fd)
  }

  function Operate(d: Disk, c: Choice, pc: Pc): Outcome
    requires !pc.Knocking? && !pc.Probing? && !pc.Leaving?
  {
    match pc
    case Outside(step) => AdvanceOutside(d, step)
    case AtReady(step, via, fd) => AdvanceReady(d, c, step, via, fd)
    case Visiting(step, via, fd) => AdvanceVisit(d, c, step, via, fd)
    case Working(step, via, fd) => AdvanceWork(d, c, step, via, fd)
    case Closing(step, via, fd) => AdvanceClosing(d, step, via, fd)
  }

  /** The existence checks of `claim_ready_run`, `recheck_state`, `process_run_inner` and
      `recover_processing_run_if_unlocked`; `try_lock_existing_dir` up to its open with create;
      and the read-only probe, which opens without create. */
  function AdvanceOutside(d: Disk, step: OutsideStep): Outcome {
    match step
    case ClaimStart(via) =>
      Outcome(d, Outside(if Ready in d.tree then LockCheck(Ready, via) else Recheck(via)))
    case Recheck(via) =>
      if Processing in d.tree then Outcome(d, Outside(if via == Target then RecoverStart else Finished))
      else if Done in d.tree || Failed in d.tree then Outcome(d, Outside(RespondUnlocked))
      else Outcome(d, Outside(if via == Target && Ready !in d.tree then FallThrough else Finished))
    case FallThrough =>
      Outcome(d, Outside(if Processing in d.tree then RecoverStart
                         else if Done in d.tree || Failed in d.tree then RespondUnlocked else Finished))
    case RecoverStart =>
      Outcome(d, Outside(if Processing in d.tree then LockCheck(Processing, Recovery) else RespondUnlocked))
    case LockCheck(phase, via) =>
      Outcome(d, Outside(if phase in d.tree then LockOpen(phase, via)
                         else if via == Recovery then RespondUnlocked else Recheck(via)))
    case LockOpen(phase, via) =>
      if phase !in d.tree then Outcome(d, FINISHED)
      else (match d.tree[phase].lock
        case Some(i) => Outcome(d, Knocking(phase, via, i))
        case None =>
          var i := d.nextInode;
          Outcome(PutDir(d, phase, d.tree[phase].(lock := Some(i))).(nextInode := i + 1), Knocking(phase, via, i))
      )
    case ProbeOpen(phase) =>
      if phase in d.tree && d.tree[phase].lock.Some? then Outcome(d, Probing(d.tree[phase].lock.value)) else Outcome(d, FINISHED)
    case RespondUnlocked => Outcome(d, FINISHED)
    case Finished => Outcome(d, FINISHED)
  }

  /** The locked half of `claim_ready_run`, and `handle_malformed_ready`. */
  function AdvanceReady(d: Disk, c: Choice, step: ReadyStep, via: Caller, fd: Inode): Outcome {
    match step
    case ClaimRead => (
      match ReadRunInputs(InputsAt(d.tree, Ready), d.nickname, d.runId)
      case Incompatible => Outcome(d, Leaving(Finished, fd))
      case Malformed => Outcome(d, AtReady(BadWrite, via, fd))
      case Compatible(_, _) => Outcome(d, AtReady(ClaimRename, via, fd))
    )
    case ClaimRename =>
      TryRename(d, Ready, Processing, Visiting(ReadAgain, via, fd), Leaving(Recheck(via), fd))
    case BadWrite =>
      if Ready in d.tree then
        var st := FailureStatus(d.nickname, d.runId, c.text);
        Outcome(PutDir(d, Ready, d.tree[Ready].(statusTmp := Some(st))), AtReady(BadPublish(st), via, fd))
      else Outcome(d, Leaving(Finished, fd))
    case BadPublish(st) =>
      if Ready in d.tree && d.tree[Ready].statusTmp.Some? then
        var dir := d.tree[Ready];
        Outcome(PutDir(d, Ready, dir.(status := Some(WellFormed(dir.statusTmp.value)), statusTmp := None)), AtReady(BadMove, via, fd))
      else Outcome(d, Leaving(Finished, fd))
    case BadMove => TryRename(d, Ready, Failed, Closing(BadUnlock, via, fd), AtReady(BadUndo, via, fd))
    case BadUndo =>
      if Ready in d.tree then Outcome(PutDir(d, Ready, d.tree[Ready].(status := None, statusTmp := None)), Leaving(Finished, fd))
      else Outcome(d, Leaving(Finished, fd))
  }

  /** `recover_or_process_processing_run` (an existing status is finalised or replaced, a missing one
      replays), the first reads of `process_processing_run`, and the first write of `write_run_failure`. */
  function AdvanceVisit(d: Disk, c: Choice, step: VisitStep, via: Caller, fd: Inode): Outcome {
    match step
    case RecoverLease => (
      match InputsAt(d.tree, Processing).lease
      case BadLease => Outcome(d, Closing(AfterError(false), via, fd))
      case LeaseFor(v) =>
        Outcome(d, if v != PROTOCOL_VERSION then Closing(AfterError(true), via, fd) else Visiting(RecoverStatus, via, fd))
      case NoLease => Outcome(d, Visiting(RecoverStatus, via, fd))
    )
    case RecoverStatus =>
      if Processing !in d.tree || d.tree[Processing].status.None? then Outcome(d, Visiting(ReadAgain, via, fd))
      else (match d.tree[Processing].status.value
        case ForeignStatus => Outcome(d, Closing(AfterError(true), via, fd))
        case MalformedStatus => Outcome(d, Visiting(FailWrite(Recovered), via, fd))
        case WellFormed(s) =>
          if s.nickname != d.nickname || s.runId != d.runId then Outcome(d, Visiting(FailWrite(Recovered), via, fd))
          else Outcome(d, Working(Finalize(s), via, fd))
      )
    case ReadAgain => (
      match ReadRunInputs(InputsAt(d.tree, Processing), d.nickname, d.runId)
      case Incompatible => Outcome(d, Closing(AfterError(true), via, fd))
      case Malformed => Outcome(d, Visiting(FailWrite(ReturnError), via, fd))
      case Compatible(_, manifest) => Outcome(d, Working(Validate(manifest), via, fd))
    )
    case FailWrite(next) =>
      if Processing in d.tree then
        var st := FailureStatus(d.nickname, d.runId, c.text);
        Outcome(PutDir(d, Processing, d.tree[Processing].(statusTmp := Some(st))), Working(FailPublish(next, st), via, fd))
      else Outcome(d, FailureRefused(next, via, fd))
  }

  /** What an error inside `write_run_failure` leads to. */
  function FailureRefused(next: Then, via: Caller, fd: Inode): Pc {
    if next == LastResort then Leaving(Finished, fd) else Closing(AfterError(false), via, fd)
  }

  /** rename(status.toml.tmp, status.toml) in the processing directory. */
  function PublishStatus(d: Disk): Disk
    requires Processing in d.tree && d.tree[Processing].statusTmp.Some?
  {
    var st := d.tree[Processing].statusTmp.value;
    PutDir(d, Processing, d.tree[Processing].(status := Some(WellFormed(st)), statusTmp := None)).(decided := Some(st))
  }

  /** The rest of `process_processing_run` and of `write_run_failure`. */
  function AdvanceWork(d: Disk, c: Choice, step: WorkStep, via: Caller, fd: Inode): Outcome {
    var failedEntry := (entry: ManifestEntry) => Working(StatusWrite(EntryOutcome(d.nickname, d.runId, entry, false)), via, fd);
    match step
    case Validate(manifest) =>
      Outcome(d, if c.good && |manifest.entries| == 1 then Working(WorkArea(manifest.entries[0]), via, fd)
                 else Visiting(FailWrite(ReturnError), via, fd))
    case WorkArea(entry) =>
      // create_dir_all would bring back a missing processing directory
      var dir := if Processing in d.tree then d.tree[Processing].(bulky := true)
                 else Dir(None, NO_INPUTS, None, None, None, None, true);
      Outcome(PutDir(d, Processing, dir), Working(CheckEntry(entry), via, fd))
    case CheckEntry(entry) =>
      Outcome(d, if c.good then Working(PlanLoad(entry), via, fd) else failedEntry(entry))
    case PlanLoad(entry) =>
      if Processing in d.tree && d.tree[Processing].plan.Some?
      then Outcome(d, Working(StartTransform(entry, d.tree[Processing].plan.value), via, fd))
      else (match c.plan
        case None => Outcome(d, failedEntry(entry))
        case Some(plan) => Outcome(d, Working(PlanWrite(entry, plan), via, fd))
      )
    case PlanWrite(entry, plan) =>
      if Processing in d.tree
      then Outcome(PutDir(d, Processing, d.tree[Processing].(planTmp := Some(plan))), Working(PlanPublish(entry, plan), via, fd))
      else Outcome(d, failedEntry(entry))
    case PlanPublish(entry, plan) =>
      if Processing in d.tree && d.tree[Processing].planTmp.Some? then
        var published := d.tree[Processing].planTmp;
        Outcome(PutDir(d, Processing, d.tree[Processing].(plan := published, planTmp := None)).(chosen := published),
             Working(StartTransform(entry, plan), via, fd))
      else Outcome(d, failedEntry(entry))
    case StartTransform(entry, plan) =>
      if c.good then Outcome(d.(starts := d.starts + [plan]), Working(Transforming(entry), via, fd))
      else Outcome(d, failedEntry(entry))
    case Transforming(entry) =>
      Outcome(d.(succeeded := d.succeeded || c.good),
           Working(StatusWrite(EntryOutcome(d.nickname, d.runId, entry, c.good)), via, fd))
    case StatusWrite(st) =>
      if Processing in d.tree
      then Outcome(PutDir(d, Processing, d.tree[Processing].(statusTmp := Some(st))), Working(StatusPublish(st), via, fd))
      else Outcome(d, Closing(AfterError(false), via, fd))
    case StatusPublish(st) =>
      if Processing in d.tree && d.tree[Processing].statusTmp.Some?
      then Outcome(PublishStatus(d), Working(Finalize(st), via, fd))
      else Outcome(d, Closing(AfterError(false), via, fd))
    case Finalize(st) =>
      TryRename(d, Processing, TerminalPhase(st.state), Closing(Tidy(st), via, fd), Closing(AfterError(false), via, fd))
    case FailPublish(next, st) =>
      if Processing in d.tree && d.tree[Processing].statusTmp.Some?
      then Outcome(PublishStatus(d), Working(FailMove(next), via, fd))
      else Outcome(d, FailureRefused(next, via, fd))
    case FailMove(next) =>
      TryRename(d, Processing, Failed, Closing(FailUnlock(next), via, fd), FailureRefused(next, via, fd))
  }

  /** Tidying a terminal directory, what the callers do with an error, and `move_to_failed`. */
  function AdvanceClosing(d: Disk, step: ClosingStep, via: Caller, fd: Inode): Outcome {
    var respond := Closing(Respond, via, fd);
    match step
    case BadUnlock => Outcome(UnlockAt(d, Failed), respond)
    case Tidy(st) =>
      if st.state == StateDone && Done in d.tree then Outcome(PutDir(d, Done, Prune(d.tree[Done])), respond)
      else Outcome(UnlockAt(d, TerminalPhase(st.state)), respond)
    case FailUnlock(next) =>
      Outcome(UnlockAt(d, Failed), if next == ReturnError then Closing(AfterError(false), via, fd) else respond)
    case AfterError(incompatible) =>
      if via == Recovery then
        Outcome(d, if incompatible then Leaving(Finished, fd)
                   else if Processing in d.tree then Visiting(FailWrite(LastResort), via, fd) else respond)
      else Outcome(d, if incompatible && via == Target then Leaving(Finished, fd) else Closing(MoveFailed, via, fd))
    case MoveFailed => TryRename(d, Processing, Failed, Closing(MoveUnlock, via, fd), respond)
    case MoveUnlock => Outcome(UnlockAt(d, Failed), respond)
    case Respond => Outcome(d, Leaving(Finished, fd))
  }

  // ---- the environment

  function Spawn(w: World, p: Pid, step: OutsideStep): World {
    if p in w.procs then w else Goto(w, p, Outside(step))
  }

  /** One `collect_run` call: the processing phase is spared while its lock is held. */
  function CollectRun(w: World, phase: Phase): Disk {
    var d := w.disk;
    if phase !in d.tree then d
    else if phase == Processing && d.tree[phase].lock.Some? && d.tree[phase].lock.value in w.holders then d
    else d.(tree := d.tree - {phase})
  }

  /** `collect_done` on an unexpired run: prune only under a matching status that says exactly done. */
  function CollectPruneDone(d: Disk): Disk {
    if Done in d.tree && VerifyStatus(d.tree[Done], Done, d.nickname, d.runId) == Verified(Done, StateDone)
    then PutDir(d, Done, Prune(d.tree[Done])) else d
  }

  /** `finish_run`: a no-op when the run is already past incoming, refused without a current lease. */
  function FinishIncoming(d: Disk): Disk {
    if Ready in d.tree || Processing in d.tree || Done in d.tree || Failed in d.tree then d
    else if CanRename(d.tree, Incoming, Ready) && d.tree[Incoming].inputs.lease == LeaseFor(PROTOCOL_VERSION)
    then d.(tree := Rename(d.tree, Incoming, Ready))
    else d
  }

  /** `begin_run` with a fresh run id. */
  function BeginRun(d: Disk): Disk {
    if d.begun then d else PutDir(d, Incoming, Dir(None, NO_INPUTS, None, None, None, None, true)).(begun := true)
  }

  /** The client writes run.toml and manifest.toml and renews the lease while the run is incoming. */
  function UploadInputs(d: Disk, inputs: Inputs): Disk {
    if Incoming in d.tree then PutDir(d, Incoming, d.tree[Incoming].(inputs := inputs)) else d
  }

  function Step(w: World, e: Event): World {
    match e
    case Begin => w.(disk := BeginRun(w.disk))
    case Upload(inputs) => w.(disk := UploadInputs(w.disk, inputs))
    case FinishRun => w.(disk := FinishIncoming(w.disk))
    case SpawnTarget(p) => Spawn(w, p, ClaimStart(Target))
    case SpawnBatch(p) => Spawn(w, p, ClaimStart(Batch))
    case SpawnRecovery(p) => if Processing in w.disk.tree then Spawn(w, p, RecoverStart) else w
    case SpawnProbe(p, phase) => Spawn(w, p, ProbeOpen(phase))
    case Act(p, c) => if p in w.procs then Advance(w, p, c) else w
    case Crash(p) => w.(procs := w.procs - {p}, holders := Release(w.holders, p))
    case Collect(phase) => w.(disk := CollectRun(w, phase))
    case CollectPrune => w.(disk := CollectPruneDone(w.disk))
  }

  /** The world after a sequence of events, oldest first. */
  function Run(w: World, events: seq<Event>): World
    decreases |events|
  {
    if events == [] then w else Step(Run(w, events[..|events| - 1]), events[|events| - 1])
  }
}

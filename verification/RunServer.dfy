/** The server's procedures as one process executes them when nobody interferes, over the same
    files as `RunProtocol`: what one call does to a run in any state the protocol can leave behind. */
module RunServer {
  import opened Records
  import opened RunFiles
  import opened RunProtocol
  import opened RunInvariant
  import RunTheorems

  /** Outside influences on one call: transform validation, the staged-entry checks, destination
      resolution, preparing the work copy, the transform, and the wording of errors. */
  datatype Oracle = Oracle(valid: bool, checked: bool, plan: Option<Plan>, prepared: bool, success: bool, text: string)

  datatype LockAttempt = Acquired(fd: Inode) | Busy | Missing

  datatype ClaimOutcome =
    | Claimed(fd: Inode) | AlreadyProcessing | AlreadyTerminal | ActiveClaimer
    | IncompatibleReady | MalformedReadyMovedToFailed | MalformedReadyMoveFailed | NotFound | ClaimFailed

  datatype ProcessResult = Processed | ProcessIncompatible | ProcessError

  datatype RecoveryOutcome =
    | RunRecovered | ActiveProcessor | RecoveryIncompatible | RunNotFound | FailedPublished

  datatype Response =
    | Terminal(phase: Phase, state: RunState)
    | WasTerminal(phase: Phase, state: RunState)
    | ClaimInProgress | AlreadyActive
    | Refused

  /** The directory with its lock file, which opening creates. */
  function WithLock(d: Disk, phase: Phase): Disk {
    if phase in d.tree && d.tree[phase].lock.None?
    then PutDir(d, phase, d.tree[phase].(lock := Some(d.nextInode))).(nextInode := d.nextInode + 1)
    else d
  }

  /** The plan a replay uses: the published one, or whatever resolution gives now. */
  function PlanFor(d: Disk, o: Oracle): Option<Plan> {
    if d.chosen.Some? then d.chosen else o.plan
  }

  function ManifestOf(dir: Dir): Option<Manifest> {
    if dir.inputs.manifest.Parsed? then Some(dir.inputs.manifest.value) else None
  }

  /** The plan accepted and exactly one entry named. */
  predicate Accepted(dir: Dir, o: Oracle) {
    o.valid && ManifestOf(dir).Some? && |ManifestOf(dir).value.entries| == 1
  }

  /** Does the transform get started, and on success, what does the run publish? */
  predicate TransformStarted(d: Disk, dir: Dir, o: Oracle) {
    Accepted(dir, o) && o.checked && PlanFor(d, o).Some? && o.prepared
  }

  function Published(d: Disk, dir: Dir, o: Oracle): RunStatus {
    if !Accepted(dir, o) then FailureStatus(d.nickname, d.runId, o.text)
    else EntryOutcome(d.nickname, d.runId, ManifestOf(dir).value.entries[0], TransformStarted(d, dir, o) && o.success)
  }

  /** The run is in the phase its status implies, and nowhere else. */
  ghost predicate EndedWith(d: Disk, s: RunStatus) {
    && d.tree.Keys == {TerminalPhase(s.state)}
    && d.tree[TerminalPhase(s.state)].status == Some(WellFormed(s))
  }

  class Server {
    var disk: Disk
    var holders: map<Inode, Pid>

    /** Files and locks as any reachable world leaves them. */
    ghost predicate Valid()
      reads this
    {
      DiskOk(disk) && forall i | i in holders :: i < disk.nextInode
    }

    constructor (d: Disk, locked: map<Inode, Pid>)
      requires DiskOk(d) && forall i | i in locked :: i < d.nextInode
      ensures Valid() && disk == d && holders == locked
    {
      disk, holders := d, locked;
    }

    method TryLockExistingDir(phase: Phase, me: Pid) returns (r: LockAttempt)
      requires Valid() && (phase == Ready || phase == Processing)
      modifies this
      ensures Valid() && disk == WithLock(old(disk), phase)
      ensures phase !in old(disk.tree) ==> r == Missing && holders == old(holders)
      ensures phase in old(disk.tree) ==>
        var fd := disk.tree[phase].lock.value;
        && disk.tree[phase].lock == Some(fd)
        && (if fd in old(holders) then r == Busy && holders == old(holders)
            else r == Acquired(fd) && holders == old(holders)[fd := me])
    {
      if phase !in disk.tree {
        return Missing;
      }
      assert DirOk(disk, phase, disk.tree[phase]);
      if disk.tree[phase].lock.None? {
        disk := WithLock(disk, phase);
        assert DirOk(disk, phase, disk.tree[phase]);
      }
      var fd := disk.tree[phase].lock.value;
      if fd in holders {
        return Busy;
      }
      holders := holders[fd := me];
      return Acquired(fd);
    }

    method DropLock(fd: Inode)
      requires Valid() && fd in holders
      modifies this`holders
      ensures Valid() && holders == old(holders) - {fd}
    {
      holders := holders - {fd};
    }

    /** `recheck_state`: whichever answer is given, the run is there and nowhere else; a terminal one means that
        a trustworthy status can be read. */
    method RecheckState() returns (r: ClaimOutcome)
      requires Valid()
      ensures r == AlreadyProcessing <==> disk.tree.Keys == {Processing}
      ensures r == AlreadyTerminal <==> VerifiedTerminalStatus(disk.tree, disk.nickname, disk.runId).Verified?
      ensures r == AlreadyTerminal ==> disk.tree.Keys == {Done} || disk.tree.Keys == {Failed}
      ensures r == ClaimFailed <==> disk.tree.Keys == {Ready}
      ensures r == NotFound <==> disk.tree.Keys <= {Incoming}
      ensures r in {AlreadyProcessing, AlreadyTerminal, ClaimFailed, NotFound}
    {
      ghost var tree := disk.tree;
      assert forall p | p in tree :: tree.Keys == {p} && DirOk(disk, p, tree[p]);
      if Processing in disk.tree { return AlreadyProcessing; }
      if Done in disk.tree || Failed in disk.tree { return AlreadyTerminal; }
      if Ready in disk.tree { return ClaimFailed; }
      return NotFound;
    }

    /** `handle_malformed_ready`: the status is published before the rename. */
    method HandleMalformedReady(text: string) returns (r: ClaimOutcome)
      requires Valid()
      requires Ready in disk.tree ==> ReadRunInputs(disk.tree[Ready].inputs, disk.nickname, disk.runId).Malformed?
      modifies this`disk
      ensures Valid()
      ensures Ready !in old(disk.tree) ==> r == MalformedReadyMoveFailed && disk == old(disk)
      ensures Ready in old(disk.tree) ==>
        && r == MalformedReadyMovedToFailed
        && EndedWith(disk, FailureStatus(disk.nickname, disk.runId, text)) && disk.tree[Failed].lock.None?
        && disk == old(disk).(tree := disk.tree)
    {
      var st := FailureStatus(disk.nickname, disk.runId, text);
      if Ready !in disk.tree {
        return MalformedReadyMoveFailed;
      }
      assert DirOk(disk, Ready, disk.tree[Ready]);
      disk := PutDir(disk, Ready, disk.tree[Ready].(statusTmp := Some(st)));
      disk := PutDir(disk, Ready, disk.tree[Ready].(status := Some(WellFormed(st)), statusTmp := None));
      assert CanRename(disk.tree, Ready, Failed);  // the branch that takes the status back is dead
      disk := disk.(tree := Rename(disk.tree, Ready, Failed));
      disk := UnlockAt(disk, Failed);
      assert DirOk(disk, Failed, disk.tree[Failed]);
      return MalformedReadyMovedToFailed;
    }

    /** `claim_ready_run`: lock, read, rename. */
    method ClaimReadyRun(me: Pid, text: string) returns (r: ClaimOutcome)
      requires Valid()
      modifies this
      ensures Valid()
      ensures Ready !in old(disk.tree) ==>
        && disk == old(disk) && holders == old(holders)
        && r == if Processing in disk.tree then AlreadyProcessing
                else if Done in disk.tree || Failed in disk.tree then AlreadyTerminal else NotFound
      ensures Ready in old(disk.tree) ==>
        var d := WithLock(old(disk), Ready);
        var fd := d.tree[Ready].lock.value;
        if fd in old(holders) then r == ActiveClaimer && disk == d && holders == old(holders)
        else match ReadRunInputs(d.tree[Ready].inputs, d.nickname, d.runId)
             case Incompatible => r == IncompatibleReady && disk == d && holders == old(holders)
             case Malformed =>
               && r == MalformedReadyMovedToFailed && holders == old(holders)
               && EndedWith(disk, FailureStatus(d.nickname, d.runId, text)) && disk == d.(tree := disk.tree)
             case Compatible(_, _) =>
               && r == Claimed(fd) && holders == old(holders)[fd := me]
               && disk == d.(tree := Rename(d.tree, Ready, Processing))
    {
      if Ready !in disk.tree {
        r := RecheckState();
        return;
      }
      var lock := TryLockExistingDir(Ready, me);
      if lock == Busy {
        return ActiveClaimer;
      }
      var d := disk;
      assert DirOk(d, Ready, d.tree[Ready]);
      match ReadRunInputs(InputsAt(disk.tree, Ready), disk.nickname, disk.runId) {
        case Incompatible =>
          DropLock(lock.fd);
          return IncompatibleReady;
        case Malformed =>
          r := HandleMalformedReady(text);
          DropLock(lock.fd);
          return;
        case Compatible(_, _) =>
          disk := disk.(tree := Rename(disk.tree, Ready, Processing));
          assert DirOk(disk, Processing, disk.tree[Processing]);
          return Claimed(lock.fd);
      }
    }

    /** `write_run_failure`: status first, then the rename. */
    method WriteRunFailure(text: string) returns (ok: bool)
      requires Valid() && (Processing in disk.tree ==> disk.decided.None?)
      modifies this`disk
      ensures Valid() && ok == (Processing in old(disk.tree))
      ensures !ok ==> disk == old(disk)
      ensures ok ==>
        && EndedWith(disk, FailureStatus(disk.nickname, disk.runId, text)) && disk.tree[Failed].lock.None?
        && disk == old(disk).(tree := disk.tree, decided := Some(FailureStatus(disk.nickname, disk.runId, text)))
    {
      if Processing !in disk.tree {
        return false;
      }
      assert DirOk(disk, Processing, disk.tree[Processing]);
      var st := FailureStatus(disk.nickname, disk.runId, text);
      disk := PutDir(disk, Processing, disk.tree[Processing].(statusTmp := Some(st)));
      disk := PublishStatus(disk);
      disk := disk.(tree := Rename(disk.tree, Processing, Failed));
      disk := UnlockAt(disk, Failed);
      assert DirOk(disk, Failed, disk.tree[Failed]);
      return true;
    }

    /** `finalize_processing_run`: the terminal rename, then pruning or unlocking. */
    method FinalizeProcessingRun(state: RunState) returns (ok: bool)
      requires Valid() && (Processing in disk.tree ==> disk.decided.Some? && disk.decided.value.state == state)
      modifies this`disk
      ensures Valid() && ok == (Processing in old(disk.tree))
      ensures !ok ==> disk == old(disk)
      ensures ok ==>
        && EndedWith(disk, old(disk).decided.value) && disk.tree[TerminalPhase(state)].lock.None?
        && disk == old(disk).(tree := disk.tree)
        && disk.tree[TerminalPhase(state)].inputs.manifest == old(disk).tree[Processing].inputs.manifest
        && disk.tree[TerminalPhase(state)].plan == old(disk).tree[Processing].plan
    {
      if Processing !in disk.tree {
        return false;
      }
      assert DirOk(disk, Processing, disk.tree[Processing]);
      var phase := TerminalPhase(state);
      disk := disk.(tree := Rename(disk.tree, Processing, phase));
      if state == StateDone {
        disk := PutDir(disk, Done, Prune(disk.tree[Done]));
      } else {
        disk := UnlockAt(disk, phase);
      }
      assert DirOk(disk, phase, disk.tree[phase]);
      return true;
    }

    /** `move_to_failed`: it publishes no status, so a run still in processing would end in failed/ without one. */
    method MoveToFailed()
      requires Processing in disk.tree ==> CanRename(disk.tree, Processing, Failed)
      modifies this`disk
      ensures disk == if Processing in old(disk.tree)
                      then UnlockAt(old(disk).(tree := Rename(old(disk.tree), Processing, Failed)), Failed) else old(disk)
    {
      if Processing in disk.tree {
        disk := disk.(tree := Rename(disk.tree, Processing, Failed));
        disk := UnlockAt(disk, Failed);
      }
    }

    /** `load_or_resolve_destination_plan`: a published plan is reused, a new one is published. */
    method LoadOrResolvePlan(resolved: Option<Plan>) returns (plan: Option<Plan>)
      requires Valid() && Processing in disk.tree && disk.decided.None?
      modifies this`disk
      ensures Valid() && plan == (if old(disk).chosen.Some? then old(disk).chosen else resolved)
      ensures disk.chosen == plan && disk.tree.Keys == {Processing}
      ensures disk == old(disk).(tree := disk.tree, chosen := plan)
      ensures disk.tree[Processing] == old(disk).tree[Processing].(plan := plan, planTmp := disk.tree[Processing].planTmp)
    {
      var dir := disk.tree[Processing];
      assert DirOk(disk, Processing, dir);
      forall phase | phase in disk.tree ensures phase == Processing {}
      if dir.plan.Some? {
        assert disk.tree == disk.tree[Processing := dir];
        return dir.plan;
      }
      if resolved.None? {
        return None;
      }
      disk := PutDir(disk, Processing, dir.(planTmp := resolved));
      disk := PutDir(disk, Processing, disk.tree[Processing].(plan := resolved, planTmp := None)).(chosen := resolved);
      assert DirOk(disk, Processing, disk.tree[Processing]);
      return resolved;
    }

    /** Stale work is removed and the work area created. */
    method CreateWorkArea()
      requires Valid() && Processing in disk.tree
      modifies this`disk
      ensures Valid() && disk == PutDir(old(disk), Processing, old(disk).tree[Processing].(bulky := true))
    {
      assert DirOk(disk, Processing, disk.tree[Processing]);
      disk := PutDir(disk, Processing, disk.tree[Processing].(bulky := true));
      assert DirOk(disk, Processing, disk.tree[Processing]);
    }

    /** `process_manifest_entry`: the checks, the plan, the transform. */
    method ProcessManifestEntry(entry: ManifestEntry, o: Oracle) returns (st: RunStatus)
      requires Valid() && Processing in disk.tree && disk.decided.None? && EntryIs(disk.tree[Processing], entry)
      modifies this`disk
      ensures Valid() && Processing in disk.tree && disk.decided.None?
      ensures disk == old(disk).(tree := disk.tree, chosen := disk.chosen, starts := disk.starts, succeeded := disk.succeeded)
      ensures disk.tree[Processing].inputs == old(disk).tree[Processing].inputs
      ensures StatusOk(disk, disk.tree[Processing].inputs, st)
      ensures var plan := PlanFor(old(disk), o); var started := o.checked && plan.Some? && o.prepared;
        && st == EntryOutcome(disk.nickname, disk.runId, entry, started && o.success)
        && disk.starts == old(disk).starts + (if started then [plan.value] else [])
    {
      if !o.checked {
        return EntryOutcome(disk.nickname, disk.runId, entry, false);
      }
      var plan := LoadOrResolvePlan(o.plan);
      if plan.None? || !o.prepared {
        return EntryOutcome(disk.nickname, disk.runId, entry, false);
      }
      disk := disk.(starts := disk.starts + [plan.value], succeeded := disk.succeeded || o.success);
      assert DirOk(disk, Processing, disk.tree[Processing]);
      return EntryOutcome(disk.nickname, disk.runId, entry, o.success);
    }

    /** The status is written beside the old one, renamed over it, and then the directory moves. */
    method PublishAndFinalize(st: RunStatus)
      requires Valid() && Processing in disk.tree && disk.decided.None?
      requires StatusOk(disk, disk.tree[Processing].inputs, st)
      modifies this`disk
      ensures Valid() && EndedWith(disk, st) && disk == old(disk).(tree := disk.tree, decided := Some(st))
    {
      assert DirOk(disk, Processing, disk.tree[Processing]);
      disk := PutDir(disk, Processing, disk.tree[Processing].(statusTmp := Some(st)));
      disk := PublishStatus(disk);
      assert DirOk(disk, Processing, disk.tree[Processing]);
      var finalized := FinalizeProcessingRun(st.state);
    }

    /** `process_processing_run`: whatever happens inside, a run found in processing ends in the phase its
        published status implies. */
    method ProcessProcessingRun(o: Oracle) returns (r: ProcessResult)
      requires Valid() && (Processing in disk.tree ==> disk.decided.None?)
      modifies this`disk
      ensures Valid() && r != ProcessIncompatible
      ensures Processing !in old(disk.tree) ==> r == ProcessError && disk == old(disk)
      ensures Processing in old(disk.tree) ==>
        var d, dir := old(disk), old(disk.tree)[Processing];
        && r == (if Accepted(dir, o) then Processed else ProcessError)
        && EndedWith(disk, Published(d, dir, o)) && disk.decided == Some(Published(d, dir, o))
        && disk.starts == d.starts + (if TransformStarted(d, dir, o) then [PlanFor(d, o).value] else [])
        && RunTheorems.SameNames(d, disk)
    {
      var verdict := ReadRunInputs(InputsAt(disk.tree, Processing), disk.nickname, disk.runId);
      if Processing !in disk.tree {
        var published := WriteRunFailure(o.text);
        return ProcessError;
      }
      assert DirOk(disk, Processing, disk.tree[Processing]);
      if !(o.valid && |verdict.manifest.entries| == 1) {
        var published := WriteRunFailure(o.text);
        return ProcessError;
      }
      CreateWorkArea();
      var st := ProcessManifestEntry(verdict.manifest.entries[0], o);
      PublishAndFinalize(st);
      return Processed;
    }

    /** `recover_or_process_processing_run`. */
    method RecoverOrProcess(o: Oracle) returns (r: ProcessResult)
      requires Valid()
      modifies this`disk
      ensures Valid() && RunTheorems.SameNames(old(disk), disk) && r != ProcessIncompatible
      ensures Processing !in old(disk.tree) ==> r == ProcessError && disk == old(disk)
      ensures Processing in old(disk.tree) && old(disk).decided.Some? ==>
        r == Processed && EndedWith(disk, old(disk).decided.value) && disk == old(disk).(tree := disk.tree)
      ensures Processing in old(disk.tree) && old(disk).decided.None? ==>
        var d, dir := old(disk), old(disk.tree)[Processing];
        && r == (if Accepted(dir, o) then Processed else ProcessError)
        && EndedWith(disk, Published(d, dir, o))
        && disk.starts == d.starts + (if TransformStarted(d, dir, o) then [PlanFor(d, o).value] else [])
    {
      if Processing in disk.tree {
        assert DirOk(disk, Processing, disk.tree[Processing]);
      }
      if Processing in disk.tree && disk.tree[Processing].status.Some? {
        var finalized := FinalizeProcessingRun(disk.tree[Processing].status.value.status.state);
        return Processed;
      }
      r := ProcessProcessingRun(o);
    }

    /** `recover_processing_run_if_unlocked`. */
    method RecoverProcessingRunIfUnlocked(me: Pid, o: Oracle) returns (r: RecoveryOutcome)
      requires Valid()
      modifies this
      ensures Valid() && holders == old(holders) && RunTheorems.SameNames(old(disk), disk)
      ensures Processing !in old(disk.tree) ==> r == RunNotFound && disk == old(disk)
      ensures Processing in old(disk.tree) && old(disk.tree)[Processing].lock.value in old(holders) ==>
        r == ActiveProcessor && disk == old(disk)
      ensures Processing in old(disk.tree) && old(disk.tree)[Processing].lock.value !in old(holders) ==>
        Concluded(old(disk), o, disk) && (r == RunRecovered || r == FailedPublished)
    {
      var lock := TryLockExistingDir(Processing, me);
      assert Processing in disk.tree ==> DirOk(disk, Processing, disk.tree[Processing]);
      if lock == Missing {
        return RunNotFound;
      }
      if lock == Busy {
        return ActiveProcessor;
      }
      var result := RecoverOrProcess(o);
      r := RunRecovered;
      if result == ProcessError {
        assert Processing !in disk.tree;  // so no failure is left to publish
        r := FailedPublished;
      }
      DropLock(lock.fd);
    }

    /** `terminal_response`: only a verified status may be reported. */
    method TerminalResponse() returns (r: Response)
      requires Valid() && (Done in disk.tree || Failed in disk.tree)
      ensures r.Terminal? && VerifiedTerminalStatus(disk.tree, disk.nickname, disk.runId) == Verified(r.phase, r.state)
    {
      var phase := if Done in disk.tree then Done else Failed;
      assert DirOk(disk, phase, disk.tree[phase]);
      var read := VerifiedTerminalStatus(disk.tree, disk.nickname, disk.runId);
      return Terminal(read.phase, read.state);
    }

    /** The rest of `process_run_inner` for the processor that claimed the run. */
    method ProcessClaimed(o: Oracle) returns (r: Response)
      requires Valid() && Processing in disk.tree && disk.decided.None?
      modifies this`disk
      ensures Valid()
      ensures var d, s := old(disk), Published(old(disk), old(disk).tree[Processing], o);
        && r == Terminal(TerminalPhase(s.state), s.state) && EndedWith(disk, s)
        && disk.starts == d.starts + (if TransformStarted(d, d.tree[Processing], o) then [PlanFor(d, o).value] else [])
    {
      var result := ProcessProcessingRun(o);
      assert Processing !in disk.tree;
      if result == ProcessError {
        MoveToFailed();
      }
      r := TerminalResponse();
    }

    /** `process_run_inner`, from any state the protocol can leave behind: who may proceed proceeds to a
        terminal phase with a verified status, everyone else leaves the run as it was. */
    method ProcessRunTarget(me: Pid, o: Oracle) returns (r: Response)
      requires Valid()
      modifies this
      ensures Valid() && holders == old(holders)
      ensures (Ready !in old(disk.tree) && Processing !in old(disk.tree)) ==>
        && disk == old(disk)
        && (if Done in disk.tree || Failed in disk.tree
            then r.WasTerminal? && VerifiedTerminalStatus(disk.tree, disk.nickname, disk.runId) == Verified(r.phase, r.state)
            else r == Refused)
      ensures Ready in old(disk.tree) ==>
        var d := WithLock(old(disk), Ready);
        if d.tree[Ready].lock.value in old(holders) then r == ClaimInProgress && disk == d
        else match ReadRunInputs(d.tree[Ready].inputs, d.nickname, d.runId)
             case Incompatible => r == Refused && disk == d
             case Malformed => r == Terminal(Failed, StateFailed) && EndedWith(disk, FailureStatus(d.nickname, d.runId, o.text))
             case Compatible(_, _) =>
               var s := Published(d, d.tree[Ready], o);
               && r == Terminal(TerminalPhase(s.state), s.state) && EndedWith(disk, s)
               && disk.starts == d.starts + (if TransformStarted(d, d.tree[Ready], o) then [PlanFor(d, o).value] else [])
      ensures Processing in old(disk.tree) ==>
        if old(disk.tree)[Processing].lock.value in old(holders) then r == AlreadyActive && disk == old(disk)
        else (
          && Concluded(old(disk), o, disk)
          && r == Terminal(TerminalPhase(Conclusion(old(disk), o).state), Conclusion(old(disk), o).state))
    {
      var claim := ClaimReadyRun(me, o.text);
      forall phase | phase in disk.tree ensures DirOk(disk, phase, disk.tree[phase]) {}
      if claim.Claimed? {
        r := ProcessClaimed(o);
        DropLock(claim.fd);
      } else if claim == ActiveClaimer {
        r := ClaimInProgress;
      } else if claim == MalformedReadyMovedToFailed {
        r := TerminalResponse();
      } else if claim == AlreadyTerminal {
        r := TerminalResponse();
        r := WasTerminal(r.phase, r.state);
      } else if claim == AlreadyProcessing {
        var recovery := RecoverProcessingRunIfUnlocked(me, o);
        if recovery == ActiveProcessor {
          r := AlreadyActive;
        } else {
          r := TerminalResponse();
        }
      } else {
        // incompatible, left in place; or in no phase a processor looks at
        r := Refused;
      }
    }

    /** `finish_run`: accepted once with a current lease, and harmless to repeat. */
    method FinishRun(expired: bool) returns (ok: bool)
      requires Valid()
      modifies this`disk
      ensures Valid()
      ensures (exists phase :: phase in old(disk.tree) && phase != Incoming) ==> ok && disk == old(disk)
      ensures Incoming in old(disk.tree) ==>
        && ok == (!expired && old(disk.tree)[Incoming].inputs.lease == LeaseFor(PROTOCOL_VERSION))
        && disk == old(disk).(tree := if ok then Rename(old(disk.tree), Incoming, Ready) else old(disk.tree))
      ensures old(disk.tree) == map[] ==> !ok && disk == old(disk)
    {
      if Ready in disk.tree || Processing in disk.tree || Done in disk.tree || Failed in disk.tree {
        return true;
      }
      if Incoming !in disk.tree || expired || disk.tree[Incoming].inputs.lease != LeaseFor(PROTOCOL_VERSION) {
        return false;
      }
      assert DirOk(disk, Incoming, disk.tree[Incoming]);
      disk := disk.(tree := Rename(disk.tree, Incoming, Ready));
      assert DirOk(disk, Ready, disk.tree[Ready]);
      return true;
    }
  }

  /** What an abandoned processing run must end with: its published status if there is one,
      otherwise the outcome of replaying it from the staged files. */
  function Conclusion(d: Disk, o: Oracle): RunStatus
    requires Processing in d.tree
  {
    if d.decided.Some? then d.decided.value else Published(d, d.tree[Processing], o)
  }

  /** The abandoned run reached that conclusion, without another transform if it was already decided. */
  ghost predicate Concluded(d: Disk, o: Oracle, d': Disk)
    requires Processing in d.tree
  {
    && EndedWith(d', Conclusion(d, o))
    && (if d.decided.Some? then d'.starts == d.starts
        else d'.starts == d.starts + (if TransformStarted(d, d.tree[Processing], o) then [PlanFor(d, o).value] else []))
  }

  /** Every world the protocol can reach, locks included, is one a `Server` can be started on. */
  lemma ReachableIsServable(nickname: string, runId: string, events: seq<Event>)
    ensures var w := RunTheorems.After(nickname, runId, events);
      && w.disk.nickname == nickname && w.disk.runId == runId
      && DiskOk(w.disk) && forall i | i in w.holders :: i < w.disk.nextInode
  {
    RunTheorems.SameName(nickname, runId, events);
    RunTheorems.RunKeepsInv(nickname, runId, events);
    var w := RunTheorems.After(nickname, runId, events);
    forall i | i in w.holders ensures i < w.disk.nextInode {
      var p := w.holders[i];
      assert PlaceOk(w.disk, w.procs[p]);
    }
  }
}

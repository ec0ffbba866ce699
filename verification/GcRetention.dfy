/** Garbage collection of one run directory: when it goes, and what pruning leaves in it. */
module GcRetention {
  import opened Records
  import opened RunFiles

  const MAX_U64: nat := 0xFFFF_FFFF_FFFF_FFFF

  type Seconds = n: nat | n <= MAX_U64

  function SaturatingAdd(a: Seconds, b: Seconds): Seconds {
    if a + b > MAX_U64 then MAX_U64 else a + b
  }

  /** A lease file that parses. */
  datatype LeaseFile = LeaseFile(protocol: nat, nickname: string, runId: string, expires: Seconds)

  datatype LeaseText = ValidLease(lease: LeaseFile) | UnusableLease

  datatype Content = StatusText(status: StatusFile) | LeaseText(lease: LeaseText) | OtherText

  datatype FileInfo = FileInfo(content: Content, mtime: Seconds)

  /** A run directory: its entries by name, and its own modification time. */
  datatype RunDir = RunDir(nickname: string, runId: string, files: map<string, FileInfo>, mtime: Seconds)

  datatype Config = Config(ready: Seconds, processing: Seconds, done: Seconds, failed: Seconds, orphan: Seconds)

  // ---- expiry decisions

  function StatusIn(dir: RunDir): Option<StatusFile> {
    if "status.toml" in dir.files && dir.files["status.toml"].content.StatusText?
    then Some(dir.files["status.toml"].content.status) else None
  }

  /** A readable status of this very run. */
  predicate OwnStatus(dir: RunDir) {
    StatusIn(dir).Some? && StatusIn(dir).value.WellFormed?
    && StatusIn(dir).value.status.nickname == dir.nickname && StatusIn(dir).value.status.runId == dir.runId
  }

  predicate StateBelongs(state: RunState, phase: Phase) {
    match phase
    case Done => state == StateDone || state == StatePartial
    case Failed => state == StateFailed
    case _ => false
  }

  /** `classify_terminal_status`. */
  predicate ValidTerminal(dir: RunDir, phase: Phase) {
    OwnStatus(dir) && StateBelongs(StatusIn(dir).value.status.state, phase)
  }

  function OrphanExpiry(c: Config, dir: RunDir): Seconds {
    SaturatingAdd(dir.mtime, c.orphan)
  }

  /** `expiry_for_terminal`: counted from the status file when it is valid, else from the directory. */
  function TerminalExpiry(c: Config, dir: RunDir, phase: Phase): Seconds {
    if ValidTerminal(dir, phase)
    then SaturatingAdd(dir.files["status.toml"].mtime, if phase == Done then c.done else c.failed)
    else OrphanExpiry(c, dir)
  }

  function LeaseIn(dir: RunDir): Option<LeaseFile> {
    if "lease.toml" in dir.files && dir.files["lease.toml"].content.LeaseText?
       && dir.files["lease.toml"].content.lease.ValidLease?
    then Some(dir.files["lease.toml"].content.lease.lease) else None
  }

  predicate CurrentLease(dir: RunDir) {
    LeaseIn(dir).Some? && LeaseIn(dir).value.protocol == PROTOCOL_VERSION
    && LeaseIn(dir).value.nickname == dir.nickname && LeaseIn(dir).value.runId == dir.runId
  }

  function IncomingExpiry(c: Config, dir: RunDir): Seconds {
    if CurrentLease(dir) then LeaseIn(dir).value.expires else OrphanExpiry(c, dir)
  }

  function Expiry(c: Config, dir: RunDir, phase: Phase): Seconds {
    match phase
    case Incoming => IncomingExpiry(c, dir)
    case Ready => SaturatingAdd(dir.mtime, c.ready)
    case Processing => SaturatingAdd(dir.mtime, c.processing)
    case _ => TerminalExpiry(c, dir, phase)
  }

  // ---- pruning

  predicate EndsWithTmp(name: string) {
    |name| >= 4 && name[|name| - 4..] == ".tmp"
  }

  /** What a successful run does not need any more. */
  predicate Prunable(name: string) {
    name in {"files", "work", "lease.toml", "progress.toml", "processor.lock"} || EndsWithTmp(name)
  }

  /** The directory without its prunable entries; removing anything moves its modification time. */
  function Pruned(dir: RunDir, now: Seconds): RunDir {
    var kept := map name | name in dir.files && !Prunable(name) :: dir.files[name];
    if kept == dir.files then dir else dir.(files := kept, mtime := now)
  }

  predicate WillPrune(dir: RunDir, phase: Phase) {
    phase == Done && OwnStatus(dir) && StatusIn(dir).value.status.state == StateDone
  }

  /** One pass over one run directory; a locked processing directory is left alone. */
  function Collected(c: Config, dir: RunDir, phase: Phase, locked: bool, now: Seconds): Option<RunDir> {
    if phase == Processing && locked then Some(dir)
    else if now >= Expiry(c, dir, phase) then None
    else Some(if WillPrune(dir, phase) then Pruned(dir, now) else dir)
  }

  class Collector {
    var dir: Option<RunDir>
    var now: Seconds

    constructor (d: RunDir, time: Seconds)
      ensures dir == Some(d) && now == time
    {
      dir, now := Some(d), time;
    }

    method RemoveRun()
      modifies this`dir
      ensures dir == None
    {
      dir := None;
    }

    /** Remove one entry, if it is there. */
    method RemoveEntry(name: string)
      requires dir.Some?
      modifies this`dir
      ensures dir.Some? && dir.value.files == old(dir).value.files - {name}
      ensures dir == if name in old(dir).value.files
                     then Some(old(dir).value.(files := dir.value.files, mtime := now)) else old(dir)
    {
      if name in dir.value.files {
        dir := Some(dir.value.(files := dir.value.files - {name}, mtime := now));
      } else {
        assert dir.value.files - {name} == dir.value.files;
      }
    }

    /** The entries with fixed names. */
    method RemoveNamed(names: seq<string>)
      requires dir.Some?
      modifies this`dir
      ensures dir.Some? && dir.value.files == old(dir).value.files - Names(names) && Touched(old(dir).value, dir.value, now)
    {
      ghost var was := dir.value;
      for k := 0 to |names|
        invariant dir.Some? && dir.value.files == was.files - Names(names[..k]) && Touched(was, dir.value, now)
      {
        ghost var before := dir.value;
        RemoveEntry(names[k]);
        assert Names(names[..k + 1]) == Names(names[..k]) + {names[k]};
        assert dir.value.files == was.files - Names(names[..k + 1]);
        TouchedAgain(was, before, dir.value, now);
      }
      assert names[..|names|] == names;
    }

    /** The temporary files, in whatever order the directory lists them. */
    method RemoveTemporaries()
      requires dir.Some?
      modifies this`dir
      ensures dir.Some? && Touched(old(dir).value, dir.value, now)
      ensures forall n :: n in dir.value.files <==> n in old(dir).value.files && !EndsWithTmp(n)
    {
      ghost var was := dir.value;
      var left := dir.value.files.Keys;
      while left != {}
        invariant dir.Some? && Touched(was, dir.value, now)
        invariant forall n :: n in dir.value.files <==> n in was.files && (EndsWithTmp(n) ==> n in left)
        decreases |left|
      {
        var name :| name in left;
        left := left - {name};
        if EndsWithTmp(name) {
          ghost var before := dir.value;
          RemoveEntry(name);
          TouchedAgain(was, before, dir.value, now);
        }
      }
    }

    /** `prune_success_terminal`. */
    method PruneSuccessTerminal()
      requires dir.Some?
      modifies this`dir
      ensures dir == Some(Pruned(old(dir).value, now))
    {
      ghost var was := dir.value;
      var named := ["files", "work", "lease.toml", "progress.toml", "processor.lock"];
      RemoveNamed(named);
      ghost var half := dir.value;
      assert forall n :: n in Names(named) <==> n in {"files", "work", "lease.toml", "progress.toml", "processor.lock"} by {
        assert Names(named) == {named[0], named[1], named[2], named[3], named[4]};
      }
      RemoveTemporaries();
      TouchedAgain(was, half, dir.value, now);
      assert dir.value.files == map name | name in was.files && !Prunable(name) :: was.files[name];
    }

    /** `collect_run`. */
    method CollectRun(c: Config, phase: Phase, locked: bool)
      requires dir.Some?
      modifies this`dir
      ensures dir == Collected(c, old(dir).value, phase, locked, now)
    {
      match phase {
        case Incoming =>
          if now >= IncomingExpiry(c, dir.value) { RemoveRun(); }
        case Ready =>
          if now >= SaturatingAdd(dir.value.mtime, c.ready) { RemoveRun(); }
        case Processing =>
          if !locked && now >= SaturatingAdd(dir.value.mtime, c.processing) { RemoveRun(); }
        case Failed =>
          if now >= TerminalExpiry(c, dir.value, Failed) { RemoveRun(); }
        case Done =>
          if now >= TerminalExpiry(c, dir.value, Done) {
            RemoveRun();
            return;
          }
          if OwnStatus(dir.value) && StatusIn(dir.value).value.status.state == StateDone {
            PruneSuccessTerminal();
          }
      }
    }
  }

  function Names(names: seq<string>): set<string> {
    set k | 0 <= k < |names| :: names[k]
  }

  /** Only entries went, and the modification time moved with them. */
  ghost predicate Touched(was: RunDir, dir: RunDir, now: Seconds) {
    && dir == was.(files := dir.files, mtime := dir.mtime)
    && dir.files.Keys <= was.files.Keys
    && (forall n | n in dir.files :: dir.files[n] == was.files[n])
    && dir.mtime == if dir.files == was.files then was.mtime else now
  }

  lemma TouchedAgain(was: RunDir, between: RunDir, dir: RunDir, now: Seconds)
    requires Touched(was, between, now) && Touched(between, dir, now)
    ensures Touched(was, dir, now)
  {
    if dir.files == was.files {
      assert between.files.Keys == was.files.Keys;
      assert between.files == was.files;
    }
  }

  // ---- over any number of passes

  /** When a pass comes by, and whether somebody then holds the run's lock. */
  datatype Visit = Visit(at: Seconds, locked: bool)

  /** Passes as long as the directory is there. */
  function AfterPasses(c: Config, dir: RunDir, phase: Phase, visits: seq<Visit>): Option<RunDir>
    decreases |visits|
  {
    if visits == [] then Some(dir)
    else
      var before, last := AfterPasses(c, dir, phase, visits[..|visits| - 1]), visits[|visits| - 1];
      if before.None? then None else Collected(c, before.value, phase, last.locked, last.at)
  }

  /** A pass that leaves the directory: its lock is held while it is processed, or it has not expired. */
  predicate Spared(c: Config, dir: RunDir, phase: Phase, visit: Visit) {
    (phase == Processing && visit.locked) || visit.at < Expiry(c, dir, phase)
  }

  predicate InOrder(visits: seq<Visit>) {
    forall i, j | 0 <= i <= j < |visits| :: visits[i].at <= visits[j].at
  }

  /** Pruning keeps whatever tells how the run ended and what it was: status, configuration, manifest, plan. */
  lemma PruningKeepsRecords(dir: RunDir, now: Seconds, name: string)
    ensures name in Pruned(dir, now).files <==> name in dir.files && !Prunable(name)
    ensures name in Pruned(dir, now).files ==> Pruned(dir, now).files[name] == dir.files[name]
    ensures name in {"status.toml", "run.toml", "manifest.toml", "destination-plan.toml"} ==> !Prunable(name)
  {
    var kept := map n | n in dir.files && !Prunable(n) :: dir.files[n];
    assert name in kept <==> name in dir.files && !Prunable(name);
    assert "status.toml"[7..] == "toml" && "run.toml"[4..] == "toml" && "manifest.toml"[9..] == "toml" && "destination-plan.toml"[17..] == "toml";
  }

  lemma PruningKeepsExpiry(c: Config, dir: RunDir, now: Seconds)
    requires ValidTerminal(dir, Done)
    ensures ValidTerminal(Pruned(dir, now), Done) && Expiry(c, Pruned(dir, now), Done) == Expiry(c, dir, Done)
  {
    PruningKeepsRecords(dir, now, "status.toml");
  }

  /** The same identity and the same expiry. */
  ghost predicate SameClock(c: Config, phase: Phase, a: RunDir, b: RunDir) {
    Expiry(c, a, phase) == Expiry(c, b, phase) && ValidTerminal(a, phase) == ValidTerminal(b, phase)
  }

  lemma CollectingKeepsClock(c: Config, dir: RunDir, phase: Phase, visit: Visit)
    ensures var r := Collected(c, dir, phase, visit.locked, visit.at);
      && (r.Some? <==> Spared(c, dir, phase, visit))
      && (r.Some? ==> SameClock(c, phase, r.value, dir))
  {
    if WillPrune(dir, phase) { PruningKeepsExpiry(c, dir, visit.at); }
  }

  /** However many passes, at whatever times: the directory is still there exactly when every pass came
      before the expiry it had at first or met a held processing lock, and pruning in between has not moved
      that expiry. */
  lemma {:induction false} SurvivesExactlyUntilExpiry(c: Config, dir: RunDir, phase: Phase, visits: seq<Visit>)
    ensures var r := AfterPasses(c, dir, phase, visits);
      && (r.Some? <==> forall k | 0 <= k < |visits| :: Spared(c, dir, phase, visits[k]))
      && (r.Some? ==> SameClock(c, phase, r.value, dir))
    decreases |visits|
  {
    if visits != [] {
      var init := visits[..|visits| - 1];
      SurvivesExactlyUntilExpiry(c, dir, phase, init);
      assert forall k | 0 <= k < |init| :: init[k] == visits[k];
      var before := AfterPasses(c, dir, phase, init);
      if before.Some? { CollectingKeepsClock(c, before.value, phase, visits[|visits| - 1]); }
    }
  }

  /** A validly finished run in done/ survives passes at non-decreasing times exactly until the saturating
      sum of its status's modification time and the retention. */
  lemma DoneRetention(c: Config, dir: RunDir, visits: seq<Visit>)
    requires ValidTerminal(dir, Done) && visits != [] && InOrder(visits)
    ensures AfterPasses(c, dir, Done, visits).Some? <==>
      visits[|visits| - 1].at < SaturatingAdd(dir.files["status.toml"].mtime, c.done)
  {
    SurvivesExactlyUntilExpiry(c, dir, Done, visits);
  }

  /** An incoming run with a current lease survives exactly until the lease runs out. */
  lemma LeaseRetention(c: Config, dir: RunDir, visits: seq<Visit>)
    requires CurrentLease(dir) && visits != [] && InOrder(visits)
    ensures AfterPasses(c, dir, Incoming, visits).Some? <==> visits[|visits| - 1].at < LeaseIn(dir).value.expires
    ensures AfterPasses(c, dir, Incoming, visits).Some? ==> AfterPasses(c, dir, Incoming, visits).value == dir
  {
    SurvivesExactlyUntilExpiry(c, dir, Incoming, visits);
    UnprunedStays(c, dir, Incoming, visits);
  }

  /** Outside done/ a pass changes nothing in a directory that it leaves. */
  lemma {:induction false} UnprunedStays(c: Config, dir: RunDir, phase: Phase, visits: seq<Visit>)
    requires phase != Done
    ensures var r := AfterPasses(c, dir, phase, visits); r.Some? ==> r.value == dir
    decreases |visits|
  {
    if visits != [] { UnprunedStays(c, dir, phase, visits[..|visits| - 1]); }
  }
}

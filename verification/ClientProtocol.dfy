/** Everything one client keeps in its state directory, and its small steps: resuming cleanups,
    draining persisted runs, and a fresh sync, with a crash possible after any of them. */
module ClientProtocol {
  import opened Records
  import opened SourceFiles
  import opened Cleanup
  import opened CleanupCrash
  import opened CleanupCapture
  import RunFiles

  /** An operation: the nickname and run id that name its files. */
  datatype Op = Op(nickname: string, runId: string)

  datatype RunPhase = UploadCompleteFinishPending | WaitingForTerminalState | TerminalStatusSeen | CleanupComplete

  /** A persisted run state file. */
  datatype RunRecord = RunRecord(phase: RunPhase, status: Option<RunStatus>)

  /** What follows a run: the end of a fresh sync, or the next persisted run. */
  datatype Then = Exit | NextRun(todo: set<Op>, failed: bool)

  /** On whose behalf a ledger is worked through. */
  datatype Mode =
    | Scan(todo: set<Op>)   // resuming pending cleanups
    | Direct                // a direct sync has been confirmed
    | Inline(next: Then)    // a terminal status has been confirmed
    | Local(next: Then)     // resuming a run that is already CleanupComplete

  datatype RunStep =
    | Finishing
    | Waiting
    | Reread
    | Confirming(st: RunStatus)
    | PersistingComplete(complete: bool)
    | Retiring(complete: bool)
    | RemovingRun
    | MissingLedger
    | WrongEnvelope

  datatype FreshStep = Staging | DirectSync | DirectConfirm

  datatype Pc =
    | Idle
    | Scanning(todo: set<Op>)
    | Draining(todo: set<Op>, failed: bool)
    | Starting
    | Fresh(op: Op, stage: FreshStep)
    | AtRun(op: Op, step: RunStep, next: Then)
    | Cleaning(op: Op, k: nat, torn: bool, mode: Mode)

  /** A fresh operation as it was captured: the ledger, the directory part of its operand, which every local
      path in the ledger starts with, and where that led; and what its manifest names. */
  datatype Capture = Capture(entries: Ledger, parent: Path, base: Base, source: RunFiles.ManifestEntry)

  /** Files on disk, where the client was launched and stands, and a history of what was captured, synced
      and answered. */
  datatype Client = Client(
    fs: Files,
    cwd: Path,
    ledgers: map<Op, Ledger>,
    runs: map<Op, RunRecord>,
    pc: Pc,
    captured: map<Op, Capture>,
    synced: set<Op>,
    told: set<RunStatus>)

  /** What the surroundings decide during one step: did the remote call or rsync succeed, what status was
      read, which file comes next, and what a fresh sync captures. */
  datatype Choice = Choice(good: bool, answer: Option<RunStatus>, op: Op, direct: bool, entries: Ledger, parent: Path, source: RunFiles.ManifestEntry)

  datatype Event =
    | Launch(cwd: Path)
    | Act(choice: Choice)
    | Crash
    | Edit(fs: Files)

  function Init(fs: Files): Client {
    Client(fs, [], map[], map[], Idle, map[], {}, {})
  }

  predicate Envelope(st: RunStatus, op: Op) {
    st.nickname == op.nickname && st.runId == op.runId
  }

  predicate AllCleaned(ledger: Ledger) {
    forall i | 0 <= i < |ledger| :: ledger[i].cleaned
  }

  /** The directory that an operation's operand leads to now, from where the client was launched. */
  function BaseNow(s: Client, op: Op): Base {
    if op in s.captured then BaseOf(s.fs, s.cwd, s.captured[op].parent) else Gone
  }

  /** One operation's ledger and tree, as the client finds them now. */
  function WorkOn(s: Client, op: Op): Work
    requires op in s.ledgers
  {
    Work(s.fs, BaseNow(s, op), s.ledgers[op])
  }

  function Resume(next: Then, op: Op, ok: bool): Pc {
    match next
    case Exit => Idle
    case NextRun(todo, failed) => Draining(todo - {op}, failed || !ok)
  }

  // ---- single steps

  /** Only an unconfirmed ledger of a new operation is ever written first. */
  predicate CanStart(s: Client, c: Choice) {
    c.op !in s.captured
    && forall i | 0 <= i < |c.entries| ::
         !c.entries[i].confirmed && !c.entries[i].cleaned && c.entries[i].localPath != [] && PlainPath(c.entries[i].localPath)
  }

  function ActStarting(s: Client, c: Choice): Client {
    if !CanStart(s, c) then s.(pc := Idle)
    else s.(captured := s.captured[c.op := Capture(c.entries, c.parent, BaseOf(s.fs, s.cwd, c.parent), c.source)],
            ledgers := s.ledgers[c.op := c.entries],
            pc := Fresh(c.op, if c.direct then DirectSync else Staging))
  }

  function ActFresh(s: Client, c: Choice, op: Op, stage: FreshStep): Client {
    if stage != DirectConfirm && !c.good then s.(pc := Idle)
    else match stage
      case Staging => s.(runs := s.runs[op := RunRecord(UploadCompleteFinishPending, None)], pc := AtRun(op, Finishing, Exit))
      case DirectSync => s.(synced := s.synced + {op}, pc := Fresh(op, DirectConfirm))
      case DirectConfirm =>
        if op !in s.ledgers then s.(pc := Idle)
        else s.(ledgers := s.ledgers[op := AllConfirmed(s.ledgers[op])], pc := Cleaning(op, 0, false, Direct))
  }

  /** `resume_pending_cleanups`: ledger files in any order. */
  function ActScanning(s: Client, c: Choice, todo: set<Op>): Client {
    if todo == {} then s.(pc := Draining(s.runs.Keys, false))
    else if c.op !in todo then s
    else if c.op !in s.ledgers then s.(pc := Scanning(todo - {c.op}))
    else s.(pc := Cleaning(c.op, 0, false, Scan(todo - {c.op})))
  }

  /** `resume_runs`: run state files in any order; a fresh sync only when all of them resolved. */
  function ActDraining(s: Client, c: Choice, todo: set<Op>, failed: bool): Client {
    if todo == {} then s.(pc := if failed then Idle else Starting)
    else if c.op !in todo then s
    else if c.op !in s.runs then s.(pc := Draining(todo - {c.op}, failed))
    else s.(pc := DrainOne(s, c, c.op, s.runs[c.op], NextRun(todo, failed)))
  }

  /** `drain_one` up to its first phase. */
  function DrainOne(s: Client, c: Choice, op: Op, record: RunRecord, next: Then): Pc {
    if record.phase == CleanupComplete then
      if op in s.ledgers then Cleaning(op, 0, false, Local(next)) else AtRun(op, RemovingRun, next)
    else if !c.good then Resume(next, op, false)
    else match record.phase
      case UploadCompleteFinishPending => AtRun(op, Finishing, next)
      case WaitingForTerminalState => AtRun(op, Waiting, next)
      case _ =>
        match record.status
        case None => AtRun(op, Reread, next)
        case Some(st) => AtRun(op, if Envelope(st, op) then Confirming(st) else WrongEnvelope, next)
  }

  function ActRun(s: Client, c: Choice, op: Op, step: RunStep, next: Then): Client {
    match step
    case Finishing =>
      if !c.good then s.(pc := Resume(next, op, false))
      else s.(runs := s.runs[op := RunRecord(WaitingForTerminalState, None)], pc := AtRun(op, Waiting, next))
    case Waiting =>
      if c.answer.None? || !Envelope(c.answer.value, op) then s.(pc := Resume(next, op, false))
      else s.(told := s.told + {c.answer.value},
              runs := s.runs[op := RunRecord(TerminalStatusSeen, c.answer)],
              pc := AtRun(op, Confirming(c.answer.value), next))
    case Reread =>
      if c.answer.None? then s.(pc := Resume(next, op, false))
      else s.(told := s.told + {c.answer.value}, pc := AtRun(op, Confirming(c.answer.value), next))
    case Confirming(st) =>
      if op !in s.ledgers then s.(pc := AtRun(op, MissingLedger, next))
      else s.(ledgers := s.ledgers[op := ConfirmFromStatus(s.ledgers[op], st)], pc := Cleaning(op, 0, false, Inline(next)))
    case PersistingComplete(complete) =>
      s.(runs := s.runs[op := RunRecord(CleanupComplete, None)], pc := AtRun(op, Retiring(complete), next))
    case Retiring(complete) =>
      s.(ledgers := if complete then s.ledgers - {op} else s.ledgers, pc := AtRun(op, RemovingRun, next))
    case RemovingRun =>
      s.(runs := s.runs - {op}, pc := Resume(next, op, c.good))
    case MissingLedger => s.(pc := Resume(next, op, false))
    case WrongEnvelope => s.(pc := Resume(next, op, false))
  }

  /** One iteration of `process_cleanup_state_file`: the deletion, and then the ledger write. */
  function ActCleaning(s: Client, op: Op, k: nat, torn: bool, mode: Mode): Client {
    if op !in s.ledgers then s.(pc := Idle)
    else if k >= 2 * |s.ledgers[op]| then Finished(s, op, mode)
    else if torn then
      s.(ledgers := s.ledgers[op := Mark(s.ledgers[op], IndexOf(|s.ledgers[op]|, k))], pc := Cleaning(op, k + 1, false, mode))
    else
      var w := WorkOn(s, op);
      if Cleans(w, k) then s.(fs := Torn(w, k).fs, pc := Cleaning(op, k, true, mode))
      else s.(pc := Cleaning(op, k + 1, false, mode))
  }

  /** The pass is over; a completed ledger is retired at once, unless a run state still needs it. */
  function Finished(s: Client, op: Op, mode: Mode): Client
    requires op in s.ledgers
  {
    var complete := AllCleaned(s.ledgers[op]);
    match mode
    case Scan(todo) => s.(ledgers := if complete && op !in s.runs then s.ledgers - {op} else s.ledgers, pc := Scanning(todo))
    case Direct => s.(ledgers := if complete then s.ledgers - {op} else s.ledgers, pc := Idle)
    case Inline(next) => s.(pc := AtRun(op, PersistingComplete(complete), next))
    case Local(next) => s.(pc := AtRun(op, Retiring(complete), next))
  }

  function Advance(s: Client, c: Choice): Client {
    match s.pc
    case Idle => s
    case Scanning(todo) => ActScanning(s, c, todo)
    case Draining(todo, failed) => ActDraining(s, c, todo, failed)
    case Starting => ActStarting(s, c)
    case Fresh(op, stage) => ActFresh(s, c, op, stage)
    case AtRun(op, step, next) => ActRun(s, c, op, step, next)
    case Cleaning(op, k, torn, mode) => ActCleaning(s, op, k, torn, mode)
  }

  function Step(s: Client, e: Event): Client {
    match e
    case Launch(cwd) => if s.pc.Idle? then s.(cwd := cwd, pc := Scanning(s.ledgers.Keys)) else s
    case Act(c) => Advance(s, c)
    case Crash => s.(pc := Idle)
    case Edit(fs) => s.(fs := fs)
  }

  function After(fs: Files, events: seq<Event>): Client
    decreases |events|
  {
    if events == [] then Init(fs) else Step(After(fs, events[..|events| - 1]), events[|events| - 1])
  }

  lemma OneMore(fs: Files, events: seq<Event>, e: Event)
    ensures After(fs, events + [e]) == Step(After(fs, events), e)
  {
    assert (events + [e])[..|events|] == events;
  }
}

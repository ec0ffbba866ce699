/** How the client supervises its remote worker: the polling loop against an environment that may answer
    anything, and what its log of polls, spawns and exits can look like. */
module Supervision {
  import opened Records

  datatype RunStateResponse = RunStateResponse(
    phase: string,
    terminal: bool,
    processorState: Option<string>,
    progressState: Option<string>,
    entryIndex: Option<nat>,
    entryTotal: Option<nat>,
    updatedAt: nat,
    observedAt: nat)

  // ---- no-progress detection

  /** What counts as the same observation: everything except when it was made. */
  datatype ProgressSnapshot = ProgressSnapshot(
    phase: string,
    terminal: bool,
    processorState: Option<string>,
    progressState: Option<string>,
    entryIndex: Option<nat>,
    entryTotal: Option<nat>,
    updatedAt: nat)

  function Snapshot(s: RunStateResponse): ProgressSnapshot {
    ProgressSnapshot(s.phase, s.terminal, s.processorState, s.progressState, s.entryIndex, s.entryTotal, s.updatedAt)
  }

  const MAX_NO_PROGRESS_COUNT: nat := 3

  /** How many observations at the end of the history are the same. */
  function Repeats(history: seq<ProgressSnapshot>): nat {
    if |history| < 2 then |history|
    else if history[|history| - 1] == history[|history| - 2] then 1 + Repeats(history[..|history| - 1])
    else 1
  }

  /** Repeats is what it says: that many equal observations at the end, and no more. */
  lemma {:induction false} RepeatsIsTheEqualSuffix(history: seq<ProgressSnapshot>, n: nat)
    requires 0 < n <= |history|
    ensures n <= Repeats(history) <==> forall i | |history| - n <= i < |history| :: history[i] == history[|history| - 1]
    decreases |history|
  {
    if |history| >= 2 && n >= 2 {
      var init := history[..|history| - 1];
      RepeatsIsTheEqualSuffix(init, n - 1);
      assert history[|history| - 2] == init[|init| - 1];
      assert forall i | |init| - (n - 1) <= i < |init| :: history[i] == init[i];
    } else if |history| >= 2 {
      RepeatsIsTheEqualSuffix(history[..|history| - 1], 1);
    }
  }

  class NoProgressTracker {
    var count: nat
    var lastSnapshot: Option<ProgressSnapshot>
    ghost var history: seq<ProgressSnapshot>

    ghost predicate Valid()
      reads this
    {
      if history == [] then count == 0 && lastSnapshot == None
      else count + 1 == Repeats(history) && lastSnapshot == Some(history[|history| - 1])
    }

    constructor ()
      ensures Valid() && history == []
    {
      count, lastSnapshot, history := 0, None, [];
    }

    /** True while fewer than four equal observations have been made in a row. */
    method Advance(state: RunStateResponse) returns (progress: bool)
      requires Valid()
      modifies this
      ensures Valid() && history == old(history) + [Snapshot(state)]
      ensures progress <==> Repeats(history) <= MAX_NO_PROGRESS_COUNT
    {
      var snap := Snapshot(state);
      ghost var before := history;
      history := history + [snap];
      assert history[..|history| - 1] == before;
      if lastSnapshot == Some(snap) {
        count := count + 1;
        progress := count < MAX_NO_PROGRESS_COUNT;
      } else {
        count := 0;
        lastSnapshot := Some(snap);
        progress := true;
      }
    }
  }

  // ---- the environment of one round of the loop

  datatype ProcessRunOutcome = Processed | AlreadyTerminal | AlreadyActive | ClaimInProgress

  /** How a worker ended; a response that does not parse or names another run is None. */
  datatype WorkerExit = Success(response: Option<ProcessRunOutcome>) | RemoteFailure | TransportFailure | Killed

  /** One look at the child.  When waitpid itself fails, the handle reports a transport failure, and nothing
      more is known of the child. */
  datatype WaitAnswer = StillRunning | Exited(exit: WorkerExit) | WaitpidError | CheckFailed

  /** Answers for one round: the poll, the look at the worker, the second poll, the spawn, the wait during
      the grace period, and whether the final wait after a kill reaps the child. */
  datatype Round = Round(
    poll: Option<RunStateResponse>,
    wait: WaitAnswer,
    second: Option<RunStateResponse>,
    spawned: bool,
    grace: WaitAnswer,
    reaped: bool)

  datatype ProcessorObservation = Active | Idle | Unknown | Missing

  function Processor(s: RunStateResponse): ProcessorObservation {
    match s.processorState
    case Some(p) => if p == "active" then Active else if p == "idle" then Idle else Unknown
    case None => Missing
  }

  predicate ProcessingActive(s: RunStateResponse) {
    s.phase == "processing" && Processor(s) == Active
  }

  /** The answers on which a worker may be started. */
  predicate Startable(s: RunStateResponse) {
    !s.terminal && (s.phase == "ready" || (s.phase == "processing" && Processor(s) == Idle))
  }

  datatype Why =
    | PollFailed | BadResponse | NotTerminal | NotActive | NoProgress | RemoteError | WasKilled | WaitFailed
    | UnclearOwner | RunNotFound | UnexpectedPhase | SpawnFailed

  datatype Result = Ok(state: RunStateResponse) | Failed(why: Why) | StillWaiting

  // ---- the log, and what it must look like

  type WorkerId = nat

  datatype Action = Polled(state: RunStateResponse) | Spawned(id: WorkerId) | Gone(id: WorkerId) | Lost(id: WorkerId)

  /** Workers spawned that are not known to be gone. */
  function NotGone(log: seq<Action>): set<WorkerId> {
    if log == [] then {}
    else
      var rest := NotGone(log[..|log| - 1]);
      match log[|log| - 1]
      case Spawned(id) => rest + {id}
      case Gone(id) => rest - {id}
      case _ => rest
  }

  /** Workers given up after waitpid failed on them. */
  function LostOnes(log: seq<Action>): set<WorkerId> {
    if log == [] then {}
    else
      var rest := LostOnes(log[..|log| - 1]);
      if log[|log| - 1].Lost? then rest + {log[|log| - 1].id} else rest
  }

  function LastAnswer(log: seq<Action>): Option<RunStateResponse> {
    if log == [] then None
    else if log[|log| - 1].Polled? then Some(log[|log| - 1].state)
    else LastAnswer(log[..|log| - 1])
  }

  predicate EndsWithAnswer(log: seq<Action>) {
    log != [] && log[|log| - 1].Polled?
  }

  /** A terminal answer, unless it also says that the run is being processed. */
  predicate Final(s: RunStateResponse) {
    s.terminal && !ProcessingActive(s)
  }

  /** May this be the next thing that happens?  A worker is started only when no other is left to wait for,
      right after an answer that allows it; nothing is asked or started after a terminal answer. */
  predicate MayFollow(log: seq<Action>, a: Action) {
    match a
    case Polled(_) => LastAnswer(log).Some? ==> !Final(LastAnswer(log).value)
    case Spawned(id) =>
      && EndsWithAnswer(log) && Startable(log[|log| - 1].state)
      && NotGone(log) <= LostOnes(log) && id !in NotGone(log)
    case Gone(id) => id in NotGone(log) && id !in LostOnes(log)
    case Lost(id) => id in NotGone(log) && id !in LostOnes(log)
  }

  predicate Disciplined(log: seq<Action>) {
    log == [] || (Disciplined(log[..|log| - 1]) && MayFollow(log[..|log| - 1], log[|log| - 1]))
  }

  // ---- the loop

  /** A worker reported that somebody else is claiming a run that is still ready. */
  predicate Claims(response: Option<ProcessRunOutcome>, second: Option<RunStateResponse>) {
    response == Some(ClaimInProgress) && second.Some? && !second.value.terminal && second.value.phase == "ready"
  }

  /** The tracker notes exactly those second polls. */
  function Noted(history: seq<ProgressSnapshot>, exit: WorkerExit, second: Option<RunStateResponse>): seq<ProgressSnapshot> {
    if exit.Success? && Claims(exit.response, second) then history + [Snapshot(second.value)] else history
  }

  /** The reasons for giving up after a worker ended. */
  predicate ExitFails(exit: WorkerExit, second: Option<RunStateResponse>, why: Why) {
    match why
    case PollFailed => exit != RemoteFailure && exit != Killed && second.None?
    case BadResponse => exit == Success(None)
    case NotTerminal => (exit == Success(Some(Processed)) || exit == Success(Some(AlreadyTerminal))) && second.Some? && !second.value.terminal
    case NotActive => exit == Success(Some(AlreadyActive)) && second.Some? && !ProcessingActive(second.value)
    case NoProgress => exit.Success? && Claims(exit.response, second)
    case RemoteError =>
      exit == RemoteFailure
      && (second.Some? ==> !second.value.terminal && (second.value.phase == "ready" || Processor(second.value) != Active))
    case WasKilled => exit == Killed
    case _ => false
  }

  /** The reasons for giving up in one round. */
  predicate RoundFails(hadWorker: bool, a: Round, last: Option<RunStateResponse>, why: Why) {
    match why
    case PollFailed => (a.poll.None? && !hadWorker) || (hadWorker && Ended(a.wait).Some? && ExitFails(Ended(a.wait).value, a.second, why))
    case WaitFailed => hadWorker && a.wait == CheckFailed
    case SpawnFailed => !a.spawned && last.Some? && Startable(last.value)
    case UnclearOwner => last.Some? && last.value.phase == "processing" && Processor(last.value) in {Unknown, Missing}
    case RunNotFound => last.Some? && last.value.phase == "not_found"
    case UnexpectedPhase => last.Some? && last.value.phase !in {"ready", "processing", "not_found"}
    case _ => hadWorker && Ended(a.wait).Some? && ExitFails(Ended(a.wait).value, a.second, why)
  }

  /** How the handle reports the look at the child: a failed waitpid reads as a transport failure. */
  function Ended(w: WaitAnswer): Option<WorkerExit> {
    match w
    case Exited(exit) => Some(exit)
    case WaitpidError => Some(TransportFailure)
    case _ => None
  }

  /** The tracker's history only grows, and four equal claims in a row are the end. */
  predicate HistoryGrew(before: seq<ProgressSnapshot>, after: seq<ProgressSnapshot>, r: Result) {
    && before <= after
    && (r == Failed(NoProgress) ==> Repeats(after) > MAX_NO_PROGRESS_COUNT)
    && (r != Failed(NoProgress) ==> after == before || Repeats(after) <= MAX_NO_PROGRESS_COUNT)
  }

  /** Whatever is newly recorded as answered is one of these answers. */
  ghost predicate AnswersAre(before: seq<Action>, after: seq<Action>, answers: set<Option<RunStateResponse>>) {
    forall x | x in after && x.Polled? :: x in before || Some(x.state) in answers
  }

  /** Some round of the environment gave this answer. */
  predicate Answered(rounds: seq<Round>, s: RunStateResponse) {
    exists a | a in rounds :: a.poll == Some(s) || a.second == Some(s)
  }

  lemma AnsweredStays(rounds: seq<Round>, n: nat)
    requires n <= |rounds|
    ensures forall s | Answered(rounds[..n], s) :: Answered(rounds, s)
  {
    assert forall a | a in rounds[..n] :: a in rounds;
  }

  // ---- one turn of the loop, without workers' names and without a log

  /** Is a worker held, which answer does the loop go on with, what has the tracker seen, how did it end? */
  datatype Loop = Loop(held: bool, state: RunStateResponse, history: seq<ProgressSnapshot>, result: Result)

  /** What the end of a worker means, after the second poll. */
  function AfterExit(exit: WorkerExit, second: Option<RunStateResponse>, history: seq<ProgressSnapshot>): Result {
    match exit
    case Success(response) =>
      if response.None? then Failed(BadResponse)
      else if second.None? then Failed(PollFailed)
      else (match response.value
        case AlreadyActive => if ProcessingActive(second.value) then StillWaiting else Failed(NotActive)
        case ClaimInProgress =>
          if second.value.terminal then Ok(second.value)
          else if Claims(response, second) && !ProcessingActive(second.value) && Repeats(history) > MAX_NO_PROGRESS_COUNT
          then Failed(NoProgress) else StillWaiting
        case _ => if second.value.terminal then Ok(second.value) else Failed(NotTerminal))
    case TransportFailure =>
      if second.None? then Failed(PollFailed) else if second.value.terminal then Ok(second.value) else StillWaiting
    case RemoteFailure =>
      if second.None? then Failed(RemoteError)
      else if second.value.terminal then Ok(second.value)
      else if second.value.phase == "ready" || Processor(second.value) != Active then Failed(RemoteError)
      else StillWaiting
    case Killed => Failed(WasKilled)
  }

  /** What each result of it tells of the worker's end and of the second poll. */
  lemma AfterExitMeans(exit: WorkerExit, second: Option<RunStateResponse>, history: seq<ProgressSnapshot>)
    ensures var r := AfterExit(exit, second, history);
      && (r.Ok? ==> second == Some(r.state) && r.state.terminal && exit != Success(Some(AlreadyActive)))
      && (r == StillWaiting ==> second.Some? && !Final(second.value))
      && (r == StillWaiting && exit.Success? ==> exit.response in {Some(AlreadyActive), Some(ClaimInProgress)})
      && (r == StillWaiting && exit == Success(Some(AlreadyActive)) ==> ProcessingActive(second.value))
      && (r.Failed? ==> ExitFails(exit, second, r.why))
      && (r == Failed(NoProgress) <==> exit.Success? && Claims(exit.response, second) && Repeats(history) > MAX_NO_PROGRESS_COUNT)
  {
  }

  function LookTurn(l: Loop, a: Round): Loop {
    if !l.held then l
    else if a.wait == CheckFailed then l.(held := false, result := Failed(WaitFailed))
    else if Ended(a.wait).None? then l
    else
      var history := Noted(l.history, Ended(a.wait).value, a.second);
      Loop(false, if a.second.Some? then a.second.value else l.state, history, AfterExit(Ended(a.wait).value, a.second, history))
  }

  function DecideTurn(l: Loop, a: Round): Loop {
    if l.state.phase == "ready" || (l.state.phase == "processing" && Processor(l.state) == Idle) then
      if l.held then l else if a.spawned then l.(held := true) else l.(result := Failed(SpawnFailed))
    else if l.state.phase == "processing" then
      if Processor(l.state) == Active || l.held then l else l.(result := Failed(UnclearOwner))
    else l.(held := false, result := Failed(if l.state.phase == "not_found" then RunNotFound else UnexpectedPhase))
  }

  function RestTurn(l: Loop, a: Round): Loop {
    var looked := LookTurn(l, a);
    if looked.result != StillWaiting then looked else DecideTurn(looked, a)
  }

  function Turn(l: Loop, a: Round): Loop {
    if l.result != StillWaiting then l
    else if a.poll.None? && !l.held then l.(result := Failed(PollFailed))
    else
      var polled := if a.poll.Some? then l.(state := a.poll.value) else l;
      if polled.state.terminal then polled.(held := false, result := Ok(polled.state)) else RestTurn(polled, a)
  }

  /** Only the fourth equal claim in a row ends the loop for lack of progress. */
  lemma TurnKeepsCount(l: Loop, a: Round)
    requires l.result == StillWaiting
    ensures HistoryGrew(l.history, Turn(l, a).history, Turn(l, a).result)
  {
    var polled := if a.poll.Some? then l.(state := a.poll.value) else l;
    LookKeepsCount(polled, a);
    if LookTurn(polled, a).result == StillWaiting {
      DecideKeepsHistory(LookTurn(polled, a), a);
    }
  }

  lemma LookKeepsCount(l: Loop, a: Round)
    requires l.result == StillWaiting
    ensures HistoryGrew(l.history, LookTurn(l, a).history, LookTurn(l, a).result)
  {
    if l.held && a.wait != CheckFailed && Ended(a.wait).Some? {
      var exit := Ended(a.wait).value;
      ExitKeepsCount(exit, a.second, l.history);
    }
  }

  lemma ExitKeepsCount(exit: WorkerExit, second: Option<RunStateResponse>, history: seq<ProgressSnapshot>)
    ensures var after := Noted(history, exit, second); HistoryGrew(history, after, AfterExit(exit, second, after))
  {
    AfterExitMeans(exit, second, Noted(history, exit, second));
  }

  lemma DecideKeepsHistory(l: Loop, a: Round)
    requires l.result == StillWaiting
    ensures DecideTurn(l, a).history == l.history && DecideTurn(l, a).result != Failed(NoProgress)
  {
  }

  /** The loop after these rounds. */
  function Turns(dummy: RunStateResponse, rounds: seq<Round>): Loop
    decreases |rounds|
  {
    if rounds == [] then Loop(false, dummy, [], StillWaiting)
    else Turn(Turns(dummy, rounds[..|rounds| - 1]), rounds[|rounds| - 1])
  }

  /** Lack of progress ends the loop exactly when the last four claims noted were equal. */
  lemma {:induction false} GivesUpOnTheFourth(dummy: RunStateResponse, rounds: seq<Round>)
    ensures Turns(dummy, rounds).result == Failed(NoProgress) <==> Repeats(Turns(dummy, rounds).history) > MAX_NO_PROGRESS_COUNT
    decreases |rounds|
  {
    if rounds != [] {
      var init := rounds[..|rounds| - 1];
      GivesUpOnTheFourth(dummy, init);
      if Turns(dummy, init).result == StillWaiting {
        TurnKeepsCount(Turns(dummy, init), rounds[|rounds| - 1]);
      }
    }
  }

  // ---- when waitpid is asked and fails

  predicate GraceLoses(a: Round) {
    a.grace == WaitpidError || (!a.grace.Exited? && !a.reaped)
  }

  predicate LookLoses(a: Round) {
    a.wait == WaitpidError || (a.wait == CheckFailed && !a.reaped)
  }

  predicate DecideLoses(state: RunStateResponse, a: Round) {
    state.phase !in {"ready", "processing"} && !a.reaped
  }

  predicate RestLoses(state: RunStateResponse, a: Round) {
    LookLoses(a) || (a.wait == StillRunning && DecideLoses(state, a))
  }

  /** In this round a worker is held, and a waitpid on it that is asked for fails. */
  predicate Loses(l: Loop, a: Round) {
    && l.result == StillWaiting && l.held
    && var state := if a.poll.Some? then a.poll.value else l.state;
       if state.terminal then GraceLoses(a) else RestLoses(state, a)
  }

  predicate LosesAt(dummy: RunStateResponse, rounds: seq<Round>, k: nat)
    requires k < |rounds|
  {
    Loses(Turns(dummy, rounds[..k]), rounds[k])
  }

  /** The same, round after round. */
  predicate SomeLoss(dummy: RunStateResponse, rounds: seq<Round>)
    decreases |rounds|
  {
    && rounds != []
    && var init := rounds[..|rounds| - 1];
       SomeLoss(dummy, init) || Loses(Turns(dummy, init), rounds[|rounds| - 1])
  }

  lemma LosesAtOfPrefix(dummy: RunStateResponse, rounds: seq<Round>, n: nat, k: nat)
    requires k < n <= |rounds|
    ensures LosesAt(dummy, rounds[..n], k) == LosesAt(dummy, rounds, k)
  {
    assert rounds[..n][..k] == rounds[..k] && rounds[..n][k] == rounds[k];
  }

  lemma {:induction false} SomeLossIs(dummy: RunStateResponse, rounds: seq<Round>)
    ensures SomeLoss(dummy, rounds) <==> exists k: nat | k < |rounds| :: LosesAt(dummy, rounds, k)
    decreases |rounds|
  {
    if rounds != [] {
      var n := |rounds| - 1;
      SomeLossIs(dummy, rounds[..n]);
      forall k: nat | k < n ensures LosesAt(dummy, rounds, k) == LosesAt(dummy, rounds[..n], k) {
        LosesAtOfPrefix(dummy, rounds, n, k);
      }
      assert SomeLoss(dummy, rounds) == (SomeLoss(dummy, rounds[..n]) || LosesAt(dummy, rounds, n));
      if SomeLoss(dummy, rounds[..n]) {
        var k: nat :| k < n && LosesAt(dummy, rounds[..n], k);
        assert LosesAt(dummy, rounds, k);
      }
    }
  }

  /** Rounds after the end change nothing. */
  lemma {:induction false} EndedForGood(dummy: RunStateResponse, rounds: seq<Round>, k: nat)
    requires k <= |rounds| && Turns(dummy, rounds[..k]).result != StillWaiting
    ensures Turns(dummy, rounds) == Turns(dummy, rounds[..k])
    ensures SomeLoss(dummy, rounds) == SomeLoss(dummy, rounds[..k])
    decreases |rounds|
  {
    if k < |rounds| {
      assert rounds[..|rounds| - 1][..k] == rounds[..k];
      EndedForGood(dummy, rounds[..|rounds| - 1], k);
    } else {
      assert rounds[..k] == rounds;
    }
  }

  class Supervisor {
    var worker: Option<WorkerId>
    var nextId: WorkerId
    var tracker: NoProgressTracker
    ghost var log: seq<Action>

    ghost predicate Valid()
      reads this, tracker
    {
      && tracker.Valid()
      && Disciplined(log)
      && (forall i | i in NotGone(log) :: i < nextId)
      && LostOnes(log) <= NotGone(log)
      && NotGone(log) - LostOnes(log) == (if worker.Some? then {worker.value} else {})
    }

    /** The worker that was held is lost exactly when waitpid failed on it, and nobody else. */
    ghost predicate LossesAre(before: set<WorkerId>, held: Option<WorkerId>, waitpidFailed: bool)
      reads this
    {
      LostOnes(log) == before + (if held.Some? && waitpidFailed then {held.value} else {})
    }

    /** The loop is where its turn without names leads. */
    ghost predicate SameLoop(r: Result, l: Loop)
      reads this, tracker
    {
      r == l.result && worker.Some? == l.held && tracker.history == l.history
    }

    constructor ()
      ensures Valid() && log == [] && fresh(tracker) && tracker.history == [] && worker == None
    {
      worker, nextId, log := None, 0, [];
      tracker := new NoProgressTracker();
    }

    ghost method Record(a: Action)
      modifies this`log
      requires Disciplined(log) && MayFollow(log, a)
      ensures log == old(log) + [a] && Disciplined(log)
      ensures NotGone(log) == match a case Spawned(id) => NotGone(old(log)) + {id} case Gone(id) => NotGone(old(log)) - {id} case _ => NotGone(old(log))
      ensures LostOnes(log) == if a.Lost? then LostOnes(old(log)) + {a.id} else LostOnes(old(log))
      ensures LastAnswer(log) == if a.Polled? then Some(a.state) else LastAnswer(old(log))
    {
      log := log + [a];
      assert log[..|log| - 1] == old(log);
    }

    /** A worker is off our hands: reaped, or beyond our reach. */
    method Drop(reaped: bool)
      requires Valid() && worker.Some?
      modifies this`worker, this`log
      ensures Valid() && worker == None
      ensures log == old(log) + [if reaped then Gone(old(worker).value) else Lost(old(worker).value)]
      ensures LostOnes(log) == if reaped then LostOnes(old(log)) else LostOnes(old(log)) + {old(worker).value}
      ensures LastAnswer(log) == LastAnswer(old(log)) && AnswersAre(old(log), log, {})
    {
      if reaped {
        Record(Gone(worker.value));
      } else {
        Record(Lost(worker.value));
      }
      worker := None;
    }

    /** `terminate_worker_on_error`: kill, then wait until the child is reaped or waitpid fails. */
    method TerminateWorkerOnError(reaped: bool)
      requires Valid()
      modifies this`worker, this`log
      ensures Valid() && worker == None && LastAnswer(log) == LastAnswer(old(log)) && AnswersAre(old(log), log, {})
      ensures LossesAre(LostOnes(old(log)), old(worker), !reaped)
      ensures old(worker) == None ==> log == old(log)
    {
      if worker.Some? {
        Drop(reaped);
      }
    }

    /** `finish_worker_after_terminal`: a grace period, and only then a kill. */
    method FinishWorkerAfterTerminal(grace: WaitAnswer, reaped: bool)
      requires Valid()
      modifies this`worker, this`log
      ensures Valid() && worker == None && LastAnswer(log) == LastAnswer(old(log)) && AnswersAre(old(log), log, {})
      ensures LossesAre(LostOnes(old(log)), old(worker), grace == WaitpidError || (!grace.Exited? && !reaped))
      ensures old(worker) == None ==> log == old(log)
    {
      if worker.None? {
        return;
      }
      match grace {
        case Exited(_) => Drop(true);
        case WaitpidError => Drop(false);
        case StillRunning => Drop(reaped);
        case CheckFailed => Drop(reaped);
      }
    }

    /** `handle_process_run_success`: the worker's claim against a second look at the run. */
    method HandleProcessRunSuccess(response: Option<ProcessRunOutcome>, second: Option<RunStateResponse>) returns (r: Result)
      requires Valid() && worker == None && (LastAnswer(log).Some? ==> !Final(LastAnswer(log).value))
      modifies this`log, tracker
      ensures Valid()
      ensures LostOnes(log) == LostOnes(old(log))
      ensures r.Ok? ==> second == Some(r.state) && r.state.terminal && response != Some(AlreadyActive)
      ensures r == StillWaiting ==>
        && second.Some? && !Final(second.value)
        && (response == Some(AlreadyActive) ==> ProcessingActive(second.value))
        && (response == Some(AlreadyActive) || response == Some(ClaimInProgress))
      ensures log == if response.Some? && second.Some? then old(log) + [Polled(second.value)] else old(log)
      ensures LastAnswer(log) == if response.Some? && second.Some? then second else LastAnswer(old(log))
      ensures r.Ok? || r == StillWaiting ==> EndsWithAnswer(log) && LastAnswer(log) == second
      ensures r.Failed? ==> ExitFails(Success(response), second, r.why)
      ensures tracker.history == Noted(old(tracker.history), Success(response), second)
      ensures r == Failed(NoProgress) <==> Claims(response, second) && Repeats(tracker.history) > MAX_NO_PROGRESS_COUNT
      ensures r == AfterExit(Success(response), second, tracker.history)
    {
      if response.None? {
        r := Failed(BadResponse);
      } else if second.None? {
        r := Failed(PollFailed);
      } else {
        var state := second.value;
        Record(Polled(state));
        r := StillWaiting;
        match response.value {
          case Processed =>
            r := if state.terminal then Ok(state) else Failed(NotTerminal);
          case AlreadyTerminal =>
            r := if state.terminal then Ok(state) else Failed(NotTerminal);
          case AlreadyActive =>
            if !ProcessingActive(state) {
              r := Failed(NotActive);
            }
          case ClaimInProgress =>
            if state.terminal {
              r := Ok(state);
            } else if ProcessingActive(state) {
              r := StillWaiting;
            } else if state.phase == "ready" {
              var progress := tracker.Advance(state);
              if !progress {
                r := Failed(NoProgress);
              }
            }
        }
      }
      AfterExitMeans(Success(response), second, tracker.history);
    }

    /** After a worker has ended: what the second poll makes of it. */
    method HandleWorkerExit(exit: WorkerExit, second: Option<RunStateResponse>) returns (r: Result)
      requires Valid() && worker == None && (LastAnswer(log).Some? ==> !Final(LastAnswer(log).value))
      modifies this`log, tracker
      ensures Valid() && LostOnes(log) == LostOnes(old(log))
      ensures AnswersAre(old(log), log, {second})
      ensures LastAnswer(log) == LastAnswer(old(log)) || LastAnswer(log) == second
      ensures r.Ok? ==> second == Some(r.state) && r.state.terminal && EndsWithAnswer(log) && LastAnswer(log) == second
      ensures r == StillWaiting ==> second.Some? && !Final(second.value) && EndsWithAnswer(log) && LastAnswer(log) == second
      ensures r.Failed? ==> ExitFails(exit, second, r.why)
      ensures tracker.history == Noted(old(tracker.history), exit, second)
      ensures r == Failed(NoProgress) <==>
        exit.Success? && Claims(exit.response, second) && Repeats(tracker.history) > MAX_NO_PROGRESS_COUNT
      ensures r == AfterExit(exit, second, tracker.history)
    {
      match exit {
        case Success(response) =>
          r := HandleProcessRunSuccess(response, second);
        case TransportFailure =>
          if second.None? {
            return Failed(PollFailed);
          }
          Record(Polled(second.value));
          return if second.value.terminal then Ok(second.value) else StillWaiting;
        case RemoteFailure =>
          if second.None? {
            return Failed(RemoteError);
          }
          Record(Polled(second.value));
          if second.value.terminal {
            return Ok(second.value);
          }
          if second.value.phase == "ready" || Processor(second.value) != Active {
            return Failed(RemoteError);
          }
          return StillWaiting;
        case Killed =>
          return Failed(WasKilled);
      }
    }

    /** Look at the worker, if there is one: the answer to go on with, or the end. */
    method LookAtWorker(state: RunStateResponse, a: Round) returns (r: Result)
      requires Valid() && LastAnswer(log) == Some(state) && !state.terminal
      modifies this`worker, this`log, tracker
      ensures Valid() && LossesAre(LostOnes(old(log)), old(worker), LookLoses(a))
      ensures SameLoop(r, LookTurn(Loop(old(worker).Some?, state, old(tracker.history), StillWaiting), a))
      ensures r.Ok? ==> r.state.terminal && LastAnswer(log) == Some(r.state) && worker == None
      ensures r.Failed? ==> worker == None && RoundFails(old(worker).Some?, a, LastAnswer(log), r.why)
      ensures r == StillWaiting ==>
        var now := if old(worker).Some? && Ended(a.wait).Some? then a.second else Some(state);
        && now.Some? && LastAnswer(log) == now && !Final(now.value)
        && worker == (if Ended(a.wait).Some? then None else old(worker))
        && (now.value.terminal ==> worker == None)
        && (worker == None && old(worker).Some? ==> EndsWithAnswer(log))
        && (old(worker) == None ==> log == old(log))
      ensures LastAnswer(log) == LastAnswer(old(log)) || LastAnswer(log) == a.second
      ensures AnswersAre(old(log), log, {a.second})
    {
      if worker.None? {
        return StillWaiting;
      }
      if a.wait == CheckFailed {
        TerminateWorkerOnError(a.reaped);
        return Failed(WaitFailed);
      }
      var ended := Ended(a.wait);
      if ended.None? {
        return StillWaiting;
      }
      Drop(a.wait != WaitpidError);
      r := HandleWorkerExit(ended.value, a.second);
    }

    /** One turn of the loop: poll, look at the worker, decide whether to start one. */
    method OneRound(previous: RunStateResponse, a: Round) returns (r: Result, state: RunStateResponse)
      requires Valid()
      requires if LastAnswer(log).Some? then LastAnswer(log).value == previous && !Final(previous) else worker == None
      requires previous.terminal ==> worker == None
      modifies this, tracker
      ensures Valid() && tracker == old(tracker)
      ensures var l := Loop(old(worker).Some?, previous, old(tracker.history), StillWaiting);
        LossesAre(LostOnes(old(log)), old(worker), Loses(l, a)) && SameLoop(r, Turn(l, a))
      ensures r == StillWaiting ==>
        state == Turn(Loop(old(worker).Some?, previous, old(tracker.history), StillWaiting), a).state
      ensures r.Ok? ==> r.state.terminal && LastAnswer(log) == Some(r.state)
      ensures r.Failed? ==> RoundFails(old(worker).Some?, a, LastAnswer(log), r.why)
      ensures r != StillWaiting ==> worker == None
      ensures r == StillWaiting ==>
        && LastAnswer(log) == Some(state) && !Final(state) && (state.terminal ==> worker == None)
        && (worker.Some? || ProcessingActive(state))
      ensures LastAnswer(log) in {LastAnswer(old(log)), a.poll, a.second}
      ensures AnswersAre(old(log), log, {a.poll, a.second})
    {
      state := previous;
      if a.poll.Some? {
        state := a.poll.value;
        Record(Polled(state));
      } else if worker.None? {
        return Failed(PollFailed), state;
      }
      if state.terminal {
        FinishWorkerAfterTerminal(a.grace, a.reaped);
        return Ok(state), state;
      }
      r, state := LookAndDecide(state, a);
    }

    /** The rest of the turn, with an answer that is not terminal. */
    method LookAndDecide(polled: RunStateResponse, a: Round) returns (r: Result, state: RunStateResponse)
      requires Valid() && LastAnswer(log) == Some(polled) && !polled.terminal && (worker == None ==> EndsWithAnswer(log))
      modifies this, tracker
      ensures Valid() && tracker == old(tracker)
      ensures LossesAre(LostOnes(old(log)), old(worker), RestLoses(polled, a))
      ensures var l := Loop(old(worker).Some?, polled, old(tracker.history), StillWaiting);
        SameLoop(r, RestTurn(l, a)) && (r == StillWaiting ==> state == RestTurn(l, a).state)
      ensures r.Ok? ==> r.state.terminal && LastAnswer(log) == Some(r.state)
      ensures r.Failed? ==> RoundFails(old(worker).Some?, a, LastAnswer(log), r.why)
      ensures r != StillWaiting ==> worker == None
      ensures r == StillWaiting ==>
        && LastAnswer(log) == Some(state) && !Final(state) && (state.terminal ==> worker == None)
        && (worker.Some? || ProcessingActive(state))
      ensures LastAnswer(log) in {Some(polled), a.second}
      ensures AnswersAre(old(log), log, {a.second})
    {
      state := polled;
      var had := worker.Some?;
      r := LookAtWorker(state, a);
      if r != StillWaiting {
        return;
      }
      if had && Ended(a.wait).Some? {
        state := a.second.value;
      }
      r := Decide(state, a);
    }

    /** Start a worker, keep waiting, or give up on an answer that allows neither. */
    method Decide(state: RunStateResponse, a: Round) returns (r: Result)
      requires Valid() && LastAnswer(log) == Some(state) && !Final(state)
      requires worker == None ==> EndsWithAnswer(log)
      modifies this`worker, this`nextId, this`log
      ensures Valid() && LastAnswer(log) == Some(state) && AnswersAre(old(log), log, {})
      ensures LossesAre(LostOnes(old(log)), old(worker), DecideLoses(state, a))
      ensures SameLoop(r, DecideTurn(Loop(old(worker).Some?, state, tracker.history, StillWaiting), a))
      ensures r == StillWaiting || (r.Failed? && worker == None && RoundFails(old(worker).Some?, a, Some(state), r.why))
      ensures r.Failed? ==> r.why in {UnclearOwner, RunNotFound, UnexpectedPhase, SpawnFailed}
      ensures r == StillWaiting ==> worker.Some? || ProcessingActive(state)
      ensures state.terminal && old(worker) == None ==> worker == None
    {
      var restart := false;
      if state.phase == "ready" {
        restart := worker.None?;
      } else if state.phase == "processing" {
        match Processor(state) {
          case Active => {}
          case Idle => restart := worker.None?;
          case _ =>
            if worker.None? {
              return Failed(UnclearOwner);
            }
        }
      } else {
        TerminateWorkerOnError(a.reaped);
        return Failed(if state.phase == "not_found" then RunNotFound else UnexpectedPhase);
      }
      if restart {
        if !a.spawned {
          return Failed(SpawnFailed);
        }
        Spawn(state);
      }
      return StillWaiting;
    }

    /** Start a worker. */
    method Spawn(state: RunStateResponse)
      requires Valid() && worker == None && EndsWithAnswer(log) && LastAnswer(log) == Some(state) && Startable(state)
      modifies this`worker, this`nextId, this`log
      ensures Valid() && worker == Some(old(nextId)) && log == old(log) + [Spawned(old(nextId))]
      ensures LostOnes(log) == LostOnes(old(log)) && LastAnswer(log) == Some(state)
    {
      NoneLeft(NotGone(log), LostOnes(log));
      Record(Spawned(nextId));
      worker := Some(nextId);
      nextId := nextId + 1;
    }

    /** Between two turns the loop holds what all turns so far led to. */
    ghost predicate Between(dummy: RunStateResponse, rounds: seq<Round>, state: RunStateResponse)
      reads this, tracker
    {
      && Valid()
      && (if LastAnswer(log).Some? then LastAnswer(log).value == state && !Final(state) else worker == None)
      && (state.terminal ==> worker == None)
      && (rounds != [] ==> worker.Some? || (LastAnswer(log).Some? && ProcessingActive(state)))
      && Turns(dummy, rounds) == Loop(worker.Some?, state, tracker.history, StillWaiting)
    }

    /** What holds of the log after any turn. */
    ghost predicate Accounted(dummy: RunStateResponse, rounds: seq<Round>)
      reads this, tracker
    {
      && (LostOnes(log) != {} <==> SomeLoss(dummy, rounds))
      && (forall x | x in log && x.Polled? :: Answered(rounds, x.state))
    }

    /** One more turn, after all those before it. */
    method NextRound(dummy: RunStateResponse, ghost before: seq<Round>, previous: RunStateResponse, a: Round)
        returns (r: Result, state: RunStateResponse)
      requires Between(dummy, before, previous) && Accounted(dummy, before)
      modifies this, tracker
      ensures tracker == old(tracker) && Valid() && Accounted(dummy, before + [a])
      ensures r == StillWaiting ==> Between(dummy, before + [a], state)
      ensures r != StillWaiting ==> worker == None
      ensures SameLoop(r, Turns(dummy, before + [a]))
      ensures r.Ok? ==> r.state.terminal && LastAnswer(log) == Some(r.state)
    {
      ghost var now := before + [a];
      assert now[..|before|] == before;
      assert a in now && forall b | b in before :: b in now;
      r, state := OneRound(previous, a);
    }

    /** `drive_server_until_terminal`, against any finite number of rounds of answers. */
    method Drive(dummy: RunStateResponse, rounds: seq<Round>) returns (r: Result)
      requires Valid() && log == [] && worker == None && tracker.history == [] && !dummy.terminal
      modifies this, tracker
      ensures Valid() && Disciplined(log)
      ensures r.Ok? ==> r.state.terminal && LastAnswer(log) == Some(r.state)
      ensures forall x | x in log && x.Polled? :: Answered(rounds, x.state)
      ensures r != StillWaiting ==> NotGone(log) == LostOnes(log)
      ensures SameLoop(r, Turns(dummy, rounds))
      ensures LostOnes(log) != {} <==> exists k: nat | k < |rounds| :: LosesAt(dummy, rounds, k)
      ensures r == StillWaiting && rounds != [] ==> worker.Some? || (LastAnswer(log).Some? && ProcessingActive(LastAnswer(log).value))
      ensures r == Failed(NoProgress) <==> Repeats(tracker.history) > MAX_NO_PROGRESS_COUNT
    {
      var state := dummy;
      for k := 0 to |rounds|
        invariant tracker == old(tracker)
        invariant Between(dummy, rounds[..k], state) && Accounted(dummy, rounds[..k])
      {
        assert rounds[..k] + [rounds[k]] == rounds[..k + 1];
        r, state := NextRound(dummy, rounds[..k], state, rounds[k]);
        if r != StillWaiting {
          EndedForGood(dummy, rounds, k + 1);
          SomeLossIs(dummy, rounds);
          GivesUpOnTheFourth(dummy, rounds);
          AnsweredStays(rounds, k + 1);
          NoneLeft(NotGone(log), LostOnes(log));
          return;
        }
      }
      assert rounds[..|rounds|] == rounds;
      SomeLossIs(dummy, rounds);
      GivesUpOnTheFourth(dummy, rounds);
      return StillWaiting;
    }
  }

  // ---- what a disciplined log means

  /** With no worker lost there is at most one at any moment; in general, at most one besides the lost. */
  lemma {:induction false} AtMostOneWorker(log: seq<Action>, n: nat)
    requires Disciplined(log) && n <= |log|
    ensures LostOnes(log[..n]) <= NotGone(log[..n]) && |NotGone(log[..n]) - LostOnes(log[..n])| <= 1
    decreases |log|
  {
    if n < |log| {
      AtMostOneWorker(log[..|log| - 1], n);
      assert log[..|log| - 1][..n] == log[..n];
    } else if log != [] {
      assert log[..n] == log;
      var init := log[..|log| - 1];
      AtMostOneWorker(init, |init|);
      assert init[..|init|] == init;
      OneMore(NotGone(init), LostOnes(init), log[|log| - 1]);
    }
  }

  lemma NoneLeft(alive: set<WorkerId>, lost: set<WorkerId>)
    requires lost <= alive && alive - lost == {}
    ensures alive == lost
  {
    forall i | i in alive ensures i in lost {
      assert i !in alive - lost;
    }
  }

  lemma OneMore(alive: set<WorkerId>, lost: set<WorkerId>, a: Action)
    requires lost <= alive && |alive - lost| <= 1
    requires a.Spawned? ==> alive <= lost && a.id !in alive
    requires a.Gone? || a.Lost? ==> a.id in alive && a.id !in lost
    ensures var alive' := match a case Spawned(id) => alive + {id} case Gone(id) => alive - {id} case _ => alive;
      var lost' := if a.Lost? then lost + {a.id} else lost;
      lost' <= alive' && |alive' - lost'| <= 1
  {
    match a
    case Spawned(id) => assert alive + {id} - lost == {id};
    case Gone(id) => assert alive - {id} - lost == (alive - lost) - {id};
    case Lost(id) => assert alive - (lost + {id}) == (alive - lost) - {id};
    case Polled(_) =>
  }

  /** Every worker rests on an answer that allows it -- ready, or processing by nobody -- given after every
      earlier worker had exited, been reaped or been lost. */
  lemma {:induction false} SpawnRestsOnFreshAnswer(log: seq<Action>, n: nat)
    requires Disciplined(log) && n < |log| && log[n].Spawned?
    ensures n > 0 && log[n - 1].Polled? && Startable(log[n - 1].state)
    ensures NotGone(log[..n - 1]) <= LostOnes(log[..n - 1])
    decreases |log|
  {
    var init := log[..|log| - 1];
    if n < |init| {
      SpawnRestsOnFreshAnswer(init, n);
      assert init[..n - 1] == log[..n - 1];
    } else {
      assert init[..|init| - 1] == log[..n - 1];
    }
  }

  /** After a terminal answer nothing is started. */
  lemma {:induction false} NothingStartsAfterTerminal(log: seq<Action>, m: nat, n: nat)
    requires Disciplined(log) && m < n < |log| && log[m].Polled? && Final(log[m].state)
    ensures log[n].Gone? || log[n].Lost?
    ensures LastAnswer(log[..n + 1]) == Some(log[m].state)
    decreases n
  {
    DisciplinedPrefix(log, n + 1);
    assert log[..n + 1][..n] == log[..n];
    if n > m + 1 {
      NothingStartsAfterTerminal(log, m, n - 1);
    } else {
      assert log[..n][..n - 1] == log[..n - 1];
    }
    assert log[..n][n - 1] == log[n - 1];
  }

  lemma {:induction false} DisciplinedPrefix(log: seq<Action>, n: nat)
    requires Disciplined(log) && n <= |log|
    ensures Disciplined(log[..n])
    decreases |log|
  {
    if n < |log| {
      DisciplinedPrefix(log[..|log| - 1], n);
      assert log[..|log| - 1][..n] == log[..n];
    } else {
      assert log[..n] == log;
    }
  }

  /** When waitpid fails the loop forgets the worker and may start another: two are then not known to be gone. */
  method WaitpidErrorLosesAWorker() returns (s: Supervisor, first: WorkerId, second: WorkerId)
    ensures s.Valid() && first != second && {first, second} <= NotGone(s.log)
  {
    s := new Supervisor();
    var ready := RunStateResponse("ready", false, None, None, None, None, 0, 0);
    var start := Round(Some(ready), StillRunning, Some(ready), true, StillRunning, true);
    var r, state := s.OneRound(ready, start);
    assert Startable(ready);
    first := s.worker.value;
    r, state := s.OneRound(state, start.(wait := WaitpidError));
    second := s.worker.value;
    assert NotGone(s.log) == LostOnes(s.log) + {second};
  }
}

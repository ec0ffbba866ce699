/** Crashes and relaunches of the client's own machine, any number of them: what its passes are heading for
    stays the same throughout. */
module ClientCrashes {
  import opened Records
  import opened SourceFiles
  import opened Cleanup
  import opened CleanupSurvivors
  import opened CleanupFinal
  import opened CleanupCrash
  import opened ClientProtocol
  import opened ClientTheorems

  // ---- what a ledger is heading for

  /** The ledger as it will be confirmed: by the stored status of its run, or, without a run, as it is. */
  function Due(ledger: Ledger, status: Option<RunStatus>): (r: Ledger)
    ensures |r| == |ledger|
    ensures forall i | 0 <= i < |r| :: SameEntry(ledger[i], r[i]) && r[i].cleaned == ledger[i].cleaned
  {
    match status
    case Some(st) => ConfirmFromStatus(ledger, st)
    case None => ledger
  }

  /** The pending work of an operation, in the directory its operand names. */
  function DueWork(s: Client, op: Op, status: Option<RunStatus>): Work
    requires op in s.ledgers && op in s.captured
  {
    Work(s.fs, Standing(NamedDir(s.cwd, s.captured[op].parent)), Due(s.ledgers[op], status))
  }

  /** Nothing is confirmed yet that will not be. */
  predicate NothingElse(ledger: Ledger, status: Option<RunStatus>) {
    forall i | 0 <= i < |ledger| :: ledger[i].confirmed ==> Due(ledger, status)[i].confirmed
  }

  lemma DueOfMarked(ledger: Ledger, status: Option<RunStatus>, i: nat)
    requires i < |ledger|
    ensures Due(Mark(ledger, i), status) == Mark(Due(ledger, status), i)
    ensures NothingElse(ledger, status) ==> NothingElse(Mark(ledger, i), status)
  {
    var marked := Mark(ledger, i);
    assert SameEntries(ledger, marked);
    forall j | 0 <= j < |ledger| ensures Due(marked, status)[j] == Mark(Due(ledger, status), i)[j] {
      if status.Some? { SameEntriesConfirmAlike(ledger, marked, status.value, j); }
    }
  }

  lemma DueOfDue(ledger: Ledger, status: Option<RunStatus>)
    ensures Due(Due(ledger, status), status) == Due(ledger, status) && NothingElse(Due(ledger, status), status)
  {
    var due := Due(ledger, status);
    assert SameEntries(ledger, due);
    forall j | 0 <= j < |ledger| ensures Due(due, status)[j] == due[j] {
      if status.Some? { SameEntriesConfirmAlike(ledger, due, status.value, j); }
    }
  }

  // ---- one deletion, one mark

  /** A work and its due form: the same tree, and every entry that may go is due to. */
  ghost predicate DueFormOf(w: Work, due: Work) {
    && Plain(due) && due.fs == w.fs && due.base == w.base && |due.ledger| == |w.ledger|
    && forall i | 0 <= i < |w.ledger| ::
         SameEntry(w.ledger[i], due.ledger[i]) && w.ledger[i].cleaned == due.ledger[i].cleaned
         && (w.ledger[i].confirmed ==> due.ledger[i].confirmed)
  }

  lemma DeletionStaysDue(w: Work, due: Work, k: nat)
    requires DueFormOf(w, due) && k < 2 * |w.ledger| && Cleans(w, k)
    ensures var due' := due.(fs := Torn(w, k).fs); Plain(due') && Final(due') == Final(due)
    ensures var i := IndexOf(|w.ledger|, k);
      Eligible(due.ledger[i]) && Literally(Torn(w, k).fs, Place(due, i)) == NotFound
  {
    var i := IndexOf(|w.ledger|, k);
    assert SameEntry(w.ledger[i], due.ledger[i]) && Eligible(due.ledger[i]);
    PlainTarget(due, i);
    assert Target(w, i) == Target(due, i);
    if Target(w, i).Found? {
      var p := Place(due, i);
      var due' := due.(fs := due.fs - {p});
      FoundIsDoomed(w, due, k);
      assert Deletes(due, due', p);
      DeletionKeepsFinal(due, due', p);
      DeletedIsNotThere(due, due', p);
      RemovalKeepsUnbent(due, due', p);
      BaseStays(due, i);
    }
  }

  lemma FoundIsDoomed(w: Work, due: Work, k: nat)
    requires DueFormOf(w, due) && k < 2 * |w.ledger| && Cleans(w, k)
    requires var i := IndexOf(|w.ledger|, k);
      Eligible(due.ledger[i]) && Target(w, i) == Literally(due.fs, Place(due, i)) && Target(w, i).Found?
    ensures var p := Place(due, IndexOf(|w.ledger|, k)); Doomed(due, p) && !HasChild(due.fs, p)
  {
    var i := IndexOf(|w.ledger|, k);
    var p := Place(due, i);
    assert SameEntry(w.ledger[i], due.ledger[i]);
    if k < |w.ledger| {
      LeafIsChildless(due.fs, p);
      assert LeafDoomed(due, p);
    } else {
      ChildlessIsBare(due.fs, p);
      assert TrackedDir(due, p);
    }
  }

  lemma MarkStaysDue(due: Work, i: nat)
    requires Plain(due) && i < |due.ledger| && Eligible(due.ledger[i]) && Literally(due.fs, Place(due, i)) == NotFound
    ensures var due' := due.(ledger := Mark(due.ledger, i)); Plain(due') && Final(due') == Final(due)
  {
    MarkingKeepsFinal(due, i);
    MarkingKeepsPlain(due, i);
  }

  /** When everything is flagged there is nothing left to do. */
  lemma AllFlaggedIsFinal(due: Work)
    requires due.base.Standing? && AllCleaned(due.ledger)
    ensures Final(due) == due
  {
    forall p ensures !LeafDoomed(due, p) && !TrackedDir(due, p) {}
    assert Survivors(due) == due.fs;
    assert Flags(due) == due.ledger;
  }

  // ---- what every step keeps

  /** The operation's ledger is heading for `goal`, or is gone and the tree is what it should be. */
  ghost predicate Heading(s: Client, op: Op, status: Option<RunStatus>, goal: Work) {
    && op in s.captured && PlainPath(s.captured[op].parent)
    && (op in s.ledgers ==>
          && Plain(DueWork(s, op, status)) && Final(DueWork(s, op, status)) == goal
          && NothingElse(s.ledgers[op], status))
    && (op !in s.ledgers ==> s.fs == goal.fs)
  }

  /** No other operation is at hand, and the run, if there is one, has its status stored or is completed. */
  predicate Alone(s: Client, op: Op, status: Option<RunStatus>) {
    && s.ledgers.Keys <= {op} && s.runs.Keys <= {op}
    && (op in s.runs ==> s.runs[op].phase == CleanupComplete
                         || (status.Some? && s.runs[op] == RunRecord(TerminalStatusSeen, status)))
  }

  /** The flag that is about to be set is one that should be. */
  predicate AboutTo(s: Client, op: Op, status: Option<RunStatus>) {
    s.pc.Cleaning? && s.pc.op == op && s.pc.torn && op in s.ledgers && op in s.captured && s.pc.k < 2 * |s.ledgers[op]| ==>
      var due, i := DueWork(s, op, status), IndexOf(|s.ledgers[op]|, s.pc.k);
      Eligible(due.ledger[i]) && Literally(s.fs, Place(due, i)) == NotFound
  }

  ghost predicate OnTheWay(s: Client, op: Op, status: Option<RunStatus>, goal: Work, cwd: Path) {
    && Inv(s) && s.cwd == cwd && Alone(s, op, status) && Heading(s, op, status, goal) && AboutTo(s, op, status)
    && !s.pc.Fresh?
    && (s.pc.Cleaning? ==> !s.pc.mode.Direct?)
  }

  lemma BaseIsThere(s: Client, op: Op, status: Option<RunStatus>, goal: Work)
    requires Heading(s, op, status, goal) && op in s.ledgers
    ensures BaseNow(s, op) == Standing(NamedDir(s.cwd, s.captured[op].parent))
    ensures DueFormOf(WorkOn(s, op), DueWork(s, op, status))
  {
    PresentIsBase(s.fs, s.cwd, s.captured[op].parent);
  }

  lemma CleaningOnTheWay(s: Client, op: Op, status: Option<RunStatus>, goal: Work, k: nat, torn: bool, mode: Mode)
    requires Inv(s) && Alone(s, op, status) && Heading(s, op, status, goal) && AboutTo(s, op, status)
    requires s.pc == Cleaning(op, k, torn, mode) && op in s.ledgers && k < 2 * |s.ledgers[op]|
    ensures var s' := ActCleaning(s, op, k, torn, mode); Heading(s', op, status, goal) && AboutTo(s', op, status)
  {
    var ledger, i := s.ledgers[op], IndexOf(|s.ledgers[op]|, k);
    var due := DueWork(s, op, status);
    if torn {
      DueOfMarked(ledger, status, i);
      MarkStaysDue(due, i);
    } else {
      BaseIsThere(s, op, status, goal);
      if Cleans(WorkOn(s, op), k) { DeletionStaysDue(WorkOn(s, op), due, k); }
    }
  }

  /** A ledger is given up only when nothing is left of it to do. */
  lemma GivingUpArrives(s: Client, op: Op, status: Option<RunStatus>, goal: Work)
    requires Heading(s, op, status, goal) && op in s.ledgers && AllCleaned(s.ledgers[op])
    ensures s.fs == goal.fs
  {
    var due := DueWork(s, op, status);
    forall i | 0 <= i < |due.ledger| ensures due.ledger[i].cleaned {}
    AllFlaggedIsFinal(due);
  }

  lemma FinishedOnTheWay(s: Client, op: Op, status: Option<RunStatus>, goal: Work, mode: Mode)
    requires Alone(s, op, status) && Heading(s, op, status, goal) && op in s.ledgers && !mode.Direct?
    ensures var s' := Finished(s, op, mode); Alone(s', op, status) && Heading(s', op, status, goal) && AboutTo(s', op, status)
  {
    if AllCleaned(s.ledgers[op]) { GivingUpArrives(s, op, status, goal); }
  }

  lemma RunOnTheWay(s: Client, c: Choice, op: Op, status: Option<RunStatus>, goal: Work, step: RunStep, next: Then)
    requires Inv(s) && Alone(s, op, status) && Heading(s, op, status, goal) && s.pc == AtRun(op, step, next)
    ensures var s' := ActRun(s, c, op, step, next);
      && Alone(s', op, status) && Heading(s', op, status, goal) && AboutTo(s', op, status)
      && s'.cwd == s.cwd && !s'.pc.Fresh? && (s'.pc.Cleaning? ==> !s'.pc.mode.Direct?)
  {
    assert AtRunOk(s, op, step);
    match step
    case Confirming(st) =>
      assert OpOk(s, op);
      DueOfDue(s.ledgers[op], status);
    case Retiring(complete) =>
      if complete { GivingUpArrives(s, op, status, goal); }
    case _ =>
  }

  /** A step that only decides what comes next. */
  predicate OnlyMoves(s: Client, s': Client) {
    s' == s.(pc := s'.pc) && !s'.pc.Fresh? && (s'.pc.Cleaning? ==> !s'.pc.torn && !s'.pc.mode.Direct?)
  }

  lemma ScanningMoves(s: Client, c: Choice, todo: set<Op>)
    requires s.pc == Scanning(todo)
    ensures OnlyMoves(s, ActScanning(s, c, todo))
  {}

  lemma DrainingMoves(s: Client, c: Choice, todo: set<Op>, failed: bool)
    requires s.pc == Draining(todo, failed)
    ensures OnlyMoves(s, ActDraining(s, c, todo, failed))
  {}

  lemma StartingMoves(s: Client, c: Choice)
    requires ActStarting(s, c).captured == s.captured
    ensures OnlyMoves(s, ActStarting(s, c))
  {
    if CanStart(s, c) { StartingCaptures(s, c); }
  }

  lemma StartingCaptures(s: Client, c: Choice)
    requires CanStart(s, c)
    ensures c.op in ActStarting(s, c).captured && c.op !in s.captured
  {}

  lemma MoveOnTheWay(s: Client, s': Client, op: Op, status: Option<RunStatus>, goal: Work)
    requires Alone(s, op, status) && Heading(s, op, status, goal) && OnlyMoves(s, s')
    ensures Alone(s', op, status) && Heading(s', op, status, goal) && AboutTo(s', op, status)
  {
    if op in s.ledgers && op in s.captured { assert DueWork(s', op, status) == DueWork(s, op, status); }
  }

  lemma OthersOnTheWay(s: Client, c: Choice, op: Op, status: Option<RunStatus>, goal: Work)
    requires Alone(s, op, status) && Heading(s, op, status, goal)
    requires s.pc.Idle? || s.pc.Scanning? || s.pc.Draining? || s.pc.Starting?
    requires Advance(s, c).captured == s.captured
    ensures OnlyMoves(s, Advance(s, c))
    ensures var s' := Advance(s, c); Alone(s', op, status) && Heading(s', op, status, goal) && AboutTo(s', op, status)
  {
    match s.pc {
      case Scanning(todo) => ScanningMoves(s, c, todo);
      case Draining(todo, failed) => DrainingMoves(s, c, todo, failed);
      case Starting => StartingMoves(s, c);
      case _ =>
    }
    MoveOnTheWay(s, Advance(s, c), op, status, goal);
  }

  /** Launches from the same directory, steps that capture nothing new, and crashes. */
  predicate Quiet(e: Event, cwd: Path) {
    e == Launch(cwd) || e.Act? || e.Crash?
  }

  lemma ActOnTheWay(s: Client, c: Choice, op: Op, status: Option<RunStatus>, goal: Work, cwd: Path)
    requires OnTheWay(s, op, status, goal, cwd) && Advance(s, c).captured == s.captured
    ensures var s' := Advance(s, c);
      && Alone(s', op, status) && Heading(s', op, status, goal) && AboutTo(s', op, status)
      && s'.cwd == s.cwd && !s'.pc.Fresh? && (s'.pc.Cleaning? ==> !s'.pc.mode.Direct?)
  {
    match s.pc
    case AtRun(o, step, next) =>
      assert AtRunOk(s, o, step);
      assert o in s.runs.Keys;
      RunOnTheWay(s, c, op, status, goal, step, next);
    case Cleaning(o, k, torn, mode) =>
      assert o in s.ledgers.Keys;
      if k >= 2 * |s.ledgers[op]| {
        FinishedOnTheWay(s, op, status, goal, mode);
        FinishedGoesOn(s, op, mode);
      } else {
        CleaningOnTheWay(s, op, status, goal, k, torn, mode);
        CleaningGoesOn(s, op, k, torn, mode);
      }
    case _ => OthersOnTheWay(s, c, op, status, goal);
  }

  lemma FinishedGoesOn(s: Client, op: Op, mode: Mode)
    requires op in s.ledgers
    ensures !Finished(s, op, mode).pc.Fresh? && !Finished(s, op, mode).pc.Cleaning? && Finished(s, op, mode).cwd == s.cwd
  {}

  lemma CleaningGoesOn(s: Client, op: Op, k: nat, torn: bool, mode: Mode)
    requires op in s.ledgers && k < 2 * |s.ledgers[op]|
    ensures var s' := ActCleaning(s, op, k, torn, mode);
      s'.ledgers.Keys == s.ledgers.Keys && s'.runs == s.runs && s'.cwd == s.cwd && s'.pc.Cleaning? && s'.pc.mode == mode
  {}

  lemma StepOnTheWay(s: Client, e: Event, op: Op, status: Option<RunStatus>, goal: Work, cwd: Path)
    requires OnTheWay(s, op, status, goal, cwd) && Quiet(e, cwd) && Step(s, e).captured == s.captured && Inv(Step(s, e))
    ensures OnTheWay(Step(s, e), op, status, goal, cwd)
  {
    if e.Act? {
      ActOnTheWay(s, e.choice, op, status, goal, cwd);
    } else if Step(s, e) != s {
      MoveOnTheWay(s, Step(s, e), op, status, goal);
    }
  }

  // ---- any number of crashes

  /** From the given state on nobody else touches anything, and no new operation is captured. */
  ghost predicate Undisturbed(fs: Files, before: seq<Event>, later: seq<Event>, cwd: Path) {
    && (forall i | 0 <= i < |later| :: Quiet(later[i], cwd))
    && (forall n | 0 <= n <= |later| :: After(fs, before + later[..n]).captured == After(fs, before).captured)
  }

  /** The state after a crash from which the theorem below starts: one pending ledger, its run with the stored
      status or completed or none, and no symlink above a place that is due. */
  ghost predicate Pending(s: Client, op: Op, status: Option<RunStatus>) {
    && s.pc == Idle && Alone(s, op, status) && op in s.ledgers && op in s.captured && PlainPath(s.captured[op].parent)
    && Plain(DueWork(s, op, status)) && NothingElse(s.ledgers[op], status)
  }

  lemma {:induction false} AllOnTheWay(fs: Files, before: seq<Event>, later: seq<Event>, n: nat, op: Op, status: Option<RunStatus>)
    requires var s := After(fs, before); Pending(s, op, status) && Undisturbed(fs, before, later, s.cwd) && n <= |later|
    ensures var s := After(fs, before);
      OnTheWay(After(fs, before + later[..n]), op, status, Final(DueWork(s, op, status)), s.cwd)
  {
    var s := After(fs, before);
    AlwaysInv(fs, before + later[..n]);
    if n == 0 {
      assert before + later[..0] == before;
    } else {
      AllOnTheWay(fs, before, later, n - 1, op, status);
      var t := After(fs, before + later[..n - 1]);
      assert before + later[..n] == (before + later[..n - 1]) + [later[n - 1]];
      assert (before + later[..n])[..|before| + n - 1] == before + later[..n - 1];
      assert After(fs, before + later[..n]) == Step(t, later[n - 1]);
      StepOnTheWay(t, later[n - 1], op, status, Final(DueWork(s, op, status)), s.cwd);
    }
  }

  /** However often the client crashes from then on, wherever, and is launched again in the same directory: as
      long as the ledger is there, a pass over it, once confirmed, gives the tree and the ledger that an
      uninterrupted one would have given at the start; and when it is gone, the tree is that one. */
  lemma CrashesDoNotMatter(fs: Files, before: seq<Event>, later: seq<Event>, op: Op, status: Option<RunStatus>)
    requires var s := After(fs, before); Pending(s, op, status) && Undisturbed(fs, before, later, s.cwd)
    ensures var s, s' := After(fs, before), After(fs, before + later);
      var goal := Pass(DueWork(s, op, status));
      && op in s'.captured
      && (op in s'.ledgers ==> Pass(DueWork(s', op, status)) == goal)
      && (op !in s'.ledgers ==> s'.fs == goal.fs)
  {
    var s, s' := After(fs, before), After(fs, before + later);
    AllOnTheWay(fs, before, later, |later|, op, status);
    assert later[..|later|] == later;
    PassIsFinal(DueWork(s, op, status));
    if op in s'.ledgers { PassIsFinal(DueWork(s', op, status)); }
  }
}

/** Launched and left alone, the client resolves every run it has persisted, however many and in whatever phase
    a crash left each of them. */
module ClientDrain {
  import opened Records
  import opened SourceFiles
  import opened Cleanup
  import opened ClientProtocol
  import opened ClientTheorems
  import RunFiles

  // ---- when nothing goes wrong

  ghost function Pick(todo: set<Op>): (op: Op)
    requires todo != {}
    ensures op in todo
  {
    var op :| op in todo;
    op
  }

  /** The operation at hand, or one of those that remain. */
  ghost function Next(pc: Pc): Op {
    match pc
    case Scanning(todo) => if todo != {} then Pick(todo) else Op("", "")
    case Draining(todo, _) => if todo != {} then Pick(todo) else Op("", "")
    case AtRun(op, _, _) => op
    case _ => Op("", "")
  }

  /** Every call succeeds, and every run that is waited for ends with the status its server gives. */
  ghost function Helpful(s: Client, answers: Op -> RunStatus): Choice {
    Choice(true, Some(answers(Next(s.pc))), Next(s.pc), false, [], [], RunFiles.ManifestEntry(Directory, [], []))
  }

  ghost predicate Honest(answers: Op -> RunStatus) {
    forall op :: Envelope(answers(op), op)
  }

  // ---- on the way through the pending operations

  predicate AmongRuns(s: Client, op: Op, next: Then) {
    next.NextRun? && !next.failed && op in next.todo && s.runs.Keys <= next.todo
  }

  /** Where a launch can be before it starts anything new, with nothing failed and every run still on its list. */
  ghost predicate Going(s: Client) {
    && Inv(s)
    && match s.pc
       case Scanning(_) => true
       case Draining(todo, failed) => !failed && s.runs.Keys <= todo
       case AtRun(op, _, next) => AmongRuns(s, op, next)
       case Cleaning(op, _, _, Scan(_)) => true
       case Cleaning(op, _, _, Inline(next)) => AmongRuns(s, op, next)
       case Cleaning(op, _, _, Local(next)) => AmongRuns(s, op, next)
       case _ => false
  }

  ghost predicate Arrived(s: Client) {
    s.pc == Starting && s.runs == map[]
  }

  // ---- what is left to do

  function Part(pc: Pc): nat {
    match pc
    case Scanning(_) => 2
    case Cleaning(_, _, _, Scan(_)) => 2
    case Idle => 0
    case Starting => 0
    case _ => 1
  }

  function Remaining(next: Then): nat {
    match next
    case Exit => 0
    case NextRun(todo, _) => if todo == {} then 0 else |todo| - 1
  }

  function Operations(pc: Pc): nat {
    match pc
    case Scanning(todo) => |todo|
    case Draining(todo, _) => |todo|
    case AtRun(_, _, next) => Remaining(next)
    case Cleaning(_, _, _, Scan(todo)) => |todo|
    case Cleaning(_, _, _, Inline(next)) => Remaining(next)
    case Cleaning(_, _, _, Local(next)) => Remaining(next)
    case _ => 0
  }

  function Stage(pc: Pc): nat {
    match pc
    case AtRun(_, step, _) =>
      (match step
       case Finishing => 8
       case Waiting => 7
       case Reread => 6
       case Confirming(_) => 5
       case PersistingComplete(_) => 3
       case Retiring(_) => 2
       case RemovingRun => 1
       case _ => 0)
    case Cleaning(_, _, _, mode) => if mode.Inline? then 4 else if mode.Local? then 3 else 1
    case _ => 0
  }

  function Visits(s: Client): nat {
    if s.pc.Cleaning? && s.pc.op in s.ledgers && s.pc.k < 2 * |s.ledgers[s.pc.op]|
    then 2 * (2 * |s.ledgers[s.pc.op]| - s.pc.k) + (if s.pc.torn then 0 else 1)
    else 0
  }

  /** Fewer lists, fewer operations, a later stage, fewer visits. */
  predicate Nearer(s: Client, s': Client) {
    || Part(s'.pc) < Part(s.pc)
    || (Part(s'.pc) == Part(s.pc) && Operations(s'.pc) < Operations(s.pc))
    || (Part(s'.pc) == Part(s.pc) && Operations(s'.pc) == Operations(s.pc) && Stage(s'.pc) < Stage(s.pc))
    || (Part(s'.pc) == Part(s.pc) && Operations(s'.pc) == Operations(s.pc) && Stage(s'.pc) == Stage(s.pc) && Visits(s') < Visits(s))
  }

  // ---- every step is a step nearer

  ghost predicate GoodStep(s: Client, s': Client) {
    Nearer(s, s') && (Inv(s') ==> Going(s') || Arrived(s'))
  }

  lemma OneLess(todo: set<Op>, op: Op)
    requires op in todo
    ensures |todo - {op}| < |todo| && |todo - {op}| == |todo| - 1
  {}

  lemma ScanningStep(s: Client, todo: set<Op>, c: Choice)
    requires Going(s) && s.pc == Scanning(todo) && c.op == Next(s.pc)
    ensures GoodStep(s, ActScanning(s, c, todo))
  {
    if todo != {} { OneLess(todo, c.op); }
  }

  lemma DrainingStep(s: Client, todo: set<Op>, c: Choice)
    requires Going(s) && s.pc == Draining(todo, false) && c.op == Next(s.pc) && c.good
    ensures GoodStep(s, ActDraining(s, c, todo, false))
  {
    if todo == {} {
      assert s.runs.Keys == {};
      assert s.runs == map[];
    } else {
      OneLess(todo, c.op);
      assert OpOk(s, c.op);
      if c.op in s.runs { FirstStep(s, c, todo); }
    }
  }

  /** Where draining one run begins. */
  lemma FirstStep(s: Client, c: Choice, todo: set<Op>)
    requires c.op in todo && s.runs.Keys <= todo && c.op in s.runs && c.good && OpOk(s, c.op)
    ensures var pc := DrainOne(s, c, c.op, s.runs[c.op], NextRun(todo, false));
      && Part(pc) == 1 && Operations(pc) == |todo| - 1
      && (pc.AtRun? || (pc.Cleaning? && pc.mode.Local?))
      && (pc.AtRun? ==> pc.op == c.op && pc.next == NextRun(todo, false))
      && (pc.Cleaning? ==> pc.op == c.op && pc.mode.next == NextRun(todo, false))
  {}

  lemma RunStep(s: Client, c: Choice, op: Op, step: RunStep, next: Then)
    requires Going(s) && s.pc == AtRun(op, step, next) && c.good && c.answer.Some? && Envelope(c.answer.value, op)
    ensures GoodStep(s, ActRun(s, c, op, step, next))
  {
    assert AtRunOk(s, op, step) && OpOk(s, op);
    OneLess(next.todo, op);
  }

  lemma CleaningStep(s: Client, op: Op, k: nat, torn: bool, mode: Mode)
    requires Going(s) && s.pc == Cleaning(op, k, torn, mode)
    ensures GoodStep(s, ActCleaning(s, op, k, torn, mode))
  {
    assert CleaningOk(s, op, k, torn, mode);
    if k >= 2 * |s.ledgers[op]| { FinishedStep(s, op, k, torn, mode); }
  }

  lemma FinishedStep(s: Client, op: Op, k: nat, torn: bool, mode: Mode)
    requires Going(s) && s.pc == Cleaning(op, k, torn, mode) && op in s.ledgers
    ensures GoodStep(s, Finished(s, op, mode))
  {}

  lemma EveryStep(s: Client, answers: Op -> RunStatus)
    requires Going(s) && Honest(answers)
    ensures GoodStep(s, Advance(s, Helpful(s, answers)))
  {
    var c := Helpful(s, answers);
    match s.pc
    case Scanning(todo) => ScanningStep(s, todo, c);
    case Draining(todo, failed) => DrainingStep(s, todo, c);
    case AtRun(op, step, next) => RunStep(s, c, op, step, next);
    case Cleaning(op, k, torn, mode) => CleaningStep(s, op, k, torn, mode);
  }

  // ---- the whole way

  /** The client after so many helpful steps. */
  ghost function Helped(s: Client, answers: Op -> RunStatus, n: nat): Client
    decreases n
  {
    if n == 0 then s else Helped(Advance(s, Helpful(s, answers)), answers, n - 1)
  }

  lemma {:induction false} GoingArrives(s: Client, answers: Op -> RunStatus) returns (n: nat)
    requires Going(s) && Honest(answers)
    ensures Arrived(Helped(s, answers, n))
    decreases Part(s.pc), Operations(s.pc), Stage(s.pc), Visits(s)
  {
    var next := Advance(s, Helpful(s, answers));
    EveryStep(s, answers);
    StepKeepsInv(s, Act(Helpful(s, answers)));
    if Arrived(next) {
      n := 1;
      assert Helped(next, answers, 0) == next;
    } else {
      var rest := GoingArrives(next, answers);
      n := rest + 1;
    }
  }

  lemma Regroup(before: seq<Event>, e: Event, rest: seq<Event>)
    ensures before + ([e] + rest) == (before + [e]) + rest
  {}

  /** The events of those steps. */
  lemma {:induction false} HelpedByEvents(fs: Files, before: seq<Event>, answers: Op -> RunStatus, n: nat) returns (later: seq<Event>)
    ensures |later| == n && (forall i | 0 <= i < n :: later[i].Act? && later[i].choice.good)
    ensures After(fs, before + later) == Helped(After(fs, before), answers, n)
    decreases n
  {
    if n == 0 {
      later := [];
      assert before + [] == before;
    } else {
      var e := Act(Helpful(After(fs, before), answers));
      OneMore(fs, before, e);
      var rest := HelpedByEvents(fs, before + [e], answers, n - 1);
      later := [e] + rest;
      Regroup(before, e, rest);
    }
  }

  /** After any history, whatever was edited and wherever the client crashed: launched anywhere, and with every
      call succeeding and every server answering from then on, it comes to the point of starting something new,
      and by then it has resolved all its runs. */
  lemma RelaunchResolvesEverything(fs: Files, before: seq<Event>, cwd: Path, answers: Op -> RunStatus)
    returns (n: nat, later: seq<Event>)
    requires After(fs, before).pc == Idle && Honest(answers)
    ensures After(fs, before + [Launch(cwd)] + later) == Helped(After(fs, before + [Launch(cwd)]), answers, n)
    ensures var s' := After(fs, before + [Launch(cwd)] + later); s'.pc == Starting && s'.runs == map[]
  {
    var launched := before + [Launch(cwd)];
    assert launched[..|before|] == before;
    AlwaysInv(fs, launched);
    n := GoingArrives(After(fs, launched), answers);
    later := HelpedByEvents(fs, launched, answers, n);
  }
}

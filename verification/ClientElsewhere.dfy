/** A relative operand and a client that is launched again from another directory: the ledger is taken for
    worked off while the source is still there. */
module ClientElsewhere {
  import opened Records
  import opened SourceFiles
  import opened Cleanup
  import opened CleanupCapture
  import opened ClientProtocol
  import RunFiles

  const THE_OP := Op("n", "r")

  const THE_FILE := File(1, 2, "x")

  /** A file `v` in /home, and an empty /tmp. */
  const TREE: Files := map[[] := Dir, ["home"] := Dir, ["home", "v"] := THE_FILE, ["tmp"] := Dir]

  const THE_ENTRY := CleanupEntry(["v"], ["v"], RegularFile, 1, 2, Some("x"), None, false, false)

  /** A direct sync of `v`, as typed in /home. */
  const GO_ON := Choice(true, None, THE_OP, true, [THE_ENTRY], [], RunFiles.ManifestEntry(RegularFile, ["v"], ["v"]))

  /** The entry, as the ledger has it once the transfer is known. */
  const DUE := THE_ENTRY.(confirmed := true)

  /** Launched in /home, the file is found; in /tmp it is not. */
  lemma WhereItLeads(e: CleanupEntry)
    requires e == DUE || e == DUE.(cleaned := true)
    ensures BaseOf(TREE, ["tmp"], []) == Standing(["tmp"]) && Look(TREE, Standing(["tmp"]), e.localPath) == NotFound
  {
    assert ["tmp"] + ["v"] == ["tmp", "v"] && ["v"][0] == "v";
    assert Walk(TREE, ["tmp"], [], true, MAX_LINKS) == Found(["tmp"], Dir);
  }

  /** Up to the crash: captured in /home, transferred, confirmed. */
  lemma UpToTheCrash() returns (events: seq<Event>)
    ensures var s := After(TREE, events);
      && s.fs == TREE && s.pc == Idle && s.runs == map[] && s.ledgers == map[THE_OP := [DUE]]
      && s.captured.Keys == {THE_OP} && s.captured[THE_OP].parent == []
  {
    events := [];
    var s := After(TREE, events);
    OneMore(TREE, events, Launch(["home"])); events := events + [Launch(["home"])];
    OneMore(TREE, events, Act(GO_ON)); events := events + [Act(GO_ON)];   // no ledger to resume
    s := After(TREE, events);
    assert s.pc == Draining({}, false) && s.fs == TREE && s.captured == map[];
    OneMore(TREE, events, Act(GO_ON)); events := events + [Act(GO_ON)];   // no run to drain
    OneMore(TREE, events, Act(GO_ON)); events := events + [Act(GO_ON)];   // capture
    s := After(TREE, events);
    assert s.pc == Fresh(THE_OP, DirectSync) && s.ledgers == map[THE_OP := [THE_ENTRY]];
    OneMore(TREE, events, Act(GO_ON)); events := events + [Act(GO_ON)];   // transfer
    OneMore(TREE, events, Act(GO_ON)); events := events + [Act(GO_ON)];   // confirm
    s := After(TREE, events);
    assert AllConfirmed([THE_ENTRY]) == [DUE];
    assert s.ledgers == map[THE_OP := [DUE]];
    OneMore(TREE, events, Crash); events := events + [Crash];
  }

  /** Launched in /tmp, the client starts on the ledger that it finds. */
  lemma StartedElsewhere() returns (events: seq<Event>)
    ensures var s := After(TREE, events);
      && s.fs == TREE && s.cwd == ["tmp"] && s.runs == map[] && s.ledgers == map[THE_OP := [DUE]]
      && s.captured.Keys == {THE_OP} && s.captured[THE_OP].parent == []
      && s.pc == Cleaning(THE_OP, 0, false, Scan({}))
  {
    events := UpToTheCrash();
    OneMore(TREE, events, Launch(["tmp"])); events := events + [Launch(["tmp"])];
    var s := After(TREE, events);
    assert s.pc == Scanning({THE_OP});
    OneMore(TREE, events, Act(GO_ON)); events := events + [Act(GO_ON)];
    assert {THE_OP} - {THE_OP} == {};
  }

  /** Its one entry is not found there, and so taken for cleaned. */
  lemma TakenForCleaned() returns (events: seq<Event>)
    ensures var s := After(TREE, events);
      && s.fs == TREE && s.runs == map[] && s.ledgers == map[THE_OP := [DUE.(cleaned := true)]]
      && THE_OP in s.captured && s.pc == Cleaning(THE_OP, 1, false, Scan({}))
  {
    events := StartedElsewhere();
    var s := After(TREE, events);
    WhereItLeads(DUE);
    assert WorkOn(s, THE_OP) == Work(TREE, Standing(["tmp"]), [DUE]);
    assert Cleans(WorkOn(s, THE_OP), 0) && Torn(WorkOn(s, THE_OP), 0).fs == TREE;
    OneMore(TREE, events, Act(GO_ON)); events := events + [Act(GO_ON)];
    OneMore(TREE, events, Act(GO_ON)); events := events + [Act(GO_ON)];
    assert Mark([DUE], 0) == [DUE.(cleaned := true)];
  }

  /** The ledger is given up, and the captured file is still in its place. */
  lemma LaunchedElsewhere() returns (events: seq<Event>)
    ensures var s := After(TREE, events);
      THE_OP in s.captured && THE_OP !in s.ledgers && s.fs == TREE && ["home", "v"] in s.fs
  {
    events := TakenForCleaned();
    OneMore(TREE, events, Act(GO_ON)); events := events + [Act(GO_ON)];
    OneMore(TREE, events, Act(GO_ON)); events := events + [Act(GO_ON)];
  }
}

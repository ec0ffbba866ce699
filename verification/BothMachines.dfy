/** The client's machine and the servers' machines run side by side, and what holds when neither may invent
    what the other tells it. */
module BothMachines {
  import opened Records
  import opened SourceFiles
  import opened RunFiles
  import opened EndToEnd
  import Client = ClientProtocol
  import ClientTheorems
  import Server = RunProtocol
  import RunTheorems

  /** The client, and for every run what has happened to it on its server. */
  datatype Both = Both(client: Client.Client, servers: map<Client.Op, seq<Server.Event>>)

  datatype Event = AtClient(c: Client.Event) | AtServer(op: Client.Op, e: Server.Event)

  function Init(fs: Files): Both {
    Both(Client.Init(fs), map[])
  }

  /** A status that the run's server has now. */
  ghost predicate Readable(b: Both, op: Client.Op, st: RunStatus) {
    && op in b.servers && Client.Envelope(st, op)
    && var d := RunTheorems.After(op.nickname, op.runId, b.servers[op]).disk;
       exists phase :: phase in d.tree && d.tree[phase].status == Some(WellFormed(st))
  }

  /** What the client is told is what the server of the run it works on has, or nothing. */
  ghost function Truthful(b: Both, e: Client.Event): Client.Event {
    if e.Act? && e.choice.answer.Some? && !(b.client.pc.AtRun? && Readable(b, b.client.pc.op, e.choice.answer.value))
    then Client.Act(e.choice.(answer := None)) else e
  }

  /** Nothing is uploaded for a run but the manifest the client built for it. */
  predicate MayHappen(b: Both, op: Client.Op, e: Server.Event) {
    && op in b.servers && op in b.client.captured
    && (e.Upload? && e.inputs.manifest.Parsed? ==> e.inputs.manifest.value.entries == [b.client.captured[op].source])
  }

  /** A run has a server from when it is captured. */
  function WithServers(servers: map<Client.Op, seq<Server.Event>>, ops: set<Client.Op>): (r: map<Client.Op, seq<Server.Event>>)
    ensures r.Keys == servers.Keys + ops
    ensures forall op | op in r :: r[op] == if op in servers then servers[op] else []
  {
    map op | op in servers.Keys + ops :: if op in servers then servers[op] else []
  }

  ghost function Step(b: Both, e: Event): Both {
    match e
    case AtClient(c) =>
      var client := Client.Step(b.client, Truthful(b, c));
      Both(client, WithServers(b.servers, client.captured.Keys))
    case AtServer(op, c) =>
      if MayHappen(b, op, c) then b.(servers := b.servers[op := b.servers[op] + [c]]) else b
  }

  ghost function After(fs: Files, events: seq<Event>): Both
    decreases |events|
  {
    if events == [] then Init(fs) else Step(After(fs, events[..|events| - 1]), events[|events| - 1])
  }

  // ---- each side alone

  /** What the client has been through is a history of the client's own machine. */
  lemma {:induction false} ClientAlone(fs: Files, events: seq<Event>) returns (own: seq<Client.Event>)
    ensures After(fs, events).client == Client.After(fs, own)
    decreases |events|
  {
    if events == [] {
      own := [];
    } else {
      var init, last := events[..|events| - 1], events[|events| - 1];
      own := ClientAlone(fs, init);
      if last.AtClient? {
        var next := own + [Truthful(After(fs, init), last.c)];
        assert next[..|next| - 1] == own;
        own := next;
      }
    }
  }

  // ---- the two belong together

  lemma PublishedStays(st: RunStatus, history: seq<Server.Event>, e: Server.Event)
    requires PublishedIn(st, history)
    ensures PublishedIn(st, history + [e])
  {
    var n: nat :| n <= |history| && PublishedAt(st, history, n);
    assert (history + [e])[..n] == history[..n];
    assert PublishedAt(st, history + [e], n);
  }

  lemma ReadableIsPublished(b: Both, op: Client.Op, st: RunStatus)
    requires Readable(b, op, st)
    ensures PublishedIn(st, b.servers[op])
  {
    var h := b.servers[op];
    assert h[..|h|] == h && st.nickname == op.nickname && st.runId == op.runId;
    assert PublishedAt(st, h, |h|);
  }

  /** New runs may be captured, old ones stay as they are; and only this is learnt. */
  ghost predicate Learns(s: Client.Client, s': Client.Client, answer: Option<RunStatus>) {
    && (forall op | op in s.captured :: op in s'.captured && s'.captured[op] == s.captured[op])
    && (forall st | st in s'.told && st !in s.told :: answer == Some(st))
  }

  lemma RunLearns(s: Client.Client, c: Client.Choice, op: Client.Op, step: Client.RunStep, next: Client.Then)
    ensures Learns(s, Client.ActRun(s, c, op, step, next), c.answer)
  {}

  lemma ScanningLearns(s: Client.Client, c: Client.Choice, todo: set<Client.Op>)
    ensures Learns(s, Client.ActScanning(s, c, todo), None)
  {}

  lemma DrainingLearns(s: Client.Client, c: Client.Choice, todo: set<Client.Op>, failed: bool)
    ensures Learns(s, Client.ActDraining(s, c, todo, failed), None)
  {}

  lemma StartingLearns(s: Client.Client, c: Client.Choice)
    ensures Learns(s, Client.ActStarting(s, c), None)
  {}

  lemma FreshLearns(s: Client.Client, c: Client.Choice, op: Client.Op, stage: Client.FreshStep)
    ensures Learns(s, Client.ActFresh(s, c, op, stage), None)
  {}

  lemma CleaningLearns(s: Client.Client, op: Client.Op, k: nat, torn: bool, mode: Client.Mode)
    ensures Learns(s, Client.ActCleaning(s, op, k, torn, mode), None)
  {
    if op in s.ledgers && k >= 2 * |s.ledgers[op]| { assert Learns(s, Client.Finished(s, op, mode), None); }
  }

  lemma OthersLearn(s: Client.Client, c: Client.Choice)
    requires !s.pc.AtRun?
    ensures Learns(s, Client.Advance(s, c), None)
  {
    match s.pc
    case Scanning(todo) => ScanningLearns(s, c, todo);
    case Draining(todo, failed) => DrainingLearns(s, c, todo, failed);
    case Starting => StartingLearns(s, c);
    case Fresh(op, stage) => FreshLearns(s, c, op, stage);
    case Cleaning(op, k, torn, mode) => CleaningLearns(s, op, k, torn, mode);
    case _ =>
  }

  lemma ClientLearns(s: Client.Client, e: Client.Event)
    ensures Learns(s, Client.Step(s, e), if e.Act? && s.pc.AtRun? then e.choice.answer else None)
  {
    if e.Act? && s.pc.AtRun? {
      RunLearns(s, e.choice, s.pc.op, s.pc.step, s.pc.next);
    } else if e.Act? {
      OthersLearn(s, e.choice);
    }
  }

  lemma StepJoins(b: Both, e: Event)
    requires Joined(b.client, b.servers) && forall op | op in b.servers :: op in b.client.captured
    requires forall st, op | st in b.client.told && Client.Envelope(st, op) :: op in b.client.captured
    ensures var b' := Step(b, e);
      && Joined(b'.client, b'.servers) && (forall op | op in b'.servers :: op in b'.client.captured)
      && forall st, op | st in b'.client.told && Client.Envelope(st, op) :: op in b'.client.captured
  {
    match e
    case AtClient(c) =>
      ClientStepJoins(b, c);
    case AtServer(op, c) =>
      if MayHappen(b, op, c) {
        forall st | st in b.client.told && Client.Envelope(st, op) ensures PublishedIn(st, b.servers[op] + [c]) {
          PublishedStays(st, b.servers[op], c);
        }
      }
  }

  lemma ClientStepJoins(b: Both, c: Client.Event)
    requires Joined(b.client, b.servers) && forall op | op in b.servers :: op in b.client.captured
    requires forall st, op | st in b.client.told && Client.Envelope(st, op) :: op in b.client.captured
    ensures var b' := Step(b, AtClient(c));
      && Joined(b'.client, b'.servers) && (forall op | op in b'.servers :: op in b'.client.captured)
      && forall st, op | st in b'.client.told && Client.Envelope(st, op) :: op in b'.client.captured
  {
    var e := Truthful(b, c);
    var s, s' := b.client, Client.Step(b.client, e);
    ClientLearns(s, e);
    forall st, op | st in s'.told && Client.Envelope(st, op)
      ensures op in s'.captured && op in b.servers && PublishedIn(st, b.servers[op])
    {
      if st !in s.told {
        assert op == s.pc.op;
        ReadableIsPublished(b, op, st);
      }
    }
  }

  lemma {:induction false} AlwaysJoined(fs: Files, events: seq<Event>)
    ensures var b := After(fs, events);
      && Joined(b.client, b.servers) && (forall op | op in b.servers :: op in b.client.captured)
      && forall st, op | st in b.client.told && Client.Envelope(st, op) :: op in b.client.captured
    decreases |events|
  {
    if events != [] {
      AlwaysJoined(fs, events[..|events| - 1]);
      StepJoins(After(fs, events[..|events| - 1]), events[|events| - 1]);
    }
  }

  /** Over any history of the client and all its runs' servers together: whatever the client's next step deletes
      is what the path of a captured entry leads to, and that entry was transferred directly, or the transform of
      its very run succeeded on what the client had staged, which names that entry or a directory above it. */
  lemma OnlyTransferredIsDeleted(fs: Files, events: seq<Event>, e: Event, p: Path)
    requires e.AtClient? ==> !e.c.Edit?
    ensures var b := After(fs, events);
      p in b.client.fs && p !in Step(b, e).client.fs ==>
        exists op, i: nat :: ClientTheorems.MayDelete(b.client, op, i, p) && Transferred(b.client, op, i, b.servers)
  {
    var b := After(fs, events);
    if e.AtClient? {
      var own := ClientAlone(fs, events);
      AlwaysJoined(fs, events);
      DeletedOnlyAfterTransfer(fs, own, Truthful(b, e.c), p, b.servers);
    }
  }
}

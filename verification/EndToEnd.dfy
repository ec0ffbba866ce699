/** Client and server together: what must have happened to a run on the server before the client deletes. */
module EndToEnd {
  import opened Records
  import opened SourceFiles
  import opened RunFiles
  import opened CleanupCrash
  import Client = ClientProtocol
  import ClientTheorems
  import Server = RunProtocol
  import RunTheorems

  // ---- a run's manifest is one that was uploaded

  ghost predicate ManifestKnown(d: Server.Disk, m: InputFile<Manifest>) {
    m == Absent || exists phase | phase in d.tree :: d.tree[phase].inputs.manifest == m
  }

  /** Every manifest afterwards was there before. */
  ghost predicate NoNewManifest(d: Server.Disk, d': Server.Disk) {
    forall phase | phase in d'.tree :: ManifestKnown(d, d'.tree[phase].inputs.manifest)
  }

  lemma OutsideBringsNone(d: Server.Disk, step: Server.OutsideStep)
    ensures NoNewManifest(d, Server.AdvanceOutside(d, step).disk)
  {}

  lemma ReadyBringsNone(d: Server.Disk, c: Server.Choice, step: Server.ReadyStep, via: Server.Caller, fd: Inode)
    ensures NoNewManifest(d, Server.AdvanceReady(d, c, step, via, fd).disk)
  {}

  lemma VisitBringsNone(d: Server.Disk, c: Server.Choice, step: Server.VisitStep, via: Server.Caller, fd: Inode)
    ensures NoNewManifest(d, Server.AdvanceVisit(d, c, step, via, fd).disk)
  {}

  lemma WorkBringsNone(d: Server.Disk, c: Server.Choice, step: Server.WorkStep, via: Server.Caller, fd: Inode)
    ensures NoNewManifest(d, Server.AdvanceWork(d, c, step, via, fd).disk)
  {}

  lemma ClosingBringsNone(d: Server.Disk, step: Server.ClosingStep, via: Server.Caller, fd: Inode)
    ensures NoNewManifest(d, Server.AdvanceClosing(d, step, via, fd).disk)
  {}

  lemma ActBringsNone(w: Server.World, p: Server.Pid, c: Server.Choice)
    requires p in w.procs
    ensures NoNewManifest(w.disk, Server.Advance(w, p, c).disk)
  {
    match w.procs[p]
    case Outside(step) => OutsideBringsNone(w.disk, step);
    case AtReady(step, via, fd) => ReadyBringsNone(w.disk, c, step, via, fd);
    case Visiting(step, via, fd) => VisitBringsNone(w.disk, c, step, via, fd);
    case Working(step, via, fd) => WorkBringsNone(w.disk, c, step, via, fd);
    case Closing(step, via, fd) => ClosingBringsNone(w.disk, step, via, fd);
    case _ =>
  }

  lemma OnlyUploadsBring(w: Server.World, e: Server.Event, phase: Phase)
    requires phase in Server.Step(w, e).disk.tree
    ensures var m := Server.Step(w, e).disk.tree[phase].inputs.manifest;
      ManifestKnown(w.disk, m) || (e.Upload? && e.inputs.manifest == m)
  {
    if e.Act? && e.pid in w.procs { ActBringsNone(w, e.pid, e.choice); }
  }

  /** What the client staged for a run is the only thing that was ever uploaded for it. */
  predicate Stages(history: seq<Server.Event>, source: ManifestEntry) {
    forall i | 0 <= i < |history| && history[i].Upload? && history[i].inputs.manifest.Parsed? ::
      history[i].inputs.manifest.value.entries == [source]
  }

  lemma {:induction false} ManifestWasStaged(nickname: string, runId: string, history: seq<Server.Event>, source: ManifestEntry, phase: Phase)
    requires Stages(history, source) && phase in RunTheorems.After(nickname, runId, history).disk.tree
    ensures var m := RunTheorems.After(nickname, runId, history).disk.tree[phase].inputs.manifest;
      m.Parsed? ==> m.value.entries == [source]
    decreases |history|
  {
    if history != [] {
      var init, last := history[..|history| - 1], history[|history| - 1];
      var w := RunTheorems.After(nickname, runId, init);
      OnlyUploadsBring(w, last, phase);
      forall i | 0 <= i < |init| ensures init[i] == history[i] {}
      forall q | q in w.disk.tree && w.disk.tree[q].inputs.manifest.Parsed?
        ensures w.disk.tree[q].inputs.manifest.value.entries == [source]
      {
        ManifestWasStaged(nickname, runId, init, source, q);
      }
    }
  }

  // ---- what a status says about its run

  /** At some point of the run's history this status was published. */
  ghost predicate PublishedIn(st: RunStatus, history: seq<Server.Event>) {
    exists n: nat | n <= |history| :: PublishedAt(st, history, n)
  }

  ghost predicate PublishedAt(st: RunStatus, history: seq<Server.Event>, n: nat)
    requires n <= |history|
  {
    var d := RunTheorems.After(st.nickname, st.runId, history[..n]).disk;
    exists phase :: phase in d.tree && d.tree[phase].status == Some(WellFormed(st))
  }

  /** In the run's history a transform was started with one plan, and succeeded. */
  ghost predicate Transformed(op: Client.Op, history: seq<Server.Event>) {
    exists n: nat | n <= |history| ::
      var d := RunTheorems.After(op.nickname, op.runId, history[..n]).disk; d.succeeded && d.starts != []
  }

  lemma ImportedMeansTransformed(op: Client.Op, st: RunStatus, history: seq<Server.Event>, source: ManifestEntry,
                                 ledger: Ledger, i: nat)
    requires Client.Envelope(st, op) && PublishedIn(st, history) && Stages(history, source)
    requires i < |ledger| && ConfirmedBy(ledger, st, i)
    ensures Transformed(op, history) && source.relativePath <= ledger[i].relativePath
  {
    var n: nat :| n <= |history| && PublishedAt(st, history, n);
    var d := RunTheorems.After(st.nickname, st.runId, history[..n]).disk;
    var phase :| phase in d.tree && d.tree[phase].status == Some(WellFormed(st));
    var named := NamedAbove(ledger, st, i);
    var entry :| entry in st.entries && entry.status == Imported && entry.relativePath == named.relativePath;
    RunTheorems.ImportedOnlyAfterSuccess(st.nickname, st.runId, history[..n], phase, entry);
    forall k | 0 <= k < n ensures history[..n][k] == history[k] {}
    ManifestWasStaged(st.nickname, st.runId, history[..n], source, phase);
  }

  /** The entry that a status marks: the ledger entry itself, or a directory entry above it. */
  lemma NamedAbove(ledger: Ledger, st: RunStatus, i: nat) returns (e: CleanupEntry)
    requires i < |ledger| && ConfirmedBy(ledger, st, i)
    ensures NamedImported(st, e) && e.relativePath <= ledger[i].relativePath
  {
    if NamedImported(st, ledger[i]) {
      e := ledger[i];
    } else {
      var j :| 0 <= j < |ledger| && ledger[j].kind == Directory && NamedImported(st, ledger[j])
        && ledger[j].relativePath < ledger[i].relativePath;
      e := ledger[j];
    }
  }

  // ---- both together

  /** One history on the server for each of the client's runs: nothing is uploaded for a run but the manifest
      the client built when it captured the source, and every status the client was given for a run was
      published there at some time. */
  ghost predicate Joined(s: Client.Client, histories: map<Client.Op, seq<Server.Event>>) {
    && (forall op | op in s.captured :: op in histories && Stages(histories[op], s.captured[op].source))
    && (forall st, op | st in s.told && op in s.captured && Client.Envelope(st, op) ::
          op in histories && PublishedIn(st, histories[op]))
  }

  /** Transferred directly; or named by what was staged, in a run whose transform succeeded. */
  ghost predicate Transferred(s: Client.Client, op: Client.Op, i: nat, histories: map<Client.Op, seq<Server.Event>>)
    requires op in s.captured && i < |s.captured[op].entries|
  {
    || op in s.synced
    || (op in histories && Transformed(op, histories[op])
        && s.captured[op].source.relativePath <= s.captured[op].entries[i].relativePath)
  }

  /** Over any history of the client and of its runs on the server: whatever the client deletes is what the path
      of a captured entry leads to, and that entry was transferred directly, or the transform of its very run
      succeeded on what the client had staged, which names that entry or a directory above it. */
  lemma DeletedOnlyAfterTransfer(fs: Files, events: seq<Client.Event>, e: Client.Event, p: Path,
                                 histories: map<Client.Op, seq<Server.Event>>)
    requires !e.Edit? && Joined(Client.After(fs, events), histories)
    ensures var s := Client.After(fs, events);
      p in s.fs && p !in Client.Step(s, e).fs ==>
        exists op, i: nat :: ClientTheorems.MayDelete(s, op, i, p) && Transferred(s, op, i, histories)
  {
    var s := Client.After(fs, events);
    if p in s.fs && p !in Client.Step(s, e).fs {
      ClientTheorems.DeletionAuthority(fs, events, e, p);
      var op, i: nat :| ClientTheorems.MayDelete(s, op, i, p);
      AuthorityIsTransfer(s, op, i, histories);
    }
  }

  lemma AuthorityIsTransfer(s: Client.Client, op: Client.Op, i: nat, histories: map<Client.Op, seq<Server.Event>>)
    requires Joined(s, histories) && op in s.captured && i < |s.captured[op].entries| && ClientTheorems.Authorised(s, op, i)
    ensures Transferred(s, op, i, histories)
  {
    if op !in s.synced {
      var st :| st in s.told && Client.Envelope(st, op) && ConfirmedBy(s.captured[op].entries, st, i);
      ImportedMeansTransformed(op, st, histories[op], s.captured[op].source, s.captured[op].entries, i);
    }
  }
}

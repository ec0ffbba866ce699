/** The files of one server run, and the decisions the server takes from reading them. */
module RunFiles {
  import opened Records

  /** The five phase directories of a work directory. */
  datatype Phase = Incoming | Ready | Processing | Done | Failed

  /** The order in which a run visits its phases. */
  function Rank(phase: Phase): nat {
    match phase
    case Incoming => 0
    case Ready => 1
    case Processing => 2
    case Done => 3
    case Failed => 3
  }

  type Inode = nat
  type Plan = string

  const PROTOCOL_VERSION: nat := 3

  datatype Lease = NoLease | BadLease | LeaseFor(protocol: nat)

  /** What parsing a version-stamped TOML file yields. */
  datatype InputFile<+T> = Absent | InvalidToml | WrongVersion | Unparsable | Parsed(value: T)

  datatype RunConfig = RunConfig(nickname: string, destination: string)

  datatype ManifestEntry = ManifestEntry(kind: EntryKind, localPath: Path, relativePath: Path)

  datatype Manifest = Manifest(nickname: string, runId: string, entries: seq<ManifestEntry>)

  datatype Inputs = Inputs(lease: Lease, runConfig: InputFile<RunConfig>, manifest: InputFile<Manifest>)

  const NO_INPUTS := Inputs(NoLease, Absent, Absent)

  datatype StatusFile = WellFormed(status: RunStatus) | MalformedStatus | ForeignStatus

  /** A run directory: its lock file, inputs, published files, temporary files and
      the parts that pruning removes (`bulky` stands for files/ and work/). */
  datatype Dir = Dir(
    lock: Option<Inode>,
    inputs: Inputs,
    status: Option<StatusFile>,
    statusTmp: Option<RunStatus>,
    plan: Option<Plan>,
    planTmp: Option<Plan>,
    bulky: bool)

  /** The phase directories in which the run currently has a directory. */
  type Tree = map<Phase, Dir>

  datatype Verdict = Compatible(config: RunConfig, manifest: Manifest) | Incompatible | Malformed

  /** `read_compatible_run_inputs`: lease protocol, then run.toml, then manifest.toml, then the envelope. */
  function ReadRunInputs(inputs: Inputs, nickname: string, runId: string): Verdict {
    if inputs.lease.BadLease? then Malformed
    else if inputs.lease.LeaseFor? && inputs.lease.protocol != PROTOCOL_VERSION then Incompatible
    else match inputs.runConfig
      case WrongVersion => Incompatible
      case Parsed(config) => (
        match inputs.manifest
        case WrongVersion => Incompatible
        case Parsed(manifest) =>
          if manifest.entries == [] || config.nickname != nickname || manifest.nickname != nickname || manifest.runId != runId
          then Malformed
          else Compatible(config, manifest)
        case _ => Malformed
      )
      case _ => Malformed
  }

  /** Reading from a phase path: a missing directory reads as missing files. */
  function InputsAt(tree: Tree, phase: Phase): Inputs {
    if phase in tree then tree[phase].inputs else NO_INPUTS
  }

  function TerminalPhase(state: RunState): Phase {
    if state == StateFailed then Failed else Done
  }

  /** A status that says the run as a whole failed before any entry was handled. */
  function FailureStatus(nickname: string, runId: string, error: string): RunStatus {
    RunStatus(nickname, runId, StateFailed, [], error)
  }

  /** The status published after the run's single entry was handled. */
  function EntryOutcome(nickname: string, runId: string, entry: ManifestEntry, success: bool): RunStatus {
    RunStatus(nickname, runId, if success then StateDone else StateFailed,
              [EntryStatus(entry.kind, entry.localPath, entry.relativePath, if success then Imported else NotImported)], "")
  }

  /** `prune_success_terminal`: status, run config, manifest and destination plan stay. */
  function Prune(dir: Dir): Dir {
    dir.(lock := None, inputs := dir.inputs.(lease := NoLease), statusTmp := None, planTmp := None, bulky := false)
  }

  function Unlock(dir: Dir): Dir {
    dir.(lock := None)
  }

  /** rename(2) of a run directory: run directories are never empty, so an existing target refuses it. */
  predicate CanRename(tree: Tree, src: Phase, dst: Phase) {
    src in tree && dst !in tree
  }

  function Rename(tree: Tree, src: Phase, dst: Phase): Tree
    requires CanRename(tree, src, dst)
  {
    (tree - {src})[dst := tree[src]]
  }

  datatype TerminalRead = NoTerminal | BadTerminal | Verified(phase: Phase, state: RunState)

  /** `verified_terminal_status`: done first, then failed; a directory without a trustworthy status is an error. */
  function VerifiedTerminalStatus(tree: Tree, nickname: string, runId: string): TerminalRead {
    if Done in tree then VerifyStatus(tree[Done], Done, nickname, runId)
    else if Failed in tree then VerifyStatus(tree[Failed], Failed, nickname, runId)
    else NoTerminal
  }

  function VerifyStatus(dir: Dir, phase: Phase, nickname: string, runId: string): TerminalRead {
    match dir.status
    case Some(WellFormed(s)) =>
      if s.nickname == nickname && s.runId == runId then Verified(phase, s.state) else BadTerminal
    case _ => BadTerminal
  }
}

/** Records that both programs exchange or store: run status files, manifest
    entries and the kinds they mention.  TOML text is modelled by its parsed value. */
module Records {

  datatype Option<+T> = None | Some(value: T)

  type Name = string

  /** A path as its list of components. */
  type Path = seq<Name>

  datatype EntryKind = Directory | RegularFile | Symlink

  /** `NotImported` is the source's `failed`, a name that a phase bears here. */
  datatype FileStatus = Imported | NotImported | Skipped

  datatype EntryStatus = EntryStatus(kind: EntryKind, localPath: Path, relativePath: Path, status: FileStatus)

  datatype RunState = StateDone | StatePartial | StateFailed

  datatype RunStatus = RunStatus(nickname: string, runId: string, state: RunState, entries: seq<EntryStatus>, error: string)
}

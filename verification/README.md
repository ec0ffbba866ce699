# A verified model of Purgery

Purgery moves files one way and survives crashes while doing so.  A client stages a source entry on a
server, the server runs a transform on it, and only then does the client delete the original.  This project
models the protocols behind that, over durable state, and proves what they keep in every history: any number
of server processes, crashes between any two file operations, garbage collection, and other programs editing
the source meanwhile.

`dafny verify dfyconfig.toml` checks all of it.

## What is where

| module | what it models |
|---|---|
| `Records`, `RunFiles` | the records both programs exchange, and the files of one server run with the decisions taken from reading them |
| `RunProtocol` | one run on the server as a state machine: every file operation of every process is one step, named after its place in `process.rs`, `phases.rs`, `recover.rs`; crashes, garbage collection and the uploading client are further events |
| `RunInvariant`, `RunTheorems` | the inductive invariant of that machine, and the theorems over all event sequences |
| `RunServer` | the same procedures as methods of a `Server` object that one process executes undisturbed, over the same files and the same invariant |
| `RunProgress` | the two accounts of the server agree: an undisturbed recovery in the machine ends where the sequential procedure does |
| `SourceFiles` | the client's source tree, path resolution through symlinks, and the ledger entries that say what may be deleted |
| `Cleanup`, `CleanupSurvivors`, `CleanupFinal`, `CleanupCrash`, `CleanupStart`, `CleanupLinks` | one cleanup pass: who survives it, what it leaves without symlinks in the way, when a crashed pass may be run again, what can be told of that from the tree and ledger it starts with, and inputs for which it goes wrong |
| `CleanupFile`, `CleanupCapture`, `CleanupCaptured` | the loops that perform the pass in place, the walk that makes the ledger, and the two together |
| `ClientProtocol`, `ClientTheorems`, `ClientRuns`, `ClientElsewhere` | the client's state directory as a state machine with launches from any working directory, crashes and foreign edits, its invariant and theorems; the draining of a run as one uninterrupted process does it; a launch from the wrong directory |
| `ClientProgress`, `ClientDrain`, `ClientCrashes` | relaunches in that machine: one run drained to the promised end, any number of runs resolved, any number of crashes on the way |
| `EndToEnd`, `BothMachines` | the client's history joined with one server history for each of its runs, and the machine of both that produces such histories |
| `Supervision` | the polling loop around the remote worker, against an environment that may answer anything |
| `PathText`, `Glob`, `PrefixSearch`, `DoubleStar`, `DoubleStarMeaning`, `DoubleStarExact`, `SplitPattern`, `SplitCover`, `Destination` | path text, the glob matcher, the choice of split roots, destination operands and targets |
| `GcRetention` | expiry and pruning of one run directory |
| `Shell`, `BoundedTail`, `Placeholders`, `NicknameText` | quoting for the remote shell, the bounded tail of a worker's output, placeholder expansion, nicknames |

## What is assumed

- Faults: a process may stop between any two operations.  A rename, and publishing a file by writing a
  temporary one and renaming it, are atomic.  Other file operations fail only for the reasons the code tests
  for: something is missing, something is in the way, a lock is busy.
- Run ids are fresh: a run is begun at most once, because `begin_run` checks and creates in separate steps
  (`crates/purgery-server/src/phases.rs:553-644`).
- Garbage collection of one run is one step, because its lock probe and its removal are separate
  (`crates/purgery-server/src/gc.rs:459-498`).  So is pruning.
- The input files of a run are read together; after `finish_run` nobody writes them.  `finish_run` itself is
  one step.
- All server processes give the same verdict on the versions a run was written with.
- `validate_transform_run` and the checks of the staged entry are arbitrary outcomes; `prepare_run`,
  `heartbeat_run`, `run_state` and `read_run_status` are not part of this model.
- One client process works on a state directory at a time.  Checking a file's identity and unlinking it, or
  checking a directory's children and removing it, is one step, and finds the operand's directory once.
- An operand's directory part and each path below it may pass forty symlinks each; a kernel counts them
  together.  The names in a ledger are below the operand's directory; an operand that ends in `/.` or `/..` is
  not part of this model.
- A look at the worker may also answer that the look itself failed, for which the supervising loop has a
  branch; `try_wait` as it stands never answers so (`crates/purgery-client/src/runner.rs:262-265`).
- A content hash stands for the content; ids, nicknames and TOML documents are values.

## Where the code falls short of what it or its documentation says

Each of these comes with an input and with a condition under which the code does what it says, exact unless
"Left out" says otherwise.

- Only what was captured is deleted.  When a captured directory has since been replaced by a symlink, lstat,
  hashing and unlink follow it (`crates/purgery-client/src/cleanup.rs:351-416`), and a file that no entry names
  is deleted: `CleanupLinks.RenamedBehindALink` (capture `a/f`, rename `a` to `b`, link `a` to `b`).
  `CleanupSurvivors.SurvivorsExactly` and `CleanupCaptured.CapturedSurvivors` say exactly when a pass spares
  what it should, `ClientTheorems.DeletesWhatWasCaptured` the same of one deletion: no symlink above the place.
  `CleanupStart.HarmlessFromStart` is what can be told beforehand: every confirmed entry below a symlink leads
  nowhere, to something it does not describe, or to a place that is due to go.
- A crashed cleanup can be run again.  Through symlinks a second visit can clean what the first could not:
  `CleanupLinks.ChainedRerunDiffers`.  `CleanupCrash.RerunsExactly` gives the condition, and
  `CleanupCrash.PlainIsStable` says that it holds without symlinks above tracked places, and
  `CleanupStart.StableFromStart` that it holds when every confirmed entry below one leads nowhere.
- A pending cleanup can be resumed by any later call.  A relative operand is kept as typed
  (`crates/purgery-client/src/classify.rs:83-123`) and looked up from the next call's working directory; from
  another one everything reads as gone, and the ledger is retired with the source still there:
  `ClientElsewhere.LaunchedElsewhere`, and for every ledger `ClientRuns.NowhereForgets`.  Whenever the operand
  still leads to the directory it led to when captured, a flag means what it says
  (`ClientTheorems.CleanedIsGone`); an absolute operand or the same working directory suffices
  (`ClientTheorems.SameOperandSameBase`).
- No leaked worker.  `RemoteCommandHandle::try_wait` is documented to return an error when waitpid fails
  (`crates/purgery-client/src/runner.rs:183-184`), but reports a transport failure instead (262-265), and the
  supervising loop may start another worker while the first is not known to be gone:
  `Supervision.WaitpidErrorLosesAWorker`.  Which errors an operating system really gives there is not part of
  this model.  By `Supervision.Supervisor.Drive` a worker is lost exactly when, in some round, one is held and
  a waitpid on it that the loop asks for fails.
- Complete in one pass: a device, socket or pipe below the source is not recorded, so the directories above
  it stay.  `CleanupCaptured.CompleteInOnePass` gives the exact condition.
- Split entries are reported with their kind.  A source that matches is reported as a directory even when it
  is a file (`crates/purgery-client/src/split.rs:186-192`): `SplitPattern.FileReportedAsDirectory`, and
  `SplitCover.DiscoverSplitEntries` for when every kind is right.
- "Only entries marked imported" are confirmed (`docs/design/crash-safety-and-idempotence.md:12`).  The code
  also confirms what lies below a ledger directory that the status marks: `CleanupCrash.ConfirmedUnmarked`.
  `CleanupCrash.ConfirmedBeyondStatus` says exactly when, and `ClientTheorems.DeletionAuthority` is stated with
  the code's rule.
- `**` "matches across directory boundaries" (`docs/operations.md:104`), "anything including /"
  (`crates/purgery-client/src/split.rs:289-291`).  `*/**/x` refuses `a/b/x`, `**.txt` refuses `foo.txt`, `a**b`
  refuses `axb`, and `a/**/b/**/c` refuses `a/b/c` (`DoubleStarExact.StarSlashForInstance`, `SuffixForInstance`,
  `InfixForInstance`, `TwoForInstance`); `r/a**a/c` even selects `r/a/c`, which it does not mean
  (`DoubleStarExact.TooFarBackForInstance`).  For patterns with one `**` that has no slash before it or one
  directly before it, and for patterns with any number of `**` that are whole components,
  `SplitPattern.PromiseKeptExactly` says which select just what they mean: no star stands directly before a
  slash before the first `**`; nothing lies between two of them; and behind the last one comes nothing, or a
  slash if the `**` begins a component, or else question marks and a star.

## Model

| member | source | states |
|---|---|---|
| RunTheorems.RunKeepsInv | crates/purgery-server/src/process.rs:520-811 | every event sequence -- any interleaving of processors, crashes, garbage collection, uploads -- keeps the invariant on phase directories, lock files, lock holders and what each process may rely on |
| RunTheorems.MutualExclusion | crates/purgery-server/src/phases.rs:52-92 | at most one process ever holds the lock of the directory the run currently has |
| RunTheorems.OnlyTheOwnerActs | crates/purgery-server/src/process.rs:520-655 | a process that does not hold that lock -- in particular one whose flock succeeded on a descriptor opened before the directory was renamed away -- changes nothing in any phase; the one exception is creating the empty lock file |
| RunTheorems.StatusBeforeTerminal | crates/purgery-server/src/phases.rs:362-414 | in every reachable state a directory in done/ or failed/ has a status of this very run whose state belongs to that phase, and reading it back verifies |
| RunTheorems.DeadBranches | crates/purgery-server/src/process.rs:1148-1171 | the bail of `terminal_response`, the incompatible verdict after a claim, and moving an unpublished run to failed/ are unreachable |
| RunTheorems.IrrevocableOutcome | crates/purgery-server/src/recover.rs:57-209 | once a status is published in processing/, no later history starts a transform, changes the status, or shows the run anywhere but in processing/ or in the phase that status implies |
| RunTheorems.OnePlan | crates/purgery-server/src/process.rs:232-285 | all transforms ever started for a run were given one and the same destination plan |
| RunTheorems.OnePhase | crates/purgery-server/src/process.rs:560-583 | the run is in at most one phase directory at all times |
| RunTheorems.PhasesMoveForward | crates/purgery-server/src/phases.rs:646-755 | between any two moments of a history the run stays in its phase, is in a later one, or has been collected and never comes back |
| RunTheorems.ImportedOnlyAfterSuccess | crates/purgery-server/src/process.rs:287-421 | a published status marks an entry imported only if it is the manifest's entry and a transform of this run was started and succeeded |
| RunInvariant.StrangerKeepsPlace | crates/purgery-server/src/phases.rs:52-92 | whatever the lock holder does to its directory, what any other process relies on stays true |
| RunProgress.RecoveryConcludes | crates/purgery-server/src/process.rs:1021-1110 | however a run was abandoned in processing/, with its lock free, the steps of one undisturbed recovery take it to the terminal phase of the status it had published, or else of the outcome of replaying it with the plan it had published, and give the lock back |
| RunProgress.RecoveryEnds | crates/purgery-server/src/recover.rs:57-209 | under the lock the steps end with what the sequential procedure promises: same status, same phase, same transform started or none |
| RunServer.ReachableIsServable | crates/purgery-server/src/process.rs:1112-1146 | every state the protocol can reach is one the sequential procedures below accept |
| RunServer.Server.TryLockExistingDir | crates/purgery-server/src/phases.rs:52-92 | missing directory, busy lock, or the lock acquired, with the lock file created when absent and nothing else changed |
| RunServer.Server.ClaimReadyRun | crates/purgery-server/src/process.rs:520-594 | for each state of the run and each verdict on its inputs: who is told what, and whether it moved to processing/, to failed/ with a failure status, or stayed |
| RunServer.Server.HandleMalformedReady | crates/purgery-server/src/process.rs:596-655 | a malformed ready run ends in failed/ with a published failure status, and nowhere else |
| RunServer.Server.RecheckState | crates/purgery-server/src/process.rs:657-681 | whichever answer is given about a ready run that vanished, the run is in that phase and in no other, and "already terminal" is given exactly when a trustworthy status can be read |
| RunServer.Server.WriteRunFailure | crates/purgery-server/src/phases.rs:362-414 | a processing run ends in failed/ with that failure; otherwise nothing happens |
| RunServer.Server.FinalizeProcessingRun | crates/purgery-server/src/phases.rs:479-526 | the run moves to the phase its status implies, pruned when done |
| RunServer.Server.LoadOrResolvePlan | crates/purgery-server/src/process.rs:232-285 | a published plan is reused whatever the destination resolves to now; a new one is published before it is used |
| RunServer.Server.ProcessProcessingRun | crates/purgery-server/src/process.rs:683-811 | the status published, the phase it ends in, and whether a transform was started, as a function of the staged files and the outside influences |
| RunServer.Server.RecoverOrProcess | crates/purgery-server/src/recover.rs:57-209 | an abandoned run with a published status ends as that status says without another transform; without one it is replayed from its staged files |
| RunServer.Server.RecoverProcessingRunIfUnlocked | crates/purgery-server/src/process.rs:1021-1110 | the same under the lock; a locked or missing run is left alone |
| RunServer.Server.TerminalResponse | crates/purgery-server/src/process.rs:1148-1171 | a terminal run is reported with its verified phase and state |
| RunServer.Server.ProcessRunTarget | crates/purgery-server/src/process.rs:1173-1304 | for every state of the run: the response, and the run's end in the phase of the status that was decided or comes out of processing, or no change at all |
| RunServer.Server.FinishRun | crates/purgery-server/src/phases.rs:646-755 | accepted exactly with a current lease; repeated after acceptance it succeeds and changes nothing |
| SourceFiles.LeadsStraightIff | crates/purgery-client/src/cleanup.rs:351-416 | in a tree where every entry lies in a directory, a path that leads to something leads to the place it names exactly when no symlink lies above that place |
| CleanupSurvivors.SurvivorsExactly | crates/purgery-client/src/cleanup.rs:251-317 | for any well-formed ledger and any tree, symlinks anywhere: a pass spares exactly what it should if and only if everything it removes through a symlink was due to go anyway |
| CleanupSurvivors.PassSurvivors | crates/purgery-client/src/cleanup.rs:251-317 | then, path by path: a tracked file or symlink goes exactly when its kind and identity match, a tracked directory exactly when nothing below it survives, anything else stays as it is |
| CleanupSurvivors.NeverBack | crates/purgery-client/src/cleanup.rs:264-316 | what one iteration removed was there at first and is gone at the end |
| CleanupLinks.RenamedBehindALink | crates/purgery-client/src/cleanup.rs:351-416 | a captured directory renamed and replaced by a symlink to its new name: a file is removed that no entry names |
| CleanupFinal.PassIsFinal | crates/purgery-client/src/cleanup.rs:251-317 | without symlinks above tracked places one pass of the two loops equals a description without iterations: who survives on disk, which flags are set |
| CleanupCrash.RerunsExactly | crates/purgery-client/src/cleanup.rs:264-316 | stopping after any iteration, or between a deletion and its ledger write, and running the pass again always gives the same tree and ledger as one uninterrupted pass if and only if no visit, made again later, would clean its entry |
| CleanupCrash.PlainIsStable | crates/purgery-client/src/cleanup.rs:264-316 | that is so without symlinks above tracked places |
| CleanupCrash.CrashRefinement | crates/purgery-client/src/cleanup.rs:264-316 | so there a stopped and repeated pass equals an uninterrupted one |
| CleanupCrash.RerunsAgainAndAgain | crates/purgery-client/src/cleanup.rs:264-316 | and under the exact condition that holds for any number of stops, each anywhere in the pass begun anew |
| CleanupStart.HarmlessFromStart | crates/purgery-client/src/cleanup.rs:351-416 | if in the tree and ledger before the pass every confirmed entry below a symlink leads nowhere, to something it does not describe, or to a place that is due to go, the pass spares exactly what it should |
| CleanupStart.StableFromStart | crates/purgery-client/src/cleanup.rs:264-316 | if every confirmed entry below a symlink leads nowhere, the pass may be stopped anywhere and run again |
| CleanupStart.LessIsFound | crates/purgery-client/src/cleanup.rs:351-416 | in a tree from which something was removed a path leads to where it led before, or nowhere |
| CleanupLinks.ChainedRerunDiffers | crates/purgery-client/src/cleanup.rs:264-316 | a well-formed ledger and a tree with symlinks for which it does not |
| CleanupCrash.ReconfirmAndResume | crates/purgery-client/src/cleanup.rs:70-127 | confirming again with the same status before resuming changes nothing about that |
| CleanupCrash.ConfirmedUnmarked | crates/purgery-client/src/cleanup.rs:70-127 | a ledger and a status that does not name an entry which is confirmed all the same |
| CleanupCrash.ConfirmedBeyondStatus | crates/purgery-client/src/cleanup.rs:94-118 | some entry is confirmed that the status does not mark if and only if an unmarked entry lies below a marked directory of the ledger |
| CleanupFile.CleanupStateFile.TryCleanEntry | crates/purgery-client/src/cleanup.rs:351-416 | true when the path leads nowhere, and when it leads, through whatever symlinks, to what the entry describes, which is removed from where it is; false, removing nothing, otherwise |
| CleanupFile.CleanupStateFile.ProcessCleanupStateFile | crates/purgery-client/src/cleanup.rs:251-317 | the in-place loops perform exactly the pass, and report Complete exactly when every entry is cleaned |
| CleanupFile.CleanupStateFile.ConfirmAllImports | crates/purgery-client/src/cleanup.rs:43-68 | every entry confirmed, nothing else changed |
| CleanupFile.CleanupStateFile.ConfirmImportsFromStatus | crates/purgery-client/src/cleanup.rs:70-127 | the two in-place passes confirm exactly the entries that the status marks or that lie below a ledger directory it marks |
| CleanupFile.AboveIsConfirmed | crates/purgery-client/src/cleanup.rs:94-118 | propagating through the set of confirmed directories is the same as looking for a marked ledger directory above |
| CleanupCapture.CaptureCleanupIdentity | crates/purgery-client/src/classify.rs:217-368 | for any walk order, one unconfirmed entry per recorded path with its present identity, children before parents, special files skipped |
| CleanupCaptured.CapturedSurvivors | crates/purgery-client/src/classify.rs:270-368 | any tree captured and confirmed, any edits since: one pass removes exactly the captured files and symlinks that are what they were and the captured directories below which nothing survives, if and only if what it removes through symlinks was due to go anyway |
| CleanupCaptured.NoLinkNoHarm | crates/purgery-client/src/cleanup.rs:351-416 | which it is when no symlink lies above a place that was captured |
| CleanupCaptured.UneditedSurvivors | crates/purgery-client/src/cleanup.rs:421-459 | with no edits exactly the special files and the directories above them survive |
| CleanupCaptured.CompleteInOnePass | crates/purgery-client/src/cleanup.rs:310-316 | with no edits one pass is Complete exactly when the source holds no device, socket or pipe; then the source is gone and nothing else is |
| ClientTheorems.AlwaysInv | crates/purgery-client/src/run.rs:1553-1820 | every sequence of launches from any directory, steps, crashes and foreign edits keeps the client's invariant |
| ClientTheorems.DeletionAuthority | crates/purgery-client/src/cleanup.rs:351-416 | in every history, whatever the client deletes is where the path of a captured entry leads from the present working directory, it is at that moment what was captured (or an empty directory), and either a direct transfer of it succeeded or a status of that very run marks it or a ledger directory above it imported |
| ClientTheorems.DeletesWhatWasCaptured | crates/purgery-client/src/cleanup.rs:351-416 | as long as the operand leads to the directory it led to when captured, that is the captured place itself if and only if no symlink lies above it |
| ClientTheorems.CleanedIsGone | crates/purgery-client/src/cleanup.rs:354-358 | and then the captured place of an entry is empty after the visit that flags it |
| ClientTheorems.SameOperandSameBase | crates/purgery-client/src/classify.rs:83-123 | an absolute operand, or the same working directory, leads to the same directory again while it is there under that name |
| ClientElsewhere.LaunchedElsewhere | crates/purgery-client/src/run.rs:1553-1564 | a relative operand, a crash and a launch from another directory: the ledger is retired with the source untouched |
| ClientRuns.NowhereForgets | crates/purgery-client/src/cleanup.rs:354-358 | where the operand leads nowhere, a pass flags exactly the confirmed entries and removes nothing |
| ClientTheorems.OnlyDeletes | crates/purgery-client/src/cleanup.rs:251-317 | the client never creates or alters anything in the source tree |
| ClientTheorems.TwoFileOrdering | crates/purgery-client/src/run.rs:1727-1813 | in every crash state a run before CleanupComplete still has its cleanup ledger, and one at TerminalStatusSeen has a stored status of that very run |
| ClientTheorems.DrainNeverBails | crates/purgery-client/src/run.rs:1233-1316 | the "missing or corrupt" bail, the foreign stored status and the re-read without a stored status are never reached, although pending cleanups are resumed first |
| ClientTheorems.RetiredOnlyWhenCleaned | crates/purgery-client/src/cleanup.rs:189-208 | a ledger is removed only when all of it is cleaned and its run, if persisted, is past needing it; every entry of a ledger that is gone had authority to go |
| ClientTheorems.CleaningStepOk | crates/purgery-client/src/cleanup.rs:264-316 | one deletion or ledger write keeps both files of its operation in order |
| ClientTheorems.RunStepOk | crates/purgery-client/src/run.rs:1181-1285 | one step of draining or finishing a run keeps both files of the run in order |
| ClientRuns.StateDir.FinishCleanupCompleteResume | crates/purgery-client/src/run.rs:1130-1150 | finishing locally: one more pass, the ledger retired exactly when complete, the run state removed |
| ClientRuns.StateDir.ProcessCleanupFromStatus | crates/purgery-client/src/run.rs:1291-1339 | confirm, one pass, retire when complete, remove the run state; without a ledger an error and no change |
| ClientRuns.StateDir.DrainOne | crates/purgery-client/src/run.rs:1154-1287 | from each persisted phase and each behaviour of the server: resolved with exactly one confirmed pass, or stopped with source and ledgers untouched |
| ClientRuns.ResumeEqualsUninterrupted | crates/purgery-client/src/run.rs:1561-1564 | a sync stopped anywhere in its cleanup and resumed from where its operand means the same -- pending cleanups first, then the run -- leaves the same tree and ledger as one never stopped, provided no visit, made again later, would clean its entry |
| ClientRuns.PlainResumes | crates/purgery-client/src/run.rs:1561-1564 | which is so when no symlink lies above a tracked place |
| ClientProgress.RelaunchDrains | crates/purgery-client/src/run.rs:1019-1128 | after any history that stored a status, a launch whose steps go undisturbed ends in the state machine with that tree and ledger, the ledger retired when complete and the run resolved |
| ClientDrain.RelaunchResolvesEverything | crates/purgery-client/src/run.rs:1019-1287 | after any history, with any number of pending ledgers and of runs in whatever phase: launched anywhere, with every call succeeding and every server answering, the client comes to the point of starting something new and has resolved all its runs |
| ClientCrashes.CrashesDoNotMatter | crates/purgery-client/src/run.rs:1553-1564 | however often the client crashes from a pending cleanup on, wherever, and is launched again in the same directory: as long as the ledger is there a pass over it gives the tree and ledger of an uninterrupted one, and when it is gone the tree is that one |
| ClientProgress.PlainIsSteady | crates/purgery-client/src/classify.rs:83-123 | meanwhile the operand keeps its meaning, if its directory is what it says and no symlink lies above a tracked place |
| EndToEnd.ManifestWasStaged | crates/purgery-server/src/process.rs:683-811 | in every history of a run the manifest read in any phase is what the client staged |
| EndToEnd.DeletedOnlyAfterTransfer | crates/purgery-client/src/run.rs:1613-1820 | over any history of the client, joined with one server history for each of its runs that was given what the client staged and published what it read: what the client deletes was transferred directly, or a transform of its run succeeded and the staged source is that entry or a directory above it |
| BothMachines.AlwaysJoined | crates/purgery-client/src/run.rs:1613-1820 | client and servers run side by side, where only the manifest that the client built is uploaded and the client reads only what the run's server has: their histories always belong together as that theorem asks |
| BothMachines.OnlyTransferredIsDeleted | crates/purgery-client/src/run.rs:1613-1820 | so in every history of both, whatever the client deletes was transferred directly, or a transform of its run succeeded on what was staged, which is that entry or a directory above it |
| Supervision.Supervisor.Drive | crates/purgery-client/src/run.rs:302-626 | for any rounds of answers: Ok carries a terminal answer; on return every worker is exited, reaped or lost; one is lost if and only if in some round a worker is held and a waitpid that the loop asks for fails; still waiting means a worker is held or somebody else is processing; the no-progress error comes exactly at the fourth equal claim observation |
| Supervision.Supervisor.OneRound | crates/purgery-client/src/run.rs:319-625 | one turn: which answer it goes on with, when it fails and why, what becomes of the worker, and exactly when it is lost |
| Supervision.Supervisor.HandleProcessRunSuccess | crates/purgery-client/src/run.rs:765-829 | when a worker's claim is confirmed, contradicted or left open by the second look |
| Supervision.GivesUpOnTheFourth | crates/purgery-client/src/run.rs:663-689 | over any rounds, the loop ends for lack of progress exactly when the last four claims it noted are equal |
| Supervision.SomeLossIs | crates/purgery-client/src/run.rs:302-626 | losing a worker at some point is losing one in a round that can be named |
| Supervision.Supervisor.FinishWorkerAfterTerminal | crates/purgery-client/src/run.rs:701-761 | after a terminal answer no worker is kept, and it is lost exactly when the wait in the grace period fails, or it is still there and the wait after the kill fails |
| Supervision.Supervisor.TerminateWorkerOnError | crates/purgery-client/src/run.rs:884-888 | before an error no worker is kept, and it is lost exactly when the wait after the kill fails |
| Supervision.NoProgressTracker.Advance | crates/purgery-client/src/run.rs:663-689 | progress is denied exactly when the last four observations are equal |
| Supervision.RepeatsIsTheEqualSuffix | crates/purgery-client/src/run.rs:678-688 | the count is the length of the run of equal observations at the end |
| Supervision.AtMostOneWorker | crates/purgery-client/src/run.rs:523-600 | at every moment at most one worker is not known to be gone besides those lost to a failed waitpid |
| Supervision.SpawnRestsOnFreshAnswer | crates/purgery-client/src/run.rs:523-600 | every worker is started right after an answer that says ready, or processing and idle, given when no earlier worker was left |
| Supervision.NothingStartsAfterTerminal | crates/purgery-client/src/run.rs:346-355 | after a final answer nothing is asked or started |
| Supervision.WaitpidErrorLosesAWorker | crates/purgery-client/src/runner.rs:262-265 | a failed waitpid can leave two workers not known to be gone |
| Glob.SimpleGlob | crates/purgery-client/src/split.rs:478-576 | without brackets and without "**" it accepts exactly the matching paths, and it ends |
| Glob.AcceptsIsMatches | crates/purgery-client/src/split.rs:478-576 | matching means: the path can be cut into one piece per pattern character, a slash-free run for a star, one byte that is no slash for a question mark, the byte itself otherwise |
| Glob.MatchesItself | crates/purgery-client/src/split.rs:479-481 | the shortcut for equal strings accepts nothing that does not match |
| PrefixSearch.FirstMatchLen | crates/purgery-client/src/split.rs:394-476 | what it finds is a prefix that matches; it finds nothing when a star stands directly before a slash, and otherwise finds one exactly when there is one |
| PrefixSearch.FoundIsLeast | crates/purgery-client/src/split.rs:394-476 | for a pattern that does not end in a star no shorter prefix matches, not even from further right in the same component |
| PrefixSearch.OnePrefix | crates/purgery-client/src/split.rs:394-476 | a pattern that ends in a slash matches one prefix at most, so taking the first loses nothing |
| DoubleStar.LastSegment | crates/purgery-client/src/split.rs:344-371 | the backward search finds a suffix exactly when one at a later slash boundary matches, or the one it falls back to: where it started, or, when a slash lies further right, the component that holds that place; from a boundary that is any suffix at a boundary |
| DoubleStar.MiddleSegment | crates/purgery-client/src/split.rs:372-388 | a middle segment that ends in a slash is never found in a path that does not end in one |
| DoubleStar.GlobMatch | crates/purgery-client/src/split.rs:292-392 | decided for every pattern without brackets, by what the searches for its first, middle and last segments find; nothing is accepted when a star stands directly before a slash in any segment but the last, or when a middle one ends in a slash and the path does not |
| DoubleStarExact.KeptExactly | crates/purgery-client/src/split.rs:289-392 | a pattern with one "**" that has no slash or just a slash before it, or with any number of whole-component ones, accepts on every path just what it means if and only if no star stands directly before a slash before the first "**", nothing lies between two of them, and behind the last comes nothing, a slash if it begins a component, or else question marks and a star |
| DoubleStarMeaning.SingleKeeps | crates/purgery-client/src/split.rs:292-392 | the half for one "**": what the matcher finds on a path is what the cut at "**" means there |
| DoubleStarMeaning.WholeKeeps | crates/purgery-client/src/split.rs:292-392 | the half for whole components |
| DoubleStarExact.Broken | crates/purgery-client/src/split.rs:292-392 | the other half: for every other such pattern a path on which meaning and finding differ, without a slash if the pattern has none |
| DoubleStarExact.LiteralApart | crates/purgery-client/src/split.rs:344-371 | a "**" with literal text on both sides never stands for text that leaves the two in one component |
| DoubleStarExact.BetweenTwo | crates/purgery-client/src/split.rs:372-388 | anything between two whole-component "**" is refused, even in the pattern's own text |
| DoubleStarExact.TooFarBack | crates/purgery-client/src/split.rs:344-371 | a "**" within a component, with a slash further left: text that the two parts would have to share is accepted |
| DoubleStarExact.SuffixForInstance | crates/purgery-client/src/split.rs:344-371 | `**.txt` means `foo.txt` and refuses it |
| DoubleStarExact.InfixForInstance | crates/purgery-client/src/split.rs:344-371 | `a**b` means `axb` and refuses it |
| DoubleStarExact.TwoForInstance | crates/purgery-client/src/split.rs:372-388 | `a/**/b/**/c` means `a/b/c` and refuses it |
| DoubleStarExact.TooFarBackForInstance | crates/purgery-client/src/split.rs:344-371 | `r/a**a/c` does not mean `r/a/c` and accepts it |
| DoubleStarExact.StarSlashForInstance | crates/purgery-client/src/split.rs:394-476 | `*/**/x` means `a/b/x` and refuses it |
| DoubleStarExact.CutAt | crates/purgery-client/src/split.rs:301-320 | cutting a pattern at its first "**" gives the text before it, and then what cutting the rest gives |
| SplitPattern.IsMatch | crates/purgery-client/src/split.rs:242-285 | for every pattern as typed, without brackets: an anchored or slashed one is held against the path, any other against each component; directory patterns match neither files nor the source itself |
| SplitPattern.PromiseKeptExactly | crates/purgery-client/src/split.rs:242-392 | the exact condition of `DoubleStarExact.KeptExactly`, for patterns as typed and the entries they select |
| SplitPattern.DiscoverByPattern | crates/purgery-client/src/split.rs:127-215 | discovery with the matcher's own answers, for every pattern without brackets: the source alone when the pattern selects it; otherwise, in path order, exactly the selected entries without a selected ancestor |
| SplitPattern.FileReportedAsDirectory | crates/purgery-client/src/split.rs:186-192 | a source that is a file is selected by `*` |
| SplitCover.DiscoverSplitEntries | crates/purgery-client/src/split.rs:127-215 | the source alone when it matches; otherwise, in path order, exactly the matched entries without a matched ancestor; every entry is reported as what it is if and only if the source does not match or is a directory |
| SplitCover.ResultCovers | crates/purgery-client/src/split.rs:184-209 | so the result names exactly the minimal elements of all that matched, the source included |
| SplitCover.RootsAreApart | crates/purgery-client/src/split.rs:194-208 | no root lies above another |
| SplitCover.ExactlyOneRoot | crates/purgery-client/src/split.rs:194-208 | every matched path lies at or under exactly one root |
| SplitCover.WalkOrderDoesNotMatter | crates/purgery-client/src/split.rs:211-214 | two walks over the same entries give the same list |
| Destination.NewDestinationPath | crates/purgery-core/src/path.rs:303-351 | which operands are refused, and the normalised path and intent of the others |
| Destination.NormalizeRelative | crates/purgery-core/src/path.rs:395-413 | which relative paths are refused, and the joined components of the others |
| Destination.ParsingKeeps | crates/purgery-core/src/path.rs:303-351 | parsing keeps the named components and absoluteness, and parsing the normalised path again gives it back |
| Destination.NormalizingAgain | crates/purgery-core/src/path.rs:395-413 | normalising is idempotent and keeps the named components |
| Destination.NothingNamedIsForced | crates/purgery-core/src/path.rs:308-320 | an operand that names nothing always forces a directory |
| Destination.ResolutionStaysInside | crates/purgery-core/src/path.rs:495-553 | a resolved target is the destination itself or the entry's place in it, its directory is what lies above it, and the missing-parent error never occurs |
| Destination.SplitMirrors | crates/purgery-client/src/split.rs:222-240 | the operand made from the base and a root's suffix parses whenever the base does, and its target is the base followed by the root's path below the source |
| Destination.DistinctRootsDistinctTargets | crates/purgery-client/src/split.rs:222-240 | distinct roots get distinct targets, all of them strictly inside the base |
| PathText.ComponentsAppend | crates/purgery-core/src/path.rs:322-331 | joining two texts with a slash joins their components |
| PathText.ComponentsOfJoin | crates/purgery-core/src/path.rs:333-345 | joining components and taking them apart again gives them back |
| GcRetention.Collector.CollectRun | crates/purgery-server/src/gc.rs:236-259 | removed, pruned or left, for each phase |
| GcRetention.Collector.PruneSuccessTerminal | crates/purgery-server/src/gc.rs:566-586 | exactly the prunable entries go, and the directory's modification time moves only if something went |
| GcRetention.PruningKeepsRecords | crates/purgery-server/src/gc.rs:566-586 | status, run configuration, manifest and destination plan are never pruned, and what stays is unchanged |
| GcRetention.SurvivesExactlyUntilExpiry | crates/purgery-server/src/gc.rs:21-137 | over any passes in any phase, a run is still there exactly when every pass came before the expiry it had at first or met its processing lock held |
| GcRetention.DoneRetention | crates/purgery-server/src/gc.rs:500-564 | a validly finished run survives until the saturating sum of its status's modification time and the retention, however often it was pruned |
| GcRetention.LeaseRetention | crates/purgery-server/src/gc.rs:301-457 | an incoming run with a current lease survives, unchanged, exactly until the lease expires |
| Shell.ShellEscape | crates/purgery-core/src/lib.rs:244-256 | the loop produces the quoted form |
| Shell.BuildCommand | crates/purgery-client/src/runner.rs:618-625 | the loop produces the server command followed by every argument quoted |
| Shell.EscapedReads | crates/purgery-core/src/lib.rs:244-256 | after a blank a shell reads a quoted argument as one word, exactly its text with every byte quoted |
| Shell.CommandRoundTrip | crates/purgery-client/src/runner.rs:618-625 | for every server command that ends outside quotes, escapes and comments: the command line is cut into its words followed by exactly the arguments, every byte of them quoted |
| Shell.CommandsDiffer | crates/purgery-client/src/runner.rs:618-625 | different arguments never make the same command line, whatever the server command |
| BoundedTail.Drain | crates/purgery-client/src/runner.rs:147-180 | the last max bytes of the stream however it was chunked, marked exactly when there were more |
| Placeholders.ExpandPlaceholders | crates/purgery-core/src/transform.rs:51-94 | every token of the template that has a value for this target, and nothing else, gives way to it |
| Placeholders.Replacement | crates/purgery-core/src/transform.rs:70-88 | looking a token up branch by branch is looking it up in the table of known tokens |
| Placeholders.TokenizedIsLossless | crates/purgery-core/src/transform.rs:60-68 | cutting a template into text and tokens loses nothing |
| Placeholders.TokenizedIsUnique | crates/purgery-core/src/transform.rs:60-68 | there is no other way to cut it |
| Placeholders.ValuesAreLiteral | crates/purgery-core/src/transform.rs:85-91 | a substituted value is never looked at again, even if it looks like a placeholder |
| Placeholders.UnknownTokensStay | crates/purgery-core/src/transform.rs:86-90 | a template without known tokens comes out as it went in |
| NicknameText.CheckNickname | crates/purgery-core/src/path.rs:77-87 | valid exactly when non-empty and of letters, digits, hyphens and underscores; else the first offending character |
| NicknameText.SanitizeNickname | crates/purgery-client/src/run.rs:97-125 | the three loops compute the sanitised name |
| NicknameText.SanitizedIsValid | crates/purgery-client/src/run.rs:97-125 | the result is a valid nickname without adjacent or edge separators that keeps the letters and digits in order, or "client" when there are none |
| NicknameText.SanitizingAgain | crates/purgery-client/src/run.rs:97-125 | sanitising again changes nothing |

## Left out

- DoubleStar.GlobMatch: bracket expressions, whose meaning the equal-strings shortcut changes, are left out.
- SplitPattern.PromiseKeptExactly: for patterns with a `**` inside a component below a slash (`r/a**b`), with two of them touching, or with several that are not all whole components, `DoubleStar.GlobMatch` says what is found, but which of them keep the promise is only shown by the families `DoubleStarExact.TooFarBack` and `DoubleStarExact.BetweenTwo`: it depends on whether the two parts can share text.
- CleanupStart.HarmlessFromStart: sufficient, not necessary: what leads to a place that is not due may be gone before the entry is visited.  `CleanupSurvivors.SurvivorsExactly` is exact, over the pass's own visits.
- ClientCrashes.CrashesDoNotMatter: one pending ledger, whose run has its status stored or is completed or absent, and no symlink above a place that is due.
- Glob.SimpleGlob: patterns are bytes; slicing a path inside a multi-byte character is not modelled.
- Supervision.Supervisor.Drive: runs over a finite number of rounds, so it says nothing about whether the loop ends; sleeping, reporting and error texts are left out.
- Placeholders.ExpandPlaceholders: the values of the tokens are given; splitting a path into stem and extension is not modelled.
- Shell.CommandRoundTrip: says nothing of server commands with backquotes, substitutions in brackets or here-documents.
- ClientProgress.RelaunchDrains: one pending ledger and one pending run, whose status is stored; `ClientDrain.RelaunchResolvesEverything` is about any number of them, but does not say what tree they leave.
- BoundedTail.Drain: the marker text is a parameter.
- GcRetention.Collector.CollectRun: errors of the file system while removing, and unknown or invalid directory names, are left out.
- RunServer.Server.ProcessProcessingRun: one process undisturbed; interleavings are the subject of `RunTheorems`, and `RunProgress` ties the two together for recovery.
- CleanupCapture.CaptureCleanupIdentity: the tree does not change during the walk, and no entry is unreadable; `ClientProtocol` starts from any ledger at all, so its theorems do not depend on this.
- The batch loop over several runs (`process_once_raw`) beyond its effect on one run.
- Liveness of the server protocol beyond an undisturbed recovery, heartbeats and lease renewal, progress files.
- rsync, SSH, subprocesses, threads, signals, logging, configuration and command-line parsing, TOML, hashing and id generation.
- Host and path splitting of a destination argument, and resolving a relative destination against the server's working directory.
- `resolve_expected_outputs_for_target`, checks for symlinks on the way to a target, and rsync filter rules for a split without cleanup.
- Direct syncs without cleanup, which keep no state.

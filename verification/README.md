# Verified model of the AI Workflow Bridge

This project models the core of the AI Workflow Bridge in Dafny and proves what the core
promises: that a checkpoint really undoes a command, that a rollback interrupted by a crash
is never replayed and when it can be forgotten, that no command runs without the decision
and the checkpoint it needs, how far the prompt budget survives restarts, and that the
roadmap files can be trusted.

`dafny verify dfyconfig.toml` checks all of it.

## How it is modelled

**Trees.** A workspace is a finite map from paths to directories, files with content and
permission bits, symbolic links and special entries (`FileTree`). An entry is *visible*
when no component of its path is an excluded name; the rest is out of rollback scope.

**Checkpoints.** `CheckpointSnapshot` walks a tree and archives it, `SnapshotExtraction` and
`Staging` read an archive back, `WorkspaceScan` looks at the current tree, and
`CheckpointRestore` rebuilds a workspace in place, system call by system call, with a record
of every tree it passes through. `RestorePlan` says what a restore is for without
mentioning any of that. `SnapshotRestoreTheorems` and `UndoTheorems` put the two halves
together.

**The host.** `HostState` has the rows and the runtime snapshot that survive a crash and the
fields that do not. `HostMachine` is the host as a state machine: one lock serialises
rollback, recovery decisions, approvals and command windows; unlocked message handlers,
edits by other people and crashes may come between any two steps. Persisting is two steps on
every thread: a snapshot of the fields is taken, and some time later it is written. A durable
write that fails is a crash. `LockProtocol` has the threads, the lock and the checks before
and behind it; `ThreadedHost` gives each thread a program counter of its own and shows that
the machine with its one counter simulates them. `RollbackProtocol`,
`SnapshotFreshness`, `GuardedExecution` and `UndoProtocol` prove what holds at every moment of
every run, and `HostCounterexamples` has runs on which what one might expect does not hold.
`InterruptedCommands` says what a restart makes of a command that was cut off. `Host` is the
orchestrator class itself; its methods keep a record of their steps and are
proved to make only steps of the machine, so these results hold at each moment inside each
method.

**The budget.** `RunBudget` is the budget object, `BudgetProtocol` the
check-record-persist-emit protocol with crashes, with resets that begin a new session over
whatever is stored and under way, and with other threads that take and write snapshots,
`Reporting` the sending methods over both.

**The roadmap.** `ProjectState` has the four operations and their runs, `RoadmapPositions`
says which positions a roadmap has and where the operations lead, `ProjectFiles` has the two
files they write, `ProjectRaces` the operations on several threads, `RoadmapFile` the
text of ROADMAP.md, `CommitOrder` the order of the roadmap commit and the runtime state, with
a roadmap in each workspace and reading and writing apart.

**The rest.** `Policy` merges risks, `ProtocolRecovery` bounds recovery prompts,
`ConversationIdentity`, `PathSegments` and `ConversationBinding` are the extension's
conversation binding, whose jobs go on after an await with what they were promised before it.

## What turned out to be different from what one might expect

- A regular file with the name of a volatile directory, a backslash in a file name, or a
  second hard link to a captured file makes a checkpoint unrestorable; nothing says so when
  it is taken. `WhichCapturesAreExtractable` gives the exact condition.
- A restore keeps the nine permission bits only; set-user-id, set-group-id and sticky bits
  are dropped (native_host/checkpoint_restore.py:518-523).
- Lines 1068-1073 and 1106-1119 of native_host/checkpoint_restore.py, which would clear
  something out of the way of a desired directory or file, are never reached.
- After a successful restore the workspace may hold more entries than the restore itself
  accepts; `InterruptedRestoreConverges` states this as the exact condition, and
  `EntryCap.SecondRestoreCanBeRefused` is such a tree.
- The runtime state is snapshotted before the store is locked, on any thread
  (native_host/orchestrator_core.py:67-71), so an older snapshot can be written over a younger
  one. A crash after that can make the host forget a rollback that has failed, ask again about
  one that has been decided, or allow prompts that the last hour has no room for. Which writes
  do that is stated exactly (`SnapshotFreshness.ForgettingSteps`,
  `BudgetProtocol.ForgettingSteps`), and a run is given for each
  (`RestartForgetsFailedRollback`, `RestartAsksAgainAfterDecision`, `TwoPromptsAtOnce`). While
  a row is rolling back no write can hide it.
- A pause that is persisted while a command runs hides that command: if the process dies then,
  the restart comes up paused and asks nothing (`PausedCommandIsNotAskedAbout`). Which writes do
  that is stated exactly (`AskingWhileOutIff`).
- Recovery is gated in the message handler only. If an approval was pending when a rollback
  failed in the running process, resolving it over Telegram goes past the gate
  (`GateIsAirtightIffNothingPends`, `ApprovalPassesTheGate`). After such a step another
  checkpoint may be claimed; `open` in `HostState.History` is therefore the one claimed last.
- The session turn limit is not a limit on the session once the runtime limit exceeds the
  hour after which turns are forgotten (`SessionLimitHoldsIffRuntimeIsAnHour`).
- A roadmap that repeats a position sends a project back to its first occurrence
  (`AdvancingEndsIff`).
- A marker inside the machine state of ROADMAP.md, for example in a phase title, makes the
  file unreadable (`RoadmapRoundTripIff`).
- The runtime state can get ahead of the roadmap in exactly four ways (`OrderBreaksIff`): the
  lifecycle or the workspace changes between a worker's look at it and its locked part, or the
  directory is missing (`CompleteWithoutCommit`); a course change is approved after completion
  (`CompleteAndReopened`), or an advance that has read the roadmap before completion writes it
  after (`CompleteAndAdvanced`); a closing worker goes on although the project it found closed
  has been reopened (`CompleteOnOldReading`); or the configuration names another workspace while
  the project is ready or complete (`ReadyElsewhere`): set_config changes the workspace and
  leaves the lifecycle as it is (native_host/orchestrator.py:13-24).
- A course change does not take the lock and can undo an advance (`AdvanceIsLost`).
- A malformed response is not heard while a prompt waits for its turn, so the third failure
  need not block (`ThirdFailureIsIgnored`); and the counter is reset without the lock, so one
  prompt more or less may follow a reset (`ThreePromptsAfterOneReset`,
  `OnePromptAfterTornReset`).
- A lookup of the conversation binding that began with an empty cache can put an old binding
  back over a new pin (`LateLookupUndoesPin`), and so let one pin be sealed to two conversations
  (`PinSealedTwiceAfterPutBack`).
- A prompt that is under way when the budget is reset goes out in the new session on top of
  what that session may send (`PromptAcrossReset`).

## Model

| member | source | states |
|---|---|---|
| UndoProtocol.RollbackUndoesTheCommand | native_host/orchestrator_risk.py:273-408 | End-to-end undo: when the rollback of a command's checkpoint returns, the visible files are those of the moment that command started, whatever it and everything later did; everything out of scope is as the rollback met it, but for what the host itself wrote. |
| UndoTheorems.RestoreUndoes | native_host/checkpoint_restore.py:897-1127 | Exact restore: over any current tree, the restored tree has exactly the captured visible files with content and mode, no visible symlink, the captured directories and those that hold something out of scope, and the out-of-scope part of the current tree. |
| CheckpointRestore.Workspace.RestoreWorkspaceSnapshot | native_host/checkpoint_restore.py:897-1158 | All or nothing: if any check fails, the tree is the old one at every moment; otherwise, for an archive that lists parents, the restore cannot fail, ends in exactly the target and reports the right counts; every tree in between differs in the visible part only. |
| UndoTheorems.CaptureIsInScopeIff | native_host/checkpoint_snapshot.py:197-207 | A capture contains exactly what is in rollback scope if and only if no such leaf exists. |
| UndoTheorems.WhenRollbackSucceeds | native_host/checkpoint_restore.py:897-976 | With the limits every checkpoint is taken with: the exact condition on the captured and the current tree under which a restore is accepted. |
| UndoTheorems.InterruptedRestoreConverges | native_host/checkpoint_restore.py:977-1127 | Convergence: from any tree an interrupted restore may leave, a full restore has the same target as the uninterrupted one, and is accepted exactly if the entry cap holds. |
| EntryCap.SecondRestoreCanBeRefused | native_host/checkpoint_restore.py:706-813 | A concrete capture and tree: the restore is accepted, and refused over the tree it ends in, which has one entry more than a scan allows. |
| SnapshotRestoreTheorems.WhichCapturesAreExtractable | native_host/checkpoint_snapshot.py:151-293 | A capture can be extracted if and only if every captured name survives, no captured file is a second hard link, and the entry and size caps of the restore hold; then it asks for exactly the captured state. |
| RollbackProtocol.RestoreIsNeverReplayed | native_host/orchestrator_checkpoints.py:617-790 | In every run, with crashes between any two steps: restore is entered at most once per checkpoint, never for a ready or accepted one, has returned for every rolled-back one, and at most one checkpoint is rolling back. |
| SnapshotFreshness.RestartAsksAboutOpenCheckpointIff | native_host/orchestrator_core.py:67-233 | From the claim of a checkpoint to the end of its rollback or a human decision: a restart lands in recovery_required, paused, naming that checkpoint with its current status, with no approval pending, exactly if the row is rolling back or the durable snapshot was taken after the checkpoint was named. |
| SnapshotFreshness.ForgettingSteps | native_host/orchestrator_core.py:67-71 | Step by step: restarts stop asking about the open checkpoint exactly when a snapshot from before its naming is written while its row is not rolling back, or the rolling back ends while such a snapshot is durable; they ask again exactly when a younger one is written. |
| SnapshotFreshness.SettledIsAskedAgainIff | native_host/orchestrator_core.py:67-340 | Once a completed rollback or a decision is on the disk, its row never moves again; a restart asks about it exactly if the disk names it and no row is rolling back, which takes the write of a snapshot older than the end of the recovery; each such write makes the disk name it. |
| HostCounterexamples.RestartForgetsFailedRollback | native_host/orchestrator_project_state.py:218-256 | A run from an empty disk after which a restart comes up paused as if nothing had happened, although a rollback has failed and nobody has decided: a worker that does not hold the lock takes its snapshot before the rollback and writes it after it. |
| HostCounterexamples.RestartAsksAgainAfterDecision | native_host/orchestrator_project_state.py:218-256 | A run from an empty disk after which a restart asks about a checkpoint that has been decided: a worker's snapshot of the failure is written after the decision. |
| RollbackProtocol.GateIsAirtightIffNothingPends | native_host/orchestrator_messages.py:20-38 | While recovery is required, nothing but waiting, crashing and deciding can happen if and only if no approval is pending; `HostCounterexamples.ApprovalPassesTheGate` reaches such a moment. |
| HostCounterexamples.ApprovalPassesTheGate | native_host/orchestrator_approval.py:12-23 | A run from an empty disk that ends in recovery_required with an approval pending, which still opens a command window. |
| GuardedExecution.GatedCommandsHaveTheirApproval | native_host/orchestrator_approval.py:9-23 | A blocked command never starts; a gated one starts only on an approval that was asked for at exactly its place since the last crash before it, that has been granted and stays granted, and that can never be resolved again; no approval serves two starts. |
| GuardedExecution.ProtectedCommandsHaveTheirCheckpoint | native_host/orchestrator_risk.py:271-331 | Over all runs: a command that starts has a checkpoint exactly if its rank is R2 or more, and then it was approved; nothing of rank R4 starts; the checkpoint is durable, of the tree the command starts from, and shared with no other start. |
| GuardedExecution.CommandsRunInOrder | native_host/orchestrator_risk.py:229-434 | The commands of a contract start in order, each at most once, and nothing starts after one that failed or was cut off. |
| GuardedExecution.NothingRunsAfterTheEnd | native_host/orchestrator_risk.py:245-271 | A block, a refusal, a failed checkpoint, a failed command, a recovery decision or a crash ends a contract for good, whatever is approved and however often the host restarts. |
| InterruptedCommands.CutOffCommandIsAskedAbout | native_host/orchestrator_core.py:448-489 | Over all runs, from the announcement of a command to its end: a crash and a restart come up paused in recovery_required with nothing pending, unless somebody has put the run aside before the announcement or has persisted such a snapshot after it. |
| InterruptedCommands.AskingWhileOutIff | native_host/orchestrator_core.py:67-71 | Step by step while a command is out: a restart asks afterwards exactly if it asked before and no other thread's snapshot is written, or one is that says that work is under way or names a checkpoint. |
| HostState.RestartNeverResumes | native_host/recovery.py:5-27 | For every disk: a restart never comes up in a lifecycle or status of work under way; it asks, paused and with nothing pending, exactly if one was durable, a checkpoint is named or a row rolls back; otherwise a guarded host comes up paused and any other as it was. |
| LockProtocol.NoTwoOverlap | native_host/orchestrator_risk.py:184-215 | With any number of threads: no two of them are at the same time in a restore, an acceptance, a decision or a command window, at most one window is open, and command_execution_active is up exactly while one is. |
| LockProtocol.SecondLookIsClear | native_host/orchestrator_checkpoints.py:419-560 | Nobody ever sees that a window is already active, and the second look at the flag under the lock never finds it set. |
| ThreadedHost.OneCounterIsEnough | native_host/orchestrator_core.py:38-49 | Simulation: any run of any number of threads, each with a program counter of its own that no other thread looks at, is a run of HostMachine with its one counter, but for the moments at which the state stays as it is; what is proved of HostMachine holds at every moment of the threads. |
| Host.Orchestrator.RollbackCheckpoint | native_host/orchestrator_checkpoints.py:510-955 | Turned away without effect unless paused, idle and ready; otherwise row, fields and tree agree on the outcome, a success undoes the capture, and every moment in between is a moment of a run of the machine. |
| Host.Orchestrator.RunCommandAndContinue | native_host/orchestrator_risk.py:217-448 | The loop starts exactly the commands that run unasked, or the approved one, if it is not blocked and can be protected, and those behind it; it keeps every other pending approval, closes its window, and moves by steps of the machine only. |
| BudgetProtocol.NoHourHoldsMoreThanTheCap | native_host/orchestrator_reporting.py:41-47 | In every session, also one begun by a reset over a stored budget with snapshots, calls, timers and a prompt still under way: between two restarts that forget a prompt, no half-open hour contains more prompts, allowed or recorded, than the smaller of the two turn limits; over a session each such restart allows that many more; at most one more prompt goes out within an hour than was recorded in it, and at most one that was recorded before the reset. |
| BudgetProtocol.ForgettingSteps | native_host/orchestrator_core.py:67-71 | Exactly one kind of step makes what is durable forget a prompt: writing a snapshot that was taken before a prompt of the last hour was recorded. |
| BudgetProtocol.OnlyOldWritesForget | native_host/orchestrator_core.py:67-71 | From the first start or from any reset on: as long as no such snapshot is written, no restart forgets anything of that session, and the plain limit holds. |
| BudgetProtocol.TwoPromptsAtOnce | native_host/orchestrator_messages.py:140-179 | A session that sends two prompts at the same instant with both limits at one: a snapshot taken before the first prompt is written after it, and the process crashes. |
| BudgetProtocol.SessionLimitHoldsIffRuntimeIsAnHour | native_host/safety.py:127-140 | The session limit limits every session in which no restart forgets a prompt if and only if the configured runtime is at most 60 minutes. |
| ProtocolRecovery.RecoveryIsBounded | native_host/orchestrator_response.py:25-62 | Over all runs, with sends, messages, pauses, resets and restarts at any point: between two resets of the counter at most two recovery prompts are granted, and at most three requested, the third being one that was granted before the reset. |
| ProtocolRecovery.BlocksIff | native_host/orchestrator_response.py:25-62 | A malformed response blocks exactly if the run is not paused, its status is one of the six of a pending step and the counter is used up; the counter is the number of prompts granted, or one more if a reset fell into the counting. |
| CommitOrder.RuntimeIsNeverAhead | native_host/orchestrator_project_state.py:161-268 | In every run without the four kinds of step below, crashes, late writes of snapshots and of roadmaps, and changes of the workspace included, a durable ready_to_arm has a committed roadmap in the configured workspace and a durable complete has a complete one there. |
| CommitOrder.OrderIsWhatIsNeeded | native_host/orchestrator_project_state.py:161-268 | The order is exactly what has to hold: it holds if and only if no continuation without the four kinds of step makes something durable that the roadmap does not back. |
| RoadmapFile.RoadmapRoundTripIff | native_host/project_state.py:213-279 | Reading the rendered file yields the machine state that was rendered if and only if it contains neither marker, whatever the part for people says. |
| ProjectState.CompletedIsTheStretchBehind | native_host/project_state.py:358-406 | With distinct positions and no course change, completed is exactly the stretch from the start to the current position, whatever targets are asked for, and closing out completes it. |
| ProjectState.AdvancingEndsIff | native_host/project_state.py:204-210 | A project can be advanced to the end of its roadmap if and only if no position behind its start repeats an earlier one. |
| RoadmapPositions.WhichPositions | native_host/project_state.py:72-87 | The positions of a roadmap are exactly those its phases list: each stage that is not blank, under the phase's stripped id, or the phase itself if it has none. |
| RoadmapPositions.EveryListedStageIsReached | native_host/project_state.py:358-406 | If every phase, and every stage within its phase, has a name of its own: advancing through all listed stages in order is accepted step by step, and closing out completes exactly those, in that order. |
| RunBudget.RestoreDecidesAlikeIff | native_host/safety.py:40-122 | Export and restore give the same decision at every later time under every configuration if and only if the session start was positive or the block is a manual one. |
| ConversationBinding.SealsAreProper | extension/background.js:406-492 | Over all runs of the worker: every seal led from a provisional binding, on a start page of its provider, to a conversation of the same provider in the same tab, begun within ten seconds of a confirmed submit for that binding. |
| ConversationBinding.EachPinIsSealedOnceIff | extension/background.js:406-492 | Each pin is sealed at most once, in any run, exactly if no attempt ever seals a binding whose pin has been sealed already. |
| ConversationBinding.AtomicRunsSealOnce | extension/background.js:249-294 | Each pin is sealed at most once in every run in which attempts with the cached binding go on at once and no job puts an outdated binding back into the cache. |
| PathSegments.NormalFormIs | extension/conversation-identity.js:77-99 | The normal form is the path put together again from those pieces, so it is determined by them. |
| PathSegments.KindIs | extension/conversation-identity.js:3-156 | The kind of a page depends on its segments only: provisional exactly on a start page of its provider, a conversation exactly if one segment, the id, follows the route of its provider. |
| MemberPaths.MemberNameRoundTrip | native_host/checkpoint_restore.py:90-134 | The name a capture writes for a path is read back as that same path; it is refused exactly when a component holds a backslash or is an excluded name, and with which of the two errors. |
| MemberPaths.AcceptedNameIsContained | native_host/checkpoint_restore.py:90-134 | Whatever an archive says, an accepted member name denotes a path inside the workspace, in scope, without `.` or `..`. |
| CheckpointSnapshot.CreateWorkspaceSnapshot | native_host/checkpoint_snapshot.py:296-465 | A capture succeeds exactly on the trees without captured symlinks, special entries or exceeded limits; then the archive lists every captured entry once, parents first, with the right counts. |
| CheckpointSnapshot.Walker.Visit | native_host/checkpoint_snapshot.py:172-280 | The recursive walk appends exactly the captured entries strictly below a directory, or fails only on a tree that may not be captured. |
| CheckpointSnapshot.Walker.VisitEntry | native_host/checkpoint_snapshot.py:186-280 | One entry of the walk: volatile names are skipped for directories only, and a skipped entry contributes nothing below it. |
| CheckpointSnapshot.Walker.TakeFile | native_host/checkpoint_snapshot.py:235-280 | The file checks: any failure means that the whole tree exceeds a limit or holds an unsupported entry. |
| UndoTheorems.CapturedIs | native_host/checkpoint_snapshot.py:186-235 | Entry by entry what a capture contains: the visible ones, and besides them only files, links and special entries in visible directories with the name of a volatile directory; never a version-control or host directory. |
| UndoTheorems.NothingIsCapturedBelow | native_host/checkpoint_snapshot.py:21-43 | Nothing below version control, the host's own files, and the directories of tools is ever captured. |
| Staging.StageMembers | native_host/checkpoint_restore.py:588-667 | Writing the members into an empty directory works if and only if no file member stands above another member. |
| SnapshotExtraction.ValidateMembers | native_host/checkpoint_restore.py:420-560 | The member loop accepts an archive exactly if every member, the absence of duplicates and the caps are as required, and returns the directories, modes and contents asked for. |
| SnapshotExtraction.ExtractValidatedSnapshot | native_host/checkpoint_restore.py:397-703 | Extraction succeeds exactly on the extractable snapshots, and returns the state their members ask for. |
| SnapshotExtraction.ExtractionIsBounded | native_host/checkpoint_restore.py:319-395 | Whatever limits its metadata names, an extracted archive has at most 81024 members, 20000 files, 512 MiB in all and 128 MiB in a file. |
| SnapshotExtraction.DesiredIsConsistent | native_host/checkpoint_restore.py:475-534 | The state an accepted archive asks for never puts a file where a directory is needed, names only in-scope paths, and contains the parent of every file. |
| WorkspaceScan.ScanCurrentWorkspace | native_host/checkpoint_restore.py:706-813 | The scan of the current tree succeeds exactly if no visible entry is special and the entry cap holds, and lists all visible entries with their kinds. |
| WorkspaceScan.ContainsExcludedDescendant | native_host/checkpoint_restore.py:816-845 | The probe answers yes exactly if something out of scope lies below the directory. |
| RestorePlan.EmptyUnlessKept | native_host/checkpoint_restore.py:1019-1052 | Deepest first, an unwanted directory is empty when its turn comes exactly if nothing out of scope lies below it. |
| RestorePlan.PhasesReachTarget | native_host/checkpoint_restore.py:977-1127 | Unlinking, pruning, making directories and copying, one after the other, yield the target tree. |
| RestorePlan.TargetIs | native_host/checkpoint_restore.py:977-1127 | The target tree, path by path: desired files, desired or kept directories, and the out-of-scope part as it was. |
| CheckpointRestore.Workspace.UnlinkStale | native_host/checkpoint_restore.py:979-1014 | The first loop removes exactly the symlinks and the files that are not to be rewritten, and counts them. |
| CheckpointRestore.Workspace.PruneDirectories | native_host/checkpoint_restore.py:1016-1052 | The second loop removes exactly the unwanted directories that hold nothing out of scope; for an archive that lists parents a failing rmdir always means an excluded descendant, so the loop never raises. |
| CheckpointRestore.Workspace.MakeDirectories | native_host/checkpoint_restore.py:1054-1078 | The third loop adds exactly the desired directories; its branch for something in the way is never reached. |
| CheckpointRestore.Workspace.AtomicCopy | native_host/checkpoint_restore.py:848-894 | A copy fills a temporary file piece by piece and ends with the target replaced and the temporary gone; at every moment the target is what it was or what it will be, and the out-of-scope part is untouched. |
| CheckpointRestore.Workspace.CopyFiles | native_host/checkpoint_restore.py:1080-1127 | The fourth loop puts every desired file in place with content and mode; its branches for symlinks and directories in the way are never reached. |
| CheckpointRestore.Workspace.CheckReplacements | native_host/checkpoint_restore.py:944-976 | The check before the first change: refused exactly if a desired file would replace a directory that holds something out of scope. |
| SnapshotRestoreTheorems.DesiredOfCapture | native_host/checkpoint_restore.py:475-534 | Reading a faithful archive asks for exactly the captured directories, contents and permission bits. |
| UndoTheorems.RestoredModeIs | native_host/checkpoint_restore.py:518-523 | Of a mode in four octal digits a restore keeps the last three and drops the first. |
| UndoTheorems.CapturedStateIsClosed | native_host/checkpoint_snapshot.py:219-235 | A capture lists every directory before what it holds, so the state it asks for contains all parents. |
| UndoTheorems.VolatileNamedFileBlocksRollback | native_host/checkpoint_snapshot.py:197-207 | A captured regular file with the name of a volatile directory makes its checkpoint unrestorable over every tree. |
| UndoTheorems.SecondRestoreChangesNothing | native_host/checkpoint_restore.py:977-1127 | Restoring the same snapshot again changes nothing. |
| UndoTheorems.TargetIsWellFormed | native_host/checkpoint_restore.py:1054-1127 | The target is a tree: every entry has a directory above it. |
| Policy.MergedLevelIsLeastUpperBound | native_host/policy.py:198-205 | The merged level is the least one at least as severe as the local level and as the merged risk demands. |
| Policy.ProtectionIsByRank | native_host/orchestrator_risk.py:18-26 | A checkpoint is required exactly from R2 up to, and without, R4. |
| Policy.OpinionsShortenTheUnaskedPrefix | native_host/orchestrator_risk.py:229-434 | For the same local decisions and results, what runs unasked with the model's assessments is a prefix of what would run without them. |
| InterruptedCommands.AskingAtTheAnnouncementIff | native_host/orchestrator_risk.py:381-402 | At the announcement the snapshot taken for it decides. |
| HostCounterexamples.PausedCommandIsNotAskedAbout | native_host/orchestrator_messages.py:160 | A run from an empty disk in which a pause arrives and is persisted while a command runs: after a crash the host comes up paused and asks nothing. |
| InterruptedCommands.PauseIsLiftedIff | native_host/orchestrator_messages.py:150-166 | While the process lives, a pause is lifted exactly by a message, by an approved course change, and by a decision to prepare on a host that is not guarded. |
| SnapshotFreshness.RunAgrees | native_host/orchestrator_core.py:67-71 | What ties the snapshots that threads hold, the durable one and the memory together, at every moment of every run. |
| RollbackProtocol.RowsFollowTheGraph | native_host/checkpoint.py:21-36 | Every step of every run keeps a row or moves it along the transition graph, the unchecked put_checkpoint included; workspace and snapshot never change. |
| RollbackProtocol.RowsOnlyGoForward | native_host/checkpoint.py:21-36 | Over any stretch of any run rows only go forward: an accepted, rolled back, failed or invalid row stays so, and a row is rolled back only from rolling back. |
| RollbackProtocol.CompareAndSetNeverLoses | native_host/orchestrator_checkpoints.py:632-690 | No compare-and-set of a rollback ever loses: the branches for a lost claim or an unrecorded completion are never taken. |
| RollbackProtocol.RunKeeps | native_host/orchestrator_checkpoints.py:510-955 | The rollback invariant holds at every moment of every run of the host. |
| GuardedExecution.CheckpointIsReadyAtTheStart | native_host/orchestrator_risk.py:381-402 | At the moment a command starts, it has a checkpoint exactly if its rank is R2 or more, and that is ready on the disk, for its workspace and of the current tree. |
| GuardedExecution.DeadRunsStayDead | native_host/orchestrator_approval.py:12-23 | No step gives a contract a continuation it does not have. |
| GuardedExecution.RunKeeps | native_host/orchestrator_risk.py:184-448 | The execution invariant holds at every moment of every run of the host. |
| LockProtocol.HolderIsNeverStuck | native_host/orchestrator_reporting.py:41-47 | The lock is re-entrant, so its holder can always go on, also to send from inside a window. |
| LockProtocol.ResumedBetweenLooks | native_host/orchestrator_checkpoints.py:523-570 | The second look at paused is needed: a run in which a resume comes between the two. |
| LockProtocol.RestoringBeginsPaused | native_host/orchestrator_checkpoints.py:553-566 | A thread gets into a restore only by the look that finds the run paused, and into an acceptance, a restore or a window only by one that finds no window. |
| UndoProtocol.WhenRollbackReturns | native_host/checkpoint_restore.py:944-976 | With an intact archive, whether the restore of a rollback is accepted is settled by the captured tree and the tree it meets, by an exact condition. |
| UndoProtocol.InterruptedRollbackSparesHiddenState | native_host/orchestrator_checkpoints.py:692-700 | Wherever a rollback is cut off, a path out of scope differs from any earlier moment of the restore only if it is one of the host's own files in .ai-workflow and the host has written them in between. |
| UndoProtocol.ControlDecidesNothing | native_host/checkpoint_restore.py:706-845 | What the host writes to its own files during a restore does not decide whether the restore is accepted. |
| Host.Orchestrator.constructor | native_host/orchestrator_core.py:342-522 | A new process restores the memory the durable state calls for: never work under way, nothing pending, and paused in recovery_required if something was under way or a checkpoint is named. |
| Host.FromSnapshot | native_host/orchestrator_core.py:352-522 | Field by field, the restart computes the restored memory: contexts reconciled with their rows, recovery first, provider guard last. |
| Host.Orchestrator.TransitionCheckpointStatus | native_host/storage.py:257-348 | The compare-and-set changes exactly one row, exactly if it has the expected status. |
| Host.Orchestrator.EmitEvent | native_host/orchestrator_core.py:625-631 | When nothing comes in between, emitting an event makes the current fields durable and changes nothing else. |
| Host.Orchestrator.PutRuntimeState | native_host/storage.py:79-101 | What is written is the snapshot that was taken, whatever has happened to the fields since; it is older than the last naming exactly if it was taken before it. |
| Host.Orchestrator.AcceptCheckpoint | native_host/orchestrator_checkpoints.py:419-508 | Accepting succeeds exactly for a ready row of this workspace while no command runs, and changes that row only. |
| Host.Orchestrator.AnnounceRollback | native_host/orchestrator_checkpoints.py:612-630 | First crash boundary: before any row is claimed the durable state says recovering. |
| Host.Orchestrator.ClaimRow | native_host/orchestrator_checkpoints.py:632-691 | Second crash boundary: the row is claimed and named in the durable state before the restore begins. |
| Host.Orchestrator.Restore | native_host/orchestrator_checkpoints.py:692-700 | The restore returns or is refused exactly as the checks decide, and each tree it passes through is a moment of the run at which the process may crash. |
| Host.Orchestrator.CompleteRow | native_host/orchestrator_checkpoints.py:752-785 | The Git evidence is put into the row while it is rolling back, and then the row is completed. |
| Host.Orchestrator.FinishRollback | native_host/orchestrator_checkpoints.py:878-955 | After a completed rollback the host is paused, no recovery is known, and that is durable. |
| Host.Orchestrator.FailRollback | native_host/orchestrator_checkpoints.py:792-876 | A refused restore marks the row failed and leaves the host in recovery_required about that checkpoint, durably. |
| Host.Orchestrator.ResolveRecovery | native_host/orchestrator_core.py:524-623 | A human decision settles the named checkpoint for good, expires every pending approval, replays nothing and leaves the tree alone; the host goes on only if asked to prepare and not guarded, and a guarded one stays paused under its guard. |
| Host.Orchestrator.SettleRow | native_host/orchestrator_core.py:235-340 | A row whose rollback was cut off becomes invalid; any other row is left as it is. |
| Host.Orchestrator.CreateCommandCheckpoint | native_host/orchestrator_risk.py:28-182 | A checkpoint row exists only for a complete capture of the tree, is ready and fresh, and arms the command with it; a failed capture changes nothing. |
| Host.Orchestrator.RequestDecision | native_host/orchestrator_approval.py:9-10 | A question is durable under a fresh id; its continuation, the exact command, is in memory only. |
| Host.Orchestrator.DealWith | native_host/orchestrator_risk.py:230-434 | One turn of the loop, for every classification, approval and result: whether the command starts, whether it is asked about under a fresh id, whether the loop goes on, and what the tree is then; with a merged rank of R2 or more nothing starts over a tree that cannot be captured. |
| Host.Orchestrator.ExecuteContract | native_host/orchestrator_execution.py:43-57 | A paused host runs nothing; otherwise a fresh contract starts exactly the commands that run unasked. |
| Host.Orchestrator.ContinueApproved | native_host/orchestrator_approval.py:12-23 | An approval is spent, in memory and on the disk, before its command gets a chance to run, and exactly the approved command and what runs unasked behind it are started. |
| Host.Orchestrator.ResolveWithoutRunning | native_host/orchestrator_approval.py:12-34 | A refusal or a roadmap decision spends its approval and runs nothing; an unknown id changes nothing. |
| RunBudget.Budget.Decide | native_host/safety.py:124-142 | A decision drops exactly the turns older than an hour and is what the budget before it calls for. |
| RunBudget.AllowedIff | native_host/safety.py:124-140 | Allowed exactly if no block is on, the runtime is not reached, and the last hour is below both turn limits, with their defaults. |
| RunBudget.DelayKeepsTheInterval | native_host/safety.py:130-142 | The delay is the least that keeps the configured interval, of three seconds at least, to the last prompt. |
| RunBudget.Budget.Block | native_host/safety.py:30-33 | A block without a duration refuses everything from then on, one with a duration everything until it is over. |
| RunBudget.Budget.SetProvider | native_host/safety.py:25-28 | Another provider starts from nothing; the same one changes nothing. |
| RunBudget.Budget.RestoreState | native_host/safety.py:62-122 | Restoring sets the whole budget from the exported payload, with the substitutes for missing values. |
| RunBudget.RoundTripIff | native_host/safety.py:40-122 | Export and restore give back the very same budget if and only if its provider has a name, its start is proper or the moment of the restart, and its cooldown is not negative. |
| RunBudget.RestartKeepsTurnsIff | native_host/orchestrator_core.py:430-446 | After a restart, setting the provider the budget was for, or none, forgets no turn; another one forgets all. |
| BudgetProtocol.TwoSendsAtOnce | native_host/orchestrator_reporting.py:41-47 | The one that stalls makes a difference: a session without crashes in which two prompts go out at the same instant with the limit at one. |
| BudgetProtocol.PromptAcrossReset | native_host/orchestrator_messages.py:164-167 | The one that was recorded before the reset makes a difference: a run in which it goes out after the reset, and the new session sends its full limit at the same instant. |
| BudgetProtocol.SessionTotalIsBounded | native_host/safety.py:124-142 | A whole session, counted from the reset that began it, emits at most the configured runtime in hours, rounded up, times that limit, once for each restart that forgot a prompt and once more. |
| BudgetProtocol.RunKeeps | native_host/orchestrator_reporting.py:35-52 | The invariant behind the window, over all runs with any number of resets: memory, disk and every snapshot under way account for each prompt of the session and of the last hour that was recorded before they were taken; no session start lies behind the last reset. |
| Reporting.Reporter.Dispatch | native_host/orchestrator_reporting.py:41-47 | A prompt goes out exactly if nothing has stopped the run and the budget allows it, and only after it was recorded and persisted. |
| Reporting.Reporter.SendResult | native_host/orchestrator_reporting.py:35-52 | A guarded run sends nothing and changes nothing; a refusal pauses; a wait arms the timer for exactly its end; and at most one prompt goes out, never on a paused run. |
| Reporting.Reporter.WriteSnapshotOf | native_host/storage.py:79-101 | Another thread writes the budget as it was when its snapshot was taken. |
| Reporting.Reporter.ResetBudget | native_host/safety.py:14-28 | A reset begins the next session, whatever is stored, pending and under way. |
| ProjectState.EveryRunIsSound | native_host/project_state.py:315-445 | After any sequence of operations: completed is free of repetitions and within the roadmap, there is a current position exactly while active, and every write adds one to the revision. |
| ProjectState.OnlyNextIsAccepted | native_host/project_state.py:358-385 | An advance is accepted exactly for the immediate next position; asking for the current one changes nothing. |
| RoadmapPositions.PositionsInOrder | native_host/project_state.py:72-87 | Of a roadmap in two parts the positions of the first come first, with nothing dropped or added. |
| RoadmapPositions.PositionsOfPhaseInOrder | native_host/project_state.py:80-85 | And so, within a phase, do those of the first part of its stages. |
| RoadmapPositions.WhatCourseChangeKeeps | native_host/project_state.py:409-436 | A course change is accepted exactly if something is listed then; what was done and is still listed stays done, in the same order, and nothing else is. |
| RoadmapPositions.WhereCourseChangeLeads | native_host/project_state.py:425-432 | It leads to the proposed position if that is listed, else stays where the project is if that is listed and open, else leads to the first open one, or to the very first if none is open. |
| RoadmapPositions.WhereProjectsBegin | native_host/project_state.py:315-334 | A first roadmap is accepted exactly if it lists a position, and begins at the preferred one if that is listed, else at its first. |
| RoadmapPositions.StripIs | native_host/project_state.py:72-87 | Stripping yields the one part that is surrounded by white space and neither begins nor ends with it. |
| ProjectRaces.EveryInterleavingIsSound | native_host/orchestrator_project_state.py:424-446 | Also when several threads read and write the roadmap, in every interleaving, the roadmap is sound. |
| ProjectRaces.AdvanceIsLost | native_host/orchestrator_project_state.py:424-446 | A run in which a course change, which does not take the lock, undoes an advance, and the revision tells of one write instead of two. |
| ProjectFiles.ControlDirectory.AppendHistory | native_host/project_state.py:154-178 | The history only grows: the old text is a prefix of the new one. |
| ProjectFiles.HistoryIsALog | native_host/project_state.py:154-178 | The history is its header and then one entry for each thing that happened, in order, and nothing else. |
| ProjectFiles.LabelsDiffer | native_host/project_state.py:90-94 | The label in an entry says which position is meant, unless a phase has a slash in its id. |
| ProjectFiles.ControlDirectory.InitializeProjectState | native_host/project_state.py:315-341 | The first roadmap starts at the preferred position if it is one, and is written before its history entry, which names where it starts. |
| ProjectFiles.ControlDirectory.AdvanceProjectState | native_host/project_state.py:358-385 | An advance leaves the specified state, in two writes with the roadmap first; the entry says which position is completed and which is started; a refusal writes nothing. |
| ProjectFiles.ControlDirectory.CompleteProjectState | native_host/project_state.py:388-406 | Closing out leaves the specified state, in two writes with the roadmap first; the entry names the position that is completed. |
| ProjectFiles.ControlDirectory.ApplyCourseChange | native_host/project_state.py:409-445 | A course change leaves the specified state, in two writes with the roadmap first; the entry names where the project stands; a refusal writes nothing. |
| CommitOrder.OrderBreaksIff | native_host/orchestrator_project_state.py:140-268 | Exactly four kinds of step break that order: the locked part of a response whose roadmap commit has not been made where it counts, because lifecycle or workspace have moved or there is no directory; a commit that found nothing to write when by now there is; writing an active status when the project is complete or about to be; and changing the workspace to one whose roadmap does not back what is durable or may become so. |
| CommitOrder.CompleteWithoutCommit | native_host/orchestrator_project_state.py:140-268 | A run from a new installation that ends durably complete over an active roadmap because the lifecycle moved while a worker was under way. |
| CommitOrder.CompleteAndReopened | native_host/orchestrator_project_state.py:424-446 | A run from a new installation that ends durably complete over an active roadmap because a course change was approved after the end. |
| CommitOrder.AdvanceReopensOnOldReading | native_host/project_state.py:358-385 | An advance reopens a finished project only if it has read the roadmap before it was completed, and writes it after. |
| CommitOrder.CompleteAndAdvanced | native_host/project_state.py:358-385 | A run from a new installation that ends so because of such an advance, in the locked part of another response. |
| CommitOrder.ReadyElsewhere | native_host/orchestrator.py:13-24 | A run from a new installation that ends durably ready_to_arm without a roadmap, because the workspace was changed. |
| CommitOrder.CompleteOnOldReading | native_host/orchestrator_project_state.py:218-242 | A run from a new installation in which a closing worker finds the project closed already, a course change reopens it, and the worker goes on. |
| CommitOrder.PausesIff | native_host/orchestrator_project_state.py:218-256 | Besides messages and restarts exactly two things pause a run: a closing response that finds no roadmap, which goes no further, and the completion. |
| CommitOrder.RestartsAlike | native_host/recovery.py:5-27 | A restart treats the lifecycle here as it does in HostState. |
| ProtocolRecovery.BlockLasts | native_host/orchestrator_response.py:64-70 | While the run stays paused nothing is granted or requested. |
| ProtocolRecovery.ThirdFailureBlocks | native_host/orchestrator_response.py:38-62 | The expected run: two prompts that go out, and the third failure blocks. |
| ProtocolRecovery.ThirdFailureIsIgnored | native_host/orchestrator_reporting.py:48-52 | A run in which the third failure does not block and is not even heard, because the second prompt waits for its turn. |
| ProtocolRecovery.ThreePromptsAfterOneReset | native_host/orchestrator_messages.py:145-146 | A run with three prompts requested after one reset, which fell between a grant and its request. |
| ProtocolRecovery.OnePromptAfterTornReset | native_host/orchestrator_response.py:38-39 | A run that is blocked after a single prompt, because a reset fell between the reading and the writing of the counter. |
| ProtocolRecovery.ProtocolGuard.RecoverProtocolFailure | native_host/orchestrator_response.py:25-62 | One malformed response when nothing comes in between, with the effects of sending the prompt on status and pause: not heard, answered, or blocked. |
| ConversationIdentity.NormalizingIsIdempotent | extension/conversation-identity.js:77-99 | A normalised path starts with a slash, has no double or trailing one, and normalising it again changes nothing. |
| PathSegments.NormalizingKeepsSegments | extension/conversation-identity.js:77-99 | Normalising keeps what a path is made of: the nonempty pieces between its slashes. |
| PathSegments.SameKeyIff | extension/conversation-identity.js:157-191 | Two paths of a provider have the same key if and only if they are made of the same segments. |
| ConversationIdentity.KeyIsInjective | extension/conversation-identity.js:157-191 | For provider ids without a colon, two keys are equal exactly if provider and path are. |
| ConversationIdentity.KeyIsNotInjectiveWithColons | extension/conversation-identity.js:180-184 | With a colon in an id, two providers can share a key. |
| ConversationBinding.ResealIsOutdated | extension/background.js:420-432 | The first thing to go wrong is an outdated job: an attempt that seals a pin again, with none before it that sealed or put back an outdated binding, was itself given a binding that is not current any more. |
| ConversationBinding.PinSealedTwice | extension/background.js:420-488 | Without the former: a run in which two attempts wait with the cached binding, and one pin is sealed to two conversations. |
| ConversationBinding.PinSealedTwiceAfterPutBack | extension/background.js:249-294 | Without the latter: a run in which a lookup that began before the pin empties the cache after it, two attempts read the stored binding, and one pin is sealed to two conversations. |
| ConversationBinding.SealedBindingStays | extension/background.js:249-340 | Once bound to a conversation, the cached binding changes exactly by a pin, a clear or the eviction of the worker, in every step but that of a job whose binding is not the one it would be given now. |
| ConversationBinding.LateLookupUndoesPin | extension/background.js:249-297 | Such a job can undo an explicit pin: it found the cache empty, and puts back what it read. |
| ConversationBinding.TabShowsBindingIff | extension/background.js:602-624 | Over all runs: a page of the bound provider has the key of the binding exactly if it is made of the same segments; doubled and trailing slashes do not matter. |
| ConversationBinding.Background.FinishSeal | extension/background.js:420-492 | An attempt to seal goes on with the binding it was given at its beginning: it seals exactly if that binding is authorised, provisional and the tab shows a conversation of its provider, and otherwise clears or leaves alone as stated. |
| ConversationBinding.Background.AuthorizeProvisionalSealAfterSubmit | extension/background.js:494-538 | With its immediate attempt to seal, when nothing comes in between: the binding is sealed exactly if it is the provisional one of the submitted tab and the provider has opened a conversation. |
| ConversationBinding.Background.FindBoundLlmTab | extension/background.js:540-624 | The bound tab is found exactly while it shows the bound provider and conversation; otherwise the binding is gone. |
| LockProtocol.OnlyTheHolderIsBusy | native_host/orchestrator_core.py:38-49 | At most one thread is about a rollback, a decision or a window; it is the one that holds the lock, and what it is about changes only from nothing and to nothing. |
| LockProtocol.HostCounterChanges | native_host/orchestrator_core.py:38-49 | The program counter of HostMachine changes in the same way, in every step. |
| ProjectRaces.CurrentReadingIsEnough | native_host/project_state.py:358-445 | An operation whose reading is still current does what it does in a sequential run; the revision counts a write exactly if its reading is of the current revision. |
| Policy.MergedRiskIsLeastUpperBound | native_host/policy.py:192-198 | The merged risk is the least one that is at least as severe as the local risk and the model's opinion; it counts as escalated exactly if it is above the local one. |
| Policy.OpinionsOnlyTighten | native_host/policy.py:192-205 | A more severe opinion never yields a laxer level or risk; what is gated or blocked locally stays so. |
| Policy.CheckpointedCommandsAreGated | native_host/policy.py:192-205 | A command of merged risk R2 or more is never low, R4 is always blocked, and one that is not blocked needs a checkpoint exactly from R2 on. |
| HostState.RestartIsIdempotent | native_host/orchestrator_core.py:342-522 | Restarting again, with the restored state persisted or not, restores the same memory. |
| Host.Orchestrator.CapabilitiesAreHonest | native_host/orchestrator_checkpoints.py:376-398 | The flags shown for a checkpoint of the workspace say exactly whether accepting and rolling back would be started. |

## Left out

- CheckpointSnapshot.CreateWorkspaceSnapshot: the lists of excluded paths, the sorted order of siblings and the storage directory; any order of siblings is allowed. Second hard links are a parameter.
- CheckpointSnapshot.Walker.Visit: the walk is over one tree; other processes writing during a capture are not modelled.
- SnapshotExtraction.ExtractValidatedSnapshot: version, kind and path checks of the metadata and of the archive file; a member's size is the length of its content. The digest is modelled by the archive itself.
- CheckpointRestore.Workspace.RestoreWorkspaceSnapshot: directory modes, permissions and I/O errors other than rmdir on a directory that is not empty, and other processes writing during a restore; in particular a captured mode without read permission for the owner, which a capture by the owner cannot meet, would make the staged copy unreadable. The name of the temporary file is fresh, as a random one is.
- UndoTheorems.RestoreUndoes: modes are compared modulo the nine permission bits, as the restore keeps no others.
- Policy.MergedRiskIsLeastUpperBound: how a command is classified locally and the wording of reasons; any local decision may come in.
- HostState.RestartIsIdempotent: the texts of steps and notes, the list of pending approvals in the snapshot, and the budget in it, which `BudgetProtocol` deals with.
- RollbackProtocol.RunKeeps: interleavings between single assignments of fields; the assignments between two durable writes are one step.
- SnapshotFreshness.ForgettingSteps: a snapshot is taken in one step; in the program its fields are read one after another, the checkpoint in question last.
- RollbackProtocol.RestoreIsNeverReplayed: several processes on one store, and store errors other than a crash.
- GuardedExecution.CheckpointIsReadyAtTheStart: the tree is assumed untouched by others from the capture to the start of the command, and during a restore by all but the host itself; at all other times anyone may edit it.
- GuardedExecution.CommandsRunInOrder: downloads, output, Git evidence and the report; a command is a change of the tree and an exit status.
- Host.Orchestrator.RollbackCheckpoint: Git inspection, which never changes the outcome, and a workspace directory that has disappeared.
- Host.Orchestrator.RunCommandAndContinue: what running a command does is given from outside; a workspace directory that has disappeared.
- BudgetProtocol.NoHourHoldsMoreThanTheCap: the configured limits do not change during a run, the clock does not go back, and a snapshot of the budget is taken in one step. A restart under another provider than the budget's is a restart and a reset.
- RunBudget.RestoreDecidesAlikeIff: malformed payloads, which are refused, and rounding of times.
- RoadmapFile.RoadmapRoundTripIff: the JSON encoding, of which only the text matters here, and Unicode white space.
- ProjectState.EveryRunIsSound: states edited by hand, and time stamps.
- CommitOrder.RuntimeIsNeverAhead: the handlers are reduced to the lifecycle they set, an update of a roadmap to its status; roadmaps edited or deleted by hand, and a plan whose commit is refused for its content, which pauses the run.
- LockProtocol.NoTwoOverlap: what the threads do between the places of this protocol, which is in `ThreadedHost`.
- ThreadedHost.OneCounterIsEnough: the steps between two places are those of HostMachine, with its crash points; no finer ones.
- ProtocolRecovery.RecoveryIsBounded: whatever else sets status, lifecycle and pause may set them to anything at any time, and any of it may reset the counter.
- ConversationBinding.EachPinIsSealedOnceIff: jobs may be interleaved in any order, more freely than an event loop does; storage requests take effect in the order they are made and do not fail.
- ConversationBinding.Background.FinishSeal: provider detection from host names, and attempts without an address, which ask the browser for it first.
- Minimum spacing of prompts: not guaranteed by the code.
- The control-directory guard, quarantine of downloads, message framing, prompts, Telegram transport, the side panel and content scripts: no further state worth a proof.

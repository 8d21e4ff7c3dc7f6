# Verified model of the QLSM server manager

QLSM is a Flask application that manages Quake Live hosts: browser sessions hold RCON
connections to game instances, an upgrade moves hosts from one plugin runtime to another,
a helper script runs as root on the hosts, Redis locks keep tasks apart, and plugins come
from repositories into a shared pool. This project models the parts of it whose correctness
is about all runs, all crash points or all inputs, and proves what they promise.

`dafny verify dfyconfig.toml` checks everything. No file here is needed by the application.

## How it is organised

| area | modules |
|---|---|
| RCON ownership protocol | `RconTypes`, `RconOwnership`, `FifoGate`, `FifoOrder`, `SidLifecycle`, `RconProtocol`, `RconBody`, `RconInvariant`, `RconSteps`, `RconFrames`, `RconCleanup`, `RconReconcile`, `RconProgress`, `RconTheorems`, `RconVisits`, `RconRooms` |
| Fencing of host operations | `Fencing`, `FencingProofs` |
| Inventory, apply and restore of host files | `ManagedFiles`, `ManagedFilesProofs`, `ManagedFilesUndo`, `ManagedFilesRuns`, `ManagedFilesOps`, `ExpandPlan` |
| Snapshots and directory swaps | `Directories`, `RestoreSwap`, `RestoreSwapOps`, `ConvertSwap`, `SnapshotCopy`, `SnapshotPrepare`, `SnapshotPrepareOps` |
| Redis locks | `TaskLock`, `TaskLockProofs` |
| Runtime conversion | `LineEndings`, `RuntimeConversion`, `CompatReport`, `ConversionAgreement`, `PluginSelection`, `ParamScanner`, `ParamGrammar` |
| Plugin repositories and pool | `Dependencies`, `PluginPool` |
| Shared | `Options`, `Runs`, `Sorting` |

Code that changes state is a class with methods (`Registry`, `Gate`, `Lifecycle`, `Files`,
`Restorer`, `Instance`, `Destination`, `Operation`, `Redis`, `Directory`, `Pool`, `Search`). Each
method is proved against a function of the old state, or against a machine of single steps; runs
are sequences of such steps in which anything that can interleave, fail or crash does.
A run is a pair of sequences, states and events, with `Run` saying that each event was
possible and gave the next state.

* **RCON.** One step of a handler thread is one registry call, one room call, one
  publication, or one gate or lifecycle transition; threads of any number of sessions
  interleave, waiting threads are asleep until a notification wakes them, waits may be
  cancelled, room calls and publications may fail. A target's log is the sequence of its
  successful publications.
* **Fencing.** A step is one system call or one atomic file write of a short-lived process;
  any process may die before any step, and holders exit when they like.
* **Managed files.** A step is one durable operation: a backup, the manifest, a mkdir, a
  rename over a destination, an unlink, a rmdir. A crash may fall between any two.
* **Swaps and snapshots.** A step is a rename, a journal write, a commit, or a copy or removal
  of a tree; the last two are not atomic, and what they leave when cut short is arbitrary.
* **Copies.** Listing a source, reading each of its files and walking its directories are
  readings at different times; nothing relates them, so anything may change in between.
* **Locks.** Every script is one step; keys vanish when their time to live has passed;
  commands may be unsent, or run without their answer arriving.

## What turned out to be conditional

* An individual handler's `join_room` that raises leaves an owner outside its room, and that
  can break the promise that an established connection was the last thing published
  (`RconRooms.RoomFailureBreaksIt`). Members of the room keep it whatever fails
  (`RconTheorems.MembersWerePublished`); so does every session that did not itself stray
  from that very room (`EstablishedWasPublished`); and `RconRooms.KeepsExactly` says exactly
  from which idle states no continuation without a further failure breaks it.
* A disconnect handler's `leave_room` that raises ends its loop: the session goes on owning the
  targets after it. `RconCleanup.LeftBehindExactly` says which, and exactly when there are
  any; `RconRooms.LeavesOneBehind` gives the run.
* An operation that acquires again after another one's record replaced its own can bring a
  lower fencing token back (`FencingProofs.DisplacedOperationBreaksIt`).
  `PassesLowerExactly` says exactly when a lower token passes, and `EndedForGood` what
  callers have to promise: that no operation is acquired that was finalized or named
  terminal. To promise only the latter does not suffice (`FinalizedOperationBreaksItToo`).
* Backup names have six digits; restore refuses an inventory with a longer index, and then
  for good (`ManagedFilesUndo.RefusesExactly`, `TooLongForGood`); `ManagedFilesRuns.MillionthOriginal`
  is a run that gets there.
* A replay of an apply with another payload, cut off before its write, makes restore keep a
  created file (`ManagedFilesRuns.ChangedPayloadIsKept`). `RemovesExactly` says exactly when a
  restore removes everything: when every created file still there is what was written.
* Live and backup can both exist only if somebody else makes the live directory during a
  swap; every rerun then refuses (`RestoreSwap.RefusesBoth`).
* A commit that raises although it went through makes the snapshot's cleanup delete a
  snapshot recorded as complete (`SnapshotPrepare.LostCommitDeletes`); `WholeExactly` says
  exactly in which runs what is recorded as complete stays whole.
* A download with `overwrite` of a plugin whose code is already the built-in copy's writes a
  sidecar without its plugin; `PluginPool.Pool.Download` says that exactly then it does.
* A converted selection of which no plugin is left reads as no selection at all
  (`PluginSelection.SelectionReadsBack`).
* A lock whose acquisition's answer was lost is held by a token that gave up
  (`TaskLockProofs.LostAnswerLeaks`); `RefusedHoldsExactly` says exactly which locks such a
  token holds, and when.
* The dialog reports blank files, and files equal to the target's shipped copy but absent
  from its baseline, as stripped, although the filter keeps them
  (`ConversionAgreement.ReportedSurvives` says exactly when).

## Model

| member | source | states |
|---|---|---|
| RconRooms.KeepsExactly | ui/socketio_events.py:92-219 | with no handler at work: every continuation without a further raising individual join_room or disconnect leave_room keeps every established connection the last thing published, exactly when each owner that can still act is in its room and no failed disconnect left an established connection |
| RconTheorems.MembersWerePublished | ui/socketio_events.py:101-219 | in every run, whatever raises: if a room member's connection is established, the target's last successful connect or disconnect publication is a connect |
| RconTheorems.EstablishedWasPublished | ui/socketio_events.py:115-219 | the same for any session's established connection, unless that session strayed from that target's room and no join_room of it succeeded since |
| RconRooms.JoinsEstablish | ui/socketio_events.py:155-190 | for every session and target a run without a failure in which a join establishes the connection |
| RconTheorems.StrayExactly | ui/socketio_events.py:155-160 | a slot is among the strays exactly when its individual join_room raised, or its rooms were forgotten while it was owned, and no join_room of it succeeded since |
| RconTheorems.OwnersAreInTheRoom | ui/rcon_fleet_events.py:75-159 | an owner that did not stray and whose target no thread is working on is a member of the target's room, also when fleet room calls fail |
| RconRooms.RoomFailureBreaksIt | ui/socketio_events.py:137-190 | one raising individual join_room leads to an idle state from which a run without any failure ends with an established connection whose target was last disconnected |
| RconRooms.OutsideBreaksIt | ui/socketio_events.py:101-219 | from any idle state with such an owner: the others disconnect, the owner joins again, somebody comes and goes, and the target is disconnected under an established session |
| RconRooms.EventGuards | ui/socketio_events.py:92-219 | every event that is no failure keeps the sheltered states sheltered |
| RconVisits.JoinPath | ui/socketio_events.py:155-190 | a join whose outside calls succeed ends established, a first owner in the room, another owner where it was |
| RconVisits.LeavePath | ui/socketio_events.py:194-219 | a leave of the only member whose outside calls succeed ends with a disconnect published |
| RconTheorems.PendingIsHeld | ui/rcon_ownership.py:126-151 | a pending claim belongs to the thread at the head of that target's gate, which is publishing or completing it |
| RconTheorems.ClaimsNeverStale | ui/rcon_ownership.py:126-187 | begin_connect never waits for a thread inside a gate, and no completion there is stale |
| RconProgress.SomebodyRuns | ui/rcon_sid_lifecycle.py:37-94 | with an unfinished handler in any state satisfying the invariant, some thread can take a step that is not a return to sleep |
| RconProgress.RunAdvances | ui/rcon_target_gate.py:21-54 | every running step strictly lowers its thread's rank, whatever the outside answers |
| RconProgress.EveryScheduleEnds | ui/rcon_fleet_gate.py:20-51 | at every point of every run every way to schedule the handlers present, whatever the outside answers, comes to an end with all of them finished |
| RconProgress.Drains | ui/rcon_fleet_gate.py:20-51 | from any state satisfying the invariant all handlers run to completion, for every oracle of outside answers |
| RconProgress.NoDeadlock | ui/rcon_ownership.py:126-187 | at every point of every run all handlers present can run to completion |
| RconCleanup.LeftBehindExactly | ui/socketio_events.py:101-134 | when a disconnect's cleanup body has ended the session owns exactly the targets still listed and has no state elsewhere; some are listed exactly when its leave_room raised with targets listed |
| RconCleanup.NothingLeftBehind | ui/socketio_events.py:101-134 | so when none raised it owns no target and has no connection state |
| RconRooms.LeavesOneBehind | ui/socketio_events.py:101-134 | from any idle state in which a session owns two targets, a run in which its disconnect ends owning the second |
| RconCleanup.OneCloserAtATime | ui/rcon_sid_lifecycle.py:64-94 | one closer per session has cleanup authority, has left the drain only with no operation registered, and nothing is accepted meanwhile |
| RconReconcile.ReconcileAcknowledges | ui/rcon_fleet_events.py:168-194 | one result per normalized entry in order, then the removals in ascending order; connecting means fleet-owned and established; whatever is fleet-owned is accepted or reported stuck |
| RconReconcile.FleetLeaveReleases | ui/rcon_fleet_events.py:264-280 | after a fleet leave a target still fleet-owned was reported as stuck |
| RconProtocol.NormalizeDistinct | ui/rcon_transport.py:183-207 | normalization keeps exactly the positive pairs, each once |
| RconProtocol.NormalizeInOrder | ui/rcon_transport.py:183-207 | it is the kept items in their order: every unusable one, and of equal pairs the first |
| RconProtocol.ValidateTargets | ui/rcon_transport.py:183-207 | the validation loop computes that normalization, or refuses what is no list or too long |
| RconInvariant.OwnBody | ui/rcon_fleet_events.py:75-159 | a step inside a gate keeps what is known of every session's ownership, room and connection |
| RconInvariant.LifeClose | ui/rcon_sid_lifecycle.py:64-82 | marking a session as closing keeps the account of registered operations and makes one thread its closer |
| RconSteps.EventKeeps | ui/socketio_events.py:92-219 | every event of the composed protocol keeps the invariant of gates, lifecycle, sleepers and ownership |
| RconSteps.RunInv | ui/rcon_fleet_events.py:75-194 | the invariant holds in every state of every run |
| RconFrames.StepSlotChange | ui/rcon_ownership.py:81-187 | what a step changes of a session's hold on a target is on the slot of the gate its thread is in |
| RconOwnership.OpKeepsBook | ui/rcon_ownership.py:81-187 | every registry operation leaves no empty owner set and no connection state without an owner |
| RconOwnership.BookOkAlways | ui/rcon_ownership.py:289-314 | any sequence of registry calls, with or without the gates, leaves nothing empty and no state without an owner |
| RconOwnership.ResidualSweepIsIdle | ui/rcon_ownership.py:263-275 | cleanup_sid_residual never drops an entry, after any sequence of registry calls |
| RconOwnership.UnblockingNotifies | ui/rcon_ownership.py:126-151 | an operation that falsifies a waiter's guard notifies the condition of that waiter's session |
| RconOwnership.RollbackUndoesAcquire | ui/rcon_ownership.py:111-123 | acquire followed by its rollback is the identity on ownership and connection states |
| RconOwnership.OpLocal | ui/rcon_ownership.py:214-242 | an operation on one session and target leaves every other pair as it was |
| RconOwnership.Registry.AcquireOwner | ui/rcon_ownership.py:81-94 | on the nested dictionaries: the owner is added and the transition says what changed |
| RconOwnership.Registry.ReleaseOwner | ui/rcon_ownership.py:97-108 | on the nested dictionaries: the owner goes, with the entry and the connection state when it was the last |
| RconOwnership.Registry.ReleaseOwnerLocked | ui/rcon_ownership.py:289-305 | the shared release step on the nested dictionaries, no empty set or inner dictionary left |
| RconOwnership.Registry.RollbackAcquisition | ui/rcon_ownership.py:111-123 | undoes an acquisition that changed something, and nothing otherwise |
| RconOwnership.Registry.BeginConnect | ui/rcon_ownership.py:126-151 | one pass of the wait loop: claims, reports established or not owned, or has to wait |
| RconOwnership.Registry.CompleteConnect | ui/rcon_ownership.py:154-187 | completes only the live claim; success establishes, failure rolls back and leaves failed or nothing |
| RconOwnership.Registry.DropConnectionState | ui/rcon_ownership.py:308-314 | removes the state and an inner dictionary that became empty |
| RconOwnership.Registry.CleanupOneTarget | ui/rcon_ownership.py:214-242 | removes all owners and the connection state of one target |
| FifoGate.Gate.Join | ui/rcon_target_gate.py:21-36 | a ticket goes to the end of the key's queue; the body is entered at once exactly when the queue was empty |
| FifoGate.Gate.Recheck | ui/rcon_target_gate.py:36-41 | the wait loop's guard fails exactly for the head of the queue |
| FifoGate.Gate.Quit | ui/rcon_target_gate.py:41-54 | the ticket is removed wherever it stands, and the key with the last one |
| FifoGate.ArriveKeeps | ui/rcon_fleet_gate.py:20-36 | joining keeps a key exactly while its queue is non-empty and no ticket twice, and never moves a head |
| FifoGate.DepartKeeps | ui/rcon_fleet_gate.py:36-51 | leaving, also of a cancelled waiter, keeps the same and leaves another's head in place |
| FifoOrder.MutualExclusion | ui/rcon_target_gate.py:21-54 | at most one thread of a key is in the body and it is the head of the queue |
| FifoOrder.ArrivalOrder | ui/rcon_target_gate.py:21-54 | the entries are a prefix of the arrivals without those cancelled while waiting |
| FifoOrder.HeadIsNeverStranded | ui/rcon_target_gate.py:36-54 | the head of a non-empty queue is in the body or awake and able to enter, also after the ticket before it was cancelled |
| FifoOrder.RunsTheGate | ui/rcon_target_gate.py:21-54 | any run of a line is a run of the gate: the same queue, and whoever looks enters exactly as the guard says |
| SidLifecycle.Lifecycle.Enter | ui/rcon_sid_lifecycle.py:37-52 | an operation is registered unless its session is closing |
| SidLifecycle.Lifecycle.Exit | ui/rcon_sid_lifecycle.py:52-62 | the operation is deregistered and an idle record goes |
| SidLifecycle.Lifecycle.StartClosing | ui/rcon_sid_lifecycle.py:64-82 | the first closer marks the record and others only follow it |
| SidLifecycle.Lifecycle.FinishClosing | ui/rcon_sid_lifecycle.py:82-94 | the closer removes the record it closed and no other |
| FencingProofs.OneOwner | ansible/files/qlsm_runtime_op.py:223-237 | at most one operation and token passes the fence; then its own holder is alive and has the lock, and nobody else does but the acquirer that spawned it |
| FencingProofs.RecordStandsWhileHeld | ansible/files/qlsm_runtime_op.py:240-262 | a record is never overwritten while the holder it names is alive, also between spawn and record |
| FencingProofs.PassedWasFenced | ansible/files/qlsm_runtime_op.py:223-237 | a check_fence that passed, although it looks at three different times, is as good as one at a single instant of its run |
| FencingProofs.SignalsItsOwn | ansible/files/qlsm_runtime_op.py:113-126 | release and takeover signal only a holder spawned for that operation and token, or for one named terminal |
| FencingProofs.TokenNeverDecreases | ansible/files/qlsm_runtime_op.py:85-103 | while the record names one operation its token never decreases |
| FencingProofs.PassesLowerExactly | ansible/files/qlsm_runtime_op.py:223-262 | in any run no token passes the fence after a higher one of its operation exactly when no acquisition is recorded, its holder alive, below a token its operation passed with before |
| FencingProofs.LowerTokenNeverReturns | ansible/files/qlsm_runtime_op.py:240-304 | once a token was fenced in, no lower token of that operation is, in every run in which no displaced operation is acquired again |
| FencingProofs.EndedForGood | ansible/files/qlsm_runtime_op.py:85-103 | for that it suffices that no operation is acquired that was finalized or that an acquirer named terminal |
| FencingProofs.DisplacedWasEnded | ansible/files/qlsm_runtime_op.py:85-103 | only an operation that was finalized or named terminal is ever displaced |
| FencingProofs.ExactlyUnlessLowered | ansible/files/qlsm_runtime_op.py:85-103 | the active record carries its operation's highest token throughout a run exactly when no acquisition was recorded with a lower one |
| FencingProofs.OnlyDisplacedLower | ansible/files/qlsm_runtime_op.py:85-103 | only an operation whose record another one replaced can do that |
| FencingProofs.DisplacedOperationBreaksIt | ansible/files/qlsm_runtime_op.py:85-103 | a run in which a lower token passes the fence after a higher one of the same operation |
| FencingProofs.FinalizedOperationBreaksItToo | ansible/files/qlsm_runtime_op.py:85-103 | the same although nobody names any operation terminal |
| FencingProofs.EventKeeps | ansible/files/qlsm_runtime_op.py:129-304 | every step of acquire, release, finalize, check and holder, and every death, keeps the invariant |
| ManagedFilesUndo.RemovesExactly | ansible/files/qlsm_runtime_op.py:753-779 | in every run, whatever the payloads: an accepted restore that is let run ends with exactly the original paths if and only if, when it begins, every created destination still there is a single-link file with the digest last written; and then all is undone |
| ManagedFilesUndo.ChangedIsKept | ansible/files/qlsm_runtime_op.py:767-779 | a created file that fails that guard stays as it is, and so do the directories above it |
| ManagedFilesUndo.ApplyThenRestore | ansible/files/qlsm_runtime_op.py:681-779 | after any applies of one payload per destination and any restores, all cut off anywhere, an accepted restore that runs ends with exactly the original paths, the originals' bytes and permission bits where it wrote, and the rest untouched |
| ManagedFilesUndo.OriginalsComeBack | ansible/files/qlsm_runtime_op.py:753-766 | with payloads that may change too, a finished restore has every original back and never touched anything else that was there |
| ManagedFilesUndo.BackupsNeverCollide | ansible/files/qlsm_runtime_op.py:700-720 | in every state each inventoried original has an index of its own, below the number of entries, and its bytes are there |
| ManagedFilesUndo.RestoreTwice | ansible/files/qlsm_runtime_op.py:725-779 | in every run, whatever the payloads, restoring once more changes nothing at all |
| ManagedFilesUndo.RefusesExactly | ansible/files/qlsm_runtime_op.py:739-750 | in every run the checks fail exactly when some original has an index of more than six digits |
| ManagedFilesUndo.MillionEntriesAreFine | ansible/files/qlsm_runtime_op.py:713-745 | an inventory of at most a million entries is never refused |
| ManagedFilesRuns.MillionthOriginal | ansible/files/qlsm_runtime_op.py:713-745 | a run from a tree with one file: an apply of a million new files and then that one, cut off once it is inventoried, after which restore refuses |
| ManagedFilesUndo.TooLongForGood | ansible/files/qlsm_runtime_op.py:690-720 | an inventory that is refused once is refused for good |
| ManagedFilesUndo.WriteOnce | ansible/files/qlsm_runtime_op.py:690-706 | what the inventory says of an original never changes in a run |
| ManagedFilesRuns.ChangedPayloadIsKept | ansible/files/qlsm_runtime_op.py:704-706 | a run in which a created file survives a finished restore, because a cut replay had another payload |
| ManagedFilesUndo.RestoreCompletes | ansible/files/qlsm_runtime_op.py:753-779 | when the created files left to do are as they were written, an uncut restore takes one operation per entry and per directory and undoes everything |
| ManagedFilesUndo.CreatedGoes | ansible/files/qlsm_runtime_op.py:767-774 | a created file that is still what was written is removed |
| ManagedFilesUndo.DirGoes | ansible/files/qlsm_runtime_op.py:775-779 | deepest first, a created directory is empty when its turn comes |
| ManagedFilesProofs.EventKeeps | ansible/files/qlsm_runtime_op.py:660-779 | every operation and every crash keeps: originals are kept aside, and the tree differs from the original one only where the inventory says |
| ManagedFilesProofs.RestoresExisting | ansible/files/qlsm_runtime_op.py:755-766 | a destination that existed is restored in one operation, its ancestors being there |
| ManagedFilesProofs.MissingIsAll | ansible/files/qlsm_runtime_op.py:693-703 | the climb to the first existing parent lists every directory that is missing |
| ManagedFilesOps.Files.Apply | ansible/files/qlsm_runtime_op.py:681-724 | the command's loops are a run of the machine, and on success every destination holds its payload with its mode |
| ManagedFilesOps.Files.RecordAll | ansible/files/qlsm_runtime_op.py:681-719 | the inventory loop and its single save are a run of the machine |
| ManagedFilesOps.Files.WriteAll | ansible/files/qlsm_runtime_op.py:721-723 | the write loop, with the directories it makes, is a run of the machine |
| ManagedFilesOps.Files.MissingAbove | ansible/files/qlsm_runtime_op.py:693-700 | the climbing loop computes the missing directories, or the refusal |
| ManagedFilesOps.Files.Restore | ansible/files/qlsm_runtime_op.py:753-780 | the command's loops are a run of the machine, and a created file still there afterwards is reported as kept |
| ManagedFilesOps.EndsAlike | ansible/files/qlsm_runtime_op.py:660-780 | two uncut runs of one command end in the same state, so the methods end where the theorems say |
| ExpandPlan.Expand | ansible/files/qlsm_runtime_op.py:573-635 | it refuses exactly when an ordinary source does, a destination is not allowed, or a deferred file is a symlink or could not be put; else it plans exactly what ordinary sources cover, from the last of them, and what only deferred ones offer where nothing is, from the first |
| ExpandPlan.AddMissing | ansible/files/qlsm_runtime_op.py:625-634 | one deferred source: it refuses exactly an unwelcome file, and fills exactly the free destinations |
| RestoreSwap.NeverLost | ui/runtime_upgrade_snapshot.py:372-445 | through crashes, errors and reruns the tree that was live when an attempt was journalled is live or that attempt's backup until the verified copy is in place and the fields are committed |
| RestoreSwap.RerunConverges | ui/runtime_upgrade_snapshot.py:457-507 | after any run a rerun that is let run restores tree, fields and journal exactly when it needs no new copy or the snapshot's tree matches its entry |
| RestoreSwap.NeverBoth | ui/runtime_upgrade_snapshot.py:385-410 | the swap never meets both live and backup, never neither, and never has to stage again |
| RestoreSwap.RefusesBoth | ui/runtime_upgrade_snapshot.py:385-410 | mid-swap every uncut rerun fails exactly when live and backup both exist, and changes nothing |
| RestoreSwap.CommitsTheVerified | ui/runtime_upgrade_snapshot.py:473-481 | the fields are committed only when live is the snapshot's tree and no swap is in flight |
| RestoreSwap.EarlierBackupsStay | ui/runtime_upgrade_snapshot.py:412-436 | the backup of an attempt that a later one followed is never touched |
| RestoreSwap.EventKeeps | ui/runtime_upgrade_snapshot.py:372-507 | every step, error, crash and edit between attempts keeps the invariant of directories and journal |
| RestoreSwapOps.Restorer.RestoreInstance | ui/runtime_upgrade_snapshot.py:457-507 | whichever of its operations raise, the method is a run of the machine, and success means the fields are restored |
| RestoreSwapOps.Restorer.CompleteSwap | ui/runtime_upgrade_snapshot.py:385-409 | the same for the swap, from whichever side an earlier try stopped on |
| RestoreSwapOps.Restorer.MoveStaged | ui/runtime_upgrade_snapshot.py:395-402 | the second rename, and the way back when it raises |
| RestoreSwapOps.Restorer.RestoreTree | ui/runtime_upgrade_snapshot.py:412-445 | the journalled attempt as a whole |
| ConvertSwap.OldTreeIsSafe | ui/runtime_upgrade_conversion.py:204-224 | in every run from a disk without an original, the old tree is live or kept aside, nothing is refused, and success means live is the converted tree |
| ConvertSwap.InstallsUnlessBoth | ui/runtime_upgrade_conversion.py:204-224 | on any disk an uncut try installs exactly unless another live tree and an original both exist, and then changes nothing |
| ConvertSwap.RerunInstalls | ui/runtime_upgrade_conversion.py:204-224 | after any run a rerun that is let run ends with live equal to the converted tree |
| ConvertSwap.Instance.Install | ui/runtime_upgrade_conversion.py:204-224 | the uncut method ends where the machine ends |
| SnapshotCopy.CopyIsCaptured | ui/runtime_upgrade.py:451-498 | whatever changes between the listing and each read: no problem is reported exactly when no file was added and the copy's digests are the captured ones |
| SnapshotCopy.MaterializedIsCaptured | ui/runtime_upgrade.py:501-534 | what was materialized without raising has the captured digests, tree by tree and instance by instance |
| SnapshotCopy.UnchangedIsFaithful | ui/runtime_upgrade.py:451-498 | a captured folder that does not change is copied file by file and directory by directory |
| SnapshotCopy.Destination.CopyVerified | ui/runtime_upgrade.py:451-480 | the copy loop raises, reports and writes exactly what the specification says |
| SnapshotCopy.Destination.CopyDirectories | ui/runtime_upgrade.py:483-498 | the walk recreates exactly the directories with their modes, or finds a file in the way |
| SnapshotCopy.Materialize | ui/runtime_upgrade.py:501-534 | all trees are copied and checked, and it raises exactly when one is unknown or unfaithful |
| SnapshotPrepare.CompleteMeansWhole | ui/runtime_upgrade_snapshot.py:259-325 | in every run, with drift until the re-read, crashes and lost commits: a call returns, and complete gets recorded, only with a published directory that holds exactly what was captured; a failure whose cleanup went through leaves nothing |
| SnapshotPrepare.VerifiedIsWhole | ui/runtime_upgrade_snapshot.py:240-256 | reading again what a manifest of the capture lists leaves no drift unnoticed |
| SnapshotPrepare.EntriesAreCaptured | ui/runtime_upgrade_snapshot.py:204-225 | entries taken from an inventory that passed the comparison list the captured digests |
| SnapshotPrepare.WholeExactly | ui/runtime_upgrade_snapshot.py:274-338 | what is recorded as complete is whole throughout a run exactly when no cleanup reached the published directory of a complete operation and left it otherwise |
| SnapshotPrepare.UntouchedUnlessLost | ui/runtime_upgrade_snapshot.py:274-284 | without a commit that raised although it went through, no rerun, error or crash removes or changes what is recorded as complete |
| SnapshotPrepare.RerunRebuilds | ui/runtime_upgrade_snapshot.py:274-325 | after any run a call that is let run builds a whole snapshot exactly when what it copies is as captured, and else leaves nothing; a complete one is returned exactly when it is still whole |
| SnapshotPrepare.LostCommitDeletes | ui/runtime_upgrade_snapshot.py:318-338 | from the first call, for every capture that can be copied: a run whose commit raises although it went through ends with complete set and nothing published |
| SnapshotPrepare.EventKeeps | ui/runtime_upgrade_snapshot.py:274-338 | every operation, error, crash and drift keeps what is known of stages and manifests |
| SnapshotPrepareOps.Operation.Prepare | ui/runtime_upgrade_snapshot.py:259-338 | whichever of its operations raise, the method is a run of the machine |
| SnapshotPrepareOps.Operation.SnapshotInstances | ui/runtime_upgrade_snapshot.py:204-225 | the loop raises exactly when a staged copy is not as captured, and else records and inventories every instance |
| SnapshotPrepareOps.Operation.Cleanup | ui/runtime_upgrade_snapshot.py:327-338 | all three removals are tried whatever became of the one before |
| TaskLockProofs.AlwaysExclusive | ui/task_lock.py:32-80 | in every run every live entity lock is in the index, and maintenance never coexists with one |
| TaskLockProofs.BackupExactly | ui/task_lock.py:45-59 | maintenance is taken exactly when no maintenance and no entity lock is live, however lossy the index |
| TaskLockProofs.HeldUntilGiven | ui/task_lock.py:62-80 | a lock stays its owner's until it expires, its owner releases it or it is forced; no other token takes it away |
| TaskLockProofs.RefusedHoldsExactly | ui/task_lock.py:123-135 | in any run the token of a failed or released acquire_locks holds a lock exactly when a step of it left that lock behind, by a lost answer or an unsent release, and it was not forced nor has expired since |
| TaskLockProofs.HeldExactly | ui/task_lock.py:62-80 | a lock whose owner neither acquires nor releases it again is held exactly until it expires or is forced |
| TaskLockProofs.NothingLeaks | ui/task_lock.py:123-135 | with a reachable Redis such a token holds nothing |
| TaskLockProofs.GrantedHoldsExactly | ui/task_lock.py:123-135 | for each id of a call that succeeded there is the step that took it, and since then the token holds it exactly until its time to live has passed or it is forced |
| TaskLockProofs.GrantedHoldsAll | ui/task_lock.py:123-135 | so it holds all of them for its time to live since it began, except what was forced since then |
| TaskLockProofs.LostAnswerLeaks | ui/task_lock.py:123-135 | a run from an empty Redis in which an acquisition whose answer was lost stays held by a token that gave up |
| TaskLock.MaintenanceExactly | ui/task_lock.py:45-59 | the script's walk finds a live lock whenever there is one, and drops only dead names |
| TaskLock.Redis.AcquireLocks | ui/task_lock.py:123-135 | uninterrupted, for any list of ids, it takes all or leaves every live lock as it was, and succeeds exactly when nothing stands in the way |
| TaskLock.Redis.TakeMaintenance | ui/task_lock.py:45-59 | the loop over the index computes the script's effect |
| TaskLock.Redis.Acquire | ui/task_lock.py:32-42 | the entity script |
| TaskLock.Redis.Release | ui/task_lock.py:69-75 | the release script: only the owner's lock goes |
| TaskLock.Redis.ReleaseLocks | ui/task_lock.py:227-237 | exactly the locks of that token among the ids go |
| ParamGrammar.RoundTrip | ui/plugin_compat.py:199-265 | scanning the comma-join of any non-empty list of well-formed parameters, closed by a parenthesis, gives back exactly that list |
| ParamGrammar.SkipsPiece | ui/plugin_compat.py:240-264 | a well-formed piece is walked over without a split and leaves depth, quote and lambda stack as they were |
| ParamScanner.ScanLosesNothing | ui/plugin_compat.py:199-265 | for any text, the parameters joined by commas are exactly the text up to the close |
| ParamScanner.FailsExactly | ui/plugin_compat.py:225-265 | the scan returns nothing exactly when the signature never closes |
| ParamScanner.ScanParams | ui/plugin_compat.py:230-265 | the index loop computes that scan |
| ParamGrammar.AnExample | ui/plugin_compat.py:210-223 | a lambda with two arguments is one well-formed parameter |
| Dependencies.ExpandWithDependencies | ui/plugin_repositories.py:387-419 | terminates on cycles; returns without repeats exactly the selection and all it needs; a dependency comes later only on a common cycle; exactly the added names have a puller, which declares them |
| Dependencies.Search.Visit | ui/plugin_repositories.py:404-414 | one visit finishes its name, keeps what was done before, and adds only what the name needs |
| Dependencies.DependencyFilenames | ui/plugin_repositories.py:369-384 | exactly the published names that another entry declares |
| ConversionAgreement.SelectedHasFile | ui/runtime_upgrade_conversion.py:80-105 | every plugin with a UTF-8 file of its own that stays selected still has a file |
| ConversionAgreement.NothingLostUnreported | ui/preset_compat.py:314-370 | a file that is removed or replaced was reported, or is one nobody wrote |
| ConversionAgreement.ReportedSurvives | ui/runtime_conversion.py:44-64 | a reported file that is not ticked survives exactly when it is blank, what the target ships there, or untouchable |
| ConversionAgreement.AutoReplacesStock | ui/preset_compat.py:341-348 | what is replaced without asking becomes the target's copy, and was an untouched stock file |
| RuntimeConversion.Directory.Filter | ui/runtime_conversion.py:14-112 | the walk and the accepted writes leave exactly the filtered directory, and report exactly what was removed and restored |
| CompatReport.ApplyCompatibility | ui/preset_compat.py:271-400 | the response is returned as it was exactly for no target or the same runtime; else the loop reports, offers, accepts and keeps exactly what the rules say of each file, and keeps the checked list without the stripped |
| CompatReport.ParseAnswers | ui/runtime_upgrade_conversion.py:48-77 | answers are valid exactly when they are missing or an object whose keys name captured instances and whose values list offered or accepted paths; every instance gets its last answer, sorted, without what is replaced anyway |
| CompatReport.SelectionInOrder | ui/runtime_upgrade_conversion.py:102-105 | every plugin that was not stripped or whose replacement was ticked stays, at the place its predecessors that stay leave it, and no other |
| PluginSelection.SelectionReadsBack | ui/runtime_upgrade_conversion.py:88-105 | the converted selection, read again, is exactly the plugins that stay, in their order; none reads as no selection |
| PluginSelection.ReadsJoined | ui/runtime_upgrade.py:124-128 | reading inverts the comma join of any plugins as reading gives them |
| LineEndings.DigestIsStable | ui/plugin_compat.py:355-368 | normalizing line endings twice changes nothing, so digests agree on both sides |
| PluginPool.Pool.Download | ui/plugin_repositories.py:587-677 | reports exactly the conflicting members and writes nothing, or leaves every member's merged copy equal to the fetched bytes up to line endings, with its sidecar written, removed or skipped; a sidecar without its plugin is left exactly on an overwrite of the built-in copy's own code |
| PluginPool.DownloadThenStatus | ui/plugin_repositories.py:768-806 | after a download the entry of an honest manifest is up to date |
| PluginPool.UpdateStatus | ui/plugin_repositories.py:741-806 | unknown exactly without a known runtime or anything declared; up to date exactly when the file and every declared member have the declared digests |
| PluginPool.DiffTrees | ui/update_checks.py:88-105 | the rows are exactly the differences, sorted by name, and there are none exactly when the two maps are equal |
| Sorting.Sort | ui/update_checks.py:104-105 | the members of a set in ascending order, each once |

## Left out

- Network, SSH, Ansible, Redis transport, Flask and the user interface: room calls and publications are oracles that succeed or fail.
- Disconnect handler: its waits at a gate are not interrupted.
- RconRooms.KeepsExactly: stated of states in which no handler is at work; from any other, all handlers can run to completion first (RconProgress.NoDeadlock).
- RconProgress.EveryScheduleEnds: of the handlers that are present and without spurious wake-ups, of which there could be any number.
- Nothing is dispatched any more from a session whose disconnect failed; its rooms may be forgotten at any time after.
- Room calls that raise are taken to leave the membership as it was.
- Handler bodies are taken not to raise between a claim and its completion, other than by the modelled room calls and publications.
- Striped conditions: a stripe is modelled as one condition per key or session, which wakes fewer threads.
- Fleet commands, which pass several target gates one after another while they are registered; a command passes one.
- Stats subscriptions, emits and command forwarding, and the database lookup of a target, are one choice of the step.
- Other registry readers, owns and is_closing among them: they only look.
- Real forks, flock, pids and start times: a process holds the lock or not, and pids are never reused.
- FencingProofs.LowerTokenNeverReturns: needs that no displaced operation is acquired again, because with one it is false (DisplacedOperationBreaksIt); PassesLowerExactly has the exact condition.
- Walks without following links, owners, groups, fsync and the trusted-directory checks: a file is bytes, mode and link count, and a write or rename is atomic and durable.
- The operation directory with its backups and manifest is apart from the instance tree, and only these commands write to either.
- ManagedFilesUndo.ApplyThenRestore: needs one payload per destination, because with a changing one it is false for created files (ManagedFilesRuns.ChangedPayloadIsKept); RemovesExactly has the exact condition. A process killed while it writes leaves its temporary file beside the destination; that file is not modelled, stays after a restore, and keeps a created directory it is in.
- ManagedFilesOps.Files.Restore: takes the order of entries and directories, any in which a path comes before what is below it and longer paths first, instead of sorting; and a well-formed tree, as a file system has.
- Fence checks inside apply and restore are where a crash may fall; the inventory of another instance directory is not modelled.
- An apply that does not record is outside the runs of the inventory: nothing could undo it. `ManagedFilesOps.Files.Apply` covers it.
- Apt simulation parsing and the command line of the host helper.
- The service state that is verified after a restore: a step that may fail; the instance's status is not modelled.
- RestoreSwap.RerunConverges: assumes that only the restore touches live, staged and backup while a swap is in flight.
- SnapshotPrepare.CompleteMeansWhole: the manifest itself does not drift, nor anything between the re-read and the commit that follows it; both would go unnoticed.
- The checks that a capture belongs to the host and to the operation's fingerprint, file times, and what a preset holds; and the upgrade orchestrator that calls these functions.
- TaskLock.Redis.AcquireLocks: the time to live is positive, which Redis demands.
- The scan for incompatible calls and the tokenizer that masks strings: only the baseline hash decides compatibility, so the verdict and its reasons are not modelled.
- ParamScanner.ScanParams: which characters beyond ASCII are letters is left open; everything holds whichever they are.
- _handler_params and the arity scan built on the scanner, with their regular expressions.
- Plugins enabled from the source runtime's shared pool.
- PluginPool.Pool.Download: a file name that ends in a newline is refused here though the regular expression lets it pass; directories in the way of a file are not modelled.
- Version risk, addons, update checks over SSH, catalogs, notifications, backups, configuration and models: data, wrappers or easy facts.

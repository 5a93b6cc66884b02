# Più: state machines of the back end

This project models the stateful protocols of Più's Rust back end and proves properties of
them: the crash-safe store of model assets (removal, recovery, resumable downloads), the
projection of a conversation into a snapshot and a stream of client deltas, the journals
that create and delete a chat's workspace, the decoding and retention of setup output, the
request accounting and framing of the RPC transport, the guard that keeps a model route
enabled, and the sign-in state machine. `dafny verify dfyconfig.toml` checks all of it.

## How it is modelled

* **Asset store.** The disk is a map from names to files plus the staging directories, inside
  a class whose methods are atomic and may report an error or stop the process before or
  after their effect. The operations are written step by step as in the source; a predicate
  says which disks an interrupted removal may leave (`RemovalRecovery.Interruptible`), every
  step keeps it, and recovery is proved from it. `AssetOperations` is the operation slot:
  each method is one critical section, and other threads may run between any two steps.
* **Downloads.** The names belonging to one asset are a value (`AssetDownloads.Files`);
  `Sound` says that bytes of one revision are only found under that revision's metadata or
  record. The server holds one byte string per pinned entry and answers ranges as sections
  14.4 and 15.3.7 of RFC 9110 require.
* **Conversation.** `ProjectionSteps` says, as functions, what each event and command does;
  the class in `ConversationProjection` performs it in place with the source's loops and is
  proved to agree. `ConversationReplay` has the client's store as
  `src/features/conversation/conversation-store.ts` defines it, and `ConversationLate` what
  happens between a command's change and its events. `ConversationEvents` says report by
  report what a reader sees, `ConversationTurns` and `ConversationTools` that opening the longer
  history shows the same. Ids are a datatype with the source's string formats; the formats are
  proved injective.
* **Workspaces.** One chat's directory, worktree, branches, database rows and session file;
  git calls and database transactions are atomic steps.
* **Transport, preferences, sign-in.** Classes whose methods are the critical sections of the
  source, proved against step functions; runs are arbitrary sequences of steps.

## What the code does that its promises do not say

* If publishing the Deleting journal reports an error after taking effect and the process
  stops during the rollback, recovery keeps some owned files and deletes others
  (`RemovalCrashes.HalfRolledBack` gives the exact condition, `MixedState` a run).
* An error reading a file's metadata inside the staging loop returns without any rollback and
  without requiring recovery, so other operations may follow in the same process. The next
  start restores the files if and only if each is still under exactly one of its two names
  (`RemovalStarts.StopRecoversIff`); a second removal, or a download once the status lets one
  start, can end that for good (`RemovalCrashes.StoppedThenBlocked`).
* A removal writes a journal of more than 64 entries without complaint, and recovery then
  refuses it (`RemovalCrashes.JournalAcceptedIff`, `ManyOwned`).
* A private transfer recorded for another revision is never recovered: the check refuses at
  every start (`AssetDownloads.Downloads.DownloadAcrossStarts`, `OtherRecordStays`).
* The host keeps a pending input request in places where its clients drop it
  (`ConversationSync.InputKeptIff`), until the turn ends.
* A user message without text is numbered in a rebuilt history and not in a stream, and a
  stored chat without a history shows a message no history has: the two exceptions of
  `ConversationTurns.StreamingRefinesBatch`.
* An error reading the branch of a half-made chat counts as "not attached", and its branch is
  then left for good (`ChatCreation.Workspaces.ReconcileReservation`).
* Enabling an extension is not checked, and one that takes a provider over may leave a project
  without a model (`RoutePreferences.EnablingLosesAllIff`, `EnablingLosesLast`).
* A prompt may be pending while the status does not show it (`SignIn.HidesPendingIff`).
* Whether a line of the maximum length with a carriage return is accepted depends on how it
  is read (`RpcStreams.FitsHoweverRead`).
* Up to three bytes of output may follow the truncation marker (`SetupOutput.AfterMarkerIff`).
* The late answer to one of more than 256 abandoned requests ends the transport
  (`RpcRequests.LateAnswerIff`).
* The error buffer is also flagged when one chunk alone fills it and nothing was lost
  (`RpcStreams.FlaggedWithoutLoss`).
* A command changes the conversation under one lock and stamps its events under another, so
  what Pi reports in between reaches clients first; a client may then show what the host does
  not. `ConversationLate.LateIff` and `LateRejectIff` give the exact conditions, `LateStamps` a
  case.

## Model

| member | source | states |
|---|---|---|
| RemovalCrashes.RemoveAcrossCrashes | src-tauri/src/model_assets.rs:2267-2554 | A removal interrupted anywhere, beside whatever directories earlier removals left, followed by any number of starts interrupted anywhere. When a recovery completes, no staging directory is left, files the removal does not own are as they were, or put back by another directory's journal, and, the other directories being independent, all owned files are back at their names (same inode and contents) if no Deleting journal was published, and none is left if one was and the calls that publish it reported no error. A start that does not complete met an I/O error or a crash, unless the directories were not independent, one of them lists an owned file, or there are too many. The removal stops without an I/O error only for one of the reasons the code has. A Deleting journal is published only by a removal whose cancellation was not accepted and whose listed files all had the digests the marker records |
| RemovalStarts.RecoverAcrossStarts | src-tauri/src/model_assets.rs:1475-1502 | On a disk with any number of directories left at any point of their removals, however many starts die or are refused on the way, every directory stays one a start can read and nothing outside is lost. If the directories are independent they stay so, and each start that does not complete met an I/O error or a crash. A removal that is apart from the other directories ends as it would alone. Where the only directory is blocked no start ever completes |
| RemovalStarts.RecoverStagedRemovals | src-tauri/src/model_assets.rs:1475-1502 | One start recovers every staging directory it finds, in whatever order, Staging and Deleting journals side by side: it completes if and only if each in its turn has at most 64 entries and, if it puts files back, finds every one under exactly one of its names, an I/O error, a crash or more than 64 directories apart; on independent directories it always does |
| RemovalStarts.StopRecoversIff | src-tauri/src/model_assets.rs:2353-2364 | A removal that stopped while staging, and anything done outside its directory since: a start recovers it if and only if its journal has at most 64 entries and every file it lists is under exactly one of its two names |
| RemovalStarts.DeletingSettles | src-tauri/src/model_assets.rs:1806-1822 | A removal cut off at its Deleting journal, with anything done outside its directory since and any directories beside it: nothing but more than 64 entries keeps a start from recovering it |
| RemovalStarts.IndependentIff | src-tauri/src/model_assets.rs:1475-1502 | Directories are independent, each with few enough entries and its files under one name, and no two with a file to put under the same name, if and only if a start completes in whatever order it finds them |
| RemovalCrashes.RemovalsThenStart | src-tauri/src/model_assets.rs:2068-2108 | Any number of removals in one process, each stopped or cut off anywhere, with anything done outside the staging directories in between, then a start: it completes, errors and crashes apart, if and only if each directory, as it was left, finds in its turn what recovering it needs |
| RemovalCrashes.RemoveRepeatedly | src-tauri/src/model_assets.rs:2068-2108 | Removals follow each other until recovery is required or the process dies. The log tells of each request the disk before and after it and an outcome that explains the change; between two removals no staging directory changes; all but the last let the process go on, and the last dies or requires recovery only after a crash or an I/O error. Every directory left is one a start can read |
| RemovalCrashes.RemovalLeaves | src-tauri/src/model_assets.rs:2353-2554 | Wherever a removal stops, its directory is one a start can read, and those left before it are untouched |
| RemovalCrashes.RemoveThenBegin | src-tauri/src/model_assets.rs:2085-2108 | After a finished removal the next operation, a download or another removal, starts at once |
| RemovalCrashes.StoppedThenBlocked | src-tauri/src/model_assets.rs:3138-3145 | After such a stop a second removal, or a download that puts a staged file back, leaves a directory that blocks every start |
| RemovalCrashes.KeptDetermined | src-tauri/src/model_assets.rs:1719-1829 | A disk alone determines which owned files recovery keeps |
| RemovalCrashes.JournalAcceptedIff | src-tauri/src/model_assets.rs:619-645 | The journal a removal writes is one recovery accepts if and only if at most 64 files, the marker included, are owned |
| RemovalCrashes.ManyOwned | src-tauri/src/model_assets.rs:619-645 | For every number of files there is a removal that lists them; from 64 on, with the marker, its own journal is not accepted |
| RemovalCrashes.HalfRolledBack | src-tauri/src/model_assets.rs:2489-2504 | A rollback cut off with some entries still staged is completed by recovery to all or nothing if and only if the journal on disk is the Staging one, or nothing or everything was put back |
| RemovalCrashes.MixedState | src-tauri/src/model_assets.rs:2489-2504 | The steps of a removal whose Deleting publication reports an error lead to a disk from which recovery keeps some owned files and loses others |
| RemovalStarts.LimitByOwned | src-tauri/src/model_assets.rs:624-626 | An interrupted removal of at most 64 owned files leaves a journal within the limit of recovery |
| AssetRemoval.PerformOwnedRemoval | src-tauri/src/model_assets.rs:2267-2554 | Either nothing changed, or a staging directory was opened and the outcome is explained: removed with nothing left and the operation slot free; superseded, and then another operation has the slot; stopped, and then without an I/O error the exact original name-to-file map is back; or lost to a crash in a state recovery finishes from. A Deleting journal is published only over a usable marker whose present files all have the recorded digests; a stop without an I/O error has an accepted cancellation, a lost slot, an unusable marker, a file of another size, link count or digest, or no free staging name as its reason |
| AssetRemoval.RemoveListed | src-tauri/src/model_assets.rs:2323-2554 | The same from the usable marker on: explained outcome, verified digests before the Deleting journal, and a reason for every stop |
| AssetRemoval.StageAndDelete | src-tauri/src/model_assets.rs:2353-2554 | A Deleting journal is published only after the removal was committed, and nothing owned is unlinked before; what is kept is everything until then and nothing afterwards unless publishing failed; without a lost slot or a wrong digest it stops only after an accepted cancellation or an I/O error |
| AssetRemoval.DeleteCommitted | src-tauri/src/model_assets.rs:2428-2554 | From the commit on no cancellation is seen: the marker, the Deleting journal and the deletion stop only after an I/O error, in a state recovery finishes from; removed, the slot is free; superseded, it is another operation's |
| AssetRemoval.StageFiles | src-tauri/src/model_assets.rs:2353-2424 | Staging the listed files one by one: stopped after any number of files by a wrong digest or a cancellation, everything is put back; finished, every present listed file had its recorded digest |
| AssetRemoval.StageFile | src-tauri/src/model_assets.rs:2353-2424 | One listed file: skipped when absent, staged and hashed otherwise |
| AssetRemoval.StageEntry | src-tauri/src/model_assets.rs:2376-2423 | Rename, hash and compare; a mismatch or a cancellation undoes all staging so far |
| AssetRemoval.StageMarker | src-tauri/src/model_assets.rs:2428-2471 | The marker is staged last and must be the file that was read |
| AssetRemoval.PublishDeleting | src-tauri/src/model_assets.rs:2472-2504 | Replaces the Staging journal by a Deleting one that names every staged inode; an error there starts a rollback with that journal possibly on disk |
| AssetRemoval.DeleteStaged | src-tauri/src/model_assets.rs:2505-2537 | Unlinks only files whose recorded identity still matches; every point in between is one recovery completes to nothing left |
| AssetRemoval.OpenJournal | src-tauri/src/model_assets.rs:2323-2352 | The Staging journal covers exactly the owned files before the first rename |
| AssetRemoval.CreateRemovalStaging | src-tauri/src/model_assets.rs:2556-2575 | Finds an unused staging name in at most 64 attempts and gives up without an I/O error only if all are taken; nothing else changes |
| AssetRemoval.ReadMarker | src-tauri/src/model_assets.rs:2273-2289 | A marker is read exactly when it is a single-linked, small enough file that authorizes removal, short of an I/O error |
| AssetRemoval.ListPresent | src-tauri/src/model_assets.rs:2290-2322 | Entries for exactly the listed files that are present, each with its recorded size and a single link; refused without an I/O error only if one has another |
| AssetRemoval.PlanCovers | src-tauri/src/model_assets.rs:3732-3767 | The plan of an authorized marker names exactly the owned files, each once, under distinct staged names |
| AssetRemoval.Unstage | src-tauri/src/model_assets.rs:2425-2430 | A refused commit rolls all staging back |
| RemovalJournal.WriteJournal | src-tauri/src/model_assets.rs:552-560 | Publishes a journal through a private write; interrupted, at most that private write is left |
| RemovalJournal.RollbackStaged | src-tauri/src/model_assets.rs:2591-2624 | Renames back last first; completed, every original is in place and the staging directory is gone; interrupted, recovery knows what to keep |
| RemovalJournal.RollbackOrRequireRecovery | src-tauri/src/model_assets.rs:2218-2228 | Either the exact original state, or recovery is required after an I/O error |
| RemovalJournal.RollbackAfterPossibleStage | src-tauri/src/model_assets.rs:2230-2260 | Decides from where the file is whether a failed rename took place, and rolls back accordingly |
| RemovalJournal.UnstageLast | src-tauri/src/model_assets.rs:2591-2624 | One rename back, refused if the staged file is not the recorded one or the original name is taken |
| RemovalRecovery.RecoverStagedRemoval | src-tauri/src/model_assets.rs:1719-1829 | From any interruptible disk a completed recovery leaves the kept originals and no staging directory, every interrupted one leaves an interruptible disk with the same outcome, it refuses only after an I/O error or above the entry limit, an invalid journal leaves the disk alone, and a Staging journal that names a file under both its names or under neither is refused and stays so |
| RemovalRecovery.RestoreEntries | src-tauri/src/model_assets.rs:1783-1805 | A Staging journal: every entry goes back to its original name |
| RemovalRecovery.DeleteEntries | src-tauri/src/model_assets.rs:1806-1822 | A Deleting journal: every entry still staged under its recorded identity is unlinked |
| RemovalRecovery.RemoveAbandonedEmptyStaging | src-tauri/src/model_assets.rs:1831-1870 | A staging directory without a journal is removed only if it is empty or holds one unpublished journal |
| RemovalRecovery.RemoveRecoveryMetadata | src-tauri/src/model_assets.rs:1872-1910 | Removes the journal and private writes and nothing else; interrupted, the disk stays interruptible |
| RemovalRecovery.NothingUnexpected | src-tauri/src/model_assets.rs:1756-1780 | A name that is neither planned nor metadata makes recovery refuse |
| RemovalRecovery.CloseStaging | src-tauri/src/model_assets.rs:1823-1829 | Journal, then directory; the journal goes last of the metadata that matters |
| AssetOperations.Operations.CancelDownload | src-tauri/src/model_assets.rs:2006-2014 | Accepted exactly when the active operation may be cancelled; an accepted cancellation is disjoint from every operation that published Ready or committed a removal |
| AssetOperations.Operations.CommitRemoval | src-tauri/src/model_assets.rs:2110-2129 | Succeeds exactly for the active, uncancelled removal, which can then no longer be cancelled |
| AssetOperations.Operations.PublishReady | src-tauri/src/model_assets.rs:2743-2769 | Publishes Ready exactly for the active operation whose cancellation was not accepted |
| AssetOperations.Operations.FinishRemoval | src-tauri/src/model_assets.rs:2543-2547 | A finished removal frees the slot exactly if it still holds it, and touches no other operation's |
| AssetOperations.Operations.BeginDownload | src-tauri/src/model_assets.rs:1974-2004 | Starts exactly when no operation is active and the status is neither ready, of another revision nor not owned, under the next id, which nothing was cancelled or promised for; joins exactly a running download, is refused as busy exactly beside another operation, and otherwise for the standing the status has |
| AssetOperations.Operations.BeginRemoval | src-tauri/src/model_assets.rs:2085-2108 | Starts exactly when no operation is active |
| AssetOperations.Operations.PublishOperationFailure | src-tauri/src/model_assets.rs:3138-3184 | A failure frees the slot unless recovery is required |
| AssetOperations.Operations.Interleave | src-tauri/src/model_assets.rs:1230-1246 | Any number of critical sections of other threads keeps accepted cancellation binding |
| AssetDownloads.Downloads.RecoverPrivateWrite | src-tauri/src/model_assets.rs:1570-1717 | Whatever point a transfer was cut off at, recovery keeps the longer of the bound partial and the recorded transfer to the byte, interrupted again it loses nothing, completed it leaves no private name and no record; it refuses only after an I/O error, too many names or a record of another revision, and those two stay; without an error or a crash it completes |
| AssetDownloads.Downloads.SettlePlanned | src-tauri/src/model_assets.rs:1678-1713 | The recorded transfer becomes the partial exactly when it holds more |
| AssetDownloads.Downloads.RemoveUnrecorded | src-tauri/src/model_assets.rs:1625-1640 | Unrecorded private transfers are removed only when empty |
| AssetDownloads.RecoveredIsBest | src-tauri/src/model_assets.rs:1680-1713 | After recovery the partial has the larger of the two sizes, and a second recovery changes nothing |
| AssetDownloads.PublishShrinksIff | src-tauri/src/model_assets.rs:3023-3031 | Publishing shortens what can be resumed if and only if the transfer holds less than the partial it replaces |
| AssetDownloads.CompleteIsPinned | src-tauri/src/model_assets.rs:3396-3423 | A complete bound partial is the pinned number of first bytes of its own revision |
| AssetDownloads.Downloads.DownloadFile | src-tauri/src/model_assets.rs:2771-3079 | Over every answer, failure, cancellation and crash: bytes on disk are a prefix of their own revision within its pinned size; the final file changes only to one of pinned size and digest; and nothing resumable is lost unless the server answered a request for the rest with the whole file, its bytes up to the pinned size do not have the pinned digest, or what was there is of another revision. A stop with no I/O error, cancellation or network trouble means that the recorded transfer was not recoverable or the server does not have the pinned entry |
| AssetDownloads.Downloads.FetchAndVerify | src-tauri/src/model_assets.rs:2850-3079 | The network part of an attempt keeps the same, and stops untroubled only if the server does not have the pinned entry |
| AssetDownloads.Downloads.Fetch | src-tauri/src/model_assets.rs:2850-3049 | A range answer continues at the offset asked for, a whole answer starts over, without a range any success is the whole file, and anything else changes nothing. Once the transfer is closed the partial is exactly what there was, or nothing if everything was sent again, followed by as much of the answer's own body as was written |
| AssetDownloads.Downloads.OpenTransfer | src-tauri/src/model_assets.rs:2924-2979 | The private transfer starts with what the partial held, under a record for the pinned revision |
| AssetDownloads.Downloads.Adopt | src-tauri/src/model_assets.rs:1074-1120 | The partial moves into the transfer without losing a byte; if it cannot be opened it is put back |
| AssetDownloads.Downloads.Transfer | src-tauri/src/model_assets.rs:2986-3021 | Chunks of the answer's body are appended, each behind the one before, while they fit the pinned size; the file ends as what there was and the part of the body that was written; ends early only after trouble or when the server has another size |
| AssetDownloads.Downloads.WriteChunk | src-tauri/src/model_assets.rs:2995-3007 | One chunk goes behind what has been written of the body, whole or not at all |
| AssetDownloads.Downloads.Receive | src-tauri/src/model_assets.rs:2924-3040 | A transfer that starts with what is on disk and gets the rest as the body ends as the partial of exactly these bytes |
| AssetDownloads.Downloads.CloseTransfer | src-tauri/src/model_assets.rs:3023-3040 | What arrived is published, complete or not, then the record goes |
| AssetDownloads.Downloads.Verify | src-tauri/src/model_assets.rs:3047-3078 | Installs a complete partial exactly when its digest is the pinned one, and resets it otherwise |
| AssetDownloads.Downloads.VerifyComplete | src-tauri/src/model_assets.rs:2827-2868 | A partial that is complete already is installed, or started over if the pinned number of bytes the server has do not have the pinned digest |
| AssetDownloads.Downloads.Prepare | src-tauri/src/model_assets.rs:2784-2825 | A partial is resumed only under the pinned metadata and within its size |
| AssetDownloads.Downloads.Discard | src-tauri/src/model_assets.rs:1206-1227 | The private file is removed unless another file has its name |
| AssetDownloads.Downloads.DownloadAcrossStarts | src-tauri/src/model_assets.rs:1504-1523 | Over any sequence of attempts, each for whatever revision the application then pins, bytes of one revision never sit under another; while one entry is pinned, the server has it and never answers a request for the rest with the whole file, what can be resumed never gets shorter before it is installed; and while one entry is pinned that a record of another revision blocks, nothing is ever installed |
| AssetDownloads.OtherRecordStays | src-tauri/src/model_assets.rs:1651-1656 | A sound disk whose record speaks of another revision, which blocks every download of the pinned one |
| ConversationProjection.ConversationProjection.ProjectPiEvent | src-tauri/src/chat_runtime_host.rs:2840-3152 | Folds one Pi event into the snapshot and the emitted deltas as the step functions say; `ConversationEvents` says what is shown after it, report by report |
| ConversationEvents.ToolStarts | src-tauri/src/chat_runtime_host.rs:3023-3037 | A call that starts: exactly one item has its id, a running tool with its name and arguments, and all else is as it was |
| ConversationEvents.ToolProgresses | src-tauri/src/chat_runtime_host.rs:3038-3056 | A call that goes on: the same, with what it reports so far |
| ConversationEvents.ToolEnds | src-tauri/src/chat_runtime_host.rs:3057-3077 | A call that ends: exactly one item has its id, with its name and result, as failed exactly if it is an error, and all else is as it was |
| ConversationEvents.CallStarts | src-tauri/src/chat_runtime_host.rs:2952-2973 | A call Pi begins to write is shown as running, unless its id is shown already |
| ConversationEvents.CallGrows | src-tauri/src/chat_runtime_host.rs:2974-2989 | Its arguments replace those before; a position that names no call changes nothing |
| ConversationEvents.CallEnds | src-tauri/src/chat_runtime_host.rs:2990-3012 | It ends with its name and whole arguments |
| ConversationEvents.SpeechStreams | src-tauri/src/chat_runtime_host.rs:2910-2951 | Texts and thoughts start empty, once, and grow by what is reported |
| ConversationEvents.Completed | src-tauri/src/chat_runtime_host.rs:3462-3531 | An item of the finished message: added, completed if what was streamed is a beginning of it, left as it is otherwise; usage replaced, a tool kept |
| ConversationEvents.Placed | src-tauri/src/chat_runtime_host.rs:3214-3253 | A new item goes in front of the first queued user message, or to the end |
| ConversationEvents.TurnEnds | src-tauri/src/chat_runtime_host.rs:3111-3148 | How a turn ends is shown by the reason of its last message: aborted as interrupted, an error as failed with its message, else idle; running tools are interrupted in the first two cases only |
| ConversationEvents.TurnGoesOn | src-tauri/src/chat_runtime_host.rs:3095-3110 | A start is running, a turn that will be retried has not ended, one that is retried has failed |
| ConversationEvents.TurnStops | src-tauri/src/chat_runtime_host.rs:1938-1967 | A stop by the user and a lost runtime: phase, failure, no pending input, running tools interrupted |
| ConversationEvents.RequestShown | src-tauri/src/chat_runtime_host.rs:2851-2856 | A request is pending until it is answered under its id |
| ConversationEvents.SendShown | src-tauri/src/chat_runtime_host.rs:1484-1548 | A sent message is last, queued exactly if a turn is running, and pending last |
| ConversationEvents.RejectShown | src-tauri/src/chat_runtime_host.rs:1580-1634 | A refused message is gone with nothing else if Pi has not started on it, and the turn it began has failed |
| ConversationEvents.UserShown | src-tauri/src/chat_runtime_host.rs:2862-2885 | Pi starts on the waiting message, which is then not queued, or on one of its own, which is shown under the next number |
| ConversationProjection.ConversationProjection.AddItem | src-tauri/src/chat_runtime_host.rs:3214-3253 | An item with a new id goes before the first queued user message |
| ConversationProjection.ConversationProjection.ReconcileNativeSteeringQueue | src-tauri/src/chat_runtime_host.rs:3255-3291 | Sets every user message queued exactly if it is among the last pending ones, and emits each change |
| ConversationProjection.ConversationProjection.SetMessageQueued | src-tauri/src/chat_runtime_host.rs:3293-3317 | Sets one flag and emits it if it changed |
| ConversationProjection.ConversationProjection.AppendItemText | src-tauri/src/chat_runtime_host.rs:3319-3350 | Appends to an item of the right kind only |
| ConversationProjection.ConversationProjection.UpdateTool | src-tauri/src/chat_runtime_host.rs:3352-3393 | Updates a tool or adds it |
| ConversationProjection.ConversationProjection.InterruptRunningTools | src-tauri/src/chat_runtime_host.rs:3395-3416 | Every running tool becomes interrupted, each with a delta |
| ConversationProjection.ConversationProjection.ReconcileUsage | src-tauri/src/chat_runtime_host.rs:3418-3460 | Replaces or adds the usage of a message |
| ConversationProjection.ConversationProjection.ReconcileAuthoritativeItem | src-tauri/src/chat_runtime_host.rs:3462-3531 | Appends what the finished message has beyond the streamed prefix |
| ConversationProjection.ConversationProjection.StampEvents | src-tauri/src/chat_runtime_host.rs:429-441 | Consecutive revisions that end at the snapshot's |
| ConversationProjection.ConversationProjection.SendActive | src-tauri/src/chat_runtime_host.rs:1484-1548 | Shows a sent message at once, queued if a turn is running |
| ConversationProjection.ConversationProjection.RejectPrompt | src-tauri/src/chat_runtime_host.rs:1580-1634 | Takes a refused message back if Pi has not started on it |
| ConversationProjection.ConversationProjection.StopRuntime | src-tauri/src/chat_runtime_host.rs:1938-1967 | Interrupts tools and clears failure and input |
| ConversationProjection.ConversationProjection.AnswerInput | src-tauri/src/chat_runtime_host.rs:1409-1436 | Resolves the pending request of that id |
| ConversationProjection.ConversationProjection.RuntimeStopped | src-tauri/src/chat_runtime_host.rs:2126-2170 | A lost runtime interrupts the turn |
| ConversationProjection.AssistantItems | src-tauri/src/chat_runtime_host.rs:3533-3586 | The items of an assistant message in the order of its parts |
| ConversationSync.ActionReplays | src-tauri/src/chat_runtime_host.rs:2840-3152 | For every reachable projection and every action, a client that showed the old state shows the new one after applying the emitted deltas: same items and order up to tool names, same phase and failure |
| ConversationSync.InputKeptIff | src-tauri/src/chat_runtime_host.rs:2846-2856 | The client's pending input request stays equal to the host's if and only if no request is pending across the start of a turn, a retry, a send, a refused send or a stop of what is stopped, and a repeated id repeats the request |
| ConversationSync.InputDropped | src/features/conversation/conversation-store.ts:121-142 | A concrete state in which the host keeps a request the client drops |
| ConversationSync.InputRecovers | src-tauri/src/chat_runtime_host.rs:3203-3212 | However the two differ, they agree again when the turn ends, the runtime is lost or a new request arrives |
| ConversationSync.CatchesUp | src/features/conversation/conversation-controller.ts:41-73 | A client that takes its snapshot at any point of a run and receives the stamped events from any earlier point on shows the host's state at the host's revision |
| ConversationSync.CatchesUpMidway | src-tauri/src/chat_runtime_host.rs:1340-1362 | The same when the snapshot is taken in the middle of a command, after its change and any number of its events, with nothing in between |
| ConversationLate.LateIff | src-tauri/src/chat_runtime_host.rs:1492-1547 | A message is sent; its first events are stamped, then Pi's reports, however many, then the other events. The client shows what the host shows if and only if, when these are stamped, the turn is still running (if it is to be announced), the message is last and as it was sent (if it is to be announced) and queued (if only that is still to be said) |
| ConversationLate.LateStamps | src-tauri/src/chat_runtime_host.rs:1504-1547 | One report that breaks the order: the queue is empty, and the client shows as queued what the host does not |
| ConversationLate.LateRejectIff | src-tauri/src/chat_runtime_host.rs:1586-1634 | A message Pi refused: with any reports before the events are stamped, the client shows what the host shows if and only if the turn was running when it was sent, or the failure is still the host's |
| ConversationLate.LateAnswer | src-tauri/src/chat_runtime_host.rs:1413-1436 | The event of an answer may be stamped after any reports |
| ConversationLate.RunSilent | src-tauri/src/chat_runtime_host.rs:2800-3152 | Whatever Pi reports, no item is removed, no older user message is added again, and nothing is put in front of one that is not there |
| ConversationLate.HiddenAll | src/features/conversation/conversation-store.ts:93-119 | On the client, leaving one item out commutes with such events, if the item is last after them or nothing is put in front of it |
| ConversationSync.RunReplays | src-tauri/src/chat_runtime_host.rs:2102-2125 | The deltas of a whole run replay to its last state |
| ConversationReplay.InsertFollows | src/features/conversation/conversation-store.ts:93-108 | The client inserts where the host inserted |
| ConversationReplay.RemoveFollows | src/features/conversation/conversation-store.ts:110-119 | The client removes what the host removed |
| ConversationReplay.QueueFollows | src-tauri/src/chat_runtime_host.rs:3269-3290 | The client follows the queue sweep delta by delta |
| ConversationInvariants.DoKeeps | src-tauri/src/chat_runtime_host.rs:1484-1616 | Every event, send, refusal, answer, stop and loss keeps item ids pairwise distinct, of the right form and below the next index, pending messages in order, and a failure exactly in the failed and interrupted phases |
| ConversationInvariants.RunKeeps | src-tauri/src/chat_runtime_host.rs:406-427 | The same over every run |
| ConversationInvariants.SendKeeps | src-tauri/src/chat_runtime_host.rs:1494-1530 | A sent message is never dropped as a duplicate |
| ConversationInvariants.QueueExact | src-tauri/src/chat_runtime_host.rs:3255-3291 | After a queue update with k entries a user message is queued exactly when it is among the last k pending, and each change is announced once and nothing else |
| ConversationHistory.ConversationItems | src-tauri/src/chat_runtime_host.rs:2800-2825 | The items rebuilt from a history |
| ConversationHistory.ReconcileToolResult | src-tauri/src/chat_runtime_host.rs:3588-3603 | A result settles the first item with its id if that is a tool |
| ConversationHistory.BatchDistinctIff | src-tauri/src/chat_runtime_host.rs:2800-2825 | Rebuilt ids are distinct if and only if no tool call id repeats |
| ConversationHistory.OpenedGood | src-tauri/src/chat_runtime_host.rs:1803-1857 | What every action keeps holds from the opening of a conversation on |
| ConversationHistory.OpenedPhase | src-tauri/src/chat_runtime_host.rs:1803-1857 | A conversation opens interrupted exactly if a tool of its history never ended, else running if its first message is to be answered, stopped if its last turn did not end, and idle otherwise |
| ConversationTurns.StreamingRefinesBatch | src-tauri/src/chat_runtime_host.rs:2800-3152 | A conversation, new or opened from any history with distinct tool calls and continued by any well-formed turns, shows the messages, reasoning and usage, ids and order included, that rebuilding the longer history gives, and the message that waits, if and only if the chat was not stored without a history and nothing was shown after a user message without text |
| ConversationTurns.ShiftIff | src-tauri/src/chat_runtime_host.rs:2863-2866 | A user message without text takes a number in the history and none in the stream: for every history, leaving such messages out gives the same if and only if nothing is shown after one of them |
| ConversationTurns.SentAgrees | src-tauri/src/chat_runtime_host.rs:2866-2876 | The report of a sent message, whatever was reported since it was sent, leaves it shown once, unqueued, where the history has it |
| ConversationTurns.QueueAgrees | src-tauri/src/chat_runtime_host.rs:3255-3291 | A queue update before that report marks the waiting message and no other |
| ConversationTurns.UserAgrees | src-tauri/src/chat_runtime_host.rs:2862-2885 | A user message, sent first or not, takes the place and number the history gives it |
| ConversationTurns.AssistantAgrees | src-tauri/src/chat_runtime_host.rs:2886-3094 | One streamed assistant message ends as rebuilding it gives |
| ConversationStreaming.Ends | src-tauri/src/chat_runtime_host.rs:3085-3094 | The finished message completes every streamed piece and its usage |
| ConversationTurns.OrdinaryTurn | src-tauri/tests/fixtures/chat-runtime-child.zsh:172-176 | The reports a sent message is answered with are a well-formed run from every idle conversation |
| ConversationTurns.FirstTurn | src-tauri/src/chat_runtime_host.rs:1803-1857 | So are those of a new chat |
| ConversationTurns.OpenedAgrees | src-tauri/src/chat_runtime_host.rs:1803-1857 | What is shown at the opening, for a new chat its first message waiting |
| ConversationTurns.StoredWithoutHistory | src-tauri/src/chat_runtime_host.rs:1803-1857 | A stored chat without a history shows a message no history has |
| ConversationTurns.TextlessUserShifts | src-tauri/src/chat_runtime_host.rs:2863-2866 | A run in which the ids differ after a user message without text |
| ConversationTools.ToolsAgree | src-tauri/src/chat_runtime_host.rs:3588-3603 | Streaming and rebuilding agree on tools: whatever else is reported and sent, a call whose end was its last report is shown with the name, detail and outcome that end gave, once; from a longer history that has the call and its results it is rebuilt with the last of them, failed exactly if that is an error; so the two are the same item if and only if name, detail and outcome are the same |
| ConversationTools.InterruptedAgree | src-tauri/src/chat_runtime_host.rs:2827-2838 | A call that never ended: shown with its last report, interrupted exactly if the turn was since, and rebuilt with its arguments as interrupted; the same item if and only if name and detail are the same and the turn was interrupted |
| ConversationTools.EarlierAgrees | src-tauri/src/chat_runtime_host.rs:1803-1857 | A call of the earlier history that nothing touches is shown, and later rebuilt, as it was opened |
| ConversationTools.LastReport | src-tauri/src/chat_runtime_host.rs:3352-3393 | Over any run, the last report about a call decides what is shown of it |
| ConversationTools.RunStays | src-tauri/src/chat_runtime_host.rs:2840-3152 | Over any run, what is shown of a call changes only by reports about it and by being interrupted while running |
| ConversationTools.ActionStays | src-tauri/src/chat_runtime_host.rs:2840-3152 | The same for each report, send, refusal, answer, stop and loss |
| ConversationTools.Answered | src-tauri/src/chat_runtime_host.rs:2800-2825 | An answered call of a history is rebuilt with its name and last result, as failed exactly if that is an error |
| ConversationTools.Unanswered | src-tauri/src/chat_runtime_host.rs:2800-2825 | A call without a result is rebuilt with its arguments, as running |
| ConversationTools.MessageListed | src-tauri/src/chat_runtime_host.rs:2800-2825 | Every text, thought and usage of a history is rebuilt under the number of its message and its position |
| ConversationTools.SettleShown | src-tauri/src/chat_runtime_host.rs:3588-3603 | A result changes detail and outcome of its tool and nothing else |
| ConversationTools.RunActions | src-tauri/src/chat_runtime_host.rs:1484-1616 | The runs of `ConversationTurns` are runs of actions, so all this holds for them |
| ConversationTypes.FormatInjective | src-tauri/src/chat_runtime_host.rs:3626-3640 | Item ids compared as strings are equal exactly if they are the same id |
| ConversationTypes.UsageIndexRoundTrip | src-tauri/src/chat_runtime_host.rs:3510-3514 | The number read back from a usage id is the number it was formatted with |
| SetupOutput.Reader.StreamOutput | src-tauri/src/chat_workspaces.rs:1159-1178 | For every byte string and every split into reads the strings sent are, together, the one-shot lossy decoding, each well-formed; a failing read, and only one, stops it with all that was read before sent but for three undecided bytes, and it reports a closed supervisor only after a send that found it gone |
| SetupOutput.Reader.SendDecodedOutput | src-tauri/src/chat_workspaces.rs:1180-1226 | Sends all that is decided and carries at most three bytes |
| SetupOutput.SplitInvariant | src-tauri/src/chat_workspaces.rs:1159-1226 | The split makes no difference, and well-formed input passes unchanged |
| Utf8.GoodIff | src-tauri/src/chat_workspaces.rs:1185-1200 | A character is recognised exactly where a scalar value encodes to those bytes |
| Utf8.WellFormedIff | src-tauri/src/chat_workspaces.rs:1185-1200 | A byte string is well-formed if and only if it is the encoding of a sequence of scalar values |
| Utf8.BadIsMaximal | src-tauri/src/chat_workspaces.rs:1203-1209 | Each replacement stands for a maximal subpart |
| Utf8.LossyBad | src-tauri/src/chat_workspaces.rs:1206-1220 | Each of them becomes one U+FFFD, an unfinished end too |
| Utf8.LossyAfter | src-tauri/src/chat_workspaces.rs:1185-1200 | Characters are passed on as they are, whatever follows |
| Utf8.LossyWellFormed | src-tauri/src/chat_workspaces.rs:1210-1220 | Whatever the input, the output is well-formed |
| SetupOutput.SetupLog.StoreSetupChunk | src-tauri/src/chat_workspaces.rs:958-989 | Appends what fits up to a character boundary, and the marker once |
| SetupOutput.LogBounded | src-tauri/src/chat_workspaces.rs:958-989 | Over any chunks the log is all output, or a prefix of it cut at a character boundary, the marker and at most three bytes, and never more than 256 KiB and the marker |
| SetupOutput.TruncatedIff | src-tauri/src/chat_workspaces.rs:980-986 | The marker is there if and only if the output is longer than 256 KiB |
| SetupOutput.LetterAfterMarker | src-tauri/src/chat_workspaces.rs:967-979 | A run of three chunks that ends with a letter behind the marker |
| SetupOutput.AfterMarkerIff | src-tauri/src/chat_workspaces.rs:967-979 | Bytes follow the marker if and only if the next chunk starts with a character that fits the room the cut left |
| ChatCreation.Workspaces.CreateAcrossCrashes | src-tauri/src/chat_workspaces.rs:216-347 | From the recorded reservation on, a creation and any number of starts cut off anywhere end in a committed chat with its worktree and branch or in no trace of it, unless a read of the branch failed where nothing else said that it was made, and then the branch alone may be left; with no error, no crash and a branch name that is free it ends committed, with the branch, commit and directory of the reservation; every start that does not finish met an error or a crash, and every branch that was there before keeps its head |
| ChatCreation.Workspaces.CreateReserved | src-tauri/src/chat_workspaces.rs:282-335 | Finished means committed, as the reservation says and over its two checkpoints in order; refused means that an error occurred or the branch name is taken, and that nothing is left, the branch apart that a failed read hid, unless a second error left the reservation to the next start |
| ChatCreation.Workspaces.AttachAndCommit | src-tauri/src/chat_workspaces.rs:315-331 | From the recorded worktree to the committed chat, the branch on record before the chat; refused only after an error or for a branch that exists already, which is not taken |
| ChatCreation.Workspaces.ReconcileReservation | src-tauri/src/chat_workspaces.rs:995-1097 | Removes only a directory that is as it was left and only a branch at the base commit that was recorded or is checked out there; of an undisturbed creation it leaves nothing, or the branch: if and only if the branch was checked out, the caller did not remember it as attached, and reading it failed; it refuses only after an error |
| ChatCreation.Workspaces.ReconcileAfterError | src-tauri/src/chat_workspaces.rs:995-1097 | A creation that failed is undone at once; it stays open only after another error |
| ChatCreation.Workspaces.RemoveOwned | src-tauri/src/chat_workspaces.rs:1010-1081 | Checks identity, commit, administrative directory and cleanliness before removing; an attached branch is recorded first, and counts as this creation's exactly if it was recorded or could be read |
| ChatCreation.Workspaces.RemoveCheckout | src-tauri/src/chat_workspaces.rs:1025-1081 | The worktree goes with its branch on record, or unseen with the record as it was |
| ChatCreation.LeftBehindStays | src-tauri/src/chat_workspaces.rs:1014-1019 | A branch left behind is on no record, and its creation neither committed nor discarded |
| ChatCreation.MissedInstance | src-tauri/src/chat_workspaces.rs:1014-1019 | The state between attaching the branch and recording it, and what a failed read makes of it |
| ChatCreation.Workspaces.FinishReconciliation | src-tauri/src/chat_workspaces.rs:1082-1096 | The branch goes at its base commit only, the record last |
| ChatCreation.Workspaces.ReconcileOnce | src-tauri/src/chat_workspaces.rs:187-214 | A committed chat is left alone, an interrupted one is reconciled; without an error or a crash nothing is left open |
| ChatCreation.Workspaces.DeleteBranchIfAt | src-tauri/src/git_process.rs:329-352 | A branch at another commit is never deleted |
| ChatCreation.AllOrNothing | src-tauri/src/chat_workspaces.rs:995-1097 | A finished creation has a chat exactly if it has a worktree, and exactly if its branch was made |
| ChatDeletion.Deletions.ResumeChatDeletion | src-tauri/src/chat_workspaces.rs:400-447 | Completed, none of row, worktree, branch and session is left; the row is there as long as anything else is; a branch off its recorded head keeps its head; a session found replaced or a worktree not as recorded stops it before any effect; what is still as recorded is refused only after an error |
| ChatDeletion.Deletions.DeleteAcrossCrashes | src-tauri/src/chat_workspaces.rs:400-447 | Any number of resumes, each cut off anywhere, keep the same, and while what is left is as recorded, a resume that does not complete met an error or a crash |
| ChatDeletion.Deletions.DeleteChat | src-tauri/src/chat_workspaces.rs:349-447 | From the request to the end: completed, row, worktree, branch and the file of the session are gone and nothing else is; of a clean worktree with its branch at its commit it completes unless there is an error or a crash |
| ChatDeletion.Deletions.PrepareChatDeletion | src-tauri/src/chat_workspaces.rs:349-383 | A deletion is recorded exactly as the scene is: the commit the worktree is at, and the file at the path of the session, as still to be removed, if there is one. It is refused only after an error or for a worktree that is not the chat's own, clean and on its branch |
| ChatDeletion.Deletions.RemoveWorktreeStage | src-tauri/src/chat_workspaces.rs:407-420 | Removes only the recorded worktree |
| ChatDeletion.Deletions.RemoveBranchStage | src-tauri/src/chat_workspaces.rs:421-431 | Removes the branch only at its recorded head |
| ChatDeletion.Deletions.RemoveSessionStage | src-tauri/src/chat_workspaces.rs:432-443 | Removes only the recorded session file |
| ChatDeletion.Deletions.ValidateDeletionSession | src-tauri/src/chat_workspaces.rs:492-516 | Refuses a session that was replaced |
| ChatDeletion.Deletions.CommitChatDeletion | src-tauri/src/project_inbox.rs:1066-1110 | The row goes only when all three effects are recorded |
| ChatDeletion.StaysUntouched | src-tauri/src/chat_workspaces.rs:400-447 | A crash between an effect and its checkpoint leaves a scene the next resume accepts |
| RpcRequests.RunAccounted | src-tauri/src/pi_rpc.rs:502-646 | In every interleaving each issued id is in exactly one of its states at every point, is told of at most once, the queue of abandoned ids is distinct and at most 256 long, and settled ids, deliveries and the terminal error never change |
| RpcRequests.StepAccounted | src-tauri/src/pi_rpc.rs:502-646 | Each step of a caller, the reader or the supervisor keeps the account |
| RpcRequests.NothingAfterEnd | src-tauri/src/pi_rpc.rs:615-631 | Once the terminal error is set nothing is ever pending or delivered again |
| RpcRequests.AnswersOnlyItsId | src-tauri/src/pi_rpc.rs:550-613 | A response changes no request but the one whose id it bears |
| RpcRequests.SurvivesIff | src-tauri/src/pi_rpc.rs:566-592 | A complete response lets the transport go on if and only if its id is a remembered abandoned one, or pending with that command and a reply |
| RpcRequests.RunTells | src-tauri/src/pi_rpc.rs:502-646 | Over every run, whatever a caller was told goes back to one event: a response with its id to the command it registered, as a success with that data, as an error with that message, or at odds with the protocol; or the end of the transport while it waited |
| RpcRequests.ToldAs | src-tauri/src/pi_rpc.rs:582-612 | What a pending request is told: the data of a success, the message of an error, or a violation if the command is another or the message is missing |
| RpcRequests.LateAnswerIff | src-tauri/src/pi_rpc.rs:566-592 | Of any number of requests given up on one after the other, the late answer to one ends the transport if and only if at least 256 were given up on after it |
| RpcRequests.GivenUpRun | src-tauri/src/pi_rpc.rs:520-548 | A run of the transport in which that many requests are given up on |
| RpcRequests.Transport.ResolveResponse | src-tauri/src/pi_rpc.rs:550-613 | Abandoned ids first, then the pending request, else a protocol problem |
| RpcRequests.Transport.HandleResponse | src-tauri/src/pi_rpc.rs:766-771 | A response with a problem ends the transport, after whatever other threads do in between |
| RpcRequests.Transport.Interleave | src-tauri/src/pi_rpc.rs:502-646 | Any number of steps of other threads keeps the account, and what is settled |
| RpcRequests.Transport.InsertPending | src-tauri/src/pi_rpc.rs:512-527 | Refused once the transport has ended |
| RpcRequests.Transport.AbandonRequest | src-tauri/src/pi_rpc.rs:529-540 | Moves a pending id to the queue and drops the oldest above the limit |
| RpcRequests.Transport.DiscardRequest | src-tauri/src/pi_rpc.rs:542-548 | Forgets a request that was never written |
| RpcRequests.Transport.Finish | src-tauri/src/pi_rpc.rs:615-631 | The first terminal error is kept and told to every pending request once |
| RpcRequests.Transport.NextId | src-tauri/src/pi_rpc.rs:503-510 | A new id each time |
| RpcRequests.IdInjective | src-tauri/src/pi_rpc.rs:503-510 | Ids of different requests differ |
| RpcStreams.RecordReader.ReadStdout | src-tauri/src/pi_rpc.rs:680-721 | For every stream and every chunking the records handled are the first ones of the newline split in order, all of them with the unended tail at the end of the stream; a stream is refused for its length exactly if a line is too long without its carriage return or what is buffered after a read is too long; a failing read, and only one, stops it with exactly the lines of the chunks before it handled; and the buffer never exceeds the limit and one read |
| RpcStreams.RecordReader.DrainLines | src-tauri/src/pi_rpc.rs:706-713 | Handles every complete line and keeps the rest |
| RpcStreams.RecordReader.ProcessRecord | src-tauri/src/pi_rpc.rs:723-779 | A record is handed on without its carriage return if it fits and is well-formed |
| RpcStreams.StrippedIs | src-tauri/src/pi_rpc.rs:723-727 | One carriage return goes, exactly if the record ends with it |
| RpcStreams.SplitJoins | src-tauri/src/codex_auth.rs:829-870 | Lines and rest, put together with newlines, are the stream |
| RpcStreams.LinesAppended | src-tauri/src/pi_rpc.rs:704-713 | More bytes only add lines and complete the unended one |
| RpcStreams.FitsHoweverRead | src-tauri/src/pi_rpc.rs:714-731 | For every stream: however it is read it is never refused for its length, if and only if every line with its carriage return and the unended rest fit the limit |
| RpcStreams.ReturnAtTheLimit | src-tauri/src/pi_rpc.rs:714-718 | A line of the maximum length and a carriage return passes in one read and not in two |
| RpcStreams.BoundedStderr.Append | src-tauri/src/pi_rpc.rs:880-898 | The retained bytes are exactly the last ones up to the capacity, and loss is flagged |
| RpcStreams.LastIs | src-tauri/src/pi_rpc.rs:880-898 | What is retained is the end of what was written, all of it or as much as fits |
| RpcStreams.FlaggedWithoutLoss | src-tauri/src/pi_rpc.rs:880-898 | One chunk of the size of the buffer is kept whole and flagged; split in two it is kept whole and not flagged |
| RoutePreferences.AlwaysARoute | src-tauri/src/agent_environment.rs:603-665 | Over every sequence of accepted changes and rollbacks, with discovery following the preferences, an available project that had an enabled model route has one after each, if and only if nothing that was enabled took all routes away, as told on the store before it |
| RoutePreferences.AllowedKeepsRoute | src-tauri/src/agent_environment.rs:723-782 | An accepted disable leaves every available project that has a route one; an accepted enable does if and only if it does not take them all |
| RoutePreferences.EnablingLosesIff | src-tauri/vendor/agent-runtime/launcher/environment-inspection.mjs:202-240 | Enabling something turns a model off if and only if, on the store before, a newcomer registers its provider and does not offer it |
| RoutePreferences.EnablingLosesAllIff | src-tauri/vendor/agent-runtime/launcher/environment-inspection.mjs:195-240 | Enabling something takes a project's last route if and only if, on the store before, every model offered is of a provider with a newcomer that does not offer it, and every model a newcomer offers is switched off |
| RoutePreferences.RegistrantAfter | src-tauri/vendor/agent-runtime/launcher/environment-inspection.mjs:195-210 | After something is enabled a provider belongs to its newcomer, the last of the extensions that register it and are loaded or would be, if that one is not loaded yet, and else to whom it did |
| RoutePreferences.EnablingRouteLeavesOne | src-tauri/src/agent_environment.rs:603-665 | Enabling a model route or a skill takes no last route away |
| RoutePreferences.EnablingLosesLast | src-tauri/src/agent_environment.rs:617-619 | An accepted enable that leaves a project without a route |
| RoutePreferences.SurvivorListed | src-tauri/src/agent_environment.rs:784-805 | A route the check before a disable finds enabled afterwards is discovered afterwards |
| RoutePreferences.DiscoverConsistent | src-tauri/vendor/agent-runtime/launcher/environment-inspection.mjs:249-275 | A discovered route's owner is among the discovered extensions, with its package |
| RoutePreferences.ElsewhereDiscovered | src-tauri/src/agent_environment.rs:915-940 | What a project overrides for itself changes no other project's discovery |
| RoutePreferences.HasAgrees | src-tauri/src/agent_environment.rs:784-805 | On the snapshot before the write, the check says exactly whether one of its routes is enabled after it |
| RoutePreferences.RouteAgrees | src-tauri/src/agent_environment.rs:807-847 | The hypothetical evaluator of a discovered route is the real one on the store after the write |
| RoutePreferences.EffectiveAgrees | src-tauri/src/agent_environment.rs:849-913 | The same for one resource, with its project, package and global overrides |
| RoutePreferences.UnaffectedSame | src-tauri/src/agent_environment.rs:696-721 | A change that does not concern the discovered routes of a project leaves them enabled or not as they are |
| RoutePreferences.EnablingKeeps | src-tauri/src/agent_environment.rs:1105-1131 | Enabling anything switches off no route of a given snapshot |
| RoutePreferences.ElsewhereSame | src-tauri/src/agent_environment.rs:1105-1131 | A project override is not asked elsewhere |
| RoutePreferences.Preferences.CommitResourceEnabled | src-tauri/src/agent_environment.rs:603-665 | Accepted if and only if discovery succeeds, the resource is discovered and a disable leaves a route wherever one matters; accepted, exactly that row is written and the checkpoint undoes it; refused, nothing is |
| RoutePreferences.AllowedIff | src-tauri/src/agent_environment.rs:603-782 | What is accepted, told by the real evaluator: switching on takes no more than being there; switching off leaves the project a route if it concerns one; for all projects it leaves each one a route, asks that discovery succeeds in each, and while one is out of reach it concerns none |
| RoutePreferences.SkillAllowedIff | src-tauri/src/agent_environment.rs:676-694 | A skill can be switched either way wherever discovery succeeds and lists it |
| RoutePreferences.ContainsIff | src-tauri/src/agent_environment.rs:1413-1432 | What can be switched in a project: what is installed there, and the models its last loaded registrations offer |
| RoutePreferences.ConcernedIff | src-tauri/src/agent_environment.rs:696-721 | A resource concerns a route exactly if switching it off, with nothing else said, switches the route off |
| RoutePreferences.EffectiveIs | src-tauri/src/agent_environment.rs:1105-1131 | Which word counts: the project's on the resource, on its package, the global ones in the same order, then what discovery found |
| RoutePreferences.Preferences.ValidateResourceDisable | src-tauri/src/agent_environment.rs:723-782 | The exact condition a disable is accepted on, unavailable projects and failing discoveries included |
| RoutePreferences.Preferences.OtherProjectsAllow | src-tauri/src/agent_environment.rs:737-777 | Every other available project is asked, in any order |
| RoutePreferences.RestoreUndoes | src-tauri/src/runtime_preferences.rs:446-511 | Restoring a checkpoint gives the store from before, a missing row included |
| RoutePreferences.Preferences.SetResourceEnabled | src-tauri/src/runtime_preferences.rs:277-309 | Writes one row |
| RoutePreferences.Preferences.RestoreResourceChange | src-tauri/src/runtime_preferences.rs:459-511 | Writes the earlier value back or deletes the row |
| SignIn.RunSafe | src-tauri/src/codex_auth.rs:551-736 | Over every run: at most one prompt is pending, pending and answered are disjoint and empty once terminal, WaitingForInput names the pending prompt, without a helper the status is settled, each exited generation was told one or two terminal updates, Complete at most once and then alone, and SignedIn is shown exactly after it |
| SignIn.NextSafe | src-tauri/src/codex_auth.rs:551-736 | Each step keeps it |
| SignIn.SignedInOverRuns | src-tauri/src/codex_auth.rs:551-736 | Over every run: signed in is shown if and only if the helper of the last generation said it was complete when it might, nothing of that generation came in between, and it exited with code 0 and no signal |
| SignIn.SignedInIff | src-tauri/src/codex_auth.rs:691-735 | The one step that reaches it: a clean exit of the running helper after its completion |
| SignIn.CompletesIff | src-tauri/src/codex_auth.rs:590-599 | The completion is the helper's own word with no prompt pending, and a host failure takes it back |
| SignIn.RunTold | src-tauri/src/codex_auth.rs:551-735 | Over every run the status shows what the last generation was broadcast to end with: signed in, cancelled, failed or timed out; and while it runs nothing of the kind was broadcast |
| SignIn.CancelledIff | src-tauri/src/codex_auth.rs:597-735 | Cancelled is reached in two ways only: the helper says so with no prompt pending, or it exits without a last word after the user asked |
| SignIn.TimesOutIff | src-tauri/src/codex_auth.rs:625-675 | Timed out is reached by a time-out of the running generation that nothing else has ended |
| SignIn.FailsIff | src-tauri/src/codex_auth.rs:551-735 | Failed is reached exactly by a host failure, an update that may not come or cannot be read, the helper's own word, an exit nobody asked for, or one that is not clean |
| SignIn.PromptedIff | src-tauri/src/codex_auth.rs:566-581 | A prompt is shown exactly if it has an id, none is pending and it was not answered |
| SignIn.CancellingIff | src-tauri/src/codex_auth.rs:422-455 | Cancelling is shown exactly after the user asked a generation that has not ended |
| SignIn.OverIff | src-tauri/src/codex_auth.rs:691-735 | A generation is over exactly when its own helper exits, and the status is then settled |
| SignIn.HidesPendingIff | src-tauri/src/codex_auth.rs:566-589 | A pending prompt that is shown stops being shown if and only if the user asks to cancel or the helper takes an answered prompt back |
| SignIn.HiddenPrompt | src-tauri/src/codex_auth.rs:566-589 | A run after which a prompt is pending and not shown |
| SignIn.StaleIgnored | src-tauri/src/codex_auth.rs:560-562 | A step of another generation changes nothing |
| SignIn.NextOnward | src-tauri/src/codex_auth.rs:334-337 | Broadcasts stay and generations only go up, by a launch with no helper active |
| SignIn.Manager.Apply | src-tauri/src/codex_auth.rs:551-623 | Accepts an update exactly when it may come, with the new status and broadcast |
| SignIn.Manager.Fail | src-tauri/src/codex_auth.rs:625-675 | A host failure ends a generation once; a time-out does not override an outcome |
| SignIn.Manager.ProcessExited | src-tauri/src/codex_auth.rs:691-735 | The exit settles the status and broadcasts what is still missing |
| SignIn.Manager.ProcessRecord | src-tauri/src/codex_auth.rs:872-916 | A record that is not accepted is a protocol failure |
| SignIn.Manager.Answer | src-tauri/src/codex_auth.rs:379-420 | Refuses an empty or oversized answer, answers the pending prompt, or fails when the helper no longer reads |
| SignIn.Manager.Cancel | src-tauri/src/codex_auth.rs:422-455 | Asks a running generation to cancel |
| SignIn.Manager.Start | src-tauri/src/codex_auth.rs:306-377 | A new generation, only when none is active |

## Left out

- Power loss: steps take effect in program order; flushing, barriers and their order on disk are not modelled, a barrier is a step that may fail.
- JSON: what is encoded decodes to the same value; a journal of at most 64 entries is taken to fit its 128 KiB, and the limit of 4096 scanned names is left out.
- Links, path redirection and other writers in the managed directories; of the file identity the device is left out, and hard links matter only where the removal branches on them.
- RemovalCrashes.RemoveAcrossCrashes: the outcome is all or nothing only where publishing the Deleting journal reports no error, and a start is sure not to refuse only up to 64 owned files and beside independent directories, because the code does no more; the limits are exact (`HalfRolledBack`, `JournalAcceptedIff`, `RemovalStarts.IndependentIff`).
- The order in which directories are recovered: the source takes them by name, the model in any order.
- The digest is an abstract function; a matching digest is not taken to mean matching bytes.
- Progress figures, disk-space checks, credentials, the list of files and skipping those already installed (`download_all`, `final_is_valid`, `validate_existing_install`, `inspect_install`).
- Removal of crash-left private writes of the ownership marker and of the partial metadata (`remove_crash_left_publications`).
- ConversationTools.ToolsAgree: says of each call what is shown and rebuilt, not its place among the other items: a stream puts a tool where its call starts, a history where its part is.
- ConversationTurns.StreamingRefinesBatch: assumes well-formed turns: pieces start in the order of the parts and never say more than the finished message, usage is reported once all have started and is in the finished message, a message is sent when no turn runs and none is waiting, Pi starts on it before it answers, and repeats its text. Without them the two differ in the code.
- ConversationSync.CatchesUp: a command's change and its events are one step; `CatchesUpMidway` and the module ConversationLate say what holds when they are two. Reports in more than one of the gaps between the events of one command are not covered. Broadcast order and lagging receivers are left out.
- Parsing of Pi's JSON, of input requests and of attachments; a report with missing fields is one that is ignored.
- Revisions, indexes and sizes are unbounded; the source stops at the limits of its integers.
- Crashes before a creation is recorded: the directory is made first and may be left behind.
- The reply to a request counts as told when it is taken from the table; sending it on happens outside the lock.
- A database call that reports an error after committing would let the cleanup remove a committed chat's worktree; the model takes an error to mean a rollback.
- `cancel_untouched_chat_deletion`, validation of session paths, and stopping a running setup before a deletion.
- Time-outs as time: they are steps that may come at any point. Process spawning, signals and supervision are left out.
- The model selection and remembered efforts (`select_route_with_effort`): plain upserts.
- Discovery of resources: what is installed in a project and whether discovery fails there are fixed; the last loaded registration of a provider decides its models (Pi itself is not part of this model), and the two kinds of registration are one.
- The shapes of sign-in records: a record is an update or not acceptable.

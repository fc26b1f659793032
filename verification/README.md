# NexusOps control plane: verified model

NexusOps is an SSH/SFTP control plane. This project models its in-memory authority stores and its
staged file-transfer protocol, and proves what they promise for all inputs and all runs. Everything
is Dafny 4.11; `dafny verify dfyconfig.toml` verifies the project.

The source works by critical sections under a mutex and by tasks that wait in between. The models
follow that. A function on values, or a relation, says what each critical section does. A class
holds the code of that section, with the source's fields, branches and loops, and is proved against
it. A step system then lets every task, caller and timer take its steps in any order, and the
theorems speak about every run of that system.

| file | what it models |
|---|---|
| Common.dfy | results, error codes, connection identities, saturating addition |
| TaskProtocol.dfy | the order in which one transfer may act, and what its endings mean |
| RemotePaths.dfy | which remote paths are accepted, and where a staging file goes |
| RemoteFiles.dfy | the remote tree, what each request does to it, and the environment |
| TransferTrace.dfy | what a transfer is approved to do, what it has done, and what must fit together |
| UndisturbedTransfers.dfy | what it takes for a transfer to succeed |
| StagedTransfer.dfy | uploads, editor saves and downloads as code, against any server and any other writers |
| JobTable.dfy | the transfer manager's table: admission, cancellation, history |
| TransferManager.dfy | the manager's critical sections as code |
| TransferRuns.dfy | all jobs, callers and dropped tasks together: cancellation, quiescence, cleanup |
| TransferRequests.dfy | what admission, cancellation, disconnect and shutdown come to in those runs |
| TransferHistory.dfy | the states shown for unfinished jobs and the finished jobs kept, in those runs |
| DestinationLocks.dfy | permits and the reference-counted registry of destination locks |
| FilePlans.dfy | the store of file plans and editor documents as code |
| FilePlanRuns.dfy | planners, callers and expiry tasks together |
| SaveRuns.dfy | an editor save from the opening of its document to its execution, and plans from making to execution, among everything else that happens |
| AuthorityStore.dfy | one-shot authority for remote operations, as code and as a refinement |
| RemoteExecution.dfy | executions, admission, lifecycle guards and shutdown together |
| ExecutionAnswers.dfy | how executions return, and which reach the transport |
| ExecChannel.dfy | what a message trace of an exec channel proves about a command |
| Observations.dfy | the service observation cache as code |
| ObservationRuns.dfy | requests, publications, lookups and revocations together |
| TerminalOutput.dfy | terminal output from channel to batch |
| EditorCodec.dfy | the editor's text codec, on bytes |
| Prefixes.dfy | netmask arithmetic on 32 and 128 bits |
| Routes.dfy | canonical route destinations and unambiguous inventories |

How the outside world appears:

- The SFTP server and everyone else who writes to the two file systems are an arbitrary, endless script.
  Before every request it may change both file systems in any way and accept a cancel request, and it
  decides whether the request is performed, refused, or loses its reply with or without having been
  executed. A read that is performed yields a piece of the open file as it is at that moment, of any size;
  a server may also answer Eof at any time, which ends the reading.
- A transfer is undisturbed if the script performs every request and lets other writers touch anything but
  the staging name and the file that the transfer is about, and if at the start the staging name is free
  and that file is as it was approved. Somebody may cancel it at any time.
- A status answer of the server is authoritative, any other failure of a mutating request leaves its
  effect unknown. This is what the source's `mutation_status` encodes.
- Ids are fresh numbers, and a digest is the content itself. Time is a number, read once per critical
  section. Only the file-plan runs assume that successive readings do not go back; there the source reads
  the clock under a lock, except for the deadline of a new plan, which it reads just before.
- Whether local handle checks and local I/O succeed is an answer of the environment.

Four promises do not hold as they stand, and the exact conditions are proved:

- A quiet session has no staging file left on the server, unless a task holding one was dropped outside
  an async runtime, or the reply to a creation was lost. The drop path then reports Failed without
  recording the cleanup as unconfirmed; after a lost reply nobody owns the file that may be there.
  `TransferRuns.QuietMeansCleanExactly` is the if-and-only-if, `TransferRuns.QuietWithOrphan` and
  `TransferRuns.QuietWithDoubt` are concrete runs.
- An undisturbed transfer that the server supports completes, unless it is cancelled or a path is refused. An approved
  destination can lie in a directory whose path leaves no room for the staging name within 4096 bytes.
  `StagedTransfer.TransferTask.RunTransfer` states both directions, and
  `RemotePaths.LongDirectoryIsRefused` says which directories these are; `RemotePaths.RoomlessDestination`
  is an example.
- A superseded request cannot publish its observations, unless the host's request counter has reached
  its maximum. `ObservationRuns.FreshExactly` is the if-and-only-if over runs,
  `ObservationRuns.SupersededPublishesOnlyAtMaximum` the case of two requests and one answer,
  `ObservationRuns.SupersededRun` a concrete run.
- A destination mutex leaves the registry with its last user, unless a user looked while another still
  referred to it: two that look before either lets go leave the entry until the destination is used again.
  `DestinationLocks.InspectionRemovesExactly` says when a look removes the entry,
  `DestinationLocks.LeftoversHaveCauses` what every leftover goes back to, and
  `DestinationLocks.LeftoverRun` is a concrete run.

## Model

| member | source | states |
|---|---|---|
| `TaskProtocol.ReplayExplains` | crates/nexus-sftp/src/transfer.rs:808-1078 | in every action sequence that the protocol allows, the phase reached tells exactly how many commits were sent, how they were answered, whether a staging file was confirmed as created and whether its removal was asked for |
| `TaskProtocol.EndingIsHonest` | crates/nexus-sftp/src/transfer.rs:655-674 | for every allowed sequence and ending: Failed and Cancelled mean that every commit sent was refused, Completed means a Skip or exactly one confirmed commit, a lost commit reply means OutcomeUnknown, and at most one removal, only after a confirmed creation |
| `TaskProtocol.WhatFollows` | crates/nexus-sftp/src/transfer.rs:808-1204 | in every allowed sequence: nothing follows a skip, a confirmed commit, a move into place, a removal or a creation that was not confirmed; a confirmed link is followed by the removal of the staging name, and every other commit that was not confirmed by the cleanup |
| `TaskProtocol.ReplayExtends` | crates/nexus-sftp/src/transfer.rs:776-806 | one more action is allowed after a sequence exactly when the phase it led to allows the action |
| `StagedTransfer.TransferTask.RunTransfer` | crates/nexus-sftp/src/transfer.rs:776-806 | under every environment the outcome is honest: no effect behind Failed or Cancelled; behind Completed a Skip or exactly one executed, confirmed commit of exactly the approved bytes; lost replies end as OutcomeUnknown; an accepted cancellation excludes commits; CreateNew never replaces anything; a commit goes to the approved destination, only after every check of the protocol, in order and with the approved finding, each of which the environment really answered that way at its point of the script: local checks, sync, close, metadata, looks, readings and local sync; what a download commits is what its source held, unless that changed or the server ended it early while it was read; the guard asks once, only for what it owns, and never forgets it. Cancelled is reported only if somebody cancelled the job, before or while it ran, and then nothing was committed. Only a transfer that can succeed by its own data completes; and one that can, and that is undisturbed, either was not cancelled, completes and leaves the approved content in place and no staging file, or was, reports Cancelled and leaves everything as it was |
| `StagedTransfer.TransferTask.RunUpload` | crates/nexus-sftp/src/transfer.rs:957-1078 | an upload ends only as the protocol allows; if it completes, the staged bytes are all of the input and as many as approved, the server has the extension, and the staging path was acceptable; undisturbed, these suffice: the destination then holds the input and the staging name is gone, or a cancellation came in time and everything is as before |
| `StagedTransfer.TransferTask.StageFile` | crates/nexus-sftp/src/transfer.rs:989-1018 | the common first half of both uploads: complete and owned, or ended without a commit; undisturbed, complete |
| `StagedTransfer.TransferTask.CommitUpload` | crates/nexus-sftp/src/transfer.rs:1040-1077 | the commit follows a look that found the destination as approved; anything else is cleaned up; undisturbed, a supported commit puts the staged bytes in place |
| `StagedTransfer.TransferTask.FinalizeUpload` | crates/nexus-sftp/src/transfer.rs:1025-1077 | after the staging file is complete: a commit is sent only after entering Finalizing and after the destination was found as approved, otherwise the guard cleans up |
| `StagedTransfer.TransferTask.RunEditorSave` | crates/nexus-sftp/src/transfer.rs:808-955 | an editor save that completes has staged exactly the approved bytes; its commit was preceded by sync, close, metadata and three looks that found the approved revision, each followed by reading the file, which held the approved content when it was opened unless it changed or the server ended it early while it was read; undisturbed, it completes if the server can replace files and the staging path is acceptable, and the file then has the new bytes and the old owner and permissions; or a cancellation came in time and everything is as before |
| `StagedTransfer.TransferTask.FinalizeEditorSave` | crates/nexus-sftp/src/transfer.rs:883-955 | the second half of an editor save: metadata, two more checks of the destination, finalization, replacement, cleanup |
| `StagedTransfer.TransferTask.CommitEditorSave` | crates/nexus-sftp/src/transfer.rs:941-955 | the replacement of the document and what follows it: a confirmed replacement settles the guard, anything else is cleaned up; undisturbed, the document has the new bytes |
| `StagedTransfer.TransferTask.CheckUnchanged` | crates/nexus-sftp/src/transfer.rs:825-838 | succeeds only after the server reported the approved revision and the bytes read were the approved ones; they are what the file held when it was opened, unless it changed or the server ended it early while it was read; undisturbed, an unchanged document passes |
| `StagedTransfer.TransferTask.CheckStaged` | crates/nexus-sftp/src/transfer.rs:883-936 | the checks between streaming and finalization: metadata kept, then two further matching looks at, and readings of, the destination |
| `StagedTransfer.TransferTask.RunDownload` | crates/nexus-sftp/src/transfer.rs:1097-1204 | what a download moves into place is exactly what the source held when it was opened, unless the source changed or the server ended it early while it was read, and has the approved size; the source was found with the approved identity before and after, and the target as approved after the file was on disk; undisturbed, it completes if the source path is acceptable, and the local file then has the source's content; or a cancellation came in time and everything is as before |
| `StagedTransfer.TransferTask.ReadSource` | crates/nexus-sftp/src/transfer.rs:1117-1173 | between two looks that found the approved identity the source was read to its end: the result is the whole content it had when it was opened, unless it changed or the server ended it early while it was read |
| `StagedTransfer.TransferTask.CheckSource` | crates/nexus-sftp/src/transfer.rs:1158-1163 | succeeds only if the server reported the approved identity |
| `StagedTransfer.TransferTask.CheckComplete` | crates/nexus-sftp/src/transfer.rs:1153-1173 | success means the approved size, a look that found the approved identity, and a local sync that succeeded; a cancellation ends it |
| `StagedTransfer.TransferTask.CheckTarget` | crates/nexus-sftp/src/transfer.rs:1175-1187 | succeeds only if the local target is what was approved |
| `StagedTransfer.TransferTask.FinalizeDownload` | crates/nexus-sftp/src/transfer.rs:1174-1204 | the local file is moved into place only while finalizing and only if the target is what was approved |
| `StagedTransfer.TransferTask.PersistLocal` | crates/nexus-sftp/src/transfer.rs:1188-1203 | a failed no-clobber move had no effect; a failed replacing move is reported as unknown; undisturbed, the local file has the content |
| `StagedTransfer.TransferTask.TryFinalize` | crates/nexus-sftp/src/transfer.rs:1274-1293 | finalization is entered exactly when no cancellation was accepted, otherwise nothing changes and Cancelled is reported |
| `StagedTransfer.TransferTask.ShowTransferring` | crates/nexus-sftp/src/transfer.rs:1256-1272 | the shown state becomes Transferring, even over CancelRequested, and the token stays as it was |
| `StagedTransfer.TransferTask.ArmGuard` | crates/nexus-sftp/src/transfer.rs:82-96 | the guard is armed before anything is owned |
| `StagedTransfer.TransferTask.Cleanup` | crates/nexus-sftp/src/transfer.rs:98-116 | an owned staging file is asked to be removed once; success means the server confirmed that it is gone, and a failed removal is recorded |
| `StagedTransfer.TransferTask.CleanupThen` | crates/nexus-sftp/src/transfer.rs:1019-1039 | a failure after ownership cleans up: with the removal confirmed the failure is reported as it was, otherwise the failed cleanup is, and in no case a doubt; undisturbed, the removal is confirmed |
| `StagedTransfer.TransferTask.Abandon` | crates/nexus-sftp/src/transfer.rs:1008-1017 | after a streaming failure: with the removal confirmed, Cancelled is reported if a cancellation was accepted and the failure itself otherwise; with the removal unconfirmed, a plain failure, and the guard remembers it |
| `StagedTransfer.TransferTask.AfterCommit` | crates/nexus-sftp/src/transfer.rs:1064-1077 | a confirmed commit disarms the guard; otherwise the guard cleans up, the commit's failure is reported, and a failed cleanup only where there is no doubt about the commit |
| `StagedTransfer.TransferTask.LookUp` | crates/nexus-sftp/src/client.rs:368-377 | only an acceptable path is asked about; an identity that is reported is the one the server had at that moment; the look is recorded |
| `StagedTransfer.TransferTask.EditorRevisionOf` | crates/nexus-sftp/src/client.rs:379-406 | only a regular file that shows all of its metadata has a revision, and it is the one the server had at that moment |
| `StagedTransfer.TransferTask.ReadEditorBytes` | crates/nexus-sftp/src/client.rs:408-498 | the bytes, at most 1 MiB, are what the file held when it was opened, unless it changed or the server ended it early while it was read; undisturbed, a file that the editor can open is read as it is |
| `StagedTransfer.TransferTask.ReadBounded` | crates/nexus-sftp/src/client.rs:445-474 | unless the open file changes or the server ends it early, the bytes put together from the reads are its whole content; more than 1 MiB is refused |
| `StagedTransfer.TransferTask.ConfirmRevision` | crates/nexus-sftp/src/client.rs:429-444 | succeeds only if the open file has the identity, mode and owner of the revision at that moment |
| `StagedTransfer.TransferTask.PreserveEditorMetadata` | crates/nexus-sftp/src/client.rs:500-552 | on success the staging file is regular and has the owner and the permissions of the original; its content and the protocol state are kept; undisturbed, it succeeds |
| `StagedTransfer.TransferTask.CreateStaging` | crates/nexus-sftp/src/client.rs:652-678 | ownership is recorded exactly when the exclusive creation was confirmed; undisturbed, a free staging name is taken |
| `StagedTransfer.TransferTask.Write` | crates/nexus-sftp/src/client.rs:685-686 | a confirmed write extends the staged bytes by exactly its data, at the next offset |
| `StagedTransfer.TransferTask.Stream` | crates/nexus-sftp/src/client.rs:679-691 | if streaming succeeds, the executed writes put together are exactly the input |
| `StagedTransfer.TransferTask.UploadStaged` | crates/nexus-sftp/src/client.rs:641-697 | the four results say exactly what is known: not created, creation unknown, owned and failed, or owned and complete; complete means that the sync, where supported, and the close were confirmed |
| `StagedTransfer.TransferTask.SyncStaging` | crates/nexus-sftp/src/client.rs:689-689 | succeeds exactly if the server performs the sync, and only then is it on record |
| `StagedTransfer.TransferTask.CloseStaging` | crates/nexus-sftp/src/client.rs:692-696 | succeeds exactly if the server performs the close, and only then is it on record |
| `StagedTransfer.TransferTask.CheckLocal` | crates/nexus-sftp/src/transfer.rs:973-973 | succeeds exactly if the local source or directory is still the selected one, and only then is it on record |
| `StagedTransfer.TransferTask.FinishReading` | crates/nexus-sftp/src/client.rs:747-752 | succeeds exactly if the server performs the close and the local file is flushed, and only then is it on record |
| `StagedTransfer.TransferTask.SyncLocal` | crates/nexus-sftp/src/transfer.rs:1164-1166 | succeeds exactly if the local file reaches the disk, and only then is it on record |
| `StagedTransfer.TransferTask.ReadAt` | crates/nexus-sftp/src/client.rs:447-466 | a reply continues the open file at the offset asked for, and is empty only at its end or if the server says Eof, which is noticed when it comes early |
| `StagedTransfer.TransferTask.LinkFinal` | crates/nexus-sftp/src/client.rs:766-770 | the hardlink takes only a free name and is recorded with the looks that led to it |
| `StagedTransfer.TransferTask.UnlinkStaging` | crates/nexus-sftp/src/client.rs:771-782 | after a confirmed link the staging name is removed; a missing confirmation is a doubt |
| `StagedTransfer.TransferTask.CommitNew` | crates/nexus-sftp/src/client.rs:756-783 | confirmed, certainly without effect, or unknown; never over an existing name |
| `StagedTransfer.TransferTask.RenameFinal` | crates/nexus-sftp/src/client.rs:792-802 | one rename of the staging file over the destination |
| `StagedTransfer.TransferTask.CommitReplace` | crates/nexus-sftp/src/client.rs:785-803 | confirmed, certainly without effect, or unknown |
| `StagedTransfer.TransferTask.RemoveOwnedStaging` | crates/nexus-sftp/src/client.rs:805-820 | success means that the server confirmed that the staging name is gone |
| `StagedTransfer.TransferTask.Download` | crates/nexus-sftp/src/client.rs:699-754 | on success the source could be shown and was a regular file, and the local bytes are what it held when it was opened, unless it changed or the server ended it early while it was read |
| `StagedTransfer.TransferTask.ReadToEnd` | crates/nexus-sftp/src/client.rs:720-745 | unless the open file changes or the server ends it early, the bytes put together from reads at contiguous offsets are its whole content |
| `StagedTransfer.TransferTask.ReadPiece` | crates/nexus-sftp/src/client.rs:722-745 | one read continues the content at the offset asked for; it succeeds only without a cancellation before and with the local write done |
| `StagedTransfer.TransferTask.ReadConfirmed` | crates/nexus-sftp/src/client.rs:428-490 | the open file shows the revision both before and after it is read; unless it changes, or the server ends it early, the bytes are its content |
| `StagedTransfer.TransferTask.Open` | crates/nexus-sftp/src/client.rs:421-426 | what the name denoted when it was opened is recorded; undisturbed, it is the subject of the transfer |
| `StagedTransfer.TransferTask.CheckRegular` | crates/nexus-sftp/src/client.rs:356-366 | only an entry that can be shown and is a regular file passes |
| `StagedTransfer.TransferTask.LookAtStaging` | crates/nexus-sftp/src/client.rs:506-512 | the attributes of what the staging name denotes at that moment |
| `StagedTransfer.TransferTask.AmendStaging` | crates/nexus-sftp/src/client.rs:513-539 | setting attributes changes nothing but them |
| `StagedTransfer.TransferTask.MoveIntoPlace` | crates/nexus-sftp/src/transfer.rs:1188-1203 | the move is recorded with all that was made sure of and read before; without leave to replace, it takes only a free name |
| `TransferTrace.OutcomeIsHonest` | crates/nexus-sftp/src/transfer.rs:655-674 | for each answer of a transfer, what its outcome says about the destination, the commit's reply and the staging file, by the task's invariant; after an accepted cancellation no commit was sent |
| `TransferTrace.CommittedIsNotCancelled` | crates/nexus-sftp/src/transfer.rs:1274-1293 | a confirmed commit and an accepted cancellation exclude each other |
| `TransferTrace.CommitKeeps` | crates/nexus-sftp/src/client.rs:756-803 | a commit that was executed unless refused, of the staged bytes, keeps the invariant |
| `TransferTrace.RemoveKeeps` | crates/nexus-sftp/src/transfer.rs:98-116 | the guard's removal keeps the invariant |
| `TransferTrace.SkippingDoesNothing` | crates/nexus-sftp/src/transfer.rs:782-793 | an approved skip ends as Completed without a single request |
| `UndisturbedTransfers.CalmCreate` | crates/nexus-sftp/src/client.rs:652-678 | undisturbed, the exclusive creation is possible and yields a file that is not the subject of the transfer |
| `UndisturbedTransfers.CalmWrite` | crates/nexus-sftp/src/client.rs:685-686 | undisturbed, a write appends to the staging file and touches nothing else |
| `UndisturbedTransfers.CalmRename` | crates/nexus-sftp/src/client.rs:785-803 | undisturbed, the rename puts the staging file in the place of the destination, and the staging name is gone |
| `RemotePaths.ParentIsValid` | crates/nexus-sftp/src/path.rs:39-52 | the directory of an acceptable path is acceptable |
| `RemotePaths.StagingPathExactly` | crates/nexus-sftp/src/path.rs:5-52 | a staging path is accepted exactly if the destination is acceptable and its directory, a slash and the staging name are together at most 4096 bytes |
| `RemotePaths.StagedBeside` | crates/nexus-sftp/src/path.rs:5-52 | a file is staged in its own directory: beside it, in the root, or in the current directory |
| `RemotePaths.StagingNames` | crates/nexus-sftp/src/transfer.rs:839-840 | the staging names are acceptable names, of 47 and 52 bytes |
| `RemotePaths.LongDirectoryIsRefused` | crates/nexus-sftp/src/transfer.rs:989-990 | for a destination in a directory the staging path is accepted if and only if the directory leaves room for the staging name |
| `RemotePaths.RoomlessDestination` | crates/nexus-sftp/src/path.rs:27-37 | an acceptable destination for which both staging paths are refused |
| `RemoteFiles.AmendmentsPreserve` | crates/nexus-sftp/src/client.rs:513-539 | setting the owner where it differs and then the permissions is enough for the confirmation that follows |
| `RemoteFiles.LostCreationMayLeaveFile` | crates/nexus-sftp/src/client.rs:652-678 | after a lost reply to a creation the file is there exactly if the request was executed |
| `RemoteFiles.MapStatus` | crates/nexus-sftp/src/client.rs:900-918 | each error code comes from exactly its own status answers, and no status answer is a doubt or a cancellation |
| `RemoteFiles.ServeCreate` | crates/nexus-sftp/src/client.rs:652-678 | a confirmed exclusive creation means that the name was free and now denotes a new, empty file |
| `RemoteFiles.RemovalResult` | crates/nexus-sftp/src/client.rs:805-820 | a removal is confirmed, or failed without doubt about the job |
| `RemoteFiles.RemovalSucceedsExactly` | crates/nexus-sftp/src/client.rs:805-820 | a removal counts as done exactly if the server removed the file or said that there is none |
| `RemoteFiles.MatchesExactly` | crates/nexus-sftp/src/client.rs:379-498 | attributes are accepted as a revision exactly if they show that very revision, which is one of a regular file |
| `RemoteFiles.PreservesExactly` | crates/nexus-sftp/src/client.rs:513-539 | the metadata is confirmed exactly if the staging file is regular and has the owner, group and permission bits of the document |
| `RemoteFiles.RequestError` | crates/nexus-sftp/src/client.rs:886-898 | a failed request that changes nothing is a timeout exactly if the reply was lost, not found or denied exactly if the server said so, and never a doubt or a cancellation |
| `JobTable.OldestEligible` | crates/nexus-sftp/src/transfer.rs:679-700 | the first position in insertion order that may be forgotten |
| `JobTable.ForgetWellFormed` | crates/nexus-sftp/src/transfer.rs:679-700 | forgetting a finished job keeps `order` a duplicate-free listing of the jobs |
| `JobTable.OldestIsFirst` | crates/nexus-sftp/src/transfer.rs:679-700 | the job that is forgotten is older than every other job that could have been forgotten |
| `JobTable.TrimRemovesOldest` | crates/nexus-sftp/src/transfer.rs:679-700 | trimming removes only the oldest forgettable jobs, stops at the cap or when everything left awaits cleanup, and never goes below the cap |
| `JobTable.TrimOnlyForgets` | crates/nexus-sftp/src/transfer.rs:679-700 | trimming changes no job that stays and touches no unfinished job |
| `JobTable.StoreKeepsWellFormed` | crates/nexus-sftp/src/transfer.rs:1256-1272 | storing a state keeps the table well formed as long as a finished job stays finished |
| `JobTable.CancelKeepsWellFormed` | crates/nexus-sftp/src/transfer.rs:262-296 | cancel requests keep the table well formed |
| `JobTable.AddAllQueues` | crates/nexus-sftp/src/transfer.rs:557-569 | a batch is queued as a whole, in order, behind what was there |
| `JobTable.AddAllKeepsWellFormed` | crates/nexus-sftp/src/transfer.rs:557-569 | queueing a batch of fresh jobs within the cap keeps the table well formed |
| `JobTable.EnqueueAllOrNothing` | crates/nexus-sftp/src/transfer.rs:486-586 | a batch is admitted exactly when its session is not sealed and it fits as a whole within 100 unfinished jobs; otherwise nothing of it remains |
| `TransferManager.Manager.constructor` | crates/nexus-sftp/src/transfer.rs:187-195 | an empty, well-formed table |
| `TransferManager.Manager.FindOldestEligible` | crates/nexus-sftp/src/transfer.rs:679-700 | the search for the oldest forgettable job finds exactly that position |
| `TransferManager.Manager.TrimHistory` | crates/nexus-sftp/src/transfer.rs:679-700 | the loop computes the trimmed table |
| `TransferManager.Manager.CancelJob` | crates/nexus-sftp/src/transfer.rs:262-296 | the critical section of `cancel`: owner check, accepted only before Finalizing |
| `TransferManager.Manager.CancelMatching` | crates/nexus-sftp/src/transfer.rs:341-358 | every matching job gets the request, every other job is unchanged |
| `TransferManager.Manager.DisconnectSession` | crates/nexus-sftp/src/transfer.rs:341-358 | the session is sealed and its jobs get the request |
| `TransferManager.Manager.BeginShutdown` | crates/nexus-sftp/src/transfer.rs:455-475 | everything is sealed and every job gets the request; what that comes to in runs is `TransferRequests.ShutdownIsFinal` |
| `TransferManager.Manager.EnqueueBatch` | crates/nexus-sftp/src/transfer.rs:486-586 | the critical section of admission |
| `TransferManager.Manager.StoreState` | crates/nexus-sftp/src/transfer.rs:1256-1272 | `set_state` overwrites whatever state the job had and trims after a terminal one |
| `TransferManager.Manager.FinishJob` | crates/nexus-sftp/src/transfer.rs:1295-1316 | a terminal state releases the specification and trims |
| `TransferManager.Manager.TryFinalize` | crates/nexus-sftp/src/transfer.rs:1274-1293 | Finalizing is entered exactly when no cancellation was accepted; otherwise the answer is Cancelled, or that there is no such job |
| `TransferManager.Manager.LookQuiet` | crates/nexus-sftp/src/transfer.rs:362-432 | the last look of quiescence: all jobs of the session finished, no removal unconfirmed |
| `TransferRuns.RunKeepsInv` | crates/nexus-sftp/src/transfer.rs:165-676 | in every run of the whole manager, each job's task, record and cleanup entry stay consistent |
| `TransferRuns.RunGoesForward` | crates/nexus-sftp/src/transfer.rs:165-676 | in every run, what has become true of a job and of the seals stays true |
| `TransferRuns.StepKeepsInv` | crates/nexus-sftp/src/transfer.rs:165-676 | every step of every task or caller keeps the invariant |
| `TransferRuns.TerminalIsAbsorbing` | crates/nexus-sftp/src/transfer.rs:1256-1316 | a finished job keeps its very record until it is forgotten, and sends nothing more |
| `TransferRuns.AcceptedCancelPreventsCommit` | crates/nexus-sftp/src/transfer.rs:262-296 | once a cancel, disconnect or shutdown was accepted for a job, it never sends a commit, whatever state is shown later |
| `TransferRuns.RequestStopsJob` | crates/nexus-sftp/src/transfer.rs:262-296 | a cancel, disconnect or shutdown that reaches a job changes it exactly if it is queued, preparing or transferring, and then the job never commits |
| `TransferRuns.FinalizingIsNotCancelled` | crates/nexus-sftp/src/transfer.rs:1274-1293 | once a job is Finalizing, no cancel request changes it |
| `TransferRuns.ShownOutcomeIsHonest` | crates/nexus-sftp/src/transfer.rs:655-674 | the outcome shown for a job whose task was not dropped is honest about the requests it sent |
| `TransferRuns.QuiesceSeals` | crates/nexus-sftp/src/transfer.rs:362-432 | after a successful quiescence the session stays quiet for good: no job is admitted, none sends a request |
| `TransferRuns.FailedRemovalIsRemembered` | crates/nexus-sftp/src/transfer.rs:679-700 | a failed staging removal is never forgotten, so the session is never quiet again |
| `TransferRuns.SubmitRespectsSeals` | crates/nexus-sftp/src/transfer.rs:530-545 | a sealed session and a manager that is shutting down admit nothing |
| `TransferRuns.StepOrphans` | crates/nexus-sftp/src/transfer.rs:122-163 | a staging file becomes an orphan exactly when a task that holds it is dropped outside a runtime |
| `TransferRuns.OrphansCome` | crates/nexus-sftp/src/transfer.rs:122-163 | orphans exist exactly if such a drop happened earlier in the run |
| `TransferRuns.StepDoubts` | crates/nexus-sftp/src/client.rs:652-678 | whether a staging file exists becomes doubtful exactly when the reply to its creation is lost, or the task is dropped while it waits for that reply |
| `TransferRuns.DoubtsCome` | crates/nexus-sftp/src/client.rs:652-678 | such a doubt exists exactly if such a step happened earlier in the run |
| `TransferRuns.QuietMeansCleanExactly` | crates/nexus-sftp/src/transfer.rs:362-432 | when a session is quiet, every staging file of its jobs is known to be gone if and only if no task of it was dropped outside a runtime while holding one and no reply to a creation was lost |
| `TransferRuns.QuietWithOrphan` | crates/nexus-sftp/src/transfer.rs:154-161 | a concrete run that ends quiet and sealed with a staging file left on the server |
| `TransferRuns.QuietWithDoubt` | crates/nexus-sftp/src/transfer.rs:1001-1007 | a concrete run in which no task is dropped and that ends quiet and sealed without anyone knowing whether a staging file is there |
| `TransferRequests.SealsCome` | crates/nexus-sftp/src/transfer.rs:341-358 | in every run a session is closed exactly if it was disconnected, or the manager was shut down, earlier |
| `TransferRequests.AdmissionExactly` | crates/nexus-sftp/src/transfer.rs:486-586 | in every run a batch is admitted exactly if none of its sessions was disconnected and the manager was not shut down before, and it fits within 100 unfinished jobs; it is refused as cancelled exactly in the first case |
| `TransferRequests.ShutdownIsFinal` | crates/nexus-sftp/src/transfer.rs:455-475 | after a shutdown no job ever comes in again, and every batch is refused as cancelled |
| `TransferRequests.ShutdownSealsSessions` | crates/nexus-sftp/src/transfer.rs:455-475 | after a shutdown the session of every unfinished job is sealed |
| `TransferRequests.DisconnectIsFinal` | crates/nexus-sftp/src/transfer.rs:341-358 | after a disconnect no job of the session ever comes in again, and every batch with one is refused as cancelled |
| `TransferRequests.TokensCome` | crates/nexus-sftp/src/transfer.rs:262-296 | in every run a job's token is set exactly if a cancel of its owner, a disconnect of its session or a shutdown reached it while it was queued, preparing or transferring |
| `TransferRequests.FinalizationExactly` | crates/nexus-sftp/src/transfer.rs:1274-1293 | a job may enter finalization exactly if no such request reached it |
| `TransferRequests.CancelledWasReached` | crates/nexus-sftp/src/transfer.rs:597-674 | Cancelled and CancelRequested are shown only for a job that such a request reached |
| `TransferRequests.CancelAnswers` | crates/nexus-sftp/src/transfer.rs:262-296 | cancel succeeds exactly for the owner of a known job, says otherwise which of the two is wrong and changes nothing, and never touches another job |
| `TransferHistory.ShownStateFollows` | crates/nexus-sftp/src/transfer.rs:596-676 | in every run the state shown for an unfinished job is the one that belongs to where its task is, or a cancel request; never a cancel request once it finalizes |
| `TransferHistory.HistoryIsBounded` | crates/nexus-sftp/src/transfer.rs:679-700 | in every run, whenever a job ends the history is cut back to 100, or to jobs whose cleanup is pending or unconfirmed; it is longer at other times only because such a cleanup has ended since |
| `TransferHistory.StepKeepsTidy` | crates/nexus-sftp/src/transfer.rs:679-700 | no other step makes the history too long |
| `DestinationLocks.CountTwoMeansAlone` | crates/nexus-sftp/src/transfer.rs:641-663 | a strong count of 2 means that no other task can still use the registry's entry |
| `DestinationLocks.InspectionRemovesExactly` | crates/nexus-sftp/src/transfer.rs:641-663 | looking at the registry removes the entry exactly if nobody else refers to the mutex |
| `DestinationLocks.LeftoversHaveCauses` | crates/nexus-sftp/src/transfer.rs:632-663 | in every run, an entry that no task will look after stays behind only if a task looked while another still referred to the mutex, or was dropped by the runtime |
| `DestinationLocks.LeftoverRun` | crates/nexus-sftp/src/transfer.rs:632-663 | a concrete run after which all tasks are gone and the entry is still there |
| `DestinationLocks.ReleasesOneByOne` | crates/nexus-sftp/src/transfer.rs:641-663 | after a transfer the mutex, the global permit and the host permit come back one by one, in this order |
| `DestinationLocks.RunKeepsInv` | crates/nexus-sftp/src/transfer.rs:596-663 | permits, registry entries and locks stay consistent in every run |
| `DestinationLocks.StepKeepsInv` | crates/nexus-sftp/src/transfer.rs:596-663 | every step of every task keeps that |
| `DestinationLocks.DestinationsAreExclusive` | crates/nexus-sftp/src/transfer.rs:596-663 | two transfers to the same destination never work at the same time |
| `DestinationLocks.WorkIsBounded` | crates/nexus-sftp/src/transfer.rs:22-23 | at most four transfers work at once, and at most two per host |
| `DestinationLocks.NeverStuck` | crates/nexus-sftp/src/transfer.rs:596-663 | while a task is unfinished, some task can go on: the acquisition order does not deadlock |
| `DestinationLocks.StepLowers` | crates/nexus-sftp/src/transfer.rs:596-663 | every step of a task leaves fewer steps to be taken |
| `DestinationLocks.RunsAreShort` | crates/nexus-sftp/src/transfer.rs:596-663 | without new tasks a run takes no more steps than are left |
| `DestinationLocks.AllTasksEnd` | crates/nexus-sftp/src/transfer.rs:596-663 | a run that goes on until nothing can move leaves no task behind |
| `FilePlans.FilePlanStore.constructor` | crates/nexus-sftp/src/policy.rs:225-233 | an empty store |
| `FilePlans.FilePlanStore.ReleaseReservation` | crates/nexus-sftp/src/policy.rs:205-223 | only the expected use is released, and an expired document is dropped instead |
| `FilePlans.FilePlanStore.RegisterDocument` | crates/nexus-sftp/src/policy.rs:263-333 | registration retires expired documents and the one it replaces, with their plans, and respects the cap; when it succeeds and what it leaves is `SaveRuns.OpensExactly` |
| `FilePlans.FilePlanStore.CloseDocument` | crates/nexus-sftp/src/policy.rs:337-374 | closing is scoped to the owner and takes the pending plan along |
| `FilePlans.FilePlanStore.RetireDocument` | crates/nexus-sftp/src/policy.rs:337-374 | a document goes together with the plan it is pending on |
| `FilePlans.FilePlanStore.ReserveDocument` | crates/nexus-sftp/src/policy.rs:382-413 | the first critical section of planning a save |
| `FilePlans.FilePlanStore.InsertPlan` | crates/nexus-sftp/src/policy.rs:820-876 | expired and executed plans are forgotten first; then the cap decides |
| `FilePlans.FilePlanStore.PublishSave` | crates/nexus-sftp/src/policy.rs:434-476 | a plan is published only while its reservation stands |
| `FilePlans.FilePlanStore.DiscardPlan` | crates/nexus-sftp/src/policy.rs:480-533 | a discard frees the document, or reports that there was nothing to discard |
| `FilePlans.FilePlanStore.ConsumePlan` | crates/nexus-sftp/src/policy.rs:737-797 | a plan is executed by its owner, in time, with its document still pending on it |
| `FilePlans.FilePlanStore.ExpirePlan` | crates/nexus-sftp/src/policy.rs:878-910 | the plan's expiry task removes that plan only and releases the document pending on it |
| `FilePlans.FilePlanStore.ExpireDocument` | crates/nexus-sftp/src/policy.rs:912-946 | the document's expiry task removes that document only, with its pending plan |
| `FilePlans.FilePlanStore.RevokeForSession` | crates/nexus-sftp/src/policy.rs:249-261 | everything of the session goes, nothing else |
| `FilePlanRuns.RunKeepsInv` | crates/nexus-sftp/src/policy.rs:171-533 | in every interleaving of planners, callers and timers, plans, documents, reservations and timers stay linked |
| `FilePlanRuns.StepKeepsInv` | crates/nexus-sftp/src/policy.rs:171-533 | every step keeps that link |
| `FilePlanRuns.RunGoesForward` | crates/nexus-sftp/src/policy.rs:171-533 | documents that are gone and reservations that are lost never come back |
| `FilePlanRuns.PlansAreOneShot` | crates/nexus-sftp/src/policy.rs:480-533 | for each plan id at most one execution or successful discard ever happens, never both |
| `FilePlanRuns.ExecutionIsAuthorized` | crates/nexus-sftp/src/policy.rs:737-797 | execution succeeds exactly for a live plan, its own connection, up to its deadline and with an unexpired document; it yields the stored plan |
| `FilePlanRuns.DiscardIsAuthorized` | crates/nexus-sftp/src/policy.rs:480-533 | a discard takes back exactly a live, unexpired plan of its own connection, frees the document pending on it and nothing else; it is refused exactly for such a plan of somebody else, and otherwise nothing of the plan remains |
| `FilePlanRuns.CloseIsScoped` | crates/nexus-sftp/src/policy.rs:337-374 | closing touches only the document of its own connection and the plan it is pending on |
| `FilePlanRuns.RevocationIsExact` | crates/nexus-sftp/src/policy.rs:249-261 | of the plans exactly the unexecuted ones of other sessions remain, of the documents exactly those of other sessions, all unchanged |
| `SaveRuns.OpensExactly` | crates/nexus-sftp/src/policy.rs:263-333 | a document opens exactly if its path is acceptable and fewer than 100 others are open and unexpired, and is then free and has its full lifetime |
| `SaveRuns.OpeningLeavesOthers` | crates/nexus-sftp/src/policy.rs:263-333 | opening leaves exactly the unexpired documents of other connections and other paths as they are, with their plans |
| `SaveRuns.FreeStays` | crates/nexus-sftp/src/policy.rs:263-413 | a free document stays free in every step that does not reserve, close, reopen, revoke or clear it, before its deadline |
| `SaveRuns.OpenedIsReserved` | crates/nexus-sftp/src/policy.rs:263-413 | in every run, a document that was opened is still there, free, and is reserved by a save of its connection that begins before its deadline, if nothing took it in between |
| `SaveRuns.ReservationStays` | crates/nexus-sftp/src/policy.rs:376-433 | a reserved document stays as it is in every step that does not close, reopen, revoke or clear it or end its planner, before its deadline |
| `SaveRuns.SaveStays` | crates/nexus-sftp/src/policy.rs:434-476 | a published save and its document stay as they are in every step that does not discard, execute, close, reopen, revoke or clear them, before their deadlines |
| `SaveRuns.ReservedPublishes` | crates/nexus-sftp/src/policy.rs:434-476 | a planner that still has its reservation publishes what it planned, if there is room |
| `SaveRuns.WaitingIsExecuted` | crates/nexus-sftp/src/policy.rs:737-797 | a published save that is executed in time yields what was planned and retires its document |
| `SaveRuns.SaveGoesThrough` | crates/nexus-sftp/src/policy.rs:376-476 | in every run, a save that is reserved, finished while there is room and executed by the deadlines yields exactly what was planned and retires its document, whatever other planners, callers and timers do in between |
| `SaveRuns.PlanIsMade` | crates/nexus-sftp/src/policy.rs:820-876 | a plan is stored exactly if fewer than 100 plans are unexpired and unexecuted, and exactly those remain beside it, unchanged |
| `SaveRuns.PlanStays` | crates/nexus-sftp/src/policy.rs:799-876 | a stored plan without a document stays as it is in every step that does not discard or execute it, revoke its session or clear all plans, before its deadline |
| `SaveRuns.PlanGoesThrough` | crates/nexus-sftp/src/policy.rs:737-876 | in every run, a plan made while there was room and executed by its connection by the deadline yields exactly what was approved, whatever other callers, planners and timers do |
| `FilePlanRuns.DocumentsAreUniquePerPath` | crates/nexus-sftp/src/policy.rs:263-333 | a connection has at most one document per path at any time |
| `FilePlanRuns.PlansNeverChange` | crates/nexus-sftp/src/policy.rs:799-876 | a stored plan is never altered, only executed or forgotten, and does not come back |
| `FilePlanRuns.ExecutedAsApproved` | crates/nexus-sftp/src/policy.rs:737-797 | however long and whatever happens in between, executing a plan yields exactly what was stored for it |
| `FilePlanRuns.ExecutionRetiresDocument` | crates/nexus-sftp/src/policy.rs:737-797 | executing an editor plan retires its document for good |
| `FilePlanRuns.LostReservationNeverPublishes` | crates/nexus-sftp/src/policy.rs:376-476 | a planner whose document was closed, replaced, expired, revoked or reserved anew can never publish |
| `FilePlanRuns.DocumentsHaveOnePlan` | crates/nexus-sftp/src/policy.rs:376-476 | a document has at most one live plan, is pending on it, and both belong to the same connection |
| `FilePlanRuns.PendingDocumentsAreFreed` | crates/nexus-sftp/src/policy.rs:878-910 | a pending document has its live plan or a passed deadline, unless all plans were revoked; its expiry task is due and frees or drops it |
| `FilePlanRuns.ReservationsHaveOwners` | crates/nexus-sftp/src/policy.rs:179-203 | a reserved document has its planning task, whose guard will release it |
| `FilePlanRuns.DeadlinesNeverMove` | crates/nexus-sftp/src/policy.rs:263-333 | no operation moves a document's deadline, owner or path |
| `FilePlanRuns.GuardReleasesOnlyItsOwn` | crates/nexus-sftp/src/policy.rs:186-203 | a dropped planning guard releases its own reservation and touches nothing else |
| `FilePlanRuns.StoreIsBounded` | crates/nexus-sftp/src/policy.rs:19-21 | at most 100 plans and 100 documents at any time |
| `AuthorityStore.OperationsKeepInverse` | crates/nexus-remote-operations/src/store.rs:48-187 | every operation keeps `pending` and `by_host` inverse to each other, and a sealed store empty |
| `AuthorityStore.RemoveIdKeepsInverse` | crates/nexus-remote-operations/src/store.rs:221-227 | removing an id keeps the maps inverse and removes only that plan |
| `AuthorityStore.RemoveExpiredKeepsInverse` | crates/nexus-remote-operations/src/store.rs:229-238 | so does removing the expired plans |
| `AuthorityStore.InsertRefines` | crates/nexus-remote-operations/src/store.rs:48-87 | publishing succeeds exactly for the current binding in an unsealed store; it replaces the host's unexpired plan, and the receipt names that plan and tells id, binding, risk and deadline of the new one as it is stored |
| `AuthorityStore.ConsumeRefines` | crates/nexus-remote-operations/src/store.rs:89-116 | consuming succeeds exactly for the host's unexpired plan with this id, binding and operation, and removes it; it is refused as a policy violation exactly if only the operation is wrong; an expired plan is dropped, and every other plan stays as it is |
| `AuthorityStore.DiscardRefines` | crates/nexus-remote-operations/src/store.rs:118-143 | discarding reports true exactly for such a plan, and removes it, false exactly if there is no unexpired plan with this id, and otherwise whether the binding or the operation is wrong |
| `AuthorityStore.AskingSettles` | crates/nexus-remote-operations/src/store.rs:89-143 | neither leaves an expired plan that was asked for, and both leave every other plan as it is |
| `AuthorityStore.ConsumedInTime` | crates/nexus-remote-operations/src/store.rs:89-116 | nothing is consumed at or after its deadline, or twice |
| `AuthorityStore.RevocationRefines` | crates/nexus-remote-operations/src/store.rs:145-171 | revocation removes exactly the named host's, or host session's, plan, and reports whether there was one |
| `AuthorityStore.ClearingRefines` | crates/nexus-remote-operations/src/store.rs:173-256 | seal and revoke-all leave nothing; an expiry task removes its own plan if that has the deadline it was started for, and nothing that is still valid |
| `AuthorityStore.Store.constructor` | crates/nexus-remote-operations/src/store.rs:28-46 | an empty, unsealed store |
| `AuthorityStore.Store.DropId` | crates/nexus-remote-operations/src/store.rs:221-227 | the index entry goes only if it points to this plan |
| `AuthorityStore.Store.DropExpired` | crates/nexus-remote-operations/src/store.rs:229-238 | the loop removes exactly the expired plans |
| `AuthorityStore.Store.Publish` | crates/nexus-remote-operations/src/store.rs:48-87 | the code of `insert` |
| `AuthorityStore.Store.Take` | crates/nexus-remote-operations/src/store.rs:89-116 | the code of `consume` |
| `AuthorityStore.Store.Forget` | crates/nexus-remote-operations/src/store.rs:118-143 | the code of `discard` |
| `AuthorityStore.Store.RevokeForHost` | crates/nexus-remote-operations/src/store.rs:145-151 | the code of `revoke_host` |
| `AuthorityStore.Store.RevokeForSession` | crates/nexus-remote-operations/src/store.rs:153-171 | the code of `revoke_session` |
| `AuthorityStore.Store.SealAndRevokeAll` | crates/nexus-remote-operations/src/store.rs:181-187 | the code of the seal |
| `RemoteExecution.RunKeepsInv` | crates/nexus-remote-operations/src/lib.rs:81-137 | in every interleaving of executions, lifecycle guards, planning, revocation and shutdown, permits match who holds them and authority is owned by one execution |
| `RemoteExecution.StepKeepsInv` | crates/nexus-remote-operations/src/lib.rs:81-137 | every step keeps that |
| `RemoteExecution.RunGoesForward` | crates/nexus-remote-operations/src/lib.rs:81-137 | consumed authority stays consumed, and the seal stays |
| `RemoteExecution.PlansDispatchOnce` | crates/nexus-remote-operations/src/lib.rs:81-137 | each plan reaches the transport at most once, with the binding and operation it was approved for, consumed and revalidated |
| `RemoteExecution.DispatchIsAlone` | crates/nexus-remote-operations/src/admission.rs:27-59 | at most one dispatch is in flight, and it holds its host's gate, so no lifecycle guard overlaps it |
| `RemoteExecution.BusyKeepsAuthority` | crates/nexus-remote-operations/src/admission.rs:27-41 | a busy rejection leaves pending authority unchanged |
| `RemoteExecution.SealStopsDispatch` | crates/nexus-remote-operations/src/lib.rs:77-137 | after the seal the store is empty for good, and only executions already past their last check may still dispatch |
| `RemoteExecution.CancelStopsDispatch` | crates/nexus-remote-operations/src/lib.rs:81-137 | a cancellation before the last check prevents the dispatch for good |
| `RemoteExecution.ConsumptionIsFinal` | crates/nexus-remote-operations/src/lib.rs:81-137 | no plan is consumed by two executions |
| `ExecutionAnswers.AnswersAreHonest` | crates/nexus-remote-operations/src/lib.rs:81-137 | in every run, a call that returned and was not dropped reports its transport exactly if it reached it, was refused exactly if it took no plan, and says cancelled only if it was cancelled or the store is sealed, and revalidation failed only if it did |
| `ExecutionAnswers.AdvanceHasReason` | crates/nexus-remote-operations/src/lib.rs:81-137 | at each step a call is refused exactly if there is a reason for that step: a seal, somebody at its host, somebody with the permit, or no plan for it to take |
| `ExecutionAnswers.AnswersHaveReasons` | crates/nexus-remote-operations/src/lib.rs:81-137 | in every run, every answer was given at a step of the call for a reason that held there |
| `ExecutionAnswers.SealStops` | crates/nexus-remote-operations/src/lib.rs:77-137 | in every run, after a shutdown a new call never holds a host or the permit, a call without the permit yet never takes its plan, and a call whose revalidation is not over never reaches the transport |
| `ExecutionAnswers.CancelStops` | crates/nexus-remote-operations/src/lib.rs:81-137 | in every run, a cancelled call is not revalidated if that had not begun, and does not reach the transport if its last check was still to come |
| `ExecutionAnswers.UndisturbedTransports` | crates/nexus-remote-operations/src/lib.rs:81-137 | in every run, a call of an unexpired plan at an idle host takes ten steps, reaches the transport with the ninth and returns its answer with the tenth, if its revalidation approves, nobody cancels it and nobody else takes plan, host or permit |
| `ExecChannel.Receiver.HandleMessage` | crates/nexus-ssh/src/systemd_reload.rs:29-79 | each message either keeps the trace open, with the three variables telling acceptance, evidence and output size, or decides the trace |
| `ExecChannel.AwaitOutcome` | crates/nexus-ssh/src/systemd_reload.rs:115-142 | the loop's outcome is the outcome of the trace |
| `ExecChannel.Dispatch` | crates/nexus-ssh/src/systemd_reload.rs:83-160 | nothing is reported as not dispatched after the request went out unless the trace is a refusal; Cancelled is reported only if the request never went out; interruptions after that are unknown; certainty comes only from the trace |
| `ExecChannel.StopIsFirst` | crates/nexus-ssh/src/systemd_reload.rs:29-79 | up to the deciding message a trace is open, with it no longer |
| `ExecChannel.DecisionIsUnique` | crates/nexus-ssh/src/systemd_reload.rs:29-79 | no trace has two outcomes |
| `ExecChannel.ExactlyOneOutcome` | crates/nexus-ssh/src/systemd_reload.rs:29-79 | every trace has exactly one outcome |
| `ExecChannel.Extend` | crates/nexus-ssh/src/systemd_reload.rs:29-79 | exactly which next messages keep an open trace open, the output limit included |
| `ExecChannel.Stops` | crates/nexus-ssh/src/systemd_reload.rs:29-79 | which next message decides an open trace, and what |
| `ExecChannel.OutcomeMeans` | crates/nexus-ssh/src/systemd_reload.rs:29-79 | refused exactly if only Eof and WindowAdjusted come before a Failure; success exactly if exit status 0 is reported on an open trace; likewise for the output limit and a lost connection; the operation then counts as failed, or as unknown, in exactly the cases that follow from that |
| `ExecChannel.WithoutExitIsUnknown` | crates/nexus-remote-operations/src/outcome.rs:39-51 | once accepted or with output seen, any end without an exit message is OutcomeUnknown |
| `Observations.AtMostTwo` | crates/nexus-core/src/service_observations.rs:112-173 | the four preconditions give a row at most two ids |
| `Observations.OffersExactly` | crates/nexus-core/src/service_observations.rs:112-173 | a failed service is offered to be reset, a running one to be restarted and, if it can, reloaded, a dead one, if it can, to be started; in any other state, not loaded or with a bad name, nothing is offered |
| `Observations.TagRow` | crates/nexus-core/src/service_observations.rs:104-174 | a row gets an id for exactly the operations it qualifies for, at most two, with the observation behind each id |
| `Observations.TagRows` | crates/nexus-core/src/service_observations.rs:103-174 | the same for a snapshot: all ids new, at most two per row, and no observation without a row |
| `Observations.ObservationStore.constructor` | crates/nexus-core/src/service_observations.rs:54-64 | an empty cache |
| `Observations.ObservationStore.BeginRequest` | crates/nexus-core/src/service_observations.rs:67-80 | a request gets the next number of its host, saturating |
| `Observations.ObservationStore.PublishSnapshot` | crates/nexus-core/src/service_observations.rs:83-199 | publishing succeeds exactly for a matching snapshot of at most 512 rows that answers the newest request; it replaces the host's set and evicts oldest first, only as long as needed |
| `Observations.ObservationStore.EvictOldest` | crates/nexus-core/src/service_observations.rs:176-188 | the loop ends with room for the new set; every kept set is at least as new as every evicted one, and the last eviction was needed |
| `Observations.ObservationStore.ActionableCount` | crates/nexus-core/src/service_observations.rs:324-326 | the number of ids held in all |
| `Observations.ObservationStore.Oldest` | crates/nexus-core/src/service_observations.rs:179-186 | a set that is as old as any |
| `Observations.ObservationStore.ResolveAs` | crates/nexus-core/src/service_observations.rs:201-266 | the typed lookups: live set, exact binding, right kind |
| `Observations.ObservationStore.RevokeForHost` | crates/nexus-core/src/service_observations.rs:268-279 | the host's set goes and its requests become stale |
| `Observations.ObservationStore.RevokeForSession` | crates/nexus-core/src/service_observations.rs:281-302 | the set goes only if it is of that session; requests become stale in any case |
| `Observations.ObservationStore.SealAndRevokeAll` | crates/nexus-core/src/service_observations.rs:304-310 | everything goes |
| `ObservationRuns.RunKeepsInv` | crates/nexus-core/src/service_observations.rs:62-199 | at every point of every run at most 64 sets and 4096 ids, all in agreement with what was published |
| `ObservationRuns.PublishKeepsBound` | crates/nexus-core/src/service_observations.rs:176-199 | the bound after a publication follows from the eviction alone |
| `ObservationRuns.IdsAreTyped` | crates/nexus-core/src/service_observations.rs:201-266 | an id resolves, if at all, only as the operation it was shown for, for exactly that binding, to that row's unit and in time |
| `ObservationRuns.ShownIdResolves` | crates/nexus-core/src/service_observations.rs:253-266 | and it does resolve until its set expires, is evicted, replaced or revoked |
| `ObservationRuns.RevokedIdsAreDead` | crates/nexus-core/src/service_observations.rs:268-310 | in every run, once its host or session is revoked, its host is published anew or the cache is sealed, an id never resolves again |
| `ObservationRuns.WithdrawnForGood` | crates/nexus-core/src/service_observations.rs:83-310 | an id that no set has any more is in no set ever after |
| `ObservationRuns.SetStaysOrEnds` | crates/nexus-core/src/service_observations.rs:83-310 | those are the only ways in which a set ends, and an evicted set is no newer than any kept one |
| `ObservationRuns.FreshExactly` | crates/nexus-core/src/service_observations.rs:67-102 | a publication answering a request succeeds if and only if its snapshot is of the same host and session with at most 512 rows, the cache is not sealed, and no later request or revocation of the host came in between, unless the counter was at its maximum |
| `ObservationRuns.NewestMoves` | crates/nexus-core/src/service_observations.rs:67-80 | the newest request of a host never goes back, and below its maximum stays put exactly as long as nothing bumps it |
| `ObservationRuns.StepKeepsInv` | crates/nexus-core/src/service_observations.rs:62-310 | every critical section keeps the bound and the agreement with the history |
| `ObservationRuns.SupersededPublishesOnlyAtMaximum` | crates/nexus-core/src/service_observations.rs:72-79 | a publication that answers a superseded request succeeds if and only if the counter had run up to its maximum |
| `ObservationRuns.RequestsReach` | crates/nexus-core/src/service_observations.rs:67-80 | every request number up to the maximum is reached by a run |
| `ObservationRuns.SupersededRun` | crates/nexus-core/src/service_observations.rs:72-79 | a run in which a superseded request is answered and the answer is published |
| `ObservationRuns.SealedIsFinal` | crates/nexus-core/src/service_observations.rs:304-310 | after the seal nothing is published or resolved |
| `TerminalOutput.Chunks` | crates/nexus-terminal/src/manager.rs:520-520 | the chunks put together are the data; each has 1 to 16384 bytes, and all but the last have 16384 |
| `TerminalOutput.OutputBuffer.AppendChunk` | crates/nexus-terminal/src/manager.rs:442-458 | what fits and the new carryover are the chunk; the carryover is set only when it was free, and then the batch is full |
| `TerminalOutput.AppendedSplits` | crates/nexus-terminal/src/manager.rs:442-458 | a chunk is split between batch and carryover without loss; the batch never exceeds 64 KiB |
| `TerminalOutput.OutputBuffer.PollBatch` | crates/nexus-terminal/src/manager.rs:241-270 | the loop does the poll's steps; undisturbed it returns exactly the first 64 KiB, or all, of the available bytes, and drained exactly if the pump is gone and all was returned |
| `TerminalOutput.OutputBuffer.ReadData` | crates/nexus-terminal/src/manager.rs:519-520 | data is cut into chunks before it is sent |
| `TerminalOutput.OutputBuffer.SendChunk` | crates/nexus-terminal/src/manager.rs:520-530 | chunks enter the queue in order and within its capacity |
| `TerminalOutput.OutputBuffer.DropSender` | crates/nexus-terminal/src/manager.rs:532-557 | the sender is dropped only between two reads |
| `TerminalOutput.StepConserves` | crates/nexus-terminal/src/manager.rs:241-531 | no step loses, repeats or reorders a byte |
| `TerminalOutput.RunConserves` | crates/nexus-terminal/src/manager.rs:241-531 | in every run, with sends between the steps of a poll, returned bytes, the batch under way, carryover, queue and pending chunks are the pumped bytes in order |
| `TerminalOutput.BatchIsNext` | crates/nexus-terminal/src/manager.rs:241-270 | each batch is the next piece of the stream, at most 64 KiB |
| `TerminalOutput.DrainedIsFinal` | crates/nexus-terminal/src/manager.rs:263-264 | drained means that everything was returned and nothing more will come |
| `TerminalOutput.PollsReachTheEnd` | crates/nexus-terminal/src/manager.rs:241-270 | after the pump has finished, each poll drains or returns a full batch |
| `EditorCodec.Utf8RoundTrip` | crates/nexus-sftp/src/editor.rs:11-12 | UTF-8 decoding accepts exactly the encodings and inverts them |
| `EditorCodec.DecodeThenEncode` | crates/nexus-sftp/src/editor.rs:3-59 | whatever opens is written back byte for byte |
| `EditorCodec.EncodeThenDecode` | crates/nexus-sftp/src/editor.rs:3-59 | what is read back after a document was written, for every document |
| `EditorCodec.SurvivesExactlyWhen` | crates/nexus-sftp/src/editor.rs:3-59 | text, newline kind and mark survive exactly unless an unmarked text starts with U+FEFF, or CRLF is chosen for a text without line breaks |
| `EditorCodec.OpensExactlyWhatIsWritten` | crates/nexus-sftp/src/editor.rs:3-34 | the files that open are exactly the files that can be written |
| `EditorCodec.WriteText` | crates/nexus-sftp/src/editor.rs:36-59 | writing succeeds exactly for text without NUL and CR that fits, and gives the encoding |
| `Prefixes.AndSuccessor` | crates/nexus-discovery/src/dns.rs:134-134 | `x & (x + 1)` is zero exactly if x + 1 is a power of two |
| `Prefixes.AndLowBits` | crates/nexus-discovery/src/routes.rs:120-127 | masking with h low ones is the remainder modulo 2^h |
| `Prefixes.InvertedTest` | crates/nexus-discovery/src/dns.rs:133-134 | the test on 128-bit words, wrap-around included, accepts exactly 2^128 - 2^k |
| `Prefixes.MaskExactly` | crates/nexus-discovery/src/dns.rs:127-135 | for both widths exactly the masks of some prefix length are accepted, the zero mask included |
| `Routes.AcceptsExactly` | crates/nexus-discovery/src/routes.rs:90-133 | a destination is accepted exactly if it is well formed and its host bits are zero; the result is the canonical form. What that comes to for each way of writing is `Routes.HostRoute` and `Routes.PrefixRoute` |
| `Routes.HostRoute` | crates/nexus-discovery/src/routes.rs:90-133 | an address alone is accepted, as a route to that one host |
| `Routes.PrefixRoute` | crates/nexus-discovery/src/routes.rs:90-133 | an address with a decimal length up to the width is accepted exactly if the remaining bits are zero, and then as exactly that prefix, or as default for length 0 |
| `Routes.NothingElseIsARoute` | crates/nexus-discovery/src/routes.rs:90-133 | nothing is accepted but default, an address, or an address with a number up to the width in decimal digits |
| `Routes.HostMaskIs` | crates/nexus-discovery/src/routes.rs:120-124 | the host mask is 2^h - 1 for every h up to 128, and no shift reaches the word size |
| `Routes.CanonicalReadsBack` | crates/nexus-discovery/src/routes.rs:128-132 | the canonical form reads back as the same prefix |
| `Routes.Idempotent` | crates/nexus-discovery/src/routes.rs:90-133 | canonical forms are accepted unchanged |
| `Routes.CoversInterval` | crates/nexus-discovery/src/routes.rs:90-133 | an aligned prefix covers an interval inside the address space |
| `Routes.CanonicalExactly` | crates/nexus-discovery/src/routes.rs:90-133 | two accepted destinations have the same canonical form exactly if they cover the same addresses |
| `Routes.ParseRoutes` | crates/nexus-discovery/src/routes.rs:137-214 | an inventory is accepted exactly if every row is and no identity repeats; then no row is left out |
| `Routes.ReadRow` | crates/nexus-discovery/src/routes.rs:150-201 | a row is read exactly if all its fields are acceptable, and then as what it says |
| `Routes.ReadFlags` | crates/nexus-discovery/src/routes.rs:178-183 | the flags of a row are accepted exactly if each is known and none comes twice |
| `Routes.GatewaysExactly` | crates/nexus-discovery/src/routes.rs:192-195 | gateways are shown alike exactly if they are the same address, however they are written |
| `Routes.IdentityExactly` | crates/nexus-discovery/src/routes.rs:203-211 | two rows have the same identity if and only if gateway address, interface, metric and the covered addresses agree |
| `Routes.RoutesAreUnambiguous` | crates/nexus-discovery/src/routes.rs:203-211 | rows of an accepted inventory with the same gateway address, interface and metric differ in some covered address |

## Left out

- The user interface, the generated protocol types and the example programs.
- russh, russh-sftp, SQLite, the key ring, AES-GCM, SHA-256 and base64 as such.
- How local files are identified, reparse points and handle checks: a local file has a number as identity,
  and the environment answers the checks.
- Direct mutation plans (create, rename, delete): they run outside the job table and would only add
  check-then-act members.
- Opening, resizing and closing terminals, input to terminals, and output after a cancellation.
- Known-hosts pins, audit rotation, the host repository, the read-only command table and the
  connection-state table.
- The decoding of a route inventory from JSON, with its bound on the size of the text.
- The other field validators of discovery (`ss`, `/proc`, resolver files).
- How an address is written: `Routes` assumes only that writing and reading are inverse, that no slash
  is written, and that at most 64 characters are.
- The bodies of `spawn_job` and `execute` as methods: they wait between almost any two statements, so they
  appear as steps of `DestinationLocks`, `TransferRuns` and `RemoteExecution`; what they call is code.
- Progress counters, labels, error texts, retry hints, wall-clock timestamps and mutex poisoning.
- StagedTransfer.TransferTask.RunTransfer: the task is not dropped while it runs; dropped tasks are part
  of `TransferRuns`, where their shown outcome is not claimed to be honest.
- How a server resolves names: names are compared as they are written, and the staging name is taken to be
  different from every approved path because it carries the fresh job id.
- FilePlanRuns.RunKeepsInv: every plan and document has its expiry task. The source starts none outside an
  async runtime (crates/nexus-sftp/src/policy.rs:885-887 and 918-920); there nothing is claimed about when
  a document comes free.
- TransferRuns.QuietMeansCleanExactly: waiting for quiescence, its timeout and its polling are not
  modelled; the last look that decides the result is.
- DestinationLocks.AllTasksEnd: says that tasks end if the scheduler goes on as long as some task can, not that
  it does.
- ExecChannel.Dispatch: the attempt to close the channel afterwards is not modelled; its result is ignored
  in the source.
- TerminalOutput.RunConserves: runs before cancellation; closing a terminal throws waiting output away.

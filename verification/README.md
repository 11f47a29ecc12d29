# Voktty host and remote protocols, verified

Voktty runs coding sessions on a headless host and drives them from a desktop. This project
models the parts of it that hold state across failures, and proves what they promise:

- the **session store**: versioned sessions with a change stamp per block, a bounded event log,
  command receipts, a summary column, transactions, and a cache that agrees with the rows;
- the **host engine**: commands, turns, a write-behind overlay of streamed events, settlement
  with retries, branch switches, crashes and restarts;
- the **clients** of both: delta sync, event cursors, and transfers of large syncs in pieces;
- the **ownership of SSH bootstraps**: one installing operation, any number of closing threads,
  and a registry of owners;
- the **Debug Adapter Protocol codec**, **process output framing**, **server-sent events**,
  **provider start tokens**, **resumable attachments** and **hook merging**.

## How it is organised

| files | what they hold |
|---|---|
| `Sessions`, `Protocol`, `Tables`, `Turns`, `TurnLaws` | the values of the host, its tables, and its pure decisions |
| `SessionCache`, `HostStore` | the store as a class: transactions, cache, rows |
| `DeltaSync`, `SyncTransfers`, `JsonText`, `RemoteSync` | block stamps, deltas, pieces, and the client that loads a session |
| `HostModel` | the host as a state machine: one action is what runs between two awaits or timers, and a crash may come between any two |
| `HostInvariants`, `HostMemory`, `HostSteps`, `HostFrames` | the invariant that includes the running map and the promise chains, and the proof that each action keeps it |
| `HostStored`, `HostRows` | what every run keeps of the store, the overlay and the switch lock, whichever calls fail; how any rule about stored values is kept |
| `HostRuns`, `HostRestart`, `HostSwitches`, `HostCommands`, `HostOverlay`, `HostTranscripts`, `HostClients`, `HostBlockIds`, `HostSettlement` | what follows for every run |
| `HostBind` | what a `bind` that throws does |
| `HostScenario`, `HostLateRetry`, `HostUntakenAnswer`, `HostCollision` | three runs from an empty database in which something fails, and the beginning they share |
| `HostEngine` | the engine as a class over the store: each method is one action of the state machine |
| `Bootstrap`, `BootstrapRegistry`, `BootstrapThreads` | owners, their registry, and all threads over them, interleaved step by step |
| `Framing`, `Search`, `LineText`, `Utf8`, `Base64`, `Text`, `HookText`, `Numbers`, `Seqs`, `Wrappers` | shared ground |
| `DapCodec`, `LineFraming`, `EventStream`, `EventStreams`, `StartTokens`, `Attachments`, `KimiHooks`, `JsonHooks` | the remaining components |

A JavaScript turn is one atomic step: everything between two awaits happens at once. What the
environment decides (whether the database fails and at which statement, the clock, random ids,
whether a provider stops, what it sends) is a parameter of the step, so a statement about all
runs is a statement about all behaviours of the environment. `HostModel.Config.apply` stands for
the function that applies a provider event to a session; the theorems that need something of it
say so: it keeps the id of a session (`KeepsIdentity`), makes no draft (`MakesNoDrafts`), and keeps
block ids distinct (`KeepsIdsDistinct`).

## Where the code does not do what one might expect

Each of these is stated as an exact condition and shown with an input that fails it.

- A delta is exact if and only if blocks that share an id are equal. Block ids include command
  ids, which clients choose, so a client that reuses the id of a block that stays gets a wrong
  transcript (`DeltaSync.DeltaIsExact`, `TurnLaws.TurnKeepsIdsDistinct`; a run from an empty database
  after which no delta is right is `HostCollision.NoClientCatchesUp`). In runs whose new blocks get ids that no staying block has,
  every delta is exact (`HostBlockIds.DeltasAreExact`).
- If the `bind` that follows a settlement throws, the old turn stays armed for a retry, and the
  retry releases whatever run the session has by then: the session stays stored as running
  while the running map and the overlay no longer hold it (`HostBind.RetryKeepsAgreement`; a run
  from an empty database that ends there is `HostLateRetry.LateRetryDropsTheNextRun`). The
  providers in the repository only trim the id and set a map entry when they bind, so none of them
  throws today. Run exclusivity and the order of settlement assume that this `bind` does not throw;
  everything else, such as that no prompt is sent twice and no event is lost, does not.
- Pieces of a transfer are safe from a limit of 8 bytes up; the constructor asks for 16
  (`Transfers.PieceEnd`, `Transfers.SmallLimitsCannotHold`).
- Merging Kimi hooks twice is merging once if and only if no line outside our blocks ends with a
  carriage return, as two carriage returns before a line feed, or one at the very end of the text,
  leave behind (`KimiHooks.MergeIsIdempotent`, `KimiHooks.ReturnAtTheEndIsLost`).
- Base 64 pieces join if and only if the first has whole groups of three bytes or nothing follows
  (`Base64.EncodingsJoin`, `Base64.LoneBytesDoNotJoin`).
- A command that gets an error leaves nothing behind if and only if it is not an answer or approval
  that is accepted and saved and then not taken by its provider: such a command is committed and has
  its receipt by the time its provider throws (`HostRuns.RefusedLeavesNothing`,
  `HostRuns.FailureIsLate`; a run from an empty database that gets there is
  `HostUntakenAnswer.AnswerFailsAfterCommit`). Repeating it gives the receipt (`HostRuns.AcceptedOnce`).
  The three providers that throw at every answer (host/providers.ts:129-150) never ask a question, so
  an answer to them is refused first, and the others only resolve the request they hold: no provider
  in the repository gets there today.

## Model

| member | source | states |
|---|---|---|
| HostRuns.OneTurnPerSession | host/engine.ts:802-896 | in every reachable state a session is stored as running with a run exactly when the running map holds that run, and no two promise chains share a session |
| HostRuns.SettledOnlyAfterStop | host/engine.ts:859-883 | while the process lives, a stored turn stops being the running one only in the step after the provider's stop returned for that very run |
| HostRuns.StaleEventsChangeNothing | host/engine.ts:898-903 | in every reachable state an event whose run is not the one its session is stored as running, and so not the one the running map holds, changes nothing at all |
| HostRuns.NoPromptIsSentTwice | host/engine.ts:284-299 | in every run whatever, with crashes anywhere and a `bind` that may throw, no run id reaches a provider twice |
| HostRuns.RecoveryInterrupts | host/engine.ts:286-299 | recovery of a session succeeds whenever the database does: the turn becomes interrupted with nothing left open and no other row changes |
| HostRuns.NextRevisionIsFree | host/store.ts:201-206 | the log never holds the next revision, so a save can only fail because the database does |
| HostRuns.SwitchingProjectsAreIdle | host/engine.ts:328-349 | while a project switches branches none of its sessions is stored as running, in every reachable state |
| HostSwitches.SwitchesDoNotOverlap | host/engine.ts:328-349 | between two switches of one project the first ends or the process does, in every run |
| HostRestart.RestartInterruptsEveryTurn | host/engine.ts:284-307 | from every reachable state of a process that is down, recovering each session while the database works interrupts every running turn with nothing left open and changes no other row; the process then serves, running nothing of its own, if and only if every session with an id at its provider can be bound to it |
| HostRuns.EventsAreNeitherLostNorRepeated | host/engine.ts:374-394 | the overlay of a live session is its stored value with the pending events applied, and the accepted events are exactly the written ones followed by the pending ones |
| HostRuns.ReceiptsAreForever | host/store.ts:257-269 | a receipt, once stored, is there unchanged after any run, crashes included |
| HostRuns.AcceptedOnce | host/engine.ts:437-445 | a command that took effect is answered with its receipt for ever, even if its first answer was a provider error, and repeating it changes nothing; another payload under its id is refused and changes nothing |
| HostRuns.RefusedLeavesNothing | host/engine.ts:448-733 | a command that gets an error leaves no receipt and changes no more than writing pending events, unless it is an answer or approval that was accepted and saved before its provider threw, which is committed as if the provider had taken it |
| HostRuns.FailureIsLate | host/engine.ts:437-734 | a command gets an error and a receipt if and only if it is a new answer or approval, the process is not closing, its flush, decision and save succeed, and the provider does not take it |
| HostUntakenAnswer.AnswerFailsAfterCommit | host/engine.ts:697-733 | a run from an empty database after which an answer is committed with its receipt and its client gets an error |
| HostRuns.RunKeeps | host/engine.ts:258-970 | every run in which the final `bind` does not throw keeps the whole invariant of the host |
| HostStored.RunKeepsStore | host/engine.ts:258-970 | every run whatever, with any call failing, keeps the tables, their history and log, the overlay, the accepted events and the switch lock in order |
| HostStored.StepKeepsStore | host/engine.ts:258-970 | every action keeps them, a `bind` that throws and a late retry included |
| HostRuns.RunSendsOnce | host/engine.ts:821-858 | sending at most once is kept by every run, without any assumption |
| HostCommands.CommandsApplyOnce | host/engine.ts:713-729 | in every run two commits of commands under one command id are the same commit |
| HostCommands.ReceiptedAfterCommand | host/engine.ts:722-727 | the receipt of a command names the session and revision of its commit |
| HostCommands.RunIsReceipted | host/engine.ts:437-735 | in every run each command commit is the one its receipt names |
| HostSteps.StepKeeps | host/engine.ts:258-970 | every action keeps the invariant, as long as the final `bind` of a turn does not throw |
| HostSteps.CommandKeeps | host/engine.ts:437-735 | a command in any environment keeps the invariant |
| HostSteps.EventKeeps | host/engine.ts:898-913 | a provider event keeps the invariant, whether it is written, batched or fails to be written |
| HostSteps.SettleKeeps | host/engine.ts:860-896 | settling a turn keeps the invariant whichever of its calls fail, except `bind` |
| HostSteps.RetrySettleKeeps | host/engine.ts:403-431 | a retried settlement keeps the invariant |
| HostSteps.PatchKeeps | host/engine.ts:366-372 | a metadata update keeps the invariant |
| HostSteps.NameSessionKeeps | host/engine.ts:744-765 | a generated title keeps the invariant |
| HostSteps.NameBranchKeeps | host/engine.ts:786-798 | a generated branch name keeps the invariant |
| HostSteps.BeginSwitchKeeps | host/engine.ts:328-342 | beginning a branch switch keeps the invariant |
| HostSteps.IdleCardsMeanIdle | host/store.ts:116-137 | the summary column is current, so idle cards mean that no session of the project runs |
| HostSteps.CrashKeeps | host/engine.ts:284-287 | a crash between any two steps keeps the invariant |
| HostSteps.RecoverKeeps | host/engine.ts:286-299 | recovering a session keeps the invariant |
| HostSteps.CloseKeeps | host/engine.ts:960-963 | closing keeps the invariant |
| HostSteps.DeleteKeeps | host/store.ts:246-255 | deleting a session keeps the invariant |
| HostFrames.StepEndsOnlyStoppedRuns | host/engine.ts:859-896 | a run leaves the running map only in a step after its provider's stop returned |
| HostFrames.CommandReceipts | host/engine.ts:437-735 | what a command does to the receipts, in every state and environment |
| HostFrames.LaunchIsOfIdle | host/engine.ts:548-549 | only a session that is not running starts a turn |
| HostInvariants.FlushKeeps | host/engine.ts:374-383 | a flush keeps the invariant, thrown or not |
| HostInvariants.SaveThroughKeeps | host/engine.ts:357-372 | a save of a session restarts its overlay from the saved value and keeps the invariant |
| HostInvariants.SaveExtendsHistory | host/store.ts:178-208 | every save extends the history of committed values with a value stamped against the last one |
| HostInvariants.SaveKeepsLog | host/store.ts:201-206 | after every save the retained log entries are the payloads of the latest commits, each at its revision |
| HostOverlay.EventsShowAtOnce | host/engine.ts:898-913 | in every reachable state an accepted event shows at once and exactly once, however its write goes; any other event never shows |
| HostOverlay.FlushIsInvisible | host/engine.ts:374-383 | writing pending events, or failing to, changes no latest value |
| HostOverlay.PatchMergesWithTheStream | host/engine.ts:366-372 | a title, archive or pin update changes its own fields of the latest value and nothing else |
| HostOverlay.CommandsSeeTheLatest | host/engine.ts:446-446 | a command decides on the latest value, as a host without batching would |
| HostOverlay.FlushedStoreIsLatest | host/engine.ts:374-383 | after a flush the stored value shows every accepted event |
| HostTranscripts.TranscriptsAreOrderly | host/engine.ts:500-645 | in every reachable state a transcript has at most one draft, none while its turn runs, and no plan building once it does not |
| HostRows.ActObeys | host/engine.ts:258-970 | an action keeps any rule about the status and blocks of stored values, if the few values it may store obey the rule |
| HostBlockIds.BlockIdsAreDistinct | host/engine.ts:500-645 | in every reachable state of runs whose new blocks get fresh ids, the block ids of every transcript are distinct |
| HostBlockIds.DeltasAreExact | host/store.ts:139-158 | in such runs a client at any earlier committed revision gets exactly the current value from the delta |
| HostBlockIds.LoadsAreCurrent | src/modules/connections/model/connections.ts:207-219 | in such runs a client that holds nothing or any committed value holds the current value after a load, whatever the session becomes meanwhile |
| HostTranscripts.DecidedIsOrderly | host/engine.ts:486-712 | every command keeps transcripts orderly |
| HostTranscripts.SettledIsOrderly | host/engine.ts:915-958 | settling makes a transcript orderly |
| HostClients.ClientsCatchUp | host/store.ts:139-158 | in every reachable state a client at any earlier committed revision gets exactly the current value from the delta, if and only if blocks that share an id are equal |
| HostClients.CursorsAreServedExactly | host/store.ts:271-294 | in every reachable state a cursor inside the retained range gets exactly the payloads of the commits after it, in order and without gaps, and any other gets the snapshot |
| HostSettlement.SettlingEndsTheTurn | host/engine.ts:859-883 | settling a stopped turn while the database works releases its session, even if `bind` throws, and stores a settled value: interrupted exactly when closing or unable to write the stream, nothing left open, and a notice at its end exactly when the turn did not end cleanly |
| HostSettlement.SilentWhenClean | host/engine.ts:867-873 | a turn ends without a notice if and only if it was neither closing, cancelled, failed nor unable to write |
| HostBind.RetryKeepsAgreement | host/engine.ts:403-431 | a retry leaves the running map in agreement with the store if and only if the session is not running another run by then |
| HostBind.UnboundTurnStaysArmed | host/engine.ts:883-896 | when only the final `bind` throws, the session is free while the old chain waits for its retry |
| HostCollision.NoClientCatchesUp | host/engine.ts:616-645 | a run from an empty database, in which a client sends a prompt under the id of a notice, after which a client at any earlier revision gets a wrong value from the delta |
| HostLateRetry.LateRetryDropsTheNextRun | host/engine.ts:418-427 | a run from an empty database after which the session is stored as running its second turn, which neither the running map nor the overlay holds |
| Turns.SettledLeavesNothingOpen | host/engine.ts:915-958 | a settled value has no stream, open approval, pending question, busy mark or plan still building |
| Turns.StoppedIsQuiet | src/modules/harness/lib/harness/apply.ts:406-440 | stopping the stream leaves no block streaming and no approval undecided |
| Turns.StartTurn | host/engine.ts:607-647 | a started turn is running under the drawn run id, with no draft left |
| Turns.DecideTurn | host/engine.ts:547-647 | an accepted turn leaves no draft |
| TurnLaws.TurnKeepsIdsDistinct | host/engine.ts:616-645 | a turn keeps block ids distinct if and only if its command id is not the id of a block that stays |
| TurnLaws.BuildingPlansEnd | host/engine.ts:934-949 | a plan being built is built when its turn ends cleanly, and ready again otherwise |
| Engine.HostEngine.constructor | host/engine.ts:281-307 | a starting process has the database and no memory |
| Engine.HostEngine.Recover | host/engine.ts:286-307 | the loop over the stored sessions stops at the first failed save or binding; it ends well exactly when no session is running and each with an id at its provider is bound, and then every interrupted turn is settled |
| Engine.HostEngine.RecoverOne | host/engine.ts:287-305 | one pass of the loop is the recovery action, and fails exactly when the session stays running or cannot be bound |
| Engine.HostEngine.Save | host/engine.ts:357-364 | a save commits the next revision or changes nothing |
| Engine.HostEngine.Flush | host/engine.ts:374-383 | flushing is the flush of the state machine |
| Engine.HostEngine.ScheduledFlush | host/engine.ts:385-394 | a failed flush marks the run |
| Engine.HostEngine.ReceiveEvent | host/engine.ts:898-913 | receiving an event is the event action |
| Engine.HostEngine.Command | host/engine.ts:437-735 | the command entry point is the command action, reply included |
| Engine.HostEngine.Transact | host/engine.ts:448-729 | the save and the receipt of a command happen both or not at all |
| Engine.HostEngine.Conclude | host/engine.ts:730-733 | after its transaction the overlay shows the saved value and the effect happens |
| Engine.HostEngine.StartSending | host/engine.ts:821-858 | the first step of a run sends the prompt, unless it is closing, cancelled or cannot be prepared |
| Engine.HostEngine.Settle | host/engine.ts:862-896 | the step after the awaited stop is the settle action |
| Engine.HostEngine.RetrySettlement | host/engine.ts:396-435 | a retry is armed unless one is or the process is closing |
| Engine.HostEngine.RetrySettle | host/engine.ts:403-431 | the step after the awaited stop of a retry is the retry action |
| Engine.HostEngine.UpdateSession | host/engine.ts:366-372 | a metadata update is the patch action, and returns the card of the stored value |
| Engine.HostEngine.NameSession | host/engine.ts:744-765 | a generated title replaces only the title it was asked for |
| Engine.HostEngine.NameBranch | host/engine.ts:786-798 | a generated branch name is stored with the latest value |
| Engine.HostEngine.BeginSwitch | host/engine.ts:328-342 | a switch begins exactly when the project is registered, none is active and no stored session of it runs |
| Engine.HostEngine.Close | host/engine.ts:960-963 | closing disarms every retry |
| Storage.HostStore.Begin | host/store.ts:50-52 | a transaction remembers what a rollback restores |
| Storage.HostStore.Rollback | host/store.ts:57-66 | a rollback restores the tables and clears the cache |
| Storage.HostStore.Find | host/store.ts:99-108 | a lookup returns what a direct row read would, and makes it the most recent entry |
| Storage.HostStore.Keep | host/store.ts:91-97 | remembering keeps the cache in agreement with the rows |
| Storage.HostStore.Summaries | host/store.ts:116-137 | the cards of a project are the summaries of its snapshots, one for each, the most recently updated first |
| Storage.HostStore.SyncSession | host/store.ts:139-158 | the sync answer of the stored value |
| Storage.HostStore.WriteSession | host/store.ts:178-208 | a write stores the stamped value, its card, its log entry and trims the log, or leaves a state that a rollback restores |
| Storage.HostStore.Save | host/store.ts:172-176 | a save outside a transaction happens completely or not at all |
| Storage.HostStore.UpdateSession | host/store.ts:210-244 | an update saves the patched next revision or changes nothing |
| Storage.HostStore.DeleteSession | host/store.ts:246-255 | a session that is not running is deleted with its log, any other request changes nothing |
| Storage.HostStore.FindReceipt | host/store.ts:257-263 | a known command gets its receipt, another payload an error |
| Storage.HostStore.RecordReceipt | host/store.ts:265-269 | a receipt is inserted once |
| Storage.HostStore.ReadEvents | host/store.ts:271-294 | the events after a cursor |
| Storage.HostStore.AddProject | host/store.ts:82-89 | a directory that has a project keeps it, a new one gets one, and no directory ever has two |
| Storage.SaveLeavesOthersCached | host/store.ts:178-208 | a save leaves every other cached value in agreement with its row |
| SessionCache.CacheIsMostRecent | host/store.ts:91-108 | after any sequence of uses, drops and clears the cache holds exactly the most recently used values, at most 32, in order of use |
| SessionCache.RememberKeepsDistinct | host/store.ts:91-97 | the cache holds one value a session and at most 32 |
| Tables.SaveKeepsLogs | host/store.ts:201-206 | a save leaves a gap-free log of at most 2001 entries that ends at the saved revision, and no other log changes |
| Tables.EventsAreExact | host/store.ts:271-294 | a cursor gets exactly the entries after it when it is in the retained range, and the snapshot exactly when it is not |
| DeltaSync.BlockRevisions | host/store.ts:365-384 | the loop computes the stamp of every block |
| DeltaSync.StampMeansUnchanged | host/store.ts:365-384 | a block stamped s is the same block in every value saved from s to now |
| DeltaSync.ClientObtains | src/modules/connections/model/protocol.ts:114-141 | a client at any earlier saved revision obtains the current value with each position resolved by id, without an error |
| DeltaSync.DeltaIsExact | host/store.ts:139-158 | delta sync refines full snapshots if and only if blocks that share an id are equal |
| DeltaSync.LoadFollowsHistory | src/modules/connections/model/connections.ts:207-219 | a client that starts with nothing or any earlier saved value holds, after every load, the value that was current when its first request was answered, whatever is saved meanwhile |
| DeltaSync.LoadAlwaysEnds | src/modules/connections/model/connections.ts:207-219 | a load never fails: when the delta does not apply, the client holds the snapshot of its second request |
| DeltaSync.CollidingIdsMisleadTheClient | src/modules/connections/model/protocol.ts:126-140 | two different blocks under one id make a delta wrong |
| JsonText.DropLast | host/sync-transfer.ts:19-20 | how the weight of a JSON string changes with its last unit |
| Transfers.PieceEnd | host/sync-transfer.ts:81-99 | a piece is nonempty, ends between characters, is light enough, and is no shorter than it has to be |
| Transfers.SmallLimitsCannotHold | host/sync-transfer.ts:81-89 | below 8 bytes some text has no piece that is light enough |
| Transfers.SyncTransfers.Create | host/sync-transfer.ts:27-39 | which limits are accepted |
| Transfers.SyncTransfers.Respond | host/sync-transfer.ts:41-58 | an answer is chunked exactly when its UTF-8 size is over the limit, and the transfer is stored |
| Transfers.SyncTransfers.Chunk | host/sync-transfer.ts:60-104 | every branch of a piece request, its piece and the transfers it leaves |
| Transfers.SyncTransfers.Prune | host/sync-transfer.ts:106-112 | pruning keeps the newest seven unexpired transfers |
| Transfers.PruneKeepsExactly | host/sync-transfer.ts:106-112 | a transfer is kept if and only if it has not expired and fewer than seven unexpired ones are newer |
| Transfers.SevenMoreAreSafe | host/sync-transfer.ts:106-112 | an unexpired transfer survives the seven that begin after it |
| Transfers.ServeAll | host/sync-transfer.ts:41-112 | requests of others leave a transfer that has not expired where its client finds it |
| Transfers.Download | src/modules/connections/model/connections.ts:188-203 | whatever others ask between the pieces, as long as they begin at most seven transfers (syncs answered at once begin none), the client loop is never refused, ends, and its pieces join to the text, each as long as the limit asks for unless it is the last |
| RemoteSync.SyncSession | src/modules/connections/model/connections.ts:177-204 | an answer of any size arrives unchanged, whatever others ask meanwhile |
| RemoteSync.LoadSession | src/modules/connections/model/connections.ts:207-219 | a load over transfers is the load of the delta theorem, with the session and the transfers changing between its two requests |
| Bootstrap.AcknowledgementsAreSound | src-tauri/src/modules/remote_bootstrap.rs:243-279 | under every interleaving a cleanup that returned success means that the operation has settled and everything it ever installed was seen to stop |
| Bootstrap.NothingIsForgotten | src-tauri/src/modules/remote_bootstrap.rs:191-241 | at every moment what was not seen to stop is still held for a retry |
| Bootstrap.CleanupTakesOnlyWhatStopped | src-tauri/src/modules/remote_bootstrap.rs:249-279 | a cleanup takes nothing away that was not seen to stop; a failed one keeps the child, the askpass and unfinished workers |
| Bootstrap.EarlySnapshotsCertifyNothing | src-tauri/src/modules/remote_bootstrap.rs:250-252 | why a pass that began before settlement must not acknowledge |
| Bootstrap.RetrySucceeds | src-tauri/src/modules/remote_bootstrap.rs:249-265 | a retry after settlement acknowledges once the stops succeed |
| Bootstrap.StepKeeps | src-tauri/src/modules/remote_bootstrap.rs:70-280 | every step of the operation and of the cleanup keeps the invariant |
| Bootstrap.DiscardFinished | src-tauri/src/modules/remote_bootstrap.rs:147-162 | the finished workers, and no other, leave the list |
| BootstrapRegistry.OnlyItsOwnRegistration | src-tauri/src/modules/remote_bootstrap.rs:382-397 | a stale handle never removes a newer owner of the same id |
| BootstrapThreads.ProcessesAreNeverLost | src-tauri/src/modules/remote_bootstrap.rs:484-510 | under every interleaving of all threads each process ever started was seen to exit, or the owner it was started for is registered and holds it, unless it is still in the hand of the thread that stores it next |
| BootstrapThreads.RegistryIsBounded | src-tauri/src/modules/remote_bootstrap.rs:294-352 | at most 256 owners are registered and equal bindings share one spawn gate, under every interleaving |
| BootstrapThreads.OnlyCertifiedOwnersLeave | src-tauri/src/modules/remote_bootstrap.rs:294-397 | whichever threads evict, retry, finish and close, an owner leaves the registry only when its operation has settled and everything it installed was seen to stop |
| BootstrapThreads.SpawnsAreExclusive | src-tauri/src/modules/remote_bootstrap.rs:484-510 | of all threads that spawn for one binding only one is between its claim of the spawn gate and its last check |
| BootstrapThreads.SpawnsAreRecorded | src-tauri/src/modules/remote_bootstrap.rs:492-509 | whatever other threads do between the check that the owner has no child, the start of the process and its store, the owner has no child when the process is stored, and is registered |
| BootstrapThreads.SpawnersAreRegistered | src-tauri/src/modules/remote_bootstrap.rs:439-510 | the owner of an operation inside `spawn` is registered and has not settled |
| BootstrapThreads.MoveKeeps | src-tauri/src/modules/remote_bootstrap.rs:294-518 | every step of every thread keeps: one closer an owner, removal only after its cleanup acknowledged, spawns only before settlement and under the gate |
| BootstrapThreads.EveryInterleaving | src-tauri/src/modules/remote_bootstrap.rs:283-518 | every interleaving of all threads keeps the registry in order and what the threads rely on |
| BootstrapRegistry.InsertKeeps | src-tauri/src/modules/remote_bootstrap.rs:325-352 | a reservation keeps the bound, the keys and the shared gates |
| DapCodec.RoundTrip | src-tauri/src/modules/dap.rs:101-170 | the frames the encoder makes of messages, in any pieces of at most one read, decode to exactly the messages, with no error and an empty buffer |
| DapCodec.FeedInParts | src-tauri/src/modules/dap.rs:102-129 | feeding in two parts equals feeding at once, whenever that succeeds |
| DapCodec.DapFrameDecoder.Feed | src-tauri/src/modules/dap.rs:102-129 | the decoding loop gives every complete message and keeps the rest |
| DapCodec.DapFrameDecoder.Look | src-tauri/src/modules/dap.rs:108-126 | what the front of the buffer holds |
| DapCodec.ParseContentLength | src-tauri/src/modules/dap.rs:138-157 | the header loop computes the content length |
| DapCodec.LengthIsUnique | src-tauri/src/modules/dap.rs:138-157 | a header gives a length if and only if every line has a colon and exactly one is a content length with a valid number |
| DapCodec.EncodedDrains | src-tauri/src/modules/dap.rs:159-170 | decoding undoes encoding |
| DapCodec.PieceIsTaken | src-tauri/src/modules/dap.rs:103-105 | the buffer limit is never met in the middle of a stream of encoded messages |
| DapCodec.ReadAll | src-tauri/src/modules/dap.rs:244-266 | the reader thread collects what its decoder gives, until an error |
| DapCodec.DapInbox.Push | src-tauri/src/modules/dap.rs:43-50 | the inbox holds the newest 512 messages in order |
| DapCodec.AppendBounded | src-tauri/src/modules/dap.rs:172-183 | the newest 256 KiB are kept |
| Search.Find | src-tauri/src/modules/dap.rs:132-136 | the first place where the needle occurs, if any |
| Framing.DrainInParts | src-tauri/src/modules/dap.rs:102-129 | draining a stream in two parts is draining it at once, for every stable splitter |
| StartTokens.SpawnsAreExact | host/child-backend.ts:363-392 | a start spawns exactly when nothing cancelled it before its last check, and never over a tracked child |
| StartTokens.CancelledNeverSpawn | host/child-backend.ts:318-329 | an attempt superseded, killed or overtaken by close before it spawned never spawns |
| StartTokens.NothingSpawnsAfterClose | host/child-backend.ts:495-501 | nothing is spawned once close has begun, and no child stays tracked |
| StartTokens.StepKeeps | host/child-backend.ts:318-501 | every interleaving keeps tokens, children and spawns consistent |
| StartTokens.ChildBackend.Begin | host/child-backend.ts:318-340 | a start up to its first await |
| StartTokens.ChildBackend.ResumeLaunched | host/child-backend.ts:363-392 | the last check and the spawn |
| StartTokens.ChildBackend.Kill | host/child-backend.ts:441-449 | a kill takes the token and the child |
| StartTokens.ChildBackend.Close | host/child-backend.ts:495-501 | closing clears every token and every tracked child |
| LineFraming.ChunkingDoesNotMatter | host/child-backend.ts:399-427 | as long as no limit is hit, the emitted lines are the split of the whole stream |
| LineFraming.LineReader.Data | host/child-backend.ts:406-422 | one chunk emits its terminated lines and keeps the rest; a line or a rest that is too long kills the process, and what is left of the buffer is read on |
| EventStream.ChunkingDoesNotChangeEvents | host/child-backend.ts:276-306 | as long as no limit is hit, the payloads are those of the blank-line-terminated groups of the whole stream |
| EventStream.EmitsPayloads | host/child-backend.ts:287-304 | the reader emits the payload of each group that a blank line ended |
| EventStream.EventStreamReader.Receive | host/child-backend.ts:279-306 | one chunk of an event stream, which emits only while it is the current one of its session |
| EventStreams.OnlyCurrentStreamsEmit | host/child-backend.ts:207-315 | in whatever order streams are opened, replaced, stopped and fed, a stream emits exactly the payloads of the chunks it got while it was the current one of its session, as long as no limit is hit |
| EventStreams.ReplacedStaysSilent | host/child-backend.ts:253-315 | a stream that was replaced, stopped or ended never becomes current again and emits nothing more |
| Attachments.AttachmentStore.WriteChunk | host/attachments.ts:80-124 | every branch of a chunk request and the file it leaves |
| Attachments.FilesOnlyGrow | host/attachments.ts:101-117 | whatever chunks arrive, files only grow at their end and stay within 20 MiB |
| Attachments.AcceptedBytesStay | host/attachments.ts:105-118 | an accepted chunk is in the file at its offset, then and for ever |
| Attachments.UploadIsFaithful | host/attachments.ts:158-174 | if the accepted chunks are slices of one content, a file passes as complete if and only if it is that content |
| Attachments.AttachmentStore.ResolveAttachments | host/attachments.ts:158-174 | a command is refused at its first incomplete attachment, and only then |
| Attachments.AttachmentStore.ReadChunk | host/attachments.ts:178-214 | the first attachment of the session with the id, if it is an image, is read in pieces of whole groups of three bytes unless it is the last; every refusal is stated |
| Attachments.AttachmentStore.Download | src/modules/connections/model/remoteAttachmentPreviews.ts:46-69 | whatever is uploaded between the reads, the loop succeeds exactly when the file is complete at its last one, and then the joined pieces are the encoding of that file and decode to it |
| Base64.RoundTrip | host/attachments.ts:98-98 | decoding an encoding gives the bytes back |
| Base64.EncodingsJoin | host/attachments.ts:197-203 | encodings join if and only if the first part is a whole number of groups or nothing follows it |
| KimiHooks.MergeIsIdempotent | src-tauri/src/modules/agent.rs:284-303 | merging twice is merging once if and only if no line outside our blocks ends with a carriage return |
| KimiHooks.ReturnAtTheEndIsLost | src-tauri/src/modules/agent.rs:284-303 | a config that ends with a carriage return, for which merging twice is not merging once |
| KimiHooks.MergedLines | src-tauri/src/modules/agent.rs:284-303 | every foreign line survives in order, up to line endings and blank lines at the end, followed by exactly our blocks |
| KimiHooks.StripKeepsForeign | src-tauri/src/modules/agent.rs:253-282 | the edit keeps exactly the lines outside our blocks, in order |
| KimiHooks.StripOwnedKimiHooks | src-tauri/src/modules/agent.rs:253-282 | the stripping loop |
| KimiHooks.MergeKimiHooks | src-tauri/src/modules/agent.rs:284-303 | the merging loop |
| KimiHooks.EscapeTomlBasicString | src-tauri/src/modules/agent.rs:229-242 | the escaping loop |
| KimiHooks.EventLinesAreOurs | src-tauri/src/modules/agent.rs:295-301 | a written block is recognised as ours when it is read again |
| JsonHooks.MergeIsIdempotent | src-tauri/src/modules/agent.rs:200-227 | merging twice is merging once, for every settings file |
| JsonHooks.ForeignContentSurvives | src-tauri/src/modules/agent.rs:200-227 | everything outside the hooks and every foreign group with hooks of its own survives in order |
| JsonHooks.EveryEvent | src-tauri/src/modules/agent.rs:210-225 | what merging leaves under each event |
| JsonHooks.MergeHooks | src-tauri/src/modules/agent.rs:200-227 | the merging loop |
| HookText.OscIsOwned | src-tauri/src/modules/agent.rs:133-138 | our commands carry a marker that identifies them |

## Left out

- Provider event application: `applyHarnessEvent` is a parameter; only stopping the stream is modelled.
- Fields of a block or session that no modelled decision reads: tool, orchestration and task data, the model name of a turn, the worktree directory.
- SQLite, JSON text, SHA-256, random ids and clocks: tables are maps, a receipt holds the command itself, drawn ids are never drawn twice, and times are arbitrary integers.
- Summaries with some fields missing, as older hosts wrote them: they count as absent.
- Storage.ValidTitle: counts characters where the program counts UTF-16 units, because titles are strings of characters here.
- Turns.BuildPlan: marks every block equal to the approved plan block, where the program marks that one object; the two differ only when a transcript holds two identical blocks.
- Timers: a flush or retry timer may fire at any moment, which includes every delay the program asks for.
- The order of transfers in a JavaScript Map is the order of a sequence; object identity beyond that is not needed.
- Transfers.Download: assumes that each piece is asked for within two minutes, and that others do not name the transfer, whose id only its client was told.
- HostModel.Crash: forgets pending events, as a crash does; what is lost is what was not written.
- Processes, signals, pipes and sockets: their effects are choices of the environment.
- BootstrapThreads.MoveKeeps: the result that `finish` gives its caller after a cleanup is not modelled, only whether the cleanup and the removal happened; the table of published sessions is left out.
- Bootstrap.StopAssets: the parts of a session other than its child (standard input, tunnels, routing) stop together with the child.
- Windows forms of the hook commands and of stopping a child.
- Whole reads and writes are assumed for attachments; symbolic links, permissions and directories are left out.
- Field validation of commands and attachments, HTTP routing, projects' directories, worktrees, Git, the command line, services and the user interface: plumbing and one-branch checks.
- Launch queues, proxies, address filters and bootstrap scripts: they would only add easy members.

# Verified models of the OrkWorks desktop core

Dafny models of the concurrent protocols in the OrkWorks Electron main process and of the
transformations beside them, with machine-checked proofs of what they promise.

A protocol is modelled as a state machine whose steps are the stretches of code between two
awaits: `Step(state, event)` is total, `Run` folds it over any sequence of events, and the theorems
quantify over every sequence. Awaits are scheduling points, timers and processes are events that
may arrive at any time, and the file system, the engine or the sidecar answer adversarially. Where
the source keeps its state in closure variables or object fields, a class holds those fields and
its methods perform the steps. For the coordinator, the lifecycle, the shell memory, the Peon
transaction and the update service, every public method keeps the machine's invariant, and a method
`Serve` that lets new objects handle any events states the main theorems of their own log or state.
Histories are kept as logs of effects, either with the facts they establish folded alongside or with
each entry naming the earlier entries it rests on, and are turned into statements about the log
itself in the final lemmas. Automatic induction is switched off in all lemmas: where a proof is by
induction, its body says so.

| file | models |
|---|---|
| `Wrappers.dfy`, `Decimals.dfy` | the option type and decimal numbers |
| `WorkspaceSwitch.dfy`, `WorkspaceRequests.dfy`, `WorkspaceOrder.dfy`, `WorkspaceSwitchCoordinator.dfy` | the workspace switch coordinator: machine, what its log says about the requests it serves and their order, and object |
| `Sidecar.dfy`, `SidecarLifecycle.dfy` | the sidecar lifecycle: machine and object |
| `BackendRestoration.dfy`, `WorkspaceRuntime.dfy` | the restoration of a workspace; coordinator, lifecycle and restoration composed as the main process wires them |
| `ShellMemory.dfy`, `ShellMemoryRuns.dfy`, `ShellMemoryProgress.dfy`, `RevisionedShellMemory.dfy`, `ShellRecordFile.dfy` | the revisioned shell memory shared by any number of instances, its theorems over runs, when a commit must succeed, its object, and the record file below it |
| `KnowledgeRace.dfy`, `KnowledgeCache.dfy` | the two durable knowledge slots under concurrent commits and loads; the cache and updater objects |
| `PeonSelection.dfy`, `PeonSelectionTransaction.dfy` | the Peon selection transaction: machine and object |
| `UpdateService.dfy`, `UpdateServiceObject.dfy` | the update service: machine and object |
| `JsonGrammar.dfy`, `JsonParser.dfy`, `JsonValue.dfy`, `JsonSpelling.dfy`, `StrictJson.dfy` | strict JSON: grammar, parser, values and printer, what its characters and escapes stand for, and the scanner object |
| `StoreQuota.dfy`, `StoreCommit.dfy`, `StoreWriter.dfy` | the hash-linked, quota-accounted store commit, its chains, and the loops that carry it out |
| `WorkspaceHistory.dfy`, `WorkspaceHistoryLaws.dfy` | the bounded workspace history and its stored formats; what its operations promise, list by list |
| `HarnessIntegration.dfy` | planning and carrying out integration changes when the active tools are saved |
| `ProviderSettings.dfy` | provider settings normalisation |
| `GitDiff.dfy` | patch numbering and the split view |
| `RelativeTime.dfy` | relative-time labels and their refresh deadline |

Verify everything with `dafny verify dfyconfig.toml`.

Eight expectations one might have of the code do not hold of it as they stand. The model keeps the
code's behaviour, shows a concrete case, and proves a condition that is necessary and sufficient:

- A lifecycle with one process can come to have two by a start: exactly if another start waits for
  a cleanup that may still succeed (`Sidecar.StartIsSafeIff`, `Sidecar.OverlappingStartsSpawnTwice`).
  Behind the coordinator it cannot (`WorkspaceRuntime.OneProcess`).
- A lifecycle whose cleanup has failed can still launch, if a start waits for the cleanup of another
  generation and that one may still succeed (`Sidecar.FailsClosedIff`,
  `Sidecar.OverlappingStartEscapesFailure`). Behind the coordinator, where starts never overlap,
  it cannot (`WorkspaceRuntime.NoSpawnAfterFailure`).
- A coordinator whose history were saved asynchronously could publish `ready` once after a cleanup
  has failed: when `kill()` throws inside `fail()` while the history is being saved
  (`WorkspaceRuntime.ReadyAfterFailureIff`, `WorkspaceRuntime.ReadyAfterFailureHappens`). The main
  process saves it synchronously, and so it cannot (`WorkspaceRuntime.NothingAfterFailure`).
- Request generations stop increasing once the counter is 2 to the 53rd, which a sidecar reporting
  2 to the 53rd minus one brings about at once (`PeonSelection.RequestsIncreaseIff`,
  `PeonSelection.RequestsCanCollide`).
- A commit leaves rows outside its manifest unchanged if and only if no supplied row repeats a
  stored one with other links; otherwise the stored link is lost unnoticed
  (`StoreCommit.UnlistedUnchangedIff`, `StoreCommit.LinkCanBeLost`).
- A version 1 history within 64 KiB can migrate to a record that is not, exactly if fewer than 30
  bytes of the limit are left (`WorkspaceHistory.EveryFormatReadsValid`, `WorkspaceHistory.V1CanOutgrow`).
- Unpinning can succeed and leave the path in neither list, although a comment there says it is not
  lost: exactly in a history that is full to the byte, holds one recent path, which is the last one,
  and other pins, and whose revision gains a digit (`WorkspaceHistory.UnpinKeepsThePathIff`,
  `WorkspaceHistory.UnpinCanDropThePath`).
- A knowledge commit one of whose own reads fails can lower the highest durable sequence
  (`KnowledgeRace.MissedReadLosesHighest`): exactly when what it sees is below its candidate, the
  candidate is below the highest, and no slot it leaves alone has the highest
  (`KnowledgeCache.CommitDropsIff`, `KnowledgeCache.FirstWriteDropsIff`).

## Model

| member | source | states |
|---|---|---|
| `WorkspaceSwitch.StartOnlyAfterEarlierRuntimesAreGone` | apps/desktop/electron/workspaceSwitchCoordinator.ts:98-359 | In every interleaving, with `markUnresolved` at any await, between two starts of a runtime there is a confirmed successful close or cleanup, and the generations of starts strictly increase. |
| `WorkspaceSwitch.StepKeepsInv` | apps/desktop/electron/workspaceSwitchCoordinator.ts:116-271 | Every step of the coordinator, enabled or not, keeps the invariant that a runtime that may be outstanding is accounted for by the latch, the current path or the point the operation is at. |
| `WorkspaceRequests.EveryEffectIsCalledFor` | apps/desktop/electron/workspaceSwitchCoordinator.ts:136-379 | In every run every effect is called for by the operation under way: a runtime is started, and shown as opening or ready, only for the destination last validated for it, which is the one a switch names, a pick chose, a retry repeats or a failed update had open, and shown as closing only if it is the current one; the update runs once, with the workspace current when it began and none outstanding; the quit callback runs only in a quit that has shown the picker; and a close ends in picker or unresolved without quitting, a quit with the callback called or a failure shown, every other operation without it. |
| `WorkspaceRequests.OnlyQuitQuits` | apps/desktop/electron/workspaceSwitchCoordinator.ts:366-379 | Wherever the quit callback is in the log, the last operation begun before it is a quit that has not ended, and no runtime is outstanding. |
| `WorkspaceRequests.StepLinks` | apps/desktop/electron/workspaceSwitchCoordinator.ts:98-379 | Every step keeps that the log so far is called for and that the point in the code is one the operation under way gets to, with its destination, previous workspace and phase as the log has them. |
| `WorkspaceOrder.ServedInOrder` | apps/desktop/electron/workspaceSwitchCoordinator.ts:110-114 | In every run the requests that have begun, as the log has them, followed by those queued, are the requests made, in their order: none is lost, repeated or overtaken. |
| `WorkspaceSwitchCoordinator.Coordinator.Dispatch` | apps/desktop/electron/workspaceSwitchCoordinator.ts:292-379 | A dequeued request enters the code of its own kind: only a pick picks, only an update updates, and a close that is begun continues as the request that asked for it. |
| `WorkspaceSwitchCoordinator.Coordinator.BeginNext` | apps/desktop/electron/workspaceSwitchCoordinator.ts:110-114 | Nothing begins while an operation runs; otherwise the oldest request is taken from the queue, and it is the one that is entered. |
| `WorkspaceSwitchCoordinator.Coordinator.CloseInternal` | apps/desktop/electron/workspaceSwitchCoordinator.ts:257-271 | Closing takes a new generation and ends unresolved on a latched failure, in the picker with no workspace, and otherwise closes the current one for the caller. |
| `WorkspaceSwitchCoordinator.Coordinator.PickSettled` | apps/desktop/electron/workspaceSwitchCoordinator.ts:296-301 | A cancelled pick ends and changes nothing; a choice that is valid becomes the destination of a new generation. |
| `WorkspaceSwitchCoordinator.Coordinator.RememberWorkspaceSettled` | apps/desktop/electron/workspaceSwitchCoordinator.ts:209-255 | Ready is published, and the path becomes current, exactly if the generation is still the current one and nothing is latched; otherwise the path stays and the attempted runtime is cleaned up. |
| `WorkspaceSwitchCoordinator.Coordinator.CloseCurrentResumed` | apps/desktop/electron/workspaceSwitchCoordinator.ts:162-170 | A successful close continues as its caller does: a switch opens its destination, an update runs with the previous workspace, a close ends and a quit calls the quit callback. If a runtime is started, no earlier one was outstanding and the generation is higher than that of every start before. |
| `WorkspaceSwitchCoordinator.Coordinator.CloseCurrentSettled` | apps/desktop/electron/workspaceSwitchCoordinator.ts:116-134 | A resolved close clears the path and leaves nothing outstanding; a rejected one keeps the path and publishes unresolved. |
| `WorkspaceSwitchCoordinator.Coordinator.SwitchWorkspaceInternal` | apps/desktop/electron/workspaceSwitchCoordinator.ts:136-162 | A latched failure or an invalid destination changes nothing; otherwise a new generation is taken, and a current runtime is closed before anything is started. |
| `WorkspaceSwitchCoordinator.Coordinator.StartRuntimeSettled` | apps/desktop/electron/workspaceSwitchCoordinator.ts:168-211 | Only a start that resolves under the current generation goes on to remembering; every other attempt is cleaned up. |
| `WorkspaceSwitchCoordinator.Coordinator.AttemptCleanupSettled` | apps/desktop/electron/workspaceSwitchCoordinator.ts:173-206 | A rejected cleanup latches its failure, a resolved one keeps what was latched; with nothing latched nothing is outstanding, and otherwise the state is unresolved. |
| `WorkspaceSwitchCoordinator.Coordinator.MarkUnresolved` | apps/desktop/electron/workspaceSwitchCoordinator.ts:282-286 | Marking takes a new generation, latches and publishes the failure, and leaves the running operation where it is. |
| `WorkspaceSwitchCoordinator.Coordinator.RetryCleanupSettled` | apps/desktop/electron/workspaceSwitchCoordinator.ts:303-326 | A retry clears the latch exactly when the cleanup resolves, leaving nothing outstanding, and latches the new failure otherwise. |
| `WorkspaceSwitchCoordinator.Coordinator.RunUpdate` | apps/desktop/electron/workspaceSwitchCoordinator.ts:328-343 | On a latched failure an update changes nothing; otherwise it closes a current runtime first. |
| `WorkspaceSwitchCoordinator.Coordinator.UpdateOperationSettled` | apps/desktop/electron/workspaceSwitchCoordinator.ts:345-358 | The previous workspace is reopened exactly if the update failed, there was one, nothing is latched and it is still valid. |
| `WorkspaceSwitchCoordinator.Serve` | apps/desktop/electron/workspaceSwitchCoordinator.ts:98-379 | Whatever events a new object handles, in its own log every two starts have a resolved close or cleanup between them, the generations of starts increase, every effect is called for by the operation under way, and the requests are served in the order they were made. |
| `Sidecar.OverlappingStartsSpawnTwice` | apps/desktop/electron/sidecarLifecycle.ts:266-276 | A run with overlapping starts has two live processes: both wait for one cleanup, and both launch. |
| `Sidecar.OneProcessUnlessStartsOverlap` | apps/desktop/electron/sidecarLifecycle.ts:120-276 | In every run in which no start is called while another one waits for a cleanup that may still succeed, at most one process is alive. |
| `Sidecar.StartIsSafeIff` | apps/desktop/electron/sidecarLifecycle.ts:266-276 | With at most one process so far: for all outcomes of kill and spawn and in every continuation without a further start, a start leads to no second process if and only if no start waits or the one that waits, waits for a cleanup that has failed. |
| `Sidecar.FailsClosedIff` | apps/desktop/electron/sidecarLifecycle.ts:124-130 | Once the current generation's cleanup has failed, no continuation launches anything if and only if every start that waits, waits for a cleanup that has failed. |
| `Sidecar.OverlappingStartEscapesFailure` | apps/desktop/electron/sidecarLifecycle.ts:266-276 | With overlapping starts a run has a failed cleanup and a start that will launch all the same, although a comment says every replacement path fails closed. |
| `Sidecar.StepKeepsInv` | apps/desktop/electron/sidecarLifecycle.ts:93-264 | Every call, timer and process event, in any order, keeps that a resolved cleanup leaves no process and a pending one has a process to wait for. |
| `Sidecar.LaunchWaitsForExit` | apps/desktop/electron/sidecarLifecycle.ts:172-176 | After a stop that is waited for, a launch is refused exactly while that process has not exited. |
| `SidecarLifecycle.Lifecycle.StopCurrent` | apps/desktop/electron/sidecarLifecycle.ts:120-149 | Stopped at once means nothing is current; otherwise the current generation is kept and is ending. After a failed cleanup nothing changes, and no other generation is ever touched. |
| `SidecarLifecycle.Lifecycle.Start` | apps/desktop/electron/sidecarLifecycle.ts:266-276 | After a failed cleanup starting is refused and changes nothing; a new generation becomes current exactly if one is launched; a start that waits does so for a current generation whose cleanup is pending. |
| `SidecarLifecycle.Lifecycle.Launch` | apps/desktop/electron/sidecarLifecycle.ts:172-264 | Launching is refused exactly while the process of a generation that was to be waited for has not exited; otherwise a new generation becomes current, failed exactly if its spawn throws. |
| `SidecarLifecycle.Lifecycle.Fail` | apps/desktop/electron/sidecarLifecycle.ts:105-160 | Only a current generation that is not being stopped fails, once; no other one changes, and a throwing kill of a live process settles its cleanup. |
| `SidecarLifecycle.Lifecycle.OnExit` | apps/desktop/electron/sidecarLifecycle.ts:241-258 | An exit nobody asked for settles the cleanup with a failure and keeps the generation current; a requested one keeps the failure there was, if any, and releases the generation exactly if there was none. |
| `SidecarLifecycle.Lifecycle.StopAndWait` | apps/desktop/electron/sidecarLifecycle.ts:283-299 | A second call gets the first one's promise; the first one makes the current generation the one whose exit launches wait for. |
| `SidecarLifecycle.Lifecycle.HandleAll` | apps/desktop/electron/sidecarLifecycle.ts:120-299 | Once its cleanup has failed with no start waiting for another, an object handling any events keeps its generations and its current one. |
| `SidecarLifecycle.Serve` | apps/desktop/electron/sidecarLifecycle.ts:72-299 | A new object handling any events, with no start while another one waits for a cleanup that may still succeed, has at most one live process. |
| `WorkspaceRuntime.StepKeepsInv` | apps/desktop/electron/main.ts:1178-1301 | Every step of coordinator, lifecycle and restoration wired together keeps the invariant linking the coordinator's point in the code to the promise it awaits and the generation behind it; a failed generation has nothing restored. |
| `WorkspaceRuntime.OneProcess` | apps/desktop/electron/main.ts:1247-1301 | In every reachable state of the composition at most one spawned process has not exited. |
| `WorkspaceRuntime.ReadyMeansAlive` | apps/desktop/electron/workspaceSwitchCoordinator.ts:216-245 | Whenever a step publishes ready, no failure is latched and the current generation's process is alive, ready and not stopping. |
| `WorkspaceRuntime.NoSpawnAfterFailure` | apps/desktop/electron/sidecarLifecycle.ts:120-149 | Once any generation's cleanup has settled with a failure, no process is spawned in any continuation of the run. |
| `WorkspaceRuntime.PoisonedIsCurrent` | apps/desktop/electron/sidecarLifecycle.ts:124-130 | A cleanup failure exists exactly when the current generation has one: it is never replaced. |
| `WorkspaceRuntime.ReadyAfterFailureIff` | apps/desktop/electron/main.ts:1182-1200 | After a cleanup failure, some continuation publishes ready if and only if the runtime has already returned that opening, the coordinator has not published it yet and nothing is latched. |
| `WorkspaceRuntime.EscapingFailureIsAKillError` | apps/desktop/electron/sidecarLifecycle.ts:105-114 | The failure that escapes is always a kill error of a generation that had announced readiness. |
| `WorkspaceRuntime.ReadyAfterFailureHappens` | apps/desktop/electron/sidecarLifecycle.ts:151-160 | If saving the history took a turn of the event loop, a reachable state would have such an escaped failure. |
| `WorkspaceRuntime.NothingAfterFailure` | apps/desktop/electron/main.ts:836-863 | As wired, with the history saved synchronously: once any generation's cleanup has settled with a failure, no continuation spawns a process or publishes ready. |
| `ShellMemoryRuns.NoLostUpdate` | apps/desktop/electron/shellLayoutMemory.ts:362-421 | For any number of instances: a commit takes revision r to r + 1 with its own update applied to r's payload, r being the last record that got onto the disk, even by a failed write or as a newer record of a writer that ignores the lock, and every record after its base up to r was committed by the same instance. |
| `ShellMemoryRuns.BarrierFence` | apps/desktop/electron/shellLayoutMemory.ts:380-421 | After a barrier intent commits, no intent that its instance enqueued before that commit ever commits. |
| `ShellMemoryRuns.PublicationsIncrease` | apps/desktop/electron/shellLayoutMemory.ts:397-436 | Records that get onto the disk, by a success or found there after a failed write, strictly increase in epoch, then revision. |
| `ShellMemoryRuns.ResolvedAtMostOnce` | apps/desktop/electron/shellLayoutMemory.ts:362-436 | No intent is resolved twice in any run. |
| `ShellMemoryRuns.ResolvedOrPending` | apps/desktop/electron/shellLayoutMemory.ts:362-436 | Every enqueued intent is, at every moment, either resolved or pending, and not both. |
| `ShellMemoryRuns.LatestPerSubject` | apps/desktop/electron/shellLayoutMemory.ts:362-378 | Pending intents are in the order they were enqueued, and a non-barrier one is followed by none on its subject: at most one per subject is pending, and it is the latest. |
| `ShellMemoryRuns.QueueDrains` | apps/desktop/electron/shellLayoutMemory.ts:380-395 | As many ticks as there are pending intents empty the queue, whatever each commit's fate. |
| `ShellMemoryProgress.CommitsExactly` | apps/desktop/electron/shellLayoutMemory.ts:380-421 | In every run the head of a queue commits if and only if both validity checks, the lock and the write succeed, the record on disk is of its epoch and below the last revision, its update accepts that record, and every record since its base was committed by its own instance, none of them as a barrier. |
| `ShellMemoryProgress.BurstCommits` | apps/desktop/electron/shellLayoutMemory.ts:362-421 | In every run, an instance that has just read the record and is left alone commits any number of intents on different subjects in as many ticks, each in a revision of its own. |
| `ShellMemoryProgress.TickCommitsIff` | apps/desktop/electron/shellLayoutMemory.ts:397-421 | The same for one tick of an instance, on the facts its proof rests on. |
| `ShellMemoryProgress.ExpectedReaches` | apps/desktop/electron/shellLayoutMemory.ts:399-402 | The chain of own commits leads from a base to every revision that they reach without a gap. |
| `ShellMemory.CommitIsGood` | apps/desktop/electron/shellLayoutMemory.ts:397-421 | A commit that succeeds has found the expected revision reached through the instance's own commits alone. |
| `RevisionedShellMemory.Memory.Enqueue` | apps/desktop/electron/shellLayoutMemory.ts:362-378 | An intent is accepted unless no record can be read; with the subject, barrier and update asked for, based on the snapshot, it goes behind the pending intents that are barriers or on other subjects, and the others are resolved. |
| `RevisionedShellMemory.Memory.DropSuperseded` | apps/desktop/electron/shellLayoutMemory.ts:366-375 | The loop retains exactly the intents not superseded and resolves exactly the others, in order. |
| `RevisionedShellMemory.Memory.ExpectedRevision` | apps/desktop/electron/shellLayoutMemory.ts:397-408 | The loop over own commits reaches the revision that the chain from the base leads to. |
| `RevisionedShellMemory.Memory.Commit` | apps/desktop/electron/shellLayoutMemory.ts:397-421 | A commit succeeds exactly if the checks give a next record and its write succeeds; then that record, the update applied to the one on disk, is on disk, in the snapshot and in the log. A failed one keeps snapshot and proof and may leave the prior, nothing, damage, the attempted record or a newer foreign one. |
| `RevisionedShellMemory.Memory.Tick` | apps/desktop/electron/shellLayoutMemory.ts:380-395 | A scheduled tick resolves the head of the queue and returns whether it committed, which is decided as `ShellMemoryProgress.CommitsExactly` says. If it committed, the rest stays pending and scheduled, and a barrier or an empty queue clears the proof; if not, everything behind it is resolved as stale and a refresh is called for. |
| `RevisionedShellMemory.Memory.Rebuild` | apps/desktop/electron/shellLayoutMemory.ts:423-436 | A rebuild resolves everything pending as stale and founds a new epoch at revision 0 exactly if the lock is had and the write succeeds; a failed write may leave anything a failed commit may. |
| `RevisionedShellMemory.Memory.ReadRecord` | apps/desktop/electron/shellLayoutMemory.ts:343-360 | Reading founds a record at revision 0 where none is, adopts a stored one into the snapshot, and forgets the snapshot on a damaged one; only founding changes the file. |
| `RevisionedShellMemory.Serve` | apps/desktop/electron/shellLayoutMemory.ts:343-436 | Whatever events any number of new objects on one file handle, in the log of that file no update is lost, nothing enqueued before a barrier commit of its instance commits after it, and no intent is resolved twice. |
| `ShellRecordFile.RecordFile.ReadTarget` | apps/desktop/electron/shellLayoutMemory.ts:116-146 | Data, absence, non-regular, oversize and unreadable are told apart as the target is. |
| `ShellRecordFile.RecordFile.CapturePrior` | apps/desktop/electron/shellLayoutMemory.ts:189-240 | A prior is captured exactly if there is none, it can be read within the limit, or it can be retained as it is, and then it is what the target held. |
| `ShellRecordFile.RecordFile.Publish` | apps/desktop/electron/shellLayoutMemory.ts:163-187 | Publishing is verified exactly if nothing fails and the bytes are read back; the target changes exactly if the replacer is reached. |
| `ShellRecordFile.RecordFile.FailedWrite` | apps/desktop/electron/shellLayoutMemory.ts:242-313 | Reporting `write_failed` means the prior is back, or was still there, or another record is there; anything else is `restore_failed`, which does not happen if the target can be read and what puts the prior back does its work. A foreign record is left exactly as it is. |
| `ShellRecordFile.RecordFile.Write` | apps/desktop/electron/shellLayoutMemory.ts:315-341 | For any behaviour of the replacer that leaves existing inodes' bytes alone: success is reported exactly if the prior could be captured and staging, replacing and reading back go well with the attempted bytes in place; `write_failed` leaves the exact prior content, the prior absence, or a foreign record, and never the attempted record. A replacer that rewrites an inode in place is excluded: the prior is recognised by device, inode and size. |
| `KnowledgeRace.HighestNeverDrops` | apps/desktop/electron/knowledgeCache.ts:100-127 | Between any two moments of any run of any number of processes, commits failing, reads failing and processes crashing at any point, the highest durable sequence does not drop, provided no commit's own failing reads hide the highest record from it. |
| `KnowledgeRace.OneIdentityPerSequence` | apps/desktop/electron/knowledgeCache.ts:17-21 | Under the same proviso, records found in the slots at any two moments never share a sequence with different identities. |
| `KnowledgeRace.LoadNeverStepsBack` | apps/desktop/electron/knowledgeCache.ts:70-83 | An unlocked load racing any commits, any of its reads failing, never reports equivocation and returns at least what each slot it could read held when it began: the highest there was, if all its reads succeed. |
| `KnowledgeRace.RememberedNeverDrops` | apps/desktop/electron/knowledgeUpdates.ts:56-84 | Under the proviso on commits, a process's remembered sequence never drops between two moments without a crash of that process. |
| `KnowledgeRace.StepKeepsInv` | apps/desktop/electron/knowledgeCache.ts:100-127 | Every step keeps what the lock holder knows, what loads in flight have seen, and the history of durable identities consistent. |
| `KnowledgeRace.MissedReadLosesHighest` | apps/desktop/electron/knowledgeCache.ts:66-69 | One failed read of the active slot under the lock lets a lower record replace the highest. |
| `KnowledgeCache.SelectHighest` | apps/desktop/electron/knowledgeCache.ts:73-82 | The loop reports equivocation exactly when two records share a sequence and differ in identity, and otherwise selects the first of the highest. |
| `KnowledgeCache.Cache.Commit` | apps/desktop/electron/knowledgeCache.ts:100-127 | One commit leaves the slots and the result that its outcome function gives, for every combination of aborts, write errors and failed read-back. |
| `KnowledgeCache.CommitIsARun` | apps/desktop/electron/knowledgeCache.ts:100-127 | A commit is the race machine's own steps run without interruption. |
| `KnowledgeCache.CommitReturnsHighest` | apps/desktop/electron/knowledgeCache.ts:105-125 | A commit that sees the highest record never lowers the highest durable sequence, changes nothing when the candidate does not exceed it, and returns the highest, which is then durable. |
| `KnowledgeCache.CommitSavesFirst` | apps/desktop/electron/knowledgeCache.ts:105-120 | Whatever fails, only a record above the one loaded is written, only to the active slot, and only once the record it displaces, if there is one, is in the previous slot. |
| `KnowledgeCache.CommitReturnsIff` | apps/desktop/electron/knowledgeCache.ts:100-127 | Exactly when a commit returns a record, and which: the loaded one if it is higher or the same, and otherwise the candidate, written and read back. |
| `KnowledgeCache.CommitSucceeds` | apps/desktop/electron/knowledgeCache.ts:100-127 | With nothing failing, a candidate above every record ends in the active slot and is returned, and the record it displaces is in the previous slot. |
| `KnowledgeCache.CommitDropsIff` | apps/desktop/electron/knowledgeCache.ts:100-127 | Whichever of its reads fail, a commit whose writes take effect, reporting an error or not, lowers the highest sequence if and only if what it sees is below its candidate, the candidate is below the highest, and neither the starter nor a previous slot it leaves alone has the highest. |
| `KnowledgeCache.FirstWriteDropsIff` | apps/desktop/electron/knowledgeCache.ts:112-120 | One that stops between its writes, because the first took effect with an error or the second failed, has lowered it if and only if it saw some record below its candidate and the highest was in the previous slot alone and unseen. |
| `KnowledgeCache.Updates.RetainHighestVerified` | apps/desktop/electron/knowledgeUpdates.ts:56-66 | The memory becomes the higher of the revalidated memory and the durable record, and a clash of identities changes nothing and is reported. |
| `PeonSelection.PersistIsJustified` | apps/desktop/electron/peonSelectionTransaction.ts:208-239 | Whenever a selection was persisted, one generation, the highest requested, was verified for its provider and, for Ollama, its URL, applied, and then, by a request sent after that, re-read; both the applied and the re-read state name its provider, its model, its reasoning effort and its URL for Ollama or none otherwise; and no verification was requested since either acceptance. |
| `PeonSelection.TestsAreExact` | apps/desktop/electron/providerTypes.ts:61-70 | A reported state passes for a selection if and only if its provider, model (absent only for the empty one), reasoning effort and, for Ollama, URL are the selection's, with no URL otherwise; a verification covers a selection if and only if it is for its provider and, for Ollama, its URL. |
| `PeonSelection.PersistInOrder` | apps/desktop/electron/peonSelectionTransaction.ts:166-194 | Below 2 to the 53rd, the apply was sent under the very verification the save relies on: verified, then sent, then accepted, then read again, then persisted. |
| `PeonSelection.RequestsIncreaseIff` | apps/desktop/electron/peonSelectionTransaction.ts:113-118 | A later request has a higher generation if and only if the earlier one is below 2 to the 53rd. |
| `PeonSelection.RequestsCanCollide` | apps/desktop/electron/peonSelectionTransaction.ts:126-130 | A run has two requests with the same generation. |
| `PeonSelection.RetryExceedsRemote` | apps/desktop/electron/peonSelectionTransaction.ts:140-150 | A stale-generation error leads to one retry, above the generation reported, if and only if the call is not superseded and not itself the retry; otherwise the call ends. |
| `PeonSelection.PersistCanHappen` | apps/desktop/electron/peonSelectionTransaction.ts:132-239 | Every selection whose verified, applied and re-read states agree with it in these fields can be verified, applied, saved and persisted. |
| `PeonSelectionTransaction.Transaction.VerifyReply` | apps/desktop/electron/peonSelectionTransaction.ts:151-159 | A reply is accepted exactly if nothing was requested since and it carries the generation requested; otherwise nothing is recorded. |
| `PeonSelectionTransaction.Transaction.VerifyError` | apps/desktop/electron/peonSelectionTransaction.ts:142-150 | A call is retried, above the generation reported, exactly if it is not superseded, is not itself the retry and the error reports a safe generation; otherwise nothing but the call itself is forgotten. |
| `PeonSelectionTransaction.Transaction.ApplyReply` | apps/desktop/electron/peonSelectionTransaction.ts:185-192 | An apply is accepted exactly if the verification still covers the selection and the applied state reports its provider, model, effort and URL, and is recorded under the generation it was sent with. |
| `PeonSelectionTransaction.Transaction.Verify` | apps/desktop/electron/peonSelectionTransaction.ts:113-140 | A verification takes the next generation, up to 2 to the 53rd, and drops what was verified and applied before. |
| `PeonSelectionTransaction.Transaction.SaveReply` | apps/desktop/electron/peonSelectionTransaction.ts:213-237 | Persist is called exactly when everything checked before the re-read still holds and the re-read state reports the selection's provider, model, effort and URL, and the entry it makes is justified in the journal. |
| `PeonSelectionTransaction.Serve` | apps/desktop/electron/peonSelectionTransaction.ts:101-245 | Whatever events a new object handles, every selection in its own journal was persisted rightly and, below 2 to the 53rd, in order, and its requests increase exactly below that bound. |
| `UpdateService.QuitIsJustified` | apps/desktop/electron/updateService.ts:336-445 | Against any engine: whenever `quitAndInstall` ran, the candidate held was announced by the running check on the selected channel with fitting version and tag, downloaded with all six identity fields equal by a download started after that, and verified and confirmed in that install, with nothing started since the download did. |
| `UpdateService.StepKeepsInv` | apps/desktop/electron/updateService.ts:195-334 | Every event, settled promise and operation keeps candidate, download, active operation and install in step with the journal. |
| `UpdateService.QuitCanHappen` | apps/desktop/electron/updateService.ts:254-445 | Every fitting candidate can be announced, downloaded, verified, confirmed and installed. |
| `UpdateService.StatusLaw` | apps/desktop/electron/updateService.ts:195-445 | In every run available, downloading, downloaded and installing name exactly the candidate held, up to date means that none is; and a status is published only for its cause: available(c) by a fitting announcement of c to the running check, up to date by a check that found nothing, downloaded by the finished download of the candidate or a declined confirmation, installing by a confirmation, each error by the operation that failed. |
| `UpdateService.StepBrings` | apps/desktop/electron/updateService.ts:195-445 | The same for one step from any state that the invariant allows. |
| `UpdateService.InstallableIff` | apps/desktop/electron/updateService.ts:336-368 | An install may start exactly from a downloaded status or an install error that can be retried: the comparisons beside that never fail. |
| `UpdateServiceObject.Service.UpdateAvailable` | apps/desktop/electron/updateService.ts:197-213 | An announcement for any other operation or channel changes nothing; a wrong version or tag drops every candidate and ends in a check error without one; a fitting one becomes the candidate, drops what was downloaded and is published as available. |
| `UpdateServiceObject.Service.UpdateNotAvailable` | apps/desktop/electron/updateService.ts:215-222 | The running check alone is told that there is no update: the candidate is dropped and up to date published. |
| `UpdateServiceObject.Service.InstallVerified` | apps/desktop/electron/updateService.ts:382-400 | Only a verified download of the current install goes on, with an entry in the journal; one that is not verified ends in an install error with the candidate. |
| `UpdateServiceObject.Service.UpdateDownloaded` | apps/desktop/electron/updateService.ts:233-240 | A download is accepted exactly if it is for the running download, on the channel and equal to the candidate in all six identity fields; otherwise nothing changes. |
| `UpdateServiceObject.Service.RequestInstall` | apps/desktop/electron/updateService.ts:336-368 | An install starts exactly from a downloaded status or an install error whose candidate is the one held and downloaded, and what it installs then has the identity announced. |
| `UpdateServiceObject.Service.InstallAnswered` | apps/desktop/electron/updateService.ts:402-416 | The installing status is reached exactly by a confirmation while the install is current; a declined one returns to downloaded with the candidate held, a failed one to an install error with it, and one that is not current any more changes nothing. |
| `UpdateServiceObject.Service.Install` | apps/desktop/electron/updateService.ts:418-421 | The callback quits exactly while its operation is current, and the quit is justified in the journal. |
| `UpdateServiceObject.Service.CheckSettles` | apps/desktop/electron/updateService.ts:264-290 | A check that settles while active clears the candidate or reports an error; one that is not active any more changes neither. |
| `UpdateServiceObject.Service.InstallBegins` | apps/desktop/electron/updateService.ts:376-380 | The comparison of what was downloaded with what was announced never fails: an install always goes on to verification. |
| `UpdateServiceObject.Serve` | apps/desktop/electron/updateService.ts:150-445 | Whatever events a new object handles, every `quitAndInstall` in its own journal is justified, and its status names exactly what it holds. |
| `JsonParser.AcceptsExactlyTheGrammar` | apps/desktop/electron/strictJson.ts:11-148 | A text is accepted if and only if it derives from sections 2 to 7 of RFC 8259 restricted to canonical safe integers, depth 32, unique unescaped keys and no lone surrogate escapes; the tree found renders to the text. |
| `JsonParser.Unambiguous` | apps/desktop/electron/strictJson.ts:11-148 | No text has two derivations. |
| `JsonParser.TreeComplete` | apps/desktop/electron/strictJson.ts:18-70 | Every well-formed tree is found in front of any text that may follow a value. |
| `JsonParser.CharsSound` | apps/desktop/electron/strictJson.ts:72-112 | What is read as a string is well-formed and renders back to the text read. |
| `JsonSpelling.HexUnitIff` | apps/desktop/electron/strictJson.ts:106-112 | Four characters are accepted as an escape of a unit if and only if they are its four digits in base 16, each by its place in `0123456789abcdef` or in `0123456789ABCDEF`. |
| `JsonSpelling.SurrogatesPairUp` | apps/desktop/electron/strictJson.ts:94-101 | Inside a string a surrogate escape is accepted if and only if it is a high one directly followed by the escape of a low one and an acceptable rest. |
| `JsonSpelling.SurrogateTexts` | apps/desktop/electron/strictJson.ts:94-101 | A text that is a string with a surrogate escape anywhere in it derives only if that is a high one directly followed by a low one. |
| `JsonSpelling.ShortsAbbreviate` | apps/desktop/electron/strictJson.ts:86-92 | The short escapes are exactly those of the eight listed letters, and each stands for what its long spelling stands for. |
| `JsonSpelling.NumeralIff` | apps/desktop/electron/strictJson.ts:114-124 | The numerals are exactly the decimal spellings of the safe integers. |
| `JsonSpelling.NestingLimit` | apps/desktop/electron/strictJson.ts:142-144 | A zero inside n brackets derives if and only if n is at most 32. |
| `JsonSpelling.SpacesAndPunctuation` | apps/desktop/electron/strictJson.ts:126-140 | White space, digits, plain string characters and punctuation are the characters they are written as. |
| `JsonSpelling.WordsDenote` | apps/desktop/electron/strictJson.ts:18-35 | `true`, `false` and `null` are accepted as they are written and denote what they say. |
| `JsonValue.RoundTrip` | apps/desktop/electron/strictJson.ts:162-164 | Any value in range, printed compactly, is accepted and reads back equal. |
| `JsonValue.ReadsExactlyTheValuesInRange` | apps/desktop/electron/strictJson.ts:162-164 | The values of accepted texts are exactly the values in range. |
| `StrictJson.JsonScanner.Scan` | apps/desktop/electron/strictJson.ts:11-16 | The scanner object succeeds if and only if the text derives from the grammar. |
| `StrictJson.JsonScanner.Value` | apps/desktop/electron/strictJson.ts:18-35 | A value is scanned exactly when the parser finds one, up to the same place, inside the same depth. |
| `StrictJson.JsonScanner.Object` | apps/desktop/electron/strictJson.ts:37-57 | The loop over fields with its growing key set ends where the parser ends and fails where it fails. |
| `StrictJson.JsonScanner.Array` | apps/desktop/electron/strictJson.ts:59-70 | The loop over items ends where the parser ends and fails where it fails. |
| `StrictJson.JsonScanner.String` | apps/desktop/electron/strictJson.ts:72-104 | A string is scanned to its closing quote and returned unescaped. |
| `StrictJson.JsonScanner.Escape` | apps/desktop/electron/strictJson.ts:86-101 | Escapes, surrogate pairs and lone surrogates are told apart as the grammar does. |
| `StrictJson.JsonScanner.ReadHexCodeUnit` | apps/desktop/electron/strictJson.ts:106-112 | Four hexadecimal digits give their code unit, the one `JsonSpelling.HexUnitIff` spells out; fewer fail. |
| `StrictJson.JsonScanner.Number` | apps/desktop/electron/strictJson.ts:114-124 | Only canonical safe integers followed by what may follow a number are scanned. |
| `StoreQuota.ProjectIgnoresLinks` | docs/validation/generate-root-preparation-effects.py:43-51 | Writing commit links into a row leaves its projection, and so its digest, unchanged. |
| `StoreQuota.LinksAreWhatIsDeleted` | docs/validation/generate-root-preparation-effects.py:204-212 | Two rows become equal when the same link is written into both if and only if their projections are equal: what is written is exactly what the projection deletes. |
| `StoreQuota.WorkspaceBytesAreTheSumOverRuns` | docs/validation/generate-root-preparation-effects.py:148-153 | The workspace's preparation bytes equal the sum over the runs that own rows. |
| `StoreQuota.SameDataSameQuotas` | docs/validation/generate-root-preparation-effects.py:141-165 | The desired quotas depend on the projections of the data rows alone. |
| `StoreQuota.PreparationRowCounts` | docs/validation/generate-root-preparation-effects.py:147-153 | A new draft, preparation, run state, attachment or artifact adds its weight to the bytes of the workspace and of the run that owns it, an artifact's being the one in its key; any other row adds nothing. |
| `StoreQuota.RunCounts` | docs/validation/generate-root-preparation-effects.py:154-155 | A new draft or preparation adds one to the count of runs unless another of them names the same run; any other row adds nothing. |
| `StoreQuota.SummaryCounts` | docs/validation/generate-root-preparation-effects.py:161-164 | A new summary adds one and its row's size if it has a row, and its checkpoint's material to the lineage; any other row adds nothing. |
| `StoreQuota.NothingElseCounts` | docs/validation/generate-root-preparation-effects.py:145-164 | Nothing is used in an empty store, nor ever of the report and pending resources, nor by an assignment. |
| `StoreQuota.QuotaRowsIff` | docs/validation/generate-root-preparation-effects.py:145-160 | There is a quota row exactly for every resource of the workspace, for the bytes of every run that owns a row, and for the reports of every preparation's assignment and run. |
| `StoreCommit.ManifestMatchesStore` | docs/validation/generate-root-preparation-effects.py:193-216 | The manifest lists exactly the rows whose presence or projection changed, with the digests of the rows as they were and as they are stored, links included. |
| `StoreCommit.CommitStores` | docs/validation/generate-root-preparation-effects.py:176-183 | A commit leaves for a data row what was supplied last for it, a deletion included, and what was there if nothing was. |
| `StoreCommit.ChangedRowsCarryTheLink` | docs/validation/generate-root-preparation-effects.py:199-212 | Every stored row that differs from the one before carries the link of this commit in all its places, and the manifest names the commit's kind. |
| `StoreCommit.CommitFailsIff` | docs/validation/generate-root-preparation-effects.py:179-183 | A commit fails if and only if it comes to delete a row that is not there at that point. |
| `StoreCommit.UnlistedUnchangedIff` | docs/validation/generate-root-preparation-effects.py:176-216 | Rows outside the manifest are unchanged if and only if no supplied row repeats a stored one with other links. |
| `StoreCommit.LinkCanBeLost` | docs/validation/generate-root-preparation-effects.py:179-193 | Supplying a stored row without its link loses the link, and the manifest does not show it. |
| `StoreCommit.ControlUntouched` | docs/validation/generate-root-preparation-effects.py:213-219 | Header and proofs are never among the changed rows, so no row is listed twice. |
| `StoreCommit.CommitSettlesQuotas` | docs/validation/generate-root-preparation-effects.py:184-190 | After every commit the quota rows are exactly those recomputed from the stored rows. |
| `StoreCommit.ExtendsKeepsChain` | docs/validation/generate-root-preparation-effects.py:191-203 | The new proof links to the previous latest one, steps the sequence by one, and carries its own digest. |
| `StoreCommit.EveryChainIsInOrder` | docs/validation/generate-root-preparation-effects.py:176-224 | After any chain of commits on an empty store, proofs form a chain with steps of one, replaying the manifests gives every row's digest, quotas equal usage and workspace bytes the sum over runs. |
| `StoreWriter.ComputeQuotas` | docs/validation/generate-root-preparation-effects.py:141-165 | The loops over rows compute exactly the desired quotas. |
| `StoreWriter.RunCommit` | docs/validation/generate-root-preparation-effects.py:176-216 | The loops over supplied rows, quotas and links end with exactly the committed rows, or fail on deleting a missing row. |
| `WorkspaceHistory.BoundedPaths` | apps/desktop/electron/workspaceMemory.ts:123-146 | The loop returns the longest prefix of at most 20 paths that fits and keeps the first one, or nothing if there is none. |
| `WorkspaceHistory.FitsUpToTheLongest` | apps/desktop/electron/workspaceMemory.ts:142-145 | A non-empty prefix fits if and only if it is no longer than the one kept. |
| `WorkspaceHistory.UpdatesKeepValid` | apps/desktop/electron/workspaceMemory.ts:443-498 | Remember, forget, pin and unpin write a valid history of the next revision within 64 KiB, or keep the current one, silently only when nothing is to change. |
| `WorkspaceHistory.RememberContents` | apps/desktop/electron/workspaceMemory.ts:525-566 | Remembering puts the path first and keeps the longest prefix of the old order, of at most 20 paths, that fits; a pinned path only becomes the last one. |
| `WorkspaceHistory.ForgetAndPinContents` | apps/desktop/electron/workspaceMemory.ts:568-611 | Forgetting removes and pinning moves one path and leaves every other where it is. |
| `WorkspaceHistoryLaws.ForgetAndPinOrder` | apps/desktop/electron/workspaceMemory.ts:568-611 | Forgetting takes the path out of both lists and out of the last path; pinning takes it out of the recent list and puts it before the pins; all other paths stay in order. |
| `WorkspaceHistoryLaws.UnpinContents` | apps/desktop/electron/workspaceMemory.ts:613-640 | Unpinning takes the path out of the pins; the recent list becomes the longest prefix that fits, of at most 20 paths, of the last path if it is an unpinned one, the unpinned path, and the other recent paths in order. |
| `WorkspaceHistoryLaws.UpdateIff` | apps/desktop/electron/workspaceMemory.ts:525-640 | Exactly when remembering, forgetting, pinning and unpinning change nothing, and when pinning meets the limit of 50. |
| `WorkspaceHistoryLaws.RememberTooLargeIff` | apps/desktop/electron/workspaceMemory.ts:548-554 | Remembering an unpinned path finds no room if and only if the path alone does not fit beside the pins. |
| `WorkspaceHistoryLaws.UnpinTooLargeIff` | apps/desktop/electron/workspaceMemory.ts:613-632 | Unpinning finds no room if and only if the last path, if it is not pinned, and otherwise the unpinned one, does not fit alone. |
| `WorkspaceHistoryLaws.DecisionIff` | apps/desktop/electron/workspaceMemory.ts:443-498 | Exactly when an update is written, and what is reported when it is not. |
| `WorkspaceHistoryLaws.SizeIsTheTextLength` | apps/desktop/electron/workspaceMemory.ts:110-116 | The sizes held against the limit, of the current format and of version 1, are the lengths of the indented texts as written. |
| `WorkspaceHistory.ForgetFits` | apps/desktop/electron/workspaceMemory.ts:568-588 | Forgetting never fails for want of space. |
| `WorkspaceHistory.UnpinKeepsThePathIff` | apps/desktop/electron/workspaceMemory.ts:613-640 | From a history that fits, a successful unpin loses the path if and only if the history is full to the byte, its one recent path is the last one, there are other pins and the next revision has one digit more. |
| `WorkspaceHistory.UnpinKeepsWhatFits` | apps/desktop/electron/workspaceMemory.ts:613-640 | For any history: the path is kept unless another unpinned last path comes first and the two do not fit together. |
| `WorkspaceHistory.UnpinCanDropThePath` | apps/desktop/electron/workspaceMemory.ts:613-640 | From one such full history the unpin is written and the path is in neither list. |
| `WorkspaceHistory.EveryFormatReadsValid` | apps/desktop/electron/workspaceMemory.ts:193-327 | All stored formats read as histories with the same list invariants; the result fits 64 KiB except, exactly, for an accepted version 1 record whose own size is within less than 30 bytes of the limit. |
| `WorkspaceHistoryLaws.LegacyKeepsTheLastPath` | apps/desktop/electron/workspaceMemory.ts:158-218 | A legacy file of at most ten paths and 2 MiB reads as its last path, in canonical form, as the only recent one, or as corrupt if that does not fit. |
| `WorkspaceHistoryLaws.VersionedReads` | apps/desktop/electron/workspaceMemory.ts:222-327 | A current file reads as itself and a version 1 file as itself without pins, or as corrupt if it breaks an invariant or a limit. |
| `WorkspaceHistory.V1CanOutgrow` | apps/desktop/electron/workspaceMemory.ts:314-321 | A version 1 file within 64 KiB migrates to a record beyond it. |
| `WorkspaceHistory.HistoryFile.UpdateMemory` | apps/desktop/electron/workspaceMemory.ts:388-498 | Only a decided write touches the file, and then it is as the replacement leaves it, whatever that is; an answer without a diagnostic is what the file says. Which answer is given is fixed case by case: no directory, no lock, a corrupt file, nothing to write, a write that is confirmed, one that is not. |
| `HarnessIntegration.GroupHarnesses` | apps/desktop/electron/activeHarnessIntegration.ts:187-198 | One group for each key in use, holding exactly its non-retired users in order. |
| `HarnessIntegration.PlanIff` | apps/desktop/electron/activeHarnessIntegration.ts:258-293 | Exactly when install, repair and uninstall are planned; a repair for a drifted or erroneous registration, or an installed one with a diagnostic other than the three harmless ones. |
| `HarnessIntegration.OutcomeIff` | apps/desktop/electron/activeHarnessIntegration.ts:200-223 | Exactly when a group that is not stale is told unsupported, failed or succeeded, from the status read, the answer to the confirmation and what the mutation returned. |
| `HarnessIntegration.MutationsAreAllowed` | apps/desktop/electron/activeHarnessIntegration.ts:552-727 | An uninstall is issued only if no active non-retired harness maps to the key, OrkWorks owns it and that plan was confirmed; no mutation follows an observed stale guard or repeats a key. |
| `HarnessIntegration.Save` | apps/desktop/electron/activeHarnessIntegration.ts:552-727 | Every save's log is justified call by call; one that persists and lists the tools has exactly one result per group, the one its status, confirmation and mutation call for, and every confirmed mutation was issued; a stale one marks every result stale. It is stale exactly if a guard was seen to change, the selection's revision had, or a mutation was refused because the integrations had, and failed exactly if the selection could not be stored otherwise. |
| `ProviderSettings.OutputIsComplete` | apps/desktop/electron/settingsMemory.ts:288-340 | The output lists exactly the valid definition ids, once each, with fallback orders 0 to n - 1, for any document. |
| `ProviderSettings.OutputIsSourced` | apps/desktop/electron/settingsMemory.ts:299-327 | Every output entry is, field by field, what the last document entry for its id or, with none, its default calls for; the output is in the order of fallback orders, then ids. |
| `ProviderSettings.UnnamedComeLast` | apps/desktop/electron/settingsMemory.ts:307-323 | A definition with neither a document entry nor a default comes behind every entry of the document. |
| `ProviderSettings.DocumentSelects` | apps/desktop/electron/settingsMemory.ts:342-359 | Exactly which selection a document makes: its own if it stands, and before version 2 the only provider that names a model. |
| `ProviderSettings.SelectionIff` | apps/desktop/electron/settingsMemory.ts:361-382 | Exactly when a selection stands, and as what. |
| `ProviderSettings.DocumentSays` | apps/desktop/electron/settingsMemory.ts:329-420 | Revision, model and URL are those the document says, and the defaults where it says none. |
| `ProviderSettings.SortSorts` | apps/desktop/electron/settingsMemory.ts:325-327 | The sort is a permutation ordered by fallback order, then id. |
| `ProviderSettings.NormalizeIdempotent` | apps/desktop/electron/settingsMemory.ts:288-446 | Normalising the stored form of any normalised document, legacy ones included, gives it back. |
| `ProviderSettings.RunNormalizeProviders` | apps/desktop/electron/settingsMemory.ts:299-327 | The loops that collect entries and fill in missing definitions compute the normalised providers. |
| `GitDiff.ParseGitPatch` | apps/desktop/src/gitDiff.ts:9-33 | Every numbered row's old (new) number is its hunk's start plus the count of earlier context and deletion (addition) rows of that hunk; rows outside hunks have none. |
| `GitDiff.HeaderReads` | apps/desktop/src/gitDiff.ts:17-19 | Every hunk header, with or without lengths and whatever follows it, is read as its two start numbers. |
| `GitDiff.HeaderShape` | apps/desktop/src/gitDiff.ts:17-19 | Only hunk headers are read as hunks. |
| `GitDiff.KindsByFirst` | apps/desktop/src/gitDiff.ts:22-25 | A line's kind is told by its first character, except that outside hunks file names are no changes. |
| `GitDiff.DecimalReads` | apps/desktop/src/gitDiff.ts:19 | The digits of a number are read as that number. |
| `GitDiff.SplitDiffRows` | apps/desktop/src/gitDiff.ts:37-63 | The left (right) column is exactly the context and deletion (addition) lines, and every other line has a row of its own unless it is a missing-newline line about another one, all in their original order; each side of a row carries the last such line about its line: the last addition of its stretch of changes, else the last deletion, else the context line before. |
| `RelativeTime.DelayIsExact` | apps/desktop/src/labels.ts:170-208 | The label is the same at every instant before now plus the delay and differs exactly there; the clamp to 1 ms never takes effect. |
| `RelativeTime.LabelSays` | apps/desktop/src/labels.ts:170-182 | A label is shown if and only if it is true to half of its unit: the seconds are within half a second of the elapsed time, and the number of minutes, hours or days within half of one. |
| `RelativeTime.NextSecondIsNext` | apps/desktop/src/labels.ts:194-205 | The next display second is the first later one with another label. |

## Left out

- The lifecycle's `dispose` and `retry`, its state callbacks and readiness output parsing: `dispose` only refuses launches, `retry` is a start with the last directory, and timers are events that may fire at any time.
- What the restoring steps do, and their timeout and abort signal: they end with a workspace, with none or with an error, at any time.
- Listeners called while a status or state is published: a re-entrant call is the same as one made right after the step that publishes.
- Real files, locks, fsync and the platform's replace operations: a store with atomic content, a lock with mutual exclusion, and a replacer that may fail before or after taking effect or leave something else.
- `ShellMemoryRuns.NoLostUpdate`: records that a writer ignoring the lock puts back into an epoch at a revision no higher than the last one on disk, because no writer of this file does; newer ones and those of other epochs are modelled. Validity callbacks and refused updates are one case.
- `ShellRecordFile.RecordFile.Write`: a replacer that rewrites an existing inode in place, because the source recognises the prior by device, inode and size alone.
- Signature verification, digests, URL parsing, trimming, canonical paths and UTF-8 sizes are functions of their input; idempotence of trimming and of URL origins is assumed where `ProviderSettings.NormalizeIdempotent` says so.
- The knowledge updater's feed download, its interval and its advisory status file; the starter record is the same for all processes.
- `StoreCommit.Commit`: the cap on a command's bytes and the order of changes inside a manifest, because neither bears on what is stored; callers supply no header and no proof rows, as all of them do.
- UTF-8 decoding, the byte order mark and the byte limit in front of the JSON scanner; the wording and offsets of its errors.
- `channelForVersion` is any function from versions to channels; the texts of statuses and errors are not modelled.
- `HarnessIntegration.Save`: a confirmation that throws is not modelled, because it ends the save without a result; `reconcileGroupedIntegration` is the same pipeline for one key.
- `GitDiff.ParseGitPatch`: starts from the patch's lines and treats line numbers as unbounded integers.
- `RelativeTime.DelayIsExact`: integer milliseconds without the rounding of doubles, which matters only for dates many thousands of years apart; missing and malformed timestamps have no label and no delay.
- Skills, sessions, planning, toasts, hotkeys, layout and the renderer: plumbing or facts a single body shows.

# A model of the plugin runtime and of seven algorithms

The plugin runtime runs each plugin's life across promises. `PluginRegistry` keeps a record for every
plugin, with an epoch-stamped transition, a current generation and one pending cleanup; it runs one queue of
tasks for each plugin and one queue of saves for all of them. It drives two hosts: the renderer, through a
table of requests and acknowledgements, and a service process with a readiness lease, a grant broker and a
ledger of reads. Under it lies the protocol that writes the plugins' state to disk.

The promise-driven code is modelled twice over. The objects are classes whose methods change fields as the
source does, each proved to do what a step function says. The step functions make up a system whose steps,
the code between two awaits, come in any order; host replies, aborts, timeouts, exits and failures are
inputs of its steps. What is proved of the system holds at every moment of every run, or exactly in the runs that
a condition on their steps picks out.

The algorithms are the word diff of the unsaved changes, SHA-256 as published in FIPS 180-4, wiki links, the
outline's heading tree, the code viewer's lines, the heartbeats' token bucket and quick open's folder counts.

| file | what it models |
|---|---|
| `PluginRuntime.dfy`, `PluginChanges.dfy`, `PluginRegistry.dfy`, `PluginOutcomes.dfy`, `PluginRecord.dfy` | the registry: one record's steps, the readers' changes, all plugins with the queue of saves, what lifecycles tell and tasks come to, and the record as an object |
| `ServiceHost.dfy`, `ServiceHostRuns.dfy`, `ServiceHostObject.dfy`, `CapabilityBroker.dfy`, `ServiceRequestLedger.dfy` | the service host, what its runs come to, the host as an object, its broker and its ledger |
| `RendererRequests.dfy`, `RendererLeaseBridge.dfy` | the renderer's requests as a table and its runs, and the bridge as an object |
| `LocalPluginStateStore.dfy` | the durable write protocol |
| `UnsavedDiff.dfy` | the word diff |
| `Fips180.dfy`, `Utf8.dfy`, `JsNumbers.dfy`, `PortableSha256.dfy` | the standard, UTF-8 with its decoder, JavaScript's 32-bit arithmetic, and the hash |
| `WikiTarget.dfy`, `CandidateOrder.dfy` | wiki links, and the order of the notes one could mean |
| `Outline.dfy`, `CodeViewerHighlight.dfy`, `HeartbeatRateLimiter.dfy`, `QuickOpenFolders.dfy` | the other algorithms |
| `Text.dfy`, `Numerals.dfy`, `Options.dfy` | what they share |

`dafny verify dfyconfig.toml` checks the project.

## What turned out otherwise

- `active` does not always mean a live generation (`src/main/plugins/plugin-registry.ts:278-279`). A disable,
  replacement or shutdown waits in the queue with the lifecycle it set when it was called. If a disposal that
  was queued before it finishes under its own later epoch (`:413-422`), the phase is stable again, and an event
  can activate the plugin before the waiting task starts and takes the new generation away without touching the
  lifecycle. `PluginRegistry.ActiveWithoutGeneration` is such a run, `PluginRegistry.ActiveExactly` says exactly
  which runs are free of it, and `PluginRegistry.UsedIsLive` holds in all runs: commands and service operations
  ask for a generation as well, and so never reach a dead one.
- A stop of the service host from outside (`src/main/main.ts:1084`) can leave a ready host without the registry
  generation that its grants name. Two continuations of one process exit and the calls between them have to come
  in a certain order: an activation that starts over without the permission probe (`src/main/plugins/service-host.ts:334-339`)
  finds the host stopped, starts under the registry generation of another activation that was still resolving its path,
  and that other one, failing, forgets the generation (`:126-129`). `ServiceHosts.HastyStopUncovers` is such a run, in a
  model that lets continuations run in any order. `ServiceHosts.CoveredExactly` says exactly which runs are free of it;
  without a stop while such a restart is due, and so with activations and deactivations alone, all are
  (`ServiceHosts.NothingUnlessReady`, `ServiceHosts.StopExactly`).
- A path that cannot be resolved, or a fork that throws, leaves the service host in `starting`
  (`src/main/plugins/service-host.ts:147-160`): until somebody stops it, every later activation is refused
  (`ServiceHostRuns.RejectedPathSticks`). The cleanup that the registry makes after a failed activation stops it.
- SHA-256 is right below 2^31 bytes, not below 2^32 (`src/shared/sha256.ts:98-104`): `block << 6` and
  `whole << 6` turn negative there. `PortableSha256.ExactBelow2To31` is the exact condition.

## Model

| member | source | states |
|---|---|---|
| `PluginRegistry.ActiveExactly` | src/main/plugins/plugin-registry.ts:540-622 | over a whole run of any interleaving, `active` always means a current, unaborted generation, nothing pending cleanup, a stable transition and a desired plugin, if and only if no queued disable, replacement or shutdown starts its cleanup on an active plugin |
| `PluginRegistry.ActiveWithoutGeneration` | src/main/plugins/plugin-registry.ts:403-442 | a run with durable saves only that ends `active` without a generation: a disposal, a setting and a disable called together |
| `PluginRegistry.UsedIsLive` | src/main/plugins/plugin-registry.ts:624-631 | without condition: active and with a generation, as the two users of a generation ask, implies unaborted, wanted, stable and nothing pending cleanup |
| `PluginRegistry.NoneLost` | src/main/plugins/plugin-registry.ts:606-676 | at every moment of every run each number ever issued is current, pending cleanup, released by a successful cleanup, or lost with its process; current and pending never both |
| `PluginRegistry.FencedForGood` | src/main/plugins/plugin-registry.ts:706-744 | a generation once aborted is never again that of an active plugin; one released or lost is never again current or pending |
| `PluginRegistry.RunInvariant` | src/main/plugins/plugin-registry.ts:756-871 | every state of every run: memory and persisted state agree, only the first save is at work, and every record is valid |
| `PluginRegistry.NextInvariant` | src/main/plugins/plugin-registry.ts:767-871 | no event breaks that invariant |
| `PluginRegistry.ChangesInOrder` | src/main/plugins/plugin-registry.ts:756-790 | with durable saves, what a plugin will hold once its queue is done is at every moment its first state with all changes asked for so far, in call order |
| `PluginRegistry.NoChangeLost` | src/main/plugins/plugin-registry.ts:756-790 | with durable saves and an empty queue, memory and disk both hold exactly those changes |
| `PluginRegistry.PartEnabled` | src/main/plugins/plugin-registry.ts:781-786 | each plugin can take the step that a save, a failed save or the end of a reconciliation asks of it |
| `PluginRuntimes.StepActive` | src/main/plugins/plugin-registry.ts:232-485 | a step breaks what `active` means exactly when it starts a queued cleanup on an active record |
| `PluginRuntimes.StepBookkept` | src/main/plugins/plugin-registry.ts:540-676 | no step loses a generation, holds two, or leaves a waiter without what it waits for |
| `PluginRuntimes.StepLater` | src/main/plugins/plugin-registry.ts:646-676 | no step takes back a number, an abortion, a release or a loss |
| `PluginRuntimes.StartCleaningActive` | src/main/plugins/plugin-registry.ts:646-656 | a cleanup takes the generation away and leaves the lifecycle |
| `PluginChanges.StepOutlook` | src/main/plugins/plugin-registry.ts:756-765 | a call adds its own change behind all others; no other step but a save changes what is in store for the plugin |
| `PluginChanges.OwnSaveOutlook` | src/main/plugins/plugin-registry.ts:767-786 | taking over a save that holds the first task's change settles what was owed for it |
| `PluginChanges.HeadTaken` | src/main/plugins/plugin-registry.ts:768-770 | applying the first change and then the rest is applying them all |
| `PluginOutcomes.IdleAlways` | src/main/plugins/plugin-registry.ts:253-310 | at every moment of every run, a stable record that is `enabled-idle` is desired, one that is `disabled` is not, and a disabled one owns nothing |
| `PluginOutcomes.NoneLeftBehind` | src/main/plugins/plugin-registry.ts:706-726 | at every moment of every run, a record with an empty queue and no reconciliation cleaning up for it is stable |
| `PluginOutcomes.StepMeaning` | src/main/plugins/plugin-registry.ts:232-857 | every step keeps what these two rest on |
| `PluginOutcomes.EnableEnds` | src/main/plugins/plugin-registry.ts:238-269 | an enable whose save went well under its own epoch ends `enabled-idle` if nothing is owned, `failed` if a cleanup is pending or the plugin is not desired after all; a failed save is always told |
| `PluginOutcomes.DisableEnds` | src/main/plugins/plugin-registry.ts:279-315 | a disable under its own epoch ends `disabled` exactly if its save and its cleanup went well and the plugin is not desired, and then owns nothing; else `failed` |
| `PluginOutcomes.ShutdownEnds` | src/main/plugins/plugin-registry.ts:459-480 | a shutdown ends `failed` exactly if its cleanup failed, and else in what is desired |
| `PluginOutcomes.ReplacementEnds` | src/main/plugins/plugin-registry.ts:384-399 | a replacement fails with its cleanup, leaves an undesired plugin `disabled`, or opens the next generation |
| `PluginOutcomes.DisposalEnds` | src/main/plugins/plugin-registry.ts:421-442 | a disposal of the owned lease ends `failed` |
| `PluginOutcomes.DisposalStarts` | src/main/plugins/plugin-registry.ts:407-421 | a disposal is stale exactly if the record does not own that generation under that lease |
| `PluginOutcomes.LifecycleBy` | src/main/plugins/plugin-registry.ts:232-991 | every lifecycle that a step brings about is brought about by a step that means it |
| `PluginOutcomes.LifecycleOf` | src/main/plugins/plugin-registry.ts:540-991 | what each step but those of the queue does to the lifecycle |
| `PluginOutcomes.CallBegins` | src/main/plugins/plugin-registry.ts:232-460 | which calls begin a transition of their own, and which abort the generation |
| `PluginOutcomes.TriggeredOpens` | src/main/plugins/plugin-registry.ts:540-581 | a trigger opens the next generation exactly if the plugin is wanted, stable and owns nothing |
| `PluginOutcomes.SharesBy` | src/main/plugins/plugin-registry.ts:799-856 | a save makes a plugin tell a live lease of changed settings, or clean up what it owns, exactly when it should |
| `PluginOutcomes.SettlingFailsBy` | src/main/plugins/plugin-registry.ts:860-872 | a reconciliation has failed exactly if a cleanup or a setting in it has |
| `PluginOutcomes.SaveEnds` | src/main/plugins/plugin-registry.ts:767-790 | the task that asked for a save learns that it went well exactly if the store kept it and the reconciliation did not fail |
| `PluginOutcomes.EnableFromRest` | src/main/plugins/plugin-registry.ts:232-269 | an enable by itself, from its call to its end |
| `PluginOutcomes.DisableRunning` | src/main/plugins/plugin-registry.ts:272-315 | a disable of a running plugin, with its generation released or its failed cleanup left pending |
| `PluginOutcomes.ShutdownRunning` | src/main/plugins/plugin-registry.ts:450-480 | a shutdown of a running plugin |
| `PluginOutcomes.ReplaceRunning` | src/main/plugins/plugin-registry.ts:376-400 | a replacement of a running generation, to the next one active and the first released |
| `PluginOutcomes.DisposeRunning` | src/main/plugins/plugin-registry.ts:403-442 | a disposal of a running plugin's lease |
| `PluginRecords.PluginRuntime.BeginTransition` | src/main/plugins/plugin-registry.ts:706-716 | the record's fields after it: a new epoch, phase and intent, the generation aborted if fenced |
| `PluginRecords.PluginRuntime.FinishTransition` | src/main/plugins/plugin-registry.ts:718-726 | stable only if the epoch is still current |
| `PluginRecords.PluginRuntime.CleanupOwned` | src/main/plugins/plugin-registry.ts:646-656 | the generation given up and a cleanup of what is pending started or joined |
| `PluginRecords.PluginRuntime.AttemptCleanup` | src/main/plugins/plugin-registry.ts:658-666 | one running cleanup per generation, which is aborted |
| `PluginRecords.PluginRuntime.AttemptEnded` | src/main/plugins/plugin-registry.ts:667-675 | a cleanup without failure releases the generation if it is still the pending one |
| `PluginRecords.PluginRuntime.Activate` | src/main/plugins/plugin-registry.ts:540-581 | a new generation, if activation is intended and none is current |
| `PluginRecords.PluginRuntime.WorkDone` | src/main/plugins/plugin-registry.ts:600-613 | active only if the generation can publish; otherwise cleaned up only if still wanted |
| `PluginRecords.PluginRuntime.FailureCleaned` | src/main/plugins/plugin-registry.ts:613-620 | failed after the cleanup of a failed activation |
| `PluginRecords.PluginRuntime.ServiceExited` | src/main/plugins/plugin-registry.ts:959-991 | crashed, if the process of the current generation's own service generation exited |
| `PluginRecords.PluginRuntime.ServiceAnswered` | src/main/plugins/plugin-registry.ts:596-598 | the service generation is kept whenever the host answers |
| `PluginRecords.PluginRuntime.CallEnable` | src/main/plugins/plugin-registry.ts:232-238 | the call's own transition and its place in the queue |
| `PluginRecords.PluginRuntime.CallDisable` | src/main/plugins/plugin-registry.ts:272-278 | the same for a disable, which fences |
| `PluginRecords.PluginRuntime.CallReplace` | src/main/plugins/plugin-registry.ts:376-383 | the same for a replacement, if activation is intended |
| `PluginRecords.PluginRuntime.CallShutdown` | src/main/plugins/plugin-registry.ts:450-460 | the same for a shutdown |
| `PluginRecords.PluginRuntime.Start` | src/main/plugins/plugin-registry.ts:238-445 | each task up to its first await |
| `PluginRecords.PluginRuntime.StartDispose` | src/main/plugins/plugin-registry.ts:405-421 | a disposal of the owned lease begins a transition of its own when it runs; any other is stale |
| `PluginRecords.PluginRuntime.AfterCleanup` | src/main/plugins/plugin-registry.ts:281-442 | each task from the end of its cleanup |
| `PluginRecords.PluginRuntime.AfterPersist` | src/main/plugins/plugin-registry.ts:245-314 | enable and disable from the end of their save |
| `PluginRecords.PluginRuntime.ReplaceOver` | src/main/plugins/plugin-registry.ts:393-399 | the next generation after a replaced one |
| `PluginRecords.PluginRuntime.EndEnable` | src/main/plugins/plugin-registry.ts:253-268 | the fields an enable leaves, as the step of which `PluginOutcomes.EnableEnds` says what it means |
| `PluginRecords.PluginRuntime.EndDisable` | src/main/plugins/plugin-registry.ts:296-310 | what a disable leaves |
| `PluginRecords.PluginRuntime.AdoptPersisted` | src/main/plugins/plugin-registry.ts:903-907 | memory takes over what is persisted |
| `PluginRecords.PluginRuntime.Reconcile` | src/main/plugins/plugin-registry.ts:799-856 | what each plugin does about a change, branch by branch |
| `PluginRecords.PluginRuntime.DisableForGood` | src/main/plugins/plugin-registry.ts:803-814 | a transition and a cleanup of the registry's own |
| `PluginRecords.PluginRuntime.ShareCleaned` | src/main/plugins/plugin-registry.ts:815-833 | stable under whatever epoch is current, and not intended |
| `PluginRecords.PluginRuntime.constructor` | src/main/plugins/plugin-registry.ts:512-524 | a hydrated record is fresh and sound |
| `PluginRecords.PluginRuntime.Resume` | src/main/plugins/plugin-registry.ts:238-445 | the first task from whichever await it was at |
| `PluginRecords.PluginRuntime.SettingsApplied` | src/main/plugins/plugin-registry.ts:874-901 | failed if applying the changed settings failed |
| `PluginRecords.PluginRuntime.PersistOver` | src/main/plugins/plugin-registry.ts:767-790 | the task learns how its save ended |
| `PluginRecords.PluginRuntime.Happen` | src/main/plugins/plugin-registry.ts:232-991 | whatever happens to a sound record, the object ends up as the step of the system says and stays sound; and an active record keeps its generation exactly unless a queued cleanup starts on it |
| `ServiceHosts.NothingUnlessReady` | src/main/plugins/service-host.ts:349-388 | at every moment of every run in which no stop from outside is called while a restart without the probe could take over a start still resolving: not ready, nothing is granted and nothing pending; ready, at most one grant, and whatever is granted or pending names exactly the ready service generation and the active registry generation |
| `ServiceHosts.CoveredExactly` | src/main/plugins/service-host.ts:106-507 | in any run at all, with stops from outside at any time, that holds throughout if and only if no failed activation forgets the registry generation of a ready host that has granted something or reads, and no request grants or reads for a registry generation no longer active |
| `ServiceHosts.HastyStopUncovers` | src/main/plugins/service-host.ts:334-376 | a run with one stop from outside that ends ready, with a grant, and without a registry generation |
| `ServiceHosts.StopExactly` | src/main/plugins/service-host.ts:349-376 | a stop from outside breaks the invariant exactly while the active activation resolves its path and another may yet start over |
| `ServiceHosts.StopCalledKeeps` | src/main/plugins/service-host.ts:349-376 | any other stop from outside keeps it |
| `ServiceHosts.UncoversBreaks` | src/main/plugins/service-host.ts:126-129 | the two steps named in `CoveredExactly` break the property there and then |
| `ServiceHosts.NextInvariant` | src/main/plugins/service-host.ts:106-388 | no call, continuation or host event breaks the whole invariant behind it but the stop of `StopExactly`; and none but the two steps of `CoveredExactly` breaks the part that the property needs |
| `ServiceHosts.StopKeeps` | src/main/plugins/service-host.ts:349-388 | after a stop nothing is granted or pending, and the caller waits for the child's exit if there is a child |
| `ServiceHosts.StartKeeps` | src/main/plugins/service-host.ts:146-160 | a start begins only without a child and under a number above all others |
| `ServiceHosts.FailKeeps` | src/main/plugins/service-host.ts:557-565 | a failure takes readiness, grants and reads away, of the active generation only |
| `ServiceHosts.ExitKeeps` | src/main/plugins/service-host.ts:199-233 | an exit of the child clears everything; asked for, it leaves the host stopped with its registry generation, unasked, failed without one; any other exit changes nothing |
| `ServiceHosts.Clears` | src/main/plugins/service-host.ts:528-539 | clearing readiness of the active generations leaves no grant |
| `ServiceHosts.ReadyFits` | src/main/plugins/service-host.ts:262-289 | when the host becomes ready nobody waits for a stop |
| `ServiceHosts.FallbackBegins` | src/main/plugins/service-host.ts:334-339 | a start repeated without the permission probe keeps the invariant; `ServiceHostRuns.ProbeOnly` says what alone leads to one |
| `ServiceHosts.HandshakeFails` | src/main/plugins/service-host.ts:341-343 | so does a failed handshake, whoever has started meanwhile |
| `ServiceHosts.StartForKeeps` | src/main/plugins/service-host.ts:118-119 | so does any start |
| `ServiceHosts.AbortStops` | src/main/plugins/service-host.ts:120-123 | so does an activation aborted after its start |
| `ServiceHosts.RequestResolvedCovered` | src/main/plugins/service-host.ts:399-507 | a request whose lease is live grants and reads for the registry generation that asked |
| `ServiceHosts.DeactivatedKeeps` | src/main/plugins/service-host.ts:136-144 | a deactivation keeps it, before its generation is forgotten |
| `ServiceHostRuns.ProbeOnly` | src/main/plugins/service-host.ts:240-343 | in every run that begins with the probe not failed, whenever it counts as failed, or a start is repeated or made without it, a probed process has said before that it is ready, undenied and of a known platform: no timeout, exit or other message leads there |
| `ServiceHostRuns.ReadyProbed` | src/main/plugins/service-host.ts:262-289 | in every run a ready service has said so itself, and was started without the probe or found the read outside denied |
| `ServiceHostRuns.FailedForGood` | src/main/plugins/service-host.ts:334-339 | the probe fails for good, and from then on no probed process is heard to be ready |
| `ServiceHostRuns.StartedBy` | src/main/plugins/service-host.ts:146-157 | each start is numbered next, and probed exactly if it is an activation's own and the probe has not failed |
| `ServiceHostRuns.ActivationSucceeds` | src/main/plugins/service-host.ts:106-160 | an activation from its call to a host that is ready for its registry generation |
| `ServiceHostRuns.HandshakeFailed` | src/main/plugins/service-host.ts:240-343 | a handshake that times out, is malformed or undenied on no known platform ends in a failed activation, with the host as it was but for the number |
| `ServiceHostRuns.HandshakeExits` | src/main/plugins/service-host.ts:199-343 | so does one whose process exits |
| `ServiceHostRuns.FallsBackToStart` | src/main/plugins/service-host.ts:268-272 | an undenied process on a known platform is asked to go, and the start is repeated without the probe |
| `ServiceHostRuns.FallbackSucceeds` | src/main/plugins/service-host.ts:334-339 | which then succeeds |
| `ServiceHostRuns.GrantThenRead` | src/main/plugins/service-host.ts:390-507 | a grant, a read under it, its answer and the revocation, from request to effect |
| `ServiceHostRuns.ReadEnds` | src/main/plugins/service-host.ts:413-438 | a read ends with its grant, when it is cancelled, and when its time is up |
| `ServiceHostRuns.Deactivates` | src/main/plugins/service-host.ts:136-144 | a deactivation takes grants and reads at once and leaves the host at rest |
| `ServiceHostRuns.StopTimesOutLate` | src/main/plugins/service-host.ts:377-388 | a process that does not go in time leaves the host failed, and its later exit counts as unasked |
| `ServiceHostRuns.AbortedStops` | src/main/plugins/service-host.ts:118-123 | an activation aborted while it starts stops the host again |
| `ServiceHostRuns.NoPathFails` | src/main/plugins/service-host.ts:151-155 | without a fixture path an activation fails at once |
| `ServiceHostRuns.RejectedPathSticks` | src/main/plugins/service-host.ts:160-186 | a path that cannot be resolved, or a fork that throws, leaves the host starting, so that no later activation succeeds until somebody stops it |
| `ServiceHostObjects.ServiceHost.ClearReadiness` | src/main/plugins/service-host.ts:528-539 | the fields, broker and ledger after it |
| `ServiceHostObjects.ServiceHost.Stop` | src/main/plugins/service-host.ts:349-376 | the same for the synchronous part of a stop |
| `ServiceHostObjects.ServiceHost.Start` | src/main/plugins/service-host.ts:146-160 | the same for a start |
| `ServiceHostObjects.ServiceHost.FailGeneration` | src/main/plugins/service-host.ts:557-565 | the same for a failure |
| `ServiceHostObjects.ServiceHost.ChildExits` | src/main/plugins/service-host.ts:199-233 | the same for an exit |
| `ServiceHostObjects.ServiceHost.BecomeReady` | src/main/plugins/service-host.ts:273-281 | the same for readiness |
| `ServiceHostObjects.ServiceHost.Grant` | src/main/plugins/service-host.ts:399-411 | a grant request after its path: the host, broker and ledger are as the step of the system says; granted exactly under a live lease with nothing granted |
| `ServiceHostObjects.ServiceHost.RevokeGrant` | src/main/plugins/service-host.ts:413-427 | the same for a revocation, which also cancels the read under the grant |
| `ServiceHostObjects.ServiceHost.CancelRequest` | src/main/plugins/service-host.ts:429-438 | the same for a cancellation |
| `ServiceHostObjects.ServiceHost.AuthorizeRead` | src/main/plugins/service-host.ts:440-469 | a read goes on to its second path exactly when the system's does |
| `ServiceHostObjects.ServiceHost.BeginRead` | src/main/plugins/service-host.ts:470-506 | and then begins, or is refused as busy or as a duplicate |
| `ServiceHostObjects.ServiceHost.Answer` | src/main/plugins/service-host.ts:291-313 | an answer ends the pending read exactly when it is of the active generations and names it |
| `ServiceHostObjects.ServiceHost.ReadTimesOut` | src/main/plugins/service-request-ledger.ts:57-58 | a timer ends its own read only |
| `ServiceHostObjects.AnsweredAlike` | src/main/plugins/service-host.ts:399-507 | what a resolved request makes of the host does not depend on the other promises |
| `CapabilityBroker.Broker.GrantRead` | src/main/plugins/capability-broker.ts:25-42 | one grant at most, or a counted denial |
| `CapabilityBroker.Broker.AuthorizeRead` | src/main/plugins/capability-broker.ts:51-63 | a read is authorized exactly under the grant it names and in both its generations, else a counted denial |
| `CapabilityBroker.Broker.Revoke` | src/main/plugins/capability-broker.ts:65-75 | all four outcomes, and what each leaves |
| `CapabilityBroker.Broker.RevokeGeneration` | src/main/plugins/capability-broker.ts:77-86 | the grants of the generations go, and no other |
| `CapabilityBroker.OnePurged` | src/main/plugins/capability-broker.ts:77-86 | what purging the one grant leaves |
| `ServiceRequestLedger.Ledger.Begin` | src/main/plugins/service-request-ledger.ts:45-62 | refused as a duplicate, with nothing pending, exactly when the renderer id is among the last 2048 to end; otherwise begun under a new id |
| `ServiceRequestLedger.Ledger.Remembered` | src/main/plugins/service-request-ledger.ts:49 | a renderer id has a tombstone exactly when it is that of one of the last 2048 endings |
| `ServiceRequestLedger.Remember` | src/main/plugins/service-request-ledger.ts:116-129 | two tombstones more push out the two of the oldest ending |
| `ServiceRequestLedger.CorrelationIdsDiffer` | src/main/plugins/service-request-ledger.ts:52 | with tokens of one width no two requests have the same correlation id |
| `ServiceRequestLedger.Ledger.EndsOnce` | src/main/plugins/service-request-ledger.ts:113 | no request ends twice |
| `ServiceRequestLedger.Ledger.Finish` | src/main/plugins/service-request-ledger.ts:112-122 | the pending request ends once and both indexes forget it; any other is left alone |
| `ServiceRequestLedger.Ledger.Settle` | src/main/plugins/service-request-ledger.ts:64-78 | a reply ends the pending request exactly when it names it and both its generations |
| `ServiceRequestLedger.Ledger.Cancel` | src/main/plugins/service-request-ledger.ts:80-86 | the same for a cancellation by renderer id |
| `ServiceRequestLedger.Ledger.EndAll` | src/main/plugins/service-request-ledger.ts:88-110 | every pending request of the generation, and grant, ends, and is counted |
| `LocalPluginStateStore.SaveSerialized` | src/main/plugins/local-plugin-state-store.ts:181-310 | published exactly when nothing up to the rename fails; a state file that is irregular, too large or not a state rejects the save with every file as it was, a missing one does not; rejected, every file is as before but for a temporary one named in the residue; durable only after every step; at every moment but the last of a published save the state file is what it was, at that one it is the new text whole |
| `LocalPluginStateStore.Confirm` | src/main/plugins/local-plugin-state-store.ts:222-290 | durable exactly when the directory is synced, unless on Windows, and the readback is equal |
| `LocalPluginStateStore.WriteTemporary` | src/main/plugins/local-plugin-state-store.ts:196-211 | the temporary file holds the text, synced and closed, unless something failed; nothing else is touched |
| `LocalPluginStateStore.SyncDirectory` | src/main/plugins/local-plugin-state-store.ts:231-248 | when the directory counts as synced |
| `LocalPluginStateStore.Renaming` | src/main/plugins/local-plugin-state-store.ts:213-220 | renaming the temporary file is writing the state file in one step |
| `LocalPluginStateStore.HeldPrefix` | src/main/plugins/local-plugin-state-store.ts:127-128 | what the file holds depends on the saves carried out, not on those in line |
| `LocalPluginStateStore.Store.Save` | src/main/plugins/local-plugin-state-store.ts:118-130 | a valid state joins the end of the line, an invalid one is refused |
| `LocalPluginStateStore.Store.RunNext` | src/main/plugins/local-plugin-state-store.ts:127-128 | saves take effect in call order, however those before ended; at each moment of one the file holds what the saves before it left, and once it is published its own text |
| `LocalPluginStateStore.Store.WholeAlways` | src/main/plugins/local-plugin-state-store.ts:127-310 | at every moment since the store was made the state file is whole, what was there first or the text of one accepted state, and never an older save's after a newer one's |
| `LocalPluginStateStore.InOrderNext` | src/main/plugins/local-plugin-state-store.ts:127-310 | the moments of one more save come after those of all others |
| `LocalPluginStateStore.HeldWhole` | src/main/plugins/local-plugin-state-store.ts:127-128 | what the file holds is whole, however many saves were rejected |
| `RendererRequests.OneOfTwo` | src/main/plugins/renderer-lease-bridge.ts:148-244 | at every moment of every run each request ever sent is either pending, under the live session, or settled, and never both; nothing else is, and no id was sent twice |
| `RendererRequests.SettledForGood` | src/main/plugins/renderer-lease-bridge.ts:148-173 | a settled request stays settled in the same way, is never pending again, and no answer to it is accepted any more |
| `RendererRequests.LeavesOnce` | src/main/plugins/renderer-lease-bridge.ts:148-244 | a request leaves the table at exactly one event of a run, and is settled by that event |
| `RendererRequests.LeavesBy` | src/main/plugins/renderer-lease-bridge.ts:148-221 | which events can settle a pending request, and how each settles it |
| `RendererRequests.SentOnce` | src/main/plugins/renderer-lease-bridge.ts:201-249 | what an event sends was never sent, pending or settled before |
| `RendererRequests.NextKeeps` | src/main/plugins/renderer-lease-bridge.ts:51-244 | no event loses a request, settles one twice or takes a number back |
| `RendererRequests.RunSound` | src/main/plugins/renderer-lease-bridge.ts:51-244 | so the table is sound at every moment of every run |
| `RendererRequests.FreshId` | src/main/plugins/renderer-lease-bridge.ts:246-249 | the next number's id was never sent |
| `RendererRequests.DispatchedKeeps` | src/main/plugins/renderer-lease-bridge.ts:188-244 | under a fresh id a dispatch keeps the table sound and is never refused as reused |
| `RendererRequests.AskedSends` | src/main/plugins/renderer-lease-bridge.ts:86-146 | a call only adds to the table, and only what it sends, under the number it has drawn |
| `RendererRequests.SentExactly` | src/main/plugins/renderer-lease-bridge.ts:51-146 | when an opening, a close, a command or a setting is sent, both ways |
| `RendererRequests.RequestIdsDiffer` | src/main/plugins/renderer-lease-bridge.ts:246-249 | no request id is used twice |
| `RendererLeaseBridge.Bridge.Dispatch` | src/main/plugins/renderer-lease-bridge.ts:188-243 | why a request is refused, a reused id among the reasons, and that it is in the table exactly when it is sent; thrown at, it leaves settled |
| `RendererLeaseBridge.Bridge.Acknowledge` | src/main/plugins/renderer-lease-bridge.ts:148-162 | accepted exactly for a pending request named in every respect, of the live session, which leaves the table settled |
| `RendererLeaseBridge.Bridge.GiveUp` | src/main/plugins/renderer-lease-bridge.ts:205-221 | an abort or timeout settles a pending request, and nothing else |
| `RendererLeaseBridge.Bridge.RendererDisposed` | src/main/plugins/renderer-lease-bridge.ts:164-173 | every pending request is settled at once and none is left |
| `RendererLeaseBridge.Bridge.RendererReady` | src/main/plugins/renderer-lease-bridge.ts:179-186 | a new session displaces the leases and settles what was asked of the old one; the same session changes nothing |
| `RendererLeaseBridge.Bridge.OpenLease` | src/main/plugins/renderer-lease-bridge.ts:51-79 | who is refused, what lease, request and number there are then, and that earlier settlements stay; the table as the step of the system leaves it |
| `RendererLeaseBridge.Bridge.OpenRejected` | src/main/plugins/renderer-lease-bridge.ts:80-83 | a failed opening forgets its lease unless something is pending for it |
| `RendererLeaseBridge.Bridge.CloseLease` | src/main/plugins/renderer-lease-bridge.ts:86-100 | without a renderer closed at once, else asked for under the next number; earlier settlements stay |
| `RendererLeaseBridge.Bridge.CloseAcknowledged` | src/main/plugins/renderer-lease-bridge.ts:101-104 | a lease closed completely is forgotten |
| `RendererLeaseBridge.Bridge.Ask` | src/main/plugins/renderer-lease-bridge.ts:113-146 | commands and settings go to known leases only, under the next number; earlier settlements stay |
| `Numerals.NumeralsDiffer` | src/main/plugins/renderer-lease-bridge.ts:248 | numbers printed alike are the same |
| `UnsavedDiff.KeepsLongest` | src/renderer/unsaved-diff.ts:173-203 | when the table of words fits, the kept tokens are a longest common subsequence of all the tokens of both texts |
| `UnsavedDiff.KeepsLongestLines` | src/renderer/unsaved-diff.ts:188-200 | when only the table of lines fits, what is kept of the middle is a longest common subsequence of its lines; when not even that fits, nothing of it is kept |
| `UnsavedDiff.CutIsMost` | src/renderer/unsaved-diff.ts:176-183 | what is left between the common start and end begins and ends differently |
| `UnsavedDiff.TrimCosts` | src/renderer/unsaved-diff.ts:176-183 | a common start and end are worth at most their own tokens: trimming never costs |
| `UnsavedDiff.WalkKeepsLongest` | src/renderer/unsaved-diff.ts:146-162 | the walk keeps a longest common subsequence |
| `UnsavedDiff.TableBounds` | src/renderer/unsaved-diff.ts:138-145 | no common subsequence is longer than the table says |
| `UnsavedDiff.WalkRemovesFirst` | src/renderer/unsaved-diff.ts:153-161 | the walk never adds directly before it removes |
| `UnsavedDiff.AddedThenNotRemoved` | src/renderer/unsaved-diff.ts:153-161 | after an addition the tie rule does not remove next |
| `UnsavedDiff.TableMonotone` | src/renderer/unsaved-diff.ts:141-143 | dropping a token never makes an entry larger |
| `UnsavedDiff.PiecesAreRight` | src/renderer/unsaved-diff.ts:121-126 | in all three modes the pieces spell both texts, none is empty, no neighbours are alike, removals come before additions |
| `UnsavedDiff.ScriptSpells` | src/renderer/unsaved-diff.ts:173-203 | the edits spell both texts before they are merged |
| `UnsavedDiff.MergeAllSide` | src/renderer/unsaved-diff.ts:121-126 | merging changes neither text |
| `UnsavedDiff.MergeAllTidy` | src/renderer/unsaved-diff.ts:121-126 | merging leaves no empty piece and no two neighbours alike |
| `UnsavedDiff.MergeAllRemovesFirst` | src/renderer/unsaved-diff.ts:121-126 | merging keeps removals before additions |
| `UnsavedDiff.EntryFitsUint32` | src/renderer/unsaved-diff.ts:138 | no entry overflows the array's type |
| `UnsavedDiff.WordDiff` | src/renderer/unsaved-diff.ts:173-203 | the method's pieces are those of the script, tidy, ordered, and spell both texts |
| `UnsavedDiff.FillTable` | src/renderer/unsaved-diff.ts:134-145 | every cell holds the entry of its suffixes |
| `UnsavedDiff.Trim` | src/renderer/unsaved-diff.ts:176-183 | the two loops find the whole common start and end |
| `UnsavedDiff.PieceList.Aligned` | src/renderer/unsaved-diff.ts:133-164 | appends the walk, or nothing above the cap |
| `UnsavedDiff.PieceList.Merge` | src/renderer/unsaved-diff.ts:121-126 | appends or lengthens the last piece |
| `UnsavedDiff.TokensExactly` | src/renderer/unsaved-diff.ts:113 | the tokens are the one way to cut a text into whole words, whole runs of space and single other characters |
| `UnsavedDiff.LinesExactly` | src/renderer/unsaved-diff.ts:116 | the lines are the one way to cut it behind every line break |
| `PortableSha256.Hasher.Digest` | src/shared/sha256.ts:95-122 | below 2^31 bytes the result is SHA-256 of the message, whatever the shared arrays held |
| `PortableSha256.ExactBelow2To31` | src/shared/sha256.ts:95-114 | the padded message is what is compressed, for every message of a length, if and only if the length is below 2^31 |
| `PortableSha256.FedIsPadded` | src/shared/sha256.ts:97-114 | the whole blocks and the tail are exactly the padded message of section 5.1.1 of FIPS 180-4 |
| `PortableSha256.TooLong` | src/shared/sha256.ts:98-104 | a message of 2^31 bytes or more that is not |
| `PortableSha256.TailIsPadded` | src/shared/sha256.ts:102-112 | each byte of the tail is that of the padded message |
| `PortableSha256.LengthField` | src/shared/sha256.ts:107-112 | the two words written are the 64-bit length in bits |
| `PortableSha256.BigEndianJoin` | src/shared/sha256.ts:109-112 | a number in big-endian bytes is its high part and then its low part |
| `PortableSha256.RoundStep` | src/shared/sha256.ts:71-84 | one round in signed 32-bit sums is one round of section 6.2.2 |
| `PortableSha256.ScheduleStep` | src/shared/sha256.ts:56-62 | so is one word of the message schedule |
| `PortableSha256.Hasher.Compress` | src/shared/sha256.ts:51-93 | the state after it is the next hash value |
| `PortableSha256.Hasher.LoadSchedule` | src/shared/sha256.ts:52-62 | the words are the message schedule of the window |
| `PortableSha256.Hasher.RunRounds` | src/shared/sha256.ts:63-84 | the registers are those after 64 rounds |
| `PortableSha256.Hasher.FillTail` | src/shared/sha256.ts:102-112 | the last one or two blocks, unless the subarray does not fit |
| `PortableSha256.Hasher.ToHex` | src/shared/sha256.ts:116-121 | the state in lower-case hexadecimal |
| `PortableSha256.Hasher.HashBytes` | src/shared/sha256.ts:125-126 | bytes are hashed as they are |
| `PortableSha256.Hasher.HashString` | src/shared/sha256.ts:127-133 | a string of any length is hashed as its UTF-8 bytes are, through the kept buffer or not; `Utf8Texts.Utf8Decodes` says what those are |
| `Utf8Texts.Utf8Decodes` | src/shared/sha256.ts:127-133 | a string's bytes decode, in shortest forms, to scalars that spell it in UTF-16, with U+FFFD for every lone surrogate |
| `Utf8Texts.EncodedOnce` | src/shared/sha256.ts:127-133 | each scalar's bytes announce their own length and read back as the scalar |
| `Fips180.RoundConstants` | src/shared/sha256.ts:21-30 | the round constants are the first 32 fractional bits of the cube roots of the first 64 primes |
| `Fips180.HashConstants` | src/shared/sha256.ts:32-34 | the initial hash value those of the square roots of the first eight |
| `Fips180.HexWordValue` | src/shared/sha256.ts:116-121 | a word written in hexadecimal reads back as the word |
| `JsNumbers.Sum5` | src/shared/sha256.ts:73 | sums cut to 32 bits once equal sums cut at each step |
| `JsNumbers.RotateIsRotr` | src/shared/sha256.ts:59 | the two shifts joined are a rotation |
| `JsNumbers.OrDisjoint` | src/shared/sha256.ts:54 | joining bits that do not overlap is adding |
| `JsNumbers.LoadIsWord` | src/shared/sha256.ts:54 | four shifted bytes are the big-endian word |
| `JsNumbers.ChooseIsCh` | src/shared/sha256.ts:73 | the source's choice is Ch |
| `JsNumbers.MajorityIsMaj` | src/shared/sha256.ts:75 | the source's majority is Maj |
| `WikiTarget.RelativeLeads` | src/renderer/wiki-target.ts:98-111 | from a folder, the relative path of a note leads to the note |
| `WikiTarget.PlainRelativeLeads` | src/renderer/wiki-target.ts:98-111 | the same word for word, for paths with forward slashes |
| `WikiTarget.BesideExactly` | src/renderer/wiki-target.ts:120-123 | the target written for a note has, beside the note it is written in, the note's key but for case, if and only if it points up only, or the note's stem is not empty, `.`, `..` or itself ending in an extension, or the note is a bare extension at the root |
| `WikiTarget.RoundTrip` | src/renderer/wiki-target.ts:45-86 | then the candidates for the written target are led by a note with the same key and hold the note's path |
| `WikiTarget.FoundExactly` | src/renderer/wiki-target.ts:57-85 | a path is found exactly when a note with it lies where the target points, beside or from the root, or is called that; and once |
| `CandidateOrder.CandidatesInOrder` | src/renderer/wiki-target.ts:78-85 | in the result a note beside the link comes before every other, one from the root before those found by name alone, those never get nearer from one to the next, and notes alike come as they are listed |
| `CandidateOrder.ClosenessMeans` | src/renderer/wiki-target.ts:89-96 | closeness is twice the longest common folder prefix, and one more for the same folder |
| `CandidateOrder.TakeInOrder` | src/renderer/wiki-target.ts:69-76 | what is taken keeps its order, behind what was taken before |
| `CandidateOrder.WantedIs` | src/renderer/wiki-target.ts:50 | the target wants what stands before its first `#`, without the space at its ends |
| `WikiTarget.ExtensionExactly` | src/renderer/wiki-target.ts:32 | exactly one `.md` or `.markdown` at the end goes, in whichever case |
| `WikiTarget.NearestSorts` | src/renderer/wiki-target.ts:80-83 | by name alone the nearest come first, none lost or doubled |
| `WikiTarget.TakeOnce` | src/renderer/wiki-target.ts:69-76 | no path is taken twice |
| `WikiTarget.ExtensionBelow` | src/renderer/wiki-target.ts:32 | an extension is a matter of the last segment |
| `WikiTarget.ReachedKey` | src/renderer/wiki-target.ts:32-35 | when the names reached have the key of the note |
| `WikiTarget.WalkRelative` | src/renderer/wiki-target.ts:106-110 | walking the relative segments from the base ends at the target |
| `WikiTarget.NormalisePath` | src/renderer/wiki-target.ts:22-30 | the loop resolves every segment |
| `WikiTarget.RelPathFromDir` | src/renderer/wiki-target.ts:103-111 | up to what is shared, then down, or `.` |
| `WikiTarget.WikiTargetFor` | src/renderer/wiki-target.ts:120-123 | relative to the other note's folder, without the extension |
| `WikiTarget.WikiCandidates` | src/renderer/wiki-target.ts:45-86 | the method's result is the list whose members `FoundExactly` gives and whose order `CandidateOrder.CandidatesInOrder` gives |
| `WikiTarget.BuildIndexes` | src/renderer/wiki-target.ts:57-64 | both indexes list the notes of each key in order |
| `Outline.NestOutline` | src/renderer/outline.ts:106-116 | the shared arrays end up spelling the tree of the headings |
| `Outline.NestPreorder` | src/renderer/outline.ts:106-116 | read top to bottom, the tree gives the headings back |
| `Outline.NestParents` | src/renderer/outline.ts:110-112 | each heading's parent is the nearest earlier one of strictly smaller depth, a root if there is none |
| `Outline.NestSiblings` | src/renderer/outline.ts:110-113 | siblings never get deeper from one to the next |
| `Outline.NestSplit` | src/renderer/outline.ts:110 | a heading no deeper than all before it closes their trees |
| `Outline.PushSpine` | src/renderer/outline.ts:112-113 | a heading appended to the last level becomes a level of its own |
| `Outline.Pop` | src/renderer/outline.ts:110 | popping a level turns its open node into a finished tree |
| `CodeViewerHighlight.HighlightLines` | src/renderer/code-viewer-highlight.ts:117-140 | if the tree's leaves spell the normalised source, each line's tokens spell that line in its colours, none is empty and the bounds check never fires; without a grammar the bare lines |
| `CodeViewerHighlight.IntoLines` | src/renderer/code-viewer-highlight.ts:128-139 | the bounds check fires exactly when there are more lines than places; otherwise each line holds its ink |
| `CodeViewerHighlight.PlaceToken` | src/renderer/code-viewer-highlight.ts:131-137 | one token's parts onto their lines |
| `CodeViewerHighlight.Flatten` | src/renderer/code-viewer-highlight.ts:91-114 | appends the leaves, each with the class of the nearest enclosing token |
| `CodeViewerHighlight.FlattenElement` | src/renderer/code-viewer-highlight.ts:100-112 | the same for one typed token |
| `CodeViewerHighlight.ClassAfter` | src/renderer/code-viewer-highlight.ts:104-109 | filling in the outer type afterwards is having known it |
| `CodeViewerHighlight.ElementClassed` | src/renderer/code-viewer-highlight.ts:100-112 | no leaf of a typed token is without a class |
| `CodeViewerHighlight.LeavesInnermost` | src/renderer/code-viewer-highlight.ts:91-114 | each leaf has the type of the innermost token around it |
| `CodeViewerHighlight.NormalisedIs` | src/renderer/code-viewer-highlight.ts:118 | whichever of the three line breaks a text has, normalising leaves its lines and puts `\n` between them |
| `CodeViewerHighlight.InkLinesAreLines` | src/renderer/code-viewer-highlight.ts:118 | the lines of the coloured text are the lines of the text |
| `CodeViewerHighlight.NoBreak` | src/renderer/code-viewer-highlight.ts:135-136 | a part without a line break lengthens the last line |
| `CodeViewerHighlight.TooMany` | src/renderer/code-viewer-highlight.ts:134 | a break beyond the last place means too many lines |
| `CodeViewerHighlight.TextsConcat` | src/renderer/code-viewer-highlight.ts:117-140 | what a line shows is its tokens' texts end to end |
| `HeartbeatRateLimiter.AcceptedBetween` | src/main/plugins/experimental-runtime-ledger.ts:64-75 | from s to t inclusive, whatever came before, at most capacity + ceil((t - s) / refill) heartbeats are accepted |
| `HeartbeatRateLimiter.NeverRefused` | src/main/plugins/experimental-runtime-ledger.ts:64-75 | calls at least a refill apart are never refused |
| `HeartbeatRateLimiter.BurstExactly` | src/main/plugins/experimental-runtime-ledger.ts:64-75 | of a burst exactly as many are accepted as there are tokens and whole refills since the last, up to the capacity |
| `HeartbeatRateLimiter.TokensAndRefills` | src/main/plugins/experimental-runtime-ledger.ts:66-73 | no more are accepted than there are tokens and whole refills |
| `HeartbeatRateLimiter.RefilledBound` | src/main/plugins/experimental-runtime-ledger.ts:66-71 | a refill keeps the rest of the time and exceeds nothing |
| `HeartbeatRateLimiter.Limiter.Accept` | src/main/plugins/experimental-runtime-ledger.ts:64-75 | the fields after a heartbeat, and its answer; a time that is not finite is refused |
| `HeartbeatRateLimiter.Limiter.Create` | src/main/plugins/experimental-runtime-ledger.ts:50-62 | a full bucket, or nothing exactly where the source throws |
| `HeartbeatRateLimiter.FloorIs` | src/main/plugins/experimental-runtime-ledger.ts:67 | the whole refills in a time are the only number that leaves less than one |
| `QuickOpenFolders.FoldersOf` | src/renderer/quick-open-folders.ts:32-50 | for paths without empty segments: one row for exactly the folders that hold a note, each with as many notes as its scope leaves, in descending order |
| `QuickOpenFolders.Count` | src/renderer/quick-open-folders.ts:33-41 | the loops count every folder path of every note |
| `QuickOpenFolders.CountIsScope` | src/renderer/quick-open-folders.ts:52-63 | a folder's count is the number of notes within its scope |
| `QuickOpenFolders.PathsAreScopes` | src/renderer/quick-open-folders.ts:35-40 | the folders counted for a path are those it is inside of |
| `QuickOpenFolders.OneEach` | src/renderer/quick-open-folders.ts:37-40 | each once |
| `QuickOpenFolders.SortSorts` | src/renderer/quick-open-folders.ts:48-49 | sorted by count, none lost or doubled |
| `QuickOpenFolders.SortInOrder` | src/renderer/quick-open-folders.ts:48-49 | most notes first, and equally full folders as the locale orders them |
| `QuickOpenFolders.RowNamed` | src/renderer/quick-open-folders.ts:43-47 | a folder is named by what stands behind its last `/` |

## Left out

- Microtasks: in the registry any continuation may run at any time, which is more than the platform allows. In the service host, host events come only once every settled promise has run on, as on the platform: its property rests on that order.
- ServiceHosts.NothingUnlessReady: does not say that the grant of a pending read is still active, because a read authorised before its grant is revoked may begin after it.
- ServiceHosts.NextInvariant: assumes that no registry generation number is activated twice, which `PluginRegistry.NoneLost` shows of the registry.
- That a plugin recovers after a failed activation, or that a late `failed` never overtakes a later transition: the code does not establish either.
- Failure texts, diagnostics, activation reasons, capability snapshots, persistence health and the published snapshots of the registry.
- Publish observers and event sinks that call back into the registry or the host while they are told.
- PluginRecords.PluginRuntime.Start: the memory of the last 256 disposed leases, because a disposal it recognises finds no owned lease either and changes nothing in both cases.
- Hydration: runs begin with a hydrated registry; before that every call is refused.
- Real timers, UUIDs and random tokens: timeouts are steps that may come at any time, identifiers are given and fresh.
- LocalPluginStateStore.SaveSerialized: writers other than the store, and power cuts in the middle of a rename; the JSON printer, the catalog's parser and a text's byte length are given functions.
- LocalPluginStateStore.ReadAccepted: `load` waits for the saves in line, which is not modelled.
- RendererLeaseBridge.Bridge.Dispatch: a renderer that answers while it is being told, before `dispatch` returns.
- Message validation and path containment: the outcome is an input.
- UnsavedDiff.Tokens: lone surrogates, which are not characters of the model's strings.
- The pairing of blocks and rows around the word diff, `diffBlocks`, `splitBlocks` and the saving of files.
- PortableSha256.Hasher.HashString: what an engine does with strings too long to encode.
- WikiTarget.WikiCandidates: `toLowerCase` is a given function of whole strings, and sorting is any stable one.
- QuickOpenFolders.FoldersOf: the locale's comparison of equally full folders is a given function.
- Heading texts, setext headings and reading headings off a document: expressions with nothing to prove beyond themselves.
- The grammar of a language and its alias: the token tree is given.
- HeartbeatRateLimiter.Limiter.Accept: times are real numbers, so the rounding of a double; and the identifiers and grace period of the ledger beside it.
- React components, styles, dialogs, IPC registration, protocol handlers, network and logging.

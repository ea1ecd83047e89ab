# Verified model of a component harness

Dafny models and proofs for the parts of the harness where state, ordering and
concurrency matter: activity gates and effect-scope teardown, reconciled
components and their slots, the service registry, the commit funnel with its
workload and auditor, frozen cancellation scopes, and the plugin wire formats.
`dafny verify dfyconfig.toml` checks the whole project.

## How it is organised

- `ActivityGate.dfy`: the packed gate word and the admission protocol as atomic
  steps of any number of threads over any gate tree. One theorem says what every
  reachable state looks like; the others say what no interleaving can do.
- `EffectScope.dfy`, `EffectScopeRuns.dfy`: teardown polls over scope trees. Every
  state *promises* a report; each poll keeps the promise, and whole lives of a tree
  are proved to invoke each cleanup exactly once and to report in reverse order.
- `GatedTeardown.dfy`: gates and teardown together, one gate for every scope, from
  an empty world; the drains are those gates, so the fence is about the cleanups
  really invoked.
- `Lifecycle.dfy`, `Component.dfy`, `ReconciledComponent.dfy`, `ComponentSlot.dfy`:
  epoch-fenced lifecycle, reconciliation and the desired-state slot. The slot object
  owns a component object, which owns a lifecycle object. The theorems are over
  every life of an instance and of a slot, down to the cleanups invoked.
- `Registry.dfy`: scope visibility, contracts, discovery, binding and resolution,
  and what becomes of a handle over every run.
- `Decimal.dfy`, `FunnelStore.dfy`, `Store.dfy`: the store. The graph of rows with
  its address book is proved to behave as tables keyed by identity.
- `Audit.dfy`, `FunnelLog.dfy`: the auditor's exact meaning, and that every history
  passes it after every crash.
- `Workload.dfy`, `FunnelRun.dfy`, `FunnelSafety.dfy`: slots, writer streams and all
  interleavings of claim, submit, confirm and release.
- `Frame.dfy`, `StrictJson.dfy`: length-prefixed framing and strict JSON admission.
- `Cancel.dfy`: canonical scopes, validation, lookup and request status.

Where the code updates state in place the model is a class whose methods are
proved against a transition on values; the theorems are about those transitions,
over every sequence of them.

## Assumptions

- Atomics are sequentially consistent. Cancellation flags, provider flags and
  repeated openness checks may refuse at any moment, so the theorems cover every
  timing of them.
- Callbacks, futures and the registry seen by a component are inputs: how often
  each future answers Pending and how it ends is arbitrary but fixed.
- Content digests do not collide. Random rolls and payload filler are arbitrary.
- The store starts empty, and a crash keeps a prefix of the commits in commit
  order, all confirmed ones included. Submissions that were refused appear in the
  modelled log and change nothing.

## What the proofs turned up

- `finish` on a poisoned frame decoder answers a clean end, because poisoning
  drops the buffer; the violation is only visible through the decoder itself
  (`Frames.AgreesWithBatch`).
- A decoder's retention bound holds once it has been drained. Between a feed and
  the draining that follows it holds exactly when the chunk fitted, and draining
  before every feed does not ensure that (`Frames.RetentionIff`,
  `Frames.DrainedFeedExceeds`).
- Event and intent identifiers keep sixteen bits of the writer number, so the
  freedom from duplicate keys holds exactly up to 65536 writers
  (`FunnelSafety.PoolAgreesWithStore`, `FunnelSafety.TooManyWritersPanic`).
- Request status is monotone exactly when no discharged member is undischarged by
  a later row, which write-once rows ensure (`Cancellation.StatusAdvancesIff`).
- A refused inventory still fixes the contracts of the requirements ahead of the
  conflicting one, and leaves no trace exactly when those were fixed already
  (`Registries.NoTraceIff`, `Registries.RefusalLeavesTrace`).

## Model

| member | source | states |
|---|---|---|
| ActivityGates.WordBits | crates/yah-compose/src/effect_scope/activity.rs:14-129 | The model of the packed word is its bits: the top bit, the bits below it, and subtraction modulo the word |
| ActivityGates.WordOperations | crates/yah-compose/src/effect_scope/activity.rs:14-129 | On every 64-bit word: setting the revoked bit keeps the count, subtracting one from a positive count never borrows from the revoked bit, and adding one below the limit never carries into it |
| ActivityGates.CollectLineage | crates/yah-compose/src/effect_scope/activity.rs:48-62 | The admission loop collects a gate and all its ancestors root first |
| ActivityGates.IsOpen | crates/yah-compose/src/effect_scope/activity.rs:64-74 | The walk up the parents answers true exactly when no gate of the lineage is revoked |
| ActivityGates.DropGuardKeeps | crates/yah-compose/src/effect_scope/activity.rs:121-130 | Dropping a guard is always paid for by a positive count, and keeps the whole invariant |
| ActivityGates.StepKeeps | crates/yah-compose/src/effect_scope/activity.rs:48-129 | Every atomic step of admission, refusal, release, revocation, draining and closing keeps the invariant |
| ActivityGates.GateWordExact | crates/yah-compose/src/effect_scope/activity.rs:76-129 | In every reachable state the word is exactly (revoked, number of live guards); drained implies revoked with none left; revoked with none left implies drained or a signal some thread already owes |
| ActivityGates.NoCleanupDuringCallback | crates/yah-compose/src/service/handle.rs:96-134 | In every interleaving, while a callback runs no scope of its provider or consumer, nor any ancestor of either, has drained or reached its cleanup phase |
| ActivityGates.DrainedForever | crates/yah-compose/src/effect_scope/activity.rs:76-129 | Once a gate has drained it stays drained, and no operation in its subtree runs ever again |
| ActivityGates.IdleMeansDrained | crates/yah-compose/src/effect_scope/activity.rs:83-88 | No wake-up is lost: when every thread is idle, a scope that began closing can proceed to cleanup |
| GatedTeardowns.TurnLedger | crates/yah-compose/src/effect_scope.rs:303-372 | One turn of a teardown against the gates keeps the promised report, invokes callbacks in the promised order, each once, and leaves strictly less work |
| GatedTeardowns.TurnInvokesDrained | crates/yah-compose/src/effect_scope.rs:432-446 | Every callback a turn invokes, at any depth, belongs to a scope whose own gate has drained |
| GatedTeardowns.StepKeeps | crates/yah-compose/src/effect_scope.rs:127-331 | Creating, registering, nesting, sealing, turning and every thread step keep each scope tree in agreement with its gates |
| GatedTeardowns.CleanupsExcludeOperations | crates/yah-compose/src/effect_scope.rs:303-331 | From an empty world, in every interleaving: when a cleanup of any scope is invoked, that scope has drained, and no operation through it or any scope below it is running, then or ever after |
| GatedTeardowns.OperationsHoldOffCleanups | crates/yah-compose/src/service/handle.rs:96-134 | While an operation runs in a tree, no turn invokes a cleanup of any scope it passes through, up to the root |
| GatedTeardowns.IdleTeardownProceeds | crates/yah-compose/src/effect_scope.rs:432-446 | No teardown is stuck: once every thread is idle, every sealed tree that is not closed can take its next turn |
| GatedTeardowns.SealedTeardownExact | crates/yah-compose/src/effect_scope.rs:276-372 | From its seal on, whatever the threads do, a tree invokes exactly the callbacks owed in order, ends with the promised report, and takes no more turns than it had work |
| EffectScopes.PollClose | crates/yah-compose/src/effect_scope.rs:303-372 | One poll, in any state: the promised report is unchanged, callbacks run in the promised order and never twice, Pending uses up exactly one of the Pending answers left, Ready returns the promised report, and nothing runs before the drain |
| EffectScopes.TakeTurn | crates/yah-compose/src/effect_scope.rs:303-372 | One turn of a drained scope makes progress, spends one Pending answer, or returns the promised report |
| EffectScopes.PollHeld | crates/yah-compose/src/effect_scope.rs:374-430 | Polling the cleanup in hand keeps the promise, and either spends one Pending answer or makes progress |
| EffectScopes.PollCurrent | crates/yah-compose/src/effect_scope.rs:374-423 | An asynchronous cleanup or a closing child answers Ready only with the one step it owes |
| EffectScopes.PopEntry | crates/yah-compose/src/effect_scope.rs:303-372 | Taking the last entry moves what it owes into the records and invokes exactly its own callback |
| EffectScopes.BeginKeeps | crates/yah-compose/src/effect_scope.rs:276-301 | Sealing a scope changes neither its promised report, nor the callbacks it owes, nor the Pending answers left |
| EffectScopeRuns.EffectScope.constructor | crates/yah-compose/src/effect_scope.rs:78-92 | A new scope is open and empty |
| EffectScopeRuns.EffectScope.Register | crates/yah-compose/src/effect_scope.rs:179-231 | A registration is appended under a fresh identity, or refused without any change when the scope is not open or identities are exhausted |
| EffectScopeRuns.EffectScope.Close | crates/yah-compose/src/effect_scope.rs:233-236 | Creating the close future already seals the scope |
| EffectScopeRuns.EffectScope.Poll | crates/yah-compose/src/effect_scope.rs:498-507 | Each poll of the close future has the effect of one poll of the teardown, so dropped and recreated futures resume |
| EffectScopeRuns.EffectScope.Drive | crates/yah-compose/src/effect_scope.rs:303-372 | Driving to completion takes exactly one poll more than the Pending answers, invokes exactly the callbacks owed in order, and returns the promised report |
| EffectScopeRuns.OwedConserved | crates/yah-compose/src/effect_scope.rs:303-467 | For every event anywhere in a scope tree: callbacks owed plus callbacks invoked balance callbacks registered, identity by identity |
| EffectScopeRuns.IdsUnique | crates/yah-compose/src/effect_scope.rs:257-264 | Registration identities never repeat, and scope identities in a tree stay distinct |
| EffectScopeRuns.InvokedExactlyOnce | crates/yah-compose/src/effect_scope.rs:233-467 | Over every life of a tree and every schedule of polls: no callback is invoked twice or unregistered, and when the root is closed each has been invoked |
| EffectScopeRuns.ReportMirrorsRegistrations | crates/yah-compose/src/effect_scope.rs:303-372 | The final report, at every level, lists registrations and children in exact reverse order of registration, each child at its creation position |
| Lifecycles.FencedForever | crates/yah-compose/src/lifecycle.rs:135-147 | Once an activation is over, no operation carrying its epoch ever does anything again, whatever happens in between |
| Lifecycles.ActivationsNeverOverlap | crates/yah-compose/src/component.rs:163-255 | Over any sequence of operations, of two activations of one instance the later has a larger epoch and the earlier was settled in between |
| Lifecycles.RemovedForever | crates/yah-compose/src/component.rs:258-266 | A removed instance stays exactly as it is |
| Lifecycles.Incarnations.Mint | crates/yah-compose/src/component.rs:114-134 | Incarnations are handed out once each; an exhausted counter refuses and stays put |
| Lifecycles.ComponentInstance.constructor | crates/yah-compose/src/component.rs:114-134 | A new instance is pending, with no activation and no failure |
| Lifecycles.ComponentInstance.Admit | crates/yah-compose/src/lifecycle.rs:135-147 | Admits exactly the live activation |
| Lifecycles.ComponentInstance.Start | crates/yah-compose/src/component.rs:163-174 | A start hands out an epoch above every earlier one; epochs that are over stay over, and a refusal leaves no trace |
| Lifecycles.ComponentInstance.Activate | crates/yah-compose/src/component.rs:178-188 | Only the live starting epoch becomes active; an epoch that is over is always refused |
| Lifecycles.ComponentInstance.Fail | crates/yah-compose/src/component.rs:191-210 | Records the failure with the phase it happened in and keeps the epoch live; an epoch that is over is always refused |
| Lifecycles.ComponentInstance.Stop | crates/yah-compose/src/component.rs:218-237 | Enters teardown toward the given target with the epoch still live; an epoch that is over is always refused |
| Lifecycles.ComponentInstance.Settle | crates/yah-compose/src/component.rs:243-255 | Settling is what ends an epoch: it was live before and is over for good afterwards |
| Lifecycles.ComponentInstance.Remove | crates/yah-compose/src/component.rs:258-266 | Removes only a pending instance; epochs that are over stay over |
| ReconciledComponents.ReconciledComponent.constructor | crates/yah-compose/src/reconcile/reconciled_component.rs:35-47 | A mounted component is coherent, pending and owns a fresh instance |
| ReconciledComponents.ReconciledComponent.BeginStop | crates/yah-compose/src/reconcile/reconciled_component.rs:471-495 | Teardown stops the lifecycle and seals the effect scope in one step, or neither |
| ReconciledComponents.ReconciledComponent.Reconcile | crates/yah-compose/src/reconcile/reconciled_component.rs:110-152 | Keeps coherence and every epoch fence; an activation begins only from pending with no resources |
| ReconciledComponents.ReconciledComponent.CompleteStart | crates/yah-compose/src/reconcile/reconciled_component.rs:301-342 | Keeps coherence; any epoch but the live one is refused without a trace |
| ReconciledComponents.ReconciledComponent.FailActivation | crates/yah-compose/src/reconcile/reconciled_component.rs:277-299 | Keeps coherence, so a failure is never left standing; any epoch but the live one is refused without a trace |
| ReconciledComponents.ReconciledComponent.PollStop | crates/yah-compose/src/reconcile/reconciled_component.rs:344-395 | Polls the owned effect scope as its contract says, settles the lifecycle on a clean report only, and keeps coherence; a refused call polls nothing and leaves no trace |
| ReconciledComponents.ReconciledComponent.RequestStop | crates/yah-compose/src/reconcile/reconciled_component/desired_stop.rs:5-52 | Keeps coherence and every epoch fence whatever the state |
| ReconciledComponents.ReconciledComponent.AbandonFailedCleanup | crates/yah-compose/src/reconcile/reconciled_component/desired_stop.rs:54-90 | Frees the activation only over an unclean report; a refusal leaves no trace |
| ReconciledComponents.ReconciledComponent.DeferCleanup | crates/yah-compose/src/reconcile/reconciled_component.rs:216-252 | Registers into the live activation and keeps coherence |
| Components.ReconcileKeeps | crates/yah-compose/src/reconcile/reconciled_component.rs:110-152 | Reconciling keeps the component coherent; an activation begins only from Pending with none live, under the next epoch, and none ever ends here |
| Components.FinishStartKeeps | crates/yah-compose/src/reconcile/reconciled_component.rs:301-342 | Completing a start keeps coherence, the live activation, and reports active only for the epoch presented |
| Components.FailActivationKeeps | crates/yah-compose/src/reconcile/reconciled_component.rs:277-299 | A failed activation goes straight into teardown; Failed is never seen between operations |
| Components.RequestStopKeeps | crates/yah-compose/src/reconcile/reconciled_component/desired_stop.rs:5-52 | A stop request keeps coherence, removes only with no live activation, and to Removed never fails |
| Components.FinishStopKeeps | crates/yah-compose/src/reconcile/reconciled_component.rs:344-395 | An activation ends here only on a clean report, and that report is the one its effect scope promised |
| Components.AbandonKeeps | crates/yah-compose/src/reconcile/reconciled_component/desired_stop.rs:54-90 | Abandoning ends an activation only when its scope is closed with an unclean report; otherwise nothing changes |
| Components.DeferCleanupKeeps | crates/yah-compose/src/reconcile/reconciled_component.rs:216-252 | Registering a cleanup keeps coherence and the live activation |
| Components.StaleEpochChangesNothing | crates/yah-compose/src/reconcile/reconciled_component.rs:579-614 | Any operation carrying an epoch other than the live one fails and leaves the component as it was |
| ComponentSlots.StepRelated | crates/yah-compose/src/desired_state/component_slot.rs:116-297 | Every slot operation: a mounted revision or instance never changes in place, epochs only grow, an activation begins only with none live, over a fresh effect scope, and ends only with the report that scope promised, clean or abandoned unclean |
| ComponentSlots.NeverStuck | crates/yah-compose/src/desired_state/component_slot.rs:116-297 | In every life of a slot every operation stays defined |
| ComponentSlots.StartsOnlyAfterTeardown | crates/yah-compose/src/desired_state/component_slot.rs:363-484 | Over every life: a new activation begins only when each earlier one is over: everything registered under it was invoked exactly once, its report lists exactly that in reverse order, and the report was clean or explicitly abandoned; no epoch is used twice |
| ComponentSlots.EndsWithPromisedReport | crates/yah-compose/src/desired_state/component_slot.rs:259-297 | The report an activation ends with is the one its effect scope promised, and the recorded ending carries it |
| ComponentSlots.DesiredHistory | crates/yah-compose/src/desired_state/component_slot.rs:299-361 | Between any two moments: a revision identity keeps one definition and scope, and desired content moved only to larger generations |
| ComponentSlots.NoDirectSwap | crates/yah-compose/src/desired_state/component_slot.rs:363-484 | If the mounted revision differs between two moments, the slot was unmounted in between |
| ComponentSlots.RefusalChangesNothing | crates/yah-compose/src/desired_state/component_slot.rs:116-153 | An operation that answers an error leaves the whole slot as it was |
| ComponentSlots.ComponentSlot.Accept | crates/yah-compose/src/desired_state/component_slot.rs:299-361 | Accepting desired state: every admission rule in order, and no change on refusal |
| ComponentSlots.ComponentSlot.Dismiss | crates/yah-compose/src/desired_state/component_slot.rs:410-460 | Disabling or removing stops the mounted component, or unmounts it when nothing is live |
| ComponentSlots.ComponentSlot.Converge | crates/yah-compose/src/desired_state/component_slot.rs:363-408 | Enabling mounts a new component object under a freshly minted incarnation, reconciles the same revision, or retires another one first |
| ComponentSlots.ComponentSlot.Reconcile | crates/yah-compose/src/desired_state/component_slot.rs:116-153 | A whole pass equals its transition on the slot and keeps it coherent; a refusal leaves no trace |
| ComponentSlots.ComponentSlot.CompleteStart | crates/yah-compose/src/desired_state/component_slot.rs:155-164 | Completing a start uses the assignments of the desired revision that is mounted |
| ComponentSlots.ComponentSlot.FailActivation | crates/yah-compose/src/desired_state/component_slot.rs:243-257 | A failure report is accepted only while the mounted revision is enabled |
| ComponentSlots.ComponentSlot.DeferCleanup | crates/yah-compose/src/desired_state/component_slot.rs:190-219 | Registers a cleanup only under the live epoch of the enabled mounted revision |
| ComponentSlots.ComponentSlot.PollStop | crates/yah-compose/src/desired_state/component_slot.rs:259-280 | One poll of the stop future equals its transition, and a recorded stop names the epoch polled |
| ComponentSlots.ComponentSlot.AbandonFailedCleanup | crates/yah-compose/src/desired_state/component_slot.rs:282-297 | Abandoning records an unclean report, only on a blocked cleanup |
| ComponentSlots.ComponentSlot.Record | crates/yah-compose/src/desired_state/component_slot.rs:560-616 | Every completion becomes the last stop record; the slot unmounts exactly when the stop was for removal and was not blocked |
| Registries.IsVisibleFrom | crates/yah-compose/src/scope.rs:81-93 | The realm shortcut and the walk up the parents decide exactly whether the owner is the consumer scope or an ancestor |
| Registries.GrowthOk | crates/yah-compose/src/scope.rs:36-67 | Roots and children keep the forest well formed |
| Registries.VisibilityFixed | crates/yah-compose/src/scope.rs:54-67 | Adding scopes never changes who is visible from an existing scope |
| Registries.NoConflictIff | crates/yah-compose/src/service/registry.rs:299-308 | Fixing requirements one by one meets no conflict exactly when they agree with what is fixed and among themselves |
| Registries.NoTraceIff | crates/yah-compose/src/service/registry.rs:299-308 | Fixing requirements leaves no trace exactly when every one ahead of the first conflict was fixed already |
| Registries.RefusalLeavesTrace | crates/yah-compose/src/service/registry.rs:299-308 | Two requirements whose inventory is refused and still fixes a contract |
| Registries.ServiceRegistry.EnsureContract | crates/yah-compose/src/service/registry.rs:418-448 | A service contract is fixed by its first use, refused exactly when it differs, and never changes |
| Registries.ServiceRegistry.Provide | crates/yah-compose/src/service/registry.rs:49-110 | Published exactly for an active owner, its own activation, an agreeing contract and an admitted withdrawal; otherwise the first failing check is reported and nothing changes |
| Registries.ServiceRegistry.Candidates | crates/yah-compose/src/service/registry.rs:278-297 | Lists, in identity order, exactly the open providers of the service owned at or above the consumer, all of the contract asked for |
| Registries.ServiceRegistry.Inventory | crates/yah-compose/src/service/registry.rs:299-327 | Succeeds exactly when the requirements agree, and then gives one exact ordered candidate list per requirement |
| Registries.ServiceRegistry.Binding | crates/yah-compose/src/service/registry.rs:329-371 | Succeeds exactly when the provider is listed for the requirement, and the value-type mismatch is unreachable |
| Registries.ServiceRegistry.Bind | crates/yah-compose/src/service/registry.rs:177-222 | Succeeds exactly for a starting consumer, its own open activation and a listed provider whose gate is still open when looked at again after the lock |
| Registries.ServiceRegistry.Withdraw | crates/yah-compose/src/service/registry.rs:373-388 | Removes exactly the entry carrying the marker and revokes exactly its gate |
| Registries.ServiceRegistry.RevokeAll | crates/yah-compose/src/service/registry.rs:390-400 | Nothing remains listed and exactly the gates of the published providers are revoked besides |
| Registries.UsableIff | crates/yah-compose/src/service/handle.rs:96-134 | Over every run of the registry: a handle is usable exactly while the very provider it was bound to is published, that provider scope is open and its consumer is not over, and then it reaches a value of its own contract |
| Registries.RefusedForever | crates/yah-compose/src/service/handle.rs:96-134 | A handle refused once is refused at every later moment; it is never switched to a replacement |
| Registries.WithdrawnForever | crates/yah-compose/src/service/registry.rs:373-400 | After its provider is withdrawn or the registry dropped, every handle bound to it is refused for good and none is bound to it again |
| Registries.ContractsForever | crates/yah-compose/src/service/registry.rs:418-448 | The contract a service was first used with is its contract at every later moment |
| Registries.Resolve | crates/yah-compose/src/reconcile/reconciled_component.rs:497-541 | Ready exactly when every assignment names a candidate of its requirement, and then covers every requirement in order; otherwise lists exactly the issues raised |
| Registries.ResolveAndBind | crates/yah-compose/src/reconcile/reconciled_component.rs:156-190 | Succeeds exactly when the requirements agree and every assigned provider is listed, so every bind of a ready resolution succeeds |
| Frames.FrameDecoder.Feed | crates/yah-plugin-ipc/src/frame.rs:86-90 | Input is appended; a poisoned decoder retains nothing |
| Frames.FrameDecoder.NextFrame | crates/yah-plugin-ipc/src/frame.rs:96-130 | Draws the first complete frame, or poisons on an empty or oversized declaration, or waits |
| Frames.FrameDecoder.Poison | crates/yah-plugin-ipc/src/frame.rs:173-180 | A violation drops the buffer and is remembered |
| Frames.FrameDecoder.Finish | crates/yah-plugin-ipc/src/frame.rs:152-171 | Classifies the end of input from what is left |
| Frames.Encode | crates/yah-plugin-ipc/src/frame.rs:32-47 | A sendable frame is its four-byte big-endian length followed by the frame |
| Frames.RoundTrip | crates/yah-plugin-ipc/src/frame.rs:32-47 | Concatenated encodings of sendable frames decode to exactly those frames, whatever follows |
| Frames.ViolationFinal | crates/yah-plugin-ipc/src/frame.rs:96-130 | Input after a violation changes neither the frames nor the violation |
| Frames.AgreesWithBatch | crates/yah-plugin-ipc/src/frame.rs:86-171 | For every stream, chunking and interleaving of calls: a drained decoder has delivered exactly the frames of batch decoding and reports its violation or its end |
| Frames.DeliversPrefix | crates/yah-plugin-ipc/src/frame.rs:96-130 | What has been delivered is always a prefix of the batch decoding |
| Frames.RetentionBound | crates/yah-plugin-ipc/src/frame.rs:132-150 | A drained decoder holds less than one prefix and one maximal frame; a poisoned one holds nothing |
| Frames.FeedRetains | crates/yah-plugin-ipc/src/frame.rs:84-90 | A feed to a live decoder stays within one prefix and one maximal frame exactly when the chunk still fits; a waiting decoder exceeds it by less than the chunk |
| Frames.RetentionIff | crates/yah-plugin-ipc/src/frame.rs:84-90 | Over any use, the bound holds at every moment exactly when every feed to a live decoder fits beside what is buffered |
| Frames.DrainedFeedExceeds | crates/yah-plugin-ipc/src/frame.rs:84-90 | Draining before every feed is not enough: two bytes fed to a decoder that waits for the last byte of a maximal frame exceed the bound |
| Frames.MaximalHead | crates/yah-plugin-ipc/src/frame.rs:84-90 | Such an input exists |
| Frames.DecodeChunks | crates/yah-plugin-ipc/src/frame.rs:86-171 | Feeding and draining chunk by chunk computes the batch decoding of their concatenation |
| StrictJson.RefuseOverflowingIntegers | crates/yah-plugin-ipc/src/strict.rs:64-115 | The index loop computes the scan of every byte string, and terminates |
| StrictJson.ScanToken | crates/yah-plugin-ipc/src/strict.rs:64-115 | One number token is consumed whole, or handed back when it is an integer outside 64 bits |
| StrictJson.ScanDecidesOverflow | crates/yah-plugin-ipc/src/strict.rs:40-115 | On every text of the RFC 8259 grammar the scan refuses exactly when some integer literal is outside the 64-bit range, and names the first one |
| StrictJson.VisitAdmits | crates/yah-plugin-ipc/src/strict.rs:162-215 | Building the value refuses exactly unsafe integers and repeated member names, at every depth |
| StrictJson.StrictAdmission | crates/yah-plugin-ipc/src/strict.rs:48-62 | Scan and walk together admit a text exactly when every integer is in the interoperable range of section 2.2 of RFC 7493 and no object repeats a name |
| Cancellation.Freeze | crates/yah-kernel/src/cancel.rs:229-281 | The loops compute the frozen scope, or the first error in check order |
| Cancellation.FreezeSucceedsIff | crates/yah-kernel/src/cancel.rs:229-281 | Freezing succeeds exactly on bounded proposals under the root with distinct identifiers |
| Cancellation.FrozenIsCanonical | crates/yah-kernel/src/cancel.rs:229-281 | A frozen scope holds exactly the proposed members, strictly leaf first, numbered from zero |
| Cancellation.FreezeIgnoresOrder | crates/yah-kernel/src/cancel.rs:229-281 | A successful freeze does not depend on the order of the proposal |
| Cancellation.Validate | crates/yah-kernel/src/cancel.rs:197-221 | A scope validates exactly when its identifiers are well formed and it equals the freeze of its own members |
| Cancellation.Search | crates/yah-kernel/src/cancel.rs:296-314 | Binary search over the canonical order finds a key exactly when it is present |
| Cancellation.Find | crates/yah-kernel/src/cancel.rs:296-314 | On every frozen scope the four partitioned searches return what a linear scan returns |
| Cancellation.Governs | crates/yah-kernel/src/cancel.rs:340-354 | Under cascade a request governs exactly its attached members; otherwise exactly its root |
| Cancellation.SettledIff | crates/yah-kernel/src/funnel/cancel_rules.rs:49-79 | Settled exactly when every frozen member has a discharged row |
| Cancellation.StatusIgnoresOrder | crates/yah-kernel/src/funnel/cancel_rules.rs:49-79 | Status depends only on the set of rows |
| Cancellation.StatusOnlyAdvances | crates/yah-kernel/src/funnel/cancel_rules.rs:49-79 | As write-once rows accumulate status never moves backwards, and an unresponsive member rules out Settled for good |
| Cancellation.StatusAdvancesIff | crates/yah-kernel/src/funnel/cancel_rules.rs:49-79 | For rows of any kind, status moves backwards for no scope exactly when no discharged identifier is undischarged by a later row |
| Cancellation.UndischargedFallsBack | crates/yah-kernel/src/funnel/cancel_rules.rs:49-79 | Otherwise the scope of that one member falls back |
| Cancellation.SecondRowUnsettles | crates/yah-kernel/src/funnel/cancel_rules.rs:49-79 | Without the write-once key this fails: a second row for a member unsettles a settled request |
| Decimals.PairRoundTrip | crates/exp001-harness/src/store/mod.rs:185-194 | A composite key reads back as exactly the numbers it was written from |
| Decimals.TripleInjective | crates/exp001-harness/src/store/mod.rs:416-430 | The event key text identifies aggregate, version and ordinal |
| Decimals.OperationInjective | crates/exp001-harness/src/workload.rs:270-276 | The operation key text identifies unit and command |
| FunnelStore.AppliedRows | crates/exp001-harness/src/store/mod.rs:280-483 | Exactly which rows an accepted command changes, table by table, and that nothing else does |
| FunnelStore.LineageKept | crates/exp001-harness/src/store/mod.rs:282-414 | Every unit always has its current attempt and lease on record, so the missing-attempt error is unreachable |
| FunnelStore.FreeMeansNoClash | crates/exp001-harness/src/store/schema.rs:54-140 | A key is free over the tables exactly when no row of the graph shares a unique property |
| FunnelStore.AppendRows | crates/exp001-harness/src/store/mod.rs:280-483 | Appending a write set passes the uniqueness check exactly when every key in it is new |
| Stores.Store.constructor | crates/exp001-harness/src/store/mod.rs:127-141 | A new store is coherent and holds no rows |
| Stores.Store.Recover | crates/exp001-harness/src/store/mod.rs:145-153 | Recovery over a durable graph gives a coherent store over the same rows |
| Stores.Store.RebuildBooks | crates/exp001-harness/src/store/mod.rs:157-197 | The scan rebuilds the address book, and after any commits it equals the book apply maintained |
| Stores.Store.Check | crates/exp001-harness/src/store/mod.rs:218-278 | The version, epoch and holder checks, in order, against the rows as they stand |
| Stores.Store.UpdateRows | crates/exp001-harness/src/store/mod.rs:282-414 | The in-place updates of unit, lease and attempt; the attempt is never missing |
| Stores.Store.Stage | crates/exp001-harness/src/store/mod.rs:280-481 | The staged graph is unique exactly when the command is accepted, and then holds the whole write set |
| Stores.Store.Apply | crates/exp001-harness/src/store/mod.rs:202-502 | One command commits its whole write set or nothing, answers the exact outcome, and keeps graph and book coherent |
| Stores.Store.AuditSnapshot | crates/exp001-harness/src/store/mod.rs:624-717 | The snapshot loop returns exactly the rows of the store by key |
| Audits.ScoreRecord | crates/exp001-harness/src/audit.rs:53-115 | Exactly the losses and disagreements one confirmed record shows |
| Audits.GroupVersions | crates/exp001-harness/src/audit.rs:122-128 | Groups count, per aggregate and version, exactly the events there |
| Audits.VersionsExactIff | crates/exp001-harness/src/audit.rs:129-142 | The sorted versions read 1 to V exactly when each occurs once and no other does |
| Audits.ScoreUnits | crates/exp001-harness/src/audit.rs:129-150 | Each unit takes its own group; what is left over belongs to no unit |
| Audits.CountReceipts | crates/exp001-harness/src/audit.rs:158-161 | Counts exactly the receipts that reference each event |
| Audits.ScoreEvents | crates/exp001-harness/src/audit.rs:162-186 | Events with no receipt or several, and the counts no event claims |
| Audits.NonterminalIntents | crates/exp001-harness/src/audit.rs:191-205 | Exactly the pending intents whose operation has no terminal row, each once |
| Audits.NoViolationIff | crates/exp001-harness/src/audit.rs:49-186 | No violation is earned exactly when every confirmed record is present, each unit at V has one event at each version 1 to V, events and receipts match one to one, nothing is orphaned and artifact references resolve |
| Audits.Score | crates/exp001-harness/src/audit.rs:49-214 | The report lists exactly the violations earned, is empty exactly on whole stores, and names exactly the open intents |
| FunnelLogs.HistoryConsistent | crates/exp001-harness/src/store/mod.rs:202-502 | Whatever well-formed commands are submitted in whatever order, the rows agree with each other |
| FunnelLogs.CrashKeepsWhole | crates/exp001-harness/src/audit.rs:49-186 | Every prefix of every history that holds the confirmed commits passes the audit |
| FunnelLogs.AcceptedDistinct | crates/exp001-harness/src/store/schema.rs:54-140 | No two accepted commands share a receipt, and no two dispatches an attempt |
| FunnelLogs.HistoryBounded | crates/exp001-harness/src/store/mod.rs:282-360 | Attempts and leases exist only up to their unit epoch |
| Workloads.PackedId | crates/exp001-harness/src/workload.rs:256-275 | Only sixteen bits of the writer survive the packing of event and intent identifiers |
| Workloads.EventIdsEqualIff | crates/exp001-harness/src/workload.rs:256-275 | Two commands share identifiers exactly when they share a sequence number and their writers agree modulo 65536 |
| Workloads.XorDiffers | crates/exp001-harness/src/workload.rs:242-253 | A flipped holder is never the holder of record |
| Workloads.UnitPool.constructor | crates/exp001-harness/src/workload.rs:103-119 | A new pool has one ready slot per unit |
| Workloads.UnitPool.Release | crates/exp001-harness/src/workload.rs:124-155 | A refused command leaves its slot as it was, a retiring one hands it to a new unit, any other moves it on; no other slot changes |
| Workloads.WriterStream.NextSpec | crates/exp001-harness/src/workload.rs:181-311 | Claims exactly one free slot and builds its next command; with none free nothing is consumed |
| FunnelRuns.VerdictAsPlanned | crates/exp001-harness/src/workload.rs:224-254 | Against an agreeing store a command is current unless planned stale, and then stale in the planned way |
| FunnelRuns.OutcomeAsPlanned | crates/exp001-harness/src/worker.rs:98-190 | In every invariant world a held command is accepted unless planned stale, and never meets a duplicate key |
| FunnelSafety.StepKeeps | crates/exp001-harness/src/worker.rs:98-190 | Claim, submit, confirm and release by any writer keep the whole invariant |
| FunnelSafety.PoolAgreesWithStore | crates/exp001-harness/src/workload.rs:124-311 | For any number of writers up to 65536 and any interleaving: every unclaimed slot agrees with the store, every answer is the planned one, and no writer panics |
| FunnelSafety.CrashAuditsClean | crates/exp001-harness/src/worker.rs:130-158 | For every run and every crash keeping a prefix with all confirmed commits, the audit finds nothing |
| FunnelSafety.CompletionUsesOpenKey | crates/exp001-harness/src/workload.rs:270-289 | In every run a working slot carries the key its unit latest dispatch opened, and every tool completion held on it, planned stale or not, carries that key; the self-keyed fallback never fires |
| FunnelSafety.OpenIntentsExact | crates/exp001-harness/src/audit.rs:188-205 | In every durable prefix the reported open intents are exactly the dispatches with no later tool completion in the same unit and epoch |
| FunnelSafety.TooManyWritersPanic | crates/exp001-harness/src/workload.rs:256-275 | The limit is exact: with any number of writers above 65536 a run of four steps ends in a panic |
| FunnelSafety.SharedIdentifierRefused | crates/exp001-harness/src/workload.rs:256-275 | Beyond 65536 writers, the second of two commands sharing an identifier is never accepted |

## Left out

- Plugin processes, sockets, signals and the Wasm host: I/O and wrappers around other engines.
- Plugin manifests and identity: field validation would add only easy members.
- Kernel admission lineage and the planning core: they read a graph store outside this model.
- Orchestration, benchmarking, the sidecar file format and kill timing: process control and measurement; a crash is any durable prefix.
- Journal mutation probes and deletes of the store (`try_update_event`, `apply_delete`): single typed refusals.
- Diagnostic text: labels, error wording and violation details appear as the values they print, not as text.
- Machine width of versions, epochs, steps and unit identifiers in the funnel: natural numbers; only identifier packing is modelled at 64 bits, with the bitwise or of disjoint bits as addition.
- Panic payloads, wakers and memory orderings.
- Components.ReconcileKeeps: the registry a component resolves against is an arbitrary answer here; it is modelled by itself in the registry module.
- EffectScopeRuns.EffectScope.Register: labels are not modelled; a subtree is a value inside its parent, so aliasing of scopes does not arise.
- GatedTeardowns.StepKeeps: the teardown's polls are split into their loop turns, and other threads may step between any two of them; wakers are not modelled.
- Stores.Store.Apply: generation and durability cursors are not modelled, and the address-book lock and the transaction are one atomic step.
- Workloads.WriterStream.NextSpec: the pick and the rolls are parameters; equal ones give equal commands, but drawing them from a seed is not modelled.
- StrictJson.StrictAdmission: the JSON library's own refusals are not modelled, neither of texts outside the grammar nor of texts inside it (numbers beyond the range of a double, nesting past its depth limit, lone surrogates, invalid UTF-8); unescaping of member names is a parameter.
- Audits.Score: the order of violations follows map iteration in the code and is not stated.

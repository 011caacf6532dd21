# attyd host: verified model

attyd stands between browsers and one agent that speaks the Agent Client Protocol over its standard
streams. What is hard in it is concurrent state in memory: identities that fence late messages, values
that must have exactly one owner, transactions that roll back, revisions that make stale work fail, and
wakeups that must not be lost. This project models those state machines and proves what holds in every
state of every run, plus four sequential algorithms (the pattern scanner, the line splitter, the form
validators, the attachment projection) against independent definitions.

Concurrent parts are step machines: one step per locked section or per atomic operation made outside a
lock, in any order. `IsRun` says that a sequence of states starts at the initial state and each follows
from the one before by an enabled action; the theorems quantify over all runs. The objects of the source
that update their fields are classes. Where there is a machine, their methods are proved to have exactly the
effect of its functions: of one step, or of a whole call made of steps. Beside it most contracts say what
becomes of each field without naming those functions.

| files | part |
|---|---|
| `CompletionHandoff`, `HandoffInvariant`, `HandoffRuns`, `HandoffCalls`, `HandoffOrder`, `HandoffRegistry` | the registry that hands an ordered completion and its delivery guard to one waiting task |
| `SessionIngest`, `IngestRuns`, `EarlyEntries`, `BridgeIngest`, `Sums` | creation staging with its accounting, and replay validation as a transaction |
| `Catalog` | catalog revision, paged lists, deletion reservations |
| `RuntimePublication`, `PublicationRuns`, `JournalRelease`, `RuntimePublisher`, `RuntimeScopes`, `RegistryRuns` | the delta journal, its publication to the hub, the hub's fold with its revision checks, and the hub against the registry |
| `AutoClose`, `AutoCloseRuns`, `AutoCloseDecisions`, `SessionObservers` | absence intervals, permits and the automatic close |
| `PromptBarrier`, `PromptRuns`, `PromptObjects` | the barrier that keeps a shutdown behind prompts being sent |
| `EventQueue`, `EventRuns`, `EventChannel` | byte accounting of the event queue |
| `RegexScanner` | the one-pass scan for complex quantified groups |
| `FormValidation`, `FormAgreement`, `FormSchemas`, `FormValidators`, `Json` | form requests and responses |
| `NdjsonFraming` | the line splitter and the line writer |
| `Attachments`, `AttachmentPass`, `AttachmentLinks`, `AttachmentResolution`, `AttachmentMeaning`, `AttachmentVisitor`, `Base64` | attachment projection, resolution and sizes |

Assumptions: a dropped delivery guard frees its session exactly when it is dropped; one `Notify` stores at
most one permit and wakes its one waiter; a one-shot or unbounded channel delivers in order, at most once.

Some behaviour is narrower than a reader of the source would assume. It is kept as it is and its exact
condition is a theorem: the pattern scanner carries a closed group over whitespace, so a quantified space
after a complex group is flagged (`RegexScanner.SpaceAfterGroupIsFlagged`,
`RegexScanner.ScannerErrsExactlyOnGaps`); a second completion or discard of an unbound registration is
rejected in favour of the first even when the first turns out not to match
(`HandoffOrder.CompletionOrderMatters`, `HandoffOrder.DiscardOrderMatters`, with reachable states in
`HandoffOrder.EarlyAnswerIsLost`); a form may require a property of an unknown type and then cannot be
answered (`FormAgreement.UnknownTypesAreUnanswerable`, with such a form in
`FormAgreement.AcceptedButUnanswerable`); the bounds of an integer property are compared as numbers only
(`FormAgreement.IntegerAnswerable`, `FormAgreement.BoundsWithoutIntegers`); and an early update finds no
staged creation, where the source asserts one, exactly when its owner is the validation of the session itself
and nothing is staged for that session any more (`EarlyEntries.EarlyEntryMissing`,
`EarlyEntries.EarlyOwnerMissesEntry`, with runs that get there, for instance while the session is deleted, in
`EarlyEntries.InstalledOwnerCanMiss` and `EarlyEntries.PromotedOwnerCanMiss`).

## Model

| member | source | states |
|---|---|---|
| HandoffRuns.RunKeepsInv | src/completion_handoff.rs:138-453 | The inductive invariant of the registry, channels, guards and pump holds in every state of every run of register, handoff, bind, discard, retirement, close, drop and the unlocked drops that follow them |
| HandoffRuns.GuardInExactlyOnePlace | src/completion_handoff.rs:76-121 | Every guard ever passed in is always in exactly one place: parked, buffered in a receiver, owned by a task, or released |
| HandoffRuns.ReleasedOnce | src/completion_handoff.rs:107-113 | No guard is released twice |
| HandoffRuns.ReleasedForever | src/completion_handoff.rs:107-113 | Releases are final: those of an earlier state are a prefix of those of a later one |
| HandoffRuns.NoFreedSessionIsMissed | src/completion_handoff.rs:107-113 | Each release was followed by its wake or the wake is still owed, never both; a pump parked without a permit while none is owed has scanned after the last release |
| HandoffRuns.FencedDelivery | src/completion_handoff.rs:193-235 | A received turn carries the registration's whole owner tuple and the request it bound, and no registration receives two, even when owners are withdrawn and reused |
| HandoffRuns.RegistrationsKeepIdentity | src/completion_handoff.rs:344-356 | A registration's owner never changes, nor its request once bound |
| HandoffRuns.ReachableEntries | src/completion_handoff.rs:115-121 | A reachable entry parks at most one of a completion and a tombstone and neither once bound; a parked completion is its own owner's, whose registration lives and received nothing |
| HandoffRuns.ShutdownReleasesEverything | src/completion_handoff.rs:329-340 | After close, with all registrations dropped and all tasks done, every guard was released and its wake sent |
| HandoffRuns.DropSparesOtherAllocations | src/completion_handoff.rs:430-453 | Dropping a registration removes the entry of its own allocation and no other |
| HandoffRuns.RetireRemovesExactlyTheIncarnation | src/completion_handoff.rs:292-325 | Retiring a session removes exactly the entries of that epoch, session and incarnation, each to be dropped |
| HandoffRuns.ReachableEndsRun | src/completion_handoff.rs:138-453 | A state reached by steps from the initial one is the last of a run, so what holds of runs holds of it |
| HandoffRuns.ReachedKeeps | src/completion_handoff.rs:344-356 | From any state to any state it reaches, releases are final and registrations keep owner and bound request |
| HandoffRuns.ClosedRefuses | src/completion_handoff.rs:193-239 | In every run, once the registry was closed it has no entry and takes none; every completion is answered as closed and its guard is owed for release, and every registration and binding is refused |
| HandoffCalls.HandoffCallIsSteps | src/completion_handoff.rs:193-239 | A whole uninterrupted handoff, with the drops it causes, is a sequence of enabled steps and keeps the invariant |
| HandoffCalls.DiscardCallIsSteps | src/completion_handoff.rs:241-290 | The same for a whole discard |
| HandoffCalls.BindCallIsSteps | src/completion_handoff.rs:358-413 | The same for a whole bind, in each of its outcomes |
| HandoffCalls.DropRegistrationCallIsSteps | src/completion_handoff.rs:430-453 | The same for dropping a registration and its receiver |
| HandoffOrder.CompletionAndBindCommute | src/completion_handoff.rs:193-235 | With nothing parked, a completion before the binding and after it leave the same state, for matching and other requests alike |
| HandoffOrder.DiscardAndBindCommute | src/completion_handoff.rs:241-288 | The same for a discard |
| HandoffOrder.CompletionOrderMatters | src/completion_handoff.rs:212-235 | With something parked, order matters exactly when the completion answers the bound request and the parked one names another |
| HandoffOrder.DiscardOrderMatters | src/completion_handoff.rs:264-288 | With something parked, a discard's order matters exactly when it names the bound request while a completion or another request's tombstone is parked |
| HandoffOrder.EarlyAnswerIsLost | src/completion_handoff.rs:212-235 | For every owner, in the reachable state where a completion of another request is parked, the answer to the bound request, or its discard, has another outcome before the binding than after it |
| HandoffRegistry.CompletionRegistry.Register | src/completion_handoff.rs:153-188 | Refuses as closed exactly when closed and as taken exactly when the owner has an entry; otherwise adds an unbound entry with nothing parked under a fresh allocation |
| HandoffRegistry.CompletionRegistry.Handoff | src/completion_handoff.rs:193-239 | In the old fields: refused exactly when closed, unregistered exactly without an entry, and else parked, sent, refused or rejected by what the entry had bound and parked, with the entry that results. As a whole call: the old state reaches the new one by steps and the invariant is kept |
| HandoffRegistry.CompletionRegistry.Discard | src/completion_handoff.rs:241-290 | The same for discard: what was met, in the old fields, and the entry that results |
| HandoffRegistry.CompletionRegistry.Bind | src/completion_handoff.rs:358-413 | The same for bind: refused exactly when bound before, closed, or withdrawn, that is without the entry of this allocation, and else discarded, delivered or awaiting a completion by what was parked, with what results; the arm for an entry with both a completion and a tombstone cannot run |
| HandoffRegistry.CompletionRegistry.Wait | src/completion_handoff.rs:415-422 | One poll: takes a buffered turn, stays registered exactly when bound with an open empty channel, and otherwise reports the completion unavailable |
| HandoffRegistry.CompletionRegistry.DropRegistration | src/completion_handoff.rs:430-453 | Removes the entry of the registration's own allocation and no other, and drops what it parked or buffered |
| HandoffRegistry.CompletionRegistry.DiscardSession | src/completion_handoff.rs:292-325 | Removes exactly the entries of that epoch, session and incarnation, drops them in some order, and wakes for each released guard |
| HandoffRegistry.CompletionRegistry.Close | src/completion_handoff.rs:329-340 | Closes, removes every entry and drops them in some order |
| IngestRuns.AccountingIsExact | src/bridge.rs:687-709 | In every run the global early-update count and bytes are the sums over the staged entries, so nothing saturates |
| SessionIngest.NeverSaturates | src/bridge.rs:693-707 | Each staged entry's count and bytes are at most the totals, so no saturating subtraction loses anything |
| IngestRuns.BackupHeldUntilEnded | src/bridge.rs:986-1049 | The owner of a replay holds its backup exactly as long as no step ended the session's resources, committed or rolled the replay back, or began another |
| IngestRuns.ReplayIsATransaction | src/bridge.rs:986-1049 | As long as no such step came, whatever else did, rollback by the owner restores the validation current at begin, and commit keeps the candidate with its allocation and its tracking, both counts at zero and no invalid reason; either ends the transaction |
| IngestRuns.OldOwnersArePowerless | src/bridge.rs:1025-1049 | Once an owner's backup is gone, its commits and rollbacks never change anything again |
| IngestRuns.BeginSupersedes | src/bridge.rs:986-1023 | A newer begin on the session leaves the older owner without a backup |
| IngestRuns.EarlyOwnerMatches | src/bridge.rs:226-247 | At any later point of a run, exactly when an owner captured for a staged creation matches: only under its own identifier, while staged without a live session or while the promoted validation is current |
| IngestRuns.PromotionKeepsOwner | src/bridge.rs:711-748 | From promotion on, at any later point of a run, the early owner and the owner with the installed incarnation match exactly while the promoted validation is the session's current one |
| IngestRuns.DiscardUnhouses | src/bridge.rs:702-709 | Discarding a staged creation leaves its allocation nowhere |
| IngestRuns.EndingUnhouses | src/bridge.rs:226-247 | Reallocating, retiring or clearing a session leaves its validation and its backup nowhere |
| IngestRuns.DiscardedOwnersNeverMatch | src/bridge.rs:226-247 | An owner whose allocation is nowhere never matches again in the run |
| IngestRuns.EarlyOwnerMatchesOneSession | src/bridge.rs:236-238 | At no later point of a run does an owner captured for a staged creation match under another session identifier |
| EarlyEntries.StagedExactlySince | src/bridge.rs:687-748 | In every run a creation is staged exactly when a step staged it and none has discarded or promoted it since |
| EarlyEntries.EarlyEntryMissing | src/bridge.rs:3137-3144 | An update whose owner matches and that arrives early finds no entry exactly when its owner is the session's own validation and nothing was staged for the session since its last entry went |
| EarlyEntries.EarlyOwnerMissesEntry | src/bridge.rs:3137-3144 | An owner captured for a staged creation finds no entry exactly when that creation was promoted, its validation is still the session's, and none was staged since |
| EarlyEntries.InstalledOwnerCanMiss | src/bridge.rs:3137-3144 | A run to a state in which the owner of an installed session matches, its update arrives early, and the entry is missing |
| EarlyEntries.PromotedOwnerCanMiss | src/bridge.rs:3137-3144 | The same for the owner captured for a creation that was promoted since |
| BridgeIngest.BridgeState.BeginReplayValidation | src/bridge.rs:986-1023 | Installs a fresh candidate, keeps the current validation as backup under the returned owner |
| BridgeIngest.BridgeState.CommitReplayValidation | src/bridge.rs:1025-1034 | Takes the backup of this owner and no other; a candidate it still owns keeps its allocation and tracking and is otherwise reset, field by field |
| BridgeIngest.BridgeState.RollbackReplayValidation | src/bridge.rs:1036-1049 | Restores the backup of this owner if it still owns the validation |
| BridgeIngest.BridgeState.CaptureOwner | src/bridge.rs:2962-3015 | The owner of an incoming update: the session's validation, or the staged creation, or none; says in the old fields when it stages one, which it never does for a retired or empty identifier, one beyond the pending creations, or none pending |
| BridgeIngest.BridgeState.AppendEarlyUpdate | src/bridge.rs:3023-3149 | Drops, sends on to the session or stores the update, adding its size to the entry and to both totals; says exactly when the staged entry that the source expects is missing |
| BridgeIngest.BridgeState.TakeCreationNotifications | src/bridge.rs:687-700 | Returns the staged notifications and takes them out of the totals, leaving the entry |
| BridgeIngest.BridgeState.DiscardCreationStaging | src/bridge.rs:702-709 | Removes the entry and its part of the totals |
| BridgeIngest.BridgeState.ClearPendingCreationReplays | src/bridge.rs:680-685 | Discards every staged creation |
| BridgeIngest.BridgeState.PromoteCreationValidation | src/bridge.rs:711-748 | Moves the staged validation into the session's resources |
| Catalog.StalePagesNeverCommit | src/bridge.rs:3891-3921 | A page is written only if nothing advanced the catalog since its request began |
| Catalog.DeletedStaysAbsent | src/bridge.rs:4837-4838 | A deleted identifier stays absent until a list that began after the delete commits a page with it |
| Catalog.ChainedPagesShareOneRevision | src/bridge.rs:3891-3897 | Pages chained by an earlier page's revision commit under that one revision |
| Catalog.ForeignRevisionIsRefused | src/bridge.rs:6371-6384 | A page bound to another revision or epoch is refused before it is requested |
| Catalog.BoundPageStartsUntilAdvance | src/bridge.rs:6371-6384 | In every run a page bound to an earlier state's revision is requested if and only if nothing advanced the catalog since |
| Catalog.OldReleaseFreesNothing | src/bridge.rs:6860-6888 | Releasing a reservation that is gone frees nothing, whoever reserved the session since |
| Catalog.ReservationIsExclusive | src/bridge.rs:6819-6858 | While a session is reserved no second reservation is made and only the holder's release frees it |
| Catalog.OperationIsExclusive | src/bridge.rs:6771-6800 | The delete of a tracked session bars a second one and ends only with the session or by the release of its own incarnation and request, never once uncertain |
| Catalog.InsertMeans | src/bridge.rs:3909-3921 | After a page exactly its sessions and those listed before are listed, each with its last row of the page or else the row it had |
| Catalog.RowsSurvive | src/bridge.rs:3909-3921 | In every run a row stays as it is until a first page is committed, a page lists its session again, or the session is deleted or forgotten |
| Catalog.CatalogState.CommitPage | src/bridge.rs:3909-3921 | Writes the page under the request's revision only, row by row: every row of the page is listed, the last of a session winning, and others stay unless it is a first page |
| Catalog.CatalogState.ReserveDeletion | src/bridge.rs:6819-6858 | Refuses, reserves the session or reserves the catalog row under a fresh allocation |
| Catalog.CatalogState.ReleaseDeletion | src/bridge.rs:6860-6888 | Frees the catalog reservation of this allocation and request, or the tracked session's operation of this incarnation and request unless uncertain, and nothing else |
| Catalog.CatalogState.FinishCatalogDelete | src/bridge.rs:4835-4839 | Releases in any case; on success removes the listing and advances the revision |
| PublicationRuns.HubFollowsCanonicalState | src/server.rs:357-398 | For any fold that may refuse a change: after any part of the events that reached it, under any failures and snapshots, the hub has no projection or the canonical state at its sequence; after all of them it is at what was published; it never loses one |
| PublicationRuns.HubHasProjection | src/server.rs:357-388 | In every run, after any part of the events that reached it, the hub has a projection if and only if a snapshot was among them |
| PublicationRuns.HubTakesDelta | src/server.rs:390-396 | A delta is folded in exactly when it continues the projection's sequence and the fold accepts it; otherwise the hub is left without a projection |
| PublicationRuns.AcceptedSnapshotArrives | src/bridge.rs:2364-2373 | An accepted snapshot request puts the canonical state of its moment into the hub's events, for good |
| RuntimeScopes.CommitsAreAccepted | src/server.rs:390-521 | The hub accepts every change that a transition of the registry records, and its fold gives the registry's new state |
| RuntimeScopes.AcceptsExactlyCommits | src/server.rs:397-521 | The hub accepts a change if and only if the registry would record it for some transition in that state, so no older, skipped or foreign one |
| RuntimeScopes.OnlyItsOwnScope | src/server.rs:397-521 | An accepted change leaves every other session as it was, and the connection too unless it changes just that |
| RuntimeScopes.UpdateAcceptedExactly | src/server.rs:432-521 | An update is accepted if and only if it names the session's incarnation and, twice, its next revision, and one of a turn the active operation with an update that folds |
| RuntimeScopes.UpdateDoesExactly | src/server.rs:432-521 | Field by field, what an accepted update makes of its session: a released terminal is gone, another is folded onto the one that was there, all others stay |
| RuntimeScopes.UpsertExactly | src/server.rs:411-431 | A whole session is accepted if and only if it is the next revision of its incarnation or the first of an absent or closed session's new one; it then stands as sent |
| RuntimeScopes.ConnectionAndRemoval | src/server.rs:398-536 | A connection is accepted as the next revision only; a removal is refused only for another incarnation, and the session is gone |
| RuntimeScopes.RegistryCommitIsStep | src/runtime_state.rs:2163-2275 | Every transition of the registry is an enabled step of publication, and the canonical state it leads to is the registry's |
| RegistryRuns.RegistryRunsPublish | src/runtime_state.rs:2163-2275 | Every run of the registry, whatever is flushed, refused or retired, is a run of publication: the hub refuses nothing that it records |
| RegistryRuns.RegistryIsCanonical | src/runtime_state.rs:2163-2275 | In every run folding the recorded history gives the registry's own state |
| RegistryRuns.HubFollowsRegistry | src/server.rs:357-398 | After any part of the events that reached it, a projection of the hub is the very state the registry was in when it had recorded as many changes |
| RegistryRuns.HubCatchesUp | src/server.rs:357-398 | The hub has a projection if and only if a snapshot reached it, and when everything was published and processed that is the registry's state now |
| RegistryRuns.FlushBringsHubUpToDate | src/bridge.rs:1074-1098 | Once a snapshot was accepted, any later flush that the sink accepts in full leaves the hub with the registry's state |
| PublicationRuns.PublishedNeverDecreases | src/bridge.rs:1074-1098 | The published sequence never decreases and no event is taken back |
| JournalRelease.NothingUndeliveredIsReleased | src/bridge.rs:1093-1097 | Publication releases a delta if and only if what was published covers it |
| PublicationRuns.FullFlushCatchesUp | src/bridge.rs:1074-1092 | A flush the sink accepts in full publishes everything, whatever was retired before |
| RuntimePublication.DeltasContinue | src/runtime_state.rs:360-378 | The deltas offered start where publication stopped, have no gap, and reach the end |
| JournalRelease.ReleasedMember | src/runtime_state.rs:395-404 | Releasing keeps exactly the deltas beyond the given sequence |
| RuntimePublisher.Publisher.FlushRuntime | src/bridge.rs:1074-1097 | One flush has exactly the machine's effect: deltas until the sink refuses, or one snapshot when the journal starts too late |
| JournalRelease.RetiredPayloadIsGone | src/runtime_state.rs:406-440 | Retiring a turn drops a delta if and only if it is not after the last delta that could own the turn's payload |
| RuntimePublisher.Publisher.RetireTurnPayload | src/runtime_state.rs:406-440 | Finds the last delta that could own the turn's payload and drops the journal through it, keeping it contiguous |
| RuntimePublisher.Publisher.AnswerSnapshotRequest | src/bridge.rs:2364-2373 | An accepted snapshot moves the published sequence to the end; a refused one changes nothing |
| AutoCloseRuns.RunKeepsInv | src/session_observers.rs:110-235 | Invariant over all runs: a pending permit is the current absence of the very allocation it was armed for, and that session is unattended |
| AutoCloseRuns.OneDispatchPerPermit | src/bridge.rs:4608-4645 | However often a permit is queued, at most one attempt dispatches for it, having claimed it |
| AutoCloseRuns.FirstDecisionStands | src/auto_close.rs:18-31 | A permit cancelled before a claim never dispatches; one claimed stays claimed |
| AutoCloseRuns.FreshObservationBetweenCloses | src/session_observers.rs:196-201 | Between two automatic closes of one allocation there is a fresh observation: a failed close never rearms itself |
| AutoCloseRuns.ClaimsOnlyAbandoned | src/bridge.rs:4608-4635 | When an attempt commits, its session is active, idle, without a live observer and not yet attempted, though the claim checks no observer |
| AutoCloseRuns.DispatchWasCommitted | src/bridge.rs:4707-4783 | Every dispatched close goes back to a step that committed it in such a state |
| AutoCloseDecisions.RefreshArmsExactly | src/session_observers.rs:160-193 | A refresh arms a new pending permit, with its timer, exactly when the timeout is not negative and the session is active, idle, unobserved, not armed and not yet attempted |
| AutoCloseDecisions.PermitWasArmed | src/session_observers.rs:160-193 | In every run each permit goes back to a refresh with a non-negative timeout of a session in just that condition |
| AutoCloseDecisions.TimerSendsExactly | src/bridge.rs:1143-1163 | A timer queues its intent exactly while its permit is pending and uncancelled |
| AutoCloseDecisions.ReceivedExactly | src/bridge.rs:2382-2390 | A queued intent is handled exactly if its permit is still pending |
| AutoCloseDecisions.HandleStartsExactly | src/bridge.rs:2391-2418 | A handled intent starts a close exactly when its session is active, the absence is the current one, every observer left is cancelled and no work is running; otherwise its permit is withdrawn |
| AutoCloseDecisions.AttemptCommitsExactly | src/bridge.rs:4707-4783 | An attempt commits exactly when it was admitted, its session is active and idle, and the permit is pending; a busy or inactive session withdraws the permit |
| AutoCloseDecisions.AllocationEnds | src/session_observers.rs:210-241 | A replaced or removed allocation withdraws its permit and cancels its observers |
| SessionObservers.AutoClosePermit.Claim | src/auto_close.rs:21-25 | Exactly the call that finds the permit pending wins |
| SessionObservers.AutoClosePermit.Cancel | src/auto_close.rs:26-31 | A pending permit becomes cancelled, a claimed one stays, and the token fires |
| SessionObservers.Observers.Observe | src/session_observers.rs:130-142 | A fresh usable lease ends the absence and clears the attempt mark; a known one changes nothing |
| SessionObservers.Observers.Unobserve | src/session_observers.rs:144-157 | Removes and cancels the lease of that identity only |
| SessionObservers.Observers.Refresh | src/session_observers.rs:160-193 | In the old fields: arms exactly when the timeout is not negative, the lifecycle active, the work idle, every lease cancelled, no absence running and no close attempted; keeps a running absence while that holds and ends it otherwise |
| SessionObservers.Observers.Matches | src/session_observers.rs:203-208 | True exactly for the current absence and permit with every remaining lease cancelled |
| SessionObservers.Observers.DrainForFinish | src/session_observers.rs:223-226 | Ends the absence and hands over all leases uncancelled |
| SessionObservers.Observers.Shutdown | src/session_observers.rs:210-215 | Ends the absence and cancels all leases |
| PromptRuns.CounterCountsUnstarted | src/bridge.rs:545-556 | The counter is the number of guards whose decrement is still to come, so it never goes below zero |
| PromptRuns.DecrementsOnce | src/bridge.rs:579-594 | Finishing and dropping a guard decrements once in all |
| PromptRuns.NoLostWakeup | src/bridge.rs:558-571 | A waiter parked without a permit has an unsent prompt or a notification still to come |
| PromptRuns.ReturnsOnlyWhenStarted | src/bridge.rs:558-567 | The barrier opens only at a moment without an unsent prompt |
| PromptRuns.WaiterReturns | src/bridge.rs:558-567 | Once all guards finished, the waiter returns within three of its own steps from wherever it is |
| PromptObjects.PromptLifecycle.RegisterStart | src/bridge.rs:551-557 | The object's state makes the machine's step: one more counted guard, and the counter one higher |
| PromptObjects.PromptLifecycle.PromptFinished | src/bridge.rs:569-571 | The object's state makes the machine's step: wakes the waiter if one is parked, else stores the permit |
| PromptObjects.PromptStartGuard.Finish | src/bridge.rs:579-594 | The lifecycle's state becomes that of the machine's whole call: flag, decrement and notification in turn; later calls change nothing |
| EventRuns.BytesAreConserved | src/event_queue.rs:77-131 | The counter is the live leases' bytes plus additions not leased yet, zero when none is outstanding, and never below what is dropped |
| EventRuns.ReceivedInOrder | src/event_queue.rs:199-218 | What was received is a prefix, without repetition, of the successful sends in order, and the rest is queued |
| EventRuns.OpenUntilDropped | src/event_queue.rs:116-135 | In every run the channel is open exactly until its receiver is dropped |
| EventRuns.SendsAreQueued | src/event_queue.rs:116-135 | Until then every send succeeds, as the last to be received, and each receive takes the oldest success not yet received |
| EventRuns.FailedSendsAreLost | src/event_queue.rs:116-135 | A send that found the receiver gone is never delivered, nor any later one |
| EventChannel.DropIsStep | src/event_queue.rs:83-89 | Dropping a lease that was received, or that waits to be dropped, is a step of the machine on the objects' state |
| EventChannel.EventByteLease.Drop | src/event_queue.rs:83-89 | Gives back exactly the lease's bytes, which the counter holds |
| EventChannel.EventQueue.SendEvent | src/event_queue.rs:116-135 | The objects' state becomes that of the machine's whole send: the event with a new counted lease, or its bytes given back when the receiver is gone |
| EventChannel.EventQueue.TryReceive | src/event_queue.rs:216-230 | Takes the oldest event with its lease still counted, as the machine's step |
| EventChannel.EventQueue.DropReceiver | src/event_queue.rs:62-89 | As the machine's close followed by its drops in order: gives back the bytes of exactly the queued events |
| RegexScanner.HasUnsafeQuantifiedGroup | src/elicitation_validation.rs:384-458 | The loop decides the scan |
| RegexScanner.StackNeverEmpties | src/elicitation_validation.rs:384-458 | The stack always holds the pattern itself, so the fallback for an empty one is never used |
| RegexScanner.ScannerVerdict | src/elicitation_validation.rs:384-458 | On the printed form of any tree the scan flags exactly the unsafe trees and those with a quantified gap |
| RegexScanner.ScannerIsExact | src/elicitation_validation.rs:384-458 | Without whitespace literals it flags exactly the trees with a quantifier on a group that holds a quantifier or alternation |
| RegexScanner.ScannerErrsExactlyOnGaps | src/elicitation_validation.rs:384-458 | With whitespace it misses no unsafe tree and errs exactly on the quantified gaps |
| RegexScanner.SpaceAfterGroupIsFlagged | src/elicitation_validation.rs:384-458 | A group holding an alternation, then a starred space, is flagged though the star applies to the space alone |
| RegexScanner.UnsafeExactly | src/elicitation_validation.rs:384-458 | A tree is unsafe if and only if a special group, or a repeated group in which something repeats or branches, occurs anywhere in it |
| FormAgreement.FieldIffConforms | src/elicitation_validation.rs:214-334 | For an accepted property the response validator accepts exactly the values of its type, within its bounds and among its choices |
| FormAgreement.AcceptedExactlyWhenConforming | src/elicitation_validation.rs:50-98 | An answer to an accepted form is accepted if and only if it has every required field, no undeclared one, and every value conforms |
| FormAgreement.DefaultsAreAccepted | src/elicitation_validation.rs:134-212 | Any part of the non-null defaults of known-type properties that covers the required names is accepted |
| FormAgreement.AnswerableExactlyWhenRequiredAre | src/elicitation_validation.rs:50-98 | A form can be answered if and only if every required property has a conforming value |
| FormAgreement.UnknownTypesAreUnanswerable | src/elicitation_validation.rs:163-212 | Requiring a property of an unknown type makes every answer refused |
| FormAgreement.AcceptedButUnanswerable | src/elicitation_validation.rs:134-212 | There is an accepted form without any accepted answer |
| FormAgreement.IntegerAnswerable | src/elicitation_validation.rs:179-191 | An accepted integer property has a value if and only if it lacks a bound or an integer lies between them |
| FormAgreement.NumberAnswerable | src/elicitation_validation.rs:179-191 | An accepted number property always has a value |
| FormAgreement.BoundsWithoutIntegers | src/elicitation_validation.rs:179-191 | An accepted integer property without any value |
| FormAgreement.NoDuplicatesMeans | src/elicitation_validation.rs:356-364 | Comparing a list with the size of its set finds exactly the repeated entries |
| FormAgreement.ChoiceIffOffered | src/elicitation_validation.rs:585-631 | With accepted choices, a text is allowed if and only if one of the two lists holds it or both are empty |
| FormSchemas.PropertyIffSound | src/elicitation_validation.rs:163-212 | A property is accepted if and only if its type is unknown or, read off its JSON fields, its bounds, pattern and choices hold together and its default conforms |
| FormSchemas.TreeDecides | src/elicitation_validation.rs:366-458 | Of the patterns that compile and refer back to no group, a text property takes exactly those whose tree is neither unsafe nor has a quantified gap; without whitespace literals, exactly the safe ones |
| FormSchemas.NestedPlusIsRefused | src/elicitation_validation.rs:366-458 | The pattern `(a+)+` is refused by every engine |
| FormSchemas.BackReferencesAreRefused | src/elicitation_validation.rs:366-384 | A text property whose pattern holds a backslash and a digit from 1 to 9 is refused |
| FormSchemas.AcceptedPatternsAreSafe | src/elicitation_validation.rs:366-458 | Every pattern of an accepted form compiles, holds no such pair, and is the text of no unsafe tree |
| FormSchemas.SchemaIffSound | src/elicitation_validation.rs:134-162 | A schema is accepted if and only if its required names are distinct and declared, no name is empty, and every property is sound or of an unknown type |
| FormSchemas.RequestsExactly | src/elicitation_validation.rs:19-132 | A request is accepted if and only if it has a message, exactly one valid scope, and an address of the web or a sound form |
| FormSchemas.OtherAnswers | src/elicitation_validation.rs:50-70 | Declining, cancelling and answering an address are accepted if and only if they carry no content; another action never is |
| FormValidators.CheckRequired | src/elicitation_validation.rs:143-154 | The loop over the required names accepts exactly distinct, declared names |
| FormValidators.ValidateSchema | src/elicitation_validation.rs:134-162 | The loops decide the schema predicate, and so what `FormSchemas.SchemaSound` spells out |
| FormValidators.ValidateContent | src/elicitation_validation.rs:71-97 | The loops decide the content predicate |
| NdjsonFraming.LineStream.Next | src/agent_process.rs:212-253 | One item of the stream, leaving the items of the rest |
| NdjsonFraming.Drain | src/agent_process.rs:212-253 | However the input is cut into chunks, the stream yields the items of the whole input, up to a read error |
| NdjsonFraming.ItemsExactly | src/agent_process.rs:212-260 | Every input is lines ended by newlines and a rest without one; each line is reported in order without its one trailing carriage return, if it decodes; then comes a read error, or the rest unless it is empty, and nothing else |
| NdjsonFraming.DataUpToFault | src/agent_process.rs:222-232 | What was read is the chunks up to the first read error, one after another |
| NdjsonFraming.LineWriter.Send | src/agent_process.rs:124-129 | Appends the line and a newline |
| NdjsonFraming.SplittingInvertsWriting | src/agent_process.rs:212-253 | For any lines and any decodability test, the splitter gives back the written lines if and only if none holds a newline, ends in a carriage return or fails to decode |
| Base64.DecodesExactlyEncodings | src/attachments.rs:261-288 | Decoding accepts exactly the encodings, each as what it encodes |
| Base64.StandardExamples | src/attachments.rs:261-288 | The encodings are those of the examples in section 10 of RFC 4648 |
| Base64.GroupIsOneNumber | src/attachments.rs:261-288 | The digits of a group are those of its three bytes read as one number |
| Base64.DigitsAreTheAlphabet | src/attachments.rs:261-288 | The digits are the alphabet of section 4, in its order |
| Base64.SizeIsDecodedLength | src/attachments.rs:129-135 | Three bytes per group less the padding is the number of bytes a text decodes to |
| AttachmentPass.BlocksIsOnePass | src/attachments.rs:182-231 | The twelve visits, one after another, are one pass that rewrites each block where it stands |
| AttachmentPass.UpdateIsRewrite | src/attachments.rs:165-180 | Visiting an update rewrites its content block or its tool call's content blocks |
| AttachmentPass.ToolCallIsRewrite | src/attachments.rs:153-163 | Visiting a tool call rewrites exactly the blocks of its contents of type content |
| AttachmentLinks.RoleAtRewritten | src/attachments.rs:182-231 | The rewritten view has the same paths playing the same parts; blocks are replaced, everything outside is the same value |
| AttachmentLinks.ProjectionAt | src/attachments.rs:233-243 | At every path of a view with an owner: a block becomes its link, anything that leads to no block is untouched |
| AttachmentLinks.ProjectionIsIdempotent | src/attachments.rs:125-151 | Projecting twice is projecting once |
| AttachmentLinks.ReferenceForms | src/attachments.rs:16-38 | A value is read as a reference if and only if it is the object of exactly its fields or the array of their values |
| AttachmentLinks.LinkNamesBlock | src/attachments.rs:33-38 | The reference read from a link is the block's hash and the view's owner |
| AttachmentResolution.CollectsAllBlocks | src/attachments.rs:182-231 | The traversal visits exactly the blocks that stand at block positions |
| AttachmentResolution.ResolvesExactlyWithoutCollisions | src/attachments.rs:245-253 | Every attached block is found under its hash, exactly as it is, if and only if no two different ones share a hash |
| AttachmentResolution.LinkResolvesToOriginal | src/attachments.rs:245-253 | Without collisions, the link at a path resolves on the original view to the block that stood at that path |
| AttachmentResolution.NothingLeftToFind | src/attachments.rs:125-151 | A projected view holds nothing that could be found |
| AttachmentResolution.AdvertisedSizeIsServed | src/attachments.rs:261-288 | The size in a link is the number of bytes served for its block, for text, data and blob |
| AttachmentMeaning.BlocksExactly | src/attachments.rs:182-231 | A block stands at a path of a view if and only if the path leads, through fields and items written out, to a message chunk's content, a tool call's content entry or a prompt's block |
| AttachmentMeaning.ReplacedExactly | src/attachments.rs:125-151 | In a view with an owner a block is replaced if and only if it is an image, a sound, or a resource that is there, and then by a resource link |
| AttachmentMeaning.ResourceExactly | src/attachments.rs:40-46 | A block is an attachment if and only if its type is image or audio, or resource with a resource field, which is then what is linked |
| AttachmentMeaning.LinkSays | src/attachments.rs:125-151 | A link has exactly its seven fields at most, with its type, name, address, media type, reference and the block's own annotations as spelled; `AttachmentResolution.AdvertisedSizeIsServed` says what its size is |
| AttachmentMeaning.OwnerExactly | src/attachments.rs:233-243 | A view's owner is read from its epoch, session and incarnation fields; a view that lacks one is left as it is |
| AttachmentMeaning.FoundExactly | src/attachments.rs:245-253 | A hash finds a block if and only if some attachment of the view has it, and then such a one |
| AttachmentMeaning.ServedExactly | src/attachments.rs:261-288 | What is served: the text if its media type parses, else the decoded data, else the decoded blob, and nothing for other blocks |
| AttachmentVisitor.RewriteBlocks | src/attachments.rs:182-231 | The loop over the positions performs the one pass |
| AttachmentVisitor.ProjectView | src/attachments.rs:233-243 | A view without an owner is left alone; otherwise its blocks become links |
| AttachmentVisitor.FindBlock | src/attachments.rs:245-253 | The variable filled by the visitor ends as the first attached block with the hash |

## Left out

- Mutex poisoning, memory ordering and the async runtime: a locked section and an atomic operation made outside a lock are single steps. Cancelling a permit and firing its token is one step, and so is a timer's reading of both.
- Integer widths: counters, sequence numbers, sizes and incarnations are unbounded, so wrap-around, saturation at the top and the panic of an exhausted catalog revision are not modelled.
- The payload of a completion (method, result, parameters): a turn is its owner, request and guard. Dropping the last dispatcher handle is the same as close.
- HandoffRegistry.CompletionRegistry.DiscardSession: the order in which removed entries are dropped is some order, as it is a hash map's; `Close` likewise.
- Which lifecycle changes a session makes: in `SessionIngest` it may stop being live, attached or active at any time.
- The bound of staged creations by pending ones: error paths leave entries behind, so only the accounting is claimed.
- PublicationRuns.HubFollowsCanonicalState: one connection epoch at a time, so the comparison of epochs is left out. `RuntimeScopes` keeps the fields that neither side reads as texts and leaves out the sweep of released terminals after each change; that every change of a projection is recorded is assumed.
- The revision string of the catalog is the pair of its epoch and number.
- The second wait of a shutdown, for completions after cancellation, which a timeout bounds.
- AutoCloseRuns.OneDispatchPerPermit: a retirement made locally counts as the dispatch; how the close request settles afterwards is any later change of the session.
- Absence intervals as time: a timer may fire at any moment while its permit is pending.
- Error texts of the validators: results say accepted or not.
- Numbers in JSON are reals: the loss of large integers in a double, and the difference between `1` and `1.0` for unsigned fields, are not modelled.
- The regular-expression engine, the URL parser, the named formats (with the lenient date and time recognition), UTF-8, the content hash and display names are parameters; a hash need not be injective, theorems say what a collision does.
- The attachment rewrite in place: views are values and every visit returns a new tree, so aliasing inside a tree is not modelled.
- Lines in `NdjsonFraming` are bytes with a decodability test instead of decoded strings; errors of the writer are left out.
- The other commands of the bridge, HTTP, WebSocket, terminals and child processes, the browser, and the modules behind the registry beyond what the journal, the observers and the hub's fold show.

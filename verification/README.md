# Verified model of nats-agent-core

A Dafny 4.11 model of the parts of this NATS client library that are hard to get right: the state machines that
several goroutines run over shared fields guarded by locks. Every call that leaves the process - NATS, JetStream, the KV
bucket, a user's handler - is a step with a free outcome, so each theorem covers every way that those calls can turn out.

The model has two layers. A class per Go object (`Session.Manager`, `Registry.Registry`, `Client.Client`,
`WatchTable.WatchTable`, `DesiredStore.Store`) updates its fields in place as the source does, and every method is proved
equal to a function on values. The same functions drive step systems, in which any number of goroutines take one step per
locked section and one per external call; the theorems about them quantify over all runs. What a call answers and what it
leaves behind is told from the actions of the run, next to what it never does.

| files | part of the repository |
|---|---|
| `SessionState`, `Session` | the manager fields under `mu`, and one operation for each locked section |
| `SessionProtocol`, `SessionInvariant`, `SessionTheorems`, `SessionLimits`, `SessionAnswers`, `SessionStory` | Start, Close, rebind, the late-connection reaper and the callbacks, interleaved |
| `RegistryState`, `Registry`, `RegistryRace` | the two-map subscription registry, and Adds that interleave |
| `Driver`, `DriverUses`, `Client` | activation, restore, deactivation, rollback, registration, Start and Close of the client, one call at a time |
| `HandleProtocol`, `HandleTheorems`, `HandlePasses`, `HandleUses`, `HandleLimits` | the same loops and the registry, interleaved at every lock section |
| `HandlerContext` | the handler context and the callback flag, interleaved |
| `WatchProtocol`, `WatchTheorems`, `WatchTable` | tracking and stopping watches |
| `Watch`, `WatchLoop`, `WatchLifecycle` | the loop that consumes one watch, and its life from open to stop |
| `Desired`, `DesiredProtocol`, `DesiredTheorems`, `DesiredAnswers`, `DesiredStore` | store, load, and store-then-notify |
| `GoStrings`, `Subjects`, `SubjectTheorems`, `Slots` | subjects, keys, and when registrations conflict |

Four properties that a reader might expect are false of the code. Each comes with a run that shows it and with the exact
condition under which it holds:

- Closed does not mean that no connection is stored, since `onClosed` does not look at which connection closed
  (`SessionLimits.ClosedMeansNoConnection`, `SessionLimits.ClosedMeansNothingLive`, `SessionLimits.ClosedWithConnection`).
- Closed is not final, since a late disconnect callback or a failing rebind changes it
  (`SessionLimits.ClosedStaysClosed`, `SessionLimits.CloseIsNotFinal`).
- Overlapping activations of one registration can lose a subscription
  (`HandleLimits.LostIffWrittenOver`, `HandleLimits.OverlapLosesAHandle`).
- Enabled callbacks can be without a live context when Start overlaps Close
  (`HandlerContext.LinkedIffNeverBroken`, `HandlerContext.CallbacksHaveAContext`, `HandlerContext.OverlapBreaksTheLink`).

Two more limits concern names: registry keys confuse slots whose subject or queue group contains a bar
(`RegistryState.OwnKeyIffOneCut`, `RegistryState.OwnKeyIffNoBar`, `RegistryState.BarsConfuseSlots`), and action subjects are ambiguous without a separator
between the placeholders (`SubjectTheorems.TwoPlaceholdersInjectiveIff`, `SubjectTheorems.Collision`).

`dafny verify dfyconfig.toml` checks the project.

## Model

| member | source | states |
|---|---|---|
| `SessionTheorems.NilUntilLaterStart` | internal/session/session.go:262-277 | In every run, once the Close that set `closing` is through, a stored connection is one that was committed later, by a Start that entered after that point, and it has been stored ever since that commit; until then `nc` is nil |
| `SessionTheorems.InFlightEnteredAfter` | internal/session/session.go:298-337 | Any Start still under way after the owning Close is through entered after it |
| `SessionTheorems.AfterCloseNothingRuns` | internal/session/session.go:304-354 | The last step of the owning Close, early exit or final section, leaves `nc`, `js` and `kv` nil and no Start in flight |
| `SessionTheorems.NoInstallWhileClosing` | internal/session/session.go:262-277 | While `closing` holds, no step of anybody stores a connection, a JetStream context or a KV handle; a stored one can only be cleared |
| `SessionTheorems.NoConnectionIsLost` | internal/session/session.go:386-421 | Every connection ever dialled that is neither closed nor draining is held by exactly one of: a running Start, a late-connection reaper, `m.nc` |
| `SessionTheorems.CommitReplacesOnlyTheDead` | internal/session/session.go:179-182 | The connection that a committing Start overwrites is nil or closed |
| `SessionTheorems.CloseClearsWhatItDrained` | internal/session/session.go:301-347 | The connection that Close clears is the one it drained, and it is draining or closed by then |
| `SessionTheorems.HandlesBelongTogether` | internal/session/session.go:273-277 | `nc`, `js` and `kv` are nil together or all belong to the same connection, in every reachable state |
| `SessionTheorems.FlagsAgree` | internal/session/session.go:151-197 | `starting` iff `startDone` is set iff exactly one Start is past its first section; `closing` equals `closeRequested` iff exactly one Close is |
| `SessionTheorems.ChannelsClosedOnce` | internal/session/session.go:189-197 | Every start channel that is not the current one has been closed exactly once, the current one not at all |
| `SessionTheorems.StepLowersRank` | internal/session/session.go:137-367 | Every step of Start, Close, rebind and the reaper lowers a measure of its program counter |
| `SessionTheorems.StepsAreBounded` | internal/session/session.go:137-367 | No goroutine ever takes more steps than its measure allows |
| `SessionTheorems.NobodyIsStuck` | internal/session/session.go:315-331 | Every goroutine that has not returned can take a step without its context ending, or is a Close waiting for a Start that can; the one step that may be a failure is the drain of a connection that is closed already |
| `SessionTheorems.ChannelKeepsOwner` | internal/session/session.go:183-197 | A start channel belongs to one Start call for ever |
| `SessionTheorems.WaitEnds` | internal/session/session.go:315-331 | The channel a Close waits on is closed, once, when the Start it waits for has taken the steps it has left |
| `SessionTheorems.HealthAgrees` | internal/session/health.go:3-48 | In every reachable state JetStreamReady equals KVReady; Connected implies both, an empty last error and all three handles; New, Reconnecting, Degraded and Closed imply not ready |
| `SessionTheorems.Reachable` | internal/session/session.go:137-421 | The protocol invariant holds in every state of every run |
| `SessionInvariant.InvKept` | internal/session/callbacks.go:12-109 | Every step of any goroutine, every callback and every change of a connection keeps the protocol invariant |
| `SessionAnswers.AnswerIffDecided` | internal/session/session.go:137-367 | In every run, a call of Start, Close or rebind that has returned gave the answer that the outcome of one of its steps decided, and none decided another |
| `SessionAnswers.StartAnswers` | internal/session/session.go:199-282 | A Start that has entered returns success iff it committed at an earlier step of that run, and an error iff a stage failed, with the code of that stage |
| `SessionAnswers.StartTurnedDown` | internal/session/session.go:151-182 | A Start enters iff no Start or Close is under way, retrying is off and no connection is stored that is not closed; otherwise it returns at once and changes nothing: success iff the checks before pass, so that such a connection is stored |
| `SessionAnswers.StartWithoutContext` | internal/session/session.go:138-149 | A context that is over is a connection error before any other check |
| `SessionAnswers.CloseAnswers` | internal/session/session.go:315-366 | A Close that has entered returns a shutdown error iff its context ended while it waited or the drain failed, and success otherwise |
| `SessionAnswers.CloseTurnedDown` | internal/session/session.go:291-313 | A Close enters iff no other is under way and there is something to close; otherwise it returns success at once |
| `SessionAnswers.RebindInstalls` | internal/session/callbacks.go:89-104 | The last section of a rebind: if its connection is the stored one and no Close is under way, the new handles are stored and the manager is Connected, both parts ready, no error; else nothing changes |
| `SessionAnswers.RebindAnswers` | internal/session/callbacks.go:50-109 | A rebind installs its handles iff at that section its connection is the stored one and no Close is under way, and then the hook of the client is called; it fails iff one of its two calls does |
| `SessionAnswers.ToldAfterInstalling` | internal/session/callbacks.go:101-108 | The hook of the client is only called after the handles are stored |
| `SessionStory.ShowsItsStory` | internal/session/health.go:3-48 | In every run the stored handles and every field of the health snapshot are what the events of the run make of them: each Start that enters, install, failure, Close, drop, closed connection and count, told from actions and outcomes alone |
| `SessionStory.CarriedErrorIsReal` | internal/session/session.go:199-259 | The error that a failing call makes the manager show is one with which a step of that very call failed |
| `SessionStory.RebindRun` | internal/session/callbacks.go:50-109 | A run in which the connection drops and comes back, and the manager is Connected again with new handles of the same connection |
| `SessionLimits.ClosedMeansNoConnection` | internal/session/callbacks.go:33-42 | "Closed means no stored connection" holds in a run iff no closed callback arrives while a connection is stored |
| `SessionLimits.ClosedMeansNothingLive` | internal/session/callbacks.go:33-42 | The weaker reading "Closed means that no live connection is stored" holds throughout a run iff no closed callback arrives while a live one is stored |
| `SessionLimits.MisleadingIsAboutAnother` | internal/session/callbacks.go:33-42 | Such a callback is always about another connection than the stored one |
| `SessionLimits.ClosedWithConnection` | internal/session/callbacks.go:33-42 | A run that ends Closed with a live connection stored: a first Start drops its connection, a second one stores its own, and then the closed callback of the first arrives |
| `SessionLimits.ClosedStaysClosed` | internal/session/callbacks.go:56-88 | After the owning Close, and as long as no Start enters, the state stays Closed iff no disconnect callback arrives and no rebind fails |
| `SessionLimits.CloseIsNotFinal` | internal/session/callbacks.go:12-20 | A run in which the disconnect callback of the connection that Close drained arrives late: the state leaves Closed with nothing stored |
| `Session.Manager.constructor` | internal/session/session.go:40-54 | A new manager is in state New with nothing stored |
| `Session.Manager.SetStateLocked` | internal/session/health.go:3-8 | Only the state changes |
| `Session.Manager.SetConnectedLocked` | internal/session/health.go:10-20 | Refines the specified change of health: Connected iff both parts are ready, last error cleared |
| `Session.Manager.SetReconnectingLocked` | internal/session/health.go:22-29 | Refines the specified change: neither part ready, an error is kept when none is given |
| `Session.Manager.SetDegradedLocked` | internal/session/health.go:31-38 | The same for Degraded |
| `Session.Manager.SetClosedLocked` | internal/session/health.go:40-48 | The same for Closed, and the URL is cleared |
| `Session.Manager.EnterStart` | internal/session/session.go:151-187 | First section of Start: refused, already running, or entered, as the protocol step says; a refusal changes nothing |
| `Session.Manager.Degrade` | internal/session/session.go:201-203 | The section after a failed setup step |
| `Session.Manager.CommitStart` | internal/session/session.go:262-277 | Installs all three handles iff no close was requested |
| `Session.Manager.LeaveStart` | internal/session/session.go:189-197 | The deferred section closes the channel iff it is still the current one |
| `Session.Manager.EnterClose` | internal/session/session.go:292-313 | First section of Close: overlapping, nothing to close, or draining |
| `Session.Manager.CancelClose` | internal/session/session.go:319-323 | A cancelled wait leaves the handles alone and takes the close request back |
| `Session.Manager.LeaveClose` | internal/session/session.go:343-354 | Last section: all handles nil, flags off, Closed |
| `Session.Manager.OnDisconnect` | internal/session/callbacks.go:12-20 | Nothing while closing, else Reconnecting |
| `Session.Manager.OnClosed` | internal/session/callbacks.go:33-42 | Closed, whichever connection it was |
| `Session.Manager.CommitRebind` | internal/session/callbacks.go:90-104 | Replaces `js` and `kv` iff not closing and the connection is still the stored one |
| `Session.Manager.Connection` | internal/session/session.go:98-112 | Yields the stored connection iff there is one and it is connected, else a disconnected error |
| `Session.Manager.KeyValue` | internal/session/session.go:369-384 | Yields the stored KV handle iff the connection is up and the handle is set |
| `Session.Manager.SetSubscriptionCounts` | internal/session/session.go:114-120 | Only the two counters change |
| `RegistryState.RegistryAgrees` | internal/registry/registry.go:30-169 | After every sequence of operations `byKey` is the exact inverse of the keys of the entries, an entry is active iff a handle is attached, and ids in use were handed out |
| `RegistryRace.RegistryAgreesUnderRaces` | internal/registry/registry.go:30-169 | The same when Adds interleave: between the counter bump of an Add and its insertion any other operation may run. The two maps agree, no two Adds yield the same id, and every entry has an id that one of them yielded |
| `RegistryRace.AddIsReserveInsert` | internal/registry/registry.go:35-63 | Without interruption the bump and the insertion make up the one Add |
| `RegistryRace.SectionsDo` | internal/registry/registry.go:35-63 | The bump takes the next number; the section under the mutex inserts the entry of the specification under it, field by field, unless the key is taken by then |
| `RegistryRace.InvKept` | internal/registry/registry.go:30-169 | Every bump, insertion and other operation keeps the agreement |
| `RegistryState.IdsAreNeverReused` | internal/registry/registry.go:35 | Two successful Adds never yield the same id, whatever happens in between |
| `RegistryState.RegIDInjective` | internal/registry/registry.go:35 | Different counter values give different ids |
| `RegistryState.AddAnswers` | internal/registry/registry.go:29-50 | A validation error for a blank kind or subject or a missing callback, else a conflict if the key is taken, else the new entry |
| `RegistryState.RemoveUndoesAdd` | internal/registry/registry.go:149-169 | Remove after Add restores both maps |
| `RegistryState.ConflictIffSameSlot` | internal/registry/registry.go:36-50 | For kinds and subjects without a bar, Add reports a conflict iff an entry of the same kind, trimmed subject and trimmed queue group exists |
| `RegistryState.BarsConfuseSlots` | internal/registry/registry.go:225-227 | With a bar in the subject, two different slots share a key |
| `RegistryState.OwnKeyIffOneCut` | internal/registry/registry.go:225-227 | For every subject and queue group: the key is shared with no other slot iff the text after the kind can be cut at one bar only into two parts free of surrounding space, the first not empty |
| `RegistryState.OwnKeyIffNoBar` | internal/registry/registry.go:225-227 | For a nonempty subject and a queue group without spaces that comes down to: no bar in the queue group, and none in the subject but possibly its first character |
| `Registry.Registry.constructor` | internal/registry/registry.go:21-27 | The registry is empty |
| `Registry.Entry.constructor` | internal/registry/registry.go:52-61 | A new entry carries the specification and no handle |
| `Registry.Entry.Detach` | internal/registry/registry.go:133-145 | One turn of the clearing loop: hands the handle out iff there is one, and leaves none |
| `Registry.Registry.Add` | internal/registry/registry.go:29-66 | On the entry objects: the same new maps, result and errors as the operation on values |
| `Registry.Registry.AddLocked` | internal/registry/registry.go:38-65 | The section under the mutex: a conflict, or one new entry under the number that was taken before |
| `Registry.Registry.NextID` | internal/registry/registry.go:35 | Every call yields a higher id, used or not |
| `Registry.Registry.Insert` | internal/registry/registry.go:52-63 | Writes both maps for one new entry and nothing else |
| `Registry.Registry.GetActivationRecord` | internal/registry/registry.go:68-78 | The record of the entry iff it exists, with its own kind, subject, queue group, callback and handle |
| `Registry.Registry.ListActivations` | internal/registry/registry.go:80-90 | Every entry exactly once, in some order, each with its own kind, subject, queue group, callback and handle |
| `Registry.Registry.MarkActive` | internal/registry/registry.go:92-109 | Attaches the handle in place and nothing else; an unknown id changes nothing |
| `Registry.Registry.MarkInactive` | internal/registry/registry.go:111-125 | Detaches the handle in place, keeping the old error if there is no new one |
| `Registry.Registry.Remove` | internal/registry/registry.go:149-169 | Takes the entry and its key out and hands back its handle |
| `Registry.Registry.ClearActiveHandles` | internal/registry/registry.go:127-147 | Detaches every handle and returns each of them exactly once |
| `Registry.Registry.DetachEntry` | internal/registry/registry.go:133-145 | One turn of the clearing loop on the maps: that entry is detached, everything else is the same |
| `Registry.Registry.Counts` | internal/registry/registry.go:183-195 | The number of entries and of active entries |
| `Slots.BuilderConflictIffSameSlot` | internal/registry/registry.go:36-50 | In a registry filled through any valid builder without bars in its patterns, registering a handler for valid tokens is rejected iff the queue group has whitespace (a validation error) or else its slot is taken (a conflict) |
| `Slots.DefaultConflictIffSameHandler` | agentcore/handlers_runtime.go:37-46 | With the default patterns a taken slot means that a handler of the same kind, target, action and trimmed queue group is registered |
| `Slots.DefaultsAreValid` | internal/subjects/subjects.go:38-47 | The default patterns are valid and have no bar |
| `Slots.SubjectProper` | internal/subjects/subjects.go:121-161 | A subject built from valid tokens is never blank, and contains a bar only if a pattern does |
| `HandleTheorems.HandlesAreConserved` | agentcore/handlers_runtime.go:232-270 | If passes do not work on the same registration at once, every subscription ever created is attached to exactly one entry, in the hands of exactly one goroutine, or had Unsubscribe called, however Adds (in their two sections), Remove, rollback and clearing interleave; nothing ever has two holders |
| `HandleTheorems.OnlyOverlapLoses` | agentcore/handlers_runtime.go:254-258 | A subscription that nobody holds and nobody unsubscribed implies that two passes overlapped earlier |
| `HandleTheorems.InvKept` | agentcore/handlers_runtime.go:305-350 | Every step keeps the ownership invariant as long as passes do not overlap |
| `HandleTheorems.Reachable` | agentcore/handlers_runtime.go:186-350 | The ownership invariant holds in every state of such a run |
| `HandleUses.HandlesAreOwn` | agentcore/handlers_runtime.go:272-292 | In every run, overlapping passes included: the handle attached to a registration was made with its own subject, queue group and callback; a blank queue group means a plain subscription |
| `HandlePasses.PassCovers` | agentcore/handlers_runtime.go:186-208 | When a pass that runs beside others has returned, it has settled every registration it listed that was not active, or all of them if it is forced |
| `HandlePasses.OutcomesDecide` | agentcore/handlers_runtime.go:241-258 | The subscription is attached iff subscribe and flush succeed; otherwise the registration is marked with the error of the call that failed |
| `HandlePasses.SettlingDoes` | agentcore/handlers_runtime.go:243-263 | Settling attaches the handle and clears the error, or detaches and notes the error, and changes nothing else; a handle whose registration is gone is dropped |
| `HandlePasses.CleaningDoes` | internal/registry/registry.go:127-169 | Under the lock a removal takes exactly its entry, and clearing leaves no handle attached |
| `HandlePasses.StepsRunOut` | agentcore/handlers_runtime.go:186-350 | Every step of a pass or a clean-up that has begun lowers what it has left, until it returns |
| `HandlePasses.NobodyIsStuck` | agentcore/handlers_runtime.go:186-350 | Every pass and clean-up that has not returned can take a step in which nothing fails |
| `HandleLimits.LostIffWrittenOver` | agentcore/handlers_runtime.go:241-258 | Over all runs, overlaps included: every live subscription has a holder throughout iff no locked section ever writes over a handle that is still subscribed |
| `HandleLimits.OverlapLosesAHandle` | agentcore/handlers_runtime.go:241-258 | A run with two overlapping passes that loses a subscription |
| `Driver.PassSettles` | agentcore/handlers_runtime.go:186-208 | A pass over a list settles every listed registration by its own outcome, leaves the others alone, and fails iff one of them does |
| `Driver.RestoreIsExact` | agentcore/handlers_runtime.go:198-208 | After a restore every registration that succeeded holds a handle made in this pass, every old handle was unsubscribed, failed ones are inactive and keep their error, and there is an error iff one failed |
| `Driver.RestoredIffAllActive` | agentcore/handlers_runtime.go:352-379 | A restore has no failure iff it leaves every registration active |
| `Driver.StartIsAllOrNothing` | agentcore/client.go:216-236 | Start fails iff an inactive registration cannot be subscribed; then none is active and every subscription was unsubscribed; otherwise all are active and those that were keep their handle; the registrations are the same either way |
| `Driver.StartPass` | agentcore/handlers_runtime.go:186-196 | The activation pass of Start: active registrations are untouched, and without failure all are active |
| `DriverUses.PassMakesOwn` | agentcore/handlers_runtime.go:186-208 | After any pass, forced or not, whatever fails: every attached handle was made with the subject, the queue group and the callback of the registration that it is attached to |
| `DriverUses.StartMakesOwn` | agentcore/client.go:216-236 | The same after Start |
| `DriverUses.RegisterMakesOwn` | agentcore/handlers_runtime.go:24-59 | The same after registering a handler, whatever comes of it |
| `Driver.DeactivateClears` | agentcore/handlers_runtime.go:305-328 | After deactivating, no handle is attached and every subscription ever made was unsubscribed |
| `Driver.RegisterAllOrNothing` | agentcore/handlers_runtime.go:24-59 | Registering either adds exactly one entry with a fresh id, subscribed unless the client has not started, or leaves no trace but the counter, and every subscription made on the way was taken back. It succeeds iff there is a handler and a subject, the queue group has no whitespace, the registry accepts it, and a subscription that is needed is created |
| `Driver.RejectedWhy` | agentcore/handlers_runtime.go:24-46 | Why a registration is rejected, in this order: no handler, no subject, whitespace in the queue group, or the error of the registry |
| `Driver.FailedRegistrationLeavesNoTrace` | agentcore/handlers_runtime.go:54-58 | Rolling back a registration whose subscription failed restores both maps |
| `Client.Client.constructor` | agentcore/client.go:191-205 | A new client has no registrations, no context and no watches, and callbacks are off |
| `Client.Client.SyncSubscriptionHealth` | agentcore/handlers_runtime.go:393-399 | The counts shown are the true numbers of registrations and active ones |
| `Client.Client.Show` | agentcore/handlers_runtime.go:393-399 | Only the two shown counts change |
| `Client.Client.EnsureHandlerContext` | agentcore/client.go:292-308 | Keeps a live context, else makes a new one |
| `Client.Client.CancelHandlerContext` | agentcore/client.go:310-320 | No context is current, and the one that was is cancelled |
| `Client.OnIsLive` | agentcore/client.go:234-235 | Turning callbacks on never replaces a context that is there, and leaves a live one |
| `Client.OffLeavesNothing` | agentcore/client.go:240-241 | Turning callbacks off leaves no context alive |
| `Client.Client.CallbacksOff` | agentcore/client.go:240-241 | The flag off, then the context cancelled; subscriptions untouched |
| `Client.Client.CallbacksOn` | agentcore/client.go:233-235 | The context first, then the flag |
| `Client.Client.Unsubscribe` | agentcore/handlers_runtime.go:293-303 | The subscription counts as unsubscribed whatever the call returns |
| `Client.Client.CreateSubscription` | agentcore/handlers_runtime.go:427-433 | One more subscription, made with the given subject, queue group and callback |
| `Client.Client.Subscribe` | agentcore/handlers_runtime.go:417-461 | A handle iff subscribe and flush succeed, made as a queue subscription iff the group is not blank; a subscription whose flush fails is unsubscribed |
| `Client.Client.Attach` | agentcore/handlers_runtime.go:254-263 | Attaches the handle, or unsubscribes it if the registration is gone |
| `Client.Client.SubscribeRecord` | agentcore/handlers_runtime.go:241-263 | Subscribes and attaches, or marks inactive with the error |
| `Client.Client.ActivateRecord` | agentcore/handlers_runtime.go:232-270 | Same outcome and error as the activation of one record on values |
| `Client.Client.ActivateList` | agentcore/handlers_runtime.go:188-193 | The loop refines the pass on values |
| `Client.Client.ActivateEach` | agentcore/handlers_runtime.go:186-208 | Refines the pass over every registration, and shows the new counts |
| `Client.Client.RestoreAllRegisteredSubscriptions` | agentcore/handlers_runtime.go:198-208 | Refines a forced pass over every registration, and shows the new counts |
| `Client.Client.ActivateAllRegisteredSubscriptions` | agentcore/handlers_runtime.go:186-196 | Refines a pass that skips active registrations |
| `Client.Client.DeactivateAllSubscriptions` | agentcore/handlers_runtime.go:305-328 | Refines deactivation; an error iff some Unsubscribe failed |
| `Client.Client.DetachAll` | agentcore/handlers_runtime.go:306-325 | Every attached handle was detached and unsubscribed |
| `Client.Client.UnsubscribeAll` | agentcore/handlers_runtime.go:310-325 | Every handle is unsubscribed even if one fails, and the error is nil iff none did |
| `Client.Client.RollbackRegistration` | agentcore/handlers_runtime.go:330-350 | Refines rollback: entry and key gone, handle unsubscribed |
| `Client.Client.ActivateByID` | agentcore/handlers_runtime.go:210-230 | Activates the one registration if it exists and is not active |
| `Client.Client.ActivateAfterRegistration` | agentcore/handlers_runtime.go:173-184 | Does nothing before Start, else activates the one registration |
| `Client.Client.RegisterHandler` | agentcore/handlers_runtime.go:24-59 | Refines registration on values: missing handler, bad subject, queue group with whitespace, and the errors of the registry are rejected in this order |
| `Client.Client.FinishRegistration` | agentcore/handlers_runtime.go:47-59 | Refines the end of a registration: keeps it, or rolls it back if its subscription failed |
| `Client.Client.TurnOff` | agentcore/handlers_runtime.go:381-391 | Callbacks off, no context alive, no handle attached |
| `Client.Client.OnSessionReconnected` | agentcore/handlers_runtime.go:352-379 | Nothing if callbacks are off; else a restore, and exactly one call of the reconnect handler iff one is set and every registration is active again |
| `Client.Client.RestoreAndTell` | agentcore/handlers_runtime.go:357-378 | The restore, and exactly one call of the reconnect handler iff one is set and every registration is active again |
| `Client.Client.OnSessionClosed` | agentcore/handlers_runtime.go:381-391 | Callbacks off, context cancelled, all handles detached and unsubscribed |
| `Client.Client.Start` | agentcore/client.go:216-236 | A session error changes nothing; else refines the start pass, with callbacks on iff it succeeded, and the counts shown are the true ones |
| `Client.Client.StartHandlers` | agentcore/client.go:222-235 | Refines the start pass, with callbacks on iff it succeeded |
| `Client.Client.Settle` | agentcore/client.go:222-235 | Callbacks on after a pass without failure, else everything taken down |
| `Client.Client.Close` | agentcore/client.go:239-269 | Takes subscriptions, context and watches down whatever fails, and the error is nil iff nothing did |
| `Client.Client.StopAllWatches` | agentcore/client.go:629-654 | As below, leaving subscriptions alone |
| `HandlerContext.ContextsAreConserved` | agentcore/client.go:292-320 | In every run each context ever made is exactly one of: cancelled, current, about to be cancelled by exactly one goroutine |
| `HandlerContext.NothingCancelledToReplace` | agentcore/client.go:296-304 | The branch that replaces a cancelled context is never taken |
| `HandlerContext.QuietMeansCancelled` | agentcore/client.go:310-320 | When no cancel is outstanding, every context but the current one is cancelled |
| `HandlerContext.LinkedIffNeverBroken` | agentcore/client.go:216-243 | Over all runs, overlaps included: enabled callbacks have a live context throughout iff no step turns the flag on without a context or takes the context away while the flag is on |
| `HandlerContext.CallbacksHaveAContext` | agentcore/client.go:216-243 | Neither happens if the end of a Start never overlaps a call that turns callbacks off, so then enabled callbacks imply a live context |
| `HandlerContext.OverlapBreaksTheLink` | agentcore/client.go:233-241 | A run with such an overlap that ends with callbacks on and every context cancelled |
| `HandlerContext.ShowsItsStory` | agentcore/client.go:292-320 | In every run the flag and the current context are what the sections taken so far make of them; a new context is made iff there is none |
| `HandlerContext.CallsDoTheirPart` | agentcore/client.go:216-243 | When a Start has returned it has turned callbacks on; when a call that turns them off has returned, it has turned them off and then cancelled the context that it took away |
| `HandlerContext.StepsRunOut` | agentcore/client.go:292-320 | A call that has not returned can always take its next step, and each one lowers what it has left |
| `HandlerContext.InvKept` | agentcore/client.go:292-320 | Every step keeps the bookkeeping of contexts |
| `WatchTheorems.StopsAtMostOnce` | agentcore/client.go:606-654 | However user stops and stopAllWatches interleave, no stop function is called twice |
| `WatchTheorems.StopAllForgetsNothing` | agentcore/client.go:629-654 | When stopAllWatches returns, every watch tracked before it was called has been taken exactly once: stopped, or in the hands of exactly one other goroutine |
| `WatchTheorems.ErrorIffAStopFailed` | agentcore/client.go:641-654 | The error of stopAllWatches, and of a single stop, is nil iff every stop function that it called succeeded |
| `WatchTheorems.StopReturnsAfterTheStop` | agentcore/client.go:613-626 | When any call of a stop returns, the watch was stopped or taken by stopAllWatches, and no call of the same stop is under way |
| `WatchTheorems.NobodyIsStuck` | agentcore/client.go:613-626 | Every call can take a step, or waits for one that can |
| `WatchTheorems.CallsAreNoted` | agentcore/client.go:613-654 | Every call of a stop function is noted with its own outcome |
| `WatchTheorems.StepsRunOut` | agentcore/client.go:606-654 | Every step of a call lowers what it has left, once stopAllWatches has taken its snapshot |
| `WatchTheorems.InvKept` | agentcore/client.go:606-654 | Every step keeps each watch in exactly one place |
| `WatchTable.WatchTable.constructor` | agentcore/client.go:199 | No watch is tracked |
| `WatchTable.WatchTable.TrackWatch` | agentcore/client.go:606-611 | Stores the stop function under a new id |
| `WatchTable.WatchTable.Stop` | agentcore/client.go:613-626 | Calls the stop function iff the watch is still tracked; a second call does nothing |
| `WatchTable.WatchTable.Snapshot` | agentcore/client.go:630-636 | Every tracked watch once, in some order |
| `WatchTable.WatchTable.StopAllWatches` | agentcore/client.go:629-654 | The table is empty, every stop function that was in it was called exactly once, and the error is nil iff all succeeded |
| `DesiredTheorems.StoreBeforeNotify` | agentcore/client.go:352-405 | In every run of any number of submitters, each configure notification has an earlier write to its target key with the same rpc id, uuid and target, and from then on the newest entry of that key is that write or a later one |
| `DesiredTheorems.LoadYieldsTheSubmission` | internal/kv/store.go:118-165 | When the newest entry of a key is a submission, loading its target yields that submission: same version, rpc id, uuid and target, and a record that encodes to the same bytes |
| `DesiredTheorems.LatestIsLatest` | internal/kv/store.go:133-140 | The entry that a read returns is the one with the highest revision of that key |
| `DesiredTheorems.AckCoversOwnWrite` | agentcore/client.go:407-416 | The revision in an acknowledgement is at least that of the submitter's own write |
| `DesiredAnswers.SubmitAnswers` | agentcore/client.go:343-417 | In every run a submission has failed with a code iff the outcome of one of its steps called for that code, and is acknowledged iff its flush went through |
| `DesiredAnswers.SubmitRun` | agentcore/client.go:343-417 | A run in which a complete command for a valid target is acknowledged |
| `DesiredAnswers.SubmitterCanStep` | agentcore/client.go:343-417 | The next step of a submission can always go right, and then leads to the next stage or, at the first, names what is wrong with the command |
| `DesiredAnswers.StorePrepared` | internal/kv/store.go:67-92 | What stops a store before the write, in order: an incomplete record or a bad target, no connection, a failed encoding; else the key is the formatted pattern |
| `DesiredAnswers.ReadBackReports` | internal/kv/store.go:94-112 | The reported revision and time are those of the newest entry of the key if it can be read back, else of the own write |
| `DesiredAnswers.SendingDoes` | agentcore/client.go:377-416 | The notification and the acknowledgement field by field, with the metadata of the store and the same time |
| `DesiredAnswers.LoadYieldsTheNewest` | internal/kv/store.go:133-165 | Loading yields the newest entry of the target field by field, with the time of the entry or else of the record; what cannot be decoded, or is incomplete, is an error |
| `DesiredAnswers.LoadTurnedDown` | internal/kv/store.go:117-145 | A bad target is a validation error, a target without an entry is not found |
| `DesiredAnswers.OnlySendingFails` | agentcore/client.go:372-405 | After a successful store a step of the submitter fails iff the clock reads zero or sending fails, with the code of that failure |
| `DesiredTheorems.NotificationReadyIffClock` | agentcore/client.go:372-389 | After a store the notification passes its checks iff the clock is not zero |
| `DesiredTheorems.ValidatorsAgree` | internal/kv/helpers.go:61-81 | The token validators of the KV store and of the subjects accept the same names |
| `DesiredTheorems.KeyBuiltIffToken` | internal/kv/helpers.go:11-30 | A configured client can build a key iff the target is a valid token, and the key is not blank |
| `DesiredTheorems.KeyPatternAcceptedIff` | internal/session/options.go:188-200 | A key pattern is accepted iff it has no whitespace and is two percent-free literals around one placeholder |
| `DesiredTheorems.KeysDetermineTargets` | internal/kv/helpers.go:11-30 | Two targets share a key only if they are equal: one slot per target |
| `DesiredTheorems.NormalizedIsValid` | internal/session/options.go:144-155 | The normalised bucket and key pattern are trimmed and not blank |
| `DesiredTheorems.Reachable` | agentcore/client.go:343-417 | The invariant behind these holds in every state of every run |
| `Desired.NormalizeKV` | internal/session/options.go:144-155 | Trims, fills in the defaults, and rejects a bad key pattern |
| `DesiredStore.Store.constructor` | internal/kv/store.go:54-65 | The bucket starts empty |
| `DesiredStore.Store.StoreDesiredConfig` | internal/kv/store.go:67-115 | One entry is appended iff the record, the connection and the write are good; revision and creation time come from the read back if it succeeds |
| `DesiredStore.Store.LoadDesiredConfig` | internal/kv/store.go:117-165 | The newest entry of the target, or the first error in the order of the source: bad target, no connection, failed read, nothing stored, undecodable |
| `DesiredStore.Store.SubmitConfigure` | agentcore/client.go:343-417 | Acknowledged iff every stage succeeds; the log grows iff the store goes through, the wire iff the publish then does, even if the flush fails; each failure has its code |
| `DesiredStore.Store.Send` | agentcore/client.go:391-405 | The notification is on the wire unless sending fails before the flush |
| `DesiredStore.StoredIsReady` | agentcore/client.go:372-389 | The notification for a stored record carries its ids, bucket and key |
| `SubjectTheorems.NameAcceptedIffToken` | internal/subjects/validate.go:20-58 | A target or action is accepted iff it is a non-empty string of letters, digits, underscore and hyphen |
| `SubjectTheorems.TokenLacks` | internal/subjects/validate.go:39-58 | No accepted token has a percent sign, wildcard, dot, bar or listed whitespace |
| `SubjectTheorems.PatternAcceptedIffJoined` | internal/subjects/validate.go:60-84 | The count-and-residual test with n placeholders accepts exactly the clean nonblank strings that are n+1 percent-free literals joined by %s |
| `SubjectTheorems.AcceptedPatternInterleaves` | internal/subjects/subjects.go:121-161 | For such a pattern formatting is the plain interleaving of literals and arguments |
| `SubjectTheorems.TargetSubjectBuilt` | internal/subjects/subjects.go:121-161 | For any accepted pattern: the token in the gap of the pattern, or a validation error if it is no token |
| `SubjectTheorems.ActionSubjectBuilt` | internal/subjects/subjects.go:129-137 | The same with two tokens |
| `SubjectTheorems.SubjectIsClean` | internal/subjects/subjects.go:121-161 | Formatting accepted tokens introduces no percent sign, wildcard or listed whitespace |
| `SubjectTheorems.CharIffInPattern` | internal/subjects/subjects.go:121-161 | A bar, dot, wildcard or listed whitespace is in a subject iff it is in the pattern |
| `SubjectTheorems.OnePlaceholderInjective` | internal/subjects/subjects.go:121-126 | A subject or key with one placeholder determines its argument |
| `SubjectTheorems.TwoPlaceholdersInjectiveIff` | internal/subjects/subjects.go:129-137 | Action subjects determine target and action iff the middle literal has a non-token character |
| `SubjectTheorems.Collision` | internal/subjects/subjects.go:129-137 | Two different pairs that share a subject when the middle literal has none |
| `SubjectTheorems.DefaultSubjectReadsBack` | internal/subjects/subjects.go:7-18 | Splitting a default subject at its dots gives back kind, target and action |
| `SubjectTheorems.DefaultSubjectsDisjoint` | internal/subjects/subjects.go:7-18 | Two messages share a default subject only if kind and tokens agree |
| `Subjects.PatternsFromConfig` | internal/subjects/subjects.go:50-86 | Configured patterns win over defaults field by field, and the whole is valid or rejected |
| `Watch.ConsumeWatch` | internal/kv/watch.go:84-135 | The log of the loop is the specified one for all sequences of updates; ready and done are never closed twice, ready is closed iff a nil entry came or the loop ended, done iff it ended |
| `Watch.ConsumeUpdates` | internal/kv/watch.go:96-134 | The loop itself: the log so far is the specified one, and ready is closed iff a nil entry was consumed |
| `Watch.Turn` | internal/kv/watch.go:99-134 | One turn: only the first nil entry closes ready |
| `Watch.HandleEntry` | internal/kv/watch.go:108-133 | One entry: nothing, one report, or one handler call and a report if that fails |
| `Watch.Signal.Close` | internal/kv/watch.go:85-93 | A channel is closed at most once |
| `WatchLoop.HandlesTheDecodable` | internal/kv/watch.go:96-134 | The handler is called with exactly the decodable non-empty updates consumed, in order, each with its record, bucket, key, revision and time; there is one report per decode or handler failure, in order, and it says which |
| `WatchLoop.ReadyClosedOnce` | internal/kv/watch.go:87-107 | ready is closed exactly once, right after the values before the first nil entry, or at the exit |
| `WatchLoop.DoneClosedLast` | internal/kv/watch.go:85-93 | done is closed iff the loop ended, once, last of all, and after ready |
| `WatchLoop.EndIsFirst` | internal/kv/watch.go:98-105 | The loop ends at the first turn that sees the context cancelled or the channel closed |
| `WatchLifecycle.SilentAfterStop` | internal/kv/watch.go:50-65 | Once a stop, or a failed WatchDesiredConfig, has returned, the consumer is gone for good and the handler is never called again |
| `WatchLifecycle.OpenedWhenReady` | internal/kv/watch.go:50-67 | A watch is only handed out when ready is closed |
| `WatchLifecycle.OpenAnswers` | internal/kv/watch.go:50-82 | In every run the watch is handed out iff the waiting caller saw that it was ready; the caller gets a read error iff it saw that the loop had ended, or its wait ran out |
| `WatchLifecycle.WaitingCanEnd` | internal/kv/watch.go:70-82 | A waiting caller can see a closed ready or done, and can always run out of time |
| `WatchLifecycle.StepsRunOut` | internal/kv/watch.go:50-65 | Every step of opening, of cleaning up after it, and of a stop lowers what is left of it |
| `WatchLifecycle.OpenerCanStep` | internal/kv/watch.go:50-55 | Cleaning up after a failed open never gets stuck, but for waiting for done |
| `WatchLifecycle.StopperCanStep` | internal/kv/watch.go:57-65 | A stop never gets stuck, but for waiting for done or for another call of the same stop |
| `WatchLifecycle.ConsumerTells` | internal/kv/watch.go:87-134 | In every run ready is closed iff a nil entry was seen or the loop has ended and marked it, and the handler was called once for each turn that the select took for it |
| `WatchLifecycle.OpenRun` | internal/kv/watch.go:50-67 | A run in which the initial values arrive in time and the watch is handed out |
| `WatchLifecycle.DoneComes` | internal/kv/watch.go:84-93 | Whoever waits for done has cancelled the watch before, so the consumer is at most four steps from closing done |
| `WatchLifecycle.EndsForAReason` | internal/kv/watch.go:97-105 | The loop ends only when the watch was cancelled or the channel of updates was closed |
| `WatchLifecycle.InvKept` | internal/kv/watch.go:38-67 | Every step of consumer, opener, stops and parent keeps the life-cycle invariant |

## Left out

- Real NATS, JetStream and KV calls, TLS and credentials, deadlines and goroutine scheduling: each call is a step with a
  free outcome. A closed connection stays closed, and revisions of a bucket rise. KV expiry and deletes are not modelled.
- JSON: the codec is a parameter. Only `LoadYieldsTheSubmission` assumes something of it, as a precondition: what a valid
  record was encoded to decodes to a valid record with the same version, ids and target that encodes to the same bytes. The
  payload may be compacted on the way.
- `internal/contract` and the validators of the envelopes other than the configure command, its record and its
  notification: flat checks that one reading settles.
- SubmitAction, PublishResult and PublishStatus: validation followed by one publish.
- `unicode.IsLetter` and `unicode.IsDigit`: a parameter that agrees with ASCII and contains no space. Strings are sequences
  of Unicode scalars, so text that is not valid UTF-8 is not covered.
- `fmt.Sprintf`: only %s and %% are given a meaning; everything else yields no result instead of the error text that Go
  writes into its output. Accepted patterns never get there.
- The 64-bit counters of registrations and watches are natural numbers and never wrap around.
- Logging, metrics, error texts, the error sink, and recovery from panicking handlers. Error codes are kept; where the
  source joins several errors, the model keeps whether there is one.
- The tests of createSubscriptionForRecord and subscribeInternal for an unknown kind, a blank subject and a missing
  callback: no registration made through the client has one.
- A handler that calls the stop of its own watch waits for itself; the model has handlers that return.
- `internal/transport` beyond how a publish or a flush can fail, and `normalizeConfig` beyond the bucket and the key
  pattern.
- RegistryState.RegistryAgrees: takes an Add as one operation; RegistryRace and HandleProtocol have the counter bump and
  the insertion as two steps.
- Client.Client.Start: the session is a parameter of the call, so a callback of the session that arrives during Start or
  Close is only covered by the step systems.
- HandleTheorems.OnlyOverlapLoses: one direction only; an overlap need not lose anything. The exact condition is in
  HandleLimits.LostIffWrittenOver.
- HandlerContext.CallbacksHaveAContext: one direction only; an overlap need not break the link. The exact condition is in
  HandlerContext.LinkedIffNeverBroken.
- WatchTheorems.StopsAtMostOnce: a stop function is never nil, which is what WatchDesiredConfig guarantees.
- DesiredStore.Store.SubmitConfigure: runs without interruption; DesiredProtocol has the interleaved version, and
  DesiredTheorems states what other writers can change.
- Watch.ConsumeWatch: the decoder is a parameter; decodeDesiredConfigRecord is Desired.DecodeRecord for a configuration.
- WatchLifecycle.SilentAfterStop: starts where the watcher is open; the checks of WatchDesiredConfig before that (handler,
  key, connection) return without having made anything.

# Verified model of the NATS agent client

A Dafny model of the agent client's runtime: the session protocol, the subscription registry and its
activation, the desired-config watches, the publish loop, store-then-notify configuration, and the names
that tie them together. `dafny verify dfyconfig.toml` checks all of it; nothing here runs the client.

| File | What it models |
|---|---|
| `Text.dfy`, `Subjects.dfy`, `Naming.dfy` | trimming, token and pattern validation, substitution, subjects and keys |
| `RegistrationKeys.dfy`, `Registry.dfy`, `RegistryRuns.dfy` | the registry, its index, and sequences of its operations |
| `Session.dfy`, `SessionRuns.dfy`, `SessionHealth.dfy` | the sections under the session mutex, all their interleavings, and what each step may do to connection and state |
| `Subscriptions.dfy`, `SubscriptionRuns.dfy` | activation, batch restore, rollback and deactivation; conservation over interleavings |
| `StartRuns.dfy`, `StartRace.dfy` | client Starts, registrations, restores, detachments and the session in one system |
| `Watches.dfy`, `WatchRuns.dfy` | the sections under the watch mutex, and all interleavings of registrations, stops and restores |
| `Records.dfy`, `WatchStream.dfy` | stored records, and the consumer of one watch |
| `Publisher.dfy` | the retry loop |
| `Configure.dfy`, `ConfigureRuns.dfy` | one submission with all its exits, and many submitters at once |
| `Lifecycle.dfy`, `LifecycleRaces.dfy` | the callback gate, Start, Close and the reconnect hook of the client; a Start racing with a closing call |

## How it is built

Code that runs under a mutex becomes one method per locked section, specified by a function or a relation
on the state before and after. Runs are sequences of such sections in any order, with every foreign
outcome (dialing, JetStream, KV, flush, drain, context ends, link changes) chosen freely, and the theorems
quantify over all runs. Loops are methods with invariants against a specification that does not mention
the loop. Contracts of the main operations are written out in terms of their arguments and the state they
find, beside the functions that tie them to the runs. Where a fact fails in the code, a concrete run shows
it and an equivalence says when it holds:

- A Start admitted while a Close is in flight can end with a live connection that nobody owns
  (`SessionRuns.OverlapLeaks`); over every run a live connection is without owner exactly when the
  final section of a Close erased it (`SessionRuns.LeaksAreErased`).
- A restore or stop-all that meets a watch registration in flight can lose a watcher
  (`WatchRuns.RacedRegistrationLeaks`); over every run a watcher is lost exactly when the end of its id's own
  registration drops it (`WatchRuns.LeakedIffDropped`, with the condition of `WatchRuns.LeaksExactlyWhatItDrops`),
  so nothing is lost once a registration has returned (`WatchRuns.RegisteredWatchesAreKept`).
- A Start on a client that is already open can return nil with registrations inactive, when a reconnect
  restore fails between its activation and its return (`StartRace.RestoreUndoesStart`);
  `StartRuns.ActivationIsExact` and `StartRuns.NoLostActivation` say exactly when all are active, and
  `StartRuns.NilStartWasConnected` what every Start that returns nil has behind it.
- A session-closed callback between the last two writes of a Start leaves callbacks enabled on a dead context
  (`LifecycleRaces.ClosedBetweenTheWrites`); `LifecycleRaces.OpenOnDeadContextIff` gives the exact
  interleavings.
- An action pattern whose middle literal could itself be part of a name maps two different
  (target, action) pairs to one subject (`Subjects.CollidingPairs`); `Subjects.TwoPlaceholdersInjectiveIff`
  and, for registration keys, `RegistrationKeys.ActionConflictsIff` give the exact condition.

## Model

| member | source | states |
|---|---|---|
| `Text.TrimSpaceEmpty` | internal/subjects/validate.go:20-28 | the required-field test: trimming leaves nothing exactly when every character is white space |
| `Text.TrimSpaceIdempotent` | internal/session/options.go:142-148 | a trimmed configuration value has no white space left at either end, so trimming it again changes nothing |
| `Text.TrimSpaceIs` | internal/session/options.go:142-148 | trimming cuts all white space off both ends and nothing else: the result is the one middle piece of the text that has none at its ends |
| `Text.WeaveLiterals` | internal/subjects/validate.go:60-84 | a pattern is its literals with its placeholders between them, one more literal than placeholders |
| `Text.LiteralsResidual` | internal/subjects/validate.go:78-82 | what removing every placeholder leaves is the literals joined, so the stray-percent test looks at exactly them |
| `Text.SprintfIsWeave` | internal/subjects/subjects.go:121-161 | a character-scanning formatter never meets a bad, missing or extra verb on literals without percent signs, and yields them with the arguments spliced in order |
| `Text.LiteralsOfWeave` | internal/subjects/validate.go:60-84 | splitting a woven pattern gives back its literals |
| `Subjects.TargetsAreTokens` | internal/subjects/validate.go:20-58 | the target and action checks, taken in their order, accept exactly the non-empty strings of letters, digits, '_' and '-' |
| `Subjects.RefusalIsTrue` | internal/subjects/validate.go:20-58 | the reason given for refusing a name is a true one |
| `Subjects.PatternAcceptance` | internal/subjects/validate.go:60-84 | a pattern is accepted if and only if it decomposes into clean literals around the demanded number of placeholders |
| `Subjects.SubstitutionIsExact` | internal/subjects/subjects.go:121-161 | for every accepted pattern and valid names the subject is the literals with the names in place, free of wildcards, percent signs and the rejected white space |
| `Subjects.OnePlaceholderInjective` | internal/subjects/subjects.go:121-127 | two targets with the same subject are the same target |
| `Subjects.TwoPlaceholdersInjectiveIff` | internal/subjects/subjects.go:129-138 | an accepted action pattern separates all (target, action) pairs if and only if the literal between its placeholders holds a character no name can hold, such as '.' |
| `Subjects.CollidingPairs` | internal/subjects/subjects.go:129-138 | otherwise two concrete pairs share one subject |
| `Subjects.ResolvedPatterns` | internal/subjects/subjects.go:50-113 | each configured pattern is kept, each missing one replaced by its own default, and the set accepted, by the resolution and by the builder alike, iff all five are acceptable |
| `Subjects.ResolvedBuilderNeverMalforms` | internal/subjects/subjects.go:50-161 | every pattern set resolved from configuration passes the builder's second validation, and each of the five builders then makes a subject for exactly the valid names: well formed, with the names between the literals of its own pattern |
| `Naming.NormalizedPattern` | internal/session/options.go:142-148 | a key pattern that normalization hands on is trimmed, non-empty and valid, the default included |
| `Naming.KeyPatternAcceptance` | internal/session/options.go:181-193 | a key pattern is accepted iff it is one placeholder between two pieces of text without white space and percent signs |
| `Naming.NormalizationIs` | internal/session/options.go:142-148 | normalization trims what is configured, puts 'desired.%s' in the place of nothing, and fails exactly for what is then no key pattern |
| `Naming.KeyBuilderChecks` | internal/kv/helpers.go:11-30 | whatever the pattern, the builder fails for a pattern the options would refuse or for an invalid target, and for nothing else |
| `Naming.KeyBuilding` | internal/kv/helpers.go:11-30 | after normalization building a key fails for invalid targets only, and the key is the pattern's text around the target |
| `Naming.KeysAreDistinct` | internal/kv/helpers.go:11-30 | distinct valid targets have distinct keys |
| `Naming.NormalIsKept` | internal/session/options.go:142-148 | normalization leaves a normalized pattern alone |
| `Naming.ValidatorsAgree` | internal/kv/helpers.go:61-81 | the two independently written token validators agree in verdict and reason |
| `Naming.NamingCannotFailHalfway` | agentcore/client.go:385-408 | once a key has been built for a target its configure subject can be built too, and conversely, and both are well formed |
| `Text.TrimAround` | internal/registry/registry.go:235-237 | trimming reaches no further than a word without space at either end |
| `RegistrationKeys.SubjectText` | internal/subjects/subjects.go:121-153 | under every accepted set of patterns the subject of a route is its names between the literals of the pattern of its kind |
| `RegistrationKeys.SubjectOfKind` | internal/subjects/subjects.go:121-153 | written out for each kind: configure, action, result and status registrations are each on the text of their own pattern around their names |
| `RegistrationKeys.ConflictMeansSameness` | internal/registry/registry.go:235-237 | under every accepted set of patterns two registrations get the same key if and only if kind, target, action and trimmed queue group agree, whatever the queue groups and literals contain; for actions this takes a pattern that tells targets from actions |
| `RegistrationKeys.ActionConflictsIff` | internal/registry/registry.go:235-237 | and that condition is exact: without it two different action routes share a subject and so a key |
| `RegistrationKeys.DefaultActionsSeparate` | internal/subjects/subjects.go:7-18 | the default action pattern is accepted and meets the condition |
| `Registry.RegNameInjective` | internal/registry/registry.go:35 | two counter values never print as the same id |
| `Registry.SubscriptionRegistry.Add` | internal/registry/registry.go:30-66 | fails for a missing kind, subject or callback and for a key in use, naming who has it, and then changes at most the counter; otherwise files exactly what was specified, inactive, under a new id with an index entry; a conflict uses up a counter value |
| `Registry.SubscriptionRegistry.MarkActive` | internal/registry/registry.go:94-120 | puts the handle into that entry and no other, clears its error, and returns the different handle it displaces; an unknown id changes nothing |
| `Registry.SubscriptionRegistry.MarkInactive` | internal/registry/registry.go:122-136 | drops the handle of that entry alone and notes the error, keeping the old one if there is none |
| `Registry.SubscriptionRegistry.ClearActiveHandles` | internal/registry/registry.go:138-157 | detaches every handle, changes nothing else of the entries, and returns exactly those handles, each once with its own entry's id |
| `Registry.SubscriptionRegistry.Remove` | internal/registry/registry.go:160-179 | removes that entry with its index entry and no other, and returns it with its handle |
| `Registry.SubscriptionRegistry.ListActivations` | internal/registry/registry.go:81-92 | lists every entry exactly once |
| `Registry.SubscriptionRegistry.Counts` | internal/registry/registry.go:194-205 | returns the number of entries and the number of active ones |
| `RegistryRuns.IndexIsExact` | internal/registry/registry.go:30-205 | after any sequence of operations the index finds each entry under its recomputed key and nothing else, no two entries share a key, and an entry is active iff it holds a handle |
| `RegistryRuns.IdsAreNeverReused` | internal/registry/registry.go:35-66 | an id that has left the table never comes back |
| `RegistryRuns.HandleFlow` | internal/registry/registry.go:94-179 | a handle enters an entry only by MarkActive for it and leaves only as a returned value or by MarkInactive |
| `Session.Manager.StartBegin` | internal/session/session.go:165-201 | keeps the manager coherent; each refusal exactly for its own reason, in the order of the source; a stored connection is kept iff it is not closed and nothing is under way; a Start is let in iff nothing is under way, retrying is not configured and there is no connection but a closed one; it then holds the start flag, and in every other case nothing changes |
| `Session.Manager.StartCommit` | internal/session/session.go:281-299 | keeps the manager coherent; its connection is installed iff no Close has asked for its turn, and Connected is entered iff it is; otherwise the stored connection stays and the Close counts as done |
| `Session.Manager.StartExit` | internal/session/session.go:203-216 | however a Start ends, both flags are down and its channel is closed; the handles are not touched and coherence is kept |
| `Session.Manager.Start` | internal/session/session.go:151-307 | an undisturbed Start returns nil iff neither a Start nor a Close is under way, retrying is not configured, and there is a connection to keep or its own is installed: never during a Close; it changes nothing when it is refused or keeps a connection, and otherwise leaves the manager free for the next call, with the handles as they were if it failed |
| `Session.Manager.CloseBegin` | internal/session/session.go:314-335 | keeps the manager coherent; nothing happens while a Close is under way or when there is nothing to close, otherwise the flags go up and the verdict names the very Start to wait for or connection to drain |
| `Session.Manager.CloseFinish` | internal/session/session.go:363-374 | keeps the manager coherent; no handle and no close flag is left, and a Start under way is not touched |
| `Session.Manager.Close` | internal/session/session.go:309-387 | an undisturbed Close drains the stored connection, leaves no handle, and leaves a manager that a Start can be let into again; a second one does nothing while one is under way |
| `Session.Manager.RebindCommit` | internal/session/callbacks.go:106-125 | keeps the manager coherent; the handles of the stored connection are renewed and no other, so a stale rebind, or one while closing, changes nothing |
| `Session.Manager.Connection` | internal/session/session.go:106-120 | a connection is handed out iff the bucket handle is there too and the link is up, and that handle is built from it |
| `Session.Manager.KeyValueHandle` | internal/session/session.go:390-404 | a bucket handle that is handed out belongs to the stored connection |
| `SessionRuns.HandlesAreCoherent` | internal/session/session.go:281-299 | in every interleaving, stale rebinds included: the three handles are all absent or all built from the stored connection, Connected implies both readiness flags, and these agree |
| `SessionRuns.FlagsAndChannels` | internal/session/session.go:165-216 | in every interleaving: closing equals closeRequested and implies a Start in flight or the Close that set it; starting holds iff the channel exists; every channel waited on is the current one or closed; none is closed twice |
| `SessionRuns.FlagsCanAlwaysClear` | internal/session/session.go:309-374 | from every reachable state the calls in flight can finish and leave both flags down |
| `SessionRuns.OwnerIsLostIff` | internal/session/session.go:363-374 | in every state of every run, for every connection still live after a step: it has no owner iff it had none before, or the step is the final section of a Close and the connection is the one stored at that moment |
| `SessionRuns.LeaksAreErased` | internal/session/session.go:151-439 | hence over every run, whatever overlaps: a live connection is without owner if and only if some Close erased it in its final section |
| `SessionRuns.OnlyFinishingCloseCanLeak` | internal/session/session.go:363-374 | as long as nothing is lost, a step loses a connection exactly when it is the final section of a Close that finds a live connection stored |
| `SessionRuns.EveryLiveConnectionHasOneOwner` | internal/session/session.go:151-439 | when no Start is admitted during a Close, every live connection has exactly one owner: the manager, one Start, or the late-dial reaper |
| `SessionRuns.FinishedCloseLeavesNothing` | internal/session/session.go:309-387 | in such a run, when a Close executes its final section no connection is live but those owed to the reaper |
| `SessionRuns.HandlesStayAbsent` | internal/session/callbacks.go:106-118 | after that the handles stay absent until a Start commits, whatever stale rebinds and callbacks do |
| `SessionRuns.DrainEndsConnection` | internal/session/session.go:358-361 | draining leaves the connection a Close has in hand live to nobody: closed if the drain failed, draining otherwise |
| `SessionRuns.GivenUpCloseLeavesRequest` | internal/session/session.go:337-351 | a Close that gives up its wait is over but leaves flags and handles as they are, for the Start it waited for |
| `SessionRuns.ReconnectStartsRebind` | internal/session/callbacks.go:38-104 | a reconnect starts a rebind unless a Close is under way, and one that fails degrades the health without touching a handle |
| `SessionRuns.LateDialIsReaped` | internal/session/session.go:429-440 | a dial that its Start abandoned may still connect; that connection is the reaper's until it is closed, and never the manager's |
| `SessionRuns.OverlapLeaks` | internal/session/session.go:210-214 | without that restriction ownership fails: a concrete run ends with every call returned and a live connection that nobody owns |
| `SessionHealth.ConnectionChanges` | internal/session/callbacks.go:12-125 | whatever the step, callbacks and rebinds included: only the commit of a Start puts a connection in, its own and only when not closing, and only the final section of Close takes it out |
| `SessionHealth.StateChanges` | internal/session/health.go:3-48 | Connecting is entered by an admitted Start and nothing else, New by nothing, Connected by a commit or by a rebind of the stored connection |
| `SessionHealth.UpStaysUp` | internal/session/health.go:3-48 | once out of New and Connecting the state stays out of them until another Start is let in |
| `SessionHealth.StepKeepsStateFits` | internal/session/session.go:151-307 | every step keeps: Connecting belongs to a Start that has neither failed nor committed, New to a manager that never had a connection |
| `SessionHealth.KeptConnectionIsUp` | internal/session/session.go:193-196 | a Start that returns nil at once finds the session up |
| `Subscriptions.SubscriptionRuntime.Subscribe` | agentcore/handlers_runtime.go:574-620 | a subscription is made iff the kind is one of the four, the subject is not blank, and the connection makes and, if asked, flushes it; it is on the intent's subject and callback, in its queue group unless that is blank; a failure leaves nothing live |
| `Subscriptions.FailureIff` | agentcore/handlers_runtime.go:394-413 | the same condition for every use of it: a failed flush counts only where a flush was asked for |
| `Subscriptions.SubscriptionRuntime.ActivateRecord` | agentcore/handlers_runtime.go:343-386 | an active record is left alone; otherwise the entry, and no other, gets the new handle, or the error; nil iff it was active or the subscription was made and flushed |
| `Subscriptions.SubscriptionRuntime.ActivateAll` | agentcore/handlers_runtime.go:204-217 | every inactive registration is tried once, the active ones are untouched, and reported are exactly the inactive ones that cannot be subscribed or were not made and flushed |
| `Subscriptions.SubscriptionRuntime.Restore` | agentcore/handlers_runtime.go:219-310 | all exits of the batch: reported are exactly the registrations no subscription could be made for, and the batch failed iff something was created and the connection was lost or the flush failed |
| `Subscriptions.SubscriptionRuntime.Register` | agentcore/handlers_runtime.go:24-62 | add, activate unless the session is not up yet, and take back on failure; the health counters stay equal to the registry's |
| `Subscriptions.SubscriptionRuntime.Rollback` | agentcore/handlers_runtime.go:452-469 | removes the entry and unsubscribes its handle |
| `Subscriptions.SubscriptionRuntime.DeactivateAll` | agentcore/handlers_runtime.go:427-450 | no entry keeps a handle and exactly the handles held are unsubscribed |
| `Subscriptions.RestoredAccounts` | agentcore/handlers_runtime.go:219-310 | after any exit of a restore each handle is one created by it and no intent has changed |
| `SubscriptionRuns.SubscriptionsAreConserved` | agentcore/handlers_runtime.go:204-310 | over all interleavings, whenever the mutex is free the live subscriptions are exactly the active handles plus those detached and not yet unsubscribed, disjoint, one per registration, each on its own entry's subject, queue group and callback |
| `SubscriptionRuns.RestoreExits` | agentcore/handlers_runtime.go:219-310 | on every exit intent and index are untouched and what is live is what was live unheld plus exactly the handles now held, all of them new: those of the created subscriptions if the batch was flushed, none otherwise; the error is nil iff a subscription was created for every registration and, if there are any, the batch was flushed, which is when every registration is active |
| `SubscriptionRuns.RegistrationIsTransactional` | agentcore/handlers_runtime.go:24-62 | a failed registration leaves entries, index and live subscriptions as they were; a success adds one entry and disturbs no other |
| `SubscriptionRuns.RegistrationOutcome` | agentcore/handlers_runtime.go:24-62 | a registration succeeds iff it is complete, its key is free, and the session is not up yet or its subscription is made; what is filed is what was specified, and what is subscribed is that subject, queue group and callback |
| `StartRuns.ActivationIsExact` | agentcore/handlers_runtime.go:185-217 | over all interleavings of client Starts, registrations, restores, detachments and every session step, all registrations are active if and only if the results of the calls say so: the last activation or restore returned nil, and since then none was deferred or detached |
| `StartRuns.StartCallGoesOn` | internal/session/session.go:165-196 | a client Start gets past the session at once iff nothing is under way there and a connection that is not closed is stored; without one it is let in; otherwise it is refused |
| `StartRuns.NilStartWasConnected` | agentcore/client.go:256-276 | in every run a Start that returns nil has first got a connection, one stored and not closed or its own, while no Close was under way, and has after that activated all registrations |
| `StartRuns.OpenIff` | agentcore/client.go:256-281 | in every run callbacks are enabled iff a Start has returned nil and since then no closing call has begun and no activation has failed |
| `StartRuns.RestoresAnswerReconnects` | agentcore/handlers_runtime.go:477-480 | in every run each restore answers a reconnect of its own, and one that found callbacks enabled as a Start had left them |
| `StartRuns.NoLostActivation` | agentcore/client.go:256-276 | for any Start of any run: from its activation to its return, with nothing detached then and no other Start let into the session while this one was past it, all registrations are active if and only if the last activation or restore since then returned nil; what other Starts did earlier does not matter |
| `StartRuns.ActiveMeansLive` | agentcore/handlers_runtime.go:343-386 | an active registration holds a live subscription on its own subject, queue group and callback |
| `StartRuns.NilRegistrationsStay` | agentcore/handlers_runtime.go:24-62 | a registration that returned nil, whenever it ran, is on the table from then on |
| `StartRuns.HandlesAreKept` | agentcore/handlers_runtime.go:204-217 | as long as nothing is restored or detached a registration that holds a handle keeps it, so it is subscribed once |
| `StartRace.RestoreUndoesStart` | agentcore/client.go:256-276 | the condition on the last restore is needed: in a concrete run a second Start is past its activation, about to return nil, while a registration is inactive because a reconnect restore failed |
| `StartRuns.RepeatedActivationIsIdle` | agentcore/client.go:256-276 | activating a fully active client subscribes nothing and changes no handle |
| `Watches.WatchTable.WatchDesiredConfig` | agentcore/client.go:580-638 | an undisturbed registration lists one new intent with its watcher under a fresh id, or leaves the table as it was but for the counter |
| `Watches.WatchTable.RegisterDone` | agentcore/client.go:636-638 | never lists an id: one taken off meanwhile stays off, and no other intent is touched |
| `Watches.WatchTable.UserStop` | agentcore/client.go:640-653 | an undisturbed user stop takes its id off, stops the watcher of its own intent and no other, and stops nothing when called again |
| `Watches.WatchTable.StopAll` | agentcore/client.go:784-810 | every listed watcher is stopped once, whatever errors the others return, and the result is nil iff none returned one |
| `Watches.WatchTable.TakeAll` | agentcore/client.go:784-793 | empties the table and returns each stop function it held once |
| `Watches.WatchTable.Snapshot` | agentcore/client.go:689-706 | drops and stops the intents whose context ended, and copies exactly the others with their targets |
| `Watches.WatchTable.Commit` | agentcore/client.go:748-782 | each result is installed, stopped because its intent is gone, or reported; each displaced stop function is called once; the result names the listed intents that failed |
| `WatchRuns.HolderMoves` | agentcore/client.go:681-810 | one step takes a watcher from its holder to the holder that the step's section names |
| `WatchRuns.HolderCameFrom` | agentcore/client.go:681-810 | and every holder after a step got its watcher from one holder before it |
| `WatchRuns.LeaksExactlyWhatItDrops` | agentcore/client.go:628-638 | a step leaves a watcher without holder if and only if it ends a registration whose intent is gone, or whose intent a restore has meanwhile given a stop function |
| `WatchRuns.LeakedIffDropped` | agentcore/client.go:580-810 | over every run, overlapping restores and stop-alls included: a watcher is without holder if and only if some earlier step of the run, the end of its own id's registration, dropped it |
| `WatchRuns.RegisteredWatchesAreKept` | agentcore/client.go:580-810 | once the registration of an id has returned, no watcher of that id is ever lost again, neither one that was not lost by then nor any that a later restore opens, whatever met the registration while it ran |
| `WatchRuns.WatchersAreConserved` | agentcore/client.go:580-810 | every watcher of every run has at most one holder (an intent, a restore, a registration or one stop call), one of its own id and the target asked for that id, and it has one if and only if it was never dropped |
| `WatchRuns.LeaksAreRaced` | agentcore/client.go:628-638 | a registration that no snapshot and no stop-all met while it was in flight drops nothing |
| `WatchRuns.AtRestWatchersAreListedOrStopped` | agentcore/client.go:639-653 | with nothing in flight every watcher ever opened is exactly one of: the stop function of its listed intent, stopped by exactly one call, or dropped at the end of its registration |
| `WatchRuns.RemovedIdsStayRemoved` | agentcore/client.go:748-782 | an id taken off the table is never put back by a restore that listed it earlier |
| `WatchRuns.RacedRegistrationLeaks` | agentcore/client.go:590-637 | drops do happen: a concrete run in which a restore meets a registration in flight loses a watcher |
| `WatchStream.ConsumeWatch` | internal/kv/watch.go:104-179 | for any stream: nothing is handed over before a marker, then exactly the decodable updates in order; readiness once and first; every undecodable update, handler failure and unexpected end reported once |
| `WatchStream.UpdatesAreDeliveredInPlace` | internal/kv/watch.go:130-177 | each decodable update has its own place among the deliveries, after those of earlier updates |
| `WatchStream.DeliveredIsWhatWasWritten` | internal/kv/watch.go:142-171 | in its place stands, for a deletion, a purge or an empty value, a record marked deleted that names the watched target and nothing else, for any other update the decoded record, and nothing if that fails; bucket, key, revision and creation time are the update's own |
| `WatchStream.DeliveriesAreInOrder` | internal/kv/watch.go:128-177 | delivering calls the handler once for each record, in order, and reports each failure right after its call, and nothing else |
| `WatchStream.UpdatesAreAccountedFor` | internal/kv/watch.go:142-155 | every update is either delivered or reported as undecodable |
| `WatchStream.StopHandle.Stop` | internal/kv/watch.go:65-85 | however often it is called the watch is stopped once, and only that call can return an error |
| `Publisher.PublishOnce` | internal/transport/publisher.go:184-225 | for each of the four outcomes of an attempt: its result, the connection calls and the counter, none without a connection |
| `Publisher.Publish` | internal/transport/publisher.go:85-182 | an incomplete request is rejected and sends nothing; otherwise there is at least one round and at most as many as configured, one if that is not positive; the loop stops early only at a delivery, a failed flush or an ended context, and the last round alone decides the result |
| `Publisher.OneStop` | internal/transport/publisher.go:135-181 | the outcomes determine where the loop stops |
| `Publisher.PublishIsExact` | internal/transport/publisher.go:135-225 | at most one hand-over; nil iff it and its flush succeeded; success counted once iff nil; failures counted once per refused hand-over or failed flush |
| `Publisher.HandOffsAreRounds` | internal/transport/publisher.go:135-225 | the connection is handed the payload once in each round that gets that far and asked to flush once in each round that took it, so no more often than there are rounds |
| `Publisher.RetryableMeansNotSent` | internal/transport/publisher.go:154-225 | an error is marked retryable only if nothing was handed over, and a failed flush is never retried |
| `Configure.Backend.StoreDesiredConfig` | internal/kv/store.go:70-118 | succeeds iff the record is acceptable, the bucket connected, the encoder works and the put lands; a put that lands writes the encoded record under the key pattern's text around its target |
| `Configure.Backend.LoadDesiredConfig` | internal/kv/store.go:120-168 | fails on the name for invalid targets only; otherwise succeeds iff the target's key holds a value that reads as an acceptable record, which it returns at its revision, and finds nothing iff there is none or a tombstone |
| `Configure.Backend.SubmitConfigure` | agentcore/client.go:376-450 | every exit: the record goes under the key pattern's text around its target, the notification, with the command's own version, ids and target and that bucket and key, to the subject pattern's text around the same target, and the acknowledgement names both |
| `Configure.SubmissionOutcome` | agentcore/client.go:376-450 | stored iff acceptable and the put lands, announced iff after that the notification is handed over, acknowledged iff that is flushed too; each error has exactly its own cause |
| `Configure.NotificationsReachTheirHandlers` | agentcore/client.go:405-436 | of all configure handlers those registered for the submitted target, and no others, are on the subject of its notification |
| `Configure.ResolvedIsAccepted` | internal/session/options.go:137-148 | what normalization and the builder hand on meets every condition the store and the notification rely on |
| `Configure.ResolvedNames` | internal/session/options.go:137-148 | bucket and key pattern are what was configured, trimmed, or their defaults |
| `Configure.AcknowledgedMeansBoth` | agentcore/client.go:373-450 | an acknowledgement means stored, at the revision it names, and handed over; nothing is announced that was not stored |
| `Configure.ErrorsTellWhatHappened` | agentcore/client.go:373-450 | validation, context and connection errors leave no trace; a failed put announces nothing and has stored only if its answer was lost; every later error leaves the stored record; an error after the hand-over is a publish failure not to be retried |
| `Configure.StoredIsLoadable` | internal/kv/store.go:93-168 | a stored record loads back at its revision, and loads of other targets are unaffected |
| `Records.CodecIsGuarded` | internal/kv/store.go:200-243 | a record is written iff it is acceptable and can be encoded, and read back iff the value can be decoded into an acceptable record |
| `Records.RecordAcceptance` | internal/kv/store.go:245-274 | acceptable means: version, rpc id and uuid not blank, a valid target, a timestamp, and a payload of valid JSON |
| `Records.RejectionIsTrue` | internal/kv/store.go:245-274 | the reason given for refusing a record is a true one |
| `ConfigureRuns.NotificationsFollowTheirPut` | agentcore/client.go:395-427 | in every interleaving of submitters each notification follows its own put of the same command, whose version, ids and target it carries, under the key it names, the key pattern's text around that target |
| `ConfigureRuns.UnheardPutsStaySilent` | agentcore/client.go:385-408 | a put whose answer is lost is never announced |
| `ConfigureRuns.LoadsAreAtLeastAsNew` | internal/kv/store.go:120-168 | any load after a put returns a revision at least as new, or nothing because the key was deleted, or its value expired, since |
| `ConfigureRuns.LoadAtLastNotificationIsFinal` | agentcore/client.go:376-450 | if every applied put of a target is announced, a load at its last notification or later already reads the very entry that is there in the end |
| `ConfigureRuns.LoadFindsLastPut` | internal/kv/store.go:120-168 | and unless it was deleted or has expired since, that is the record of the target's last put, at its revision |
| `Lifecycle.Client.EnsureHandlerContext` | agentcore/client.go:327-344 | keeps a live context and replaces a dead one |
| `Lifecycle.Client.CancelHandlerContext` | agentcore/client.go:346-355 | ends the context with callbacks already disabled at every write |
| `Lifecycle.Client.Dispatch` | agentcore/handlers_runtime.go:622-654 | a callback that runs gets a context that is alive |
| `Lifecycle.Client.Start` | agentcore/client.go:256-276 | callbacks are enabled iff every inactive registration could be subscribed and flushed, all registrations are then active, a failed activation leaves none, and a repeated start keeps the context |
| `Lifecycle.Client.Close` | agentcore/client.go:278-297 | callbacks disabled and context dead, no handle held, no watch listed and each listed watcher stopped once; nil iff neither a stop nor the session returned an error |
| `Lifecycle.Client.OnSessionClosed` | agentcore/handlers_runtime.go:538-548 | callbacks disabled and context dead, no handle held |
| `LifecycleRaces.OpenOnDeadContextIff` | agentcore/client.go:273-281 | of all interleavings of a Start's last two writes with those of a Close or session-closed callback, exactly the clashing ones leave callbacks enabled on a dead context; every other leaves a settled gate |
| `LifecycleRaces.ClosedBetweenTheWrites` | agentcore/handlers_runtime.go:538-548 | a session-closed callback that runs between the two writes is such a clash |
| `LifecycleRaces.OneAfterTheOther` | agentcore/client.go:256-297 | calls that do not overlap never clash, and the later one decides |
| `Lifecycle.Client.RestoreWatches` | agentcore/client.go:681-782 | nil iff every copied watch could be reopened, and then every listed watch is served by a watcher this call opened |
| `Lifecycle.Client.OnSessionReconnected` | agentcore/handlers_runtime.go:477-514 | the user's hook runs iff the client is open, every registration could be subscribed again, the batch was flushed if there were any, and every remaining watch could be reopened; everything is then new |
| `Lifecycle.CommitOutcome` | agentcore/client.go:748-782 | the commit joins no error iff every copy was reopened, and then every listed watch is new |

## Left out

- NATS, JetStream, TLS and credentials: foreign calls are free outcomes; connection options and certificate loading would only add easy members.
- JSON: marshalling and validity are functions about which nothing is assumed, except that reading back a written record returns its fields, where a theorem says so. Envelope validators other than those of the configure command are not modelled.
- Time, deadlines and latency metrics: a deadline is a context that may be found done at any check.
- Logging, error texts, error sinks and panic recovery: not modelled; results carry the kind of an error.
- Heap identity of registry and watch entries: entries and intents are values in the maps of their class, which is sound because their pointers are used under the mutex; the one pointer kept across sections, that of a watch registration, is modelled as a write that has no effect once the intent is off the table.
- Counters: unbounded naturals, so the wrap-around of 64-bit ids is not modelled.
- The Unicode letter and digit tables: any table that excludes white space, '.', '*', '>', '%' and '|'.
- Unsubscribe and drain of a subscription: assumed to succeed, and "live" means created and not unsubscribed by the client.
- The forced activation flag: never set by any caller, so not modelled.
- The four families of register, bind and subscribe functions: one, parameterised by kind and subject.
- StartRuns.NoLostActivation: for runs in which no other Start is let into the session while this one is past it, which takes a connection that was closed in between; StartRuns.ActivationIsExact has no such condition.
- Lifecycle.Client.Start: lifecycle calls of one client follow one another in this class; LifecycleRaces.OpenOnDeadContextIff interleaves one Start with one closing call, and more than two at once are not covered; a reconnect that runs while Close does is outside this file, its parts are covered by SubscriptionRuns and WatchRuns.
- Lifecycle.Client.Dispatch: the flag and the context are read at one point between two writes; a callback that reads them around a write is not modelled.
- Lifecycle.Client.Close: the errors that are joined are reduced to whether there is one, and unsubscribing returns none.
- ConfigureRuns.LoadsAreAtLeastAsNew: a load reads the latest applied write; reads from a replica that lags behind are not modelled.
- Configure.Backend.SubmitConfigure: one submitter without interference; ConfigureRuns interleaves the put and the notification of many.
- Configure.Backend.Notify: the command type of a notification and the accepted flag of an acknowledgement are constants and not modelled.
- Configure.Backend.LoadDesiredConfig: returns the record and its revision; the bucket, key and creation time returned with them are not modelled.
- WatchStream.ConsumeWatch: the wait for readiness in WatchDesiredConfig, with its timeout and clean-up, is not modelled.
- Watches.WatchTable.Snapshot: a nil context of a watch, on which the code would panic, is not modelled.
- Publisher.Publish: the metrics recorder is present; without one the counters are not called.
- Connection identity in health: the callbacks that do not check which connection fired are modelled as they are, and no claim is made that health tracks the current connection.

/** Interleavings of registrations, activations, restores and deactivations. Everything but the second
    half of a deactivation runs under the subscription mutex, so a section is one step; a deactivation
    detaches its handles in one step and unsubscribes them one by one, unlocked, in later steps. */
module SubscriptionRuns {
  import opened Common
  import opened Text
  import opened RegistrationKeys
  import opened Registry
  import opened Subscriptions
  import Session

  /** detached names, for each handle detached and not yet unsubscribed, the deactivation that owes it. */
  datatype Sys = Sys(st: State, detached: map<SubId, nat>)

  datatype Event =
    | Registers(spec: AddSpec, state: Session.Lifecycle, o: Outcome, r: Result<RegId, RegisterError>)
    | ActivatesAll(out: RegId -> Outcome, created: map<RegId, SubId>)
    | Restores(outcomes: RegId -> Outcome, batch: Batch, recreated: map<RegId, SubId>)
    | Detaches(t: nat)
    | Unsubscribes(t: nat, s: SubId)

  ghost function HeldSubs(entries: map<RegId, Record>): set<SubId> {
    set id | id in entries && entries[id].activeSub.Some? :: entries[id].activeSub.value
  }

  ghost predicate Step(s: Sys, e: Event, s': Sys) {
    match e
    case Registers(spec, state, o, r) => s'.detached == s.detached && Registered(s.st, s'.st, spec, state, o, r)
    case ActivatesAll(out, created) => s'.detached == s.detached && ActivatedAll(s.st, s'.st, out, created)
    case Restores(out, batch, created) => s'.detached == s.detached && Restored(s.st, s'.st, out, batch, created)
    case Detaches(t) =>
      s' == Sys(s.st.(table := ClearHandles(s.st.table)), s.detached + map x | x in HeldSubs(s.st.table.entries) :: t)
    case Unsubscribes(t, x) =>
      && x in s.detached && s.detached[x] == t
      && s' == Sys(s.st.(live := s.st.live - {x}), s.detached - {x})
  }

  /** One execution: states.0 is the start and events.i leads from state i to state i + 1. */
  ghost predicate Execution(states: seq<Sys>, events: seq<Event>) {
    && |states| == |events| + 1
    && states[0] == Sys(State(Table(0, map[], map[]), map[], 0), map[])
    && forall i | 0 <= i < |events| :: Step(states[i], events[i], states[i + 1])
  }

  // ---------- the invariant ----------

  /** Every live subscription is an active handle or detached. */
  ghost predicate Covered(live: map<SubId, Wire>, entries: map<RegId, Record>, detached: map<SubId, nat>) {
    forall x | x in live :: HoldsSub(entries, x) || x in detached
  }

  /** Detached handles are live and are no entry's handle. */
  ghost predicate Apart(live: map<SubId, Wire>, entries: map<RegId, Record>, detached: map<SubId, nat>) {
    forall x | x in detached :: x in live && !HoldsSub(entries, x)
  }

  ghost predicate Conserved(s: Sys) {
    && Sound(s.st)
    && Covered(s.st.live, s.st.table.entries, s.detached)
    && Apart(s.st.live, s.st.table.entries, s.detached)
  }

  lemma ActivationConserves(s: Sys, s': Sys, out: RegId -> Outcome, created: map<RegId, SubId>)
    requires Conserved(s) && s'.detached == s.detached && ActivatedAll(s.st, s'.st, out, created)
    ensures Conserved(s')
  {
    var entries, entries' := s.st.table.entries, s'.st.table.entries;
    ActivatedIsSound(s.st, s'.st, out, created);
    forall id | id in entries
      ensures entries'[id].activeSub == (if id in created then Some(created[id]) else entries[id].activeSub)
      ensures id in created ==> entries[id].activeSub.None?
    {
      ActivatedEntry(s.st, s'.st, out, created, id);
      assert Filed(entries[id], id, s.st.table);
    }
    SameHandlesPlusCreated(s.st.live, s'.st.live, entries, entries', s.detached, created, s.st.nextSub, s'.st.nextSub);
  }

  /** Old handles stay, the created ones join them, and nothing else becomes live. */
  lemma SameHandlesPlusCreated(kept: map<SubId, Wire>, after: map<SubId, Wire>, entries: map<RegId, Record>,
                               entries': map<RegId, Record>, detached: map<SubId, nat>,
                               created: map<RegId, SubId>, from: SubId, to: SubId)
    requires Opened(kept, after, entries, created, from, to) && Below(kept, from)
    requires Covered(kept, entries, detached) && Apart(kept, entries, detached)
    requires entries'.Keys == entries.Keys
    requires forall id | id in entries ::
            entries'[id].activeSub == if id in created then Some(created[id]) else entries[id].activeSub
    requires forall id | id in created :: id in entries && entries[id].activeSub.None?
    ensures Covered(after, entries', detached) && Apart(after, entries', detached)
  {
    forall x | x in after
      ensures HoldsSub(entries', x) || x in detached
    {
      if x in kept {
        if id :| id in entries && entries[id].activeSub == Some(x) {
          assert id in entries' && entries'[id].activeSub == Some(x);
        }
      } else {
        var id :| id in created && created[id] == x;
        assert id in entries' && entries'[id].activeSub == Some(x);
      }
    }
    forall x | x in detached
      ensures !HoldsSub(entries', x)
    {
      assert x in kept && !HoldsSub(entries, x);
    }
  }

  lemma RestoreConserves(s: Sys, s': Sys, out: RegId -> Outcome, batch: Batch, created: map<RegId, SubId>)
    requires Conserved(s) && s'.detached == s.detached && Restored(s.st, s'.st, out, batch, created)
    ensures Conserved(s')
  {
    RestoredIsSound(s.st, s'.st, out, batch, created);
    var entries' := s'.st.table.entries;
    var cleared := ClearHandles(s.st.table).entries;
    var kept := Without(s.st.live, s.st.table.entries, s.st.table.entries.Keys);
    var installed := if BatchFailure(batch).Some? then map[] else created;
    DroppingHandlesLeavesDetached(s);
    RestoredOverCleared(s.st, s'.st, out, batch, created);
    SameHandlesPlusCreated(kept, s'.st.live, cleared, entries', s.detached, installed, s.st.nextSub, s'.st.nextSub);
  }

  /** Seen from the table without its old handles, a restore only adds the installed ones. */
  lemma RestoredOverCleared(st: State, st': State, out: RegId -> Outcome, batch: Batch, created: map<RegId, SubId>)
    requires Restored(st, st', out, batch, created)
    ensures var cleared := ClearHandles(st.table).entries;
            var installed := if BatchFailure(batch).Some? then map[] else created;
            && Opened(Without(st.live, st.table.entries, st.table.entries.Keys), st'.live, cleared, installed,
                  st.nextSub, st'.nextSub)
            && st'.table.entries.Keys == cleared.Keys
            && (forall id | id in cleared ::
                  cleared[id].activeSub.None? && st'.table.entries[id].activeSub == Lookup(installed, id))
            && (forall id | id in installed :: id in cleared)
  {
    forall id | id in st.table.entries
      ensures st'.table.entries[id].activeSub == Lookup(if BatchFailure(batch).Some? then map[] else created, id)
    {
      RestoredEntry(st, st', out, batch, created, id);
    }
  }

  lemma DroppingHandlesLeavesDetached(s: Sys)
    requires Conserved(s)
    ensures var kept := Without(s.st.live, s.st.table.entries, s.st.table.entries.Keys);
            && Covered(kept, ClearHandles(s.st.table).entries, s.detached)
            && Apart(kept, ClearHandles(s.st.table).entries, s.detached)
            && Below(kept, s.st.nextSub)
  {
    var entries := s.st.table.entries;
    forall x: SubId
      ensures HeldAmong(entries, entries.Keys, x) <==> HoldsSub(entries, x)
    {
    }
  }

  lemma RegistrationConserves(s: Sys, s': Sys, spec: AddSpec, state: Session.Lifecycle, o: Outcome,
                              r: Result<RegId, RegisterError>)
    requires Conserved(s) && s'.detached == s.detached && Registered(s.st, s'.st, spec, state, o, r)
    ensures Conserved(s')
  {
    RegisteredIsSound(s.st, s'.st, spec, state, o, r);
    if r.Ok? {
      var i := NewIntent(s.st.table.nextId + 1, spec);
      RegisteredHandles(s, s', i, state, o, r);
    }
  }

  lemma RegisteredHandles(s: Sys, s': Sys, i: Intent, state: Session.Lifecycle, o: Outcome,
                          r: Result<RegId, RegisterError>)
    requires Conserved(s) && i.id == s.st.table.nextId + 1 && r.Ok? && RegisteredIntent(s.st, s'.st, i, state, o, r)
    ensures Covered(s'.st.live, s'.st.table.entries, s.detached) && Apart(s'.st.live, s'.st.table.entries, s.detached)
  {
    FreshId(s.st.table);
    var added := s.st.table.entries[i.id := Record(i, None, false, "")];
    InactiveEntryHoldsNothing(s.st.live, s.st.table.entries, s.detached, i.id, added[i.id]);
    if !Session.DefersActivation(state) {
      assert Opened(s.st.live, s.st.live, added, map[], s.st.nextSub, s.st.nextSub);
      OpenedOne(s.st.live, s.st.live, added, map[], s.st.nextSub, s.st.nextSub, i.id);
      SameHandlesPlusCreated(s.st.live, s'.st.live, added, s'.st.table.entries, s.detached, map[i.id := s.st.nextSub],
                             s.st.nextSub, s'.st.nextSub);
    }
  }

  lemma InactiveEntryHoldsNothing(live: map<SubId, Wire>, entries: map<RegId, Record>, detached: map<SubId, nat>,
                                  id: RegId, rec: Record)
    requires Covered(live, entries, detached) && Apart(live, entries, detached) && id !in entries && rec.activeSub.None?
    ensures Covered(live, entries[id := rec], detached) && Apart(live, entries[id := rec], detached)
  {
    forall x: SubId
      ensures HoldsSub(entries[id := rec], x) <==> HoldsSub(entries, x)
    {
      if HoldsSub(entries, x) {
        var k :| k in entries && entries[k].activeSub == Some(x);
        assert k in entries[id := rec];
      }
    }
  }

  lemma HeldMembers(entries: map<RegId, Record>, x: SubId)
    ensures x in HeldSubs(entries) <==> HoldsSub(entries, x)
  {
  }

  lemma DetachedIsSound(st: State)
    requires Sound(st)
    ensures Sound(st.(table := ClearHandles(st.table)))
  {
    ClearKeepsInv(st.table);
  }

  /** Handles move from the entries to the detached ones. */
  lemma HandlesMove(live: map<SubId, Wire>, entries: map<RegId, Record>, entries': map<RegId, Record>,
                    detached: map<SubId, nat>, detached': map<SubId, nat>)
    requires Covered(live, entries, detached) && Apart(live, entries, detached) && Wired(entries, live)
    requires detached'.Keys == detached.Keys + HeldSubs(entries)
    requires forall id | id in entries' :: entries'[id].activeSub.None?
    ensures Covered(live, entries', detached') && Apart(live, entries', detached')
  {
    forall x | x in live
      ensures x in detached'
    {
      HeldMembers(entries, x);
    }
    forall x | x in HeldSubs(entries)
      ensures x in live
    {
      var id :| id in entries && entries[id].activeSub == Some(x);
    }
  }

  lemma DetachConserves(s: Sys, s': Sys, t: nat)
    requires Conserved(s) && Step(s, Detaches(t), s')
    ensures Conserved(s')
  {
    DetachedIsSound(s.st);
    assert s'.detached.Keys == s.detached.Keys + HeldSubs(s.st.table.entries);
    HandlesMove(s.st.live, s.st.table.entries, s'.st.table.entries, s.detached, s'.detached);
  }

  lemma UnsubscribeConserves(s: Sys, s': Sys, t: nat, x: SubId)
    requires Conserved(s) && Step(s, Unsubscribes(t, x), s')
    ensures Conserved(s')
  {
    forall id | id in s.st.table.entries
      ensures s.st.table.entries[id].activeSub != Some(x)
    {
    }
  }

  lemma StepConserves(s: Sys, e: Event, s': Sys)
    requires Conserved(s) && Step(s, e, s')
    ensures Conserved(s')
  {
    match e {
      case Registers(spec, state, o, r) => RegistrationConserves(s, s', spec, state, o, r);
      case ActivatesAll(out, created) => ActivationConserves(s, s', out, created);
      case Restores(out, batch, created) => RestoreConserves(s, s', out, batch, created);
      case Detaches(t) => DetachConserves(s, s', t);
      case Unsubscribes(t, x) => UnsubscribeConserves(s, s', t, x);
    }
  }

  lemma {:induction false} ExecutionConserves(states: seq<Sys>, events: seq<Event>, i: nat)
    requires Execution(states, events) && i < |states|
    ensures Conserved(states[i])
  {
    if i == 0 {
    } else {
      ExecutionConserves(states, events, i - 1);
      StepConserves(states[i - 1], events[i - 1], states[i]);
    }
  }

  /** Subscription conservation. Whenever the mutex is free the live subscriptions are exactly the
      registry's handles plus those detached by a deactivation that has not unsubscribed them yet; the
      two are disjoint; an entry is active iff it holds a handle; and each handle is subscribed on its own
      entry's subject, queue group and callback and on no other entry's. */
  lemma SubscriptionsAreConserved(states: seq<Sys>, events: seq<Event>, i: nat)
    requires Execution(states, events) && i < |states|
    ensures var s := states[i];
            var entries := s.st.table.entries;
            && s.st.live.Keys == HeldSubs(entries) + s.detached.Keys
            && HeldSubs(entries) !! s.detached.Keys
            && (forall id | id in entries :: entries[id].active == entries[id].activeSub.Some?)
            && (forall id | id in entries && entries[id].active ::
                  var i := entries[id].intent;
                  OnWire(s.st.live[entries[id].activeSub.value], i.subject, i.queueGroup, i.callback))
            && (forall k, l | k in entries && l in entries && entries[k].active
                  && entries[k].activeSub == entries[l].activeSub :: k == l)
  {
    ExecutionConserves(states, events, i);
    var s := states[i];
    var entries := s.st.table.entries;
    forall x: SubId
      ensures x in HeldSubs(entries) <==> HoldsSub(entries, x)
    {
      HeldMembers(entries, x);
    }
    forall id | id in entries
      ensures entries[id].active == entries[id].activeSub.Some?
    {
      assert Filed(entries[id], id, s.st.table);
      WireOfIntent(entries[id].intent);
    }
  }

  // ---------- batch restore ----------

  /** The error a restore returns is nil. */
  ghost predicate RestoreReturnsNil(st: State, out: RegId -> Outcome, batch: Batch, created: map<RegId, SubId>) {
    RestoreFailures(st.table.entries, out, st.table.entries.Keys) == {}
        && (created == map[] || BatchFailure(batch).None?)
  }

  /** Every exit of a batch restore: create failures, a lost connection, a failed flush and success. Intent
      and index are untouched; what is live is what was live unheld, plus exactly the handles now held,
      all of them new: those of the created subscriptions if the batch flush succeeded, and none otherwise.
      A subscription is created for every registration whose attempt succeeds, flushed or not. The error is
      nil exactly when all were created and, if there were any, flushed, which is when every registration
      ends up active. */
  lemma RestoreExits(st: State, st': State, out: RegId -> Outcome, batch: Batch, created: map<RegId, SubId>)
    requires Sound(st) && Restored(st, st', out, batch, created)
    ensures st'.table.byKey == st.table.byKey && st'.table.nextId == st.table.nextId
    ensures SameIntents(st.table.entries, st'.table.entries)
    ensures st'.live.Keys == (st.live.Keys - HeldSubs(st.table.entries)) + HeldSubs(st'.table.entries)
    ensures forall x | x in HeldSubs(st'.table.entries) :: st.nextSub <= x < st'.nextSub
    ensures forall id :: id in created <==>
              && id in st.table.entries
              && Subscribable(st.table.entries[id].intent) && (out(id).Succeeds? || out(id).FlushFails?)
    ensures HeldSubs(st'.table.entries) == if batch.BatchFlushed? then created.Values else {}
    ensures RestoreReturnsNil(st, out, batch, created)
        <==> created.Keys == st.table.entries.Keys && (created == map[] || batch.BatchFlushed?)
    ensures RestoreReturnsNil(st, out, batch, created)
        <==> forall id | id in st'.table.entries :: st'.table.entries[id].active
  {
    RestoredAccounts(st, st', out, batch, created);
    RestoredLive(st, st', out, batch, created);
    RestoredHandlesAreNew(st, st', out, batch, created);
    RestoreErrorIff(st, st', out, batch, created);
    RestoreNilIff(st, out, batch, created);
    RestoredHandles(st, st', out, batch, created);
  }

  /** When the error is nil, in terms of what was created and what became of the batch. */
  lemma RestoreNilIff(st: State, out: RegId -> Outcome, batch: Batch, created: map<RegId, SubId>)
    requires CreatesAny(st.table.entries, out, created, st.table.entries.Keys)
    ensures forall id :: id in created <==>
              && id in st.table.entries
              && Subscribable(st.table.entries[id].intent) && (out(id).Succeeds? || out(id).FlushFails?)
    ensures RestoreReturnsNil(st, out, batch, created)
        <==> created.Keys == st.table.entries.Keys && (created == map[] || batch.BatchFlushed?)
  {
    FailingCreations(st.table.entries, out);
    CreatedIsTheRest(st.table.entries, out, created);
  }

  /** The handles held after a restore are those it created, if the batch flush succeeded. */
  lemma RestoredHandles(st: State, st': State, out: RegId -> Outcome, batch: Batch, created: map<RegId, SubId>)
    requires Restored(st, st', out, batch, created)
    ensures HeldSubs(st'.table.entries) == if batch.BatchFlushed? then created.Values else {}
  {
    forall id | id in st.table.entries
      ensures id in st'.table.entries
      ensures st'.table.entries[id].activeSub == if batch.BatchFlushed? then Lookup(created, id) else None
    {
      RestoredEntry(st, st', out, batch, created, id);
    }
    forall x | x in created.Values && batch.BatchFlushed?
      ensures x in HeldSubs(st'.table.entries)
    {
      var id :| id in created && created[id] == x;
      assert st'.table.entries[id].activeSub == Some(x);
    }
  }

  /** What is live is held or detached, as sets. */
  lemma ConservedKeys(s: Sys)
    requires Conserved(s)
    ensures s.st.live.Keys == HeldSubs(s.st.table.entries) + s.detached.Keys
  {
    forall x: SubId
      ensures x in HeldSubs(s.st.table.entries) <==> HoldsSub(s.st.table.entries, x)
    {
      HeldMembers(s.st.table.entries, x);
    }
  }

  /** Seen as detached, the subscriptions that no entry holds make the state conserved. */
  lemma UnheldAsDetached(st: State) returns (s: Sys)
    requires Sound(st)
    ensures s.st == st && s.detached.Keys == st.live.Keys - HeldSubs(st.table.entries) && Conserved(s)
  {
    s := Sys(st, map x | x in st.live && x !in HeldSubs(st.table.entries) :: 0);
    forall x: SubId
      ensures x in HeldSubs(st.table.entries) <==> HoldsSub(st.table.entries, x)
    {
      HeldMembers(st.table.entries, x);
    }
  }

  lemma RestoredLive(st: State, st': State, out: RegId -> Outcome, batch: Batch, created: map<RegId, SubId>)
    requires Sound(st) && Restored(st, st', out, batch, created)
    ensures st'.live.Keys == (st.live.Keys - HeldSubs(st.table.entries)) + HeldSubs(st'.table.entries)
  {
    var s := UnheldAsDetached(st);
    var s' := Sys(st', s.detached);
    RestoreConserves(s, s', out, batch, created);
    ConservedKeys(s');
  }

  lemma RestoredHandlesAreNew(st: State, st': State, out: RegId -> Outcome, batch: Batch, created: map<RegId, SubId>)
    requires Restored(st, st', out, batch, created)
    ensures forall x | x in HeldSubs(st'.table.entries) :: st.nextSub <= x < st'.nextSub
  {
    forall id | id in st.table.entries
      ensures id in st'.table.entries && st'.table.entries[id].activeSub
              == if id in created && BatchFailure(batch).None? then Some(created[id]) else None
    {
      RestoredEntry(st, st', out, batch, created, id);
    }
  }

  lemma RestoreErrorIff(st: State, st': State, out: RegId -> Outcome, batch: Batch, created: map<RegId, SubId>)
    requires Restored(st, st', out, batch, created)
    ensures RestoreReturnsNil(st, out, batch, created)
        <==> forall id | id in st'.table.entries :: st'.table.entries[id].active
  {
    var entries, entries' := st.table.entries, st'.table.entries;
    var failures := RestoreFailures(entries, out, entries.Keys);
    forall id | id in entries
      ensures entries'[id].active <==> id in created && BatchFailure(batch).None?
      ensures id in created <==> id !in failures
    {
      RestoredEntry(st, st', out, batch, created, id);
    }
    if created != map[] {
      assert exists id :: id in created;
    }
    if failures != {} {
      var id :| id in failures;
      assert id in entries;
    }
  }

  // ---------- registration ----------

  /** A register call that returns an error leaves the entries, the index and the live subscriptions as
      they were, so repeating it cannot run into a conflict of its own making. One that succeeds adds
      exactly one entry under a key that was free and disturbs no other; the entry is active unless the
      session was not up yet. */
  lemma RegistrationIsTransactional(st: State, st': State, spec: AddSpec, state: Session.Lifecycle, o: Outcome,
                                    r: Result<RegId, RegisterError>)
    requires Sound(st) && Registered(st, st', spec, state, o, r)
    ensures r.Err? ==>
      && st'.table.entries == st.table.entries && st'.table.byKey == st.table.byKey && st'.live == st.live
      && (AddEntry(st'.table, spec).1.Ok? <==> AddEntry(st.table, spec).1.Ok?)
    ensures r.Ok? ==>
      && r.value !in st.table.entries && r.value in st'.table.entries
      && st'.table.entries - {r.value} == st.table.entries
      && st'.table.entries[r.value].intent.key !in st.table.byKey
      && st'.table.byKey == st.table.byKey[st'.table.entries[r.value].intent.key := r.value]
      && st'.table.entries[r.value].active == !Session.DefersActivation(state)
  {
    FreshId(st.table);
    if r.Ok? {
      SuccessAddsOne(st, st', NewIntent(st.table.nextId + 1, spec), state, o, r);
    }
  }

  predicate Complete(spec: AddSpec) {
    TrimSpace(spec.kind) != "" && TrimSpace(spec.subject) != "" && spec.callback.Some?
  }

  /** When a register call succeeds: for a complete specification whose key is free, while the session is not up
      yet, or if the subscription can be made. What it files is what was specified, and what it subscribes, if
      the session is up, is that subject, queue group and callback. */
  lemma RegistrationOutcome(st: State, st': State, spec: AddSpec, state: Session.Lifecycle, o: Outcome,
                            r: Result<RegId, RegisterError>)
    requires Sound(st) && Registered(st, st', spec, state, o, r)
    ensures var key := RegistrationKey(spec.kind, spec.subject, spec.queueGroup);
            var deferred := state.New? || state.Connecting?;
            var works := spec.kind in {"configure", "action", "result", "status"} && o.Succeeds?;
            && (r.Ok? <==> Complete(spec) && key !in st.table.byKey && (deferred || works))
            && (r.Err? && r.error.ActivationFailed? <==>
                  Complete(spec) && key !in st.table.byKey && !deferred && !works)
            && (Complete(spec) && key in st.table.byKey ==> r == Err(Rejected(Conflict(st.table.byKey[key]))))
            && st'.table.nextId == st.table.nextId + (if Complete(spec) then 1 else 0)
    ensures r.Ok? ==>
      && r.value in st'.table.entries
      && st'.table.entries[r.value].intent
           == Intent(st.table.nextId + 1, RegistrationKey(spec.kind, spec.subject, spec.queueGroup), spec.kind,
                     spec.target, spec.action, spec.subject, spec.queueGroup, spec.callback.value)
    ensures r.Ok? && (state.New? || state.Connecting?) ==>
      st'.live == st.live && !st'.table.entries[r.value].active
    ensures r.Ok? && !(state.New? || state.Connecting?) ==>
      && st'.table.entries[r.value].activeSub == Some(st.nextSub) && st'.live - {st.nextSub} == st.live
      && st.nextSub in st'.live
      && OnWire(st'.live[st.nextSub], spec.subject, spec.queueGroup, spec.callback.value)
  {
    if CheckSpec(spec).None? {
      var i := NewIntent(st.table.nextId + 1, spec);
      FailureIff(i, true, o);
      WireOfIntent(i);
    }
  }

  lemma SuccessAddsOne(st: State, st': State, i: Intent, state: Session.Lifecycle, o: Outcome,
                       r: Result<RegId, RegisterError>)
    requires i.id !in st.table.entries && RegisteredIntent(st, st', i, state, o, r) && r.Ok?
    ensures r.value == i.id && i.id in st'.table.entries && st'.table.entries - {i.id} == st.table.entries
    ensures st'.table.entries[i.id].intent == i && i.key !in st.table.byKey
    ensures st'.table.byKey == st.table.byKey[i.key := i.id]
    ensures st'.table.entries[i.id].active == !Session.DefersActivation(state)
  {
    assert st'.table.entries - {i.id} == st.table.entries;
  }
}

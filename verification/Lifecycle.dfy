/** The client's lifecycle gate: when callbacks may run, on which context, and what a reconnect must have
    re-created before the user hears of it (agentcore/client.go, agentcore/handlers_runtime.go). The
    lifecycle calls of one client are made one after another here. */
module Lifecycle {
  import opened Common
  import opened Registry
  import opened Subscriptions
  import W = Watches
  import SubscriptionRuns
  import StartRuns

  type CtxId = nat

  /** What a callback would see between two writes: whether callbacks are enabled and the handler context
      is alive. */
  datatype Gate = Gate(enabled: bool, live: bool)

  // ---------- the class ----------

  class Client {
    const runtime: SubscriptionRuntime
    const watches: W.WatchTable
    var callbacksEnabled: bool
    var handlerCtx: Option<CtxId>
    var handlerCancel: Option<CtxId>
    var ended: set<CtxId>
    var nextCtx: CtxId
    var nextWatcher: W.Watcher
    /** The gate after every single write to the fields above. */
    ghost var gates: seq<Gate>

    predicate Live()
      reads this`handlerCtx, this`ended
    {
      handlerCtx.Some? && handlerCtx.value !in ended
    }

    ghost predicate ContextsFit()
      reads this`handlerCtx, this`handlerCancel, this`ended, this`nextCtx
    {
      && (handlerCtx.Some? ==> handlerCtx.value < nextCtx)
      && (forall c | c in ended :: c < nextCtx)
      && handlerCancel == if Live() then handlerCtx else None
    }

    /** Whenever callbacks were enabled, at any write, the handler context was alive. */
    ghost predicate NeverOpenOnDeadContext()
      reads this`gates
    {
      forall i | 0 <= i < |gates| :: gates[i].enabled ==> gates[i].live
    }

    /** What holds between calls: callbacks are enabled exactly when the handler context is alive. */
    ghost predicate Settled()
      reads this`handlerCtx, this`handlerCancel, this`ended, this`nextCtx, this`callbacksEnabled, this`gates
    {
      ContextsFit() && NeverOpenOnDeadContext() && callbacksEnabled == Live()
    }

    constructor ()
      ensures Settled() && !callbacksEnabled && runtime.Valid() && fresh(runtime) && fresh(runtime.registry)
      ensures fresh(watches)
    {
      runtime := new SubscriptionRuntime();
      watches := new W.WatchTable();
      callbacksEnabled, handlerCtx, handlerCancel, ended, nextCtx, nextWatcher := false, None, None, {}, 0, 0;
      gates := [];
    }

    method SetEnabled(enabled: bool)
      modifies this`callbacksEnabled, this`gates
      ensures callbacksEnabled == enabled && gates == old(gates) + [Gate(enabled, Live())]
    {
      callbacksEnabled := enabled;
      gates := gates + [Gate(callbacksEnabled, Live())];
    }

    method EnsureHandlerContext()
      requires ContextsFit() && NeverOpenOnDeadContext() && (callbacksEnabled ==> Live())
      modifies this`handlerCtx, this`handlerCancel, this`nextCtx, this`gates
      ensures ContextsFit() && NeverOpenOnDeadContext() && Live() && old(gates) <= gates
      ensures handlerCtx == if old(Live()) then old(handlerCtx) else Some(old(nextCtx))
    {
      if handlerCtx.Some? && handlerCtx.value !in ended {
        return;
      }
      var ctx := nextCtx;
      nextCtx := nextCtx + 1;
      handlerCtx := Some(ctx);
      gates := gates + [Gate(callbacksEnabled, Live())];
      handlerCancel := Some(ctx);
      gates := gates + [Gate(callbacksEnabled, Live())];
    }

    method CancelHandlerContext()
      requires ContextsFit() && NeverOpenOnDeadContext() && !callbacksEnabled
      modifies this`handlerCancel, this`ended, this`gates
      ensures ContextsFit() && NeverOpenOnDeadContext() && !Live() && old(gates) <= gates
    {
      var cancel := handlerCancel;
      handlerCancel := None;
      gates := gates + [Gate(callbacksEnabled, Live())];
      if cancel.Some? {
        ended := ended + {cancel.value};
        gates := gates + [Gate(callbacksEnabled, Live())];
      }
    }

    /** Disabling callbacks comes before ending their context. */
    method Shut()
      requires ContextsFit() && NeverOpenOnDeadContext() && (callbacksEnabled ==> Live())
      modifies this`callbacksEnabled, this`handlerCancel, this`ended, this`gates
      ensures Settled() && !callbacksEnabled && old(gates) <= gates
    {
      SetEnabled(false);
      CancelHandlerContext();
    }

    /** Enabling callbacks comes after their context is alive. */
    method Open()
      requires ContextsFit() && NeverOpenOnDeadContext() && (callbacksEnabled ==> Live())
      modifies this`callbacksEnabled, this`handlerCtx, this`handlerCancel, this`nextCtx, this`gates
      ensures Settled() && callbacksEnabled && old(gates) <= gates
      ensures old(Live()) ==> handlerCtx == old(handlerCtx)
    {
      EnsureHandlerContext();
      SetEnabled(true);
    }

    method Deactivate()
      requires ContextsFit() && NeverOpenOnDeadContext() && (callbacksEnabled ==> Live()) && runtime.Valid()
      modifies this`callbacksEnabled, this`handlerCancel, this`ended, this`gates, runtime, runtime.registry
      ensures Settled() && runtime.Valid() && !callbacksEnabled
      ensures runtime.registry.Contents() == ClearHandles(old(runtime.registry.Contents()))
      ensures runtime.live
              == Without(old(runtime.live), old(runtime.registry.entries), old(runtime.registry.entries).Keys)
      ensures NoneActive(runtime.registry.entries)
    {
      Shut();
      runtime.DeactivateAll();
    }

    /** What a message callback does first: the context it hands to the user's handler, if it runs. */
    method Dispatch() returns (ctx: Option<CtxId>)
      requires callbacksEnabled ==> Live()
      ensures ctx.Some? <==> callbacksEnabled
      ensures ctx.Some? ==> ctx == handlerCtx && ctx.value !in ended
    {
      ctx := if callbacksEnabled then handlerCtx else None;
    }

    method ActivateSubscriptions(out: RegId -> Outcome) returns (ok: bool, ghost created: map<RegId, SubId>)
      requires runtime.Valid()
      modifies runtime, runtime.registry
      ensures runtime.Valid() && ActivatedAll(old(runtime.View()), runtime.View(), out, created)
      ensures ok == (ActivationFailures(old(runtime.registry.entries), out, old(runtime.registry.entries).Keys) == {})
      ensures ok <==> Activatable(old(runtime.registry.entries), out)
      ensures ok ==> StartRuns.AllActive(runtime.registry.entries)
      ensures SameIntents(old(runtime.registry.entries), runtime.registry.entries)
    {
      ghost var st := runtime.View();
      var failed;
      failed, created := runtime.ActivateAll(out);
      ok := failed == {};
      FailingActivations(st.table.entries, out);
      NoneFails(st.table.entries, failed, out);
      ActivatedIntents(st, runtime.View(), out, created);
      StartRuns.ActivationNilIff(st, runtime.View(), out, created);
    }

    /** up tells whether the session start succeeded. */
    method Start(up: bool, out: RegId -> Outcome) returns (ok: bool, ghost created: map<RegId, SubId>)
      requires Settled() && runtime.Valid()
      modifies this, runtime, runtime.registry
      ensures Settled() && runtime.Valid()
      ensures !up ==> !ok && unchanged(runtime) && unchanged(runtime.registry) && unchanged(this)
      ensures up ==>
              ok == (ActivationFailures(old(runtime.registry.entries), out, old(runtime.registry.entries).Keys) == {})
      ensures up ==> (ok <==> Activatable(old(runtime.registry.entries), out))
      ensures up ==> callbacksEnabled == ok
      ensures ok ==> ActivatedAll(old(runtime.View()), runtime.View(), out, created)
      ensures ok ==> StartRuns.AllActive(runtime.registry.entries)
      ensures up && !ok ==> NoneActive(runtime.registry.entries)
      ensures up && !ok ==> SameIntents(old(runtime.registry.entries), runtime.registry.entries)
      ensures ok && old(callbacksEnabled) ==> handlerCtx == old(handlerCtx)
    {
      ok, created := false, map[];
      if !up {
        return;
      }
      ok, created := ActivateSubscriptions(out);
      if !ok {
        Deactivate();
        return;
      }
      Open();
    }

    /** stopFails tells whose stop function returns an error. Every listed watcher is stopped all the same. */
    method Close(stopFails: W.Watcher -> bool, sessionFails: bool) returns (ok: bool)
      requires Settled() && runtime.Valid()
      modifies this, runtime, runtime.registry, watches
      ensures Settled() && runtime.Valid() && !callbacksEnabled
      ensures runtime.registry.Contents() == ClearHandles(old(runtime.registry.Contents()))
      ensures runtime.live
              == Without(old(runtime.live), old(runtime.registry.entries), old(runtime.registry.entries).Keys)
      ensures NoneActive(runtime.registry.entries)
      ensures watches.intents == map[] && W.Called(old(watches.log), watches.log, W.StopFns(old(watches.intents)))
      ensures ok <==> !sessionFails && NoStopFails(old(watches.intents), stopFails)
    {
      Deactivate();
      var stopped := watches.StopAll(stopFails);
      return stopped && !sessionFails;
    }

    method OnSessionClosed()
      requires Settled() && runtime.Valid()
      modifies this, runtime, runtime.registry
      ensures Settled() && runtime.Valid() && !callbacksEnabled && NoneActive(runtime.registry.entries)
      ensures runtime.registry.Contents() == ClearHandles(old(runtime.registry.Contents()))
      ensures runtime.live
              == Without(old(runtime.live), old(runtime.registry.entries), old(runtime.registry.entries).Keys)
    {
      Deactivate();
    }

    /** Second phase of restoreAllActiveWatches: one watcher for each copy that opens. */
    method Rebuild(copies: seq<W.Copy>, opens: W.WatchId -> bool) returns (results: seq<W.Rebuilt>)
      modifies this`nextWatcher
      ensures old(nextWatcher) <= nextWatcher && Rebuilds(copies, results, opens, old(nextWatcher), nextWatcher)
    {
      results := [];
      for i := 0 to |copies|
        invariant old(nextWatcher) <= nextWatcher
        invariant Rebuilds(copies[..i], results, opens, old(nextWatcher), nextWatcher)
      {
        if opens(copies[i].id) {
          results := results + [W.Rebuilt(copies[i].id, Some(nextWatcher))];
          nextWatcher := nextWatcher + 1;
        } else {
          results := results + [W.Rebuilt(copies[i].id, None)];
        }
      }
      assert copies[..|copies|] == copies;
    }

    /** The sets done name the watch contexts found ended by the snapshot and by the commit. */
    method RestoreWatches(opens: W.WatchId -> bool, doneAtSnapshot: set<W.WatchId>, doneAtCommit: set<W.WatchId>)
      returns (ok: bool)
      modifies watches, this`nextWatcher
      ensures old(nextWatcher) <= nextWatcher
      ensures ok ==> WatchesAreNew(watches.intents, old(nextWatcher), nextWatcher)
      ensures ok == forall id | id in old(watches.intents) && id !in doneAtSnapshot :: opens(id)
    {
      var copies := watches.Snapshot(doneAtSnapshot);
      ghost var m := watches.intents;
      var results := Rebuild(copies, opens);
      var failed := watches.Commit(results, doneAtCommit);
      CommitOutcome(m, copies, results, opens, old(nextWatcher), nextWatcher, doneAtCommit);
      return failed == {};
    }

    method RestoreSubscriptions(out: RegId -> Outcome, batch: Batch) returns (ok: bool)
      requires runtime.Valid()
      modifies runtime, runtime.registry
      ensures runtime.Valid()
      ensures ok == StartRuns.AllActive(runtime.registry.entries)
      ensures ok <==> Restorable(old(runtime.registry.entries), out, batch)
      ensures ok ==> HandlesAreNew(runtime.registry.entries, runtime.live, old(runtime.nextSub))
    {
      ghost var st := runtime.View();
      var failed, batchErr, created := runtime.Restore(out, batch);
      ok := failed == {} && batchErr.None?;
      NilRestore(st, runtime.View(), out, batch, created);
      CreatedIsTheRest(st.table.entries, out, created);
      NoneMissing(st.table.entries, failed, batchErr, out, batch, created);
      if ok {
        RestoredHandlesAreNew(st, runtime.View(), out, batch, created);
      }
    }

    /** The user's reconnect hook runs only if every registration and every remaining watch was re-created
        by this very reconnect; a client that is not open does nothing at all. */
    method OnSessionReconnected(out: RegId -> Outcome, batch: Batch,
                                opens: W.WatchId -> bool, doneAtSnapshot: set<W.WatchId>, doneAtCommit: set<W.WatchId>)
      returns (hook: bool)
      requires Settled() && runtime.Valid()
      modifies this`nextWatcher, runtime, runtime.registry, watches
      ensures runtime.Valid()
      ensures !callbacksEnabled ==> !hook && unchanged(runtime) && unchanged(runtime.registry) && unchanged(watches)
      ensures hook ==> HandlesAreNew(runtime.registry.entries, runtime.live, old(runtime.nextSub))
      ensures hook ==> WatchesAreNew(watches.intents, old(nextWatcher), nextWatcher)
      ensures callbacksEnabled ==>
        hook == (StartRuns.AllActive(runtime.registry.entries)
                 && forall id | id in old(watches.intents) && id !in doneAtSnapshot :: opens(id))
      ensures !StartRuns.AllActive(runtime.registry.entries) ==> unchanged(watches)
      ensures hook <==>
        && callbacksEnabled && Restorable(old(runtime.registry.entries), out, batch)
        && forall id | id in old(watches.intents) && id !in doneAtSnapshot :: opens(id)
    {
      if !callbacksEnabled {
        return false;
      }
      var restored := RestoreSubscriptions(out, batch);
      if !restored {
        return false;
      }
      hook := RestoreWatches(opens, doneAtSnapshot, doneAtCommit);
    }
  }

  // ---------- what the steps establish ----------

  ghost predicate NoStopFails(m: W.Intents, fails: W.Watcher -> bool) {
    forall id | id in m && m[id].stopFn.Some? :: !fails(m[id].stopFn.value)
  }

  ghost predicate NoneActive(entries: map<RegId, Record>) {
    forall id | id in entries :: !entries[id].active && entries[id].activeSub.None?
  }

  /** Every registration holds a live server subscription numbered from on. */
  ghost predicate HandlesAreNew(entries: map<RegId, Record>, live: map<SubId, Wire>, from: SubId) {
    forall id | id in entries ::
      entries[id].active && entries[id].activeSub.Some? && entries[id].activeSub.value in live
          && entries[id].activeSub.value >= from
  }

  /** Every listed watch is served by a watcher numbered in the range. */
  ghost predicate WatchesAreNew(m: W.Intents, from: W.Watcher, to: W.Watcher) {
    forall id | id in m :: m[id].stopFn.Some? && from <= m[id].stopFn.value < to
  }

  ghost predicate Rebuilds(copies: seq<W.Copy>, results: seq<W.Rebuilt>, opens: W.WatchId -> bool, from: W.Watcher,
                           to: W.Watcher) {
    && |results| == |copies|
    && forall i | 0 <= i < |copies| ::
         && results[i].id == copies[i].id && results[i].made.Some? == opens(copies[i].id)
         && (results[i].made.Some? ==> from <= results[i].made.value < to)
  }

  /** Every registration that is not active can be subscribed, flush included. */
  ghost predicate Activatable(entries: map<RegId, Record>, out: RegId -> Outcome) {
    forall id | id in entries && !entries[id].active :: Subscribable(entries[id].intent) && out(id).Succeeds?
  }

  /** Every registration can be subscribed again, and if there are any, the batch flush succeeds. */
  ghost predicate Restorable(entries: map<RegId, Record>, out: RegId -> Outcome, batch: Batch) {
    && (forall id | id in entries ::
          Subscribable(entries[id].intent) && (out(id).Succeeds? || out(id).FlushFails?))
    && (entries == map[] || batch.BatchFlushed?)
  }

  lemma NoneMissing(entries: map<RegId, Record>, failed: set<RegId>, batchErr: Option<string>, out: RegId -> Outcome,
                    batch: Batch, created: map<RegId, SubId>)
    requires batchErr.Some? <==> created != map[] && (batch.BatchConnectionLost? || batch.BatchFlushFails?)
    requires failed == Uncreatable(entries, out) && created.Keys == entries.Keys - failed
    ensures failed == {} && batchErr.None? <==> Restorable(entries, out, batch)
  {
    if failed != {} {
      var id :| id in failed;
    } else {
      assert created.Keys == entries.Keys;
      assert created == map[] <==> entries == map[] by {
        assert created == map[] <==> created.Keys == {};
        assert entries == map[] <==> entries.Keys == {};
      }
    }
  }

  lemma NoneFails(entries: map<RegId, Record>, failed: set<RegId>, out: RegId -> Outcome)
    requires forall id :: id in failed <==>
               id in entries && !entries[id].active && !(Subscribable(entries[id].intent) && out(id).Succeeds?)
    ensures failed == {} <==> Activatable(entries, out)
  {
    if failed != {} {
      var id :| id in failed;
    }
  }

  lemma ActivatedIntents(st: State, st': State, out: RegId -> Outcome, created: map<RegId, SubId>)
    requires Sound(st) && ActivatedAll(st, st', out, created)
    ensures SameIntents(st.table.entries, st'.table.entries)
  {
    ActivatedIsSound(st, st', out, created);
    forall id | id in st.table.entries
      ensures id in st'.table.entries && st'.table.entries[id].intent == st.table.entries[id].intent
      ensures st'.table.entries[id].active == st'.table.entries[id].activeSub.Some?
    {
      ActivatedEntry(st, st', out, created, id);
      assert Filed(st.table.entries[id], id, st.table);
    }
  }

  lemma NilRestore(st: State, st': State, out: RegId -> Outcome, batch: Batch, created: map<RegId, SubId>)
    requires Sound(st) && Restored(st, st', out, batch, created)
    ensures SubscriptionRuns.RestoreReturnsNil(st, out, batch, created) <==> StartRuns.AllActive(st'.table.entries)
  {
    SubscriptionRuns.RestoreExits(st, st', out, batch, created);
  }

  lemma RestoredHandlesAreNew(st: State, st': State, out: RegId -> Outcome, batch: Batch, created: map<RegId, SubId>)
    requires Sound(st) && Sound(st') && Restored(st, st', out, batch, created) && StartRuns.AllActive(st'.table.entries)
    ensures HandlesAreNew(st'.table.entries, st'.live, st.nextSub)
  {
    SubscriptionRuns.RestoreExits(st, st', out, batch, created);
  }

  lemma ResultFor(m: W.Intents, copies: seq<W.Copy>, results: seq<W.Rebuilt>, opens: W.WatchId -> bool,
                  from: W.Watcher, to: W.Watcher, id: W.WatchId)
    requires W.Lists(copies, m, m.Keys) && Rebuilds(copies, results, opens, from, to) && id in m
    ensures var r := W.ResultMap(results);
            id in r && r[id].Some? == opens(id) && (r[id].Some? ==> from <= r[id].value < to)
  {
    var i :| 0 <= i < |copies| && copies[i].id == id;
    assert forall j, k | 0 <= j < k < |results| :: results[j].id == copies[j].id && results[k].id == copies[k].id;
    W.ResultMapAt(results, i);
  }

  lemma CommitOutcome(m: W.Intents, copies: seq<W.Copy>, results: seq<W.Rebuilt>, opens: W.WatchId -> bool,
                      from: W.Watcher, to: W.Watcher, ctxDone: set<W.WatchId>)
    requires W.Lists(copies, m, m.Keys) && Rebuilds(copies, results, opens, from, to)
    ensures W.CommitFailures(m, W.ResultMap(results)) == {} <==> forall id | id in m :: opens(id)
    ensures W.CommitFailures(m, W.ResultMap(results)) == {} ==>
            WatchesAreNew(W.Committed(m, W.ResultMap(results), ctxDone), from, to)
  {
    var r := W.ResultMap(results);
    forall id | id in m
      ensures id in r && (id in W.CommitFailures(m, r) <==> !opens(id))
      ensures opens(id) ==> r[id].Some? && from <= r[id].value < to
    {
      ResultFor(m, copies, results, opens, from, to, id);
    }
    assert forall id | id in W.CommitFailures(m, r) :: id in m;
    if forall id | id in m :: opens(id) {
      assert W.CommitFailures(m, r) == {};
    }
  }
}

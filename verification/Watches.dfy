/** Desired-config watch intents and their stop functions (agentcore/client.go): the sections that run
    under the watch mutex. */
module Watches {
  import opened Common

  type WatchId = nat

  /** A watcher opened on the KV store; its stop function is identified with it. */
  type Watcher = nat

  datatype Intent = Intent(target: string, stopFn: Option<Watcher>)

  type Intents = map<WatchId, Intent>

  /** The outcome of rebuilding each intent of a snapshot; None stands for an error. */
  type Results = map<WatchId, Option<Watcher>>

  /** What a restore copies of an intent, and what it made of it. */
  datatype Copy = Copy(id: WatchId, target: string)
  datatype Rebuilt = Rebuilt(id: WatchId, made: Option<Watcher>)

  // ---------- sections ----------

  /** The end of a registration writes through its own pointer, whether or not the intent is still listed. */
  function SetStop(m: Intents, id: WatchId, w: Watcher): Intents {
    if id in m then m[id := m[id].(stopFn := Some(w))] else m
  }

  function StopFnOf(m: Intents, id: WatchId): Option<Watcher> {
    if id in m then m[id].stopFn else None
  }

  /** The snapshot of a restore deletes the intents whose context is done. */
  function Pruned(m: Intents, ctxDone: set<WatchId>): Intents {
    m - ctxDone
  }

  /** The commit of a restore: install what was made, delete what failed with its context done. */
  function Committed(m: Intents, results: Results, ctxDone: set<WatchId>): Intents {
    map id | id in m && !(id in results && results[id].None? && id in ctxDone) ::
      if id in results && results[id].Some? then m[id].(stopFn := results[id]) else m[id]
  }

  /** The stop function the commit calls for a result, if any: the new one when the intent is gone, the
      displaced one when it is replaced or given up. */
  function CommitStop(m: Intents, id: WatchId, made: Option<Watcher>, ctxDone: set<WatchId>): Option<Watcher> {
    if id !in m then made
    else if made.Some? || id in ctxDone then m[id].stopFn
    else None
  }

  function StopFns(m: Intents): Results {
    map id | id in m :: m[id].stopFn
  }

  function PruneStops(m: Intents, ctxDone: set<WatchId>): Results {
    map id | id in m && id in ctxDone :: m[id].stopFn
  }

  function CommitStops(m: Intents, results: Results, ctxDone: set<WatchId>): Results {
    map id | id in results :: CommitStop(m, id, results[id], ctxDone)
  }

  /** The listed intents the commit collects an error for. */
  function CommitFailures(m: Intents, results: Results): set<WatchId> {
    set id | id in results && id in m && results[id].None?
  }

  /** The copies name exactly the intents with the given ids, each once and with its own target. */
  ghost predicate Lists(out: seq<Copy>, m: Intents, ids: set<WatchId>) {
    && (forall i | 0 <= i < |out| :: out[i].id in ids && out[i].id in m && out[i].target == m[out[i].id].target)
    && (forall id | id in ids :: exists i :: 0 <= i < |out| && out[i].id == id)
    && (forall i, j | 0 <= i < j < |out| :: out[i].id != out[j].id)
  }

  // ---------- calls of stop functions ----------

  ghost function Callers(stops: Results, w: Watcher): set<WatchId> {
    set id | id in stops && stops[id] == Some(w)
  }

  /** How often a walk that calls stops[id] for each id calls the one of w. */
  ghost function Calls(stops: Results, w: Watcher): nat {
    |Callers(stops, w)|
  }

  ghost function CallsIn(log: seq<Watcher>, w: Watcher): nat {
    multiset(log)[w]
  }

  /** Between two states of the log, exactly the stop functions named were called, in some order. */
  ghost predicate Called(before: seq<Watcher>, after: seq<Watcher>, stops: Results) {
    forall w: Watcher :: CallsIn(after, w) == CallsIn(before, w) + Calls(stops, w)
  }

  function Logged(log: seq<Watcher>, w: Option<Watcher>): seq<Watcher> {
    if w.Some? then log + [w.value] else log
  }

  lemma CallsStep(stops: Results, id: WatchId, stop: Option<Watcher>, w: Watcher)
    requires id !in stops
    ensures Calls(stops[id := stop], w) == Calls(stops, w) + if stop == Some(w) then 1 else 0
  {
    assert Callers(stops[id := stop], w) == if stop == Some(w) then Callers(stops, w) + {id} else Callers(stops, w);
  }

  lemma CalledNothing(log: seq<Watcher>)
    ensures Called(log, log, map[])
  {
    forall w: Watcher
      ensures Calls(map[], w) == 0
    {
      assert Callers(map[], w) == {};
    }
  }

  lemma CalledOneMore(before: seq<Watcher>, after: seq<Watcher>, stops: Results, id: WatchId, stop: Option<Watcher>)
    requires Called(before, after, stops) && id !in stops
    ensures Called(before, Logged(after, stop), stops[id := stop])
  {
    forall w: Watcher
      ensures CallsIn(Logged(after, stop), w) == CallsIn(before, w) + Calls(stops[id := stop], w)
    {
      CallsStep(stops, id, stop, w);
      assert CallsIn(after, w) == CallsIn(before, w) + Calls(stops, w);
    }
  }

  // ---------- the class ----------

  /** Ids are handed out once each, in order. */
  ghost predicate Issued(m: Intents, next: WatchId) {
    forall id | id in m :: 0 < id <= next
  }

  /** The watch fields of the client; log records the stop functions called, in order. */
  class WatchTable {
    var next: WatchId
    var intents: Intents
    ghost var log: seq<Watcher>

    ghost predicate Valid()
      reads this
    {
      Issued(intents, next)
    }

    constructor ()
      ensures Valid() && next == 0 && intents == map[] && log == []
    {
      next, intents, log := 0, map[], [];
    }

    method Stop(w: Option<Watcher>)
      modifies this`log
      ensures log == Logged(old(log), w)
    {
      if w.Some? {
        log := log + [w.value];
      }
    }

    // ---------- registration ----------

    /** WatchDesiredConfig lists the intent before its watcher exists, under an id no intent has or had. */
    method Register(target: string) returns (id: WatchId)
      requires Valid()
      modifies this`next, this`intents
      ensures Valid() && id == next == old(next) + 1 && id !in old(intents)
      ensures intents == old(intents)[id := Intent(target, None)]
    {
      id := next + 1;
      next := id;
      intents := intents[id := Intent(target, None)];
    }

    /** Takes back a registration: the other intents stay as they are. */
    method RegisterFailed(id: WatchId)
      requires Valid()
      modifies this`intents
      ensures Valid() && intents == old(intents) - {id}
      ensures id !in intents && forall k | k in old(intents) && k != id :: k in intents && intents[k] == old(intents)[k]
    {
      intents := intents - {id};
    }

    /** Never lists an id: one that was taken off meanwhile stays off, and its watcher is nobody's. */
    method RegisterDone(id: WatchId, w: Watcher)
      requires Valid()
      modifies this`intents
      ensures Valid() && intents == SetStop(old(intents), id, w)
      ensures intents.Keys == old(intents).Keys && StopFnOf(intents, id) == if id in old(intents) then Some(w) else None
      ensures forall k | k in intents && k != id :: intents[k] == old(intents)[k]
    {
      if id in intents {
        intents := intents[id := intents[id].(stopFn := Some(w))];
      }
    }

    /** A registration that nothing disturbs: made is the watcher opened for it, if one could be. It lists
        one new intent with that watcher, or leaves the table as it was but for the counter. */
    method WatchDesiredConfig(target: string, made: Option<Watcher>) returns (id: WatchId)
      requires Valid()
      modifies this`next, this`intents
      ensures Valid() && id == next == old(next) + 1 && id !in old(intents)
      ensures intents == if made.Some? then old(intents)[id := Intent(target, made)] else old(intents)
    {
      id := Register(target);
      if made.None? {
        RegisterFailed(id);
      } else {
        RegisterDone(id, made.value);
      }
    }

    // ---------- stops ----------

    /** The locked half of a user's stop function. The id is off the table for good, and the stop function it
        had, if any, is the caller's now. */
    method TakeOne(id: WatchId) returns (stop: Option<Watcher>)
      requires Valid()
      modifies this`intents
      ensures Valid() && id !in intents && intents == old(intents) - {id}
      ensures stop == StopFnOf(old(intents), id)
    {
      stop := None;
      if id in intents {
        stop := intents[id].stopFn;
      }
      intents := intents - {id};
    }

    /** A user's stop function that nothing disturbs stops the watcher of its own intent and no other; calling
        it again stops nothing. */
    method UserStop(id: WatchId)
      requires Valid()
      modifies this`intents, this`log
      ensures Valid() && id !in intents && intents == old(intents) - {id}
      ensures log == Logged(old(log), StopFnOf(old(intents), id))
      ensures id !in old(intents) ==> log == old(log)
    {
      var stop := TakeOne(id);
      Stop(stop);
    }

    /** The locked half of stopAllWatches. */
    method TakeAll() returns (stops: seq<Watcher>)
      modifies this`intents
      ensures intents == map[] && Called([], stops, StopFns(old(intents)))
    {
      stops := [];
      var todo := intents.Keys;
      ghost var done: Results := map[];
      CalledNothing(stops);
      while todo != {}
        invariant intents == old(intents) && todo !! done.Keys && todo + done.Keys == intents.Keys
        invariant forall id | id in done :: done[id] == intents[id].stopFn
        invariant Called([], stops, done)
        decreases todo
      {
        var id :| id in todo;
        CalledOneMore([], stops, done, id, intents[id].stopFn);
        if intents[id].stopFn.Some? {
          stops := stops + [intents[id].stopFn.value];
        }
        todo := todo - {id};
        done := done[id := intents[id].stopFn];
      }
      assert done == StopFns(intents);
      intents := map[];
    }

    /** stopAllWatches: every listed watcher is stopped once, whatever errors the others return, and the result
        is nil iff none returned one. */
    method StopAll(fails: Watcher -> bool) returns (ok: bool)
      modifies this`intents, this`log
      ensures intents == map[] && Called(old(log), log, StopFns(old(intents)))
      ensures ok <==>
              forall id | id in old(intents) && old(intents)[id].stopFn.Some? :: !fails(old(intents)[id].stopFn.value)
    {
      ghost var m := intents;
      var stops := TakeAll();
      ok := true;
      for i := 0 to |stops|
        invariant intents == map[] && log == old(log) + stops[..i]
        invariant ok <==> forall k | 0 <= k < i :: !fails(stops[k])
      {
        log := log + [stops[i]];
        if fails(stops[i]) {
          ok := false;
        }
      }
      assert stops[..|stops|] == stops;
      CalledAfter(old(log), stops, StopFns(m));
      ListedAreCalled(m, stops);
      assert (forall k | 0 <= k < |stops| :: !fails(stops[k])) <==> forall w | w in stops :: !fails(w);
    }

    /** First phase of restoreAllActiveWatches. */
    method Snapshot(ctxDone: set<WatchId>) returns (copies: seq<Copy>)
      modifies this`intents, this`log
      ensures old(Valid()) ==> Valid()
      ensures intents == Pruned(old(intents), ctxDone)
      ensures Lists(copies, intents, intents.Keys)
      ensures Called(old(log), log, PruneStops(old(intents), ctxDone))
    {
      copies := [];
      ghost var m := intents;
      var todo := intents.Keys;
      ghost var done: set<WatchId> := {};
      CalledNothing(log);
      assert PruneStops(m, ctxDone * done) == map[];
      while todo != {}
        invariant todo !! done && todo + done == m.Keys
        invariant intents == Pruned(m, ctxDone * done)
        invariant Lists(copies, m, done - ctxDone)
        invariant Called(old(log), log, PruneStops(m, ctxDone * done))
        decreases todo
      {
        var id :| id in todo;
        PruneStep(m, ctxDone, done, id);
        if id in ctxDone {
          CalledOneMore(old(log), log, PruneStops(m, ctxDone * done), id, m[id].stopFn);
          Stop(intents[id].stopFn);
          intents := intents - {id};
        } else {
          ListsOneMore(copies, m, done - ctxDone, id);
          copies := copies + [Copy(id, intents[id].target)];
        }
        todo := todo - {id};
        done := done + {id};
      }
      PruneEnd(m, ctxDone, done);
    }

    /** One round of the commit loop. */
    method CommitOne(res: Rebuilt, ctxDone: set<WatchId>) returns (failed: bool)
      modifies this`intents, this`log
      ensures intents == Committed(old(intents), map[res.id := res.made], ctxDone)
      ensures log == Logged(old(log), CommitStop(old(intents), res.id, res.made, ctxDone))
      ensures failed == (res.id in old(intents) && res.made.None?)
    {
      failed := false;
      if res.id !in intents {
        Stop(res.made);
        return;
      }
      if res.made.None? {
        failed := true;
        if res.id in ctxDone {
          Stop(intents[res.id].stopFn);
          intents := intents - {res.id};
        }
        return;
      }
      Stop(intents[res.id].stopFn);
      intents := intents[res.id := intents[res.id].(stopFn := res.made)];
    }

    /** Last phase of restoreAllActiveWatches; the result names the intents whose errors were joined. */
    method Commit(results: seq<Rebuilt>, ctxDone: set<WatchId>) returns (failed: set<WatchId>)
      requires forall i, j | 0 <= i < j < |results| :: results[i].id != results[j].id
      modifies this`intents, this`log
      ensures old(Valid()) ==> Valid()
      ensures intents == Committed(old(intents), ResultMap(results), ctxDone)
      ensures failed == CommitFailures(old(intents), ResultMap(results))
      ensures Called(old(log), log, CommitStops(old(intents), ResultMap(results), ctxDone))
    {
      ghost var m := intents;
      failed := {};
      CalledNothing(log);
      for i := 0 to |results|
        invariant intents == Committed(m, ResultMap(results[..i]), ctxDone)
        invariant failed == CommitFailures(m, ResultMap(results[..i]))
        invariant Called(old(log), log, CommitStops(m, ResultMap(results[..i]), ctxDone))
      {
        NextResult(results, i);
        CommitStep(m, ResultMap(results[..i]), results[i].id, results[i].made, ctxDone);
        CalledOneMore(old(log), log, CommitStops(m, ResultMap(results[..i]), ctxDone), results[i].id,
                      CommitStop(m, results[i].id, results[i].made, ctxDone));
        var fails := CommitOne(results[i], ctxDone);
        if fails {
          failed := failed + {results[i].id};
        }
      }
      assert results[..|results|] == results;
    }
  }

  // ---------- steps of the walks ----------

  lemma CalledAfter(log: seq<Watcher>, stops: seq<Watcher>, called: Results)
    requires Called([], stops, called)
    ensures Called(log, log + stops, called)
  {
    forall w: Watcher
      ensures CallsIn(log + stops, w) == CallsIn(log, w) + Calls(called, w)
    {
      assert CallsIn(stops, w) == CallsIn([], w) + Calls(called, w);
    }
  }

  lemma ListedAreCalled(m: Intents, stops: seq<Watcher>)
    requires Called([], stops, StopFns(m))
    ensures forall w: Watcher :: w in stops <==> exists id :: id in m && m[id].stopFn == Some(w)
  {
    forall w: Watcher
      ensures w in stops <==> exists id :: id in m && m[id].stopFn == Some(w)
    {
      assert CallsIn(stops, w) == CallsIn([], w) + Calls(StopFns(m), w);
      if id :| id in m && m[id].stopFn == Some(w) {
        assert id in Callers(StopFns(m), w);
      }
      if id :| id in Callers(StopFns(m), w) {
        assert m[id].stopFn == Some(w);
      }
      assert Calls(StopFns(m), w) > 0 <==> Callers(StopFns(m), w) != {};
    }
  }

  lemma ListsOneMore(out: seq<Copy>, m: Intents, ids: set<WatchId>, id: WatchId)
    requires Lists(out, m, ids) && id !in ids && id in m
    ensures Lists(out + [Copy(id, m[id].target)], m, ids + {id})
  {
    var out' := out + [Copy(id, m[id].target)];
    assert forall i | 0 <= i < |out| :: out'[i] == out[i];
    assert out'[|out|].id == id;
  }

  lemma PruneStep(m: Intents, ctxDone: set<WatchId>, done: set<WatchId>, id: WatchId)
    requires id in m && id !in done
    ensures id in Pruned(m, ctxDone * done) && Pruned(m, ctxDone * done)[id] == m[id]
    ensures id in ctxDone ==>
      && Pruned(m, ctxDone * (done + {id})) == Pruned(m, ctxDone * done) - {id}
      && id !in PruneStops(m, ctxDone * done)
      && PruneStops(m, ctxDone * (done + {id})) == PruneStops(m, ctxDone * done)[id := m[id].stopFn]
      && (done + {id}) - ctxDone == done - ctxDone
    ensures id !in ctxDone ==>
      && ctxDone * (done + {id}) == ctxDone * done
      && (done + {id}) - ctxDone == done - ctxDone + {id}
  {
  }

  lemma PruneEnd(m: Intents, ctxDone: set<WatchId>, done: set<WatchId>)
    requires done == m.Keys
    ensures Pruned(m, ctxDone * done) == Pruned(m, ctxDone)
    ensures PruneStops(m, ctxDone * done) == PruneStops(m, ctxDone)
    ensures done - ctxDone == Pruned(m, ctxDone).Keys
    ensures forall copies :: Lists(copies, m, done - ctxDone) ==> Lists(copies, Pruned(m, ctxDone), done - ctxDone)
  {
    assert PruneStops(m, ctxDone * done) == PruneStops(m, ctxDone);
  }

  function ResultMap(results: seq<Rebuilt>): Results {
    if results == [] then map[]
    else ResultMap(results[..|results| - 1])[results[|results| - 1].id := results[|results| - 1].made]
  }

  lemma {:induction false} ResultMapMembers(results: seq<Rebuilt>, id: WatchId)
    ensures id in ResultMap(results) <==> exists i :: 0 <= i < |results| && results[i].id == id
  {
    if results == [] {
    } else {
      var front := results[..|results| - 1];
      ResultMapMembers(front, id);
      assert forall i | 0 <= i < |front| :: front[i] == results[i];
      if i :| 0 <= i < |results| && results[i].id == id {
        if i < |front| {
          assert front[i].id == id;
        }
      }
    }
  }

  lemma {:induction false} ResultMapAt(results: seq<Rebuilt>, i: nat)
    requires i < |results| && forall j, k | 0 <= j < k < |results| :: results[j].id != results[k].id
    ensures results[i].id in ResultMap(results) && ResultMap(results)[results[i].id] == results[i].made
  {
    if i == |results| - 1 {
    } else {
      ResultMapAt(results[..|results| - 1], i);
    }
  }

  lemma NextResult(results: seq<Rebuilt>, i: nat)
    requires i < |results| && forall j, k | 0 <= j < k < |results| :: results[j].id != results[k].id
    ensures results[i].id !in ResultMap(results[..i])
    ensures ResultMap(results[..i + 1]) == ResultMap(results[..i])[results[i].id := results[i].made]
  {
    ResultMapMembers(results[..i], results[i].id);
    assert results[..i + 1][..i] == results[..i];
  }

  /** Committing one more result on its own is committing it with the others. */
  lemma CommitStep(m: Intents, r: Results, id: WatchId, made: Option<Watcher>, ctxDone: set<WatchId>)
    requires id !in r
    ensures var mid := Committed(m, r, ctxDone);
            && (id in mid <==> id in m)
            && Committed(mid, map[id := made], ctxDone) == Committed(m, r[id := made], ctxDone)
            && CommitStop(mid, id, made, ctxDone) == CommitStop(m, id, made, ctxDone)
    ensures CommitStops(m, r[id := made], ctxDone) == CommitStops(m, r, ctxDone)[id := CommitStop(m, id, made, ctxDone)]
    ensures CommitFailures(m, r[id := made])
         == if id in m && made.None? then CommitFailures(m, r) + {id} else CommitFailures(m, r)
  {
    CommittedStep(m, r, id, made, ctxDone);
  }

  lemma CommittedStep(m: Intents, r: Results, id: WatchId, made: Option<Watcher>, ctxDone: set<WatchId>)
    requires id !in r
    ensures Committed(Committed(m, r, ctxDone), map[id := made], ctxDone) == Committed(m, r[id := made], ctxDone)
  {
  }
}

/** Activation, batch restore, deactivation and transactional registration of subscriptions
    (agentcore/handlers_runtime.go): the sections that run under the subscription mutex. */
module Subscriptions {
  import opened Common
  import opened Text
  import opened RegistrationKeys
  import opened Registry
  import Session

  /** What is subscribed on the wire for a registration. */
  datatype Wire = Wire(subject: string, queueGroup: Option<string>, callback: nat)

  /** How one attempt to create a subscription ends on the connection side. */
  datatype Outcome = NotConnected | SubscribeFails | FlushFails | Succeeds

  /** The registry together with the client-side subscriptions that were created and not unsubscribed. */
  datatype State = State(table: Table, live: map<SubId, Wire>, nextSub: SubId)

  function WireOf(i: Intent): Wire {
    Wire(i.subject, if TrimSpace(i.queueGroup) != "" then Some(i.queueGroup) else None, i.callback)
  }

  /** The subscription is on that subject and calls that callback, in that queue group unless it is blank. */
  predicate OnWire(w: Wire, subject: string, queueGroup: string, callback: nat) {
    w.subject == subject && w.callback == callback
    && w.queueGroup == if TrimSpace(queueGroup) == "" then None else Some(queueGroup)
  }

  lemma WireOfIntent(i: Intent)
    ensures OnWire(WireOf(i), i.subject, i.queueGroup, i.callback)
  {
  }

  /** Why no subscription was made, if none was. A failed flush only matters when one is asked for. */
  function Failure(i: Intent, flush: bool, o: Outcome): Option<string> {
    if !IsKind(i.kind) then Some("unsupported subscription kind")
    else if TrimSpace(i.subject) == "" then Some("subscription subject is required")
    else match o
      case NotConnected => Some("client runtime is not connected")
      case SubscribeFails => Some("subscribe operation failed")
      case FlushFails => if flush then Some("subscribe readiness flush failed") else None
      case Succeeds => None
  }

  /** A subscription can be asked for: the kind is one of the four, and there is a subject. */
  predicate Subscribable(i: Intent) {
    i.kind in {"configure", "action", "result", "status"} && TrimSpace(i.subject) != ""
  }

  /** A subscription is made exactly when it can be asked for and the connection makes it; a failed flush
      undoes it only when the flush was asked for. */
  lemma FailureIff(i: Intent, flush: bool, o: Outcome)
    ensures Failure(i, flush, o).None? <==> Subscribable(i) && (o.Succeeds? || (o.FlushFails? && !flush))
  {
  }

  // ---------- the ledger of subscriptions ----------

  ghost predicate HoldsSub(entries: map<RegId, Record>, s: SubId) {
    exists id :: id in entries && entries[id].activeSub == Some(s)
  }

  ghost predicate Below(live: map<SubId, Wire>, n: SubId) {
    forall s | s in live :: s < n
  }

  /** Every handle is a live subscription on its own entry's subject, queue group and callback. */
  ghost predicate Wired(entries: map<RegId, Record>, live: map<SubId, Wire>) {
    forall id | id in entries && entries[id].activeSub.Some? ::
      entries[id].activeSub.value in live && live[entries[id].activeSub.value] == WireOf(entries[id].intent)
  }

  /** No two entries hold the same handle. */
  ghost predicate Unshared(entries: map<RegId, Record>) {
    forall i, j | i in entries && j in entries && entries[i].activeSub.Some?
        && entries[i].activeSub == entries[j].activeSub :: i == j
  }

  ghost predicate Sound(st: State) {
    && TableInv(st.table)
    && Below(st.live, st.nextSub)
    && Wired(st.table.entries, st.live)
    && Unshared(st.table.entries)
  }

  /** Each created subscription is on the wire of the entry it was created for. */
  ghost predicate Placed(after: map<SubId, Wire>, entries: map<RegId, Record>, created: map<RegId, SubId>, from: SubId,
                         to: SubId) {
    forall id | id in created ::
      id in entries && from <= created[id] < to && created[id] in after
          && after[created[id]] == WireOf(entries[id].intent)
  }

  ghost predicate Distinct(created: map<RegId, SubId>) {
    forall i, j | i in created && j in created && created[i] == created[j] :: i == j
  }

  ghost predicate Extends(before: map<SubId, Wire>, after: map<SubId, Wire>) {
    forall s | s in before :: s in after && after[s] == before[s]
  }

  ghost predicate Names(created: map<RegId, SubId>, s: SubId) {
    exists id :: id in created && created[id] == s
  }

  ghost predicate NothingElse(before: map<SubId, Wire>, after: map<SubId, Wire>, created: map<RegId, SubId>) {
    forall s | s in after && s !in before :: Names(created, s)
  }

  /** The live subscriptions grew by those created since the counter stood at from, one per id. */
  ghost predicate Opened(before: map<SubId, Wire>, after: map<SubId, Wire>, entries: map<RegId, Record>,
                         created: map<RegId, SubId>, from: SubId, to: SubId) {
    && from <= to
    && Placed(after, entries, created, from, to)
    && Distinct(created)
    && Extends(before, after)
    && NothingElse(before, after, created)
  }

  lemma PlaceOne(after: map<SubId, Wire>, entries: map<RegId, Record>, created: map<RegId, SubId>, from: SubId,
                 to: SubId, id: RegId)
    requires Placed(after, entries, created, from, to) && Distinct(created) && from <= to
    requires id in entries && id !in created && to !in after
    ensures Placed(after[to := WireOf(entries[id].intent)], entries, created[id := to], from, to + 1)
    ensures Distinct(created[id := to])
  {
  }

  lemma NameOne(before: map<SubId, Wire>, after: map<SubId, Wire>, created: map<RegId, SubId>, id: RegId, sub: SubId,
                wire: Wire)
    requires NothingElse(before, after, created) && id !in created
    ensures NothingElse(before, after[sub := wire], created[id := sub])
  {
    var created' := created[id := sub];
    assert created'[id] == sub;
    forall s | s in after && s !in before
      ensures Names(created', s)
    {
      var k :| k in created && created[k] == s;
      assert created'[k] == s;
    }
  }

  lemma OpenedOne(before: map<SubId, Wire>, after: map<SubId, Wire>, entries: map<RegId, Record>,
                  created: map<RegId, SubId>, from: SubId, to: SubId, id: RegId)
    requires Opened(before, after, entries, created, from, to) && id in entries && id !in created && to !in after
    ensures Opened(before, after[to := WireOf(entries[id].intent)], entries, created[id := to], from, to + 1)
  {
    PlaceOne(after, entries, created, from, to, id);
    NameOne(before, after, created, id, to, WireOf(entries[id].intent));
  }

  // ---------- activate all ----------

  function ActivatedRecord(rec: Record, o: Outcome, sub: Option<SubId>): Record {
    if rec.active then rec
    else if sub.Some? then Activate(rec, sub)
    else Deactivate(rec, Failure(rec.intent, true, o))
  }

  function Lookup(created: map<RegId, SubId>, id: RegId): Option<SubId> {
    if id in created then Some(created[id]) else None
  }

  function ActivatedEntries(entries: map<RegId, Record>, out: RegId -> Outcome, created: map<RegId, SubId>,
                            done: set<RegId>): map<RegId, Record> {
    map id | id in entries ::
        if id in done then ActivatedRecord(entries[id], out(id), Lookup(created, id)) else entries[id]
  }

  /** The ids activation creates a subscription for: the inactive ones whose attempt succeeds. */
  ghost predicate CreatesInactive(entries: map<RegId, Record>, out: RegId -> Outcome, created: map<RegId, SubId>,
                                  done: set<RegId>) {
    forall id :: id in created <==>
        id in entries && id in done && !entries[id].active && Failure(entries[id].intent, true, out(id)).None?
  }

  /** Activation of the entries in done, created naming the subscriptions made for them. */
  ghost predicate Activating(st: State, st': State, out: RegId -> Outcome, created: map<RegId, SubId>,
                             done: set<RegId>) {
    && CreatesInactive(st.table.entries, out, created, done)
    && Opened(st.live, st'.live, st.table.entries, created, st.nextSub, st'.nextSub)
    && st'.table == st.table.(entries := ActivatedEntries(st.table.entries, out, created, done))
  }

  ghost predicate ActivatedAll(st: State, st': State, out: RegId -> Outcome, created: map<RegId, SubId>) {
    Activating(st, st', out, created, st.table.entries.Keys)
  }

  /** Activation of one record. */
  ghost predicate RecordActivated(st: State, st': State, rec: Record, o: Outcome) {
    var failure := Failure(rec.intent, true, o);
    if rec.active then
      st'.table == st.table && st'.live == st.live && st'.nextSub == st.nextSub
    else if failure.Some? then
      st'.table == SetInactive(st.table, rec.intent.id, failure) && st'.live == st.live && st.nextSub <= st'.nextSub
    else
      && st'.table == SetActive(st.table, rec.intent.id, Some(st.nextSub)).0
      && st'.nextSub == st.nextSub + 1
      && st'.live == if rec.intent.id in st.table.entries then st.live[st.nextSub := WireOf(rec.intent)] else st.live
  }

  /** The registrations whose activation is attempted and fails. */
  ghost function ActivationFailures(entries: map<RegId, Record>, out: RegId -> Outcome, done: set<RegId>): set<RegId> {
    set id | id in done && id in entries && !entries[id].active && Failure(entries[id].intent, true, out(id)).Some?
  }

  // ---------- batch restore ----------

  datatype Batch = BatchConnectionLost | BatchFlushFails | BatchFlushed

  function BatchFailure(b: Batch): Option<string> {
    match b
    case BatchConnectionLost => Some("client runtime is not connected")
    case BatchFlushFails => Some("batch subscribe readiness flush failed")
    case BatchFlushed => None
  }

  /** The ids restore creates a subscription for, active or not. */
  ghost predicate CreatesAny(entries: map<RegId, Record>, out: RegId -> Outcome, created: map<RegId, SubId>,
                             done: set<RegId>) {
    forall id :: id in created <==> id in entries && id in done && Failure(entries[id].intent, false, out(id)).None?
  }

  ghost predicate HeldAmong(entries: map<RegId, Record>, ids: set<RegId>, s: SubId) {
    exists id :: id in entries && id in ids && entries[id].activeSub == Some(s)
  }

  /** The live subscriptions without those the given entries hold. */
  ghost function Without(live: map<SubId, Wire>, entries: map<RegId, Record>, ids: set<RegId>): map<SubId, Wire> {
    map s | s in live && !HeldAmong(entries, ids, s) :: live[s]
  }

  /** Entries whose subscription could not be created are inactive, the others not touched yet. */
  function CreatingEntries(entries: map<RegId, Record>, out: RegId -> Outcome, created: map<RegId, SubId>,
                           done: set<RegId>): map<RegId, Record> {
    map id | id in entries ::
      if id in done && id !in created
      then Deactivate(entries[id], Failure(entries[id].intent, false, out(id)))
      else entries[id]
  }

  /** One entry's stale handle is dropped and a new subscription created, or the entry marked inactive. */
  ghost predicate Recreated(st: State, st': State, rec: Record, o: Outcome, sub: Result<SubId, string>) {
    var kept := if rec.active && rec.activeSub.Some? then st.live - {rec.activeSub.value} else st.live;
    if sub.Err? then
      && Failure(rec.intent, false, o) == Some(sub.error)
      && st'.live == kept && st.nextSub <= st'.nextSub
      && st'.table == SetInactive(st.table, rec.intent.id, Some(sub.error))
    else
      && Failure(rec.intent, false, o).None?
      && sub.value == st.nextSub
      && st' == State(st.table, kept[st.nextSub := WireOf(rec.intent)], st.nextSub + 1)
  }

  /** First loop of a restore, for the entries in done. */
  ghost predicate Creating(st: State, st': State, out: RegId -> Outcome, created: map<RegId, SubId>, done: set<RegId>) {
    && CreatesAny(st.table.entries, out, created, done)
    && Opened(Without(st.live, st.table.entries, done), st'.live, st.table.entries, created, st.nextSub, st'.nextSub)
    && st'.table == st.table.(entries := CreatingEntries(st.table.entries, out, created, done))
  }

  /** What the second half of a restore makes of the entries a subscription was created for. */
  function SettledEntries(entries: map<RegId, Record>, batch: Batch, created: map<RegId, SubId>): map<RegId, Record> {
    map id | id in entries ::
      if id in created then
        (if BatchFailure(batch).Some?
         then Deactivate(entries[id], BatchFailure(batch))
         else Activate(entries[id], Some(created[id])))
      else entries[id]
  }

  function AbandonOne(st: State, id: RegId, sub: SubId, why: string): State {
    st.(live := st.live - {sub}, table := SetInactive(st.table, id, Some(why)))
  }

  function AbandonPairs(st: State, pairs: seq<(RegId, SubId)>, why: string): State
    decreases |pairs|
  {
    if pairs == [] then st else AbandonPairs(AbandonOne(st, pairs[0].0, pairs[0].1, why), pairs[1..], why)
  }

  function Unsubscribed(live: map<SubId, Wire>, sub: Option<SubId>): map<SubId, Wire> {
    if sub.Some? then live - {sub.value} else live
  }

  function InstallOne(st: State, id: RegId, sub: SubId): State {
    var (table, stale) := SetActive(st.table, id, Some(sub));
    st.(table := table, live := Unsubscribed(st.live, if id in st.table.entries then stale else Some(sub)))
  }

  function InstallPairs(st: State, pairs: seq<(RegId, SubId)>): State
    decreases |pairs|
  {
    if pairs == [] then st else InstallPairs(InstallOne(st, pairs[0].0, pairs[0].1), pairs[1..])
  }

  /** All exits of a restore: every old handle is gone; the created ones are installed if the batch flush
      succeeded and unsubscribed otherwise; intent is untouched. */
  ghost predicate Restored(st: State, st': State, out: RegId -> Outcome, batch: Batch, created: map<RegId, SubId>) {
    var all := st.table.entries.Keys;
    && CreatesAny(st.table.entries, out, created, all)
    && Distinct(created)
    && st'.table == st.table.(entries :=
         SettledEntries(CreatingEntries(st.table.entries, out, created, all), batch, created))
    && Opened(Without(st.live, st.table.entries, all), st'.live, st.table.entries,
              if BatchFailure(batch).Some? then map[] else created, st.nextSub, st'.nextSub)
  }

  /** The registrations whose subscription a restore could not create. */
  ghost function RestoreFailures(entries: map<RegId, Record>, out: RegId -> Outcome, done: set<RegId>): set<RegId> {
    set id | id in done && id in entries && Failure(entries[id].intent, false, out(id)).Some?
  }

  // ---------- registration ----------

  datatype RegisterError = Rejected(reason: AddError) | ActivationFailed(reason2: string)

  /** A registration: add the intent, activate it unless the session is not up yet, and take it back if
      activation fails. */
  ghost predicate RegisteredIntent(st: State, st': State, i: Intent, state: Session.Lifecycle, o: Outcome,
                                   r: Result<RegId, RegisterError>) {
    var (table, added) := Insert(st.table, i);
    var failure := Failure(i, true, o);
    if added.Err? then
      r == Err(Rejected(added.error)) && st' == st.(table := table)
    else if Session.DefersActivation(state) then
      r == Ok(i.id) && st' == st.(table := table)
    else if failure.None? then
      && r == Ok(i.id)
      && st' == State(SetActive(table, i.id, Some(st.nextSub)).0, st.live[st.nextSub := WireOf(i)], st.nextSub + 1)
    else
      && r == Err(ActivationFailed(failure.value))
      && st'.table == st.table.(nextId := i.id) && st'.live == st.live && st.nextSub <= st'.nextSub
  }

  ghost predicate Registered(st: State, st': State, spec: AddSpec, state: Session.Lifecycle, o: Outcome,
                             r: Result<RegId, RegisterError>) {
    if CheckSpec(spec).Some? then r == Err(Rejected(CheckSpec(spec).value)) && st' == st
    else RegisteredIntent(st, st', NewIntent(st.table.nextId + 1, spec), state, o, r)
  }

  // ---------- the class ----------

  class SubscriptionRuntime {
    const registry: SubscriptionRegistry
    var live: map<SubId, Wire>
    var nextSub: SubId
    var registered: nat
    var active: nat

    ghost function View(): State
      reads this, registry
    {
      State(registry.Contents(), live, nextSub)
    }

    ghost predicate Valid()
      reads this, registry
    {
      Sound(View())
    }

    /** The health counters say what the registry holds. */
    ghost predicate Synced()
      reads this, registry
    {
      registered == |registry.entries| && active == |ActiveIds(registry.entries)|
    }

    constructor ()
      ensures Valid() && Synced() && fresh(registry)
      ensures View() == State(Table(0, map[], map[]), map[], 0)
    {
      registry := new SubscriptionRegistry();
      live, nextSub, registered, active := map[], 0, 0, 0;
      new;
      assert ActiveIds(registry.entries) == {};
    }

    method SyncHealth()
      modifies this`registered, this`active
      ensures Synced()
    {
      registered, active := registry.Counts();
    }

    /** subscribeInternal with the kind dispatch before it. Without a subscription made nothing is live that
        was not; the one that is made has the intent's subject and callback, and its queue group as given unless
        that is blank. */
    method Subscribe(i: Intent, flush: bool, o: Outcome) returns (r: Result<SubId, string>)
      requires Below(live, nextSub)
      modifies this`live, this`nextSub
      ensures Below(live, nextSub) && old(nextSub) <= nextSub
      ensures r.Ok? <==>
                && i.kind in {"configure", "action", "result", "status"} && TrimSpace(i.subject) != ""
                && (o.Succeeds? || (o.FlushFails? && !flush))
      ensures live == if r.Err? then old(live) else
                        old(live)[r.value := Wire(i.subject, if TrimSpace(i.queueGroup) == "" then None
                                                             else Some(i.queueGroup), i.callback)]
      ensures r.Err? ==> Failure(i, flush, o) == Some(r.error) && live == old(live)
      ensures r.Ok? ==> Failure(i, flush, o).None? && r.value == old(nextSub) && nextSub == old(nextSub) + 1
                        && live == old(live)[old(nextSub) := WireOf(i)]
    {
      if !IsKind(i.kind) {
        return Err("unsupported subscription kind");
      }
      if TrimSpace(i.subject) == "" {
        return Err("subscription subject is required");
      }
      if o.NotConnected? {
        return Err("client runtime is not connected");
      }
      if o.SubscribeFails? {
        return Err("subscribe operation failed");
      }
      var sub := nextSub;
      nextSub := nextSub + 1;
      if TrimSpace(i.queueGroup) != "" {
        live := live[sub := Wire(i.subject, Some(i.queueGroup), i.callback)];
      } else {
        live := live[sub := Wire(i.subject, None, i.callback)];
      }
      if flush && o.FlushFails? {
        Unsubscribe(Some(sub));
        assert live == old(live);
        return Err("subscribe readiness flush failed");
      }
      return Ok(sub);
    }

    method Unsubscribe(sub: Option<SubId>)
      modifies this`live
      ensures live == if sub.Some? then old(live) - {sub.value} else old(live)
    {
      if sub.Some? {
        live := live - {sub.value};
      }
    }

    /** activateRecordLocked; every caller passes the entry's current record and does not force. */
    method ActivateRecord(rec: Record, o: Outcome) returns (err: Option<string>)
      requires registry.Valid() && Below(live, nextSub)
      requires rec.intent.id in registry.entries ==> registry.entries[rec.intent.id] == rec
      modifies this`live, this`nextSub, registry
      ensures registry.Valid() && Below(live, nextSub) && old(nextSub) <= nextSub
      ensures RecordActivated(old(View()), View(), rec, o)
      ensures err == if rec.active then None else Failure(rec.intent, true, o)
      ensures err.None? <==> rec.active || (Subscribable(rec.intent) && o.Succeeds?)
      ensures rec.active || err.Some? ==> live == old(live)
      ensures rec.active ==> registry.Contents() == old(registry.Contents())
      ensures registry.entries.Keys == old(registry.entries).Keys
      ensures forall k | k in registry.entries && k != rec.intent.id ::
                registry.entries[k] == old(registry.entries)[k]
      ensures !rec.active && rec.intent.id in registry.entries ==>
        var now := registry.entries[rec.intent.id];
        && now.intent == rec.intent && now.active == err.None?
        && now.activeSub == (if err.None? then Some(old(nextSub)) else None)
        && now.lastErr == (if err.None? then "" else err.value)
        && (err.None? ==> old(nextSub) in live && live[old(nextSub)].subject == rec.intent.subject)
    {
      FailureIff(rec.intent, true, o);
      if rec.active {
        return None;
      }
      assert rec.intent.id in registry.entries ==> Filed(rec, rec.intent.id, registry.Contents());
      var sub := Subscribe(rec.intent, true, o);
      if sub.Err? {
        registry.MarkInactive(rec.intent.id, Some(sub.error));
        return Some(sub.error);
      }
      var current := registry.Get(rec.intent.id);
      if current.Some? {
        var stale := registry.MarkActive(rec.intent.id, Some(sub.value));
        Unsubscribe(stale);
      } else {
        Unsubscribe(Some(sub.value));
        assert live == old(live);
      }
      return None;
    }

    /** activateAllRegisteredSubscriptions: the first result names the registrations whose errors were joined. */
    method ActivateAll(out: RegId -> Outcome) returns (failed: set<RegId>, ghost created: map<RegId, SubId>)
      requires Valid()
      modifies this, registry
      ensures Valid() && Synced()
      ensures ActivatedAll(old(View()), View(), out, created)
      ensures failed == ActivationFailures(old(registry.entries), out, old(registry.entries).Keys)
      ensures forall id :: id in failed <==>
                && id in old(registry.entries) && !old(registry.entries)[id].active
                && !(Subscribable(old(registry.entries)[id].intent) && out(id).Succeeds?)
    {
      var records := registry.ListActivations();
      ghost var st := View();
      ghost var done: set<RegId> := {};
      created := map[];
      failed := {};
      assert ActivatedEntries(st.table.entries, out, created, done) == st.table.entries;
      for i := 0 to |records|
        invariant registry.Valid() && Below(live, nextSub)
        invariant done == IdsOf(records[..i])
        invariant Activating(st, View(), out, created, done)
        invariant failed == ActivationFailures(st.table.entries, out, done)
      {
        var rec := records[i];
        NextRecord(records, st.table.entries, i);
        FailuresStep(st.table.entries, out, done, rec.intent.id);
        ghost var mid := View();
        KeepsLaterRecords(st, mid, out, created, done, rec.intent.id);
        var err := ActivateRecord(rec, out(rec.intent.id));
        if err.Some? {
          failed := failed + {rec.intent.id};
        }
        created := ActivatingStep(st, mid, View(), out, created, done, rec);
        done := done + {rec.intent.id};
      }
      AllRecords(records, st.table.entries);
      ActivatedIsSound(st, View(), out, created);
      FailingActivations(st.table.entries, out);
      SyncHealth();
    }

    /** One round of that loop. */
    method Recreate(rec: Record, o: Outcome) returns (sub: Result<SubId, string>)
      requires registry.Valid() && Below(live, nextSub)
      requires rec.intent.id in registry.entries && registry.entries[rec.intent.id] == rec
      modifies this`live, this`nextSub, registry
      ensures registry.Valid() && Below(live, nextSub)
      ensures Recreated(old(View()), View(), rec, o, sub)
    {
      if rec.active && rec.activeSub.Some? {
        Unsubscribe(rec.activeSub);
      }
      sub := Subscribe(rec.intent, false, o);
      if sub.Err? {
        registry.MarkInactive(rec.intent.id, Some(sub.error));
      }
    }

    /** First loop of restoreAllRegisteredSubscriptions: drop each stale handle, create a new one. */
    method RestoreCreate(records: seq<Record>, out: RegId -> Outcome)
      returns (pairs: seq<(RegId, SubId)>, failed: set<RegId>, ghost created: map<RegId, SubId>)
      requires Valid() && Lists(records, registry.entries)
      modifies this`live, this`nextSub, registry
      ensures registry.Valid() && Below(live, nextSub)
      ensures Creating(old(View()), View(), out, created, old(registry.entries).Keys)
      ensures failed == RestoreFailures(old(registry.entries), out, old(registry.entries).Keys)
      ensures ListsPairs(pairs, created)
    {
      ghost var st := View();
      ghost var done: set<RegId> := {};
      pairs, failed, created := [], {}, map[];
      CreatingNothing(st, out);
      for i := 0 to |records|
        invariant registry.Valid() && Below(live, nextSub)
        invariant done == IdsOf(records[..i])
        invariant Creating(st, View(), out, created, done)
        invariant failed == RestoreFailures(st.table.entries, out, done)
        invariant ListsPairs(pairs, created)
      {
        var rec := records[i];
        var id := rec.intent.id;
        NextRecord(records, st.table.entries, i);
        RestoreFailuresStep(st.table.entries, out, done, id);
        CreatingKeepsLater(st, View(), out, created, done, id);
        ghost var mid := View();
        var sub := Recreate(rec, out(id));
        if sub.Err? {
          failed := failed + {id};
        } else {
          ListPair(pairs, created, id, sub.value);
          pairs := pairs + [(id, sub.value)];
        }
        created := CreatingStep(st, mid, View(), out, created, done, rec, sub);
        done := done + {id};
      }
      AllRecords(records, st.table.entries);
    }

    /** The loops after a lost connection or a failed batch flush. */
    method RestoreAbandon(pairs: seq<(RegId, SubId)>, why: string)
      requires registry.Valid()
      modifies this`live, registry
      ensures registry.Valid()
      ensures View() == AbandonPairs(old(View()), pairs, why)
    {
      for i := 0 to |pairs|
        invariant registry.Valid()
        invariant AbandonPairs(View(), pairs[i..], why) == AbandonPairs(old(View()), pairs, why)
      {
        assert pairs[i..][1..] == pairs[i + 1..];
        Unsubscribe(Some(pairs[i].1));
        registry.MarkInactive(pairs[i].0, Some(why));
      }
    }

    /** The last loop of a successful restore. */
    method RestoreInstall(pairs: seq<(RegId, SubId)>)
      requires registry.Valid()
      modifies this`live, registry
      ensures registry.Valid()
      ensures View() == InstallPairs(old(View()), pairs)
    {
      for i := 0 to |pairs|
        invariant registry.Valid()
        invariant InstallPairs(View(), pairs[i..]) == InstallPairs(old(View()), pairs)
      {
        assert pairs[i..][1..] == pairs[i + 1..];
        var id := pairs[i].0;
        var current := registry.Get(id);
        var stale := None;
        if current.Some? {
          stale := registry.MarkActive(id, Some(pairs[i].1));
        }
        Unsubscribe(stale);
        if current.None? {
          Unsubscribe(Some(pairs[i].1));
        }
      }
    }

    /** restoreAllRegisteredSubscriptions: the results name the registrations and the batch failure whose
        errors were joined. */
    method Restore(out: RegId -> Outcome, batch: Batch)
      returns (failed: set<RegId>, batchErr: Option<string>, ghost created: map<RegId, SubId>)
      requires Valid()
      modifies this, registry
      ensures Valid() && (old(Synced()) ==> Synced())
      ensures Restored(old(View()), View(), out, batch, created)
      ensures failed == RestoreFailures(old(registry.entries), out, old(registry.entries).Keys)
      ensures batchErr == if created == map[] then None else BatchFailure(batch)
      ensures batchErr.Some? <==> created != map[] && (batch.BatchConnectionLost? || batch.BatchFlushFails?)
      ensures failed == Uncreatable(old(registry.entries), out)
    {
      var records := registry.ListActivations();
      ghost var st := View();
      batchErr := None;
      if |records| == 0 {
        failed, created := {}, map[];
        NothingToRestore(st, records, out, batch);
        FailingCreations(st.table.entries, out);
        return;
      }
      var pairs;
      pairs, failed, created := RestoreCreate(records, out);
      if |pairs| == 0 {
        assert created == map[];
        NothingCreated(st, View(), out, batch, created);
      } else if BatchFailure(batch).Some? {
        AbandonedIsRestored(st, View(), out, batch, created, pairs);
        RestoreAbandon(pairs, BatchFailure(batch).value);
        batchErr := BatchFailure(batch);
      } else {
        InstalledIsRestored(st, View(), out, batch, created, pairs);
        RestoreInstall(pairs);
      }
      RestoredIsSound(st, View(), out, batch, created);
      FailingCreations(st.table.entries, out);
      SyncHealth();
    }

    /** activateAfterRegistrationLocked. */
    method ActivateAfterRegistration(id: RegId, state: Session.Lifecycle, o: Outcome) returns (err: Option<string>)
      requires registry.Valid() && Below(live, nextSub) && id in registry.entries && Synced()
      modifies this, registry
      ensures registry.Valid() && Below(live, nextSub)
      ensures state.New? || state.Connecting? ==> err.None? && View() == old(View())
      ensures Session.DefersActivation(state) ==> err.None? && View() == old(View())
      ensures !Session.DefersActivation(state) ==>
                RecordActivated(old(View()), View(), old(registry.entries)[id], o)
                && err == if old(registry.entries)[id].active then None
                          else Failure(old(registry.entries)[id].intent, true, o)
      ensures err.None? ==> Synced()
    {
      assert Filed(registry.entries[id], id, registry.Contents());
      if Session.DefersActivation(state) {
        return None;
      }
      var rec := registry.Get(id);
      if rec.None? || rec.value.active {
        return None;
      }
      err := ActivateRecord(rec.value, o);
      if err.None? {
        SyncHealth();
      }
    }

    /** rollbackRegistrationLocked. */
    method Rollback(id: RegId)
      requires registry.Valid()
      modifies this, registry
      ensures registry.Valid() && Synced() && nextSub == old(nextSub)
      ensures registry.Contents() == RemoveEntry(old(registry.Contents()), id).0
      ensures live == if id in old(registry.entries)
                      then Unsubscribed(old(live), old(registry.entries)[id].activeSub)
                      else old(live)
    {
      var handle := registry.Remove(id);
      if handle.Some? {
        Unsubscribe(handle.value.activeSub);
      }
      SyncHealth();
    }

    /** The end of a registration whose intent was added. */
    method ActivateOrRollback(ghost st: State, i: Intent, state: Session.Lifecycle, o: Outcome)
      returns (r: Result<RegId, RegisterError>)
      requires registry.Valid() && Below(live, nextSub) && Synced()
      requires i.id !in st.table.entries && Insert(st.table, i).1.Ok? && View() == st.(table := Insert(st.table, i).0)
      modifies this, registry
      ensures registry.Valid() && Synced()
      ensures RegisteredIntent(st, View(), i, state, o, r)
    {
      var err := ActivateAfterRegistration(i.id, state, o);
      if err.None? {
        ActivatedIsRegistered(st, View(), i, state, o);
        return Ok(i.id);
      }
      ghost var mid := View();
      Rollback(i.id);
      RolledBackIsRegistered(st, mid, View(), i, state, o);
      return Err(ActivationFailed(err.value));
    }

    /** The four register functions, which differ in the kind and the subject only. */
    method Register(spec: AddSpec, state: Session.Lifecycle, o: Outcome) returns (r: Result<RegId, RegisterError>)
      requires Valid()
      modifies this, registry
      ensures Valid() && (old(Synced()) ==> Synced())
      ensures Registered(old(View()), View(), spec, state, o, r)
    {
      ghost var st := View();
      var added := registry.Add(spec);
      if added.Err? {
        r := Err(Rejected(added.error));
        NotAdded(st, View(), spec, state, o);
      } else {
        SyncHealth();
        FreshId(st.table);
        AddedIsInserted(st.table, spec);
        r := ActivateOrRollback(st, added.value.intent, state, o);
        AddedIsRegistered(st, View(), spec, state, o, r);
      }
      RegisteredIsSound(st, View(), spec, state, o, r);
    }

    /** The locked half of deactivateAllSubscriptions. */
    method Detach() returns (handles: seq<Handle>)
      requires Valid()
      modifies registry
      ensures registry.Valid() && registry.Contents() == ClearHandles(old(registry.Contents()))
      ensures HandlePairs(handles) == Held(old(registry.entries))
    {
      handles := registry.ClearActiveHandles();
    }

    /** The unlocked half. */
    method UnsubscribeAll(handles: seq<Handle>)
      modifies this
      ensures Synced() && nextSub == old(nextSub)
      ensures live == map s | s in old(live) && !(exists i :: 0 <= i < |handles| && handles[i].sub == s) :: old(live)[s]
    {
      for i := 0 to |handles|
        invariant nextSub == old(nextSub)
        invariant live == map s | s in old(live) && !(exists j :: 0 <= j < i && handles[j].sub == s) :: old(live)[s]
      {
        Unsubscribe(Some(handles[i].sub));
      }
      SyncHealth();
    }

    /** deactivateAllSubscriptions without interference: no entry keeps a handle, and exactly the handles
        they held are unsubscribed. */
    method DeactivateAll()
      requires Valid()
      modifies this, registry
      ensures Valid() && Synced()
      ensures registry.Contents() == ClearHandles(old(registry.Contents())) && nextSub == old(nextSub)
      ensures live == Without(old(live), old(registry.entries), old(registry.entries).Keys)
    {
      var handles := Detach();
      ghost var before := old(registry.entries);
      forall s: SubId
        ensures HeldAmong(before, before.Keys, s) <==> exists i :: 0 <= i < |handles| && handles[i].sub == s
      {
        HandlesName(handles, before, s);
      }
      UnsubscribeAll(handles);
    }
  }

  lemma HandlesName(handles: seq<Handle>, entries: map<RegId, Record>, s: SubId)
    requires HandlePairs(handles) == Held(entries)
    ensures HeldAmong(entries, entries.Keys, s) <==> exists i :: 0 <= i < |handles| && handles[i].sub == s
  {
    if HeldAmong(entries, entries.Keys, s) {
      var id :| id in entries && entries[id].activeSub == Some(s);
      assert (id, s) in Held(entries);
      var i :| 0 <= i < |handles| && (handles[i].id, handles[i].sub) == (id, s);
    }
    if i :| 0 <= i < |handles| && handles[i].sub == s {
      assert (handles[i].id, s) in HandlePairs(handles);
    }
  }

  /** A registration that was added and either deferred or activated is done. */
  lemma ActivatedIsRegistered(st: State, st': State, i: Intent, state: Session.Lifecycle, o: Outcome)
    requires Insert(st.table, i).1.Ok?
    requires var added := st.(table := Insert(st.table, i).0);
             if Session.DefersActivation(state) then st' == added
             else RecordActivated(added, st', added.table.entries[i.id], o) && Failure(i, true, o).None?
    ensures RegisteredIntent(st, st', i, state, o, Ok(i.id))
  {
  }

  /** One that was added, failed to activate and was taken back has failed. */
  lemma RolledBackIsRegistered(st: State, mid: State, st': State, i: Intent, state: Session.Lifecycle, o: Outcome)
    requires Insert(st.table, i).1.Ok? && i.id !in st.table.entries && !Session.DefersActivation(state)
    requires var added := st.(table := Insert(st.table, i).0);
             RecordActivated(added, mid, added.table.entries[i.id], o)
    requires Failure(i, true, o).Some? && i.id in mid.table.entries
    requires st' == State(RemoveEntry(mid.table, i.id).0, Unsubscribed(mid.live, mid.table.entries[i.id].activeSub),
            mid.nextSub)
    ensures RegisteredIntent(st, st', i, state, o, Err(ActivationFailed(Failure(i, true, o).value)))
  {
    RolledBack(st.table, i, st'.table);
  }

  lemma NotAdded(st: State, st': State, spec: AddSpec, state: Session.Lifecycle, o: Outcome)
    requires AddEntry(st.table, spec).1.Err? && st' == st.(table := AddEntry(st.table, spec).0)
    ensures Registered(st, st', spec, state, o, Err(Rejected(AddEntry(st.table, spec).1.error)))
  {
  }

  lemma AddedIsInserted(t: Table, spec: AddSpec)
    requires AddEntry(t, spec).1.Ok?
    ensures CheckSpec(spec).None?
    ensures var i := AddEntry(t, spec).1.value.intent;
            Insert(t, i) == AddEntry(t, spec) && i == NewIntent(t.nextId + 1, spec)
  {
  }

  lemma AddedIsRegistered(st: State, st': State, spec: AddSpec, state: Session.Lifecycle, o: Outcome,
                          r: Result<RegId, RegisterError>)
    requires AddEntry(st.table, spec).1.Ok?
    requires RegisteredIntent(st, st', AddEntry(st.table, spec).1.value.intent, state, o, r)
    ensures Registered(st, st', spec, state, o, r)
  {
    AddedIsInserted(st.table, spec);
  }

  /** Removing an entry that was added and failed to activate leaves only the counter moved. */
  lemma RolledBack(t: Table, i: Intent, t': Table)
    requires i.id !in t.entries && i.key !in t.byKey
    requires t' == RemoveEntry(Insert(t, i).0, i.id).0
             || exists err :: t' == RemoveEntry(SetInactive(Insert(t, i).0, i.id, err), i.id).0
    ensures t' == t.(nextId := i.id)
  {
    assert t'.entries == t.entries && t'.byKey == t.byKey;
  }

  // ---------- every section keeps the ledger ----------

  /** The created handles are installed, and every other handle was there before and is still live. */
  ghost predicate Accounted(entries: map<RegId, Record>, entries': map<RegId, Record>, kept: map<SubId, Wire>,
                            created: map<RegId, SubId>) {
    && (forall id | id in created :: id in entries' && entries'[id].activeSub == Some(created[id]))
    && (forall id | id in entries' && id !in created && entries'[id].activeSub.Some? ::
          id in entries && entries'[id].activeSub == entries[id].activeSub
          && entries[id].activeSub.value in kept && kept[entries[id].activeSub.value] == WireOf(entries[id].intent))
  }

  lemma AccountedIsWired(kept: map<SubId, Wire>, after: map<SubId, Wire>, entries: map<RegId, Record>,
                         entries': map<RegId, Record>, created: map<RegId, SubId>, from: SubId, to: SubId)
    requires Placed(after, entries, created, from, to) && Extends(kept, after)
    requires SameIntents(entries, entries') && Accounted(entries, entries', kept, created)
    ensures Wired(entries', after)
  {
  }

  lemma AccountedIsUnshared(kept: map<SubId, Wire>, after: map<SubId, Wire>, entries: map<RegId, Record>,
                            entries': map<RegId, Record>, created: map<RegId, SubId>, from: SubId, to: SubId)
    requires Placed(after, entries, created, from, to) && Distinct(created) && Below(kept, from)
    requires Accounted(entries, entries', kept, created) && Unshared(entries)
    ensures Unshared(entries')
  {
  }

  lemma OpenedIsBelow(before: map<SubId, Wire>, after: map<SubId, Wire>, entries: map<RegId, Record>,
                      created: map<RegId, SubId>, from: SubId, to: SubId)
    requires Opened(before, after, entries, created, from, to) && Below(before, from)
    ensures Below(after, to)
  {
    forall s | s in after
      ensures s < to
    {
      if s !in before {
        assert Names(created, s);
      }
    }
  }

  /** A section that changes nothing but activation, and accounts for every new handle, keeps the ledger. */
  lemma LedgerIsSound(st: State, st': State, kept: map<SubId, Wire>, created: map<RegId, SubId>)
    requires Sound(st) && st'.table == st.table.(entries := st'.table.entries)
    requires SameIntents(st.table.entries, st'.table.entries)
    requires Opened(kept, st'.live, st.table.entries, created, st.nextSub, st'.nextSub) && Extends(kept, st.live)
    requires Accounted(st.table.entries, st'.table.entries, kept, created)
    ensures Sound(st')
  {
    assert Below(kept, st.nextSub);
    ActivationKeepsInv(st.table, st'.table.entries);
    AccountedIsWired(kept, st'.live, st.table.entries, st'.table.entries, created, st.nextSub, st'.nextSub);
    AccountedIsUnshared(kept, st'.live, st.table.entries, st'.table.entries, created, st.nextSub, st'.nextSub);
    OpenedIsBelow(kept, st'.live, st.table.entries, created, st.nextSub, st'.nextSub);
  }

  /** What activation makes of one entry. */
  lemma ActivatedEntry(st: State, st': State, out: RegId -> Outcome, created: map<RegId, SubId>, id: RegId)
    requires ActivatedAll(st, st', out, created) && id in st.table.entries
    ensures id in st'.table.entries
    ensures var rec := st.table.entries[id];
            st'.table.entries[id] ==
              (if rec.active then rec
               else if id in created then Activate(rec, Some(created[id]))
               else Deactivate(rec, Failure(rec.intent, true, out(id))))
    ensures st.table.entries[id].active ==> id !in created
  {
  }

  lemma ActivatedIsSound(st: State, st': State, out: RegId -> Outcome, created: map<RegId, SubId>)
    requires Sound(st) && ActivatedAll(st, st', out, created)
    ensures Sound(st')
  {
    var entries, entries' := st.table.entries, st'.table.entries;
    forall id | id in entries
      ensures entries'[id].intent == entries[id].intent && entries'[id].active == entries'[id].activeSub.Some?
      ensures entries'[id].activeSub == if id in created then Some(created[id]) else entries[id].activeSub
    {
      ActivatedEntry(st, st', out, created, id);
      assert Filed(entries[id], id, st.table);
    }
    assert Accounted(entries, entries', st.live, created);
    LedgerIsSound(st, st', st.live, created);
  }

  /** What a restore makes of one entry. */
  lemma RestoredEntry(st: State, st': State, out: RegId -> Outcome, batch: Batch, created: map<RegId, SubId>, id: RegId)
    requires Restored(st, st', out, batch, created) && id in st.table.entries
    ensures id in st'.table.entries
    ensures var rec := st.table.entries[id];
            st'.table.entries[id] ==
              (if id !in created then Deactivate(rec, Failure(rec.intent, false, out(id)))
               else if BatchFailure(batch).Some? then Deactivate(rec, BatchFailure(batch))
               else Activate(rec, Some(created[id])))
  {
  }

  lemma RestoredAccounts(st: State, st': State, out: RegId -> Outcome, batch: Batch, created: map<RegId, SubId>)
    requires Restored(st, st', out, batch, created)
    ensures SameIntents(st.table.entries, st'.table.entries)
    ensures Accounted(st.table.entries, st'.table.entries, Without(st.live, st.table.entries, st.table.entries.Keys),
                      if BatchFailure(batch).Some? then map[] else created)
  {
    forall id | id in st.table.entries
      ensures id in st'.table.entries
      ensures var rec := st'.table.entries[id];
              rec.intent == st.table.entries[id].intent && rec.active == rec.activeSub.Some?
              && rec.activeSub == if id in created && BatchFailure(batch).None? then Some(created[id]) else None
    {
      RestoredEntry(st, st', out, batch, created, id);
    }
  }

  lemma RestoredIsSound(st: State, st': State, out: RegId -> Outcome, batch: Batch, created: map<RegId, SubId>)
    requires Sound(st) && Restored(st, st', out, batch, created)
    ensures Sound(st')
  {
    RestoredAccounts(st, st', out, batch, created);
    LedgerIsSound(st, st', Without(st.live, st.table.entries, st.table.entries.Keys),
                  if BatchFailure(batch).Some? then map[] else created);
  }

  lemma RegisteredIsSound(st: State, st': State, spec: AddSpec, state: Session.Lifecycle, o: Outcome,
                          r: Result<RegId, RegisterError>)
    requires Sound(st) && Registered(st, st', spec, state, o, r)
    ensures Sound(st')
  {
    if CheckSpec(spec).None? {
      var i := NewIntent(st.table.nextId + 1, spec);
      RegisteredInsertSound(st, st', i, state, o, r);
    }
  }

  lemma InsertedIsSound(st: State, i: Intent)
    requires Sound(st) && i.id == st.table.nextId + 1
    ensures Sound(st.(table := Insert(st.table, i).0))
    ensures i.id !in st.table.entries
  {
    FreshId(st.table);
    InsertKeepsInv(st.table, i);
  }

  lemma HandleAddedIsSound(st: State, id: RegId)
    requires Sound(st) && id in st.table.entries && st.table.entries[id].activeSub.None?
    ensures Sound(State(SetActive(st.table, id, Some(st.nextSub)).0,
            st.live[st.nextSub := WireOf(st.table.entries[id].intent)],
                        st.nextSub + 1))
  {
    UpdateKeepsInv(st.table, id, Activate(st.table.entries[id], Some(st.nextSub)));
  }

  lemma RegisteredInsertSound(st: State, st': State, i: Intent, state: Session.Lifecycle, o: Outcome,
                              r: Result<RegId, RegisterError>)
    requires Sound(st) && i.id == st.table.nextId + 1 && RegisteredIntent(st, st', i, state, o, r)
    ensures Sound(st')
  {
    InsertedIsSound(st, i);
    CounterMayGrow(st.table, i.id);
    if i.key !in st.table.byKey && !Session.DefersActivation(state) && Failure(i, true, o).None? {
      HandleAddedIsSound(st.(table := Insert(st.table, i).0), i.id);
    }
  }

  lemma CounterMayGrow(t: Table, n: RegId)
    requires TableInv(t) && t.nextId <= n
    ensures TableInv(t.(nextId := n))
  {
    forall id | id in t.entries
      ensures Filed(t.entries[id], id, t.(nextId := n))
    {
      assert Filed(t.entries[id], id, t);
    }
  }

  // ---------- steps of the loops ----------

  ghost function IdsOf(records: seq<Record>): set<RegId> {
    set i | 0 <= i < |records| :: records[i].intent.id
  }

  lemma NextRecord(records: seq<Record>, entries: map<RegId, Record>, i: nat)
    requires Lists(records, entries) && i < |records|
    ensures records[i].intent.id in entries && records[i] == entries[records[i].intent.id]
    ensures records[i].intent.id !in IdsOf(records[..i])
    ensures IdsOf(records[..i + 1]) == IdsOf(records[..i]) + {records[i].intent.id}
  {
    assert forall j | 0 <= j <= i :: records[..i + 1][j] == records[j];
    assert forall j | 0 <= j < i :: records[..i][j] == records[j] && records[j].intent.id in IdsOf(records[..i]);
  }

  lemma AllRecords(records: seq<Record>, entries: map<RegId, Record>)
    requires Lists(records, entries)
    ensures IdsOf(records[..|records|]) == entries.Keys
  {
    assert records[..|records|] == records;
    forall id | id in entries
      ensures id in IdsOf(records)
    {
      var i :| 0 <= i < |records| && records[i].intent.id == id;
    }
  }

  lemma FailuresStep(entries: map<RegId, Record>, out: RegId -> Outcome, done: set<RegId>, id: RegId)
    requires id in entries
    ensures ActivationFailures(entries, out, done + {id})
         == if !entries[id].active && Failure(entries[id].intent, true, out(id)).Some?
            then ActivationFailures(entries, out, done) + {id} else ActivationFailures(entries, out, done)
  {
  }

  lemma KeepsLaterRecords(st: State, mid: State, out: RegId -> Outcome, created: map<RegId, SubId>, done: set<RegId>,
                          id: RegId)
    requires Activating(st, mid, out, created, done) && id in st.table.entries && id !in done
    ensures id in mid.table.entries && mid.table.entries[id] == st.table.entries[id]
  {
  }

  lemma ActivatingStep(st: State, mid: State, st': State, out: RegId -> Outcome, created: map<RegId, SubId>,
                       done: set<RegId>, rec: Record)
    returns (created': map<RegId, SubId>)
    requires Activating(st, mid, out, created, done) && Below(mid.live, mid.nextSub)
    requires var id := rec.intent.id; id in st.table.entries && id !in done && st.table.entries[id] == rec
    requires RecordActivated(mid, st', rec, out(rec.intent.id))
    ensures Activating(st, st', out, created', done + {rec.intent.id})
  {
    var id := rec.intent.id;
    if !rec.active && Failure(rec.intent, true, out(id)).None? {
      created' := created[id := mid.nextSub];
      OpenedOne(st.live, mid.live, st.table.entries, created, st.nextSub, mid.nextSub, id);
      ActivatedStep(st.table.entries, out, created, done, id, Some(mid.nextSub));
    } else {
      created' := created;
      OpenedLater(st.live, mid.live, st.table.entries, created, st.nextSub, mid.nextSub, st'.nextSub);
      ActivatedStep(st.table.entries, out, created, done, id, None);
    }
  }

  lemma OpenedLater(before: map<SubId, Wire>, after: map<SubId, Wire>, entries: map<RegId, Record>,
                    created: map<RegId, SubId>, from: SubId, to: SubId, later: SubId)
    requires Opened(before, after, entries, created, from, to) && to <= later
    ensures Opened(before, after, entries, created, from, later)
  {
  }

  lemma ActivatedStep(entries: map<RegId, Record>, out: RegId -> Outcome, created: map<RegId, SubId>, done: set<RegId>,
                      id: RegId, sub: Option<SubId>)
    requires id in entries && id !in done && CreatesInactive(entries, out, created, done)
    requires sub.Some? <==> !entries[id].active && Failure(entries[id].intent, true, out(id)).None?
    ensures var created' := if sub.Some? then created[id := sub.value] else created;
            && ActivatedEntries(entries, out, created', done + {id})
                 == ActivatedEntries(entries, out, created, done)[id := ActivatedRecord(entries[id], out(id), sub)]
            && CreatesInactive(entries, out, created', done + {id})
    ensures id !in created && ActivatedEntries(entries, out, created, done)[id] == entries[id]
  {
  }

  /** The pairs list the map, each id once. */
  ghost predicate ListsPairs(pairs: seq<(RegId, SubId)>, created: map<RegId, SubId>) {
    && (forall i | 0 <= i < |pairs| :: pairs[i].0 in created && created[pairs[i].0] == pairs[i].1)
    && (forall id | id in created :: exists i :: 0 <= i < |pairs| && pairs[i].0 == id)
    && (forall i, j | 0 <= i < j < |pairs| :: pairs[i].0 != pairs[j].0)
  }

  lemma CreatingNothing(st: State, out: RegId -> Outcome)
    ensures Creating(st, st, out, map[], {})
  {
    assert Without(st.live, st.table.entries, {}) == st.live;
    assert CreatingEntries(st.table.entries, out, map[], {}) == st.table.entries;
  }

  lemma WithoutStep(live: map<SubId, Wire>, entries: map<RegId, Record>, ids: set<RegId>, id: RegId)
    requires id in entries
    ensures Without(live, entries, ids + {id})
         == if entries[id].activeSub.Some?
            then Without(live, entries, ids) - {entries[id].activeSub.value}
            else Without(live, entries, ids)
  {
    forall s: SubId
      ensures HeldAmong(entries, ids + {id}, s) <==> HeldAmong(entries, ids, s) || entries[id].activeSub == Some(s)
    {
      if HeldAmong(entries, ids, s) {
        var k :| k in entries && k in ids && entries[k].activeSub == Some(s);
        assert k in ids + {id};
      }
      assert id in ids + {id};
    }
  }

  lemma OpenedDrop(before: map<SubId, Wire>, after: map<SubId, Wire>, entries: map<RegId, Record>,
                   created: map<RegId, SubId>, from: SubId, to: SubId, s: SubId)
    requires Opened(before, after, entries, created, from, to) && s < from
    ensures Opened(before - {s}, after - {s}, entries, created, from, to)
  {
  }

  lemma CreatingKeepsLater(st: State, mid: State, out: RegId -> Outcome, created: map<RegId, SubId>, done: set<RegId>,
                           id: RegId)
    requires Creating(st, mid, out, created, done) && id in st.table.entries && id !in done
    ensures id in mid.table.entries && mid.table.entries[id] == st.table.entries[id] && id !in created
  {
  }

  lemma CreatingStep(st: State, mid: State, st': State, out: RegId -> Outcome, created: map<RegId, SubId>,
                     done: set<RegId>, rec: Record,
                     sub: Result<SubId, string>)
    returns (created': map<RegId, SubId>)
    requires Sound(st) && Creating(st, mid, out, created, done) && Below(mid.live, mid.nextSub)
    requires var id := rec.intent.id; id in st.table.entries && id !in done && st.table.entries[id] == rec
    requires Recreated(mid, st', rec, out(rec.intent.id), sub)
    ensures Creating(st, st', out, created', done + {rec.intent.id})
    ensures created' == if sub.Ok? then created[rec.intent.id := sub.value] else created
  {
    var id := rec.intent.id;
    var entries := st.table.entries;
    var kept := if rec.active && rec.activeSub.Some? then mid.live - {rec.activeSub.value} else mid.live;
    var base := Without(st.live, entries, done + {id});
    assert Filed(rec, id, st.table);
    WithoutStep(st.live, entries, done, id);
    if rec.activeSub.Some? {
      OpenedDrop(Without(st.live, entries, done), mid.live, entries, created, st.nextSub, mid.nextSub,
          rec.activeSub.value);
    }
    assert Opened(base, kept, entries, created, st.nextSub, mid.nextSub);
    CreatingEntriesStep(entries, out, created, done, id, mid.nextSub);
    if sub.Ok? {
      created' := created[id := mid.nextSub];
      OpenedOne(base, kept, entries, created, st.nextSub, mid.nextSub, id);
    } else {
      created' := created;
      OpenedLater(base, kept, entries, created, st.nextSub, mid.nextSub, st'.nextSub);
    }
  }

  lemma CreatingEntriesStep(entries: map<RegId, Record>, out: RegId -> Outcome, created: map<RegId, SubId>,
                            done: set<RegId>,
                            id: RegId, sub: SubId)
    requires id in entries && id !in done && CreatesAny(entries, out, created, done)
    ensures var failure := Failure(entries[id].intent, false, out(id));
            var created' := if failure.None? then created[id := sub] else created;
            && id !in created
            && CreatesAny(entries, out, created', done + {id})
            && CreatingEntries(entries, out, created, done)[id] == entries[id]
            && CreatingEntries(entries, out, created', done + {id})
                 == (if failure.None? then CreatingEntries(entries, out, created, done)
                     else CreatingEntries(entries, out, created, done)[id := Deactivate(entries[id], failure)])
  {
  }

  lemma FailingActivations(entries: map<RegId, Record>, out: RegId -> Outcome)
    ensures forall id :: id in ActivationFailures(entries, out, entries.Keys) <==>
              id in entries && !entries[id].active && !(Subscribable(entries[id].intent) && out(id).Succeeds?)
  {
    forall id | id in entries
      ensures Failure(entries[id].intent, true, out(id)).None? <==>
              Subscribable(entries[id].intent) && out(id).Succeeds?
    {
      FailureIff(entries[id].intent, true, out(id));
    }
  }

  /** The registrations that no subscription can be made for, flushed or not. */
  ghost function Uncreatable(entries: map<RegId, Record>, out: RegId -> Outcome): set<RegId> {
    set id | id in entries && !(Subscribable(entries[id].intent) && (out(id).Succeeds? || out(id).FlushFails?))
  }

  lemma CreatedIsTheRest(entries: map<RegId, Record>, out: RegId -> Outcome, created: map<RegId, SubId>)
    requires CreatesAny(entries, out, created, entries.Keys)
    ensures created.Keys == entries.Keys - Uncreatable(entries, out)
  {
    FailingCreations(entries, out);
  }

  lemma FailingCreations(entries: map<RegId, Record>, out: RegId -> Outcome)
    ensures RestoreFailures(entries, out, entries.Keys) == Uncreatable(entries, out)
  {
    forall id | id in entries
      ensures Failure(entries[id].intent, false, out(id)).None? <==>
              Subscribable(entries[id].intent) && (out(id).Succeeds? || out(id).FlushFails?)
    {
      FailureIff(entries[id].intent, false, out(id));
    }
  }

  lemma RestoreFailuresStep(entries: map<RegId, Record>, out: RegId -> Outcome, done: set<RegId>, id: RegId)
    requires id in entries
    ensures RestoreFailures(entries, out, done + {id})
         == if Failure(entries[id].intent, false, out(id)).Some? then RestoreFailures(entries, out, done) + {id}
            else RestoreFailures(entries, out, done)
  {
  }

  lemma ListPair(pairs: seq<(RegId, SubId)>, created: map<RegId, SubId>, id: RegId, sub: SubId)
    requires ListsPairs(pairs, created) && id !in created
    ensures ListsPairs(pairs + [(id, sub)], created[id := sub])
  {
    var pairs' := pairs + [(id, sub)];
    assert forall i | 0 <= i < |pairs| :: pairs'[i] == pairs[i];
    assert pairs'[|pairs|].0 == id;
  }

  // ---------- from the loops of a restore to its outcome ----------

  lemma ListsPairsTail(pairs: seq<(RegId, SubId)>, created: map<RegId, SubId>)
    requires ListsPairs(pairs, created) && pairs != []
    ensures pairs[0].0 in created && created[pairs[0].0] == pairs[0].1
    ensures ListsPairs(pairs[1..], created - {pairs[0].0})
  {
    var rest := pairs[1..];
    assert forall i | 0 <= i < |rest| :: rest[i] == pairs[i + 1];
    forall id | id in created && id != pairs[0].0
      ensures exists i :: 0 <= i < |rest| && rest[i].0 == id
    {
      var i :| 0 <= i < |pairs| && pairs[i].0 == id;
      assert rest[i - 1].0 == id;
    }
  }

  /** Unsubscribing what was just created for an id. */
  lemma OpenedClose(before: map<SubId, Wire>, after: map<SubId, Wire>, entries: map<RegId, Record>,
                    created: map<RegId, SubId>, from: SubId, to: SubId, id: RegId)
    requires Opened(before, after, entries, created, from, to) && id in created && Below(before, from)
    ensures Opened(before, after - {created[id]}, entries, created - {id}, from, to)
  {
    NameClose(before, after, created, id);
  }

  lemma NameClose(before: map<SubId, Wire>, after: map<SubId, Wire>, created: map<RegId, SubId>, id: RegId)
    requires NothingElse(before, after, created) && id in created
    ensures NothingElse(before, after - {created[id]}, created - {id})
  {
    forall s | s in after && s != created[id] && s !in before
      ensures Names(created - {id}, s)
    {
      var k :| k in created && created[k] == s;
      assert k in created - {id};
    }
  }

  lemma {:induction false} AbandonClosesAll(before: map<SubId, Wire>, entries: map<RegId, Record>, from: SubId,
                                            st: State,
                                            created: map<RegId, SubId>, pairs: seq<(RegId, SubId)>, why: string)
    requires Opened(before, st.live, entries, created, from, st.nextSub) && Below(before, from)
    requires ListsPairs(pairs, created)
    ensures var st' := AbandonPairs(st, pairs, why);
            Opened(before, st'.live, entries, map[], from, st'.nextSub) && st'.nextSub == st.nextSub
    decreases |pairs|
  {
    if pairs == [] {
      assert created == map[];
    } else {
      var id := pairs[0].0;
      ListsPairsTail(pairs, created);
      OpenedClose(before, st.live, entries, created, from, st.nextSub, id);
      AbandonClosesAll(before, entries, from, AbandonOne(st, id, pairs[0].1, why), created - {id}, pairs[1..], why);
    }
  }

  /** Settling one pair first and the rest afterwards settles them all. */
  lemma SettleOneFirst(entries: map<RegId, Record>, batch: Batch, created: map<RegId, SubId>, id: RegId)
    requires id in created && id in entries
    ensures var rec := if BatchFailure(batch).Some? then Deactivate(entries[id], BatchFailure(batch))
                       else Activate(entries[id], Some(created[id]));
            SettledEntries(entries[id := rec], batch, created - {id}) == SettledEntries(entries, batch, created)
  {
  }

  lemma {:induction false} AbandonSettles(st: State, created: map<RegId, SubId>, pairs: seq<(RegId, SubId)>,
                                          batch: Batch)
    requires BatchFailure(batch).Some? && ListsPairs(pairs, created) && created.Keys <= st.table.entries.Keys
    ensures AbandonPairs(st, pairs, BatchFailure(batch).value).table
         == st.table.(entries := SettledEntries(st.table.entries, batch, created))
    decreases |pairs|
  {
    if pairs == [] {
      assert created == map[];
      assert SettledEntries(st.table.entries, batch, created) == st.table.entries;
    } else {
      var id := pairs[0].0;
      ListsPairsTail(pairs, created);
      SettleOneFirst(st.table.entries, batch, created, id);
      AbandonSettles(AbandonOne(st, id, pairs[0].1, BatchFailure(batch).value), created - {id}, pairs[1..], batch);
    }
  }

  ghost predicate StaleGone(st: State, created: map<RegId, SubId>) {
    forall id | id in created ::
      && id in st.table.entries
      && st.table.entries[id].activeSub != Some(created[id])
      && (st.table.entries[id].activeSub.Some? ==> st.table.entries[id].activeSub.value !in st.live)
  }

  lemma {:induction false} InstallSettles(st: State, created: map<RegId, SubId>, pairs: seq<(RegId, SubId)>,
                                          batch: Batch)
    requires BatchFailure(batch).None? && ListsPairs(pairs, created) && StaleGone(st, created)
    ensures InstallPairs(st, pairs)
            == st.(table := st.table.(entries := SettledEntries(st.table.entries, batch, created)))
    decreases |pairs|
  {
    if pairs == [] {
      assert created == map[];
      assert SettledEntries(st.table.entries, batch, created) == st.table.entries;
    } else {
      var id := pairs[0].0;
      ListsPairsTail(pairs, created);
      SettleOneFirst(st.table.entries, batch, created, id);
      var st1 := InstallOne(st, id, pairs[0].1);
      assert st1.live == st.live;
      assert StaleGone(st1, created - {id});
      InstallSettles(st1, created - {id}, pairs[1..], batch);
    }
  }

  lemma AbandonedIsRestored(st: State, mid: State, out: RegId -> Outcome, batch: Batch, created: map<RegId, SubId>,
                            pairs: seq<(RegId, SubId)>)
    requires Sound(st) && Creating(st, mid, out, created, st.table.entries.Keys)
    requires BatchFailure(batch).Some? && ListsPairs(pairs, created)
    ensures Restored(st, AbandonPairs(mid, pairs, BatchFailure(batch).value), out, batch, created)
  {
    var base := Without(st.live, st.table.entries, st.table.entries.Keys);
    AbandonSettles(mid, created, pairs, batch);
    AbandonClosesAll(base, st.table.entries, st.nextSub, mid, created, pairs, BatchFailure(batch).value);
  }

  /** When the new handle of an entry is installed, the one it displaces has been unsubscribed already. */
  lemma StaleIsGone(st: State, mid: State, out: RegId -> Outcome, created: map<RegId, SubId>)
    requires Sound(st) && Creating(st, mid, out, created, st.table.entries.Keys)
    ensures StaleGone(mid, created)
  {
    forall id | id in created && st.table.entries[id].activeSub.Some?
      ensures st.table.entries[id].activeSub.value !in mid.live
    {
      var s := st.table.entries[id].activeSub.value;
      assert HeldAmong(st.table.entries, st.table.entries.Keys, s);
      assert s < st.nextSub && !Names(created, s);
    }
  }

  lemma InstalledIsRestored(st: State, mid: State, out: RegId -> Outcome, batch: Batch, created: map<RegId, SubId>,
                            pairs: seq<(RegId, SubId)>)
    requires Sound(st) && Creating(st, mid, out, created, st.table.entries.Keys)
    requires BatchFailure(batch).None? && ListsPairs(pairs, created)
    ensures Restored(st, InstallPairs(mid, pairs), out, batch, created)
  {
    StaleIsGone(st, mid, out, created);
    InstallSettles(mid, created, pairs, batch);
  }

  lemma NothingToRestore(st: State, records: seq<Record>, out: RegId -> Outcome, batch: Batch)
    requires Lists(records, st.table.entries) && |records| == 0
    ensures st.table.entries == map[] && Restored(st, st, out, batch, map[])
    ensures RestoreFailures(st.table.entries, out, st.table.entries.Keys) == {}
  {
    AllRecords(records, st.table.entries);
    assert st.table.entries.Keys == {};
    CreatingNothing(st, out);
    NothingCreated(st, st, out, batch, map[]);
  }

  lemma NothingCreated(st: State, st': State, out: RegId -> Outcome, batch: Batch, created: map<RegId, SubId>)
    requires Creating(st, st', out, created, st.table.entries.Keys) && created == map[]
    ensures Restored(st, st', out, batch, created)
  {
    var mid := CreatingEntries(st.table.entries, out, created, st.table.entries.Keys);
    assert SettledEntries(mid, batch, created) == mid;
  }
}

/** Subscription intent and activation state (internal/registry): a table of entries, an index on their
    conflict keys, and the operations on both. */
module Registry {
  import opened Common
  import opened Text
  import opened RegistrationKeys

  type SubId = nat

  /** The value of the counter a registration was given; RegName prints it. */
  type RegId = nat

  datatype AddSpec = AddSpec(kind: string, target: string, action: string, subject: string, queueGroup: string,
                             callback: Option<nat>)

  /** What was registered; it never changes. */
  datatype Intent = Intent(id: RegId, key: string, kind: string, target: string, action: string, subject: string,
                           queueGroup: string, callback: nat)

  /** The value of one entry: the registration and its activation state. */
  datatype Record = Record(intent: Intent, activeSub: Option<SubId>, active: bool, lastErr: string)

  datatype Table = Table(nextId: RegId, entries: map<RegId, Record>, byKey: map<string, RegId>)

  datatype AddError = KindRequired | SubjectRequired | CallbackRequired | Conflict(existing: RegId)

  datatype Handle = Handle(id: RegId, subject: string, sub: SubId)

  // ---------- identifiers ----------

  function Digits(n: nat): string {
    if n < 10 then ["0123456789"[n]] else Digits(n / 10) + ["0123456789"[n % 10]]
  }

  function RegName(id: RegId): string {
    "sub-" + Digits(id)
  }

  lemma {:induction false} DigitsInjective(m: nat, n: nat)
    requires Digits(m) == Digits(n)
    ensures m == n
  {
    DigitsNonEmpty(m / 10);
    DigitsNonEmpty(n / 10);
    var last := Digits(m)[|Digits(m)| - 1];
    assert last == "0123456789"[m % 10] && last == "0123456789"[n % 10];
    if m < 10 || n < 10 {
    } else {
      assert Digits(m / 10) == Digits(m)[..|Digits(m)| - 1];
      assert Digits(n / 10) == Digits(n)[..|Digits(n)| - 1];
      DigitsInjective(m / 10, n / 10);
    }
  }

  lemma DigitsNonEmpty(n: nat)
    ensures Digits(n) != ""
  {
  }

  /** Two counter values never print as the same registration id. */
  lemma RegNameInjective(m: RegId, n: RegId)
    ensures RegName(m) == RegName(n) <==> m == n
  {
    if RegName(m) == RegName(n) {
      assert Digits(m) == RegName(m)[4..] && Digits(n) == RegName(n)[4..];
      DigitsInjective(m, n);
    }
  }

  // ---------- operations on values ----------

  function CheckSpec(spec: AddSpec): Option<AddError> {
    if TrimSpace(spec.kind) == "" then Some(KindRequired)
    else if TrimSpace(spec.subject) == "" then Some(SubjectRequired)
    else if spec.callback.None? then Some(CallbackRequired)
    else None
  }

  function NewIntent(id: RegId, spec: AddSpec): Intent
    requires CheckSpec(spec).None?
  {
    Intent(id, RegistrationKey(spec.kind, spec.subject, spec.queueGroup), spec.kind, spec.target, spec.action,
           spec.subject, spec.queueGroup, spec.callback.value)
  }

  /** A rejected conflict still uses up a counter value. */
  function Insert(t: Table, intent: Intent): (Table, Result<Record, AddError>) {
    if intent.key in t.byKey then (t.(nextId := intent.id), Err(Conflict(t.byKey[intent.key])))
    else
      var rec := Record(intent, None, false, "");
      (Table(intent.id, t.entries[intent.id := rec], t.byKey[intent.key := intent.id]), Ok(rec))
  }

  function AddEntry(t: Table, spec: AddSpec): (Table, Result<Record, AddError>) {
    if CheckSpec(spec).Some? then (t, Err(CheckSpec(spec).value))
    else Insert(t, NewIntent(t.nextId + 1, spec))
  }

  function Activate(rec: Record, sub: Option<SubId>): Record {
    if sub.None? then rec.(activeSub := None, active := false)
    else rec.(activeSub := sub, active := true, lastErr := "")
  }

  function Deactivate(rec: Record, err: Option<string>): Record {
    rec.(activeSub := None, active := false, lastErr := if err.Some? then err.value else rec.lastErr)
  }

  /** The second component is the handle the new one displaces. */
  function SetActive(t: Table, id: RegId, sub: Option<SubId>): (Table, Option<SubId>) {
    if id !in t.entries then (t, None)
    else (t.(entries := t.entries[id := Activate(t.entries[id], sub)]),
          if t.entries[id].activeSub != sub then t.entries[id].activeSub else None)
  }

  function SetInactive(t: Table, id: RegId, err: Option<string>): Table {
    if id !in t.entries then t else t.(entries := t.entries[id := Deactivate(t.entries[id], err)])
  }

  function ClearHandles(t: Table): Table {
    t.(entries := map id | id in t.entries :: Deactivate(t.entries[id], None))
  }

  function RemoveEntry(t: Table, id: RegId): (Table, Option<Record>) {
    if id !in t.entries then (t, None)
    else (t.(entries := t.entries - {id}, byKey := t.byKey - {t.entries[id].intent.key}), Some(t.entries[id]))
  }

  ghost function ActiveIds(entries: map<RegId, Record>): set<RegId> {
    set id | id in entries && entries[id].activeSub.Some? && entries[id].active
  }

  /** The handles the table holds, each with the entry it belongs to. */
  ghost function Held(entries: map<RegId, Record>): set<(RegId, SubId)> {
    set id | id in entries && entries[id].activeSub.Some? :: (id, entries[id].activeSub.value)
  }

  ghost function HandlePairs(hs: seq<Handle>): set<(RegId, SubId)> {
    set i | 0 <= i < |hs| :: (hs[i].id, hs[i].sub)
  }

  // ---------- the index invariant ----------

  /** An entry sits under its own id, which the counter has issued; its key leads back to it; and it is
      active iff it holds a handle. */
  ghost predicate Filed(rec: Record, id: RegId, t: Table) {
    && rec.intent.id == id && 1 <= id <= t.nextId
    && rec.intent.key in t.byKey && t.byKey[rec.intent.key] == id
    && rec.active == rec.activeSub.Some?
  }

  /** Entries and index are inverse to each other. */
  ghost predicate TableInv(t: Table) {
    && (forall id | id in t.entries :: Filed(t.entries[id], id, t))
    && (forall key | key in t.byKey :: t.byKey[key] in t.entries && t.entries[t.byKey[key]].intent.key == key)
  }

  lemma FreshId(t: Table)
    requires TableInv(t)
    ensures t.nextId + 1 !in t.entries
  {
    forall id | id in t.entries
      ensures id != t.nextId + 1
    {
      assert Filed(t.entries[id], id, t);
    }
  }

  lemma InsertKeepsInv(t: Table, intent: Intent)
    requires TableInv(t) && intent.id == t.nextId + 1
    ensures TableInv(Insert(t, intent).0)
  {
    forall id | id in t.entries
      ensures id != intent.id
    {
      assert Filed(t.entries[id], id, t);
    }
  }

  lemma UpdateKeepsInv(t: Table, id: RegId, rec: Record)
    requires TableInv(t) && id in t.entries
    requires rec.intent == t.entries[id].intent && rec.active == rec.activeSub.Some?
    ensures TableInv(t.(entries := t.entries[id := rec]))
  {
    assert Filed(t.entries[id], id, t);
  }

  /** The same registrations, with an entry active iff it holds a handle. */
  ghost predicate SameIntents(entries: map<RegId, Record>, entries': map<RegId, Record>) {
    && entries'.Keys == entries.Keys
    && (forall id | id in entries ::
          entries'[id].intent == entries[id].intent && entries'[id].active == entries'[id].activeSub.Some?)
  }

  lemma ActivationKeepsInv(t: Table, entries': map<RegId, Record>)
    requires TableInv(t) && SameIntents(t.entries, entries')
    ensures TableInv(t.(entries := entries'))
  {
    var t' := t.(entries := entries');
    forall id | id in t'.entries
      ensures Filed(t'.entries[id], id, t')
    {
      assert Filed(t.entries[id], id, t);
    }
  }

  lemma ClearKeepsInv(t: Table)
    requires TableInv(t)
    ensures TableInv(ClearHandles(t))
  {
    var t' := ClearHandles(t);
    forall id | id in t'.entries
      ensures Filed(t'.entries[id], id, t')
    {
      assert Filed(t.entries[id], id, t);
    }
  }

  lemma RemoveKeepsInv(t: Table, id: RegId)
    requires TableInv(t)
    ensures TableInv(RemoveEntry(t, id).0)
  {
    if id in t.entries {
      var t' := RemoveEntry(t, id).0;
      assert Filed(t.entries[id], id, t);
      forall other | other in t'.entries
        ensures Filed(t'.entries[other], other, t')
      {
        assert Filed(t.entries[other], other, t);
      }
    }
  }

  // ---------- the class ----------

  class SubscriptionRegistry {
    var nextId: RegId
    var entries: map<RegId, Record>
    var byKey: map<string, RegId>

    function Contents(): Table
      reads this
    {
      Table(nextId, entries, byKey)
    }

    ghost predicate Valid()
      reads this
    {
      TableInv(Contents())
    }

    constructor ()
      ensures Valid() && Contents() == Table(0, map[], map[])
    {
      nextId, entries, byKey := 0, map[], map[];
    }

    /** Fails for an incomplete specification and for a key in use, and otherwise files what was specified, not
        active, under an id beyond every id issued. */
    method Add(spec: AddSpec) returns (r: Result<Record, AddError>)
      requires Valid()
      modifies this
      ensures Valid() && (Contents(), r) == AddEntry(old(Contents()), spec)
      ensures r == Err(KindRequired) <==> TrimSpace(spec.kind) == ""
      ensures r == Err(SubjectRequired) <==> TrimSpace(spec.kind) != "" && TrimSpace(spec.subject) == ""
      ensures r == Err(CallbackRequired) <==>
                TrimSpace(spec.kind) != "" && TrimSpace(spec.subject) != "" && spec.callback.None?
      ensures var key := RegistrationKey(spec.kind, spec.subject, spec.queueGroup);
              var complete := TrimSpace(spec.kind) != "" && TrimSpace(spec.subject) != "" && spec.callback.Some?;
              && (r.Err? && r.error.Conflict? <==> complete && key in old(byKey))
              && (r.Err? && r.error.Conflict? ==> r.error.existing == old(byKey)[key])
              && nextId == old(nextId) + (if complete then 1 else 0)
      ensures r.Err? ==> entries == old(entries) && byKey == old(byKey)
      ensures r.Ok? ==>
        && r.value == Record(Intent(nextId, RegistrationKey(spec.kind, spec.subject, spec.queueGroup), spec.kind,
                                    spec.target, spec.action, spec.subject, spec.queueGroup, spec.callback.value),
                             None, false, "")
        && entries == old(entries)[nextId := r.value] && byKey == old(byKey)[r.value.intent.key := nextId]
    {
      var bad := CheckSpec(spec);
      if bad.Some? {
        return Err(bad.value);
      }
      var intent := NewIntent(nextId + 1, spec);
      InsertKeepsInv(Contents(), intent);
      nextId := nextId + 1;
      if intent.key in byKey {
        return Err(Conflict(byKey[intent.key]));
      }
      var rec := Record(intent, None, false, "");
      entries := entries[nextId := rec];
      byKey := byKey[intent.key := nextId];
      return Ok(rec);
    }

    /** Puts the handle into that entry and into no other, and hands back the different one it finds there. */
    method MarkActive(id: RegId, sub: Option<SubId>) returns (stale: Option<SubId>)
      requires Valid()
      modifies this
      ensures Valid() && (Contents(), stale) == SetActive(old(Contents()), id, sub)
      ensures nextId == old(nextId) && byKey == old(byKey) && entries.Keys == old(entries).Keys
      ensures forall k | k in entries && k != id :: entries[k] == old(entries)[k]
      ensures id !in entries ==> stale.None?
      ensures id in entries ==>
        && entries[id].intent == old(entries)[id].intent
        && entries[id].activeSub == sub && entries[id].active == sub.Some?
        && entries[id].lastErr == (if sub.Some? then "" else old(entries)[id].lastErr)
        && stale == if old(entries)[id].activeSub == sub then None else old(entries)[id].activeSub
    {
      stale := None;
      if id !in entries {
        return;
      }
      UpdateKeepsInv(Contents(), id, Activate(entries[id], sub));
      var e := entries[id];
      if sub.None? {
        stale := e.activeSub;
        entries := entries[id := e.(activeSub := None, active := false)];
        return;
      }
      if e.activeSub.Some? && e.activeSub != sub {
        stale := e.activeSub;
      }
      entries := entries[id := e.(activeSub := sub, active := true, lastErr := "")];
    }

    /** Drops the handle of that entry and of no other, and notes the error, if there is one. */
    method MarkInactive(id: RegId, err: Option<string>)
      requires Valid()
      modifies this
      ensures Valid() && Contents() == SetInactive(old(Contents()), id, err)
      ensures nextId == old(nextId) && byKey == old(byKey) && entries.Keys == old(entries).Keys
      ensures forall k | k in entries && k != id :: entries[k] == old(entries)[k]
      ensures id in entries ==>
        && entries[id].intent == old(entries)[id].intent && entries[id].activeSub.None? && !entries[id].active
        && entries[id].lastErr == if err.Some? then err.value else old(entries)[id].lastErr
    {
      if id !in entries {
        return;
      }
      UpdateKeepsInv(Contents(), id, Deactivate(entries[id], err));
      var e := entries[id].(activeSub := None, active := false);
      if err.Some? {
        e := e.(lastErr := err.value);
      }
      entries := entries[id := e];
    }

    /** Takes out that entry with its index entry, and no other, and returns it. */
    method Remove(id: RegId) returns (r: Option<Record>)
      requires Valid()
      modifies this
      ensures Valid() && (Contents(), r) == RemoveEntry(old(Contents()), id)
      ensures nextId == old(nextId) && entries == old(entries) - {id}
      ensures r == if id in old(entries) then Some(old(entries)[id]) else None
      ensures forall key :: key in byKey <==> key in old(byKey) && old(byKey)[key] != id
      ensures forall key | key in byKey :: byKey[key] == old(byKey)[key]
    {
      RemoveKeepsInv(Contents(), id);
      if id !in entries {
        return None;
      }
      var e := entries[id];
      entries := entries - {id};
      byKey := byKey - {e.intent.key};
      return Some(e);
    }

    method Get(id: RegId) returns (r: Option<Record>)
      ensures r == if id in entries then Some(entries[id]) else None
    {
      if id !in entries {
        return None;
      }
      return Some(entries[id]);
    }

    /** Detaches every handle and hands all of them to the caller, each once. */
    method ClearActiveHandles() returns (out: seq<Handle>)
      requires Valid()
      modifies this
      ensures Valid() && Contents() == ClearHandles(old(Contents()))
      ensures nextId == old(nextId) && byKey == old(byKey) && entries.Keys == old(entries).Keys
      ensures forall id | id in entries :: entries[id] == old(entries)[id].(activeSub := None, active := false)
      ensures HandlePairs(out) == Held(old(entries))
      ensures forall i, j | 0 <= i < j < |out| :: out[i].id != out[j].id
    {
      ClearKeepsInv(Contents());
      ghost var before := entries;
      assert ClearedSome(before, {}) == before;
      out := [];
      var todo := entries.Keys;
      ghost var done: set<RegId> := {};
      while todo != {}
        invariant byKey == old(byKey) && nextId == old(nextId) && entries == ClearedSome(before, done)
        invariant todo !! done && todo + done == before.Keys
        invariant Collected(out, before, done)
        decreases todo
      {
        var id :| id in todo;
        var e := entries[id];
        assert Filed(before[id], id, old(Contents()));
        ClearStep(before, done, id);
        todo := todo - {id};
        if e.activeSub.None? {
          CollectNothing(out, before, done, id);
          entries := entries[id := e.(active := false)];
        } else {
          var handle := Handle(e.intent.id, e.intent.subject, e.activeSub.value);
          CollectOne(out, before, done, id, handle);
          out := out + [handle];
          entries := entries[id := e.(activeSub := None, active := false)];
        }
        done := done + {id};
      }
      CollectedAll(out, before, done);
      assert entries == ClearHandles(old(Contents())).entries;
    }

    /** One record per entry, in whatever order the table is walked. */
    method ListActivations() returns (out: seq<Record>)
      requires Valid()
      ensures Lists(out, entries)
    {
      out := [];
      var todo := entries.Keys;
      ghost var done: set<RegId> := {};
      while todo != {}
        invariant todo !! done && todo + done == entries.Keys
        invariant ListsOf(out, entries, done)
        decreases todo
      {
        var id :| id in todo;
        todo := todo - {id};
        assert Filed(entries[id], id, Contents());
        ListOne(out, entries, done, id);
        out := out + [entries[id]];
        done := done + {id};
      }
      assert done == entries.Keys;
    }

    method Counts() returns (registered: nat, active: nat)
      ensures registered == |entries| && active == |ActiveIds(entries)|
      ensures active == |set id | id in entries && entries[id].activeSub.Some? && entries[id].active|
    {
      registered := |entries|;
      active := 0;
      var todo := entries.Keys;
      ghost var all := ActiveIds(entries);
      while todo != {}
        invariant todo <= entries.Keys
        invariant active == |all - todo|
        decreases todo
      {
        var id :| id in todo;
        ghost var counted := all - todo;
        todo := todo - {id};
        if entries[id].activeSub.Some? && entries[id].active {
          assert all - todo == counted + {id};
          active := active + 1;
        } else {
          assert all - todo == counted;
        }
      }
      assert all - {} == all;
      ActiveIdsAre(entries);
    }
  }

  // ---------- what the walks collect ----------

  lemma ActiveIdsAre(entries: map<RegId, Record>)
    ensures ActiveIds(entries) == set id | id in entries && entries[id].activeSub.Some? && entries[id].active
  {
  }

  /** The entries after the ones in done were cleared. */
  ghost function ClearedSome(entries: map<RegId, Record>, done: set<RegId>): map<RegId, Record> {
    map id | id in entries :: if id in done then Deactivate(entries[id], None) else entries[id]
  }

  lemma ClearStep(entries: map<RegId, Record>, done: set<RegId>, id: RegId)
    requires id in entries && id !in done
    ensures ClearedSome(entries, done)[id] == entries[id]
    ensures ClearedSome(entries, done + {id})
         == ClearedSome(entries, done)[id := entries[id].(activeSub := None, active := false)]
    ensures entries[id].activeSub.None? ==>
              ClearedSome(entries, done + {id}) == ClearedSome(entries, done)[id := entries[id].(active := false)]
  {
  }

  /** The handles found so far: exactly those of the entries visited, one per entry. */
  ghost predicate Collected(out: seq<Handle>, entries: map<RegId, Record>, done: set<RegId>) {
    && (forall i | 0 <= i < |out| ::
          out[i].id in done && out[i].id in entries && entries[out[i].id].activeSub == Some(out[i].sub))
    && (forall id | id in done && id in entries && entries[id].activeSub.Some? ::
          exists i :: 0 <= i < |out| && out[i].id == id)
    && (forall i, j | 0 <= i < j < |out| :: out[i].id != out[j].id)
  }

  lemma CollectNothing(out: seq<Handle>, entries: map<RegId, Record>, done: set<RegId>, id: RegId)
    requires Collected(out, entries, done) && id in entries && entries[id].activeSub.None?
    ensures Collected(out, entries, done + {id})
  {
  }

  lemma CollectOne(out: seq<Handle>, entries: map<RegId, Record>, done: set<RegId>, id: RegId, h: Handle)
    requires Collected(out, entries, done) && id in entries && id !in done
    requires h.id == id && entries[id].activeSub == Some(h.sub)
    ensures Collected(out + [h], entries, done + {id})
  {
    var out' := out + [h];
    assert forall i | 0 <= i < |out| :: out'[i] == out[i];
    assert out'[|out|].id == id;
  }

  lemma CollectedAll(out: seq<Handle>, entries: map<RegId, Record>, done: set<RegId>)
    requires Collected(out, entries, done) && done == entries.Keys
    ensures HandlePairs(out) == Held(entries)
  {
    forall id | id in entries && entries[id].activeSub.Some?
      ensures (id, entries[id].activeSub.value) in HandlePairs(out)
    {
      var i :| 0 <= i < |out| && out[i].id == id;
      assert (out[i].id, out[i].sub) in HandlePairs(out);
    }
  }

  ghost predicate ListsOf(out: seq<Record>, entries: map<RegId, Record>, done: set<RegId>) {
    && (forall i | 0 <= i < |out| ::
          out[i].intent.id in done && out[i].intent.id in entries && out[i] == entries[out[i].intent.id])
    && (forall id | id in done :: exists i :: 0 <= i < |out| && out[i].intent.id == id)
    && (forall i, j | 0 <= i < j < |out| :: out[i].intent.id != out[j].intent.id)
  }

  /** The records of all entries, each once. */
  ghost predicate Lists(out: seq<Record>, entries: map<RegId, Record>) {
    ListsOf(out, entries, entries.Keys)
  }

  lemma ListOne(out: seq<Record>, entries: map<RegId, Record>, done: set<RegId>, id: RegId)
    requires ListsOf(out, entries, done) && id in entries && id !in done && entries[id].intent.id == id
    ensures ListsOf(out + [entries[id]], entries, done + {id})
  {
    var out' := out + [entries[id]];
    assert forall i | 0 <= i < |out| :: out'[i] == out[i];
    assert out'[|out|].intent.id == id;
  }
}

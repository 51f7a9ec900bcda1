/** What any sequence of registry operations keeps. */
module RegistryRuns {
  import opened Common
  import opened RegistrationKeys
  import opened Registry

  datatype Op = Add(spec: AddSpec) | MarkActive(id: RegId, sub: Option<SubId>)
      | MarkInactive(id: RegId, err: Option<string>)
              | ClearActiveHandles | Remove(id: RegId)

  function Apply(t: Table, op: Op): Table {
    match op
    case Add(spec) => AddEntry(t, spec).0
    case MarkActive(id, sub) => SetActive(t, id, sub).0
    case MarkInactive(id, err) => SetInactive(t, id, err)
    case ClearActiveHandles => ClearHandles(t)
    case Remove(id) => RemoveEntry(t, id).0
  }

  function ApplyAll(t: Table, ops: seq<Op>): Table
    decreases |ops|
  {
    if ops == [] then t else ApplyAll(Apply(t, ops[0]), ops[1..])
  }

  const EMPTY := Table(0, map[], map[])

  ghost predicate Keyed(t: Table) {
    forall id | id in t.entries ::
      var i := t.entries[id].intent; i.key == RegistrationKey(i.kind, i.subject, i.queueGroup)
  }

  lemma OpKeepsKeys(t: Table, op: Op)
    requires Keyed(t)
    ensures Keyed(Apply(t, op))
  {
  }

  lemma OpKeepsIndex(t: Table, op: Op)
    requires TableInv(t)
    ensures TableInv(Apply(t, op))
  {
    match op {
      case Add(spec) =>
        if CheckSpec(spec).None? {
          InsertKeepsInv(t, NewIntent(t.nextId + 1, spec));
        }
      case MarkActive(id, sub) =>
        if id in t.entries {
          UpdateKeepsInv(t, id, Activate(t.entries[id], sub));
        }
      case MarkInactive(id, err) =>
        if id in t.entries {
          UpdateKeepsInv(t, id, Deactivate(t.entries[id], err));
        }
      case ClearActiveHandles => ClearKeepsInv(t);
      case Remove(id) => RemoveKeepsInv(t, id);
    }
  }

  lemma OpKeepsInv(t: Table, op: Op)
    requires TableInv(t) && Keyed(t)
    ensures TableInv(Apply(t, op)) && Keyed(Apply(t, op))
  {
    OpKeepsKeys(t, op);
    OpKeepsIndex(t, op);
  }

  /** Only new ids enter the table, each beyond every id issued before. */
  lemma OnlyNewIdsEnter(t: Table, op: Op, id: RegId)
    requires id in Apply(t, op).entries && id !in t.entries
    ensures id > t.nextId
  {
  }

  lemma {:induction false} RunKeepsInv(t: Table, ops: seq<Op>)
    requires TableInv(t) && Keyed(t)
    ensures TableInv(ApplyAll(t, ops)) && Keyed(ApplyAll(t, ops))
    decreases |ops|
  {
    if ops == [] {
    } else {
      OpKeepsInv(t, ops[0]);
      RunKeepsInv(Apply(t, ops[0]), ops[1..]);
    }
  }

  /** After any sequence of operations the index finds each entry under its recomputed key and nothing
      else, no two entries share a key, and an entry is active iff it holds a handle. */
  lemma IndexIsExact(ops: seq<Op>, id: RegId, key: string)
    ensures var t := ApplyAll(EMPTY, ops);
            && (key in t.byKey && t.byKey[key] == id <==>
                 id in t.entries &&
                 RegistrationKey(t.entries[id].intent.kind, t.entries[id].intent.subject,
                     t.entries[id].intent.queueGroup) == key)
            && (key in t.byKey ==> t.byKey[key] in t.entries)
            && (id in t.entries ==> t.entries[id].active == t.entries[id].activeSub.Some?)
  {
    RunKeepsInv(EMPTY, ops);
    var t := ApplyAll(EMPTY, ops);
    if id in t.entries {
      assert Filed(t.entries[id], id, t);
    }
  }

  // ---------- ids ----------

  lemma {:induction false} GoneStaysGone(t: Table, ops: seq<Op>, id: RegId)
    requires TableInv(t) && Keyed(t) && id <= t.nextId && id !in t.entries
    ensures id !in ApplyAll(t, ops).entries
    decreases |ops|
  {
    if ops == [] {
    } else {
      var t' := Apply(t, ops[0]);
      OpKeepsInv(t, ops[0]);
      if id in t'.entries {
        OnlyNewIdsEnter(t, ops[0], id);
      }
      CounterGrows(t, [ops[0]]);
      GoneStaysGone(Apply(t, ops[0]), ops[1..], id);
    }
  }

  /** An id that was in the table and has left it never comes back: ids are not reused, although a
      rejected conflict and a removal both leave gaps. */
  lemma IdsAreNeverReused(before: seq<Op>, between: seq<Op>, after: seq<Op>, id: RegId)
    requires id in ApplyAll(EMPTY, before).entries
    requires id !in ApplyAll(ApplyAll(EMPTY, before), between).entries
    ensures id !in ApplyAll(ApplyAll(ApplyAll(EMPTY, before), between), after).entries
  {
    var t := ApplyAll(EMPTY, before);
    RunKeepsInv(EMPTY, before);
    RunKeepsInv(t, between);
    assert Filed(t.entries[id], id, t);
    CounterGrows(t, between);
    GoneStaysGone(ApplyAll(t, between), after, id);
  }

  lemma {:induction false} CounterGrows(t: Table, ops: seq<Op>)
    ensures t.nextId <= ApplyAll(t, ops).nextId
    decreases |ops|
  {
    if ops == [] {
    } else {
      CounterGrows(Apply(t, ops[0]), ops[1..]);
    }
  }

  // ---------- handles ----------

  /** The operation hands the pair back to its caller, or is the one that drops it. What ClearActiveHandles
      returns is the pairs held before. */
  ghost predicate LeavesBy(t: Table, op: Op, id: RegId, sub: SubId) {
    match op
    case MarkActive(i, s) => i == id && SetActive(t, id, s).1 == Some(sub)
    case MarkInactive(i, _) => i == id
    case ClearActiveHandles => (id, sub) in Held(t.entries)
    case Remove(i) => i == id && RemoveEntry(t, id).1.Some? && RemoveEntry(t, id).1.value.activeSub == Some(sub)
    case Add(_) => false
  }

  /** Handles are conserved: a handle enters an entry only by MarkActive for that entry, and leaves it
      only as the value returned by MarkActive, ClearActiveHandles or Remove, or by MarkInactive. */
  lemma HandleFlow(t: Table, op: Op, id: RegId, sub: SubId)
    requires TableInv(t)
    ensures (id, sub) in Held(t.entries) && (id, sub) !in Held(Apply(t, op).entries) ==> LeavesBy(t, op, id, sub)
    ensures (id, sub) !in Held(t.entries) && (id, sub) in Held(Apply(t, op).entries) ==> op == MarkActive(id, Some(sub))
  {
    var t' := Apply(t, op);
    HeldPair(t.entries, id, sub);
    HeldPair(t'.entries, id, sub);
    if op.Add? && CheckSpec(op.spec).None? {
      FreshId(t);
    }
  }

  lemma HeldPair(entries: map<RegId, Record>, id: RegId, sub: SubId)
    ensures (id, sub) in Held(entries) <==> id in entries && entries[id].activeSub == Some(sub)
  {
  }
}

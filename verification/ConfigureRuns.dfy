/** Many submitters storing and notifying at once: one latest-value slot per target, and a bus that only
    says that something changed (agentcore/client.go, internal/kv/store.go). */
module ConfigureRuns {
  import opened Common
  import opened Text
  import opened Records
  import opened Configure

  /** What the bucket and the bus see, in one order. A notification carries the position of the put that
      its submitter made. */
  datatype Act =
    | DidPut(record: Record, key: string, revision: nat)
    | DidNotify(body: Notification, put: nat)
    | DidDelete(key: string, revision: nat)
    | DidExpire(key: string)

  /** waiting holds the submitters between their put and the end of their call, with the position of the
      put and of the notification they are about to send. */
  datatype Sys = Sys(kv: Kv, revision: nat, trace: seq<Act>, waiting: map<nat, nat>)

  const INITIAL := Sys(map[], 0, [], map[])

  /** A submitter is named by a number of its own. heard tells whether the put's answer reached it. */
  datatype Event =
    | Puts(who: nat, record: Record, heard: bool)
    | Notifies(who: nat, now: Time)
    | GivesUp(who: nat)
    | Deletes(key: string)
    | Expires(key: string)

  ghost predicate Possible(cfg: Config, s: Sys, e: Event) {
    match e
    case Puts(who, rec, _) => who !in s.waiting && StoreProblem(cfg, rec, true).None?
    case Notifies(who, _) => who in s.waiting && s.waiting[who] < |s.trace| && s.trace[s.waiting[who]].DidPut?
    case GivesUp(who) => who in s.waiting
    case Deletes(_) => true
    case Expires(key) => key in s.kv
  }

  ghost function Next(cfg: Config, s: Sys, e: Event): Sys
    requires Accepted(cfg) && Possible(cfg, s, e)
  {
    match e
    case Puts(who, rec, heard) =>
      var key, revision := KeyOf(cfg, rec.target), s.revision + 1;
      Sys(s.kv[key := EntryFor(cfg, rec, revision)], revision, s.trace + [DidPut(rec, key, revision)],
          if heard then s.waiting[who := |s.trace|] else s.waiting)
    case Notifies(who, now) =>
      var put := s.waiting[who];
      s.(trace := s.trace + [DidNotify(NotificationFor(cfg, s.trace[put].record, now), put)],
         waiting := s.waiting - {who})
    case GivesUp(who) =>
      s.(waiting := s.waiting - {who})
    case Deletes(key) =>
      s.(kv := s.kv[key := Tombstone(s.revision + 1)], revision := s.revision + 1,
         trace := s.trace + [DidDelete(key, s.revision + 1)])
    case Expires(key) =>
      s.(kv := s.kv - {key}, trace := s.trace + [DidExpire(key)])
  }

  ghost predicate Steps(cfg: Config, s: Sys, e: Event, t: Sys)
    requires Accepted(cfg)
  {
    Possible(cfg, s, e) && t == Next(cfg, s, e)
  }

  /** A run: the states it goes through, the first being the initial one. */
  ghost predicate Execution(cfg: Config, states: seq<Sys>, events: seq<Event>)
    requires Accepted(cfg)
  {
    && |states| == |events| + 1 && states[0] == INITIAL
    && forall i | 0 <= i < |events| :: Steps(cfg, states[i], events[i], states[i + 1])
  }

  // ---------- the invariant ----------

  /** The act wrote the key. */
  predicate Writes(a: Act, key: string) {
    !a.DidNotify? && a.key == key
  }

  /** The act takes the value under the key away: a deletion, or the end of its time to live. */
  predicate Removes(a: Act, key: string) {
    (a.DidDelete? || a.DidExpire?) && a.key == key
  }

  predicate HasRevision(a: Act) {
    a.DidPut? || a.DidDelete?
  }

  /** What a write leaves under its key. */
  function Left(cfg: Config, a: Act): Option<Entry>
    requires a.DidPut? ==> cfg.json.marshal(a.record).Some?
  {
    match a
    case DidPut(rec, _, revision) => Some(EntryFor(cfg, rec, revision))
    case DidDelete(_, revision) => Some(Tombstone(revision))
    case _ => None
  }

  ghost predicate PutsFit(cfg: Config, trace: seq<Act>)
    requires Accepted(cfg)
  {
    forall i | 0 <= i < |trace| && trace[i].DidPut? ::
      StoreProblem(cfg, trace[i].record, true).None? && trace[i].key == KeyOf(cfg, trace[i].record.target)
  }

  /** The position of the last write to a key, or -1. */
  function LastWrite(trace: seq<Act>, key: string): int
    ensures -1 <= LastWrite(trace, key) < |trace|
  {
    if trace == [] then -1
    else if Writes(trace[|trace| - 1], key) then |trace| - 1
    else LastWrite(trace[..|trace| - 1], key)
  }

  ghost predicate ReplaysAt(cfg: Config, s: Sys, key: string)
    requires Accepted(cfg) && PutsFit(cfg, s.trace)
  {
    Slot(s.kv, key) == if LastWrite(s.trace, key) >= 0 then Left(cfg, s.trace[LastWrite(s.trace, key)]) else None
  }

  /** The bucket holds what the last write to each key left. */
  ghost predicate Replays(cfg: Config, s: Sys)
    requires Accepted(cfg) && PutsFit(cfg, s.trace)
  {
    forall key: string :: ReplaysAt(cfg, s, key)
  }

  /** Revisions grow along the trace and never pass the counter. */
  ghost predicate RevisionsGrow(trace: seq<Act>, revision: nat) {
    && (forall i | 0 <= i < |trace| && HasRevision(trace[i]) :: trace[i].revision <= revision)
    && (forall i, j | 0 <= i < j < |trace| && HasRevision(trace[i]) && HasRevision(trace[j]) ::
          trace[i].revision < trace[j].revision)
  }

  ghost predicate AnnouncesPut(cfg: Config, trace: seq<Act>, i: nat)
    requires Accepted(cfg) && i < |trace| && trace[i].DidNotify?
  {
    && trace[i].put < i && trace[trace[i].put].DidPut?
    && trace[i].body == NotificationFor(cfg, trace[trace[i].put].record, trace[i].body.timestamp)
    && trace[i].body.key == trace[trace[i].put].key
  }

  ghost predicate NotificationsFit(cfg: Config, trace: seq<Act>)
    requires Accepted(cfg)
  {
    && (forall i | 0 <= i < |trace| && trace[i].DidNotify? :: AnnouncesPut(cfg, trace, i))
    && (forall i, j | 0 <= i < j < |trace| && trace[i].DidNotify? && trace[j].DidNotify? ::
          trace[i].put != trace[j].put)
  }

  /** A waiting submitter's put is in the trace, its own, and not yet announced. */
  ghost predicate WaitOnPuts(waiting: map<nat, nat>, trace: seq<Act>) {
    forall who | who in waiting :: waiting[who] < |trace| && trace[waiting[who]].DidPut?
  }

  ghost predicate WaitForOwn(waiting: map<nat, nat>) {
    forall who, other | who in waiting && other in waiting && who != other :: waiting[who] != waiting[other]
  }

  ghost predicate WaitUnannounced(waiting: map<nat, nat>, trace: seq<Act>) {
    forall who, i | who in waiting && 0 <= i < |trace| && trace[i].DidNotify? :: trace[i].put != waiting[who]
  }

  ghost predicate WaitingFits(s: Sys) {
    WaitOnPuts(s.waiting, s.trace) && WaitForOwn(s.waiting) && WaitUnannounced(s.waiting, s.trace)
  }

  ghost predicate Inv(cfg: Config, s: Sys)
    requires Accepted(cfg)
  {
    PutsFit(cfg, s.trace) && Replays(cfg, s) && RevisionsGrow(s.trace, s.revision) && NotificationsFit(cfg, s.trace)
        && WaitingFits(s)
  }

  lemma LastWriteStep(trace: seq<Act>, a: Act, key: string)
    ensures LastWrite(trace + [a], key) == if Writes(a, key) then |trace| else LastWrite(trace, key)
  {
    assert (trace + [a])[..|trace|] == trace;
  }

  lemma KeepsPutsFit(cfg: Config, s: Sys, e: Event)
    requires Accepted(cfg) && PutsFit(cfg, s.trace) && Possible(cfg, s, e)
    ensures PutsFit(cfg, Next(cfg, s, e).trace)
  {
  }

  /** One more act on the trace, and its write on the bucket. */
  lemma ReplayStep(cfg: Config, s: Sys, t: Sys, a: Act, key: string)
    requires Accepted(cfg) && PutsFit(cfg, s.trace) && PutsFit(cfg, t.trace) && ReplaysAt(cfg, s, key)
    requires t.trace == s.trace + [a] && (a.DidPut? ==> cfg.json.marshal(a.record).Some?)
    requires t.kv == match a {
      case DidNotify(_, _) => s.kv
      case DidExpire(gone) => s.kv - {gone}
      case _ => s.kv[a.key := Left(cfg, a).value]
    }
    ensures ReplaysAt(cfg, t, key)
  {
    LastWriteStep(s.trace, a, key);
  }

  lemma KeepsReplaysAt(cfg: Config, s: Sys, e: Event, key: string)
    requires Accepted(cfg) && PutsFit(cfg, s.trace) && ReplaysAt(cfg, s, key) && Possible(cfg, s, e)
    requires PutsFit(cfg, Next(cfg, s, e).trace)
    ensures ReplaysAt(cfg, Next(cfg, s, e), key)
  {
    if !e.GivesUp? {
      var t := Next(cfg, s, e);
      ReplayStep(cfg, s, t, t.trace[|s.trace|], key);
    }
  }

  lemma KeepsReplays(cfg: Config, s: Sys, e: Event)
    requires Accepted(cfg) && PutsFit(cfg, s.trace) && Replays(cfg, s) && Possible(cfg, s, e)
    ensures PutsFit(cfg, Next(cfg, s, e).trace) && Replays(cfg, Next(cfg, s, e))
  {
    KeepsPutsFit(cfg, s, e);
    forall key: string
      ensures ReplaysAt(cfg, Next(cfg, s, e), key)
    {
      KeepsReplaysAt(cfg, s, e, key);
    }
  }

  lemma KeepsRevisions(cfg: Config, s: Sys, e: Event)
    requires Accepted(cfg) && RevisionsGrow(s.trace, s.revision) && Possible(cfg, s, e)
    ensures RevisionsGrow(Next(cfg, s, e).trace, Next(cfg, s, e).revision)
  {
  }

  lemma KeepsNotifications(cfg: Config, s: Sys, e: Event)
    requires Accepted(cfg) && PutsFit(cfg, s.trace) && NotificationsFit(cfg, s.trace) && WaitingFits(s)
    requires Possible(cfg, s, e)
    ensures NotificationsFit(cfg, Next(cfg, s, e).trace)
  {
    var t := Next(cfg, s, e);
    forall i | 0 <= i < |t.trace| && t.trace[i].DidNotify?
      ensures AnnouncesPut(cfg, t.trace, i)
    {
      if i < |s.trace| {
        assert AnnouncesPut(cfg, s.trace, i);
      }
    }
  }

  lemma KeepsWaitOnPuts(cfg: Config, s: Sys, e: Event)
    requires Accepted(cfg) && WaitOnPuts(s.waiting, s.trace) && WaitForOwn(s.waiting) && Possible(cfg, s, e)
    ensures WaitOnPuts(Next(cfg, s, e).waiting, Next(cfg, s, e).trace) && WaitForOwn(Next(cfg, s, e).waiting)
  {
  }

  lemma KeepsWaiting(cfg: Config, s: Sys, e: Event)
    requires Accepted(cfg) && NotificationsFit(cfg, s.trace) && WaitingFits(s) && Possible(cfg, s, e)
    ensures WaitingFits(Next(cfg, s, e))
  {
    KeepsWaitOnPuts(cfg, s, e);
    var t := Next(cfg, s, e);
    forall who, i | who in t.waiting && 0 <= i < |t.trace| && t.trace[i].DidNotify?
      ensures t.trace[i].put != t.waiting[who]
    {
      if i < |s.trace| {
        assert AnnouncesPut(cfg, s.trace, i);
      }
    }
  }

  lemma {:induction false} InvAlways(cfg: Config, states: seq<Sys>, events: seq<Event>, i: nat)
    requires Accepted(cfg) && Execution(cfg, states, events) && i < |states|
    ensures Inv(cfg, states[i])
  {
    if i == 0 {
    } else {
      var s, e := states[i - 1], events[i - 1];
      InvAlways(cfg, states, events, i - 1);
      assert Steps(cfg, s, e, states[i]);
      KeepsReplays(cfg, s, e);
      KeepsRevisions(cfg, s, e);
      KeepsNotifications(cfg, s, e);
      KeepsWaiting(cfg, s, e);
    }
  }

  // ---------- what holds in every run ----------

  /** A load of a target, made in a state of the run. */
  ghost function Load(cfg: Config, s: Sys, target: string): Result<(Record, nat), LoadError>
    requires Accepted(cfg)
  {
    LoadKey(cfg, s.kv, KeyOf(cfg, target))
  }

  /** Every notification follows a put of its own, of the same command, under the very key it names: the key
      pattern's text around its target, in the configured bucket. */
  lemma NotificationsFollowTheirPut(cfg: Config, states: seq<Sys>, events: seq<Event>, n: nat, i: nat, j: nat)
    requires Accepted(cfg) && Execution(cfg, states, events) && n < |states|
    requires i < |states[n].trace| && states[n].trace[i].DidNotify?
    requires j < |states[n].trace| && states[n].trace[j].DidNotify?
    ensures var trace := states[n].trace;
            var put := trace[i].put;
            && put < i && trace[put].DidPut?
            && trace[put].record.uuid == trace[i].body.uuid && trace[put].record.target == trace[i].body.target
            && trace[put].record.rpcId == trace[i].body.rpcId && trace[put].record.version == trace[i].body.version
            && trace[put].key == trace[i].body.key && IsKeyText(cfg, trace[i].body.key, trace[i].body.target)
            && trace[i].body.bucket == cfg.bucket
            && (trace[j].put == put ==> i == j)
  {
    InvAlways(cfg, states, events, n);
    assert AnnouncesPut(cfg, states[n].trace, i);
    KeyTextOf(cfg, states[n].trace[i].body.target);
  }

  /** Nobody is about to announce the act at the position, and nobody has. */
  ghost predicate Unannounced(s: Sys, p: nat) {
    && p < |s.trace|
    && (forall who | who in s.waiting :: s.waiting[who] != p)
    && (forall i | 0 <= i < |s.trace| && s.trace[i].DidNotify? :: s.trace[i].put != p)
  }

  lemma StaysUnannounced(cfg: Config, s: Sys, e: Event, p: nat)
    requires Accepted(cfg) && Unannounced(s, p) && Possible(cfg, s, e)
    ensures Unannounced(Next(cfg, s, e), p)
  {
  }

  lemma UnheardIsUnannounced(cfg: Config, s: Sys, e: Event)
    requires Accepted(cfg) && Inv(cfg, s) && Possible(cfg, s, e) && e.Puts? && !e.heard
    ensures Unannounced(Next(cfg, s, e), |s.trace|)
  {
    forall i | 0 <= i < |s.trace| && s.trace[i].DidNotify?
      ensures s.trace[i].put != |s.trace|
    {
      assert AnnouncesPut(cfg, s.trace, i);
    }
  }

  /** A put whose answer is lost on the way is in the bucket, but is never announced. */
  lemma {:induction false} UnheardPutsStaySilent(cfg: Config, states: seq<Sys>, events: seq<Event>, k: nat, n: nat)
    requires Accepted(cfg) && Execution(cfg, states, events) && k < n < |states|
    requires events[k].Puts? && !events[k].heard
    ensures Unannounced(states[n], |states[k].trace|)
    decreases n
  {
    assert Steps(cfg, states[n - 1], events[n - 1], states[n]);
    if n == k + 1 {
      InvAlways(cfg, states, events, k);
      UnheardIsUnannounced(cfg, states[k], events[k]);
    } else {
      UnheardPutsStaySilent(cfg, states, events, k, n - 1);
      StaysUnannounced(cfg, states[n - 1], events[n - 1], |states[k].trace|);
    }
  }

  lemma {:induction false} LastWriteIsLast(trace: seq<Act>, key: string, i: nat)
    requires i < |trace| && Writes(trace[i], key)
    ensures i <= LastWrite(trace, key) && Writes(trace[LastWrite(trace, key)], key)
  {
    if Writes(trace[|trace| - 1], key) {
    } else {
      LastWriteIsLast(trace[..|trace| - 1], key, i);
    }
  }

  ghost predicate GoneAfter(trace: seq<Act>, i: nat, key: string) {
    exists j :: i < j < |trace| && Removes(trace[j], key)
  }

  lemma LaterWrite(trace: seq<Act>, revision: nat, i: nat)
    requires RevisionsGrow(trace, revision) && i < |trace| && trace[i].DidPut?
    ensures var last := LastWrite(trace, trace[i].key);
            && i <= last && Writes(trace[last], trace[i].key)
            && (HasRevision(trace[last]) ==> trace[i].revision <= trace[last].revision)
            && (Removes(trace[last], trace[i].key) ==> GoneAfter(trace, i, trace[i].key))
  {
    LastWriteIsLast(trace, trace[i].key, i);
  }

  /** What a load finds, said without decoding: a tombstone or nothing is not found, a value is. */
  lemma LoadOfEntry(cfg: Config, s: Sys, key: string, last: nat)
    requires Accepted(cfg) && PutsFit(cfg, s.trace) && RoundTrips(cfg.json) && ReplaysAt(cfg, s, key)
    requires last < |s.trace| && last == LastWrite(s.trace, key) && Writes(s.trace[last], key)
    ensures var loaded := LoadKey(cfg, s.kv, key);
            && loaded.Ok? == s.trace[last].DidPut?
            && (loaded.Ok? ==> loaded.value.1 == s.trace[last].revision)
            && (loaded.Err? ==> loaded.error == NotFound)
  {
    if s.trace[last].DidPut? {
      StoredDecodes(cfg, s.trace[last].record);
    }
  }

  /** Whoever loads after a put, so in particular after its notification, gets a revision at least as new,
      or finds nothing because the key was deleted, or its value expired, after the put. */
  lemma LoadsAreAtLeastAsNew(cfg: Config, states: seq<Sys>, events: seq<Event>, n: nat, i: nat)
    requires Accepted(cfg) && Execution(cfg, states, events) && n < |states| && RoundTrips(cfg.json)
    requires i < |states[n].trace| && states[n].trace[i].DidPut?
    ensures var s := states[n];
            var loaded := Load(cfg, s, s.trace[i].record.target);
            && (loaded.Ok? ==> loaded.value.1 >= s.trace[i].revision)
            && (loaded.Err? ==> loaded.error == NotFound && GoneAfter(s.trace, i, s.trace[i].key))
  {
    InvAlways(cfg, states, events, n);
    var s := states[n];
    var key := s.trace[i].key;
    assert ReplaysAt(cfg, s, key);
    LaterWrite(s.trace, s.revision, i);
    LoadOfEntry(cfg, s, key, LastWrite(s.trace, key));
  }

  lemma TraceGrowsStep(cfg: Config, s: Sys, e: Event)
    requires Accepted(cfg) && Possible(cfg, s, e)
    ensures s.trace <= Next(cfg, s, e).trace
  {
  }

  lemma {:induction false} TraceGrows(cfg: Config, states: seq<Sys>, events: seq<Event>, i: nat, j: nat)
    requires Accepted(cfg) && Execution(cfg, states, events) && i <= j < |states|
    ensures states[i].trace <= states[j].trace
    decreases j
  {
    if i == j {
    } else {
      TraceGrows(cfg, states, events, i, j - 1);
      assert Steps(cfg, states[j - 1], events[j - 1], states[j]);
      TraceGrowsStep(cfg, states[j - 1], events[j - 1]);
    }
  }

  lemma {:induction false} LastWriteStays(trace: seq<Act>, n: nat, key: string)
    requires n <= |trace| && forall i | n <= i < |trace| :: !Writes(trace[i], key)
    ensures LastWrite(trace, key) == LastWrite(trace[..n], key)
  {
    if n == |trace| {
      assert trace[..n] == trace;
    } else {
      var front := trace[..|trace| - 1];
      LastWriteStays(front, n, key);
      assert front[..n] == trace[..n];
    }
  }

  /** Every put of the target that was applied is announced. */
  ghost predicate AllAnnounced(trace: seq<Act>, target: string) {
    forall i | 0 <= i < |trace| && trace[i].DidPut? && trace[i].record.target == target ::
      exists j :: 0 <= j < |trace| && trace[j].DidNotify? && trace[j].put == i
  }

  /** From position n on, the target is not notified and nothing takes its value away. */
  ghost predicate QuietFrom(cfg: Config, trace: seq<Act>, n: nat, target: string)
    requires Accepted(cfg)
  {
    forall i | n <= i < |trace| ::
      && (trace[i].DidNotify? ==> trace[i].body.target != target)
      && !Removes(trace[i], KeyOf(cfg, target))
  }

  lemma PutIsNotifiedLater(cfg: Config, trace: seq<Act>, target: string, i: nat)
    requires Accepted(cfg) && NotificationsFit(cfg, trace) && AllAnnounced(trace, target)
    requires i < |trace| && trace[i].DidPut? && trace[i].record.target == target
    ensures exists j :: i < j < |trace| && trace[j].DidNotify? && trace[j].body.target == target
  {
    var j :| 0 <= j < |trace| && trace[j].DidNotify? && trace[j].put == i;
    assert AnnouncesPut(cfg, trace, j);
  }

  lemma NoLaterWrites(cfg: Config, trace: seq<Act>, n: nat, target: string, i: nat)
    requires Accepted(cfg) && PutsFit(cfg, trace) && NotificationsFit(cfg, trace) && IsToken(cfg.letters, target)
    requires AllAnnounced(trace, target) && QuietFrom(cfg, trace, n, target)
    requires n <= i < |trace|
    ensures !Writes(trace[i], KeyOf(cfg, target))
  {
    if trace[i].DidPut? {
      if trace[i].record.target == target {
        PutIsNotifiedLater(cfg, trace, target, i);
        assert false;
      } else {
        OtherKey(cfg, trace[i].record, target);
      }
    }
  }

  lemma OtherKey(cfg: Config, rec: Record, target: string)
    requires Accepted(cfg) && StoreProblem(cfg, rec, true).None? && IsToken(cfg.letters, target) && rec.target != target
    ensures KeyOf(cfg, rec.target) != KeyOf(cfg, target)
  {
    TokensPassKv(cfg.letters, rec.target);
    DistinctTargetsDistinctKeys(cfg, rec.target, target);
  }

  /** Convergence: when every applied put of a target is announced, a load made at its last notification,
      or at any time after it, already reads the very entry that will be there in the end. */
  lemma LoadAtLastNotificationIsFinal(cfg: Config, states: seq<Sys>, events: seq<Event>, i: nat, j: nat, target: string)
    requires Accepted(cfg) && Execution(cfg, states, events) && i <= j < |states| && IsToken(cfg.letters, target)
    requires AllAnnounced(states[j].trace, target) && QuietFrom(cfg, states[j].trace, |states[i].trace|, target)
    ensures Slot(states[i].kv, KeyOf(cfg, target)) == Slot(states[j].kv, KeyOf(cfg, target))
  {
    TraceGrows(cfg, states, events, i, j);
    InvAlways(cfg, states, events, i);
    InvAlways(cfg, states, events, j);
    var key := KeyOf(cfg, target);
    assert ReplaysAt(cfg, states[i], key) && ReplaysAt(cfg, states[j], key);
    NoWritesFrom(cfg, states[j].trace, |states[i].trace|, target);
    SameLastWrite(states[i].trace, states[j].trace, key);
    SameEntry(cfg, states[i], states[j], key);
  }

  ghost predicate UnwrittenFrom(trace: seq<Act>, n: nat, key: string) {
    forall i | n <= i < |trace| :: !Writes(trace[i], key)
  }

  lemma NoWritesFrom(cfg: Config, trace: seq<Act>, n: nat, target: string)
    requires Accepted(cfg) && PutsFit(cfg, trace) && NotificationsFit(cfg, trace) && IsToken(cfg.letters, target)
    requires AllAnnounced(trace, target) && QuietFrom(cfg, trace, n, target)
    ensures UnwrittenFrom(trace, n, KeyOf(cfg, target))
  {
    forall i | n <= i < |trace|
      ensures !Writes(trace[i], KeyOf(cfg, target))
    {
      NoLaterWrites(cfg, trace, n, target, i);
    }
  }

  lemma SameLastWrite(before: seq<Act>, after: seq<Act>, key: string)
    requires before <= after && UnwrittenFrom(after, |before|, key)
    ensures LastWrite(before, key) == LastWrite(after, key)
  {
    LastWriteStays(after, |before|, key);
  }

  lemma SameEntry(cfg: Config, s: Sys, t: Sys, key: string)
    requires Accepted(cfg) && PutsFit(cfg, s.trace) && PutsFit(cfg, t.trace) && s.trace <= t.trace
    requires ReplaysAt(cfg, s, key) && ReplaysAt(cfg, t, key) && LastWrite(s.trace, key) == LastWrite(t.trace, key)
    ensures Slot(s.kv, key) == Slot(t.kv, key)
  {
    var last := LastWrite(s.trace, key);
    assert last >= 0 ==> s.trace[last] == t.trace[last];
  }

  lemma LastPutIsLastWrite(cfg: Config, trace: seq<Act>, target: string, p: nat)
    requires Accepted(cfg) && PutsFit(cfg, trace) && IsToken(cfg.letters, target) && LastPut(cfg, trace, target, p)
    ensures LastWrite(trace, KeyOf(cfg, target)) == p
  {
    LastWriteIsLast(trace, KeyOf(cfg, target), p);
    var last := LastWrite(trace, KeyOf(cfg, target));
    if last > p && trace[last].DidPut? {
      OtherKey(cfg, trace[last].record, target);
    }
  }

  /** Position p is the last put of the target, and nothing has taken its value away since. */
  ghost predicate LastPut(cfg: Config, trace: seq<Act>, target: string, p: nat)
    requires Accepted(cfg)
  {
    && p < |trace| && trace[p].DidPut? && trace[p].record.target == target
    && (forall i | p < i < |trace| && trace[i].DidPut? :: trace[i].record.target != target)
    && (forall i | p < i < |trace| :: !Removes(trace[i], KeyOf(cfg, target)))
  }

  /** As long as nothing takes it away, what a load finds is the record of the last put of the target. */
  lemma LoadFindsLastPut(cfg: Config, states: seq<Sys>, events: seq<Event>, n: nat, target: string, p: nat)
    requires Accepted(cfg) && Execution(cfg, states, events) && n < |states| && RoundTrips(cfg.json)
    requires IsToken(cfg.letters, target) && LastPut(cfg, states[n].trace, target, p)
    ensures var s := states[n];
            var loaded := Load(cfg, s, target);
            && loaded.Ok? && loaded.value.1 == s.trace[p].revision
            && loaded.value.0 == s.trace[p].record.(payload := loaded.value.0.payload)
  {
    var s := states[n];
    InvAlways(cfg, states, events, n);
    LastPutIsLastWrite(cfg, s.trace, target, p);
    assert ReplaysAt(cfg, s, KeyOf(cfg, target));
    StoredDecodes(cfg, s.trace[p].record);
  }
}

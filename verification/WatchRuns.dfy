/** Every interleaving of registrations, user stops, stop-all and overlapping restores of desired-config
    watches (agentcore/client.go). */
module WatchRuns {
  import opened Common
  import opened Watches

  // ---------- states and events ----------

  /** A call of a stop function, named by who makes it: a user's stop or a stop-all (numbered), the
      snapshot of a restore, or its commit (both numbered by the restore). */
  datatype StopCall = ByCaller(call: nat, id: WatchId) | BySnapshot(round: nat, id: WatchId)
      | ByCommit(round: nat, id: WatchId)

  /** A registration between the listing of its intent and its last section. */
  datatype Registration = Registration(target: string, made: Option<Watcher>)

  /** A restore between its snapshot and its commit: the copies still to rebuild, and the outcomes. */
  datatype Restore = Restore(todo: map<WatchId, string>, results: Results)

  /** A watcher opened for an id, on a target. */
  datatype Watch = Watch(id: WatchId, target: string)

  /** asked holds the target of each registration ever begun; watches every watcher ever opened; stops the
      watcher each stop call is for, those still to be made being in pending; raced the ids that a
      snapshot or a stop-all met while their registration was in flight. */
  datatype Sys = Sys(
    intents: Intents,
    registering: map<WatchId, Registration>,
    stoppable: set<WatchId>,
    restores: map<nat, Restore>,
    stops: map<StopCall, Watcher>,
    pending: set<StopCall>,
    rounds: nat,
    calls: nat,
    asked: seq<string>,
    watches: seq<Watch>,
    raced: set<WatchId>)

  const INITIAL := Sys(map[], map[], {}, map[], map[], {}, 0, 0, [], [], {})

  /** The sets named done are the ids whose context was found done at the check; any may be. */
  datatype Event =
    | Registers(target: string)
    | Opens(id: WatchId)
    | Fails(id: WatchId)
    | Returns(id: WatchId)
    | UserStops(id: WatchId)
    | StopsAll
    | Calls(stop: StopCall)
    | RestoreBegins(done: set<WatchId>)
    | RestoreOpens(round: nat, id: WatchId)
    | RestoreFails(round: nat, id: WatchId)
    | RestoreCommits(round: nat, done: set<WatchId>)

  ghost predicate Possible(s: Sys, e: Event) {
    match e
    case Registers(_) => true
    case Opens(id) => id in s.registering && s.registering[id].made.None?
    case Fails(id) => id in s.registering && s.registering[id].made.None?
    case Returns(id) => id in s.registering && s.registering[id].made.Some?
    case UserStops(id) => id in s.stoppable
    case StopsAll => true
    case Calls(c) => c in s.pending
    case RestoreBegins(_) => true
    case RestoreOpens(r, id) => r in s.restores && id in s.restores[r].todo
    case RestoreFails(r, id) => r in s.restores && id in s.restores[r].todo
    case RestoreCommits(r, _) => r in s.restores && s.restores[r].todo == map[]
  }

  ghost function Targets(m: Intents): map<WatchId, string> {
    map id | id in m :: m[id].target
  }

  ghost function CallerStops(m: Intents, call: nat): map<StopCall, Watcher> {
    map id | id in m && m[id].stopFn.Some? :: ByCaller(call, id) := m[id].stopFn.value
  }

  ghost function SnapshotStops(m: Intents, done: set<WatchId>, round: nat): map<StopCall, Watcher> {
    var stops := PruneStops(m, done);
    map id | id in stops && stops[id].Some? :: BySnapshot(round, id) := stops[id].value
  }

  ghost function CommitCalls(m: Intents, results: Results, done: set<WatchId>, round: nat): map<StopCall, Watcher> {
    var stops := CommitStops(m, results, done);
    map id | id in stops && stops[id].Some? :: ByCommit(round, id) := stops[id].value
  }

  ghost function Next(s: Sys, e: Event): Sys
    requires Possible(s, e)
  {
    match e
    case Registers(target) =>
      var id := |s.asked| + 1;
      s.(intents := s.intents[id := Intent(target, None)],
         registering := s.registering[id := Registration(target, None)],
         asked := s.asked + [target])
    case Opens(id) =>
      s.(registering := s.registering[id := s.registering[id].(made := Some(|s.watches|))],
         watches := s.watches + [Watch(id, s.registering[id].target)])
    case Fails(id) =>
      s.(intents := s.intents - {id}, registering := s.registering - {id})
    case Returns(id) =>
      s.(intents := SetStop(s.intents, id, s.registering[id].made.value), registering := s.registering - {id},
         stoppable := s.stoppable + {id})
    case UserStops(id) =>
      var claimed := CallerStops(map k | k in s.intents && k == id :: s.intents[k], s.calls);
      s.(intents := s.intents - {id}, stoppable := s.stoppable - {id},
         stops := s.stops + claimed, pending := s.pending + claimed.Keys, calls := s.calls + 1)
    case StopsAll =>
      var claimed := CallerStops(s.intents, s.calls);
      s.(intents := map[], stops := s.stops + claimed, pending := s.pending + claimed.Keys, calls := s.calls + 1,
         raced := s.raced + s.registering.Keys)
    case Calls(c) =>
      s.(pending := s.pending - {c})
    case RestoreBegins(done) =>
      var left := Pruned(s.intents, done);
      s.(intents := left, restores := s.restores[s.rounds := Restore(Targets(left), map[])], rounds := s.rounds + 1,
         stops := s.stops + SnapshotStops(s.intents, done, s.rounds), raced := s.raced + s.registering.Keys)
    case RestoreOpens(r, id) =>
      var now := s.restores[r];
      s.(restores := s.restores[r := Restore(now.todo - {id}, now.results[id := Some(|s.watches|)])],
         watches := s.watches + [Watch(id, now.todo[id])])
    case RestoreFails(r, id) =>
      var now := s.restores[r];
      s.(restores := s.restores[r := Restore(now.todo - {id}, now.results[id := None])])
    case RestoreCommits(r, done) =>
      var results := s.restores[r].results;
      s.(intents := Committed(s.intents, results, done), restores := s.restores - {r},
         stops := s.stops + CommitCalls(s.intents, results, done, r))
  }

  ghost predicate Steps(s: Sys, e: Event, t: Sys) {
    Possible(s, e) && t == Next(s, e)
  }

  /** A run: the states it goes through, the first being the initial one. */
  ghost predicate Execution(states: seq<Sys>, events: seq<Event>) {
    && |states| == |events| + 1 && states[0] == INITIAL
    && forall i | 0 <= i < |events| :: Steps(states[i], events[i], states[i + 1])
  }

  // ---------- who holds a watcher ----------

  datatype Holder = OfIntent(id: WatchId) | OfRegistration(id: WatchId) | OfRestore(round: nat, id: WatchId)
      | OfCall(stop: StopCall)

  ghost predicate Holds(s: Sys, h: Holder, w: Watcher) {
    match h
    case OfIntent(id) => id in s.intents && s.intents[id].stopFn == Some(w)
    case OfRegistration(id) => id in s.registering && s.registering[id].made == Some(w)
    case OfRestore(r, id) => r in s.restores && id in s.restores[r].results && s.restores[r].results[id] == Some(w)
    case OfCall(c) => c in s.stops && s.stops[c] == w
  }

  /** No stop function reaches the watcher any more. */
  ghost predicate Leaked(s: Sys, w: Watcher) {
    w < |s.watches| && forall h: Holder :: !Holds(s, h, w)
  }

  function IdOf(h: Holder): WatchId {
    match h
    case OfIntent(id) => id
    case OfRegistration(id) => id
    case OfRestore(_, id) => id
    case OfCall(c) => c.id
  }

  // ---------- the invariant ----------

  ghost predicate Asked(asked: seq<string>, id: WatchId, target: string) {
    0 < id <= |asked| && asked[id - 1] == target
  }

  ghost predicate RightTargets(s: Sys) {
    && (forall id | id in s.intents :: Asked(s.asked, id, s.intents[id].target))
    && (forall id | id in s.registering :: Asked(s.asked, id, s.registering[id].target))
    && (forall r, id | r in s.restores && id in s.restores[r].todo :: Asked(s.asked, id, s.restores[r].todo[id]))
    && (forall r, id | r in s.restores && id in s.restores[r].results :: 0 < id <= |s.asked|)
    && (forall w: Watcher | w < |s.watches| :: Asked(s.asked, s.watches[w].id, s.watches[w].target))
  }

  ghost predicate FreshNumbers(s: Sys) {
    && (forall r | r in s.restores :: r < s.rounds)
    && (forall c | c in s.stops ::
          match c
          case ByCaller(call, _) => call < s.calls
          case BySnapshot(r, _) => r < s.rounds
          case ByCommit(r, _) => r < s.rounds && r !in s.restores)
    && s.pending <= s.stops.Keys
  }

  ghost predicate Rebuilding(s: Sys) {
    forall r | r in s.restores :: s.restores[r].todo.Keys !! s.restores[r].results.Keys
  }

  ghost predicate HoldersFit(s: Sys) {
    forall h: Holder, w: Watcher | Holds(s, h, w) :: w < |s.watches| && s.watches[w].id == IdOf(h)
  }

  ghost predicate OneHolder(s: Sys) {
    forall h: Holder, k: Holder, w: Watcher | Holds(s, h, w) && Holds(s, k, w) :: h == k
  }

  /** A registration that was not raced still has its intent, without a stop function, and no restore
      knows of it. */
  ghost predicate UnracedIsListed(s: Sys) {
    forall id | id in s.registering && id !in s.raced ::
      && id in s.intents && s.intents[id].stopFn.None?
      && (forall r | r in s.restores :: id !in s.restores[r].todo && id !in s.restores[r].results)
  }

  ghost predicate Separate(s: Sys) {
    s.registering.Keys !! s.stoppable
  }

  ghost predicate Inv(s: Sys) {
    RightTargets(s) && FreshNumbers(s) && Rebuilding(s) && HoldersFit(s) && OneHolder(s) && UnracedIsListed(s)
        && Separate(s)
    && (forall id | id in s.stoppable :: 0 < id <= |s.asked|)
  }

  // ---------- one step moves holders ----------

  /** Where a step takes a watcher held by h; None when the step drops it. */
  ghost function After(s: Sys, e: Event, h: Holder): Option<Holder>
    requires Possible(s, e)
  {
    match e
    case Fails(id) =>
      if h == OfIntent(id) then None else Some(h)
    case Returns(id) =>
      if h == OfRegistration(id) then (if id in s.intents then Some(OfIntent(id)) else None)
      else if h == OfIntent(id) then None else Some(h)
    case UserStops(id) =>
      if h == OfIntent(id) then Some(OfCall(ByCaller(s.calls, id))) else Some(h)
    case StopsAll =>
      if h.OfIntent? then Some(OfCall(ByCaller(s.calls, h.id))) else Some(h)
    case RestoreBegins(done) =>
      if h.OfIntent? && h.id in done then Some(OfCall(BySnapshot(s.rounds, h.id))) else Some(h)
    case RestoreCommits(r, done) =>
      var results := s.restores[r].results;
      if h.OfRestore? && h.round == r then
        Some(if h.id in s.intents then OfIntent(h.id) else OfCall(ByCommit(r, h.id)))
      else if h.OfIntent? && h.id in results && (results[h.id].Some? || h.id in done) then
        Some(OfCall(ByCommit(r, h.id)))
      else Some(h)
    case _ => Some(h)
  }

  /** Where a watcher held by h after a step was held before. */
  ghost function Before(s: Sys, e: Event, h: Holder): Holder
    requires Possible(s, e)
  {
    match e
    case Returns(id) =>
      if h == OfIntent(id) then OfRegistration(id) else h
    case UserStops(id) =>
      if h == OfCall(ByCaller(s.calls, id)) then OfIntent(id) else h
    case StopsAll =>
      if h.OfCall? && h.stop.ByCaller? && h.stop.call == s.calls then OfIntent(h.stop.id) else h
    case RestoreBegins(_) =>
      if h.OfCall? && h.stop.BySnapshot? && h.stop.round == s.rounds then OfIntent(h.stop.id) else h
    case RestoreCommits(r, _) =>
      var results := s.restores[r].results;
      if h.OfIntent? && h.id in results && results[h.id].Some? then OfRestore(r, h.id)
      else if h.OfCall? && h.stop.ByCommit? && h.stop.round == r then
        (if h.stop.id in s.intents then OfIntent(h.stop.id) else OfRestore(r, h.stop.id))
      else h
    case _ => h
  }

  lemma HolderMovesAtSnapshot(s: Sys, e: Event, h: Holder, w: Watcher)
    requires FreshNumbers(s) && Possible(s, e) && Holds(s, h, w) && e.RestoreBegins?
    ensures After(s, e, h).Some? && Holds(Next(s, e), After(s, e, h).value, w)
  {
  }

  lemma HolderMovesAtCommit(s: Sys, e: Event, h: Holder, w: Watcher)
    requires FreshNumbers(s) && Possible(s, e) && Holds(s, h, w) && e.RestoreCommits?
    ensures After(s, e, h).Some? && Holds(Next(s, e), After(s, e, h).value, w)
  {
  }

  lemma HolderMovesAtUserStop(s: Sys, e: Event, h: Holder, w: Watcher)
    requires FreshNumbers(s) && Possible(s, e) && Holds(s, h, w) && e.UserStops?
    ensures After(s, e, h).Some? && Holds(Next(s, e), After(s, e, h).value, w)
  {
  }

  lemma HolderMovesAtStopAll(s: Sys, e: Event, h: Holder, w: Watcher)
    requires FreshNumbers(s) && Possible(s, e) && Holds(s, h, w) && e.StopsAll?
    ensures After(s, e, h).Some? && Holds(Next(s, e), After(s, e, h).value, w)
  {
  }

  lemma HolderMoves(s: Sys, e: Event, h: Holder, w: Watcher)
    requires Inv(s) && Possible(s, e) && Holds(s, h, w) && After(s, e, h).Some?
    ensures Holds(Next(s, e), After(s, e, h).value, w)
  {
    if e.RestoreBegins? {
      HolderMovesAtSnapshot(s, e, h, w);
    } else if e.RestoreCommits? {
      HolderMovesAtCommit(s, e, h, w);
    } else if e.UserStops? {
      HolderMovesAtUserStop(s, e, h, w);
    } else if e.StopsAll? {
      HolderMovesAtStopAll(s, e, h, w);
    }
  }

  predicate OpensOne(e: Event) {
    e.Opens? || e.RestoreOpens?
  }

  lemma HolderCameFromAtSnapshot(s: Sys, e: Event, h: Holder, w: Watcher)
    requires FreshNumbers(s) && Possible(s, e) && Holds(Next(s, e), h, w) && e.RestoreBegins?
    ensures Holds(s, Before(s, e, h), w) && After(s, e, Before(s, e, h)) == Some(h)
  {
  }

  lemma HolderCameFromAtCommit(s: Sys, e: Event, h: Holder, w: Watcher)
    requires FreshNumbers(s) && Possible(s, e) && Holds(Next(s, e), h, w) && e.RestoreCommits?
    ensures Holds(s, Before(s, e, h), w) && After(s, e, Before(s, e, h)) == Some(h)
  {
  }

  lemma HolderCameFromAtStop(s: Sys, e: Event, h: Holder, w: Watcher)
    requires FreshNumbers(s) && Possible(s, e) && Holds(Next(s, e), h, w) && (e.UserStops? || e.StopsAll?)
    ensures Holds(s, Before(s, e, h), w) && After(s, e, Before(s, e, h)) == Some(h)
  {
  }

  lemma HolderCameFrom(s: Sys, e: Event, h: Holder, w: Watcher)
    requires Inv(s) && Possible(s, e) && Holds(Next(s, e), h, w) && (w < |s.watches| || !OpensOne(e))
    ensures Holds(s, Before(s, e, h), w) && After(s, e, Before(s, e, h)) == Some(h)
  {
    if e.RestoreBegins? {
      HolderCameFromAtSnapshot(s, e, h, w);
    } else if e.RestoreCommits? {
      HolderCameFromAtCommit(s, e, h, w);
    } else if e.UserStops? || e.StopsAll? {
      HolderCameFromAtStop(s, e, h, w);
    }
  }

  /** The one holder of the watcher a step opens. */
  ghost function HolderOfNew(e: Event): Holder
    requires OpensOne(e)
  {
    if e.Opens? then OfRegistration(e.id) else OfRestore(e.round, e.id)
  }

  lemma NewHolder(s: Sys, e: Event, h: Holder, w: Watcher)
    requires Inv(s) && Possible(s, e) && Holds(Next(s, e), h, w) && w >= |s.watches| && OpensOne(e)
    ensures w == |s.watches| && h == HolderOfNew(e)
  {
    assert !Holds(s, h, w);
  }

  // ---------- the invariant is kept ----------

  lemma KeepsOneHolder(s: Sys, e: Event)
    requires Inv(s) && Possible(s, e)
    ensures OneHolder(Next(s, e))
  {
    var t := Next(s, e);
    forall h: Holder, k: Holder, w: Watcher | Holds(t, h, w) && Holds(t, k, w)
      ensures h == k
    {
      if w < |s.watches| || !OpensOne(e) {
        HolderCameFrom(s, e, h, w);
        HolderCameFrom(s, e, k, w);
      } else {
        NewHolder(s, e, h, w);
        NewHolder(s, e, k, w);
      }
    }
  }

  lemma BeforeHasId(s: Sys, e: Event, h: Holder)
    requires Possible(s, e)
    ensures IdOf(Before(s, e, h)) == IdOf(h)
  {
  }

  lemma KeepsHoldersFit(s: Sys, e: Event)
    requires Inv(s) && Possible(s, e)
    ensures HoldersFit(Next(s, e))
  {
    var t := Next(s, e);
    forall h: Holder, w: Watcher | Holds(t, h, w)
      ensures w < |t.watches| && t.watches[w].id == IdOf(h)
    {
      if w < |s.watches| || !OpensOne(e) {
        HolderCameFrom(s, e, h, w);
        BeforeHasId(s, e, h);
      } else {
        NewHolder(s, e, h, w);
      }
    }
  }

  lemma KeepsFreshNumbers(s: Sys, e: Event)
    requires FreshNumbers(s) && Possible(s, e) && (e.RestoreBegins? || e.RestoreCommits?)
    ensures FreshNumbers(Next(s, e))
  {
  }

  lemma KeepsFreshNumbersElsewhere(s: Sys, e: Event)
    requires FreshNumbers(s) && Possible(s, e) && !e.RestoreBegins? && !e.RestoreCommits?
    ensures FreshNumbers(Next(s, e))
  {
  }

  lemma KeepsRebuilding(s: Sys, e: Event)
    requires Rebuilding(s) && Possible(s, e)
    ensures Rebuilding(Next(s, e))
  {
  }

  lemma KeepsRightTargets(s: Sys, e: Event)
    requires RightTargets(s) && Possible(s, e) && (e.Registers? || e.Opens? || e.RestoreOpens?)
    ensures RightTargets(Next(s, e))
  {
  }

  lemma KeepsRightTargetsElsewhere(s: Sys, e: Event)
    requires RightTargets(s) && Possible(s, e) && !(e.Registers? || e.Opens? || e.RestoreOpens?)
    ensures RightTargets(Next(s, e))
  {
  }

  predicate IsRestoreStep(e: Event) {
    e.RestoreBegins? || e.RestoreOpens? || e.RestoreFails? || e.RestoreCommits?
  }

  lemma KeepsListedAtRestore(s: Sys, e: Event)
    requires RightTargets(s) && UnracedIsListed(s) && Possible(s, e) && IsRestoreStep(e)
    ensures UnracedIsListed(Next(s, e))
  {
  }

  lemma KeepsListed(s: Sys, e: Event)
    requires RightTargets(s) && UnracedIsListed(s) && Separate(s) && Possible(s, e)
    ensures UnracedIsListed(Next(s, e))
  {
    if IsRestoreStep(e) {
      KeepsListedAtRestore(s, e);
    }
  }

  lemma KeepsSeparate(s: Sys, e: Event)
    requires RightTargets(s) && Separate(s) && Possible(s, e) && forall id | id in s.stoppable :: 0 < id <= |s.asked|
    ensures Separate(Next(s, e)) && forall id | id in Next(s, e).stoppable :: 0 < id <= |Next(s, e).asked|
  {
  }

  lemma KeepsInv(s: Sys, e: Event)
    requires Inv(s) && Possible(s, e)
    ensures Inv(Next(s, e))
  {
    KeepsOneHolder(s, e);
    KeepsHoldersFit(s, e);
    KeepsRebuilding(s, e);
    if e.RestoreBegins? || e.RestoreCommits? {
      KeepsFreshNumbers(s, e);
    } else {
      KeepsFreshNumbersElsewhere(s, e);
    }
    if e.Registers? || e.Opens? || e.RestoreOpens? {
      KeepsRightTargets(s, e);
    } else {
      KeepsRightTargetsElsewhere(s, e);
    }
    KeepsListed(s, e);
    KeepsSeparate(s, e);
  }

  lemma {:induction false} InvAlways(states: seq<Sys>, events: seq<Event>, i: nat)
    requires Execution(states, events) && i < |states|
    ensures Inv(states[i])
  {
    if i == 0 {
    } else {
      InvAlways(states, events, i - 1);
      assert Steps(states[i - 1], events[i - 1], states[i]);
      KeepsInv(states[i - 1], events[i - 1]);
    }
  }

  // ---------- leaks ----------

  /** The step drops the last holder of w: the end of a registration whose intent is gone, or whose
      intent a restore has given a stop function meanwhile. */
  ghost predicate Drops(s: Sys, e: Event, w: Watcher)
    requires Possible(s, e)
  {
    match e
    case Fails(id) => StopFnOf(s.intents, id) == Some(w)
    case Returns(id) => StopFnOf(s.intents, id) == Some(w) || (id !in s.intents && s.registering[id].made == Some(w))
    case _ => false
  }

  lemma DropsIsAfterNone(s: Sys, e: Event, h: Holder, w: Watcher)
    requires Inv(s) && Possible(s, e) && Holds(s, h, w)
    ensures After(s, e, h).None? <==> Drops(s, e, w)
  {
    if e.Fails? && Drops(s, e, w) {
      assert Holds(s, OfIntent(e.id), w);
    } else if e.Returns? && Drops(s, e, w) {
      if e.id in s.intents {
        assert Holds(s, OfIntent(e.id), w);
      } else {
        assert Holds(s, OfRegistration(e.id), w);
      }
    }
  }

  /** A step leaks exactly the watchers it drops and those leaked already. */
  lemma LeaksExactlyWhatItDrops(s: Sys, e: Event, w: Watcher)
    requires Inv(s) && Possible(s, e) && w < |Next(s, e).watches|
    ensures Leaked(Next(s, e), w) <==> (Leaked(s, w) || (w < |s.watches| && Drops(s, e, w)))
  {
    var t := Next(s, e);
    if w >= |s.watches| {
      assert Holds(t, HolderOfNew(e), w);
    } else if h: Holder :| Holds(s, h, w) {
      DropsIsAfterNone(s, e, h, w);
      if After(s, e, h).Some? {
        HolderMoves(s, e, h, w);
      } else {
        forall k: Holder
          ensures !Holds(t, k, w)
        {
          if Holds(t, k, w) {
            HolderCameFrom(s, e, k, w);
          }
        }
      }
    } else {
      forall k: Holder
        ensures !Holds(t, k, w)
      {
        if Holds(t, k, w) {
          HolderCameFrom(s, e, k, w);
        }
      }
    }
  }

  /** A registration that no snapshot and no stop-all meets drops nothing. */
  lemma {:induction false} LeaksAreRaced(states: seq<Sys>, events: seq<Event>, i: nat, w: Watcher)
    requires Execution(states, events) && i < |states| && Leaked(states[i], w)
    ensures states[i].watches[w].id in states[i].raced
  {
    if i == 0 {
    } else {
      var s, e := states[i - 1], events[i - 1];
      assert Steps(s, e, states[i]);
      InvAlways(states, events, i - 1);
      LeaksExactlyWhatItDrops(s, e, w);
      if Leaked(s, w) {
        LeaksAreRaced(states, events, i - 1, w);
      } else {
        DropsAreRaced(s, e, w);
      }
    }
  }

  lemma DropsAreRaced(s: Sys, e: Event, w: Watcher)
    requires Inv(s) && Possible(s, e) && Drops(s, e, w)
    ensures w < |s.watches| && s.watches[w].id in s.raced
  {
    DropsAreRegistering(s, e, w);
  }

  /** Step k of the run drops w. */
  ghost predicate DroppedAt(states: seq<Sys>, events: seq<Event>, k: nat, w: Watcher) {
    && k < |events| && k < |states| && Possible(states[k], events[k])
    && w < |states[k].watches| && Drops(states[k], events[k], w)
  }

  lemma DroppedMeansOpened(states: seq<Sys>, events: seq<Event>, k: nat, i: nat, w: Watcher)
    requires Execution(states, events) && k < i < |states| && DroppedAt(states, events, k, w)
    ensures w < |states[i].watches|
    decreases i
  {
    assert Steps(states[i - 1], events[i - 1], states[i]);
    if i == k + 1 {
    } else {
      DroppedMeansOpened(states, events, k, i - 1, w);
    }
    WatchesGrow(states[i - 1], events[i - 1]);
  }

  lemma WatchesGrow(s: Sys, e: Event)
    requires Possible(s, e)
    ensures s.watches <= Next(s, e).watches && s.asked <= Next(s, e).asked
  {
  }

  /** Leaks are accounted for: in every run a watcher is without holder if and only if some earlier step
      dropped it. */
  lemma {:induction false} LeakedIffDropped(states: seq<Sys>, events: seq<Event>, i: nat, w: Watcher)
    requires Execution(states, events) && i < |states| && w < |states[i].watches|
    ensures Leaked(states[i], w) <==> exists k :: 0 <= k < i && DroppedAt(states, events, k, w)
  {
    if i == 0 {
    } else {
      var s, e := states[i - 1], events[i - 1];
      assert Steps(s, e, states[i]);
      InvAlways(states, events, i - 1);
      LeaksExactlyWhatItDrops(s, e, w);
      if w < |s.watches| {
        LeakedIffDropped(states, events, i - 1, w);
        assert DroppedAt(states, events, i - 1, w) <==> Drops(s, e, w);
      } else {
        forall k | 0 <= k < i
          ensures !DroppedAt(states, events, k, w)
        {
          if k < i - 1 && DroppedAt(states, events, k, w) {
            DroppedMeansOpened(states, events, k, i - 1, w);
          }
        }
      }
    }
  }

  // ---------- what holds in every run ----------

  /** In every interleaving, a watcher has at most one holder, which watches for its own id on the target
      that id was registered for. It has one unless the end of its id's registration dropped it. */
  lemma WatchersAreConserved(states: seq<Sys>, events: seq<Event>, i: nat, w: Watcher)
    requires Execution(states, events) && i < |states| && w < |states[i].watches|
    ensures var s := states[i];
            && ((exists h: Holder :: Holds(s, h, w)) <==> !exists k :: 0 <= k < i && DroppedAt(states, events, k, w))
            && (forall h: Holder, k: Holder | Holds(s, h, w) && Holds(s, k, w) :: h == k)
            && (forall h: Holder | Holds(s, h, w) :: IdOf(h) == s.watches[w].id)
            && Asked(s.asked, s.watches[w].id, s.watches[w].target)
  {
    InvAlways(states, events, i);
    LeakedIffDropped(states, events, i, w);
  }

  /** The registration of the id has begun and ended. */
  ghost predicate Registered(s: Sys, id: WatchId) {
    0 < id <= |s.asked| && id !in s.registering
  }

  lemma StaysRegistered(s: Sys, e: Event, id: WatchId)
    requires RightTargets(s) && Possible(s, e) && Registered(s, id)
    ensures Registered(Next(s, e), id)
  {
  }

  /** Only the end of an id's own registration drops a watcher of that id. */
  lemma DropsAreRegistering(s: Sys, e: Event, w: Watcher)
    requires Inv(s) && Possible(s, e) && Drops(s, e, w)
    ensures w < |s.watches| && s.watches[w].id in s.registering && s.watches[w].id == e.id
  {
    if StopFnOf(s.intents, e.id) == Some(w) {
      assert Holds(s, OfIntent(e.id), w);
    } else {
      assert Holds(s, OfRegistration(e.id), w);
    }
  }

  /** A watch whose registration has returned keeps its watchers: whichever of them still had a holder then,
      and whichever is opened for it later, always has one, whatever raced with the registration before and
      whatever restores, stops and stop-alls interleave after. */
  lemma {:induction false} RegisteredWatchesAreKept(states: seq<Sys>, events: seq<Event>, i: nat, j: nat, w: Watcher)
    requires Execution(states, events) && i <= j < |states| && w < |states[j].watches|
    requires Registered(states[i], states[j].watches[w].id)
    requires w < |states[i].watches| ==> !Leaked(states[i], w)
    ensures Registered(states[j], states[j].watches[w].id) && !Leaked(states[j], w)
    decreases j
  {
    var id := states[j].watches[w].id;
    if i == j {
    } else {
      var s, e := states[j - 1], events[j - 1];
      assert Steps(s, e, states[j]);
      InvAlways(states, events, j - 1);
      WatchesGrow(s, e);
      StillRegistered(states, events, i, j - 1, id);
      StaysRegistered(s, e, id);
      LeaksExactlyWhatItDrops(s, e, w);
      if w < |s.watches| {
        RegisteredWatchesAreKept(states, events, i, j - 1, w);
        if Drops(s, e, w) {
          DropsAreRegistering(s, e, w);
          assert false;
        }
      }
    }
  }

  lemma {:induction false} StillRegistered(states: seq<Sys>, events: seq<Event>, i: nat, j: nat, id: WatchId)
    requires Execution(states, events) && i <= j < |states| && Registered(states[i], id)
    ensures Registered(states[j], id)
    decreases j
  {
    if i == j {
    } else {
      StillRegistered(states, events, i, j - 1, id);
      StepRegistered(states, events, j - 1, id);
    }
  }

  lemma StepRegistered(states: seq<Sys>, events: seq<Event>, k: nat, id: WatchId)
    requires Execution(states, events) && k < |events| && Registered(states[k], id)
    ensures Registered(states[k + 1], id)
  {
    assert Steps(states[k], events[k], states[k + 1]);
    InvAlways(states, events, k);
    StaysRegistered(states[k], events[k], id);
  }

  ghost predicate AtRest(s: Sys) {
    s.registering == map[] && s.restores == map[] && s.pending == {}
  }

  /** The watcher was stopped: some stop call, made already, is for it. */
  ghost predicate Stopped(s: Sys, w: Watcher) {
    exists c: StopCall :: c in s.stops && c !in s.pending && s.stops[c] == w
  }

  lemma AtRestHolder(s: Sys, h: Holder, w: Watcher)
    requires HoldersFit(s) && AtRest(s) && Holds(s, h, w)
    ensures w < |s.watches| && (StopFnOf(s.intents, s.watches[w].id) == Some(w) || Stopped(s, w))
  {
    assert IdOf(h) == s.watches[w].id;
    if h.OfCall? {
      assert h.stop in s.stops && h.stop !in s.pending;
    }
  }

  /** Once nothing is in flight, every watcher is exactly one of three: the stop function of its own listed
      intent, stopped, by exactly one call, or dropped by the end of its registration. */
  lemma AtRestWatchersAreListedOrStopped(states: seq<Sys>, events: seq<Event>, i: nat, w: Watcher)
    requires Execution(states, events) && i < |states| && AtRest(states[i]) && w < |states[i].watches|
    ensures var s := states[i];
            var listed := StopFnOf(s.intents, s.watches[w].id) == Some(w);
            && (listed ==> !Stopped(s, w))
            && (Leaked(s, w) <==> !listed && !Stopped(s, w))
            && (forall c: StopCall, d: StopCall | c in s.stops && d in s.stops && s.stops[c] == w && s.stops[d] == w ::
                  c == d)
  {
    var s := states[i];
    InvAlways(states, events, i);
    if StopFnOf(s.intents, s.watches[w].id) == Some(w) {
      assert Holds(s, OfIntent(s.watches[w].id), w);
      forall c: StopCall | c in s.stops
        ensures s.stops[c] != w
      {
        assert !Holds(s, OfCall(c), w);
      }
    } else if Stopped(s, w) {
      var c: StopCall :| c in s.stops && c !in s.pending && s.stops[c] == w;
      assert Holds(s, OfCall(c), w);
    } else {
      forall h: Holder
        ensures !Holds(s, h, w)
      {
        if Holds(s, h, w) {
          AtRestHolder(s, h, w);
          assert false;
        }
      }
    }
    forall c: StopCall, d: StopCall | c in s.stops && d in s.stops && s.stops[c] == w && s.stops[d] == w
      ensures c == d
    {
      assert Holds(s, OfCall(c), w) && Holds(s, OfCall(d), w);
    }
  }

  /** An id that has been taken off the table never comes back, whatever restore listed it earlier. */
  lemma {:induction false} RemovedIdsStayRemoved(states: seq<Sys>, events: seq<Event>, i: nat, j: nat, id: WatchId)
    requires Execution(states, events) && i <= j < |states|
    requires 0 < id <= |states[i].asked| && id !in states[i].intents
    ensures id !in states[j].intents && id <= |states[j].asked|
    decreases j
  {
    if i == j {
    } else {
      RemovedIdsStayRemoved(states, events, i, j - 1, id);
      assert Steps(states[j - 1], events[j - 1], states[j]);
      OneStepKeepsRemoved(states[j - 1], events[j - 1], id);
    }
  }

  lemma OneStepKeepsRemoved(s: Sys, e: Event, id: WatchId)
    requires Possible(s, e) && 0 < id <= |s.asked| && id !in s.intents
    ensures id !in Next(s, e).intents && |s.asked| <= |Next(s, e).asked|
  {
  }

  /** A state that some run reaches. */
  ghost predicate Reachable(s: Sys) {
    exists states, events :: Execution(states, events) && states[|events|] == s
  }

  lemma OneMore(s: Sys, e: Event)
    requires Reachable(s) && Possible(s, e)
    ensures Reachable(Next(s, e))
  {
    var states, events :| Execution(states, events) && states[|events|] == s;
    var states', events' := states + [Next(s, e)], events + [e];
    forall i | 0 <= i < |events'|
      ensures Steps(states'[i], events'[i], states'[i + 1])
    {
      assert i < |events| ==> Steps(states[i], events[i], states[i + 1]);
    }
    assert Execution(states', events') && states'[|events'|] == Next(s, e);
  }

  lemma ReachableInv(s: Sys)
    requires Reachable(s)
    ensures Inv(s)
  {
    var states, events :| Execution(states, events) && states[|events|] == s;
    InvAlways(states, events, |events|);
  }

  lemma FirstRegistration(target: string) returns (s: Sys)
    ensures Reachable(s)
    ensures s
            == INITIAL.(intents := map[1 := Intent(target, None)], registering := map[1 := Registration(target, None)],
                          asked := [target])
  {
    assert Execution([INITIAL], []);
    OneMore(INITIAL, Registers(target));
    s := Next(INITIAL, Registers(target));
  }

  lemma RegistrationInFlight(target: string) returns (s: Sys)
    ensures Reachable(s)
    ensures s.intents == map[1 := Intent(target, None)] && s.registering == map[1 := Registration(target, Some(0))]
    ensures s.restores == map[] && s.rounds == 0 && |s.watches| == 1
  {
    var first := FirstRegistration(target);
    OneMore(first, Opens(1));
    s := Next(first, Opens(1));
  }

  lemma SnapshotOfOne(s: Sys, id: WatchId, target: string)
    requires s.intents == map[id := Intent(target, None)] && s.restores == map[]
    ensures var t := Next(s, RestoreBegins({}));
            && t.intents == s.intents && t.registering == s.registering && t.watches == s.watches
            && t.restores == map[s.rounds := Restore(map[id := target], map[])]
  {
    assert Pruned(s.intents, {}) == s.intents;
    assert Targets(s.intents) == map[id := target];
  }

  lemma SnapshotInFlight() returns (s: Sys)
    ensures Reachable(s)
    ensures s.intents == map[1 := Intent("a", None)] && s.registering == map[1 := Registration("a", Some(0))]
    ensures s.restores == map[0 := Restore(map[1 := "a"], map[])] && |s.watches| == 1
  {
    var before := RegistrationInFlight("a");
    SnapshotOfOne(before, 1, "a");
    OneMore(before, RestoreBegins({}));
    s := Next(before, RestoreBegins({}));
  }

  lemma CommitInFlight() returns (s: Sys)
    ensures Reachable(s)
    ensures StopFnOf(s.intents, 1) == Some(1) && s.registering == map[1 := Registration("a", Some(0))]
    ensures |s.watches| == 2
  {
    var listed := SnapshotInFlight();
    OneMore(listed, RestoreOpens(0, 1));
    var rebuilt := Next(listed, RestoreOpens(0, 1));
    assert rebuilt.restores[0] == Restore(map[], map[1 := Some(1)]);
    OneMore(rebuilt, RestoreCommits(0, {}));
    s := Next(rebuilt, RestoreCommits(0, {}));
  }

  /** Drops do happen: a restore that meets a registration in flight makes it lose
      the watcher the restore installed, which no stop function reaches any more. */
  lemma RacedRegistrationLeaks()
    ensures exists s: Sys, w: Watcher :: Reachable(s) && Leaked(s, w)
  {
    var s := CommitInFlight();
    OneMore(s, Returns(1));
    ReachableInv(s);
    LeaksExactlyWhatItDrops(s, Returns(1), 1);
    assert Leaked(Next(s, Returns(1)), 1);
  }
}

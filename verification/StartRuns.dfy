/** Client starts, registrations, reconnect restores, closes and the session itself, all interleaved
    (agentcore/client.go, agentcore/handlers_runtime.go): when a Start that returns nil leaves every
    registration active. */
module StartRuns {
  import opened Common
  import opened Registry
  import opened Subscriptions
  import H = SessionHealth
  import R = SubscriptionRuns
  import S = SessionRuns
  import Session

  // ---------- states and events ----------

  /** Where a client Start is: in the session's Start, with or without its connection installed; past it
      with nil; and past a successful activation of all registrations. */
  datatype Phase = Connecting | Committed | SessionUp | Activated

  /** open is the callback flag, reconnects counts the reconnects that found it set and have still to
      restore. complete is what the callers have been told: see Told. */
  datatype Boot = Boot(subs: R.Sys, sess: S.Sys, calls: map<nat, Phase>, open: bool, reconnects: nat, complete: bool)

  datatype Event =
    | StartCalls(t: nat)
    | SessionMoves(move: S.Event)
    | StartActivates(t: nat, out: RegId -> Outcome, created: map<RegId, SubId>)
    | StartReturns(t: nat)
    | Shuts
    | ReconnectSeen
    | Subs(step: R.Event)

  function Init(retry: bool): Boot {
    Boot(R.Sys(State(Table(0, map[], map[]), map[], 0), map[]), S.Init(retry), map[], false, 0, true)
  }

  function Entries(b: Boot): map<RegId, Record> {
    b.subs.st.table.entries
  }

  /** A client Start enters the session's Start: let in, or back at once because there is a connection, or
      refused. */
  function Called(b: Boot, t: nat): map<nat, Phase> {
    var verdict := Session.BeginStart(b.sess.core, S.CoreLink(b.sess), |b.sess.closes|).1;
    if verdict.Admitted? then b.calls[t := Connecting]
    else if verdict.AlreadyConnected? then b.calls[t := SessionUp]
    else b.calls
  }

  /** The session's Start returns nil when it exits after installing its connection. */
  function Moved(b: Boot, e: S.Event): map<nat, Phase>
    requires S.Enabled(b.sess, e)
  {
    if e.StartCommits? && e.t in b.calls && Session.CommitStart(b.sess.core, b.sess.starts[e.t].at.conn, e.url).1 then
      b.calls[e.t := Committed]
    else if e.StartExits? && e.t in b.calls then
      (if b.calls[e.t].Committed? then b.calls[e.t := SessionUp] else b.calls - {e.t})
    else b.calls
  }

  /** What the results of the calls say, starting from an empty table: an activation or a restore that
      returns nil has activated all there is; one that fails has not; a registration that returns nil
      without activating leaves something to do, and so does a detachment of what there was. */
  ghost function Told(b: Boot, step: R.Event): bool {
    match step
    case Registers(_, state, _, r) => b.complete && !(r.Ok? && Session.DefersActivation(state))
    case ActivatesAll(out, _) => ActivationFailures(Entries(b), out, Entries(b).Keys) == {}
    case Restores(out, batch, created) => R.RestoreReturnsNil(b.subs.st, out, batch, created)
    case Detaches(_) => Entries(b) == map[]
    case Unsubscribes(_, _) => b.complete
  }

  /** A registration reads the health state of the session as it is. */
  ghost predicate SubsStep(b: Boot, step: R.Event, b': Boot) {
    && R.Step(b.subs, step, b'.subs)
    && b'.complete == Told(b, step)
    && (step.Registers? ==> step.state == b.sess.core.health.state)
  }

  ghost predicate Step(b: Boot, e: Event, b': Boot) {
    match e
    case StartCalls(t) =>
      && t !in b.calls && S.Enabled(b.sess, S.StartBegins(t))
      && b' == b.(sess := S.Next(b.sess, S.StartBegins(t)), calls := Called(b, t))
    case SessionMoves(move) =>
      && !move.StartBegins? && S.Enabled(b.sess, move)
      && b' == b.(sess := S.Next(b.sess, move), calls := Moved(b, move))
    case StartActivates(t, out, created) =>
      && t in b.calls && b.calls[t].SessionUp?
      && SubsStep(b, R.ActivatesAll(out, created), b')
      && b' == b.(subs := b'.subs, complete := b'.complete, open := b.open && b'.complete,
                  calls := if b'.complete then b.calls[t := Activated] else b.calls - {t})
    case StartReturns(t) =>
      t in b.calls && b.calls[t].Activated? && b' == b.(calls := b.calls - {t}, open := true)
    case Shuts => b' == b.(open := false)
    case ReconnectSeen => b.open && b' == b.(reconnects := b.reconnects + 1)
    case Subs(step) =>
      && !step.ActivatesAll? && SubsStep(b, step, b') && (step.Restores? ==> b.reconnects > 0)
      && b' == b.(subs := b'.subs, complete := b'.complete,
                  reconnects := if step.Restores? then b.reconnects - 1 else b.reconnects)
  }

  ghost predicate Execution(states: seq<Boot>, events: seq<Event>) {
    && |states| == |events| + 1
    && states[0] == Init(states[0].sess.core.retryOnFailedConnect)
    && forall i | 0 <= i < |events| :: Step(states[i], events[i], states[i + 1])
  }

  ghost predicate AllActive(entries: map<RegId, Record>) {
    forall id | id in entries :: entries[id].active
  }

  // ---------- what a client Start goes through ----------

  /** The stored connection is one that a Start keeps. */
  predicate KeepsConnection(sess: S.Sys) {
    sess.core.nc.Some? && sess.core.nc.value < |sess.links| && sess.links[sess.core.nc.value] != Session.LinkClosed
  }

  /** A client Start gets past the session at once iff neither a Start nor a Close is under way there and a
      connection that is not closed is stored, and then the session does not change; without such a
      connection it is let in; otherwise it is back with an error. */
  lemma StartCallGoesOn(b: Boot, t: nat, b': Boot)
    requires S.Inv(b.sess) && Step(b, StartCalls(t), b')
    ensures var m := b.sess.core;
            var free := !m.starting && !m.closing && !m.retryOnFailedConnect;
            && (t in b'.calls && b'.calls[t].SessionUp? <==> free && KeepsConnection(b.sess))
            && (t in b'.calls && b'.calls[t].Connecting? <==> free && !KeepsConnection(b.sess))
            && (t !in b'.calls <==> !free)
            && (free && !KeepsConnection(b.sess) <==> b'.sess != b.sess)
  {
  }

  /** The step gets the Start t past the session's connection: it finds one to keep, with nothing under way
      there, or its own is installed while no Close is under way. */
  ghost predicate Connects(b: Boot, e: Event, b': Boot, t: nat) {
    || (e == StartCalls(t) && KeepsConnection(b.sess) && !b.sess.core.starting && !b.sess.core.closing)
    || (e.SessionMoves? && e.move.StartCommits? && e.move.t == t && t in b.sess.starts && b.sess.starts[t].at.Holding?
        && !b.sess.core.closing && b'.sess.core.nc == Some(b.sess.starts[t].at.conn))
  }

  /** The step activates all registrations for the Start t, with success. */
  ghost predicate ActivatesAll(e: Event, b': Boot, t: nat) {
    e.StartActivates? && e.t == t && AllActive(Entries(b'))
  }

  /** A phase is entered from the one before it, by the step that does its work. */
  ghost predicate PhaseMoves(b: Boot, e: Event, b': Boot, t: nat) {
    t in b'.calls && (t in b.calls ==> b.calls[t] != b'.calls[t]) ==>
      && (b'.calls[t].Committed? ==> Connects(b, e, b', t))
      && (b'.calls[t].SessionUp? ==> Connects(b, e, b', t) || (t in b.calls && b.calls[t].Committed?))
      && (b'.calls[t].Activated? ==> t in b.calls && b.calls[t].SessionUp? && ActivatesAll(e, b', t))
  }

  lemma ActivationTells(b: Boot, e: Event, b': Boot)
    requires Inv(b) && Step(b, e, b') && e.StartActivates?
    ensures b'.complete <==> AllActive(Entries(b'))
  {
    StepKeepsInv(b, e, b');
  }

  lemma PhaseChanges(b: Boot, e: Event, b': Boot, t: nat)
    requires Step(b, e, b') && (e.StartActivates? ==> (b'.complete <==> AllActive(Entries(b'))))
    ensures PhaseMoves(b, e, b', t)
  {
  }

  /** The Start t is past the session's connection. */
  predicate Past(b: Boot, t: nat) {
    t in b.calls && !b.calls[t].Connecting?
  }

  /** Event a gets the Start t past the session's connection, and t has been past it ever since. */
  ghost predicate ConnectedAt(states: seq<Boot>, events: seq<Event>, a: nat, i: nat, t: nat) {
    && a < i < |states| <= |events| + 1
    && Connects(states[a], events[a], states[a + 1], t)
    && forall n | a < n <= i :: Past(states[n], t)
  }

  ghost predicate AllPhasesMove(states: seq<Boot>, events: seq<Event>, i: nat, t: nat) {
    && i < |states| <= |events| + 1 && states[0].calls == map[]
    && forall k | 0 <= k < i :: PhaseMoves(states[k], events[k], states[k + 1], t)
  }

  lemma {:induction false} ConnectedHistory(states: seq<Boot>, events: seq<Event>, i: nat, t: nat) returns (a: nat)
    requires AllPhasesMove(states, events, i, t) && Past(states[i], t)
    ensures ConnectedAt(states, events, a, i, t)
  {
    assert PhaseMoves(states[i - 1], events[i - 1], states[i], t);
    if Connects(states[i - 1], events[i - 1], states[i], t) {
      a := i - 1;
    } else {
      a := ConnectedHistory(states, events, i - 1, t);
    }
  }

  lemma {:induction false} ActivatedHistory(states: seq<Boot>, events: seq<Event>, i: nat, t: nat)
    returns (a: nat, k: nat)
    requires AllPhasesMove(states, events, i, t) && Past(states[i], t) && states[i].calls[t].Activated?
    ensures a < k < i && ConnectedAt(states, events, a, i, t) && ActivatesAll(events[k], states[k + 1], t)
  {
    var b := states[i - 1];
    assert PhaseMoves(b, events[i - 1], states[i], t);
    if t in b.calls && b.calls[t].Activated? {
      a, k := ActivatedHistory(states, events, i - 1, t);
    } else {
      a := ConnectedHistory(states, events, i - 1, t);
      k := i - 1;
    }
  }

  /** A Start that returns nil got past the session with a connection that was stored and not closed, or that it
      installed itself, in either case while no Close was under way there; and has then activated all
      registrations. */
  lemma NilStartWasConnected(states: seq<Boot>, events: seq<Event>, j: nat, t: nat)
    requires Execution(states, events) && j < |events| && events[j] == StartReturns(t)
    ensures exists a: nat, k: nat ::
              a < k < j && ConnectedAt(states, events, a, j, t) && ActivatesAll(events[k], states[k + 1], t)
  {
    forall k | 0 <= k < j
      ensures PhaseMoves(states[k], events[k], states[k + 1], t)
    {
      StepAt(states, events, k);
      if events[k].StartActivates? {
        ActivationTells(states[k], events[k], states[k + 1]);
      }
      PhaseChanges(states[k], events[k], states[k + 1], t);
    }
    assert Step(states[j], events[j], states[j + 1]);
    var a, k := ActivatedHistory(states, events, j, t);
  }

  // ---------- exactly when everything is active ----------

  lemma AllAttemptsSucceeded(st: State, st': State, out: RegId -> Outcome, created: map<RegId, SubId>, id: RegId)
    requires Sound(st) && ActivatedAll(st, st', out, created) && id in st.table.entries
    requires ActivationFailures(st.table.entries, out, st.table.entries.Keys) == {}
    ensures id in st'.table.entries && st'.table.entries[id].active
    ensures st.table.entries[id].activeSub.Some? ==> st'.table.entries[id].activeSub == st.table.entries[id].activeSub
  {
    ActivatedEntry(st, st', out, created, id);
    assert Filed(st.table.entries[id], id, st.table);
    assert id !in ActivationFailures(st.table.entries, out, st.table.entries.Keys);
  }

  /** An activation of all registrations returns nil iff it leaves all of them active. */
  lemma ActivationNilIff(st: State, st': State, out: RegId -> Outcome, created: map<RegId, SubId>)
    requires Sound(st) && ActivatedAll(st, st', out, created)
    ensures ActivationFailures(st.table.entries, out, st.table.entries.Keys) == {} <==> AllActive(st'.table.entries)
  {
    var failures := ActivationFailures(st.table.entries, out, st.table.entries.Keys);
    if failures == {} {
      forall id | id in st'.table.entries
        ensures st'.table.entries[id].active
      {
        AllAttemptsSucceeded(st, st', out, created, id);
      }
    } else {
      var id :| id in failures;
      ActivatedEntry(st, st', out, created, id);
    }
  }

  lemma RegistrationTells(st: State, st': State, spec: AddSpec, state: Session.Lifecycle, o: Outcome,
                          r: Result<RegId, RegisterError>)
    requires Sound(st) && Registered(st, st', spec, state, o, r)
    ensures AllActive(st'.table.entries) <==> AllActive(st.table.entries) && !(r.Ok? && Session.DefersActivation(state))
  {
    R.RegistrationIsTransactional(st, st', spec, state, o, r);
    var entries, entries' := st.table.entries, st'.table.entries;
    if r.Ok? {
      forall id | id in entries
        ensures id in entries' && entries'[id] == entries[id]
      {
        assert id in entries' - {r.value};
      }
      forall id | id in entries'
        ensures id == r.value || (id in entries && entries'[id] == entries[id])
      {
        assert id != r.value ==> id in entries' - {r.value};
      }
    }
  }

  lemma StepTells(b: Boot, step: R.Event, b': Boot)
    requires Sound(b.subs.st) && SubsStep(b, step, b') && (b.complete <==> AllActive(Entries(b)))
    ensures b'.complete <==> AllActive(Entries(b'))
  {
    match step {
      case Registers(spec, state, o, r) => RegistrationTells(b.subs.st, b'.subs.st, spec, state, o, r);
      case ActivatesAll(out, created) => ActivationNilIff(b.subs.st, b'.subs.st, out, created);
      case Restores(out, batch, created) => R.RestoreExits(b.subs.st, b'.subs.st, out, batch, created);
      case Detaches(t) =>
        if Entries(b) != map[] {
          var id :| id in Entries(b);
          assert !Entries(b')[id].active;
        }
      case Unsubscribes(_, _) =>
    }
  }

  ghost predicate Inv(b: Boot) {
    R.Conserved(b.subs) && S.Inv(b.sess) && H.StateFits(b.sess) && (b.complete <==> AllActive(Entries(b)))
  }

  lemma StepKeepsInv(b: Boot, e: Event, b': Boot)
    requires Inv(b) && Step(b, e, b')
    ensures Inv(b')
  {
    match e {
      case StartCalls(t) =>
        S.StepKeepsInv(b.sess, S.StartBegins(t));
        H.StepKeepsStateFits(b.sess, S.StartBegins(t));
      case SessionMoves(move) =>
        S.StepKeepsInv(b.sess, move);
        H.StepKeepsStateFits(b.sess, move);
      case StartActivates(_, out, created) =>
        R.StepConserves(b.subs, R.ActivatesAll(out, created), b'.subs);
        StepTells(b, R.ActivatesAll(out, created), b');
      case Subs(step) =>
        R.StepConserves(b.subs, step, b'.subs);
        StepTells(b, step, b');
      case _ =>
    }
  }

  lemma {:induction false} ExecutionKeeps(states: seq<Boot>, events: seq<Event>, i: nat)
    requires Execution(states, events) && i < |states|
    ensures Inv(states[i])
  {
    if i == 0 {
    } else {
      ExecutionKeeps(states, events, i - 1);
      StepKeepsInv(states[i - 1], events[i - 1], states[i]);
    }
  }

  /** In every interleaving, all registrations are active if and only if the results of the calls say so. */
  lemma ActivationIsExact(states: seq<Boot>, events: seq<Event>, i: nat)
    requires Execution(states, events) && i < |states|
    ensures states[i].complete <==> AllActive(Entries(states[i]))
  {
    ExecutionKeeps(states, events, i);
  }

  // ---------- what a Start that returns nil leaves ----------

  /** No other Start is let into the session while the Start t is past it. The session lets one in then only
      if the connection was closed in between. */
  ghost predicate CalmFor(b: Boot, e: Event, t: nat) {
    e.StartCalls? && H.AdmitsStart(b.sess, S.StartBegins(e.t)) ==> t !in b.calls || b.calls[t].Connecting?
  }

  /** Past the session, the Start t finds it up. */
  ghost predicate UpFor(b: Boot, t: nat) {
    t in b.calls && !b.calls[t].Connecting? ==> !Session.DefersActivation(b.sess.core.health.state)
  }

  lemma StepKeepsUp(b: Boot, e: Event, b': Boot, t: nat)
    requires Inv(b) && UpFor(b, t) && Step(b, e, b') && CalmFor(b, e, t)
    ensures UpFor(b', t)
  {
    match e {
      case StartCalls(u) =>
        if Session.BeginStart(b.sess.core, S.CoreLink(b.sess), |b.sess.closes|).1.AlreadyConnected? {
          H.KeptConnectionIsUp(b.sess, u);
        }
        if !H.AdmitsStart(b.sess, S.StartBegins(u)) {
          assert b'.sess == b.sess;
        }
      case SessionMoves(move) =>
        H.StateChanges(b.sess, move);
        CommittedIsUp(b, move);
      case _ =>
    }
  }

  lemma CommittedIsUp(b: Boot, move: S.Event)
    requires S.Enabled(b.sess, move)
    ensures move.StartCommits? ==> !Session.DefersActivation(S.Next(b.sess, move).core.health.state)
    ensures forall t | t in Moved(b, move) && !Moved(b, move)[t].Connecting? ::
              t in b.calls && (b.calls[t].Connecting? ==> move.StartCommits?)
  {
  }

  ghost predicate KeepsUp(b: Boot, b': Boot, t: nat) {
    UpFor(b, t) ==> UpFor(b', t)
  }

  lemma {:induction false} UpStays(states: seq<Boot>, c: nat, i: nat, t: nat)
    requires c <= i < |states| && UpFor(states[c], t)
    requires forall k | c <= k < i :: KeepsUp(states[k], states[k + 1], t)
    ensures UpFor(states[i], t)
    decreases i
  {
    if i == c {
    } else {
      UpStays(states, c, i - 1, t);
      assert KeepsUp(states[i - 1], states[i], t);
    }
  }

  /** From a state in which the Start t is not under way, as long as no other is let in under it. */
  lemma UpThroughout(states: seq<Boot>, events: seq<Event>, c: nat, i: nat, t: nat)
    requires Execution(states, events) && c <= i < |states| && t !in states[c].calls
    requires forall k | c <= k < i :: CalmFor(states[k], events[k], t)
    ensures UpFor(states[i], t)
  {
    forall k | c <= k < i
      ensures KeepsUp(states[k], states[k + 1], t)
    {
      StepAt(states, events, k);
      if UpFor(states[k], t) {
        StepKeepsUp(states[k], events[k], states[k + 1], t);
      }
    }
    UpStays(states, c, i, t);
  }

  ghost predicate Detaches(e: Event) {
    e.Subs? && e.step.Detaches?
  }

  predicate Restores(e: Event) {
    e.Subs? && e.step.Restores?
  }

  /** The step tries to make every registration active: an activation of all, or a restore. */
  predicate TriesAll(e: Event) {
    e.StartActivates? || Restores(e)
  }

  /** The try returned nil. */
  ghost predicate ReturnedNil(b: Boot, e: Event)
    requires TriesAll(e)
  {
    if e.StartActivates? then ActivationFailures(Entries(b), e.out, Entries(b).Keys) == {}
    else R.RestoreReturnsNil(b.subs.st, e.step.outcomes, e.step.batch, e.step.recreated)
  }

  /** Event m is the last try before state j. */
  ghost predicate LastTry(events: seq<Event>, m: nat, j: nat) {
    m < j <= |events| && TriesAll(events[m]) && forall k | m < k < j :: !TriesAll(events[k])
  }

  /** The Start call t, under way some time after state c, activates at event a and has not returned at state j.
      Since then nothing is detached, and no other Start was let into the session under this one. */
  ghost predicate Finishing(states: seq<Boot>, events: seq<Event>, c: nat, a: nat, j: nat, t: nat) {
    && Execution(states, events) && c < a < j < |states|
    && t !in states[c].calls && events[a].StartActivates? && events[a].t == t
    && (forall k | a < k <= j :: t in states[k].calls && states[k].calls[t].Activated?)
    && (forall k | c <= k < j :: CalmFor(states[k], events[k], t))
    && (forall k | a < k < j :: !Detaches(events[k]))
  }

  /** The step changes what has been told by the result of a try only. */
  ghost predicate Tells(b: Boot, e: Event, b': Boot) {
    b'.complete <==> if TriesAll(e) then ReturnedNil(b, e) else b.complete
  }

  lemma TryStep(b: Boot, e: Event, b': Boot)
    requires Step(b, e, b') && !Detaches(e) && !Session.DefersActivation(b.sess.core.health.state)
    ensures Tells(b, e, b')
  {
  }

  lemma FinishingTells(states: seq<Boot>, events: seq<Event>, c: nat, a: nat, j: nat, t: nat, k: nat)
    requires Finishing(states, events, c, a, j, t) && a <= k < j
    ensures Tells(states[k], events[k], states[k + 1])
  {
    UpThroughout(states, events, c, k, t);
    assert Step(states[k], events[k], states[k + 1]);
    TryStep(states[k], events[k], states[k + 1]);
  }

  lemma {:induction false} CompleteIsLastTry(states: seq<Boot>, events: seq<Event>, m: nat, j: nat)
    requires LastTry(events, m, j) && |events| < |states|
    requires forall k | m <= k < j :: Tells(states[k], events[k], states[k + 1])
    ensures states[j].complete <==> ReturnedNil(states[m], events[m])
    decreases j
  {
    assert Tells(states[j - 1], events[j - 1], states[j]);
    if j == m + 1 {
    } else {
      CompleteIsLastTry(states, events, m, j - 1);
    }
  }

  lemma StepAt(states: seq<Boot>, events: seq<Event>, k: nat)
    requires Execution(states, events) && k < |events|
    ensures Inv(states[k]) && Step(states[k], events[k], states[k + 1])
  {
    ExecutionKeeps(states, events, k);
  }

  // ---------- when callbacks run ----------

  /** The step shuts callbacks off: a closing call does, and an activation that leaves something inactive. */
  ghost predicate ShutsOff(e: Event, b': Boot) {
    e.Shuts? || (e.StartActivates? && !AllActive(Entries(b')))
  }

  ghost predicate GateMoves(b: Boot, e: Event, b': Boot) {
    && b'.open == (e.StartReturns? || (b.open && !ShutsOff(e, b')))
    && (e.ReconnectSeen? ==> b.open)
    && b'.reconnects == b.reconnects + (if e.ReconnectSeen? then 1 else 0) - (if Restores(e) then 1 else 0)
  }

  lemma GateStep(b: Boot, e: Event, b': Boot)
    requires Inv(b) && Step(b, e, b')
    ensures GateMoves(b, e, b')
  {
    if e.StartActivates? {
      ActivationTells(b, e, b');
    }
  }

  /** Event k lets callbacks run, and none after it and before state i shuts them off. */
  ghost predicate OpenedAt(states: seq<Boot>, events: seq<Event>, k: nat, i: nat) {
    && k < i < |states| <= |events| + 1 && events[k].StartReturns?
    && forall n | k < n < i :: !ShutsOff(events[n], states[n + 1])
  }

  lemma {:induction false} OpenHistory(states: seq<Boot>, events: seq<Event>, i: nat)
    requires i < |states| <= |events| + 1 && !states[0].open
    requires forall k | 0 <= k < i :: GateMoves(states[k], events[k], states[k + 1])
    ensures states[i].open <==> exists k: nat :: OpenedAt(states, events, k, i)
  {
    if i > 0 {
      OpenHistory(states, events, i - 1);
      assert GateMoves(states[i - 1], events[i - 1], states[i]);
      if states[i].open {
        if events[i - 1].StartReturns? {
          assert OpenedAt(states, events, i - 1, i);
        } else {
          var k: nat :| OpenedAt(states, events, k, i - 1);
          assert OpenedAt(states, events, k, i);
        }
      }
      if k: nat :| OpenedAt(states, events, k, i) {
        if k < i - 1 {
          assert OpenedAt(states, events, k, i - 1);
        }
      }
    }
  }

  /** In every run callbacks are enabled iff a Start has returned nil and since then no closing call has begun and
      no activation has failed. */
  lemma OpenIff(states: seq<Boot>, events: seq<Event>, i: nat)
    requires Execution(states, events) && i < |states|
    ensures states[i].open <==> exists k: nat :: OpenedAt(states, events, k, i)
  {
    forall k | 0 <= k < i
      ensures GateMoves(states[k], events[k], states[k + 1])
    {
      StepAt(states, events, k);
      GateStep(states[k], events[k], states[k + 1]);
    }
    OpenHistory(states, events, i);
  }

  /** How many of the first i events are reconnects that found callbacks enabled, less the restores. */
  function Owed(events: seq<Event>, i: nat): int
    requires i <= |events|
  {
    if i == 0 then 0
    else
      var e := events[i - 1];
      Owed(events, i - 1) + (if e.ReconnectSeen? then 1 else 0) - (if Restores(e) then 1 else 0)
  }

  lemma {:induction false} OwedHistory(states: seq<Boot>, events: seq<Event>, i: nat)
    requires i < |states| == |events| + 1 && states[0].reconnects == 0
    requires forall k | 0 <= k < i :: GateMoves(states[k], events[k], states[k + 1])
    ensures states[i].reconnects == Owed(events, i)
  {
    if i > 0 {
      OwedHistory(states, events, i - 1);
      assert GateMoves(states[i - 1], events[i - 1], states[i]);
    }
  }

  /** In every run each restore answers a reconnect of its own, one that found callbacks enabled. */
  lemma RestoresAnswerReconnects(states: seq<Boot>, events: seq<Event>, i: nat)
    requires Execution(states, events) && i < |states|
    ensures Owed(events, i) >= 0
    ensures i < |events| && events[i].ReconnectSeen? ==> exists k: nat :: OpenedAt(states, events, k, i)
  {
    forall k | 0 <= k < i
      ensures GateMoves(states[k], events[k], states[k + 1])
    {
      StepAt(states, events, k);
      GateStep(states[k], events[k], states[k + 1]);
    }
    OwedHistory(states, events, i);
    OpenHistory(states, events, i);
    if i < |events| {
      StepAt(states, events, i);
      GateStep(states[i], events[i], states[i + 1]);
    }
  }

  ghost predicate Listed(b: Boot, id: RegId, intent: Intent) {
    id in Entries(b) && Entries(b)[id].intent == intent
  }

  lemma StepKeepsIntent(states: seq<Boot>, events: seq<Event>, k: nat, id: RegId, intent: Intent)
    requires Execution(states, events) && k < |events| && Listed(states[k], id, intent)
    ensures Listed(states[k + 1], id, intent)
  {
    StepAt(states, events, k);
    IntentStays(states[k], events[k], states[k + 1], id);
  }

  ghost predicate KeepsListed(b: Boot, b': Boot, id: RegId, intent: Intent) {
    Listed(b, id, intent) ==> Listed(b', id, intent)
  }

  lemma {:induction false} ListedStays(states: seq<Boot>, i: nat, j: nat, id: RegId, intent: Intent)
    requires i <= j < |states| && Listed(states[i], id, intent)
    requires forall k | i <= k < j :: KeepsListed(states[k], states[k + 1], id, intent)
    ensures Listed(states[j], id, intent)
    decreases j
  {
    if i == j {
    } else {
      ListedStays(states, i, j - 1, id, intent);
      assert KeepsListed(states[j - 1], states[j], id, intent);
    }
  }

  /** A registration on the table stays there: only its own failure takes one out again. */
  lemma RegistrationsStay(states: seq<Boot>, events: seq<Event>, i: nat, j: nat, id: RegId, intent: Intent)
    requires Execution(states, events) && i <= j < |states| && Listed(states[i], id, intent)
    ensures Listed(states[j], id, intent)
  {
    forall k | i <= k < j
      ensures KeepsListed(states[k], states[k + 1], id, intent)
    {
      if Listed(states[k], id, intent) {
        StepKeepsIntent(states, events, k, id, intent);
      }
    }
    ListedStays(states, i, j, id, intent);
  }

  lemma IntentStays(b: Boot, e: Event, b': Boot, id: RegId)
    requires Sound(b.subs.st) && Step(b, e, b') && id in Entries(b)
    ensures id in Entries(b') && Entries(b')[id].intent == Entries(b)[id].intent
    ensures !Detaches(e) && !Restores(e) && Entries(b)[id].activeSub.Some? ==>
              Entries(b')[id].activeSub == Entries(b)[id].activeSub
  {
    match e {
      case StartActivates(_, out, created) =>
        ActivatedEntry(b.subs.st, b'.subs.st, out, created, id);
        assert Filed(Entries(b)[id], id, b.subs.st.table);
      case Subs(step) => IntentStaysInSection(b.subs, step, b'.subs, id);
      case _ =>
    }
  }

  lemma IntentStaysInSection(s: R.Sys, step: R.Event, s': R.Sys, id: RegId)
    requires Sound(s.st) && R.Step(s, step, s') && !step.ActivatesAll? && id in s.st.table.entries
    ensures id in s'.st.table.entries && s'.st.table.entries[id].intent == s.st.table.entries[id].intent
    ensures !step.Detaches? && !step.Restores? ==> s'.st.table.entries[id] == s.st.table.entries[id]
  {
    match step {
      case Registers(spec, state, o, r) =>
        R.RegistrationIsTransactional(s.st, s'.st, spec, state, o, r);
        assert r.Ok? ==> id in s'.st.table.entries - {r.value};
      case Restores(out, batch, created) => R.RestoreExits(s.st, s'.st, out, batch, created);
      case _ =>
    }
  }

  /** No lost activation. Until a Start that has activated all registrations returns, with nothing detached
      meanwhile, all registrations are active if and only if the last activation or restore since then, its
      own included, returned nil. */
  lemma NoLostActivation(states: seq<Boot>, events: seq<Event>, c: nat, a: nat, m: nat, j: nat, t: nat)
    requires Finishing(states, events, c, a, j, t) && a <= m && LastTry(events, m, j)
    ensures AllActive(Entries(states[j])) <==> ReturnedNil(states[m], events[m])
  {
    forall k | m <= k < j
      ensures Tells(states[k], events[k], states[k + 1])
    {
      FinishingTells(states, events, c, a, j, t, k);
    }
    CompleteIsLastTry(states, events, m, j);
    ExecutionKeeps(states, events, j);
  }

  /** Active means subscribed: at any time an active registration holds a live subscription on its own
      subject, queue group and callback. */
  lemma ActiveMeansLive(states: seq<Boot>, events: seq<Event>, i: nat, id: RegId)
    requires Execution(states, events) && i < |states| && id in Entries(states[i]) && Entries(states[i])[id].active
    ensures var rec, live := Entries(states[i])[id], states[i].subs.st.live;
            && rec.activeSub.Some? && rec.activeSub.value in live
            && OnWire(live[rec.activeSub.value], rec.intent.subject, rec.intent.queueGroup, rec.intent.callback)
  {
    ExecutionKeeps(states, events, i);
    WireOfIntent(Entries(states[i])[id].intent);
    assert Filed(Entries(states[i])[id], id, states[i].subs.st.table);
  }

  lemma RegisteredIsListed(states: seq<Boot>, events: seq<Event>, k: nat)
    requires Execution(states, events) && k < |events|
    requires events[k].Subs? && events[k].step.Registers? && events[k].step.r.Ok?
    ensures events[k].step.r.value in Entries(states[k + 1])
  {
    ExecutionKeeps(states, events, k);
    assert Step(states[k], events[k], states[k + 1]);
    var step := events[k].step;
    R.RegistrationIsTransactional(states[k].subs.st, states[k + 1].subs.st, step.spec, step.state, step.o, step.r);
  }

  /** A registration that returned nil, whenever it ran, is on the table from then on. */
  lemma NilRegistrationsStay(states: seq<Boot>, events: seq<Event>, k: nat, j: nat)
    requires Execution(states, events) && k < j < |states|
    requires events[k].Subs? && events[k].step.Registers? && events[k].step.r.Ok?
    ensures events[k].step.r.value in Entries(states[j])
  {
    RegisteredIsListed(states, events, k);
    var id := events[k].step.r.value;
    RegistrationsStay(states, events, k + 1, j, id, Entries(states[k + 1])[id].intent);
  }

  /** Subscribed once. As long as nothing is restored or detached, a registration that holds a handle keeps
      it, so it is given at most one. */
  lemma {:induction false} HandlesAreKept(states: seq<Boot>, events: seq<Event>, i: nat, j: nat, id: RegId)
    requires Execution(states, events) && i <= j < |states| && id in Entries(states[i])
    requires forall k | i <= k < j :: !Detaches(events[k]) && !Restores(events[k])
    requires Entries(states[i])[id].activeSub.Some?
    ensures id in Entries(states[j]) && Entries(states[j])[id].activeSub == Entries(states[i])[id].activeSub
    decreases j
  {
    if i == j {
    } else {
      HandlesAreKept(states, events, i, j - 1, id);
      StepAt(states, events, j - 1);
      IntentStays(states[j - 1], events[j - 1], states[j], id);
    }
  }

  /** A repeated Start on a fully active client subscribes nothing and changes no handle. */
  lemma RepeatedActivationIsIdle(st: State, st': State, out: RegId -> Outcome, created: map<RegId, SubId>)
    requires Sound(st) && ActivatedAll(st, st', out, created)
    requires forall id | id in st.table.entries :: st.table.entries[id].active
    ensures created == map[] && st'.table == st.table && st'.live == st.live
    ensures ActivationFailures(st.table.entries, out, st.table.entries.Keys) == {}
  {
    assert forall id :: id !in created;
    forall id | id in st.table.entries
      ensures st'.table.entries[id] == st.table.entries[id]
    {
      ActivatedEntry(st, st', out, created, id);
    }
    assert st'.table.entries == st.table.entries;
    assert st'.live.Keys == st.live.Keys by {
      forall x | x in st'.live
        ensures x in st.live
      {
        assert !Names(created, x);
      }
    }
  }
}

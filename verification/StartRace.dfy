/** A concrete run of the client in which a second Start returns nil although a registration is inactive:
    a reconnect restore fails between its activation and its return (agentcore/client.go). */
module StartRace {
  import opened Common
  import opened Registry
  import opened Subscriptions
  import opened StartRuns
  import R = SubscriptionRuns
  import S = SessionRuns
  import Session

  /** A state that some run reaches. */
  ghost predicate Reachable(b: Boot) {
    exists states, events :: Execution(states, events) && states[|events|] == b
  }

  lemma StartsReachable()
    ensures Reachable(Init(false))
  {
    assert Execution([Init(false)], []);
  }

  lemma OneMore(b: Boot, e: Event, b': Boot)
    requires Reachable(b) && Step(b, e, b')
    ensures Reachable(b')
  {
    var states, events :| Execution(states, events) && states[|events|] == b;
    var states', events' := states + [b'], events + [e];
    forall i | 0 <= i < |events'|
      ensures Step(states'[i], events'[i], states'[i + 1])
    {
      assert i < |events| ==> Step(states[i], events[i], states[i + 1]);
    }
    assert Execution(states', events') && states'[|events'|] == b';
  }

  // ---------- the first Start ----------

  lemma SessionDialed() returns (b: Boot)
    ensures Reachable(b)
    ensures b == Init(false).(sess := b.sess, calls := map[0 := Connecting])
    ensures b.sess.links == [Session.LinkUp] && b.sess.starts == map[0 := S.StartCall(0, S.Holding(0))]
    ensures b.sess.closes == [0]
    ensures !b.sess.core.closing && !b.sess.core.closeRequested && !b.sess.core.retryOnFailedConnect
    ensures b.sess.core.startDone == Some(0)
  {
    var b0 := Init(false);
    StartsReachable();
    var b1 := b0.(sess := S.Next(b0.sess, S.StartBegins(0)), calls := map[0 := Connecting]);
    OneMore(b0, StartCalls(0), b1);
    b := b1.(sess := S.Next(b1.sess, S.DialOk(0)));
    OneMore(b1, SessionMoves(S.DialOk(0)), b);
  }

  lemma SessionComesUp() returns (b: Boot)
    ensures Reachable(b)
    ensures b == Init(false).(sess := b.sess, calls := map[0 := Committed])
    ensures b.sess.core.nc == Some(0) && b.sess.core.health.state.Connected? && b.sess.links == [Session.LinkUp]
    ensures b.sess.starts == map[0 := S.StartCall(0, S.Exiting)] && b.sess.closes == [0]
    ensures !b.sess.core.closing && !b.sess.core.closeRequested && !b.sess.core.retryOnFailedConnect
    ensures b.sess.core.startDone == Some(0)
  {
    var b0 := SessionDialed();
    b := b0.(sess := S.Next(b0.sess, S.StartCommits(0, "")), calls := map[0 := Committed]);
    OneMore(b0, SessionMoves(S.StartCommits(0, "")), b);
  }

  lemma IdleActivation(st: State, out: RegId -> Outcome)
    requires forall id | id in st.table.entries :: st.table.entries[id].active
    ensures ActivatedAll(st, st, out, map[]) && ActivationFailures(st.table.entries, out, st.table.entries.Keys) == {}
  {
    assert ActivatedEntries(st.table.entries, out, map[], st.table.entries.Keys) == st.table.entries;
  }

  /** An activation that finds nothing to do. */
  lemma ActivatesIdly(b: Boot, t: nat) returns (b': Boot)
    requires Reachable(b) && t in b.calls && b.calls[t].SessionUp? && AllActive(Entries(b))
    ensures Reachable(b') && b' == b.(complete := true, calls := b.calls[t := Activated])
  {
    var out: RegId -> Outcome := id => Succeeds;
    IdleActivation(b.subs.st, out);
    b' := b.(complete := true, calls := b.calls[t := Activated]);
    assert SubsStep(b, R.ActivatesAll(out, map[]), b');
    OneMore(b, StartActivates(t, out, map[]), b');
  }

  /** The session is up and no call is in flight. */
  ghost predicate Up(b: Boot) {
    && b.sess.core.nc == Some(0) && b.sess.core.health.state.Connected? && b.sess.links == [Session.LinkUp]
    && b.sess.starts == map[] && !b.sess.core.starting && !b.sess.core.closing && !b.sess.core.retryOnFailedConnect
  }

  lemma ClientStarted() returns (b: Boot)
    ensures Reachable(b) && Up(b)
    ensures b.subs == Init(false).subs && b.calls == map[] && b.open && b.complete && b.reconnects == 0
  {
    var b0 := SessionComesUp();
    var b1 := b0.(sess := S.Next(b0.sess, S.StartExits(0)), calls := map[0 := SessionUp]);
    OneMore(b0, SessionMoves(S.StartExits(0)), b1);
    var b2 := ActivatesIdly(b1, 0);
    b := b2.(calls := map[], open := true);
    OneMore(b2, StartReturns(0), b);
  }

  // ---------- a registration, a second Start, a failing restore ----------

  ghost predicate Registrable(spec: AddSpec) {
    CheckSpec(spec).None? && Failure(NewIntent(1, spec), true, Succeeds).None?
  }

  lemma RegistrationActive(spec: AddSpec) returns (b: Boot)
    requires Registrable(spec)
    ensures Reachable(b) && Up(b)
    ensures b.calls == map[] && b.open && b.reconnects == 0
    ensures Entries(b).Keys == {1} && Entries(b)[1].active
  {
    var b0 := ClientStarted();
    var i := NewIntent(1, spec);
    var st := b0.subs.st;
    var st' := State(SetActive(Insert(st.table, i).0, 1, Some(0)).0, map[0 := WireOf(i)], 1);
    assert RegisteredIntent(st, st', i, Session.Connected, Succeeds, Ok(1));
    assert Registered(st, st', spec, Session.Connected, Succeeds, Ok(1));
    b := b0.(subs := R.Sys(st', map[]));
    OneMore(b0, Subs(R.Registers(spec, Session.Connected, Succeeds, Ok(1))), b);
  }

  /** A Start on a client that is up comes back from the session at once. */
  lemma SecondStartCalls(b: Boot) returns (b': Boot)
    requires Reachable(b) && Up(b) && b.calls == map[]
    ensures Reachable(b') && b' == b.(calls := map[1 := SessionUp])
  {
    b' := b.(calls := map[1 := SessionUp]);
    OneMore(b, StartCalls(1), b');
  }

  lemma SecondStartActivated(spec: AddSpec) returns (b: Boot)
    requires Registrable(spec)
    ensures Reachable(b)
    ensures b.calls == map[1 := Activated] && b.reconnects == 1
    ensures Entries(b).Keys == {1} && Entries(b)[1].active
  {
    var b0 := RegistrationActive(spec);
    var b1 := b0.(reconnects := 1);
    OneMore(b0, ReconnectSeen, b1);
    var b2 := SecondStartCalls(b1);
    b := ActivatesIdly(b2, 1);
  }

  lemma FailingRestore(st: State, out: RegId -> Outcome) returns (st': State)
    requires st.table.entries != map[] && forall id :: out(id) == NotConnected
    ensures Restored(st, st', out, BatchFlushed, map[])
    ensures st'.table.entries.Keys == st.table.entries.Keys
    ensures forall id | id in st'.table.entries :: !st'.table.entries[id].active
    ensures !R.RestoreReturnsNil(st, out, BatchFlushed, map[])
  {
    var entries := st.table.entries;
    var all := entries.Keys;
    st' := State(st.table.(entries := SettledEntries(CreatingEntries(entries, out, map[], all), BatchFlushed, map[])),
                 Without(st.live, entries, all), st.nextSub);
    var id :| id in entries;
    assert id in RestoreFailures(entries, out, all);
  }

  /** Some run has a Start past its activation, about to return nil, while a registration is inactive: the
      condition of NoLostActivation on the last restore is needed. */
  lemma RestoreUndoesStart()
    ensures exists b, t, id ::
              Reachable(b) && t in b.calls && b.calls[t].Activated? && id in Entries(b) && !Entries(b)[id].active
  {
    var spec := AddSpec("configure", "t", "", "s", "", Some(0));
    assert Registrable(spec);
    var b := SecondStartActivated(spec);
    var out: RegId -> Outcome := id => NotConnected;
    var st' := FailingRestore(b.subs.st, out);
    var b' := b.(subs := R.Sys(st', b.subs.detached), complete := false, reconnects := 0);
    OneMore(b, Subs(R.Restores(out, BatchFlushed, map[])), b');
    assert b'.calls[1].Activated? && !Entries(b')[1].active;
  }
}

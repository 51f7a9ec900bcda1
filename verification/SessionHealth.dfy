/** When the health state may tell a registration to wait, and which steps change the stored connection,
    over the runs of the session manager (internal/session). */
module SessionHealth {
  import opened Common
  import opened Session
  import opened SessionRuns

  /** The step lets a Start call in. */
  predicate AdmitsStart(s: Sys, e: Event) {
    e.StartBegins? && BeginStart(s.core, CoreLink(s), |s.closes|).1.Admitted?
  }

  // ---------- steps ----------

  /** Only the commit of a Start puts a connection in, its own, and only the final section of Close takes it
      out. */
  ghost predicate ConnectionMoves(s: Sys, e: Event, s': Sys)
    requires Enabled(s, e)
  {
    var nc, nc' := s.core.nc, s'.core.nc;
    && (nc'.Some? && nc' != nc ==> e.StartCommits? && nc'.value == s.starts[e.t].at.conn && !s.core.closing)
    && (nc'.None? && nc.Some? ==> e.CloseFinishes?)
    && (e.CloseFinishes? ==> nc'.None?)
  }

  lemma StartMovesConnection(s: Sys, e: Event)
    requires Enabled(s, e) && IsStartEvent(e)
    ensures ConnectionMoves(s, e, NextStart(s, e))
  {
  }

  lemma CloseMovesConnection(s: Sys, e: Event)
    requires Enabled(s, e) && IsCloseEvent(e)
    ensures ConnectionMoves(s, e, NextClose(s, e))
  {
  }

  lemma OtherMovesConnection(s: Sys, e: Event)
    requires Enabled(s, e) && !IsStartEvent(e) && !IsCloseEvent(e)
    ensures ConnectionMoves(s, e, NextOther(s, e))
  {
  }

  /** Which steps touch the stored connection, in every state. */
  lemma ConnectionChanges(s: Sys, e: Event)
    requires Enabled(s, e)
    ensures ConnectionMoves(s, e, Next(s, e))
  {
    if IsStartEvent(e) {
      StartMovesConnection(s, e);
    } else if IsCloseEvent(e) {
      CloseMovesConnection(s, e);
    } else {
      OtherMovesConnection(s, e);
    }
  }

  /** Connecting is entered by an admitted Start and by nothing else, New by nothing at all; Connected is
      entered by the commit of a Start, or by a rebind of the stored connection. */
  ghost predicate StateMoves(s: Sys, e: Event, s': Sys)
    requires Enabled(s, e)
  {
    var state, state' := s.core.health.state, s'.core.health.state;
    && (AdmitsStart(s, e) ==> state'.Connecting?)
    && (state'.Connecting? && !state.Connecting? ==> AdmitsStart(s, e))
    && (state'.New? ==> state.New?)
    && (state'.Connected? && !state.Connected? ==>
          e.StartCommits? || (e.RebindCommits? && s.core.nc == Some(s.rebinds[e.r])))
  }

  lemma StartMovesState(s: Sys, e: Event)
    requires Enabled(s, e) && IsStartEvent(e)
    ensures StateMoves(s, e, NextStart(s, e))
  {
  }

  lemma CloseMovesState(s: Sys, e: Event)
    requires Enabled(s, e) && IsCloseEvent(e)
    ensures StateMoves(s, e, NextClose(s, e))
  {
  }

  lemma OtherMovesState(s: Sys, e: Event)
    requires Enabled(s, e) && !IsStartEvent(e) && !IsCloseEvent(e)
    ensures StateMoves(s, e, NextOther(s, e))
  {
  }

  /** Which steps touch the health state, in every state. */
  lemma StateChanges(s: Sys, e: Event)
    requires Enabled(s, e)
    ensures StateMoves(s, e, Next(s, e))
  {
    if IsStartEvent(e) {
      StartMovesState(s, e);
    } else if IsCloseEvent(e) {
      CloseMovesState(s, e);
    } else {
      OtherMovesState(s, e);
    }
  }

  lemma UpStaysUp(s: Sys, e: Event)
    requires Enabled(s, e) && !DefersActivation(s.core.health.state) && !AdmitsStart(s, e)
    ensures !DefersActivation(Next(s, e).core.health.state)
  {
    StateChanges(s, e);
  }

  // ---------- what a Start that returns nil can rely on ----------

  predicate BeforeVerdict(at: StartAt) {
    at.Dialing? || at.Holding? || at.Failing?
  }

  /** Connecting belongs to a Start call that has neither failed nor committed; New to a manager that never
      had a connection. */
  ghost predicate StateFits(s: Sys) {
    && (s.core.health.state.Connecting? ==> exists t :: t in s.starts && BeforeVerdict(s.starts[t].at))
    && (s.core.health.state.New? ==> s.core.nc.None?)
  }

  lemma StartStepKeepsStateFits(s: Sys, e: Event)
    requires Inv(s) && StateFits(s) && Enabled(s, e) && IsStartEvent(e)
    ensures StateFits(Next(s, e))
  {
    var s' := Next(s, e);
    if e.StartBegins? {
      if AdmitsStart(s, e) {
        assert BeforeVerdict(s'.starts[e.t].at);
      }
    } else if s'.core.health.state.Connecting? {
      assert e.t in s.starts && BeforeVerdict(s.starts[e.t].at);
      assert e.t in s'.starts && BeforeVerdict(s'.starts[e.t].at);
    }
  }

  lemma StepKeepsStateFits(s: Sys, e: Event)
    requires Inv(s) && StateFits(s) && Enabled(s, e)
    ensures StateFits(Next(s, e))
  {
    if IsStartEvent(e) {
      StartStepKeepsStateFits(s, e);
    } else {
      assert Next(s, e).starts == s.starts;
      StateChanges(s, e);
    }
  }

  /** A Start that finds a connection it can keep, and so returns nil at once, finds the session up. */
  lemma KeptConnectionIsUp(s: Sys, t: nat)
    requires Inv(s) && StateFits(s) && BeginStart(s.core, CoreLink(s), |s.closes|).1.AlreadyConnected?
    ensures !DefersActivation(s.core.health.state)
  {
  }
}

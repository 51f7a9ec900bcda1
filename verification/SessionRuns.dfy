/** Runs of the session manager: any number of Start and Close calls, reconnect goroutines and
    connection callbacks interleaved at their locked sections, over nondeterministic dial, setup, drain
    and link outcomes. */
module SessionRuns {
  import opened Common
  import opened Session

  // ---------- states ----------

  /** Where an admitted Start call is. Before it ends it holds the channel it created. */
  datatype StartAt = Dialing | Holding(conn: ConnId) | Failing | Discarding(conn: ConnId) | Exiting

  datatype StartCall = StartCall(ch: ChanId, at: StartAt)

  /** Where a Close call is that did not return from its first section. */
  datatype CloseAt = Waiting(ch: ChanId) | GivingUp | Rereading | AtDrain(conn: Option<ConnId>)
      | AtFinish(conn: Option<ConnId>, err: Option<string>)

  /** links is indexed by connection and holds every connection ever opened; closes counts, per channel,
      how often it was closed; lateDials counts dials whose Start has left; late holds the connections
      such dials produced, until they are closed; closer is the Close call that last set the flag. */
  datatype Sys = Sys(core: Core, starts: map<nat, StartCall>, calls: map<nat, CloseAt>, rebinds: map<nat, ConnId>,
                     links: seq<Link>, closes: seq<nat>, lateDials: nat, late: set<ConnId>, closer: Option<nat>)

  datatype Event =
    | StartBegins(t: nat)
    | DialOk(t: nat) | DialFails(t: nat) | DialCanceled(t: nat)
    | SetupFails(t: nat)
    | StartDegrades(t: nat, err: string)
    | StartCommits(t: nat, url: string)
    | StartDiscards(t: nat)
    | StartExits(t: nat)
    | LateDialOk | LateDialFails | LateClosed(conn: ConnId)
    | CloseBegins(t: nat)
    | CloseWakes(t: nat) | CloseGivesUp(t: nat) | CloseDegrades(t: nat, err: string)
    | CloseRereads(t: nat)
    | CloseDrains(t: nat, outcome: Option<string>)
    | CloseFinishes(t: nat)
    | Disconnected(cause: Option<string>)
    | Reconnected(r: nat, conn: ConnId) | RebindFails(r: nat, err: string) | RebindCommits(r: nat, url: string)
    | ConnectionClosedFires
    | LinkMoves(conn: ConnId, link: Link)

  function Init(retry: bool): Sys {
    Sys(Initial(retry), map[], map[], map[], [], [], 0, {}, None)
  }

  function CoreLink(s: Sys): Link {
    if s.core.nc.Some? && s.core.nc.value < |s.links| then s.links[s.core.nc.value] else LinkClosed
  }

  predicate StartIs(s: Sys, t: nat, at: StartAt) {
    t in s.starts && s.starts[t].at == at
  }

  predicate Enabled(s: Sys, e: Event) {
    match e
    case StartBegins(t) => t !in s.starts
    case DialOk(t) => StartIs(s, t, Dialing)
    case DialFails(t) => StartIs(s, t, Dialing)
    case DialCanceled(t) => StartIs(s, t, Dialing)
    case SetupFails(t) => t in s.starts && s.starts[t].at.Holding? && s.starts[t].at.conn < |s.links|
    case StartDegrades(t, _) => StartIs(s, t, Failing)
    case StartCommits(t, _) => t in s.starts && s.starts[t].at.Holding?
    case StartDiscards(t) => t in s.starts && s.starts[t].at.Discarding? && s.starts[t].at.conn < |s.links|
    case StartExits(t) => StartIs(s, t, Exiting) && s.starts[t].ch < |s.closes|
    case LateDialOk => s.lateDials > 0
    case LateDialFails => s.lateDials > 0
    case LateClosed(c) => c in s.late && c < |s.links|
    case CloseBegins(t) => t !in s.calls
    case CloseWakes(t) => t in s.calls && s.calls[t].Waiting? && s.calls[t].ch < |s.closes|
        && s.closes[s.calls[t].ch] > 0
    case CloseGivesUp(t) => t in s.calls && s.calls[t].Waiting?
    case CloseDegrades(t, _) => t in s.calls && s.calls[t].GivingUp?
    case CloseRereads(t) => t in s.calls && s.calls[t].Rereading?
    case CloseDrains(t, err) => t in s.calls && s.calls[t].AtDrain? &&
        (if s.calls[t].conn.Some? then s.calls[t].conn.value < |s.links| else err.None?)
    case CloseFinishes(t) => t in s.calls && s.calls[t].AtFinish?
    case Disconnected(_) => true
    case Reconnected(r, c) => r !in s.rebinds && c < |s.links|
    case RebindFails(r, _) => r in s.rebinds
    case RebindCommits(r, _) => r in s.rebinds
    case ConnectionClosedFires => true
    case LinkMoves(c, link) => c < |s.links| && LinkCanMove(s.links[c], link)
  }

  /** A connection goes up and down on its own, may be closed at any time, and never leaves closed. */
  predicate LinkCanMove(from: Link, to: Link) {
    match from
    case LinkClosed => false
    case LinkDraining => to == LinkClosed
    case _ => to != LinkDraining
  }

  /** A connection is closed when its drain fails or times out, and otherwise left draining. */
  function DrainedLink(link: Link, err: Option<string>): Link {
    if err.Some? || link.LinkClosed? then LinkClosed else LinkDraining
  }

  function MoveStart(s: Sys, t: nat, at: StartAt): Sys
    requires t in s.starts
  {
    s.(starts := s.starts[t := s.starts[t].(at := at)])
  }

  function CloseLink(s: Sys, c: ConnId): Sys
    requires c < |s.links|
  {
    s.(links := s.links[c := LinkClosed])
  }

  function NextStart(s: Sys, e: Event): Sys
    requires Enabled(s, e)
  {
    match e
    case StartBegins(t) =>
      var ch := |s.closes|;
      var (core, verdict) := BeginStart(s.core, CoreLink(s), ch);
      if verdict.Admitted? then
        s.(core := core, starts := s.starts[t := StartCall(ch, Dialing)], closes := s.closes + [0])
      else s
    case DialOk(t) => MoveStart(s.(links := s.links + [LinkUp]), t, Holding(|s.links|))
    case DialFails(t) => MoveStart(s, t, Failing)
    case DialCanceled(t) => MoveStart(s.(lateDials := s.lateDials + 1), t, Failing)
    case SetupFails(t) => MoveStart(CloseLink(s, s.starts[t].at.conn), t, Failing)
    case StartDegrades(t, err) => MoveStart(s.(core := Degrade(s.core, Some(err))), t, Exiting)
    case StartCommits(t, url) =>
      var conn := s.starts[t].at.conn;
      var (core, installed) := CommitStart(s.core, conn, url);
      MoveStart(s.(core := core), t, if installed then Exiting else Discarding(conn))
    case StartDiscards(t) => MoveStart(CloseLink(s, s.starts[t].at.conn), t, Exiting)
    case StartExits(t) =>
      var ch := s.starts[t].ch;
      var (core, wakes) := ExitStart(s.core, ch);
      s.(core := core, starts := s.starts - {t},
         closes := if wakes then s.closes[ch := s.closes[ch] + 1] else s.closes)
    case _ => s
  }

  function NextClose(s: Sys, e: Event): Sys
    requires Enabled(s, e)
  {
    match e
    case CloseBegins(t) =>
      var (core, verdict) := BeginClose(s.core);
      (match verdict
       case CloseInProgress => s
       case NothingOpen => s.(core := core)
       case WaitForStart(ch) => s.(core := core, calls := s.calls[t := Waiting(ch)], closer := Some(t))
       case DrainNow(c) => s.(core := core, calls := s.calls[t := AtDrain(Some(c))], closer := Some(t)))
    case CloseWakes(t) => s.(calls := s.calls[t := Rereading])
    case CloseGivesUp(t) => s.(calls := s.calls[t := GivingUp])
    case CloseDegrades(t, err) => s.(core := Degrade(s.core, Some(err)), calls := s.calls - {t})
    case CloseRereads(t) => s.(calls := s.calls[t := AtDrain(s.core.nc)])
    case CloseDrains(t, err) =>
      var conn := s.calls[t].conn;
      s.(calls := s.calls[t := AtFinish(conn, err)],
         links := if conn.None? then s.links else s.links[conn.value := DrainedLink(s.links[conn.value], err)])
    case CloseFinishes(t) => s.(core := FinishClose(s.core, s.calls[t].err), calls := s.calls - {t})
    case _ => s
  }

  function NextOther(s: Sys, e: Event): Sys
    requires Enabled(s, e)
  {
    match e
    case LateDialOk => s.(lateDials := s.lateDials - 1, links := s.links + [LinkUp], late := s.late + {|s.links|})
    case LateDialFails => s.(lateDials := s.lateDials - 1)
    case LateClosed(c) => CloseLink(s, c).(late := s.late - {c})
    case Disconnected(err) => s.(core := Disconnect(s.core, err).0)
    case Reconnected(r, c) => if s.core.closing then s else s.(rebinds := s.rebinds[r := c])
    case RebindFails(r, err) => s.(core := Degrade(s.core, Some(err)), rebinds := s.rebinds - {r})
    case RebindCommits(r, url) => s.(core := CommitRebind(s.core, s.rebinds[r], url).0, rebinds := s.rebinds - {r})
    case ConnectionClosedFires => s.(core := ConnectionClosed(s.core))
    case LinkMoves(c, link) => s.(links := s.links[c := link])
    case _ => s
  }

  predicate IsStartEvent(e: Event) {
    e.StartBegins? || e.DialOk? || e.DialFails? || e.DialCanceled? || e.SetupFails? || e.StartDegrades?
    || e.StartCommits? || e.StartDiscards? || e.StartExits?
  }

  predicate IsCloseEvent(e: Event) {
    e.CloseBegins? || e.CloseWakes? || e.CloseGivesUp? || e.CloseDegrades? || e.CloseRereads? || e.CloseDrains?
    || e.CloseFinishes?
  }

  function Next(s: Sys, e: Event): Sys
    requires Enabled(s, e)
  {
    if IsStartEvent(e) then NextStart(s, e)
    else if IsCloseEvent(e) then NextClose(s, e)
    else NextOther(s, e)
  }

  predicate Valid(s: Sys, es: seq<Event>)
    decreases |es|
  {
    es == [] || (Enabled(s, es[0]) && Valid(Next(s, es[0]), es[1..]))
  }

  function Run(s: Sys, es: seq<Event>): Sys
    requires Valid(s, es)
    decreases |es|
  {
    if es == [] then s else Run(Next(s, es[0]), es[1..])
  }

  // ---------- what holds in every run ----------

  predicate Alive(link: Link) {
    link.LinkUp? || link.LinkDown?
  }

  ghost predicate LiveConn(s: Sys, c: ConnId) {
    c < |s.links| && Alive(s.links[c])
  }

  /** The connection a Start call has opened and not yet handed over or closed. */
  predicate Holds(at: StartAt) {
    at.Holding? || at.Discarding?
  }

  ghost predicate HeldByStart(s: Sys, c: ConnId) {
    exists t :: t in s.starts && Holds(s.starts[t].at) && s.starts[t].at.conn == c
  }

  predicate Known(links: seq<Link>, c: Option<ConnId>) {
    c.Some? ==> c.value < |links|
  }

  /** The Close call that last set the closing flag is past its wait. */
  ghost predicate CloserWillFinish(closer: Option<nat>, calls: map<nat, CloseAt>) {
    closer.Some? && closer.value in calls && (calls[closer.value].AtDrain? || calls[closer.value].AtFinish?)
  }

  /** At most one Start call is admitted, it owns the start channel, and the flag says so. */
  ghost predicate OneStart(starting: bool, startDone: Option<ChanId>, starts: map<nat, StartCall>) {
    && (forall t | t in starts :: startDone == Some(starts[t].ch))
    && (forall t, u | t in starts && u in starts :: t == u)
    && (starting ==> starts.Keys != {})
  }

  /** No channel is closed twice, and the current start channel is still open. */
  ghost predicate ChannelsClosedOnce(startDone: Option<ChanId>, closes: seq<nat>) {
    && (forall ch | 0 <= ch < |closes| :: closes[ch] <= 1)
    && (startDone.Some? ==> startDone.value < |closes| && closes[startDone.value] == 0)
  }

  /** A Close call waits on the current start channel or on one already closed. */
  ghost predicate WaitersWillWake(startDone: Option<ChanId>, closes: seq<nat>, calls: map<nat, CloseAt>) {
    forall t | t in calls && calls[t].Waiting? ::
      calls[t].ch < |closes| && (startDone == Some(calls[t].ch) || closes[calls[t].ch] == 1)
  }

  /** No two owners share a connection. */
  ghost predicate ExclusiveOwners(nc: Option<ConnId>, links: seq<Link>, starts: map<nat, StartCall>,
                                  late: set<ConnId>) {
    && Known(links, nc)
    && (forall t | t in starts && Holds(starts[t].at) ::
          starts[t].at.conn < |links| && nc != Some(starts[t].at.conn) && starts[t].at.conn !in late)
    && (forall c | c in late :: c < |links| && nc != Some(c))
  }

  /** While a Start call is under way and has not installed its own, the stored connection is dead. */
  ghost predicate NothingToOverwrite(nc: Option<ConnId>, links: seq<Link>, starts: map<nat, StartCall>) {
    forall t | t in starts && !starts[t].at.Exiting? && nc.Some? :: nc.value < |links| && links[nc.value].LinkClosed?
  }

  /** What a Close call has drained is no longer live. */
  ghost predicate DrainedIsDead(links: seq<Link>, calls: map<nat, CloseAt>) {
    && (forall t | t in calls && calls[t].AtDrain? :: Known(links, calls[t].conn))
    && (forall t | t in calls && calls[t].AtFinish? ::
          Known(links, calls[t].conn) && (calls[t].conn.Some? ==> !Alive(links[calls[t].conn.value])))
  }

  ghost predicate Inv(s: Sys) {
    && Coherent(s.core)
    && OneStart(s.core.starting, s.core.startDone, s.starts)
    && ChannelsClosedOnce(s.core.startDone, s.closes)
    && WaitersWillWake(s.core.startDone, s.closes, s.calls)
    && (s.core.closing ==> s.core.starting || CloserWillFinish(s.closer, s.calls))
    && ExclusiveOwners(s.core.nc, s.links, s.starts, s.late)
    && NothingToOverwrite(s.core.nc, s.links, s.starts)
    && DrainedIsDead(s.links, s.calls)
  }

  /** Links only get worse for the invariant's purposes: none is forgotten or revived. */
  ghost predicate NoneRevived(links: seq<Link>, links': seq<Link>) {
    && |links| <= |links'|
    && (forall c | 0 <= c < |links| && !Alive(links[c]) :: !Alive(links'[c]))
    && (forall c | 0 <= c < |links| && links[c].LinkClosed? :: links'[c].LinkClosed?)
  }

  lemma LinksMayWorsen(nc: Option<ConnId>, links: seq<Link>, links': seq<Link>, starts: map<nat, StartCall>,
                       late: set<ConnId>, calls: map<nat, CloseAt>)
    requires NoneRevived(links, links')
    ensures ExclusiveOwners(nc, links, starts, late) ==> ExclusiveOwners(nc, links', starts, late)
    ensures NothingToOverwrite(nc, links, starts) ==> NothingToOverwrite(nc, links', starts)
    ensures DrainedIsDead(links, calls) ==> DrainedIsDead(links', calls)
  {
  }

  lemma StartBeginKeepsInv(s: Sys, e: Event)
    requires Inv(s) && Enabled(s, e) && e.StartBegins?
    ensures Inv(Next(s, e))
  {
  }

  lemma DialOkKeepsInv(s: Sys, e: Event)
    requires Inv(s) && Enabled(s, e) && e.DialOk?
    ensures Inv(Next(s, e))
  {
    LinksMayWorsen(s.core.nc, s.links, Next(s, e).links, s.starts, s.late, s.calls);
  }

  lemma StartMoveKeepsInv(s: Sys, e: Event)
    requires Inv(s) && Enabled(s, e) && (e.DialFails? || e.DialCanceled? || e.SetupFails?)
    ensures Inv(Next(s, e))
  {
    LinksMayWorsen(s.core.nc, s.links, Next(s, e).links, s.starts, s.late, s.calls);
  }

  lemma StartUnwindKeepsInv(s: Sys, e: Event)
    requires Inv(s) && Enabled(s, e) && (e.StartDegrades? || e.StartDiscards?)
    ensures Inv(Next(s, e))
  {
    LinksMayWorsen(s.core.nc, s.links, Next(s, e).links, s.starts, s.late, s.calls);
  }

  lemma StartCommitKeepsInv(s: Sys, e: Event)
    requires Inv(s) && Enabled(s, e) && e.StartCommits?
    ensures Inv(Next(s, e))
  {
  }

  lemma StartExitKeepsInv(s: Sys, e: Event)
    requires Inv(s) && Enabled(s, e) && e.StartExits?
    ensures Inv(Next(s, e))
  {
  }

  lemma CloseBeginKeepsInv(s: Sys, e: Event)
    requires Inv(s) && Enabled(s, e) && e.CloseBegins?
    ensures Inv(Next(s, e))
  {
  }

  lemma CloseWaitKeepsInv(s: Sys, e: Event)
    requires Inv(s) && Enabled(s, e) && (e.CloseWakes? || e.CloseGivesUp? || e.CloseDegrades?)
    ensures Inv(Next(s, e))
  {
  }

  lemma CloseRereadKeepsInv(s: Sys, e: Event)
    requires Inv(s) && Enabled(s, e) && e.CloseRereads?
    ensures Inv(Next(s, e))
  {
  }

  lemma CloseDrainKeepsInv(s: Sys, e: Event)
    requires Inv(s) && Enabled(s, e) && e.CloseDrains?
    ensures Inv(Next(s, e))
  {
    var s' := Next(s, e);
    var at := s'.calls[e.t];
    assert at.conn.Some? ==> !Alive(s'.links[at.conn.value]);
    LinksMayWorsen(s.core.nc, s.links, s'.links, s.starts, s.late, s.calls);
    DrainReachesFinish(s'.links, s.calls, e.t, at);
    assert WaitersWillWake(s.core.startDone, s.closes, s'.calls);
  }

  lemma DrainReachesFinish(links: seq<Link>, calls: map<nat, CloseAt>, t: nat, at: CloseAt)
    requires DrainedIsDead(links, calls) && at.AtFinish? && Known(links, at.conn)
    requires at.conn.Some? ==> !Alive(links[at.conn.value])
    ensures DrainedIsDead(links, calls[t := at])
  {
  }

  lemma CloseFinishKeepsInv(s: Sys, e: Event)
    requires Inv(s) && Enabled(s, e) && e.CloseFinishes?
    ensures Inv(Next(s, e))
  {
  }

  lemma LateDialKeepsInv(s: Sys, e: Event)
    requires Inv(s) && Enabled(s, e) && (e.LateDialOk? || e.LateDialFails? || e.LateClosed?)
    ensures Inv(Next(s, e))
  {
    LinksMayWorsen(s.core.nc, s.links, Next(s, e).links, s.starts, s.late, s.calls);
  }

  lemma CallbackKeepsInv(s: Sys, e: Event)
    requires Inv(s) && Enabled(s, e) && (e.Disconnected? || e.ConnectionClosedFires? || e.Reconnected?)
    ensures Inv(Next(s, e))
  {
  }

  lemma RebindKeepsInv(s: Sys, e: Event)
    requires Inv(s) && Enabled(s, e) && (e.RebindFails? || e.RebindCommits?)
    ensures Inv(Next(s, e))
  {
  }

  lemma LinkMoveKeepsInv(s: Sys, e: Event)
    requires Inv(s) && Enabled(s, e) && e.LinkMoves?
    ensures Inv(Next(s, e))
  {
    LinksMayWorsen(s.core.nc, s.links, Next(s, e).links, s.starts, s.late, s.calls);
  }

  lemma StartStepKeepsInv(s: Sys, e: Event)
    requires Inv(s) && Enabled(s, e) && IsStartEvent(e)
    ensures Inv(Next(s, e))
  {
    if e.StartBegins? {
      StartBeginKeepsInv(s, e);
    } else if e.DialOk? {
      DialOkKeepsInv(s, e);
    } else if e.DialFails? || e.DialCanceled? || e.SetupFails? {
      StartMoveKeepsInv(s, e);
    } else if e.StartDegrades? || e.StartDiscards? {
      StartUnwindKeepsInv(s, e);
    } else if e.StartCommits? {
      StartCommitKeepsInv(s, e);
    } else {
      StartExitKeepsInv(s, e);
    }
  }

  lemma CloseStepKeepsInv(s: Sys, e: Event)
    requires Inv(s) && Enabled(s, e) && IsCloseEvent(e)
    ensures Inv(Next(s, e))
  {
    if e.CloseBegins? {
      CloseBeginKeepsInv(s, e);
    } else if e.CloseWakes? || e.CloseGivesUp? || e.CloseDegrades? {
      CloseWaitKeepsInv(s, e);
    } else if e.CloseRereads? {
      CloseRereadKeepsInv(s, e);
    } else if e.CloseDrains? {
      CloseDrainKeepsInv(s, e);
    } else {
      CloseFinishKeepsInv(s, e);
    }
  }

  lemma OtherStepKeepsInv(s: Sys, e: Event)
    requires Inv(s) && Enabled(s, e) && !IsStartEvent(e) && !IsCloseEvent(e)
    ensures Inv(Next(s, e))
  {
    if e.LateDialOk? || e.LateDialFails? || e.LateClosed? {
      LateDialKeepsInv(s, e);
    } else if e.Disconnected? || e.ConnectionClosedFires? || e.Reconnected? {
      CallbackKeepsInv(s, e);
    } else if e.RebindFails? || e.RebindCommits? {
      RebindKeepsInv(s, e);
    } else {
      LinkMoveKeepsInv(s, e);
    }
  }

  lemma StepKeepsInv(s: Sys, e: Event)
    requires Inv(s) && Enabled(s, e)
    ensures Inv(Next(s, e))
  {
    if IsStartEvent(e) {
      StartStepKeepsInv(s, e);
    } else if IsCloseEvent(e) {
      CloseStepKeepsInv(s, e);
    } else {
      OtherStepKeepsInv(s, e);
    }
  }

  lemma {:induction false} RunKeepsInv(s: Sys, es: seq<Event>)
    requires Inv(s) && Valid(s, es)
    ensures Inv(Run(s, es))
    decreases |es|
  {
    if es == [] {
    } else {
      StepKeepsInv(s, es[0]);
      RunKeepsInv(Next(s, es[0]), es[1..]);
    }
  }

  // ---------- theorems about every run ----------

  /** Handle coherence. Whatever interleaves, stale rebinds included: the three handles are all absent
      or all built from the stored connection, Connected implies they are there and ready, and the two
      readiness flags agree. */
  lemma HandlesAreCoherent(retry: bool, es: seq<Event>)
    requires Valid(Init(retry), es)
    ensures var m := Run(Init(retry), es).core;
            && m.nc.Some? == m.js.Some? == m.kv.Some?
            && (m.nc.Some? ==> m.js.value.conn == m.nc.value && m.kv.value.js == m.js.value)
            && (m.health.state.Connected? ==> m.nc.Some? && m.health.jetStreamReady && m.health.kvReady)
            && m.health.jetStreamReady == m.health.kvReady
  {
    RunKeepsInv(Init(retry), es);
  }

  /** No lockout and no lost wake-up, as a safety statement over every interleaving. */
  lemma FlagsAndChannels(retry: bool, es: seq<Event>)
    requires Valid(Init(retry), es)
    ensures var s := Run(Init(retry), es);
            && s.core.closing == s.core.closeRequested
            && s.core.starting == s.core.startDone.Some?
            && (s.core.starting <==> s.starts.Keys != {})
            && (forall t, u | t in s.starts && u in s.starts :: t == u)
            && (s.core.closing ==> s.core.starting || CloserWillFinish(s.closer, s.calls))
            && (forall t | t in s.calls && s.calls[t].Waiting? ::
                  s.calls[t].ch < |s.closes|
                      && (s.core.startDone == Some(s.calls[t].ch) || s.closes[s.calls[t].ch] > 0))
            && (forall ch | 0 <= ch < |s.closes| :: s.closes[ch] <= 1)
  {
    RunKeepsInv(Init(retry), es);
  }

  // ---------- release: the calls in flight can always clear the flags ----------

  lemma RunCons(s: Sys, e: Event, es: seq<Event>)
    requires Enabled(s, e) && Valid(Next(s, e), es)
    ensures Valid(s, [e] + es) && Run(s, [e] + es) == Run(Next(s, e), es)
  {
    assert ([e] + es)[1..] == es;
  }

  predicate BeginsCall(e: Event) {
    e.StartBegins? || e.CloseBegins?
  }

  /** A step an admitted Start call can take on its own towards its deferred section. */
  function WayOut(t: nat, at: StartAt): Event {
    match at
    case Dialing => DialFails(t)
    case Holding(_) => SetupFails(t)
    case Failing => StartDegrades(t, "")
    case Discarding(_) => StartDiscards(t)
    case Exiting => StartExits(t)
  }

  function StepsLeft(at: StartAt): nat {
    match at
    case Dialing => 4
    case Holding(_) => 3
    case Failing => 2
    case Discarding(_) => 1
    case Exiting => 0
  }

  lemma {:induction false} StartReleases(s: Sys, t: nat) returns (es: seq<Event>)
    requires Inv(s) && t in s.starts
    ensures Valid(s, es) && forall e | e in es :: !BeginsCall(e)
    ensures var m := Run(s, es).core; !m.starting && !m.closing
    decreases StepsLeft(s.starts[t].at)
  {
    var at := s.starts[t].at;
    var e := WayOut(t, at);
    StepKeepsInv(s, e);
    var rest := [];
    if at.Exiting? {
    } else {
      rest := StartReleases(Next(s, e), t);
    }
    RunCons(s, e, rest);
    es := [e] + rest;
  }

  lemma CloserReleases(s: Sys, t: nat) returns (es: seq<Event>)
    requires Inv(s) && !s.core.starting && t in s.calls && (s.calls[t].AtDrain? || s.calls[t].AtFinish?)
    ensures Valid(s, es) && forall e | e in es :: !BeginsCall(e)
    ensures var m := Run(s, es).core; !m.starting && !m.closing
  {
    if s.calls[t].AtFinish? {
      es := [CloseFinishes(t)];
      RunCons(s, CloseFinishes(t), []);
    } else {
      var s1 := Next(s, CloseDrains(t, None));
      RunCons(s1, CloseFinishes(t), []);
      RunCons(s, CloseDrains(t, None), [CloseFinishes(t)]);
      es := [CloseDrains(t, None)] + [CloseFinishes(t)];
    }
  }

  /** No lockout. From every state a run can reach, the calls already in flight can by their own steps
      bring the manager to a point where no Start is admitted and the closing flag is down, whatever
      overlapping, canceled or failed calls came before. */
  lemma FlagsCanAlwaysClear(retry: bool, es: seq<Event>) returns (more: seq<Event>)
    requires Valid(Init(retry), es)
    ensures var s := Run(Init(retry), es);
            && Valid(s, more)
            && (forall e | e in more :: !BeginsCall(e))
            && !Run(s, more).core.starting && !Run(s, more).core.closing
  {
    RunKeepsInv(Init(retry), es);
    var s := Run(Init(retry), es);
    more := [];
    if s.core.starting {
      var t :| t in s.starts;
      more := StartReleases(s, t);
    } else if s.core.closing {
      more := CloserReleases(s, s.closer.value);
    }
  }

  // ---------- connection ownership ----------

  /** Every live connection is owned: by the manager, by a Start call that has not handed it over, or by
      the reaper of a dial whose Start has left. */
  ghost predicate Owned(s: Sys, c: ConnId) {
    s.core.nc == Some(c) || HeldByStart(s, c) || c in s.late
  }

  ghost predicate NothingLeaked(s: Sys) {
    forall c | 0 <= c < |s.links| && Alive(s.links[c]) :: Owned(s, c)
  }

  /** The manager holds a live connection. */
  ghost predicate HoldsLive(s: Sys) {
    s.core.nc.Some? && LiveConn(s, s.core.nc.value)
  }

  /** The step is the final section of a Close that finds the connection stored. */
  ghost predicate Erases(s: Sys, e: Event, c: ConnId) {
    e.CloseFinishes? && s.core.nc == Some(c)
  }

  lemma LiveWasLive(s: Sys, e: Event, c: ConnId)
    requires Enabled(s, e) && LiveConn(Next(s, e), c) && c < |s.links|
    ensures LiveConn(s, c)
  {
  }

  lemma StartStepKeepsOwner(s: Sys, e: Event, c: ConnId)
    requires Inv(s) && Enabled(s, e) && IsStartEvent(e) && LiveConn(Next(s, e), c)
    ensures Owned(Next(s, e), c) <==> c == |s.links| || Owned(s, c)
  {
    var s' := Next(s, e);
    if c == |s.links| {
      assert Holds(s'.starts[e.t].at) && s'.starts[e.t].at.conn == c;
    } else if t0 :| t0 in s.starts && Holds(s.starts[t0].at) && s.starts[t0].at.conn == c {
      assert s'.core.nc == Some(c) || (t0 in s'.starts && Holds(s'.starts[t0].at) && s'.starts[t0].at.conn == c);
    }
  }

  lemma CloseStepKeepsOwner(s: Sys, e: Event, c: ConnId)
    requires Inv(s) && Enabled(s, e) && IsCloseEvent(e) && LiveConn(Next(s, e), c)
    ensures c < |s.links| && (Owned(Next(s, e), c) <==> Owned(s, c) && !Erases(s, e, c))
  {
    var s' := Next(s, e);
    assert s'.starts == s.starts && s'.late == s.late;
  }

  lemma OtherStepKeepsOwner(s: Sys, e: Event, c: ConnId)
    requires Inv(s) && Enabled(s, e) && !IsStartEvent(e) && !IsCloseEvent(e) && LiveConn(Next(s, e), c)
    ensures Owned(Next(s, e), c) <==> c == |s.links| || Owned(s, c)
  {
    assert Next(s, e).starts == s.starts && Next(s, e).core.nc == s.core.nc;
  }

  /** Where ownership can be lost, connection by connection, whatever was lost before: a connection that is live
      after a step has no owner iff it had none before, or the step is the final section of a Close that finds
      it stored. */
  lemma OwnerIsLostIff(s: Sys, e: Event, c: ConnId)
    requires Inv(s) && Enabled(s, e) && LiveConn(Next(s, e), c)
    ensures !Owned(Next(s, e), c) <==> (c < |s.links| && !Owned(s, c)) || Erases(s, e, c)
  {
    if IsStartEvent(e) {
      StartStepKeepsOwner(s, e, c);
    } else if IsCloseEvent(e) {
      CloseStepKeepsOwner(s, e, c);
    } else {
      OtherStepKeepsOwner(s, e, c);
    }
  }

  /** Some step of the run erases the connection. */
  ghost predicate ErasedIn(s: Sys, es: seq<Event>, c: ConnId)
    requires Valid(s, es)
    decreases |es|
  {
    es != [] && (Erases(s, es[0], c) || ErasedIn(Next(s, es[0]), es[1..], c))
  }

  /** Over whole runs, gated or not: a connection that is live in the end has no owner iff it had none to begin
      with, or some Close erased it in its final section. */
  lemma {:induction false} LostIffErased(s: Sys, es: seq<Event>, c: ConnId)
    requires Inv(s) && Valid(s, es) && LiveConn(Run(s, es), c)
    ensures !Owned(Run(s, es), c) <==> (c < |s.links| && !Owned(s, c)) || ErasedIn(s, es, c)
    decreases |es|
  {
    if es == [] {
    } else {
      var s' := Next(s, es[0]);
      StepKeepsInv(s, es[0]);
      LostIffErased(s', es[1..], c);
      if c < |s'.links| {
        LiveAllAlong(s', es[1..], c);
        OwnerIsLostIff(s, es[0], c);
      } else {
        LinksGrow(s, es[0]);
        StoredIsKnown(s, c);
      }
    }
  }

  lemma LinksGrow(s: Sys, e: Event)
    requires Enabled(s, e)
    ensures |s.links| <= |Next(s, e).links|
  {
  }

  lemma StoredIsKnown(s: Sys, c: ConnId)
    requires Inv(s)
    ensures s.core.nc == Some(c) ==> c < |s.links|
  {
  }

  lemma {:induction false} LiveAllAlong(s: Sys, es: seq<Event>, c: ConnId)
    requires Valid(s, es) && LiveConn(Run(s, es), c) && c < |s.links|
    ensures LiveConn(s, c)
    decreases |es|
  {
    if es == [] {
    } else {
      LinksGrow(s, es[0]);
      LiveAllAlong(Next(s, es[0]), es[1..], c);
      LiveWasLive(s, es[0], c);
    }
  }

  /** From the start of the client: a live connection that nobody owns is one that some Close has erased. */
  lemma LeaksAreErased(retry: bool, es: seq<Event>, c: ConnId)
    requires Valid(Init(retry), es) && LiveConn(Run(Init(retry), es), c)
    ensures !Owned(Run(Init(retry), es), c) <==> ErasedIn(Init(retry), es, c)
  {
    LostIffErased(Init(retry), es, c);
  }

  /** As long as nothing is lost, no step but the final section of Close can lose a connection, and that
      section does so exactly when the manager holds a live one at that moment: one installed after this
      Close took its own copy of the handle. */
  lemma OnlyFinishingCloseCanLeak(s: Sys, e: Event)
    requires Inv(s) && NothingLeaked(s) && Enabled(s, e)
    ensures NothingLeaked(Next(s, e)) <==> !(e.CloseFinishes? && HoldsLive(s))
  {
    var s' := Next(s, e);
    forall c | 0 <= c < |s'.links| && Alive(s'.links[c])
      ensures Owned(s', c) <==> !Erases(s, e, c)
    {
      if c < |s.links| {
        LiveWasLive(s, e, c);
      }
      OwnerIsLostIff(s, e, c);
    }
    if e.CloseFinishes? && HoldsLive(s) {
      assert Alive(s'.links[s.core.nc.value]) && Erases(s, e, s.core.nc.value);
    }
  }

  // ---------- runs in which no Start is admitted while a Close is in flight ----------

  /** The step does not admit a Start call during a Close call. Calls to Start that are refused, and any
      number of overlapping Close calls, are allowed. */
  predicate Gated(s: Sys, e: Event) {
    e.StartBegins? && BeginStart(s.core, CoreLink(s), |s.closes|).1.Admitted? ==> s.calls == map[]
  }

  predicate GatedRun(s: Sys, es: seq<Event>)
    requires Valid(s, es)
    decreases |es|
  {
    es == [] || (Gated(s, es[0]) && GatedRun(Next(s, es[0]), es[1..]))
  }

  /** A Close call that is past its wait sees no Start, and its copy of the handle is still current. */
  ghost predicate CloseSeesAll(nc: Option<ConnId>, starting: bool, startDone: Option<ChanId>,
                               calls: map<nat, CloseAt>) {
    && (forall t | t in calls && calls[t].Waiting? :: starting ==> startDone == Some(calls[t].ch))
    && (forall t | t in calls && calls[t].Rereading? :: !starting)
    && (forall t | t in calls && (calls[t].AtDrain? || calls[t].AtFinish?) ::
          !starting && (nc.None? || nc == calls[t].conn))
  }

  ghost predicate SeesAll(s: Sys) {
    CloseSeesAll(s.core.nc, s.core.starting, s.core.startDone, s.calls)
  }

  lemma GatedStartSeesAll(s: Sys, e: Event)
    requires Inv(s) && SeesAll(s) && Enabled(s, e) && Gated(s, e) && IsStartEvent(e)
    ensures SeesAll(Next(s, e))
  {
  }

  lemma GatedCloseSeesAll(s: Sys, e: Event)
    requires Inv(s) && SeesAll(s) && Enabled(s, e) && IsCloseEvent(e)
    ensures SeesAll(Next(s, e))
  {
  }

  lemma GatedStepSeesAll(s: Sys, e: Event)
    requires Inv(s) && SeesAll(s) && Enabled(s, e) && Gated(s, e)
    ensures SeesAll(Next(s, e))
  {
    if IsStartEvent(e) {
      GatedStartSeesAll(s, e);
    } else if IsCloseEvent(e) {
      GatedCloseSeesAll(s, e);
    }
  }

  lemma {:induction false} GatedRunKeeps(s: Sys, es: seq<Event>)
    requires Inv(s) && NothingLeaked(s) && SeesAll(s) && Valid(s, es) && GatedRun(s, es)
    ensures Inv(Run(s, es)) && NothingLeaked(Run(s, es)) && SeesAll(Run(s, es))
    decreases |es|
  {
    if es == [] {
    } else {
      StepKeepsInv(s, es[0]);
      GatedStepSeesAll(s, es[0]);
      OnlyFinishingCloseCanLeak(s, es[0]);
      GatedRunKeeps(Next(s, es[0]), es[1..]);
    }
  }

  /** Connection ownership. In every gated run each live connection has exactly one owner: the manager,
      one Start call, or the late-dial reaper. */
  lemma EveryLiveConnectionHasOneOwner(retry: bool, es: seq<Event>, c: ConnId)
    requires Valid(Init(retry), es) && GatedRun(Init(retry), es)
    requires LiveConn(Run(Init(retry), es), c)
    ensures var s := Run(Init(retry), es);
            || (s.core.nc == Some(c) && !HeldByStart(s, c) && c !in s.late)
            || (s.core.nc != Some(c) && HeldByStart(s, c) && c !in s.late)
            || (s.core.nc != Some(c) && !HeldByStart(s, c) && c in s.late)
  {
    GatedRunKeeps(Init(retry), es);
    assert Owned(Run(Init(retry), es), c);
  }

  /** What a completed Close leaves behind. When a Close call runs its final section in a gated run, no
      connection ever opened is live any more, except those owed to the reaper of an abandoned dial. */
  lemma FinishedCloseLeavesNothing(retry: bool, es: seq<Event>, t: nat, c: ConnId)
    requires Valid(Init(retry), es) && GatedRun(Init(retry), es)
    requires Enabled(Run(Init(retry), es), CloseFinishes(t))
    ensures var s := Next(Run(Init(retry), es), CloseFinishes(t));
            && s.core.nc.None? && s.core.js.None? && s.core.kv.None? && !s.core.starting && !s.core.closing
            && (LiveConn(s, c) ==> c in s.late)
  {
    GatedRunKeeps(Init(retry), es);
    var s0 := Run(Init(retry), es);
    var s := Next(s0, CloseFinishes(t));
    if LiveConn(s, c) {
      assert Owned(s0, c);
      assert !HeldByStart(s0, c);
    }
  }

  /** Draining ends the connection a Close has in hand: it is closed if that fails, and otherwise left to drain,
      live to nobody. */
  lemma DrainEndsConnection(s: Sys, t: nat, err: Option<string>)
    requires Inv(s) && Enabled(s, CloseDrains(t, err)) && s.calls[t].conn.Some?
    ensures var c, s' := s.calls[t].conn.value, Next(s, CloseDrains(t, err));
            && c < |s'.links| && !LiveConn(s', c) && s'.core == s.core
            && (err.Some? ==> s'.links[c].LinkClosed?)
            && (err.None? ==> s'.links[c].LinkDraining? || s.links[c].LinkClosed?)
            && s'.calls == s.calls[t := AtFinish(Some(c), err)]
  {
  }

  /** A Close that gives up its wait is over, and leaves its request to the Start it waited for: the flags stay up
      and the handles as they are, with the health degraded. */
  lemma GivenUpCloseLeavesRequest(s: Sys, t: nat, err: string)
    requires Inv(s) && Enabled(s, CloseGivesUp(t))
    ensures var s' := Next(s, CloseGivesUp(t));
            && Enabled(s', CloseDegrades(t, err))
            && var s'' := Next(s', CloseDegrades(t, err));
               && s''.calls == s.calls - {t} && s''.core == s.core.(health := s''.core.health)
               && s''.core.health.state.Degraded? && s''.core.health.lastError == err
  {
    assert s.calls[t := GivingUp] - {t} == s.calls - {t};
  }

  /** A reconnect starts a rebind unless a Close is under way; one that fails degrades the health and touches no
      handle. */
  lemma ReconnectStartsRebind(s: Sys, r: nat, c: ConnId, err: string)
    requires Enabled(s, Reconnected(r, c))
    ensures var s' := Next(s, Reconnected(r, c));
            && s'.core == s.core && (r in s'.rebinds <==> !s.core.closing)
            && (!s.core.closing ==>
                  && s'.rebinds[r] == c
                  && var s'' := Next(s', RebindFails(r, err));
                     && s''.rebinds == s.rebinds && s''.core == s.core.(health := s''.core.health)
                     && s''.core.health.state.Degraded? && s''.core.health.lastError == err)
  {
    assert s.rebinds[r := c] - {r} == s.rebinds;
  }

  /** An abandoned dial. The Start that gives it up leaves it running; if it connects all the same, its connection is
      live and the reaper's until the reaper closes it, and the manager never sees it. */
  lemma LateDialIsReaped(s: Sys, t: nat)
    requires Inv(s) && Enabled(s, DialCanceled(t))
    ensures var c, left := |s.links|, Next(s, DialCanceled(t));
            && left.lateDials == s.lateDials + 1 && left.core == s.core && Enabled(left, LateDialOk)
            && var connected := Next(left, LateDialOk);
               && LiveConn(connected, c) && c in connected.late && connected.core.nc != Some(c)
               && Enabled(connected, LateClosed(c))
               && var closed := Next(connected, LateClosed(c));
                  !LiveConn(closed, c) && closed.late == s.late && closed.core == s.core
                  && closed.lateDials == s.lateDials
  {
    StoredIsKnown(s, |s.links|);
    assert forall c | c in s.late :: c < |s.links|;
  }

  lemma OnlyCommitInstalls(s: Sys, e: Event)
    requires s.core.nc.None? && Enabled(s, e) && !e.StartCommits?
    ensures Next(s, e).core.nc.None?
  {
    if IsStartEvent(e) {
      assert NextStart(s, e).core.nc.None?;
    } else if IsCloseEvent(e) {
      assert NextClose(s, e).core.nc.None?;
    } else {
      assert NextOther(s, e).core.nc.None?;
    }
  }

  /** After that the handles stay absent until some Start commits, whatever stale rebinds and callbacks
      do in between, gated or not. */
  lemma {:induction false} HandlesStayAbsent(s: Sys, es: seq<Event>)
    requires Inv(s) && s.core.nc.None?
    requires Valid(s, es) && forall i | 0 <= i < |es| :: !es[i].StartCommits?
    ensures var m := Run(s, es).core; m.nc.None? && m.js.None? && m.kv.None?
    decreases |es|
  {
    if es == [] {
    } else {
      StepKeepsInv(s, es[0]);
      OnlyCommitInstalls(s, es[0]);
      HandlesStayAbsent(Next(s, es[0]), es[1..]);
    }
  }

  // ---------- why the gate is needed ----------

  /** A first Start is under way when a Close arrives, and fails. */
  lemma StartFailsUnderClose() returns (es: seq<Event>)
    ensures Valid(Init(false), es)
    ensures var s := Run(Init(false), es);
            && s.starts == map[0 := StartCall(0, Failing)] && s.calls == map[1 := Waiting(0)] && s.closes == [0]
            && s.links == [] && s.late == {} && s.core.nc.None? && !s.core.retryOnFailedConnect
            && s.core.startDone == Some(0) && s.core.closing
  {
    var s0 := Init(false);
    var s1 := Next(s0, StartBegins(0));
    var s2 := Next(s1, CloseBegins(1));
    RunCons(s2, DialFails(0), []);
    RunCons(s1, CloseBegins(1), [DialFails(0)]);
    es := [CloseBegins(1)] + [DialFails(0)];
    RunCons(s0, StartBegins(0), es);
    es := [StartBegins(0)] + es;
  }

  /** Its exit clears the flag the Close has set, and the Close goes on with no handle to drain. */
  lemma CloseOutlivesItsFlag(s: Sys) returns (es: seq<Event>)
    requires s.starts == map[0 := StartCall(0, Failing)] && s.calls == map[1 := Waiting(0)] && s.closes == [0]
    requires s.links == [] && s.late == {} && s.core.nc.None? && !s.core.retryOnFailedConnect
    requires s.core.startDone == Some(0) && s.core.closing
    ensures Valid(s, es)
    ensures var s' := Run(s, es);
            && s'.starts == map[] && s'.calls == map[1 := AtDrain(None)] && s'.links == [] && s'.late == {}
            && s'.core.nc.None? && !s'.core.starting && !s'.core.closing && !s'.core.closeRequested
            && !s'.core.retryOnFailedConnect
  {
    var s1 := Next(s, StartDegrades(0, ""));
    var s2 := Next(s1, StartExits(0));
    var s3 := Next(s2, CloseWakes(1));
    RunCons(s3, CloseRereads(1), []);
    RunCons(s2, CloseWakes(1), [CloseRereads(1)]);
    es := [CloseWakes(1)] + [CloseRereads(1)];
    RunCons(s1, StartExits(0), es);
    es := [StartExits(0)] + es;
    RunCons(s, StartDegrades(0, ""), es);
    es := [StartDegrades(0, "")] + es;
  }

  /** Then a second Start is let in, */
  lemma SecondStartDials(s: Sys) returns (es: seq<Event>)
    requires s.starts == map[] && s.calls == map[1 := AtDrain(None)] && s.links == []
    requires s.core.nc.None? && !s.core.starting && !s.core.closing && !s.core.closeRequested
    requires !s.core.retryOnFailedConnect
    ensures Valid(s, es)
    ensures var s' := Run(s, es);
            && s'.starts == map[2 := StartCall(|s.closes|, Holding(0))] && s'.calls == s.calls && s'.links == [LinkUp]
            && s'.late == s.late && s'.core.nc.None? && !s'.core.closing && !s'.core.closeRequested
            && s'.core.startDone == Some(|s.closes|) && |s'.closes| == |s.closes| + 1
  {
    var s1 := Next(s, StartBegins(2));
    RunCons(s1, DialOk(2), []);
    RunCons(s, StartBegins(2), [DialOk(2)]);
    es := [StartBegins(2)] + [DialOk(2)];
  }

  /** and connects. */
  lemma SecondStartCommits(s: Sys, ch: ChanId) returns (es: seq<Event>)
    requires s.starts == map[2 := StartCall(ch, Holding(0))] && s.links == [LinkUp] && s.core.nc.None?
    requires !s.core.closing && !s.core.closeRequested && s.core.startDone == Some(ch) && ch < |s.closes|
    ensures Valid(s, es)
    ensures var s' := Run(s, es);
            s'.starts == map[] && s'.calls == s.calls && s'.links == [LinkUp] && s'.late == s.late
                && s'.core.nc == Some(0)
  {
    var s1 := Next(s, StartCommits(2, ""));
    RunCons(s1, StartExits(2), []);
    RunCons(s, StartCommits(2, ""), [StartExits(2)]);
    es := [StartCommits(2, "")] + [StartExits(2)];
  }

  lemma SecondStartIsLetIn(s: Sys) returns (es: seq<Event>)
    requires s.starts == map[] && s.calls == map[1 := AtDrain(None)] && s.links == []
    requires s.core.nc.None? && !s.core.starting && !s.core.closing && !s.core.closeRequested
    requires !s.core.retryOnFailedConnect
    ensures Valid(s, es)
    ensures var s' := Run(s, es);
            s'.starts == map[] && s'.calls == s.calls && s'.links == [LinkUp] && s'.late == s.late
                && s'.core.nc == Some(0)
  {
    es := SecondStartDials(s);
    var more := SecondStartCommits(Run(s, es), |s.closes|);
    RunConcat(s, es, more);
    es := es + more;
  }

  /** Then the Close erases the handle it never drained. */
  lemma CloseErases(s: Sys) returns (es: seq<Event>)
    requires s.starts == map[] && s.calls == map[1 := AtDrain(None)] && s.links == [LinkUp] && 0 !in s.late
    ensures Valid(s, es)
    ensures var s' := Run(s, es); LiveConn(s', 0) && !Owned(s', 0) && s'.starts == map[] && s'.calls == map[]
  {
    var s1 := Next(s, CloseDrains(1, None));
    RunCons(s1, CloseFinishes(1), []);
    RunCons(s, CloseDrains(1, None), [CloseFinishes(1)]);
    es := [CloseDrains(1, None)] + [CloseFinishes(1)];
  }

  /** The state after the first event of a run, with which the run goes on, extended or not. */
  lemma RunHead(s: Sys, es: seq<Event>, more: seq<Event>) returns (s1: Sys)
    requires es != [] && Valid(s, es)
    ensures Valid(s1, es[1..]) && Run(s, es) == Run(s1, es[1..])
    ensures Valid(s1, es[1..] + more) ==> Valid(s, es + more) && Run(s, es + more) == Run(s1, es[1..] + more)
  {
    s1 := Next(s, es[0]);
    assert es + more == [es[0]] + (es[1..] + more);
    if Valid(s1, es[1..] + more) {
      RunCons(s, es[0], es[1..] + more);
    }
  }

  lemma {:induction false} RunConcat(s: Sys, es: seq<Event>, more: seq<Event>)
    requires Valid(s, es) && Valid(Run(s, es), more)
    ensures Valid(s, es + more) && Run(s, es + more) == Run(Run(s, es), more)
    decreases |es|
  {
    if es == [] {
      assert es + more == more;
    } else {
      var s1 := RunHead(s, es, more);
      RunConcat(s1, es[1..], more);
    }
  }

  /** Without the gate ownership fails: some run ends with every call returned and a live connection that
      nobody owns. */
  lemma OverlapLeaks() returns (es: seq<Event>)
    ensures Valid(Init(false), es) && !GatedRun(Init(false), es)
    ensures var s := Run(Init(false), es); LiveConn(s, 0) && !Owned(s, 0) && s.starts == map[] && s.calls == map[]
  {
    var s0 := Init(false);
    es := StartFailsUnderClose();
    var more := CloseOutlivesItsFlag(Run(s0, es));
    RunConcat(s0, es, more);
    es := es + more;
    more := SecondStartIsLetIn(Run(s0, es));
    RunConcat(s0, es, more);
    es := es + more;
    more := CloseErases(Run(s0, es));
    RunConcat(s0, es, more);
    es := es + more;
    if GatedRun(s0, es) {
      GatedRunKeeps(s0, es);
    }
  }
}

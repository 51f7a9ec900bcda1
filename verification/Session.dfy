/** The session manager (internal/session): shared state, health transitions and every section of code
    that runs under the manager's mutex. A section is a method of the class, specified by a function on
    the manager's state; Session runs are composed of the same functions. */
module Session {
  import opened Common

  type ConnId = nat
  type ChanId = nat

  datatype Lifecycle = New | Connecting | Connected | Reconnecting | Draining | Closed | Degraded

  /** The states in which the client leaves the activation of a registration to Start. */
  predicate DefersActivation(state: Lifecycle) {
    state.New? || state.Connecting?
  }

  /** Status of a connection as the NATS client reports it. */
  datatype Link = LinkUp | LinkDown | LinkDraining | LinkClosed

  datatype JetStream = JetStream(conn: ConnId)
  datatype KeyValue = KeyValue(js: JetStream)

  datatype Health = Health(state: Lifecycle, url: string, jetStreamReady: bool, kvReady: bool, lastError: string,
                           registered: nat, active: nat)

  datatype Core = Core(nc: Option<ConnId>, js: Option<JetStream>, kv: Option<KeyValue>, health: Health,
                       starting: bool, startDone: Option<ChanId>, closing: bool, closeRequested: bool,
                       retryOnFailedConnect: bool)

  // ---------- health.go ----------

  function Noted(previous: string, err: Option<string>): string {
    if err.Some? then err.value else previous
  }

  function ConnectedHealth(h: Health, url: string, jsReady: bool, kvReady: bool): Health {
    h.(url := url, jetStreamReady := jsReady, kvReady := kvReady, lastError := "",
       state := if jsReady && kvReady then Connected else Degraded)
  }

  function ReconnectingHealth(h: Health, err: Option<string>): Health {
    h.(jetStreamReady := false, kvReady := false, lastError := Noted(h.lastError, err), state := Reconnecting)
  }

  function DegradedHealth(h: Health, err: Option<string>): Health {
    h.(jetStreamReady := false, kvReady := false, lastError := Noted(h.lastError, err), state := Degraded)
  }

  function ClosedHealth(h: Health, err: Option<string>): Health {
    h.(url := "", jetStreamReady := false, kvReady := false, lastError := Noted(h.lastError, err), state := Closed)
  }

  // ---------- sections of Start ----------

  datatype StartVerdict = AlreadyStarting | AlreadyClosing | RetryUnsupported | AlreadyConnected | Admitted

  /** First section of Start. The link argument is the status of the stored connection, if any. */
  function BeginStart(m: Core, link: Link, ch: ChanId): (Core, StartVerdict) {
    if m.starting then (m, AlreadyStarting)
    else if m.closing then (m, AlreadyClosing)
    else if m.retryOnFailedConnect then (m, RetryUnsupported)
    else if m.nc.Some? && link != LinkClosed then (m, AlreadyConnected)
    else (m.(starting := true, startDone := Some(ch), health := m.health.(state := Connecting)), Admitted)
  }

  /** The section every failing exit of Start, a canceled wait in Close and a failed rebind share. */
  function Degrade(m: Core, err: Option<string>): Core {
    m.(health := DegradedHealth(m.health, err))
  }

  /** Last section of a successful Start: it yields to a close request instead of installing. */
  function CommitStart(m: Core, conn: ConnId, url: string): (Core, bool) {
    if m.closeRequested || m.closing then
      (m.(closeRequested := false, closing := false, health := ClosedHealth(m.health, None)), false)
    else
      (m.(nc := Some(conn), js := Some(JetStream(conn)), kv := Some(KeyValue(JetStream(conn))),
          health := ConnectedHealth(m.health, url, true, true)), true)
  }

  /** The deferred section of Start. The flag says whether it closes the channel. */
  function ExitStart(m: Core, ch: ChanId): (Core, bool) {
    var wakes := m.startDone == Some(ch);
    var m1 := m.(startDone := if wakes then None else m.startDone, starting := false);
    (if m.closeRequested || m.closing
     then m1.(closeRequested := false, closing := false, health := ClosedHealth(m.health, None))
     else m1,
     wakes)
  }

  // ---------- sections of Close ----------

  datatype CloseVerdict = CloseInProgress | NothingOpen | WaitForStart(ch: ChanId) | DrainNow(conn: ConnId)

  function BeginClose(m: Core): (Core, CloseVerdict) {
    if m.closing then (m, CloseInProgress)
    else if m.startDone.None? && m.nc.None? then
      (m.(closing := false, closeRequested := false, health := ClosedHealth(m.health, None)), NothingOpen)
    else
      (m.(closing := true, closeRequested := true, health := m.health.(state := Draining)),
       if m.startDone.Some? then WaitForStart(m.startDone.value) else DrainNow(m.nc.value))
  }

  function FinishClose(m: Core, drainErr: Option<string>): Core {
    m.(nc := None, js := None, kv := None, closeRequested := false, closing := false,
       health := ClosedHealth(m.health, drainErr))
  }

  // ---------- callbacks.go ----------

  /** onDisconnect; the flag says whether the user's hook is called. */
  function Disconnect(m: Core, err: Option<string>): (Core, bool) {
    if m.closing then (m, false) else (m.(health := ReconnectingHealth(m.health, err)), true)
  }

  function ConnectionClosed(m: Core): Core {
    m.(health := ClosedHealth(m.health, None))
  }

  /** Last section of the goroutine that rebinds after a reconnect of some connection. */
  function CommitRebind(m: Core, conn: ConnId, url: string): (Core, bool) {
    if m.closing || m.nc != Some(conn) then (m, false)
    else
      (m.(js := Some(JetStream(conn)), kv := Some(KeyValue(JetStream(conn))),
          health := ConnectedHealth(m.health, url, true, true)), true)
  }

  // ---------- what every section keeps ----------

  ghost predicate Coherent(m: Core) {
    && (m.nc.None? ==> m.js.None? && m.kv.None?)
    && (m.nc.Some? ==> m.js == Some(JetStream(m.nc.value)) && m.kv == Some(KeyValue(JetStream(m.nc.value))))
    && m.health.jetStreamReady == m.health.kvReady
    && (m.health.state.Connected? ==> m.nc.Some? && m.health.jetStreamReady)
    && m.closing == m.closeRequested
    && m.starting == m.startDone.Some?
  }

  /** How the middle of a Start goes when nothing else happens meanwhile: dialing or the set-up of the
      handles fails, or both succeed. */
  datatype Attempt = NoDial(err: string) | NoSetup(err: string) | SetUp(conn: ConnId, url: string)

  /** Each locked section is a method, specified by its function above. Beside that, every section keeps
      Valid, and says which of connection, flags and state it may touch and when. */
  class Manager {
    const retryOnFailedConnect: bool
    var nc: Option<ConnId>
    var js: Option<JetStream>
    var kv: Option<KeyValue>
    var health: Health
    var starting: bool
    var startDone: Option<ChanId>
    var closing: bool
    var closeRequested: bool

    ghost function State(): Core
      reads this
    {
      Core(nc, js, kv, health, starting, startDone, closing, closeRequested, retryOnFailedConnect)
    }

    ghost predicate Valid()
      reads this
    {
      Coherent(State())
    }

    constructor (retryOnFailedConnect: bool)
      ensures State() == Initial(retryOnFailedConnect) && Valid()
    {
      this.retryOnFailedConnect := retryOnFailedConnect;
      nc, js, kv := None, None, None;
      health := Health(New, "", false, false, "", 0, 0);
      starting, startDone, closing, closeRequested := false, None, false, false;
    }

    method SetConnected(url: string, jsReady: bool, kvReady: bool)
      modifies this`health
      ensures health == ConnectedHealth(old(health), url, jsReady, kvReady)
    {
      health := health.(url := url, jetStreamReady := jsReady, kvReady := kvReady, lastError := "");
      if jsReady && kvReady {
        health := health.(state := Connected);
        return;
      }
      health := health.(state := Degraded);
    }

    method SetReconnecting(err: Option<string>)
      modifies this`health
      ensures health == ReconnectingHealth(old(health), err)
    {
      health := health.(jetStreamReady := false, kvReady := false);
      if err.Some? {
        health := health.(lastError := err.value);
      }
      health := health.(state := Reconnecting);
    }

    method SetDegraded(err: Option<string>)
      modifies this`health
      ensures State() == Degrade(old(State()), err)
      ensures old(Valid()) ==> Valid()
      ensures health.state == Degraded && !health.jetStreamReady && !health.kvReady && health.url == old(health).url
      ensures health.lastError == if err.Some? then err.value else old(health).lastError
    {
      health := health.(jetStreamReady := false, kvReady := false);
      if err.Some? {
        health := health.(lastError := err.value);
      }
      health := health.(state := Degraded);
    }

    method SetClosed(err: Option<string>)
      modifies this`health
      ensures health == ClosedHealth(old(health), err)
    {
      health := health.(url := "", jetStreamReady := false, kvReady := false);
      if err.Some? {
        health := health.(lastError := err.value);
      }
      health := health.(state := Closed);
    }

    // ---------- sections of Start ----------

    /** A Start is let in only on a manager with neither a Start nor a Close under way and no connection but
        a closed one, and holds the start flag then; it never touches the handles. Each refusal has its own
        reason; a stored connection is kept unless it is closed, and never during a Close. */
    method StartBegin(link: Link, ch: ChanId) returns (verdict: StartVerdict)
      requires Valid()
      modifies this
      ensures Valid() && (State(), verdict) == BeginStart(old(State()), link, ch)
      ensures nc == old(nc) && js == old(js) && kv == old(kv) && closing == old(closing)
      ensures verdict.AlreadyStarting? <==> old(starting)
      ensures verdict.AlreadyClosing? <==> !old(starting) && old(closing)
      ensures verdict.RetryUnsupported? <==> !old(starting) && !old(closing) && retryOnFailedConnect
      ensures verdict.AlreadyConnected? <==>
                !old(starting) && !old(closing) && !retryOnFailedConnect && nc.Some? && link != LinkClosed
      ensures verdict.Admitted? <==>
                !old(starting) && !old(closing) && !retryOnFailedConnect && (nc.None? || link == LinkClosed)
      ensures verdict.Admitted? ==> starting && startDone == Some(ch) && health == old(health).(state := Connecting)
      ensures !verdict.Admitted? ==> State() == old(State())
    {
      if starting {
        return AlreadyStarting;
      }
      if closing {
        return AlreadyClosing;
      }
      if retryOnFailedConnect {
        return RetryUnsupported;
      }
      if nc.Some? && link != LinkClosed {
        return AlreadyConnected;
      }
      starting := true;
      startDone := Some(ch);
      health := health.(state := Connecting);
      return Admitted;
    }

    /** A connection is installed unless a Close has asked for its turn, and then with both handles built
        from it; if not, the Close is taken as done and the stored connection, if any, stays. */
    method StartCommit(conn: ConnId, url: string) returns (installed: bool)
      requires Valid()
      modifies this
      ensures Valid() && (State(), installed) == CommitStart(old(State()), conn, url)
      ensures installed <==> !old(closing)
      ensures installed ==> nc == Some(conn) && health.state == Connected && health.url == url && health.lastError == ""
      ensures !installed ==> nc == old(nc) && health.state == Closed && health.url == ""
      ensures !closing && startDone == old(startDone)
    {
      if closeRequested || closing {
        closeRequested := false;
        closing := false;
        SetClosed(None);
        return false;
      }
      nc := Some(conn);
      js := Some(JetStream(conn));
      kv := Some(KeyValue(JetStream(conn)));
      SetConnected(url, true, true);
      return true;
    }

    /** However a Start ends, its flag is down and its channel closed, once; a close request is dropped. The
        channel is its own, as only one Start is let in at a time. */
    method StartExit(ch: ChanId) returns (wakes: bool)
      requires Valid()
      modifies this
      ensures (State(), wakes) == ExitStart(old(State()), ch)
      ensures old(startDone) == Some(ch) ==> Valid() && wakes && startDone.None?
      ensures !starting && !closing && nc == old(nc) && js == old(js) && kv == old(kv)
      ensures if old(closing) then health.state == Closed && health.url == "" else health == old(health)
    {
      wakes := false;
      if startDone == Some(ch) {
        wakes := true;
        startDone := None;
      }
      starting := false;
      if closeRequested || closing {
        closeRequested := false;
        closing := false;
        SetClosed(None);
      }
    }

    /** A Start that nothing disturbs returns nil iff nothing else is under way and there is a connection to
        keep, or its own is installed: never during a Close. One that is refused or keeps a connection changes
        nothing; any other leaves the manager free for the next call, and a failed one the handles as they
        were. */
    method Start(link: Link, ch: ChanId, attempt: Attempt) returns (ok: bool)
      requires Valid()
      modifies this
      ensures Valid()
      ensures ok <==> !old(starting) && !old(closing) && !retryOnFailedConnect
                      && ((old(nc).Some? && link != LinkClosed) || attempt.SetUp?)
      ensures old(starting) || old(closing) || retryOnFailedConnect || (old(nc).Some? && link != LinkClosed) ==>
                State() == old(State())
      ensures !old(starting) && !old(closing) && !retryOnFailedConnect && (old(nc).None? || link == LinkClosed) ==>
                && !starting && !closing && startDone.None?
                && (attempt.SetUp? ==> nc == Some(attempt.conn) && health.state == Connected)
                && (!attempt.SetUp? ==> nc == old(nc) && js == old(js) && kv == old(kv) && health.state == Degraded)
    {
      var verdict := StartBegin(link, ch);
      if !verdict.Admitted? {
        return verdict.AlreadyConnected?;
      }
      if attempt.SetUp? {
        ok := StartCommit(attempt.conn, attempt.url);
      } else {
        SetDegraded(Some(attempt.err));
        ok := false;
      }
      var wakes := StartExit(ch);
    }

    // ---------- sections of Close ----------

    /** A second Close does nothing while one is under way; otherwise the flags go up, unless there is nothing
        to close, and the verdict names the Start to wait for or the connection to drain. */
    method CloseBegin() returns (verdict: CloseVerdict)
      requires Valid()
      modifies this
      ensures Valid() && (State(), verdict) == BeginClose(old(State()))
      ensures nc == old(nc) && startDone == old(startDone)
      ensures verdict.CloseInProgress? <==> old(closing)
      ensures verdict.NothingOpen? <==> !old(closing) && startDone.None? && nc.None?
      ensures verdict.WaitForStart? ==> closing && startDone == Some(verdict.ch)
      ensures verdict.DrainNow? ==> closing && !starting && nc == Some(verdict.conn)
      ensures verdict.CloseInProgress? ==> State() == old(State())
      ensures verdict.NothingOpen? ==> !closing && health.state == Closed && health.url == ""
      ensures verdict.WaitForStart? || verdict.DrainNow? ==> health == old(health).(state := Draining)
    {
      if closing {
        return CloseInProgress;
      }
      closing := true;
      closeRequested := true;
      if startDone.None? && nc.None? {
        SetClosed(None);
        closeRequested := false;
        closing := false;
        return NothingOpen;
      }
      health := health.(state := Draining);
      return if startDone.Some? then WaitForStart(startDone.value) else DrainNow(nc.value);
    }

    /** The final section leaves no handle and no close flag, and does not touch a Start. */
    method CloseFinish(drainErr: Option<string>)
      requires Valid()
      modifies this
      ensures Valid() && State() == FinishClose(old(State()), drainErr)
      ensures nc.None? && js.None? && kv.None? && !closing && health.state == Closed && health.url == ""
      ensures health.lastError == if drainErr.Some? then drainErr.value else old(health).lastError
      ensures starting == old(starting) && startDone == old(startDone)
    {
      nc := None;
      js := None;
      kv := None;
      closeRequested := false;
      closing := false;
      SetClosed(drainErr);
    }

    /** A Close that nothing disturbs and that finds no Start under way drains the stored connection and
        leaves a manager that a Start can be let into again. */
    method Close(drainErr: Option<string>) returns (drained: Option<ConnId>)
      requires Valid() && !starting
      modifies this
      ensures Valid()
      ensures old(closing) ==> drained.None? && State() == old(State())
      ensures !old(closing) ==> drained == old(nc) && nc.None? && !closing && !starting && health.state == Closed
      ensures !old(closing) && !retryOnFailedConnect ==> forall link, ch :: BeginStart(State(), link, ch).1.Admitted?
    {
      var verdict := CloseBegin();
      if !verdict.DrainNow? {
        return None;
      }
      drained := Some(verdict.conn);
      CloseFinish(drainErr);
    }

    // ---------- callbacks ----------

    /** The callbacks never install or remove a connection; a disconnect is ignored while closing. */
    method OnDisconnect(err: Option<string>) returns (hook: bool)
      requires Valid()
      modifies this
      ensures Valid() && (State(), hook) == Disconnect(old(State()), err)
      ensures State() == old(State()).(health := health)
      ensures hook <==> !closing
      ensures hook ==> health.state == Reconnecting && !health.jetStreamReady && !health.kvReady
      ensures hook ==> health.lastError == if err.Some? then err.value else old(health).lastError
      ensures !hook ==> health == old(health)
    {
      if closing {
        return false;
      }
      SetReconnecting(err);
      return true;
    }

    method OnClosed()
      requires Valid()
      modifies this
      ensures Valid() && State() == ConnectionClosed(old(State()))
      ensures State() == old(State()).(health := health)
      ensures health.state == Closed && !health.jetStreamReady && !health.kvReady
    {
      SetClosed(None);
    }

    /** A rebind renews the handles of the stored connection and of no other, and not while closing, so a
        stale one changes nothing. */
    method RebindCommit(conn: ConnId, url: string) returns (hook: bool)
      requires Valid()
      modifies this
      ensures Valid() && (State(), hook) == CommitRebind(old(State()), conn, url)
      ensures State() == old(State()).(health := health)
      ensures hook <==> !closing && nc == Some(conn)
      ensures hook ==> health.state == Connected && health.url == url && health.lastError == ""
      ensures !hook ==> health == old(health)
    {
      if closing {
        return false;
      }
      if nc.None? || nc != Some(conn) {
        return false;
      }
      js := Some(JetStream(conn));
      kv := Some(KeyValue(JetStream(conn)));
      SetConnected(url, true, true);
      return true;
    }

    method SetSubscriptionCounts(registered: nat, active: nat)
      requires Valid()
      modifies this`health
      ensures Valid() && health == old(health).(registered := registered, active := active)
    {
      health := health.(registered := registered, active := active);
    }

    // ---------- lookups ----------

    /** The connection and the bucket are handed out together or not at all: a caller that gets the one while
        the link is up can get the other, and it is built from it. */
    method Connection(link: Link) returns (conn: Option<ConnId>)
      requires Valid()
      ensures conn.Some? <==> nc.Some? && kv.Some? && link == LinkUp
      ensures conn.Some? ==> conn == nc && kv == Some(KeyValue(JetStream(conn.value)))
    {
      if nc.None? || link != LinkUp {
        return None;
      }
      return nc;
    }

    /** A key-value handle that is handed out always belongs to the stored connection. */
    method KeyValueHandle(link: Link) returns (handle: Option<KeyValue>)
      requires Valid()
      ensures handle == if nc.Some? && link == LinkUp then Some(KeyValue(JetStream(nc.value))) else None
    {
      if nc.None? || link != LinkUp || kv.None? {
        return None;
      }
      return kv;
    }
  }

  function Initial(retryOnFailedConnect: bool): Core {
    Core(None, None, None, Health(New, "", false, false, "", 0, 0), false, None, false, false, retryOnFailedConnect)
  }
}

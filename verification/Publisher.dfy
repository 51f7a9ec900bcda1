/** The publish retry loop (internal/transport/publisher.go). */
module Publisher {
  import opened Common
  import opened Text

  /** How far one attempt gets: no connection to use, the connection refuses the payload, the flush of an
      accepted payload fails, or both succeed. */
  datatype Attempt = NoConnection | Refused | FlushFails | Delivered

  /** What the world does to one round of the loop: whether the context is done when it begins, how far
      the attempt gets, and whether the context ends the wait that follows. */
  datatype Round = Round(ctxDone: bool, attempt: Attempt, waitCut: bool)

  datatype Code = Validation | Disconnected | PublishFailed

  datatype Failure = Failure(code: Code, retryable: bool)

  /** What can be seen from outside: the answers of the connection, and the publish counter. */
  datatype Effect = HandOff(accepted: bool) | Flush(done: bool) | Count(success: bool)

  /** The arguments that are checked before anything is sent. */
  datatype Request = Request(ctxNil: bool, ctxDone: bool, subject: string, payload: seq<bv8>)

  // ---------- specification ----------

  function Reject(req: Request): Option<Failure> {
    if req.ctxNil || req.ctxDone || TrimSpace(req.subject) == "" || req.payload == []
    then Some(Failure(Validation, false))
    else None
  }

  function Limit(attempts: int): nat
    ensures Limit(attempts) > 0
  {
    if attempts <= 0 then 1 else attempts
  }

  /** Only an attempt that handed nothing over is repeated, and only when the context lets it wait. */
  predicate GoesOn(r: Round) {
    !r.ctxDone && !r.waitCut && (r.attempt == NoConnection || r.attempt == Refused)
  }

  /** The loop runs n rounds: it stops at the first that does not go on, or at the limit. */
  ghost predicate StopsAfter(world: nat -> Round, limit: nat, n: nat) {
    && 0 < n <= limit
    && (forall i: nat | i < n - 1 :: GoesOn(world(i)))
    && (n == limit || !GoesOn(world(n - 1)))
  }

  /** What the call returns when r is its last round; final tells that it was the last allowed one. */
  function Verdict(r: Round, final: bool): Option<Failure> {
    if r.ctxDone then Some(Failure(Validation, false))
    else
      match r.attempt
      case Delivered => None
      case FlushFails => Some(Failure(PublishFailed, false))
      case NoConnection => Some(if final then Failure(Disconnected, true) else Failure(PublishFailed, false))
      case Refused => Some(if final then Failure(PublishFailed, true) else Failure(PublishFailed, false))
  }

  function RoundEffects(r: Round): seq<Effect> {
    if r.ctxDone then []
    else
      match r.attempt
      case NoConnection => []
      case Refused => [HandOff(false), Count(false)]
      case FlushFails => [HandOff(true), Flush(false), Count(false)]
      case Delivered => [HandOff(true), Flush(true), Count(true)]
  }

  function Effects(world: nat -> Round, n: nat): seq<Effect> {
    if n == 0 then [] else Effects(world, n - 1) + RoundEffects(world(n - 1))
  }

  // ---------- the loop ----------

  /** One attempt. Without a connection nothing is sent or counted; a refused payload and a failed flush are
      counted as failures; only what was not handed over may be tried again. */
  method PublishOnce(attempt: Attempt, log: seq<Effect>) returns (err: Option<Failure>, after: seq<Effect>)
    ensures attempt == NoConnection ==> err == Some(Failure(Disconnected, true)) && after == log
    ensures attempt == Refused ==>
              err == Some(Failure(PublishFailed, true)) && after == log + [HandOff(false), Count(false)]
    ensures attempt == FlushFails ==>
              err == Some(Failure(PublishFailed, false)) && after == log + [HandOff(true), Flush(false), Count(false)]
    ensures attempt == Delivered ==> err.None? && after == log + [HandOff(true), Flush(true)]
    ensures err == Verdict(Round(false, attempt, false), true)
    ensures after + (if err.None? then [Count(true)] else []) == log + RoundEffects(Round(false, attempt, false))
  {
    after := log;
    if attempt == NoConnection {
      return Some(Failure(Disconnected, true)), after;
    }
    after := after + [HandOff(attempt != Refused)];
    if attempt == Refused {
      after := after + [Count(false)];
      return Some(Failure(PublishFailed, true)), after;
    }
    after := after + [Flush(attempt != FlushFails)];
    if attempt == FlushFails {
      after := after + [Count(false)];
      return Some(Failure(PublishFailed, false)), after;
    }
    return None, after;
  }

  /** An incomplete request is rejected before anything is sent. Otherwise the loop makes at least one round and
      at most as many as configured, one if that is not positive; it goes on after a round exactly when that
      left the payload with the caller and the context lets it, and the last round decides the result. */
  method Publish(req: Request, attempts: int, world: nat -> Round)
    returns (err: Option<Failure>, n: nat, log: seq<Effect>)
    ensures req.ctxNil || req.ctxDone || TrimSpace(req.subject) == "" || req.payload == [] ==>
              err == Some(Failure(Validation, false)) && n == 0 && log == []
    ensures !(req.ctxNil || req.ctxDone || TrimSpace(req.subject) == "" || req.payload == []) ==>
      && 1 <= n <= (if attempts > 0 then attempts else 1)
      && (forall i: nat | i < n - 1 ::
            && !world(i).ctxDone && !world(i).waitCut
            && (world(i).attempt == NoConnection || world(i).attempt == Refused))
      && (n < attempts ==>
            || world(n - 1).ctxDone || world(n - 1).waitCut
            || world(n - 1).attempt == FlushFails || world(n - 1).attempt == Delivered)
      && var last, allowed := world(n - 1), n >= attempts;
         err == if last.ctxDone then Some(Failure(Validation, false))
                else if last.attempt == Delivered then None
                else if last.attempt == NoConnection && allowed then Some(Failure(Disconnected, true))
                else if last.attempt == Refused && allowed then Some(Failure(PublishFailed, true))
                else Some(Failure(PublishFailed, false))
    ensures Reject(req).Some? ==> err == Reject(req) && n == 0 && log == []
    ensures Reject(req).None? ==>
      && StopsAfter(world, Limit(attempts), n)
      && err == Verdict(world(n - 1), n == Limit(attempts))
      && log == Effects(world, n)
  {
    n, log := 0, [];
    if req.ctxNil {
      return Some(Failure(Validation, false)), n, log;
    }
    if req.ctxDone {
      return Some(Failure(Validation, false)), n, log;
    }
    if TrimSpace(req.subject) == "" {
      return Some(Failure(Validation, false)), n, log;
    }
    if req.payload == [] {
      return Some(Failure(Validation, false)), n, log;
    }
    var limit := attempts;
    if limit <= 0 {
      limit := 1;
    }
    err := None;
    while n < limit
      invariant limit == Limit(attempts) && n <= limit
      invariant forall i: nat | i < n && i < limit - 1 :: GoesOn(world(i))
      invariant forall i: nat | i < n :: !world(i).ctxDone && world(i).attempt != Delivered
      invariant forall i: nat | i < n :: world(i).attempt != FlushFails
      invariant n > 0 ==> err == Verdict(world(n - 1), true)
      invariant log == Effects(world, n)
    {
      var round := world(n);
      n := n + 1;
      if round.ctxDone {
        return Some(Failure(Validation, false)), n, log;
      }
      var failed, after := PublishOnce(round.attempt, log);
      log := after;
      if failed.None? {
        log := log + [Count(true)];
        return None, n, log;
      }
      err := failed;
      if !failed.value.retryable {
        return failed, n, log;
      }
      if n < limit && round.waitCut {
        return Some(Failure(PublishFailed, false)), n, log;
      }
    }
  }

  // ---------- what the specification promises ----------

  /** What happens determines where the loop stops, and so the result and the effects. */
  lemma OneStop(world: nat -> Round, limit: nat, n: nat, m: nat)
    requires StopsAfter(world, limit, n) && n != m
    ensures !StopsAfter(world, limit, m)
  {
    if 0 < m < n {
      assert GoesOn(world(m - 1));
    } else if n < m <= limit {
      assert !GoesOn(world(n - 1));
    }
  }

  function Times(log: seq<Effect>, x: Effect): nat {
    if log == [] then 0 else Times(log[..|log| - 1], x) + if log[|log| - 1] == x then 1 else 0
  }

  lemma {:induction false} TimesConcat(a: seq<Effect>, b: seq<Effect>, x: Effect)
    ensures Times(a + b, x) == Times(a, x) + Times(b, x)
  {
    if b == [] {
      assert a + b == a;
    } else {
      assert (a + b)[..|a + b| - 1] == a + b[..|b| - 1];
      TimesConcat(a, b[..|b| - 1], x);
    }
  }

  lemma TimesStep(log: seq<Effect>, y: Effect, x: Effect)
    ensures Times(log + [y], x) == Times(log, x) + if x == y then 1 else 0
  {
    assert (log + [y])[..|log|] == log;
  }

  lemma TimesInRound(r: Round, x: Effect)
    ensures Times(RoundEffects(r), x) == if x in RoundEffects(r) then 1 else 0
  {
    var e := RoundEffects(r);
    if |e| == 2 {
      TimesOfTwo(e[0], e[1], x);
    } else if |e| == 3 {
      TimesOfTwo(e[0], e[1], x);
      TimesStep(e[..2], e[2], x);
      assert e[..2] == [e[0], e[1]] && e[..2] + [e[2]] == e;
    }
  }

  lemma TimesOfTwo(y: Effect, z: Effect, x: Effect)
    ensures Times([y, z], x) == (if x == y then 1 else 0) + (if x == z then 1 else 0)
  {
    TimesStep([], y, x);
    TimesStep([y], z, x);
    assert [] + [y] == [y] && [y] + [z] == [y, z];
  }

  /** Rounds that go on leave nothing but refused hand-offs, each counted as a failure. */
  lemma {:induction false} RoundsThatGoOn(world: nat -> Round, n: nat, x: Effect)
    requires forall i: nat | i < n :: GoesOn(world(i))
    ensures x != HandOff(false) && x != Count(false) ==> Times(Effects(world, n), x) == 0
    ensures Times(Effects(world, n), HandOff(false)) == Times(Effects(world, n), Count(false))
  {
    if n == 0 {
    } else {
      RoundsThatGoOn(world, n - 1, x);
      TimesConcat(Effects(world, n - 1), RoundEffects(world(n - 1)), x);
      TimesConcat(Effects(world, n - 1), RoundEffects(world(n - 1)), HandOff(false));
      TimesConcat(Effects(world, n - 1), RoundEffects(world(n - 1)), Count(false));
      TimesInRound(world(n - 1), x);
      TimesInRound(world(n - 1), HandOff(false));
      TimesInRound(world(n - 1), Count(false));
    }
  }

  /** The rounds among the first n that found the context alive and got as far as a. */
  ghost function RoundsWith(world: nat -> Round, n: nat, a: Attempt): set<nat> {
    set i: nat | i < n && !world(i).ctxDone && world(i).attempt == a
  }

  lemma RoundsWithStep(world: nat -> Round, n: nat, a: Attempt)
    requires n > 0
    ensures |RoundsWith(world, n, a)|
         == |RoundsWith(world, n - 1, a)| + if !world(n - 1).ctxDone && world(n - 1).attempt == a then 1 else 0
  {
    var before, after := RoundsWith(world, n - 1, a), RoundsWith(world, n, a);
    var reached := !world(n - 1).ctxDone && world(n - 1).attempt == a;
    assert forall i: nat :: i in after <==> i in before || (i == n - 1 && reached);
    assert after == before + if reached then {n - 1} else {};
  }

  /** The connection is handed the payload once in every round that has one, and is asked to flush once in every
      round in which it took the payload: no more often than there are rounds. */
  lemma HandOffsAreRounds(world: nat -> Round, n: nat)
    ensures Times(Effects(world, n), HandOff(false)) == |RoundsWith(world, n, Refused)|
    ensures Times(Effects(world, n), Flush(false)) == |RoundsWith(world, n, FlushFails)|
    ensures Times(Effects(world, n), Flush(true)) == |RoundsWith(world, n, Delivered)|
    ensures Times(Effects(world, n), HandOff(true))
         == |RoundsWith(world, n, FlushFails)| + |RoundsWith(world, n, Delivered)|
    ensures Times(Effects(world, n), HandOff(false)) + Times(Effects(world, n), HandOff(true)) <= n
  {
    forall r: Round
      ensures Marks(r, HandOff(false), Refused)
      ensures Marks(r, Flush(false), FlushFails) && Marks(r, Flush(true), Delivered)
    {
      EffectsOfRound(r);
    }
    EffectIsRounds(world, n, HandOff(false), Refused);
    EffectIsRounds(world, n, Flush(false), FlushFails);
    EffectIsRounds(world, n, Flush(true), Delivered);
    HandedIsFlushed(world, n);
  }

  lemma {:induction false} EffectIsRounds(world: nat -> Round, n: nat, x: Effect, a: Attempt)
    requires forall r: Round :: Marks(r, x, a)
    ensures Times(Effects(world, n), x) == |RoundsWith(world, n, a)|
  {
    if n > 0 {
      EffectIsRounds(world, n - 1, x, a);
      assert Marks(world(n - 1), x, a);
      RoundsWithStep(world, n, a);
      LastRoundAdds(world, n, x);
    } else {
      assert RoundsWith(world, 0, a) == {};
    }
  }

  lemma {:induction false} HandedIsFlushed(world: nat -> Round, n: nat)
    ensures Times(Effects(world, n), HandOff(true))
         == Times(Effects(world, n), Flush(false)) + Times(Effects(world, n), Flush(true))
    ensures Times(Effects(world, n), HandOff(false)) + Times(Effects(world, n), HandOff(true)) <= n
  {
    if n > 0 {
      HandedIsFlushed(world, n - 1);
      LastRoundAdds(world, n, HandOff(false));
      LastRoundAdds(world, n, HandOff(true));
      LastRoundAdds(world, n, Flush(false));
      LastRoundAdds(world, n, Flush(true));
      HandedInRound(world(n - 1));
    }
  }

  lemma HandedInRound(r: Round)
    ensures var e := RoundEffects(r);
            && (HandOff(true) in e <==> Flush(false) in e || Flush(true) in e)
            && !(Flush(false) in e && Flush(true) in e) && !(HandOff(true) in e && HandOff(false) in e)
  {
  }

  /** A round has the effect exactly when it finds the context alive and gets as far as a. */
  ghost predicate Marks(r: Round, x: Effect, a: Attempt) {
    x in RoundEffects(r) <==> !r.ctxDone && r.attempt == a
  }

  lemma EffectsOfRound(r: Round)
    ensures Marks(r, HandOff(false), Refused) && Marks(r, Flush(false), FlushFails) && Marks(r, Flush(true), Delivered)
  {
  }

  lemma LastRoundAdds(world: nat -> Round, n: nat, x: Effect)
    requires n > 0
    ensures Times(Effects(world, n), x)
            == Times(Effects(world, n - 1), x) + if x in RoundEffects(world(n - 1)) then 1 else 0
  {
    TimesConcat(Effects(world, n - 1), RoundEffects(world(n - 1)), x);
    TimesInRound(world(n - 1), x);
  }

  lemma LastRoundDecides(world: nat -> Round, limit: nat, n: nat, x: Effect)
    requires StopsAfter(world, limit, n)
    ensures x != HandOff(false) && x != Count(false) ==>
              Times(Effects(world, n), x) == if x in RoundEffects(world(n - 1)) then 1 else 0
  {
    RoundsThatGoOn(world, n - 1, x);
    LastRoundAdds(world, n, x);
  }

  lemma FailureInRound(r: Round)
    ensures Times(RoundEffects(r), Count(false))
         == Times(RoundEffects(r), HandOff(false)) + Times(RoundEffects(r), Flush(false))
  {
    TimesInRound(r, Count(false));
    TimesInRound(r, HandOff(false));
    TimesInRound(r, Flush(false));
  }

  lemma FailuresAreCounted(world: nat -> Round, limit: nat, n: nat)
    requires StopsAfter(world, limit, n)
    ensures Times(Effects(world, n), Count(false))
         == Times(Effects(world, n), HandOff(false)) + Times(Effects(world, n), Flush(false))
  {
    var before, last := Effects(world, n - 1), RoundEffects(world(n - 1));
    RoundsThatGoOn(world, n - 1, Flush(false));
    FailureInRound(world(n - 1));
    TimesConcat(before, last, HandOff(false));
    TimesConcat(before, last, Count(false));
    TimesConcat(before, last, Flush(false));
  }

  /** For every sequence of outcomes: the payload is handed over at most once; the call succeeds exactly
      when that hand-over and its flush both did; success is counted once exactly then, and failure once
      for every refused hand-over and every failed flush. */
  lemma PublishIsExact(world: nat -> Round, limit: nat, n: nat)
    requires StopsAfter(world, limit, n)
    ensures var err, log := Verdict(world(n - 1), n == limit), Effects(world, n);
            && Times(log, HandOff(true)) <= 1
            && (err.None? <==> Times(log, HandOff(true)) == 1 && Times(log, Flush(true)) == 1)
            && Times(log, Count(true)) == (if err.None? then 1 else 0)
            && Times(log, Count(false)) == Times(log, HandOff(false)) + Times(log, Flush(false))
            && Times(log, Flush(true)) + Times(log, Flush(false)) == Times(log, HandOff(true))
  {
    LastRoundDecides(world, limit, n, HandOff(true));
    LastRoundDecides(world, limit, n, Flush(true));
    LastRoundDecides(world, limit, n, Flush(false));
    LastRoundDecides(world, limit, n, Count(true));
    FailuresAreCounted(world, limit, n);
  }

  /** An error is marked retryable only when the payload was never handed over, so repeating the call
      cannot send it twice; conversely an error after a hand-over is a failed flush and is not retryable. */
  lemma RetryableMeansNotSent(world: nat -> Round, limit: nat, n: nat)
    requires StopsAfter(world, limit, n) && Verdict(world(n - 1), n == limit).Some?
    ensures var failure, log := Verdict(world(n - 1), n == limit).value, Effects(world, n);
            && (failure.retryable ==> n == limit && Times(log, HandOff(true)) == 0)
            && (Times(log, HandOff(true)) == 1 ==>
                  failure == Failure(PublishFailed, false) && Times(log, Flush(false)) == 1)
            && (n < limit && Times(log, HandOff(true)) == 0 ==>
                  !failure.retryable && (world(n - 1).ctxDone || world(n - 1).waitCut))
  {
    LastRoundDecides(world, limit, n, HandOff(true));
    LastRoundDecides(world, limit, n, Flush(false));
  }
}

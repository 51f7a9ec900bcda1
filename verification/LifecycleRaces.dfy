/** A client Start that is about to return nil, racing with a Close or a session-closed callback
    (agentcore/client.go, agentcore/handlers_runtime.go): exactly which interleavings of their writes leave
    callbacks enabled on a dead handler context. */
module LifecycleRaces {
  import opened Common

  type CtxId = nat

  /** The callback flag, the handler context, the cancel function kept for it, and the contexts ended; taken is
      the cancel function the closing side has in hand. */
  datatype Gate = Gate(enabled: bool, ctx: Option<CtxId>, cancel: Option<CtxId>, ended: set<CtxId>, next: CtxId,
      taken: Option<CtxId>)

  /** Start ensures a live context and enables callbacks; Close and the session-closed callback disable them,
      take the cancel function, and call it outside the mutex. */
  datatype Write = Ensures | Enables | Disables | Takes | Ends

  predicate Live(g: Gate) {
    g.ctx.Some? && g.ctx.value !in g.ended
  }

  function Apply(g: Gate, w: Write): Gate {
    match w
    case Ensures => if Live(g) then g else g.(ctx := Some(g.next), cancel := Some(g.next), next := g.next + 1)
    case Enables => g.(enabled := true)
    case Disables => g.(enabled := false)
    case Takes => g.(cancel := None, taken := g.cancel)
    case Ends => if g.taken.Some? then g.(ended := g.ended + {g.taken.value}) else g
  }

  function ApplyAll(g: Gate, ws: seq<Write>): Gate
    decreases |ws|
  {
    if ws == [] then g else ApplyAll(Apply(g, ws[0]), ws[1..])
  }

  /** The state between calls: callbacks are enabled exactly on a live context, which can be cancelled. */
  ghost predicate Settled(g: Gate) {
    && g.enabled == Live(g) && g.cancel == (if Live(g) then g.ctx else None)
    && (g.ctx.Some? ==> g.ctx.value < g.next) && (forall c | c in g.ended :: c < g.next)
  }

  /** Callbacks run, on a context that is dead. */
  predicate OpenOnDeadContext(g: Gate) {
    g.enabled && !Live(g)
  }

  // ---------- interleavings ----------

  function Closing(): seq<Write> {
    [Disables, Takes, Ends]
  }

  /** The interleaving in which i of the closing writes come before the context is ensured and j before
      callbacks are enabled. Every interleaving of the two calls is one of these. */
  function Interleaved(i: nat, j: nat): seq<Write>
    requires i <= j <= 3
  {
    Closing()[..i] + [Ensures] + Closing()[i..j] + [Enables] + Closing()[j..]
  }

  /** Callbacks are enabled after they were disabled, and the context they are enabled on is the one the
      closing side ends: it was ensured before that context was ended, or, if there was none, before its
      cancel function was taken. */
  predicate Clash(wasLive: bool, i: nat, j: nat) {
    j >= 1 && i <= if wasLive then 2 else 1
  }

  lemma ApplyConcat(g: Gate, xs: seq<Write>, ys: seq<Write>)
    ensures ApplyAll(g, xs + ys) == ApplyAll(ApplyAll(g, xs), ys)
    decreases |xs|
  {
    if xs == [] {
      assert xs + ys == ys;
    } else {
      ApplyConcat(Apply(g, xs[0]), xs[1..], ys);
      assert (xs + ys)[1..] == xs[1..] + ys;
    }
  }

  /** The state after closing writes lo to hi - 1. */
  function Closed(g: Gate, lo: nat, hi: nat): Gate {
    var g1 := if lo <= 0 < hi then Apply(g, Disables) else g;
    var g2 := if lo <= 1 < hi then Apply(g1, Takes) else g1;
    if lo <= 2 < hi then Apply(g2, Ends) else g2
  }

  lemma {:induction false} ClosedIs(g: Gate, lo: nat, hi: nat)
    requires lo <= hi <= 3
    ensures ApplyAll(g, Closing()[lo..hi]) == Closed(g, lo, hi)
    decreases hi
  {
    if lo == hi {
      assert Closing()[lo..hi] == [];
    } else {
      ClosedIs(g, lo, hi - 1);
      var last := Closing()[hi - 1];
      assert Closing()[lo..hi] == Closing()[lo..hi - 1] + [last];
      ApplyConcat(g, Closing()[lo..hi - 1], [last]);
      ApplyOne(Closed(g, lo, hi - 1), last);
    }
  }

  lemma ApplyOne(g: Gate, w: Write)
    ensures ApplyAll(g, [w]) == Apply(g, w)
  {
    assert ApplyAll(Apply(g, w), [w][1..]) == Apply(g, w);
  }

  /** The interleaving, call by call. */
  lemma InterleavedIs(g: Gate, i: nat, j: nat)
    requires i <= j <= 3
    ensures ApplyAll(g, Interleaved(i, j))
         == Closed(Apply(Closed(Apply(Closed(g, 0, i), Ensures), i, j), Enables), j, 3)
  {
    var g1 := Closed(g, 0, i);
    var g2 := Apply(g1, Ensures);
    var g3 := Closed(g2, i, j);
    var g4 := Apply(g3, Enables);
    ClosedIs(g, 0, i);
    ClosedIs(g2, i, j);
    ClosedIs(g4, j, 3);
    ApplyOne(g1, Ensures);
    ApplyOne(g3, Enables);
    assert Closing()[0..i] == Closing()[..i] && Closing()[j..3] == Closing()[j..];
    ApplyConcat(g, Closing()[..i], [Ensures]);
    ApplyConcat(g, Closing()[..i] + [Ensures], Closing()[i..j]);
    ApplyConcat(g, Closing()[..i] + [Ensures] + Closing()[i..j], [Enables]);
    ApplyConcat(g, Closing()[..i] + [Ensures] + Closing()[i..j] + [Enables], Closing()[j..]);
  }

  // ---------- exactly when it goes wrong ----------

  /** A Start and a closing call that overlap leave callbacks enabled on a dead context if and only if they
      clash; otherwise the state they leave is settled again, whichever came out on top. */
  lemma OpenOnDeadContextIff(g: Gate, i: nat, j: nat)
    requires Settled(g) && i <= j <= 3
    ensures var after := ApplyAll(g, Interleaved(i, j));
            && (OpenOnDeadContext(after) <==> Clash(Live(g), i, j))
            && (!Clash(Live(g), i, j) ==> Settled(after))
  {
    InterleavedIs(g, i, j);
  }

  /** The shortest clash: the whole closing call runs between the two writes of the Start. */
  lemma ClosedBetweenTheWrites(g: Gate)
    requires Settled(g)
    ensures OpenOnDeadContext(ApplyAll(g, [Ensures, Disables, Takes, Ends, Enables]))
  {
    OpenOnDeadContextIff(g, 0, 3);
    assert Interleaved(0, 3) == [Ensures, Disables, Takes, Ends, Enables];
  }

  /** Calls that do not overlap never clash, in either order. */
  lemma OneAfterTheOther(g: Gate)
    requires Settled(g)
    ensures Settled(ApplyAll(g, [Ensures, Enables] + Closing())) && !ApplyAll(g, [Ensures, Enables] + Closing()).enabled
    ensures Settled(ApplyAll(g, Closing() + [Ensures, Enables])) && ApplyAll(g, Closing() + [Ensures, Enables]).enabled
  {
    OpenOnDeadContextIff(g, 0, 0);
    OpenOnDeadContextIff(g, 3, 3);
    InterleavedIs(g, 0, 0);
    InterleavedIs(g, 3, 3);
    assert Interleaved(0, 0) == [Ensures, Enables] + Closing();
    assert Interleaved(3, 3) == Closing() + [Ensures, Enables];
  }
}

/** The consumer of one desired-config watch and its stop function (internal/kv/watch.go). */
module WatchStream {
  import opened Common
  import opened Text
  import opened Records

  datatype Operation = Put | Delete | Purge

  datatype Entry = Entry(op: Operation, value: Bytes, bucket: string, key: string, revision: nat, created: Time)

  /** What the select of one round received: the end of the watch context, the closing of the update
      channel (with the context still alive or not), the nil marker, or an update. */
  datatype Round = Canceled | Closed(ctxAlive: bool) | Marker | Update(entry: Entry)

  datatype Report = Terminated | HandlerFailed | DecodeFailed

  /** What can be seen of the consumer from outside, in order. */
  datatype Effect = Ready | Handles(stored: Stored) | Reports(report: Report)

  /** What a watch is started with. */
  datatype Watch = Watch(letters: Alphabet, json: Json, target: string)

  // ---------- specification ----------

  predicate IsDeletion(e: Entry) {
    e.op == Delete || e.op == Purge || e.value == []
  }

  /** The record an update stands for, unless it cannot be decoded. */
  function Meaning(w: Watch, e: Entry): Option<Stored> {
    if IsDeletion(e) then
      Some(Stored(Record("", "", w.target, "", [], 0), e.bucket, e.key, e.revision, e.created, true))
    else
      match Decode(w.letters, w.json, e.value)
      case Err(_) => None
      case Ok(rec) =>
        Some(Stored(rec, e.bucket, e.key, e.revision, if e.created != 0 then e.created else rec.timestamp, false))
  }

  predicate Ends(r: Round) {
    r.Canceled? || r.Closed?
  }

  /** The consumer goes through the first n rounds: it goes on until one of them ends it. */
  ghost predicate GoesThrough(rounds: seq<Round>, n: nat) {
    && n <= |rounds|
    && (forall i | 0 <= i < n - 1 :: !Ends(rounds[i]))
    && (n == |rounds| || (n > 0 && Ends(rounds[n - 1])))
  }

  predicate Ended(rounds: seq<Round>) {
    rounds != [] && Ends(rounds[|rounds| - 1])
  }

  /** The decodable updates, in their order. */
  function Deliverable(w: Watch, rounds: seq<Round>): seq<Stored> {
    if rounds == [] then []
    else
      var front, last := rounds[..|rounds| - 1], rounds[|rounds| - 1];
      if last.Update? && Meaning(w, last.entry).Some? then Deliverable(w, front) + [Meaning(w, last.entry).value]
      else Deliverable(w, front)
  }

  predicate Undecodable(w: Watch, r: Round) {
    r.Update? && Meaning(w, r.entry).None?
  }

  function CountUndecodable(w: Watch, rounds: seq<Round>): nat {
    if rounds == [] then 0
    else CountUndecodable(w, rounds[..|rounds| - 1]) + if Undecodable(w, rounds[|rounds| - 1]) then 1 else 0
  }

  /** Delivering the records in order; fails(k) tells whether the k-th call of the handler fails. */
  function Deliveries(records: seq<Stored>, fails: nat -> bool): seq<Effect> {
    if records == [] then []
    else
      var k := |records| - 1;
      Deliveries(records[..k], fails) + [Handles(records[k])] + if fails(k) then [Reports(HandlerFailed)] else []
  }

  /** The effects about the handler: its calls and the reports of its failures. */
  function HandlerPart(log: seq<Effect>): seq<Effect> {
    if log == [] then []
    else
      var last := log[|log| - 1];
      HandlerPart(log[..|log| - 1]) + if last.Handles? || last == Reports(HandlerFailed) then [last] else []
  }

  ghost predicate ReadyFirst(log: seq<Effect>) {
    forall i | 0 <= i < |log| && log[i].Handles? :: Ready in log[..i]
  }

  function Times(log: seq<Effect>, x: Effect): nat {
    if log == [] then 0
    else Times(log[..|log| - 1], x) + if log[|log| - 1] == x then 1 else 0
  }

  /** The handler saw nothing if no marker was reached, and otherwise exactly the decodable updates, in
      order and each once, with every failure reported right after its call. */
  ghost predicate Delivered(w: Watch, seen: seq<Round>, fails: nat -> bool, log: seq<Effect>) {
    HandlerPart(log) == if Marker in seen then Deliveries(Deliverable(w, seen), fails) else []
  }

  /** Readiness is announced at most once, before every call of the handler, and at the latest on exit. */
  ghost predicate ReadyOnce(seen: seq<Round>, log: seq<Effect>) {
    ReadyFirst(log) && Times(log, Ready) == if Marker in seen || Ended(seen) then 1 else 0
  }

  /** Each undecodable update is reported once, and an update channel that closes under a live context. */
  ghost predicate Reported(w: Watch, seen: seq<Round>, log: seq<Effect>) {
    && Times(log, Reports(DecodeFailed)) == CountUndecodable(w, seen)
    && Times(log, Reports(Terminated)) == if seen != [] && seen[|seen| - 1] == Closed(true) then 1 else 0
  }

  // ---------- the loop ----------

  /** Hands a stretch of records to the handler; calls counts the calls made before. */
  method HandOver(records: seq<Stored>, fails: nat -> bool, log: seq<Effect>) returns (after: seq<Effect>)
    ensures after == log + Deliveries(records, fails)
  {
    after := log;
    for k := 0 to |records|
      invariant after == log + Deliveries(records[..k], fails)
    {
      assert records[..k + 1][..k] == records[..k];
      after := after + [Handles(records[k])];
      if fails(k) {
        after := after + [Reports(HandlerFailed)];
      }
    }
    assert records[..|records|] == records;
  }

  method MarkReady(log: seq<Effect>) returns (after: seq<Effect>)
    ensures after == WithReady(log)
  {
    after := log;
    if Ready !in log {
      after := after + [Ready];
    }
  }

  /** One round that does not end the consumer. */
  method Receive(w: Watch, ghost past: seq<Round>, fails: nat -> bool, round: Round,
                 log: seq<Effect>, buffer: seq<Stored>, isReady: bool, calls: nat)
    returns (log': seq<Effect>, buffer': seq<Stored>, isReady': bool, calls': nat)
    requires Progress(w, past, fails, log, buffer, isReady, calls) && !Ended(past) && !Ends(round)
    ensures Progress(w, past + [round], fails, log', buffer', isReady', calls')
  {
    log', buffer', isReady', calls' := log, buffer, isReady, calls;
    if round.Marker? {
      AtMarker(w, past, fails, log, buffer, isReady, calls);
      log' := MarkReady(log);
      log' := HandOver(buffer, fails, log');
      calls' := calls + |buffer|;
      buffer' := [];
      isReady' := true;
      return;
    }
    var stored := Meaning(w, round.entry);
    if stored.None? {
      AtUndecodable(w, past, fails, log, buffer, isReady, calls, round.entry);
      log' := log + [Reports(DecodeFailed)];
    } else if !isReady {
      AtEarlyUpdate(w, past, fails, log, buffer, calls, round.entry);
      buffer' := buffer + [stored.value];
    } else {
      AtLiveUpdate(w, past, fails, log, calls, round.entry);
      log' := log + [Handles(stored.value)];
      if fails(calls) {
        log' := log' + [Reports(HandlerFailed)];
      }
      calls' := calls + 1;
    }
  }

  /** The round that ends it. */
  method Finish(w: Watch, ghost past: seq<Round>, fails: nat -> bool, round: Round,
                log: seq<Effect>, ghost buffer: seq<Stored>, ghost isReady: bool, ghost calls: nat)
    returns (log': seq<Effect>)
    requires Progress(w, past, fails, log, buffer, isReady, calls) && !Ended(past) && Ends(round)
    ensures Delivered(w, past + [round], fails, log')
    ensures ReadyOnce(past + [round], log')
    ensures Reported(w, past + [round], log')
  {
    AtEnd(w, past, fails, log, buffer, isReady, calls, round);
    log' := log;
    if round == Closed(true) {
      log' := log' + [Reports(Terminated)];
    }
    log' := MarkReady(log');
  }

  /** Whatever the stream, the handler's effects are those of one in-order delivery of the decodable
      updates gone through, or nothing if no marker was reached; readiness comes before all of them. */
  method ConsumeWatch(w: Watch, rounds: seq<Round>, fails: nat -> bool) returns (log: seq<Effect>, n: nat)
    ensures GoesThrough(rounds, n)
    ensures Delivered(w, rounds[..n], fails, log)
    ensures ReadyOnce(rounds[..n], log)
    ensures Reported(w, rounds[..n], log)
  {
    log, n := [], 0;
    var buffer: seq<Stored> := [];
    var isReady := false;
    var calls: nat := 0;
    ghost var past: seq<Round> := [];
    while n < |rounds|
      invariant n <= |rounds| && forall i | 0 <= i < n :: !Ends(rounds[i])
      invariant past == rounds[..n] && !Ended(past) && Progress(w, past, fails, log, buffer, isReady, calls)
    {
      var round := rounds[n];
      assert rounds[..n + 1] == past + [round];
      n := n + 1;
      if Ends(round) {
        log := Finish(w, past, fails, round, log, buffer, isReady, calls);
        return;
      }
      log, buffer, isReady, calls := Receive(w, past, fails, round, log, buffer, isReady, calls);
      past := past + [round];
    }
  }

  // ---------- steps of the loop ----------

  ghost predicate Buffered(w: Watch, past: seq<Round>, buffer: seq<Stored>, isReady: bool, calls: nat) {
    && isReady == (Marker in past)
    && buffer == (if isReady then [] else Deliverable(w, past))
    && calls == if isReady then |Deliverable(w, past)| else 0
  }

  ghost predicate Progress(w: Watch, past: seq<Round>, fails: nat -> bool, log: seq<Effect>, buffer: seq<Stored>,
                           isReady: bool, calls: nat) {
    Buffered(w, past, buffer, isReady, calls) && Delivered(w, past, fails, log) && ReadyOnce(past, log)
        && Reported(w, past, log)
  }

  lemma LogStep(log: seq<Effect>, x: Effect)
    ensures HandlerPart(log + [x]) == HandlerPart(log) + if x.Handles? || x == Reports(HandlerFailed) then [x] else []
    ensures forall y :: Times(log + [x], y) == Times(log, y) + if x == y then 1 else 0
  {
    assert (log + [x])[..|log|] == log;
  }

  lemma {:induction false} LogConcat(log: seq<Effect>, more: seq<Effect>, y: Effect)
    ensures HandlerPart(log + more) == HandlerPart(log) + HandlerPart(more)
    ensures Times(log + more, y) == Times(log, y) + Times(more, y)
  {
    if more == [] {
      assert log + more == log;
    } else {
      var front := more[..|more| - 1];
      LogConcat(log, front, y);
      LogStep(log + front, more[|more| - 1]);
      assert log + more == log + front + [more[|more| - 1]];
    }
  }

  predicate IsHandlerEffect(x: Effect) {
    x.Handles? || x == Reports(HandlerFailed)
  }

  lemma {:induction false} DeliveriesAreHandlerEffects(records: seq<Stored>, fails: nat -> bool, y: Effect)
    ensures HandlerPart(Deliveries(records, fails)) == Deliveries(records, fails)
    ensures !IsHandlerEffect(y) ==> Times(Deliveries(records, fails), y) == 0
  {
    if records == [] {
    } else {
      var k := |records| - 1;
      var front := Deliveries(records[..k], fails);
      DeliveriesAreHandlerEffects(records[..k], fails, y);
      LogStep(front, Handles(records[k]));
      LogStep(front + [Handles(records[k])], Reports(HandlerFailed));
      assert front + [Handles(records[k])] + [] == front + [Handles(records[k])];
    }
  }

  lemma {:induction false} TimesPositive(log: seq<Effect>, x: Effect)
    ensures x in log <==> Times(log, x) > 0
  {
    if log == [] {
    } else {
      var front, last := log[..|log| - 1], log[|log| - 1];
      TimesPositive(front, x);
      assert log == front + [last];
    }
  }

  lemma PastStep(w: Watch, past: seq<Round>, round: Round)
    ensures Marker in past + [round] <==> Marker in past || round == Marker
    ensures Deliverable(w, past + [round]) == Deliverable(w, past)
         + if round.Update? && Meaning(w, round.entry).Some? then [Meaning(w, round.entry).value] else []
    ensures CountUndecodable(w, past + [round]) == CountUndecodable(w, past) + if Undecodable(w, round) then 1 else 0
  {
    assert (past + [round])[..|past|] == past;
  }

  function WithReady(log: seq<Effect>): seq<Effect> {
    if Ready in log then log else log + [Ready]
  }

  lemma AtReady(log: seq<Effect>)
    requires ReadyFirst(log) && Times(log, Ready) <= 1
    ensures ReadyFirst(WithReady(log)) && Times(WithReady(log), Ready) == 1 && Ready in WithReady(log)
    ensures HandlerPart(WithReady(log)) == HandlerPart(log)
    ensures forall r :: Times(WithReady(log), Reports(r)) == Times(log, Reports(r))
  {
    LogStep(log, Ready);
    TimesPositive(log, Ready);
    if Ready !in log {
      ReadyFirstStep(log, Ready);
    }
  }

  lemma ReadyFirstStep(log: seq<Effect>, x: Effect)
    requires ReadyFirst(log) && (x.Handles? ==> Ready in log)
    ensures ReadyFirst(log + [x])
  {
    var after := log + [x];
    forall i | 0 <= i < |after| && after[i].Handles?
      ensures Ready in after[..i]
    {
      assert after[..i] == log[..i];
      assert i == |log| ==> log[..i] == log;
    }
  }

  lemma {:induction false} ReadyFirstConcat(log: seq<Effect>, more: seq<Effect>)
    requires Ready in log && ReadyFirst(log)
    ensures ReadyFirst(log + more)
  {
    if more == [] {
      assert log + more == log;
    } else {
      var front := more[..|more| - 1];
      ReadyFirstConcat(log, front);
      ReadyFirstStep(log + front, more[|more| - 1]);
      assert log + more == log + front + [more[|more| - 1]];
    }
  }

  /** Flushing the buffer adds only handler effects. */
  lemma FlushIsQuiet(log: seq<Effect>, buffer: seq<Stored>, fails: nat -> bool)
    requires Ready in log && ReadyFirst(log)
    ensures var after := log + Deliveries(buffer, fails);
            && ReadyFirst(after) && HandlerPart(after) == HandlerPart(log) + Deliveries(buffer, fails)
            && forall y: Effect | !IsHandlerEffect(y) :: Times(after, y) == Times(log, y)
  {
    ReadyFirstConcat(log, Deliveries(buffer, fails));
    forall y: Effect
      ensures HandlerPart(log + Deliveries(buffer, fails)) == HandlerPart(log) + Deliveries(buffer, fails)
      ensures !IsHandlerEffect(y) ==> Times(log + Deliveries(buffer, fails), y) == Times(log, y)
    {
      LogConcat(log, Deliveries(buffer, fails), y);
      DeliveriesAreHandlerEffects(buffer, fails, y);
    }
    LogConcat(log, Deliveries(buffer, fails), Ready);
    DeliveriesAreHandlerEffects(buffer, fails, Ready);
  }

  lemma AtMarker(w: Watch, past: seq<Round>, fails: nat -> bool, log: seq<Effect>, buffer: seq<Stored>, isReady: bool,
                 calls: nat)
    requires Progress(w, past, fails, log, buffer, isReady, calls) && !Ended(past)
    ensures Progress(w, past + [Marker], fails, WithReady(log) + Deliveries(buffer, fails), [], true, calls + |buffer|)
  {
    MarkerIsCounted(w, past, fails, log, buffer);
    MarkerDelivers(w, past, fails, log, buffer, isReady, calls);
  }

  lemma MarkerDelivers(w: Watch, past: seq<Round>, fails: nat -> bool, log: seq<Effect>, buffer: seq<Stored>,
                       isReady: bool,
                       calls: nat)
    requires Buffered(w, past, buffer, isReady, calls) && Delivered(w, past, fails, log)
    requires ReadyFirst(log) && Times(log, Ready) <= 1
    ensures Buffered(w, past + [Marker], [], true, calls + |buffer|)
    ensures Delivered(w, past + [Marker], fails, WithReady(log) + Deliveries(buffer, fails))
  {
    PastStep(w, past, Marker);
    AtReady(log);
    FlushIsQuiet(WithReady(log), buffer, fails);
  }

  lemma MarkerIsCounted(w: Watch, past: seq<Round>, fails: nat -> bool, log: seq<Effect>, buffer: seq<Stored>)
    requires ReadyOnce(past, log) && Reported(w, past, log) && !Ended(past)
    ensures ReadyOnce(past + [Marker], WithReady(log) + Deliveries(buffer, fails))
    ensures Reported(w, past + [Marker], WithReady(log) + Deliveries(buffer, fails))
  {
    PastStep(w, past, Marker);
    AtReady(log);
    FlushIsQuiet(WithReady(log), buffer, fails);
  }

  /** The exits: the context ended, or the channel closed. */
  lemma AtEnd(w: Watch, past: seq<Round>, fails: nat -> bool, log: seq<Effect>, buffer: seq<Stored>, isReady: bool,
              calls: nat, round: Round)
    requires Progress(w, past, fails, log, buffer, isReady, calls) && !Ended(past) && Ends(round)
    ensures var last := if round == Closed(true) then log + [Reports(Terminated)] else log;
            && Delivered(w, past + [round], fails, WithReady(last))
            && ReadyOnce(past + [round], WithReady(last))
            && Reported(w, past + [round], WithReady(last))
  {
    PastStep(w, past, round);
    LogStep(log, Reports(Terminated));
    ReadyFirstStep(log, Reports(Terminated));
    AtReady(if round == Closed(true) then log + [Reports(Terminated)] else log);
  }

  lemma AtUndecodable(w: Watch, past: seq<Round>, fails: nat -> bool, log: seq<Effect>, buffer: seq<Stored>,
                      isReady: bool, calls: nat,
                      entry: Entry)
    requires Progress(w, past, fails, log, buffer, isReady, calls) && !Ended(past) && Meaning(w, entry).None?
    ensures Progress(w, past + [Update(entry)], fails, log + [Reports(DecodeFailed)], buffer, isReady, calls)
  {
    PastStep(w, past, Update(entry));
    LogStep(log, Reports(DecodeFailed));
    ReadyFirstStep(log, Reports(DecodeFailed));
  }

  lemma AtEarlyUpdate(w: Watch, past: seq<Round>, fails: nat -> bool, log: seq<Effect>, buffer: seq<Stored>, calls: nat,
                      entry: Entry)
    requires Progress(w, past, fails, log, buffer, false, calls) && !Ended(past) && Meaning(w, entry).Some?
    ensures Progress(w, past + [Update(entry)], fails, log, buffer + [Meaning(w, entry).value], false, calls)
  {
    PastStep(w, past, Update(entry));
  }

  lemma AtLiveUpdate(w: Watch, past: seq<Round>, fails: nat -> bool, log: seq<Effect>, calls: nat, entry: Entry)
    requires Progress(w, past, fails, log, [], true, calls) && !Ended(past) && Meaning(w, entry).Some?
    ensures var called := log + [Handles(Meaning(w, entry).value)];
            Progress(w, past + [Update(entry)], fails,
                     if fails(calls) then called + [Reports(HandlerFailed)] else called, [], true, calls + 1)
  {
    var records, stored := Deliverable(w, past), Meaning(w, entry).value;
    PastStep(w, past, Update(entry));
    assert (records + [stored])[..|records|] == records;
    LogStep(log, Handles(stored));
    LogStep(log + [Handles(stored)], Reports(HandlerFailed));
    TimesPositive(log, Ready);
    ReadyFirstStep(log, Handles(stored));
    ReadyFirstStep(log + [Handles(stored)], Reports(HandlerFailed));
  }

  // ---------- what delivery means ----------

  /** A decodable update has its own place among the deliveries: after those of the updates before it and
      before those of the updates after it. */
  lemma {:induction false} UpdatesAreDeliveredInPlace(w: Watch, rounds: seq<Round>, i: nat)
    requires i < |rounds| && rounds[i].Update? && Meaning(w, rounds[i].entry).Some?
    ensures var place := |Deliverable(w, rounds[..i])|;
            && place < |Deliverable(w, rounds)|
            && Deliverable(w, rounds)[place] == Meaning(w, rounds[i].entry).value
            && Deliverable(w, rounds)[..place] == Deliverable(w, rounds[..i])
    decreases |rounds|
  {
    var front := rounds[..|rounds| - 1];
    if i == |front| {
    } else {
      UpdatesAreDeliveredInPlace(w, front, i);
      assert front[..i] == rounds[..i];
    }
  }

  /** What is delivered for an update, in its place: for a deletion, a purge or an empty value a record marked as
      deleted that names the watched target and nothing else; for any other the decoded record; and nothing if
      that cannot be decoded. Bucket, key and revision are the update's own, and so is the creation time unless
      it is missing. */
  lemma DeliveredIsWhatWasWritten(w: Watch, rounds: seq<Round>, i: nat)
    requires i < |rounds| && rounds[i].Update?
    ensures var e, place := rounds[i].entry, |Deliverable(w, rounds[..i])|;
            var gone, decoded := e.op == Delete || e.op == Purge || e.value == [], Decode(w.letters, w.json, e.value);
            && (gone || decoded.Ok? ==>
                  place < |Deliverable(w, rounds)| && |Deliverable(w, rounds[..i + 1])| == place + 1
                  && var s := Deliverable(w, rounds)[place];
                     && s.bucket == e.bucket && s.key == e.key && s.revision == e.revision
                     && s.deleted == gone
                     && s.record == (if gone then Record("", "", w.target, "", [], 0) else decoded.value)
                     && s.createdAt == if e.created != 0 then e.created else s.record.timestamp)
            && (!gone && decoded.Err? ==> Deliverable(w, rounds[..i + 1]) == Deliverable(w, rounds[..i]))
  {
    assert rounds[..i + 1][..i] == rounds[..i];
    if Meaning(w, rounds[i].entry).Some? {
      UpdatesAreDeliveredInPlace(w, rounds, i);
    }
  }

  function CountFailures(fails: nat -> bool, n: nat): nat {
    if n == 0 then 0 else CountFailures(fails, n - 1) + if fails(n - 1) then 1 else 0
  }

  /** Delivering calls the handler once for each record, in order, and reports each failure right after the call
      that failed; it does nothing else. */
  lemma {:induction false} DeliveriesAreInOrder(records: seq<Stored>, fails: nat -> bool, k: nat)
    requires k < |records|
    ensures var log, place := Deliveries(records, fails), k + CountFailures(fails, k);
            && |log| == |records| + CountFailures(fails, |records|)
            && place < |log| && log[place] == Handles(records[k])
            && (fails(k) ==> place + 1 < |log| && log[place + 1] == Reports(HandlerFailed))
  {
    var front := records[..|records| - 1];
    if front == [] {
      assert Deliveries(front, fails) == [];
    } else {
      DeliveriesAreInOrder(front, fails, if k < |front| then k else 0);
    }
  }

  function CountUpdates(rounds: seq<Round>): nat {
    if rounds == [] then 0
    else CountUpdates(rounds[..|rounds| - 1]) + if rounds[|rounds| - 1].Update? then 1 else 0
  }

  /** Every update is either delivered or reported as undecodable, and nothing else is. */
  lemma {:induction false} UpdatesAreAccountedFor(w: Watch, rounds: seq<Round>)
    ensures |Deliverable(w, rounds)| + CountUndecodable(w, rounds) == CountUpdates(rounds)
  {
    if rounds == [] {
    } else {
      UpdatesAreAccountedFor(w, rounds[..|rounds| - 1]);
    }
  }

  // ---------- the stop function ----------

  /** The stop function a watch hands out: cancels counts how often the watch was really stopped. */
  class StopHandle {
    var fired: bool
    var cancels: nat

    ghost predicate Valid()
      reads this
    {
      cancels == if fired then 1 else 0
    }

    constructor ()
      ensures Valid() && !fired
    {
      fired, cancels := false, 0;
    }

    /** However often it is called, the watch is stopped once, and only that call can return an error. */
    method Stop(cleanupTimesOut: bool) returns (failed: bool)
      requires Valid()
      modifies this
      ensures Valid() && fired && cancels == 1
      ensures failed == (!old(fired) && cleanupTimesOut)
    {
      failed := false;
      if !fired {
        fired := true;
        cancels := cancels + 1;
        failed := cleanupTimesOut;
      }
    }
  }
}

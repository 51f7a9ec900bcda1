/** Storing desired configuration and notifying its target (agentcore/client.go, internal/kv/store.go). */
module Configure {
  import opened Common
  import opened Text
  import opened Records
  import Naming
  import P = Publisher
  import S = Subjects
  import K = RegistrationKeys

  const DEFAULT_BUCKET := "cfg_desired"

  /** The names part of a configuration, as given or as resolved. */
  datatype Config = Config(letters: Alphabet, json: Json, keyPattern: string, patterns: S.Patterns, bucket: string)

  /** What configuration normalization and the subject builder make of what was given. */
  function Resolve(given: Config): Option<Config> {
    var key := Naming.NormalizeKeyPattern(given.keyPattern);
    var patterns := S.PatternsFromConfig(given.patterns);
    if key.Err? || patterns.Err? then None
    else
      Some(given.(keyPattern := key.value, patterns := patterns.value,
                  bucket := if TrimSpace(given.bucket) == "" then DEFAULT_BUCKET else TrimSpace(given.bucket)))
  }

  /** A resolved configuration. */
  predicate Accepted(cfg: Config) {
    Naming.IsNormal(cfg.keyPattern) && S.ValidatePattern(cfg.patterns.configure, 1).None? && TrimSpace(cfg.bucket) != ""
  }

  /** Resolving keeps what is given, trimmed, and puts a default in the place of what is not. */
  lemma ResolvedNames(given: Config)
    requires Resolve(given).Some?
    ensures var cfg := Resolve(given).value;
            && cfg.keyPattern
                 == (if TrimSpace(given.keyPattern) == "" then "desired.%s" else TrimSpace(given.keyPattern))
            && cfg.bucket == (if TrimSpace(given.bucket) == "" then "cfg_desired" else TrimSpace(given.bucket))
            && S.PatternsFromConfig(given.patterns) == Ok(cfg.patterns)
            && cfg.letters == given.letters && cfg.json == given.json
  {
    Naming.NormalizationIs(given.keyPattern);
  }

  /** What it hands on is accepted. */
  lemma ResolvedIsAccepted(given: Config)
    requires Resolve(given).Some?
    ensures Accepted(Resolve(given).value)
  {
    S.ResolvedPatterns(given.patterns);
    Naming.NormalizedPattern(given.keyPattern);
    TrimSpaceIdempotent(given.bucket);
    TrimSpaceEmpty(DEFAULT_BUCKET);
    assert DEFAULT_BUCKET[0] == 'c';
  }

  function BuildKey(cfg: Config, target: string): Result<Formatted, Naming.KeyError>
    requires Accepted(cfg)
  {
    Naming.BuildDesiredConfigKey(cfg.letters, cfg.keyPattern, target)
  }

  function BuildSubject(cfg: Config, target: string): Result<Formatted, S.NameError>
    requires Accepted(cfg)
  {
    S.ConfigureSubject(cfg.letters, S.Builder(cfg.patterns), target)
  }

  // ---------- the KV bucket ----------

  datatype Entry = Value(data: Bytes, revision: nat) | Tombstone(revision: nat)

  type Kv = map<string, Entry>

  datatype LoadError = BadTarget(reason: Naming.KeyError) | NotConnected | NotFound | ReadFailed
      | Unreadable(why: RecordError)

  function Slot(kv: Kv, key: string): Option<Entry> {
    if key in kv then Some(kv[key]) else None
  }

  /** A load that reaches the bucket. */
  function LoadKey(cfg: Config, kv: Kv, key: string): Result<(Record, nat), LoadError> {
    if key !in kv || kv[key].Tombstone? then Err(NotFound)
    else
      match Decode(cfg.letters, cfg.json, kv[key].data)
      case Err(e) => Err(Unreadable(e))
      case Ok(rec) => Ok((rec, kv[key].revision))
  }

  // ---------- one submission ----------

  /** The fate of a put: it lands, it lands although the call fails, or it is lost. */
  datatype PutFate = Lands | LandsUnheard | Lost

  /** What one submission meets, in the order it meets it. */
  datatype World = World(
    ctxUsable: bool,
    connected: bool,
    put: PutFate,
    readBack: Option<(nat, Time)>,
    now: Time,
    notification: Option<Bytes>,
    ctxDoneAtPublish: bool,
    attempts: int,
    rounds: nat -> P.Round)

  datatype Notification = Notification(version: string, rpcId: string, target: string, uuid: string,
                                       bucket: string, key: string, timestamp: Time)

  datatype Message = Message(subject: string, body: Notification)

  datatype Receipt = Receipt(record: Record, bucket: string, key: string, revision: nat, createdAt: Time)

  datatype Ack = Ack(rpcId: string, target: string, subject: string, acceptedAt: Time, bucket: string, key: string,
      revision: nat)

  datatype SubmitError =
    | BadContext | BadCommand(field: RecordError) | Disconnected | PutFailed
    | BadNotification | NotEncoded | NotPublished(failure: P.Failure)

  /** The required fields of a command; the target's characters are checked only by the store. */
  function ValidateCommand(json: Json, cmd: Record): Option<RecordError> {
    if TrimSpace(cmd.version) == "" then Some(VersionRequired)
    else if TrimSpace(cmd.rpcId) == "" then Some(RpcIdRequired)
    else if TrimSpace(cmd.target) == "" then Some(TargetRequired)
    else if TrimSpace(cmd.uuid) == "" then Some(UuidRequired)
    else if cmd.timestamp == 0 then Some(TimestampRequired)
    else if cmd.payload == [] then Some(PayloadRequired)
    else if !json.valid(cmd.payload) then Some(PayloadNotJson)
    else None
  }

  predicate NotificationComplete(n: Notification) {
    && TrimSpace(n.version) != "" && TrimSpace(n.rpcId) != "" && TrimSpace(n.target) != "" && TrimSpace(n.uuid) != ""
    && TrimSpace(n.bucket) != "" && TrimSpace(n.key) != "" && n.timestamp != 0
  }

  // ---------- specification ----------

  /** What keeps a record from being put: nothing else does. */
  function StoreProblem(cfg: Config, cmd: Record, connected: bool): Option<SubmitError> {
    if ValidateRecord(cfg.letters, cfg.json, cmd).Some?
        then Some(BadCommand(ValidateRecord(cfg.letters, cfg.json, cmd).value))
    else if !connected then Some(Disconnected)
    else if cfg.json.marshal(cmd).None? then Some(BadCommand(NotEncodable))
    else None
  }

  function Problem(cfg: Config, cmd: Record, w: World): Option<SubmitError> {
    if !w.ctxUsable then Some(BadContext) else StoreProblem(cfg, cmd, w.connected)
  }

  function EntryFor(cfg: Config, rec: Record, revision: nat): Entry
    requires cfg.json.marshal(rec).Some?
  {
    Value(cfg.json.marshal(rec).value, revision)
  }

  /** The key of a target: the key pattern's text around it. */
  function KeyOf(cfg: Config, target: string): string
    requires Accepted(cfg)
  {
    Naming.KeyPatternLiterals(cfg.keyPattern);
    Literals(cfg.keyPattern)[0] + target + Literals(cfg.keyPattern)[1]
  }

  /** The subject of a target: the configure pattern's text around it. */
  function SubjectOf(cfg: Config, target: string): string
    requires Accepted(cfg)
  {
    S.AcceptedPatternLiterals(cfg.patterns.configure, 1);
    Literals(cfg.patterns.configure)[0] + target + Literals(cfg.patterns.configure)[1]
  }

  function NotificationFor(cfg: Config, cmd: Record, now: Time): Notification
    requires Accepted(cfg)
  {
    Notification(cmd.version, cmd.rpcId, cmd.target, cmd.uuid, cfg.bucket, KeyOf(cfg, cmd.target), now)
  }

  function Request(w: World, subject: string): P.Request
    requires w.notification.Some?
  {
    P.Request(false, w.ctxDoneAtPublish, subject, w.notification.value)
  }

  /** The publish step runs n rounds. */
  ghost predicate Publishes(w: World, subject: string, n: nat)
    requires w.notification.Some?
  {
    if P.Reject(Request(w, subject)).Some? then n == 0
    else P.StopsAfter(w.rounds, P.Limit(w.attempts), n)
  }

  function PublishResult(w: World, subject: string, n: nat): Option<P.Failure>
    requires w.notification.Some?
  {
    if P.Reject(Request(w, subject)).Some? then P.Reject(Request(w, subject))
    else if n == 0 then None
    else P.Verdict(w.rounds(n - 1), n == P.Limit(w.attempts))
  }

  ghost predicate Applied(cfg: Config, cmd: Record, w: World) {
    Problem(cfg, cmd, w).None? && w.put != Lost
  }

  /** The submission gets as far as publishing. */
  ghost predicate Announces(cfg: Config, cmd: Record, w: World) {
    Problem(cfg, cmd, w).None? && w.put == Lands && w.now != 0 && w.notification.Some?
  }

  ghost predicate HandedOver(w: World, subject: string, n: nat)
    requires w.notification.Some?
  {
    P.Reject(Request(w, subject)).None? && P.HandOff(true) in P.Effects(w.rounds, n)
  }

  /** The notification reaches the bus: publishing handed it over. */
  ghost predicate Notifies(cfg: Config, cmd: Record, w: World, n: nat)
    requires Accepted(cfg)
  {
    Announces(cfg, cmd, w) && HandedOver(w, SubjectOf(cfg, cmd.target), n)
  }

  ghost function Answer(cfg: Config, cmd: Record, w: World, revision: nat, n: nat): Result<Ack, SubmitError>
    requires Accepted(cfg)
  {
    var key, subject := KeyOf(cfg, cmd.target), SubjectOf(cfg, cmd.target);
    var problem := Problem(cfg, cmd, w);
    if problem.Some? then Err(problem.value)
    else if w.put != Lands then Err(PutFailed)
    else if w.now == 0 then Err(BadNotification)
    else if w.notification.None? then Err(NotEncoded)
    else if PublishResult(w, subject, n).Some? then Err(NotPublished(PublishResult(w, subject, n).value))
    else Ok(Ack(cmd.rpcId, cmd.target, subject, w.now, cfg.bucket, key, revision))
  }

  // ---------- the operations ----------

  lemma TokenNotBlank(letters: Alphabet, before: string, target: string, after: string)
    requires IsToken(letters, target)
    ensures TrimSpace(before + target + after) != ""
  {
    TrimSpaceEmpty(before + target + after);
    var c := (before + target + after)[|before|];
    assert c == target[0] && IsTokenChar(letters, c);
    assert c in before + target + after && !IsSpace(c);
  }

  lemma KeyTextOf(cfg: Config, target: string)
    requires Accepted(cfg)
    ensures IsKeyText(cfg, KeyOf(cfg, target), target)
  {
    Naming.KeyPatternLiterals(cfg.keyPattern);
  }

  lemma KeyOfToken(cfg: Config, target: string)
    requires Accepted(cfg)
    ensures BuildKey(cfg, target).Ok? == IsToken(cfg.letters, target)
    ensures IsToken(cfg.letters, target) ==>
              BuildKey(cfg, target) == Ok(Formatted(KeyOf(cfg, target))) && TrimSpace(KeyOf(cfg, target)) != ""
  {
    Naming.NormalIsKept(cfg.keyPattern);
    Naming.KeyBuilding(cfg.letters, cfg.keyPattern, target);
    if IsToken(cfg.letters, target) {
      TokenNotBlank(cfg.letters, Literals(cfg.keyPattern)[0], target, Literals(cfg.keyPattern)[1]);
    }
  }

  lemma SubjectOfToken(cfg: Config, target: string)
    requires Accepted(cfg) && IsToken(cfg.letters, target)
    ensures BuildSubject(cfg, target) == Ok(Formatted(SubjectOf(cfg, target)))
    ensures TrimSpace(SubjectOf(cfg, target)) != ""
  {
    K.TargetText(cfg.letters, cfg.patterns.configure, target);
    TokenNotBlank(cfg.letters, Literals(cfg.patterns.configure)[0], target, Literals(cfg.patterns.configure)[1]);
  }

  /** A notification goes to the handlers of its own target: of all configure handlers those registered for that
      target, and no others, are on its subject. */
  lemma NotificationsReachTheirHandlers(cfg: Config, target: string, handlers: string)
    requires Accepted(cfg) && IsToken(cfg.letters, target) && IsToken(cfg.letters, handlers)
    ensures K.SubjectOf(cfg.letters, cfg.patterns, K.Route("configure", handlers, ""))
              == Ok(Formatted(SubjectOf(cfg, target)))
        <==> target == handlers
  {
    SubjectOfToken(cfg, target);
    K.TargetText(cfg.letters, cfg.patterns.configure, handlers);
    if SubjectOf(cfg, target) == SubjectOf(cfg, handlers) {
      S.CancelAround(Literals(cfg.patterns.configure)[0], target, handlers, Literals(cfg.patterns.configure)[1]);
    }
  }

  /** What the store accepts, whatever the order of its checks. */
  predicate AcceptableRecord(cfg: Config, rec: Record) {
    && TrimSpace(rec.version) != "" && TrimSpace(rec.rpcId) != "" && TrimSpace(rec.uuid) != ""
    && IsToken(cfg.letters, rec.target) && rec.timestamp != 0 && rec.payload != [] && cfg.json.valid(rec.payload)
  }

  lemma Storability(cfg: Config, rec: Record, connected: bool)
    requires Accepted(cfg)
    ensures IsKeyText(cfg, KeyOf(cfg, rec.target), rec.target)
    ensures StoreProblem(cfg, rec, connected).None? <==>
            AcceptableRecord(cfg, rec) && connected && cfg.json.marshal(rec).Some?
    ensures StoreProblem(cfg, rec, connected) == Some(Disconnected) <==> AcceptableRecord(cfg, rec) && !connected
    ensures StoreProblem(cfg, rec, connected).Some? && StoreProblem(cfg, rec, connected).value.BadCommand? <==>
            !AcceptableRecord(cfg, rec) || (connected && cfg.json.marshal(rec).None?)
  {
    RecordAcceptance(cfg.letters, cfg.json, rec);
    KeyTextOf(cfg, rec.target);
  }

  /** What a load of a key finds: the record of a value that can be read, at its revision. */
  lemma LoadedIs(cfg: Config, kv: Kv, key: string)
    ensures var r := LoadKey(cfg, kv, key);
            && (r.Ok? <==>
                  && key in kv && kv[key].Value? && kv[key].data != [] && cfg.json.unmarshal(kv[key].data).Some?
                  && AcceptableRecord(cfg, cfg.json.unmarshal(kv[key].data).value))
            && (r.Ok? ==> r.value == (cfg.json.unmarshal(kv[key].data).value, kv[key].revision))
            && (r == Err(NotFound) <==> key !in kv || kv[key].Tombstone?)
            && (r.Err? ==> r.error == NotFound || r.error.Unreadable?)
  {
    if key in kv && kv[key].Value? && kv[key].data != [] && cfg.json.unmarshal(kv[key].data).Some? {
      RecordAcceptance(cfg.letters, cfg.json, cfg.json.unmarshal(kv[key].data).value);
    }
  }

  /** The names of a submission, written out, and what it takes to get past the store's checks. */
  lemma SubmissionNames(cfg: Config, cmd: Record, w: World)
    requires Accepted(cfg)
    ensures IsKeyText(cfg, KeyOf(cfg, cmd.target), cmd.target)
    ensures IsSubjectText(cfg, SubjectOf(cfg, cmd.target), cmd.target)
    ensures Problem(cfg, cmd, w).None? <==> StoresIn(cfg, cmd, w)
  {
    Storability(cfg, cmd, w.connected);
    S.AcceptedPatternLiterals(cfg.patterns.configure, 1);
  }

  /** The text is the target between the literals of the key pattern. */
  ghost predicate IsKeyText(cfg: Config, text: string, target: string) {
    && |Literals(cfg.keyPattern)| == 2
    && text == Literals(cfg.keyPattern)[0] + target + Literals(cfg.keyPattern)[1]
  }

  /** The text is the target between the literals of the configure pattern. */
  ghost predicate IsSubjectText(cfg: Config, text: string, target: string) {
    && |Literals(cfg.patterns.configure)| == 2
    && text == Literals(cfg.patterns.configure)[0] + target + Literals(cfg.patterns.configure)[1]
  }

  /** The submission is fit for the bucket, and the bucket there to take it. */
  predicate StoresIn(cfg: Config, cmd: Record, w: World) {
    w.ctxUsable && AcceptableRecord(cfg, cmd) && w.connected && cfg.json.marshal(cmd).Some?
  }

  /** After a stored put the publish call hands the notification over in its last round, the n-th. */
  predicate Announced(w: World, n: nat) {
    && w.now != 0 && w.notification.Some? && w.notification.value != [] && !w.ctxDoneAtPublish
    && n > 0 && !w.rounds(n - 1).ctxDone
    && (w.rounds(n - 1).attempt == P.FlushFails || w.rounds(n - 1).attempt == P.Delivered)
  }

  /** After the store has accepted a record, its names are complete and well formed. */
  lemma NamesOfStored(cfg: Config, cmd: Record)
    requires Accepted(cfg) && ValidateRecord(cfg.letters, cfg.json, cmd).None?
    ensures BuildKey(cfg, cmd.target) == Ok(Formatted(KeyOf(cfg, cmd.target)))
    ensures TrimSpace(KeyOf(cfg, cmd.target)) != ""
    ensures BuildSubject(cfg, cmd.target) == Ok(Formatted(SubjectOf(cfg, cmd.target)))
    ensures TrimSpace(SubjectOf(cfg, cmd.target)) != ""
  {
    TokensPassKv(cfg.letters, cmd.target);
    KeyOfToken(cfg, cmd.target);
    SubjectOfToken(cfg, cmd.target);
  }

  /** Its notification is complete but for a clock at zero. */
  lemma NotificationOfStored(cfg: Config, cmd: Record, now: Time)
    requires Accepted(cfg) && ValidateRecord(cfg.letters, cfg.json, cmd).None?
    ensures NotificationComplete(NotificationFor(cfg, cmd, now)) <==> now != 0
  {
    NamesOfStored(cfg, cmd);
  }

  /** The KV bucket and the message bus, as one submitter sees them. */
  class Backend {
    const cfg: Config
    var kv: Kv
    var revision: nat
    var bus: seq<Message>

    constructor (cfg: Config)
      ensures this.cfg == cfg && kv == map[] && revision == 0 && bus == []
    {
      this.cfg, kv, revision, bus := cfg, map[], 0, [];
    }

    method Put(key: string, data: Bytes, fate: PutFate) returns (heard: Option<nat>)
      modifies this`kv, this`revision
      ensures fate == Lost ==> kv == old(kv) && revision == old(revision)
      ensures fate != Lost ==> revision == old(revision) + 1 && kv == old(kv)[key := Value(data, revision)]
      ensures heard == if fate == Lands then Some(revision) else None
    {
      heard := None;
      if fate != Lost {
        revision := revision + 1;
        kv := kv[key := Value(data, revision)];
      }
      if fate == Lands {
        heard := Some(revision);
      }
    }

    /** The checks the store makes after its first validation are settled by it: the key can be built. */
    method StoreDesiredConfig(rec: Record, w: World) returns (r: Result<Receipt, SubmitError>)
      requires Accepted(cfg)
      modifies this`kv, this`revision
      ensures r == var problem := StoreProblem(cfg, rec, w.connected);
                   if problem.Some? then Err(problem.value)
                   else if w.put != Lands then Err(PutFailed)
                   else Ok(Receipt(rec, cfg.bucket, KeyOf(cfg, rec.target), revision,
                                   if w.readBack.Some? && w.readBack.value.0 == revision && w.readBack.value.1 != 0
                                   then w.readBack.value.1 else rec.timestamp))
      ensures var storable := AcceptableRecord(cfg, rec) && w.connected && cfg.json.marshal(rec).Some?;
              && (r.Ok? <==> storable && w.put == Lands)
              && (if storable && w.put != Lost then
                    && revision == old(revision) + 1 && IsKeyText(cfg, KeyOf(cfg, rec.target), rec.target)
                    && kv == old(kv)[KeyOf(cfg, rec.target) := Value(cfg.json.marshal(rec).value, revision)]
                  else kv == old(kv) && revision == old(revision))
    {
      Storability(cfg, rec, w.connected);
      var bad := ValidateRecord(cfg.letters, cfg.json, rec);
      if bad.Some? {
        return Err(BadCommand(bad.value));
      }
      var key := BuildKey(cfg, rec.target);
      NamesOfStored(cfg, rec);
      if key.Err? {
        assert false;
      }
      if !w.connected {
        return Err(Disconnected);
      }
      var data := Encode(cfg.letters, cfg.json, rec);
      if data.Err? {
        return Err(BadCommand(data.error));
      }
      var heard := Put(key.value.text, data.value, w.put);
      if heard.None? {
        return Err(PutFailed);
      }
      var createdAt := rec.timestamp;
      if w.readBack.Some? && w.readBack.value.0 == heard.value && w.readBack.value.1 != 0 {
        createdAt := w.readBack.value.1;
      }
      return Ok(Receipt(rec, cfg.bucket, key.value.text, heard.value, createdAt));
    }

    /** A load fails before the bucket is asked for invalid targets only, and never for want of a key. */
    method LoadDesiredConfig(target: string, connected: bool, answered: bool)
      returns (r: Result<(Record, nat), LoadError>)
      requires Accepted(cfg)
      ensures r.Err? && r.error.BadTarget? <==> !IsToken(cfg.letters, target)
      ensures IsToken(cfg.letters, target) ==>
        r == if !connected then Err(NotConnected)
             else if !answered then Err(ReadFailed)
             else LoadKey(cfg, kv, KeyOf(cfg, target))
      ensures |Literals(cfg.keyPattern)| == 2
      ensures var key := Literals(cfg.keyPattern)[0] + target + Literals(cfg.keyPattern)[1];
              var reached := IsToken(cfg.letters, target) && connected && answered;
              && (r.Ok? <==>
                    && reached && key in kv && kv[key].Value? && kv[key].data != []
                    && cfg.json.unmarshal(kv[key].data).Some?
                    && AcceptableRecord(cfg, cfg.json.unmarshal(kv[key].data).value))
              && (r.Ok? ==> r.value == (cfg.json.unmarshal(kv[key].data).value, kv[key].revision))
              && (r == Err(NotFound) <==> reached && (key !in kv || kv[key].Tombstone?))
    {
      KeyOfToken(cfg, target);
      Naming.KeyPatternLiterals(cfg.keyPattern);
      LoadedIs(cfg, kv, KeyOf(cfg, target));
      var key := BuildKey(cfg, target);
      if key.Err? {
        return Err(LoadError.BadTarget(key.error));
      }
      if !connected {
        return Err(NotConnected);
      }
      if !answered {
        return Err(ReadFailed);
      }
      return LoadKey(cfg, kv, key.value.text);
    }

    /** One publish call: the message is on the bus when the connection accepted it. */
    method Send(message: Message, w: World) returns (failure: Option<P.Failure>, ghost n: nat)
      requires w.notification.Some?
      modifies this`bus
      ensures Publishes(w, message.subject, n) && failure == PublishResult(w, message.subject, n)
      ensures bus == if HandedOver(w, message.subject, n) then old(bus) + [message] else old(bus)
    {
      var err, rounds, log := P.Publish(Request(w, message.subject), w.attempts, w.rounds);
      failure, n := err, rounds;
      if P.HandOff(true) in log {
        bus := bus + [message];
      }
    }

    /** The second half of a submission, once the store has accepted the command: neither the subject can be
        refused then, nor the notification but for a clock at zero. */
    method Notify(cmd: Record, stored: Receipt, w: World) returns (r: Result<Ack, SubmitError>, ghost n: nat)
      requires Accepted(cfg) && ValidateRecord(cfg.letters, cfg.json, cmd).None?
      requires stored.bucket == cfg.bucket && stored.key == KeyOf(cfg, cmd.target)
      modifies this`bus
      ensures w.now != 0 && w.notification.Some? ==>
        var subject := SubjectOf(cfg, cmd.target);
        && Publishes(w, subject, n) && (HandedOver(w, subject, n) <==> Announced(w, n))
        && (PublishResult(w, subject, n).None? <==> Announced(w, n) && w.rounds(n - 1).attempt == P.Delivered)
      ensures bus == if w.now != 0 && w.notification.Some? && HandedOver(w, SubjectOf(cfg, cmd.target), n)
                     then old(bus) + [Message(SubjectOf(cfg, cmd.target), NotificationFor(cfg, cmd, w.now))]
                     else old(bus)
      ensures var subject := SubjectOf(cfg, cmd.target);
              r == if w.now == 0 then Err(BadNotification)
                   else if w.notification.None? then Err(NotEncoded)
                   else if PublishResult(w, subject, n).Some? then Err(NotPublished(PublishResult(w, subject, n).value))
                   else Ok(Ack(cmd.rpcId, cmd.target, subject, w.now, stored.bucket, stored.key, stored.revision))
    {
      n := 0;
      var subject := BuildSubject(cfg, cmd.target);
      NamesOfStored(cfg, cmd);
      if subject.Err? {
        assert false;
      }
      var body := Notification(cmd.version, cmd.rpcId, cmd.target, cmd.uuid, stored.bucket, stored.key, w.now);
      NotificationOfStored(cfg, cmd, w.now);
      if !NotificationComplete(body) {
        return Err(BadNotification), 0;
      }
      if w.notification.None? {
        return Err(NotEncoded), 0;
      }
      var failure, rounds := Send(Message(subject.value.text, body), w);
      n := rounds;
      HandedOverIff(w, subject.value.text, n);
      if failure.Some? {
        return Err(NotPublished(failure.value)), n;
      }
      return Ok(Ack(cmd.rpcId, cmd.target, subject.value.text, w.now, stored.bucket, stored.key, stored.revision)), n;
    }

    /** Store, then notify; n is the number of publish rounds. The record goes under the key around its target, the
        notification to the subject around it, and the acknowledgement names both. */
    method SubmitConfigure(cmd: Record, w: World) returns (r: Result<Ack, SubmitError>, ghost n: nat)
      requires Accepted(cfg)
      modifies this
      ensures Announces(cfg, cmd, w) ==> Publishes(w, SubjectOf(cfg, cmd.target), n)
      ensures r == Answer(cfg, cmd, w, revision, n)
      ensures IsKeyText(cfg, KeyOf(cfg, cmd.target), cmd.target)
      ensures IsSubjectText(cfg, SubjectOf(cfg, cmd.target), cmd.target)
      ensures var key, subject := KeyOf(cfg, cmd.target), SubjectOf(cfg, cmd.target);
              && kv == (if StoresIn(cfg, cmd, w) && w.put != Lost
                        then old(kv)[key := Value(cfg.json.marshal(cmd).value, revision)] else old(kv))
              && revision == old(revision) + (if StoresIn(cfg, cmd, w) && w.put != Lost then 1 else 0)
              && bus == (if StoresIn(cfg, cmd, w) && w.put == Lands && Announced(w, n)
                         then old(bus) + [Message(subject, Notification(cmd.version, cmd.rpcId, cmd.target, cmd.uuid,
                                                                        cfg.bucket, key, w.now))]
                         else old(bus))
              && (r.Ok? <==> StoresIn(cfg, cmd, w) && w.put == Lands && Announced(w, n)
                             && w.rounds(n - 1).attempt == P.Delivered)
              && (r.Ok? ==> r.value == Ack(cmd.rpcId, cmd.target, subject, w.now, cfg.bucket, key, revision))
    {
      SubmissionNames(cfg, cmd, w);
      n := 0;
      if !w.ctxUsable {
        return Err(BadContext), 0;
      }
      var bad := ValidateCommand(cfg.json, cmd);
      if bad.Some? {
        return Err(BadCommand(bad.value)), 0;
      }
      var stored := StoreDesiredConfig(cmd, w);
      if stored.Err? {
        return Err(stored.error), 0;
      }
      r, n := Notify(cmd, stored.value, w);
    }
  }

  // ---------- what callers are told ----------

  /** The publish call has handed the notification over iff its last round did, and has succeeded iff that round's
      flush did too. */
  lemma HandedOverIff(w: World, subject: string, n: nat)
    requires w.notification.Some? && Publishes(w, subject, n) && TrimSpace(subject) != "" && w.now != 0
    ensures HandedOver(w, subject, n) <==> Announced(w, n)
    ensures PublishResult(w, subject, n).None? <==> Announced(w, n) && w.rounds(n - 1).attempt == P.Delivered
  {
    if P.Reject(Request(w, subject)).None? {
      TimesMember(P.Effects(w.rounds, n), P.HandOff(true));
      P.LastRoundDecides(w.rounds, P.Limit(w.attempts), n, P.HandOff(true));
    }
  }

  /** What one submission does, in terms of what it is given and what it meets: it is stored iff it is acceptable
      and the put lands, announced iff after that its notification is handed over, and acknowledged iff that is
      flushed too; and each error has its own cause. */
  lemma SubmissionOutcome(cfg: Config, cmd: Record, w: World, revision: nat, n: nat)
    requires Accepted(cfg) && (Announces(cfg, cmd, w) ==> Publishes(w, SubjectOf(cfg, cmd.target), n))
    ensures Applied(cfg, cmd, w) <==> StoresIn(cfg, cmd, w) && w.put != Lost
    ensures Notifies(cfg, cmd, w, n) <==> StoresIn(cfg, cmd, w) && w.put == Lands && Announced(w, n)
    ensures var r, put := Answer(cfg, cmd, w, revision, n), StoresIn(cfg, cmd, w) && w.put == Lands;
            && (r.Ok? <==> put && Announced(w, n) && w.rounds(n - 1).attempt == P.Delivered)
            && (r == Err(BadContext) <==> !w.ctxUsable)
            && (r == Err(Disconnected) <==> w.ctxUsable && AcceptableRecord(cfg, cmd) && !w.connected)
            && (r == Err(PutFailed) <==> StoresIn(cfg, cmd, w) && w.put != Lands)
            && (r == Err(BadNotification) <==> put && w.now == 0)
            && (r == Err(NotEncoded) <==> put && w.now != 0 && w.notification.None?)
            && (r.Err? && r.error.NotPublished? <==>
                  put && w.now != 0 && w.notification.Some?
                  && !(Announced(w, n) && w.rounds(n - 1).attempt == P.Delivered))
  {
    Storability(cfg, cmd, w.connected);
    if Announces(cfg, cmd, w) {
      SubjectOfToken(cfg, cmd.target);
      HandedOverIff(w, SubjectOf(cfg, cmd.target), n);
    }
  }

  /** An acknowledgement means stored, at the revision it names, and handed over; and nothing is announced
      that was not stored. */
  lemma AcknowledgedMeansBoth(cfg: Config, cmd: Record, w: World, revision: nat, n: nat)
    requires Accepted(cfg) && (Announces(cfg, cmd, w) ==> Publishes(w, SubjectOf(cfg, cmd.target), n))
    ensures var r := Answer(cfg, cmd, w, revision, n);
            && (r.Ok? ==> Applied(cfg, cmd, w) && Notifies(cfg, cmd, w, n) && r.value.revision == revision)
            && (Notifies(cfg, cmd, w, n) ==> Applied(cfg, cmd, w))
  {
    if Announces(cfg, cmd, w) {
      PublishStep(w, SubjectOf(cfg, cmd.target), n);
    }
  }

  /** What each error says: an invalid command, an unusable context or a missing connection leaves no trace;
      an error that leaves a stored record is one at the put or after it; and one after the hand-over is a
      publish failure that must not be retried. */
  lemma ErrorsTellWhatHappened(cfg: Config, cmd: Record, w: World, revision: nat, n: nat)
    requires Accepted(cfg) && (Announces(cfg, cmd, w) ==> Publishes(w, SubjectOf(cfg, cmd.target), n))
    requires Answer(cfg, cmd, w, revision, n).Err?
    ensures var error := Answer(cfg, cmd, w, revision, n).error;
            && (error.BadContext? || error.BadCommand? || error.Disconnected? ==>
                  !Applied(cfg, cmd, w) && !Notifies(cfg, cmd, w, n))
            && (error.PutFailed? ==> !Notifies(cfg, cmd, w, n) && (Applied(cfg, cmd, w) <==> w.put == LandsUnheard))
            && (error.BadNotification? || error.NotEncoded? || error.NotPublished? ==> Applied(cfg, cmd, w))
            && (Notifies(cfg, cmd, w, n) ==> error == NotPublished(P.Failure(P.PublishFailed, false)))
  {
    if Announces(cfg, cmd, w) {
      PublishStep(w, SubjectOf(cfg, cmd.target), n);
    }
  }

  lemma PublishStep(w: World, subject: string, n: nat)
    requires w.notification.Some? && Publishes(w, subject, n)
    ensures PublishResult(w, subject, n).None? ==> HandedOver(w, subject, n)
    ensures PublishResult(w, subject, n).Some? && HandedOver(w, subject, n) ==>
              PublishResult(w, subject, n).value == P.Failure(P.PublishFailed, false)
  {
    TimesMember(P.Effects(w.rounds, n), P.HandOff(true));
    if P.Reject(Request(w, subject)).None? {
      P.PublishIsExact(w.rounds, P.Limit(w.attempts), n);
      if P.Verdict(w.rounds(n - 1), n == P.Limit(w.attempts)).Some? {
        P.RetryableMeansNotSent(w.rounds, P.Limit(w.attempts), n);
      }
    }
  }

  lemma StoredDecodes(cfg: Config, cmd: Record)
    requires StoreProblem(cfg, cmd, true).None? && RoundTrips(cfg.json)
    ensures var back := Decode(cfg.letters, cfg.json, cfg.json.marshal(cmd).value);
            back.Ok? && back.value == cmd.(payload := back.value.payload)
    ensures IsToken(cfg.letters, cmd.target)
  {
    EncodedDecodes(cfg.letters, cfg.json, cmd);
    TokensPassKv(cfg.letters, cmd.target);
  }

  /** What a submission has stored, a load of its target reads back, and a load of any other target is
      as before. */
  lemma StoredIsLoadable(cfg: Config, kv: Kv, cmd: Record, revision: nat, other: string)
    requires Accepted(cfg) && StoreProblem(cfg, cmd, true).None? && RoundTrips(cfg.json)
    requires IsToken(cfg.letters, other) && other != cmd.target
    ensures var after := kv[KeyOf(cfg, cmd.target) := EntryFor(cfg, cmd, revision)];
            var loaded := LoadKey(cfg, after, KeyOf(cfg, cmd.target));
            && loaded.Ok? && loaded.value.1 == revision && loaded.value.0 == cmd.(payload := loaded.value.0.payload)
            && LoadKey(cfg, after, KeyOf(cfg, other)) == LoadKey(cfg, kv, KeyOf(cfg, other))
  {
    StoredDecodes(cfg, cmd);
    DistinctTargetsDistinctKeys(cfg, cmd.target, other);
  }

  lemma DistinctTargetsDistinctKeys(cfg: Config, t1: string, t2: string)
    requires Accepted(cfg) && IsToken(cfg.letters, t1) && IsToken(cfg.letters, t2) && t1 != t2
    ensures KeyOf(cfg, t1) != KeyOf(cfg, t2)
  {
    Naming.KeyPatternLiterals(cfg.keyPattern);
    if KeyOf(cfg, t1) == KeyOf(cfg, t2) {
      S.CancelAround(Literals(cfg.keyPattern)[0], t1, t2, Literals(cfg.keyPattern)[1]);
    }
  }

  lemma {:induction false} TimesMember(log: seq<P.Effect>, x: P.Effect)
    ensures x in log <==> P.Times(log, x) > 0
  {
    if log == [] {
    } else {
      TimesMember(log[..|log| - 1], x);
      assert log == log[..|log| - 1] + [log[|log| - 1]];
    }
  }
}

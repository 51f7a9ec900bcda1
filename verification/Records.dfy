/** Desired-config records, their validation and their encoding (internal/kv/store.go). */
module Records {
  import opened Common
  import opened Text
  import Naming
  import S = Subjects

  type Bytes = seq<bv8>

  /** A point in time; 0 is Go's zero time, which stands for none. */
  type Time = nat

  datatype Record = Record(version: string, rpcId: string, target: string, uuid: string, payload: Bytes,
      timestamp: Time)

  /** A record together with what the KV store says about it. */
  datatype Stored = Stored(record: Record, bucket: string, key: string, revision: nat, createdAt: Time, deleted: bool)

  /** The JSON library, as functions about which nothing is assumed. */
  datatype Json = Json(marshal: Record -> Option<Bytes>, unmarshal: Bytes -> Option<Record>, valid: Bytes -> bool)

  datatype RecordError = VersionRequired | RpcIdRequired | TargetRequired | UuidRequired | TimestampRequired
                       | PayloadRequired | PayloadNotJson | BadTarget(reason: S.NameError) | NotEncodable | NotDecodable

  function ValidateRecord(letters: Alphabet, json: Json, rec: Record): Option<RecordError> {
    if TrimSpace(rec.version) == "" then Some(VersionRequired)
    else if TrimSpace(rec.rpcId) == "" then Some(RpcIdRequired)
    else if TrimSpace(rec.target) == "" then Some(TargetRequired)
    else if TrimSpace(rec.uuid) == "" then Some(UuidRequired)
    else if rec.timestamp == 0 then Some(TimestampRequired)
    else if rec.payload == [] then Some(PayloadRequired)
    else if !json.valid(rec.payload) then Some(PayloadNotJson)
    else
      match Naming.ValidateKvToken(letters, rec.target)
      case Some(reason) => Some(BadTarget(reason))
      case None => None
  }

  function Encode(letters: Alphabet, json: Json, rec: Record): Result<Bytes, RecordError> {
    match ValidateRecord(letters, json, rec)
    case Some(e) => Err(e)
    case None =>
      match json.marshal(rec)
      case None => Err(NotEncodable)
      case Some(data) => Ok(data)
  }

  function Decode(letters: Alphabet, json: Json, data: Bytes): Result<Record, RecordError> {
    if data == [] then Err(PayloadRequired)
    else
      match json.unmarshal(data)
      case None => Err(NotDecodable)
      case Some(rec) =>
        match ValidateRecord(letters, json, rec)
        case Some(e) => Err(e)
        case None => Ok(rec)
  }

  /** The records that are accepted, whatever the order of the checks. */
  lemma RecordAcceptance(letters: Alphabet, json: Json, rec: Record)
    ensures ValidateRecord(letters, json, rec).None? <==>
      && TrimSpace(rec.version) != "" && TrimSpace(rec.rpcId) != "" && TrimSpace(rec.uuid) != ""
      && IsToken(letters, rec.target) && rec.timestamp != 0 && rec.payload != [] && json.valid(rec.payload)
  {
    TokensPassKv(letters, rec.target);
    if IsToken(letters, rec.target) {
      TrimSpaceEmpty(rec.target);
      assert rec.target[0] in rec.target;
    }
  }

  /** The reason given for a rejection is true. */
  lemma RejectionIsTrue(letters: Alphabet, json: Json, rec: Record)
    requires ValidateRecord(letters, json, rec).Some?
    ensures match ValidateRecord(letters, json, rec).value
            case VersionRequired => TrimSpace(rec.version) == ""
            case RpcIdRequired => TrimSpace(rec.rpcId) == ""
            case TargetRequired => TrimSpace(rec.target) == ""
            case UuidRequired => TrimSpace(rec.uuid) == ""
            case TimestampRequired => rec.timestamp == 0
            case PayloadRequired => rec.payload == []
            case PayloadNotJson => !json.valid(rec.payload)
            case BadTarget(_) => !IsToken(letters, rec.target)
            case _ => false
  {
    TokensPassKv(letters, rec.target);
  }

  /** Only accepted records are written, and only accepted records are read: a value that the JSON library
      cannot take apart, or that holds an incomplete record or an invalid target, is refused. */
  lemma CodecIsGuarded(letters: Alphabet, json: Json, rec: Record, data: Bytes)
    ensures var accepted := TrimSpace(rec.version) != "" && TrimSpace(rec.rpcId) != "" && TrimSpace(rec.uuid) != ""
                            && IsToken(letters, rec.target) && rec.timestamp != 0
                            && rec.payload != [] && json.valid(rec.payload);
            && (Encode(letters, json, rec) == Ok(data) <==> accepted && json.marshal(rec) == Some(data))
            && (Decode(letters, json, data) == Ok(rec) <==>
                  accepted && data != [] && json.unmarshal(data) == Some(rec))
    ensures Decode(letters, json, data) == Err(NotDecodable) <==> data != [] && json.unmarshal(data).None?
  {
    RecordAcceptance(letters, json, rec);
    if data != [] && json.unmarshal(data).Some? {
      var back := json.unmarshal(data).value;
      if ValidateRecord(letters, json, back).Some? {
        RejectionIsTrue(letters, json, back);
      }
    }
  }

  /** What the JSON library must do for a record to survive a write and a read: every field comes back,
      save that the payload may be reformatted. */
  ghost predicate RoundTrips(json: Json) {
    forall rec: Record | json.marshal(rec).Some? :: ComesBack(json, rec, json.marshal(rec).value)
  }

  ghost predicate ComesBack(json: Json, rec: Record, data: Bytes) {
    && data != [] && json.unmarshal(data).Some?
    && var back := json.unmarshal(data).value;
       && back == rec.(payload := back.payload)
       && (rec.payload != [] && json.valid(rec.payload) ==> back.payload != [] && json.valid(back.payload))
  }

  /** What passes validation before a write passes it again after the read: nothing is written that
      cannot be read back. */
  lemma EncodedDecodes(letters: Alphabet, json: Json, rec: Record)
    requires RoundTrips(json) && Encode(letters, json, rec).Ok?
    ensures var back := Decode(letters, json, Encode(letters, json, rec).value);
            back.Ok? && back.value == rec.(payload := back.value.payload)
  {
    assert ComesBack(json, rec, json.marshal(rec).value);
  }

  lemma TokensPassKv(letters: Alphabet, target: string)
    ensures Naming.ValidateKvToken(letters, target).None? <==> IsToken(letters, target)
  {
    S.TargetsAreTokens(letters, target);
  }
}

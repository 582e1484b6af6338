// Desired configuration: KV keys, the records in a bucket, and the pieces of StoreDesiredConfig,
// LoadDesiredConfig and SubmitConfigure (internal/kv, agentcore/client.go).

module Desired {
  import opened Common
  import opened GoStrings
  import opened Subjects

  type Bytes = string

  // Timestamps are integers; 0 is the zero time.
  datatype Record = Record(version: string, rpcID: string, target: string, uuid: string, payload: Bytes, timestamp: int)

  datatype Stored = Stored(record: Record, bucket: string, key: string, revision: nat, createdAt: int)

  datatype Notification = Notification(
    version: string, rpcID: string, target: string, commandType: string, uuid: string,
    kvBucket: string, kvKey: string, timestamp: int)

  datatype Ack = Ack(rpcID: string, target: string, subject: string, acceptedAt: int,
                     kvBucket: string, kvKey: string, kvRevision: nat)

  datatype Codec = Codec(valid: Bytes -> bool, encode: Record -> Option<Bytes>, decode: Bytes -> Option<Record>)

  // Two records of one submission.
  predicate SameSubmission(r: Record, r': Record) {
    r'.version == r.version && r'.rpcID == r.rpcID && r'.target == r.target && r'.uuid == r.uuid
  }

  // encoding/json, as far as it matters. Encoding compacts the payload, so what a record decodes to need not be the
  // same record; but it is a valid one, it is the same submission, and encoding it again yields the same bytes.
  ghost predicate SoundCodec(c: Codec) {
    forall r: Record :: CommandOk(c, r) && c.encode(r).Some? ==> RoundTrips(c, r, c.encode(r).value)
  }

  predicate RoundTrips(c: Codec, r: Record, value: Bytes) {
    && value != ""
    && c.decode(value).Some?
    && var r' := c.decode(value).value;
    && CommandOk(c, r') && SameSubmission(r, r') && c.encode(r') == Some(value)
  }

  // ---- internal/session/options.go, the KV part ----

  predicate KeyPatternOk(pattern: string) {
    && !ContainsAny(pattern, WHITESPACE)
    && Count(pattern, "%s") == 1
    && '%' !in ReplaceAll(pattern, "%s", "")
  }

  const DEFAULT_BUCKET := "cfg_desired"
  const DEFAULT_KEY_PATTERN := "desired.%s"

  // normalizeConfig: the bucket name and the key pattern that come out of it.
  method NormalizeKV(bucket: string, keyPattern: string) returns (r: Result<(string, string)>)
    ensures var b := if TrimSpace(bucket) == "" then DEFAULT_BUCKET else TrimSpace(bucket);
            var k := if TrimSpace(keyPattern) == "" then DEFAULT_KEY_PATTERN else TrimSpace(keyPattern);
            r == if KeyPatternOk(k) then Ok((b, k)) else Err(Validation)
  {
    var b, k := TrimSpace(bucket), TrimSpace(keyPattern);
    if b == "" {
      b := DEFAULT_BUCKET;
    }
    if k == "" {
      k := DEFAULT_KEY_PATTERN;
    }
    if !KeyPatternOk(k) {
      return Err(Validation);
    }
    return Ok((b, k));
  }

  // ---- internal/kv/helpers.go ----

  function ValidateToken(u: Unicode, value: string): Option<Problem> {
    if TrimSpace(value) == "" then Some(Required)
    else if ContainsAny(value, WHITESPACE) then Some(Whitespace)
    else if '.' in value then Some(Dot)
    else if '*' in value || '>' in value then Some(Wildcard)
    else if exists i :: 0 <= i < |value| && !TokenChar(u, value[i]) then Some(Unsupported)
    else None
  }

  function BuildKey(u: Unicode, pattern: string, target: string): Result<string> {
    var trimmed := TrimSpace(pattern);
    if trimmed == "" then Err(Validation)
    else if !KeyPatternOk(trimmed) then Err(Validation)
    else if ValidateToken(u, target).Some? then Err(Validation)
    else var k := Sprintf(trimmed, [target]); if k.Some? then Ok(k.value) else Err(EncodeFailed)
  }

  // ---- what one client is configured with ----

  datatype Config = Config(u: Unicode, codec: Codec, bucket: string, keyPattern: string, configurePattern: string)

  // What New has checked by the time a client exists.
  predicate ValidConfig(c: Config) {
    && TrimSpace(c.bucket) == c.bucket != ""
    && TrimSpace(c.keyPattern) == c.keyPattern != ""
    && KeyPatternOk(c.keyPattern)
    && ValidatePattern(c.configurePattern, 1).None?
  }

  // ---- records ----

  predicate NotBlank(s: string) {
    TrimSpace(s) != ""
  }

  // validateConfigureCommand
  predicate CommandOk(codec: Codec, r: Record) {
    && NotBlank(r.version) && NotBlank(r.rpcID) && NotBlank(r.target) && NotBlank(r.uuid)
    && r.timestamp != 0 && r.payload != "" && codec.valid(r.payload)
  }

  // validateDesiredConfigRecord
  predicate RecordOk(u: Unicode, codec: Codec, r: Record) {
    CommandOk(codec, r) && ValidateToken(u, r.target).None?
  }

  // validateConfigureNotification
  predicate NotificationOk(n: Notification) {
    && NotBlank(n.version) && NotBlank(n.rpcID) && NotBlank(n.target) && NotBlank(n.commandType)
    && NotBlank(n.uuid) && NotBlank(n.kvBucket) && NotBlank(n.kvKey) && n.timestamp != 0
  }

  // StoreDesiredConfig up to the write: the key and the bytes.
  function PrepareStore(c: Config, r: Record, connected: bool): Result<(string, Bytes)> {
    if !RecordOk(c.u, c.codec, r) then Err(Validation)
    else
      var key := BuildKey(c.u, c.keyPattern, r.target);
      if key.Err? then Err(key.code)
      else if !connected then Err(Disconnected)
      else
        var value := c.codec.encode(r);
        if value.None? then Err(EncodeFailed) else Ok((key.value, value.value))
  }

  // decodeDesiredConfigRecord
  function DecodeRecord(c: Config, value: Bytes): Result<Record> {
    if value == "" then Err(Validation)
    else
      var r := c.codec.decode(value);
      if r.None? then Err(DecodeFailed)
      else if !RecordOk(c.u, c.codec, r.value) then Err(Validation)
      else Ok(r.value)
  }

  // SubmitConfigure between the store and the publish: the subject and the notification.
  function PrepareNotification(c: Config, r: Record, s: Stored, now: int): Result<(string, Notification)> {
    var subject := TargetSubject(c.u, c.configurePattern, r.target);
    if subject.Err? then Err(subject.code)
    else
      var n := Notification(r.version, r.rpcID, r.target, "configure", r.uuid, s.bucket, s.key, now);
      if NotificationOk(n) then Ok((subject.value, n)) else Err(Validation)
  }

  // How sending a notification can fail: encoding it, or one of the stages of Publisher.Publish. In the last case the
  // message is on the wire all the same.
  datatype SendError = NotEncoded | ContextEnded | NoConnection | PublishLost | FlushFailed

  function SendCode(e: SendError): Code {
    match e
    case NotEncoded => EncodeFailed
    case ContextEnded => Validation
    case NoConnection => Disconnected
    case PublishLost => PublishFailed
    case FlushFailed => PublishFailed
  }

  // ---- the bucket ----

  // One revision of one key. `byClient` tells the writes of SubmitConfigure from those of anybody else.
  datatype Entry = Entry(key: string, value: Bytes, revision: nat, created: int, byClient: bool)

  function Latest(log: seq<Entry>, key: string): Option<Entry> {
    if log == [] then None
    else if log[|log| - 1].key == key then Some(log[|log| - 1])
    else Latest(log[..|log| - 1], key)
  }

  predicate Rising(log: seq<Entry>) {
    forall i, j | 0 <= i < j < |log| :: log[i].revision < log[j].revision
  }

  function LastRevision(log: seq<Entry>): nat {
    if log == [] then 0 else log[|log| - 1].revision
  }

  function Created(e: Entry, fallback: int): int {
    if e.created != 0 then e.created else fallback
  }

  // The metadata that StoreDesiredConfig reports, from its second read if that succeeds.
  function StoredAs(c: Config, r: Record, key: string, own: nat, readBack: Option<Entry>): Stored {
    if readBack.Some?
    then Stored(r, c.bucket, key, readBack.value.revision, Created(readBack.value, r.timestamp))
    else Stored(r, c.bucket, key, own, r.timestamp)
  }

  // LoadDesiredConfig on a bucket that can be read.
  function Load(c: Config, log: seq<Entry>, target: string): Result<Stored> {
    var key := BuildKey(c.u, c.keyPattern, target);
    if key.Err? then Err(key.code)
    else
      var e := Latest(log, key.value);
      if e.None? then Err(ConfigNotFound)
      else
        var r := DecodeRecord(c, e.value.value);
        if r.Err? then Err(r.code)
        else Ok(Stored(r.value, c.bucket, e.value.key, e.value.revision, Created(e.value, r.value.timestamp)))
  }
}

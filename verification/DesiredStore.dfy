// internal/kv.Store on a bucket, and the client's SubmitConfigure on top of it, run without interruption.

module DesiredStore {
  import opened Common
  import opened Desired
  import T = DesiredTheorems

  // How the calls that leave the process turn out: whether the context is usable when the call begins, the revision and
  // creation time of the write, whether reads of the bucket get through, how sending fails, and the clock.
  datatype Weather = Weather(
    usable: bool, connected: bool, put: Option<(nat, int)>, read: bool, sendError: Option<SendError>, now: int)

  class Store {
    const cfg: Config
    var log: seq<Entry>
    var wire: seq<(string, Notification)>

    constructor (cfg: Config)
      ensures this.cfg == cfg && log == [] && wire == []
    {
      this.cfg := cfg;
      log, wire := [], [];
    }

    // The entry that a successful write of rec adds.
    ghost function Added(rec: Record, w: Weather): Entry
      requires w.put.Some? && PrepareStore(cfg, rec, w.connected).Ok?
    {
      var kv := PrepareStore(cfg, rec, w.connected).value;
      Entry(kv.0, kv.1, w.put.value.0, w.put.value.1, true)
    }

    method StoreDesiredConfig(rec: Record, w: Weather) returns (r: Result<Stored>)
      modifies `log
      ensures PrepareStore(cfg, rec, w.connected).Err? ==>
                log == old(log) && r == Err(PrepareStore(cfg, rec, w.connected).code)
      ensures PrepareStore(cfg, rec, w.connected).Ok? && w.put.None? ==> log == old(log) && r == Err(KVStoreFailed)
      ensures PrepareStore(cfg, rec, w.connected).Ok? && w.put.Some? ==>
                && log == old(log) + [Added(rec, w)]
                && r == Ok(Stored(rec, cfg.bucket, Added(rec, w).key, w.put.value.0,
                                  if w.read && w.put.value.1 != 0 then w.put.value.1 else rec.timestamp))
    {
      if !RecordOk(cfg.u, cfg.codec, rec) {
        return Err(Validation);
      }
      var key := BuildKey(cfg.u, cfg.keyPattern, rec.target);
      if key.Err? {
        return Err(key.code);
      }
      if !w.connected {
        return Err(Disconnected);
      }
      var payload := cfg.codec.encode(rec);
      if payload.None? {
        return Err(EncodeFailed);
      }
      if w.put.None? {
        return Err(KVStoreFailed);
      }
      var revision := w.put.value.0;
      log := log + [Entry(key.value, payload.value, revision, w.put.value.1, true)];

      var createdAt := rec.timestamp;
      if w.read {
        var entry := Latest(log, key.value);
        if entry.Some? {
          revision := entry.value.revision;
          if entry.value.created != 0 {
            createdAt := entry.value.created;
          }
        }
      }
      return Ok(Stored(rec, cfg.bucket, key.value, revision, createdAt));
    }

    method LoadDesiredConfig(target: string, w: Weather) returns (r: Result<Stored>)
      ensures r == if BuildKey(cfg.u, cfg.keyPattern, target).Err?
                   then Err(BuildKey(cfg.u, cfg.keyPattern, target).code)
                   else if !w.connected then Err(Disconnected)
                   else if !w.read then Err(KVReadFailed)
                   else Load(cfg, log, target)
    {
      var key := BuildKey(cfg.u, cfg.keyPattern, target);
      if key.Err? {
        return Err(key.code);
      }
      if !w.connected {
        return Err(Disconnected);
      }
      if !w.read {
        return Err(KVReadFailed);
      }
      var entry := Latest(log, key.value);
      if entry.None? {
        return Err(ConfigNotFound);
      }
      var rec := DecodeRecord(cfg, entry.value.value);
      if rec.Err? {
        return Err(rec.code);
      }
      var stored := Stored(rec.value, cfg.bucket, entry.value.key, entry.value.revision, rec.value.timestamp);
      if entry.value.created != 0 {
        stored := stored.(createdAt := entry.value.created);
      }
      return Ok(stored);
    }

    // The command gets as far as the bucket.
    predicate Stores(cmd: Record, w: Weather) {
      w.usable && CommandOk(cfg.codec, cmd) && PrepareStore(cfg, cmd, w.connected).Ok? && w.put.Some?
    }

    // It also gets as far as the wire.
    predicate Sends(cmd: Record, w: Weather) {
      Stores(cmd, w) && w.now != 0 && (w.sendError.None? || w.sendError.value.FlushFailed?)
    }

    // Store, then notify. A failure after the store leaves the stored record in place; nothing is ever published
    // without a store before it.
    method SubmitConfigure(cmd: Record, w: Weather) returns (r: Result<Ack>)
      requires ValidConfig(cfg)
      modifies `log, `wire
      ensures r.Ok? <==> Stores(cmd, w) && w.now != 0 && w.sendError.None?
      ensures log == if Stores(cmd, w) then old(log) + [Added(cmd, w)] else old(log)
      ensures if Sends(cmd, w) then |wire| == |old(wire)| + 1 && wire[..|old(wire)|] == old(wire) else wire == old(wire)
      ensures Sends(cmd, w) ==>
                var n := wire[|old(wire)|].1;
                && n.rpcID == cmd.rpcID && n.uuid == cmd.uuid && n.target == cmd.target
                && n.kvBucket == cfg.bucket && n.kvKey == Added(cmd, w).key
      ensures r.Ok? ==>
                && r.value.subject == wire[|old(wire)|].0
                && r.value.kvKey == Added(cmd, w).key && r.value.kvRevision == w.put.value.0
      ensures r.Err? && Stores(cmd, w) ==>
                r.code == if w.now == 0 then Validation
                          else
                            match w.sendError.value
                            case NotEncoded => EncodeFailed
                            case ContextEnded => Validation
                            case NoConnection => Disconnected
                            case PublishLost => PublishFailed
                            case FlushFailed => PublishFailed
      ensures r.Err? && !Stores(cmd, w) ==>
                r.code == if !w.usable || !CommandOk(cfg.codec, cmd) then Validation
                          else if PrepareStore(cfg, cmd, w.connected).Err? then PrepareStore(cfg, cmd, w.connected).code
                          else KVStoreFailed
    {
      if !w.usable || !CommandOk(cfg.codec, cmd) {
        return Err(Validation);
      }
      var stored := StoreDesiredConfig(cmd, w);
      if stored.Err? {
        return Err(stored.code);
      }
      StoredIsReady(cfg, cmd, stored.value, w);
      var sn := PrepareNotification(cfg, cmd, stored.value, w.now);
      if sn.Err? {
        return Err(sn.code);
      }
      r := Send(sn.value, stored.value, cmd, w);
    }

    // The last stage of SubmitConfigure.
    method Send(sn: (string, Notification), stored: Stored, cmd: Record, w: Weather) returns (r: Result<Ack>)
      modifies `wire
      ensures wire == if w.sendError.None? || w.sendError.value.FlushFailed? then old(wire) + [sn] else old(wire)
      ensures r == if w.sendError.Some? then Err(SendCode(w.sendError.value))
                   else Ok(Ack(cmd.rpcID, cmd.target, sn.0, w.now, stored.bucket, stored.key, stored.revision))
    {
      if w.sendError == None || w.sendError.value == FlushFailed {
        wire := wire + [sn];
      }
      if w.sendError != None {
        return Err(SendCode(w.sendError.value));
      }
      return Ok(Ack(cmd.rpcID, cmd.target, sn.0, w.now, stored.bucket, stored.key, stored.revision));
    }
  }

  lemma StoredIsReady(c: Config, cmd: Record, stored: Stored, w: Weather)
    requires ValidConfig(c) && PrepareStore(c, cmd, w.connected).Ok?
    requires stored.bucket == c.bucket && stored.key == PrepareStore(c, cmd, w.connected).value.0
    ensures PrepareNotification(c, cmd, stored, w.now).Ok? <==> w.now != 0
    ensures w.now == 0 ==> PrepareNotification(c, cmd, stored, w.now) == Err(Validation)
    ensures w.now != 0 ==>
              var n := PrepareNotification(c, cmd, stored, w.now).value.1;
              && n.rpcID == cmd.rpcID && n.uuid == cmd.uuid && n.target == cmd.target
              && n.kvBucket == c.bucket && n.kvKey == stored.key
  {
    T.NotificationReadyIffClock(c, cmd, stored, w.now);
    if w.now != 0 {
      T.PreparedSubject(c, cmd, stored, w.now);
    }
  }
}

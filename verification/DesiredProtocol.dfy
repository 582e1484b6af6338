// SubmitConfigure as a step system: any number of submitters over one bucket, with other writers beside them.
// Every step that leaves the process - write, read, publish, flush - may fail, and a failed write or flush may have
// gone through all the same.

module DesiredProtocol {
  import opened Common
  import opened Desired

  type Tid = nat

  datatype PC =
    | Submit(cmd: Record)
    | Put(cmd: Record, key: string, value: Bytes)
    | ReadBack(cmd: Record, key: string, own: nat)
    | Notify(cmd: Record, stored: Stored, own: nat)
    | Flush(cmd: Record, ack: Ack, own: nat)
    | Acked(cmd: Record, ack: Ack, own: nat)
    | Failed(code: Code)

  // A notification on the wire; `seen` is the length of the log when it was published.
  datatype Sent = Sent(subject: string, note: Notification, seen: nat)

  datatype World = World(log: seq<Entry>, sent: seq<Sent>, threads: map<Tid, PC>)

  datatype Cause =
    | BadContext
    | NotConnected
    | WriteLost
    | WriteApplied(rev: nat, created: int)
    | ReadFailed
    | NotSent(why: SendError)

  // `time` is the creation time of an entry or the clock of the notification.
  datatype Outcome = Good(rev: nat, time: int) | Bad(cause: Cause, time: int)

  datatype Action =
    | Call(t: Tid, cmd: Record)
    | Run(t: Tid, o: Outcome)
    | External(key: string, value: Bytes, rev: nat, created: int)

  predicate Init(w: World) {
    w == World([], [], map[])
  }

  function Append(log: seq<Entry>, e: Entry): Option<seq<Entry>> {
    if log != [] && e.revision <= LastRevision(log) then None else Some(log + [e])
  }

  function Exec(c: Config, w: World, a: Action): Option<World> {
    match a
    case Call(t, cmd) => if t in w.threads then None else Some(w.(threads := w.threads[t := Submit(cmd)]))
    case External(k, v, rev, created) =>
      var log := Append(w.log, Entry(k, v, rev, created, false));
      if log.None? then None else Some(w.(log := log.value))
    case Run(t, o) =>
      if t !in w.threads then None else
      var e := Step(c, w, w.threads[t], o);
      if e.None? then None else Some(World(e.value.1, e.value.2, w.threads[t := e.value.0]))
  }

  // One step of a submitter: its next program counter, the log and the wire.
  function Step(c: Config, w: World, pc: PC, o: Outcome): Option<(PC, seq<Entry>, seq<Sent>)> {
    match pc
    case Submit(_) => SubmitStep(c, w, pc, o)
    case Put(_, _, _) => PutStep(c, w, pc, o)
    case ReadBack(_, _, _) => ReadBackStep(c, w, pc, o)
    case Notify(_, _, _) => NotifyStep(c, w, pc, o)
    case Flush(_, _, _) => FlushStep(c, w, pc, o)
    case _ => None
  }

  function SubmitStep(c: Config, w: World, pc: PC, o: Outcome): Option<(PC, seq<Entry>, seq<Sent>)>
    requires pc.Submit?
  {
    var cmd := pc.cmd;
    if o.Bad? && o.cause.BadContext? then Some((Failed(Validation), w.log, w.sent))
    else if o.Bad? && !o.cause.NotConnected? then None
    else if !CommandOk(c.codec, cmd) then Some((Failed(Validation), w.log, w.sent))
    else
      (match PrepareStore(c, cmd, o.Good?)
       case Err(code) => Some((Failed(code), w.log, w.sent))
       case Ok(kv) => Some((Put(cmd, kv.0, kv.1), w.log, w.sent)))
  }

  function PutStep(c: Config, w: World, pc: PC, o: Outcome): Option<(PC, seq<Entry>, seq<Sent>)>
    requires pc.Put?
  {
    var (cmd, key, value) := (pc.cmd, pc.key, pc.value);
    if o.Bad? && o.cause.WriteLost? then Some((Failed(KVStoreFailed), w.log, w.sent))
    else if o.Bad? && !o.cause.WriteApplied? then None
    else
      var (rev, created) := if o.Good? then (o.rev, o.time) else (o.cause.rev, o.cause.created);
      var e := Entry(key, value, rev, created, true);
      var log := Append(w.log, e);
      if log.None? then None
      else Some((if o.Good? then ReadBack(cmd, key, e.revision) else Failed(KVStoreFailed), log.value, w.sent))
  }

  function ReadBackStep(c: Config, w: World, pc: PC, o: Outcome): Option<(PC, seq<Entry>, seq<Sent>)>
    requires pc.ReadBack?
  {
    var (cmd, key, own) := (pc.cmd, pc.key, pc.own);
    if o.Bad? && !o.cause.ReadFailed? then None
    else
      var readBack := if o.Good? then Latest(w.log, key) else None;
      Some((Notify(cmd, StoredAs(c, cmd, key, own, readBack), own), w.log, w.sent))
  }

  function NotifyStep(c: Config, w: World, pc: PC, o: Outcome): Option<(PC, seq<Entry>, seq<Sent>)>
    requires pc.Notify?
  {
    Announce(w, pc, o, PrepareNotification(c, pc.cmd, pc.stored, o.time))
  }

  // Publishing a notification, if there is one.
  function Announce(w: World, pc: PC, o: Outcome, r: Result<(string, Notification)>)
    : Option<(PC, seq<Entry>, seq<Sent>)>
    requires pc.Notify?
  {
    var (cmd, stored) := (pc.cmd, pc.stored);
    match r
    case Err(code) => Some((Failed(code), w.log, w.sent))
    case Ok(sn) =>
      if o.Good? then
        Some((Flush(cmd, Ack(cmd.rpcID, cmd.target, sn.0, o.time, stored.bucket, stored.key, stored.revision), pc.own),
              w.log, w.sent + [Sent(sn.0, sn.1, |w.log|)]))
      else if o.cause.NotSent? && !o.cause.why.FlushFailed? then Some((Failed(SendCode(o.cause.why)), w.log, w.sent))
      else None
  }

  function FlushStep(c: Config, w: World, pc: PC, o: Outcome): Option<(PC, seq<Entry>, seq<Sent>)>
    requires pc.Flush?
  {
    var (cmd, ack, own) := (pc.cmd, pc.ack, pc.own);
    if o.Good? then Some((Acked(cmd, ack, own), w.log, w.sent))
    else if o.cause == NotSent(FlushFailed) then Some((Failed(SendCode(FlushFailed)), w.log, w.sent))
    else None
  }
}

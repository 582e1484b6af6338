// The session lifecycle as a step system: any number of Start, Close and rebind goroutines, the dialling
// and reaping goroutines that Start leaves behind, and the callbacks of the NATS library. A goroutine takes
// one step for each locked section and for each call that leaves the manager.

module SessionProtocol {
  import opened Common
  import opened SessionState

  type Tid = nat

  datatype ConnStatus = Up | Reconnect | Drained | Gone

  // The buffered channel between the dialling goroutine and whoever waits for it.
  datatype Dial = Dialing | Dialed(conn: ConnId) | DialFailed(err: string)

  // What a call returns. A rebind that finds its connection replaced, or a Close under way, is superseded.
  datatype Verdict = Success | Failure(code: Code) | Superseded

  datatype PC =
    // Start
    | StartCall
    | StartConnect(ch: ChanId)
    | StartDial(ch: ChanId, dial: Dial)
    | StartCheck(ch: ChanId, conn: ConnId)
    | StartJetStream(ch: ChanId, conn: ConnId)
    | StartBindKV(ch: ChanId, conn: ConnId, js: JetStream)
    | StartDiscard(ch: ChanId, conn: ConnId, err: string, code: Code)
    | StartFailed(ch: ChanId, err: string, code: Code)
    | StartCommit(ch: ChanId, conn: ConnId, js: JetStream, kv: KeyValue)
    | StartAbort(ch: ChanId, conn: ConnId)
    | StartDeferred(ch: ChanId, verdict: Verdict)
    // the late-connection reaper
    | Reap(dial: Dial)
    | ReapClose(conn: ConnId)
    // Close
    | CloseCall
    | CloseWait(ch: ChanId)
    | CloseCancelled(err: string)
    | CloseReload
    | CloseDrain(nc: Option<ConnId>)
    | CloseForce(conn: ConnId, err: string)
    | CloseFinish(nc: Option<ConnId>, drainErr: Option<string>)
    // rebindAfterReconnect
    | RebindCall(conn: ConnId)
    | RebindBind(conn: ConnId, js: JetStream)
    | RebindFailed(err: string)
    | RebindCommit(conn: ConnId, js: JetStream, kv: KeyValue)
    | RebindTell(conn: ConnId)
    | Returned(verdict: Verdict)

  // `closes` counts how often each start channel was closed; Go panics on a second close.
  datatype World = World(
    m: ManagerState, conns: map<ConnId, ConnStatus>, closes: map<ChanId, nat>, threads: map<Tid, PC>,
    retryOnFailedConnect: bool, url: string)

  // How a step of a goroutine turns out. `id` names whatever the step creates; the reaper of a cancelled
  // dial is a new goroutine.
  datatype Outcome = Good(id: nat) | Bad(err: string) | Cancelled(err: string, reaper: Tid)

  datatype Action =
    | Call(t: Tid, isStart: bool)
    | Run(t: Tid, outcome: Outcome)
    | LateDrain(t: Tid)
    | DisconnectedCallback(conn: ConnId, err: Option<string>)
    | Reconnected(conn: ConnId, t: Tid)
    | ClosedCallback(conn: ConnId)
    | StatusChange(conn: ConnId, status: ConnStatus)
    | Counts(registered: int, active: int)

  predicate Init(w: World) {
    w.m == NEW_MANAGER && w.conns == map[] && w.closes == map[] && w.threads == map[]
  }

  // What a step of one goroutine does: its next program counter, the manager fields, the channel counts, at
  // most one connection that is made or changes status, and at most one goroutine that is started.
  datatype Effect = Effect(
    pc: PC, m: ManagerState, closes: map<ChanId, nat>, conn: Option<(ConnId, ConnStatus)>, reaper: Option<(Tid, Dial)>)

  function Move(w: World, pc: PC): Effect {
    Effect(pc, w.m, w.closes, None, None)
  }

  function Apply(w: World, t: Tid, e: Effect): World {
    w.(m := e.m,
       closes := e.closes,
       conns := if e.conn.Some? then w.conns[e.conn.value.0 := e.conn.value.1] else w.conns,
       threads := if e.reaper.Some? then w.threads[t := e.pc][e.reaper.value.0 := Reap(e.reaper.value.1)]
                  else w.threads[t := e.pc])
  }

  predicate IsGone(w: World, c: ConnId) {
    c in w.conns && w.conns[c] == Gone
  }

  // The library queues its callbacks, so they may arrive late: a disconnect callback is about a connection that was
  // made, a closed callback about one that is closed by then.
  function Exec(w: World, a: Action): Option<World> {
    match a
    case Call(t, isStart) =>
      if t in w.threads then None else Some(Apply(w, t, Move(w, if isStart then StartCall else CloseCall)))
    case Run(t, o) =>
      if t !in w.threads then None else
      var e := ThreadStep(w, w.threads[t], o);
      if e.Some? then Some(Apply(w, t, e.value)) else None
    case LateDrain(t) =>
      // The drain that Close stopped waiting for gets through before the forced close.
      if t in w.threads && w.threads[t].CloseForce? && w.threads[t].conn in w.conns && !IsGone(w, w.threads[t].conn)
      then Some(w.(conns := w.conns[w.threads[t].conn := Drained])) else None
    case DisconnectedCallback(c, err) => if c in w.conns then Some(w.(m := NoteDisconnect(w.m, err))) else None
    case Reconnected(c, t) =>
      if c !in w.conns || t in w.threads then None
      else if w.m.closing then Some(w)
      else Some(Apply(w, t, Move(w, RebindCall(c))))
    case ClosedCallback(c) => if IsGone(w, c) then Some(w.(m := NoteClosed(w.m))) else None
    case StatusChange(c, s) =>
      if c in w.conns && LegalChange(w.conns[c], s) then Some(w.(conns := w.conns[c := s])) else None
    case Counts(r, n) => Some(w.(m := SetCounts(w.m, r, n)))
  }

  function ThreadStep(w: World, pc: PC, o: Outcome): Option<Effect> {
    if pc.StartCall? || StartChan(pc).Some? then StartStep(w, pc, o)
    else if pc.Reap? || pc.ReapClose? then ReapStep(w, pc, o)
    else if pc.CloseCall? || InClose(pc) then CloseStep(w, pc, o)
    else RebindStep(w, pc, o)
  }

  // What the library may do to a connection on its own. CLOSED is terminal.
  predicate LegalChange(s: ConnStatus, s': ConnStatus) {
    match s
    case Up => s' == Reconnect || s' == Gone
    case Reconnect => s' == Up || s' == Gone
    case Drained => s' == Gone
    case Gone => false
  }

  predicate Dials(pc: PC) {
    pc.StartCall? || pc.StartConnect? || pc.StartDial?
  }

  // As far as the connection.
  function DialStep(w: World, pc: PC, o: Outcome): Option<Effect>
    requires Dials(pc)
  {
    match pc
    case StartCall =>
      if o.Bad? then Some(Move(w, Returned(Failure(ConnectionFailed))))
      else if o.Cancelled? || o.id in w.closes then None
      else
        var (m', entry) := EnterStart(w.m, w.retryOnFailedConnect, w.m.nc.Some? && IsGone(w, w.m.nc.value), o.id);
        (match entry
         case Refused(code) => Some(Move(w, Returned(Failure(code))))
         case AlreadyRunning => Some(Move(w, Returned(Success)))
         case Proceed => Some(Move(w, StartConnect(o.id)).(m := m', closes := w.closes[o.id := 0])))
    case StartConnect(ch) =>
      (match o
       case Good(_) => Some(Move(w, StartDial(ch, Dialing)))
       case Bad(e) => Some(Move(w, StartFailed(ch, e, ConnectionFailed)))
       case Cancelled(_, _) => None)
    case StartDial(ch, dial) =>
      (match o
       case Cancelled(e, r) =>
         if r in w.threads then None
         else Some(Move(w, StartFailed(ch, e, ConnectionFailed)).(reaper := Some((r, dial))))
       case Good(c) =>
         (match dial
          case Dialing =>
            if c in w.conns then None else Some(Move(w, StartDial(ch, Dialed(c))).(conn := Some((c, Up))))
          case Dialed(nc) => Some(Move(w, StartCheck(ch, nc)))
          case DialFailed(e) => Some(Move(w, StartFailed(ch, e, ConnectionFailed))))
       case Bad(e) => if dial.Dialing? then Some(Move(w, StartDial(ch, DialFailed(e)))) else None)
  }

  function StartStep(w: World, pc: PC, o: Outcome): Option<Effect>
    requires pc.StartCall? || StartChan(pc).Some?
  {
    if Dials(pc) then DialStep(w, pc, o) else SetupStep(w, pc, o)
  }

  // From the connection to the end.
  function SetupStep(w: World, pc: PC, o: Outcome): Option<Effect>
    requires StartChan(pc).Some? && !Dials(pc)
  {
    match pc
    case StartCheck(ch, c) =>
      (match o
       case Good(_) => Some(Move(w, StartJetStream(ch, c)))
       case Bad(e) => Some(Move(w, StartDiscard(ch, c, e, ConnectionFailed)))
       case Cancelled(_, _) => None)
    case StartJetStream(ch, c) =>
      (match o
       case Good(n) => Some(Move(w, StartBindKV(ch, c, JetStream(c, n))))
       case Bad(e) => Some(Move(w, StartDiscard(ch, c, e, JetStreamFailed)))
       case Cancelled(_, _) => None)
    case StartBindKV(ch, c, js) =>
      (match o
       case Good(_) => Some(Move(w, StartCommit(ch, c, js, KeyValue(js))))
       case Bad(e) => Some(Move(w, StartDiscard(ch, c, e, JetStreamFailed)))
       case Cancelled(_, _) => None)
    case StartDiscard(ch, c, e, code) =>
      if o.Good? then Some(Move(w, StartFailed(ch, e, code)).(conn := Some((c, Gone)))) else None
    case StartFailed(ch, e, code) =>
      if o.Good? then Some(Move(w, StartDeferred(ch, Failure(code))).(m := Degrade(w.m, e))) else None
    case StartCommit(ch, c, js, kv) =>
      if !o.Good? then None else
      var (m', installed) := CommitStart(w.m, c, js, kv, w.url);
      Some(Move(w, if installed then StartDeferred(ch, Success) else StartAbort(ch, c)).(m := m'))
    case StartAbort(ch, c) =>
      if o.Good? then Some(Move(w, StartDeferred(ch, Failure(Shutdown))).(conn := Some((c, Gone)))) else None
    case StartDeferred(ch, v) =>
      if !o.Good? then None else
      var (m', closed) := LeaveStart(w.m, ch);
      Some(Move(w, Returned(v)).(m := m', closes := if closed then Bump(w.closes, ch) else w.closes))
  }

  function Bump(closes: map<ChanId, nat>, ch: ChanId): map<ChanId, nat> {
    closes[ch := if ch in closes then closes[ch] + 1 else 1]
  }

  function ReapStep(w: World, pc: PC, o: Outcome): Option<Effect>
    requires pc.Reap? || pc.ReapClose?
  {
    match pc
    case Reap(Dialing) =>
      (match o
       case Good(c) => if c in w.conns then None else Some(Move(w, Reap(Dialed(c))).(conn := Some((c, Up))))
       case Bad(e) => Some(Move(w, Reap(DialFailed(e))))
       case Cancelled(_, _) => None)
    case Reap(Dialed(c)) => if o.Good? then Some(Move(w, ReapClose(c))) else None
    case Reap(DialFailed(_)) => if o.Good? then Some(Move(w, Returned(Success))) else None
    case ReapClose(c) => if o.Good? then Some(Move(w, Returned(Success)).(conn := Some((c, Gone)))) else None
  }

  predicate Drains(pc: PC) {
    pc.CloseDrain? || pc.CloseForce? || pc.CloseFinish?
  }

  function CloseStep(w: World, pc: PC, o: Outcome): Option<Effect>
    requires pc.CloseCall? || InClose(pc)
  {
    if Drains(pc) then DrainStep(w, pc, o) else WaitStep(w, pc, o)
  }

  // Up to the connection to drain.
  function WaitStep(w: World, pc: PC, o: Outcome): Option<Effect>
    requires (pc.CloseCall? || InClose(pc)) && !Drains(pc)
  {
    match pc
    case CloseCall =>
      if !o.Good? then None else
      var (m', entry) := EnterClose(w.m);
      (match entry
       case Overlapping => Some(Move(w, Returned(Success)))
       case NothingToClose => Some(Move(w, Returned(Success)).(m := m'))
       case Drain(wait, nc) =>
         Some(Move(w, if wait.Some? then CloseWait(wait.value) else CloseDrain(nc)).(m := m')))
    case CloseWait(ch) =>
      (match o
       case Good(_) => if ch in w.closes && w.closes[ch] > 0 then Some(Move(w, CloseReload)) else None
       case Bad(e) => Some(Move(w, CloseCancelled(e)))
       case Cancelled(_, _) => None)
    case CloseCancelled(e) =>
      if o.Good? then Some(Move(w, Returned(Failure(Shutdown))).(m := CancelClose(w.m, e))) else None
    case CloseReload => if o.Good? then Some(Move(w, CloseDrain(w.m.nc))) else None
  }

  function DrainStep(w: World, pc: PC, o: Outcome): Option<Effect>
    requires Drains(pc)
  {
    match pc
    case CloseDrain(nc) =>
      (match o
       case Good(_) =>
         if nc.None? then Some(Move(w, CloseFinish(None, None)))
         else if IsGone(w, nc.value) then None
         else Some(Move(w, CloseFinish(nc, None)).(conn := Some((nc.value, Drained))))
       case Bad(e) => if nc.Some? then Some(Move(w, CloseForce(nc.value, e))) else None
       case Cancelled(_, _) => None)
    case CloseForce(c, e) =>
      if o.Good? then Some(Move(w, CloseFinish(Some(c), Some(e))).(conn := Some((c, Gone)))) else None
    case CloseFinish(_, e) =>
      if o.Good?
      then Some(Move(w, Returned(if e.None? then Success else Failure(Shutdown))).(m := LeaveClose(w.m, e)))
      else None
  }

  function RebindStep(w: World, pc: PC, o: Outcome): Option<Effect> {
    match pc
    case RebindCall(c) =>
      (match o
       case Good(n) => Some(Move(w, RebindBind(c, JetStream(c, n))))
       case Bad(e) => Some(Move(w, RebindFailed(e)))
       case Cancelled(_, _) => None)
    case RebindBind(c, js) =>
      (match o
       case Good(_) => Some(Move(w, RebindCommit(c, js, KeyValue(js))))
       case Bad(e) => Some(Move(w, RebindFailed(e)))
       case Cancelled(_, _) => None)
    case RebindFailed(e) =>
      if o.Good? then Some(Move(w, Returned(Failure(JetStreamFailed))).(m := Degrade(w.m, e))) else None
    case RebindCommit(c, js, kv) =>
      if !o.Good? then None else
      var (m', rebound) := CommitRebind(w.m, c, js, kv, w.url);
      Some(Move(w, if rebound then RebindTell(c) else Returned(Superseded)).(m := m'))
    // the hook that the client has set
    case RebindTell(_) => if o.Good? then Some(Move(w, Returned(Success))) else None
    case _ => None
  }

  // ---- regions of the program counters ----

  // The channel of a Start that has passed its first locked section and not yet run its deferred one.
  function StartChan(pc: PC): Option<ChanId> {
    match pc
    case StartConnect(ch) => Some(ch)
    case StartDial(ch, _) => Some(ch)
    case StartCheck(ch, _) => Some(ch)
    case StartJetStream(ch, _) => Some(ch)
    case StartBindKV(ch, _, _) => Some(ch)
    case StartDiscard(ch, _, _, _) => Some(ch)
    case StartFailed(ch, _, _) => Some(ch)
    case StartCommit(ch, _, _, _) => Some(ch)
    case StartAbort(ch, _) => Some(ch)
    case StartDeferred(ch, _) => Some(ch)
    case _ => None
  }

  // A Close between the section that sets `closing` and the one that clears it.
  predicate InClose(pc: PC) {
    pc.CloseWait? || pc.CloseCancelled? || PastWait(pc)
  }

  predicate PastWait(pc: PC) {
    pc.CloseReload? || pc.CloseDrain? || pc.CloseForce? || pc.CloseFinish?
  }

  // The connection a goroutine is responsible for.
  function Held(pc: PC): Option<ConnId> {
    match pc
    case StartDial(_, Dialed(c)) => Some(c)
    case StartCheck(_, c) => Some(c)
    case StartJetStream(_, c) => Some(c)
    case StartBindKV(_, c, _) => Some(c)
    case StartDiscard(_, c, _, _) => Some(c)
    case StartCommit(_, c, _, _) => Some(c)
    case StartAbort(_, c) => Some(c)
    case Reap(Dialed(c)) => Some(c)
    case ReapClose(c) => Some(c)
    case _ => None
  }
}

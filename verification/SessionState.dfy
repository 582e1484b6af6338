// The fields that internal/session.Manager guards with its mutex, and one function for each section of
// code that runs while the mutex is held.

module SessionState {
  import opened Common

  type ConnId = nat
  type ChanId = nat

  // A JetStream context is made from a connection; the serial number tells two contexts of the same
  // connection apart (a reconnect builds a new one). A KV handle is bound through a context.
  datatype JetStream = JetStream(conn: ConnId, serial: nat)
  datatype KeyValue = KeyValue(via: JetStream)

  datatype ConnectionState = New | Connecting | Connected | Reconnecting | Draining | Closed | Degraded

  datatype Health = Health(
    state: ConnectionState, connectedURL: string, jetStreamReady: bool, kvReady: bool,
    registered: int, active: int, lastError: string)

  datatype ManagerState = ManagerState(
    nc: Option<ConnId>, js: Option<JetStream>, kv: Option<KeyValue>, health: Health,
    starting: bool, startDone: Option<ChanId>, closing: bool, closeRequested: bool)

  const NEW_MANAGER := ManagerState(
    None, None, None, Health(New, "", false, false, 0, 0, ""), false, None, false, false)

  // ---- health.go ----

  function SetState(h: Health, s: ConnectionState): Health {
    h.(state := s)
  }

  function SetConnected(h: Health, url: string, jsReady: bool, kvReady: bool): Health {
    SetState(h.(connectedURL := url, jetStreamReady := jsReady, kvReady := kvReady, lastError := ""),
             if jsReady && kvReady then Connected else Degraded)
  }

  function NotReady(h: Health, lastError: Option<string>): Health {
    h.(jetStreamReady := false, kvReady := false,
       lastError := if lastError.Some? then lastError.value else h.lastError)
  }

  function SetReconnecting(h: Health, lastError: Option<string>): Health {
    SetState(NotReady(h, lastError), Reconnecting)
  }

  function SetDegraded(h: Health, lastError: Option<string>): Health {
    SetState(NotReady(h, lastError), Degraded)
  }

  function SetClosed(h: Health, lastError: Option<string>): Health {
    SetState(NotReady(h, lastError).(connectedURL := ""), Closed)
  }

  // ---- locked sections of Start ----

  datatype StartEntry = Refused(code: Code) | AlreadyRunning | Proceed

  // `ncClosed` is the status test on a stored connection; `ch` is the channel made by this call.
  function EnterStart(m: ManagerState, retryOnFailedConnect: bool, ncClosed: bool, ch: ChanId)
    : (ManagerState, StartEntry)
  {
    if m.starting then (m, Refused(Validation))
    else if m.closing then (m, Refused(Shutdown))
    else if retryOnFailedConnect then (m, Refused(Validation))
    else if m.nc.Some? && !ncClosed then (m, AlreadyRunning)
    else (m.(starting := true, startDone := Some(ch), health := SetState(m.health, Connecting)), Proceed)
  }

  function Degrade(m: ManagerState, err: string): ManagerState {
    m.(health := SetDegraded(m.health, Some(err)))
  }

  function Install(m: ManagerState, nc: ConnId, js: JetStream, kv: KeyValue, url: string): ManagerState {
    m.(nc := Some(nc), js := Some(js), kv := Some(kv), health := SetConnected(m.health, url, true, true))
  }

  function CommitStart(m: ManagerState, nc: ConnId, js: JetStream, kv: KeyValue, url: string): (ManagerState, bool) {
    if m.closeRequested || m.closing then (m, false) else (Install(m, nc, js, kv, url), true)
  }

  // The deferred section. The flag says whether it closes the channel.
  function LeaveStart(m: ManagerState, ch: ChanId): (ManagerState, bool) {
    if m.startDone == Some(ch) then (m.(startDone := None, starting := false), true)
    else (m.(starting := false), false)
  }

  // ---- locked sections of Close ----

  datatype CloseEntry = Overlapping | NothingToClose | Drain(wait: Option<ChanId>, conn: Option<ConnId>)

  function EnterClose(m: ManagerState): (ManagerState, CloseEntry) {
    if m.closing then (m, Overlapping)
    else if m.startDone.None? && m.nc.None? then
      (m.(health := SetClosed(m.health, None), closeRequested := false, closing := false), NothingToClose)
    else
      (m.(closing := true, closeRequested := true, health := SetState(m.health, Draining)),
       Drain(m.startDone, m.nc))
  }

  function CancelClose(m: ManagerState, err: string): ManagerState {
    Degrade(m, err).(closeRequested := false, closing := false)
  }

  function LeaveClose(m: ManagerState, drainErr: Option<string>): ManagerState {
    m.(nc := None, js := None, kv := None, closeRequested := false, closing := false,
       health := SetClosed(m.health, drainErr))
  }

  // ---- callbacks.go ----

  function NoteDisconnect(m: ManagerState, err: Option<string>): ManagerState {
    if m.closing then m else m.(health := SetReconnecting(m.health, err))
  }

  function NoteClosed(m: ManagerState): ManagerState {
    m.(health := SetClosed(m.health, None))
  }

  function CommitRebind(m: ManagerState, nc: ConnId, js: JetStream, kv: KeyValue, url: string): (ManagerState, bool) {
    if m.closing then (m, false)
    else if m.nc != Some(nc) then (m, false)
    else
      (m.(js := Some(js), kv := Some(kv), health := SetConnected(m.health, url, true, true)), true)
  }

  function SetCounts(m: ManagerState, registered: int, active: int): ManagerState {
    m.(health := m.health.(registered := registered, active := active))
  }
}

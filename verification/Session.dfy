// internal/session.Manager: its fields, and one method for each stretch of code that runs under its mutex. Each
// method is proved against the function of the same section in SessionState, which is what the step system uses.

module Session {
  import opened Common
  import S = SessionState

  class Manager {
    var nc: Option<S.ConnId>
    var js: Option<S.JetStream>
    var kv: Option<S.KeyValue>
    var health: S.Health
    var starting: bool
    var startDone: Option<S.ChanId>
    var closing: bool
    var closeRequested: bool
    const retryOnFailedConnect: bool

    ghost function State(): S.ManagerState
      reads this
    {
      S.ManagerState(nc, js, kv, health, starting, startDone, closing, closeRequested)
    }

    constructor (retryOnFailedConnect: bool)
      ensures State() == S.NEW_MANAGER && this.retryOnFailedConnect == retryOnFailedConnect
    {
      nc, js, kv := None, None, None;
      health := S.Health(S.New, "", false, false, 0, 0, "");
      starting, startDone, closing, closeRequested := false, None, false, false;
      this.retryOnFailedConnect := retryOnFailedConnect;
    }

    // ---- health.go ----

    method SetStateLocked(s: S.ConnectionState)
      modifies `health
      ensures health == S.SetState(old(health), s)
    {
      health := health.(state := s);
    }

    method SetConnectedLocked(url: string, jsReady: bool, kvReady: bool)
      modifies `health
      ensures health == S.SetConnected(old(health), url, jsReady, kvReady)
    {
      health := health.(connectedURL := url);
      health := health.(jetStreamReady := jsReady);
      health := health.(kvReady := kvReady);
      health := health.(lastError := "");
      if jsReady && kvReady {
        SetStateLocked(S.Connected);
        return;
      }
      SetStateLocked(S.Degraded);
    }

    method SetReconnectingLocked(lastError: Option<string>)
      modifies `health
      ensures health == S.SetReconnecting(old(health), lastError)
    {
      health := health.(jetStreamReady := false, kvReady := false);
      if lastError.Some? {
        health := health.(lastError := lastError.value);
      }
      SetStateLocked(S.Reconnecting);
    }

    method SetDegradedLocked(lastError: Option<string>)
      modifies `health
      ensures health == S.SetDegraded(old(health), lastError)
    {
      health := health.(jetStreamReady := false, kvReady := false);
      if lastError.Some? {
        health := health.(lastError := lastError.value);
      }
      SetStateLocked(S.Degraded);
    }

    method SetClosedLocked(lastError: Option<string>)
      modifies `health
      ensures health == S.SetClosed(old(health), lastError)
    {
      health := health.(connectedURL := "", jetStreamReady := false, kvReady := false);
      if lastError.Some? {
        health := health.(lastError := lastError.value);
      }
      SetStateLocked(S.Closed);
    }

    // ---- Start ----

    method EnterStart(ncClosed: bool, ch: S.ChanId) returns (entry: S.StartEntry)
      modifies this
      ensures (State(), entry) == S.EnterStart(old(State()), retryOnFailedConnect, ncClosed, ch)
    {
      if starting {
        return S.Refused(Validation);
      }
      if closing {
        return S.Refused(Shutdown);
      }
      if retryOnFailedConnect {
        return S.Refused(Validation);
      }
      if nc != None && !ncClosed {
        return S.AlreadyRunning;
      }
      starting := true;
      startDone := Some(ch);
      SetStateLocked(S.Connecting);
      return S.Proceed;
    }

    // The failure sections of Start and of the rebind.
    method Degrade(err: string)
      modifies this
      ensures State() == S.Degrade(old(State()), err)
    {
      SetDegradedLocked(Some(err));
    }

    method CommitStart(conn: S.ConnId, stream: S.JetStream, store: S.KeyValue, url: string) returns (installed: bool)
      modifies this
      ensures (State(), installed) == S.CommitStart(old(State()), conn, stream, store, url)
    {
      if closeRequested || closing {
        return false;
      }
      nc := Some(conn);
      js := Some(stream);
      kv := Some(store);
      SetConnectedLocked(url, true, true);
      return true;
    }

    method LeaveStart(ch: S.ChanId) returns (closes: bool)
      modifies this
      ensures (State(), closes) == S.LeaveStart(old(State()), ch)
    {
      closes := false;
      if startDone == Some(ch) {
        closes := true;
        startDone := None;
      }
      starting := false;
    }

    // ---- Close ----

    method EnterClose() returns (entry: S.CloseEntry)
      modifies this
      ensures (State(), entry) == S.EnterClose(old(State()))
    {
      if closing {
        return S.Overlapping;
      }
      closing := true;
      closeRequested := true;
      var done, conn := startDone, nc;
      if done == None && conn == None {
        SetClosedLocked(None);
        closeRequested := false;
        closing := false;
        return S.NothingToClose;
      }
      SetStateLocked(S.Draining);
      return S.Drain(done, conn);
    }

    method CancelClose(err: string)
      modifies this
      ensures State() == S.CancelClose(old(State()), err)
    {
      SetDegradedLocked(Some(err));
      closeRequested := false;
      closing := false;
    }

    method LeaveClose(drainErr: Option<string>)
      modifies this
      ensures State() == S.LeaveClose(old(State()), drainErr)
    {
      nc := None;
      js := None;
      kv := None;
      closeRequested := false;
      closing := false;
      if drainErr != None {
        SetClosedLocked(drainErr);
      } else {
        SetClosedLocked(None);
      }
    }

    // ---- callbacks.go ----

    method OnDisconnect(err: Option<string>)
      modifies this
      ensures State() == S.NoteDisconnect(old(State()), err)
    {
      if closing {
        return;
      }
      SetReconnectingLocked(err);
    }

    method OnClosed()
      modifies this
      ensures State() == S.NoteClosed(old(State()))
    {
      SetClosedLocked(None);
    }

    method CommitRebind(conn: S.ConnId, stream: S.JetStream, store: S.KeyValue, url: string) returns (rebound: bool)
      modifies this
      ensures (State(), rebound) == S.CommitRebind(old(State()), conn, stream, store, url)
    {
      if closing {
        return false;
      }
      if nc == None || nc != Some(conn) {
        return false;
      }
      js := Some(stream);
      kv := Some(store);
      SetConnectedLocked(url, true, true);
      return true;
    }

    // ---- readers ----

    // `connected` is the status test on a stored connection.
    method Connection(connected: bool) returns (r: Result<S.ConnId>)
      ensures r == if nc.Some? && connected then Ok(nc.value) else Err(Disconnected)
    {
      if nc == None || !connected {
        return Err(Disconnected);
      }
      return Ok(nc.value);
    }

    method KeyValue(connected: bool) returns (r: Result<S.KeyValue>)
      ensures r.Ok? <==> nc.Some? && connected && kv.Some?
      ensures r.Ok? ==> Some(r.value) == kv
      ensures r.Err? ==> r.code == Disconnected
    {
      if nc == None || !connected || kv == None {
        return Err(Disconnected);
      }
      return Ok(kv.value);
    }

    method SetSubscriptionCounts(registered: int, active: int)
      modifies this
      ensures State() == S.SetCounts(old(State()), registered, active)
    {
      health := health.(registered := registered);
      health := health.(active := active);
    }
  }
}

// What the Closed health state does and does not say. Two readings of it that look right fail in some runs; each
// is given with a run that breaks it and with the exact runs in which it holds.

module SessionLimits {
  import opened Common
  import opened SessionState
  import opened SessionProtocol
  import opened SessionInvariant
  import opened SessionTheorems

  predicate IsClosed(w: World) {
    w.m.health.state.Closed?
  }

  // ---- "state Closed means that no connection is stored" ----

  // If a step leaves the state Closed with a connection stored, it was so before.
  predicate ClosedBefore(m: ManagerState, m': ManagerState) {
    m'.health.state.Closed? ==> m'.nc.None? || (m'.nc == m.nc && m.health.state.Closed?)
  }

  lemma ClosedByStart(w: World, pc: PC, o: Outcome, e: Effect)
    requires (pc.StartCall? || StartChan(pc).Some?) && StartStep(w, pc, o) == Some(e)
    ensures ClosedBefore(w.m, e.m)
  {
  }

  lemma ClosedByClose(w: World, pc: PC, o: Outcome, e: Effect)
    requires (pc.CloseCall? || InClose(pc)) && CloseStep(w, pc, o) == Some(e)
    ensures ClosedBefore(w.m, e.m)
  {
  }

  lemma ClosedByRebind(w: World, pc: PC, o: Outcome, e: Effect)
    requires RebindStep(w, pc, o) == Some(e)
    ensures ClosedBefore(w.m, e.m)
  {
  }

  lemma ClosedByThread(w: World, pc: PC, o: Outcome, e: Effect)
    requires ThreadStep(w, pc, o) == Some(e)
    ensures ClosedBefore(w.m, e.m)
  {
    if pc.StartCall? || StartChan(pc).Some? {
      ClosedByStart(w, pc, o, e);
    } else if pc.Reap? || pc.ReapClose? {
      ReapStepFlags(w, pc, o, e);
    } else if pc.CloseCall? || InClose(pc) {
      ClosedByClose(w, pc, o, e);
    } else {
      ClosedByRebind(w, pc, o, e);
    }
  }

  lemma ClosedByStep(w: World, a: Action, w': World)
    requires Exec(w, a) == Some(w') && (IsClosed(w) ==> w.m.nc.None?)
    ensures IsClosed(w') && w'.m.nc.Some? ==> a.ClosedCallback? && w.m.nc.Some?
  {
    if a.Run? {
      var e, r := RunShape(w, a.t, a.outcome, w');
      ClosedByThread(w, At(w, a.t), a.outcome, e);
    }
  }

  lemma {:induction false} ClosedUpTo(h: History, n: nat)
    requires IsRun(h) && n < |h.ws|
    requires forall i | 0 <= i < |h.acts| :: h.acts[i].ClosedCallback? ==> h.ws[i].m.nc.None?
    ensures IsClosed(h.ws[n]) ==> h.ws[n].m.nc.None?
  {
    if n > 0 {
      ClosedUpTo(h, n - 1);
      ClosedByStep(h.ws[n - 1], h.acts[n - 1], h.ws[n]);
    }
  }

  // It holds in exactly those runs in which no closed callback arrives while a connection is stored: the callback
  // does not look at which connection closed.
  lemma ClosedMeansNoConnection(h: History)
    requires IsRun(h)
    ensures (forall i | 0 <= i < |h.ws| :: IsClosed(h.ws[i]) ==> h.ws[i].m.nc.None?)
       <==> (forall i | 0 <= i < |h.acts| :: h.acts[i].ClosedCallback? ==> h.ws[i].m.nc.None?)
  {
    if forall i | 0 <= i < |h.acts| :: h.acts[i].ClosedCallback? ==> h.ws[i].m.nc.None? {
      forall i | 0 <= i < |h.ws| ensures IsClosed(h.ws[i]) ==> h.ws[i].m.nc.None? {
        ClosedUpTo(h, i);
      }
    } else {
      var i :| 0 <= i < |h.acts| && h.acts[i].ClosedCallback? && h.ws[i].m.nc.Some?;
      assert h.ws[i + 1] == h.ws[i].(m := NoteClosed(h.ws[i].m));
    }
  }

  // ---- "state Closed means that no live connection is stored" ----

  predicate NothingLive(w: World) {
    w.m.nc.None? || IsGone(w, w.m.nc.value)
  }

  // A closed callback arrives while a connection is stored that is not closed: it must be about another one.
  predicate Misleads(w: World, a: Action) {
    a.ClosedCallback? && !NothingLive(w)
  }

  lemma MisleadingIsAboutAnother(w: World, a: Action)
    requires Misleads(w, a) && Exec(w, a).Some?
    ensures w.m.nc.Some? && w.m.nc.value != a.conn && IsGone(w, a.conn)
  {
  }

  lemma NothingLiveAfter(w: World, a: Action, w': World)
    requires Inv(w) && Exec(w, a) == Some(w') && (IsClosed(w) ==> NothingLive(w))
    ensures (IsClosed(w') ==> NothingLive(w')) <==> !Misleads(w, a)
  {
    if a.Run? {
      var e, r := RunShape(w, a.t, a.outcome, w');
      ClosedByThread(w, At(w, a.t), a.outcome, e);
      assert LocalRuntime(w.m, w.conns, At(w, a.t));
      StepConnMove(w, At(w, a.t), a.outcome, e);
      ConnsMoved(w, e, Held(At(w, a.t)), Held(e.pc));
    } else {
      var t := EnvShape(w, a, w');
    }
  }

  // It holds throughout a run iff no closed callback about another connection arrives while a live one is stored.
  lemma {:induction false} ClosedMeansNothingLive(h: History, n: nat)
    requires IsRun(h) && n < |h.ws|
    ensures (forall i | 0 <= i <= n :: IsClosed(h.ws[i]) ==> NothingLive(h.ws[i]))
       <==> (forall i | 0 <= i < n :: !Misleads(h.ws[i], h.acts[i]))
  {
    if n > 0 {
      ClosedMeansNothingLive(h, n - 1);
      Reachable(h, n - 1);
      if IsClosed(h.ws[n - 1]) ==> NothingLive(h.ws[n - 1]) {
        NothingLiveAfter(h.ws[n - 1], h.acts[n - 1], h.ws[n]);
      }
    }
  }

  // ---- "after Close the state stays Closed until the next Start" ----

  // A disconnect callback, or a rebind that was under way and fails.
  predicate Disturbs(w: World, a: Action) {
    a.DisconnectedCallback? || (a.Run? && At(w, a.t).RebindFailed?)
  }

  ghost predicate Idle(w: World) {
    w.m.nc.None? && !w.m.closing && w.m.startDone.None? && NoStart(w) && NoClose(w)
  }

  lemma IdleThread(w: World, pc: PC, o: Outcome, e: Effect)
    requires ThreadStep(w, pc, o) == Some(e)
    requires w.m.nc.None? && !w.m.closing && w.m.startDone.None? && StartChan(pc).None? && StartChan(e.pc).None?
               && !InClose(pc)
    ensures e.m.nc.None? && !e.m.closing && e.m.startDone.None? && !InClose(e.pc)
    ensures e.m.health.state.Closed? == if pc.RebindFailed? then false else w.m.health.state.Closed? || pc.CloseCall?
  {
  }

  lemma IdleStep(w: World, a: Action, w': World)
    requires Idle(w) && Exec(w, a) == Some(w') && (a.Run? ==> !Enters(w, a.t, w'))
    ensures Idle(w')
    ensures IsClosed(w) ==> IsClosed(w') == !Disturbs(w, a)
  {
    if a.Run? {
      var e, r := RunShape(w, a.t, a.outcome, w');
      assert StartChan(At(w, a.t)).None? && !InClose(At(w, a.t));
      EntryOnlyFromCall(w, At(w, a.t), a.outcome, e);
      IdleThread(w, At(w, a.t), a.outcome, e);
    } else {
      var t := EnvShape(w, a, w');
      if IsClosed(w) {
        EnvClosed(w, a, w');
      }
    }
  }

  lemma EnvClosed(w: World, a: Action, w': World)
    requires !a.Run? && Exec(w, a) == Some(w') && !w.m.closing && IsClosed(w)
    ensures IsClosed(w') == !a.DisconnectedCallback?
  {
  }

  lemma CloseEndsIdle(w: World, a: Action, w': World)
    requires Inv(w) && Exec(w, a) == Some(w') && CloseEnds(w, a)
    ensures Idle(w') && IsClosed(w')
  {
    AfterCloseNothingRuns(w, a, w');
  }

  lemma IdleFrom(h: History, k: nat)
    requires IsRun(h) && k < |h.acts| && CloseEnds(h.ws[k], h.acts[k])
    ensures Idle(h.ws[k + 1]) && IsClosed(h.ws[k + 1])
  {
    Reachable(h, k);
    CloseEndsIdle(h.ws[k], h.acts[k], h.ws[k + 1]);
  }

  lemma IdleNext(h: History, i: nat)
    requires IsRun(h) && i < |h.acts| && Idle(h.ws[i])
    requires h.acts[i].Run? ==> !Enters(h.ws[i], h.acts[i].t, h.ws[i + 1])
    ensures Idle(h.ws[i + 1])
    ensures IsClosed(h.ws[i]) ==> IsClosed(h.ws[i + 1]) == !Disturbs(h.ws[i], h.acts[i])
  {
    IdleStep(h.ws[i], h.acts[i], h.ws[i + 1]);
  }

  lemma {:induction false} IdleUntil(h: History, k: nat, n: nat)
    requires IsRun(h) && k < |h.acts| && CloseEnds(h.ws[k], h.acts[k]) && k < n < |h.ws|
    requires forall i | k < i < n :: h.acts[i].Run? ==> !Enters(h.ws[i], h.acts[i].t, h.ws[i + 1])
    ensures Idle(h.ws[n])
    ensures (forall i | k < i < n :: !Disturbs(h.ws[i], h.acts[i])) ==> IsClosed(h.ws[n])
    decreases n
  {
    if n == k + 1 {
      IdleFrom(h, k);
    } else {
      IdleUntil(h, k, n - 1);
      IdleNext(h, n - 1);
    }
  }

  // As long as no Start enters, the state stays Closed exactly if no disconnect callback arrives and no rebind fails.
  lemma ClosedStaysClosed(h: History, k: nat, n: nat)
    requires IsRun(h) && k < |h.acts| && CloseEnds(h.ws[k], h.acts[k]) && k < n < |h.ws|
    requires forall i | k < i < n :: h.acts[i].Run? ==> !Enters(h.ws[i], h.acts[i].t, h.ws[i + 1])
    ensures (forall i | k < i <= n :: IsClosed(h.ws[i])) <==> (forall i | k < i < n :: !Disturbs(h.ws[i], h.acts[i]))
  {
    if forall i | k < i < n :: !Disturbs(h.ws[i], h.acts[i]) {
      forall i | k < i <= n ensures IsClosed(h.ws[i]) {
        IdleUntil(h, k, i);
      }
    } else {
      var i :| k < i < n && Disturbs(h.ws[i], h.acts[i]);
      IdleUntil(h, k, i);
      IdleNext(h, i);
    }
  }

  // ---- runs that break these readings ----

  const FRESH := World(NEW_MANAGER, map[], map[], map[], false, "nats://a")

  function Last(h: History): World
    requires |h.ws| > 0
  {
    h.ws[|h.ws| - 1]
  }

  lemma Extend(h: History, a: Action, w: World) returns (h': History)
    requires IsRun(h) && Exec(Last(h), a) == Some(w)
    ensures IsRun(h') && Last(h') == w && h'.acts == h.acts + [a] && h.ws <= h'.ws
  {
    h' := History(h.ws + [w], h.acts + [a]);
  }

  lemma Advance(h: History, t: Tid, o: Outcome, e: Effect) returns (h': History)
    requires IsRun(h) && t in Last(h).threads && ThreadStep(Last(h), Last(h).threads[t], o) == Some(e)
    ensures IsRun(h') && Last(h') == Apply(Last(h), t, e) && h'.acts == h.acts + [Run(t, o)] && h.ws <= h'.ws
  {
    h' := Extend(h, Run(t, o), Apply(Last(h), t, e));
  }

  // Nothing is stored, nothing is under way, and a new goroutine, channel and connection are at hand.
  predicate Ready(w: World, t: Tid, ch: ChanId, c: ConnId) {
    && w.m.nc.None? && !w.m.starting && !w.m.closing && !w.m.closeRequested && !w.retryOnFailedConnect
    && t !in w.threads && ch !in w.closes && c !in w.conns
  }

  // After the first locked section of a Start.
  function Entered(w: World, t: Tid, ch: ChanId): World {
    w.(m := EnterStart(w.m, false, false, ch).0, closes := w.closes[ch := 0],
       threads := w.threads[t := StartConnect(ch)])
  }

  lemma StartEnters(h: History, t: Tid, ch: ChanId, c: ConnId) returns (h': History)
    requires IsRun(h) && Ready(Last(h), t, ch, c)
    ensures IsRun(h') && Last(h') == Entered(Last(h), t, ch)
  {
    var w := Last(h);
    h' := Extend(h, Call(t, true), w.(threads := w.threads[t := StartCall]));
    h' := Advance(h', t, Good(ch),
        Move(Last(h'), StartConnect(ch)).(m := EnterStart(w.m, false, false, ch).0, closes := w.closes[ch := 0]));
    assert Last(h').threads == w.threads[t := StartConnect(ch)];
  }

  function Checked(w: World, t: Tid, ch: ChanId, c: ConnId): World {
    w.(conns := w.conns[c := Up], threads := w.threads[t := StartCheck(ch, c)])
  }

  lemma StartDials(h: History, t: Tid, ch: ChanId, c: ConnId) returns (h': History)
    requires IsRun(h) && t in Last(h).threads && Last(h).threads[t] == StartConnect(ch) && c !in Last(h).conns
    ensures IsRun(h') && Last(h') == Checked(Last(h), t, ch, c)
  {
    var w := Last(h);
    h' := Advance(h, t, Good(0), Move(w, StartDial(ch, Dialing)));
    h' := Advance(h', t, Good(c), Move(Last(h'), StartDial(ch, Dialed(c))).(conn := Some((c, Up))));
    h' := Advance(h', t, Good(0), Move(Last(h'), StartCheck(ch, c)));
    assert Last(h').threads == w.threads[t := StartCheck(ch, c)];
  }

  lemma StartBinds(h: History, t: Tid, ch: ChanId, c: ConnId) returns (h': History)
    requires IsRun(h) && t in Last(h).threads && Last(h).threads[t] == StartCheck(ch, c)
    ensures IsRun(h') && Last(h') == Last(h).(threads := Last(h).threads[t := StartBindKV(ch, c, JetStream(c, 1))])
  {
    var w := Last(h);
    h' := Advance(h, t, Good(0), Move(w, StartJetStream(ch, c)));
    h' := Advance(h', t, Good(1), Move(Last(h'), StartBindKV(ch, c, JetStream(c, 1))));
    assert Last(h').threads == w.threads[t := StartBindKV(ch, c, JetStream(c, 1))];
  }

  // A Start that gets as far as binding the bucket.
  lemma StartConnects(h: History, t: Tid, ch: ChanId, c: ConnId) returns (h': History)
    requires IsRun(h) && Ready(Last(h), t, ch, c)
    ensures IsRun(h')
    ensures var w := Entered(Last(h), t, ch);
            Last(h') == w.(conns := w.conns[c := Up], threads := w.threads[t := StartBindKV(ch, c, JetStream(c, 1))])
  {
    h' := StartEnters(h, t, ch, c);
    var w := Last(h');
    h' := StartDials(h', t, ch, c);
    h' := StartBinds(h', t, ch, c);
    assert Last(h').threads == w.threads[t := StartBindKV(ch, c, JetStream(c, 1))];
  }

  lemma StartDiscards(h: History, t: Tid, ch: ChanId, c: ConnId) returns (h': History)
    requires IsRun(h) && t in Last(h).threads && Last(h).threads[t] == StartBindKV(ch, c, JetStream(c, 1))
    ensures IsRun(h')
    ensures Last(h') == Last(h).(conns := Last(h).conns[c := Gone],
                                 threads := Last(h).threads[t := StartFailed(ch, "no bucket", JetStreamFailed)])
  {
    var w := Last(h);
    h' := Advance(h, t, Bad("no bucket"), Move(w, StartDiscard(ch, c, "no bucket", JetStreamFailed)));
    h' := Advance(h', t, Good(0),
        Move(Last(h'), StartFailed(ch, "no bucket", JetStreamFailed)).(conn := Some((c, Gone))));
    assert Last(h').threads == w.threads[t := StartFailed(ch, "no bucket", JetStreamFailed)];
  }

  lemma StartFails(h: History, t: Tid, ch: ChanId) returns (h': History)
    requires IsRun(h) && t in Last(h).threads && Last(h).threads[t] == StartFailed(ch, "no bucket", JetStreamFailed)
    requires Last(h).m.startDone == Some(ch)
    ensures IsRun(h') && Last(h').conns == Last(h).conns && Last(h').threads.Keys == Last(h).threads.Keys
    ensures Last(h').m == LeaveStart(Degrade(Last(h).m, "no bucket"), ch).0
              && Last(h').closes.Keys == Last(h).closes.Keys + {ch}
    ensures Last(h').retryOnFailedConnect == Last(h).retryOnFailedConnect
  {
    var m := Degrade(Last(h).m, "no bucket");
    h' := Advance(h, t, Good(0), Move(Last(h), StartDeferred(ch, Failure(JetStreamFailed))).(m := m));
    var e := Move(Last(h'), Returned(Failure(JetStreamFailed)));
    h' := Advance(h', t, Good(0), e.(m := LeaveStart(m, ch).0, closes := Bump(Last(h').closes, ch)));
  }

  lemma StartStores(h: History, t: Tid, ch: ChanId, c: ConnId) returns (h': History)
    requires IsRun(h) && t in Last(h).threads && Last(h).threads[t] == StartBindKV(ch, c, JetStream(c, 1))
    requires !Last(h).m.closing && !Last(h).m.closeRequested
    ensures IsRun(h')
    ensures var js := JetStream(c, 1);
            Last(h') == Last(h).(m := Install(Last(h).m, c, js, KeyValue(js), Last(h).url),
                                 threads := Last(h).threads[t := StartDeferred(ch, Success)])
  {
    var (w, js) := (Last(h), JetStream(c, 1));
    h' := Advance(h, t, Good(0), Move(w, StartCommit(ch, c, js, KeyValue(js))));
    h' := Advance(h', t, Good(0),
        Move(Last(h'), StartDeferred(ch, Success)).(m := Install(w.m, c, js, KeyValue(js), w.url)));
    assert Last(h').threads == w.threads[t := StartDeferred(ch, Success)];
  }

  lemma StartCommits(h: History, t: Tid, ch: ChanId, c: ConnId) returns (h': History)
    requires IsRun(h) && t in Last(h).threads && Last(h).threads[t] == StartBindKV(ch, c, JetStream(c, 1))
    requires !Last(h).m.closing && !Last(h).m.closeRequested && Last(h).m.startDone == Some(ch)
    ensures IsRun(h') && Last(h').conns == Last(h).conns && Last(h').threads.Keys == Last(h).threads.Keys
    ensures var js := JetStream(c, 1);
            Last(h').m == LeaveStart(Install(Last(h).m, c, js, KeyValue(js), Last(h).url), ch).0
  {
    h' := StartStores(h, t, ch, c);
    var w := Last(h');
    h' := Advance(h', t, Good(0),
        Move(w, Returned(Success)).(m := LeaveStart(w.m, ch).0, closes := Bump(w.closes, ch)));
  }

  // A Start whose connection 1 is closed because the bucket cannot be bound, a second Start that stores connection 2,
  // and then the closed callback of 1: Closed, with 2 stored and up.
  lemma ClosedWithConnection() returns (h: History)
    ensures IsRun(h) && |h.acts| > 0 && h.acts[|h.acts| - 1] == ClosedCallback(1)
    ensures IsClosed(Last(h)) && Last(h).m.nc == Some(2) && Live(Last(h), 2)
  {
    h := History([FRESH], []);
    h := StartConnects(h, 0, 0, 1);
    h := StartDiscards(h, 0, 0, 1);
    h := StartFails(h, 0, 0);
    h := StartConnects(h, 1, 1, 2);
    h := StartCommits(h, 1, 1, 2);
    h := Extend(h, ClosedCallback(1), Last(h).(m := NoteClosed(Last(h).m)));
  }

  // A Close up to the drain of the stored connection.
  lemma CloseEnters(h: History, t: Tid, c: ConnId) returns (h': History)
    requires IsRun(h) && t !in Last(h).threads
    requires Last(h).m.nc == Some(c) && Last(h).m.startDone.None? && !Last(h).m.closing
    ensures IsRun(h')
    ensures Last(h') == Last(h).(m := EnterClose(Last(h).m).0, threads := Last(h).threads[t := CloseDrain(Some(c))])
  {
    var w := Last(h);
    h' := Extend(h, Call(t, false), w.(threads := w.threads[t := CloseCall]));
    h' := Advance(h', t, Good(0), Move(Last(h'), CloseDrain(Some(c))).(m := EnterClose(w.m).0));
    assert Last(h').threads == w.threads[t := CloseDrain(Some(c))];
  }

  lemma CloseDrains(h: History, t: Tid, c: ConnId) returns (h': History)
    requires IsRun(h) && t in Last(h).threads && Last(h).threads[t] == CloseDrain(Some(c))
    requires c in Last(h).conns && !Last(h).conns[c].Gone?
    ensures IsRun(h') && |h'.acts| > 0 && CloseEnds(h'.ws[|h'.acts| - 1], h'.acts[|h'.acts| - 1])
    ensures Last(h').conns == Last(h).conns[c := Drained] && Last(h').m == LeaveClose(Last(h).m, None)
  {
    var w := Last(h);
    h' := Advance(h, t, Good(0), Move(w, CloseFinish(Some(c), None)).(conn := Some((c, Drained))));
    var w' := Last(h');
    assert w'.threads[t] == CloseFinish(Some(c), None) && w'.m == w.m && w'.conns == w.conns[c := Drained];
    h' := Advance(h', t, Good(0), Move(w', Returned(Success)).(m := LeaveClose(w.m, None)));
  }

  // A whole Start, and a Close that drains its connection.
  lemma StartedAndClosed() returns (h: History)
    ensures IsRun(h) && |h.acts| > 0 && CloseEnds(h.ws[|h.acts| - 1], h.acts[|h.acts| - 1])
    ensures 1 in Last(h).conns && Last(h).conns[1].Drained?
    ensures IsClosed(Last(h)) && !Last(h).m.closing && Last(h).m.nc.None?
  {
    h := History([FRESH], []);
    h := StartConnects(h, 0, 0, 1);
    h := StartCommits(h, 0, 0, 1);
    h := CloseEnters(h, 1, 1);
    h := CloseDrains(h, 1, 1);
  }

  // The late disconnect callback of that connection: Reconnecting, with nothing to reconnect.
  lemma CloseIsNotFinal() returns (h: History)
    ensures IsRun(h) && |h.acts| > 1 && CloseEnds(h.ws[|h.acts| - 2], h.acts[|h.acts| - 2])
    ensures h.acts[|h.acts| - 1] == DisconnectedCallback(1, None) && 1 in Last(h).conns && Last(h).conns[1].Drained?
    ensures IsClosed(h.ws[|h.acts| - 1]) && Last(h).m.health.state.Reconnecting? && Last(h).m.nc.None?
  {
    h := StartedAndClosed();
    h := Extend(h, DisconnectedCallback(1, None), Last(h).(m := NoteDisconnect(Last(h).m, None)));
  }
}

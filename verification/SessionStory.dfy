// What the manager shows - the stored handles and the health snapshot - told from the actions of a run alone.

module SessionStory {
  import opened Common
  import opened SessionState
  import opened SessionProtocol
  import opened SessionInvariant
  import opened SessionTheorems
  import opened SessionLimits
  import opened SessionAnswers

  datatype Shown = Shown(nc: Option<ConnId>, js: Option<JetStream>, kv: Option<KeyValue>, health: Health)

  function Show(m: ManagerState): Shown {
    Shown(m.nc, m.js, m.kv, m.health)
  }

  // What an action means for what is shown.
  datatype Event =
    | Quiet
    | Connects
    | Runs(nc: ConnId, js: JetStream, kv: KeyValue)
    | Suffers(text: string)
    | StartsToClose
    | Ends(err: Option<string>)
    | Drops(err: Option<string>)
    | Hears
    | Counted(registered: int, active: int)

  function EventOf(w: World, a: Action): Event {
    match a
    case Run(t, o) => EventOfStep(w, At(w, t), o)
    case DisconnectedCallback(_, err) => if w.m.closing then Quiet else Drops(err)
    case ClosedCallback(_) => Hears
    case Counts(r, n) => Counted(r, n)
    case _ => Quiet
  }

  function EventOfStep(w: World, pc: PC, o: Outcome): Event {
    match pc
    case StartCall =>
      var stored := w.m.nc.Some? && !IsGone(w, w.m.nc.value);
      if !o.Good? || w.m.starting || w.m.closing || w.retryOnFailedConnect || stored then Quiet else Connects
    case StartFailed(_, err, _) => Suffers(err)
    case StartCommit(_, c, js, kv) => if w.m.closing then Quiet else Runs(c, js, kv)
    case CloseCall =>
      if w.m.closing then Quiet
      else if w.m.startDone.None? && w.m.nc.None? then Ends(None)
      else StartsToClose
    case CloseCancelled(err) => Suffers(err)
    case CloseFinish(_, err) => Ends(err)
    case RebindFailed(err) => Suffers(err)
    case RebindCommit(c, js, kv) => if w.m.nc == Some(c) && !w.m.closing then Runs(c, js, kv) else Quiet
    case _ => Quiet
  }

  function OrElse(err: Option<string>, old_: string): string {
    if err.Some? then err.value else old_
  }

  function After(s: Shown, e: Event, url: string): Shown {
    var h := s.health;
    match e
    case Quiet => s
    case Connects => s.(health := h.(state := Connecting))
    case Runs(nc, js, kv) =>
      Shown(Some(nc), Some(js), Some(kv), Health(Connected, url, true, true, h.registered, h.active, ""))
    case Suffers(err) =>
      s.(health := Health(Degraded, h.connectedURL, false, false, h.registered, h.active, err))
    case StartsToClose => s.(health := h.(state := Draining))
    case Ends(err) =>
      Shown(None, None, None, Health(Closed, "", false, false, h.registered, h.active, OrElse(err, h.lastError)))
    case Drops(err) =>
      s.(health := Health(Reconnecting, h.connectedURL, false, false, h.registered, h.active, OrElse(err, h.lastError)))
    case Hears => s.(health := Health(Closed, "", false, false, h.registered, h.active, h.lastError))
    case Counted(r, n) => s.(health := h.(registered := r, active := n))
  }

  predicate TrueTo(w: World, pc: PC, o: Outcome, m': ManagerState) {
    Show(m') == After(Show(w.m), EventOfStep(w, pc, o), w.url)
  }

  lemma DialTold(w: World, pc: PC, o: Outcome, e: Effect)
    requires Dials(pc) && DialStep(w, pc, o) == Some(e)
    ensures TrueTo(w, pc, o, e.m)
  {
  }

  lemma SetupTold(w: World, pc: PC, o: Outcome, e: Effect)
    requires StartChan(pc).Some? && !Dials(pc) && SetupStep(w, pc, o) == Some(e) && w.m.closing == w.m.closeRequested
    ensures TrueTo(w, pc, o, e.m)
  {
  }

  lemma WaitTold(w: World, pc: PC, o: Outcome, e: Effect)
    requires (pc.CloseCall? || InClose(pc)) && !Drains(pc) && WaitStep(w, pc, o) == Some(e)
    requires Coherent(w.m)
    ensures TrueTo(w, pc, o, e.m)
  {
  }

  lemma DrainTold(w: World, pc: PC, o: Outcome, e: Effect)
    requires Drains(pc) && DrainStep(w, pc, o) == Some(e)
    ensures TrueTo(w, pc, o, e.m)
  {
  }

  lemma OtherTold(w: World, pc: PC, o: Outcome, e: Effect)
    requires !pc.StartCall? && StartChan(pc).None? && !pc.CloseCall? && !InClose(pc) && ThreadStep(w, pc, o) == Some(e)
    ensures TrueTo(w, pc, o, e.m)
  {
  }

  lemma StepTold(w: World, pc: PC, o: Outcome, e: Effect)
    requires ThreadStep(w, pc, o) == Some(e) && w.m.closing == w.m.closeRequested && Coherent(w.m)
    ensures TrueTo(w, pc, o, e.m)
  {
    if Dials(pc) {
      DialTold(w, pc, o, e);
    } else if StartChan(pc).Some? {
      SetupTold(w, pc, o, e);
    } else if Drains(pc) {
      DrainTold(w, pc, o, e);
    } else if pc.CloseCall? || InClose(pc) {
      WaitTold(w, pc, o, e);
    } else {
      OtherTold(w, pc, o, e);
    }
  }

  lemma ActionTold(w: World, a: Action, w': World)
    requires Exec(w, a) == Some(w') && w.m.closing == w.m.closeRequested && Coherent(w.m)
    ensures Show(w'.m) == After(Show(w.m), EventOf(w, a), w.url) && w'.url == w.url
  {
    if a.Run? {
      var e, r := RunShape(w, a.t, a.outcome, w');
      StepTold(w, At(w, a.t), a.outcome, e);
    }
  }

  // What has happened up to point i, and what is shown after it.
  function Story(h: History, i: nat): Shown
    requires i < |h.ws| && i <= |h.acts|
  {
    if i == 0 then Shown(None, None, None, Health(New, "", false, false, 0, 0, ""))
    else After(Story(h, i - 1), EventOf(h.ws[i - 1], h.acts[i - 1]), h.ws[0].url)
  }

  // The stored handles and every field of the health snapshot are what the events of the run make of them.
  lemma {:induction false} ShowsItsStory(h: History, i: nat)
    requires IsRun(h) && i < |h.ws|
    ensures Show(h.ws[i].m) == Story(h, i) && h.ws[i].url == h.ws[0].url
  {
    if i > 0 {
      ShowsItsStory(h, i - 1);
      Reachable(h, i - 1);
      ActionTold(h.ws[i - 1], h.acts[i - 1], h.ws[i]);
    }
  }

  // ---- the errors that are shown ----

  // The error that a goroutine carries along until its last section.
  function Carries(pc: PC): Option<string> {
    match pc
    case StartDial(_, DialFailed(e)) => Some(e)
    case StartDiscard(_, _, e, _) => Some(e)
    case StartFailed(_, e, _) => Some(e)
    case CloseCancelled(e) => Some(e)
    case CloseForce(_, e) => Some(e)
    case CloseFinish(_, e) => e
    case RebindFailed(e) => Some(e)
    case _ => None
  }

  // The error with which a call outside the manager fails.
  function ErrorOf(o: Outcome): Option<string> {
    match o
    case Good(_) => None
    case Bad(e) => Some(e)
    case Cancelled(e, _) => Some(e)
  }

  predicate Passes(pc: PC, o: Outcome, pc': PC) {
    Carries(pc').Some? ==> Carries(pc') == Carries(pc) || Carries(pc') == ErrorOf(o)
  }

  lemma StartPasses(w: World, pc: PC, o: Outcome, e: Effect)
    requires (pc.StartCall? || StartChan(pc).Some?) && StartStep(w, pc, o) == Some(e)
    ensures Passes(pc, o, e.pc)
  {
  }

  lemma ClosePasses(w: World, pc: PC, o: Outcome, e: Effect)
    requires (pc.CloseCall? || InClose(pc)) && CloseStep(w, pc, o) == Some(e)
    ensures Passes(pc, o, e.pc)
  {
  }

  lemma CarriesOn(w: World, pc: PC, o: Outcome, e: Effect)
    requires ThreadStep(w, pc, o) == Some(e)
    ensures Passes(pc, o, e.pc)
  {
    if pc.StartCall? || StartChan(pc).Some? {
      StartPasses(w, pc, o, e);
    } else if pc.CloseCall? || InClose(pc) {
      ClosePasses(w, pc, o, e);
    }
  }

  ghost predicate FailedWith(h: History, j: nat, t: Tid, err: string) {
    j < |h.acts| && h.acts[j].Run? && h.acts[j].t == t && ErrorOf(h.acts[j].outcome) == Some(err)
  }

  // Whatever error a goroutine carries, and so whatever error it makes the manager show, one of its own steps failed
  // with it.
  lemma {:induction false} CarriedErrorIsReal(h: History, i: nat, t: Tid)
    requires IsRun(h) && i < |h.ws| && Carries(At(h.ws[i], t)).Some?
    ensures exists j: nat :: j < i && FailedWith(h, j, t, Carries(At(h.ws[i], t)).value)
  {
    if i > 0 {
      var (w, a, w') := (h.ws[i - 1], h.acts[i - 1], h.ws[i]);
      var err := Carries(At(w', t)).value;
      if Carries(At(w, t)) == Some(err) {
        CarriedErrorIsReal(h, i - 1, t);
        var j: nat :| j < i - 1 && FailedWith(h, j, t, err);
        assert j < i;
      } else {
        CarriedFromStep(w, a, w', t);
        assert FailedWith(h, i - 1, t, err);
      }
    }
  }

  lemma CarriedFromStep(w: World, a: Action, w': World, t: Tid)
    requires Exec(w, a) == Some(w') && Carries(At(w', t)).Some? && Carries(At(w', t)) != Carries(At(w, t))
    ensures a.Run? && a.t == t && ErrorOf(a.outcome) == Carries(At(w', t))
  {
    if a.Run? {
      var e, r := RunShape(w, a.t, a.outcome, w');
      if a.t == t {
        CarriesOn(w, At(w, t), a.outcome, e);
      }
    } else {
      var u := EnvShape(w, a, w');
    }
  }

  // ---- a run that rebinds ----

  lemma RebindBeginsRun(h: History, t: Tid, c: ConnId) returns (h': History)
    requires IsRun(h) && t !in Last(h).threads && c in Last(h).conns && !Last(h).m.closing
    ensures IsRun(h') && h.ws <= h'.ws && Last(h') == Last(h).(threads := Last(h).threads[t := RebindCall(c)])
  {
    h' := Extend(h, Reconnected(c, t), Last(h).(threads := Last(h).threads[t := RebindCall(c)]));
  }

  lemma RebindSetsUp(h: History, t: Tid, c: ConnId, n: nat) returns (h': History)
    requires IsRun(h) && t in Last(h).threads && Last(h).threads[t] == RebindCall(c)
    ensures IsRun(h') && h.ws <= h'.ws
    ensures var js := JetStream(c, n);
            Last(h') == Last(h).(threads := Last(h).threads[t := RebindCommit(c, js, KeyValue(js))])
  {
    var (w, js) := (Last(h), JetStream(c, n));
    h' := Advance(h, t, Good(n), Move(w, RebindBind(c, js)));
    h' := Advance(h', t, Good(0), Move(Last(h'), RebindCommit(c, js, KeyValue(js))));
    assert Last(h').threads == w.threads[t := RebindCommit(c, js, KeyValue(js))];
  }

  lemma RebindEnds(h: History, t: Tid, c: ConnId, js: JetStream, kv: KeyValue) returns (h': History)
    requires IsRun(h) && t in Last(h).threads && Last(h).threads[t] == RebindCommit(c, js, kv)
    requires Last(h).m.nc == Some(c) && !Last(h).m.closing
    ensures IsRun(h') && h.ws <= h'.ws
    ensures Last(h').m.nc == Some(c) && Last(h').m.js == Some(js) && Last(h').m.kv == Some(kv)
    ensures Last(h').m.health.state == Connected && At(Last(h'), t) == Returned(Success)
  {
    var w := Last(h);
    h' := Advance(h, t, Good(0), Move(w, RebindTell(c)).(m := CommitRebind(w.m, c, js, kv, w.url).0));
    h' := Advance(h', t, Good(0), Move(Last(h'), Returned(Success)));
  }

  // A connection drops and comes back, and the manager is Connected again, with new handles of the same connection.
  lemma RebindRun() returns (h: History, i: nat)
    ensures IsRun(h) && i < |h.acts| && Last(h).m.nc == Some(1) && Last(h).m.health.state == Connected
    ensures Last(h).m.js == Some(JetStream(1, 2)) && Last(h).m.kv == Some(KeyValue(JetStream(1, 2)))
    ensures h.ws[i].m.js == Some(JetStream(1, 1)) && h.ws[i].m.health.state == Reconnecting
  {
    h := Dropped();
    i := |h.acts|;
    var w := Last(h);
    h := Extend(h, StatusChange(1, Up), w.(conns := w.conns[1 := Up]));
    h := RebindBeginsRun(h, 1, 1);
    h := RebindSetsUp(h, 1, 1, 2);
    h := RebindEnds(h, 1, 1, JetStream(1, 2), KeyValue(JetStream(1, 2)));
    assert h.ws[i] == w;
  }

  // A Start whose connection then drops.
  lemma Dropped() returns (h: History)
    ensures IsRun(h) && Last(h).conns == map[1 := Reconnect] && Last(h).threads.Keys == {0}
    ensures Last(h).m.nc == Some(1) && Last(h).m.js == Some(JetStream(1, 1)) && !Last(h).m.closing
    ensures Last(h).m.health.state == Reconnecting
  {
    h := History([FRESH], []);
    h := StartConnects(h, 0, 0, 1);
    h := StartCommits(h, 0, 0, 1);
    h := Extend(h, StatusChange(1, Reconnect), Last(h).(conns := Last(h).conns[1 := Reconnect]));
    h := Extend(h, DisconnectedCallback(1, None), Last(h).(m := NoteDisconnect(Last(h).m, None)));
  }
}

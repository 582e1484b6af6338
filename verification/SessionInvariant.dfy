// What every step of the session protocol keeps. Each part of the invariant is proved in two lemmas: one reads
// off a step what it does to the goroutine that takes it, the other concludes for all goroutines.

module SessionInvariant {
  import opened Common
  import opened SessionState
  import opened SessionProtocol

  // A goroutine that does not exist (yet) counts as one that has returned.
  function At(w: World, t: Tid): PC {
    if t in w.threads then w.threads[t] else Returned(Success)
  }

  // ---- one Start at a time ----

  ghost predicate StartsInv(w: World) {
    && w.m.starting == w.m.startDone.Some?
    && (w.m.startDone.Some? ==> exists t: Tid :: StartChan(At(w, t)) == w.m.startDone)
    && (forall t: Tid :: StartChan(At(w, t)).Some? ==> StartChan(At(w, t)) == w.m.startDone)
    && (forall t: Tid, u: Tid :: StartChan(At(w, t)).Some? && StartChan(At(w, u)).Some? ==> t == u)
  }

  // Only the current channel is still open; every other one was closed once and never again.
  ghost predicate ChannelsInv(w: World) {
    && (w.m.startDone.Some? ==> w.m.startDone.value in w.closes)
    && (forall ch: ChanId | ch in w.closes :: w.closes[ch] == if w.m.startDone == Some(ch) then 0 else 1)
    && (forall t: Tid | At(w, t).CloseWait? :: At(w, t).ch in w.closes)
  }

  // ---- one Close at a time ----

  ghost predicate ClosesInv(w: World) {
    && w.m.closing == w.m.closeRequested
    && (w.m.closing ==> exists t: Tid :: InClose(At(w, t)))
    && (forall t: Tid :: InClose(At(w, t)) ==> w.m.closing)
    && (forall t: Tid, u: Tid :: InClose(At(w, t)) && InClose(At(w, u)) ==> t == u)
    && (forall t: Tid :: PastWait(At(w, t)) ==> w.m.startDone.None?)
    && (forall t: Tid | At(w, t).CloseWait? :: w.m.startDone.None? || w.m.startDone == Some(At(w, t).ch))
  }

  // ---- the runtime handles ----

  predicate Coherent(m: ManagerState) {
    && m.js.Some? == m.nc.Some? == m.kv.Some?
    && (m.nc.Some? ==> m.js.value.conn == m.nc.value && m.kv.value.via == m.js.value)
  }

  // The connection a closing goroutine works on is the one that is stored.
  predicate ClosesStored(m: ManagerState, conns: map<ConnId, ConnStatus>, pc: PC) {
    match pc
    case CloseDrain(nc) => nc == m.nc
    case CloseForce(c, _) => m.nc == Some(c)
    case CloseFinish(nc, e) =>
      nc == m.nc && (nc.Some? ==> nc.value in conns && (conns[nc.value].Drained? || conns[nc.value].Gone?))
    case _ => true
  }

  predicate BeforeCommit(pc: PC) {
    StartChan(pc).Some? && !pc.StartDeferred?
  }

  predicate RuntimeDead(m: ManagerState, conns: map<ConnId, ConnStatus>) {
    m.nc.None? || (m.nc.value in conns && conns[m.nc.value].Gone?)
  }

  predicate HandlesMatch(pc: PC) {
    match pc
    case StartBindKV(_, c, js) => js.conn == c
    case StartCommit(_, c, js, kv) => js.conn == c && kv.via == js
    case RebindBind(c, js) => js.conn == c
    case RebindCommit(c, js, kv) => js.conn == c && kv.via == js
    case _ => true
  }

  predicate LocalRuntime(m: ManagerState, conns: map<ConnId, ConnStatus>, pc: PC) {
    HandlesMatch(pc) && ClosesStored(m, conns, pc) && (BeforeCommit(pc) ==> RuntimeDead(m, conns))
  }

  ghost predicate RuntimeInv(w: World) {
    Coherent(w.m) && forall t: Tid :: LocalRuntime(w.m, w.conns, At(w, t))
  }

  // ---- nobody loses a connection ----

  // Neither closed nor draining.
  predicate Live(w: World, c: ConnId) {
    LiveIn(w.conns, c)
  }

  ghost predicate HoldersInv(w: World) {
    && (w.m.nc.Some? ==> w.m.nc.value in w.conns)
    && (forall t: Tid | Held(At(w, t)).Some? :: Held(At(w, t)).value in w.conns && Held(At(w, t)) != w.m.nc)
    && (forall t: Tid, u: Tid :: Held(At(w, t)).Some? && Held(At(w, t)) == Held(At(w, u)) ==> t == u)
    && (forall c: ConnId :: Live(w, c) ==> w.m.nc == Some(c) || exists t: Tid :: Held(At(w, t)) == Some(c))
  }

  // ---- health ----

  predicate HealthInv(m: ManagerState) {
    && m.health.jetStreamReady == m.health.kvReady
    && (m.health.state.Connected? ==>
          m.health.jetStreamReady && m.health.lastError == "" && m.nc.Some? && m.js.Some? && m.kv.Some?)
    && (m.health.state.New? || m.health.state.Reconnecting? || m.health.state.Degraded? || m.health.state.Closed? ==>
          !m.health.jetStreamReady)
  }

  ghost predicate Inv(w: World) {
    StartsInv(w) && ChannelsInv(w) && ClosesInv(w) && RuntimeInv(w) && HoldersInv(w) && HealthInv(w.m)
  }

  // ---- the shape of a step ----

  // Only goroutines t and r are affected; r, when it is another one, is a new reaper.
  ghost predicate Frame(w: World, t: Tid, r: Tid, w': World) {
    && (forall u: Tid :: u != t && u != r ==> At(w', u) == At(w, u))
    && (r != t ==> At(w, r).Returned? && At(w', r).Reap?)
  }

  // ---- one Start at a time ----

  predicate StartMove(
    m: ManagerState, closes: map<ChanId, nat>, pc: PC, m': ManagerState, closes': map<ChanId, nat>, pc': PC)
  {
    var (ch, ch') := (StartChan(pc), StartChan(pc'));
    || (ch' == ch && m'.starting == m.starting && m'.startDone == m.startDone && closes' == closes)
    || (&& ch.None? && ch'.Some? && !m.starting && !m.closing && ch'.value !in closes
        && m'.starting && m'.startDone == ch' && closes' == closes[ch'.value := 0])
    || (&& ch.Some? && ch'.None? && m.startDone == ch
        && !m'.starting && m'.startDone.None? && closes' == Bump(closes, ch.value))
  }

  lemma StartStepStartMove(w: World, pc: PC, o: Outcome, e: Effect)
    requires pc.StartCall? || StartChan(pc).Some?
    requires StartStep(w, pc, o) == Some(e)
    requires StartChan(pc).Some? ==> StartChan(pc) == w.m.startDone
    ensures StartMove(w.m, w.closes, pc, e.m, e.closes, e.pc)
  {
  }

  lemma CloseStepStartMove(w: World, pc: PC, o: Outcome, e: Effect)
    requires pc.CloseCall? || InClose(pc)
    requires CloseStep(w, pc, o) == Some(e)
    ensures StartMove(w.m, w.closes, pc, e.m, e.closes, e.pc)
  {
  }

  lemma StartsKept(w: World, t: Tid, r: Tid, w': World)
    requires StartsInv(w) && Frame(w, t, r, w')
    requires StartMove(w.m, w.closes, At(w, t), w'.m, w'.closes, At(w', t))
    ensures StartsInv(w')
  {
  }

  lemma ChannelsKept(w: World, t: Tid, r: Tid, w': World)
    requires StartsInv(w) && ChannelsInv(w) && Frame(w, t, r, w')
    requires StartMove(w.m, w.closes, At(w, t), w'.m, w'.closes, At(w', t))
    requires At(w', t).CloseWait? ==> At(w, t) == At(w', t) || w.m.startDone == Some(At(w', t).ch)
    ensures ChannelsInv(w')
  {
  }

  // ---- one Close at a time ----

  predicate CloseMove(m: ManagerState, closes: map<ChanId, nat>, pc: PC, m': ManagerState, pc': PC) {
    && m'.closing == m'.closeRequested
    && (|| (InClose(pc') == InClose(pc) && m'.closing == m.closing)
        || (!InClose(pc) && InClose(pc') && !m.closing && m'.closing)
        || (InClose(pc) && !InClose(pc') && !m'.closing))
    && (PastWait(pc') ==>
          || PastWait(pc)
          || m.startDone.None?
          || (pc.CloseWait? && pc.ch in closes && closes[pc.ch] > 0))
    && (PastWait(pc') || pc'.CloseWait? ==> m'.startDone == m.startDone)
    && (pc'.CloseWait? ==> pc == pc' || m.startDone == Some(pc'.ch))
  }

  lemma DialStepCloseMove(w: World, pc: PC, o: Outcome, e: Effect)
    requires Dials(pc)
    requires DialStep(w, pc, o) == Some(e) && w.m.closing == w.m.closeRequested
    ensures CloseMove(w.m, w.closes, pc, e.m, e.pc)
  {
  }

  lemma SetupStepCloseMove(w: World, pc: PC, o: Outcome, e: Effect)
    requires StartChan(pc).Some? && !Dials(pc)
    requires SetupStep(w, pc, o) == Some(e) && w.m.closing == w.m.closeRequested
    ensures CloseMove(w.m, w.closes, pc, e.m, e.pc)
  {
  }

  lemma StartStepCloseMove(w: World, pc: PC, o: Outcome, e: Effect)
    requires pc.StartCall? || StartChan(pc).Some?
    requires StartStep(w, pc, o) == Some(e) && w.m.closing == w.m.closeRequested
    ensures CloseMove(w.m, w.closes, pc, e.m, e.pc)
  {
    if Dials(pc) {
      DialStepCloseMove(w, pc, o, e);
    } else {
      SetupStepCloseMove(w, pc, o, e);
    }
  }

  lemma CloseStepCloseMove(w: World, pc: PC, o: Outcome, e: Effect)
    requires pc.CloseCall? || InClose(pc)
    requires CloseStep(w, pc, o) == Some(e) && w.m.closing == w.m.closeRequested
    requires InClose(pc) ==> w.m.closing
    ensures CloseMove(w.m, w.closes, pc, e.m, e.pc)
  {
  }

  lemma ClosesKept(w: World, t: Tid, r: Tid, w': World)
    requires StartsInv(w) && ChannelsInv(w) && ClosesInv(w) && Frame(w, t, r, w')
    requires StartMove(w.m, w.closes, At(w, t), w'.m, w'.closes, At(w', t))
    requires CloseMove(w.m, w.closes, At(w, t), w'.m, At(w', t))
    ensures ClosesInv(w')
  {
  }

  // ---- the runtime handles ----

  // Connections are not forgotten and do not come back to life.
  ghost predicate ConnsAge(conns: map<ConnId, ConnStatus>, conns': map<ConnId, ConnStatus>) {
    forall c: ConnId | c in conns ::
      && c in conns'
      && (conns[c].Gone? ==> conns'[c].Gone?)
      && (conns[c].Drained? ==> conns'[c].Drained? || conns'[c].Gone?)
  }

  predicate RuntimeMove(
    m: ManagerState, conns: map<ConnId, ConnStatus>, pc: PC, m': ManagerState, conns': map<ConnId, ConnStatus>, pc': PC)
  {
    HandlesMove(m, pc, m') && LocalRuntime(m', conns', pc')
  }

  predicate HandlesMove(m: ManagerState, pc: PC, m': ManagerState) {
    Coherent(m') && (m'.nc == m.nc || (pc.StartCommit? && !m.closing) || (pc.CloseFinish? && m'.nc.None?))
  }

  predicate KnownConns(w: World, pc: PC) {
    && (w.m.nc.Some? ==> w.m.nc.value in w.conns)
    && (Held(pc).Some? ==> Held(pc).value in w.conns)
  }

  lemma StartStepHandlesMove(w: World, pc: PC, o: Outcome, e: Effect)
    requires pc.StartCall? || StartChan(pc).Some?
    requires StartStep(w, pc, o) == Some(e)
    requires Coherent(w.m) && HandlesMatch(pc)
    ensures HandlesMove(w.m, pc, e.m)
  {
  }

  lemma StartStepRuntimeMove(w: World, pc: PC, o: Outcome, e: Effect)
    requires pc.StartCall? || StartChan(pc).Some?
    requires StartStep(w, pc, o) == Some(e)
    requires Coherent(w.m) && LocalRuntime(w.m, w.conns, pc) && KnownConns(w, pc)
    ensures RuntimeMove(w.m, w.conns, pc, e.m, Apply(w, 0, e).conns, e.pc)
  {
    StartStepHandlesMove(w, pc, o, e);
  }

  lemma DrainStepRuntimeMove(w: World, pc: PC, o: Outcome, e: Effect)
    requires Drains(pc)
    requires DrainStep(w, pc, o) == Some(e)
    requires Coherent(w.m) && LocalRuntime(w.m, w.conns, pc) && KnownConns(w, pc)
    ensures RuntimeMove(w.m, w.conns, pc, e.m, Apply(w, 0, e).conns, e.pc)
  {
  }

  lemma WaitStepRuntimeMove(w: World, pc: PC, o: Outcome, e: Effect)
    requires (pc.CloseCall? || InClose(pc)) && !Drains(pc)
    requires WaitStep(w, pc, o) == Some(e)
    requires Coherent(w.m) && LocalRuntime(w.m, w.conns, pc) && KnownConns(w, pc)
    ensures RuntimeMove(w.m, w.conns, pc, e.m, Apply(w, 0, e).conns, e.pc)
  {
  }

  lemma CloseStepRuntimeMove(w: World, pc: PC, o: Outcome, e: Effect)
    requires pc.CloseCall? || InClose(pc)
    requires CloseStep(w, pc, o) == Some(e)
    requires Coherent(w.m) && LocalRuntime(w.m, w.conns, pc) && KnownConns(w, pc)
    ensures RuntimeMove(w.m, w.conns, pc, e.m, Apply(w, 0, e).conns, e.pc)
  {
    if Drains(pc) {
      DrainStepRuntimeMove(w, pc, o, e);
    } else {
      WaitStepRuntimeMove(w, pc, o, e);
    }
  }

  lemma RuntimeKept(w: World, t: Tid, r: Tid, w': World)
    requires StartsInv(w) && ClosesInv(w) && RuntimeInv(w) && Frame(w, t, r, w')
    requires RuntimeMove(w.m, w.conns, At(w, t), w'.m, w'.conns, At(w', t)) && ConnsAge(w.conns, w'.conns)
    requires w.m.nc.Some? ==> w.m.nc.value in w.conns
    ensures RuntimeInv(w')
  {
  }

  // ---- nobody loses a connection ----

  // The only connection that comes to life is the one that the dialling goroutine just made.
  ghost predicate ConnsMove(
    conns: map<ConnId, ConnStatus>, h: Option<ConnId>, conns': map<ConnId, ConnStatus>, h': Option<ConnId>)
  {
    && ConnsAge(conns, conns')
    && forall c: ConnId :: LiveIn(conns', c) ==> LiveIn(conns, c) || (h'.Some? && h.None? && h'.value == c)
  }

  // What a step does to one connection: it makes it, drains it or closes it.
  predicate ConnMove(
    conns: map<ConnId, ConnStatus>, h: Option<ConnId>, conn: Option<(ConnId, ConnStatus)>, h': Option<ConnId>)
  {
    conn.Some? ==>
      var (c, s) := conn.value;
      || (s.Up? && c !in conns && h.None? && h' == Some(c))
      || (s.Drained? && c in conns && !conns[c].Gone?)
      || (s.Gone? && c in conns)
  }

  lemma ConnsMoved(w: World, e: Effect, h: Option<ConnId>, h': Option<ConnId>)
    requires ConnMove(w.conns, h, e.conn, h')
    ensures ConnsMove(w.conns, h, Apply(w, 0, e).conns, h')
  {
  }

  // At most one hand-over: what a goroutine (h), a reaper it starts (g) and the manager (nc) hold changes in one of
  // these ways.
  predicate HoldMove(
    nc: Option<ConnId>, conns: map<ConnId, ConnStatus>, h: Option<ConnId>,
    nc': Option<ConnId>, conns': map<ConnId, ConnStatus>, h': Option<ConnId>, g: Option<ConnId>)
  {
    || (h' == h && g.None? && nc' == nc)
    || (h.None? && h'.Some? && g.None? && h'.value !in conns && h'.value in conns' && nc' == nc)
    || (h.Some? && h'.None? && g.None? && !LiveIn(conns', h.value) && nc' == nc)
    || (h.Some? && h'.None? && g == h && nc' == nc)
    || (h.Some? && h'.None? && g.None? && nc' == h && (nc.Some? ==> !LiveIn(conns, nc.value)))
    || (h'.None? && h.None? && g.None? && nc'.None? && (nc.Some? ==> !LiveIn(conns, nc.value)))
  }

  predicate LiveIn(conns: map<ConnId, ConnStatus>, c: ConnId) {
    c in conns && (conns[c].Up? || conns[c].Reconnect?)
  }

  function HeldByReaper(e: Effect): Option<ConnId> {
    if e.reaper.Some? then Held(Reap(e.reaper.value.1)) else None
  }

  lemma StartStepConnMove(w: World, pc: PC, o: Outcome, e: Effect)
    requires pc.StartCall? || StartChan(pc).Some?
    requires StartStep(w, pc, o) == Some(e) && KnownConns(w, pc)
    ensures ConnMove(w.conns, Held(pc), e.conn, Held(e.pc))
  {
  }

  lemma CloseStepConnMove(w: World, pc: PC, o: Outcome, e: Effect)
    requires pc.CloseCall? || InClose(pc)
    requires CloseStep(w, pc, o) == Some(e) && LocalRuntime(w.m, w.conns, pc) && KnownConns(w, pc)
    ensures ConnMove(w.conns, Held(pc), e.conn, Held(e.pc))
  {
  }

  lemma DialStepHoldMove(w: World, pc: PC, o: Outcome, e: Effect)
    requires Dials(pc) && DialStep(w, pc, o) == Some(e)
    requires LocalRuntime(w.m, w.conns, pc) && KnownConns(w, pc)
    ensures HoldMove(w.m.nc, w.conns, Held(pc), e.m.nc, Apply(w, 0, e).conns, Held(e.pc), HeldByReaper(e))
  {
  }

  lemma SetupStepHoldMove(w: World, pc: PC, o: Outcome, e: Effect)
    requires StartChan(pc).Some? && !Dials(pc) && SetupStep(w, pc, o) == Some(e)
    requires LocalRuntime(w.m, w.conns, pc) && KnownConns(w, pc)
    ensures HoldMove(w.m.nc, w.conns, Held(pc), e.m.nc, Apply(w, 0, e).conns, Held(e.pc), HeldByReaper(e))
  {
  }

  lemma StartStepHoldMove(w: World, pc: PC, o: Outcome, e: Effect)
    requires pc.StartCall? || StartChan(pc).Some?
    requires StartStep(w, pc, o) == Some(e)
    requires LocalRuntime(w.m, w.conns, pc) && KnownConns(w, pc)
    ensures HoldMove(w.m.nc, w.conns, Held(pc), e.m.nc, Apply(w, 0, e).conns, Held(e.pc), HeldByReaper(e))
  {
    if Dials(pc) {
      DialStepHoldMove(w, pc, o, e);
    } else {
      SetupStepHoldMove(w, pc, o, e);
    }
  }

  lemma DrainStepHoldMove(w: World, pc: PC, o: Outcome, e: Effect)
    requires Drains(pc)
    requires DrainStep(w, pc, o) == Some(e)
    requires LocalRuntime(w.m, w.conns, pc) && KnownConns(w, pc)
    ensures HoldMove(w.m.nc, w.conns, Held(pc), e.m.nc, Apply(w, 0, e).conns, Held(e.pc), HeldByReaper(e))
  {
  }

  lemma WaitStepHoldMove(w: World, pc: PC, o: Outcome, e: Effect)
    requires (pc.CloseCall? || InClose(pc)) && !Drains(pc)
    requires WaitStep(w, pc, o) == Some(e)
    requires LocalRuntime(w.m, w.conns, pc) && KnownConns(w, pc)
    ensures HoldMove(w.m.nc, w.conns, Held(pc), e.m.nc, Apply(w, 0, e).conns, Held(e.pc), HeldByReaper(e))
  {
  }

  lemma CloseStepHoldMove(w: World, pc: PC, o: Outcome, e: Effect)
    requires pc.CloseCall? || InClose(pc)
    requires CloseStep(w, pc, o) == Some(e)
    requires LocalRuntime(w.m, w.conns, pc) && KnownConns(w, pc)
    ensures HoldMove(w.m.nc, w.conns, Held(pc), e.m.nc, Apply(w, 0, e).conns, Held(e.pc), HeldByReaper(e))
  {
    if Drains(pc) {
      DrainStepHoldMove(w, pc, o, e);
    } else {
      WaitStepHoldMove(w, pc, o, e);
    }
  }

  lemma ReapStepFlags(w: World, pc: PC, o: Outcome, e: Effect)
    requires pc.Reap? || pc.ReapClose?
    requires ReapStep(w, pc, o) == Some(e)
    ensures e.m == w.m && e.closes == w.closes && e.reaper.None? && (e.pc.Reap? || e.pc.ReapClose? || e.pc.Returned?)
  {
  }

  lemma ReapStepMoves(w: World, pc: PC, o: Outcome, e: Effect)
    requires pc.Reap? || pc.ReapClose?
    requires ReapStep(w, pc, o) == Some(e)
    requires w.m.closing == w.m.closeRequested
    requires Coherent(w.m) && LocalRuntime(w.m, w.conns, pc) && KnownConns(w, pc)
    ensures StartMove(w.m, w.closes, pc, e.m, e.closes, e.pc)
    ensures CloseMove(w.m, w.closes, pc, e.m, e.pc)
    ensures RuntimeMove(w.m, w.conns, pc, e.m, Apply(w, 0, e).conns, e.pc)
    ensures HoldMove(w.m.nc, w.conns, Held(pc), e.m.nc, Apply(w, 0, e).conns, Held(e.pc), HeldByReaper(e))
  {
    ReapStepFlags(w, pc, o, e);
    ReapStepHolds(w, pc, o, e);
  }

  lemma ReapStepHolds(w: World, pc: PC, o: Outcome, e: Effect)
    requires pc.Reap? || pc.ReapClose?
    requires ReapStep(w, pc, o) == Some(e)
    ensures HoldMove(w.m.nc, w.conns, Held(pc), e.m.nc, Apply(w, 0, e).conns, Held(e.pc), HeldByReaper(e))
  {
  }

  lemma RebindStepMoves(w: World, pc: PC, o: Outcome, e: Effect)
    requires !pc.StartCall? && StartChan(pc).None? && !pc.Reap? && !pc.ReapClose? && !pc.CloseCall? && !InClose(pc)
    requires RebindStep(w, pc, o) == Some(e)
    requires w.m.closing == w.m.closeRequested
    requires Coherent(w.m) && LocalRuntime(w.m, w.conns, pc) && KnownConns(w, pc)
    ensures StartMove(w.m, w.closes, pc, e.m, e.closes, e.pc)
    ensures CloseMove(w.m, w.closes, pc, e.m, e.pc)
    ensures RuntimeMove(w.m, w.conns, pc, e.m, Apply(w, 0, e).conns, e.pc)
    ensures HoldMove(w.m.nc, w.conns, Held(pc), e.m.nc, Apply(w, 0, e).conns, Held(e.pc), HeldByReaper(e))
  {
  }

  lemma HoldersKept(w: World, t: Tid, r: Tid, w': World)
    requires HoldersInv(w) && Frame(w, t, r, w')
    requires HoldMove(w.m.nc, w.conns, Held(At(w, t)), w'.m.nc, w'.conns, Held(At(w', t)),
                      if r != t then Held(At(w', r)) else None)
    requires ConnsMove(w.conns, Held(At(w, t)), w'.conns, Held(At(w', t)))
    ensures HoldersInv(w')
  {
  }

  // ---- all of it ----

  lemma StartStepHealth(w: World, pc: PC, o: Outcome, e: Effect)
    requires pc.StartCall? || StartChan(pc).Some?
    requires StartStep(w, pc, o) == Some(e) && HealthInv(w.m)
    ensures HealthInv(e.m)
  {
  }

  lemma CloseStepHealth(w: World, pc: PC, o: Outcome, e: Effect)
    requires pc.CloseCall? || InClose(pc)
    requires CloseStep(w, pc, o) == Some(e) && HealthInv(w.m)
    ensures HealthInv(e.m)
  {
  }

  lemma RebindStepHealth(w: World, pc: PC, o: Outcome, e: Effect)
    requires RebindStep(w, pc, o) == Some(e) && HealthInv(w.m)
    ensures HealthInv(e.m)
  {
  }

  lemma HealthMoves(w: World, pc: PC, o: Outcome, e: Effect)
    requires ThreadStep(w, pc, o) == Some(e) && HealthInv(w.m)
    ensures HealthInv(e.m)
  {
    if pc.StartCall? || StartChan(pc).Some? {
      StartStepHealth(w, pc, o, e);
    } else if pc.Reap? || pc.ReapClose? {
      ReapStepFlags(w, pc, o, e);
    } else if pc.CloseCall? || InClose(pc) {
      CloseStepHealth(w, pc, o, e);
    } else {
      RebindStepHealth(w, pc, o, e);
    }
  }

  lemma StepConnMove(w: World, pc: PC, o: Outcome, e: Effect)
    requires ThreadStep(w, pc, o) == Some(e) && LocalRuntime(w.m, w.conns, pc) && KnownConns(w, pc)
    ensures ConnMove(w.conns, Held(pc), e.conn, Held(e.pc))
  {
    if pc.StartCall? || StartChan(pc).Some? {
      StartStepConnMove(w, pc, o, e);
    } else if pc.CloseCall? || InClose(pc) {
      CloseStepConnMove(w, pc, o, e);
    }
  }

  lemma RebindStepStartMove(w: World, pc: PC, o: Outcome, e: Effect)
    requires !pc.StartCall? && StartChan(pc).None? && RebindStep(w, pc, o) == Some(e)
    ensures StartMove(w.m, w.closes, pc, e.m, e.closes, e.pc)
  {
  }

  lemma StepStartMove(w: World, pc: PC, o: Outcome, e: Effect)
    requires ThreadStep(w, pc, o) == Some(e)
    requires StartChan(pc).Some? ==> StartChan(pc) == w.m.startDone
    ensures StartMove(w.m, w.closes, pc, e.m, e.closes, e.pc)
  {
    if pc.StartCall? || StartChan(pc).Some? {
      StartStepStartMove(w, pc, o, e);
    } else if pc.Reap? || pc.ReapClose? {
      ReapStepFlags(w, pc, o, e);
    } else if pc.CloseCall? || InClose(pc) {
      CloseStepStartMove(w, pc, o, e);
    } else {
      RebindStepStartMove(w, pc, o, e);
    }
  }

  lemma ThreadMoves(w: World, pc: PC, o: Outcome, e: Effect)
    requires ThreadStep(w, pc, o) == Some(e)
    requires StartChan(pc).Some? ==> StartChan(pc) == w.m.startDone
    requires w.m.closing == w.m.closeRequested && (InClose(pc) ==> w.m.closing)
    requires Coherent(w.m) && LocalRuntime(w.m, w.conns, pc) && KnownConns(w, pc)
    ensures StartMove(w.m, w.closes, pc, e.m, e.closes, e.pc)
    ensures CloseMove(w.m, w.closes, pc, e.m, e.pc)
    ensures RuntimeMove(w.m, w.conns, pc, e.m, Apply(w, 0, e).conns, e.pc)
    ensures HoldMove(w.m.nc, w.conns, Held(pc), e.m.nc, Apply(w, 0, e).conns, Held(e.pc), HeldByReaper(e))
    ensures ConnsMove(w.conns, Held(pc), Apply(w, 0, e).conns, Held(e.pc))
  {
    StepStartMove(w, pc, o, e);
    StepConnMove(w, pc, o, e);
    ConnsMoved(w, e, Held(pc), Held(e.pc));
    if pc.StartCall? || StartChan(pc).Some? {
      StartStepCloseMove(w, pc, o, e);
      StartStepRuntimeMove(w, pc, o, e);
      StartStepHoldMove(w, pc, o, e);
    } else if pc.CloseCall? || InClose(pc) {
      CloseStepCloseMove(w, pc, o, e);
      CloseStepRuntimeMove(w, pc, o, e);
      CloseStepHoldMove(w, pc, o, e);
    } else if pc.Reap? || pc.ReapClose? {
      ReapStepMoves(w, pc, o, e);
    } else {
      RebindStepMoves(w, pc, o, e);
    }
  }

  // A step of goroutine t, with what it started.
  lemma RunShape(w: World, t: Tid, o: Outcome, w': World) returns (e: Effect, r: Tid)
    requires Exec(w, Run(t, o)) == Some(w')
    ensures ThreadStep(w, At(w, t), o) == Some(e)
    ensures w'.m == e.m && w'.closes == e.closes && w'.conns == Apply(w, 0, e).conns
    ensures Frame(w, t, r, w') && At(w', t) == e.pc
    ensures HeldByReaper(e) == if r != t then Held(At(w', r)) else None
    ensures t in w.threads && (r != t ==> r !in w.threads)
  {
    e := ThreadStep(w, w.threads[t], o).value;
    r := if e.reaper.Some? then e.reaper.value.0 else t;
  }

  lemma RunKept(w: World, t: Tid, o: Outcome, w': World)
    requires Inv(w) && Exec(w, Run(t, o)) == Some(w')
    ensures Inv(w')
  {
    var e, r := RunShape(w, t, o, w');
    ThreadMoves(w, At(w, t), o, e);
    HealthMoves(w, At(w, t), o, e);
    MovesKept(w, t, r, w');
  }

  // Steps of the library: they change health, make connections age, and start goroutines.
  lemma EnvShape(w: World, a: Action, w': World) returns (t: Tid)
    requires !a.Run? && Exec(w, a) == Some(w')
    ensures w'.m == w.m.(health := w'.m.health) && w'.closes == w.closes
    ensures ConnsAge(w.conns, w'.conns) && forall c: ConnId :: LiveIn(w'.conns, c) ==> LiveIn(w.conns, c)
    ensures Frame(w, t, t, w')
    ensures At(w', t) == At(w, t)
              || (At(w, t).Returned? && (At(w', t).StartCall? || At(w', t).CloseCall? || At(w', t).RebindCall?))
    ensures HealthInv(w.m) ==> HealthInv(w'.m)
  {
    t := if a.Call? || a.Reconnected? then a.t else 0;
  }

  lemma EnvKept(w: World, a: Action, w': World)
    requires Inv(w) && !a.Run? && Exec(w, a) == Some(w')
    ensures Inv(w')
  {
    var t := EnvShape(w, a, w');
    EnvMovesKept(w, t, w');
  }

  lemma EnvMovesKept(w: World, t: Tid, w': World)
    requires Inv(w) && Frame(w, t, t, w')
    requires w'.m == w.m.(health := w'.m.health) && w'.closes == w.closes && HealthInv(w'.m)
    requires ConnsAge(w.conns, w'.conns) && forall c: ConnId :: LiveIn(w'.conns, c) ==> LiveIn(w.conns, c)
    requires At(w', t) == At(w, t)
               || (At(w, t).Returned? && (At(w', t).StartCall? || At(w', t).CloseCall? || At(w', t).RebindCall?))
    ensures Inv(w')
  {
    assert LocalRuntime(w.m, w.conns, At(w, t));
    MovesKept(w, t, t, w');
  }

  lemma MovesKept(w: World, t: Tid, r: Tid, w': World)
    requires Inv(w) && Frame(w, t, r, w')
    requires StartMove(w.m, w.closes, At(w, t), w'.m, w'.closes, At(w', t))
    requires CloseMove(w.m, w.closes, At(w, t), w'.m, At(w', t))
    requires RuntimeMove(w.m, w.conns, At(w, t), w'.m, w'.conns, At(w', t))
    requires HoldMove(w.m.nc, w.conns, Held(At(w, t)), w'.m.nc, w'.conns, Held(At(w', t)),
                      if r != t then Held(At(w', r)) else None)
    requires ConnsMove(w.conns, Held(At(w, t)), w'.conns, Held(At(w', t)))
    requires HealthInv(w'.m)
    ensures Inv(w')
  {
    StartsKept(w, t, r, w');
    ChannelsKept(w, t, r, w');
    ClosesKept(w, t, r, w');
    RuntimeKept(w, t, r, w');
    HoldersKept(w, t, r, w');
  }

  lemma InvKept(w: World, a: Action, w': World)
    requires Inv(w) && Exec(w, a) == Some(w')
    ensures Inv(w')
  {
    if a.Run? {
      RunKept(w, a.t, a.outcome, w');
    } else {
      EnvKept(w, a, w');
    }
  }

  lemma InvInit(w: World)
    requires Init(w)
    ensures Inv(w)
  {
  }
}

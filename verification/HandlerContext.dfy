// The handler context of a client and the flag that lets callbacks run, with any number of goroutines at the end of
// Start (ensureHandlerContext, then the flag on) and in one of the three places that turn callbacks off: a failed
// Start, Close, and the session-closed hook (the flag off, then cancelHandlerContext). agentcore/client.go and
// agentcore/handlers_runtime.go.

module HandlerContext {
  import opened Common

  type Tid = nat
  type CtxId = nat

  datatype PC =
    | Idle
    | Ensure
    | Enable
    | Disable
    | Detach
    | Cancel(c: Option<CtxId>)
    | Returned

  datatype World = World(ctx: Option<CtxId>, next: CtxId, cancelled: set<CtxId>, enabled: bool, threads: map<Tid, PC>)

  datatype Action = CallStart(t: Tid) | CallStop(t: Tid) | Run(t: Tid)

  predicate Init(w: World) {
    w == World(None, 0, {}, false, map[])
  }

  function Exec(w: World, a: Action): Option<World> {
    match a
    case CallStart(t) => if t in w.threads then None else Some(w.(threads := w.threads[t := Ensure]))
    case CallStop(t) => if t in w.threads then None else Some(w.(threads := w.threads[t := Disable]))
    case Run(t) =>
      if t !in w.threads then None else
      var e := Step(w, w.threads[t]);
      if e.None? then None else Some(e.value.(threads := w.threads[t := NextPC(w, w.threads[t])]))
  }

  function Step(w: World, pc: PC): Option<World> {
    match pc
    case Ensure =>
      // A context that is already cancelled is replaced, any other is kept.
      if w.ctx.Some? && w.ctx.value !in w.cancelled then Some(w)
      else Some(w.(ctx := Some(w.next), next := w.next + 1))
    case Enable => Some(w.(enabled := true))
    case Disable => Some(w.(enabled := false))
    case Detach => Some(w.(ctx := None))
    case Cancel(c) => Some(if c.Some? then w.(cancelled := w.cancelled + {c.value}) else w)
    case _ => None
  }

  function NextPC(w: World, pc: PC): PC {
    match pc
    case Ensure => Enable
    case Disable => Detach
    case Detach => Cancel(w.ctx)
    case _ => Returned
  }

  function At(w: World, t: Tid): PC {
    if t in w.threads then w.threads[t] else Idle
  }

  // ---- who answers for a context ----

  predicate Owes(w: World, t: Tid, c: CtxId) {
    At(w, t) == Cancel(Some(c))
  }

  ghost predicate Accounted(w: World, c: CtxId) {
    c in w.cancelled || w.ctx == Some(c) || exists t: Tid :: Owes(w, t, c)
  }

  ghost predicate Inv(w: World) {
    && (forall c | c in w.cancelled :: c < w.next)
    && (w.ctx.Some? ==> w.ctx.value < w.next && w.ctx.value !in w.cancelled)
    && (forall t: Tid, c: CtxId | Owes(w, t, c) :: c < w.next && c !in w.cancelled && w.ctx != Some(c))
    && (forall t: Tid, u: Tid, c: CtxId | Owes(w, t, c) && Owes(w, u, c) :: t == u)
    && (forall c: CtxId | c < w.next :: Accounted(w, c))
  }

  ghost predicate Frame(w: World, t: Tid, w': World) {
    forall u: Tid :: u != t ==> At(w', u) == At(w, u)
  }

  lemma Shape(w: World, a: Action, w': World)
    requires Exec(w, a) == Some(w')
    ensures Frame(w, a.t, w')
    ensures if a.Run?
            then Step(w, At(w, a.t)) == Some(w'.(threads := w.threads)) && At(w', a.t) == NextPC(w, At(w, a.t))
            else
              && w' == w.(threads := w'.threads) && At(w, a.t) == Idle
              && (At(w', a.t) == Ensure || At(w', a.t) == Disable)
  {
  }

  lemma OthersOwe(w: World, a: Action, w': World)
    requires Exec(w, a) == Some(w')
    ensures forall t: Tid, c: CtxId | t != a.t :: Owes(w', t, c) == Owes(w, t, c)
  {
  }

  lemma InvKept(w: World, a: Action, w': World)
    requires Inv(w) && Exec(w, a) == Some(w')
    ensures Inv(w')
  {
    Shape(w, a, w');
    OthersOwe(w, a, w');
    assert forall c: CtxId :: Owes(w, a.t, c) <==> At(w, a.t) == Cancel(Some(c));
    assert forall c: CtxId :: Owes(w', a.t, c) <==> At(w, a.t).Detach? && a.Run? && w.ctx == Some(c);
    forall c: CtxId | c < w'.next ensures Accounted(w', c) {
      if c < w.next {
        StillAccounted(w, a, w', c);
      }
    }
  }

  lemma StillAccounted(w: World, a: Action, w': World, c: CtxId)
    requires Inv(w) && Exec(w, a) == Some(w') && c < w.next
    ensures Accounted(w', c)
  {
    Shape(w, a, w');
    OthersOwe(w, a, w');
    assert Accounted(w, c);
    if t: Tid :| Owes(w, t, c) {
      assert t != a.t ==> Owes(w', t, c);
    } else if w.ctx == Some(c) && w'.ctx != w.ctx {
      assert Owes(w', a.t, c);
    }
  }

  // ---- runs ----

  datatype History = History(ws: seq<World>, acts: seq<Action>)

  ghost predicate IsRun(h: History) {
    && |h.ws| == |h.acts| + 1
    && Init(h.ws[0])
    && forall i | 0 <= i < |h.acts| :: Exec(h.ws[i], h.acts[i]) == Some(h.ws[i + 1])
  }

  lemma {:induction false} Reachable(h: History, i: nat)
    requires IsRun(h) && i < |h.ws|
    ensures Inv(h.ws[i])
  {
    if i > 0 {
      Reachable(h, i - 1);
      InvKept(h.ws[i - 1], h.acts[i - 1], h.ws[i]);
    }
  }

  // Every context ever made is exactly one of three: cancelled, current, or about to be cancelled by exactly one
  // goroutine.
  lemma ContextsAreConserved(h: History, i: nat, c: CtxId)
    requires IsRun(h) && i < |h.ws| && c < h.ws[i].next
    ensures var w := h.ws[i];
            && (c in w.cancelled || w.ctx == Some(c) || exists t: Tid :: Owes(w, t, c))
            && (c in w.cancelled ==> w.ctx != Some(c) && forall t: Tid :: !Owes(w, t, c))
            && (w.ctx == Some(c) ==> forall t: Tid :: !Owes(w, t, c))
            && (forall t: Tid, u: Tid :: Owes(w, t, c) && Owes(w, u, c) ==> t == u)
  {
    Reachable(h, i);
    assert Accounted(h.ws[i], c);
  }

  // So ensureHandlerContext never meets a cancelled context: it keeps whatever is there.
  lemma NothingCancelledToReplace(h: History, i: nat)
    requires IsRun(h) && i < |h.acts| && h.acts[i].Run? && At(h.ws[i], h.acts[i].t).Ensure?
    ensures h.ws[i].ctx.Some? ==> h.ws[i].ctx.value !in h.ws[i].cancelled && h.ws[i + 1].ctx == h.ws[i].ctx
    ensures h.ws[i + 1].ctx.Some? && h.ws[i + 1].ctx.value !in h.ws[i + 1].cancelled
  {
    Reachable(h, i);
    Reachable(h, i + 1);
  }

  // When no goroutine owes a cancel, every context but the current one is cancelled.
  lemma QuietMeansCancelled(h: History, i: nat)
    requires IsRun(h) && i < |h.ws| && forall t: Tid :: !At(h.ws[i], t).Cancel?
    ensures forall c: CtxId | c < h.ws[i].next :: c in h.ws[i].cancelled || h.ws[i].ctx == Some(c)
  {
    Reachable(h, i);
    forall c: CtxId | c < h.ws[i].next ensures c in h.ws[i].cancelled || h.ws[i].ctx == Some(c) {
      assert Accounted(h.ws[i], c);
    }
  }

  // ---- callbacks only run under a live context ----

  predicate Starting(pc: PC) {
    pc.Ensure? || pc.Enable?
  }

  predicate Stopping(pc: PC) {
    pc.Disable? || pc.Detach?
  }

  // The end of a Start and a call that turns callbacks off never run at the same time. Several of one kind may.
  ghost predicate Apart(w: World) {
    forall t: Tid, u: Tid :: !(Starting(At(w, t)) && Stopping(At(w, u)))
  }

  ghost predicate LinkInv(w: World) {
    && (w.enabled ==> w.ctx.Some?)
    && (forall t: Tid :: At(w, t).Enable? ==> w.ctx.Some?)
    && (forall t: Tid :: At(w, t).Detach? ==> !w.enabled)
  }

  lemma LinkKept(w: World, a: Action, w': World)
    requires LinkInv(w) && Apart(w) && Exec(w, a) == Some(w')
    ensures LinkInv(w')
  {
    Shape(w, a, w');
    if a.Run? && At(w, a.t).Enable? {
      assert forall u: Tid :: !Stopping(At(w, u)) && !At(w, u).Detach?;
    } else if a.Run? && At(w, a.t).Detach? {
      assert forall u: Tid :: !Starting(At(w, u)) && !At(w, u).Enable?;
    }
  }

  // Callbacks may only run under a live context.
  predicate Linked(w: World) {
    w.enabled ==> w.ctx.Some? && w.ctx.value !in w.cancelled
  }

  // The two steps that can undo that: the flag goes on when there is no context, or the context is detached while the
  // flag is on.
  predicate Breaks(w: World, a: Action) {
    a.Run? && ((At(w, a.t).Enable? && w.ctx.None?) || (At(w, a.t).Detach? && w.enabled))
  }

  lemma LinkedAfter(w: World, a: Action, w': World)
    requires Inv(w) && Inv(w') && Linked(w) && Exec(w, a) == Some(w')
    ensures Linked(w') <==> !Breaks(w, a)
  {
    Shape(w, a, w');
  }

  // Over all runs, overlaps included: enabled callbacks have a live context throughout iff no step ever turns the flag
  // on without a context, or takes the context away under a flag that is on.
  lemma {:induction false} LinkedIffNeverBroken(h: History, i: nat)
    requires IsRun(h) && i < |h.ws|
    ensures (forall j | 0 <= j <= i :: Linked(h.ws[j])) <==> (forall j | 0 <= j < i :: !Breaks(h.ws[j], h.acts[j]))
  {
    if i > 0 {
      LinkedIffNeverBroken(h, i - 1);
      Reachable(h, i - 1);
      Reachable(h, i);
      if Linked(h.ws[i - 1]) {
        LinkedAfter(h.ws[i - 1], h.acts[i - 1], h.ws[i]);
      }
    }
  }

  // Calls that do not overlap never break it.
  lemma {:induction false} ApartNeverBreaks(h: History, i: nat)
    requires IsRun(h) && i < |h.ws| && forall j | 0 <= j < i :: Apart(h.ws[j])
    ensures LinkInv(h.ws[i])
    ensures forall j | 0 <= j < i :: !Breaks(h.ws[j], h.acts[j])
  {
    if i > 0 {
      ApartNeverBreaks(h, i - 1);
      LinkKept(h.ws[i - 1], h.acts[i - 1], h.ws[i]);
    }
  }

  // So without overlap, enabled callbacks mean a live context.
  lemma CallbacksHaveAContext(h: History, i: nat)
    requires IsRun(h) && i < |h.ws| && forall j | 0 <= j < i :: Apart(h.ws[j])
    ensures h.ws[i].enabled ==> h.ws[i].ctx.Some? && h.ws[i].ctx.value !in h.ws[i].cancelled
  {
    ApartNeverBreaks(h, i);
    LinkedIffNeverBroken(h, i);
    assert Linked(h.ws[i]);
  }

  // If they do, callbacks can end up enabled without one.
  lemma OverlapBreaksTheLink() returns (h: History)
    ensures IsRun(h)
    ensures var w := h.ws[|h.ws| - 1];
            && w.enabled && w.ctx.None? && w.cancelled == {0} && w.next == 1
            && forall t: Tid :: !Starting(At(w, t)) && !Stopping(At(w, t))
  {
    var w0 := World(None, 0, {}, false, map[]);
    var w1 := w0.(threads := w0.threads[0 := Ensure]);
    var w2 := w1.(ctx := Some(0), next := 1, threads := w1.threads[0 := Enable]);
    var w3 := w2.(threads := w2.threads[1 := Disable]);
    var w4 := w3.(threads := w3.threads[1 := Detach]);
    var w5 := w4.(ctx := None, threads := w4.threads[1 := Cancel(Some(0))]);
    var w6 := w5.(cancelled := w5.cancelled + {0}, threads := w5.threads[1 := Returned]);
    var w7 := w6.(enabled := true, threads := w6.threads[0 := Returned]);
    assert Exec(w0, CallStart(0)) == Some(w1) && Exec(w1, Run(0)) == Some(w2) && Exec(w2, CallStop(1)) == Some(w3);
    assert Exec(w3, Run(1)) == Some(w4) && Exec(w4, Run(1)) == Some(w5) && Exec(w5, Run(1)) == Some(w6);
    assert Exec(w6, Run(0)) == Some(w7);
    h := History([w0, w1, w2, w3, w4, w5, w6, w7], [CallStart(0), Run(0), CallStop(1), Run(1), Run(1), Run(1), Run(0)]);
  }

  // ---- what the calls get done ----

  // The flag and the current context, told from the steps taken.
  datatype Told = Told(enabled: bool, ctx: Option<CtxId>, next: CtxId)

  function AfterStep(s: Told, pc: PC): Told {
    match pc
    case Ensure => if s.ctx.Some? then s else s.(ctx := Some(s.next), next := s.next + 1)
    case Enable => s.(enabled := true)
    case Disable => s.(enabled := false)
    case Detach => s.(ctx := None)
    case _ => s
  }

  function Story(h: History, i: nat): Told
    requires i <= |h.acts| < |h.ws|
  {
    if i == 0 then Told(false, None, 0)
    else if h.acts[i - 1].Run? then AfterStep(Story(h, i - 1), At(h.ws[i - 1], h.acts[i - 1].t))
    else Story(h, i - 1)
  }

  lemma ToldNext(w: World, a: Action, w': World)
    requires Inv(w) && Exec(w, a) == Some(w')
    ensures var s := Told(w.enabled, w.ctx, w.next);
            Told(w'.enabled, w'.ctx, w'.next) == if a.Run? then AfterStep(s, At(w, a.t)) else s
  {
    Shape(w, a, w');
  }

  // The flag is what the last section that wrote it made it, and so is the context; a new one is made iff there is
  // none.
  lemma {:induction false} ShowsItsStory(h: History, i: nat)
    requires IsRun(h) && i < |h.ws|
    ensures Told(h.ws[i].enabled, h.ws[i].ctx, h.ws[i].next) == Story(h, i)
  {
    if i > 0 {
      ShowsItsStory(h, i - 1);
      Reachable(h, i - 1);
      ToldNext(h.ws[i - 1], h.acts[i - 1], h.ws[i]);
    }
  }

  ghost predicate StepAt(h: History, j: nat, t: Tid) {
    j < |h.acts| && j < |h.ws| && h.acts[j] == Run(t)
  }

  // Goroutine t has passed the section that turns the flag on.
  ghost predicate TurnedOn(h: History, i: nat, t: Tid) {
    exists j: nat :: j < i && StepAt(h, j, t) && At(h.ws[j], t).Enable?
  }

  // Goroutine t has turned the flag off, and then cancelled the context that it took away.
  ghost predicate TurnedOff(h: History, i: nat, t: Tid) {
    exists j: nat :: j < i && StepAt(h, j, t) && At(h.ws[j], t).Disable?
  }

  ghost predicate TookAway(h: History, i: nat, t: Tid, c: Option<CtxId>) {
    exists j: nat :: j < i && StepAt(h, j, t) && At(h.ws[j], t).Detach? && h.ws[j].ctx == c
  }

  ghost predicate Cancelled(h: History, i: nat, t: Tid)
    requires i < |h.ws|
  {
    exists j: nat, c: Option<CtxId> ::
      j < i && StepAt(h, j, t) && At(h.ws[j], t) == Cancel(c) && (c.Some? ==> c.value in h.ws[i].cancelled)
  }

  // How far a call has got.
  ghost predicate Progress(h: History, i: nat, t: Tid, isStart: bool)
    requires i < |h.ws|
  {
    match At(h.ws[i], t)
    case Idle => false
    case Ensure => isStart
    case Enable => isStart
    case Disable => !isStart
    case Detach => !isStart && TurnedOff(h, i, t)
    case Cancel(c) => !isStart && TurnedOff(h, i, t) && TookAway(h, i, t, c)
    case Returned => if isStart then TurnedOn(h, i, t) else TurnedOff(h, i, t) && Cancelled(h, i, t)
  }

  lemma CancelledGrows(h: History, i: nat)
    requires IsRun(h) && i < |h.acts|
    ensures h.ws[i].cancelled <= h.ws[i + 1].cancelled
  {
    Shape(h.ws[i], h.acts[i], h.ws[i + 1]);
  }

  lemma OnStays(h: History, i: nat, t: Tid)
    requires TurnedOn(h, i, t)
    ensures TurnedOn(h, i + 1, t)
  {
    var j: nat :| j < i && StepAt(h, j, t) && At(h.ws[j], t).Enable?;
    assert j < i + 1;
  }

  lemma OffStays(h: History, i: nat, t: Tid)
    requires TurnedOff(h, i, t)
    ensures TurnedOff(h, i + 1, t)
  {
    var j: nat :| j < i && StepAt(h, j, t) && At(h.ws[j], t).Disable?;
    assert j < i + 1;
  }

  lemma CancelledStays(h: History, i: nat, t: Tid)
    requires IsRun(h) && i < |h.acts| && Cancelled(h, i, t)
    ensures Cancelled(h, i + 1, t)
  {
    CancelledGrows(h, i);
    var j: nat, c: Option<CtxId> :|
      j < i && StepAt(h, j, t) && At(h.ws[j], t) == Cancel(c) && (c.Some? ==> c.value in h.ws[i].cancelled);
    assert j < i + 1 && StepAt(h, j, t) && At(h.ws[j], t) == Cancel(c);
  }

  lemma PastStays(h: History, i: nat, t: Tid)
    requires IsRun(h) && i < |h.acts|
    ensures TurnedOn(h, i, t) ==> TurnedOn(h, i + 1, t)
    ensures TurnedOff(h, i, t) ==> TurnedOff(h, i + 1, t)
    ensures Cancelled(h, i, t) ==> Cancelled(h, i + 1, t)
  {
    if TurnedOn(h, i, t) {
      OnStays(h, i, t);
    }
    if TurnedOff(h, i, t) {
      OffStays(h, i, t);
    }
    if Cancelled(h, i, t) {
      CancelledStays(h, i, t);
    }
  }

  lemma TakenStays(h: History, i: nat, t: Tid, c: Option<CtxId>)
    requires TookAway(h, i, t, c)
    ensures TookAway(h, i + 1, t, c)
  {
    var j: nat :| j < i && StepAt(h, j, t) && At(h.ws[j], t).Detach? && h.ws[j].ctx == c;
    assert j < i + 1;
  }

  lemma OwnStep(h: History, i: nat, t: Tid, isStart: bool)
    requires IsRun(h) && i < |h.acts| && h.acts[i] == Run(t) && Progress(h, i, t, isStart)
    ensures Progress(h, i + 1, t, isStart)
  {
    Shape(h.ws[i], h.acts[i], h.ws[i + 1]);
    PastStays(h, i, t);
    assert i < i + 1 && StepAt(h, i, t);
  }

  lemma OthersStep(h: History, i: nat, t: Tid, isStart: bool)
    requires IsRun(h) && i < |h.acts| && h.acts[i] != Run(t) && Progress(h, i, t, isStart)
    ensures Progress(h, i + 1, t, isStart)
  {
    Shape(h.ws[i], h.acts[i], h.ws[i + 1]);
    PastStays(h, i, t);
    assert At(h.ws[i + 1], t) == At(h.ws[i], t);
    if At(h.ws[i], t).Cancel? {
      TakenStays(h, i, t, At(h.ws[i], t).c);
    }
  }

  // The call of a Start has turned callbacks on by the time it returns. A call that turns them off has done so, and has
  // cancelled the context that it took away, which was the current one.
  lemma {:induction false} CallsDoTheirPart(h: History, e: nat, i: nat, t: Tid)
    requires IsRun(h) && e < i < |h.ws| && (h.acts[e] == CallStart(t) || h.acts[e] == CallStop(t))
    ensures Progress(h, i, t, h.acts[e].CallStart?)
    decreases i
  {
    var isStart := h.acts[e].CallStart?;
    if e + 1 == i {
      CallBegins(h.ws[e], h.acts[e], h.ws[i]);
    } else {
      CallsDoTheirPart(h, e, i - 1, t);
      if h.acts[i - 1] == Run(t) {
        OwnStep(h, i - 1, t, isStart);
      } else {
        OthersStep(h, i - 1, t, isStart);
      }
    }
  }

  lemma CallBegins(w: World, a: Action, w': World)
    requires Exec(w, a) == Some(w') && !a.Run?
    ensures At(w', a.t) == if a.CallStart? then Ensure else Disable
  {
  }

  function Left(pc: PC): nat {
    match pc
    case Ensure => 2
    case Enable => 1
    case Disable => 3
    case Detach => 2
    case Cancel(_) => 1
    case _ => 0
  }

  // A call that has not returned can always take its next step, and each one lowers what it has left.
  lemma StepsRunOut(w: World, t: Tid)
    requires t in w.threads && !w.threads[t].Idle? && !w.threads[t].Returned?
    ensures Exec(w, Run(t)).Some? && Left(At(Exec(w, Run(t)).value, t)) < Left(At(w, t))
  {
  }
}

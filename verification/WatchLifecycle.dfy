// One watch from WatchDesiredConfig to its stop (internal/kv/watch.go): the goroutine that consumes updates, the caller
// that waits until it is ready, any number of calls of the stop function, and a parent context that may end at any
// time.

module WatchLifecycle {
  import opened Common

  type Tid = nat

  datatype Consumer = Select | InHandler | MarkReady | CloseDone | Gone

  datatype Opener =
    | Waiting
    | CancelAfter(err: Code)
    | StopAfter(err: Code)
    | AwaitAfter(err: Code)
    | Failed(err: Code)
    | Opened

  datatype Stopper = Begin | Cancel | StopWatcher | Await | Leave | Returned

  datatype Once = Free | Running(t: Tid) | Finished

  // `handled` counts the calls of the handler that have begun.
  datatype World = World(
    cancelled: bool, watcherStopped: bool, updatesClosed: bool, ready: bool, done: bool, handled: nat,
    consumer: Consumer, opener: Opener, once: Once, stoppers: map<Tid, Stopper>)

  // What the select of the consumer takes; what the select of the opener takes.
  datatype Turn = Ended | NilEntry | Skipped | ToHandler

  datatype Wake = IsReady | IsDone | TimedOut

  datatype Action =
    | ParentEnds
    | UpdatesEnd
    | Consume(turn: Turn)
    | Open(wake: Wake)
    | CallStop(t: Tid)
    | RunStop(t: Tid)

  predicate Init(w: World) {
    w == World(false, false, false, false, false, 0, Select, Waiting, Free, map[])
  }

  function Exec(w: World, a: Action): Option<World> {
    match a
    case ParentEnds => Some(w.(cancelled := true))
    case UpdatesEnd => Some(w.(updatesClosed := true))
    case Consume(turn) => ConsumerStep(w, turn)
    case Open(wake) => OpenerStep(w, wake)
    case CallStop(t) =>
      if !w.opener.Opened? || t in w.stoppers then None else Some(w.(stoppers := w.stoppers[t := Begin]))
    case RunStop(t) => if t !in w.stoppers then None else StopStep(w, t, w.stoppers[t])
  }

  // Ended is the turn that sees the cancelled context or the closed update channel; either may be seen late.
  function ConsumerStep(w: World, turn: Turn): Option<World> {
    match w.consumer
    case Select =>
      (match turn
       case Ended => if w.cancelled || w.updatesClosed then Some(w.(consumer := MarkReady)) else None
       case NilEntry => if w.updatesClosed then None else Some(w.(ready := true))
       case Skipped => if w.updatesClosed then None else Some(w)
       case ToHandler => if w.updatesClosed then None else Some(w.(consumer := InHandler, handled := w.handled + 1)))
    case InHandler => Some(w.(consumer := Select))
    case MarkReady => Some(w.(consumer := CloseDone, ready := true))
    case CloseDone => Some(w.(consumer := Gone, done := true))
    case Gone => None
  }

  // waitForWatchReady, and the clean-up if it fails.
  function OpenerStep(w: World, wake: Wake): Option<World> {
    match w.opener
    case Waiting =>
      (match wake
       case IsReady => if w.ready then Some(w.(opener := Opened)) else None
       case IsDone => if w.done then Some(w.(opener := CancelAfter(KVReadFailed))) else None
       case TimedOut => Some(w.(opener := CancelAfter(KVReadFailed))))
    case CancelAfter(err) => Some(w.(cancelled := true, opener := StopAfter(err)))
    case StopAfter(err) => Some(w.(watcherStopped := true, opener := AwaitAfter(err)))
    case AwaitAfter(err) => if w.done then Some(w.(opener := Failed(err))) else None
    case _ => None
  }

  function StopStep(w: World, t: Tid, s: Stopper): Option<World> {
    match s
    case Begin =>
      (match w.once
       case Free => Some(w.(once := Running(t), stoppers := w.stoppers[t := Cancel]))
       case Running(_) => None
       case Finished => Some(w.(stoppers := w.stoppers[t := Returned])))
    case Cancel => Some(w.(cancelled := true, stoppers := w.stoppers[t := StopWatcher]))
    case StopWatcher => Some(w.(watcherStopped := true, stoppers := w.stoppers[t := Await]))
    case Await => if w.done then Some(w.(stoppers := w.stoppers[t := Leave])) else None
    case Leave => Some(w.(once := Finished, stoppers := w.stoppers[t := Returned]))
    case Returned => None
  }

  // ---- what every step keeps ----

  predicate At(w: World, t: Tid, s: Stopper) {
    t in w.stoppers && w.stoppers[t] == s
  }

  predicate Quiet(w: World) {
    w.cancelled && w.watcherStopped && w.ready && w.done && w.consumer.Gone?
  }

  ghost predicate Inv(w: World) {
    && (w.done <==> w.consumer.Gone?)
    && (w.consumer.CloseDone? || w.consumer.Gone? ==> w.ready)
    && (w.opener.Opened? ==> w.ready)
    && (w.opener.StopAfter? || w.opener.AwaitAfter? ==> w.cancelled)
    && (w.opener.AwaitAfter? ==> w.watcherStopped)
    && (w.opener.Failed? ==> Quiet(w))
    && (w.once.Finished? ==> Quiet(w))
    && (forall t: Tid :: StopperInv(w, t))
  }

  predicate StopperInv(w: World, t: Tid) {
    t in w.stoppers ==>
      match w.stoppers[t]
      case Begin => true
      case Cancel => w.once == Running(t)
      case StopWatcher => w.once == Running(t) && w.cancelled
      case Await => w.once == Running(t) && w.cancelled && w.watcherStopped
      case Leave => w.once == Running(t) && Quiet(w)
      case Returned => w.once.Finished?
  }

  // What only ever goes from false to true.
  predicate Ages(w: World, w': World) {
    && (w.cancelled ==> w'.cancelled) && (w.watcherStopped ==> w'.watcherStopped)
    && (w.ready ==> w'.ready) && (w.done ==> w'.done)
  }

  lemma StepAges(w: World, a: Action, w': World)
    requires Inv(w) && Exec(w, a) == Some(w')
    ensures Ages(w, w') && (Quiet(w) ==> Quiet(w') && w'.handled == w.handled)
    ensures w'.done <==> w'.consumer.Gone?
  {
  }

  lemma StoppersKept(w: World, a: Action, w': World, t: Tid)
    requires Inv(w) && Exec(w, a) == Some(w')
    ensures StopperInv(w', t)
  {
    assert StopperInv(w, t);
    StepAges(w, a, w');
    if a.RunStop? {
      assert StopStep(w, a.t, w.stoppers[a.t]) == Some(w') && StopperInv(w, a.t);
    } else if a.Consume? {
      assert w'.stoppers == w.stoppers && w'.once == w.once;
    } else if a.Open? {
      assert w'.stoppers == w.stoppers && w'.once == w.once;
    }
  }

  lemma InvKept(w: World, a: Action, w': World)
    requires Inv(w) && Exec(w, a) == Some(w')
    ensures Inv(w')
  {
    StepAges(w, a, w');
    forall t: Tid ensures StopperInv(w', t) {
      StoppersKept(w, a, w', t);
    }
    match a
    case RunStop(t) => assert StopperInv(w, t) && StopStep(w, t, w.stoppers[t]) == Some(w');
    case Consume(turn) => assert ConsumerStep(w, turn) == Some(w');
    case Open(wake) => assert OpenerStep(w, wake) == Some(w');
    case _ =>
  }

  // ---- runs ----

  datatype History = History(ws: seq<World>, acts: seq<Action>)

  ghost predicate IsRun(h: History) {
    && |h.ws| == |h.acts| + 1
    && Init(h.ws[0])
    && forall i | 0 <= i < |h.acts| :: Exec(h.ws[i], h.acts[i]) == Some(h.ws[i + 1])
  }

  lemma {:induction false} Reachable(h: History, i: nat)
    requires IsRun(h) && i < |h.ws|
    ensures Inv(h.ws[i])
  {
    if i > 0 {
      Reachable(h, i - 1);
      InvKept(h.ws[i - 1], h.acts[i - 1], h.ws[i]);
    }
  }

  // A call of the stop function has returned, or WatchDesiredConfig has returned an error.
  ghost predicate Over(w: World) {
    w.opener.Failed? || exists t: Tid :: At(w, t, Returned)
  }

  // From then on the context is cancelled, the watcher stopped and the consumer gone: the handler is not running and
  // is never called again.
  lemma {:induction false} SilentAfterStop(h: History, i: nat, j: nat)
    requires IsRun(h) && i <= j < |h.ws| && Over(h.ws[i])
    ensures Quiet(h.ws[j]) && h.ws[j].handled == h.ws[i].handled
    decreases j
  {
    Reachable(h, i);
    if i < j {
      SilentAfterStop(h, i, j - 1);
      Reachable(h, j - 1);
      StepAges(h.ws[j - 1], h.acts[j - 1], h.ws[j]);
    } else if t: Tid :| At(h.ws[i], t, Returned) {
      assert StopperInv(h.ws[i], t);
    }
  }

  // A watch is handed to its caller only when ready is closed, and a stop function can only be called after that.
  lemma OpenedWhenReady(h: History, i: nat)
    requires IsRun(h) && i < |h.ws| && h.ws[i].opener.Opened?
    ensures h.ws[i].ready
  {
    Reachable(h, i);
  }

  function Follows(w: World, path: seq<Action>): Option<World>
    decreases |path|
  {
    if path == [] then Some(w)
    else if Exec(w, path[0]).None? then None
    else Follows(Exec(w, path[0]).value, path[1..])
  }

  ghost predicate DoneWithin(w: World, n: nat) {
    exists path: seq<Action> :: |path| <= n && Follows(w, path).Some? && Follows(w, path).value.done
  }

  function StepsLeft(c: Consumer): nat {
    match c
    case InHandler => 4
    case Select => 3
    case MarkReady => 2
    case CloseDone => 1
    case Gone => 0
  }

  lemma {:induction false} ConsumerEnds(w: World)
    requires (w.done <==> w.consumer.Gone?) && (w.cancelled || w.updatesClosed)
    ensures DoneWithin(w, StepsLeft(w.consumer))
    decreases StepsLeft(w.consumer)
  {
    if w.done {
      assert Follows(w, []) == Some(w);
    } else {
      var w' := Exec(w, Consume(Ended)).value;
      ConsumerEnds(w');
      var rest: seq<Action> :| |rest| <= StepsLeft(w'.consumer) && Follows(w', rest).Some?
                                  && Follows(w', rest).value.done;
      var path := [Consume(Ended)] + rest;
      assert path[0] == Consume(Ended) && path[1..] == rest;
      assert Follows(w, path) == Follows(w', rest);
    }
  }

  // Somebody is in the middle of stopping the watch, or of cleaning up after a failed open, and waits for done.
  ghost predicate AwaitsDone(w: World) {
    w.opener.AwaitAfter? || exists t: Tid :: At(w, t, Await)
  }

  // Waiting for done never waits for nothing: whoever waits has cancelled the context before, so the consumer is at
  // most four steps from closing done, one of them the return of a handler that is running.
  lemma DoneComes(h: History, i: nat)
    requires IsRun(h) && i < |h.ws| && AwaitsDone(h.ws[i])
    ensures h.ws[i].cancelled && DoneWithin(h.ws[i], StepsLeft(h.ws[i].consumer)) && StepsLeft(h.ws[i].consumer) <= 4
  {
    Reachable(h, i);
    if t: Tid :| At(h.ws[i], t, Await) {
      assert StopperInv(h.ws[i], t);
    }
    ConsumerEnds(h.ws[i]);
  }

  // And done only comes for a reason: the loop does not end while the context lives and the channel is open.
  lemma {:induction false} EndsForAReason(h: History, i: nat)
    requires IsRun(h) && i < |h.ws|
    ensures h.ws[i].consumer.MarkReady? || h.ws[i].consumer.CloseDone? || h.ws[i].consumer.Gone? ==>
              h.ws[i].cancelled || h.ws[i].updatesClosed
  {
    if i > 0 {
      EndsForAReason(h, i - 1);
      Reachable(h, i - 1);
      StepAges(h.ws[i - 1], h.acts[i - 1], h.ws[i]);
    }
  }

  // ---- what opening a watch answers ----

  predicate Failing(o: Opener) {
    o.CancelAfter? || o.StopAfter? || o.AwaitAfter? || o.Failed?
  }

  ghost predicate WokenAt(h: History, j: nat, wake: Wake) {
    j < |h.acts| && j < |h.ws| && h.acts[j] == Open(wake) && h.ws[j].opener.Waiting?
  }

  ghost predicate Woken(h: History, i: nat, wake: Wake) {
    exists j: nat :: j < i && WokenAt(h, j, wake)
  }

  lemma WokenNext(h: History, i: nat, wake: Wake)
    ensures Woken(h, i + 1, wake) <==> Woken(h, i, wake) || WokenAt(h, i, wake)
  {
    if j: nat :| j < i + 1 && WokenAt(h, j, wake) {
      assert j < i || j == i;
    }
    if WokenAt(h, i, wake) {
      assert i < i + 1;
    }
    if j: nat :| j < i && WokenAt(h, j, wake) {
      assert j < i + 1;
    }
  }

  lemma OthersLeaveOpener(w: World, a: Action, w': World)
    requires Exec(w, a) == Some(w') && !a.Open?
    ensures w'.opener == w.opener
  {
  }

  lemma OpenerNext(w: World, wake: Wake, w': World)
    requires Exec(w, Open(wake)) == Some(w')
    ensures w'.opener.Opened? <==> w.opener.Opened? || (wake.IsReady? && w.opener.Waiting?)
    ensures Failing(w'.opener) <==> Failing(w.opener) || (!wake.IsReady? && w.opener.Waiting?)
    ensures Failing(w'.opener) ==> w'.opener.err == if Failing(w.opener) then w.opener.err else KVReadFailed
    ensures OpenerLeft(w'.opener) < OpenerLeft(w.opener)
  {
    assert OpenerStep(w, wake) == Some(w');
  }

  // The caller gets its watch iff, while it waited, it saw that ready was closed. It gets a read error iff it saw that
  // done was closed, or its wait ran out.
  lemma {:induction false} OpenAnswers(h: History, i: nat)
    requires IsRun(h) && i < |h.ws|
    ensures h.ws[i].opener.Opened? <==> Woken(h, i, IsReady)
    ensures Failing(h.ws[i].opener) <==> Woken(h, i, IsDone) || Woken(h, i, TimedOut)
    ensures Failing(h.ws[i].opener) ==> h.ws[i].opener.err == KVReadFailed
  {
    if i > 0 {
      OpenAnswers(h, i - 1);
      if h.acts[i - 1].Open? {
        OpenerNext(h.ws[i - 1], h.acts[i - 1].wake, h.ws[i]);
      } else {
        OthersLeaveOpener(h.ws[i - 1], h.acts[i - 1], h.ws[i]);
      }
      WokenNext(h, i - 1, IsReady);
      WokenNext(h, i - 1, IsDone);
      WokenNext(h, i - 1, TimedOut);
    }
  }

  // While the caller waits, each of the three wakes it as soon as it can be seen; running out of time always can.
  lemma WaitingCanEnd(w: World)
    requires w.opener.Waiting?
    ensures Exec(w, Open(TimedOut)).Some?
    ensures Exec(w, Open(IsReady)).Some? <==> w.ready
    ensures Exec(w, Open(IsDone)).Some? <==> w.done
  {
  }

  function OpenerLeft(o: Opener): nat {
    match o
    case Waiting => 4
    case CancelAfter(_) => 3
    case StopAfter(_) => 2
    case AwaitAfter(_) => 1
    case Failed(_) => 0
    case Opened => 0
  }

  function StopperLeft(s: Stopper): nat {
    match s
    case Begin => 5
    case Cancel => 4
    case StopWatcher => 3
    case Await => 2
    case Leave => 1
    case Returned => 0
  }

  // Opening and stopping come to an end: every step of theirs lowers what is left, and whoever is not through can take
  // one, but for waiting for done or for another call of the same stop.
  lemma StepsRunOut(w: World, a: Action, w': World)
    requires Exec(w, a) == Some(w')
    ensures a.Open? ==> OpenerLeft(w'.opener) < OpenerLeft(w.opener)
    ensures a.RunStop? ==>
              a.t in w.stoppers && a.t in w'.stoppers && StopperLeft(w'.stoppers[a.t]) < StopperLeft(w.stoppers[a.t])
  {
    if a.Open? {
      OpenerNext(w, a.wake, w');
    } else if a.RunStop? {
      assert StopStep(w, a.t, w.stoppers[a.t]) == Some(w');
    }
  }

  lemma OpenerCanStep(w: World, wake: Wake)
    requires Failing(w.opener) && !w.opener.Failed? && (w.opener.AwaitAfter? ==> w.done)
    ensures Exec(w, Open(wake)).Some?
  {
  }

  lemma StopperCanStep(w: World, t: Tid)
    requires t in w.stoppers && !w.stoppers[t].Returned?
    requires w.stoppers[t].Await? ==> w.done
    requires w.stoppers[t].Begin? ==> !w.once.Running?
    ensures Exec(w, RunStop(t)).Some?
  {
  }

  // ---- what the consumer tells ----

  // The handler is called once for each turn that the select takes for it.
  function HandlerTurns(h: History, i: nat): nat
    requires i <= |h.acts| < |h.ws|
  {
    if i == 0 then 0
    else HandlerTurns(h, i - 1) + if h.acts[i - 1] == Consume(ToHandler) && h.ws[i - 1].consumer.Select? then 1 else 0
  }

  ghost predicate Signals(h: History, j: nat) {
    && j < |h.acts| && j < |h.ws| && h.acts[j].Consume?
    && (h.ws[j].consumer.MarkReady? || (h.ws[j].consumer.Select? && h.acts[j].turn.NilEntry?))
  }

  ghost predicate Signalled(h: History, i: nat) {
    exists j: nat :: j < i && Signals(h, j)
  }

  lemma SignalledNext(h: History, i: nat)
    ensures Signalled(h, i + 1) <==> Signalled(h, i) || Signals(h, i)
  {
    if j: nat :| j < i + 1 && Signals(h, j) {
      assert j < i || j == i;
    }
    if Signals(h, i) {
      assert i < i + 1;
    }
    if j: nat :| j < i && Signals(h, j) {
      assert j < i + 1;
    }
  }

  lemma OthersLeaveSignals(w: World, a: Action, w': World)
    requires Exec(w, a) == Some(w') && !a.Consume?
    ensures w'.handled == w.handled && w'.ready == w.ready
  {
  }

  lemma ConsumerNext(w: World, a: Action, w': World)
    requires Exec(w, a) == Some(w')
    ensures w'.handled == w.handled + if a == Consume(ToHandler) && w.consumer.Select? then 1 else 0
    ensures w'.ready <==>
              w.ready || (a.Consume? && (w.consumer.MarkReady? || (w.consumer.Select? && a.turn.NilEntry?)))
  {
    if a.Consume? {
      assert ConsumerStep(w, a.turn) == Some(w');
    } else {
      OthersLeaveSignals(w, a, w');
    }
  }

  lemma {:induction false} ReadyIffSignalled(h: History, i: nat)
    requires IsRun(h) && i < |h.ws|
    ensures h.ws[i].ready <==> Signalled(h, i)
  {
    if i > 0 {
      ReadyIffSignalled(h, i - 1);
      ConsumerNext(h.ws[i - 1], h.acts[i - 1], h.ws[i]);
      SignalledNext(h, i - 1);
    }
  }

  lemma {:induction false} HandledIsCount(h: History, i: nat)
    requires IsRun(h) && i < |h.ws|
    ensures h.ws[i].handled == HandlerTurns(h, i)
  {
    if i > 0 {
      HandledIsCount(h, i - 1);
      ConsumerNext(h.ws[i - 1], h.acts[i - 1], h.ws[i]);
    }
  }

  // ready is closed iff a nil entry was seen or the loop has ended and marked it, and the handler has been called as
  // often as the select chose it.
  lemma ConsumerTells(h: History, i: nat)
    requires IsRun(h) && i < |h.ws|
    ensures h.ws[i].ready <==> Signalled(h, i)
    ensures h.ws[i].handled == HandlerTurns(h, i)
  {
    ReadyIffSignalled(h, i);
    HandledIsCount(h, i);
  }

  // A watch whose initial values arrive in time is handed out.
  lemma OpenRun() returns (h: History)
    ensures IsRun(h) && |h.acts| == 3 && h.ws[3].opener.Opened? && h.ws[3].handled == 1
  {
    var w0 := World(false, false, false, false, false, 0, Select, Waiting, Free, map[]);
    var w1 := w0.(ready := true);
    var w2 := w1.(opener := Opened);
    var w3 := w2.(consumer := InHandler, handled := 1);
    h := History([w0, w1, w2, w3], [Consume(NilEntry), Open(IsReady), Consume(ToHandler)]);
  }
}

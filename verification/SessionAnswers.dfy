// What the calls of the session answer and what the manager then shows, read off the actions of a run: which outcome
// of which stage decides the answer of a Start, a Close or a rebind, and how each stage changes handles and health.

module SessionAnswers {
  import opened Common
  import opened SessionState
  import opened SessionProtocol
  import opened SessionInvariant
  import opened SessionTheorems

  // ---- what decides an answer ----

  // What this outcome of the next step of goroutine t decides about the answer of its call.
  function Decision(w: World, t: Tid, o: Outcome): Option<Verdict> {
    match At(w, t)
    case StartCall =>
      if o.Bad? then Some(Failure(ConnectionFailed))
      else if w.m.starting then Some(Failure(Validation))
      else if w.m.closing then Some(Failure(Shutdown))
      else if w.retryOnFailedConnect then Some(Failure(Validation))
      else if w.m.nc.Some? && !IsGone(w, w.m.nc.value) then Some(Success)
      else None
    case StartConnect(_) => if o.Good? then None else Some(Failure(ConnectionFailed))
    case StartDial(_, _) => if o.Good? then None else Some(Failure(ConnectionFailed))
    case StartCheck(_, _) => if o.Good? then None else Some(Failure(ConnectionFailed))
    case StartJetStream(_, _) => if o.Good? then None else Some(Failure(JetStreamFailed))
    case StartBindKV(_, _, _) => if o.Good? then None else Some(Failure(JetStreamFailed))
    case StartCommit(_, _, _, _) => Some(if w.m.closing then Failure(Shutdown) else Success)
    case CloseCall => if w.m.closing || (w.m.startDone.None? && w.m.nc.None?) then Some(Success) else None
    case CloseWait(_) => if o.Good? then None else Some(Failure(Shutdown))
    case CloseDrain(_) => Some(if o.Good? then Success else Failure(Shutdown))
    case RebindCall(_) => if o.Good? then None else Some(Failure(JetStreamFailed))
    case RebindBind(_, _) => if o.Good? then None else Some(Failure(JetStreamFailed))
    case RebindCommit(c, _, _) => Some(if w.m.nc == Some(c) && !w.m.closing then Success else Superseded)
    case Reap(dial) => if dial.DialFailed? then Some(Success) else None
    case ReapClose(_) => Some(Success)
    case _ => None
  }

  // The answer that a goroutine is bound to give from here on.
  function Bound(pc: PC): Option<Verdict> {
    match pc
    case StartDial(_, dial) => if dial.DialFailed? then Some(Failure(ConnectionFailed)) else None
    case StartDiscard(_, _, _, code) => Some(Failure(code))
    case StartFailed(_, _, code) => Some(Failure(code))
    case StartAbort(_, _) => Some(Failure(Shutdown))
    case StartDeferred(_, v) => Some(v)
    case CloseCancelled(_) => Some(Failure(Shutdown))
    case CloseForce(_, _) => Some(Failure(Shutdown))
    case CloseFinish(_, e) => Some(if e.None? then Success else Failure(Shutdown))
    case RebindFailed(_) => Some(Failure(JetStreamFailed))
    case RebindTell(_) => Some(Success)
    case Returned(v) => Some(v)
    case _ => None
  }

  // What a step decides stands, and an answer that is bound is not decided otherwise.
  predicate Binds(pc: PC, d: Option<Verdict>, pc': PC) {
    Bound(pc') == (if d.Some? then d else Bound(pc)) && (Bound(pc).Some? && d.Some? ==> d == Bound(pc))
  }

  lemma DialBinds(w: World, t: Tid, o: Outcome, e: Effect)
    requires Dials(At(w, t)) && DialStep(w, At(w, t), o) == Some(e)
    ensures Binds(At(w, t), Decision(w, t, o), e.pc)
  {
  }

  lemma SetupBinds(w: World, t: Tid, o: Outcome, e: Effect)
    requires StartChan(At(w, t)).Some? && !Dials(At(w, t)) && SetupStep(w, At(w, t), o) == Some(e)
    requires w.m.closing == w.m.closeRequested
    ensures Binds(At(w, t), Decision(w, t, o), e.pc)
  {
  }

  lemma CloseBinds(w: World, t: Tid, o: Outcome, e: Effect)
    requires (At(w, t).CloseCall? || InClose(At(w, t))) && CloseStep(w, At(w, t), o) == Some(e)
    ensures Binds(At(w, t), Decision(w, t, o), e.pc)
  {
  }

  lemma OtherBinds(w: World, t: Tid, o: Outcome, e: Effect)
    requires !At(w, t).StartCall? && StartChan(At(w, t)).None? && !At(w, t).CloseCall? && !InClose(At(w, t))
    requires ThreadStep(w, At(w, t), o) == Some(e)
    ensures Binds(At(w, t), Decision(w, t, o), e.pc)
  {
  }

  lemma StepBinds(w: World, t: Tid, o: Outcome, e: Effect)
    requires ThreadStep(w, At(w, t), o) == Some(e) && w.m.closing == w.m.closeRequested
    ensures Binds(At(w, t), Decision(w, t, o), e.pc)
  {
    if Dials(At(w, t)) {
      DialBinds(w, t, o, e);
    } else if StartChan(At(w, t)).Some? {
      SetupBinds(w, t, o, e);
    } else if At(w, t).CloseCall? || InClose(At(w, t)) {
      CloseBinds(w, t, o, e);
    } else {
      OtherBinds(w, t, o, e);
    }
  }

  function BoundAt(w: World, t: Tid): Option<Verdict> {
    if t in w.threads then Bound(w.threads[t]) else None
  }

  ghost predicate Decides(h: History, j: nat, t: Tid, v: Verdict) {
    && j < |h.acts| && j < |h.ws| && h.acts[j].Run? && h.acts[j].t == t
    && Decision(h.ws[j], t, h.acts[j].outcome) == Some(v)
  }

  lemma OthersStayBound(w: World, a: Action, w': World, t: Tid)
    requires Exec(w, a) == Some(w') && !(a.Run? && a.t == t)
    ensures BoundAt(w', t) == BoundAt(w, t) && (t in w.threads ==> t in w'.threads)
  {
  }

  lemma BoundNext(h: History, j: nat, t: Tid, v: Verdict)
    requires IsRun(h) && j < |h.acts|
    ensures BoundAt(h.ws[j + 1], t) == Some(v) <==> BoundAt(h.ws[j], t) == Some(v) || Decides(h, j, t, v)
  {
    Reachable(h, j);
    var (w, a, w') := (h.ws[j], h.acts[j], h.ws[j + 1]);
    if a.Run? && a.t == t {
      var e, r := RunShape(w, t, a.outcome, w');
      StepBinds(w, t, a.outcome, e);
    } else {
      OthersStayBound(w, a, w', t);
    }
  }

  ghost predicate DecidedBefore(h: History, i: nat, t: Tid, v: Verdict) {
    exists j: nat :: j < i && Decides(h, j, t, v)
  }

  lemma DecidedNext(h: History, i: nat, t: Tid, v: Verdict)
    ensures DecidedBefore(h, i + 1, t, v) <==> DecidedBefore(h, i, t, v) || Decides(h, i, t, v)
  {
    if j: nat :| j < i + 1 && Decides(h, j, t, v) {
      assert j < i || j == i;
    }
    if Decides(h, i, t, v) {
      assert i < i + 1;
    }
    if j: nat :| j < i && Decides(h, j, t, v) {
      assert j < i + 1;
    }
  }

  // A goroutine is bound to an answer iff one of its steps has decided it.
  lemma {:induction false} BoundIffDecided(h: History, i: nat, t: Tid, v: Verdict)
    requires IsRun(h) && i < |h.ws|
    ensures BoundAt(h.ws[i], t) == Some(v) <==> DecidedBefore(h, i, t, v)
  {
    if i > 0 {
      BoundIffDecided(h, i - 1, t, v);
      BoundNext(h, i - 1, t, v);
      DecidedNext(h, i - 1, t, v);
    }
  }

  // Every call that has returned gave the answer that one of its steps decided, and none decided another.
  lemma AnswerIffDecided(h: History, i: nat, t: Tid, v: Verdict)
    requires IsRun(h) && i < |h.ws| && t in h.ws[i].threads && h.ws[i].threads[t].Returned?
    ensures h.ws[i].threads[t].verdict == v <==> DecidedBefore(h, i, t, v)
  {
    BoundIffDecided(h, i, t, v);
  }

  // ---- Start ----

  predicate InStart(w: World, t: Tid) {
    t in w.threads && (StartChan(w.threads[t]).Some? || w.threads[t].Returned?)
  }

  lemma StartGoesOn(w: World, t: Tid, o: Outcome, e: Effect)
    requires ThreadStep(w, At(w, t), o) == Some(e) && (StartChan(At(w, t)).Some? || At(w, t).Returned?)
    ensures StartChan(e.pc).Some? || e.pc.Returned?
  {
  }

  lemma InStartNext(h: History, j: nat, t: Tid)
    requires IsRun(h) && j < |h.acts| && InStart(h.ws[j], t)
    ensures InStart(h.ws[j + 1], t)
  {
    var (w, a, w') := (h.ws[j], h.acts[j], h.ws[j + 1]);
    if a.Run? && a.t == t {
      var e, r := RunShape(w, t, a.outcome, w');
      StartGoesOn(w, t, a.outcome, e);
    } else {
      OthersStay(w, a, w', t);
    }
  }

  lemma OthersStay(w: World, a: Action, w': World, t: Tid)
    requires Exec(w, a) == Some(w') && !(a.Run? && a.t == t) && t in w.threads
    ensures t in w'.threads && w'.threads[t] == w.threads[t]
  {
    if a.Run? {
      OthersStayInRun(w, a.t, a.outcome, w', t);
    }
  }

  lemma OthersStayInRun(w: World, s: Tid, o: Outcome, w': World, t: Tid)
    requires Exec(w, Run(s, o)) == Some(w') && s != t && t in w.threads
    ensures t in w'.threads && w'.threads[t] == w.threads[t]
  {
    var e, r := RunShape(w, s, o, w');
  }

  lemma {:induction false} StaysInStart(h: History, e: nat, j: nat, t: Tid)
    requires IsRun(h) && e < j < |h.ws| && Enters(h.ws[e], t, h.ws[e + 1])
    ensures InStart(h.ws[j], t)
    decreases j
  {
    if e + 1 < j {
      StaysInStart(h, e, j - 1, t);
      InStartNext(h, j - 1, t);
    }
  }

  // This outcome of the next step of t is the failure of a stage of Start, with the code of that stage.
  predicate StageFails(w: World, t: Tid, o: Outcome, code: Code) {
    match At(w, t)
    case StartConnect(_) => !o.Good? && code == ConnectionFailed
    case StartDial(_, _) => !o.Good? && code == ConnectionFailed
    case StartCheck(_, _) => !o.Good? && code == ConnectionFailed
    case StartJetStream(_, _) => !o.Good? && code == JetStreamFailed
    case StartBindKV(_, _, _) => !o.Good? && code == JetStreamFailed
    case StartCommit(_, _, _, _) => w.m.closing && code == Shutdown
    case _ => false
  }

  ghost predicate Fails(h: History, j: nat, t: Tid, code: Code) {
    j < |h.acts| && j < |h.ws| && h.acts[j].Run? && h.acts[j].t == t && StageFails(h.ws[j], t, h.acts[j].outcome, code)
  }

  ghost predicate CommitsAt(h: History, j: nat, t: Tid) {
    j < |h.acts| && j + 1 < |h.ws| && Commits(h.ws[j], t, h.ws[j + 1])
  }

  lemma StoredByCommit(w: World, t: Tid, o: Outcome, e: Effect)
    requires At(w, t).StartCommit? && ThreadStep(w, At(w, t), o) == Some(e) && w.m.closing == w.m.closeRequested
    ensures e.m.nc == if w.m.closing then w.m.nc else Some(At(w, t).conn)
  {
  }

  // The section that ends the setup stores the connection iff there is no Close under way.
  lemma CommitsIff(h: History, j: nat, t: Tid)
    requires IsRun(h) && j < |h.acts| && h.acts[j].Run? && h.acts[j].t == t
    ensures Commits(h.ws[j], t, h.ws[j + 1]) <==> At(h.ws[j], t).StartCommit? && !h.ws[j].m.closing
  {
    Reachable(h, j);
    var e, r := RunShape(h.ws[j], t, h.acts[j].outcome, h.ws[j + 1]);
    if At(h.ws[j], t).StartCommit? {
      assert Held(At(h.ws[j], t)) != h.ws[j].m.nc;
      StoredByCommit(h.ws[j], t, h.acts[j].outcome, e);
    }
  }

  lemma CommitIsOwnStep(h: History, j: nat, t: Tid)
    requires IsRun(h) && j < |h.acts| && Commits(h.ws[j], t, h.ws[j + 1])
    ensures h.acts[j].Run? && h.acts[j].t == t
  {
    Reachable(h, j);
    var s := StepOfCommit(h.ws[j], h.acts[j], h.ws[j + 1]);
    if h.acts[j].Run? {
      var e, r := RunShape(h.ws[j], h.acts[j].t, h.acts[j].outcome, h.ws[j + 1]);
      HandlesOfStep(h.ws[j], At(h.ws[j], h.acts[j].t), h.acts[j].outcome, e);
    } else {
      var u := EnvShape(h.ws[j], h.acts[j], h.ws[j + 1]);
    }
    assert StartChan(At(h.ws[j], t)).Some? && StartChan(At(h.ws[j], h.acts[j].t)).Some?;
  }

  // What decides the answer of a Start that has entered is its commit or the failure of a stage.
  lemma StartDecision(h: History, e: nat, j: nat, t: Tid, v: Verdict)
    requires IsRun(h) && e < |h.acts| && Enters(h.ws[e], t, h.ws[e + 1]) && j < |h.acts|
    ensures e < j ==> (Decides(h, j, t, v) <==>
                         match v
                         case Success => CommitsAt(h, j, t)
                         case Failure(code) => Fails(h, j, t, code)
                         case Superseded => false)
    ensures j <= e ==> !Decides(h, j, t, v)
  {
    if e < j {
      StaysInStart(h, e, j, t);
      if h.acts[j].Run? && h.acts[j].t == t {
        CommitsIff(h, j, t);
      } else if CommitsAt(h, j, t) {
        CommitIsOwnStep(h, j, t);
      }
    } else if Decides(h, j, t, v) {
      BoundIffDecided(h, e + 1, t, v);
      assert DecidedBefore(h, e + 1, t, v);
      EnteredUnbound(h, e, t);
    }
  }

  lemma EnteredUnbound(h: History, e: nat, t: Tid)
    requires IsRun(h) && e < |h.acts| && Enters(h.ws[e], t, h.ws[e + 1])
    ensures BoundAt(h.ws[e + 1], t).None?
  {
    var (w, a, w') := (h.ws[e], h.acts[e], h.ws[e + 1]);
    if a.Run? && a.t == t {
      var eff, r := RunShape(w, t, a.outcome, w');
    } else {
      OthersStay(w, a, w', t);
    }
  }

  lemma DecidedSince(h: History, e: nat, i: nat, t: Tid, v: Verdict)
    requires IsRun(h) && e < i < |h.ws| && Enters(h.ws[e], t, h.ws[e + 1]) && At(h.ws[i], t).Returned?
    ensures At(h.ws[i], t).verdict == v <==> exists j: nat :: e < j < i && Decides(h, j, t, v)
  {
    StaysInStart(h, e, i, t);
    AnswerIffDecided(h, i, t, v);
    if j: nat :| j < i && Decides(h, j, t, v) {
      StartDecision(h, e, j, t, v);
    }
  }

  lemma SucceedsIffCommitted(h: History, e: nat, i: nat, t: Tid)
    requires IsRun(h) && e < i < |h.ws| && Enters(h.ws[e], t, h.ws[e + 1]) && At(h.ws[i], t).Returned?
    ensures At(h.ws[i], t).verdict == Success <==> exists j: nat :: e < j < i && CommitsAt(h, j, t)
  {
    DecidedSince(h, e, i, t, Success);
    forall j: nat | e < j < i ensures Decides(h, j, t, Success) <==> CommitsAt(h, j, t) {
      StartDecision(h, e, j, t, Success);
    }
  }

  lemma FailsIffStageFailed(h: History, e: nat, i: nat, t: Tid, code: Code)
    requires IsRun(h) && e < i < |h.ws| && Enters(h.ws[e], t, h.ws[e + 1]) && At(h.ws[i], t).Returned?
    ensures At(h.ws[i], t).verdict == Failure(code) <==> exists j: nat :: e < j < i && Fails(h, j, t, code)
  {
    DecidedSince(h, e, i, t, Failure(code));
    forall j: nat | e < j < i ensures Decides(h, j, t, Failure(code)) <==> Fails(h, j, t, code) {
      StartDecision(h, e, j, t, Failure(code));
    }
  }

  // A Start that has entered returns success iff it committed, and an error iff a stage failed; then with the code of
  // that stage.
  lemma StartAnswers(h: History, e: nat, i: nat, t: Tid, code: Code)
    requires IsRun(h) && e < i < |h.ws| && Enters(h.ws[e], t, h.ws[e + 1]) && At(h.ws[i], t).Returned?
    ensures At(h.ws[i], t).verdict.Success? <==> exists j: nat :: e < j < i && CommitsAt(h, j, t)
    ensures At(h.ws[i], t).verdict == Failure(code) <==> exists j: nat :: e < j < i && Fails(h, j, t, code)
    ensures !At(h.ws[i], t).verdict.Superseded?
  {
    SucceedsIffCommitted(h, e, i, t);
    FailsIffStageFailed(h, e, i, t, code);
    DecidedSince(h, e, i, t, Superseded);
    if j: nat :| e < j < i && Decides(h, j, t, Superseded) {
      StartDecision(h, e, j, t, Superseded);
    }
  }

  // A Start that does not get past its first section returns at once: with the error of the first check that turns it
  // down, or with success because a connection is stored that is not closed.
  lemma StartTurnedDown(h: History, j: nat, t: Tid)
    requires IsRun(h) && j < |h.acts| && h.acts[j].Run? && h.acts[j].t == t && At(h.ws[j], t).StartCall?
    requires h.acts[j].outcome.Good?
    ensures var (w, w') := (h.ws[j], h.ws[j + 1]);
            var stored := w.m.nc.Some? && !IsGone(w, w.m.nc.value);
            && (Enters(w, t, w') <==>
                  !w.m.starting && !w.m.closing && !w.retryOnFailedConnect && !stored)
            && (!Enters(w, t, w') ==>
                  && w'.m == w.m
                  && At(w', t) == Returned(if w.m.starting then Failure(Validation)
                                           else if w.m.closing then Failure(Shutdown)
                                           else if w.retryOnFailedConnect then Failure(Validation)
                                           else Success))
  {
    var e, r := RunShape(h.ws[j], t, h.acts[j].outcome, h.ws[j + 1]);
  }

  // A context that is over turns the call down before anything else.
  lemma StartWithoutContext(h: History, j: nat, t: Tid)
    requires IsRun(h) && j < |h.acts| && h.acts[j].Run? && h.acts[j].t == t && At(h.ws[j], t).StartCall?
    requires h.acts[j].outcome.Bad?
    ensures At(h.ws[j + 1], t) == Returned(Failure(ConnectionFailed)) && h.ws[j + 1].m == h.ws[j].m
  {
    var e, r := RunShape(h.ws[j], t, h.acts[j].outcome, h.ws[j + 1]);
  }

  // ---- Close ----

  // Goroutine t is a Close that in this step passes its first section with something to close.
  predicate EntersClose(w: World, t: Tid, w': World) {
    At(w, t).CloseCall? && InClose(At(w', t))
  }

  predicate ClosingOn(w: World, t: Tid) {
    t in w.threads && (InClose(w.threads[t]) || w.threads[t].Returned?)
  }

  lemma CloseGoesOn(w: World, t: Tid, o: Outcome, e: Effect)
    requires ThreadStep(w, At(w, t), o) == Some(e) && (InClose(At(w, t)) || At(w, t).Returned?)
    ensures InClose(e.pc) || e.pc.Returned?
  {
  }

  lemma {:induction false} StaysInClose(h: History, e: nat, j: nat, t: Tid)
    requires IsRun(h) && e < j < |h.ws| && EntersClose(h.ws[e], t, h.ws[e + 1])
    ensures ClosingOn(h.ws[j], t)
    decreases j
  {
    if e + 1 < j {
      StaysInClose(h, e, j - 1, t);
      var (w, a, w') := (h.ws[j - 1], h.acts[j - 1], h.ws[j]);
      if a.Run? && a.t == t {
        var eff, r := RunShape(w, t, a.outcome, w');
        CloseGoesOn(w, t, a.outcome, eff);
      } else {
        OthersStay(w, a, w', t);
      }
    }
  }

  // The context of the Close ends while it waits for a Start, or the drain fails.
  ghost predicate CloseFails(h: History, j: nat, t: Tid) {
    && j < |h.acts| && j < |h.ws| && h.acts[j].Run? && h.acts[j].t == t && !h.acts[j].outcome.Good?
    && (At(h.ws[j], t).CloseWait? || At(h.ws[j], t).CloseDrain?)
  }

  lemma CloseDecision(h: History, e: nat, j: nat, t: Tid, v: Verdict)
    requires IsRun(h) && e < |h.acts| && EntersClose(h.ws[e], t, h.ws[e + 1]) && j < |h.acts| && v != Success
    ensures e < j ==> (Decides(h, j, t, v) <==> CloseFails(h, j, t) && v == Failure(Shutdown))
    ensures j <= e ==> !Decides(h, j, t, v)
  {
    if e < j {
      StaysInClose(h, e, j, t);
    } else if Decides(h, j, t, v) {
      BoundIffDecided(h, e + 1, t, v);
      assert DecidedBefore(h, e + 1, t, v);
      CloseUnbound(h, e, t);
    }
  }

  lemma CloseUnbound(h: History, e: nat, t: Tid)
    requires IsRun(h) && e < |h.acts| && EntersClose(h.ws[e], t, h.ws[e + 1])
    ensures BoundAt(h.ws[e + 1], t).None?
  {
    var (w, a, w') := (h.ws[e], h.acts[e], h.ws[e + 1]);
    if a.Run? && a.t == t {
      var eff, r := RunShape(w, t, a.outcome, w');
    } else {
      OthersStay(w, a, w', t);
    }
  }

  // A Close that has entered returns a shutdown error iff its context ended while it waited or the drain failed, and
  // success otherwise.
  lemma CloseAnswers(h: History, e: nat, i: nat, t: Tid)
    requires IsRun(h) && e < i < |h.ws| && EntersClose(h.ws[e], t, h.ws[e + 1]) && At(h.ws[i], t).Returned?
    ensures At(h.ws[i], t).verdict ==
              if exists j: nat :: e < j < i && CloseFails(h, j, t) then Failure(Shutdown) else Success
  {
    StaysInClose(h, e, i, t);
    var v := At(h.ws[i], t).verdict;
    if j: nat :| e < j < i && CloseFails(h, j, t) {
      CloseDecision(h, e, j, t, Failure(Shutdown));
      AnswerIffDecided(h, i, t, Failure(Shutdown));
    } else if v != Success {
      AnswerIffDecided(h, i, t, v);
      var j: nat :| j < i && Decides(h, j, t, v);
      CloseDecision(h, e, j, t, v);
    }
  }

  // A Close that finds another one at work, or nothing to close, returns success at once.
  lemma CloseTurnedDown(h: History, j: nat, t: Tid)
    requires IsRun(h) && j < |h.acts| && h.acts[j].Run? && h.acts[j].t == t && At(h.ws[j], t).CloseCall?
    ensures var (w, w') := (h.ws[j], h.ws[j + 1]);
            && (EntersClose(w, t, w') <==> !w.m.closing && (w.m.startDone.Some? || w.m.nc.Some?))
            && (!EntersClose(w, t, w') ==> At(w', t) == Returned(Success))
            && (EntersClose(w, t, w') ==> (At(w', t).CloseWait? <==> w.m.startDone.Some?))
  {
    var e, r := RunShape(h.ws[j], t, h.acts[j].outcome, h.ws[j + 1]);
  }

  // ---- rebind ----

  // The section that ends a rebind, in whatever way: if its connection is the stored one and no Close is under way, the
  // new handles are stored and the manager is Connected again; else nothing changes.
  lemma RebindInstalls(w: World, t: Tid, o: Outcome, w': World)
    requires Exec(w, Run(t, o)) == Some(w') && At(w, t).RebindCommit?
    ensures var (c, js, kv) := (At(w, t).conn, At(w, t).js, At(w, t).kv);
            if w.m.nc == Some(c) && !w.m.closing then
              && At(w', t) == RebindTell(c)
              && w'.m == w.m.(js := Some(js), kv := Some(kv), health := w'.m.health)
              && w'.m.health == Health(Connected, w.url, true, true, w.m.health.registered, w.m.health.active, "")
            else
              At(w', t) == Returned(Superseded) && w'.m == w.m
  {
    var e, r := RunShape(w, t, o, w');
  }

  // The library says that connection c is back, and t is the goroutine that rebinds it.
  ghost predicate StartsRebind(h: History, e: nat, t: Tid, c: ConnId) {
    && e < |h.acts| && e + 1 < |h.ws| && h.acts[e] == Reconnected(c, t)
    && !h.ws[e].m.closing && t !in h.ws[e].threads && c in h.ws[e].conns
  }

  // Rebinding connection c, with handles made from c.
  predicate Rebinds(pc: PC, c: ConnId) {
    match pc
    case RebindCall(d) => d == c
    case RebindBind(d, js) => d == c && js.conn == c
    case RebindCommit(d, js, kv) => d == c && js.conn == c && kv.via == js
    case RebindTell(d) => d == c
    case RebindFailed(_) => true
    case Returned(_) => true
    case _ => false
  }

  lemma RebindGoesOn(w: World, pc: PC, o: Outcome, e: Effect, c: ConnId)
    requires ThreadStep(w, pc, o) == Some(e) && Rebinds(pc, c)
    ensures Rebinds(e.pc, c) && (e.pc == Returned(Success) ==> pc == RebindTell(c))
  {
  }

  lemma RebindBegins(h: History, e: nat, t: Tid, c: ConnId)
    requires IsRun(h) && StartsRebind(h, e, t, c)
    ensures t in h.ws[e + 1].threads && At(h.ws[e + 1], t) == RebindCall(c)
  {
    assert Exec(h.ws[e], h.acts[e]) == Some(h.ws[e + 1]);
  }

  ghost predicate Told(h: History, e: nat, i: nat, t: Tid, c: ConnId) {
    exists j: nat :: e < j < i && j < |h.ws| && j < |h.acts| && TellsAt(h.ws[j], h.acts[j], t, c)
  }

  // The step in which the hook of the client is called.
  predicate TellsAt(w: World, a: Action, t: Tid, c: ConnId) {
    a.Run? && a.t == t && At(w, t) == RebindTell(c)
  }

  lemma {:induction false} StaysInRebind(h: History, e: nat, i: nat, t: Tid, c: ConnId)
    requires IsRun(h) && StartsRebind(h, e, t, c) && e < i < |h.ws|
    ensures t in h.ws[i].threads && Rebinds(At(h.ws[i], t), c)
    ensures At(h.ws[i], t) == Returned(Success) ==> Told(h, e, i, t, c)
    decreases i
  {
    if e + 1 == i {
      RebindBegins(h, e, t, c);
    } else {
      StaysInRebind(h, e, i - 1, t, c);
      RebindNext(h, e, i - 1, t, c);
    }
  }

  lemma RebindNext(h: History, e: nat, j: nat, t: Tid, c: ConnId)
    requires IsRun(h) && e < j < |h.acts| && t in h.ws[j].threads && Rebinds(At(h.ws[j], t), c)
    requires At(h.ws[j], t) == Returned(Success) ==> Told(h, e, j, t, c)
    ensures t in h.ws[j + 1].threads && Rebinds(At(h.ws[j + 1], t), c)
    ensures At(h.ws[j + 1], t) == Returned(Success) ==> Told(h, e, j + 1, t, c)
  {
    var (w, a, w') := (h.ws[j], h.acts[j], h.ws[j + 1]);
    if a.Run? && a.t == t {
      var eff, r := RunShape(w, t, a.outcome, w');
      RebindGoesOn(w, At(w, t), a.outcome, eff, c);
      assert At(w', t) == Returned(Success) ==> TellsAt(w, a, t, c);
    } else {
      OthersStay(w, a, w', t);
      if At(w, t) == Returned(Success) {
        var k: nat :| e < k < j && k < |h.ws| && k < |h.acts| && TellsAt(h.ws[k], h.acts[k], t, c);
        assert k < j + 1;
      }
    }
  }

  ghost predicate InstallsAt(h: History, j: nat, t: Tid, c: ConnId) {
    && j < |h.acts| && j < |h.ws| && h.acts[j].Run? && h.acts[j].t == t
    && At(h.ws[j], t).RebindCommit? && h.ws[j].m.nc == Some(c) && !h.ws[j].m.closing
  }

  ghost predicate RebindFails(h: History, j: nat, t: Tid) {
    && j < |h.acts| && j < |h.ws| && h.acts[j].Run? && h.acts[j].t == t && !h.acts[j].outcome.Good?
    && (At(h.ws[j], t).RebindCall? || At(h.ws[j], t).RebindBind?)
  }

  lemma RebindDecision(h: History, e: nat, j: nat, t: Tid, c: ConnId)
    requires IsRun(h) && StartsRebind(h, e, t, c) && j < |h.acts|
    ensures e < j ==> (Decides(h, j, t, Success) <==> InstallsAt(h, j, t, c))
    ensures e < j ==> (Decides(h, j, t, Failure(JetStreamFailed)) <==> RebindFails(h, j, t))
    ensures j <= e ==> forall v: Verdict :: !Decides(h, j, t, v)
  {
    if e < j {
      StaysInRebind(h, e, j, t, c);
    } else if v: Verdict :| Decides(h, j, t, v) {
      BoundIffDecided(h, e + 1, t, v);
      assert DecidedBefore(h, e + 1, t, v);
      RebindBegins(h, e, t, c);
    }
  }

  // A rebind succeeds iff at its last section its connection was the stored one and no Close was under way, and then
  // the hook of the client has been called. It fails iff one of its two calls does.
  lemma RebindAnswers(h: History, e: nat, i: nat, t: Tid, c: ConnId)
    requires IsRun(h) && StartsRebind(h, e, t, c) && e < i < |h.ws| && At(h.ws[i], t).Returned?
    ensures At(h.ws[i], t).verdict == Success <==> exists j: nat :: e < j < i && InstallsAt(h, j, t, c)
    ensures At(h.ws[i], t).verdict == Success ==> Told(h, e, i, t, c)
    ensures At(h.ws[i], t).verdict == Failure(JetStreamFailed) <==> exists j: nat :: e < j < i && RebindFails(h, j, t)
  {
    StaysInRebind(h, e, i, t, c);
    AnswerIffDecided(h, i, t, Success);
    AnswerIffDecided(h, i, t, Failure(JetStreamFailed));
    forall j: nat | j < i
      ensures Decides(h, j, t, Success) <==> e < j && InstallsAt(h, j, t, c)
      ensures Decides(h, j, t, Failure(JetStreamFailed)) <==> e < j && RebindFails(h, j, t)
    {
      RebindDecision(h, e, j, t, c);
    }
  }

  // The hook is only called after the handles are stored.
  lemma ToldAfterInstalling(h: History, e: nat, i: nat, t: Tid, c: ConnId)
    requires IsRun(h) && StartsRebind(h, e, t, c) && e < i < |h.ws| && At(h.ws[i], t).RebindTell?
    ensures exists j: nat :: e < j < i && InstallsAt(h, j, t, c)
  {
    StaysInRebind(h, e, i, t, c);
    BoundIffDecided(h, i, t, Success);
    var j: nat :| j < i && Decides(h, j, t, Success);
    RebindDecision(h, e, j, t, c);
    assert e < j && InstallsAt(h, j, t, c);
  }
}

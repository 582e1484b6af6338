// No stop function is called twice, and none is forgotten by stopAllWatches.

module WatchTheorems {
  import opened Common
  import opened WatchProtocol

  // Every watch is in the table, in exactly one pair of hands, or was stopped, once.
  ghost predicate PlaceInv(w: World) {
    && (forall id | id in w.table :: 1 <= id <= w.next && !Called(w.calls, id))
    && (forall t: Tid :: HandInv(w, InHand(At(w, t))))
    && (forall t: Tid, u: Tid | t != u :: InHand(At(w, t)) !! InHand(At(w, u)))
    && CallsInv(w.next, w.calls)
    && (forall id: WatchId | 1 <= id <= w.next :: Placed(w, id))
  }

  ghost predicate HandInv(w: World, hand: set<WatchId>) {
    forall id | id in hand :: 1 <= id <= w.next && id !in w.table && !Called(w.calls, id)
  }

  ghost predicate CallsInv(next: nat, calls: seq<StopRecord>) {
    && (forall k | 0 <= k < |calls| :: 1 <= calls[k].id <= next)
    && (forall j, k | 0 <= j < k < |calls| :: calls[j].id != calls[k].id)
  }

  ghost predicate Placed(w: World, id: WatchId) {
    id in w.table || Called(w.calls, id) || exists t: Tid :: id in InHand(At(w, t))
  }

  // A once runs for the goroutine inside it, and what has been through one is out of the table.
  ghost predicate OnceInv(once: map<WatchId, Once>, table: set<WatchId>, t: Tid, pc: PC) {
    && (pc.TrackPut? ==> pc.id !in once)
    && (forall id: WatchId | Inside(pc, id) :: id in once && once[id] == Running(t))
    && (forall id | id in once && once[id] == Running(t) :: Inside(pc, id))
    && (pc.StopCall? || pc.StopLeave? ==> pc.id !in table)
    && (pc.StopDone? ==> pc.id in once && once[pc.id].Finished?)
    && (pc.StopBegin? ==> pc.id in once)
  }

  ghost predicate TableInv(w: World) {
    && (forall id | id in w.once :: id <= w.next)
    && (forall id | id in w.once && w.once[id].Finished? :: id !in w.table)
  }

  // The error a goroutine is about to return is nil iff no stop function that it called failed.
  predicate FlagInv(calls: seq<StopRecord>, t: Tid, pc: PC) {
    match pc
    case StopLeave(_, failed) => failed == FailedBy(calls, t)
    case StopDone(_, failed) => failed == FailedBy(calls, t)
    case AllCalling(_, failed) => failed == FailedBy(calls, t)
    case AllDone(failed) => failed == FailedBy(calls, t)
    case _ => !CalledBy(calls, t)
  }

  ghost predicate Inv(w: World) {
    && PlaceInv(w) && TableInv(w)
    && (forall t: Tid :: OnceInv(w.once, w.table, t, At(w, t)))
    && (forall t: Tid :: FlagInv(w.calls, t, At(w, t)))
  }

  // ---- the shape of a step ----

  ghost predicate Frame(w: World, t: Tid, w': World) {
    forall u: Tid :: u != t ==> At(w', u) == At(w, u)
  }

  lemma RunShape(w: World, t: Tid, o: Outcome, w': World) returns (e: Effect)
    requires Exec(w, Run(t, o)) == Some(w')
    ensures Step(w, t, At(w, t), o) == Some(e) && Frame(w, t, w')
    ensures w'.next == e.next && w'.table == e.table && w'.once == e.once && w'.calls == e.calls && At(w', t) == e.pc
  {
    e := Step(w, t, w.threads[t], o).value;
  }

  // A step moves at most: a new id into the hand, the hand into the table, one watch or all of them out of the
  // table into the hand, or one watch out of the hand by calling its stop function.
  ghost predicate Moves(w: World, t: Tid, hand: set<WatchId>, w': World, hand': set<WatchId>) {
    || (w'.next == w.next && w'.table == w.table && w'.calls == w.calls && hand' == hand)
    || (w'.next == w.next + 1 && w'.table == w.table && w'.calls == w.calls && hand == {} && hand' == {w.next + 1})
    || (w'.next == w.next && w'.table == w.table + hand && w'.calls == w.calls && hand' == {})
    || (w'.next == w.next && w'.table == w.table - hand' && hand' <= w.table && w'.calls == w.calls && hand == {})
    || exists id: WatchId, f: bool ::
         && id in hand && hand' == hand - {id} && w'.next == w.next && w'.table == w.table
         && w'.calls == w.calls + [StopRecord(id, t, f)]
  }

  lemma RunMoves(w: World, t: Tid, o: Outcome, w': World)
    requires Exec(w, Run(t, o)) == Some(w')
    ensures Moves(w, t, InHand(At(w, t)), w', InHand(At(w', t)))
  {
  }

  lemma CalledAppend(calls: seq<StopRecord>, r: StopRecord)
    ensures forall id: WatchId :: Called(calls + [r], id) <==> Called(calls, id) || r.id == id
    ensures forall t: Tid :: CalledBy(calls + [r], t) <==> CalledBy(calls, t) || r.caller == t
    ensures forall t: Tid :: FailedBy(calls + [r], t) <==> FailedBy(calls, t) || (r.caller == t && r.failed)
  {
    var calls' := calls + [r];
    assert calls'[|calls|] == r && forall k | 0 <= k < |calls| :: calls'[k] == calls[k];
  }

  lemma PlacesKept(w: World, t: Tid, w': World)
    requires PlaceInv(w) && Frame(w, t, w') && Moves(w, t, InHand(At(w, t)), w', InHand(At(w', t)))
    ensures PlaceInv(w')
  {
    var (hand, hand') := (InHand(At(w, t)), InHand(At(w', t)));
    assert HandInv(w, hand);
    if w'.calls != w.calls {
      var id: WatchId, f :| id in hand && hand' == hand - {id} && w'.next == w.next && w'.table == w.table
                            && w'.calls == w.calls + [StopRecord(id, t, f)];
      CalledAppend(w.calls, StopRecord(id, t, f));
      CallsAppend(w.next, w.calls, StopRecord(id, t, f));
    }
    forall u: Tid ensures HandInv(w', InHand(At(w', u))) && (u != t ==> hand' !! InHand(At(w', u))) {
      if u != t {
        assert HandInv(w, InHand(At(w, u))) && hand !! InHand(At(w, u)) && At(w', u) == At(w, u);
      }
    }
    forall id: WatchId | 1 <= id <= w'.next ensures Placed(w', id) {
      StillPlaced(w, t, w', id);
    }
  }

  lemma CallsAppend(next: nat, calls: seq<StopRecord>, r: StopRecord)
    requires CallsInv(next, calls) && 1 <= r.id <= next && !Called(calls, r.id)
    ensures CallsInv(next, calls + [r])
  {
  }

  lemma StillPlaced(w: World, t: Tid, w': World, id: WatchId)
    requires PlaceInv(w) && Frame(w, t, w') && Moves(w, t, InHand(At(w, t)), w', InHand(At(w', t)))
    requires 1 <= id <= w'.next
    requires forall i: WatchId |
               Called(w.calls, i) || (i in InHand(At(w, t)) && i !in InHand(At(w', t)) && i !in w'.table) ::
               Called(w'.calls, i)
    ensures Placed(w', id)
  {
    if id == w.next + 1 {
      assert id in InHand(At(w', t));
    } else {
      assert Placed(w, id);
      if u: Tid :| id in InHand(At(w, u)) {
        if u != t {
          assert id in InHand(At(w', u));
        } else {
          assert id in InHand(At(w', t)) || id in w'.table || Called(w'.calls, id);
        }
      } else if id in w.table && id !in w'.table {
        assert id in InHand(At(w', t));
      }
    }
  }

  // ---- the onces ----

  lemma StepOnce(w: World, t: Tid, pc: PC, o: Outcome, e: Effect)
    requires Step(w, t, pc, o) == Some(e) && OnceInv(w.once, w.table, t, pc)
    requires TableInv(w) && HandInv(w, InHand(pc))
    ensures OnceInv(e.once, e.table, t, e.pc)
  {
  }

  lemma StepTable(w: World, t: Tid, pc: PC, o: Outcome, e: Effect)
    requires Step(w, t, pc, o) == Some(e) && OnceInv(w.once, w.table, t, pc)
    requires TableInv(w) && HandInv(w, InHand(pc))
    ensures (forall id | id in e.once :: id <= e.next)
              && (forall id | id in e.once && e.once[id].Finished? :: id !in e.table)
  {
    assert pc.TrackPut? ==> pc.id in InHand(pc);
    assert pc.StopTake? || pc.StopCall? || pc.StopLeave? ==> Inside(pc, pc.id);
  }

  // What a step of t leaves alone in the onces: those that run for others, and those of tracked watches.
  ghost predicate OtherOnces(w: World, t: Tid, w': World, u: Tid) {
    && (forall id | id in w.once :: id in w'.once)
    && (forall id | id in w'.once && id !in w.once :: id in InHand(At(w, t)) && id in w'.table)
    && (forall id | id in w'.once && w'.once[id] == Running(u) :: id in w.once && w.once[id] == Running(u))
    && (forall id | id in w.once && w.once[id] == Running(u) :: w'.once[id] == Running(u))
    && (forall id | id in w.once && w.once[id].Finished? :: w'.once[id].Finished?)
    && (forall id | id in w'.table && id !in w.table :: id in InHand(At(w, t)) && id !in w.once)
  }

  lemma RunOtherOnces(w: World, t: Tid, o: Outcome, w': World, u: Tid)
    requires Exec(w, Run(t, o)) == Some(w') && u != t && OnceInv(w.once, w.table, t, At(w, t))
    ensures OtherOnces(w, t, w', u)
  {
  }

  lemma OtherOnceKept(w: World, t: Tid, w': World, u: Tid)
    requires OnceInv(w.once, w.table, u, At(w, u)) && At(w', u) == At(w, u) && OtherOnces(w, t, w', u)
    requires forall id | id in InHand(At(w, u)) :: id !in InHand(At(w, t))
    ensures OnceInv(w'.once, w'.table, u, At(w', u))
  {
  }

  lemma StepFlag(w: World, t: Tid, pc: PC, o: Outcome, e: Effect)
    requires Step(w, t, pc, o) == Some(e) && FlagInv(w.calls, t, pc)
    ensures FlagInv(e.calls, t, e.pc)
    ensures forall u: Tid | u != t ::
              CalledBy(e.calls, u) == CalledBy(w.calls, u) && FailedBy(e.calls, u) == FailedBy(w.calls, u)
  {
    CalledAppend(w.calls, StopRecord(if pc.StopCall? then pc.id else o.id, t, o.failed));
    assert !CalledBy(w.calls, t) ==> !FailedBy(w.calls, t);
  }

  lemma RunKept(w: World, t: Tid, o: Outcome, w': World)
    requires Inv(w) && Exec(w, Run(t, o)) == Some(w')
    ensures Inv(w')
  {
    var e := RunShape(w, t, o, w');
    RunMoves(w, t, o, w');
    PlacesKept(w, t, w');
    assert OnceInv(w.once, w.table, t, At(w, t)) && FlagInv(w.calls, t, At(w, t)) && HandInv(w, InHand(At(w, t)));
    StepOnce(w, t, At(w, t), o, e);
    StepTable(w, t, At(w, t), o, e);
    StepFlag(w, t, At(w, t), o, e);
    forall u: Tid ensures OnceInv(w'.once, w'.table, u, At(w', u)) && FlagInv(w'.calls, u, At(w', u)) {
      if u != t {
        RunOtherOnces(w, t, o, w', u);
        assert OnceInv(w.once, w.table, u, At(w, u)) && FlagInv(w.calls, u, At(w, u));
        assert InHand(At(w, t)) !! InHand(At(w, u));
        OtherOnceKept(w, t, w', u);
      }
    }
  }

  lemma CallKept(w: World, t: Tid, pc: PC, w': World)
    requires Inv(w) && Exec(w, Call(t, pc)) == Some(w')
    ensures Inv(w')
  {
    assert Frame(w, t, w') && At(w, t) == Idle && At(w', t) == pc;
    PlacesKept(w, t, w');
    assert OnceInv(w.once, w.table, t, Idle) && FlagInv(w.calls, t, Idle);
    forall u: Tid ensures OnceInv(w'.once, w'.table, u, At(w', u)) && FlagInv(w'.calls, u, At(w', u)) {
      assert OnceInv(w.once, w.table, u, At(w, u)) && FlagInv(w.calls, u, At(w, u));
    }
  }

  lemma InvKept(w: World, a: Action, w': World)
    requires Inv(w) && Exec(w, a) == Some(w')
    ensures Inv(w')
  {
    match a
    case Call(t, pc) => CallKept(w, t, pc, w');
    case Run(t, o) => RunKept(w, t, o, w');
  }

  // ---- runs ----

  datatype History = History(ws: seq<World>, acts: seq<Action>)

  ghost predicate IsRun(h: History) {
    && |h.ws| == |h.acts| + 1
    && Init(h.ws[0])
    && forall i | 0 <= i < |h.acts| :: Exec(h.ws[i], h.acts[i]) == Some(h.ws[i + 1])
  }

  lemma {:induction false} Reachable(h: History, i: nat)
    requires IsRun(h) && i < |h.ws|
    ensures Inv(h.ws[i])
  {
    if i > 0 {
      Reachable(h, i - 1);
      InvKept(h.ws[i - 1], h.acts[i - 1], h.ws[i]);
    } else {
      InitInv(h.ws[0]);
    }
  }

  lemma InitInv(w: World)
    requires Init(w)
    ensures Inv(w)
  {
  }

  // However user stops and stopAllWatches interleave, no stop function is called twice, and none that was called is
  // still in the table or about to be called.
  lemma StopsAtMostOnce(h: History, i: nat, j: nat, k: nat)
    requires IsRun(h) && i < |h.ws| && j < k < |h.ws[i].calls|
    ensures h.ws[i].calls[j].id != h.ws[i].calls[k].id
    ensures h.ws[i].calls[j].id !in h.ws[i].table
    ensures forall t: Tid :: h.ws[i].calls[j].id !in InHand(At(h.ws[i], t))
  {
    Reachable(h, i);
    assert Called(h.ws[i].calls, h.ws[i].calls[j].id);
  }

  // ---- stopAllWatches ----

  // Out of the table for good.
  ghost predicate Out(w: World, id: WatchId) {
    id in w.once && id !in w.table
  }

  lemma StaysOut(w: World, a: Action, w': World, id: WatchId)
    requires Inv(w) && Exec(w, a) == Some(w') && id in w.once
    ensures id in w'.once && (Out(w, id) ==> Out(w', id))
    ensures a.Run? && At(w, a.t).AllBegin? ==> Out(w', id)
  {
    if a.Run? {
      assert OnceInv(w.once, w.table, a.t, At(w, a.t));
      var e := RunShape(w, a.t, a.o, w');
    }
  }

  lemma {:induction false} SnapshotTakes(h: History, j: nat, i: nat, t: Tid, id: WatchId)
    requires IsRun(h) && j <= i < |h.ws| && id in h.ws[j].once && At(h.ws[j], t).AllBegin?
    ensures id in h.ws[i].once && (At(h.ws[i], t).AllBegin? || Out(h.ws[i], id))
    decreases i
  {
    if j < i {
      SnapshotTakes(h, j, i - 1, t, id);
      Reachable(h, i - 1);
      StaysOut(h.ws[i - 1], h.acts[i - 1], h.ws[i], id);
      if At(h.ws[i - 1], t).AllBegin? {
        OnlyOwnSteps(h.ws[i - 1], h.acts[i - 1], h.ws[i], t);
      }
    }
  }

  lemma OnlyOwnSteps(w: World, a: Action, w': World, t: Tid)
    requires Exec(w, a) == Some(w') && At(w, t).AllBegin?
    ensures At(w', t).AllBegin? || (a.Run? && a.t == t)
  {
  }

  // The goroutine that took a watch and has not called its stop function yet.
  predicate Taking(pc: PC, id: WatchId) {
    (pc.StopCall? && pc.id == id) || (pc.AllCalling? && id in pc.stops)
  }

  // Once stopAllWatches returns, every watch tracked before it was called has been taken exactly once: its stop
  // function was called, once, or it is in the hands of exactly one other goroutine that is about to call it.
  lemma StopAllForgetsNothing(h: History, j: nat, i: nat, t: Tid, id: WatchId)
    requires IsRun(h) && j <= i < |h.ws| && id in h.ws[j].once
    requires At(h.ws[j], t).AllBegin? && At(h.ws[i], t).AllDone?
    ensures id !in h.ws[i].table
    ensures Called(h.ws[i].calls, id) <==> forall u: Tid :: !Taking(At(h.ws[i], u), id)
    ensures forall u: Tid, v: Tid :: Taking(At(h.ws[i], u), id) && Taking(At(h.ws[i], v), id) ==> u == v != t
  {
    var w := h.ws[i];
    SnapshotTakes(h, j, i, t, id);
    Reachable(h, i);
    assert OnceInv(w.once, w.table, t, At(w, t));
    assert 1 <= id <= w.next by {
      OnceIds(h, i, id);
    }
    assert Placed(w, id);
    forall u: Tid ensures Taking(At(w, u), id) <==> id in InHand(At(w, u)) {
      assert OnceInv(w.once, w.table, u, At(w, u));
    }
  }

  lemma {:induction false} OnceIds(h: History, i: nat, id: WatchId)
    requires IsRun(h) && i < |h.ws| && id in h.ws[i].once
    ensures 1 <= id <= h.ws[i].next
  {
    Reachable(h, i - 1);
    var (w, w', a) := (h.ws[i - 1], h.ws[i], h.acts[i - 1]);
    assert Exec(w, a) == Some(w');
    if id in w.once {
      OnceIds(h, i - 1, id);
    } else {
      assert id in InHand(At(w, a.t));
    }
  }

  // Its error is nil iff every stop function that it called succeeded; the same goes for the stop of a single watch.
  lemma ErrorIffAStopFailed(h: History, i: nat, t: Tid)
    requires IsRun(h) && i < |h.ws| && (At(h.ws[i], t).AllDone? || At(h.ws[i], t).StopDone?)
    ensures At(h.ws[i], t).failed <==> exists k ::
              0 <= k < |h.ws[i].calls| && h.ws[i].calls[k].caller == t && h.ws[i].calls[k].failed
  {
    Reachable(h, i);
    assert FlagInv(h.ws[i].calls, t, At(h.ws[i], t));
  }

  // ---- stopping one watch ----

  // When the stop of a watch returns - any of several calls of it - the stop function was called, or stopAllWatches has
  // taken the watch. It never returns while another call of the same stop is still under way.
  lemma StopReturnsAfterTheStop(h: History, i: nat, t: Tid)
    requires IsRun(h) && i < |h.ws| && At(h.ws[i], t).StopDone?
    ensures var id := At(h.ws[i], t).id;
            && id !in h.ws[i].table
            && (Called(h.ws[i].calls, id) || exists u: Tid :: At(h.ws[i], u).AllCalling? && id in At(h.ws[i], u).stops)
            && forall u: Tid :: !Inside(At(h.ws[i], u), id)
  {
    var (w, id) := (h.ws[i], At(h.ws[i], t).id);
    Reachable(h, i);
    assert OnceInv(w.once, w.table, t, At(w, t));
    OnceIds(h, i, id);
    assert Placed(w, id);
    forall u: Tid ensures !Inside(At(w, u), id) && (id in InHand(At(w, u)) ==> At(w, u).AllCalling?) {
      assert OnceInv(w.once, w.table, u, At(w, u));
    }
  }

  // Nobody waits for ever: a goroutine in the middle of a call can take a step, or waits for a once whose goroutine
  // can.
  lemma NobodyIsStuck(h: History, i: nat, t: Tid)
    requires IsRun(h) && i < |h.ws| && t in h.ws[i].threads
    requires !At(h.ws[i], t).Tracked? && !At(h.ws[i], t).StopDone? && !At(h.ws[i], t).AllDone? && !At(h.ws[i], t).Idle?
    ensures exists u: Tid, o: Outcome ::
              && Exec(h.ws[i], Run(u, o)).Some?
              && (|| u == t
                  || (At(h.ws[i], t).StopBegin? && At(h.ws[i], t).id in h.ws[i].once
                      && h.ws[i].once[At(h.ws[i], t).id] == Running(u)))
  {
    var w := h.ws[i];
    Reachable(h, i);
    assert OnceInv(w.once, w.table, t, At(w, t));
    var u := if At(w, t).StopBegin? && w.once[At(w, t).id].Running? then w.once[At(w, t).id].t else t;
    assert OnceInv(w.once, w.table, u, At(w, u));
    var id: WatchId := if At(w, t).AllCalling? && At(w, t).stops != {} then Pick(At(w, t).stops) else 0;
    assert Exec(w, Run(u, Outcome(false, id))).Some?;
  }

  ghost function Pick(s: set<WatchId>): (id: WatchId)
    requires s != {}
    ensures id in s
  {
    var id :| id in s; id
  }

  // ---- steps ----

  // The watch whose stop function a goroutine calls in its next step.
  function Calling(pc: PC, o: Outcome): Option<WatchId> {
    match pc
    case StopCall(id) => Some(id)
    case AllCalling(stops, _) => if o.id in stops then Some(o.id) else None
    case _ => None
  }

  // Stop functions are called in these two places, and each call is noted with its outcome.
  lemma CallsAreNoted(w: World, t: Tid, o: Outcome, w': World)
    requires Exec(w, Run(t, o)) == Some(w')
    ensures w'.calls == w.calls + match Calling(At(w, t), o)
                                  case Some(id) => [StopRecord(id, t, o.failed)]
                                  case None => []
  {
    assert w.calls + [] == w.calls;
  }

  function Left(pc: PC): nat {
    match pc
    case TrackBegin => 2
    case TrackPut(_) => 1
    case StopBegin(_) => 4
    case StopTake(_) => 3
    case StopCall(_) => 2
    case StopLeave(_, _) => 1
    case AllCalling(stops, _) => |stops| + 1
    case _ => 0
  }

  // Every step lowers what a call has left, once a call of stopAllWatches has taken its snapshot.
  lemma StepsRunOut(w: World, t: Tid, o: Outcome, w': World)
    requires Exec(w, Run(t, o)) == Some(w')
    ensures if At(w, t).AllBegin? then At(w', t) == AllCalling(w.table, false) else Left(At(w', t)) < Left(At(w, t))
  {
  }
}

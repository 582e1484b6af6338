// What an activation pass gets done when it runs beside others: it settles every registration that it lists, one way or
// the other.

module HandlePasses {
  import opened Common
  import opened RegistryState
  import opened Registry
  import opened HandleProtocol
  import opened HandleTheorems

  // The pass still has to deal with this registration.
  predicate Owes(pc: PC, id: string) {
    || (Current(pc).Some? && Current(pc).value.id == id)
    || (id in PendingOf(pc) && PendingOf(pc)[id].id == id && (pc.force || !PendingOf(pc)[id].active))
  }

  // The locked section that ends an activation.
  predicate SettlesNow(pc: PC, id: string) {
    (pc.Attach? || pc.NoteFailed?) && pc.rec.id == id
  }

  lemma PickOwes(reg: RegState, subs: map<SubId, bool>, pc: PC, o: Outcome, e: Effect, id: string)
    requires pc.PassNext? && PickStep(reg, subs, pc, o) == Some(e) && Owes(pc, id)
    ensures Owes(e.pc, id)
  {
    assert PendingOf(pc) == pc.pending;
  }

  lemma OtherOwes(reg: RegState, subs: map<SubId, bool>, pc: PC, o: Outcome, e: Effect, id: string)
    requires !Picks(pc) && Step(reg, subs, pc, o) == Some(e) && Owes(pc, id)
    ensures Owes(e.pc, id) || SettlesNow(pc, id)
  {
  }

  predicate Covers(pc: PC, id: string) {
    pc.PassStart? || (pc.OneStart? && pc.id == id)
  }

  ghost predicate SettledSince(h: History, e: nat, i: nat, t: Tid, id: string) {
    exists j: nat :: e < j < i && SettledAt(h, j, t, id)
  }

  ghost predicate SettledAt(h: History, j: nat, t: Tid, id: string) {
    j < |h.ws| && j < |h.acts| && h.acts[j].Run? && h.acts[j].t == t && SettlesNow(At(h.ws[j], t), id)
  }

  lemma SettledGrows(h: History, e: nat, i: nat, t: Tid, id: string)
    requires e < i && (SettledSince(h, e, i, t, id) || SettledAt(h, i, t, id))
    ensures SettledSince(h, e, i + 1, t, id)
  {
    if j: nat :| e < j < i && SettledAt(h, j, t, id) {
      assert e < j < i + 1;
    } else {
      assert e < i < i + 1 && SettledAt(h, i, t, id);
    }
  }

  // Goroutine t is a pass over all registrations, or over this one, that lists them in step e, and has to deal with
  // this one.
  ghost predicate ListsAt(h: History, e: nat, t: Tid, id: string) {
    && e < |h.acts| && e + 1 < |h.ws| && h.acts[e].Run? && h.acts[e].t == t && Covers(At(h.ws[e], t), id)
    && id in h.ws[e].reg.entries && (At(h.ws[e], t).force || !h.ws[e].reg.entries[id].active)
  }

  lemma OwesNext(h: History, e: nat, j: nat, t: Tid, id: string)
    requires IsRun(h) && e < j < |h.acts| && (SettledSince(h, e, j, t, id) || Owes(At(h.ws[j], t), id))
    ensures SettledSince(h, e, j + 1, t, id) || Owes(At(h.ws[j + 1], t), id)
  {
    var (w, a, w') := (h.ws[j], h.acts[j], h.ws[j + 1]);
    if SettledSince(h, e, j, t, id) {
      SettledGrows(h, e, j, t, id);
    } else if a.Run? && a.t == t {
      var eff := RunShape(w, t, a.o, w');
      if Picks(At(w, t)) {
        PickOwes(w.reg, w.subs, At(w, t), a.o, eff, id);
      } else {
        OtherOwes(w.reg, w.subs, At(w, t), a.o, eff, id);
        if SettlesNow(At(w, t), id) {
          SettledGrows(h, e, j, t, id);
        }
      }
    } else {
      SameThread(w, a, w', t);
    }
  }

  lemma SameThread(w: World, a: Action, w': World, t: Tid)
    requires Exec(w, a) == Some(w') && !(a.Run? && a.t == t) && At(w, t) != Returned
    ensures At(w', t) == At(w, t)
  {
  }

  lemma {:induction false} OwesOrSettled(h: History, e: nat, i: nat, t: Tid, id: string)
    requires IsRun(h) && ListsAt(h, e, t, id) && e < i < |h.ws|
    ensures SettledSince(h, e, i, t, id) || Owes(At(h.ws[i], t), id)
    decreases i
  {
    if e + 1 == i {
      var eff := RunShape(h.ws[e], t, h.acts[e].o, h.ws[i]);
      ListOwes(h.ws[e].reg, h.ws[e].subs, At(h.ws[e], t), h.acts[e].o, eff, id);
    } else {
      OwesOrSettled(h, e, i - 1, t, id);
      OwesNext(h, e, i - 1, t, id);
    }
  }

  lemma ListOwes(reg: RegState, subs: map<SubId, bool>, pc: PC, o: Outcome, e: Effect, id: string)
    requires Covers(pc, id) && Step(reg, subs, pc, o) == Some(e) && id in reg.entries
    requires pc.force || !reg.entries[id].active
    ensures Owes(e.pc, id)
  {
  }

  // When a pass has returned, it has settled every registration that it listed and that was not active, or all of them
  // if it is forced.
  lemma PassCovers(h: History, e: nat, i: nat, t: Tid, id: string)
    requires IsRun(h) && ListsAt(h, e, t, id) && e < i < |h.ws| && At(h.ws[i], t).Returned?
    ensures SettledSince(h, e, i, t, id)
  {
    OwesOrSettled(h, e, i, t, id);
  }

  // The outcomes of the two calls decide how an activation is settled, and with which error.
  lemma OutcomesDecide(w: World, t: Tid, o: Outcome, w': World)
    requires Exec(w, Run(t, o)) == Some(w')
    ensures var (pc, pc') := (At(w, t), At(w', t));
            && (pc.Create? ==> pc' == if o.Good? then Flush(pc.force, pc.rec, o.sub, pc.pending)
                                      else NoteFailed(pc.force, pc.rec, o.err, pc.pending))
            && (pc.Flush? ==> pc' == if o.Good? then Attach(pc.force, pc.rec, pc.sub, pc.pending)
                                     else Undo(pc.force, pc.rec, pc.sub, o.err, pc.pending))
            && (pc.Undo? ==> pc' == NoteFailed(pc.force, pc.rec, pc.err, pc.pending))
  {
    var e := RunShape(w, t, o, w');
  }

  // What settling means: the new handle is attached, or dropped if the registration is gone; or the registration has no
  // handle, and the error. Nothing else in the registry changes.
  lemma SettlingDoes(w: World, t: Tid, o: Outcome, w': World)
    requires Exec(w, Run(t, o)) == Some(w') && (At(w, t).Attach? || At(w, t).NoteFailed?)
    ensures var (pc, id) := (At(w, t), At(w, t).rec.id);
            && w'.reg.byKey == w.reg.byKey && w'.reg.nextID == w.reg.nextID
            && w'.reg.entries.Keys == w.reg.entries.Keys
            && (forall j | j in w.reg.entries && j != id :: w'.reg.entries[j] == w.reg.entries[j])
            && (id in w.reg.entries ==>
                  w'.reg.entries[id] ==
                    if pc.Attach? then w.reg.entries[id].(activeSub := Some(pc.sub), active := true, lastErr := "")
                    else w.reg.entries[id].(activeSub := None, active := false, lastErr := pc.err))
            && (id !in w.reg.entries && pc.Attach? ==> At(w', t).Drop? && At(w', t).sub == pc.sub)
  {
    var e := RunShape(w, t, o, w');
  }

  // What the two clean-ups do under the lock: the entry is gone, or no handle is attached any more.
  lemma CleaningDoes(w: World, t: Tid, o: Outcome, w': World)
    requires Exec(w, Run(t, o)) == Some(w') && (At(w, t).RemoveCall? || At(w, t).ClearCall?)
    ensures At(w, t).RemoveCall? ==> w'.reg.entries == w.reg.entries - {At(w, t).id}
    ensures At(w, t).ClearCall? ==>
              && w'.reg.entries.Keys == w.reg.entries.Keys
              && forall id | id in w'.reg.entries :: w'.reg.entries[id].activeSub.None? && !w'.reg.entries[id].active
  {
    var e := RunShape(w, t, o, w');
  }

  // ---- passes come to an end ----

  function Left(pc: PC): nat {
    var n := 6 * |PendingOf(pc)|;
    match pc
    case PassNext(_, _) => n
    case Stale(_, _, _) => n + 5
    case Create(_, _, _) => n + 4
    case Flush(_, _, _, _) => n + 3
    case Undo(_, _, _, _, _) => n + 2
    case Attach(_, _, _, _) => n + 2
    case NoteFailed(_, _, _, _) => n + 1
    case Drop(_, _, _) => n + 1
    case Cleaning(handles) => |handles| + 1
    case _ => 0
  }

  lemma PickLowersLeft(reg: RegState, subs: map<SubId, bool>, pc: PC, o: Outcome, e: Effect)
    requires pc.PassNext? && PickStep(reg, subs, pc, o) == Some(e) && !e.pc.Returned?
    ensures Left(e.pc) < Left(pc)
  {
    assert PendingOf(pc) == pc.pending && pc.pending.Keys == (pc.pending - {o.id}).Keys + {o.id};
    assert |pc.pending.Keys| == |pc.pending| && |(pc.pending - {o.id}).Keys| == |pc.pending - {o.id}|;
  }

  // Every step of a pass or a clean-up that has begun lowers what it has left, until it returns.
  lemma StepsRunOut(w: World, t: Tid, o: Outcome, w': World)
    requires Exec(w, Run(t, o)) == Some(w')
    requires !At(w, t).PassStart? && !At(w, t).OneStart? && !At(w, t).RemoveCall? && !At(w, t).ClearCall?
    ensures At(w', t).Returned? || Left(At(w', t)) < Left(At(w, t))
  {
    var e := RunShape(w, t, o, w');
    var pc := At(w, t);
    if Picks(pc) {
      if !e.pc.Returned? {
        PickLowersLeft(w.reg, w.subs, pc, o, e);
      }
    } else if Activates(pc) {
      ActivateLowersLeft(w.reg, w.subs, pc, o, e);
    } else if Settles(pc) {
      SettleLowersLeft(w.reg, w.subs, pc, o, e);
    } else {
      CleanLowersLeft(w.reg, w.subs, pc, o, e);
    }
  }

  lemma ActivateLowersLeft(reg: RegState, subs: map<SubId, bool>, pc: PC, o: Outcome, e: Effect)
    requires Activates(pc) && ActivateStep(reg, subs, pc, o) == Some(e)
    ensures Left(e.pc) < Left(pc)
  {
    assert PendingOf(e.pc) == PendingOf(pc);
  }

  lemma SettleLowersLeft(reg: RegState, subs: map<SubId, bool>, pc: PC, o: Outcome, e: Effect)
    requires Settles(pc) && SettleStep(reg, subs, pc, o) == Some(e)
    ensures Left(e.pc) < Left(pc)
  {
    assert PendingOf(e.pc) == PendingOf(pc);
  }

  lemma CleanLowersLeft(reg: RegState, subs: map<SubId, bool>, pc: PC, o: Outcome, e: Effect)
    requires pc.Cleaning? && CleanStep(reg, subs, pc, o) == Some(e)
    ensures e.pc.Returned? || Left(e.pc) < Left(pc)
  {
  }

  // Every goroutine that has not returned can take a step in which nothing fails.
  ghost predicate CanStep(w: World, t: Tid) {
    exists o: Outcome :: o.Good? && Exec(w, Run(t, o)).Some?
  }

  predicate HasStale(pc: PC) {
    pc.Stale? ==> pc.rec.activeSub.Some?
  }

  lemma {:induction false} StaleIsThere(h: History, i: nat, t: Tid)
    requires IsRun(h) && i < |h.ws|
    ensures HasStale(At(h.ws[i], t))
  {
    if i > 0 {
      StaleIsThere(h, i - 1, t);
      var (w, a, w') := (h.ws[i - 1], h.acts[i - 1], h.ws[i]);
      if a.Run? {
        var e := RunShape(w, a.t, a.o, w');
        StaleFromPick(w.reg, w.subs, At(w, a.t), a.o, e);
      }
    }
  }

  lemma StaleFromPick(reg: RegState, subs: map<SubId, bool>, pc: PC, o: Outcome, e: Effect)
    requires Step(reg, subs, pc, o) == Some(e)
    ensures HasStale(e.pc)
  {
  }

  lemma {:induction false} Unused(s: set<nat>) returns (n: nat)
    ensures n !in s && forall m | m in s :: m < n
    decreases s
  {
    n := 0;
    if s != {} {
      var x :| x in s;
      var k := Unused(s - {x});
      n := if x < k then k else x + 1;
      assert forall m | m in s :: m == x || m in s - {x};
    }
  }

  lemma NobodyIsStuck(h: History, i: nat, t: Tid)
    requires IsRun(h) && i < |h.ws| && t in h.ws[i].threads && !h.ws[i].threads[t].Returned?
    ensures CanStep(h.ws[i], t)
  {
    StaleIsThere(h, i, t);
    var (w, pc) := (h.ws[i], h.ws[i].threads[t]);
    var s := Unused(w.subs.Keys);
    var o := Good(s, "");
    if pc.PassNext? && pc.pending != map[] {
      var id :| id in pc.pending;
      o := Good(s, id);
    } else if pc.Cleaning? && pc.handles != {} {
      var sub :| sub in pc.handles;
      o := Good(sub, "");
    }
    assert Step(w.reg, w.subs, pc, o).Some?;
    assert Exec(w, Run(t, o)).Some?;
  }
}

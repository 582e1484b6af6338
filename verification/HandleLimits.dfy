// Two overlapping activations of one registration can lose a subscription: the second one attaches its handle over
// the first, which stays subscribed with nobody left to unsubscribe it. That, and exactly when it happens.

module HandleLimits {
  import opened Common
  import opened GoStrings
  import opened RegistryState
  import opened Registry
  import opened HandleProtocol
  import opened HandleTheorems
  import Race = RegistryRace

  function Last(h: History): World
    requires |h.ws| > 0
  {
    h.ws[|h.ws| - 1]
  }

  lemma Extend(h: History, a: Action, w: World) returns (h': History)
    requires IsRun(h) && Exec(Last(h), a) == Some(w)
    ensures IsRun(h') && Last(h') == w
  {
    h' := History(h.ws + [w], h.acts + [a]);
  }

  lemma Advance(h: History, t: Tid, o: Outcome, e: Effect) returns (h': History)
    requires IsRun(h) && t in Last(h).threads && Step(Last(h).reg, Last(h).subs, Last(h).threads[t], o) == Some(e)
    ensures IsRun(h') && Last(h') == Last(h).(reg := e.reg, subs := e.subs, made := Last(h').made,
                                              threads := Last(h).threads[t := e.pc])
  {
    var made := MadeBy(Last(h).made, Last(h).threads[t], o);
    h' := Extend(h, Run(t, o),
        Last(h).(reg := e.reg, subs := e.subs, made := made, threads := Last(h).threads[t := e.pc]));
  }

  lemma PassCreates(h: History, t: Tid, sub: SubId, id: string, rec: ActivationRecord) returns (h': History)
    requires IsRun(h) && t in Last(h).threads && Last(h).threads[t] == PassNext(false, map[id := rec])
    requires !rec.active && rec.id == id && sub !in Last(h).subs
    ensures IsRun(h')
    ensures Last(h') == Last(h).(subs := Last(h).subs[sub := false], made := Last(h').made,
                                 threads := Last(h).threads[t := Flush(false, rec, sub, map[])])
  {
    var w := Last(h);
    assert map[id := rec] - {id} == map[];
    h' := Advance(h, t, Good(0, id), Effect(Create(false, rec, map[]), w.reg, w.subs));
    h' := Advance(h', t, Good(sub, ""), Effect(Flush(false, rec, sub, map[]), w.reg, w.subs[sub := false]));
    assert Last(h').threads == w.threads[t := Flush(false, rec, sub, map[])];
  }

  // A pass that has listed the only, inactive, registration takes it to an attached subscription.
  lemma PassAttaches(h: History, t: Tid, sub: SubId, id: string, rec: ActivationRecord) returns (h': History)
    requires IsRun(h) && t in Last(h).threads && Last(h).threads[t] == PassNext(false, map[id := rec])
    requires !rec.active && rec.id == id && id in Last(h).reg.entries && sub !in Last(h).subs
    ensures IsRun(h') && Last(h').reg == MarkActive(Last(h).reg, id, Some(sub))
    ensures Last(h').subs == Last(h).subs[sub := false]
    ensures Last(h').threads == Last(h).threads[t := PassNext(false, map[])]
  {
    h' := PassCreates(h, t, sub, id, rec);
    var (reg, subs) := (Last(h').reg, Last(h').subs);
    h' := Advance(h', t, Good(0, ""), Effect(Attach(false, rec, sub, map[]), reg, subs));
    h' := Advance(h', t, Good(0, ""), Effect(PassNext(false, map[]), MarkActive(reg, id, Some(sub)), subs));
  }

  // One registration.
  lemma OneRegistration() returns (h: History, e: EntryV)
    ensures IsRun(h) && Last(h) == World(Last(h).reg, map[], [e.id], map[], map[], map[])
    ensures Last(h).reg.entries == map[e.id := e] && !e.active
  {
    var spec := AddSpec("configure", "a", "", "a", "", Some(0));
    TrimOfClean("configure");
    TrimOfClean("a");
    var reg0 := EMPTY.(nextID := 1);
    e := NewEntry(1, spec);
    var reg := reg0.(entries := map[e.id := e], byKey := map[e.key := e.id]);
    h := History([World(EMPTY, map[], [], map[], map[], map[])], []);
    h := Extend(h, Adding(Race.Reserve(0, spec)),
        World(reg0, map[0 := Race.Pending(1, spec)], [], map[], map[], map[]));
    assert map[0 := Race.Pending(1, spec)] - {0} == map[] && [] + [e.id] == [e.id];
    assert InsertAs(reg0, 1, spec) == (reg, Ok(e)) by {
      assert EMPTY.entries[e.id := e] == map[e.id := e] && EMPTY.byKey[e.key := e.id] == map[e.key := e.id];
    }
    h := Extend(h, Adding(Race.Insert(0)), World(reg, map[], [e.id], map[], map[], map[]));
  }

  // One registration, and two passes that have both listed it.
  lemma TwoPasses() returns (h: History, id: string, rec: ActivationRecord)
    ensures IsRun(h) && Last(h).subs == map[] && id in Last(h).reg.entries
    ensures Last(h).reg.entries.Keys == {id} && !rec.active && rec.id == id
    ensures Last(h).threads == map[0 := PassNext(false, map[id := rec]), 1 := PassNext(false, map[id := rec])]
  {
    var e;
    h, e := OneRegistration();
    id, rec := e.id, RecordOf(e);
    var w := Last(h);
    assert Records(w.reg) == map[id := rec];
    h := Extend(h, Call(0, PassStart(false)), w.(threads := map[0 := PassStart(false)]));
    h := Extend(h, Call(1, PassStart(false)), w.(threads := map[0 := PassStart(false), 1 := PassStart(false)]));
    h := Advance(h, 0, Good(0, ""), Effect(PassNext(false, map[id := rec]), w.reg, map[]));
    h := Advance(h, 1, Good(0, ""), Effect(PassNext(false, map[id := rec]), w.reg, map[]));
  }

  lemma OverlapLosesAHandle() returns (h: History)
    ensures IsRun(h) && 0 in Last(h).subs && !Last(h).subs[0]
    ensures forall k: Holder :: !Holds(Last(h), k, 0)
  {
    var h0, id, rec := TwoPasses();
    h := PassAttaches(h0, 0, 0, id, rec);
    h := PassAttaches(h, 1, 1, id, rec);
    assert Attached(Last(h).reg, id) == Some(1);
    assert Last(h).reg.entries.Keys == {id};
  }

  // ---- exactly when a handle is lost ----

  // The step is one of the two locked sections that write over a handle, and the handle there is still subscribed.
  ghost predicate WritesOver(w: World, a: Action) {
    a.Run? && Overwrites(w.reg, w.subs, At(w, a.t))
  }

  // The handles that passes remember exist.
  ghost predicate Known(subs: map<SubId, bool>, pc: PC) {
    && (forall id: string | id in PendingOf(pc) ::
          PendingOf(pc)[id].activeSub.Some? ==> PendingOf(pc)[id].activeSub.value in subs)
    && (Current(pc).Some? && Current(pc).value.activeSub.Some? ==> Current(pc).value.activeSub.value in subs)
  }

  ghost predicate LooseInv(w: World) {
    Race.Inv(RaceOf(w)) && HandleInv(w) && forall t: Tid :: Known(w.subs, At(w, t))
  }

  lemma PickKnown(reg: RegState, subs: map<SubId, bool>, pc: PC, o: Outcome, e: Effect)
    requires Picks(pc) && PickStep(reg, subs, pc, o) == Some(e) && Known(subs, pc)
    requires forall id: string :: Attached(reg, id).Some? ==> Attached(reg, id).value in subs
    ensures Known(e.subs, e.pc)
  {
    if pc.PassNext? {
      assert PendingOf(pc) == pc.pending;
    } else {
      forall id: string | id in Records(reg) && Records(reg)[id].activeSub.Some?
        ensures Records(reg)[id].activeSub.value in subs
      {
        assert Attached(reg, id) == Records(reg)[id].activeSub;
      }
    }
  }

  lemma OthersKnown(reg: RegState, subs: map<SubId, bool>, pc: PC, o: Outcome, e: Effect)
    requires !Picks(pc) && Step(reg, subs, pc, o) == Some(e)
    ensures PendingOf(e.pc) == PendingOf(pc) || PendingOf(e.pc) == map[]
    ensures Current(e.pc) == Current(pc) || Current(e.pc).None?
  {
  }

  lemma StepKnown(reg: RegState, subs: map<SubId, bool>, pc: PC, o: Outcome, e: Effect)
    requires Step(reg, subs, pc, o) == Some(e) && Known(subs, pc)
    requires forall id: string :: Attached(reg, id).Some? ==> Attached(reg, id).value in subs
    ensures Known(e.subs, e.pc)
  {
    if Picks(pc) {
      PickKnown(reg, subs, pc, o, e);
    } else {
      OthersKnown(reg, subs, pc, o, e);
      StepAttaches(reg, subs, pc, o, e);
    }
  }

  lemma KnownKept(w: World, t: Tid, w': World)
    requires (forall u: Tid :: Known(w.subs, At(w, u))) && Frame(w, t, w')
    requires Known(w'.subs, At(w', t)) && SubsAge(w.subs, w'.subs)
    ensures forall u: Tid :: Known(w'.subs, At(w', u))
  {
  }

  lemma LooseRunKept(w: World, t: Tid, o: Outcome, w': World)
    requires LooseInv(w) && Exec(w, Run(t, o)) == Some(w') && !WritesOver(w, Run(t, o))
    ensures LooseInv(w')
  {
    var e := RunShape(w, t, o, w');
    assert Known(w.subs, At(w, t));
    RegistryKept(w, t, o, w');
    StepTransfer(w.reg, w.subs, At(w, t), o, e);
    StepKnown(w.reg, w.subs, At(w, t), o, e);
    StepAttaches(w.reg, w.subs, At(w, t), o, e);
    HandlesKept(w, t, w');
    KnownKept(w, t, w');
  }

  lemma LooseInvKept(w: World, a: Action, w': World)
    requires LooseInv(w) && Exec(w, a) == Some(w') && !WritesOver(w, a)
    ensures LooseInv(w')
  {
    match a
    case Call(t, pc) =>
      CallShape(w, t, pc, w');
      HandlesKept(w, t, w');
      KnownKept(w, t, w');
    case Run(t, o) => LooseRunKept(w, t, o, w');
    case Adding(section) =>
      AddShape(w, section, w');
      Race.InvKept(RaceOf(w), section, RaceOf(w'));
      HandlesKept(w, 0, w');
      KnownKept(w, 0, w');
  }

  lemma WritingOverLoses(w: World, a: Action, w': World)
    requires HandleInv(w) && Exec(w, a) == Some(w') && WritesOver(w, a)
    ensures !AllHeld(w')
  {
    var e := RunShape(w, a.t, a.o, w');
    var pc := At(w, a.t);
    var s := Attached(w.reg, pc.rec.id).value;
    assert s in w.subs && !w.subs[s] && w'.subs == w.subs;
    Unhold(w.reg, w.subs, pc, a.o, e, s);
    forall h: Holder ensures !Holds(w', h, s) {
    }
  }

  lemma Unhold(reg: RegState, subs: map<SubId, bool>, pc: PC, o: Outcome, e: Effect, s: SubId)
    requires Step(reg, subs, pc, o) == Some(e) && (pc.NoteFailed? || pc.Attach?) && Attached(reg, pc.rec.id) == Some(s)
    requires s !in InHand(pc) && forall id: string :: Attached(reg, id) == Some(s) ==> id == pc.rec.id
    ensures s !in InHand(e.pc) && forall id: string :: Attached(e.reg, id) != Some(s)
  {
    assert pc.Attach? ==> pc.sub in InHand(pc);
    forall id: string ensures Attached(e.reg, id) != Some(s) {
      assert id != pc.rec.id ==> Attached(e.reg, id) == Attached(reg, id);
    }
  }

  lemma {:induction false} LooseReachable(h: History, i: nat)
    requires IsRun(h) && i < |h.ws| && forall j | 0 <= j < i :: !WritesOver(h.ws[j], h.acts[j])
    ensures LooseInv(h.ws[i])
  {
    if i > 0 {
      LooseReachable(h, i - 1);
      LooseInvKept(h.ws[i - 1], h.acts[i - 1], h.ws[i]);
    } else {
      InitInv(h.ws[0]);
      assert forall t: Tid :: At(h.ws[0], t) == Returned;
    }
  }

  // Over all runs, overlapping passes included: every live subscription stays held by somebody iff no step ever writes
  // over a handle that is still subscribed.
  lemma {:induction false} LostIffWrittenOver(h: History, i: nat)
    requires IsRun(h) && i < |h.ws|
    ensures (forall j | 0 <= j <= i :: AllHeld(h.ws[j])) <==> (forall j | 0 <= j < i :: !WritesOver(h.ws[j], h.acts[j]))
  {
    if i > 0 {
      LostIffWrittenOver(h, i - 1);
      if forall j | 0 <= j < i - 1 :: !WritesOver(h.ws[j], h.acts[j]) {
        LooseReachable(h, i - 1);
        if WritesOver(h.ws[i - 1], h.acts[i - 1]) {
          WritingOverLoses(h.ws[i - 1], h.acts[i - 1], h.ws[i]);
        } else {
          LooseReachable(h, i);
        }
      }
    } else {
      LooseReachable(h, 0);
    }
  }
}

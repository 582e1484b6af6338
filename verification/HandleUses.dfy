// What subscriptions are made with, however passes, Adds, removals and clean-ups interleave, overlapping passes
// included: the handle attached to a registration was made with the subject, the queue group and the callback of that
// registration.

module HandleUses {
  import opened Common
  import opened RegistryState
  import opened Registry
  import opened HandleProtocol
  import opened HandleTheorems
  import Race = RegistryRace

  // A record that a pass has listed tells of its own registration, for as long as that exists. No other will ever have
  // its id.
  predicate Fits(reg: RegState, issued: seq<string>, rec: ActivationRecord) {
    rec.id in issued && (rec.id in reg.entries ==> UseFor(rec) == OwnUse(reg.entries[rec.id]))
  }

  ghost predicate PassFits(reg: RegState, issued: seq<string>, pc: PC) {
    && (forall id: string | id in PendingOf(pc) :: Fits(reg, issued, PendingOf(pc)[id]))
    && (Current(pc).Some? ==> Fits(reg, issued, Current(pc).value))
  }

  predicate HandFits(made: map<SubId, Use>, pc: PC) {
    pc.Flush? || pc.Attach? ==> pc.sub in made && made[pc.sub] == UseFor(pc.rec)
  }

  ghost predicate AttachedFit(reg: RegState, made: map<SubId, Use>) {
    forall id | id in reg.entries && reg.entries[id].activeSub.Some? ::
      && reg.entries[id].activeSub.value in made
      && made[reg.entries[id].activeSub.value] == OwnUse(reg.entries[id])
  }

  ghost predicate UsesInv(w: World) {
    && Race.Inv(RaceOf(w))
    && w.made.Keys <= w.subs.Keys
    && AttachedFit(w.reg, w.made)
    && (forall t: Tid :: PassFits(w.reg, w.issued, At(w, t)) && HandFits(w.made, At(w, t)))
  }

  // ---- registrations do not change what they ask for ----

  ghost predicate KeepsUses(reg: RegState, reg': RegState) {
    forall id | id in reg'.entries :: id in reg.entries && OwnUse(reg'.entries[id]) == OwnUse(reg.entries[id])
  }

  lemma OpKeepsUses(reg: RegState, op: Op)
    requires !op.OpAdd?
    ensures KeepsUses(reg, RegistryState.Apply(reg, op))
  {
  }

  lemma StepKeepsUses(reg: RegState, subs: map<SubId, bool>, pc: PC, o: Outcome, e: Effect)
    requires Step(reg, subs, pc, o) == Some(e)
    ensures KeepsUses(reg, e.reg)
  {
    if e.reg != reg {
      var op := RegistryOp(reg, subs, pc, o, e);
      OpKeepsUses(reg, op);
    }
  }

  // ---- one step ----

  lemma ListFits(reg: RegState, issued: seq<string>)
    requires forall id | id in reg.entries :: id in issued
    ensures forall id | id in Records(reg) :: Fits(reg, issued, Records(reg)[id])
  {
    forall id | id in Records(reg) ensures Fits(reg, issued, Records(reg)[id]) {
      RecordUse(reg.entries[id], id);
    }
  }

  lemma RecordUse(e: EntryV, id: string)
    ensures UseFor(RecordOf(e).(id := id)) == OwnUse(e)
  {
  }

  lemma PickFits(reg: RegState, issued: seq<string>, subs: map<SubId, bool>, pc: PC, o: Outcome, e: Effect)
    requires Picks(pc) && PickStep(reg, subs, pc, o) == Some(e) && PassFits(reg, issued, pc)
    requires forall id | id in reg.entries :: id in issued
    ensures e.reg == reg && PassFits(reg, issued, e.pc) && !e.pc.Flush? && !e.pc.Attach?
  {
    ListFits(reg, issued);
    if pc.PassNext? {
      assert PendingOf(pc) == pc.pending;
    }
  }

  lemma OtherStepFits(reg: RegState, issued: seq<string>, subs: map<SubId, bool>, pc: PC, o: Outcome, e: Effect)
    requires !Picks(pc) && Step(reg, subs, pc, o) == Some(e) && PassFits(reg, issued, pc)
    ensures PendingOf(e.pc) == PendingOf(pc) || PendingOf(e.pc) == map[]
    ensures Current(e.pc) == Current(pc) || Current(e.pc).None?
  {
  }

  lemma FitsKept(reg: RegState, reg': RegState, issued: seq<string>, pc: PC)
    requires KeepsUses(reg, reg') && PassFits(reg, issued, pc)
    ensures PassFits(reg', issued, pc)
  {
  }

  lemma HandNext(reg: RegState, subs: map<SubId, bool>, made: map<SubId, Use>, pc: PC, o: Outcome, e: Effect)
    requires Step(reg, subs, pc, o) == Some(e) && HandFits(made, pc)
    ensures HandFits(MadeBy(made, pc, o), e.pc)
    ensures pc.Create? && o.Good? ==> o.sub !in subs && o.sub in e.subs
  {
  }

  lemma MadeNext(reg: RegState, subs: map<SubId, bool>, made: map<SubId, Use>, pc: PC, o: Outcome, e: Effect)
    requires Step(reg, subs, pc, o) == Some(e) && made.Keys <= subs.Keys && HandFits(made, pc)
    ensures MadeBy(made, pc, o).Keys <= e.subs.Keys
    ensures forall s | s in made :: s in MadeBy(made, pc, o) && MadeBy(made, pc, o)[s] == made[s]
  {
    HandNext(reg, subs, made, pc, o, e);
    StepAttaches(reg, subs, pc, o, e);
  }

  // A handle is attached by nothing but Attach: the one in its hand, to the registration that its record tells of.
  lemma AttachedNext(reg: RegState, subs: map<SubId, bool>, pc: PC, o: Outcome, e: Effect, id: string)
    requires Step(reg, subs, pc, o) == Some(e) && id in e.reg.entries && e.reg.entries[id].activeSub.Some?
    ensures id in reg.entries
    ensures || e.reg.entries[id].activeSub == reg.entries[id].activeSub
            || (pc.Attach? && id == pc.rec.id && e.reg.entries[id].activeSub == Some(pc.sub))
  {
  }

  lemma AttachedFits(reg: RegState, issued: seq<string>, subs: map<SubId, bool>, made: map<SubId, Use>,
                     pc: PC, o: Outcome, e: Effect)
    requires Step(reg, subs, pc, o) == Some(e) && made.Keys <= subs.Keys
    requires AttachedFit(reg, made) && PassFits(reg, issued, pc) && HandFits(made, pc)
    ensures AttachedFit(e.reg, MadeBy(made, pc, o))
  {
    MadeNext(reg, subs, made, pc, o, e);
    StepKeepsUses(reg, subs, pc, o, e);
    var made' := MadeBy(made, pc, o);
    forall id | id in e.reg.entries && e.reg.entries[id].activeSub.Some?
      ensures e.reg.entries[id].activeSub.value in made'
      ensures made'[e.reg.entries[id].activeSub.value] == OwnUse(e.reg.entries[id])
    {
      AttachedNext(reg, subs, pc, o, e, id);
      if e.reg.entries[id].activeSub != reg.entries[id].activeSub {
        assert Fits(reg, issued, pc.rec);
      }
    }
  }

  lemma StepFits(reg: RegState, issued: seq<string>, subs: map<SubId, bool>, pc: PC, o: Outcome, e: Effect)
    requires Step(reg, subs, pc, o) == Some(e) && PassFits(reg, issued, pc)
    requires forall id | id in reg.entries :: id in issued
    ensures PassFits(e.reg, issued, e.pc)
  {
    if Picks(pc) {
      PickFits(reg, issued, subs, pc, o, e);
    } else {
      OtherStepFits(reg, issued, subs, pc, o, e);
      StepKeepsUses(reg, subs, pc, o, e);
      FitsKept(reg, e.reg, issued, pc);
    }
  }

  // ---- every step keeps it ----

  lemma RunFits(w: World, t: Tid, o: Outcome, w': World)
    requires UsesInv(w) && Exec(w, Run(t, o)) == Some(w')
    ensures UsesInv(w')
  {
    var e := RunShape(w, t, o, w');
    var pc := At(w, t);
    assert PassFits(w.reg, w.issued, pc) && HandFits(w.made, pc);
    RegistryKept(w, t, o, w');
    MadeNext(w.reg, w.subs, w.made, pc, o, e);
    AttachedFits(w.reg, w.issued, w.subs, w.made, pc, o, e);
    ThreadsFit(w, t, o, w', e);
  }

  lemma ThreadsFit(w: World, t: Tid, o: Outcome, w': World, e: Effect)
    requires UsesInv(w) && Frame(w, t, w') && w'.issued == w.issued
    requires Step(w.reg, w.subs, At(w, t), o) == Some(e)
    requires w'.reg == e.reg && w'.made == MadeBy(w.made, At(w, t), o) && At(w', t) == e.pc
    ensures forall u: Tid :: PassFits(w'.reg, w'.issued, At(w', u)) && HandFits(w'.made, At(w', u))
  {
    forall u: Tid ensures PassFits(w'.reg, w'.issued, At(w', u)) && HandFits(w'.made, At(w', u)) {
      assert PassFits(w.reg, w.issued, At(w, u)) && HandFits(w.made, At(w, u));
      assert PassFits(w.reg, w.issued, At(w, t)) && HandFits(w.made, At(w, t));
      if u == t {
        StepFits(w.reg, w.issued, w.subs, At(w, t), o, e);
        HandNext(w.reg, w.subs, w.made, At(w, t), o, e);
      } else {
        StepKeepsUses(w.reg, w.subs, At(w, t), o, e);
        FitsKept(w.reg, w'.reg, w.issued, At(w, u));
        MadeNext(w.reg, w.subs, w.made, At(w, t), o, e);
      }
    }
  }

  // An Add inserts an entry without a handle, under an id that no record has.
  lemma InsertFits(r: Race.World, a: Race.Action, r': Race.World, pc: PC)
    requires Race.Inv(r) && !a.Other? && Race.Exec(r, a) == Some(r') && PassFits(r.reg, r.issued, pc)
    ensures PassFits(r'.reg, r'.issued, pc)
  {
    forall rec: ActivationRecord | Fits(r.reg, r.issued, rec) ensures Fits(r'.reg, r'.issued, rec) {
      FitsAfterAdd(r, a, r', rec);
    }
  }

  lemma FitsAfterAdd(r: Race.World, a: Race.Action, r': Race.World, rec: ActivationRecord)
    requires Race.Inv(r) && !a.Other? && Race.Exec(r, a) == Some(r') && Fits(r.reg, r.issued, rec)
    ensures Fits(r'.reg, r'.issued, rec)
  {
    if a.Insert? {
      assert rec.id != RegID(r.pending[a.t].n);
    }
  }

  lemma AttachedAfterAdd(r: Race.World, a: Race.Action, r': Race.World, made: map<SubId, Use>)
    requires !a.Other? && Race.Exec(r, a) == Some(r') && AttachedFit(r.reg, made)
    ensures AttachedFit(r'.reg, made)
  {
  }

  lemma AddFits(w: World, section: Race.Action, w': World)
    requires UsesInv(w) && Exec(w, Adding(section)) == Some(w')
    ensures UsesInv(w')
  {
    AddShape(w, section, w');
    Race.InvKept(RaceOf(w), section, RaceOf(w'));
    AttachedAfterAdd(RaceOf(w), section, RaceOf(w'), w.made);
    forall u: Tid ensures PassFits(w'.reg, w'.issued, At(w', u)) && HandFits(w'.made, At(w', u)) {
      assert PassFits(w.reg, w.issued, At(w, u)) && HandFits(w.made, At(w, u));
      InsertFits(RaceOf(w), section, RaceOf(w'), At(w, u));
    }
  }

  lemma CallFits(w: World, t: Tid, pc: PC, w': World)
    requires UsesInv(w) && Exec(w, Call(t, pc)) == Some(w')
    ensures UsesInv(w')
  {
    CallShape(w, t, pc, w');
    forall u: Tid ensures PassFits(w'.reg, w'.issued, At(w', u)) && HandFits(w'.made, At(w', u)) {
      assert PassFits(w.reg, w.issued, At(w, u)) && HandFits(w.made, At(w, u));
    }
  }

  lemma {:induction false} UsesReachable(h: History, i: nat)
    requires IsRun(h) && i < |h.ws|
    ensures UsesInv(h.ws[i])
  {
    if i > 0 {
      UsesReachable(h, i - 1);
      match h.acts[i - 1]
      case Call(t, pc) => CallFits(h.ws[i - 1], t, pc, h.ws[i]);
      case Run(t, o) => RunFits(h.ws[i - 1], t, o, h.ws[i]);
      case Adding(section) => AddFits(h.ws[i - 1], section, h.ws[i]);
    } else {
      assert forall t: Tid :: At(h.ws[0], t) == Returned;
    }
  }

  // In every run, whatever overlaps: a handle attached to a registration was made with its own subject, queue group and
  // callback.
  lemma HandlesAreOwn(h: History, i: nat, id: string)
    requires IsRun(h) && i < |h.ws| && id in h.ws[i].reg.entries && h.ws[i].reg.entries[id].activeSub.Some?
    ensures var (w, e) := (h.ws[i], h.ws[i].reg.entries[id]);
            e.activeSub.value in w.made && w.made[e.activeSub.value] == OwnUse(e)
  {
    UsesReachable(h, i);
  }
}

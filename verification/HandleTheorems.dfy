// Conservation of subscriptions: as long as no two activation passes work on the same registration at the same time,
// nothing is lost, however removals and clean-ups interleave.

module HandleTheorems {
  import opened Common
  import opened RegistryState
  import opened Registry
  import opened HandleProtocol
  import Race = RegistryRace

  ghost predicate HandleInv(w: World) {
    HandlesKnown(w) && OneHolder(w) && AllHeld(w)
  }

  // A subscription that was not unsubscribed has a holder.
  ghost predicate AllHeld(w: World) {
    forall s: SubId | s in w.subs && !w.subs[s] :: exists h: Holder :: Holds(w, h, s)
  }

  ghost predicate HandlesKnown(w: World) {
    && (forall id: string :: Attached(w.reg, id).Some? ==> Attached(w.reg, id).value in w.subs)
    && (forall t: Tid, s: SubId :: s in InHand(At(w, t)) ==> s in w.subs)
  }

  ghost predicate OneHolder(w: World) {
    OneEntry(w) && EntryOrHand(w) && OneHand(w)
  }

  ghost predicate OneEntry(w: World) {
    forall i: string, j: string :: Attached(w.reg, i).Some? && Attached(w.reg, i) == Attached(w.reg, j) ==> i == j
  }

  ghost predicate EntryOrHand(w: World) {
    forall t: Tid, i: string :: Attached(w.reg, i).Some? ==> Attached(w.reg, i).value !in InHand(At(w, t))
  }

  ghost predicate OneHand(w: World) {
    forall t: Tid, u: Tid, s: SubId :: s in InHand(At(w, t)) && s in InHand(At(w, u)) ==> t == u
  }

  // A handle still attached to a listed registration is the one in the list.
  predicate Snapshot(reg: RegState, id: string, rec: ActivationRecord) {
    && rec.id == id && rec.active == rec.activeSub.Some?
    && (Attached(reg, id).Some? ==> Attached(reg, id) == rec.activeSub)
  }

  // What is attached to the registration being activated was unsubscribed before.
  predicate Spent(reg: RegState, subs: map<SubId, bool>, id: string) {
    Attached(reg, id).Some? ==> Attached(reg, id).value in subs && subs[Attached(reg, id).value]
  }

  ghost predicate PassInv(reg: RegState, subs: map<SubId, bool>, pc: PC) {
    && (forall id: string | id in PendingOf(pc) :: Snapshot(reg, id, PendingOf(pc)[id]))
    && (Current(pc).Some? ==>
          if pc.Stale?
          then Snapshot(reg, pc.rec.id, pc.rec) && (pc.rec.activeSub.Some? ==> pc.rec.activeSub.value in subs)
          else Spent(reg, subs, Current(pc).value.id))
    && (forall id: string | id in PendingOf(pc) ::
          PendingOf(pc)[id].activeSub.Some? ==> PendingOf(pc)[id].activeSub.value in subs)
    && (Current(pc).Some? ==> Current(pc).value.id !in PendingOf(pc))
  }

  ghost predicate Inv(w: World) {
    Race.Inv(RaceOf(w)) && HandleInv(w) && forall t: Tid :: PassInv(w.reg, w.subs, At(w, t))
  }

  // ---- the shape of a step ----

  ghost predicate Frame(w: World, t: Tid, w': World) {
    forall u: Tid :: u != t ==> At(w', u) == At(w, u)
  }

  ghost predicate SubsAge(subs: map<SubId, bool>, subs': map<SubId, bool>) {
    forall s: SubId | s in subs :: s in subs' && (subs[s] ==> subs'[s])
  }

  ghost predicate SameHandles(reg: RegState, reg': RegState) {
    forall id: string :: Attached(reg', id) == Attached(reg, id)
  }

  // A step does at most one of these with the handles: create one in hand, unsubscribe one in hand, attach the one in
  // hand in place of a spent one, detach some into the hand, forget a spent one, or call Unsubscribe on a stale one.
  ghost predicate Transfer(reg: RegState, subs: map<SubId, bool>, hand: set<SubId>,
                           reg': RegState, subs': map<SubId, bool>, hand': set<SubId>)
  {
    || (SameHandles(reg, reg') && hand' == hand && subs'.Keys == subs.Keys && SubsAge(subs, subs'))
    || (SameHandles(reg, reg') && hand == {} && exists s: SubId ::
          s !in subs && hand' == {s} && subs' == subs[s := false])
    || (SameHandles(reg, reg') && exists s: SubId :: s in hand && hand' == hand - {s} && subs' == subs[s := true])
    || (subs' == subs && hand' == {} && exists s: SubId, id: string ::
          hand == {s} && Replaces(reg, subs, reg', id, Some(s)))
    || (subs' == subs && hand' == hand && exists id: string :: Replaces(reg, subs, reg', id, None))
    || (subs' == subs && hand == {} && Detached(reg, reg', hand'))
  }

  // Only registration id changes hands, and what it had is spent.
  ghost predicate Replaces(reg: RegState, subs: map<SubId, bool>, reg': RegState, id: string, h: Option<SubId>) {
    Spent(reg, subs, id) && forall j: string :: Attached(reg', j) == if j == id then h else Attached(reg, j)
  }

  ghost predicate Detached(reg: RegState, reg': RegState, hand': set<SubId>) {
    && (forall id: string :: Attached(reg', id) == Attached(reg, id) || Attached(reg', id).None?)
    && (forall id: string :: Attached(reg, id).Some? && Attached(reg', id).None? ==> Attached(reg, id).value in hand')
    && (forall s: SubId | s in hand' :: exists id: string :: Attached(reg, id) == Some(s) && Attached(reg', id).None?)
  }

  // Handles only get attached to a registration that the pass works on.
  ghost predicate AttachesOwn(reg: RegState, pc: PC, reg': RegState) {
    forall id: string :: Attached(reg', id) == Attached(reg, id) || Attached(reg', id).None? || WorksOn(pc, id)
  }

  lemma RunShape(w: World, t: Tid, o: Outcome, w': World) returns (e: Effect)
    requires Exec(w, Run(t, o)) == Some(w')
    ensures Step(w.reg, w.subs, At(w, t), o) == Some(e)
    ensures w'.reg == e.reg && w'.subs == e.subs && At(w', t) == e.pc && Frame(w, t, w')
    ensures w'.adds == w.adds && w'.issued == w.issued && w'.made == MadeBy(w.made, At(w, t), o)
  {
    e := Step(w.reg, w.subs, w.threads[t], o).value;
  }

  // ---- what a step does to handles ----

  // The two sections that write a handle over what is attached, when that is not spent.
  predicate Overwrites(reg: RegState, subs: map<SubId, bool>, pc: PC) {
    (pc.NoteFailed? || pc.Attach?) && !Spent(reg, subs, pc.rec.id)
  }

  lemma ActivateTransfer(reg: RegState, subs: map<SubId, bool>, pc: PC, o: Outcome, e: Effect)
    requires Activates(pc) && ActivateStep(reg, subs, pc, o) == Some(e)
    requires pc.Stale? && pc.rec.activeSub.Some? ==> pc.rec.activeSub.value in subs
    ensures Transfer(reg, subs, InHand(pc), e.reg, e.subs, InHand(e.pc))
  {
    if pc.Undo? || pc.Drop? {
      assert pc.sub in InHand(pc) && InHand(e.pc) == InHand(pc) - {pc.sub};
    } else if pc.Create? && o.Good? {
      assert o.sub !in subs && InHand(e.pc) == {o.sub};
    }
  }

  lemma SettleTransfer(reg: RegState, subs: map<SubId, bool>, pc: PC, o: Outcome, e: Effect)
    requires Settles(pc) && SettleStep(reg, subs, pc, o) == Some(e) && !Overwrites(reg, subs, pc)
    ensures Transfer(reg, subs, InHand(pc), e.reg, e.subs, InHand(e.pc))
  {
    if pc.NoteFailed? {
      assert Replaces(reg, subs, e.reg, pc.rec.id, None);
    } else if pc.rec.id in reg.entries {
      assert InHand(pc) == {pc.sub} && Replaces(reg, subs, e.reg, pc.rec.id, Some(pc.sub));
    }
  }

  lemma CleaningTransfer(reg: RegState, subs: map<SubId, bool>, pc: PC, o: Outcome, e: Effect)
    requires pc.Cleaning? && CleanStep(reg, subs, pc, o) == Some(e)
    ensures Transfer(reg, subs, InHand(pc), e.reg, e.subs, InHand(e.pc))
  {
    assert pc.handles != {} ==> o.sub in InHand(pc);
  }

  lemma ClearTransfer(reg: RegState, subs: map<SubId, bool>, pc: PC, o: Outcome, e: Effect)
    requires pc.ClearCall? && CleanStep(reg, subs, pc, o) == Some(e)
    ensures Transfer(reg, subs, InHand(pc), e.reg, e.subs, InHand(e.pc))
  {
    ClearDetaches(reg);
  }

  lemma RemoveTransfer(reg: RegState, subs: map<SubId, bool>, pc: PC, o: Outcome, e: Effect)
    requires pc.RemoveCall? && CleanStep(reg, subs, pc, o) == Some(e)
    ensures Transfer(reg, subs, InHand(pc), e.reg, e.subs, InHand(e.pc))
  {
    if pc.id in reg.entries {
      RemoveDetaches(reg, pc.id);
      assert e == Effect(Cleaning(OldHandle(reg.entries[pc.id])), Remove(reg, pc.id), subs);
    }
  }

  lemma StepTransfer(reg: RegState, subs: map<SubId, bool>, pc: PC, o: Outcome, e: Effect)
    requires Step(reg, subs, pc, o) == Some(e) && !Overwrites(reg, subs, pc)
    requires pc.Stale? && pc.rec.activeSub.Some? ==> pc.rec.activeSub.value in subs
    requires forall s: SubId | s in InHand(pc) :: s in subs
    ensures Transfer(reg, subs, InHand(pc), e.reg, e.subs, InHand(e.pc))
  {
    if Activates(pc) {
      ActivateTransfer(reg, subs, pc, o, e);
    } else if Settles(pc) {
      SettleTransfer(reg, subs, pc, o, e);
    } else if pc.Cleaning? {
      CleaningTransfer(reg, subs, pc, o, e);
    } else if pc.ClearCall? {
      ClearTransfer(reg, subs, pc, o, e);
    } else if pc.RemoveCall? {
      RemoveTransfer(reg, subs, pc, o, e);
    }
  }

  lemma RemoveDetaches(reg: RegState, id: string)
    requires id in reg.entries
    ensures Detached(reg, Remove(reg, id), OldHandle(reg.entries[id]))
  {
    assert reg.entries[id].activeSub.Some? ==> Attached(reg, id) == reg.entries[id].activeSub;
    assert Attached(Remove(reg, id), id).None?;
  }

  lemma ClearDetaches(reg: RegState)
    ensures Detached(reg, ClearActive(reg), AttachedSubs(reg))
  {
    forall s: SubId | s in AttachedSubs(reg)
      ensures exists id: string :: Attached(reg, id) == Some(s) && Attached(ClearActive(reg), id).None?
    {
      var id :| id in reg.entries && reg.entries[id].activeSub == Some(s);
      assert Attached(reg, id) == Some(s);
    }
  }

  // A handle that is not spent is still held after the step.
  lemma StillHeld(w: World, t: Tid, w': World, s: SubId)
    requires HandleInv(w) && Frame(w, t, w')
    requires Transfer(w.reg, w.subs, InHand(At(w, t)), w'.reg, w'.subs, InHand(At(w', t)))
    requires s in w'.subs && !w'.subs[s]
    ensures exists h: Holder :: Holds(w', h, s)
  {
    if s in InHand(At(w', t)) {
      assert Holds(w', Goroutine(t), s);
    } else {
      assert s in w.subs && !w.subs[s];
      var h: Holder :| Holds(w, h, s);
      if h == Goroutine(t) {
        var id: string :| Attached(w'.reg, id) == Some(s);
        assert Holds(w', Entry(id), s);
      } else {
        assert Holds(w', h, s);
      }
    }
  }

  lemma HandlesKnownKept(w: World, t: Tid, w': World)
    requires HandlesKnown(w) && Frame(w, t, w')
    requires Transfer(w.reg, w.subs, InHand(At(w, t)), w'.reg, w'.subs, InHand(At(w', t)))
    ensures HandlesKnown(w')
  {
  }

  lemma OneEntryKept(w: World, t: Tid, w': World)
    requires HandlesKnown(w) && OneHolder(w) && Frame(w, t, w')
    requires Transfer(w.reg, w.subs, InHand(At(w, t)), w'.reg, w'.subs, InHand(At(w', t)))
    ensures OneEntry(w')
  {
  }

  lemma EntryOrHandKept(w: World, t: Tid, w': World)
    requires HandlesKnown(w) && OneHolder(w) && Frame(w, t, w')
    requires Transfer(w.reg, w.subs, InHand(At(w, t)), w'.reg, w'.subs, InHand(At(w', t)))
    ensures EntryOrHand(w')
  {
  }

  lemma OneHandKept(w: World, t: Tid, w': World)
    requires HandlesKnown(w) && OneHolder(w) && Frame(w, t, w')
    requires Transfer(w.reg, w.subs, InHand(At(w, t)), w'.reg, w'.subs, InHand(At(w', t)))
    ensures OneHand(w')
  {
  }

  lemma OneHolderKept(w: World, t: Tid, w': World)
    requires HandlesKnown(w) && OneHolder(w) && Frame(w, t, w')
    requires Transfer(w.reg, w.subs, InHand(At(w, t)), w'.reg, w'.subs, InHand(At(w', t)))
    ensures OneHolder(w')
  {
    OneEntryKept(w, t, w');
    EntryOrHandKept(w, t, w');
    OneHandKept(w, t, w');
  }

  lemma HandlesKept(w: World, t: Tid, w': World)
    requires HandleInv(w) && Frame(w, t, w')
    requires Transfer(w.reg, w.subs, InHand(At(w, t)), w'.reg, w'.subs, InHand(At(w', t)))
    ensures HandleInv(w')
  {
    HandlesKnownKept(w, t, w');
    OneHolderKept(w, t, w');
    forall s: SubId | s in w'.subs && !w'.subs[s] ensures exists h: Holder :: Holds(w', h, s) {
      StillHeld(w, t, w', s);
    }
  }

  // ---- what a step does to the lists of passes ----

  lemma NextRecord(reg: RegState, subs: map<SubId, bool>, pc: PC, o: Outcome, e: Effect)
    requires pc.PassNext? && PickStep(reg, subs, pc, o) == Some(e) && PassInv(reg, subs, pc)
    ensures PassInv(e.reg, e.subs, e.pc)
  {
    assert PendingOf(pc) == pc.pending;
    if pc.pending != map[] {
      assert Snapshot(reg, o.id, pc.pending[o.id]);
      assert forall id: string | id in pc.pending - {o.id} :: Snapshot(reg, id, pc.pending[id]);
    }
  }

  // Steps inside one activation that leave the registry alone.
  lemma SameRegistryPass(reg: RegState, subs: map<SubId, bool>, pc: PC, o: Outcome, e: Effect)
    requires Activates(pc) && ActivateStep(reg, subs, pc, o) == Some(e) && PassInv(reg, subs, pc)
    ensures PassInv(e.reg, e.subs, e.pc)
  {
    assert PendingOf(e.pc) == PendingOf(pc);
  }

  // The two sections that end an activation only touch its own registration, which is no longer on the list.
  lemma LastSectionPass(reg: RegState, subs: map<SubId, bool>, pc: PC, o: Outcome, e: Effect)
    requires Settles(pc) && SettleStep(reg, subs, pc, o) == Some(e) && PassInv(reg, subs, pc)
    ensures PassInv(e.reg, e.subs, e.pc)
  {
  }

  lemma FirstList(reg: RegState, subs: map<SubId, bool>, pc: PC, o: Outcome, e: Effect)
    requires pc.PassStart? || pc.OneStart?
    requires PickStep(reg, subs, pc, o) == Some(e) && IndexInv(reg)
    requires forall id: string :: Attached(reg, id).Some? ==> Attached(reg, id).value in subs
    ensures PassInv(e.reg, e.subs, e.pc)
  {
    ListIsSnapshot(reg, subs);
    PickStarts(reg, subs, pc, o, e);
    if e.pc.PassNext? {
      PartOfList(reg, subs, e.pc);
    }
  }

  predicate PartOf(pc: PC, records: Pending) {
    pc.PassNext? && forall id | id in pc.pending :: id in records && pc.pending[id] == records[id]
  }

  lemma PickStarts(reg: RegState, subs: map<SubId, bool>, pc: PC, o: Outcome, e: Effect)
    requires pc.PassStart? || pc.OneStart?
    requires PickStep(reg, subs, pc, o) == Some(e)
    ensures e.reg == reg && e.subs == subs
    ensures e.pc == Returned || PartOf(e.pc, Records(reg))
  {
  }

  ghost predicate ListedRecord(reg: RegState, subs: map<SubId, bool>, id: string, rec: ActivationRecord) {
    Snapshot(reg, id, rec) && (rec.activeSub.Some? ==> rec.activeSub.value in subs)
  }

  lemma PartOfList(reg: RegState, subs: map<SubId, bool>, pc: PC)
    requires PartOf(pc, Records(reg))
    requires forall id | id in Records(reg) :: ListedRecord(reg, subs, id, Records(reg)[id])
    ensures PassInv(reg, subs, pc)
  {
    assert PendingOf(pc) == pc.pending && Current(pc).None?;
    forall id | id in PendingOf(pc) ensures ListedRecord(reg, subs, id, PendingOf(pc)[id]) {
    }
  }

  lemma CleanPass(reg: RegState, subs: map<SubId, bool>, pc: PC, o: Outcome, e: Effect)
    requires !Picks(pc) && !Activates(pc) && !Settles(pc) && !pc.Returned? && CleanStep(reg, subs, pc, o) == Some(e)
    ensures PendingOf(e.pc) == map[] && Current(e.pc).None?
  {
  }

  lemma StepPass(reg: RegState, subs: map<SubId, bool>, pc: PC, o: Outcome, e: Effect)
    requires Step(reg, subs, pc, o) == Some(e) && PassInv(reg, subs, pc)
    requires IndexInv(reg) && forall id: string :: Attached(reg, id).Some? ==> Attached(reg, id).value in subs
    ensures PassInv(e.reg, e.subs, e.pc)
  {
    if pc.PassNext? {
      NextRecord(reg, subs, pc, o, e);
    } else if Picks(pc) {
      FirstList(reg, subs, pc, o, e);
    } else if Settles(pc) {
      LastSectionPass(reg, subs, pc, o, e);
    } else if Activates(pc) {
      SameRegistryPass(reg, subs, pc, o, e);
    } else {
      CleanPass(reg, subs, pc, o, e);
    }
  }

  lemma StepAttaches(reg: RegState, subs: map<SubId, bool>, pc: PC, o: Outcome, e: Effect)
    requires Step(reg, subs, pc, o) == Some(e)
    ensures SubsAge(subs, e.subs) && AttachesOwn(reg, pc, e.reg)
  {
  }

  lemma ListIsSnapshot(reg: RegState, subs: map<SubId, bool>)
    requires IndexInv(reg) && forall id: string :: Attached(reg, id).Some? ==> Attached(reg, id).value in subs
    ensures forall id | id in Records(reg) :: ListedRecord(reg, subs, id, Records(reg)[id])
  {
    forall id | id in Records(reg) ensures ListedRecord(reg, subs, id, Records(reg)[id]) {
      assert Attached(reg, id) == Records(reg)[id].activeSub;
    }
  }

  lemma RegistryKept(w: World, t: Tid, o: Outcome, w': World)
    requires Race.Inv(RaceOf(w)) && Exec(w, Run(t, o)) == Some(w')
    ensures Race.Inv(RaceOf(w'))
  {
    var e := RunShape(w, t, o, w');
    if e.reg != w.reg {
      var op := RegistryOp(w.reg, w.subs, At(w, t), o, e);
      Race.OtherKept(RaceOf(w), op, RaceOf(w'));
    }
  }

  // The registry operation behind a step that changes the registry.
  lemma RegistryOp(reg: RegState, subs: map<SubId, bool>, pc: PC, o: Outcome, e: Effect) returns (op: Op)
    requires Step(reg, subs, pc, o) == Some(e) && e.reg != reg
    ensures !op.OpAdd? && e.reg == RegistryState.Apply(reg, op)
  {
    op := match pc
      case NoteFailed(_, rec, err, _) => OpMarkInactive(rec.id, Some(err))
      case Attach(_, rec, sub, _) => OpMarkActive(rec.id, Some(sub))
      case RemoveCall(id) => OpRemove(id)
      case _ => OpClear;
  }

  lemma RunKept(w: World, t: Tid, o: Outcome, w': World)
    requires Inv(w) && NoOverlap(w) && Exec(w, Run(t, o)) == Some(w')
    ensures Inv(w')
  {
    var e := RunShape(w, t, o, w');
    assert PassInv(w.reg, w.subs, At(w, t));
    RegistryKept(w, t, o, w');
    StepTransfer(w.reg, w.subs, At(w, t), o, e);
    StepPass(w.reg, w.subs, At(w, t), o, e);
    StepAttaches(w.reg, w.subs, At(w, t), o, e);
    HandlesKept(w, t, w');
    PassesKept(w, t, w');
  }

  lemma PassesKept(w: World, t: Tid, w': World)
    requires (forall u: Tid :: PassInv(w.reg, w.subs, At(w, u))) && NoOverlap(w) && Frame(w, t, w')
    requires PassInv(w'.reg, w'.subs, At(w', t)) && SubsAge(w.subs, w'.subs) && AttachesOwn(w.reg, At(w, t), w'.reg)
    ensures forall u: Tid :: PassInv(w'.reg, w'.subs, At(w', u))
  {
  }

  lemma NewEntryHandles(reg: RegState, reg': RegState, e: EntryV)
    requires e.id !in reg.entries && e.activeSub.None? && reg'.entries == reg.entries[e.id := e]
    ensures SameHandles(reg, reg')
  {
  }

  lemma AddShape(w: World, section: Race.Action, w': World)
    requires Exec(w, Adding(section)) == Some(w') && Race.Inv(RaceOf(w))
    ensures Race.Exec(RaceOf(w), section) == Some(RaceOf(w'))
    ensures SameHandles(w.reg, w'.reg) && w'.subs == w.subs && w'.made == w.made
    ensures forall u: Tid :: At(w', u) == At(w, u)
  {
    if section.Insert? {
      InsertSameHandles(RaceOf(w), section.t, RaceOf(w'));
    }
  }

  lemma InsertSameHandles(r: Race.World, t: Tid, r': Race.World)
    requires Race.Inv(r) && Race.Exec(r, Race.Insert(t)) == Some(r')
    ensures SameHandles(r.reg, r'.reg)
  {
    var p := r.pending[t];
    var added := InsertAs(r.reg, p.n, p.spec).1;
    if added.Ok? {
      NewEntryHandles(r.reg, r'.reg, added.value);
    }
  }

  lemma AddKept(w: World, section: Race.Action, w': World)
    requires Inv(w) && Exec(w, Adding(section)) == Some(w')
    ensures Inv(w')
  {
    AddShape(w, section, w');
    Race.InvKept(RaceOf(w), section, RaceOf(w'));
    HandlesKept(w, 0, w');
    SamePasses(w, w');
  }

  lemma SamePasses(w: World, w': World)
    requires (forall u: Tid :: PassInv(w.reg, w.subs, At(w, u))) && SameHandles(w.reg, w'.reg) && w'.subs == w.subs
    requires forall u: Tid :: At(w', u) == At(w, u)
    ensures forall u: Tid :: PassInv(w'.reg, w'.subs, At(w', u))
  {
  }

  lemma CallKept(w: World, t: Tid, pc: PC, w': World)
    requires Inv(w) && NoOverlap(w) && Exec(w, Call(t, pc)) == Some(w')
    ensures Inv(w')
  {
    CallShape(w, t, pc, w');
    HandlesKept(w, t, w');
    PassesKept(w, t, w');
  }

  lemma CallShape(w: World, t: Tid, pc: PC, w': World)
    requires Exec(w, Call(t, pc)) == Some(w')
    ensures RaceOf(w') == RaceOf(w) && w'.subs == w.subs && Frame(w, t, w') && At(w, t) == Returned && At(w', t) == pc
    ensures InHand(pc) == {} && PendingOf(pc) == map[] && Current(pc).None?
  {
  }

  lemma InvKept(w: World, a: Action, w': World)
    requires Inv(w) && NoOverlap(w) && Exec(w, a) == Some(w')
    ensures Inv(w')
  {
    match a
    case Call(t, pc) => CallKept(w, t, pc, w');
    case Run(t, o) => RunKept(w, t, o, w');
    case Adding(section) => AddKept(w, section, w');
  }

  // ---- runs ----

  datatype History = History(ws: seq<World>, acts: seq<Action>)

  ghost predicate IsRun(h: History) {
    && |h.ws| == |h.acts| + 1
    && Init(h.ws[0])
    && forall i | 0 <= i < |h.acts| :: Exec(h.ws[i], h.acts[i]) == Some(h.ws[i + 1])
  }

  lemma {:induction false} Reachable(h: History, i: nat)
    requires IsRun(h) && i < |h.ws| && forall j | 0 <= j < i :: NoOverlap(h.ws[j])
    ensures Inv(h.ws[i])
  {
    if i > 0 {
      Reachable(h, i - 1);
      InvKept(h.ws[i - 1], h.acts[i - 1], h.ws[i]);
    } else {
      InitInv(h.ws[0]);
    }
  }

  lemma InitInv(w: World)
    requires Init(w)
    ensures Inv(w)
  {
    assert forall t: Tid :: At(w, t) == Returned && InHand(At(w, t)) == {};
    assert forall id: string :: Attached(w.reg, id).None?;
  }

  ghost predicate HeldOnce(w: World, s: SubId) {
    exists h: Holder :: Holds(w, h, s) && forall g: Holder :: Holds(w, g, s) ==> g == h
  }

  // Without overlapping passes every subscription ever created is attached to exactly one entry, or in the hands of
  // exactly one goroutine, or Unsubscribe was called on it; and nothing ever has two holders.
  lemma HandlesAreConserved(h: History, i: nat, s: SubId)
    requires IsRun(h) && i < |h.ws| && s in h.ws[i].subs
    requires forall j | 0 <= j < i :: NoOverlap(h.ws[j])
    ensures h.ws[i].subs[s] || HeldOnce(h.ws[i], s)
    ensures forall g: Holder, k: Holder :: Holds(h.ws[i], g, s) && Holds(h.ws[i], k, s) ==> g == k
  {
    Reachable(h, i);
    if !h.ws[i].subs[s] {
      var k: Holder :| Holds(h.ws[i], k, s);
      assert forall g: Holder :: Holds(h.ws[i], g, s) ==> g == k;
    }
  }

  // So an overlap is the only way to lose one.
  lemma OnlyOverlapLoses(h: History, i: nat, s: SubId)
    requires IsRun(h) && i < |h.ws| && s in h.ws[i].subs && !h.ws[i].subs[s]
    requires forall k: Holder :: !Holds(h.ws[i], k, s)
    ensures exists j :: 0 <= j < i && !NoOverlap(h.ws[j])
  {
    if forall j | 0 <= j < i :: NoOverlap(h.ws[j]) {
      HandlesAreConserved(h, i, s);
    }
  }
}

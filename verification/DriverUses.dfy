// What the subscriptions of a client are made with: whatever handle is attached to a registration was made with the
// subject, the queue group and the callback of that very registration.

module DriverUses {
  import opened Common
  import opened RegistryState
  import opened Registry
  import opened Driver

  ghost predicate OwnHandles(d: State) {
    forall id | id in d.reg.entries && d.reg.entries[id].activeSub.Some? ::
      && d.reg.entries[id].activeSub.value in d.made
      && d.made[d.reg.entries[id].activeSub.value] == OwnUse(d.reg.entries[id])
  }

  // What earlier subscriptions were made with is not forgotten.
  ghost predicate MadeGrows(d: State, d': State) {
    d.next <= d'.next && forall s: SubId | s < d.next && s in d.made :: s in d'.made && d'.made[s] == d.made[s]
  }

  lemma OwnRecord(e: EntryV)
    ensures UseFor(RecordOf(e)) == OwnUse(e)
  {
  }

  lemma ActivateMakes(d: State, e: EntryV, force: bool, a: Attempt)
    ensures var d' := Activate(d, RecordOf(e), force, a).0;
            d'.made == if (e.active && !force) || a.Refused? then d.made else d.made[d.next := OwnUse(e)]
  {
    OwnRecord(e);
  }

  lemma SwapOwn(d: State, id: string, d': State)
    requires Conserved(d) && OwnHandles(d) && Swaps(d, id, d')
    requires d'.made == if d'.next == d.next then d.made else d.made[d.next := OwnUse(d.reg.entries[id])]
    ensures OwnHandles(d') && MadeGrows(d, d')
  {
    forall j | j in d'.reg.entries && d'.reg.entries[j].activeSub.Some?
      ensures d'.reg.entries[j].activeSub.value in d'.made
      ensures d'.made[d'.reg.entries[j].activeSub.value] == OwnUse(d'.reg.entries[j])
    {
      if j != id {
        assert d'.reg.entries[j] == d.reg.entries[j] && d.reg.entries[j].activeSub.value < d.next;
      } else {
        SameUse(d.reg.entries[id], d'.reg.entries[id]);
      }
    }
  }

  lemma SameUse(e: EntryV, e': EntryV)
    requires SameIntent(e, e')
    ensures OwnUse(e') == OwnUse(e)
  {
  }

  lemma ActivateOwn(d: State, id: string, force: bool, a: Attempt)
    requires Inv(d) && OwnHandles(d) && id in d.reg.entries
    ensures var d' := Activate(d, RecordOf(d.reg.entries[id]), force, a).0; OwnHandles(d') && MadeGrows(d, d')
  {
    var e := d.reg.entries[id];
    ActivateSwaps(d, id, force, a);
    ActivateMakes(d, e, force, a);
    if force || !e.active {
      NextOfActivate(d, e, force, a);
      SwapOwn(d, id, Activate(d, RecordOf(e), force, a).0);
    }
  }

  lemma NextOfActivate(d: State, e: EntryV, force: bool, a: Attempt)
    requires force || !e.active
    ensures Activate(d, RecordOf(e), force, a).0.next == if a.Refused? then d.next else d.next + 1
  {
  }

  // After any pass over registrations, forced or not, and however each attempt turns out: every attached handle was
  // made for the registration that it is attached to.
  lemma {:induction false} PassMakesOwn(d: State, recs: seq<ActivationRecord>, force: bool, env: string -> Attempt)
    requires Inv(d) && OwnHandles(d) && OneEach(recs, d.reg.entries)
    ensures var d' := Pass(d, recs, force, env).0; OwnHandles(d') && MadeGrows(d, d')
  {
    if recs != [] {
      var (front, rec) := (recs[..|recs| - 1], recs[|recs| - 1]);
      LastIsNew(recs, d.reg.entries);
      PassMakesOwn(d, front, force, env);
      PassSettles(d, front, force, env);
      var d1 := Pass(d, front, force, env).0;
      assert d1.reg.entries[rec.id] == d.reg.entries[rec.id];
      RecordDescribes(rec, d.reg.entries[rec.id]);
      ActivateOwn(d1, rec.id, force, env(rec.id));
    }
  }

  lemma DeactivateOwn(d: State)
    ensures OwnHandles(Deactivate(d)) && Deactivate(d).made == d.made
  {
  }

  lemma StartMakesOwn(d: State, recs: seq<ActivationRecord>, env: string -> Attempt)
    requires Inv(d) && OwnHandles(d) && Lists(recs, d.reg.entries)
    ensures OwnHandles(StartSubscriptions(d, recs, env).0)
  {
    PassMakesOwn(d, recs, false, env);
    DeactivateOwn(Pass(d, recs, false, env).0);
  }

  // Registering, whatever comes of it, keeps it so.
  lemma RegisterMakesOwn(d: State, q: Request, quiet: bool, a: Attempt)
    requires Inv(d) && RegInv(d.reg) && OwnHandles(d)
    ensures OwnHandles(Register(d, q, quiet, a).0)
  {
    if Accepts(d, q) {
      var d1, id := Accepted(d, q, quiet, a);
      AddOwn(d, SpecOf(q));
      FinishOwn(d1, id, quiet, a);
    } else {
      RejectedOwn(d, q, quiet, a);
    }
  }

  lemma Accepted(d: State, q: Request, quiet: bool, a: Attempt) returns (d1: State, id: string)
    requires Inv(d) && RegInv(d.reg) && Accepts(d, q)
    ensures d1 == d.(reg := Add(d.reg, SpecOf(q)).0) && Inv(d1) && id in d1.reg.entries
    ensures Register(d, q, quiet, a) == Finish(d1, id, quiet, a)
  {
    var reg1 := Add(d.reg, SpecOf(q)).0;
    d1, id := d.(reg := reg1), RegID(d.reg.nextID + 1);
    assert Inv(d1) by {
      AddKeepsAll(d, SpecOf(q));
    }
    assert id in reg1.entries by {
      AddedInactive(d.reg, SpecOf(q));
    }
    RegisterFinishes(d, q, quiet, a);
  }

  lemma RejectedOwn(d: State, q: Request, quiet: bool, a: Attempt)
    requires OwnHandles(d) && !Accepts(d, q)
    ensures OwnHandles(Register(d, q, quiet, a).0)
  {
  }

  lemma AddOwn(d: State, spec: AddSpec)
    requires RegInv(d.reg) && OwnHandles(d) && Add(d.reg, spec).1.Ok?
    ensures OwnHandles(d.(reg := Add(d.reg, spec).0))
  {
    AddedEntry(d.reg, spec);
  }

  lemma FinishOwn(d: State, id: string, quiet: bool, a: Attempt)
    requires Inv(d) && OwnHandles(d) && id in d.reg.entries
    ensures OwnHandles(Finish(d, id, quiet, a).0)
  {
    if !quiet && !d.reg.entries[id].active {
      ActivateOwn(d, id, false, a);
      RollbackOwn(Activate(d, RecordOf(d.reg.entries[id]), false, a).0, id);
    }
  }

  lemma RollbackOwn(d: State, id: string)
    requires OwnHandles(d)
    ensures OwnHandles(Rollback(d, id))
  {
  }
}

// Activation, restore and deactivation of registered subscriptions, one call at a time, as functions on values; what
// a whole pass achieves (agentcore/handlers_runtime.go).

module Driver {
  import opened Common
  import opened GoStrings
  import opened RegistryState
  import opened Registry

  // The registry, how many subscriptions were created, what each was made with, and on which of them Unsubscribe was
  // called.
  datatype State = State(reg: RegState, next: SubId, made: map<SubId, Use>, unsubbed: set<SubId>)

  // How subscribeInternal turns out for a registration.
  datatype Attempt = Created | Refused(err: string) | FlushFailed(err: string)

  function Unsub(d: State, s: SubId): State {
    d.(unsubbed := d.unsubbed + {s})
  }

  // activateRecord, from creating the subscription on. The flag says whether it returns an error.
  function Subscribe(d: State, rec: ActivationRecord, a: Attempt): (State, bool) {
    match a
    case Refused(e) => (d.(reg := MarkInactive(d.reg, rec.id, Some(e))), true)
    case FlushFailed(e) => (Unsub(Make(d, UseFor(rec)), d.next).(reg := MarkInactive(d.reg, rec.id, Some(e))), true)
    case Created =>
      if rec.id in d.reg.entries then (Make(d, UseFor(rec)).(reg := MarkActive(d.reg, rec.id, Some(d.next))), false)
      else (Unsub(Make(d, UseFor(rec)), d.next), false)
  }

  function Make(d: State, u: Use): State {
    d.(next := d.next + 1, made := d.made[d.next := u])
  }

  // activateRecord
  function Activate(d: State, rec: ActivationRecord, force: bool, a: Attempt): (State, bool) {
    if rec.active && !force then (d, false)
    else Subscribe(if force && rec.activeSub.Some? then Unsub(d, rec.activeSub.value) else d, rec, a)
  }

  // activateRegisteredSubscriptionByID, without force
  function ActivateRegistered(d: State, id: string, a: Attempt): (State, bool) {
    if id !in d.reg.entries || d.reg.entries[id].active then (d, false)
    else Activate(d, RecordOf(d.reg.entries[id]), false, a)
  }

  // A pass over a list of records; the flag says whether any of them failed.
  function Pass(d: State, recs: seq<ActivationRecord>, force: bool, env: string -> Attempt): (State, bool) {
    if recs == [] then (d, false)
    else
      var (d1, failed) := Pass(d, recs[..|recs| - 1], force, env);
      var rec := recs[|recs| - 1];
      var (d2, f) := Activate(d1, rec, force, env(rec.id));
      (d2, failed || f)
  }

  function HandleSet(handles: seq<ActiveHandle>): set<SubId> {
    set i | 0 <= i < |handles| && handles[i].sub.Some? :: handles[i].sub.value
  }

  // deactivateAllSubscriptions
  function Deactivate(d: State): State {
    d.(reg := ClearActive(d.reg), unsubbed := d.unsubbed + AttachedSubs(d.reg))
  }

  // rollbackRegistration
  function Rollback(d: State, id: string): State {
    if id !in d.reg.entries then d
    else
      var sub := d.reg.entries[id].activeSub;
      var d1 := d.(reg := Remove(d.reg, id));
      if sub.Some? then Unsub(d1, sub.value) else d1
  }

  // ---- between calls ----

  // Every subscription is attached to one registration or was unsubscribed, never both.
  ghost predicate Conserved(d: State) {
    && (forall id | id in d.reg.entries && d.reg.entries[id].activeSub.Some? ::
          d.reg.entries[id].activeSub.value < d.next && d.reg.entries[id].activeSub.value !in d.unsubbed)
    && (forall i, j | i in d.reg.entries && j in d.reg.entries && d.reg.entries[i].activeSub.Some? ::
          d.reg.entries[i].activeSub == d.reg.entries[j].activeSub ==> i == j)
    && (forall s: SubId | s < d.next :: s in d.unsubbed || AttachedTo(d, s))
    && (forall s | s in d.unsubbed :: s < d.next)
  }

  ghost predicate AttachedTo(d: State, s: SubId) {
    exists id :: id in d.reg.entries && d.reg.entries[id].activeSub == Some(s)
  }

  ghost predicate Inv(d: State) {
    IndexInv(d.reg) && Conserved(d)
  }

  predicate SameIntent(e: EntryV, e': EntryV) {
    e' == e.(activeSub := e'.activeSub, active := e'.active, lastErr := e'.lastErr)
  }

  // What a pass that started with `next` subscriptions makes of one entry.
  predicate Settled(e: EntryV, e': EntryV, force: bool, a: Attempt, next: SubId) {
    && SameIntent(e, e')
    && if e.active && !force then e' == e
       else if a.Created? then e'.active && e'.activeSub.Some? && e'.activeSub.value >= next && e'.lastErr == ""
       else !e'.active && e'.activeSub.None? && e'.lastErr == a.err
  }

  predicate SameIndex(reg: RegState, reg': RegState) {
    reg'.nextID == reg.nextID && reg'.byKey == reg.byKey && reg'.entries.Keys == reg.entries.Keys
  }

  // One entry gets a new handle or none; its old handle is unsubscribed, and so is a new one that is not attached.
  predicate Swaps(d: State, id: string, d': State) {
    && id in d.reg.entries
    && id in d'.reg.entries
    && d'.reg == d.reg.(entries := d.reg.entries[id := d'.reg.entries[id]])
    && SameIntent(d.reg.entries[id], d'.reg.entries[id])
    && var (e, e') := (d.reg.entries[id], d'.reg.entries[id]);
    && e'.active == e'.activeSub.Some?
    && (|| (e'.activeSub == Some(d.next) && d'.next == d.next + 1 && d'.unsubbed == d.unsubbed + OldHandle(e))
        || (e'.activeSub.None? && d'.next == d.next + 1 && d'.unsubbed == d.unsubbed + OldHandle(e) + {d.next})
        || (e'.activeSub.None? && d'.next == d.next && d'.unsubbed == d.unsubbed + OldHandle(e)))
  }

  lemma SwapKeepsIndex(d: State, id: string, d': State)
    requires IndexInv(d.reg) && Swaps(d, id, d')
    ensures IndexInv(d'.reg) && SameIndex(d.reg, d'.reg)
  {
    UpdateKeeps(d.reg.entries, d.reg.byKey, d'.reg.entries[id]);
  }

  lemma SwapConserves(d: State, id: string, d': State)
    requires Conserved(d) && Swaps(d, id, d')
    ensures Conserved(d')
  {
    forall s: SubId | s < d'.next ensures s in d'.unsubbed || AttachedTo(d', s) {
      if s < d.next && s !in d'.unsubbed {
        assert AttachedTo(d, s);
        var j :| j in d.reg.entries && d.reg.entries[j].activeSub == Some(s);
        assert d'.reg.entries[j].activeSub == Some(s);
      }
    }
  }

  // What subscribing makes of the state: the entry takes the new handle, or none and the error.
  predicate Subscribed(d: State, id: string, a: Attempt, d': State) {
    && id in d.reg.entries && id in d'.reg.entries
    && d'.reg == d.reg.(entries := d.reg.entries[id := d'.reg.entries[id]])
    && SameIntent(d.reg.entries[id], d'.reg.entries[id])
    && var e' := d'.reg.entries[id];
    && e'.activeSub == (if a.Created? then Some(d.next) else None) && e'.active == a.Created?
    && e'.lastErr == (if a.Created? then "" else a.err)
    && d'.next == d.next + (if a.Refused? then 0 else 1)
    && d'.unsubbed == d.unsubbed + if a.FlushFailed? then {d.next} else {}
  }

  lemma SubscribeSwaps(d: State, id: string, a: Attempt)
    requires id in d.reg.entries && d.reg.entries[id].id == id
    ensures var (d', failed) := Subscribe(d, RecordOf(d.reg.entries[id]), a);
            Subscribed(d, id, a, d') && failed == !a.Created?
  {
  }

  // The state after activateRecord has called Unsubscribe on what is attached.
  function Unstale(d: State, e: EntryV, force: bool): State {
    if force && e.activeSub.Some? then Unsub(d, e.activeSub.value) else d
  }

  lemma SubscribedIsSwap(d: State, id: string, force: bool, a: Attempt, d': State)
    requires id in d.reg.entries && d.reg.entries[id].active == d.reg.entries[id].activeSub.Some?
    requires force || !d.reg.entries[id].active
    requires Subscribed(Unstale(d, d.reg.entries[id], force), id, a, d')
    ensures Swaps(d, id, d') && Settled(d.reg.entries[id], d'.reg.entries[id], force, a, d.next)
    ensures d.reg.entries[id].activeSub.Some? ==> d.reg.entries[id].activeSub.value in d'.unsubbed
  {
  }

  lemma ActivateSwaps(d: State, id: string, force: bool, a: Attempt)
    requires IndexInv(d.reg) && id in d.reg.entries
    ensures var (d', failed) := Activate(d, RecordOf(d.reg.entries[id]), force, a);
            var e := d.reg.entries[id];
            && (if e.active && !force then d' == d else Swaps(d, id, d'))
            && id in d'.reg.entries && Settled(e, d'.reg.entries[id], force, a, d.next)
            && failed == Fails(e, force, a)
            && (force && e.activeSub.Some? ==> e.activeSub.value in d'.unsubbed)
  {
    var e := d.reg.entries[id];
    if !(e.active && !force) {
      var d0 := Unstale(d, e, force);
      SubscribeSwaps(d0, id, a);
      SubscribedIsSwap(d, id, force, a, Subscribe(d0, RecordOf(e), a).0);
    }
  }

  lemma ActivateSettles(d: State, id: string, force: bool, a: Attempt)
    requires Inv(d) && id in d.reg.entries
    ensures var (d', failed) := Activate(d, RecordOf(d.reg.entries[id]), force, a);
            var e := d.reg.entries[id];
            && Inv(d') && SameIndex(d.reg, d'.reg)
            && d'.reg.entries == d.reg.entries[id := d'.reg.entries[id]]
            && Settled(e, d'.reg.entries[id], force, a, d.next)
            && failed == Fails(e, force, a)
            && d.next <= d'.next && d.unsubbed <= d'.unsubbed
            && (force && e.activeSub.Some? ==> e.activeSub.value in d'.unsubbed)
  {
    ActivateSwaps(d, id, force, a);
    if !(d.reg.entries[id].active && !force) {
      var d' := Activate(d, RecordOf(d.reg.entries[id]), force, a).0;
      SwapKeepsIndex(d, id, d');
      SwapConserves(d, id, d');
    }
  }

  ghost predicate OneEach(recs: seq<ActivationRecord>, entries: map<string, EntryV>) {
    && (forall i | 0 <= i < |recs| :: recs[i].id in entries && Describes(recs[i], entries[recs[i].id]))
    && (forall i, j | 0 <= i < j < |recs| :: recs[i].id != recs[j].id)
  }

  ghost predicate Listed(recs: seq<ActivationRecord>, id: string) {
    exists i :: 0 <= i < |recs| && recs[i].id == id
  }

  // Every listed entry is settled, with its old handle gone if the pass is forced; the others are as before.
  ghost predicate EntriesSettled(
    d: State, recs: seq<ActivationRecord>, force: bool, env: string -> Attempt, d': State)
  {
    && SameIndex(d.reg, d'.reg)
    && (forall id | id in d.reg.entries ::
          if Listed(recs, id) then
            && Settled(d.reg.entries[id], d'.reg.entries[id], force, env(id), d.next)
            && (force && d.reg.entries[id].activeSub.Some? ==> d.reg.entries[id].activeSub.value in d'.unsubbed)
          else d'.reg.entries[id] == d.reg.entries[id])
  }

  ghost predicate SomeFails(d: State, recs: seq<ActivationRecord>, force: bool, env: string -> Attempt) {
    exists id :: id in d.reg.entries && Listed(recs, id) && Fails(d.reg.entries[id], force, env(id))
  }

  ghost predicate PassResult(
    d: State, recs: seq<ActivationRecord>, force: bool, env: string -> Attempt, d': State, failed: bool)
  {
    && Inv(d') && d.next <= d'.next && d.unsubbed <= d'.unsubbed
    && EntriesSettled(d, recs, force, env, d')
    && failed == SomeFails(d, recs, force, env)
  }

  predicate Fails(e: EntryV, force: bool, a: Attempt) {
    !(e.active && !force) && !a.Created?
  }

  lemma ListedSplits(recs: seq<ActivationRecord>, id: string)
    requires recs != []
    ensures Listed(recs, id) <==> Listed(recs[..|recs| - 1], id) || recs[|recs| - 1].id == id
  {
  }

  lemma LastIsNew(recs: seq<ActivationRecord>, entries: map<string, EntryV>)
    requires recs != [] && OneEach(recs, entries)
    ensures OneEach(recs[..|recs| - 1], entries)
    ensures recs[|recs| - 1].id in entries && recs[|recs| - 1] == RecordOf(entries[recs[|recs| - 1].id])
    ensures !Listed(recs[..|recs| - 1], recs[|recs| - 1].id)
  {
  }

  // A whole pass settles every registration on its list and leaves the others alone.
  lemma {:induction false} PassSettles(d: State, recs: seq<ActivationRecord>, force: bool, env: string -> Attempt)
    requires Inv(d) && OneEach(recs, d.reg.entries)
    ensures PassResult(d, recs, force, env, Pass(d, recs, force, env).0, Pass(d, recs, force, env).1)
  {
    if recs == [] {
      EmptyPass(d, force, env);
    } else {
      LastIsNew(recs, d.reg.entries);
      PassSettles(d, recs[..|recs| - 1], force, env);
      PassGrows(d, recs, force, env);
    }
  }

  lemma EmptyPass(d: State, force: bool, env: string -> Attempt)
    requires Inv(d)
    ensures PassResult(d, [], force, env, d, false)
  {
  }

  lemma PassGrows(d: State, recs: seq<ActivationRecord>, force: bool, env: string -> Attempt)
    requires recs != [] && recs[|recs| - 1].id in d.reg.entries
    requires recs[|recs| - 1] == RecordOf(d.reg.entries[recs[|recs| - 1].id])
    requires !Listed(recs[..|recs| - 1], recs[|recs| - 1].id)
    requires var front := recs[..|recs| - 1];
             PassResult(d, front, force, env, Pass(d, front, force, env).0, Pass(d, front, force, env).1)
    ensures PassResult(d, recs, force, env, Pass(d, recs, force, env).0, Pass(d, recs, force, env).1)
  {
    var (front, id) := (recs[..|recs| - 1], recs[|recs| - 1].id);
    var (d1, failed) := Pass(d, front, force, env);
    var (d', f) := Activate(d1, recs[|recs| - 1], force, env(id));
    assert d1.reg.entries[id] == d.reg.entries[id];
    ActivateSettles(d1, id, force, env(id));
    ResultGrows(d, recs, force, env, d1, failed, d', f);
  }

  // The result of a pass over all but the last record, and what the last one adds.
  lemma ResultGrows(d: State, recs: seq<ActivationRecord>, force: bool, env: string -> Attempt,
                    d1: State, failed: bool, d': State, f: bool)
    requires recs != [] && PassResult(d, recs[..|recs| - 1], force, env, d1, failed)
    requires recs[|recs| - 1].id in d.reg.entries && !Listed(recs[..|recs| - 1], recs[|recs| - 1].id)
    requires Inv(d') && SameIndex(d1.reg, d'.reg) && d1.next <= d'.next && d1.unsubbed <= d'.unsubbed
    requires var (id, e) := (recs[|recs| - 1].id, d.reg.entries[recs[|recs| - 1].id]);
             && d'.reg.entries == d1.reg.entries[id := d'.reg.entries[id]]
             && Settled(e, d'.reg.entries[id], force, env(id), d1.next) && f == Fails(e, force, env(id))
             && (force && e.activeSub.Some? ==> e.activeSub.value in d'.unsubbed)
    ensures PassResult(d, recs, force, env, d', failed || f)
  {
    var (front, id) := (recs[..|recs| - 1], recs[|recs| - 1].id);
    forall j ensures Listed(recs, j) <==> Listed(front, j) || j == id {
      ListedSplits(recs, j);
    }
    SettledGrows(d, front, recs, id, force, env, d1, d');
    FailedGrows(d, front, recs, id, force, env);
  }

  lemma SettledGrows(d: State, front: seq<ActivationRecord>, recs: seq<ActivationRecord>, id: string, force: bool,
                     env: string -> Attempt, d1: State, d': State)
    requires EntriesSettled(d, front, force, env, d1) && id in d.reg.entries && !Listed(front, id)
    requires forall j :: Listed(recs, j) <==> Listed(front, j) || j == id
    requires SameIndex(d1.reg, d'.reg) && d.next <= d1.next && d1.unsubbed <= d'.unsubbed
    requires d'.reg.entries == d1.reg.entries[id := d'.reg.entries[id]]
    requires Settled(d.reg.entries[id], d'.reg.entries[id], force, env(id), d1.next)
    requires force && d.reg.entries[id].activeSub.Some? ==> d.reg.entries[id].activeSub.value in d'.unsubbed
    ensures EntriesSettled(d, recs, force, env, d')
  {
  }

  lemma FailedGrows(
    d: State, front: seq<ActivationRecord>, recs: seq<ActivationRecord>, id: string, force: bool,
    env: string -> Attempt)
    requires id in d.reg.entries && forall j :: Listed(recs, j) <==> Listed(front, j) || j == id
    ensures SomeFails(d, recs, force, env) ==
              (SomeFails(d, front, force, env) || Fails(d.reg.entries[id], force, env(id)))
  {
  }

  // ---- whole calls ----

  ghost predicate SameIntents(reg: RegState, reg': RegState) {
    SameIndex(reg, reg') && forall id | id in reg.entries :: SameIntent(reg.entries[id], reg'.entries[id])
  }

  predicate RestoredEntry(d: State, a: Attempt, d': State, e': EntryV) {
    if a.Created? then e'.active && e'.activeSub.Some? && d.next <= e'.activeSub.value < d'.next && e'.lastErr == ""
    else !e'.active && e'.activeSub.None? && e'.lastErr == a.err
  }

  // What restoreAllRegisteredSubscriptions promises: registrations that succeeded hold a subscription made by this
  // pass, every old one was unsubscribed, failed registrations are inactive and keep their error, and there is an error
  // iff one failed.
  ghost predicate Restored(d: State, env: string -> Attempt, d': State, failed: bool) {
    && Inv(d') && SameIntents(d.reg, d'.reg)
    && (forall id | id in d.reg.entries :: RestoredEntry(d, env(id), d', d'.reg.entries[id]))
    && AttachedSubs(d.reg) <= d'.unsubbed
    && (failed <==> exists id :: id in d.reg.entries && !env(id).Created?)
  }

  lemma RestoreIsExact(d: State, recs: seq<ActivationRecord>, env: string -> Attempt)
    requires Inv(d) && Lists(recs, d.reg.entries)
    ensures var (d', failed) := Pass(d, recs, true, env); Restored(d, env, d', failed)
  {
    PassSettles(d, recs, true, env);
    var (d', failed) := Pass(d, recs, true, env);
    RestoredEntries(d, recs, env, d');
    RestoreFails(d, recs, env);
  }

  predicate AllActive(reg: RegState) {
    forall id | id in reg.entries :: reg.entries[id].active
  }

  // A restore goes through iff it leaves every registration active.
  lemma RestoredIffAllActive(d: State, recs: seq<ActivationRecord>, env: string -> Attempt)
    requires Inv(d) && Lists(recs, d.reg.entries)
    ensures var (d', failed) := Pass(d, recs, true, env); !failed <==> AllActive(d'.reg)
  {
    RestoreIsExact(d, recs, env);
    AllActiveIff(d, env, Pass(d, recs, true, env).0, Pass(d, recs, true, env).1);
  }

  lemma AllActiveIff(d: State, env: string -> Attempt, d': State, failed: bool)
    requires Restored(d, env, d', failed)
    ensures !failed <==> AllActive(d'.reg)
  {
    if id :| id in d.reg.entries && !env(id).Created? {
      assert RestoredEntry(d, env(id), d', d'.reg.entries[id]);
    }
  }

  lemma RestoredEntries(d: State, recs: seq<ActivationRecord>, env: string -> Attempt, d': State)
    requires EntriesSettled(d, recs, true, env, d') && Conserved(d') && Lists(recs, d.reg.entries)
    ensures SameIntents(d.reg, d'.reg) && AttachedSubs(d.reg) <= d'.unsubbed
    ensures forall id | id in d.reg.entries :: RestoredEntry(d, env(id), d', d'.reg.entries[id])
  {
  }

  lemma RestoreFails(d: State, recs: seq<ActivationRecord>, env: string -> Attempt)
    requires Lists(recs, d.reg.entries)
    ensures SomeFails(d, recs, true, env) <==> exists id :: id in d.reg.entries && !env(id).Created?
  {
  }

  ghost predicate SomeInactiveFails(d: State, env: string -> Attempt) {
    exists id :: id in d.reg.entries && !d.reg.entries[id].active && !env(id).Created?
  }

  // What the pass of Start promises: it fails iff some inactive registration cannot be subscribed; registrations that
  // were active before are untouched; if it does not fail, all are active.
  ghost predicate Started(d: State, env: string -> Attempt, d': State, failed: bool) {
    && Inv(d') && SameIntents(d.reg, d'.reg)
    && failed == SomeInactiveFails(d, env)
    && (forall id | id in d.reg.entries && d.reg.entries[id].active :: d'.reg.entries[id] == d.reg.entries[id])
    && (!failed ==> AllActive(d'.reg))
  }

  lemma StartPass(d: State, recs: seq<ActivationRecord>, env: string -> Attempt)
    requires Inv(d) && Lists(recs, d.reg.entries)
    ensures var (d', failed) := Pass(d, recs, false, env); Started(d, env, d', failed)
  {
    PassSettles(d, recs, false, env);
    AllListed(recs, d.reg.entries);
    StartFails(d, recs, env);
    StartedEntries(d, recs, env, Pass(d, recs, false, env).0);
  }

  lemma AllListed(recs: seq<ActivationRecord>, entries: map<string, EntryV>)
    requires Lists(recs, entries)
    ensures forall id | id in entries :: Listed(recs, id)
  {
  }

  lemma StartedEntries(d: State, recs: seq<ActivationRecord>, env: string -> Attempt, d': State)
    requires EntriesSettled(d, recs, false, env, d') && forall id | id in d.reg.entries :: Listed(recs, id)
    ensures SameIntents(d.reg, d'.reg)
    ensures forall id | id in d.reg.entries && d.reg.entries[id].active :: d'.reg.entries[id] == d.reg.entries[id]
    ensures !SomeInactiveFails(d, env) ==> AllActive(d'.reg)
  {
  }

  lemma StartFails(d: State, recs: seq<ActivationRecord>, env: string -> Attempt)
    requires forall id | id in d.reg.entries :: Listed(recs, id)
    ensures SomeFails(d, recs, false, env) <==> SomeInactiveFails(d, env)
  {
  }

  // What deactivateAllSubscriptions promises: no handle is attached any more, and every subscription ever made was
  // unsubscribed.
  ghost predicate AllClear(d: State, d': State) {
    && Inv(d') && SameIntents(d.reg, d'.reg)
    && (forall id | id in d'.reg.entries :: !d'.reg.entries[id].active && d'.reg.entries[id].activeSub.None?)
    && (forall s: SubId | s < d'.next :: s in d'.unsubbed)
  }

  lemma DeactivateClears(d: State)
    requires Inv(d)
    ensures AllClear(d, Deactivate(d))
  {
  }

  // A registration after Start that fails to subscribe is taken back without a trace.
  lemma FailedRegistrationLeavesNoTrace(d: State, spec: AddSpec, a: Attempt)
    requires Inv(d) && RegInv(d.reg) && Add(d.reg, spec).1.Ok? && !a.Created?
    ensures var e := Add(d.reg, spec).1.value;
            var (d1, failed) := Activate(d.(reg := Add(d.reg, spec).0), RecordOf(e), false, a);
            var d' := Rollback(d1, e.id);
            && failed && Inv(d') && d'.reg == d.reg.(nextID := d.reg.nextID + 1)
            && d'.unsubbed == if a.FlushFailed? then d.unsubbed + {d.next} else d.unsubbed
  {
    var (reg1, e) := (Add(d.reg, spec).0, Add(d.reg, spec).1.value);
    RemoveUndoesAdd(d.reg, spec);
    var d1 := Activate(d.(reg := reg1), RecordOf(e), false, a).0;
    RemoveAfterFailure(reg1, e.id, a.err);
    FailureConserves(d, Rollback(d1, e.id));
  }

  lemma RemoveAfterFailure(reg: RegState, id: string, err: string)
    requires id in reg.entries
    ensures Remove(MarkInactive(reg, id, Some(err)), id) == Remove(reg, id)
  {
  }

  lemma FailureConserves(d: State, d': State)
    requires Inv(d) && d'.reg == d.reg.(nextID := d.reg.nextID + 1)
    requires (d'.next == d.next && d'.unsubbed == d.unsubbed)
               || (d'.next == d.next + 1 && d'.unsubbed == d.unsubbed + {d.next})
    ensures Inv(d')
  {
    forall s: SubId | s < d'.next ensures s in d'.unsubbed || AttachedTo(d', s) {
      assert s < d.next ==> s in d.unsubbed || AttachedTo(d, s);
    }
  }

  // ---- registering a handler ----

  // A call of one of the four register functions: the subject is what the builder made of target and action.
  datatype Request = Request(
    kind: string, target: string, action: string, subject: Result<string>, queueGroup: string, handler: Option<nat>)

  datatype Registration = Registered | Rejected(code: Code) | NotSubscribed(err: string)

  // resolveSubscriptionOptions
  predicate QueueOk(queueGroup: string) {
    !ContainsAny(queueGroup, WHITESPACE)
  }

  function SpecOf(q: Request): AddSpec
    requires q.subject.Ok?
  {
    AddSpec(q.kind, q.target, q.action, q.subject.value, q.queueGroup, q.handler)
  }

  // `quiet` is the state before Start has connected: nothing is subscribed yet.
  function Finish(d: State, id: string, quiet: bool, a: Attempt): (State, Registration) {
    if quiet then (d, Registered)
    else
      var (d', failed) := ActivateRegistered(d, id, a);
      if failed then (Rollback(d', id), NotSubscribed(a.err)) else (d', Registered)
  }

  function Register(d: State, q: Request, quiet: bool, a: Attempt): (State, Registration) {
    if q.handler.None? then (d, Rejected(Validation))
    else if q.subject.Err? then (d, Rejected(q.subject.code))
    else if !QueueOk(q.queueGroup) then (d, Rejected(Validation))
    else
      var (reg1, r) := Add(d.reg, SpecOf(q));
      var d1 := d.(reg := reg1);
      if r.Err? then (d1, Rejected(r.code)) else Finish(d1, r.value.id, quiet, a)
  }

  predicate Accepts(d: State, q: Request) {
    q.handler.Some? && q.subject.Ok? && QueueOk(q.queueGroup) && Add(d.reg, SpecOf(q)).1.Ok?
  }

  // The only entry that is new is the one of this request, with a fresh id.
  predicate Joined(reg: RegState, q: Request, reg': RegState, active: bool) {
    var id := RegID(reg.nextID + 1);
    && id !in reg.entries && id in reg'.entries
    && reg'.entries == reg.entries[id := reg'.entries[id]]
    && reg'.entries[id].active == active
    && q.subject.Ok? && reg'.entries[id].subject == q.subject.value && reg'.entries[id].kind == q.kind
    && reg'.entries[id].target == q.target && reg'.entries[id].action == q.action
    && reg'.entries[id].queueGroup == q.queueGroup && Some(reg'.entries[id].callback) == q.handler
  }

  // Nothing but the counter of ids has changed.
  predicate NoTrace(reg: RegState, reg': RegState) {
    reg' == reg.(nextID := reg'.nextID) && reg.nextID <= reg'.nextID
  }

  lemma NewEntryConserves(d: State, id: string, e: EntryV, n: nat, byKey: map<string, string>)
    requires Conserved(d) && id !in d.reg.entries && e.activeSub.None?
    ensures Conserved(d.(reg := RegState(n, d.reg.entries[id := e], byKey)))
  {
    var d' := d.(reg := RegState(n, d.reg.entries[id := e], byKey));
    forall s: SubId | s < d'.next ensures s in d'.unsubbed || AttachedTo(d', s) {
      if s !in d.unsubbed {
        assert AttachedTo(d, s);
        var j :| j in d.reg.entries && d.reg.entries[j].activeSub == Some(s);
        assert d'.reg.entries[j].activeSub == Some(s);
      }
    }
  }

  lemma CounterConserves(d: State, n: nat)
    requires Conserved(d)
    ensures Conserved(d.(reg := d.reg.(nextID := n)))
  {
  }

  lemma AddConserves(d: State, spec: AddSpec)
    requires Conserved(d) && RegInv(d.reg)
    ensures Conserved(d.(reg := Add(d.reg, spec).0))
  {
    var (reg1, r) := Add(d.reg, spec);
    if r.Ok? {
      AddedEntry(d.reg, spec);
      NewEntryConserves(d, r.value.id, r.value, reg1.nextID, reg1.byKey);
    } else if SpecOk(spec) {
      CounterConserves(d, reg1.nextID);
    }
  }

  lemma AddKeepsAll(d: State, spec: AddSpec)
    requires Inv(d) && RegInv(d.reg)
    ensures Inv(d.(reg := Add(d.reg, spec).0)) && RegInv(Add(d.reg, spec).0)
  {
    AddConserves(d, spec);
    AddKeeps(d.reg, spec);
  }

  // reg' is reg with the entry of this request and nothing else.
  predicate JoinedAs(reg: RegState, q: Request, reg': RegState, e: EntryV) {
    && e.id == RegID(reg.nextID + 1) && e.id !in reg.entries && reg'.entries == reg.entries[e.id := e]
    && q.subject.Ok? && e.kind == q.kind && e.subject == q.subject.value && Some(e.callback) == q.handler
    && e.target == q.target && e.action == q.action && e.queueGroup == q.queueGroup
  }

  lemma EntryJoins(reg: RegState, q: Request, reg': RegState, e: EntryV)
    requires JoinedAs(reg, q, reg', e)
    ensures Joined(reg, q, reg', e.active)
  {
  }

  lemma MarkJoins(reg: RegState, q: Request, reg1: RegState, e: EntryV, sub: SubId)
    requires JoinedAs(reg, q, reg1, e)
    ensures Joined(reg, q, MarkActive(reg1, e.id, Some(sub)), true)
  {
    EntryJoins(reg, q, MarkActive(reg1, e.id, Some(sub)), SetSub(e, Some(sub)).(lastErr := ""));
  }

  lemma AddJoins(reg: RegState, q: Request)
    requires RegInv(reg) && q.handler.Some? && q.subject.Ok? && Add(reg, SpecOf(q)).1.Ok?
    ensures JoinedAs(reg, q, Add(reg, SpecOf(q)).0, Add(reg, SpecOf(q)).1.value) && !Add(reg, SpecOf(q)).1.value.active
  {
    AddedEntry(reg, SpecOf(q));
  }

  lemma RegistrationJoins(d: State, q: Request, quiet: bool, reg': RegState)
    requires RegInv(d.reg) && Accepts(d, q)
    requires var reg1 := Add(d.reg, SpecOf(q)).0;
             reg' == if quiet then reg1 else MarkActive(reg1, RegID(d.reg.nextID + 1), Some(d.next))
    ensures Joined(d.reg, q, reg', !quiet)
  {
    AddJoins(d.reg, q);
    var (reg1, e) := (Add(d.reg, SpecOf(q)).0, Add(d.reg, SpecOf(q)).1.value);
    if quiet {
      EntryJoins(d.reg, q, reg1, e);
    } else {
      MarkJoins(d.reg, q, reg1, e, d.next);
    }
  }

  lemma RegisterSucceeds(d: State, q: Request, quiet: bool, a: Attempt)
    requires Inv(d) && RegInv(d.reg) && Accepts(d, q) && (quiet || a.Created?)
    ensures var (d', r) := Register(d, q, quiet, a);
            var reg1 := Add(d.reg, SpecOf(q)).0;
            r == Registered && Inv(d') && RegInv(d'.reg)
            && d'.reg == if quiet then reg1 else MarkActive(reg1, RegID(d.reg.nextID + 1), Some(d.next))
  {
    var reg1 := Add(d.reg, SpecOf(q)).0;
    var (d1, id) := (d.(reg := reg1), RegID(d.reg.nextID + 1));
    assert Inv(d1) && RegInv(reg1) by {
      AddKeepsAll(d, SpecOf(q));
    }
    assert id in reg1.entries && !reg1.entries[id].active by {
      AddedInactive(d.reg, SpecOf(q));
    }
    RegisterFinishes(d, q, quiet, a);
    FinishKeeps(d1, id, quiet, a);
  }

  lemma AddedInactive(reg: RegState, spec: AddSpec)
    requires RegInv(reg) && Add(reg, spec).1.Ok?
    ensures var (reg1, id) := (Add(reg, spec).0, RegID(reg.nextID + 1));
            Add(reg, spec).1.value.id == id && id in reg1.entries && !reg1.entries[id].active
  {
    AddedEntry(reg, spec);
  }

  lemma FinishKeeps(d: State, id: string, quiet: bool, a: Attempt)
    requires Inv(d) && RegInv(d.reg) && id in d.reg.entries && !d.reg.entries[id].active && (quiet || a.Created?)
    ensures var (d', r) := Finish(d, id, quiet, a);
            && r == Registered && Inv(d') && RegInv(d'.reg)
            && d'.reg == if quiet then d.reg else MarkActive(d.reg, id, Some(d.next))
  {
    if !quiet {
      FirstActivation(d, id, a);
    }
  }

  lemma RegisterFinishes(d: State, q: Request, quiet: bool, a: Attempt)
    requires RegInv(d.reg) && Accepts(d, q)
    ensures Register(d, q, quiet, a) == Finish(d.(reg := Add(d.reg, SpecOf(q)).0), RegID(d.reg.nextID + 1), quiet, a)
  {
    AddedInactive(d.reg, SpecOf(q));
  }

  lemma FirstActivation(d: State, id: string, a: Attempt)
    requires Inv(d) && RegInv(d.reg) && id in d.reg.entries && !d.reg.entries[id].active && a.Created?
    ensures var (d', failed) := Activate(d, RecordOf(d.reg.entries[id]), false, a);
            !failed && Inv(d') && RegInv(d'.reg) && d'.reg == MarkActive(d.reg, id, Some(d.next))
  {
    ActivateSettles(d, id, false, a);
    OpKeeps(d.reg, OpMarkActive(id, Some(d.next)));
  }

  // What registering promises: the request joins the registry as the only change, subscribed unless the client has not
  // started yet, or it leaves no trace: no entry, no key, and no subscription that was not taken back.
  ghost predicate AllOrNothing(d: State, q: Request, quiet: bool, d': State, r: Registration) {
    && Inv(d') && RegInv(d'.reg)
    && if r == Registered then Joined(d.reg, q, d'.reg, !quiet) else NoTrace(d.reg, d'.reg) && TakenBack(d, d')
  }

  ghost predicate TakenBack(d: State, d': State) {
    forall s | d.next <= s < d'.next :: s in d'.unsubbed
  }

  lemma RegisterJoins(d: State, q: Request, quiet: bool, a: Attempt)
    requires Inv(d) && RegInv(d.reg) && Accepts(d, q) && (quiet || a.Created?)
    ensures Register(d, q, quiet, a).1 == Registered
    ensures AllOrNothing(d, q, quiet, Register(d, q, quiet, a).0, Registered)
  {
    RegisterSucceeds(d, q, quiet, a);
    RegistrationJoins(d, q, quiet, Register(d, q, quiet, a).0.reg);
  }

  lemma RegisterUndone(d: State, q: Request, a: Attempt)
    requires Inv(d) && RegInv(d.reg) && Accepts(d, q) && !a.Created?
    ensures Register(d, q, false, a).1 == NotSubscribed(a.err)
    ensures AllOrNothing(d, q, false, Register(d, q, false, a).0, NotSubscribed(a.err))
  {
    FailedRegistrationLeavesNoTrace(d, SpecOf(q), a);
    var (reg1, e) := (Add(d.reg, SpecOf(q)).0, Add(d.reg, SpecOf(q)).1.value);
    var (d1, failed) := Activate(d.(reg := reg1), RecordOf(e), false, a);
    var d' := Rollback(d1, e.id);
    AddedEntry(d.reg, SpecOf(q));
    assert ActivateRegistered(d.(reg := reg1), e.id, a) == (d1, failed);
    assert Register(d, q, false, a) == (d', NotSubscribed(a.err));
    CounterOnly(d.reg, d'.reg);
  }

  lemma RegisterRejected(d: State, q: Request, quiet: bool, a: Attempt)
    requires Inv(d) && RegInv(d.reg) && !Accepts(d, q)
    ensures Register(d, q, quiet, a).1.Rejected?
    ensures AllOrNothing(d, q, quiet, Register(d, q, quiet, a).0, Register(d, q, quiet, a).1)
  {
    if q.handler.Some? && q.subject.Ok? && QueueOk(q.queueGroup) {
      AddKeepsAll(d, SpecOf(q));
      RejectedAdd(d.reg, SpecOf(q));
    }
  }

  predicate HasWhitespace(s: string) {
    exists i :: 0 <= i < |s| && (s[i] == ' ' || s[i] == '\t' || s[i] == '\r' || s[i] == '\n')
  }

  // Why a registration is rejected, in this order: no handler, no subject, whitespace in the queue group, or what the
  // registry says.
  lemma RejectedWhy(d: State, q: Request, quiet: bool, a: Attempt)
    ensures var r := Register(d, q, quiet, a).1;
            if q.handler.None? then r == Rejected(Validation)
            else if q.subject.Err? then r == Rejected(q.subject.code)
            else if HasWhitespace(q.queueGroup) then r == Rejected(Validation)
            else
              var added := Add(d.reg, SpecOf(q)).1;
              if added.Err? then r == Rejected(added.code) else !r.Rejected?
  {
    QueueTest(q.queueGroup);
  }

  lemma QueueTest(queueGroup: string)
    ensures QueueOk(queueGroup) <==> !HasWhitespace(queueGroup)
  {
  }

  lemma RejectedAdd(reg: RegState, spec: AddSpec)
    requires Add(reg, spec).1.Err?
    ensures NoTrace(reg, Add(reg, spec).0)
  {
  }

  lemma RegisterAllOrNothing(d: State, q: Request, quiet: bool, a: Attempt)
    requires Inv(d) && RegInv(d.reg)
    ensures AllOrNothing(d, q, quiet, Register(d, q, quiet, a).0, Register(d, q, quiet, a).1)
    ensures Register(d, q, quiet, a).1 == Registered <==> Accepts(d, q) && (quiet || a.Created?)
  {
    if !Accepts(d, q) {
      RegisterRejected(d, q, quiet, a);
    } else if quiet || a.Created? {
      RegisterJoins(d, q, quiet, a);
    } else {
      RegisterUndone(d, q, a);
    }
  }

  lemma CounterOnly(reg: RegState, reg': RegState)
    requires RegInv(reg) && NoTrace(reg, reg')
    ensures RegInv(reg')
  {
  }

  // ---- Start ----

  // The part of Start that comes after the session.
  function StartSubscriptions(d: State, recs: seq<ActivationRecord>, env: string -> Attempt): (State, bool) {
    var (d1, failed) := Pass(d, recs, false, env);
    if failed then (Deactivate(d1), true) else (d1, false)
  }

  lemma IntentsCompose(a: RegState, b: RegState, c: RegState)
    requires SameIntents(a, b) && SameIntents(b, c)
    ensures SameIntents(a, c)
  {
  }

  // Whatever the pass managed to subscribe is undone, even handles that were there before.
  lemma CleanUpClears(d: State, env: string -> Attempt, d1: State)
    requires Started(d, env, d1, true)
    ensures AllClear(d, Deactivate(d1))
  {
    DeactivateClears(d1);
    IntentsCompose(d.reg, d1.reg, Deactivate(d1).reg);
  }

  // All or nothing. Start fails iff some registration that is not active cannot be subscribed, and then none is active
  // and every subscription was unsubscribed. Otherwise all are active, and those that were keep their handle. The
  // registrations themselves are the same either way.
  lemma StartIsAllOrNothing(d: State, recs: seq<ActivationRecord>, env: string -> Attempt)
    requires Inv(d) && Lists(recs, d.reg.entries)
    ensures var (d', failed) := StartSubscriptions(d, recs, env);
            && failed == SomeInactiveFails(d, env)
            && if failed then AllClear(d, d') else Started(d, env, d', false)
  {
    StartPass(d, recs, env);
    if Pass(d, recs, false, env).1 {
      CleanUpClears(d, env, Pass(d, recs, false, env).0);
    }
  }
}

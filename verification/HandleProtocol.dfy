// Who holds which subscription while activation passes, removals and mass clean-ups of a client run side by side
// (agentcore/handlers_runtime.go over internal/registry). One step for each locked section and each call to NATS.

module HandleProtocol {
  import opened Common
  import opened RegistryState
  import opened Registry
  import Race = RegistryRace

  type Tid = nat
  type Pending = map<string, ActivationRecord>

  datatype PC =
    // activateAllRegisteredSubscriptions and, with force, restoreAllRegisteredSubscriptions
    | PassStart(force: bool)
    // activateRegisteredSubscriptionByID
    | OneStart(id: string, force: bool)
    | PassNext(force: bool, pending: Pending)
    // activateRecord and subscribeInternal
    | Stale(force: bool, rec: ActivationRecord, pending: Pending)
    | Create(force: bool, rec: ActivationRecord, pending: Pending)
    | Flush(force: bool, rec: ActivationRecord, sub: SubId, pending: Pending)
    | Undo(force: bool, rec: ActivationRecord, sub: SubId, err: string, pending: Pending)
    | NoteFailed(force: bool, rec: ActivationRecord, err: string, pending: Pending)
    | Attach(force: bool, rec: ActivationRecord, sub: SubId, pending: Pending)
    | Drop(force: bool, sub: SubId, pending: Pending)
    // rollbackRegistration and deactivateAllSubscriptions
    | RemoveCall(id: string)
    | ClearCall
    | Cleaning(handles: set<SubId>)
    | Returned

  // `adds` has the Adds that wait for the mutex of the registry, `issued` the ids that Adds have returned. `subs` has
  // every subscription ever created; the flag says whether Unsubscribe was called on it. `made` says what each was made
  // with.
  datatype World = World(
    reg: RegState, adds: map<Tid, Race.Pending>, issued: seq<string>, subs: map<SubId, bool>, made: map<SubId, Use>,
    threads: map<Tid, PC>)

  // A step that creates a subscription names it; one that picks the next record or handle names that.
  datatype Outcome = Good(sub: SubId, id: string) | Bad(err: string)

  datatype Action = Call(t: Tid, pc: PC) | Run(t: Tid, o: Outcome) | Adding(section: Race.Action)

  predicate Init(w: World) {
    w == World(EMPTY, map[], [], map[], map[], map[])
  }

  // What concerns Adds.
  function RaceOf(w: World): Race.World {
    Race.World(w.reg, w.adds, w.issued)
  }

  function Records(reg: RegState): Pending {
    map id | id in reg.entries :: RecordOf(reg.entries[id]).(id := id)
  }

  function Exec(w: World, a: Action): Option<World> {
    match a
    case Call(t, pc) =>
      if t in w.threads || !(pc.PassStart? || pc.OneStart? || pc.RemoveCall? || pc.ClearCall?) then None
      else Some(w.(threads := w.threads[t := pc]))
    case Adding(section) =>
      if section.Other? then None else
      var r := Race.Exec(RaceOf(w), section);
      if r.None? then None
      else Some(w.(reg := r.value.reg, adds := r.value.pending, issued := r.value.issued))
    case Run(t, o) =>
      if t !in w.threads then None else
      var e := Step(w.reg, w.subs, w.threads[t], o);
      if e.None? then None
      else
        Some(w.(reg := e.value.reg, subs := e.value.subs, made := MadeBy(w.made, w.threads[t], o),
                threads := w.threads[t := e.value.pc]))
  }

  // subscribeInternal creates the subscription for the record it was called with.
  function MadeBy(made: map<SubId, Use>, pc: PC, o: Outcome): map<SubId, Use> {
    if pc.Create? && o.Good? then made[o.sub := UseFor(pc.rec)] else made
  }

  datatype Effect = Effect(pc: PC, reg: RegState, subs: map<SubId, bool>)

  predicate Picks(pc: PC) {
    pc.PassStart? || pc.OneStart? || pc.PassNext?
  }

  predicate Activates(pc: PC) {
    pc.Stale? || pc.Create? || pc.Flush? || pc.Undo? || pc.Drop?
  }

  predicate Settles(pc: PC) {
    pc.NoteFailed? || pc.Attach?
  }

  function Step(reg: RegState, subs: map<SubId, bool>, pc: PC, o: Outcome): Option<Effect> {
    if Picks(pc) then PickStep(reg, subs, pc, o)
    else if Activates(pc) then ActivateStep(reg, subs, pc, o)
    else if Settles(pc) then SettleStep(reg, subs, pc, o)
    else if pc.Returned? then None
    else CleanStep(reg, subs, pc, o)
  }

  // A pass lists its records and picks the next one.
  function PickStep(reg: RegState, subs: map<SubId, bool>, pc: PC, o: Outcome): Option<Effect>
    requires Picks(pc)
  {
    match pc
    case PassStart(force) => Some(Effect(PassNext(force, Records(reg)), reg, subs))
    case OneStart(id, force) =>
      if id !in reg.entries || (reg.entries[id].active && !force) then Some(Effect(Returned, reg, subs))
      else Some(Effect(PassNext(force, map[id := Records(reg)[id]]), reg, subs))
    case PassNext(force, pending) =>
      if pending == map[] then Some(Effect(Returned, reg, subs))
      else if o.Bad? || o.id !in pending then None
      else
        var (rec, rest) := (pending[o.id], pending - {o.id});
        if rec.active && !force then Some(Effect(PassNext(force, rest), reg, subs))
        else if force && rec.activeSub.Some? then Some(Effect(Stale(force, rec, rest), reg, subs))
        else Some(Effect(Create(force, rec, rest), reg, subs))
  }

  // The calls to NATS in between.
  function ActivateStep(reg: RegState, subs: map<SubId, bool>, pc: PC, o: Outcome): Option<Effect>
    requires Activates(pc)
  {
    match pc
    case Stale(force, rec, rest) =>
      if rec.activeSub.None? then None
      else Some(Effect(Create(force, rec, rest), reg, subs[rec.activeSub.value := true]))
    case Create(force, rec, rest) =>
      if o.Bad? then Some(Effect(NoteFailed(force, rec, o.err, rest), reg, subs))
      else if o.sub in subs then None
      else Some(Effect(Flush(force, rec, o.sub, rest), reg, subs[o.sub := false]))
    case Flush(force, rec, sub, rest) =>
      if o.Bad? then Some(Effect(Undo(force, rec, sub, o.err, rest), reg, subs))
      else Some(Effect(Attach(force, rec, sub, rest), reg, subs))
    case Undo(force, rec, sub, err, rest) => Some(Effect(NoteFailed(force, rec, err, rest), reg, subs[sub := true]))
    case Drop(force, sub, rest) => Some(Effect(PassNext(force, rest), reg, subs[sub := true]))
  }

  // The two locked sections that end an activation.
  function SettleStep(reg: RegState, subs: map<SubId, bool>, pc: PC, o: Outcome): Option<Effect>
    requires Settles(pc)
  {
    match pc
    case NoteFailed(force, rec, err, rest) =>
      Some(Effect(PassNext(force, rest), MarkInactive(reg, rec.id, Some(err)), subs))
    case Attach(force, rec, sub, rest) =>
      if rec.id in reg.entries then Some(Effect(PassNext(force, rest), MarkActive(reg, rec.id, Some(sub)), subs))
      else Some(Effect(Drop(force, sub, rest), reg, subs))
  }

  function CleanStep(reg: RegState, subs: map<SubId, bool>, pc: PC, o: Outcome): Option<Effect>
    requires !Picks(pc) && !Activates(pc) && !Settles(pc) && !pc.Returned?
  {
    match pc
    case RemoveCall(id) =>
      if id !in reg.entries then Some(Effect(Returned, reg, subs))
      else Some(Effect(Cleaning(OldHandle(reg.entries[id])), Remove(reg, id), subs))
    case ClearCall => Some(Effect(Cleaning(AttachedSubs(reg)), ClearActive(reg), subs))
    case Cleaning(handles) =>
      if handles == {} then Some(Effect(Returned, reg, subs))
      else if o.Bad? || o.sub !in handles then None
      else Some(Effect(Cleaning(handles - {o.sub}), reg, subs[o.sub := true]))
  }

  // ---- who holds what ----

  function At(w: World, t: Tid): PC {
    if t in w.threads then w.threads[t] else Returned
  }

  function Attached(reg: RegState, id: string): Option<SubId> {
    if id in reg.entries then reg.entries[id].activeSub else None
  }

  // The subscriptions a goroutine still has to attach or to unsubscribe.
  function InHand(pc: PC): set<SubId> {
    match pc
    case Flush(_, _, sub, _) => {sub}
    case Undo(_, _, sub, _, _) => {sub}
    case Attach(_, _, sub, _) => {sub}
    case Drop(_, sub, _) => {sub}
    case Cleaning(handles) => handles
    case _ => {}
  }

  datatype Holder = Entry(id: string) | Goroutine(t: Tid)

  predicate Holds(w: World, h: Holder, s: SubId) {
    match h
    case Entry(id) => Attached(w.reg, id) == Some(s)
    case Goroutine(t) => s in InHand(At(w, t))
  }

  // ---- activation passes that overlap ----

  function PendingOf(pc: PC): Pending {
    match pc
    case PassNext(_, p) => p
    case Stale(_, _, p) => p
    case Create(_, _, p) => p
    case Flush(_, _, _, p) => p
    case Undo(_, _, _, _, p) => p
    case NoteFailed(_, _, _, p) => p
    case Attach(_, _, _, p) => p
    case Drop(_, _, p) => p
    case _ => map[]
  }

  function Current(pc: PC): Option<ActivationRecord> {
    match pc
    case Stale(_, r, _) => Some(r)
    case Create(_, r, _) => Some(r)
    case Flush(_, r, _, _) => Some(r)
    case Undo(_, r, _, _, _) => Some(r)
    case NoteFailed(_, r, _, _) => Some(r)
    case Attach(_, r, _, _) => Some(r)
    case _ => None
  }

  // The registrations a pass has listed and not finished with.
  predicate WorksOn(pc: PC, id: string) {
    id in PendingOf(pc) || (Current(pc).Some? && Current(pc).value.id == id)
  }

  ghost predicate NoOverlap(w: World) {
    forall t: Tid, u: Tid, id: string :: WorksOn(At(w, t), id) && WorksOn(At(w, u), id) ==> t == u
  }
}

// Adds that interleave: the counter is bumped before the mutex of the registry is taken, so between the two sections of
// one Add any other operation may run, other Adds included (internal/registry/registry.go).

module RegistryRace {
  import opened Common
  import opened RegistryState

  type Tid = nat

  // An Add that has its number and waits for the mutex.
  datatype Pending = Pending(n: nat, spec: AddSpec)

  // `issued` has the ids that successful Adds returned, in order.
  datatype World = World(reg: RegState, pending: map<Tid, Pending>, issued: seq<string>)

  datatype Action = Reserve(t: Tid, spec: AddSpec) | Insert(t: Tid) | Other(op: Op)

  predicate Init(w: World) {
    w == World(EMPTY, map[], [])
  }

  function Exec(w: World, a: Action): Option<World> {
    match a
    case Reserve(t, spec) =>
      if t in w.pending || !SpecOk(spec) then None
      else
        var n := w.reg.nextID + 1;
        Some(w.(reg := w.reg.(nextID := n), pending := w.pending[t := Pending(n, spec)]))
    case Insert(t) =>
      if t !in w.pending || w.pending[t].spec.callback.None? then None
      else
        var (reg', r) := InsertAs(w.reg, w.pending[t].n, w.pending[t].spec);
        Some(World(reg', w.pending - {t}, if r.Ok? then w.issued + [r.value.id] else w.issued))
    case Other(op) => if op.OpAdd? then None else Some(w.(reg := Apply(w.reg, op)))
  }

  // Run without interruption, the two sections are the Add of RegistryState.
  lemma AddIsReserveInsert(s: RegState, spec: AddSpec)
    requires SpecOk(spec)
    ensures Add(s, spec) == InsertAs(s.(nextID := s.nextID + 1), s.nextID + 1, spec)
  {
  }

  // What the two sections do: the first takes the next number; the second, if the key is not taken by then, inserts the
  // entry of its specification under that number, with no handle, and else changes nothing.
  lemma SectionsDo(w: World, a: Action, w': World)
    requires Exec(w, a) == Some(w') && !a.Other?
    ensures a.Reserve? ==>
              && w'.reg == w.reg.(nextID := w.reg.nextID + 1) && w'.issued == w.issued
              && w'.pending == w.pending[a.t := Pending(w'.reg.nextID, a.spec)]
    ensures a.Insert? ==>
              var (n, spec) := (w.pending[a.t].n, w.pending[a.t].spec);
              var (id, key) := (RegID(n), RegistrationKey(spec.kind, spec.subject, spec.queueGroup));
              && w'.pending == w.pending - {a.t}
              && if key in w.reg.byKey then w'.reg == w.reg && w'.issued == w.issued
                 else
                   && spec.callback.Some? && w'.issued == w.issued + [id] && w'.reg.nextID == w.reg.nextID
                   && w'.reg.byKey == w.reg.byKey[key := id]
                   && w'.reg.entries == w.reg.entries[id := EntryV(
                        id, key, spec.kind, spec.target, spec.action, spec.subject, spec.queueGroup,
                        spec.callback.value, None, false, "")]
  {
  }

  // ---- what every step keeps ----

  // A number in the hands of one Add is in nobody else's, and has not been issued.
  ghost predicate PendingInv(n: nat, pending: map<Tid, Pending>, issued: seq<string>) {
    && (forall t | t in pending ::
          1 <= pending[t].n <= n && pending[t].spec.callback.Some? && RegID(pending[t].n) !in issued)
    && (forall t, u | t in pending && u in pending && pending[t].n == pending[u].n :: t == u)
  }

  ghost predicate Numbered(n: nat, id: string) {
    exists k: nat :: 1 <= k <= n && id == RegID(k)
  }

  ghost predicate IssuedOnce(n: nat, issued: seq<string>) {
    && (forall id | id in issued :: Numbered(n, id))
    && (forall i, j | 0 <= i < j < |issued| :: issued[i] != issued[j])
  }

  ghost predicate Inv(w: World) {
    && IndexInv(w.reg)
    && PendingInv(w.reg.nextID, w.pending, w.issued)
    && IssuedOnce(w.reg.nextID, w.issued)
    && forall id | id in w.reg.entries :: id in w.issued
  }

  lemma NumberedGrows(n: nat, id: string)
    requires Numbered(n, id)
    ensures Numbered(n + 1, id) && id != RegID(n + 1)
  {
    var k: nat :| 1 <= k <= n && id == RegID(k);
    if id == RegID(n + 1) {
      RegIDInjective(n + 1, k);
    }
  }

  lemma ReserveKept(w: World, t: Tid, spec: AddSpec, w': World)
    requires Inv(w) && Exec(w, Reserve(t, spec)) == Some(w')
    ensures Inv(w')
  {
    var (n, pending) := (w.reg.nextID, w.pending);
    assert w' == World(w.reg.(nextID := n + 1), pending[t := Pending(n + 1, spec)], w.issued);
    PendingKept(n, pending, w.issued, t, spec);
  }

  lemma PendingKept(n: nat, pending: map<Tid, Pending>, issued: seq<string>, t: Tid, spec: AddSpec)
    requires PendingInv(n, pending, issued) && IssuedOnce(n, issued) && t !in pending && SpecOk(spec)
    ensures PendingInv(n + 1, pending[t := Pending(n + 1, spec)], issued) && IssuedOnce(n + 1, issued)
  {
    forall id | id in issued ensures Numbered(n + 1, id) && id != RegID(n + 1) {
      NumberedGrows(n, id);
    }
  }

  lemma IssueKept(n: nat, pending: map<Tid, Pending>, issued: seq<string>, t: Tid)
    requires PendingInv(n, pending, issued) && IssuedOnce(n, issued) && t in pending
    ensures PendingInv(n, pending - {t}, issued + [RegID(pending[t].n)])
              && IssuedOnce(n, issued + [RegID(pending[t].n)])
  {
    var (id, more) := (RegID(pending[t].n), issued + [RegID(pending[t].n)]);
    forall u | u in pending - {t} ensures RegID(pending[u].n) !in more {
      if RegID(pending[u].n) == id {
        RegIDInjective(pending[u].n, pending[t].n);
      }
    }
    assert Numbered(n, id);
  }

  lemma InsertKept(w: World, t: Tid, w': World)
    requires Inv(w) && Exec(w, Insert(t)) == Some(w')
    ensures Inv(w')
  {
    var p := w.pending[t];
    var (reg', r) := InsertAs(w.reg, p.n, p.spec);
    if r.Ok? {
      IssueKept(w.reg.nextID, w.pending, w.issued, t);
      InsertKeeps(w.reg.entries, w.reg.byKey, r.value);
    }
  }

  lemma OtherKept(w: World, op: Op, w': World)
    requires Inv(w) && Exec(w, Other(op)) == Some(w')
    ensures Inv(w')
  {
    forall id | id in w.reg.entries ensures Numbered(w.reg.nextID, id) {
    }
    OpKeeps(w.reg, op);
    OtherOps(w.reg, op);
  }

  lemma OtherOps(s: RegState, op: Op)
    requires !op.OpAdd?
    ensures Apply(s, op).nextID == s.nextID && Apply(s, op).entries.Keys <= s.entries.Keys
  {
  }

  lemma InvKept(w: World, a: Action, w': World)
    requires Inv(w) && Exec(w, a) == Some(w')
    ensures Inv(w')
  {
    match a
    case Reserve(t, spec) => ReserveKept(w, t, spec, w');
    case Insert(t) => InsertKept(w, t, w');
    case Other(op) => OtherKept(w, op, w');
  }

  // ---- runs ----

  datatype History = History(ws: seq<World>, acts: seq<Action>)

  ghost predicate IsRun(h: History) {
    && |h.ws| == |h.acts| + 1
    && Init(h.ws[0])
    && forall i | 0 <= i < |h.acts| :: Exec(h.ws[i], h.acts[i]) == Some(h.ws[i + 1])
  }

  // However Adds and other operations interleave, the two maps agree, an entry is active iff a handle is attached, no
  // two Adds ever return the same id, and every entry has an id that one of them returned.
  lemma {:induction false} RegistryAgreesUnderRaces(h: History, i: nat)
    requires IsRun(h) && i < |h.ws|
    ensures Inv(h.ws[i])
  {
    if i > 0 {
      RegistryAgreesUnderRaces(h, i - 1);
      InvKept(h.ws[i - 1], h.acts[i - 1], h.ws[i]);
    }
  }
}

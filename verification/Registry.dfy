// internal/registry.Registry: two maps over entry objects that are updated in place. Every method is proved against
// the operation of the same name in RegistryState.

module Registry {
  import opened Common
  import opened GoStrings
  import opened RegistryState

  datatype Snapshot = Snapshot(
    id: string, kind: string, target: string, action: string, subject: string, queueGroup: string,
    active: bool, lastErr: string)

  datatype ActivationRecord = ActivationRecord(
    id: string, kind: string, subject: string, queueGroup: string, callback: nat, activeSub: Option<SubId>,
    active: bool)

  datatype ActiveHandle = ActiveHandle(id: string, subject: string, sub: Option<SubId>)

  function SnapshotOf(e: EntryV): Snapshot {
    Snapshot(e.id, e.kind, e.target, e.action, e.subject, e.queueGroup, e.active, e.lastErr)
  }

  // Field by field.
  predicate Shows(s: Snapshot, e: EntryV) {
    && s.id == e.id && s.kind == e.kind && s.target == e.target && s.action == e.action && s.subject == e.subject
    && s.queueGroup == e.queueGroup && s.active == e.active && s.lastErr == e.lastErr
  }

  function RecordOf(e: EntryV): ActivationRecord {
    ActivationRecord(e.id, e.kind, e.subject, e.queueGroup, e.callback, e.activeSub, e.active)
  }

  // Field by field.
  predicate Describes(rec: ActivationRecord, e: EntryV) {
    && rec.id == e.id && rec.kind == e.kind && rec.subject == e.subject && rec.queueGroup == e.queueGroup
    && rec.callback == e.callback && rec.activeSub == e.activeSub && rec.active == e.active
  }

  lemma RecordDescribes(rec: ActivationRecord, e: EntryV)
    ensures Describes(rec, e) <==> rec == RecordOf(e)
  {
  }

  // What subscribeInternal makes a subscription with.
  function UseFor(rec: ActivationRecord): Use {
    if TrimSpace(rec.queueGroup) != "" then Use(rec.subject, Some(rec.queueGroup), rec.callback)
    else Use(rec.subject, None, rec.callback)
  }

  // recs holds the activation record of every entry once, in some order.
  ghost predicate Lists(recs: seq<ActivationRecord>, entries: map<string, EntryV>) {
    && (forall i | 0 <= i < |recs| :: recs[i].id in entries && Describes(recs[i], entries[recs[i].id]))
    && (forall i, j | 0 <= i < j < |recs| :: recs[i].id != recs[j].id)
    && (forall id | id in entries :: exists i :: 0 <= i < |recs| && recs[i].id == id)
  }

  // handles holds the attached handle of every entry that has one, once, in some order.
  ghost predicate Detaches(handles: seq<ActiveHandle>, entries: map<string, EntryV>) {
    && (forall i | 0 <= i < |handles| ::
          && handles[i].id in entries && entries[handles[i].id].activeSub.Some?
          && handles[i].sub == entries[handles[i].id].activeSub && handles[i].subject == entries[handles[i].id].subject)
    && (forall i, j | 0 <= i < j < |handles| :: handles[i].id != handles[j].id)
    && (forall id | id in entries && entries[id].activeSub.Some? ::
          exists i :: 0 <= i < |handles| && handles[i].id == id)
  }

  // What a loop over the map has seen when the ids in todo are still to come.
  function Seen(entries: map<string, EntryV>, todo: set<string>): map<string, EntryV> {
    map id | id in entries && id !in todo :: entries[id]
  }

  function Cleared(entries: map<string, EntryV>, todo: set<string>): map<string, EntryV> {
    map id | id in entries :: if id in todo then entries[id] else SetSub(entries[id], None)
  }

  lemma ClearNext(entries: map<string, EntryV>, todo: set<string>, id: string)
    requires id in todo && id in entries
    ensures Cleared(entries, todo - {id}) == Cleared(entries, todo)[id := SetSub(entries[id], None)]
    ensures Cleared(entries, todo)[id] == entries[id]
  {
  }

  lemma SeeEnds(entries: map<string, EntryV>)
    ensures Seen(entries, entries.Keys) == map[] && Seen(entries, {}) == entries
    ensures Cleared(entries, entries.Keys) == entries
  {
  }

  lemma SeeNext(entries: map<string, EntryV>, todo: set<string>, id: string)
    requires id in todo && id in entries
    ensures Seen(entries, todo - {id}) == Seen(entries, todo)[id := entries[id]]
    ensures id !in Seen(entries, todo)
  {
  }

  lemma ListsNext(recs: seq<ActivationRecord>, entries: map<string, EntryV>, e: EntryV)
    requires Lists(recs, entries) && e.id !in entries
    ensures Lists(recs + [RecordOf(e)], entries[e.id := e])
  {
    var recs' := recs + [RecordOf(e)];
    var more := entries[e.id := e];
    forall id | id in more ensures exists i :: 0 <= i < |recs'| && recs'[i].id == id {
      if id == e.id {
        assert recs'[|recs|].id == id;
      } else {
        var i :| 0 <= i < |recs| && recs[i].id == id;
        assert recs'[i].id == id;
      }
    }
  }

  lemma DetachesNext(handles: seq<ActiveHandle>, entries: map<string, EntryV>, e: EntryV)
    requires Detaches(handles, entries) && e.id !in entries
    ensures var more := if e.activeSub.Some? then handles + [ActiveHandle(e.id, e.subject, e.activeSub)] else handles;
            Detaches(more, entries[e.id := e])
  {
    var handles' := if e.activeSub.Some? then handles + [ActiveHandle(e.id, e.subject, e.activeSub)] else handles;
    var more := entries[e.id := e];
    forall id | id in more && more[id].activeSub.Some?
      ensures exists i :: 0 <= i < |handles'| && handles'[i].id == id
    {
      if id == e.id {
        assert handles'[|handles|].id == id;
      } else {
        var i :| 0 <= i < |handles| && handles[i].id == id;
        assert handles'[i].id == id;
      }
    }
  }

  function HandleOf(e: EntryV): seq<ActiveHandle> {
    if e.activeSub.Some? then [ActiveHandle(e.id, e.subject, e.activeSub)] else []
  }

  lemma DetachesSeen(handles: seq<ActiveHandle>, entries: map<string, EntryV>, todo: set<string>, id: string)
    requires Detaches(handles, Seen(entries, todo)) && id in todo && id in entries && entries[id].id == id
    ensures Detaches(handles + HandleOf(entries[id]), Seen(entries, todo - {id}))
  {
    SeeNext(entries, todo, id);
    DetachesNext(handles, Seen(entries, todo), entries[id]);
    assert handles + [] == handles;
  }

  class Entry {
    const id: string
    const key: string
    const kind: string
    const target: string
    const action: string
    const subject: string
    const queueGroup: string
    const callback: nat
    var activeSub: Option<SubId>
    var active: bool
    var lastErr: string

    function View(): EntryV
      reads this
    {
      EntryV(id, key, kind, target, action, subject, queueGroup, callback, activeSub, active, lastErr)
    }

    constructor (id: string, key: string, spec: AddSpec)
      requires spec.callback.Some?
      ensures View() == EntryV(id, key, spec.kind, spec.target, spec.action, spec.subject, spec.queueGroup,
                               spec.callback.value, None, false, "")
    {
      this.id, this.key := id, key;
      kind, target, action, subject, queueGroup := spec.kind, spec.target, spec.action, spec.subject, spec.queueGroup;
      callback := spec.callback.value;
      activeSub, active, lastErr := None, false, "";
    }

    // The body of the loop in ClearActiveHandles.
    method Detach() returns (handles: seq<ActiveHandle>)
      modifies this
      ensures View() == SetSub(old(View()), None)
      ensures handles == HandleOf(old(View()))
    {
      if activeSub == None {
        active := false;
        return [];
      }
      handles := [ActiveHandle(id, subject, activeSub)];
      activeSub := None;
      active := false;
    }
  }

  class Registry {
    var nextID: nat
    var entries: map<string, Entry>
    var byKey: map<string, string>

    // Every entry object is stored under its own id, hence only once.
    ghost predicate Valid()
      reads this
    {
      forall id | id in entries :: entries[id].id == id
    }

    ghost function Objects(): set<Entry>
      reads this
    {
      set id | id in entries :: entries[id]
    }

    ghost function View(): RegState
      reads this, Objects()
    {
      RegState(nextID, map id | id in entries :: entries[id].View(), byKey)
    }

    constructor ()
      ensures Valid() && View() == EMPTY && Objects() == {}
    {
      nextID, entries, byKey := 0, map[], map[];
    }

    method Add(spec: AddSpec) returns (r: Result<Snapshot>)
      requires Valid()
      modifies this
      ensures Valid() && fresh(Objects() - old(Objects()))
      ensures View() == RegistryState.Add(old(View()), spec).0
      ensures var want := RegistryState.Add(old(View()), spec).1;
              if want.Ok? then r.Ok? && Shows(r.value, want.value) else r == Err(want.code)
    {
      if !SpecOk(spec) {
        return Err(Validation);
      }
      var regID := NextID();
      r := AddLocked(regID, nextID, spec);
    }

    // The part of Add that holds the mutex.
    method AddLocked(regID: string, ghost n: nat, spec: AddSpec) returns (r: Result<Snapshot>)
      requires Valid() && spec.callback.Some? && regID == RegID(n)
      modifies `entries, `byKey
      ensures Valid() && fresh(Objects() - old(Objects()))
      ensures View() == InsertAs(old(View()), n, spec).0
      ensures var want := InsertAs(old(View()), n, spec).1;
              if want.Ok? then r.Ok? && Shows(r.value, want.value) else r == Err(want.code)
    {
      var key := SpecKey(spec);
      if key in byKey {
        return Err(RegistryConflict);
      }
      var e := new Entry(regID, key, spec);
      Insert(e);
      return Ok(SnapshotOf(e.View()));
    }

    // The counter, which is bumped even if the registration is then turned down.
    method NextID() returns (id: string)
      requires Valid()
      modifies `nextID
      ensures Valid() && View() == old(View()).(nextID := old(nextID) + 1) && id == RegID(old(nextID) + 1)
    {
      ghost var was := View();
      nextID := nextID + 1;
      assert View().entries == was.entries;
      id := RegID(nextID);
    }

    // The part of AddLocked that writes the maps.
    method Insert(e: Entry)
      requires Valid()
      modifies `entries, `byKey
      ensures Valid() && Objects() <= old(Objects()) + {e}
      ensures View() == RegState(nextID, old(View()).entries[e.id := e.View()], old(View()).byKey[e.key := e.id])
    {
      ghost var was := View().entries;
      entries := entries[e.id := e];
      byKey := byKey[e.key := e.id];
      assert View().entries == was[e.id := e.View()];
    }

    method GetActivationRecord(id: string) returns (r: Option<ActivationRecord>)
      ensures r.Some? <==> id in entries
      ensures r.Some? ==> Describes(r.value, entries[id].View())
    {
      if id !in entries {
        return None;
      }
      return Some(RecordOf(entries[id].View()));
    }

    // Also RestoreRecords.
    method ListActivations() returns (recs: seq<ActivationRecord>)
      requires Valid()
      ensures Lists(recs, View().entries)
    {
      recs := [];
      var todo := entries.Keys;
      SeeEnds(View().entries);
      while todo != {}
        invariant todo <= entries.Keys && Lists(recs, Seen(View().entries, todo))
        decreases todo
      {
        var id :| id in todo;
        SeeNext(View().entries, todo, id);
        ListsNext(recs, Seen(View().entries, todo), entries[id].View());
        recs := recs + [RecordOf(entries[id].View())];
        todo := todo - {id};
      }
    }

    method MarkActive(id: string, sub: Option<SubId>)
      requires Valid()
      modifies Objects()
      ensures View() == RegistryState.MarkActive(old(View()), id, sub)
    {
      if id !in entries {
        return;
      }
      var e := entries[id];
      if sub == None {
        e.activeSub := None;
        e.active := false;
        return;
      }
      e.activeSub := sub;
      e.active := e.activeSub != None;
      e.lastErr := "";
    }

    method MarkInactive(id: string, activationErr: Option<string>)
      requires Valid()
      modifies Objects()
      ensures View() == RegistryState.MarkInactive(old(View()), id, activationErr)
    {
      if id !in entries {
        return;
      }
      var e := entries[id];
      e.activeSub := None;
      e.active := false;
      if activationErr != None {
        e.lastErr := activationErr.value;
      }
    }

    method Remove(id: string) returns (r: Option<ActiveHandle>)
      requires Valid()
      modifies this
      ensures Valid() && Objects() <= old(Objects())
      ensures View() == RegistryState.Remove(old(View()), id)
      ensures r == if id in old(entries)
                   then var e := old(View()).entries[id]; Some(ActiveHandle(e.id, e.subject, e.activeSub))
                   else None
    {
      if id !in entries {
        return None;
      }
      var e := entries[id];
      r := Some(ActiveHandle(e.id, e.subject, e.activeSub));
      entries := entries - {id};
      byKey := byKey - {e.key};
    }

    method ClearActiveHandles() returns (handles: seq<ActiveHandle>)
      requires Valid()
      modifies Objects()
      ensures View() == ClearActive(old(View()))
      ensures Detaches(handles, old(View().entries))
    {
      ghost var was := View().entries;
      handles := [];
      var todo := entries.Keys;
      SeeEnds(was);
      while todo != {}
        invariant todo <= entries.Keys && Detaches(handles, Seen(was, todo))
        invariant View().entries == Cleared(was, todo)
        decreases todo
      {
        var id :| id in todo;
        DetachesSeen(handles, was, todo, id);
        ClearNext(was, todo, id);
        todo := todo - {id};
        var more := DetachEntry(id);
        handles := handles + more;
      }
    }

    method DetachEntry(id: string) returns (handles: seq<ActiveHandle>)
      requires Valid() && id in entries
      modifies entries[id]
      ensures View() == old(View()).(entries := old(View()).entries[id := SetSub(old(View()).entries[id], None)])
      ensures handles == HandleOf(old(View()).entries[id])
    {
      ghost var was := View().entries;
      var e := entries[id];
      handles := e.Detach();
      assert View().entries == was[id := e.View()];
    }

    method Counts() returns (registered: nat, active: nat)
      ensures registered == |View().entries| && active == |ActiveIds(View())|
      ensures View() == old(View())
    {
      ghost var was := View();
      assert was.entries.Keys == entries.Keys && |was.entries| == |was.entries.Keys|;
      registered := |entries|;
      active := 0;
      var todo := entries.Keys;
      ghost var counted: set<string> := {};
      while todo != {}
        invariant todo <= entries.Keys
        invariant counted == ActiveIds(was) - todo
        invariant active == |counted|
        decreases todo
      {
        var id :| id in todo;
        todo := todo - {id};
        if entries[id].activeSub != None && entries[id].active {
          active := active + 1;
          counted := counted + {id};
        }
      }
    }
  }
}

// The subscription registry as a value: its two maps, its operations, and what every sequence of operations keeps.

module RegistryState {
  import opened Common
  import opened GoStrings

  type SubId = nat

  datatype AddSpec = AddSpec(
    kind: string, target: string, action: string, subject: string, queueGroup: string, callback: Option<nat>)

  datatype EntryV = EntryV(
    id: string, key: string, kind: string, target: string, action: string, subject: string, queueGroup: string,
    callback: nat, activeSub: Option<SubId>, active: bool, lastErr: string)

  datatype RegState = RegState(nextID: nat, entries: map<string, EntryV>, byKey: map<string, string>)

  const EMPTY := RegState(0, map[], map[])

  // ---- names ----

  function Digit(d: nat): char
    requires d < 10
  {
    "0123456789"[d]
  }

  function Decimal(n: nat): string {
    if n < 10 then [Digit(n)] else Decimal(n / 10) + [Digit(n % 10)]
  }

  function RegID(n: nat): string {
    "sub-" + Decimal(n)
  }

  function RegistrationKey(kind: string, subject: string, queueGroup: string): string {
    kind + "|" + TrimSpace(subject) + "|" + TrimSpace(queueGroup)
  }

  // What follows the kind in a key.
  function Slot(subject: string, queue: string): string {
    TrimSpace(subject) + "|" + TrimSpace(queue)
  }

  lemma KeyIsKindAndSlot(kind: string, subject: string, queue: string)
    ensures RegistrationKey(kind, subject, queue) == kind + ['|'] + Slot(subject, queue)
  {
  }

  lemma {:induction false} DecimalInjective(m: nat, n: nat)
    requires Decimal(m) == Decimal(n)
    ensures m == n
  {
    var d := "0123456789";
    assert forall i, j | 0 <= i < 10 && 0 <= j < 10 && d[i] == d[j] :: i == j;
    var (s, t) := (Decimal(m), Decimal(n));
    assert s[|s| - 1] == Digit(m % 10) && t[|t| - 1] == Digit(n % 10);
    if m < 10 || n < 10 {
      DecimalLength(m);
      DecimalLength(n);
    } else {
      assert s[..|s| - 1] == Decimal(m / 10) && t[..|t| - 1] == Decimal(n / 10);
      DecimalInjective(m / 10, n / 10);
    }
  }

  lemma DecimalLength(n: nat)
    ensures |Decimal(n)| >= 1 && (n >= 10 ==> |Decimal(n)| >= 2)
  {
  }

  lemma RegIDInjective(m: nat, n: nat)
    requires RegID(m) == RegID(n)
    ensures m == n
  {
    assert RegID(m)[4..] == Decimal(m) && RegID(n)[4..] == Decimal(n);
    DecimalInjective(m, n);
  }

  // ---- operations ----

  predicate SpecOk(spec: AddSpec) {
    TrimSpace(spec.kind) != "" && TrimSpace(spec.subject) != "" && spec.callback.Some?
  }

  function SpecKey(spec: AddSpec): string {
    RegistrationKey(spec.kind, spec.subject, spec.queueGroup)
  }

  // An entry has the key of its own slot, and is active iff a handle is attached.
  predicate EntryOk(e: EntryV) {
    e.key == RegistrationKey(e.kind, e.subject, e.queueGroup) && e.active == e.activeSub.Some?
  }

  function NewEntry(n: nat, spec: AddSpec): EntryV
    requires spec.callback.Some?
  {
    EntryV(RegID(n), SpecKey(spec), spec.kind, spec.target, spec.action, spec.subject, spec.queueGroup,
           spec.callback.value, None, false, "")
  }

  function Add(s: RegState, spec: AddSpec): (RegState, Result<EntryV>) {
    if !SpecOk(spec) then (s, Err(Validation))
    else
      var (id, key, n) := (RegID(s.nextID + 1), SpecKey(spec), s.nextID + 1);
      if key in s.byKey then (s.(nextID := n), Err(RegistryConflict))
      else
        var e := NewEntry(n, spec);
        (RegState(n, s.entries[id := e], s.byKey[key := id]), Ok(e))
  }

  // The section of Add that holds the mutex, with the number that it has taken before.
  function InsertAs(s: RegState, n: nat, spec: AddSpec): (RegState, Result<EntryV>)
    requires spec.callback.Some?
  {
    var (id, key) := (RegID(n), SpecKey(spec));
    if key in s.byKey then (s, Err(RegistryConflict))
    else
      var e := NewEntry(n, spec);
      (s.(entries := s.entries[id := e], byKey := s.byKey[key := id]), Ok(e))
  }

  function SetSub(e: EntryV, sub: Option<SubId>): EntryV {
    e.(activeSub := sub, active := sub.Some?)
  }

  function MarkActive(s: RegState, id: string, sub: Option<SubId>): RegState {
    if id !in s.entries then s
    else
      var e := SetSub(s.entries[id], sub);
      s.(entries := s.entries[id := if sub.Some? then e.(lastErr := "") else e])
  }

  function MarkInactive(s: RegState, id: string, err: Option<string>): RegState {
    if id !in s.entries then s
    else
      var e := SetSub(s.entries[id], None);
      s.(entries := s.entries[id := if err.Some? then e.(lastErr := err.value) else e])
  }

  function ClearActive(s: RegState): RegState {
    s.(entries := map id | id in s.entries :: SetSub(s.entries[id], None))
  }

  function Remove(s: RegState, id: string): RegState {
    if id !in s.entries then s
    else RegState(s.nextID, s.entries - {id}, s.byKey - {s.entries[id].key})
  }

  // What a subscription is made with; without a group it is a plain one.
  datatype Use = Use(subject: string, group: Option<string>, callback: nat)

  // What the subscription of a registration has to be made with.
  function OwnUse(e: EntryV): Use {
    Use(e.subject, if TrimSpace(e.queueGroup) == "" then None else Some(e.queueGroup), e.callback)
  }

  function OldHandle(e: EntryV): set<SubId> {
    if e.activeSub.Some? then {e.activeSub.value} else {}
  }

  function AttachedSubs(reg: RegState): set<SubId> {
    set id | id in reg.entries && reg.entries[id].activeSub.Some? :: reg.entries[id].activeSub.value
  }

  function ActiveIds(s: RegState): set<string> {
    set id | id in s.entries && s.entries[id].activeSub.Some? && s.entries[id].active
  }

  // ---- what every operation keeps ----

  // byKey is the inverse of the keys of the entries.
  ghost predicate Indexes(entries: map<string, EntryV>, byKey: map<string, string>) {
    && (forall id | id in entries ::
          && entries[id].id == id && EntryOk(entries[id])
          && entries[id].key in byKey && byKey[entries[id].key] == id)
    && (forall k | k in byKey :: byKey[k] in entries && entries[byKey[k]].key == k)
  }

  ghost predicate IndexInv(s: RegState) {
    Indexes(s.entries, s.byKey)
  }

  // The ids in use are among those handed out.
  ghost predicate IssuedInv(s: RegState) {
    forall id | id in s.entries :: exists n: nat :: 1 <= n <= s.nextID && id == RegID(n)
  }

  ghost predicate RegInv(s: RegState) {
    IndexInv(s) && IssuedInv(s)
  }

  lemma FreshID(s: RegState)
    requires RegInv(s)
    ensures RegID(s.nextID + 1) !in s.entries
  {
    if RegID(s.nextID + 1) in s.entries {
      var n: nat :| 1 <= n <= s.nextID && RegID(s.nextID + 1) == RegID(n);
      RegIDInjective(s.nextID + 1, n);
    }
  }

  datatype Op =
    | OpAdd(spec: AddSpec)
    | OpMarkActive(id: string, sub: Option<SubId>)
    | OpMarkInactive(id: string, err: Option<string>)
    | OpClear
    | OpRemove(id: string)

  function Apply(s: RegState, op: Op): RegState {
    match op
    case OpAdd(spec) => Add(s, spec).0
    case OpMarkActive(id, sub) => MarkActive(s, id, sub)
    case OpMarkInactive(id, err) => MarkInactive(s, id, err)
    case OpClear => ClearActive(s)
    case OpRemove(id) => Remove(s, id)
  }

  function ApplyAll(s: RegState, ops: seq<Op>): RegState {
    if ops == [] then s else Apply(ApplyAll(s, ops[..|ops| - 1]), ops[|ops| - 1])
  }

  lemma InsertKeeps(entries: map<string, EntryV>, byKey: map<string, string>, e: EntryV)
    requires Indexes(entries, byKey) && e.id !in entries && e.key !in byKey && EntryOk(e)
    ensures Indexes(entries[e.id := e], byKey[e.key := e.id])
  {
  }

  lemma UpdateKeeps(entries: map<string, EntryV>, byKey: map<string, string>, e: EntryV)
    requires Indexes(entries, byKey) && e.id in entries && e.key == entries[e.id].key && EntryOk(e)
    ensures Indexes(entries[e.id := e], byKey)
  {
  }

  lemma DeleteKeeps(entries: map<string, EntryV>, byKey: map<string, string>, id: string)
    requires Indexes(entries, byKey) && id in entries
    ensures Indexes(entries - {id}, byKey - {entries[id].key})
  {
  }

  lemma AddedEntry(reg: RegState, spec: AddSpec)
    requires RegInv(reg) && Add(reg, spec).1.Ok?
    ensures var (reg1, e) := (Add(reg, spec).0, Add(reg, spec).1.value);
            && e.id == RegID(reg.nextID + 1) && e.id !in reg.entries && reg1.entries == reg.entries[e.id := e]
            && e.key !in reg.byKey && reg1.byKey == reg.byKey[e.key := e.id] && EntryOk(e)
            && e.kind == spec.kind && e.subject == spec.subject && Some(e.callback) == spec.callback
            && e.target == spec.target && e.action == spec.action && e.queueGroup == spec.queueGroup
            && !e.active && e.activeSub.None?
  {
    FreshID(reg);
  }

  // What Add answers: a validation error for a blank kind or subject or a missing callback, else a conflict if the key
  // is taken, else the new entry.
  lemma AddAnswers(s: RegState, spec: AddSpec)
    ensures var (r, key) := (Add(s, spec).1, RegistrationKey(spec.kind, spec.subject, spec.queueGroup));
            if TrimSpace(spec.kind) == "" || TrimSpace(spec.subject) == "" || spec.callback.None?
            then r == Err(Validation)
            else if key in s.byKey then r == Err(RegistryConflict)
            else r.Ok?
  {
  }

  lemma AddKeeps(s: RegState, spec: AddSpec)
    requires RegInv(s)
    ensures RegInv(Add(s, spec).0)
  {
    AddIndexes(s, spec);
    AddIssues(s, spec);
  }

  lemma AddIndexes(s: RegState, spec: AddSpec)
    requires RegInv(s)
    ensures IndexInv(Add(s, spec).0)
  {
    if Add(s, spec).1.Ok? {
      AddedEntry(s, spec);
      InsertKeeps(s.entries, s.byKey, Add(s, spec).1.value);
    }
  }

  lemma AddIssues(s: RegState, spec: AddSpec)
    requires IssuedInv(s)
    ensures IssuedInv(Add(s, spec).0)
  {
  }

  lemma RemoveKeeps(s: RegState, id: string)
    requires RegInv(s)
    ensures RegInv(Remove(s, id))
  {
    if id in s.entries {
      DeleteKeeps(s.entries, s.byKey, id);
    }
  }

  lemma MarkActiveKeeps(s: RegState, id: string, sub: Option<SubId>)
    requires RegInv(s)
    ensures RegInv(MarkActive(s, id, sub))
  {
  }

  lemma MarkInactiveKeeps(s: RegState, id: string, err: Option<string>)
    requires RegInv(s)
    ensures RegInv(MarkInactive(s, id, err))
  {
  }

  lemma ClearKeeps(s: RegState)
    requires RegInv(s)
    ensures RegInv(ClearActive(s))
  {
  }

  lemma OpKeeps(s: RegState, op: Op)
    requires RegInv(s)
    ensures RegInv(Apply(s, op))
  {
    match op
    case OpAdd(spec) => AddKeeps(s, spec);
    case OpMarkActive(id, sub) => MarkActiveKeeps(s, id, sub);
    case OpMarkInactive(id, err) => MarkInactiveKeeps(s, id, err);
    case OpClear => ClearKeeps(s);
    case OpRemove(id) => RemoveKeeps(s, id);
  }

  lemma {:induction false} RegistryAgrees(ops: seq<Op>)
    ensures RegInv(ApplyAll(EMPTY, ops))
  {
    if ops != [] {
      RegistryAgrees(ops[..|ops| - 1]);
      OpKeeps(ApplyAll(EMPTY, ops[..|ops| - 1]), ops[|ops| - 1]);
    }
  }

  // The id that the k-th operation hands out, if it is an Add that succeeds.
  function Issued(ops: seq<Op>, k: nat): Option<string>
    requires k < |ops|
  {
    if !ops[k].OpAdd? then None
    else
      var r := Add(ApplyAll(EMPTY, ops[..k]), ops[k].spec).1;
      if r.Ok? then Some(r.value.id) else None
  }

  lemma CounterNeverFalls(s: RegState, op: Op)
    ensures s.nextID <= Apply(s, op).nextID
    ensures op.OpAdd? && Add(s, op.spec).1.Ok? ==>
              Apply(s, op).nextID == s.nextID + 1 && Add(s, op.spec).1.value.id == RegID(s.nextID + 1)
  {
  }

  lemma {:induction false} CounterRises(ops: seq<Op>, j: nat, k: nat)
    requires j < k <= |ops| && Issued(ops, j).Some?
    ensures Issued(ops, j) == Some(RegID(ApplyAll(EMPTY, ops[..j]).nextID + 1))
    ensures ApplyAll(EMPTY, ops[..j]).nextID < ApplyAll(EMPTY, ops[..k]).nextID
    decreases k
  {
    var s := ApplyAll(EMPTY, ops[..k - 1]);
    assert ops[..k][..k - 1] == ops[..k - 1] && ops[..k][k - 1] == ops[k - 1];
    assert ApplyAll(EMPTY, ops[..k]) == Apply(s, ops[k - 1]);
    CounterNeverFalls(s, ops[k - 1]);
    if j + 1 < k {
      CounterRises(ops, j, k - 1);
    }
  }

  // No id is ever handed out twice, whatever is removed in between.
  lemma IdsAreNeverReused(ops: seq<Op>, j: nat, k: nat)
    requires j < k < |ops| && Issued(ops, j).Some? && Issued(ops, k).Some?
    ensures Issued(ops, j) != Issued(ops, k)
  {
    CounterRises(ops, j, k);
    CounterRises(ops, k, |ops|);
    if Issued(ops, j) == Issued(ops, k) {
      RegIDInjective(ApplyAll(EMPTY, ops[..j]).nextID + 1, ApplyAll(EMPTY, ops[..k]).nextID + 1);
    }
  }

  // Rolling a registration back leaves no trace but the counter.
  lemma RemoveUndoesAdd(s: RegState, spec: AddSpec)
    requires RegInv(s) && Add(s, spec).1.Ok?
    ensures Remove(Add(s, spec).0, Add(s, spec).1.value.id) == s.(nextID := s.nextID + 1)
  {
    FreshID(s);
    var (s', e) := (Add(s, spec).0, Add(s, spec).1.value);
    PutTake(s.entries, e.id, e);
    PutTake(s.byKey, e.key, e.id);
    assert s'.entries[e.id] == e;
  }

  lemma PutTake<V>(m: map<string, V>, k: string, v: V)
    requires k !in m
    ensures m[k := v] - {k} == m
  {
  }

  // ---- conflicts ----

  predicate SameSlot(e: EntryV, spec: AddSpec) {
    && e.kind == spec.kind
    && TrimSpace(e.subject) == TrimSpace(spec.subject)
    && TrimSpace(e.queueGroup) == TrimSpace(spec.queueGroup)
  }

  predicate NoBar(kind: string, subject: string) {
    '|' !in kind && '|' !in subject
  }

  lemma FirstBar(a: string, rest: string, b: string, rest': string)
    requires '|' !in a && '|' !in b && a + ['|'] + rest == b + ['|'] + rest'
    ensures a == b && rest == rest'
  {
    CutUnique(a, '|', rest, b, '|', rest', c => c == '|');
  }

  lemma SlotsMeet(subject: string, queue: string, subject': string, queue': string)
    requires '|' !in subject && '|' !in subject' && Slot(subject, queue) == Slot(subject', queue')
    ensures TrimSpace(subject) == TrimSpace(subject') && TrimSpace(queue) == TrimSpace(queue')
  {
    TrimIsClean(subject);
    TrimIsClean(subject');
    FirstBar(TrimSpace(subject), TrimSpace(queue), TrimSpace(subject'), TrimSpace(queue'));
  }

  lemma KeysMeet(kind: string, subject: string, queue: string, kind': string, subject': string, queue': string)
    requires NoBar(kind, subject) && NoBar(kind', subject')
    requires RegistrationKey(kind, subject, queue) == RegistrationKey(kind', subject', queue')
    ensures kind == kind' && TrimSpace(subject) == TrimSpace(subject') && TrimSpace(queue) == TrimSpace(queue')
  {
    KeyIsKindAndSlot(kind, subject, queue);
    KeyIsKindAndSlot(kind', subject', queue');
    FirstBar(kind, Slot(subject, queue), kind', Slot(subject', queue'));
    SlotsMeet(subject, queue, subject', queue');
  }

  // Add reports a conflict iff a registration with the same kind, subject and queue group exists, up to surrounding
  // space, provided that no kind and no subject contains the character that joins the parts of a key.
  lemma ConflictIffSameSlot(s: RegState, spec: AddSpec)
    requires RegInv(s) && SpecOk(spec) && NoBar(spec.kind, spec.subject)
    requires forall id | id in s.entries :: NoBar(s.entries[id].kind, s.entries[id].subject)
    ensures Add(s, spec).1 == Err(RegistryConflict) <==> exists id :: id in s.entries && SameSlot(s.entries[id], spec)
  {
    if SpecKey(spec) in s.byKey {
      var id := s.byKey[SpecKey(spec)];
      var e := s.entries[id];
      KeysMeet(e.kind, e.subject, e.queueGroup, spec.kind, spec.subject, spec.queueGroup);
      assert id in s.entries && SameSlot(s.entries[id], spec);
    }
    if id :| id in s.entries && SameSlot(s.entries[id], spec) {
      assert s.entries[id].key == SpecKey(spec);
    }
  }

  // With the bar the same text falls into different slots: ("a|b", "c") and ("a", "b|c").
  lemma BarsConfuseSlots(callback: nat)
    ensures var x := AddSpec("configure", "t", "", "a|b", "c", Some(callback));
            var y := AddSpec("configure", "t", "", "a", "b|c", Some(callback));
            var s := Add(EMPTY, x).0;
            && Add(EMPTY, x).1.Ok? && Add(s, y).1 == Err(RegistryConflict)
            && !exists id :: id in s.entries && SameSlot(s.entries[id], y)
  {
    TrimOfClean("a|b");
    TrimOfClean("c");
    TrimOfClean("a");
    TrimOfClean("b|c");
    TrimOfClean("configure");
    assert "configure" + "|" + "a|b" + "|" + "c" == "configure" + "|" + "a" + "|" + "b|c";
  }

  // Which specifications are safe from that: exactly those whose key cannot be cut at another bar into a subject and a
  // queue group that are free of surrounding space.
  ghost predicate OwnKey(kind: string, subject: string, queue: string) {
    forall subject', queue' | TrimSpace(subject') != ""
        && RegistrationKey(kind, subject', queue') == RegistrationKey(kind, subject, queue) ::
      TrimSpace(subject') == TrimSpace(subject) && TrimSpace(queue') == TrimSpace(queue)
  }

  predicate Trimmed(s: string) {
    TrimSpace(s) == s
  }

  predicate CutsAt(body: string, i: nat) {
    i < |body| && body[i] == '|' && i > 0 && Trimmed(body[..i]) && Trimmed(body[i + 1..])
  }

  lemma SameKeySameSlot(kind: string, subject: string, queue: string, subject': string, queue': string)
    ensures RegistrationKey(kind, subject', queue') == RegistrationKey(kind, subject, queue) <==>
              Slot(subject', queue') == Slot(subject, queue)
  {
    var (k, k') := (RegistrationKey(kind, subject, queue), RegistrationKey(kind, subject', queue'));
    assert k == kind + "|" + Slot(subject, queue) && k' == kind + "|" + Slot(subject', queue');
    assert k[|kind| + 1..] == Slot(subject, queue) && k'[|kind| + 1..] == Slot(subject', queue');
  }

  lemma SlotCuts(subject: string, queue: string)
    requires TrimSpace(subject) != ""
    ensures CutsAt(Slot(subject, queue), |TrimSpace(subject)|)
    ensures var (body, i) := (Slot(subject, queue), |TrimSpace(subject)|);
            body[..i] == TrimSpace(subject) && body[i + 1..] == TrimSpace(queue)
  {
    TrimIsClean(subject);
    TrimIsClean(queue);
    var (body, i) := (Slot(subject, queue), |TrimSpace(subject)|);
    assert body[..i] == TrimSpace(subject) && body[i + 1..] == TrimSpace(queue);
  }

  lemma OwnKeyIffOneCut(kind: string, subject: string, queue: string)
    ensures OwnKey(kind, subject, queue) <==>
              forall i: nat :: CutsAt(Slot(subject, queue), i) ==> i == |TrimSpace(subject)|
  {
    var body := Slot(subject, queue);
    if i: nat :| CutsAt(body, i) && i != |TrimSpace(subject)| {
      var (s, q) := (body[..i], body[i + 1..]);
      assert Slot(s, q) == s + "|" + q == body;
      SameKeySameSlot(kind, subject, queue, s, q);
      assert TrimSpace(s) == s != "" && TrimSpace(s) != TrimSpace(subject);
    } else {
      forall subject', queue' | TrimSpace(subject') != ""
          && RegistrationKey(kind, subject', queue') == RegistrationKey(kind, subject, queue)
        ensures TrimSpace(subject') == TrimSpace(subject) && TrimSpace(queue') == TrimSpace(queue)
      {
        SameKeySameSlot(kind, subject, queue, subject', queue');
        SlotCuts(subject', queue');
        assert body[..|TrimSpace(subject)|] == TrimSpace(subject)
            && body[|TrimSpace(subject)| + 1..] == TrimSpace(queue);
      }
    }
  }

  predicate Spaceless(s: string) {
    forall i | 0 <= i < |s| :: !IsSpace(s[i])
  }

  lemma SpacelessCut(body: string, i: nat)
    requires Spaceless(body)
    ensures CutsAt(body, i) <==> 0 < i < |body| && body[i] == '|'
  {
    if i < |body| {
      TrimOfClean(body[..i]);
      TrimOfClean(body[i + 1..]);
    }
  }

  predicate BarAt(body: string, i: nat) {
    i < |body| && body[i] == '|'
  }

  lemma OtherBars(subject: string, queue: string)
    requires subject != ""
    ensures (forall i: nat | BarAt(subject + "|" + queue, i) && i > 0 :: i == |subject|) <==>
              '|' !in subject[1..] && '|' !in queue
  {
    var body := subject + "|" + queue;
    forall i: nat
      ensures BarAt(body, i) <==>
                BarAt(subject, i) || i == |subject| || (i > |subject| && BarAt(queue, i - |subject| - 1))
    {
    }
    if j :| 0 <= j < |subject[1..]| && subject[1..][j] == '|' {
      assert BarAt(subject, j + 1) && BarAt(body, j + 1);
    }
    if j :| 0 <= j < |queue| && queue[j] == '|' {
      assert BarAt(queue, j) && BarAt(body, |subject| + 1 + j);
    }
    if i: nat :| BarAt(subject, i) && i > 0 {
      assert subject[1..][i - 1] == '|';
    }
  }

  // Without any space that comes down to the bars: one in the queue group, or one in the subject other than at its very
  // beginning.
  lemma OwnKeyIffNoBar(kind: string, subject: string, queue: string)
    requires Spaceless(subject) && Spaceless(queue) && subject != ""
    ensures OwnKey(kind, subject, queue) <==> '|' !in subject[1..] && '|' !in queue
  {
    TrimOfClean(subject);
    TrimOfClean(queue);
    var body := subject + "|" + queue;
    assert Slot(subject, queue) == body;
    OwnKeyIffOneCut(kind, subject, queue);
    forall i: nat ensures CutsAt(body, i) <==> BarAt(body, i) && i > 0 {
      SpacelessCut(body, i);
    }
    OtherBars(subject, queue);
  }
}

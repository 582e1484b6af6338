// When two registrations conflict: the registry keys of internal/registry together with the subjects that
// internal/subjects builds for the register functions of the client.

module Slots {
  import opened Common
  import opened GoStrings
  import opened Subjects
  import opened SubjectTheorems
  import opened RegistryState
  import opened Driver

  // There is no handler for health messages.
  predicate Receivable(m: Meaning) {
    !m.HealthOf?
  }

  function KindOf(m: Meaning): string {
    match m
    case Configure(_) => "configure"
    case Action(_, _) => "action"
    case ResultOf(_) => "result"
    case StatusOf(_) => "status"
    case HealthOf(_) => "health"
  }

  function RequestOf(u: Unicode, p: Patterns, m: Meaning, queue: string, callback: nat): Request {
    Request(KindOf(m), m.target, if m.Action? then m.action else "", Subject(u, p, m), queue, Some(callback))
  }

  predicate BarFree(p: Patterns) {
    '|' !in p.configure && '|' !in p.action && '|' !in p.result && '|' !in p.status && '|' !in p.health
  }

  // ---- subjects of a valid builder ----

  ghost predicate Proper(s: string, barFree: bool) {
    TrimSpace(s) != "" && (barFree ==> '|' !in s)
  }

  lemma TargetSubjectProper(u: Unicode, pattern: string, t: string)
    requires ValidatePattern(pattern, 1).None? && IsToken(u, t)
    ensures TargetSubject(u, pattern, t).Ok? && Proper(TargetSubject(u, pattern, t).value, '|' !in pattern)
  {
    NameAcceptedIffToken(u, t);
    CharIffInPattern(u, pattern, [t], '|');
    AcceptedPatternInterleaves(pattern, [t]);
    var lits := Pieces(pattern);
    assert Interleave(lits, [t]) == lits[0] + t + lits[1];
    assert TokenChar(u, t[0]);
    HasInk(lits[0] + t + lits[1], |lits[0]|);
  }

  lemma ActionSubjectProper(u: Unicode, pattern: string, t: string, a: string)
    requires ValidatePattern(pattern, 2).None? && IsToken(u, t) && IsToken(u, a)
    ensures ActionSubject(u, pattern, t, a).Ok? && Proper(ActionSubject(u, pattern, t, a).value, '|' !in pattern)
  {
    NameAcceptedIffToken(u, t);
    NameAcceptedIffToken(u, a);
    CharIffInPattern(u, pattern, [t, a], '|');
    AcceptedPatternInterleaves(pattern, [t, a]);
    var lits := Pieces(pattern);
    TwoIsInterleave(lits, t, a);
    assert TokenChar(u, t[0]) && Two(lits, t, a)[|lits[0]|] == t[0];
    HasInk(Two(lits, t, a), |lits[0]|);
  }

  // Whatever a valid builder yields for tokens is accepted by the registry, and has a bar only if a pattern has.
  lemma SubjectProper(u: Unicode, p: Patterns, m: Meaning)
    requires ValidPatterns(p) && Tokens(u, m)
    ensures Subject(u, p, m).Ok? && Proper(Subject(u, p, m).value, BarFree(p))
  {
    match m
    case Configure(t) => TargetSubjectProper(u, p.configure, t);
    case Action(t, a) => ActionSubjectProper(u, p.action, t, a);
    case ResultOf(t) => TargetSubjectProper(u, p.result, t);
    case StatusOf(t) => TargetSubjectProper(u, p.status, t);
    case HealthOf(t) => TargetSubjectProper(u, p.health, t);
  }

  // ---- registries filled through a builder ----

  predicate StandsFor(u: Unicode, p: Patterns, kind: string, subject: string, m: Meaning) {
    Receivable(m) && kind == KindOf(m) && Subject(u, p, m) == Ok(subject)
  }

  ghost predicate Meant(u: Unicode, p: Patterns, kind: string, subject: string) {
    exists m: Meaning :: StandsFor(u, p, kind, subject, m) && Tokens(u, m)
  }

  ghost predicate FromBuilder(u: Unicode, p: Patterns, ops: seq<Op>) {
    forall i | 0 <= i < |ops| && ops[i].OpAdd? :: Meant(u, p, ops[i].spec.kind, ops[i].spec.subject)
  }

  lemma OpKeepsMeaning(u: Unicode, p: Patterns, s: RegState, op: Op)
    requires forall id | id in s.entries :: Meant(u, p, s.entries[id].kind, s.entries[id].subject)
    requires op.OpAdd? ==> Meant(u, p, op.spec.kind, op.spec.subject)
    ensures forall id | id in Apply(s, op).entries ::
              Meant(u, p, Apply(s, op).entries[id].kind, Apply(s, op).entries[id].subject)
  {
  }

  lemma {:induction false} EntriesMean(u: Unicode, p: Patterns, ops: seq<Op>)
    requires FromBuilder(u, p, ops)
    ensures forall id | id in ApplyAll(EMPTY, ops).entries ::
              Meant(u, p, ApplyAll(EMPTY, ops).entries[id].kind, ApplyAll(EMPTY, ops).entries[id].subject)
  {
    if ops != [] {
      EntriesMean(u, p, ops[..|ops| - 1]);
      OpKeepsMeaning(u, p, ApplyAll(EMPTY, ops[..|ops| - 1]), ops[|ops| - 1]);
    }
  }

  lemma KindProper(m: Meaning)
    ensures Proper(KindOf(m), true)
  {
  }

  lemma MeantIsBarFree(u: Unicode, p: Patterns, kind: string, subject: string)
    requires ValidPatterns(p) && BarFree(p) && Meant(u, p, kind, subject)
    ensures NoBar(kind, subject) && TrimSpace(subject) != ""
  {
    var m: Meaning :| StandsFor(u, p, kind, subject, m) && Tokens(u, m);
    SubjectProper(u, p, m);
    KindProper(m);
  }

  lemma AddConflictIffSameSlot(u: Unicode, p: Patterns, ops: seq<Op>, m: Meaning, queue: string, callback: nat)
    requires ValidPatterns(p) && BarFree(p) && FromBuilder(u, p, ops) && Receivable(m) && Tokens(u, m)
    ensures Subject(u, p, m).Ok?
    ensures var (s, spec) := (ApplyAll(EMPTY, ops), SpecOf(RequestOf(u, p, m, queue, callback)));
            && Add(s, spec).1 != Err(Validation)
            && (Add(s, spec).1 == Err(RegistryConflict) <==> SlotTaken(s, spec))
  {
    SubjectProper(u, p, m);
    var (s, spec) := (ApplyAll(EMPTY, ops), SpecOf(RequestOf(u, p, m, queue, callback)));
    assert StandsFor(u, p, spec.kind, spec.subject, m);
    MeantIsBarFree(u, p, spec.kind, spec.subject);
    KindProper(m);
    EntriesMean(u, p, ops);
    forall id | id in s.entries ensures NoBar(s.entries[id].kind, s.entries[id].subject) {
      MeantIsBarFree(u, p, s.entries[id].kind, s.entries[id].subject);
    }
    RegistryAgrees(ops);
    ConflictIffSameSlot(s, spec);
  }

  ghost predicate SlotTaken(s: RegState, spec: AddSpec) {
    exists id :: id in s.entries && SameSlot(s.entries[id], spec)
  }

  // A handler for valid tokens, registered through a valid builder whose patterns have no bar, in a registry that was
  // filled through that builder, is turned down iff its queue group has whitespace, or its slot is taken: an entry of
  // the same kind is there with the same subject and queue group, up to surrounding space. Whitespace is looked for
  // first.
  lemma BuilderConflictIffSameSlot(
    u: Unicode, p: Patterns, ops: seq<Op>, m: Meaning, queue: string, callback: nat, d: State, quiet: bool, a: Attempt)
    requires ValidPatterns(p) && BarFree(p) && FromBuilder(u, p, ops) && Receivable(m) && Tokens(u, m)
    requires d.reg == ApplyAll(EMPTY, ops)
    ensures Subject(u, p, m).Ok?
    ensures var q := RequestOf(u, p, m, queue, callback);
            var r := Register(d, q, quiet, a).1;
            && (r.Rejected? <==> !QueueOk(queue) || SlotTaken(d.reg, SpecOf(q)))
            && (r.Rejected? ==> r.code == if QueueOk(queue) then RegistryConflict else Validation)
  {
    AddConflictIffSameSlot(u, p, ops, m, queue, callback);
    RejectedWhy(d, RequestOf(u, p, m, queue, callback), quiet, a);
    AddErrors(d.reg, SpecOf(RequestOf(u, p, m, queue, callback)));
  }

  lemma AddErrors(s: RegState, spec: AddSpec)
    ensures Add(s, spec).1.Ok? || Add(s, spec).1 == Err(Validation) || Add(s, spec).1 == Err(RegistryConflict)
  {
  }

  // ---- the default builder ----

  // The literals of the default patterns are made of letters and dots.
  predicate Plain(s: string) {
    forall i | 0 <= i < |s| :: AsciiLetter(s[i]) || s[i] == '.'
  }

  lemma PlainLacks(lits: seq<string>, pattern: string, c: char)
    requires lits != [] && (forall i | 0 <= i < |lits| :: Plain(lits[i])) && pattern == Join(lits, "%s")
    requires c == '%' || c == '|' || c == '*' || c == '>' || c in WHITESPACE
    ensures Free(lits, c) && (c == '%' || c !in pattern)
  {
    CharOfJoin(lits, "%s", c);
  }

  lemma PlainPattern(lits: seq<string>, pattern: string)
    requires |lits| >= 2 && lits[0] != "" && (forall i | 0 <= i < |lits| :: Plain(lits[i]))
               && pattern == Join(lits, "%s")
    ensures ValidatePattern(pattern, |lits| - 1).None? && '|' !in pattern
  {
    forall c | c == '%' || c == '|' || c == '*' || c == '>' || c in WHITESPACE
      ensures Free(lits, c) && (c == '%' || c !in pattern)
    {
      PlainLacks(lits, pattern, c);
    }
    assert pattern[0] == lits[0][0];
    HasInk(pattern, 0);
    PatternAcceptedIffJoined(pattern, |lits| - 1);
  }

  lemma PrefixPattern(a: string)
    requires a != "" && Plain(a)
    ensures ValidatePattern(a + "%s", 1).None? && '|' !in a + "%s"
  {
    var lits := [a, ""];
    assert lits[1..] == [""];
    assert Join(lits, "%s") == a + "%s" + "" == a + "%s";
    PlainPattern(lits, a + "%s");
  }

  lemma InfixPattern(a: string, mid: string)
    requires a != "" && Plain(a) && Plain(mid)
    ensures ValidatePattern(a + "%s" + mid + "%s", 2).None? && '|' !in a + "%s" + mid + "%s"
  {
    var lits := [a, mid, ""];
    assert lits[1..] == [mid, ""] && lits[1..][1..] == [""];
    assert Join(lits[1..], "%s") == mid + "%s" + "" == mid + "%s";
    assert Join(lits, "%s") == a + "%s" + (mid + "%s") == a + "%s" + mid + "%s";
    PlainPattern(lits, a + "%s" + mid + "%s");
  }

  lemma DefaultLiterals()
    ensures Plain("cmd.configure.") && Plain("cmd.action.") && Plain(".") && Plain("result.") && Plain("status.")
              && Plain("health.")
  {
  }

  lemma DefaultJoins()
    ensures "cmd.configure." + "%s" == DEFAULT_PATTERNS.configure
    ensures "cmd.action." + "%s" + "." + "%s" == DEFAULT_PATTERNS.action
    ensures "result." + "%s" == DEFAULT_PATTERNS.result
    ensures "status." + "%s" == DEFAULT_PATTERNS.status
    ensures "health." + "%s" == DEFAULT_PATTERNS.health
  {
  }

  lemma DefaultsAreValid()
    ensures ValidPatterns(DEFAULT_PATTERNS) && BarFree(DEFAULT_PATTERNS)
  {
    DefaultLiterals();
    DefaultJoins();
    PrefixPattern("cmd.configure.");
    InfixPattern("cmd.action.", ".");
    PrefixPattern("result.");
    PrefixPattern("status.");
    PrefixPattern("health.");
  }

  lemma DefaultSubjectIsTrim(u: Unicode, m: Meaning)
    requires Tokens(u, m)
    ensures DefaultSubject(u, m).Ok? && TrimSpace(DefaultSubject(u, m).value) == DefaultSubject(u, m).value
  {
    DefaultSubjectText(u, m);
    match m
    case Configure(t) => EndsInToken(u, "cmd.configure.", t);
    case Action(t, a) => EndsInToken(u, "cmd.action." + t + ".", a);
    case ResultOf(t) => EndsInToken(u, "result.", t);
    case StatusOf(t) => EndsInToken(u, "status.", t);
    case HealthOf(t) => EndsInToken(u, "health.", t);
  }

  lemma EndsInToken(u: Unicode, front: string, t: string)
    requires front != "" && !IsSpace(front[0]) && IsToken(u, t)
    ensures TrimSpace(front + t) == front + t
  {
    assert TokenChar(u, t[|t| - 1]);
    TrimOfClean(front + t);
  }

  predicate SameHandler(u: Unicode, e: EntryV, m: Meaning, queue: string) {
    StandsFor(u, DEFAULT_PATTERNS, e.kind, e.subject, m) && TrimSpace(e.queueGroup) == TrimSpace(queue)
  }

  ghost predicate HandlerTaken(u: Unicode, s: RegState, m: Meaning, queue: string) {
    exists id :: id in s.entries && SameHandler(u, s.entries[id], m, queue)
  }

  // With the default patterns a taken slot means that a handler for the same kind of message, the same target, the same
  // action and the same queue group, up to surrounding space, is registered already.
  lemma DefaultConflictIffSameHandler(
    u: Unicode, ops: seq<Op>, m: Meaning, queue: string, callback: nat, d: State, quiet: bool, a: Attempt)
    requires FromBuilder(u, DEFAULT_PATTERNS, ops) && Receivable(m) && Tokens(u, m)
    requires d.reg == ApplyAll(EMPTY, ops)
    ensures Subject(u, DEFAULT_PATTERNS, m).Ok?
    ensures var r := Register(d, RequestOf(u, DEFAULT_PATTERNS, m, queue, callback), quiet, a).1;
            && (r.Rejected? <==> !QueueOk(queue) || HandlerTaken(u, d.reg, m, queue))
            && (r.Rejected? ==> r.code == if QueueOk(queue) then RegistryConflict else Validation)
  {
    DefaultsAreValid();
    BuilderConflictIffSameSlot(u, DEFAULT_PATTERNS, ops, m, queue, callback, d, quiet, a);
    TakenSlotIsHandler(u, ops, m, SpecOf(RequestOf(u, DEFAULT_PATTERNS, m, queue, callback)));
  }

  lemma TakenSlotIsHandler(u: Unicode, ops: seq<Op>, m: Meaning, spec: AddSpec)
    requires FromBuilder(u, DEFAULT_PATTERNS, ops) && Tokens(u, m)
    requires StandsFor(u, DEFAULT_PATTERNS, spec.kind, spec.subject, m)
    ensures SlotTaken(ApplyAll(EMPTY, ops), spec) <==> HandlerTaken(u, ApplyAll(EMPTY, ops), m, spec.queueGroup)
  {
    var s := ApplyAll(EMPTY, ops);
    EntriesMean(u, DEFAULT_PATTERNS, ops);
    forall id | id in s.entries
      ensures SameSlot(s.entries[id], spec) <==> SameHandler(u, s.entries[id], m, spec.queueGroup)
    {
      SlotIsHandler(u, s.entries[id], m, spec);
    }
  }

  lemma SlotIsHandler(u: Unicode, e: EntryV, m: Meaning, spec: AddSpec)
    requires Meant(u, DEFAULT_PATTERNS, e.kind, e.subject) && Tokens(u, m)
    requires StandsFor(u, DEFAULT_PATTERNS, spec.kind, spec.subject, m)
    ensures SameSlot(e, spec) <==> SameHandler(u, e, m, spec.queueGroup)
  {
    var k: Meaning :| StandsFor(u, DEFAULT_PATTERNS, e.kind, e.subject, k) && Tokens(u, k);
    DefaultSubjectIsTrim(u, k);
    DefaultSubjectIsTrim(u, m);
    if SameSlot(e, spec) {
      DefaultSubjectsDisjoint(u, k, m);
    }
  }
}

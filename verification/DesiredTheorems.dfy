// Store before notify, over all runs of the submit protocol.

module DesiredTheorems {
  import opened Common
  import opened GoStrings
  import opened Subjects
  import opened SubjectTheorems
  import opened Desired
  import opened DesiredProtocol

  // ---- keys ----

  // The validators of internal/kv and internal/subjects accept the same names.
  lemma ValidatorsAgree(u: Unicode, s: string)
    ensures Desired.ValidateToken(u, s).None? <==> ValidateName(u, s).None?
    ensures Desired.ValidateToken(u, s).None? <==> IsToken(u, s)
  {
  }

  // A key pattern is accepted iff it has no whitespace and is two percent-free literals around the one placeholder.
  lemma KeyPatternAcceptedIff(pattern: string)
    ensures KeyPatternOk(pattern) <==>
              && !(exists i :: 0 <= i < |pattern| && pattern[i] in " \t\r\n")
              && exists lits: seq<string> :: |lits| == 2 && Free(lits, '%') && pattern == Join(lits, "%s")
  {
    JoinOfSplit(pattern, "%s");
    RemovedIsParts(pattern, "%s", '%');
    if lits: seq<string> :| |lits| == 2 && Free(lits, '%') && pattern == Join(lits, "%s") {
      PiecesAreUnique(pattern, lits);
    }
    if KeyPatternOk(pattern) {
      assert |Pieces(pattern)| == 2 && Free(Pieces(pattern), '%') && pattern == Join(Pieces(pattern), "%s");
    }
  }

  // A configured client can build a key for every token and for nothing else.
  lemma KeyBuiltIffToken(c: Config, target: string)
    requires ValidConfig(c)
    ensures BuildKey(c.u, c.keyPattern, target).Ok? <==> IsToken(c.u, target)
    ensures BuildKey(c.u, c.keyPattern, target).Ok? ==>
              Sprintf(c.keyPattern, [target]) == Some(BuildKey(c.u, c.keyPattern, target).value)
    ensures BuildKey(c.u, c.keyPattern, target).Ok? ==> NotBlank(BuildKey(c.u, c.keyPattern, target).value)
  {
    ValidatorsAgree(c.u, target);
    AcceptedPatternInterleaves(c.keyPattern, [target]);
    if IsToken(c.u, target) {
      var lits := Pieces(c.keyPattern);
      assert Interleave(lits, [target]) == lits[0] + target + lits[1];
      assert TokenChar(c.u, target[0]);
      HasInk(lits[0] + target + lits[1], |lits[0]|);
    }
  }

  // One slot per target: the key determines the target.
  lemma KeysDetermineTargets(c: Config, a: string, b: string)
    requires ValidConfig(c)
    requires BuildKey(c.u, c.keyPattern, a).Ok? && BuildKey(c.u, c.keyPattern, a) == BuildKey(c.u, c.keyPattern, b)
    ensures a == b
  {
    KeyBuiltIffToken(c, a);
    KeyBuiltIffToken(c, b);
    OnePlaceholderInjective(c.keyPattern, a, b);
  }

  // What NormalizeKV lets through is what ValidConfig asks of a bucket and a key pattern.
  lemma NormalizedIsValid(bucket: string, keyPattern: string)
    ensures var b := if TrimSpace(bucket) == "" then DEFAULT_BUCKET else TrimSpace(bucket); TrimSpace(b) == b != ""
    ensures var k := if TrimSpace(keyPattern) == "" then DEFAULT_KEY_PATTERN else TrimSpace(keyPattern);
            TrimSpace(k) == k != ""
  {
  }

  // ---- after the store only the publish can fail ----

  // The record of a stored configuration always makes it into a notification, unless the clock reads zero.
  lemma NotificationReadyIffClock(c: Config, cmd: Record, stored: Stored, now: int)
    requires ValidConfig(c) && RecordOk(c.u, c.codec, cmd)
    requires stored.bucket == c.bucket && BuildKey(c.u, c.keyPattern, cmd.target) == Ok(stored.key)
    ensures PrepareNotification(c, cmd, stored, now).Ok? <==> now != 0
    ensures now == 0 ==> PrepareNotification(c, cmd, stored, now) == Err(Validation)
  {
    KeyBuiltIffToken(c, cmd.target);
    ValidatorsAgree(c.u, cmd.target);
    AcceptedPatternInterleaves(c.configurePattern, [cmd.target]);
    TrimOfClean("configure");
  }

  // ---- the invariant ----

  // Entry e was written by a submission of cmd.
  predicate IsWriteOf(c: Config, e: Entry, cmd: Record) {
    && e.byClient
    && RecordOk(c.u, c.codec, cmd)
    && c.codec.encode(cmd) == Some(e.value)
    && BuildKey(c.u, c.keyPattern, cmd.target) == Ok(e.key)
  }

  // Among the first n entries there is the write of cmd with revision `own`.
  ghost predicate Written(c: Config, log: seq<Entry>, n: nat, cmd: Record, own: nat) {
    n <= |log| && exists i :: 0 <= i < n && IsWriteOf(c, log[i], cmd) && log[i].revision == own
  }

  ghost predicate LocalInv(c: Config, log: seq<Entry>, pc: PC) {
    match pc
    case Put(cmd, key, value) => IsWriteOf(c, Entry(key, value, 0, 0, true), cmd)
    case ReadBack(cmd, key, own) =>
      Written(c, log, |log|, cmd, own) && BuildKey(c.u, c.keyPattern, cmd.target) == Ok(key)
    case Notify(cmd, s, own) =>
      && Written(c, log, |log|, cmd, own) && s.revision >= own
      && s.bucket == c.bucket && BuildKey(c.u, c.keyPattern, cmd.target) == Ok(s.key) && s.record == cmd
    case Flush(cmd, ack, own) => AckInv(c, log, cmd, ack, own)
    case Acked(cmd, ack, own) => AckInv(c, log, cmd, ack, own)
    case _ => true
  }

  ghost predicate AckInv(c: Config, log: seq<Entry>, cmd: Record, ack: Ack, own: nat) {
    && Written(c, log, |log|, cmd, own)
    && ack.kvRevision >= own && ack.rpcID == cmd.rpcID && ack.target == cmd.target && ack.kvBucket == c.bucket
    && BuildKey(c.u, c.keyPattern, cmd.target) == Ok(ack.kvKey)
    && TargetSubject(c.u, c.configurePattern, cmd.target) == Ok(ack.subject)
  }

  predicate Announces(c: Config, s: Sent, cmd: Record) {
    && s.note.rpcID == cmd.rpcID && s.note.uuid == cmd.uuid && s.note.target == cmd.target
    && s.note.version == cmd.version && s.note.commandType == "configure"
    && s.note.kvBucket == c.bucket
    && BuildKey(c.u, c.keyPattern, cmd.target) == Ok(s.note.kvKey)
    && TargetSubject(c.u, c.configurePattern, cmd.target) == Ok(s.subject)
  }

  ghost predicate StoredBefore(c: Config, log: seq<Entry>, s: Sent) {
    exists cmd: Record, own: nat :: Announces(c, s, cmd) && Written(c, log, s.seen, cmd, own)
  }

  ghost predicate ClientWrites(c: Config, log: seq<Entry>) {
    forall i | 0 <= i < |log| && log[i].byClient :: exists cmd: Record :: IsWriteOf(c, log[i], cmd)
  }

  ghost predicate Inv(c: Config, w: World) {
    && Rising(w.log)
    && ClientWrites(c, w.log)
    && AllLocal(c, w.log, w.threads)
    && AllStored(c, w.log, w.sent)
  }

  ghost predicate AllLocal(c: Config, log: seq<Entry>, threads: map<Tid, PC>) {
    forall t | t in threads :: LocalInv(c, log, threads[t])
  }

  ghost predicate AllStored(c: Config, log: seq<Entry>, sent: seq<Sent>) {
    forall n | 0 <= n < |sent| :: StoredBefore(c, log, sent[n])
  }

  lemma WrittenGrows(c: Config, log: seq<Entry>, e: Entry, n: nat, m: nat, cmd: Record, own: nat)
    requires Written(c, log, n, cmd, own) && n <= m <= |log| + 1
    ensures Written(c, log + [e], m, cmd, own)
  {
    var i :| 0 <= i < n && IsWriteOf(c, log[i], cmd) && log[i].revision == own;
    assert (log + [e])[i] == log[i];
  }

  lemma LocalGrows(c: Config, log: seq<Entry>, e: Entry, pc: PC)
    requires LocalInv(c, log, pc)
    ensures LocalInv(c, log + [e], pc)
  {
    if pc.ReadBack? || pc.Notify? || pc.Flush? || pc.Acked? {
      WrittenGrows(c, log, e, |log|, |log| + 1, pc.cmd, pc.own);
    }
  }

  lemma SentGrows(c: Config, log: seq<Entry>, e: Entry, s: Sent)
    requires StoredBefore(c, log, s)
    ensures StoredBefore(c, log + [e], s)
  {
    var cmd: Record, own: nat :| Announces(c, s, cmd) && Written(c, log, s.seen, cmd, own);
    WrittenGrows(c, log, e, s.seen, s.seen, cmd, own);
  }

  lemma ClientWritesGrow(c: Config, log: seq<Entry>, e: Entry)
    requires ClientWrites(c, log) && (e.byClient ==> exists cmd: Record :: IsWriteOf(c, e, cmd))
    ensures ClientWrites(c, log + [e])
  {
  }

  // The log grows by one entry with a new highest revision.
  lemma AppendKeeps(c: Config, w: World, e: Entry, log': seq<Entry>)
    requires Inv(c, w) && Append(w.log, e) == Some(log')
    requires e.byClient ==> exists cmd: Record :: IsWriteOf(c, e, cmd)
    ensures Inv(c, w.(log := log'))
  {
    ClientWritesGrow(c, w.log, e);
    forall t | t in w.threads ensures LocalInv(c, log', w.threads[t]) {
      LocalGrows(c, w.log, e, w.threads[t]);
    }
    forall n | 0 <= n < |w.sent| ensures StoredBefore(c, log', w.sent[n]) {
      SentGrows(c, w.log, e, w.sent[n]);
    }
  }

  // ---- reading the latest entry ----

  lemma {:induction false} LatestIsLatest(log: seq<Entry>, key: string, i: nat)
    requires Rising(log) && i < |log| && log[i].key == key
    ensures Latest(log, key).Some?
    ensures var e := Latest(log, key).value;
            e in log && e.key == key && e.revision >= log[i].revision && (e.revision == log[i].revision ==> e == log[i])
  {
    if i < |log| - 1 && log[|log| - 1].key != key {
      assert log[..|log| - 1][i] == log[i];
      LatestIsLatest(log[..|log| - 1], key, i);
    }
  }

  lemma ReadBackSeesOwn(c: Config, log: seq<Entry>, cmd: Record, key: string, own: nat)
    requires Rising(log) && Written(c, log, |log|, cmd, own) && BuildKey(c.u, c.keyPattern, cmd.target) == Ok(key)
    ensures Latest(log, key).Some? && Latest(log, key).value.revision >= own
  {
    var i :| 0 <= i < |log| && IsWriteOf(c, log[i], cmd) && log[i].revision == own;
    LatestIsLatest(log, key, i);
  }

  // ---- one step ----

  // With nothing to announce, or nothing sent, the submitter fails; else the notification is on the wire.
  predicate Announced(w: World, pc: PC, o: Outcome, r: Result<(string, Notification)>, e: (PC, seq<Entry>, seq<Sent>))
    requires pc.Notify?
  {
    && e.1 == w.log
    && (|| (e.0.Failed? && e.2 == w.sent && (r.Err? || o.Bad?))
        || (&& r.Ok? && e.2 == w.sent + [Sent(r.value.0, r.value.1, |w.log|)]
            && e.0 == Flush(pc.cmd, Ack(pc.cmd.rpcID, pc.cmd.target, r.value.0, o.time, pc.stored.bucket, pc.stored.key,
                                        pc.stored.revision), pc.own)))
  }

  lemma AnnounceEffect(w: World, pc: PC, o: Outcome, r: Result<(string, Notification)>, e: (PC, seq<Entry>, seq<Sent>))
    requires pc.Notify? && Announce(w, pc, o, r) == Some(e)
    ensures Announced(w, pc, o, r, e)
  {
  }

  lemma NotifyEffect(c: Config, w: World, pc: PC, o: Outcome, e: (PC, seq<Entry>, seq<Sent>))
    requires pc.Notify? && NotifyStep(c, w, pc, o) == Some(e)
    ensures Announced(w, pc, o, PrepareNotification(c, pc.cmd, pc.stored, o.time), e)
  {
    AnnounceEffect(w, pc, o, PrepareNotification(c, pc.cmd, pc.stored, o.time), e);
  }

  lemma PreparedSubject(c: Config, cmd: Record, s: Stored, now: int)
    requires PrepareNotification(c, cmd, s, now).Ok?
    ensures TargetSubject(c.u, c.configurePattern, cmd.target) == Ok(PrepareNotification(c, cmd, s, now).value.0)
    ensures PrepareNotification(c, cmd, s, now).value.1 ==
              Notification(cmd.version, cmd.rpcID, cmd.target, "configure", cmd.uuid, s.bucket, s.key, now)
  {
  }

  lemma NotifyLocal(c: Config, w: World, pc: PC, o: Outcome, e: (PC, seq<Entry>, seq<Sent>))
    requires pc.Notify? && LocalInv(c, w.log, pc) && NotifyStep(c, w, pc, o) == Some(e)
    ensures e.1 == w.log && LocalInv(c, w.log, e.0)
    ensures e.2 == w.sent
              || (|e.2| == |w.sent| + 1 && e.2[..|w.sent|] == w.sent && StoredBefore(c, w.log, e.2[|w.sent|]))
  {
    NotifyEffect(c, w, pc, o, e);
    if e.2 != w.sent {
      PreparedSubject(c, pc.cmd, pc.stored, o.time);
      assert Announces(c, e.2[|w.sent|], pc.cmd) && Written(c, w.log, |w.log|, pc.cmd, pc.own);
    }
  }

  lemma SubmitLocal(c: Config, w: World, pc: PC, o: Outcome, e: (PC, seq<Entry>, seq<Sent>))
    requires pc.Submit? && SubmitStep(c, w, pc, o) == Some(e)
    ensures e.1 == w.log && LocalInv(c, w.log, e.0) && e.2 == w.sent
  {
  }

  lemma ReadBackLocal(c: Config, w: World, pc: PC, o: Outcome, e: (PC, seq<Entry>, seq<Sent>))
    requires pc.ReadBack? && Rising(w.log) && LocalInv(c, w.log, pc) && ReadBackStep(c, w, pc, o) == Some(e)
    ensures e.1 == w.log && LocalInv(c, w.log, e.0) && e.2 == w.sent
  {
    if o.Good? {
      ReadBackSeesOwn(c, w.log, pc.cmd, pc.key, pc.own);
    }
  }

  lemma FlushLocal(c: Config, w: World, pc: PC, o: Outcome, e: (PC, seq<Entry>, seq<Sent>))
    requires pc.Flush? && LocalInv(c, w.log, pc) && FlushStep(c, w, pc, o) == Some(e)
    ensures e.1 == w.log && LocalInv(c, w.log, e.0) && e.2 == w.sent
  {
  }

  lemma StepLocal(c: Config, w: World, pc: PC, o: Outcome, e: (PC, seq<Entry>, seq<Sent>))
    requires Rising(w.log) && LocalInv(c, w.log, pc) && Step(c, w, pc, o) == Some(e)
    requires !pc.Put? && !pc.Notify?
    ensures e.1 == w.log && LocalInv(c, w.log, e.0) && e.2 == w.sent
  {
    if pc.Submit? {
      SubmitLocal(c, w, pc, o, e);
    } else if pc.ReadBack? {
      ReadBackLocal(c, w, pc, o, e);
    } else if pc.Flush? {
      FlushLocal(c, w, pc, o, e);
    }
  }

  lemma PutEffect(c: Config, w: World, pc: PC, o: Outcome, e: (PC, seq<Entry>, seq<Sent>))
    requires pc.Put? && LocalInv(c, w.log, pc) && PutStep(c, w, pc, o) == Some(e)
    ensures e.2 == w.sent
    ensures
      || (e.1 == w.log && e.0.Failed?)
      || (&& |e.1| == |w.log| + 1 && Append(w.log, e.1[|w.log|]) == Some(e.1) && IsWriteOf(c, e.1[|w.log|], pc.cmd)
          && (e.0.Failed? || e.0 == ReadBack(pc.cmd, e.1[|w.log|].key, e.1[|w.log|].revision)))
  {
  }

  lemma PutKeeps(c: Config, w: World, t: Tid, pc: PC, e: (PC, seq<Entry>, seq<Sent>))
    requires Inv(c, w) && pc.Put? && e.2 == w.sent
    requires |e.1| == |w.log| + 1 && Append(w.log, e.1[|w.log|]) == Some(e.1) && IsWriteOf(c, e.1[|w.log|], pc.cmd)
    requires e.0.Failed? || e.0 == ReadBack(pc.cmd, e.1[|w.log|].key, e.1[|w.log|].revision)
    ensures Inv(c, World(e.1, e.2, w.threads[t := e.0]))
  {
    AppendKeeps(c, w, e.1[|w.log|], e.1);
    PutLocal(c, w.log, pc, e.1, e.0);
    OthersKeep(c, w.(log := e.1), t, e.0, e.2);
  }

  lemma PutLocal(c: Config, log: seq<Entry>, pc: PC, log': seq<Entry>, pc': PC)
    requires pc.Put? && |log'| == |log| + 1 && IsWriteOf(c, log'[|log|], pc.cmd)
    requires pc'.Failed? || pc' == ReadBack(pc.cmd, log'[|log|].key, log'[|log|].revision)
    ensures LocalInv(c, log', pc')
  {
  }

  lemma OthersKeep(c: Config, w: World, t: Tid, pc': PC, sent': seq<Sent>)
    requires Inv(c, w) && LocalInv(c, w.log, pc')
    requires sent' == w.sent
               || (|sent'| == |w.sent| + 1 && sent'[..|w.sent|] == w.sent && StoredBefore(c, w.log, sent'[|w.sent|]))
    ensures Inv(c, World(w.log, sent', w.threads[t := pc']))
  {
    ThreadKeeps(c, w.log, w.threads, t, pc');
    if sent' != w.sent {
      SentKeeps(c, w.log, w.sent, sent'[|w.sent|]);
      assert sent' == w.sent + [sent'[|w.sent|]];
    }
  }

  lemma ThreadKeeps(c: Config, log: seq<Entry>, threads: map<Tid, PC>, t: Tid, pc': PC)
    requires AllLocal(c, log, threads) && LocalInv(c, log, pc')
    ensures AllLocal(c, log, threads[t := pc'])
  {
  }

  lemma SentKeeps(c: Config, log: seq<Entry>, sent: seq<Sent>, s: Sent)
    requires AllStored(c, log, sent) && StoredBefore(c, log, s)
    ensures AllStored(c, log, sent + [s])
  {
  }

  lemma RunKept(c: Config, w: World, t: Tid, pc: PC, o: Outcome, e: (PC, seq<Entry>, seq<Sent>))
    requires Inv(c, w) && LocalInv(c, w.log, pc) && Step(c, w, pc, o) == Some(e)
    ensures Inv(c, World(e.1, e.2, w.threads[t := e.0]))
  {
    if pc.Put? {
      PutEffect(c, w, pc, o, e);
      if e.1 == w.log {
        OthersKeep(c, w, t, e.0, e.2);
      } else {
        PutKeeps(c, w, t, pc, e);
      }
    } else {
      if pc.Notify? {
        NotifyLocal(c, w, pc, o, e);
      } else {
        StepLocal(c, w, pc, o, e);
      }
      OthersKeep(c, w, t, e.0, e.2);
    }
  }

  lemma InvKept(c: Config, w: World, a: Action, w': World)
    requires Inv(c, w) && Exec(c, w, a) == Some(w')
    ensures Inv(c, w')
  {
    match a
    case Call(t, cmd) => OthersKeep(c, w, t, Submit(cmd), w.sent);
    case External(k, v, rev, created) => AppendKeeps(c, w, Entry(k, v, rev, created, false), w'.log);
    case Run(t, o) => RunKept(c, w, t, w.threads[t], o, Step(c, w, w.threads[t], o).value);
  }

  // ---- runs ----

  datatype History = History(ws: seq<World>, acts: seq<Action>)

  ghost predicate IsRun(c: Config, h: History) {
    && |h.ws| == |h.acts| + 1
    && Init(h.ws[0])
    && forall i | 0 <= i < |h.acts| :: Exec(c, h.ws[i], h.acts[i]) == Some(h.ws[i + 1])
  }

  lemma {:induction false} Reachable(c: Config, h: History, i: nat)
    requires ValidConfig(c) && IsRun(c, h) && i < |h.ws|
    ensures Inv(c, h.ws[i])
  {
    if i > 0 {
      Reachable(c, h, i - 1);
      InvKept(c, h.ws[i - 1], h.acts[i - 1], h.ws[i]);
    }
  }

  // The log only grows.
  lemma {:induction false} LogGrows(c: Config, h: History, i: nat, j: nat)
    requires IsRun(c, h) && i <= j < |h.ws|
    ensures h.ws[i].log <= h.ws[j].log
    decreases j
  {
    if i < j {
      LogGrows(c, h, i, j - 1);
      StepGrows(c, h.ws[j - 1], h.acts[j - 1], h.ws[j]);
    }
  }

  lemma StepGrows(c: Config, w: World, a: Action, w': World)
    requires Exec(c, w, a) == Some(w')
    ensures w.log <= w'.log
  {
    if a.Run? {
      RunGrows(c, w, w.threads[a.t], a.o, Step(c, w, w.threads[a.t], a.o).value);
    }
  }

  lemma RunGrows(c: Config, w: World, pc: PC, o: Outcome, e: (PC, seq<Entry>, seq<Sent>))
    requires Step(c, w, pc, o) == Some(e)
    ensures w.log <= e.1
  {
    if pc.Put? {
      PutGrows(c, w, pc, o, e);
    } else if pc.Notify? {
      NotifyEffect(c, w, pc, o, e);
    } else if pc.Submit? {
      SubmitLocal(c, w, pc, o, e);
    } else if pc.ReadBack? {
      ReadBackLog(c, w, pc, o, e);
    } else {
      FlushLog(c, w, pc, o, e);
    }
  }

  lemma ReadBackLog(c: Config, w: World, pc: PC, o: Outcome, e: (PC, seq<Entry>, seq<Sent>))
    requires pc.ReadBack? && ReadBackStep(c, w, pc, o) == Some(e)
    ensures e.1 == w.log
  {
  }

  lemma FlushLog(c: Config, w: World, pc: PC, o: Outcome, e: (PC, seq<Entry>, seq<Sent>))
    requires pc.Flush? && FlushStep(c, w, pc, o) == Some(e)
    ensures e.1 == w.log
  {
  }

  lemma PutGrows(c: Config, w: World, pc: PC, o: Outcome, e: (PC, seq<Entry>, seq<Sent>))
    requires pc.Put? && PutStep(c, w, pc, o) == Some(e)
    ensures w.log <= e.1
  {
  }

  // Every notification was preceded by a write of the same rpc id, uuid and target to that target's key, and from
  // then on the newest entry of the key is that write or one with a higher revision.
  lemma StoreBeforeNotify(c: Config, h: History, i: nat, n: nat, j: nat) returns (k: nat, cmd: Record)
    requires ValidConfig(c) && IsRun(c, h) && i <= j < |h.ws| && n < |h.ws[i].sent|
    ensures var s := h.ws[i].sent[n];
            && Announces(c, s, cmd)
            && k < s.seen <= |h.ws[i].log| && IsWriteOf(c, h.ws[i].log[k], cmd) && h.ws[i].log[k].key == s.note.kvKey
            && var now := Latest(h.ws[j].log, s.note.kvKey);
               && now.Some?
               && now.value.revision >= h.ws[i].log[k].revision
               && (now.value.revision == h.ws[i].log[k].revision ==> now.value == h.ws[i].log[k])
  {
    Reachable(c, h, i);
    Reachable(c, h, j);
    LogGrows(c, h, i, j);
    var (s, log) := (h.ws[i].sent[n], h.ws[i].log);
    assert StoredBefore(c, log, s);
    var own: nat;
    cmd, own :| Announces(c, s, cmd) && Written(c, log, s.seen, cmd, own);
    k :| 0 <= k < s.seen && IsWriteOf(c, log[k], cmd) && log[k].revision == own;
    assert h.ws[j].log[k] == log[k];
    LatestIsLatest(h.ws[j].log, s.note.kvKey, k);
  }

  // Entry e was written by submission cmd, and r is that submission: all ids are the same, and so are the bytes.
  predicate ReadsBackAs(c: Config, e: Entry, cmd: Record, r: Record) {
    IsWriteOf(c, e, cmd) && IsWriteOf(c, e, r) && SameSubmission(cmd, r)
  }

  // When the newest entry of a target's key is a submission, loading the target yields that submission: the same
  // version, rpc id, uuid and target, and a record with the same encoding.
  lemma LoadYieldsTheSubmission(c: Config, h: History, j: nat, target: string)
    requires ValidConfig(c) && SoundCodec(c.codec) && IsRun(c, h) && j < |h.ws| && IsToken(c.u, target)
    ensures BuildKey(c.u, c.keyPattern, target).Ok?
    ensures var e := Latest(h.ws[j].log, BuildKey(c.u, c.keyPattern, target).value);
            e.Some? && e.value.byClient ==>
              var r := Load(c, h.ws[j].log, target);
              && r.Ok? && r.value.record.target == target && r.value.revision == e.value.revision
              && r.value.key == e.value.key && exists cmd: Record :: ReadsBackAs(c, e.value, cmd, r.value.record)
  {
    Reachable(c, h, j);
    KeyBuiltIffToken(c, target);
    var key := BuildKey(c.u, c.keyPattern, target).value;
    var e := Latest(h.ws[j].log, key);
    if e.Some? && e.value.byClient {
      LatestIsInLog(h.ws[j].log, key);
      var cmd: Record :| IsWriteOf(c, e.value, cmd);
      KeysDetermineTargets(c, target, cmd.target);
      WriteReadsBack(c, e.value, cmd);
      LoadReads(c, h.ws[j].log, target, key, e.value);
    }
  }

  lemma LoadReads(c: Config, log: seq<Entry>, target: string, key: string, e: Entry)
    requires BuildKey(c.u, c.keyPattern, target) == Ok(key) && Latest(log, key) == Some(e)
    requires DecodeRecord(c, e.value).Ok?
    ensures var r := Load(c, log, target);
            && r.Ok? && r.value.record == DecodeRecord(c, e.value).value && r.value.revision == e.revision
            && r.value.key == e.key
  {
  }

  lemma WriteReadsBack(c: Config, e: Entry, cmd: Record)
    requires SoundCodec(c.codec) && IsWriteOf(c, e, cmd)
    ensures DecodeRecord(c, e.value).Ok? && ReadsBackAs(c, e, cmd, DecodeRecord(c, e.value).value)
  {
    assert RoundTrips(c.codec, cmd, e.value);
  }

  lemma {:induction false} LatestIsInLog(log: seq<Entry>, key: string)
    requires Latest(log, key).Some?
    ensures exists i :: 0 <= i < |log| && log[i] == Latest(log, key).value
    ensures Latest(log, key).value.key == key
  {
    if log[|log| - 1].key != key {
      LatestIsInLog(log[..|log| - 1], key);
      var i :| 0 <= i < |log| - 1 && log[..|log| - 1][i] == Latest(log, key).value;
      assert log[i] == Latest(log, key).value;
    }
  }

  // An acknowledgement carries at least the revision of the submitter's own write, under the target's key.
  lemma AckCoversOwnWrite(c: Config, h: History, i: nat, t: Tid)
    requires ValidConfig(c) && IsRun(c, h) && i < |h.ws| && t in h.ws[i].threads && h.ws[i].threads[t].Acked?
    ensures var pc := h.ws[i].threads[t];
            && AckInv(c, h.ws[i].log, pc.cmd, pc.ack, pc.own)
  {
    Reachable(c, h, i);
    AckedCovers(c, h.ws[i].log, h.ws[i].threads, t);
  }

  lemma AckedCovers(c: Config, log: seq<Entry>, threads: map<Tid, PC>, t: Tid)
    requires AllLocal(c, log, threads) && t in threads && threads[t].Acked?
    ensures AckInv(c, log, threads[t].cmd, threads[t].ack, threads[t].own)
  {
    assert LocalInv(c, log, threads[t]);
  }

  lemma ReadyAfterStore(c: Config, log: seq<Entry>, pc: PC, now: int)
    requires ValidConfig(c) && LocalInv(c, log, pc) && pc.Notify?
    ensures PrepareNotification(c, pc.cmd, pc.stored, now).Ok? <==> now != 0
    ensures now == 0 ==> PrepareNotification(c, pc.cmd, pc.stored, now) == Err(Validation)
  {
    var k :| 0 <= k < |log| && IsWriteOf(c, log[k], pc.cmd) && log[k].revision == pc.own;
    NotificationReadyIffClock(c, pc.cmd, pc.stored, now);
  }
}

// What the calls that store, submit and load desired configurations answer, told stage by stage.

module DesiredAnswers {
  import opened Common
  import opened GoStrings
  import opened Subjects
  import opened SubjectTheorems
  import opened Desired
  import opened DesiredProtocol
  import opened DesiredTheorems

  // ---- commands ----

  predicate HasText(s: string) {
    exists i :: 0 <= i < |s| && !IsSpace(s[i])
  }

  // A command that may be stored: no id is blank, there is a time, and the payload is valid JSON.
  predicate Complete(codec: Codec, r: Record) {
    && HasText(r.version) && HasText(r.rpcID) && HasText(r.target) && HasText(r.uuid)
    && r.timestamp != 0 && r.payload != "" && codec.valid(r.payload)
  }

  lemma AcceptedIffComplete(u: Unicode, codec: Codec, r: Record)
    ensures CommandOk(codec, r) <==> Complete(codec, r)
    ensures RecordOk(u, codec, r) <==> Complete(codec, r) && IsToken(u, r.target)
  {
    BlankIffSpaces(r.version);
    BlankIffSpaces(r.rpcID);
    BlankIffSpaces(r.target);
    BlankIffSpaces(r.uuid);
    ValidatorsAgree(u, r.target);
  }

  // Up to the write, the first of these stops a store; else the key is the formatted pattern and the value the
  // encoding.
  lemma StorePrepared(c: Config, r: Record, connected: bool)
    requires ValidConfig(c)
    ensures PrepareStore(c, r, connected) ==
              if !Complete(c.codec, r) || !IsToken(c.u, r.target) then Err(Validation)
              else if !connected then Err(Disconnected)
              else if c.codec.encode(r).None? then Err(EncodeFailed)
              else Ok((Formatted(c, r.target), c.codec.encode(r).value))
  {
    AcceptedIffComplete(c.u, c.codec, r);
    KeyBuiltIffToken(c, r.target);
  }

  function Formatted(c: Config, target: string): string {
    var k := Sprintf(c.keyPattern, [target]);
    if k.Some? then k.value else ""
  }

  // ---- loading ----

  // Position k has the newest entry of the key.
  ghost predicate NewestAt(log: seq<Entry>, key: string, k: nat) {
    k < |log| && log[k].key == key && forall j | k < j < |log| :: log[j].key != key
  }

  lemma {:induction false} LatestIsNewest(log: seq<Entry>, key: string)
    ensures Latest(log, key).None? <==> forall i | 0 <= i < |log| :: log[i].key != key
    ensures forall k: nat | NewestAt(log, key, k) :: Latest(log, key) == Some(log[k])
  {
    if log != [] && log[|log| - 1].key != key {
      var front := log[..|log| - 1];
      LatestIsNewest(front, key);
      forall k: nat | NewestAt(log, key, k) ensures Latest(log, key) == Some(log[k]) {
        assert NewestAt(front, key, k);
      }
      assert forall i | 0 <= i < |front| :: front[i] == log[i];
    }
  }

  lemma LoadTurnedDown(c: Config, log: seq<Entry>, target: string)
    requires ValidConfig(c)
    ensures !IsToken(c.u, target) ==> Load(c, log, target) == Err(Validation)
    ensures IsToken(c.u, target) && (forall i | 0 <= i < |log| :: log[i].key != Formatted(c, target)) ==>
              Load(c, log, target) == Err(ConfigNotFound)
  {
    KeyBuiltIffToken(c, target);
    ValidatorsAgree(c.u, target);
    LatestIsNewest(log, Formatted(c, target));
  }

  // The newest entry of the target's key is what a load yields: its decoded record, and the time of the entry or, if it
  // has none, of the record. An entry that cannot be decoded, or decodes to an incomplete record, is an error.
  lemma LoadYieldsTheNewest(c: Config, log: seq<Entry>, target: string, k: nat)
    requires ValidConfig(c) && IsToken(c.u, target) && NewestAt(log, Formatted(c, target), k)
    ensures var (e, rec) := (log[k], c.codec.decode(log[k].value));
            Load(c, log, target) ==
              if e.value == "" then Err(Validation)
              else if rec.None? then Err(DecodeFailed)
              else if !Complete(c.codec, rec.value) || !IsToken(c.u, rec.value.target) then Err(Validation)
              else Ok(Stored(rec.value, c.bucket, e.key, e.revision,
                             if e.created != 0 then e.created else rec.value.timestamp))
  {
    KeyBuiltIffToken(c, target);
    LatestIsNewest(log, Formatted(c, target));
    var rec := c.codec.decode(log[k].value);
    if rec.Some? {
      AcceptedIffComplete(c.u, c.codec, rec.value);
    }
  }

  // ---- submitting, in any run ----

  // The code with which this outcome of the next step of a submitter makes it fail.
  ghost function FailureOf(c: Config, pc: PC, o: Outcome): Option<Code> {
    match pc
    case Submit(cmd) =>
      if o.Bad? && o.cause.BadContext? then Some(Validation)
      else if !Complete(c.codec, cmd) || !IsToken(c.u, cmd.target) then Some(Validation)
      else if o.Bad? then Some(Disconnected)
      else if c.codec.encode(cmd).None? then Some(EncodeFailed)
      else None
    case Put(_, _, _) => if o.Bad? then Some(KVStoreFailed) else None
    case Notify(_, _, _) =>
      if o.time == 0 then Some(Validation)
      else if o.Good? || !o.cause.NotSent? then None
      else
        (match o.cause.why
         case NotEncoded => Some(EncodeFailed)
         case ContextEnded => Some(Validation)
         case NoConnection => Some(Disconnected)
         case PublishLost => Some(PublishFailed)
         case FlushFailed => None)
    case Flush(_, _, _) => if o.Bad? then Some(PublishFailed) else None
    case _ => None
  }

  lemma SubmitFailure(c: Config, w: World, pc: PC, o: Outcome, e: (PC, seq<Entry>, seq<Sent>))
    requires ValidConfig(c) && pc.Submit? && SubmitStep(c, w, pc, o) == Some(e)
    ensures e.0 == if FailureOf(c, pc, o).Some? then Failed(FailureOf(c, pc, o).value)
                   else Put(pc.cmd, Formatted(c, pc.cmd.target), c.codec.encode(pc.cmd).value)
    ensures e.1 == w.log && e.2 == w.sent
  {
    AcceptedIffComplete(c.u, c.codec, pc.cmd);
    StorePrepared(c, pc.cmd, o.Good?);
  }

  lemma PutFailure(c: Config, w: World, pc: PC, o: Outcome, e: (PC, seq<Entry>, seq<Sent>))
    requires pc.Put? && PutStep(c, w, pc, o) == Some(e)
    ensures e.0 == if o.Good? then ReadBack(pc.cmd, pc.key, o.rev) else Failed(KVStoreFailed)
    ensures e.2 == w.sent
    ensures e.1 == w.log + if o.Good? then [Entry(pc.key, pc.value, o.rev, o.time, true)]
                           else if o.cause.WriteApplied?
                           then [Entry(pc.key, pc.value, o.cause.rev, o.cause.created, true)]
                           else []
  {
  }

  lemma LateStepFailure(c: Config, w: World, pc: PC, o: Outcome, e: (PC, seq<Entry>, seq<Sent>))
    requires ValidConfig(c) && LocalInv(c, w.log, pc) && Step(c, w, pc, o) == Some(e) && (pc.Notify? || pc.Flush?)
    ensures e.0.Failed? <==> FailureOf(c, pc, o).Some?
    ensures e.0.Failed? ==> FailureOf(c, pc, o) == Some(e.0.code)
    ensures e.0.Acked? <==> pc.Flush? && o.Good?
  {
    if pc.Notify? {
      ReadyAfterStore(c, w.log, pc, o.time);
      AnnounceFails(w, pc, o, PrepareNotification(c, pc.cmd, pc.stored, o.time), e, c);
    } else {
      FlushFails(c, w, pc, o, e);
    }
  }

  lemma FlushFails(c: Config, w: World, pc: PC, o: Outcome, e: (PC, seq<Entry>, seq<Sent>))
    requires pc.Flush? && FlushStep(c, w, pc, o) == Some(e)
    ensures e.0.Failed? <==> FailureOf(c, pc, o).Some?
    ensures e.0.Failed? ==> FailureOf(c, pc, o) == Some(e.0.code)
    ensures e.0.Acked? <==> o.Good?
  {
  }

  lemma AnnounceFails(w: World, pc: PC, o: Outcome, r: Result<(string, Notification)>, e: (PC, seq<Entry>, seq<Sent>),
                      c: Config)
    requires pc.Notify? && Announce(w, pc, o, r) == Some(e) && (r.Ok? <==> o.time != 0)
    requires r.Err? ==> r.code == Validation
    ensures e.0.Failed? <==> FailureOf(c, pc, o).Some?
    ensures e.0.Failed? ==> FailureOf(c, pc, o) == Some(e.0.code)
    ensures !e.0.Acked?
  {
  }

  // Whether a step of a submitter fails, with which code, and whether it acknowledges.
  lemma StepFails(c: Config, w: World, pc: PC, o: Outcome, e: (PC, seq<Entry>, seq<Sent>))
    requires ValidConfig(c) && LocalInv(c, w.log, pc) && Step(c, w, pc, o) == Some(e)
    ensures e.0.Failed? <==> FailureOf(c, pc, o).Some?
    ensures e.0.Failed? ==> FailureOf(c, pc, o) == Some(e.0.code)
    ensures e.0.Acked? <==> pc.Flush? && o.Good?
  {
    if pc.Submit? {
      SubmitFailure(c, w, pc, o, e);
    } else if pc.Put? {
      PutFailure(c, w, pc, o, e);
    } else if !pc.ReadBack? {
      LateStepFailure(c, w, pc, o, e);
    }
  }

  predicate FailedWith(w: World, t: Tid, code: Code) {
    t in w.threads && w.threads[t] == Failed(code)
  }

  predicate IsAcked(w: World, t: Tid) {
    t in w.threads && w.threads[t].Acked?
  }

  ghost predicate FailsAt(c: Config, h: History, j: nat, t: Tid, code: Code) {
    && j < |h.ws| && j < |h.acts| && h.acts[j].Run? && h.acts[j].t == t && t in h.ws[j].threads
    && FailureOf(c, h.ws[j].threads[t], h.acts[j].o) == Some(code)
  }

  ghost predicate AcksAt(h: History, j: nat, t: Tid) {
    && j < |h.ws| && j < |h.acts| && h.acts[j].Run? && h.acts[j].t == t && t in h.ws[j].threads
    && h.ws[j].threads[t].Flush? && h.acts[j].o.Good?
  }

  ghost predicate FailsBefore(c: Config, h: History, i: nat, t: Tid, code: Code) {
    exists j: nat :: j < i && FailsAt(c, h, j, t, code)
  }

  ghost predicate AcksBefore(h: History, i: nat, t: Tid) {
    exists j: nat :: j < i && AcksAt(h, j, t)
  }

  lemma BeforeGrows(c: Config, h: History, i: nat, t: Tid, code: Code)
    ensures FailsBefore(c, h, i + 1, t, code) <==> FailsBefore(c, h, i, t, code) || FailsAt(c, h, i, t, code)
    ensures AcksBefore(h, i + 1, t) <==> AcksBefore(h, i, t) || AcksAt(h, i, t)
  {
    if j: nat :| j < i + 1 && FailsAt(c, h, j, t, code) {
      assert j < i || j == i;
    }
    if j: nat :| j < i + 1 && AcksAt(h, j, t) {
      assert j < i || j == i;
    }
    assert i < i + 1;
    assert FailsBefore(c, h, i, t, code) ==> exists j: nat :: j < i + 1 && FailsAt(c, h, j, t, code) by {
      if j: nat :| j < i && FailsAt(c, h, j, t, code) {
        assert j < i + 1;
      }
    }
    assert AcksBefore(h, i, t) ==> exists j: nat :: j < i + 1 && AcksAt(h, j, t) by {
      if j: nat :| j < i && AcksAt(h, j, t) {
        assert j < i + 1;
      }
    }
  }

  lemma AnswerNext(c: Config, w: World, a: Action, w': World, t: Tid, code: Code)
    requires ValidConfig(c) && Inv(c, w) && Exec(c, w, a) == Some(w')
    ensures FailedWith(w', t, code) <==>
              || FailedWith(w, t, code)
              || (a.Run? && a.t == t && t in w.threads && FailureOf(c, w.threads[t], a.o) == Some(code))
    ensures IsAcked(w', t) <==>
              IsAcked(w, t) || (a.Run? && a.t == t && t in w.threads && w.threads[t].Flush? && a.o.Good?)
  {
    if a.Run? && a.t == t {
      assert LocalInv(c, w.log, w.threads[t]);
      StepFails(c, w, w.threads[t], a.o, Step(c, w, w.threads[t], a.o).value);
    }
  }

  // A submission has failed with a code iff the outcome of one of its steps called for that code, and is acknowledged
  // iff its flush went through.
  lemma {:induction false} SubmitAnswers(c: Config, h: History, i: nat, t: Tid, code: Code)
    requires ValidConfig(c) && IsRun(c, h) && i < |h.ws|
    ensures FailedWith(h.ws[i], t, code) <==> FailsBefore(c, h, i, t, code)
    ensures IsAcked(h.ws[i], t) <==> AcksBefore(h, i, t)
  {
    if i > 0 {
      SubmitAnswers(c, h, i - 1, t, code);
      DesiredTheorems.Reachable(c, h, i - 1);
      AnswerNext(c, h.ws[i - 1], h.acts[i - 1], h.ws[i], t, code);
      BeforeGrows(c, h, i - 1, t, code);
    }
  }

  // Once the store went through, a submission fails iff sending does or the clock reads zero.
  lemma OnlySendingFails(c: Config, h: History, i: nat)
    requires ValidConfig(c) && IsRun(c, h) && i < |h.acts| && h.acts[i].Run?
    requires h.acts[i].t in h.ws[i].threads
    requires h.ws[i].threads[h.acts[i].t].Notify? || h.ws[i].threads[h.acts[i].t].Flush?
    ensures var (pc, o, pc') := (h.ws[i].threads[h.acts[i].t], h.acts[i].o, h.ws[i + 1].threads[h.acts[i].t]);
            && (pc'.Failed? <==> (pc.Notify? && o.time == 0) || o.Bad?)
            && (pc'.Failed? ==> FailureOf(c, pc, o) == Some(pc'.code))
  {
    DesiredTheorems.Reachable(c, h, i);
    var (w, t, o) := (h.ws[i], h.acts[i].t, h.acts[i].o);
    assert Exec(c, w, Run(t, o)) == Some(h.ws[i + 1]);
    assert LocalInv(c, w.log, w.threads[t]);
    LateStep(c, w, w.threads[t], o, Step(c, w, w.threads[t], o).value);
  }

  lemma LateStep(c: Config, w: World, pc: PC, o: Outcome, e: (PC, seq<Entry>, seq<Sent>))
    requires ValidConfig(c) && LocalInv(c, w.log, pc) && Step(c, w, pc, o) == Some(e) && (pc.Notify? || pc.Flush?)
    ensures e.0.Failed? <==> (pc.Notify? && o.time == 0) || o.Bad?
    ensures e.0.Failed? ==> FailureOf(c, pc, o) == Some(e.0.code)
  {
    LateStepFailure(c, w, pc, o, e);
    if pc.Notify? {
      ReadyAfterStore(c, w.log, pc, o.time);
      AnnounceLate(w, pc, o, PrepareNotification(c, pc.cmd, pc.stored, o.time), e);
    } else {
      FlushLate(c, w, pc, o, e);
    }
  }

  lemma AnnounceLate(w: World, pc: PC, o: Outcome, r: Result<(string, Notification)>, e: (PC, seq<Entry>, seq<Sent>))
    requires pc.Notify? && Announce(w, pc, o, r) == Some(e) && (r.Ok? <==> o.time != 0)
    ensures e.0.Failed? <==> o.time == 0 || o.Bad?
  {
  }

  lemma FlushLate(c: Config, w: World, pc: PC, o: Outcome, e: (PC, seq<Entry>, seq<Sent>))
    requires pc.Flush? && FlushStep(c, w, pc, o) == Some(e)
    ensures e.0.Failed? <==> o.Bad?
  {
  }

  // ---- what the stages of a submission do ----

  // After the write its metadata are read back: those of the newest entry of the key, or else its own.
  lemma ReadBackReports(c: Config, w: World, t: Tid, o: Outcome, w': World, k: nat)
    requires Exec(c, w, Run(t, o)) == Some(w') && w.threads[t].ReadBack? && NewestAt(w.log, w.threads[t].key, k)
    ensures var (pc, e) := (w.threads[t], w.log[k]);
            && w'.log == w.log && w'.sent == w.sent
            && var time := if e.created != 0 then e.created else pc.cmd.timestamp;
            && var stored := if o.Good? then Stored(pc.cmd, c.bucket, pc.key, e.revision, time)
                             else Stored(pc.cmd, c.bucket, pc.key, pc.own, pc.cmd.timestamp);
            && w'.threads[t] == Notify(pc.cmd, stored, pc.own)
  {
    LatestIsNewest(w.log, w.threads[t].key);
  }

  // The notification that is sent has the time that the acknowledgement will have, which has the metadata of the store.
  lemma SendingDoes(c: Config, w: World, t: Tid, o: Outcome, w': World)
    requires Exec(c, w, Run(t, o)) == Some(w') && w.threads[t].Notify? && w'.threads[t].Flush?
    ensures var (pc, ack) := (w.threads[t], w'.threads[t].ack);
            && w'.log == w.log && |w'.sent| == |w.sent| + 1 && w'.sent[..|w.sent|] == w.sent
            && ack.rpcID == pc.cmd.rpcID && ack.target == pc.cmd.target && ack.acceptedAt == o.time
            && ack.kvBucket == pc.stored.bucket && ack.kvKey == pc.stored.key && ack.kvRevision == pc.stored.revision
            && w'.sent[|w.sent|] ==
                 Sent(ack.subject, Notification(pc.cmd.version, pc.cmd.rpcID, pc.cmd.target, "configure", pc.cmd.uuid,
                                                pc.stored.bucket, pc.stored.key, o.time), |w.log|)
  {
    PreparedSubject(c, w.threads[t].cmd, w.threads[t].stored, o.time);
  }

  // ---- a submission can go through ----

  // The outcome in which nothing goes wrong: the write gets the next revision, and the clock works.
  function GoodOutcome(w: World): Outcome {
    Good(LastRevision(w.log) + 1, 1)
  }

  // Whatever the state of a submission, its next step can go right; then it either moves on or, at the first stage, is
  // turned down for what is wrong with the command.
  lemma SubmitterCanStep(c: Config, w: World, t: Tid)
    requires ValidConfig(c) && Inv(c, w) && t in w.threads && !w.threads[t].Acked? && !w.threads[t].Failed?
    ensures var (pc, w') := (w.threads[t], Exec(c, w, Run(t, GoodOutcome(w))));
            && w'.Some? && t in w'.value.threads
            && match pc
               case Submit(cmd) => w'.value.threads[t].Put? || FailureOf(c, pc, GoodOutcome(w)).Some?
               case Put(_, _, _) => w'.value.threads[t].ReadBack?
               case ReadBack(_, _, _) => w'.value.threads[t].Notify?
               case Notify(_, _, _) => w'.value.threads[t].Flush?
               case Flush(_, _, _) => w'.value.threads[t].Acked?
               case _ => true
  {
    var (pc, o) := (w.threads[t], GoodOutcome(w));
    assert LocalInv(c, w.log, pc);
    assert Step(c, w, pc, o).Some?;
    if pc.Submit? {
      SubmitFailure(c, w, pc, o, Step(c, w, pc, o).value);
    } else if pc.Notify? {
      ReadyAfterStore(c, w.log, pc, o.time);
    }
  }

  // The next step of t, gone right.
  lemma StepOn(c: Config, h: History, t: Tid) returns (h': History)
    requires ValidConfig(c) && IsRun(c, h) && t in h.ws[|h.acts|].threads
    requires !h.ws[|h.acts|].threads[t].Acked? && !h.ws[|h.acts|].threads[t].Failed?
    ensures IsRun(c, h') && |h'.acts| == |h.acts| + 1
    ensures Exec(c, h.ws[|h.acts|], Run(t, GoodOutcome(h.ws[|h.acts|]))) == Some(h'.ws[|h'.acts|])
  {
    var w := h.ws[|h.acts|];
    DesiredTheorems.Reachable(c, h, |h.acts|);
    SubmitterCanStep(c, w, t);
    h' := History(h.ws + [Exec(c, w, Run(t, GoodOutcome(w))).value], h.acts + [Run(t, GoodOutcome(w))]);
  }

  // A complete command for a valid target that can be encoded gets its acknowledgement when nothing goes wrong.
  lemma SubmitRun(c: Config, cmd: Record) returns (h: History)
    requires ValidConfig(c) && Complete(c.codec, cmd) && IsToken(c.u, cmd.target) && c.codec.encode(cmd).Some?
    ensures IsRun(c, h) && |h.acts| == 6 && IsAcked(h.ws[6], 0)
  {
    h := History([World([], [], map[]), World([], [], map[0 := Submit(cmd)])], [Call(0, cmd)]);
    for n := 1 to 6
      invariant IsRun(c, h) && |h.acts| == n && 0 in h.ws[n].threads && Stage(h.ws[n].threads[0]) == n
      invariant h.ws[n].threads[0].Submit? ==> h.ws[n].threads[0].cmd == cmd
    {
      DesiredTheorems.Reachable(c, h, n);
      SubmitterCanStep(c, h.ws[n], 0);
      h := StepOn(c, h, 0);
    }
  }

  function Stage(pc: PC): nat {
    match pc
    case Submit(_) => 1
    case Put(_, _, _) => 2
    case ReadBack(_, _, _) => 3
    case Notify(_, _, _) => 4
    case Flush(_, _, _) => 5
    case Acked(_, _, _) => 6
    case Failed(_) => 7
  }
}

// What the log of the watch loop says: which updates the handler is called with, how often errors are reported, and
// when the two channels are closed.

module WatchLoop {
  import opened Desired
  import opened Watch

  // ---- reading a log ----

  function Handled(log: seq<Event>): seq<Stored> {
    if log == [] then []
    else
      var (front, last) := (Handled(log[..|log| - 1]), log[|log| - 1]);
      if last.Handle? then front + [last.stored] else front
  }

  function Reports(log: seq<Event>): seq<Report> {
    if log == [] then []
    else
      var (front, last) := (Reports(log[..|log| - 1]), log[|log| - 1]);
      if last.Report? then front + [last.report] else front
  }

  lemma {:induction false} ReadAppend(a: seq<Event>, b: seq<Event>)
    ensures Handled(a + b) == Handled(a) + Handled(b)
    ensures Reports(a + b) == Reports(a) + Reports(b)
  {
    if b == [] {
      assert a + b == a;
    } else {
      var (front, last) := (b[..|b| - 1], b[|b| - 1]);
      assert (a + b)[..|a + b| - 1] == a + front && (a + b)[|a + b| - 1] == last;
      ReadAppend(a, front);
    }
  }

  lemma ReadOne(e: Event)
    ensures Handled([e]) == if e.Handle? then [e.stored] else []
    ensures Reports([e]) == if e.Report? then [e.report] else []
  {
  }

  // ---- the filter and map ----

  // An update with a value that can be decoded.
  predicate Decodes(decode: Decoder, r: Received) {
    r.Value? && r.update.value != "" && decode(r.update.value).Ok?
  }

  // What the handler is given for it: the record, where it is stored, and the time of the entry or, if it has none, of
  // the record.
  function Delivered(decode: Decoder, r: Received): Stored
    requires Decodes(decode, r)
  {
    var (u, rec) := (r.update, decode(r.update.value).value);
    Stored(rec, u.bucket, u.key, u.revision, if u.created == 0 then rec.timestamp else u.created)
  }

  // The stored configs of the first n updates that have one.
  function Deliveries(decode: Decoder, feed: seq<Received>, n: nat): seq<Stored>
    requires n <= |feed|
  {
    if n == 0 then []
    else
      var last := feed[n - 1];
      Deliveries(decode, feed, n - 1) + if Decodes(decode, last) then [Delivered(decode, last)] else []
  }

  predicate Fails(decode: Decoder, r: Received, fails: bool) {
    r.Value? && r.update.value != "" && (decode(r.update.value).Err? || fails)
  }

  // What is reported of it: why it cannot be decoded, or that the handler turned it down.
  function FailureReport(decode: Decoder, r: Received): Report
    requires r.Value?
  {
    var rec := decode(r.update.value);
    if rec.Err? then DecodeReport(rec.code) else HandlerReport
  }

  // The reports that the first n updates give rise to.
  function ReportsDue(decode: Decoder, feed: seq<Received>, fails: nat -> bool, n: nat): seq<Report>
    requires n <= |feed|
  {
    if n == 0 then []
    else
      var last := feed[n - 1];
      var due := if Fails(decode, last, fails(n - 1)) then [FailureReport(decode, last)] else [];
      ReportsDue(decode, feed, fails, n - 1) + due
  }

  function Failing(decode: Decoder, feed: seq<Received>, fails: nat -> bool, n: nat): set<nat>
    requires n <= |feed|
  {
    set i: nat | i < n && Fails(decode, feed[i], fails(i))
  }

  lemma {:induction false} OneReportEach(decode: Decoder, feed: seq<Received>, fails: nat -> bool, n: nat)
    requires n <= |feed|
    ensures |ReportsDue(decode, feed, fails, n)| == |Failing(decode, feed, fails, n)|
  {
    var s' := Failing(decode, feed, fails, n);
    if n > 0 {
      OneReportEach(decode, feed, fails, n - 1);
      var s := Failing(decode, feed, fails, n - 1);
      assert s' == if Fails(decode, feed[n - 1], fails(n - 1)) then s + {n - 1} else s;
    } else {
      assert s' == {};
    }
  }

  lemma ReadResponse(decode: Decoder, r: Received, fails: bool)
    ensures Handled(Respond(decode, r, fails)) == if Decodes(decode, r) then [Delivered(decode, r)] else []
    ensures Reports(Respond(decode, r, fails)) == if Fails(decode, r, fails) then [FailureReport(decode, r)] else []
  {
    if r.Value? && r.update.value != "" {
      if Decoded(decode, r).Err? {
        ReadOne(Report(DecodeReport(Decoded(decode, r).code)));
      } else {
        ReadOne(Handle(Decoded(decode, r).value));
        ReadOne(Report(HandlerReport));
        ReadAppend([Handle(Decoded(decode, r).value)], [Report(HandlerReport)]);
      }
    }
  }

  lemma ReadAdded(decode: Decoder, r: Received, fails: bool, isFirst: bool)
    ensures Handled(Added(decode, r, fails, isFirst)) == if Decodes(decode, r) then [Delivered(decode, r)] else []
    ensures Reports(Added(decode, r, fails, isFirst)) ==
              if Fails(decode, r, fails) then [FailureReport(decode, r)] else []
  {
    ReadResponse(decode, r, fails);
    ReadOne(CloseReady);
  }

  lemma {:induction false} RunningHandles(decode: Decoder, feed: seq<Received>, fails: nat -> bool, k: nat, n: nat)
    requires n <= |feed|
    ensures Handled(Running(decode, feed, fails, k, n)) == Deliveries(decode, feed, n)
  {
    if n > 0 {
      var (log, more) := (Running(decode, feed, fails, k, n - 1), Added(decode, feed[n - 1], fails(n - 1), n - 1 == k));
      RunningHandles(decode, feed, fails, k, n - 1);
      assert Handled(log + more) == Handled(log) + Handled(more) by {
        ReadAppend(log, more);
      }
      ReadAdded(decode, feed[n - 1], fails(n - 1), n - 1 == k);
    }
  }

  lemma {:induction false} RunningReports(decode: Decoder, feed: seq<Received>, fails: nat -> bool, k: nat, n: nat)
    requires n <= |feed|
    ensures Reports(Running(decode, feed, fails, k, n)) == ReportsDue(decode, feed, fails, n)
  {
    if n > 0 {
      var (log, more) := (Running(decode, feed, fails, k, n - 1), Added(decode, feed[n - 1], fails(n - 1), n - 1 == k));
      RunningReports(decode, feed, fails, k, n - 1);
      assert Reports(log + more) == Reports(log) + Reports(more) by {
        ReadAppend(log, more);
      }
      ReadAdded(decode, feed[n - 1], fails(n - 1), n - 1 == k);
    }
  }

  lemma RunningReads(decode: Decoder, feed: seq<Received>, fails: nat -> bool, k: nat, n: nat)
    requires n <= |feed|
    ensures Handled(Running(decode, feed, fails, k, n)) == Deliveries(decode, feed, n)
    ensures Reports(Running(decode, feed, fails, k, n)) == ReportsDue(decode, feed, fails, n)
  {
    RunningHandles(decode, feed, fails, k, n);
    RunningReports(decode, feed, fails, k, n);
  }

  // The handler is called with exactly the decodable non-empty updates that were consumed, in order, and there is one
  // report for each update that fails to decode or that the handler turns down.
  lemma HandlesTheDecodable(decode: Decoder, feed: seq<Received>, fails: nat -> bool)
    ensures var (log, n) := (Expected(decode, feed, fails), Consumed(feed));
            && Handled(log) == Deliveries(decode, feed, n)
            && Reports(log) == ReportsDue(decode, feed, fails, n) && |Reports(log)| == |Failing(decode, feed, fails, n)|
  {
    var n := Consumed(feed);
    var k := FirstNil(feed);
    RunningReads(decode, feed, fails, k, n);
    OneReportEach(decode, feed, fails, n);
    if Ended(feed) {
      ReadTail(Running(decode, feed, fails, k, n), n <= k);
    }
  }

  lemma ReadTail(log: seq<Event>, b: bool)
    ensures Handled(log + OnlyIf(b, CloseReady) + [CloseDone]) == Handled(log)
    ensures Reports(log + OnlyIf(b, CloseReady) + [CloseDone]) == Reports(log)
  {
    ReadOne(CloseReady);
    ReadOne(CloseDone);
    ReadAppend(log, OnlyIf(b, CloseReady));
    ReadAppend(log + OnlyIf(b, CloseReady), [CloseDone]);
  }

  // ---- the channels ----

  // Where the loop ends is the first turn that ends it.
  lemma {:induction false} EndIsFirst(feed: seq<Received>, i: nat)
    requires i <= |feed|
    ensures var n := EndFrom(feed, i); (forall j | i <= j < n :: !Ends(feed[j])) && (n < |feed| ==> Ends(feed[n]))
    decreases |feed| - i
  {
    if i < |feed| && !Ends(feed[i]) {
      EndIsFirst(feed, i + 1);
    }
  }

  predicate Silent(log: seq<Event>) {
    CloseReady !in log && CloseDone !in log
  }

  ghost predicate OnlyAt(log: seq<Event>, e: Event, j: nat) {
    j < |log| && log[j] == e && forall i | 0 <= i < |log| && log[i] == e :: i == j
  }

  // ready was closed once, right after the handler had been given exactly these.
  ghost predicate ReadyAfter(log: seq<Event>, stored: seq<Stored>) {
    exists j: nat :: OnlyAt(log, CloseReady, j) && Handled(log[..j]) == stored
  }

  lemma ReadyNow(log: seq<Event>)
    requires Silent(log)
    ensures ReadyAfter(log + [CloseReady], Handled(log)) && CloseDone !in log + [CloseReady]
  {
    assert (log + [CloseReady])[..|log|] == log;
    assert OnlyAt(log + [CloseReady], CloseReady, |log|);
  }

  lemma ReadyBefore(log: seq<Event>, stored: seq<Stored>, more: seq<Event>)
    requires ReadyAfter(log, stored) && CloseReady !in more
    ensures ReadyAfter(log + more, stored)
  {
    var j: nat :| OnlyAt(log, CloseReady, j) && Handled(log[..j]) == stored;
    assert (log + more)[..j] == log[..j];
    assert OnlyAt(log + more, CloseReady, j);
  }

  lemma ResponseClosesNothing(decode: Decoder, r: Received, fails: bool)
    ensures Silent(Respond(decode, r, fails))
  {
  }

  lemma SilentAppend(a: seq<Event>, b: seq<Event>)
    ensures Silent(a + b) <==> Silent(a) && Silent(b)
    ensures CloseDone in a + b <==> CloseDone in a || CloseDone in b
  {
    if CloseReady in a + b {
      var i :| 0 <= i < |a + b| && (a + b)[i] == CloseReady;
      assert i < |a| || b[i - |a|] == CloseReady;
    }
  }

  // What the log of a running loop says about the channels: whether the first nil entry is past, and what the handler
  // had been given before it.
  ghost predicate ReadyState(past: bool, initial: seq<Stored>, log: seq<Event>) {
    CloseDone !in log && if past then ReadyAfter(log, initial) else Silent(log)
  }

  lemma ReadyNext(
    decode: Decoder, r: Received, fails: bool, past: bool, isFirst: bool, initial: seq<Stored>, log: seq<Event>)
    requires ReadyState(past, initial, log)
    requires if past then !isFirst else isFirst == r.Nil?
    requires isFirst ==> Handled(log) == initial
    ensures ReadyState(past || isFirst, initial, log + Added(decode, r, fails, isFirst))
  {
    var more := Added(decode, r, fails, isFirst);
    ResponseClosesNothing(decode, r, fails);
    SilentAppend(log, more);
    if past {
      ReadyBefore(log, initial, more);
    } else if isFirst {
      ReadyNow(log);
    }
  }

  lemma {:induction false} RunningReady(decode: Decoder, feed: seq<Received>, fails: nat -> bool, k: nat, n: nat)
    requires n <= |feed| && k <= |feed| && IsFirstNil(feed, k)
    ensures ReadyState(k < n, Deliveries(decode, feed, k), Running(decode, feed, fails, k, n))
  {
    if n > 0 {
      var (initial, log) := (Deliveries(decode, feed, k), Running(decode, feed, fails, k, n - 1));
      RunningReady(decode, feed, fails, k, n - 1);
      if k == n - 1 {
        RunningReads(decode, feed, fails, k, n - 1);
      }
      ReadyNext(decode, feed[n - 1], fails(n - 1), k < n - 1, n - 1 == k, initial, log);
    }
  }

  // The tail of a loop that has ended.
  lemma TailCloses(past: bool, initial: seq<Stored>, log: seq<Event>)
    requires ReadyState(past, initial, log)
    ensures var log' := log + OnlyIf(!past, CloseReady);
            ReadyAfter(log', if past then initial else Handled(log)) && CloseDone !in log'
  {
    if past {
      assert log + [] == log;
    } else {
      ReadyNow(log);
    }
  }

  // The log of the loop before its tail.
  lemma BeforeTail(decode: Decoder, feed: seq<Received>, fails: nat -> bool) returns (log: seq<Event>)
    ensures log == Running(decode, feed, fails, FirstNil(feed), Consumed(feed))
              && Handled(log) == Deliveries(decode, feed, Consumed(feed))
    ensures ReadyState(FirstNil(feed) < Consumed(feed), Deliveries(decode, feed, FirstNil(feed)), log)
  {
    NilIsFirst(feed, 0);
    log := Running(decode, feed, fails, FirstNil(feed), Consumed(feed));
    RunningReady(decode, feed, fails, FirstNil(feed), Consumed(feed));
    RunningReads(decode, feed, fails, FirstNil(feed), Consumed(feed));
  }

  // If the loop has ended or has seen a nil entry, ready was closed, once: right after the handler was given what came
  // before the first nil entry (or, without one, everything). Otherwise it is still open.
  lemma ReadyClosedOnce(decode: Decoder, feed: seq<Received>, fails: nat -> bool)
    ensures if ReadyDue(feed) then ReadyAfter(Expected(decode, feed, fails), Deliveries(decode, feed, Initial(feed)))
            else CloseReady !in Expected(decode, feed, fails)
  {
    var (k, n) := (FirstNil(feed), Consumed(feed));
    var log := BeforeTail(decode, feed, fails);
    if Ended(feed) {
      TailCloses(k < n, Deliveries(decode, feed, k), log);
      ReadyBefore(log + OnlyIf(n <= k, CloseReady), Deliveries(decode, feed, Initial(feed)), [CloseDone]);
    }
  }

  // done is closed iff the loop has ended, once, last of all, and never before ready.
  lemma DoneClosedLast(decode: Decoder, feed: seq<Received>, fails: nat -> bool)
    ensures var log := Expected(decode, feed, fails);
            if Ended(feed) then log != [] && OnlyAt(log, CloseDone, |log| - 1) && CloseReady in log[..|log| - 1]
            else CloseDone !in log
  {
    var (k, n) := (FirstNil(feed), Consumed(feed));
    var log := BeforeTail(decode, feed, fails);
    if Ended(feed) {
      TailCloses(k < n, Deliveries(decode, feed, k), log);
      LastOnly(log + OnlyIf(n <= k, CloseReady), Deliveries(decode, feed, Initial(feed)));
    }
  }

  lemma LastOnly(front: seq<Event>, stored: seq<Stored>)
    requires ReadyAfter(front, stored) && CloseDone !in front
    ensures var log := front + [CloseDone]; OnlyAt(log, CloseDone, |log| - 1) && CloseReady in log[..|log| - 1]
  {
    assert (front + [CloseDone])[..|front|] == front;
  }
}

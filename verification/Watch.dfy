// internal/kv/watch.go: the loop that consumes the updates of one watch.

module Watch {
  import opened Common
  import opened Desired

  // decodeDesiredConfigRecord; Desired has it as DecodeRecord for a given configuration.
  type Decoder = Bytes -> Result<Record>

  datatype Update = Update(bucket: string, key: string, value: Bytes, revision: nat, created: int)

  // What one turn of the select sees.
  datatype Received = Cancelled | ChannelClosed | Nil | Value(update: Update)

  datatype Report = DecodeReport(code: Code) | HandlerReport

  // What the loop does to the outside: it closes the two channels, calls the handler, and reports errors.
  datatype Event = CloseReady | CloseDone | Handle(stored: Stored) | Report(report: Report)

  predicate Ends(r: Received) {
    r.Cancelled? || r.ChannelClosed?
  }

  // ---- what is promised ----

  // Where a loop that has got to i ends: at the first turn that ends it, or after all of feed.
  function EndFrom(feed: seq<Received>, i: nat): (n: nat)
    requires i <= |feed|
    ensures i <= n <= |feed|
    decreases |feed| - i
  {
    if i == |feed| || Ends(feed[i]) then i else EndFrom(feed, i + 1)
  }

  // How many updates are consumed before the loop ends.
  function Consumed(feed: seq<Received>): (n: nat)
    ensures n <= |feed|
  {
    EndFrom(feed, 0)
  }

  function NilFrom(feed: seq<Received>, i: nat): (n: nat)
    requires i <= |feed|
    ensures i <= n <= |feed|
    decreases |feed| - i
  {
    if i == |feed| || feed[i].Nil? then i else NilFrom(feed, i + 1)
  }

  // The position of the first nil entry, which marks the end of the initial values; |feed| if there is none.
  function FirstNil(feed: seq<Received>): nat {
    NilFrom(feed, 0)
  }

  function OnlyIf(b: bool, e: Event): seq<Event> {
    if b then [e] else []
  }

  predicate Ended(feed: seq<Received>) {
    Consumed(feed) < |feed|
  }

  // How many updates come before the first nil entry, as far as the loop got.
  function Initial(feed: seq<Received>): (n: nat)
    ensures n <= Consumed(feed)
  {
    if FirstNil(feed) < Consumed(feed) then FirstNil(feed) else Consumed(feed)
  }

  predicate ReadyDue(feed: seq<Received>) {
    Ended(feed) || FirstNil(feed) < Consumed(feed)
  }

  // The stored config that an update stands for, unless it has no value or cannot be decoded.
  function Decoded(decode: Decoder, r: Received): Result<Stored>
    requires r.Value?
  {
    var u := r.update;
    match decode(u.value)
    case Err(code) => Err(code)
    case Ok(rec) => Ok(Stored(rec, u.bucket, u.key, u.revision, if u.created != 0 then u.created else rec.timestamp))
  }

  // Each update on its own: nothing, one report, or one call of the handler and a report if that fails.
  function Respond(decode: Decoder, r: Received, fails: bool): seq<Event> {
    if !r.Value? || r.update.value == "" then []
    else if Decoded(decode, r).Err? then [Report(DecodeReport(Decoded(decode, r).code))]
    else [Handle(Decoded(decode, r).value)] + if fails then [Report(HandlerReport)] else []
  }

  // What a turn adds to the log: the first nil entry closes ready, later ones do nothing.
  function Added(decode: Decoder, r: Received, fails: bool, isFirst: bool): seq<Event> {
    if r.Nil? then OnlyIf(isFirst, CloseReady) else Respond(decode, r, fails)
  }

  // The whole log of a loop that has consumed n updates and is still running, if k is the position of the first nil
  // entry.
  function Running(decode: Decoder, feed: seq<Received>, fails: nat -> bool, k: nat, n: nat): seq<Event>
    requires n <= |feed|
  {
    if n == 0 then [] else Running(decode, feed, fails, k, n - 1) + Added(decode, feed[n - 1], fails(n - 1), n - 1 == k)
  }

  // The log after all of feed: if the loop has ended, both channels have been closed.
  function Expected(decode: Decoder, feed: seq<Received>, fails: nat -> bool): seq<Event> {
    var (k, n) := (FirstNil(feed), Consumed(feed));
    if n == |feed| then Running(decode, feed, fails, k, n)
    else Running(decode, feed, fails, k, n) + OnlyIf(n <= k, CloseReady) + [CloseDone]
  }

  ghost predicate IsFirstNil(feed: seq<Received>, k: nat) {
    (forall j | 0 <= j < k && j < |feed| :: !feed[j].Nil?) && (k < |feed| ==> feed[k].Nil?)
  }

  lemma {:induction false} NilIsFirst(feed: seq<Received>, i: nat)
    requires i <= |feed|
    ensures var n := NilFrom(feed, i); (forall j | i <= j < n :: !feed[j].Nil?) && (n < |feed| ==> feed[n].Nil?)
    decreases |feed| - i
  {
    if i < |feed| && !feed[i].Nil? {
      NilIsFirst(feed, i + 1);
    }
  }

  // ---- the loop ----

  // A channel that is only ever closed. Closing it twice would panic, hence the precondition.
  class Signal {
    var closed: bool

    constructor ()
      ensures !closed
    {
      closed := false;
    }

    method Close()
      requires !closed
      modifies this
      ensures closed
    {
      closed := true;
    }
  }

  // The part of the loop that deals with an entry that is not nil.
  method HandleEntry(decode: Decoder, u: Update, fails: bool) returns (events: seq<Event>)
    ensures events == Respond(decode, Value(u), fails)
  {
    if u.value == "" {
      return [];
    }
    var rec := decode(u.value);
    if rec.Err? {
      return [Report(DecodeReport(rec.code))];
    }
    var stored := Stored(rec.value, u.bucket, u.key, u.revision, rec.value.timestamp);
    if u.created != 0 {
      stored := stored.(createdAt := u.created);
    }
    events := [Handle(stored)];
    if fails {
      events := events + [Report(HandlerReport)];
    }
  }

  // The loop on the turns that its select takes; if the last of them does not end it, it is waiting for the next.
  method ConsumeWatch(decode: Decoder, feed: seq<Received>, fails: nat -> bool, ready: Signal, done: Signal)
    returns (log: seq<Event>)
    requires ready != done && !ready.closed && !done.closed
    modifies ready, done
    ensures log == Expected(decode, feed, fails)
    ensures ready.closed == ReadyDue(feed) && done.closed == Ended(feed)
  {
    var i;
    i, log := ConsumeUpdates(decode, feed, fails, ready);
    if i == |feed| {
      return;
    }
    if !ready.closed {
      ready.Close();
      log := log + [CloseReady];
    }
    done.Close();
    log := log + [CloseDone];
  }

  // The loop itself; what follows it in ConsumeWatch is deferred in the source.
  method ConsumeUpdates(decode: Decoder, feed: seq<Received>, fails: nat -> bool, ready: Signal)
    returns (i: nat, log: seq<Event>)
    requires !ready.closed
    modifies ready
    ensures i == Consumed(feed) && log == Running(decode, feed, fails, FirstNil(feed), i)
    ensures ready.closed == (FirstNil(feed) < i)
  {
    ghost var k := FirstNil(feed);
    NilIsFirst(feed, 0);
    i, log := 0, [];
    while i < |feed| && !Ends(feed[i])
      invariant i <= |feed| && EndFrom(feed, i) == Consumed(feed)
      invariant log == Running(decode, feed, fails, k, i)
      invariant ready.closed == (k < i)
    {
      var events := Turn(decode, feed[i], fails(i), ready);
      log := log + events;
      i := i + 1;
    }
  }

  // One turn of the loop that does not end it.
  method Turn(decode: Decoder, r: Received, fails: bool, ready: Signal) returns (events: seq<Event>)
    requires !Ends(r)
    modifies ready
    ensures events == Added(decode, r, fails, !old(ready.closed)) && ready.closed == (old(ready.closed) || r.Nil?)
  {
    if !r.Nil? {
      events := HandleEntry(decode, r.update, fails);
    } else if !ready.closed {
      ready.Close();
      events := [CloseReady];
    } else {
      events := [];
    }
  }
}

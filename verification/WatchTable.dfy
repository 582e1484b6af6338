// The table of running watches in a client (trackWatch, the closure that it returns, and stopAllWatches in
// agentcore/client.go), for calls that do not overlap. WatchProtocol has the same code under interleaving.

module WatchTable {

  type WatchId = nat
  type StopFunc = nat

  datatype StopCall = StopCall(id: WatchId, stop: StopFunc)

  // calls has the stop function of every watch in the map once, in some order.
  ghost predicate Lists(calls: seq<StopCall>, watches: map<WatchId, StopFunc>) {
    && (forall i | 0 <= i < |calls| :: calls[i].id in watches && calls[i].stop == watches[calls[i].id])
    && (forall i, j | 0 <= i < j < |calls| :: calls[i].id != calls[j].id)
    && (forall id | id in watches :: exists i :: 0 <= i < |calls| && calls[i].id == id)
  }

  function Seen(watches: map<WatchId, StopFunc>, todo: set<WatchId>): map<WatchId, StopFunc> {
    map id | id in watches && id !in todo :: watches[id]
  }

  lemma ListsNext(calls: seq<StopCall>, watches: map<WatchId, StopFunc>, todo: set<WatchId>, id: WatchId)
    requires Lists(calls, Seen(watches, todo)) && id in todo && id in watches
    ensures Lists(calls + [StopCall(id, watches[id])], Seen(watches, todo - {id}))
  {
    var more := calls + [StopCall(id, watches[id])];
    forall j | j in Seen(watches, todo - {id}) ensures exists i :: 0 <= i < |more| && more[i].id == j {
      if j == id {
        assert more[|calls|].id == id;
      } else {
        assert j in Seen(watches, todo);
        var i :| 0 <= i < |calls| && calls[i].id == j;
        assert more[i].id == j;
      }
    }
  }

  lemma SomeListedFails(calls: seq<StopCall>, watches: map<WatchId, StopFunc>, fails: StopFunc -> bool)
    requires Lists(calls, watches)
    ensures (exists i :: 0 <= i < |calls| && fails(calls[i].stop)) <==>
              (exists id :: id in watches && fails(watches[id]))
  {
  }

  class WatchTable {
    var nextWatchID: nat
    var watches: map<WatchId, StopFunc>
    // The watches whose closure has been through its once, and every call of a stop function.
    var spent: set<WatchId>
    var calls: seq<StopCall>

    // A watch is stopped at most once, and is not in the table any more then.
    ghost predicate Valid()
      reads this
    {
      && (forall id | id in watches :: 1 <= id <= nextWatchID && id !in spent)
      && (forall id | id in spent :: 1 <= id <= nextWatchID)
      && (forall i | 0 <= i < |calls| :: 1 <= calls[i].id <= nextWatchID && calls[i].id !in watches)
      && (forall i, j | 0 <= i < j < |calls| :: calls[i].id != calls[j].id)
    }

    constructor ()
      ensures Valid() && watches == map[] && calls == []
    {
      nextWatchID, watches, spent, calls := 0, map[], {}, [];
    }

    method TrackWatch(stop: StopFunc) returns (id: WatchId)
      requires Valid()
      modifies this
      ensures Valid() && id !in old(watches) && id !in old(spent)
      ensures watches == old(watches)[id := stop] && calls == old(calls) && spent == old(spent)
    {
      nextWatchID := nextWatchID + 1;
      id := nextWatchID;
      watches := watches[id := stop];
    }

    // The closure for the watch with this id.
    method Stop(id: WatchId, fails: StopFunc -> bool) returns (failed: bool)
      requires Valid() && 1 <= id <= nextWatchID
      modifies this
      ensures Valid() && id !in watches && watches == old(watches) - {id}
      ensures calls == if id in old(watches) then old(calls) + [StopCall(id, old(watches)[id])] else old(calls)
      ensures failed == (id in old(watches) && fails(old(watches)[id]))
    {
      if id in spent {
        return false;
      }
      spent := spent + {id};
      if id !in watches {
        return false;
      }
      var stored := watches[id];
      watches := watches - {id};
      calls := calls + [StopCall(id, stored)];
      return fails(stored);
    }

    // The part of StopAllWatches that copies the map.
    method Snapshot() returns (stops: seq<StopCall>)
      ensures Lists(stops, watches)
    {
      stops := [];
      var todo := watches.Keys;
      while todo != {}
        invariant todo <= watches.Keys && Lists(stops, Seen(watches, todo))
        decreases todo
      {
        var id :| id in todo;
        ListsNext(stops, watches, todo, id);
        stops := stops + [StopCall(id, watches[id])];
        todo := todo - {id};
      }
      assert Seen(watches, {}) == watches;
    }

    method StopAllWatches(fails: StopFunc -> bool) returns (failed: bool)
      requires Valid()
      modifies this
      ensures Valid() && watches == map[] && spent == old(spent)
      ensures old(calls) <= calls && Lists(calls[|old(calls)|..], old(watches))
      ensures failed <==> exists id :: id in old(watches) && fails(old(watches)[id])
    {
      var stops := Snapshot();
      SomeListedFails(stops, watches, fails);
      watches := map[];

      failed := false;
      for i := 0 to |stops|
        invariant calls == old(calls) + stops[..i]
        invariant failed <==> exists k :: 0 <= k < i && fails(stops[k].stop)
        invariant watches == map[] && spent == old(spent) && nextWatchID == old(nextWatchID)
      {
        calls := calls + [stops[i]];
        failed := failed || fails(stops[i].stop);
      }
      assert stops[..|stops|] == stops;
    }
  }
}

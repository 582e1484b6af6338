// The watches that a client keeps track of (trackWatch and stopAllWatches in agentcore/client.go), with any number of
// goroutines starting watches, stopping them one by one and stopping them all. One step for each locked section, for
// each entry to and exit from a once, and for each stop function called.

module WatchProtocol {
  import opened Common

  type Tid = nat
  type WatchId = nat

  datatype PC =
    | Idle
    // trackWatch
    | TrackBegin
    | TrackPut(id: WatchId)
    | Tracked(id: WatchId)
    // the closure that trackWatch returns
    | StopBegin(id: WatchId)
    | StopTake(id: WatchId)
    | StopCall(id: WatchId)
    | StopLeave(id: WatchId, failed: bool)
    | StopDone(id: WatchId, failed: bool)
    // stopAllWatches
    | AllBegin
    | AllCalling(stops: set<WatchId>, failed: bool)
    | AllDone(failed: bool)

  datatype Once = Free | Running(t: Tid) | Finished

  datatype StopRecord = StopRecord(id: WatchId, caller: Tid, failed: bool)

  // `calls` has every call of a stop function that a watch was tracked with.
  datatype World = World(
    next: nat, table: set<WatchId>, once: map<WatchId, Once>, calls: seq<StopRecord>, threads: map<Tid, PC>)

  // How a stop function that is called turns out, and which of several is next.
  datatype Outcome = Outcome(failed: bool, id: WatchId)

  datatype Action = Call(t: Tid, pc: PC) | Run(t: Tid, o: Outcome)

  predicate Init(w: World) {
    w == World(0, {}, map[], [], map[])
  }

  // Only the closure of a tracked watch can be called.
  predicate Callable(w: World, pc: PC) {
    pc.TrackBegin? || pc.AllBegin? || (pc.StopBegin? && pc.id in w.once)
  }

  function Exec(w: World, a: Action): Option<World> {
    match a
    case Call(t, pc) =>
      if t in w.threads || !Callable(w, pc) then None else Some(w.(threads := w.threads[t := pc]))
    case Run(t, o) =>
      if t !in w.threads then None else
      var e := Step(w, t, w.threads[t], o);
      if e.None? then None
      else Some(World(e.value.next, e.value.table, e.value.once, e.value.calls, w.threads[t := e.value.pc]))
  }

  datatype Effect = Effect(pc: PC, next: nat, table: set<WatchId>, once: map<WatchId, Once>, calls: seq<StopRecord>)

  function Step(w: World, t: Tid, pc: PC, o: Outcome): Option<Effect> {
    var e := Effect(pc, w.next, w.table, w.once, w.calls);
    match pc
    case TrackBegin => Some(e.(pc := TrackPut(w.next + 1), next := w.next + 1))
    case TrackPut(id) => Some(e.(pc := Tracked(id), table := w.table + {id}, once := w.once[id := Free]))
    case StopBegin(id) =>
      if id !in w.once || w.once[id].Running? then None
      else if w.once[id].Finished? then Some(e.(pc := StopDone(id, false)))
      else Some(e.(pc := StopTake(id), once := w.once[id := Running(t)]))
    case StopTake(id) =>
      if id in w.table then Some(e.(pc := StopCall(id), table := w.table - {id}))
      else Some(e.(pc := StopLeave(id, false)))
    case StopCall(id) => Some(e.(pc := StopLeave(id, o.failed), calls := w.calls + [StopRecord(id, t, o.failed)]))
    case StopLeave(id, failed) => Some(e.(pc := StopDone(id, failed), once := w.once[id := Finished]))
    case AllBegin => Some(e.(pc := AllCalling(w.table, false), table := {}))
    case AllCalling(stops, failed) =>
      if stops == {} then Some(e.(pc := AllDone(failed)))
      else if o.id !in stops then None
      else Some(e.(pc := AllCalling(stops - {o.id}, failed || o.failed),
                   calls := w.calls + [StopRecord(o.id, t, o.failed)]))
    case _ => None
  }

  // ---- where a watch is ----

  function At(w: World, t: Tid): PC {
    if t in w.threads then w.threads[t] else Idle
  }

  function InHand(pc: PC): set<WatchId> {
    match pc
    case TrackPut(id) => {id}
    case StopCall(id) => {id}
    case AllCalling(stops, _) => stops
    case _ => {}
  }

  predicate Called(calls: seq<StopRecord>, id: WatchId) {
    exists k :: 0 <= k < |calls| && calls[k].id == id
  }

  predicate CalledBy(calls: seq<StopRecord>, t: Tid) {
    exists k :: 0 <= k < |calls| && calls[k].caller == t
  }

  predicate FailedBy(calls: seq<StopRecord>, t: Tid) {
    exists k :: 0 <= k < |calls| && calls[k].caller == t && calls[k].failed
  }

  // Between entry to and exit from the once of a watch.
  predicate Inside(pc: PC, id: WatchId) {
    (pc.StopTake? || pc.StopCall? || pc.StopLeave?) && pc.id == id
  }
}

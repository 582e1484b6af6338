// What holds over whole runs of the session protocol: every interleaving, any number of goroutines.

module SessionTheorems {
  import opened Common
  import opened SessionState
  import opened SessionProtocol
  import opened SessionInvariant

  // A run: the worlds it passes through and the action taken in each.
  datatype History = History(ws: seq<World>, acts: seq<Action>)

  ghost predicate IsRun(h: History) {
    && |h.ws| == |h.acts| + 1
    && Init(h.ws[0])
    && forall i | 0 <= i < |h.acts| :: Exec(h.ws[i], h.acts[i]) == Some(h.ws[i + 1])
  }

  lemma {:induction false} Reachable(h: History, i: nat)
    requires IsRun(h) && i < |h.ws|
    ensures Inv(h.ws[i])
  {
    if i == 0 {
      InvInit(h.ws[0]);
    } else {
      Reachable(h, i - 1);
      InvKept(h.ws[i - 1], h.acts[i - 1], h.ws[i]);
    }
  }

  // ---- one Start, one Close, and their flags ----

  ghost predicate NoStart(w: World) {
    forall t: Tid :: StartChan(At(w, t)).None?
  }

  ghost predicate NoClose(w: World) {
    forall t: Tid :: !InClose(At(w, t))
  }

  ghost predicate OnlyStart(w: World, t: Tid) {
    StartChan(At(w, t)) == w.m.startDone && forall u: Tid :: StartChan(At(w, u)).Some? ==> u == t
  }

  ghost predicate OnlyClose(w: World, t: Tid) {
    InClose(At(w, t)) && forall u: Tid :: InClose(At(w, u)) ==> u == t
  }

  lemma FlagsAgree(h: History, i: nat)
    requires IsRun(h) && i < |h.ws|
    ensures h.ws[i].m.starting == h.ws[i].m.startDone.Some?
    ensures if h.ws[i].m.starting then exists t: Tid :: OnlyStart(h.ws[i], t) else NoStart(h.ws[i])
    ensures h.ws[i].m.closing == h.ws[i].m.closeRequested
    ensures if h.ws[i].m.closing then exists t: Tid :: OnlyClose(h.ws[i], t) else NoClose(h.ws[i])
  {
    Reachable(h, i);
    var w := h.ws[i];
    if w.m.starting {
      var t: Tid :| StartChan(At(w, t)) == w.m.startDone;
      assert OnlyStart(w, t);
    }
    if w.m.closing {
      var t: Tid :| InClose(At(w, t));
      assert OnlyClose(w, t);
    }
  }

  // Closing a channel twice would panic; leaving one open would hang a Close.
  lemma ChannelsClosedOnce(h: History, i: nat, ch: ChanId)
    requires IsRun(h) && i < |h.ws| && ch in h.ws[i].closes
    ensures h.ws[i].closes[ch] == if h.ws[i].m.startDone == Some(ch) then 0 else 1
  {
    Reachable(h, i);
  }

  // ---- no runtime after Close ----

  lemma NoInstallWhileClosing(w: World, a: Action, w': World)
    requires Exec(w, a) == Some(w') && w.m.closing && w.m.closing == w.m.closeRequested
    ensures w'.m.nc == w.m.nc || w'.m.nc.None?
    ensures w'.m.js == w.m.js || w'.m.js.None?
    ensures w'.m.kv == w.m.kv || w'.m.kv.None?
  {
    if a.Run? {
      var e, r := RunShape(w, a.t, a.outcome, w');
      HandlesOfStep(w, At(w, a.t), a.outcome, e);
    } else {
      var t := EnvShape(w, a, w');
    }
  }

  // Which sections touch the stored handles.
  predicate TouchesHandles(m: ManagerState, pc: PC, m': ManagerState) {
    || (m'.nc == m.nc && m'.js == m.js && m'.kv == m.kv)
    || (pc.CloseFinish? && m'.nc.None? && m'.js.None? && m'.kv.None?)
    || (pc.StartCommit? && m'.nc == Some(pc.conn) && !m.closing && !m.closeRequested)
    || (pc.RebindCommit? && m'.nc == m.nc == Some(pc.conn) && !m.closing)
  }

  lemma StartHandles(w: World, pc: PC, o: Outcome, e: Effect)
    requires (pc.StartCall? || StartChan(pc).Some?) && StartStep(w, pc, o) == Some(e)
    ensures TouchesHandles(w.m, pc, e.m)
  {
  }

  lemma CloseHandles(w: World, pc: PC, o: Outcome, e: Effect)
    requires (pc.CloseCall? || InClose(pc)) && CloseStep(w, pc, o) == Some(e)
    ensures TouchesHandles(w.m, pc, e.m)
  {
  }

  lemma RebindHandles(w: World, pc: PC, o: Outcome, e: Effect)
    requires RebindStep(w, pc, o) == Some(e)
    ensures TouchesHandles(w.m, pc, e.m)
  {
  }

  lemma HandlesOfStep(w: World, pc: PC, o: Outcome, e: Effect)
    requires ThreadStep(w, pc, o) == Some(e)
    ensures TouchesHandles(w.m, pc, e.m)
  {
    if pc.StartCall? || StartChan(pc).Some? {
      StartHandles(w, pc, o, e);
    } else if pc.Reap? || pc.ReapClose? {
      ReapStepFlags(w, pc, o, e);
    } else if pc.CloseCall? || InClose(pc) {
      CloseHandles(w, pc, o, e);
    } else {
      RebindHandles(w, pc, o, e);
    }
  }

  // Goroutine t is a Start that passes its first locked section in this step.
  predicate Enters(w: World, t: Tid, w': World) {
    At(w, t).StartCall? && StartChan(At(w', t)).Some?
  }

  predicate Commits(w: World, t: Tid, w': World) {
    At(w, t).StartCommit? && w'.m.nc == Some(At(w, t).conn) && w'.m.nc != w.m.nc
  }

  // The step that ends the Close which set `closing`: its final section, or its early exit.
  predicate CloseEnds(w: World, a: Action) {
    && a.Run? && a.t in w.threads
    && (|| w.threads[a.t].CloseFinish?
        || (w.threads[a.t].CloseCall? && EnterClose(w.m).1.NothingToClose?))
  }

  lemma CloseEndClears(w: World, pc: PC, o: Outcome, e: Effect)
    requires pc.CloseFinish? || (pc.CloseCall? && EnterClose(w.m).1.NothingToClose?)
    requires CloseStep(w, pc, o) == Some(e) && Coherent(w.m)
    ensures e.m.nc.None? && e.m.js.None? && e.m.kv.None? && !e.m.closing
    ensures e.m.startDone == w.m.startDone && (pc.CloseCall? ==> w.m.startDone.None?) && e.m.health.state.Closed?
  {
  }

  lemma AfterCloseNothingRuns(w: World, a: Action, w': World)
    requires Inv(w) && Exec(w, a) == Some(w') && CloseEnds(w, a)
    ensures w'.m.nc.None? && w'.m.js.None? && w'.m.kv.None? && !w'.m.closing
    ensures NoStart(w') && NoClose(w') && w'.m.startDone.None? && w'.m.health.state.Closed?
  {
    var e, r := RunShape(w, a.t, a.outcome, w');
    assert PastWait(At(w, a.t)) ==> w.m.startDone.None?;
    CloseEndClears(w, At(w, a.t), a.outcome, e);
    InvKept(w, a, w');
    NobodyInside(w');
  }

  lemma NobodyInside(w: World)
    requires StartsInv(w) && ClosesInv(w)
    ensures w.m.startDone.None? ==> NoStart(w)
    ensures !w.m.closing ==> NoClose(w)
  {
  }

  // A goroutine is in the region of Start because it was before, or because it just entered.
  lemma StepOfEntry(w: World, a: Action, w': World, t: Tid)
    requires StartsInv(w) && Exec(w, a) == Some(w')
    ensures StartChan(At(w', t)).Some? ==> StartChan(At(w, t)) == StartChan(At(w', t)) || Enters(w, t, w')
    ensures StartChan(At(w', t)).Some? && StartChan(At(w', t)).value in w.closes ==>
              StartChan(At(w, t)) == StartChan(At(w', t))
    ensures w.closes.Keys <= w'.closes.Keys
  {
    if a.Run? {
      var e, r := RunShape(w, a.t, a.outcome, w');
      StepStartMove(w, At(w, a.t), a.outcome, e);
      EntryOnlyFromCall(w, At(w, a.t), a.outcome, e);
    } else {
      var u := EnvShape(w, a, w');
    }
  }

  // A connection gets stored only by a Start that commits.
  lemma StepOfCommit(w: World, a: Action, w': World) returns (s: Tid)
    requires Inv(w) && Exec(w, a) == Some(w')
    requires w'.m.nc.Some? && w'.m.nc != w.m.nc
    ensures StartChan(At(w, s)).Some? && Commits(w, s, w')
  {
    if a.Run? {
      var e, r := RunShape(w, a.t, a.outcome, w');
      HandlesOfStep(w, At(w, a.t), a.outcome, e);
      s := a.t;
    } else {
      var u := EnvShape(w, a, w');
    }
  }

  lemma EntryOnlyFromCall(w: World, pc: PC, o: Outcome, e: Effect)
    requires ThreadStep(w, pc, o) == Some(e)
    ensures StartChan(pc).None? && StartChan(e.pc).Some? ==> pc.StartCall?
  {
  }

  // Between steps k and n, both excluded, goroutine t passes the first section of Start.
  ghost predicate EnteredAfter(h: History, k: nat, n: nat, t: Tid)
    requires n < |h.ws|
  {
    exists i :: k < i < n && Enters(h.ws[i], t, h.ws[i + 1])
  }

  // At step j a Start that entered after step k commits connection c, and c has been the stored one from then to n.
  ghost predicate StoredByLater(h: History, k: nat, j: nat, n: nat, c: ConnId)
    requires j + 1 < |h.ws| && n < |h.ws|
  {
    && (exists t: Tid :: Commits(h.ws[j], t, h.ws[j + 1]) && At(h.ws[j], t).conn == c && EnteredAfter(h, k, j, t))
    && forall i | j < i <= n :: h.ws[i].m.nc == Some(c)
  }

  lemma CloseEndsAt(h: History, k: nat)
    requires IsRun(h) && k < |h.acts| && CloseEnds(h.ws[k], h.acts[k])
    ensures h.ws[k + 1].m.nc.None? && NoStart(h.ws[k + 1])
  {
    Reachable(h, k);
    AfterCloseNothingRuns(h.ws[k], h.acts[k], h.ws[k + 1]);
  }

  lemma CommitAt(h: History, n: nat) returns (s: Tid)
    requires IsRun(h) && n < |h.acts| && h.ws[n + 1].m.nc.Some? && h.ws[n + 1].m.nc != h.ws[n].m.nc
    ensures StartChan(At(h.ws[n], s)).Some? && Commits(h.ws[n], s, h.ws[n + 1])
  {
    Reachable(h, n);
    s := StepOfCommit(h.ws[n], h.acts[n], h.ws[n + 1]);
  }

  lemma EntryAt(h: History, n: nat, t: Tid)
    requires IsRun(h) && n < |h.acts| && StartChan(At(h.ws[n + 1], t)).Some?
    ensures StartChan(At(h.ws[n], t)).Some? || Enters(h.ws[n], t, h.ws[n + 1])
  {
    Reachable(h, n);
    StepOfEntry(h.ws[n], h.acts[n], h.ws[n + 1], t);
  }

  ghost predicate EntryFound(h: History, j: nat, t: Tid) {
    && j + 1 < |h.ws|
    && (StartChan(At(h.ws[j + 1], t)).Some? ==> StartChan(At(h.ws[j], t)).Some? || Enters(h.ws[j], t, h.ws[j + 1]))
  }

  lemma {:induction false} EntersSomewhere(h: History, k: nat, n: nat, t: Tid)
    requires k < n < |h.ws| && NoStart(h.ws[k + 1]) && StartChan(At(h.ws[n], t)).Some?
    requires forall j: nat | k < j < n :: EntryFound(h, j, t)
    ensures EnteredAfter(h, k, n, t)
    decreases n
  {
    if k + 1 < n {
      assert EntryFound(h, n - 1, t);
      if Enters(h.ws[n - 1], t, h.ws[n]) {
        assert Enters(h.ws[n - 1], t, h.ws[n - 1 + 1]);
      } else {
        EntersSomewhere(h, k, n - 1, t);
      }
    }
  }

  // A Start that is under way after the owning Close is through entered after it.
  lemma InFlightEnteredAfter(h: History, k: nat, n: nat, t: Tid)
    requires IsRun(h) && k < |h.acts| && CloseEnds(h.ws[k], h.acts[k]) && k < n < |h.ws|
    requires StartChan(At(h.ws[n], t)).Some?
    ensures EnteredAfter(h, k, n, t)
  {
    CloseEndsAt(h, k);
    forall j: nat | k < j < n ensures EntryFound(h, j, t) {
      if StartChan(At(h.ws[j + 1], t)).Some? {
        EntryAt(h, j, t);
      }
    }
    EntersSomewhere(h, k, n, t);
  }

  // If step j stores another connection, it is the commit of a Start that entered after step k.
  ghost predicate LaterCommit(h: History, k: nat, j: nat) {
    && j + 1 < |h.ws|
    && (h.ws[j + 1].m.nc.Some? && h.ws[j + 1].m.nc != h.ws[j].m.nc ==>
          exists t: Tid :: Commits(h.ws[j], t, h.ws[j + 1]) && EnteredAfter(h, k, j, t))
  }

  lemma {:induction false} StoredFrom(h: History, k: nat, n: nat)
    requires k < n < |h.ws| && h.ws[k + 1].m.nc.None? && h.ws[n].m.nc.Some?
    requires forall j: nat | k < j < n :: LaterCommit(h, k, j)
    ensures exists j :: k < j < n && StoredByLater(h, k, j, n, h.ws[n].m.nc.value)
    decreases n
  {
    var c := h.ws[n].m.nc.value;
    if h.ws[n].m.nc == h.ws[n - 1].m.nc {
      StoredFrom(h, k, n - 1);
      var j :| k < j < n - 1 && StoredByLater(h, k, j, n - 1, c);
      assert StoredByLater(h, k, j, n, c);
    } else {
      assert LaterCommit(h, k, n - 1);
      assert StoredByLater(h, k, n - 1, n, c);
    }
  }

  // Once the owning Close is through, a stored connection is one that a Start committed which entered later.
  lemma NilUntilLaterStart(h: History, k: nat, n: nat)
    requires IsRun(h) && k < |h.acts| && CloseEnds(h.ws[k], h.acts[k]) && k < n < |h.ws|
    ensures h.ws[n].m.nc.Some? ==> exists j :: k < j < n && StoredByLater(h, k, j, n, h.ws[n].m.nc.value)
  {
    CloseEndsAt(h, k);
    forall j: nat | k < j < n ensures LaterCommit(h, k, j) {
      if h.ws[j + 1].m.nc.Some? && h.ws[j + 1].m.nc != h.ws[j].m.nc {
        var s := CommitAt(h, j);
        InFlightEnteredAfter(h, k, j, s);
      }
    }
    if h.ws[n].m.nc.Some? {
      StoredFrom(h, k, n);
    }
  }

  // ---- connections ----

  datatype Holder = Stored | Goroutine(t: Tid)

  predicate Holds(w: World, who: Holder, c: ConnId) {
    match who
    case Stored => w.m.nc == Some(c)
    case Goroutine(t) => Held(At(w, t)) == Some(c)
  }

  // Every connection that is neither closed nor draining is in exactly one pair of hands.
  lemma NoConnectionIsLost(h: History, i: nat, c: ConnId)
    requires IsRun(h) && i < |h.ws| && Live(h.ws[i], c)
    ensures exists who: Holder ::
              Holds(h.ws[i], who, c) && forall other: Holder :: Holds(h.ws[i], other, c) ==> other == who
  {
    Reachable(h, i);
    var w := h.ws[i];
    if w.m.nc == Some(c) {
      assert Holds(w, Stored, c);
    } else {
      var t: Tid :| Held(At(w, t)) == Some(c);
      assert Holds(w, Goroutine(t), c);
    }
  }

  // A Start only replaces a connection that is closed.
  lemma CommitReplacesOnlyTheDead(h: History, i: nat, t: Tid)
    requires IsRun(h) && i < |h.acts| && Commits(h.ws[i], t, h.ws[i + 1])
    ensures h.ws[i].m.nc.None? || IsGone(h.ws[i], h.ws[i].m.nc.value)
  {
    Reachable(h, i);
    assert LocalRuntime(h.ws[i].m, h.ws[i].conns, At(h.ws[i], t));
  }

  // The connection a Close drained is the one it clears, and it is draining or closed by then.
  lemma CloseClearsWhatItDrained(h: History, i: nat)
    requires IsRun(h) && i < |h.acts| && h.acts[i].Run? && At(h.ws[i], h.acts[i].t).CloseFinish?
    ensures At(h.ws[i], h.acts[i].t).nc == h.ws[i].m.nc && h.ws[i + 1].m.nc.None?
    ensures h.ws[i].m.nc.Some? ==> h.ws[i].m.nc.value in h.ws[i + 1].conns && !Live(h.ws[i + 1], h.ws[i].m.nc.value)
  {
    Reachable(h, i);
    assert LocalRuntime(h.ws[i].m, h.ws[i].conns, At(h.ws[i], h.acts[i].t));
    var e, r := RunShape(h.ws[i], h.acts[i].t, h.acts[i].outcome, h.ws[i + 1]);
  }

  // The three stored handles always belong together, so a KV handle handed out is one of the stored connection.
  lemma HandlesBelongTogether(h: History, i: nat)
    requires IsRun(h) && i < |h.ws|
    ensures Coherent(h.ws[i].m)
  {
    Reachable(h, i);
  }

  // ---- progress ----

  function Rank(pc: PC): nat {
    match pc
    case StartCall => 10
    case StartConnect(_) => 9
    case StartDial(_, d) => if d.Dialing? then 8 else 7
    case StartCheck(_, _) => 6
    case StartJetStream(_, _) => 5
    case StartBindKV(_, _, _) => 4
    case StartDiscard(_, _, _, _) => 3
    case StartFailed(_, _, _) => 2
    case StartCommit(_, _, _, _) => 3
    case StartAbort(_, _) => 2
    case StartDeferred(_, _) => 1
    case Reap(d) => if d.Dialing? then 3 else 2
    case ReapClose(_) => 1
    case CloseCall => 6
    case CloseWait(_) => 5
    case CloseCancelled(_) => 1
    case CloseReload => 4
    case CloseDrain(_) => 3
    case CloseForce(_, _) => 2
    case CloseFinish(_, _) => 1
    case RebindCall(_) => 4
    case RebindBind(_, _) => 3
    case RebindFailed(_) => 1
    case RebindCommit(_, _, _) => 2
    case RebindTell(_) => 1
    case Returned(_) => 0
  }

  lemma StartLowersRank(w: World, pc: PC, o: Outcome, e: Effect)
    requires (pc.StartCall? || StartChan(pc).Some?) && StartStep(w, pc, o) == Some(e)
    ensures Rank(e.pc) < Rank(pc)
  {
  }

  lemma CloseLowersRank(w: World, pc: PC, o: Outcome, e: Effect)
    requires (pc.CloseCall? || InClose(pc)) && CloseStep(w, pc, o) == Some(e)
    ensures Rank(e.pc) < Rank(pc)
  {
  }

  lemma ReapLowersRank(w: World, pc: PC, o: Outcome, e: Effect)
    requires (pc.Reap? || pc.ReapClose?) && ReapStep(w, pc, o) == Some(e)
    ensures Rank(e.pc) < Rank(pc)
  {
  }

  lemma RebindLowersRank(w: World, pc: PC, o: Outcome, e: Effect)
    requires RebindStep(w, pc, o) == Some(e)
    ensures Rank(e.pc) < Rank(pc)
  {
  }

  lemma StepLowersRank(w: World, pc: PC, o: Outcome, e: Effect)
    requires ThreadStep(w, pc, o) == Some(e)
    ensures Rank(e.pc) < Rank(pc)
  {
    if pc.StartCall? || StartChan(pc).Some? {
      StartLowersRank(w, pc, o, e);
    } else if pc.Reap? || pc.ReapClose? {
      ReapLowersRank(w, pc, o, e);
    } else if pc.CloseCall? || InClose(pc) {
      CloseLowersRank(w, pc, o, e);
    } else {
      RebindLowersRank(w, pc, o, e);
    }
  }

  // How many steps goroutine t takes between two points of a run.
  ghost function StepsOf(h: History, i: nat, j: nat, t: Tid): nat
    requires i <= j <= |h.acts|
    decreases j
  {
    if i == j then 0
    else StepsOf(h, i, j - 1, t) + if h.acts[j - 1].Run? && h.acts[j - 1].t == t then 1 else 0
  }

  lemma RunOfRank(w: World, s: Tid, o: Outcome, w': World, t: Tid)
    requires Exec(w, Run(s, o)) == Some(w') && t in w.threads
    ensures Rank(At(w', t)) + (if s == t then 1 else 0) <= Rank(At(w, t))
  {
    var e, r := RunShape(w, s, o, w');
    StepLowersRank(w, At(w, s), o, e);
    assert r != s ==> r !in w.threads;
  }

  lemma StepOfRank(w: World, a: Action, w': World, t: Tid)
    requires Exec(w, a) == Some(w') && t in w.threads
    ensures t in w'.threads
    ensures Rank(At(w', t)) + (if a.Run? && a.t == t then 1 else 0) <= Rank(At(w, t))
  {
    if a.Run? {
      RunOfRank(w, a.t, a.outcome, w', t);
    }
  }

  lemma RankAt(h: History, j: nat, t: Tid)
    requires IsRun(h) && j < |h.acts| && t in h.ws[j].threads
    ensures t in h.ws[j + 1].threads
    ensures Rank(At(h.ws[j + 1], t)) + (if h.acts[j].Run? && h.acts[j].t == t then 1 else 0) <= Rank(At(h.ws[j], t))
  {
    StepOfRank(h.ws[j], h.acts[j], h.ws[j + 1], t);
  }

  ghost predicate RankDrops(h: History, j: nat, t: Tid) {
    && j < |h.acts| && j + 1 < |h.ws|
    && (t in h.ws[j].threads ==>
          && t in h.ws[j + 1].threads
          && Rank(At(h.ws[j + 1], t)) + (if h.acts[j].Run? && h.acts[j].t == t then 1 else 0) <= Rank(At(h.ws[j], t)))
  }

  lemma {:induction false} DropsAddUp(h: History, i: nat, j: nat, t: Tid)
    requires i <= j <= |h.acts| < |h.ws| && t in h.ws[i].threads && forall k: nat | i <= k < j :: RankDrops(h, k, t)
    ensures t in h.ws[j].threads
    ensures StepsOf(h, i, j, t) + Rank(At(h.ws[j], t)) <= Rank(At(h.ws[i], t))
    decreases j
  {
    if i < j {
      DropsAddUp(h, i, j - 1, t);
      assert RankDrops(h, j - 1, t);
    }
  }

  // A goroutine that exists never takes more steps than its rank.
  lemma StepsAreBounded(h: History, i: nat, j: nat, t: Tid)
    requires IsRun(h) && i <= j <= |h.acts| && t in h.ws[i].threads
    ensures t in h.ws[j].threads
    ensures StepsOf(h, i, j, t) + Rank(At(h.ws[j], t)) <= Rank(At(h.ws[i], t))
  {
    forall k: nat | i <= k < j ensures RankDrops(h, k, t) {
      if t in h.ws[k].threads {
        RankAt(h, k, t);
      }
    }
    DropsAddUp(h, i, j, t);
  }

  // The goroutine can take a step in which nothing goes wrong; draining a connection that is closed already is the one
  // call that can only fail.
  ghost predicate CanStep(w: World, t: Tid) {
    exists o: Outcome ::
      && Exec(w, Run(t, o)).Some?
      && (o.Good? || (o.Bad? && At(w, t).CloseDrain? && At(w, t).nc.Some? && IsGone(w, At(w, t).nc.value)))
  }

  lemma {:induction false} SomethingElse(s: set<nat>) returns (n: nat)
    ensures n !in s && forall m | m in s :: m < n
    decreases s
  {
    n := 0;
    if s != {} {
      var x :| x in s;
      var rest := s - {x};
      var k := SomethingElse(rest);
      n := if x < k then k else x + 1;
      assert forall m | m in s :: m == x || m in rest;
    }
  }

  // Every goroutine that has not returned can move, except a Close that waits for a Start which can.
  lemma NobodyIsStuck(h: History, i: nat, t: Tid)
    requires IsRun(h) && i < |h.ws| && t in h.ws[i].threads && !h.ws[i].threads[t].Returned?
    ensures
      || CanStep(h.ws[i], t)
      || (&& At(h.ws[i], t).CloseWait?
          && exists s: Tid :: StartChan(At(h.ws[i], s)) == Some(At(h.ws[i], t).ch) && CanStep(h.ws[i], s))
  {
    Reachable(h, i);
    var w := h.ws[i];
    if w.threads[t].CloseWait? {
      var ch := w.threads[t].ch;
      assert At(w, t).CloseWait?;
      if w.m.startDone == Some(ch) {
        var s: Tid :| StartChan(At(w, s)) == w.m.startDone;
        OthersCanStep(w, s);
      } else {
        assert Exec(w, Run(t, Good(0))).Some?;
      }
    } else {
      assert LocalRuntime(w.m, w.conns, At(w, t));
      OthersCanStep(w, t);
    }
  }

  lemma OthersCanStep(w: World, t: Tid)
    requires t in w.threads && !w.threads[t].Returned? && !w.threads[t].CloseWait?
    ensures CanStep(w, t)
  {
    var pc := w.threads[t];
    var n := SomethingElse(w.closes.Keys + w.conns.Keys);
    var o := if pc.CloseDrain? && pc.nc.Some? && IsGone(w, pc.nc.value) then Bad("") else Good(n);
    assert n !in w.closes && n !in w.conns;
    assert ThreadStep(w, pc, o).Some?;
    assert Exec(w, Run(t, o)).Some?;
  }

  lemma StepOfOwner(h: History, j: nat, t: Tid, ch: ChanId)
    requires IsRun(h) && j < |h.acts| && ch in h.ws[j].closes
    ensures ch in h.ws[j + 1].closes
    ensures StartChan(At(h.ws[j + 1], t)) == Some(ch) ==> StartChan(At(h.ws[j], t)) == Some(ch)
  {
    Reachable(h, j);
    StepOfEntry(h.ws[j], h.acts[j], h.ws[j + 1], t);
  }

  // A channel belongs to one Start for ever.
  lemma {:induction false} ChannelKeepsOwner(h: History, i: nat, j: nat, t: Tid, ch: ChanId)
    requires IsRun(h) && i <= j <= |h.acts| && ch in h.ws[i].closes
    ensures ch in h.ws[j].closes
    ensures StartChan(At(h.ws[j], t)) == Some(ch) ==> StartChan(At(h.ws[i], t)) == Some(ch)
    decreases j
  {
    if i < j {
      ChannelKeepsOwner(h, i, j - 1, t, ch);
      StepOfOwner(h, j - 1, t, ch);
    }
  }

  // A Close that waits is let go as soon as the Start it waits for has taken the few steps it has left.
  lemma WaitEnds(h: History, i: nat, j: nat, t: Tid, s: Tid)
    requires IsRun(h) && i <= j <= |h.acts| && At(h.ws[i], t).CloseWait?
    requires StartChan(At(h.ws[i], s)) == Some(At(h.ws[i], t).ch)
    requires StepsOf(h, i, j, s) >= Rank(At(h.ws[i], s))
    ensures At(h.ws[i], t).ch in h.ws[j].closes && h.ws[j].closes[At(h.ws[i], t).ch] == 1
  {
    var ch := At(h.ws[i], t).ch;
    Reachable(h, i);
    Reachable(h, j);
    StepsAreBounded(h, i, j, s);
    ChannelKeepsOwner(h, i, j, s, ch);
    if h.ws[j].m.startDone == Some(ch) {
      var u: Tid :| StartChan(At(h.ws[j], u)) == Some(ch);
      ChannelKeepsOwner(h, i, j, u, ch);
    }
  }

  // ---- health ----

  lemma HealthAgrees(h: History, i: nat)
    requires IsRun(h) && i < |h.ws|
    ensures HealthInv(h.ws[i].m)
  {
    Reachable(h, i);
  }
}

// agentcore.Client: registrations, activation, callbacks, the handler context and watches, for calls that do not
// overlap. How the calls to NATS turn out is a parameter of each method.

module Client {
  import opened Common
  import opened GoStrings
  import opened RegistryState
  import opened Registry
  import opened Driver
  import W = WatchTable
  import S = SessionState

  type CtxId = nat

  // ---- the handler context, as a value ----

  // Whether callbacks may run, the current context, how many were made, and which of them were cancelled.
  datatype Scope = Scope(enabled: bool, current: Option<CtxId>, next: CtxId, cancelled: set<CtxId>)

  // Every context is either current, and then live, or cancelled; and callbacks only run under one.
  ghost predicate ScopeInv(c: Scope) {
    && (forall x | x in c.cancelled :: x < c.next)
    && (c.current.Some? ==> c.current.value < c.next && c.current.value !in c.cancelled)
    && (forall x: CtxId | x < c.next :: x in c.cancelled || c.current == Some(x))
    && (c.enabled ==> c.current.Some?)
  }

  function On(c: Scope): Scope {
    if c.current.Some? && c.current.value !in c.cancelled then c.(enabled := true)
    else c.(enabled := true, current := Some(c.next), next := c.next + 1)
  }

  function Off(c: Scope): Scope {
    Scope(false, None, c.next, if c.current.Some? then c.cancelled + {c.current.value} else c.cancelled)
  }

  // Turning callbacks on keeps a context that is there - it is never a cancelled one - and leaves a live one.
  lemma OnIsLive(c: Scope)
    requires ScopeInv(c)
    ensures ScopeInv(On(c)) && On(c).current.Some? && On(c).current.value !in On(c).cancelled
    ensures c.current.Some? ==> On(c).current == c.current && On(c).next == c.next
  {
  }

  // Turning them off leaves no context alive.
  lemma OffLeavesNothing(c: Scope)
    requires ScopeInv(c)
    ensures ScopeInv(Off(c)) && !Off(c).enabled && Off(c).current.None? && forall x: CtxId | x < Off(c).next ::
              x in Off(c).cancelled
  {
  }

  // ---- handles ----

  lemma DetachedHandles(handles: seq<ActiveHandle>, reg: RegState)
    requires Detaches(handles, reg.entries)
    ensures HandleSet(handles) == AttachedSubs(reg)
  {
  }

  lemma HandleSetNext(handles: seq<ActiveHandle>, i: nat)
    requires i < |handles|
    ensures HandleSet(handles[..i + 1]) == HandleSet(handles[..i]) +
                                         if handles[i].sub.Some? then {handles[i].sub.value} else {}
  {
  }

  class Client {
    const registry: Registry
    const watches: W.WatchTable
    // Whether the application has set a reconnect handler.
    const hasReconnectHandler: bool
    var nextSub: SubId
    var made: map<SubId, Use>
    var unsubscribed: set<SubId>
    var callbacksEnabled: bool
    var handlerCtx: Option<CtxId>
    var nextCtx: CtxId
    var cancelled: set<CtxId>
    // How often that handler ran, and the counts that the session's health shows.
    var reconnectCalls: nat
    var shownRegistered: nat
    var shownActive: nat

    ghost predicate Valid()
      reads this, registry
    {
      registry.Valid()
    }

    ghost function Subs(): State
      reads this`nextSub, this`made, this`unsubscribed, registry, registry.Objects()
    {
      State(registry.View(), nextSub, made, unsubscribed)
    }

    ghost function Context(): Scope
      reads this`callbacksEnabled, this`handlerCtx, this`nextCtx, this`cancelled
    {
      Scope(callbacksEnabled, handlerCtx, nextCtx, cancelled)
    }

    // The counts shown are the number of registrations and of active ones.
    ghost predicate HealthShown()
      reads this`shownRegistered, this`shownActive, registry, registry.Objects()
    {
      shownRegistered == |registry.View().entries| && shownActive == |ActiveIds(registry.View())|
    }

    constructor (hasReconnectHandler: bool)
      ensures this.hasReconnectHandler == hasReconnectHandler && reconnectCalls == 0
      ensures Valid() && fresh(registry) && fresh(watches) && Subs() == State(EMPTY, 0, map[], {})
      ensures Context() == Scope(false, None, 0, {}) && HealthShown() && watches.Valid() && watches.watches == map[]
    {
      registry := new Registry();
      watches := new W.WatchTable();
      this.hasReconnectHandler := hasReconnectHandler;
      nextSub, made, unsubscribed, callbacksEnabled := 0, map[], {}, false;
      handlerCtx, nextCtx, cancelled, reconnectCalls := None, 0, {}, 0;
      shownRegistered, shownActive := 0, 0;
      new;
      SyncSubscriptionHealth();
    }

    method SyncSubscriptionHealth()
      modifies `shownRegistered, `shownActive
      ensures HealthShown() && Subs() == old(Subs())
    {
      var registered, active := registry.Counts();
      Show(registered, active);
    }

    method Show(registered: nat, active: nat)
      modifies `shownRegistered, `shownActive
      ensures shownRegistered == registered && shownActive == active && registry.View() == old(registry.View())
      ensures Subs() == old(Subs())
    {
      shownRegistered := registered;
      shownActive := active;
    }

    // ---- handler context ----

    method EnsureHandlerContext()
      modifies `handlerCtx, `nextCtx
      ensures Context() == On(old(Context())).(enabled := callbacksEnabled)
    {
      if handlerCtx != None && handlerCtx.value !in cancelled {
        return;
      }
      handlerCtx := Some(nextCtx);
      nextCtx := nextCtx + 1;
    }

    method CancelHandlerContext()
      modifies `handlerCtx, `cancelled
      ensures Context() == Off(old(Context())).(enabled := callbacksEnabled)
    {
      var cancel := handlerCtx;
      handlerCtx := None;
      if cancel != None {
        cancelled := cancelled + {cancel.value};
      }
    }

    method CallbacksOff()
      modifies `callbacksEnabled, `handlerCtx, `cancelled
      ensures Context() == Off(old(Context())) && Subs() == old(Subs())
    {
      ghost var was := registry.View();
      callbacksEnabled := false;
      CancelHandlerContext();
      assert registry.View() == was;
    }

    method CallbacksOn()
      modifies `callbacksEnabled, `handlerCtx, `nextCtx
      ensures Context() == On(old(Context())) && Subs() == old(Subs())
      ensures old(HealthShown()) ==> HealthShown()
    {
      ghost var was := registry.View();
      EnsureHandlerContext();
      callbacksEnabled := true;
      assert registry.View() == was;
    }

    // ---- one registration ----

    method Unsubscribe(sub: SubId)
      modifies `unsubscribed
      ensures Subs() == Unsub(old(Subs()), sub)
    {
      ghost var was := registry.View();
      unsubscribed := unsubscribed + {sub};
      assert registry.View() == was;
    }

    // subscribeInternal
    method Subscribe(subject: string, queueGroup: string, callback: nat, a: Attempt) returns (sub: Option<SubId>)
      modifies `nextSub, `made, `unsubscribed
      ensures sub == if a.Created? then Some(old(nextSub)) else None
      ensures var use := Use(subject, if TrimSpace(queueGroup) == "" then None else Some(queueGroup), callback);
              Subs() == match a
                        case Created => Make(old(Subs()), use)
                        case Refused(_) => old(Subs())
                        case FlushFailed(_) => Unsub(Make(old(Subs()), use), old(nextSub))
    {
      if a.Refused? {
        return None;
      }
      var s := nextSub;
      var group := None;
      if TrimSpace(queueGroup) != "" {
        group := Some(queueGroup);
      }
      CreateSubscription(Use(subject, group, callback));
      if a.FlushFailed? {
        Unsubscribe(s);
        return None;
      }
      return Some(s);
    }

    method CreateSubscription(use: Use)
      modifies `nextSub, `made
      ensures Subs() == Make(old(Subs()), use)
    {
      ghost var was := registry.View();
      made := made[nextSub := use];
      nextSub := nextSub + 1;
      assert registry.View() == was;
    }

    // The locked section of ActivateRecord, and what follows if the registration is gone.
    method Attach(id: string, sub: SubId)
      requires Valid()
      modifies `unsubscribed, registry.Objects()
      ensures Valid()
      ensures Subs() == if id in old(Subs()).reg.entries
                        then old(Subs()).(reg := MarkActive(old(Subs()).reg, id, Some(sub)))
                        else Unsub(old(Subs()), sub)
    {
      var current := registry.GetActivationRecord(id);
      if current != None {
        registry.MarkActive(id, Some(sub));
      } else {
        Unsubscribe(sub);
      }
    }

    method SubscribeRecord(rec: ActivationRecord, a: Attempt) returns (failed: bool)
      requires Valid()
      modifies `nextSub, `made, `unsubscribed, registry.Objects()
      ensures Valid() && (Subs(), failed) == Driver.Subscribe(old(Subs()), rec, a)
    {
      var sub := Subscribe(rec.subject, rec.queueGroup, rec.callback, a);
      if sub == None {
        registry.MarkInactive(rec.id, Some(a.err));
        return true;
      }
      Attach(rec.id, sub.value);
      return false;
    }

    method ActivateRecord(rec: ActivationRecord, force: bool, a: Attempt) returns (failed: bool)
      requires Valid()
      modifies `nextSub, `made, `unsubscribed, registry.Objects()
      ensures Valid() && (Subs(), failed) == Activate(old(Subs()), rec, force, a)
    {
      if rec.active && !force {
        return false;
      }
      if force && rec.activeSub != None {
        Unsubscribe(rec.activeSub.value);
      }
      failed := SubscribeRecord(rec, a);
    }

    method ActivateList(recs: seq<ActivationRecord>, force: bool, env: string -> Attempt) returns (failed: bool)
      requires Valid()
      modifies `nextSub, `made, `unsubscribed, registry.Objects()
      ensures Valid() && (Subs(), failed) == Pass(old(Subs()), recs, force, env)
    {
      failed := false;
      for i := 0 to |recs|
        invariant Valid() && (Subs(), failed) == Pass(old(Subs()), recs[..i], force, env)
      {
        assert recs[..i + 1][..i] == recs[..i];
        var f := ActivateRecord(recs[i], force, env(recs[i].id));
        failed := failed || f;
      }
      assert recs[..|recs|] == recs;
    }

    // The order of the records is up to the map that they come from.
    method ActivateEach(force: bool, env: string -> Attempt) returns (failed: bool, ghost recs: seq<ActivationRecord>)
      requires Valid()
      modifies `nextSub, `made, `unsubscribed, registry.Objects()
      ensures Valid() && Lists(recs, old(Subs()).reg.entries)
      ensures (Subs(), failed) == Pass(old(Subs()), recs, force, env)
    {
      var records := registry.ListActivations();
      recs := records;
      failed := ActivateList(records, force, env);
    }

    method RestoreAllRegisteredSubscriptions(env: string -> Attempt)
      returns (failed: bool, ghost recs: seq<ActivationRecord>)
      requires Valid()
      modifies `nextSub, `made, `unsubscribed, `shownRegistered, `shownActive, registry.Objects()
      ensures Valid() && Lists(recs, old(Subs()).reg.entries) && HealthShown()
      ensures (Subs(), failed) == Pass(old(Subs()), recs, true, env)
    {
      failed, recs := ActivateEach(true, env);
      SyncSubscriptionHealth();
    }

    method ActivateAllRegisteredSubscriptions(env: string -> Attempt)
      returns (failed: bool, ghost recs: seq<ActivationRecord>)
      requires Valid()
      modifies `nextSub, `made, `unsubscribed, `shownRegistered, `shownActive, registry.Objects()
      ensures Valid() && Lists(recs, old(Subs()).reg.entries) && HealthShown()
      ensures (Subs(), failed) == Pass(old(Subs()), recs, false, env)
    {
      failed, recs := ActivateEach(false, env);
      SyncSubscriptionHealth();
    }

    // Whether Unsubscribe reports an error is up to `fails`; the subscription is gone for us all the same.
    method DeactivateAllSubscriptions(fails: SubId -> bool) returns (failed: bool)
      requires Valid()
      modifies `unsubscribed, `shownRegistered, `shownActive, registry.Objects()
      ensures Valid() && Subs() == Deactivate(old(Subs())) && HealthShown()
      ensures failed <==> exists s :: s in AttachedSubs(old(Subs()).reg) && fails(s)
    {
      failed := DetachAll(fails);
      SyncSubscriptionHealth();
    }

    method DetachAll(fails: SubId -> bool) returns (failed: bool)
      requires Valid()
      modifies `unsubscribed, registry.Objects()
      ensures Valid() && Subs() == Deactivate(old(Subs()))
      ensures failed <==> exists s :: s in AttachedSubs(old(Subs()).reg) && fails(s)
    {
      ghost var d := Subs();
      var handles := registry.ClearActiveHandles();
      DetachedHandles(handles, d.reg);
      failed := UnsubscribeAll(handles, fails);
    }

    // The loop of DetachAll.
    method UnsubscribeAll(handles: seq<ActiveHandle>, fails: SubId -> bool) returns (failed: bool)
      modifies `unsubscribed
      ensures Subs() == old(Subs()).(unsubbed := old(unsubscribed) + HandleSet(handles))
      ensures failed <==> exists s :: s in HandleSet(handles) && fails(s)
    {
      failed := false;
      ghost var was := registry.View();
      for i := 0 to |handles|
        invariant unsubscribed == old(unsubscribed) + HandleSet(handles[..i]) && registry.View() == was
        invariant failed <==> exists s :: s in HandleSet(handles[..i]) && fails(s)
        modifies `unsubscribed
      {
        HandleSetNext(handles, i);
        var sub := handles[i].sub;
        if sub != None {
          Unsubscribe(sub.value);
          failed := failed || fails(sub.value);
        }
      }
      assert handles[..|handles|] == handles;
    }

    // ---- registering ----

    method RollbackRegistration(id: string)
      requires Valid()
      modifies `unsubscribed, `shownRegistered, `shownActive, registry
      ensures Valid() && Subs() == Rollback(old(Subs()), id) && HealthShown()
      ensures registry.Objects() <= old(registry.Objects())
    {
      var handle := registry.Remove(id);
      if handle == None {
        SyncSubscriptionHealth();
        return;
      }
      if handle.value.sub != None {
        Unsubscribe(handle.value.sub.value);
      }
      SyncSubscriptionHealth();
    }

    // activateRegisteredSubscriptionByID, without force
    method ActivateByID(id: string, a: Attempt) returns (failed: bool)
      requires Valid()
      modifies `nextSub, `made, `unsubscribed, registry.Objects()
      ensures Valid() && (failed ==> !a.Created?)
      ensures (Subs(), failed) == ActivateRegistered(old(Subs()), id, a)
    {
      var rec := registry.GetActivationRecord(id);
      if rec == None || rec.value.active {
        return false;
      }
      failed := ActivateRecord(rec.value, false, a);
    }

    method ActivateAfterRegistration(id: string, state: S.ConnectionState, a: Attempt) returns (failed: bool)
      requires Valid()
      modifies `nextSub, `made, `unsubscribed, `shownRegistered, `shownActive, registry.Objects()
      ensures Valid() && (failed ==> !a.Created?)
      ensures (Subs(), failed) == if state.New? || state.Connecting? then (old(Subs()), false)
                                  else ActivateRegistered(old(Subs()), id, a)
      ensures !failed && old(HealthShown()) ==> HealthShown()
    {
      if state == S.New || state == S.Connecting {
        return false;
      }
      failed := ActivateByID(id, a);
      if failed {
        return true;
      }
      SyncSubscriptionHealth();
      return false;
    }

    // registerConfigureHandler, registerActionHandler, registerResultHandler and registerStatusHandler
    method RegisterHandler(q: Request, state: S.ConnectionState, a: Attempt) returns (r: Registration)
      requires Valid()
      modifies `nextSub, `made, `unsubscribed, `shownRegistered, `shownActive, registry, registry.Objects()
      ensures Valid() && fresh(registry.Objects() - old(registry.Objects()))
      ensures (Subs(), r) == Register(old(Subs()), q, state.New? || state.Connecting?, a)
      ensures old(HealthShown()) ==> HealthShown()
    {
      if q.handler == None {
        return Rejected(Validation);
      }
      if q.subject.Err? {
        return Rejected(q.subject.code);
      }
      if !QueueOk(q.queueGroup) {
        return Rejected(Validation);
      }
      var snapshot := registry.Add(SpecOf(q));
      if snapshot.Err? {
        return Rejected(snapshot.code);
      }
      SyncSubscriptionHealth();
      r := FinishRegistration(snapshot.value.id, state, a);
    }

    // The end of each register function.
    method FinishRegistration(id: string, state: S.ConnectionState, a: Attempt) returns (r: Registration)
      requires Valid()
      modifies `nextSub, `made, `unsubscribed, `shownRegistered, `shownActive, registry, registry.Objects()
      ensures Valid() && registry.Objects() <= old(registry.Objects())
      ensures (Subs(), r) == Finish(old(Subs()), id, state.New? || state.Connecting?, a)
      ensures old(HealthShown()) ==> HealthShown()
    {
      var failed := ActivateAfterRegistration(id, state, a);
      if failed {
        RollbackRegistration(id);
        return NotSubscribed(a.err);
      }
      return Registered;
    }

    // What a failed Start, Close and the session-closed hook have in common: callbacks off, the context cancelled,
    // every handle detached and unsubscribed, in this order.
    method TurnOff(fails: SubId -> bool) returns (failed: bool)
      requires Valid()
      modifies `callbacksEnabled, `handlerCtx, `cancelled, `unsubscribed, `shownRegistered, `shownActive,
        registry.Objects()
      ensures Valid() && Subs() == Deactivate(old(Subs())) && Context() == Off(old(Context())) && HealthShown()
      ensures failed <==> exists s :: s in AttachedSubs(old(Subs()).reg) && fails(s)
    {
      CallbacksOff();
      failed := DeactivateAllSubscriptions(fails);
    }

    // ---- the hooks of the session ----

    // The handler of the application, if there is one, runs iff callbacks are on and the restore left every
    // registration active.
    method OnSessionReconnected(env: string -> Attempt) returns (ghost recs: seq<ActivationRecord>)
      requires Valid()
      modifies `nextSub, `made, `unsubscribed, `shownRegistered, `shownActive, `reconnectCalls, registry.Objects()
      ensures Valid()
      ensures !callbacksEnabled ==> Subs() == old(Subs()) && reconnectCalls == old(reconnectCalls)
      ensures callbacksEnabled ==>
                Lists(recs, old(Subs()).reg.entries) && Subs() == Pass(old(Subs()), recs, true, env).0
      ensures callbacksEnabled && Inv(old(Subs())) ==>
                reconnectCalls == old(reconnectCalls) + if hasReconnectHandler && AllActive(Subs().reg) then 1 else 0
    {
      recs := [];
      if !callbacksEnabled {
        return;
      }
      recs := RestoreAndTell(env);
    }

    method RestoreAndTell(env: string -> Attempt) returns (ghost recs: seq<ActivationRecord>)
      requires Valid()
      modifies `nextSub, `made, `unsubscribed, `shownRegistered, `shownActive, `reconnectCalls, registry.Objects()
      ensures Valid() && Lists(recs, old(Subs()).reg.entries) && Subs() == Pass(old(Subs()), recs, true, env).0
      ensures Inv(old(Subs())) ==>
                reconnectCalls == old(reconnectCalls) + if hasReconnectHandler && AllActive(Subs().reg) then 1 else 0
    {
      ghost var was := Subs();
      var failed;
      failed, recs := RestoreAllRegisteredSubscriptions(env);
      if Inv(was) {
        RestoredIffAllActive(was, recs, env);
      }
      TellReconnected(failed);
    }

    method TellReconnected(failed: bool)
      modifies `reconnectCalls
      ensures reconnectCalls == old(reconnectCalls) + if failed || !hasReconnectHandler then 0 else 1
      ensures Subs() == old(Subs())
    {
      ghost var was := registry.View();
      if !failed && hasReconnectHandler {
        reconnectCalls := reconnectCalls + 1;
      }
      assert registry.View() == was;
    }

    method OnSessionClosed(fails: SubId -> bool)
      requires Valid()
      modifies `callbacksEnabled, `handlerCtx, `cancelled, `unsubscribed, `shownRegistered, `shownActive,
        registry.Objects()
      ensures Valid() && Subs() == Deactivate(old(Subs())) && Context() == Off(old(Context())) && HealthShown()
    {
      var _ := TurnOff(fails);
    }

    // ---- Start and Close ----

    method Start(sessionErr: Option<Code>, env: string -> Attempt, fails: SubId -> bool)
      returns (err: Option<Code>, ghost recs: seq<ActivationRecord>)
      requires Valid()
      modifies this, registry.Objects()
      ensures Valid()
      ensures sessionErr.Some? ==> err == sessionErr && Subs() == old(Subs()) && Context() == old(Context())
      ensures sessionErr.None? ==> Lists(recs, old(Subs()).reg.entries)
      ensures sessionErr.None? ==> (Subs(), err.Some?) == StartSubscriptions(old(Subs()), recs, env)
      ensures sessionErr.None? ==> Context() == if err.Some? then Off(old(Context())) else On(old(Context()))
      ensures sessionErr.None? ==> HealthShown() && (err.Some? ==> err == Some(SubscribeFailed))
    {
      recs := [];
      if sessionErr != None {
        return sessionErr, recs;
      }
      var failed;
      failed, recs := StartHandlers(env, fails);
      err := if failed then Some(SubscribeFailed) else None;
    }

    // The part of Start that comes after the session.
    method StartHandlers(env: string -> Attempt, fails: SubId -> bool)
      returns (failed: bool, ghost recs: seq<ActivationRecord>)
      requires Valid()
      modifies this, registry.Objects()
      ensures Valid() && Lists(recs, old(Subs()).reg.entries)
      ensures (Subs(), failed) == StartSubscriptions(old(Subs()), recs, env)
      ensures Context() == if failed then Off(old(Context())) else On(old(Context()))
      ensures HealthShown()
    {
      failed, recs := ActivateAllRegisteredSubscriptions(env);
      Settle(failed, fails);
    }

    // How it ends: everything down again, or callbacks on.
    method Settle(failed: bool, fails: SubId -> bool)
      requires Valid()
      modifies this, registry.Objects()
      ensures Valid() && Subs() == if failed then Deactivate(old(Subs())) else old(Subs())
      ensures Context() == if failed then Off(old(Context())) else On(old(Context()))
      ensures old(HealthShown()) ==> HealthShown()
    {
      if failed {
        var _ := TurnOff(fails);
      } else {
        CallbacksOn();
      }
    }

    // Everything is taken down whatever fails on the way, and the error is nil iff nothing did.
    method Close(fails: SubId -> bool, watchFails: W.StopFunc -> bool, sessionErr: Option<Code>)
      returns (err: Option<Code>)
      requires Valid() && watches.Valid()
      modifies this, watches, registry.Objects()
      ensures Valid() && Subs() == Deactivate(old(Subs())) && Context() == Off(old(Context())) && HealthShown()
      ensures watches.Valid() && watches.watches == map[]
      ensures old(watches.calls) <= watches.calls
                && W.Lists(watches.calls[|old(watches.calls)|..], old(watches.watches))
      ensures err == if || (exists s :: s in AttachedSubs(old(Subs()).reg) && fails(s))
                        || (exists id :: id in old(watches.watches) && watchFails(old(watches.watches)[id]))
                        || sessionErr.Some?
                     then Some(Shutdown) else None
    {
      var subErr := TurnOff(fails);
      ghost var subs := Subs();
      var watchErr := StopAllWatches(watchFails);
      assert registry.View() == subs.reg;
      if subErr || watchErr || sessionErr != None {
        return Some(Shutdown);
      }
      return None;
    }

    method StopAllWatches(fails: W.StopFunc -> bool) returns (failed: bool)
      requires watches.Valid()
      modifies watches
      ensures Subs() == old(Subs())
      ensures watches.Valid() && watches.watches == map[]
      ensures old(watches.calls) <= watches.calls
                && W.Lists(watches.calls[|old(watches.calls)|..], old(watches.watches))
      ensures failed <==> exists id :: id in old(watches.watches) && fails(old(watches.watches)[id])
    {
      ghost var was := registry.View();
      failed := watches.StopAllWatches(fails);
      assert registry.View() == was;
    }
  }
}

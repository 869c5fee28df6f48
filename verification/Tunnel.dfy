/**
 The tunnel reconciler (`hot_apply_resources`, `hot_apply_transport_map`,
 `run_restart_decision`, `handle_down`, `handle_up`, client/src/daemon.rs; the kernel calls of
 client/src/tun.rs).

 Four stores are changed step by step: listeners, capture rules, routes and the published
 transport map. Any step may fail: `Env` decides, for the n-th command of the run, whether it
 succeeds, and whether a command that was not acknowledged took effect all the same. The
 history `trace` records the stores after every single change.
 */
module Tunnel {
  import opened Common
  import opened Config
  import opened Classify
  import opened TransportMap

  /** What the kernel and the net stack hold; `published` is the configuration the published map was built for. */
  datatype Stores = Stores(
    listeners: set<ResourceKey>, rules: set<ResourceKey>, routes: set<Ipv4>, published: AppliedConfig)

  datatype Env = Env(ok: nat -> bool, took: nat -> bool)

  /** Every command from the `a`-th up to the `b`-th succeeds. */
  predicate AllOk(env: Env, a: nat, b: nat)
    decreases b
  {
    b <= a || (AllOk(env, a, b - 1) && env.ok(b - 1))
  }

  lemma {:induction false} OkThen(env: Env, a: nat, b: nat, c: nat)
    requires a <= b <= c
    ensures AllOk(env, a, c) <==> AllOk(env, a, b) && AllOk(env, b, c)
    decreases c
  {
    if b < c { OkThen(env, a, b, c - 1); }
  }

  /** The inputs a pass reads from the runtime state. */
  datatype Inputs = Inputs(acl: Option<Acl>, transport: Option<Transport>, device: Option<Device>, crl: bool)

  predicate Complete(i: Inputs) { i.acl.Some? && i.device.Some? }

  function Candidate(i: Inputs): AppliedConfig
    requires Complete(i)
  {
    EffectiveConfig(i.acl.value, i.transport, i.device.value)
  }

  /** What a pass makes of the inputs: the configuration they ask for, if they are complete. */
  datatype Seen = Seen(cfg: Option<AppliedConfig>, crl: bool)

  function Read(i: Inputs): Seen { Seen(if Complete(i) then Some(Candidate(i)) else None, i.crl) }

  /** smoltcp refuses to listen on port 0, so such a key never has a listener. */
  function Listening(keys: set<ResourceKey>): set<ResourceKey>
  {
    set k | k in keys && k.1 != 0
  }

  datatype Outcome = Applied | Superseded | TunnelGone | PreMutationFailed | MutationFailed

  /** The stores are exactly those of a tunnel freshly brought up with `cfg`. */
  predicate StoresFor(ip: AddressOf, cfg: AppliedConfig, st: Stores)
  {
    st == BeforeApply(ip, cfg)
  }

  /**
   What holds at every point of an apply from `a` to `c`: every key that stays is still
   served in all four stores; every captured address has its route; and an added key is
   captured only once its slot, its listener and its route exist.
   */
  ghost predicate PrefixSafe(ip: AddressOf, a: AppliedConfig, c: AppliedConfig, st: Stores)
  {
    var was, will := RoutableKeys(ip, a), RoutableKeys(ip, c);
    var kept := was * will;
    && kept <= st.rules && Listening(kept) <= st.listeners && IpsOf(kept) <= st.routes
        && kept <= SlotKeys(ip, st.published)
    && st.rules <= was + will
    && IpsOf(st.rules) <= st.routes
    && forall k :: k in st.rules && k !in was ==>
         k in SlotKeys(ip, st.published) && (k.1 != 0 ==> k in st.listeners) && k.0 in st.routes
  }

  lemma {:induction false} MoreRoutesSafe(ip: AddressOf, a: AppliedConfig, c: AppliedConfig, st: Stores,
                                          routes: set<Ipv4>)
    requires PrefixSafe(ip, a, c, st) && st.routes <= routes
    ensures PrefixSafe(ip, a, c, st.(routes := routes))
  {
  }

  // ---- the stores after each stage of an apply from `a` to `c` ----

  function BeforeApply(ip: AddressOf, a: AppliedConfig): Stores
  {
    var was := RoutableKeys(ip, a);
    Stores(Listening(was), was, IpsOf(was), a)
  }

  function AfterClose(ip: AddressOf, a: AppliedConfig, c: AppliedConfig): Stores
  {
    BeforeApply(ip, a).(listeners := Listening(RoutableKeys(ip, a) * RoutableKeys(ip, c)))
  }

  function AfterUncapture(ip: AddressOf, a: AppliedConfig, c: AppliedConfig): Stores
  {
    AfterClose(ip, a, c).(rules := RoutableKeys(ip, a) * RoutableKeys(ip, c))
  }

  function AfterUnroute(ip: AddressOf, a: AppliedConfig, c: AppliedConfig): Stores
  {
    AfterUncapture(ip, a, c).(routes := IpsOf(RoutableKeys(ip, a)) - PlanApply(ip, a, c).addrDel)
  }

  function AfterPublish(ip: AddressOf, a: AppliedConfig, c: AppliedConfig): Stores
  {
    AfterUnroute(ip, a, c).(published := c)
  }

  function AfterListen(ip: AddressOf, a: AppliedConfig, c: AppliedConfig): Stores
  {
    AfterPublish(ip, a, c).(listeners := Listening(RoutableKeys(ip, c)))
  }

  function AfterRoute(ip: AddressOf, a: AppliedConfig, c: AppliedConfig): Stores
  {
    AfterListen(ip, a, c).(routes := IpsOf(RoutableKeys(ip, c)))
  }

  lemma {:induction false} RemoveStagesSafe(ip: AddressOf, a: AppliedConfig, c: AppliedConfig)
    ensures PrefixSafe(ip, a, c, BeforeApply(ip, a))
    ensures PrefixSafe(ip, a, c, AfterClose(ip, a, c))
    ensures PrefixSafe(ip, a, c, AfterUncapture(ip, a, c))
    ensures PrefixSafe(ip, a, c, AfterUnroute(ip, a, c))
  {
    RoutableHasSlot(ip, a);
  }

  lemma {:induction false} AddStagesSafe(ip: AddressOf, a: AppliedConfig, c: AppliedConfig)
    ensures PrefixSafe(ip, a, c, AfterPublish(ip, a, c))
    ensures PrefixSafe(ip, a, c, AfterListen(ip, a, c))
    ensures PrefixSafe(ip, a, c, AfterRoute(ip, a, c))
    ensures PrefixSafe(ip, a, c, BeforeApply(ip, c))
  {
    RoutableHasSlot(ip, c);
  }

  /** With nothing to remove, or nothing to add, the stages of that side change nothing. */
  lemma {:induction false} EmptySides(ip: AddressOf, a: AppliedConfig, c: AppliedConfig)
    ensures var p := PlanApply(ip, a, c);
            && (p.removed == {} ==> AfterUncapture(ip, a, c) == BeforeApply(ip, a))
            && (p.addrDel == {} ==> AfterUnroute(ip, a, c) == AfterUncapture(ip, a, c))
            && (p.added == {} ==> AfterPublish(ip, a, c) == BeforeApply(ip, c))
            && Listening(RoutableKeys(ip, a)) - p.removed == AfterClose(ip, a, c).listeners
            && AfterPublish(ip, a, c).listeners + Listening(p.added) == AfterListen(ip, a, c).listeners
            && AfterListen(ip, a, c).routes + p.addrAdd == AfterRoute(ip, a, c).routes
            && p.removed !! AfterClose(ip, a, c).listeners && p.removed !! AfterListen(ip, a, c).listeners
  {
    PlanReachesTarget(ip, a, c);
    var p := PlanApply(ip, a, c);
    var was, will := RoutableKeys(ip, a), RoutableKeys(ip, c);
    if p.removed == {} { assert was * will == was; }
    if p.added == {} { assert was * will == will; assert IpsOf(was) - p.addrDel == IpsOf(will); }
  }

  class Reconciler {
    const ip: AddressOf
    var up: bool
    var st: Stores
    var applied: AppliedConfig
    var tick: nat
    ghost var trace: seq<Stores>
    /** How often a tunnel was brought up. */
    ghost var starts: nat

    constructor (ip: AddressOf, cfg: AppliedConfig)
      ensures this.ip == ip && !up && tick == 0 && trace == [] && starts == 0
    {
      this.ip := ip;
      up, tick, trace, starts := false, 0, [], 0;
      applied := cfg;
      st := Stores({}, {}, {}, cfg);
    }

    /** The invariant between passes: an up tunnel serves exactly what `applied` says. */
    ghost predicate InSync()
      reads this
    {
      up ==> StoresFor(ip, applied, st)
    }

    // ---- single commands ----

    method Command(env: Env) returns (ok: bool, took: bool)
      modifies this`tick
      ensures tick == old(tick) + 1 && ok == env.ok(old(tick)) && took == (ok || env.took(old(tick)))
    {
      ok := env.ok(tick);
      took := ok || env.took(tick);
      tick := tick + 1;
    }

    /** `ResourceCmd::Remove`: without an acknowledgement the removal may or may not have happened. */
    method SendRemove(keys: set<ResourceKey>, env: Env) returns (ok: bool)
      modifies this`tick, this`st, this`trace
      ensures st == if ok || env.took(old(tick)) then old(st).(listeners := old(st).listeners - keys) else old(st)
      ensures trace == old(trace) + [st] && tick == old(tick) + 1 && ok == env.ok(old(tick))
    {
      var took;
      ok, took := Command(env);
      if took {
        st := st.(listeners := st.listeners - keys);
      }
      trace := trace + [st];
    }

    method SendAdd(keys: set<ResourceKey>, env: Env) returns (ok: bool)
      modifies this`tick, this`st, this`trace
      ensures st == if ok || env.took(old(tick)) then old(st).(listeners := old(st).listeners + Listening(keys))
                    else old(st)
      ensures trace == old(trace) + [st] && tick == old(tick) + 1 && ok == env.ok(old(tick))
    {
      var took;
      ok, took := Command(env);
      if took {
        st := st.(listeners := st.listeners + Listening(keys));
      }
      trace := trace + [st];
    }

    /** One nft transaction: the rules become exactly `flows`, or stay. */
    method ApplyNft(flows: set<ResourceKey>, env: Env) returns (ok: bool)
      modifies this`tick, this`st, this`trace
      ensures st == if ok then old(st).(rules := flows) else old(st)
      ensures trace == old(trace) + [st] && tick == old(tick) + 1 && ok == env.ok(old(tick))
    {
      var took;
      ok, took := Command(env);
      if ok {
        st := st.(rules := flows);
      }
      trace := trace + [st];
    }

    method Publish(cfg: AppliedConfig, env: Env) returns (ok: bool)
      modifies this`tick, this`st, this`trace
      ensures st == if ok then old(st).(published := cfg) else old(st)
      ensures trace == old(trace) + [st] && tick == old(tick) + 1 && ok == env.ok(old(tick))
    {
      var took;
      ok, took := Command(env);
      if ok {
        st := st.(published := cfg);
      }
      trace := trace + [st];
    }

    /** One `ip route del` per address; stops at the first that fails. */
    method DelRoutes(ips: set<Ipv4>, env: Env) returns (ok: bool)
      modifies this`tick, this`st, this`trace
      ensures ok ==> st == old(st).(routes := old(st).routes - ips)
      ensures old(trace) <= trace && tick >= old(tick) && ok == AllOk(env, old(tick), tick)
      ensures st == old(st).(routes := st.routes) && old(st).routes - ips <= st.routes <= old(st).routes
      ensures forall i :: |old(trace)| <= i < |trace| ==>
                trace[i] == old(st).(routes := trace[i].routes) && old(st).routes - ips <= trace[i].routes
    {
      var todo := ips;
      while todo != {}
        invariant todo <= ips && old(trace) <= trace && tick >= old(tick) && AllOk(env, old(tick), tick)
        invariant st == old(st).(routes := old(st).routes - (ips - todo))
        invariant forall i :: |old(trace)| <= i < |trace| ==>
                    trace[i] == old(st).(routes := trace[i].routes) && old(st).routes - ips <= trace[i].routes
        decreases todo
      {
        var a :| a in todo;
        var done, took := Command(env);
        if !done {
          return false;
        }
        st := st.(routes := st.routes - {a});
        todo := todo - {a};
        assert st.routes == old(st).routes - (ips - todo);
        trace := trace + [st];
      }
      return true;
    }

    /** One `ip route replace` per address; stops at the first that fails. */
    method AddRoutes(ips: set<Ipv4>, env: Env) returns (ok: bool)
      modifies this`tick, this`st, this`trace
      ensures ok ==> st == old(st).(routes := old(st).routes + ips)
      ensures old(trace) <= trace && tick >= old(tick) && ok == AllOk(env, old(tick), tick)
      ensures st == old(st).(routes := st.routes) && old(st).routes <= st.routes
      ensures forall i :: |old(trace)| <= i < |trace| ==>
                trace[i] == old(st).(routes := trace[i].routes) && old(st).routes <= trace[i].routes
    {
      var todo := ips;
      while todo != {}
        invariant todo <= ips && old(trace) <= trace && tick >= old(tick) && AllOk(env, old(tick), tick)
        invariant st == old(st).(routes := old(st).routes + (ips - todo))
        invariant forall i :: |old(trace)| <= i < |trace| ==>
                    trace[i] == old(st).(routes := trace[i].routes) && old(st).routes <= trace[i].routes
        decreases todo
      {
        var a :| a in todo;
        var done, took := Command(env);
        if !done {
          return false;
        }
        st := st.(routes := st.routes + {a});
        todo := todo - {a};
        assert st.routes == old(st).routes + (ips - todo);
        trace := trace + [st];
      }
      return true;
    }

    // ---- the resource hot-apply ----

    /** From `lo` on, every recorded state is safe and none of `gone` has a listener. */
    ghost predicate TraceSafe(c: AppliedConfig, lo: nat, gone: set<ResourceKey>)
      reads this
    {
      forall i :: lo <= i < |trace| ==> PrefixSafe(ip, applied, c, trace[i]) && gone !! trace[i].listeners
    }

    /** The last part of the remove side: the routes no key needs any more. */
    method Unroute(c: AppliedConfig, env: Env) returns (ok: bool)
      requires st == AfterUncapture(ip, applied, c)
      modifies this`tick, this`st, this`trace
      ensures old(trace) <= trace && TraceSafe(c, |old(trace)|, PlanApply(ip, applied, c).removed)
      ensures ok ==> st == AfterUnroute(ip, applied, c)
      ensures tick >= old(tick) && ok == AllOk(env, old(tick), tick)
    {
      var plan := PlanApply(ip, applied, c);
      RemoveStagesSafe(ip, applied, c);
      EmptySides(ip, applied, c);
      ok := true;
      if plan.addrDel != {} {
        ok := DelRoutes(plan.addrDel, env);
        forall i | |old(trace)| <= i < |trace| ensures PrefixSafe(ip, applied, c, trace[i]) {
          MoreRoutesSafe(ip, applied, c, AfterUnroute(ip, applied, c), trace[i].routes);
        }
      }
    }

    /** The first part of the remove side: close and stop listening, then uncapture. */
    method StopServing(c: AppliedConfig, env: Env) returns (ok: bool, ghost acked: nat)
      requires StoresFor(ip, applied, st) && PlanApply(ip, applied, c).removed != {}
      modifies this`tick, this`st, this`trace
      ensures old(trace) <= trace && |old(trace)| <= acked <= |trace|
      ensures TraceSafe(c, |old(trace)|, {})
      ensures TraceSafe(c, acked, PlanApply(ip, applied, c).removed)
      ensures ok ==> st == AfterUncapture(ip, applied, c)
      ensures tick >= old(tick) && ok == AllOk(env, old(tick), tick)
    {
      var plan := PlanApply(ip, applied, c);
      RemoveStagesSafe(ip, applied, c);
      EmptySides(ip, applied, c);
      acked := |trace|;
      ok := SendRemove(plan.removed, env);
      if !ok {
        acked := |trace|;
        return;
      }
      ok := ApplyNft(plan.flowsAfterRemoval, env);
      OkThen(env, old(tick), old(tick) + 1, tick);
    }

    /** The remove side: close and stop listening, then uncapture, then unroute. */
    method RemoveSide(c: AppliedConfig, env: Env) returns (ok: bool, ghost acked: nat)
      requires StoresFor(ip, applied, st)
      modifies this`tick, this`st, this`trace
      ensures old(trace) <= trace && |old(trace)| <= acked <= |trace|
      ensures TraceSafe(c, |old(trace)|, {})
      ensures TraceSafe(c, acked, PlanApply(ip, applied, c).removed)
      ensures ok ==> st == AfterUnroute(ip, applied, c)
      ensures tick >= old(tick) && ok == AllOk(env, old(tick), tick)
    {
      EmptySides(ip, applied, c);
      acked := |trace|;
      if PlanApply(ip, applied, c).removed != {} {
        ok, acked := StopServing(c, env);
        if !ok {
          return;
        }
      }
      ghost var mid := tick;
      ok := Unroute(c, env);
      OkThen(env, old(tick), mid, tick);
    }

    /** The last part of the add side: the new routes, then the rules. */
    method RouteAndCapture(c: AppliedConfig, env: Env) returns (ok: bool)
      requires st == AfterListen(ip, applied, c)
      modifies this`tick, this`st, this`trace
      ensures old(trace) <= trace && TraceSafe(c, |old(trace)|, PlanApply(ip, applied, c).removed)
      ensures ok ==> StoresFor(ip, c, st)
      ensures tick >= old(tick) && ok == AllOk(env, old(tick), tick)
    {
      var plan := PlanApply(ip, applied, c);
      AddStagesSafe(ip, applied, c);
      EmptySides(ip, applied, c);
      PlanReachesTarget(ip, applied, c);
      if plan.addrAdd != {} {
        ok := AddRoutes(plan.addrAdd, env);
        forall i | |old(trace)| <= i < |trace| ensures PrefixSafe(ip, applied, c, trace[i]) {
          MoreRoutesSafe(ip, applied, c, AfterListen(ip, applied, c), trace[i].routes);
        }
        if !ok {
          return;
        }
      }
      ghost var mid := tick;
      ok := ApplyNft(plan.flowsAfter, env);
      OkThen(env, old(tick), mid, tick);
    }

    /** The first part of the add side: the fwmark rule, then the listeners. */
    method StartServing(c: AppliedConfig, env: Env) returns (ok: bool)
      requires st == AfterPublish(ip, applied, c)
      modifies this`tick, this`st, this`trace
      ensures old(trace) <= trace && TraceSafe(c, |old(trace)|, PlanApply(ip, applied, c).removed)
      ensures ok ==> st == AfterListen(ip, applied, c)
      ensures tick >= old(tick) && ok == AllOk(env, old(tick), tick)
    {
      AddStagesSafe(ip, applied, c);
      EmptySides(ip, applied, c);
      var took;
      ok, took := Command(env);
      if !ok {
        return;
      }
      ok := SendAdd(PlanApply(ip, applied, c).added, env);
      OkThen(env, old(tick), old(tick) + 1, tick);
    }

    /** The add side: listen, then route, then capture. */
    method AddSide(c: AppliedConfig, env: Env) returns (ok: bool)
      requires st == AfterPublish(ip, applied, c)
      modifies this`tick, this`st, this`trace
      ensures old(trace) <= trace
      ensures TraceSafe(c, |old(trace)|, PlanApply(ip, applied, c).removed)
      ensures ok ==> StoresFor(ip, c, st)
      ensures tick >= old(tick) && ok == AllOk(env, old(tick), tick)
    {
      EmptySides(ip, applied, c);
      if PlanApply(ip, applied, c).added == {} {
        return true;
      }
      ok := StartServing(c, env);
      if !ok {
        return;
      }
      ghost var mid := tick;
      ok := RouteAndCapture(c, env);
      OkThen(env, old(tick), mid, tick);
    }

    method PublishMap(c: AppliedConfig, env: Env) returns (ok: bool)
      requires st == AfterUnroute(ip, applied, c)
      modifies this`tick, this`st, this`trace
      ensures old(trace) <= trace && TraceSafe(c, |old(trace)|, PlanApply(ip, applied, c).removed)
      ensures ok ==> st == AfterPublish(ip, applied, c)
      ensures tick == old(tick) + 1 && ok == AllOk(env, old(tick), tick)
    {
      RemoveStagesSafe(ip, applied, c);
      AddStagesSafe(ip, applied, c);
      EmptySides(ip, applied, c);
      ok := Publish(c, env);
    }

    /** One publication, then the add side. */
    method PublishAndAdd(c: AppliedConfig, env: Env) returns (ok: bool)
      requires st == AfterUnroute(ip, applied, c)
      modifies this`tick, this`st, this`trace
      ensures old(trace) <= trace && TraceSafe(c, |old(trace)|, PlanApply(ip, applied, c).removed)
      ensures ok ==> StoresFor(ip, c, st)
      ensures tick >= old(tick) && ok == AllOk(env, old(tick), tick)
    {
      ok := PublishMap(c, env);
      if !ok {
        return;
      }
      ok := AddSide(c, env);
      OkThen(env, old(tick), old(tick) + 1, tick);
    }

    /** The mutation: remove side, one publication, add side; stops at the first failure. */
    method Mutate(c: AppliedConfig, env: Env) returns (ok: bool, ghost acked: nat)
      requires StoresFor(ip, applied, st)
      modifies this`tick, this`st, this`trace
      ensures old(trace) <= trace && |old(trace)| <= acked <= |trace|
      ensures TraceSafe(c, |old(trace)|, {})
      ensures TraceSafe(c, acked, PlanApply(ip, applied, c).removed)
      ensures ok ==> StoresFor(ip, c, st)
      ensures tick >= old(tick) && ok == AllOk(env, old(tick), tick)
    {
      ok, acked := RemoveSide(c, env);
      if !ok {
        return;
      }
      ghost var mid := tick;
      ok := PublishAndAdd(c, env);
      OkThen(env, old(tick), mid, tick);
    }

    /**
     One resource apply. `i` are the inputs it reads, `built` whether the new map could be
     built. `acked` is the point of the trace from which a removal is acknowledged.
     */
    method HotApplyResources(i: Inputs, built: bool, env: Env) returns (outcome: Outcome, ghost acked: nat)
      requires InSync()
      modifies this`tick, this`st, this`trace, this`applied
      ensures old(trace) <= trace && |old(trace)| <= acked <= |trace|
      ensures outcome == TunnelGone || outcome == Superseded || outcome == PreMutationFailed ==>
                st == old(st) && applied == old(applied) && trace == old(trace) && tick == old(tick)
      ensures outcome == TunnelGone <==> !up
      ensures outcome == Superseded <==>
                up && (!Complete(i) || (i.crl && ClassifyApplied(old(applied), Candidate(i)) != ResourceDelta))
      ensures outcome == PreMutationFailed <==>
                && up && Complete(i)
                && (!i.crl || (ClassifyApplied(old(applied), Candidate(i)) == ResourceDelta && !built))
      ensures tick >= old(tick) && (outcome == MutationFailed ==> !AllOk(env, old(tick), tick))
      ensures outcome == Applied ==> AllOk(env, old(tick), tick)
      ensures outcome == MutationFailed ==> applied == old(applied)
      ensures outcome == Applied ==> Complete(i) && applied == Candidate(i) && StoresFor(ip, applied, st)
      ensures Complete(i) ==>
                forall n :: |old(trace)| <= n < |trace| ==> PrefixSafe(ip, old(applied), Candidate(i), trace[n])
      ensures Complete(i) ==>
                forall n :: acked <= n < |trace| ==>
                    PlanApply(ip, old(applied), Candidate(i)).removed !! trace[n].listeners
    {
      acked := |trace|;
      if !up {
        return TunnelGone, acked;
      }
      if !Complete(i) {
        return Superseded, acked;
      }
      if !i.crl {
        return PreMutationFailed, acked;
      }
      var c := Candidate(i);
      if ClassifyApplied(applied, c) != ResourceDelta {
        return Superseded, acked;
      }
      if !built {
        return PreMutationFailed, acked;
      }
      var ok;
      ok, acked := Mutate(c, env);
      if !ok {
        return MutationFailed, acked;
      }
      applied := c;
      return Applied, acked;
    }

    // ---- the transport-map hot-apply ----

    /** `i` are the inputs the map is built from, `now` those at publication. */
    method HotApplyTransportMap(i: Inputs, now: Inputs, built: bool, env: Env) returns (outcome: MapOutcome)
      requires InSync() && up
      modifies this`tick, this`st, this`trace, this`applied
      ensures outcome != MapApplied ==> st == old(st) && applied == old(applied)
      ensures outcome == MapApplied ==> Complete(i) && applied == Candidate(i) && StoresFor(ip, applied, st)
                                        && st == old(st).(published := applied)
      ensures outcome == BuildFailed <==> MapWanted(old(applied), Read(i)) && !built
      ensures outcome == MapApplied <==> MapReady(old(applied), Read(i), Read(now)) && built && env.ok(old(tick))
      ensures tick == old(tick) + if MapReady(old(applied), Read(i), Read(now)) && built then 1 else 0
    {
      if !Complete(i) || !i.crl {
        return Fallback;
      }
      var c := Candidate(i);
      if ClassifyApplied(applied, c) != TransportOnly {
        return Fallback;
      }
      if !built {
        return BuildFailed;
      }
      if !Complete(now) || Candidate(now) != c {
        return Fallback;
      }
      var ok := Publish(c, env);
      if !ok {
        return Fallback;
      }
      TransportOnlyPlanIsEmpty(ip, applied, c);
      PlanReachesTarget(ip, applied, c);
      applied := c;
      return MapApplied;
    }

    // ---- down and up ----

    /** Stopping an up tunnel ends the net stack and removes its rules and routes. */
    method Down()
      modifies this`up, this`st
      ensures !up && st == if old(up) then old(st).(listeners := {}, rules := {}, routes := {}) else old(st)
    {
      if up {
        up := false;
        st := st.(listeners := {}, rules := {}, routes := {});
      }
    }

    /**
     A fresh bring-up from `i`; any of its steps may fail, leaving the tunnel down (rules and
     routes already made stay behind).
     */
    method BringUp(i: Inputs, built: bool, env: Env) returns (ok: bool)
      requires !up
      modifies this`up, this`st, this`applied, this`tick, this`starts
      ensures ok == up && (ok <==> Complete(i) && built && env.ok(old(tick)))
      ensures tick == old(tick) + (if Complete(i) && built then 1 else 0) && starts == old(starts) + if ok then 1 else 0
      ensures up ==> Complete(i) && built && applied == Candidate(i) && StoresFor(ip, applied, st)
      ensures !up ==> applied == old(applied) && st.listeners == old(st).listeners && st.published == old(st).published
    {
      if !Complete(i) || !built {
        return false;
      }
      var keys := RoutableKeys(ip, Candidate(i));
      var done, took := Command(env);
      if !done {
        if took {
          st := st.(rules := keys, routes := IpsOf(keys));
        }
        return false;
      }
      applied := Candidate(i);
      st := Stores(Listening(keys), keys, IpsOf(keys), applied);
      up, starts := true, starts + 1;
      return true;
    }

    method DownUp(i: Inputs, built: bool, env: Env) returns (ok: bool)
      modifies this`up, this`st, this`applied, this`tick, this`starts
      ensures ok == up && (ok <==> Complete(i) && built && env.ok(old(tick)))
      ensures tick == old(tick) + (if Complete(i) && built then 1 else 0) && starts == old(starts) + if ok then 1 else 0
      ensures up ==> Complete(i) && applied == Candidate(i) && StoresFor(ip, applied, st)
    {
      Down();
      ok := BringUp(i, built, env);
    }

    // ---- one pass ----

    ghost function Now(): Moment
      reads this
    {
      Moment(up, st, applied, tick, starts)
    }

    method MapPass(w: Window, built: bool, env: Env) returns (ok: bool)
      requires InSync() && up && Complete(w.decide) && ClassifyApplied(applied, Candidate(w.decide)) == TransportOnly
      modifies this
      ensures InSync() && PassDone(old(Now()), Now(), ok, ReadAll(w), false, built, env)
    {
      var outcome := HotApplyTransportMap(w.apply, w.publish, built, env);
      ghost var mid := Now();
      match outcome {
        case MapApplied => ok := true;
        case BuildFailed => ok := false;
        case Fallback => ok := DownUp(w.restart, built, env);
      }
      MapPassDone(old(Now()), mid, Now(), outcome, ok, ReadAll(w), built, env);
    }

    method ResourcePass(w: Window, built: bool, env: Env) returns (ok: bool)
      requires InSync() && up && Complete(w.decide) && ClassifyApplied(applied, Candidate(w.decide)) == ResourceDelta
      modifies this
      ensures InSync() && PassDone(old(Now()), Now(), ok, ReadAll(w), false, built, env)
    {
      var outcome, acked := HotApplyResources(w.apply, built, env);
      ghost var mid := Now();
      match outcome {
        case Applied => ok := true;
        case Superseded => ok := true;
        case TunnelGone => ok := true;
        case PreMutationFailed => ok := false;
        case MutationFailed =>
          ok := DownUp(w.restart, built, env);
      }
      DeltaPassDone(old(Now()), mid, Now(), outcome, ok, ReadAll(w), built, env);
    }

    /**
     One restart pass. `w` are the inputs at each moment the pass reads them: at the decision,
     at the start of an apply, at publication, and when a restart brings the tunnel up.
     */
    method RunPass(w: Window, taskDead: bool, built: bool, env: Env) returns (ok: bool)
      requires InSync()
      modifies this
      ensures InSync()
      ensures !old(up) ==> ok && Now() == old(Now())
      ensures old(up) && !taskDead && Complete(w.decide) && Candidate(w.decide) == old(applied) ==>
                ok && Now() == old(Now())
      ensures old(up) ==> PassDone(old(Now()), Now(), ok, ReadAll(w), taskDead, built, env)
    {
      if !up {
        return true;
      }
      if taskDead {
        ok := DownUp(w.restart, built, env);
        RestartDone(old(Now()), Now(), ok, ReadAll(w), taskDead, built, env);
        return;
      }
      var delta := if Complete(w.decide) then ClassifyApplied(applied, Candidate(w.decide)) else Structural;
      match delta {
        case NoChange =>
          return true;
        case Structural =>
          ok := DownUp(w.restart, built, env);
          RestartDone(old(Now()), Now(), ok, ReadAll(w), taskDead, built, env);
        case TransportOnly =>
          ok := MapPass(w, built, env);
        case ResourceDelta =>
          ok := ResourcePass(w, built, env);
      }
    }

    /** A pass that succeeds on steady snapshots leaves the next one nothing to do. */
    method SecondPassIsNoOp(i: Inputs, taskDead: bool, built: bool, built': bool, env: Env, env': Env)
      returns (ok: bool, again: bool, same: bool)
      requires InSync() && up
      modifies this
      ensures InSync()
      ensures ok ==> again && same
    {
      var w := Window(i, i, i, i);
      ok := RunPass(w, taskDead, built, env);
      var st1, applied1 := st, applied;
      again := RunPass(w, false, built', env');
      same := up && st == st1 && applied == applied1;
    }

    /** Every run of passes, downs and ups keeps an up tunnel in sync with `applied`. */
    method Run(ops: seq<Op>)
      requires InSync()
      modifies this
      ensures InSync()
    {
      for n := 0 to |ops|
        invariant InSync()
      {
        match ops[n] {
          case Pass(w, taskDead, built, env) =>
            var ok := RunPass(w, taskDead, built, env);
          case GoDown =>
            Down();
          case GoUp(i, built, env) =>
            if !up {
              var ok := BringUp(i, built, env);
            }
        }
      }
    }
  }

  datatype MapOutcome = MapApplied | BuildFailed | Fallback

  datatype Window = Window(decide: Inputs, apply: Inputs, publish: Inputs, restart: Inputs)

  /** The same as the pass reads them. */
  datatype Views = Views(decide: Seen, apply: Seen, publish: Seen, restart: Seen)

  function ReadAll(w: Window): Views { Views(Read(w.decide), Read(w.apply), Read(w.publish), Read(w.restart)) }

  /** The configuration asked for did not change while the pass ran. */
  predicate Steady(v: Views) { v.decide == v.apply == v.publish == v.restart }

  /** A pass has to restart an up tunnel: its task is dead, or the change is structural. */
  predicate MustRestart(applied: AppliedConfig, x: Seen, taskDead: bool)
  {
    taskDead || x.cfg.None? || ClassifyApplied(applied, x.cfg.value) == Structural
  }

  /** The inputs call for a new transport map and nothing else. */
  predicate MapWanted(applied: AppliedConfig, x: Seen)
  {
    x.cfg.Some? && x.crl && ClassifyApplied(applied, x.cfg.value) == TransportOnly
  }

  /** They still do when the map is to be published. */
  predicate MapReady(applied: AppliedConfig, x: Seen, now: Seen) { MapWanted(applied, x) && now.cfg == x.cfg }

  /** A tunnel between two steps of the daemon; `starts` counts how often it was brought up. */
  datatype Moment = Moment(up: bool, st: Stores, applied: AppliedConfig, tick: nat, starts: nat)

  /** A pass that fails leaves the running tunnel as it was, for want of a map; or it could not bring it up again. */
  predicate FailsOnlyIf(s: Moment, t: Moment, ok: bool, v: Views, built: bool, env: Env)
  {
    && (ok ==> t.up)
    && (!ok && t.up ==> t.st == s.st && t.applied == s.applied && t.starts == s.starts && (!built || !v.apply.crl))
    && (!t.up ==> v.restart.cfg.None? || !built || (t.tick > s.tick && !env.ok(t.tick - 1)))
  }

  /** A dead task or a structural change: the tunnel is restarted, and comes up exactly when it can. */
  predicate RestartsIf(s: Moment, t: Moment, ok: bool, v: Views, taskDead: bool, built: bool, env: Env)
  {
    MustRestart(s.applied, v.decide, taskDead) ==>
      && (ok <==> v.restart.cfg.Some? && built && env.ok(s.tick))
      && (ok ==> t.starts == s.starts + 1 && v.restart.cfg == Some(t.applied))
  }

  /** Any other change restarts it only if a command failed, or the inputs moved while a map was built. */
  predicate RestartsOnlyIf(s: Moment, t: Moment, v: Views, taskDead: bool, env: Env)
  {
    t.starts != s.starts || !t.up ==>
      || MustRestart(s.applied, v.decide, taskDead) || !AllOk(env, s.tick, t.tick)
      || (ClassifyApplied(s.applied, v.decide.cfg.value) == TransportOnly && !MapReady(s.applied, v.apply, v.publish))
  }

  /**
   On steady inputs a pass that succeeds has applied them; and it succeeds if they are complete and every step
   does, with a restart only where there has to be one.
   */
  predicate AppliesInputs(s: Moment, t: Moment, ok: bool, v: Views, taskDead: bool, built: bool, env: Env)
  {
    Steady(v) ==>
      && (ok ==> t.up && v.decide.cfg == Some(t.applied))
      && (v.decide.cfg.Some? && v.decide.crl && built && AllOk(env, s.tick, t.tick) ==>
            ok && t.starts == s.starts + if MustRestart(s.applied, v.decide, taskDead) then 1 else 0)
  }

  /** What a pass does to a tunnel that was up. */
  predicate PassDone(s: Moment, t: Moment, ok: bool, v: Views, taskDead: bool, built: bool, env: Env)
  {
    && s.tick <= t.tick && FailsOnlyIf(s, t, ok, v, built, env) && RestartsIf(s, t, ok, v, taskDead, built, env)
    && RestartsOnlyIf(s, t, v, taskDead, env) && AppliesInputs(s, t, ok, v, taskDead, built, env)
  }

  /** What a restart does, from `m` to `t`. */
  predicate RestartTried(m: Moment, t: Moment, ok: bool, x: Seen, built: bool, env: Env)
  {
    && t.up == ok && (ok <==> x.cfg.Some? && built && env.ok(m.tick)) && t.starts == m.starts + (if ok then 1 else 0)
    && t.tick == m.tick + (if x.cfg.Some? && built then 1 else 0) && (ok ==> x.cfg == Some(t.applied))
  }

  /** What trying to publish a map does, from `s` to `m`. */
  predicate MapTried(s: Moment, m: Moment, outcome: MapOutcome, v: Views, built: bool, env: Env)
  {
    && m.up && m.starts == s.starts
    && m.tick == s.tick + (if MapReady(s.applied, v.apply, v.publish) && built then 1 else 0)
    && (outcome != MapApplied ==> m.st == s.st && m.applied == s.applied)
    && (outcome == MapApplied ==> v.apply.cfg == Some(m.applied))
    && (outcome == BuildFailed <==> MapWanted(s.applied, v.apply) && !built)
    && (outcome == MapApplied <==> MapReady(s.applied, v.apply, v.publish) && built && env.ok(s.tick))
  }

  lemma {:induction false} MapPassDone(s: Moment, m: Moment, t: Moment, outcome: MapOutcome, ok: bool, v: Views,
                                       built: bool, env: Env)
    requires v.decide.cfg.Some? && ClassifyApplied(s.applied, v.decide.cfg.value) == TransportOnly
    requires MapTried(s, m, outcome, v, built, env)
    requires if outcome == Fallback then RestartTried(m, t, ok, v.restart, built, env)
             else t == m && (ok <==> outcome == MapApplied)
    ensures PassDone(s, t, ok, v, false, built, env)
  {
    if outcome == Fallback { OkThen(env, s.tick, m.tick, t.tick); }
  }

  /** What a resource apply does, from `s` to `m`. */
  predicate DeltaTried(s: Moment, m: Moment, outcome: Outcome, x: Seen, built: bool, env: Env)
  {
    && m.up && m.starts == s.starts && s.tick <= m.tick && outcome != TunnelGone
    && (outcome == Superseded || outcome == PreMutationFailed ==> m == s)
    && (outcome == Superseded <==>
          x.cfg.None? || (x.crl && ClassifyApplied(s.applied, x.cfg.value) != ResourceDelta))
    && (outcome == PreMutationFailed <==>
          x.cfg.Some? && (!x.crl || (ClassifyApplied(s.applied, x.cfg.value) == ResourceDelta && !built)))
    && (outcome == MutationFailed ==> !AllOk(env, s.tick, m.tick))
    && (outcome == Applied ==> AllOk(env, s.tick, m.tick) && x.cfg == Some(m.applied))
  }

  lemma {:induction false} DeltaPassDone(s: Moment, m: Moment, t: Moment, outcome: Outcome, ok: bool, v: Views,
                                         built: bool, env: Env)
    requires v.decide.cfg.Some? && ClassifyApplied(s.applied, v.decide.cfg.value) == ResourceDelta
    requires DeltaTried(s, m, outcome, v.apply, built, env)
    requires if outcome == MutationFailed then RestartTried(m, t, ok, v.restart, built, env)
             else t == m && (ok <==> outcome != PreMutationFailed)
    ensures PassDone(s, t, ok, v, false, built, env)
  {
    if outcome == MutationFailed { OkThen(env, s.tick, m.tick, t.tick); }
  }

  lemma {:induction false} RestartDone(s: Moment, t: Moment, ok: bool, v: Views, taskDead: bool, built: bool, env: Env)
    requires MustRestart(s.applied, v.decide, taskDead) && RestartTried(s, t, ok, v.restart, built, env)
    ensures PassDone(s, t, ok, v, taskDead, built, env)
  {
  }

  datatype Op = Pass(w: Window, taskDead: bool, built: bool, env: Env) | GoDown | GoUp(i: Inputs, built: bool, env: Env)

  /**
   In sync, the captured keys are exactly the served ones if and only if no applied entry
   has a routable key with port 0 (a port that is a multiple of 65536): such a key is
   captured and routed but nothing can listen on it.
   */
  lemma {:induction false} CapturedIsServedIff(ip: AddressOf, cfg: AppliedConfig, st: Stores)
    requires StoresFor(ip, cfg, st)
    ensures st.listeners == st.rules <==>
              forall e :: e in cfg.entries && RoutableKey(ip, e).Some? ==> e.port % 65536 != 0
  {
    if st.listeners == st.rules {
      forall e | e in cfg.entries && RoutableKey(ip, e).Some? ensures e.port % 65536 != 0 {
        assert RoutableKey(ip, e).value in RoutableKeys(ip, cfg);
        assert RoutableKey(ip, e).value in st.listeners;
      }
    }
    if forall e :: e in cfg.entries && RoutableKey(ip, e).Some? ==> e.port % 65536 != 0 {
      assert forall k :: k in RoutableKeys(ip, cfg) ==> k.1 != 0;
    }
  }

  /** The smallest failing input: one TCP entry whose port truncates to 0. */
  lemma {:induction false} PortZeroIsCapturedUnserved(identity: Identity)
    ensures var e := AppliedEntry("10.0.0.1", 65536, "tcp", "rn", "", []);
            var cfg := AppliedConfig(identity, [e]);
            var ip := (a: string) => if a == "10.0.0.1" then Some(Address(10, 0, 0, 1)) else None;
            var st := BeforeApply(ip, cfg);
            (Address(10, 0, 0, 1), 0) in st.rules && (Address(10, 0, 0, 1), 0) !in st.listeners
  {
    var e := AppliedEntry("10.0.0.1", 65536, "tcp", "rn", "", []);
    var cfg := AppliedConfig(identity, [e]);
    var ip := (a: string) => if a == "10.0.0.1" then Some(Address(10, 0, 0, 1)) else None;
    assert e in cfg.entries && RoutableKey(ip, e) == Some((Address(10, 0, 0, 1), 0));
  }
}

/**
 What threads can do to the tunnel when they meet: every clash can end out of step, and a Down can
 be undone by a pass. The steps and the clashes are those of module `Lifetime`.
 */
module Clashes {
  import opened Common
  import opened Ordering
  import opened Config
  import opened Classify
  import opened Lifetime

  /** No thread is at work and the tunnel is out of step. */
  ghost predicate Broken(e: Env, s: State) { AtRest(s) && !InSync(e, s) }

  // ---- single threads ----

  /** The state once a thread that builds a tunnel has gone through with it. */
  function Built(e: Env, s: State, t: Thread): State
    requires Building(At(s, t))
  {
    match At(s, t)
    case UpConfigure(d) =>
      Put(s.(kernel := Some(e.keys(d)), nets := s.nets[s.next := Net(true, Some(e.keys(d)), d)], slot := true,
             handle := Some(Handle(s.next + 1, s.next, d)), next := s.next + 2), t, Idle)
    case UpSlot(d, n) => Put(s.(slot := true, handle := Some(Handle(s.next, n, d)), next := s.next + 1), t, Idle)
    case UpHandle(d, n) => Put(s.(handle := Some(Handle(s.next, n, d)), next := s.next + 1), t, Idle)
  }

  lemma {:induction false} FinishUp(e: Env, s: State, t: Thread, c: AppliedConfig) returns (run: seq<Step>)
    requires Building(At(s, t)) && !Held(s)
    ensures ClashFree(e, s, run) && After(e, s, run) == Built(e, s, t)
    decreases if At(s, t).UpConfigure? then 2 else if At(s, t).UpSlot? then 1 else 0
  {
    var st := Go(t, c, true);
    var w := Next(e, s, st);
    var rest := [];
    if !At(s, t).UpHandle? {
      rest := FinishUp(e, w, t, c);
      assert Built(e, w, t).pcs == Built(e, s, t).pcs;
    }
    ClashFreeCons(e, s, st, rest);
    run := [st] + rest;
  }

  /** Without a slot, this thread can stop without touching the handle. */
  predicate CanSettle(s: State, pc: Pc)
  {
    || pc.Idle? || pc.DownSlot? || pc.DownClean? || pc.UpStart?
    || pc.MapBuilding? || pc.ApplyReading? || pc.ApplyBuilding? || pc.Locking?
    || (s.handle.None? && Taker(pc))
  }

  /** The thread is about to take the handle. */
  predicate Taker(pc: Pc) { pc.DownStart? || pc.Deciding? || pc.MapReading? }

  function Remaining(pc: Pc): nat
  {
    match pc
    case Idle => 0
    case Deciding => 5
    case DownStart(_) => 4
    case DownSlot(_) => 3
    case DownClean(_, _) => 2
    case _ => 1
  }

  /** What stopping one thread leaves as it was. */
  ghost predicate Settled(s: State, w: State, t: Thread)
  {
    && w.handle == s.handle && !w.slot && w.nets == s.nets && w.next == s.next
    && At(w, t).Idle? && w.pcs.Keys <= s.pcs.Keys + {t} && forall u :: u != t ==> At(w, u) == At(s, u)
  }

  lemma {:induction false} Settle(e: Env, s: State, t: Thread, c: AppliedConfig) returns (run: seq<Step>)
    requires !s.slot && !Held(s) && CanSettle(s, At(s, t)) && ThreadOk(t, At(s, t))
    ensures ClashFree(e, s, run) && Settled(s, After(e, s, run), t)
    decreases Remaining(At(s, t))
  {
    if At(s, t).Idle? {
      run := [];
    } else {
      var st := Go(t, c, false);
      var w := Next(e, s, st);
      var rest := Settle(e, w, t, c);
      ClashFreeCons(e, s, st, rest);
      run := [st] + rest;
    }
  }

  ghost function Busy(s: State, keep: set<Thread>): set<Thread> { set t | t in s.pcs && t !in keep && !s.pcs[t].Idle? }

  ghost predicate AllSettled(s: State, w: State, keep: set<Thread>)
  {
    && w.handle == s.handle && !w.slot && w.nets == s.nets && w.next == s.next
    && (forall t :: t in w.pcs && t !in keep ==> w.pcs[t].Idle?) && forall t :: t in keep ==> At(w, t) == At(s, t)
  }

  /** All threads but those in `keep` stop. */
  lemma {:induction false} SettleAll(e: Env, s: State, keep: set<Thread>, c: AppliedConfig) returns (run: seq<Step>)
    requires !s.slot && !Held(s)
    requires forall t :: t in s.pcs && t !in keep ==> CanSettle(s, s.pcs[t]) && ThreadOk(t, s.pcs[t])
    ensures ClashFree(e, s, run) && AllSettled(s, After(e, s, run), keep)
    decreases |Busy(s, keep)|
  {
    if Busy(s, keep) == {} {
      run := [];
      forall t | t in s.pcs && t !in keep ensures s.pcs[t].Idle? {
        assert t !in Busy(s, keep);
      }
    } else {
      var t :| t in Busy(s, keep);
      var a := Settle(e, s, t, c);
      var w := After(e, s, a);
      BusyLess(s, w, t, keep);
      var b := SettleAll(e, w, keep, c);
      ClashFreeThen(e, s, a, b);
      run := a + b;
    }
  }

  lemma {:induction false} BusyLess(s: State, w: State, t: Thread, keep: set<Thread>)
    requires Settled(s, w, t) && t in Busy(s, keep) && !Held(s)
    ensures |Busy(w, keep)| < |Busy(s, keep)| && !Held(w)
    ensures forall u :: u in w.pcs ==> w.pcs[u].Idle? || (u != t && u in s.pcs && w.pcs[u] == s.pcs[u])
  {
    forall u | u in w.pcs && u != t ensures u in s.pcs && w.pcs[u] == s.pcs[u] {
      assert At(w, u) == At(s, u);
    }
    assert At(w, PASS) == At(s, PASS) || PASS == t;
    forall u | u in Busy(w, keep) ensures u in Busy(s, keep) - {t} {
      assert At(w, u) == w.pcs[u];
    }
    assert Busy(w, keep) <= Busy(s, keep) - {t};
    SubsetSize(Busy(w, keep), Busy(s, keep) - {t});
  }

  lemma {:induction false} SubsetSize<T>(a: set<T>, b: set<T>)
    requires a <= b
    ensures |a| <= |b|
  {
    assert b == a + (b - a);
  }

  // ---- every clash can end out of step ----

  predicate MayBuild(t: Thread) { t == USER || t == PASS }

  /** Nothing is up, and no thread but the given ones builds a tunnel. */
  ghost predicate Vacant(s: State, builders: set<Thread>)
  {
    && s.handle.None? && !s.slot && !Held(s) && ThreadsOk(s)
    && forall t :: t in s.pcs && t !in builders ==> !Building(s.pcs[t])
  }

  lemma {:induction false} VacantSettles(s: State, keep: set<Thread>)
    requires Vacant(s, keep)
    ensures forall t :: t in s.pcs && t !in keep ==> CanSettle(s, s.pcs[t]) && ThreadOk(t, s.pcs[t])
  {
    forall t | t in s.pcs && t !in keep ensures CanSettle(s, s.pcs[t]) {
      assert ThreadOk(t, s.pcs[t]) && !Building(s.pcs[t]);
      if t == PASS { assert At(s, PASS) == s.pcs[t]; }
    }
  }

  /** Two tunnels built at once: one of the net stacks is never stopped. */
  lemma {:induction false} TwoBuilders(e: Env, s: State, t: Thread, u: Thread, c: AppliedConfig)
    returns (run: seq<Step>)
    requires t != u && Vacant(s, {t, u}) && At(s, t).UpConfigure? && Building(At(s, u)) && !At(s, u).UpHandle?
    requires At(s, u).UpConfigure? || At(s, u).net < s.next
    ensures ClashFree(e, s, run) && Broken(e, After(e, s, run))
  {
    VacantSettles(s, {t, u});
    var a := SettleAll(e, s, {t, u}, c);
    var s1 := After(e, s, a);
    NotHeld(s1, {t, u});
    var b := BothFinish(e, s1, t, u, c);
    ClashFreeThen(e, s, a, b);
    run := a + b;
  }

  lemma {:induction false} BothFinish(e: Env, s: State, t: Thread, u: Thread, c: AppliedConfig) returns (run: seq<Step>)
    requires t != u && !Held(s) && forall x :: x in s.pcs && x != t && x != u ==> s.pcs[x].Idle?
    requires At(s, t).UpConfigure? && Building(At(s, u)) && (At(s, u).UpConfigure? || At(s, u).net < s.next)
    ensures ClashFree(e, s, run) && Broken(e, After(e, s, run))
  {
    var a := FinishUp(e, s, t, c);
    var s1 := Built(e, s, t);
    var b := FinishUp(e, s1, u, c);
    ClashFreeThen(e, s, a, b);
    run := a + b;
    assert Built(e, s1, u).nets[s.next].alive;
  }

  /** Threads that build or rest do not hold the slot. */
  lemma {:induction false} NotHeld(s: State, keep: set<Thread>)
    requires forall t :: t in s.pcs && t !in keep ==> s.pcs[t].Idle?
    requires PASS in keep ==> !Holds(At(s, PASS))
    ensures !Held(s)
  {
  }

  /** The cleanup of a Down deletes the rules of the tunnel another thread has just set up. */
  lemma {:induction false} CleanupDeletesRules(e: Env, s: State, t: Thread, u: Thread, c: AppliedConfig)
    returns (run: seq<Step>)
    requires t != u && Vacant(s, {t}) && At(s, t).UpConfigure? && Cleaning(At(s, u)) && e.keys(At(s, t).c) != {}
    ensures ClashFree(e, s, run) && Broken(e, After(e, s, run))
    ensures var w := After(e, s, run);
            w.handle.Some? && w.handle.value.cfg == At(s, t).c && w.slot && w.kernel == Some({})
  {
    VacantSettles(s, {t});
    var a := SettleAll(e, s, {t, u}, c);
    var s1 := After(e, s, a);
    NotHeld(s1, {t, u});
    var b := FinishUp(e, s1, t, c);
    var s2 := Built(e, s1, t);
    var go := Go(u, c, false);
    var s3 := Next(e, s2, go);
    var d := [];
    if At(s3, u).UpStart? {
      ClashFreeCons(e, s3, go, []);
      d := [go] + [];
    }
    ClashFreeCons(e, s2, go, d);
    ClashFreeThen(e, s1, b, [go] + d);
    ClashFreeThen(e, s, a, b + ([go] + d));
    run := a + (b + ([go] + d));
  }

  /** The slot of a tunnel is gone before its handle is set. */
  lemma {:induction false} HandleComesLate(e: Env, s: State, t: Thread, c: AppliedConfig) returns (run: seq<Step>)
    requires Vacant(s, {t}) && At(s, t).UpHandle?
    ensures ClashFree(e, s, run) && Broken(e, After(e, s, run))
  {
    VacantSettles(s, {t});
    var a := SettleAll(e, s, {t}, c);
    var s1 := After(e, s, a);
    NotHeld(s1, {t});
    var b := FinishUp(e, s1, t, c);
    ClashFreeThen(e, s, a, b);
    run := a + b;
  }

  /** A handle without a slot is left when all threads stop. */
  lemma {:induction false} HandleIsLeft(e: Env, s: State, c: AppliedConfig) returns (run: seq<Step>)
    requires s.handle.Some? && !s.slot && !Held(s)
    requires forall t :: t in s.pcs ==> CanSettle(s, s.pcs[t]) && ThreadOk(t, s.pcs[t])
    ensures ClashFree(e, s, run) && Broken(e, After(e, s, run))
  {
    run := SettleAll(e, s, {}, c);
  }

  /** The thread takes handle and slot, whatever it finds. */
  lemma {:induction false} TakeBoth(e: Env, s: State, t: Thread, c: AppliedConfig) returns (run: seq<Step>)
    requires Taker(At(s, t)) && ThreadOk(t, At(s, t)) && !Held(s) && !At(s, USER).UpHandle? && !At(s, PASS).UpHandle?
    requires At(s, t).DownStart? || s.handle.Some?
    ensures ClashFree(e, s, run)
    ensures var w := After(e, s, run);
            && w.handle.None? && !w.slot && w.next == s.next && (forall u :: u != t ==> At(w, u) == At(s, u))
            && At(w, t).DownClean? && ThreadOk(t, At(w, t)) && w.pcs.Keys == s.pcs.Keys
            && (forall n :: n in s.nets && (s.handle.None? || s.handle.value.net != n) ==>
                  n in w.nets && w.nets[n] == s.nets[n])
    decreases if At(s, t).DownStart? then 0 else 1
  {
    var go := Go(t, c, false);
    var s1 := Next(e, s, go);
    if At(s, t).DownStart? {
      var s2 := Next(e, s1, go);
      ClashFreeCons(e, s1, go, []);
      ClashFreeCons(e, s, go, [go] + []);
      run := [go] + ([go] + []);
    } else {
      var rest := TakeBoth(e, s1, t, c);
      ClashFreeCons(e, s, go, rest);
      run := [go] + rest;
    }
  }

  /** A tunnel is built over a running one, and then taken down: the net stack of the first is never stopped. */
  lemma {:induction false} FirstIsForgotten(e: Env, s: State, t: Thread, u: Thread, c: AppliedConfig)
    returns (run: seq<Step>)
    requires t != u && MayBuild(t) && At(s, t).UpConfigure? && Taker(At(s, u)) && !s.slot && !Held(s) && ThreadsOk(s)
    requires s.handle.Some? && Alive(s, s.handle.value.net) && s.handle.value.net < s.next
    requires forall x :: x in s.pcs && x != t ==> !Building(s.pcs[x])
    ensures ClashFree(e, s, run) && Broken(e, After(e, s, run))
  {
    var n := s.handle.value.net;
    var a := FinishUp(e, s, t, c);
    var s1 := Built(e, s, t);
    var b := TakeBoth(e, s1, u, c);
    var s2 := After(e, s1, b);
    AfterTake(s, s1, s2, t, u);
    VacantSettles(s2, {});
    var d := SettleAll(e, s2, {}, c);
    ClashFreeThen(e, s1, b, d);
    ClashFreeThen(e, s, a, b + d);
    run := a + (b + d);
    assert s2.nets[n] == s.nets[n];
  }

  lemma {:induction false} AfterTake(s: State, s1: State, s2: State, t: Thread, u: Thread)
    requires t != u && ThreadsOk(s) && s1.pcs == s.pcs[t := Idle]
    requires forall x :: x in s.pcs && x != t ==> !Building(s.pcs[x])
    requires s2.handle.None? && !s2.slot && At(s2, u).DownClean? && ThreadOk(u, At(s2, u)) && s2.pcs.Keys == s1.pcs.Keys
    requires !Held(s1) && forall x :: x != u ==> At(s2, x) == At(s1, x)
    ensures Vacant(s2, {})
  {
    forall x | x in s2.pcs ensures ThreadOk(x, s2.pcs[x]) && !Building(s2.pcs[x]) {
      assert At(s2, x) == s2.pcs[x] && x in s1.pcs && At(s1, x) == s1.pcs[x];
    }
    assert At(s2, PASS) == At(s1, PASS) || PASS == u;
  }

  /** The pass, after its cleanup, starts to build. */
  lemma {:induction false} PassStarts(e: Env, s: State, c: AppliedConfig) returns (run: seq<Step>)
    requires At(s, PASS).DownClean? && At(s, PASS).again && !s.slot && !Building(At(s, USER))
    requires forall t :: t in s.pcs && t != PASS ==> !Cleaning(s.pcs[t])
    ensures ClashFree(e, s, run)
    ensures var w := After(e, s, run);
            && w.handle == s.handle && !w.slot && w.nets == s.nets && w.next == s.next
            && w.pcs == s.pcs[PASS := UpConfigure(c)]
  {
    var go := Go(PASS, c, true);
    var s1 := Next(e, s, go);
    assert !AnyCleaning(s1);
    ClashFreeCons(e, s1, go, []);
    ClashFreeCons(e, s, go, [go] + []);
    run := [go] + ([go] + []);
    assert s.pcs[PASS := UpStart][PASS := UpConfigure(c)] == s.pcs[PASS := UpConfigure(c)];
  }

  /** The user, after the Down that cleans up and their own request are done, asks for the tunnel. */
  lemma {:induction false} UserStarts(e: Env, s: State, x: Thread, c: AppliedConfig) returns (run: seq<Step>)
    requires !s.slot && !Held(s) && ThreadsOk(s) && At(s, x).DownClean? && x != PASS && CanSettle(s, At(s, USER))
    requires (forall t :: t in s.pcs && t != x ==> !Cleaning(s.pcs[t])) && !Building(At(s, PASS))
    ensures ClashFree(e, s, run)
    ensures var w := After(e, s, run);
            && w.handle == s.handle && !w.slot && w.nets == s.nets && w.next == s.next && At(w, USER) == UpConfigure(c)
            && At(w, x) == (if x == USER then UpConfigure(c) else Idle)
            && w.pcs.Keys <= s.pcs.Keys + {x, USER} && forall t :: t != x && t != USER ==> At(w, t) == At(s, t)
  {
    ThreadFine(s, x);
    ThreadFine(s, USER);
    var a := Settle(e, s, x, c);
    var s1 := After(e, s, a);
    var b := Settle(e, s1, USER, c);
    var s2 := After(e, s1, b);
    NoneCleans(s, s2, x);
    var d := UserAsks(e, s2, c);
    ClashFreeThen(e, s1, b, d);
    ClashFreeThen(e, s, a, b + d);
    run := a + (b + d);
  }

  lemma {:induction false} UserAsks(e: Env, s: State, c: AppliedConfig) returns (run: seq<Step>)
    requires !s.slot && !Held(s) && At(s, USER).Idle? && !AnyCleaning(s) && !Building(At(s, PASS))
    ensures ClashFree(e, s, run) && After(e, s, run) == Put(s, USER, UpConfigure(c))
  {
    var s1, go := Next(e, s, Ask(USER, true)), Go(USER, c, true);
    OneMoves(s, s1, USER, UpStart);
    ClashFreeCons(e, s1, go, []);
    ClashFreeCons(e, s, Ask(USER, true), [go] + []);
    run := [Ask(USER, true)] + ([go] + []);
    assert s.pcs[USER := UpStart][USER := UpConfigure(c)] == s.pcs[USER := UpConfigure(c)];
  }

  lemma {:induction false} ThreadFine(s: State, t: Thread)
    requires ThreadsOk(s)
    ensures ThreadOk(t, At(s, t))
  {
  }

  lemma {:induction false} NoneCleans(s: State, w: State, x: Thread)
    requires forall t :: t in s.pcs && t != x ==> !Cleaning(s.pcs[t])
    requires forall t :: At(w, t).Idle? || At(w, t).UpStart? || (t != x && At(w, t) == At(s, t))
    ensures !AnyCleaning(w)
  {
    forall t | t in w.pcs ensures !Cleaning(w.pcs[t]) {
      assert At(w, t) == w.pcs[t];
    }
  }

  /**
   From any rest that is down: the user asks for the tunnel, and a directive takes its slot just
   before its handle is set.
   */
  lemma {:induction false} RestBreaks(e: Env, s: State, c: AppliedConfig) returns (run: seq<Step>)
    requires AtRest(s) && s.handle.None? && !s.slot
    ensures Runs(e, s, run) && Broken(e, After(e, s, run))
  {
    assert !AnyCleaning(s);
    var a := UserAsks(e, s, c);
    var s1 := Put(s, USER, UpConfigure(c));
    var b := DirectiveMeetsUp(e, s1, c);
    RunsThen(e, s, a, b);
    run := a + b;
  }

  lemma {:induction false} DirectiveMeetsUp(e: Env, s: State, c: AppliedConfig) returns (run: seq<Step>)
    requires At(s, USER).UpConfigure? && s.handle.None? && !s.slot
    requires forall t :: t in s.pcs && t != USER ==> s.pcs[t].Idle?
    ensures Runs(e, s, run) && Broken(e, After(e, s, run))
  {
    var d: Thread := 2;
    var down := Go(d, c, true);
    var s1 := Next(e, s, Ask(d, false));
    var s2 := Next(e, s1, down);
    var rest := DirectiveTakesSlot(e, s2, d, c);
    RunsCons(e, s1, down, rest);
    RunsCons(e, s, Ask(d, false), [down] + rest);
    run := [Ask(d, false)] + ([down] + rest);
  }

  lemma {:induction false} DirectiveTakesSlot(e: Env, s: State, d: Thread, c: AppliedConfig) returns (run: seq<Step>)
    requires At(s, USER).UpConfigure? && At(s, d) == DownSlot(false) && d != USER && d != PASS
    requires s.handle.None? && !s.slot
    requires forall t :: t in s.pcs && t != USER && t != d ==> s.pcs[t].Idle?
    ensures Runs(e, s, run) && Broken(e, After(e, s, run))
  {
    var up, down := Go(USER, c, true), Go(d, c, true);
    var s1 := Next(e, s, up);
    var s2 := Next(e, s1, up);
    var s3 := Next(e, s2, down);
    assert Vacant(s3, {USER});
    var rest := HandleComesLate(e, s3, USER, c);
    RunsCons(e, s2, down, rest);
    RunsCons(e, s1, up, [down] + rest);
    RunsCons(e, s, up, [up] + ([down] + rest));
    run := [up] + ([up] + ([down] + rest));
  }

  lemma {:induction false} RunsThen(e: Env, s: State, a: seq<Step>, b: seq<Step>)
    requires Runs(e, s, a) && Runs(e, After(e, s, a), b)
    ensures Runs(e, s, a + b) && After(e, s, a + b) == After(e, After(e, s, a), b)
    decreases |a|
  {
    if a == [] {
      assert a + b == b;
    } else {
      RunsThen(e, Next(e, s, a[0]), a[1..], b);
      assert (a + b)[1..] == a[1..] + b;
    }
  }

  ghost predicate NoTaker(s: State) { forall t :: t in s.pcs ==> !Taker(s.pcs[t]) }

  /**
   The clash does harm by itself. It does not if the second Up has nothing to capture and only a
   cleanup is pending, or if another Down is about to take the handle anyway and either its net
   stack has stopped or no thread can bring up another tunnel before.
   */
  ghost predicate Grave(e: Env, s: State, st: Step)
  {
    st.Go? &&
    if At(s, st.t).UpStart? then Building(At(s, USER)) || Building(At(s, PASS)) || e.keys(st.cfg) != {}
    else
      || At(s, USER).UpHandle? || At(s, PASS).UpHandle? || NoTaker(s)
      || (s.handle.Some? && Alive(s, s.handle.value.net) && (st.t == PASS || !At(s, USER).DownStart?))
  }

  lemma {:induction false} StillVacant(e: Env, s: State, st: Step, builders: set<Thread>)
    requires Inv(e, s) && Enabled(s, st) && Clash(s, st) && s.handle.None?
    requires forall t :: t in s.pcs && t !in builders ==> !Building(s.pcs[t])
    requires At(s, st.t).UpStart? ==> st.t in builders
    ensures Vacant(Next(e, s, st), builders)
  {
    var w := Next(e, s, st);
    OneMoves(s, w, st.t, At(w, st.t));
    ThreadFine(s, st.t);
    forall t | t in w.pcs && t !in builders ensures !Building(w.pcs[t]) {
      if t != st.t { assert w.pcs[t] == s.pcs[t]; }
    }
  }

  /** Only the user's thread and the pass build. */
  lemma {:induction false} BuildersAre(s: State, t: Thread)
    requires ThreadsOk(s) && t in s.pcs && InUp(s.pcs[t])
    ensures MayBuild(t)
  {
  }

  lemma {:induction false} NothingBuilt(s: State, keep: set<Thread>)
    requires ThreadsOk(s) && (USER in keep || !Building(At(s, USER))) && (PASS in keep || !Building(At(s, PASS)))
    ensures forall t :: t in s.pcs && t !in keep ==> !Building(s.pcs[t])
  {
    forall t | t in s.pcs && t !in keep ensures !Building(s.pcs[t]) {
      if InUp(s.pcs[t]) { BuildersAre(s, t); }
      assert At(s, t) == s.pcs[t];
    }
  }

  lemma {:induction false} StartsTwiceBreaks(e: Env, s: State, st: Step) returns (rest: seq<Step>)
    requires Inv(e, s) && Enabled(s, st) && StartsTwice(s, st)
    ensures Runs(e, Next(e, s, st), rest) && Broken(e, After(e, Next(e, s, st), rest))
    ensures Grave(e, s, st) ==> ClashFree(e, Next(e, s, st), rest)
  {
    var t, w, c := st.t, Next(e, s, st), st.cfg;
    BuildersAre(s, t);
    var u := if t == USER then PASS else USER;
    if Building(At(s, u)) {
      NothingBuilt(s, {t, u});
      StillVacant(e, s, st, {t, u});
      rest := TwoBuilders(e, w, t, u, c);
    } else {
      NothingBuilt(s, {t});
      StillVacant(e, s, st, {t});
      if e.keys(c) != {} {
        var x :| x in s.pcs && Cleaning(s.pcs[x]);
        rest := CleanupDeletesRules(e, w, t, x, c);
      } else {
        rest := FailThenBreak(e, w, t, c);
      }
    }
  }

  lemma {:induction false} FailThenBreak(e: Env, s: State, t: Thread, c: AppliedConfig) returns (run: seq<Step>)
    requires Vacant(s, {t}) && At(s, t).UpConfigure?
    ensures Runs(e, s, run) && Broken(e, After(e, s, run))
  {
    VacantSettles(s, {t});
    var a := SettleAll(e, s, {t}, c);
    var s1, go := After(e, s, a), Go(t, c, false);
    NotHeld(s1, {t});
    var b := RestBreaks(e, Next(e, s1, go), c);
    RunsCons(e, s1, go, b);
    RunsThen(e, s, a, [go] + b);
    run := a + ([go] + b);
  }

  lemma {:induction false} TakeThenBreak(e: Env, s: State, u: Thread, c: AppliedConfig) returns (run: seq<Step>)
    requires s.handle.Some? && Taker(At(s, u)) && !Held(s) && ThreadsOk(s)
    requires forall t :: t in s.pcs ==> !Building(s.pcs[t])
    ensures Runs(e, s, run) && Broken(e, After(e, s, run))
  {
    ThreadFine(s, u);
    var a := TakeBoth(e, s, u, c);
    var s1 := After(e, s, a);
    StillFine(s, s1, u);
    VacantSettles(s1, {});
    var b := SettleAll(e, s1, {}, c);
    var d := RestBreaks(e, After(e, s1, b), c);
    RunsThen(e, s1, b, d);
    RunsThen(e, s, a, b + d);
    run := a + (b + d);
  }

  lemma {:induction false} StillFine(s: State, w: State, u: Thread)
    requires ThreadsOk(s) && !Held(s) && forall t :: t in s.pcs ==> !Building(s.pcs[t])
    requires w.handle.None? && !w.slot && At(w, u).DownClean? && ThreadOk(u, At(w, u)) && w.pcs.Keys == s.pcs.Keys
    requires forall t :: t != u ==> At(w, t) == At(s, t)
    ensures Vacant(w, {})
  {
    forall t | t in w.pcs ensures ThreadOk(t, w.pcs[t]) && !Building(w.pcs[t]) {
      assert At(w, t) == w.pcs[t] && At(s, t) == s.pcs[t];
    }
    assert At(w, PASS) == At(s, PASS) || PASS == u;
  }

  /** The slot of the running tunnel is taken, its handle is not. */
  lemma {:induction false} SlotlessBreaks(e: Env, s: State, x: Thread, c: AppliedConfig, grave: bool)
    returns (run: seq<Step>)
    requires s.handle.Some? && s.handle.value.net < s.next && !s.slot && !Held(s) && ThreadsOk(s) && x in s.pcs
    requires At(s, x).DownClean? && forall t :: t in s.pcs ==> !Building(s.pcs[t]) && (t != x ==> !Cleaning(s.pcs[t]))
    requires grave ==> NoTaker(s) || (Alive(s, s.handle.value.net) && (x == PASS || !At(s, USER).DownStart?))
    ensures Runs(e, s, run) && Broken(e, After(e, s, run))
    ensures grave ==> ClashFree(e, s, run)
  {
    if NoTaker(s) {
      SlotlessSettles(s);
      run := HandleIsLeft(e, s, c);
    } else {
      var u :| u in s.pcs && Taker(s.pcs[u]);
      if !grave {
        run := TakeThenBreak(e, s, u, c);
      } else {
        ThreadFine(s, x);
        ThreadFine(s, USER);
        var a;
        if x == PASS { a := PassStarts(e, s, c); } else { a := UserStarts(e, s, x, c); }
        var w := After(e, s, a);
        var b := if x == PASS then PASS else USER;
        Restarted(s, w, x, b, c);
        var d := FirstIsForgotten(e, w, b, u, c);
        ClashFreeThen(e, s, a, d);
        run := a + d;
      }
    }
  }

  lemma {:induction false} SlotlessSettles(s: State)
    requires ThreadsOk(s) && !Held(s) && NoTaker(s) && forall t :: t in s.pcs ==> !Building(s.pcs[t])
    ensures forall t :: t in s.pcs ==> CanSettle(s, s.pcs[t]) && ThreadOk(t, s.pcs[t])
  {
    forall t | t in s.pcs ensures CanSettle(s, s.pcs[t]) {
      assert ThreadOk(t, s.pcs[t]) && !Building(s.pcs[t]) && !Taker(s.pcs[t]);
      if t == PASS { assert At(s, PASS) == s.pcs[t]; }
    }
  }

  lemma {:induction false} Restarted(s: State, w: State, x: Thread, b: Thread, c: AppliedConfig)
    requires ThreadsOk(s) && !Held(s) && MayBuild(b) && forall t :: t in s.pcs ==> !Building(s.pcs[t])
    requires forall t :: At(w, t) == if t == b then UpConfigure(c) else if t == x then Idle else At(s, t)
    ensures ThreadsOk(w) && !Held(w) && forall t :: t in w.pcs && t != b ==> !Building(w.pcs[t])
  {
    forall t | t in w.pcs ensures ThreadOk(t, w.pcs[t]) && (t != b ==> !Building(w.pcs[t])) {
      assert At(w, t) == w.pcs[t];
      ThreadFine(s, t);
    }
  }

  lemma {:induction false} TakesForeignBreaks(e: Env, s: State, st: Step) returns (rest: seq<Step>)
    requires Inv(e, s) && Enabled(s, st) && TakesForeign(s, st)
    ensures Runs(e, Next(e, s, st), rest) && Broken(e, After(e, Next(e, s, st), rest))
    ensures Grave(e, s, st) ==> ClashFree(e, Next(e, s, st), rest)
  {
    var w, c := Next(e, s, st), st.cfg;
    if At(s, USER).UpHandle? || At(s, PASS).UpHandle? {
      var y := if At(s, USER).UpHandle? then USER else PASS;
      NothingBuilt(s, {y});
      StillVacant(e, s, st, {y});
      rest := HandleComesLate(e, w, y, c);
    } else {
      NothingBuilt(s, {});
      TakenOnce(e, s, st);
      rest := SlotlessBreaks(e, w, st.t, c, Grave(e, s, st));
    }
  }

  lemma {:induction false} TakenOnce(e: Env, s: State, st: Step)
    requires Inv(e, s) && Enabled(s, st) && TakesForeign(s, st) && s.handle.Some?
    requires forall t :: t in s.pcs ==> !Building(s.pcs[t])
    ensures var w := Next(e, s, st);
            && w.handle == s.handle && w.nets == s.nets && w.next == s.next && !w.slot && !Held(w) && ThreadsOk(w)
            && st.t in w.pcs && At(w, st.t).DownClean? && (NoTaker(s) ==> NoTaker(w))
            && At(w, USER).DownStart? == At(s, USER).DownStart?
            && forall t :: t in w.pcs ==> !Building(w.pcs[t]) && (t != st.t ==> !Cleaning(w.pcs[t]))
  {
    var w := Next(e, s, st);
    OneMoves(s, w, st.t, At(w, st.t));
    ThreadFine(s, st.t);
    assert !AnyCleaning(s);
    forall t | t in w.pcs && t != st.t ensures w.pcs[t] == s.pcs[t] && !Cleaning(w.pcs[t]) { }
  }

  /**
   Conversely every clash can go on to leave the tunnel out of step, and a grave one without
   any further clash.
   */
  lemma {:induction false} ClashBreaks(e: Env, s: State, st: Step) returns (run: seq<Step>)
    requires Inv(e, s) && Enabled(s, st) && Clash(s, st)
    ensures Runs(e, s, run) && run != [] && run[0] == st && Broken(e, After(e, s, run))
    ensures Grave(e, s, st) ==> ClashFree(e, Next(e, s, st), run[1..])
  {
    var rest;
    if StartsTwice(s, st) {
      rest := StartsTwiceBreaks(e, s, st);
    } else {
      rest := TakesForeignBreaks(e, s, st);
    }
    RunsCons(e, s, st, rest);
    run := [st] + rest;
    assert run[1..] == rest;
  }

  lemma {:induction false} PrefixCons(run: seq<Step>, rest: seq<Step>, m: nat)
    requires run != [] && m < |run| && run[1..][..m] <= rest
    ensures run[..m + 1] <= [run[0]] + rest
  {
    var bad := [run[0]] + rest;
    forall i | 0 <= i < m + 1 ensures run[..m + 1][i] == bad[i] {
      if i > 0 { assert run[..m + 1][i] == run[1..][..m][i - 1] == rest[i - 1]; }
    }
  }

  /** A run with a clash in it has a run with the same start that ends out of step. */
  lemma {:induction false} ClashingRunsBreak(e: Env, s: State, run: seq<Step>) returns (n: nat, bad: seq<Step>)
    requires EnvOk(e) && Inv(e, s) && Runs(e, s, run) && !ClashFree(e, s, run)
    ensures n < |run| && run[..n + 1] <= bad && Runs(e, s, bad) && Broken(e, After(e, s, bad))
    decreases |run|
  {
    if Clash(s, run[0]) {
      n := 0;
      bad := ClashBreaks(e, s, run[0]);
    } else {
      StepKeeps(e, s, run[0]);
      var m, rest := ClashingRunsBreak(e, Next(e, s, run[0]), run[1..]);
      n := m + 1;
      RunsCons(e, s, run[0], rest);
      bad := [run[0]] + rest;
      PrefixCons(run, rest, m + 1);
    }
  }

  /** A tunnel for `c` is up and no thread is at work. */
  ghost predicate Running(e: Env, s: State, c: AppliedConfig)
  {
    && s == State(Some(Handle(1, 0, c)), true, Some(e.keys(c)), map[0 := Net(true, Some(e.keys(c)), c)], s.pcs, 2)
    && s.pcs == map[USER := Idle]
  }

  lemma {:induction false} GetsUp(e: Env, c: AppliedConfig) returns (run: seq<Step>)
    ensures Inv(e, INIT) && ClashFree(e, INIT, run) && Running(e, After(e, INIT, run), c)
  {
    var a := UserAsks(e, INIT, c);
    var s1 := Put(INIT, USER, UpConfigure(c));
    var b := FinishUp(e, s1, USER, c);
    ClashFreeThen(e, INIT, a, b);
    run := a + b;
  }

  /** A pass that finds the net stack stopped restarts the tunnel; it has taken it down and not brought it up yet. */
  lemma {:induction false} RestartBegins(e: Env, s: State, c: AppliedConfig) returns (run: seq<Step>)
    requires Running(e, s, c)
    ensures ClashFree(e, s, run)
    ensures var w := After(e, s, run);
            && w.handle.None? && !w.slot && w.pcs == map[USER := Idle, PASS := DownClean(true, true)]
            && w.nets == map[0 := Net(false, Some(e.keys(c)), c)]
  {
    var go := Go(PASS, c, true);
    var s1 := Next(e, s, Crash(0));
    var s2 := Next(e, s1, Begin);
    var s3 := Next(e, s2, go);
    var s4 := Next(e, s3, go);
    ClashFreeCons(e, s4, go, []);
    ClashFreeCons(e, s3, go, [go] + []);
    ClashFreeCons(e, s2, go, [go] + ([go] + []));
    ClashFreeCons(e, s1, Begin, [go] + ([go] + ([go] + [])));
    ClashFreeCons(e, s, Crash(0), [Begin] + ([go] + ([go] + ([go] + []))));
    run := [Crash(0)] + ([Begin] + ([go] + ([go] + ([go] + []))));
  }

  /** Clashes do happen: the user asks for the tunnel while a restart is between its Down and its Up. */
  lemma {:induction false} ClashHappens(e: Env, c: AppliedConfig) returns (run: seq<Step>)
    requires EnvOk(e)
    ensures Runs(e, INIT, run) && Broken(e, After(e, INIT, run))
  {
    var a := GetsUp(e, c);
    var s1 := After(e, INIT, a);
    var b := RestartBegins(e, s1, c);
    ClashFreeThen(e, INIT, a, b);
    ClashFreeInSync(e, INIT, a + b);
    var s2 := After(e, s1, b);
    var s3 := Next(e, s2, Ask(USER, true));
    StepKeeps(e, s2, Ask(USER, true));
    assert Cleaning(s3.pcs[PASS]);
    var d := ClashBreaks(e, s3, Go(USER, c, true));
    RunsCons(e, s2, Ask(USER, true), d);
    RunsThen(e, INIT, a + b, [Ask(USER, true)] + d);
    run := a + b + ([Ask(USER, true)] + d);
  }

  // ---- a Down that does not last ----

  ghost predicate NoUp(run: seq<Step>) { Ask(USER, true) !in run }

  /** The pass is on its way to bring the tunnel up. */
  predicate ComesUp(pc: Pc) { pc.Deciding? || InUp(pc) || InDown(pc) }

  /** A Down of the user has taken everything: nothing is up and the user does not ask for it. */
  ghost predicate TakenDown(s: State)
  {
    s.handle.None? && !s.slot && !Held(s) && ThreadsOk(s) && !InUp(At(s, USER))
  }

  lemma {:induction false} StaysDownStep(e: Env, s: State, st: Step)
    requires TakenDown(s) && !ComesUp(At(s, PASS)) && Enabled(s, st) && st != Ask(USER, true)
    ensures TakenDown(Next(e, s, st)) && !ComesUp(At(Next(e, s, st), PASS))
  {
    match st
    case Ask(t, up) => OneMoves(s, Next(e, s, st), t, DownStart(false));
    case Begin =>
    case Go(t, c, ok) =>
      ThreadFine(s, t);
      OneMoves(s, Next(e, s, st), t, At(Next(e, s, st), t));
    case Crash(_) =>
  }

  /** If the pass is not on its way up, the tunnel stays down until the user asks for it. */
  lemma {:induction false} DownLasts(e: Env, s: State, run: seq<Step>)
    requires TakenDown(s) && !ComesUp(At(s, PASS)) && Runs(e, s, run) && NoUp(run)
    ensures After(e, s, run).handle.None? && !After(e, s, run).slot
    decreases |run|
  {
    if run != [] {
      assert run[0] in run && NoUp(run[1..]);
      StaysDownStep(e, s, run[0]);
      DownLasts(e, Next(e, s, run[0]), run[1..]);
    }
  }

  /** The steps the pass still has to take to bring the tunnel up. */
  function Distance(pc: Pc): nat
  {
    match pc
    case Deciding => 5
    case DownStart(_) => 4
    case DownSlot(_) => 3
    case DownClean(_, _) => 2
    case UpStart => 1
    case _ => 0
  }

  /** Only the pass moves, and it brings the tunnel up. */
  lemma {:induction false} PassBringsUp(e: Env, s: State, c: AppliedConfig) returns (run: seq<Step>)
    requires s.handle.None? && !s.slot && ComesUp(At(s, PASS)) && ThreadOk(PASS, At(s, PASS))
    ensures Runs(e, s, run) && NoUp(run)
    ensures var w := After(e, s, run);
            w.handle.Some? && At(w, PASS).Idle? && forall t :: t != PASS ==> At(w, t) == At(s, t)
    decreases Distance(At(s, PASS))
  {
    if Building(At(s, PASS)) {
      run := PassFinishes(e, s, c);
    } else {
      var go := Go(PASS, c, true);
      var rest := PassBringsUp(e, Next(e, s, go), c);
      RunsCons(e, s, go, rest);
      run := [go] + rest;
    }
  }

  lemma {:induction false} PassFinishes(e: Env, s: State, c: AppliedConfig) returns (run: seq<Step>)
    requires Building(At(s, PASS))
    ensures Runs(e, s, run) && NoUp(run) && After(e, s, run) == Built(e, s, PASS)
    decreases if At(s, PASS).UpConfigure? then 2 else if At(s, PASS).UpSlot? then 1 else 0
  {
    var go := Go(PASS, c, true);
    var w := Next(e, s, go);
    var rest := [];
    if !At(s, PASS).UpHandle? {
      rest := PassFinishes(e, w, c);
      assert Built(e, w, PASS).pcs == Built(e, s, PASS).pcs;
    }
    RunsCons(e, s, go, rest);
    run := [go] + rest;
  }

  /**
   A Down that has taken everything is undone in some run without the user asking, exactly if the
   pass was deciding, restarting or coming up at that moment.
   */
  lemma {:induction false} DownUndoneIff(e: Env, s: State, c: AppliedConfig)
    requires TakenDown(s)
    ensures (exists run :: Runs(e, s, run) && NoUp(run) && After(e, s, run).handle.Some?) <==> ComesUp(At(s, PASS))
  {
    if ComesUp(At(s, PASS)) {
      ThreadFine(s, PASS);
      var run := PassBringsUp(e, s, c);
    } else {
      forall run | Runs(e, s, run) && NoUp(run) ensures After(e, s, run).handle.None? {
        DownLasts(e, s, run);
      }
    }
  }

  /** The Down of the user or a directive, from its request to its end, with the pass at work in between. */
  ghost predicate Undone(e: Env, s: State, t: Thread, run: seq<Step>)
  {
    && t != PASS && Runs(e, s, [Ask(t, false)] + run) && NoUp(run)
    && var w := After(e, s, [Ask(t, false)] + run);
       w.handle.Some? && At(w, t).Idle? && At(w, PASS).Idle? && forall u :: u != t && u != PASS ==> At(w, u) == At(s, u)
  }

  /**
   A Down while the pass mutates ends that way in some run: the net stack is stopped, so the
   mutation fails.
   */
  lemma {:induction false} DownDuringMutation(e: Env, s: State, t: Thread, c: AppliedConfig) returns (run: seq<Step>)
    requires Inv(e, s) && At(s, PASS).Mutating? && t != PASS && At(s, t).Idle?
    ensures Undone(e, s, t, run)
  {
    var down, pass := Go(t, c, true), Go(PASS, c, true);
    var s1 := Next(e, s, Ask(t, false));
    var s2 := Next(e, s1, down);
    var s3 := Next(e, s2, pass);
    var s4 := Next(e, s3, down);
    var s5 := Next(e, s4, down);
    var rest := PassBringsUp(e, s5, c);
    RunsCons(e, s4, down, rest);
    RunsCons(e, s3, down, [down] + rest);
    RunsCons(e, s2, pass, [down] + ([down] + rest));
    RunsCons(e, s1, down, [pass] + ([down] + ([down] + rest)));
    run := [down] + ([pass] + ([down] + ([down] + rest)));
    RunsCons(e, s, Ask(t, false), run);
  }

  /** So does a Down while the pass is bringing the tunnel up: it finds nothing to take. */
  lemma {:induction false} DownDuringUp(e: Env, s: State, t: Thread, c: AppliedConfig) returns (run: seq<Step>)
    requires Inv(e, s) && (At(s, PASS).UpConfigure? || At(s, PASS).UpSlot?) && t != PASS && At(s, t).Idle?
    ensures Undone(e, s, t, run)
  {
    var down := Go(t, c, true);
    var s1 := Next(e, s, Ask(t, false));
    var s2 := Next(e, s1, down);
    var s3 := Next(e, s2, down);
    var s4 := Next(e, s3, down);
    var rest := PassBringsUp(e, s4, c);
    RunsCons(e, s3, down, rest);
    RunsCons(e, s2, down, [down] + rest);
    RunsCons(e, s1, down, [down] + ([down] + rest));
    run := [down] + ([down] + ([down] + rest));
    RunsCons(e, s, Ask(t, false), run);
  }

  /** From the start: a pass restarts a crashed tunnel, and a Down comes while it brings it up. */
  lemma {:induction false} DownUndoneByRestart(e: Env, c: AppliedConfig) returns (before: seq<Step>, run: seq<Step>)
    requires EnvOk(e)
    ensures ClashFree(e, INIT, before) && Undone(e, After(e, INIT, before), USER, run)
    ensures Runs(e, INIT, before + ([Ask(USER, false)] + run))
    ensures AtRest(After(e, INIT, before + ([Ask(USER, false)] + run)))
  {
    var a := GetsUp(e, c);
    var s1 := After(e, INIT, a);
    var b := RestartBegins(e, s1, c);
    var s2 := After(e, s1, b);
    var d := PassStarts(e, s2, c);
    var s3 := After(e, s2, d);
    ClashFreeThen(e, s1, b, d);
    ClashFreeThen(e, INIT, a, b + d);
    before := a + (b + d);
    ClashFreeInSync(e, INIT, before);
    run := DownDuringUp(e, s3, USER, c);
    RunsThen(e, INIT, before, [Ask(USER, false)] + run);
    RestOfTwo(s3, After(e, s3, [Ask(USER, false)] + run));
  }

  lemma {:induction false} RestOfTwo(s: State, w: State)
    requires (forall t :: t in s.pcs ==> t == USER || t == PASS) && At(w, USER).Idle? && At(w, PASS).Idle?
    requires forall t :: t != USER && t != PASS ==> At(w, t) == At(s, t)
    ensures AtRest(w)
  {
    forall t | t in w.pcs ensures w.pcs[t].Idle? { assert At(w, t) == w.pcs[t]; }
  }

  /** A pass that finds a resource delta holds the slot and mutates. */
  lemma {:induction false} MutationBegins(e: Env, s: State, c: AppliedConfig, d: AppliedConfig) returns (run: seq<Step>)
    requires Running(e, s, c) && e.delta(c, d) == ResourceDelta
    ensures ClashFree(e, s, run)
    ensures var w := After(e, s, run);
            At(w, PASS).Mutating? && w.pcs.Keys == {USER, PASS} && At(w, USER).Idle?
  {
    var go := Go(PASS, d, true);
    var s1 := Next(e, s, Begin);
    var s2 := Next(e, s1, go);
    var s3 := Next(e, s2, go);
    var rest := MutationGoesOn(e, s3, d);
    ClashFreeCons(e, s2, go, rest);
    ClashFreeCons(e, s1, go, [go] + rest);
    ClashFreeCons(e, s, Begin, [go] + ([go] + rest));
    run := [Begin] + ([go] + ([go] + rest));
  }

  lemma {:induction false} MutationGoesOn(e: Env, s: State, d: AppliedConfig) returns (run: seq<Step>)
    requires At(s, PASS).ApplyBuilding? && s.slot && s.handle == Some(At(s, PASS).h)
    ensures ClashFree(e, s, run) && At(After(e, s, run), PASS).Mutating?
    ensures After(e, s, run).pcs.Keys == s.pcs.Keys && forall t :: t != PASS ==> At(After(e, s, run), t) == At(s, t)
  {
    var go := Go(PASS, d, true);
    var s1 := Next(e, s, go);
    var s2 := Next(e, s1, go);
    ClashFreeCons(e, s2, go, []);
    ClashFreeCons(e, s1, go, [go] + []);
    ClashFreeCons(e, s, go, [go] + ([go] + []));
    run := [go] + ([go] + ([go] + []));
  }

  /** Such a change: the first resource is assigned to the device. */
  lemma {:induction false} FirstResourceIsDelta(identity: Identity, x: AppliedEntry)
    ensures ClassifyApplied(AppliedConfig(identity, []), AppliedConfig(identity, [x])) == ResourceDelta
  {
    var a, c := AppliedConfig(identity, []), AppliedConfig(identity, [x]);
    ViewsAgreeIff(a, c);
    assert |multiset(Map(a.entries, Blank))| != |multiset(Map(c.entries, Blank))|;
  }

  /** From the start: a pass applies a resource change, and a Down comes while it mutates. */
  lemma {:induction false} DownUndoneByMutation(e: Env, c: AppliedConfig, d: AppliedConfig)
    returns (before: seq<Step>, run: seq<Step>)
    requires EnvOk(e) && e.delta(c, d) == ResourceDelta
    ensures ClashFree(e, INIT, before) && Undone(e, After(e, INIT, before), USER, run)
    ensures Runs(e, INIT, before + ([Ask(USER, false)] + run))
    ensures AtRest(After(e, INIT, before + ([Ask(USER, false)] + run)))
  {
    var a := GetsUp(e, c);
    var s1 := After(e, INIT, a);
    var b := MutationBegins(e, s1, c, d);
    var s2 := After(e, s1, b);
    ClashFreeThen(e, INIT, a, b);
    before := a + b;
    ClashFreeInSync(e, INIT, before);
    run := DownDuringMutation(e, s2, USER, c);
    RunsThen(e, INIT, before, [Ask(USER, false)] + run);
    RestOfTwo(s2, After(e, s2, [Ask(USER, false)] + run));
  }

  /** A Down that finds no handle and takes the slot, or finds none, leaves such a state. */
  lemma {:induction false} DownTakesAll(e: Env, s: State, st: Step)
    requires Inv(e, s) && st.Go? && st.t == USER && At(s, USER).DownSlot? && Enabled(s, st) && s.handle.None?
    ensures TakenDown(Next(e, s, st))
  {
    ThreadFine(s, USER);
    OneMoves(s, Next(e, s, st), USER, At(Next(e, s, st), USER));
  }
}

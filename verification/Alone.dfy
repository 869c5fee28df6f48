/**
 A reconcile pass that nothing interrupts: it brings the tunnel to the configuration it reads, and restarts it
 only if it has to (`run_restart_decision` and what it calls, client/src/daemon.rs). The steps are those of module
 `Lifetime`.
 */
module Alone {
  import opened Common
  import opened Config
  import opened Classify
  import opened Lifetime

  /** No other thread is at work. */
  ghost predicate OnlyPass(s: State) { forall t :: t in s.pcs && t != PASS ==> s.pcs[t].Idle? }

  /** The pass goes on: it reads `c`, and everything works. */
  function OnStep(c: AppliedConfig): Step { Go(PASS, c, true) }

  /** Only steps of the pass that read `c` and work. */
  ghost predicate Ons(run: seq<Step>, c: AppliedConfig) { forall i :: 0 <= i < |run| ==> run[i] == OnStep(c) }

  function Rank(pc: Pc): nat
  {
    match pc
    case Idle => 0
    case UpHandle(_, _) => 1
    case UpSlot(_, _) => 2
    case UpConfigure(_) => 3
    case UpStart => 4
    case DownClean(_, _) => 5
    case DownSlot(_) => 6
    case DownStart(_) => 7
    case Finishing(_, _) => 8
    case Mutating(_, _) => 9
    case Locked(_, _) => 10
    case Locking(_, _) => 11
    case ApplyBuilding(_, _) => 12
    case ApplyReading => 13
    case MapBuilding(_, _) => 12
    case MapReading => 13
    case Deciding => 14
  }

  /** The pass is on its way to `c` without a restart, on net stack `n`. */
  predicate Hot(e: Env, s: State, c: AppliedConfig, n: nat)
  {
    && s.handle.Some? && s.slot && s.handle.value.net == n && Alive(s, n)
    && var h := s.handle.value;
       match At(s, PASS)
       case Idle => h.cfg == c
       case Deciding => e.delta(h.cfg, c) != Structural
       case MapReading => e.delta(h.cfg, c) == TransportOnly
       case MapBuilding(g, d) => g == h && d == c
       case ApplyReading => e.delta(h.cfg, c) == ResourceDelta
       case ApplyBuilding(g, d) => g == h && d == c
       case Locking(g, d) => g == h && d == c
       case Locked(g, d) => g == h && d == c
       case Mutating(g, d) => g == h && d == c
       case Finishing(g, d) => g == h && d == c
       case _ => false
  }

  /** The pass is on its way to `c` with a restart, away from net stack `n`. */
  predicate Cold(e: Env, s: State, c: AppliedConfig, n: nat)
  {
    && n < s.next
    && match At(s, PASS)
       case Idle => s.handle.Some? && s.slot && s.handle.value.cfg == c && s.handle.value.net != n
       case Deciding =>
         s.handle.Some? && (!Alive(s, s.handle.value.net) || e.delta(s.handle.value.cfg, c) == Structural)
       case MapReading => s.handle.Some? && e.delta(s.handle.value.cfg, c) != TransportOnly
       case MapBuilding(g, d) => s.handle == Some(g) && (d != c || !Alive(s, g.net))
       case DownStart(again) => again
       case DownSlot(again) => again && s.handle.None?
       case DownClean(_, again) => again && s.handle.None? && !s.slot
       case UpStart => s.handle.None? && !s.slot
       case UpConfigure(d) => d == c && s.handle.None?
       case UpSlot(d, m) => d == c && s.handle.None? && m != n
       case UpHandle(d, m) => d == c && s.handle.None? && s.slot && m != n
       case _ => false
  }

  ghost predicate Reaches(e: Env, s: State, c: AppliedConfig, n: nat, hot: bool)
  {
    OnlyPass(s) && if hot then Hot(e, s, c, n) else Cold(e, s, c, n)
  }

  /** The snapshots are unchanged only if the configuration is. */
  ghost predicate ExactEnv(e: Env) { EnvOk(e) && forall a, c :: e.delta(a, c) == NoChange ==> a == c }

  /** The classification of module `Classify` is such. */
  lemma {:induction false} ClassifyIsExact(ip: AddressOf)
    ensures ExactEnv(Env(c => RoutableKeys(ip, c), ClassifyApplied))
  {
    ClassifyOk(ip);
    forall a, c | ClassifyApplied(a, c) == NoChange ensures a == c { ClassificationExact(a, c); }
  }

  lemma {:induction false} NoneCleaning(s: State)
    requires OnlyPass(s) && !Cleaning(At(s, PASS))
    ensures !AnyCleaning(s)
  {
  }

  lemma {:induction false} UserIdle(s: State)
    requires OnlyPass(s)
    ensures At(s, USER).Idle?
  {
  }

  lemma {:induction false} NoClash(e: Env, s: State, c: AppliedConfig, n: nat, hot: bool)
    requires Reaches(e, s, c, n, hot) && !At(s, PASS).Idle?
    ensures Enabled(s, OnStep(c)) && !Clash(s, OnStep(c))
  {
    UserIdle(s);
    if !Cleaning(At(s, PASS)) { NoneCleaning(s); }
  }

  lemma {:induction false} HotStep(e: Env, s: State, c: AppliedConfig, n: nat)
    requires ExactEnv(e) && Hot(e, s, c, n) && !At(s, PASS).Idle? && Enabled(s, OnStep(c))
    ensures var w := Next(e, s, OnStep(c)); Hot(e, w, c, n) && Rank(At(w, PASS)) < Rank(At(s, PASS))
  {
  }

  lemma {:induction false} ColdStep(e: Env, s: State, c: AppliedConfig, n: nat)
    requires Cold(e, s, c, n) && !At(s, PASS).Idle? && Enabled(s, OnStep(c))
    ensures var w := Next(e, s, OnStep(c)); Cold(e, w, c, n) && Rank(At(w, PASS)) < Rank(At(s, PASS))
  {
  }

  lemma {:induction false} StillOnly(e: Env, s: State, c: AppliedConfig)
    requires OnlyPass(s) && !At(s, PASS).Idle? && Enabled(s, OnStep(c))
    ensures OnlyPass(Next(e, s, OnStep(c)))
  {
  }

  /** From wherever the pass is on its way, it arrives. */
  lemma {:induction false} Arrives(e: Env, s: State, c: AppliedConfig, n: nat, hot: bool) returns (run: seq<Step>)
    requires ExactEnv(e) && Inv(e, s) && Reaches(e, s, c, n, hot)
    ensures Ons(run, c) && ClashFree(e, s, run) && Arrived(e, After(e, s, run), c, n, hot)
    decreases Rank(At(s, PASS))
  {
    if At(s, PASS).Idle? {
      run := [];
      ClashFreeInSync(e, s, run);
    } else {
      NoClash(e, s, c, n, hot);
      StillOnly(e, s, c);
      if hot { HotStep(e, s, c, n); } else { ColdStep(e, s, c, n); }
      StepKeeps(e, s, OnStep(c));
      var rest := Arrives(e, Next(e, s, OnStep(c)), c, n, hot);
      ClashFreeCons(e, s, OnStep(c), rest);
      run := [OnStep(c)] + rest;
    }
  }

  /** At rest, in step, up with `c`; on the same net stack exactly if there was no restart. */
  ghost predicate Arrived(e: Env, s: State, c: AppliedConfig, n: nat, hot: bool)
  {
    && AtRest(s) && InSync(e, s) && s.handle.Some? && s.slot && s.handle.value.cfg == c
    && (s.handle.value.net == n <==> hot)
  }

  /**
   A pass over an up tunnel at rest that nothing interrupts, whatever it reads: the tunnel ends up in step with
   that configuration. The net stack, and with it every open flow, is kept exactly if it still ran and the
   change is not structural.
   */
  lemma {:induction false} PassApplies(e: Env, s: State, c: AppliedConfig) returns (run: seq<Step>)
    requires ExactEnv(e) && Inv(e, s) && AtRest(s) && s.handle.Some?
    ensures Ons(run, c) && ClashFree(e, s, [Begin] + run)
    ensures var n, cfg := s.handle.value.net, s.handle.value.cfg;
            Arrived(e, After(e, s, [Begin] + run), c, n, Alive(s, n) && e.delta(cfg, c) != Structural)
  {
    var n, cfg := s.handle.value.net, s.handle.value.cfg;
    var hot := Alive(s, n) && e.delta(cfg, c) != Structural;
    var w := Next(e, s, Begin);
    assert HandleOk(e, s) && n < s.next;
    StepKeeps(e, s, Begin);
    run := Arrives(e, w, c, n, hot);
    ClashFreeCons(e, s, Begin, run);
  }

  /**
   If the configuration moves on, or the net stack stops, between the building of a transport map and its
   publication, the pass restarts the tunnel with what it reads then.
   */
  lemma {:induction false} MovedOnRestarts(e: Env, s: State, c: AppliedConfig) returns (run: seq<Step>)
    requires ExactEnv(e) && Inv(e, s) && OnlyPass(s) && At(s, PASS).MapBuilding? && s.handle == Some(At(s, PASS).h)
    requires At(s, PASS).c != c || !Alive(s, At(s, PASS).h.net)
    ensures Ons(run, c) && ClashFree(e, s, run) && Arrived(e, After(e, s, run), c, At(s, PASS).h.net, false)
  {
    assert HandleOk(e, s);
    run := Arrives(e, s, c, At(s, PASS).h.net, false);
  }
}

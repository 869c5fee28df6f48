/**
 Retirement of cached relay connections (client/src/relay_pool.rs).

 Any number of connections and flows. Every atomic operation is a step of its own: the
 `fetch_add` of a guard, the `store` and `load` of `retire`, the `fetch_sub` and `load` of a
 guard's drop, each close. Guards are taken and `retire` runs under the pool lock. The age
 of a connection is left to chance: a usable cached connection may be handed out or evicted.
 */
module RelayRetire {
  import opened Common

  type ConnId = nat
  type FlowId = nat

  datatype Closer = ByRetirement | ByOther

  /**
   One connection. `active` is the counter; `open` are the flows holding a guard, `testing`
   the drops that took the counter to zero and have yet to load `retired`, and `closing` the
   drops that loaded true and have yet to close.
   */
  datatype Conn = Conn(
    active: int,
    retired: bool,
    cached: bool,
    closed: Option<Closer>,
    open: set<FlowId>,
    testing: set<FlowId>,
    closing: set<FlowId>)

  /** How far the `retire` call that holds the pool lock has come. */
  datatype RetireAt = ToStore | ToLoad | ToClose

  datatype State = State(conns: map<ConnId, Conn>, lock: Option<(ConnId, RetireAt)>)

  function Close(k: Conn, closer: Closer): Conn
  {
    if k.closed.None? then k.(closed := Some(closer)) else k
  }

  datatype Step =
    | Guard(c: ConnId, f: FlowId)
    | Dial(c: ConnId, f: FlowId, stale: Option<ConnId>)
    | Evict(c: ConnId)
    | RetireStore | RetireLoad | RetireClose
    | Sub(c: ConnId, f: FlowId)
    | DropLoad(c: ConnId, f: FlowId)
    | DropClose(c: ConnId, f: FlowId)
    | CloseCached(c: ConnId)
    | Lost(c: ConnId)

  ghost predicate NewFlow(s: State, f: FlowId)
  {
    forall c :: c in s.conns ==> f !in s.conns[c].open + s.conns[c].testing + s.conns[c].closing
  }

  ghost predicate Usable(s: State, c: ConnId)
  {
    c in s.conns && s.conns[c].cached && s.conns[c].closed.None?
  }

  ghost predicate Enabled(s: State, step: Step)
  {
    match step
    case Guard(c, f) => s.lock.None? && Usable(s, c) && NewFlow(s, f)
    case Dial(c, f, stale) =>
      && s.lock.None? && c !in s.conns && NewFlow(s, f)
      && (stale.Some? ==> stale.value in s.conns && s.conns[stale.value].cached)
    case Evict(c) => s.lock.None? && c in s.conns && s.conns[c].cached
    case RetireStore => s.lock.Some? && s.lock.value.0 in s.conns && s.lock.value.1 == ToStore
    case RetireLoad => s.lock.Some? && s.lock.value.0 in s.conns && s.lock.value.1 == ToLoad
    case RetireClose => s.lock.Some? && s.lock.value.0 in s.conns && s.lock.value.1 == ToClose
    case Sub(c, f) => c in s.conns && f in s.conns[c].open
    case DropLoad(c, f) => c in s.conns && f in s.conns[c].testing
    case DropClose(c, f) => c in s.conns && f in s.conns[c].closing
    case CloseCached(c) => s.lock.None? && c in s.conns && s.conns[c].cached
    case Lost(c) => c in s.conns
  }

  function Fresh(f: FlowId): Conn { Conn(1, false, true, None, {f}, {}, {}) }

  ghost function Uncache(s: State, c: ConnId): State
    requires c in s.conns
  {
    State(s.conns[c := s.conns[c].(cached := false)], Some((c, ToStore)))
  }

  ghost function Set(s: State, c: ConnId, k: Conn): State
  {
    s.(conns := s.conns[c := k])
  }

  ghost function Next(s: State, step: Step): State
    requires Enabled(s, step)
  {
    match step
    case Guard(c, f) =>
      var k := s.conns[c];
      Set(s, c, k.(active := k.active + 1, open := k.open + {f}))
    case Dial(c, f, stale) =>
      var s1 := if stale.Some? then Uncache(s, stale.value) else s;
      Set(s1, c, Fresh(f))
    case Evict(c) => Uncache(s, c)
    case RetireStore =>
      var c := s.lock.value.0;
      Set(s, c, s.conns[c].(retired := true)).(lock := Some((c, ToLoad)))
    case RetireLoad =>
      var c := s.lock.value.0;
      s.(lock := if s.conns[c].active == 0 then Some((c, ToClose)) else None)
    case RetireClose =>
      var c := s.lock.value.0;
      Set(s, c, Close(s.conns[c], ByRetirement)).(lock := None)
    case Sub(c, f) =>
      var k := s.conns[c];
      Set(s, c, k.(active := k.active - 1, open := k.open - {f},
                   testing := if k.active == 1 then k.testing + {f} else k.testing))
    case DropLoad(c, f) =>
      var k := s.conns[c];
      Set(s, c, k.(testing := k.testing - {f}, closing := if k.retired then k.closing + {f} else k.closing))
    case DropClose(c, f) =>
      var k := s.conns[c];
      Set(s, c, Close(k.(closing := k.closing - {f}), ByRetirement))
    case CloseCached(c) => Set(s, c, Close(s.conns[c].(cached := false), ByOther))
    case Lost(c) => Set(s, c, Close(s.conns[c], ByOther))
  }

  /** Where the lock holder stands, if it is retiring `c`. */
  ghost function At(s: State, c: ConnId): Option<RetireAt>
  {
    if s.lock.Some? && s.lock.value.0 == c then Some(s.lock.value.1) else None
  }

  /** The counter counts the guards, and a retired idle connection has someone left to close it. */
  ghost predicate ConnOk(k: Conn, at: Option<RetireAt>)
  {
    && k.active == |k.open|
    && (k.cached ==> !k.retired && at.None?)
    && (k.closing != {} ==> k.retired)
    && (at.Some? && at.value != ToStore ==> k.retired)
    && (k.closed == Some(ByRetirement) ==> k.retired)
    && (!k.cached ==> k.retired || at.Some? || k.closed.Some?)
    && (k.retired && k.active == 0 && k.closed.None? ==> at.Some? || k.testing != {} || k.closing != {})
  }

  ghost predicate Inv(s: State)
  {
    && (s.lock.Some? ==> s.lock.value.0 in s.conns)
    && forall c :: c in s.conns ==> ConnOk(s.conns[c], At(s, c))
  }

  /** The connections a step writes. */
  ghost function Touched(s: State, step: Step): set<ConnId>
  {
    match step
    case Guard(c, _) => {c}
    case Dial(c, _, stale) => if stale.Some? then {c, stale.value} else {c}
    case Evict(c) => {c}
    case Sub(c, _) => {c}
    case DropLoad(c, _) => {c}
    case DropClose(c, _) => {c}
    case CloseCached(c) => {c}
    case Lost(c) => {c}
    case _ => if s.lock.Some? then {s.lock.value.0} else {}
  }

  lemma {:induction false} Untouched(s: State, step: Step, c: ConnId)
    requires Enabled(s, step) && c !in Touched(s, step)
    ensures c in Next(s, step).conns <==> c in s.conns
    ensures c in s.conns ==> Next(s, step).conns[c] == s.conns[c]
    ensures At(Next(s, step), c) == At(s, c)
  {
  }

  lemma {:induction false} FlowStepOk(s: State, step: Step, c: ConnId)
    requires Inv(s) && Enabled(s, step) && c in Touched(s, step)
    requires step.Guard? || step.Dial?
    ensures c in Next(s, step).conns && ConnOk(Next(s, step).conns[c], At(Next(s, step), c))
  {
  }

  lemma {:induction false} CloseStepOk(s: State, step: Step, c: ConnId)
    requires Inv(s) && Enabled(s, step) && c in Touched(s, step)
    requires step.Evict? || step.CloseCached? || step.Lost?
    ensures c in Next(s, step).conns && ConnOk(Next(s, step).conns[c], At(Next(s, step), c))
  {
  }

  lemma {:induction false} RetireStepOk(s: State, step: Step, c: ConnId)
    requires Inv(s) && Enabled(s, step) && c in Touched(s, step)
    requires step.RetireStore? || step.RetireLoad? || step.RetireClose?
    ensures c in Next(s, step).conns && ConnOk(Next(s, step).conns[c], At(Next(s, step), c))
  {
  }

  lemma {:induction false} DropStepOk(s: State, step: Step, c: ConnId)
    requires Inv(s) && Enabled(s, step) && c in Touched(s, step)
    requires step.Sub? || step.DropLoad? || step.DropClose?
    ensures c in Next(s, step).conns && ConnOk(Next(s, step).conns[c], At(Next(s, step), c))
  {
  }

  lemma {:induction false} StepKeepsInv(s: State, step: Step)
    requires Inv(s) && Enabled(s, step)
    ensures Inv(Next(s, step))
  {
    var s' := Next(s, step);
    forall c | c in s'.conns ensures ConnOk(s'.conns[c], At(s', c)) {
      if c !in Touched(s, step) {
        Untouched(s, step, c);
      } else if step.Sub? || step.DropLoad? || step.DropClose? {
        DropStepOk(s, step, c);
      } else if step.RetireStore? || step.RetireLoad? || step.RetireClose? {
        RetireStepOk(s, step, c);
      } else if step.Guard? || step.Dial? {
        FlowStepOk(s, step, c);
      } else {
        CloseStepOk(s, step, c);
      }
    }
  }

  ghost predicate Runs(s: State, steps: seq<Step>)
    decreases |steps|
  {
    steps != [] ==> Enabled(s, steps[0]) && Runs(Next(s, steps[0]), steps[1..])
  }

  ghost function After(s: State, steps: seq<Step>): State
    requires Runs(s, steps)
    decreases |steps|
  {
    if steps == [] then s else After(Next(s, steps[0]), steps[1..])
  }

  lemma {:induction false} RunKeepsInv(s: State, steps: seq<Step>)
    requires Inv(s) && Runs(s, steps)
    ensures Inv(After(s, steps))
    decreases |steps|
  {
    if steps != [] {
      StepKeepsInv(s, steps[0]);
      RunKeepsInv(Next(s, steps[0]), steps[1..]);
    }
  }

  /**
   In every interleaving, a retired connection whose flows have all ended (each drop and the
   retire call having finished) is closed; and only retired ones are closed by retirement. One
   that is no longer cached is retired, being retired, or closed: none is forgotten open.
   */
  lemma {:induction false} RetiredIdleIsClosed(steps: seq<Step>, c: ConnId)
    requires Runs(State(map[], None), steps)
    ensures var s := After(State(map[], None), steps);
            c in s.conns ==>
              var k := s.conns[c];
              && (k.retired && k.open == k.testing == k.closing == {} && At(s, c).None? ==> k.closed.Some?)
              && (k.closed == Some(ByRetirement) ==> k.retired && !k.cached)
              && (!k.cached ==> k.retired || At(s, c).Some? || k.closed.Some?)
  {
    RunKeepsInv(State(map[], None), steps);
  }

  // ---- retirement and open flows ----

  /** This step is a retirement close that hits a connection still carrying a flow. */
  ghost predicate Cuts(s: State, step: Step)
  {
    && Enabled(s, step)
    && var c := match step
                case RetireClose => Some(s.lock.value.0)
                case DropClose(c, _) => Some(c)
                case _ => None;
       c.Some? && s.conns[c.value].closed.None? && s.conns[c.value].open != {}
  }

  /** A guard taken between another drop's decrement and the end of its test. */
  ghost predicate GuardInWindow(s: State, step: Step)
  {
    step.Guard? && step.c in s.conns && (s.conns[step.c].testing != {} || s.conns[step.c].closing != {})
  }

  ghost predicate NoGuardInWindow(s: State, steps: seq<Step>)
    requires Runs(s, steps)
    decreases |steps|
  {
    steps != [] ==> !GuardInWindow(s, steps[0]) && NoGuardInWindow(Next(s, steps[0]), steps[1..])
  }

  /** Whoever is about to test or close found the counter at zero and it still is. */
  ghost predicate ConnQuiet(k: Conn, at: Option<RetireAt>)
  {
    k.testing != {} || k.closing != {} || at == Some(ToClose) ==> k.active == 0
  }

  ghost predicate Quiet(s: State)
  {
    forall c :: c in s.conns ==> ConnQuiet(s.conns[c], At(s, c))
  }

  lemma {:induction false} ConnStepQuiet(s: State, step: Step, c: ConnId)
    requires Inv(s) && Quiet(s) && Enabled(s, step) && !GuardInWindow(s, step)
    requires c in Touched(s, step) && c in Next(s, step).conns
    ensures ConnQuiet(Next(s, step).conns[c], At(Next(s, step), c))
  {
    if c in s.conns { assert ConnOk(s.conns[c], At(s, c)) && ConnQuiet(s.conns[c], At(s, c)); }
  }

  lemma {:induction false} StepKeepsQuiet(s: State, step: Step)
    requires Inv(s) && Quiet(s) && Enabled(s, step) && !GuardInWindow(s, step)
    ensures Quiet(Next(s, step)) && !Cuts(s, step)
  {
    var s' := Next(s, step);
    forall c | c in s'.conns ensures ConnQuiet(s'.conns[c], At(s', c)) {
      if c in Touched(s, step) { ConnStepQuiet(s, step, c); } else { Untouched(s, step, c); }
    }
    forall c | c in s.conns ensures ConnOk(s.conns[c], At(s, c)) && ConnQuiet(s.conns[c], At(s, c)) {}
  }

  /** With decrement and test in one piece (no guard between them), retirement never cuts a flow. */
  lemma {:induction false} AtomicDropNeverCuts(s: State, steps: seq<Step>, step: Step)
    requires Inv(s) && Quiet(s) && Runs(s, steps) && NoGuardInWindow(s, steps)
    ensures !Cuts(After(s, steps), step)
    decreases |steps|
  {
    if steps == [] {
      if Enabled(s, step) && !GuardInWindow(s, step) { StepKeepsQuiet(s, step); }
    } else {
      StepKeepsQuiet(s, steps[0]);
      StepKeepsInv(s, steps[0]);
      AtomicDropNeverCuts(Next(s, steps[0]), steps[1..], step);
    }
  }

  /**
   The source decrements and tests in two operations. Whenever a guard is taken in between,
   on a connection still cached, there is a continuation in which retirement closes the
   connection under the new flow: evict it, and let the first drop finish.
   */
  lemma {:induction false} GuardInWindowCanCut(s: State, c: ConnId, first: FlowId, f: FlowId)
    requires Inv(s) && Enabled(s, Guard(c, f)) && first in s.conns[c].testing
    ensures var steps := [Guard(c, f)] + Eviction(c, first);
            Runs(s, steps) && Cuts(After(s, steps), DropClose(c, first))
  {
    GuardKeepsWindow(s, c, first, f);
    EvictCuts(Next(s, Guard(c, f)), c, first, f);
    RunsCons(s, Guard(c, f), Eviction(c, first));
  }

  /** Evicting the connection, and a drop that tests after it. */
  function Eviction(c: ConnId, first: FlowId): seq<Step> { [Evict(c), RetireStore, RetireLoad, DropLoad(c, first)] }

  lemma {:induction false} GuardKeepsWindow(s: State, c: ConnId, first: FlowId, f: FlowId)
    requires Inv(s) && Enabled(s, Guard(c, f)) && first in s.conns[c].testing
    ensures var t := Next(s, Guard(c, f));
            Inv(t) && t.lock.None? && Usable(t, c) && first in t.conns[c].testing && f in t.conns[c].open
  {
    assert ConnOk(s.conns[c], At(s, c));
    StepKeepsInv(s, Guard(c, f));
  }

  lemma {:induction false} EvictCuts(s: State, c: ConnId, first: FlowId, f: FlowId)
    requires Inv(s) && s.lock.None? && Usable(s, c) && first in s.conns[c].testing && f in s.conns[c].open
    ensures Runs(s, Eviction(c, first)) && Cuts(After(s, Eviction(c, first)), DropClose(c, first))
  {
    assert ConnOk(s.conns[c], At(s, c));
    var s2 := Next(s, Evict(c));
    var s3 := Next(s2, RetireStore);
    assert s3.conns[c] == s.conns[c].(cached := false, retired := true);
    var s4 := Next(s3, RetireLoad);
    var s5 := Next(s4, DropLoad(c, first));
    assert After(s5, []) == s5;
    RunsCons(s4, DropLoad(c, first), []);
    RunsCons(s3, RetireLoad, [DropLoad(c, first)]);
    RunsCons(s2, RetireStore, [RetireLoad, DropLoad(c, first)]);
    RunsCons(s, Evict(c), [RetireStore, RetireLoad, DropLoad(c, first)]);
  }

  lemma {:induction false} RunsCons(s: State, step: Step, rest: seq<Step>)
    requires Enabled(s, step) && Runs(Next(s, step), rest)
    ensures Runs(s, [step] + rest) && After(s, [step] + rest) == After(Next(s, step), rest)
  {
  }

  /** Such a state is reachable: dial with a first flow, and let that flow's drop decrement. */
  lemma {:induction false} GuardInWindowHappens()
    ensures var steps := [Dial(0, 0, None), Sub(0, 0)];
            && Runs(State(map[], None), steps)
            && GuardInWindow(After(State(map[], None), steps), Guard(0, 1))
            && Enabled(After(State(map[], None), steps), Guard(0, 1))
  {
  }
}

/**
 Connector revocation: the shared set of blocked connectors, close passes that reset the flows
 a blocked connector carries, and flows still choosing a connector
 (`set_blocked_connectors`, `close_revoked_connector_flows`, client/src/daemon.rs;
 `close_connector_flows`, `relay_tcp_to_quic_ctl`, client/src/net_stack.rs).

 `Open` re-checks the blocked set and records the connector in one step; `Check` and `Record`
 are its two halves, to show what the one step is needed for.
 */
module Revoke {
  type Conn = string
  type Id = nat

  datatype Phase =
    | Selecting(candidates: seq<Conn>)
    | Opening(conn: Conn, rest: seq<Conn>)
    | Checked(via: Conn)
    | Carried(via: Conn)
    | Ended

  datatype Flow = Flow(phase: Phase, terminated: bool)

  /** `passes`: close passes that read the blocked set and have not run yet. `covered`: see `Apply`. */
  datatype State = State(blocked: set<Conn>, flows: map<Id, Flow>, passes: map<Id, set<Conn>>, covered: set<Conn>)

  datatype Step =
    | SetBlocked(conns: set<Conn>)
    | ReadBlocked(pass: Id)
    | ClosePass(pass: Id)
    | Accept(id: Id, candidates: seq<Conn>)
    | Try(id: Id)
    | Fail(id: Id)
    | Open(id: Id)
    | Check(id: Id)
    | Record(id: Id)
    | End(id: Id)

  predicate LiveOn(f: Flow, c: Conn) { f.phase == Carried(c) && !f.terminated }

  predicate Hit(f: Flow, conns: set<Conn>) { f.phase.Carried? && !f.terminated && f.phase.via in conns }

  function CloseFlow(f: Flow, conns: set<Conn>): Flow { if Hit(f, conns) then f.(terminated := true) else f }

  function Hits(flows: map<Id, Flow>, conns: set<Conn>): set<Id> { set i | i in flows && Hit(flows[i], conns) }

  function CloseAll(flows: map<Id, Flow>, conns: set<Conn>): map<Id, Flow>
  {
    map i | i in flows :: CloseFlow(flows[i], conns)
  }

  predicate Enabled(s: State, step: Step)
  {
    match step
    case SetBlocked(_) => true
    case ReadBlocked(p) => p !in s.passes
    case ClosePass(p) => p in s.passes
    case Accept(i, _) => i !in s.flows
    case Try(i) => i in s.flows && s.flows[i].phase.Selecting?
    case Fail(i) => i in s.flows && s.flows[i].phase.Opening?
    case Open(i) => i in s.flows && s.flows[i].phase.Opening?
    case Check(i) => i in s.flows && s.flows[i].phase.Opening?
    case Record(i) => i in s.flows && s.flows[i].phase.Checked?
    case End(i) => i in s.flows
  }

  function SetPhase(s: State, i: Id, p: Phase): State
    requires i in s.flows
  {
    s.(flows := s.flows[i := s.flows[i].(phase := p)])
  }

  /**
   A step. `covered` are the connectors a close pass has covered and that stayed blocked since:
   a pass covers what it read and is still blocked, a new blocked set keeps what it contains.
   */
  function Apply(s: State, step: Step): State
    requires Enabled(s, step)
  {
    match step
    case SetBlocked(conns) => s.(blocked := conns, covered := s.covered * conns)
    case ReadBlocked(p) => s.(passes := s.passes[p := s.blocked])
    case ClosePass(p) =>
      s.(flows := CloseAll(s.flows, s.passes[p]), passes := s.passes - {p},
         covered := s.covered + s.passes[p] * s.blocked)
    case Accept(i, cs) => s.(flows := s.flows[i := Flow(Selecting(cs), false)])
    case Try(i) =>
      var cs := s.flows[i].phase.candidates;
      if cs == [] then SetPhase(s, i, Ended)
      else if cs[0] in s.blocked then SetPhase(s, i, Selecting(cs[1..]))
      else SetPhase(s, i, Opening(cs[0], cs[1..]))
    case Fail(i) => SetPhase(s, i, Selecting(s.flows[i].phase.rest))
    case Open(i) =>
      if s.flows[i].phase.conn in s.blocked then SetPhase(s, i, Selecting(s.flows[i].phase.rest))
      else SetPhase(s, i, Carried(s.flows[i].phase.conn))
    case Check(i) =>
      if s.flows[i].phase.conn in s.blocked then SetPhase(s, i, Selecting(s.flows[i].phase.rest))
      else SetPhase(s, i, Checked(s.flows[i].phase.conn))
    case Record(i) => SetPhase(s, i, Carried(s.flows[i].phase.via))
    case End(i) => SetPhase(s, i, Ended)
  }

  const INIT := State({}, map[], map[], {})

  ghost predicate Runs(s: State, steps: seq<Step>)
    decreases |steps|
  {
    steps == [] || (Enabled(s, steps[0]) && Runs(Apply(s, steps[0]), steps[1..]))
  }

  ghost function After(s: State, steps: seq<Step>): State
    requires Runs(s, steps)
    decreases |steps|
  {
    if steps == [] then s else After(Apply(s, steps[0]), steps[1..])
  }

  /** No live flow is carried by a covered connector. */
  ghost predicate Safe(s: State) { forall i, c :: i in s.flows && c in s.covered ==> !LiveOn(s.flows[i], c) }

  /** A flow between re-check and recording on one of the connectors. */
  ghost predicate InWindow(s: State, conns: set<Conn>)
  {
    exists i :: i in s.flows && s.flows[i].phase.Checked? && s.flows[i].phase.via in conns
  }

  predicate FlowOk(f: Flow, covered: set<Conn>)
  {
    && (f.phase.Carried? && f.phase.via in covered ==> f.terminated)
    && (f.phase.Checked? ==> f.phase.via !in covered)
  }

  ghost predicate Inv(s: State)
  {
    s.covered <= s.blocked && forall i :: i in s.flows ==> FlowOk(s.flows[i], s.covered)
  }

  /**
   The step is not a close pass that runs while a flow sits between re-check and recording on a
   connector it covers.
   */
  ghost predicate NoRace(s: State, step: Step)
  {
    step.ClosePass? && step.pass in s.passes ==> !InWindow(s, s.passes[step.pass] * s.blocked)
  }

  lemma {:induction false} StepKeeps(s: State, step: Step)
    requires Inv(s) && Enabled(s, step) && NoRace(s, step)
    ensures Inv(Apply(s, step))
  {
  }

  /** Every close pass of the run is free of the race. */
  ghost predicate Quiet(s: State, steps: seq<Step>)
    requires Runs(s, steps)
    decreases |steps|
  {
    steps == [] || (NoRace(s, steps[0]) && Quiet(Apply(s, steps[0]), steps[1..]))
  }

  lemma {:induction false} QuietRunsAreSafe(s: State, steps: seq<Step>)
    requires Inv(s) && Runs(s, steps) && Quiet(s, steps)
    ensures Inv(After(s, steps)) && Safe(After(s, steps))
    decreases |steps|
  {
    if steps != [] {
      StepKeeps(s, steps[0]);
      QuietRunsAreSafe(Apply(s, steps[0]), steps[1..]);
    }
  }

  ghost predicate NobodyChecked(s: State) { forall i :: i in s.flows ==> !s.flows[i].phase.Checked? }

  lemma {:induction false} AtomicIsQuiet(s: State, steps: seq<Step>)
    requires NobodyChecked(s) && Runs(s, steps) && forall i :: 0 <= i < |steps| ==> !steps[i].Check?
    ensures Quiet(s, steps)
    decreases |steps|
  {
    if steps != [] {
      assert !steps[0].Check?;
      AtomicIsQuiet(Apply(s, steps[0]), steps[1..]);
    }
  }

  /**
   With re-check and recording in one step, in every run: once a close pass covering a
   connector has run, and for as long as it stays blocked, no live flow is carried by it.
   */
  lemma {:induction false} CoveredCarriesNothing(steps: seq<Step>)
    requires Runs(INIT, steps) && forall i :: 0 <= i < |steps| ==> !steps[i].Check?
    ensures Safe(After(INIT, steps)) && After(INIT, steps).covered <= After(INIT, steps).blocked
  {
    AtomicIsQuiet(INIT, steps);
    QuietRunsAreSafe(INIT, steps);
  }

  /**
   In two steps the race is real: from any state where a pass runs while a flow sits in the window,
   recording breaks the promise.
   */
  lemma {:induction false} RaceBreaks(s: State, pass: Id, i: Id)
    requires pass in s.passes && i in s.flows && s.flows[i].phase.Checked? && !s.flows[i].terminated
    requires s.flows[i].phase.via in s.passes[pass] * s.blocked
    ensures Runs(s, [ClosePass(pass), Record(i)]) && !Safe(After(s, [ClosePass(pass), Record(i)]))
  {
    var c := s.flows[i].phase.via;
    var s1 := Apply(s, ClosePass(pass));
    assert s1.flows[i] == s.flows[i];
    var s2 := Apply(s1, Record(i));
    RunsCons(s1, Record(i), []);
    RunsCons(s, ClosePass(pass), [Record(i)]);
    assert [Record(i)] + [] == [Record(i)] && [ClosePass(pass)] + [Record(i)] == [ClosePass(pass), Record(i)];
    assert After(s2, []) == s2;
    assert LiveOn(s2.flows[i], c) && c in s2.covered;
  }

  /** A flow without a connector was not told to end. */
  ghost predicate Startable(s: State)
  {
    forall i :: i in s.flows && Choosing(s.flows[i].phase) ==> !s.flows[i].terminated
  }

  predicate Choosing(p: Phase) { p.Selecting? || p.Opening? || p.Checked? }

  /** Conversely every run with the race can be continued, from the pass on, to break the promise. */
  lemma {:induction false} RacyRunsBreak(s: State, steps: seq<Step>) returns (n: nat, i: Id)
    requires Startable(s) && Runs(s, steps) && !Quiet(s, steps)
    ensures n < |steps| && Runs(s, steps[..n] + [steps[n], Record(i)])
            && !Safe(After(s, steps[..n] + [steps[n], Record(i)]))
    decreases |steps|
  {
    if !NoRace(s, steps[0]) {
      n := 0;
      i :| i in s.flows && s.flows[i].phase.Checked? && s.flows[i].phase.via in s.passes[steps[0].pass] * s.blocked;
      RaceBreaks(s, steps[0].pass, i);
      assert steps[..0] + [steps[0], Record(i)] == [ClosePass(steps[0].pass), Record(i)];
    } else {
      var m;
      m, i := RacyRunsBreak(Apply(s, steps[0]), steps[1..]);
      n := m + 1;
      RunsCons(s, steps[0], steps[1..][..m] + [steps[1..][m], Record(i)]);
      assert [steps[0]] + (steps[1..][..m] + [steps[1..][m], Record(i)]) == steps[..n] + [steps[n], Record(i)];
    }
  }

  /** Such a state is reachable. */
  lemma {:induction false} RaceHappens(c: Conn)
    ensures var steps := [Accept(0, [c]), Try(0), Check(0), SetBlocked({c}), ReadBlocked(0), ClosePass(0), Record(0)];
            Runs(INIT, steps) && !Safe(After(INIT, steps))
  {
    var s1 := Apply(INIT, Accept(0, [c]));
    var s2 := Apply(s1, Try(0));
    var s3 := Apply(s2, Check(0));
    var s4 := Apply(s3, SetBlocked({c}));
    var s5 := Apply(s4, ReadBlocked(0));
    RaceBreaks(s5, 0, 0);
    RunsCons(s4, ReadBlocked(0), [ClosePass(0), Record(0)]);
    RunsCons(s3, SetBlocked({c}), [ReadBlocked(0), ClosePass(0), Record(0)]);
    RunsCons(s2, Check(0), [SetBlocked({c}), ReadBlocked(0), ClosePass(0), Record(0)]);
    RunsCons(s1, Try(0), [Check(0), SetBlocked({c}), ReadBlocked(0), ClosePass(0), Record(0)]);
    RunsCons(INIT, Accept(0, [c]), [Try(0), Check(0), SetBlocked({c}), ReadBlocked(0), ClosePass(0), Record(0)]);
  }

  lemma {:induction false} RunsCons(s: State, step: Step, rest: seq<Step>)
    requires Enabled(s, step) && Runs(Apply(s, step), rest)
    ensures Runs(s, [step] + rest) && After(s, [step] + rest) == After(Apply(s, step), rest)
  {
  }

  // ---- unblocked connectors carry ----

  /** The steps in which a flow goes through its candidates; those in `works` open when asked, the others fail. */
  function Trying(i: Id, blocked: set<Conn>, works: set<Conn>, candidates: seq<Conn>): seq<Step>
    decreases |candidates|
  {
    if candidates == [] then [Try(i)]
    else if candidates[0] in blocked then [Try(i)] + Trying(i, blocked, works, candidates[1..])
    else if candidates[0] in works then [Try(i), Open(i)]
    else [Try(i)] + ([Fail(i)] + Trying(i, blocked, works, candidates[1..]))
  }

  /** The flow is carried by the first candidate that is not blocked and works; it ends if there is none. */
  ghost predicate Chooses(blocked: set<Conn>, works: set<Conn>, candidates: seq<Conn>, p: Phase)
  {
    match p
    case Carried(c) =>
      exists n :: 0 <= n < |candidates| && candidates[n] == c && c in works - blocked
                  && forall m :: 0 <= m < n ==> candidates[m] !in works - blocked
    case Ended => forall c :: c in candidates ==> c !in works - blocked
    case _ => false
  }

  lemma {:induction false} ChoosesLater(blocked: set<Conn>, works: set<Conn>, candidates: seq<Conn>, p: Phase)
    requires candidates != [] && candidates[0] !in works - blocked && Chooses(blocked, works, candidates[1..], p)
    ensures Chooses(blocked, works, candidates, p)
  {
    if p.Carried? {
      var n :| 0 <= n < |candidates[1..]| && candidates[1..][n] == p.via
               && forall m :: 0 <= m < n ==> candidates[1..][m] !in works - blocked;
      assert candidates[n + 1] == p.via && forall m :: 0 < m < n + 1 ==> candidates[m] == candidates[1..][m - 1];
    } else {
      assert candidates == [candidates[0]] + candidates[1..];
    }
  }

  /**
   From any state a flow that goes through its candidates ends up carried by the first that is not blocked
   and works; a blocked or failing one costs it nothing but the attempt.
   */
  lemma {:induction false} UnblockedCarries(s: State, i: Id, works: set<Conn>)
    requires i in s.flows && s.flows[i].phase.Selecting?
    ensures var cs := s.flows[i].phase.candidates;
            var steps := Trying(i, s.blocked, works, cs);
            && Runs(s, steps) && i in After(s, steps).flows
            && After(s, steps).flows[i].terminated == s.flows[i].terminated
            && Chooses(s.blocked, works, cs, After(s, steps).flows[i].phase)
    decreases |s.flows[i].phase.candidates|, 0
  {
    var cs := s.flows[i].phase.candidates;
    var s1 := Apply(s, Try(i));
    assert After(s1, []) == s1;
    if cs == [] {
      RunsCons(s, Try(i), []);
      assert [Try(i)] + [] == [Try(i)];
    } else if cs[0] in s.blocked {
      UnblockedCarries(s1, i, works);
      RunsCons(s, Try(i), Trying(i, s.blocked, works, cs[1..]));
      ChoosesLater(s.blocked, works, cs, After(s, Trying(i, s.blocked, works, cs)).flows[i].phase);
    } else if cs[0] in works {
      var s2 := Apply(s1, Open(i));
      assert After(s2, []) == s2;
      RunsCons(s1, Open(i), []);
      assert [Open(i)] + [] == [Open(i)] && [Try(i)] + [Open(i)] == [Try(i), Open(i)];
      RunsCons(s, Try(i), [Open(i)]);
      assert s2.flows[i].phase == Carried(cs[0]);
    } else {
      FailedGoesOn(s1, i, works, Fail(i));
      RunsCons(s, Try(i), [Fail(i)] + Trying(i, s.blocked, works, cs[1..]));
      ChoosesLater(s.blocked, works, cs, After(s, Trying(i, s.blocked, works, cs)).flows[i].phase);
    }
  }

  /**
   A flow whose connector fails while it opens, or turns out blocked once it is open, goes on with the
   candidates after it.
   */
  lemma {:induction false} FailedGoesOn(s: State, i: Id, works: set<Conn>, step: Step)
    requires i in s.flows && s.flows[i].phase.Opening?
    requires step == Fail(i) || (step == Open(i) && s.flows[i].phase.conn in s.blocked)
    ensures var rest := s.flows[i].phase.rest;
            var steps := [step] + Trying(i, s.blocked, works, rest);
            && Runs(s, steps) && i in After(s, steps).flows
            && After(s, steps).flows[i].terminated == s.flows[i].terminated
            && Chooses(s.blocked, works, rest, After(s, steps).flows[i].phase)
    decreases |s.flows[i].phase.rest|, 1
  {
    UnblockedCarries(Apply(s, step), i, works);
    RunsCons(s, step, Trying(i, s.blocked, works, s.flows[i].phase.rest));
  }

  /** Closing again what is covered resets nothing. */
  lemma {:induction false} ClosingAgainResetsNothing(s: State, conns: set<Conn>)
    requires Safe(s) && conns <= s.covered
    ensures Hits(s.flows, conns) == {} && CloseAll(s.flows, conns) == s.flows
  {
  }

  /** Right after a close, the same close resets nothing, whatever is blocked. */
  lemma {:induction false} CloseIsIdempotent(flows: map<Id, Flow>, conns: set<Conn>)
    ensures Hits(CloseAll(flows, conns), conns) == {}
            && CloseAll(CloseAll(flows, conns), conns) == CloseAll(flows, conns)
  {
  }
}

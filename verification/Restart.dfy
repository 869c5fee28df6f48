/**
 The tunnel restart coordinator (`register_restart_request` and `run_restart_worker`,
 client/src/daemon.rs; state in client/src/runtime.rs).

 Any number of callers and workers, interleaved. The steps are the critical sections under
 the coordinator's lock, the end of a pass, and each answer sent. A panicking pass ends like
 a failing one. Requests are the queued senders, distinct objects, so queues are sets and a
 worker may answer its waiters in any order.
 */
module Restart {
  import opened Common

  type Request = nat
  type WorkerId = nat

  datatype Worker =
    | Ready                                              // about to take the queue
    | Executing(pass: nat, batch: set<Request>)          // the restart operation runs
    | Ended(pass: nat, batch: set<Request>, ok: bool)    // it returned; if ok, answering its batch
    | Failing(pass: nat, waiters: set<Request>)          // gave up the coordinator, publishing errors
    | Done                                               // found the queue empty

  datatype Answer = Answer(ok: bool, pass: nat)

  datatype Place = Queued | With(w: WorkerId) | Answered

  /**
   History of a request: passes started when it was queued, whether a pass was then still
   unresolved, the passes whose errors had been seen, and where the request is now.
   */
  datatype Entry = Entry(started: nat, busy: bool, errors: set<nat>, place: Place)

  /**
   The coordinator (`running`, `pending`), its workers and what they have sent. The last
   four fields are history: no step's effect on the first four depends on them.
   */
  datatype State = State(
    running: bool,
    pending: set<Request>,
    workers: map<WorkerId, Worker>,
    answers: map<Request, Answer>,
    started: nat,
    owner: Option<WorkerId>,
    failed: set<nat>,
    entries: map<Request, Entry>)

  const INIT := State(false, {}, map[], map[], 0, None, {}, map[])

  datatype Step =
    | Register(r: Request, w: WorkerId)
    | Take(w: WorkerId)
    | Finish(w: WorkerId, ok: bool)
    | AnswerOk(w: WorkerId, r: Request)
    | GiveUp(w: WorkerId)
    | AnswerErr(w: WorkerId, r: Request)

  /** A pass that has not succeeded and has not given up the coordinator yet. */
  predicate Unresolved(k: Worker) { k.Executing? || (k.Ended? && !k.ok) }

  /** At the top of its loop: new, or with every waiter of a successful pass answered. */
  predicate AtQueue(k: Worker) { k.Ready? || (k.Ended? && k.ok && k.batch == {}) }

  ghost predicate Busy(s: State)
  {
    exists w :: w in s.workers && Unresolved(s.workers[w])
  }

  ghost predicate Enabled(s: State, step: Step)
  {
    match step
    case Register(r, w) => r !in s.entries && w !in s.workers
    case Take(w) => w in s.workers && AtQueue(s.workers[w])
    case Finish(w, ok) => w in s.workers && s.workers[w].Executing?
    case AnswerOk(w, r) => w in s.workers && s.workers[w].Ended? && s.workers[w].ok && r in s.workers[w].batch
    case GiveUp(w) => w in s.workers && s.workers[w].Ended? && !s.workers[w].ok
    case AnswerErr(w, r) => w in s.workers && s.workers[w].Failing? && r in s.workers[w].waiters
  }

  ghost function Move(entries: map<Request, Entry>, rs: set<Request>, p: Place): map<Request, Entry>
  {
    map r | r in entries :: if r in rs then entries[r].(place := p) else entries[r]
  }

  ghost function Next(s: State, step: Step): State
    requires Enabled(s, step)
  {
    match step
    case Register(r, w) =>
      s.(pending := s.pending + {r},
         running := true,
         workers := if s.running then s.workers else s.workers[w := Ready],
         owner := if s.running then s.owner else Some(w),
         entries := s.entries[r := Entry(s.started, Busy(s), s.failed, Queued)])
    case Take(w) =>
      if s.pending == {} then
        s.(running := false, workers := s.workers[w := Done], owner := None)
      else
        s.(pending := {},
           workers := s.workers[w := Executing(s.started + 1, s.pending)],
           started := s.started + 1,
           entries := Move(s.entries, s.pending, With(w)))
    case Finish(w, ok) =>
      s.(workers := s.workers[w := Ended(s.workers[w].pass, s.workers[w].batch, ok)])
    case AnswerOk(w, r) =>
      var k := s.workers[w];
      s.(answers := s.answers[r := Answer(true, k.pass)],
         workers := s.workers[w := k.(batch := k.batch - {r})],
         entries := Move(s.entries, {r}, Answered))
    case GiveUp(w) =>
      var k := s.workers[w];
      s.(running := false,
         pending := {},
         workers := s.workers[w := Failing(k.pass, k.batch + s.pending)],
         owner := None,
         entries := Move(s.entries, s.pending, With(w)))
    case AnswerErr(w, r) =>
      var k := s.workers[w];
      s.(answers := s.answers[r := Answer(false, k.pass)],
         failed := s.failed + {k.pass},
         workers := s.workers[w := k.(waiters := k.waiters - {r})],
         entries := Move(s.entries, {r}, Answered))
  }

  // ---- invariants ----

  function Held(k: Worker): set<Request>
  {
    match k
    case Ready => {}
    case Executing(_, b) => b
    case Ended(_, b, _) => b
    case Failing(_, q) => q
    case Done => {}
  }

  predicate Owner(k: Worker) { k.Ready? || k.Executing? || k.Ended? }

  /** The owner is the one worker that drains the queue, and it exists while `running`. */
  ghost predicate OwnerInv(s: State)
  {
    && (s.running <==> s.owner.Some?)
    && (s.owner.Some? ==> s.owner.value in s.workers)
    && (!s.running ==> s.pending == {})
    && forall w :: w in s.workers ==> (Owner(s.workers[w]) <==> s.owner == Some(w))
  }

  ghost predicate OwnerUnresolved(s: State)
  {
    s.owner.Some? && s.owner.value in s.workers && Unresolved(s.workers[s.owner.value])
  }

  predicate WorkerOk(k: Worker, started: nat)
  {
    match k
    case Executing(p, b) => p == started && b != {}
    case Ended(p, _, _) => p == started
    case Failing(p, _) => p <= started
    case _ => true
  }

  ghost predicate WorkersInv(s: State)
  {
    && (forall w :: w in s.workers ==> WorkerOk(s.workers[w], s.started))
    && (forall w :: w in s.workers && s.workers[w].Failing? && OwnerUnresolved(s) ==> s.workers[w].pass != s.started)
  }

  /** The queue, the workers' hands and the answers hold what the history says they hold. */
  ghost predicate PlaceInv(s: State)
  {
    && (forall r :: r in s.pending ==> r in s.entries && s.entries[r].place == Queued)
    && (forall r :: r in s.answers ==> r in s.entries && s.entries[r].place == Answered)
    && (forall w, r :: w in s.workers && r in Held(s.workers[w]) ==> r in s.entries && s.entries[r].place == With(w))
  }

  /** Which passes may fail a request that was queued as `e` says. */
  predicate MayFail(e: Entry, pass: nat) { pass == e.started + 1 || (pass == e.started && e.busy) }

  predicate HeldOk(k: Worker, e: Entry)
  {
    match k
    case Executing(p, _) => p == e.started + 1
    case Ended(p, _, _) => p == e.started + 1
    case Failing(p, _) => MayFail(e, p)
    case _ => true
  }

  predicate AnswerOfEntry(a: Answer, e: Entry)
  {
    if a.ok then a.pass == e.started + 1 else MayFail(e, a.pass)
  }

  /** Where a request is, and which pass answers it. */
  ghost predicate RequestOk(s: State, r: Request)
    requires r in s.entries
  {
    var e := s.entries[r];
    match e.place
    case Queued => r in s.pending && e.started == s.started && (OwnerUnresolved(s) ==> e.busy)
    case With(w) => w in s.workers && r in Held(s.workers[w]) && HeldOk(s.workers[w], e)
    case Answered => r in s.answers && AnswerOfEntry(s.answers[r], e)
  }

  /** Errors are published only after their pass gave up the coordinator. */
  ghost predicate ErrorInv(s: State)
  {
    && (forall e :: e in s.failed ==> e <= s.started)
    && (OwnerUnresolved(s) ==> s.started !in s.failed)
    && (forall r :: r in s.answers && !s.answers[r].ok ==> s.answers[r].pass in s.failed)
    && (forall r, e :: r in s.entries && e in s.entries[r].errors ==>
          e <= s.entries[r].started && (e == s.entries[r].started ==> !s.entries[r].busy))
  }

  ghost predicate Inv(s: State)
  {
    Shape(s) && PlaceInv(s) && RequestsInv(s)
  }

  ghost predicate Shape(s: State)
  {
    OwnerInv(s) && WorkersInv(s) && ErrorInv(s)
  }

  ghost predicate RequestsInv(s: State)
  {
    forall r :: r in s.entries ==> RequestOk(s, r)
  }

  lemma {:induction false} BusyIsOwner(s: State)
    requires OwnerInv(s)
    ensures Busy(s) <==> OwnerUnresolved(s)
  {
  }

  lemma {:induction false} RegisterKeeps(s: State, r: Request, w: WorkerId)
    requires Inv(s) && Enabled(s, Register(r, w))
    ensures Inv(Next(s, Register(r, w)))
  {
    var s' := Next(s, Register(r, w));
    BusyIsOwner(s);
    assert OwnerUnresolved(s') == OwnerUnresolved(s);
    forall q | q in s'.entries ensures RequestOk(s', q) {
      if q != r { assert RequestOk(s, q); }
    }
  }

  lemma {:induction false} TakeKeepsShape(s: State, w: WorkerId)
    requires Inv(s) && Enabled(s, Take(w))
    ensures Shape(Next(s, Take(w)))
  {
  }

  lemma {:induction false} TakeKeepsPlaces(s: State, w: WorkerId)
    requires Inv(s) && Enabled(s, Take(w))
    ensures PlaceInv(Next(s, Take(w)))
  {
  }

  lemma {:induction false} TakeKeepsRequests(s: State, w: WorkerId)
    requires Inv(s) && Enabled(s, Take(w))
    ensures RequestsInv(Next(s, Take(w)))
  {
  }

  lemma {:induction false} FinishKeeps(s: State, w: WorkerId, ok: bool)
    requires Inv(s) && Enabled(s, Finish(w, ok))
    ensures Inv(Next(s, Finish(w, ok)))
  {
    var s' := Next(s, Finish(w, ok));
    forall q | q in s'.entries ensures RequestOk(s', q) { assert RequestOk(s, q); }
  }

  /** Answering `r` takes it out of the hands of `w` and nothing else. */
  lemma {:induction false} AnswerKeepsPlaces(s: State, s': State, w: WorkerId, r: Request)
    requires PlaceInv(s) && w in s.workers && r in Held(s.workers[w])
    requires s'.pending == s.pending && s'.answers.Keys == s.answers.Keys + {r}
    requires s'.entries == Move(s.entries, {r}, Answered)
    requires s'.workers.Keys == s.workers.Keys && Held(s'.workers[w]) == Held(s.workers[w]) - {r}
    requires forall v :: v in s.workers && v != w ==> s'.workers[v] == s.workers[v]
    ensures PlaceInv(s')
  {
    assert s.entries[r].place == With(w);
  }

  lemma {:induction false} AnswerOkKeepsShape(s: State, w: WorkerId, r: Request)
    requires Inv(s) && Enabled(s, AnswerOk(w, r))
    ensures Shape(Next(s, AnswerOk(w, r)))
  {
  }

  lemma {:induction false} AnswerOkKeepsPlaces(s: State, w: WorkerId, r: Request)
    requires Inv(s) && Enabled(s, AnswerOk(w, r))
    ensures PlaceInv(Next(s, AnswerOk(w, r)))
  {
    AnswerKeepsPlaces(s, Next(s, AnswerOk(w, r)), w, r);
  }

  lemma {:induction false} AnswerOkKeepsRequests(s: State, w: WorkerId, r: Request)
    requires Inv(s) && Enabled(s, AnswerOk(w, r))
    ensures RequestsInv(Next(s, AnswerOk(w, r)))
  {
  }

  lemma {:induction false} GiveUpKeepsShape(s: State, w: WorkerId)
    requires Inv(s) && Enabled(s, GiveUp(w))
    ensures Shape(Next(s, GiveUp(w)))
  {
  }

  lemma {:induction false} GiveUpKeepsPlaces(s: State, w: WorkerId)
    requires Inv(s) && Enabled(s, GiveUp(w))
    ensures PlaceInv(Next(s, GiveUp(w)))
  {
  }

  lemma {:induction false} GiveUpKeepsRequests(s: State, w: WorkerId)
    requires Inv(s) && Enabled(s, GiveUp(w))
    ensures RequestsInv(Next(s, GiveUp(w)))
  {
  }

  lemma {:induction false} AnswerErrKeepsShape(s: State, w: WorkerId, r: Request)
    requires Inv(s) && Enabled(s, AnswerErr(w, r))
    ensures Shape(Next(s, AnswerErr(w, r)))
  {
    assert RequestOk(s, r);
  }

  lemma {:induction false} AnswerErrKeepsPlaces(s: State, w: WorkerId, r: Request)
    requires Inv(s) && Enabled(s, AnswerErr(w, r))
    ensures PlaceInv(Next(s, AnswerErr(w, r)))
  {
    AnswerKeepsPlaces(s, Next(s, AnswerErr(w, r)), w, r);
  }

  lemma {:induction false} AnswerErrKeepsRequests(s: State, w: WorkerId, r: Request)
    requires Inv(s) && Enabled(s, AnswerErr(w, r))
    ensures RequestsInv(Next(s, AnswerErr(w, r)))
  {
    var s' := Next(s, AnswerErr(w, r));
    assert OwnerUnresolved(s') ==> OwnerUnresolved(s) || AnswerErr(w, r).Take?;
    forall q | q in s'.entries ensures RequestOk(s', q) { assert RequestOk(s, q); }
  }

  lemma {:induction false} StepKeepsInv(s: State, step: Step)
    requires Inv(s) && Enabled(s, step)
    ensures Inv(Next(s, step))
  {
    match step {
      case Register(r, w) => RegisterKeeps(s, r, w);
      case Take(w) => TakeKeepsShape(s, w); TakeKeepsPlaces(s, w); TakeKeepsRequests(s, w);
      case Finish(w, ok) => FinishKeeps(s, w, ok);
      case AnswerOk(w, r) => AnswerOkKeepsShape(s, w, r); AnswerOkKeepsPlaces(s, w, r); AnswerOkKeepsRequests(s, w, r);
      case GiveUp(w) => GiveUpKeepsShape(s, w); GiveUpKeepsPlaces(s, w); GiveUpKeepsRequests(s, w);
      case AnswerErr(w, r) => AnswerErrKeepsShape(s, w, r); AnswerErrKeepsPlaces(s, w, r);
        AnswerErrKeepsRequests(s, w, r);
    }
  }

  ghost predicate Runs(s: State, steps: seq<Step>)
    decreases |steps|
  {
    steps != [] ==> Enabled(s, steps[0]) && Runs(Next(s, steps[0]), steps[1..])
  }

  ghost function After(s: State, steps: seq<Step>): State
    requires Runs(s, steps)
    decreases |steps|
  {
    if steps == [] then s else After(Next(s, steps[0]), steps[1..])
  }

  lemma {:induction false} RunKeepsInv(s: State, steps: seq<Step>)
    requires Inv(s) && Runs(s, steps)
    ensures Inv(After(s, steps))
    decreases |steps|
  {
    if steps != [] {
      StepKeepsInv(s, steps[0]);
      RunKeepsInv(Next(s, steps[0]), steps[1..]);
    }
  }

  // ---- what every interleaving guarantees ----

  ghost predicate InHands(s: State, r: Request)
  {
    exists w :: w in s.workers && r in Held(s.workers[w])
  }

  lemma {:induction false} PlaceDecides(s: State, r: Request)
    requires PlaceInv(s) && r in s.entries && RequestOk(s, r)
    ensures r in s.pending <==> s.entries[r].place == Queued
    ensures r in s.answers <==> s.entries[r].place == Answered
    ensures InHands(s, r) <==> s.entries[r].place.With?
  {
  }

  lemma {:induction false} PlaceIsOne(s: State, r: Request, v: WorkerId, w: WorkerId)
    requires Inv(s) && r in s.entries
    ensures r in s.pending || InHands(s, r) || r in s.answers
    ensures !(r in s.pending && InHands(s, r)) && !(r in s.pending && r in s.answers)
            && !(InHands(s, r) && r in s.answers)
    ensures v in s.workers && w in s.workers && r in Held(s.workers[v]) && r in Held(s.workers[w]) ==> v == w
  {
    PlaceDecides(s, r);
  }

  /** A request is queued, or in one worker's hands, or answered: exactly one of them, and one worker. */
  lemma {:induction false} ExactlyOnePlace(steps: seq<Step>, r: Request, v: WorkerId, w: WorkerId)
    requires Runs(INIT, steps) && r in After(INIT, steps).entries
    ensures var s := After(INIT, steps);
            && (r in s.pending || InHands(s, r) || r in s.answers)
            && !(r in s.pending && InHands(s, r)) && !(r in s.pending && r in s.answers)
                && !(InHands(s, r) && r in s.answers)
            && (v in s.workers && w in s.workers && r in Held(s.workers[v]) && r in Held(s.workers[w]) ==> v == w)
  {
    RunKeepsInv(INIT, steps);
    PlaceIsOne(After(INIT, steps), r, v, w);
  }

  lemma {:induction false} AnswerStays(s: State, step: Step, r: Request)
    requires PlaceInv(s) && Enabled(s, step) && r in s.answers
    ensures r in Next(s, step).answers && Next(s, step).answers[r] == s.answers[r]
  {
  }

  /** An answer, once sent, is the only one the request ever gets. */
  lemma {:induction false} AnswersAreFinal(s: State, steps: seq<Step>, r: Request)
    requires Inv(s) && Runs(s, steps) && r in s.answers
    ensures r in After(s, steps).answers && After(s, steps).answers[r] == s.answers[r]
    decreases |steps|
  {
    if steps != [] {
      StepKeepsInv(s, steps[0]);
      AnswerStays(s, steps[0], r);
      AnswersAreFinal(Next(s, steps[0]), steps[1..], r);
    }
  }

  /**
   Ok comes only from a pass that started after the request was queued, the next one. An
   error comes from that pass too, or from the one still unresolved when it was queued.
   */
  lemma {:induction false} AnsweredByThisOrNextPass(steps: seq<Step>, r: Request)
    requires Runs(INIT, steps) && r in After(INIT, steps).answers
    ensures var s := After(INIT, steps);
            && r in s.entries
            && var e, a := s.entries[r], s.answers[r];
               && (a.ok ==> a.pass == e.started + 1)
               && (!a.ok ==> a.pass == e.started + 1 || (a.pass == e.started && e.busy))
  {
    RunKeepsInv(INIT, steps);
    assert RequestOk(After(INIT, steps), r);
  }

  // ---- an answer tells how its pass ended ----

  lemma {:induction false} RunsMore(s: State, steps: seq<Step>, step: Step)
    requires Runs(s, steps + [step])
    ensures Runs(s, steps) && Enabled(After(s, steps), step) && After(s, steps + [step]) == Next(After(s, steps), step)
    decreases |steps|
  {
    if steps == [] {
      assert steps + [step] == [step];
      assert After(Next(s, step), []) == Next(s, step);
    } else {
      assert (steps + [step])[1..] == steps[1..] + [step];
      RunsMore(Next(s, steps[0]), steps[1..], step);
    }
  }

  /** The i-th step of the run ends the pass `pass`, with the result `ok`; it was run for `batch`. */
  ghost predicate EndsAt(steps: seq<Step>, i: nat, pass: nat, ok: bool, batch: set<Request>)
  {
    && i < |steps| && steps[i].Finish? && steps[i].ok == ok && Runs(INIT, steps[..i])
    && var s := After(INIT, steps[..i]);
       steps[i].w in s.workers && s.workers[steps[i].w] == Executing(pass, batch)
  }

  /** Pass `pass` ended in the run with the result `ok`, and was run for these requests among others. */
  ghost predicate EndedWith(steps: seq<Step>, pass: nat, ok: bool, rs: set<Request>)
  {
    exists i: nat, batch :: EndsAt(steps, i, pass, ok, batch) && rs <= batch
  }

  lemma {:induction false} StillEnded(steps: seq<Step>, step: Step, pass: nat, ok: bool, rs: set<Request>)
    requires EndedWith(steps, pass, ok, rs)
    ensures EndedWith(steps + [step], pass, ok, rs)
  {
    var i: nat, batch :| EndsAt(steps, i, pass, ok, batch) && rs <= batch;
    assert (steps + [step])[..i] == steps[..i];
    assert EndsAt(steps + [step], i, pass, ok, batch);
  }

  /** A worker that knows a result has it from the step that ended the pass. */
  ghost predicate WorkerTells(steps: seq<Step>, k: Worker)
  {
    match k
    case Ended(p, b, ok) => EndedWith(steps, p, ok, b)
    case Failing(p, _) => EndedWith(steps, p, false, {})
    case _ => true
  }

  ghost predicate AnswerTells(steps: seq<Step>, a: Answer, r: Request)
  {
    EndedWith(steps, a.pass, a.ok, if a.ok then {r} else {})
  }

  ghost predicate Truthful(steps: seq<Step>, s: State)
  {
    && (forall w :: w in s.workers ==> WorkerTells(steps, s.workers[w]))
    && (forall r :: r in s.answers ==> AnswerTells(steps, s.answers[r], r))
  }

  lemma {:induction false} Fewer(steps: seq<Step>, pass: nat, ok: bool, rs: set<Request>, qs: set<Request>)
    requires EndedWith(steps, pass, ok, rs) && qs <= rs
    ensures EndedWith(steps, pass, ok, qs)
  {
    var i: nat, batch :| EndsAt(steps, i, pass, ok, batch) && rs <= batch;
    assert qs <= batch;
  }

  lemma {:induction false} WorkerStillTells(steps: seq<Step>, step: Step, k: Worker)
    requires WorkerTells(steps, k)
    ensures WorkerTells(steps + [step], k)
  {
    match k
    case Ended(p, b, ok) => StillEnded(steps, step, p, ok, b);
    case Failing(p, _) => StillEnded(steps, step, p, false, {});
    case _ =>
  }

  /** The worker that steps; what it knows afterwards it knew before, or it has just ended its pass. */
  lemma {:induction false} StepTells(steps: seq<Step>, step: Step, s: State, w: WorkerId)
    requires Runs(INIT, steps) && s == After(INIT, steps) && Truthful(steps, s) && Enabled(s, step)
    requires w in Next(s, step).workers
    ensures WorkerTells(steps + [step], Next(s, step).workers[w])
  {
    var k := Next(s, step).workers[w];
    if w in s.workers {
      WorkerStillTells(steps, step, s.workers[w]);
      if k != s.workers[w] {
        match step {
          case Finish(_, ok) =>
            assert (steps + [step])[..|steps|] == steps;
            assert EndsAt(steps + [step], |steps|, k.pass, ok, k.batch);
          case AnswerOk(_, r) => Fewer(steps + [step], k.pass, true, s.workers[w].batch, k.batch);
          case GiveUp(_) => Fewer(steps + [step], k.pass, false, s.workers[w].batch, {});
          case _ =>
        }
      }
    }
  }

  lemma {:induction false} AnswerStepTells(steps: seq<Step>, step: Step, s: State, r: Request)
    requires Runs(INIT, steps) && s == After(INIT, steps) && Truthful(steps, s) && Enabled(s, step)
    requires r in Next(s, step).answers
    ensures AnswerTells(steps + [step], Next(s, step).answers[r], r)
  {
    if (step.AnswerOk? || step.AnswerErr?) && step.r == r {
      var k := s.workers[step.w];
      WorkerStillTells(steps, step, k);
      if step.AnswerOk? { Fewer(steps + [step], k.pass, true, k.batch, {r}); }
    } else {
      var a := s.answers[r];
      StillEnded(steps, step, a.pass, a.ok, if a.ok then {r} else {});
    }
  }

  lemma {:induction false} RunIsTruthful(steps: seq<Step>)
    requires Runs(INIT, steps)
    ensures Truthful(steps, After(INIT, steps))
    decreases |steps|
  {
    if steps != [] {
      var n := |steps| - 1;
      assert steps == steps[..n] + [steps[n]];
      RunsMore(INIT, steps[..n], steps[n]);
      RunIsTruthful(steps[..n]);
      var s := After(INIT, steps[..n]);
      forall w | w in Next(s, steps[n]).workers ensures WorkerTells(steps, Next(s, steps[n]).workers[w]) {
        StepTells(steps[..n], steps[n], s, w);
      }
      forall r | r in Next(s, steps[n]).answers ensures AnswerTells(steps, Next(s, steps[n]).answers[r], r) {
        AnswerStepTells(steps[..n], steps[n], s, r);
      }
    }
  }

  /**
   In every run an answer tells how the pass it names ended: some earlier step ended that pass with that
   result. A caller is told Ok only if the pass ran for its own request and succeeded, and an
   error only if the pass failed.
   */
  lemma {:induction false} AnswersAreTrue(steps: seq<Step>, r: Request) returns (i: nat, batch: set<Request>)
    requires Runs(INIT, steps) && r in After(INIT, steps).answers
    ensures var a := After(INIT, steps).answers[r];
            && i < |steps| && Runs(INIT, steps[..i]) && steps[i].Finish? && steps[i].ok == a.ok
            && steps[i].w in After(INIT, steps[..i]).workers
            && After(INIT, steps[..i]).workers[steps[i].w] == Executing(a.pass, batch)
            && (a.ok ==> r in batch)
  {
    RunIsTruthful(steps);
    var a := After(INIT, steps).answers[r];
    i, batch :| EndsAt(steps, i, a.pass, a.ok, batch) && (if a.ok then {r} else {}) <= batch;
  }

  /** At most one pass executes, although a failed worker may still be publishing errors. */
  lemma {:induction false} OnePassAtATime(steps: seq<Step>, v: WorkerId, w: WorkerId)
    requires Runs(INIT, steps)
    ensures var s := After(INIT, steps);
            v in s.workers && w in s.workers && s.workers[v].Executing? && Owner(s.workers[w]) ==> v == w
  {
    RunKeepsInv(INIT, steps);
  }

  /** A queued request always has a live worker that will come back for it. */
  lemma {:induction false} NoLostWakeUp(steps: seq<Step>)
    requires Runs(INIT, steps)
    ensures var s := After(INIT, steps);
            s.pending != {} ==> s.running && exists w :: w in s.workers && Owner(s.workers[w])
  {
    RunKeepsInv(INIT, steps);
    var s := After(INIT, steps);
    if s.pending != {} { assert s.owner.value in s.workers && Owner(s.workers[s.owner.value]); }
  }

  /** A request made after some caller has seen the error of pass `p` is answered by a later pass. */
  lemma {:induction false} FreshPassAfterError(before: seq<Step>, q: Request, r: Request, w: WorkerId, after: seq<Step>)
    requires Runs(INIT, before)
    requires var s := After(INIT, before);
             q in s.answers && !s.answers[q].ok && Enabled(s, Register(r, w)) && Runs(Next(s, Register(r, w)), after)
    ensures var s := After(INIT, before);
            var t := After(Next(s, Register(r, w)), after);
            r in t.answers ==> t.answers[r].pass > s.answers[q].pass
  {
    RunKeepsInv(INIT, before);
    var s := After(INIT, before);
    var s1 := Next(s, Register(r, w));
    StepKeepsInv(s, Register(r, w));
    assert s.answers[q].pass in s1.entries[r].errors;
    RunKeepsInv(s1, after);
    EntryIsFixed(s1, after, r);
    assert r in After(s1, after).answers ==> RequestOk(After(s1, after), r);
  }

  lemma {:induction false} EntryIsFixed(s: State, steps: seq<Step>, r: Request)
    requires Runs(s, steps) && r in s.entries
    ensures r in After(s, steps).entries
    ensures After(s, steps).entries[r] == s.entries[r].(place := After(s, steps).entries[r].place)
    decreases |steps|
  {
    if steps != [] { EntryIsFixed(Next(s, steps[0]), steps[1..], r); }
  }

  // ---- progress ----

  ghost function Unanswered(s: State): set<Request>
  {
    s.entries.Keys - s.answers.Keys
  }

  ghost function Rank(s: State): nat
  {
    if s.owner.None? || s.owner.value !in s.workers then 0
    else
      var k := s.workers[s.owner.value];
      if AtQueue(k) && s.pending != {} then 3
      else if k.Executing? then 2
      else 1
  }

  ghost function Work(s: State): nat
  {
    8 * |Unanswered(s)| + Rank(s)
  }

  /** Every step of a worker uses up work, so with finitely many requests the workers come to rest. */
  lemma {:induction false} WorkerStepsProgress(s: State, step: Step)
    requires Inv(s) && Enabled(s, step) && !step.Register?
    ensures Work(Next(s, step)) < Work(s)
  {
    if step.AnswerOk? || step.AnswerErr? {
      AnswerProgress(s, step);
    } else {
      assert Next(s, step).entries.Keys == s.entries.Keys;
      assert Unanswered(Next(s, step)) == Unanswered(s);
      RankDrops(s, step);
    }
  }

  lemma {:induction false} RankDrops(s: State, step: Step)
    requires OwnerInv(s) && WorkersInv(s) && Enabled(s, step) && (step.Take? || step.Finish? || step.GiveUp?)
    ensures Rank(Next(s, step)) < Rank(s)
  {
  }

  lemma {:induction false} AnswerProgress(s: State, step: Step)
    requires PlaceInv(s) && OwnerInv(s) && Enabled(s, step) && (step.AnswerOk? || step.AnswerErr?)
    ensures Work(Next(s, step)) < Work(s)
  {
    HeldIsUnanswered(s, step.w, step.r);
    AnswerKeys(s, step);
    OneLess(s, Next(s, step), step.r);
    if step.AnswerErr? { ErrorKeepsRank(s, step.w, step.r); } else { OkRank(s, step.w, step.r); }
  }

  lemma {:induction false} AnswerKeys(s: State, step: Step)
    requires Enabled(s, step) && (step.AnswerOk? || step.AnswerErr?)
    ensures Next(s, step).entries.Keys == s.entries.Keys
    ensures Next(s, step).answers.Keys == s.answers.Keys + {step.r}
  {
  }

  lemma {:induction false} HeldIsUnanswered(s: State, w: WorkerId, r: Request)
    requires PlaceInv(s) && w in s.workers && r in Held(s.workers[w])
    ensures r in s.entries && r !in s.answers
  {
  }

  lemma {:induction false} ErrorKeepsRank(s: State, w: WorkerId, r: Request)
    requires OwnerInv(s) && Enabled(s, AnswerErr(w, r))
    ensures Rank(Next(s, AnswerErr(w, r))) == Rank(s)
  {
  }

  lemma {:induction false} OkRank(s: State, w: WorkerId, r: Request)
    requires OwnerInv(s) && Enabled(s, AnswerOk(w, r))
    ensures Rank(s) >= 1 && Rank(Next(s, AnswerOk(w, r))) <= 3
  {
  }

  lemma {:induction false} OneLess(s: State, s': State, r: Request)
    requires r in s.entries && r !in s.answers
    requires s'.entries.Keys == s.entries.Keys && s'.answers.Keys == s.answers.Keys + {r}
    ensures |Unanswered(s')| == |Unanswered(s)| - 1
  {
    assert Unanswered(s') == Unanswered(s) - {r};
  }

  /** At rest, everyone has been answered. */
  lemma {:induction false} RestMeansAnswered(s: State, r: Request)
    requires Inv(s) && r in s.entries
    requires forall step: Step :: Enabled(s, step) ==> step.Register?
    ensures r in s.answers && !s.running
  {
    assert RequestOk(s, r);
    if s.running {
      OwnerCanStep(s, s.owner.value);
    }
    match s.entries[r].place {
      case Queued =>
      case With(w) => HolderCanStep(s, w, r);
      case Answered =>
    }
  }

  lemma {:induction false} OwnerCanStep(s: State, w: WorkerId)
    requires Inv(s) && w in s.workers && Owner(s.workers[w])
    ensures exists step: Step :: Enabled(s, step) && !step.Register?
  {
    var k := s.workers[w];
    if AtQueue(k) {
      assert Enabled(s, Take(w));
    } else if k.Executing? {
      assert Enabled(s, Finish(w, true));
    } else if !k.ok {
      assert Enabled(s, GiveUp(w));
    } else {
      var r :| r in k.batch;
      assert Enabled(s, AnswerOk(w, r));
    }
  }

  lemma {:induction false} HolderCanStep(s: State, w: WorkerId, r: Request)
    requires Inv(s) && w in s.workers && r in Held(s.workers[w])
    ensures exists step: Step :: Enabled(s, step) && !step.Register?
  {
    if s.workers[w].Failing? {
      assert Enabled(s, AnswerErr(w, r));
    } else {
      OwnerCanStep(s, w);
    }
  }
}

/**
 The tunnel while a reconcile pass, the user's Up and Down and the Downs of device directives
 interleave (`handle_up`, `handle_down`, `hot_apply_transport_map`, `hot_apply_resources`,
 `run_restart_decision`, `perform_tunnel_restart` and `react_to_device_directive`,
 client/src/daemon.rs).

 Threads are the user's requests, one at a time under `tunnel_intent_lock`, one reconcile pass at a
 time, and any number of directives, which take the tunnel down outside both. A step is what a
 thread does between two points where another can run. The handle and the slot are taken and set
 one after the other, so threads can meet in between. What a pass does to the stores while it holds
 the slot is in module `Tunnel`; here they are unknown (`None`) until it is done.
 */
module Lifetime {
  import opened Common
  import opened Config
  import opened Classify

  type Keys = set<ResourceKey>

  /** The keys a configuration serves, and how a change is classified. */
  datatype Env = Env(keys: AppliedConfig -> Keys, delta: (AppliedConfig, AppliedConfig) -> Delta)

  /** `TunHandle`: `id` is the identity `Arc::ptr_eq` compares, `net` the net stack it controls. */
  datatype Handle = Handle(id: nat, net: nat, cfg: AppliedConfig)

  /** A net stack: whether its task runs, the keys it listens for and the map it was given. */
  datatype Net = Net(alive: bool, listeners: Option<Keys>, published: AppliedConfig)

  datatype Pc =
    | Idle
    | Deciding                                       // the slot was taken
    | MapReading | MapBuilding(h: Handle, c: AppliedConfig)
    | ApplyReading | ApplyBuilding(h: Handle, c: AppliedConfig)
    | Locking(h: Handle, c: AppliedConfig)           // the map is built
    | Locked(h: Handle, c: AppliedConfig)            // holds the slot
    | Mutating(h: Handle, c: AppliedConfig)          // the handle was the same
    | Finishing(h: Handle, c: AppliedConfig)         // the net stack has done its part
    | DownStart(again: bool) | DownSlot(again: bool) | DownClean(took: bool, again: bool)
    | UpStart | UpConfigure(c: AppliedConfig) | UpSlot(c: AppliedConfig, net: nat)
    | UpHandle(c: AppliedConfig, net: nat)

  datatype State = State(
    handle: Option<Handle>,
    slot: bool,
    kernel: Option<Keys>,
    nets: map<nat, Net>,
    pcs: map<Thread, Pc>,
    next: nat)

  /** The user's requests, the passes; every other thread is a device directive. */
  type Thread = nat

  const USER: Thread := 0
  const PASS: Thread := 1

  /** `Go`: a thread goes on; `cfg` is what it reads, `ok` whether what can fail works. */
  datatype Step = Ask(t: Thread, up: bool) | Begin | Go(t: Thread, cfg: AppliedConfig, ok: bool) | Crash(net: nat)

  const INIT := State(None, false, Some({}), map[], map[], 0)

  function At(s: State, t: Thread): Pc { if t in s.pcs then s.pcs[t] else Idle }

  function Put(s: State, t: Thread, pc: Pc): State { s.(pcs := s.pcs[t := pc]) }

  predicate Holds(pc: Pc) { pc.Locked? || pc.Mutating? || pc.Finishing? }

  /** The pass holds the lock of the slot. */
  predicate Held(s: State) { Holds(At(s, PASS)) }

  predicate Alive(s: State, n: nat) { n in s.nets && s.nets[n].alive }

  function Aborted(nets: map<nat, Net>, n: nat): map<nat, Net>
  {
    if n in nets then nets[n := nets[n].(alive := false)] else nets
  }

  function Swapped(s: State, h: Handle, c: AppliedConfig): State
  {
    s.(handle := Some(Handle(s.next, h.net, c)), next := s.next + 1)
  }

  // ---- the steps ----

  function Down(s: State, t: Thread): State
    requires InDown(At(s, t))
  {
    match At(s, t)
    case DownStart(again) =>
      Put(s.(handle := None, nets := if s.handle.Some? then Aborted(s.nets, s.handle.value.net) else s.nets), t,
          DownSlot(again))
    case DownSlot(again) => Put(s.(slot := false), t, DownClean(s.slot, again))
    case DownClean(took, again) => Put(if took then s.(kernel := Some({})) else s, t, if again then UpStart else Idle)
  }

  function Up(e: Env, s: State, t: Thread, c: AppliedConfig, ok: bool): State
    requires InUp(At(s, t))
  {
    match At(s, t)
    case UpStart => Put(s, t, if s.slot || !ok then Idle else UpConfigure(c))
    case UpConfigure(d) =>
      if ok then
        Put(s.(kernel := Some(e.keys(d)), nets := s.nets[s.next := Net(true, Some(e.keys(d)), d)], next := s.next + 1),
            t, UpSlot(d, s.next))
      else Put(s.(kernel := None), t, Idle)
    case UpSlot(d, n) => Put(s.(slot := true), t, UpHandle(d, n))
    case UpHandle(d, n) => Put(s.(handle := Some(Handle(s.next, n, d)), next := s.next + 1), t, Idle)
  }

  /** `run_restart_decision`, with snapshots `c`; not `ok` if one is missing. */
  function Decide(e: Env, s: State, c: AppliedConfig, ok: bool): Pc
  {
    if s.handle.None? || !ok || !Alive(s, s.handle.value.net) then DownStart(true)
    else
      match e.delta(s.handle.value.cfg, c)
      case NoChange => Idle
      case TransportOnly => MapReading
      case ResourceDelta => ApplyReading
      case Structural => DownStart(true)
  }

  /** `hot_apply_transport_map` */
  function ApplyMap(e: Env, s: State, c: AppliedConfig, ok: bool): State
    requires At(s, PASS).MapReading? || At(s, PASS).MapBuilding?
  {
    match At(s, PASS)
    case MapReading =>
      if s.handle.None? then Put(s, PASS, Idle)
      else if !ok || e.delta(s.handle.value.cfg, c) != TransportOnly then Put(s, PASS, DownStart(true))
      else Put(s, PASS, MapBuilding(s.handle.value, c))
    case MapBuilding(h, d) =>
      if !ok || s.handle != Some(h) then Put(s, PASS, Idle)
      else if c != d || !Alive(s, h.net) then Put(s, PASS, DownStart(true))
      else Published(s)
  }

  /** The map the pass has built is published, and its configuration recorded. */
  function Published(s: State): State
    requires At(s, PASS).MapBuilding? && At(s, PASS).h.net in s.nets
  {
    var h, d := At(s, PASS).h, At(s, PASS).c;
    Swapped(Put(s.(nets := s.nets[h.net := s.nets[h.net].(published := d)]), PASS, Idle), h, d)
  }

  /** `hot_apply_resources` until it holds the slot */
  function ReadResources(e: Env, s: State, c: AppliedConfig, ok: bool): Pc
    requires At(s, PASS).ApplyReading? || At(s, PASS).ApplyBuilding? || At(s, PASS).Locking?
  {
    match At(s, PASS)
    case ApplyReading =>
      if s.handle.None? || !ok || e.delta(s.handle.value.cfg, c) != ResourceDelta then Idle
      else ApplyBuilding(s.handle.value, c)
    case ApplyBuilding(h, d) => if !s.slot || !ok then Idle else Locking(h, d)
    case Locking(h, d) => if !s.slot then Idle else Locked(h, d)
  }

  /** and from then on */
  function ApplyResources(e: Env, s: State, ok: bool): State
    requires Held(s)
  {
    match At(s, PASS)
    case Locked(h, d) =>
      if s.handle != Some(h) then Put(s, PASS, Idle)
      else
        var nets := if h.net in s.nets then s.nets[h.net := s.nets[h.net].(listeners := None)] else s.nets;
        Put(s.(kernel := None, nets := nets), PASS, Mutating(h, d))
    case Mutating(h, d) =>
      if !ok || !Alive(s, h.net) then Put(s, PASS, DownStart(true))
      else Put(s.(nets := s.nets[h.net := Net(true, Some(e.keys(d)), d)]), PASS, Finishing(h, d))
    case Finishing(h, d) =>
      if !ok then Put(s, PASS, DownStart(true))
      else if s.handle != Some(h) then Put(s.(kernel := Some(e.keys(d))), PASS, Idle)
      else Swapped(Put(s.(kernel := Some(e.keys(d))), PASS, Idle), h, d)
  }

  predicate InDown(pc: Pc) { pc.DownStart? || pc.DownSlot? || pc.DownClean? }

  predicate InUp(pc: Pc) { pc.UpStart? || pc.UpConfigure? || pc.UpSlot? || pc.UpHandle? }

  /** The steps that lock the slot wait while the pass holds it. */
  predicate Waits(pc: Pc) { pc.DownSlot? || pc.UpStart? || pc.UpSlot? }

  predicate Enabled(s: State, st: Step)
  {
    match st
    case Ask(t, up) => t != PASS && At(s, t).Idle? && (up ==> t == USER)
    case Begin => At(s, PASS).Idle?
    case Go(t, _, _) =>
      !At(s, t).Idle? && (t == PASS || InDown(At(s, t)) || InUp(At(s, t))) && (Held(s) ==> !Waits(At(s, t)))
    case Crash(n) => Alive(s, n)
  }

  /** The pass goes on outside `handle_down` and `handle_up`. */
  function PassOn(e: Env, s: State, c: AppliedConfig, ok: bool): State
    requires !At(s, PASS).Idle? && !InDown(At(s, PASS)) && !InUp(At(s, PASS))
  {
    if At(s, PASS).Deciding? then Put(s, PASS, Decide(e, s, c, ok))
    else if At(s, PASS).MapReading? || At(s, PASS).MapBuilding? then ApplyMap(e, s, c, ok)
    else if Held(s) then ApplyResources(e, s, ok)
    else Put(s, PASS, ReadResources(e, s, c, ok))
  }

  function Next(e: Env, s: State, st: Step): State
    requires Enabled(s, st)
  {
    match st
    case Ask(t, up) => Put(s, t, if up then UpStart else DownStart(false))
    case Begin => if s.slot then Put(s, PASS, Deciding) else s
    case Go(t, c, ok) =>
      if InDown(At(s, t)) then Down(s, t)
      else if InUp(At(s, t)) then Up(e, s, t, c, ok)
      else PassOn(e, s, c, ok)
    case Crash(n) => s.(nets := Aborted(s.nets, n))
  }

  // ---- runs ----

  predicate Runs(e: Env, s: State, run: seq<Step>)
    decreases |run|
  {
    run == [] || (Enabled(s, run[0]) && Runs(e, Next(e, s, run[0]), run[1..]))
  }

  function After(e: Env, s: State, run: seq<Step>): State
    requires Runs(e, s, run)
    decreases |run|
  {
    if run == [] then s else After(e, Next(e, s, run[0]), run[1..])
  }

  lemma {:induction false} RunsCons(e: Env, s: State, st: Step, rest: seq<Step>)
    requires Enabled(s, st) && Runs(e, Next(e, s, st), rest)
    ensures Runs(e, s, [st] + rest) && After(e, s, [st] + rest) == After(e, Next(e, s, st), rest)
  {
  }

  // ---- what holds in between ----

  /** The stores serve configuration `c` through net stack `n`, if that still runs. */
  ghost predicate Serves(e: Env, s: State, c: AppliedConfig, n: nat)
  {
    && n in s.nets && s.kernel == Some(e.keys(c))
    && (s.nets[n].alive ==> s.nets[n].listeners == Some(e.keys(c)) && s.nets[n].published == c)
  }

  /** No thread is at work. */
  ghost predicate AtRest(s: State) { forall t :: t in s.pcs ==> s.pcs[t].Idle? }

  /** What is promised at rest: the tunnel is up with everything in step, or down; no other net stack runs. */
  ghost predicate InSync(e: Env, s: State)
  {
    && (s.handle.Some? ==> s.slot && Serves(e, s, s.handle.value.cfg, s.handle.value.net))
    && (s.handle.None? ==> !s.slot)
    && forall n :: n in s.nets && s.nets[n].alive ==> s.handle.Some? && s.handle.value.net == n
  }

  predicate Building(pc: Pc) { pc.UpConfigure? || pc.UpSlot? || pc.UpHandle? }

  predicate Cleaning(pc: Pc) { pc.DownClean? && pc.took }

  /** The pass is between leaving the stores of the tunnel that is up and taking it down or recording what it did. */
  predicate Tending(pc: Pc) { pc.Mutating? || pc.Finishing? || pc.DownStart? }

  ghost predicate HandleOk(e: Env, s: State)
  {
    s.handle.Some? ==>
      var h := s.handle.value;
      && s.slot && h.id < s.next && h.net in s.nets && !Building(At(s, USER)) && !Building(At(s, PASS))
      && (Serves(e, s, h.cfg, h.net) || Tending(At(s, PASS)))
  }

  ghost predicate AnyWaiting(s: State) { exists t :: t in s.pcs && s.pcs[t].DownSlot? }

  ghost predicate AnyCleaning(s: State) { exists t :: t in s.pcs && Cleaning(s.pcs[t]) }

  /** A slot without a handle is being taken, or about to get its handle. */
  ghost predicate SlotOk(s: State)
  {
    s.handle.None? && s.slot ==> AnyWaiting(s) || At(s, USER).UpHandle? || At(s, PASS).UpHandle?
  }

  /** A thread that builds a tunnel is alone in it; only the user's and the pass do. */
  ghost predicate BuildOk(e: Env, s: State, pc: Pc, other: Pc)
  {
    Building(pc) ==>
      && s.handle.None? && !Building(other) && !AnyCleaning(s) && (s.slot <==> pc.UpHandle?)
      && (pc.UpConfigure? || Serves(e, s, pc.c, pc.net))
  }

  ghost predicate CleanOk(s: State) { AnyCleaning(s) ==> !s.slot && s.handle.None? }

  predicate Spawned(pc: Pc, n: nat) { (pc.UpSlot? || pc.UpHandle?) && pc.net == n }

  ghost predicate NetsOk(s: State)
  {
    forall n :: n in s.nets ==> n < s.next && (s.nets[n].alive ==> MayRun(s, n))
  }

  predicate MayRun(s: State, n: nat)
  {
    (s.handle.Some? && s.handle.value.net == n) || Spawned(At(s, USER), n) || Spawned(At(s, PASS), n)
  }

  /** A handle the pass has read: it is the current one, or never will be again. */
  predicate Known(s: State, h: Handle)
  {
    h.id < s.next && h.net in s.nets && (s.handle.Some? && s.handle.value.id == h.id ==> s.handle.value == h)
  }

  ghost predicate PassOk(e: Env, s: State)
  {
    match At(s, PASS)
    case MapBuilding(h, c) => Known(s, h) && e.delta(h.cfg, c) == TransportOnly
    case ApplyBuilding(h, c) => Known(s, h)
    case Locking(h, c) => Known(s, h)
    case Locked(h, c) => Known(s, h) && s.slot
    case Mutating(h, c) => Mine(s, h)
    case Finishing(h, c) =>
      Mine(s, h) && (Alive(s, h.net) ==> s.nets[h.net].listeners == Some(e.keys(c)) && s.nets[h.net].published == c)
    case _ => true
  }

  /** While the pass mutates, the tunnel is the one it read, or a Down has stopped that one and waits for the slot. */
  ghost predicate Mine(s: State, h: Handle)
  {
    s.slot && h.net in s.nets && (s.handle == Some(h) || Stopped(s, h))
  }

  ghost predicate Stopped(s: State, h: Handle)
  {
    s.handle.None? && !Alive(s, h.net) && AnyWaiting(s) && !Building(At(s, USER))
  }

  /** The pass takes the tunnel down only to bring it up again; directives only take it down. */
  predicate ThreadOk(t: Thread, pc: Pc)
  {
    if t == PASS then InDown(pc) ==> pc.again
    else (pc.Idle? || InDown(pc) || (t == USER && InUp(pc))) && (InDown(pc) ==> !pc.again)
  }

  ghost predicate ThreadsOk(s: State) { forall t :: t in s.pcs ==> ThreadOk(t, s.pcs[t]) }

  ghost predicate Inv(e: Env, s: State)
  {
    && HandleOk(e, s) && SlotOk(s) && NetsOk(s) && PassOk(e, s) && ThreadsOk(s) && CleanOk(s)
    && BuildOk(e, s, At(s, USER), At(s, PASS)) && BuildOk(e, s, At(s, PASS), At(s, USER))
  }

  // ---- the two places where threads can clash ----

  /** A second Up passes the check while one is on its way or a Down still has to clean up. */
  ghost predicate StartsTwice(s: State, st: Step)
  {
    && st.Go? && At(s, st.t).UpStart? && st.ok && !s.slot
    && (Building(At(s, USER)) || Building(At(s, PASS)) || AnyCleaning(s))
  }

  /** A Down takes the slot of a tunnel that came up after it looked for a handle. */
  ghost predicate TakesForeign(s: State, st: Step)
  {
    st.Go? && At(s, st.t).DownSlot? && s.slot && (s.handle.Some? || At(s, USER).UpHandle? || At(s, PASS).UpHandle?)
  }

  ghost predicate Clash(s: State, st: Step) { StartsTwice(s, st) || TakesForeign(s, st) }

  /** A transport-only change keeps the keys. */
  ghost predicate EnvOk(e: Env) { forall a, c :: e.delta(a, c) == TransportOnly ==> e.keys(a) == e.keys(c) }

  // ---- clash-free runs stay in step ----

  /** How moving one thread changes what holds of them all. */
  lemma {:induction false} OneMoves(s: State, w: State, t: Thread, pc: Pc)
    requires w.pcs == s.pcs[t := pc]
    ensures forall u :: At(w, u) == if u == t then pc else At(s, u)
    ensures AnyWaiting(s) && !At(s, t).DownSlot? ==> AnyWaiting(w)
    ensures pc.DownSlot? ==> AnyWaiting(w)
    ensures AnyCleaning(w) ==> Cleaning(pc) || AnyCleaning(s)
    ensures ThreadsOk(s) && ThreadOk(t, pc) ==> ThreadsOk(w)
  {
    if pc.DownSlot? { assert w.pcs[t].DownSlot?; }
    if AnyWaiting(s) && !At(s, t).DownSlot? {
      var u :| u in s.pcs && s.pcs[u].DownSlot?;
      assert w.pcs[u].DownSlot?;
    }
    if AnyCleaning(w) && !Cleaning(pc) {
      var u :| u in w.pcs && Cleaning(w.pcs[u]);
      assert Cleaning(s.pcs[u]);
    }
  }

  lemma {:induction false} AbortKeeps(e: Env, s: State, t: Thread)
    requires Inv(e, s) && At(s, t).DownStart?
    ensures Inv(e, Down(s, t))
  {
    OneMoves(s, Down(s, t), t, DownSlot(At(s, t).again));
  }

  lemma {:induction false} CleanKeeps(e: Env, s: State, t: Thread)
    requires Inv(e, s) && At(s, t).DownClean?
    ensures Inv(e, Down(s, t))
  {
    OneMoves(s, Down(s, t), t, if At(s, t).again then UpStart else Idle);
  }

  lemma {:induction false} TakeKeeps(e: Env, s: State, t: Thread)
    requires Inv(e, s) && At(s, t).DownSlot? && !Held(s)
    requires s.slot ==> s.handle.None? && !At(s, USER).UpHandle? && !At(s, PASS).UpHandle?
    ensures Inv(e, Down(s, t))
  {
    OneMoves(s, Down(s, t), t, DownClean(s.slot, At(s, t).again));
  }

  lemma {:induction false} StartKeeps(e: Env, s: State, t: Thread, c: AppliedConfig, ok: bool)
    requires Inv(e, s) && At(s, t).UpStart? && !Held(s) && !StartsTwice(s, Go(t, c, ok))
    ensures Inv(e, Up(e, s, t, c, ok))
  {
    OneMoves(s, Up(e, s, t, c, ok), t, At(Up(e, s, t, c, ok), t));
  }

  lemma {:induction false} ConfigureKeeps(e: Env, s: State, t: Thread, c: AppliedConfig, ok: bool)
    requires Inv(e, s) && At(s, t).UpConfigure?
    ensures Inv(e, Up(e, s, t, c, ok))
  {
    OneMoves(s, Up(e, s, t, c, ok), t, At(Up(e, s, t, c, ok), t));
  }

  lemma {:induction false} FillKeeps(e: Env, s: State, t: Thread, c: AppliedConfig, ok: bool)
    requires Inv(e, s) && (At(s, t).UpSlot? || At(s, t).UpHandle?)
    ensures Inv(e, Up(e, s, t, c, ok))
  {
    OneMoves(s, Up(e, s, t, c, ok), t, At(Up(e, s, t, c, ok), t));
  }

  lemma {:induction false} DecideKeeps(e: Env, s: State, c: AppliedConfig, ok: bool)
    requires Inv(e, s) && At(s, PASS).Deciding?
    ensures Inv(e, Put(s, PASS, Decide(e, s, c, ok)))
  {
    OneMoves(s, Put(s, PASS, Decide(e, s, c, ok)), PASS, Decide(e, s, c, ok));
  }

  lemma {:induction false} MapReadKeeps(e: Env, s: State, c: AppliedConfig, ok: bool)
    requires Inv(e, s) && At(s, PASS).MapReading?
    ensures Inv(e, ApplyMap(e, s, c, ok))
  {
    OneMoves(s, ApplyMap(e, s, c, ok), PASS, At(ApplyMap(e, s, c, ok), PASS));
  }

  lemma {:induction false} GiveUpKeeps(e: Env, s: State, pc: Pc)
    requires Inv(e, s) && At(s, PASS).MapBuilding? && (pc.Idle? || pc == DownStart(true))
    ensures Inv(e, Put(s, PASS, pc))
  {
    OneMoves(s, Put(s, PASS, pc), PASS, pc);
  }

  lemma {:induction false} PublishKeeps(e: Env, s: State)
    requires EnvOk(e) && Inv(e, s) && At(s, PASS).MapBuilding? && s.handle == Some(At(s, PASS).h)
    requires Alive(s, At(s, PASS).h.net)
    ensures Inv(e, Published(s))
  {
    OneMoves(s, Published(s), PASS, Idle);
  }

  lemma {:induction false} MapKeeps(e: Env, s: State, c: AppliedConfig, ok: bool)
    requires EnvOk(e) && Inv(e, s) && At(s, PASS).MapBuilding?
    ensures Inv(e, ApplyMap(e, s, c, ok))
  {
    var h := At(s, PASS).h;
    if !ok || s.handle != Some(h) {
      GiveUpKeeps(e, s, Idle);
    } else if c != At(s, PASS).c || !Alive(s, h.net) {
      GiveUpKeeps(e, s, DownStart(true));
    } else {
      PublishKeeps(e, s);
    }
  }

  lemma {:induction false} ReadKeeps(e: Env, s: State, c: AppliedConfig, ok: bool)
    requires Inv(e, s) && (At(s, PASS).ApplyReading? || At(s, PASS).ApplyBuilding? || At(s, PASS).Locking?)
    ensures Inv(e, Put(s, PASS, ReadResources(e, s, c, ok)))
  {
    OneMoves(s, Put(s, PASS, ReadResources(e, s, c, ok)), PASS, ReadResources(e, s, c, ok));
  }

  lemma {:induction false} EnterKeeps(e: Env, s: State, ok: bool)
    requires Inv(e, s) && At(s, PASS).Locked?
    ensures Inv(e, ApplyResources(e, s, ok))
  {
    OneMoves(s, ApplyResources(e, s, ok), PASS, At(ApplyResources(e, s, ok), PASS));
  }

  lemma {:induction false} MutateKeeps(e: Env, s: State, ok: bool)
    requires Inv(e, s) && At(s, PASS).Mutating?
    ensures Inv(e, ApplyResources(e, s, ok))
  {
    OneMoves(s, ApplyResources(e, s, ok), PASS, At(ApplyResources(e, s, ok), PASS));
  }

  lemma {:induction false} FinishKeeps(e: Env, s: State, ok: bool)
    requires Inv(e, s) && At(s, PASS).Finishing?
    ensures Inv(e, ApplyResources(e, s, ok))
  {
    OneMoves(s, ApplyResources(e, s, ok), PASS, At(ApplyResources(e, s, ok), PASS));
  }

  lemma {:induction false} PassKeeps(e: Env, s: State, c: AppliedConfig, ok: bool)
    requires EnvOk(e) && Inv(e, s) && !At(s, PASS).Idle? && !InDown(At(s, PASS)) && !InUp(At(s, PASS))
    ensures Inv(e, PassOn(e, s, c, ok))
  {
    match At(s, PASS)
    case Deciding => DecideKeeps(e, s, c, ok);
    case MapReading => MapReadKeeps(e, s, c, ok);
    case MapBuilding(_, _) => MapKeeps(e, s, c, ok);
    case Locked(_, _) => EnterKeeps(e, s, ok);
    case Mutating(_, _) => MutateKeeps(e, s, ok);
    case Finishing(_, _) => FinishKeeps(e, s, ok);
    case _ => ReadKeeps(e, s, c, ok);
  }

  lemma {:induction false} GoKeeps(e: Env, s: State, t: Thread, c: AppliedConfig, ok: bool)
    requires EnvOk(e) && Inv(e, s) && Enabled(s, Go(t, c, ok)) && !Clash(s, Go(t, c, ok))
    ensures Inv(e, Next(e, s, Go(t, c, ok)))
  {
    match At(s, t)
    case DownStart(_) => AbortKeeps(e, s, t);
    case DownSlot(_) => TakeKeeps(e, s, t);
    case DownClean(_, _) => CleanKeeps(e, s, t);
    case UpStart => StartKeeps(e, s, t, c, ok);
    case UpConfigure(_) => ConfigureKeeps(e, s, t, c, ok);
    case UpSlot(_, _) => FillKeeps(e, s, t, c, ok);
    case UpHandle(_, _) => FillKeeps(e, s, t, c, ok);
    case _ => PassKeeps(e, s, c, ok);
  }

  lemma {:induction false} AskKeeps(e: Env, s: State, t: Thread, up: bool)
    requires Inv(e, s) && Enabled(s, Ask(t, up))
    ensures Inv(e, Next(e, s, Ask(t, up)))
  {
    OneMoves(s, Next(e, s, Ask(t, up)), t, if up then UpStart else DownStart(false));
  }

  lemma {:induction false} BeginKeeps(e: Env, s: State)
    requires Inv(e, s) && At(s, PASS).Idle?
    ensures Inv(e, Next(e, s, Begin))
  {
    if s.slot { OneMoves(s, Next(e, s, Begin), PASS, Deciding); }
  }

  lemma {:induction false} CrashKeeps(e: Env, s: State, n: nat)
    requires Inv(e, s) && Alive(s, n)
    ensures Inv(e, Next(e, s, Crash(n)))
  {
  }

  lemma {:induction false} StepKeeps(e: Env, s: State, st: Step)
    requires EnvOk(e) && Inv(e, s) && Enabled(s, st) && !Clash(s, st)
    ensures Inv(e, Next(e, s, st))
  {
    match st
    case Ask(t, up) => AskKeeps(e, s, t, up);
    case Begin => BeginKeeps(e, s);
    case Go(t, c, ok) => GoKeeps(e, s, t, c, ok);
    case Crash(n) => CrashKeeps(e, s, n);
  }

  /** A run in which no step is a clash. */
  ghost predicate ClashFree(e: Env, s: State, run: seq<Step>)
    ensures ClashFree(e, s, run) ==> Runs(e, s, run)
    decreases |run|
  {
    run == [] || (Enabled(s, run[0]) && !Clash(s, run[0]) && ClashFree(e, Next(e, s, run[0]), run[1..]))
  }

  /** However the threads interleave, without a clash the tunnel is in step whenever none is at work. */
  lemma {:induction false} ClashFreeInSync(e: Env, s: State, run: seq<Step>)
    requires EnvOk(e) && Inv(e, s) && ClashFree(e, s, run)
    ensures Inv(e, After(e, s, run)) && (AtRest(After(e, s, run)) ==> InSync(e, After(e, s, run)))
    decreases |run|
  {
    if run != [] {
      StepKeeps(e, s, run[0]);
      ClashFreeInSync(e, Next(e, s, run[0]), run[1..]);
    }
  }

  /**
   A pass that has read handle `h` changes the net stack of `h` and no other, and changes a store
   or the handle only while `h` is still the handle, or while a Down that stopped it waits for the slot.
   */
  lemma {:induction false} WritesOnlyWhatItRead(e: Env, s: State, c: AppliedConfig, ok: bool)
    requires Inv(e, s) && (At(s, PASS).MapBuilding? || Held(s))
    ensures var h, t := At(s, PASS).h, Next(e, s, Go(PASS, c, ok));
            && (forall n :: n in s.nets && n != h.net ==> n in t.nets && t.nets[n] == s.nets[n])
            && (t.nets != s.nets || t.kernel != s.kernel || t.handle != s.handle ==>
                  s.handle == Some(h) || (Held(s) && s.handle.None? && t.handle.None? && AnyWaiting(s)))
            && (t.handle != s.handle ==> s.handle == Some(h) && t.handle.Some? && t.handle.value.net == h.net)
  {
  }

  // ---- what is left when the tunnel is down ----

  /** Setting rules and routes up fails midway; `handle_up` then returns without clearing them. */
  predicate Fails(s: State, st: Step) { st.Go? && At(s, st.t).UpConfigure? && !st.ok }

  /** The step sets or clears rules and routes. */
  predicate Writes(s: State, st: Step)
  {
    st.Go? &&
    match At(s, st.t)
    case UpConfigure(_) => true
    case DownClean(took, _) => took
    case Locked(h, _) => s.handle == Some(h)
    case Finishing(_, _) => st.ok
    case _ => false
  }

  /** Whether the last step that set or cleared rules and routes was one that failed midway. */
  function LeftBehind(e: Env, s: State, run: seq<Step>, before: bool): bool
    requires Runs(e, s, run)
    decreases |run|
  {
    if run == [] then before
    else LeftBehind(e, Next(e, s, run[0]), run[1..], if Writes(s, run[0]) then Fails(s, run[0]) else before)
  }

  /** With nothing up, being built or being cleaned up there are no rules and routes. */
  ghost predicate Tidy(s: State)
  {
    s.handle.None? && !s.slot && !Building(At(s, USER)) && !Building(At(s, PASS)) && !AnyCleaning(s) ==>
      s.kernel == Some({})
  }

  ghost predicate KernelOk(s: State, left: bool) { if left then s.kernel.None? else Tidy(s) }

  lemma {:induction false} CleaningStays(s: State, w: State, t: Thread, pc: Pc)
    requires w.pcs == s.pcs[t := pc] && AnyCleaning(s) && !Cleaning(At(s, t))
    ensures AnyCleaning(w)
  {
    var u :| u in s.pcs && Cleaning(s.pcs[u]);
    assert Cleaning(w.pcs[u]);
  }

  lemma {:induction false} TidyDown(s: State, t: Thread, left: bool)
    requires (s.handle.Some? ==> s.slot) && InDown(At(s, t)) && KernelOk(s, left)
    ensures KernelOk(Down(s, t), if Cleaning(At(s, t)) then false else left)
  {
    var w := Down(s, t);
    if AnyCleaning(s) && !Cleaning(At(s, t)) { CleaningStays(s, w, t, At(w, t)); }
    if At(s, t).DownSlot? && s.slot { assert Cleaning(w.pcs[t]); }
  }

  lemma {:induction false} TidyUp(e: Env, s: State, t: Thread, c: AppliedConfig, ok: bool, left: bool)
    requires InUp(At(s, t)) && (t == USER || t == PASS) && KernelOk(s, left)
    ensures KernelOk(Up(e, s, t, c, ok), if At(s, t).UpConfigure? then !ok else left)
  {
    var w := Up(e, s, t, c, ok);
    if AnyCleaning(s) { CleaningStays(s, w, t, At(w, t)); }
  }

  lemma {:induction false} TidyPass(e: Env, s: State, c: AppliedConfig, ok: bool, left: bool)
    requires PassOk(e, s) && !At(s, PASS).Idle? && !InDown(At(s, PASS)) && !InUp(At(s, PASS)) && KernelOk(s, left)
    ensures KernelOk(PassOn(e, s, c, ok), if Writes(s, Go(PASS, c, ok)) then false else left)
  {
    var w := PassOn(e, s, c, ok);
    if AnyCleaning(s) { CleaningStays(s, w, PASS, At(w, PASS)); }
  }

  lemma {:induction false} TidyStep(e: Env, s: State, st: Step, left: bool)
    requires Inv(e, s) && Enabled(s, st) && KernelOk(s, left)
    ensures KernelOk(Next(e, s, st), if Writes(s, st) then Fails(s, st) else left)
  {
    match st
    case Ask(t, up) =>
      if AnyCleaning(s) { CleaningStays(s, Next(e, s, st), t, if up then UpStart else DownStart(false)); }
    case Begin =>
    case Crash(_) =>
    case Go(t, c, ok) =>
      if InDown(At(s, t)) {
        TidyDown(s, t, left);
      } else if InUp(At(s, t)) {
        TidyUp(e, s, t, c, ok, left);
      } else {
        TidyPass(e, s, c, ok, left);
      }
  }

  /**
   The tunnel is down and no thread is at work: no rules and routes are left exactly if the last
   step that set or cleared any was not one that failed midway.
   */
  lemma {:induction false} DownIsCleanIff(e: Env, s: State, run: seq<Step>, left: bool)
    requires EnvOk(e) && Inv(e, s) && KernelOk(s, left) && ClashFree(e, s, run)
    ensures var t := After(e, s, run);
            AtRest(t) && t.handle.None? ==> (t.kernel == Some({}) <==> !LeftBehind(e, s, run, left))
    decreases |run|
  {
    if run != [] {
      StepKeeps(e, s, run[0]);
      TidyStep(e, s, run[0], left);
      DownIsCleanIff(e, Next(e, s, run[0]), run[1..], if Writes(s, run[0]) then Fails(s, run[0]) else left);
    }
  }

  /** From the start, where there are none. */
  lemma {:induction false} DownLeavesNothingIff(e: Env, run: seq<Step>)
    requires EnvOk(e) && ClashFree(e, INIT, run)
    ensures var t := After(e, INIT, run);
            AtRest(t) && t.handle.None? ==> (t.kernel == Some({}) <==> !LeftBehind(e, INIT, run, false))
  {
    DownIsCleanIff(e, INIT, run, false);
  }

  /** A run in which a failed Up leaves rules and routes behind: nothing clashes, and the tunnel is down. */
  lemma {:induction false} FailedUpLeavesRules(e: Env, c: AppliedConfig)
    ensures var run := [Ask(USER, true), Go(USER, c, true), Go(USER, c, false)];
            ClashFree(e, INIT, run) &&
            var t := After(e, INIT, run); AtRest(t) && t.handle.None? && t.kernel.None?
  {
    var s1 := Next(e, INIT, Ask(USER, true));
    var s2 := Next(e, s1, Go(USER, c, true));
    var s3 := Next(e, s2, Go(USER, c, false));
    ClashFreeCons(e, s2, Go(USER, c, false), []);
    ClashFreeCons(e, s1, Go(USER, c, true), [Go(USER, c, false)]);
    ClashFreeCons(e, INIT, Ask(USER, true), [Go(USER, c, true), Go(USER, c, false)]);
    assert After(e, s3, []) == s3;
  }

  lemma {:induction false} ClashFreeCons(e: Env, s: State, st: Step, rest: seq<Step>)
    requires Enabled(s, st) && !Clash(s, st) && ClashFree(e, Next(e, s, st), rest)
    ensures ClashFree(e, s, [st] + rest) && After(e, s, [st] + rest) == After(e, Next(e, s, st), rest)
  {
    assert ([st] + rest)[1..] == rest;
  }

  lemma {:induction false} ClashFreeThen(e: Env, s: State, a: seq<Step>, b: seq<Step>)
    requires ClashFree(e, s, a) && ClashFree(e, After(e, s, a), b)
    ensures ClashFree(e, s, a + b) && After(e, s, a + b) == After(e, After(e, s, a), b)
    decreases |a|
  {
    if a == [] {
      assert a + b == b;
    } else {
      ClashFreeThen(e, Next(e, s, a[0]), a[1..], b);
      assert (a + b)[1..] == a[1..] + b;
    }
  }

  /** The classification of module `Classify` meets what is asked of it. */
  lemma {:induction false} ClassifyOk(ip: AddressOf)
    ensures EnvOk(Env(c => RoutableKeys(ip, c), ClassifyApplied))
  {
    forall a, c | ClassifyApplied(a, c) == TransportOnly ensures RoutableKeys(ip, a) == RoutableKeys(ip, c) {
      TransportOnlyPlanIsEmpty(ip, a, c);
    }
  }
}

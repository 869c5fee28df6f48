/**
 The relay task's side of a flow: the two bounded channels, the outcome word and the order in
 which the relay task stores its outcome and drops its senders (`relay_tcp_to_quic_ctl` and the
 spawner in `run`, client/src/net_stack.rs).

 A channel is everything ever sent on it and how much of that was received. The poll loop
 runs concurrently: `Rely` is what any number of task steps may do to what it shares.
 */
module RelayTask {
  import opened Common

  const FLOW_QUEUE_CAP: nat := 64
  /** The relay task reads at most this much from the tunnel at once. */
  const MAX_CHUNK: nat := 65536

  datatype Channel = Channel(all: seq<Bytes>, taken: nat)

  predicate ChannelOk(c: Channel) { c.taken <= |c.all| <= c.taken + FLOW_QUEUE_CAP }

  predicate Drained(c: Channel) { c.taken >= |c.all| }

  predicate Full(c: Channel) { |c.all| >= c.taken + FLOW_QUEUE_CAP }

  /** `Working`: the data loop runs. `Returned`: only the spawner's sender is left. `Gone`: no sender is left. */
  datatype Phase = Working | Returned | Stored | Gone

  datatype Outcome = Running | EndedOk | Failed

  /** How the data loop ended; a panic ends it badly. */
  datatype Ending = Unended | NormalEnd | BadEnd

  datatype Shared = Shared(
    up: Channel, upSender: bool,
    down: Channel, downReceiver: bool,
    phase: Phase, ending: Ending, outcome: Outcome)

  datatype TaskStep = Take | Send(chunk: Bytes) | Finish(normal: bool) | Store | DropGuard | Panic

  predicate Enabled(s: Shared, step: TaskStep)
  {
    match step
    case Take => s.phase.Working? && !Drained(s.up)
    case Send(chunk) => s.phase.Working? && s.downReceiver && !Full(s.down) && 0 < |chunk| <= MAX_CHUNK
    case Finish(_) => s.phase.Working?
    case Store => s.phase.Returned?
    case DropGuard => s.phase.Stored?
    case Panic => s.phase.Working?
  }

  function Do(s: Shared, step: TaskStep): Shared
  {
    if !Enabled(s, step) then s
    else
      match step
      case Take => s.(up := s.up.(taken := s.up.taken + 1))
      case Send(chunk) => s.(down := s.down.(all := s.down.all + [chunk]))
      case Finish(normal) => s.(phase := Returned, ending := if normal then NormalEnd else BadEnd)
      case Store => s.(phase := Stored, outcome := if s.ending.NormalEnd? then EndedOk else Failed)
      case DropGuard => s.(phase := Gone)
      case Panic => s.(phase := Gone, ending := BadEnd)
  }

  function DoAll(s: Shared, steps: seq<TaskStep>): Shared
    decreases |steps|
  {
    if steps == [] then s else DoAll(Do(s, steps[0]), steps[1..])
  }

  predicate SharedOk(s: Shared)
  {
    && ChannelOk(s.up) && ChannelOk(s.down)
    && (forall i :: 0 <= i < |s.down.all| ==> 0 < |s.down.all[i]| <= MAX_CHUNK)
    && (s.phase.Working? <==> s.ending.Unended?)
    && (s.phase.Working? || s.phase.Returned? ==> s.outcome.Running?)
    && (s.outcome.EndedOk? ==> s.ending.NormalEnd?)
    && (s.outcome.Failed? ==> s.ending.BadEnd?)
    && (s.phase.Stored? || s.phase.Gone? ==> (s.outcome.EndedOk? <==> s.ending.NormalEnd?))
  }

  /** What the relay task may do meanwhile: take from one channel, send on the other, end once. */
  predicate Rely(s: Shared, t: Shared)
  {
    && SharedOk(t)
    && t.up.all == s.up.all && s.up.taken <= t.up.taken
    && t.down.taken == s.down.taken && s.down.all <= t.down.all
    && t.upSender == s.upSender && t.downReceiver == s.downReceiver
    && (!s.ending.Unended? ==> t.ending == s.ending && t.down.all == s.down.all)
    && (!s.downReceiver ==> t.down.all == s.down.all)
    && (!s.outcome.Running? ==> t.outcome == s.outcome)
    && (s.phase.Gone? ==> t == s)
  }

  lemma {:induction false} DoRelies(s: Shared, step: TaskStep)
    requires SharedOk(s)
    ensures Rely(s, Do(s, step))
  {
  }

  lemma {:induction false} DoAllRelies(s: Shared, steps: seq<TaskStep>)
    requires SharedOk(s)
    ensures Rely(s, DoAll(s, steps))
    decreases |steps|
  {
    if steps != [] {
      DoRelies(s, steps[0]);
      DoAllRelies(Do(s, steps[0]), steps[1..]);
    }
  }

  /** What `try_recv` on the downlink answers. */
  predicate Disconnected(s: Shared) { Drained(s.down) && s.phase.Gone? }

  /** The relay task's `recv` on the uplink answers end of stream. */
  predicate SeesEof(s: Shared) { s.phase.Working? && !s.upSender && Drained(s.up) }

  /** Once the loop sees the channel disconnected the outcome is final, and it tells how the relay task ended. */
  lemma {:induction false} DisconnectIsFinal(s: Shared, steps: seq<TaskStep>)
    requires SharedOk(s) && Disconnected(s)
    ensures DoAll(s, steps) == s
    ensures !s.ending.Unended?
    ensures s.outcome.EndedOk? <==> s.ending.NormalEnd?
  {
    DoAllRelies(s, steps);
  }

  /** All bytes of the chunks, in order. */
  function Flat(chunks: seq<Bytes>): Bytes
    decreases |chunks|
  {
    if chunks == [] then [] else Flat(chunks[..|chunks| - 1]) + chunks[|chunks| - 1]
  }

  lemma {:induction false} FlatAppend(chunks: seq<Bytes>, c: Bytes)
    ensures Flat(chunks + [c]) == Flat(chunks) + c
  {
  }
}

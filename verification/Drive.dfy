/**
 One flow as the poll loop drives it (`drive_relay`, client/src/net_stack.rs).

 The flow's relay task runs at the same time: before every access to what they share,
 `Interfere` lets the relay task do whatever the next entry of an arbitrary script says. What holds
 of every script holds in every interleaving. The lifecycle counters are kept per flow.
 */
module Drive {
  import opened Common
  import opened RelayTask
  import opened Tcp

  const READ_SIZE: nat := 4096
  const FLOW_WRITE_BUF_CAP: nat := 1048576
  const CLOSING_IDLE_LIMIT: nat := 60000

  /** A socket: received bytes not read yet, room in its transmit buffer, whether it knows its peer. */
  datatype Sock = Sock(state: TcpState, rx: Bytes, room: nat, remote: bool)

  predicate CanSend(s: Sock) { MaySend(s.state) && s.room > 0 }

  /** A pass empties the channel: there is room in the transmit buffer, or the transmit half is not open. */
  predicate Empties(s: Sock) { !MaySend(s.state) || s.room > 0 }

  datatype Counters = Counters(fins: nat, resets: nat, backstops: nat, removed: nat)

  function Min(a: nat, b: nat): nat { if a <= b then a else b }

  /** What smoltcp may do in a poll: after the peer's FIN nothing more arrives. */
  predicate PollMay(s: Sock, t: Sock, arrived: Bytes)
  {
    && t.rx == s.rx + arrived
    && (PeerDone(s.state) ==> PeerDone(t.state) && arrived == [])
  }

  /** Uplink: what the client sent is what was handed to the relay task, then what is still unread. */
  predicate UpOk(received: Bytes, sh: Shared, sock: Sock)
  {
    && Flat(sh.up.all) <= received
    && (sh.upSender ==> received == Flat(sh.up.all) + sock.rx)
    && (!sh.upSender && sh.downReceiver ==> PeerDone(sock.state) && sock.rx == [] && received == Flat(sh.up.all))
  }

  /**
   Downlink: what was taken off the channel from chunk `mark` on is what was sent since (`out`),
   then what waits in `writeBuf`.
   */
  predicate DownOk(sh: Shared, mark: nat, out: Bytes, writeBuf: Bytes)
  {
    && |writeBuf| < MAX_CHUNK
    && mark <= sh.down.taken <= |sh.down.all|
    && Flat(sh.down.all[mark..sh.down.taken]) == out + writeBuf
  }

  /** Lifecycle: at most one FIN or reset, which says how the relay task ended. */
  predicate LifeOk(sh: Shared, n: Counters, terminated: bool, aborted: bool, writeBuf: Bytes)
  {
    && n.fins + n.resets <= 1
    && (terminated <==> n.fins + n.resets == 1 || aborted)
    && (n.fins > 0 ==> sh.ending.NormalEnd? && writeBuf == [])
    && (n.resets > 0 ==> sh.ending.BadEnd?)
    && (terminated ==> !sh.downReceiver && !sh.upSender)
    && ((!sh.downReceiver && !aborted) || n.fins + n.resets > 0 ==> Disconnected(sh))
  }

  lemma {:induction false} RelyKeepsUp(s: Shared, t: Shared, received: Bytes, sock: Sock)
    requires Rely(s, t) && UpOk(received, s, sock)
    ensures UpOk(received, t, sock)
  {
  }

  lemma {:induction false} RelyKeepsDown(s: Shared, t: Shared, mark: nat, out: Bytes, writeBuf: Bytes)
    requires Rely(s, t) && DownOk(s, mark, out, writeBuf)
    ensures DownOk(t, mark, out, writeBuf)
  {
    assert t.down.all[mark..t.down.taken] == s.down.all[mark..s.down.taken];
  }

  lemma {:induction false} RelyKeepsLife(s: Shared, t: Shared, n: Counters, terminated: bool, aborted: bool,
                                         writeBuf: Bytes)
    requires SharedOk(s) && Rely(s, t) && LifeOk(s, n, terminated, aborted, writeBuf)
    ensures LifeOk(t, n, terminated, aborted, writeBuf)
  {
  }

  /** What a pass does to the shared state: channels and the relay task only move forward. */
  predicate Advanced(s: Shared, t: Shared)
  {
    && s.up.all <= t.up.all && s.up.taken <= t.up.taken
    && s.down.all <= t.down.all && s.down.taken <= t.down.taken
    && (t.upSender ==> s.upSender) && (t.downReceiver ==> s.downReceiver)
    && (!s.downReceiver ==> t.down.taken == s.down.taken)
    && (!s.outcome.Running? ==> t.outcome == s.outcome)
    && (s.phase.Gone? ==> t.phase.Gone? && t.down.all == s.down.all)
    && (!s.phase.Working? ==> !t.phase.Working? && t.down.all == s.down.all)
  }

  predicate SameUp(s: Shared, t: Shared) { t.up.all == s.up.all && t.upSender == s.upSender }

  /** The activity clock is set exactly when something was moved, that is when a count went up. */
  predicate Moved(n: nat, n': nat, clock: int, clock': int, now: int)
  {
    n <= n' && clock' == if n' == n then clock else now
  }

  /** From `(mark, out)` to `(mark', out')`: output was given up, so the mark moved up to here; or none was. */
  predicate Loss(lost: bool, t: Shared, mark: nat, mark': nat, out: Bytes, out': Bytes)
  {
    if lost then mark' == t.down.taken && out' == [] else mark' == mark && out <= out'
  }

  /**
   What a pass gives up, from `s` to `t`. With the transmit half open and no failure: nothing. With
   it not open (not yet, in SYN-RECEIVED, or no more): exactly the chunks it takes, and it takes
   all that waited unless bytes are kept. After a failure: all that was kept or waited.
   */
  predicate LossIs(s: Shared, t: Shared, mark: nat, mark': nat, out: Bytes, out': Bytes, kept: Bytes, kept': Bytes,
                   maySend: bool)
  {
    && (maySend && !t.outcome.Failed? ==> Loss(false, t, mark, mark', out, out'))
    && (!maySend ==>
          && |out'| <= |out| && Loss(kept' != kept || s.down.taken < t.down.taken, t, mark, mark', out, out')
          && (!t.outcome.Failed? ==> kept' == kept)
          && (s.downReceiver && kept == [] ==> t.down.taken >= |s.down.all|))
    && (s.outcome.Failed? ==>
          && |out'| <= |out| && Loss(kept != [] || s.down.taken < t.down.taken, t, mark, mark', out, out')
          && kept' == [] && (s.downReceiver ==> t.down.taken >= |s.down.all|))
  }

  /** What is dropped because the relay failed. */
  predicate FailLoss(s: Shared, t: Shared, mark: nat, mark': nat, out: Bytes, out': Bytes, kept: Bytes, kept': Bytes)
  {
    && (t.outcome.Failed? || (kept' == kept && t.down.taken == s.down.taken))
    && (kept' == kept || kept' == [])
    && (s.outcome.Failed? ==> kept' == [] && (!t.downReceiver || Drained(t.down)))
    && Loss(kept' != kept || s.down.taken < t.down.taken, t, mark, mark', out, out') && |out'| <= |out|
  }

  /** What is dropped because the transmit half is not open. */
  predicate DownLoss(s: Shared, t: Shared, mark: nat, mark': nat, out: Bytes, out': Bytes, kept: Bytes, kept': Bytes,
                     maySend: bool)
  {
    && Loss(!maySend && s.down.taken < t.down.taken, t, mark, mark', out, out')
    && (!maySend || (kept == [] && t.down.taken == s.down.taken) ==> |out'| <= |out| && kept' == kept)
    && (!maySend && kept' == [] ==> !t.downReceiver || Drained(t.down))
  }

  /** The relay ended and nothing is left to hand to the client. */
  predicate Silent(s: Shared, kept: Bytes) { !s.phase.Working? && Drained(s.down) && kept == [] }

  /** The transmit half is open. */
  const SENDING := {Established, CloseWait}

  /** The client has sent its FIN, or there is no connection. */
  const CLIENT_DONE := {CloseWait, LastAck, Closing, TimeWait, Closed}

  /** A FIN was sent or received, and the connection is not done. */
  const CLOSING := {FinWait1, FinWait2, CloseWait, Closing, LastAck}

  /**
   How a pass ends a flow, from counters `n` and socket state `s` to `n'` and `t`; `idle` is the time since
   something moved. The state changes only by the FIN or the reset that is counted. The back-stop resets a socket
   that is closing, or that this pass closes, exactly when it was idle for CLOSING_IDLE_LIMIT.
   */
  predicate EndsAs(n: Counters, n': Counters, s: TcpState, t: TcpState, idle: nat)
  {
    var closed := if n'.fins > n.fins then CloseState(s) else if n'.resets > n.resets then Closed else s;
    var stopped := closed in CLOSING && idle >= CLOSING_IDLE_LIMIT;
    && t == (if stopped then Closed else closed) && n'.backstops == n.backstops + (if stopped then 1 else 0)
    && n.fins <= n'.fins && n.resets <= n'.resets && n'.removed == n.removed
  }

  /** The relay task ended normally and is gone, everything it sent was passed on, and the flow has not been told. */
  predicate Finished(s: Shared, kept: Bytes, terminated: bool)
  {
    s.downReceiver && !terminated && s.phase.Gone? && s.ending.NormalEnd? && Drained(s.down) && kept == []
  }

  lemma {:induction false} PassLoss(s: Shared, m: Shared, t: Shared, marks: (nat, nat, nat),
                                    outs: (Bytes, Bytes, Bytes), kepts: (Bytes, Bytes, Bytes), maySend: bool)
    requires SharedOk(s) && SharedOk(m) && SharedOk(t) && Advanced(s, m) && Advanced(m, t)
    requires !t.downReceiver && s.downReceiver ==> Drained(t.down)
    requires FailLoss(s, m, marks.0, marks.1, outs.0, outs.1, kepts.0, kepts.1)
    requires DownLoss(m, t, marks.1, marks.2, outs.1, outs.2, kepts.1, kepts.2, maySend)
    ensures LossIs(s, t, marks.0, marks.2, outs.0, outs.2, kepts.0, kepts.2, maySend)
  {
  }

  lemma {:induction false} WaitingIsLost(s: Shared, t: Shared, mark: nat, mark': nat, out: Bytes, out': Bytes,
                                         kept': Bytes)
    requires LossIs(s, t, mark, mark', out, out', [], kept', false) && Advanced(s, t)
    requires s.downReceiver && s.down.taken < |s.down.all|
    ensures s.down.all <= t.down.all && mark' >= |s.down.all| && out' == []
  {
  }

  lemma {:induction false} EndAdvances(s: Shared, m: Shared, t: Shared)
    requires Advanced(s, m) && t == m.(upSender := t.upSender, downReceiver := t.downReceiver)
    requires (t.upSender ==> m.upSender) && (t.downReceiver ==> m.downReceiver)
    ensures Advanced(s, t)
  {
  }

  lemma {:induction false} EndKeepsLoss(s: Shared, m: Shared, t: Shared, marks: (nat, nat, nat),
                                        outs: (Bytes, Bytes, Bytes), kept: Bytes, kept': Bytes, maySend: bool)
    requires LossIs(s, m, marks.0, marks.1, outs.0, outs.1, kept, kept', maySend)
    requires t == m.(upSender := t.upSender, downReceiver := t.downReceiver)
    requires Loss(false, t, marks.1, marks.2, outs.1, outs.2) && |outs.2| <= |outs.1|
    ensures LossIs(s, t, marks.0, marks.2, outs.0, outs.2, kept, kept', maySend)
  {
  }

  /** Giving up everything taken so far. */
  lemma {:induction false} NothingSince(sh: Shared)
    requires sh.down.taken <= |sh.down.all|
    ensures DownOk(sh, sh.down.taken, [], [])
  {
    assert sh.down.all[sh.down.taken..sh.down.taken] == [];
  }

  /** Sending the first `n` of the kept bytes. */
  lemma {:induction false} FlushKeeps(sh: Shared, mark: nat, out: Bytes, writeBuf: Bytes, n: nat)
    requires DownOk(sh, mark, out, writeBuf) && n <= |writeBuf|
    ensures DownOk(sh, mark, out + writeBuf[..n], writeBuf[n..])
  {
    assert out + writeBuf[..n] + writeBuf[n..] == out + writeBuf;
  }

  function Popped(sh: Shared): Shared { sh.(down := sh.down.(taken := sh.down.taken + 1)) }

  /** Taking the next chunk and sending its first `n` bytes. */
  lemma {:induction false} PopKeeps(sh: Shared, mark: nat, out: Bytes, n: nat)
    requires DownOk(sh, mark, out, []) && sh.down.taken < |sh.down.all|
    requires 0 < n <= |sh.down.all[sh.down.taken]| <= MAX_CHUNK
    ensures DownOk(Popped(sh), mark, out + sh.down.all[sh.down.taken][..n], sh.down.all[sh.down.taken][n..])
  {
    var all, taken := sh.down.all, sh.down.taken;
    assert all[mark..taken + 1] == all[mark..taken] + [all[taken]];
    FlatAppend(all[mark..taken], all[taken]);
    assert out + [] == out && out + all[taken][..n] + all[taken][n..] == out + all[taken];
  }

  lemma {:induction false} PopKeepsRest(sh: Shared, sock: Sock, received: Bytes, c: Counters, terminated: bool,
                                        aborted: bool, writeBuf: Bytes)
    requires SharedOk(sh) && sh.downReceiver && sh.down.taken < |sh.down.all|
    requires UpOk(received, sh, sock) && LifeOk(sh, c, terminated, aborted, [])
    ensures SharedOk(Popped(sh)) && UpOk(received, Popped(sh), sock)
            && LifeOk(Popped(sh), c, terminated, aborted, writeBuf)
  {
  }

  /** Handing over the first `n` unread bytes. */
  lemma {:induction false} PushUp(all: seq<Bytes>, rx: Bytes, n: nat)
    requires n <= |rx|
    ensures Flat(all + [rx[..n]]) + rx[n..] == Flat(all) + rx
  {
  }

  function Pushed(s: Shared, buf: Bytes): Shared { s.(up := s.up.(all := s.up.all + [buf])) }

  /** Reading `n` bytes and pushing them, with the relay task running in between. */
  lemma {:induction false} ReadKeeps(s: Shared, t: Shared, sock: Sock, n: nat, received: Bytes, mark: nat, out: Bytes,
                                     writeBuf: Bytes, c: Counters, terminated: bool, aborted: bool)
    requires SharedOk(s) && s.upSender && !Full(s.up) && Rely(s, t) && n <= |sock.rx|
    requires UpOk(received, s, sock) && DownOk(s, mark, out, writeBuf) && LifeOk(s, c, terminated, aborted, writeBuf)
    ensures var p := Pushed(t, sock.rx[..n]);
            && SharedOk(p) && Advanced(s, p) && p.upSender && p.down.taken == s.down.taken
                && p.downReceiver == s.downReceiver && |p.up.all| == |s.up.all| + 1
            && UpOk(received, p, sock.(rx := sock.rx[n..])) && DownOk(p, mark, out, writeBuf)
            && LifeOk(p, c, terminated, aborted, writeBuf)
  {
    PushUp(t.up.all, sock.rx, n);
    RelyKeepsDown(s, t, mark, out, writeBuf);
    RelyKeepsLife(s, t, c, terminated, aborted, writeBuf);
  }

  const NEW_SHARED := Shared(Channel([], 0), true, Channel([], 0), true, Working, Unended, Running)

  class Flow {
    var sock: Sock
    var sh: Shared
    var script: seq<seq<TaskStep>>
    var writeBuf: Bytes
    var lastActivity: int
    var lastState: TcpState
    var terminated: bool
    var counters: Counters
    /** History: all the client sent; how many bytes reached the transmit buffer. */
    ghost var received: Bytes
    ghost var sent: nat
    /** Output was last given up before chunk `mark` (0: never); since then `out` was sent. */
    ghost var mark: nat
    ghost var out: Bytes
    /** Cut by the back-stop, a resource removal or a connector revocation. */
    ghost var aborted: bool

    ghost predicate Valid()
      reads this
    {
      && SharedOk(sh)
      && UpOk(received, sh, sock)
      && DownOk(sh, mark, out, writeBuf)
      && LifeOk(sh, counters, terminated, aborted, writeBuf)
    }

    /** A flow just accepted (`ActiveRelay::new`), whatever its task will do. */
    constructor (s: Sock, now: int, schedule: seq<seq<TaskStep>>)
      ensures Valid() && sock == s && !terminated && mark == 0 && out == [] && !aborted
      ensures sh == NEW_SHARED && received == s.rx && sent == 0 && writeBuf == [] && script == schedule
      ensures lastActivity == now && lastState == SynReceived && counters == Counters(0, 0, 0, 0)
    {
      sock, script, lastActivity, lastState := s, schedule, now, SynReceived;
      sh := NEW_SHARED;
      writeBuf, terminated, counters := [], false, Counters(0, 0, 0, 0);
      received, sent, mark, out, aborted := s.rx, 0, 0, [], false;
    }

    /** The relay task runs meanwhile. */
    method Interfere()
      requires SharedOk(sh)
      modifies this`sh, this`script
      ensures Rely(old(sh), sh)
      ensures if old(script) == [] then script == [] && sh == old(sh)
              else script == old(script)[1..] && sh == DoAll(old(sh), old(script)[0])
    {
      if script != [] {
        DoAllRelies(sh, script[0]);
        sh, script := DoAll(sh, script[0]), script[1..];
      }
    }

    method Meanwhile()
      requires Valid()
      modifies this`sh, this`script
      ensures Valid() && Rely(old(sh), sh)
      ensures if old(script) == [] then script == [] && sh == old(sh)
              else script == old(script)[1..] && sh == DoAll(old(sh), old(script)[0])
    {
      ghost var before := sh;
      Interfere();
      RelyKeepsUp(before, sh, received, sock);
      RelyKeepsDown(before, sh, mark, out, writeBuf);
      RelyKeepsLife(before, sh, counters, terminated, aborted, writeBuf);
    }

    // ---- client to resource ----

    /** Moves unread bytes into the channel, reserving a slot before each read. */
    method Uplink(now: int)
      requires Valid() && sh.upSender
      modifies this`sock, this`sh, this`script, this`lastActivity
      ensures Valid() && sock == old(sock).(rx := sock.rx)
      ensures Advanced(old(sh), sh) && sh.upSender && sh.down.taken == old(sh).down.taken
              && sh.downReceiver == old(sh).downReceiver
      ensures sock.rx == [] || Full(sh.up) || !sh.phase.Working?
      ensures Moved(|old(sh).up.all|, |sh.up.all|, old(lastActivity), lastActivity, now)
      ensures !old(sh).phase.Working? ==> |sh.up.all| == |old(sh).up.all|
    {
      while sock.rx != []
        invariant Valid() && sock == old(sock).(rx := sock.rx)
        invariant Advanced(old(sh), sh) && sh.upSender && sh.down.taken == old(sh).down.taken
                  && sh.downReceiver == old(sh).downReceiver
        invariant Moved(|old(sh).up.all|, |sh.up.all|, old(lastActivity), lastActivity, now)
        invariant !old(sh).phase.Working? ==> |sh.up.all| == |old(sh).up.all|
        decreases |sock.rx|
      {
        Meanwhile();
        if Full(sh.up) || !sh.phase.Working? {
          break;
        }
        ReadOne(now);
      }
    }

    /** With a slot reserved: reads once and sends what was read. */
    method ReadOne(now: int)
      requires Valid() && sh.upSender && !Full(sh.up) && sock.rx != []
      modifies this`sock, this`sh, this`script, this`lastActivity
      ensures Valid() && sock == old(sock).(rx := sock.rx) && |sock.rx| < |old(sock).rx|
      ensures Advanced(old(sh), sh) && sh.upSender && sh.down.taken == old(sh).down.taken
              && sh.downReceiver == old(sh).downReceiver
      ensures lastActivity == now && |sh.up.all| > |old(sh).up.all|
    {
      var n := Min(READ_SIZE, |sock.rx|);
      var buf := sock.rx[..n];
      sock := sock.(rx := sock.rx[n..]);
      lastActivity := now;
      ghost var before := sh;
      Interfere();
      ReadKeeps(before, sh, old(sock), n, received, mark, out, writeBuf, counters, terminated, aborted);
      sh := Pushed(sh, buf);
    }

    /** Ends the uplink once the client is done and every byte was handed over. */
    method EndUplink()
      requires Valid()
      modifies this`sh
      ensures Valid()
      ensures sh == old(sh).(upSender := old(sh).upSender && !(sock.state in CLIENT_DONE && sock.rx == []))
    {
      if sh.upSender && PeerDone(sock.state) && sock.rx == [] {
        sh := sh.(upSender := false);
      }
    }

    /** With nobody to hand bytes to, reads and drops them. */
    method Sink()
      requires Valid()
      modifies this`sock
      ensures Valid()
      ensures sock == old(sock).(rx := if sh.upSender then old(sock).rx else [])
    {
      if !sh.upSender {
        while sock.rx != []
          invariant Valid() && sock == old(sock).(rx := sock.rx)
          decreases |sock.rx|
        {
          sock := sock.(rx := sock.rx[Min(READ_SIZE, |sock.rx|)..]);
        }
      }
    }

    // ---- resource to client ----

    /** Takes and drops one chunk. */
    method DropOne()
      requires Valid() && sh.downReceiver && writeBuf == [] && !Drained(sh.down)
      modifies this`sh, this`mark, this`out
      ensures Valid() && sh == Popped(old(sh)) && mark == sh.down.taken && out == []
    {
      NothingSince(Popped(sh));
      sh := Popped(sh);
      mark, out := sh.down.taken, [];
    }

    method DropStep() returns (more: bool)
      requires Valid() && sh.downReceiver && writeBuf == []
      modifies this`sh, this`script, this`mark, this`out
      ensures Valid() && Advanced(old(sh), sh) && SameUp(old(sh), sh)
      ensures more ==> sh.downReceiver && sh.down.taken == old(sh).down.taken + 1 && mark == sh.down.taken && out == []
      ensures more ==> |script| < |old(script)| || (script == old(script) && sh.down.all == old(sh).down.all)
      ensures !more ==> mark == old(mark) && out == old(out) && sh.down.taken == old(sh).down.taken
      ensures !more ==> Drained(sh.down) && (sh.downReceiver <==> !sh.phase.Gone?)
    {
      Meanwhile();
      more := !Drained(sh.down);
      if more {
        DropOne();
      } else if sh.phase.Gone? {
        sh := sh.(downReceiver := false);
      }
    }

    /** Takes and drops chunks until the channel is empty or disconnected. */
    method DropChunks()
      requires Valid() && sh.downReceiver && writeBuf == []
      modifies this`sh, this`script, this`mark, this`out
      ensures Valid() && Advanced(old(sh), sh) && SameUp(old(sh), sh)
      ensures Drained(sh.down) && (sh.downReceiver <==> !sh.phase.Gone?)
      ensures Loss(old(sh).down.taken < sh.down.taken, sh, old(mark), mark, old(out), out) && |out| <= |old(out)|
    {
      while true
        invariant Valid() && sh.downReceiver && Advanced(old(sh), sh) && SameUp(old(sh), sh)
        invariant Loss(old(sh).down.taken < sh.down.taken, sh, old(mark), mark, old(out), out) && |out| <= |old(out)|
        decreases |script|, |sh.down.all| - sh.down.taken
      {
        var more := DropStep();
        if !more {
          return;
        }
      }
    }

    /** Gives up what was kept. */
    method DropKept()
      requires Valid()
      modifies this`writeBuf, this`mark, this`out
      ensures Valid() && writeBuf == []
      ensures Loss(old(writeBuf) != [], sh, old(mark), mark, old(out), out) && |out| <= |old(out)|
    {
      if writeBuf != [] {
        NothingSince(sh);
        writeBuf, mark, out := [], sh.down.taken, [];
      }
    }

    /** Drops what is kept and what is queued. */
    method DropAll()
      requires Valid() && sh.outcome.Failed?
      modifies this`sh, this`script, this`writeBuf, this`mark, this`out
      ensures Valid() && Advanced(old(sh), sh) && SameUp(old(sh), sh)
      ensures FailLoss(old(sh), sh, old(mark), mark, old(out), out, old(writeBuf), writeBuf)
    {
      DropKept();
      if sh.downReceiver {
        DropChunks();
      }
    }

    /** A failed relay has nothing more to deliver. */
    method DropFailed()
      requires Valid()
      modifies this`sh, this`script, this`writeBuf, this`mark, this`out
      ensures Valid() && Advanced(old(sh), sh) && SameUp(old(sh), sh)
      ensures FailLoss(old(sh), sh, old(mark), mark, old(out), out, old(writeBuf), writeBuf)
    {
      Meanwhile();
      if sh.outcome.Failed? {
        DropAll();
      }
    }

    /** Puts bytes into the transmit buffer, as many as fit. */
    method Transmit(data: Bytes) returns (n: nat)
      requires CanSend(sock) && data != []
      modifies this`sock, this`sent, this`out
      ensures 0 < n <= |data| && n <= old(sock).room && sent == old(sent) + n && out == old(out) + data[..n]
      ensures sock == old(sock).(room := old(sock).room - n) && (n < |data| ==> sock.room == 0)
    {
      n := Min(|data|, sock.room);
      sock := sock.(room := sock.room - n);
      sent, out := sent + n, out + data[..n];
    }

    /** Keeps what did not fit; past the cap the flow is closed instead. */
    method Keep(pending: Bytes)
      modifies this`writeBuf, this`sock
      ensures |old(writeBuf)| + |pending| <= FLOW_WRITE_BUF_CAP ==>
                writeBuf == old(writeBuf) + pending && sock == old(sock)
      ensures |old(writeBuf)| + |pending| > FLOW_WRITE_BUF_CAP ==>
                writeBuf == old(writeBuf) && sock == old(sock).(state := CloseState(old(sock).state))
    {
      if |writeBuf| + |pending| > FLOW_WRITE_BUF_CAP {
        sock := sock.(state := CloseState(sock.state));
      } else {
        writeBuf := writeBuf + pending;
      }
    }

    method FlushOnce(now: int)
      requires Valid() && writeBuf != [] && CanSend(sock)
      modifies this`sock, this`sent, this`out, this`writeBuf, this`lastActivity
      ensures Valid() && sock == old(sock).(room := sock.room) && sock.room <= old(sock).room
      ensures (writeBuf == [] || !CanSend(sock)) && |writeBuf| < |old(writeBuf)|
      ensures old(out) <= out && sent > old(sent) && lastActivity == now
    {
      var chunk := writeBuf;
      ghost var was := out;
      writeBuf := [];
      var n := Transmit(chunk);
      FlushKeeps(sh, mark, was, chunk, n);
      lastActivity := now;
      if n < |chunk| {
        Keep(chunk[n..]);
      }
    }

    /** Sends what was kept earlier. */
    method Flush(now: int)
      requires Valid()
      modifies this`sock, this`sent, this`out, this`writeBuf, this`lastActivity
      ensures Valid() && sock == old(sock).(room := sock.room)
      ensures writeBuf == [] || !CanSend(sock)
      ensures old(out) <= out
              && (old(writeBuf) == [] || !CanSend(old(sock)) ==> out == old(out) && writeBuf == old(writeBuf))
      ensures Moved(old(sent), sent, old(lastActivity), lastActivity, now)
      ensures old(writeBuf) == [] ==> sent == old(sent) && sock == old(sock)
    {
      while writeBuf != [] && CanSend(sock)
        invariant Valid() && sock == old(sock).(room := sock.room) && sock.room <= old(sock).room && old(out) <= out
        invariant old(writeBuf) == [] || !CanSend(old(sock)) ==> out == old(out) && writeBuf == old(writeBuf)
        invariant Moved(old(sent), sent, old(lastActivity), lastActivity, now)
        invariant old(writeBuf) == [] ==> sent == old(sent) && sock == old(sock)
        decreases |writeBuf|
      {
        FlushOnce(now);
      }
    }

    /** Takes one chunk off the channel and sends it, keeping what does not fit. */
    method PumpOne(now: int)
      requires Valid() && writeBuf == [] && sh.downReceiver && CanSend(sock) && !Drained(sh.down)
      modifies this`sock, this`sh, this`sent, this`out, this`writeBuf, this`lastActivity
      ensures Valid() && sock == old(sock).(room := sock.room) && sock.room < old(sock).room && sh == Popped(old(sh))
      ensures writeBuf == [] || !CanSend(sock)
      ensures lastActivity == now && sent > old(sent) && old(out) <= out
    {
      var data := sh.down.all[sh.down.taken];
      ghost var was := out;
      lastActivity := now;
      var n := Transmit(data);
      PopKeeps(sh, mark, was, n);
      PopKeepsRest(sh, sock, received, counters, terminated, aborted, data[n..]);
      sh := Popped(sh);
      if n < |data| {
        Keep(data[n..]);
        assert [] + data[n..] == data[n..];
      }
    }

    /** The next chunk, if there is one; notices the end of the relay task. */
    method PumpStep(now: int) returns (more: bool)
      requires Valid() && writeBuf == [] && sh.downReceiver && CanSend(sock)
      modifies this`sock, this`sh, this`script, this`sent, this`out, this`writeBuf, this`lastActivity
      ensures Valid() && sock == old(sock).(room := sock.room) && Advanced(old(sh), sh) && SameUp(old(sh), sh)
              && old(out) <= out
      ensures more ==> sh.downReceiver && sock.room < old(sock).room && (writeBuf == [] || !CanSend(sock))
      ensures more ==> sh.down.taken > old(sh).down.taken && sent > old(sent) && lastActivity == now
      ensures !more ==>
                && sh.down.taken == old(sh).down.taken && sent == old(sent)
                && lastActivity == old(lastActivity) && out == old(out)
      ensures !more ==> writeBuf == [] && Drained(sh.down) && (sh.downReceiver <==> !sh.phase.Gone?)
      ensures !more ==> sock == old(sock)
      ensures Silent(old(sh), old(writeBuf)) ==> !more
    {
      Meanwhile();
      more := !Drained(sh.down);
      if more {
        PumpOne(now);
      } else if sh.phase.Gone? {
        sh := sh.(downReceiver := false);
      }
    }

    /** Sends chunks as long as the transmit buffer has room. */
    method Pump(now: int)
      requires Valid() && writeBuf == [] && sh.downReceiver && MaySend(sock.state)
      modifies this`sock, this`sh, this`script, this`sent, this`out, this`writeBuf, this`lastActivity
      ensures Valid() && sock == old(sock).(room := sock.room)
      ensures Advanced(old(sh), sh) && SameUp(old(sh), sh)
      ensures !CanSend(sock) || (writeBuf == [] && Drained(sh.down) && (sh.downReceiver <==> !sh.phase.Gone?))
      ensures old(out) <= out && (sh.down.taken == old(sh).down.taken ==> out == old(out) && writeBuf == [])
      ensures Moved(old(sent), sent, old(lastActivity), lastActivity, now)
      ensures Silent(old(sh), old(writeBuf)) ==> sent == old(sent) && sock == old(sock) && writeBuf == []
    {
      while CanSend(sock)
        invariant Moved(old(sent), sent, old(lastActivity), lastActivity, now)
        invariant Silent(old(sh), old(writeBuf)) ==>
                    sent == old(sent) && sock == old(sock) && Silent(sh, writeBuf)
        invariant Valid() && sh.downReceiver && sock == old(sock).(room := sock.room)
        invariant writeBuf == [] || !CanSend(sock)
        invariant Advanced(old(sh), sh) && SameUp(old(sh), sh)
        invariant old(out) <= out && (sh.down.taken == old(sh).down.taken ==> out == old(out) && writeBuf == [])
        decreases sock.room
      {
        var more := PumpStep(now);
        if !more {
          break;
        }
      }
    }

    /** Resource to client: kept bytes first, then the channel; discarded while the transmit half is not open. */
    method Downlink(now: int)
      requires Valid()
      modifies this`sock, this`sh, this`script, this`sent, this`out, this`writeBuf, this`lastActivity, this`mark
      ensures Valid() && sock == old(sock).(room := sock.room)
      ensures Advanced(old(sh), sh) && SameUp(old(sh), sh)
      ensures DownLoss(old(sh), sh, old(mark), mark, old(out), out, old(writeBuf), writeBuf, MaySend(sock.state))
      ensures CanSend(sock) ==> writeBuf == []
      ensures Empties(sock) && writeBuf == [] ==> !sh.downReceiver || (Drained(sh.down) && !sh.phase.Gone?)
      ensures Moved(old(sent), sent, old(lastActivity), lastActivity, now)
      ensures Silent(old(sh), old(writeBuf)) ==> sent == old(sent) && sock == old(sock) && writeBuf == []
    {
      Flush(now);
      if writeBuf == [] && sh.downReceiver {
        if MaySend(sock.state) {
          Pump(now);
        } else {
          DropChunks();
        }
      }
    }

    // ---- the end of a flow ----

    /** The relay has ended: FIN after a normal end once everything is queued, reset after a failure. */
    method Lifecycle()
      requires Valid()
      modifies this`sock, this`sh, this`script, this`terminated, this`counters
      ensures Valid() && sock == old(sock).(state := sock.state)
      ensures old(terminated) || old(sh).downReceiver ==>
                sh == old(sh) && sock == old(sock) && counters == old(counters) && terminated == old(terminated)
      ensures !old(terminated) && !old(sh).downReceiver ==>
                && sh == old(sh).(upSender := false)
                && if sh.ending.NormalEnd? then
                     if writeBuf == [] then
                       && counters == old(counters).(fins := 1) && terminated
                       && sock.state == CloseState(old(sock).state)
                     else counters == old(counters) && !terminated && sock == old(sock)
                   else counters == old(counters).(resets := 1) && terminated && sock.state.Closed?
    {
      if !terminated && !sh.downReceiver {
        Meanwhile();
        if sh.outcome.EndedOk? {
          if writeBuf == [] {
            sock := sock.(state := CloseState(sock.state));
            terminated, counters := true, counters.(fins := counters.fins + 1);
          }
        } else {
          sock := sock.(state := Closed);
          terminated, counters := true, counters.(resets := counters.resets + 1);
        }
        sh := sh.(upSender := false);
      }
    }

    /** A reset from outside the relay: resource removed, connector revoked, or the back-stop. */
    method Abort()
      requires Valid()
      modifies this`sock, this`sh, this`terminated, this`writeBuf, this`mark, this`out, this`aborted
      ensures Valid() && terminated && aborted && writeBuf == [] && sock == old(sock).(state := Closed)
      ensures sh == old(sh).(upSender := false, downReceiver := false)
      ensures Loss(old(writeBuf) != [], sh, old(mark), mark, old(out), out) && |out| <= |old(out)|
    {
      DropKept();
      sock := sock.(state := Closed);
      sh := sh.(upSender := false, downReceiver := false);
      terminated, aborted := true, true;
    }

    /** A closing socket idle for CLOSING_IDLE_LIMIT is aborted. */
    method Backstop(now: int)
      requires Valid()
      modifies this`sock, this`sh, this`terminated, this`writeBuf, this`mark, this`out, this`aborted, this`counters
      ensures Valid() && Loss(writeBuf != old(writeBuf), sh, old(mark), mark, old(out), out) && |out| <= |old(out)|
      ensures if IsClosing(old(sock).state) && Elapsed(now, lastActivity) >= CLOSING_IDLE_LIMIT then
                && sock.state.Closed? && aborted && terminated
                    && sh == old(sh).(upSender := false, downReceiver := false)
                && counters == old(counters).(backstops := old(counters).backstops + 1)
              else
                && sock == old(sock) && sh == old(sh) && terminated == old(terminated) && writeBuf == old(writeBuf)
                && aborted == old(aborted) && counters == old(counters)
      ensures sock == old(sock).(state := sock.state)
    {
      if IsClosing(sock.state) && Elapsed(now, lastActivity) >= CLOSING_IDLE_LIMIT {
        Abort();
        counters := counters.(backstops := counters.backstops + 1);
      }
    }

    /** A change of state counts as activity. */
    method NoteState(now: int)
      modifies this`lastState, this`lastActivity
      ensures lastState == sock.state && lastActivity == if sock.state == old(lastState) then old(lastActivity) else now
    {
      if sock.state != lastState {
        lastState, lastActivity := sock.state, now;
      }
    }

    /** The client's side of a pass. */
    method MoveUp(now: int)
      requires Valid()
      modifies this`sock, this`sh, this`script, this`lastActivity, this`lastState
      ensures Valid() && Advanced(old(sh), sh) && sock == old(sock).(rx := sock.rx)
      ensures sh.down.taken == old(sh).down.taken && sh.downReceiver == old(sh).downReceiver
      ensures sock.state in CLIENT_DONE && sock.rx == [] ==> !sh.upSender
      ensures sh.upSender ==> sock.rx == [] || |sh.up.all| >= old(sh).up.taken + FLOW_QUEUE_CAP || !sh.phase.Working?
      ensures !sh.upSender ==> sock.rx == []
      ensures lastActivity == if |sh.up.all| == |old(sh).up.all| && sock.state == old(lastState) then old(lastActivity)
                else now
      ensures !old(sh).phase.Working? ==> |sh.up.all| == |old(sh).up.all|
    {
      NoteState(now);
      if sh.upSender {
        Uplink(now);
      }
      EndUplink();
      Sink();
    }

    /** The resource's side of a pass. */
    method MoveDown(now: int)
      requires Valid()
      modifies this`sock, this`sh, this`script, this`sent, this`out, this`writeBuf, this`lastActivity, this`mark
      ensures Valid() && sock == old(sock).(room := sock.room)
      ensures Advanced(old(sh), sh) && SameUp(old(sh), sh)
      ensures LossIs(old(sh), sh, old(mark), mark, old(out), out, old(writeBuf), writeBuf, MaySend(sock.state))
      ensures CanSend(sock) && sh.downReceiver ==> writeBuf == [] && Drained(sh.down)
      ensures Empties(sock) && writeBuf == [] && sh.downReceiver ==> !sh.phase.Gone?
      ensures Moved(old(sent), sent, old(lastActivity), lastActivity, now)
      ensures Silent(old(sh), old(writeBuf)) ==> sent == old(sent) && sock == old(sock) && writeBuf == []
    {
      DropFailed();
      ghost var m, mark1, out1, kept1 := sh, mark, out, writeBuf;
      Downlink(now);
      PassLoss(old(sh), m, sh, (old(mark), mark1, mark), (old(out), out1, out), (old(writeBuf), kept1, writeBuf),
               MaySend(sock.state));
    }

    /** The lifecycle's side of a pass. */
    method End(now: int)
      requires Valid()
      modifies this`sock, this`sh, this`script, this`terminated, this`counters, this`writeBuf, this`mark, this`out,
          this`aborted
      ensures Valid() && DriveMay(old(sock).state, sock.state) && sock == old(sock).(state := sock.state)
      ensures sh == old(sh).(upSender := sh.upSender, downReceiver := sh.downReceiver)
      ensures (sh.upSender ==> old(sh).upSender) && (sh.downReceiver ==> old(sh).downReceiver)
      ensures sh.downReceiver ==> writeBuf == old(writeBuf) && sock == old(sock)
      ensures Loss(writeBuf != old(writeBuf), sh, old(mark), mark, old(out), out) && |out| <= |old(out)|
      ensures writeBuf != old(writeBuf) ==> counters.backstops > old(counters).backstops
      ensures !sh.downReceiver && !terminated ==> sh.ending.NormalEnd? && writeBuf != []
      ensures EndsAs(old(counters), counters, old(sock).state, sock.state, Elapsed(now, lastActivity))
      ensures !old(sh).downReceiver && !old(terminated) && sh.ending.NormalEnd? && old(writeBuf) == [] ==>
                counters.fins > old(counters).fins
    {
      Lifecycle();
      Backstop(now);
    }

    /** Both directions of a pass. */
    method Move(now: int)
      requires Valid()
      modifies this`sock, this`sh, this`script, this`sent, this`out, this`writeBuf, this`lastActivity, this`lastState,
          this`mark
      ensures Valid() && Advanced(old(sh), sh) && sock == old(sock).(rx := sock.rx, room := sock.room)
              && old(sent) <= sent
      ensures sock.state in CLIENT_DONE && sock.rx == [] ==> !sh.upSender
      ensures sh.upSender ==> sock.rx == [] || |sh.up.all| >= old(sh).up.taken + FLOW_QUEUE_CAP || !sh.phase.Working?
      ensures LossIs(old(sh), sh, old(mark), mark, old(out), out, old(writeBuf), writeBuf, MaySend(sock.state))
      ensures CanSend(sock) && sh.downReceiver ==> writeBuf == [] && Drained(sh.down)
      ensures Empties(sock) && writeBuf == [] && sh.downReceiver ==> !sh.phase.Gone?
      ensures lastActivity == if |sh.up.all| == |old(sh).up.all| && sent == old(sent) && sock.state == old(lastState)
                then old(lastActivity) else now
      ensures Silent(old(sh), old(writeBuf)) ==>
                |sh.up.all| == |old(sh).up.all| && sent == old(sent) && sock.room == old(sock).room && writeBuf == []
    {
      MoveUp(now);
      MoveDown(now);
    }

    /** Whether smoltcp needs the socket no longer. */
    method Reap() returns (removable: bool)
      requires Valid()
      modifies this`counters
      ensures Valid() && (removable <==> Removable(sock.state, sock.remote))
      ensures counters == old(counters).(removed := old(counters).removed + if removable then 1 else 0)
    {
      removable := Removable(sock.state, sock.remote);
      if removable {
        counters := counters.(removed := counters.removed + 1);
      }
    }

    /** Both directions, then the lifecycle. */
    method Work(now: int)
      requires Valid()
      modifies this
      ensures Valid() && DriveMay(old(sock).state, sock.state) && sock.remote == old(sock).remote
      ensures received == old(received) && Advanced(old(sh), sh)
      ensures EndsAs(old(counters), counters, old(sock).state, sock.state, Elapsed(now, lastActivity))
      ensures old(sock).state in CLIENT_DONE && sock.rx == [] ==> !sh.upSender
      ensures sh.upSender ==> sock.rx == [] || |sh.up.all| >= old(sh).up.taken + FLOW_QUEUE_CAP || !sh.phase.Working?
      ensures counters.backstops == old(counters).backstops ==>
                LossIs(old(sh), sh, old(mark), mark, old(out), out, old(writeBuf), writeBuf, MaySend(old(sock).state))
      ensures counters.backstops > old(counters).backstops ==>
                && Elapsed(now, old(lastActivity)) >= CLOSING_IDLE_LIMIT && old(sock).state == old(lastState)
                && |sh.up.all| == |old(sh).up.all| && sent == old(sent)
      ensures CanSend(sock) && sh.downReceiver ==> writeBuf == [] && sh.down.taken >= |old(sh).down.all|
      ensures !sh.downReceiver && !terminated ==> sh.ending.NormalEnd? && writeBuf != []
      ensures Finished(old(sh), old(writeBuf), old(terminated)) && Empties(old(sock)) ==>
                counters.fins > old(counters).fins
                && lastActivity == if old(sock).state == old(lastState) then old(lastActivity) else now
    {
      Move(now);
      ghost var m, mark1, out1, kept1 := sh, mark, out, writeBuf;
      End(now);
      EndAdvances(old(sh), m, sh);
      if counters.backstops == old(counters).backstops {
        EndKeepsLoss(old(sh), m, sh, (old(mark), mark1, mark), (old(out), out1, out), old(writeBuf), writeBuf,
                     MaySend(old(sock).state));
      }
    }

    /** One pass; answers whether the socket can go. */
    method DriveRelay(now: int) returns (removable: bool)
      requires Valid()
      modifies this
      ensures Valid() && DriveMay(old(sock).state, sock.state) && sock.remote == old(sock).remote
      ensures received == old(received) && Advanced(old(sh), sh)
      ensures removable <==> Removable(sock.state, sock.remote)
      ensures counters.removed == old(counters).removed + if removable then 1 else 0
      // The socket's state: nothing, the FIN or reset of an ended relay, or the back-stop.
      ensures EndsAs(old(counters), counters.(removed := old(counters).removed), old(sock).state, sock.state,
                     Elapsed(now, lastActivity))
      // Uplink: everything was handed over unless the channel filled up or the relay task stopped; then the end.
      ensures old(sock).state in CLIENT_DONE && sock.rx == [] ==> !sh.upSender
      ensures sh.upSender ==> sock.rx == [] || |sh.up.all| >= old(sh).up.taken + FLOW_QUEUE_CAP || !sh.phase.Working?
      // Downlink: exactly which output is given up.
      ensures counters.backstops == old(counters).backstops ==>
                LossIs(old(sh), sh, old(mark), mark, old(out), out, old(writeBuf), writeBuf, old(sock).state in SENDING)
      // The back-stop resets only a flow without activity for CLOSING_IDLE_LIMIT: this pass moved no byte either.
      ensures counters.backstops > old(counters).backstops ==>
                && Elapsed(now, old(lastActivity)) >= CLOSING_IDLE_LIMIT && old(sock).state == old(lastState)
                && |sh.up.all| == |old(sh).up.all| && sent == old(sent)
      // Everything that waited was sent if there was room.
      ensures CanSend(sock) && sh.downReceiver ==> writeBuf == [] && sh.down.taken >= |old(sh).down.all|
      // An ended relay's flow is terminated, or has bytes left to send.
      ensures !sh.downReceiver && !terminated ==> sh.ending.NormalEnd? && writeBuf != []
      // A relay that ended normally with nothing left to send is noticed in this pass.
      ensures Finished(old(sh), old(writeBuf), old(terminated)) && Empties(old(sock)) ==>
                counters.fins > old(counters).fins
                && lastActivity == if old(sock).state == old(lastState) then old(lastActivity) else now
    {
      Work(now);
      removable := Reap();
    }

    /** A pass over a flow whose transmit half is not open gives up everything that waits. */
    method PassDiscards(now: int)
      requires Valid() && !MaySend(sock.state) && sh.downReceiver && writeBuf == [] && !Drained(sh.down)
      requires Elapsed(now, lastActivity) < CLOSING_IDLE_LIMIT
      modifies this
      ensures Valid() && old(sh).down.all <= sh.down.all && mark >= |old(sh).down.all| > old(sh).down.taken && out == []
    {
      ghost var s := sh;
      var removable := DriveRelay(now);
      WaitingIsLost(s, sh, old(mark), mark, old(out), out, writeBuf);
    }

    /**
     The end of a relay that ended normally: the client gets the FIN exactly when something moved in the last
     CLOSING_IDLE_LIMIT. After a longer silence the back-stop turns the FIN into a reset in the same pass.
     */
    method PassFinishes(now: int)
      requires Valid() && sock.state == lastState && sock.state in {SynReceived, Established, CloseWait}
      requires Finished(sh, writeBuf, terminated) && Empties(sock)
      modifies this
      ensures Valid() && terminated && counters.fins == 1
      ensures var idle := Elapsed(now, old(lastActivity)) >= CLOSING_IDLE_LIMIT;
              && sock.state == (if idle then Closed else if old(sock).state.CloseWait? then LastAck else FinWait1)
              && counters.backstops == old(counters).backstops + if idle then 1 else 0
    {
      var removable := DriveRelay(now);
    }

    /** smoltcp polls: bytes may arrive, acknowledgements free room, the state moves on. */
    method Poll(next: Sock, arrived: Bytes)
      requires Valid() && PollMay(sock, next, arrived)
      modifies this`sock, this`received
      ensures Valid() && sock == next && received == old(received) + arrived
    {
      sock, received := next, received + arrived;
    }

    /** Any run: polls, passes and cuts in any order, the relay task running whenever its script says. */
    method Run(events: seq<Event>)
      requires Valid()
      modifies this
      ensures Valid()
    {
      for i := 0 to |events|
        invariant Valid()
      {
        match events[i]
        case Polled(next, arrived) =>
          if PollMay(sock, next, arrived) {
            Poll(next, arrived);
          }
        case Pass(now) =>
          var removable := DriveRelay(now);
          if removable {
            return;
          }
        case Cut => Abort();
        case TaskRuns => Meanwhile();
      }
    }
  }

  datatype Event = Polled(next: Sock, arrived: Bytes) | Pass(now: int) | Cut | TaskRuns

  // ---- what holds in every reachable state ----

  lemma {:induction false} FlatSplit(chunks: seq<Bytes>, n: nat)
    requires n <= |chunks|
    ensures Flat(chunks) == Flat(chunks[..n]) + Flat(chunks[n..])
    decreases |chunks|
  {
    if n == |chunks| {
      assert chunks[..n] == chunks;
    } else {
      var init := chunks[..|chunks| - 1];
      FlatSplit(init, n);
      assert init[..n] == chunks[..n] && chunks[n..][..|chunks| - 1 - n] == init[n..];
    }
  }

  /** What the relay task has read from the client is a prefix of what the client sent, in order. */
  lemma {:induction false} UplinkInOrder(f: Flow)
    requires f.Valid()
    ensures Flat(f.sh.up.all[..f.sh.up.taken]) <= f.received
  {
    FlatSplit(f.sh.up.all, f.sh.up.taken);
  }

  /**
   A running task sees end of stream only when it has read every byte the client sent and the
   client is done, unless the flow was cut.
   */
  lemma {:induction false} EofAfterEverything(f: Flow)
    requires f.Valid() && SeesEof(f.sh)
    ensures f.aborted || (Flat(f.sh.up.all[..f.sh.up.taken]) == f.received && PeerDone(f.sock.state))
  {
    assert f.sh.up.all[..f.sh.up.taken] == f.sh.up.all;
  }

  /**
   Downlink, in every flow: since output was last given up, sent, then kept, then queued is exactly
   the relay task's output.
   */
  lemma {:induction false} DownlinkExact(f: Flow)
    requires f.Valid()
    ensures f.mark <= f.sh.down.taken <= |f.sh.down.all|
    ensures Flat(f.sh.down.all[f.mark..]) == f.out + f.writeBuf + Flat(f.sh.down.all[f.sh.down.taken..])
  {
    var all, n := f.sh.down.all, f.sh.down.taken - f.mark;
    FlatSplit(all[f.mark..], n);
    assert all[f.mark..][..n] == all[f.mark..f.sh.down.taken] && all[f.mark..][n..] == all[f.sh.down.taken..];
  }

  /**
   A lifecycle FIN follows a normal end, never a failure or panic, and only once the whole output
   was sent; a reset the other way round.
   */
  lemma {:induction false} LifecycleTells(f: Flow)
    requires f.Valid()
    ensures f.counters.fins + f.counters.resets <= 1
    ensures f.counters.fins == 1 ==>
              f.sh.ending.NormalEnd? && f.mark <= |f.sh.down.all| && f.out == Flat(f.sh.down.all[f.mark..])
    ensures f.counters.resets == 1 ==> f.sh.ending.BadEnd?
  {
    if f.counters.fins == 1 {
      assert f.sh.down.all[f.mark..f.sh.down.taken] == f.sh.down.all[f.mark..];
    }
  }

  /**
   Output that arrives before the client's handshake is complete is lost: a chunk queued while
   the socket is in SYN-RECEIVED is discarded by the next pass, although the transmit half is
   about to open.
   */
  method OutputBeforeHandshakeIsLost(chunk: Bytes, remote: bool, now: int) returns (f: Flow)
    requires 0 < |chunk| <= MAX_CHUNK
    ensures fresh(f) && f.Valid() && |f.sh.down.all| > 0 && f.sh.down.all[0] == chunk && f.mark > 0 && f.out == []
  {
    f := new Flow(Sock(SynReceived, [], MAX_CHUNK, remote), now, [[Send(chunk)]]);
    f.Meanwhile();
    SendsOne(chunk);
    f.PassDiscards(now);
  }

  /** A relay that ends normally a minute after its flow was accepted: the client gets a reset, not a FIN. */
  method IdleEndIsReset(room: nat, now: int) returns (f: Flow)
    ensures fresh(f) && f.Valid() && f.sock.state.Closed? && f.counters.fins == f.counters.backstops == 1
  {
    f := new Flow(Sock(SynReceived, [], room, true), now, [[Finish(true), Store, DropGuard]]);
    f.Meanwhile();
    EndsWell();
    f.PassFinishes(now + CLOSING_IDLE_LIMIT);
  }

  lemma {:induction false} EndsWell()
    ensures DoAll(NEW_SHARED, [Finish(true), Store, DropGuard])
         == NEW_SHARED.(phase := Gone, ending := NormalEnd, outcome := EndedOk)
  {
    var steps := [Finish(true), Store, DropGuard];
    assert steps[1..] == [Store, DropGuard] && steps[1..][1..] == [DropGuard] && steps[1..][1..][1..] == [];
    var a := Do(NEW_SHARED, Finish(true));
    var b := Do(a, Store);
    assert DoAll(b, [DropGuard]) == DoAll(Do(b, DropGuard), []);
  }

  lemma {:induction false} SendsOne(chunk: Bytes)
    requires 0 < |chunk| <= MAX_CHUNK
    ensures DoAll(NEW_SHARED, [Send(chunk)]) == NEW_SHARED.(down := Channel([chunk], 0))
  {
    assert [Send(chunk)][1..] == [] && [] + [chunk] == [chunk];
    assert DoAll(Do(NEW_SHARED, Send(chunk)), []) == Do(NEW_SHARED, Send(chunk));
  }

  /** What does not fit is less than a chunk, so keeping it never reaches the cap. */
  lemma {:induction false} CapNeverReached(f: Flow, data: Bytes, n: nat)
    requires f.Valid() && (data == f.writeBuf || data in f.sh.down.all) && n <= |data|
    ensures |data[n..]| <= MAX_CHUNK && |f.writeBuf| + |data[n..]| < FLOW_WRITE_BUF_CAP
  {
  }
}

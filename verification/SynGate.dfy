/**
 The SYN gate in front of smoltcp's receive path (`bare_syn`, `SynGate`,
 `GatedDevice::receive`, client/src/net_stack.rs).

 `Gate` is the value of the gate; the class carries it through the source's methods. The
 device's `transmit` always yields a token (`TunDevice::transmit`), so an admitted packet is
 always delivered.
 */
module SynGate {
  import opened Common
  import opened Tcp

  const SYN_DEFER_CAP: nat := 1024
  const SYN_DEFER_LIMIT: nat := 1000

  function U16(hi: Octet, lo: Octet): Port { hi * 256 + lo }

  /** A bare SYN in an unfragmented IPv4/TCP packet: the resource it is for, and its connection. */
  function BareSyn(p: Bytes): (r: Option<(ResourceKey, ConnTuple)>)
    ensures r.Some? ==> r.value.0 == (r.value.1.0, r.value.1.1)
  {
    if |p| < 20 || p[0] / 16 != 4 then None
    else
      var ihl := p[0] % 16 * 4;
      if ihl < 20 || |p| < ihl + 20 || p[9] != 6 then None
      else if U16(p[6], p[7]) % 0x4000 != 0 then None
      else
        var src, dst := Address(p[12], p[13], p[14], p[15]), Address(p[16], p[17], p[18], p[19]);
        var sport, dport := U16(p[ihl], p[ihl + 1]), U16(p[ihl + 2], p[ihl + 3]);
        var flags := p[ihl + 13];
        if flags / 2 % 2 == 0 || flags / 4 % 2 == 1 || flags / 16 % 2 == 1 then None
        else Some(((dst, dport), (dst, dport, src, sport)))
  }

  /** A held packet and when it was first held. */
  datatype Held = Held(pkt: Bytes, since: int)

  datatype Stats = Stats(deferred: nat, duplicates: nat, overflow: nat)

  datatype Gate = Gate(
    free: map<ResourceKey, nat>,
    owned: set<ConnTuple>,
    deferred: seq<Held>,
    retry: seq<Held>,
    progressed: bool,
    stats: Stats)

  /** Which packets are SYNs; the device uses `BareSyn`, the claims hold for any recogniser. */
  type SynOf = Bytes -> Option<(ResourceKey, ConnTuple)>

  datatype Verdict = Deliver | Duplicate | Hold | Overflow

  function Judge(syn: SynOf, g: Gate, pkt: Bytes, heldSince: Option<int>, now: int): Verdict
  {
    match syn(pkt)
    case None => Deliver
    case Some((key, tuple)) =>
      if tuple in g.owned then Duplicate
      else if key !in g.free || g.free[key] > 0 then Deliver
      else
        var since := if heldSince.Some? then heldSince.value else now;
        if |g.deferred| >= SYN_DEFER_CAP || Elapsed(now, since) > SYN_DEFER_LIMIT then Overflow else Hold
  }

  /** The gate after `admit`. */
  function Admitted(syn: SynOf, g: Gate, pkt: Bytes, heldSince: Option<int>, now: int): Gate
  {
    match Judge(syn, g, pkt, heldSince, now)
    case Duplicate => g.(stats := g.stats.(duplicates := g.stats.duplicates + 1))
    case Overflow => g.(stats := g.stats.(overflow := g.stats.overflow + 1))
    case Hold =>
      g.(deferred := g.deferred + [Held(pkt, if heldSince.Some? then heldSince.value else now)],
         stats := if heldSince.None? then g.stats.(deferred := g.stats.deferred + 1) else g.stats)
    case Deliver =>
      match syn(pkt)
      case None => g
      case Some((key, tuple)) =>
        if key !in g.free then g
        else g.(free := g.free[key := g.free[key] - 1], owned := g.owned + {tuple}, progressed := true)
  }

  /** A packet offered to the gate, with when it was first held, if it was. */
  datatype Item = Item(pkt: Bytes, since: Option<int>)

  /** What a poll offers, in order: the held packets, then the device's queue. */
  function Queue(g: Gate, inner: seq<Bytes>): (q: seq<Item>)
    ensures |q| == |g.retry| + |inner|
  {
    seq(|g.retry| + |inner|, i requires 0 <= i < |g.retry| + |inner| =>
      if i < |g.retry| then Item(g.retry[i].pkt, Some(g.retry[i].since)) else Item(inner[i - |g.retry|], None))
  }

  /** Offering items in turn: the gate afterwards and what reached smoltcp. */
  function Offer(syn: SynOf, g: Gate, items: seq<Item>, now: int): (Gate, seq<Bytes>)
    decreases |items|
  {
    if items == [] then (g, [])
    else
      var x := items[0];
      var (g2, out) := Offer(syn, Admitted(syn, g, x.pkt, x.since, now), items[1..], now);
      (g2, if Judge(syn, g, x.pkt, x.since, now) == Deliver then [x.pkt] + out else out)
  }

  /** One poll. */
  function Poll(syn: SynOf, g: Gate, inner: seq<Bytes>, now: int): (Gate, seq<Bytes>)
  {
    Offer(syn, g.(retry := []), Queue(g, inner), now)
  }

  /** A poll with one packet taken from the queue and offered. */
  lemma {:induction false} PollPop(syn: SynOf, g: Gate, inner: seq<Bytes>, g1: Gate, rest: seq<Bytes>, x: Item,
                                   now: int)
    requires g1.(retry := []) == g.(retry := []) && Queue(g, inner) == [x] + Queue(g1, rest)
    ensures var g2 := Admitted(syn, g1, x.pkt, x.since, now);
            var (g', out) := Poll(syn, g2, rest, now);
            Poll(syn, g, inner, now)
                == (g', if Judge(syn, g1, x.pkt, x.since, now) == Deliver then [x.pkt] + out else out)
  {
  }

  function Prepared(g: Gate, free: map<ResourceKey, nat>, owned: set<ConnTuple>): Gate
  {
    g.(free := free, owned := owned, retry := g.retry + g.deferred, deferred := [], progressed := false)
  }

  // ---- the source's methods ----

  /** A socket as the gate reads it. */
  datatype Socket = Socket(state: TcpState, local: Option<ResourceKey>, remote: Option<ResourceKey>)

  predicate OwnsTuple(s: Socket) { (s.state.SynReceived? || s.state.Established?) && s.local.Some? && s.remote.Some? }

  function TupleOf(s: Socket): ConnTuple
    requires OwnsTuple(s)
  {
    (s.local.value.0, s.local.value.1, s.remote.value.0, s.remote.value.1)
  }

  /** The socket owns the connection: half-open or established, with both ends known. */
  predicate Owns(s: Socket, t: ConnTuple)
  {
    s.state in {SynReceived, Established} && s.local == Some((t.0, t.1)) && s.remote == Some((t.2, t.3))
  }

  function CountListening(sockets: map<nat, Socket>, pool: seq<nat>): nat
    requires forall h :: h in pool ==> h in sockets
    decreases |pool|
  {
    if pool == [] then 0
    else CountListening(sockets, pool[..|pool| - 1]) + if sockets[pool[|pool| - 1]].state.Listen? then 1 else 0
  }

  ghost predicate KnownHandles(sockets: map<nat, Socket>, pools: map<ResourceKey, seq<nat>>, relays: set<nat>)
  {
    && (forall k, h :: k in pools && h in pools[k] ==> h in sockets)
    && (forall h :: h in relays ==> h in sockets)
  }

  class GateDevice {
    const syn: SynOf
    var g: Gate

    constructor ()
      ensures syn == BareSyn && g == Gate(map[], {}, [], [], false, Stats(0, 0, 0))
    {
      syn := BareSyn;
      g := Gate(map[], {}, [], [], false, Stats(0, 0, 0));
    }

    /** Free listeners per resource, and the 4-tuples that half-open and established sockets own. */
    method Prepare(sockets: map<nat, Socket>, pools: map<ResourceKey, seq<nat>>, relays: set<nat>)
      requires KnownHandles(sockets, pools, relays)
      modifies this
      ensures g == Prepared(old(g), g.free, g.owned)
      ensures g.free.Keys == pools.Keys && forall k :: k in pools ==> g.free[k] == CountListening(sockets, pools[k])
      ensures forall t :: t in g.owned <==> exists h :: h in relays && Owns(sockets[h], t)
    {
      var free: map<ResourceKey, nat> := map[];
      var todo := pools.Keys;
      while todo != {}
        invariant todo <= pools.Keys && free.Keys == pools.Keys - todo
        invariant forall k :: k in free ==> free[k] == CountListening(sockets, pools[k])
        decreases todo
      {
        var k :| k in todo;
        var n := 0;
        for i := 0 to |pools[k]|
          invariant n == CountListening(sockets, pools[k][..i])
        {
          assert pools[k][..i + 1][..i] == pools[k][..i];
          if sockets[pools[k][i]].state.Listen? {
            n := n + 1;
          }
        }
        assert pools[k][..|pools[k]|] == pools[k];
        free := free[k := n];
        todo := todo - {k};
      }
      var owned: set<ConnTuple> := {};
      var left := relays;
      while left != {}
        invariant left <= relays
        invariant forall t :: t in owned <==> exists h :: h in relays - left && Owns(sockets[h], t)
        decreases left
      {
        var h :| h in left;
        ghost var before := left;
        left := left - {h};
        assert relays - left == (relays - before) + {h};
        if OwnsTuple(sockets[h]) {
          owned := owned + {TupleOf(sockets[h])};
        }
      }
      assert relays - left == relays;
      g := g.(free := free, owned := owned, retry := g.retry + g.deferred, deferred := [], progressed := false);
    }

    /** `admit`: whether the packet goes to smoltcp now. */
    method Admit(pkt: Bytes, heldSince: Option<int>, now: int) returns (pass: bool)
      modifies this
      ensures g == Admitted(syn, old(g), pkt, heldSince, now)
      ensures pass <==> Judge(syn, old(g), pkt, heldSince, now) == Deliver
    {
      var found := syn(pkt);
      if found.None? {
        return true;
      }
      var (key, tuple) := found.value;
      if tuple in g.owned {
        g := g.(stats := g.stats.(duplicates := g.stats.duplicates + 1));
        return false;
      }
      if key !in g.free {
        return true;
      }
      if g.free[key] > 0 {
        g := g.(free := g.free[key := g.free[key] - 1], owned := g.owned + {tuple}, progressed := true);
        return true;
      }
      var since := if heldSince.Some? then heldSince.value else now;
      if |g.deferred| >= SYN_DEFER_CAP || Elapsed(now, since) > SYN_DEFER_LIMIT {
        g := g.(stats := g.stats.(overflow := g.stats.overflow + 1));
        return false;
      }
      if heldSince.None? {
        g := g.(stats := g.stats.(deferred := g.stats.deferred + 1));
      }
      g := g.(deferred := g.deferred + [Held(pkt, since)]);
      return false;
    }

    /** The next packet to offer: held ones first, then the device's queue. */
    method Next(inner: seq<Bytes>) returns (x: Option<Item>, rest: seq<Bytes>)
      modifies this
      ensures g.(retry := []) == old(g).(retry := [])
      ensures x.Some? ==> Queue(old(g), inner) == [x.value] + Queue(g, rest)
      ensures x.None? ==> g == old(g) && g.retry == [] && inner == rest == []
    {
      if g.retry != [] {
        x, rest := Some(Item(g.retry[0].pkt, Some(g.retry[0].since))), inner;
        g := g.(retry := g.retry[1..]);
      } else if inner != [] {
        x, rest := Some(Item(inner[0], None)), inner[1..];
      } else {
        x, rest := None, [];
      }
    }

    /** `receive`: the next packet for smoltcp, if any; `rest` is what is left of the device's queue. */
    method Receive(inner: seq<Bytes>, now: int) returns (pkt: Option<Bytes>, rest: seq<Bytes>)
      modifies this
      ensures pkt.Some? ==>
                Poll(syn, old(g), inner, now) == (Poll(syn, g, rest, now).0, [pkt.value] + Poll(syn, g, rest, now).1)
      ensures pkt.Some? ==> |Queue(g, rest)| < |Queue(old(g), inner)|
      ensures pkt.None? ==> Poll(syn, old(g), inner, now) == (g, []) && g.retry == [] && rest == []
    {
      rest := inner;
      while true
        invariant Poll(syn, old(g), inner, now) == Poll(syn, g, rest, now)
        invariant |Queue(g, rest)| <= |Queue(old(g), inner)|
        decreases |Queue(g, rest)|
      {
        ghost var before, was := g, rest;
        var x;
        x, rest := Next(rest);
        if x.None? {
          return None, [];
        }
        PollPop(syn, before, was, g, rest, x.value, now);
        var pass := Admit(x.value.pkt, x.value.since, now);
        if pass {
          return Some(x.value.pkt), rest;
        }
      }
    }
  }

  // ---- what a SYN looks like ----

  /**
   A TCP segment in an IPv4 packet. `start` is type of service, length and identification, `frag`
   the flags and fragment offset, `seqs` the sequence numbers and data offset, `rest` the window
   and all that follows.
   */
  datatype Segment = Segment(tuple: ConnTuple, start: Bytes, frag: (Octet, Octet), ttl: Octet, checksum: Bytes,
                             options: Bytes, seqs: Bytes, flags: Octet, rest: Bytes)

  predicate IsSegment(x: Segment)
  {
    && |x.start| == 5 && |x.checksum| == 2 && |x.seqs| == 9 && |x.rest| >= 6
    && |x.options| % 4 == 0 && |x.options| <= 40
  }

  /** The first 20 octets. */
  function IpHeader(x: Segment): (h: Bytes)
    requires IsSegment(x)
    ensures |h| == 20
  {
    [69 + |x.options| / 4] + x.start + [x.frag.0, x.frag.1, x.ttl, 6] + x.checksum + Octets(x.tuple.2)
        + Octets(x.tuple.0)
  }

  function TcpPart(x: Segment): (t: Bytes)
    requires IsSegment(x)
    ensures |t| >= 20
  {
    [x.tuple.3 / 256, x.tuple.3 % 256, x.tuple.1 / 256, x.tuple.1 % 256] + x.seqs + [x.flags] + x.rest
  }

  function Wire(x: Segment): Bytes
    requires IsSegment(x)
  {
    IpHeader(x) + x.options + TcpPart(x)
  }

  /** More fragments follow, or the offset is not 0. */
  predicate IsFragment(x: Segment) { x.frag.0 % 64 != 0 || x.frag.1 != 0 }

  /** SYN set, RST and ACK clear, whatever the other flags. */
  predicate SynFlags(f: Octet) { f / 2 % 2 == 1 && f / 4 % 2 == 0 && f / 16 % 2 == 0 }

  lemma {:induction false} HeaderAt(x: Segment)
    requires IsSegment(x)
    ensures var h := IpHeader(x);
            && h[0] == 69 + |x.options| / 4 && h[6] == x.frag.0 && h[7] == x.frag.1 && h[9] == 6
            && Address(h[12], h[13], h[14], h[15]) == x.tuple.2 && Address(h[16], h[17], h[18], h[19]) == x.tuple.0
  {
    var o, q := Octets(x.tuple.2), Octets(x.tuple.0);
    var h := IpHeader(x);
    assert h[12..16] == o && h[16..20] == q;
    assert h[12] == o[0] && h[13] == o[1] && h[14] == o[2] && h[15] == o[3];
    assert h[16] == q[0] && h[17] == q[1] && h[18] == q[2] && h[19] == q[3];
  }

  lemma {:induction false} WireAt(x: Segment)
    requires IsSegment(x)
    ensures var p, ihl := Wire(x), 20 + |x.options|;
            && |p| >= ihl + 20 && p[..20] == IpHeader(x) && p[ihl..] == TcpPart(x)
  {
  }

  lemma {:induction false} HeaderLength(n: nat)
    requires n % 4 == 0 && n <= 40
    ensures (69 + n / 4) / 16 == 4 && (69 + n / 4) % 16 * 4 == 20 + n
  {
    var m := n / 4;
    assert n == 4 * m && (69 + m) % 16 == 5 + m;
  }

  lemma {:induction false} FragmentBits(hi: Octet, lo: Octet)
    ensures U16(hi, lo) % 0x4000 != 0 <==> hi % 64 != 0 || lo != 0
  {
    var q, r := hi / 64, hi % 64;
    assert hi == 64 * q + r;
    assert U16(hi, lo) == 0x4000 * q + (256 * r + lo);
  }

  lemma {:induction false} PortOctets(port: Port)
    ensures U16(port / 256, port % 256) == port
  {
  }

  /** The fields of a packet as the gate reads them. */
  lemma {:induction false} WireFields(x: Segment)
    requires IsSegment(x)
    ensures var p, ihl := Wire(x), 20 + |x.options|;
            && |p| >= ihl + 20 && p[0] / 16 == 4 && p[0] % 16 * 4 == ihl && p[9] == 6 && p[6] == x.frag.0
                && p[7] == x.frag.1
            && Address(p[12], p[13], p[14], p[15]) == x.tuple.2 && Address(p[16], p[17], p[18], p[19]) == x.tuple.0
            && U16(p[ihl], p[ihl + 1]) == x.tuple.3 && U16(p[ihl + 2], p[ihl + 3]) == x.tuple.1
                && p[ihl + 13] == x.flags
  {
    var p, ihl, h, t := Wire(x), 20 + |x.options|, IpHeader(x), TcpPart(x);
    WireAt(x);
    HeaderAt(x);
    HeaderLength(|x.options|);
    PortOctets(x.tuple.3);
    PortOctets(x.tuple.1);
    assert forall i :: 0 <= i < 20 ==> p[i] == p[..20][i];
    assert p[ihl] == t[0] && p[ihl + 1] == t[1] && p[ihl + 2] == t[2] && p[ihl + 3] == t[3] && p[ihl + 13] == t[13];
  }

  /**
   A segment is taken for a SYN exactly when it is no fragment and a SYN without RST and ACK, and
   then with its resource and connection.
   */
  lemma {:induction false} SynExactly(x: Segment)
    requires IsSegment(x)
    ensures BareSyn(Wire(x)) == if !IsFragment(x) && SynFlags(x.flags) then Some(((x.tuple.0, x.tuple.1), x.tuple))
              else None
  {
    WireFields(x);
    FragmentBits(x.frag.0, x.frag.1);
  }

  lemma {:induction false} FirstOctet(b: Octet)
    requires b / 16 == 4 && b % 16 * 4 >= 20
    ensures var n := b % 16 * 4 - 20;
            n % 4 == 0 && n <= 40 && 69 + n / 4 == b
  {
    var m := b % 16;
    assert b == 64 + m && b % 16 * 4 - 20 == 4 * (m - 5);
  }

  /** The segment a packet with a header of `ihl` octets encodes. */
  function SegmentOf(p: Bytes, ihl: nat): Segment
    requires 20 <= ihl && ihl + 20 <= |p|
  {
    var src, dst := Address(p[12], p[13], p[14], p[15]), Address(p[16], p[17], p[18], p[19]);
    var sport, dport := U16(p[ihl], p[ihl + 1]), U16(p[ihl + 2], p[ihl + 3]);
    Segment((dst, dport, src, sport), p[1..6], (p[6], p[7]), p[8], p[10..12], p[20..ihl], p[ihl + 4..ihl + 13],
            p[ihl + 13], p[ihl + 14..])
  }

  lemma {:induction false} SameHeader(p: Bytes, ihl: nat)
    requires 20 <= ihl <= 60 && ihl + 20 <= |p| && ihl % 4 == 0 && p[0] == 69 + (ihl - 20) / 4 && p[9] == 6
    ensures IsSegment(SegmentOf(p, ihl)) && IpHeader(SegmentOf(p, ihl)) == p[..20]
  {
    OctetsOf(p[12], p[13], p[14], p[15]);
    OctetsOf(p[16], p[17], p[18], p[19]);
    assert p[..20] == [p[0]] + p[1..6] + [p[6], p[7], p[8], p[9]] + p[10..12]
                      + [p[12], p[13], p[14], p[15]] + [p[16], p[17], p[18], p[19]];
  }

  lemma {:induction false} SameTcp(p: Bytes, ihl: nat)
    requires 20 <= ihl && ihl + 20 <= |p| && IsSegment(SegmentOf(p, ihl))
    ensures TcpPart(SegmentOf(p, ihl)) == p[ihl..]
  {
    U16Octets(p[ihl], p[ihl + 1]);
    U16Octets(p[ihl + 2], p[ihl + 3]);
    assert p[ihl..] == [p[ihl], p[ihl + 1], p[ihl + 2], p[ihl + 3]] + p[ihl + 4..ihl + 13] + [p[ihl + 13]]
        + p[ihl + 14..];
  }

  lemma {:induction false} U16Octets(hi: Octet, lo: Octet)
    ensures U16(hi, lo) / 256 == hi && U16(hi, lo) % 256 == lo
  {
  }

  lemma {:induction false} SameWire(p: Bytes, ihl: nat)
    requires 20 <= ihl <= 60 && ihl + 20 <= |p| && ihl % 4 == 0 && p[0] == 69 + (ihl - 20) / 4 && p[9] == 6
    ensures IsSegment(SegmentOf(p, ihl)) && Wire(SegmentOf(p, ihl)) == p
  {
    SameHeader(p, ihl);
    SameTcp(p, ihl);
    ThreeParts(p, ihl);
    var x := SegmentOf(p, ihl);
    assert x.options == p[20..ihl];
  }

  lemma {:induction false} ThreeParts(p: Bytes, n: nat)
    requires 20 <= n <= |p|
    ensures p == p[..20] + p[20..n] + p[n..]
  {
  }

  lemma {:induction false} SynFields(p: Bytes) returns (ihl: nat)
    requires BareSyn(p).Some?
    ensures 20 <= ihl <= 60 && ihl + 20 <= |p| && ihl % 4 == 0 && p[0] == 69 + (ihl - 20) / 4 && p[9] == 6
    ensures p[6] % 64 == 0 && p[7] == 0 && SynFlags(p[ihl + 13])
    ensures BareSyn(p).value.1 == SegmentOf(p, ihl).tuple
  {
    ihl := p[0] % 16 * 4;
    FirstOctet(p[0]);
    FragmentBits(p[6], p[7]);
  }

  /** Whatever is taken for a SYN is such a segment. */
  lemma {:induction false} SynOnly(p: Bytes) returns (x: Segment)
    requires BareSyn(p).Some?
    ensures IsSegment(x) && Wire(x) == p && !IsFragment(x) && SynFlags(x.flags) && BareSyn(p).value.1 == x.tuple
  {
    var ihl := SynFields(p);
    SameWire(p, ihl);
    x := SegmentOf(p, ihl);
  }

  // ---- one poll ----

  function CountHeld(items: seq<Item>): nat
    decreases |items|
  {
    if items == [] then 0 else CountHeld(items[1..]) + if items[0].since.Some? then 1 else 0
  }

  /** Held packets come before new ones. */
  ghost predicate HeldFirst(items: seq<Item>)
  {
    forall i, j :: 0 <= i < j < |items| && items[j].since.Some? ==> items[i].since.Some?
  }

  /** Held packets, waiting or still to be offered again, are at most SYN_DEFER_CAP. */
  ghost predicate Room(g: Gate, items: seq<Item>)
  {
    HeldFirst(items) && CountHeld(items) + |g.deferred| <= SYN_DEFER_CAP
  }

  lemma {:induction false} NoneHeld(items: seq<Item>)
    requires forall i :: 0 <= i < |items| ==> items[i].since.None?
    ensures CountHeld(items) == 0
    decreases |items|
  {
    if items != [] { NoneHeld(items[1..]); }
  }

  /**
   Offering the next packet keeps the bound; a held one is dropped only when held too long, never
   for want of room.
   */
  lemma {:induction false} OfferKeepsRoom(syn: SynOf, g: Gate, items: seq<Item>, now: int)
    requires items != [] && Room(g, items)
    ensures var x := items[0];
            && Room(Admitted(syn, g, x.pkt, x.since, now), items[1..])
            && (x.since.Some? && Judge(syn, g, x.pkt, x.since, now) == Overflow ==>
                Elapsed(now, x.since.value) > SYN_DEFER_LIMIT)
  {
    if items[0].since.None? { NoneHeld(items[1..]); }
  }

  lemma {:induction false} OfferAllKeepsRoom(syn: SynOf, g: Gate, items: seq<Item>, now: int)
    requires Room(g, items)
    ensures |Offer(syn, g, items, now).0.deferred| <= SYN_DEFER_CAP
    ensures Offer(syn, g, items, now).0.retry == g.retry
    decreases |items|
  {
    if items != [] {
      var x := items[0];
      OfferKeepsRoom(syn, g, items, now);
      OfferAllKeepsRoom(syn, Admitted(syn, g, x.pkt, x.since, now), items[1..], now);
    }
  }

  lemma {:induction false} QueueHeld(g: Gate, inner: seq<Bytes>)
    ensures HeldFirst(Queue(g, inner)) && CountHeld(Queue(g, inner)) == |g.retry|
    decreases |g.retry|
  {
    var q := Queue(g, inner);
    if g.retry == [] {
      NoneHeld(q);
    } else {
      var g1 := g.(retry := g.retry[1..]);
      assert q[1..] == Queue(g1, inner);
      QueueHeld(g1, inner);
    }
  }

  /** Across polls, the gate never holds more than SYN_DEFER_CAP packets, at every point of a poll. */
  lemma {:induction false} PollKeepsBound(syn: SynOf, g: Gate, inner: seq<Bytes>, now: int)
    requires |g.retry| + |g.deferred| <= SYN_DEFER_CAP
    ensures Room(g.(retry := []), Queue(g, inner))
    ensures |Poll(syn, g, inner, now).0.deferred| <= SYN_DEFER_CAP && Poll(syn, g, inner, now).0.retry == []
  {
    QueueHeld(g, inner);
    OfferAllKeepsRoom(syn, g.(retry := []), Queue(g, inner), now);
  }

  /** The gate when the i-th item is judged. */
  function GateAt(syn: SynOf, g: Gate, items: seq<Item>, now: int, i: nat): Gate
    requires i <= |items|
    decreases i
  {
    if i == 0 then g else GateAt(syn, Admitted(syn, g, items[0].pkt, items[0].since, now), items[1..], now, i - 1)
  }

  /**
   In any poll, a packet held before is dropped only as a duplicate or because it was held too
   long, never for want of room.
   */
  lemma {:induction false} HeldNeverDroppedForRoom(syn: SynOf, g: Gate, items: seq<Item>, now: int, i: nat)
    requires Room(g, items) && i < |items| && items[i].since.Some?
    ensures Judge(syn, GateAt(syn, g, items, now, i), items[i].pkt, items[i].since, now) == Overflow ==>
              Elapsed(now, items[i].since.value) > SYN_DEFER_LIMIT
    decreases i
  {
    OfferKeepsRoom(syn, g, items, now);
    if i > 0 {
      HeldNeverDroppedForRoom(syn, Admitted(syn, g, items[0].pkt, items[0].since, now), items[1..], now, i - 1);
    }
  }

  /** SYNs for resource `k` among the delivered packets. */
  function SynsFor(syn: SynOf, out: seq<Bytes>, k: ResourceKey): nat
    decreases |out|
  {
    if out == [] then 0
    else SynsFor(syn, out[1..], k) + if syn(out[0]).Some? && syn(out[0]).value.0 == k then 1 else 0
  }

  /** A poll lets in, per resource, exactly as many SYNs as it uses up free listeners, never more than there are. */
  lemma {:induction false} WithinListeners(syn: SynOf, g: Gate, items: seq<Item>, now: int, k: ResourceKey)
    requires k in g.free
    ensures var (g', out) := Offer(syn, g, items, now);
            && k in g'.free && SynsFor(syn, out, k) + g'.free[k] == g.free[k]
    decreases |items|
  {
    if items != [] {
      var x := items[0];
      var g2 := Admitted(syn, g, x.pkt, x.since, now);
      WithinListeners(syn, g2, items[1..], now, k);
      var out := Offer(syn, g2, items[1..], now).1;
      assert ([x.pkt] + out)[1..] == out;
    }
  }

  ghost predicate NoneOwned(syn: SynOf, out: seq<Bytes>, owned: set<ConnTuple>)
  {
    forall i :: 0 <= i < |out| && syn(out[i]).Some? ==> syn(out[i]).value.1 !in owned
  }

  /** Among SYNs for resources, no connection appears twice. */
  ghost predicate OncePerConnection(syn: SynOf, out: seq<Bytes>, resources: set<ResourceKey>)
  {
    forall i, j :: 0 <= i < j < |out| && syn(out[i]).Some? && syn(out[j]).Some? && syn(out[i]).value.0 in resources ==>
      syn(out[i]).value.1 != syn(out[j]).value.1
  }

  lemma {:induction false} PrependOnce(syn: SynOf, pkt: Bytes, out: seq<Bytes>, g: Gate, g2: Gate)
    requires NoneOwned(syn, out, g2.owned) && OncePerConnection(syn, out, g.free.Keys) && g.owned <= g2.owned
    requires syn(pkt).Some? ==> syn(pkt).value.1 !in g.owned
    requires syn(pkt).Some? && syn(pkt).value.0 in g.free ==> syn(pkt).value.1 in g2.owned
    ensures NoneOwned(syn, [pkt] + out, g.owned) && OncePerConnection(syn, [pkt] + out, g.free.Keys)
  {
  }

  /** No delivered SYN is for a connection already owned, and per connection at most one gets in. */
  lemma {:induction false} AtMostOncePerConnection(syn: SynOf, g: Gate, items: seq<Item>, now: int)
    ensures NoneOwned(syn, Offer(syn, g, items, now).1, g.owned)
    ensures OncePerConnection(syn, Offer(syn, g, items, now).1, g.free.Keys)
    decreases |items|
  {
    if items != [] {
      var x := items[0];
      var g2 := Admitted(syn, g, x.pkt, x.since, now);
      AtMostOncePerConnection(syn, g2, items[1..], now);
      assert g2.free.Keys == g.free.Keys && g.owned <= g2.owned;
      if Judge(syn, g, x.pkt, x.since, now) == Deliver {
        PrependOnce(syn, x.pkt, Offer(syn, g2, items[1..], now).1, g, g2);
      }
    }
  }

  /**
   Every poll, whatever is held and whatever arrives: per resource no more SYNs get in than
   it has sockets listening, none for a connection a socket owns, and one per connection.
   */
  lemma {:induction false} PollIsSafe(syn: SynOf, g: Gate, inner: seq<Bytes>, now: int, k: ResourceKey)
    ensures k in g.free ==> SynsFor(syn, Poll(syn, g, inner, now).1, k) <= g.free[k]
    ensures NoneOwned(syn, Poll(syn, g, inner, now).1, g.owned)
    ensures OncePerConnection(syn, Poll(syn, g, inner, now).1, g.free.Keys)
  {
    var g0 := g.(retry := []);
    if k in g.free { WithinListeners(syn, g0, Queue(g, inner), now, k); }
    AtMostOncePerConnection(syn, g0, Queue(g, inner), now);
  }

  // ---- bursts ----

  /** What a poll finds: the listeners refilled, the connections sockets own, the packets that arrived, the time. */
  datatype PollIn = PollIn(free: map<ResourceKey, nat>, owned: set<ConnTuple>, arrived: seq<Bytes>, now: int)

  function RunPoll(syn: SynOf, g: Gate, p: PollIn): (Gate, seq<Bytes>)
  {
    Poll(syn, Prepared(g, p.free, p.owned), p.arrived, p.now)
  }

  function RunPolls(syn: SynOf, g: Gate, polls: seq<PollIn>): Gate
    decreases |polls|
  {
    if polls == [] then g else RunPolls(syn, RunPoll(syn, g, polls[0]).0, polls[1..])
  }

  /** Over every run of polls the gate never holds more than SYN_DEFER_CAP packets. */
  lemma {:induction false} NeverHoldsMore(syn: SynOf, g: Gate, polls: seq<PollIn>)
    requires |g.retry| + |g.deferred| <= SYN_DEFER_CAP
    ensures var h := RunPolls(syn, g, polls);
            |h.retry| + |h.deferred| <= SYN_DEFER_CAP
    decreases |polls|
  {
    if polls != [] {
      var p := polls[0];
      PollKeepsBound(syn, Prepared(g, p.free, p.owned), p.arrived, p.now);
      NeverHoldsMore(syn, RunPoll(syn, g, p).0, polls[1..]);
    }
  }

  function HeldAs(x: Item, now: int): Held { Held(x.pkt, if x.since.Some? then x.since.value else now) }

  /** Offering `items` in turn: which of them are held afterwards. */
  function StillHeld(syn: SynOf, g: Gate, items: seq<Item>, now: int): (r: seq<Held>)
    ensures |r| <= |items|
    decreases |items|
  {
    if items == [] then []
    else
      var x := items[0];
      var rest := StillHeld(syn, Admitted(syn, g, x.pkt, x.since, now), items[1..], now);
      if Judge(syn, g, x.pkt, x.since, now) == Hold then [HeldAs(x, now)] + rest else rest
  }

  /** SYNs for resources, of different connections that nobody owns, not held too long. */
  ghost predicate Waiting(syn: SynOf, g: Gate, items: seq<Item>, now: int)
  {
    && (forall i :: 0 <= i < |items| ==>
          && syn(items[i].pkt).Some?
          && syn(items[i].pkt).value.0 in g.free
          && syn(items[i].pkt).value.1 !in g.owned
          && Elapsed(now, HeldAs(items[i], now).since) <= SYN_DEFER_LIMIT)
    && (forall i, j :: 0 <= i < j < |items| ==> syn(items[i].pkt).value.1 != syn(items[j].pkt).value.1)
  }

  /** A SYN for one of the keys, of a connection nobody owns. */
  predicate Relevant(syn: SynOf, keys: set<ResourceKey>, owned: set<ConnTuple>, pkt: Bytes)
  {
    syn(pkt).Some? && syn(pkt).value.0 in keys && syn(pkt).value.1 !in owned
  }

  /** Those among the items, in order. */
  function Core(syn: SynOf, keys: set<ResourceKey>, owned: set<ConnTuple>, items: seq<Item>): seq<Item>
    decreases |items|
  {
    if items == [] then []
    else if Relevant(syn, keys, owned, items[0].pkt) then [items[0]] + Core(syn, keys, owned, items[1..])
    else Core(syn, keys, owned, items[1..])
  }

  /** What a poll offers that matters. */
  function QueueCore(syn: SynOf, g: Gate, p: PollIn): seq<Item>
  {
    Core(syn, p.free.Keys, p.owned, Queue(Prepared(g, p.free, p.owned), p.arrived))
  }

  predicate SameButStats(g: Gate, h: Gate) { g.(stats := Stats(0, 0, 0)) == h.(stats := Stats(0, 0, 0)) }

  /**
   Every other packet passes by, retransmissions for owned connections included: the gate ends up the
   same but for its counters, and the same SYNs get in.
   */
  lemma {:induction false} OfferCore(syn: SynOf, g: Gate, h: Gate, owned: set<ConnTuple>, items: seq<Item>, now: int)
    requires SameButStats(g, h) && owned <= g.owned
    ensures var keys := g.free.Keys;
            var (g1, out) := Offer(syn, g, items, now);
            var (h1, core) := Offer(syn, h, Core(syn, keys, owned, items), now);
            && SameButStats(g1, h1)
            && forall p :: Relevant(syn, keys, owned, p) ==> (p in out <==> p in core)
    decreases |items|
  {
    if items != [] {
      var x := items[0];
      var g2, h2 := Admitted(syn, g, x.pkt, x.since, now), Admitted(syn, h, x.pkt, x.since, now);
      assert g2.free.Keys == g.free.Keys;
      if Relevant(syn, g.free.Keys, owned, x.pkt) {
        var core := Core(syn, g.free.Keys, owned, items[1..]);
        assert ([x] + core)[1..] == core;
        OfferCore(syn, g2, h2, owned, items[1..], now);
      } else {
        OfferCore(syn, g2, h, owned, items[1..], now);
      }
    }
  }

  lemma {:induction false} CoreAll(syn: SynOf, keys: set<ResourceKey>, owned: set<ConnTuple>, items: seq<Item>,
                                   q: seq<Item>)
    requires forall i :: 0 <= i < |items| ==> Relevant(syn, keys, owned, items[i].pkt)
    ensures Core(syn, keys, owned, items + q) == items + Core(syn, keys, owned, q)
    decreases |items|
  {
    if items == [] {
      assert items + q == q && items + Core(syn, keys, owned, q) == Core(syn, keys, owned, q);
    } else {
      CoreAll(syn, keys, owned, items[1..], q);
      assert (items + q)[1..] == items[1..] + q;
      assert items == [items[0]] + items[1..];
    }
  }

  lemma {:induction false} CoreConcat(syn: SynOf, keys: set<ResourceKey>, owned: set<ConnTuple>, a: seq<Item>,
                                      b: seq<Item>)
    ensures Core(syn, keys, owned, a + b) == Core(syn, keys, owned, a) + Core(syn, keys, owned, b)
    decreases |a|
  {
    if a == [] {
      assert a + b == b;
    } else {
      CoreConcat(syn, keys, owned, a[1..], b);
      assert (a + b)[1..] == a[1..] + b;
    }
  }

  lemma {:induction false} DeferredOnlyGrows(syn: SynOf, g: Gate, items: seq<Item>, now: int)
    ensures g.deferred <= Offer(syn, g, items, now).0.deferred
    decreases |items|
  {
    if items != [] { DeferredOnlyGrows(syn, Admitted(syn, g, items[0].pkt, items[0].since, now), items[1..], now); }
  }

  lemma {:induction false} WaitingStep(syn: SynOf, g: Gate, items: seq<Item>, now: int)
    requires Waiting(syn, g, items, now) && items != [] && |g.deferred| < SYN_DEFER_CAP
    ensures var x := items[0];
            var g2 := Admitted(syn, g, x.pkt, x.since, now);
            && Waiting(syn, g2, items[1..], now)
            && (Judge(syn, g, x.pkt, x.since, now) == Deliver || Judge(syn, g, x.pkt, x.since, now) == Hold)
            && g2.deferred == g.deferred + (if Judge(syn, g, x.pkt, x.since, now) == Hold then [HeldAs(x, now)] else [])
  {
  }

  /** Waiting SYNs offered first are held in order right after what was held before ... */
  lemma {:induction false} HeldInOrder(syn: SynOf, g: Gate, items: seq<Item>, rest: seq<Item>, now: int)
    requires Waiting(syn, g, items, now) && |g.deferred| + |items| <= SYN_DEFER_CAP
    ensures g.deferred + StillHeld(syn, g, items, now) <= Offer(syn, g, items + rest, now).0.deferred
    decreases |items|
  {
    if items == [] {
      assert items + rest == rest;
      DeferredOnlyGrows(syn, g, rest, now);
      assert g.deferred + [] == g.deferred;
    } else {
      var x := items[0];
      var g2 := Admitted(syn, g, x.pkt, x.since, now);
      assert (items + rest)[1..] == items[1..] + rest;
      WaitingStep(syn, g, items, now);
      HeldInOrder(syn, g2, items[1..], rest, now);
      var held := StillHeld(syn, g2, items[1..], now);
      if Judge(syn, g, x.pkt, x.since, now) == Hold {
        assert g.deferred + ([HeldAs(x, now)] + held) == g2.deferred + held;
      }
    }
  }

  lemma {:induction false} OfferHead(syn: SynOf, g: Gate, items: seq<Item>, rest: seq<Item>, now: int)
    requires items != []
    ensures var x := items[0];
            var out := Offer(syn, g, items + rest, now).1;
            && (Judge(syn, g, x.pkt, x.since, now) == Deliver ==> x.pkt in out)
            && forall p :: p in Offer(syn, Admitted(syn, g, x.pkt, x.since, now), items[1..] + rest, now).1 ==> p in out
  {
    assert (items + rest)[1..] == items[1..] + rest;
  }

  /** ... and those not held are delivered. */
  lemma {:induction false} HeldOrDelivered(syn: SynOf, g: Gate, items: seq<Item>, rest: seq<Item>, now: int, i: nat)
    requires Waiting(syn, g, items, now) && |g.deferred| + |items| <= SYN_DEFER_CAP && i < |items|
    ensures HeldAs(items[i], now) in StillHeld(syn, g, items, now) || items[i].pkt in Offer(syn, g, items + rest, now).1
    decreases |items|
  {
    var x := items[0];
    var g2 := Admitted(syn, g, x.pkt, x.since, now);
    WaitingStep(syn, g, items, now);
    OfferHead(syn, g, items, rest, now);
    if i > 0 { HeldOrDelivered(syn, g2, items[1..], rest, now, i - 1); }
  }

  /** Every resource the items are for has a free listener. */
  ghost predicate Refilled(syn: SynOf, g: Gate, items: seq<Item>)
  {
    forall i :: 0 <= i < |items| && syn(items[i].pkt).Some? && syn(items[i].pkt).value.0 in g.free ==>
      g.free[syn(items[i].pkt).value.0] >= 1
  }

  /** With its listener refilled, the first waiting SYN gets in, so fewer wait. */
  lemma {:induction false} FirstGetsIn(syn: SynOf, g: Gate, items: seq<Item>, now: int)
    requires items != [] && Waiting(syn, g, items, now) && Refilled(syn, g, items)
    ensures |StillHeld(syn, g, items, now)| < |items|
  {
  }

  function AsItems(held: seq<Held>): (items: seq<Item>)
    ensures |items| == |held|
  {
    seq(|held|, i requires 0 <= i < |held| => Item(held[i].pkt, Some(held[i].since)))
  }

  function Outs(syn: SynOf, g: Gate, polls: seq<PollIn>): (r: seq<seq<Bytes>>)
    ensures |r| == |polls|
    decreases |polls|
  {
    if polls == [] then []
    else [RunPoll(syn, g, polls[0]).1] + Outs(syn, RunPoll(syn, g, polls[0]).0, polls[1..])
  }

  /** Some poll among the first `n` delivers the packet. */
  ghost predicate DeliveredWithin(syn: SynOf, g: Gate, polls: seq<PollIn>, pkt: Bytes, n: nat)
  {
    exists i :: 0 <= i < n && i < |polls| && pkt in Outs(syn, g, polls)[i]
  }

  // What is held comes from what was offered, and was not delivered.

  lemma {:induction false} HeldFrom(syn: SynOf, g: Gate, items: seq<Item>, now: int, h: Held) returns (m: nat)
    requires h in StillHeld(syn, g, items, now)
    ensures m < |items| && h == HeldAs(items[m], now)
    decreases |items|
  {
    var x := items[0];
    var rest := StillHeld(syn, Admitted(syn, g, x.pkt, x.since, now), items[1..], now);
    if Judge(syn, g, x.pkt, x.since, now) == Hold && h == HeldAs(x, now) {
      m := 0;
    } else {
      assert h in rest;
      m := HeldFrom(syn, Admitted(syn, g, x.pkt, x.since, now), items[1..], now, h);
      m := m + 1;
    }
  }

  ghost predicate DistinctSyns(syn: SynOf, items: seq<Item>)
  {
    && (forall i :: 0 <= i < |items| ==> syn(items[i].pkt).Some?)
    && (forall i, j :: 0 <= i < j < |items| ==> syn(items[i].pkt).value.1 != syn(items[j].pkt).value.1)
  }

  lemma {:induction false} HeldDistinct(syn: SynOf, g: Gate, items: seq<Item>, now: int)
    requires DistinctSyns(syn, items)
    ensures DistinctSyns(syn, AsItems(StillHeld(syn, g, items, now)))
    decreases |items|
  {
    if items != [] {
      var x := items[0];
      var g2 := Admitted(syn, g, x.pkt, x.since, now);
      HeldDistinct(syn, g2, items[1..], now);
      var rest := StillHeld(syn, g2, items[1..], now);
      if Judge(syn, g, x.pkt, x.since, now) == Hold {
        var all := AsItems(StillHeld(syn, g, items, now));
        assert all == [Item(x.pkt, Some(HeldAs(x, now).since))] + AsItems(rest);
        forall j | 0 <= j < |rest| ensures syn(rest[j].pkt).Some? && syn(rest[j].pkt).value.1 != syn(x.pkt).value.1 {
          var m := HeldFrom(syn, g2, items[1..], now, rest[j]);
        }
        forall j | 0 < j < |all| ensures all[j].pkt == rest[j - 1].pkt && all[j] == AsItems(rest)[j - 1] {
        }
      }
    }
  }

  lemma {:induction false} CountedIfThere(syn: SynOf, out: seq<Bytes>, p: Bytes, k: ResourceKey)
    requires p in out && syn(p).Some? && syn(p).value.0 == k
    ensures SynsFor(syn, out, k) >= 1
    decreases |out|
  {
    if p != out[0] { CountedIfThere(syn, out[1..], p, k); }
  }

  lemma {:induction false} HeldNotDelivered(syn: SynOf, g: Gate, items: seq<Item>, rest: seq<Item>, now: int, h: Held)
    requires Waiting(syn, g, items, now) && |g.deferred| + |items| <= SYN_DEFER_CAP
             && h in StillHeld(syn, g, items, now)
    ensures h.pkt !in Offer(syn, g, items + rest, now).1
    decreases |items|
  {
    var x := items[0];
    var g2 := Admitted(syn, g, x.pkt, x.since, now);
    WaitingStep(syn, g, items, now);
    OfferSplit(syn, g, items, rest, now);
    if h in StillHeld(syn, g2, items[1..], now) {
      HeldNotDelivered(syn, g2, items[1..], rest, now, h);
      var m := HeldFrom(syn, g2, items[1..], now, h);
      assert syn(items[m + 1].pkt).value.1 != syn(x.pkt).value.1;
    } else {
      HeldFirstStays(syn, g, x, items[1..] + rest, now);
    }
  }

  lemma {:induction false} OfferSplit(syn: SynOf, g: Gate, items: seq<Item>, rest: seq<Item>, now: int)
    requires items != []
    ensures var x := items[0];
            var out := Offer(syn, Admitted(syn, g, x.pkt, x.since, now), items[1..] + rest, now).1;
            var pass := Judge(syn, g, x.pkt, x.since, now) == Deliver;
            Offer(syn, g, items + rest, now).1 == if pass then [x.pkt] + out else out
  {
    assert (items + rest)[1..] == items[1..] + rest;
  }

  /** A SYN that finds no listener is not let in by the packets after it either. */
  lemma {:induction false} HeldFirstStays(syn: SynOf, g: Gate, x: Item, rest: seq<Item>, now: int)
    requires syn(x.pkt).Some? && syn(x.pkt).value.0 in g.free && Judge(syn, g, x.pkt, x.since, now) == Hold
    ensures x.pkt !in Offer(syn, Admitted(syn, g, x.pkt, x.since, now), rest, now).1
  {
    var g2, k := Admitted(syn, g, x.pkt, x.since, now), syn(x.pkt).value.0;
    var out := Offer(syn, g2, rest, now).1;
    WithinListeners(syn, g2, rest, now, k);
    if x.pkt in out { CountedIfThere(syn, out, x.pkt, k); }
  }

  /**
   For each poll: every resource the items are for has a free listener again, a socket owns one of
   their connections only if it got in before, and no item is held longer than SYN_DEFER_LIMIT.
   */
  ghost predicate Refilling(syn: SynOf, g: Gate, items: seq<Item>, polls: seq<PollIn>)
  {
    forall i, j :: 0 <= i < |items| && 0 <= j < |polls| ==>
      ReadyFor(syn, g, items[i].pkt, polls, j, HeldAs(items[i], polls[0].now).since)
  }

  ghost predicate ReadyFor(syn: SynOf, g: Gate, pkt: Bytes, polls: seq<PollIn>, j: nat, since: int)
    requires j < |polls|
  {
    && syn(pkt).Some?
    && syn(pkt).value.0 in polls[j].free && polls[j].free[syn(pkt).value.0] >= 1
    && (syn(pkt).value.1 in polls[j].owned ==> DeliveredWithin(syn, g, polls, pkt, j))
    && Elapsed(polls[j].now, since) <= SYN_DEFER_LIMIT
  }

  lemma {:induction false} ReadyIsWaiting(syn: SynOf, g: Gate, items: seq<Item>, polls: seq<PollIn>)
    requires polls != [] && DistinctSyns(syn, items) && Refilling(syn, g, items, polls)
    ensures var g0 := Prepared(g, polls[0].free, polls[0].owned).(retry := []);
            Waiting(syn, g0, items, polls[0].now) && Refilled(syn, g0, items)
  {
    forall i | 0 <= i < |items|
      ensures && syn(items[i].pkt).value.0 in polls[0].free && polls[0].free[syn(items[i].pkt).value.0] >= 1
              && syn(items[i].pkt).value.1 !in polls[0].owned
              && Elapsed(polls[0].now, HeldAs(items[i], polls[0].now).since) <= SYN_DEFER_LIMIT
    {
      assert ReadyFor(syn, g, items[i].pkt, polls, 0, HeldAs(items[i], polls[0].now).since);
    }
  }

  /** What is still held after the first poll is ready for the others. */
  lemma {:induction false} ReadyNext(syn: SynOf, g: Gate, items: seq<Item>, polls: seq<PollIn>, held: seq<Held>)
    requires polls != [] && Refilling(syn, g, items, polls)
    requires forall h :: h in held ==>
               && h.pkt !in RunPoll(syn, g, polls[0]).1
               && exists m :: 0 <= m < |items| && h == HeldAs(items[m], polls[0].now)
    ensures Refilling(syn, RunPoll(syn, g, polls[0]).0, AsItems(held), polls[1..])
  {
    var g1 := RunPoll(syn, g, polls[0]).0;
    forall i, j | 0 <= i < |held| && 0 <= j < |polls[1..]|
      ensures ReadyFor(syn, g1, held[i].pkt, polls[1..], j, held[i].since)
    {
      var h := held[i];
      assert h in held;
      var m :| 0 <= m < |items| && h == HeldAs(items[m], polls[0].now);
      assert ReadyFor(syn, g, items[m].pkt, polls, j + 1, h.since);
      if syn(h.pkt).value.1 in polls[j + 1].owned { NotInTheFirst(syn, g, polls, h.pkt, j + 1); }
    }
  }

  lemma {:induction false} NotInTheFirst(syn: SynOf, g: Gate, polls: seq<PollIn>, pkt: Bytes, n: nat)
    requires polls != [] && n > 0 && DeliveredWithin(syn, g, polls, pkt, n) && pkt !in RunPoll(syn, g, polls[0]).1
    ensures DeliveredWithin(syn, RunPoll(syn, g, polls[0]).0, polls[1..], pkt, n - 1)
  {
    var i :| 0 <= i < n && i < |polls| && pkt in Outs(syn, g, polls)[i];
    assert i > 0 && Outs(syn, g, polls)[i] == Outs(syn, RunPoll(syn, g, polls[0]).0, polls[1..])[i - 1];
  }

  lemma {:induction false} OnePollServes(syn: SynOf, g: Gate, items: seq<Item>, p: PollIn)
    requires items != [] && |items| <= SYN_DEFER_CAP && |g.retry| + |g.deferred| <= SYN_DEFER_CAP
    requires items <= QueueCore(syn, g, p)
    requires var g0 := Prepared(g, p.free, p.owned).(retry := []);
             Waiting(syn, g0, items, p.now) && Refilled(syn, g0, items)
    ensures var g0 := Prepared(g, p.free, p.owned).(retry := []);
            var held := StillHeld(syn, g0, items, p.now);
            var (g1, out) := RunPoll(syn, g, p);
            && |held| < |items| && held <= g1.deferred && g1.retry == [] && |g1.deferred| <= SYN_DEFER_CAP
            && (forall i :: 0 <= i < |items| ==> HeldAs(items[i], p.now) in held || items[i].pkt in out)
            && forall h :: h in held ==> h.pkt !in out
  {
    var gp := Prepared(g, p.free, p.owned);
    var g0 := gp.(retry := []);
    var q := QueueCore(syn, g, p);
    var rest := q[|items|..];
    assert q == items + rest;
    OfferCore(syn, g0, g0, p.owned, Queue(gp, p.arrived), p.now);
    PollKeepsBound(syn, gp, p.arrived, p.now);
    FirstGetsIn(syn, g0, items, p.now);
    HeldInOrder(syn, g0, items, rest, p.now);
    forall i | 0 <= i < |items|
      ensures HeldAs(items[i], p.now) in StillHeld(syn, g0, items, p.now) || items[i].pkt in RunPoll(syn, g, p).1
    {
      HeldOrDelivered(syn, g0, items, rest, p.now, i);
    }
    forall h | h in StillHeld(syn, g0, items, p.now) ensures h.pkt !in RunPoll(syn, g, p).1 {
      HeldNotDelivered(syn, g0, items, rest, p.now, h);
      var m := HeldFrom(syn, g0, items, p.now, h);
      assert Relevant(syn, p.free.Keys, p.owned, h.pkt);
    }
  }

  /** `repoll_now`: SYNs are waiting and the last poll let some in. */
  predicate RepollNow(g: Gate) { g.progressed && g.deferred != [] }

  lemma {:induction false} ProgressStays(syn: SynOf, g: Gate, items: seq<Item>, now: int)
    requires g.progressed
    ensures Offer(syn, g, items, now).0.progressed
    decreases |items|
  {
    if items != [] { ProgressStays(syn, Admitted(syn, g, items[0].pkt, items[0].since, now), items[1..], now); }
  }

  /** As long as waiting SYNs remain, the loop polls again at once: the burst never waits for a timer. */
  lemma {:induction false} BurstRepolls(syn: SynOf, g: Gate, items: seq<Item>, p: PollIn)
    requires items != [] && items <= QueueCore(syn, g, p)
    requires var g0 := Prepared(g, p.free, p.owned).(retry := []);
             Waiting(syn, g0, items, p.now) && Refilled(syn, g0, items)
    ensures RepollNow(RunPoll(syn, g, p).0) <==> RunPoll(syn, g, p).0.deferred != []
  {
    var g0 := Prepared(g, p.free, p.owned).(retry := []);
    var q := Queue(Prepared(g, p.free, p.owned), p.arrived);
    var core := QueueCore(syn, g, p);
    var x := items[0];
    OfferCore(syn, g0, g0, p.owned, q, p.now);
    assert core[0] == x && Judge(syn, g0, x.pkt, x.since, p.now) == Deliver;
    ProgressStays(syn, Admitted(syn, g0, x.pkt, x.since, p.now), core[1..], p.now);
  }

  /** n waiting SYNs that come first among those that matter all reach smoltcp within n polls. */
  lemma {:induction false} HeadServed(syn: SynOf, g: Gate, items: seq<Item>, polls: seq<PollIn>, i: nat)
    requires |g.retry| + |g.deferred| <= SYN_DEFER_CAP && i < |items| <= SYN_DEFER_CAP && |items| <= |polls|
    requires items <= QueueCore(syn, g, polls[0]) && DistinctSyns(syn, items) && Refilling(syn, g, items, polls)
    ensures DeliveredWithin(syn, g, polls, items[i].pkt, |items|)
    decreases |polls|
  {
    var p := polls[0];
    var g0 := Prepared(g, p.free, p.owned).(retry := []);
    var held := StillHeld(syn, g0, items, p.now);
    ReadyIsWaiting(syn, g, items, polls);
    OnePollServes(syn, g, items, p);
    var (g1, out) := RunPoll(syn, g, p);
    if items[i].pkt in out {
      assert items[i].pkt in Outs(syn, g, polls)[0];
    } else {
      var j :| 0 <= j < |held| && held[j] == HeldAs(items[i], p.now);
      NextServed(syn, g, items, polls);
      HeadServed(syn, g1, AsItems(held), polls[1..], j);
      LaterPoll(syn, g, polls, items[i].pkt, |held|);
    }
  }

  /** What one poll leaves waiting meets the conditions for the polls after it. */
  lemma {:induction false} NextServed(syn: SynOf, g: Gate, items: seq<Item>, polls: seq<PollIn>)
    requires |g.retry| + |g.deferred| <= SYN_DEFER_CAP && 0 < |items| <= SYN_DEFER_CAP && 1 < |polls|
    requires items <= QueueCore(syn, g, polls[0]) && DistinctSyns(syn, items) && Refilling(syn, g, items, polls)
    ensures var g0 := Prepared(g, polls[0].free, polls[0].owned).(retry := []);
            var held := AsItems(StillHeld(syn, g0, items, polls[0].now));
            var g1 := RunPoll(syn, g, polls[0]).0;
            && DistinctSyns(syn, held) && Refilling(syn, g1, held, polls[1..]) && held <= QueueCore(syn, g1, polls[1])
  {
    var p := polls[0];
    var g0 := Prepared(g, p.free, p.owned).(retry := []);
    var held := StillHeld(syn, g0, items, p.now);
    ReadyIsWaiting(syn, g, items, polls);
    OnePollServes(syn, g, items, p);
    HeldDistinct(syn, g0, items, p.now);
    forall h | h in held ensures exists m :: 0 <= m < |items| && h == HeldAs(items[m], p.now) {
      var m := HeldFrom(syn, g0, items, p.now, h);
    }
    ReadyNext(syn, g, items, polls, held);
    StillFirst(syn, RunPoll(syn, g, p).0, held, polls[1..]);
  }

  /** What is held comes first in the next poll. */
  lemma {:induction false} StillFirst(syn: SynOf, g: Gate, held: seq<Held>, polls: seq<PollIn>)
    requires polls != [] && held <= g.deferred && g.retry == [] && Refilling(syn, g, AsItems(held), polls)
    ensures AsItems(held) <= QueueCore(syn, g, polls[0])
  {
    var p, items := polls[0], AsItems(held);
    var q := Queue(Prepared(g, p.free, p.owned), p.arrived);
    forall i | 0 <= i < |items| ensures Relevant(syn, p.free.Keys, p.owned, items[i].pkt) {
      assert ReadyFor(syn, g, items[i].pkt, polls, 0, HeldAs(items[i], p.now).since);
    }
    NextHead(g, held, p);
    assert q == items + q[|items|..];
    CoreAll(syn, p.free.Keys, p.owned, items, q[|items|..]);
  }

  lemma {:induction false} LaterPoll(syn: SynOf, g: Gate, polls: seq<PollIn>, pkt: Bytes, n: nat)
    requires polls != [] && DeliveredWithin(syn, RunPoll(syn, g, polls[0]).0, polls[1..], pkt, n)
    ensures DeliveredWithin(syn, g, polls, pkt, n + 1)
  {
    var g1 := RunPoll(syn, g, polls[0]).0;
    var i :| 0 <= i < n && i < |polls| - 1 && pkt in Outs(syn, g1, polls[1..])[i];
    assert Outs(syn, g, polls)[i + 1] == Outs(syn, g1, polls[1..])[i];
  }

  lemma {:induction false} NextHead(g: Gate, held: seq<Held>, p: PollIn)
    requires held <= g.deferred && g.retry == []
    ensures AsItems(held) <= Queue(Prepared(g, p.free, p.owned), p.arrived)
  {
  }

  function AsNew(burst: seq<Bytes>): (items: seq<Item>)
    ensures |items| == |burst|
  {
    seq(|burst|, i requires 0 <= i < |burst| => Item(burst[i], None))
  }

  /** The SYNs that wait: those held whose connection nobody owns yet, then the burst. */
  function WaitingSyns(syn: SynOf, g: Gate, p: PollIn, burst: seq<Bytes>): seq<Item>
  {
    Core(syn, p.free.Keys, p.owned, AsItems(g.retry + g.deferred)) + AsNew(burst)
  }

  /**
   A burst of simultaneous SYNs of different connections reaches a gate that may hold others. If all
   of them are no more than SYN_DEFER_CAP, all get in, the held ones and the new ones, within as
   many polls. Other packets may come in front, behind or between, retransmissions for owned
   connections among them, and whatever may arrive in the later polls.
   */
  lemma {:induction false} BurstServed(syn: SynOf, g: Gate, burst: seq<Bytes>, polls: seq<PollIn>, i: nat)
    requires |g.retry| + |g.deferred| <= SYN_DEFER_CAP && polls != []
    requires AsNew(burst) <= Core(syn, polls[0].free.Keys, polls[0].owned, AsNew(polls[0].arrived))
    requires var items := WaitingSyns(syn, g, polls[0], burst);
             && i < |items| <= SYN_DEFER_CAP && |items| <= |polls|
             && DistinctSyns(syn, items) && Refilling(syn, g, items, polls)
    ensures var items := WaitingSyns(syn, g, polls[0], burst); DeliveredWithin(syn, g, polls, items[i].pkt, |items|)
  {
    var p := polls[0];
    var held := AsItems(g.retry + g.deferred);
    assert Queue(Prepared(g, p.free, p.owned), p.arrived) == held + AsNew(p.arrived);
    CoreConcat(syn, p.free.Keys, p.owned, held, AsNew(p.arrived));
    HeadServed(syn, g, WaitingSyns(syn, g, p, burst), polls, i);
  }
}

/**
 What one poll of the SYN gate delivers, holds and drops, as a rule over the packets it is offered.
 The gate keeps counters and sets that change from packet to packet (`SynGate::admit`,
 client/src/net_stack.rs); the rule speaks only of the listeners and connections at the start of the
 poll and of the packets before the one in question.
 */
module Admission {
  import opened Common
  import opened Tcp
  import opened SynGate

  /** The resource of a SYN is the local end of its connection; `BareSyn` is such a recogniser. */
  ghost predicate LocalEnd(syn: SynOf) { forall p :: syn(p).Some? ==> syn(p).value.0 == KeyOf(syn(p).value.1) }

  function KeyOf(t: ConnTuple): ResourceKey { (t.0, t.1) }

  // ---- the rule ----

  /** Connections to `k` that nobody owned and that some packet asks for. */
  function Wanted(syn: SynOf, owned: set<ConnTuple>, pkts: seq<Bytes>, k: ResourceKey): set<ConnTuple>
  {
    set p | p in pkts && syn(p).Some? && syn(p).value.0 == k && syn(p).value.1 !in owned :: syn(p).value.1
  }

  /**
   Packet `p` after the packets `before`: anything but a SYN gets in; so does a SYN for no resource. A SYN
   for a resource gets in if it is the first of its connection and its resource has more listeners
   than connections were asked for before. A connection somebody owns gets no SYN.
   */
  predicate GetsIn(syn: SynOf, free: map<ResourceKey, nat>, owned: set<ConnTuple>, before: seq<Bytes>, p: Bytes)
  {
    match syn(p)
    case None => true
    case Some((k, t)) =>
      && t !in owned
      && (k in free ==>
            var wanted := Wanted(syn, owned, before, k);
            t !in wanted && |wanted| < free[k])
  }

  predicate ForResource(syn: SynOf, free: map<ResourceKey, nat>, p: Bytes)
  {
    syn(p).Some? && syn(p).value.0 in free
  }

  /** The packets that get in, in order. */
  function Through(syn: SynOf, free: map<ResourceKey, nat>, owned: set<ConnTuple>, pkts: seq<Bytes>): seq<Bytes>
    decreases |pkts|
  {
    if pkts == [] then []
    else
      var n := |pkts| - 1;
      Through(syn, free, owned, pkts[..n]) + if GetsIn(syn, free, owned, pkts[..n], pkts[n]) then [pkts[n]] else []
  }

  /** The connections to resources that get in. */
  function Connected(syn: SynOf, free: map<ResourceKey, nat>, owned: set<ConnTuple>, pkts: seq<Bytes>): set<ConnTuple>
  {
    set p | p in Through(syn, free, owned, pkts) && ForResource(syn, free, p) :: syn(p).value.1
  }

  /** A SYN of a connection that was owned or got in before. */
  predicate IsRepeat(syn: SynOf, free: map<ResourceKey, nat>, owned: set<ConnTuple>, before: seq<Bytes>, p: Bytes)
  {
    syn(p).Some? && (syn(p).value.1 in owned || syn(p).value.1 in Connected(syn, free, owned, before))
  }

  /** A SYN that finds no listener left. */
  predicate IsRefused(syn: SynOf, free: map<ResourceKey, nat>, owned: set<ConnTuple>, before: seq<Bytes>, p: Bytes)
  {
    !GetsIn(syn, free, owned, before, p) && !IsRepeat(syn, free, owned, before, p)
  }

  function Packets(items: seq<Item>): (r: seq<Bytes>)
    ensures |r| == |items|
  {
    seq(|items|, i requires 0 <= i < |items| => items[i].pkt)
  }

  function Repeats(syn: SynOf, free: map<ResourceKey, nat>, owned: set<ConnTuple>, pkts: seq<Bytes>): nat
    decreases |pkts|
  {
    if pkts == [] then 0
    else
      var n := |pkts| - 1;
      Repeats(syn, free, owned, pkts[..n]) + if IsRepeat(syn, free, owned, pkts[..n], pkts[n]) then 1 else 0
  }

  /** The refused SYNs that are held: as long as there is room, and none for longer than the limit. */
  function Kept(syn: SynOf, g: Gate, items: seq<Item>, now: int): seq<Held>
    decreases |items|
  {
    if items == [] then []
    else
      var n := |items| - 1;
      var kept, x := Kept(syn, g, items[..n], now), items[n];
      if Keeps(syn, g, items[..n], |kept|, x, now) then kept + [HeldAs(x, now)] else kept
  }

  predicate Keeps(syn: SynOf, g: Gate, before: seq<Item>, kept: nat, x: Item, now: int)
  {
    && IsRefused(syn, g.free, g.owned, Packets(before), x.pkt) && |g.deferred| + kept < SYN_DEFER_CAP
    && Elapsed(now, HeldAs(x, now).since) <= SYN_DEFER_LIMIT
  }

  /** How many of those are held for the first time. */
  function NewlyKept(syn: SynOf, g: Gate, items: seq<Item>, now: int): nat
    decreases |items|
  {
    if items == [] then 0
    else
      var n := |items| - 1;
      var x, kept := items[n], |Kept(syn, g, items[..n], now)|;
      NewlyKept(syn, g, items[..n], now) + if x.since.None? && Keeps(syn, g, items[..n], kept, x, now) then 1 else 0
  }

  // ---- the gate follows it ----

  /** What the gate's sets and counters mean after the packets. */
  ghost predicate Reads(syn: SynOf, g: Gate, h: Gate, pkts: seq<Bytes>)
  {
    && h.free.Keys == g.free.Keys && h.owned == g.owned + Connected(syn, g.free, g.owned, pkts)
    && forall k :: k in g.free ==>
         Left(g.free[k], h.free[k], Wanted(syn, g.owned, pkts, k), Connected(syn, g.free, g.owned, pkts))
  }

  /** Of `had` listeners `left` are left; while there were enough, all who wanted one are connected. */
  predicate Left(had: nat, left: nat, wanted: set<ConnTuple>, connected: set<ConnTuple>)
  {
    if |wanted| <= had then left == had - |wanted| && wanted <= connected else left == 0
  }

  lemma {:induction false} WantedMore(syn: SynOf, owned: set<ConnTuple>, pkts: seq<Bytes>, p: Bytes, k: ResourceKey)
    ensures var more := if Asks(syn, owned, p, k) then {syn(p).value.1} else {};
            Wanted(syn, owned, pkts + [p], k) == Wanted(syn, owned, pkts, k) + more
  {
  }

  lemma {:induction false} ThroughMore(syn: SynOf, free: map<ResourceKey, nat>, owned: set<ConnTuple>,
                                       pkts: seq<Bytes>, p: Bytes)
    ensures var more := if GetsIn(syn, free, owned, pkts, p) then [p] else [];
            Through(syn, free, owned, pkts + [p]) == Through(syn, free, owned, pkts) + more
    ensures var more := if GetsIn(syn, free, owned, pkts, p) && ForResource(syn, free, p) then {syn(p).value.1} else {};
            Connected(syn, free, owned, pkts + [p]) == Connected(syn, free, owned, pkts) + more
  {
    assert (pkts + [p])[..|pkts|] == pkts;
  }

  lemma {:induction false} ConnectedAreWanted(syn: SynOf, free: map<ResourceKey, nat>, owned: set<ConnTuple>,
                                              pkts: seq<Bytes>, t: ConnTuple)
    requires LocalEnd(syn) && t in Connected(syn, free, owned, pkts)
    ensures KeyOf(t) in free && t in Wanted(syn, owned, pkts, KeyOf(t))
  {
    var p :| p in Through(syn, free, owned, pkts) && ForResource(syn, free, p) && syn(p).value.1 == t;
    ThroughMember(syn, free, owned, pkts, p);
  }

  lemma {:induction false} ThroughMember(syn: SynOf, free: map<ResourceKey, nat>, owned: set<ConnTuple>,
                                         pkts: seq<Bytes>, p: Bytes)
    requires p in Through(syn, free, owned, pkts)
    ensures p in pkts && (syn(p).Some? ==> syn(p).value.1 !in owned)
    decreases |pkts|
  {
    var n := |pkts| - 1;
    if p in Through(syn, free, owned, pkts[..n]) { ThroughMember(syn, free, owned, pkts[..n], p); }
  }

  /** The gate's judgement of the next packet is the rule's. */
  lemma {:induction false} JudgeFollows(syn: SynOf, g: Gate, h: Gate, pkts: seq<Bytes>, x: Item, now: int)
    requires LocalEnd(syn) && Reads(syn, g, h, pkts)
    ensures var v := Judge(syn, h, x.pkt, x.since, now);
            && (v == Deliver <==> GetsIn(syn, g.free, g.owned, pkts, x.pkt))
            && (v == Duplicate <==> IsRepeat(syn, g.free, g.owned, pkts, x.pkt))
  {
    if syn(x.pkt).Some? {
      var (k, t) := syn(x.pkt).value;
      var connected := Connected(syn, g.free, g.owned, pkts);
      if t in connected { ConnectedAreWanted(syn, g.free, g.owned, pkts, t); }
      if k in g.free { assert Left(g.free[k], h.free[k], Wanted(syn, g.owned, pkts, k), connected); }
    }
  }

  /** One key when the next packet is offered; `mine` if it is a SYN for it, of connection `t`. */
  lemma {:induction false} KeyStep(had: nat, left: nat, left': nat, wanted: set<ConnTuple>, wanted': set<ConnTuple>,
                                   connected: set<ConnTuple>, connected': set<ConnTuple>, mine: bool, t: ConnTuple)
    requires Left(had, left, wanted, connected) && connected <= connected'
    requires wanted' == if mine then wanted + {t} else wanted
    requires left' == if mine && t !in wanted && |wanted| < had then left - 1 else left
    requires mine && t !in wanted && |wanted| < had ==> t in connected'
    ensures Left(had, left', wanted', connected')
  {
    if mine {
      if t in wanted {
        assert wanted + {t} == wanted;
      } else {
        assert |wanted + {t}| == |wanted| + 1;
      }
    }
  }

  /** What an admitted packet does to the listeners and to the connections owned. */
  lemma {:induction false} Effect(syn: SynOf, h: Gate, x: Item, now: int)
    ensures var h' := Admitted(syn, h, x.pkt, x.since, now);
            if Judge(syn, h, x.pkt, x.since, now) == Deliver && ForResource(syn, h.free, x.pkt) then
              var (k, t) := syn(x.pkt).value;
              h.free[k] > 0 && h'.free == h.free[k := h.free[k] - 1] && h'.owned == h.owned + {t}
            else h'.free == h.free && h'.owned == h.owned
  {
  }

  predicate Asks(syn: SynOf, owned: set<ConnTuple>, p: Bytes, k: ResourceKey)
  {
    syn(p).Some? && syn(p).value.0 == k && syn(p).value.1 !in owned
  }

  lemma {:induction false} FreeNext(syn: SynOf, g: Gate, h: Gate, pkts: seq<Bytes>, x: Item, now: int, k: ResourceKey)
    requires LocalEnd(syn) && Reads(syn, g, h, pkts) && k in g.free
    ensures var h', wanted := Admitted(syn, h, x.pkt, x.since, now), Wanted(syn, g.owned, pkts, k);
            var taken := Asks(syn, g.owned, x.pkt, k) && syn(x.pkt).value.1 !in wanted && |wanted| < g.free[k];
            k in h'.free && h'.free[k] == if taken then h.free[k] - 1 else h.free[k]
  {
    JudgeFollows(syn, g, h, pkts, x, now);
    Effect(syn, h, x, now);
  }

  lemma {:induction false} TakenConnects(syn: SynOf, free: map<ResourceKey, nat>, owned: set<ConnTuple>,
                                         pkts: seq<Bytes>, p: Bytes, k: ResourceKey)
    requires k in free
    ensures Connected(syn, free, owned, pkts) <= Connected(syn, free, owned, pkts + [p])
    ensures var wanted := Wanted(syn, owned, pkts, k);
            Asks(syn, owned, p, k) && syn(p).value.1 !in wanted && |wanted| < free[k] ==>
              syn(p).value.1 in Connected(syn, free, owned, pkts + [p])
  {
    ThroughMore(syn, free, owned, pkts, p);
  }

  lemma {:induction false} KeyNext(syn: SynOf, g: Gate, h: Gate, pkts: seq<Bytes>, x: Item, now: int, k: ResourceKey)
    requires LocalEnd(syn) && Reads(syn, g, h, pkts) && k in g.free
    ensures k in Admitted(syn, h, x.pkt, x.since, now).free
    ensures Left(g.free[k], Admitted(syn, h, x.pkt, x.since, now).free[k], Wanted(syn, g.owned, pkts + [x.pkt], k),
                 Connected(syn, g.free, g.owned, pkts + [x.pkt]))
  {
    var h' := Admitted(syn, h, x.pkt, x.since, now);
    var wanted, wanted' := Wanted(syn, g.owned, pkts, k), Wanted(syn, g.owned, pkts + [x.pkt], k);
    var connected := Connected(syn, g.free, g.owned, pkts);
    FreeNext(syn, g, h, pkts, x, now, k);
    WantedMore(syn, g.owned, pkts, x.pkt, k);
    TakenConnects(syn, g.free, g.owned, pkts, x.pkt, k);
    var connected' := Connected(syn, g.free, g.owned, pkts + [x.pkt]);
    if Asks(syn, g.owned, x.pkt, k) {
      KeyStep(g.free[k], h.free[k], h'.free[k], wanted, wanted', connected, connected', true, syn(x.pkt).value.1);
    } else {
      assert wanted' == wanted;
      KeyStep(g.free[k], h.free[k], h'.free[k], wanted, wanted', connected, connected', false, (0, 0, 0, 0));
    }
  }

  lemma {:induction false} ReadsNext(syn: SynOf, g: Gate, h: Gate, pkts: seq<Bytes>, x: Item, now: int)
    requires LocalEnd(syn) && Reads(syn, g, h, pkts)
    ensures Reads(syn, g, Admitted(syn, h, x.pkt, x.since, now), pkts + [x.pkt])
  {
    var h' := Admitted(syn, h, x.pkt, x.since, now);
    assert h'.free.Keys == g.free.Keys && h'.owned == g.owned + Connected(syn, g.free, g.owned, pkts + [x.pkt]) by {
      JudgeFollows(syn, g, h, pkts, x, now);
      Effect(syn, h, x, now);
      ThroughMore(syn, g.free, g.owned, pkts, x.pkt);
    }
    forall k | k in g.free
      ensures Left(g.free[k], h'.free[k], Wanted(syn, g.owned, pkts + [x.pkt], k),
                   Connected(syn, g.free, g.owned, pkts + [x.pkt]))
    {
      KeyNext(syn, g, h, pkts, x, now, k);
    }
  }

  lemma {:induction false} OfferMore(syn: SynOf, g: Gate, items: seq<Item>, x: Item, now: int)
    ensures var (h, out) := Offer(syn, g, items, now);
            var pass := Judge(syn, h, x.pkt, x.since, now) == Deliver;
            Offer(syn, g, items + [x], now)
              == (Admitted(syn, h, x.pkt, x.since, now), out + if pass then [x.pkt] else [])
    decreases |items|
  {
    if items == [] {
      var more := if Judge(syn, g, x.pkt, x.since, now) == Deliver then [x.pkt] else [];
      assert items + [x] == [x] && [x][1..] == [] && [] + more == more && [x.pkt] + [] == [x.pkt];
      assert Offer(syn, g, items, now) == (g, []);
      assert Offer(syn, Admitted(syn, g, x.pkt, x.since, now), [], now) == (Admitted(syn, g, x.pkt, x.since, now), []);
    } else {
      var y := items[0];
      assert (items + [x])[0] == y && (items + [x])[1..] == items[1..] + [x];
      OfferMore(syn, Admitted(syn, g, y.pkt, y.since, now), items[1..], x, now);
      var (h, out) := Offer(syn, Admitted(syn, g, y.pkt, y.since, now), items[1..], now);
      var more := if Judge(syn, h, x.pkt, x.since, now) == Deliver then [x.pkt] else [];
      assert [y.pkt] + (out + more) == ([y.pkt] + out) + more;
    }
  }

  /** The gate after the packets, and what it let in: the rule's account. */
  ghost predicate Follows(syn: SynOf, g: Gate, items: seq<Item>, now: int, h: Gate, out: seq<Bytes>)
  {
    var pkts := Packets(items);
    && Reads(syn, g, h, pkts) && out == Through(syn, g.free, g.owned, pkts)
    && h.deferred == g.deferred + Kept(syn, g, items, now) && h.retry == g.retry
    && h.stats.deferred == g.stats.deferred + NewlyKept(syn, g, items, now)
    && h.progressed == (g.progressed || Connected(syn, g.free, g.owned, pkts) != {})
    && h.stats.duplicates == g.stats.duplicates + Repeats(syn, g.free, g.owned, pkts)
    && |out| + |h.deferred| + h.stats.duplicates + h.stats.overflow
         == |items| + |g.deferred| + g.stats.duplicates + g.stats.overflow
  }

  lemma {:induction false} HeldNext(syn: SynOf, g: Gate, items: seq<Item>, now: int, h: Gate, x: Item)
    requires LocalEnd(syn) && Reads(syn, g, h, Packets(items)) && h.deferred == g.deferred + Kept(syn, g, items, now)
    ensures Admitted(syn, h, x.pkt, x.since, now).deferred == g.deferred + Kept(syn, g, items + [x], now)
    ensures Admitted(syn, h, x.pkt, x.since, now).retry == h.retry
    ensures Admitted(syn, h, x.pkt, x.since, now).stats.deferred - h.stats.deferred
         == NewlyKept(syn, g, items + [x], now) - NewlyKept(syn, g, items, now)
  {
    assert (items + [x])[..|items|] == items;
    JudgeFollows(syn, g, h, Packets(items), x, now);
  }

  lemma {:induction false} CountsNext(syn: SynOf, h: Gate, x: Item, now: int)
    ensures var h' := Admitted(syn, h, x.pkt, x.since, now);
            var v := Judge(syn, h, x.pkt, x.since, now);
            && h'.progressed == (h.progressed || (v == Deliver && ForResource(syn, h.free, x.pkt)))
            && h'.stats.duplicates == h.stats.duplicates + (if v == Duplicate then 1 else 0)
            && |h'.deferred| + h'.stats.duplicates + h'.stats.overflow
                 == |h.deferred| + h.stats.duplicates + h.stats.overflow + (if v == Deliver then 0 else 1)
  {
  }

  lemma {:induction false} RepeatsMore(syn: SynOf, free: map<ResourceKey, nat>, owned: set<ConnTuple>,
                                       pkts: seq<Bytes>, p: Bytes)
    ensures Repeats(syn, free, owned, pkts + [p])
         == Repeats(syn, free, owned, pkts) + if IsRepeat(syn, free, owned, pkts, p) then 1 else 0
  {
    assert (pkts + [p])[..|pkts|] == pkts;
  }

  lemma {:induction false} FollowsNext(syn: SynOf, g: Gate, items: seq<Item>, now: int, h: Gate, out: seq<Bytes>,
                                       x: Item)
    requires LocalEnd(syn) && Follows(syn, g, items, now, h, out)
    ensures Follows(syn, g, items + [x], now, Admitted(syn, h, x.pkt, x.since, now),
                    out + if Judge(syn, h, x.pkt, x.since, now) == Deliver then [x.pkt] else [])
  {
    var pkts := Packets(items);
    assert Packets(items + [x]) == pkts + [x.pkt];
    JudgeFollows(syn, g, h, pkts, x, now);
    ReadsNext(syn, g, h, pkts, x, now);
    HeldNext(syn, g, items, now, h, x);
    CountsNext(syn, h, x, now);
    RepeatsMore(syn, g.free, g.owned, pkts, x.pkt);
    ThroughMore(syn, g.free, g.owned, pkts, x.pkt);
  }

  /**
   Offering packets in turn: exactly those get in that the rule lets in, in order; exactly those are
   held that it keeps; every other one is counted, as a repetition or as dropped.
   */
  lemma {:induction false} OfferFollows(syn: SynOf, g: Gate, items: seq<Item>, now: int)
    requires LocalEnd(syn)
    ensures var (h, out) := Offer(syn, g, items, now); Follows(syn, g, items, now, h, out)
    decreases |items|
  {
    if items != [] {
      var n := |items| - 1;
      var (h, out) := Offer(syn, g, items[..n], now);
      assert items == items[..n] + [items[n]];
      OfferFollows(syn, g, items[..n], now);
      OfferMore(syn, g, items[..n], items[n], now);
      FollowsNext(syn, g, items[..n], now, h, out, items[n]);
    }
  }

  // ---- one poll ----

  lemma {:induction false} BareSynLocalEnd()
    ensures LocalEnd(BareSyn)
  {
  }

  /** What a poll is offered: the packets held before, then those that arrived. */
  function Offered(g: Gate, inner: seq<Bytes>): seq<Bytes>
  {
    seq(|g.retry|, i requires 0 <= i < |g.retry| => g.retry[i].pkt) + inner
  }

  /**
   A poll delivers exactly the packets the rule lets in, in the order they are offered; it holds exactly those
   the rule keeps; and no packet is lost uncounted.
   */
  lemma {:induction false} PollFollows(syn: SynOf, g: Gate, inner: seq<Bytes>, now: int)
    requires LocalEnd(syn)
    ensures var (h, out) := Poll(syn, g, inner, now);
            && out == Through(syn, g.free, g.owned, Offered(g, inner))
            && h.deferred == g.deferred + Kept(syn, g, Queue(g, inner), now) && h.retry == []
            && h.stats.deferred == g.stats.deferred + NewlyKept(syn, g, Queue(g, inner), now)
            && h.owned == g.owned + Connected(syn, g.free, g.owned, Offered(g, inner))
            && h.progressed == (g.progressed || Connected(syn, g.free, g.owned, Offered(g, inner)) != {})
            && h.stats.duplicates == g.stats.duplicates + Repeats(syn, g.free, g.owned, Offered(g, inner))
            && |out| + |h.deferred| + h.stats.duplicates + h.stats.overflow
                 == |Offered(g, inner)| + |g.deferred| + g.stats.duplicates + g.stats.overflow
  {
    var g0 := g.(retry := []);
    assert Packets(Queue(g, inner)) == Offered(g, inner);
    OfferFollows(syn, g0, Queue(g, inner), now);
    KeptSame(syn, g, g0, Queue(g, inner), now);
  }

  lemma {:induction false} KeptSame(syn: SynOf, g: Gate, h: Gate, items: seq<Item>, now: int)
    requires g.free == h.free && g.owned == h.owned && g.deferred == h.deferred
    ensures Kept(syn, g, items, now) == Kept(syn, h, items, now)
    ensures NewlyKept(syn, g, items, now) == NewlyKept(syn, h, items, now)
    decreases |items|
  {
    if items != [] { KeptSame(syn, g, h, items[..|items| - 1], now); }
  }

  /** The packets held before, oldest first, then those that arrived. */
  function OfferedIn(g: Gate, p: PollIn): seq<Bytes>
  {
    Packets(AsItems(g.retry + g.deferred)) + p.arrived
  }

  /**
   A poll of the loop, with the listeners and connections it finds: it offers everything held, then what arrived,
   and the loop polls again at once exactly if some resource got a connection and a SYN still waits.
   */
  lemma {:induction false} RunPollFollows(syn: SynOf, g: Gate, p: PollIn)
    requires LocalEnd(syn)
    ensures var (h, out) := RunPoll(syn, g, p);
            && out == Through(syn, p.free, p.owned, OfferedIn(g, p))
            && (RepollNow(h) <==> Connected(syn, p.free, p.owned, OfferedIn(g, p)) != {} && h.deferred != [])
            && |out| + |h.deferred| + h.stats.duplicates + h.stats.overflow
                 == |OfferedIn(g, p)| + g.stats.duplicates + g.stats.overflow
  {
    var q := Prepared(g, p.free, p.owned);
    assert Offered(q, p.arrived) == OfferedIn(g, p);
    PollFollows(syn, q, p.arrived, p.now);
  }

  /** Not a SYN, or a SYN for no resource of a connection nobody owns. */
  predicate Bystander(syn: SynOf, free: map<ResourceKey, nat>, owned: set<ConnTuple>, p: Bytes)
  {
    syn(p).None? || (syn(p).value.0 !in free && syn(p).value.1 !in owned)
  }

  function Bystanders(syn: SynOf, free: map<ResourceKey, nat>, owned: set<ConnTuple>, pkts: seq<Bytes>): seq<Bytes>
    decreases |pkts|
  {
    if pkts == [] then []
    else
      var n := |pkts| - 1;
      Bystanders(syn, free, owned, pkts[..n]) + if Bystander(syn, free, owned, pkts[n]) then [pkts[n]] else []
  }

  lemma {:induction false} BystandersMore(syn: SynOf, free: map<ResourceKey, nat>, owned: set<ConnTuple>,
                                          pkts: seq<Bytes>, p: Bytes)
    ensures Bystanders(syn, free, owned, pkts + [p])
         == Bystanders(syn, free, owned, pkts) + if Bystander(syn, free, owned, p) then [p] else []
  {
    assert (pkts + [p])[..|pkts|] == pkts;
  }

  lemma {:induction false} BystandersGetIn(syn: SynOf, free: map<ResourceKey, nat>, owned: set<ConnTuple>,
                                           pkts: seq<Bytes>)
    ensures Bystanders(syn, free, owned, Through(syn, free, owned, pkts)) == Bystanders(syn, free, owned, pkts)
    decreases |pkts|
  {
    if pkts != [] {
      var n := |pkts| - 1;
      BystandersGetIn(syn, free, owned, pkts[..n]);
      BystandersMore(syn, free, owned, Through(syn, free, owned, pkts[..n]), pkts[n]);
      assert Through(syn, free, owned, pkts[..n]) + [] == Through(syn, free, owned, pkts[..n]);
    }
  }

  /**
   Every poll hands on all packets that are no SYN (data, acknowledgements, DNS queries), and all SYNs for
   addresses that are no resource: in order, and as often as they come.
   */
  lemma {:induction false} BystandersPass(syn: SynOf, g: Gate, inner: seq<Bytes>, now: int)
    requires LocalEnd(syn)
    ensures Bystanders(syn, g.free, g.owned, Poll(syn, g, inner, now).1)
         == Bystanders(syn, g.free, g.owned, Offered(g, inner))
  {
    PollFollows(syn, g, inner, now);
    BystandersGetIn(syn, g.free, g.owned, Offered(g, inner));
  }

  /** Per resource a poll lets in as many SYNs as there are listeners and connections asking, whichever is fewer. */
  lemma {:induction false} ListenersAreUsed(syn: SynOf, g: Gate, inner: seq<Bytes>, now: int, k: ResourceKey)
    requires LocalEnd(syn) && k in g.free
    ensures var asking := |Wanted(syn, g.owned, Offered(g, inner), k)|;
            SynsFor(syn, Poll(syn, g, inner, now).1, k) == if asking <= g.free[k] then asking else g.free[k]
  {
    var g0 := g.(retry := []);
    assert Packets(Queue(g, inner)) == Offered(g, inner);
    OfferFollows(syn, g0, Queue(g, inner), now);
    WithinListeners(syn, g0, Queue(g, inner), now, k);
    var h := Poll(syn, g, inner, now).0;
    assert Left(g.free[k], h.free[k], Wanted(syn, g.owned, Offered(g, inner), k),
                Connected(syn, g.free, g.owned, Offered(g, inner)));
  }
}

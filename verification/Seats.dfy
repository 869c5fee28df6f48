/** Listener pools and the sockets in them: how one change to a socket keeps the pools in order. */
module Seats {
  import opened Common
  import opened Tcp
  import opened Flows

  type Pools = map<ResourceKey, seq<nat>>

  predicate SeatTaken(t: Table, index: map<nat, nat>, k: ResourceKey, i: nat, h: nat)
  {
    h in t.sockets && IsListener(At(t, h)) && t.sockets[h].bound == k && h in index && index[h] == i
  }

  predicate HasSeat(t: Table, pools: Pools, index: map<nat, nat>, h: nat)
    requires h in index
  {
    && h in t.sockets && IsListener(At(t, h)) && t.sockets[h].bound in pools
    && index[h] < |pools[t.sockets[h].bound]| && pools[t.sockets[h].bound][index[h]] == h
  }

  /** Pools hold listeners bound to their key, each once: `index` is where each of them sits. */
  ghost predicate PoolsOk(t: Table, pools: Pools, index: map<nat, nat>)
  {
    && (forall k, i :: k in pools && 0 <= i < |pools[k]| ==> SeatTaken(t, index, k, i, pools[k][i]))
    && (forall h :: h in index ==> HasSeat(t, pools, index, h))
  }

  /** Every listener sits in a pool. */
  ghost predicate AllSeated(t: Table, index: map<nat, nat>)
  {
    forall h :: h in t.sockets && IsListener(At(t, h)) ==> h in index
  }

  /** Relays are sockets, one socket answers DNS, every entry is in order. */
  ghost predicate ShapeOk(t: Table, dns: Option<nat>, nextTag: nat)
  {
    && t.relays.Keys <= t.sockets.Keys
    && (dns.Some? ==> dns.value in t.sockets)
    && (forall h :: h in t.sockets ==> (t.sockets[h].DnsSock? <==> dns == Some(h)))
    && TableOk(t, nextTag)
  }

  lemma {:induction false} OpenShape(t: Table, dns: Option<nat>, nextTag: nat, index: map<nat, nat>, k: ResourceKey,
                                     h: nat, i: nat)
    requires h !in t.sockets && ShapeOk(t, dns, nextTag) && AllSeated(t, index) && k.1 != 0
    ensures var u := t.(sockets := t.sockets[h := TcpSock(Listen, k, false)]);
            ShapeOk(u, dns, nextTag) && AllSeated(u, index[h := i])
  {
  }

  lemma {:induction false} OpenKeeps(t: Table, dns: Option<nat>, nextTag: nat, pools: Pools, index: map<nat, nat>,
                                     k: ResourceKey, h: nat)
    requires h !in t.sockets && k.1 != 0 && ShapeOk(t, dns, nextTag) && PoolsOk(t, pools, index) && AllSeated(t, index)
    ensures var pool := PoolOf(pools, k);
            var u := t.(sockets := t.sockets[h := TcpSock(Listen, k, false)]);
            ShapeOk(u, dns, nextTag) && PoolsOk(u, pools[k := pool + [h]], index[h := |pool|])
                && AllSeated(u, index[h := |pool|])
  {
    OpenShape(t, dns, nextTag, index, k, h, |PoolOf(pools, k)|);
    OpenSeat(t, pools, index, k, h);
  }

  function Pooled(pools: Pools): set<nat> { set k, i | k in pools && 0 <= i < |pools[k]| :: pools[k][i] }

  /** The socket set is the disjoint union of the pools, the relays and the DNS socket, and each listener sits once. */
  lemma {:induction false} SocketsPartition(t: Table, dns: Option<nat>, nextTag: nat, pools: Pools,
                                            index: map<nat, nat>)
    requires ShapeOk(t, dns, nextTag) && PoolsOk(t, pools, index) && AllSeated(t, index)
    ensures t.sockets.Keys == Pooled(pools) + t.relays.Keys + (if dns.Some? then {dns.value} else {})
    ensures Pooled(pools) !! t.relays.Keys
    ensures dns.Some? ==> dns.value !in Pooled(pools) && dns.value !in t.relays
    ensures forall k, i, k', i' ::
              && k in pools && k' in pools && 0 <= i < |pools[k]| && 0 <= i' < |pools[k']|
              && pools[k][i] == pools[k'][i']
              ==> k == k' && i == i'
  {
  }

  function PoolOf(pools: Pools, k: ResourceKey): seq<nat> { if k in pools then pools[k] else [] }

  lemma {:induction false} OpenSeat(t: Table, pools: Pools, index: map<nat, nat>, k: ResourceKey, h: nat)
    requires h !in t.sockets && h !in t.relays && PoolsOk(t, pools, index)
    ensures var pool := PoolOf(pools, k);
            PoolsOk(t.(sockets := t.sockets[h := TcpSock(Listen, k, false)]), pools[k := pool + [h]],
                    index[h := |pool|])
  {
  }

  lemma {:induction false} AddedMore(v: Table, w: Table, k: ResourceKey, served: set<ResourceKey>, h: nat)
    requires Added(v, w, {k}, served) && h !in w.sockets && h !in w.relays && k.1 != 0 && k !in served
    ensures Added(v, w.(sockets := w.sockets[h := TcpSock(Listen, k, false)]), {k}, served)
  {
  }

  lemma {:induction false} AddedTrans(v: Table, w: Table, x: Table, keys: set<ResourceKey>, k: ResourceKey,
                                      served: set<ResourceKey>, more: set<ResourceKey>)
    requires Added(v, w, keys, served) && Added(w, x, {k}, more) && served <= more
    ensures Added(v, x, keys + {k}, served)
  {
  }

  // ---- removing a pool ----

  lemma {:induction false} MinusMore<K, V>(m: map<K, V>, a: set<K>, k: K)
    ensures m - a - {k} == m - (a + {k})
  {
  }

  function Without(index: map<nat, nat>, t: Table, k: ResourceKey): map<nat, nat>
  {
    map h | h in index && !(h in t.sockets && t.sockets[h].TcpSock? && t.sockets[h].bound == k) :: index[h]
  }

  /** Taking a pool away leaves its listeners without a seat. */
  lemma {:induction false} DropPool(t: Table, pools: Pools, index: map<nat, nat>, k: ResourceKey)
    requires PoolsOk(t, pools, index)
    ensures PoolsOk(t, pools - {k}, Without(index, t, k))
  {
  }

  /** What happens to a socket without a seat does not disturb the pools. */
  lemma {:induction false} UnseatedChange(t: Table, u: Table, pools: Pools, index: map<nat, nat>, h: nat)
    requires PoolsOk(t, pools, index) && h !in index
    requires forall x :: x in t.sockets && x != h ==> x in u.sockets && At(u, x) == At(t, x)
    ensures PoolsOk(u, pools, index)
  {
  }

  /** Closing one listener of a removed pool. */
  function CloseAt(v: Table, h: nat, tag: nat): Table
    requires h in v.sockets && v.sockets[h].TcpSock?
  {
    if v.sockets[h].state.Listen? then Table(v.sockets - {h}, v.relays)
    else Table(v.sockets[h := Aborted(v.sockets[h])], v.relays[h := Relay(Some(tag), true, None)])
  }

  /** The first `j` listeners of the pool of `k` are closed, everything else is as before. */
  ghost predicate PoolPartly(v: Table, w: Table, index: map<nat, nat>, k: ResourceKey, j: nat, tag: nat)
  {
    && w.sockets.Keys <= v.sockets.Keys
    && forall h :: h in v.sockets ==>
         if h in index && v.sockets[h].TcpSock? && v.sockets[h].bound == k && index[h] < j then
           var r := RemoveEntry(At(v, h), {k}, tag);
           if r.None? then h !in w.sockets else h in w.sockets && At(w, h) == r.value
         else h in w.sockets && At(w, h) == At(v, h)
  }

  lemma {:induction false} PoolStep(v: Table, w: Table, pools: Pools, index: map<nat, nat>, k: ResourceKey, j: nat,
                                    tag: nat)
    requires PoolsOk(v, pools, index) && k in pools && j < |pools[k]| && v.relays.Keys <= v.sockets.Keys
    requires PoolPartly(v, w, index, k, j, tag) && w.relays.Keys <= w.sockets.Keys
    ensures var h := pools[k][j];
            && h in w.sockets && At(w, h) == At(v, h) && IsListener(At(w, h)) && w.sockets[h].bound == k
            && PoolPartly(v, CloseAt(w, h, tag), index, k, j + 1, tag)
  {
    var h := pools[k][j];
    assert SeatTaken(v, index, k, j, h);
    var x := CloseAt(w, h, tag);
    forall g | g in v.sockets && g != h
      ensures (g in w.sockets <==> g in x.sockets) && (g in w.sockets ==> At(x, g) == At(w, g))
      ensures g in index && v.sockets[g].TcpSock? && v.sockets[g].bound == k ==> index[g] != j
    {
      if g in index { assert HasSeat(v, pools, index, g); }
    }
  }

  lemma {:induction false} CloseKeeps(t: Table, dns: Option<nat>, nextTag: nat, pools: Pools, index: map<nat, nat>,
                                      h: nat, tag: nat)
    requires ShapeOk(t, dns, nextTag) && PoolsOk(t, pools, index)
    requires h in t.sockets && IsListener(At(t, h)) && h !in index && tag < nextTag
    ensures ShapeOk(CloseAt(t, h, tag), dns, nextTag) && PoolsOk(CloseAt(t, h, tag), pools, index)
  {
  }

  /** Once the whole pool is closed, the listeners left all have a seat. */
  lemma {:induction false} PoolClosed(v: Table, w: Table, pools: Pools, index: map<nat, nat>, k: ResourceKey, tag: nat)
    requires PoolsOk(v, pools, index) && AllSeated(v, index) && k in pools
             && PoolPartly(v, w, index, k, |pools[k]|, tag)
    ensures AllSeated(w, Without(index, v, k))
  {
  }

  /** The listeners bound to `keys` are closed, everything else is as before. */
  ghost predicate ListenersClosed(v: Table, w: Table, keys: set<ResourceKey>, tag: nat)
  {
    && w.sockets.Keys <= v.sockets.Keys
    && forall h :: h in v.sockets ==>
         var r := if IsListener(At(v, h)) then RemoveEntry(At(v, h), keys, tag) else Some(At(v, h));
         if r.None? then h !in w.sockets else h in w.sockets && At(w, h) == r.value
  }

  lemma {:induction false} PoolIsKey(v: Table, w: Table, pools: Pools, index: map<nat, nat>, k: ResourceKey, tag: nat)
    requires PoolsOk(v, pools, index) && AllSeated(v, index) && k in pools
             && PoolPartly(v, w, index, k, |pools[k]|, tag)
    ensures ListenersClosed(v, w, {k}, tag)
  {
  }

  lemma {:induction false} NoPoolNoListener(v: Table, pools: Pools, index: map<nat, nat>, k: ResourceKey, tag: nat)
    requires PoolsOk(v, pools, index) && AllSeated(v, index) && k !in pools
    ensures ListenersClosed(v, v, {k}, tag)
  {
  }

  lemma {:induction false} ListenersTrans(v: Table, w: Table, x: Table, keys: set<ResourceKey>, k: ResourceKey,
                                          tag: nat)
    requires ListenersClosed(v, w, keys, tag) && ListenersClosed(w, x, {k}, tag)
    ensures ListenersClosed(v, x, keys + {k}, tag)
  {
  }

  // ---- closing relays ----

  /** Closing one relay if it is bound to one of the keys, still has a peer and no tag. */
  function CloseRelayAt(v: Table, h: nat, keys: set<ResourceKey>, tag: nat): Table
    requires h in v.sockets && h in v.relays && v.sockets[h].TcpSock?
  {
    if v.relays[h].tag.None? && v.sockets[h].remote && v.sockets[h].bound in keys then
      Table(v.sockets[h := Aborted(v.sockets[h])], v.relays[h := v.relays[h].(tag := Some(tag), terminated := true)])
    else v
  }

  /** The relays outside `left` are closed as far as they have to be. */
  ghost predicate RelaysClosed(v: Table, w: Table, left: set<nat>, keys: set<ResourceKey>, tag: nat)
  {
    && w.sockets.Keys == v.sockets.Keys && w.relays.Keys == v.relays.Keys
    && forall h :: h in v.sockets ==>
         At(w, h) == if h in v.relays && h !in left && v.sockets[h].TcpSock? then RemoveEntry(At(v, h), keys, tag).value
             else At(v, h)
  }

  lemma {:induction false} CloseRelayShape(t: Table, dns: Option<nat>, nextTag: nat, index: map<nat, nat>, h: nat,
                                           keys: set<ResourceKey>, tag: nat)
    requires ShapeOk(t, dns, nextTag) && AllSeated(t, index) && h in t.relays && tag < nextTag
    ensures h in t.sockets && t.sockets[h].TcpSock?
    ensures var u := CloseRelayAt(t, h, keys, tag);
            && ShapeOk(u, dns, nextTag) && AllSeated(u, index)
            && forall x :: x in t.sockets && x != h ==> x in u.sockets && At(u, x) == At(t, x)
  {
  }

  lemma {:induction false} CloseRelayKeeps(t: Table, dns: Option<nat>, nextTag: nat, pools: Pools, index: map<nat, nat>,
                                           h: nat, keys: set<ResourceKey>, tag: nat)
    requires ShapeOk(t, dns, nextTag) && PoolsOk(t, pools, index) && AllSeated(t, index) && h in t.relays
             && tag < nextTag
    ensures h in t.sockets && t.sockets[h].TcpSock?
    ensures var u := CloseRelayAt(t, h, keys, tag);
            ShapeOk(u, dns, nextTag) && PoolsOk(u, pools, index) && AllSeated(u, index)
  {
    CloseRelayShape(t, dns, nextTag, index, h, keys, tag);
    RelayHasNoSeat(t, pools, index, h);
    UnseatedChange(t, CloseRelayAt(t, h, keys, tag), pools, index, h);
  }

  lemma {:induction false} RelayHasNoSeat(t: Table, pools: Pools, index: map<nat, nat>, h: nat)
    requires PoolsOk(t, pools, index) && h in t.relays
    ensures h !in index
  {
  }

  lemma {:induction false} RelaysAreTcp(t: Table, dns: Option<nat>, nextTag: nat)
    requires ShapeOk(t, dns, nextTag)
    ensures forall h :: h in t.relays ==> h in t.sockets && t.sockets[h].TcpSock?
  {
  }

  lemma {:induction false} RelayStep(v: Table, w: Table, left: set<nat>, keys: set<ResourceKey>, tag: nat, h: nat)
    requires RelaysClosed(v, w, left, keys, tag) && h in left && h in v.relays && h in v.sockets
             && v.sockets[h].TcpSock?
    ensures h in w.sockets && h in w.relays && w.sockets[h].TcpSock?
    ensures RelaysClosed(v, CloseRelayAt(w, h, keys, tag), left - {h}, keys, tag)
  {
  }

  lemma {:induction false} PhasesRemove(v: Table, w: Table, x: Table, keys: set<ResourceKey>, tag: nat)
    requires ListenersClosed(v, w, keys, tag) && RelaysClosed(w, x, {}, keys, tag)
    requires forall h :: h in w.relays ==> h in w.sockets && w.sockets[h].TcpSock?
    ensures Removed(v, x, keys, tag)
  {
  }

  // ---- closing the flows of connectors ----

  function CloseConnAt(v: Table, h: nat, ids: set<string>): Table
    requires h in v.sockets && h in v.relays && v.sockets[h].TcpSock?
  {
    if CarriedBy(v.relays[h], ids) then
      Table(v.sockets[h := Aborted(v.sockets[h])], v.relays[h := v.relays[h].(terminated := true)])
    else v
  }

  /** The relays outside `left` are closed as far as one of the connectors carries them. */
  ghost predicate ConnsPartly(v: Table, w: Table, left: set<nat>, ids: set<string>)
  {
    && w.sockets.Keys == v.sockets.Keys && w.relays.Keys == v.relays.Keys
    && forall h :: h in v.sockets ==> At(w, h) == if h in left then At(v, h) else CloseConnEntry(At(v, h), ids)
  }

  lemma {:induction false} CloseConnShape(t: Table, dns: Option<nat>, nextTag: nat, index: map<nat, nat>, h: nat,
                                          ids: set<string>)
    requires ShapeOk(t, dns, nextTag) && AllSeated(t, index) && h in t.relays
    ensures h in t.sockets && t.sockets[h].TcpSock?
    ensures var u := CloseConnAt(t, h, ids);
            && ShapeOk(u, dns, nextTag) && AllSeated(u, index)
            && forall x :: x in t.sockets && x != h ==> x in u.sockets && At(u, x) == At(t, x)
  {
  }

  lemma {:induction false} CloseConnKeeps(t: Table, dns: Option<nat>, nextTag: nat, pools: Pools, index: map<nat, nat>,
                                          h: nat, ids: set<string>)
    requires ShapeOk(t, dns, nextTag) && PoolsOk(t, pools, index) && AllSeated(t, index) && h in t.relays
    ensures h in t.sockets && t.sockets[h].TcpSock?
    ensures var u := CloseConnAt(t, h, ids);
            ShapeOk(u, dns, nextTag) && PoolsOk(u, pools, index) && AllSeated(u, index)
  {
    CloseConnShape(t, dns, nextTag, index, h, ids);
    RelayHasNoSeat(t, pools, index, h);
    UnseatedChange(t, CloseConnAt(t, h, ids), pools, index, h);
  }

  lemma {:induction false} ConnStep(v: Table, w: Table, left: set<nat>, ids: set<string>, h: nat)
    requires ConnsPartly(v, w, left, ids) && h in left && h in v.relays && h in v.sockets && v.sockets[h].TcpSock?
    ensures h in w.sockets && h in w.relays && w.sockets[h].TcpSock? && w.relays[h] == v.relays[h]
    ensures ConnsPartly(v, CloseConnAt(w, h, ids), left - {h}, ids)
  {
  }

  /** The relays carried by one of the connectors. */
  ghost function Carried(relays: map<nat, Relay>, ids: set<string>): set<nat>
  {
    set h | h in relays && CarriedBy(relays[h], ids)
  }

  lemma {:induction false} CarriedNext(relays: map<nat, Relay>, ids: set<string>, left: set<nat>, h: nat)
    requires h in left && h in relays
    ensures |Carried(relays, ids) - (left - {h})| == |Carried(relays, ids) - left| + if CarriedBy(relays[h], ids) then 1
              else 0
  {
    var c := Carried(relays, ids);
    assert c - (left - {h}) == c - left + if CarriedBy(relays[h], ids) then {h} else {};
  }

  ghost predicate ConnsClosing(v: Table, w: Table, left: set<nat>, ids: set<string>, closed: nat)
  {
    && ConnsPartly(v, w, left, ids) && closed == |Carried(v.relays, ids) - left|
    && left <= v.relays.Keys && forall h :: h in left ==> h in v.sockets && v.sockets[h].TcpSock?
  }

  lemma {:induction false} ClosingStart(v: Table, dns: Option<nat>, nextTag: nat, ids: set<string>)
    requires ShapeOk(v, dns, nextTag)
    ensures ConnsClosing(v, v, v.relays.Keys, ids, 0)
  {
    RelaysAreTcp(v, dns, nextTag);
    assert Carried(v.relays, ids) - v.relays.Keys == {};
  }

  lemma {:induction false} ClosingNext(v: Table, w: Table, left: set<nat>, ids: set<string>, closed: nat, h: nat)
    requires ConnsClosing(v, w, left, ids, closed) && h in left
    ensures h in w.sockets && h in w.relays && w.sockets[h].TcpSock?
    ensures ConnsClosing(v, CloseConnAt(w, h, ids), left - {h}, ids, closed + if CarriedBy(w.relays[h], ids) then 1
                         else 0)
  {
    ConnStep(v, w, left, ids, h);
    CarriedNext(v.relays, ids, left, h);
  }

  lemma {:induction false} ClosingEnd(v: Table, w: Table, ids: set<string>, closed: nat)
    requires ConnsClosing(v, w, {}, ids, closed)
    ensures ConnsClosed(v, w, ids) && closed == |Carried(v.relays, ids)|
  {
    assert Carried(v.relays, ids) - {} == Carried(v.relays, ids);
  }

  // ---- polls ----

  lemma {:induction false} PollSeats(v: Table, w: Table, dns: Option<nat>, nextTag: nat, pools: Pools,
                                     index: map<nat, nat>)
    requires ShapeOk(v, dns, nextTag) && PoolsOk(v, pools, index) && AllSeated(v, index) && Polled(v, w, nextTag)
    ensures ShapeOk(w, dns, nextTag) && PoolsOk(w, pools, index) && AllSeated(w, index)
  {
    forall h | h in index ensures HasSeat(w, pools, index, h) {
      assert HasSeat(v, pools, index, h) && PollMay(At(v, h), At(w, h), nextTag);
    }
    forall k, i | k in pools && 0 <= i < |pools[k]| ensures SeatTaken(w, index, k, i, pools[k][i]) {
      assert SeatTaken(v, index, k, i, pools[k][i]) && PollMay(At(v, pools[k][i]), At(w, pools[k][i]), nextTag);
    }
    forall h | h in w.sockets ensures EntryOk(At(w, h), nextTag) && (IsListener(At(w, h)) ==> h in index) {
      assert PollMay(At(v, h), At(w, h), nextTag);
    }
  }

  // ---- promotion ----

  function Replaced(pool: seq<nat>, i: nat, f: nat): (r: seq<nat>)
    requires i < |pool|
    ensures |r| == |pool| && forall j :: 0 <= j < |pool| ==> r[j] == if j == i then f else pool[j]
  {
    pool[..i] + [f] + pool[i + 1..]
  }

  /** A fresh listener takes the seat of an accepted one. */
  lemma {:induction false} ReplaceSeat(t: Table, pools: Pools, index: map<nat, nat>, k: ResourceKey, i: nat, f: nat)
    requires PoolsOk(t, pools, index) && k in pools && i < |pools[k]| && f !in t.sockets && f !in t.relays
    ensures var u := t.(sockets := t.sockets[f := TcpSock(Listen, k, false)]);
            PoolsOk(u, pools[k := Replaced(pools[k], i, f)], (index - {pools[k][i]})[f := i])
  {
  }

  /** Accepted listeners have left their pool, all others still sit in one. */
  ghost predicate Limbo(t: Table, index: map<nat, nat>, acc: set<nat>)
  {
    && (forall h :: h in t.sockets && IsListener(At(t, h)) ==> h in index || h in acc)
    && (forall h :: h in acc ==> h in t.sockets && h !in index && IsListener(At(t, h)) && IsActive(t.sockets[h].state))
  }

  /** Nothing changed but fresh listeners for keys that are served. */
  ghost predicate Refilled(v: Table, w: Table, served: set<ResourceKey>)
  {
    && (forall h :: h in v.sockets ==> h in w.sockets && At(w, h) == At(v, h))
    && OnlyFresh(v, w, served)
  }

  lemma {:induction false} RefillShape(w: Table, dns: Option<nat>, nextTag: nat, h: nat, f: nat)
    requires ShapeOk(w, dns, nextTag) && h in w.sockets && IsListener(At(w, h)) && f !in w.sockets
    ensures w.sockets[h].bound.1 != 0
    ensures ShapeOk(w.(sockets := w.sockets[f := TcpSock(Listen, w.sockets[h].bound, false)]), dns, nextTag)
  {
  }

  lemma {:induction false} RefillSeat(v: Table, w: Table, served: set<ResourceKey>, index: map<nat, nat>, acc: set<nat>,
                                      h: nat, f: nat, i: nat)
    requires Limbo(w, index, acc) && Refilled(v, w, served)
    requires h in w.sockets && h in index && IsListener(At(w, h)) && IsActive(w.sockets[h].state)
    requires f !in w.sockets && f !in w.relays && w.sockets[h].bound.1 != 0 && w.sockets[h].bound in served
    ensures var x := w.(sockets := w.sockets[f := TcpSock(Listen, w.sockets[h].bound, false)]);
            Limbo(x, (index - {h})[f := i], acc + {h}) && Refilled(v, x, served)
  {
  }

  /** While connections are being accepted: `acc` have left their pools and are no relays yet. */
  ghost predicate Accepting(v: Table, t: Table, dns: Option<nat>, nextTag: nat, pools: Pools, index: map<nat, nat>,
                            acc: set<nat>)
  {
    ShapeOk(t, dns, nextTag) && PoolsOk(t, pools, index) && Limbo(t, index, acc) && Refilled(v, t, pools.Keys)
  }

  lemma {:induction false} RefillKeeps(v: Table, t: Table, dns: Option<nat>, nextTag: nat, pools: Pools,
                                       index: map<nat, nat>, acc: set<nat>, k: ResourceKey, i: nat, f: nat)
    requires Accepting(v, t, dns, nextTag, pools, index, acc) && k in pools && i < |pools[k]| && f !in t.sockets
    requires pools[k][i] in t.sockets && t.sockets[pools[k][i]].TcpSock? && IsActive(t.sockets[pools[k][i]].state)
    ensures Accepting(v, t.(sockets := t.sockets[f := TcpSock(Listen, k, false)]), dns, nextTag,
                      pools[k := Replaced(pools[k], i, f)], (index - {pools[k][i]})[f := i], acc + {pools[k][i]})
  {
    var h := pools[k][i];
    assert SeatTaken(t, index, k, i, h);
    RefillShape(t, dns, nextTag, h, f);
    RefillSeat(v, t, pools.Keys, index, acc, h, f, i);
    assert pools[k := Replaced(pools[k], i, f)].Keys == pools.Keys;
    ReplaceSeat(t, pools, index, k, i, f);
  }

  /** The slot after refilling: the same listener, or a fresh one if it had taken a connection. */
  predicate SlotIs(s: map<nat, Sock>, h: nat, f: nat)
    requires h in s && s[h].TcpSock?
  {
    if IsActive(s[h].state) then f !in s else f == h
  }

  predicate InTable(s: map<nat, Sock>, h: nat) { h in s && s[h].TcpSock? }

  /** The first `n` slots of a pool are refilled, the others are as they were. */
  ghost predicate PoolDone(s: map<nat, Sock>, pool: seq<nat>, now: seq<nat>, n: nat)
  {
    && n <= |pool| == |now| && (forall j :: 0 <= j < |pool| ==> InTable(s, pool[j]))
    && (forall j :: 0 <= j < n ==> SlotIs(s, pool[j], now[j]))
    && (forall j :: n <= j < |pool| ==> now[j] == pool[j])
  }

  lemma {:induction false} SlotDone(s: map<nat, Sock>, pool: seq<nat>, now: seq<nat>, i: nat, f: nat)
    requires PoolDone(s, pool, now, i) && i < |pool| && IsActive(s[pool[i]].state) && f !in s
    ensures PoolDone(s, pool, Replaced(now, i, f), i + 1)
  {
  }

  /** The pools for the keys outside `todo` are refilled. */
  ghost predicate PoolsDone(s: map<nat, Sock>, p: Pools, q: Pools, todo: set<ResourceKey>)
  {
    q.Keys == p.Keys && forall k :: k in p ==> PoolDone(s, p[k], q[k], if k in todo then 0 else |p[k]|)
  }

  lemma {:induction false} PoolsStart(t: Table, pools: Pools, index: map<nat, nat>)
    requires PoolsOk(t, pools, index)
    ensures PoolsDone(t.sockets, pools, pools, pools.Keys)
  {
    forall k | k in pools ensures PoolDone(t.sockets, pools[k], pools[k], 0) {
      forall j | 0 <= j < |pools[k]| ensures InTable(t.sockets, pools[k][j]) {
        assert SeatTaken(t, index, k, j, pools[k][j]);
      }
    }
  }

  /** Only the pool of `k` may have changed. */
  ghost predicate OnlyAt(p: Pools, q: Pools, k: ResourceKey)
  {
    q.Keys == p.Keys && forall j :: j in p && j != k ==> q[j] == p[j]
  }

  lemma {:induction false} OnlyThen(p: Pools, q: Pools, r: Pools, k: ResourceKey)
    requires OnlyAt(p, q, k) && OnlyAt(q, r, k)
    ensures OnlyAt(p, r, k)
  {
  }

  lemma {:induction false} PoolNext(s: map<nat, Sock>, p: Pools, q: Pools, q': Pools, todo: set<ResourceKey>,
                                    k: ResourceKey)
    requires PoolsDone(s, p, q, todo) && k in p && k in q' && OnlyAt(q, q', k) && PoolDone(s, p[k], q'[k], |p[k]|)
    ensures PoolsDone(s, p, q', todo - {k})
  {
  }

  /** While the pool of `k` is being refilled: its first `i` slots are done. */
  ghost predicate Refilling(v: Table, t: Table, dns: Option<nat>, nextTag: nat, pools: Pools, index: map<nat, nat>,
                            acc: set<nat>, pool: seq<nat>, k: ResourceKey, i: nat)
  {
    Accepting(v, t, dns, nextTag, pools, index, acc) && k in pools && PoolDone(v.sockets, pool, pools[k], i)
  }

  lemma {:induction false} RefillIdle(v: Table, t: Table, dns: Option<nat>, nextTag: nat, pools: Pools,
                                      index: map<nat, nat>, acc: set<nat>, pool: seq<nat>, k: ResourceKey, i: nat)
    requires Refilling(v, t, dns, nextTag, pools, index, acc, pool, k, i) && i < |pool|
    ensures pools[k][i] in t.sockets && t.sockets[pools[k][i]].TcpSock? && k.1 != 0
    ensures !IsActive(t.sockets[pools[k][i]].state) ==> Refilling(v, t, dns, nextTag, pools, index, acc, pool, k, i + 1)
  {
    assert SeatTaken(t, index, k, i, pools[k][i]);
    assert InTable(v.sockets, pool[i]) && At(t, pool[i]) == At(v, pool[i]);
  }

  lemma {:induction false} RefillActive(v: Table, t: Table, dns: Option<nat>, nextTag: nat, pools: Pools,
                                        index: map<nat, nat>, acc: set<nat>, pool: seq<nat>, k: ResourceKey, i: nat,
                                        f: nat)
    requires Refilling(v, t, dns, nextTag, pools, index, acc, pool, k, i) && i < |pool| && f !in t.sockets
    requires pools[k][i] in t.sockets && t.sockets[pools[k][i]].TcpSock? && IsActive(t.sockets[pools[k][i]].state)
    ensures Refilling(v, t.(sockets := t.sockets[f := TcpSock(Listen, k, false)]), dns, nextTag,
                      pools[k := Replaced(pools[k], i, f)], (index - {pools[k][i]})[f := i], acc + {pools[k][i]}, pool,
                          k, i + 1)
  {
    RefillKeeps(v, t, dns, nextTag, pools, index, acc, k, i, f);
    assert InTable(v.sockets, pool[i]) && At(t, pool[i]) == At(v, pool[i]);
    SlotDone(v.sockets, pool, pools[k], i, f);
  }

  /** The accepted connection `h` becomes a relay, or is reset when no connector is online. */
  function PromoteAt(t: Table, h: nat, online: set<ResourceKey>): Table
    requires h in t.sockets && IsListener(At(t, h))
  {
    if t.sockets[h].bound in online then Table(t.sockets, t.relays[h := Relay(None, false, None)])
    else Table(t.sockets[h := Aborted(t.sockets[h])], t.relays[h := Relay(None, true, None)])
  }

  /** All accepted connections outside `acc` are promoted. */
  ghost predicate PartlyPromoted(v: Table, w: Table, online: set<ResourceKey>, served: set<ResourceKey>, acc: set<nat>)
  {
    && (forall h :: h in v.sockets ==>
          h in w.sockets && At(w, h) == if h in acc then At(v, h) else PromoteEntry(At(v, h), online))
    && OnlyFresh(v, w, served)
    && acc <= v.sockets.Keys
  }

  lemma {:induction false} PromoteShape(w: Table, dns: Option<nat>, nextTag: nat, h: nat, online: set<ResourceKey>)
    requires ShapeOk(w, dns, nextTag) && h in w.sockets && IsListener(At(w, h)) && IsActive(w.sockets[h].state)
    ensures ShapeOk(PromoteAt(w, h, online), dns, nextTag)
    ensures forall g :: g in w.sockets && g != h ==>
              g in PromoteAt(w, h, online).sockets && At(PromoteAt(w, h, online), g) == At(w, g)
  {
  }

  lemma {:induction false} PromoteStep(v: Table, w: Table, index: map<nat, nat>, online: set<ResourceKey>,
                                       served: set<ResourceKey>, acc: set<nat>, h: nat)
    requires Limbo(w, index, acc) && PartlyPromoted(v, w, online, served, acc) && h in acc
    ensures Limbo(PromoteAt(w, h, online), index, acc - {h})
            && PartlyPromoted(v, PromoteAt(w, h, online), online, served, acc - {h})
  {
  }

  /** While accepted connections are being promoted. */
  ghost predicate Promoting(v: Table, t: Table, dns: Option<nat>, nextTag: nat, pools: Pools, index: map<nat, nat>,
                            online: set<ResourceKey>, acc: set<nat>)
  {
    ShapeOk(t, dns, nextTag) && PoolsOk(t, pools, index) && Limbo(t, index, acc)
        && PartlyPromoted(v, t, online, pools.Keys, acc)
  }

  lemma {:induction false} PromoteOneKeeps(v: Table, t: Table, dns: Option<nat>, nextTag: nat, pools: Pools,
                                           index: map<nat, nat>, online: set<ResourceKey>, acc: set<nat>, h: nat)
    requires Promoting(v, t, dns, nextTag, pools, index, online, acc) && h in acc
    ensures h in t.sockets && IsListener(At(t, h))
    ensures Promoting(v, PromoteAt(t, h, online), dns, nextTag, pools, index, online, acc - {h})
  {
    PromoteShape(t, dns, nextTag, h, online);
    PromoteStep(v, t, index, online, pools.Keys, acc, h);
    UnseatedChange(t, PromoteAt(t, h, online), pools, index, h);
  }

  lemma {:induction false} SeatedIsIdle(v: Table, t: Table, before: Pools, pools: Pools, index: map<nat, nat>, h: nat)
    requires PoolsOk(t, pools, index) && PoolsDone(v.sockets, before, pools, {}) && h in index && h in v.sockets
    ensures InTable(v.sockets, h) && !IsActive(v.sockets[h].state)
  {
    assert HasSeat(t, pools, index, h);
    var k, i := t.sockets[h].bound, index[h];
    assert PoolDone(v.sockets, before[k], pools[k], |before[k]|) && InTable(v.sockets, before[k][i]);
    assert SlotIs(v.sockets, before[k][i], h);
  }

  lemma {:induction false} AcceptedAll(v: Table, t: Table, dns: Option<nat>, nextTag: nat, before: Pools, pools: Pools,
                                       index: map<nat, nat>, online: set<ResourceKey>, acc: set<nat>)
    requires Accepting(v, t, dns, nextTag, pools, index, acc) && PoolsDone(v.sockets, before, pools, {})
    ensures Promoting(v, t, dns, nextTag, pools, index, online, acc)
  {
    forall h | h in v.sockets && h !in acc ensures At(v, h) == PromoteEntry(At(v, h), online) {
      if h in index { SeatedIsIdle(v, t, before, pools, index, h); }
    }
  }

  lemma {:induction false} PromotedAll(v: Table, t: Table, dns: Option<nat>, nextTag: nat, pools: Pools,
                                       index: map<nat, nat>, online: set<ResourceKey>)
    requires Promoting(v, t, dns, nextTag, pools, index, online, {})
    ensures AllSeated(t, index) && Promoted(v, t, online, pools.Keys)
  {
  }

  // ---- driving ----

  function DriveAt(t: Table, h: nat, d: Drive): Table
    requires h in t.sockets && h in t.relays
  {
    match DriveEntry(At(t, h), d)
    case None => Table(t.sockets - {h}, t.relays - {h})
    case Some(e) => if e.relay.Some? then Table(t.sockets[h := e.sock], t.relays[h := e.relay.value]) else t
  }

  /** The relays outside `left` have been driven. */
  ghost predicate PartlyDriven(v: Table, w: Table, driven: map<nat, Drive>, left: set<nat>)
  {
    && w.sockets.Keys <= v.sockets.Keys
    && forall h :: h in v.sockets ==>
         var r := if h in v.relays && h !in left then DriveEntry(At(v, h), DriveFor(driven, h)) else Some(At(v, h));
         if r.None? then h !in w.sockets else h in w.sockets && At(w, h) == r.value
  }

  lemma {:induction false} DriveShape(t: Table, dns: Option<nat>, nextTag: nat, index: map<nat, nat>, h: nat, d: Drive)
    requires ShapeOk(t, dns, nextTag) && AllSeated(t, index) && h in t.relays
    ensures h in t.sockets
    ensures var u := DriveAt(t, h, d);
            && ShapeOk(u, dns, nextTag) && AllSeated(u, index)
            && forall x :: x in t.sockets && x != h ==> x in u.sockets && At(u, x) == At(t, x)
  {
  }

  lemma {:induction false} DriveStep(v: Table, w: Table, driven: map<nat, Drive>, left: set<nat>, h: nat)
    requires PartlyDriven(v, w, driven, left) && h in left && h in v.relays && h in v.sockets && v.sockets[h].TcpSock?
    ensures h in w.sockets && h in w.relays
    ensures PartlyDriven(v, DriveAt(w, h, DriveFor(driven, h)), driven, left - {h})
  {
  }

  lemma {:induction false} DriveKeeps(t: Table, dns: Option<nat>, nextTag: nat, pools: Pools, index: map<nat, nat>,
                                      h: nat, d: Drive)
    requires ShapeOk(t, dns, nextTag) && PoolsOk(t, pools, index) && AllSeated(t, index) && h in t.relays
    ensures h in t.sockets
    ensures var u := DriveAt(t, h, d);
            ShapeOk(u, dns, nextTag) && PoolsOk(u, pools, index) && AllSeated(u, index)
  {
    DriveShape(t, dns, nextTag, index, h, d);
    RelayHasNoSeat(t, pools, index, h);
    UnseatedChange(t, DriveAt(t, h, d), pools, index, h);
  }

  // ---- what a service pass leaves in the pools ----

  predicate Listens(s: map<nat, Sock>, h: nat) { InTable(s, h) && s[h].state.Listen? }

  predicate IsOver(s: map<nat, Sock>, h: nat) { InTable(s, h) && Over(s[h].state) }

  /** Slot by slot: it listens afterwards exactly when its connection was not over, and a dead listener stays in it. */
  ghost predicate RefilledExactly(s: map<nat, Sock>, p: Pools, s': map<nat, Sock>, q: Pools)
  {
    q.Keys == p.Keys && forall k :: k in p ==> PoolRefilled(s, p[k], s', q[k])
  }

  ghost predicate PoolRefilled(s: map<nat, Sock>, pool: seq<nat>, s': map<nat, Sock>, now: seq<nat>)
  {
    && |now| == |pool|
    && (forall i :: 0 <= i < |pool| ==> (Listens(s', now[i]) <==> !IsOver(s, pool[i])))
    && (forall i :: 0 <= i < |pool| && IsOver(s, pool[i]) ==> now[i] == pool[i] && IsOver(s', now[i]))
  }

  lemma {:induction false} SlotServed(v: Table, mid: Table, w: Table, online: set<ResourceKey>,
                                      served: set<ResourceKey>, driven: map<nat, Drive>, h: nat, f: nat)
    requires Promoted(v, mid, online, served) && Driven(mid, w, driven)
    requires InTable(v.sockets, h) && IsListener(At(v, h)) && SlotIs(v.sockets, h, f) && f in w.sockets
             && IsListener(At(w, f))
    ensures Listens(w.sockets, f) <==> !IsOver(v.sockets, h)
    ensures IsOver(v.sockets, h) ==> f == h && IsOver(w.sockets, f)
  {
    assert f in mid.sockets;
    if f !in v.sockets {
      assert IsFresh(At(mid, f), served);
    }
  }

  lemma {:induction false} PoolsServed(v: Table, mid: Table, w: Table, online: set<ResourceKey>,
                                       served: set<ResourceKey>, driven: map<nat, Drive>, p: Pools, q: Pools,
                                       index: map<nat, nat>, index': map<nat, nat>)
    requires Promoted(v, mid, online, served) && Driven(mid, w, driven) && PoolsDone(v.sockets, p, q, {})
    requires PoolsOk(v, p, index) && PoolsOk(w, q, index')
    ensures RefilledExactly(v.sockets, p, w.sockets, q)
  {
    forall k | k in p ensures PoolRefilled(v.sockets, p[k], w.sockets, q[k]) {
      assert PoolDone(v.sockets, p[k], q[k], |p[k]|);
      forall i | 0 <= i < |p[k]|
        ensures (Listens(w.sockets, q[k][i]) <==> !IsOver(v.sockets, p[k][i]))
        ensures IsOver(v.sockets, p[k][i]) ==> q[k][i] == p[k][i] && IsOver(w.sockets, q[k][i])
      {
        assert SeatTaken(v, index, k, i, p[k][i]) && SeatTaken(w, index', k, i, q[k][i]);
        SlotServed(v, mid, w, online, served, driven, p[k][i], q[k][i]);
      }
    }
  }

  ghost predicate AllListen(s: map<nat, Sock>, pool: seq<nat>) { forall i :: 0 <= i < |pool| ==> Listens(s, pool[i]) }

  ghost predicate NoneOver(s: map<nat, Sock>, pool: seq<nat>) { forall i :: 0 <= i < |pool| ==> !IsOver(s, pool[i]) }

  /** Per key: every slot listens after a service pass if and only if none of its connections was over. */
  ghost predicate ListenIff(s: map<nat, Sock>, p: Pools, s': map<nat, Sock>, q: Pools)
  {
    q.Keys == p.Keys && forall k :: k in p ==> (AllListen(s', q[k]) <==> NoneOver(s, p[k]))
  }

  lemma {:induction false} PoolsListen(s: map<nat, Sock>, p: Pools, s': map<nat, Sock>, q: Pools)
    requires RefilledExactly(s, p, s', q)
    ensures ListenIff(s, p, s', q)
  {
    forall k | k in p ensures AllListen(s', q[k]) <==> NoneOver(s, p[k]) {
      assert PoolRefilled(s, p[k], s', q[k]);
      forall i | 0 <= i < |p[k]| ensures Listens(s', q[k][i]) <==> !IsOver(s, p[k][i]) { }
    }
  }

  // ---- pools over turns ----

  /** The keys outside `removed` keep their pools and the listeners in them. */
  ghost predicate PoolsKept(s: map<nat, Sock>, p: Pools, s': map<nat, Sock>, q: Pools, removed: set<ResourceKey>)
  {
    forall k :: k in p && k !in removed ==> k in q && q[k] == p[k] && SameSockets(s, s', p[k])
  }

  predicate SameSockets(s: map<nat, Sock>, s': map<nat, Sock>, pool: seq<nat>)
  {
    forall i :: 0 <= i < |pool| ==> pool[i] in s && pool[i] in s' && s'[pool[i]] == s[pool[i]]
  }

  lemma {:induction false} KeptThen(s: map<nat, Sock>, p: Pools, s': map<nat, Sock>, q: Pools, s'': map<nat, Sock>,
                                    q': Pools, a: set<ResourceKey>, b: set<ResourceKey>)
    requires PoolsKept(s, p, s', q, a) && PoolsKept(s', q, s'', q', b)
    ensures PoolsKept(s, p, s'', q', a + b)
  {
    forall k | k in p && k !in a + b ensures k in q' && q'[k] == p[k] && SameSockets(s, s'', p[k]) {
      assert SameSockets(s, s', p[k]) && SameSockets(s', s'', q[k]);
    }
  }

  /** The pools of the keys outside `removed` are refilled slot by slot. */
  ghost predicate KeysRefilled(s: map<nat, Sock>, p: Pools, s': map<nat, Sock>, q: Pools, removed: set<ResourceKey>)
  {
    forall k :: k in p && k !in removed ==> k in q && PoolRefilled(s, p[k], s', q[k])
  }

  lemma {:induction false} KeptThenRefilled(s: map<nat, Sock>, p: Pools, s': map<nat, Sock>, q: Pools,
                                            s'': map<nat, Sock>, q': Pools, removed: set<ResourceKey>)
    requires PoolsKept(s, p, s', q, removed) && RefilledExactly(s', q, s'', q')
    ensures KeysRefilled(s, p, s'', q', removed)
  {
    forall k | k in p && k !in removed ensures k in q' && PoolRefilled(s, p[k], s'', q'[k]) {
      assert SameSockets(s, s', p[k]) && PoolRefilled(s', q[k], s'', q'[k]);
    }
  }

  predicate DeadSlot(s: map<nat, Sock>, pools: Pools, k: ResourceKey, i: nat)
  {
    k in pools && i < |pools[k]| && IsOver(s, pools[k][i])
  }

  /** Every dead slot of a key outside `removed` is dead again, with the same listener in it. */
  ghost predicate DeadStay(s: map<nat, Sock>, p: Pools, s': map<nat, Sock>, q: Pools, removed: set<ResourceKey>)
  {
    forall k, i: nat :: k !in removed && DeadSlot(s, p, k, i) ==> DeadSlot(s', q, k, i) && q[k][i] == p[k][i]
  }

  lemma {:induction false} DeadThen(s: map<nat, Sock>, p: Pools, s': map<nat, Sock>, q: Pools, s'': map<nat, Sock>,
                                    q': Pools, a: set<ResourceKey>, b: set<ResourceKey>)
    requires DeadStay(s, p, s', q, a) && DeadStay(s', q, s'', q', b)
    ensures DeadStay(s, p, s'', q', a + b)
  {
  }

  /** A poll, the commands and a service pass: a dead slot stays dead unless its key is removed. */
  lemma {:induction false} DeadTurn(v: Table, w: Table, nextTag: nat, p: Pools, s: map<nat, Sock>, q: Pools,
                                    removed: set<ResourceKey>)
    requires Polled(v, w, nextTag) && KeysRefilled(w.sockets, p, s, q, removed)
    ensures DeadStay(v.sockets, p, s, q, removed)
  {
    forall k, i: nat | k !in removed && DeadSlot(v.sockets, p, k, i) ensures DeadSlot(s, q, k, i)
        && q[k][i] == p[k][i] {
      assert PollMay(At(v, p[k][i]), At(w, p[k][i]), nextTag) && PoolRefilled(w.sockets, p[k], s, q[k]);
    }
  }
}

/**
 Listener pools and relay sockets of the smoltcp loop, as the source keeps them: a socket set,
 a pool of listeners per resource and a map of relays (`FlowTable`, `apply_resource_cmd`,
 `complete_pending_closes` and one turn of `run`, client/src/net_stack.rs).
 */
module FlowTable {
  import opened Common
  import opened Tcp
  import opened Flows
  import opened Removal
  import opened Effects
  import opened Seats

  const LISTEN_BACKLOG: nat := 1

  class FlowTable {
    var sockets: map<nat, Sock>
    var pools: Pools
    var relays: map<nat, Relay>
    var dns: Option<nat>
    var nextTag: nat
    var removed: nat
    var failClosed: nat
    /** Removals waiting for their sockets, and removals acknowledged. */
    var pending: seq<nat>
    var acked: seq<nat>
    /** Relays ever created; where each pooled listener sits; what each removal removed and was not added again. */
    ghost var created: nat
    ghost var index: map<nat, nat>
    ghost var promised: map<nat, Promised>

    function View(): Table
      reads this
    {
      Table(sockets, relays)
    }

    ghost function Now(): State
      reads this
    {
      State(View(), pools, pending, promised, nextTag)
    }

    ghost predicate Valid()
      reads this
    {
      && ShapeOk(View(), dns, nextTag) && PoolsOk(View(), pools, index) && AllSeated(View(), index)
      && created == |relays| + removed
    }

    /** Between two turns of the loop. */
    ghost predicate Loop()
      reads this
    {
      && Valid() && FullPools(pools) && Promises(View(), promised, pools.Keys, nextTag)
      && TagsWithin(View(), pending, promised) && PendingKnown(pending, promised)
    }

    /** Between the commands of a turn. */
    ghost predicate Commanding()
      reads this
    {
      Valid() && Promising(Now())
    }

    /** An empty table, with the DNS socket if there is one. */
    constructor (withDns: bool)
      ensures Loop() && pools == map[] && relays == map[] && nextTag == 0 && pending == acked == []
      ensures sockets == if withDns then map[0 := DnsSock] else map[]
    {
      sockets := if withDns then map[0 := DnsSock] else map[];
      dns := if withDns then Some(0) else None;
      pools, relays, nextTag, removed, failClosed, created, index := map[], map[], 0, 0, 0, 0, map[];
      pending, acked, promised := [], [], map[];
    }

    // ---- sockets ----

    /** The first free slot of the socket set. */
    method NewHandle() returns (h: nat)
      ensures h !in sockets && forall i: nat :: i < h ==> i in sockets
    {
      h := 0;
      ghost var rest := sockets.Keys;
      while h in sockets
        invariant forall i: nat :: i in sockets && i !in rest ==> i < h
        invariant forall i: nat :: i < h ==> i in sockets
        invariant rest <= sockets.Keys
        decreases rest
      {
        rest := rest - {h};
        h := h + 1;
      }
    }

    /** A new socket listening for `key`; port 0 cannot listen. */
    method NewListenSocket(key: ResourceKey) returns (r: Option<nat>)
      modifies this`sockets
      ensures r.Some? <==> key.1 != 0
      ensures r.Some? ==> r.value !in old(sockets) && sockets == old(sockets)[r.value := TcpSock(Listen, key, false)]
      ensures r.None? ==> sockets == old(sockets)
    {
      if key.1 == 0 {
        return None;
      }
      var h := NewHandle();
      sockets := sockets[h := TcpSock(Listen, key, false)];
      return Some(h);
    }

    /** One more listener in the pool of `key`. */
    method Open(key: ResourceKey)
      requires Valid()
      modifies this`sockets, this`pools, this`index
      ensures Valid()
      ensures key.1 == 0 ==> sockets == old(sockets) && pools == old(pools)
      ensures key.1 != 0 ==> exists h :: h !in old(sockets) && sockets == old(sockets)[h := TcpSock(Listen, key, false)]
                                      && pools == old(pools)[key := PoolOf(old(pools), key) + [h]]
    {
      var r := NewListenSocket(key);
      if r.Some? {
        OpenKeeps(old(View()), dns, nextTag, pools, index, key, r.value);
        pools, index := pools[key := PoolOf(pools, key) + [r.value]], index[r.value := |PoolOf(pools, key)|];
      }
    }

    /** Starts serving one key, if it is not served yet and can be. */
    method AddOne(key: ResourceKey)
      requires Valid()
      modifies this`sockets, this`pools, this`index
      ensures Valid() && Added(old(View()), View(), {key}, old(pools).Keys)
      ensures key in old(pools) || key.1 == 0 ==> sockets == old(sockets) && pools == old(pools)
      ensures forall k :: k in pools <==> k in old(pools) || (k == key && k.1 != 0)
      ensures FullPools(old(pools)) ==> FullPools(pools)
      ensures forall k :: k in old(pools) ==> pools[k] == old(pools)[k]
    {
      if key !in pools {
        for i := 0 to LISTEN_BACKLOG
          invariant Valid() && Added(old(View()), View(), {key}, old(pools).Keys)
          invariant key.1 == 0 ==> sockets == old(sockets) && pools == old(pools)
          invariant key.1 != 0 ==> |PoolOf(pools, key)| == i && pools == if i == 0 then old(pools)
                      else old(pools)[key := PoolOf(pools, key)]
        {
          ghost var w := View();
          Open(key);
          if key.1 != 0 {
            ghost var h :| h !in w.sockets && sockets == w.sockets[h := TcpSock(Listen, key, false)];
            AddedMore(old(View()), w, key, old(pools).Keys, h);
          }
        }
      }
    }

    /** `add_listeners` */
    method AddListeners(keys: seq<ResourceKey>)
      requires Valid()
      modifies this`sockets, this`pools, this`index
      ensures Valid() && Added(old(View()), View(), Keys(keys), old(pools).Keys)
      ensures forall k :: k in pools <==> k in old(pools) || (k in keys && k.1 != 0)
      ensures (forall k :: k in keys ==> k in old(pools) || k.1 == 0) ==> sockets == old(sockets) && pools == old(pools)
      ensures FullPools(old(pools)) ==> FullPools(pools)
      ensures forall k :: k in old(pools) ==> k in pools && pools[k] == old(pools)[k]
    {
      for i := 0 to |keys|
        invariant Valid() && Added(old(View()), View(), Keys(keys[..i]), old(pools).Keys)
        invariant forall k :: k in pools <==> k in old(pools) || (k in keys[..i] && k.1 != 0)
        invariant (forall k :: k in keys ==> k in old(pools) || k.1 == 0) ==>
                    sockets == old(sockets) && pools == old(pools)
        invariant FullPools(old(pools)) ==> FullPools(pools)
        invariant forall k :: k in old(pools) ==> k in pools && pools[k] == old(pools)[k]
      {
        ghost var w, served := View(), pools.Keys;
        AddOne(keys[i]);
        AddedTrans(old(View()), w, View(), Keys(keys[..i]), keys[i], old(pools).Keys, served);
        KeysNext(keys, i);
      }
      assert keys[..|keys|] == keys;
    }

    // ---- removal ----

    /** Closes the listener in one slot of a pool that was taken away. */
    method CloseSlot(h: nat, tag: nat)
      requires h in sockets && IsListener(At(View(), h)) && h !in index && tag < nextTag
      requires ShapeOk(View(), dns, nextTag) && PoolsOk(View(), pools, index) && created == |relays| + removed
      modifies this`sockets, this`relays, this`created
      ensures ShapeOk(View(), dns, nextTag) && PoolsOk(View(), pools, index) && created == |relays| + removed
      ensures View() == CloseAt(old(View()), h, tag)
    {
      CloseKeeps(View(), dns, nextTag, pools, index, h, tag);
      if sockets[h].state.Listen? {
        sockets := sockets - {h};
      } else {
        sockets, relays, created := sockets[h := Aborted(sockets[h])], relays[h := Relay(Some(tag), true, None)],
            created + 1;
      }
      assert View() == CloseAt(old(View()), h, tag);
    }

    /** Takes the pool of `key` away and closes its listeners. */
    method ClosePool(key: ResourceKey, tag: nat)
      requires Valid() && key in pools && tag < nextTag
      modifies this`sockets, this`relays, this`created, this`pools, this`index
      ensures Valid() && pools == old(pools) - {key}
      ensures PoolPartly(old(View()), View(), old(index), key, |old(pools)[key]|, tag)
    {
      var pool := pools[key];
      DropPool(View(), pools, index, key);
      pools, index := pools - {key}, Without(index, View(), key);
      for j := 0 to |pool|
        invariant pools == old(pools) - {key} && index == Without(old(index), old(View()), key)
        invariant ShapeOk(View(), dns, nextTag) && PoolsOk(View(), pools, index) && created == |relays| + removed
        invariant PoolPartly(old(View()), View(), old(index), key, j, tag)
      {
        PoolStep(old(View()), View(), old(pools), old(index), key, j, tag);
        CloseSlot(pool[j], tag);
      }
      PoolClosed(old(View()), View(), old(pools), old(index), key, tag);
    }

    method CloseKey(key: ResourceKey, tag: nat)
      requires Valid() && tag < nextTag
      modifies this`sockets, this`relays, this`created, this`pools, this`index
      ensures Valid() && pools == old(pools) - {key}
      ensures ListenersClosed(old(View()), View(), {key}, tag)
    {
      if key in pools {
        ClosePool(key, tag);
        PoolIsKey(old(View()), View(), old(pools), old(index), key, tag);
      } else {
        NoPoolNoListener(View(), pools, index, key, tag);
      }
    }

    method CloseListeners(keys: seq<ResourceKey>, tag: nat)
      requires Valid() && tag < nextTag
      modifies this`sockets, this`relays, this`created, this`pools, this`index
      ensures Valid() && pools == old(pools) - Keys(keys)
      ensures ListenersClosed(old(View()), View(), Keys(keys), tag)
    {
      for i := 0 to |keys|
        invariant Valid() && pools == old(pools) - Keys(keys[..i])
        invariant ListenersClosed(old(View()), View(), Keys(keys[..i]), tag)
      {
        ghost var w := View();
        CloseKey(keys[i], tag);
        ListenersTrans(old(View()), w, View(), Keys(keys[..i]), keys[i], tag);
        KeysNext(keys, i);
        MinusMore(old(pools), Keys(keys[..i]), keys[i]);
      }
      assert keys[..|keys|] == keys;
    }

    method CloseRelay(h: nat, keys: seq<ResourceKey>, tag: nat)
      requires Valid() && tag < nextTag && h in relays && h in sockets && sockets[h].TcpSock?
      modifies this`sockets, this`relays
      ensures Valid() && View() == CloseRelayAt(old(View()), h, Keys(keys), tag)
    {
      CloseRelayKeeps(View(), dns, nextTag, pools, index, h, Keys(keys), tag);
      if relays[h].tag.None? && sockets[h].remote && sockets[h].bound in keys {
        sockets, relays := sockets[h := Aborted(sockets[h])],
            relays[h := relays[h].(tag := Some(tag), terminated := true)];
      }
      assert View() == CloseRelayAt(old(View()), h, Keys(keys), tag);
    }

    method CloseRelays(keys: seq<ResourceKey>, tag: nat)
      requires Valid() && tag < nextTag
      modifies this`sockets, this`relays
      ensures Valid()
      ensures RelaysClosed(old(View()), View(), {}, Keys(keys), tag)
    {
      var left := relays.Keys;
      RelaysAreTcp(View(), dns, nextTag);
      while left != {}
        invariant Valid() && left <= old(relays).Keys && forall h :: h in left ==>
                    h in old(sockets) && old(sockets)[h].TcpSock?
        invariant RelaysClosed(old(View()), View(), left, Keys(keys), tag)
        decreases left
      {
        var h :| h in left;
        RelayStep(old(View()), View(), left, Keys(keys), tag, h);
        CloseRelay(h, keys, tag);
        left := left - {h};
      }
    }

    /** `remove_listeners_and_close`: stops serving `keys` and resets their flows. */
    method RemoveListenersAndClose(keys: seq<ResourceKey>) returns (tag: nat)
      requires Valid()
      modifies this`sockets, this`relays, this`created, this`pools, this`index, this`nextTag
      ensures Valid() && tag == old(nextTag) && nextTag == tag + 1
      ensures Removed(old(View()), View(), Keys(keys), tag) && pools == old(pools) - Keys(keys)
    {
      tag := nextTag;
      nextTag := nextTag + 1;
      CloseListeners(keys, tag);
      ghost var w := View();
      CloseRelays(keys, tag);
      PhasesRemove(old(View()), w, View(), Keys(keys), tag);
    }

    /** Resets one relay if one of the connectors carries it. */
    method CloseConn(h: nat, ids: set<string>) returns (hit: bool)
      requires Valid() && h in relays && h in sockets && sockets[h].TcpSock?
      modifies this`sockets, this`relays
      ensures Valid() && View() == CloseConnAt(old(View()), h, ids) && hit == CarriedBy(old(relays)[h], ids)
    {
      CloseConnKeeps(View(), dns, nextTag, pools, index, h, ids);
      hit := CarriedBy(relays[h], ids);
      if hit {
        sockets, relays := sockets[h := Aborted(sockets[h])], relays[h := relays[h].(terminated := true)];
      }
      assert View() == CloseConnAt(old(View()), h, ids);
    }

    /** `close_connector_flows`: resets the flows the connectors carry and counts them. */
    method CloseConnectorFlows(ids: set<string>) returns (closed: nat)
      requires Valid()
      modifies this`sockets, this`relays
      ensures Valid() && ConnsClosed(old(View()), View(), ids) && closed == |Carried(old(relays), ids)|
      ensures Cuts(old(View()), View(), ids)
    {
      closed := 0;
      var left := relays.Keys;
      ClosingStart(View(), dns, nextTag, ids);
      while left != {}
        invariant Valid() && ConnsClosing(old(View()), View(), left, ids, closed)
        decreases left
      {
        var h :| h in left;
        ClosingNext(old(View()), View(), left, ids, closed, h);
        var hit := CloseConn(h, ids);
        left, closed := left - {h}, closed + if hit then 1 else 0;
      }
      ClosingEnd(old(View()), View(), ids, closed);
      ClosedCuts(old(View()), View(), ids);
    }

    // ---- service ----

    /** While connections are being accepted. */
    ghost predicate AcceptingNow(v: Table, acc: set<nat>)
      reads this
    {
      Accepting(v, View(), dns, nextTag, pools, index, acc) && created == |relays| + removed
    }

    /** A fresh listener replaces the one in the slot, which took a connection. */
    method ReplaceSlot(key: ResourceKey, i: nat) returns (f: nat)
      requires key in pools && i < |pools[key]| && key.1 != 0
      modifies this`sockets, this`pools, this`index
      ensures f !in old(sockets) && sockets == old(sockets)[f := TcpSock(Listen, key, false)]
      ensures pools == old(pools)[key := Replaced(old(pools)[key], i, f)]
      ensures index == (old(index) - {old(pools)[key][i]})[f := i]
    {
      var r := NewListenSocket(key);
      f := r.value;
      index := (index - {pools[key][i]})[f := i];
      pools := pools[key := Replaced(pools[key], i, f)];
    }

    ghost predicate RefillingNow(v: Table, acc: set<nat>, pool: seq<nat>, key: ResourceKey, i: nat)
      reads this
    {
      Refilling(v, View(), dns, nextTag, pools, index, acc, pool, key, i) && created == |relays| + removed
    }

    method RefillOne(key: ResourceKey, i: nat, ghost v: Table, ghost acc: set<nat>, ghost pool: seq<nat>)
      returns (f: nat)
      requires RefillingNow(v, acc, pool, key, i) && i < |pool| && key.1 != 0
      requires pools[key][i] in sockets && sockets[pools[key][i]].TcpSock? && IsActive(sockets[pools[key][i]].state)
      modifies this`sockets, this`pools, this`index
      ensures RefillingNow(v, acc + {old(pools)[key][i]}, pool, key, i + 1)
      ensures pools == old(pools)[key := Replaced(old(pools)[key], i, f)]
    {
      f := ReplaceSlot(key, i);
      RefillActive(v, old(View()), dns, nextTag, old(pools), old(index), acc, pool, key, i, f);
    }

    /** If the slot took a connection, it gets a fresh listener. */
    method RefillSlot(key: ResourceKey, i: nat, ghost v: Table, acc: set<nat>, ghost pool: seq<nat>)
      returns (acc': set<nat>)
      requires RefillingNow(v, acc, pool, key, i) && i < |pool|
      modifies this`sockets, this`pools, this`index
      ensures RefillingNow(v, acc', pool, key, i + 1) && OnlyAt(old(pools), pools, key)
    {
      RefillIdle(v, View(), dns, nextTag, pools, index, acc, pool, key, i);
      var h := pools[key][i];
      if IsActive(sockets[h].state) {
        var f := RefillOne(key, i, v, acc, pool);
        acc' := acc + {h};
      } else {
        acc' := acc;
      }
    }

    /** Every slot that took a connection gets a fresh listener. */
    method RefillPool(key: ResourceKey, ghost v: Table, acc: set<nat>, ghost pool: seq<nat>) returns (acc': set<nat>)
      requires RefillingNow(v, acc, pool, key, 0)
      modifies this`sockets, this`pools, this`index
      ensures RefillingNow(v, acc', pool, key, |pool|) && OnlyAt(old(pools), pools, key)
    {
      acc' := acc;
      for i := 0 to |pools[key]|
        invariant RefillingNow(v, acc', pool, key, i) && OnlyAt(old(pools), pools, key)
      {
        ghost var was := pools;
        acc' := RefillSlot(key, i, v, acc', pool);
        OnlyThen(old(pools), was, pools, key);
      }
    }

    /** Every accepted connection leaves its pool to a fresh listener. */
    method RefillAll() returns (acc: set<nat>)
      requires Valid()
      modifies this`sockets, this`pools, this`index
      ensures AcceptingNow(old(View()), acc) && PoolsDone(old(sockets), old(pools), pools, {})
    {
      acc := {};
      ghost var v := View();
      var todo := pools.Keys;
      PoolsStart(v, pools, index);
      while todo != {}
        invariant AcceptingNow(v, acc) && todo <= pools.Keys && PoolsDone(v.sockets, old(pools), pools, todo)
        decreases todo
      {
        var k :| k in todo;
        ghost var was := pools;
        acc := RefillPool(k, v, acc, old(pools)[k]);
        PoolNext(v.sockets, old(pools), was, pools, todo, k);
        todo := todo - {k};
      }
    }

    ghost predicate PromotingNow(v: Table, online: set<ResourceKey>, acc: set<nat>)
      reads this
    {
      Promoting(v, View(), dns, nextTag, pools, index, online, acc) && created == |relays| + removed
    }

    /** One accepted connection: a relay if a connector is online for it, a reset otherwise. */
    method PromoteOne(h: nat, online: set<ResourceKey>)
      requires h in sockets && IsListener(At(View(), h)) && created == |relays| + removed
      modifies this`sockets, this`relays, this`created, this`failClosed
      ensures View() == PromoteAt(old(View()), h, online) && created == |relays| + removed
      ensures failClosed == old(failClosed) + if old(sockets)[h].bound in online then 0 else 1
    {
      if sockets[h].bound in online {
        relays := relays[h := Relay(None, false, None)];
      } else {
        sockets, relays, failClosed := sockets[h := Aborted(sockets[h])], relays[h := Relay(None, true, None)],
            failClosed + 1;
      }
      created := created + 1;
    }

    method PromoteNext(ghost v: Table, online: set<ResourceKey>, ghost acc: set<nat>, h: nat)
      requires PromotingNow(v, online, acc) && h in acc
      modifies this`sockets, this`relays, this`created, this`failClosed
      ensures PromotingNow(v, online, acc - {h})
      ensures failClosed + |Offline(v, acc - {h}, online)| == old(failClosed) + |Offline(v, acc, online)|
    {
      PromoteOneKeeps(v, View(), dns, nextTag, pools, index, online, acc, h);
      LimboAccepted(v, View(), index, online, pools.Keys, acc, h);
      OfflineLess(v, acc, online, h);
      PromoteOne(h, online);
    }

    method PromoteAccepted(ghost v: Table, online: set<ResourceKey>, accepted: set<nat>)
      requires PromotingNow(v, online, accepted)
      modifies this`sockets, this`relays, this`created, this`failClosed
      ensures PromotingNow(v, online, {}) && failClosed == old(failClosed) + |Offline(v, accepted, online)|
    {
      var acc := accepted;
      while acc != {}
        invariant PromotingNow(v, online, acc)
        invariant failClosed + |Offline(v, acc, online)| == old(failClosed) + |Offline(v, accepted, online)|
        decreases acc
      {
        var h :| h in acc;
        PromoteNext(v, online, acc, h);
        acc := acc - {h};
      }
      assert Offline(v, {}, online) == {};
    }

    /** Promotes every accepted connection and refills its slot. */
    method PromoteAll(online: set<ResourceKey>)
      requires Valid()
      modifies this`sockets, this`relays, this`created, this`failClosed, this`pools, this`index
      ensures Valid() && Promoted(old(View()), View(), online, pools.Keys)
      ensures PoolsDone(old(sockets), old(pools), pools, {})
      ensures FailsClosed(old(View()), View(), online)
      ensures failClosed == old(failClosed) + |Offline(old(View()), old(sockets).Keys, online)|
    {
      var acc := RefillAll();
      AcceptedAll(old(View()), View(), dns, nextTag, old(pools), pools, index, online, acc);
      AllOffline(old(View()), View(), online, pools.Keys, acc);
      PromoteAccepted(old(View()), online, acc);
      PromotedAll(old(View()), View(), dns, nextTag, pools, index, online);
      PromotedFailsClosed(old(View()), View(), online, pools.Keys);
    }

    /** One relay: what `drive_relay` leaves of it. */
    method DriveOne(h: nat, d: Drive)
      requires h in relays && h in sockets && sockets[h].TcpSock? && created == |relays| + removed
      modifies this`sockets, this`relays, this`removed
      ensures View() == DriveAt(old(View()), h, d) && created == |relays| + removed
    {
      var s := if DriveMay(sockets[h].state, d.state) then d.state else sockets[h].state;
      if Removable(s, sockets[h].remote) {
        assert (relays - {h}).Keys == relays.Keys - {h};
        sockets, relays, removed := sockets - {h}, relays - {h}, removed + 1;
      } else {
        sockets, relays := sockets[h := sockets[h].(state := s)], relays[h := DriveRelayEntry(relays[h], d)];
      }
    }

    method DriveRelay(h: nat, d: Drive)
      requires Valid() && h in relays && h in sockets && sockets[h].TcpSock?
      modifies this`sockets, this`relays, this`removed
      ensures Valid() && View() == DriveAt(old(View()), h, d)
    {
      DriveKeeps(View(), dns, nextTag, pools, index, h, d);
      DriveOne(h, d);
    }

    method DriveAll(driven: map<nat, Drive>)
      requires Valid()
      modifies this`sockets, this`relays, this`removed
      ensures Valid() && Driven(old(View()), View(), driven) && Drives(old(View()), View(), driven)
    {
      var left := relays.Keys;
      RelaysAreTcp(View(), dns, nextTag);
      while left != {}
        invariant Valid() && left <= old(relays).Keys && forall h :: h in left ==>
                    h in old(sockets) && old(sockets)[h].TcpSock?
        invariant PartlyDriven(old(View()), View(), driven, left)
        decreases left
      {
        var h :| h in left;
        DriveStep(old(View()), View(), driven, left, h);
        DriveRelay(h, DriveFor(driven, h));
        left := left - {h};
      }
      DrivenDrives(old(View()), View(), driven, nextTag);
    }

    /** `service`: promote, then drive and reap. */
    method Service(online: set<ResourceKey>, driven: map<nat, Drive>) returns (ghost mid: Table)
      requires Valid()
      modifies this`sockets, this`relays, this`created, this`failClosed, this`pools, this`index, this`removed
      ensures Valid() && Promoted(old(View()), mid, online, pools.Keys) && Driven(mid, View(), driven)
      ensures RefilledExactly(old(sockets), old(pools), sockets, pools)
      ensures ListenIff(old(sockets), old(pools), sockets, pools)
      ensures ServesOnline(old(View()), View(), online)
      ensures failClosed == old(failClosed) + |Offline(old(View()), old(sockets).Keys, online)|
    {
      PromoteAll(online);
      mid := View();
      DriveAll(driven);
      PoolsServed(old(View()), mid, View(), online, pools.Keys, driven, old(pools), pools, old(index), index);
      PoolsListen(old(sockets), old(pools), sockets, pools);
      ServiceServes(old(View()), mid, View(), online, driven, nextTag);
    }

    /** One poll: whatever smoltcp does to the sockets. */
    method Poll(next: map<nat, Sock>)
      requires Valid() && Polled(View(), Table(next, relays), nextTag)
      modifies this`sockets
      ensures Valid() && sockets == next
    {
      PollSeats(View(), Table(next, relays), dns, nextTag, pools, index);
      sockets := next;
    }

    // ---- one turn of the loop ----

    /** The removal waits for its sockets. */
    method Await(tag: nat, ghost promises: map<nat, Promised>)
      requires Valid()
      modifies this`pending, this`promised
      ensures Valid() && pending == old(pending) + [tag] && promised == promises
    {
      pending := pending + [tag];
      promised := promises;
    }

    method ApplyRemove(keys: seq<ResourceKey>)
      requires Commanding()
      modifies this`sockets, this`relays, this`created, this`pools, this`index, this`nextTag, this`pending,
          this`promised
      ensures Commanding() && Applied(old(Now()), Now(), Remove(keys))
    {
      ghost var s := Now();
      var tag := RemoveListenersAndClose(keys);
      RemoveWorks(s, View(), old(index), keys);
      Await(tag, RemoveState(s, View(), keys).promised);
    }

    method ApplyAdd(keys: seq<ResourceKey>)
      requires Commanding()
      modifies this`sockets, this`pools, this`index, this`promised
      ensures Commanding() && Applied(old(Now()), Now(), Add(keys))
    {
      AddListeners(keys);
      promised := AddedAgain(promised, Keys(keys));
      AddPromising(old(Now()), Now(), keys);
      AddApplied(old(Now()), Now(), old(index), keys);
    }

    method ApplyClose(ids: set<string>)
      requires Commanding()
      modifies this`sockets, this`relays
      ensures Commanding() && Applied(old(Now()), Now(), CloseConnectors(ids))
    {
      ghost var s := Now();
      var closed := CloseConnectorFlows(ids);
      CloseWorks(s, View(), index, ids);
    }

    /** `apply_resource_cmd` */
    method Apply(cmd: Cmd)
      requires Commanding()
      modifies this`sockets, this`relays, this`created, this`pools, this`index, this`nextTag, this`pending,
          this`promised
      ensures Commanding() && Applied(old(Now()), Now(), cmd)
    {
      match cmd
      case Remove(keys) => ApplyRemove(keys);
      case Add(keys) => ApplyAdd(keys);
      case CloseConnectors(ids) => ApplyClose(ids);
    }

    /** All commands of a turn; what they did follows from the table before them. */
    method ApplyAll(cmds: seq<Cmd>)
      requires Commanding()
      modifies this`sockets, this`relays, this`created, this`pools, this`index, this`nextTag, this`pending,
          this`promised
      ensures Commanding() && AppliedAll(old(Now()), Now(), cmds)
    {
      NoneApplied(Now(), index);
      for i := 0 to |cmds|
        invariant Commanding() && AppliedAll(old(Now()), Now(), cmds[..i])
      {
        ghost var was := Now();
        Apply(cmds[i]);
        AppliedNext(old(Now()), was, Now(), cmds, i);
      }
      assert cmds[..|cmds|] == cmds;
    }

    method PollPhase(next: map<nat, Sock>)
      requires Loop() && Polled(View(), Table(next, relays), nextTag)
      modifies this`sockets
      ensures Commanding() && sockets == next
    {
      PollPromises(View(), Table(next, relays), promised, pools.Keys, nextTag, pending);
      Poll(next);
    }

    method ServicePhase(online: set<ResourceKey>, driven: map<nat, Drive>) returns (ghost mid: Table)
      requires Commanding()
      modifies this`sockets, this`relays, this`created, this`failClosed, this`pools, this`index, this`removed
      ensures Loop() && Promoted(old(View()), mid, online, pools.Keys) && Driven(mid, View(), driven)
      ensures RefilledExactly(old(sockets), old(pools), sockets, pools)
    {
      mid := Service(online, driven);
      ServicePromises(old(View()), mid, View(), promised, pools.Keys, nextTag, online, driven);
      ServiceTags(old(View()), mid, View(), promised, pools.Keys, online, driven, pending);
      FullAgain(old(sockets), old(pools), sockets, pools);
    }

    method AckPhase() returns (acks: seq<nat>)
      requires Loop()
      modifies this`pending, this`acked
      ensures Loop() && acked == old(acked) + acks
      ensures multiset(pending) + multiset(acks) == multiset(old(pending))
      ensures forall t :: t in pending ==> Tagged(relays, t)
      ensures forall t :: t in acks ==> !Tagged(relays, t) && t in promised && Acknowledged(View(), promised[t], t)
    {
      pending, acks := CompletePendingCloses(relays, pending);
      acked := acked + acks;
      AcksHold(View(), promised, pools.Keys, nextTag, old(pending), pending, acks);
    }

    /** Commands and service after the poll. */
    method WorkPhase(cmds: seq<Cmd>, online: set<ResourceKey>, driven: map<nat, Drive>)
      requires Commanding()
      modifies this`sockets, this`relays, this`created, this`failClosed, this`pools, this`index, this`removed,
          this`nextTag, this`pending, this`promised
      ensures Loop() && Worked(old(Now()), Now(), cmds, online, driven) && SoleOnes(old(Now()), Now(), cmds)
      ensures OnlyEntitled(old(View()), View(), cmds, online)
    {
      ghost var s := Now();
      ApplyAll(cmds);
      ghost var was := Now();
      ghost var mid := ServicePhase(online, driven);
      ServedWorks(s, was, mid, Now(), cmds, online, driven);
      SoleAfter(s, Now(), cmds);
      TurnEntitles(s.table, View(), cmds, s.nextTag, online, driven, s.nextTag);
    }

    /**
     One turn: poll, commands, service, acknowledgements. Every clause speaks of the table as the
     poll left it: what becomes of each socket and of each pool, which removals are promised, and
     what those mean that are acknowledged.
     */
    method Turn(next: map<nat, Sock>, cmds: seq<Cmd>, online: set<ResourceKey>, driven: map<nat, Drive>)
      returns (acks: seq<nat>)
      requires Loop() && Polled(View(), Table(next, relays), nextTag)
      modifies this
      ensures Loop() && acked == old(acked) + acks
      ensures Worked(old(Now()).(table := Table(next, old(relays))),
                     Now().(pending := old(pending) + Tags(old(nextTag), nextTag)), cmds, online, driven)
      ensures SoleOnes(old(Now()), Now(), cmds) && OnlyEntitled(Table(next, old(relays)), View(), cmds, online)
      ensures multiset(pending) + multiset(acks) == multiset(old(pending) + Tags(old(nextTag), nextTag))
      ensures forall t :: t in pending ==> Tagged(relays, t)
      ensures forall t :: t in acks ==> !Tagged(relays, t) && t in promised && Acknowledged(View(), promised[t], t)
    {
      PollPhase(next);
      WorkPhase(cmds, online, driven);
      acks := AckPhase();
    }

    /** One turn, if smoltcp can take the sockets there. */
    method TurnIfPossible(step: Step)
      requires Loop()
      modifies this
      ensures Loop() && DeadStay(old(sockets), old(pools), sockets, pools, Removes(step.cmds))
    {
      if Polled(View(), Table(step.next, relays), nextTag) {
        var acks := Turn(step.next, step.cmds, step.online, step.driven);
        DeadTurn(old(View()), Table(step.next, old(relays)), old(nextTag), old(pools), sockets, pools,
                 Removes(step.cmds));
      }
    }

    /** Turn after turn: a dead slot stays dead until its key is removed. */
    method Run(turns: seq<Step>)
      requires Loop()
      modifies this
      ensures Loop() && DeadStay(old(sockets), old(pools), sockets, pools, RemovedIn(turns))
    {
      for i := 0 to |turns|
        invariant Loop() && DeadStay(old(sockets), old(pools), sockets, pools, RemovedIn(turns[..i]))
      {
        ghost var s, p := sockets, pools;
        TurnIfPossible(turns[i]);
        DeadThen(old(sockets), old(pools), s, p, sockets, pools, RemovedIn(turns[..i]), Removes(turns[i].cmds));
        assert turns[..i + 1][..i] == turns[..i];
      }
      assert turns[..|turns|] == turns;
    }

    /** A turn that removes keys while an older removal still holds the socket `h` of one of them. */
    method RemoveHeld(keys: seq<ResourceKey>, h: nat)
      requires Loop() && h in sockets && Contests(At(View(), h), Keys(keys))
      modifies this
      ensures Loop() && h in sockets && Contests(At(View(), h), Keys(keys)) && relays[h].tag != Some(old(nextTag))
      ensures old(nextTag) in promised && promised[old(nextTag)].keys == Keys(keys)
      ensures old(nextTag) in pending || old(nextTag) in acked
    {
      var tag := nextTag;
      PollsToItself(View(), nextTag);
      ghost var s := Now();
      var acks := Turn(sockets, [Remove(keys)], {}, map[]);
      HeldOn(s, Now().(pending := s.pending + Tags(tag, nextTag)), keys, h);
      WaitsOrDone(s.pending, pending, acks, tag);
    }

    /** A turn whose poll sends the resets of the removal `tag` and no others. */
    method SendResets(tag: nat, h: nat)
      requires Loop() && h in sockets && h in relays && sockets[h].TcpSock? && sockets[h].remote
               && sockets[h].state.Closed?
      requires relays[h].tag != Some(tag) && (tag in pending || tag in acked)
      modifies this
      ensures Loop() && h in sockets && sockets[h] == old(sockets)[h] && promised == old(promised) && tag in acked
    {
      ghost var s := Now();
      var next := Forgotten(View(), tag);
      Forgets(View(), nextTag, tag);
      var acks := Turn(next, [], {}, map[]);
      ResetsSent(s, Now().(pending := s.pending + Tags(s.nextTag, nextTag)), tag, h);
      if tag in s.pending { NothingNew(s.pending, pending, acks, s.nextTag, tag); }
    }

    /**
     A contested removal can be acknowledged too early: from every such state two turns do it. The
     first removes the keys; in the poll of the second the resets it sent go out, but not the older one.
     */
    method ContestedAcksEarly(keys: seq<ResourceKey>, h: nat)
      requires Loop() && h in sockets && Contests(At(View(), h), Keys(keys))
      modifies this
      ensures Loop() && old(nextTag) in acked && old(nextTag) in promised && promised[old(nextTag)].keys == Keys(keys)
      ensures h in sockets && BoundIn(At(View(), h), Keys(keys))
    {
      var tag := nextTag;
      RemoveHeld(keys, h);
      ContestIsClosed(View(), nextTag, Keys(keys), h);
      SendResets(tag, h);
    }

    /** A turn whose poll ends every connection and every listener. */
    method EndAll(k: ResourceKey)
      requires Loop() && k in pools
      modifies this
      ensures Loop() && k in pools && pools[k] != []
      ensures forall i :: 0 <= i < |pools[k]| ==> DeadSlot(sockets, pools, k, i)
    {
      var next := Ended(sockets);
      EndsInPoll(View(), nextTag);
      SeatsEnd(View(), pools, index);
      ghost var p := pools;
      var acks := Turn(next, [], {}, map[]);
      assert PoolRefilled(next, p[k], sockets, pools[k]);
    }
  }

  lemma {:induction false} LimboAccepted(v: Table, t: Table, index: map<nat, nat>, online: set<ResourceKey>,
                                         served: set<ResourceKey>, acc: set<nat>, h: nat)
    requires Limbo(t, index, acc) && PartlyPromoted(v, t, online, served, acc) && h in acc
    ensures Accepted(v, h) && h in t.sockets && t.sockets[h] == v.sockets[h]
  {
    assert At(t, h) == At(v, h);
  }

  /** Every accepted connection is among those to promote. */
  lemma {:induction false} AllOffline(v: Table, t: Table, online: set<ResourceKey>, served: set<ResourceKey>,
                                      acc: set<nat>)
    requires PartlyPromoted(v, t, online, served, acc) && Refilled(v, t, served)
    ensures Offline(v, acc, online) == Offline(v, v.sockets.Keys, online)
  {
    forall h | h in v.sockets && Accepted(v, h) ensures h in acc {
      assert At(t, h) == At(v, h);
    }
  }

  lemma {:induction false} WaitsOrDone(waiting: seq<nat>, pending: seq<nat>, acks: seq<nat>, tag: nat)
    requires multiset(pending) + multiset(acks) == multiset(waiting + Tags(tag, tag + 1))
    ensures tag in pending || tag in acks
  {
    assert Tags(tag, tag + 1) == [tag];
    assert tag in multiset(waiting + [tag]);
  }

  lemma {:induction false} NothingNew(waiting: seq<nat>, pending: seq<nat>, acks: seq<nat>, next: nat, tag: nat)
    requires multiset(pending) + multiset(acks) == multiset(waiting + Tags(next, next)) && tag in waiting
             && tag !in pending
    ensures tag in acks
  {
    assert waiting + Tags(next, next) == waiting && tag in multiset(waiting);
  }

  lemma {:induction false} ContestIsClosed(v: Table, nextTag: nat, keys: set<ResourceKey>, h: nat)
    requires TableOk(v, nextTag) && h in v.sockets && Contests(At(v, h), keys)
    ensures h in v.relays && v.sockets[h].TcpSock? && v.sockets[h].remote && v.sockets[h].state.Closed?
  {
  }

  /** What the environment and the daemon do in one turn. */
  datatype Step = Step(next: map<nat, Sock>, cmds: seq<Cmd>, online: set<ResourceKey>, driven: map<nat, Drive>)

  function RemovedIn(turns: seq<Step>): set<ResourceKey>
  {
    if turns == [] then {} else RemovedIn(turns[..|turns| - 1]) + Removes(turns[|turns| - 1].cmds)
  }

  /** The sockets after a poll that sent the resets of the removal `tag` and no others. */
  function Forgotten(v: Table, tag: nat): map<nat, Sock>
  {
    map h | h in v.sockets ::
      if v.sockets[h].TcpSock? && h in v.relays && v.relays[h].tag == Some(tag) then v.sockets[h].(remote := false)
          else v.sockets[h]
  }

  lemma {:induction false} PollsToItself(v: Table, nextTag: nat)
    requires TableOk(v, nextTag)
    ensures Polled(v, v, nextTag)
  {
  }

  lemma {:induction false} Forgets(v: Table, nextTag: nat, tag: nat)
    requires TableOk(v, nextTag)
    ensures Polled(v, Table(Forgotten(v, tag), v.relays), nextTag)
  {
    var w := Table(Forgotten(v, tag), v.relays);
    forall h | h in v.sockets ensures PollMay(At(v, h), At(w, h), nextTag) { assert EntryOk(At(v, h), nextTag); }
  }

  /** The socket an older removal closed outlives the removal of its key. */
  lemma {:induction false} HeldOn(s: State, t: State, keys: seq<ResourceKey>, h: nat)
    requires TableOk(s.table, s.nextTag) && h in s.table.sockets && Contests(At(s.table, h), Keys(keys))
    requires Worked(s, t, [Remove(keys)], {}, map[])
    ensures h in t.table.sockets && Contests(At(t.table, h), Keys(keys)) && t.table.relays[h].tag != Some(s.nextTag)
    ensures t.nextTag == s.nextTag + 1 && s.nextTag in t.promised && t.promised[s.nextTag].keys == Keys(keys)
  {
    var e, cmds := At(s.table, h), [Remove(keys)];
    assert cmds[..0] == [];
    assert CmdsEntry(e, cmds, s.nextTag) == Some(e);
    assert TurnEntry(e, cmds, s.nextTag, {}, DriveFor(map[], h)).Some?;
  }

  /** Once their peers are forgotten, no relay the removal closed is left; one closed by an older removal is. */
  lemma {:induction false} AllForgotten(s: State, t: State, tag: nat, h: nat)
    requires h in s.table.sockets && At(s.table, h).relay.Some? && s.table.sockets[h].TcpSock?
             && s.table.sockets[h].remote
    requires s.table.sockets[h].state.Closed? && TableOk(s.table, s.nextTag)
             && t.table.relays.Keys <= t.table.sockets.Keys
    requires forall g :: g in s.table.relays && g in s.table.sockets && s.table.relays[g].tag == Some(tag) ==>
               s.table.sockets[g].TcpSock? && !s.table.sockets[g].remote
    requires Worked(s, t, [], {}, map[])
    ensures h in t.table.sockets && t.table.sockets[h] == s.table.sockets[h] && !Tagged(t.table.relays, tag)
    ensures t.promised == s.promised && t.nextTag == s.nextTag
  {
    IdleTurn(At(s.table, h), s.nextTag, DriveFor(map[], h));
    forall g | g in t.table.relays ensures t.table.relays[g].tag != Some(tag) {
      assert Survives(s.table, t.table, [], s.nextTag, {}, map[], g) || IsNew(At(t.table, g));
      if g in s.table.sockets { IdleTurn(At(s.table, g), s.nextTag, DriveFor(map[], g)); }
    }
  }

  /** A turn without commands: a socket that knows its peer stays closed, one that does not goes, tags stay. */
  lemma {:induction false} IdleTurn(e: Entry, nextTag: nat, d: Drive)
    requires EntryOk(e, nextTag)
    ensures var r := TurnEntry(e, [], nextTag, {}, d);
            && CmdsEntry(e, [], nextTag) == Some(e)
            && (e.relay.Some? && e.sock.state.Closed? && e.sock.remote ==> r.Some? && r.value.sock == e.sock)
            && (e.relay.Some? && !e.sock.remote ==> r.None?)
            && (r.Some? && r.value.relay.Some? && r.value.relay.value.tag.Some? ==>
                  e.relay.Some? && e.relay.value.tag == r.value.relay.value.tag)
  {
  }

  lemma {:induction false} ResetsSent(s: State, t: State, tag: nat, h: nat)
    requires TableOk(s.table, s.nextTag) && t.table.relays.Keys <= t.table.sockets.Keys
    requires h in s.table.sockets && h in s.table.relays && s.table.relays[h].tag != Some(tag)
    requires s.table.sockets[h].TcpSock? && s.table.sockets[h].remote && s.table.sockets[h].state.Closed?
    requires Worked(s.(table := Table(Forgotten(s.table, tag), s.table.relays)), t, [], {}, map[])
    ensures h in t.table.sockets && t.table.sockets[h] == s.table.sockets[h] && !Tagged(t.table.relays, tag)
    ensures t.promised == s.promised && t.nextTag == s.nextTag
  {
    Forgets(s.table, s.nextTag, tag);
    var s' := s.(table := Table(Forgotten(s.table, tag), s.table.relays));
    forall g | g in s.table.relays && g in s.table.sockets && s.table.relays[g].tag == Some(tag)
      ensures s'.table.sockets[g].TcpSock? && !s'.table.sockets[g].remote
    {
      assert EntryOk(At(s.table, g), s.nextTag);
    }
    AllForgotten(s', t, tag, h);
  }

  /** What a command can change: the table, the pools, the removals waiting and promised, and the next tag. */
  datatype State = State(table: Table, pools: Pools, pending: seq<nat>, promised: map<nat, Promised>, nextTag: nat)

  /** What holds between the commands of a turn. */
  ghost predicate Promising(s: State)
  {
    && FullPools(s.pools) && WeakPromises(s.table, s.promised, s.pools.Keys, s.nextTag)
    && TagsWithin(s.table, s.pending, s.promised) && PendingKnown(s.pending, s.promised)
  }

  lemma {:induction false} RemovePromising(s: State, t: State, keys: seq<ResourceKey>)
    requires Promising(s) && TableOk(s.table, s.nextTag) && Removed(s.table, t.table, Keys(keys), s.nextTag)
    requires t.pools == s.pools - Keys(keys) && t.nextTag == s.nextTag + 1 && t.pending == s.pending + [s.nextTag]
    requires t.promised == AfterCmd(s.promised, Remove(keys), s.nextTag, Contested(s.table, Keys(keys)))
    ensures Promising(t)
  {
    RemoveCommand(s.table, t.table, s.promised, s.pools.Keys, Keys(keys), s.nextTag);
    assert t.pools.Keys == s.pools.Keys - Keys(keys);
    TagsAfterRemove(s.table, t.table, s.pending, s.promised, Keys(keys), s.nextTag, t.promised[s.nextTag]);
  }

  lemma {:induction false} AddPromising(s: State, t: State, keys: seq<ResourceKey>)
    requires Promising(s) && TableOk(s.table, s.nextTag) && Added(s.table, t.table, Keys(keys), s.pools.Keys)
             && FullPools(t.pools)
    requires t.nextTag == s.nextTag && t.pending == s.pending && t.promised == AddedAgain(s.promised, Keys(keys))
    requires forall k :: k in t.pools <==> k in s.pools || (k in keys && k.1 != 0)
    ensures Promising(t)
  {
    AddCommand(s.table, t.table, s.promised, s.pools.Keys, t.pools.Keys, Keys(keys), s.nextTag);
    TagsAfterAdd(s.table, t.table, s.pending, s.promised, Keys(keys), s.pools.Keys);
  }

  ghost predicate Applied(s: State, t: State, cmd: Cmd)
  {
    && Commanded(s.table, t.table, cmd, s.nextTag)
    && t.promised == AfterCmd(s.promised, cmd, s.nextTag, cmd.Remove? && Contested(s.table, Keys(cmd.keys)))
    && t.nextTag == s.nextTag + (if cmd.Remove? then 1 else 0) && t.pending == s.pending + Tags(s.nextTag, t.nextTag)
    && t.pools.Keys == Serves(s.pools.Keys, cmd)
    && PoolsKept(s.table.sockets, s.pools, t.table.sockets, t.pools, RemovedBy(cmd))
  }

  /** The same for all commands of a turn. */
  ghost predicate AppliedAll(s: State, t: State, cmds: seq<Cmd>)
  {
    && CmdsDone(s.table, t.table, cmds, s.nextTag)
    && Counted(s, t, cmds) && t.promised == AfterCmds(s.promised, s.table, cmds, s.nextTag)
    && PoolsKept(s.table.sockets, s.pools, t.table.sockets, t.pools, Removes(cmds))
  }

  /** Every removal takes the next tag and waits; added keys are served, removed ones are not. */
  ghost predicate Counted(s: State, t: State, cmds: seq<Cmd>)
  {
    && t.nextTag == TagAfter(cmds, s.nextTag) >= s.nextTag && t.pending == s.pending + Tags(s.nextTag, t.nextTag)
    && t.pools.Keys == ServesAll(s.pools.Keys, cmds)
  }

  /** What the commands and the service pass of a turn do. */
  ghost predicate Worked(s: State, t: State, cmds: seq<Cmd>, online: set<ResourceKey>, driven: map<nat, Drive>)
  {
    && TurnDone(s.table, t.table, cmds, s.nextTag, online, driven)
    && Counted(s, t, cmds) && t.promised == AfterCmds(s.promised, s.table, cmds, s.nextTag)
    && KeysRefilled(s.table.sockets, s.pools, t.table.sockets, t.pools, Removes(cmds))
  }

  lemma {:induction false} RemoveApplied(s: State, t: State, index: map<nat, nat>, keys: seq<ResourceKey>)
    requires PoolsOk(s.table, s.pools, index) && Removed(s.table, t.table, Keys(keys), s.nextTag)
             && t.pools == s.pools - Keys(keys)
    requires t.nextTag == s.nextTag + 1 && t.pending == s.pending + [s.nextTag]
    requires t.promised == AfterCmd(s.promised, Remove(keys), s.nextTag, Contested(s.table, Keys(keys)))
    ensures Applied(s, t, Remove(keys))
  {
    RemoveCommanded(s.table, t.table, keys, s.nextTag);
    PoolsCommanded(s.table, t.table, s.pools, t.pools, index, Remove(keys), s.nextTag);
  }

  lemma {:induction false} AddApplied(s: State, t: State, index: map<nat, nat>, keys: seq<ResourceKey>)
    requires PoolsOk(s.table, s.pools, index) && Added(s.table, t.table, Keys(keys), s.pools.Keys)
    requires t.nextTag == s.nextTag && t.pending == s.pending && t.promised == AddedAgain(s.promised, Keys(keys))
    requires forall k :: k in t.pools <==> k in s.pools || (k in keys && k.1 != 0)
    requires forall k :: k in s.pools ==> t.pools[k] == s.pools[k]
    ensures Applied(s, t, Add(keys))
  {
    AddCommanded(s.table, t.table, keys, s.pools.Keys, s.nextTag);
    PoolsCommanded(s.table, t.table, s.pools, t.pools, index, Add(keys), s.nextTag);
  }

  lemma {:induction false} CloseApplied(s: State, t: State, index: map<nat, nat>, ids: set<string>)
    requires PoolsOk(s.table, s.pools, index) && ConnsClosed(s.table, t.table, ids) && t == s.(table := t.table)
    ensures Applied(s, t, CloseConnectors(ids))
  {
    ConnsCommanded(s.table, t.table, ids, s.nextTag);
    PoolsCommanded(s.table, t.table, s.pools, t.pools, index, CloseConnectors(ids), s.nextTag);
  }

  ghost function RemoveState(s: State, w: Table, keys: seq<ResourceKey>): State
  {
    State(w, s.pools - Keys(keys), s.pending + [s.nextTag],
          AfterCmd(s.promised, Remove(keys), s.nextTag, Contested(s.table, Keys(keys))), s.nextTag + 1)
  }

  lemma {:induction false} RemoveWorks(s: State, w: Table, index: map<nat, nat>, keys: seq<ResourceKey>)
    requires Promising(s) && TableOk(s.table, s.nextTag) && PoolsOk(s.table, s.pools, index)
             && Removed(s.table, w, Keys(keys), s.nextTag)
    ensures Promising(RemoveState(s, w, keys)) && Applied(s, RemoveState(s, w, keys), Remove(keys))
  {
    RemovePromising(s, RemoveState(s, w, keys), keys);
    RemoveApplied(s, RemoveState(s, w, keys), index, keys);
  }

  /** Which removals were contested is settled when they are applied; if each is awaited, none is. */
  ghost predicate SoleOnes(s: State, t: State, cmds: seq<Cmd>)
  {
    && (forall i :: i in s.promised ==> i in t.promised && t.promised[i].sole == s.promised[i].sole)
    && (Spaced(Busy(s.pending, s.promised), cmds) ==> forall i :: s.nextTag <= i < t.nextTag ==>
        i in t.promised && t.promised[i].sole)
  }

  lemma {:induction false} SoleAfter(s: State, t: State, cmds: seq<Cmd>)
    requires Promising(s) && t.promised == AfterCmds(s.promised, s.table, cmds, s.nextTag)
             && t.nextTag == TagAfter(cmds, s.nextTag)
    ensures SoleOnes(s, t, cmds)
  {
    forall i | i in s.promised ensures i in t.promised && t.promised[i].sole == s.promised[i].sole {
      SoleStays(s.promised, s.table, cmds, s.nextTag, i);
    }
    if Spaced(Busy(s.pending, s.promised), cmds) {
      assert cmds[..|cmds|] == cmds;
      forall i | s.nextTag <= i < t.nextTag ensures i in t.promised && t.promised[i].sole {
        SpacedAreSole(s.table, s.pending, s.promised, cmds, |cmds|, s.nextTag, i);
      }
    }
  }

  lemma {:induction false} CloseWorks(s: State, w: Table, index: map<nat, nat>, ids: set<string>)
    requires Promising(s) && TableOk(s.table, s.nextTag) && PoolsOk(s.table, s.pools, index)
             && ConnsClosed(s.table, w, ids)
    ensures Promising(s.(table := w)) && Applied(s, s.(table := w), CloseConnectors(ids))
  {
    ConnsCommand(s.table, w, s.promised, s.pools.Keys, ids, s.nextTag, s.pending);
    CloseApplied(s, s.(table := w), index, ids);
  }

  lemma {:induction false} CountedNext(s: State, t: State, u: State, cmds: seq<Cmd>, i: nat)
    requires i < |cmds| && Counted(s, t, cmds[..i]) && Applied(t, u, cmds[i])
    ensures Counted(s, u, cmds[..i + 1])
  {
    TagNext(cmds, i, s.nextTag);
    TagsMore(s.nextTag, t.nextTag, u.nextTag);
    ServesNext(s.pools.Keys, cmds, i);
  }

  lemma {:induction false} AppliedNext(s: State, t: State, u: State, cmds: seq<Cmd>, i: nat)
    requires i < |cmds| && AppliedAll(s, t, cmds[..i]) && Applied(t, u, cmds[i])
    ensures AppliedAll(s, u, cmds[..i + 1])
  {
    CountedNext(s, t, u, cmds, i);
    DoneNext(s.table, t.table, u.table, cmds, i, s.nextTag);
    AfterNext(s.promised, s.table, t.table, cmds, i, s.nextTag);
    RemovesNext(cmds, i);
    KeptThen(s.table.sockets, s.pools, t.table.sockets, t.pools, u.table.sockets, u.pools, Removes(cmds[..i]),
             RemovedBy(cmds[i]));
  }

  lemma {:induction false} NoneApplied(s: State, index: map<nat, nat>)
    requires PoolsOk(s.table, s.pools, index)
    ensures AppliedAll(s, s, [])
  {
    PoolsSame(s.table, s.pools, index);
  }

  lemma {:induction false} ServedWorks(s: State, t: State, mid: Table, u: State, cmds: seq<Cmd>,
                                       online: set<ResourceKey>, driven: map<nat, Drive>)
    requires AppliedAll(s, t, cmds) && u.promised == t.promised && u.pending == t.pending && u.nextTag == t.nextTag
    requires Promoted(t.table, mid, online, u.pools.Keys) && Driven(mid, u.table, driven)
    requires RefilledExactly(t.table.sockets, t.pools, u.table.sockets, u.pools)
    ensures Worked(s, u, cmds, online, driven)
  {
    ServiceDone(s.table, t.table, mid, u.table, cmds, s.nextTag, online, u.pools.Keys, driven);
    KeptThenRefilled(s.table.sockets, s.pools, t.table.sockets, t.pools, u.table.sockets, u.pools, Removes(cmds));
  }

  ghost predicate FullPools(pools: Pools) { forall k :: k in pools ==> |pools[k]| == LISTEN_BACKLOG }

  lemma {:induction false} FullAgain(s: map<nat, Sock>, p: Pools, s': map<nat, Sock>, q: Pools)
    requires FullPools(p) && RefilledExactly(s, p, s', q)
    ensures FullPools(q)
  {
    forall k | k in q ensures |q[k]| == LISTEN_BACKLOG { assert PoolRefilled(s, p[k], s', q[k]); }
  }

  /** The tags from `a` up to `b`. */
  function Tags(a: nat, b: nat): seq<nat> { if a <= b then seq(b - a, i requires 0 <= i => a + i) else [] }

  lemma {:induction false} TagsMore(a: nat, b: nat, c: nat)
    requires a <= b <= c
    ensures Tags(a, c) == Tags(a, b) + Tags(b, c)
  {
  }

  /** The keys served after a command. */
  function Serves(served: set<ResourceKey>, cmd: Cmd): set<ResourceKey>
  {
    match cmd
    case Remove(keys) => served - Keys(keys)
    case Add(keys) => served + set k | k in keys && k.1 != 0
    case CloseConnectors(_) => served
  }

  function ServesAll(served: set<ResourceKey>, cmds: seq<Cmd>): set<ResourceKey>
  {
    if cmds == [] then served else Serves(ServesAll(served, cmds[..|cmds| - 1]), cmds[|cmds| - 1])
  }

  lemma {:induction false} ServesNext(served: set<ResourceKey>, cmds: seq<Cmd>, i: nat)
    requires i < |cmds|
    ensures ServesAll(served, cmds[..i + 1]) == Serves(ServesAll(served, cmds[..i]), cmds[i])
  {
    assert cmds[..i + 1][..i] == cmds[..i];
  }

  lemma {:induction false} PoolsSame(v: Table, p: Pools, index: map<nat, nat>)
    requires PoolsOk(v, p, index)
    ensures PoolsKept(v.sockets, p, v.sockets, p, {})
  {
    forall k, i | k in p && 0 <= i < |p[k]| ensures p[k][i] in v.sockets { assert SeatTaken(v, index, k, i, p[k][i]); }
  }

  /** A command leaves the pools of the keys it does not remove alone. */
  lemma {:induction false} PoolsCommanded(v: Table, w: Table, p: Pools, q: Pools, index: map<nat, nat>, cmd: Cmd,
                                          tag: nat)
    requires PoolsOk(v, p, index) && Commanded(v, w, cmd, tag)
    requires forall k :: k in p && k !in RemovedBy(cmd) ==> k in q && q[k] == p[k]
    ensures PoolsKept(v.sockets, p, w.sockets, q, RemovedBy(cmd))
  {
    forall k, i | k in p && k !in RemovedBy(cmd) && 0 <= i < |p[k]|
      ensures p[k][i] in v.sockets && p[k][i] in w.sockets && w.sockets[p[k][i]] == v.sockets[p[k][i]]
    {
      assert SeatTaken(v, index, k, i, p[k][i]);
      assert CmdEntry(At(v, p[k][i]), cmd, tag) == Some(At(v, p[k][i]));
    }
  }

  lemma {:induction false} KeysNext(keys: seq<ResourceKey>, i: nat)
    requires i < |keys|
    ensures Keys(keys[..i + 1]) == Keys(keys[..i]) + {keys[i]}
    ensures forall k :: k in keys[..i + 1] <==> k in keys[..i] || k == keys[i]
  {
  }

  /** From an empty table: a listener whose connection ends within one poll leaves its slot dead. */
  method ListenerDies(k: ResourceKey) returns (ft: FlowTable)
    requires k.1 != 0
    ensures fresh(ft) && ft.Loop() && k in ft.pools && ft.pools[k] != []
    ensures forall i :: 0 <= i < |ft.pools[k]| ==> DeadSlot(ft.sockets, ft.pools, k, i)
  {
    ft := new FlowTable(false);
    PollsToItself(ft.View(), ft.nextTag);
    var acks := ft.Turn(ft.sockets, [Add([k])], {}, map[]);
    AddServes(k);
    ft.EndAll(k);
  }

  lemma {:induction false} AddServes(k: ResourceKey)
    requires k.1 != 0
    ensures k in ServesAll({}, [Add([k])])
  {
    assert [Add([k])][..0] == [] && k in [k];
  }

  function Ended(s: map<nat, Sock>): map<nat, Sock>
  {
    map h | h in s :: if s[h].TcpSock? then s[h].(state := Closed, remote := false) else s[h]
  }

  lemma {:induction false} EndsInPoll(v: Table, nextTag: nat)
    requires TableOk(v, nextTag)
    ensures Polled(v, Table(Ended(v.sockets), v.relays), nextTag)
  {
    forall h | h in v.sockets ensures PollMay(At(v, h), At(Table(Ended(v.sockets), v.relays), h), nextTag) {
      assert EntryOk(At(v, h), nextTag);
    }
  }

  lemma {:induction false} SeatsEnd(v: Table, p: Pools, index: map<nat, nat>)
    requires PoolsOk(v, p, index)
    ensures forall k, i :: k in p && 0 <= i < |p[k]| ==> IsOver(Ended(v.sockets), p[k][i])
  {
    forall k, i | k in p && 0 <= i < |p[k]| ensures IsOver(Ended(v.sockets), p[k][i]) {
      assert SeatTaken(v, index, k, i, p[k][i]);
    }
  }
}

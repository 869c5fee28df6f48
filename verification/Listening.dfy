/**
 The listener pools as the SYN gate sees them: how many connections a resource can take in the
 next poll (`prepare` reading what `service` left, client/src/net_stack.rs).
 */
module Listening {
  import opened Common
  import opened Flows
  import opened Seats
  import SynGate

  /** The gate reads the states of the same sockets. */
  ghost predicate SameStates(s: map<nat, Sock>, sockets: map<nat, SynGate.Socket>)
  {
    forall h :: h in s && s[h].TcpSock? ==> h in sockets && sockets[h].state == s[h].state
  }

  ghost predicate Seated(s: map<nat, Sock>, pool: seq<nat>) { forall i :: 0 <= i < |pool| ==> InTable(s, pool[i]) }

  /** The slots of a pool whose connection is not over. */
  ghost function Alive(s: map<nat, Sock>, pool: seq<nat>): nat
  {
    if pool == [] then 0 else Alive(s, pool[..|pool| - 1]) + if IsOver(s, pool[|pool| - 1]) then 0 else 1
  }

  /** After a service pass a resource has exactly as many free listeners as slots whose connection was not over. */
  lemma {:induction false} FreeAfterService(s: map<nat, Sock>, pool: seq<nat>, s': map<nat, Sock>, now: seq<nat>,
                                            sockets: map<nat, SynGate.Socket>)
    requires PoolRefilled(s, pool, s', now) && Seated(s', now) && SameStates(s', sockets)
    requires forall h :: h in now ==> h in sockets
    ensures SynGate.CountListening(sockets, now) == Alive(s, pool)
    decreases |pool|
  {
    if pool != [] {
      var n := |pool| - 1;
      assert Listens(s', now[n]) <==> !IsOver(s, pool[n]);
      assert InTable(s', now[n]) && sockets[now[n]].state == s'[now[n]].state;
      assert PoolRefilled(s, pool[..n], s', now[..n]);
      FreeAfterService(s, pool[..n], s', now[..n], sockets);
    }
  }

  lemma {:induction false} NoneAlive(s: map<nat, Sock>, pool: seq<nat>)
    requires forall i :: 0 <= i < |pool| ==> IsOver(s, pool[i])
    ensures Alive(s, pool) == 0
    decreases |pool|
  {
    if pool != [] { NoneAlive(s, pool[..|pool| - 1]); }
  }

  /**
   Once every slot of a resource is dead, no SYN for it gets in, whatever a poll holds or receives.
   By `FlowTable.Run` this lasts until the resource is removed.
   */
  lemma {:induction false} DeadKeyIsMute(s: map<nat, Sock>, pools: Pools, sockets: map<nat, SynGate.Socket>,
                                         k: ResourceKey, syn: SynGate.SynOf, g: SynGate.Gate, inner: seq<Bytes>,
                                         now: int)
    requires k in pools && forall i :: 0 <= i < |pools[k]| ==> DeadSlot(s, pools, k, i)
    requires SameStates(s, sockets) && (forall h :: h in pools[k] ==> h in sockets)
    requires k in g.free && g.free[k] == SynGate.CountListening(sockets, pools[k])
    ensures SynGate.SynsFor(syn, SynGate.Poll(syn, g, inner, now).1, k) == 0
  {
    var pool := pools[k];
    forall i | 0 <= i < |pool| ensures IsOver(s, pool[i]) { assert DeadSlot(s, pools, k, i); }
    StillDead(s, pool);
    FreeAfterService(s, pool, s, pool, sockets);
    NoneAlive(s, pool);
    SynGate.PollIsSafe(syn, g, inner, now, k);
  }

  lemma {:induction false} StillDead(s: map<nat, Sock>, pool: seq<nat>)
    requires forall i :: 0 <= i < |pool| ==> IsOver(s, pool[i])
    ensures PoolRefilled(s, pool, s, pool) && Seated(s, pool)
  {
    forall i | 0 <= i < |pool| ensures InTable(s, pool[i]) && !Listens(s, pool[i]) { assert IsOver(s, pool[i]); }
  }
}

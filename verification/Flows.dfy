/**
 The socket table as values: what each operation of `FlowTable` does to one socket, and what
 that means for removals that were promised an acknowledgement (client/src/net_stack.rs).

 smoltcp is the environment: `PollMay` is what one `iface.poll` may do to a socket.
 */
module Flows {
  import opened Common
  import opened Tcp

  /** A TCP socket bound to a resource (`remote`: it still knows its peer), or the DNS socket. */
  datatype Sock = TcpSock(state: TcpState, bound: ResourceKey, remote: bool) | DnsSock

  /**
   A relay entry: the removal that closed it, if one did, whether it was told to end, and its
   connector once selected.
   */
  datatype Relay = Relay(tag: Option<nat>, terminated: bool, selected: Option<string>)

  /** A socket and its relay entry; a TCP socket without one is a listener. */
  datatype Entry = Entry(sock: Sock, relay: Option<Relay>)

  datatype Table = Table(sockets: map<nat, Sock>, relays: map<nat, Relay>)

  function At(v: Table, h: nat): Entry
    requires h in v.sockets
  {
    Entry(v.sockets[h], if h in v.relays then Some(v.relays[h]) else None)
  }

  predicate IsListener(e: Entry) { e.sock.TcpSock? && e.relay.None? }

  predicate BoundIn(e: Entry, keys: set<ResourceKey>) { e.sock.TcpSock? && e.sock.bound in keys }

  function Aborted(s: Sock): Sock
    requires s.TcpSock?
  {
    s.(state := Closed)
  }

  predicate EntryOk(e: Entry, nextTag: nat)
  {
    && (e.relay.Some? ==> e.sock.TcpSock?)
    && (IsListener(e) ==> e.sock.bound.1 != 0)
    && (e.sock.TcpSock? && e.sock.state.Listen? ==> !e.sock.remote)
    && (e.sock.TcpSock? && !e.sock.remote ==> e.sock.state.Listen? || e.sock.state.Closed?)
    && (e.relay.Some? && e.relay.value.tag.Some? ==>
          e.sock.state.Closed? && e.relay.value.terminated && e.relay.value.tag.value < nextTag)
  }

  ghost predicate TableOk(v: Table, nextTag: nat)
  {
    forall h :: h in v.sockets ==> EntryOk(At(v, h), nextTag)
  }

  // ---- what each operation does to one entry ----

  /** A connection that is over; only a listener that is removed and added again leaves this state. */
  predicate Over(s: TcpState) { s.Closed? || s.TimeWait? }

  /** A poll: a socket whose connection is over stays so, and never learns a peer again. */
  predicate PollMay(e: Entry, f: Entry, nextTag: nat)
  {
    && f.relay == e.relay && EntryOk(f, nextTag)
    && if e.sock.DnsSock? then f.sock.DnsSock?
       else
         && f.sock.TcpSock? && f.sock.bound == e.sock.bound
         && (e.sock.state.Closed? ==> f.sock.state.Closed? && (f.sock.remote ==> e.sock.remote))
         && (Over(e.sock.state) ==> Over(f.sock.state))
  }

  predicate Polled(v: Table, w: Table, nextTag: nat)
  {
    && w.sockets.Keys == v.sockets.Keys && w.relays == v.relays
    && forall h :: h in v.sockets ==> PollMay(At(v, h), At(w, h), nextTag)
  }

  function CloseTagged(e: Entry, tag: nat): Entry
    requires e.sock.TcpSock?
  {
    Entry(Aborted(e.sock), Some(Relay(Some(tag), true, if e.relay.Some? then e.relay.value.selected else None)))
  }

  /** Removing `keys`: idle listeners go, sockets with a peer are reset; `None` means gone. */
  function RemoveEntry(e: Entry, keys: set<ResourceKey>, tag: nat): Option<Entry>
  {
    if !BoundIn(e, keys) then Some(e)
    else if IsListener(e) then if e.sock.state.Listen? then None else Some(CloseTagged(e, tag))
    else if e.relay.value.tag.None? && e.sock.remote then Some(CloseTagged(e, tag))
    else Some(e)
  }

  ghost predicate Removed(v: Table, w: Table, keys: set<ResourceKey>, tag: nat)
  {
    && w.sockets.Keys <= v.sockets.Keys
    && forall h :: h in v.sockets ==>
         var r := RemoveEntry(At(v, h), keys, tag);
         if r.None? then h !in w.sockets else h in w.sockets && At(w, h) == r.value
  }

  /** Closing the flows of some connectors: live relays carried by one of them are reset. */
  function CloseConnEntry(e: Entry, conns: set<string>): Entry
  {
    if e.sock.TcpSock? && e.relay.Some? && CarriedBy(e.relay.value, conns) then
      Entry(Aborted(e.sock), Some(e.relay.value.(terminated := true)))
    else e
  }

  predicate CarriedBy(r: Relay, conns: set<string>) { !r.terminated && r.selected.Some? && r.selected.value in conns }

  ghost predicate ConnsClosed(v: Table, w: Table, conns: set<string>)
  {
    w.sockets.Keys == v.sockets.Keys && forall h :: h in v.sockets ==> At(w, h) == CloseConnEntry(At(v, h), conns)
  }

  function FreshListener(k: ResourceKey): Entry { Entry(TcpSock(Listen, k, false), None) }

  /** A listener just created for one of the keys. */
  predicate IsFresh(e: Entry, keys: set<ResourceKey>)
  {
    IsListener(e) && e.sock.bound in keys && e.sock.bound.1 != 0 && e == FreshListener(e.sock.bound)
  }

  ghost predicate OnlyFresh(v: Table, w: Table, keys: set<ResourceKey>)
  {
    forall h :: h in w.sockets && h !in v.sockets ==> IsFresh(At(w, h), keys)
  }

  /** Adding `keys`: nothing there changes, new sockets listen for keys not served yet. */
  ghost predicate Added(v: Table, w: Table, keys: set<ResourceKey>, served: set<ResourceKey>)
  {
    && (forall h :: h in v.sockets ==> h in w.sockets && At(w, h) == At(v, h))
    && OnlyFresh(v, w, keys - served)
  }

  /** An accepted connection gets a relay, or is reset when no connector is online. */
  function PromoteEntry(e: Entry, online: set<ResourceKey>): Entry
  {
    if !IsListener(e) || !IsActive(e.sock.state) then e
    else if e.sock.bound in online then e.(relay := Some(Relay(None, false, None)))
    else Entry(Aborted(e.sock), Some(Relay(None, true, None)))
  }

  /** Driving a relay moves its state; a socket smoltcp no longer needs goes. */
  function DriveEntry(e: Entry, d: Drive): Option<Entry>
  {
    if e.relay.None? || e.sock.DnsSock? then Some(e)
    else
      var s := if DriveMay(e.sock.state, d.state) then d.state else e.sock.state;
      var r := e.relay.value;
      if Removable(s, e.sock.remote) then None else Some(Entry(e.sock.(state := s), Some(DriveRelayEntry(r, d))))
  }

  function DriveRelayEntry(r: Relay, d: Drive): Relay
  {
    r.(terminated := r.terminated || d.ended, selected := if r.selected.Some? then r.selected else d.selected)
  }

  /**
   What happens to a relay in a turn: the state `drive_relay` leaves, whether it ends the flow, and
   the connector its task has selected meanwhile.
   */
  datatype Drive = Drive(state: TcpState, ended: bool, selected: Option<string>)

  function DriveFor(driven: map<nat, Drive>, h: nat): Drive
  {
    if h in driven then driven[h] else Drive(Closed, true, None)
  }

  /** Promotion: accepted listeners become relays, and each is replaced by a fresh one for its key. */
  ghost predicate Promoted(v: Table, w: Table, online: set<ResourceKey>, served: set<ResourceKey>)
  {
    && (forall h :: h in v.sockets ==> h in w.sockets && At(w, h) == PromoteEntry(At(v, h), online))
    && OnlyFresh(v, w, served)
  }

  ghost predicate Driven(v: Table, w: Table, driven: map<nat, Drive>)
  {
    && w.sockets.Keys <= v.sockets.Keys
    && forall h :: h in v.sockets ==>
         var r := DriveEntry(At(v, h), DriveFor(driven, h));
         if r.None? then h !in w.sockets else h in w.sockets && At(w, h) == r.value
  }

  // ---- promises ----

  /**
   What a removal of `keys` under `tag` promises: their sockets are relays closed by it or an older
   removal; by it alone if it was uncontested.
   */
  ghost predicate Promise(v: Table, keys: set<ResourceKey>, tag: nat, sole: bool)
  {
    forall h :: h in v.sockets && BoundIn(At(v, h), keys) ==> Doomed(At(v, h), tag, sole)
  }

  predicate Doomed(e: Entry, tag: nat, sole: bool)
  {
    && e.relay.Some? && e.relay.value.tag.Some?
    && if sole then e.relay.value.tag.value == tag else e.relay.value.tag.value <= tag
  }

  /** Before the next service pass, some may instead be relays without a peer. */
  ghost predicate WeakPromise(v: Table, keys: set<ResourceKey>, tag: nat, sole: bool)
  {
    forall h :: h in v.sockets && BoundIn(At(v, h), keys) ==>
      Doomed(At(v, h), tag, sole) || (At(v, h).relay.Some? && !At(v, h).sock.remote)
  }

  /** Some relay on the keys was closed by an earlier removal and its reset is not out yet. */
  ghost predicate Contested(v: Table, keys: set<ResourceKey>) { exists h :: h in v.sockets && Contests(At(v, h), keys) }

  predicate Contests(e: Entry, keys: set<ResourceKey>)
  {
    BoundIn(e, keys) && e.relay.Some? && e.relay.value.tag.Some? && e.sock.remote
  }

  lemma {:induction false} RemovePromises(v: Table, w: Table, keys: set<ResourceKey>, tag: nat)
    requires TableOk(v, tag) && Removed(v, w, keys, tag)
    ensures TableOk(w, tag + 1) && WeakPromise(w, keys, tag, false)
  {
    forall h | h in w.sockets
      ensures EntryOk(At(w, h), tag + 1)
      ensures BoundIn(At(w, h), keys) ==>
                Doomed(At(w, h), tag, false) || (At(w, h).relay.Some? && !At(w, h).sock.remote)
    {
      assert h in v.sockets && EntryOk(At(v, h), tag);
      EntryPromises(At(v, h), keys, tag);
    }
  }

  lemma {:induction false} EntryPromises(e: Entry, keys: set<ResourceKey>, tag: nat)
    requires EntryOk(e, tag) && RemoveEntry(e, keys, tag).Some?
    ensures var f := RemoveEntry(e, keys, tag).value;
            && EntryOk(f, tag + 1)
            && (BoundIn(f, keys) ==> Doomed(f, tag, false) || (f.relay.Some? && !f.sock.remote))
  {
  }

  lemma {:induction false} SolePromise(v: Table, w: Table, keys: set<ResourceKey>, tag: nat)
    requires TableOk(v, tag) && Removed(v, w, keys, tag) && !Contested(v, keys)
    ensures WeakPromise(w, keys, tag, true)
  {
    forall h | h in w.sockets && BoundIn(At(w, h), keys)
      ensures Doomed(At(w, h), tag, true) || (At(w, h).relay.Some? && !At(w, h).sock.remote)
    {
      assert !Contests(At(v, h), keys) && EntryOk(At(v, h), tag);
    }
  }

  lemma {:induction false} RemoveKeeps(v: Table, w: Table, keys: set<ResourceKey>, tag: nat, promised: set<ResourceKey>,
                                       t: nat, sole: bool)
    requires TableOk(v, tag) && Removed(v, w, keys, tag) && WeakPromise(v, promised, t, sole) && t < tag
    ensures WeakPromise(w, promised, t, sole)
  {
  }

  lemma {:induction false} ConnsKeep(v: Table, w: Table, conns: set<string>, nextTag: nat, promised: set<ResourceKey>,
                                     t: nat, sole: bool)
    requires TableOk(v, nextTag) && ConnsClosed(v, w, conns) && WeakPromise(v, promised, t, sole)
    ensures TableOk(w, nextTag) && WeakPromise(w, promised, t, sole)
  {
  }

  lemma {:induction false} PromoteKeeps(v: Table, w: Table, online: set<ResourceKey>, served: set<ResourceKey>,
                                        nextTag: nat, promised: set<ResourceKey>, t: nat, sole: bool)
    requires TableOk(v, nextTag) && Promoted(v, w, online, served) && WeakPromise(v, promised, t, sole)
             && promised !! served
    ensures TableOk(w, nextTag) && WeakPromise(w, promised, t, sole)
  {
  }

  lemma {:induction false} DriveFulfils(v: Table, w: Table, driven: map<nat, Drive>, nextTag: nat,
                                        promised: set<ResourceKey>, t: nat, sole: bool)
    requires TableOk(v, nextTag) && Driven(v, w, driven) && WeakPromise(v, promised, t, sole)
    ensures TableOk(w, nextTag) && Promise(w, promised, t, sole)
  {
  }

  /** No socket at all is bound to one of the keys. */
  ghost predicate AllGone(v: Table, keys: set<ResourceKey>) { forall h :: h in v.sockets ==> !BoundIn(At(v, h), keys) }
}

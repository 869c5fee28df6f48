/**
 What promotion, driving, removal and revocation do to sockets and flows, told by socket states and
 relays alone (`FlowTable::service`, `remove_listeners_and_close`, `close_connector_flows`,
 client/src/net_stack.rs). A flow is live while its relay was not told to end.
 */
module Effects {
  import opened Common
  import opened Tcp
  import opened Flows
  import opened Removal

  /** A listener that has taken a connection which is not over. */
  predicate Accepted(v: Table, h: nat)
  {
    && h in v.sockets && v.sockets[h].TcpSock? && h !in v.relays
    && v.sockets[h].state !in {Listen, Closed, TimeWait}
  }

  predicate Live(v: Table, h: nat) { h in v.relays && !v.relays[h].terminated }

  predicate BoundTo(v: Table, h: nat, keys: set<ResourceKey>)
  {
    h in v.sockets && v.sockets[h].TcpSock? && v.sockets[h].bound in keys
  }

  predicate SameAt(v: Table, w: Table, h: nat)
    requires h in v.sockets
  {
    && h in w.sockets && w.sockets[h] == v.sockets[h]
    && (h in w.relays <==> h in v.relays) && (h in v.relays && h in w.relays ==> w.relays[h] == v.relays[h])
  }

  // ---- promotion ----

  /**
   Promotion fails closed. A connection for a resource with a connector online is left as it is and gets a
   live relay; any other one is reset and its relay ended from the start. Nothing else changes, and no
   flow is live that was not, but these.
   */
  ghost predicate FailsClosed(v: Table, w: Table, online: set<ResourceKey>)
  {
    && (forall h :: Accepted(v, h) ==> h in w.sockets && h in w.relays && PromotedTo(v, w, h, online))
    && (forall h :: h in v.sockets && !Accepted(v, h) ==> SameAt(v, w, h))
    && (forall h :: Live(w, h) ==> Live(v, h) || (Accepted(v, h) && v.sockets[h].bound in online))
  }

  predicate PromotedTo(v: Table, w: Table, h: nat, online: set<ResourceKey>)
    requires Accepted(v, h) && h in w.sockets && h in w.relays
  {
    && w.relays[h].tag.None? && w.relays[h].selected.None?
    && if v.sockets[h].bound in online then w.sockets[h] == v.sockets[h] && !w.relays[h].terminated
       else w.sockets[h] == v.sockets[h].(state := Closed) && w.relays[h].terminated
  }

  lemma {:induction false} PromotedFailsClosed(v: Table, w: Table, online: set<ResourceKey>, served: set<ResourceKey>)
    requires Promoted(v, w, online, served) && v.relays.Keys <= v.sockets.Keys && w.relays.Keys <= w.sockets.Keys
    ensures FailsClosed(v, w, online)
  {
    forall h | h in v.sockets
      ensures if Accepted(v, h) then h in w.sockets && h in w.relays && PromotedTo(v, w, h, online)
              else SameAt(v, w, h)
    {
      assert At(w, h) == PromoteEntry(At(v, h), online);
    }
    forall h | Live(w, h) ensures Live(v, h) || (Accepted(v, h) && v.sockets[h].bound in online) {
      assert h in w.sockets && (h !in v.sockets ==> IsFresh(At(w, h), served));
    }
  }

  /** The accepted connections that find no connector online. */
  function Offline(v: Table, acc: set<nat>, online: set<ResourceKey>): set<nat>
  {
    set h | h in acc && Accepted(v, h) && v.sockets[h].bound !in online
  }

  lemma {:induction false} OfflineLess(v: Table, acc: set<nat>, online: set<ResourceKey>, h: nat)
    requires h in acc && Accepted(v, h)
    ensures |Offline(v, acc, online)|
         == |Offline(v, acc - {h}, online)| + if v.sockets[h].bound in online then 0 else 1
  {
    if v.sockets[h].bound in online {
      assert Offline(v, acc, online) == Offline(v, acc - {h}, online);
    } else {
      assert Offline(v, acc, online) == Offline(v, acc - {h}, online) + {h};
    }
  }

  // ---- driving ----

  /**
   Driving touches relays only. A socket without a peer goes, one with a peer stays unless it was in
   TIME-WAIT; what stays has at most sent a FIN or a reset. A flow that was told to end is not revived,
   and keeps its tag and its connector.
   */
  ghost predicate Drives(v: Table, w: Table, driven: map<nat, Drive>)
  {
    && w.sockets.Keys <= v.sockets.Keys
    && (forall h :: h in v.sockets && h !in v.relays ==> SameAt(v, w, h))
    && forall h :: h in v.relays && h in v.sockets && v.sockets[h].TcpSock? ==> DrivenTo(v, w, h, DriveFor(driven, h))
  }

  predicate DrivenTo(v: Table, w: Table, h: nat, d: Drive)
    requires h in v.relays && h in v.sockets && v.sockets[h].TcpSock?
  {
    var s, r := v.sockets[h], v.relays[h];
    && (!s.remote ==> h !in w.sockets)
    && (s.remote && s.state !in {Listen, TimeWait} ==> h in w.sockets)
    && (h in w.sockets ==>
          && h in w.relays && w.sockets[h].TcpSock? && w.sockets[h] == s.(state := w.sockets[h].state)
          && w.sockets[h].state in {s.state, CloseState(s.state), Closed}
          && w.relays[h].tag == r.tag && w.relays[h].terminated == (r.terminated || d.ended)
          && (r.selected.Some? ==> w.relays[h].selected == r.selected))
  }

  lemma {:induction false} DrivenDrives(v: Table, w: Table, driven: map<nat, Drive>, nextTag: nat)
    requires Driven(v, w, driven) && TableOk(v, nextTag) && v.relays.Keys <= v.sockets.Keys
    ensures Drives(v, w, driven)
  {
    forall h | h in v.sockets
      ensures if h in v.relays then v.sockets[h].TcpSock? ==> DrivenTo(v, w, h, DriveFor(driven, h))
              else SameAt(v, w, h)
    {
      assert EntryOk(At(v, h), nextTag);
      DrivenAt(v, w, h, DriveFor(driven, h), nextTag);
    }
  }

  lemma {:induction false} DrivenAt(v: Table, w: Table, h: nat, d: Drive, nextTag: nat)
    requires h in v.sockets && EntryOk(At(v, h), nextTag)
    requires var r := DriveEntry(At(v, h), d);
             if r.None? then h !in w.sockets else h in w.sockets && At(w, h) == r.value
    ensures if h in v.relays then v.sockets[h].TcpSock? ==> DrivenTo(v, w, h, d) else SameAt(v, w, h)
  {
  }

  /**
   A service pass: a connection for a resource without a connector is gone or reset, never live; one
   with a connector online is still there if it knows its peer; and no other flow becomes live.
   */
  ghost predicate ServesOnline(v: Table, w: Table, online: set<ResourceKey>)
  {
    && (forall h :: Accepted(v, h) && v.sockets[h].bound !in online && h in w.sockets ==>
          w.sockets[h].TcpSock? && w.sockets[h].state.Closed? && h in w.relays && w.relays[h].terminated)
    && (forall h :: Accepted(v, h) && v.sockets[h].bound in online && v.sockets[h].remote ==>
          h in w.sockets && h in w.relays)
    && (forall h :: Live(w, h) ==> Live(v, h) || (Accepted(v, h) && v.sockets[h].bound in online))
  }

  lemma {:induction false} ServiceServes(v: Table, mid: Table, w: Table, online: set<ResourceKey>,
                                         driven: map<nat, Drive>, nextTag: nat)
    requires FailsClosed(v, mid, online) && Drives(mid, w, driven)
    requires TableOk(mid, nextTag) && mid.relays.Keys <= mid.sockets.Keys && w.relays.Keys <= w.sockets.Keys
    ensures ServesOnline(v, w, online)
  {
    forall h | h in mid.relays ensures mid.sockets[h].TcpSock? && DrivenTo(mid, w, h, DriveFor(driven, h)) {
      assert EntryOk(At(mid, h), nextTag);
    }
    forall h | Live(w, h) ensures Live(mid, h) {
      assert h in mid.sockets && (h !in mid.relays ==> SameAt(mid, w, h));
    }
  }

  // ---- removal ----

  /**
   After a removal no listener of the keys is left and no new socket; every socket of theirs that knows a
   peer is still there, closed by a reset and its flow ended under a tag, this one unless an older
   removal got there first. Idle listeners are gone, and the sockets of other keys are as before.
   */
  ghost predicate Stops(v: Table, w: Table, keys: set<ResourceKey>, tag: nat)
  {
    && w.sockets.Keys <= v.sockets.Keys
    && (forall h :: BoundTo(w, h, keys) ==> h in w.relays)
    && (forall h :: BoundTo(v, h, keys) && v.sockets[h].remote ==>
          h in w.sockets && h in w.relays && IsReset(v, w, h, tag))
    && (forall h :: BoundTo(v, h, keys) && h !in v.relays && v.sockets[h].state.Listen? ==> h !in w.sockets)
    && (forall h :: h in v.sockets && !BoundTo(v, h, keys) ==> SameAt(v, w, h))
  }

  predicate IsReset(v: Table, w: Table, h: nat, tag: nat)
    requires h in v.sockets && v.sockets[h].TcpSock? && h in w.sockets && h in w.relays
  {
    && w.sockets[h] == v.sockets[h].(state := Closed) && w.relays[h].terminated
    && w.relays[h].tag == (if h in v.relays && v.relays[h].tag.Some? then v.relays[h].tag else Some(tag))
    && w.relays[h].selected == if h in v.relays then v.relays[h].selected else None
  }

  lemma {:induction false} RemovedStops(v: Table, w: Table, keys: set<ResourceKey>, tag: nat, nextTag: nat)
    requires Removed(v, w, keys, tag) && TableOk(v, nextTag)
    ensures Stops(v, w, keys, tag)
  {
    forall h | h in v.sockets
      ensures BoundTo(v, h, keys) && v.sockets[h].remote ==> h in w.sockets && h in w.relays && IsReset(v, w, h, tag)
      ensures BoundTo(v, h, keys) && h !in v.relays && v.sockets[h].state.Listen? ==> h !in w.sockets
      ensures !BoundTo(v, h, keys) ==> SameAt(v, w, h)
      ensures BoundTo(w, h, keys) ==> h in w.relays
    {
      assert EntryOk(At(v, h), nextTag);
    }
  }

  // ---- revocation ----

  /** The live flows some of the connectors carry are reset and told to end; everything else is as before. */
  ghost predicate Cuts(v: Table, w: Table, ids: set<string>)
  {
    && w.sockets.Keys == v.sockets.Keys
    && (forall h :: Live(v, h) && h in v.sockets && v.sockets[h].TcpSock? && CarriedIn(v, h, ids) ==>
          && h in w.sockets && w.sockets[h] == v.sockets[h].(state := Closed)
          && h in w.relays && w.relays[h] == v.relays[h].(terminated := true))
    && (forall h :: h in v.sockets && !(Live(v, h) && CarriedIn(v, h, ids)) ==> SameAt(v, w, h))
  }

  predicate CarriedIn(v: Table, h: nat, ids: set<string>)
    requires h in v.relays
  {
    v.relays[h].selected.Some? && v.relays[h].selected.value in ids
  }

  lemma {:induction false} ClosedCuts(v: Table, w: Table, ids: set<string>)
    requires ConnsClosed(v, w, ids)
    ensures Cuts(v, w, ids)
  {
    forall h | h in v.sockets
      ensures if Live(v, h) && CarriedIn(v, h, ids)
              then v.sockets[h].TcpSock? ==> w.sockets[h] == v.sockets[h].(state := Closed) && h in w.relays
                                             && w.relays[h] == v.relays[h].(terminated := true)
              else SameAt(v, w, h)
    {
      assert At(w, h) == CloseConnEntry(At(v, h), ids);
    }
  }

  // ---- a whole turn ----

  /**
   Whatever a turn's commands are: a flow live after it was live after the poll, or accepted in it with a
   connector online; its key was not removed, and the connector that carried it was not revoked.
   */
  ghost predicate OnlyEntitled(v: Table, w: Table, cmds: seq<Cmd>, online: set<ResourceKey>)
  {
    forall h :: Live(w, h) ==> h in v.sockets && v.sockets[h].TcpSock? && Entitled(v, h, cmds, online)
  }

  predicate Entitled(v: Table, h: nat, cmds: seq<Cmd>, online: set<ResourceKey>)
    requires h in v.sockets && v.sockets[h].TcpSock?
  {
    && (Live(v, h) || (Accepted(v, h) && v.sockets[h].bound in online))
    && v.sockets[h].bound !in Removes(cmds) && (h in v.relays ==> !CarriedIn(v, h, Closes(cmds)))
  }

  lemma {:induction false} ClosesNext(cmds: seq<Cmd>, i: nat)
    requires i < |cmds|
    ensures Closes(cmds[..i + 1]) == Closes(cmds[..i]) + if cmds[i].CloseConnectors? then cmds[i].ids else {}
  {
    forall c | c in Closes(cmds[..i]) ensures c in Closes(cmds[..i + 1]) {
      var j :| 0 <= j < |cmds[..i]| && cmds[..i][j].CloseConnectors? && c in cmds[..i][j].ids;
      assert cmds[..i + 1][j] == cmds[..i][j];
    }
    forall c | c in Closes(cmds[..i + 1]) && !(cmds[i].CloseConnectors? && c in cmds[i].ids)
      ensures c in Closes(cmds[..i])
    {
      var j :| 0 <= j < |cmds[..i + 1]| && cmds[..i + 1][j].CloseConnectors? && c in cmds[..i + 1][j].ids;
      assert cmds[..i][j] == cmds[..i + 1][j];
    }
    if cmds[i].CloseConnectors? { assert cmds[..i + 1][i] == cmds[i]; }
  }

  /** A socket the commands leave without an end to its flow: they did not concern it, or it has no peer. */
  predicate Spared(e: Entry, cmds: seq<Cmd>)
  {
    && e.sock.TcpSock?
    && (e.relay.None? || e.sock.remote ==> e.sock.bound !in Removes(cmds))
    && (e.relay.Some? ==> !e.relay.value.terminated && !CarriedBy(e.relay.value, Closes(cmds)))
  }

  predicate Open(e: Entry) { e.sock.TcpSock? && (e.relay.Some? ==> !e.relay.value.terminated) }

  /** What is still open after the commands was not touched by them. */
  lemma {:induction false} OpenIsSpared(e: Entry, cmds: seq<Cmd>, tag: nat)
    requires e.relay.Some? && e.relay.value.tag.Some? ==> e.relay.value.terminated
    requires CmdsEntry(e, cmds, tag).Some? && Open(CmdsEntry(e, cmds, tag).value)
    ensures CmdsEntry(e, cmds, tag).value == e && Spared(e, cmds)
  {
    if cmds != [] {
      var n := |cmds| - 1;
      assert cmds[..n + 1] == cmds;
      RemovesNext(cmds, n);
      ClosesNext(cmds, n);
      OpenIsSpared(e, cmds[..n], tag);
    }
  }

  lemma {:induction false} TurnEntitles(v: Table, w: Table, cmds: seq<Cmd>, tag: nat, online: set<ResourceKey>,
                                        driven: map<nat, Drive>, nextTag: nat)
    requires TurnDone(v, w, cmds, tag, online, driven) && w.relays.Keys <= w.sockets.Keys && TableOk(v, nextTag)
    ensures OnlyEntitled(v, w, cmds, online)
  {
    forall h | Live(w, h) ensures h in v.sockets && v.sockets[h].TcpSock? && Entitled(v, h, cmds, online) {
      assert Survives(v, w, cmds, tag, online, driven, h);
      var e := At(v, h);
      assert EntryOk(e, nextTag);
      if e.sock.DnsSock? { Untouched(e, cmds, tag); }
      TagOrigin(e, cmds, tag);
      OpenIsSpared(e, cmds, tag);
      assert DriveEntry(PromoteEntry(e, online), DriveFor(driven, h)) == Some(At(w, h));
    }
  }
}

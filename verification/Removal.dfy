/** Removals and their acknowledgements over whole turns of the loop. */
module Removal {
  import opened Common
  import opened Tcp
  import opened Flows

  /** Commands of the daemon; an acknowledgement of `Remove` waits for its sockets. */
  datatype Cmd = Remove(keys: seq<ResourceKey>) | Add(keys: seq<ResourceKey>) | CloseConnectors(ids: set<string>)

  function Keys(keys: seq<ResourceKey>): set<ResourceKey> { set k | k in keys }

  /** The keys a turn's commands remove. */
  function Removes(cmds: seq<Cmd>): set<ResourceKey>
  {
    set i, k | 0 <= i < |cmds| && cmds[i].Remove? && k in cmds[i].keys :: k
  }

  // ---- one socket over the commands of a turn ----

  function CmdEntry(e: Entry, cmd: Cmd, tag: nat): Option<Entry>
  {
    match cmd
    case Remove(keys) => RemoveEntry(e, Keys(keys), tag)
    case Add(_) => Some(e)
    case CloseConnectors(ids) => Some(CloseConnEntry(e, ids))
  }

  /** The next tag: every removal takes one. */
  function TagAfter(cmds: seq<Cmd>, tag: nat): nat
  {
    if cmds == [] then tag else TagAfter(cmds[..|cmds| - 1], tag) + if cmds[|cmds| - 1].Remove? then 1 else 0
  }

  function CmdsEntry(e: Entry, cmds: seq<Cmd>, tag: nat): Option<Entry>
  {
    if cmds == [] then Some(e)
    else
      var n := |cmds| - 1;
      var r := CmdsEntry(e, cmds[..n], tag);
      if r.None? then None else CmdEntry(r.value, cmds[n], TagAfter(cmds[..n], tag))
  }

  /** What one command does to the table. */
  ghost predicate Commanded(v: Table, w: Table, cmd: Cmd, tag: nat)
  {
    && (forall h :: h in v.sockets && CmdEntry(At(v, h), cmd, tag).Some? ==>
          h in w.sockets && At(w, h) == CmdEntry(At(v, h), cmd, tag).value)
    && (forall h :: h in w.sockets ==> Follows(v, w, cmd, tag, h) || IsNew(At(w, h)))
  }

  predicate Follows(v: Table, w: Table, cmd: Cmd, tag: nat, h: nat)
    requires h in w.sockets
  {
    h in v.sockets && CmdEntry(At(v, h), cmd, tag) == Some(At(w, h))
  }

  /** A listener nothing has happened to yet. */
  predicate IsNew(e: Entry) { IsListener(e) && e == FreshListener(e.sock.bound) }

  /** What the commands do to the table: to every socket there what they do to it alone; all others are new. */
  ghost predicate CmdsDone(v: Table, w: Table, cmds: seq<Cmd>, tag: nat)
  {
    && (forall h :: h in v.sockets && CmdsEntry(At(v, h), cmds, tag).Some? ==>
          h in w.sockets && At(w, h) == CmdsEntry(At(v, h), cmds, tag).value)
    && (forall h :: h in w.sockets ==> FollowsAll(v, w, cmds, tag, h) || IsNew(At(w, h)))
  }

  predicate FollowsAll(v: Table, w: Table, cmds: seq<Cmd>, tag: nat, h: nat)
    requires h in w.sockets
  {
    h in v.sockets && CmdsEntry(At(v, h), cmds, tag) == Some(At(w, h))
  }

  lemma {:induction false} NewStays(e: Entry, cmd: Cmd, tag: nat)
    requires IsNew(e) && CmdEntry(e, cmd, tag).Some?
    ensures CmdEntry(e, cmd, tag) == Some(e)
  {
  }

  lemma {:induction false} CmdsNext(e: Entry, cmds: seq<Cmd>, i: nat, tag: nat)
    requires i < |cmds|
    ensures var r := CmdsEntry(e, cmds[..i], tag);
            CmdsEntry(e, cmds[..i + 1], tag) == if r.None? then None
                else CmdEntry(r.value, cmds[i], TagAfter(cmds[..i], tag))
  {
    assert cmds[..i + 1][..i] == cmds[..i];
  }

  lemma {:induction false} TagNext(cmds: seq<Cmd>, i: nat, tag: nat)
    requires i < |cmds|
    ensures TagAfter(cmds[..i + 1], tag) == TagAfter(cmds[..i], tag) + if cmds[i].Remove? then 1 else 0
  {
    assert cmds[..i + 1][..i] == cmds[..i];
  }

  lemma {:induction false} DoneNext(v: Table, w: Table, x: Table, cmds: seq<Cmd>, i: nat, tag: nat)
    requires i < |cmds| && CmdsDone(v, w, cmds[..i], tag) && Commanded(w, x, cmds[i], TagAfter(cmds[..i], tag))
    ensures CmdsDone(v, x, cmds[..i + 1], tag)
  {
    var t := TagAfter(cmds[..i], tag);
    forall h | h in v.sockets && CmdsEntry(At(v, h), cmds[..i + 1], tag).Some?
      ensures h in x.sockets && At(x, h) == CmdsEntry(At(v, h), cmds[..i + 1], tag).value
    {
      CmdsNext(At(v, h), cmds, i, tag);
    }
    forall h | h in x.sockets ensures FollowsAll(v, x, cmds[..i + 1], tag, h) || IsNew(At(x, h)) {
      if Follows(w, x, cmds[i], t, h) {
        if FollowsAll(v, w, cmds[..i], tag, h) {
          CmdsNext(At(v, h), cmds, i, tag);
        } else {
          NewStays(At(w, h), cmds[i], t);
        }
      }
    }
  }

  lemma {:induction false} RemoveCommanded(v: Table, w: Table, keys: seq<ResourceKey>, tag: nat)
    requires Removed(v, w, Keys(keys), tag)
    ensures Commanded(v, w, Remove(keys), tag)
  {
    forall h | h in w.sockets ensures Follows(v, w, Remove(keys), tag, h) {
      assert h in v.sockets;
    }
  }

  lemma {:induction false} AddCommanded(v: Table, w: Table, keys: seq<ResourceKey>, served: set<ResourceKey>, tag: nat)
    requires Added(v, w, Keys(keys), served)
    ensures Commanded(v, w, Add(keys), tag)
  {
    forall h | h in w.sockets ensures Follows(v, w, Add(keys), tag, h) || IsNew(At(w, h)) {
      if h !in v.sockets { assert IsFresh(At(w, h), Keys(keys) - served); }
    }
  }

  lemma {:induction false} ConnsCommanded(v: Table, w: Table, ids: set<string>, tag: nat)
    requires ConnsClosed(v, w, ids)
    ensures Commanded(v, w, CloseConnectors(ids), tag)
  {
    forall h | h in w.sockets ensures Follows(v, w, CloseConnectors(ids), tag, h) {
      assert h in v.sockets;
    }
  }

  /** Only a removal of its key puts a tag on a relay, and nothing takes one off. */
  lemma {:induction false} TagOrigin(e: Entry, cmds: seq<Cmd>, tag: nat)
    requires CmdsEntry(e, cmds, tag).Some?
    ensures var f := CmdsEntry(e, cmds, tag).value;
            && (f.sock.TcpSock? <==> e.sock.TcpSock?) && (f.sock.TcpSock? ==> f.sock.bound == e.sock.bound)
            && (f.relay.Some? && f.relay.value.tag.Some? ==>
                  (e.relay.Some? && e.relay.value.tag.Some?) || BoundIn(e, Removes(cmds)))
  {
    if cmds != [] {
      var n := |cmds| - 1;
      TagOrigin(e, cmds[..n], tag);
      RemovesNext(cmds, n);
      assert cmds[..n + 1] == cmds;
    }
  }

  function RemovedBy(cmd: Cmd): set<ResourceKey> { if cmd.Remove? then Keys(cmd.keys) else {} }

  lemma {:induction false} RemovesNext(cmds: seq<Cmd>, i: nat)
    requires i < |cmds|
    ensures Removes(cmds[..i + 1]) == Removes(cmds[..i]) + RemovedBy(cmds[i])
  {
    forall k | k in Removes(cmds[..i]) + RemovedBy(cmds[i]) ensures k in Removes(cmds[..i + 1]) {
      if k in Removes(cmds[..i]) {
        var j :| 0 <= j < |cmds[..i]| && cmds[..i][j].Remove? && k in cmds[..i][j].keys;
        assert cmds[..i + 1][j] == cmds[..i][j];
      } else {
        assert cmds[..i + 1][i] == cmds[i];
      }
    }
    forall k | k in Removes(cmds[..i + 1]) ensures k in Removes(cmds[..i]) + RemovedBy(cmds[i]) {
      var j :| 0 <= j < |cmds[..i + 1]| && cmds[..i + 1][j].Remove? && k in cmds[..i + 1][j].keys;
      if j < i { assert cmds[..i][j] == cmds[..i + 1][j]; }
    }
  }

  // ---- one socket over a turn ----

  function TurnEntry(e: Entry, cmds: seq<Cmd>, tag: nat, online: set<ResourceKey>, d: Drive): Option<Entry>
  {
    match CmdsEntry(e, cmds, tag)
    case None => None
    case Some(f) => DriveEntry(PromoteEntry(f, online), d)
  }

  /**
   What a turn does after its poll: to every socket there what it does to that socket alone, so a flow is touched
   only by a command for its own key or connector; every other socket is a listener made in this turn.
   */
  ghost predicate TurnDone(v: Table, w: Table, cmds: seq<Cmd>, tag: nat, online: set<ResourceKey>,
                           driven: map<nat, Drive>)
  {
    && (forall h :: h in v.sockets && CmdsEntry(At(v, h), cmds, tag).Some? ==>
          var r := TurnEntry(At(v, h), cmds, tag, online, DriveFor(driven, h));
          if r.None? then h !in w.sockets else h in w.sockets && At(w, h) == r.value)
    && (forall h :: h in w.sockets ==> Survives(v, w, cmds, tag, online, driven, h) || IsNew(At(w, h)))
  }

  predicate Survives(v: Table, w: Table, cmds: seq<Cmd>, tag: nat, online: set<ResourceKey>, driven: map<nat, Drive>,
                     h: nat)
    requires h in w.sockets
  {
    h in v.sockets && TurnEntry(At(v, h), cmds, tag, online, DriveFor(driven, h)) == Some(At(w, h))
  }

  lemma {:induction false} NewServed(e: Entry, online: set<ResourceKey>, d: Drive)
    requires IsNew(e)
    ensures DriveEntry(PromoteEntry(e, online), d) == Some(e)
  {
  }

  lemma {:induction false} ServiceDone(v: Table, w: Table, mid: Table, x: Table, cmds: seq<Cmd>, tag: nat,
                                       online: set<ResourceKey>, served: set<ResourceKey>, driven: map<nat, Drive>)
    requires CmdsDone(v, w, cmds, tag) && Promoted(w, mid, online, served) && Driven(mid, x, driven)
    ensures TurnDone(v, x, cmds, tag, online, driven)
  {
    forall h | h in x.sockets ensures Survives(v, x, cmds, tag, online, driven, h) || IsNew(At(x, h)) {
      assert h in mid.sockets;
      if h !in w.sockets {
        assert IsFresh(At(mid, h), served);
      } else if !FollowsAll(v, w, cmds, tag, h) {
        NewServed(At(w, h), online, DriveFor(driven, h));
      }
    }
  }

  /** The connectors whose flows a turn's commands close. */
  function Closes(cmds: seq<Cmd>): set<string>
  {
    set i, c | 0 <= i < |cmds| && cmds[i].CloseConnectors? && c in cmds[i].ids :: c
  }

  lemma {:induction false} Untouched(e: Entry, cmds: seq<Cmd>, tag: nat)
    requires !BoundIn(e, Removes(cmds)) && (e.relay.Some? ==> !CarriedBy(e.relay.value, Closes(cmds)))
    ensures CmdsEntry(e, cmds, tag) == Some(e)
  {
    if cmds != [] {
      var n := |cmds| - 1;
      assert cmds[..n + 1] == cmds;
      RemovesNext(cmds, n);
      forall c | c in Closes(cmds[..n]) ensures c in Closes(cmds) {
        var i :| 0 <= i < |cmds[..n]| && cmds[..n][i].CloseConnectors? && c in cmds[..n][i].ids;
        assert cmds[i] == cmds[..n][i];
      }
      Untouched(e, cmds[..n], tag);
    }
  }

  /**
   Whatever a turn removes and closes, a socket on another key that no closed connector carries is
   served as if it had not.
   */
  lemma {:induction false} OthersUntouched(v: Table, w: Table, cmds: seq<Cmd>, tag: nat, online: set<ResourceKey>,
                                           driven: map<nat, Drive>, h: nat)
    requires TurnDone(v, w, cmds, tag, online, driven) && h in v.sockets && !BoundIn(At(v, h), Removes(cmds))
    requires h in v.relays ==> !CarriedBy(v.relays[h], Closes(cmds))
    ensures var r := TurnEntry(At(v, h), [], tag, online, DriveFor(driven, h));
            if r.None? then h !in w.sockets else h in w.sockets && At(w, h) == r.value
  {
    Untouched(At(v, h), cmds, tag);
  }

  // ---- promises ----

  /** A removal: its keys, those not added again since, and whether no earlier removal still held one of its sockets. */
  datatype Promised = Promised(all: set<ResourceKey>, keys: set<ResourceKey>, sole: bool)

  ghost function AfterCmd(promised: map<nat, Promised>, cmd: Cmd, tag: nat, contested: bool): map<nat, Promised>
  {
    match cmd
    case Remove(keys) => promised[tag := Promised(Keys(keys), Keys(keys), !contested)]
    case Add(keys) => AddedAgain(promised, Keys(keys))
    case CloseConnectors(_) => promised
  }

  function AddedAgain(promised: map<nat, Promised>, keys: set<ResourceKey>): map<nat, Promised>
  {
    map t | t in promised :: promised[t].(keys := promised[t].keys - keys)
  }

  /**
   Whether the removal at the end of `cmds` finds a socket that an earlier removal has closed and
   is still waiting for.
   */
  ghost predicate LastContested(v: Table, cmds: seq<Cmd>, tag: nat)
    requires cmds != []
  {
    var n := |cmds| - 1;
    cmds[n].Remove? && exists h :: h in v.sockets && WasContesting(At(v, h), cmds[..n], tag, Keys(cmds[n].keys))
  }

  predicate WasContesting(e: Entry, cmds: seq<Cmd>, tag: nat, keys: set<ResourceKey>)
  {
    var r := CmdsEntry(e, cmds, tag);
    r.Some? && Contests(r.value, keys)
  }

  /** The removals promised after the commands, from the table before them alone. */
  ghost function AfterCmds(promised: map<nat, Promised>, v: Table, cmds: seq<Cmd>, tag: nat): map<nat, Promised>
  {
    if cmds == [] then promised
    else
      var n := |cmds| - 1;
      AfterCmd(AfterCmds(promised, v, cmds[..n], tag), cmds[n], TagAfter(cmds[..n], tag), LastContested(v, cmds, tag))
  }

  lemma {:induction false} ContestedNow(v: Table, w: Table, cmds: seq<Cmd>, i: nat, tag: nat)
    requires i < |cmds| && cmds[i].Remove? && CmdsDone(v, w, cmds[..i], tag)
    ensures Contested(w, Keys(cmds[i].keys)) <==> LastContested(v, cmds[..i + 1], tag)
  {
    var keys := Keys(cmds[i].keys);
    assert cmds[..i + 1][..i] == cmds[..i];
    if Contested(w, keys) {
      var h :| h in w.sockets && Contests(At(w, h), keys);
      assert FollowsAll(v, w, cmds[..i], tag, h);
      assert WasContesting(At(v, h), cmds[..i], tag, keys);
    }
    if LastContested(v, cmds[..i + 1], tag) {
      var h :| h in v.sockets && WasContesting(At(v, h), cmds[..i], tag, keys);
      assert h in w.sockets && Contests(At(w, h), keys);
    }
  }

  lemma {:induction false} AfterNext(promised: map<nat, Promised>, v: Table, w: Table, cmds: seq<Cmd>, i: nat, tag: nat)
    requires i < |cmds| && CmdsDone(v, w, cmds[..i], tag)
    ensures AfterCmds(promised, v, cmds[..i + 1], tag)
         == AfterCmd(AfterCmds(promised, v, cmds[..i], tag), cmds[i], TagAfter(cmds[..i], tag),
                     cmds[i].Remove? && Contested(w, Keys(cmds[i].keys)))
  {
    assert cmds[..i + 1][..i] == cmds[..i];
    if cmds[i].Remove? { ContestedNow(v, w, cmds, i, tag); }
  }

  ghost predicate Promises(v: Table, promised: map<nat, Promised>, served: set<ResourceKey>, nextTag: nat)
  {
    forall t :: t in promised ==>
        t < nextTag && Promise(v, promised[t].keys, t, promised[t].sole) && promised[t].keys !! served
  }

  ghost predicate WeakPromises(v: Table, promised: map<nat, Promised>, served: set<ResourceKey>, nextTag: nat)
  {
    forall t :: t in promised ==>
        t < nextTag && WeakPromise(v, promised[t].keys, t, promised[t].sole) && promised[t].keys !! served
  }

  /** `close_pending` */
  predicate Tagged(relays: map<nat, Relay>, t: nat) { exists h :: h in relays && relays[h].tag == Some(t) }

  /** Tags on relays belong to removals of their key that are not acknowledged yet. */
  ghost predicate TagsWithin(v: Table, pending: seq<nat>, promised: map<nat, Promised>)
  {
    forall h :: h in v.sockets ==> TagOk(At(v, h), pending, promised)
  }

  predicate TagOk(e: Entry, pending: seq<nat>, promised: map<nat, Promised>)
  {
    e.relay.Some? && e.relay.value.tag.Some? ==>
      e.relay.value.tag.value in pending && e.relay.value.tag.value in promised
          && BoundIn(e, promised[e.relay.value.tag.value].all)
  }

  ghost predicate PendingKnown(pending: seq<nat>, promised: map<nat, Promised>)
  {
    forall t :: t in pending ==> t in promised
  }

  lemma {:induction false} PollPromises(v: Table, w: Table, promised: map<nat, Promised>, served: set<ResourceKey>,
                                        nextTag: nat, pending: seq<nat>)
    requires Promises(v, promised, served, nextTag) && TagsWithin(v, pending, promised) && Polled(v, w, nextTag)
    ensures WeakPromises(w, promised, served, nextTag) && TagsWithin(w, pending, promised)
  {
    forall h | h in w.sockets ensures TagOk(At(w, h), pending, promised) {
      assert PollMay(At(v, h), At(w, h), nextTag) && TagOk(At(v, h), pending, promised);
    }
  }

  lemma {:induction false} RemoveCommand(v: Table, w: Table, promised: map<nat, Promised>, served: set<ResourceKey>,
                                         keys: set<ResourceKey>, tag: nat)
    requires TableOk(v, tag) && WeakPromises(v, promised, served, tag) && Removed(v, w, keys, tag)
    ensures WeakPromises(w, promised[tag := Promised(keys, keys, !Contested(v, keys))], served - keys, tag + 1)
  {
    RemovePromises(v, w, keys, tag);
    if !Contested(v, keys) { SolePromise(v, w, keys, tag); }
    forall t | t in promised ensures WeakPromise(w, promised[t].keys, t, promised[t].sole) {
      RemoveKeeps(v, w, keys, tag, promised[t].keys, t, promised[t].sole);
    }
  }

  lemma {:induction false} TagsAfterRemove(v: Table, w: Table, pending: seq<nat>, promised: map<nat, Promised>,
                                           keys: set<ResourceKey>, tag: nat, p: Promised)
    requires TagsWithin(v, pending, promised) && Removed(v, w, keys, tag) && p.all == keys && tag !in promised
    ensures TagsWithin(w, pending + [tag], promised[tag := p])
  {
    forall h | h in w.sockets ensures TagOk(At(w, h), pending + [tag], promised[tag := p]) {
      assert h in v.sockets && TagOk(At(v, h), pending, promised);
    }
  }

  lemma {:induction false} AddCommand(v: Table, w: Table, promised: map<nat, Promised>, served: set<ResourceKey>,
                                      more: set<ResourceKey>, keys: set<ResourceKey>, nextTag: nat)
    requires TableOk(v, nextTag) && WeakPromises(v, promised, served, nextTag) && Added(v, w, keys, served)
             && more <= served + keys
    ensures WeakPromises(w, AddedAgain(promised, keys), more, nextTag)
  {
  }

  lemma {:induction false} TagsAfterAdd(v: Table, w: Table, pending: seq<nat>, promised: map<nat, Promised>,
                                        keys: set<ResourceKey>, served: set<ResourceKey>)
    requires TagsWithin(v, pending, promised) && Added(v, w, keys, served)
    ensures TagsWithin(w, pending, AddedAgain(promised, keys))
  {
    forall h | h in w.sockets ensures TagOk(At(w, h), pending, AddedAgain(promised, keys)) {
      if h in v.sockets { assert TagOk(At(v, h), pending, promised); } else { assert IsFresh(At(w, h), keys - served); }
    }
  }

  lemma {:induction false} ConnsCommand(v: Table, w: Table, promised: map<nat, Promised>, served: set<ResourceKey>,
                                        ids: set<string>, nextTag: nat, pending: seq<nat>)
    requires TableOk(v, nextTag) && WeakPromises(v, promised, served, nextTag) && TagsWithin(v, pending, promised)
             && ConnsClosed(v, w, ids)
    ensures WeakPromises(w, promised, served, nextTag) && TagsWithin(w, pending, promised)
  {
    forall t | t in promised ensures WeakPromise(w, promised[t].keys, t, promised[t].sole) {
      ConnsKeep(v, w, ids, nextTag, promised[t].keys, t, promised[t].sole);
    }
    forall h | h in w.sockets ensures TagOk(At(w, h), pending, promised) {
      assert TagOk(At(v, h), pending, promised);
    }
  }

  lemma {:induction false} ServicePromises(v: Table, mid: Table, w: Table, promised: map<nat, Promised>,
                                           served: set<ResourceKey>, nextTag: nat, online: set<ResourceKey>,
                                           driven: map<nat, Drive>)
    requires TableOk(v, nextTag) && WeakPromises(v, promised, served, nextTag)
    requires Promoted(v, mid, online, served) && Driven(mid, w, driven)
    ensures Promises(w, promised, served, nextTag)
  {
    forall t | t in promised ensures Promise(w, promised[t].keys, t, promised[t].sole) {
      PromoteKeeps(v, mid, online, served, nextTag, promised[t].keys, t, promised[t].sole);
      DriveFulfils(mid, w, driven, nextTag, promised[t].keys, t, promised[t].sole);
    }
  }

  lemma {:induction false} ServiceTags(v: Table, mid: Table, w: Table, promised: map<nat, Promised>,
                                       served: set<ResourceKey>, online: set<ResourceKey>, driven: map<nat, Drive>,
                                       pending: seq<nat>)
    requires Promoted(v, mid, online, served) && Driven(mid, w, driven) && TagsWithin(v, pending, promised)
    ensures TagsWithin(w, pending, promised)
  {
    forall h | h in w.sockets ensures TagOk(At(w, h), pending, promised) {
      assert h in mid.sockets;
      if h in v.sockets { assert TagOk(At(v, h), pending, promised); } else { assert IsFresh(At(mid, h), served); }
    }
  }

  /** The keys of removals that are not acknowledged yet. */
  function Busy(pending: seq<nat>, promised: map<nat, Promised>): set<ResourceKey>
  {
    set t, k | t in pending && t in promised && k in promised[t].all :: k
  }

  /** Every removal of the turn is for keys no removal before it is still waiting for, as when each one is awaited. */
  ghost predicate Spaced(busy: set<ResourceKey>, cmds: seq<Cmd>)
  {
    forall i :: 0 <= i < |cmds| && cmds[i].Remove? ==> Keys(cmds[i].keys) !! busy + Removes(cmds[..i])
  }

  lemma {:induction false} SpacedUncontested(v: Table, pending: seq<nat>, promised: map<nat, Promised>, cmds: seq<Cmd>,
                                             i: nat, tag: nat)
    requires TagsWithin(v, pending, promised) && Spaced(Busy(pending, promised), cmds) && i < |cmds|
    ensures !LastContested(v, cmds[..i + 1], tag)
  {
    assert cmds[..i + 1][..i] == cmds[..i];
    if cmds[i].Remove? {
      var keys := Keys(cmds[i].keys);
      forall h | h in v.sockets ensures !WasContesting(At(v, h), cmds[..i], tag, keys) {
        if CmdsEntry(At(v, h), cmds[..i], tag).Some? {
          TagOrigin(At(v, h), cmds[..i], tag);
          assert TagOk(At(v, h), pending, promised);
        }
      }
    }
  }

  /** Later commands do not change whose removal was contested. */
  lemma {:induction false} SoleStays(promised: map<nat, Promised>, v: Table, cmds: seq<Cmd>, tag: nat, t: nat)
    requires t in promised && t < tag
    ensures var after := AfterCmds(promised, v, cmds, tag);
              t in after && after[t].sole == promised[t].sole && after[t].all == promised[t].all
    ensures TagAfter(cmds, tag) >= tag
  {
    if cmds != [] { SoleStays(promised, v, cmds[..|cmds| - 1], tag, t); }
  }

  /** The removals of such a turn are contested by none. */
  lemma {:induction false} SpacedAreSole(v: Table, pending: seq<nat>, promised: map<nat, Promised>, cmds: seq<Cmd>,
                                         i: nat, tag: nat, t: nat)
    requires TagsWithin(v, pending, promised) && Spaced(Busy(pending, promised), cmds) && i <= |cmds|
             && tag <= t < TagAfter(cmds[..i], tag)
    ensures var after := AfterCmds(promised, v, cmds[..i], tag); t in after && after[t].sole
  {
    if i > 0 {
      assert cmds[..i][..i - 1] == cmds[..i - 1];
      SpacedUncontested(v, pending, promised, cmds, i - 1, tag);
      if t < TagAfter(cmds[..i - 1], tag) {
        SpacedAreSole(v, pending, promised, cmds, i - 1, tag, t);
      }
    }
  }

  /**
   What an acknowledgement means. If no earlier removal held a socket of the keys when they were
   removed, none is left; otherwise what is left are sockets such a removal has closed.
   */
  ghost predicate Acknowledged(v: Table, p: Promised, t: nat)
  {
    && (p.sole ==> AllGone(v, p.keys))
    && forall h :: h in v.sockets && BoundIn(At(v, h), p.keys) ==>
        Doomed(At(v, h), t, false) && At(v, h).relay.value.tag != Some(t)
  }

  lemma {:induction false} AckHolds(v: Table, p: Promised, t: nat)
    requires Promise(v, p.keys, t, p.sole) && !Tagged(v.relays, t)
    ensures Acknowledged(v, p, t)
  {
    forall h | h in v.sockets && BoundIn(At(v, h), p.keys) ensures !p.sole && At(v, h).relay.value.tag != Some(t) {
      assert Doomed(At(v, h), t, p.sole) && h in v.relays;
    }
  }

  lemma {:induction false} AcksHold(v: Table, promised: map<nat, Promised>, served: set<ResourceKey>, nextTag: nat,
                                    waiting: seq<nat>, pending: seq<nat>, acks: seq<nat>)
    requires Promises(v, promised, served, nextTag) && TagsWithin(v, waiting, promised)
             && v.relays.Keys <= v.sockets.Keys
    requires multiset(pending) + multiset(acks) == multiset(waiting)
    requires PendingKnown(waiting, promised) && forall t :: t in acks ==> !Tagged(v.relays, t)
    ensures TagsWithin(v, pending, promised) && PendingKnown(pending, promised)
    ensures forall t :: t in acks ==> t in promised && Acknowledged(v, promised[t], t)
  {
    forall h | h in v.sockets ensures TagOk(At(v, h), pending, promised) {
      assert TagOk(At(v, h), waiting, promised);
      if h in v.relays && v.relays[h].tag.Some? {
        var t := v.relays[h].tag.value;
        assert t in multiset(waiting) && Tagged(v.relays, t);
      }
    }
    forall t | t in pending ensures t in promised {
      assert t in multiset(waiting);
    }
    forall t | t in acks ensures t in promised && Acknowledged(v, promised[t], t) {
      assert t in multiset(waiting);
      AckHolds(v, promised[t], t);
    }
  }

  /**
   Two removals of the same key in flight: a flow is reset by the first (its reset not out
   yet), the key is added and removed again, and the second removal is acknowledged while the
   flow's socket is still there. The daemon avoids this by awaiting each acknowledgement.
   */
  lemma {:induction false} EarlyAck(k: ResourceKey) returns (run: seq<Table>)
    requires k.1 != 0
    ensures |run| == 6 && run[0] == Table(map[], map[])
    ensures Added(run[0], run[1], {k}, {}) && Polled(run[1], run[2], 0)
    ensures Promoted(run[2], run[3], {k}, {k}) && Driven(run[3], run[3], map[0 := Drive(Established, false, None)])
    ensures Removed(run[3], run[4], {k}, 0) && Driven(run[4], run[4], map[]) && Polled(run[4], run[4], 1)
    ensures Added(run[4], run[5], {k}, {}) && Contested(run[5], {k}) && Removed(run[5], run[4], {k}, 1)
    ensures !Tagged(run[4].relays, 1) && !AllGone(run[4], {k})
  {
    var idle, live, dead := TcpSock(Listen, k, false), TcpSock(Established, k, true), TcpSock(Closed, k, true);
    var closed := Relay(Some(0), true, None);
    var r4, r5 := Table(map[0 := dead], map[0 := closed]), Table(map[0 := dead, 1 := idle], map[0 := closed]);
    run := [Table(map[], map[]), Table(map[0 := idle], map[]), Table(map[0 := live], map[]),
            Table(map[0 := live, 1 := idle], map[0 := Relay(None, false, None)]), r4, r5];
    assert BoundIn(At(r4, 0), {k}) && Contests(At(r5, 0), {k});
  }

  /** Removing an element as `Vec::swap_remove` does. */
  function SwapRemove<T>(s: seq<T>, i: nat): seq<T>
    requires i < |s|
  {
    s[i := s[|s| - 1]][..|s| - 1]
  }

  lemma {:induction false} Around<T>(a: seq<T>, x: T, b: seq<T>)
    ensures multiset(a + [x] + b) == multiset(a) + multiset(b) + multiset{x}
  {
  }

  lemma {:induction false} SwapRemoveKeeps<T>(s: seq<T>, i: nat)
    requires i < |s|
    ensures multiset(SwapRemove(s, i)) + multiset{s[i]} == multiset(s)
  {
    var n := |s| - 1;
    assert s == s[..n] + [s[n]];
    if i == n {
      assert SwapRemove(s, i) == s[..n];
    } else {
      var mid := s[i + 1..n];
      assert SwapRemove(s, i) == s[..i] + [s[n]] + mid && s[..n] == s[..i] + [s[i]] + mid;
      Around(s[..i], s[n], mid);
      Around(s[..i], s[i], mid);
    }
  }

  /** `complete_pending_closes`: acknowledges every removal whose sockets are all reaped. */
  method CompletePendingCloses(relays: map<nat, Relay>, waiting: seq<nat>) returns (pending: seq<nat>, acks: seq<nat>)
    ensures multiset(pending) + multiset(acks) == multiset(waiting)
    ensures forall t :: t in pending ==> Tagged(relays, t)
    ensures forall t :: t in acks ==> !Tagged(relays, t)
  {
    var i := 0;
    pending, acks := waiting, [];
    while i < |pending|
      invariant 0 <= i <= |pending|
      invariant multiset(pending) + multiset(acks) == multiset(waiting)
      invariant forall j :: 0 <= j < i ==> Tagged(relays, pending[j])
      invariant forall t :: t in acks ==> !Tagged(relays, t)
      decreases |pending| - i
    {
      if Tagged(relays, pending[i]) {
        i := i + 1;
      } else {
        SwapRemoveKeeps(pending, i);
        acks := acks + [pending[i]];
        pending := SwapRemove(pending, i);
      }
    }
  }
}

/**
 The effective configuration read off the snapshots themselves: which entries it has, from which remote
 network each takes its connectors, and which of them (`effective_config`, `resolve_entry_coords`,
 `revoked_connector_ids`, client/src/daemon.rs). The snapshots are any lists: network and connector ids may
 repeat.
 */
module Snapshots {
  import opened Common
  import opened Ordering
  import opened Config
  import opened Canonical
  import opened Classify
  import opened TransportMap

  // ---- where an entry takes its connectors from ----

  ghost predicate Lists(ns: seq<Network>, id: string) { exists i :: 0 <= i < |ns| && ns[i].id == id }

  /** The last of the networks with this id. */
  predicate IsLastAt(ns: seq<Network>, id: string, i: nat)
  {
    i < |ns| && ns[i].id == id && forall j :: i < j < |ns| ==> ns[j].id != id
  }

  /**
   `cs` are the connectors of a remote network: those the transport plane lists for it if it lists it at all, else
   the ACL's, else none; of several networks with its id the last one counts.
   */
  ghost predicate Provides(acl: Acl, transport: Option<Transport>, id: string, cs: seq<Coords>)
  {
    if transport.Some? && Lists(transport.value.networks, id) then
      exists i: nat :: IsLastAt(transport.value.networks, id, i) && cs == transport.value.networks[i].connectors
    else if Lists(acl.networks, id) then
      exists i: nat :: IsLastAt(acl.networks, id, i) && cs == acl.networks[i].connectors
    else cs == []
  }

  lemma {:induction false} LastById(ns: seq<Network>, id: string) returns (i: nat)
    ensures id in ById(ns) <==> Lists(ns, id)
    ensures id in ById(ns) ==> IsLastAt(ns, id, i) && ById(ns)[id] == ns[i]
    decreases |ns|
  {
    i := 0;
    if ns != [] {
      var n := |ns| - 1;
      i := LastById(ns[..n], id);
      if ns[n].id == id {
        i := n;
      } else if id in ById(ns) {
        assert ns[..n][i] == ns[i];
        assert forall j :: 0 <= j < n ==> ns[..n][j] == ns[j];
      }
      if Lists(ns, id) && ns[n].id != id {
        var j :| 0 <= j < |ns| && ns[j].id == id;
        assert ns[..n][j].id == id;
      }
    }
  }

  lemma {:induction false} OneLast(ns: seq<Network>, id: string, i: nat, j: nat)
    requires IsLastAt(ns, id, i) && IsLastAt(ns, id, j)
    ensures i == j
  {
  }

  lemma {:induction false} ProvidesConnectors(acl: Acl, transport: Option<Transport>, id: string, cs: seq<Coords>)
    ensures Provides(acl, transport, id, cs) <==> cs == Connectors(PlanesOf(acl, transport), id)
  {
    var a := LastById(acl.networks, id);
    if transport.Some? && Lists(transport.value.networks, id) {
      var t := LastById(transport.value.networks, id);
      forall i: nat | IsLastAt(transport.value.networks, id, i) ensures i == t {
        OneLast(transport.value.networks, id, i, t);
      }
    } else {
      if transport.Some? { var t := LastById(transport.value.networks, id); }
      forall i: nat | IsLastAt(acl.networks, id, i) ensures i == a { OneLast(acl.networks, id, i, a); }
    }
  }

  // ---- which of them ----

  ghost predicate IsRevoked(acl: Acl, id: string) { exists r :: r in acl.revoked && r.id == id && id != "" }

  ghost predicate IsFirst(cs: seq<Coords>, c: Coords)
  {
    exists i :: 0 <= i < |cs| && cs[i] == c && forall j :: 0 <= j < i ==> cs[j].id != c.id
  }

  /** How often a connector is in an entry: not at all if it is revoked; the preferred one once, as first listed. */
  ghost function Times(acl: Acl, cs: seq<Coords>, preferred: string, c: Coords): nat
  {
    if IsRevoked(acl, c.id) then 0
    else if c.id != preferred then multiset(cs)[c]
    else if preferred != "" && IsFirst(cs, c) then 1 else 0
  }

  lemma {:induction false} FindFirstCount(cs: seq<Coords>, id: string, c: Coords)
    ensures multiset(FindFirst(cs, id))[c] == if c.id == id && IsFirst(cs, c) then 1 else 0
    decreases |cs|
  {
    if cs != [] && cs[0].id != id {
      FindFirstCount(cs[1..], id, c);
      if c.id == id && IsFirst(cs, c) {
        var i :| 0 <= i < |cs| && cs[i] == c && forall j :: 0 <= j < i ==> cs[j].id != c.id;
        assert cs[1..][i - 1] == c && forall j :: 0 <= j < i - 1 ==> cs[1..][j] == cs[j + 1];
      }
      if c.id == id && IsFirst(cs[1..], c) {
        var i :| 0 <= i < |cs[1..]| && cs[1..][i] == c && forall j :: 0 <= j < i ==> cs[1..][j].id != c.id;
        assert cs[i + 1] == c && forall j :: 0 < j < i + 1 ==> cs[j] == cs[1..][j - 1];
      }
    } else if cs != [] && c.id == id {
      assert c == cs[0] ==> cs[0] == c;
    }
  }

  lemma {:induction false} OrderedCount(preferred: string, cs: seq<Coords>, c: Coords)
    ensures multiset(OrderedFor(preferred, cs))[c]
         == if c.id != preferred then multiset(cs)[c] else if preferred != "" && IsFirst(cs, c) then 1 else 0
  {
    FindFirstCount(cs, preferred, c);
    FilterCount(cs, (x: Coords) => x.id != preferred, c);
  }

  lemma {:induction false} RevokedIs(acl: Acl, id: string)
    ensures id in RevokedIds(acl) <==> IsRevoked(acl, id)
  {
  }

  lemma {:induction false} AppliedCount(acl: Acl, transport: Option<Transport>, e: AclEntry, cs: seq<Coords>, c: Coords)
    requires Provides(acl, transport, e.networkId, cs)
    ensures multiset(Apply(PlanesOf(acl, transport), e).coords)[c] == Times(acl, cs, e.preferred, c)
  {
    var planes := PlanesOf(acl, transport);
    ProvidesConnectors(acl, transport, e.networkId, cs);
    SortCoordsMembers(e.preferred, ResolveCoords(planes, e.networkId, e.preferred), c);
    FilterCount(OrderedFor(e.preferred, cs), (x: Coords) => x.id !in planes.revoked, c);
    OrderedCount(e.preferred, cs, c);
    RevokedIs(acl, c.id);
  }

  // ---- the configuration ----

  /** An applied entry without its connectors. */
  function AppliedKey(x: AppliedEntry): Key { Key(x.address, x.port, x.protocol, x.networkId, x.preferred) }

  /** The entries are those of the ACL that list this device, one for one and sorted; the identity is the device's. */
  lemma {:induction false} EntriesExact(acl: Acl, transport: Option<Transport>, device: Device)
    ensures var cfg := EffectiveConfig(acl, transport, device);
            var mine := Filter(acl.entries, (e: AclEntry) => device.identity.spiffeId in e.allowedSpiffeIds);
            && cfg.identity == device.identity && Sorted(cfg.entries, LeEntry)
            && multiset(Map(cfg.entries, AppliedKey)) == multiset(Map(mine, KeyOf))
  {
    var cfg, planes := EffectiveConfig(acl, transport, device), PlanesOf(acl, transport);
    var f := (e: AclEntry) => Apply(planes, e);
    var es := AllowedEntries(acl, device.identity.spiffeId);
    var mine := Filter(acl.entries, (e: AclEntry) => device.identity.spiffeId in e.allowedSpiffeIds);
    SameFilter(acl.entries, (e: AclEntry) => Allowed(e, device.identity.spiffeId),
               (e: AclEntry) => device.identity.spiffeId in e.allowedSpiffeIds);
    LeEntryTotal();
    SortSorts(Map(es, f), LeEntry);
    MapPermutes(cfg.entries, Map(es, f), AppliedKey);
    assert Map(Map(es, f), AppliedKey) == Map(mine, KeyOf);
  }

  lemma {:induction false} SameFilter<T(!new)>(xs: seq<T>, p: T -> bool, q: T -> bool)
    requires forall x :: p(x) == q(x)
    ensures Filter(xs, p) == Filter(xs, q)
    decreases |xs|
  {
    if xs != [] { SameFilter(xs[1..], p, q); }
  }

  /**
   An entry holds exactly the connectors its remote network provides that are not revoked: every
   other one as often as it is listed, the preferred one once. None comes from the ACL when the transport
   plane lists the network.
   */
  lemma {:induction false} ConnectorsExact(acl: Acl, transport: Option<Transport>, device: Device, x: AppliedEntry,
                                           cs: seq<Coords>)
    requires x in EffectiveConfig(acl, transport, device).entries && Provides(acl, transport, x.networkId, cs)
    ensures forall c :: multiset(x.coords)[c] == Times(acl, cs, x.preferred, c)
  {
    AppliedMembers(acl, transport, device, x);
    var e :| e in AllowedEntries(acl, device.identity.spiffeId) && Apply(PlanesOf(acl, transport), e) == x;
    forall c ensures multiset(x.coords)[c] == Times(acl, cs, x.preferred, c) {
      AppliedCount(acl, transport, e, cs, c);
    }
  }

  /** Only revoked connectors are dropped: one with an id of its own that is not revoked is in the entry. */
  lemma {:induction false} NothingElseDropped(acl: Acl, transport: Option<Transport>, device: Device, x: AppliedEntry,
                                              cs: seq<Coords>, c: Coords)
    requires x in EffectiveConfig(acl, transport, device).entries && Provides(acl, transport, x.networkId, cs)
    requires c in cs && c.id != "" && (forall d :: d in cs && d.id == c.id ==> d == c)
    requires forall r :: r in acl.revoked ==> r.id != c.id
    ensures c in x.coords
  {
    ConnectorsExact(acl, transport, device, x, cs);
    FirstOfItsId(cs, c);
    assert c in multiset(cs);
    assert multiset(x.coords)[c] > 0;
  }

  /** The preferred connector leads if it is there; the others follow in the order of their ids. */
  lemma {:induction false} ConnectorsOrdered(acl: Acl, transport: Option<Transport>, device: Device, x: AppliedEntry)
    requires x in EffectiveConfig(acl, transport, device).entries
    ensures forall c :: c in x.coords && c.id == x.preferred ==> x.coords[0] == c
    ensures forall i, j :: 0 <= i < j < |x.coords| && x.coords[i].id != x.preferred ==>
              !LtStr(x.coords[j].id, x.coords[i].id)
  {
    AppliedMembers(acl, transport, device, x);
    var planes := PlanesOf(acl, transport);
    var e :| e in AllowedEntries(acl, device.identity.spiffeId) && Apply(planes, e) == x;
    var cs := ResolveCoords(planes, e.networkId, e.preferred);
    PreferredFirst(planes, e, cs);
    SortedOrder(e.preferred, cs, x.coords);
  }

  lemma {:induction false} SortedOrder(preferred: string, cs: seq<Coords>, got: seq<Coords>)
    requires got == SortCoords(preferred, cs) && forall i :: 0 < i < |cs| ==> cs[i].id != preferred
    requires cs != [] && cs[0].id == preferred ==> preferred != ""
    ensures forall c :: c in got && c.id == preferred ==> got[0] == c
    ensures forall i, j :: 0 <= i < j < |got| && got[i].id != preferred ==> !LtStr(got[j].id, got[i].id)
  {
    if cs != [] && cs[0].id == preferred {
      IdOrder(cs[1..], preferred, got[1..]);
      assert got == [cs[0]] + got[1..];
    } else {
      IdOrder(cs, preferred, got);
    }
  }

  /** Sorted connectors are in the order of their ids, and are the ones that were there. */
  lemma {:induction false} IdOrder(cs: seq<Coords>, preferred: string, got: seq<Coords>)
    requires got == Sort(cs, LeCoords) && forall c :: c in cs ==> c.id != preferred
    ensures forall c :: c in got ==> c.id != preferred
    ensures forall i, j :: 0 <= i < j < |got| ==> !LtStr(got[j].id, got[i].id)
  {
    LeCoordsTotal();
    SortSorts(cs, LeCoords);
    SameMembers(got, cs);
    forall i, j | 0 <= i < j < |got| ensures !LtStr(got[j].id, got[i].id) {
      assert LeCoords(got[i], got[j]);
      LtStrTotal(got[i].id, got[j].id);
    }
  }

  /** Among the usable connectors only the first may be the preferred one. */
  lemma {:induction false} PreferredFirst(planes: Planes, e: AclEntry, cs: seq<Coords>)
    requires cs == ResolveCoords(planes, e.networkId, e.preferred)
    ensures forall i :: 0 < i < |cs| ==> cs[i].id != e.preferred
    ensures cs != [] && cs[0].id == e.preferred ==> e.preferred != ""
  {
    var all := Connectors(planes, e.networkId);
    var ok := (c: Coords) => c.id !in planes.revoked;
    var head, rest := Head(e.preferred, all), Others(all, e.preferred);
    FilterConcat(head, rest, ok);
    FindFirstAtMostOne(all, e.preferred);
    forall c | c in Filter(rest, ok) ensures c.id != e.preferred { OthersMembers(all, e.preferred, planes.revoked, c); }
  }

  lemma {:induction false} FindFirstAtMostOne(cs: seq<Coords>, id: string)
    ensures |FindFirst(cs, id)| <= 1
    decreases |cs|
  {
    if cs != [] { FindFirstAtMostOne(cs[1..], id); }
  }

  lemma {:induction false} FirstOfItsId(cs: seq<Coords>, c: Coords)
    requires c in cs && (forall d :: d in cs && d.id == c.id ==> d == c)
    ensures IsFirst(cs, c)
    decreases |cs|
  {
    if cs[0] != c {
      FirstOfItsId(cs[1..], c);
      var i :| 0 <= i < |cs[1..]| && cs[1..][i] == c && forall j :: 0 <= j < i ==> cs[1..][j].id != c.id;
      assert cs[i + 1] == c && forall j :: 0 < j < i + 1 ==> cs[j] == cs[1..][j - 1];
    } else {
      assert cs[0] == c;
    }
  }

  /** No slot of the transport map offers a revoked connector. */
  lemma {:induction false} NoRevokedTransport(ip: AddressOf, acl: Acl, transport: Option<Transport>, device: Device,
                                              k: ResourceKey, r: Revoked)
    requires r in acl.revoked && r.id != "" && k in MapFor(ip, acl, transport, device)
    ensures r.id !in MapFor(ip, acl, transport, device)[k]
  {
    var slot, cfg := MapFor(ip, acl, transport, device)[k], EffectiveConfig(acl, transport, device);
    SlotsFollowConfig(ip, acl, transport, device, k);
    var x :| x in cfg.entries && SlotKey(ip, x.address, x.port) == Some(k) && multiset(slot) == multiset(Ids(x.coords));
    SameMembers(slot, Ids(x.coords));
    NotAmong(acl, transport, device, x, r);
  }

  lemma {:induction false} NotAmong(acl: Acl, transport: Option<Transport>, device: Device, x: AppliedEntry, r: Revoked)
    requires r in acl.revoked && r.id != "" && x in EffectiveConfig(acl, transport, device).entries
    ensures r.id !in Ids(x.coords)
  {
    var entries := EffectiveConfig(acl, transport, device).entries;
    var j :| 0 <= j < |entries| && entries[j] == x;
    forall i | 0 <= i < |x.coords| ensures Ids(x.coords)[i] != r.id {
      NoRevokedConnector(acl, transport, device, j, i);
    }
  }
}

/** The effective configuration is canonical, and holds exactly the connectors it should. */
module Canonical {
  import opened Common
  import opened Ordering
  import opened Config

  /** No two different connectors share an id. */
  ghost predicate UniqueIds(cs: seq<Coords>)
  {
    forall x, y :: x in cs && y in cs && x.id == y.id ==> x == y
  }

  // ---- the connectors of one entry ----

  lemma {:induction false} FindFirstIs(cs: seq<Coords>, id: string)
    requires UniqueIds(cs)
    ensures forall x :: x in cs && x.id == id ==> FindFirst(cs, id) == [x]
    ensures (forall x :: x in cs ==> x.id != id) ==> FindFirst(cs, id) == []
    ensures FindFirst(cs, id) == []
            || (FindFirst(cs, id) == [FindFirst(cs, id)[0]] && FindFirst(cs, id)[0] in cs
                && FindFirst(cs, id)[0].id == id)
    decreases |cs|
  {
    if cs != [] {
      assert cs == [cs[0]] + cs[1..];
      FindFirstIs(cs[1..], id);
    }
  }

  lemma {:induction false} FilterConcat<T>(xs: seq<T>, ys: seq<T>, p: T -> bool)
    ensures Filter(xs + ys, p) == Filter(xs, p) + Filter(ys, p)
    decreases |xs|
  {
    if xs == [] {
      assert xs + ys == ys;
    } else {
      assert (xs + ys)[1..] == xs[1..] + ys;
      FilterConcat(xs[1..], ys, p);
    }
  }

  function Head(preferred: string, cs: seq<Coords>): seq<Coords>
  {
    if preferred == "" then [] else FindFirst(cs, preferred)
  }

  /** The preferred connector if usable, then the other usable ones in order. */
  lemma {:induction false} CoordsForm(preferred: string, cs: seq<Coords>, revoked: set<string>)
    requires UniqueIds(cs)
    ensures SortCoords(preferred, NotRevoked(OrderedFor(preferred, cs), revoked))
         == NotRevoked(Head(preferred, cs), revoked) + Sort(NotRevoked(Others(cs, preferred), revoked), LeCoords)
  {
    var ok := (c: Coords) => c.id !in revoked;
    var head, rest := Head(preferred, cs), Others(cs, preferred);
    FilterConcat(head, rest, ok);
    FindFirstIs(cs, preferred);
    var h, o := Filter(head, ok), Filter(rest, ok);
    assert h == [] || (preferred != "" && h == [head[0]] && head[0].id == preferred);
    forall c | c in o ensures c.id != preferred {
      FilterCount(rest, ok, c);
      FilterCount(cs, (x: Coords) => x.id != preferred, c);
    }
    if h == [] {
      assert h + o == o;
    } else {
      assert (h + o)[1..] == o;
    }
  }

  lemma {:induction false} HeadCanonical(preferred: string, cs: seq<Coords>, ds: seq<Coords>)
    requires UniqueIds(cs) && multiset(cs) == multiset(ds)
    ensures Head(preferred, cs) == Head(preferred, ds)
  {
    SameMembers(cs, ds);
    FindFirstIs(cs, preferred);
    FindFirstIs(ds, preferred);
  }

  lemma {:induction false} SameMembers<T>(xs: seq<T>, ys: seq<T>)
    requires multiset(xs) == multiset(ys)
    ensures forall x :: x in xs <==> x in ys
  {
    assert forall x :: x in xs <==> x in multiset(xs);
    assert forall x :: x in ys <==> x in multiset(ys);
  }

  /** One entry's connectors do not depend on the order the snapshot lists them in. */
  lemma {:induction false} CoordsCanonical(preferred: string, cs: seq<Coords>, ds: seq<Coords>, revoked: set<string>)
    requires UniqueIds(cs) && multiset(cs) == multiset(ds)
    ensures SortCoords(preferred, NotRevoked(OrderedFor(preferred, cs), revoked))
         == SortCoords(preferred, NotRevoked(OrderedFor(preferred, ds), revoked))
  {
    SameMembers(cs, ds);
    CoordsForm(preferred, cs, revoked);
    CoordsForm(preferred, ds, revoked);
    HeadCanonical(preferred, cs, ds);
    var ok := (c: Coords) => c.id !in revoked;
    var other := (c: Coords) => c.id != preferred;
    FilterPermutes(cs, ds, other);
    FilterPermutes(Filter(cs, other), Filter(ds, other), ok);
    var o := Filter(Filter(cs, other), ok);
    LeCoordsTotal();
    OthersStrict(cs, preferred, revoked);
    SortCanonical(o, Filter(Filter(ds, other), ok), LeCoords);
  }

  lemma {:induction false} OthersStrict(cs: seq<Coords>, preferred: string, revoked: set<string>)
    requires UniqueIds(cs)
    ensures Strict(NotRevoked(Others(cs, preferred), revoked), LeCoords)
  {
    var o := NotRevoked(Others(cs, preferred), revoked);
    forall x, y | x in o && y in o && LeCoords(x, y) && LeCoords(y, x) ensures x == y {
      LtStrTotal(x.id, y.id);
      OthersMembers(cs, preferred, revoked, x);
      OthersMembers(cs, preferred, revoked, y);
    }
  }

  lemma {:induction false} OthersMembers(cs: seq<Coords>, preferred: string, revoked: set<string>, c: Coords)
    ensures c in NotRevoked(Others(cs, preferred), revoked) <==> c in cs && c.id != preferred && c.id !in revoked
  {
    FilterCount(Others(cs, preferred), (x: Coords) => x.id !in revoked, c);
    FilterCount(cs, (x: Coords) => x.id != preferred, c);
  }

  /**
   An entry holds the connectors of its remote network that are not revoked, led by the
   preferred one if it is among them. Only a connector without an id is lost, and only when
   the entry prefers none.
   */
  lemma {:induction false} CoordsContents(planes: Planes, e: AclEntry)
    requires UniqueIds(Connectors(planes, e.networkId))
    ensures var cs, got := Connectors(planes, e.networkId), Apply(planes, e).coords;
            && (forall c :: c in got <==> c in cs && c.id !in planes.revoked && (c.id != "" || e.preferred != ""))
            && (forall c :: c in cs && c.id == e.preferred && e.preferred != "" && c.id !in planes.revoked ==>
                got[0] == c)
  {
    var cs := Connectors(planes, e.networkId);
    var ok := (c: Coords) => c.id !in planes.revoked;
    var head, o := Head(e.preferred, cs), NotRevoked(Others(cs, e.preferred), planes.revoked);
    var got := Apply(planes, e).coords;
    CoordsForm(e.preferred, cs, planes.revoked);
    LeCoordsTotal();
    SortSorts(o, LeCoords);
    SameMembers(Sort(o, LeCoords), o);
    FindFirstIs(cs, e.preferred);
    forall c ensures c in got <==> c in cs && c.id !in planes.revoked && (c.id != "" || e.preferred != "") {
      FilterCount(head, ok, c);
      OthersMembers(cs, e.preferred, planes.revoked, c);
    }
    forall c | c in cs && c.id == e.preferred && e.preferred != "" && c.id !in planes.revoked ensures got[0] == c {
      assert head == [c];
      FilterCount(head, ok, c);
    }
  }

  // ---- the whole configuration ----

  datatype Key = Key(address: string, port: nat, protocol: string, networkId: string, preferred: string)

  function KeyOf(e: AclEntry): Key { Key(e.address, e.port, e.protocol, e.networkId, e.preferred) }

  function ApplyKey(planes: Planes, k: Key): AppliedEntry
  {
    AppliedEntry(k.address, k.port, k.protocol, k.networkId, k.preferred,
                 SortCoords(k.preferred, ResolveCoords(planes, k.networkId, k.preferred)))
  }

  function AllowedKeys(acl: Acl, spiffe: string): seq<Key>
  {
    Map(AllowedEntries(acl, spiffe), KeyOf)
  }

  ghost predicate SamePlanes(p: Planes, q: Planes)
  {
    && p.revoked == q.revoked
    && forall id :: UniqueIds(Connectors(p, id)) && multiset(Connectors(p, id)) == multiset(Connectors(q, id))
  }

  lemma {:induction false} EffectiveByKeys(acl: Acl, transport: Option<Transport>, device: Device)
    ensures var planes := PlanesOf(acl, transport);
            EffectiveConfig(acl, transport, device).entries
              == Sort(Map(AllowedKeys(acl, device.identity.spiffeId), (k: Key) => ApplyKey(planes, k)), LeEntry)
  {
    var planes := PlanesOf(acl, transport);
    var es := AllowedEntries(acl, device.identity.spiffeId);
    assert Map(es, (e: AclEntry) => Apply(planes, e)) == Map(Map(es, KeyOf), (k: Key) => ApplyKey(planes, k));
  }

  lemma {:induction false} KeysStrict(planes: Planes, ks: seq<Key>)
    ensures Strict(Map(ks, (k: Key) => ApplyKey(planes, k)), LeEntry)
  {
    var f := (k: Key) => ApplyKey(planes, k);
    forall x, y | x in Map(ks, f) && y in Map(ks, f) && LeEntry(x, y) && LeEntry(y, x) ensures x == y {
      LeEntryKeys(x, y);
    }
  }

  /** Same identity, same usable entries, same connectors: same configuration. */
  lemma {:induction false} ConfigCanonical(acl: Acl, transport: Option<Transport>, device: Device, acl': Acl,
                                           transport': Option<Transport>, device': Device)
    requires device.identity == device'.identity
    requires SamePlanes(PlanesOf(acl, transport), PlanesOf(acl', transport'))
    requires multiset(AllowedKeys(acl, device.identity.spiffeId))
               == multiset(AllowedKeys(acl', device.identity.spiffeId))
    ensures EffectiveConfig(acl, transport, device) == EffectiveConfig(acl', transport', device')
  {
    var p, q := PlanesOf(acl, transport), PlanesOf(acl', transport');
    var f, g := (k: Key) => ApplyKey(p, k), (k: Key) => ApplyKey(q, k);
    var ks, ls := AllowedKeys(acl, device.identity.spiffeId), AllowedKeys(acl', device.identity.spiffeId);
    EffectiveByKeys(acl, transport, device);
    EffectiveByKeys(acl', transport', device');
    forall k ensures f(k) == g(k) {
      CoordsCanonical(k.preferred, Connectors(p, k.networkId), Connectors(q, k.networkId), p.revoked);
    }
    assert Map(ls, f) == Map(ls, g);
    MapPermutes(ks, ls, f);
    LeEntryTotal();
    KeysStrict(p, ks);
    SortCanonical(Map(ks, f), Map(ls, f), LeEntry);
  }

  // ---- reordered snapshots ----

  /** An entry without the fields the data plane does not use. */
  function Strip(e: AclEntry): AclEntry
  {
    e.(resourceId := "", name := "", routeType := "", shieldId := "")
  }

  /** A network without its name and the order of its connectors. */
  function StripNetwork(n: Network): (string, multiset<Coords>)
  {
    (n.id, multiset(n.connectors))
  }

  ghost predicate GoodNetworks(ns: seq<Network>)
  {
    && (forall i, j :: 0 <= i < j < |ns| ==> ns[i].id != ns[j].id)
    && (forall i :: 0 <= i < |ns| ==> UniqueIds(ns[i].connectors))
  }

  ghost predicate ReorderedNetworks(ns: seq<Network>, ms: seq<Network>)
  {
    && GoodNetworks(ns) && GoodNetworks(ms)
    && multiset(Map(ns, StripNetwork)) == multiset(Map(ms, StripNetwork))
  }

  /** The two ACLs differ in order and in metadata only. */
  ghost predicate ReorderedAcl(acl: Acl, acl': Acl)
  {
    && multiset(Map(acl.entries, Strip)) == multiset(Map(acl'.entries, Strip))
    && ReorderedNetworks(acl.networks, acl'.networks)
    && RevokedIds(acl) == RevokedIds(acl')
  }

  ghost predicate ReorderedTransport(t: Option<Transport>, t': Option<Transport>)
  {
    && (t.Some? <==> t'.Some?)
    && (t.Some? ==> ReorderedNetworks(t.value.networks, t'.value.networks))
  }

  lemma {:induction false} ByIdIs(ns: seq<Network>, id: string)
    requires GoodNetworks(ns)
    ensures id in ById(ns) ==> ById(ns)[id] in ns && ById(ns)[id].id == id
    ensures forall i :: 0 <= i < |ns| && ns[i].id == id ==> id in ById(ns) && ById(ns)[id] == ns[i]
    decreases |ns|
  {
    if ns != [] { ByIdIs(ns[..|ns| - 1], id); }
  }

  ghost predicate SameNetwork(m: map<string, Network>, m': map<string, Network>, id: string)
  {
    && (id in m <==> id in m')
    && (id in m && id in m' ==>
        UniqueIds(m[id].connectors) && multiset(m[id].connectors) == multiset(m'[id].connectors))
  }

  lemma {:induction false} FindReordered(ns: seq<Network>, ms: seq<Network>, i: nat) returns (j: nat)
    requires ReorderedNetworks(ns, ms) && i < |ns|
    ensures j < |ms| && ms[j].id == ns[i].id && multiset(ms[j].connectors) == multiset(ns[i].connectors)
  {
    var x := Map(ns, StripNetwork)[i];
    assert x in multiset(Map(ms, StripNetwork));
    j :| j < |ms| && Map(ms, StripNetwork)[j] == x;
  }

  lemma {:induction false} ReorderedLookup(ns: seq<Network>, ms: seq<Network>, id: string)
    requires ReorderedNetworks(ns, ms)
    ensures SameNetwork(ById(ns), ById(ms), id)
  {
    ByIdIs(ns, id);
    ByIdIs(ms, id);
    if id in ById(ns) {
      var i :| 0 <= i < |ns| && ns[i] == ById(ns)[id];
      var j := FindReordered(ns, ms, i);
    }
    if id in ById(ms) {
      var i :| 0 <= i < |ms| && ms[i] == ById(ms)[id];
      var j := FindReordered(ms, ns, i);
    }
  }

  lemma {:induction false} ReorderedPlanes(acl: Acl, transport: Option<Transport>, acl': Acl,
                                           transport': Option<Transport>)
    requires ReorderedAcl(acl, acl') && ReorderedTransport(transport, transport')
    ensures SamePlanes(PlanesOf(acl, transport), PlanesOf(acl', transport'))
  {
    var p, q := PlanesOf(acl, transport), PlanesOf(acl', transport');
    forall id ensures UniqueIds(Connectors(p, id)) && multiset(Connectors(p, id)) == multiset(Connectors(q, id)) {
      ReorderedLookup(acl.networks, acl'.networks, id);
      if transport.Some? { ReorderedLookup(transport.value.networks, transport'.value.networks, id); }
    }
  }

  lemma {:induction false} StripKeepsKeys(es: seq<AclEntry>, spiffe: string)
    ensures Map(Filter(es, (e: AclEntry) => Allowed(e, spiffe)), KeyOf)
         == Map(Filter(Map(es, Strip), (e: AclEntry) => Allowed(e, spiffe)), KeyOf)
    decreases |es|
  {
    if es != [] {
      StripKeepsKeys(es[1..], spiffe);
      assert Map(es, Strip)[1..] == Map(es[1..], Strip);
      var p := (e: AclEntry) => Allowed(e, spiffe);
      if Allowed(es[0], spiffe) {
        MapCons(es[0], Filter(es[1..], p), KeyOf);
        MapCons(Strip(es[0]), Filter(Map(es[1..], Strip), p), KeyOf);
      }
    }
  }

  lemma {:induction false} MapCons<S, T>(x: S, xs: seq<S>, f: S -> T)
    ensures Map([x] + xs, f) == [f(x)] + Map(xs, f)
  {
  }

  /**
   Permuting the ACL entries, the remote networks and the connectors of each, of either
   plane, and changing names, versions, timestamps and the like, leaves the effective
   configuration as it is.
   */
  lemma {:induction false} ReorderingInvariant(acl: Acl, transport: Option<Transport>, device: Device, acl': Acl,
                                               transport': Option<Transport>, device': Device)
    requires ReorderedAcl(acl, acl') && ReorderedTransport(transport, transport')
    requires device.identity == device'.identity
    ensures EffectiveConfig(acl, transport, device) == EffectiveConfig(acl', transport', device')
  {
    var spiffe := device.identity.spiffeId;
    var p := (e: AclEntry) => Allowed(e, spiffe);
    ReorderedPlanes(acl, transport, acl', transport');
    StripKeepsKeys(acl.entries, spiffe);
    StripKeepsKeys(acl'.entries, spiffe);
    FilterPermutes(Map(acl.entries, Strip), Map(acl'.entries, Strip), p);
    MapPermutes(Filter(Map(acl.entries, Strip), p), Filter(Map(acl'.entries, Strip), p), KeyOf);
    ConfigCanonical(acl, transport, device, acl', transport', device');
  }

  /** No applied entry carries a connector whose id the ACL lists as revoked, whatever the snapshots list. */
  lemma {:induction false} NoRevokedConnector(acl: Acl, transport: Option<Transport>, device: Device, i: nat, j: nat)
    requires var cfg := EffectiveConfig(acl, transport, device);
             i < |cfg.entries| && j < |cfg.entries[i].coords|
    ensures forall r :: r in acl.revoked && r.id != "" ==>
              EffectiveConfig(acl, transport, device).entries[i].coords[j].id != r.id
  {
    var planes := PlanesOf(acl, transport);
    var f := (e: AclEntry) => Apply(planes, e);
    var es := AllowedEntries(acl, device.identity.spiffeId);
    var cfg := EffectiveConfig(acl, transport, device);
    LeEntryTotal();
    SortSorts(Map(es, f), LeEntry);
    SameMembers(cfg.entries, Map(es, f));
    MapMembers(es, f, cfg.entries[i]);
    var e :| e in es && f(e) == cfg.entries[i];
    SortCoordsMembers(e.preferred, ResolveCoords(planes, e.networkId, e.preferred), cfg.entries[i].coords[j]);
    FilterCount(OrderedFor(e.preferred, Connectors(planes, e.networkId)), (c: Coords) => c.id !in planes.revoked,
                cfg.entries[i].coords[j]);
  }

  lemma {:induction false} SortCoordsMembers(preferred: string, cs: seq<Coords>, c: Coords)
    ensures multiset(SortCoords(preferred, cs)) == multiset(cs)
    ensures c in SortCoords(preferred, cs) <==> c in cs
  {
    LeCoordsTotal();
    SortSorts(cs, LeCoords);
    if cs != [] {
      SortSorts(cs[1..], LeCoords);
      assert cs == [cs[0]] + cs[1..];
    }
    SameMembers(SortCoords(preferred, cs), cs);
  }
}

/**
 The order in which a slot's connectors are tried, and how far the configuration determines it
 (`resolve_entry_coords`, `build_transports_by_resource_with_crl`, client/src/daemon.rs).
 */
module SlotOrder {
  import opened Common
  import opened Ordering
  import opened Sequences
  import opened Config
  import opened Canonical
  import opened Classify
  import opened TransportMap

  /** A leading preferred connector keeps its place, the others are tried in snapshot order. */
  predicate Leads(preferred: string, cs: seq<Coords>) { preferred != "" && cs != [] && cs[0].id == preferred }

  /** The connectors whose order the configuration does not keep. */
  function Loose(preferred: string, cs: seq<Coords>): seq<Coords> { if Leads(preferred, cs) then cs[1..] else cs }

  predicate OneId(cs: seq<Coords>) { forall i, j :: 0 <= i < |cs| && 0 <= j < |cs| ==> cs[i].id == cs[j].id }

  predicate Fixed(x: AppliedEntry) { OneId(Loose(x.preferred, x.coords)) }

  /** Every entry's order is fixed, and entries that share a key agree on it. */
  ghost predicate Determined(ip: AddressOf, cfg: AppliedConfig)
  {
    && (forall x :: x in cfg.entries && SlotKey(ip, x.address, x.port).Some? ==> Fixed(x))
    && forall x, y :: x in cfg.entries && y in cfg.entries
                      && SlotKey(ip, x.address, x.port).Some?
                          && SlotKey(ip, x.address, x.port) == SlotKey(ip, y.address, y.port)
                      ==> Ids(x.coords) == Ids(y.coords)
  }

  /** The preferred connector if it is usable, then the other usable ones, none of them the preferred one. */
  lemma {:induction false} ResolvedParts(preferred: string, all: seq<Coords>, revoked: set<string>)
    ensures var head, tail := NotRevoked(Head(preferred, all), revoked), NotRevoked(Others(all, preferred), revoked);
            && NotRevoked(OrderedFor(preferred, all), revoked) == head + tail
            && (head == [] || (head == [head[0]] && preferred != "" && head[0].id == preferred))
            && forall c :: c in tail ==> c in all && c.id != preferred && c.id !in revoked
  {
    var ok := (c: Coords) => c.id !in revoked;
    FilterConcat(Head(preferred, all), Others(all, preferred), ok);
    FirstFound(all, preferred);
    forall c | c in Filter(Others(all, preferred), ok) ensures c in all && c.id != preferred && c.id !in revoked {
      FilterCount(Others(all, preferred), ok, c);
      FilterCount(all, (x: Coords) => x.id != preferred, c);
    }
  }

  lemma {:induction false} LooseTail(preferred: string, all: seq<Coords>, revoked: set<string>)
    ensures Loose(preferred, NotRevoked(OrderedFor(preferred, all), revoked))
              == NotRevoked(Others(all, preferred), revoked)
  {
    ResolvedParts(preferred, all, revoked);
  }

  lemma {:induction false} FirstFound(cs: seq<Coords>, id: string)
    ensures FindFirst(cs, id) == [] || (FindFirst(cs, id) == [FindFirst(cs, id)[0]] && FindFirst(cs, id)[0].id == id)
    decreases |cs|
  {
    if cs != [] { FirstFound(cs[1..], id); }
  }

  /** Ordering the connectors keeps the leading one and permutes the others. */
  lemma {:induction false} SortedForm(planes: Planes, e: AclEntry)
    ensures var cs, got := ResolveCoords(planes, e.networkId, e.preferred), Apply(planes, e).coords;
            && (Leads(e.preferred, got) <==> Leads(e.preferred, cs)) && (Leads(e.preferred, cs) ==> got[0] == cs[0])
            && multiset(Loose(e.preferred, got)) == multiset(Loose(e.preferred, cs))
  {
    var cs, got := ResolveCoords(planes, e.networkId, e.preferred), Apply(planes, e).coords;
    LeCoordsTotal();
    ResolvedParts(e.preferred, Connectors(planes, e.networkId), planes.revoked);
    if Leads(e.preferred, cs) {
      SortSorts(cs[1..], LeCoords);
      assert got[1..] == Sort(cs[1..], LeCoords);
    } else {
      SortSorts(cs, LeCoords);
      SameMembers(got, cs);
      assert cs == NotRevoked(Others(Connectors(planes, e.networkId), e.preferred), planes.revoked);
      forall c | c in got ensures c.id != e.preferred {
        assert c in cs;
      }
    }
  }

  lemma {:induction false} OneIdPermutes(xs: seq<Coords>, ys: seq<Coords>)
    requires multiset(xs) == multiset(ys) && OneId(xs)
    ensures Ids(xs) == Ids(ys)
  {
    SameLength(xs, ys);
    SameMembers(xs, ys);
    forall i | 0 <= i < |xs| ensures Ids(xs)[i] == Ids(ys)[i] {
      assert ys[i] in xs;
    }
  }

  lemma {:induction false} FixedSlot(planes: Planes, e: AclEntry)
    requires Fixed(Apply(planes, e))
    ensures EntrySlot(planes, e) == Ids(Apply(planes, e).coords)
  {
    var cs, got := ResolveCoords(planes, e.networkId, e.preferred), Apply(planes, e).coords;
    SortedForm(planes, e);
    OneIdPermutes(Loose(e.preferred, got), Loose(e.preferred, cs));
    if Leads(e.preferred, cs) {
      assert cs == [cs[0]] + cs[1..] && got == [got[0]] + got[1..];
      MapCons(cs[0], cs[1..], (c: Coords) => c.id);
      MapCons(got[0], got[1..], (c: Coords) => c.id);
    }
  }

  /** A slot lists the connectors exactly as some entry of a determined configuration does. */
  lemma {:induction false} DeterminedSlot(ip: AddressOf, acl: Acl, transport: Option<Transport>, device: Device,
                                          k: ResourceKey, x: AppliedEntry)
    requires Determined(ip, EffectiveConfig(acl, transport, device))
    requires x in EffectiveConfig(acl, transport, device).entries && SlotKey(ip, x.address, x.port) == Some(k)
    ensures k in MapFor(ip, acl, transport, device) && MapFor(ip, acl, transport, device)[k] == Ids(x.coords)
  {
    var planes, es := PlanesOf(acl, transport), AllowedEntries(acl, device.identity.spiffeId);
    SlotSource(ip, planes, es, k);
    AppliedMembers(acl, transport, device, x);
    var e :| e in es && SlotKey(ip, e.address, e.port) == Some(k)
        && MapFor(ip, acl, transport, device)[k] == EntrySlot(planes, e);
    AppliedMembers(acl, transport, device, Apply(planes, e));
    FixedSlot(planes, e);
  }

  /** Equal configurations that are determined build the same map, order of connectors included. */
  lemma {:induction false} DeterminedBuildsOneMap(ip: AddressOf, acl: Acl, transport: Option<Transport>, device: Device,
                                                  acl': Acl, transport': Option<Transport>, device': Device)
    requires EffectiveConfig(acl, transport, device) == EffectiveConfig(acl', transport', device')
    requires Determined(ip, EffectiveConfig(acl, transport, device))
    ensures MapFor(ip, acl, transport, device) == MapFor(ip, acl', transport', device')
  {
    var m, m', cfg := MapFor(ip, acl, transport, device), MapFor(ip, acl', transport', device'), EffectiveConfig(acl,
        transport, device);
    forall k ensures (k in m <==> k in m') && (k in m ==> m[k] == m'[k]) {
      SlotsFollowConfig(ip, acl, transport, device, k);
      SlotsFollowConfig(ip, acl', transport', device', k);
      if k in m {
        var x :| x in cfg.entries && SlotKey(ip, x.address, x.port) == Some(k);
        DeterminedSlot(ip, acl, transport, device, k, x);
        DeterminedSlot(ip, acl', transport', device', k, x);
      }
    }
  }

  // ---- another order of the same connectors ----

  /** The connector `c` is the first with its id, and is moved to the front. */
  ghost predicate FirstOfItsId(c: Coords, p: seq<Coords>) { forall x :: x in p ==> x.id != c.id }

  lemma {:induction false} FindFirstMoves(c: Coords, p: seq<Coords>, q: seq<Coords>, id: string)
    requires FirstOfItsId(c, p)
    ensures FindFirst([c] + p + q, id) == FindFirst(p + [c] + q, id)
    decreases |p|
  {
    if p == [] {
      assert [c] + p + q == p + [c] + q;
    } else {
      FindFirstMoves(c, p[1..], q, id);
      assert (p + [c] + q)[0] == p[0] && (p + [c] + q)[1..] == p[1..] + [c] + q;
      assert ([c] + p + q)[0] == c && ([c] + p + q)[1..] == p + q;
      assert (p + q)[0] == p[0] && (p + q)[1..] == p[1..] + q;
      assert ([c] + p[1..] + q)[0] == c && ([c] + p[1..] + q)[1..] == p[1..] + q;
    }
  }

  lemma {:induction false} FilterParts(c: Coords, p: seq<Coords>, q: seq<Coords>, f: Coords -> bool)
    ensures f(c) ==> Filter([c] + p + q, f) == [c] + Filter(p, f) + Filter(q, f)
    ensures f(c) ==> Filter(p + [c] + q, f) == Filter(p, f) + [c] + Filter(q, f)
    ensures !f(c) ==> Filter([c] + p + q, f) == Filter(p + [c] + q, f)
  {
    FilterConcat([c] + p, q, f);
    FilterConcat([c], p, f);
    FilterConcat(p + [c], q, f);
    FilterConcat(p, [c], f);
    assert Filter([c], f) == if f(c) then [c] else [];
    assert [] + Filter(p, f) == Filter(p, f) + [];
  }

  lemma {:induction false} FilterSubset(xs: seq<Coords>, f: Coords -> bool)
    ensures forall x :: x in Filter(xs, f) ==> x in xs
  {
    forall x | x in Filter(xs, f) ensures x in xs { FilterCount(xs, f, x); }
  }

  /** The usable connectors after the preferred one: moved alike, or not at all. */
  lemma {:induction false} TailMoves(c: Coords, p: seq<Coords>, q: seq<Coords>, preferred: string, revoked: set<string>)
    requires FirstOfItsId(c, p)
    ensures Sort(NotRevoked(Others([c] + p + q, preferred), revoked), LeCoords)
         == Sort(NotRevoked(Others(p + [c] + q, preferred), revoked), LeCoords)
  {
    var f, g := (x: Coords) => x.id != preferred, (x: Coords) => x.id !in revoked;
    FilterParts(c, p, q, f);
    var p1, q1 := Filter(p, f), Filter(q, f);
    FilterSubset(p, f);
    if f(c) {
      FilterParts(c, p1, q1, g);
      FilterSubset(p1, g);
      if g(c) {
        LeCoordsTotal();
        forall x | x in Filter(p1, g) ensures !(LeCoords(c, x) && LeCoords(x, c)) {
          LtStrTotal(c.id, x.id);
        }
        SortMoves(c, Filter(p1, g), Filter(q1, g), LeCoords);
      }
    }
  }

  /** The applied connectors: the preferred one if usable, then the others in order. */
  lemma {:induction false} SortedParts(preferred: string, all: seq<Coords>, revoked: set<string>)
    ensures SortCoords(preferred, NotRevoked(OrderedFor(preferred, all), revoked))
         == NotRevoked(Head(preferred, all), revoked) + Sort(NotRevoked(Others(all, preferred), revoked), LeCoords)
  {
    ResolvedParts(preferred, all, revoked);
    var head, tail := NotRevoked(Head(preferred, all), revoked), NotRevoked(Others(all, preferred), revoked);
    if head == [] {
      assert head + tail == tail;
    } else {
      assert (head + tail)[1..] == tail;
    }
  }

  /** Such a move does not show in the configuration. */
  lemma {:induction false} MoveIsHidden(c: Coords, p: seq<Coords>, q: seq<Coords>, preferred: string,
                                        revoked: set<string>)
    requires FirstOfItsId(c, p)
    ensures SortCoords(preferred, NotRevoked(OrderedFor(preferred, [c] + p + q), revoked))
         == SortCoords(preferred, NotRevoked(OrderedFor(preferred, p + [c] + q), revoked))
  {
    SortedParts(preferred, [c] + p + q, revoked);
    SortedParts(preferred, p + [c] + q, revoked);
    TailMoves(c, p, q, preferred, revoked);
    FindFirstMoves(c, p, q, preferred);
  }

  /** A connector that is moved to the front comes right after the preferred one. */
  lemma {:induction false} MovedToFront(c: Coords, rest: seq<Coords>, preferred: string, revoked: set<string>)
    requires c.id != preferred && c.id !in revoked
    ensures var tail := NotRevoked(Others([c] + rest, preferred), revoked); tail != [] && tail[0] == c
  {
    assert ([c] + rest)[1..] == rest;
    assert Others([c] + rest, preferred) == [c] + Others(rest, preferred);
  }

  /** With the same preferred connector, another first one after it is another order. */
  lemma {:induction false} OrderDiffers(preferred: string, cs: seq<Coords>, ds: seq<Coords>, revoked: set<string>)
    requires Head(preferred, cs) == Head(preferred, ds)
    requires var xs, ys := NotRevoked(Others(cs, preferred), revoked), NotRevoked(Others(ds, preferred), revoked);
             xs != [] && ys != [] && xs[0].id != ys[0].id
    ensures Ids(NotRevoked(OrderedFor(preferred, cs), revoked)) != Ids(NotRevoked(OrderedFor(preferred, ds), revoked))
  {
    ResolvedParts(preferred, cs, revoked);
    ResolvedParts(preferred, ds, revoked);
    var head := NotRevoked(Head(preferred, cs), revoked);
    var xs, ys := NotRevoked(Others(cs, preferred), revoked), NotRevoked(Others(ds, preferred), revoked);
    assert Ids(head + xs)[|head|] == xs[0].id && Ids(head + ys)[|head|] == ys[0].id;
  }

  lemma {:induction false} SplitAtFirst(all: seq<Coords>, id: string)
    returns (p: seq<Coords>, c: Coords, q: seq<Coords>)
    requires exists x :: x in all && x.id == id
    ensures all == p + [c] + q && c.id == id && FirstOfItsId(c, p)
    decreases |all|
  {
    if all[0].id == id {
      p, c, q := [], all[0], all[1..];
      assert all == p + [c] + q;
    } else {
      assert all == [all[0]] + all[1..];
      var r;
      r, c, q := SplitAtFirst(all[1..], id);
      p := [all[0]] + r;
      assert all == p + [c] + q;
    }
  }

  /** Another order of the same connectors in which the entry is tried in another order. */
  lemma {:induction false} OtherOrder(preferred: string, all: seq<Coords>, revoked: set<string>)
    returns (p: seq<Coords>, c: Coords, q: seq<Coords>)
    requires !OneId(NotRevoked(Others(all, preferred), revoked))
    ensures all == p + [c] + q && FirstOfItsId(c, p)
    ensures Ids(NotRevoked(OrderedFor(preferred, [c] + p + q), revoked))
         != Ids(NotRevoked(OrderedFor(preferred, all), revoked))
  {
    ResolvedParts(preferred, all, revoked);
    var tail := NotRevoked(Others(all, preferred), revoked);
    var i :| 0 <= i < |tail| && tail[i].id != tail[0].id;
    p, c, q := SplitAtFirst(all, tail[i].id);
    FindFirstMoves(c, p, q, preferred);
    assert [c] + p + q == [c] + (p + q);
    MovedToFront(c, p + q, preferred, revoked);
    OrderDiffers(preferred, [c] + p + q, all, revoked);
  }

  lemma {:induction false} NotFixed(planes: Planes, e: AclEntry)
    requires !Fixed(Apply(planes, e))
    ensures !OneId(NotRevoked(Others(Connectors(planes, e.networkId), e.preferred), planes.revoked))
    ensures Connectors(planes, e.networkId) != []
  {
    SortedForm(planes, e);
    LooseTail(e.preferred, Connectors(planes, e.networkId), planes.revoked);
    var got := Loose(e.preferred, Apply(planes, e).coords);
    var tail := NotRevoked(Others(Connectors(planes, e.networkId), e.preferred), planes.revoked);
    SameMembers(got, tail);
    var i, j :| 0 <= i < |got| && 0 <= j < |got| && got[i].id != got[j].id;
    assert got[i] in tail && got[j] in tail;
  }

  // ---- snapshots that differ in order only ----

  ghost predicate ConnectorsPermuted(ns: seq<Network>, ms: seq<Network>)
  {
    |ns| == |ms| && forall i :: 0 <= i < |ns| ==>
      ms[i] == ns[i].(connectors := ms[i].connectors) && multiset(ms[i].connectors) == multiset(ns[i].connectors)
  }

  /** The order of the entries and of the connectors of a network may differ, nothing else. */
  ghost predicate Permuted(acl: Acl, transport: Option<Transport>, acl': Acl, transport': Option<Transport>)
  {
    && acl' == acl.(entries := acl'.entries, networks := acl'.networks)
    && multiset(acl'.entries) == multiset(acl.entries) && ConnectorsPermuted(acl.networks, acl'.networks)
    && (transport'.Some? <==> transport.Some?)
    && (transport.Some? ==>
          && transport'.value == transport.value.(networks := transport'.value.networks)
          && ConnectorsPermuted(transport.value.networks, transport'.value.networks))
  }

  /** Of networks with one id the last is the one that counts. */
  lemma {:induction false} LastWithId(ns: seq<Network>, id: string) returns (i: nat)
    requires id in ById(ns)
    ensures i < |ns| && ns[i].id == id && ns[i] == ById(ns)[id] && forall j :: i < j < |ns| ==> ns[j].id != id
    decreases |ns|
  {
    var n := |ns| - 1;
    if ns[n].id == id {
      i := n;
    } else {
      i := LastWithId(ns[..n], id);
      assert forall j :: i < j < n ==> ns[..n][j] == ns[j];
    }
  }

  lemma {:induction false} ByIdUpdate(ns: seq<Network>, i: nat, m: Network)
    requires i < |ns| && ns[i].id == m.id && forall j :: i < j < |ns| ==> ns[j].id != m.id
    ensures ById(ns[i := m]) == ById(ns)[m.id := m]
    decreases |ns|
  {
    var n := |ns| - 1;
    if i == n {
      assert ns[i := m][..n] == ns[..n];
    } else {
      ByIdUpdate(ns[..n], i, m);
      assert ns[i := m][..n] == ns[..n][i := m] && ns[i := m][n] == ns[n];
    }
  }

  /** The snapshots with the connectors of one network in another order. */
  lemma {:induction false} ReorderNetwork(ns: seq<Network>, id: string, cs: seq<Coords>) returns (ms: seq<Network>)
    requires id in ById(ns) && multiset(cs) == multiset(ById(ns)[id].connectors)
    ensures ConnectorsPermuted(ns, ms) && ById(ms) == ById(ns)[id := ById(ns)[id].(connectors := cs)]
  {
    var i := LastWithId(ns, id);
    ms := ns[i := ns[i].(connectors := cs)];
    ByIdUpdate(ns, i, ns[i].(connectors := cs));
  }

  lemma {:induction false} NothingPermuted(ns: seq<Network>)
    ensures ConnectorsPermuted(ns, ns)
  {
  }

  /** Whatever network an entry uses, its connectors can be listed in any order. */
  lemma {:induction false} ReorderConnectors(acl: Acl, transport: Option<Transport>, id: string, cs: seq<Coords>)
    returns (acl': Acl, transport': Option<Transport>)
    requires Connectors(PlanesOf(acl, transport), id) != []
    requires multiset(cs) == multiset(Connectors(PlanesOf(acl, transport), id))
    ensures Permuted(acl, transport, acl', transport') && acl'.entries == acl.entries
    ensures var p, p' := PlanesOf(acl, transport), PlanesOf(acl', transport');
            p'.revoked == p.revoked && forall j :: Connectors(p', j) == if j == id then cs else Connectors(p, j)
  {
    acl', transport' := acl, transport;
    NothingPermuted(acl.networks);
    if transport.Some? { NothingPermuted(transport.value.networks); }
    if transport.Some? && id in ById(transport.value.networks) {
      var ms := ReorderNetwork(transport.value.networks, id, cs);
      transport' := Some(transport.value.(networks := ms));
    } else {
      var ms := ReorderNetwork(acl.networks, id, cs);
      acl' := acl.(networks := ms);
    }
  }

  /** If every entry is applied alike, the configuration is the same. */
  lemma {:induction false} AppliedAlike(acl: Acl, transport: Option<Transport>, acl': Acl,
                                        transport': Option<Transport>, device: Device)
    requires acl'.entries == acl.entries
    requires forall e :: Apply(PlanesOf(acl', transport'), e) == Apply(PlanesOf(acl, transport), e)
    ensures EffectiveConfig(acl', transport', device) == EffectiveConfig(acl, transport, device)
  {
    var es := AllowedEntries(acl, device.identity.spiffeId);
    var p, p' := PlanesOf(acl, transport), PlanesOf(acl', transport');
    assert Map(es, (e: AclEntry) => Apply(p, e)) == Map(es, (e: AclEntry) => Apply(p', e));
  }

  /** An entry whose order is not fixed: some reordering of the snapshots changes its slot. */
  lemma {:induction false} LooseEntryDiffers(ip: AddressOf, acl: Acl, transport: Option<Transport>, device: Device,
                                             e: AclEntry, k: ResourceKey)
    returns (acl': Acl, transport': Option<Transport>)
    requires e in acl.entries && Allowed(e, device.identity.spiffeId) && SlotKey(ip, e.address, e.port) == Some(k)
    requires !Fixed(Apply(PlanesOf(acl, transport), e)) && k in MapFor(ip, acl, transport, device)
    ensures Permuted(acl, transport, acl', transport')
    ensures EffectiveConfig(acl', transport', device) == EffectiveConfig(acl, transport, device)
    ensures var m, m' := MapFor(ip, acl, transport, device), MapFor(ip, acl', transport', device);
            k in m' && m[k] != m'[k]
  {
    var planes := PlanesOf(acl, transport);
    if MapFor(ip, acl, transport, device)[k] != EntrySlot(planes, e) {
      var es := LastEntryWins(ip, acl, transport, device, e, k);
      acl', transport' := acl.(entries := es), transport;
      EntriesPermuted(acl, es, transport, device);
      NothingPermuted(acl.networks);
      if transport.Some? { NothingPermuted(transport.value.networks); }
    } else {
      var acl1, transport1 := OtherSlot(acl, transport, device, e);
      var es := LastEntryWins(ip, acl1, transport1, device, e, k);
      acl', transport' := acl1.(entries := es), transport1;
      EntriesPermuted(acl1, es, transport1, device);
    }
  }

  /** Snapshots with the same configuration under which the entry has another slot. */
  lemma {:induction false} OtherSlot(acl: Acl, transport: Option<Transport>, device: Device, e: AclEntry)
    returns (acl': Acl, transport': Option<Transport>)
    requires !Fixed(Apply(PlanesOf(acl, transport), e))
    ensures Permuted(acl, transport, acl', transport') && acl'.entries == acl.entries
    ensures EffectiveConfig(acl', transport', device) == EffectiveConfig(acl, transport, device)
    ensures EntrySlot(PlanesOf(acl', transport'), e) != EntrySlot(PlanesOf(acl, transport), e)
  {
    var planes, id := PlanesOf(acl, transport), e.networkId;
    NotFixed(planes, e);
    var p, c, q := OtherOrder(e.preferred, Connectors(planes, id), planes.revoked);
    var cs := [c] + p + q;
    assert multiset(cs) == multiset(p + [c] + q);
    acl', transport' := ReorderConnectors(acl, transport, id, cs);
    forall x: AclEntry ensures Apply(PlanesOf(acl', transport'), x) == Apply(planes, x) {
      if x.networkId == id { MoveIsHidden(c, p, q, x.preferred, planes.revoked); }
    }
    AppliedAlike(acl, transport, acl', transport', device);
  }

  /**
   Conversely, when a configuration is not determined, merely reordering the snapshots changes the
   order of a slot, or its connectors, while the change is classified NoChange.
   */
  lemma {:induction false} UndeterminedDiffers(ip: AddressOf, acl: Acl, transport: Option<Transport>, device: Device)
    returns (acl': Acl, transport': Option<Transport>, k: ResourceKey)
    requires !Determined(ip, EffectiveConfig(acl, transport, device))
    ensures Permuted(acl, transport, acl', transport')
    ensures EffectiveConfig(acl', transport', device) == EffectiveConfig(acl, transport, device)
    ensures var m, m' := MapFor(ip, acl, transport, device), MapFor(ip, acl', transport', device);
            k in m && k in m' && m[k] != m'[k]
  {
    var cfg, planes := EffectiveConfig(acl, transport, device), PlanesOf(acl, transport);
    var es0 := AllowedEntries(acl, device.identity.spiffeId);
    var allowed := (a: AclEntry) => Allowed(a, device.identity.spiffeId);
    if x :| x in cfg.entries && SlotKey(ip, x.address, x.port).Some? && !Fixed(x) {
      k := SlotKey(ip, x.address, x.port).value;
      AppliedMembers(acl, transport, device, x);
      var e :| e in es0 && Apply(planes, e) == x;
      FilterCount(acl.entries, allowed, e);
      SlotSource(ip, planes, es0, k);
      assert HasKey(ip, e, k);
      acl', transport' := LooseEntryDiffers(ip, acl, transport, device, e, k);
    } else {
      var x, y :| x in cfg.entries && y in cfg.entries
                  && SlotKey(ip, x.address, x.port).Some?
                  && SlotKey(ip, x.address, x.port) == SlotKey(ip, y.address, y.port)
                  && Ids(x.coords) != Ids(y.coords);
      k := SlotKey(ip, x.address, x.port).value;
      var es := AnotherWins(ip, acl, transport, device, x, y, k);
      acl', transport' := acl.(entries := es), transport;
      NothingPermuted(acl.networks);
      if transport.Some? { NothingPermuted(transport.value.networks); }
    }
  }

  /** Of two entries whose fixed orders differ, one can be made to fill the slot that does not. */
  lemma {:induction false} AnotherWins(ip: AddressOf, acl: Acl, transport: Option<Transport>, device: Device,
                                       x: AppliedEntry, y: AppliedEntry, k: ResourceKey) returns (es: seq<AclEntry>)
    requires x in EffectiveConfig(acl, transport, device).entries
    requires y in EffectiveConfig(acl, transport, device).entries
    requires SlotKey(ip, x.address, x.port) == SlotKey(ip, y.address, y.port) == Some(k)
    requires Fixed(x) && Fixed(y) && Ids(x.coords) != Ids(y.coords)
    ensures multiset(es) == multiset(acl.entries)
    ensures EffectiveConfig(acl.(entries := es), transport, device) == EffectiveConfig(acl, transport, device)
    ensures var m, m' := MapFor(ip, acl, transport, device), MapFor(ip, acl.(entries := es), transport, device);
            k in m && k in m' && m[k] != m'[k]
  {
    var planes, es0 := PlanesOf(acl, transport), AllowedEntries(acl, device.identity.spiffeId);
    AppliedMembers(acl, transport, device, x);
    AppliedMembers(acl, transport, device, y);
    var ex :| ex in es0 && Apply(planes, ex) == x;
    var ey :| ey in es0 && Apply(planes, ey) == y;
    FixedSlot(planes, ex);
    FixedSlot(planes, ey);
    SlotSource(ip, planes, es0, k);
    assert HasKey(ip, ex, k);
    var e := if MapFor(ip, acl, transport, device)[k] == Ids(x.coords) then ey else ex;
    FilterCount(acl.entries, (a: AclEntry) => Allowed(a, device.identity.spiffeId), e);
    es := LastEntryWins(ip, acl, transport, device, e, k);
    EntriesPermuted(acl, es, transport, device);
  }

  /** One entry in a network with two connectors, none of them preferred. */
  lemma {:induction false} UndeterminedInput(ip: AddressOf, device: Device) returns (acl: Acl)
    requires ip("10.0.0.1").Some?
    ensures !Determined(ip, EffectiveConfig(acl, None, device))
  {
    var spiffe, x, y := device.identity.spiffeId, Connector("x", ""), Connector("y", "");
    var e := WebEntry("10.0.0.1", "a", spiffe);
    acl := SmallAcl([e], TwoNetworks([y, x], []));
    var planes := PlanesOf(acl, None);
    TwoNetworksAre([e], [y, x], []);
    FilterAll([e], (a: AclEntry) => Allowed(a, spiffe));
    AppliedMembers(acl, None, device, Apply(planes, e));
    AllResolve(planes, e, [y, x]);
    TwoAreLoose(planes, e, y, x);
  }

  lemma {:induction false} TwoAreLoose(planes: Planes, e: AclEntry, c: Coords, d: Coords)
    requires EntryCoords(planes, e) == [c, d] && e.preferred == "" && c.id != d.id
    ensures !Fixed(Apply(planes, e))
  {
    var got := Apply(planes, e).coords;
    SortedForm(planes, e);
    SameMembers(got, [c, d]);
    assert c in [c, d] && d in [c, d];
    var i :| 0 <= i < |got| && got[i] == c;
    var j :| 0 <= j < |got| && got[j] == d;
    assert got[i].id != got[j].id;
  }
}

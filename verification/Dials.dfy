/**
 With which coordinates connectors are dialled: the transport map caches one transport per
 connector while it is built (`build_transports_by_resource_with_crl`, client/src/daemon.rs).
 */
module Dials {
  import opened Common
  import opened Ordering
  import opened Sequences
  import opened Config
  import opened Canonical
  import opened Classify
  import opened TransportMap

  function Lookup(m: map<string, Coords>, k: string): Option<Coords> { if k in m then Some(m[k]) else None }

  /** The first result there is. */
  function FirstSome<S, T>(xs: seq<S>, f: S -> Option<T>): Option<T>
    decreases |xs|
  {
    if xs == [] then None
    else
      var r := FirstSome(xs[..|xs| - 1], f);
      if r.Some? then r else f(xs[|xs| - 1])
  }

  lemma {:induction false} FirstSomeMember<S, T>(xs: seq<S>, f: S -> Option<T>)
    ensures FirstSome(xs, f).Some? ==> exists x :: x in xs && f(x) == FirstSome(xs, f)
    ensures forall x :: x in xs && f(x).Some? ==> FirstSome(xs, f).Some?
    decreases |xs|
  {
    if xs != [] {
      FirstSomeMember(xs[..|xs| - 1], f);
      assert xs == xs[..|xs| - 1] + [xs[|xs| - 1]];
    }
  }

  lemma {:induction false} FirstSomeCons<S, T>(x: S, xs: seq<S>, f: S -> Option<T>)
    requires f(x).Some?
    ensures FirstSome([x] + xs, f) == f(x)
    decreases |xs|
  {
    var all := [x] + xs;
    if xs == [] {
      assert all[..0] == [];
    } else {
      FirstSomeCons(x, xs[..|xs| - 1], f);
      assert all[..|all| - 1] == [x] + xs[..|xs| - 1];
    }
  }

  function UnderKey(networkId: string, k: string): Coords -> Option<Coords>
  {
    (c: Coords) => if CacheKey(networkId, c) == k then Some(c) else None
  }

  /** The coordinates the entry alone would dial `k` with. */
  function EntryDial(ip: AddressOf, planes: Planes, e: AclEntry, k: string): Option<Coords>
  {
    if SlotKey(ip, e.address, e.port).None? then None else FirstSome(EntryCoords(planes, e), UnderKey(e.networkId, k))
  }

  function DialOf(ip: AddressOf, planes: Planes, k: string): AclEntry -> Option<Coords>
  {
    (e: AclEntry) => EntryDial(ip, planes, e, k)
  }

  lemma {:induction false} AddDialsIs(networkId: string, cs: seq<Coords>, m: map<string, Coords>, k: string)
    ensures Lookup(AddDials(networkId, cs, m), k)
         == if k in m then Some(m[k]) else FirstSome(cs, UnderKey(networkId, k))
    decreases |cs|
  {
    if cs != [] { AddDialsIs(networkId, cs[..|cs| - 1], m, k); }
  }

  /** A connector is dialled as the first entry that uses it would. */
  lemma {:induction false} DialIsFirst(ip: AddressOf, planes: Planes, es: seq<AclEntry>, k: string)
    ensures Lookup(BuildDials(ip, planes, es), k) == FirstSome(es, DialOf(ip, planes, k))
    decreases |es|
  {
    if es != [] {
      var e, rest := es[|es| - 1], es[..|es| - 1];
      DialIsFirst(ip, planes, rest, k);
      AddDialsIs(e.networkId, EntryCoords(planes, e), BuildDials(ip, planes, rest), k);
    }
  }

  /** Entries that use a connector agree on its coordinates. */
  ghost predicate Agreed(ip: AddressOf, planes: Planes, es: seq<AclEntry>)
  {
    forall e, f, k :: e in es && f in es && EntryDial(ip, planes, e, k).Some? && EntryDial(ip, planes, f, k).Some? ==>
      EntryDial(ip, planes, e, k) == EntryDial(ip, planes, f, k)
  }

  function DialsFor(ip: AddressOf, acl: Acl, transport: Option<Transport>, device: Device): map<string, Coords>
  {
    BuildDials(ip, PlanesOf(acl, transport), AllowedEntries(acl, device.identity.spiffeId))
  }

  lemma {:induction false} AgreedOne(ip: AddressOf, planes: Planes, es: seq<AclEntry>, fs: seq<AclEntry>, k: string)
    requires multiset(es) == multiset(fs) && Agreed(ip, planes, es)
    ensures FirstSome(es, DialOf(ip, planes, k)) == FirstSome(fs, DialOf(ip, planes, k))
  {
    SameMembers(es, fs);
    FirstSomeMember(es, DialOf(ip, planes, k));
    FirstSomeMember(fs, DialOf(ip, planes, k));
  }

  /** If the entries agree, the order of the ACL does not matter for any connector's coordinates. */
  lemma {:induction false} AgreedDialsAreFixed(ip: AddressOf, acl: Acl, es: seq<AclEntry>,
                                               transport: Option<Transport>, device: Device)
    requires multiset(es) == multiset(acl.entries)
    requires Agreed(ip, PlanesOf(acl, transport), AllowedEntries(acl, device.identity.spiffeId))
    ensures DialsFor(ip, acl.(entries := es), transport, device) == DialsFor(ip, acl, transport, device)
  {
    var planes, p := PlanesOf(acl, transport), (e: AclEntry) => Allowed(e, device.identity.spiffeId);
    var xs, ys := Filter(acl.entries, p), Filter(es, p);
    FilterPermutes(es, acl.entries, p);
    var m, m' := BuildDials(ip, planes, xs), BuildDials(ip, planes, ys);
    forall k ensures Lookup(m, k) == Lookup(m', k) {
      AgreedOne(ip, planes, xs, ys, k);
      DialIsFirst(ip, planes, xs, k);
      DialIsFirst(ip, planes, ys, k);
    }
    SameLookup(m, m');
  }

  lemma {:induction false} SameLookup(m: map<string, Coords>, m': map<string, Coords>)
    requires forall k :: Lookup(m, k) == Lookup(m', k)
    ensures m == m'
  {
    forall k ensures (k in m <==> k in m') && (k in m ==> m[k] == m'[k]) {
      assert Lookup(m, k) == Lookup(m', k);
    }
  }

  /** Moving an allowed entry to the front of the ACL makes its coordinates count. */
  lemma {:induction false} FirstEntryDials(ip: AddressOf, acl: Acl, transport: Option<Transport>, device: Device,
                                           e: AclEntry, k: string)
    returns (es: seq<AclEntry>)
    requires e in acl.entries && Allowed(e, device.identity.spiffeId)
    requires EntryDial(ip, PlanesOf(acl, transport), e, k).Some?
    ensures multiset(es) == multiset(acl.entries)
    ensures Lookup(DialsFor(ip, acl.(entries := es), transport, device), k)
         == EntryDial(ip, PlanesOf(acl, transport), e, k)
  {
    var planes, p := PlanesOf(acl, transport), (x: AclEntry) => Allowed(x, device.identity.spiffeId);
    var rest := PutFirst(acl.entries, e);
    es := [e] + rest;
    assert es[1..] == rest && Filter(es, p) == [e] + Filter(rest, p);
    FirstSomeCons(e, Filter(rest, p), DialOf(ip, planes, k));
    DialIsFirst(ip, planes, Filter(es, p), k);
  }

  /**
   If they do not, moving an entry to the front of the ACL leaves the configuration as it is (so
   the change is classified NoChange) and changes the coordinates a connector is dialled with.
   */
  lemma {:induction false} DisagreedDialsDiffer(ip: AddressOf, acl: Acl, transport: Option<Transport>, device: Device)
    returns (es: seq<AclEntry>, k: string)
    requires !Agreed(ip, PlanesOf(acl, transport), AllowedEntries(acl, device.identity.spiffeId))
    ensures multiset(es) == multiset(acl.entries)
    ensures EffectiveConfig(acl.(entries := es), transport, device) == EffectiveConfig(acl, transport, device)
    ensures var m, m' := DialsFor(ip, acl, transport, device), DialsFor(ip, acl.(entries := es), transport, device);
            k in m && k in m' && m[k] != m'[k]
  {
    var planes, xs := PlanesOf(acl, transport), AllowedEntries(acl, device.identity.spiffeId);
    var e, f, key :| e in xs && f in xs && EntryDial(ip, planes, e, key).Some? && EntryDial(ip, planes, f, key).Some?
                     && EntryDial(ip, planes, e, key) != EntryDial(ip, planes, f, key);
    k := key;
    FirstSomeMember(xs, DialOf(ip, planes, k));
    DialIsFirst(ip, planes, xs, k);
    var g := if FirstSome(xs, DialOf(ip, planes, k)) == EntryDial(ip, planes, e, k) then f else e;
    FilterCount(acl.entries, (x: AclEntry) => Allowed(x, device.identity.spiffeId), g);
    es := FirstEntryDials(ip, acl, transport, device, g, k);
    EntriesPermuted(acl, es, transport, device);
  }

  /** One connector that two networks list with different addresses. */
  lemma {:induction false} DisagreedInput(ip: AddressOf, device: Device) returns (acl: Acl)
    requires ip("10.0.0.1").Some? && ip("10.0.0.2").Some?
    ensures !Agreed(ip, PlanesOf(acl, None), AllowedEntries(acl, device.identity.spiffeId))
  {
    var spiffe, x, y := device.identity.spiffeId, Connector("x", "1"), Connector("x", "2");
    var e, f := WebEntry("10.0.0.1", "a", spiffe), WebEntry("10.0.0.2", "b", spiffe);
    acl := SmallAcl([e, f], TwoNetworks([x], [y]));
    var planes := PlanesOf(acl, None);
    TwoNetworksAre([e, f], [x], [y]);
    FilterAll([e, f], (a: AclEntry) => Allowed(a, spiffe));
    AllResolve(planes, e, [x]);
    AllResolve(planes, f, [y]);
    FirstSomeCons(x, [], UnderKey("a", "x"));
    FirstSomeCons(y, [], UnderKey("b", "x"));
    assert [x] + [] == [x] && [y] + [] == [y];
    assert EntryDial(ip, planes, e, "x") == Some(x) && EntryDial(ip, planes, f, "x") == Some(y);
    assert e in [e, f] && f in [e, f];
  }

  // ---- what is cached together ----

  lemma {:induction false} SplitAtColon(m: string, a: string, n: string, b: string)
    requires ':' !in m && ':' !in n && m + ":" + a == n + ":" + b
    ensures m == n && a == b
  {
    var x, y := m + ":" + a, n + ":" + b;
    assert x[|m|] == ':' && y[|n|] == ':';
    assert forall i :: 0 <= i < |m| ==> x[i] == m[i];
    assert forall i :: 0 <= i < |n| ==> y[i] == n[i];
    assert x[..|m|] == m && y[..|n|] == n && x[|m| + 1..] == a && y[|n| + 1..] == b;
  }

  /**
   Connectors with an id share a transport across networks exactly if the ids are equal. Those without one share it
   exactly within a network and for one tunnel address, if network ids contain no colon.
   */
  lemma {:induction false} CachedTogether(m: string, c: Coords, n: string, d: Coords)
    requires ':' !in m && ':' !in n && (c.id == "" <==> d.id == "")
    ensures CacheKey(m, c) == CacheKey(n, d) <==>
              if c.id != "" then c.id == d.id else m == n && c.tunnelAddr == d.tunnelAddr
  {
    if c.id == "" && CacheKey(m, c) == CacheKey(n, d) { SplitAtColon(m, c.tunnelAddr, n, d.tunnelAddr); }
  }
}

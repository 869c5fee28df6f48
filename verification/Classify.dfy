/**
 How a configuration change is classified and planned (`structural_view`,
 `classify_applied`, `resource_delta_allowed`, `plan_resource_apply`, client/src/daemon.rs;
 `routable_key`, client/src/net_stack.rs).
 */
module Classify {
  import opened Common
  import opened Ordering
  import opened Config
  import opened Canonical

  datatype Delta = NoChange | TransportOnly | ResourceDelta | Structural

  function Blank(e: AppliedEntry): AppliedEntry { e.(preferred := "", coords := []) }

  predicate LeView(a: AppliedEntry, b: AppliedEntry)
  {
    Then(a.address, b.address,
         a.port < b.port ||
         (a.port == b.port && Then(a.protocol, b.protocol, Then(a.networkId, b.networkId, true))))
  }

  /** The configuration with every connector field blanked, put in order again. */
  function StructuralView(cfg: AppliedConfig): AppliedConfig
  {
    cfg.(entries := Sort(Map(cfg.entries, Blank), LeView))
  }

  type EntryKey = (string, nat, string)

  function EntryKeyOf(e: AppliedEntry): EntryKey { (e.address, e.port, e.protocol) }

  /** The remote networks the entries with key `k` point to. */
  function NetworksOf(entries: seq<AppliedEntry>, k: EntryKey): set<string>
  {
    set e | e in entries && EntryKeyOf(e) == k :: e.networkId
  }

  /** `remote_networks_by_entry_key` */
  method RemoteNetworksByKey(entries: seq<AppliedEntry>) returns (m: map<EntryKey, set<string>>)
    ensures forall k :: k in m <==> NetworksOf(entries, k) != {}
    ensures forall k :: k in m ==> m[k] == NetworksOf(entries, k)
  {
    m := map[];
    for i := 0 to |entries|
      invariant forall k :: k in m <==> NetworksOf(entries[..i], k) != {}
      invariant forall k :: k in m ==> m[k] == NetworksOf(entries[..i], k)
    {
      var e := entries[i];
      var k := EntryKeyOf(e);
      NetworksStep(entries, i);
      m := m[k := (if k in m then m[k] else {}) + {e.networkId}];
    }
    assert entries[..|entries|] == entries;
  }

  lemma {:induction false} NetworksStep(entries: seq<AppliedEntry>, i: nat)
    requires i < |entries|
    ensures forall k :: NetworksOf(entries[..i + 1], k)
              == NetworksOf(entries[..i], k) + if EntryKeyOf(entries[i]) == k then {entries[i].networkId} else {}
  {
  }

  /** The remote networks of the entries for an address, port and protocol. */
  function NetworksAt(entries: seq<AppliedEntry>, k: EntryKey): set<string>
  {
    set e | e in entries && e.address == k.0 && e.port == k.1 && e.protocol == k.2 :: e.networkId
  }

  lemma {:induction false} NetworksAtKey(entries: seq<AppliedEntry>, k: EntryKey)
    ensures NetworksAt(entries, k) == NetworksOf(entries, k)
  {
  }

  /** A shared (address, port, protocol) with a different set of remote networks. */
  ghost predicate Moved(a: AppliedConfig, c: AppliedConfig, k: EntryKey)
  {
    && NetworksAt(a.entries, k) != {} && NetworksAt(c.entries, k) != {}
    && NetworksAt(a.entries, k) != NetworksAt(c.entries, k)
  }

  predicate DeltaAllowed(a: AppliedConfig, c: AppliedConfig)
  {
    && a.identity == c.identity
    && forall e :: e in a.entries ==>
         var k := EntryKeyOf(e);
         NetworksOf(c.entries, k) == {} || NetworksOf(c.entries, k) == NetworksOf(a.entries, k)
  }

  /** `resource_delta_allowed` with its maps. */
  method ResourceDeltaAllowed(a: AppliedConfig, c: AppliedConfig) returns (ok: bool)
    ensures ok == DeltaAllowed(a, c)
  {
    if a.identity != c.identity {
      return false;
    }
    var aRns := RemoteNetworksByKey(a.entries);
    var cRns := RemoteNetworksByKey(c.entries);
    ok := forall k :: k in aRns.Keys ==> k !in cRns || cRns[k] == aRns[k];
    forall e | e in a.entries ensures EntryKeyOf(e) in aRns {
      assert e.networkId in NetworksOf(a.entries, EntryKeyOf(e));
    }
    forall k | k in aRns ensures exists e :: e in a.entries && EntryKeyOf(e) == k {
      var n :| n in NetworksOf(a.entries, k);
    }
  }

  function ClassifyApplied(a: AppliedConfig, c: AppliedConfig): Delta
  {
    if c == a then NoChange
    else if StructuralView(c) == StructuralView(a) then TransportOnly
    else if DeltaAllowed(a, c) then ResourceDelta
    else Structural
  }

  // ---- exactness ----

  lemma {:induction false} LeViewTotal()
    ensures TotalOrder(LeView)
  {
    forall a, b ensures LeView(a, b) || LeView(b, a) {
      LtStrTotal(a.address, b.address);
      LtStrTotal(a.protocol, b.protocol);
      LtStrTotal(a.networkId, b.networkId);
    }
    forall a, b, c | LeView(a, b) && LeView(b, c) ensures LeView(a, c) {
      LtStrTransitive(a.address, b.address, c.address);
      LtStrTransitive(a.protocol, b.protocol, c.protocol);
      LtStrTransitive(a.networkId, b.networkId, c.networkId);
    }
  }

  lemma {:induction false} BlankStrict(es: seq<AppliedEntry>)
    ensures Strict(Map(es, Blank), LeView)
  {
    forall x, y | x in Map(es, Blank) && y in Map(es, Blank) && LeView(x, y) && LeView(y, x) ensures x == y {
      LtStrTotal(x.address, y.address);
      LtStrTotal(x.protocol, y.protocol);
      LtStrTotal(x.networkId, y.networkId);
    }
  }

  /** The views agree exactly when the configurations differ in connector fields alone. */
  lemma {:induction false} ViewsAgreeIff(a: AppliedConfig, c: AppliedConfig)
    ensures StructuralView(a) == StructuralView(c) <==>
              a.identity == c.identity && multiset(Map(a.entries, Blank)) == multiset(Map(c.entries, Blank))
  {
    LeViewTotal();
    SortSorts(Map(a.entries, Blank), LeView);
    SortSorts(Map(c.entries, Blank), LeView);
    if multiset(Map(a.entries, Blank)) == multiset(Map(c.entries, Blank)) {
      BlankStrict(a.entries);
      SortCanonical(Map(a.entries, Blank), Map(c.entries, Blank), LeView);
    }
  }

  lemma {:induction false} BlankMember(a: seq<AppliedEntry>, c: seq<AppliedEntry>, e: AppliedEntry)
    returns (e': AppliedEntry)
    requires multiset(Map(a, Blank)) == multiset(Map(c, Blank)) && e in a
    ensures e' in c && Blank(e') == Blank(e)
  {
    var i :| 0 <= i < |a| && a[i] == e;
    assert Map(a, Blank)[i] in multiset(Map(c, Blank));
    var j :| 0 <= j < |c| && Map(c, Blank)[j] == Blank(e);
    e' := c[j];
  }

  lemma {:induction false} SameBlanksSameNetworks(a: seq<AppliedEntry>, c: seq<AppliedEntry>, k: EntryKey)
    requires multiset(Map(a, Blank)) == multiset(Map(c, Blank))
    ensures NetworksOf(a, k) == NetworksOf(c, k)
  {
    forall n | n in NetworksOf(a, k) ensures n in NetworksOf(c, k) {
      var e :| e in a && EntryKeyOf(e) == k && e.networkId == n;
      var e' := BlankMember(a, c, e);
      assert e'.networkId == Blank(e').networkId == n && EntryKeyOf(e') == EntryKeyOf(Blank(e'));
    }
    forall n | n in NetworksOf(c, k) ensures n in NetworksOf(a, k) {
      var e :| e in c && EntryKeyOf(e) == k && e.networkId == n;
      var e' := BlankMember(c, a, e);
      assert e'.networkId == Blank(e').networkId == n && EntryKeyOf(e') == EntryKeyOf(Blank(e'));
    }
  }

  lemma {:induction false} DeltaAllowedIff(a: AppliedConfig, c: AppliedConfig)
    ensures DeltaAllowed(a, c) <==> a.identity == c.identity && forall k :: !Moved(a, c, k)
  {
    if a.identity == c.identity {
      if DeltaAllowed(a, c) {
        forall k ensures !Moved(a, c, k) {
          NetworksAtKey(a.entries, k);
          NetworksAtKey(c.entries, k);
          if NetworksOf(a.entries, k) != {} {
            var n :| n in NetworksOf(a.entries, k);
            var e :| e in a.entries && EntryKeyOf(e) == k && e.networkId == n;
          }
        }
      }
      if forall k :: !Moved(a, c, k) {
        forall e | e in a.entries
          ensures NetworksOf(c.entries, EntryKeyOf(e)) == {}
                  || NetworksOf(c.entries, EntryKeyOf(e)) == NetworksOf(a.entries, EntryKeyOf(e))
        {
          assert e.networkId in NetworksOf(a.entries, EntryKeyOf(e));
          NetworksAtKey(a.entries, EntryKeyOf(e));
          NetworksAtKey(c.entries, EntryKeyOf(e));
          assert !Moved(a, c, EntryKeyOf(e));
        }
      }
    }
  }

  /** What a change of connectors leaves alone. */
  function Fixed(e: AppliedEntry): (string, nat, string, string) { (e.address, e.port, e.protocol, e.networkId) }

  lemma {:induction false} BlankIsFixed(a: seq<AppliedEntry>, c: seq<AppliedEntry>)
    ensures multiset(Map(a, Blank)) == multiset(Map(c, Blank)) <==> multiset(Map(a, Fixed)) == multiset(Map(c, Fixed))
  {
    var blank := (x: (string, nat, string, string)) => AppliedEntry(x.0, x.1, x.2, x.3, "", []);
    assert Map(Map(a, Blank), Fixed) == Map(a, Fixed) && Map(Map(c, Blank), Fixed) == Map(c, Fixed);
    assert Map(Map(a, Fixed), blank) == Map(a, Blank) && Map(Map(c, Fixed), blank) == Map(c, Blank);
    if multiset(Map(a, Blank)) == multiset(Map(c, Blank)) { MapPermutes(Map(a, Blank), Map(c, Blank), Fixed); }
    if multiset(Map(a, Fixed)) == multiset(Map(c, Fixed)) { MapPermutes(Map(a, Fixed), Map(c, Fixed), blank); }
  }

  /**
   The classification is exact: a restart exactly when the identity differs or a shared
   resource moved to other remote networks; a transport-only change exactly when nothing but
   connector fields differs.
   */
  lemma {:induction false} ClassificationExact(a: AppliedConfig, c: AppliedConfig)
    ensures ClassifyApplied(a, c) == NoChange <==> a == c
    ensures ClassifyApplied(a, c) == Structural <==> a.identity != c.identity || exists k :: Moved(a, c, k)
    ensures ClassifyApplied(a, c) == TransportOnly <==>
              a != c && a.identity == c.identity && multiset(Map(a.entries, Fixed)) == multiset(Map(c.entries, Fixed))
  {
    ViewsAgreeIff(a, c);
    BlankIsFixed(a.entries, c.entries);
    DeltaAllowedIff(a, c);
    if StructuralView(a) == StructuralView(c) {
      forall k ensures !Moved(a, c, k) {
        NetworksAtKey(a.entries, k);
        NetworksAtKey(c.entries, k);
        SameBlanksSameNetworks(a.entries, c.entries, k);
      }
    }
  }

  /** It does not matter which of the two configurations is the running one. */
  lemma {:induction false} ClassificationSymmetric(a: AppliedConfig, c: AppliedConfig)
    ensures ClassifyApplied(a, c) == ClassifyApplied(c, a)
  {
    ClassificationExact(a, c);
    ClassificationExact(c, a);
    assert forall k :: Moved(a, c, k) <==> Moved(c, a, k);
  }

  /** Snapshots that differ in order and metadata only are no change at all. */
  lemma {:induction false} ReorderingIsNoChange(acl: Acl, transport: Option<Transport>, device: Device, acl': Acl,
                                                transport': Option<Transport>, device': Device)
    requires ReorderedAcl(acl, acl') && ReorderedTransport(transport, transport') && device.identity == device'.identity
    ensures ClassifyApplied(EffectiveConfig(acl, transport, device), EffectiveConfig(acl', transport', device'))
              == NoChange
  {
    ReorderingInvariant(acl, transport, device, acl', transport', device');
  }

  // ---- routable keys and the resource plan ----

  /** `name_map::resource_ipv4`, taken as one fixed partial function over a pass. */
  type AddressOf = string -> Option<Ipv4>

  function LowerChar(c: char): char { if 'A' <= c <= 'Z' then c - 'A' + 'a' else c }

  predicate IsTcp(protocol: string)
  {
    || protocol == ""
    || (|protocol| == 3 && LowerChar(protocol[0]) == 't' && LowerChar(protocol[1]) == 'c'
        && LowerChar(protocol[2]) == 'p')
  }

  /** `port as u16` */
  function TruncatePort(port: nat): Port { port % 65536 }

  function RoutableKey(ip: AddressOf, e: AppliedEntry): Option<ResourceKey>
  {
    if !IsTcp(e.protocol) then None
    else
      match ip(e.address)
      case None => None
      case Some(a) => Some((a, TruncatePort(e.port)))
  }

  function RoutableKeys(ip: AddressOf, cfg: AppliedConfig): set<ResourceKey>
  {
    set e | e in cfg.entries && RoutableKey(ip, e).Some? :: RoutableKey(ip, e).value
  }

  /** The protocols that are captured: none given, and "tcp" however it is cased. */
  const TCP_NAMES: set<string> := {"", "tcp", "tcP", "tCp", "tCP", "Tcp", "TcP", "TCp", "TCP"}

  lemma {:induction false} TcpIs(protocol: string)
    ensures IsTcp(protocol) <==> protocol in TCP_NAMES
  {
    if |protocol| == 3 {
      assert protocol == [protocol[0], protocol[1], protocol[2]];
      LowerIs(protocol[0], 't', 'T');
      LowerIs(protocol[1], 'c', 'C');
      LowerIs(protocol[2], 'p', 'P');
    }
  }

  lemma {:induction false} LowerIs(c: char, lower: char, upper: char)
    requires 'A' <= upper <= 'Z' && lower == upper - 'A' + 'a'
    ensures LowerChar(c) == lower <==> c == lower || c == upper
  {
  }

  /**
   A key is captured exactly if an entry without a protocol or for TCP has its address, and its port is the
   entry's, modulo 65536 if that is larger.
   */
  lemma {:induction false} CapturedIff(ip: AddressOf, cfg: AppliedConfig, k: ResourceKey)
    ensures k in RoutableKeys(ip, cfg) <==>
              exists e :: e in cfg.entries && e.protocol in TCP_NAMES && ip(e.address) == Some(k.0)
                          && (if e.port < 65536 then k.1 == e.port else k.1 == e.port % 65536)
  {
    forall e: AppliedEntry ensures IsTcp(e.protocol) <==> e.protocol in TCP_NAMES { TcpIs(e.protocol); }
    if k in RoutableKeys(ip, cfg) {
      var e :| e in cfg.entries && RoutableKey(ip, e) == Some(k);
      assert e.protocol in TCP_NAMES && ip(e.address) == Some(k.0);
    }
    if e :| e in cfg.entries && e.protocol in TCP_NAMES && ip(e.address) == Some(k.0)
            && (if e.port < 65536 then k.1 == e.port else k.1 == e.port % 65536) {
      assert RoutableKey(ip, e) == Some(k);
    }
  }

  function IpsOf(keys: set<ResourceKey>): set<Ipv4>
  {
    set k | k in keys :: k.0
  }

  datatype Plan = Plan(
    removed: set<ResourceKey>, added: set<ResourceKey>, addrDel: set<Ipv4>, addrAdd: set<Ipv4>,
    flowsAfterRemoval: set<ResourceKey>, flowsAfter: set<ResourceKey>, target: AppliedConfig)

  function PlanApply(ip: AddressOf, applied: AppliedConfig, candidate: AppliedConfig): Plan
  {
    var a, c := RoutableKeys(ip, applied), RoutableKeys(ip, candidate);
    var kept := a * c;
    Plan(a - c, c - a, IpsOf(a) - IpsOf(c), IpsOf(c) - IpsOf(a), kept, kept + (c - a), candidate)
  }

  /** The plan turns the applied keys and routes into the candidate's, and disturbs nothing that stays. */
  lemma {:induction false} PlanReachesTarget(ip: AddressOf, applied: AppliedConfig, candidate: AppliedConfig)
    ensures var p := PlanApply(ip, applied, candidate);
            var a, c := RoutableKeys(ip, applied), RoutableKeys(ip, candidate);
            && a - p.removed + p.added == c == p.flowsAfter
            && IpsOf(a) - p.addrDel + p.addrAdd == IpsOf(c)
            && p.removed <= a && p.added !! a && p.flowsAfterRemoval == a - p.removed
            && p.addrDel !! IpsOf(p.flowsAfter) && IpsOf(p.flowsAfterRemoval) <= IpsOf(a) - p.addrDel
            && (p.removed == {} ==> p.addrDel == {}) && (p.added == {} ==> p.addrAdd == {})
  {
  }

  /** Only connector fields changed: nothing to remove, add or reroute. */
  lemma {:induction false} TransportOnlyPlanIsEmpty(ip: AddressOf, a: AppliedConfig, c: AppliedConfig)
    requires ClassifyApplied(a, c) == TransportOnly
    ensures var p := PlanApply(ip, a, c);
            p.removed == {} && p.added == {} && p.addrDel == {} && p.addrAdd == {}
                && p.flowsAfter == RoutableKeys(ip, a)
  {
    ClassificationExact(a, c);
    BlankIsFixed(a.entries, c.entries);
    SameBlanksSameKeys(ip, a.entries, c.entries, a, c);
    SameBlanksSameKeys(ip, c.entries, a.entries, c, a);
    assert RoutableKeys(ip, a) == RoutableKeys(ip, c);
  }

  lemma {:induction false} SameBlanksSameKeys(ip: AddressOf, xs: seq<AppliedEntry>, ys: seq<AppliedEntry>,
                                              a: AppliedConfig, c: AppliedConfig)
    requires xs == a.entries && ys == c.entries && multiset(Map(xs, Blank)) == multiset(Map(ys, Blank))
    ensures RoutableKeys(ip, a) <= RoutableKeys(ip, c)
  {
    forall k | k in RoutableKeys(ip, a) ensures k in RoutableKeys(ip, c) {
      var e :| e in xs && RoutableKey(ip, e) == Some(k);
      var e' := BlankMember(xs, ys, e);
      assert RoutableKey(ip, e') == RoutableKey(ip, Blank(e')) == RoutableKey(ip, Blank(e)) == RoutableKey(ip, e);
    }
  }
}

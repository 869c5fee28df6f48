/**
 The fake-address allocator for DNS-name resources (client/src/name_map.rs).

 `NameMap` is the mutable map the daemon keeps for its whole run. `State` is its value, and
 `Run` the state after a sequence of calls; the claims over whole runs are about `Run`.
 */
module NameMapModel {
  import opened Common
  import opened Names
  import opened Probe

  const POOL_FIRST: Ipv4 := Address(198, 18, 0, 1)
  const POOL_LAST: Ipv4 := Address(198, 18, 255, 254)

  function SlotAddress(s: Slot): (ip: Ipv4)
    ensures POOL_FIRST <= ip <= POOL_LAST
  {
    POOL_FIRST + s
  }

  /** 198.18.0.0/15 */
  predicate InReservedRange(ip: Ipv4)
  {
    var o := Octets(ip);
    o[0] == 198 && (o[1] == 18 || o[1] == 19)
  }

  function XorOctet(a: Octet, b: Octet): Octet
  {
    ((a as bv8) ^ (b as bv8)) as int
  }

  type Word64 = x: int | 0 <= x < 0x1_0000_0000_0000_0000

  /** One FNV-1a round: xor the octet into the low octet, then a wrapping multiplication. */
  function FnvRound(h: Word64, b: Octet): Word64
  {
    (h - h % 256 + XorOctet(h % 256, b)) * 0x0000_0100_0000_01b3 % 0x1_0000_0000_0000_0000
  }

  /** FNV-1a 64. */
  function Fnv1a(h: Word64, name: Bytes): Word64
    decreases |name|
  {
    if name == [] then h else Fnv1a(FnvRound(h, name[0]), name[1..])
  }

  const FNV_OFFSET: Word64 := 0xcbf2_9ce4_8422_2325

  function HomeSlot(name: Bytes): Slot
  {
    Fnv1a(FNV_OFFSET, name) % POOL_SIZE
  }

  method ComputeHomeSlot(name: Bytes) returns (s: Slot)
    ensures s == HomeSlot(name)
  {
    var h: Word64 := FNV_OFFSET;
    for i := 0 to |name|
      invariant Fnv1a(h, name[i..]) == Fnv1a(FNV_OFFSET, name)
    {
      assert name[i..][1..] == name[i + 1..];
      h := FnvRound(h, name[i]);
    }
    s := h % POOL_SIZE;
  }

  datatype State = State(
    byName: map<Bytes, Ipv4>,
    byIp: map<Ipv4, Bytes>,
    active: set<Bytes>,
    conflicts: set<Ipv4>)

  const EMPTY := State(map[], map[], {}, {})

  function UsedSlots(st: State): set<Slot>
  {
    set s: Slot | 0 <= s < POOL_SIZE && SlotAddress(s) in st.byIp
  }

  /** What one `fake_ip_for` call leaves behind and answers. */
  function Assign(st: State, name: Bytes): (State, Option<Ipv4>)
  {
    if !IsResourceName(name) || st.conflicts != {} then
      (st, None)
    else if name in st.byName then
      (st, Some(st.byName[name]))
    else
      match FirstFree(UsedSlots(st), HomeSlot(name))
      case None => (st, None)
      case Some(s) =>
        var ip := SlotAddress(s);
        (st.(byName := st.byName[name := ip], byIp := st.byIp[ip := name]), Some(ip))
  }

  function AnswerA(st: State, name: Bytes): Option<Ipv4>
  {
    if name in st.active && st.conflicts == {} && name in st.byName then Some(st.byName[name]) else None
  }

  function NameFor(st: State, ip: Ipv4): Option<Bytes>
  {
    if ip in st.byIp then Some(st.byIp[ip]) else None
  }

  function NoteLiteral(st: State, ip: Ipv4): State
  {
    if InReservedRange(ip) then st.(conflicts := st.conflicts + {ip}) else st
  }

  /**
   `resource_ipv4`: the literal, or the fake address. An IPv6 literal contains a colon, so
   it is not a resource name and gets None here as in the source.
   */
  function ResourceIpv4(st: State, address: Bytes): (State, Option<Ipv4>)
  {
    match ParseIpv4(address)
    case Some(ip) => (NoteLiteral(st, ip), Some(ip))
    case None => Assign(st, address)
  }

  /** The tunnel request destination for a captured address. */
  function DestinationFor(st: State, ip: Ipv4): Bytes
  {
    match NameFor(st, ip)
    case Some(name) => name
    case None => PrintIpv4(ip)
  }

  class NameMap {
    var byName: map<Bytes, Ipv4>
    var byIp: map<Ipv4, Bytes>
    var active: set<Bytes>
    var conflicts: set<Ipv4>

    ghost function Value(): State
      reads this
    {
      State(byName, byIp, active, conflicts)
    }

    constructor ()
      ensures Value() == EMPTY
    {
      byName, byIp, active, conflicts := map[], map[], {}, {};
    }

    method FakeIpFor(name: Bytes) returns (r: Option<Ipv4>)
      modifies this
      ensures (Value(), r) == Assign(old(Value()), name)
    {
      if !IsResourceName(name) || conflicts != {} {
        return None;
      }
      if name in byName {
        return Some(byName[name]);
      }
      var home := ComputeHomeSlot(name);
      var found := FindFree(home);
      match found {
        case None =>
          return None;
        case Some(s) =>
          var ip := SlotAddress(s);
          byName := byName[name := ip];
          byIp := byIp[ip := name];
          return Some(ip);
      }
    }

    /** The probe loop. */
    method FindFree(home: Slot) returns (r: Option<Slot>)
      ensures r == FirstFree(UsedSlots(Value()), home)
    {
      ghost var used := UsedSlots(Value());
      var i := 0;
      while i < POOL_SIZE
        invariant 0 <= i <= POOL_SIZE
        invariant Tried(used, home, i)
        invariant ProbeFrom(used, home, i) == FirstFree(used, home)
      {
        var s: Slot := (home + i) % POOL_SIZE;
        if SlotAddress(s) !in byIp {
          return Some(s);
        }
        TriedNext(used, home, i);
        i := i + 1;
      }
      return None;
    }

    method SetActive(names: set<Bytes>)
      modifies this
      ensures Value() == old(Value()).(active := names)
    {
      active := names;
    }

    method AnswerQuery(name: Bytes) returns (r: Option<Ipv4>)
      ensures r == AnswerA(Value(), name)
    {
      if name in active && conflicts == {} {
        return if name in byName then Some(byName[name]) else None;
      }
      return None;
    }

    method NoteLiteralAddress(ip: Ipv4)
      modifies this
      ensures Value() == NoteLiteral(old(Value()), ip)
    {
      if InReservedRange(ip) {
        conflicts := conflicts + {ip};
      }
    }

    method ClearConflicts()
      modifies this
      ensures Value() == old(Value()).(conflicts := {})
    {
      conflicts := {};
    }
  }

  // ---- whole runs ----

  datatype Call = Resource(address: Bytes) | Activate(names: set<Bytes>) | Clear

  function Step(st: State, c: Call): State
  {
    match c
    case Resource(a) => ResourceIpv4(st, a).0
    case Activate(names) => st.(active := names)
    case Clear => st.(conflicts := {})
  }

  function Run(st: State, calls: seq<Call>): State
    decreases |calls|
  {
    if calls == [] then st else Run(Step(st, calls[0]), calls[1..])
  }

  /** The two maps are inverses of each other and stay inside the pool. */
  ghost predicate Inverse(st: State)
  {
    && (forall n :: n in st.byName ==>
          && st.byName[n] in st.byIp
          && st.byIp[st.byName[n]] == n)
    && (forall ip :: ip in st.byIp ==>
          && POOL_FIRST <= ip <= POOL_LAST
          && st.byIp[ip] in st.byName
          && st.byName[st.byIp[ip]] == ip)
  }

  /** Every mapping of `st` is still there in `later`. */
  ghost predicate Extends(st: State, later: State)
  {
    && (forall n :: n in st.byName ==> n in later.byName && later.byName[n] == st.byName[n])
    && (forall ip :: ip in st.byIp ==> ip in later.byIp && later.byIp[ip] == st.byIp[ip])
  }

  lemma {:induction false} AssignKeeps(st: State, name: Bytes)
    requires Inverse(st)
    ensures Inverse(Assign(st, name).0) && Extends(st, Assign(st, name).0)
  {
  }

  /** Mappings are inverse and never move or disappear, over every run. */
  lemma {:induction false} RunKeeps(st: State, calls: seq<Call>)
    requires Inverse(st)
    ensures Inverse(Run(st, calls)) && Extends(st, Run(st, calls))
    decreases |calls|
  {
    if calls != [] {
      match calls[0] {
        case Resource(a) => if ParseIpv4(a).None? { AssignKeeps(st, a); }
        case _ =>
      }
      RunKeeps(Step(st, calls[0]), calls[1..]);
    }
  }

  /**
   An address ever answered for a name names that same name in every later state, through
   inactivity, conflicts and clears, and lies in the pool.
   */
  lemma {:induction false} AnswerMapsBack(before: seq<Call>, name: Bytes, after: seq<Call>)
    ensures var st := Run(EMPTY, before);
            AnswerA(st, name).Some? ==>
              var ip := AnswerA(st, name).value;
              && NameFor(Run(st, after), ip) == Some(name)
              && DestinationFor(Run(st, after), ip) == name
              && POOL_FIRST <= ip <= POOL_LAST
  {
    RunKeeps(EMPTY, before);
    RunKeeps(Run(EMPTY, before), after);
  }

  /** Two names never share an address, however the run went. */
  lemma {:induction false} AddressesDistinct(calls: seq<Call>, a: Bytes, b: Bytes)
    requires a != b
    ensures var st := Run(EMPTY, calls);
            a in st.byName && b in st.byName ==> st.byName[a] != st.byName[b]
  {
    RunKeeps(EMPTY, calls);
  }

  /** What capture learns for an address is what the tunnel request says later. */
  lemma {:induction false} DestinationRoundTrip(before: seq<Call>, address: Bytes, after: seq<Call>)
    ensures var (st, ip) := ResourceIpv4(Run(EMPTY, before), address);
            var later := Run(st, after);
            && (IsResourceName(address) && ip.Some? ==> DestinationFor(later, ip.value) == address)
            && (!IsResourceName(address) && ip.Some? && ip.value !in later.byIp ==>
                  ParseIpv4(DestinationFor(later, ip.value)) == ParseIpv4(address) == ip)
  {
    var st0 := Run(EMPTY, before);
    RunKeeps(EMPTY, before);
    var (st, ip) := ResourceIpv4(st0, address);
    if ParseIpv4(address).None? { AssignKeeps(st0, address); }
    RunKeeps(st, after);
    if ip.Some? { PrintIpv4Parses(ip.value); }
  }

  /** An unmapped valid name is refused exactly when every pool address is taken. */
  lemma {:induction false} RefusedIffFull(calls: seq<Call>, name: Bytes)
    ensures var st := Run(EMPTY, calls);
            IsResourceName(name) && st.conflicts == {} && name !in st.byName ==>
              (Assign(st, name).1.None? <==>
                 forall ip: Ipv4 :: POOL_FIRST <= ip <= POOL_LAST ==> ip in st.byIp)
  {
    var st := Run(EMPTY, calls);
    if forall s: Slot :: s in UsedSlots(st) {
      forall ip: Ipv4 | POOL_FIRST <= ip <= POOL_LAST ensures ip in st.byIp {
        var s: Slot := ip - POOL_FIRST;
        assert s in UsedSlots(st);
      }
    }
    if s: Slot :| s !in UsedSlots(st) {
      assert SlotAddress(s) !in st.byIp;
    }
  }

  // ---- when names are answered ----

  lemma {:induction false} RunThen(st: State, before: seq<Call>, after: seq<Call>)
    ensures Run(st, before + after) == Run(Run(st, before), after)
    decreases |before|
  {
    if before == [] {
      assert before + after == after;
    } else {
      assert (before + after)[1..] == before[1..] + after;
      RunThen(Step(st, before[0]), before[1..], after);
    }
  }

  /** The last set of names the calls activate; none if they activate none. */
  function LastActive(calls: seq<Call>): set<Bytes>
    decreases |calls|
  {
    if calls == [] then {}
    else
      var c := calls[|calls| - 1];
      if c.Activate? then c.names else LastActive(calls[..|calls| - 1])
  }

  /** Some resource since the last clear is a literal in 198.18.0.0/15. */
  predicate Clashes(calls: seq<Call>)
    decreases |calls|
  {
    calls != []
    && var c := calls[|calls| - 1];
       (c.Resource? && Reserved(c.address)) || (!c.Clear? && Clashes(calls[..|calls| - 1]))
  }

  predicate Reserved(address: Bytes)
  {
    var ip := ParseIpv4(address);
    ip.Some? && Address(198, 18, 0, 0) <= ip.value <= Address(198, 19, 255, 255)
  }

  lemma {:induction false} ReservedRange(ip: Ipv4)
    ensures InReservedRange(ip) <==> Address(198, 18, 0, 0) <= ip <= Address(198, 19, 255, 255)
  {
    var o := Octets(ip);
    assert ip == Address(o[0], o[1], o[2], o[3]);
  }

  /** In every run the active names are the last ones set, and a conflict is recorded exactly when one is there. */
  lemma {:induction false} RunKnows(calls: seq<Call>)
    ensures Run(EMPTY, calls).active == LastActive(calls)
    ensures Run(EMPTY, calls).conflicts != {} <==> Clashes(calls)
    decreases |calls|
  {
    if calls != [] {
      var n := |calls| - 1;
      var c := calls[n];
      assert calls == calls[..n] + [c];
      RunKnows(calls[..n]);
      RunThen(EMPTY, calls[..n], [c]);
      var st := Run(EMPTY, calls[..n]);
      assert Run(st, [c]) == Run(Step(st, c), []) == Step(st, c);
      if c.Resource? && ParseIpv4(c.address).Some? { ReservedRange(ParseIpv4(c.address).value); }
    }
  }

  /**
   A name is answered exactly when it is among the names last activated, has an address, and no resource since the
   last clear is a literal in the reserved range.
   */
  lemma {:induction false} AnsweredIff(calls: seq<Call>, name: Bytes)
    ensures var st := Run(EMPTY, calls);
            AnswerA(st, name).Some? <==> name in LastActive(calls) && name in st.byName && !Clashes(calls)
  {
    RunKnows(calls);
  }

  /** With such a literal no name gets an address, a known one included; without one every known name keeps its own. */
  lemma {:induction false} ClashStopsNames(calls: seq<Call>, name: Bytes)
    ensures var st := Run(EMPTY, calls);
            && (Clashes(calls) ==> Assign(st, name) == (st, None))
            && (!Clashes(calls) && IsResourceName(name) && name in st.byName ==>
                  Assign(st, name) == (st, Some(st.byName[name])))
  {
    RunKnows(calls);
  }

  // ---- a pinned address ----

  /** One round with its parts worked out. */
  lemma {:induction false} Round(h: Word64, b: Octet, low: Octet, x: Octet, next: Word64)
    requires h % 256 == low && XorOctet(low, b) == x
    requires (h - low + x) * 0x0100_0000_01b3 % 0x1_0000_0000_0000_0000 == next
    ensures FnvRound(h, b) == next
  {
  }

  lemma {:induction false} Round0()
    ensures FnvRound(0xcbf2_9ce4_8422_2325, 97) == 0xaf63_dc4c_8601_ec8c
  {
    Round(0xcbf2_9ce4_8422_2325, 97, 37, 68, 0xaf63_dc4c_8601_ec8c);
  }

  lemma {:induction false} Round1()
    ensures FnvRound(0xaf63_dc4c_8601_ec8c, 46) == 0x089b_f807_b545_1746
  {
    Round(0xaf63_dc4c_8601_ec8c, 46, 140, 162, 0x089b_f807_b545_1746);
  }

  lemma {:induction false} Round2()
    ensures FnvRound(0x089b_f807_b545_1746, 101) == 0xe61d_9819_0466_5079
  {
    Round(0x089b_f807_b545_1746, 101, 70, 35, 0xe61d_9819_0466_5079);
  }

  lemma {:induction false} Round3()
    ensures FnvRound(0xe61d_9819_0466_5079, 120) == 0x6a99_7382_79d9_f1b3
  {
    Round(0xe61d_9819_0466_5079, 120, 121, 1, 0x6a99_7382_79d9_f1b3);
  }

  lemma {:induction false} Round4()
    ensures FnvRound(0x6a99_7382_79d9_f1b3, 97) == 0xfcb1_18b5_0d55_e7d6
  {
    Round(0x6a99_7382_79d9_f1b3, 97, 179, 210, 0xfcb1_18b5_0d55_e7d6);
  }

  lemma {:induction false} Round5()
    ensures FnvRound(0xfcb1_18b5_0d55_e7d6, 109) == 0xb6d4_b6a5_a8f8_c2c1
  {
    Round(0xfcb1_18b5_0d55_e7d6, 109, 214, 187, 0xb6d4_b6a5_a8f8_c2c1);
  }

  lemma {:induction false} Round6()
    ensures FnvRound(0xb6d4_b6a5_a8f8_c2c1, 112) == 0xa435_0c7e_1eb2_d2c3
  {
    Round(0xb6d4_b6a5_a8f8_c2c1, 112, 193, 177, 0xa435_0c7e_1eb2_d2c3);
  }

  lemma {:induction false} Round7()
    ensures FnvRound(0xa435_0c7e_1eb2_d2c3, 108) == 0xb8f6_e94e_29db_ff5d
  {
    Round(0xa435_0c7e_1eb2_d2c3, 108, 195, 175, 0xb8f6_e94e_29db_ff5d);
  }

  lemma {:induction false} Round8()
    ensures FnvRound(0xb8f6_e94e_29db_ff5d, 101) == 0x278d_a7d1_20d2_ac28
  {
    Round(0xb8f6_e94e_29db_ff5d, 101, 93, 56, 0x278d_a7d1_20d2_ac28);
  }

  /** If every octet leads from one hash to the next, the last one is the hash of the name. */
  lemma {:induction false} LastRound(name: Bytes, hs: seq<Word64>)
    requires |hs| == |name| + 1 && forall i :: 0 <= i < |name| ==> FnvRound(hs[i], name[i]) == hs[i + 1]
    ensures Fnv1a(hs[0], name) == hs[|name|]
    decreases |name|
  {
    if name != [] {
      forall i | 0 <= i < |name| - 1 ensures FnvRound(hs[1..][i], name[1..][i]) == hs[1..][i + 1] {
        assert FnvRound(hs[i + 1], name[i + 1]) == hs[i + 2];
      }
      LastRound(name[1..], hs[1..]);
    }
  }

  /** The text "a.example". */
  predicate IsAExample(name: Bytes)
  {
    && |name| == 9 && name[0] == 97 && name[1] == 46 && name[2] == 101 && name[3] == 120 && name[4] == 97
    && name[5] == 109 && name[6] == 112 && name[7] == 108 && name[8] == 101
  }

  lemma {:induction false} PinnedHash(name: Bytes)
    requires IsAExample(name)
    ensures Fnv1a(FNV_OFFSET, name) == 0x278d_a7d1_20d2_ac28
  {
    Round0();
    Round1();
    Round2();
    Round3();
    Round4();
    Round5();
    Round6();
    Round7();
    Round8();
    LastRound(name, [0xcbf2_9ce4_8422_2325, 0xaf63_dc4c_8601_ec8c, 0x089b_f807_b545_1746, 0xe61d_9819_0466_5079,
                     0x6a99_7382_79d9_f1b3, 0xfcb1_18b5_0d55_e7d6, 0xb6d4_b6a5_a8f8_c2c1, 0xa435_0c7e_1eb2_d2c3,
                     0xb8f6_e94e_29db_ff5d, 0x278d_a7d1_20d2_ac28]);
  }

  /** The address of "a.example" is pinned: every installed client gives it this home slot. */
  lemma {:induction false} AddressIsPinned(name: Bytes)
    requires IsAExample(name)
    ensures SlotAddress(HomeSlot(name)) == Address(198, 18, 201, 129)
  {
    PinnedHash(name);
    SlotOf(name, 0x278d_a7d1_20d2_ac28);
  }

  lemma {:induction false} SlotOf(name: Bytes, h: Word64)
    requires Fnv1a(FNV_OFFSET, name) == h
    ensures HomeSlot(name) == h % POOL_SIZE
  {
  }

  /** On an empty map every valid name gets its home slot. */
  lemma {:induction false} FirstGetsHome(name: Bytes)
    requires IsResourceName(name)
    ensures Assign(EMPTY, name).1 == Some(SlotAddress(HomeSlot(name)))
  {
  }
}

/**
 The authoritative DNS answerer (client/src/dns.rs): one query in, one reply or nothing out.
 Message layout as in section 4.1 of RFC 1035. Flag masks of the source select disjoint bit
 fields, so they are written here as quotients and remainders.
 */
module Dns {
  import opened Common
  import opened Names

  const TYPE_A := 1
  const CLASS_IN := 1
  const RCODE_NXDOMAIN := 3
  const RCODE_NOTIMP := 4
  const ANSWER_TTL_SECS := 30

  type Word16 = x: int | 0 <= x < 65536

  function U16(hi: Octet, lo: Octet): Word16 { hi * 256 + lo }
  function Be16(w: Word16): Bytes { [w / 256, w % 256] }

  function Flags(q: Bytes): Word16
    requires |q| >= 12
  {
    U16(q[2], q[3])
  }
  predicate Qr(f: Word16) { f / 0x8000 == 1 }
  function Opcode(f: Word16): int { f / 0x800 % 16 }
  predicate Aa(f: Word16) { f / 0x400 % 2 == 1 }
  predicate Tc(f: Word16) { f / 0x200 % 2 == 1 }
  predicate Rd(f: Word16) { f / 0x100 % 2 == 1 }
  function Rcode(f: Word16): int { f % 16 }

  function LowerOctet(c: Octet): Octet { if 65 <= c <= 90 then c + 32 else c }

  /** `to_ascii_lowercase` */
  function Lower(s: Bytes): (r: Bytes)
    ensures |r| == |s|
  {
    seq(|s|, i requires 0 <= i < |s| => LowerOctet(s[i]))
  }

  predicate Continuation(c: Octet) { 0x80 <= c <= 0xBF }

  /** The UTF-8 grammar of section 4 of RFC 3629, as `String::from_utf8` checks it. */
  predicate ValidUtf8(s: Bytes)
    decreases |s|
  {
    || s == []
    || (s[0] < 0x80 && ValidUtf8(s[1..]))
    || (0xC2 <= s[0] <= 0xDF && |s| >= 2 && Continuation(s[1]) && ValidUtf8(s[2..]))
    || (0xE0 <= s[0] <= 0xEF && |s| >= 3 && Continuation(s[1]) && Continuation(s[2])
        && (s[0] == 0xE0 ==> 0xA0 <= s[1]) && (s[0] == 0xED ==> s[1] <= 0x9F) && ValidUtf8(s[3..]))
    || (0xF0 <= s[0] <= 0xF4 && |s| >= 4 && Continuation(s[1]) && Continuation(s[2]) && Continuation(s[3])
        && (s[0] == 0xF0 ==> 0x90 <= s[1]) && (s[0] == 0xF4 ==> s[1] <= 0x8F) && ValidUtf8(s[4..]))
  }

  /** The labels of the QNAME at `pos`, lowercased, and where it ends. */
  function ParseName(q: Bytes, pos: nat): (r: Option<(seq<Bytes>, nat)>)
    ensures r.Some? ==> pos < r.value.1 <= |q|
    decreases |q| - pos
  {
    if pos >= |q| then None
    else
      var len := q[pos];
      var next := pos + 1 + len;
      if len == 0 then Some(([], pos + 1))
      else if len > 63 || next > |q| || !ValidUtf8(Lower(q[pos + 1..next])) then None
      else
        match ParseName(q, next)
        case None => None
        case Some((labels, end)) => Some(([Lower(q[pos + 1..next])] + labels, end))
  }

  datatype Question = Question(name: Bytes, qtype: Word16, qclass: Word16, end: nat)

  /** The single question of a standard-format query; None for anything the source drops. */
  function ParseQuery(q: Bytes): (r: Option<Question>)
    ensures r.Some? ==> 17 <= r.value.end <= |q|
  {
    if |q| < 12 || Qr(Flags(q)) || U16(q[4], q[5]) != 1 then None
    else
      match ParseName(q, 12)
      case None => None
      case Some((labels, end)) =>
        if end + 4 > |q| then None
        else Some(Question(Join(labels), U16(q[end], q[end + 1]), U16(q[end + 2], q[end + 3]), end + 4))
  }

  /** Response code and address for a question. */
  function Resolve(opcode: int, n: Question, lookup: Bytes -> Option<Ipv4>): (int, Option<Ipv4>)
  {
    if opcode != 0 then (RCODE_NOTIMP, None)
    else
      match lookup(n.name)
      case None => (RCODE_NXDOMAIN, None)
      case Some(ip) => if n.qtype == TYPE_A && n.qclass == CLASS_IN then (0, Some(ip)) else (0, None)
  }

  /** One answer record: a pointer to the question, A, IN, TTL, the address. */
  function Record(ip: Ipv4): (r: Bytes)
    ensures |r| == 16
  {
    [0xC0, 0x0C] + Be16(TYPE_A) + Be16(CLASS_IN) + [0, 0] + Be16(ANSWER_TTL_SECS) + Be16(4) + Octets(ip)
  }

  /** The loop over the QNAME of the question at octet 12. */
  method ReadName(query: Bytes) returns (r: Option<(seq<Bytes>, nat)>)
    ensures r == ParseName(query, 12)
  {
    var pos: nat := 12;
    var labels: seq<Bytes> := [];
    ghost var whole := ParseName(query, 12);
    assert whole.Some? ==> labels + whole.value.0 == whole.value.0;
    while true
      invariant whole == PrependLabels(labels, ParseName(query, pos))
      decreases |query| - pos
    {
      if pos >= |query| {
        return None;
      }
      var len := query[pos];
      if len == 0 {
        assert labels + [] == labels;
        return Some((labels, pos + 1));
      }
      if len > 63 || pos + 1 + len > |query| {
        return None;
      }
      var part := Lower(query[pos + 1..pos + 1 + len]);
      if !ValidUtf8(part) {
        return None;
      }
      ghost var rest := ParseName(query, pos + 1 + len);
      assert rest.Some? ==> labels + ([part] + rest.value.0) == (labels + [part]) + rest.value.0;
      labels := labels + [part];
      pos := pos + 1 + len;
    }
  }

  ghost function PrependLabels(labels: seq<Bytes>, r: Option<(seq<Bytes>, nat)>): Option<(seq<Bytes>, nat)>
  {
    match r
    case None => None
    case Some((rest, end)) => Some((labels + rest, end))
  }

  /** Reads the header and the single question. */
  method ReadQuery(query: Bytes) returns (r: Option<Question>)
    ensures r == ParseQuery(query)
  {
    if |query| < 12 || Qr(Flags(query)) || U16(query[4], query[5]) != 1 {
      return None;
    }
    var read := ReadName(query);
    if read.None? || read.value.1 + 4 > |query| {
      return None;
    }
    var (labels, pos) := read.value;
    return Some(Question(Join(labels), U16(query[pos], query[pos + 1]), U16(query[pos + 2], query[pos + 3]), pos + 4));
  }

  method Answer(query: Bytes, lookup: Bytes -> Option<Ipv4>) returns (reply: Option<Bytes>)
    ensures reply == Reply(query, lookup)
  {
    var read := ReadQuery(query);
    if read.None? {
      return None;
    }
    var question := read.value;
    var (rcode, addr) := Resolve(Opcode(Flags(query)), question, lookup);
    var out := query[0..2];
    out := out + Be16(ReplyFlags(Flags(query), rcode));
    out := out + Be16(1);
    out := out + Be16(if addr.Some? then 1 else 0);
    out := out + Be16(0);
    out := out + Be16(0);
    out := out + query[12..question.end];
    if addr.Some? {
      out := out + Record(addr.value);
    }
    return Some(out);
  }

  /** QR and AA set, the query's opcode and RD, the response code. */
  function ReplyFlags(f: Word16, rcode: int): Word16
    requires 0 <= rcode < 16
  {
    0x8000 + Opcode(f) * 0x800 + 0x400 + (if Rd(f) then 0x100 else 0) + rcode
  }

  function Reply(q: Bytes, lookup: Bytes -> Option<Ipv4>): Option<Bytes>
  {
    match ParseQuery(q)
    case None => None
    case Some(n) =>
      var (rcode, addr) := Resolve(Opcode(Flags(q)), n, lookup);
      var count := if addr.Some? then 1 else 0;
      var body := q[0..2] + Be16(ReplyFlags(Flags(q), rcode)) + Be16(1) + Be16(count) + Be16(0) + Be16(0)
          + q[12..n.end];
      Some(if addr.Some? then body + Record(addr.value) else body)
  }

  /**
   Any reply echoes the ID, the opcode, RD and the question, sets QR and AA, clears TC, and
   is as long as the question end plus one record per answer; fed back, it is dropped.
   */
  lemma {:induction false} ReplyShape(q: Bytes, lookup: Bytes -> Option<Ipv4>, other: Bytes -> Option<Ipv4>)
    ensures Reply(q, lookup).Some? ==>
              var r := Reply(q, lookup).value;
              var n := ParseQuery(q).value;
              var (rcode, addr) := Resolve(Opcode(Flags(q)), n, lookup);
              var f := Flags(r);
              && |r| == n.end + (if addr.Some? then 16 else 0)
              && r[0..2] == q[0..2]
              && Qr(f) && Aa(f) && !Tc(f)
              && Opcode(f) == Opcode(Flags(q)) && (Rd(f) <==> Rd(Flags(q))) && Rcode(f) == rcode
              && r[4..12] == [0, 1, 0, if addr.Some? then 1 else 0, 0, 0, 0, 0]
              && r[12..n.end] == q[12..n.end]
              && r[n.end..] == (if addr.Some? then Record(addr.value) else [])
              && Reply(r, other) == None
  {
    if Reply(q, lookup).Some? {
      var n := ParseQuery(q).value;
      var (rcode, addr) := Resolve(Opcode(Flags(q)), n, lookup);
      ReplyFlagsFields(Flags(q), rcode);
    }
  }

  lemma {:induction false} ReplyFlagsFields(f: Word16, rcode: int)
    requires 0 <= rcode < 16
    ensures var g := ReplyFlags(f, rcode);
            && U16(Be16(g)[0], Be16(g)[1]) == g
            && Qr(g) && Aa(g) && !Tc(g) && (Rd(g) <==> Rd(f))
            && Opcode(g) == Opcode(f) && Rcode(g) == rcode && g / 0x10 % 16 == 0
  {
    var g, op := ReplyFlags(f, rcode), Opcode(f);
    assert g / 0x100 == 0x84 + op * 8 + (if Rd(f) then 1 else 0);
    assert g / 0x200 == 0x42 + op * 4;
    assert g / 0x400 == 0x21 + op * 2;
    assert g / 0x800 == 16 + op;
  }

  // ---- the wire form of a name, and the parser against it ----

  /** Section 3.1 of RFC 1035: each label with its length in front, then the root label. */
  function Wire(labels: seq<Bytes>): Bytes
    requires forall i :: 0 <= i < |labels| ==> 1 <= |labels[i]| <= 63
    decreases |labels|
  {
    if labels == [] then [0] else [|labels[0]|] + labels[0] + Wire(labels[1..])
  }

  ghost predicate WireLabels(raw: seq<Bytes>)
  {
    forall i :: 0 <= i < |raw| ==> 1 <= |raw[i]| <= 63 && ValidUtf8(Lower(raw[i]))
  }

  function LowerAll(raw: seq<Bytes>): (r: seq<Bytes>)
    ensures |r| == |raw|
  {
    seq(|raw|, i requires 0 <= i < |raw| => Lower(raw[i]))
  }

  lemma {:induction false} LowerAllCons(x: Bytes, xs: seq<Bytes>)
    ensures LowerAll([x] + xs) == [Lower(x)] + LowerAll(xs)
  {
  }

  /** Complete: what encodes labels is read back as those labels, lowercased. */
  lemma {:induction false} ParseComplete(before: Bytes, raw: seq<Bytes>, after: Bytes)
    requires WireLabels(raw)
    ensures ParseName(before + Wire(raw) + after, |before|) == Some((LowerAll(raw), |before| + |Wire(raw)|))
  {
    ParseAt(before + Wire(raw) + after, |before|, raw);
  }

  /** The encoding of the labels sits at `pos`. */
  ghost predicate WireAt(q: Bytes, pos: nat, raw: seq<Bytes>)
    requires WireLabels(raw)
  {
    pos + |Wire(raw)| <= |q| && q[pos..pos + |Wire(raw)|] == Wire(raw)
  }

  lemma {:induction false} ParseAt(q: Bytes, pos: nat, raw: seq<Bytes>)
    requires WireLabels(raw) && WireAt(q, pos, raw)
    ensures ParseName(q, pos) == Some((LowerAll(raw), pos + |Wire(raw)|))
    decreases |raw|
  {
    if raw == [] {
      assert q[pos] == Wire(raw)[0] && LowerAll(raw) == [];
    } else {
      FirstLabel(q, pos, raw);
      ParseAt(q, pos + 1 + |raw[0]|, raw[1..]);
      ParseLabel(q, pos, raw[0], LowerAll(raw[1..]), pos + |Wire(raw)|);
      LowerAllFirst(raw);
    }
  }

  lemma {:induction false} LowerAllFirst(raw: seq<Bytes>)
    requires raw != []
    ensures LowerAll(raw) == [Lower(raw[0])] + LowerAll(raw[1..])
  {
    assert raw == [raw[0]] + raw[1..];
    LowerAllCons(raw[0], raw[1..]);
  }

  /** The first label of an encoded name, and the rest of the name after it. */
  lemma {:induction false} FirstLabel(q: Bytes, pos: nat, raw: seq<Bytes>)
    requires raw != [] && WireLabels(raw) && WireAt(q, pos, raw)
    ensures var n := |raw[0]|;
            && pos + 1 + n <= |q| && q[pos] == n && q[pos + 1..pos + 1 + n] == raw[0]
            && |Wire(raw)| == 1 + n + |Wire(raw[1..])| && WireAt(q, pos + 1 + n, raw[1..])
  {
    var n, w := |raw[0]|, Wire(raw);
    assert w[0] == n && w[1..1 + n] == raw[0] && w[1 + n..] == Wire(raw[1..]);
    assert forall i :: 0 <= i < |w| ==> q[pos + i] == w[i];
  }

  /** One label is read, then the rest of the name. */
  lemma {:induction false} ParseLabel(q: Bytes, pos: nat, raw: Bytes, labels: seq<Bytes>, end: nat)
    requires 0 < |raw| <= 63 && ValidUtf8(Lower(raw)) && pos + 1 + |raw| <= |q|
    requires q[pos] == |raw| && q[pos + 1..pos + 1 + |raw|] == raw
    requires ParseName(q, pos + 1 + |raw|) == Some((labels, end))
    ensures ParseName(q, pos) == Some(([Lower(raw)] + labels, end))
  {
  }

  /** Sound: whatever parses is the encoding of some labels. */
  lemma {:induction false} ParseSound(q: Bytes, pos: nat) returns (raw: seq<Bytes>)
    requires ParseName(q, pos).Some?
    ensures WireLabels(raw)
    ensures ParseName(q, pos).value.0 == LowerAll(raw)
    ensures q[pos..ParseName(q, pos).value.1] == Wire(raw)
    decreases |q| - pos
  {
    var len := q[pos];
    if len == 0 {
      raw := [];
    } else {
      var next := pos + 1 + len;
      var rest := ParseSound(q, next);
      var end := ParseName(q, pos).value.1;
      raw := [q[pos + 1..next]] + rest;
      assert raw[1..] == rest;
      LowerAllCons(raw[0], rest);
      assert q[pos..end] == [len] + q[pos + 1..next] + q[next..end];
    }
  }

  /** A query message: an ID, flags, the other three counts, one question, then anything. */
  datatype Query = Query(id: Bytes, flags: Word16, counts: Bytes, raw: seq<Bytes>, qtype: Word16, qclass: Word16,
                         extra: Bytes)

  ghost predicate IsQuery(m: Query)
  {
    |m.id| == 2 && |m.counts| == 6 && WireLabels(m.raw) && !Qr(m.flags)
  }

  ghost function Encode(m: Query): Bytes
    requires IsQuery(m)
  {
    (m.id + Be16(m.flags) + Be16(1) + m.counts) + Wire(m.raw) + (Be16(m.qtype) + Be16(m.qclass) + m.extra)
  }

  lemma {:induction false} QueryParses(m: Query)
    requires IsQuery(m)
    ensures |Encode(m)| >= 12 && Flags(Encode(m)) == m.flags
    ensures ParseQuery(Encode(m)) == Some(Question(Join(LowerAll(m.raw)), m.qtype, m.qclass, 16 + |Wire(m.raw)|))
  {
    var q := Encode(m);
    var header := m.id + Be16(m.flags) + Be16(1) + m.counts;
    var tail := Be16(m.qtype) + Be16(m.qclass) + m.extra;
    ParseComplete(header, m.raw, tail);
    var end := 12 + |Wire(m.raw)|;
    assert q[end..] == tail;
    assert q[end] == tail[0] && q[end + 1] == tail[1] && q[end + 2] == tail[2] && q[end + 3] == tail[3];
  }

  lemma {:induction false} Pieces(q: Bytes, e: nat)
    requires 12 <= e && e + 4 <= |q|
    ensures q == (q[0..2] + [q[2], q[3]] + [q[4], q[5]] + q[6..12]) + q[12..e]
                 + ([q[e], q[e + 1]] + [q[e + 2], q[e + 3]] + q[e + 4..])
  {
  }

  lemma {:induction false} ParsedIsQuery(q: Bytes) returns (m: Query)
    requires ParseQuery(q).Some?
    ensures IsQuery(m) && Encode(m) == q
  {
    var n := ParseQuery(q).value;
    var raw := ParseSound(q, 12);
    var e := n.end - 4;
    Be16OfU16(q[2], q[3]);
    Be16OfU16(q[4], q[5]);
    Be16OfU16(q[e], q[e + 1]);
    Be16OfU16(q[e + 2], q[e + 3]);
    Pieces(q, e);
    m := Query(q[0..2], Flags(q), q[6..12], raw, n.qtype, n.qclass, q[e + 4..]);
  }

  /** A message is answered exactly when it encodes a query with one well-formed question. */
  lemma {:induction false} AnsweredIffQuery(q: Bytes, lookup: Bytes -> Option<Ipv4>)
    ensures Reply(q, lookup).Some? <==> exists m :: IsQuery(m) && Encode(m) == q
  {
    if ParseQuery(q).Some? {
      var m := ParsedIsQuery(q);
    }
    forall m | IsQuery(m) && Encode(m) == q ensures ParseQuery(q).Some? {
      QueryParses(m);
    }
  }

  /** An A/IN query for a name with an address gets NOERROR and one record with that address. */
  lemma {:induction false} AddressReply(m: Query, lookup: Bytes -> Option<Ipv4>)
    requires IsQuery(m) && Opcode(m.flags) == 0 && m.qtype == TYPE_A && m.qclass == CLASS_IN
    requires lookup(Join(LowerAll(m.raw))).Some?
    ensures var r := Reply(Encode(m), lookup);
            && r.Some? && |r.value| >= 28 && Rcode(Flags(r.value)) == 0
            && r.value[|r.value| - 16..] == Record(lookup(Join(LowerAll(m.raw))).value)
  {
    QueryParses(m);
    ReplyShape(Encode(m), lookup, lookup);
  }

  /** NOTIMP for an opcode other than 0, NXDOMAIN for a name without an address, NOERROR otherwise. */
  function RcodeFor(opcode: int, found: Option<Ipv4>): Octet { if opcode != 0 then 4 else if found.None? then 3 else 0 }

  /** The reply after the ID and the flags: one question, as it came, and at most one A record of 30 seconds. */
  function ReplyRest(question: Bytes, given: Option<Ipv4>): Bytes
  {
    [0, 1, 0, if given.Some? then 1 else 0, 0, 0, 0, 0] + question
        + if given.Some? then [0xC0, 12, 0, 1, 0, 1, 0, 0, 0, 30, 0, 4] + Octets(given.value) else []
  }

  /**
   The reply to every query, octet by octet: the ID, the flags, the question as it came, and a record if an A/IN
   query with opcode 0 found an address.
   */
  lemma {:induction false} ReplyExact(m: Query, lookup: Bytes -> Option<Ipv4>)
    requires IsQuery(m)
    ensures var found := lookup(Join(LowerAll(m.raw)));
            var given := if Opcode(m.flags) == 0 && m.qtype == 1 && m.qclass == 1 then found else None;
            Reply(Encode(m), lookup)
              == Some(m.id + Be16(ReplyFlags(m.flags, RcodeFor(Opcode(m.flags), found)))
                      + ReplyRest(Wire(m.raw) + Be16(m.qtype) + Be16(m.qclass), given))
  {
    QueryParses(m);
    QueryParts(m);
    var found := lookup(Join(LowerAll(m.raw)));
    var n := Question(Join(LowerAll(m.raw)), m.qtype, m.qclass, 16 + |Wire(m.raw)|);
    var (rcode, addr) := Resolve(Opcode(m.flags), n, lookup);
    Assembled(m.id, ReplyFlags(m.flags, rcode), Wire(m.raw) + Be16(m.qtype) + Be16(m.qclass), addr);
  }

  lemma {:induction false} QueryParts(m: Query)
    requires IsQuery(m)
    ensures var q, n := Encode(m), 16 + |Wire(m.raw)|;
            n <= |q| && q[0..2] == m.id && q[12..n] == Wire(m.raw) + Be16(m.qtype) + Be16(m.qclass)
  {
  }

  lemma {:induction false} Assembled(id: Bytes, flags: Word16, question: Bytes, addr: Option<Ipv4>)
    ensures var count := if addr.Some? then 1 else 0;
            var body := id + Be16(flags) + Be16(1) + Be16(count) + Be16(0) + Be16(0) + question;
            (if addr.Some? then body + Record(addr.value) else body) == id + Be16(flags) + ReplyRest(question, addr)
  {
    var count: Octet := if addr.Some? then 1 else 0;
    assert Be16(1) + Be16(count) + Be16(0) + Be16(0) == [0, 1, 0, count, 0, 0, 0, 0];
    if addr.Some? {
      assert Record(addr.value) == [0xC0, 12, 0, 1, 0, 1, 0, 0, 0, 30, 0, 4] + Octets(addr.value);
    }
  }

  lemma {:induction false} Be16OfU16(hi: Octet, lo: Octet)
    ensures Be16(U16(hi, lo)) == [hi, lo]
  {
  }

  // ---- names in any letter case ----

  lemma {:induction false} LowerCons(a: Octet, s: Bytes)
    ensures Lower([a] + s) == [LowerOctet(a)] + Lower(s)
  {
  }

  lemma {:induction false} LowerFirst(a: Octet, labels: seq<Bytes>)
    requires labels != []
    ensures LowerAll([[a] + labels[0]] + labels[1..]) == [[LowerOctet(a)] + LowerAll(labels)[0]] + LowerAll(labels)[1..]
  {
    LowerCons(a, labels[0]);
    LowerAllCons([a] + labels[0], labels[1..]);
    LowerAllCons(labels[0], labels[1..]);
    assert labels == [labels[0]] + labels[1..];
  }

  lemma {:induction false} LowerSplit(s: Bytes)
    ensures Split(Lower(s)) == LowerAll(Split(s))
  {
    if s != [] {
      assert s == [s[0]] + s[1..];
      LowerCons(s[0], s[1..]);
      LowerSplit(s[1..]);
      if s[0] == DOT {
        LowerAllCons([], Split(s[1..]));
      } else {
        LowerFirst(s[0], Split(s[1..]));
      }
    }
  }

  lemma {:induction false} AsciiIsUtf8(s: Bytes)
    requires forall i :: 0 <= i < |s| ==> s[i] < 0x80
    ensures ValidUtf8(s)
  {
    if s != [] { AsciiIsUtf8(s[1..]); }
  }

  /** However its letters are cased, a valid name goes on the wire and is looked up as itself. */
  lemma {:induction false} NameRoundTrip(name: Bytes, cased: Bytes)
    requires IsResourceName(name) && Lower(cased) == name
    ensures WireLabels(Split(cased)) && Join(LowerAll(Split(cased))) == name
  {
    LowerSplit(cased);
    JoinSplit(name);
    var raw, labels := Split(cased), Split(name);
    forall i | 0 <= i < |raw| ensures 1 <= |raw[i]| <= 63 && ValidUtf8(Lower(raw[i])) {
      assert labels[i] == Lower(raw[i]) && IsLabel(labels[i]);
      AsciiIsUtf8(labels[i]);
    }
  }
}

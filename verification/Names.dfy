/**
 Resource addresses as text: labels, DNS-name resources and IPv4 literals
 (`is_resource_name` and the parse in `resource_ipv4`, client/src/name_map.rs).

 Text is a sequence of UTF-8 octets, as the hash and the DNS wire format see it.
 */
module Names {
  import opened Common

  const DOT: Octet := 46
  const HYPHEN: Octet := 45

  /** `str::split('.')`: one label more than there are dots. */
  function Split(s: Bytes): (labels: seq<Bytes>)
    ensures |labels| >= 1
  {
    if s == [] then
      [[]]
    else
      var rest := Split(s[1..]);
      if s[0] == DOT then [[]] + rest else [[s[0]] + rest[0]] + rest[1..]
  }

  /** `labels.join(".")` */
  function Join(labels: seq<Bytes>): Bytes
  {
    if labels == [] then []
    else if |labels| == 1 then labels[0]
    else labels[0] + [DOT] + Join(labels[1..])
  }

  lemma {:induction false} JoinSplit(s: Bytes)
    ensures Join(Split(s)) == s
    ensures forall i :: 0 <= i < |Split(s)| ==> DOT !in Split(s)[i]
  {
    if s != [] {
      var rest := Split(s[1..]);
      JoinSplit(s[1..]);
      assert Join(rest) == s[1..];
      if s[0] == DOT {
        assert ([[]] + rest)[1..] == rest;
        assert s == [DOT] + s[1..];
      } else {
        var labels := [[s[0]] + rest[0]] + rest[1..];
        assert labels[1..] == rest[1..];
        assert s == [s[0]] + s[1..];
        if |rest| > 1 {
          assert [s[0]] + (rest[0] + [DOT] + Join(rest[1..])) == ([s[0]] + rest[0]) + [DOT] + Join(rest[1..]);
        }
      }
    }
  }

  lemma {:induction false} SplitSingle(head: Bytes)
    requires DOT !in head
    ensures Split(head) == [head]
  {
    if head != [] {
      SplitSingle(head[1..]);
      assert [head[0]] + head[1..] == head;
    }
  }

  lemma {:induction false} SplitCons(head: Bytes, rest: Bytes)
    requires DOT !in head
    ensures Split(head + [DOT] + rest) == [head] + Split(rest)
  {
    if head == [] {
      assert ([] + [DOT] + rest)[1..] == rest;
    } else {
      SplitCons(head[1..], rest);
      assert (head + [DOT] + rest)[1..] == head[1..] + [DOT] + rest;
      assert [head[0]] + head[1..] == head;
      assert ([head[1..]] + Split(rest))[1..] == Split(rest);
    }
  }

  /** Labels without dots survive being joined and split again. */
  lemma {:induction false} SplitJoin(labels: seq<Bytes>)
    requires labels != []
    requires forall i :: 0 <= i < |labels| ==> DOT !in labels[i]
    ensures Split(Join(labels)) == labels
  {
    if |labels| == 1 {
      SplitSingle(labels[0]);
    } else {
      SplitJoin(labels[1..]);
      SplitCons(labels[0], Join(labels[1..]));
    }
  }

  predicate IsLower(c: Octet) { 97 <= c <= 122 }
  predicate IsDigit(c: Octet) { 48 <= c <= 57 }
  predicate IsLdh(c: Octet) { IsLower(c) || IsDigit(c) || c == HYPHEN }

  /** A lowercase letter-digit-hyphen label. */
  predicate IsLabel(l: Bytes)
  {
    && 1 <= |l| <= 63
    && l[0] != HYPHEN
    && l[|l| - 1] != HYPHEN
    && forall i :: 0 <= i < |l| ==> IsLdh(l[i])
  }

  /**
   A DNS name this client maps. The source also rejects text that parses as an IPv6
   address; such text contains a colon, which no label admits.
   */
  predicate IsResourceName(address: Bytes)
  {
    && 1 <= |address| <= 253
    && ParseIpv4(address).None?
    && var labels := Split(address);
       && |labels| >= 2
       && (forall i :: 0 <= i < |labels| ==> IsLabel(labels[i]))
       && var last := labels[|labels| - 1];
          exists i :: 0 <= i < |last| && IsLower(last[i])
  }

  function Digit(c: Octet): int { c - 48 }

  /** One decimal octet without a leading zero, as `Ipv4Addr`'s parser accepts it. */
  function ParseOctet(l: Bytes): Option<Octet>
  {
    if (exists i :: 0 <= i < |l| && !IsDigit(l[i])) || !(1 <= |l| <= 3) || (|l| > 1 && l[0] == 48) then None
    else
      var v := if |l| == 1 then Digit(l[0])
               else if |l| == 2 then Digit(l[0]) * 10 + Digit(l[1])
               else Digit(l[0]) * 100 + Digit(l[1]) * 10 + Digit(l[2]);
      if 0 <= v < 256 then Some(v) else None
  }

  function ParseIpv4(address: Bytes): Option<Ipv4>
  {
    var l := Split(address);
    if |l| != 4 then None
    else
      match (ParseOctet(l[0]), ParseOctet(l[1]), ParseOctet(l[2]), ParseOctet(l[3]))
      case (Some(a), Some(b), Some(c), Some(d)) => Some(Address(a, b, c, d))
      case _ => None
  }

  function PrintOctet(o: Octet): Bytes
  {
    if o < 10 then [48 + o]
    else if o < 100 then [48 + o / 10, 48 + o % 10]
    else [48 + o / 100, 48 + o / 10 % 10, 48 + o % 10]
  }

  /** `Ipv4Addr::to_string` */
  function PrintIpv4(ip: Ipv4): Bytes
  {
    var o := Octets(ip);
    Join([PrintOctet(o[0]), PrintOctet(o[1]), PrintOctet(o[2]), PrintOctet(o[3])])
  }

  lemma {:induction false} PrintOctetParses(o: Octet)
    ensures ParseOctet(PrintOctet(o)) == Some(o)
    ensures DOT !in PrintOctet(o)
  {
  }

  /** A printed address reads back as itself and is never mistaken for a name. */
  lemma {:induction false} PrintIpv4Parses(ip: Ipv4)
    ensures ParseIpv4(PrintIpv4(ip)) == Some(ip)
    ensures !IsResourceName(PrintIpv4(ip))
  {
    var o := Octets(ip);
    var labels := [PrintOctet(o[0]), PrintOctet(o[1]), PrintOctet(o[2]), PrintOctet(o[3])];
    forall i | 0 <= i < 4 ensures DOT !in labels[i] { PrintOctetParses(o[i]); }
    SplitJoin(labels);
    PrintOctetParses(o[0]);
    PrintOctetParses(o[1]);
    PrintOctetParses(o[2]);
    PrintOctetParses(o[3]);
  }
}

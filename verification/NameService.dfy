/**
 The name service end to end: a DNS query in any letter case, the reply's address, and the
 destination the tunnel request carries for that address at any later time.
 */
module NameService {
  import opened Common
  import opened Names
  import opened Texts
  import opened NameMapModel
  import opened Dns

  /**
   An A query for an active name, in any letter case, is answered with the name's address.
   Whatever happens to the map after the reply, a connection to the address in it is
   tunnelled to the queried name.
   */
  lemma {:induction false} QueryToDestination(before: seq<Call>, after: seq<Call>, name: Bytes, cased: Bytes, m: Query)
    requires IsResourceName(name) && Lower(cased) == name
    requires AnswerA(Run(EMPTY, before), name).Some?
    requires IsQuery(m) && m.raw == Split(cased)
    requires Opcode(m.flags) == 0 && m.qtype == TYPE_A && m.qclass == CLASS_IN
    ensures var st := Run(EMPTY, before);
            var r := Reply(Encode(m), n => AnswerA(st, n));
            && r.Some? && |r.value| >= 28 && Rcode(Flags(r.value)) == 0
            && var o := r.value[|r.value| - 4..];
               DestinationFor(Run(st, after), Address(o[0], o[1], o[2], o[3])) == name
  {
    var st := Run(EMPTY, before);
    var lookup := n => AnswerA(st, n);
    NameRoundTrip(name, cased);
    AddressReply(m, lookup);
    AnswerMapsBack(before, name, after);
    var r := Reply(Encode(m), lookup).value;
    RecordAddress(r, AnswerA(st, name).value);
  }

  lemma {:induction false} RecordAddress(r: Bytes, ip: Ipv4)
    requires |r| >= 28 && r[|r| - 16..] == Record(ip)
    ensures r[|r| - 4..] == Octets(ip)
  {
  }

  /** The text with some of its letters in upper case. */
  function Cased(name: Bytes, upper: nat -> bool): (r: Bytes)
    ensures |r| == |name|
  {
    seq(|name|, i requires 0 <= i < |name| => if 97 <= name[i] <= 122 && upper(i) then name[i] - 32 else name[i])
  }

  /** The queries that reach a resource name are its casings, all of them and no others. */
  lemma {:induction false} CasingsReachName(name: Bytes, cased: Bytes)
    requires IsResourceName(name)
    ensures Lower(cased) == name <==> exists upper: nat -> bool :: cased == Cased(name, upper)
  {
    NameIff(name);
    if Lower(cased) == name {
      var upper: nat -> bool := (i: nat) => i < |cased| && i < |name| && cased[i] != name[i];
      forall i | 0 <= i < |name| ensures Cased(name, upper)[i] == cased[i] {
        assert name[i] == LowerOctet(cased[i]);
      }
      assert cased == Cased(name, upper);
    }
    if upper: nat -> bool :| cased == Cased(name, upper) {
      forall i | 0 <= i < |name| ensures Lower(cased)[i] == name[i] {
        assert 97 <= name[i] <= 122 || 48 <= name[i] <= 57 || name[i] == 45 || name[i] == 46;
      }
    }
  }

  /** Every resource name has such queries: its labels, however cased, fit the wire form. */
  lemma {:induction false} EveryNameCanBeQueried(name: Bytes, cased: Bytes, id: Bytes, counts: Bytes, extra: Bytes)
    requires IsResourceName(name) && Lower(cased) == name && |id| == 2 && |counts| == 6
    ensures IsQuery(Query(id, 0x100, counts, Split(cased), TYPE_A, CLASS_IN, extra))
  {
    NameRoundTrip(name, cased);
  }
}

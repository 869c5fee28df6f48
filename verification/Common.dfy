/** Types shared by every component of the client model. */
module Common {
  datatype Option<+T> = None | Some(value: T)

  /** One octet. Byte strings and DNS names are sequences of octets. */
  type Octet = x: int | 0 <= x < 256
  type Bytes = seq<Octet>

  /** An IPv4 address as its 32-bit value, and a TCP port. */
  type Ipv4 = x: int | 0 <= x < 0x1_0000_0000
  type Port = x: int | 0 <= x < 65536

  /** A captured resource: `(Ipv4Addr, u16)` in the client. */
  type ResourceKey = (Ipv4, Port)

  function Address(a: Octet, b: Octet, c: Octet, d: Octet): (ip: Ipv4)
  {
    (a * 256 + b) * 0x1_0000 + (c * 256 + d)
  }

  /** The big-endian octets of an address. */
  function Octets(ip: Ipv4): (o: Bytes)
    ensures |o| == 4 && Address(o[0], o[1], o[2], o[3]) == ip
  {
    var hi, lo := ip / 0x1_0000, ip % 0x1_0000;
    [hi / 256, hi % 256, lo / 256, lo % 256]
  }

  lemma {:induction false} OctetsOf(a: Octet, b: Octet, c: Octet, d: Octet)
    ensures Octets(Address(a, b, c, d)) == [a, b, c, d]
  {
    var hi, lo := a * 256 + b, c * 256 + d;
    var ip := Address(a, b, c, d);
    assert ip / 0x1_0000 == hi && ip % 0x1_0000 == lo;
  }
}

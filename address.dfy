/** IPv4 addresses as the device handles them: 32-bit words (ULONG) assembled by
    NetX's IP_ADDRESS(a, b, c, d) macro and split back into dotted-quad octets by
    print_address (wwd_networking.c). */
module Address {

  /** An IPv4 address as NetX stores it, in host order. */
  type Word = bv32

  /** The four octets of a dotted-quad address, most significant first. */
  datatype Octets = Octets(a: bv8, b: bv8, c: bv8, d: bv8)

  /** NetX's IP_ADDRESS(a, b, c, d): (a << 24) | (b << 16) | (c << 8) | d. */
  function IpAddress(q: Octets): (address: Word)
    ensures address >> 24 == q.a as Word
    ensures address & 0xFF == q.d as Word
  {
    (q.a as Word << 24) | (q.b as Word << 16) | (q.c as Word << 8) | q.d as Word
  }

  /** The uint8_t cast of the C code: keep the low eight bits. */
  function Byte(x: Word): bv8
  {
    (x & 0xFF) as bv8
  }

  /** The octets print_address prints: bits 31-24, 23-16, 15-8 and 7-0 of the
      address, each cut to a byte. */
  function PrintedOctets(address: Word): Octets
  {
    Octets(Byte(address >> 24), Byte((address >> 16) & 0xFF), Byte((address >> 8) & 0xFF), Byte(address & 0xFF))
  }

  /** Printing an address and reassembling the printed octets gives the address
      back: the octets are extracted big-endian and none is lost. */
  lemma PrintedOctetsRoundTrip(address: Word)
    ensures IpAddress(PrintedOctets(address)) == address
  {
  }

  /** The octets printed for IP_ADDRESS(a, b, c, d) are a, b, c and d, in that order. */
  lemma IpAddressPrintsItsOctets(q: Octets)
    ensures PrintedOctets(IpAddress(q)) == q
  {
  }
}

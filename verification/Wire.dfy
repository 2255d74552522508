/**
 Byte order between the kernel hooks and the user-space agent. Addresses and ports sit in
 the maps as network-order bytes read by a little-endian machine; shifts and masks are
 written as arithmetic on bounded integers.
 */
module Wire {
  import opened Wrappers

  type byte = x: int | 0 <= x < 256
  type u16 = x: int | 0 <= x < 0x1_0000
  type u32 = x: int | 0 <= x < 0x1_0000_0000

  type IPv4 = b: seq<byte> | |b| == 4 witness [0, 0, 0, 0]
  type IPv6 = b: seq<byte> | |b| == 16 witness seq(16, _ => 0)

  /** Four 32-bit words; an IPv4 address lives in the first, the others zero. */
  datatype Words = Words(w0: u32, w1: u32, w2: u32, w3: u32)

  /** Swap the two bytes of a port. */
  function Htons(p: u16): u16 { (p % 256) * 256 + p / 256 }

  function PackWord(b0: byte, b1: byte, b2: byte, b3: byte): u32 {
    b0 + 0x100 * b1 + 0x1_0000 * b2 + 0x100_0000 * b3
  }

  function UnpackWord(v: u32): IPv4 {
    [v % 256, v / 0x100 % 256, v / 0x1_0000 % 256, v / 0x100_0000 % 256]
  }

  function IpToBE(ip: IPv4): u32 { PackWord(ip[0], ip[1], ip[2], ip[3]) }

  function Ip6ToBE(ip: IPv6): Words {
    Words(PackWord(ip[0], ip[1], ip[2], ip[3]), PackWord(ip[4], ip[5], ip[6], ip[7]),
          PackWord(ip[8], ip[9], ip[10], ip[11]), PackWord(ip[12], ip[13], ip[14], ip[15]))
  }

  function Words6ToIP(w: Words): IPv6 {
    UnpackWord(w.w0) + UnpackWord(w.w1) + UnpackWord(w.w2) + UnpackWord(w.w3)
  }

  const MAPPED_PREFIX: seq<byte> := [0, 0, 0, 0, 0, 0, 0, 0, 0, 0, 255, 255]

  /** The IPv4-mapped form of section 2.5.5.2 of RFC 4291, which is also the parsed and
      printed form of an IPv4 address. */
  function V4Mapped(ip: IPv4): IPv6 { MAPPED_PREFIX + ip }

  function To4(ip: IPv6): Option<IPv4> {
    if ip[..12] == MAPPED_PREFIX then Some(ip[12..]) else None
  }

  lemma HtonsInvolution(p: u16)
    ensures Htons(Htons(p)) == p
  {
    var lo, hi := p % 256, p / 256;
    assert 0 <= hi < 256 && Htons(p) == lo * 256 + hi;
    assert Htons(p) % 256 == hi && Htons(p) / 256 == lo;
  }

  lemma PackUnpack(v: u32)
    ensures IpToBE(UnpackWord(v)) == v
  {
    var a := v / 0x100;
    var b := a / 0x100;
    var c := b / 0x100;
    assert v / 0x1_0000 == b;
    assert v / 0x100_0000 == c;
    assert c < 0x100;
    assert v == v % 256 + 0x100 * a && a == a % 256 + 0x100 * b && b == b % 256 + 0x100 * c;
  }

  lemma UnpackPack(b0: byte, b1: byte, b2: byte, b3: byte)
    ensures UnpackWord(PackWord(b0, b1, b2, b3)) == [b0, b1, b2, b3]
  {
    var v := PackWord(b0, b1, b2, b3);
    assert v / 0x100 == b1 + 0x100 * b2 + 0x1_0000 * b3;
    assert v / 0x1_0000 == b2 + 0x100 * b3;
    assert v / 0x100_0000 == b3;
  }

  /** Both directions of the 128-bit packing are inverse. */
  lemma Words6RoundTrip(ip: IPv6, w: Words)
    ensures Words6ToIP(Ip6ToBE(ip)) == ip
    ensures Ip6ToBE(Words6ToIP(w)) == w
  {
    UnpackPack(ip[0], ip[1], ip[2], ip[3]);
    UnpackPack(ip[4], ip[5], ip[6], ip[7]);
    UnpackPack(ip[8], ip[9], ip[10], ip[11]);
    UnpackPack(ip[12], ip[13], ip[14], ip[15]);
    var back := Words6ToIP(Ip6ToBE(ip));
    assert forall i :: 0 <= i < 16 ==> back[i] == ip[i];
    PackUnpack(w.w0);
    PackUnpack(w.w1);
    PackUnpack(w.w2);
    PackUnpack(w.w3);
  }

  lemma MappedRoundTrip(ip: IPv4)
    ensures To4(V4Mapped(ip)) == Some(ip)
  {
    assert V4Mapped(ip)[..12] == MAPPED_PREFIX && V4Mapped(ip)[12..] == ip;
  }

  /** The swap really swaps: high and low byte change places. */
  lemma HtonsSwaps(hi: byte, lo: byte)
    ensures Htons(256 * hi + lo) == 256 * lo + hi
  {
    var p := 256 * hi + lo;
    assert p % 256 == lo && p / 256 == hi;
  }

  /** Network order as a little-endian word: 127.0.0.1 is 0x0100007F, and port 53 is 0x3500. */
  lemma NetworkOrder()
    ensures IpToBE([127, 0, 0, 1]) == 0x0100_007F && Htons(53) == 0x3500
  {
  }
}

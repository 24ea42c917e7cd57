/**
 The two byte strings the station emits: the frame it writes into the tun
 device for a tagged flow, and the 32-byte message it publishes for a newly
 tagged flow (seed, then the chosen address as IPv6 octets, an IPv4 address
 in the IPv4-mapped form of section 2.5.5.2 of RFC 4291).
 */
module Encode {
  import opened Net

  /** The link-layer header the tun device expects in front of an injected IP packet. */
  const TUN_HEADER: seq<byte> := [0x00, 0x01, 0x08, 0x00]

  /** The bytes `forward_pkt` hands to the tun device. */
  function TunFrame(ipBytes: seq<byte>): (f: seq<byte>)
    ensures |f| == |ipBytes| + |TUN_HEADER|
  {
    TUN_HEADER + ipBytes
  }

  /** What the tun device takes off an injected frame. */
  function StripTunHeader(f: seq<byte>): Option<seq<byte>>
  {
    if |f| >= |TUN_HEADER| && f[..|TUN_HEADER|] == TUN_HEADER then Some(f[|TUN_HEADER|..]) else None
  }

  /** The tun device recovers the IP packet bit for bit. */
  lemma TunFrameRoundTrip(ipBytes: seq<byte>)
    ensures StripTunHeader(TunFrame(ipBytes)) == Some(ipBytes)
  {
    assert TunFrame(ipBytes)[..|TUN_HEADER|] == TUN_HEADER;
    assert TunFrame(ipBytes)[|TUN_HEADER|..] == ipBytes;
  }

  /** The seed the decode primitive recovers from a tagged payload. */
  type Seed = s: seq<byte> | |s| == 16 witness seq(16, _ => 0)

  const MAPPED_PREFIX: seq<byte> := [0, 0, 0, 0, 0, 0, 0, 0, 0, 0, 0xff, 0xff]

  /** ::ffff:a.b.c.d, section 2.5.5.2 of RFC 4291. */
  predicate IsV4Mapped(o: Octets16)
  {
    o[..12] == MAPPED_PREFIX
  }

  /** The 16 octets `check_dark_decoy_tag` puts after the seed. */
  function Ipv6Octets(a: IpAddr): (o: Octets16)
    ensures a.V6? ==> o == a.v6
    ensures a.V4? ==> IsV4Mapped(o) && o[12..] == a.v4
  {
    match a
    case V6(o6) => o6
    case V4(o4) => MAPPED_PREFIX + o4
  }

  /** How a receiver reads the 16 octets back as an address. */
  function AddrFromOctets(o: Octets16): IpAddr
  {
    if IsV4Mapped(o) then IpAddr.V4(o[12..]) else IpAddr.V6(o)
  }

  /**
   The address comes back unchanged exactly when it is not an IPv6 address
   that is itself IPv4-mapped: such an address and its IPv4 counterpart
   produce the same octets.
   */
  lemma Ipv6OctetsRoundTrip(a: IpAddr)
    ensures AddrFromOctets(Ipv6Octets(a)) == a <==> !(a.V6? && IsV4Mapped(a.v6))
  {
    if a.V6? && IsV4Mapped(a.v6) {
      assert AddrFromOctets(Ipv6Octets(a)).V4?;
    }
  }

  lemma MappedAddressesCollide(o4: Octets4)
    ensures Ipv6Octets(IpAddr.V4(o4)) == Ipv6Octets(IpAddr.V6(Ipv6Octets(IpAddr.V4(o4))))
  {
  }

  const TAG_MESSAGE_LEN: nat := 32

  /** The message published for a tagged flow: the seed, then the chosen address. */
  function TagMessage(seed: Seed, dst: IpAddr): (m: seq<byte>)
    ensures |m| == TAG_MESSAGE_LEN
  {
    seed + Ipv6Octets(dst)
  }

  /**
   The wire layout: bytes 0-15 the seed; bytes 16-31 the IPv6 octets, or for
   IPv4 ten zero bytes, 0xff, 0xff and the four octets.
   */
  lemma TagMessageLayout(seed: Seed, dst: IpAddr)
    ensures var m := TagMessage(seed, dst);
      && m[..16] == seed
      && (dst.V6? ==> m[16..] == dst.v6)
      && (dst.V4? ==> m[16..26] == [0, 0, 0, 0, 0, 0, 0, 0, 0, 0] && m[26] == 0xff && m[27] == 0xff && m[28..] == dst.v4)
  {
    var m := TagMessage(seed, dst);
    assert m[..16] == seed;
    assert m[16..] == Ipv6Octets(dst);
    if dst.V4? {
      assert m[16..26] == Ipv6Octets(dst)[..10];
      assert m[28..] == Ipv6Octets(dst)[12..];
    }
  }

  function ParseTagMessage(m: seq<byte>): Option<(Seed, IpAddr)>
  {
    if |m| != TAG_MESSAGE_LEN then None else Some((m[..16], AddrFromOctets(m[16..])))
  }

  /** A receiver gets the seed and the address back from the message. */
  lemma TagMessageRoundTrip(seed: Seed, dst: IpAddr)
    requires !(dst.V6? && IsV4Mapped(dst.v6))
    ensures ParseTagMessage(TagMessage(seed, dst)) == Some((seed, dst))
  {
    var m := TagMessage(seed, dst);
    assert m[..16] == seed;
    assert m[16..] == Ipv6Octets(dst);
    Ipv6OctetsRoundTrip(dst);
  }

  /** `clone_from_slice` into `dst[start..start + |src|]`. */
  method CloneFromSlice(dst: array<byte>, start: nat, src: seq<byte>)
    requires start + |src| <= dst.Length
    modifies dst
    ensures dst[..] == old(dst[..start]) + src + old(dst[start + |src|..])
  {
    var i := 0;
    while i < |src|
      invariant 0 <= i <= |src|
      invariant forall j :: 0 <= j < start ==> dst[j] == old(dst[j])
      invariant forall j :: 0 <= j < i ==> dst[start + j] == src[j]
      invariant forall j :: start + i <= j < dst.Length ==> dst[j] == old(dst[j])
    {
      dst[start + i] := src[i];
      i := i + 1;
    }
    assert dst[..] == old(dst[..start]) + src + old(dst[start + |src|..]);
  }

  /**
   The message as `check_dark_decoy_tag` builds it: a zeroed 32-byte buffer,
   the seed copied into its first half, and the address octets (an IPv4
   address first widened into a zeroed 16-byte buffer) into its second half.
   */
  method EncodeTagMessage(seed: Seed, dst: IpAddr) returns (msg: seq<byte>)
    ensures msg == TagMessage(seed, dst)
  {
    var buf := new byte[TAG_MESSAGE_LEN](_ => 0);
    CloneFromSlice(buf, 0, seed);
    var ipAsBytes: seq<byte>;
    match dst {
      case V6(o6) =>
        ipAsBytes := o6;
      case V4(o4) =>
        var v6 := new byte[16](_ => 0);
        v6[10] := 0xff;
        v6[11] := 0xff;
        CloneFromSlice(v6, 12, o4);
        ipAsBytes := v6[..];
        assert ipAsBytes == Ipv6Octets(dst);
    }
    CloneFromSlice(buf, 16, ipAsBytes);
    msg := buf[..];
  }
}

/**
 Frame dissection: from a captured Ethernet frame to a typed IPv4/IPv6 view,
 with at most one IEEE 802.1Q VLAN tag, plus the TCP fields and the TLS
 application-data test that the station applies to a dissected packet.

 pnet's `EthernetPacket::new`, `Ipv4Packet::new` and `Ipv6Packet::new` accept
 exactly the buffers that hold their fixed header; the header fields the
 station reads sit at fixed offsets (RFC 791 for IPv4, RFC 8200 for IPv6).
 */
module Dissect {
  import opened Net

  const ETHERNET_HEADER_LEN: nat := 14
  const VLAN_TAG_LEN: nat := 4
  const IPV4_MIN_LEN: nat := 20
  const IPV6_MIN_LEN: nat := 40

  const ETHERTYPE_IPV4: nat := 0x0800
  const ETHERTYPE_IPV6: nat := 0x86DD
  const ETHERTYPE_VLAN: nat := 0x8100

  const IP_PROTOCOL_TCP: byte := 6

  type EthernetBytes = s: seq<byte> | |s| >= ETHERNET_HEADER_LEN witness seq(14, _ => 0)
  type Ipv4Bytes = s: seq<byte> | |s| >= IPV4_MIN_LEN witness seq(20, _ => 0)
  type Ipv6Bytes = s: seq<byte> | |s| >= IPV6_MIN_LEN witness seq(40, _ => 0)

  /** pnet's `EthernetPacket`: a view over a frame that holds the 14-byte header. */
  datatype EthernetPacket = EthernetPacket(frame: EthernetBytes)
  {
    /** The big-endian ethertype at bytes 12-13. */
    function EtherType(): nat
    {
      frame[12] as nat * 0x100 + frame[13] as nat
    }

    /** Everything after the Ethernet header. */
    function Payload(): seq<byte>
    {
      frame[ETHERNET_HEADER_LEN..]
    }
  }

  /** pnet's `IpPacket`: an IPv4 or an IPv6 view over the bytes it was built from. */
  datatype IpPacket = V4(v4: Ipv4Bytes) | V6(v6: Ipv6Bytes)
  {
    /** `packet()`: header and payload exactly as received. */
    function Bytes(): seq<byte>
    {
      match this
      case V4(b) => b
      case V6(b) => b
    }

    /** `get_next_level_protocol()` (IPv4 byte 9) or `get_next_header()` (IPv6 byte 6). */
    function NextProtocol(): byte
    {
      match this
      case V4(b) => b[9]
      case V6(b) => b[6]
    }

    function Source(): IpAddr
    {
      match this
      case V4(b) => IpAddr.V4(b[12..16])
      case V6(b) => IpAddr.V6(b[8..24])
    }

    function Destination(): IpAddr
    {
      match this
      case V4(b) => IpAddr.V4(b[16..20])
      case V6(b) => IpAddr.V6(b[24..40])
    }
  }

  function NewEthernetPacket(frame: seq<byte>): Option<EthernetPacket>
  {
    if |frame| >= ETHERNET_HEADER_LEN then Some(EthernetPacket(frame)) else None
  }

  /** `parse_v4`: `Ipv4Packet::new` wrapped as an `IpPacket`. */
  function NewIpv4Packet(p: seq<byte>): Option<IpPacket>
  {
    if |p| >= IPV4_MIN_LEN then Some(IpPacket.V4(p)) else None
  }

  /** `parse_v6`: `Ipv6Packet::new` wrapped as an `IpPacket`. */
  function NewIpv6Packet(p: seq<byte>): Option<IpPacket>
  {
    if |p| >= IPV6_MIN_LEN then Some(IpPacket.V6(p)) else None
  }

  /** The ethertype carried inside a VLAN tag (bytes 2-3 of the Ethernet payload), if present. */
  function InnerEtherType(eth: EthernetPacket): Option<nat>
  {
    var p := eth.Payload();
    if |p| >= VLAN_TAG_LEN then Some(p[2] as nat * 0x100 + p[3] as nat) else None
  }

  /** The outcome of the VLAN branch as the code is written: it may panic on an index. */
  datatype Dissection = Panicked | Dissected(packet: Option<IpPacket>)

  /**
   `get_ip_packet` as written: the VLAN branch reads payload[2] and, when the
   first comparison lets it through, payload[3], without checking the length.
   */
  function GetIpPacketAsWritten(eth: EthernetPacket): (r: Dissection)
    ensures r.Panicked? <==>
      eth.EtherType() == ETHERTYPE_VLAN &&
      (|eth.Payload()| <= 2 ||
       (|eth.Payload()| == 3 && (eth.Payload()[2] == 0x08 || eth.Payload()[2] == 0x86)))
  {
    var payload := eth.Payload();
    if eth.EtherType() == ETHERTYPE_VLAN then
      if |payload| <= 2 then Panicked
      else if payload[2] == 0x08 then
        if |payload| <= 3 then Panicked
        else if payload[3] == 0x00 then Dissected(NewIpv4Packet(payload[4..]))
        else Dissected(None)
      else if payload[2] == 0x86 then
        if |payload| <= 3 then Panicked
        else if payload[3] == 0xdd then Dissected(NewIpv6Packet(payload[4..]))
        else Dissected(None)
      else Dissected(None)
    else if eth.EtherType() == ETHERTYPE_IPV4 then Dissected(NewIpv4Packet(payload))
    else if eth.EtherType() == ETHERTYPE_IPV6 then Dissected(NewIpv6Packet(payload))
    else Dissected(None)
  }

  /** A 16-byte frame with the VLAN ethertype and a 2-byte payload makes the code as written panic. */
  lemma ShortVlanFramePanics()
    ensures GetIpPacketAsWritten(EthernetPacket(seq(12, _ => 0) + [0x81, 0x00, 0x00, 0x00])).Panicked?
  {
  }

  /** A 3-byte VLAN payload whose byte 2 names neither family never reaches `payload[3]`: no packet, no panic. */
  lemma ThreeByteVlanPayloadIsDropped()
    ensures GetIpPacketAsWritten(EthernetPacket(seq(12, _ => 0) + [0x81, 0x00, 0x00, 0x00, 0x00])) == Dissected(None)
  {
  }

  /**
   `get_ip_packet` with the VLAN branch guarded: a payload too short for the
   tag yields no packet. It returns what the code as written returns whenever
   that does not panic.
   */
  function GetIpPacket(eth: EthernetPacket): (r: Option<IpPacket>)
    ensures r.Some? ==>
      r.value.Bytes() == eth.Payload() ||
      (|eth.Payload()| >= VLAN_TAG_LEN && r.value.Bytes() == eth.Payload()[VLAN_TAG_LEN..])
    ensures GetIpPacketAsWritten(eth).Dissected? ==> r == GetIpPacketAsWritten(eth).packet
    ensures GetIpPacketAsWritten(eth).Panicked? ==> r == None
  {
    var payload := eth.Payload();
    if eth.EtherType() == ETHERTYPE_VLAN then
      if |payload| < VLAN_TAG_LEN then None
      else if payload[2] == 0x08 && payload[3] == 0x00 then NewIpv4Packet(payload[4..])
      else if payload[2] == 0x86 && payload[3] == 0xdd then NewIpv6Packet(payload[4..])
      else None
    else if eth.EtherType() == ETHERTYPE_IPV4 then NewIpv4Packet(payload)
    else if eth.EtherType() == ETHERTYPE_IPV6 then NewIpv6Packet(payload)
    else None
  }

  /** The dispatch on the outer and the inner ethertype. */
  lemma DispatchTable(eth: EthernetPacket)
    ensures eth.EtherType() == ETHERTYPE_IPV4 ==> GetIpPacket(eth) == NewIpv4Packet(eth.Payload())
    ensures eth.EtherType() == ETHERTYPE_IPV6 ==> GetIpPacket(eth) == NewIpv6Packet(eth.Payload())
    ensures eth.EtherType() == ETHERTYPE_VLAN && InnerEtherType(eth) == Some(ETHERTYPE_IPV4) ==>
      GetIpPacket(eth) == NewIpv4Packet(eth.Payload()[VLAN_TAG_LEN..])
    ensures eth.EtherType() == ETHERTYPE_VLAN && InnerEtherType(eth) == Some(ETHERTYPE_IPV6) ==>
      GetIpPacket(eth) == NewIpv6Packet(eth.Payload()[VLAN_TAG_LEN..])
    ensures
      (eth.EtherType() == ETHERTYPE_VLAN && InnerEtherType(eth) != Some(ETHERTYPE_IPV4) &&
       InnerEtherType(eth) != Some(ETHERTYPE_IPV6)) ==> GetIpPacket(eth) == None
    ensures
      (eth.EtherType() != ETHERTYPE_IPV4 && eth.EtherType() != ETHERTYPE_IPV6 &&
       eth.EtherType() != ETHERTYPE_VLAN) ==> GetIpPacket(eth) == None
  {
  }

  /**
   A VLAN tag whose inner ethertype names the family changes nothing: the
   tagged frame dissects to the very packet the untagged frame does.
   */
  lemma VlanTagIsTransparent(plain: EthernetPacket, tagged: EthernetPacket)
    requires plain.EtherType() == ETHERTYPE_IPV4 || plain.EtherType() == ETHERTYPE_IPV6
    requires tagged.EtherType() == ETHERTYPE_VLAN
    requires InnerEtherType(tagged) == Some(plain.EtherType())
    requires |tagged.Payload()| >= VLAN_TAG_LEN && tagged.Payload()[VLAN_TAG_LEN..] == plain.Payload()
    ensures GetIpPacket(tagged) == GetIpPacket(plain)
  {
    DispatchTable(plain);
    DispatchTable(tagged);
  }

  /** What `rust_process_packet` does before dispatching: Ethernet view, then IP view. */
  function DissectFrame(frame: seq<byte>): Option<IpPacket>
  {
    match NewEthernetPacket(frame)
    case None => None
    case Some(eth) => GetIpPacket(eth)
  }

  /** A frame shorter than an Ethernet header plus a minimal IPv4 header yields nothing. */
  lemma ShortFramesYieldNoPacket(frame: seq<byte>)
    requires |frame| < ETHERNET_HEADER_LEN + IPV4_MIN_LEN
    ensures DissectFrame(frame) == None
  {
  }

  /** The fields of pnet's `TcpPacket` that the station reads. */
  datatype TcpView = TcpView(source: u16, destination: u16, flags: bv16, payload: seq<byte>)

  const TCP_FIN: bv16 := 0x01
  const TCP_SYN: bv16 := 0x02
  const TCP_RST: bv16 := 0x04
  const TCP_ACK: bv16 := 0x10

  /** A connection opener: SYN set and ACK clear. */
  predicate IsBareSyn(flags: bv16)
  {
    flags & TCP_SYN != 0 && flags & TCP_ACK == 0
  }

  predicate IsRstOrFin(flags: bv16)
  {
    flags & TCP_RST != 0 || flags & TCP_FIN != 0
  }

  const TLS_TYPE_APPLICATION_DATA: byte := 0x17
  const TLS_RECORD_HEADER_LEN: nat := 5

  /** The TLSPlaintext header of section 6.2.1 of RFC 5246 and the bytes after it. */
  datatype RecordHeader = RecordHeader(contentType: byte, version: seq<byte>, length: nat, fragment: seq<byte>)

  function ParseRecordHeader(p: seq<byte>): Option<RecordHeader>
  {
    if |p| < TLS_RECORD_HEADER_LEN then None
    else Some(RecordHeader(p[0], p[1..3], p[3] as nat * 0x100 + p[4] as nat, p[TLS_RECORD_HEADER_LEN..]))
  }

  /**
   `is_tls_app_pkt`: the payload opens with a complete TLS record header of
   content type application_data (23) followed by at least one byte.
   */
  function IsTlsAppPkt(tcp: TcpView): (r: bool)
    ensures r <==>
      ParseRecordHeader(tcp.payload).Some? &&
      ParseRecordHeader(tcp.payload).value.contentType == TLS_TYPE_APPLICATION_DATA &&
      |ParseRecordHeader(tcp.payload).value.fragment| > 0
  {
    |tcp.payload| > 5 && tcp.payload[0] == TLS_TYPE_APPLICATION_DATA
  }
}

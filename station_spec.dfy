/**
 One shard's packet path as functions on a state value: what
 `rust_process_packet` and the `PerCoreGlobal` methods it calls do to the
 counters, the pending and tagged flow sets and the two outputs (frames
 written to the tun device, messages published to the relay).
 */
module StationSpec {
  import opened Net
  import opened Dissect
  import opened FlowKeys
  import opened Encode

  /** `self.stats`: the counters of the current reporting period. */
  datatype Stats = Stats(
    packets: nat, bytes: nat,
    ipv4Packets: nat, ipv6Packets: nat, tcpPackets: nat,
    tlsPackets: nat, tlsBytes: nat,
    port443Syns: nat, elligator: nat)

  const ZERO_STATS := Stats(0, 0, 0, 0, 0, 0, 0, 0, 0)

  /**
   The code the station calls but that is not modelled here, as functions:
   `IpPacket::tcp`, `elligator::extract_payloads` under the station's
   private key, and the destination selector (`DDIpSelector::new` on the
   configured range, then `select`; `None` when either fails).
   */
  datatype Collaborators = Collaborators(
    tcp: IpPacket -> Option<TcpView>,
    extract: seq<byte> -> Option<Seed>,
    select: Seed -> Option<IpAddr>)

  /**
   A shard as a value: counters, the pending 5-tuples, the tagged reduced
   identities, and everything sent so far on the tun device and the
   notification socket.
   */
  datatype Shard = Shard(
    stats: Stats,
    pending: set<Flow>,
    tagged: set<FlowNoSrcPort>,
    tunSent: seq<seq<byte>>,
    published: seq<seq<byte>>)

  const INITIAL_SHARD := Shard(ZERO_STATS, {}, {}, [], [])

  /** Every flow the shard remembers is addressed to port 443. */
  ghost predicate Port443Only(s: Shard)
  {
    (forall f :: f in s.pending ==> f.dstPort == HTTPS_PORT) &&
    (forall d :: d in s.tagged ==> d.dstPort == HTTPS_PORT)
  }

  /** `forward_pkt`: the IP packet, behind the tun header, goes out on the tun device. */
  function ForwardStep(s: Shard, ip: IpPacket): Shard
  {
    s.(tunSent := s.tunSent + [TunFrame(ip.Bytes())])
  }

  /**
   `check_dark_decoy_tag`: one decode attempt, counted; on success and a
   selected destination, one message published and the reduced identity
   (client, selected destination, 443) returned.
   */
  function TagStep(s: Shard, flow: Flow, tcp: TcpView, env: Collaborators): (Shard, Option<FlowNoSrcPort>)
  {
    var counted := s.(stats := s.stats.(elligator := s.stats.elligator + 1));
    var decoded := env.extract(tcp.payload);
    if decoded.None? then (counted, None)
    else
      var selected := env.select(decoded.value);
      if selected.None? then (counted, None)
      else
        (counted.(published := counted.published + [TagMessage(decoded.value, selected.value)]),
         Some(FlowNoSrcPort(flow.srcIp, selected.value, HTTPS_PORT)))
  }

  /** `process_tls_pkt`: the admission and tagging decision for one port-443 packet. */
  function TlsStep(s: Shard, ip: IpPacket, env: Collaborators): Shard
  {
    match env.tcp(ip)
    case None => s
    case Some(tcp) =>
      var flow := FlowOf(ip, tcp);
      var ddFlow := FromFlow(flow);
      if ddFlow in s.tagged then
        ForwardStep(s.(tagged := s.tagged + {ddFlow}), ip)
      else if IsBareSyn(tcp.flags) then
        s.(stats := s.stats.(port443Syns := s.stats.port443Syns + 1), pending := s.pending + {flow})
      else if IsRstOrFin(tcp.flags) then
        s.(pending := s.pending - {flow})
      else if flow !in s.pending || !IsTlsAppPkt(tcp) then
        s
      else
        var attempt := TagStep(s, flow, tcp, env);
        var marked := if attempt.1.Some? then attempt.0.(tagged := attempt.0.tagged + {attempt.1.value}) else attempt.0;
        marked.(pending := marked.pending - {flow})
  }

  /** The part `process_ipv4_packet` and `process_ipv6_packet` share: only TCP to port 443 goes on. */
  function HttpsFilterStep(s: Shard, ip: IpPacket, frameLen: nat, env: Collaborators): Shard
  {
    if ip.NextProtocol() != IP_PROTOCOL_TCP then s
    else
      match env.tcp(ip)
      case None => s
      case Some(tcp) =>
        var counted := s.(stats := s.stats.(tcpPackets := s.stats.tcpPackets + 1));
        if tcp.destination != HTTPS_PORT then counted
        else
          TlsStep(counted.(stats := counted.stats.(
                    tlsPackets := counted.stats.tlsPackets + 1,
                    tlsBytes := counted.stats.tlsBytes + frameLen)), ip, env)
  }

  /** The family counter `process_ipv4_packet` or `process_ipv6_packet` bumps first. */
  function FamilyCounted(s: Shard, ip: IpPacket): Shard
  {
    if ip.V4? then s.(stats := s.stats.(ipv4Packets := s.stats.ipv4Packets + 1))
    else s.(stats := s.stats.(ipv6Packets := s.stats.ipv6Packets + 1))
  }

  function Ipv4Step(s: Shard, ip: IpPacket, frameLen: nat, env: Collaborators): Shard
    requires ip.V4?
  {
    HttpsFilterStep(FamilyCounted(s, ip), ip, frameLen, env)
  }

  function Ipv6Step(s: Shard, ip: IpPacket, frameLen: nat, env: Collaborators): Shard
    requires ip.V6?
  {
    HttpsFilterStep(FamilyCounted(s, ip), ip, frameLen, env)
  }

  /** The packet and byte counters `rust_process_packet` bumps for every frame. */
  function FrameCounted(s: Shard, frame: seq<byte>): Shard
  {
    s.(stats := s.stats.(packets := s.stats.packets + 1, bytes := s.stats.bytes + |frame|))
  }

  /** `rust_process_packet`: count the frame, dissect it, dispatch on the family. */
  function FrameStep(s: Shard, frame: seq<byte>, env: Collaborators): Shard
  {
    var counted := FrameCounted(s, frame);
    match DissectFrame(frame)
    case None => counted
    case Some(ip) =>
      if ip.V4? then Ipv4Step(counted, ip, |frame|, env) else Ipv6Step(counted, ip, |frame|, env)
  }

  /** The shard after a sequence of captured frames, in order. */
  function Run(s: Shard, frames: seq<seq<byte>>, env: Collaborators): Shard
    decreases |frames|
  {
    if frames == [] then s else Run(FrameStep(s, frames[0], env), frames[1..], env)
  }

  function TotalLength(frames: seq<seq<byte>>): nat
  {
    if frames == [] then 0 else |frames[0]| + TotalLength(frames[1..])
  }
}

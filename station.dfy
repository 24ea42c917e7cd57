/**
 `PerCoreGlobal`: one shard's state, updated in place packet by packet.
 Each method is proved to leave the shard exactly as the corresponding
 function of StationSpec says; the lemmas of StationLemmas then say what
 that means.
 */
module Station {
  import opened Net
  import opened Dissect
  import opened FlowKeys
  import opened Encode
  import opened StationSpec

  class PerCoreGlobal {
    var stats: Stats
    /** The flow tracker's pending 5-tuples. */
    var pending: set<Flow>
    /** The flow tracker's tagged reduced identities. */
    var tagged: set<FlowNoSrcPort>
    /** Everything written to the tun device so far. */
    ghost var tunSent: seq<seq<byte>>
    /** Everything published on the notification socket so far. */
    ghost var published: seq<seq<byte>>
    /** The collaborators this shard calls. */
    const env: Collaborators

    ghost function State(): Shard
      reads this
    {
      Shard(stats, pending, tagged, tunSent, published)
    }

    constructor (env: Collaborators)
      ensures State() == INITIAL_SHARD
      ensures this.env == env
    {
      this.env := env;
      stats := ZERO_STATS;
      pending := {};
      tagged := {};
      tunSent := [];
      published := [];
    }

    /** `rust_process_packet`: count the frame, then hand its IP packet on by family. */
    method RustProcessPacket(frame: seq<byte>)
      modifies this
      ensures State() == FrameStep(old(State()), frame, env)
    {
      stats := stats.(packets := stats.packets + 1, bytes := stats.bytes + |frame|);
      ghost var counted := State();
      assert counted == FrameCounted(old(State()), frame);
      var ethPkt := NewEthernetPacket(frame);
      if ethPkt.None? {
        return;
      }
      var ipPkt := GetIpPacket(ethPkt.value);
      assert ipPkt == DissectFrame(frame);
      if ipPkt.None? {
        return;
      }
      assert FrameStep(old(State()), frame, env) ==
        if ipPkt.value.V4? then Ipv4Step(counted, ipPkt.value, |frame|, env)
        else Ipv6Step(counted, ipPkt.value, |frame|, env);
      if ipPkt.value.V4? {
        ProcessIpv4Packet(ipPkt.value, |frame|);
      } else {
        ProcessIpv6Packet(ipPkt.value, |frame|);
      }
    }

    /** `process_ipv4_packet`: count, keep only TCP to port 443, then decide. */
    method ProcessIpv4Packet(ipPkt: IpPacket, frameLen: nat)
      requires ipPkt.V4?
      modifies this
      ensures State() == Ipv4Step(old(State()), ipPkt, frameLen, env)
    {
      stats := stats.(ipv4Packets := stats.ipv4Packets + 1);
      if ipPkt.NextProtocol() != IP_PROTOCOL_TCP {
        return;
      }
      var tcpPkt := env.tcp(ipPkt);
      if tcpPkt.None? {
        return;
      }
      stats := stats.(tcpPackets := stats.tcpPackets + 1);
      if tcpPkt.value.destination != HTTPS_PORT {
        return;
      }
      stats := stats.(tlsPackets := stats.tlsPackets + 1, tlsBytes := stats.tlsBytes + frameLen);
      ProcessTlsPkt(ipPkt);
    }

    /** `process_ipv6_packet`: as for IPv4, on the IPv6 next-header field. */
    method ProcessIpv6Packet(ipPkt: IpPacket, frameLen: nat)
      requires ipPkt.V6?
      modifies this
      ensures State() == Ipv6Step(old(State()), ipPkt, frameLen, env)
    {
      stats := stats.(ipv6Packets := stats.ipv6Packets + 1);
      if ipPkt.NextProtocol() != IP_PROTOCOL_TCP {
        return;
      }
      var tcpPkt := env.tcp(ipPkt);
      if tcpPkt.None? {
        return;
      }
      stats := stats.(tcpPackets := stats.tcpPackets + 1);
      if tcpPkt.value.destination != HTTPS_PORT {
        return;
      }
      stats := stats.(tlsPackets := stats.tlsPackets + 1, tlsBytes := stats.tlsBytes + frameLen);
      ProcessTlsPkt(ipPkt);
    }

    /**
     `process_tls_pkt`: tagged identities first (forward), then a bare SYN
     (admit), then RST or FIN (stop tracking), then one decode attempt for a
     pending flow's application data, after which the flow leaves pending.
     */
    method ProcessTlsPkt(ipPkt: IpPacket)
      modifies this
      ensures State() == TlsStep(old(State()), ipPkt, env)
    {
      var tcpOpt := env.tcp(ipPkt);
      if tcpOpt.None? {
        return;
      }
      var tcpPkt := tcpOpt.value;
      var flow := FlowOf(ipPkt, tcpPkt);
      var ddFlow := FromFlow(flow);
      if ddFlow in tagged {
        // mark_dark_decoy: refresh (the expiry time is not modelled)
        tagged := tagged + {ddFlow};
        ForwardPkt(ipPkt);
        return;
      }
      if IsBareSyn(tcpPkt.flags) {
        stats := stats.(port443Syns := stats.port443Syns + 1);
        pending := pending + {flow};
        return;
      } else if IsRstOrFin(tcpPkt.flags) {
        pending := pending - {flow};
        return;
      }
      if flow !in pending {
        return;
      }
      if IsTlsAppPkt(tcpPkt) {
        var tag := CheckDarkDecoyTag(flow, tcpPkt);
        if tag.Some? {
          tagged := tagged + {tag.value};
        }
        pending := pending - {flow};
      }
    }

    /** `forward_pkt`: the tun header, then the IP packet untouched, sent to the tun device. */
    method ForwardPkt(ipPkt: IpPacket)
      modifies this
      ensures State() == ForwardStep(old(State()), ipPkt)
    {
      var data := ipPkt.Bytes();
      var tunPkt: seq<byte> := [];
      tunPkt := tunPkt + TUN_HEADER;
      tunPkt := tunPkt + data;
      assert tunPkt == TunFrame(data);
      tunSent := tunSent + [tunPkt];
    }

    /** `check_dark_decoy_tag`: one counted decode attempt; on success, publish and return the identity to tag. */
    method CheckDarkDecoyTag(flow: Flow, tcpPkt: TcpView) returns (r: Option<FlowNoSrcPort>)
      modifies this
      ensures (State(), r) == TagStep(old(State()), flow, tcpPkt, env)
    {
      stats := stats.(elligator := stats.elligator + 1);
      var res := env.extract(tcpPkt.payload);
      if res.None? {
        return None;
      }
      var dstIp := env.select(res.value);
      if dstIp.None? {
        return None;
      }
      var msg := EncodeTagMessage(res.value, dstIp.value);
      published := published + [msg];
      return Some(FlowNoSrcPort(flow.srcIp, dstIp.value, HTTPS_PORT));
    }
  }
}

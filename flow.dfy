/**
 Flow identities: the full TCP 5-tuple of one direction of a connection,
 and the reduced identity without the source port under which a tagged
 rendezvous is remembered.
 */
module FlowKeys {
  import opened Net
  import opened Dissect

  const HTTPS_PORT: u16 := 443

  /** `flow_tracker::Flow` (the protocol is always TCP). */
  datatype Flow = Flow(srcIp: IpAddr, srcPort: u16, dstIp: IpAddr, dstPort: u16)

  /** `flow_tracker::FlowNoSrcPort`. */
  datatype FlowNoSrcPort = FlowNoSrcPort(srcIp: IpAddr, dstIp: IpAddr, dstPort: u16)

  /** `Flow::new`: addresses from the IP header, ports from the TCP header. */
  function FlowOf(ip: IpPacket, tcp: TcpView): Flow
  {
    Flow(ip.Source(), tcp.source, ip.Destination(), tcp.destination)
  }

  /** `FlowNoSrcPort::from_flow`. */
  function FromFlow(flow: Flow): FlowNoSrcPort
  {
    FlowNoSrcPort(flow.srcIp, flow.dstIp, flow.dstPort)
  }

  /**
   Two flows share a reduced identity exactly when they agree on everything
   but the source port: later traffic of a tagged client on another source
   port still matches.
   */
  lemma SameReducedIdentity(f: Flow, g: Flow)
    ensures FromFlow(f) == FromFlow(g) <==> f.(srcPort := g.srcPort) == g
  {
  }
}

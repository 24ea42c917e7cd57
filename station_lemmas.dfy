/**
 What the station's packet path promises: the per-packet transitions of the
 pending and tagged namespaces, and what holds over any sequence of frames.
 */
module StationLemmas {
  import opened Net
  import opened Dissect
  import opened FlowKeys
  import opened Encode
  import opened StationSpec

  // ---- One port-443 packet ----------------------------------------------

  /**
   A packet whose reduced identity is tagged is forwarded, whatever its TCP
   flags; the identity stays tagged and nothing else changes.
   */
  lemma TaggedFlowIsForwarded(s: Shard, ip: IpPacket, tcp: TcpView, env: Collaborators)
    requires env.tcp(ip) == Some(tcp)
    requires FromFlow(FlowOf(ip, tcp)) in s.tagged
    ensures TlsStep(s, ip, env) == s.(tunSent := s.tunSent + [TunFrame(ip.Bytes())])
  {
    assert s.tagged + {FromFlow(FlowOf(ip, tcp))} == s.tagged;
  }

  /**
   What `forward_pkt` sends: the 4-byte tun header, the same for both
   families, then the IP packet bit for bit.
   */
  lemma ForwardedFrameLayout(s: Shard, ip: IpPacket)
    ensures var f := ForwardStep(s, ip).tunSent[|s.tunSent|];
      && |ForwardStep(s, ip).tunSent| == |s.tunSent| + 1
      && |f| == |ip.Bytes()| + 4
      && f[..4] == [0x00, 0x01, 0x08, 0x00]
      && StripTunHeader(f) == Some(ip.Bytes())
  {
    var f := TunFrame(ip.Bytes());
    assert ForwardStep(s, ip).tunSent[|s.tunSent|] == f;
    TunFrameRoundTrip(ip.Bytes());
    assert f[..4] == TUN_HEADER;
  }

  /** A bare SYN of an untagged flow admits it to pending and counts one SYN, even with RST or FIN set. */
  lemma BareSynAdmits(s: Shard, ip: IpPacket, tcp: TcpView, env: Collaborators)
    requires env.tcp(ip) == Some(tcp)
    requires FromFlow(FlowOf(ip, tcp)) !in s.tagged
    requires IsBareSyn(tcp.flags)
    ensures TlsStep(s, ip, env) ==
      s.(stats := s.stats.(port443Syns := s.stats.port443Syns + 1), pending := s.pending + {FlowOf(ip, tcp)})
  {
  }

  /** Admission is idempotent: a repeated SYN leaves the same pending set, but is counted again. */
  lemma RepeatedSynAdmitsOnce(s: Shard, ip: IpPacket, tcp: TcpView, env: Collaborators)
    requires env.tcp(ip) == Some(tcp)
    requires FromFlow(FlowOf(ip, tcp)) !in s.tagged
    requires IsBareSyn(tcp.flags)
    ensures TlsStep(TlsStep(s, ip, env), ip, env).pending == TlsStep(s, ip, env).pending
    ensures TlsStep(TlsStep(s, ip, env), ip, env).stats.port443Syns == s.stats.port443Syns + 2
  {
    BareSynAdmits(s, ip, tcp, env);
    BareSynAdmits(TlsStep(s, ip, env), ip, tcp, env);
  }

  /** RST or FIN (without a bare SYN) ends tracking of an untagged flow; an absent flow stays absent. */
  lemma RstOrFinStopsTracking(s: Shard, ip: IpPacket, tcp: TcpView, env: Collaborators)
    requires env.tcp(ip) == Some(tcp)
    requires FromFlow(FlowOf(ip, tcp)) !in s.tagged
    requires !IsBareSyn(tcp.flags) && IsRstOrFin(tcp.flags)
    ensures TlsStep(s, ip, env) == s.(pending := s.pending - {FlowOf(ip, tcp)})
  {
  }

  /**
   A pending flow's application-data packet gets exactly one decode attempt
   and leaves pending whatever its outcome; on success the identity tagged
   is (client, selected destination, 443) and the 32-byte message is published.
   */
  lemma AppDataGetsOneAttempt(s: Shard, ip: IpPacket, tcp: TcpView, env: Collaborators)
    requires env.tcp(ip) == Some(tcp)
    requires FromFlow(FlowOf(ip, tcp)) !in s.tagged
    requires !IsBareSyn(tcp.flags) && !IsRstOrFin(tcp.flags)
    requires FlowOf(ip, tcp) in s.pending && IsTlsAppPkt(tcp)
    ensures var r := TlsStep(s, ip, env);
      && r.stats == s.stats.(elligator := s.stats.elligator + 1)
      && r.pending == s.pending - {FlowOf(ip, tcp)}
      && r.tunSent == s.tunSent
      && (match env.extract(tcp.payload)
          case Some(seed) =>
            (match env.select(seed)
             case Some(dst) =>
               && r.tagged == s.tagged + {FlowNoSrcPort(ip.Source(), dst, HTTPS_PORT)}
               && r.published == s.published + [TagMessage(seed, dst)]
             case None => r.tagged == s.tagged && r.published == s.published)
          case None => r.tagged == s.tagged && r.published == s.published)
  {
  }

  /** Any other packet of an untagged flow changes nothing. */
  lemma OtherPacketsAreIgnored(s: Shard, ip: IpPacket, tcp: TcpView, env: Collaborators)
    requires env.tcp(ip) == Some(tcp)
    requires FromFlow(FlowOf(ip, tcp)) !in s.tagged
    requires !IsBareSyn(tcp.flags) && !IsRstOrFin(tcp.flags)
    requires FlowOf(ip, tcp) !in s.pending || !IsTlsAppPkt(tcp)
    ensures TlsStep(s, ip, env) == s
  {
  }

  /** A packet of a 5-tuple that is not pending, and is not a bare SYN, causes no decode attempt. */
  lemma NoAttemptOutsidePending(s: Shard, ip: IpPacket, tcp: TcpView, env: Collaborators)
    requires env.tcp(ip) == Some(tcp)
    requires FlowOf(ip, tcp) !in s.pending && !IsBareSyn(tcp.flags)
    ensures TlsStep(s, ip, env).stats.elligator == s.stats.elligator
    ensures TlsStep(s, ip, env).published == s.published
  {
  }

  // ---- Facts about one step that sequences inherit -------------------------

  lemma CardUnionOne<T>(a: set<T>, x: T)
    ensures |a + {x}| <= |a| + 1
  {
    if x in a {
      assert a + {x} == a;
    }
  }

  lemma CardRemoveMember<T>(a: set<T>, x: T)
    requires x in a
    ensures |a - {x}| == |a| - 1
  {
    assert a == (a - {x}) + {x};
  }

  lemma CardRemove<T>(a: set<T>, x: T)
    ensures |a - {x}| <= |a|
  {
    if x in a {
      CardRemoveMember(a, x);
    } else {
      assert a - {x} == a;
    }
  }

  /** The decode attempt touches only its counter, the published messages and the result. */
  lemma TagStepFrame(s: Shard, flow: Flow, tcp: TcpView, env: Collaborators)
    ensures var r := TagStep(s, flow, tcp, env);
      && r.0.stats == s.stats.(elligator := s.stats.elligator + 1)
      && r.0.pending == s.pending && r.0.tagged == s.tagged && r.0.tunSent == s.tunSent
      && (r.1.Some? ==> r.1.value.dstPort == HTTPS_PORT && r.1.value.srcIp == flow.srcIp)
  {
  }

  /**
   One port-443 step: tagged identities are never dropped, the SYN count
   never falls, and decode attempts plus pending flows grow by at most the
   SYNs counted in the step.
   */
  lemma TlsStepFacts(s: Shard, ip: IpPacket, env: Collaborators)
    ensures var r := TlsStep(s, ip, env);
      && s.tagged <= r.tagged
      && s.stats.port443Syns <= r.stats.port443Syns
      && r.stats.elligator + |r.pending| <= s.stats.elligator + |s.pending| + (r.stats.port443Syns - s.stats.port443Syns)
      && r.stats.packets == s.stats.packets && r.stats.bytes == s.stats.bytes
    ensures Port443Only(s) && (env.tcp(ip).Some? ==> env.tcp(ip).value.destination == HTTPS_PORT) ==>
      Port443Only(TlsStep(s, ip, env))
  {
    match env.tcp(ip)
    case None =>
    case Some(tcp) =>
      var flow := FlowOf(ip, tcp);
      if FromFlow(flow) in s.tagged {
      } else if IsBareSyn(tcp.flags) {
        CardUnionOne(s.pending, flow);
      } else if IsRstOrFin(tcp.flags) {
        CardRemove(s.pending, flow);
      } else if flow !in s.pending || !IsTlsAppPkt(tcp) {
      } else {
        TagStepFrame(s, flow, tcp, env);
        CardRemoveMember(s.pending, flow);
      }
  }

  /**
   Only TCP packets to port 443 reach the decision: any other packet at most
   counts as TCP; one that passes is counted as TCP and TLS, with its frame
   length, and then decided.
   */
  lemma HttpsFilterPassesOnlyPort443(s: Shard, ip: IpPacket, frameLen: nat, env: Collaborators)
    ensures var r := HttpsFilterStep(s, ip, frameLen, env);
      var isTcp := ip.NextProtocol() == IP_PROTOCOL_TCP && env.tcp(ip).Some?;
      !(isTcp && env.tcp(ip).value.destination == HTTPS_PORT) ==>
        && r.stats.tcpPackets == s.stats.tcpPackets + (if isTcp then 1 else 0)
        && r == s.(stats := s.stats.(tcpPackets := r.stats.tcpPackets))
    ensures var r := HttpsFilterStep(s, ip, frameLen, env);
      ip.NextProtocol() == IP_PROTOCOL_TCP && env.tcp(ip).Some? && env.tcp(ip).value.destination == HTTPS_PORT ==>
        r == TlsStep(s.(stats := s.stats.(
               tcpPackets := s.stats.tcpPackets + 1,
               tlsPackets := s.stats.tlsPackets + 1,
               tlsBytes := s.stats.tlsBytes + frameLen)), ip, env)
  {
  }

  /** The same facts past the TCP/443 filter, which leaves the frame counters alone. */
  lemma HttpsFilterStepFacts(s: Shard, ip: IpPacket, frameLen: nat, env: Collaborators)
    ensures var r := HttpsFilterStep(s, ip, frameLen, env);
      && s.tagged <= r.tagged
      && s.stats.port443Syns <= r.stats.port443Syns
      && r.stats.elligator + |r.pending| <= s.stats.elligator + |s.pending| + (r.stats.port443Syns - s.stats.port443Syns)
      && r.stats.packets == s.stats.packets && r.stats.bytes == s.stats.bytes
    ensures Port443Only(s) ==> Port443Only(HttpsFilterStep(s, ip, frameLen, env))
  {
    if ip.NextProtocol() == IP_PROTOCOL_TCP && env.tcp(ip).Some? && env.tcp(ip).value.destination == HTTPS_PORT {
      var filtered := s.(stats := s.stats.(
        tcpPackets := s.stats.tcpPackets + 1,
        tlsPackets := s.stats.tlsPackets + 1,
        tlsBytes := s.stats.tlsBytes + frameLen));
      assert HttpsFilterStep(s, ip, frameLen, env) == TlsStep(filtered, ip, env);
      TlsStepFacts(filtered, ip, env);
    }
  }

  /** A frame that dissects goes through the TCP/443 filter after the frame and family counters. */
  lemma FrameStepDispatch(s: Shard, frame: seq<byte>, env: Collaborators, ip: IpPacket)
    requires DissectFrame(frame) == Some(ip)
    ensures var bumped := FamilyCounted(FrameCounted(s, frame), ip);
      && FrameStep(s, frame, env) == HttpsFilterStep(bumped, ip, |frame|, env)
      && bumped.pending == s.pending && bumped.tagged == s.tagged
      && bumped.stats.port443Syns == s.stats.port443Syns && bumped.stats.elligator == s.stats.elligator
      && bumped.stats.packets == s.stats.packets + 1 && bumped.stats.bytes == s.stats.bytes + |frame|
  {
  }

  /** The same facts for a whole captured frame, which also counts itself. */
  lemma FrameStepFacts(s: Shard, frame: seq<byte>, env: Collaborators)
    ensures var r := FrameStep(s, frame, env);
      && s.tagged <= r.tagged
      && s.stats.port443Syns <= r.stats.port443Syns
      && r.stats.elligator + |r.pending| <= s.stats.elligator + |s.pending| + (r.stats.port443Syns - s.stats.port443Syns)
      && r.stats.packets == s.stats.packets + 1 && r.stats.bytes == s.stats.bytes + |frame|
  {
    match DissectFrame(frame)
    case None =>
    case Some(ip) =>
      FrameStepDispatch(s, frame, env, ip);
      HttpsFilterStepFacts(FamilyCounted(FrameCounted(s, frame), ip), ip, |frame|, env);
  }

  /** A frame keeps every remembered flow at port 443. */
  lemma FrameStepKeepsPort443(s: Shard, frame: seq<byte>, env: Collaborators)
    requires Port443Only(s)
    ensures Port443Only(FrameStep(s, frame, env))
  {
    match DissectFrame(frame)
    case None =>
    case Some(ip) =>
      FrameStepDispatch(s, frame, env, ip);
      HttpsFilterStepFacts(FamilyCounted(FrameCounted(s, frame), ip), ip, |frame|, env);
  }

  /** A frame that, dissected, is a bare SYN of `flow`: the only kind that can put it in pending. */
  predicate IsBareSynOf(frame: seq<byte>, flow: Flow, env: Collaborators)
  {
    match DissectFrame(frame)
    case None => false
    case Some(ip) =>
      match env.tcp(ip)
      case None => false
      case Some(tcp) => FlowOf(ip, tcp) == flow && IsBareSyn(tcp.flags)
  }

  /** A 5-tuple outside pending stays outside through any frame but its own bare SYN. */
  lemma FrameStepKeepsOut(s: Shard, frame: seq<byte>, env: Collaborators, flow: Flow)
    requires flow !in s.pending && !IsBareSynOf(frame, flow, env)
    ensures flow !in FrameStep(s, frame, env).pending
  {
  }

  // ---- Any sequence of frames -----------------------------------------------

  /** Once out of pending, a 5-tuple stays out until a bare SYN of its own arrives. */
  lemma {:induction false} StaysOutUntilSyn(s: Shard, frames: seq<seq<byte>>, env: Collaborators, flow: Flow)
    requires flow !in s.pending
    requires forall i :: 0 <= i < |frames| ==> !IsBareSynOf(frames[i], flow, env)
    ensures flow !in Run(s, frames, env).pending
    decreases |frames|
  {
    if frames != [] {
      FrameStepKeepsOut(s, frames[0], env, flow);
      StaysOutUntilSyn(FrameStep(s, frames[0], env), frames[1..], env, flow);
    }
  }

  /**
   After its one attempt, a flow gets no further decode attempt and publishes
   nothing, whatever frames arrive in between, until a bare SYN of its own.
   */
  lemma {:induction false} SecondAppPacketGetsNoAttempt(
    s: Shard, ip: IpPacket, tcp: TcpView, frames: seq<seq<byte>>, ip2: IpPacket, tcp2: TcpView, env: Collaborators)
    requires env.tcp(ip) == Some(tcp) && env.tcp(ip2) == Some(tcp2)
    requires FromFlow(FlowOf(ip, tcp)) !in s.tagged
    requires !IsBareSyn(tcp.flags) && !IsRstOrFin(tcp.flags)
    requires FlowOf(ip, tcp) in s.pending && IsTlsAppPkt(tcp)
    requires forall i :: 0 <= i < |frames| ==> !IsBareSynOf(frames[i], FlowOf(ip, tcp), env)
    requires FlowOf(ip2, tcp2) == FlowOf(ip, tcp) && !IsBareSyn(tcp2.flags)
    ensures var later := Run(TlsStep(s, ip, env), frames, env);
      && TlsStep(later, ip2, env).stats.elligator == later.stats.elligator
      && TlsStep(later, ip2, env).published == later.published
  {
    AppDataGetsOneAttempt(s, ip, tcp, env);
    StaysOutUntilSyn(TlsStep(s, ip, env), frames, env, FlowOf(ip, tcp));
    NoAttemptOutsidePending(Run(TlsStep(s, ip, env), frames, env), ip2, tcp2, env);
  }

  /** Tagged identities are never dropped (expiry is not part of this model). */
  lemma {:induction false} TaggedIsPermanent(s: Shard, frames: seq<seq<byte>>, env: Collaborators)
    ensures s.tagged <= Run(s, frames, env).tagged
    decreases |frames|
  {
    if frames != [] {
      FrameStepFacts(s, frames[0], env);
      TaggedIsPermanent(FrameStep(s, frames[0], env), frames[1..], env);
    }
  }

  /** Every frame is counted, with its length. */
  lemma {:induction false} EveryFrameIsCounted(s: Shard, frames: seq<seq<byte>>, env: Collaborators)
    ensures Run(s, frames, env).stats.packets == s.stats.packets + |frames|
    ensures Run(s, frames, env).stats.bytes == s.stats.bytes + TotalLength(frames)
    decreases |frames|
  {
    if frames != [] {
      FrameStepFacts(s, frames[0], env);
      EveryFrameIsCounted(FrameStep(s, frames[0], env), frames[1..], env);
    }
  }

  /** Only flows to port 443 are ever remembered, pending or tagged. */
  lemma {:induction false} OnlyPort443IsTracked(s: Shard, frames: seq<seq<byte>>, env: Collaborators)
    requires Port443Only(s)
    ensures Port443Only(Run(s, frames, env))
    decreases |frames|
  {
    if frames != [] {
      FrameStepKeepsPort443(s, frames[0], env);
      OnlyPort443IsTracked(FrameStep(s, frames[0], env), frames[1..], env);
    }
  }

  /**
   Each decode attempt uses up one pending admission, and each admission
   comes from a counted SYN: attempts plus still-pending flows never exceed
   the SYNs seen.
   */
  lemma {:induction false} AttemptsBoundedBySyns(s: Shard, frames: seq<seq<byte>>, env: Collaborators)
    ensures var r := Run(s, frames, env);
      && s.stats.port443Syns <= r.stats.port443Syns
      && r.stats.elligator + |r.pending| <= s.stats.elligator + |s.pending| + (r.stats.port443Syns - s.stats.port443Syns)
    decreases |frames|
  {
    if frames != [] {
      FrameStepFacts(s, frames[0], env);
      AttemptsBoundedBySyns(FrameStep(s, frames[0], env), frames[1..], env);
    }
  }

  /** From a fresh shard: no more decode attempts than SYNs to port 443. */
  lemma FreshShardAttemptsAtMostSyns(frames: seq<seq<byte>>, env: Collaborators)
    ensures Run(INITIAL_SHARD, frames, env).stats.elligator <= Run(INITIAL_SHARD, frames, env).stats.port443Syns
    ensures Port443Only(Run(INITIAL_SHARD, frames, env))
  {
    AttemptsBoundedBySyns(INITIAL_SHARD, frames, env);
    OnlyPort443IsTracked(INITIAL_SHARD, frames, env);
  }
}

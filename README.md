# Conjure station: per-packet decision logic

This project models the packet path of one Conjure station shard, from
`src/process_packet.rs`. Each captured Ethernet frame is counted and
dissected into an IPv4 or IPv6 packet, which may sit behind a single 802.1Q
VLAN tag. Only TCP packets to port 443 go further, and each one is decided
against two flow namespaces:

- **pending**: full 5-tuples admitted by a bare SYN and still waiting for
  their one chance at tag detection;
- **tagged**: reduced identities `(client, decoy address, 443)`, with no
  source port, whose traffic is forwarded to the local tun device.

A pending flow's first TLS application-data packet gets exactly one decode
attempt. The flow then leaves pending, whether the attempt succeeds or not.
On success the station publishes a 32-byte message to the relay: the seed,
then the selected address as IPv6 octets. It also registers the reduced
identity as tagged.

Layout:

- `net.dfy` (`Net`): bytes, ports, IP addresses, `Option`.
- `dissect.dfy` (`Dissect`): Ethernet and VLAN dispatch (`get_ip_packet`),
  the IP header fields the station reads, the TCP flag tests and
  `is_tls_app_pkt`.
- `flow.dfy` (`FlowKeys`): `Flow` and `FlowNoSrcPort`.
- `encode.dfy` (`Encode`): the tun frame, the IPv4-mapped form of section
  2.5.5.2 of RFC 4291, and the tag message. The message is built the way the
  source builds it, in zeroed buffers filled by `clone_from_slice`.
- `station_spec.dfy` (`StationSpec`): the shard as a value (`Shard`). One
  function per step of the packet path.
- `station_lemmas.dfy` (`StationLemmas`): what each step promises, and what
  holds over any sequence of frames.
- `station.dfy` (`Station`): the class `PerCoreGlobal`. Its fields are
  updated in place, and each method is proved to leave the shard exactly as
  its step function says.

Three callees are taken as given functions of the `Collaborators` record:

- `IpPacket::tcp` (`util.rs` is not part of this model);
- `elligator::extract_payloads` under the station's private key;
- destination selection (`DDIpSelector::new` on the configured range, then
  `select`).

The tun device and the notification socket are ghost logs of everything
sent on them.

The model follows the code where it may surprise:

- Every bare SYN to port 443 of an untagged flow adds one to `port443Syns`,
  including a repeat for a flow already pending. A SYN of a tagged flow is
  forwarded and not counted. Admission itself is idempotent.
  `RepeatedSynAdmitsOnce` states both facts.
- A VLAN frame whose payload is at most 2 bytes, or is 3 bytes with byte 2
  equal to 0x08 or 0x86, makes the code panic instead of yielding "no
  packet". Any other 3-byte VLAN payload yields no packet. See Findings.

## Model

| member | source | states |
|---|---|---|
| Dissect.GetIpPacketAsWritten | src/process_packet.rs:44-59 | The code as written panics exactly when the ethertype is VLAN and the payload is at most 2 bytes, or is 3 bytes with byte 2 equal to 0x08 or 0x86, so that the short-circuit reaches `payload[3]`. |
| Dissect.ShortVlanFramePanics | src/process_packet.rs:45-46 | A 16-byte frame with ethertype 0x8100 and a 2-byte payload makes the code as written panic. |
| Dissect.ThreeByteVlanPayloadIsDropped | src/process_packet.rs:46-53 | A 17-byte VLAN frame whose payload byte 2 is 0x00 does not panic: the code as written yields no packet. |
| Dissect.GetIpPacket | src/process_packet.rs:26-60 | A dissected packet covers either the whole Ethernet payload or the payload after the 4-byte tag. The result equals what the code as written returns wherever that does not panic, and is no packet where it would. |
| Dissect.DispatchTable | src/process_packet.rs:44-59 | Ethertype IPv4 or IPv6 parses the whole payload as that family. VLAN with inner ethertype 0x0800 or 0x86DD parses `payload[4..]` as that family. Any other inner ethertype, and any other outer ethertype, gives no packet. |
| Dissect.VlanTagIsTransparent | src/process_packet.rs:45-57 | A VLAN-tagged frame whose inner ethertype names the family dissects to exactly the packet that the same frame without the tag dissects to. |
| Dissect.ShortFramesYieldNoPacket | src/process_packet.rs:81-90 | A frame shorter than 14 + 20 bytes never yields an IP packet. |
| Dissect.IsTlsAppPkt | src/process_packet.rs:93-97 | True exactly when the payload opens with a complete 5-byte TLS record header of content type 23 (application_data, section 6.2.1 of RFC 5246) and at least one byte follows. This is the same as: length > 5 and first byte 0x17. |
| FlowKeys.SameReducedIdentity | src/process_packet.rs:190 | Two flows share a reduced identity exactly when they differ at most in the source port. |
| Encode.TunFrame | src/process_packet.rs:244-251 | The tun frame is 4 bytes longer than the IP packet. |
| Encode.TunFrameRoundTrip | src/process_packet.rs:244-251 | Taking the tun header off the frame gives back the IP bytes unchanged. |
| Encode.Ipv6Octets | src/process_packet.rs:288-298 | An IPv6 address gives its own 16 octets. An IPv4 address gives the IPv4-mapped form: prefix 0…0ffff, then the four octets. |
| Encode.Ipv6OctetsRoundTrip | src/process_packet.rs:288-298 | Reading the 16 octets back gives the original address exactly when it is not an IPv6 address that is already IPv4-mapped. |
| Encode.MappedAddressesCollide | src/process_packet.rs:288-298 | An IPv4 address and its IPv4-mapped IPv6 address are encoded identically. |
| Encode.TagMessage | src/process_packet.rs:285-299 | The published message is exactly 32 bytes. |
| Encode.TagMessageLayout | src/process_packet.rs:285-299 | Bytes 0-15 are the seed. Bytes 16-31 are the IPv6 octets, or for IPv4 ten zero bytes, then 0xff, 0xff, then the four octets. |
| Encode.TagMessageRoundTrip | src/process_packet.rs:285-299 | A receiver parsing the message recovers the seed and the destination, for every destination that is not an IPv4-mapped IPv6 address. |
| Encode.CloneFromSlice | src/process_packet.rs:286 | Copying a slice into a buffer region changes that region to the slice and leaves the rest of the buffer unchanged. |
| Encode.EncodeTagMessage | src/process_packet.rs:285-299 | The message built in zeroed arrays with index writes and slice copies equals `TagMessage(seed, dst)`. |
| StationLemmas.ForwardedFrameLayout | src/process_packet.rs:237-256 | Forwarding appends exactly one tun frame. The frame is the IP length plus 4, starts with 00 01 08 00 for both families, and carries the IP bytes unchanged. |
| StationLemmas.TaggedFlowIsForwarded | src/process_packet.rs:190-205 | If the reduced identity is tagged, the packet is forwarded whatever its TCP flags. The identity stays tagged, and the pending set and the counters are unchanged. |
| StationLemmas.BareSynAdmits | src/process_packet.rs:207-213 | For an untagged flow, SYN set with ACK clear inserts the 5-tuple into pending and adds 1 to the SYN counter. This holds even when RST or FIN is also set. |
| StationLemmas.RepeatedSynAdmitsOnce | src/process_packet.rs:207-213 | A second identical SYN leaves the pending set as it was, but the SYN counter goes up by 2 over both. |
| StationLemmas.RstOrFinStopsTracking | src/process_packet.rs:214-217 | For an untagged flow that is not a bare SYN, RST or FIN removes the 5-tuple from pending. Nothing else changes, and an absent flow stays absent. |
| StationLemmas.AppDataGetsOneAttempt | src/process_packet.rs:219-234 | A pending flow's application-data packet counts exactly one decode attempt and leaves pending. On decode and selection success, tagged gains (client, selected address, 443) and the tag message is published. Otherwise tagged and the published messages are unchanged. |
| StationLemmas.OtherPacketsAreIgnored | src/process_packet.rs:219-234 | For an untagged flow, a packet that is neither a bare SYN nor RST/FIN changes nothing when the flow is not pending or the packet is not application data. |
| StationLemmas.NoAttemptOutsidePending | src/process_packet.rs:207-224 | A packet that is not a bare SYN and whose 5-tuple is not pending causes no decode attempt and publishes nothing. |
| StationLemmas.FrameStepKeepsOut | src/process_packet.rs:207-234 | A 5-tuple that is not pending is still not pending after any frame other than a bare SYN of that same 5-tuple. Only `begin_tracking_flow` inserts. |
| StationLemmas.StaysOutUntilSyn | src/process_packet.rs:207-234 | Over any sequence of frames that contains no bare SYN of a 5-tuple, that 5-tuple stays out of pending once it is out. |
| StationLemmas.SecondAppPacketGetsNoAttempt | src/process_packet.rs:219-234 | After the one attempt, whatever frames arrive in between, a later non-SYN packet of the same 5-tuple causes no further decode attempt and publishes nothing, until that 5-tuple's own bare SYN. |
| StationLemmas.TagStepFrame | src/process_packet.rs:258-309 | A decode attempt changes only the attempt counter and the published messages. Any identity it returns has the flow's client address and port 443. |
| StationLemmas.TlsStepFacts | src/process_packet.rs:164-235 | For one port-443 packet: tagged only grows, and the SYN count never falls. Decode attempts plus pending flows grow by at most the SYNs counted. A packet to port 443 keeps every remembered flow at port 443. |
| StationLemmas.HttpsFilterPassesOnlyPort443 | src/process_packet.rs:103-158 | A packet that is not TCP, has no TCP view, or is not to port 443 changes the shard only in `tcpPackets`. That counter goes up by 1 exactly when the packet is TCP with a TCP view. A TCP packet to port 443 adds 1 to `tcpPackets` and `tlsPackets` and its frame length to `tlsBytes`, and is then decided by `TlsStep`. |
| StationLemmas.HttpsFilterStepFacts | src/process_packet.rs:103-158 | The TCP/443 filter keeps the same facts and leaves the frame counters alone. |
| StationLemmas.FrameStepDispatch | src/process_packet.rs:78-90 | A frame that dissects is counted (1 packet, its length in bytes, 1 for its family) and then goes through the TCP/443 filter. Counting touches neither namespace. |
| StationLemmas.FrameStepFacts | src/process_packet.rs:67-91 | One frame adds 1 to the packet counter and its length to the byte counter. Tagged only grows, and decode attempts plus pending flows grow by at most the SYNs counted. |
| StationLemmas.FrameStepKeepsPort443 | src/process_packet.rs:121-126 | One frame keeps every pending flow and every tagged identity at destination port 443. |
| StationLemmas.TaggedIsPermanent | src/process_packet.rs:194-205 | Over any sequence of frames, no tagged identity is removed. |
| StationLemmas.EveryFrameIsCounted | src/process_packet.rs:78-79 | Over any sequence of frames, the packet counter grows by the number of frames and the byte counter by their total length. |
| StationLemmas.OnlyPort443IsTracked | src/process_packet.rs:124-126 | Over any sequence of frames, every pending flow and every tagged identity has destination port 443. |
| StationLemmas.AttemptsBoundedBySyns | src/process_packet.rs:207-234 | Over any sequence of frames, decode attempts plus still-pending flows grow by at most the number of bare SYNs counted. |
| StationLemmas.FreshShardAttemptsAtMostSyns | src/process_packet.rs:262 | From a fresh shard there are never more decode attempts than bare SYNs of untagged flows to port 443, as counted in `port443Syns`, and only port-443 flows are remembered. |
| Station.PerCoreGlobal.RustProcessPacket | src/process_packet.rs:67-91 | The shard afterwards is `FrameStep` of the shard before: the frame is counted, dissected and dispatched by family. |
| Station.PerCoreGlobal.ProcessIpv4Packet | src/process_packet.rs:103-131 | The shard afterwards is `Ipv4Step`: count IPv4, stop unless TCP, count TCP, stop unless port 443, count TLS packets and bytes, then decide. |
| Station.PerCoreGlobal.ProcessIpv6Packet | src/process_packet.rs:133-158 | The same for IPv6, using the next-header field (`Ipv6Step`). |
| Station.PerCoreGlobal.ProcessTlsPkt | src/process_packet.rs:164-235 | The shard afterwards is `TlsStep`. Checks run in order: tagged first, then bare SYN, then RST/FIN, then one decode attempt for pending application data. |
| Station.PerCoreGlobal.ForwardPkt | src/process_packet.rs:237-256 | The tun log gains exactly `TunFrame` of the packet's bytes. Nothing else changes. |
| Station.PerCoreGlobal.CheckDarkDecoyTag | src/process_packet.rs:258-309 | The new shard and the result are `TagStep`: one counted attempt, with a publish and `Some((client, selected, 443))` only when decode and selection both succeed. |

## Left out

- The raw-pointer entry (`slice::from_raw_parts_mut`, `&mut *ptr`). The frame arrives as a byte sequence.
- pnet's dissection internals. The Ethernet, IPv4 and IPv6 constructors accept exactly the buffers holding their fixed 14-, 20- and 40-byte headers. Header fields are read at fixed offsets. IPv4 options, total-length clamping and IPv6 extension headers are not modelled.
- `IpPacket::tcp` and the TCP header parse. `util.rs` is not part of this model. The TCP view (ports, flags, payload) comes from the `tcp` collaborator.
- `Flow::new` and `FlowNoSrcPort::from_flow`. `flow_tracker.rs` is not part of this model. They are modelled from their use here: addresses from the IP header, ports from TCP, and the reduced identity drops the source port.
- `panic::catch_unwind` around the payload read. Reading the payload is total here.
- `elligator::extract_payloads`: foreign cryptography, modelled as the `extract` collaborator.
- `DDIpSelector::new` and `select`, including the hard-coded range 192.122.190.0/24: foreign code, modelled as the `select` collaborator. That the chosen address lies in the range is therefore not stated.
- `tun.send` and `zmq_sock.send`: I/O. Each send is an append to a ghost log, and send errors are ignored, as the source ignores them.
- Flow-tracker expiry, timestamps and `stale_tracked_flows`. The namespaces are plain sets, and `mark_dark_decoy`'s expiry refresh is a set insert that changes nothing. `StationLemmas.TaggedIsPermanent` holds only because expiry is absent.
- StationSpec.Stats: the Rust counters are `u64`. Here they are unbounded, so wrap-around is not modelled.
- Logging (`debug!`, `warn!`, `error!`), including the hard-coded debug address, and the commented-out prefix-tree check.

## Findings

| source | as written | input that shows it | evidently intended | confidence | as-written member | corrected member |
|---|---|---|---|---|---|---|
| src/process_packet.rs:46-51 | The VLAN branch indexes `payload[2]` and `payload[3]` without a length check. A VLAN payload of at most 2 bytes, or of 3 bytes with byte 2 equal to 0x08 or 0x86, panics inside an `extern "C"` function, which brings down the worker. Any other 3-byte payload yields no packet. | A 16-byte frame: 12 address bytes, ethertype 0x81 0x00, then 2 payload bytes. `EthernetPacket::new` accepts it, and `payload[2]` is out of bounds. | A frame too short for the VLAN tag is dropped as "no packet", like every other malformed frame. | not executed; low to medium: runt frames below the 60-byte Ethernet minimum rarely reach a capture path | Dissect.GetIpPacketAsWritten | Dissect.GetIpPacket |

`Dissect.ShortVlanFramePanics` shows the panic on the concrete frame above.
`Dissect.ShortFramesYieldNoPacket` proves that the corrected dissection never
yields a packet for such frames. The rest of the model uses the corrected
`Dissect.GetIpPacket`, which agrees with the code wherever the code does not
panic.

/**
 Basic values shared by the packet path: bytes, 16-bit ports, IP addresses
 and an Option type for the many "maybe" results of dissection and decoding.
 */
module Net {

  /** An octet as read from a captured frame. */
  newtype byte = x: int | 0 <= x < 0x100

  /** A TCP port (Rust `u16`). */
  newtype u16 = x: int | 0 <= x < 0x1_0000

  datatype Option<+T> = None | Some(value: T)

  type Octets4 = s: seq<byte> | |s| == 4 witness [0, 0, 0, 0]

  type Octets16 = s: seq<byte> | |s| == 16 witness seq(16, _ => 0)

  /** `std::net::IpAddr`: one address of either family, kept as its octets. */
  datatype IpAddr = V4(v4: Octets4) | V6(v6: Octets16)
}

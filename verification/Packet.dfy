/** The packet parser: IPv4, IPv6 with its extension-header walk, and the TCP and UDP headers behind them. */
module Packet {
  import opened Core

  type Byte = b: int | 0 <= b < 256

  datatype Protocol = Tcp | Udp

  datatype IpAddr = V4(octets: seq<Byte>) | V6(octets: seq<Byte>)

  datatype FlowKey = FlowKey(
    source: IpAddr, destination: IpAddr, protocol: Protocol, sourcePort: nat, destinationPort: nat)

  datatype IpPacket = IpPacket(
    source: IpAddr, destination: IpAddr, protocol: Protocol, sourcePort: nat, destinationPort: nat,
    totalLen: nat, payloadLen: nat)
  {
    function Flow(): FlowKey {
      FlowKey(source, destination, protocol, sourcePort, destinationPort)
    }
  }

  function BigEndian(high: Byte, low: Byte): (n: nat)
    ensures n < 0x1_0000
  {
    high * 256 + low
  }

  function SaturatingSub(a: nat, b: nat): nat {
    if a < b then 0 else a - b
  }

  function ProtocolOf(number: Byte): Option<Protocol> {
    if number == 6 then Some(Tcp) else if number == 17 then Some(Udp) else None
  }

  function TransportHeaderLen(protocol: Protocol, packet: seq<Byte>, offset: nat, totalLen: nat): Option<nat>
    requires totalLen <= |packet|
  {
    match protocol
    case Tcp =>
      if offset + 20 > totalLen then None
      else
        var len := packet[offset + 12] / 16 * 4;
        if len < 20 || offset + len > totalLen then None else Some(len)
    case Udp => if offset + 8 > totalLen then None else Some(8)
  }

  function ParseIpv4(packet: seq<Byte>): Option<IpPacket> {
    if |packet| < 24 then None
    else if packet[0] / 16 != 4 then None
    else
      var ihl := packet[0] % 16 * 4;
      if ihl + 4 > |packet| then None
      else
        var totalLen := BigEndian(packet[2], packet[3]);
        if totalLen < ihl || totalLen > |packet| then None
        else
          match ProtocolOf(packet[9])
          case None => None
          case Some(protocol) =>
            match TransportHeaderLen(protocol, packet, ihl, totalLen)
            case None => None
            case Some(len) =>
              Some(IpPacket(
                V4(packet[12..16]), V4(packet[16..20]), protocol,
                BigEndian(packet[ihl], packet[ihl + 1]), BigEndian(packet[ihl + 2], packet[ihl + 3]),
                totalLen, SaturatingSub(totalLen, ihl + len)))
  }

  /** Length of an extension header from its kind and its second octet. */
  function ExtensionLen(kind: Byte, len: Byte): (n: nat)
    requires IsExtension(kind)
    ensures n >= 8
  {
    if kind == 51 then (len + 2) * 4 else (len + 1) * 8
  }

  predicate IsExtension(kind: Byte) {
    kind == 0 || kind == 43 || kind == 44 || kind == 60 || kind == 51
  }

  datatype Transport = Transport(offset: nat, number: Byte)

  /** The walk over extension headers, from a header of the given kind at `offset`. */
  function Walk(packet: seq<Byte>, totalLen: nat, offset: nat, next: Byte): (r: Option<Transport>)
    requires totalLen <= |packet|
    ensures r.Some? ==> offset <= r.value.offset && ProtocolOf(r.value.number).Some?
    decreases totalLen - offset
  {
    if next == 6 || next == 17 then Some(Transport(offset, next))
    else if !IsExtension(next) || offset + 8 > totalLen then None
    else Walk(packet, totalLen, offset + ExtensionLen(next, packet[offset + 1]), packet[offset])
  }

  method Ipv6TransportOffset(packet: seq<Byte>, totalLen: nat) returns (r: Option<Transport>)
    requires 40 <= totalLen <= |packet|
    ensures r == Walk(packet, totalLen, 40, packet[6])
  {
    var next := packet[6];
    var offset: nat := 40;
    while true
      invariant Walk(packet, totalLen, 40, packet[6]) == Walk(packet, totalLen, offset, next)
      decreases totalLen - offset
    {
      match next
      case 6 => return Some(Transport(offset, next));
      case 17 => return Some(Transport(offset, next));
      case 51 =>
        if offset + 8 > totalLen {
          return None;
        }
        var len: nat := packet[offset + 1];
        next, offset := packet[offset], offset + (len + 2) * 4;
      case _ =>
        if next != 0 && next != 43 && next != 44 && next != 60 {
          return None;
        }
        if offset + 8 > totalLen {
          return None;
        }
        var len: nat := packet[offset + 1];
        next, offset := packet[offset], offset + (len + 1) * 8;
    }
  }

  function ParseIpv6(packet: seq<Byte>): Option<IpPacket> {
    if |packet| < 40 then None
    else if packet[0] / 16 != 6 then None
    else
      var totalLen := 40 + BigEndian(packet[4], packet[5]);
      if totalLen > |packet| then None
      else
        match Walk(packet, totalLen, 40, packet[6])
        case None => None
        case Some(Transport(offset, number)) =>
          if offset + 4 > totalLen then None
          else
            var protocol := ProtocolOf(number).value;
            match TransportHeaderLen(protocol, packet, offset, totalLen)
            case None => None
            case Some(len) =>
              Some(IpPacket(
                V6(packet[8..24]), V6(packet[24..40]), protocol,
                BigEndian(packet[offset], packet[offset + 1]), BigEndian(packet[offset + 2], packet[offset + 3]),
                totalLen, SaturatingSub(totalLen, offset + len)))
  }

  function Parse(packet: seq<Byte>, isIpv6: bool): Option<IpPacket> {
    if isIpv6 then ParseIpv6(packet) else ParseIpv4(packet)
  }
}

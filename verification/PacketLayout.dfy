/** What the parser accepts: exactly the packets laid out as headers, extension headers and payload. */
module PacketLayout {
  import opened Core
  import opened Packet

  // ---------------------------------------------------------------- layouts

  /** An extension header: its kind, its length octet and the octets after the first two. */
  datatype Extension = Extension(kind: Byte, len: Byte, body: seq<Byte>)
  {
    predicate WellFormed() {
      && (kind == 0 || kind == 43 || kind == 44 || kind == 60 || kind == 51)
      && |body| + 2 == if kind == 51 then 4 * (len + 2) else 8 * (len + 1)
    }
  }

  datatype Header =
    | TcpHeader(source: nat, destination: nat, sequence: seq<Byte>, dataOffset: Byte, rest: seq<Byte>)
    | UdpHeader(source: nat, destination: nat, rest: seq<Byte>)
  {
    predicate WellFormed() {
      && source < 0x1_0000 && destination < 0x1_0000
      && match this
         case TcpHeader(_, _, sequence, dataOffset, rest) =>
           |sequence| == 8 && dataOffset / 16 >= 5 && 13 + |rest| == dataOffset / 16 * 4
         case UdpHeader(_, _, rest) => |rest| == 4
    }

    function Number(): Byte {
      if TcpHeader? then 6 else 17
    }

    function Kind(): Protocol {
      if TcpHeader? then Tcp else Udp
    }

    function Bytes(): seq<Byte>
      requires WellFormed()
    {
      match this
      case TcpHeader(_, _, sequence, dataOffset, rest) =>
        Word(source) + Word(destination) + sequence + [dataOffset] + rest
      case UdpHeader(_, _, rest) => Word(source) + Word(destination) + rest
    }
  }

  function Word(n: nat): (w: seq<Byte>)
    requires n < 0x1_0000
    ensures |w| == 2 && BigEndian(w[0], w[1]) == n
  {
    [n / 256, n % 256]
  }

  ghost predicate Chain(extensions: seq<Extension>) {
    forall i :: 0 <= i < |extensions| ==> extensions[i].WellFormed()
  }

  /** The kind written before the chain: that of its first header, or of what follows it. */
  function FirstKind(extensions: seq<Extension>, final: Byte): Byte {
    if extensions == [] then final else extensions[0].kind
  }

  function ChainBytes(extensions: seq<Extension>, final: Byte): seq<Byte> {
    if extensions == [] then []
    else
      [FirstKind(extensions[1..], final), extensions[0].len] + extensions[0].body + ChainBytes(extensions[1..], final)
  }

  /** An IPv6 packet; `start` holds version, traffic class and flow label, `trailer` is not part of it. */
  datatype Layout6 = Layout6(
    start: seq<Byte>, hopLimit: Byte, source: seq<Byte>, destination: seq<Byte>,
    extensions: seq<Extension>, header: Header, payload: seq<Byte>, trailer: seq<Byte>)
  {
    ghost predicate WellFormed() {
      && |start| == 4 && start[0] / 16 == 6
      && |source| == 16 && |destination| == 16
      && Chain(extensions) && header.WellFormed()
      && |Upper()| < 0x1_0000
    }

    function Upper(): seq<Byte>
      requires header.WellFormed()
    {
      ChainBytes(extensions, header.Number()) + (header.Bytes() + payload)
    }

    ghost function Bytes(): seq<Byte>
      requires WellFormed()
    {
      start + Word(|Upper()|) + [FirstKind(extensions, header.Number()), hopLimit] + source + destination
      + (Upper() + trailer)
    }

    ghost function Meaning(): IpPacket
      requires WellFormed()
    {
      IpPacket(V6(source), V6(destination), header.Kind(), header.source, header.destination,
               40 + |Upper()|, |payload|)
    }
  }

  /** An IPv4 packet with a full header; `options` is what follows the first 20 octets of it. */
  datatype Layout4 = Layout4(
    version: Byte, service: Byte, middle: seq<Byte>, checksum: seq<Byte>, source: seq<Byte>, destination: seq<Byte>,
    options: seq<Byte>, header: Header, payload: seq<Byte>, trailer: seq<Byte>)
  {
    ghost predicate WellFormed() {
      && version / 16 == 4 && version % 16 >= 5 && 20 + |options| == version % 16 * 4
      && |middle| == 5 && |checksum| == 2 && |source| == 4 && |destination| == 4
      && header.WellFormed()
      && Total() < 0x1_0000
    }

    function Total(): nat
      requires header.WellFormed()
    {
      20 + |options| + |header.Bytes()| + |payload|
    }

    ghost function Bytes(): seq<Byte>
      requires WellFormed()
    {
      [version, service] + Word(Total()) + middle + [header.Number()] + checksum + source + destination + options
      + (header.Bytes() + payload + trailer)
    }

    ghost function Meaning(): IpPacket
      requires WellFormed()
    {
      IpPacket(V4(source), V4(destination), header.Kind(), header.source, header.destination, Total(), |payload|)
    }
  }

  // ---------------------------------------------------------------- the transport header

  function HeaderLen(h: Header): nat {
    if h.TcpHeader? then h.dataOffset / 16 * 4 else 8
  }

  /** A transport header written at `offset` is read back, and is as long as the parser says. */
  lemma HeaderRead(h: Header, packet: seq<Byte>, offset: nat, totalLen: nat)
    requires h.WellFormed() && offset + |h.Bytes()| <= totalLen <= |packet|
    requires packet[offset..offset + |h.Bytes()|] == h.Bytes()
    ensures |h.Bytes()| == HeaderLen(h) >= 8
    ensures TransportHeaderLen(h.Kind(), packet, offset, totalLen) == Some(HeaderLen(h))
    ensures BigEndian(packet[offset], packet[offset + 1]) == h.source
    ensures BigEndian(packet[offset + 2], packet[offset + 3]) == h.destination
  {
    var b := h.Bytes();
    forall k | 0 <= k < |b| ensures packet[offset + k] == b[k] {
      assert packet[offset..offset + |b|][k] == b[k];
    }
    assert packet[offset + 0] == b[0] && packet[offset + 1] == b[1];
    assert packet[offset + 2] == b[2] && packet[offset + 3] == b[3];
    if h.TcpHeader? { assert packet[offset + 12] == b[12]; }
  }

  lemma TcpSlices(b: seq<Byte>, offset: nat, len: nat)
    requires len >= 20 && offset + len <= |b|
    ensures b[offset..offset + len]
      == [b[offset], b[offset + 1]] + [b[offset + 2], b[offset + 3]] + b[offset + 4..offset + 12] + [b[offset + 12]]
         + b[offset + 13..offset + len]
  {
  }

  lemma UdpSlices(b: seq<Byte>, offset: nat)
    requires offset + 8 <= |b|
    ensures b[offset..offset + 8]
      == [b[offset], b[offset + 1]] + [b[offset + 2], b[offset + 3]] + b[offset + 4..offset + 8]
  {
  }

  /** Where the parser finds a transport header, one is written. */
  lemma HeaderWritten(packet: seq<Byte>, offset: nat, totalLen: nat, protocol: Protocol) returns (h: Header)
    requires totalLen <= |packet| && TransportHeaderLen(protocol, packet, offset, totalLen).Some?
    ensures h.WellFormed() && h.Kind() == protocol
    ensures offset + |h.Bytes()| <= totalLen
    ensures packet[offset..offset + |h.Bytes()|] == h.Bytes()
  {
    hide Header.WellFormed, Header.Bytes;
    match protocol
    case Tcp => h := TcpWritten(packet, offset, totalLen);
    case Udp => h := UdpWritten(packet, offset, totalLen);
  }

  lemma TcpWritten(packet: seq<Byte>, offset: nat, totalLen: nat) returns (h: Header)
    requires totalLen <= |packet| && TransportHeaderLen(Tcp, packet, offset, totalLen).Some?
    ensures h.WellFormed() && h.Kind() == Tcp
    ensures offset + |h.Bytes()| <= totalLen
    ensures packet[offset..offset + |h.Bytes()|] == h.Bytes()
  {
    hide Word, BigEndian;
    WordOf(packet[offset], packet[offset + 1]);
    WordOf(packet[offset + 2], packet[offset + 3]);
    var len := packet[offset + 12] / 16 * 4;
    h := TcpHeader(BigEndian(packet[offset], packet[offset + 1]), BigEndian(packet[offset + 2], packet[offset + 3]),
                   packet[offset + 4..offset + 12], packet[offset + 12], packet[offset + 13..offset + len]);
    TcpSlices(packet, offset, len);
  }

  lemma UdpWritten(packet: seq<Byte>, offset: nat, totalLen: nat) returns (h: Header)
    requires totalLen <= |packet| && TransportHeaderLen(Udp, packet, offset, totalLen).Some?
    ensures h.WellFormed() && h.Kind() == Udp
    ensures offset + |h.Bytes()| <= totalLen
    ensures packet[offset..offset + |h.Bytes()|] == h.Bytes()
  {
    hide Word, BigEndian;
    WordOf(packet[offset], packet[offset + 1]);
    WordOf(packet[offset + 2], packet[offset + 3]);
    h := UdpHeader(BigEndian(packet[offset], packet[offset + 1]), BigEndian(packet[offset + 2], packet[offset + 3]),
                   packet[offset + 4..offset + 8]);
    UdpSlices(packet, offset);
  }

  // ---------------------------------------------------------------- the walk

  /** Where a written extension header and the chain behind it end up. */
  lemma ChainSlices(b: seq<Byte>, offset: nat, next: Byte, len: Byte, body: seq<Byte>, tail: seq<Byte>)
    requires offset + 2 + |body| + |tail| <= |b|
    requires b[offset..offset + 2 + |body| + |tail|] == [next, len] + body + tail
    ensures b[offset] == next && b[offset + 1] == len
    ensures b[offset + 2 + |body|..offset + 2 + |body| + |tail|] == tail
  {
    var slice := b[offset..offset + 2 + |body| + |tail|];
    assert slice[0] == next && slice[1] == len;
    assert b[offset + 2 + |body|..offset + 2 + |body| + |tail|] == slice[2 + |body|..];
  }

  lemma ChainStep(extensions: seq<Extension>, final: Byte)
    requires Chain(extensions) && extensions != []
    ensures var e, rest := extensions[0], extensions[1..];
      && IsExtension(e.kind) && |e.body| + 2 == ExtensionLen(e.kind, e.len) >= 8
      && Chain(rest) && FirstKind(extensions, final) == e.kind
      && ChainBytes(extensions, final) == [FirstKind(rest, final), e.len] + e.body + ChainBytes(rest, final)
      && |ChainBytes(extensions, final)| == ExtensionLen(e.kind, e.len) + |ChainBytes(rest, final)|
  {
    hide FirstKind;
    assert FirstKind(extensions, final) == extensions[0].kind by { KindOfFirst(extensions, final); }
  }

  lemma KindOfFirst(extensions: seq<Extension>, final: Byte)
    requires extensions != []
    ensures FirstKind(extensions, final) == extensions[0].kind
  {
  }

  lemma WalkStep(packet: seq<Byte>, totalLen: nat, offset: nat, kind: Byte)
    requires totalLen <= |packet| && IsExtension(kind) && offset + 8 <= totalLen
    ensures Walk(packet, totalLen, offset, kind)
      == Walk(packet, totalLen, offset + ExtensionLen(kind, packet[offset + 1]), packet[offset])
  {
  }

  lemma WalkEnds(final: Byte, packet: seq<Byte>, totalLen: nat, offset: nat)
    requires totalLen <= |packet| && ProtocolOf(final).Some?
    ensures FirstKind([], final) == final && ChainBytes([], final) == []
    ensures Walk(packet, totalLen, offset, final) == Some(Transport(offset, final))
  {
  }

  lemma {:induction false} WalkFollowsChain(
      extensions: seq<Extension>, final: Byte, packet: seq<Byte>, totalLen: nat, offset: nat)
    requires Chain(extensions) && ProtocolOf(final).Some?
    requires offset + |ChainBytes(extensions, final)| <= totalLen <= |packet|
    requires packet[offset..offset + |ChainBytes(extensions, final)|] == ChainBytes(extensions, final)
    ensures Walk(packet, totalLen, offset, FirstKind(extensions, final))
         == Some(Transport(offset + |ChainBytes(extensions, final)|, final))
  {
    hide *;
    if extensions == [] {
      WalkEnds(final, packet, totalLen, offset);
    } else {
      ChainStep(extensions, final);
      var e, rest := extensions[0], extensions[1..];
      ChainSlices(packet, offset, FirstKind(rest, final), e.len, e.body, ChainBytes(rest, final));
      WalkStep(packet, totalLen, offset, e.kind);
      WalkFollowsChain(rest, final, packet, totalLen, offset + ExtensionLen(e.kind, e.len));
    }
  }

  lemma {:induction false} WalkFindsChain(packet: seq<Byte>, totalLen: nat, offset: nat, next: Byte)
      returns (extensions: seq<Extension>)
    requires totalLen <= |packet| && Walk(packet, totalLen, offset, next).Some?
    requires Walk(packet, totalLen, offset, next).value.offset <= totalLen
    ensures var t := Walk(packet, totalLen, offset, next).value;
      && Chain(extensions) && FirstKind(extensions, t.number) == next
      && packet[offset..t.offset] == ChainBytes(extensions, t.number)
    decreases totalLen - offset
  {
    if next == 6 || next == 17 {
      extensions := [];
    } else {
      var len := ExtensionLen(next, packet[offset + 1]);
      var rest := WalkFindsChain(packet, totalLen, offset + len, packet[offset]);
      var t := Walk(packet, totalLen, offset, next).value;
      var e := Extension(next, packet[offset + 1], packet[offset + 2..offset + len]);
      extensions := [e] + rest;
      assert extensions[1..] == rest;
      assert packet[offset..t.offset]
          == [packet[offset], packet[offset + 1]] + packet[offset + 2..offset + len] + packet[offset + len..t.offset];
    }
  }

  // ---------------------------------------------------------------- IPv6

  /** Where the fields of a fixed IPv6 header end up. */
  lemma Fields6(a: seq<Byte>, w: seq<Byte>, k: seq<Byte>, s: seq<Byte>, d: seq<Byte>, t: seq<Byte>)
    requires |a| == 4 && |w| == 2 && |k| == 2 && |s| == 16 && |d| == 16
    ensures var b := a + w + k + s + d + t;
      && b[..4] == a && b[4..6] == w && b[6..8] == k && b[8..24] == s && b[24..40] == d && b[40..] == t
      && b[0] == a[0] && b[4] == w[0] && b[5] == w[1] && b[6] == k[0]
  {
  }

  lemma FieldsOf6(b: seq<Byte>)
    requires |b| >= 40
    ensures b == b[..4] + b[4..6] + [b[6], b[7]] + b[8..24] + b[24..40] + b[40..]
  {
  }

  lemma UpperSlices(b: seq<Byte>, chain: seq<Byte>, header: seq<Byte>, payload: seq<Byte>, trailer: seq<Byte>)
    requires |b| >= 40 && b[40..] == (chain + (header + payload)) + trailer
    ensures var offset := 40 + |chain|;
      && offset + |header| + |payload| <= |b|
      && b[40..offset] == chain && b[offset..offset + |header|] == header
  {
    var t := b[40..];
    SubSlice(b, 40, 0, |chain|);
    SubSlice(b, 40, |chain|, |chain| + |header|);
    assert t[0..|chain|] == chain && t[|chain|..|chain| + |header|] == header;
  }

  lemma SubSlice(b: seq<Byte>, start: nat, i: nat, j: nat)
    requires i <= j && start + j <= |b|
    ensures b[start..][i..j] == b[start + i..start + j]
  {
  }

  /** Where the parser finds the parts of a written packet. */
  lemma Ipv6Parts(l: Layout6)
    requires l.WellFormed()
    ensures var b := l.Bytes();
      var offset := 40 + |ChainBytes(l.extensions, l.header.Number())|;
      && |b| >= 40 + |l.Upper()| && |l.Upper()| < 0x1_0000
      && b[0] / 16 == 6 && BigEndian(b[4], b[5]) == |l.Upper()|
      && b[8..24] == l.source && b[24..40] == l.destination
      && Walk(b, 40 + |l.Upper()|, 40, b[6]) == Some(Transport(offset, l.header.Number()))
      && offset + |l.header.Bytes()| + |l.payload| == 40 + |l.Upper()|
      && b[offset..offset + |l.header.Bytes()|] == l.header.Bytes()
  {
    hide Header.Bytes, Walk, ChainBytes;
    var b := l.Bytes();
    var number := l.header.Number();
    var chain := ChainBytes(l.extensions, number);
    Fields6(l.start, Word(|l.Upper()|), [FirstKind(l.extensions, number), l.hopLimit], l.source, l.destination,
      l.Upper() + l.trailer);
    UpperSlices(b, chain, l.header.Bytes(), l.payload, l.trailer);
    WalkFollowsChain(l.extensions, number, b, 40 + |l.Upper()|, 40);
  }

  /** What the parser returns for a transport header found by the walk. */
  lemma ParseWithHeader(b: seq<Byte>, total: nat, offset: nat, h: Header)
    requires |b| >= 40 && b[0] / 16 == 6 && total == 40 + BigEndian(b[4], b[5]) <= |b|
    requires Walk(b, total, 40, b[6]) == Some(Transport(offset, h.Number()))
    requires h.WellFormed() && offset + |h.Bytes()| <= total && b[offset..offset + |h.Bytes()|] == h.Bytes()
    ensures ParseIpv6(b) == Some(IpPacket(
      V6(b[8..24]), V6(b[24..40]), h.Kind(), h.source, h.destination, total, total - (offset + |h.Bytes()|)))
  {
    hide Walk, TransportHeaderLen, BigEndian, Header.Bytes, Header.WellFormed, HeaderLen;
    HeaderRead(h, b, offset, total);
  }

  lemma MeaningIs(l: Layout6)
    requires l.WellFormed()
    ensures l.header.WellFormed()
    ensures l.Meaning() == IpPacket(
      V6(l.source), V6(l.destination), l.header.Kind(), l.header.source, l.header.destination, 40 + |l.Upper()|,
        |l.payload|)
  {
    hide Layout6.Upper, Header.WellFormed, Chain;
  }

  /** Parsing what a layout writes gives back its addresses, ports, flow and payload length. */
  lemma Ipv6RoundTrip(l: Layout6)
    requires l.WellFormed()
    ensures ParseIpv6(l.Bytes()) == Some(l.Meaning())
  {
    hide *;
    MeaningIs(l);
    Ipv6Parts(l);
    ParseWithHeader(l.Bytes(), 40 + |l.Upper()|, 40 + |ChainBytes(l.extensions, l.header.Number())|, l.header);
  }

  lemma WordOf(high: Byte, low: Byte)
    ensures Word(BigEndian(high, low)) == [high, low]
  {
  }

  /** The layout read off a packet whose extension chain and transport header have been found. */
  function LayoutOf6(packet: seq<Byte>, extensions: seq<Extension>, h: Header, end: nat, total: nat): Layout6
    requires 40 <= end <= total <= |packet|
  {
    Layout6(packet[..4], packet[7], packet[8..24], packet[24..40], extensions, h, packet[end..total], packet[total..])
  }

  lemma LayoutOf6Upper(packet: seq<Byte>, extensions: seq<Extension>, h: Header, offset: nat, end: nat, total: nat)
    requires 40 <= offset <= end <= total <= |packet| && h.WellFormed()
    requires packet[40..offset] == ChainBytes(extensions, h.Number()) && packet[offset..end] == h.Bytes()
    ensures LayoutOf6(packet, extensions, h, end, total).Upper() == packet[40..total]
  {
    hide Header.Bytes, Header.WellFormed, ChainBytes;
    UpperOf(packet, offset, end, total);
  }

  lemma LayoutOf6Bytes(packet: seq<Byte>, extensions: seq<Extension>, h: Header, end: nat, total: nat)
    requires 40 <= end <= total <= |packet| && total == 40 + BigEndian(packet[4], packet[5]) && packet[0] / 16 == 6
    requires Chain(extensions) && h.WellFormed() && FirstKind(extensions, h.Number()) == packet[6]
    requires LayoutOf6(packet, extensions, h, end, total).Upper() == packet[40..total]
    ensures var l := LayoutOf6(packet, extensions, h, end, total); l.WellFormed() && l.Bytes() == packet
  {
    hide Header.Bytes, Header.WellFormed, Layout6.Upper, Word, Chain, BigEndian;
    WordOf(packet[4], packet[5]);
    UpperOf(packet, 40, 40, total);
    FieldsOf6(packet);
  }

  /** Whatever the parser accepts is such a layout, and what it returns is the layout's meaning. */
  lemma Ipv6Accepted(packet: seq<Byte>) returns (l: Layout6)
    requires ParseIpv6(packet).Some?
    ensures l.WellFormed() && l.Bytes() == packet && ParseIpv6(packet) == Some(l.Meaning())
  {
    var total := 40 + BigEndian(packet[4], packet[5]);
    var t := Walk(packet, total, 40, packet[6]).value;
    hide Header.Bytes, Header.WellFormed, ChainBytes, TransportHeaderLen, BigEndian, Walk, FirstKind, Chain,
      Layout6.Upper, Layout6.Bytes, Layout6.WellFormed, Layout6.Meaning, LayoutOf6;
    var h := HeaderWritten(packet, t.offset, total, ProtocolOf(t.number).value);
    var extensions := WalkFindsChain(packet, total, 40, packet[6]);
    var end := t.offset + |h.Bytes()|;
    assert h.Number() == t.number;
    l := LayoutOf6(packet, extensions, h, end, total);
    hide ParseIpv6;
    LayoutOf6Upper(packet, extensions, h, t.offset, end, total);
    LayoutOf6Bytes(packet, extensions, h, end, total);
    Ipv6RoundTrip(l);
  }

  lemma UpperOf(b: seq<Byte>, offset: nat, end: nat, total: nat)
    requires 40 <= offset <= end <= total <= |b|
    ensures b[40..total] == b[40..offset] + (b[offset..end] + b[end..total])
    ensures b[40..] == b[40..total] + b[total..]
    ensures b[4..6] == [b[4], b[5]]
  {
  }

  // ---------------------------------------------------------------- IPv4

  lemma Fields4(a: seq<Byte>, w: seq<Byte>, m: seq<Byte>, n: seq<Byte>, c: seq<Byte>, s: seq<Byte>, d: seq<Byte>,
        o: seq<Byte>, t: seq<Byte>)
    requires |a| == 2 && |w| == 2 && |m| == 5 && |n| == 1 && |c| == 2 && |s| == 4 && |d| == 4
    ensures var b := a + w + m + n + c + s + d + o + t;
      && b[0] == a[0] && b[2] == w[0] && b[3] == w[1] && b[9] == n[0]
      && b[12..16] == s && b[16..20] == d && b[20 + |o|..] == t
  {
  }

  lemma FieldsOf4(b: seq<Byte>, offset: nat)
    requires 20 <= offset <= |b|
    ensures b == [b[0], b[1]] + [b[2], b[3]] + b[4..9] + [b[9]] + b[10..12] + b[12..16] + b[16..20]
                 + b[20..offset] + b[offset..]
  {
  }

  lemma HeaderSlice(b: seq<Byte>, offset: nat, header: seq<Byte>, payload: seq<Byte>, trailer: seq<Byte>)
    requires offset <= |b| && b[offset..] == header + payload + trailer
    ensures offset + |header| + |payload| <= |b| && b[offset..offset + |header|] == header
  {
    assert b[offset..offset + |header|] == b[offset..][..|header|];
  }

  /** The same for IPv4 with a full header. */
  lemma Ipv4RoundTrip(l: Layout4)
    requires l.WellFormed()
    ensures ParseIpv4(l.Bytes()) == Some(l.Meaning())
  {
    hide Header.Bytes, TransportHeaderLen;
    var b := l.Bytes();
    var offset := 20 + |l.options|;
    Fields4([l.version, l.service], Word(l.Total()), l.middle, [l.header.Number()], l.checksum, l.source,
      l.destination, l.options,
            l.header.Bytes() + l.payload + l.trailer);
    HeaderSlice(b, offset, l.header.Bytes(), l.payload, l.trailer);
    HeaderRead(l.header, b, offset, l.Total());
  }

  /** The layout read off a packet whose transport header has been found. */
  function LayoutOf4(packet: seq<Byte>, h: Header, end: nat, total: nat): Layout4
    requires 24 <= |packet| && 20 <= packet[0] % 16 * 4 <= end <= total <= |packet|
  {
    Layout4(packet[0], packet[1], packet[4..9], packet[10..12], packet[12..16], packet[16..20],
            packet[20..packet[0] % 16 * 4], h, packet[end..total], packet[total..])
  }

  lemma LayoutOf4WellFormed(packet: seq<Byte>, h: Header, end: nat, total: nat)
    requires 24 <= |packet| && 20 <= packet[0] % 16 * 4 <= end <= total <= |packet|
    requires packet[0] / 16 == 4 && h.WellFormed() && end == packet[0] % 16 * 4 + |h.Bytes()| && total < 0x1_0000
    ensures var l := LayoutOf4(packet, h, end, total); l.WellFormed() && l.Total() == total
  {
    hide Header.Bytes, Header.WellFormed;
  }

  lemma LayoutOf4Bytes(packet: seq<Byte>, h: Header, end: nat, total: nat)
    requires 24 <= |packet| && 20 <= packet[0] % 16 * 4 <= end <= total <= |packet|
    requires LayoutOf4(packet, h, end, total).WellFormed() && LayoutOf4(packet, h, end, total).Total() == total
    requires BigEndian(packet[2], packet[3]) == total && h.Number() == packet[9]
    requires packet[packet[0] % 16 * 4..end] == h.Bytes()
    ensures LayoutOf4(packet, h, end, total).Bytes() == packet
  {
    hide Header.Bytes, Layout4.WellFormed, Layout4.Total, Word, Header.WellFormed, BigEndian;
    var ihl := packet[0] % 16 * 4;
    WordOf(packet[2], packet[3]);
    FieldsOf4(packet, ihl);
    TailOf(packet, ihl, end, total);
  }

  /** Whatever is accepted with a header length of at least five words is such a layout. */
  lemma Ipv4Accepted(packet: seq<Byte>) returns (l: Layout4)
    requires ParseIpv4(packet).Some? && packet[0] % 16 >= 5
    ensures l.WellFormed() && l.Bytes() == packet && ParseIpv4(packet) == Some(l.Meaning())
  {
    hide Header.Bytes, Header.WellFormed, Layout4.WellFormed, Layout4.Total, Layout4.Bytes;
    var ihl := packet[0] % 16 * 4;
    var total := BigEndian(packet[2], packet[3]);
    var h := HeaderWritten(packet, ihl, total, ProtocolOf(packet[9]).value);
    var end := ihl + |h.Bytes()|;
    l := LayoutOf4(packet, h, end, total);
    LayoutOf4WellFormed(packet, h, end, total);
    LayoutOf4Bytes(packet, h, end, total);
    Ipv4RoundTrip(l);
    hide ParseIpv4, TransportHeaderLen;
  }

  lemma TailOf(b: seq<Byte>, offset: nat, end: nat, total: nat)
    requires offset <= end <= total <= |b|
    ensures b[offset..] == b[offset..end] + b[end..total] + b[total..]
  {
  }

  /** The packet has the fields an IPv4 parse needs, and room for its transport header behind `ihl` octets. */
  predicate HeaderFits(packet: seq<Byte>, ihl: nat)
    requires |packet| >= 24
  {
    var total := BigEndian(packet[2], packet[3]);
    && total <= |packet|
    && match ProtocolOf(packet[9])
       case None => false
       case Some(Tcp) =>
         ihl + 20 <= total && packet[ihl + 12] / 16 >= 5 && ihl + packet[ihl + 12] / 16 * 4 <= total
       case Some(Udp) => ihl + 8 <= total
  }

  /**
   Header lengths of zero to four words are not rejected: such a packet is accepted exactly if its
   transport header fits behind them, and the ports are then read from within the fixed IP header.
   */
  lemma ShortIpv4HeaderAccepted(packet: seq<Byte>)
    requires |packet| >= 24 && packet[0] / 16 == 4 && packet[0] % 16 < 5
    ensures var ihl := packet[0] % 16 * 4;
      && ihl + 3 < 20
      && (ParseIpv4(packet).Some? <==> HeaderFits(packet, ihl))
      && (ParseIpv4(packet).Some? ==>
           && ParseIpv4(packet).value.sourcePort == BigEndian(packet[ihl], packet[ihl + 1])
           && ParseIpv4(packet).value.destinationPort == BigEndian(packet[ihl + 2], packet[ihl + 3]))
  {
    hide BigEndian;
  }

  /** Every short header length is accepted with either transport, so the family is not empty. */
  lemma ShortIpv4HeaderExists(words: nat, protocol: Protocol) returns (packet: seq<Byte>)
    requires words < 5
    ensures |packet| == 60 && packet[0] == 64 + words && ParseIpv4(packet).Some?
    ensures ParseIpv4(packet).value.protocol == protocol
  {
    var first: Byte := 64 + words;
    var number: Byte := if protocol == Tcp then 6 else 17;
    packet := seq(60, i requires 0 <= i < 60 =>
      if i == 0 then first else if i == 3 then 60 else if i == 9 then number
      else if i >= 12 && i % 4 == 0 then 80 else 0);
    assert BigEndian(packet[2], packet[3]) == 60;
    if words > 0 { assert packet[words * 4 + 12] == 80; }
  }

  // ---------------------------------------------------------------- flows

  /** A written packet of either family. */
  datatype Written = Six(six: Layout6) | Four(four: Layout4)
  {
    ghost predicate WellFormed() {
      if Six? then six.WellFormed() else four.WellFormed()
    }

    ghost function Bytes(): seq<Byte>
      requires WellFormed()
    {
      if Six? then six.Bytes() else four.Bytes()
    }

    function Header(): Header {
      if Six? then six.header else four.header
    }

    function Source(): seq<Byte> {
      if Six? then six.source else four.source
    }

    function Destination(): seq<Byte> {
      if Six? then six.destination else four.destination
    }
  }

  /** Two written packets have the same flow exactly if family, addresses, transport and ports agree. */
  lemma SameFlow(k: Written, l: Written)
    requires k.WellFormed() && l.WellFormed()
    ensures Parse(k.Bytes(), k.Six?).Some? && Parse(l.Bytes(), l.Six?).Some?
    ensures Parse(k.Bytes(), k.Six?).value.Flow() == Parse(l.Bytes(), l.Six?).value.Flow()
      <==> k.Six? == l.Six? && k.Source() == l.Source() && k.Destination() == l.Destination()
           && k.Header().Kind() == l.Header().Kind()
           && k.Header().source == l.Header().source && k.Header().destination == l.Header().destination
  {
    hide ParseIpv4, ParseIpv6, Layout4.WellFormed, Layout4.Bytes, Layout6.WellFormed, Layout6.Bytes,
      Layout4.Total, Layout6.Upper;
    if k.Six? { Ipv6RoundTrip(k.six); } else { Ipv4RoundTrip(k.four); }
    if l.Six? { Ipv6RoundTrip(l.six); } else { Ipv4RoundTrip(l.four); }
  }

  // ---------------------------------------------------------------- any bytes

  /** On success headers and payload fill the packet's stated length, which the bytes cover. */
  lemma ParsedFits(packet: seq<Byte>, isIpv6: bool) returns (offset: nat, headerLen: nat)
    requires Parse(packet, isIpv6).Some?
    ensures var r := Parse(packet, isIpv6).value;
      && (if isIpv6
          then Walk(packet, r.totalLen, 40, packet[6]) == Some(Transport(offset, if r.protocol == Tcp then 6 else 17))
          else offset == packet[0] % 16 * 4)
      && TransportHeaderLen(r.protocol, packet, offset, r.totalLen) == Some(headerLen)
      && offset + headerLen + r.payloadLen == r.totalLen <= |packet|
      && r.sourcePort < 0x1_0000 && r.destinationPort < 0x1_0000
  {
    var r := Parse(packet, isIpv6).value;
    offset := if isIpv6 then Walk(packet, r.totalLen, 40, packet[6]).value.offset else packet[0] % 16 * 4;
    headerLen := TransportHeaderLen(r.protocol, packet, offset, r.totalLen).value;
  }
}

/** SOCKS5 addresses (sections 5 and 7 of RFC 1928), read from a stream, read from a packet, and written in
    front of a UDP payload. */
module SocksAddress {
  import opened Bytes
  import FrameCodec
  import Messages

  datatype Host =
    | IPv4(octets: seq<byte>)
    | IPv6(octets: seq<byte>)
    | Domain(name: seq<byte>)

  datatype Address = Address(host: Host, port: uint16)

  datatype SocksError = UnexpectedEnd | Unsupported | NameTooLong

  ghost predicate WellFormed(h: Host) {
    match h
    case IPv4(o) => |o| == 4
    case IPv6(o) => |o| == 16
    case Domain(_) => true
  }

  /** ::ffff:a.b.c.d, which Go prints and treats as the IPv4 address a.b.c.d. */
  predicate Mapped(octets: seq<byte>) {
    |octets| == 16 && octets[..10] == [0, 0, 0, 0, 0, 0, 0, 0, 0, 0] && octets[10..12] == [255, 255]
  }

  function IPv6Host(octets: seq<byte>): Host
    requires |octets| == 16
  {
    if Mapped(octets) then IPv4(octets[12..]) else IPv6(octets)
  }

  /** readPacketAddr: the address at the front of a packet and its length. */
  function ReadPacket(p: seq<byte>): (r: Result<(Address, nat), SocksError>)
    ensures r.Success? ==> 0 < r.value.1 <= |p| && WellFormed(r.value.0.host)
  {
    if |p| < 1 then Failure(UnexpectedEnd)
    else if p[0] == 1 then
      if |p| < 7 then Failure(UnexpectedEnd)
      else Success((Address(IPv4(p[1..5]), GetUint16(p[5..7])), 7))
    else if p[0] == 3 then
      if |p| < 2 then Failure(UnexpectedEnd)
      else
        var size: int := p[1];
        if |p| < 2 + size + 2 then Failure(UnexpectedEnd)
        else Success((Address(Domain(p[2..2 + size]), GetUint16(p[2 + size..2 + size + 2])), 2 + size + 2))
    else if p[0] == 4 then
      if |p| < 19 then Failure(UnexpectedEnd)
      else Success((Address(IPv6Host(p[1..17]), GetUint16(p[17..19])), 19))
    else Failure(Unsupported)
  }

  /** What readSocksAddr returns: the address and the raw bytes to echo, or an error. */
  type StreamResult = Result<(Address, seq<byte>), SocksError>

  method ReadBytes(src: FrameCodec.Source, n: nat) returns (r: Option<seq<byte>>)
    modifies src
    ensures r.Some? <==> n <= |old(src.rest)|
    ensures r.Some? ==> r.value == old(src.rest)[..n] && src.rest == old(src.rest)[n..]
  {
    var buf := new byte[n](_ => 0);
    var err := src.Fill(buf);
    r := if err.None? then Some(buf[..]) else None;
  }

  /** readSocksAddr agrees with readPacketAddr: reading an address of a given type from a stream succeeds
      exactly when the packet parser accepts type byte and stream, with the same address; the raw bytes are
      exactly the type byte and what was consumed. */
  method ReadStream(src: FrameCodec.Source, atyp: byte) returns (r: StreamResult)
    modifies src
    ensures r.Success? <==> ReadPacket([atyp] + old(src.rest)).Success?
    ensures r.Success? ==>
              var (addr, n) := ReadPacket([atyp] + old(src.rest)).value;
              && r.value.0 == addr && r.value.1 == ([atyp] + old(src.rest))[..n]
              && src.rest == ([atyp] + old(src.rest))[n..]
  {
    ghost var p := [atyp] + src.rest;
    if atyp == 1 {
      var buf := ReadBytes(src, 6);
      if buf.None? {
        return Failure(UnexpectedEnd);
      }
      assert buf.value[..4] == p[1..5] && buf.value[4..6] == p[5..7];
      r := Success((Address(IPv4(buf.value[..4]), GetUint16(buf.value[4..6])), [atyp] + buf.value));
    } else if atyp == 3 {
      r := ReadDomain(src);
    } else if atyp == 4 {
      var buf := ReadBytes(src, 18);
      if buf.None? {
        return Failure(UnexpectedEnd);
      }
      assert buf.value[..16] == p[1..17] && buf.value[16..18] == p[17..19];
      r := Success((Address(IPv6Host(buf.value[..16]), GetUint16(buf.value[16..18])), [atyp] + buf.value));
    } else {
      r := Failure(Unsupported);
    }
  }

  /** The variable-length case: a size byte, the name, and the port. */
  method ReadDomain(src: FrameCodec.Source) returns (r: StreamResult)
    modifies src
    ensures r.Success? <==> ReadPacket([3] + old(src.rest)).Success?
    ensures r.Success? ==>
              var (addr, n) := ReadPacket([3] + old(src.rest)).value;
              && r.value.0 == addr && r.value.1 == ([3] + old(src.rest))[..n]
              && src.rest == ([3] + old(src.rest))[n..]
  {
    ghost var p, whole := [3] + src.rest, src.rest;
    assert |whole| >= 1 ==> p[2..] == whole[1..] && p[1] == whole[0];
    var size := ReadBytes(src, 1);
    if size.None? {
      return Failure(UnexpectedEnd);
    }
    var n: int := size.value[0];
    ghost var q := src.rest;
    assert p[2..] == q && p[1] == n;
    var buf := ReadBytes(src, n + 2);
    if buf.None? {
      return Failure(UnexpectedEnd);
    }
    assert buf.value[..n] == p[2..2 + n] && buf.value[n..] == p[2 + n..2 + n + 2];
    r := Success((Address(Domain(buf.value[..n]), GetUint16(buf.value[n..])), [3, size.value[0]] + buf.value));
  }

  /** The parser looks at nothing beyond the address. */
  lemma ReadPacketLocal(p: seq<byte>, rest: seq<byte>)
    requires ReadPacket(p).Success?
    ensures ReadPacket(p[..ReadPacket(p).value.1] + rest) == ReadPacket(p)
  {
    var n := ReadPacket(p).value.1;
    var q := p[..n] + rest;
    if p[0] == 1 {
      assert q[1..5] == p[1..5] && q[5..7] == p[5..7];
    } else if p[0] == 3 {
      var size: int := p[1];
      assert q[2..2 + size] == p[2..2 + size] && q[2 + size..2 + size + 2] == p[2 + size..2 + size + 2];
    } else {
      assert q[1..17] == p[1..17] && q[17..19] == p[17..19];
    }
  }

  // ---- Writing ----

  /** How the text of a host is understood when it is written back: a name that is itself the text of an IP
      address becomes that address.  Parsing that text is the library's business, so it is a parameter. */
  function Understood(h: Host, parseIP: seq<byte> -> Option<Host>): Host {
    match h
    case Domain(name) => (match parseIP(name) case Some(ip) => ip case None => h)
    case IPv6(o) => if Mapped(o) then IPv4(o[12..]) else h
    case IPv4(_) => h
  }

  ghost predicate ParsesAddresses(parseIP: seq<byte> -> Option<Host>) {
    forall name :: parseIP(name).Some? ==> WellFormed(parseIP(name).value) && !parseIP(name).value.Domain?
                                           && (parseIP(name).value.IPv6? ==> !Mapped(parseIP(name).value.octets))
  }

  function HostBytes(h: Host): Result<seq<byte>, SocksError> {
    match h
    case IPv4(o) => Success([1] + o)
    case IPv6(o) => Success([4] + o)
    case Domain(name) => if |name| > 255 then Failure(NameTooLong) else Success([3, |name|] + name)
  }

  /** encodeSocksUDPDatagram */
  function EncodeUdp(target: Address, payload: seq<byte>, parseIP: seq<byte> -> Option<Host>)
    : Result<seq<byte>, SocksError> {
    match HostBytes(Understood(target.host, parseIP))
    case Failure(e) => Failure(e)
    case Success(h) => Success([0, 0, 0] + h + PutUint16(target.port) + payload)
  }

  method EncodeSocksUDPDatagram(target: Address, payload: seq<byte>, parseIP: seq<byte> -> Option<Host>)
    returns (r: Result<seq<byte>, SocksError>)
    ensures r == EncodeUdp(target, payload, parseIP)
  {
    var packet: seq<byte> := [0, 0, 0];
    var host := Understood(target.host, parseIP);
    if host.IPv4? {
      packet := packet + [1];
      packet := packet + host.octets;
    } else if host.IPv6? {
      packet := packet + [4];
      packet := packet + host.octets;
    } else {
      if |host.name| > 255 {
        return Failure(NameTooLong);
      }
      packet := packet + [3, |host.name|];
      packet := packet + host.name;
    }
    ghost var front := packet;
    packet := packet + PutUint16(target.port);
    packet := packet + payload;
    assert front == [0, 0, 0] + HostBytes(host).value;
    r := Success(packet);
  }

  lemma HostBytesParse(h: Host, port: uint16, rest: seq<byte>)
    requires WellFormed(h) && HostBytes(h).Success? && (h.IPv6? ==> !Mapped(h.octets))
    ensures var b := HostBytes(h).value + PutUint16(port);
            ReadPacket(b + rest) == Success((Address(h, port), |b|))
  {
    var b := HostBytes(h).value + PutUint16(port);
    var p := b + rest;
    match h
    case IPv4(o) => assert p[1..5] == o && p[5..7] == PutUint16(port);
    case IPv6(o) => assert p[1..17] == o && p[17..19] == PutUint16(port);
    case Domain(name) =>
      var n := |name|;
      assert p[2..2 + n] == name && p[2 + n..2 + n + 2] == PutUint16(port);
  }

  /** A UDP header written for a target parses back to that target with the payload right behind it exactly
      when the target's host is neither an IPv4-mapped IPv6 address nor a name that spells an IP address. */
  lemma UdpHeaderRoundTrip(target: Address, payload: seq<byte>, parseIP: seq<byte> -> Option<Host>)
    requires WellFormed(target.host) && ParsesAddresses(parseIP) && EncodeUdp(target, payload, parseIP).Success?
    ensures var packet := EncodeUdp(target, payload, parseIP).value;
            && |packet| >= 3 && ReadPacket(packet[3..]).Success?
            && packet[3 + ReadPacket(packet[3..]).value.1..] == payload
            && (ReadPacket(packet[3..]).value.0 == target <==>
                !(target.host.IPv6? && Mapped(target.host.octets))
                && !(target.host.Domain? && parseIP(target.host.name).Some?))
  {
    var host := Understood(target.host, parseIP);
    var packet := EncodeUdp(target, payload, parseIP).value;
    var b := HostBytes(host).value + PutUint16(target.port);
    assert packet == [0, 0, 0] + (b + payload);
    assert packet[3..] == b + payload;
    HostBytesParse(host, target.port, payload);
    assert packet[3 + |b|..] == payload;
  }

  // ---- A UDP packet from a local program ----

  /** handleUDPAssociate: the target and the payload to send, or nothing if the packet is skipped. */
  function UdpRequest(packet: seq<byte>): Option<(Address, seq<byte>)> {
    if |packet| < 10 then None
    else
      match ReadPacket(packet[3..])
      case Failure(_) => None
      case Success((addr, n)) =>
        var payload := packet[3 + n..];
        Some((addr, payload[..Min(|payload|, Messages.MAX_LOCAL_DATAGRAM)]))
  }

  /** What the client sends back to a local program, the program could send to the client: the same target
      and the payload, cut at 1200 bytes; packets under ten bytes are skipped. */
  lemma UdpRequestReadsReply(target: Address, payload: seq<byte>, parseIP: seq<byte> -> Option<Host>)
    requires WellFormed(target.host) && ParsesAddresses(parseIP) && EncodeUdp(target, payload, parseIP).Success?
    requires !(target.host.IPv6? && Mapped(target.host.octets))
    requires !(target.host.Domain? && parseIP(target.host.name).Some?)
    ensures var packet := EncodeUdp(target, payload, parseIP).value;
            UdpRequest(packet) == if |packet| < 10 then None
                                  else Some((target, payload[..Min(|payload|, Messages.MAX_LOCAL_DATAGRAM)]))
  {
    UdpHeaderRoundTrip(target, payload, parseIP);
  }
}

/** The formats byte by byte, in the numbers of the protocol: frames, payloads and SOCKS packets. */
module WireFormat {
  import opened Bytes
  import opened FrameCodec
  import Messages
  import SocksAddress

  /** Big-endian numbers at a position. */
  function Big16(b: seq<byte>, i: nat): int
    requires i + 2 <= |b|
  {
    var x: int, y: int := b[i], b[i + 1];
    x * 256 + y
  }

  function Big32(b: seq<byte>, i: nat): int
    requires i + 4 <= |b|
  {
    Big16(b, i) * 65536 + Big16(b, i + 2)
  }

  lemma BigIsGet(b: seq<byte>, i: nat)
    ensures i + 2 <= |b| ==> GetUint16(b[i..i + 2]) == Big16(b, i)
    ensures i + 4 <= |b| ==> GetUint32(b[i..i + 4]) == Big32(b, i)
  {
    if i + 4 <= |b| {
      assert b[i..i + 4][..2] == b[i..i + 2] && b[i..i + 4][2..] == b[i + 2..i + 4];
    }
  }

  // ---- Frames ----

  /** The codes of the sixteen frame types. */
  lemma FrameCodes()
    ensures [AUTH, AUTHOK, AUTHERR, SETTINGS, PING, PONG, OPENTCP, OPENOK, OPENERR, TCPDATA, TCPCLOSE, OPENUDP, UDPDATA,
             UDPCLOSE, ERROR, SESSIONCLOSE]
            == [0x01, 0x02, 0x03, 0x10, 0x11, 0x12, 0x20, 0x21, 0x22, 0x23, 0x24, 0x30, 0x31, 0x32, 0x7E, 0x7F]
  {
  }

  predicate KnownCode(t: byte) {
    t in {0x01, 0x02, 0x03, 0x10, 0x11, 0x12, 0x20, 0x21, 0x22, 0x23, 0x24, 0x30, 0x31, 0x32, 0x7E, 0x7F}
  }

  /** The encoder refuses exactly three kinds of frames, in this order; any other is written as one byte each for
      version, type, flags and header length, four big-endian numbers of four bytes for session, channel, sequence
      number and payload length, and the payload. */
  lemma FrameBytes(f: Frame)
    ensures EncodeError(f) == if f.version != 0 && f.version != 1 then Some(InvalidVersion)
                              else if !KnownCode(f.kind) then Some(UnknownType)
                              else if |f.payload| > 16384 then Some(PayloadTooLarge) else None
    ensures Encodable(f) ==>
              var b := Encoding(f);
              && |b| == 20 + |f.payload| && b[0] == 1 && b[1] == f.kind && b[2] == f.flags
              && b[3] == (if f.headerLen == 0 then 20 else f.headerLen)
              && Big32(b, 4) == f.sessionID && Big32(b, 8) == f.channelID && Big32(b, 12) == f.seqNo
              && Big32(b, 16) == |f.payload| && b[20..] == f.payload
  {
    if Encodable(f) {
      var b, g := Encoding(f), Normalise(f);
      assert b[..20] == Header(g, |f.payload|);
      HeaderFields(g, |f.payload|, b[..20]);
      forall i | i in {4, 8, 12, 16}
        ensures b[..20][i..i + 4] == b[i..i + 4] && GetUint32(b[i..i + 4]) == Big32(b, i)
      {
        BigIsGet(b, i);
      }
    }
  }

  /** How reading a frame ends, for every byte stream: the errors in their order, and how many bytes each takes. */
  lemma FrameReading(s: seq<byte>)
    ensures |s| < 20 ==> Decode(s) == Parsed(Failure(if s == [] then EndOfStream else UnexpectedEnd), |s|)
    ensures |s| >= 20 ==>
              var n := Big32(s, 16);
              Decode(s) ==
                if s[0] != 1 then Parsed(Failure(InvalidVersion), 20)
                else if s[3] < 20 then Parsed(Failure(InvalidHeader), 20)
                else if !KnownCode(s[1]) then Parsed(Failure(UnknownType), 20)
                else if n > 16384 then Parsed(Failure(PayloadTooLarge), 20)
                else if |s| == 20 && n > 0 then Parsed(Failure(PayloadRead(EndOfStream)), |s|)
                else if |s| < 20 + n then Parsed(Failure(PayloadRead(UnexpectedEnd)), |s|)
                else Parsed(Success(Frame(s[0], s[1], s[2], s[3], Big32(s, 4), Big32(s, 8), Big32(s, 12),
                                          s[20..20 + n])),
                            20 + n)
  {
    if |s| >= 20 {
      forall i | i in {4, 8, 12, 16}
        ensures s[..20][i..i + 4] == s[i..i + 4] && GetUint32(s[i..i + 4]) == Big32(s, i)
      {
        BigIsGet(s, i);
      }
      var n := Big32(s, 16);
      if |s| >= 20 + n {
        assert s[20..][..n] == s[20..20 + n];
      }
    }
  }

  // ---- Payloads ----

  /** AUTH: the length of the token, the token, the nonce of twelve bytes. */
  lemma AuthBytes(p: Messages.Auth, b: seq<byte>)
    ensures var e := Messages.EncodeAuth(p);
            && |e| == 2 + |p.token| + 12 && Big16(e, 0) == |p.token| % 65536
            && e[2..2 + |p.token|] == p.token && e[2 + |p.token|..] == p.nonce
    ensures |b| < 14 ==> Messages.DecodeAuth(b).Failure?
    ensures |b| >= 14 ==>
              var n := Big16(b, 0);
              if |b| < 2 + n + 12 then Messages.DecodeAuth(b).Failure?
              else Messages.DecodeAuth(b) == Success(Messages.AuthPayload(b[2..2 + n], b[2 + n..2 + n + 12]))
  {
    BigIsGet(Messages.EncodeAuth(p), 0);
    assert Messages.EncodeAuth(p)[0..2] == PutUint16(Messages.Low16(|p.token|));
    BigIsGet(b, 0);
    assert |b| >= 2 ==> b[..2] == b[0..2];
  }

  /** Open requests: the length of the address and the address. */
  lemma AddressBytes(addr: seq<byte>, b: seq<byte>)
    ensures var e := Messages.EncodeAddress(addr);
            |e| == 2 + |addr| && Big16(e, 0) == |addr| % 65536 && e[2..] == addr
    ensures |b| < 2 ==> Messages.DecodeAddress(b).Failure?
    ensures |b| >= 2 ==>
              var n := Big16(b, 0);
              if |b| < 2 + n then Messages.DecodeAddress(b).Failure?
              else Messages.DecodeAddress(b) == Success(b[2..2 + n])
  {
    BigIsGet(Messages.EncodeAddress(addr), 0);
    assert Messages.EncodeAddress(addr)[0..2] == PutUint16(Messages.Low16(|addr|));
    BigIsGet(b, 0);
    assert |b| >= 2 ==> b[..2] == b[0..2];
  }

  /** Datagrams: two numbers of four bytes, four of two, and the data. */
  lemma DatagramBytes(d: Messages.Datagram)
    ensures var e := Messages.EncodeDatagram(d);
            && |e| == 16 + |d.data| && Big32(e, 0) == d.id && Big32(e, 4) == d.sentMS && Big16(e, 8) == d.deadlineMS
            && Big16(e, 10) == d.fragIndex && Big16(e, 12) == d.fragCount && Big16(e, 14) == d.totalLen
            && e[16..] == d.data
  {
    var e := Messages.EncodeDatagram(d);
    Messages.DatagramRoundTrip(d);
    BigIsGet(e, 0);
    BigIsGet(e, 4);
    BigIsGet(e, 8);
    BigIsGet(e, 10);
    BigIsGet(e, 12);
    BigIsGet(e, 14);
    assert e[..4] == e[0..4];
  }

  // ---- SOCKS packets ----

  function At(b: seq<byte>, i: nat): nat
    requires i < |b|
  {
    b[i]
  }

  lemma MappedBytes(o: seq<byte>)
    requires |o| == 16
    ensures SocksAddress.Mapped(o) <==> (forall i :: 0 <= i < 10 ==> o[i] == 0) && o[10] == 255 && o[11] == 255
  {
    assert o[10..12] == [o[10], o[11]];
    if SocksAddress.Mapped(o) {
      assert forall i :: 0 <= i < 10 ==> o[i] == o[..10][i];
    }
  }

  /** Reading an address: type 1 with four bytes, 3 with a length byte and a name, 4 with sixteen bytes, each followed
      by a big-endian port; an IPv4-mapped address of type 4 is an IPv4 address. */
  lemma SocksReading(p: seq<byte>)
    ensures SocksAddress.ReadPacket(p) ==
              if |p| < 1 then Failure(SocksAddress.UnexpectedEnd)
              else if p[0] == 1 && |p| >= 7
              then Success((SocksAddress.Address(SocksAddress.IPv4(p[1..5]), Big16(p, 5)), 7))
              else if p[0] == 3 && |p| >= 2 && |p| >= 4 + At(p, 1)
              then
                var n := At(p, 1);
                Success((SocksAddress.Address(SocksAddress.Domain(p[2..2 + n]), Big16(p, 2 + n)), 4 + n))
              else if p[0] == 4 && |p| >= 19
              then Success((SocksAddress.Address(SocksAddress.IPv6Host(p[1..17]), Big16(p, 17)), 19))
              else if p[0] in {1, 3, 4} then Failure(SocksAddress.UnexpectedEnd)
              else Failure(SocksAddress.Unsupported)
    ensures |p| >= 19 && p[0] == 4 ==>
              SocksAddress.IPv6Host(p[1..17]) ==
                if (forall i :: 1 <= i < 11 ==> p[i] == 0) && p[11] == 255 && p[12] == 255
                then SocksAddress.IPv4(p[13..17]) else SocksAddress.IPv6(p[1..17])
  {
    BigIsGet(p, 5);
    BigIsGet(p, 17);
    if |p| >= 2 && |p| >= 4 + At(p, 1) {
      BigIsGet(p, 2 + At(p, 1));
    }
    if |p| >= 19 {
      MappedBytes(p[1..17]);
      assert p[1..17][12..] == p[13..17];
      assert forall i :: 1 <= i < 11 ==> p[i] == p[1..17][i - 1];
    }
  }

  /** A packet to a local program: three zero bytes, the address of its target in the same form, and the payload; a name
      over 255 bytes is refused. */
  lemma SocksWriting(target: SocksAddress.Address, payload: seq<byte>, parseIP: seq<byte> -> Option<SocksAddress.Host>)
    requires SocksAddress.WellFormed(target.host) && SocksAddress.ParsesAddresses(parseIP)
    ensures var h, r := SocksAddress.Understood(target.host, parseIP), SocksAddress.EncodeUdp(target, payload, parseIP);
            && (r.Failure? <==> h.Domain? && |h.name| > 255)
            && (r.Success? ==>
                  var b := r.value;
                  && |b| >= 6 && b[..3] == [0, 0, 0]
                  && match h
                     case IPv4(o) => |b| == 10 + |payload| && b[3] == 1 && b[4..8] == o && Big16(b, 8) == target.port
                                     && b[10..] == payload
                     case IPv6(o) => |b| == 22 + |payload| && b[3] == 4 && b[4..20] == o && Big16(b, 20) == target.port
                                     && b[22..] == payload
                     case Domain(n) => |b| == 7 + |n| + |payload| && b[3] == 3 && b[4] == |n| && b[5..5 + |n|] == n
                                       && Big16(b, 5 + |n|) == target.port && b[7 + |n|..] == payload)
  {
    var h, r := SocksAddress.Understood(target.host, parseIP), SocksAddress.EncodeUdp(target, payload, parseIP);
    if r.Success? {
      var front := [0, 0, 0] + SocksAddress.HostBytes(h).value;
      var b := r.value;
      assert b == front + PutUint16(target.port) + payload;
      assert b[|front|..|front| + 2] == PutUint16(target.port);
      BigIsGet(b, |front|);
    }
  }

  /** A packet from a local program asks for the address behind its first three bytes and sends what follows, cut at
      1200
      bytes; packets under ten bytes or with an address that does not parse are skipped. */
  lemma SocksRequest(packet: seq<byte>)
    ensures SocksAddress.UdpRequest(packet) ==
              if |packet| < 10 || SocksAddress.ReadPacket(packet[3..]).Failure? then None
              else
                var (addr, n) := SocksAddress.ReadPacket(packet[3..]).value;
                Some((addr, if |packet| - 3 - n > 1200 then packet[3 + n..1203 + n] else packet[3 + n..]))
  {
    if |packet| >= 10 && SocksAddress.ReadPacket(packet[3..]).Success? {
      var (addr, n) := SocksAddress.ReadPacket(packet[3..]).value;
      var payload := packet[3 + n..];
      assert |payload| > 1200 ==> payload[..1200] == packet[3 + n..1203 + n];
      assert payload[..|payload|] == payload;
    }
  }
}

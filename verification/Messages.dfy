/** Payload formats: authentication, addresses and UDP datagrams. */
module Messages {
  import opened Bytes
  import FrameCodec

  /** Local programs and UDP targets are read in packets of at most this size. */
  const MAX_LOCAL_DATAGRAM: nat := 1200

  datatype DecodeError = UnexpectedEnd

  datatype AuthPayload = AuthPayload(token: seq<byte>, nonce: seq<byte>)

  /** The nonce is a 12-byte array in the program. */
  type Auth = p: AuthPayload | |p.nonce| == 12 witness AuthPayload([], [0, 0, 0, 0, 0, 0, 0, 0, 0, 0, 0, 0])

  /** A Go conversion to uint16 keeps the low sixteen bits. */
  function Low16(n: nat): uint16 {
    n % 0x1_0000
  }

  function EncodeAuth(p: Auth): seq<byte> {
    PutUint16(Low16(|p.token|)) + p.token + p.nonce
  }

  function DecodeAuth(b: seq<byte>): Result<Auth, DecodeError> {
    if |b| < 14 then Failure(UnexpectedEnd)
    else
      var n := GetUint16(b[..2]);
      if |b| < 2 + n + 12 then Failure(UnexpectedEnd)
      else Success(AuthPayload(b[2..2 + n], b[2 + n..2 + n + 12]))
  }

  /** The length field is sixteen bits wide, so the format round-trips exactly for tokens shorter than
      65536 bytes; whatever follows the nonce is ignored. */
  lemma AuthRoundTrip(p: Auth, rest: seq<byte>)
    ensures DecodeAuth(EncodeAuth(p) + rest) == Success(p) <==> |p.token| < 0x1_0000
  {
    var b := EncodeAuth(p) + rest;
    var n: int := Low16(|p.token|);
    assert b[..2] == PutUint16(n);
    if |p.token| < 0x1_0000 {
      assert b[2..2 + n] == p.token;
      assert b[2 + n..2 + n + 12] == p.nonce;
    } else {
      assert DecodeAuth(b).Success? ==> |DecodeAuth(b).value.token| == n;
    }
  }

  function EncodeAddress(addr: seq<byte>): seq<byte> {
    PutUint16(Low16(|addr|)) + addr
  }

  function DecodeAddress(b: seq<byte>): Result<seq<byte>, DecodeError> {
    if |b| < 2 then Failure(UnexpectedEnd)
    else
      var n := GetUint16(b[..2]);
      if |b| < 2 + n then Failure(UnexpectedEnd) else Success(b[2..2 + n])
  }

  lemma AddressRoundTrip(addr: seq<byte>, rest: seq<byte>)
    ensures DecodeAddress(EncodeAddress(addr) + rest) == Success(addr) <==> |addr| < 0x1_0000
  {
    var b := EncodeAddress(addr) + rest;
    var n: int := Low16(|addr|);
    assert b[..2] == PutUint16(n);
    if |addr| < 0x1_0000 {
      assert b[2..2 + n] == addr;
    } else {
      assert DecodeAddress(b).Success? ==> |DecodeAddress(b).value| == n;
    }
  }

  datatype Datagram = Datagram(
    id: uint32, sentMS: uint32, deadlineMS: uint16,
    fragIndex: uint16, fragCount: uint16, totalLen: uint16, data: seq<byte>)

  function DatagramHeader(d: Datagram): (b: seq<byte>)
    ensures |b| == 16
  {
    PutUint32(d.id) + PutUint32(d.sentMS) + PutUint16(d.deadlineMS)
    + PutUint16(d.fragIndex) + PutUint16(d.fragCount) + PutUint16(d.totalLen)
  }

  function EncodeDatagram(d: Datagram): (b: seq<byte>)
    ensures |b| == 16 + |d.data|
  {
    DatagramHeader(d) + d.data
  }

  function DecodeDatagram(b: seq<byte>): (r: Result<Datagram, DecodeError>)
    ensures r.Failure? <==> |b| < 16
  {
    if |b| < 16 then Failure(UnexpectedEnd)
    else Success(Datagram(GetUint32(b[..4]), GetUint32(b[4..8]), GetUint16(b[8..10]),
                          GetUint16(b[10..12]), GetUint16(b[12..14]), GetUint16(b[14..16]), b[16..]))
  }

  /** The datagram format is a bijection between datagrams and byte strings of at least 16 bytes. */
  lemma DatagramRoundTrip(d: Datagram)
    ensures DecodeDatagram(EncodeDatagram(d)) == Success(d)
  {
    var b := EncodeDatagram(d);
    var h := DatagramHeader(d);
    assert b == h + d.data && b[16..] == d.data;
    assert b[..4] == h[..4] == PutUint32(d.id);
    assert b[4..8] == h[4..8] == PutUint32(d.sentMS);
    assert b[8..10] == h[8..10] == PutUint16(d.deadlineMS);
    assert b[10..12] == h[10..12] == PutUint16(d.fragIndex);
    assert b[12..14] == h[12..14] == PutUint16(d.fragCount);
    assert b[14..16] == h[14..16] == PutUint16(d.totalLen);
  }

  lemma DatagramReencode(b: seq<byte>)
    requires |b| >= 16
    ensures EncodeDatagram(DecodeDatagram(b).value) == b
  {
    PutGetUint32(b[..4]);
    PutGetUint32(b[4..8]);
    PutGetUint16(b[8..10]);
    PutGetUint16(b[10..12]);
    PutGetUint16(b[12..14]);
    PutGetUint16(b[14..16]);
    assert b == b[..4] + b[4..8] + b[8..10] + b[10..12] + b[12..14] + b[14..16] + b[16..];
  }

  /** A datagram of a UDP channel as a frame. */
  function UdpDataFrame(channel: uint32, d: Datagram): FrameCodec.Frame {
    FrameCodec.ZERO_FRAME.(kind := FrameCodec.UDPDATA, channelID := channel, payload := EncodeDatagram(d))
  }
}

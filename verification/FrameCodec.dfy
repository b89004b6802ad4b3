/** The SLPP frame codec: a fixed 20-byte header followed by the payload. */
module FrameCodec {
  import opened Bytes

  const VERSION: byte := 1
  const HEADER_LEN: byte := 20
  const MAX_PAYLOAD_LEN: nat := 16 * 1024

  const AUTH: byte := 0x01
  const AUTHOK: byte := 0x02
  const AUTHERR: byte := 0x03
  const SETTINGS: byte := 0x10
  const PING: byte := 0x11
  const PONG: byte := 0x12
  const OPENTCP: byte := 0x20
  const OPENOK: byte := 0x21
  const OPENERR: byte := 0x22
  const TCPDATA: byte := 0x23
  const TCPCLOSE: byte := 0x24
  const OPENUDP: byte := 0x30
  const UDPDATA: byte := 0x31
  const UDPCLOSE: byte := 0x32
  const ERROR: byte := 0x7E
  const SESSIONCLOSE: byte := 0x7F

  datatype Frame = Frame(
    version: byte, kind: byte, flags: byte, headerLen: byte,
    sessionID: uint32, channelID: uint32, seqNo: uint32, payload: seq<byte>)

  const ZERO_FRAME: Frame := Frame(0, 0, 0, 0, 0, 0, 0, [])

  datatype CodecError =
    | EndOfStream
    | UnexpectedEnd
    | InvalidVersion
    | InvalidHeader
    | UnknownType
    | PayloadTooLarge
    | PayloadRead(cause: CodecError)
    | WriteFailed

  /** What one decoding attempt yields and how many bytes of the stream it takes. */
  datatype Parsed = Parsed(result: Result<Frame, CodecError>, used: nat)

  /** The sixteen frame types fill five runs of consecutive codes. */
  predicate KnownFrameType(t: byte) {
    || AUTH <= t <= AUTHERR
    || SETTINGS <= t <= PONG
    || OPENTCP <= t <= TCPCLOSE
    || OPENUDP <= t <= UDPCLOSE
    || ERROR <= t <= SESSIONCLOSE
  }

  /** The defaults the encoder fills in. */
  function Normalise(f: Frame): (r: Frame)
    ensures r.payload == f.payload && r.kind == f.kind && r.channelID == f.channelID
  {
    f.(version := if f.version == 0 then VERSION else f.version,
       headerLen := if f.headerLen == 0 then HEADER_LEN else f.headerLen)
  }

  function Header(f: Frame, payloadLen: uint32): (h: seq<byte>)
    ensures |h| == 20
  {
    [f.version, f.kind, f.flags, f.headerLen]
    + PutUint32(f.sessionID) + PutUint32(f.channelID) + PutUint32(f.seqNo) + PutUint32(payloadLen)
  }

  function EncodeError(f: Frame): Option<CodecError> {
    if Normalise(f).version != VERSION then Some(InvalidVersion)
    else if !KnownFrameType(f.kind) then Some(UnknownType)
    else if |f.payload| > MAX_PAYLOAD_LEN then Some(PayloadTooLarge)
    else None
  }

  predicate Encodable(f: Frame) {
    EncodeError(f).None?
  }

  /** The bytes a frame the encoder accepts occupies on the stream. */
  function Encoding(f: Frame): (b: seq<byte>)
    requires Encodable(f)
    ensures |b| == 20 + |f.payload|
  {
    Header(Normalise(f), |f.payload|) + f.payload
  }

  /** A frame the peer's decoder takes: besides being accepted by the encoder, its header length is
      left to the encoder or is at least the real one. */
  predicate Decodable(f: Frame) {
    Encodable(f) && (f.headerLen == 0 || f.headerLen >= HEADER_LEN)
  }

  /** io.ReadFull: either exactly n bytes, or everything that is left and an error. */
  function ReadFull(s: seq<byte>, n: nat): (r: Result<seq<byte>, CodecError>)
    ensures r.Success? <==> n <= |s|
    ensures r.Success? ==> r.value == s[..n]
  {
    if n <= |s| then Success(s[..n])
    else if s == [] then Failure(EndOfStream)
    else Failure(UnexpectedEnd)
  }

  function FrameOfHeader(h: seq<byte>): Frame
    requires |h| == 20
  {
    Frame(h[0], h[1], h[2], h[3], GetUint32(h[4..8]), GetUint32(h[8..12]), GetUint32(h[12..16]), [])
  }

  function HeaderError(h: seq<byte>): Option<CodecError>
    requires |h| == 20
  {
    if h[0] != VERSION then Some(InvalidVersion)
    else if h[3] < HEADER_LEN then Some(InvalidHeader)
    else if !KnownFrameType(h[1]) then Some(UnknownType)
    else if GetUint32(h[16..20]) > MAX_PAYLOAD_LEN then Some(PayloadTooLarge)
    else None
  }

  function Decode(s: seq<byte>): (p: Parsed)
    ensures p.used <= |s|
    ensures p.result.Success? ==> p.used == 20 + |p.result.value.payload|
  {
    if |s| < 20 then Parsed(Failure(ReadFull(s, 20).error), |s|)
    else
      var h := s[..20];
      if HeaderError(h).Some? then Parsed(Failure(HeaderError(h).value), 20)
      else
        var n := GetUint32(h[16..20]);
        match ReadFull(s[20..], n)
        case Success(payload) => Parsed(Success(FrameOfHeader(h).(payload := payload)), 20 + n)
        case Failure(e) => Parsed(Failure(PayloadRead(e)), |s|)
  }

  // ---- Headers ----

  lemma SliceMiddle(front: seq<byte>, middle: seq<byte>, back: seq<byte>)
    ensures (front + middle + back)[|front|..|front| + |middle|] == middle
  {
  }

  lemma HeaderFields(f: Frame, n: uint32, h: seq<byte>)
    requires h == Header(f, n)
    ensures FrameOfHeader(h) == f.(payload := [])
    ensures GetUint32(h[16..20]) == n
  {
    hide PutUint32;
    var a, b, c, d, e := [f.version, f.kind, f.flags, f.headerLen],
      PutUint32(f.sessionID), PutUint32(f.channelID), PutUint32(f.seqNo), PutUint32(n);
    assert h == a + b + (c + d + e) == (a + b) + c + (d + e) == (a + b + c) + d + e;
    SliceMiddle(a, b, c + d + e);
    SliceMiddle(a + b, c, d + e);
    SliceMiddle(a + b + c, d, e);
    SliceMiddle(a + b + c + d, e, []);
    assert (a + b + c + d) + e + [] == h;
  }

  lemma HeaderOfFields(h: seq<byte>)
    requires |h| == 20
    ensures h == Header(FrameOfHeader(h), GetUint32(h[16..20]))
  {
    PutGetUint32(h[4..8]);
    PutGetUint32(h[8..12]);
    PutGetUint32(h[12..16]);
    PutGetUint32(h[16..20]);
    assert h == [h[0], h[1], h[2], h[3]] + h[4..8] + h[8..12] + h[12..16] + h[16..20];
  }

  // ---- One frame ----

  /** Decoding an encoding, whatever follows it, gives the frame back with its defaults filled in and
      takes exactly its bytes; the one encoding the peer refuses is one whose header length was set
      to a value between 1 and 19. */
  lemma DecodeEncoding(f: Frame, rest: seq<byte>)
    requires Encodable(f)
    ensures Decodable(f) ==> Decode(Encoding(f) + rest) == Parsed(Success(Normalise(f)), |Encoding(f)|)
    ensures !Decodable(f) ==> Decode(Encoding(f) + rest) == Parsed(Failure(InvalidHeader), 20)
  {
    var s := Encoding(f) + rest;
    var g := Normalise(f);
    assert s[..20] == Header(g, |f.payload|);
    HeaderFields(g, |f.payload|, s[..20]);
    if Decodable(f) {
      assert s[20..][..|f.payload|] == f.payload;
    }
  }

  /** Encoding a decoded frame gives exactly the bytes that were consumed. */
  lemma EncodeDecoded(s: seq<byte>)
    requires Decode(s).result.Success?
    ensures var f := Decode(s).result.value;
            Decodable(f) && Normalise(f) == f && Encoding(f) == s[..Decode(s).used]
  {
    var h := s[..20];
    HeaderOfFields(h);
    var n := GetUint32(h[16..20]);
    assert s[..20 + n] == h + s[20..][..n];
  }

  /** A stream cut anywhere inside an encoding does not decode. */
  lemma StrictPrefixFails(f: Frame, k: nat)
    requires Encodable(f) && k < |Encoding(f)|
    ensures Decode(Encoding(f)[..k]).result.Failure?
  {
    var s := Encoding(f)[..k];
    if 20 <= k {
      assert s[..20] == Header(Normalise(f), |f.payload|);
      HeaderFields(Normalise(f), |f.payload|, s[..20]);
    }
  }

  /** The code is prefix free, and two frames share an encoding only when they agree up to defaults. */
  lemma PrefixFree(f: Frame, g: Frame)
    requires Encodable(f) && Encodable(g) && Encoding(f) <= Encoding(g)
    ensures Normalise(f) == Normalise(g) && Encoding(f) == Encoding(g)
  {
    var a, b := Encoding(f), Encoding(g);
    assert a[..20] == Header(Normalise(f), |f.payload|);
    assert b[..20] == Header(Normalise(g), |g.payload|);
    HeaderFields(Normalise(f), |f.payload|, a[..20]);
    HeaderFields(Normalise(g), |g.payload|, b[..20]);
    assert a[20..] == f.payload && b[20..] == g.payload;
    assert a[..20] == b[..20];
    assert a == b;
  }

  // ---- Streams ----

  ghost predicate AllDecodable(fs: seq<Frame>) {
    forall i :: 0 <= i < |fs| ==> Decodable(fs[i])
  }

  /** What a writer that sends every frame of fs leaves on the stream. */
  function EncodeAll(fs: seq<Frame>): (b: seq<byte>)
    requires forall i :: 0 <= i < |fs| ==> Encodable(fs[i])
  {
    if fs == [] then [] else Encoding(fs[0]) + EncodeAll(fs[1..])
  }

  /** The frames a read loop gets from a stream before its first error. */
  function DecodeAll(s: seq<byte>): (fs: seq<Frame>)
    decreases |s|
  {
    var p := Decode(s);
    match p.result
    case Failure(_) => []
    case Success(f) => [f] + DecodeAll(s[p.used..])
  }

  function NormaliseAll(fs: seq<Frame>): (r: seq<Frame>)
    ensures |r| == |fs| && forall i :: 0 <= i < |fs| ==> r[i] == Normalise(fs[i])
  {
    seq(|fs|, i requires 0 <= i < |fs| => Normalise(fs[i]))
  }

  /** A cut of a stream lies inside the encoding of some frame, or at the very end. */
  ghost predicate Torn(tail: seq<byte>) {
    tail == [] || exists g: Frame :: Encodable(g) && tail < Encoding(g)
  }

  /** Reading back a stream of encodings, possibly followed by a frame whose write broke off,
      gives exactly the frames that were written whole, in order. */
  lemma {:induction false} DecodeStream(fs: seq<Frame>, tail: seq<byte>)
    requires AllDecodable(fs) && Torn(tail)
    ensures DecodeAll(EncodeAll(fs) + tail) == NormaliseAll(fs)
  {
    hide Encoding, Decode, EncodeError, Normalise;
    if fs == [] {
      assert EncodeAll(fs) + tail == tail;
      if tail != [] {
        var g: Frame :| Encodable(g) && tail < Encoding(g);
        StrictPrefixFails(g, |tail|);
        assert Encoding(g)[..|tail|] == tail;
      }
    } else {
      var s := EncodeAll(fs) + tail;
      var rest := EncodeAll(fs[1..]) + tail;
      assert s == Encoding(fs[0]) + rest;
      DecodeEncoding(fs[0], rest);
      assert s[|Encoding(fs[0])|..] == rest;
      DecodeStream(fs[1..], tail);
      assert NormaliseAll(fs) == [Normalise(fs[0])] + NormaliseAll(fs[1..]);
    }
  }

  lemma {:induction false} EncodeAllAppend(fs: seq<Frame>, gs: seq<Frame>)
    requires forall i :: 0 <= i < |fs| ==> Encodable(fs[i])
    requires forall i :: 0 <= i < |gs| ==> Encodable(gs[i])
    ensures EncodeAll(fs + gs) == EncodeAll(fs) + EncodeAll(gs)
  {
    if fs == [] {
      assert fs + gs == gs;
    } else {
      assert (fs + gs)[1..] == fs[1..] + gs;
      EncodeAllAppend(fs[1..], gs);
    }
  }

  lemma DecodeAllHead(f: Frame, rest: seq<byte>)
    requires Decodable(f)
    ensures DecodeAll(Encoding(f) + rest) == [Normalise(f)] + DecodeAll(rest)
  {
    hide Encoding, Decode, EncodeError, Normalise;
    DecodeEncoding(f, rest);
    assert (Encoding(f) + rest)[|Encoding(f)|..] == rest;
  }

  lemma TakeHead(fs: seq<Frame>, k: nat)
    requires 0 < k <= |fs| && AllDecodable(fs)
    ensures EncodeAll(fs[..k]) == Encoding(fs[0]) + EncodeAll(fs[1..][..k - 1])
    ensures NormaliseAll(fs[..k]) == [Normalise(fs[0])] + NormaliseAll(fs[1..][..k - 1])
  {
    hide Encoding, EncodeError, Normalise;
    assert fs[..k][1..] == fs[1..][..k - 1];
  }

  /** Whatever part of a stream has arrived, the reader sees a prefix of the frames sent, and it sees
      all of those whose bytes have all arrived. */
  lemma {:induction false} DecodeCutStream(fs: seq<Frame>, n: nat) returns (k: nat)
    requires AllDecodable(fs) && n <= |EncodeAll(fs)|
    ensures k <= |fs| && DecodeAll(EncodeAll(fs)[..n]) == NormaliseAll(fs[..k])
    ensures |EncodeAll(fs[..k])| <= n
    ensures k < |fs| ==> n < |EncodeAll(fs[..k + 1])|
  {
    hide Encoding, Decode, EncodeError, Normalise, DecodeAll;
    k := 0;
    if fs == [] {
      DecodeNothing();
    } else {
      var e := |Encoding(fs[0])|;
      if n < e {
        CutInside(fs[0], n);
        assert EncodeAll(fs)[..n] == Encoding(fs[0])[..n];
        TakeHead(fs, 1);
      } else {
        var j := DecodeCutStream(fs[1..], n - e);
        k := j + 1;
        var rest := EncodeAll(fs[1..])[..n - e];
        assert EncodeAll(fs)[..n] == Encoding(fs[0]) + rest;
        DecodeAllHead(fs[0], rest);
        TakeHead(fs, k);
        if k < |fs| {
          TakeHead(fs, k + 1);
        }
      }
    }
  }

  lemma DecodeNothing()
    ensures DecodeAll([]) == []
  {
  }

  lemma CutInside(f: Frame, n: nat)
    requires Encodable(f) && n < |Encoding(f)|
    ensures DecodeAll(Encoding(f)[..n]) == []
  {
    hide Encoding, Decode, EncodeError;
    StrictPrefixFails(f, n);
  }

  /** Any stream at all is the re-encoding of what is decoded from it, plus an undecodable rest. */
  lemma {:induction false} ReencodeStream(s: seq<byte>)
    ensures AllDecodable(DecodeAll(s))
    ensures EncodeAll(DecodeAll(s)) <= s
    ensures Decode(s[|EncodeAll(DecodeAll(s))|..]).result.Failure?
    decreases |s|
  {
    hide Encoding, Decode, EncodeError, Normalise;
    var p := Decode(s);
    if p.result.Success? {
      EncodeDecoded(s);
      var rest := s[p.used..];
      ReencodeStream(rest);
      var fs := DecodeAll(s);
      assert fs[1..] == DecodeAll(rest);
      assert EncodeAll(fs) == s[..p.used] + EncodeAll(DecodeAll(rest));
      assert s == s[..p.used] + rest;
      assert s[|EncodeAll(fs)|..] == rest[|EncodeAll(DecodeAll(rest))|..];
    } else {
      assert s[0..] == s;
    }
  }

  // ---- The codec as the program runs it ----

  /** An output stream that takes a bounded number of further bytes before it fails. */
  class Sink {
    var log: seq<byte>
    var room: nat

    constructor (room: nat)
      ensures log == [] && this.room == room
    {
      log := [];
      this.room := room;
    }

    method Write(p: seq<byte>) returns (ok: bool)
      modifies this
      ensures ok == (|p| <= old(room))
      ensures log == old(log) + p[..Min(|p|, old(room))]
      ensures room == old(room) - Min(|p|, old(room))
    {
      var n := Min(|p|, room);
      ok := |p| <= room;
      log := log + p[..n];
      room := room - n;
    }
  }

  /** An input stream holding the bytes that are left before it ends. */
  class Source {
    var rest: seq<byte>

    constructor (bytes: seq<byte>)
      ensures rest == bytes
    {
      rest := bytes;
    }

    method Fill(buf: array<byte>) returns (err: Option<CodecError>)
      modifies this, buf
      ensures err == (match ReadFull(old(rest), buf.Length) case Success(_) => None case Failure(e) => Some(e))
      ensures err.None? ==> buf[..] == old(rest)[..buf.Length]
      ensures rest == old(rest)[Min(buf.Length, |old(rest)|)..]
    {
      var r := ReadFull(rest, buf.Length);
      var n := Min(buf.Length, |rest|);
      forall i | 0 <= i < n {
        buf[i] := rest[i];
      }
      err := match r case Success(_) => None case Failure(e) => Some(e);
      rest := rest[n..];
    }
  }

  method PutUint32At(a: array<byte>, off: nat, v: uint32)
    requires off + 4 <= a.Length
    modifies a
    ensures a[..off + 4] == old(a[..off]) + PutUint32(v) && a[off + 4..] == old(a[off + 4..])
  {
    hide PutUint32;
    var b := PutUint32(v);
    a[off], a[off + 1], a[off + 2], a[off + 3] := b[0], b[1], b[2], b[3];
    assert a[..off + 4] == a[..off] + a[off..off + 4];
    assert a[off..off + 4] == b;
  }

  /** Codec.Encode: fills the header in place, then writes header and payload separately. The bytes
      that reach the stream are the encoding, or as much of it as the stream took. */
  method Encode(frame: Frame, w: Sink) returns (err: Option<CodecError>)
    modifies w
    ensures EncodeError(frame).Some? ==> err == EncodeError(frame) && w.log == old(w.log) && w.room == old(w.room)
    ensures Encodable(frame) ==>
              var n := Min(|Encoding(frame)|, old(w.room));
              && err == (if |Encoding(frame)| <= old(w.room) then None else Some(WriteFailed))
              && w.log == old(w.log) + Encoding(frame)[..n]
              && w.room == old(w.room) - n
  {
    var f := frame;
    if f.version == 0 {
      f := f.(version := VERSION);
    }
    if f.headerLen == 0 {
      f := f.(headerLen := HEADER_LEN);
    }
    if f.version != VERSION {
      return Some(InvalidVersion);
    }
    if !KnownFrameType(f.kind) {
      return Some(UnknownType);
    }
    if |f.payload| > MAX_PAYLOAD_LEN {
      return Some(PayloadTooLarge);
    }
    err := WriteParts(f, w);
  }

  /** The two writes of an encoder amount to one write of header and payload together. */
  method WriteParts(f: Frame, w: Sink) returns (err: Option<CodecError>)
    requires |f.payload| <= MAX_PAYLOAD_LEN
    modifies w
    ensures var whole := Header(f, |f.payload|) + f.payload;
            var n := Min(|whole|, old(w.room));
            && err == (if |whole| <= old(w.room) then None else Some(WriteFailed))
            && w.log == old(w.log) + whole[..n]
            && w.room == old(w.room) - n
  {
    hide Header;
    var header := FillHeader(f);
    ghost var room, whole := w.room, header[..] + f.payload;
    var ok := w.Write(header[..]);
    if !ok {
      assert whole[..room] == header[..][..room];
      return Some(WriteFailed);
    }
    if |f.payload| == 0 {
      assert whole == header[..] && whole[..20] == whole;
      return None;
    }
    ok := w.Write(f.payload);
    ghost var n := Min(|whole|, room);
    assert whole[..n] == header[..] + f.payload[..n - 20];
    err := if ok then None else Some(WriteFailed);
  }

  method FillHeader(f: Frame) returns (header: array<byte>)
    requires |f.payload| <= MAX_PAYLOAD_LEN
    ensures fresh(header) && header[..] == Header(f, |f.payload|)
  {
    hide PutUint32;
    header := new byte[20](_ => 0);
    header[0] := f.version;
    header[1] := f.kind;
    header[2] := f.flags;
    header[3] := f.headerLen;
    var a, b, c, d, e := [f.version, f.kind, f.flags, f.headerLen],
      PutUint32(f.sessionID), PutUint32(f.channelID), PutUint32(f.seqNo), PutUint32(|f.payload|);
    assert header[..4] == a;
    PutUint32At(header, 4, f.sessionID);
    assert header[..8] == a + b;
    PutUint32At(header, 8, f.channelID);
    assert header[..12] == a + b + c;
    PutUint32At(header, 12, f.seqNo);
    assert header[..16] == a + b + c + d;
    PutUint32At(header, 16, |f.payload|);
    assert header[..] == header[..20] == a + b + c + d + e;
  }

  /** Codec.Decode: reads the header, checks it, then fills a payload buffer. */
  method DecodeFrom(r: Source) returns (result: Result<Frame, CodecError>)
    modifies r
    ensures result == Decode(old(r.rest)).result
    ensures r.rest == old(r.rest)[Decode(old(r.rest)).used..]
  {
    ghost var s := r.rest;
    var header := new byte[20](_ => 0);
    var err := r.Fill(header);
    if err.Some? {
      return Failure(err.value);
    }
    assert header[..] == s[..20];
    var frame := FrameOfHeader(header[..]);
    if frame.version != VERSION {
      return Failure(InvalidVersion);
    }
    if frame.headerLen < HEADER_LEN {
      return Failure(InvalidHeader);
    }
    if !KnownFrameType(frame.kind) {
      return Failure(UnknownType);
    }
    var payloadLen := GetUint32(header[16..20]);
    assert header[16..20] == s[..20][16..20];
    if payloadLen > MAX_PAYLOAD_LEN {
      return Failure(PayloadTooLarge);
    }
    if payloadLen == 0 {
      return Success(frame);
    }
    var payload := new byte[payloadLen](_ => 0);
    err := r.Fill(payload);
    if err.Some? {
      return Failure(PayloadRead(err.value));
    }
    result := Success(frame.(payload := payload[..]));
  }
}

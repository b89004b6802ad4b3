/** From a session's frames to the bytes of its stream and back. */
module WireDelivery {
  import opened Bytes
  import opened FrameCodec
  import opened SessionSystem
  import opened SequenceNumbers

  function WireFrames(wire: seq<Sent>): (fs: seq<Frame>)
    ensures |fs| == |wire| && forall i :: 0 <= i < |wire| ==> fs[i] == wire[i].stamped
  {
    seq(|wire|, i requires 0 <= i < |wire| => wire[i].stamped)
  }

  /** The bytes the writer has put on the stream, including what a failed write left behind. */
  ghost function WireBytes(s: Session): seq<byte>
    requires WireFaithful(s)
  {
    EncodeAll(WireFrames(s.wire)) + if s.writer.Broken? then s.writer.torn else []
  }

  /** One write puts the encoding of the stamped frame on the stream, or as much of it as fits. */
  lemma WriteAddsEncoding(s: Session, room: nat)
    requires WireFaithful(s) && s.writer.Stamped?
    ensures var t := WriteStep(s, room);
            && WireFaithful(t)
            && WireBytes(t) == WireBytes(s) + if Encodable(s.writer.stamped)
                                              then Encoding(s.writer.stamped)[..Min(|Encoding(s.writer.stamped)|, room)]
                                              else []
  {
    hide Encoding, EncodeError;
    StepWireFaithful(s, Write(room));
    var t, g := WriteStep(s, room), s.writer.stamped;
    if t.wire != s.wire {
      assert WireFrames(t.wire) == WireFrames(s.wire) + [g];
      EncodeAllAppend(WireFrames(s.wire), [g]);
      assert [g][1..] == [] && EncodeAll([g]) == Encoding(g) + EncodeAll([]);
    }
  }

  predicate DefaultHeader(f: Frame) {
    f.headerLen == 0 || f.headerLen >= HEADER_LEN
  }

  ghost predicate HeadersAccepted(s: Session) {
    forall o, i :: 0 <= i < |Accepted(s, o)| ==> DefaultHeader(Accepted(s, o)[i])
  }

  lemma WireDecodable(s: Session)
    requires Inv(s) && HeadersAccepted(s)
    ensures AllDecodable(WireFrames(s.wire))
  {
    hide EncodeError, Encoding, Counted, Written;
    forall i | 0 <= i < |s.wire|
      ensures Decodable(WireFrames(s.wire)[i])
    {
      var x := s.wire[i];
      WrittenAt(s.wire, i);
      var k := |Written(s.wire[..i], x.origin)|;
      assert Accepted(s, x.origin)[k] == x.original;
    }
  }

  /** A cut of a torn tail is torn. */
  lemma TornCut(tail: seq<byte>, n: nat)
    requires Torn(tail) && n <= |tail|
    ensures Torn(tail[..n])
  {
    hide Encoding, EncodeError;
    if tail != [] {
      var g: Frame :| Encodable(g) && tail < Encoding(g);
      assert tail[..n] < Encoding(g);
    }
  }

  /** Whatever part of a session's stream arrives, the peer's read loop sees a prefix of the frames
      written, in order, with defaults filled in; when everything arrives it sees exactly the frames
      that were written whole. */
  lemma PeerSeesWrittenFrames(s: Session, n: nat)
    requires Inv(s) && HeadersAccepted(s) && n <= |WireBytes(s)|
    ensures DecodeAll(WireBytes(s)[..n]) <= NormaliseAll(WireFrames(s.wire))
    ensures n == |WireBytes(s)| ==> DecodeAll(WireBytes(s)[..n]) == NormaliseAll(WireFrames(s.wire))
  {
    hide Encoding, EncodeError, Decode, DecodeAll, EncodeAll, Normalise;
    WireDecodable(s);
    var fs := WireFrames(s.wire);
    var whole := EncodeAll(fs);
    var tail := if s.writer.Broken? then s.writer.torn else [];
    assert WireBytes(s) == whole + tail;
    if n < |whole| {
      assert (whole + tail)[..n] == whole[..n];
      var k := DecodeCutStream(fs, n);
      assert NormaliseAll(fs[..k]) <= NormaliseAll(fs);
    } else {
      var cut := tail[..n - |whole|];
      assert (whole + tail)[..n] == whole + cut;
      TornCut(tail, n - |whole|);
      DecodeStream(fs, cut);
    }
  }
}

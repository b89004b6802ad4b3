/** Counting the opens, closes and data bytes of a channel in sequences of frames. */
module TunnelFrames {
  import opened Bytes
  import opened FrameCodec
  import opened SessionSystem
  import opened Messages
  import opened SequenceNumbers
  import opened WireDelivery

  datatype Mark = OpenMark | CloseMark

  predicate Marks(f: Frame, m: Mark, channel: uint32) {
    && f.channelID == channel
    && match m
       case OpenMark => f.kind == OPENTCP || f.kind == OPENUDP
       case CloseMark => f.kind == TCPCLOSE || f.kind == UDPCLOSE
  }

  function Count(fs: seq<Frame>, m: Mark, channel: uint32): nat {
    if fs == [] then 0
    else
      var n := |fs| - 1;
      Count(fs[..n], m, channel) + if Marks(fs[n], m, channel) then 1 else 0
  }

  /** The bytes carried by the TCPDATA frames of a channel. */
  function DataOf(fs: seq<Frame>, channel: uint32): seq<byte> {
    if fs == [] then []
    else
      var n := |fs| - 1;
      DataOf(fs[..n], channel) + if fs[n].kind == TCPDATA && fs[n].channelID == channel then fs[n].payload else []
  }

  lemma CountSnoc(fs: seq<Frame>, f: Frame, m: Mark, channel: uint32)
    ensures Count(fs + [f], m, channel) == Count(fs, m, channel) + if Marks(f, m, channel) then 1 else 0
  {
    assert (fs + [f])[..|fs|] == fs;
  }

  lemma DataSnoc(fs: seq<Frame>, f: Frame, channel: uint32)
    ensures DataOf(fs + [f], channel)
            == DataOf(fs, channel) + if f.kind == TCPDATA && f.channelID == channel then f.payload else []
  {
    assert (fs + [f])[..|fs|] == fs;
  }

  lemma {:induction false} CountPrefix(fs: seq<Frame>, gs: seq<Frame>, m: Mark, channel: uint32)
    requires fs <= gs
    ensures Count(fs, m, channel) <= Count(gs, m, channel)
    decreases |gs|
  {
    if |fs| < |gs| {
      CountPrefix(fs, gs[..|gs| - 1], m, channel);
    } else {
      assert fs == gs;
    }
  }

  lemma {:induction false} DataPrefix(fs: seq<Frame>, gs: seq<Frame>, channel: uint32)
    requires fs <= gs
    ensures DataOf(fs, channel) <= DataOf(gs, channel)
    decreases |gs|
  {
    if |fs| < |gs| {
      DataPrefix(fs, gs[..|gs| - 1], channel);
    } else {
      assert fs == gs;
    }
  }

  lemma {:induction false} CountZero(fs: seq<Frame>, m: Mark, channel: uint32)
    requires forall i :: 0 <= i < |fs| ==> !Marks(fs[i], m, channel)
    ensures Count(fs, m, channel) == 0
  {
    if fs != [] {
      CountZero(fs[..|fs| - 1], m, channel);
    }
  }

  lemma {:induction false} CountPositive(fs: seq<Frame>, i: nat, m: Mark, channel: uint32)
    requires i < |fs| && Marks(fs[i], m, channel)
    ensures Count(fs, m, channel) > 0
    decreases |fs|
  {
    if i < |fs| - 1 {
      CountPositive(fs[..|fs| - 1], i, m, channel);
    }
  }

  lemma {:induction false} DataEmpty(fs: seq<Frame>, channel: uint32)
    requires forall i :: 0 <= i < |fs| ==> !(fs[i].kind == TCPDATA && fs[i].channelID == channel)
    ensures DataOf(fs, channel) == []
  {
    if fs != [] {
      DataEmpty(fs[..|fs| - 1], channel);
    }
  }

  // ---- Datagrams ----

  /** The data of the datagrams in the UDPDATA frames of a channel. */
  function UdpOf(fs: seq<Frame>, channel: uint32): seq<seq<byte>> {
    if fs == [] then []
    else
      var n := |fs| - 1;
      UdpOf(fs[..n], channel) + UdpIn(fs[n], channel)
  }

  function UdpIn(f: Frame, channel: uint32): seq<seq<byte>> {
    if f.kind == UDPDATA && f.channelID == channel && DecodeDatagram(f.payload).Success?
    then [DecodeDatagram(f.payload).value.data] else []
  }

  lemma UdpSnoc(fs: seq<Frame>, f: Frame, channel: uint32)
    ensures UdpOf(fs + [f], channel) == UdpOf(fs, channel) + UdpIn(f, channel)
  {
    assert (fs + [f])[..|fs|] == fs;
  }

  lemma {:induction false} UdpPrefix(fs: seq<Frame>, gs: seq<Frame>, channel: uint32)
    requires fs <= gs
    ensures UdpOf(fs, channel) <= UdpOf(gs, channel)
    decreases |gs|
  {
    if |fs| < |gs| {
      UdpPrefix(fs, gs[..|gs| - 1], channel);
    } else {
      assert fs == gs;
    }
  }

  lemma {:induction false} UdpEmpty(fs: seq<Frame>, channel: uint32)
    requires forall i :: 0 <= i < |fs| ==> !(fs[i].kind == UDPDATA && fs[i].channelID == channel)
    ensures UdpOf(fs, channel) == []
  {
    if fs != [] {
      UdpEmpty(fs[..|fs| - 1], channel);
    }
  }

  /** When control frames carry no datagrams, a wire carries the datagrams of its data queue, in order. */
  lemma {:induction false} UdpWire(wire: seq<Sent>, channel: uint32)
    requires Faithful(wire)
    requires forall i :: 0 <= i < |Written(wire, Control)| ==> Written(wire, Control)[i].kind != UDPDATA
    ensures UdpOf(WireFrames(wire), channel) == UdpOf(Written(wire, Data), channel)
  {
    hide WireFrames, Written, UdpOf, UdpIn;
    if wire != [] {
      var n := |wire| - 1;
      var w, x := wire[..n], wire[n];
      assert wire[..n + 1] == wire == w + [x];
      WrittenSplit(w, x);
      assert forall i :: 0 <= i < |Written(w, Control)| ==> Written(w, Control)[i] == Written(wire, Control)[i];
      UdpWire(w, channel);
      WireFramesSnoc(wire, n);
      UdpSnoc(WireFrames(w), x.stamped, channel);
      SameUdp(x.original, x.stamped, channel);
      if x.origin == Data {
        UdpSnoc(Written(w, Data), x.original, channel);
      } else {
        assert Written(wire, Control)[|Written(w, Control)|] == x.original;
        NotUdp(x.original, channel);
      }
    } else {
      NothingUdp(channel);
    }
  }

  lemma SameUdp(f: Frame, g: Frame, channel: uint32)
    requires StampOf(f, g)
    ensures UdpIn(f, channel) == UdpIn(g, channel)
  {
  }

  lemma NotUdp(f: Frame, channel: uint32)
    requires f.kind != UDPDATA
    ensures UdpIn(f, channel) == []
  {
  }

  lemma NothingUdp(channel: uint32)
    ensures WireFrames([]) == [] && Written([], Data) == [] && UdpOf([], channel) == []
  {
  }

  lemma SeenUdp(s: Session, n: nat, channel: uint32)
    requires Inv(s) && n <= |s.wire|
    requires forall i :: 0 <= i < |s.acceptedControl| ==> s.acceptedControl[i].kind != UDPDATA
    ensures UdpOf(SeenFrames(s, n), channel) <= UdpOf(s.acceptedData, channel)
  {
    hide Written, UdpOf, Inv, WireFrames;
    SeenFaithful(s, n);
    var w := s.wire[..n];
    assert Written(w, Control) <= Accepted(s, Control);
    assert Written(w, Data) <= Accepted(s, Data);
    UdpWire(w, channel);
    UdpPrefix(Written(w, Data), s.acceptedData, channel);
  }

  // ---- Data ahead of an answer or a close ----

  ghost predicate HasKind(fs: seq<Frame>, kind: byte, channel: uint32) {
    exists i :: 0 <= i < |fs| && fs[i].kind == kind && fs[i].channelID == channel
  }

  /** The data of a channel ahead of the first frame of a kind for it, or all of it if there is none. */
  ghost function DataBefore(fs: seq<Frame>, kind: byte, channel: uint32): seq<byte> {
    if fs == [] then []
    else if HasKind(fs[..|fs| - 1], kind, channel) then DataBefore(fs[..|fs| - 1], kind, channel)
    else DataOf(fs, channel)
  }

  lemma BeforeSnoc(fs: seq<Frame>, f: Frame, kind: byte, channel: uint32)
    ensures HasKind(fs + [f], kind, channel) <==>
            HasKind(fs, kind, channel) || (f.kind == kind && f.channelID == channel)
    ensures DataBefore(fs + [f], kind, channel)
            == if HasKind(fs, kind, channel) then DataBefore(fs, kind, channel) else DataOf(fs + [f], channel)
  {
    var gs := fs + [f];
    assert gs[..|fs|] == fs;
    if HasKind(fs, kind, channel) {
      var i :| 0 <= i < |fs| && fs[i].kind == kind && fs[i].channelID == channel;
      assert gs[i] == fs[i];
    }
    assert gs[|fs|] == f;
  }

  lemma HasKindGrows(fs: seq<Frame>, gs: seq<Frame>, kind: byte, channel: uint32)
    requires fs <= gs
    ensures HasKind(fs, kind, channel) ==> HasKind(gs, kind, channel)
  {
    if HasKind(fs, kind, channel) {
      var i :| 0 <= i < |fs| && fs[i].kind == kind && fs[i].channelID == channel;
      assert gs[i] == fs[i];
    }
  }

  lemma {:induction false} BeforeIsPrefix(fs: seq<Frame>, kind: byte, channel: uint32)
    ensures DataBefore(fs, kind, channel) <= DataOf(fs, channel)
    decreases |fs|
  {
    if fs != [] {
      BeforeIsPrefix(fs[..|fs| - 1], kind, channel);
      DataPrefix(fs[..|fs| - 1], fs, channel);
    }
  }

  /** Data up to a point without such a frame is ahead of the first one. */
  lemma {:induction false} BeforeCovers(fs: seq<Frame>, n: nat, kind: byte, channel: uint32)
    requires n <= |fs| && !HasKind(fs[..n], kind, channel)
    ensures DataOf(fs[..n], channel) <= DataBefore(fs, kind, channel)
    decreases |fs|
  {
    if n == |fs| {
      assert fs[..n] == fs;
      if n > 0 {
        HasKindGrows(fs[..n - 1], fs, kind, channel);
      }
    } else {
      var m := |fs| - 1;
      assert fs[..m][..n] == fs[..n];
      BeforeCovers(fs[..m], n, kind, channel);
      BeforeIsPrefix(fs[..m], kind, channel);
      DataPrefix(fs[..m], fs, channel);
    }
  }

  /** At the first frame of the kind, the data ahead of it is known. */
  lemma {:induction false} BeforeFirst(fs: seq<Frame>, n: nat, kind: byte, channel: uint32)
    requires n < |fs| && fs[n].kind == kind && fs[n].channelID == channel && kind != TCPDATA
    requires !HasKind(fs[..n], kind, channel)
    ensures DataBefore(fs, kind, channel) == DataOf(fs[..n], channel)
    decreases |fs|
  {
    var m := |fs| - 1;
    assert fs == fs[..m] + [fs[m]];
    if n == m {
      BeforeSnoc(fs[..m], fs[m], kind, channel);
      DataSnoc(fs[..m], fs[m], channel);
    } else {
      assert fs[..m][..n] == fs[..n] && fs[..m][n] == fs[n];
      BeforeFirst(fs[..m], n, kind, channel);
      BeforeSnoc(fs[..m], fs[m], kind, channel);
    }
  }

  ghost predicate Faithful(wire: seq<Sent>) {
    forall i :: 0 <= i < |wire| ==> StampOf(wire[i].original, wire[i].stamped)
  }

  lemma WireFramesSnoc(wire: seq<Sent>, n: nat)
    requires n < |wire|
    ensures WireFrames(wire[..n + 1]) == WireFrames(wire[..n]) + [wire[n].stamped]
  {
  }

  lemma WrittenSplit(w: seq<Sent>, x: Sent)
    ensures Written(w + [x], x.origin) == Written(w, x.origin) + [x.original]
    ensures forall o :: o != x.origin ==> Written(w + [x], o) == Written(w, o)
  {
    forall o
      ensures Written(w + [x], o) == Written(w, o) + if x.origin == o then [x.original] else []
    {
      WrittenSnoc(w, x, o);
    }
  }

  lemma EmptyWire(m: Mark, channel: uint32)
    ensures WireFrames([]) == [] && Written([], Control) == [] && Written([], Data) == []
    ensures Count([], m, channel) == 0 && DataOf([], channel) == []
  {
  }

  /** A wire has the opens and closes of its two queues together. */
  lemma {:induction false} CountWire(wire: seq<Sent>, m: Mark, channel: uint32)
    requires Faithful(wire)
    ensures Count(WireFrames(wire), m, channel)
            == Count(Written(wire, Control), m, channel) + Count(Written(wire, Data), m, channel)
  {
    hide WireFrames, Count, Written;
    if wire != [] {
      var n := |wire| - 1;
      var w, x := wire[..n], wire[n];
      assert wire[..n + 1] == wire == w + [x];
      CountWire(w, m, channel);
      WireFramesSnoc(wire, n);
      CountSnoc(WireFrames(w), x.stamped, m, channel);
      WrittenSplit(w, x);
      CountSnoc(Written(w, x.origin), x.original, m, channel);
    } else {
      EmptyWire(m, channel);
    }
  }

  /** When control frames carry no TCP data, a wire carries the data of its data queue, in order. */
  lemma {:induction false} DataWire(wire: seq<Sent>, channel: uint32)
    requires Faithful(wire)
    requires forall i :: 0 <= i < |Written(wire, Control)| ==> Written(wire, Control)[i].kind != TCPDATA
    ensures DataOf(WireFrames(wire), channel) == DataOf(Written(wire, Data), channel)
  {
    hide WireFrames, Written, DataOf;
    if wire != [] {
      var n := |wire| - 1;
      var w, x := wire[..n], wire[n];
      assert wire[..n + 1] == wire == w + [x];
      WrittenSplit(w, x);
      assert forall i :: 0 <= i < |Written(w, Control)| ==> Written(w, Control)[i] == Written(wire, Control)[i];
      DataWire(w, channel);
      WireFramesSnoc(wire, n);
      DataSnoc(WireFrames(w), x.stamped, channel);
      if x.origin == Data {
        DataSnoc(Written(w, Data), x.original, channel);
      } else {
        assert Written(wire, Control)[|Written(w, Control)|] == x.original;
      }
    } else {
      EmptyWire(OpenMark, channel);
    }
  }

  // ---- What a reader has seen, against what was accepted ----

  ghost predicate NoControlData(s: Session) {
    forall i :: 0 <= i < |s.acceptedControl| ==> s.acceptedControl[i].kind != TCPDATA
  }

  ghost predicate OnlyData(s: Session) {
    forall i :: 0 <= i < |s.acceptedData| ==> s.acceptedData[i].kind == TCPDATA || s.acceptedData[i].kind == UDPDATA
  }

  function SeenFrames(s: Session, n: nat): seq<Frame>
    requires n <= |s.wire|
  {
    WireFrames(s.wire[..n])
  }

  lemma SeenFaithful(s: Session, n: nat)
    requires Inv(s) && n <= |s.wire|
    ensures Faithful(s.wire[..n])
    ensures forall o :: Written(s.wire[..n], o) <= Accepted(s, o)
  {
    hide Encoding, EncodeError, Counted, Written;
    SeenPrefix(s, n, Control);
    SeenPrefix(s, n, Data);
  }

  lemma SeenPrefix(s: Session, n: nat, o: Origin)
    requires MergedFor(s, o) && n <= |s.wire|
    ensures Written(s.wire[..n], o) <= Accepted(s, o)
  {
    hide Written;
    WrittenMonotone(s.wire, n, |s.wire|, o);
    assert s.wire[..|s.wire|] == s.wire;
  }

  lemma SeenCount(s: Session, n: nat, m: Mark, channel: uint32)
    requires Inv(s) && OnlyData(s) && n <= |s.wire|
    ensures Count(SeenFrames(s, n), m, channel) <= Count(s.acceptedControl, m, channel)
  {
    hide Written, Count, Inv, WireFrames;
    SeenFaithful(s, n);
    var w := s.wire[..n];
    CountWire(w, m, channel);
    CountPrefix(Written(w, Control), Accepted(s, Control), m, channel);
    assert Written(w, Data) <= Accepted(s, Data);
    CountZero(Written(w, Data), m, channel);
  }

  lemma SeenData(s: Session, n: nat, channel: uint32)
    requires Inv(s) && NoControlData(s) && n <= |s.wire|
    ensures DataOf(SeenFrames(s, n), channel) <= DataOf(s.acceptedData, channel)
  {
    hide Written, DataOf, Inv, WireFrames;
    SeenFaithful(s, n);
    var w := s.wire[..n];
    assert Written(w, Control) <= Accepted(s, Control);
    assert Written(w, Data) <= Accepted(s, Data);
    DataWire(w, channel);
    DataPrefix(Written(w, Data), s.acceptedData, channel);
  }

  /** The next frame a reader handles was accepted by one of the queues. */
  lemma SeenNext(s: Session, n: nat) returns (k: nat)
    requires Inv(s) && n < |s.wire|
    ensures k < |Accepted(s, s.wire[n].origin)| && Accepted(s, s.wire[n].origin)[k] == s.wire[n].original
    ensures StampOf(s.wire[n].original, s.wire[n].stamped)
    ensures SeenFrames(s, n + 1) == SeenFrames(s, n) + [s.wire[n].stamped]
  {
    WrittenAt(s.wire, n);
    WireFramesSnoc(s.wire, n);
    k := |Written(s.wire[..n], s.wire[n].origin)|;
  }

  /** The part of a wire that was read does not change when the session moves on. */
  lemma SeenStable(s: Session, a: Action, n: nat)
    requires n <= |s.wire|
    ensures n <= |Step(s, a).wire| && SeenFrames(Step(s, a), n) == SeenFrames(s, n)
    ensures s.wire <= Step(s, a).wire
  {
    hide Encoding, EncodeError, StampFrame;
    var t := Step(s, a);
    assert s.wire <= t.wire;
    assert t.wire[..n] == s.wire[..n];
  }

  /** The session's own loops accept nothing but the heartbeat's PINGs. */
  lemma InternalAccepts(s: Session, a: Action)
    requires !a.QueueControl? && !a.QueueData?
    ensures var t := Step(s, a);
            && t.acceptedData == s.acceptedData
            && (t.acceptedControl == s.acceptedControl
                || (s.heartbeat.Holding? && t.acceptedControl == s.acceptedControl + [s.heartbeat.ping]))
            && (t.heartbeat.Holding? ==>
                  t.heartbeat == s.heartbeat || t.heartbeat.ping == PingFrame(s.id, Bump(s.nextSeq)))
  {
    hide Encoding, EncodeError, StampFrame;
  }
}

/** Sequence numbers.  The heartbeat draws its number when it builds a PING, the writer draws one when
    it stamps a frame, and both use the same counter, so numbers on the wire do not always rise as a
    whole (SequenceOrder says when they do): each of the two kinds does, and no number is used twice. */
module SequenceNumbers {
  import opened Bytes
  import opened FrameCodec
  import opened FrameQueues
  import opened SessionSystem

  /** Producers leave the sequence number to the session, as every caller in the program does. */
  ghost predicate Unnumbered(acts: seq<Action>) {
    forall i :: 0 <= i < |acts| ==> UnnumberedAction(acts[i])
  }

  ghost predicate UnnumberedAction(a: Action) {
    (a.QueueControl? || a.QueueData?) ==> a.frame.seqNo == 0
  }

  /** Control frames accepted so far, then the PING the heartbeat has built but not yet queued. */
  function Offered(s: Session): seq<Frame> {
    s.acceptedControl + if s.heartbeat.Holding? then [s.heartbeat.ping] else []
  }

  /** Frames written so far, then the stamped frame the writer is about to encode. */
  function Line(s: Session): seq<Sent> {
    s.wire + if s.writer.Stamped? then [Sent(s.writer.origin, s.writer.original, s.writer.stamped)] else []
  }

  ghost predicate PingsRise(os: seq<Frame>, bound: nat) {
    && (forall i :: 0 <= i < |os| && os[i].seqNo != 0 ==> os[i].kind == PING && os[i].seqNo <= bound)
    && (forall i, j :: 0 <= i < j < |os| && os[i].seqNo != 0 && os[j].seqNo != 0 ==> os[i].seqNo < os[j].seqNo)
  }

  ghost predicate StampsRise(line: seq<Sent>, bound: nat) {
    && (forall i :: 0 <= i < |line| ==>
          if NeedsSeq(line[i].original) then line[i].stamped.seqNo <= bound
               && (bound < TWO_32 ==> line[i].stamped.seqNo != 0)
          else line[i].stamped.seqNo == line[i].original.seqNo)
    && (forall i, j :: 0 <= i < j < |line| && NeedsSeq(line[i].original) && NeedsSeq(line[j].original)
                       && line[i].stamped.seqNo != 0 && line[j].stamped.seqNo != 0 ==>
          line[i].stamped.seqNo < line[j].stamped.seqNo)
  }

  ghost predicate Apart(os: seq<Frame>, line: seq<Sent>) {
    forall i, j :: 0 <= i < |os| && 0 <= j < |line| && os[i].seqNo != 0 && NeedsSeq(line[j].original) ==>
      os[i].seqNo != line[j].stamped.seqNo
  }

  ghost predicate SeqInv(s: Session) {
    && s.nextSeq == s.allocations % TWO_32
    && (forall i :: 0 <= i < |s.acceptedData| ==> s.acceptedData[i].seqNo == 0)
    && PingsRise(Offered(s), s.allocations)
    && StampsRise(Line(s), s.allocations)
    && Apart(Offered(s), Line(s))
  }

  lemma InitSeq(id: uint32)
    ensures SeqInv(NewSession(id))
  {
  }

  lemma AllocationsGrow(s: Session, a: Action)
    ensures s.allocations <= Step(s, a).allocations
  {
    hide Encoding, EncodeError, PayloadBytes, StampFrame;
  }

  lemma {:induction false} AllocationsGrowInRun(s: Session, acts: seq<Action>)
    ensures s.allocations <= Run(s, acts).allocations
    decreases |acts|
  {
    if acts != [] {
      AllocationsGrow(s, acts[0]);
      AllocationsGrowInRun(Step(s, acts[0]), acts[1..]);
    }
  }

  /** A freshly drawn number exceeds every number drawn before, or is zero when the counter wraps. */
  lemma DrawnNumber(s: Session)
    requires s.nextSeq == s.allocations % TWO_32 && s.allocations < TWO_32
    ensures Bump(s.nextSeq) == (s.allocations + 1) % TWO_32
    ensures Bump(s.nextSeq) == 0 || Bump(s.nextSeq) == s.allocations + 1
  {
  }

  lemma InsertZero(os: seq<Frame>, f: Frame, held: seq<Frame>, bound: nat, line: seq<Sent>)
    requires f.seqNo == 0 && PingsRise(os + held, bound) && Apart(os + held, line)
    ensures PingsRise(os + [f] + held, bound) && Apart(os + [f] + held, line)
  {
    var before, after := os + held, os + [f] + held;
    forall i | 0 <= i < |after| && after[i].seqNo != 0
      ensures after[i] == before[if i < |os| then i else i - 1]
    {
    }
  }

  lemma PushSeq(s: Session, a: Action)
    requires SeqInv(s) && UnnumberedAction(a) && (a.QueueControl? || a.QueueData?)
    ensures SeqInv(Step(s, a))
  {
    hide PayloadBytes;
    var t := Step(s, a);
    assert Line(t) == Line(s);
    if a.QueueControl? && s.control.Accepts(a.frame) {
      var held := if s.heartbeat.Holding? then [s.heartbeat.ping] else [];
      assert Offered(s) == s.acceptedControl + held;
      assert Offered(t) == s.acceptedControl + [a.frame] + held;
      InsertZero(s.acceptedControl, a.frame, held, s.allocations, Line(s));
    } else {
      assert Offered(t) == Offered(s);
    }
  }

  lemma TickSeq(s: Session)
    requires SeqInv(s) && s.allocations < TWO_32 && s.heartbeat.Resting?
    ensures SeqInv(TickStep(s))
  {
    DrawnNumber(s);
    var t := TickStep(s);
    assert Line(t) == Line(s);
    assert Offered(t) == Offered(s) + [t.heartbeat.ping];
  }

  lemma PushPingSeq(s: Session)
    requires SeqInv(s)
    ensures SeqInv(PushPingStep(s))
  {
    hide PayloadBytes;
    var t := PushPingStep(s);
    assert Line(t) == Line(s);
    assert Offered(t) <= Offered(s);
  }

  lemma StampSeq(s: Session)
    requires SeqInv(s) && s.writer.Popped? && (NeedsSeq(s.writer.original) ==> s.allocations < TWO_32)
    ensures SeqInv(StampStep(s))
  {
    var t := StampStep(s);
    assert Offered(t) == Offered(s);
    assert Line(t) == Line(s) + [Sent(t.writer.origin, t.writer.original, t.writer.stamped)];
    if NeedsSeq(s.writer.original) {
      DrawnNumber(s);
    }
  }

  lemma WriteSeq(s: Session, room: nat)
    requires SeqInv(s)
    ensures SeqInv(WriteStep(s, room))
  {
    hide Encoding, EncodeError;
    var t := WriteStep(s, room);
    assert Offered(t) == Offered(s);
    assert Line(t) <= Line(s);
  }

  lemma StepSeq(s: Session, a: Action)
    requires SeqInv(s) && UnnumberedAction(a) && Step(s, a).allocations <= TWO_32
    ensures SeqInv(Step(s, a))
  {
    hide PingsRise, StampsRise, Apart, WriteStep, PayloadBytes, StampFrame;
    match a
    case QueueControl(_) => PushSeq(s, a);
    case QueueData(_) => PushSeq(s, a);
    case Tick => if s.heartbeat.Resting? { TickSeq(s); }
    case PushPing => PushPingSeq(s);
    case Stamp => if s.writer.Popped? { StampSeq(s); }
    case Write(room) => WriteSeq(s, room);
    case _ => assert Offered(Step(s, a)) == Offered(s) && Line(Step(s, a)) == Line(s);
  }

  lemma {:induction false} RunSeq(s: Session, acts: seq<Action>)
    requires SeqInv(s) && Unnumbered(acts) && Run(s, acts).allocations <= TWO_32
    ensures SeqInv(Run(s, acts))
    decreases |acts|
  {
    if acts != [] {
      AllocationsGrowInRun(Step(s, acts[0]), acts[1..]);
      StepSeq(s, acts[0]);
      RunSeq(Step(s, acts[0]), acts[1..]);
    }
  }

  /** Where the i-th frame of the wire stands among the frames of its own queue. */
  lemma {:induction false} WrittenAt(wire: seq<Sent>, i: nat)
    requires i < |wire|
    ensures var k := |Written(wire[..i], wire[i].origin)|;
            k < |Written(wire, wire[i].origin)| && Written(wire, wire[i].origin)[k] == wire[i].original
    decreases |wire|
  {
    var last := |wire| - 1;
    if i < last {
      WrittenAt(wire[..last], i);
      assert wire[..last][..i] == wire[..i];
    }
  }

  lemma {:induction false} WrittenMonotone(wire: seq<Sent>, i: nat, j: nat, o: Origin)
    requires i <= j <= |wire|
    ensures Written(wire[..i], o) <= Written(wire[..j], o)
    ensures i < j && wire[i].origin == o ==> |Written(wire[..i], o)| < |Written(wire[..j], o)|
    decreases j - i
  {
    if i < j {
      WrittenMonotone(wire, i, j - 1, o);
      assert wire[..j][..j - 1] == wire[..j - 1];
    }
  }

  ghost predicate Heartbeats(f: Frame, g: Frame) {
    f.kind == PING && g.kind == PING
  }

  ghost predicate Numbered(f: Frame) {
    f.kind != PING && f.kind != PONG
  }

  lemma WireOrder(s: Session, i: nat, j: nat)
    requires Inv(s) && SeqInv(s) && i < j < |s.wire|
    requires s.wire[i].stamped.seqNo != 0 && s.wire[j].stamped.seqNo != 0
    ensures s.wire[i].stamped.seqNo != s.wire[j].stamped.seqNo
    ensures Numbered(s.wire[i].stamped) && Numbered(s.wire[j].stamped) ==>
              s.wire[i].stamped.seqNo < s.wire[j].stamped.seqNo
    ensures Heartbeats(s.wire[i].stamped, s.wire[j].stamped) ==>
              s.wire[i].stamped.seqNo < s.wire[j].stamped.seqNo
  {
    hide Encoding, EncodeError, PayloadBytes, Counted;
    var x, y := s.wire[i], s.wire[j];
    assert Line(s)[i] == x && Line(s)[j] == y;
    var m, n := |Written(s.wire[..i], x.origin)|, |Written(s.wire[..j], y.origin)|;
    WrittenAt(s.wire, i);
    WrittenAt(s.wire, j);
    assert x.original == Accepted(s, x.origin)[m];
    assert y.original == Accepted(s, y.origin)[n];
    WrittenMonotone(s.wire, i, j, x.origin);
    assert x.origin == Control ==> Offered(s)[m] == x.original;
    assert y.origin == Control ==> Offered(s)[n] == y.original;
  }

  /** With at most 2^32 numbers drawn, whatever the interleaving of heartbeat, writer and producers:
      the nonzero numbers one endpoint sends are pairwise distinct, rise strictly over the frames that
      are neither PING nor PONG, and rise strictly over the PINGs; and until the counter wraps every frame
      that is neither PING nor PONG has a number. */
  lemma SequenceNumbersDistinctAndRising(id: uint32, acts: seq<Action>)
    requires Unnumbered(acts) && Run(NewSession(id), acts).allocations <= TWO_32
    ensures var w := Run(NewSession(id), acts).wire;
            forall i, j :: 0 <= i < j < |w| && w[i].stamped.seqNo != 0 && w[j].stamped.seqNo != 0 ==>
              && w[i].stamped.seqNo != w[j].stamped.seqNo
              && (Numbered(w[i].stamped) && Numbered(w[j].stamped) ==> w[i].stamped.seqNo < w[j].stamped.seqNo)
              && (Heartbeats(w[i].stamped, w[j].stamped) ==> w[i].stamped.seqNo < w[j].stamped.seqNo)
    ensures var s := Run(NewSession(id), acts);
            s.allocations < TWO_32 ==>
              forall i :: 0 <= i < |s.wire| && Numbered(s.wire[i].stamped) ==> s.wire[i].stamped.seqNo != 0
  {
    hide SeqInv, Inv, Run, NewSession;
    InitInv(id);
    InitSeq(id);
    RunInv(NewSession(id), acts);
    RunSeq(NewSession(id), acts);
    var s := Run(NewSession(id), acts);
    forall i, j | 0 <= i < j < |s.wire| && s.wire[i].stamped.seqNo != 0 && s.wire[j].stamped.seqNo != 0
      ensures && s.wire[i].stamped.seqNo != s.wire[j].stamped.seqNo
              && (Numbered(s.wire[i].stamped) && Numbered(s.wire[j].stamped) ==>
                    s.wire[i].stamped.seqNo < s.wire[j].stamped.seqNo)
              && (Heartbeats(s.wire[i].stamped, s.wire[j].stamped) ==>
                    s.wire[i].stamped.seqNo < s.wire[j].stamped.seqNo)
    {
      WireOrder(s, i, j);
    }
    if s.allocations < TWO_32 {
      forall i | 0 <= i < |s.wire| && Numbered(s.wire[i].stamped)
        ensures s.wire[i].stamped.seqNo != 0
      {
        WireNumbered(s, i);
      }
    }
  }

  lemma WireNumbered(s: Session, i: nat)
    requires Inv(s) && SeqInv(s) && i < |s.wire| && Numbered(s.wire[i].stamped) && s.allocations < TWO_32
    ensures s.wire[i].stamped.seqNo != 0
  {
    hide Encoding, EncodeError, PayloadBytes, Counted;
    assert Line(s)[i] == s.wire[i];
  }

  // ---- No number is lost, but for at most two ----

  function NumbersIn(fs: seq<Frame>): nat {
    if fs == [] then 0
    else NumbersIn(fs[..|fs| - 1]) + if fs[|fs| - 1].seqNo != 0 then 1 else 0
  }

  function StampsIn(wire: seq<Sent>): nat {
    if wire == [] then 0
    else
      var x := wire[|wire| - 1];
      StampsIn(wire[..|wire| - 1]) + if NeedsSeq(x.original) && x.stamped.seqNo != 0 then 1 else 0
  }

  lemma NumbersSnoc(fs: seq<Frame>, f: Frame)
    ensures NumbersIn(fs + [f]) == NumbersIn(fs) + if f.seqNo != 0 then 1 else 0
  {
    assert (fs + [f])[..|fs|] == fs;
  }

  lemma StampsSnoc(wire: seq<Sent>, x: Sent)
    ensures StampsIn(wire + [x]) == StampsIn(wire) + if NeedsSeq(x.original) && x.stamped.seqNo != 0 then 1 else 0
  {
    assert (wire + [x])[..|wire|] == wire;
  }

  /** Numbers that are accepted with a PING, held by the heartbeat, written, or held by the writer. */
  function AccountedFor(s: Session): nat {
    NumbersIn(s.acceptedControl) + (if s.heartbeat.Holding? then 1 else 0)
    + StampsIn(s.wire) + (if s.writer.Stamped? && NeedsSeq(s.writer.original) then 1 else 0)
  }

  ghost predicate Accounted(s: Session) {
    && s.nextSeq == s.allocations % TWO_32
    && (s.heartbeat.Holding? ==> s.heartbeat.ping.seqNo != 0)
    && (s.writer.Stamped? && NeedsSeq(s.writer.original) ==> s.writer.stamped.seqNo != 0)
    && AccountedFor(s) <= s.allocations
    && s.allocations <= AccountedFor(s) + (if s.heartbeat.Stopped? then 1 else 0) + (if s.writer.Broken? then 1 else 0)
  }

  lemma HeartbeatAccounted(s: Session)
    requires Accounted(s) && s.allocations < TWO_32 - 1
    ensures Accounted(TickStep(s)) && Accounted(PushPingStep(s))
  {
    hide PayloadBytes, NumbersIn, StampsIn, NeedsSeq;
    DrawnNumber(s);
    if s.heartbeat.Holding? {
      NumbersSnoc(s.acceptedControl, s.heartbeat.ping);
    }
  }

  lemma WriterAccounted(s: Session, room: nat)
    requires Accounted(s)
    ensures Accounted(WriteStep(s, room))
    ensures StampStep(s).allocations < TWO_32 ==> Accounted(StampStep(s))
  {
    hide Encoding, EncodeError, NumbersIn, StampsIn;
    if s.allocations < TWO_32 {
      DrawnNumber(s);
    }
    if s.writer.Stamped? {
      StampsSnoc(s.wire, Sent(s.writer.origin, s.writer.original, s.writer.stamped));
    }
  }

  lemma StepAccounted(s: Session, a: Action)
    requires Accounted(s) && UnnumberedAction(a) && Step(s, a).allocations < TWO_32
    ensures Accounted(Step(s, a))
  {
    hide PayloadBytes, NumbersIn, StampsIn, WriteStep, StampStep, NeedsSeq;
    match a
    case QueueControl(f) => NumbersSnoc(s.acceptedControl, f);
    case Tick => if s.heartbeat.Resting? { HeartbeatAccounted(s); }
    case PushPing => if s.heartbeat.Holding? { NumbersSnoc(s.acceptedControl, s.heartbeat.ping); }
    case Stamp => WriterAccounted(s, 0);
    case Write(room) => WriterAccounted(s, room);
    case _ =>
  }

  lemma {:induction false} RunAccounted(s: Session, acts: seq<Action>)
    requires Accounted(s) && Unnumbered(acts) && Run(s, acts).allocations < TWO_32
    ensures Accounted(Run(s, acts))
    decreases |acts|
  {
    if acts != [] {
      AllocationsGrowInRun(Step(s, acts[0]), acts[1..]);
      StepAccounted(s, acts[0]);
      RunAccounted(Step(s, acts[0]), acts[1..]);
    }
  }

  /** Before the counter wraps, every number ever drawn is on a queued or written frame or in the hands of the
      heartbeat or the writer, except for one the heartbeat and one the writer may lose when they fail. */
  lemma DrawnNumbersAreUsed(id: uint32, acts: seq<Action>)
    requires Unnumbered(acts) && Run(NewSession(id), acts).allocations < TWO_32
    ensures var s := Run(NewSession(id), acts);
            AccountedFor(s) <= s.allocations
            <= AccountedFor(s) + (if s.heartbeat.Stopped? then 1 else 0) + (if s.writer.Broken? then 1 else 0)
  {
    RunAccounted(NewSession(id), acts);
  }
}

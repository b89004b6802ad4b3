/** When the numbers of a whole wire rise.  A PING carries a number drawn when it was built, other frames carry one
    drawn when they were stamped, so a frame stamped while a PING waits in its queue goes first with the larger
    number. */
module SequenceOrder {
  import opened Bytes
  import opened FrameCodec
  import opened FrameQueues
  import opened SessionSystem
  import opened SequenceNumbers
  import opened Overtaking

  /** The state before action i of a run. */
  ghost function At(id: uint32, acts: seq<Action>, i: nat): Session
    requires i <= |acts|
  {
    Run(NewSession(id), acts[..i])
  }

  lemma AtNext(id: uint32, acts: seq<Action>, i: nat)
    requires i < |acts|
    ensures At(id, acts, i + 1) == Step(At(id, acts, i), acts[i])
  {
    hide Step;
    assert acts[..i + 1] == acts[..i] + [acts[i]];
    RunSnoc(NewSession(id), acts[..i], acts[i]);
  }

  // ---- The three events of the condition ----

  /** The heartbeat draws number n for a PING. */
  predicate DrawsForPing(s: Session, a: Action, n: uint32) {
    a.Tick? && s.heartbeat.Resting? && n == Bump(s.nextSeq)
  }

  /** The writer draws a number for the frame it has popped. */
  predicate DrawsForFrame(s: Session, a: Action, n: uint32) {
    a.Stamp? && s.writer.Popped? && NeedsSeq(s.writer.original) && n == Bump(s.nextSeq)
  }

  /** The writer takes the PING with number n from the control queue. */
  predicate PopsPing(s: Session, a: Action, n: uint32) {
    && a.PollControl? && s.writer.Polling? && s.control.items != []
    && s.control.items[0].kind == PING && s.control.items[0].seqNo == n
  }

  /** Between the draw of number n for a PING and the pop of that PING, another frame was given a number. */
  ghost predicate StampedWhileWaiting(id: uint32, acts: seq<Action>, a: nat, b: nat, p: nat, n: uint32, m: uint32) {
    && a < b < p < |acts| && n != 0 && m != 0
    && DrawsForPing(At(id, acts, a), acts[a], n)
    && DrawsForFrame(At(id, acts, b), acts[b], m)
    && PopsPing(At(id, acts, p), acts[p], n)
  }

  ghost predicate PingOnWire(wire: seq<Sent>, n: uint32) {
    exists j :: 0 <= j < |wire| && wire[j].stamped.kind == PING && wire[j].stamped.seqNo == n
  }

  /** A PING that is on the wire had to wait while another frame was given a number. */
  ghost predicate SomePingWaited(id: uint32, acts: seq<Action>) {
    exists a, b, p, n, m :: StampedWhileWaiting(id, acts, a, b, p, n, m) && PingOnWire(At(id, acts, |acts|).wire, n)
  }

  ghost predicate Rises(wire: seq<Sent>) {
    forall i, j :: 0 <= i < j < |wire| && wire[i].stamped.seqNo != 0 && wire[j].stamped.seqNo != 0 ==>
      wire[i].stamped.seqNo < wire[j].stamped.seqNo
  }

  // ---- Invariants at every point of a run ----

  lemma {:induction false} Monotone(id: uint32, acts: seq<Action>, i: nat, j: nat)
    requires i <= j <= |acts|
    ensures At(id, acts, i).allocations <= At(id, acts, j).allocations
    ensures At(id, acts, i).wire <= At(id, acts, j).wire
    ensures !At(id, acts, j).writer.Broken? ==> Line(At(id, acts, i)) <= Line(At(id, acts, j))
    decreases j - i
  {
    hide Step, Run;
    if i < j {
      Monotone(id, acts, i, j - 1);
      AtNext(id, acts, j - 1);
      AllocationsGrow(At(id, acts, j - 1), acts[j - 1]);
      LineGrows(At(id, acts, j - 1), acts[j - 1]);
    }
  }

  lemma LineGrows(s: Session, a: Action)
    ensures s.wire <= Step(s, a).wire
    ensures s.writer.Broken? ==> Step(s, a).writer.Broken?
    ensures !Step(s, a).writer.Broken? ==> Line(s) <= Line(Step(s, a))
  {
    hide Encoding, EncodeError, StampFrame;
  }

  /** With at most 2^32 draws in the whole run, the invariants of merge and numbering hold at every point. */
  lemma AtInv(id: uint32, acts: seq<Action>, i: nat)
    requires Unnumbered(acts) && i <= |acts| && At(id, acts, |acts|).allocations <= TWO_32
    ensures Inv(At(id, acts, i)) && SeqInv(At(id, acts, i)) && At(id, acts, i).allocations <= TWO_32
  {
    hide Inv, SeqInv, Run, NewSession;
    InitInv(id);
    InitSeq(id);
    RunInv(NewSession(id), acts[..i]);
    Monotone(id, acts, i, |acts|);
    RunSeq(NewSession(id), acts[..i]);
  }

  // ---- From what is on the wire back to the actions ----

  /** Every number on an offered PING was drawn by a tick. */
  lemma {:induction false} TickOf(id: uint32, acts: seq<Action>, i: nat, x: nat) returns (a: nat)
    requires Unnumbered(acts) && i <= |acts| && x < |Offered(At(id, acts, i))|
    requires Offered(At(id, acts, i))[x].seqNo != 0
    ensures a < i && DrawsForPing(At(id, acts, a), acts[a], Offered(At(id, acts, i))[x].seqNo)
    decreases i
  {
    hide Step, Run;
    if i == 0 {
      NothingOffered(id, acts);
      assert false;
    } else {
      AtNext(id, acts, i - 1);
      var s, t := At(id, acts, i - 1), At(id, acts, i);
      var y := OfferedBefore(s, acts[i - 1], x);
      if y < |Offered(s)| {
        a := TickOf(id, acts, i - 1, y);
      } else {
        a := i - 1;
      }
    }
  }

  lemma NothingOffered(id: uint32, acts: seq<Action>)
    ensures Offered(At(id, acts, 0)) == []
  {
    assert acts[..0] == [];
  }

  /** An offered numbered frame was offered before, or is the PING of a tick. */
  lemma OfferedBefore(s: Session, a: Action, x: nat) returns (y: nat)
    requires UnnumberedAction(a) && x < |Offered(Step(s, a))| && Offered(Step(s, a))[x].seqNo != 0
    ensures y < |Offered(s)| ==> Offered(s)[y] == Offered(Step(s, a))[x]
    ensures y >= |Offered(s)| ==> DrawsForPing(s, a, Offered(Step(s, a))[x].seqNo)
  {
    hide Encoding, EncodeError, PayloadBytes, StampFrame;
    y := x;
    if a.QueueControl? && s.control.Accepts(a.frame) && x > |s.acceptedControl| {
      y := x - 1;
    }
  }

  /** Every frame on the wire was stamped when exactly the frames before it had been written. */
  lemma {:induction false} StampOfWire(id: uint32, acts: seq<Action>, i: nat, j: nat) returns (b: nat)
    requires i <= |acts| && j < |Line(At(id, acts, i))| && NeedsSeq(Line(At(id, acts, i))[j].original)
    ensures b < i && |At(id, acts, b).wire| == j
    ensures DrawsForFrame(At(id, acts, b), acts[b], Line(At(id, acts, i))[j].stamped.seqNo)
    decreases i
  {
    hide Step, Run;
    if i == 0 {
      assert Line(At(id, acts, 0)) == [] by { NothingWritten(id, acts); }
      assert false;
    } else {
      AtNext(id, acts, i - 1);
      var s := At(id, acts, i - 1);
      LineStep(s, acts[i - 1], j);
      if j < |Line(s)| {
        b := StampOfWire(id, acts, i - 1, j);
      } else {
        b := i - 1;
      }
    }
  }

  lemma NothingWritten(id: uint32, acts: seq<Action>)
    ensures Line(At(id, acts, 0)) == [] && At(id, acts, 0).wire == [] && At(id, acts, 0).writer.Top?
  {
    assert acts[..0] == [];
  }

  lemma LineStep(s: Session, a: Action, j: nat)
    requires j < |Line(Step(s, a))| && NeedsSeq(Line(Step(s, a))[j].original)
    ensures j < |Line(s)| ==> Line(s)[j] == Line(Step(s, a))[j]
    ensures j >= |Line(s)| ==> DrawsForFrame(s, a, Line(Step(s, a))[j].stamped.seqNo) && |s.wire| == j
  {
    hide Encoding, EncodeError, PayloadBytes;
  }

  /** Written frames, then the one the writer has popped. */
  function Taken(s: Session): seq<Frame> {
    seq(|s.wire|, i requires 0 <= i < |s.wire| => s.wire[i].original)
    + if s.writer.Popped? || s.writer.Stamped? then [s.writer.original] else []
  }

  /** Every PING on the wire was popped from control when exactly the frames before it had been written. */
  lemma {:induction false} PopOfWire(id: uint32, acts: seq<Action>, i: nat, j: nat) returns (p: nat)
    requires Unnumbered(acts) && i <= |acts| && At(id, acts, |acts|).allocations <= TWO_32
    requires j < |Taken(At(id, acts, i))|
    requires var f := Taken(At(id, acts, i))[j]; f.kind == PING && f.seqNo != 0
    ensures p < i && |At(id, acts, p).wire| == j && PopsPing(At(id, acts, p), acts[p], Taken(At(id, acts, i))[j].seqNo)
    decreases i
  {
    hide Step, Run, SeqInv, Inv;
    if i == 0 {
      NothingWritten(id, acts);
      assert false;
    } else {
      AtNext(id, acts, i - 1);
      AtInv(id, acts, i - 1);
      var s := At(id, acts, i - 1);
      TakenStep(s, acts[i - 1], j);
      if j < |Taken(s)| {
        p := PopOfWire(id, acts, i - 1, j);
      } else {
        p := i - 1;
      }
    }
  }

  lemma TakenStep(s: Session, a: Action, j: nat)
    requires Inv(s) && SeqInv(s) && j < |Taken(Step(s, a))|
    requires var f := Taken(Step(s, a))[j]; f.kind == PING && f.seqNo != 0
    ensures j < |Taken(s)| ==> Taken(s)[j] == Taken(Step(s, a))[j]
    ensures j >= |Taken(s)| ==> PopsPing(s, a, Taken(Step(s, a))[j].seqNo) && |s.wire| == j
  {
    hide Encoding, EncodeError, PayloadBytes, StampFrame, Written, Counted, WireFaithful, PingsRise, StampsRise, Apart;
    if a.PollData? && s.writer.ControlEmpty? && s.data.items != [] {
      assert s.data.items[0] == s.acceptedData[|s.acceptedData| - |s.data.items|];
    }
  }

  // ---- The two directions ----

  /** A number drawn for a frame exceeds every number before it on the wire. */
  ghost predicate StampsLead(s: Session) {
    forall i, j :: 0 <= i < j < |Line(s)| && NeedsSeq(Line(s)[j].original) && Line(s)[j].stamped.seqNo != 0 ==>
      Line(s)[i].stamped.seqNo < Line(s)[j].stamped.seqNo
  }

  lemma LineBelow(s: Session, i: nat)
    requires Inv(s) && SeqInv(s) && i < |s.wire|
    ensures s.wire[i].stamped.seqNo <= s.allocations
  {
    hide Encoding, EncodeError, PayloadBytes, Counted, Written;
    var x := s.wire[i];
    assert Line(s)[i] == x;
    WrittenAt(s.wire, i);
    var k := |Written(s.wire[..i], x.origin)|;
    assert Accepted(s, x.origin)[k] == x.original;
    assert x.origin == Control ==> Offered(s)[k] == x.original;
  }

  lemma StepLeads(s: Session, a: Action)
    requires Inv(s) && SeqInv(s) && StampsLead(s) && Step(s, a).allocations <= TWO_32
    ensures StampsLead(Step(s, a))
  {
    hide Encoding, EncodeError, PayloadBytes, Inv, SeqInv;
    var t := Step(s, a);
    if a.Stamp? && s.writer.Popped? {
      assert Line(t) == Line(s) + [Sent(t.writer.origin, t.writer.original, t.writer.stamped)];
      forall i | 0 <= i < |s.wire|
        ensures s.wire[i].stamped.seqNo <= s.allocations
      {
        LineBelow(s, i);
      }
      if NeedsSeq(s.writer.original) {
        DrawnBy(s);
      }
    } else {
      assert Line(t) <= Line(s);
    }
  }

  lemma DrawnBy(s: Session)
    requires SeqInv(s) && s.allocations < TWO_32
    ensures Bump(s.nextSeq) == 0 || Bump(s.nextSeq) == s.allocations + 1
  {
    DrawnNumber(s);
  }

  lemma {:induction false} AtLeads(id: uint32, acts: seq<Action>, i: nat)
    requires Unnumbered(acts) && i <= |acts| && At(id, acts, |acts|).allocations <= TWO_32
    ensures StampsLead(At(id, acts, i))
    decreases i
  {
    hide Step, Run, Inv, SeqInv;
    if i == 0 {
      NothingWritten(id, acts);
    } else {
      AtLeads(id, acts, i - 1);
      AtNext(id, acts, i - 1);
      AtInv(id, acts, i - 1);
      AtInv(id, acts, i);
      StepLeads(At(id, acts, i - 1), acts[i - 1]);
    }
  }

  /** The number drawn at a point of the run is the count of draws, or zero at the wrap. */
  lemma DrawnAt(id: uint32, acts: seq<Action>, i: nat, n: uint32)
    requires Unnumbered(acts) && i < |acts| && At(id, acts, |acts|).allocations <= TWO_32 && n != 0
    requires DrawsForPing(At(id, acts, i), acts[i], n) || DrawsForFrame(At(id, acts, i), acts[i], n)
    ensures n == At(id, acts, i).allocations + 1 == At(id, acts, i + 1).allocations
  {
    hide Run, Inv, SeqInv, Encoding, EncodeError, PayloadBytes, StampFrame;
    AtNext(id, acts, i);
    AtInv(id, acts, i);
    AtInv(id, acts, i + 1);
    DrawnBy(At(id, acts, i));
  }

  /** A pair of the wire that is out of order is a stamped frame and a PING behind it. */
  lemma OutOfOrder(s: Session, i: nat, j: nat) returns (x: nat)
    requires Inv(s) && SeqInv(s) && StampsLead(s) && i < j < |s.wire|
    requires 0 != s.wire[j].stamped.seqNo <= s.wire[i].stamped.seqNo
    ensures NeedsSeq(s.wire[i].original) && s.wire[j].stamped.seqNo < s.wire[i].stamped.seqNo
    ensures x < |Offered(s)| && Offered(s)[x] == s.wire[j].original
    ensures s.wire[j].original.kind == s.wire[j].stamped.kind == PING
            && s.wire[j].original.seqNo == s.wire[j].stamped.seqNo
  {
    hide Encoding, EncodeError, PayloadBytes, Counted, Written;
    assert Line(s)[i] == s.wire[i] && Line(s)[j] == s.wire[j];
    WireOrder(s, i, j);
    var _ := NumberedPing(s, i);
    x := NumberedPing(s, j);
  }

  /** A numbered frame on the wire that did not need a number is a PING from the control queue. */
  lemma NumberedPing(s: Session, j: nat) returns (x: nat)
    requires Inv(s) && SeqInv(s) && j < |s.wire|
    ensures !NeedsSeq(s.wire[j].original) ==> s.wire[j].stamped.seqNo == s.wire[j].original.seqNo
    ensures !NeedsSeq(s.wire[j].original) && s.wire[j].stamped.seqNo != 0 ==>
              && s.wire[j].original.kind == s.wire[j].stamped.kind == PING
              && x < |Offered(s)| && Offered(s)[x] == s.wire[j].original && x < |Written(s.wire, Control)|
  {
    hide Encoding, EncodeError, PayloadBytes, Counted, Written;
    var y := s.wire[j];
    assert Line(s)[j] == y;
    WrittenAt(s.wire, j);
    x := |Written(s.wire[..j], y.origin)|;
    assert Accepted(s, y.origin)[x] == y.original;
    assert y.origin == Control ==> Offered(s)[x] == y.original;
  }

  lemma FallingMeansWaiting(id: uint32, acts: seq<Action>, i: nat, j: nat)
    requires Unnumbered(acts) && At(id, acts, |acts|).allocations <= TWO_32
    requires var w := At(id, acts, |acts|).wire; i < j < |w| && 0 != w[j].stamped.seqNo <= w[i].stamped.seqNo
    ensures SomePingWaited(id, acts)
  {
    hide Run, Step, Inv, SeqInv, StampsLead, DrawsForPing, DrawsForFrame, PopsPing;
    var e := |acts|;
    var s := At(id, acts, e);
    AtInv(id, acts, e);
    AtLeads(id, acts, e);
    var x := OutOfOrder(s, i, j);
    var n, m := s.wire[j].stamped.seqNo, s.wire[i].stamped.seqNo;
    assert Line(s)[i] == s.wire[i] && Taken(s)[j] == s.wire[j].original;
    var a := TickOf(id, acts, e, x);
    var b := StampOfWire(id, acts, e, i);
    var p := PopOfWire(id, acts, e, j);
    DrawnAt(id, acts, a, n);
    DrawnAt(id, acts, b, m);
    if b <= a {
      Monotone(id, acts, b, a);
    }
    if p <= b {
      Monotone(id, acts, p, b);
    }
    assert StampedWhileWaiting(id, acts, a, b, p, n, m) && PingOnWire(s.wire, n);
  }

  /** A PING that is being popped is not on the wire yet. */
  lemma PoppedPingIsNew(s: Session, a: Action, n: uint32, j: nat)
    requires Inv(s) && SeqInv(s) && PopsPing(s, a, n) && n != 0 && j < |s.wire|
    ensures s.wire[j].stamped.kind == PING ==> s.wire[j].stamped.seqNo != n
  {
    hide Encoding, EncodeError, PayloadBytes, Counted, Written;
    assert Line(s)[j] == s.wire[j];
    var y := |s.acceptedControl| - |s.control.items|;
    assert s.acceptedControl[y] == s.control.items[0];
    assert Offered(s)[y] == s.control.items[0];
    var _ := NumberedPing(s, j);
  }

  /** A number drawn for a frame is on the wire once the writer polls again. */
  lemma DrawnIsWritten(id: uint32, acts: seq<Action>, b: nat, p: nat, m: uint32)
    requires b < p < |acts| && DrawsForFrame(At(id, acts, b), acts[b], m) && At(id, acts, p).writer.Polling?
    ensures var w, i := At(id, acts, p).wire, |At(id, acts, b).wire|; i < |w| && w[i].stamped.seqNo == m
  {
    hide Run, Encoding, EncodeError, PayloadBytes;
    AtNext(id, acts, b);
    var i := |At(id, acts, b).wire|;
    assert Line(At(id, acts, b + 1))[i].stamped.seqNo == m;
    Monotone(id, acts, b + 1, p);
  }

  lemma WaitingMeansFalling(id: uint32, acts: seq<Action>, a: nat, b: nat, p: nat, n: uint32, m: uint32)
    requires Unnumbered(acts) && At(id, acts, |acts|).allocations <= TWO_32
    requires StampedWhileWaiting(id, acts, a, b, p, n, m) && PingOnWire(At(id, acts, |acts|).wire, n)
    ensures !Rises(At(id, acts, |acts|).wire)
  {
    hide Run, Step, Inv, SeqInv, DrawsForPing, DrawsForFrame;
    var w := At(id, acts, |acts|).wire;
    DrawnAt(id, acts, a, n);
    DrawnAt(id, acts, b, m);
    Monotone(id, acts, a + 1, b);
    DrawnIsWritten(id, acts, b, p, m);
    var i := |At(id, acts, b).wire|;
    Monotone(id, acts, p, |acts|);
    var j :| 0 <= j < |w| && w[j].stamped.kind == PING && w[j].stamped.seqNo == n;
    AtInv(id, acts, p);
    if j < |At(id, acts, p).wire| {
      PoppedPingIsNew(At(id, acts, p), acts[p], n, j);
    }
    assert w[i].stamped.seqNo == m && i < j;
  }

  /** With at most 2^32 numbers drawn, whatever the interleaving: the nonzero numbers of the whole wire rise if and
      only if no PING on it had to wait, between the draw of its number and its pop, while another frame was given
      a number. */
  lemma WireRisesExactly(id: uint32, acts: seq<Action>)
    requires Unnumbered(acts) && Run(NewSession(id), acts).allocations <= TWO_32
    ensures Rises(Run(NewSession(id), acts).wire) <==> !SomePingWaited(id, acts)
  {
    hide Run, StampedWhileWaiting;
    assert acts[..|acts|] == acts;
    var w := At(id, acts, |acts|).wire;
    if SomePingWaited(id, acts) {
      var a, b, p, n, m :| StampedWhileWaiting(id, acts, a, b, p, n, m) && PingOnWire(w, n);
      WaitingMeansFalling(id, acts, a, b, p, n, m);
    }
    if !Rises(w) {
      var i, j :| 0 <= i < j < |w| && w[i].stamped.seqNo != 0 && w[j].stamped.seqNo != 0
                  && w[i].stamped.seqNo >= w[j].stamped.seqNo;
      FallingMeansWaiting(id, acts, i, j);
    }
  }

  // ---- A run in which they fall ----

  /** A frame is queued, the heartbeat draws its number, and the frame is stamped and written before the PING is. */
  function FallingRun(d: Frame): seq<Action> {
    [QueueData(d), Tick, Check(false), PollControl, PollData, Stamp]
    + [Write(20 + |d.payload|), PushPing, Check(false), PollControl, Stamp, Write(20)]
  }

  lemma RunSix(s: Session, a: Action, b: Action, c: Action, d: Action, e: Action, f: Action)
    ensures Run(s, [a, b, c, d, e, f]) == Step(Step(Step(Step(Step(Step(s, a), b), c), d), e), f)
  {
    hide Step;
    RunSnoc(s, [], a);
    assert [] + [a] == [a];
    RunSnoc(s, [a], b);
    assert [a] + [b] == [a, b];
    RunSnoc(s, [a, b], c);
    assert [a, b] + [c] == [a, b, c];
    RunSnoc(s, [a, b, c], d);
    assert [a, b, c] + [d] == [a, b, c, d];
    RunSnoc(s, [a, b, c, d], e);
    assert [a, b, c, d] + [e] == [a, b, c, d, e];
    RunSnoc(s, [a, b, c, d, e], f);
    assert [a, b, c, d, e] + [f] == [a, b, c, d, e, f];
  }

  lemma FrameFirst(id: uint32, d: Frame)
    requires d.seqNo == 0 && d.kind == TCPDATA && |d.payload| <= MAX_PAYLOAD_LEN
    ensures var s := Run(NewSession(id), [QueueData(d), Tick, Check(false), PollControl, PollData, Stamp]);
            && s.writer == Stamped(Data, d, StampFrame(d, id, 2)) && s.wire == [] && !s.closed
            && s.heartbeat == Holding(PingFrame(id, 1)) && s.control == NewSession(id).control && s.id == id
  {
    hide StampFrame, Run;
    var s := NewSession(id);
    RunSix(s, QueueData(d), Tick, Check(false), PollControl, PollData, Stamp);
    assert s.data.Accepts(d);
    var s1 := Step(s, QueueData(d));
    assert s1.data.items == [d];
    var s2 := Step(s1, Tick);
    var s3 := Step(s2, Check(false));
    var s4 := Step(s3, PollControl);
    var s5 := Step(s4, PollData);
    assert s5.writer == Popped(Data, d) && s5.nextSeq == 1;
  }

  lemma PingSecond(s: Session, d: Frame)
    requires s.writer == Stamped(Data, d, StampFrame(d, s.id, 2)) && s.wire == [] && !s.closed
    requires s.heartbeat == Holding(PingFrame(s.id, 1)) && s.control == NewSession(s.id).control
    requires d.seqNo == 0 && d.kind == TCPDATA && d.version == 0 && |d.payload| <= MAX_PAYLOAD_LEN
    ensures var w := Run(s, [Write(20 + |d.payload|), PushPing, Check(false), PollControl, Stamp, Write(20)]).wire;
            |w| == 2 && w[0].stamped.seqNo == 2 && w[1].stamped.seqNo == 1
  {
    hide Run, Encoding;
    var room, ping := 20 + |d.payload|, PingFrame(s.id, 1);
    RunSix(s, Write(room), PushPing, Check(false), PollControl, Stamp, Write(20));
    var s1 := Step(s, Write(room));
    assert |s1.wire| == 1 && s1.wire[0].stamped.seqNo == 2;
    assert s1.control.Accepts(ping);
    var s2 := Step(s1, PushPing);
    assert s2.control.items == [ping];
    var s3 := Step(s2, Check(false));
    var s4 := Step(s3, PollControl);
    assert s4.writer == Popped(Control, ping);
    var s5 := Step(s4, Stamp);
    assert s5.writer.stamped.seqNo == 1 && Encodable(s5.writer.stamped);
  }

  /** Numbers on the wire need not rise: this run writes number 2 and then number 1. */
  lemma NumbersFall(id: uint32, d: Frame)
    requires d.seqNo == 0 && d.kind == TCPDATA && d.version == 0 && |d.payload| <= MAX_PAYLOAD_LEN
    ensures var w := Run(NewSession(id), FallingRun(d)).wire;
            |w| == 2 && w[0].stamped.seqNo == 2 && w[1].stamped.seqNo == 1
  {
    hide Run, StampFrame;
    var first := [QueueData(d), Tick, Check(false), PollControl, PollData, Stamp];
    RunAppend(NewSession(id), first, [Write(20 + |d.payload|), PushPing, Check(false), PollControl, Stamp, Write(20)]);
    FrameFirst(id, d);
    PingSecond(Run(NewSession(id), first), d);
  }
}

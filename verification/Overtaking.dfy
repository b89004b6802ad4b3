/** Exactly when frames of one queue overtake frames of the other. */
module Overtaking {
  import opened Bytes
  import opened FrameCodec
  import opened FrameQueues
  import opened SessionSystem
  import opened SequenceNumbers
  import opened SessionProperties

  lemma {:induction false} RunAppend(s: Session, before: seq<Action>, after: seq<Action>)
    ensures Run(s, before + after) == Run(Run(s, before), after)
    decreases |before|
  {
    hide Step;
    if before == [] {
      assert before + after == after;
    } else {
      assert (before + after)[0] == before[0] && (before + after)[1..] == before[1..] + after;
      RunAppend(Step(s, before[0]), before[1..], after);
    }
  }

  lemma RunSnoc(s: Session, acts: seq<Action>, a: Action)
    ensures Run(s, acts + [a]) == Step(Run(s, acts), a)
  {
    hide Step;
    RunAppend(s, acts, [a]);
    assert [a][1..] == [];
  }

  // ---- Data before a queued control frame ----

  /** Some interleaving brings a data frame onto the wire while the oldest control frame stays queued. */
  ghost predicate CanOvertake(s: Session) {
    exists acts :: PoppedControl(Run(s, acts)) == PoppedControl(s) && DataWritten(Run(s, acts)) > DataWritten(s)
  }

  /** The writer is past its look at the control queue and bound to write a data frame. */
  predicate BoundToData(s: Session) {
    match s.writer
    case ControlEmpty => s.data.items == [] || Encodable(s.data.items[0])
    case Popped(o, f) => o == Data && Encodable(f)
    case Stamped(o, _, g) => o == Data && Encodable(g)
    case _ => false
  }

  lemma StampEncodable(f: Frame, id: uint32, n: uint32)
    ensures Encodable(StampFrame(f, id, n)) <==> Encodable(f)
  {
  }

  lemma UnboundStep(s: Session, a: Action)
    requires s.control.items != [] && !BoundToData(s) && PoppedControl(Step(s, a)) == PoppedControl(s)
    ensures !BoundToData(Step(s, a)) && DataWritten(Step(s, a)) == DataWritten(s)
    ensures Step(s, a).control.items != []
  {
    hide Encoding, EncodeError, Encodable, Written, PayloadBytes, StampFrame;
    if a.Write? && s.writer.Stamped? {
      WrittenSnoc(s.wire, Sent(s.writer.origin, s.writer.original, s.writer.stamped), Data);
    } else if a.Stamp? && s.writer.Popped? {
      var f := s.writer.original;
      StampEncodable(f, s.id, if NeedsSeq(f) then Bump(s.nextSeq) else s.nextSeq);
    }
  }

  lemma {:induction false} UnboundRun(s: Session, acts: seq<Action>)
    requires s.control.items != [] && !BoundToData(s) && PoppedControl(Run(s, acts)) == PoppedControl(s)
    ensures DataWritten(Run(s, acts)) == DataWritten(s)
    decreases |acts|
  {
    hide Step, BoundToData;
    if acts != [] {
      PoppedControlGrows(s, acts[0]);
      PoppedControlGrowsInRun(Step(s, acts[0]), acts[1..]);
      UnboundStep(s, acts[0]);
      UnboundRun(Step(s, acts[0]), acts[1..]);
    }
  }

  lemma StampedOvertakes(s: Session) returns (acts: seq<Action>)
    requires s.writer.Stamped? && BoundToData(s)
    ensures PoppedControl(Run(s, acts)) == PoppedControl(s) && DataWritten(Run(s, acts)) > DataWritten(s)
  {
    hide Encoding, EncodeError, Written;
    acts := [Write(20 + |s.writer.stamped.payload|)];
    RunSnoc(s, [], acts[0]);
    assert [] + acts == acts;
    WrittenSnoc(s.wire, Sent(s.writer.origin, s.writer.original, s.writer.stamped), Data);
  }

  lemma PoppedOvertakes(s: Session) returns (acts: seq<Action>)
    requires s.writer.Popped? && BoundToData(s)
    ensures PoppedControl(Run(s, acts)) == PoppedControl(s) && DataWritten(Run(s, acts)) > DataWritten(s)
  {
    hide Encodable, Written, StampFrame;
    var f := s.writer.original;
    StampEncodable(f, s.id, if NeedsSeq(f) then Bump(s.nextSeq) else s.nextSeq);
    acts := StampedOvertakes(Step(s, Stamp));
    acts := [Stamp] + acts;
  }

  lemma PollingOvertakes(s: Session) returns (acts: seq<Action>)
    requires s.writer.ControlEmpty? && BoundToData(s) && s.data.items != []
    ensures PoppedControl(Run(s, acts)) == PoppedControl(s) && DataWritten(Run(s, acts)) > DataWritten(s)
  {
    hide Encodable, Written;
    acts := PoppedOvertakes(Step(s, PollData));
    acts := [PollData] + acts;
  }

  /** A control frame that is first in its queue can be overtaken by a data frame if and only if the writer has
      already found control empty or already holds a data frame, and the frame it is bound to is one the
      encoder takes.  (If the data queue is empty the next data frame to arrive will do.) */
  lemma OvertakenExactly(s: Session)
    requires Inv(s) && s.control.items != []
    ensures CanOvertake(s) <==> BoundToData(s)
  {
    hide Encodable, Written, PayloadBytes, WireFaithful, Merged;
    if CanOvertake(s) && !BoundToData(s) {
      var acts :| PoppedControl(Run(s, acts)) == PoppedControl(s) && DataWritten(Run(s, acts)) > DataWritten(s);
      UnboundRun(s, acts);
    }
    if BoundToData(s) {
      var acts;
      if s.writer.Stamped? {
        acts := StampedOvertakes(s);
      } else if s.writer.Popped? {
        acts := PoppedOvertakes(s);
      } else if s.data.items != [] {
        acts := PollingOvertakes(s);
      } else {
        acts := ArrivalOvertakes(s);
      }
    }
  }

  lemma ArrivalOvertakes(s: Session) returns (acts: seq<Action>)
    requires s.writer.ControlEmpty? && s.data.items == [] && Counted(s)
    ensures PoppedControl(Run(s, acts)) == PoppedControl(s) && DataWritten(Run(s, acts)) > DataWritten(s)
  {
    hide Written;
    var d := ZERO_FRAME.(kind := TCPDATA);
    assert s.data.Accepts(d) && Encodable(d);
    var t := Step(s, QueueData(d));
    assert t.data.items == [d];
    acts := PollingOvertakes(t);
    acts := [QueueData(d)] + acts;
  }

  /** The state is reachable: a control frame that is queued right after the writer found control empty can be
      overtaken, although the writer has not even looked at the data queue. */
  lemma OvertakingHappens(id: uint32, c: Frame)
    requires |c.payload| <= MAX_QUEUED_BYTES_SESSION
    ensures var s := Run(NewSession(id), [Check(false), PollControl, QueueControl(c)]);
            Inv(s) && s.control.items == [c] && BoundToData(s) && CanOvertake(s)
  {
    hide Run, CanOvertake, Inv;
    var acts := [Check(false), PollControl, QueueControl(c)];
    var s := NewSession(id);
    RunSnoc(s, [], Check(false));
    RunSnoc(s, [Check(false)], PollControl);
    RunSnoc(s, [Check(false), PollControl], QueueControl(c));
    assert [] + [Check(false)] == [Check(false)] && [Check(false)] + [PollControl] == [Check(false), PollControl];
    assert [Check(false), PollControl] + [QueueControl(c)] == acts;
    assert Run(s, []) == s by { RunEmpty(s); }
    InitInv(id);
    RunInv(s, acts);
    assert Step(Step(s, Check(false)), PollControl).control.Accepts(c);
    OvertakenExactly(Run(s, acts));
  }

  lemma RunEmpty(s: Session)
    ensures Run(s, []) == s
  {
  }

  // ---- A close and the data of its channel ----

  function PoppedData(s: Session): int {
    |s.acceptedData| - |s.data.items|
  }

  /** Two counts of data frames agree on the first m. */
  predicate Agree(a: int, b: int, m: int) {
    Min(a, m) == Min(b, m)
  }

  /** Where control frame number k stands: n of the first m data frames go before it. */
  ghost predicate Placed(wire: seq<Sent>, k: nat, n: int, m: int) {
    forall p :: 0 <= p < |wire| && wire[p].origin == Control && |Written(wire[..p], Control)| == k ==>
      Agree(|Written(wire[..p], Data)|, n, m)
  }

  ghost predicate WillPlace(t: Session, k: nat, n: int, m: int) {
    && k < |t.acceptedControl| && m <= |t.acceptedData|
    && if PoppedControl(t) <= k
       then if t.writer.ControlEmpty? then PoppedData(t) + 1 == n else Agree(PoppedData(t), n, m)
       else if |Written(t.wire, Control)| <= k then Agree(DataWritten(t), n, m)
       else Placed(t.wire, k, n, m)
  }

  lemma PollPlaces(t: Session, a: Action, k: nat, n: int, m: int)
    requires Merged(t) && WillPlace(t, k, n, m) && (a.PollControl? || a.PollData?)
    ensures WillPlace(Step(t, a), k, n, m)
  {
    hide Written, PayloadBytes, Placed;
  }

  lemma PlacedSnoc(wire: seq<Sent>, x: Sent, k: nat, n: int, m: int)
    requires |Written(wire, Control)| == k && x.origin == Control ==> Agree(|Written(wire, Data)|, n, m)
    requires |Written(wire, Control)| > k ==> Placed(wire, k, n, m)
    requires |Written(wire, Control)| >= k
    ensures |Written(wire, Control)| > k || x.origin == Control ==> Placed(wire + [x], k, n, m)
  {
    hide Written;
    var after := wire + [x];
    assert wire[..|wire|] == wire;
    forall p | 0 <= p < |after| && after[p].origin == Control && |Written(after[..p], Control)| == k
      ensures |Written(wire, Control)| > k || x.origin == Control ==> Agree(|Written(after[..p], Data)|, n, m)
    {
      if p == |wire| {
        assert after[..p] == wire;
      } else {
        assert after[..p] == wire[..p] && after[p] == wire[p];
        if |Written(wire, Control)| == k {
          WrittenMonotone(wire, p, |wire|, Control);
          assert false;
        }
      }
    }
  }

  lemma WritePlaces(t: Session, room: nat, k: nat, n: int, m: int)
    requires Merged(t) && WillPlace(t, k, n, m)
    ensures WillPlace(WriteStep(t, room), k, n, m)
  {
    hide Encoding, EncodeError, Written, Placed;
    if t.writer.Stamped? {
      var x := Sent(t.writer.origin, t.writer.original, t.writer.stamped);
      WrittenSnoc(t.wire, x, Control);
      WrittenSnoc(t.wire, x, Data);
      if PoppedControl(t) > k {
        PlacedSnoc(t.wire, x, k, n, m);
      }
    }
  }

  lemma StepPlaces(t: Session, a: Action, k: nat, n: int, m: int)
    requires Merged(t) && WillPlace(t, k, n, m)
    ensures WillPlace(Step(t, a), k, n, m)
  {
    hide Written, PayloadBytes, Placed, WriteStep, PollControlStep, PollDataStep, StampFrame, NeedsSeq;
    match a
    case PollControl => PollPlaces(t, a, k, n, m);
    case PollData => PollPlaces(t, a, k, n, m);
    case Write(room) => WritePlaces(t, room, k, n, m);
    case _ =>
  }

  lemma {:induction false} RunPlaces(t: Session, acts: seq<Action>, k: nat, n: int, m: int)
    requires Inv(t) && WillPlace(t, k, n, m)
    ensures Inv(Run(t, acts)) && WillPlace(Run(t, acts), k, n, m)
    ensures t.acceptedControl <= Run(t, acts).acceptedControl && t.acceptedData <= Run(t, acts).acceptedData
    decreases |acts|
  {
    hide Step, WillPlace, Counted, WireFaithful;
    if acts != [] {
      StepInv(t, acts[0]);
      StepPlaces(t, acts[0], k, n, m);
      AcceptedGrows(t, acts[0]);
      RunPlaces(Step(t, acts[0]), acts[1..], k, n, m);
    }
  }

  /** The data frame queued at place j of `s` is on the wire before position p. */
  ghost predicate WrittenBefore(s: Session, j: nat, wire: seq<Sent>, p: nat)
    requires j < |s.data.items| && p <= |wire|
  {
    var ahead := Written(wire[..p], Data);
    0 <= PoppedData(s) + j < |ahead| && ahead[PoppedData(s) + j] == s.data.items[j]
  }

  /** The writer is committed to this place of the data queue and will write it before it looks at control. */
  predicate CommittedTo(s: Session, j: nat) {
    j == 0 && s.writer.ControlEmpty?
  }

  lemma ControlPlace(u: Session, p: nat)
    requires Inv(u) && p < |u.wire|
    ensures Written(u.wire[..p], Control) <= u.acceptedControl && Written(u.wire[..p], Data) <= u.acceptedData
    ensures u.wire[p].origin == Control ==>
              var k := |Written(u.wire[..p], Control)|;
              k < |u.acceptedControl| && u.wire[p].original == u.acceptedControl[k]
              && |Written(u.wire, Control)| > k
  {
    hide Written, Counted, WireFaithful;
    assert u.wire[..|u.wire|] == u.wire;
    WrittenMonotone(u.wire, p, |u.wire|, Control);
    WrittenMonotone(u.wire, p, |u.wire|, Data);
    WrittenAt(u.wire, p);
  }

  /** A close against the data queued before it.  Take any reachable state `s`, a frame `c` accepted by its control
      queue, any further run, and the position p at which `c` was written.  Of the data queued in `s`, exactly the
      frame the writer was committed to was written before `c`.  So the data of the channel of `c` all went first
      if and only if none of it lay behind the frame the writer was committed to. */
  lemma CloseOvertakesExactly(s: Session, c: Frame, acts: seq<Action>, p: nat)
    requires Inv(s) && s.control.Accepts(c)
    requires var wire := Run(Step(s, QueueControl(c)), acts).wire;
             p < |wire| && wire[p].origin == Control && |Written(wire[..p], Control)| == |s.acceptedControl|
    ensures var wire := Run(Step(s, QueueControl(c)), acts).wire;
            && wire[p].original == c
            && (forall j :: 0 <= j < |s.data.items| ==> (WrittenBefore(s, j, wire, p) <==> CommittedTo(s, j)))
            && ((forall j :: 0 <= j < |s.data.items| && s.data.items[j].channelID == c.channelID ==>
                   WrittenBefore(s, j, wire, p))
                <==>
                (forall j :: 0 <= j < |s.data.items| && s.data.items[j].channelID == c.channelID ==>
                   CommittedTo(s, j)))
  {
    hide Run, Written, PayloadBytes, Placed, Counted, WireFaithful;
    var t := Step(s, QueueControl(c));
    var k, m := |s.acceptedControl|, |s.acceptedData|;
    var n := PoppedData(s) + if s.writer.ControlEmpty? then 1 else 0;
    StepInv(s, QueueControl(c));
    RunPlaces(t, acts, k, n, m);
    var u := Run(t, acts);
    ControlPlace(u, p);
    PlacedAt(u.wire, p, k, n, m);
    forall j | 0 <= j < |s.data.items|
      ensures WrittenBefore(s, j, u.wire, p) <==> CommittedTo(s, j)
    {
      assert u.acceptedData[PoppedData(s) + j] == s.acceptedData[PoppedData(s) + j] == s.data.items[j];
    }
  }

  lemma PlacedAt(wire: seq<Sent>, p: nat, k: nat, n: int, m: int)
    requires Placed(wire, k, n, m) && p < |wire| && wire[p].origin == Control && |Written(wire[..p], Control)| == k
    ensures Agree(|Written(wire[..p], Data)|, n, m)
  {
  }
}

/** The session's loops one turn at a time: what a turn of the writer does when nothing fails, and how closing,
    cancelling and a full queue end the loops. */
module SessionTurns {
  import opened Bytes
  import opened FrameCodec
  import opened FrameQueues
  import opened SessionSystem
  import opened SessionProperties
  import opened SequenceNumbers
  import opened Overtaking

  // ---- Queues ----

  /** In every reachable state of a session, the control queue takes a frame exactly when fewer than 256 frames and,
      with
      it, at most 8388608 payload bytes are queued there, and the data queue the same with 1024 frames; a frame that is
      taken comes last, and one that is not changes nothing. */
  lemma AcceptsExactly(id: uint32, acts: seq<Action>, f: Frame)
    ensures var s := Run(NewSession(id), acts);
            var t, u := Step(s, QueueControl(f)), Step(s, QueueData(f));
            && (if |s.control.items| < 256 && PayloadBytes(s.control.items) + |f.payload| <= 8388608
                then t == s.(control := t.control, acceptedControl := s.acceptedControl + [f])
                     && t.control.items == s.control.items + [f]
                else t == s)
            && (if |s.data.items| < 1024 && PayloadBytes(s.data.items) + |f.payload| <= 8388608
                then u == s.(data := u.data, acceptedData := s.acceptedData + [f])
                     && u.data.items == s.data.items + [f]
                else u == s)
  {
    hide Run, Merged, WireFaithful, PayloadBytes;
    InitInv(id);
    RunInv(NewSession(id), acts);
  }

  // ---- Turns of the writer ----

  const ENOUGH: nat := 20 + MAX_PAYLOAD_LEN

  /** A turn of the write loop that finds a control frame, and one that finds only data. */
  const CONTROL_TURN := [Check(false), PollControl, Stamp, Write(ENOUGH)]
  const DATA_TURN := [Check(false), PollControl, PollData, Stamp, Write(ENOUGH)]

  /** From s to t, frame f was popped from queue o and written. */
  ghost predicate Sends(s: Session, t: Session, o: Origin, f: Frame) {
    && |t.wire| == |s.wire| + 1 && t.wire[..|s.wire|] == s.wire
    && t.wire[|s.wire|].stamped.kind == f.kind && t.wire[|s.wire|].stamped.channelID == f.channelID
    && t.wire[|s.wire|].stamped.payload == f.payload
    && t == s.(control := if o == Control then s.control.Pop() else s.control,
               data := if o == Data then s.data.Pop() else s.data,
               nextSeq := t.nextSeq, allocations := t.allocations, framesOut := t.framesOut, bytesOut := t.bytesOut,
               wire := t.wire)
  }

  predicate AtTop(s: Session) {
    s.writer.Top? && !s.closed
  }

  lemma StampAndWrite(s: Session, top: Session)
    requires s.writer.Popped? && Encodable(s.writer.original)
             && s == top.(writer := s.writer, control := s.control, data := s.data)
    requires top.writer.Top?
    ensures var t := Step(Step(s, Stamp), Write(ENOUGH));
            && |t.wire| == |s.wire| + 1 && t.wire[..|s.wire|] == s.wire
            && t.wire[|s.wire|].stamped.kind == s.writer.original.kind
            && t.wire[|s.wire|].stamped.channelID == s.writer.original.channelID
            && t.wire[|s.wire|].stamped.payload == s.writer.original.payload
            && t == s.(writer := Top, nextSeq := t.nextSeq, allocations := t.allocations, framesOut := t.framesOut,
                       bytesOut := t.bytesOut, wire := t.wire)
  {
    hide Encoding;
  }

  lemma ControlTurn(s: Session, f: Frame)
    requires AtTop(s) && s.control.items != [] && s.control.items[0] == f && Encodable(f)
    ensures Sends(s, Run(s, CONTROL_TURN), Control, f)
  {
    hide Run, Encodable, StampStep, WriteStep;
    var s1 := Step(s, Check(false));
    var s2 := Step(s1, PollControl);
    StampAndWrite(s2, s);
    RunSnoc(s, [], Check(false));
    RunSnoc(s, [Check(false)], PollControl);
    RunSnoc(s, [Check(false), PollControl], Stamp);
    RunSnoc(s, [Check(false), PollControl, Stamp], Write(ENOUGH));
    RunNothing(s);
    assert [] + [Check(false)] == [Check(false)];
    assert [Check(false)] + [PollControl] == [Check(false), PollControl];
    assert [Check(false), PollControl] + [Stamp] == [Check(false), PollControl, Stamp];
    assert [Check(false), PollControl, Stamp] + [Write(ENOUGH)] == CONTROL_TURN;
  }

  lemma RunNothing(s: Session)
    ensures Run(s, []) == s
  {
  }

  lemma DataTurn(s: Session, f: Frame)
    requires AtTop(s) && s.control.items == [] && s.data.items != [] && s.data.items[0] == f && Encodable(f)
    ensures Sends(s, Run(s, DATA_TURN), Data, f)
  {
    hide Run, Encodable, StampStep, WriteStep;
    var s1 := Step(s, Check(false));
    var s2 := Step(s1, PollControl);
    var s3 := Step(s2, PollData);
    StampAndWrite(s3, s);
    RunSnoc(s, [], Check(false));
    RunSnoc(s, [Check(false)], PollControl);
    RunSnoc(s, [Check(false), PollControl], PollData);
    RunSnoc(s, [Check(false), PollControl, PollData], Stamp);
    RunSnoc(s, [Check(false), PollControl, PollData, Stamp], Write(ENOUGH));
    RunNothing(s);
    assert [] + [Check(false)] == [Check(false)];
    assert [Check(false)] + [PollControl] == [Check(false), PollControl];
    assert [Check(false), PollControl] + [PollData] == [Check(false), PollControl, PollData];
    assert [Check(false), PollControl, PollData] + [Stamp] == [Check(false), PollControl, PollData, Stamp];
    assert [Check(false), PollControl, PollData, Stamp] + [Write(ENOUGH)] == DATA_TURN;
  }

  /** A turn that finds nothing changes nothing. */
  lemma IdleTurn(s: Session)
    requires AtTop(s) && s.control.items == [] && s.data.items == []
    ensures Step(Step(Step(s, Check(false)), PollControl), PollData) == s
  {
  }

  // ---- The ends of the loops ----

  /** After Close, at most one more frame is written, and none if the write loop was at its top, in every run. */
  lemma ClosingStopsWriter(s: Session, acts: seq<Action>)
    ensures var t := Run(Step(s, Close), acts);
            t.closed && |t.wire| <= |s.wire| + if MayStillWrite(s.writer) then 1 else 0
  {
    AtMostOneFrameAfterClose(Step(s, Close), acts);
    StaysClosed(Step(s, Close), acts);
  }

  lemma {:induction false} StaysClosed(s: Session, acts: seq<Action>)
    requires s.closed
    ensures Run(s, acts).closed
    decreases |acts|
  {
    if acts != [] {
      ClosedStep(s, acts[0]);
      StaysClosed(Step(s, acts[0]), acts[1..]);
    }
  }

  /** A writer that looks at a cancelled context, or at a closed session, writes nothing more in any run. */
  lemma CancellingStopsWriter(s: Session, cancelled: bool, acts: seq<Action>)
    requires s.writer.Top? && (cancelled || s.closed)
    ensures Run(Step(s, Check(cancelled)), acts).wire == s.wire
  {
    ReturnedStays(Step(s, Check(cancelled)), acts);
  }

  lemma {:induction false} ReturnedStays(s: Session, acts: seq<Action>)
    requires s.writer.Returned?
    ensures Run(s, acts).wire == s.wire && Run(s, acts).writer.Returned?
    decreases |acts|
  {
    if acts != [] {
      ReturnedStep(s, acts[0]);
      ReturnedStays(Step(s, acts[0]), acts[1..]);
    }
  }

  lemma ReturnedStep(s: Session, a: Action)
    requires s.writer.Returned?
    ensures Step(s, a).writer.Returned? && Step(s, a).wire == s.wire
  {
    hide Encoding, EncodeError, StampFrame;
  }

  /** A heartbeat that is stopped, or whose PING a full control queue refuses, draws no further number in any run, so
      every later draw is for a frame the writer stamps. */
  lemma HeartbeatEnds(s: Session, a: Action, acts: seq<Action>)
    requires (a.StopHeartbeat? && s.heartbeat.Resting?)
             || (a.PushPing? && s.heartbeat.Holding? && !s.control.Accepts(s.heartbeat.ping))
    ensures Step(s, a).acceptedControl == s.acceptedControl
    ensures Run(Step(s, a), acts).heartbeat.Stopped?
  {
    StoppedStays(Step(s, a), acts);
  }

  lemma {:induction false} StoppedStays(s: Session, acts: seq<Action>)
    requires s.heartbeat.Stopped?
    ensures Run(s, acts).heartbeat.Stopped?
    decreases |acts|
  {
    if acts != [] {
      StoppedStep(s, acts[0]);
      StoppedStays(Step(s, acts[0]), acts[1..]);
    }
  }

  lemma StoppedStep(s: Session, a: Action)
    requires s.heartbeat.Stopped?
    ensures Step(s, a).heartbeat.Stopped?
  {
    hide Encoding, EncodeError, StampFrame;
  }

  // ---- Heartbeats ----

  ghost predicate PingsAreOurs(s: Session) {
    && (forall i :: 0 <= i < |s.acceptedControl| && s.acceptedControl[i].seqNo != 0 ==>
          s.acceptedControl[i] == ZERO_FRAME.(kind := 0x11, sessionID := s.id, seqNo := s.acceptedControl[i].seqNo))
    && (s.heartbeat.Holding? ==>
          s.heartbeat.ping == ZERO_FRAME.(kind := 0x11, sessionID := s.id, seqNo := s.heartbeat.ping.seqNo))
  }

  lemma PingStep(s: Session, a: Action)
    requires PingsAreOurs(s) && UnnumberedAction(a)
    ensures PingsAreOurs(Step(s, a)) && Step(s, a).id == s.id
  {
    hide Encoding, EncodeError, StampFrame, Fifo.Accepts;
  }

  /** In every run, a control frame with a number is a PING of the heartbeat: empty, and with the session's id. */
  lemma {:induction false} NumberedAreHeartbeats(s: Session, acts: seq<Action>)
    requires PingsAreOurs(s) && Unnumbered(acts)
    ensures PingsAreOurs(Run(s, acts)) && Run(s, acts).id == s.id
    decreases |acts|
  {
    if acts != [] {
      PingStep(s, acts[0]);
      NumberedAreHeartbeats(Step(s, acts[0]), acts[1..]);
    }
  }
}

/** What holds over every run of a session, for every interleaving of its goroutines. */
module SessionProperties {
  import opened Bytes
  import opened FrameCodec
  import opened FrameQueues
  import opened SessionSystem

  // ---- Merge and conservation ----

  /** In every reachable state each class of frames reached the wire in acceptance order, at most one
      frame is in flight or lost to a failed write, no payload byte is unaccounted for, and each queue
      respects the byte limit on its own. */
  lemma MergeAndConservation(id: uint32, acts: seq<Action>)
    ensures var s := Run(NewSession(id), acts);
            && Written(s.wire, Control) <= s.acceptedControl
            && Written(s.wire, Data) <= s.acceptedData
            && s.acceptedControl == Written(s.wire, Control) + InFlight(s.writer, Control) + s.control.items
            && s.acceptedData == Written(s.wire, Data) + InFlight(s.writer, Data) + s.data.items
            && s.framesOut == |s.wire|
            && PayloadBytes(s.acceptedControl) + PayloadBytes(s.acceptedData)
               == s.bytesOut + PayloadBytes(InFlight(s.writer, Control)) + PayloadBytes(InFlight(s.writer, Data))
                  + PayloadBytes(s.control.items) + PayloadBytes(s.data.items)
            && PayloadBytes(s.control.items) + PayloadBytes(s.data.items) <= 2 * MAX_QUEUED_BYTES_SESSION
  {
    hide Run, Written, PayloadBytes, WireFaithful;
    InitInv(id);
    RunInv(NewSession(id), acts);
    var s := Run(NewSession(id), acts);
    Conservation(s, Control);
    Conservation(s, Data);
  }

  lemma Conservation(s: Session, o: Origin)
    requires MergedFor(s, o)
    ensures PayloadBytes(Accepted(s, o))
            == PayloadBytes(Written(s.wire, o)) + PayloadBytes(InFlight(s.writer, o)) + PayloadBytes(Queued(s, o))
  {
    hide Written, PayloadBytes, InFlight;
    PayloadBytesAppend(Written(s.wire, o) + InFlight(s.writer, o), Queued(s, o));
    PayloadBytesAppend(Written(s.wire, o), InFlight(s.writer, o));
  }

  // ---- Bounded overtaking ----

  function PoppedControl(s: Session): int {
    |s.acceptedControl| - |s.control.items|
  }

  function DataWritten(s: Session): nat {
    |Written(s.wire, Data)|
  }

  /** How many data frames the writer is already committed to. */
  function Committed(w: Writer): nat {
    if w.ControlEmpty? || ((w.Popped? || w.Stamped?) && w.origin == Data) then 1 else 0
  }

  lemma PoppedControlGrows(s: Session, a: Action)
    ensures PoppedControl(s) <= PoppedControl(Step(s, a))
    ensures |s.acceptedControl| <= |Step(s, a).acceptedControl|
  {
    hide WriteStep, StampFrame, NeedsSeq, PayloadBytes;
    if a.Write? {
      WriteTouches(s, a.room);
    }
  }

  lemma WriteTouches(s: Session, room: nat)
    ensures var t := WriteStep(s, room);
            t == s.(writer := t.writer, wire := t.wire, framesOut := t.framesOut, bytesOut := t.bytesOut)
  {
  }

  lemma {:induction false} PoppedControlGrowsInRun(s: Session, acts: seq<Action>)
    ensures PoppedControl(s) <= PoppedControl(Run(s, acts))
    decreases |acts|
  {
    if acts != [] {
      PoppedControlGrows(s, acts[0]);
      PoppedControlGrowsInRun(Step(s, acts[0]), acts[1..]);
    }
  }

  lemma CommitmentShrinks(s: Session, a: Action)
    requires s.control.items != []
    ensures DataWritten(Step(s, a)) + Committed(Step(s, a).writer) <= DataWritten(s) + Committed(s.writer)
  {
    hide Encoding, EncodeError, Written, PayloadBytes, StampFrame;
    if a.Write? && s.writer.Stamped? {
      WrittenSnoc(s.wire, Sent(s.writer.origin, s.writer.original, s.writer.stamped), Data);
    }
  }

  /** From any state in which control frame number k is queued, as long as that frame has not been
      popped, at most one data frame reaches the wire. */
  lemma {:induction false} BoundedOvertaking(s: Session, acts: seq<Action>, k: nat)
    requires PoppedControl(s) <= k < |s.acceptedControl|
    requires PoppedControl(Run(s, acts)) <= k
    ensures DataWritten(Run(s, acts)) + Committed(Run(s, acts).writer) <= DataWritten(s) + Committed(s.writer)
    ensures DataWritten(Run(s, acts)) <= DataWritten(s) + 1
    decreases |acts|
  {
    if acts != [] {
      var t := Step(s, acts[0]);
      CommitmentShrinks(s, acts[0]);
      PoppedControlGrows(s, acts[0]);
      PoppedControlGrowsInRun(t, acts[1..]);
      BoundedOvertaking(t, acts[1..], k);
    }
  }

  // ---- Histories only grow ----

  lemma AcceptedGrows(s: Session, a: Action)
    ensures s.acceptedControl <= Step(s, a).acceptedControl && s.acceptedData <= Step(s, a).acceptedData
  {
    hide Encoding, EncodeError, StampFrame;
  }

  // ---- Closing ----

  predicate MayStillWrite(w: Writer) {
    w.Polling? || w.ControlEmpty? || w.Popped? || w.Stamped?
  }

  /** Once the session is closed, at most one more frame is written, and none if the write loop was
      at its top. */
  lemma {:induction false} AtMostOneFrameAfterClose(s: Session, acts: seq<Action>)
    requires s.closed
    ensures |Run(s, acts).wire| <= |s.wire| + if MayStillWrite(s.writer) then 1 else 0
    decreases |acts|
  {
    if acts != [] {
      var t := Step(s, acts[0]);
      ClosedStep(s, acts[0]);
      AtMostOneFrameAfterClose(t, acts[1..]);
    }
  }

  lemma ClosedStep(s: Session, a: Action)
    requires s.closed
    ensures Step(s, a).closed
    ensures |Step(s, a).wire| + (if MayStillWrite(Step(s, a).writer) then 1 else 0)
            <= |s.wire| + if MayStillWrite(s.writer) then 1 else 0
  {
    hide Encoding, EncodeError, PayloadBytes, StampFrame;
  }

  // ---- The first frame ----

  ghost predicate Opens(s: Session, f: Frame) {
    && s.acceptedControl != [] && s.acceptedControl[0] == f
    && (s.wire != [] ==> s.wire[0].origin == Control && s.wire[0].original == f)
    && (s.wire == [] ==> Committed(s.writer) == 0 && !(s.writer.Broken? && s.writer.origin == Data))
  }

  lemma StepOpens(s: Session, a: Action, f: Frame)
    requires Inv(s) && Opens(s, f)
    ensures Opens(Step(s, a), f)
  {
    hide Inv, Encoding, EncodeError, PayloadBytes, StampFrame, NeedsSeq, Fifo.Accepts;
    EmptyWire(s);
    AcceptedGrows(s, a);
  }

  lemma EmptyWire(s: Session)
    requires Inv(s)
    ensures s.wire == [] ==> s.acceptedControl == InFlight(s.writer, Control) + s.control.items
  {
    hide Counted, WireFaithful;
    assert s.wire == [] ==> Written(s.wire, Control) == [];
  }

  /** A frame queued before the loops start is the first frame of every run's wire: control is FIFO
      and polled before data. */
  lemma {:induction false} QueuedFirstIsSentFirst(s: Session, f: Frame, acts: seq<Action>)
    requires Inv(s) && Opens(s, f)
    ensures var t := Run(s, acts);
            Inv(t) && Opens(t, f) && (t.wire != [] ==> t.wire[0].original == f)
    decreases |acts|
  {
    if acts != [] {
      StepInv(s, acts[0]);
      StepOpens(s, acts[0], f);
      QueuedFirstIsSentFirst(Step(s, acts[0]), f, acts[1..]);
    }
  }

  // ---- Stamps ----

  ghost predicate StampedFor(id: uint32, f: Frame, g: Frame) {
    && g.sessionID == (if f.sessionID == 0 then id else f.sessionID)
    && (f.seqNo != 0 || f.kind == 0x11 || f.kind == 0x12 ==> g.seqNo == f.seqNo)
  }

  ghost predicate WireStamped(s: Session) {
    && (forall i :: 0 <= i < |s.wire| ==> StampedFor(s.id, s.wire[i].original, s.wire[i].stamped))
    && (s.writer.Stamped? ==> StampedFor(s.id, s.writer.original, s.writer.stamped))
  }

  lemma StepStamped(s: Session, a: Action)
    requires WireStamped(s)
    ensures WireStamped(Step(s, a)) && Step(s, a).id == s.id
  {
    hide Encoding, EncodeError, PayloadBytes;
  }

  /** Every frame on a session's wire carries the session's id unless it was queued with another one, and
      differs from the queued frame in nothing but that id and, if it had none and is neither PING nor PONG, its
      number. */
  lemma {:induction false} WireCarriesSessionID(s: Session, acts: seq<Action>)
    requires Inv(s) && WireStamped(s)
    ensures var t := Run(s, acts);
            && t.id == s.id && WireStamped(t)
            && forall i :: 0 <= i < |t.wire| ==> StampOf(t.wire[i].original, t.wire[i].stamped)
    decreases |acts|
  {
    if acts != [] {
      StepInv(s, acts[0]);
      StepStamped(s, acts[0]);
      WireCarriesSessionID(Step(s, acts[0]), acts[1..]);
    }
  }
}

/** A session as a concurrent step system: two locked queues filled by arbitrary producers, a writer
    that polls control before data, a heartbeat, and one atomic sequence counter.  Every atomic
    operation of a goroutine is one step; a step that is not enabled leaves the state alone. */
module SessionSystem {
  import opened Bytes
  import opened FrameCodec
  import opened FrameQueues

  const CONTROL_CAPACITY: nat := 256
  const DATA_CAPACITY: nat := 1024
  const MAX_QUEUED_BYTES_SESSION: nat := 8 * 1024 * 1024

  datatype Origin = Control | Data

  /** A frame that was written whole: the queue it came from, as queued, and as stamped for the wire. */
  datatype Sent = Sent(origin: Origin, original: Frame, stamped: Frame)

  /** Where the write loop is. */
  datatype Writer =
    | Top                                                          // about to look at `closed`
    | Polling                                                      // about to pop control
    | ControlEmpty                                                 // control was empty, about to pop data
    | Popped(origin: Origin, original: Frame)                      // in writeFrame, before the stamp
    | Stamped(origin: Origin, original: Frame, stamped: Frame)     // about to encode
    | Broken(origin: Origin, original: Frame, torn: seq<byte>)     // the write failed after `torn`
    | Returned

  datatype Heartbeat = Resting | Holding(ping: Frame) | Stopped

  datatype Session = Session(
    id: uint32,
    control: Fifo,
    data: Fifo,
    writer: Writer,
    heartbeat: Heartbeat,
    nextSeq: uint32,
    closed: bool,
    framesOut: nat,
    bytesOut: nat,
    // history
    wire: seq<Sent>,
    acceptedControl: seq<Frame>,
    acceptedData: seq<Frame>,
    allocations: nat)

  datatype Action =
    | QueueControl(frame: Frame)
    | QueueData(frame: Frame)
    | Tick
    | PushPing
    | StopHeartbeat
    | Check(cancelled: bool)
    | PollControl
    | PollData
    | Stamp
    | Write(room: nat)
    | Close

  function NewSession(id: uint32): Session {
    Session(id, Fifo([], CONTROL_CAPACITY, MAX_QUEUED_BYTES_SESSION),
            Fifo([], DATA_CAPACITY, MAX_QUEUED_BYTES_SESSION),
            Top, Resting, 0, false, 0, 0, [], [], [], 0)
  }

  // ---- Steps ----

  function PushControl(s: Session, f: Frame): Session {
    if s.control.Accepts(f)
    then s.(control := s.control.Push(f), acceptedControl := s.acceptedControl + [f])
    else s
  }

  function PushData(s: Session, f: Frame): Session {
    if s.data.Accepts(f)
    then s.(data := s.data.Push(f), acceptedData := s.acceptedData + [f])
    else s
  }

  function Bump(n: uint32): uint32 {
    (n + 1) % TWO_32
  }

  function PingFrame(id: uint32, n: uint32): Frame {
    ZERO_FRAME.(kind := PING, sessionID := id, seqNo := n)
  }

  function TickStep(s: Session): Session {
    if s.heartbeat.Resting?
    then s.(nextSeq := Bump(s.nextSeq), allocations := s.allocations + 1,
            heartbeat := Holding(PingFrame(s.id, Bump(s.nextSeq))))
    else s
  }

  function PushPingStep(s: Session): Session {
    if !s.heartbeat.Holding? then s
    else if s.control.Accepts(s.heartbeat.ping)
    then PushControl(s, s.heartbeat.ping).(heartbeat := Resting)
    else s.(heartbeat := Stopped)
  }

  function CheckStep(s: Session, cancelled: bool): Session {
    if s.writer.Top? then s.(writer := if cancelled || s.closed then Returned else Polling) else s
  }

  function PollControlStep(s: Session): Session {
    if !s.writer.Polling? then s
    else if s.control.items == [] then s.(writer := ControlEmpty)
    else s.(writer := Popped(Control, s.control.items[0]), control := s.control.Pop())
  }

  function PollDataStep(s: Session): Session {
    if !s.writer.ControlEmpty? then s
    else if s.data.items == [] then s.(writer := Top)
    else s.(writer := Popped(Data, s.data.items[0]), data := s.data.Pop())
  }

  /** writeFrame gives a number to every frame that has none, except PING and PONG. */
  predicate NeedsSeq(f: Frame) {
    f.seqNo == 0 && f.kind != PING && f.kind != PONG
  }

  function StampFrame(f: Frame, id: uint32, n: uint32): (g: Frame)
    ensures g.kind == f.kind && g.channelID == f.channelID && g.payload == f.payload
  {
    f.(sessionID := if f.sessionID == 0 then id else f.sessionID,
       seqNo := if NeedsSeq(f) then n else f.seqNo)
  }

  function StampStep(s: Session): Session {
    if !s.writer.Popped? then s
    else
      var f := s.writer.original;
      var n := if NeedsSeq(f) then Bump(s.nextSeq) else s.nextSeq;
      s.(writer := Stamped(s.writer.origin, f, StampFrame(f, s.id, n)),
         nextSeq := n, allocations := s.allocations + if NeedsSeq(f) then 1 else 0)
  }

  function WriteStep(s: Session, room: nat): Session {
    if !s.writer.Stamped? then s
    else
      var w := s.writer;
      if !Encodable(w.stamped) then s.(writer := Broken(w.origin, w.original, []))
      else if |Encoding(w.stamped)| > room
      then s.(writer := Broken(w.origin, w.original, Encoding(w.stamped)[..room]))
      else s.(writer := Top, wire := s.wire + [Sent(w.origin, w.original, w.stamped)],
              framesOut := s.framesOut + 1, bytesOut := s.bytesOut + |w.stamped.payload|)
  }

  function Step(s: Session, a: Action): Session {
    match a
    case QueueControl(f) => PushControl(s, f)
    case QueueData(f) => PushData(s, f)
    case Tick => TickStep(s)
    case PushPing => PushPingStep(s)
    case StopHeartbeat => if s.heartbeat.Resting? then s.(heartbeat := Stopped) else s
    case Check(cancelled) => CheckStep(s, cancelled)
    case PollControl => PollControlStep(s)
    case PollData => PollDataStep(s)
    case Stamp => StampStep(s)
    case Write(room) => WriteStep(s, room)
    case Close => s.(closed := true)
  }

  function Run(s: Session, acts: seq<Action>): Session
    decreases |acts|
  {
    if acts == [] then s else Run(Step(s, acts[0]), acts[1..])
  }

  // ---- What reached the wire, by queue ----

  function Written(wire: seq<Sent>, o: Origin): seq<Frame> {
    if wire == [] then []
    else
      var last := wire[|wire| - 1];
      Written(wire[..|wire| - 1], o) + if last.origin == o then [last.original] else []
  }

  function InFlight(w: Writer, o: Origin): seq<Frame> {
    if (w.Popped? || w.Stamped? || w.Broken?) && w.origin == o then [w.original] else []
  }

  lemma WrittenSnoc(wire: seq<Sent>, x: Sent, o: Origin)
    ensures Written(wire + [x], o) == Written(wire, o) + if x.origin == o then [x.original] else []
  {
    assert (wire + [x])[..|wire|] == wire;
  }

  function Accepted(s: Session, o: Origin): seq<Frame> {
    if o == Control then s.acceptedControl else s.acceptedData
  }

  function Queued(s: Session, o: Origin): seq<Frame> {
    if o == Control then s.control.items else s.data.items
  }

  /** Frames keep their queue's order: nothing is lost, duplicated or reordered inside a class. */
  ghost predicate MergedFor(s: Session, o: Origin) {
    Accepted(s, o) == Written(s.wire, o) + InFlight(s.writer, o) + Queued(s, o)
  }

  ghost predicate Merged(s: Session) {
    MergedFor(s, Control) && MergedFor(s, Data)
  }

  ghost predicate Counted(s: Session) {
    && s.framesOut == |s.wire|
    && s.bytesOut == PayloadBytes(Written(s.wire, Control)) + PayloadBytes(Written(s.wire, Data))
    && s.control.Bounded() && s.data.Bounded()
    && s.control.maxBytes == s.data.maxBytes == MAX_QUEUED_BYTES_SESSION
    && s.control.capacity == CONTROL_CAPACITY && s.data.capacity == DATA_CAPACITY
  }

  /** Only the session id and the sequence number differ between a queued frame and its wire form. */
  ghost predicate StampOf(f: Frame, g: Frame) {
    g == f.(sessionID := g.sessionID, seqNo := g.seqNo)
  }

  ghost predicate WireFaithful(s: Session) {
    && (forall i :: 0 <= i < |s.wire| ==>
          StampOf(s.wire[i].original, s.wire[i].stamped) && Encodable(s.wire[i].stamped))
    && (s.writer.Stamped? ==> StampOf(s.writer.original, s.writer.stamped))
    && (s.writer.Broken? ==> Torn(s.writer.torn))
  }

  ghost predicate Inv(s: Session) {
    Merged(s) && Counted(s) && WireFaithful(s)
  }

  lemma InitInv(id: uint32)
    ensures Inv(NewSession(id))
  {
  }

  lemma WriteMerged(s: Session, room: nat, o: Origin)
    requires MergedFor(s, o)
    ensures MergedFor(WriteStep(s, room), o)
  {
    hide Encoding, EncodeError, Written;
    if s.writer.Stamped? {
      WrittenSnoc(s.wire, Sent(s.writer.origin, s.writer.original, s.writer.stamped), o);
    }
  }

  lemma TakeFirst(before: seq<Frame>, queue: seq<Frame>)
    requires queue != []
    ensures before + [] + queue == before + [queue[0]] + queue[1..]
  {
    assert queue == [queue[0]] + queue[1..];
  }

  lemma PollMerged(s: Session, o: Origin)
    requires MergedFor(s, o)
    ensures MergedFor(PollControlStep(s), o) && MergedFor(PollDataStep(s), o)
  {
    hide Written, PayloadBytes;
    if Queued(s, o) != [] {
      TakeFirst(Written(s.wire, o), Queued(s, o));
    }
  }

  lemma PushMerged(s: Session, f: Frame, o: Origin)
    requires MergedFor(s, o)
    ensures MergedFor(PushControl(s, f), o) && MergedFor(PushData(s, f), o)
  {
    hide Written, PayloadBytes;
  }

  lemma StepMergedFor(s: Session, a: Action, o: Origin)
    requires MergedFor(s, o)
    ensures MergedFor(Step(s, a), o)
  {
    hide Written, PayloadBytes, WriteStep, PollControlStep, PollDataStep, PushControl, PushData, StampFrame, NeedsSeq;
    match a
    case Write(room) => WriteMerged(s, room, o);
    case PollControl => PollMerged(s, o);
    case PollData => PollMerged(s, o);
    case QueueControl(f) => PushMerged(s, f, o);
    case QueueData(f) => PushMerged(s, f, o);
    case PushPing => if s.heartbeat.Holding? { PushMerged(s, s.heartbeat.ping, o); }
    case _ =>
  }

  lemma PayloadBytesOne(f: Frame)
    ensures PayloadBytes([f]) == |f.payload|
  {
    assert [f][1..] == [];
  }

  lemma WriteCounted(s: Session, room: nat)
    requires Counted(s) && WireFaithful(s)
    ensures Counted(WriteStep(s, room))
  {
    hide Encoding, EncodeError, Written, PayloadBytes;
    if s.writer.Stamped? {
      var x := Sent(s.writer.origin, s.writer.original, s.writer.stamped);
      WrittenSnoc(s.wire, x, Control);
      WrittenSnoc(s.wire, x, Data);
      PayloadBytesAppend(Written(s.wire, x.origin), [x.original]);
      PayloadBytesOne(x.original);
      var y := if x.origin == Control then Data else Control;
      assert Written(s.wire + [x], y) == Written(s.wire, y);
    }
  }

  lemma StepCounted(s: Session, a: Action)
    requires Counted(s) && WireFaithful(s)
    ensures Counted(Step(s, a))
  {
    hide WriteStep, Written, PayloadBytes, Fifo.Bounded, Fifo.Accepts;
    match a
    case QueueControl(f) => FifoStaysBounded(s.control, f);
    case QueueData(f) => FifoStaysBounded(s.data, f);
    case PushPing => if s.heartbeat.Holding? { FifoStaysBounded(s.control, s.heartbeat.ping); }
    case PollControl => FifoStaysBounded(s.control, ZERO_FRAME);
    case PollData => FifoStaysBounded(s.data, ZERO_FRAME);
    case Write(room) => WriteCounted(s, room);
    case _ =>
  }

  lemma StepWireFaithful(s: Session, a: Action)
    requires WireFaithful(s)
    ensures WireFaithful(Step(s, a))
  {
    hide Encoding, EncodeError;
    var t := Step(s, a);
    if a.Write? && s.writer.Stamped? && t.writer.Broken? && t.writer.torn != [] {
      assert t.writer.torn < Encoding(s.writer.stamped);
    }
  }

  lemma StepInv(s: Session, a: Action)
    requires Inv(s)
    ensures Inv(Step(s, a))
  {
    StepMergedFor(s, a, Control);
    StepMergedFor(s, a, Data);
    StepCounted(s, a);
    StepWireFaithful(s, a);
  }

  /** Every reachable state is an order-preserving merge, whatever the interleaving and whether or
      not a write fails. */
  lemma {:induction false} RunInv(s: Session, acts: seq<Action>)
    requires Inv(s)
    ensures Inv(Run(s, acts))
    decreases |acts|
  {
    if acts != [] {
      StepInv(s, acts[0]);
      RunInv(Step(s, acts[0]), acts[1..]);
    }
  }
}

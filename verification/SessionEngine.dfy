/** The session as the program holds it: ring-buffer queues, counters and an output stream updated in
    place.  Each method is one atomic operation of one goroutine and refines one step of the step
    system, so every whole-run result about the step system is a result about this object. */
module SessionEngine {
  import opened Bytes
  import opened FrameCodec
  import opened FrameQueues
  import opened SessionSystem
  import opened WireDelivery

  class Engine {
    const id: uint32
    const controlQ: FrameQueue
    const dataQ: FrameQueue
    const sink: Sink
    var writer: Writer
    var heartbeat: Heartbeat
    var nextSeq: uint32
    var closed: bool
    var lastErr: Option<string>
    var framesOut: nat
    var bytesOut: nat
    ghost var wire: seq<Sent>
    ghost var acceptedControl: seq<Frame>
    ghost var acceptedData: seq<Frame>
    ghost var allocations: nat

    ghost predicate Separate() {
      controlQ != dataQ && controlQ.items != dataQ.items
    }

    ghost predicate Valid()
      reads this, controlQ, controlQ.items, dataQ, dataQ.items, sink
    {
      && Separate()
      && controlQ.Valid() && dataQ.Valid()
      && Inv(State())
      && sink.log == WireBytes(State())
    }

    ghost function State(): Session
      reads this, controlQ, controlQ.items, dataQ, dataQ.items
      requires controlQ.Valid() && dataQ.Valid()
    {
      Session(id, controlQ.Abstract(), dataQ.Abstract(), writer, heartbeat, nextSeq, closed,
              framesOut, bytesOut, wire, acceptedControl, acceptedData, allocations)
    }

    constructor (id: uint32, room: nat)
      ensures Valid() && State() == NewSession(id)
      ensures fresh(controlQ) && fresh(controlQ.items) && fresh(dataQ) && fresh(dataQ.items) && fresh(sink)
    {
      hide Encoding, EncodeError, PayloadBytes, MergedFor, Counted, Window, FrameQueue.InWindow;
      this.id := id;
      controlQ := new FrameQueue(CONTROL_CAPACITY, MAX_QUEUED_BYTES_SESSION);
      dataQ := new FrameQueue(DATA_CAPACITY, MAX_QUEUED_BYTES_SESSION);
      sink := new Sink(room);
      writer, heartbeat, nextSeq, closed := Top, Resting, 0, false;
      lastErr, framesOut, bytesOut := None, 0, 0;
      wire, acceptedControl, acceptedData, allocations := [], [], [], 0;
      new;
      assert State() == NewSession(id);
      InitInv(id);
    }

    method QueueControl(frame: Frame) returns (ok: bool)
      requires Valid()
      modifies this`acceptedControl, controlQ, controlQ.items
      ensures Valid() && ok == old(State()).control.Accepts(frame)
      ensures State() == Step(old(State()), Action.QueueControl(frame))
    {
      hide Encoding, EncodeError, PayloadBytes, EncodeAll, MergedFor, Counted, Window, FrameQueue.InWindow;
      ghost var s := State();
      ok := controlQ.Push(frame);
      if ok {
        acceptedControl := acceptedControl + [frame];
      }
      StepInv(s, Action.QueueControl(frame));
    }

    method QueueData(frame: Frame) returns (ok: bool)
      requires Valid()
      modifies this`acceptedData, dataQ, dataQ.items
      ensures Valid() && ok == old(State()).data.Accepts(frame)
      ensures State() == Step(old(State()), Action.QueueData(frame))
    {
      hide Encoding, EncodeError, PayloadBytes, EncodeAll, MergedFor, Counted, Window, FrameQueue.InWindow;
      ghost var s := State();
      ok := dataQ.Push(frame);
      if ok {
        acceptedData := acceptedData + [frame];
      }
      StepInv(s, Action.QueueData(frame));
    }

    /** heartbeatLoop, on a tick: draw a number and build the PING. */
    method BuildPing()
      requires Valid() && heartbeat.Resting?
      modifies this`heartbeat, this`nextSeq, this`allocations
      ensures Valid() && State() == Step(old(State()), Tick)
    {
      hide Encoding, EncodeError, PayloadBytes, EncodeAll, MergedFor, Counted, Window, FrameQueue.InWindow;
      ghost var s := State();
      nextSeq := (nextSeq + 1) % TWO_32;
      allocations := allocations + 1;
      heartbeat := Holding(PingFrame(id, nextSeq));
      StepInv(s, Tick);
    }

    /** heartbeatLoop: queue the PING; a full queue ends the loop. */
    method QueuePing() returns (ok: bool)
      requires Valid() && heartbeat.Holding?
      modifies this`heartbeat, this`acceptedControl, controlQ, controlQ.items
      ensures Valid() && State() == Step(old(State()), PushPing)
      ensures ok <==> heartbeat.Resting?
    {
      hide Encoding, EncodeError, PayloadBytes, EncodeAll, MergedFor, Counted, Window, FrameQueue.InWindow;
      ghost var s := State();
      var ping := heartbeat.ping;
      ok := controlQ.Push(ping);
      if ok {
        acceptedControl := acceptedControl + [ping];
        heartbeat := Resting;
      } else {
        heartbeat := Stopped;
      }
      StepInv(s, PushPing);
    }

    /** writeLoop: look at the context and at `closed`. */
    method CheckClosed(cancelled: bool)
      requires Valid() && writer.Top?
      modifies this`writer
      ensures Valid() && State() == Step(old(State()), Check(cancelled))
    {
      hide Encoding, EncodeError, PayloadBytes, EncodeAll, MergedFor, Counted, Window, FrameQueue.InWindow;
      ghost var s := State();
      writer := if cancelled || closed then Returned else Polling;
      StepInv(s, Check(cancelled));
    }

    method PopControl()
      requires Valid() && writer.Polling?
      modifies this`writer, controlQ, controlQ.items
      ensures Valid() && State() == Step(old(State()), PollControl)
    {
      hide Encoding, EncodeError, PayloadBytes, EncodeAll, MergedFor, Counted, Window, FrameQueue.InWindow;
      ghost var s := State();
      var frame, ok := controlQ.Pop();
      writer := if ok then Popped(Control, frame) else ControlEmpty;
      StepInv(s, PollControl);
    }

    method PopData()
      requires Valid() && writer.ControlEmpty?
      modifies this`writer, dataQ, dataQ.items
      ensures Valid() && State() == Step(old(State()), PollData)
    {
      hide Encoding, EncodeError, PayloadBytes, EncodeAll, MergedFor, Counted, Window, FrameQueue.InWindow;
      ghost var s := State();
      var frame, ok := dataQ.Pop();
      writer := if ok then Popped(Data, frame) else Top;
      StepInv(s, PollData);
    }

    /** writeFrame, first half: fill in the session id and draw a number if the frame needs one. */
    method StampPopped()
      requires Valid() && writer.Popped?
      modifies this`writer, this`nextSeq, this`allocations
      ensures Valid() && State() == Step(old(State()), Stamp)
    {
      hide Encoding, EncodeError, PayloadBytes, EncodeAll, MergedFor, Counted, Window, FrameQueue.InWindow;
      ghost var s := State();
      var frame := writer.original;
      if frame.sessionID == 0 {
        frame := frame.(sessionID := id);
      }
      if frame.seqNo == 0 && frame.kind != PING && frame.kind != PONG {
        nextSeq := (nextSeq + 1) % TWO_32;
        allocations := allocations + 1;
        frame := frame.(seqNo := nextSeq);
      }
      writer := Stamped(writer.origin, writer.original, frame);
      StepInv(s, Stamp);
    }

    /** writeFrame, second half: encode onto the stream and count. */
    method WriteStamped() returns (err: Option<CodecError>)
      requires Valid() && writer.Stamped?
      modifies this`writer, this`framesOut, this`bytesOut, this`wire, sink
      ensures Valid() && State() == Step(old(State()), Write(old(sink.room)))
      ensures err.None? <==> writer.Top?
    {
      hide Encoding, EncodeError, PayloadBytes, EncodeAll, MergedFor, Counted, Window, FrameQueue.InWindow;
      ghost var s, room := State(), sink.room;
      StepInv(s, Write(room));
      WriteAddsEncoding(s, room);
      var w, before := writer, |sink.log|;
      err := FrameCodec.Encode(w.stamped, sink);
      if err.Some? {
        writer := Broken(w.origin, w.original, sink.log[before..]);
      } else {
        framesOut := framesOut + 1;
        bytesOut := bytesOut + |w.stamped.payload|;
        wire := wire + [Sent(w.origin, w.original, w.stamped)];
        writer := Top;
      }
    }

    /** Only the first call has an effect, so its error is the one that is kept. */
    method CloseSession(err: Option<string>)
      requires Valid()
      modifies this`closed, this`lastErr
      ensures Valid() && State() == Step(old(State()), Close)
      ensures lastErr == if old(closed) then old(lastErr) else err
    {
      hide Encoding, EncodeError, PayloadBytes, EncodeAll, MergedFor, Counted, Window, FrameQueue.InWindow;
      ghost var s := State();
      if !closed {
        lastErr := err;
        closed := true;
      }
      StepInv(s, Close);
    }
  }
}

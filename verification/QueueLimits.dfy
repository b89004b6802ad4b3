/** How much the two queues of a session can hold together.  Each queue has the whole session limit to itself. */
module QueueLimits {
  import opened Bytes
  import opened FrameCodec
  import opened FrameQueues
  import opened SessionSystem
  import opened Overtaking

  /** Producers queue only frames the encoder can take. */
  predicate Sendable(acts: seq<Action>) {
    forall i :: 0 <= i < |acts| ==> SendableAction(acts[i])
  }

  predicate SendableAction(a: Action) {
    (a.QueueControl? || a.QueueData?) ==> |a.frame.payload| <= MAX_PAYLOAD_LEN
  }

  /** A run ends with c payload bytes in the control queue and d in the data queue. */
  ghost predicate Reaches(id: uint32, acts: seq<Action>, c: nat, d: nat) {
    var s := Run(NewSession(id), acts);
    PayloadBytes(s.control.items) == c && PayloadBytes(s.data.items) == d
  }

  function QueueTo(o: Origin, f: Frame): Action {
    if o == Control then QueueControl(f) else QueueData(f)
  }

  function FifoOf(s: Session, o: Origin): Fifo {
    if o == Control then s.control else s.data
  }

  function Filler(o: Origin, n: nat): (f: Frame)
    ensures |f.payload| == n
  {
    ZERO_FRAME.(kind := if o == Control then SETTINGS else TCPDATA, payload := seq(n, _ => 0))
  }

  /** A queue can be filled with any number of bytes its limits allow, in frames of at most `unit` bytes. */
  lemma {:induction false} Fill(s: Session, o: Origin, bytes: nat, slots: nat, unit: nat) returns (acts: seq<Action>)
    requires bytes <= slots * unit && |FifoOf(s, o).items| + slots <= FifoOf(s, o).capacity
    requires PayloadBytes(FifoOf(s, o).items) + bytes <= FifoOf(s, o).maxBytes
    ensures var t := Run(s, acts);
            && PayloadBytes(FifoOf(t, o).items) == PayloadBytes(FifoOf(s, o).items) + bytes
            && (o == Control ==> t.data == s.data) && (o == Data ==> t.control == s.control)
    ensures forall i :: 0 <= i < |acts| ==>
              (acts[i].QueueControl? || acts[i].QueueData?) && |acts[i].frame.payload| <= unit
    decreases slots
  {
    acts := [];
    if slots > 0 {
      var chunk := Min(bytes, unit);
      var f := Filler(o, chunk);
      var t := Step(s, QueueTo(o, f));
      PayloadBytesAppend(FifoOf(s, o).items, [f]);
      PayloadBytesOne(f);
      assert FifoOf(t, o).items == FifoOf(s, o).items + [f];
      assert bytes - chunk <= (slots - 1) * unit;
      acts := Fill(t, o, bytes - chunk, slots - 1, unit);
      acts := [QueueTo(o, f)] + acts;
    }
  }

  lemma FillBoth(id: uint32, c: nat, d: nat, unit: nat) returns (acts: seq<Action>)
    requires c <= CONTROL_CAPACITY * unit && d <= DATA_CAPACITY * unit
    requires c <= MAX_QUEUED_BYTES_SESSION && d <= MAX_QUEUED_BYTES_SESSION
    ensures Reaches(id, acts, c, d)
    ensures forall i :: 0 <= i < |acts| ==>
              (acts[i].QueueControl? || acts[i].QueueData?) && |acts[i].frame.payload| <= unit
  {
    var s := NewSession(id);
    var first := Fill(s, Control, c, CONTROL_CAPACITY, unit);
    var t := Run(s, first);
    var second := Fill(t, Data, d, DATA_CAPACITY, unit);
    RunAppend(s, first, second);
    acts := first + second;
  }

  lemma TotalsBounded(id: uint32, acts: seq<Action>)
    ensures var s := Run(NewSession(id), acts);
            && PayloadBytes(s.control.items) <= MAX_QUEUED_BYTES_SESSION
            && PayloadBytes(s.data.items) <= MAX_QUEUED_BYTES_SESSION
            && |s.control.items| <= CONTROL_CAPACITY
  {
    InitInv(id);
    RunInv(NewSession(id), acts);
  }

  /** With frames of any size, the queues can hold any two totals that are each within the session limit, so twice
      the limit together and no more. */
  lemma QueueTotals(id: uint32, c: nat, d: nat)
    ensures (exists acts :: Reaches(id, acts, c, d))
            <==> c <= MAX_QUEUED_BYTES_SESSION && d <= MAX_QUEUED_BYTES_SESSION
  {
    hide Run;
    if exists acts :: Reaches(id, acts, c, d) {
      var acts :| Reaches(id, acts, c, d);
      TotalsBounded(id, acts);
    }
    if c <= MAX_QUEUED_BYTES_SESSION && d <= MAX_QUEUED_BYTES_SESSION {
      var acts := FillBoth(id, c, d, MAX_QUEUED_BYTES_SESSION);
    }
  }

  // ---- Frames that can be sent ----

  ghost predicate AllSmall(fs: seq<Frame>) {
    forall i :: 0 <= i < |fs| ==> |fs[i].payload| <= MAX_PAYLOAD_LEN
  }

  lemma {:induction false} SmallTotal(fs: seq<Frame>)
    requires AllSmall(fs)
    ensures PayloadBytes(fs) <= |fs| * MAX_PAYLOAD_LEN
  {
    if fs != [] {
      SmallTotal(fs[1..]);
    }
  }

  ghost predicate SmallControl(s: Session) {
    AllSmall(s.control.items) && (s.heartbeat.Holding? ==> s.heartbeat.ping.payload == [])
  }

  lemma StepSmall(s: Session, a: Action)
    requires SmallControl(s) && SendableAction(a)
    ensures SmallControl(Step(s, a))
  {
    hide Encoding, EncodeError, PayloadBytes, StampFrame;
  }

  lemma {:induction false} RunSmall(s: Session, acts: seq<Action>)
    requires SmallControl(s) && Sendable(acts)
    ensures SmallControl(Run(s, acts))
    decreases |acts|
  {
    if acts != [] {
      StepSmall(s, acts[0]);
      RunSmall(Step(s, acts[0]), acts[1..]);
    }
  }

  /** With frames that can be sent, the 256 slots of the control queue hold at most half the session limit, and
      that is the only further restriction: together the queues can hold one and a half times the limit. */
  lemma SendableQueueTotals(id: uint32, c: nat, d: nat)
    ensures (exists acts :: Sendable(acts) && Reaches(id, acts, c, d))
            <==> c <= CONTROL_CAPACITY * MAX_PAYLOAD_LEN && d <= MAX_QUEUED_BYTES_SESSION
    ensures 2 * CONTROL_CAPACITY * MAX_PAYLOAD_LEN == MAX_QUEUED_BYTES_SESSION
  {
    hide Run;
    if exists acts :: Sendable(acts) && Reaches(id, acts, c, d) {
      var acts :| Sendable(acts) && Reaches(id, acts, c, d);
      TotalsBounded(id, acts);
      RunSmall(NewSession(id), acts);
      SmallTotal(Run(NewSession(id), acts).control.items);
    }
    if c <= CONTROL_CAPACITY * MAX_PAYLOAD_LEN && d <= MAX_QUEUED_BYTES_SESSION {
      var acts := FillBoth(id, c, d, MAX_PAYLOAD_LEN);
      assert Sendable(acts);
    }
  }
}

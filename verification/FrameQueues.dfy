/** The bounded frame queue: an abstract FIFO with a slot and a byte limit, and the ring buffer that
    implements it. */
module FrameQueues {
  import opened FrameCodec

  function PayloadBytes(fs: seq<Frame>): (n: nat) {
    if fs == [] then 0 else |fs[0].payload| + PayloadBytes(fs[1..])
  }

  lemma {:induction false} PayloadBytesAppend(fs: seq<Frame>, gs: seq<Frame>)
    ensures PayloadBytes(fs + gs) == PayloadBytes(fs) + PayloadBytes(gs)
  {
    if fs == [] {
      assert fs + gs == gs;
    } else {
      assert (fs + gs)[1..] == fs[1..] + gs;
      PayloadBytesAppend(fs[1..], gs);
    }
  }

  /** A FIFO that holds at most `capacity` frames and `maxBytes` payload bytes. */
  datatype Fifo = Fifo(items: seq<Frame>, capacity: nat, maxBytes: int) {
    predicate Accepts(f: Frame) {
      PayloadBytes(items) + |f.payload| <= maxBytes && |items| != capacity
    }

    /** A push appends, or is refused and changes nothing. */
    function Push(f: Frame): (q: Fifo) {
      if Accepts(f) then this.(items := items + [f]) else this
    }

    /** A pop removes the oldest frame, if there is one. */
    function Pop(): (q: Fifo) {
      if items == [] then this else this.(items := items[1..])
    }

    ghost predicate Bounded() {
      |items| <= capacity && (items == [] || PayloadBytes(items) <= maxBytes)
    }
  }

  /** Neither limit is ever exceeded. */
  lemma FifoStaysBounded(q: Fifo, f: Frame)
    requires q.Bounded()
    ensures q.Push(f).Bounded() && q.Pop().Bounded()
    ensures |q.Push(f).items| == |q.items| + 1 <==> q.Accepts(f)
  {
    PayloadBytesAppend(q.items, [f]);
    if q.items != [] {
      assert PayloadBytes(q.items) == |q.items[0].payload| + PayloadBytes(q.items[1..]);
    }
  }

  datatype QueueOp = DoPush(frame: Frame) | DoPop

  /** A queue together with the frames it has accepted and the frames it has handed out. */
  datatype QueueRun = QueueRun(queue: Fifo, accepted: seq<Frame>, popped: seq<Frame>)

  function Operate(r: QueueRun, op: QueueOp): QueueRun {
    match op
    case DoPush(f) => QueueRun(r.queue.Push(f), if r.queue.Accepts(f) then r.accepted + [f] else r.accepted, r.popped)
    case DoPop =>
      QueueRun(r.queue.Pop(), r.accepted, if r.queue.items == [] then r.popped else r.popped + [r.queue.items[0]])
  }

  function OperateAll(r: QueueRun, ops: seq<QueueOp>): QueueRun
    decreases |ops|
  {
    if ops == [] then r else OperateAll(Operate(r, ops[0]), ops[1..])
  }

  /** Over every run of pushes and pops, frames come out in the order in which they were accepted, those
      accepted and not yet out are exactly the contents, and neither limit is exceeded. */
  lemma {:induction false} QueueRunIsFifo(r: QueueRun, ops: seq<QueueOp>)
    requires r.accepted == r.popped + r.queue.items && r.queue.Bounded()
    ensures var t := OperateAll(r, ops);
            t.accepted == t.popped + t.queue.items && t.queue.Bounded()
    decreases |ops|
  {
    hide PayloadBytes, Fifo.Accepts, Fifo.Bounded;
    if ops != [] {
      var s := Operate(r, ops[0]);
      FifoStaysBounded(r.queue, if ops[0].DoPush? then ops[0].frame else ZERO_FRAME);
      if ops[0].DoPop? && r.queue.items != [] {
        assert r.queue.items == [r.queue.items[0]] + s.queue.items;
      }
      assert s.accepted == s.popped + s.queue.items;
      QueueRunIsFifo(s, ops[1..]);
    }
  }

  /** The part of a ring that starts at `head`, holds `count` slots and may wrap around, oldest first. */
  ghost function Window(ring: seq<Frame>, head: nat, count: nat): (s: seq<Frame>)
    requires count <= |ring| && head <= |ring|
    ensures |s| == count
  {
    if head + count <= |ring| then ring[head..head + count]
    else ring[head..] + ring[..head + count - |ring|]
  }

  lemma WrapOnce(a: nat, n: nat)
    requires 0 < n && a < 2 * n
    ensures a % n == if a < n then a else a - n
  {
    var q, r := a / n, a % n;
    assert a == q * n + r;
    assert q >= 2 ==> q * n >= 2 * n;
    assert q == 1 ==> q * n == n;
    assert q == 0 ==> q * n == 0;
  }

  function RingIndex(head: nat, step: nat, n: nat): (i: nat)
    requires head < n && step <= n
    ensures i == if head + step < n then head + step else head + step - n
  {
    WrapOnce(head + step, n);
    (head + step) % n
  }

  lemma WindowPush(ring: seq<Frame>, head: nat, count: nat, f: Frame)
    requires head < |ring| && count < |ring|
    ensures Window(ring[RingIndex(head, count, |ring|) := f], head, count + 1) == Window(ring, head, count) + [f]
  {
  }

  lemma WindowPop(ring: seq<Frame>, head: nat, count: nat)
    requires head < |ring| && 0 < count <= |ring|
    ensures ring[head] == Window(ring, head, count)[0]
    ensures Window(ring[head := ZERO_FRAME], RingIndex(head, 1, |ring|), count - 1) == Window(ring, head, count)[1..]
  {
  }

  /** FrameQueue: a ring of slots with a head, a count and a running byte total. */
  class FrameQueue {
    const items: array<Frame>
    var head: nat
    var count: nat
    var queuedByte: int
    const maxBytes: int

    ghost function Contents(): (s: seq<Frame>)
      reads this, items
      requires Indexed()
    {
      Window(items[..], head, count)
    }

    ghost predicate Indexed()
      reads this
    {
      count <= items.Length && (head < items.Length || head == items.Length == 0)
    }

    ghost predicate Valid()
      reads this, items
    {
      && Indexed()
      && queuedByte == PayloadBytes(Contents())
      && (count == 0 || queuedByte <= maxBytes)
      && (forall j :: 0 <= j < items.Length && !InWindow(j) ==> items[j] == ZERO_FRAME)
    }

    ghost predicate InWindow(j: int)
      reads this
    {
      head <= j < head + count || j < head + count - items.Length
    }

    ghost function Abstract(): (q: Fifo)
      reads this, items
      requires Indexed()
      ensures |q.items| == count
    {
      Fifo(Contents(), items.Length, maxBytes)
    }

    constructor (capacity: nat, maxBytes: int)
      ensures Valid() && fresh(items)
      ensures Abstract() == Fifo([], capacity, maxBytes)
    {
      items := new Frame[capacity](_ => ZERO_FRAME);
      head := 0;
      count := 0;
      queuedByte := 0;
      this.maxBytes := maxBytes;
    }

    method Push(frame: Frame) returns (ok: bool)
      requires Valid()
      modifies this, items
      ensures Valid()
      ensures ok == old(Abstract().Accepts(frame))
      ensures Abstract() == old(Abstract()).Push(frame)
      ensures !ok ==> unchanged(this) && unchanged(items)
    {
      var nextBytes := queuedByte + |frame.payload|;
      if nextBytes > maxBytes || count == items.Length {
        return false;
      }
      ghost var before := Contents();
      WindowPush(items[..], head, count, frame);
      var idx := RingIndex(head, count, items.Length);
      items[idx] := frame;
      count := count + 1;
      queuedByte := nextBytes;
      assert Contents() == before + [frame];
      PayloadBytesAppend(before, [frame]);
      ok := true;
    }

    method Pop() returns (item: Frame, ok: bool)
      requires Valid()
      modifies this, items
      ensures Valid()
      ensures ok == (old(Contents()) != [])
      ensures item == if ok then old(Contents())[0] else ZERO_FRAME
      ensures Abstract() == old(Abstract()).Pop()
      ensures !ok ==> unchanged(this) && unchanged(items)
    {
      if count == 0 {
        return ZERO_FRAME, false;
      }
      ghost var before := Contents();
      WindowPop(items[..], head, count);
      item := items[head];
      items[head] := ZERO_FRAME;
      head := RingIndex(head, 1, items.Length);
      count := count - 1;
      queuedByte := queuedByte - |item.payload|;
      assert Contents() == before[1..];
      assert PayloadBytes(before) == |before[0].payload| + PayloadBytes(before[1..]);
      ok := true;
    }

    method Len() returns (n: nat)
      requires Valid()
      ensures n == |Contents()|
    {
      n := count;
    }

    method QueuedBytes() returns (n: int)
      requires Valid()
      ensures n == PayloadBytes(Contents()) && (n == 0 || n <= maxBytes)
    {
      n := queuedByte;
    }
  }
}

/** Whole runs of reassembly, and the UDP path from data through datagrams, frames and the byte stream
    back to data. */
module UdpStack {
  import opened Bytes
  import opened Messages
  import opened Reassembly
  import opened FrameCodec

  /** Feeding datagrams to a reassembler one after the other. */
  function AddAll(t: Table, ds: seq<Datagram>): (Table, seq<AddResult>)
    decreases |ds|
  {
    if ds == [] then (t, [])
    else
      var (u, r) := Add(t, ds[0]);
      var (v, rs) := AddAll(u, ds[1..]);
      (v, [r] + rs)
  }

  /** A fragment of the datagram sent under `id` that arrives, possibly not for the first time. */
  datatype Arrival = Arrival(id: uint32, deadline: uint16, index: nat)

  ghost predicate Genuine(family: Family, arrivals: seq<Arrival>) {
    forall k :: 0 <= k < |arrivals| ==>
      arrivals[k].id in family && arrivals[k].index < FragCount(|family[arrivals[k].id]|)
  }

  ghost function Arriving(family: Family, arrivals: seq<Arrival>): (ds: seq<Datagram>)
    requires Genuine(family, arrivals)
    ensures |ds| == |arrivals|
  {
    seq(|arrivals|, k requires 0 <= k < |arrivals| =>
      Fragment(family[arrivals[k].id], arrivals[k].id, arrivals[k].deadline, arrivals[k].index))
  }

  ghost function ArriveAll(family: Family, seen: Seen, arrivals: seq<Arrival>): (Seen, seq<AddResult>)
    requires Genuine(family, arrivals)
    decreases |arrivals|
  {
    if arrivals == [] then (seen, [])
    else
      var (next, r) := Arrive(family, seen, arrivals[0].id, arrivals[0].index);
      var (last, rs) := ArriveAll(family, next, arrivals[1..]);
      (last, [r] + rs)
  }

  /** For any interleaving and duplication of the fragments of any number of datagrams with distinct
      ids, the reassembler's table and every result it returns are those of the intended meaning. */
  lemma {:induction false} InterleavedReassembly(family: Family, seen: Seen, arrivals: seq<Arrival>)
    requires SeenOk(family, seen) && Genuine(family, arrivals)
    ensures var (last, rs) := ArriveAll(family, seen, arrivals);
            && SeenOk(family, last)
            && AddAll(TableOf(family, seen), Arriving(family, arrivals)) == (TableOf(family, last), rs)
    decreases |arrivals|
  {
    hide SeenOk, TableOf, Add, Fragment, Arrive;
    if arrivals != [] {
      var a := arrivals[0];
      var ds := Arriving(family, arrivals);
      AddRefinesArrive(family, seen, a.id, a.deadline, a.index);
      var (next, r) := Arrive(family, seen, a.id, a.index);
      assert ds[1..] == Arriving(family, arrivals[1..]);
      InterleavedReassembly(family, next, arrivals[1..]);
    }
  }

  // ---- One datagram, any order, over the wire ----

  function IndexSet(order: seq<nat>): set<nat> {
    set k | 0 <= k < |order| :: order[k]
  }

  /** A delivery order: every index occurs, and only the last arrival completes the set. */
  ghost predicate CompletingOrder(order: seq<nat>, n: nat) {
    && order != []
    && IndexSet(order) == Indices(n)
    && IndexSet(order[..|order| - 1]) != Indices(n)
  }

  function UdpFrames(channel: uint32, ds: seq<Datagram>): (fs: seq<Frame>)
    ensures |fs| == |ds| && forall k :: 0 <= k < |ds| ==> fs[k] == UdpDataFrame(channel, ds[k])
  {
    seq(|ds|, k requires 0 <= k < |ds| => UdpDataFrame(channel, ds[k]))
  }

  /** The receiving end: the datagrams in the frames a read loop decodes from a stream. */
  function Received(fs: seq<Frame>): (ds: seq<Datagram>)
    requires forall k :: 0 <= k < |fs| ==> |fs[k].payload| >= 16
  {
    seq(|fs|, k requires 0 <= k < |fs| => DecodeDatagram(fs[k].payload).value)
  }

  ghost function InOrder(data: seq<byte>, id: uint32, deadline: uint16, order: seq<nat>): (ds: seq<Datagram>)
    requires forall k :: 0 <= k < |order| ==> order[k] < FragCount(|data|)
    ensures |ds| == |order|
  {
    seq(|order|, k requires 0 <= k < |order| => Fragment(data, id, deadline, order[k]))
  }

  /** Every fragment fits a frame, and frames of fragments survive the byte stream. */
  lemma FragmentsSurviveWire(channel: uint32, ds: seq<Datagram>)
    requires forall k :: 0 <= k < |ds| ==> |ds[k].data| <= CHUNK
    ensures AllDecodable(UdpFrames(channel, ds))
    ensures var fs := DecodeAll(EncodeAll(UdpFrames(channel, ds)));
            && (forall k :: 0 <= k < |fs| ==> 16 <= |fs[k].payload| <= MAX_PAYLOAD_LEN)
            && Received(fs) == ds
  {
    hide EncodeAll, DecodeAll, Encoding, Decode, EncodeDatagram, DecodeDatagram;
    var frames := UdpFrames(channel, ds);
    DecodeStream(frames, []);
    assert EncodeAll(frames) + [] == EncodeAll(frames);
    var fs := DecodeAll(EncodeAll(frames));
    forall k | 0 <= k < |fs|
      ensures DecodeDatagram(fs[k].payload) == Success(ds[k])
    {
      DatagramRoundTrip(ds[k]);
    }
  }

  function Repeat(r: AddResult, n: nat): seq<AddResult> {
    seq(n, _ => r)
  }

  /** What has been seen of one datagram after the fragments of `done`, as long as some are missing. */
  ghost function SeenAfter(id: uint32, done: seq<nat>): Seen {
    if done == [] then map[] else map[id := IndexSet(done)]
  }

  function ArrivalsOf(id: uint32, deadline: uint16, order: seq<nat>): (a: seq<Arrival>)
    ensures |a| == |order|
  {
    seq(|order|, k requires 0 <= k < |order| => Arrival(id, deadline, order[k]))
  }

  lemma ArriveOnce(data: seq<byte>, id: uint32, done: seq<nat>, i: nat)
    ensures var (next, r) := Arrive(map[id := data], SeenAfter(id, done), id, i);
            if IndexSet(done + [i]) == Indices(FragCount(|data|)) then r == Complete(data)
            else r == Pending && next == SeenAfter(id, done + [i])
  {
    hide FragCount, Indices;
    IndexSetSnoc(done, i);
    assert IndexSet([]) == {};
    assert Arrived(SeenAfter(id, done), id) == IndexSet(done);
  }

  lemma {:induction false} ArriveInOrder(data: seq<byte>, id: uint32, deadline: uint16, done: seq<nat>, order: seq<nat>)
    requires Sendable(data) && CompletingOrder(done + order, FragCount(|data|)) && order != []
    requires forall k :: 0 <= k < |order| ==> order[k] < FragCount(|data|)
    ensures ArriveAll(map[id := data], SeenAfter(id, done), ArrivalsOf(id, deadline, order)).1
            == Repeat(Pending, |order| - 1) + [Complete(data)]
    decreases |order|
  {
    hide FragCount, Indices, IndexSet, Arrive, SeenAfter;
    var arrivals := ArrivalsOf(id, deadline, order);
    var (next, r) := Arrive(map[id := data], SeenAfter(id, done), id, order[0]);
    var grown := done + [order[0]];
    ArriveOnce(data, id, done, order[0]);
    assert done + order == grown + order[1..];
    assert arrivals[0] == Arrival(id, deadline, order[0]);
    assert arrivals[1..] == ArrivalsOf(id, deadline, order[1..]);
    if |order| == 1 {
      assert done + order == grown;
      assert ArriveAll(map[id := data], next, arrivals[1..]).1 == [];
    } else {
      IndexSetPrefix(done + order, |grown|);
      assert (done + order)[..|grown|] == grown;
      ArriveInOrder(data, id, deadline, grown, order[1..]);
      assert Repeat(Pending, |order| - 1) == [Pending] + Repeat(Pending, |order| - 2);
    }
  }

  lemma IndexSetSnoc(order: seq<nat>, i: nat)
    ensures IndexSet(order + [i]) == IndexSet(order) + {i}
  {
    var all := order + [i];
    assert all[|order|] == i;
    forall x | x in IndexSet(order)
      ensures x in IndexSet(all)
    {
      var k :| 0 <= k < |order| && order[k] == x;
      assert all[k] == x;
    }
  }

  /** A proper prefix of a completing order is not yet complete. */
  lemma IndexSetPrefix(order: seq<nat>, m: nat)
    requires m < |order|
    ensures IndexSet(order[..m]) <= IndexSet(order[..|order| - 1]) <= IndexSet(order)
  {
    var most := order[..|order| - 1];
    forall x | x in IndexSet(order[..m])
      ensures x in IndexSet(most)
    {
      var k :| 0 <= k < m && order[..m][k] == x;
      assert most[k] == x;
    }
    forall x | x in IndexSet(most)
      ensures x in IndexSet(order)
    {
      var k :| 0 <= k < |most| && most[k] == x;
      assert order[k] == x;
    }
  }

  /** The full stack: fragments of up to 65535 * 16368 bytes of data, encoded as datagrams, framed,
      concatenated into one byte stream in any order and with any repetitions, then decoded and
      reassembled, give nothing until the last missing fragment arrives and then exactly the data. */
  lemma FullStackRoundTrip(data: seq<byte>, id: uint32, deadline: uint16, channel: uint32, order: seq<nat>)
    requires 0 < |data| <= MAX_FRAGMENTS * CHUNK
    requires CompletingOrder(order, FragCount(|data|))
    ensures (forall k :: 0 <= k < |order| ==> order[k] < FragCount(|data|))
    ensures var ds := InOrder(data, id, deadline, order);
            && AllDecodable(UdpFrames(channel, ds))
            && var fs := DecodeAll(EncodeAll(UdpFrames(channel, ds)));
            && (forall k :: 0 <= k < |fs| ==> 16 <= |fs[k].payload| <= MAX_PAYLOAD_LEN)
            && AddAll(Table(map[], map[]), Received(fs)).1 == Repeat(Pending, |order| - 1) + [Complete(data)]
  {
    hide EncodeAll, DecodeAll, Encoding, Decode, Add, Indices;
    forall k | 0 <= k < |order|
      ensures order[k] < FragCount(|data|)
    {
      assert order[k] in IndexSet(order);
    }
    SendableSize(data);
    var ds := InOrder(data, id, deadline, order);
    FragmentsSurviveWire(channel, ds);
    var family: Family := map[id := data];
    var arrivals := ArrivalsOf(id, deadline, order);
    assert Arriving(family, arrivals) == ds;
    assert TableOf(family, map[]) == Table(map[], map[]);
    InterleavedReassembly(family, map[], arrivals);
    assert [] + order == order;
    ArriveInOrder(data, id, deadline, [], order);
    assert SeenAfter(id, []) == map[];
  }

  lemma SendableSize(data: seq<byte>)
    requires 0 < |data|
    ensures Sendable(data) <==> |data| <= MAX_FRAGMENTS * CHUNK
  {
    var n := FragCount(|data|);
    if n > MAX_FRAGMENTS {
      assert MAX_FRAGMENTS * CHUNK <= (n - 1) * CHUNK;
    } else {
      assert n * CHUNK <= MAX_FRAGMENTS * CHUNK;
    }
  }

  /** What the receiver finds in every datagram of a non-empty datagram's fragments, in whatever order and however often
      they are sent through codecs and stream: the id, no sending time, the deadline, the index and the count of
      fragments and the length of the data, these three modulo 2^16, and consecutive pieces of 16368 bytes, of which the
      last may be shorter. */
  lemma FragmentsCarry(data: seq<byte>, id: uint32, deadline: uint16, channel: uint32, order: seq<nat>, k: nat)
    requires data != [] && k < |order|
    requires forall i :: 0 <= i < |order| ==> order[i] * 16368 < |data|
    ensures forall i :: 0 <= i < |order| ==> order[i] < FragCount(|data|)
    ensures var fs := DecodeAll(EncodeAll(UdpFrames(channel, InOrder(data, id, deadline, order))));
            var i := order[k];
            && |fs| == |order| && fs[k].kind == 0x31 && fs[k].channelID == channel && |fs[k].payload| >= 16
            && var d := DecodeDatagram(fs[k].payload).value;
               && d.id == id && d.sentMS == 0 && d.deadlineMS == deadline
               && d.fragIndex == i % 0x1_0000 && d.fragCount == ((|data| + 16367) / 16368) % 0x1_0000
               && d.totalLen == |data| % 0x1_0000
               && d.data == data[i * 16368..Min((i + 1) * 16368, |data|)]
    ensures |Fragments(data, id, deadline)| == (|data| + 16367) / 16368
    ensures forall i :: 0 <= i < |Fragments(data, id, deadline)| ==>
              i * 16368 < |data| && Fragments(data, id, deadline)[i] == Fragment(data, id, deadline, i)
  {
    hide EncodeAll, DecodeAll, Encoding, Decode, EncodeDatagram, DecodeDatagram;
    forall i: nat
      ensures i * 16368 < |data| <==> i < FragCount(|data|)
    {
      PieceInRange(|data|, i);
    }
    assert forall i :: 0 <= i < |order| ==> order[i] < FragCount(|data|);
    var ds := InOrder(data, id, deadline, order);
    FragmentsSurviveWire(channel, ds);
    var frames := UdpFrames(channel, ds);
    DecodeStream(frames, []);
    assert EncodeAll(frames) + [] == EncodeAll(frames);
    DatagramRoundTrip(ds[k]);
    assert DecodeAll(EncodeAll(frames))[k] == Normalise(frames[k]);
  }

  lemma PieceInRange(n: nat, i: nat)
    requires n > 0
    ensures i * 16368 < n <==> i < FragCount(n)
  {
    var c := FragCount(n);
    if i < c {
      assert i * CHUNK <= (c - 1) * CHUNK;
    } else {
      assert c * CHUNK <= i * CHUNK;
    }
  }

  /** Empty data travels as one datagram, without a deadline, that completes at once. */
  lemma EmptyDataRoundTrip(t: Table, id: uint32, deadline: uint16)
    ensures Fragments([], id, deadline) == [Datagram(id, 0, 0, 0, 1, 0, [])]
    ensures Add(t, Fragments([], id, deadline)[0]) == (t, Complete([]))
  {
  }

  // ---- Beyond the limit ----

  ghost predicate ShortSlots(t: Table) {
    && TableInv(t)
    && forall id, k :: id in t.fragments && 0 <= k < |t.fragments[id]| && t.fragments[id][k].Some? ==>
         |t.fragments[id][k].value| <= CHUNK
  }

  lemma {:induction false} JoinedSize(slots: seq<Slot>)
    requires forall k :: 0 <= k < |slots| && slots[k].Some? ==> |slots[k].value| <= CHUNK
    ensures |Joined(slots)| <= |slots| * CHUNK
  {
    if slots != [] {
      var n := |slots| - 1;
      JoinedSize(slots[..n]);
      assert (n + 1) * CHUNK == n * CHUNK + CHUNK;
    }
  }

  lemma AddShort(t: Table, d: Datagram)
    requires ShortSlots(t) && |d.data| <= CHUNK
    ensures ShortSlots(Add(t, d).0)
    ensures Add(t, d).1.Complete? ==> |Add(t, d).1.data| <= MAX_FRAGMENTS * CHUNK
  {
    hide Full, Joined;
    AddKeepsTable(t, d);
    if d.fragCount >= 2 {
      var u := Started(t, d);
      if d.fragIndex < |u.fragments[d.id]| {
        var filled := u.fragments[d.id][d.fragIndex := SlotFor(d.data)];
        JoinedSize(filled);
        assert |filled| * CHUNK <= MAX_FRAGMENTS * CHUNK;
      }
    }
  }

  /** No run of reassembly over chunk-sized datagrams ever yields more than 65535 * 16368 bytes. */
  lemma {:induction false} ResultsAreShort(t: Table, ds: seq<Datagram>)
    requires ShortSlots(t) && forall k :: 0 <= k < |ds| ==> |ds[k].data| <= CHUNK
    ensures var rs := AddAll(t, ds).1;
            |rs| == |ds| && forall k :: 0 <= k < |rs| && rs[k].Complete? ==> |rs[k].data| <= MAX_FRAGMENTS * CHUNK
    decreases |ds|
  {
    hide Add;
    if ds != [] {
      AddShort(t, ds[0]);
      ResultsAreShort(Add(t, ds[0]).0, ds[1..]);
    }
  }

  /** The size limit is exact: beyond it the sixteen-bit fragment count loses information, and no
      sequence of the fragments, in whatever order and however often repeated, ever yields the data. */
  lemma NoRoundTripBeyondLimit(data: seq<byte>, id: uint32, deadline: uint16, order: seq<nat>)
    requires |data| > MAX_FRAGMENTS * CHUNK
    requires forall k :: 0 <= k < |order| ==> order[k] < FragCount(|data|)
    ensures Complete(data) !in AddAll(Table(map[], map[]), InOrder(data, id, deadline, order)).1
  {
    hide FragCount;
    ResultsAreShort(Table(map[], map[]), InOrder(data, id, deadline, order));
  }
}

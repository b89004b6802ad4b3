/** Fragmenting datagrams and putting the fragments together again. */
module Reassembly {
  import opened Bytes
  import opened Messages
  import FrameCodec

  /** An encoded fragment fills a frame exactly. */
  const CHUNK: nat := FrameCodec.MAX_PAYLOAD_LEN - 16
  const MAX_FRAGMENTS: nat := 65535

  // ---- Fragmenting ----

  function FragCount(n: nat): (c: nat)
    ensures n > 0 ==> (c - 1) * CHUNK < n <= c * CHUNK
    ensures n == 0 ==> c == 0
  {
    (n + CHUNK - 1) / CHUNK
  }

  function Chunk(data: seq<byte>, i: nat): (c: seq<byte>)
    requires i < FragCount(|data|)
    ensures 0 < |c| <= CHUNK
  {
    assert i * CHUNK <= (FragCount(|data|) - 1) * CHUNK < |data|;
    data[i * CHUNK..Min(i * CHUNK + CHUNK, |data|)]
  }

  /** The i-th datagram FragmentUDP makes; index, count and length are narrowed to sixteen bits. */
  function Fragment(data: seq<byte>, id: uint32, deadline: uint16, i: nat): Datagram
    requires i < FragCount(|data|)
  {
    Datagram(id, 0, deadline, Low16(i), Low16(FragCount(|data|)), Low16(|data|), Chunk(data, i))
  }

  function Fragments(data: seq<byte>, id: uint32, deadline: uint16): seq<Datagram> {
    if data == [] then [Datagram(id, 0, 0, 0, 1, 0, [])]
    else seq(FragCount(|data|), i requires 0 <= i < FragCount(|data|) => Fragment(data, id, deadline, i))
  }

  method FragmentUDP(data: seq<byte>, id: uint32, deadline: uint16) returns (out: seq<Datagram>)
    ensures out == Fragments(data, id, deadline)
  {
    if |data| == 0 {
      return [Datagram(id, 0, 0, 0, 1, 0, [])];
    }
    var fragCount := (|data| + CHUNK - 1) / CHUNK;
    out := [];
    var i := 0;
    while i < fragCount
      invariant 0 <= i <= fragCount == FragCount(|data|)
      invariant |out| == i && forall j :: 0 <= j < i ==> out[j] == Fragment(data, id, deadline, j)
    {
      var start := i * CHUNK;
      var end := start + CHUNK;
      if end > |data| {
        end := |data|;
      }
      var chunk := Chunk(data, i);
      assert chunk == data[start..end];
      out := out + [Datagram(id, 0, deadline, Low16(i), Low16(fragCount), Low16(|data|), chunk)];
      i := i + 1;
    }
  }

  // ---- The reassembly table ----

  /** What a slot holds.  Go copies a fragment with append to a nil slice, so an empty fragment leaves
      nil behind: the slot counts as missing, even if it was filled before. */
  type Slot = Option<seq<byte>>

  function SlotFor(data: seq<byte>): Slot {
    if data == [] then None else Some(data)
  }

  datatype Table = Table(fragments: map<uint32, seq<Slot>>, expected: map<uint32, uint16>)

  datatype AddResult = Refused | Pending | Complete(data: seq<byte>)

  predicate Full(slots: seq<Slot>) {
    forall k :: 0 <= k < |slots| ==> slots[k].Some?
  }

  function Joined(slots: seq<Slot>): seq<byte> {
    if slots == [] then []
    else
      var last := slots[|slots| - 1];
      Joined(slots[..|slots| - 1]) + match last case Some(c) => c case None => []
  }

  function Started(t: Table, d: Datagram): Table {
    if d.id in t.fragments then t
    else Table(t.fragments[d.id := seq(d.fragCount, _ => None)], t.expected[d.id := d.fragCount])
  }

  function Without(t: Table, id: uint32): Table {
    Table(t.fragments - {id}, t.expected - {id})
  }

  function Add(t: Table, d: Datagram): (Table, AddResult) {
    if d.fragCount == 0 then (t, Refused)
    else if d.fragCount == 1 then (t, Complete(d.data))
    else
      var u := Started(t, d);
      var slots := u.fragments[d.id];
      if d.fragIndex >= |slots| then (u, Refused)
      else
        var filled := slots[d.fragIndex := SlotFor(d.data)];
        if Full(filled) then (Without(u, d.id), Complete(Joined(filled)))
        else (u.(fragments := u.fragments[d.id := filled]), Pending)
  }

  class Reassembler {
    var fragments: map<uint32, seq<Slot>>
    var expected: map<uint32, uint16>

    function State(): Table
      reads this
    {
      Table(fragments, expected)
    }

    constructor ()
      ensures State() == Table(map[], map[])
    {
      fragments := map[];
      expected := map[];
    }

    method AddFragment(d: Datagram) returns (r: AddResult)
      modifies this
      ensures State() == Add(old(State()), d).0
      ensures r == Add(old(State()), d).1
    {
      if d.fragCount == 0 {
        return Refused;
      }
      if d.fragCount == 1 {
        return Complete(d.data);
      }
      if d.id !in fragments {
        fragments := fragments[d.id := seq(d.fragCount, _ => None)];
        expected := expected[d.id := d.fragCount];
      }
      if d.fragIndex >= |fragments[d.id]| {
        return Refused;
      }
      fragments := fragments[d.id := fragments[d.id][d.fragIndex := SlotFor(d.data)]];
      var slots := fragments[d.id];
      var full := AllPresent(slots);
      if !full {
        return Pending;
      }
      var out := JoinSlots(slots);
      fragments := fragments - {d.id};
      expected := expected - {d.id};
      r := Complete(out);
    }

    method AllPresent(slots: seq<Slot>) returns (full: bool)
      ensures full == Full(slots)
    {
      for k := 0 to |slots|
        invariant forall j :: 0 <= j < k ==> slots[j].Some?
      {
        if slots[k].None? {
          return false;
        }
      }
      full := true;
    }

    method JoinSlots(slots: seq<Slot>) returns (out: seq<byte>)
      requires Full(slots)
      ensures out == Joined(slots)
    {
      out := [];
      for k := 0 to |slots|
        invariant out == Joined(slots[..k])
      {
        assert slots[..k + 1][..k] == slots[..k];
        out := out + slots[k].value;
      }
      assert slots[..|slots|] == slots;
    }
  }

  // ---- What every Add keeps ----

  ghost predicate TableInv(t: Table) {
    && t.fragments.Keys == t.expected.Keys
    && forall id :: id in t.fragments ==> |t.fragments[id]| == t.expected[id] >= 2
  }

  /** For arbitrary datagrams: the two maps share their keys and each entry has as many slots as
      expected. */
  lemma AddKeepsTable(t: Table, d: Datagram)
    requires TableInv(t)
    ensures TableInv(Add(t, d).0)
  {
    hide Full, Joined, SlotFor;
    if d.fragCount >= 2 {
      var u := Started(t, d);
      assert TableInv(u);
      assert TableInv(Without(u, d.id));
    }
  }

  /** Only the entry of the datagram's own id can change. */
  lemma AddLeavesOthers(t: Table, d: Datagram, id: uint32)
    requires TableInv(t) && id != d.id
    ensures var u := Add(t, d).0;
            && (id in u.fragments <==> id in t.fragments)
            && (id in t.fragments ==> TableInv(u) && u.fragments[id] == t.fragments[id]
                                      && u.expected[id] == t.expected[id])
  {
    hide Full, Joined, SlotFor;
    AddKeepsTable(t, d);
  }

  /** A refused datagram is not always without effect: exactly when it is the first of its id and its
      index is out of range, it leaves an empty entry behind. */
  lemma RefusalLeavesEntry(t: Table, d: Datagram)
    requires Add(t, d).1 == Refused
    ensures Add(t, d).0 != t <==> d.id !in t.fragments && 2 <= d.fragCount <= d.fragIndex
  {
    if d.id !in t.fragments && 2 <= d.fragCount {
      assert d.id in Add(t, d).0.fragments;
    }
  }

  /** What one Add does, for any table and any datagram, genuine or not.  A count of zero is refused; a single fragment
      completes at once and touches nothing; an index out of the range set by the first fragment of the id is refused;
      otherwise the fragment replaces what its slot held, where an empty one leaves the slot missing, and the entry
      completes exactly when no slot is missing, with the slots' contents in order. */
  lemma AddExactly(t: Table, d: Datagram)
    requires TableInv(t)
    ensures var (u, r) := Add(t, d);
            var slots := if d.id in t.fragments then t.fragments[d.id] else seq(d.fragCount, _ => None);
            if d.fragCount == 0 then u == t && r == Refused
            else if d.fragCount == 1 then u == t && r == Complete(d.data)
            else if d.fragIndex >= |slots| then
              && r == Refused && d.id in u.fragments && u.fragments[d.id] == slots
              && u.expected[d.id] == |slots|
            else
              var filled := slots[d.fragIndex := if d.data == [] then None else Some(d.data)];
              if exists k :: 0 <= k < |filled| && filled[k].None?
              then r == Pending && d.id in u.fragments && u.fragments[d.id] == filled && u.expected[d.id] == |slots|
              else r == Complete(Joined(filled)) && d.id !in u.fragments && d.id !in u.expected
  {
    hide Joined;
    if d.fragCount >= 2 {
      AddKeepsTable(t, d);
    }
  }

  // ---- Reassembling what was fragmented ----

  lemma {:induction false} ChunksJoin(data: seq<byte>, slots: seq<Slot>, n: nat)
    requires n <= FragCount(|data|) && |slots| == n
    requires forall i :: 0 <= i < n ==> slots[i] == Some(Chunk(data, i))
    ensures Joined(slots) == data[..Min(n * CHUNK, |data|)]
  {
    hide FragCount, Chunk;
    if n > 0 {
      ChunksJoin(data, slots[..n - 1], n - 1);
      NextChunk(data, n - 1);
      assert Joined(slots) == Joined(slots[..n - 1]) + Chunk(data, n - 1);
    }
  }

  lemma NextChunk(data: seq<byte>, i: nat)
    requires i < FragCount(|data|)
    ensures i * CHUNK <= |data|
    ensures data[..Min((i + 1) * CHUNK, |data|)] == data[..Min(i * CHUNK, |data|)] + Chunk(data, i)
  {
    hide FragCount;
    assert i * CHUNK <= (FragCount(|data|) - 1) * CHUNK;
    assert (i + 1) * CHUNK == i * CHUNK + CHUNK;
  }

  /** The datagrams in transit: the data sent under each id. */
  type Family = map<uint32, seq<byte>>

  ghost predicate Sendable(data: seq<byte>) {
    0 < FragCount(|data|) <= MAX_FRAGMENTS
  }

  function Indices(n: nat): (r: set<nat>)
    ensures forall i: nat :: i in r <==> i < n
  {
    if n == 0 then {} else Indices(n - 1) + {n - 1}
  }

  /** Which fragment indices have arrived for each id still being put together. */
  type Seen = map<uint32, set<nat>>

  ghost predicate SeenOk(family: Family, seen: Seen) {
    && (forall id :: id in family ==> Sendable(family[id]))
    && (forall id :: id in seen ==>
          id in family && seen[id] != {} && seen[id] < Indices(FragCount(|family[id]|)))
  }

  ghost function SlotsOf(data: seq<byte>, arrived: set<nat>): (s: seq<Slot>)
    ensures |s| == FragCount(|data|)
  {
    seq(FragCount(|data|), i requires 0 <= i < FragCount(|data|) => if i in arrived then Some(Chunk(data, i)) else None)
  }

  /** The table that belongs to a set of arrivals. */
  ghost function TableOf(family: Family, seen: Seen): Table
    requires SeenOk(family, seen)
  {
    Table(map id | id in seen :: SlotsOf(family[id], seen[id]),
          map id | id in seen :: FragCount(|family[id]|))
  }

  function Arrived(seen: Seen, id: uint32): set<nat> {
    if id in seen then seen[id] else {}
  }

  /** Reassembly as it is meant to be: an id completes when its set of arrived indices becomes full,
      and starts over after that. */
  ghost function Arrive(family: Family, seen: Seen, id: uint32, i: nat): (Seen, AddResult)
    requires id in family
  {
    var n := FragCount(|family[id]|);
    var now := Arrived(seen, id) + {i};
    if now == Indices(n) then (seen - {id}, Complete(family[id])) else (seen[id := now], Pending)
  }

  lemma FullMeansAllArrived(data: seq<byte>, arrived: set<nat>)
    requires arrived <= Indices(FragCount(|data|))
    ensures Full(SlotsOf(data, arrived)) <==> arrived == Indices(FragCount(|data|))
  {
    var n := FragCount(|data|);
    if Full(SlotsOf(data, arrived)) {
      forall i | i in Indices(n)
        ensures i in arrived
      {
        assert SlotsOf(data, arrived)[i].Some?;
      }
    }
  }

  lemma ManyFragments(data: seq<byte>, i: nat)
    requires Sendable(data) && i < FragCount(|data|)
    ensures var d := Fragment(data, 0, 0, i);
            d.fragIndex == i && d.fragCount == FragCount(|data|)
  {
  }

  lemma ArriveOk(family: Family, seen: Seen, id: uint32, i: nat)
    requires SeenOk(family, seen) && id in family && i < FragCount(|family[id]|)
    ensures SeenOk(family, Arrive(family, seen, id, i).0)
    ensures Arrived(seen, id) + {i} <= Indices(FragCount(|family[id]|))
  {
    hide FragCount;
  }

  /** The table after an arrival, in terms of the table before it. */
  lemma TableAfter(family: Family, seen: Seen, id: uint32, i: nat)
    requires SeenOk(family, seen) && id in family && i < FragCount(|family[id]|)
    ensures SeenOk(family, Arrive(family, seen, id, i).0)
    ensures var data, t := family[id], TableOf(family, seen);
            var next := TableOf(family, Arrive(family, seen, id, i).0);
            var before, after := SlotsOf(data, Arrived(seen, id)), SlotsOf(data, Arrived(seen, id) + {i});
            var u := Table(t.fragments[id := before], t.expected[id := FragCount(|data|)]);
            if Arrive(family, seen, id, i).1.Complete? then next == Without(u, id)
            else next == u.(fragments := u.fragments[id := after])
  {
    hide FragCount, SlotsOf, Chunk, Indices, SeenOk;
    ArriveOk(family, seen, id, i);
    AllSendable(family, seen, id);
    var t, next := TableOf(family, seen), TableOf(family, Arrive(family, seen, id, i).0);
    var before := SlotsOf(family[id], Arrived(seen, id));
    var u := Table(t.fragments[id := before], t.expected[id := FragCount(|family[id]|)]);
    if Arrive(family, seen, id, i).1.Complete? {
      assert next.fragments == u.fragments - {id};
      assert next.expected == u.expected - {id};
    } else {
      assert next.fragments == u.fragments[id := SlotsOf(family[id], Arrived(seen, id) + {i})];
      assert next.expected == u.expected;
    }
  }

  /** One Add of a genuine fragment does exactly what the meaning says, for its own id and for all
      others. */
  lemma AddRefinesArrive(family: Family, seen: Seen, id: uint32, deadline: uint16, i: nat)
    requires SeenOk(family, seen) && id in family && i < FragCount(|family[id]|)
    ensures var (next, result) := Arrive(family, seen, id, i);
            && SeenOk(family, next)
            && Add(TableOf(family, seen), Fragment(family[id], id, deadline, i)) == (TableOf(family, next), result)
  {
    hide Chunk, FragCount, Joined, SlotsOf, Indices, Full, TableOf, SeenOk, Started;
    var data := family[id];
    ArriveOk(family, seen, id, i);
    assert Sendable(data) by { AllSendable(family, seen, id); }
    if FragCount(|data|) == 1 {
      ManyFragments(data, i);
      SingleFragment(family, seen, id, deadline);
    } else {
      StartedTable(family, seen, id, deadline, i);
      FillSlot(data, Arrived(seen, id), id, deadline, i);
      FullMeansAllArrived(data, Arrived(seen, id) + {i});
      TableAfter(family, seen, id, i);
      AllJoined(data);
    }
  }

  lemma AllSendable(family: Family, seen: Seen, id: uint32)
    requires SeenOk(family, seen) && id in family
    ensures Sendable(family[id])
  {
  }

  lemma StartedTable(family: Family, seen: Seen, id: uint32, deadline: uint16, i: nat)
    requires SeenOk(family, seen) && id in family && i < FragCount(|family[id]|)
    ensures var data := family[id];
            var u := Started(TableOf(family, seen), Fragment(data, id, deadline, i));
            && u.fragments == TableOf(family, seen).fragments[id := SlotsOf(data, Arrived(seen, id))]
            && u.expected == TableOf(family, seen).expected[id := FragCount(|data|)]
  {
    hide Chunk, FragCount;
    ManyFragments(family[id], i);
    var n := FragCount(|family[id]|);
    if id !in seen {
      assert SlotsOf(family[id], {}) == seq(n, _ => None);
    }
  }

  lemma FillSlot(data: seq<byte>, arrived: set<nat>, id: uint32, deadline: uint16, i: nat)
    requires Sendable(data) && i < FragCount(|data|)
    ensures var d := Fragment(data, id, deadline, i);
            && d.fragIndex == i && d.fragCount == FragCount(|data|)
            && SlotsOf(data, arrived)[i := SlotFor(d.data)] == SlotsOf(data, arrived + {i})
  {
    hide Chunk, FragCount;
    ManyFragments(data, i);
  }

  lemma AllJoined(data: seq<byte>)
    ensures Joined(SlotsOf(data, Indices(FragCount(|data|)))) == data
  {
    hide Chunk, Joined;
    var n := FragCount(|data|);
    ChunksJoin(data, SlotsOf(data, Indices(n)), n);
    assert data[..|data|] == data;
  }

  lemma SingleFragment(family: Family, seen: Seen, id: uint32, deadline: uint16)
    requires SeenOk(family, seen) && id in family && FragCount(|family[id]|) == 1
    ensures id !in seen && Arrive(family, seen, id, 0) == (seen, Complete(family[id]))
    ensures Fragment(family[id], id, deadline, 0).data == family[id]
  {
    assert Indices(1) == {0};
    assert seen - {id} == seen;
    assert family[id][0..|family[id]|] == family[id];
  }
}

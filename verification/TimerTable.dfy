/** The timer table: keyed one-shot callbacks collected by periodic sweeps. */
module TimerTable {
  datatype Task<F> = Task(deadline: int, fn: F)

  function Due<F>(tasks: map<string, Task<F>>, now: int): (keys: set<string>) {
    set k | k in tasks && tasks[k].deadline <= now
  }

  // ---- Whole runs ----

  datatype Op<F> = Schedule(key: string, deadline: int, fn: F) | Cancel(key: string) | Sweep(now: int)

  /** The table after a run, with instance numbers for callbacks: the n-th operation, when it schedules, creates
      instance n. */
  function Tasks<F>(ops: seq<Op<F>>): map<string, Task<nat>> {
    if ops == [] then map[]
    else
      var n := |ops| - 1;
      var before := Tasks(ops[..n]);
      match ops[n]
      case Schedule(key, deadline, _) => before[key := Task(deadline, n)]
      case Cancel(key) => before - {key}
      case Sweep(now) => before - Due(before, now)
  }

  /** Instance i is called by operation j of the run. */
  ghost predicate Fires<F>(ops: seq<Op<F>>, i: nat, j: nat)
    requires j < |ops|
  {
    var before := Tasks(ops[..j]);
    ops[j].Sweep? && exists key :: key in Due(before, ops[j].now) && before[key].fn == i
  }

  /** Operation m ends the life of what was scheduled under this key and deadline. */
  predicate Ends<F>(op: Op<F>, key: string, deadline: int) {
    match op
    case Schedule(k, _, _) => k == key
    case Cancel(k) => k == key
    case Sweep(now) => deadline <= now
  }

  /** Instance i was scheduled before operation j, and nothing in between replaced, cancelled or collected it. */
  ghost predicate Alive<F>(ops: seq<Op<F>>, i: nat, j: nat)
    requires j <= |ops|
  {
    && i < j && ops[i].Schedule?
    && forall m :: i < m < j ==> !Ends(ops[m], ops[i].key, ops[i].deadline)
  }

  /** The table holds exactly the instances that are still alive. */
  lemma {:induction false} TableHoldsAlive<F>(ops: seq<Op<F>>, j: nat, key: string, i: nat)
    requires j <= |ops|
    ensures (key in Tasks(ops[..j]) && Tasks(ops[..j])[key].fn == i)
            <==> (Alive(ops, i, j) && ops[i].key == key)
    ensures key in Tasks(ops[..j]) && Tasks(ops[..j])[key].fn == i ==>
              Tasks(ops[..j])[key].deadline == ops[i].deadline
    decreases j
  {
    if j > 0 {
      assert ops[..j][..j - 1] == ops[..j - 1];
      TableHoldsAlive(ops, j - 1, key, i);
      if i < j - 1 {
        assert Alive(ops, i, j) <==> Alive(ops, i, j - 1) && !Ends(ops[j - 1], ops[i].key, ops[i].deadline);
      }
    }
  }

  /** Over every run: instance i fires at operation j exactly when i was scheduled before j, j is a sweep
      no earlier than its deadline, and nothing in between replaced, cancelled or already collected it. */
  lemma FiresExactlyWhenDue<F>(ops: seq<Op<F>>, i: nat, j: nat)
    requires j < |ops|
    ensures Fires(ops, i, j) <==> Alive(ops, i, j) && ops[j].Sweep? && ops[i].deadline <= ops[j].now
  {
    var before := Tasks(ops[..j]);
    if Fires(ops, i, j) {
      var key :| key in Due(before, ops[j].now) && before[key].fn == i;
      TableHoldsAlive(ops, j, key, i);
    }
    if Alive(ops, i, j) && ops[j].Sweep? && ops[i].deadline <= ops[j].now {
      TableHoldsAlive(ops, j, ops[i].key, i);
      assert ops[i].key in Due(before, ops[j].now);
    }
  }

  /** Hence no instance fires twice. */
  lemma FiresAtMostOnce<F>(ops: seq<Op<F>>, i: nat, j: nat, m: nat)
    requires j < |ops| && m < |ops| && Fires(ops, i, j) && Fires(ops, i, m)
    ensures j == m
  {
    FiresExactlyWhenDue(ops, i, j);
    FiresExactlyWhenDue(ops, i, m);
    assert j < m ==> Ends(ops[j], ops[i].key, ops[i].deadline);
    assert m < j ==> Ends(ops[m], ops[i].key, ops[i].deadline);
  }

  // ---- The table as the program holds it ----

  /** A table of callbacks that mirrors the table of instances. */
  ghost predicate Mirrors<F>(tasks: map<string, Task<F>>, ops: seq<Op<F>>) {
    && tasks.Keys == Tasks(ops).Keys
    && forall k :: k in tasks ==>
         var t := Tasks(ops)[k];
         t.fn < |ops| && ops[t.fn].Schedule? && tasks[k] == Task(t.deadline, ops[t.fn].fn)
  }

  lemma MirrorsNext<F>(tasks: map<string, Task<F>>, ops: seq<Op<F>>, op: Op<F>, after: map<string, Task<F>>)
    requires Mirrors(tasks, ops)
    requires match op
             case Schedule(key, deadline, fn) => after == tasks[key := Task(deadline, fn)]
             case Cancel(key) => after == tasks - {key}
             case Sweep(now) => after == tasks - Due(tasks, now)
    ensures Mirrors(after, ops + [op])
  {
    assert (ops + [op])[..|ops|] == ops;
  }

  /** The set of keys of the callbacks collected in a given order. */
  ghost predicate Collected<F>(tasks: map<string, Task<F>>, keys: seq<string>, due: seq<F>, all: set<string>) {
    && |keys| == |due| && (set k | k in keys) == all
    && (forall i, j :: 0 <= i < j < |keys| ==> keys[i] != keys[j])
    && forall i :: 0 <= i < |keys| ==> keys[i] in tasks && due[i] == tasks[keys[i]].fn
  }

  /** TimerWheel, with clock readings as arguments and its history of operations as a ghost. */
  class TimerWheel<F> {
    var tasks: map<string, Task<F>>
    ghost var ops: seq<Op<F>>

    ghost predicate Valid()
      reads this
    {
      Mirrors(tasks, ops)
    }

    constructor ()
      ensures Valid() && ops == []
    {
      tasks, ops := map[], [];
    }

    /** The new instance is alive and is the only one alive under its key. */
    method Schedule(key: string, now: int, delay: int, fn: F)
      requires Valid()
      modifies this
      ensures Valid() && ops == old(ops) + [Op.Schedule(key, now + delay, fn)]
      ensures forall i: nat :: Alive(ops, i, |ops|) && ops[i].key == key <==> i == |old(ops)|
    {
      ghost var before := tasks;
      tasks := tasks[key := Task(now + delay, fn)];
      MirrorsNext(before, ops, Op.Schedule(key, now + delay, fn), tasks);
      ops := ops + [Op.Schedule(key, now + delay, fn)];
    }

    /** Nothing is alive under the key afterwards, so what was scheduled under it and has not been collected
        never fires. */
    method Cancel(key: string)
      requires Valid()
      modifies this
      ensures Valid() && ops == old(ops) + [Op.Cancel(key)]
      ensures forall i: nat :: Alive(ops, i, |ops|) ==> ops[i].key != key
    {
      ghost var before := tasks;
      tasks := tasks - {key};
      MirrorsNext(before, ops, Op.Cancel(key), tasks);
      ops := ops + [Op.Cancel(key)];
    }

    /** The loop over the table: collects, in some order, the callback of every due task once and keeps
        exactly the others. */
    method Collect(now: int) returns (due: seq<F>, ghost keys: seq<string>)
      modifies this`tasks
      ensures tasks == old(tasks) - Due(old(tasks), now)
      ensures Collected(old(tasks), keys, due, Due(old(tasks), now))
    {
      due, keys := [], [];
      var left := tasks.Keys;
      while left != {}
        invariant left <= old(tasks).Keys
        invariant tasks == old(tasks) - (Due(old(tasks), now) - left)
        invariant Collected(old(tasks), keys, due, Due(old(tasks), now) - left)
        decreases left
      {
        var k :| k in left;
        left := left - {k};
        assert k in tasks && tasks[k] == old(tasks)[k];
        assert k !in keys by {
          assert k !in (set x | x in keys);
        }
        if tasks[k].deadline <= now {
          assert (set x | x in keys + [k]) == (set x | x in keys) + {k};
          due, keys := due + [tasks[k].fn], keys + [k];
          tasks := tasks - {k};
        }
      }
    }

    /** fireExpired: the callbacks collected are those of the instances that fire at this sweep, each once. */
    method FireExpired(now: int) returns (due: seq<F>, ghost fired: seq<nat>)
      requires Valid()
      modifies this
      ensures Valid() && ops == old(ops) + [Sweep(now)]
      ensures |fired| == |due| && forall i, j :: 0 <= i < j < |fired| ==> fired[i] != fired[j]
      ensures forall x :: 0 <= x < |fired| ==>
                fired[x] < |old(ops)| && old(ops)[fired[x]].Schedule? && due[x] == old(ops)[fired[x]].fn
      ensures forall i :: i in fired <==> Fires(ops, i, |old(ops)|)
    {
      ghost var before := tasks;
      ghost var keys;
      due, keys := Collect(now);
      MirrorsNext(before, ops, Sweep(now), tasks);
      fired := FiredAt(before, ops, keys, due, now);
      ops := ops + [Sweep(now)];
    }
  }

  /** From the keys a sweep collected to the instances that fire. */
  lemma FiredAt<F>(tasks: map<string, Task<F>>, ops: seq<Op<F>>, keys: seq<string>, due: seq<F>, now: int)
    returns (fired: seq<nat>)
    requires Mirrors(tasks, ops) && Collected(tasks, keys, due, Due(tasks, now))
    ensures |fired| == |due| && forall i, j :: 0 <= i < j < |fired| ==> fired[i] != fired[j]
    ensures forall x :: 0 <= x < |fired| ==>
              fired[x] < |ops| && ops[fired[x]].Schedule? && due[x] == ops[fired[x]].fn
    ensures forall i :: i in fired <==> Fires(ops + [Sweep(now)], i, |ops|)
  {
    var all, table := ops + [Sweep(now)], Tasks(ops);
    assert all[..|ops|] == ops;
    assert forall k :: k in Due(tasks, now) <==> k in Due(table, now);
    assert forall k :: k in keys <==> k in (set x | x in keys);
    fired := seq(|keys|, x requires 0 <= x < |keys| => table[keys[x]].fn);
    forall i, j | 0 <= i < j < |fired|
      ensures fired[i] != fired[j]
    {
      OneKeyEach(ops, keys[i], keys[j]);
    }
    forall i
      ensures i in fired <==> Fires(all, i, |ops|)
    {
      if i in fired {
        var x :| 0 <= x < |fired| && fired[x] == i;
        assert keys[x] in Due(table, now) && table[keys[x]].fn == i;
      }
      if Fires(all, i, |ops|) {
        var key :| key in Due(table, now) && table[key].fn == i;
        var x :| 0 <= x < |keys| && keys[x] == key;
        assert fired[x] == i;
      }
    }
  }

  /** An instance is in the table under one key only. */
  lemma OneKeyEach<F>(ops: seq<Op<F>>, k: string, l: string)
    requires k in Tasks(ops) && l in Tasks(ops) && k != l
    ensures Tasks(ops)[k].fn != Tasks(ops)[l].fn
  {
    assert ops[..|ops|] == ops;
    TableHoldsAlive(ops, |ops|, k, Tasks(ops)[k].fn);
    TableHoldsAlive(ops, |ops|, l, Tasks(ops)[k].fn);
  }
}

/** Priority queues of tasks. The reference form is the list of tasks in order of arrival, from which the
    earliest task of the highest priority is taken; the kernel's form is one FIFO for each priority and
    a bitmap of the priorities in use. */
module TaskQueue {
  import opened Options

  const NO_PRIORITIES: nat := 31

  datatype Handle = Handle(id: int, prio: nat, core: nat)

  // Reference form

  function Level(q: seq<Handle>, p: nat): seq<Handle> {
    if q == [] then []
    else if q[|q| - 1].prio == p then Level(q[..|q| - 1], p) + [q[|q| - 1]]
    else Level(q[..|q| - 1], p)
  }

  /** The highest priority in a nonempty queue. */
  function Highest(q: seq<Handle>): (p: nat)
    requires q != []
    ensures exists i :: 0 <= i < |q| && q[i].prio == p
    ensures forall i :: 0 <= i < |q| ==> q[i].prio <= p
  {
    if |q| == 1 then q[0].prio
    else
      var rest := Highest(q[..|q| - 1]);
      if q[|q| - 1].prio > rest then q[|q| - 1].prio else rest
  }

  /** The position of the earliest task with priority p. */
  function Earliest(q: seq<Handle>, p: nat): (i: nat)
    requires exists i :: 0 <= i < |q| && q[i].prio == p
    ensures i < |q| && q[i].prio == p && forall j :: 0 <= j < i ==> q[j].prio != p
  {
    if q[0].prio == p then 0 else
      assert exists i :: 0 <= i < |q[1..]| && q[1..][i].prio == p by {
        var i :| 0 <= i < |q| && q[i].prio == p;
        assert q[1..][i - 1].prio == p;
      }
      1 + Earliest(q[1..], p)
  }

  /** The position of the task to be taken next. */
  function Next(q: seq<Handle>): (i: nat)
    requires q != []
    ensures i < |q|
    ensures forall j :: 0 <= j < |q| ==> q[j].prio <= q[i].prio
    ensures forall j :: 0 <= j < i ==> q[j].prio < q[i].prio
  {
    Earliest(q, Highest(q))
  }

  function Without(q: seq<Handle>, i: nat): seq<Handle>
    requires i < |q|
  {
    q[..i] + q[i + 1..]
  }

  predicate Same(a: Handle, b: Handle) {
    a.id == b.id && a.prio == b.prio
  }

  predicate Contains(q: seq<Handle>, h: Handle) {
    exists i :: 0 <= i < |q| && Same(q[i], h)
  }

  function RemoveAll(q: seq<Handle>, h: Handle): seq<Handle> {
    if q == [] then []
    else if Same(q[|q| - 1], h) then RemoveAll(q[..|q| - 1], h)
    else RemoveAll(q[..|q| - 1], h) + [q[|q| - 1]]
  }

  // Facts about levels

  lemma {:induction false} LevelHolds(q: seq<Handle>, p: nat, i: nat)
    requires i < |q| && q[i].prio == p
    ensures Level(q, p) != []
  {
    if i < |q| - 1 { LevelHolds(q[..|q| - 1], p, i); }
  }

  lemma {:induction false} LevelFrom(q: seq<Handle>, p: nat)
    ensures forall k :: 0 <= k < |Level(q, p)| ==> Level(q, p)[k].prio == p && Level(q, p)[k] in q
  {
    if q != [] { LevelFrom(q[..|q| - 1], p); }
  }

  lemma {:induction false} LevelConcat(a: seq<Handle>, b: seq<Handle>, p: nat)
    ensures Level(a + b, p) == Level(a, p) + Level(b, p)
  {
    if b == [] {
      assert a + b == a;
    } else {
      var n := |b| - 1;
      LevelConcat(a, b[..n], p);
      assert (a + b)[..|a + b| - 1] == a + b[..n];
    }
  }

  lemma {:induction false} LevelEmpty(q: seq<Handle>, p: nat)
    requires forall j :: 0 <= j < |q| ==> q[j].prio != p
    ensures Level(q, p) == []
  {
    if q != [] { LevelEmpty(q[..|q| - 1], p); }
  }

  lemma LevelOne(h: Handle, p: nat)
    ensures Level([h], p) == if h.prio == p then [h] else []
  {
    assert [h][..0] == [];
  }

  /** Taking the earliest task of a priority drops the head of that level and leaves the others. */
  lemma LevelWithout(q: seq<Handle>, i: nat, p: nat)
    requires i < |q| && forall j :: 0 <= j < i ==> q[j].prio != q[i].prio
    ensures p == q[i].prio ==> Level(q, p) == [q[i]] + Level(Without(q, i), p)
    ensures p != q[i].prio ==> Level(q, p) == Level(Without(q, i), p)
  {
    assert q == q[..i] + ([q[i]] + q[i + 1..]);
    LevelConcat(q[..i], [q[i]] + q[i + 1..], p);
    LevelConcat([q[i]], q[i + 1..], p);
    LevelConcat(q[..i], q[i + 1..], p);
    LevelOne(q[i], p);
    if p == q[i].prio { LevelEmpty(q[..i], p); }
  }

  lemma {:induction false} LevelRemoveAll(q: seq<Handle>, h: Handle, p: nat)
    ensures Level(RemoveAll(q, h), p) == if p == h.prio then RemoveAll(Level(q, p), h) else Level(q, p)
  {
    if q != [] {
      var n := |q| - 1;
      var front, last := q[..n], q[n];
      LevelRemoveAll(front, h, p);
      LevelConcat(RemoveAll(front, h), [last], p);
      LevelOne(last, p);
      RemoveAllLast(Level(front, p), last, h);
    }
  }

  lemma RemoveAllLast(q: seq<Handle>, last: Handle, h: Handle)
    ensures RemoveAll(q + [last], h) == if Same(last, h) then RemoveAll(q, h) else RemoveAll(q, h) + [last]
  {
    assert (q + [last])[..|q|] == q;
  }

  /** The kernel's form. Bit p of `prio_bitmap` is membership of p in `bits`. */
  class TaskHandlePriorityQueue {
    const queues: array<seq<Handle>>
    var bits: set<nat>
    ghost var arrivals: seq<Handle>

    ghost predicate Valid()
      reads this, queues
    {
      && queues.Length == NO_PRIORITIES
      && (forall h :: h in arrivals ==> h.prio < NO_PRIORITIES)
      && (forall p :: 0 <= p < NO_PRIORITIES ==> queues[p] == Level(arrivals, p) && (p in bits <==> queues[p] != []))
      && (forall p :: p in bits ==> p < NO_PRIORITIES)
    }

    constructor ()
      ensures Valid() && arrivals == [] && fresh(queues)
    {
      queues := new seq<Handle>[NO_PRIORITIES](i => []);
      bits := {};
      arrivals := [];
    }

    /** The most significant set bit. */
    method Msb() returns (i: Option<nat>)
      requires Valid()
      ensures i.None? <==> bits == {}
      ensures i.Some? ==> i.value in bits && forall p :: p in bits ==> p <= i.value
    {
      i := None;
      var p := NO_PRIORITIES;
      while p > 0
        invariant i.None? && p <= NO_PRIORITIES && forall b :: b in bits ==> b < p
      {
        p := p - 1;
        if p in bits { return Some(p); }
      }
    }

    lemma BitsMeanTasks()
      requires Valid()
      ensures bits == {} <==> arrivals == []
      ensures arrivals != [] ==> Highest(arrivals) in bits && forall p :: p in bits ==> p <= Highest(arrivals)
    {
      if arrivals != [] {
        var h := arrivals[Earliest(arrivals, Highest(arrivals))];
        LevelHolds(arrivals, h.prio, Earliest(arrivals, Highest(arrivals)));
        assert h in arrivals;
      }
      forall p | p in bits
        ensures arrivals != [] && p <= Highest(arrivals)
      {
        LevelFrom(arrivals, p);
        assert queues[p] != [] && Level(arrivals, p)[0] in arrivals;
      }
    }

    method Has(task: Handle) returns (r: bool)
      requires Valid() && task.prio < NO_PRIORITIES
      ensures r <==> Contains(arrivals, task)
    {
      var queue := queues[task.prio];
      r := exists i :: 0 <= i < |queue| && queue[i].id == task.id;
      LevelFrom(arrivals, task.prio);
      LevelContains(arrivals, task);
      assert r ==> Contains(queue, task) by {
        if r { var i :| 0 <= i < |queue| && queue[i].id == task.id; assert Same(queue[i], task); }
      }
    }

    method Push(task: Handle)
      requires Valid() && task.prio < NO_PRIORITIES
      modifies this, queues
      ensures Valid() && arrivals == old(arrivals) + [task]
    {
      var i := task.prio;
      bits := bits + {i};
      queues[i] := queues[i] + [task];
      forall p: nat
        ensures Level(arrivals + [task], p) == Level(arrivals, p) + if task.prio == p then [task] else []
      {
        LevelConcat(arrivals, [task], p);
        LevelOne(task, p);
      }
      arrivals := arrivals + [task];
    }

    method PopFromQueue(i: nat) returns (task: Option<Handle>)
      requires Valid() && i in bits && arrivals != [] && Highest(arrivals) == i
      modifies this, queues
      ensures Valid() && task == Some(old(arrivals)[Next(old(arrivals))])
      ensures arrivals == Without(old(arrivals), Next(old(arrivals)))
    {
      ghost var n := Next(arrivals);
      forall p { LevelWithout(arrivals, n, p); }
      task := Some(queues[i][0]);
      queues[i] := queues[i][1..];
      if queues[i] == [] { bits := bits - {i}; }
      arrivals := Without(arrivals, n);
    }

    method Pop() returns (task: Option<Handle>)
      requires Valid()
      modifies this, queues
      ensures Valid()
      ensures old(arrivals) == [] ==> task == None && arrivals == []
      ensures old(arrivals) != [] ==> task == Some(old(arrivals)[Next(old(arrivals))])
                                      && arrivals == Without(old(arrivals), Next(old(arrivals)))
    {
      BitsMeanTasks();
      var i := Msb();
      if i.None? { return None; }
      task := PopFromQueue(i.value);
    }

    /** Takes the next task only if its priority is at least `prio`. */
    method PopWithPrio(prio: nat) returns (task: Option<Handle>)
      requires Valid()
      modifies this, queues
      ensures Valid()
      ensures old(arrivals) == [] || Highest(old(arrivals)) < prio ==> task == None && arrivals == old(arrivals)
      ensures old(arrivals) != [] && Highest(old(arrivals)) >= prio ==>
                task == Some(old(arrivals)[Next(old(arrivals))])
                && arrivals == Without(old(arrivals), Next(old(arrivals)))
    {
      BitsMeanTasks();
      var i := Msb();
      if i.None? || i.value < prio { return None; }
      task := PopFromQueue(i.value);
    }

    method Remove(task: Handle) returns (success: bool)
      requires Valid() && task.prio < NO_PRIORITIES
      modifies this, queues
      ensures Valid() && success == Contains(old(arrivals), task) && arrivals == RemoveAll(old(arrivals), task)
    {
      hide Level, RemoveAll;
      var queueIndex := task.prio;
      LevelFrom(arrivals, queueIndex);
      var queue;
      queue, success := RemoveFromLevel(queues[queueIndex], task);
      LevelContains(arrivals, task);
      forall p: nat
        ensures Level(RemoveAll(arrivals, task), p)
             == if p == task.prio then RemoveAll(Level(arrivals, p), task) else Level(arrivals, p)
      {
        LevelRemoveAll(arrivals, task, p);
      }
      queues[queueIndex] := queue;
      if queue == [] { bits := bits - {queueIndex}; }
      RemoveAllFrom(arrivals, task);
      RemoveAllShrinks(Level(arrivals, task.prio), task);
      arrivals := RemoveAll(arrivals, task);
    }
  }

  /** The removal loop: deletes every entry of the task, shifting the later ones down. */
  method RemoveFromLevel(was: seq<Handle>, task: Handle) returns (queue: seq<Handle>, success: bool)
    requires forall j :: 0 <= j < |was| ==> was[j].prio == task.prio
    ensures queue == RemoveAll(was, task)
    ensures success <==> Contains(was, task)
  {
    hide RemoveAll, Contains;
    success := false;
    var i := 0;
    queue := was;
    ghost var k := 0;
    ghost var kept := [];
    NothingSeen(was, task);
    while i != |queue|
      invariant |kept| == i && k <= |was| && queue == kept + was[k..]
      invariant kept == RemoveAll(was[..k], task)
      invariant success <==> Contains(was[..k], task)
      decreases |queue| - i
    {
      ContainsLast(was, k, task);
      RemoveAllNext(was, k, task);
      OneFurther(kept, was, k);
      k := k + 1;
      if queue[i].id == task.id {
        queue := queue[..i] + queue[i + 1..];
        success := true;
      } else {
        kept := kept + [queue[i]];
        i := i + 1;
      }
    }
    assert was[..k] == was && was[k..] == [];
  }

  lemma NothingSeen(q: seq<Handle>, h: Handle)
    ensures RemoveAll(q[..0], h) == [] && !Contains(q[..0], h)
  {
  }

  lemma RemoveAllNext(q: seq<Handle>, k: nat, h: Handle)
    requires k < |q|
    ensures RemoveAll(q[..k + 1], h) == if Same(q[k], h) then RemoveAll(q[..k], h) else RemoveAll(q[..k], h) + [q[k]]
  {
    hide RemoveAll;
    assert q[..k + 1] == q[..k] + [q[k]];
    RemoveAllLast(q[..k], q[k], h);
  }

  /** The entry at hand, dropped or kept. */
  lemma OneFurther(kept: seq<Handle>, was: seq<Handle>, k: nat)
    requires k < |was|
    ensures var queue, i := kept + was[k..], |kept|;
            queue[i] == was[k] && queue[..i] + queue[i + 1..] == kept + was[k + 1..]
              && queue == (kept + [was[k]]) + was[k + 1..]
  {
    assert was[k..] == [was[k]] + was[k + 1..];
  }

  lemma ContainsLast(q: seq<Handle>, k: nat, h: Handle)
    requires k < |q|
    ensures Contains(q[..k + 1], h) <==> Contains(q[..k], h) || Same(q[k], h)
  {
    if Contains(q[..k], h) { var j :| 0 <= j < k && Same(q[..k][j], h); assert Same(q[..k + 1][j], h); }
    if Same(q[k], h) { assert Same(q[..k + 1][k], h); }
    if Contains(q[..k + 1], h) && !Same(q[k], h) {
      var j :| 0 <= j < k + 1 && Same(q[..k + 1][j], h);
      assert Same(q[..k][j], h);
    }
  }

  lemma LevelContains(q: seq<Handle>, h: Handle)
    ensures Contains(Level(q, h.prio), h) <==> Contains(q, h)
  {
    hide Level;
    LevelFrom(q, h.prio);
    if Contains(q, h) {
      var i :| 0 <= i < |q| && Same(q[i], h);
      var j := LevelHoldsTask(q, h.prio, i);
      assert Same(Level(q, h.prio)[j], h);
    }
    if Contains(Level(q, h.prio), h) {
      var j :| 0 <= j < |Level(q, h.prio)| && Same(Level(q, h.prio)[j], h);
      assert Level(q, h.prio)[j] in q;
    }
  }

  lemma {:induction false} RemoveAllShrinks(q: seq<Handle>, h: Handle)
    ensures |RemoveAll(q, h)| <= |q|
  {
    if q != [] { RemoveAllShrinks(q[..|q| - 1], h); }
  }

  lemma {:induction false} LevelHoldsTask(q: seq<Handle>, p: nat, i: nat) returns (j: nat)
    requires i < |q| && q[i].prio == p
    ensures j < |Level(q, p)| && Level(q, p)[j] == q[i]
  {
    if i < |q| - 1 { j := LevelHoldsTask(q[..|q| - 1], p, i); } else { j := |Level(q[..|q| - 1], p)|; }
  }

  lemma {:induction false} RemoveAllFrom(q: seq<Handle>, h: Handle)
    ensures forall x :: x in RemoveAll(q, h) <==> x in q && !Same(x, h)
  {
    if q != [] {
      RemoveAllFrom(q[..|q| - 1], h);
      assert q == q[..|q| - 1] + [q[|q| - 1]];
    }
  }
}

/** Tasks that wait for a blocking primitive, and the queue in which they park. */
module WaitQueue {
  import opened TaskQueue

  /** Trying: about to take the lock; woken if a release has just taken it out of the queue. Parked: blocked. */
  datatype Phase = Trying(woken: bool) | Parked

  datatype Waiter = Waiter(handle: Handle, phase: Phase)

  predicate IsParked(waiters: map<int, Waiter>, t: int) {
    t in waiters && waiters[t].phase.Parked?
  }

  predicate IsWoken(waiters: map<int, Waiter>, t: int) {
    t in waiters && waiters[t].phase == Trying(true)
  }

  ghost predicate SomeParked(waiters: map<int, Waiter>) {
    exists t :: IsParked(waiters, t)
  }

  function SetPhase(waiters: map<int, Waiter>, t: int, phase: Phase): map<int, Waiter>
    requires t in waiters
  {
    waiters[t := waiters[t].(phase := phase)]
  }

  /** The waiters after waking this task, which does nothing if it is not parked. */
  function WakeParked(waiters: map<int, Waiter>, t: int): map<int, Waiter> {
    if IsParked(waiters, t) then SetPhase(waiters, t, Trying(true)) else waiters
  }

  /** The queue holds the handle of each parked task once, and nothing else. */
  ghost predicate QueueInv(queue: seq<Handle>, waiters: map<int, Waiter>) {
    && (forall i :: 0 <= i < |queue| ==> queue[i].id in waiters && waiters[queue[i].id] == Waiter(queue[i], Parked))
    && (forall i, j :: 0 <= i < j < |queue| ==> queue[i].id != queue[j].id)
    && (forall t :: IsParked(waiters, t) ==> waiters[t].handle in queue)
    && (forall t :: t in waiters ==> waiters[t].handle.id == t)
  }

  lemma ParkKeepsQueue(queue: seq<Handle>, waiters: map<int, Waiter>, t: int)
    requires QueueInv(queue, waiters) && t in waiters && waiters[t].phase.Trying?
    ensures QueueInv(queue + [waiters[t].handle], SetPhase(waiters, t, Parked))
  {
    var queue', waiters' := queue + [waiters[t].handle], SetPhase(waiters, t, Parked);
    assert queue'[|queue|] == waiters[t].handle;
    forall u | IsParked(waiters', u)
      ensures waiters'[u].handle in queue'
    {
      if u != t { assert IsParked(waiters, u); }
    }
  }

  lemma PopKeepsQueue(queue: seq<Handle>, waiters: map<int, Waiter>, n: nat)
    requires QueueInv(queue, waiters) && n < |queue|
    ensures QueueInv(Without(queue, n), WakeParked(waiters, queue[n].id))
  {
    var queue', waiters' := Without(queue, n), WakeParked(waiters, queue[n].id);
    forall i | 0 <= i < |queue'| ensures queue'[i] == queue[if i < n then i else i + 1] { }
    forall u | IsParked(waiters', u)
      ensures waiters'[u].handle in queue'
    {
      assert IsParked(waiters, u);
      var i :| 0 <= i < |queue| && queue[i] == waiters[u].handle;
      assert queue'[if i < n then i else i - 1] == queue[i];
    }
  }

  lemma FrontFirst(a: Handle, b: Handle)
    requires a.prio == b.prio
    ensures Next([a, b]) == 0 && Without([a, b], 0) == [b]
  {
  }
}

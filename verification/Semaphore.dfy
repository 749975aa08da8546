/** The counting semaphore, without timeouts, as a transition system: each turn of the retry loop under the lock is a
    step. A wakeup meant for something else that reaches a parked task is the step Disturb. */
module Semaphore {
  import opened Options
  import opened Sets
  import opened TaskQueue
  import opened WaitQueue

  datatype State = State(count: int, queue: seq<Handle>, waiters: map<int, Waiter>)

  function Created(count: int): State {
    State(count, [], map[])
  }

  datatype Step =
    | Begin(handle: Handle)
    | Attempt(task: int, snooze: bool)
    | TryAcquire
    | Release
    | Disturb(task: int)

  predicate Enabled(s: State, step: Step) {
    match step
    case Begin(h) => h.id !in s.waiters && h.prio < NO_PRIORITIES
    case Attempt(t, _) => t in s.waiters && s.waiters[t].phase.Trying?
    case TryAcquire => true
    case Release => true
    case Disturb(t) => IsParked(s.waiters, t)
  }

  /** One turn of the loop: take the resource, spin again, or park. */
  function ApplyAttempt(s: State, t: int, snooze: bool): State
    requires t in s.waiters
  {
    if s.count > 0 then s.(count := s.count - 1, waiters := s.waiters - {t})
    else if snooze then s.(waiters := SetPhase(s.waiters, t, Trying(false)))
    else s.(queue := s.queue + [s.waiters[t].handle], waiters := SetPhase(s.waiters, t, Parked))
  }

  function ApplyTryAcquire(s: State): State {
    if s.count > 0 then s.(count := s.count - 1) else s
  }

  /** Counts up and wakes the longest waiting task of the highest priority; waking a task that is not parked
      does nothing. */
  function ApplyRelease(s: State): State {
    var s1 := s.(count := s.count + 1);
    if s.queue == [] then s1
    else
      s1.(queue := Without(s.queue, Next(s.queue)), waiters := WakeParked(s.waiters, s.queue[Next(s.queue)].id))
  }

  function Apply(s: State, step: Step): State
    requires Enabled(s, step)
  {
    match step
    case Begin(h) => s.(waiters := s.waiters[h.id := Waiter(h, Trying(false))])
    case Attempt(t, snooze) => ApplyAttempt(s, t, snooze)
    case TryAcquire => ApplyTryAcquire(s)
    case Release => ApplyRelease(s)
    case Disturb(t) => s.(waiters := SetPhase(s.waiters, t, Trying(false)))
  }

  // Runs

  ghost predicate Runs(s: State, steps: seq<Step>)
    decreases |steps|
  {
    steps == [] || (Enabled(s, steps[0]) && Runs(Apply(s, steps[0]), steps[1..]))
  }

  ghost function After(s: State, steps: seq<Step>): State
    requires Runs(s, steps)
    decreases |steps|
  {
    if steps == [] then s else After(Apply(s, steps[0]), steps[1..])
  }

  /** The step takes a resource: the task leaves `acquire` for good, or `try_acquire` finds one. */
  predicate Takes(s: State, step: Step)
    requires Enabled(s, step)
  {
    match step
    case Attempt(t, _) => t !in ApplyAttempt(s, t, step.snooze).waiters
    case TryAcquire => s.count > 0
    case _ => false
  }

  ghost function Taken(s: State, steps: seq<Step>): nat
    requires Runs(s, steps)
    decreases |steps|
  {
    if steps == [] then 0 else (if Takes(s, steps[0]) then 1 else 0) + Taken(Apply(s, steps[0]), steps[1..])
  }

  function Releases(steps: seq<Step>): nat {
    if steps == [] then 0 else (if steps[0].Release? then 1 else 0) + Releases(steps[1..])
  }

  /** Resources are conserved over every run: what is there is what was there, with the releases and without what was
      taken; so no more is taken than there is. */
  lemma {:induction false} Conserved(s: State, steps: seq<Step>)
    requires Runs(s, steps)
    ensures After(s, steps).count == s.count + Releases(steps) - Taken(s, steps)
    ensures s.count >= 0 ==> Taken(s, steps) <= s.count + Releases(steps)
    decreases |steps|
  {
    hide Next;
    if steps != [] { Conserved(Apply(s, steps[0]), steps[1..]); }
  }

  /** A turn takes a resource exactly if there is one; otherwise the task parks, last in the queue, or
      spins once more. */
  lemma AttemptDecides(s: State, t: int, snooze: bool)
    requires Enabled(s, Attempt(t, snooze))
    ensures var s' := Apply(s, Attempt(t, snooze));
            && (Takes(s, Attempt(t, snooze)) <==> s.count > 0)
            && (IsParked(s'.waiters, t) <==> s.count <= 0 && !snooze)
            && s'.queue == s.queue + (if IsParked(s'.waiters, t) then [s.waiters[t].handle] else [])
            && s'.waiters - {t} == s.waiters - {t}
  {
  }

  /** A release takes the longest waiting handle of the highest priority out of the queue, and of all tasks wakes only
      that handle's, if it is parked. */
  lemma ReleaseWakesNext(s: State)
    requires s.queue != []
    ensures var s', t := ApplyRelease(s), s.queue[Next(s.queue)].id;
            && s'.count == s.count + 1 && s'.queue == Without(s.queue, Next(s.queue))
            && s'.waiters - {t} == s.waiters - {t} && (t in s'.waiters <==> t in s.waiters)
            && (IsParked(s.waiters, t) ==> IsWoken(s'.waiters, t))
            && (!IsParked(s.waiters, t) ==> s'.waiters == s.waiters)
  {
    hide Next;
  }

  // No lost release

  ghost function Woken(s: State): set<int> {
    set t | t in s.waiters && IsWoken(s.waiters, t)
  }

  /** While tasks are parked, every available resource has a woken task coming for it. */
  ghost predicate Covered(s: State) {
    SomeParked(s.waiters) ==> s.count <= |Woken(s)|
  }

  /** A release reaches someone: the handle it pops is of a parked task, or it need not reach anyone. */
  ghost predicate Heard(s: State) {
    || (s.queue != [] && IsParked(s.waiters, s.queue[Next(s.queue)].id))
    || !SomeParked(s.waiters)
    || s.count + 1 <= |Woken(s)|
  }

  lemma WokenAfter(s: State, s': State, t: int)
    requires forall u :: u != t ==>
               (u in s.waiters <==> u in s'.waiters) && (u in s.waiters ==> s'.waiters[u].phase == s.waiters[u].phase)
    ensures |Woken(s')| - |Woken(s)| == (if t in Woken(s') then 1 else 0) - (if t in Woken(s) then 1 else 0)
    ensures (IsParked(s'.waiters, t) ==> IsParked(s.waiters, t)) && SomeParked(s'.waiters) ==> SomeParked(s.waiters)
  {
    forall u | u != t ensures u in Woken(s) <==> u in Woken(s') { }
    SizesDifferAtOne(Woken(s), Woken(s'), t);
    if SomeParked(s'.waiters) {
      var u :| IsParked(s'.waiters, u);
      assert u != t ==> IsParked(s.waiters, u);
    }
  }

  /** No step but a release can leave a resource without a taker, stray wakeups included. */
  lemma StepKeepsCovered(s: State, step: Step)
    requires Covered(s) && Enabled(s, step) && !step.Release?
    ensures Covered(Apply(s, step))
  {
    hide SomeParked;
    var s' := Apply(s, step);
    match step
    case Begin(h) => WokenAfter(s, s', h.id);
    case Attempt(t, _) => WokenAfter(s, s', t);
    case TryAcquire => WokenAfter(s, s', 0);
    case Disturb(t) => WokenAfter(s, s', t);
    case Release =>
  }

  /** A release keeps every resource covered exactly if it is heard. */
  lemma ReleaseCovered(s: State)
    requires Covered(s)
    ensures Covered(ApplyRelease(s)) <==> Heard(s)
  {
    hide Next;
    var s' := ApplyRelease(s);
    if s.queue != [] && IsParked(s.waiters, s.queue[Next(s.queue)].id) {
      var t := s.queue[Next(s.queue)].id;
      assert t !in Woken(s) && t in Woken(s');
      WokenAfter(s, s', t);
    } else {
      assert Woken(s') == Woken(s);
      assert forall t :: IsParked(s'.waiters, t) <==> IsParked(s.waiters, t);
    }
  }

  ghost predicate AlwaysCovered(s: State, steps: seq<Step>)
    requires Runs(s, steps)
    decreases |steps|
  {
    Covered(s) && (steps != [] ==> AlwaysCovered(Apply(s, steps[0]), steps[1..]))
  }

  ghost predicate AllHeard(s: State, steps: seq<Step>)
    requires Runs(s, steps)
    decreases |steps|
  {
    steps != [] ==> (steps[0].Release? ==> Heard(s)) && AllHeard(Apply(s, steps[0]), steps[1..])
  }

  /** Over any run, with any stray wakeups: no resource is ever left without a taker while tasks are parked, exactly if
      each release is heard. */
  lemma {:induction false} NoLostRelease(s: State, steps: seq<Step>)
    requires Runs(s, steps) && Covered(s)
    ensures AlwaysCovered(s, steps) <==> AllHeard(s, steps)
    decreases |steps|
  {
    hide Covered, Heard, Apply, Enabled;
    if steps != [] {
      var s' := Apply(s, steps[0]);
      if steps[0].Release? { ReleaseStep(s); } else { StepKeepsCovered(s, steps[0]); }
      if Covered(s') { NoLostRelease(s', steps[1..]); } else { NotAlways(s', steps[1..]); }
    }
  }

  lemma ReleaseStep(s: State)
    requires Covered(s)
    ensures Enabled(s, Release) && (Covered(Apply(s, Release)) <==> Heard(s))
  {
    hide Covered, Heard;
    ReleaseCovered(s);
  }

  lemma NotAlways(s: State, steps: seq<Step>)
    requires Runs(s, steps) && !Covered(s)
    ensures !AlwaysCovered(s, steps)
  {
  }

  // Without stray wakeups every release is heard

  lemma StepKeepsQueue(s: State, step: Step)
    requires QueueInv(s.queue, s.waiters) && Enabled(s, step) && !step.Disturb?
    ensures QueueInv(Apply(s, step).queue, Apply(s, step).waiters)
    ensures step.Release? ==> Heard(s)
  {
    hide Next, Without;
    match step
    case Attempt(t, snooze) => if s.count <= 0 && !snooze { ParkKeepsQueue(s.queue, s.waiters, t); }
    case Release => if s.queue != [] { PopKeepsQueue(s.queue, s.waiters, Next(s.queue)); }
    case _ =>
  }

  /** A run without stray wakeups loses no release. */
  lemma {:induction false} QuietRunIsHeard(s: State, steps: seq<Step>)
    requires QueueInv(s.queue, s.waiters) && Runs(s, steps) && forall i :: 0 <= i < |steps| ==> !steps[i].Disturb?
    ensures AllHeard(s, steps)
    decreases |steps|
  {
    hide QueueInv, Heard, Apply, Enabled;
    if steps != [] {
      StepKeepsQueue(s, steps[0]);
      QuietRunIsHeard(Apply(s, steps[0]), steps[1..]);
    }
  }

  lemma CreatedCovered(initial: int)
    ensures Covered(Created(initial)) && QueueInv(Created(initial).queue, Created(initial).waiters)
  {
  }

  lemma QuietRunLosesNothing(initial: int, steps: seq<Step>)
    requires Runs(Created(initial), steps) && forall i :: 0 <= i < |steps| ==> !steps[i].Disturb?
    ensures AlwaysCovered(Created(initial), steps)
  {
    hide Runs, Covered, QueueInv, AlwaysCovered, AllHeard;
    CreatedCovered(initial);
    QuietRunIsHeard(Created(initial), steps);
    NoLostRelease(Created(initial), steps);
  }

  // With a stray wakeup

  lemma OneMore(s: State, step: Step, steps: seq<Step>, s': State)
    requires Enabled(s, step) && Runs(Apply(s, step), steps) && After(Apply(s, step), steps) == s'
    ensures Runs(s, [step] + steps) && After(s, [step] + steps) == s'
  {
    assert ([step] + steps)[1..] == steps;
  }

  /** A task woken by mistake queues itself again; once it has acquired, its second handle takes the wakeup of the task
      behind it, which stays parked with a resource available and nobody coming. */
  lemma StrayWakeupLosesRelease() returns (steps: seq<Step>, s: State)
    ensures Runs(Created(0), steps) && After(Created(0), steps) == s
    ensures s.count == 1 && Woken(s) == {} && SomeParked(s.waiters) && !Covered(s)
  {
    hide Next, Without;
    var a, b := Handle(1, 0, 0), Handle(2, 0, 0);
    FrontFirst(a, a);
    FrontFirst(a, b);
    var s0 := Created(0);
    var s1 := Apply(s0, Begin(a));
    var s2 := Apply(s1, Attempt(1, false));
    var s3 := Apply(s2, Disturb(1));
    var s4 := Apply(s3, Attempt(1, false));
    assert s4 == State(0, [a, a], map[1 := Waiter(a, Parked)]);
    var s5 := Apply(s4, Release);
    assert s5 == State(1, [a], map[1 := Waiter(a, Trying(true))]);
    var s6 := Apply(s5, Attempt(1, false));
    var s7 := Apply(s6, Begin(b));
    var s8 := Apply(s7, Attempt(2, false));
    assert s8 == State(0, [a, b], map[2 := Waiter(b, Parked)]);
    s := Apply(s8, Release);
    assert s == State(1, [b], map[2 := Waiter(b, Parked)]);
    steps := [];
    hide Apply, Enabled;
    OneMore(s8, Release, steps, s);
    steps := [Release] + steps;
    OneMore(s7, Attempt(2, false), steps, s);
    steps := [Attempt(2, false)] + steps;
    OneMore(s6, Begin(b), steps, s);
    steps := [Begin(b)] + steps;
    OneMore(s5, Attempt(1, false), steps, s);
    steps := [Attempt(1, false)] + steps;
    OneMore(s4, Release, steps, s);
    steps := [Release] + steps;
    OneMore(s3, Attempt(1, false), steps, s);
    steps := [Attempt(1, false)] + steps;
    OneMore(s2, Disturb(1), steps, s);
    steps := [Disturb(1)] + steps;
    OneMore(s1, Attempt(1, false), steps, s);
    steps := [Attempt(1, false)] + steps;
    OneMore(s0, Begin(a), steps, s);
    steps := [Begin(a)] + steps;
    assert IsParked(s.waiters, 2);
  }

  // Imperative form

  datatype Turn = Acquired | Snooze | Block

  class CountingSemaphore {
    var count: int
    const queue: TaskHandlePriorityQueue
    ghost var world: State

    ghost function View(): State
      reads this, queue
    {
      world.(count := count, queue := queue.arrivals)
    }

    ghost predicate Valid()
      reads this, queue, queue.queues
    {
      queue.Valid() && forall t :: t in world.waiters ==> world.waiters[t].handle.prio < NO_PRIORITIES
    }

    constructor (initial: int)
      ensures Valid() && View() == Created(initial) && fresh(queue) && fresh(queue.queues)
    {
      count := initial;
      queue := new TaskHandlePriorityQueue();
      world := Created(initial);
    }

    /** One turn of `acquire` under the lock, for the task with this handle. */
    method Attempt(task: Handle, spin: bool) returns (r: Turn)
      requires Valid() && Enabled(View(), Step.Attempt(task.id, spin)) && View().waiters[task.id].handle == task
      modifies this, queue, queue.queues
      ensures Valid() && View() == ApplyAttempt(old(View()), task.id, spin)
      ensures r.Acquired? <==> old(count) > 0
      ensures r.Block? <==> task.id in View().waiters && View().waiters[task.id].phase.Parked?
    {
      ghost var s := View();
      if count > 0 {
        count := count - 1;
        r := Acquired;
      } else if spin {
        r := Snooze;
      } else {
        queue.Push(task);
        r := Block;
      }
      world := ApplyAttempt(s, task.id, spin);
    }

    method TryAcquire() returns (ok: bool)
      requires Valid()
      modifies this
      ensures Valid() && View() == ApplyTryAcquire(old(View())) && ok == (old(count) > 0)
    {
      ghost var s := View();
      ok := count > 0;
      if ok { count := count - 1; }
      world := ApplyTryAcquire(s);
    }

    method Release() returns (wake: Option<Handle>)
      requires Valid()
      modifies this, queue, queue.queues
      ensures Valid() && View() == ApplyRelease(old(View()))
      ensures wake == if old(queue.arrivals) == [] then None else Some(old(queue.arrivals)[Next(old(queue.arrivals))])
    {
      hide Next;
      ghost var s := View();
      count := count + 1;
      wake := queue.Pop();
      world := ApplyRelease(s);
    }
  }
}

/** The recursive mutex as a transition system, released only by its owner. A wakeup meant for something else that
    reaches a parked task is the step Disturb. */
module RecMutex {
  import opened Options
  import opened TaskQueue
  import opened WaitQueue

  datatype State = State(owner: Option<int>, count: nat, queue: seq<Handle>, waiters: map<int, Waiter>)

  const Initial := State(None, 0, [], map[])

  datatype Step =
    | Begin(handle: Handle)
    | Attempt(task: int)
    | Release(task: int)
    | Disturb(task: int)

  /** A task inside `acquire` does nothing else, and only the owner releases. */
  predicate Enabled(s: State, step: Step) {
    match step
    case Begin(h) => h.id !in s.waiters && h.prio < NO_PRIORITIES
    case Attempt(t) => t in s.waiters && s.waiters[t].phase.Trying?
    case Release(t) => t !in s.waiters && s.owner == Some(t)
    case Disturb(t) => IsParked(s.waiters, t)
  }

  function ApplyAttempt(s: State, t: int): State
    requires t in s.waiters
  {
    if s.owner == Some(t) then
      s.(count := s.count + 1, waiters := s.waiters - {t})
    else if s.owner.None? then
      s.(owner := Some(t), count := 1, waiters := s.waiters - {t})
    else
      s.(queue := s.queue + [s.waiters[t].handle], waiters := SetPhase(s.waiters, t, Parked))
  }

  function ApplyRelease(s: State): State {
    var count := if s.count > 0 then s.count - 1 else 0;
    var s1 := s.(count := count);
    if count > 0 then s1
    else if s.queue == [] then s1.(owner := None)
    else
      s1.(owner := None, queue := Without(s.queue, Next(s.queue)),
          waiters := WakeParked(s.waiters, s.queue[Next(s.queue)].id))
  }

  function Apply(s: State, step: Step): State
    requires Enabled(s, step)
  {
    match step
    case Begin(h) => s.(waiters := s.waiters[h.id := Waiter(h, Trying(false))])
    case Attempt(t) => ApplyAttempt(s, t)
    case Release(_) => ApplyRelease(s)
    case Disturb(t) => s.(waiters := SetPhase(s.waiters, t, Trying(false)))
  }

  // Runs

  ghost predicate Runs(s: State, steps: seq<Step>)
    decreases |steps|
  {
    steps == [] || (Enabled(s, steps[0]) && Runs(Apply(s, steps[0]), steps[1..]))
  }

  ghost function After(s: State, steps: seq<Step>): State
    requires Runs(s, steps)
    decreases |steps|
  {
    if steps == [] then s else After(Apply(s, steps[0]), steps[1..])
  }

  // Mutual exclusion, over every run

  /** What a step adds to the acquires of a task that are not released yet: one if it leaves `acquire`, minus one if it
      releases. */
  function Gains(s: State, step: Step, t: int): int
    requires Enabled(s, step)
  {
    match step
    case Attempt(u) => if u == t && t !in ApplyAttempt(s, t).waiters then 1 else 0
    case Release(u) => if u == t then -1 else 0
    case _ => 0
  }

  ghost function Gained(s: State, steps: seq<Step>, t: int): int
    requires Runs(s, steps)
    decreases |steps|
  {
    if steps == [] then 0 else Gains(s, steps[0], t) + Gained(Apply(s, steps[0]), steps[1..], t)
  }

  /** How often a task holds the mutex. */
  function Holds(s: State, t: int): nat {
    if s.owner == Some(t) then s.count else 0
  }

  ghost predicate Owned(s: State) {
    s.owner.None? <==> s.count == 0
  }

  lemma StepHolds(s: State, step: Step, t: int)
    requires Owned(s) && Enabled(s, step)
    ensures Owned(Apply(s, step)) && Holds(Apply(s, step), t) == Holds(s, t) + Gains(s, step, t)
  {
    hide Next;
  }

  lemma {:induction false} RunHolds(s: State, steps: seq<Step>, t: int)
    requires Owned(s) && Runs(s, steps)
    ensures Owned(After(s, steps)) && Holds(After(s, steps), t) == Holds(s, t) + Gained(s, steps, t)
    decreases |steps|
  {
    hide Owned, Holds, Apply, Enabled, Gains;
    if steps != [] {
      StepHolds(s, steps[0], t);
      RunHolds(Apply(s, steps[0]), steps[1..], t);
    }
  }

  /** At most one task has acquired more often than released: the owner, as often as the count says. */
  lemma MutualExclusion(steps: seq<Step>, t: int, u: int)
    requires Runs(Initial, steps)
    ensures Gained(Initial, steps, t) == Holds(After(Initial, steps), t)
    ensures Gained(Initial, steps, t) > 0 && Gained(Initial, steps, u) > 0 ==> t == u
    ensures Gained(Initial, steps, t) > 0 <==> After(Initial, steps).owner == Some(t)
  {
    hide Runs, After, Gained;
    RunHolds(Initial, steps, t);
    RunHolds(Initial, steps, u);
  }

  /** An attempt succeeds exactly if the mutex is free or the task's own; otherwise the task parks, last in the
      queue. */
  lemma AttemptDecides(s: State, t: int)
    requires Enabled(s, Attempt(t))
    ensures var s' := Apply(s, Attempt(t));
            && (t !in s'.waiters <==> s.owner.None? || s.owner == Some(t))
            && (t in s'.waiters ==> IsParked(s'.waiters, t) && s'.owner == s.owner && s'.count == s.count)
            && s'.queue == s.queue + (if t in s'.waiters then [s.waiters[t].handle] else [])
            && s'.waiters - {t} == s.waiters - {t}
  {
  }

  /** What one acquire adds, one release takes away. */
  lemma ReleaseUndoesAcquire(s: State, t: int)
    requires Owned(s) && Enabled(s, Attempt(t)) && (s.owner.None? || s.owner == Some(t))
    ensures var held := ApplyAttempt(s, t);
            Enabled(held, Release(t)) && ApplyRelease(held).owner == s.owner
              && ApplyRelease(held).count == s.count
  {
  }

  /** The last release takes the longest waiting handle of the highest priority out of the queue, and of all tasks wakes
      only that handle's, if it is parked. Any other release wakes nobody. */
  lemma ReleaseWakesNext(s: State, t: int)
    requires Owned(s) && Enabled(s, Release(t))
    ensures var s' := Apply(s, Release(t));
            && s'.count == s.count - 1
            && (s'.count > 0 || s.queue == [] ==> s'.queue == s.queue && s'.waiters == s.waiters)
            && (s'.count == 0 && s.queue != [] ==>
                  var u := s.queue[Next(s.queue)].id;
                  && s'.queue == Without(s.queue, Next(s.queue)) && s'.waiters - {u} == s.waiters - {u}
                  && (IsParked(s.waiters, u) ==> IsWoken(s'.waiters, u))
                  && (!IsParked(s.waiters, u) ==> s'.waiters == s.waiters))
  {
    hide Next;
  }

  // No lost release

  ghost predicate SomeoneWoken(s: State) {
    exists t :: IsWoken(s.waiters, t)
  }

  /** While the mutex is free and tasks are parked, a woken task is about to retry. */
  ghost predicate Covered(s: State) {
    s.owner.None? && SomeParked(s.waiters) ==> SomeoneWoken(s)
  }

  /** A release keeps the mutex, or it reaches someone: the handle it pops is of a parked task, or nobody is parked,
      or a woken task is already there. */
  ghost predicate Heard(s: State) {
    || s.count > 1
    || (s.queue != [] && IsParked(s.waiters, s.queue[Next(s.queue)].id))
    || !SomeParked(s.waiters)
    || SomeoneWoken(s)
  }

  /** No step but a release can leave a free mutex without a taker, stray wakeups included. */
  lemma StepKeepsCovered(s: State, step: Step)
    requires Covered(s) && Enabled(s, step) && !step.Release?
    ensures Covered(Apply(s, step))
  {
    var s' := Apply(s, step);
    if s.owner.None? && s'.owner.None? && SomeParked(s'.waiters) {
      var t :| IsParked(s'.waiters, t);
      assert IsParked(s.waiters, t);
      var w :| IsWoken(s.waiters, w);
      assert IsWoken(s'.waiters, w);
    }
  }

  /** A release leaves a free mutex with a taker exactly if it is heard. */
  lemma ReleaseCovered(s: State, t: int)
    requires Covered(s) && Enabled(s, Release(t))
    ensures Covered(ApplyRelease(s)) <==> Heard(s)
  {
    hide Next;
    var s' := ApplyRelease(s);
    if s.count <= 1 {
      if s.queue != [] && IsParked(s.waiters, s.queue[Next(s.queue)].id) {
        assert IsWoken(s'.waiters, s.queue[Next(s.queue)].id);
      } else {
        assert s'.waiters == s.waiters;
        assert forall u ::
                 (IsParked(s'.waiters, u) <==> IsParked(s.waiters, u))
                 && (IsWoken(s'.waiters, u) <==> IsWoken(s.waiters, u));
      }
    }
  }

  ghost predicate AlwaysCovered(s: State, steps: seq<Step>)
    requires Runs(s, steps)
    decreases |steps|
  {
    Covered(s) && (steps != [] ==> AlwaysCovered(Apply(s, steps[0]), steps[1..]))
  }

  ghost predicate AllHeard(s: State, steps: seq<Step>)
    requires Runs(s, steps)
    decreases |steps|
  {
    steps != [] ==> (steps[0].Release? ==> Heard(s)) && AllHeard(Apply(s, steps[0]), steps[1..])
  }

  /** Over any run, with any stray wakeups: a free mutex with a parked task always has a woken task that is about to
      take it, exactly if each release is heard. */
  lemma {:induction false} NoLostRelease(s: State, steps: seq<Step>)
    requires Runs(s, steps) && Covered(s)
    ensures AlwaysCovered(s, steps) <==> AllHeard(s, steps)
    decreases |steps|
  {
    hide Covered, Heard, Apply, Enabled;
    if steps != [] {
      var s' := Apply(s, steps[0]);
      if steps[0].Release? { ReleaseStep(s, steps[0].task); } else { StepKeepsCovered(s, steps[0]); }
      if Covered(s') { NoLostRelease(s', steps[1..]); } else { NotAlways(s', steps[1..]); }
    }
  }

  lemma ReleaseStep(s: State, t: int)
    requires Covered(s) && Enabled(s, Release(t))
    ensures Covered(Apply(s, Release(t))) <==> Heard(s)
  {
    hide Covered, Heard;
    ReleaseCovered(s, t);
  }

  lemma NotAlways(s: State, steps: seq<Step>)
    requires Runs(s, steps) && !Covered(s)
    ensures !AlwaysCovered(s, steps)
  {
  }

  // Without stray wakeups every release is heard

  lemma StepKeepsQueue(s: State, step: Step)
    requires QueueInv(s.queue, s.waiters) && Enabled(s, step) && !step.Disturb?
    ensures QueueInv(Apply(s, step).queue, Apply(s, step).waiters)
    ensures step.Release? ==> Heard(s)
  {
    hide Next, Without;
    match step
    case Attempt(t) => if s.owner != Some(t) && s.owner.Some? { ParkKeepsQueue(s.queue, s.waiters, t); }
    case Release(_) => if s.queue != [] && s.count <= 1 { PopKeepsQueue(s.queue, s.waiters, Next(s.queue)); }
    case _ =>
  }

  /** A run without stray wakeups loses no release. */
  lemma {:induction false} QuietRunIsHeard(s: State, steps: seq<Step>)
    requires QueueInv(s.queue, s.waiters) && Runs(s, steps) && forall i :: 0 <= i < |steps| ==> !steps[i].Disturb?
    ensures AllHeard(s, steps)
    decreases |steps|
  {
    hide QueueInv, Heard, Apply, Enabled;
    if steps != [] {
      StepKeepsQueue(s, steps[0]);
      QuietRunIsHeard(Apply(s, steps[0]), steps[1..]);
    }
  }

  lemma InitialCovered()
    ensures Covered(Initial) && QueueInv(Initial.queue, Initial.waiters)
  {
  }

  lemma QuietRunLosesNothing(steps: seq<Step>)
    requires Runs(Initial, steps) && forall i :: 0 <= i < |steps| ==> !steps[i].Disturb?
    ensures AlwaysCovered(Initial, steps)
  {
    hide Runs, Covered, QueueInv, AlwaysCovered, AllHeard;
    InitialCovered();
    QuietRunIsHeard(Initial, steps);
    NoLostRelease(Initial, steps);
  }

  // With a stray wakeup

  lemma OneMore(s: State, step: Step, steps: seq<Step>, s': State)
    requires Enabled(s, step) && Runs(Apply(s, step), steps) && After(Apply(s, step), steps) == s'
    ensures Runs(s, [step] + steps) && After(s, [step] + steps) == s'
  {
    assert ([step] + steps)[1..] == steps;
  }

  /** A task woken by mistake queues itself again; once it has acquired, its own release pops its second handle, and the
      task behind it stays parked although the mutex is free and nobody is coming. */
  lemma StrayWakeupLosesRelease() returns (steps: seq<Step>, s: State)
    ensures Runs(Initial, steps) && After(Initial, steps) == s
    ensures s.owner.None? && SomeParked(s.waiters) && !SomeoneWoken(s) && !Covered(s)
  {
    hide Next, Without;
    var a, b := Handle(1, 0, 0), Handle(2, 0, 0);
    FrontFirst(a, a);
    FrontFirst(a, b);
    var s1 := Apply(Initial, Begin(b));
    var s2 := Apply(s1, Attempt(2));
    var s3 := Apply(s2, Begin(a));
    var s4 := Apply(s3, Attempt(1));
    var s5 := Apply(s4, Disturb(1));
    var s6 := Apply(s5, Attempt(1));
    assert s6 == State(Some(2), 1, [a, a], map[1 := Waiter(a, Parked)]);
    var s7 := Apply(s6, Release(2));
    assert s7 == State(None, 0, [a], map[1 := Waiter(a, Trying(true))]);
    var s8 := Apply(s7, Attempt(1));
    var s9 := Apply(s8, Begin(b));
    var s10 := Apply(s9, Attempt(2));
    assert s10 == State(Some(1), 1, [a, b], map[2 := Waiter(b, Parked)]);
    s := Apply(s10, Release(1));
    assert s == State(None, 0, [b], map[2 := Waiter(b, Parked)]);
    assert IsParked(s.waiters, 2);
    steps := [];
    hide Apply, Enabled;
    OneMore(s10, Release(1), steps, s);
    steps := [Release(1)] + steps;
    OneMore(s9, Attempt(2), steps, s);
    steps := [Attempt(2)] + steps;
    OneMore(s8, Begin(b), steps, s);
    steps := [Begin(b)] + steps;
    OneMore(s7, Attempt(1), steps, s);
    steps := [Attempt(1)] + steps;
    OneMore(s6, Release(2), steps, s);
    steps := [Release(2)] + steps;
    OneMore(s5, Attempt(1), steps, s);
    steps := [Attempt(1)] + steps;
    OneMore(s4, Disturb(1), steps, s);
    steps := [Disturb(1)] + steps;
    OneMore(s3, Attempt(1), steps, s);
    steps := [Attempt(1)] + steps;
    OneMore(s2, Begin(a), steps, s);
    steps := [Begin(a)] + steps;
    OneMore(s1, Attempt(2), steps, s);
    steps := [Attempt(2)] + steps;
    OneMore(Initial, Begin(b), steps, s);
    steps := [Begin(b)] + steps;
  }

  // Imperative form

  class RecursiveMutex {
    var owner: Option<int>
    var count: nat
    const queue: TaskHandlePriorityQueue
    ghost var world: State

    ghost function View(): State
      reads this, queue
    {
      world.(owner := owner, count := count, queue := queue.arrivals)
    }

    ghost predicate Valid()
      reads this, queue, queue.queues
    {
      queue.Valid()
    }

    constructor ()
      ensures Valid() && View() == Initial && fresh(queue) && fresh(queue.queues)
    {
      owner, count := None, 0;
      queue := new TaskHandlePriorityQueue();
      world := Initial;
    }

    /** One turn of `acquire`: done, or blocked. */
    method Attempt(task: Handle) returns (acquired: bool)
      requires Valid() && task.id in View().waiters && View().waiters[task.id].handle == task
               && task.prio < NO_PRIORITIES
      modifies this, queue, queue.queues
      ensures Valid() && View() == ApplyAttempt(old(View()), task.id)
      ensures acquired <==> old(owner).None? || old(owner) == Some(task.id)
      ensures acquired ==> owner == Some(task.id)
    {
      ghost var s := View();
      acquired := false;
      if owner.Some? {
        if owner.value == task.id {
          count := count + 1;
          acquired := true;
        }
      } else {
        owner, count := Some(task.id), 1;
        acquired := true;
      }
      if !acquired { queue.Push(task); }
      world := ApplyAttempt(s, task.id);
    }

    method Release() returns (wake: Option<Handle>)
      requires Valid()
      modifies this, queue, queue.queues
      ensures Valid() && View() == ApplyRelease(old(View()))
      ensures count > 0 ==> owner == old(owner)
      ensures count == 0 ==> owner.None?
      ensures wake == if old(count) > 1 || old(queue.arrivals) == [] then None
              else Some(old(queue.arrivals)[Next(old(queue.arrivals))])
    {
      hide Next;
      ghost var s := View();
      wake := None;
      if count > 0 { count := count - 1; }
      if count == 0 {
        owner := None;
        wake := queue.Pop();
      }
      world := ApplyRelease(s);
    }
  }
}

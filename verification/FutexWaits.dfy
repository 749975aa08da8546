/** What becomes of a futex wait: when it sleeps on, returns or times out, over every run. */
module FutexWaits {
  import opened Numbers
  import opened Options
  import opened TaskQueue
  import opened Futex

  // A turn of the loop in a wait

  /** Neither woken nor out of time. */
  predicate StillWaits(s: State, t: int)
    requires t in s.waits
  {
    var w := s.waits[t];
    w.ticket !in s.popped && (w.wakeup.None? || s.now < w.wakeup.value)
  }

  /** A wait goes on exactly while no wake has popped it and its time has not come: it then sleeps again, until the same
      time and at the same place of its queue. Otherwise it returns 0 if it was popped, and ETIMEDOUT if not. */
  lemma ResumeDecides(s: State, t: int)
    requires Reachable(s) && Enabled(s, Resume(t))
    ensures var (s', r) := ApplyResume(s, t);
            && (r.None? <==> StillWaits(s, t))
            && (r.None? ==> s' == s.(blocked := s.blocked[t := s.waits[t].wakeup]) && Queued(s', t))
            && (r.Some? ==> r.value == (if s.waits[t].ticket in s.popped then 0 else -ETIMEDOUT)
                            && s'.waits == s.waits - {t} && s'.blocked == s.blocked
                            && s'.returned == s.returned[s.waits[t].ticket := r.value])
  {
    hide Reachable, Inv, Contains, RemoveAll;
    ReachableInv(s);
    ContainsIsQueued(s, t);
  }

  /** A wait that returns takes nobody else out of the lot, and nobody loses their turn. */
  lemma ResumeKeepsOthers(s: State, t: int)
    requires Reachable(s) && Enabled(s, Resume(t))
    ensures var s' := ApplyResume(s, t).0;
            && s'.words == s.words && s'.inbox == s.inbox && s'.popped == s.popped && s'.now == s.now
            && (forall a :: a != s.waits[t].address ==> QueueAt(s', a) == QueueAt(s, a))
            && (StillWaits(s, t) || s.waits[t].ticket in s.popped ==> s'.lot == s.lot)
            && (!StillWaits(s, t) && s.waits[t].ticket !in s.popped ==>
                  exists i :: LeavesAt(QueueAt(s, s.waits[t].address), QueueAt(s', s.waits[t].address), i, t))
  {
    hide Reachable, Inv, Contains, RemoveAll, LeavesAt;
    ReachableInv(s);
    ContainsIsQueued(s, t);
    var w := s.waits[t];
    if Queued(s, t) {
      QueuedLeaves(s, t);
      var q, s' := s.lot[w.address], ApplyResume(s, t).0;
      var i :| LeavesAt(q, RemoveAll(q, w.handle), i, t);
      assert !StillWaits(s, t) ==> QueueAt(s', w.address) == RemoveAll(q, w.handle);
      assert !StillWaits(s, t) ==> LeavesAt(q, QueueAt(s', w.address), i, t);
    } else if w.address in s.lot {
      NothingToRemove(s, w.address, w.handle);
    }
  }

  lemma QueuedLeaves(s: State, t: int)
    requires Inv(s) && t in s.waits && Queued(s, t)
    ensures s.waits[t].address in s.lot
    ensures var q := s.lot[s.waits[t].address]; exists i :: LeavesAt(q, RemoveAll(q, s.waits[t].handle), i, t)
  {
    hide RemoveAll, Contains;
    var w := s.waits[t];
    var q := s.lot[w.address];
    assert WaitInv(s, t) && QueueInv(s, w.address, q);
    var i :| 0 <= i < |q| && q[i] == w.handle;
    RemovedAt(q, i);
    assert LeavesAt(q, RemoveAll(q, w.handle), i, t);
  }

  /** The queue without the entry of task t at position i. */
  predicate LeavesAt(q: seq<Handle>, q': seq<Handle>, i: int, t: int) {
    0 <= i < |q| && q[i].id == t && q' == Without(q, i)
  }

  lemma {:induction false} RemovedAt(q: seq<Handle>, i: nat)
    requires i < |q| && DistinctIds(q)
    ensures RemoveAll(q, q[i]) == Without(q, i)
  {
    var n := |q| - 1;
    if i < n {
      RemovedAt(q[..n], i);
      assert Without(q, i) == Without(q[..n], i) + [q[n]];
    } else {
      assert !Contains(q[..n], q[n]);
      RemoveNothing(q[..n], q[n]);
    }
  }

  // Over runs

  /** A turn of a wait leaves the words, the time and the other waits alone and never adds a queue to the lot. */
  lemma ResumeFrame(s: State, t: int)
    requires t in s.waits
    ensures var s' := ApplyResume(s, t).0;
            && s'.words == s.words && s'.now == s.now && s'.tickets == s.tickets && s'.lot.Keys <= s.lot.Keys
            && (s'.waits == s.waits || s'.waits == s.waits - {t})
  {
    hide Contains, RemoveAll;
  }

  /** Time goes on, and a wait keeps its address, its time, its handle and its number until it returns. */
  lemma WaitStays(s: State, step: Step, t: int, k: nat)
    requires Inv(s) && Enabled(s, step) && k < s.tickets
    requires t in Apply(s, step).waits && Apply(s, step).waits[t].ticket == k
    ensures t in s.waits && s.waits[t] == Apply(s, step).waits[t]
  {
    hide Inv, ApplyWake, ApplyResume, WakeupTime;
    match step
    case Resume(u) => ResumeFrame(s, u);
    case WakeUp(core, a, count) => WakeKeepsRest(s, core, a, count);
    case WakeOrSet(core, a, count, _) => WakeKeepsRest(s, core, a, count);
    case _ =>
  }

  lemma {:induction false} LoopKeepsRest(s: State, core: nat, q: seq<Handle>, count: int, woken: int)
    requires 0 <= woken <= I32_MAX
    ensures var s' := WakeLoop(s, core, q, count, woken).0;
            s'.waits == s.waits && s'.now == s.now && s'.tickets == s.tickets && s'.returned == s.returned
            && s'.words == s.words
    decreases |q|
  {
    if (woken != count || count == I32_MAX) && q != [] {
      LoopKeepsRest(Popped(s, core, q[Next(q)]), core, Without(q, Next(q)), count, SaturatingSucc(woken));
    }
  }

  lemma WakeKeepsRest(s: State, core: nat, a: Address, count: int)
    ensures var s' := ApplyWake(s, core, a, count).0;
            s'.waits == s.waits && s'.now == s.now && s'.tickets == s.tickets && s'.returned == s.returned
            && s'.words == s.words
  {
    hide WakeLoop;
    if count >= 0 && a in s.lot { LoopKeepsRest(s, core, s.lot[a], count, 0); }
  }

  lemma TimeGoesOn(s: State, step: Step)
    requires Enabled(s, step)
    ensures s.now <= Apply(s, step).now && s.tickets <= Apply(s, step).tickets
  {
    hide ApplyWake, ApplyResume, WakeupTime;
    match step
    case Resume(u) => ResumeFrame(s, u);
    case WakeUp(core, a, count) => WakeKeepsRest(s, core, a, count);
    case WakeOrSet(core, a, count, _) => WakeKeepsRest(s, core, a, count);
    case _ =>
  }

  lemma {:induction false} SameWait(s: State, steps: seq<Step>, s': State, t: int, k: nat)
    requires Inv(s) && Reaches(s, steps, s') && k < s.tickets && t in s'.waits && s'.waits[t].ticket == k
    ensures t in s.waits && s.waits[t] == s'.waits[t] && s.now <= s'.now
    decreases |steps|
  {
    hide Inv, Apply, Enabled;
    if steps != [] {
      StepKeepsInv(s, steps[0]);
      TimeGoesOn(s, steps[0]);
      SameWait(Apply(s, steps[0]), steps[1..], s', t, k);
      WaitStays(s, steps[0], t, k);
    }
  }

  /** The time asked for has come: an absolute time, or that much after `since`, which must fit 64 bits. */
  predicate TimeHasCome(timeout: Option<nat>, relative: bool, since: nat, now: nat) {
    timeout.Some? && if relative then now - since >= timeout.value && since + timeout.value <= U64_MAX
                     else now >= timeout.value
  }

  /** From parking to its end, whatever happens meanwhile: a wait sleeps on exactly until a wake pops it or the time it
      was given when it parked has come. */
  lemma WaitLastsUntilItsTime(s0: State, park: Step, steps: seq<Step>, s: State)
    requires Reachable(s0) && park.Park? && Enabled(s0, park) && Word(s0, park.address) == park.expected
    requires Reaches(Apply(s0, park), steps, s) && Enabled(s, Resume(park.handle.id))
             && s.waits[park.handle.id].ticket == s0.tickets
    ensures ApplyResume(s, park.handle.id).1.None?
            <==> s0.tickets !in s.popped && !TimeHasCome(park.timeout, park.relative, s0.now, s.now)
    ensures s0.tickets in s.popped ==> ApplyResume(s, park.handle.id).1 == Some(0)
    ensures ApplyResume(s, park.handle.id).1 in {None, Some(0), Some(-ETIMEDOUT)}
  {
    hide Reaches, Inv, ApplyResume;
    ReachableInv(s0);
    StepKeepsInv(s0, park);
    var s1, t := Apply(s0, park), park.handle.id;
    SameWait(s1, steps, s, t, s0.tickets);
    ReachesFurther(s0, park, steps, s);
    ResumeDecides(s, t);
  }

  lemma {:induction false} RunsJoin(s: State, a: seq<Step>, s1: State, b: seq<Step>, s': State)
    requires Reaches(s, a, s1) && Reaches(s1, b, s')
    ensures Reaches(s, a + b, s')
    decreases |a|
  {
    hide Apply, Enabled;
    if a == [] {
      assert a + b == b;
    } else {
      RunsJoin(Apply(s, a[0]), a[1..], s1, b, s');
      assert (a + b)[0] == a[0] && (a + b)[1..] == a[1..] + b;
    }
  }

  lemma ReachesFurther(s0: State, step: Step, steps: seq<Step>, s: State)
    requires Reachable(s0) && Enabled(s0, step) && Reaches(Apply(s0, step), steps, s)
    ensures Reachable(s)
  {
    hide Apply, Enabled;
    var before :| Reaches(Initial, before, s0);
    var rest := [step] + steps;
    assert rest[0] == step && rest[1..] == steps;
    assert Reaches(s0, rest, s);
    RunsJoin(Initial, before, s0, rest, s);
  }

  /** Only a turn of a wait itself makes it return. */
  lemma ReturnedBy(s: State, step: Step, k: nat)
    requires Inv(s) && Enabled(s, step) && k !in s.returned && k in Apply(s, step).returned
    ensures step.Resume? && step.task in s.waits && s.waits[step.task].ticket == k
    ensures !StillWaits(s, step.task)
    ensures Apply(s, step).returned[k] == if k in s.popped then 0 else -ETIMEDOUT
  {
    hide Inv, ApplyWake, ApplyResume, WakeupTime;
    match step
    case WakeUp(core, a, count) => WakeKeepsRest(s, core, a, count);
    case WakeOrSet(core, a, count, _) => WakeKeepsRest(s, core, a, count);
    case Resume(t) => TurnReturns(s, t, k);
    case _ =>
  }

  lemma TurnReturns(s: State, t: int, k: nat)
    requires Inv(s) && t in s.waits && k !in s.returned && k in ApplyResume(s, t).0.returned
    ensures s.waits[t].ticket == k && !StillWaits(s, t)
    ensures ApplyResume(s, t).0.returned[k] == if k in s.popped then 0 else -ETIMEDOUT
  {
    hide Inv, Contains, RemoveAll;
    ContainsIsQueued(s, t);
  }

  lemma ReturnedStays(s: State, step: Step, k: nat)
    requires Inv(s) && Enabled(s, step) && k in s.returned
    ensures k in Apply(s, step).returned && Apply(s, step).returned[k] == s.returned[k]
  {
    hide QueueInv, ApplyWake, RemoveAll, Contains;
    match step
    case WakeUp(core, a, count) => WakeKeepsRest(s, core, a, count);
    case WakeOrSet(core, a, count, _) => WakeKeepsRest(s, core, a, count);
    case Resume(t) => assert WaitInv(s, t);
    case _ =>
  }

  lemma {:induction false} AlreadyReturned(s: State, steps: seq<Step>, s': State, k: nat)
    requires Inv(s) && Reaches(s, steps, s') && k in s.returned
    ensures k in s'.returned && s'.returned[k] == s.returned[k]
    decreases |steps|
  {
    hide Inv, Apply, Enabled;
    if steps != [] {
      StepKeepsInv(s, steps[0]);
      ReturnedStays(s, steps[0], k);
      AlreadyReturned(Apply(s, steps[0]), steps[1..], s', k);
    }
  }

  /** Over every run, a wait that returned ETIMEDOUT had a wakeup time that had come when it returned, and no wake had
      popped it; n is the step at which it returned. */
  lemma {:induction false} TimedOutOnTime(s: State, steps: seq<Step>, s': State, k: nat) returns (n: nat, mid: State)
    requires Inv(s) && Reaches(s, steps, s') && k !in s.returned && k in s'.returned && s'.returned[k] == -ETIMEDOUT
    ensures n < |steps| && Reaches(s, steps[..n], mid) && steps[n].Resume? && steps[n].task in mid.waits
    ensures var w := mid.waits[steps[n].task];
            w.ticket == k && k !in mid.popped && w.wakeup.Some? && w.wakeup.value <= mid.now
    decreases |steps|
  {
    hide Inv, Apply, Enabled;
    var s1 := Apply(s, steps[0]);
    StepKeepsInv(s, steps[0]);
    if k in s1.returned {
      AlreadyReturned(s1, steps[1..], s', k);
      ReturnedBy(s, steps[0], k);
      n, mid := 0, s;
    } else {
      n, mid := TimedOutOnTime(s1, steps[1..], s', k);
      n := n + 1;
      assert steps[..n][0] == steps[0] && steps[..n][1..] == steps[1..][..n - 1];
    }
  }

  // The futex word

  /** What a step writes to the word at a. A wait with a new value writes it even if it does not park, and a wake only
      if it finds nobody or is to wake nobody. */
  function WrittenBy(s: State, step: Step, a: Address): Option<nat> {
    match step
    case Store(b, v) => if b == a then Some(v) else None
    case Park(_, b, _, _, _, newValue) => if b == a then newValue else None
    case WakeOrSet(_, b, count, v) =>
      if b == a && (count == 0 || (count > 0 && QueueAt(s, a) == [])) then Some(v) else None
    case _ => None
  }

  lemma StepWord(s: State, step: Step, a: Address)
    requires Inv(s) && Enabled(s, step) && (step.WakeOrSet? ==> step.count <= I32_MAX)
    ensures Word(Apply(s, step), a) == match WrittenBy(s, step, a) case Some(v) => v case None => Word(s, a)
  {
    hide Inv, ApplyWake, ApplyResume, ApplyWakeOrSet;
    match step
    case Resume(t) => ResumeFrame(s, t);
    case WakeUp(core, b, count) => WakeKeepsRest(s, core, b, count);
    case WakeOrSet(core, b, count, v) => WakeOrSetWord(s, core, b, count, v, a);
    case _ =>
  }

  lemma WakeOrSetWord(s: State, core: nat, b: Address, count: int, v: nat, a: Address)
    requires Inv(s) && count <= I32_MAX
    ensures Word(ApplyWakeOrSet(s, core, b, count, v).0, a)
            == if b == a && (count == 0 || (count > 0 && QueueAt(s, a) == [])) then v else Word(s, a)
  {
    hide Inv, ApplyWake;
    WakeKeepsRest(s, core, b, count);
    if count >= 0 { WakeReturns(s, core, b, count); }
    if b in s.lot { NotEmpty(s, b); }
  }

  lemma NotEmpty(s: State, a: Address)
    requires Inv(s) && a in s.lot
    ensures s.lot[a] != []
  {
  }

  /** The last value written to the word at a in the course of a run. */
  ghost function LastWritten(s: State, steps: seq<Step>, a: Address): Option<nat>
    decreases |steps|
  {
    if steps == [] || !Enabled(s, steps[0]) then None
    else match LastWritten(Apply(s, steps[0]), steps[1..], a)
      case Some(v) => Some(v)
      case None => WrittenBy(s, steps[0], a)
  }

  predicate CountsFit(steps: seq<Step>) {
    forall i :: 0 <= i < |steps| && steps[i].WakeOrSet? ==> steps[i].count <= I32_MAX
  }

  lemma {:induction false} WordIsLastWritten(s: State, steps: seq<Step>, s': State, a: Address)
    requires Inv(s) && Reaches(s, steps, s') && CountsFit(steps)
    ensures Word(s', a) == match LastWritten(s, steps, a) case Some(v) => v case None => Word(s, a)
    decreases |steps|
  {
    hide Inv, Apply, Enabled, Word, WrittenBy;
    if steps != [] {
      StepKeepsInv(s, steps[0]);
      StepWord(s, steps[0], a);
      WordIsLastWritten(Apply(s, steps[0]), steps[1..], s', a);
    }
  }

  /** Over every run, a wait parks exactly if the last value written to its word is the one it expects, and then last in
      the queue; otherwise it returns EAGAIN and nobody sleeps. No store is missed. */
  lemma ParksOnTheLastValue(steps: seq<Step>, s: State, park: Step)
    requires Reaches(Initial, steps, s) && CountsFit(steps) && park.Park? && Enabled(s, park)
    ensures var last := match LastWritten(Initial, steps, park.address) case Some(v) => v case None => 0;
            var (s', r) := ApplyPark(s, park.handle, park.address, park.expected, park.timeout, park.relative,
                                     park.newValue);
            && r == (if last == park.expected then None else Some(-EAGAIN))
            && (r.Some? ==> s' == s.(words := s'.words))
            && (r.None? ==> QueueAt(s', park.address) == QueueAt(s, park.address) + [park.handle]
                            && park.handle.id in s'.blocked && park.handle.id in s'.waits)
            && (forall a :: a != park.address ==> QueueAt(s', a) == QueueAt(s, a))
  {
    hide Reaches, LastWritten, Inv, CountsFit, WakeupTime;
    InitialInv();
    WordIsLastWritten(Initial, steps, s, park.address);
  }

  lemma InitialInv()
    ensures Inv(Initial) && forall a :: Word(Initial, a) == 0
  {
  }

  // Who is woken

  /** A queue in the course of a wake, seen from the wait of task t. */
  ghost predicate Draining(s: State, q: seq<Handle>, t: int) {
    && t in s.waits && s.waits[t].handle.id == t && DistinctIds(q)
    && (forall h :: h in q ==> h.id in s.waits && s.waits[h.id].handle == h)
    && (forall u :: u in s.waits && u != t ==> s.waits[u].ticket != s.waits[t].ticket)
    && (s.waits[t].ticket in s.popped ==> s.waits[t].handle !in q)
  }

  /** A wake loop takes the waits it pops out of the sleepers of its core, and no others. */
  lemma {:induction false} LoopWakesTheTaken(s: State, core: nat, q: seq<Handle>, count: int, woken: int, t: int)
    requires 0 <= woken <= I32_MAX && Draining(s, q, t) && t in s.blocked
    ensures var s', k := WakeLoop(s, core, q, count, woken).0, s.waits[t].ticket;
            t !in s'.blocked <==> k in s'.popped - s.popped && s.waits[t].handle.core == core
    decreases |q|
  {
    hide Draining, Popped;
    if (woken != count || count == I32_MAX) && q != [] {
      var i := Next(q);
      var h, rest, s1 := q[i], Without(q, i), Popped(s, core, q[i]);
      PopSeenBy(s, core, q, i, t);
      LoopPopsMore(s1, core, rest, count, SaturatingSucc(woken));
      if t in s1.blocked {
        LoopWakesTheTaken(s1, core, rest, count, SaturatingSucc(woken), t);
      }
    }
  }

  lemma PopSeenBy(s: State, core: nat, q: seq<Handle>, i: nat, t: int)
    requires i < |q| && Draining(s, q, t) && t in s.blocked
    ensures var s1, w := Popped(s, core, q[i]), s.waits[t];
            && Draining(s1, Without(q, i), t) && s1.waits == s.waits
            && (w.ticket in s1.popped - s.popped <==> q[i] == w.handle)
            && (t !in s1.blocked <==> q[i] == w.handle && w.handle.core == core)
            && s.popped <= s1.popped
  {
    hide Without;
    WithoutMembers(q, i);
    assert q[i] in q;
  }

  lemma {:induction false} LoopPopsMore(s: State, core: nat, q: seq<Handle>, count: int, woken: int)
    requires 0 <= woken <= I32_MAX
    ensures var s' := WakeLoop(s, core, q, count, woken).0;
            s.popped <= s'.popped && forall t :: t in s'.blocked ==> t in s.blocked
    decreases |q|
  {
    if (woken != count || count == I32_MAX) && q != [] {
      LoopPopsMore(Popped(s, core, q[Next(q)]), core, Without(q, Next(q)), count, SaturatingSucc(woken));
    }
  }

  lemma WakeWakesTheTaken(s: State, core: nat, a: Address, count: int, t: int)
    requires Inv(s) && t in s.waits && t in s.blocked
    ensures var s', k := ApplyWake(s, core, a, count).0, s.waits[t].ticket;
            t !in s'.blocked <==> k in s'.popped - s.popped && s.waits[t].handle.core == core
  {
    hide WakeLoop;
    if count >= 0 && a in s.lot {
      assert WaitInv(s, t) && QueueInv(s, a, s.lot[a]);
      assert Draining(s, s.lot[a], t);
      LoopWakesTheTaken(s, core, s.lot[a], count, 0, t);
    }
  }

  /** What takes a sleeping wait out of the blocked list. */
  ghost predicate Rouses(s: State, step: Step, t: int, s': State)
    requires t in s.waits
  {
    var w := s.waits[t];
    match step
    case WakeUp(core, _, _) => w.ticket in s'.popped - s.popped && w.handle.core == core
    case WakeOrSet(core, _, _, _) => w.ticket in s'.popped - s.popped && w.handle.core == core
    case CustomWakeup(core, h) => h.id == t && h.core == core
    case CheckInput(core) => exists h :: h in s.inbox && h.id == t && h.core == core
    case Timer(core) => w.handle.core == core && w.wakeup.Some? && w.wakeup.value < s.now
    case _ => false
  }

  /** A sleeping wait is roused by a wake of its core that pops it, by a wakeup addressed to it that has reached its
      core, or by its own time, and by nothing else. */
  lemma RousedForAReason(s: State, step: Step, t: int)
    requires Reachable(s) && Enabled(s, step) && t in s.waits && t in s.blocked
    ensures t !in Apply(s, step).blocked <==> Rouses(s, step, t, Apply(s, step))
  {
    hide Reachable, ApplyWake, RemoveAll, Contains, LotInv, TicketInv;
    ReachableInv(s);
    assert WaitInv(s, t);
    match step
    case WakeUp(core, a, count) => WakeWakesTheTaken(s, core, a, count, t);
    case WakeOrSet(core, a, count, _) => WakeWakesTheTaken(s, core, a, count, t);
    case _ =>
  }

  /** `futex_wake_or_set` wakes as `futex_wake` does, and both refuse a negative count. */
  lemma WakeOrSetWakes(s: State, core: nat, a: Address, count: int, v: nat)
    requires Reachable(s)
    ensures var (s1, r1) := ApplyWake(s, core, a, count);
            var (s2, r2) := ApplyWakeOrSet(s, core, a, count, v);
            && r2 == r1 && s2 == s1.(words := s2.words)
            && (count < 0 ==> r1 == -EINVAL && s1 == s && s2 == s)
            && (count >= 0 ==> r1 >= 0)
            && (count >= 0 && r1 == 0 ==> s2.words == s.words[a := v])
            && (r1 != 0 ==> s2.words == s.words)
  {
    hide WakeLoop, Reachable;
    WakeKeepsRest(s, core, a, count);
  }
}

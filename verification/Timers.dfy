/** One hardware timer shared by two sources, and the sleeping tasks that rely on it. */
module Timers {
  import opened Options
  import opened Scheduler

  const UNSET: nat := 0xffff_ffff_ffff_ffff     // the largest u64, for a slot without timer

  datatype Source = Network | ForScheduler

  /** Wakeup times of the slots, and what the hardware timer is set to. */
  datatype TimerState = TimerState(network: nat, scheduler: nat, hardware: Option<nat>)

  const NoTimers := TimerState(UNSET, UNSET, None)

  function Slot(s: TimerState, source: Source): nat {
    if source.Network? then s.network else s.scheduler
  }

  function SetSlot(s: TimerState, source: Source, t: nat): TimerState {
    if source.Network? then s.(network := t) else s.(scheduler := t)
  }

  /** The source of the next timer to fire; the first slot wins a tie. */
  function Active(s: TimerState): Source {
    if s.network <= s.scheduler then Network else ForScheduler
  }

  function Lowest(s: TimerState): nat {
    Slot(s, Active(s))
  }

  predicate InU64(s: TimerState) {
    s.network <= UNSET && s.scheduler <= UNSET
  }

  /** The hardware timer is the earliest pending one, or off. */
  predicate Armed(s: TimerState) {
    InU64(s) && s.hardware == if Lowest(s) == UNSET then None else Some(Lowest(s))
  }

  function Create(s: TimerState, source: Source, t: nat): TimerState {
    var s1 := SetSlot(s, source, if Slot(s, source) < t then Slot(s, source) else t);
    if Lowest(s1) == t then s1.(hardware := Some(t)) else s1
  }

  /** Brings a pending timer forward. */
  function Adjusted(t: nat, offset: nat): nat
    requires t == UNSET || offset <= t
  {
    if t == UNSET then t else t - offset
  }

  function Offset(fired: nat, now: nat): nat {
    if fired > now then fired - now else 0
  }

  /** The timer that fired is cleared; if it fired early, the other is brought forward by as much. */
  function Fired(s: TimerState, now: nat): TimerState
    requires Lowest(s) != UNSET
  {
    var fired := Lowest(s);
    var s1 := SetSlot(s, Active(s), UNSET);
    var s2 := s1.(network := Adjusted(s1.network, Offset(fired, now)),
                  scheduler := Adjusted(s1.scheduler, Offset(fired, now)));
    s2.(hardware := if Lowest(s2) == UNSET then None else Some(Lowest(s2)))
  }

  /** Creating a timer keeps the hardware right exactly if it is not a timer for never while none is pending. */
  lemma CreateKeepsArmed(s: TimerState, source: Source, t: nat)
    requires Armed(s) && t <= UNSET
    ensures Armed(Create(s, source, t)) <==> !(t == UNSET && Lowest(s) == UNSET)
    ensures t < UNSET ==> Slot(Create(s, source, t), source) <= t
  {
  }

  function Other(source: Source): Source {
    if source.Network? then ForScheduler else Network
  }

  /** Creating a timer leaves the other source's timer alone and makes its own the earlier of old and new; the hardware
      then fires at the earlier of the two. */
  lemma CreateChangesOneSlot(s: TimerState, source: Source, t: nat)
    requires Armed(s) && t < UNSET
    ensures var s' := Create(s, source, t);
            && Slot(s', Other(source)) == Slot(s, Other(source))
            && Slot(s', source) == (if t < Slot(s, source) then t else Slot(s, source))
            && s'.hardware.Some? && s'.hardware.value <= s'.network && s'.hardware.value <= s'.scheduler
            && (s'.hardware.value == s'.network || s'.hardware.value == s'.scheduler)
  {
  }

  lemma NeverTimerArmsHardware()
    ensures Armed(NoTimers) && Create(NoTimers, Network, UNSET).hardware == Some(UNSET)
            && !Armed(Create(NoTimers, Network, UNSET))
  {
  }

  /** Firing keeps the hardware right. The other timer stays pending if it was, never moves before now or later than it
      was, and does not fall below zero; if the first one fired early, the other is as far ahead of now as it was behind
      the first; a slot that was not set stays so. */
  lemma FiredKeepsArmed(s: TimerState, now: nat)
    requires Armed(s) && s.hardware.Some?
    ensures Lowest(s) != UNSET && Armed(Fired(s, now)) && Slot(Fired(s, now), Active(s)) == UNSET
    ensures var other := if Active(s).Network? then ForScheduler else Network;
            var before, after := Slot(s, other), Slot(Fired(s, now), other);
            (before == UNSET <==> after == UNSET)
            && (before != UNSET ==>
                  after <= before && (Lowest(s) > now ==> after >= now && after - now == before - Lowest(s))
                  && (Lowest(s) <= now ==> after == before))
  {
  }

  class TimerList {
    const slots: array<nat>
    var hardware: Option<nat>

    ghost predicate Valid()
      reads this, slots
    {
      slots.Length == 2 && InU64(View())
    }

    ghost function View(): TimerState
      requires slots.Length == 2
      reads this, slots
    {
      TimerState(slots[0], slots[1], hardware)
    }

    constructor ()
      ensures Valid() && View() == NoTimers && fresh(slots)
    {
      slots := new nat[2](i => UNSET);
      hardware := None;
    }

    /** The index of the slot that fires next, which may be one that is not set. */
    method NextTimer() returns (i: nat)
      requires Valid()
      ensures i < 2 && (forall j :: 0 <= j < 2 ==> slots[i] <= slots[j])
      ensures slots[i] == Lowest(View()) && (i == 0 <==> Active(View()).Network?)
    {
      i := 0;
      for j := 1 to 2
        invariant i < j && (forall k :: 0 <= k < j ==> slots[i] <= slots[k])
        invariant forall k :: 0 <= k < i ==> slots[i] < slots[k]
      {
        if slots[j] < slots[i] { i := j; }
      }
    }

    method CreateTimerAbs(source: Source, t: nat)
      requires Valid() && t <= UNSET
      modifies this, slots
      ensures Valid() && View() == Create(old(View()), source, t)
    {
      var i := if source.Network? then 0 else 1;
      slots[i] := if slots[i] < t then slots[i] else t;
      var next := NextTimer();
      if slots[next] == t { hardware := Some(t); }
    }

    method AdjustBy(offset: nat)
      requires Valid() && forall i :: 0 <= i < 2 ==> slots[i] == UNSET || offset <= slots[i]
      modifies slots
      ensures Valid()
      ensures View() == old(View()).(network := Adjusted(old(slots[0]), offset),
                                     scheduler := Adjusted(old(slots[1]), offset))
    {
      for i := 0 to 2
        invariant forall k :: 0 <= k < i ==> slots[k] == Adjusted(old(slots[k]), offset)
        invariant forall k :: i <= k < 2 ==> slots[k] == old(slots[k])
      {
        if slots[i] != UNSET { slots[i] := slots[i] - offset; }
      }
    }

    method ClearActiveAndSetNext(now: nat)
      requires Valid() && Lowest(View()) != UNSET
      modifies this, slots
      ensures Valid() && View() == Fired(old(View()), now)
    {
      var lowest := NextTimer();
      var fired := slots[lowest];
      slots[lowest] := UNSET;
      if fired > now { AdjustBy(fired - now); }
      var next := NextTimer();
      hardware := if slots[next] == UNSET then None else Some(slots[next]);
    }
  }

  // Sleeping tasks

  /** `handling` holds from the timer interrupt until the sleepers have been looked at. */
  datatype Clock = Clock(timers: TimerState, blocked: seq<Sleeper>, handling: bool)

  datatype Event =
    | NetworkTimer(t: nat)
    | Sleep(sleeper: Sleeper)
    | WakeUp(id: int)
    | Interrupt(now: nat)
    | HandleWaiting(now: nat)

  /** Wakeup times are finite; the hardware fires only while it is set. */
  predicate CanHappen(c: Clock, e: Event) {
    match e
    case NetworkTimer(t) => t < UNSET
    case Sleep(x) => x.wakeup.Some? ==> x.wakeup.value < UNSET
    case WakeUp(_) => true
    case Interrupt(_) => c.timers.hardware.Some? && Lowest(c.timers) != UNSET
    case HandleWaiting(_) => true
  }

  /** Sets a timer for a sleeper, if it has a wakeup time. */
  function TimerFor(s: TimerState, wakeup: Option<nat>): TimerState {
    if wakeup.Some? then Create(s, ForScheduler, wakeup.value) else s
  }

  function Happen(c: Clock, e: Event): Clock
    requires CanHappen(c, e)
  {
    match e
    case NetworkTimer(t) => c.(timers := Create(c.timers, Network, t))
    case Sleep(x) => c.(blocked := AddSleeper(c.blocked, x), timers := TimerFor(c.timers, x.wakeup))
    case WakeUp(id) =>
      var i := Find(c.blocked, id);
      if i == |c.blocked| then c
      else
        var rest := c.blocked[..i] + c.blocked[i + 1..];
        c.(blocked := rest, timers := if i == 0 && rest != [] then TimerFor(c.timers, rest[0].wakeup) else c.timers)
    case Interrupt(now) => c.(timers := Fired(c.timers, now), handling := true)
    case HandleWaiting(now) =>
      var rest := StillAsleep(c.blocked, now);
      c.(blocked := rest, handling := false,
         timers := if rest != [] then TimerFor(c.timers, rest[0].wakeup) else c.timers)
  }

  /** The scheduler's timer is not later than the first sleeper's wakeup time. */
  ghost predicate ClockInv(c: Clock) {
    && Armed(c.timers) && Sorted(c.blocked)
    && (forall i :: 0 <= i < |c.blocked| && c.blocked[i].wakeup.Some? ==> c.blocked[i].wakeup.value < UNSET)
    && (!c.handling && c.blocked != [] && c.blocked[0].wakeup.Some? ==> c.timers.scheduler <= c.blocked[0].wakeup.value)
  }

  lemma TimerForKeepsArmed(s: TimerState, wakeup: Option<nat>)
    requires Armed(s) && (wakeup.Some? ==> wakeup.value < UNSET)
    ensures Armed(TimerFor(s, wakeup)) && TimerFor(s, wakeup).scheduler <= s.scheduler
    ensures wakeup.Some? ==> TimerFor(s, wakeup).scheduler <= wakeup.value
  {
    if wakeup.Some? { CreateKeepsArmed(s, ForScheduler, wakeup.value); }
  }

  lemma {:induction false} StillAsleepKeeps(q: seq<Sleeper>, now: nat)
    ensures forall x :: x in StillAsleep(q, now) ==> x in q
    ensures Sorted(q) ==> Sorted(StillAsleep(q, now))
  {
    if q != [] {
      StillAsleepKeeps(q[1..], now);
      if Sorted(q) {
        forall i, j | 0 <= i < j < |q[1..]|
          ensures !Before(q[1..][j].wakeup, q[1..][i].wakeup)
        {
          assert !Before(q[j + 1].wakeup, q[i + 1].wakeup);
        }
        FrontBefore(q, StillAsleep(q[1..], now));
      }
    }
  }

  lemma FrontBefore(q: seq<Sleeper>, rest: seq<Sleeper>)
    requires q != [] && Sorted(q) && Sorted(rest) && forall x :: x in rest ==> x in q[1..]
    ensures Sorted([q[0]] + rest)
  {
    forall j | 0 <= j < |rest|
      ensures !Before(rest[j].wakeup, q[0].wakeup)
    {
      assert rest[j] in q[1..];
      var k :| 0 <= k < |q[1..]| && q[1..][k] == rest[j];
      assert rest[j] == q[k + 1];
    }
  }

  lemma StepKeepsClockInv(c: Clock, e: Event)
    requires ClockInv(c) && CanHappen(c, e)
    ensures ClockInv(Happen(c, e))
  {
    hide Armed, Create, Fired, Sorted, Insertion;
    match e
    case NetworkTimer(t) => NetworkKeepsScheduler(c.timers, t);
    case Sleep(x) =>
      TimerForKeepsArmed(c.timers, x.wakeup);
      AddKeepsSorted(c.blocked, x);
      AddFront(c.blocked, x);
    case WakeUp(id) => WakeUpKeepsClockInv(c, id);
    case Interrupt(now) => FiredKeepsArmed(c.timers, now);
    case HandleWaiting(now) => HandlingKeepsClockInv(c, now);
  }

  lemma WakeUpKeepsClockInv(c: Clock, id: int)
    requires ClockInv(c)
    ensures ClockInv(Happen(c, WakeUp(id)))
  {
    hide Armed, Create, Sorted;
    var i := Find(c.blocked, id);
    if i < |c.blocked| {
      SleepersWithout(c.blocked, i);
      RemovedFront(c.blocked, i);
      var rest := c.blocked[..i] + c.blocked[i + 1..];
      TimesStayFinite(c.blocked, rest);
      if i == 0 && rest != [] { TimerForKeepsArmed(c.timers, rest[0].wakeup); }
    }
  }

  lemma HandlingKeepsClockInv(c: Clock, now: nat)
    requires ClockInv(c)
    ensures ClockInv(Happen(c, HandleWaiting(now)))
  {
    hide Armed, Create, Sorted;
    StillAsleepKeeps(c.blocked, now);
    var rest := StillAsleep(c.blocked, now);
    TimesStayFinite(c.blocked, rest);
    if rest != [] { TimerForKeepsArmed(c.timers, rest[0].wakeup); }
  }

  lemma TimesStayFinite(q: seq<Sleeper>, rest: seq<Sleeper>)
    requires forall i :: 0 <= i < |q| && q[i].wakeup.Some? ==> q[i].wakeup.value < UNSET
    requires forall x :: x in rest ==> x in q
    ensures forall i :: 0 <= i < |rest| && rest[i].wakeup.Some? ==> rest[i].wakeup.value < UNSET
  {
    forall i | 0 <= i < |rest| && rest[i].wakeup.Some?
      ensures rest[i].wakeup.value < UNSET
    {
      assert rest[i] in q;
    }
  }

  lemma NetworkKeepsScheduler(s: TimerState, t: nat)
    requires Armed(s) && t < UNSET
    ensures Armed(Create(s, Network, t)) && Create(s, Network, t).scheduler == s.scheduler
  {
  }

  lemma AddFront(q: seq<Sleeper>, x: Sleeper)
    ensures AddSleeper(q, x)[0] == x || (q != [] && AddSleeper(q, x)[0] == q[0])
    ensures forall y :: y in AddSleeper(q, x) ==> y == x || y in q
  {
  }

  lemma RemovedFront(q: seq<Sleeper>, i: nat)
    requires i < |q|
    ensures forall y :: y in q[..i] + q[i + 1..] ==> y in q
    ensures i > 0 ==> (q[..i] + q[i + 1..])[0] == q[0]
  {
  }

  ghost predicate Happens(c: Clock, events: seq<Event>, c': Clock)
    decreases |events|
  {
    if events == [] then c' == c else CanHappen(c, events[0]) && Happens(Happen(c, events[0]), events[1..], c')
  }

  lemma {:induction false} RunKeepsClockInv(c: Clock, events: seq<Event>, c': Clock)
    requires ClockInv(c) && Happens(c, events, c')
    ensures ClockInv(c')
    decreases |events|
  {
    hide ClockInv, Happen;
    if events != [] {
      StepKeepsClockInv(c, events[0]);
      RunKeepsClockInv(Happen(c, events[0]), events[1..], c');
    }
  }

  /** Nobody oversleeps: outside the interrupt handler the hardware is set to fire no later than any sleeper's wakeup
      time. An interrupt therefore always finds a timer that is set. */
  lemma NobodyOversleeps(events: seq<Event>, c: Clock, i: nat)
    requires Happens(Clock(NoTimers, [], false), events, c) && !c.handling && i < |c.blocked|
             && c.blocked[i].wakeup.Some?
    ensures c.timers.hardware.Some? && c.timers.hardware.value <= c.blocked[i].wakeup.value
  {
    hide Happens;
    RunKeepsClockInv(Clock(NoTimers, [], false), events, c);
    assert i == 0 || !Before(c.blocked[i].wakeup, c.blocked[0].wakeup);
  }

  lemma InterruptFindsTimer(events: seq<Event>, c: Clock)
    requires Happens(Clock(NoTimers, [], false), events, c) && c.timers.hardware.Some?
    ensures Lowest(c.timers) != UNSET && c.timers.hardware.value == Lowest(c.timers)
  {
    hide Happens;
    RunKeepsClockInv(Clock(NoTimers, [], false), events, c);
  }

  // The network's timer

  predicate NetworkFires(c: Clock, e: Event) {
    e.Interrupt? && Active(c.timers).Network?
  }

  /** The earliest network timer asked for since the last one fired. */
  function NextPending(c: Clock, e: Event, pending: nat): nat {
    match e
    case NetworkTimer(t) => if t < pending then t else pending
    case Interrupt(_) => if NetworkFires(c, e) then UNSET else pending
    case _ => pending
  }

  /** An interrupt that does not come before its time. */
  predicate Punctual(c: Clock, e: Event) {
    e.Interrupt? ==> Lowest(c.timers) <= e.now
  }

  /** Nothing but network timers and their firing moves the network's slot, except that an early interrupt for a sleeper
      brings it forward. */
  lemma StepNetwork(c: Clock, e: Event)
    requires ClockInv(c) && CanHappen(c, e)
    ensures Happen(c, e).timers.network <= NextPending(c, e, c.timers.network)
    ensures Punctual(c, e) ==> Happen(c, e).timers.network == NextPending(c, e, c.timers.network)
  {
    hide Insertion, Sorted, Find, StillAsleep;
    if e.Interrupt? { FiredKeepsArmed(c.timers, e.now); }
  }

  ghost function Pending(c: Clock, events: seq<Event>, pending: nat): nat
    decreases |events|
  {
    if events == [] || !CanHappen(c, events[0]) then pending
    else Pending(Happen(c, events[0]), events[1..], NextPending(c, events[0], pending))
  }

  ghost predicate AllPunctual(c: Clock, events: seq<Event>)
    decreases |events|
  {
    events != [] && CanHappen(c, events[0]) ==> Punctual(c, events[0]) && AllPunctual(Happen(c, events[0]), events[1..])
  }

  lemma {:induction false} NetworkOverRuns(c: Clock, events: seq<Event>, c': Clock, pending: nat)
    requires ClockInv(c) && Happens(c, events, c') && c.timers.network <= pending
    ensures c'.timers.network <= Pending(c, events, pending)
    ensures AllPunctual(c, events) && c.timers.network == pending ==> c'.timers.network == Pending(c, events, pending)
    decreases |events|
  {
    hide ClockInv, Happen, CanHappen, Punctual;
    if events != [] {
      StepKeepsClockInv(c, events[0]);
      StepNetwork(c, events[0]);
      NextIsMonotone(c, events[0], c.timers.network, pending);
      NetworkOverRuns(Happen(c, events[0]), events[1..], c', NextPending(c, events[0], pending));
    }
  }

  lemma NextIsMonotone(c: Clock, e: Event, a: nat, b: nat)
    requires a <= b
    ensures NextPending(c, e, a) <= NextPending(c, e, b)
  {
  }

  /** Over every run, whatever sleepers do, the hardware is set no later than any network timer asked for since the last
      one fired; if no interrupt came early, the network's slot is exactly the earliest of them. */
  lemma NetworkTimerOnTime(events: seq<Event>, c: Clock)
    requires Happens(Clock(NoTimers, [], false), events, c)
    ensures var pending := Pending(Clock(NoTimers, [], false), events, UNSET);
            && (pending < UNSET ==> c.timers.hardware.Some? && c.timers.hardware.value <= pending)
            && (AllPunctual(Clock(NoTimers, [], false), events) ==> c.timers.network == pending)
  {
    hide Happens, Pending, AllPunctual;
    var start := Clock(NoTimers, [], false);
    RunKeepsClockInv(start, events, c);
    NetworkOverRuns(start, events, c, UNSET);
  }
}

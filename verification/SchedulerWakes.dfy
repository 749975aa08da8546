/** Which tasks a wakeup, a timer, a spawn or an exit moves, and where to. */
module SchedulerWakes {
  import opened Options
  import opened TaskQueue
  import opened Scheduler

  ghost predicate Asleep(c: Core, id: int) {
    id in c.tasks && c.tasks[id].status == Blocked
  }

  /** The queue without the sleeper at position i, which is task id. */
  predicate LeavesAt(q: seq<Sleeper>, q': seq<Sleeper>, i: int, id: int) {
    0 <= i < |q| && q[i].id == id && q' == q[..i] + q[i + 1..]
  }

  lemma AsleepIsQueued(c: Core, id: int)
    requires Inv(c)
    ensures Asleep(c, id) <==> Find(c.blocked, id) < |c.blocked|
  {
    hide Matching, Sorted, Places, Find;
    if Asleep(c, id) {
      SleeperFound(c, id);
    } else if Find(c.blocked, id) < |c.blocked| {
      SleeperIsBlocked(c, Find(c.blocked, id));
    }
  }

  lemma SleeperFound(c: Core, id: int)
    requires Inv(c) && Asleep(c, id)
    ensures Find(c.blocked, id) < |c.blocked|
  {
    NotIdle(c, id);
    hide Inv, Find;
    OnePlace(c, id);
    var i :| 0 <= i < |c.blocked| && SleeperIds(c.blocked)[i] == id;
    assert c.blocked[i].id == id;
  }

  lemma NotIdle(c: Core, id: int)
    requires Inv(c) && id in c.tasks && c.tasks[id].status != Idle
    ensures id in Spawned(c)
  {
  }

  lemma SleeperIsBlocked(c: Core, i: nat)
    requires Inv(c) && i < |c.blocked|
    ensures Asleep(c, c.blocked[i].id)
  {
  }

  /** A wakeup readies the task it names, as the last of the ready tasks, if that task sleeps; it changes no other task
      and nothing else, and nothing at all if the task does not sleep. */
  lemma WakeReadies(c: Core, id: int)
    requires Inv(c)
    ensures var c' := ApplyWake(c, id);
            if Asleep(c, id) then
              && c'.ready == c.ready + [Handle(id, c.tasks[id].prio, c.core)]
              && c'.tasks == c.tasks[id := Task(Ready, c.tasks[id].prio)]
              && (exists i :: LeavesAt(c.blocked, c'.blocked, i, id))
              && id !in SleeperIds(c'.blocked)
              && c' == c.(ready := c'.ready, tasks := c'.tasks, blocked := c'.blocked)
            else c' == c
  {
    hide Matching, Sorted, Places, Find;
    AsleepIsQueued(c, id);
    if Asleep(c, id) {
      var i := Find(c.blocked, id);
      OneSleeper(c, i);
      assert LeavesAt(c.blocked, ApplyWake(c, id).blocked, i, id);
    }
  }

  // The inbox

  ghost function Sleepers(c: Core): set<int> {
    set id | id in c.tasks && c.tasks[id].status == Blocked
  }

  function Names(wakeups: seq<Handle>): set<int> {
    set i | 0 <= i < |wakeups| :: wakeups[i].id
  }

  /** The sleeping tasks that are named, each where it is named first. */
  function Roused(asleep: set<int>, wakeups: seq<Handle>): seq<int> {
    if wakeups == [] then []
    else
      (if wakeups[0].id in asleep then [wakeups[0].id] else []) + Roused(asleep - {wakeups[0].id}, wakeups[1..])
  }

  lemma {:induction false} RousedAreTheNamed(asleep: set<int>, wakeups: seq<Handle>)
    ensures forall id :: id in Roused(asleep, wakeups) <==> id in asleep && id in Names(wakeups)
    ensures forall i, j :: 0 <= i < j < |Roused(asleep, wakeups)| ==>
              Roused(asleep, wakeups)[i] != Roused(asleep, wakeups)[j]
  {
    if wakeups != [] {
      RousedAreTheNamed(asleep - {wakeups[0].id}, wakeups[1..]);
      FirstName(wakeups);
    }
  }

  lemma FirstName(wakeups: seq<Handle>)
    requires wakeups != []
    ensures Names(wakeups) == {wakeups[0].id} + Names(wakeups[1..])
  {
    forall id | id in Names(wakeups) ensures id in {wakeups[0].id} + Names(wakeups[1..]) {
      var i :| 0 <= i < |wakeups| && wakeups[i].id == id;
      if i > 0 { assert wakeups[1..][i - 1].id == id; }
    }
  }

  /** The sleepers that are not named, in their order. */
  function Unnamed(q: seq<Sleeper>, names: set<int>): seq<Sleeper> {
    if q == [] then [] else (if q[0].id in names then [] else [q[0]]) + Unnamed(q[1..], names)
  }

  lemma {:induction false} UnnamedAfter(q: seq<Sleeper>, q': seq<Sleeper>, i: nat, id: int, names: set<int>)
    requires LeavesAt(q, q', i, id) && forall j :: 0 <= j < |q| && j != i ==> q[j].id != id
    ensures Unnamed(q', names) == Unnamed(q, {id} + names)
    decreases |q|
  {
    if i == 0 {
      assert q' == q[1..];
      UnnamedNobody(q[1..], id, names);
    } else {
      UnnamedAfter(q[1..], q'[1..], i - 1, id, names);
    }
  }

  lemma {:induction false} UnnamedNobody(q: seq<Sleeper>, id: int, names: set<int>)
    requires forall j :: 0 <= j < |q| ==> q[j].id != id
    ensures Unnamed(q, {id} + names) == Unnamed(q, names)
  {
    if q != [] { UnnamedNobody(q[1..], id, names); }
  }

  /** The tasks after some of those asleep have become ready. */
  ghost predicate Readied(tasks: map<int, Task>, tasks': map<int, Task>, names: set<int>, from: Status) {
    && tasks'.Keys == tasks.Keys
    && (forall id :: id in tasks ==>
          tasks'[id] == if id in names && tasks[id].status == from then Task(Ready, tasks[id].prio) else tasks[id])
  }

  /** One wakeup, and then others. */
  lemma OneWakeup(c: Core, id: int, names: set<int>)
    requires Inv(c)
    ensures var c' := ApplyWake(c, id);
            && Ids(c'.ready) == Ids(c.ready) + (if id in Sleepers(c) then [id] else [])
            && Sleepers(c') == Sleepers(c) - {id}
            && Unnamed(c'.blocked, names) == Unnamed(c.blocked, {id} + names)
            && Readied(c.tasks, c'.tasks, {id}, Blocked)
            && c' == c.(ready := c'.ready, tasks := c'.tasks, blocked := c'.blocked)
  {
    hide Matching, Sorted, Places, Unnamed, ApplyWake;
    WakeReadies(c, id);
    if Asleep(c, id) {
      IdsAppend(c.ready, Handle(id, c.tasks[id].prio, c.core));
      var i :| LeavesAt(c.blocked, ApplyWake(c, id).blocked, i, id);
      OneSleeper(c, i);
      UnnamedAfter(c.blocked, ApplyWake(c, id).blocked, i, id, names);
    } else {
      forall j | 0 <= j < |c.blocked| ensures c.blocked[j].id != id { SleeperIsBlocked(c, j); }
      UnnamedNobody(c.blocked, id, names);
    }
  }

  lemma ReadiedTwice(tasks: map<int, Task>, mid: map<int, Task>, tasks': map<int, Task>, a: set<int>, b: set<int>,
                     from: Status)
    requires Readied(tasks, mid, a, from) && Readied(mid, tasks', b, from)
    ensures Readied(tasks, tasks', a + b, from)
  {
  }

  lemma {:induction false} NobodyNamed(c: Core)
    ensures Unnamed(c.blocked, {}) == c.blocked && Readied(c.tasks, c.tasks, {}, Blocked) && Names([]) == {}
  {
    UnnamedAll(c.blocked);
  }

  lemma {:induction false} UnnamedAll(q: seq<Sleeper>)
    ensures Unnamed(q, {}) == q
  {
    if q != [] { UnnamedAll(q[1..]); }
  }

  lemma {:induction false} WakeupsReady(c: Core)
    requires Inv(c)
    ensures var c' := DrainWakeups(c);
            && Ids(c'.ready) == Ids(c.ready) + Roused(Sleepers(c), c.wakeups)
            && c'.blocked == Unnamed(c.blocked, Names(c.wakeups))
            && Readied(c.tasks, c'.tasks, Names(c.wakeups), Blocked)
            && c' == c.(ready := c'.ready, tasks := c'.tasks, blocked := c'.blocked, wakeups := [])
    decreases |c.wakeups|
  {
    hide Inv, Known, ApplyWake, Ids, Names, Readied, Unnamed, Sleepers;
    InvKnown(c);
    if c.wakeups == [] {
      NobodyNamed(c);
    } else {
      var c1, id := c.(wakeups := c.wakeups[1..]), c.wakeups[0].id;
      InboxKeepsInv(c, c1);
      InvKnown(c1);
      var c2 := ApplyWake(c1, id);
      WakeKeepsInv(c1, id);
      WakeupsReady(c2);
      OneWakeup(c1, id, Names(c1.wakeups));
      FirstName(c.wakeups);
      ReadiedTwice(c.tasks, c2.tasks, DrainWakeups(c2).tasks, {id}, Names(c1.wakeups), Blocked);
      assert Sleepers(c1) == Sleepers(c) by { SameSleepers(c, c1); }
    }
  }

  lemma InvKnown(c: Core)
    requires Inv(c)
    ensures Known(c)
  {
  }

  lemma SameSleepers(c: Core, c': Core)
    requires c'.tasks == c.tasks
    ensures Sleepers(c') == Sleepers(c)
  {
  }

  lemma {:induction false} NewTasksReady(c: Core)
    requires Inv(c)
    ensures var c' := DrainNew(c);
            && c'.ready == c.ready + c.newTasks
            && Readied(c.tasks, c'.tasks, Names(c.newTasks), New)
            && c' == c.(ready := c'.ready, tasks := c'.tasks, newTasks := [])
    decreases |c.newTasks|
  {
    hide Inv, Known, Names, Readied, Admit;
    InvKnown(c);
    if c.newTasks == [] {
      NobodyNew(c);
    } else {
      AdmitKeepsInv(c);
      AdmitShrinks(c);
      var c1 := Admit(c);
      NewTasksReady(c1);
      OneAdmitted(c);
      FirstName(c.newTasks);
      ReadiedTwice(c.tasks, c1.tasks, DrainNew(c1).tasks, {c.newTasks[0].id}, Names(c1.newTasks), New);
      assert c.ready + c.newTasks == c1.ready + c1.newTasks;
    }
  }

  lemma NobodyNew(c: Core)
    ensures Readied(c.tasks, c.tasks, Names([]), New) && c.ready + [] == c.ready
  {
  }

  lemma OneAdmitted(c: Core)
    requires Inv(c) && c.newTasks != []
    ensures var c' := Admit(c);
            && c'.ready == c.ready + [c.newTasks[0]] && Readied(c.tasks, c'.tasks, {c.newTasks[0].id}, New)
            && c' == c.(ready := c'.ready, tasks := c'.tasks, newTasks := c.newTasks[1..])
  {
  }

  /** Reading the inbox readies exactly the sleeping tasks that are named in it, in the order in which they are named
      first, and then the new tasks, in the order of their arrival. Everyone else stays what and where they were. */
  lemma CheckInputReadies(c: Core)
    requires Inv(c)
    ensures var c' := Apply(c, CheckInput);
            && Ids(c'.ready) == Ids(c.ready) + Roused(Sleepers(c), c.wakeups) + Ids(c.newTasks)
            && c'.blocked == Unnamed(c.blocked, Names(c.wakeups))
            && c'.tasks.Keys == c.tasks.Keys
            && (forall id :: id in c.tasks ==>
                  c'.tasks[id] == if (id in Names(c.wakeups) && c.tasks[id].status == Blocked)
                                     || (id in Names(c.newTasks) && c.tasks[id].status == New)
                                  then Task(Ready, c.tasks[id].prio) else c.tasks[id])
            && c' == c.(ready := c'.ready, tasks := c'.tasks, blocked := c'.blocked, wakeups := [], newTasks := [])
  {
    hide Inv, Known, DrainWakeups, DrainNew, Names, Unnamed, Sleepers, Ids;
    InvKnown(c);
    WakeupsReady(c);
    DrainWakeupsKeepsInv(c);
    NewTasksReady(DrainWakeups(c));
    IdsConcat(DrainWakeups(c).ready, c.newTasks);
  }

  lemma IdsConcat(a: seq<Handle>, b: seq<Handle>)
    ensures Ids(a + b) == Ids(a) + Ids(b)
  {
  }

  // Sleeping until a time

  /** The step wakes a task that sleeps until this time. */
  predicate Rouses(c: Core, step: Step, id: int, wakeup: Option<nat>) {
    match step
    case Wake(t) => t == id
    case CheckInput => id in Names(c.wakeups)
    case Timer(now) => wakeup.Some? && wakeup.value < now
    case _ => false
  }

  lemma {:induction false} UnnamedHolds(q: seq<Sleeper>, names: set<int>, x: Sleeper)
    ensures x in Unnamed(q, names) <==> x in q && x.id !in names
  {
    if q != [] {
      UnnamedHolds(q[1..], names, x);
      assert q == [q[0]] + q[1..];
    }
  }

  lemma {:induction false} StillAsleepHolds(q: seq<Sleeper>, now: nat, x: Sleeper)
    ensures x in StillAsleep(q, now) <==> x in q && !(x.wakeup.Some? && x.wakeup.value < now)
  {
    if q != [] {
      StillAsleepHolds(q[1..], now, x);
      assert q == [q[0]] + q[1..];
    }
  }

  /** A sleeper stays asleep, until the same time, through every step but one that rouses it. */
  lemma SleeperStays(c: Core, step: Step, x: Sleeper)
    requires Inv(c) && Can(c, step) && x in c.blocked
    ensures x in Apply(c, step).blocked <==> !Rouses(c, step, x.id, x.wakeup)
  {
    hide Matching, Sorted, Places, Known, Insertion, DrainNew, DrainWakeups, WakeElapsed, ApplyWake, Ids, Names;
    match step
    case Wake(id) => WakeupOf(c, id, x);
    case CheckInput => CheckInputReadies(c); UnnamedHolds(c.blocked, Names(c.wakeups), x);
    case Timer(now) => TimerWakesTheElapsed(c, 0, now); StillAsleepHolds(c.blocked, now, x); AllOf(c.blocked, now);
    case Block(wakeup) => AddHolds(c.blocked, Sleeper(c.current, wakeup), x);
    case _ =>
  }

  lemma AllOf(q: seq<Sleeper>, now: nat)
    ensures q[..0] + StillAsleep(q[0..], now) == StillAsleep(q, now)
  {
    assert q[0..] == q;
  }

  lemma AddHolds(q: seq<Sleeper>, y: Sleeper, x: Sleeper)
    ensures x in AddSleeper(q, y) <==> x == y || x in q
  {
    var i := Insertion(q, y.wakeup);
    assert q == q[..i] + q[i..];
  }

  lemma WakeupOf(c: Core, id: int, x: Sleeper)
    requires Inv(c) && x in c.blocked
    ensures x in ApplyWake(c, id).blocked <==> x.id != id
  {
    hide Matching, Sorted, Places, ApplyWake;
    WakeReadies(c, id);
    var k :| 0 <= k < |c.blocked| && c.blocked[k] == x;
    SleeperIsBlocked(c, k);
    if Asleep(c, id) {
      var i :| LeavesAt(c.blocked, ApplyWake(c, id).blocked, i, id);
      OneSleeper(c, i);
      LeftBehind(c.blocked, ApplyWake(c, id).blocked, i, id, x);
    }
  }

  lemma LeftBehind(q: seq<Sleeper>, q': seq<Sleeper>, i: nat, id: int, x: Sleeper)
    requires LeavesAt(q, q', i, id) && (forall j :: 0 <= j < |q| && j != i ==> q[j].id != id) && x in q
    ensures x in q' <==> x.id != id
  {
    var k :| 0 <= k < |q| && q[k] == x;
    if k != i { assert q'[if k < i then k else k - 1] == x; }
  }

  /** A sleeper that is roused is ready. */
  lemma RousedIsReady(c: Core, step: Step, x: Sleeper)
    requires Inv(c) && Can(c, step) && x in c.blocked && Rouses(c, step, x.id, x.wakeup)
    ensures var c' := Apply(c, step); x.id in c'.tasks && c'.tasks[x.id].status == Ready && x.id in Ids(c'.ready)
  {
    hide Matching, Sorted, Places, Known, DrainNew, DrainWakeups, WakeElapsed, ApplyWake, Ids, Names, ApplyCleanup;
    var c' := Apply(c, step);
    var k :| 0 <= k < |c.blocked| && c.blocked[k] == x;
    SleeperIsBlocked(c, k);
    StepKeepsInv(c, step);
    match step
    case Wake(id) => WakeReadies(c, id); ReadyIsQueued(c', id);
    case CheckInput => CheckInputReadies(c); ReadyIsQueued(c', x.id);
    case Timer(now) =>
      WakeElapsedKeepsTasks(c, 0, now);
      TimerWakesTheElapsed(c, 0, now);
      AwokenHolds(c.blocked, now, x);
      assert c.blocked[0..] == c.blocked;
      QueuedIsReady(c', x.id);
    case _ =>
  }

  lemma {:induction false} AwokenHolds(q: seq<Sleeper>, now: nat, x: Sleeper)
    requires x in q && x.wakeup.Some? && x.wakeup.value < now
    ensures x.id in Awoken(q, now)
  {
    if x != q[0] { AwokenHolds(q[1..], now, x); }
  }

  lemma ReadyIsQueued(c: Core, id: int)
    requires Inv(c) && id in c.tasks && c.tasks[id].status == Ready
    ensures id in Ids(c.ready)
  {
    NotIdle(c, id);
    hide Inv;
    OnePlace(c, id);
  }

  lemma QueuedIsReady(c: Core, id: int)
    requires Inv(c) && id in Ids(c.ready)
    ensures id in c.tasks && c.tasks[id].status == Ready
  {
    var i :| 0 <= i < |c.ready| && Ids(c.ready)[i] == id;
  }

  /** Wakes up later, or not by itself. */
  predicate Later(x: Sleeper, wakeup: Option<nat>) {
    wakeup.Some? && (x.wakeup.None? || wakeup.value < x.wakeup.value)
  }

  /** The sleepers with x added at position i: behind all that do not wake up later, and before those that do. */
  predicate JoinsAt(q: seq<Sleeper>, q': seq<Sleeper>, i: int, x: Sleeper) {
    && 0 <= i <= |q| && q' == q[..i] + [x] + q[i..]
    && (forall j :: 0 <= j < i ==> !Later(q[j], x.wakeup))
    && (forall j :: i <= j < |q| ==> Later(q[j], x.wakeup))
  }

  /** Blocking puts the running task, and only it, among the sleepers, with the time it was given; those with the same
      time wake in the order in which they blocked. */
  lemma BlockSleeps(c: Core, wakeup: Option<nat>)
    requires Inv(c) && Enabled(c, Block(wakeup))
    ensures var c' := ApplyBlock(c, wakeup);
            && (exists i :: JoinsAt(c.blocked, c'.blocked, i, Sleeper(c.current, wakeup)))
            && Sleeper(c.current, wakeup) in c'.blocked
            && c'.tasks == c.tasks[c.current := Task(Blocked, c.tasks[c.current].prio)]
            && c' == c.(blocked := c'.blocked, tasks := c'.tasks)
  {
    hide Known, Matching, Places, Insertion;
    var i, c' := Insertion(c.blocked, wakeup), ApplyBlock(c, wakeup);
    InsertionIsFirst(c.blocked, wakeup);
    assert c'.blocked[i] == Sleeper(c.current, wakeup);
    forall j | i <= j < |c.blocked|
      ensures Later(c.blocked[j], wakeup)
    {
      assert j == i || !Before(c.blocked[j].wakeup, c.blocked[i].wakeup);
    }
    assert JoinsAt(c.blocked, c'.blocked, i, Sleeper(c.current, wakeup));
  }

  ghost predicate NoneRouses(c: Core, steps: seq<Step>, id: int, wakeup: Option<nat>)
    requires Runs(c, steps)
    decreases |steps|
  {
    steps == [] || (!Rouses(c, steps[0], id, wakeup) && NoneRouses(Apply(c, steps[0]), steps[1..], id, wakeup))
  }

  lemma {:induction false} SleepsOn(c: Core, steps: seq<Step>, x: Sleeper)
    requires Inv(c) && Runs(c, steps) && x in c.blocked && NoneRouses(c, steps, x.id, x.wakeup)
    ensures Inv(After(c, steps)) && x in After(c, steps).blocked
    decreases |steps|
  {
    hide Inv, Known, Apply, ApplyCleanup, Enabled, Rouses;
    if steps != [] {
      StepKeepsInv(c, steps[0]);
      SleeperStays(c, steps[0], x);
      SleepsOn(Apply(c, steps[0]), steps[1..], x);
    }
  }

  /** From blocking on, whatever happens: a task sleeps exactly until a wakeup names it or a timer finds its time past,
      and is ready then. */
  lemma SleepsUntilRoused(c: Core, wakeup: Option<nat>, steps: seq<Step>, step: Step)
    requires Inv(c) && Can(c, Block(wakeup)) && Runs(Apply(c, Block(wakeup)), steps)
    requires NoneRouses(Apply(c, Block(wakeup)), steps, c.current, wakeup)
    requires Can(After(Apply(c, Block(wakeup)), steps), step)
    ensures var before := After(Apply(c, Block(wakeup)), steps);
            var after := Apply(before, step);
            && c.current in before.tasks && before.tasks[c.current].status == Blocked
            && c.current in after.tasks
            && after.tasks[c.current].status
               == if Rouses(before, step, c.current, wakeup) then Ready else Blocked
  {
    hide Inv, Known, Apply, ApplyCleanup, Rouses, After, NoneRouses;
    var c1, x := Apply(c, Block(wakeup)), Sleeper(c.current, wakeup);
    StepKeepsInv(c, Block(wakeup));
    BlockSleeps(c, wakeup);
    assert x in c1.blocked by { BlockIsBlock(c, wakeup); }
    SleepsOn(c1, steps, x);
    var before := After(c1, steps);
    SleepsInTasks(before, x);
    StepKeepsInv(before, step);
    SleeperStays(before, step, x);
    if Rouses(before, step, x.id, x.wakeup) {
      RousedIsReady(before, step, x);
    } else {
      SleepsInTasks(Apply(before, step), x);
    }
  }

  lemma BlockIsBlock(c: Core, wakeup: Option<nat>)
    requires Can(c, Block(wakeup))
    ensures Apply(c, Block(wakeup)) == ApplyBlock(c, wakeup)
  {
  }

  lemma SleepsInTasks(c: Core, x: Sleeper)
    requires Inv(c) && x in c.blocked
    ensures Asleep(c, x.id)
  {
    hide Inv;
    var k :| 0 <= k < |c.blocked| && c.blocked[k] == x;
    SleeperIsBlocked(c, k);
  }

  // Priorities

  /** The priority a step gives to a task. */
  function Given(c: Core, step: Step, id: int): Option<nat> {
    match step
    case Spawn(t, prio) => if t == id then Some(prio) else None
    case SpawnFromElsewhere(t, prio) => if t == id then Some(prio) else None
    case SetPriority(prio) => if c.current == id then Some(prio) else None
    case _ => None
  }

  lemma {:induction false} TimerKeepsPriorities(c: Core, i: nat, now: nat, id: int)
    requires Known(c) && i <= |c.blocked| && id in c.tasks
    ensures id in WakeElapsed(c, i, now).tasks && WakeElapsed(c, i, now).tasks[id].prio == c.tasks[id].prio
    decreases |c.blocked| - i
  {
    if i < |c.blocked| {
      if Elapsed(c.blocked[i], now) { TimerKeepsPriorities(WakeAt(c, i), i, now, id); }
      else { TimerKeepsPriorities(c, i + 1, now, id); }
    }
  }

  lemma SwitchKeepsPriorities(c: Core, id: int)
    requires Known(c) && id in c.tasks
    ensures id in Switch(c).tasks && Switch(c).tasks[id].prio == c.tasks[id].prio
  {
  }

  lemma StepPriority(c: Core, step: Step, id: int)
    requires Inv(c) && Can(c, step) && id in Apply(c, step).tasks
    ensures match Given(c, step, id)
            case Some(p) => Apply(c, step).tasks[id].prio == p
            case None => id in c.tasks && Apply(c, step).tasks[id].prio == c.tasks[id].prio
  {
    hide Matching, Sorted, Places, Insertion, DrainNew, DrainWakeups, WakeElapsed, ApplyWake, Switch;
    match step
    case Wake(t) => WakeReadies(c, t);
    case CheckInput => CheckInputReadies(c);
    case Timer(now) => WakeElapsedKeepsTasks(c, 0, now); TimerKeepsPriorities(c, 0, now, id);
    case Decide => SwitchSameKeys(ApplyCleanup(c)); SwitchKeepsPriorities(ApplyCleanup(c), id);
    case _ =>
  }

  ghost function LastGiven(c: Core, steps: seq<Step>, id: int): Option<nat>
    requires Runs(c, steps)
    decreases |steps|
  {
    if steps == [] then None
    else match LastGiven(Apply(c, steps[0]), steps[1..], id)
      case Some(p) => Some(p)
      case None => Given(c, steps[0], id)
  }

  lemma {:induction false} PriorityIsLastGiven(c: Core, steps: seq<Step>, id: int)
    requires Inv(c) && Runs(c, steps) && id in After(c, steps).tasks
    ensures match LastGiven(c, steps, id)
            case Some(p) => After(c, steps).tasks[id].prio == p
            case None => id in c.tasks && After(c, steps).tasks[id].prio == c.tasks[id].prio
    decreases |steps|
  {
    hide Inv, Known, Apply, ApplyCleanup, Enabled, Given;
    if steps != [] {
      StepKeepsInv(c, steps[0]);
      PriorityIsLastGiven(Apply(c, steps[0]), steps[1..], id);
      if LastGiven(Apply(c, steps[0]), steps[1..], id).None? { StepPriority(c, steps[0], id); }
    }
  }

  /** Over every run, a task has the priority it was spawned with, or the last one it gave itself. */
  lemma PriorityOverRuns(core: nat, idle: int, steps: seq<Step>, id: int)
    requires Runs(Fresh(core, idle), steps) && id in After(Fresh(core, idle), steps).tasks && id != idle
    ensures LastGiven(Fresh(core, idle), steps, id) == Some(After(Fresh(core, idle), steps).tasks[id].prio)
  {
    hide Inv, Runs, After, LastGiven;
    FreshInv(core, idle);
    PriorityIsLastGiven(Fresh(core, idle), steps, id);
  }

  // Arriving and leaving

  /** A task spawned here goes to the end of the level of its priority, from which `RoundRobin` takes it; one spawned
      elsewhere to the end of the inbox. */
  lemma SpawnArrives(c: Core, id: int, prio: nat)
    requires Inv(c) && Enabled(c, Spawn(id, prio))
    ensures AtLevel(ApplySpawn(c, id, prio), prio, |Level(c.ready, prio)|, id)
    ensures ApplySpawn(c, id, prio).tasks == c.tasks[id := Task(Ready, prio)]
    ensures Ids(ApplySpawnFromElsewhere(c, id, prio).newTasks) == Ids(c.newTasks) + [id]
    ensures ApplySpawnFromElsewhere(c, id, prio).tasks == c.tasks[id := Task(New, prio)]
  {
    hide Inv, Level;
    LevelConcat(c.ready, [Handle(id, prio, c.core)], prio);
    LevelOne(Handle(id, prio, c.core), prio);
    IdsAppend(c.newTasks, Handle(id, prio, c.core));
  }

  /** A woken task goes to the end of the level of its priority. */
  lemma WokenArrives(c: Core, id: int)
    requires Inv(c) && Asleep(c, id)
    ensures AtLevel(ApplyWake(c, id), c.tasks[id].prio, |Level(c.ready, c.tasks[id].prio)|, id)
  {
    hide Inv, Level, ApplyWake;
    WakeReadies(c, id);
    var p := c.tasks[id].prio;
    LevelConcat(c.ready, [Handle(id, p, c.core)], p);
    LevelOne(Handle(id, p, c.core), p);
  }

  /** A task that exits is switched away from at the next decision and gone after the next cleanup, and never runs in
      between. */
  lemma ExitedTaskGoes(c: Core)
    requires Inv(c) && Can(c, Exit)
    ensures var c1 := Apply(c, Exit);
            && Inv(c1) && Can(c1, Decide)
            && var c2 := Apply(c1, Decide);
               && Inv(c2) && Can(c2, Cleanup) && c2.current != c.current && c.current in c2.finished
               && c.current !in Apply(c2, Cleanup).tasks
  {
    hide Inv, Switch;
    var c1 := Apply(c, Exit);
    StepKeepsInv(c, Exit);
    CanStep(c1, Decide);
    StepKeepsInv(c1, Decide);
    var c2 := Apply(c1, Decide);
    CanStep(c2, Cleanup);
    CleanupKeepsInv(c1);
    FinishedLeaves(ApplyCleanup(c1));
    ReleasedOnlyWhenFinished(c2, c.current);
  }

  lemma FinishedLeaves(c: Core)
    requires Inv(c) && c.tasks[c.current].status == Finished
    ensures c.current in Switch(c).finished
  {
    hide Matching, Sorted, Places, Next, Without;
    assert c.current in c.finished + [c.current];
  }
}

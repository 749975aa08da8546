/** The scheduler of one core as a transition system. Other cores only add to its inbox. The ready queue is the
    list of ready tasks in order of arrival, of which the kernel's priority queue is a refinement. */
module Scheduler {
  import opened Options
  import opened TaskQueue

  /** New is the status of a task that is still in the inbox. */
  datatype Status = Invalid | Ready | Running | Blocked | Finished | Idle | New

  datatype Task = Task(status: Status, prio: nat)

  datatype Sleeper = Sleeper(id: int, wakeup: Option<nat>)

  datatype Core = Core(
    core: nat, current: int, idle: int, tasks: map<int, Task>,
    ready: seq<Handle>, blocked: seq<Sleeper>, finished: seq<int>,
    newTasks: seq<Handle>, wakeups: seq<Handle>)

  /** A core at start: only the idle task, running. */
  function Fresh(core: nat, idle: int): Core {
    Core(core, idle, idle, map[idle := Task(Idle, 0)], [], [], [], [], [])
  }

  // The blocked queue, sorted by wakeup time

  predicate Before(a: Option<nat>, b: Option<nat>) {
    a.Some? && (b.Some? ==> a.value < b.value)
  }

  /** Where a new sleeper goes: before the first one that wakes up later, if it has a wakeup time at all. */
  function Insertion(q: seq<Sleeper>, wakeup: Option<nat>): (i: nat)
    ensures i <= |q|
  {
    if q == [] || Before(wakeup, q[0].wakeup) then 0 else 1 + Insertion(q[1..], wakeup)
  }

  function AddSleeper(q: seq<Sleeper>, x: Sleeper): seq<Sleeper> {
    q[..Insertion(q, x.wakeup)] + [x] + q[Insertion(q, x.wakeup)..]
  }

  function Find(q: seq<Sleeper>, id: int): (i: nat)
    ensures i <= |q| && (i < |q| ==> q[i].id == id) && forall j :: 0 <= j < i ==> q[j].id != id
  {
    if q == [] || q[0].id == id then 0 else 1 + Find(q[1..], id)
  }

  predicate Elapsed(x: Sleeper, now: nat) {
    x.wakeup.Some? && x.wakeup.value < now
  }

  // Steps

  datatype Step =
    | Spawn(id: int, prio: nat)
    | SpawnFromElsewhere(id: int, prio: nat)
    | Wake(id: int)
    | WakeFromElsewhere(handle: Handle)
    | CheckInput
    | Block(wakeup: Option<nat>)
    | Timer(now: nat)
    | Exit
    | SetPriority(prio: nat)
    | Cleanup
    | Decide

  /** Only a running task blocks, exits or changes its priority; new tasks have new identities. */
  predicate Enabled(c: Core, step: Step) {
    match step
    case Spawn(id, prio) => id !in c.tasks && prio < NO_PRIORITIES
    case SpawnFromElsewhere(id, prio) => id !in c.tasks && prio < NO_PRIORITIES
    case Block(_) => c.current in c.tasks && c.tasks[c.current].status == Running
    case Exit => c.current in c.tasks && c.tasks[c.current].status == Running
    case SetPriority(prio) => c.current in c.tasks && c.tasks[c.current].status == Running && prio < NO_PRIORITIES
    case _ => true
  }

  function SetStatus(c: Core, id: int, status: Status): Core
    requires id in c.tasks
  {
    c.(tasks := c.tasks[id := c.tasks[id].(status := status)])
  }

  /** The tasks named by queues exist. */
  predicate Known(c: Core) {
    && c.current in c.tasks && c.idle in c.tasks
    && (forall i :: 0 <= i < |c.ready| ==> c.ready[i].id in c.tasks)
    && (forall i :: 0 <= i < |c.blocked| ==> c.blocked[i].id in c.tasks)
    && (forall i :: 0 <= i < |c.newTasks| ==> c.newTasks[i].id in c.tasks)
  }

  /** Moves a blocked task to the ready queue. */
  function WakeAt(c: Core, i: nat): (r: Core)
    requires Known(c) && i < |c.blocked|
    ensures Known(r) && |r.blocked| == |c.blocked| - 1 && r.wakeups == c.wakeups && r.newTasks == c.newTasks
  {
    var id := c.blocked[i].id;
    SetStatus(c.(blocked := c.blocked[..i] + c.blocked[i + 1..],
                 ready := c.ready + [Handle(id, c.tasks[id].prio, c.core)]), id, Ready)
  }

  /** A wakeup of a task that is not blocked here does nothing. */
  function ApplyWake(c: Core, id: int): (r: Core)
    requires Known(c)
    ensures Known(r) && r.wakeups == c.wakeups && r.newTasks == c.newTasks
  {
    if Find(c.blocked, id) < |c.blocked| then WakeAt(c, Find(c.blocked, id)) else c
  }

  function DrainWakeups(c: Core): (r: Core)
    requires Known(c)
    ensures Known(r)
    decreases |c.wakeups|
  {
    if c.wakeups == [] then c else DrainWakeups(ApplyWake(c.(wakeups := c.wakeups[1..]), c.wakeups[0].id))
  }

  /** A new task leaves the inbox. */
  function Admit(c: Core): (r: Core)
    requires Known(c) && c.newTasks != []
    ensures Known(r)
  {
    SetStatus(c.(newTasks := c.newTasks[1..], ready := c.ready + [c.newTasks[0]]), c.newTasks[0].id, Ready)
  }

  function DrainNew(c: Core): (r: Core)
    requires Known(c)
    ensures Known(r)
    decreases |c.newTasks|
  {
    if c.newTasks == [] then c else DrainNew(Admit(c))
  }

  /** Wakes the elapsed sleepers from position i on, in order. */
  function WakeElapsed(c: Core, i: nat, now: nat): (r: Core)
    requires Known(c) && i <= |c.blocked|
    ensures Known(r)
    decreases |c.blocked| - i
  {
    if i == |c.blocked| then c
    else if Elapsed(c.blocked[i], now) then WakeElapsed(WakeAt(c, i), i, now)
    else WakeElapsed(c, i + 1, now)
  }

  /** Every priority has its queue. */
  predicate Priorities(c: Core) {
    && (forall id :: id in c.tasks ==> c.tasks[id].prio < NO_PRIORITIES)
    && (forall i :: 0 <= i < |c.newTasks| ==> c.newTasks[i].prio < NO_PRIORITIES)
  }

  function ApplySpawn(c: Core, id: int, prio: nat): Core {
    c.(tasks := c.tasks[id := Task(Ready, prio)], ready := c.ready + [Handle(id, prio, c.core)])
  }

  function ApplySpawnFromElsewhere(c: Core, id: int, prio: nat): Core {
    c.(tasks := c.tasks[id := Task(New, prio)], newTasks := c.newTasks + [Handle(id, prio, c.core)])
  }

  function Remaining(tasks: map<int, Task>, ids: seq<int>): map<int, Task> {
    map id | id in tasks && id !in ids :: tasks[id]
  }

  function ApplyCleanup(c: Core): Core {
    c.(finished := [], tasks := Remaining(c.tasks, c.finished))
  }

  function ApplyBlock(c: Core, wakeup: Option<nat>): Core
    requires c.current in c.tasks
  {
    SetStatus(c.(blocked := AddSleeper(c.blocked, Sleeper(c.current, wakeup))), c.current, Blocked)
  }

  /** The scheduler proper, after cleaning up. */
  function Switch(c: Core): Core
    requires Known(c)
  {
    var me := c.tasks[c.current];
    if me.status == Running then
      if c.ready == [] || Highest(c.ready) < me.prio then c
      else
        var next := c.ready[Next(c.ready)].id;
        var requeued := Without(c.ready, Next(c.ready)) + [Handle(c.current, me.prio, c.core)];
        SetStatus(SetStatus(c.(ready := requeued), c.current, Ready), next, Running).(current := next)
    else
      var c1 := if me.status == Finished
                then SetStatus(c.(finished := c.finished + [c.current]), c.current, Invalid)
                else c;
      if c.ready != [] then
        var next := c.ready[Next(c.ready)].id;
        SetStatus(c1.(ready := Without(c.ready, Next(c.ready))), next, Running).(current := next)
      else if me.status != Idle then c1.(current := c.idle)
      else c1
  }

  function Apply(c: Core, step: Step): Core
    requires Known(c) && Enabled(c, step) && (step.Decide? ==> Known(ApplyCleanup(c)))
  {
    match step
    case Spawn(id, prio) => ApplySpawn(c, id, prio)
    case SpawnFromElsewhere(id, prio) => ApplySpawnFromElsewhere(c, id, prio)
    case Wake(id) => ApplyWake(c, id)
    case WakeFromElsewhere(h) => c.(wakeups := c.wakeups + [h])
    case CheckInput => DrainNew(DrainWakeups(c))
    case Block(wakeup) => ApplyBlock(c, wakeup)
    case Timer(now) => WakeElapsed(c, 0, now)
    case Exit => SetStatus(c, c.current, Finished)
    case SetPriority(prio) => c.(tasks := c.tasks[c.current := c.tasks[c.current].(prio := prio)])
    case Cleanup => ApplyCleanup(c)
    case Decide => Switch(ApplyCleanup(c))
  }

  // The invariant

  function Ids(q: seq<Handle>): seq<int> {
    seq(|q|, i requires 0 <= i < |q| => q[i].id)
  }

  function SleeperIds(q: seq<Sleeper>): seq<int> {
    seq(|q|, i requires 0 <= i < |q| => q[i].id)
  }

  /** The current task, unless it is the idle task or already in a queue. */
  function OnCpu(c: Core): multiset<int>
    requires c.current in c.tasks
  {
    if c.tasks[c.current].status in {Running, Finished} then multiset{c.current} else multiset{}
  }

  /** The places of tasks, with multiplicity. */
  function Places(c: Core): multiset<int>
    requires c.current in c.tasks
  {
    multiset(Ids(c.ready)) + multiset(SleeperIds(c.blocked)) + multiset(c.finished) + multiset(Ids(c.newTasks))
      + OnCpu(c)
  }

  /** The spawned tasks not yet released. */
  function Spawned(c: Core): set<int> {
    c.tasks.Keys - {c.idle}
  }

  ghost predicate Matching(c: Core)
    requires Known(c)
  {
    && (forall i :: 0 <= i < |c.ready| ==>
          c.tasks[c.ready[i].id] == Task(Ready, c.ready[i].prio) && c.ready[i].prio < NO_PRIORITIES
          && c.ready[i].core == c.core)
    && (forall i :: 0 <= i < |c.blocked| ==> c.tasks[c.blocked[i].id].status == Blocked)
    && (forall i :: 0 <= i < |c.finished| ==> c.finished[i] in c.tasks && c.tasks[c.finished[i]].status == Invalid)
    && (forall i :: 0 <= i < |c.newTasks| ==>
          c.tasks[c.newTasks[i].id] == Task(New, c.newTasks[i].prio) && c.newTasks[i].prio < NO_PRIORITIES
          && c.newTasks[i].core == c.core)
    && (c.tasks[c.current].status in {Running, Finished, Blocked, Ready, Idle})
    && (forall id :: id in c.tasks ==>
          (c.tasks[id].status == Idle <==> id == c.idle) && c.tasks[id].prio < NO_PRIORITIES)
  }

  ghost predicate Sorted(q: seq<Sleeper>) {
    forall i, j :: 0 <= i < j < |q| ==> !Before(q[j].wakeup, q[i].wakeup)
  }

  ghost predicate Inv(c: Core) {
    Known(c) && Matching(c) && Sorted(c.blocked) && Places(c) == multiset(Spawned(c))
  }

  lemma FreshInv(core: nat, idle: int)
    ensures Inv(Fresh(core, idle))
  {
    assert Spawned(Fresh(core, idle)) == {};
  }

  /** What the multisets say about one task: it is in exactly one place, the one its status tells. */
  lemma OnePlace(c: Core, id: int)
    requires Inv(c) && id in Spawned(c)
    ensures multiset(Ids(c.ready))[id] + multiset(SleeperIds(c.blocked))[id] + multiset(c.finished)[id]
            + multiset(Ids(c.newTasks))[id] + OnCpu(c)[id] == 1
    ensures c.tasks[id].status == Ready <==> id in Ids(c.ready)
    ensures c.tasks[id].status == Blocked <==> id in SleeperIds(c.blocked)
    ensures c.tasks[id].status == Invalid <==> id in c.finished
    ensures c.tasks[id].status == New <==> id in Ids(c.newTasks)
    ensures c.tasks[id].status in {Running, Finished} <==> id in OnCpu(c)
    ensures c.tasks[id].status in {Running, Finished} ==> id == c.current
  {
    assert multiset(Spawned(c))[id] == 1;
    if id in Ids(c.ready) { var i :| 0 <= i < |c.ready| && Ids(c.ready)[i] == id; }
    if id in SleeperIds(c.blocked) { var i :| 0 <= i < |c.blocked| && SleeperIds(c.blocked)[i] == id; }
    if id in c.finished { var i :| 0 <= i < |c.finished| && c.finished[i] == id; }
    if id in Ids(c.newTasks) { var i :| 0 <= i < |c.newTasks| && Ids(c.newTasks)[i] == id; }
  }

  /** The idle task is in no queue. */
  lemma IdleNotQueued(c: Core)
    requires Inv(c)
    ensures c.idle !in Ids(c.ready) && c.idle !in SleeperIds(c.blocked) && c.idle !in c.finished
            && c.idle !in Ids(c.newTasks)
  {
    assert multiset(Spawned(c))[c.idle] == 0;
  }

  // Every step keeps the invariant

  lemma IdsAppend(q: seq<Handle>, h: Handle)
    ensures Ids(q + [h]) == Ids(q) + [h.id]
  {
  }

  lemma IdsWithout(q: seq<Handle>, i: nat)
    requires i < |q|
    ensures multiset(Ids(q)) == multiset(Ids(Without(q, i))) + multiset{q[i].id}
  {
    assert Ids(q) == Ids(q)[..i] + [q[i].id] + Ids(q)[i + 1..];
    assert Ids(Without(q, i)) == Ids(q)[..i] + Ids(q)[i + 1..];
  }

  lemma SleepersWithout(q: seq<Sleeper>, i: nat)
    requires i < |q|
    ensures multiset(SleeperIds(q)) == multiset(SleeperIds(q[..i] + q[i + 1..])) + multiset{q[i].id}
    ensures Sorted(q) ==> Sorted(q[..i] + q[i + 1..])
  {
    assert SleeperIds(q) == SleeperIds(q)[..i] + [q[i].id] + SleeperIds(q)[i + 1..];
    assert SleeperIds(q[..i] + q[i + 1..]) == SleeperIds(q)[..i] + SleeperIds(q)[i + 1..];
  }

  lemma SleepersAdd(q: seq<Sleeper>, x: Sleeper)
    ensures multiset(SleeperIds(AddSleeper(q, x))) == multiset(SleeperIds(q)) + multiset{x.id}
  {
    var i := Insertion(q, x.wakeup);
    assert SleeperIds(q) == SleeperIds(q)[..i] + SleeperIds(q)[i..];
    assert SleeperIds(AddSleeper(q, x)) == SleeperIds(q)[..i] + [x.id] + SleeperIds(q)[i..];
  }

  lemma {:induction false} InsertionIsFirst(q: seq<Sleeper>, wakeup: Option<nat>)
    ensures forall j :: 0 <= j < Insertion(q, wakeup) ==> !Before(wakeup, q[j].wakeup)
    ensures Insertion(q, wakeup) < |q| ==> Before(wakeup, q[Insertion(q, wakeup)].wakeup)
  {
    if q != [] && !Before(wakeup, q[0].wakeup) { InsertionIsFirst(q[1..], wakeup); }
  }

  lemma AddKeepsSorted(q: seq<Sleeper>, x: Sleeper)
    requires Sorted(q)
    ensures Sorted(AddSleeper(q, x))
  {
    InsertionIsFirst(q, x.wakeup);
    var i := Insertion(q, x.wakeup);
    forall j | i <= j < |q|
      ensures !Before(q[j].wakeup, x.wakeup)
    {
      assert !Before(q[j].wakeup, q[i].wakeup) || i == j;
    }
  }

  lemma WakeAtKeepsInv(c: Core, i: nat)
    requires Inv(c) && i < |c.blocked|
    ensures Inv(WakeAt(c, i))
  {
    hide Sorted, Matching, Places;
    SleepersWithout(c.blocked, i);
    OneSleeper(c, i);
    WakeAtMatching(c, i);
    WakeAtPlaces(c, i);
    assert Spawned(WakeAt(c, i)) == Spawned(c);
  }

  lemma WakeAtMatching(c: Core, i: nat)
    requires Known(c) && Matching(c) && i < |c.blocked|
    requires forall j :: 0 <= j < |c.blocked| && j != i ==> c.blocked[j].id != c.blocked[i].id
    ensures Matching(WakeAt(c, i))
  {
  }

  lemma WakeAtPlaces(c: Core, i: nat)
    requires Known(c) && Matching(c) && i < |c.blocked|
    ensures Places(WakeAt(c, i)) == Places(c)
  {
    var id := c.blocked[i].id;
    SleepersWithout(c.blocked, i);
    IdsAppend(c.ready, Handle(id, c.tasks[id].prio, c.core));
    assert OnCpu(WakeAt(c, i)) == OnCpu(c);
    hide Matching, Ids, SleeperIds, OnCpu;
  }

  /** No task sleeps twice. */
  lemma OneSleeper(c: Core, i: nat)
    requires Inv(c) && i < |c.blocked|
    ensures forall j :: 0 <= j < |c.blocked| && j != i ==> c.blocked[j].id != c.blocked[i].id
  {
    AtMostOnce(c, c.blocked[i].id);
    hide Inv;
    SleepersWithout(c.blocked, i);
    var rest := SleeperIds(c.blocked[..i] + c.blocked[i + 1..]);
    assert c.blocked[i].id !in rest;
    forall j | 0 <= j < |c.blocked| && j != i
      ensures c.blocked[j].id != c.blocked[i].id
    {
      assert rest[if j < i then j else j - 1] == c.blocked[j].id;
    }
  }

  /** No task is in a queue twice. */
  lemma AtMostOnce(c: Core, id: int)
    requires Inv(c)
    ensures multiset(Ids(c.ready))[id] <= 1 && multiset(SleeperIds(c.blocked))[id] <= 1
            && multiset(Ids(c.newTasks))[id] <= 1
  {
    hide Matching, Sorted, Ids, SleeperIds, OnCpu;
    assert Places(c)[id] == multiset(Spawned(c))[id] <= 1;
  }

  lemma {:induction false} DrainWakeupsKeepsInv(c: Core)
    requires Inv(c)
    ensures Inv(DrainWakeups(c))
    decreases |c.wakeups|
  {
    hide WakeAt, Matching, Sorted, Places, Find;
    if c.wakeups != [] {
      var c1 := c.(wakeups := c.wakeups[1..]);
      InboxKeepsInv(c, c1);
      WakeKeepsInv(c1, c.wakeups[0].id);
      DrainWakeupsKeepsInv(ApplyWake(c1, c.wakeups[0].id));
    }
  }

  lemma WakeKeepsInv(c: Core, id: int)
    requires Inv(c)
    ensures Inv(ApplyWake(c, id))
  {
    hide WakeAt, Matching, Sorted, Places;
    if Find(c.blocked, id) < |c.blocked| { WakeAtKeepsInv(c, Find(c.blocked, id)); }
  }

  lemma InboxKeepsInv(c: Core, c': Core)
    requires Inv(c) && c' == c.(wakeups := c'.wakeups)
    ensures Inv(c')
  {
    hide Sorted, Ids, SleeperIds, OnCpu;
    SameOnCpu(c, c');
    assert Places(c') == Places(c) && Spawned(c') == Spawned(c);
  }

  lemma AdmitKeepsInv(c: Core)
    requires Inv(c) && c.newTasks != []
    ensures Inv(Admit(c))
  {
    hide Sorted, Matching, Places;
    OneNewTask(c);
    AdmitMatching(c);
    AdmitPlaces(c);
    assert Spawned(Admit(c)) == Spawned(c);
  }

  lemma AdmitMatching(c: Core)
    requires Known(c) && Matching(c) && c.newTasks != []
    requires forall j :: 0 < j < |c.newTasks| ==> c.newTasks[j].id != c.newTasks[0].id
    ensures Matching(Admit(c))
  {
  }

  lemma AdmitPlaces(c: Core)
    requires Known(c) && Matching(c) && c.newTasks != []
    ensures Places(Admit(c)) == Places(c)
  {
    IdsWithout(c.newTasks, 0);
    assert Without(c.newTasks, 0) == c.newTasks[1..];
    IdsAppend(c.ready, c.newTasks[0]);
    assert OnCpu(Admit(c)) == OnCpu(c);
    hide Matching, Ids, SleeperIds, OnCpu;
  }

  lemma OneNewTask(c: Core)
    requires Inv(c) && c.newTasks != []
    ensures forall j :: 0 < j < |c.newTasks| ==> c.newTasks[j].id != c.newTasks[0].id
  {
    hide Inv, Ids;
    AtMostOnce(c, c.newTasks[0].id);
    OneHandle(c.newTasks, 0);
  }

  lemma OneHandle(q: seq<Handle>, i: nat)
    requires i < |q| && multiset(Ids(q))[q[i].id] <= 1
    ensures forall j :: 0 <= j < |q| && j != i ==> q[j].id != q[i].id
  {
    IdsWithout(q, i);
    var rest := Ids(Without(q, i));
    assert q[i].id !in rest;
    forall j | 0 <= j < |q| && j != i ensures q[j].id != q[i].id { assert rest[if j < i then j else j - 1] == q[j].id; }
  }

  lemma {:induction false} DrainNewKeepsInv(c: Core)
    requires Inv(c)
    ensures Inv(DrainNew(c))
    decreases |c.newTasks|
  {
    hide Matching, Sorted, Places, Admit;
    if c.newTasks != [] { AdmitKeepsInv(c); AdmitShrinks(c); DrainNewKeepsInv(Admit(c)); }
  }

  lemma AdmitShrinks(c: Core)
    requires Known(c) && c.newTasks != []
    ensures Admit(c).newTasks == c.newTasks[1..]
  {
  }

  lemma {:induction false} WakeElapsedKeepsInv(c: Core, i: nat, now: nat)
    requires Inv(c) && i <= |c.blocked|
    ensures Inv(WakeElapsed(c, i, now))
    decreases |c.blocked| - i
  {
    hide Matching, Sorted, Places, WakeAt;
    if i < |c.blocked| {
      if Elapsed(c.blocked[i], now) { WakeAtKeepsInv(c, i); WakeElapsedKeepsInv(WakeAt(c, i), i, now); }
      else { WakeElapsedKeepsInv(c, i + 1, now); }
    }
  }

  lemma SpawnKeepsInv(c: Core, id: int, prio: nat)
    requires Inv(c) && id !in c.tasks && prio < NO_PRIORITIES
    ensures Inv(ApplySpawn(c, id, prio)) && Inv(ApplySpawnFromElsewhere(c, id, prio))
  {
    hide Sorted, Matching, Places;
    SpawnMatching(c, id, prio);
    SpawnFromElsewhereMatching(c, id, prio);
    SpawnPlaces(c, id, prio);
    assert Spawned(ApplySpawn(c, id, prio)) == Spawned(c) + {id} == Spawned(ApplySpawnFromElsewhere(c, id, prio));
  }

  lemma SpawnMatching(c: Core, id: int, prio: nat)
    requires Known(c) && Matching(c) && id !in c.tasks && prio < NO_PRIORITIES
    ensures Known(ApplySpawn(c, id, prio)) && Matching(ApplySpawn(c, id, prio))
  {
  }

  lemma SpawnFromElsewhereMatching(c: Core, id: int, prio: nat)
    requires Known(c) && Matching(c) && id !in c.tasks && prio < NO_PRIORITIES
    ensures Known(ApplySpawnFromElsewhere(c, id, prio)) && Matching(ApplySpawnFromElsewhere(c, id, prio))
  {
  }

  lemma SpawnPlaces(c: Core, id: int, prio: nat)
    requires Known(c) && id !in c.tasks
    ensures Places(ApplySpawn(c, id, prio)) == Places(c) + multiset{id}
    ensures Places(ApplySpawnFromElsewhere(c, id, prio)) == Places(c) + multiset{id}
  {
    hide Ids, SleeperIds, OnCpu;
    IdsAppend(c.ready, Handle(id, prio, c.core));
    IdsAppend(c.newTasks, Handle(id, prio, c.core));
    SameOnCpu(c, ApplySpawn(c, id, prio));
    SameOnCpu(c, ApplySpawnFromElsewhere(c, id, prio));
  }

  lemma SameOnCpu(c: Core, c': Core)
    requires c.current in c.tasks && c'.current == c.current && c.current in c'.tasks
             && c'.tasks[c.current] == c.tasks[c.current]
    ensures OnCpu(c') == OnCpu(c)
  {
  }

  lemma BlockKeepsInv(c: Core, wakeup: Option<nat>)
    requires Inv(c) && c.tasks[c.current].status == Running
    ensures Inv(ApplyBlock(c, wakeup))
  {
    hide Sorted, Insertion, AddSleeper;
    var c1 := ApplyBlock(c, wakeup);
    AddKeepsSorted(c.blocked, Sleeper(c.current, wakeup));
    SleepersAdd(c.blocked, Sleeper(c.current, wakeup));
    AddedSleepers(c.blocked, Sleeper(c.current, wakeup));
    assert Spawned(c1) == Spawned(c);
    BlockMatching(c, wakeup);
    BlockPlaces(c, wakeup);
  }

  lemma AddedSleepers(q: seq<Sleeper>, x: Sleeper)
    ensures forall y :: y in AddSleeper(q, x) ==> y == x || y in q
  {
  }

  lemma BlockMatching(c: Core, wakeup: Option<nat>)
    requires Known(c) && Matching(c) && c.tasks[c.current].status == Running
    requires forall y :: y in AddSleeper(c.blocked, Sleeper(c.current, wakeup)) ==>
               y == Sleeper(c.current, wakeup) || y in c.blocked
    ensures Known(ApplyBlock(c, wakeup)) && Matching(ApplyBlock(c, wakeup))
  {
    hide AddSleeper, Insertion;
    var c1 := ApplyBlock(c, wakeup);
    forall i | 0 <= i < |c1.blocked|
      ensures c1.blocked[i].id in c1.tasks && c1.tasks[c1.blocked[i].id].status == Blocked
    {
      assert c1.blocked[i] in c1.blocked;
    }
  }

  lemma BlockPlaces(c: Core, wakeup: Option<nat>)
    requires Known(c) && c.tasks[c.current].status == Running
    requires multiset(SleeperIds(AddSleeper(c.blocked, Sleeper(c.current, wakeup))))
             == multiset(SleeperIds(c.blocked)) + multiset{c.current}
    ensures Places(ApplyBlock(c, wakeup)) == Places(c)
  {
    hide AddSleeper, SleeperIds, Ids, Insertion;
  }

  lemma CurrentKeepsInv(c: Core, task: Task)
    requires Inv(c) && c.tasks[c.current].status == Running && task.status in {Running, Finished}
             && task.prio < NO_PRIORITIES
    ensures Inv(c.(tasks := c.tasks[c.current := task]))
  {
    hide Sorted;
    var c1 := c.(tasks := c.tasks[c.current := task]);
    assert Spawned(c1) == Spawned(c) && Places(c1) == Places(c);
  }

  lemma CleanupKeepsInv(c: Core)
    requires Inv(c)
    ensures Inv(ApplyCleanup(c))
  {
    hide Sorted;
    var c1 := ApplyCleanup(c);
    forall id | id in c.finished
      ensures c.tasks[id].status == Invalid && id in c.tasks
    {
      var i :| 0 <= i < |c.finished| && c.finished[i] == id;
    }
    IdleNotQueued(c);
    CleanupPlaces(c);
  }

  lemma CleanupPlaces(c: Core)
    requires Inv(c)
    ensures c.current in ApplyCleanup(c).tasks ==> Places(ApplyCleanup(c)) == multiset(Spawned(ApplyCleanup(c)))
  {
    hide Sorted;
    var c1 := ApplyCleanup(c);
    assert Places(c) == multiset(Spawned(c));
    if c.current in c1.tasks {
      forall id: int
        ensures Places(c1)[id] == multiset(Spawned(c1))[id]
      {
        assert Places(c)[id] == multiset(Spawned(c))[id];
        assert id in c.finished <==> multiset(c.finished)[id] > 0;
      }
    }
  }

  // The scheduling decision

  lemma SwitchKeepsInv(c: Core)
    requires Inv(c)
    ensures Inv(Switch(c))
  {
    hide Sorted, Places, Switch;
    SwitchMatching(c) by { if c.ready != [] { OneReady(c); } }
    SwitchPlaces(c);
    SwitchKeepsTasks(c);
  }

  lemma SwitchKeepsTasks(c: Core)
    requires Known(c)
    ensures Spawned(Switch(c)) == Spawned(c) && Switch(c).blocked == c.blocked
  {
  }

  /** The next task is queued once. */
  lemma OneReady(c: Core)
    requires Inv(c) && c.ready != []
    ensures forall j :: 0 <= j < |Without(c.ready, Next(c.ready))| ==>
              Without(c.ready, Next(c.ready))[j].id != c.ready[Next(c.ready)].id
  {
    hide Inv, Ids, Next;
    var i := Next(c.ready);
    AtMostOnce(c, c.ready[i].id);
    OneHandle(c.ready, i);
    WithoutFrom(c.ready, i);
  }

  lemma WithoutFrom(q: seq<Handle>, i: nat)
    requires i < |q|
    ensures forall j :: 0 <= j < |Without(q, i)| ==> Without(q, i)[j] == q[if j < i then j else j + 1]
  {
  }

  lemma SwitchMatching(c: Core)
    requires Known(c) && Matching(c)
    requires c.ready != [] ==> forall j :: 0 <= j < |Without(c.ready, Next(c.ready))| ==>
               Without(c.ready, Next(c.ready))[j].id != c.ready[Next(c.ready)].id
    ensures Known(Switch(c)) && Matching(Switch(c))
  {
    hide Next, Highest;
    if c.ready != [] { WithoutFrom(c.ready, Next(c.ready)); }
  }

  lemma SwitchPlaces(c: Core)
    requires Known(c) && Matching(c)
    ensures Switch(c).current in Switch(c).tasks && Places(Switch(c)) == Places(c)
  {
    hide Places, Ids, SleeperIds, OnCpu;
    SwitchQueues(c);
    SamePlaces(c, Switch(c));
  }

  lemma SamePlaces(c: Core, c': Core)
    requires c.current in c.tasks && c'.current in c'.tasks && c'.blocked == c.blocked && c'.newTasks == c.newTasks
    requires multiset(Ids(c'.ready)) + multiset(c'.finished) + OnCpu(c')
             == multiset(Ids(c.ready)) + multiset(c.finished) + OnCpu(c)
    ensures Places(c') == Places(c)
  {
    hide Ids, SleeperIds, OnCpu;
    var rest := multiset(SleeperIds(c.blocked)) + multiset(Ids(c.newTasks));
    assert Places(c) == multiset(Ids(c.ready)) + multiset(c.finished) + OnCpu(c) + rest;
    assert Places(c') == multiset(Ids(c'.ready)) + multiset(c'.finished) + OnCpu(c') + rest;
  }

  lemma SwitchQueues(c: Core)
    requires Known(c) && Matching(c)
    ensures Switch(c).current in Switch(c).tasks
    ensures multiset(Ids(Switch(c).ready)) + multiset(Switch(c).finished) + OnCpu(Switch(c))
         == multiset(Ids(c.ready)) + multiset(c.finished) + OnCpu(c)
  {
    hide Ids, Next, Highest, Without, OnCpu, Switch;
    if c.ready == [] {
      SwitchToIdle(c);
    } else if c.tasks[c.current].status == Running {
      if Highest(c.ready) >= c.tasks[c.current].prio { SwitchFromRunning(c); } else { KeepRunning(c); }
    } else {
      SwitchFromOther(c);
    }
    Regroup(multiset(Ids(c.ready)), multiset(c.finished), OnCpu(c));
    Regroup(multiset(Ids(Switch(c).ready)), multiset(Switch(c).finished), OnCpu(Switch(c)));
  }

  lemma Regroup(a: multiset<int>, b: multiset<int>, c: multiset<int>)
    ensures a + b + c == a + (b + c) == a + c + b
  {
  }

  lemma KeepRunning(c: Core)
    requires Known(c) && c.tasks[c.current].status == Running && c.ready != []
             && Highest(c.ready) < c.tasks[c.current].prio
    ensures Switch(c) == c
  {
  }

  lemma SwitchToIdle(c: Core)
    requires Known(c) && Matching(c) && c.ready == []
    ensures Switch(c).current in Switch(c).tasks && Switch(c).ready == []
    ensures multiset(Switch(c).finished) + OnCpu(Switch(c)) == multiset(c.finished) + OnCpu(c)
  {
  }

  lemma SwitchFromRunning(c: Core)
    requires Known(c) && Matching(c) && c.ready != [] && c.tasks[c.current].status == Running
             && Highest(c.ready) >= c.tasks[c.current].prio
    ensures Switch(c).current in Switch(c).tasks && Switch(c).finished == c.finished
    ensures multiset(Ids(Switch(c).ready)) + OnCpu(Switch(c)) == multiset(Ids(c.ready)) + OnCpu(c)
  {
    hide Ids, Next, Highest, Without;
    var i := Next(c.ready);
    IdsWithout(c.ready, i);
    IdsAppend(Without(c.ready, i), Handle(c.current, c.tasks[c.current].prio, c.core));
    assert OnCpu(Switch(c)) == multiset{c.ready[i].id} && OnCpu(c) == multiset{c.current};
  }

  lemma SwitchFromOther(c: Core)
    requires Known(c) && Matching(c) && c.ready != [] && c.tasks[c.current].status != Running
    ensures Switch(c).current in Switch(c).tasks && multiset(Switch(c).finished) == multiset(c.finished) + OnCpu(c)
    ensures multiset(Ids(Switch(c).ready)) + OnCpu(Switch(c)) == multiset(Ids(c.ready))
  {
    hide Ids, Next, Highest, Without;
    IdsWithout(c.ready, Next(c.ready));
    assert OnCpu(Switch(c)) == multiset{c.ready[Next(c.ready)].id};
  }

  /** After a scheduling decision. */
  ghost predicate Decided(c: Core) {
    && Known(c) && Matching(c)
    && c.tasks[c.current].status in {Running, Idle}
    && (c.tasks[c.current].status == Running ==> forall i :: 0 <= i < |c.ready| ==>
          c.ready[i].prio <= c.tasks[c.current].prio)
    && (c.tasks[c.current].status == Idle ==> c.ready == [])
  }

  lemma SwitchDecides(c: Core)
    requires Inv(c)
    ensures Decided(Switch(c))
  {
    hide Sorted, Places, Earliest, Highest;
    SwitchKeepsInv(c);
    if c.ready != [] { WithoutFrom(c.ready, Next(c.ready)); }
  }

  /** The invariant is all that the steps need of a core. */
  lemma CanStep(c: Core, step: Step)
    requires Inv(c) && Enabled(c, step)
    ensures Can(c, step)
  {
    hide Matching, Sorted, Places, ApplyCleanup;
    CleanupKeepsInv(c);
  }

  lemma StepKeepsInv(c: Core, step: Step)
    requires Inv(c) && Enabled(c, step)
    ensures Can(c, step) && Inv(Apply(c, step))
    ensures step.Decide? ==> Decided(Apply(c, step))
  {
    hide Inv, Decided, Known, ApplyCleanup, ApplyBlock, ApplyWake, ApplySpawn, ApplySpawnFromElsewhere, Switch,
         DrainNew, DrainWakeups, WakeElapsed;
    CanStep(c, step);
    match step
    case Spawn(id, prio) => SpawnKeepsInv(c, id, prio);
    case SpawnFromElsewhere(id, prio) => SpawnKeepsInv(c, id, prio);
    case Wake(id) => WakeKeepsInv(c, id);
    case WakeFromElsewhere(h) => InboxKeepsInv(c, Apply(c, step));
    case CheckInput => DrainWakeupsKeepsInv(c); DrainNewKeepsInv(DrainWakeups(c));
    case Block(wakeup) => BlockKeepsInv(c, wakeup);
    case Timer(now) => WakeElapsedKeepsInv(c, 0, now);
    case Exit => CurrentStays(c); CurrentKeepsInv(c, c.tasks[c.current].(status := Finished));
    case SetPriority(prio) => CurrentKeepsInv(c, c.tasks[c.current].(prio := prio));
    case Cleanup => CleanupKeepsInv(c);
    case Decide => CleanupKeepsInv(c); SwitchKeepsInv(ApplyCleanup(c)); SwitchDecides(ApplyCleanup(c));
  }

  lemma CurrentStays(c: Core)
    requires Inv(c)
    ensures c.current in c.tasks && c.tasks[c.current].prio < NO_PRIORITIES
  {
  }

  // Every run

  ghost predicate Can(c: Core, step: Step) {
    Known(c) && Known(ApplyCleanup(c)) && Enabled(c, step)
  }

  ghost predicate Runs(c: Core, steps: seq<Step>)
    decreases |steps|
  {
    steps == [] || (Can(c, steps[0]) && Runs(Apply(c, steps[0]), steps[1..]))
  }

  ghost function After(c: Core, steps: seq<Step>): Core
    requires Runs(c, steps)
    decreases |steps|
  {
    if steps == [] then c else After(Apply(c, steps[0]), steps[1..])
  }

  /** Whatever happens: each task is in exactly one place, and after a decision the right task runs. */
  lemma {:induction false} RunKeepsInv(c: Core, steps: seq<Step>)
    requires Inv(c) && Runs(c, steps)
    ensures Inv(After(c, steps))
    ensures steps != [] && steps[|steps| - 1].Decide? ==> Decided(After(c, steps))
    decreases |steps|
  {
    hide Inv, Apply, Decided, Known, ApplyCleanup;
    if steps != [] {
      StepKeepsInv(c, steps[0]);
      RunKeepsInv(Apply(c, steps[0]), steps[1..]);
    }
  }

  lemma EveryRun(core: nat, idle: int, steps: seq<Step>)
    requires Runs(Fresh(core, idle), steps)
    ensures Inv(After(Fresh(core, idle), steps))
    ensures steps != [] && steps[|steps| - 1].Decide? ==> Decided(After(Fresh(core, idle), steps))
  {
    hide Inv, Runs, After, Fresh, Decided;
    FreshInv(core, idle);
    RunKeepsInv(Fresh(core, idle), steps);
  }

  // No task is lost

  lemma {:induction false} DrainWakeupsKeepsTasks(c: Core)
    requires Known(c)
    ensures DrainWakeups(c).tasks.Keys == c.tasks.Keys && DrainWakeups(c).idle == c.idle
            && c.ready <= DrainWakeups(c).ready
    decreases |c.wakeups|
  {
    hide Find;
    if c.wakeups != [] { DrainWakeupsKeepsTasks(ApplyWake(c.(wakeups := c.wakeups[1..]), c.wakeups[0].id)); }
  }

  lemma {:induction false} DrainNewKeepsTasks(c: Core)
    requires Known(c)
    ensures DrainNew(c).tasks.Keys == c.tasks.Keys && DrainNew(c).idle == c.idle && c.ready <= DrainNew(c).ready
    decreases |c.newTasks|
  {
    if c.newTasks != [] { DrainNewKeepsTasks(Admit(c)); }
  }

  lemma {:induction false} WakeElapsedKeepsTasks(c: Core, i: nat, now: nat)
    requires Known(c) && i <= |c.blocked|
    ensures WakeElapsed(c, i, now).tasks.Keys == c.tasks.Keys && WakeElapsed(c, i, now).idle == c.idle
            && c.ready <= WakeElapsed(c, i, now).ready
    decreases |c.blocked| - i
  {
    if i < |c.blocked| {
      if Elapsed(c.blocked[i], now) {
        WakeElapsedKeepsTasks(WakeAt(c, i), i, now);
      } else {
        WakeElapsedKeepsTasks(c, i + 1, now);
      }
    }
  }

  /** Spawning adds a task, releasing removes the finished ones, and nothing else changes which tasks there are. */
  lemma StepTasks(c: Core, step: Step)
    requires Inv(c) && Can(c, step)
    ensures Apply(c, step).tasks.Keys ==
      c.tasks.Keys + (if step.Spawn? || step.SpawnFromElsewhere? then {step.id} else {})
                   - (if step.Cleanup? || step.Decide? then set id | id in c.finished else {})
  {
    hide Matching, Sorted, Places, Find, AddSleeper;
    match step
    case CheckInput => DrainWakeupsKeepsTasks(c); DrainNewKeepsTasks(DrainWakeups(c));
    case Timer(now) => WakeElapsedKeepsTasks(c, 0, now);
    case Decide => SwitchKeepsTasks(ApplyCleanup(c)); SwitchSameKeys(ApplyCleanup(c));
    case _ =>
  }

  lemma SwitchSameKeys(c: Core)
    requires Known(c)
    ensures Switch(c).tasks.Keys == c.tasks.Keys
  {
  }

  /** A task is released only after it has exited and another task has been switched to. */
  lemma ReleasedOnlyWhenFinished(c: Core, id: int)
    requires Inv(c) && id in c.finished
    ensures id in c.tasks && c.tasks[id].status == Invalid && id != c.current && id != c.idle
  {
    var i :| 0 <= i < |c.finished| && c.finished[i] == id;
  }

  // Sleepers

  function StillAsleep(q: seq<Sleeper>, now: nat): seq<Sleeper> {
    if q == [] then [] else (if Elapsed(q[0], now) then [] else [q[0]]) + StillAsleep(q[1..], now)
  }

  function Awoken(q: seq<Sleeper>, now: nat): seq<int> {
    if q == [] then [] else (if Elapsed(q[0], now) then [q[0].id] else []) + Awoken(q[1..], now)
  }

  /** The timer wakes exactly the sleepers whose time has passed, in the order of their wakeup times. */
  lemma {:induction false} TimerWakesTheElapsed(c: Core, i: nat, now: nat)
    requires Known(c) && i <= |c.blocked|
    ensures WakeElapsed(c, i, now).blocked == c.blocked[..i] + StillAsleep(c.blocked[i..], now)
    ensures Ids(WakeElapsed(c, i, now).ready) == Ids(c.ready) + Awoken(c.blocked[i..], now)
    decreases |c.blocked| - i
  {
    hide Known, WakeAt, Ids;
    if i < |c.blocked| {
      assert c.blocked[i..][1..] == c.blocked[i + 1..];
      if Elapsed(c.blocked[i], now) {
        WakeAtQueues(c, i);
        TimerWakesTheElapsed(WakeAt(c, i), i, now);
      } else {
        TimerWakesTheElapsed(c, i + 1, now);
        assert c.blocked[..i + 1] == c.blocked[..i] + [c.blocked[i]];
      }
    }
  }

  lemma WakeAtQueues(c: Core, i: nat)
    requires Known(c) && i < |c.blocked|
    ensures WakeAt(c, i).blocked[..i] == c.blocked[..i] && WakeAt(c, i).blocked[i..] == c.blocked[i + 1..]
    ensures Ids(WakeAt(c, i).ready) == Ids(c.ready) + [c.blocked[i].id]
  {
    IdsAppend(c.ready, Handle(c.blocked[i].id, c.tasks[c.blocked[i].id].prio, c.core));
  }

  /** The sleepers with the earliest wakeup times are in front. */
  lemma FrontWakesFirst(c: Core, i: nat)
    requires Inv(c) && i < |c.blocked| && c.blocked[i].wakeup.Some?
    ensures c.blocked[0].wakeup.Some? && c.blocked[0].wakeup.value <= c.blocked[i].wakeup.value
  {
    assert i == 0 || !Before(c.blocked[i].wakeup, c.blocked[0].wakeup);
  }

  // Round robin

  /** The task is at position k of its priority level. */
  ghost predicate AtLevel(c: Core, p: nat, k: nat, id: int) {
    k < |Level(c.ready, p)| && Level(c.ready, p)[k].id == id
  }

  /** No strictly higher priority is running or ready. */
  ghost predicate NoneAbove(c: Core, p: nat) {
    && (forall i :: 0 <= i < |c.ready| ==> c.ready[i].prio <= p)
    && (c.current in c.tasks && c.tasks[c.current].status == Running ==> c.tasks[c.current].prio <= p)
  }

  /** None above at any of the scheduling decisions. */
  ghost predicate Calm(c: Core, steps: seq<Step>, p: nat)
    requires Runs(c, steps)
    decreases |steps|
  {
    steps == [] || ((steps[0].Decide? ==> NoneAbove(c, p)) && Calm(Apply(c, steps[0]), steps[1..], p))
  }

  function Decisions(steps: seq<Step>): nat {
    if steps == [] then 0 else (if steps[0].Decide? then 1 else 0) + Decisions(steps[1..])
  }

  lemma OnlyDecisionsTake(c: Core, step: Step)
    requires Inv(c) && Can(c, step) && !step.Decide?
    ensures c.ready <= Apply(c, step).ready
  {
    hide Matching, Sorted, Places, Find, AddSleeper;
    match step
    case CheckInput => DrainWakeupsKeepsTasks(c); DrainNewKeepsTasks(DrainWakeups(c));
    case Timer(now) => WakeElapsedKeepsTasks(c, 0, now);
    case _ =>
  }

  lemma LevelPrefix(q: seq<Handle>, q': seq<Handle>, p: nat)
    requires q <= q'
    ensures Level(q, p) <= Level(q', p)
  {
    LevelConcat(q, q'[|q|..], p);
    assert q' == q + q'[|q|..];
  }

  /** A decision takes the head of the highest level; the others of that level move up by one. */
  lemma DecisionMovesUp(c: Core, p: nat, k: nat, id: int)
    requires Inv(c) && NoneAbove(c, p) && AtLevel(c, p, k, id)
    ensures k == 0 ==> Switch(c).current == id && Switch(c).tasks[id].status == Running
    ensures k > 0 ==> AtLevel(Switch(c), p, k - 1, id)
  {
    hide Matching, Sorted, Places, Level, Earliest;
    LevelFrom(c.ready, p);
    assert Level(c.ready, p)[k] in c.ready;
    var i := Next(c.ready);
    assert c.ready[i].prio == p;
    LevelWithout(c.ready, i, p);
    LevelPrefix(Without(c.ready, i), Switch(c).ready, p);
  }

  /** A task at position k of the highest level runs after at most k + 1 decisions. */
  lemma {:induction false} RoundRobin(c: Core, steps: seq<Step>, p: nat, k: nat, id: int) returns (n: nat)
    requires Inv(c) && Runs(c, steps) && Calm(c, steps, p) && AtLevel(c, p, k, id) && Decisions(steps) >= k + 1
    ensures n <= |steps| && Decisions(steps[..n]) <= k + 1 && Runs(c, steps[..n])
    ensures var c' := After(c, steps[..n]); c'.current == id && id in c'.tasks && c'.tasks[id].status == Running
    decreases |steps|
  {
    hide Inv, Apply, AtLevel, NoneAbove, ApplyCleanup, Known;
    var step, c1 := steps[0], Apply(c, steps[0]);
    StepKeepsInv(c, step);
    if step.Decide? {
      DecisionStep(c, p, k, id);
      if k == 0 {
        n := 1;
        assert steps[..1][0] == step && steps[..1][1..] == [];
        return;
      }
      n := RoundRobin(c1, steps[1..], p, k - 1, id);
      n := n + 1;
    } else {
      OtherStep(c, step, p, k, id);
      n := RoundRobin(c1, steps[1..], p, k, id);
      n := n + 1;
    }
    assert steps[..n][0] == step && steps[..n][1..] == steps[1..][..n - 1];
  }

  lemma DecisionStep(c: Core, p: nat, k: nat, id: int)
    requires Inv(c) && Can(c, Decide) && NoneAbove(c, p) && AtLevel(c, p, k, id)
    ensures var c' := Apply(c, Decide);
            if k == 0 then c'.current == id && id in c'.tasks && c'.tasks[id].status == Running
            else AtLevel(c', p, k - 1, id)
  {
    hide Matching, Sorted, Places, Level, Switch;
    CleanupKeepsInv(c);
    SwitchKeepsInv(ApplyCleanup(c));
    DecisionMovesUp(ApplyCleanup(c), p, k, id);
  }

  lemma OtherStep(c: Core, step: Step, p: nat, k: nat, id: int)
    requires Inv(c) && Can(c, step) && !step.Decide? && AtLevel(c, p, k, id)
    ensures AtLevel(Apply(c, step), p, k, id)
  {
    hide Inv, Apply, Level, Known, ApplyCleanup;
    OnlyDecisionsTake(c, step);
    LevelPrefix(c.ready, Apply(c, step).ready, p);
  }

  // For the running form

  lemma SwitchPriorities(c: Core)
    requires Inv(c)
    ensures Priorities(c) && Priorities(Switch(c))
  {
    hide Sorted, Places, Switch;
    SwitchKeepsInv(c);
  }

  lemma IdleIsIdle(c: Core)
    requires Inv(c)
    ensures forall id :: id in c.tasks ==> (c.tasks[id].status == Idle <==> id == c.idle)
    ensures forall i :: 0 <= i < |c.ready| ==> c.ready[i].id in c.tasks && c.ready[i].id != c.idle
    ensures c.tasks[c.current].status == Running ==> forall i :: 0 <= i < |c.ready| ==> c.ready[i].id != c.current
  {
  }

  lemma {:induction false} InsertionFound(q: seq<Sleeper>, wakeup: Option<nat>, i: nat)
    requires i <= |q| && (forall j :: 0 <= j < i ==> !Before(wakeup, q[j].wakeup))
             && (i < |q| ==> Before(wakeup, q[i].wakeup))
    ensures Insertion(q, wakeup) == i
  {
    if i > 0 { InsertionFound(q[1..], wakeup, i - 1); }
  }
}

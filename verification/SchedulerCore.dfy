/** The scheduler of one core as a class, with its priority queue, against the transition system. */
module SchedulerCore {
  import opened Options
  import opened TaskQueue
  import opened Scheduler

  class PerCoreScheduler {
    const coreId: nat
    const idle: int
    const ready: TaskHandlePriorityQueue
    var current: int
    var tasks: map<int, Task>
    var blocked: seq<Sleeper>
    var finished: seq<int>
    var newTasks: seq<Handle>
    var wakeups: seq<Handle>

    ghost function View(): Core
      reads this, ready
    {
      Core(coreId, current, idle, tasks, ready.arrivals, blocked, finished, newTasks, wakeups)
    }

    ghost predicate Valid()
      reads this, ready, ready.queues
    {
      ready.Valid() && Known(View()) && Priorities(View())
    }

    constructor (core: nat, idleTask: int)
      ensures Valid() && View() == Fresh(core, idleTask) && fresh(ready) && fresh(ready.queues)
    {
      coreId, idle, current := core, idleTask, idleTask;
      ready := new TaskHandlePriorityQueue();
      tasks := map[idleTask := Task(Idle, 0)];
      blocked, finished, newTasks, wakeups := [], [], [], [];
    }

    method Spawn(id: int, prio: nat)
      requires Valid() && id !in tasks && prio < NO_PRIORITIES
      modifies this, ready, ready.queues
      ensures Valid() && View() == ApplySpawn(old(View()), id, prio)
    {
      tasks := tasks[id := Task(Ready, prio)];
      ready.Push(Handle(id, prio, coreId));
    }

    /** Takes the blocked task at position i out of its list, marks it ready and queues it. */
    method MarkReady(i: nat)
      requires Valid() && i < |blocked|
      modifies this, ready, ready.queues
      ensures Valid() && View() == WakeAt(old(View()), i)
    {
      var id := blocked[i].id;
      blocked := blocked[..i] + blocked[i + 1..];
      tasks := tasks[id := tasks[id].(status := Ready)];
      ready.Push(Handle(id, tasks[id].prio, coreId));
    }

    /** Searches the blocked list; a task that is not there has been woken already. */
    method CustomWakeup(id: int)
      requires Valid()
      modifies this, ready, ready.queues
      ensures Valid() && View() == ApplyWake(old(View()), id)
    {
      var i := 0;
      while i < |blocked|
        invariant i <= |blocked| && View() == old(View()) && Valid()
        invariant forall j :: 0 <= j < i ==> blocked[j].id != id
      {
        if blocked[i].id == id {
          assert i == Find(blocked, id);
          MarkReady(i);
          return;
        }
        i := i + 1;
      }
      assert Find(blocked, id) == |blocked|;
    }

    method CheckInput()
      requires Valid()
      modifies this, ready, ready.queues
      ensures Valid() && View() == DrainNew(DrainWakeups(old(View())))
    {
      hide ApplyWake, Admit, Known, Priorities;
      while wakeups != []
        invariant Valid() && DrainWakeups(View()) == DrainWakeups(old(View()))
        decreases |wakeups|
      {
        PopWakeup();
      }
      while newTasks != []
        invariant Valid() && DrainNew(View()) == DrainNew(DrainWakeups(old(View())))
        decreases |newTasks|
      {
        PopNewTask();
      }
    }

    method PopWakeup()
      requires Valid() && wakeups != []
      modifies this, ready, ready.queues
      ensures Valid() && wakeups == old(wakeups)[1..]
      ensures DrainWakeups(View()) == DrainWakeups(old(View()))
    {
      ghost var was := View();
      var task := wakeups[0];
      wakeups := wakeups[1..];
      assert View() == was.(wakeups := was.wakeups[1..]);
      CustomWakeup(task.id);
    }

    method PopNewTask()
      requires Valid() && newTasks != []
      modifies this, ready, ready.queues
      ensures Valid() && newTasks == old(newTasks)[1..] && DrainNew(View()) == DrainNew(old(View()))
    {
      var task := newTasks[0];
      newTasks := newTasks[1..];
      tasks := tasks[task.id := tasks[task.id].(status := Ready)];
      ready.Push(task);
      assert View() == Admit(old(View()));
    }

    method BlockCurrentTask(wakeup: Option<nat>)
      requires Valid() && Enabled(View(), Block(wakeup))
      modifies this
      ensures Valid() && View() == ApplyBlock(old(View()), wakeup)
    {
      tasks := tasks[current := tasks[current].(status := Blocked)];
      var i := 0;
      if wakeup.None? { i := |blocked|; }
      while i < |blocked| && !Before(wakeup, blocked[i].wakeup)
        invariant i <= |blocked| && blocked == old(blocked)
                  && tasks == old(tasks)[current := old(tasks[current]).(status := Blocked)]
        invariant forall j :: 0 <= j < i ==> !Before(wakeup, blocked[j].wakeup)
      {
        i := i + 1;
      }
      InsertionFound(blocked, wakeup, i);
      blocked := blocked[..i] + [Sleeper(current, wakeup)] + blocked[i..];
    }

    method HandleWaitingTasks(now: nat)
      requires Valid()
      modifies this, ready, ready.queues
      ensures Valid() && View() == WakeElapsed(old(View()), 0, now)
    {
      hide WakeAt, Known, Priorities;
      var i := 0;
      while i < |blocked|
        invariant i <= |blocked| && Valid() && WakeElapsed(View(), i, now) == WakeElapsed(old(View()), 0, now)
        decreases |blocked| - i
      {
        if Elapsed(blocked[i], now) { MarkReady(i); } else { i := i + 1; }
      }
    }

    /** The first half of `exit`; the wakeups of the tasks that wait for it follow. */
    method Exit()
      requires Valid() && Enabled(View(), Scheduler.Exit)
      modifies this
      ensures Valid() && View() == SetStatus(old(View()), old(current), Finished)
    {
      tasks := tasks[current := tasks[current].(status := Finished)];
    }

    method CleanupTasks()
      requires Valid() && Known(ApplyCleanup(View()))
      modifies this
      ensures Valid() && View() == ApplyCleanup(old(View()))
    {
      hide Known, Priorities, Remaining;
      CleanupPriorities(View());
      ghost var gone := 0;
      AllRemain(tasks);
      while finished != []
        invariant gone <= |old(finished)| && finished == old(finished)[gone..]
        invariant tasks == Remaining(old(tasks), old(finished)[..gone])
        invariant View() == old(View()).(tasks := tasks, finished := finished) && ready.Valid()
        decreases |finished|
      {
        OneLess(old(tasks), old(finished), gone);
        tasks := tasks - {finished[0]};
        finished, gone := finished[1..], gone + 1;
      }
      assert old(finished)[..gone] == old(finished);
    }

    /** Takes the next task out of the ready queue, or the idle task if the processor would have nothing to do. */
    method Pick() returns (newTask: Option<int>)
      requires Valid()
      modifies this, ready, ready.queues
      ensures ready.Valid() && View() == old(View()).(tasks := tasks, finished := finished, ready := ready.arrivals)
      ensures old(tasks[current]).status == Running ==>
                finished == old(finished) && tasks == old(tasks)
                && (newTask.None? <==>
                      old(ready.arrivals) == []
                      || Highest(old(ready.arrivals)) < old(tasks[current]).prio)
      ensures old(tasks[current]).status != Running ==>
                finished == old(finished) + (if old(tasks[current]).status == Finished then [current] else [])
                && tasks == (if old(tasks[current]).status == Finished
                             then old(tasks)[current := old(tasks[current]).(status := Invalid)] else old(tasks))
                && (old(ready.arrivals) == []
                    ==> newTask == if old(tasks[current]).status == Idle then None else Some(idle))
      ensures newTask.Some? && old(ready.arrivals) != [] ==>
                newTask.value == old(ready.arrivals)[Next(old(ready.arrivals))].id
                && ready.arrivals == Without(old(ready.arrivals), Next(old(ready.arrivals)))
      ensures newTask.None? || old(ready.arrivals) == [] ==> ready.arrivals == old(ready.arrivals)
      ensures old(tasks[current]).status != Running && old(ready.arrivals) != [] ==> newTask.Some?
    {
      hide Next, Highest, Known, Without;
      KnownCurrent();
      newTask := None;
      var prio, status := tasks[current].prio, tasks[current].status;
      if status == Running {
        var task := ready.PopWithPrio(prio);
        if task.Some? { newTask := Some(task.value.id); }
      } else {
        if status == Finished {
          tasks := tasks[current := tasks[current].(status := Invalid)];
          finished := finished + [current];
        }
        var task := ready.Pop();
        if task.Some? {
          newTask := Some(task.value.id);
        } else if status != Idle {
          newTask := Some(idle);
        }
      }
    }

    lemma KnownCurrent()
      requires Known(View())
      ensures current in tasks && idle in tasks
    {
    }

    /** Hands the processor over, queueing the running task again. */
    method Resume(newTask: int, requeue: bool)
      requires ready.Valid() && current in tasks && newTask in tasks && tasks[current].prio < NO_PRIORITIES
      modifies this, ready, ready.queues
      ensures ready.Valid() && View() == Resumed(old(View()), newTask, requeue)
    {
      if requeue {
        tasks := tasks[current := tasks[current].(status := Ready)];
        ready.Push(Handle(current, tasks[current].prio, coreId));
      }
      if tasks[newTask].status != Idle {
        tasks := tasks[newTask := tasks[newTask].(status := Running)];
      }
      current := newTask;
    }

    method SwitchTask() returns (switched: bool)
      requires Valid() && Scheduler.Inv(View())
      modifies this, ready, ready.queues
      ensures Valid() && View() == Switch(old(View())) && switched == (current != old(current))
    {
      hide Matching, Sorted, Places, Next, Highest, Priorities, Without, Known;
      ghost var c := View();
      SwitchKeepsInv(c);
      SwitchPriorities(c);
      IdleIsIdle(c);
      PriorityOf(c);
      KnownCurrent();
      var id, status := current, tasks[current].status;
      var newTask := Pick();
      if newTask.None? {
        assert View() == Switch(c);
        return false;
      }
      Resume(newTask.value, status == Running);
      switched := id != newTask.value;
      assert View() == Switch(c);
    }

    /** The scheduling decision; `switched` is whether there is another context to switch to. */
    method Schedule() returns (switched: bool)
      requires Valid() && Scheduler.Inv(View())
      modifies this, ready, ready.queues
      ensures Valid() && View() == Switch(ApplyCleanup(old(View())))
      ensures switched == (current != old(current))
      ensures Scheduler.Inv(View()) && Decided(View())
    {
      hide Switch, Matching, Sorted, Places, Priorities, Decided;
      CleanupKeepsInv(View());
      CleanupTasks();
      SwitchKeepsInv(View());
      SwitchDecides(View());
      switched := SwitchTask();
    }
  }

  function Resumed(c: Core, newTask: int, requeue: bool): Core
    requires c.current in c.tasks && newTask in c.tasks
  {
    var me := Handle(c.current, c.tasks[c.current].prio, c.core);
    var c1 := if requeue then SetStatus(c.(ready := c.ready + [me]), c.current, Ready) else c;
    (if c1.tasks[newTask].status == Idle then c1 else SetStatus(c1, newTask, Running)).(current := newTask)
  }

  lemma PriorityOf(c: Core)
    requires Known(c) && Priorities(c)
    ensures c.tasks[c.current].prio < NO_PRIORITIES
  {
  }

  lemma AllRemain(tasks: map<int, Task>)
    ensures Remaining(tasks, []) == tasks
  {
  }

  lemma OneLess(tasks: map<int, Task>, ids: seq<int>, n: nat)
    requires n < |ids|
    ensures Remaining(tasks, ids[..n + 1]) == Remaining(tasks, ids[..n]) - {ids[n]}
  {
    assert ids[..n + 1] == ids[..n] + [ids[n]];
  }

  lemma CleanupPriorities(c: Core)
    requires Priorities(c)
    ensures Priorities(ApplyCleanup(c))
  {
  }
}

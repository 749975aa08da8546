/** Waiting for a task to exit: `join` and the wakeups of `exit`, over the map of waiting tasks all cores share. */
module Join {
  import opened Options
  import opened TaskQueue

  /** `waiting` has a queue for each task that has not exited; `inbox` holds wakeups on the way to other cores. */
  datatype State = State(
    waiting: map<int, seq<Handle>>,
    joins: map<int, Joining>,
    blocked: set<int>,
    inbox: set<Handle>,
    exited: set<int>)

  datatype Joining = Joining(handle: Handle, target: int)

  const Initial := State(map[], map[], {}, {}, {})

  datatype Step =
    | Spawn(id: int)
    | BeginJoin(handle: Handle, target: int)
    | Turn(task: int)
    | Exit(id: int, core: nat)
    | CheckInput(core: nat)
    | Disturb(task: int)

  /** A task inside `join` does nothing else; identities are not reused. */
  predicate Enabled(s: State, step: Step) {
    match step
    case Spawn(id) => id !in s.waiting && id !in s.exited
    case BeginJoin(h, _) => h.id !in s.joins && h.id !in s.blocked
    case Turn(t) => t in s.joins && t !in s.blocked
    case Exit(id, _) => id in s.waiting && id !in s.joins
    case CheckInput(_) => true
    case Disturb(t) => t in s.blocked
  }

  /** One turn of the loop in `join`: done if the target has exited, otherwise queued and blocked. */
  function ApplyTurn(s: State, t: int): (r: (State, bool))
    requires t in s.joins
  {
    var j := s.joins[t];
    if j.target !in s.waiting then (s.(joins := s.joins - {t}), true)
    else (s.(waiting := s.waiting[j.target := s.waiting[j.target] + [j.handle]], blocked := s.blocked + {t}), false)
  }

  function ApplyWakeup(s: State, core: nat, h: Handle): State {
    if h.core == core then s.(blocked := s.blocked - {h.id}) else s.(inbox := s.inbox + {h})
  }

  function WakeAll(s: State, core: nat, q: seq<Handle>): State
    decreases |q|
  {
    if q == [] then s else WakeAll(ApplyWakeup(s, core, q[0]), core, q[1..])
  }

  function ApplyExit(s: State, id: int, core: nat): State
    requires id in s.waiting
  {
    WakeAll(s.(waiting := s.waiting - {id}, exited := s.exited + {id}), core, s.waiting[id])
  }

  function Apply(s: State, step: Step): State
    requires Enabled(s, step)
  {
    match step
    case Spawn(id) => s.(waiting := s.waiting[id := []])
    case BeginJoin(h, target) => s.(joins := s.joins[h.id := Joining(h, target)])
    case Turn(t) => ApplyTurn(s, t).0
    case Exit(id, core) => ApplyExit(s, id, core)
    case CheckInput(core) =>
      s.(blocked := s.blocked - set h | h in s.inbox && h.core == core :: h.id,
         inbox := s.inbox - set h | h in s.inbox && h.core == core)
    case Disturb(t) => s.(blocked := s.blocked - {t})
  }

  /** A blocked joiner is queued at a task that has not exited, or a wakeup is on its way. */
  ghost predicate JoinInv(s: State, t: int) {
    t in s.joins && s.joins[t].handle.id == t
    && (s.joins[t].handle in s.inbox
        || (s.joins[t].target in s.waiting && s.joins[t].handle in s.waiting[s.joins[t].target]))
  }

  ghost predicate Inv(s: State) {
    && (forall t :: t in s.joins ==> s.joins[t].handle.id == t)
    && (forall t :: t in s.blocked ==> JoinInv(s, t))
    && (forall id :: id in s.exited ==> id !in s.waiting)
  }

  /** Waking a queue wakes all in it, here or through the inbox, and harms nobody else. */
  lemma {:induction false} WakeAllWakes(s: State, core: nat, q: seq<Handle>)
    ensures var s' := WakeAll(s, core, q);
            && s'.waiting == s.waiting && s'.joins == s.joins && s'.exited == s.exited && s.inbox <= s'.inbox
               && s'.blocked <= s.blocked
            && (forall h :: h in q && h.id in s'.blocked ==> h in s'.inbox)
            && (forall t :: t in s.blocked && t !in s'.blocked ==> exists h :: h in q && h.id == t && h.core == core)
            && (forall h :: h in s'.inbox ==> h in s.inbox || (h in q && h.core != core))
    decreases |q|
  {
    if q != [] {
      var s1 := ApplyWakeup(s, core, q[0]);
      WakeAllWakes(s1, core, q[1..]);
      assert q == [q[0]] + q[1..];
      forall t | t in s.blocked && t !in WakeAll(s, core, q).blocked
        ensures exists h :: h in q && h.id == t && h.core == core
      {
        if t in s1.blocked {
          var h :| h in q[1..] && h.id == t && h.core == core;
          assert h in q;
        } else {
          assert q[0] in q;
        }
      }
    }
  }

  lemma ExitKeepsInv(s: State, id: int, core: nat)
    requires Inv(s) && id in s.waiting
    ensures Inv(ApplyExit(s, id, core))
  {
    hide WakeAll;
    var s1 := s.(waiting := s.waiting - {id}, exited := s.exited + {id});
    WakeAllWakes(s1, core, s.waiting[id]);
    var s' := ApplyExit(s, id, core);
    forall t | t in s'.blocked ensures JoinInv(s', t) { assert JoinInv(s, t); }
  }

  lemma StepKeepsInv(s: State, step: Step)
    requires Inv(s) && Enabled(s, step)
    ensures Inv(Apply(s, step))
  {
    hide ApplyExit;
    var s' := Apply(s, step);
    if step.Exit? {
      ExitKeepsInv(s, step.id, step.core);
    } else {
      forall t | t in s'.blocked ensures JoinInv(s', t) { if t in s.blocked { assert JoinInv(s, t); } }
    }
  }

  ghost predicate Reaches(s: State, steps: seq<Step>, s': State)
    decreases |steps|
  {
    if steps == [] then s' == s else Enabled(s, steps[0]) && Reaches(Apply(s, steps[0]), steps[1..], s')
  }

  lemma {:induction false} RunKeepsInv(s: State, steps: seq<Step>, s': State)
    requires Inv(s) && Reaches(s, steps, s')
    ensures Inv(s')
    decreases |steps|
  {
    hide Inv, Apply, Enabled;
    if steps != [] {
      StepKeepsInv(s, steps[0]);
      RunKeepsInv(Apply(s, steps[0]), steps[1..], s');
    }
  }

  ghost predicate Reachable(s: State) {
    exists steps :: Reaches(Initial, steps, s)
  }

  lemma ReachableInv(s: State)
    requires Reachable(s)
    ensures Inv(s)
  {
    hide Reaches;
    var steps :| Reaches(Initial, steps, s);
    RunKeepsInv(Initial, steps, s);
  }

  /** Once its target has exited, a joiner returns on its next turn after its core has read its inbox. */
  lemma JoinReturns(s: State, t: int)
    requires Reachable(s) && t in s.joins && s.joins[t].target in s.exited
    ensures var s1 := Apply(s, CheckInput(s.joins[t].handle.core)); Enabled(s1, Turn(t)) && ApplyTurn(s1, t).1
  {
    hide Reachable;
    ReachableInv(s);
    if t in s.blocked { assert JoinInv(s, t); }
  }

  /** A turn ends the join if the target has exited; otherwise the exit of the target, on any core, unblocks the
      joiner or sends it a wakeup. */
  lemma JoinWaits(s: State, t: int, core: nat)
    requires Reachable(s) && Enabled(s, Turn(t))
    ensures s.joins[t].target in s.exited ==> ApplyTurn(s, t).1
    ensures !ApplyTurn(s, t).1 ==>
              var s' := ApplyExit(ApplyTurn(s, t).0, s.joins[t].target, core);
              t !in s'.blocked || s.joins[t].handle in s'.inbox
  {
    hide Reachable, WakeAll;
    ReachableInv(s);
    var (s1, done) := ApplyTurn(s, t);
    if !done {
      var target := s.joins[t].target;
      WakeAllWakes(s1.(waiting := s1.waiting - {target}, exited := s1.exited + {target}), core, s1.waiting[target]);
      assert s1.waiting[target][|s.waiting[target]|] == s.joins[t].handle;
    }
  }

  // Over runs

  function NextLiving(living: set<int>, step: Step): set<int> {
    match step
    case Spawn(id) => living + {id}
    case Exit(id, _) => living - {id}
    case _ => living
  }

  /** The tasks that were spawned and have not exited. */
  function Living(living: set<int>, steps: seq<Step>): set<int>
    decreases |steps|
  {
    if steps == [] then living else Living(NextLiving(living, steps[0]), steps[1..])
  }

  lemma {:induction false} QueuesOfTheLiving(s: State, steps: seq<Step>, s': State)
    requires Inv(s) && Reaches(s, steps, s')
    ensures s'.waiting.Keys == Living(s.waiting.Keys, steps)
    decreases |steps|
  {
    hide Inv, ApplyExit;
    if steps != [] {
      StepKeepsInv(s, steps[0]);
      if steps[0].Exit? { ExitRemoves(s, steps[0].id, steps[0].core); }
      assert Apply(s, steps[0]).waiting.Keys == NextLiving(s.waiting.Keys, steps[0]);
      QueuesOfTheLiving(Apply(s, steps[0]), steps[1..], s');
    }
  }

  lemma ExitRemoves(s: State, id: int, core: nat)
    requires id in s.waiting
    ensures ApplyExit(s, id, core).waiting == s.waiting - {id}
  {
    hide WakeAll;
    WakeAllWakes(s.(waiting := s.waiting - {id}, exited := s.exited + {id}), core, s.waiting[id]);
  }

  /** Over every run, a turn ends the join exactly if its target is not alive: it was never spawned, or it has exited.
      Otherwise the joiner blocks. */
  lemma JoinEndsExactly(steps: seq<Step>, s: State, t: int)
    requires Reaches(Initial, steps, s) && Enabled(s, Turn(t))
    ensures ApplyTurn(s, t).1 <==> s.joins[t].target !in Living({}, steps)
    ensures ApplyTurn(s, t).1 <==> t !in ApplyTurn(s, t).0.joins
    ensures !ApplyTurn(s, t).1 <==> t in ApplyTurn(s, t).0.blocked
    ensures !ApplyTurn(s, t).1 ==>
              var target := s.joins[t].target;
              ApplyTurn(s, t).0.waiting == s.waiting[target := s.waiting[target] + [s.joins[t].handle]]
  {
    hide Reaches, Living;
    QueuesOfTheLiving(Initial, steps, s);
    assert Initial.waiting.Keys == {};
  }

  // Imperative form

  class WaitingTasks {
    var waiting: map<int, seq<Handle>>
    var blocked: set<int>
    var inbox: set<Handle>
    ghost var world: State

    ghost function View(): State
      reads this
    {
      world.(waiting := waiting, blocked := blocked, inbox := inbox)
    }

    constructor ()
      ensures View() == Initial
    {
      waiting, blocked, inbox := map[], {}, {};
      world := Initial;
    }

    method JoinTurn(task: Handle, target: int) returns (done: bool)
      requires task.id in View().joins && View().joins[task.id] == Joining(task, target)
      modifies this
      ensures (View(), done) == ApplyTurn(old(View()), task.id)
    {
      ghost var s := View();
      done := target !in waiting;
      if !done {
        waiting := waiting[target := waiting[target] + [task]];
        blocked := blocked + {task.id};
      }
      world := ApplyTurn(s, task.id).0;
    }

    method CustomWakeup(core: nat, task: Handle)
      modifies this`blocked, this`inbox
      ensures View() == ApplyWakeup(old(View()), core, task)
    {
      if task.core == core { blocked := blocked - {task.id}; } else { inbox := inbox + {task}; }
    }

    /** The part of `exit` that takes the queue out and wakes everyone in it. */
    method WakeJoiners(id: int, core: nat)
      requires id in waiting
      modifies this
      ensures View() == ApplyExit(old(View()), id, core)
    {
      var queue := waiting[id];
      waiting := waiting - {id};
      world := world.(exited := world.exited + {id});
      while queue != []
        invariant WakeAll(View(), core, queue) == ApplyExit(old(View()), id, core)
        decreases |queue|
      {
        CustomWakeup(core, queue[0]);
        queue := queue[1..];
      }
    }
  }
}

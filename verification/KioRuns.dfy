/** Every run of a kio channel, and what it means for the users of the channel. */
module KioRuns {
  import opened Options
  import opened KioWaiters
  import opened KioChannel

  lemma LockStepKeepsInv(s: State, op: nat)
    requires Inv(s) && Enabled(s, LockStep(op))
    ensures Inv(ApplyLockStep(s, op))
  {
    match s.ops[op]
    case Upgrading => UpgradeLockKeepsInv(s, op);
    case DroppingProducer => if s.closed { ClosedDropKeepsInv(s, op); } else { CloseKeepsInv(s, s, op); }
    case _ => ChurnKeepsInv(s, op);
  }

  lemma ClosedDropKeepsInv(s: State, op: nat)
    requires Inv(s) && Enabled(s, LockStep(op)) && s.ops[op].DroppingProducer? && s.closed
    ensures Inv(s.(ops := s.ops - {op}))
  {
    hide WaiterInv, FreshInv, CountWaiterListed, CountInv, ProducerInv;
    var s' := s.(ops := s.ops - {op});
    CountsKeepWaiters(s, s', op);
    SameCountWaiters(s, s', true);
    SameCountWaiters(s, s', false);
    OpIsFresh(s, op);
    SameCounts(s, s', op);
    FreshAfter(s, s', op);
  }

  lemma InvFacts(s: State)
    requires Inv(s)
    ensures ListsValid(s)
    ensures forall w :: w in s.alive ==> w < s.next
  {
  }

  lemma StepKeepsInv(s: State, step: Step)
    requires Inv(s) && Enabled(s, step) && ListsValid(s)
    ensures Inv(Apply(s, step))
  {
    hide Inv, ApplyWrite, ApplyPollCount, ApplyFinishPoll, ApplyLockStep, ApplyWakeOne, RegisterIn;
    InvFacts(s);
    match step
    case NewWaiter => WaitersComeAndGo(s, Apply(s, step));
    case DropWaiter(_) => WaitersComeAndGo(s, Apply(s, step));
    case Write(v, mutate, close) => WriteKeepsInv(s, v, mutate, close);
    case PollValue(w, ready) => if !(ready || s.closed) { PollKeepsInv(s, OnValue, w); }
    case PollClosed(w) => if !s.closed { PollKeepsInv(s, OnClosed, w); }
    case PollCount(w, used, weak) => PollCountKeepsInv(s, w, used, weak);
    case FinishPoll(op) => FinishPollKeepsInv(s, op);
    case Consume => ConsumeKeepsInv(s);
    case CloneConsumer(h) => CloneConsumerKeepsInv(s, h);
    case DropConsumer(h) => DropConsumerKeepsInv(s, h);
    case CloneProducer(_) => CloneProducerKeepsInv(s);
    case DropProducer(h) => DropProducerKeepsInv(s, h);
    case Upgrade => UpgradeKeepsInv(s);
    case LockStep(op) => LockStepKeepsInv(s, op);
    case WakeOne(op) => WakeOneKeepsInv(s, op);
  }

  /** A state reached from s by the steps, all of them enabled. */
  ghost predicate Reaches(s: State, steps: seq<Step>, s': State)
    decreases |steps|
  {
    if steps == [] then s' == s
    else ListsValid(s) && Enabled(s, steps[0]) && Reaches(Apply(s, steps[0]), steps[1..], s')
  }

  lemma {:induction false} RunKeepsInv(s: State, steps: seq<Step>, s': State)
    requires Inv(s) && Reaches(s, steps, s')
    ensures Inv(s')
    decreases |steps|
  {
    hide Inv, Apply;
    if steps != [] {
      StepKeepsInv(s, steps[0]);
      RunKeepsInv(Apply(s, steps[0]), steps[1..], s');
    }
  }

  ghost predicate Reachable(s: State) {
    exists value, steps :: Reaches(Created(value), steps, s)
  }

  lemma ReachableInv(s: State)
    requires Reachable(s)
    ensures Inv(s)
  {
    hide Inv, Created, Reaches;
    var value, steps :| Reaches(Created(value), steps, s);
    CreatedInv(value);
    RunKeepsInv(Created(value), steps, s);
  }

  // What it means for users of a channel

  /** Counts are exactly the handles and the upgrades under way, so no decrement ever underflows. */
  lemma CountsMatchHandles(s: State)
    requires Reachable(s)
    ensures s.consumers == |s.consumerHandles| && s.producers == |s.producerHandles| + |UpgradingOps(s)|
    ensures forall h :: h in s.consumerHandles ==> s.consumers > 0
    ensures forall h :: h in s.producerHandles ==> s.producers > 0
    ensures forall op :: op in s.ops && s.ops[op].Upgrading? ==> s.producers > 0
    ensures ListsValid(s)
  {
    hide Reachable, WaiterInv, FreshInv;
    ReachableInv(s);
    InvFacts(s);
    forall op | op in s.ops && s.ops[op].Upgrading? ensures s.producers > 0 { assert op in UpgradingOps(s); }
  }

  /** An open channel has a counted producer, or its last producer is between its decrement and the lock. */
  lemma OpenHasProducer(s: State)
    requires Reachable(s) && !s.closed
    ensures s.producers > 0 || exists op :: op in s.ops && s.ops[op].DroppingProducer?
  {
    hide Reachable, WaiterInv, FreshInv;
    ReachableInv(s);
  }

  /** With nothing under way and no producer handle left, the channel is closed. */
  lemma QuiescentWithoutProducersIsClosed(s: State)
    requires Reachable(s) && s.ops == map[] && s.producerHandles == {}
    ensures s.closed
  {
    hide Reachable, WaiterInv, FreshInv;
    ReachableInv(s);
    assert UpgradingOps(s) == {};
  }

  lemma ClosedStep(s: State, step: Step)
    requires Inv(s) && s.closed && Enabled(s, step) && ListsValid(s)
    ensures var s' := Apply(s, step); s'.closed && s'.value == s.value && s'.version == s.version && s'.regs == s.regs
  {
    hide CountInv, ProducerInv, FreshInv, ListInv, RegInv, CauseInv;
    forall op | op in s.ops ensures !s.ops[op].Polling? { assert OpInv(s, op); }
  }

  /** Once closed, for ever: closed, the same value, and no poll registers. */
  lemma {:induction false} ClosedIsFinal(s: State, steps: seq<Step>, s': State)
    requires Inv(s) && s.closed && Reaches(s, steps, s')
    ensures s'.closed && s'.value == s.value && s'.version == s.version && s'.regs == s.regs
    decreases |steps|
  {
    hide Inv, Apply;
    if steps != [] {
      ClosedStep(s, steps[0]);
      StepKeepsInv(s, steps[0]);
      ClosedIsFinal(Apply(s, steps[0]), steps[1..], s');
    }
  }

  /** A live waiter whose poll was pending stays in its list, or in a batch being woken, until it is woken. */
  lemma PendingNeverLost(s: State, r: nat)
    requires Reachable(s) && r in s.regs && s.regs[r].pending && s.regs[r].waiter in s.alive && r !in s.woken
    ensures Listed(s, r) || InBatch(s, r)
  {
    hide Reachable, Inv;
    ReachableInv(s);
    PendingIsListed(s, r);
  }

  lemma PendingIsListed(s: State, r: nat)
    requires Inv(s) && r in s.regs && s.regs[r].pending && s.regs[r].waiter in s.alive && r !in s.woken
    ensures Listed(s, r) || InBatch(s, r)
  {
    hide ListInv, OpInv, CountInv, ProducerInv, FreshInv;
    assert RegInv(s, r);
  }

  /** A wake is always one the waiter cares about: values wake value waiters only after a modification,
      consumers coming and going wake count waiters only, and closing, which all await, needs a closed channel. */
  lemma WakesAreIsolated(s: State, r: nat)
    requires Reachable(s) && r in s.woken
    ensures r in s.regs
    ensures s.woken[r] == Modified ==> s.regs[r].kind == OnValue && s.regs[r].version < s.version
    ensures s.woken[r] == Churn ==> s.regs[r].kind.OnCount?
    ensures s.woken[r] == Closing ==> s.closed
  {
    hide Reachable, ListInv, OpInv, RegInv, CountInv, ProducerInv, FreshInv;
    ReachableInv(s);
    assert CauseInv(s, r, s.woken[r]);
  }

  /** What a registration awaits has not happened: not closed, no modification since, the count not as awaited. */
  ghost predicate NotYet(s: State, r: nat)
    requires r in s.regs
  {
    && !s.closed
    && (s.regs[r].kind.OnValue? ==> s.regs[r].version == s.version)
    && (s.regs[r].kind.OnCount? ==> (s.regs[r].kind.used <==> s.consumers == 0))
  }

  ghost predicate Waits(s: State, r: nat) {
    r in s.regs && s.regs[r].pending && s.regs[r].waiter in s.alive && r !in s.woken
  }

  /** At any time, a live, pending, unwoken waiter is about to be woken, or what it awaits has not happened, or the
      operation that changed the consumer count is about to drain it. */
  lemma NoMissedWakeup(s: State, r: nat)
    requires Reachable(s) && Waits(s, r)
    ensures InBatch(s, r) || NotYet(s, r)
            || (s.regs[r].kind.OnCount? && OpUnderWay(s, if s.regs[r].kind.used then Consuming else DroppingConsumer))
  {
    hide Reachable, Inv;
    ReachableInv(s);
    WaiterCases(s, r);
  }

  lemma WaiterCases(s: State, r: nat)
    requires Inv(s) && Waits(s, r)
    ensures InBatch(s, r) || NotYet(s, r)
            || (s.regs[r].kind.OnCount? && OpUnderWay(s, if s.regs[r].kind.used then Consuming else DroppingConsumer))
  {
    PendingIsListed(s, r);
    hide OpInv, RegInv, ProducerInv, FreshInv, InBatch, OpUnderWay;
    if Listed(s, r) {
      if s.regs[r].kind.OnValue? { assert EntryInv(s, OnValue, Entry(r, s.regs[r].waiter)); }
      if s.regs[r].kind.OnCount? { assert CountWaiterListed(s, s.regs[r].kind.used); }
    }
  }

  /** With nothing under way, it has not happened. */
  lemma QuietMeansNotYet(s: State, r: nat)
    requires Inv(s) && s.ops == map[] && Waits(s, r)
    ensures NotYet(s, r)
  {
    hide Inv;
    WaiterCases(s, r);
  }

  /** Finishing what is under way. */
  predicate Finishes(step: Step) {
    step.FinishPoll? || step.LockStep? || step.WakeOne?
  }

  /** While something is under way, some of it can go on: nobody waits for the lock for ever. */
  lemma SomethingCanFinish(s: State)
    requires Inv(s) && s.ops != map[]
    ensures exists step :: Finishes(step) && Enabled(s, step)
  {
    hide ListInv, RegInv, CountInv;
    var op := if s.lock.Some? then s.lock.value else var p :| p in s.ops; p;
    assert op in s.ops && OpInv(s, op);
    match s.ops[op]
    case Polling(_) => assert Finishes(FinishPoll(op)) && Enabled(s, FinishPoll(op));
    case Waking(_, _) => assert Finishes(WakeOne(op)) && Enabled(s, WakeOne(op));
    case Upgrading =>
      assert op in UpgradingOps(s);
      assert Finishes(LockStep(op)) && Enabled(s, LockStep(op));
    case _ => assert Finishes(LockStep(op)) && Enabled(s, LockStep(op));
  }

  // What is under way comes to an end

  function Weight(op: Op): nat {
    if op.Waking? then |op.batch| else 1
  }

  ghost function Work(ops: map<nat, Op>): nat {
    if ops == map[] then 0 else var p :| p in ops; Weight(ops[p]) + Work(ops - {p})
  }

  lemma {:induction false} WorkOf(ops: map<nat, Op>, p: nat)
    requires p in ops
    ensures Work(ops) == Weight(ops[p]) + Work(ops - {p})
    decreases ops
  {
    var q :| q in ops && Work(ops) == Weight(ops[q]) + Work(ops - {q});
    if p != q {
      WorkOf(ops - {q}, p);
      WorkOf(ops - {p}, q);
      assert ops - {q} - {p} == ops - {p} - {q};
    }
  }

  /** The steps that what is under way can still take, with the wakes that it can still start. */
  ghost function Load(s: State): nat {
    Work(s.ops) + |s.onValue.entries| + |s.onClosed.entries| + |s.onCount.entries|
  }

  lemma FinishingShrinks(s: State, step: Step)
    requires Enabled(s, step) && ListsValid(s) && Finishes(step)
    ensures Load(Apply(s, step)) < Load(s)
  {
    hide Work;
    var op, s' := step.op, Apply(s, step);
    WorkOf(s.ops, op);
    if op in s'.ops { WorkOf(s'.ops, op); }
    assert s'.ops - {op} == s.ops - {op};
  }

  predicate AllFinish(steps: seq<Step>) {
    forall i :: 0 <= i < |steps| ==> Finishes(steps[i])
  }

  /** If nothing new is begun, what is under way takes a bounded number of steps, in any order. */
  lemma {:induction false} FinishingEnds(s: State, steps: seq<Step>, s': State)
    requires Reaches(s, steps, s') && AllFinish(steps)
    ensures |steps| <= Load(s)
    decreases |steps|
  {
    hide Load, Apply, Enabled, ListsValid;
    if steps != [] {
      FinishingShrinks(s, steps[0]);
      FinishingEnds(Apply(s, steps[0]), steps[1..], s');
    }
  }

  /** From every reachable state it can come to rest. */
  lemma {:induction false} ComesToRest(s: State) returns (steps: seq<Step>, s': State)
    requires Inv(s)
    ensures Reaches(s, steps, s') && AllFinish(steps) && s'.ops == map[] && Inv(s')
    decreases Load(s)
  {
    hide Inv, Load, Apply, Enabled, Finishes;
    if s.ops == map[] { return [], s; }
    SomethingCanFinish(s);
    var step :| Finishes(step) && Enabled(s, step);
    InvFacts(s);
    StepKeepsInv(s, step);
    FinishingShrinks(s, step);
    var rest;
    rest, s' := ComesToRest(Apply(s, step));
    steps := [step] + rest;
    assert steps[0] == step && steps[1..] == rest;
  }
}

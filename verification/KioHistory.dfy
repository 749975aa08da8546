/** The value, the closing and the registrations of a kio channel over whole runs. */
module KioHistory {
  import opened Options
  import opened KioWaiters
  import opened KioChannel
  import opened KioRuns

  // The value

  /** A write that changes the value: through the guard, while the channel is open. */
  predicate Stores(s: State, step: Step) {
    step.Write? && step.mutate && !s.closed
  }

  /** A guard that was used, or closed, while the channel is open. */
  predicate Changes(s: State, step: Step) {
    step.Write? && (step.mutate || step.close) && !s.closed
  }

  /** Closing by a guard, or by the last producer's drop. */
  predicate Closes(s: State, step: Step) {
    || (step.Write? && step.close)
    || (step.LockStep? && step.op in s.ops && s.ops[step.op].DroppingProducer?)
  }

  /** What one step does to the value and to the state of the channel. */
  lemma StepValue(s: State, step: Step)
    requires ListsValid(s) && Enabled(s, step)
    ensures var s' := Apply(s, step);
            && s'.value == (if Stores(s, step) then step.newValue else s.value)
            && s'.version == s.version + (if Changes(s, step) then 1 else 0)
            && (s'.closed <==> s.closed || Closes(s, step))
  {
    hide ApplyWrite, ApplyLockStep, ApplyWakeOne, RegisterIn;
    match step
    case Write(v, mutate, close) => WriteValue(s, v, mutate, close);
    case PollValue(w, _) => RegisterKeepsValue(s, OnValue, w, true);
    case PollClosed(w) => RegisterKeepsValue(s, OnClosed, w, true);
    case PollCount(w, used, _) => RegisterKeepsValue(s, OnCount(used), w, false);
    case LockStep(op) => LockStepValue(s, op);
    case WakeOne(op) => WakeOneKeepsValue(s, op);
    case _ =>
  }

  lemma WriteValue(s: State, v: int, mutate: bool, close: bool)
    ensures var s' := ApplyWrite(s, v, mutate, close);
            && s'.value == (if mutate && !s.closed then v else s.value)
            && s'.version == s.version + (if (mutate || close) && !s.closed then 1 else 0)
            && (s'.closed <==> s.closed || close)
  {
  }

  lemma RegisterKeepsValue(s: State, kind: Kind, w: nat, pending: bool)
    requires ListsValid(s)
    ensures var s' := RegisterIn(s, kind, w, pending);
            s'.value == s.value && s'.version == s.version && s'.closed == s.closed
  {
    hide Register;
  }

  lemma LockStepValue(s: State, op: nat)
    requires Enabled(s, LockStep(op))
    ensures var s' := ApplyLockStep(s, op);
            s'.value == s.value && s'.version == s.version && (s'.closed <==> s.closed || s.ops[op].DroppingProducer?)
  {
  }

  lemma WakeOneKeepsValue(s: State, op: nat)
    requires Enabled(s, WakeOne(op))
    ensures var s' := ApplyWakeOne(s, op);
            s'.value == s.value && s'.version == s.version && s'.closed == s.closed
  {
  }

  /** The value stored last in the course of a run. */
  ghost function LastStored(s: State, steps: seq<Step>): Option<int>
    decreases |steps|
  {
    if steps == [] || !(ListsValid(s) && Enabled(s, steps[0])) then None
    else match LastStored(Apply(s, steps[0]), steps[1..])
      case Some(v) => Some(v)
      case None => if Stores(s, steps[0]) then Some(steps[0].newValue) else None
  }

  ghost function Changed(s: State, steps: seq<Step>): nat
    decreases |steps|
  {
    if steps == [] || !(ListsValid(s) && Enabled(s, steps[0])) then 0
    else (if Changes(s, steps[0]) then 1 else 0) + Changed(Apply(s, steps[0]), steps[1..])
  }

  ghost predicate WasClosed(s: State, steps: seq<Step>)
    decreases |steps|
  {
    steps != [] && ListsValid(s) && Enabled(s, steps[0])
    && (Closes(s, steps[0]) || WasClosed(Apply(s, steps[0]), steps[1..]))
  }

  /** Over every run the value is that of the last write that mutated while the channel was open, the number of changes
      is that of the guards that changed or closed it, and the channel is closed exactly if one of them, or the drop of
      the last producer, closed it. */
  lemma {:induction false} LastWriteCounts(s: State, steps: seq<Step>, s': State)
    requires Reaches(s, steps, s')
    ensures s'.value == match LastStored(s, steps) case Some(v) => v case None => s.value
    ensures s'.version == s.version + Changed(s, steps)
    ensures s'.closed <==> s.closed || WasClosed(s, steps)
    decreases |steps|
  {
    hide Apply, Enabled, ListsValid, Stores, Changes, Closes;
    if steps != [] {
      StepValue(s, steps[0]);
      LastWriteCounts(Apply(s, steps[0]), steps[1..], s');
    }
  }

  /** The same from the start: with no such write the value is the one the channel was created with. */
  lemma ValueOfRun(v0: int, steps: seq<Step>, s: State)
    requires Reaches(Created(v0), steps, s)
    ensures s.value == match LastStored(Created(v0), steps) case Some(v) => v case None => v0
    ensures s.version == Changed(Created(v0), steps)
    ensures s.closed <==> WasClosed(Created(v0), steps)
  {
    hide Reaches, LastStored, Changed, WasClosed;
    LastWriteCounts(Created(v0), steps, s);
  }

  // Registrations

  /** A poll for a modification, or for closure, that is not ready leaves a pending registration, new and in its list,
      that has seen all changes so far; any other leaves everything as it was. */
  lemma PollRegisters(s: State, step: Step)
    requires Reachable(s) && Enabled(s, step) && (step.PollValue? || step.PollClosed?)
    ensures ListsValid(s)
    ensures var s', kind := Apply(s, step), if step.PollValue? then OnValue else OnClosed;
            if s.closed || (step.PollValue? && step.ready) then s' == s
            else
              && s.next !in s.regs && s'.regs == s.regs[s.next := Reg(kind, step.waiter, s.version, true)]
              && Listed(s', s.next) && s.next !in s'.woken && NotYet(s', s.next)
              && s'.ops == s.ops && s'.value == s.value && s'.lock == s.lock
  {
    hide Reachable, Register;
    ReachableInv(s);
    InvFacts(s);
  }

  /** A poll for the consumer count is decided at once if the channel is closed or, through a strong handle, the
      count is as awaited. Otherwise it is registered, not yet pending, and holds the lock. */
  lemma CountPollRegisters(s: State, w: nat, used: bool, weak: bool)
    requires Reachable(s) && Enabled(s, PollCount(w, used, weak))
    ensures ListsValid(s)
    ensures var s' := Apply(s, PollCount(w, used, weak));
            if s.closed || (!weak && (used <==> s.consumers > 0)) then s' == s
            else
              && s.next !in s.regs && s'.regs == s.regs[s.next := Reg(OnCount(used), w, s.version, false)]
              && Listed(s', s.next) && s.next !in s'.woken
              && s'.lock == Some(s.next + 1) && Enabled(s', FinishPoll(s.next + 1))
              && s'.ops == s.ops[s.next + 1 := Polling(s.next)] && s'.consumers == s.consumers
  {
    hide Reachable, Register;
    ReachableInv(s);
    InvFacts(s);
  }

  /** The second look at the count, with the lock held since: the poll stays pending exactly if the count is not as
      awaited now. */
  lemma CountPollDecides(s: State, op: nat)
    requires Reachable(s) && Enabled(s, FinishPoll(op))
    ensures var s', r := ApplyFinishPoll(s, op), s.ops[op].reg;
            && s.lock == Some(op) && s'.lock.None? && s'.ops == s.ops - {op} && s'.consumers == s.consumers
            && s'.regs == s.regs[r := s.regs[r].(pending := s.regs[r].pending
                                                           || (s.regs[r].kind.used <==> s.consumers == 0))]
            && Listed(s', r)
  {
    hide Reachable, CountInv, ProducerInv, RegInv, CauseInv, EntryInv;
    ReachableInv(s);
    assert OpInv(s, op);
  }

  // Handles

  /** The handles a step makes, and those it gives up. */
  function ConsumersMade(s: State, step: Step): set<nat> {
    if step.Consume? || step.CloneConsumer? then {s.next} else {}
  }

  function ConsumersDropped(step: Step): set<nat> {
    if step.DropConsumer? then {step.handle} else {}
  }

  /** A clone makes a producer, and so does an upgrade that finds the channel open once it has the lock. */
  function ProducersMade(s: State, step: Step): set<nat> {
    if step.CloneProducer? || (step.LockStep? && step.op in s.ops && s.ops[step.op].Upgrading? && !s.closed)
    then {s.next} else {}
  }

  function ProducersDropped(step: Step): set<nat> {
    if step.DropProducer? then {step.handle} else {}
  }

  /** Handles come and go as they are made and dropped; with `CountsMatchHandles` the counts follow. */
  lemma StepHandles(s: State, step: Step)
    requires Inv(s) && ListsValid(s) && Enabled(s, step)
    ensures var s' := Apply(s, step);
            && s'.consumerHandles == s.consumerHandles + ConsumersMade(s, step) - ConsumersDropped(step)
            && s'.producerHandles == s.producerHandles + ProducersMade(s, step) - ProducersDropped(step)
            && s.next !in s.consumerHandles && s.next !in s.producerHandles
  {
    hide Inv, ListsValid, ApplyWrite, RegisterIn, ApplyLockStep, ApplyWakeOne, ApplyPollCount, ApplyFinishPoll;
    FreshHandles(s);
    match step
    case FinishPoll(op) => FinishPollKeepsHandles(s, op);
    case Write(v, mutate, close) => WriteKeepsHandles(s, v, mutate, close);
    case PollValue(w, _) => RegisterKeepsHandles(s, OnValue, w, true);
    case PollClosed(w) => RegisterKeepsHandles(s, OnClosed, w, true);
    case PollCount(w, used, weak) => PollCountKeepsHandles(s, w, used, weak);
    case LockStep(op) => LockStepHandles(s, op);
    case WakeOne(op) => WakeOneKeepsHandles(s, op);
    case _ =>
  }

  lemma FreshHandles(s: State)
    requires Inv(s)
    ensures ListsValid(s) && s.next !in s.consumerHandles && s.next !in s.producerHandles
  {
    hide OpInv, RegInv, CauseInv, EntryInv, CountInv, ProducerInv;
  }

  lemma WriteKeepsHandles(s: State, v: int, mutate: bool, close: bool)
    ensures var s' := ApplyWrite(s, v, mutate, close);
            s'.consumerHandles == s.consumerHandles && s'.producerHandles == s.producerHandles
  {
  }

  lemma RegisterKeepsHandles(s: State, kind: Kind, w: nat, pending: bool)
    requires ListsValid(s)
    ensures var s' := RegisterIn(s, kind, w, pending);
            s'.consumerHandles == s.consumerHandles && s'.producerHandles == s.producerHandles
  {
    hide Register;
  }

  lemma PollCountKeepsHandles(s: State, w: nat, used: bool, weak: bool)
    requires ListsValid(s)
    ensures var s' := ApplyPollCount(s, w, used, weak);
            s'.consumerHandles == s.consumerHandles && s'.producerHandles == s.producerHandles
  {
    hide RegisterIn;
    RegisterKeepsHandles(s, OnCount(used), w, false);
  }

  lemma FinishPollKeepsHandles(s: State, op: nat)
    requires Enabled(s, FinishPoll(op))
    ensures var s' := ApplyFinishPoll(s, op);
            s'.consumerHandles == s.consumerHandles && s'.producerHandles == s.producerHandles
  {
  }

  lemma LockStepHandles(s: State, op: nat)
    requires Enabled(s, LockStep(op))
    ensures var s' := ApplyLockStep(s, op);
            && s'.consumerHandles == s.consumerHandles
            && s'.producerHandles == s.producerHandles + ProducersMade(s, LockStep(op))
  {
  }

  lemma WakeOneKeepsHandles(s: State, op: nat)
    requires Enabled(s, WakeOne(op))
    ensures var s' := ApplyWakeOne(s, op);
            s'.consumerHandles == s.consumerHandles && s'.producerHandles == s.producerHandles
  {
  }
}

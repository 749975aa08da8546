/** A kio channel as a transition system. Reference counts change outside the lock, so a drop, an upgrade or a
    `consume` is an atomic count step followed, possibly much later, by a step under the lock; wakers run after
    the lock is released. */
module KioChannel {
  import opened Options
  import opened KioWaiters
  import opened Sets

  /** What a registration waits for: a modification, closure, or the consumer count becoming positive (used) or zero. */
  datatype Kind = OnValue | OnClosed | OnCount(used: bool)

  datatype Reg = Reg(kind: Kind, waiter: nat, version: nat, pending: bool)

  datatype Cause = Modified | Closing | Churn

  /** An operation under way. */
  datatype Op =
    | Consuming                                  // counted the first consumer, has yet to lock
    | DroppingConsumer                           // uncounted the last consumer, has yet to lock
    | DroppingProducer                           // uncounted the last producer, has yet to lock
    | Upgrading                                  // counted a producer, has yet to lock
    | Polling(reg: nat)                          // holds the lock, registered, has yet to load the count again
    | Waking(batch: seq<Entry>, cause: Cause)    // took waiters, has yet to wake these

  datatype State = State(
    value: int, closed: bool,
    onValue: List, onClosed: List, onCount: List,
    producers: nat, consumers: nat,
    lock: Option<nat>,
    ops: map<nat, Op>,
    producerHandles: set<nat>, consumerHandles: set<nat>,
    alive: set<nat>,                             // waiters not dropped
    version: nat,                                // number of modifications
    regs: map<nat, Reg>,
    woken: map<nat, Cause>,
    next: nat)                                   // source of fresh identities

  /** `Producer::new`: one producer handle, no consumer. */
  function Created(value: int): State {
    State(value, false, Empty, Empty, Empty, 1, 0, None, map[], {0}, {}, {}, 0, map[], map[], 1)
  }

  datatype Step =
    | NewWaiter
    | DropWaiter(waiter: nat)
    | Write(newValue: int, mutate: bool, close: bool)
    | PollValue(waiter: nat, ready: bool)
    | PollClosed(waiter: nat)
    | PollCount(waiter: nat, used: bool, weak: bool)
    | FinishPoll(op: nat)
    | Consume
    | CloneConsumer(handle: nat)
    | DropConsumer(handle: nat)
    | CloneProducer(handle: nat)
    | DropProducer(handle: nat)
    | Upgrade
    | LockStep(op: nat)
    | WakeOne(op: nat)

  predicate Enabled(s: State, step: Step) {
    match step
    case NewWaiter => true
    case DropWaiter(w) => w in s.alive
    case Write(_, _, _) => s.lock.None?
    case PollValue(w, _) => s.lock.None? && w in s.alive
    case PollClosed(w) => s.lock.None? && w in s.alive
    case PollCount(w, _, _) => s.lock.None? && w in s.alive
    case FinishPoll(op) =>
      op in s.ops && s.ops[op].Polling? && s.ops[op].reg in s.regs && s.regs[s.ops[op].reg].kind.OnCount?
    case Consume => true
    case CloneConsumer(h) => h in s.consumerHandles
    case DropConsumer(h) => h in s.consumerHandles && s.consumers > 0
    case CloneProducer(h) => h in s.producerHandles
    case DropProducer(h) => h in s.producerHandles && s.producers > 0
    case Upgrade => true
    case LockStep(op) =>
      s.lock.None? && op in s.ops && !s.ops[op].Polling? && !s.ops[op].Waking?
        && (s.ops[op].Upgrading? ==> s.producers > 0)
    case WakeOne(op) => op in s.ops && s.ops[op].Waking? && s.ops[op].batch != []
  }

  // Effects

  /** Starts the wakes of a drained batch. */
  function StartWaking(s: State, op: nat, batch: seq<Entry>, cause: Cause): State {
    if batch == [] then s.(ops := s.ops - {op}) else s.(ops := s.ops[op := Waking(batch, cause)])
  }

  /** A new registration, entered into the list of its kind. */
  function RegisterIn(s: State, kind: Kind, w: nat, pending: bool): State
    requires ListsValid(s)
  {
    var e := Entry(s.next, w);
    var s1 := s.(regs := s.regs[s.next := Reg(kind, w, s.version, pending)], next := s.next + 1);
    match kind
    case OnValue => s1.(onValue := Register(s.onValue, e, s.alive))
    case OnClosed => s1.(onClosed := Register(s.onClosed, e, s.alive))
    case OnCount(_) => s1.(onCount := Register(s.onCount, e, s.alive))
  }

  /** `take_close_waiters`: closing drains all three lists. */
  function CloseNow(s: State, op: nat): State {
    StartWaking(s.(closed := true, onValue := Empty, onClosed := Empty, onCount := Empty), op,
                s.onValue.entries + s.onClosed.entries + s.onCount.entries, Closing)
  }

  /** A `Mut` from lock to drop. */
  function ApplyWrite(s: State, v: int, mutate: bool, close: bool): State {
    if s.closed || !(mutate || close) then s
    else
      var s1 := s.(value := if mutate then v else s.value, version := s.version + 1, next := s.next + 1);
      if close then CloseNow(s1, s.next)
      else StartWaking(s1.(onValue := Empty), s.next, s.onValue.entries, Modified)
  }

  function ApplyPollValue(s: State, w: nat, ready: bool): State
    requires ListsValid(s)
  {
    if ready || s.closed then s else RegisterIn(s, OnValue, w, true)
  }

  function ApplyPollClosed(s: State, w: nat): State
    requires ListsValid(s)
  {
    if s.closed then s else RegisterIn(s, OnClosed, w, true)
  }

  predicate CountMet(s: State, used: bool) {
    if used then s.consumers > 0 else s.consumers == 0
  }

  /** `poll_used`/`poll_unused` up to the second load. A weak handle does its first load before locking. */
  function ApplyPollCount(s: State, w: nat, used: bool, weak: bool): State
    requires ListsValid(s)
  {
    if s.closed || (!weak && CountMet(s, used)) then s
    else HoldLock(RegisterIn(s, OnCount(used), w, false), s.next)
  }

  function HoldLock(s: State, r: nat): State {
    s.(lock := Some(s.next), ops := s.ops[s.next := Polling(r)], next := s.next + 1)
  }

  /** The second load, and the release of the lock: still pending only if the count has not changed meanwhile. */
  function ApplyFinishPoll(s: State, op: nat): State
    requires Enabled(s, FinishPoll(op))
  {
    var r := s.ops[op].reg;
    var s1 := s.(lock := None, ops := s.ops - {op});
    if CountMet(s, s.regs[r].kind.used) then s1 else s1.(regs := s.regs[r := s.regs[r].(pending := true)])
  }

  // The count steps

  function ApplyConsume(s: State): State {
    var s1 := s.(consumers := s.consumers + 1, consumerHandles := s.consumerHandles + {s.next}, next := s.next + 2);
    if s.consumers == 0 then s1.(ops := s.ops[s.next + 1 := Consuming]) else s1
  }

  function ApplyCloneConsumer(s: State): State {
    s.(consumers := s.consumers + 1, consumerHandles := s.consumerHandles + {s.next}, next := s.next + 1)
  }

  function ApplyDropConsumer(s: State, h: nat): State
    requires s.consumers > 0
  {
    var s1 := s.(consumers := s.consumers - 1, consumerHandles := s.consumerHandles - {h}, next := s.next + 1);
    if s.consumers > 1 then s1 else s1.(ops := s.ops[s.next := DroppingConsumer])
  }

  function ApplyCloneProducer(s: State): State {
    s.(producers := s.producers + 1, producerHandles := s.producerHandles + {s.next}, next := s.next + 1)
  }

  function ApplyDropProducer(s: State, h: nat): State
    requires s.producers > 0
  {
    var s1 := s.(producers := s.producers - 1, producerHandles := s.producerHandles - {h}, next := s.next + 1);
    if s.producers > 1 then s1 else s1.(ops := s.ops[s.next := DroppingProducer])
  }

  /** `produce`: counts first, so that a last producer dropped meanwhile does not close the channel. */
  function ApplyUpgrade(s: State): State {
    s.(producers := s.producers + 1, ops := s.ops[s.next := Upgrading], next := s.next + 1)
  }

  // The steps under the lock

  function ApplyLockStep(s: State, op: nat): State
    requires Enabled(s, LockStep(op))
  {
    match s.ops[op]
    case Consuming => StartWaking(s.(onCount := Empty), op, s.onCount.entries, Churn)
    case DroppingConsumer => StartWaking(s.(onCount := Empty), op, s.onCount.entries, Churn)
    case DroppingProducer => if s.closed then s.(ops := s.ops - {op}) else CloseNow(s, op)
    case Upgrading =>
      if s.closed then s.(ops := s.ops - {op}, producers := s.producers - 1)
      else s.(ops := s.ops - {op}, producerHandles := s.producerHandles + {s.next}, next := s.next + 1)
  }

  function ApplyWakeOne(s: State, op: nat): State
    requires Enabled(s, WakeOne(op))
  {
    var e, cause := s.ops[op].batch[0], s.ops[op].cause;
    StartWaking(s.(woken := if e.waiter in s.alive then s.woken[e.reg := cause] else s.woken), op,
                s.ops[op].batch[1..], cause)
  }

  function Apply(s: State, step: Step): State
    requires Enabled(s, step) && ListsValid(s)
  {
    match step
    case NewWaiter => s.(alive := s.alive + {s.next}, next := s.next + 1)
    case DropWaiter(w) => s.(alive := s.alive - {w})
    case Write(v, mutate, close) => ApplyWrite(s, v, mutate, close)
    case PollValue(w, ready) => ApplyPollValue(s, w, ready)
    case PollClosed(w) => ApplyPollClosed(s, w)
    case PollCount(w, used, weak) => ApplyPollCount(s, w, used, weak)
    case FinishPoll(op) => ApplyFinishPoll(s, op)
    case Consume => ApplyConsume(s)
    case CloneConsumer(_) => ApplyCloneConsumer(s)
    case DropConsumer(h) => ApplyDropConsumer(s, h)
    case CloneProducer(_) => ApplyCloneProducer(s)
    case DropProducer(h) => ApplyDropProducer(s, h)
    case Upgrade => ApplyUpgrade(s)
    case LockStep(op) => ApplyLockStep(s, op)
    case WakeOne(op) => ApplyWakeOne(s, op)
  }

  predicate ListsValid(s: State) {
    ValidList(s.onValue) && ValidList(s.onClosed) && ValidList(s.onCount)
  }

  // The invariant

  function ListFor(s: State, kind: Kind): List {
    match kind
    case OnValue => s.onValue
    case OnClosed => s.onClosed
    case OnCount(_) => s.onCount
  }

  /** A drained registration must be of a kind that cares about the cause. */
  predicate Cares(kind: Kind, cause: Cause) {
    match cause
    case Modified => kind.OnValue?
    case Closing => true
    case Churn => kind.OnCount?
  }

  ghost predicate Listed(s: State, r: nat)
    requires r in s.regs
  {
    Entry(r, s.regs[r].waiter) in ListFor(s, s.regs[r].kind).entries
  }

  ghost predicate InBatch(s: State, r: nat)
    requires r in s.regs
  {
    exists op :: op in s.ops && s.ops[op].Waking? && Entry(r, s.regs[r].waiter) in s.ops[op].batch
  }

  /** Every entry of a list is a registration of its kind; those for values saw the present value. */
  ghost predicate EntryInv(s: State, list: Kind, e: Entry) {
    && e.reg in s.regs && s.regs[e.reg].waiter == e.waiter
    && SameList(s.regs[e.reg].kind, list)
    && (s.regs[e.reg].kind.OnValue? ==> s.regs[e.reg].version == s.version)
  }

  predicate SameList(a: Kind, b: Kind) {
    (a.OnValue? <==> b.OnValue?) && (a.OnClosed? <==> b.OnClosed?)
  }

  /** Why a registration may be in a batch, or was woken. */
  ghost predicate CauseInv(s: State, r: nat, cause: Cause) {
    && r in s.regs && Cares(s.regs[r].kind, cause)
    && (cause == Closing ==> s.closed)
    && (cause == Modified ==> s.regs[r].version < s.version)
  }

  ghost predicate ListInv(s: State) {
    && ListsValid(s)
    && (forall e :: e in s.onValue.entries ==> EntryInv(s, OnValue, e))
    && (forall e :: e in s.onClosed.entries ==> EntryInv(s, OnClosed, e))
    && (forall e :: e in s.onCount.entries ==> EntryInv(s, OnCount(false), e))
    && (s.closed ==> s.onValue == Empty && s.onClosed == Empty && s.onCount == Empty)
  }

  ghost predicate OpInv(s: State, op: nat)
    requires op in s.ops
  {
    match s.ops[op]
    case Polling(r) => s.lock == Some(op) && !s.closed && r in s.regs && s.regs[r].kind.OnCount? && Listed(s, r)
    case Waking(batch, cause) =>
      batch != [] && forall e :: e in batch ==> CauseInv(s, e.reg, cause) && s.regs[e.reg].waiter == e.waiter
    case _ => true
  }

  ghost predicate RegInv(s: State, r: nat)
    requires r in s.regs
  {
    && s.regs[r].version <= s.version
    && (s.regs[r].pending && s.regs[r].waiter in s.alive && r !in s.woken ==> Listed(s, r) || InBatch(s, r))
  }

  ghost predicate CountWaiterListed(s: State, used: bool) {
    exists r :: r in s.regs && s.regs[r].kind == OnCount(used) && s.regs[r].pending && Listed(s, r)
  }

  ghost predicate OpUnderWay(s: State, kind: Op) {
    exists op :: op in s.ops && s.ops[op] == kind
  }

  /** A listed count waiter whose condition holds is about to be drained. */
  ghost predicate CountInv(s: State) {
    && s.consumers == |s.consumerHandles|
    && (s.consumers == 0 && CountWaiterListed(s, false) ==> OpUnderWay(s, DroppingConsumer))
    && (s.consumers > 0 && CountWaiterListed(s, true) ==> OpUnderWay(s, Consuming))
  }

  ghost function UpgradingOps(s: State): set<nat> {
    set op | op in s.ops && s.ops[op].Upgrading?
  }

  /** An open channel has a counted producer, or its last producer is about to close it. */
  ghost predicate ProducerInv(s: State) {
    && s.producers == |s.producerHandles| + |UpgradingOps(s)|
    && (!s.closed ==> s.producers > 0 || OpUnderWay(s, DroppingProducer))
  }

  ghost predicate FreshInv(s: State) {
    && (forall r :: r in s.regs ==> r < s.next && s.regs[r].waiter < s.next)
    && (forall op :: op in s.ops ==> op < s.next)
    && (forall h :: h in s.producerHandles ==> h < s.next)
    && (forall h :: h in s.consumerHandles ==> h < s.next)
    && (forall w :: w in s.alive ==> w < s.next)
    && (s.lock.Some? ==> s.lock.value in s.ops && s.ops[s.lock.value].Polling?)
  }

  ghost predicate WaiterInv(s: State) {
    && ListInv(s)
    && (forall op :: op in s.ops ==> OpInv(s, op))
    && (forall r :: r in s.regs ==> RegInv(s, r))
    && (forall r :: r in s.woken ==> CauseInv(s, r, s.woken[r]))
  }

  ghost predicate Inv(s: State) {
    WaiterInv(s) && CountInv(s) && ProducerInv(s) && FreshInv(s)
  }

  lemma CreatedInv(value: int)
    ensures Inv(Created(value))
  {
    assert UpgradingOps(Created(value)) == {};
  }

  // Frames

  /** No operation but op starts, ends or changes. */
  ghost predicate OthersStay(s: State, s': State, op: nat) {
    forall p :: p != op ==> (p in s.ops <==> p in s'.ops) && (p in s.ops ==> s'.ops[p] == s.ops[p])
  }

  lemma BatchStays(s: State, s': State, op: nat, r: nat)
    requires OthersStay(s, s', op) && (op in s.ops ==> !s.ops[op].Waking?)
    requires r in s.regs && r in s'.regs && s'.regs[r].waiter == s.regs[r].waiter && InBatch(s, r)
    ensures InBatch(s', r)
  {
    var p :| p in s.ops && s.ops[p].Waking? && Entry(r, s.regs[r].waiter) in s.ops[p].batch;
    assert p in s'.ops && s'.ops[p] == s.ops[p];
  }

  /** Nothing about waiters changes if only counts, handles and not yet locked operations do. */
  lemma CountsKeepWaiters(s: State, s': State, op: nat)
    requires WaiterInv(s) && OthersStay(s, s', op)
    requires s' == s.(producers := s'.producers, consumers := s'.consumers, producerHandles := s'.producerHandles,
                      consumerHandles := s'.consumerHandles, ops := s'.ops, next := s'.next)
    requires op in s.ops ==> !s.ops[op].Waking? && !s.ops[op].Polling?
    requires op in s'.ops ==> !s'.ops[op].Waking? && !s'.ops[op].Polling?
    ensures WaiterInv(s')
  {
    LockKeepsLists(s, s');
    hide ListInv, EntryInv;
    forall p | p in s'.ops ensures OpInv(s', p) { if p != op { assert OpInv(s, p); } }
    forall r | r in s'.regs
      ensures RegInv(s', r)
    {
      assert RegInv(s, r);
      if InBatch(s, r) { BatchStays(s, s', op, r); }
    }
  }

  lemma SameCountWaiters(s: State, s': State, used: bool)
    requires s'.regs == s.regs && s'.onCount == s.onCount
    ensures CountWaiterListed(s', used) <==> CountWaiterListed(s, used)
  {
    if CountWaiterListed(s, used) {
      var r :| r in s.regs && s.regs[r].kind == OnCount(used) && s.regs[r].pending && Listed(s, r);
      assert Listed(s', r);
    }
    if CountWaiterListed(s', used) {
      var r :| r in s'.regs && s'.regs[r].kind == OnCount(used) && s'.regs[r].pending && Listed(s', r);
      assert Listed(s, r);
    }
  }

  /** Operations other than `gone` stay under way. */
  lemma OpsRemain(s: State, s': State, gone: nat, kind: Op)
    requires OthersStay(s, s', gone) && (gone in s.ops ==> s.ops[gone] != kind)
    ensures OpUnderWay(s, kind) ==> OpUnderWay(s', kind)
  {
    if OpUnderWay(s, kind) {
      var op :| op in s.ops && s.ops[op] == kind;
      assert op in s'.ops && s'.ops[op] == kind;
    }
  }

  lemma NowUnderWay(s: State, op: nat)
    requires op in s.ops
    ensures OpUnderWay(s, s.ops[op])
  {
  }

  lemma UpgradingAfter(s: State, s': State, op: nat)
    requires OthersStay(s, s', op)
    ensures |UpgradingOps(s')| - |UpgradingOps(s)|
         == (if op in s'.ops && s'.ops[op].Upgrading? then 1 else 0)
            - (if op in s.ops && s.ops[op].Upgrading? then 1 else 0)
  {
    var before, after := UpgradingOps(s), UpgradingOps(s');
    forall p | p != op ensures p in before <==> p in after { }
    SizesDifferAtOne(before, after, op);
  }

  /** What a step that leaves counts and handles alone keeps of them. */
  lemma SameCounts(s: State, s': State, op: nat)
    requires CountInv(s) && ProducerInv(s) && OthersStay(s, s', op)
    requires s'.consumers == s.consumers && s'.consumerHandles == s.consumerHandles
    requires s'.producers == s.producers && s'.producerHandles == s.producerHandles && (s.closed ==> s'.closed)
    requires op in s'.ops ==> !s'.ops[op].Upgrading?
    requires op in s.ops ==> !s.ops[op].Upgrading? && (s.ops[op].DroppingProducer? ==> s'.closed)
    requires op in s.ops && (s.ops[op].Consuming? || s.ops[op].DroppingConsumer?) ==> s'.onCount == Empty
    requires forall used :: CountMet(s, used) && CountWaiterListed(s', used) ==> CountWaiterListed(s, used)
    ensures CountInv(s') && ProducerInv(s')
  {
    hide CountWaiterListed, OpUnderWay, UpgradingOps, OthersStay;
    UpgradingAfter(s, s', op);
    if s'.onCount == Empty { EmptyCountList(s', true); EmptyCountList(s', false); }
    if !(op in s.ops && s.ops[op].Consuming?) { OpsRemain(s, s', op, Consuming); }
    if !(op in s.ops && s.ops[op].DroppingConsumer?) { OpsRemain(s, s', op, DroppingConsumer); }
    if !(op in s.ops && s.ops[op].DroppingProducer?) { OpsRemain(s, s', op, DroppingProducer); }
    assert CountMet(s, s.consumers > 0);
  }

  lemma EmptyCountList(s: State, used: bool)
    requires s.onCount == Empty
    ensures !CountWaiterListed(s, used)
  {
  }

  lemma FreshAfter(s: State, s': State, op: nat)
    requires FreshInv(s) && s.next <= s'.next && op < s'.next && OthersStay(s, s', op)
    requires op in s.ops ==> !s.ops[op].Polling?
    requires s'.regs == s.regs && s'.alive == s.alive && s'.lock == s.lock
    requires s'.producerHandles <= s.producerHandles + {s.next} && s'.consumerHandles <= s.consumerHandles + {s.next}
    requires s.next == s'.next ==> s'.producerHandles <= s.producerHandles && s'.consumerHandles <= s.consumerHandles
    ensures FreshInv(s')
  {
  }

  lemma FreshFacts(s: State)
    requires FreshInv(s)
    ensures s.next !in s.ops && s.next + 1 !in s.ops && s.next !in s.producerHandles && s.next !in s.consumerHandles
  {
  }

  lemma OpIsFresh(s: State, op: nat)
    requires FreshInv(s) && op in s.ops
    ensures op < s.next
  {
  }

  // Steps that only count handles

  /** The parts of the invariant that a count step keeps whatever it counts. */
  lemma CountStep(s: State, s': State, op: nat)
    requires Inv(s) && OthersStay(s, s', op) && op !in s.ops
    requires s' == s.(producers := s'.producers, consumers := s'.consumers, producerHandles := s'.producerHandles,
                      consumerHandles := s'.consumerHandles, ops := s'.ops, next := s'.next)
    requires op in s'.ops ==> !s'.ops[op].Waking? && !s'.ops[op].Polling?
    requires s.next <= op < s'.next
    requires s'.producerHandles <= s.producerHandles + {s.next} && s'.consumerHandles <= s.consumerHandles + {s.next}
    ensures WaiterInv(s') && FreshInv(s')
    ensures forall used :: CountWaiterListed(s', used) <==> CountWaiterListed(s, used)
    ensures OpUnderWay(s, Consuming) ==> OpUnderWay(s', Consuming)
    ensures OpUnderWay(s, DroppingConsumer) ==> OpUnderWay(s', DroppingConsumer)
    ensures OpUnderWay(s, DroppingProducer) ==> OpUnderWay(s', DroppingProducer)
    ensures |UpgradingOps(s')| == |UpgradingOps(s)| + if op in s'.ops && s'.ops[op].Upgrading? then 1 else 0
  {
    hide WaiterInv, FreshInv, CountWaiterListed, OpUnderWay, UpgradingOps, OthersStay;
    CountsKeepWaiters(s, s', op);
    FreshAfter(s, s', op);
    forall used ensures CountWaiterListed(s', used) <==> CountWaiterListed(s, used) { SameCountWaiters(s, s', used); }
    OpsRemain(s, s', op, Consuming);
    OpsRemain(s, s', op, DroppingConsumer);
    OpsRemain(s, s', op, DroppingProducer);
    UpgradingAfter(s, s', op);
  }

  lemma ConsumeKeepsInv(s: State)
    requires Inv(s)
    ensures Inv(ApplyConsume(s))
  {
    hide WaiterInv, FreshInv, CountWaiterListed, OpUnderWay, UpgradingOps;
    var s' := ApplyConsume(s);
    FreshFacts(s);
    CountStep(s, s', s.next + 1);
    if s.consumers == 0 { NowUnderWay(s', s.next + 1); }
    assert |s'.consumerHandles| == |s.consumerHandles| + 1;
  }

  lemma CloneConsumerKeepsInv(s: State, h: nat)
    requires Inv(s) && h in s.consumerHandles
    ensures Inv(ApplyCloneConsumer(s))
  {
    hide WaiterInv, FreshInv, CountWaiterListed, OpUnderWay, UpgradingOps;
    var s' := ApplyCloneConsumer(s);
    FreshFacts(s);
    CountStep(s, s', s.next);
    assert |s'.consumerHandles| == |s.consumerHandles| + 1;
    assert s.consumers > 0;
  }

  lemma DropConsumerKeepsInv(s: State, h: nat)
    requires Inv(s) && h in s.consumerHandles && s.consumers > 0
    ensures Inv(ApplyDropConsumer(s, h))
  {
    hide WaiterInv, FreshInv, CountWaiterListed, OpUnderWay, UpgradingOps;
    var s' := ApplyDropConsumer(s, h);
    FreshFacts(s);
    CountStep(s, s', s.next);
    if s.consumers == 1 { NowUnderWay(s', s.next); }
    assert |s'.consumerHandles| == |s.consumerHandles| - 1;
  }

  lemma CloneProducerKeepsInv(s: State)
    requires Inv(s)
    ensures Inv(ApplyCloneProducer(s))
  {
    hide WaiterInv, FreshInv, CountWaiterListed, OpUnderWay, UpgradingOps;
    var s' := ApplyCloneProducer(s);
    FreshFacts(s);
    CountStep(s, s', s.next);
    assert |s'.producerHandles| == |s.producerHandles| + 1;
  }

  lemma DropProducerKeepsInv(s: State, h: nat)
    requires Inv(s) && h in s.producerHandles && s.producers > 0
    ensures Inv(ApplyDropProducer(s, h))
  {
    hide WaiterInv, FreshInv, CountWaiterListed, OpUnderWay, UpgradingOps;
    var s' := ApplyDropProducer(s, h);
    FreshFacts(s);
    CountStep(s, s', s.next);
    if s.producers == 1 { NowUnderWay(s', s.next); }
    assert |s'.producerHandles| == |s.producerHandles| - 1;
  }

  lemma UpgradeKeepsInv(s: State)
    requires Inv(s)
    ensures Inv(ApplyUpgrade(s))
  {
    hide WaiterInv, FreshInv, CountWaiterListed, OpUnderWay, UpgradingOps;
    var s' := ApplyUpgrade(s);
    FreshFacts(s);
    CountStep(s, s', s.next);
  }

  lemma UpgradeLockKeepsInv(s: State, op: nat)
    requires Inv(s) && Enabled(s, LockStep(op)) && s.ops[op].Upgrading?
    ensures Inv(ApplyLockStep(s, op))
  {
    hide WaiterInv, FreshInv, CountWaiterListed, OpUnderWay, UpgradingOps;
    var s' := ApplyLockStep(s, op);
    FreshFacts(s);
    OpIsFresh(s, op);
    assert OthersStay(s, s', op);
    hide OthersStay;
    CountsKeepWaiters(s, s', op);
    FreshAfter(s, s', op);
    SameCountWaiters(s, s', true);
    SameCountWaiters(s, s', false);
    OpsRemain(s, s', op, Consuming);
    OpsRemain(s, s', op, DroppingConsumer);
    OpsRemain(s, s', op, DroppingProducer);
    UpgradingAfter(s, s', op);
    if !s.closed { assert |s'.producerHandles| == |s.producerHandles| + 1; }
  }

  // Registering

  lemma RegisterKeepsEntries(s: State, kind: Kind, w: nat, pending: bool)
    requires ListInv(s) && FreshInv(s) && !s.closed
    ensures ListInv(RegisterIn(s, kind, w, pending))
  {
    var s' := RegisterIn(s, kind, w, pending);
    forall e | e in s'.onValue.entries
      ensures EntryInv(s', OnValue, e)
    {
      if e in s.onValue.entries { assert EntryInv(s, OnValue, e); }
    }
    forall e | e in s'.onClosed.entries
      ensures EntryInv(s', OnClosed, e)
    {
      if e in s.onClosed.entries { assert EntryInv(s, OnClosed, e); }
    }
    forall e | e in s'.onCount.entries
      ensures EntryInv(s', OnCount(false), e)
    {
      if e in s.onCount.entries { assert EntryInv(s, OnCount(false), e); }
    }
  }

  /** The new registration is listed, and no live one is lost. */
  lemma RegisterKeepsListed(s: State, kind: Kind, w: nat, pending: bool, r: nat)
    requires ListsValid(s) && FreshInv(s) && r in s.regs && s.regs[r].waiter in s.alive && Listed(s, r)
    ensures r in RegisterIn(s, kind, w, pending).regs && Listed(RegisterIn(s, kind, w, pending), r)
  {
  }

  lemma RegisterKeepsWaiters(s: State, kind: Kind, w: nat, pending: bool)
    requires WaiterInv(s) && FreshInv(s) && !s.closed && s.lock.None?
    ensures WaiterInv(RegisterIn(s, kind, w, pending))
    ensures Listed(RegisterIn(s, kind, w, pending), s.next)
  {
    hide Register;
    var s' := RegisterIn(s, kind, w, pending);
    RegisterKeepsEntries(s, kind, w, pending);
    hide ListInv;
    forall op | op in s'.ops ensures OpInv(s', op) { assert OpInv(s, op); }
    forall r | r in s'.regs
      ensures RegInv(s', r)
    {
      if r != s.next {
        assert RegInv(s, r);
        if s.regs[r].waiter in s.alive && Listed(s, r) { RegisterKeepsListed(s, kind, w, pending, r); }
        if InBatch(s, r) {
          var op :| op in s.ops && s.ops[op].Waking? && Entry(r, s.regs[r].waiter) in s.ops[op].batch;
          assert op in s'.ops;
        }
      }
    }
  }

  lemma RegisterKeepsCountWaiters(s: State, kind: Kind, w: nat, pending: bool, used: bool)
    requires ListInv(s) && FreshInv(s) && (kind.OnCount? ==> !pending)
    ensures CountWaiterListed(RegisterIn(s, kind, w, pending), used) ==> CountWaiterListed(s, used)
  {
    var s' := RegisterIn(s, kind, w, pending);
    if CountWaiterListed(s', used) {
      var r :| r in s'.regs && s'.regs[r].kind == OnCount(used) && s'.regs[r].pending && Listed(s', r);
      assert Listed(s, r);
    }
  }

  lemma PollKeepsInv(s: State, kind: Kind, w: nat)
    requires Inv(s) && !s.closed && s.lock.None? && !kind.OnCount? && w < s.next
    ensures Inv(RegisterIn(s, kind, w, true))
  {
    var s' := RegisterIn(s, kind, w, true);
    RegisterKeepsCountWaiters(s, kind, w, true, true);
    RegisterKeepsCountWaiters(s, kind, w, true, false);
    assert UpgradingOps(s') == UpgradingOps(s);
    hide WaiterInv, CountWaiterListed, UpgradingOps;
    RegisterKeepsWaiters(s, kind, w, true);
  }

  lemma HoldLockKeepsInv(s: State, r: nat)
    requires Inv(s) && !s.closed && s.lock.None? && r in s.regs && s.regs[r].kind.OnCount? && Listed(s, r)
    ensures Inv(HoldLock(s, r))
  {
    hide WaiterInv, FreshInv, CountWaiterListed, CountInv, ProducerInv;
    var s' := HoldLock(s, r);
    FreshFacts(s);
    HoldLockKeepsWaiters(s, r);
    HoldLockFresh(s, r);
    SameCountWaiters(s, s', true);
    SameCountWaiters(s, s', false);
    SameCounts(s, s', s.next);
  }

  lemma HoldLockFresh(s: State, r: nat)
    requires FreshInv(s) && s.lock.None?
    ensures FreshInv(HoldLock(s, r))
  {
  }

  lemma HoldLockKeepsWaiters(s: State, r: nat)
    requires WaiterInv(s) && s.next !in s.ops
    requires !s.closed && s.lock.None? && r in s.regs && s.regs[r].kind.OnCount? && Listed(s, r)
    ensures WaiterInv(HoldLock(s, r))
  {
    var s' := HoldLock(s, r);
    LockKeepsLists(s, s');
    hide ListInv, EntryInv;
    forall op | op in s'.ops ensures OpInv(s', op) { if op in s.ops { assert OpInv(s, op); } }
    forall q | q in s'.regs
      ensures RegInv(s', q)
    {
      assert RegInv(s, q);
      if InBatch(s, q) { BatchStays(s, s', s.next, q); }
    }
  }

  lemma LockKeepsLists(s: State, s': State)
    requires ListInv(s) && s'.regs == s.regs && s'.version == s.version && s'.closed == s.closed
    requires s'.onValue == s.onValue && s'.onClosed == s.onClosed && s'.onCount == s.onCount
    ensures ListInv(s')
  {
    forall e | e in s'.onValue.entries ensures EntryInv(s', OnValue, e) { assert EntryInv(s, OnValue, e); }
    forall e | e in s'.onClosed.entries ensures EntryInv(s', OnClosed, e) { assert EntryInv(s, OnClosed, e); }
    forall e | e in s'.onCount.entries
      ensures EntryInv(s', OnCount(false), e)
    {
      assert EntryInv(s, OnCount(false), e);
    }
  }

  lemma PollCountKeepsInv(s: State, w: nat, used: bool, weak: bool)
    requires Inv(s) && s.lock.None? && ListsValid(s) && w < s.next
    ensures Inv(ApplyPollCount(s, w, used, weak))
  {
    hide Inv, HoldLock;
    if s.closed || (!weak && CountMet(s, used)) { return; }
    CountRegisterKeepsInv(s, w, used);
    HoldLockKeepsInv(RegisterIn(s, OnCount(used), w, false), s.next);
  }

  lemma CountRegisterKeepsInv(s: State, w: nat, used: bool)
    requires Inv(s) && !s.closed && s.lock.None? && w < s.next
    ensures Inv(RegisterIn(s, OnCount(used), w, false))
    ensures Listed(RegisterIn(s, OnCount(used), w, false), s.next)
  {
    var s' := RegisterIn(s, OnCount(used), w, false);
    RegisterKeepsCountWaiters(s, OnCount(used), w, false, true);
    RegisterKeepsCountWaiters(s, OnCount(used), w, false, false);
    assert UpgradingOps(s') == UpgradingOps(s);
    hide WaiterInv, CountWaiterListed, UpgradingOps;
    RegisterKeepsWaiters(s, OnCount(used), w, false);
  }

  /** The second load decides under the lock, so a pending count waiter saw its condition not met. */
  lemma FinishPollKeepsInv(s: State, op: nat)
    requires Inv(s) && Enabled(s, FinishPoll(op))
    ensures Inv(ApplyFinishPoll(s, op))
  {
    hide WaiterInv, FreshInv, CountWaiterListed, CountInv, ProducerInv;
    var s' := ApplyFinishPoll(s, op);
    FinishPollKeepsWaiters(s, op);
    FinishPollKeepsCountWaiters(s, op, s.consumers > 0);
    assert OthersStay(s, s', op);
    SameCounts(s, s', op);
    FinishPollFresh(s, op) by { PollInv(s, op); }
  }

  lemma PollInv(s: State, op: nat)
    requires Inv(s) && op in s.ops
    ensures OpInv(s, op)
  {
  }

  lemma FinishPollFresh(s: State, op: nat)
    requires FreshInv(s) && Enabled(s, FinishPoll(op)) && OpInv(s, op)
    ensures FreshInv(ApplyFinishPoll(s, op))
  {
  }

  lemma FinishPollKeepsCountWaiters(s: State, op: nat, used: bool)
    requires Inv(s) && Enabled(s, FinishPoll(op)) && CountMet(s, used)
    ensures CountWaiterListed(ApplyFinishPoll(s, op), used) ==> CountWaiterListed(s, used)
  {
    var s' := ApplyFinishPoll(s, op);
    if CountWaiterListed(s', used) {
      var r :| r in s'.regs && s'.regs[r].kind == OnCount(used) && s'.regs[r].pending && Listed(s', r);
      assert Listed(s, r) && s.regs[r].pending;
    }
  }

  lemma FinishPollKeepsWaiters(s: State, op: nat)
    requires Inv(s) && Enabled(s, FinishPoll(op))
    ensures WaiterInv(ApplyFinishPoll(s, op))
  {
    var s' := ApplyFinishPoll(s, op);
    var r := s.ops[op].reg;
    assert OpInv(s, op);
    forall e | e in s'.onValue.entries ensures EntryInv(s', OnValue, e) { assert EntryInv(s, OnValue, e); }
    forall e | e in s'.onClosed.entries ensures EntryInv(s', OnClosed, e) { assert EntryInv(s, OnClosed, e); }
    forall e | e in s'.onCount.entries
      ensures EntryInv(s', OnCount(false), e)
    {
      assert EntryInv(s, OnCount(false), e);
    }
    hide EntryInv;
    forall p | p in s'.ops ensures OpInv(s', p) { assert OpInv(s, p); }
    forall q | q in s'.regs
      ensures RegInv(s', q)
    {
      assert RegInv(s, q);
      if InBatch(s, q) {
        var p :| p in s.ops && s.ops[p].Waking? && Entry(q, s.regs[q].waiter) in s.ops[p].batch;
        assert p in s'.ops;
      }
    }
  }

  // Draining

  /** Lists are only ever emptied into a batch that is going to be woken. */
  lemma DrainKeepsWaiters(s: State, s': State, op: nat, batch: seq<Entry>, cause: Cause)
    requires WaiterInv(s) && FreshInv(s) && s.lock.None? && (op in s.ops ==> !s.ops[op].Waking?)
    requires s' == StartWaking(s'.(ops := s.ops), op, batch, cause)
    requires s'.regs == s.regs && s'.alive == s.alive && s'.woken == s.woken && s'.lock == s.lock
    requires s.version <= s'.version && (s.closed ==> s'.closed)
    requires s'.onValue == Empty || (s'.onValue == s.onValue && s'.version == s.version)
    requires s'.onClosed == Empty || s'.onClosed == s.onClosed
    requires s'.onCount == Empty || s'.onCount == s.onCount
    requires s'.closed ==> s'.onValue == s'.onClosed == s'.onCount == Empty
    requires forall e :: e in batch ==>
               e.reg in s.regs && s.regs[e.reg].waiter == e.waiter && CauseInv(s', e.reg, cause)
    requires s'.onValue != s.onValue ==> forall e :: e in s.onValue.entries ==> e in batch
    requires s'.onClosed != s.onClosed ==> forall e :: e in s.onClosed.entries ==> e in batch
    requires s'.onCount != s.onCount ==> forall e :: e in s.onCount.entries ==> e in batch
    ensures WaiterInv(s')
  {
    hide ListInv, OpInv, RegInv, CauseInv;
    DrainKeepsLists(s, s');
    assert batch != [] ==> op in s'.ops && s'.ops[op] == Waking(batch, cause);
    forall p | p in s'.ops
      ensures OpInv(s', p)
    {
      DrainKeepsOp(s, s', op, batch, cause, p);
    }
    forall r | r in s'.regs
      ensures RegInv(s', r)
    {
      DrainKeepsReg(s, s', op, batch, r);
    }
    forall r | r in s'.woken ensures CauseInv(s', r, s'.woken[r]) { CauseStays(s, s', r, s.woken[r]); }
  }

  lemma CauseStays(s: State, s': State, r: nat, cause: Cause)
    requires CauseInv(s, r, cause) && s'.regs == s.regs && s.version <= s'.version && (s.closed ==> s'.closed)
    ensures CauseInv(s', r, cause)
  {
  }

  lemma DrainKeepsOp(s: State, s': State, op: nat, batch: seq<Entry>, cause: Cause, p: nat)
    requires p in s'.ops && s'.regs == s.regs && s.version <= s'.version && (s.closed ==> s'.closed) && s.lock.None?
    requires if p == op then batch != [] && s'.ops[p] == Waking(batch, cause)
             else p in s.ops && s'.ops[p] == s.ops[p] && OpInv(s, p)
    requires forall e :: e in batch ==>
               e.reg in s.regs && s.regs[e.reg].waiter == e.waiter && CauseInv(s', e.reg, cause)
    ensures OpInv(s', p)
  {
  }

  lemma DrainKeepsReg(s: State, s': State, op: nat, batch: seq<Entry>, r: nat)
    requires r in s.regs && RegInv(s, r) && s'.regs == s.regs && s'.alive == s.alive && s'.woken == s.woken
             && s.version <= s'.version
    requires batch != [] ==> op in s'.ops && s'.ops[op].Waking? && s'.ops[op].batch == batch
    requires forall p :: p in s.ops && p != op ==> p in s'.ops && s'.ops[p] == s.ops[p]
    requires op in s.ops ==> !s.ops[op].Waking?
    requires s'.onValue != s.onValue ==> forall e :: e in s.onValue.entries ==> e in batch
    requires s'.onClosed != s.onClosed ==> forall e :: e in s.onClosed.entries ==> e in batch
    requires s'.onCount != s.onCount ==> forall e :: e in s.onCount.entries ==> e in batch
    ensures RegInv(s', r)
  {
    if InBatch(s, r) {
      var p :| p in s.ops && s.ops[p].Waking? && Entry(r, s.regs[r].waiter) in s.ops[p].batch;
      assert p in s'.ops;
    }
    if Listed(s, r) && !Listed(s', r) { assert Entry(r, s.regs[r].waiter) in batch; }
  }

  lemma DrainKeepsLists(s: State, s': State)
    requires ListInv(s) && s'.regs == s.regs
    requires s'.onValue == Empty || (s'.onValue == s.onValue && s'.version == s.version)
    requires s'.onClosed == Empty || s'.onClosed == s.onClosed
    requires s'.onCount == Empty || s'.onCount == s.onCount
    requires s'.closed ==> s'.onValue == s'.onClosed == s'.onCount == Empty
    ensures ListInv(s')
  {
    forall e | e in s'.onValue.entries ensures EntryInv(s', OnValue, e) { assert EntryInv(s, OnValue, e); }
    forall e | e in s'.onClosed.entries ensures EntryInv(s', OnClosed, e) { assert EntryInv(s, OnClosed, e); }
    forall e | e in s'.onCount.entries
      ensures EntryInv(s', OnCount(false), e)
    {
      assert EntryInv(s, OnCount(false), e);
    }
  }

  lemma ModifyKeepsWaiters(s: State, v: int)
    requires WaiterInv(s) && FreshInv(s) && s.lock.None? && !s.closed
    ensures WaiterInv(ApplyWrite(s, v, true, false))
  {
    var s' := ApplyWrite(s, v, true, false);
    forall e | e in s.onValue.entries
      ensures e.reg in s.regs && s.regs[e.reg].waiter == e.waiter && CauseInv(s', e.reg, Modified)
    {
      assert EntryInv(s, OnValue, e);
    }
    FreshFacts(s);
    hide WaiterInv, FreshInv;
    DrainKeepsWaiters(s, s', s.next, s.onValue.entries, Modified);
  }

  lemma ModifyKeepsInv(s: State, v: int)
    requires Inv(s) && s.lock.None? && !s.closed
    ensures Inv(ApplyWrite(s, v, true, false))
  {
    hide WaiterInv, FreshInv, CountWaiterListed, CountInv, ProducerInv;
    var s' := ApplyWrite(s, v, true, false);
    FreshFacts(s);
    ModifyKeepsWaiters(s, v);
    SameCountWaiters(s, s', true);
    SameCountWaiters(s, s', false);
    SameCounts(s, s', s.next);
    FreshAfter(s, s', s.next);
  }

  /** Closing, by the last producer or at the end of a write. */
  lemma CloseKeepsWaiters(s: State, s1: State, op: nat)
    requires WaiterInv(s) && FreshInv(s) && s.lock.None? && !s.closed
    requires s1 == s.(value := s1.value, version := s1.version, next := s1.next) && s.version <= s1.version
    requires op in s.ops ==> s.ops[op].DroppingProducer?
    ensures WaiterInv(CloseNow(s1, op))
  {
    var s' := CloseNow(s1, op);
    var batch := s.onValue.entries + s.onClosed.entries + s.onCount.entries;
    forall e | e in batch
      ensures e.reg in s.regs && s.regs[e.reg].waiter == e.waiter && CauseInv(s', e.reg, Closing)
    {
      if e in s.onValue.entries { assert EntryInv(s, OnValue, e); }
      else if e in s.onClosed.entries { assert EntryInv(s, OnClosed, e); }
      else { assert EntryInv(s, OnCount(false), e); }
    }
    hide WaiterInv, FreshInv, CauseInv;
    DrainKeepsWaiters(s, s', op, batch, Closing);
  }

  lemma CloseKeepsInv(s: State, s1: State, op: nat)
    requires Inv(s) && s.lock.None? && !s.closed
    requires s1 == s.(value := s1.value, version := s1.version, next := s1.next) && s.version <= s1.version
             && s.next <= s1.next
    requires op < s1.next && (op in s.ops ==> s.ops[op].DroppingProducer?)
    ensures Inv(CloseNow(s1, op))
  {
    hide WaiterInv, FreshInv, CountWaiterListed, CountInv, ProducerInv;
    var s' := CloseNow(s1, op);
    CloseKeepsWaiters(s, s1, op);
    EmptyCountList(s', true);
    EmptyCountList(s', false);
    SameCounts(s, s', op);
    FreshAfter(s, s', op);
  }

  lemma ChurnKeepsWaiters(s: State, op: nat)
    requires WaiterInv(s) && FreshInv(s) && Enabled(s, LockStep(op))
             && (s.ops[op].Consuming? || s.ops[op].DroppingConsumer?)
    ensures WaiterInv(ApplyLockStep(s, op))
  {
    var s' := ApplyLockStep(s, op);
    forall e | e in s.onCount.entries
      ensures e.reg in s.regs && s.regs[e.reg].waiter == e.waiter && CauseInv(s', e.reg, Churn)
    {
      assert EntryInv(s, OnCount(false), e);
    }
    hide WaiterInv, FreshInv, CauseInv;
    DrainKeepsWaiters(s, s', op, s.onCount.entries, Churn);
  }

  lemma ChurnKeepsInv(s: State, op: nat)
    requires Inv(s) && Enabled(s, LockStep(op)) && (s.ops[op].Consuming? || s.ops[op].DroppingConsumer?)
    ensures Inv(ApplyLockStep(s, op))
  {
    hide WaiterInv, FreshInv, CountWaiterListed, CountInv, ProducerInv;
    var s' := ApplyLockStep(s, op);
    ChurnKeepsWaiters(s, op);
    EmptyCountList(s', true);
    EmptyCountList(s', false);
    OpIsFresh(s, op);
    SameCounts(s, s', op);
    FreshAfter(s, s', op);
  }

  lemma WriteKeepsInv(s: State, v: int, mutate: bool, close: bool)
    requires Inv(s) && s.lock.None?
    ensures Inv(ApplyWrite(s, v, mutate, close))
  {
    hide Inv, CloseNow;
    if s.closed || !(mutate || close) { return; }
    if close {
      CloseKeepsInv(s, s.(value := if mutate then v else s.value, version := s.version + 1, next := s.next + 1),
                    s.next) by {
        FreshOp(s);
      }
    } else {
      ModifyKeepsInv(s, v);
    }
  }

  lemma FreshOp(s: State)
    requires Inv(s)
    ensures s.next !in s.ops
  {
  }

  // Waking and waiters

  lemma WakeOneKeepsInv(s: State, op: nat)
    requires Inv(s) && Enabled(s, WakeOne(op))
    ensures Inv(ApplyWakeOne(s, op))
  {
    hide WaiterInv, FreshInv, CountWaiterListed, CountInv, ProducerInv;
    var s' := ApplyWakeOne(s, op);
    WakeOneKeepsWaiters(s, op);
    SameCountWaiters(s, s', true);
    SameCountWaiters(s, s', false);
    OpIsFresh(s, op);
    SameCounts(s, s', op);
    FreshAfter(s, s', op);
  }

  lemma WakeOneKeepsWaiters(s: State, op: nat)
    requires WaiterInv(s) && Enabled(s, WakeOne(op))
    ensures WaiterInv(ApplyWakeOne(s, op))
  {
    hide ListInv, RegInv, CauseInv, OpInv;
    var s' := ApplyWakeOne(s, op);
    LockKeepsLists(s, s');
    forall p | p in s'.ops ensures OpInv(s', p) { WakeOneKeepsOp(s, s', op, p); }
    forall r | r in s'.regs ensures RegInv(s', r) { WakeOneKeepsReg(s, s', op, r); }
    HeadCause(s, op);
    forall r | r in s'.woken ensures CauseInv(s', r, s'.woken[r]) { CauseStays(s, s', r, s'.woken[r]); }
  }

  lemma HeadCause(s: State, op: nat)
    requires Enabled(s, WakeOne(op)) && OpInv(s, op)
    ensures CauseInv(s, s.ops[op].batch[0].reg, s.ops[op].cause)
  {
    assert s.ops[op].batch[0] in s.ops[op].batch;
  }

  lemma WakeOneKeepsOp(s: State, s': State, op: nat, p: nat)
    requires Enabled(s, WakeOne(op)) && s' == ApplyWakeOne(s, op) && p in s'.ops && p in s.ops && OpInv(s, p)
    ensures OpInv(s', p)
  {
    if p == op { assert forall e :: e in s.ops[op].batch[1..] ==> e in s.ops[op].batch; }
  }

  /** A live entry leaves its batch only by being woken. */
  lemma WakeOneKeepsReg(s: State, s': State, op: nat, r: nat)
    requires Enabled(s, WakeOne(op)) && s' == ApplyWakeOne(s, op) && r in s.regs && RegInv(s, r)
    ensures RegInv(s', r)
  {
    var batch := s.ops[op].batch;
    assert batch == [batch[0]] + batch[1..];
    if InBatch(s, r) && (Entry(r, s.regs[r].waiter) != batch[0]) {
      var p :| p in s.ops && s.ops[p].Waking? && Entry(r, s.regs[r].waiter) in s.ops[p].batch;
      assert p in s'.ops && Entry(r, s.regs[r].waiter) in s'.ops[p].batch;
    }
  }

  lemma WaitersComeAndGo(s: State, s': State)
    requires Inv(s) && s' == s.(alive := s'.alive, next := s'.next) && s.next <= s'.next
    requires forall w :: w in s'.alive ==> w < s'.next && (w in s.alive || w >= s.next)
    ensures Inv(s')
  {
    hide CountWaiterListed, CountInv, ProducerInv;
    LockKeepsLists(s, s');
    hide ListInv;
    forall p | p in s'.ops ensures OpInv(s', p) { assert OpInv(s, p); }
    forall r | r in s'.regs
      ensures RegInv(s', r)
    {
      assert RegInv(s, r);
      if InBatch(s, r) { BatchStays(s, s', s.next, r); }
    }
    hide WaiterInv;
    SameCountWaiters(s, s', true);
    SameCountWaiters(s, s', false);
    SameCounts(s, s', s.next);
  }
}

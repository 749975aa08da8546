/** Handles and callbacks of libmoq: slabs that share one counter, and the catalog, track and raw-track tasks as a
    transition system. A step is what runs under the state lock, a callback, or one answer of a `select`. */
module MoqConsume {
  import opened Numbers
  import opened Options

  const U32: nat := 0x1_0000_0000
  const INVALID_ID: int := -7

  datatype Kind = Catalog | Track | Raw

  /** The maps that draw from the counter: task entries, buffered items, and any other. */
  datatype Slab = Tasks(kind: Kind) | Items(kind: Kind) | Other(number: nat)

  datatype Key = Key(slab: Slab, id: int)

  /** `open` tells whether the close sender is still there. */
  datatype Slot = Entry(owner: nat, open: bool) | Value

  datatype Phase =
    | Selecting(inner: bool)              // at the select; inner is that of a raw track's group
    | Got                                 // has an item, not yet buffered
    | Holding(item: int)                  // has buffered the item, not yet called back
    | Returned(code: int)                 // has left the loop, entry still there
    | Removed(code: int, callback: nat)   // has taken its entry out, not yet called the callback that was in it
    | Done

  /** A task, with the codes it has delivered. */
  datatype Task = Task(kind: Kind, id: int, phase: Phase, log: seq<int>)

  /** `issued` counts the draws from the counter; a task's identity is the draw its id came from. */
  datatype State = State(issued: nat, slots: map<Key, Slot>, tasks: map<nat, Task>)

  const Initial := State(0, map[], map[])

  // Ids

  /** The value of the counter after n draws: it starts at 1 and wraps at 32 bits. */
  function RawId(n: nat): (r: nat)
    ensures r < U32
  {
    (1 + n) % U32
  }

  /** Ids are positive and fit an i32. */
  predicate ValidId(raw: int) {
    0 < raw <= I32_MAX
  }

  /** Two draws give the same number exactly if a whole number of wraps lies between them. */
  lemma IdsRepeatExactlyOnWrap(n: nat, m: nat)
    ensures RawId(n) == RawId(m) <==> n % U32 == m % U32
  {
    assert (1 + n) % U32 == (1 + n % U32) % U32;
    assert (1 + m) % U32 == (1 + m % U32) % U32;
  }

  // Steps

  /** What a select yields: the close signal, an item, a group (raw tracks), the end of a group, the end or an error. */
  datatype Event = CloseSignal | Item | Group | GroupEnd | End(code: int)

  datatype Step =
    | InsertOther(number: nat)
    | RemoveValue(key: Key)
    | Start(kind: Kind)
    | Close(kind: Kind, id: int)
    | Select(task: nat, event: Event)
    | Buffer(task: nat)
    | Deliver(task: nat)
    | Remove(task: nat)
    | Finish(task: nat)

  /** The close sender of a task is gone. */
  predicate Signalled(s: State, t: nat)
    requires t in s.tasks
  {
    var key := Key(Tasks(s.tasks[t].kind), s.tasks[t].id);
    !(key in s.slots && s.slots[key].Entry? && s.slots[key].owner == t && s.slots[key].open)
  }

  /** The select is biased: the close signal wins if it is there. */
  predicate EventEnabled(s: State, t: nat, event: Event)
    requires t in s.tasks
  {
    var task := s.tasks[t];
    && task.phase.Selecting?
    && (event.CloseSignal? <==> Signalled(s, t))
    && (event.Item? ==> (task.kind.Raw? <==> task.phase.inner))
    && (event.Group? ==> task.kind.Raw? && !task.phase.inner)
    && (event.GroupEnd? ==> task.kind.Raw? && task.phase.inner)
    && (event.End? ==> event.code < 0 || (event.code == 0 && !task.phase.inner))
  }

  predicate Enabled(s: State, step: Step) {
    match step
    case InsertOther(_) => true
    case RemoveValue(key) => !key.slab.Tasks?
    case Start(_) => true
    case Close(_, _) => true
    case Select(t, event) => t in s.tasks && EventEnabled(s, t, event)
    case Buffer(t) => t in s.tasks && s.tasks[t].phase.Got?
    case Deliver(t) => t in s.tasks && s.tasks[t].phase.Holding?
    case Remove(t) => t in s.tasks && s.tasks[t].phase.Returned?
    case Finish(t) => t in s.tasks && s.tasks[t].phase.Removed?
  }

  function SetPhase(s: State, t: nat, phase: Phase): State
    requires t in s.tasks
  {
    s.(tasks := s.tasks[t := s.tasks[t].(phase := phase)])
  }

  /** `NonZeroSlab::insert`: draws a number and stores the value, unless the number is no id. */
  function Insert(s: State, slab: Slab, slot: Slot): State {
    var s1 := s.(issued := s.issued + 1);
    if ValidId(RawId(s.issued)) then s1.(slots := s.slots[Key(slab, RawId(s.issued)) := slot]) else s1
  }

  function ApplyStart(s: State, kind: Kind): State {
    var s1 := Insert(s, Tasks(kind), Entry(s.issued, true));
    if ValidId(RawId(s.issued))
    then s1.(tasks := s.tasks[s.issued := Task(kind, RawId(s.issued), Selecting(false), [])])
    else s1
  }

  /** A close is accepted if the entry is there and still has its sender. */
  predicate CloseAccepted(s: State, kind: Kind, id: int) {
    var key := Key(Tasks(kind), id);
    key in s.slots && s.slots[key].Entry? && s.slots[key].open
  }

  function ApplyClose(s: State, kind: Kind, id: int): State {
    if !CloseAccepted(s, kind, id) then s
    else
      var key := Key(Tasks(kind), id);
      s.(slots := s.slots[key := Entry(s.slots[key].owner, false)])
  }

  function ApplySelect(s: State, t: nat, event: Event): State
    requires t in s.tasks
  {
    match event
    case CloseSignal => SetPhase(s, t, Returned(0))
    case Item => SetPhase(s, t, Got)
    case Group => SetPhase(s, t, Selecting(true))
    case GroupEnd => SetPhase(s, t, Selecting(false))
    case End(code) => SetPhase(s, t, Returned(code))
  }

  /** Buffers the item; if no id is left the task ends with that error. */
  function ApplyBuffer(s: State, t: nat): State
    requires t in s.tasks
  {
    var s1 := Insert(s, Items(s.tasks[t].kind), Value);
    SetPhase(s1, t, if ValidId(RawId(s.issued)) then Holding(RawId(s.issued)) else Returned(INVALID_ID))
  }

  function ApplyDeliver(s: State, t: nat): State
    requires t in s.tasks && s.tasks[t].phase.Holding?
  {
    var task := s.tasks[t];
    s.(tasks := s.tasks[t := task.(phase := Selecting(task.kind.Raw?), log := task.log + [task.phase.item])])
  }

  /** Takes the entry out, under the lock; without an entry there is no callback. */
  function ApplyRemove(s: State, t: nat): State
    requires t in s.tasks && s.tasks[t].phase.Returned?
  {
    var key := Key(Tasks(s.tasks[t].kind), s.tasks[t].id);
    SetPhase(s.(slots := s.slots - {key}), t, 
             if key in s.slots && s.slots[key].Entry? then Removed(s.tasks[t].phase.code, s.slots[key].owner) else Done)
  }

  /** The terminal callback, which is the one of the entry. */
  function ApplyFinish(s: State, t: nat): State
    requires t in s.tasks && s.tasks[t].phase.Removed?
  {
    var to, s1 := s.tasks[t].phase.callback, SetPhase(s, t, Done);
    if to in s.tasks
    then s1.(tasks := s1.tasks[to := s1.tasks[to].(log := s1.tasks[to].log + [s.tasks[t].phase.code])])
    else s1
  }

  function Apply(s: State, step: Step): State
    requires Enabled(s, step)
  {
    match step
    case InsertOther(n) => Insert(s, Other(n), Value)
    case RemoveValue(key) => s.(slots := s.slots - {key})
    case Start(kind) => ApplyStart(s, kind)
    case Close(kind, id) => ApplyClose(s, kind, id)
    case Select(t, event) => ApplySelect(s, t, event)
    case Buffer(t) => ApplyBuffer(s, t)
    case Deliver(t) => ApplyDeliver(s, t)
    case Remove(t) => ApplyRemove(s, t)
    case Finish(t) => ApplyFinish(s, t)
  }

  // Runs

  ghost predicate Reaches(s: State, steps: seq<Step>, s': State)
    decreases |steps|
  {
    if steps == [] then s' == s else Enabled(s, steps[0]) && Reaches(Apply(s, steps[0]), steps[1..], s')
  }

  // The protocol

  predicate AllPositive(log: seq<int>) {
    forall i :: 0 <= i < |log| ==> 0 < log[i] <= I32_MAX
  }

  /** Positive codes, then one code that is not positive, and nothing more. */
  predicate Complete(log: seq<int>) {
    log != [] && AllPositive(log[..|log| - 1]) && log[|log| - 1] <= 0
  }

  function EntryKey(task: Task): Key {
    Key(Tasks(task.kind), task.id)
  }

  /** Has taken its entry out. */
  predicate Finished(task: Task) {
    task.phase.Removed? || task.phase.Done?
  }

  /** What a task has delivered so far, and that an unfinished one has its own entry. */
  ghost predicate GoodTask(s: State, t: nat)
    requires t in s.tasks
  {
    var task := s.tasks[t];
    && t < s.issued && ValidId(task.id)
    && (if task.phase.Done? then Complete(task.log) else AllPositive(task.log))
    && (task.phase.Removed? || task.phase.Returned? ==> task.phase.code <= 0)
    && (task.phase.Removed? ==> task.phase.callback == t)
    && (task.phase.Holding? ==> ValidId(task.phase.item))
    && (!Finished(task) ==>
          EntryKey(task) in s.slots && s.slots[EntryKey(task)].Entry? && s.slots[EntryKey(task)].owner == t)
  }

  /** An entry is that of an unfinished task. */
  ghost predicate GoodEntry(s: State, key: Key)
    requires key in s.slots
  {
    var slot := s.slots[key];
    slot.Entry? && slot.owner in s.tasks && !Finished(s.tasks[slot.owner]) && key == EntryKey(s.tasks[slot.owner])
  }

  ghost predicate AllGood(s: State) {
    && (forall t :: t in s.tasks ==> GoodTask(s, t))
    && (forall key: Key :: key in s.slots && key.slab.Tasks? ==> GoodEntry(s, key))
  }

  /** A task that starts draws a number that no unfinished task of its kind has. */
  predicate Free(s: State, step: Step) {
    step.Start? && ValidId(RawId(s.issued)) ==> Key(Tasks(step.kind), RawId(s.issued)) !in s.slots
  }

  /** The entries of tasks are the same. */
  ghost predicate SameEntries(s: State, s': State) {
    forall key: Key :: key.slab.Tasks? ==>
      (key in s'.slots <==> key in s.slots) && (key in s.slots ==> s'.slots[key] == s.slots[key])
  }

  lemma EntriesStay(s: State, s': State)
    requires AllGood(s) && SameEntries(s, s') && s'.tasks == s.tasks && s.issued <= s'.issued
    ensures AllGood(s')
  {
    hide AllPositive, Complete;
    forall t | t in s'.tasks ensures GoodTask(s', t) { assert GoodTask(s, t); }
    forall key: Key | key in s'.slots && key.slab.Tasks? ensures GoodEntry(s', key) { assert GoodEntry(s, key); }
  }

  /** A step of one task that leaves the entries alone. */
  lemma TaskMoves(s: State, s': State, t: nat)
    requires AllGood(s) && SameEntries(s, s') && s.issued <= s'.issued
    requires t in s.tasks && t in s'.tasks && s'.tasks == s.tasks[t := s'.tasks[t]] && GoodTask(s', t)
    requires EntryKey(s'.tasks[t]) == EntryKey(s.tasks[t]) && (Finished(s'.tasks[t]) <==> Finished(s.tasks[t]))
    ensures AllGood(s')
  {
    hide AllPositive, Complete;
    forall p | p in s'.tasks ensures GoodTask(s', p) { if p != t { assert GoodTask(s, p); } }
    forall key: Key | key in s'.slots && key.slab.Tasks? ensures GoodEntry(s', key) { assert GoodEntry(s, key); }
  }

  lemma SelectKeepsGood(s: State, t: nat, event: Event)
    requires AllGood(s) && Enabled(s, Select(t, event))
    ensures AllGood(ApplySelect(s, t, event))
  {
    hide AllPositive, Complete, AllGood;
    GoodOne(s, t);
    TaskMoves(s, ApplySelect(s, t, event), t);
  }

  lemma GoodOne(s: State, t: nat)
    requires AllGood(s) && t in s.tasks
    ensures GoodTask(s, t)
  {
  }

  lemma BufferKeepsGood(s: State, t: nat)
    requires AllGood(s) && Enabled(s, Buffer(t))
    ensures AllGood(ApplyBuffer(s, t))
  {
    hide AllPositive, Complete, AllGood, RawId;
    GoodOne(s, t);
    TaskMoves(s, ApplyBuffer(s, t), t);
  }

  lemma DeliverKeepsGood(s: State, t: nat)
    requires AllGood(s) && Enabled(s, Deliver(t))
    ensures AllGood(ApplyDeliver(s, t))
  {
    hide Complete, AllGood;
    GoodOne(s, t);
    TaskMoves(s, ApplyDeliver(s, t), t);
  }

  lemma FinishKeepsGood(s: State, t: nat)
    requires AllGood(s) && Enabled(s, Finish(t))
    ensures AllGood(ApplyFinish(s, t))
  {
    hide AllGood;
    GoodOne(s, t);
    var s' := ApplyFinish(s, t);
    var task := s'.tasks[t];
    assert task.log[..|task.log| - 1] == s.tasks[t].log;
    TaskMoves(s, s', t);
  }

  lemma CloseKeepsGood(s: State, kind: Kind, id: int)
    requires AllGood(s)
    ensures AllGood(ApplyClose(s, kind, id))
  {
    hide AllPositive, Complete;
    var s' := ApplyClose(s, kind, id);
    if CloseAccepted(s, kind, id) {
      var key := Key(Tasks(kind), id);
      var t := s.slots[key].owner;
      assert GoodEntry(s, key) && GoodTask(s, t);
      forall p | p in s'.tasks ensures GoodTask(s', p) { assert GoodTask(s, p); }
      forall k: Key | k in s'.slots && k.slab.Tasks? ensures GoodEntry(s', k) { assert GoodEntry(s, k); }
    }
  }

  lemma RemoveKeepsGood(s: State, t: nat)
    requires AllGood(s) && Enabled(s, Remove(t))
    ensures AllGood(ApplyRemove(s, t))
  {
    hide AllPositive, Complete;
    var s' := ApplyRemove(s, t);
    assert GoodTask(s, t);
    forall p | p in s'.tasks ensures GoodTask(s', p) { assert GoodTask(s, p); }
    forall k: Key | k in s'.slots && k.slab.Tasks? ensures GoodEntry(s', k) { assert GoodEntry(s, k); }
  }

  lemma NotYetATask(s: State)
    requires AllGood(s)
    ensures s.issued !in s.tasks
  {
    forall t | t in s.tasks ensures t < s.issued { assert GoodTask(s, t); }
  }

  /** A start on a free number. */
  lemma StartKeepsGood(s: State, kind: Kind)
    requires AllGood(s) && Free(s, Start(kind))
    ensures AllGood(ApplyStart(s, kind))
  {
    hide Complete, RawId;
    NotYetATask(s);
    var s' := ApplyStart(s, kind);
    forall p | p in s'.tasks ensures GoodTask(s', p) { if p != s.issued { assert GoodTask(s, p); } }
    forall k: Key | k in s'.slots && k.slab.Tasks?
      ensures GoodEntry(s', k)
    {
      if k in s.slots { assert GoodEntry(s, k); }
    }
  }

  /** A start on a number that is taken robs the task that has it of its entry. */
  lemma StartOnTakenNumber(s: State, kind: Kind)
    requires AllGood(s) && !Free(s, Start(kind))
    ensures !AllGood(ApplyStart(s, kind))
  {
    hide AllPositive, Complete, RawId;
    NotYetATask(s);
    var s' := ApplyStart(s, kind);
    var key := Key(Tasks(kind), RawId(s.issued));
    assert GoodEntry(s, key);
    var t := s.slots[key].owner;
    assert s'.tasks[t] == s.tasks[t] && s'.slots[key].owner == s.issued;
    assert !GoodTask(s', t);
  }

  /** Exactly a start on a taken number breaks the protocol. */
  lemma StepKeepsGood(s: State, step: Step)
    requires AllGood(s) && Enabled(s, step)
    ensures AllGood(Apply(s, step)) <==> Free(s, step)
  {
    hide AllGood, ApplySelect, ApplyBuffer, ApplyDeliver, ApplyFinish, ApplyClose, ApplyRemove, ApplyStart;
    match step
    case InsertOther(_) => EntriesStay(s, Apply(s, step));
    case RemoveValue(_) => EntriesStay(s, Apply(s, step));
    case Start(kind) => if Free(s, step) { StartKeepsGood(s, kind); } else { StartOnTakenNumber(s, kind); }
    case Close(kind, id) => CloseKeepsGood(s, kind, id);
    case Select(t, event) => SelectKeepsGood(s, t, event);
    case Buffer(t) => BufferKeepsGood(s, t);
    case Deliver(t) => DeliverKeepsGood(s, t);
    case Remove(t) => RemoveKeepsGood(s, t);
    case Finish(t) => FinishKeepsGood(s, t);
  }

  /** Good before and after each step. */
  ghost predicate AlwaysGood(s: State, steps: seq<Step>)
    decreases |steps|
  {
    AllGood(s) && (steps != [] && Enabled(s, steps[0]) ==> AlwaysGood(Apply(s, steps[0]), steps[1..]))
  }

  /** Each start draws a free number. */
  ghost predicate AllFree(s: State, steps: seq<Step>)
    decreases |steps|
  {
    steps != [] && Enabled(s, steps[0]) ==> Free(s, steps[0]) && AllFree(Apply(s, steps[0]), steps[1..])
  }

  /** A run keeps to the protocol exactly if each start draws a number that no unfinished task of its kind has. */
  lemma {:induction false} RunIsGood(s: State, steps: seq<Step>, s': State)
    requires AllGood(s) && Reaches(s, steps, s')
    ensures AlwaysGood(s, steps) <==> AllFree(s, steps)
    ensures AllFree(s, steps) ==> AllGood(s')
    decreases |steps|
  {
    hide AllGood, Free, Apply, Enabled;
    if steps != [] {
      var s1 := Apply(s, steps[0]);
      StepKeepsGood(s, steps[0]);
      if Free(s, steps[0]) { RunIsGood(s1, steps[1..], s'); } else { NotAlwaysGood(s1, steps[1..]); }
    }
  }

  lemma NotAlwaysGood(s: State, steps: seq<Step>)
    requires !AllGood(s)
    ensures !AlwaysGood(s, steps)
  {
  }

  /** Reached from the start with each task on a free number, however often the counter has wrapped. */
  ghost predicate Orderly(s: State) {
    exists steps :: Reaches(Initial, steps, s) && AllFree(Initial, steps)
  }

  lemma OrderlyIsGood(s: State)
    requires Orderly(s)
    ensures AllGood(s)
  {
    hide Reaches, AllFree;
    var steps :| Reaches(Initial, steps, s) && AllFree(Initial, steps);
    RunIsGood(Initial, steps, s);
  }

  /** A task delivers items, then one terminal code, then nothing. */
  lemma CallbackOrder(s: State, t: nat)
    requires Orderly(s) && t in s.tasks
    ensures if s.tasks[t].phase.Done? then Complete(s.tasks[t].log) else AllPositive(s.tasks[t].log)
    ensures s.tasks[t].phase.Done? ==> forall step :: Enabled(s, step) ==> Apply(s, step).tasks[t] == s.tasks[t]
  {
    hide Orderly, GoodEntry, AllPositive, Complete;
    OrderlyIsGood(s);
    assert GoodTask(s, t);
    if s.tasks[t].phase.Done? {
      forall step | Enabled(s, step) ensures Apply(s, step).tasks[t] == s.tasks[t] { DoneStays(s, t, step); }
    }
  }

  lemma DoneStays(s: State, t: nat, step: Step)
    requires AllGood(s) && t in s.tasks && s.tasks[t].phase.Done? && Enabled(s, step)
    ensures t in Apply(s, step).tasks && Apply(s, step).tasks[t] == s.tasks[t]
  {
    hide RawId, AllPositive, Complete;
    NotYetATask(s);
    if step.Finish? { assert GoodTask(s, step.task); }
    if step.Close? && CloseAccepted(s, step.kind, step.id) { assert GoodEntry(s, Key(Tasks(step.kind), step.id)); }
  }

  // Closing

  /** The step is a close that finds the entry of task t with its sender. */
  predicate Closes(s: State, step: Step, t: nat) {
    step.Close? && CloseAccepted(s, step.kind, step.id) && s.slots[Key(Tasks(step.kind), step.id)].owner == t
  }

  /** A task loses its close sender to a close that reaches it, or with its entry, and to nothing else. */
  lemma StepSignals(s: State, step: Step, t: nat)
    requires AllGood(s) && Enabled(s, step) && Free(s, step) && t in s.tasks
    ensures t in Apply(s, step).tasks
    ensures Signalled(Apply(s, step), t) <==> Signalled(s, t) || Closes(s, step, t) || step == Remove(t)
    ensures Finished(Apply(s, step).tasks[t]) <==> Finished(s.tasks[t]) || step == Remove(t)
  {
    hide RawId, AllPositive, Complete, ValidId;
    NotYetATask(s);
    assert GoodTask(s, t);
    match step
    case Close(kind, id) => if CloseAccepted(s, kind, id) { assert GoodEntry(s, Key(Tasks(kind), id)); }
    case Remove(u) => assert GoodTask(s, u);
    case Finish(u) => assert GoodTask(s, u);
    case _ =>
  }

  ghost function Closings(s: State, steps: seq<Step>, t: nat): nat
    decreases |steps|
  {
    if steps == [] || !Enabled(s, steps[0]) then 0
    else (if Closes(s, steps[0], t) then 1 else 0) + Closings(Apply(s, steps[0]), steps[1..], t)
  }

  /** In the course of a run a close reaches a task at most once. A further one would reach it exactly if none has and
      the task still has its entry; so never after its terminal callback. */
  lemma {:induction false} CloseAtMostOnce(s: State, steps: seq<Step>, s': State, t: nat)
    requires AllGood(s) && Reaches(s, steps, s') && AllFree(s, steps) && t in s.tasks && !Signalled(s, t)
    ensures t in s'.tasks && Closings(s, steps, t) <= 1
    ensures Closes(s', Close(s.tasks[t].kind, s.tasks[t].id), t)
            <==> Closings(s, steps, t) == 0 && !Finished(s'.tasks[t])
    decreases |steps|
  {
    hide AllGood, Apply, Enabled, Free, RawId;
    if steps == [] {
      OpenIsUnfinished(s, t);
    } else {
      var s1 := Apply(s, steps[0]);
      StepKeepsGood(s, steps[0]);
      StepSignals(s, steps[0], t);
      StepKeepsName(s, steps[0], t);
      if Signalled(s1, t) {
        SignalledStays(s1, steps[1..], s', t);
      } else {
        CloseAtMostOnce(s1, steps[1..], s', t);
      }
    }
  }

  lemma OpenIsUnfinished(s: State, t: nat)
    requires AllGood(s) && t in s.tasks && !Signalled(s, t)
    ensures !Finished(s.tasks[t])
  {
    hide AllPositive, Complete;
    assert GoodEntry(s, EntryKey(s.tasks[t]));
  }

  lemma StepKeepsName(s: State, step: Step, t: nat)
    requires AllGood(s) && Enabled(s, step) && t in s.tasks
    ensures t in Apply(s, step).tasks
    ensures Apply(s, step).tasks[t].kind == s.tasks[t].kind && Apply(s, step).tasks[t].id == s.tasks[t].id
  {
    hide RawId, AllPositive, Complete;
    NotYetATask(s);
  }

  /** Once the sender is gone, no close reaches the task any more. */
  lemma {:induction false} SignalledStays(s: State, steps: seq<Step>, s': State, t: nat)
    requires AllGood(s) && Reaches(s, steps, s') && AllFree(s, steps) && t in s.tasks && Signalled(s, t)
    ensures t in s'.tasks && Signalled(s', t) && Closings(s, steps, t) == 0
    ensures s'.tasks[t].kind == s.tasks[t].kind && s'.tasks[t].id == s.tasks[t].id
    ensures Finished(s.tasks[t]) ==> Finished(s'.tasks[t])
    decreases |steps|
  {
    hide AllGood, Apply, Enabled, Free, RawId;
    if steps != [] {
      StepKeepsGood(s, steps[0]);
      StepSignals(s, steps[0], t);
      StepKeepsName(s, steps[0], t);
      if Closes(s, steps[0], t) { ClosesOnlyOpen(s, steps[0], t); }
      SignalledStays(Apply(s, steps[0]), steps[1..], s', t);
    }
  }

  lemma ClosesOnlyOpen(s: State, step: Step, t: nat)
    requires AllGood(s) && t in s.tasks && Closes(s, step, t)
    ensures !Signalled(s, t)
  {
    hide AllPositive, Complete;
    assert GoodEntry(s, Key(Tasks(step.kind), step.id));
  }

  function Delivered(steps: seq<Step>, t: nat): nat {
    if steps == [] then 0 else (if steps[0] == Deliver(t) then 1 else 0) + Delivered(steps[1..], t)
  }

  /** An item that has been received and not yet delivered. */
  function InHand(task: Task): nat {
    if task.phase.Got? || task.phase.Holding? then 1 else 0
  }

  lemma StepDelivers(s: State, step: Step, t: nat)
    requires AllGood(s) && Enabled(s, step) && Free(s, step) && t in s.tasks && Signalled(s, t)
    ensures t in Apply(s, step).tasks
    ensures InHand(Apply(s, step).tasks[t]) + (if step == Deliver(t) then 1 else 0) <= InHand(s.tasks[t])
  {
    hide RawId, AllPositive, Complete, ValidId;
    NotYetATask(s);
    if step.Finish? { assert GoodTask(s, step.task); }
  }

  /** Once closed, however long it runs, a task delivers at most the one item it has in hand. */
  lemma {:induction false} AtMostOneItemAfterClose(s: State, steps: seq<Step>, s': State, t: nat)
    requires AllGood(s) && Reaches(s, steps, s') && AllFree(s, steps) && t in s.tasks && Signalled(s, t)
    ensures Delivered(steps, t) <= InHand(s.tasks[t]) <= 1
    decreases |steps|
  {
    hide AllGood, Apply, Enabled, Free, RawId, Signalled;
    if steps != [] {
      StepKeepsGood(s, steps[0]);
      StepSignals(s, steps[0], t);
      StepDelivers(s, steps[0], t);
      AtMostOneItemAfterClose(Apply(s, steps[0]), steps[1..], s', t);
    }
  }

  // A closed task ends

  predicate IsStepOf(step: Step, t: nat) {
    (step.Select? || step.Buffer? || step.Deliver? || step.Remove? || step.Finish?) && step.task == t
  }

  /** How many steps of its own a closed task can still take. */
  function StepsLeft(phase: Phase): nat {
    match phase
    case Got => 5
    case Holding(_) => 4
    case Selecting(_) => 3
    case Returned(_) => 2
    case Removed(_, _) => 1
    case Done => 0
  }

  /** A closed task can always go on, each of its steps brings it nearer to its terminal callback, and no other step
      changes anything for it. */
  lemma ClosedTaskEnds(s: State, t: nat)
    requires Orderly(s) && t in s.tasks && Signalled(s, t)
    ensures !s.tasks[t].phase.Done? ==> exists step :: IsStepOf(step, t) && Enabled(s, step)
    ensures forall step :: IsStepOf(step, t) && Enabled(s, step) ==>
              StepsLeft(Apply(s, step).tasks[t].phase) < StepsLeft(s.tasks[t].phase)
    ensures forall step :: !IsStepOf(step, t) && Enabled(s, step) ==> Apply(s, step).tasks[t] == s.tasks[t]
  {
    hide Orderly, GoodEntry, AllPositive, Complete, RawId;
    OrderlyIsGood(s);
    assert GoodTask(s, t);
    forall step | !IsStepOf(step, t) && Enabled(s, step)
      ensures Apply(s, step).tasks[t] == s.tasks[t]
    {
      OthersLeaveAlone(s, step, t);
    }
    match s.tasks[t].phase
    case Selecting(_) => assert IsStepOf(Select(t, CloseSignal), t) && Enabled(s, Select(t, CloseSignal));
    case Got => assert IsStepOf(Buffer(t), t) && Enabled(s, Buffer(t));
    case Holding(_) => assert IsStepOf(Deliver(t), t) && Enabled(s, Deliver(t));
    case Returned(_) => assert IsStepOf(Remove(t), t) && Enabled(s, Remove(t));
    case Removed(_, _) => assert IsStepOf(Finish(t), t) && Enabled(s, Finish(t));
    case Done =>
  }

  lemma OthersLeaveAlone(s: State, step: Step, t: nat)
    requires AllGood(s) && t in s.tasks && !IsStepOf(step, t) && Enabled(s, step)
    ensures t in Apply(s, step).tasks && Apply(s, step).tasks[t] == s.tasks[t]
  {
    hide RawId, AllPositive, Complete;
    NotYetATask(s);
    if step.Finish? { assert GoodTask(s, step.task); }
  }

  // Until the counter wraps

  /** No id is in two slabs, and all were drawn. */
  ghost predicate UniqueIds(s: State) {
    && s.issued < U32
    && (forall key :: key in s.slots ==> 0 < key.id <= s.issued)
    && (forall a, b :: a in s.slots && b in s.slots && a.id == b.id ==> a == b)
  }

  lemma RawIdBeforeWrap(n: nat)
    requires n + 1 < U32
    ensures RawId(n) == n + 1
  {
  }

  lemma StepKeepsUnique(s: State, step: Step)
    requires UniqueIds(s) && Enabled(s, step) && Apply(s, step).issued < U32
    ensures UniqueIds(Apply(s, step)) && Free(s, step)
  {
    hide RawId, Insert;
    match step
    case InsertOther(n) => InsertKeepsUnique(s, Other(n), Value);
    case Start(kind) => InsertKeepsUnique(s, Tasks(kind), Entry(s.issued, true));
    case Buffer(t) => InsertKeepsUnique(s, Items(s.tasks[t].kind), Value);
    case _ =>
  }

  /** A drawn number is a new one. */
  lemma InsertKeepsUnique(s: State, slab: Slab, slot: Slot)
    requires UniqueIds(s) && Insert(s, slab, slot).issued < U32
    ensures UniqueIds(Insert(s, slab, slot)) && Key(slab, RawId(s.issued)) !in s.slots
  {
    hide RawId;
    RawIdBeforeWrap(s.issued);
  }

  lemma {:induction false} DrawsOnlyGrow(s: State, steps: seq<Step>, s': State)
    requires Reaches(s, steps, s')
    ensures s.issued <= s'.issued
    decreases |steps|
  {
    if steps != [] { DrawsOnlyGrow(Apply(s, steps[0]), steps[1..], s'); }
  }

  lemma {:induction false} RunKeepsUnique(s: State, steps: seq<Step>, s': State)
    requires UniqueIds(s) && Reaches(s, steps, s') && s'.issued < U32
    ensures UniqueIds(s') && AllFree(s, steps)
    decreases |steps|
  {
    hide UniqueIds, Apply, Enabled, Free;
    if steps != [] {
      DrawsOnlyGrow(Apply(s, steps[0]), steps[1..], s');
      StepKeepsUnique(s, steps[0]);
      RunKeepsUnique(Apply(s, steps[0]), steps[1..], s');
    }
  }

  /** Reached from the start, with the counter not yet wrapped. */
  ghost predicate Reachable(s: State) {
    s.issued < U32 && exists steps :: Reaches(Initial, steps, s)
  }

  /** Until the counter wraps every run keeps to the protocol. */
  lemma BeforeWrapIsOrderly(s: State)
    requires Reachable(s)
    ensures Orderly(s)
  {
    hide Reaches, AllFree;
    var steps :| Reaches(Initial, steps, s);
    RunKeepsUnique(Initial, steps, s);
  }

  /** An id is in at most one slab. */
  lemma IdResolvesOnce(s: State, a: Key, b: Key)
    requires Reachable(s) && a in s.slots && b in s.slots && a.id == b.id
    ensures a == b && 0 < a.id <= s.issued
  {
    hide Reaches, AllFree;
    var steps :| Reaches(Initial, steps, s);
    RunKeepsUnique(Initial, steps, s);
  }

  /** A removed id never comes back. */
  lemma {:induction false} IdsNeverReused(s: State, steps: seq<Step>, s': State, id: int)
    requires Reaches(s, steps, s') && s'.issued < U32 && 0 < id <= s.issued
    requires forall key :: key in s.slots ==> key.id != id
    ensures forall key :: key in s'.slots ==> key.id != id
    decreases |steps|
  {
    hide RawId;
    if steps != [] {
      var s1 := Apply(s, steps[0]);
      DrawsOnlyGrow(s1, steps[1..], s');
      if s.issued + 1 < U32 { RawIdBeforeWrap(s.issued); }
      IdsNeverReused(s1, steps[1..], s', id);
    }
  }

  // After the counter has wrapped

  lemma {:induction false} Then(s: State, a: seq<Step>, s': State, b: seq<Step>, s'': State)
    requires Reaches(s, a, s') && Reaches(s', b, s'')
    ensures Reaches(s, a + b, s'')
    decreases |a|
  {
    hide Apply, Enabled;
    if a == [] {
      assert a + b == b;
    } else {
      Then(Apply(s, a[0]), a[1..], s', b, s'');
      assert (a + b)[0] == a[0] && (a + b)[1..] == a[1..] + b;
    }
  }

  lemma One(s: State, step: Step)
    requires Enabled(s, step)
    ensures Reaches(s, [step], Apply(s, step))
  {
    hide Apply, Enabled;
    assert [step][1..] == [];
  }

  /** Any number of draws by others leaves the tasks alone. */
  lemma {:induction false} ManyDraws(s: State, n: nat) returns (steps: seq<Step>, s': State)
    ensures Reaches(s, steps, s') && s'.issued == s.issued + n && s'.tasks == s.tasks && SameEntries(s, s')
    decreases n
  {
    if n == 0 { return [], s; }
    var s1 := Insert(s, Other(0), Value);
    var rest;
    rest, s' := ManyDraws(s1, n - 1);
    One(s, InsertOther(0));
    Then(s, [InsertOther(0)], s1, rest, s');
    steps := [InsertOther(0)] + rest;
  }

  /** Two tasks of one kind with the same id: the second has taken over the entry of the first, and dropped its
      sender. */
  ghost predicate Clash(s: State, a: nat, b: nat) {
    && a != b && a in s.tasks && b in s.tasks && a < s.issued && b < s.issued
    && s.tasks[a] == Task(Catalog, 1, Selecting(false), []) == s.tasks[b]
    && Key(Tasks(Catalog), 1) in s.slots && s.slots[Key(Tasks(Catalog), 1)] == Entry(b, true)
  }

  /** A wrapped id overwrites a live entry. */
  lemma WrappedIdOverwrites() returns (steps: seq<Step>, s: State)
    ensures Reaches(Initial, steps, s) && Clash(s, 0, U32) && RawId(s.issued) == 2
  {
    hide Reaches, RawId;
    var s1 := ApplyStart(Initial, Catalog);
    FirstIds();
    One(Initial, Start(Catalog));
    var draws, s2 := ManyDraws(s1, U32 - 1);
    s := ApplyStart(s2, Catalog);
    One(s2, Start(Catalog));
    Then(s1, draws, s2, [Start(Catalog)], s);
    Then(Initial, [Start(Catalog)], s1, draws + [Start(Catalog)], s);
    steps := [Start(Catalog)] + (draws + [Start(Catalog)]);
  }

  lemma FirstIds()
    ensures RawId(0) == 1 == RawId(U32) && RawId(U32 + 1) == 2
  {
  }

  /** The first of two such tasks sees a close that nobody asked for and takes out the entry of the second, whose
      callback hears the first one's end. The first task ends without a terminal callback, and an item that the
      second has already received reaches its callback after the terminal code. */
  lemma ClashBreaksOrder(s: State, a: nat, b: nat) returns (steps: seq<Step>, s': State)
    requires Clash(s, a, b) && ValidId(RawId(s.issued))
    ensures Reaches(s, steps, s') && a in s'.tasks && b in s'.tasks
    ensures s'.tasks[a].phase.Done? && s'.tasks[a].log == []
    ensures s'.tasks[b].log == [0, RawId(s.issued)]
  {
    var s1 := ApplySelect(s, b, Item);
    var s2 := ApplyBuffer(s1, b);
    var s3 := ApplySelect(s2, a, CloseSignal);
    var s4 := ApplyRemove(s3, a);
    var s5 := ApplyFinish(s4, a);
    s' := ApplyDeliver(s5, b);
    One(s, Select(b, Item));
    One(s1, Buffer(b));
    One(s2, Select(a, CloseSignal));
    One(s3, Remove(a));
    One(s4, Finish(a));
    One(s5, Deliver(b));
    hide Reaches, ApplySelect, ApplyRemove, ApplyBuffer, ApplyFinish, ApplyDeliver;
    steps := [Finish(a)] + [Deliver(b)];
    Then(s4, [Finish(a)], s5, [Deliver(b)], s');
    Then(s3, [Remove(a)], s4, steps, s');
    steps := [Remove(a)] + steps;
    Then(s2, [Select(a, CloseSignal)], s3, steps, s');
    steps := [Select(a, CloseSignal)] + steps;
    Then(s1, [Buffer(b)], s2, steps, s');
    steps := [Buffer(b)] + steps;
    Then(s, [Select(b, Item)], s1, steps, s');
    steps := [Select(b, Item)] + steps;
  }
}

/** What the callback of a task hears: the ids of its items and the reason of its end, all of them, in order. */
module MoqCallbacks {
  import opened Numbers
  import opened Options
  import opened MoqConsume

  /** The codes that follow from a step of task t: the id of an item it buffers, or the error that no id is left; 0 if
      it sees the close signal; and the code with which its source ended or failed. */
  function Emits(s: State, step: Step, t: nat): seq<int> {
    match step
    case Buffer(u) => if u != t then [] else [if ValidId(RawId(s.issued)) then RawId(s.issued) else INVALID_ID]
    case Select(u, event) =>
      if u != t then []
      else (match event case CloseSignal => [0] case End(code) => [code] case _ => [])
    case _ => []
  }

  /** What a task has yet to deliver. */
  function Owed(task: Task): seq<int> {
    match task.phase
    case Holding(item) => [item]
    case Returned(code) => [code]
    case Removed(code, _) => [code]
    case _ => []
  }

  function Told(task: Task): seq<int> {
    task.log + Owed(task)
  }

  /** No step loses, invents, repeats or reorders a code. */
  lemma StepTells(s: State, step: Step, t: nat)
    requires AllGood(s) && Enabled(s, step) && Free(s, step) && t in s.tasks
    ensures t in Apply(s, step).tasks && Told(Apply(s, step).tasks[t]) == Told(s.tasks[t]) + Emits(s, step, t)
  {
    hide RawId, AllPositive, Complete, ValidId;
    NotYetATask(s);
    assert GoodTask(s, t);
    match step
    case Close(kind, id) =>
      if CloseAccepted(s, kind, id) { assert GoodEntry(s, Key(Tasks(kind), id)); }
    case Remove(u) => assert GoodTask(s, u);
    case Finish(u) => assert GoodTask(s, u);
    case _ =>
  }

  ghost function Story(s: State, steps: seq<Step>, t: nat): seq<int>
    decreases |steps|
  {
    if steps == [] || !Enabled(s, steps[0]) then []
    else Emits(s, steps[0], t) + Story(Apply(s, steps[0]), steps[1..], t)
  }

  lemma {:induction false} RunTells(s: State, steps: seq<Step>, s': State, t: nat)
    requires AllGood(s) && Reaches(s, steps, s') && AllFree(s, steps) && t in s.tasks
    ensures t in s'.tasks && Told(s'.tasks[t]) == Told(s.tasks[t]) + Story(s, steps, t)
    decreases |steps|
  {
    hide AllGood, Free, Apply, Enabled, Told, Emits;
    if steps != [] {
      var s1 := Apply(s, steps[0]);
      StepKeepsGood(s, steps[0]);
      StepTells(s, steps[0], t);
      RunTells(s1, steps[1..], s', t);
    }
  }

  /** From its start to its end, a task's callback hears exactly the ids of the items it buffered, in order, and then
      the reason of its end: 0 after a close or at the end of the source, and otherwise the error. */
  lemma CallbackHearsTheStory(s0: State, kind: Kind, steps: seq<Step>, s: State)
    requires AllGood(s0) && Free(s0, Start(kind)) && ValidId(RawId(s0.issued))
    requires Reaches(ApplyStart(s0, kind), steps, s) && AllFree(ApplyStart(s0, kind), steps)
    ensures var t, story := s0.issued, Story(ApplyStart(s0, kind), steps, s0.issued);
            && t in s.tasks && s.tasks[t].kind == kind && s.tasks[t].id == RawId(s0.issued)
            && (s.tasks[t].phase.Done? ==> s.tasks[t].log == story)
            && s.tasks[t].log <= story && |story| <= |s.tasks[t].log| + 1
  {
    hide AllGood, Free, Reaches, AllFree, RawId, Story;
    StartKeepsGood(s0, kind);
    RunTells(ApplyStart(s0, kind), steps, s, s0.issued);
    RunKeepsName(ApplyStart(s0, kind), steps, s, s0.issued);
    var task, story := s.tasks[s0.issued], Story(ApplyStart(s0, kind), steps, s0.issued);
    assert Told(ApplyStart(s0, kind).tasks[s0.issued]) == [];
    assert story == task.log + Owed(task);
    assert task.phase.Done? ==> story == task.log;
  }

  lemma {:induction false} RunKeepsName(s: State, steps: seq<Step>, s': State, t: nat)
    requires Reaches(s, steps, s') && t in s.tasks && t < s.issued
    ensures t in s'.tasks && s'.tasks[t].kind == s.tasks[t].kind && s'.tasks[t].id == s.tasks[t].id
    decreases |steps|
  {
    hide RawId;
    if steps != [] { RunKeepsName(Apply(s, steps[0]), steps[1..], s', t); }
  }
}

/** The token protocol of the executor's `TaskNotify` on a futex word of its own. */
module TaskNotify {
  import opened Numbers
  import opened Options
  import opened TaskQueue
  import opened Futex
  import opened FutexWaits

  /** Nobody but `wait` and `wake_by_ref` uses the word at f; other futexes may be used in any way. */
  predicate NotifyStep(f: Address, step: Step) {
    match step
    case Store(a, _) => a != f
    case Park(_, a, expected, _, relative, newValue) => a == f ==> expected == 0 && relative && newValue == Some(0)
    case WakeUp(_, a, _) => a != f
    case WakeOrSet(_, a, count, v) => a == f ==> count == 1 && v == U32_MAX
    case _ => true
  }

  predicate WaitsOn(f: Address, step: Step) {
    step.Park? && step.address == f
  }

  ghost predicate NotifyInv(f: Address, s: State) {
    && Inv(s)
    && (Word(s, f) == 0 || Word(s, f) == U32_MAX)
    && (Word(s, f) == U32_MAX ==> f !in s.lot)
  }

  /** Wakes of other futexes leave f alone. */
  lemma OtherWake(f: Address, s: State, core: nat, a: Address, count: int)
    requires a != f
    ensures var s' := ApplyWake(s, core, a, count).0;
            Word(s', f) == Word(s, f) && (f in s'.lot <==> f in s.lot) && s'.words == s.words
  {
    hide WakeLoop;
    WakeKeepsRest(s, core, a, count);
  }

  /** A wake takes exactly one waiter if there is one, and otherwise leaves the token. */
  lemma NotifyWake(f: Address, s: State, core: nat)
    requires NotifyInv(f, s)
    ensures var (s', woken) := ApplyWakeOrSet(s, core, f, 1, U32_MAX);
            && NotifyInv(f, s')
            && (f in s.lot ==>
                  woken == 1 && |QueueAt(s', f)| == |QueueAt(s, f)| - 1 && |s'.popped| == |s.popped| + 1
                  && s'.words == s.words)
            && (f !in s.lot ==> woken == 0 && Word(s', f) == U32_MAX && s' == s.(words := s'.words))
  {
    hide Inv, ApplyWake;
    WakeOrSetKeepsInv(s, core, f, 1, U32_MAX);
    if f in s.lot {
      NotEmpty(s, f);
      WakeReturns(s, core, f, 1);
      WakeKeepsRest(s, core, f, 1);
    }
  }

  /** A wait consumes the token and returns at once if it is set, and parks if it is not. */
  lemma NotifyWait(f: Address, s: State, h: Handle, timeout: Option<nat>)
    requires NotifyInv(f, s) && h.id !in s.waits && h.prio < NO_PRIORITIES
    ensures var (s', r) := ApplyPark(s, h, f, 0, timeout, true, Some(0));
            && NotifyInv(f, s') && Word(s', f) == 0
            && (Word(s, f) == U32_MAX ==> r == Some(-EAGAIN) && s' == s.(words := s'.words))
            && (Word(s, f) == 0 ==> r == None && h.id in s'.waits && h in QueueAt(s', f))
  {
    hide Inv;
    ParkKeepsInv(s, h, f, 0, timeout, true, Some(0));
  }

  lemma NotifyStepKeeps(f: Address, s: State, step: Step)
    requires NotifyInv(f, s) && Enabled(s, step) && NotifyStep(f, step)
    ensures NotifyInv(f, Apply(s, step))
    ensures !WaitsOn(f, step) && Word(s, f) == U32_MAX ==> Word(Apply(s, step), f) == U32_MAX
  {
    hide Inv, ApplyPark, ApplyWake, ApplyResume;
    StepKeepsInv(s, step);
    match step
    case Park(h, a, expected, timeout, relative, newValue) =>
      if a == f { NotifyWait(f, s, h, timeout); } else { OtherPark(f, s, h, a, expected, timeout, relative, newValue); }
    case Resume(t) => ResumeFrame(s, t);
    case WakeUp(core, a, count) => OtherWake(f, s, core, a, count);
    case WakeOrSet(core, a, count, v) =>
      if a == f { NotifyWake(f, s, core); } else { OtherWake(f, s, core, a, count); }
    case _ =>
  }

  lemma OtherPark(f: Address, s: State, h: Handle, a: Address, expected: nat, timeout: Option<nat>, relative: bool,
                  newValue: Option<nat>)
    requires a != f
    ensures var s' := ApplyPark(s, h, a, expected, timeout, relative, newValue).0;
            Word(s', f) == Word(s, f) && (f in s'.lot <==> f in s.lot)
  {
  }

  /** At the start, before anyone waits or wakes. */
  lemma NotifyInitial(f: Address)
    ensures NotifyInv(f, Initial)
  {
  }

  /** In every run the word is 0 or the token, the token excludes waiters, and it stays until a wait takes it. */
  lemma {:induction false} NotifyRun(f: Address, s: State, steps: seq<Step>, s': State)
    requires NotifyInv(f, s) && Reaches(s, steps, s') && forall i :: 0 <= i < |steps| ==> NotifyStep(f, steps[i])
    ensures NotifyInv(f, s')
    ensures (forall i :: 0 <= i < |steps| ==> !WaitsOn(f, steps[i])) && Word(s, f) == U32_MAX ==> Word(s', f) == U32_MAX
    decreases |steps|
  {
    hide NotifyInv, NotifyStep, WaitsOn, Apply;
    if steps != [] {
      NotifyStepKeeps(f, s, steps[0]);
      NotifyRun(f, Apply(s, steps[0]), steps[1..], s');
    }
  }

  /** No notification is lost: a wake that finds nobody waiting makes the next wait return without parking,
      whatever happens in between. */
  lemma NotificationNotLost(f: Address, s: State, core: nat, steps: seq<Step>, s': State, h: Handle,
                            timeout: Option<nat>)
    requires NotifyInv(f, s) && Reaches(Apply(s, WakeOrSet(core, f, 1, U32_MAX)), steps, s')
    requires forall i :: 0 <= i < |steps| ==> NotifyStep(f, steps[i]) && !WaitsOn(f, steps[i])
    requires h.id !in s'.waits && h.prio < NO_PRIORITIES
    ensures f in s.lot ==> |Apply(s, WakeOrSet(core, f, 1, U32_MAX)).popped| == |s.popped| + 1
    ensures f !in s.lot ==> ApplyPark(s', h, f, 0, timeout, true, Some(0)).1 == Some(-EAGAIN)
  {
    hide Inv, ApplyPark, ApplyWakeOrSet, NotifyStep, WaitsOn, Reaches;
    NotifyWake(f, s, core);
    NotifyRun(f, Apply(s, WakeOrSet(core, f, 1, U32_MAX)), steps, s');
    NotifyWait(f, s', h, timeout);
  }
}

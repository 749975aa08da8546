/** Futures on a kio channel: each poll replaces the future's waiter, and the one of the last poll stays alive. */
module KioFuture {
  import opened Options
  import opened KioWaiters
  import opened KioChannel
  import opened KioRuns

  /** The waiter a future keeps, and the registrations its last poll made with it. */
  datatype Future = Future(waiter: Option<nat>, regs: set<nat>)

  datatype World = World(channel: State, futures: map<nat, Future>)

  /** What the function of a future asks the channel. */
  datatype Ask = AskValue(ready: bool) | AskClosed | AskCount(used: bool, weak: bool)

  /** A poll is BeginPoll and then any number of questions, each of which may register the waiter with one more list;
      other things may happen in between. */
  datatype Event =
    | Channel(step: Step)
    | NewFuture(id: nat)
    | BeginPoll(id: nat)
    | AskChannel(id: nat, ask: Ask)
    | DropFuture(id: nat)

  predicate Owned(w: World, waiter: nat) {
    exists f :: f in w.futures && w.futures[f].waiter == Some(waiter)
  }

  /** Nobody but a future drops its waiter; a question takes the lock. */
  ghost predicate CanHappen(w: World, e: Event) {
    ListsValid(w.channel)
    && match e
       case Channel(step) => Enabled(w.channel, step) && (step.DropWaiter? ==> !Owned(w, step.waiter))
       case NewFuture(id) => id !in w.futures
       case BeginPoll(id) => id in w.futures
       case AskChannel(id, _) => id in w.futures && w.futures[id].waiter.Some? && w.channel.lock.None?
       case DropFuture(id) => id in w.futures
  }

  /** Without the waiter of a future, if it has one. */
  function Released(s: State, waiter: Option<nat>): State {
    if waiter.Some? then s.(alive := s.alive - {waiter.value}) else s
  }

  /** With a new waiter, `s.next`. */
  function Renewed(s: State): State {
    s.(alive := s.alive + {s.next}, next := s.next + 1)
  }

  function Asked(s: State, waiter: nat, ask: Ask): State
    requires ListsValid(s)
  {
    match ask
    case AskValue(ready) => ApplyPollValue(s, waiter, ready)
    case AskClosed => ApplyPollClosed(s, waiter)
    case AskCount(used, weak) => ApplyPollCount(s, waiter, used, weak)
  }

  function Happen(w: World, e: Event): World
    requires CanHappen(w, e)
  {
    match e
    case Channel(step) => w.(channel := Apply(w.channel, step))
    case NewFuture(id) => w.(futures := w.futures[id := Future(None, {})])
    case DropFuture(id) => World(Released(w.channel, w.futures[id].waiter), w.futures - {id})
    case BeginPoll(id) =>
      var s := Released(w.channel, w.futures[id].waiter);
      World(Renewed(s), w.futures[id := Future(Some(s.next), {})])
    case AskChannel(id, ask) =>
      var f, s' := w.futures[id], Asked(w.channel, w.futures[id].waiter.value, ask);
      var r := w.channel.next;
      World(s', w.futures[id := f.(regs := if r in s'.regs then f.regs + {r} else f.regs)])
  }

  /** Waiters of futures are alive and not shared, and belong to the registrations of their futures. */
  ghost predicate FutureInv(w: World) {
    && (forall f :: f in w.futures && w.futures[f].waiter.Some? ==> w.futures[f].waiter.value in w.channel.alive)
    && (forall f, g :: f in w.futures && g in w.futures && f != g && w.futures[f].waiter.Some? ==>
          w.futures[f].waiter != w.futures[g].waiter)
    && (forall f, r :: f in w.futures && r in w.futures[f].regs ==>
          r in w.channel.regs && Some(w.channel.regs[r].waiter) == w.futures[f].waiter)
  }

  ghost predicate WorldInv(w: World) {
    Inv(w.channel) && FutureInv(w)
  }

  // The channel's side

  lemma AskKeepsChannelInv(s: State, waiter: nat, ask: Ask)
    requires Inv(s) && ListsValid(s) && s.lock.None? && waiter in s.alive
    ensures Inv(Asked(s, waiter, ask))
  {
    hide Inv, ApplyPollCount, RegisterIn;
    match ask
    case AskValue(ready) => StepKeepsInv(s, PollValue(waiter, ready));
    case AskClosed => StepKeepsInv(s, PollClosed(waiter));
    case AskCount(used, weak) => StepKeepsInv(s, PollCount(waiter, used, weak));
  }

  lemma ReleaseKeepsChannelInv(s: State, waiter: Option<nat>)
    requires Inv(s) && (waiter.Some? ==> waiter.value in s.alive)
    ensures Inv(Released(s, waiter)) && ListsValid(Released(s, waiter))
  {
    InvFacts(s);
    hide Inv;
    if waiter.Some? { StepKeepsInv(s, DropWaiter(waiter.value)); }
    InvFacts(Released(s, waiter));
  }

  /** A step of the channel drops no waiter but the one it says, and keeps every registration. */
  lemma StepKeepsRegs(s: State, step: Step)
    requires ListsValid(s) && Enabled(s, step) && FreshInv(s)
    ensures forall w :: w in s.alive && step != DropWaiter(w) ==> w in Apply(s, step).alive
    ensures forall r :: r in s.regs ==> r in Apply(s, step).regs && Apply(s, step).regs[r].waiter == s.regs[r].waiter
  {
    hide Register;
  }

  lemma AskKeepsRegs(s: State, waiter: nat, ask: Ask)
    requires ListsValid(s) && FreshInv(s)
    ensures Asked(s, waiter, ask).alive == s.alive
    ensures forall r :: r in s.regs ==> r in Asked(s, waiter, ask).regs && Asked(s, waiter, ask).regs[r] == s.regs[r]
    ensures s.next in Asked(s, waiter, ask).regs ==> Asked(s, waiter, ask).regs[s.next].waiter == waiter
  {
    hide Register;
  }

  // Every event keeps the invariant

  lemma EventKeepsInv(w: World, e: Event)
    requires WorldInv(w) && CanHappen(w, e)
    ensures WorldInv(Happen(w, e))
  {
    hide Inv, FutureInv;
    match e
    case Channel(step) =>
      StepKeepsInv(w.channel, step);
      ChannelKeepsFutures(w, step);
    case NewFuture(id) => NewKeepsFutures(w, id);
    case BeginPoll(id) =>
      WaiterAlive(w, id);
      ReleaseKeepsChannelInv(w.channel, w.futures[id].waiter);
      StepKeepsInv(Released(w.channel, w.futures[id].waiter), NewWaiter);
      BeginKeepsFutures(w, id);
    case AskChannel(id, ask) =>
      WaiterAlive(w, id);
      AskKeepsChannelInv(w.channel, w.futures[id].waiter.value, ask);
      AskKeepsFutures(w, id, ask);
    case DropFuture(id) =>
      WaiterAlive(w, id);
      ReleaseKeepsChannelInv(w.channel, w.futures[id].waiter);
      DropKeepsFutures(w, id);
  }

  lemma WaiterAlive(w: World, id: nat)
    requires FutureInv(w) && id in w.futures
    ensures w.futures[id].waiter.Some? ==> w.futures[id].waiter.value in w.channel.alive
  {
  }

  lemma ChannelKeepsFutures(w: World, step: Step)
    requires WorldInv(w) && CanHappen(w, Channel(step))
    ensures FutureInv(w.(channel := Apply(w.channel, step)))
  {
    hide Apply, WaiterInv, CountInv, ProducerInv, FreshInv;
    StepKeepsRegs(w.channel, step);
    forall f | f in w.futures && w.futures[f].waiter.Some?
      ensures step != DropWaiter(w.futures[f].waiter.value)
    {
      assert Owned(w, w.futures[f].waiter.value);
    }
  }

  lemma NewKeepsFutures(w: World, id: nat)
    requires FutureInv(w) && id !in w.futures
    ensures FutureInv(w.(futures := w.futures[id := Future(None, {})]))
  {
  }

  lemma DropKeepsFutures(w: World, id: nat)
    requires FutureInv(w) && id in w.futures
    ensures FutureInv(World(Released(w.channel, w.futures[id].waiter), w.futures - {id}))
  {
  }

  lemma BeginKeepsFutures(w: World, id: nat)
    requires WorldInv(w) && CanHappen(w, BeginPoll(id))
    ensures FutureInv(Happen(w, BeginPoll(id)))
  {
    hide WaiterInv, CountInv, ProducerInv, FreshInv;
    NextIsNew(w.channel);
  }

  lemma NextIsNew(s: State)
    requires FreshInv(s)
    ensures s.next !in s.alive
  {
  }

  lemma AskKeepsFutures(w: World, id: nat, ask: Ask)
    requires WorldInv(w) && CanHappen(w, AskChannel(id, ask))
    ensures FutureInv(Happen(w, AskChannel(id, ask)))
  {
    hide Asked, WaiterInv, CountInv, ProducerInv, FreshInv;
    AskKeepsRegs(w.channel, w.futures[id].waiter.value, ask);
  }

  // Every run

  ghost predicate Happens(w: World, events: seq<Event>, w': World)
    decreases |events|
  {
    if events == [] then w' == w else CanHappen(w, events[0]) && Happens(Happen(w, events[0]), events[1..], w')
  }

  lemma {:induction false} RunKeepsInv(w: World, events: seq<Event>, w': World)
    requires WorldInv(w) && Happens(w, events, w')
    ensures WorldInv(w')
    decreases |events|
  {
    hide WorldInv, Happen, CanHappen;
    if events != [] {
      EventKeepsInv(w, events[0]);
      RunKeepsInv(Happen(w, events[0]), events[1..], w');
    }
  }

  /** A future that was left pending, and is neither polled again nor dropped, stays registered with a live waiter,
      in each list it was left pending on, until it is woken there; and with nothing under way, what it awaits has
      not happened. */
  lemma PendingFutureIsKept(value: int, events: seq<Event>, w: World, f: nat, r: nat)
    requires Happens(World(Created(value), map[]), events, w) && f in w.futures && r in w.futures[f].regs
    ensures r in w.channel.regs && Some(w.channel.regs[r].waiter) == w.futures[f].waiter
    ensures w.channel.regs[r].waiter in w.channel.alive
    ensures w.channel.regs[r].pending && r !in w.channel.woken ==> Listed(w.channel, r) || InBatch(w.channel, r)
    ensures w.channel.regs[r].pending && r !in w.channel.woken && w.channel.ops == map[] ==> NotYet(w.channel, r)
  {
    hide Happens, Inv;
    CreatedInv(value);
    RunKeepsInv(World(Created(value), map[]), events, w);
    if w.channel.regs[r].pending && r !in w.channel.woken {
      PendingIsListed(w.channel, r);
      if w.channel.ops == map[] { QuietMeansNotYet(w.channel, r); }
    }
  }

  // No waiter outlives its use

  ghost predicate NoLeaks(w: World) {
    forall x :: x in w.channel.alive <==> Owned(w, x)
  }

  lemma StepKeepsAlive(s: State, step: Step)
    requires ListsValid(s) && Enabled(s, step) && !step.NewWaiter? && !step.DropWaiter?
    ensures Apply(s, step).alive == s.alive
  {
    hide ApplyWrite, ApplyLockStep, ApplyWakeOne, RegisterIn;
    match step
    case Write(v, mutate, close) => WriteKeepsAlive(s, v, mutate, close);
    case PollValue(w, _) => RegisterKeepsAlive(s, OnValue, w, true);
    case PollClosed(w) => RegisterKeepsAlive(s, OnClosed, w, true);
    case PollCount(w, used, _) => RegisterKeepsAlive(s, OnCount(used), w, false);
    case LockStep(op) => LockStepKeepsAlive(s, op);
    case WakeOne(op) => WakeOneKeepsAlive(s, op);
    case _ =>
  }

  lemma WriteKeepsAlive(s: State, v: int, mutate: bool, close: bool)
    ensures ApplyWrite(s, v, mutate, close).alive == s.alive
  {
  }

  lemma RegisterKeepsAlive(s: State, kind: Kind, w: nat, pending: bool)
    requires ListsValid(s)
    ensures RegisterIn(s, kind, w, pending).alive == s.alive
  {
    hide Register;
  }

  lemma LockStepKeepsAlive(s: State, op: nat)
    requires Enabled(s, LockStep(op))
    ensures ApplyLockStep(s, op).alive == s.alive
  {
  }

  lemma WakeOneKeepsAlive(s: State, op: nat)
    requires Enabled(s, WakeOne(op))
    ensures ApplyWakeOne(s, op).alive == s.alive
  {
  }

  lemma EventKeepsNoLeaks(w: World, e: Event)
    requires WorldInv(w) && NoLeaks(w) && CanHappen(w, e) && !(e.Channel? && e.step.NewWaiter?)
    ensures NoLeaks(Happen(w, e))
  {
    hide Inv, Apply, Asked, Enabled;
    var w' := Happen(w, e);
    match e
    case Channel(step) =>
      if step.DropWaiter? { DroppedIsAlive(w.channel, step.waiter); }
      StepKeepsAlive(w.channel, step);
      forall x ensures Owned(w', x) <==> Owned(w, x) { SameFutures(w, w', x); }
    case NewFuture(id) =>
      forall x ensures Owned(w', x) <==> Owned(w, x) { OwnedExcept(w, w', id, x); }
    case DropFuture(id) =>
      forall x ensures x in w'.channel.alive <==> Owned(w', x) { OwnedExcept(w, w', id, x); }
    case BeginPoll(id) =>
      forall x ensures x in w'.channel.alive <==> Owned(w', x) { OwnedExcept(w, w', id, x); }
    case AskChannel(id, ask) =>
      AskKeepsAlive(w.channel, w.futures[id].waiter.value, ask);
      forall x ensures Owned(w', x) <==> Owned(w, x) { OwnedExcept(w, w', id, x); }
  }

  lemma DroppedIsAlive(s: State, waiter: nat)
    requires Enabled(s, DropWaiter(waiter))
    ensures waiter in s.alive
  {
  }

  lemma AskKeepsAlive(s: State, waiter: nat, ask: Ask)
    requires ListsValid(s)
    ensures Asked(s, waiter, ask).alive == s.alive
  {
    hide Register;
  }

  lemma SameFutures(w: World, w': World, x: nat)
    requires w'.futures == w.futures
    ensures Owned(w', x) <==> Owned(w, x)
  {
  }

  /** Who owns a waiter, when one future changes. */
  lemma OwnedExcept(w: World, w': World, id: nat, x: nat)
    requires w'.futures - {id} == w.futures - {id}
    ensures Owned(w', x) <==> (id in w'.futures && w'.futures[id].waiter == Some(x))
                              || exists f :: f != id && f in w.futures && w.futures[f].waiter == Some(x)
    ensures Owned(w, x) <==> (id in w.futures && w.futures[id].waiter == Some(x))
                             || exists f :: f != id && f in w.futures && w.futures[f].waiter == Some(x)
  {
    forall f | f != id
      ensures f in w'.futures <==> f in w.futures
      ensures f in w.futures ==> w'.futures[f] == w.futures[f]
    {
      assert f in w'.futures - {id} <==> f in w.futures - {id};
      if f in w.futures { assert (w'.futures - {id})[f] == (w.futures - {id})[f]; }
    }
  }

  /** If only futures make waiters, the waiters alive are at all times exactly those of the futures, one each: what a
      poll replaces is gone, and so is that of a future that was dropped. */
  lemma {:induction false} WaitersAreTheFutures(w: World, events: seq<Event>, w': World)
    requires WorldInv(w) && NoLeaks(w) && Happens(w, events, w')
    requires forall i :: 0 <= i < |events| ==> !(events[i].Channel? && events[i].step.NewWaiter?)
    ensures NoLeaks(w')
    decreases |events|
  {
    hide WorldInv, NoLeaks, Happen, CanHappen;
    if events != [] {
      EventKeepsInv(w, events[0]);
      EventKeepsNoLeaks(w, events[0]);
      WaitersAreTheFutures(Happen(w, events[0]), events[1..], w');
    }
  }
}

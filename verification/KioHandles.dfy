/** The handles of a kio channel, imperatively: one method per atomic count or lock region, each doing to the shared
    fields what the transition system says. */
module KioHandles {
  import opened Options
  import opened KioWaiters
  import KioChannel

  class Channel {
    var value: int
    var closed: bool
    const waitersValue: WaiterList
    const waitersClosed: WaiterList
    const waitersConsumer: WaiterList
    var producers: nat
    var consumers: nat
    var alive: set<nat>          // waiters that still hold their waker
    var next: nat                // identity of the next registration
    ghost var world: KioChannel.State

    ghost predicate Valid()
      reads this, waitersValue, waitersClosed, waitersConsumer
    {
      && waitersValue != waitersClosed && waitersValue != waitersConsumer && waitersClosed != waitersConsumer
      && ValidList(waitersValue.View()) && ValidList(waitersClosed.View()) && ValidList(waitersConsumer.View())
    }

    ghost function View(): KioChannel.State
      reads this, waitersValue, waitersClosed, waitersConsumer
    {
      world.(value := value, closed := closed, onValue := waitersValue.View(), onClosed := waitersClosed.View(),
             onCount := waitersConsumer.View(), producers := producers, consumers := consumers, alive := alive,
             next := next)
    }

    constructor (v: int)
      ensures Valid() && View() == KioChannel.Created(v)
      ensures fresh(waitersValue) && fresh(waitersClosed) && fresh(waitersConsumer)
    {
      value, closed, producers, consumers, alive, next := v, false, 1, 0, {}, 1;
      waitersValue := new WaiterList();
      waitersClosed := new WaiterList();
      waitersConsumer := new WaiterList();
      world := KioChannel.Created(v);
    }

    /** `write`, then the guard used as told, then its drop. Returns whether the channel was open, and whom to wake. */
    method Write(v: int, mutate: bool, close: bool) returns (ok: bool, batch: seq<Entry>)
      requires Valid() && View().lock.None?
      modifies this, waitersValue, waitersClosed, waitersConsumer
      ensures Valid() && ok == !old(closed)
      ensures View() == KioChannel.ApplyWrite(old(View()), v, mutate, close)
      ensures batch == if old(closed) || !(mutate || close) then []
                       else if close then
                         old(waitersValue.entries) + old(waitersClosed.entries) + old(waitersConsumer.entries)
                       else old(waitersValue.entries)
    {
      batch := [];
      if closed { return false, batch; }
      ok := true;
      var modified := false;
      if mutate { value, modified := v, true; }
      if close { closed, modified := true, true; }
      if !modified { return; }
      next := next + 1;
      batch := waitersValue.Take();
      if closed {
        var onClosed := waitersClosed.Take();
        var onConsumer := waitersConsumer.Take();
        batch := batch + onClosed + onConsumer;
      }
      world := KioChannel.ApplyWrite(old(View()), v, mutate, close);
    }

    /** `poll`: the predicate's answer is `ready`. */
    method PollValue(w: nat, ready: bool) returns (pending: bool)
      requires Valid() && View().lock.None?
      modifies this, waitersValue
      ensures Valid() && View() == KioChannel.ApplyPollValue(old(View()), w, ready)
      ensures pending == (!ready && !closed)
      ensures pending ==> Entry(old(next), w) in waitersValue.entries
    {
      if ready || closed { return false; }
      waitersValue.RegisterWaiter(Entry(next, w), alive);
      next := next + 1;
      world := KioChannel.ApplyPollValue(old(View()), w, ready);
      pending := true;
    }

    method PollClosed(w: nat) returns (pending: bool)
      requires Valid() && View().lock.None?
      modifies this, waitersClosed
      ensures Valid() && View() == KioChannel.ApplyPollClosed(old(View()), w)
      ensures pending == !closed
      ensures pending ==> Entry(old(next), w) in waitersClosed.entries
    {
      if closed { return false; }
      waitersClosed.RegisterWaiter(Entry(next, w), alive);
      next := next + 1;
      world := KioChannel.ApplyPollClosed(old(View()), w);
      pending := true;
    }

    /** `poll_used`/`poll_unused` up to the registration: either decided, or registered with the lock still held. */
    method PollCount(w: nat, used: bool, weak: bool) returns (decided: bool)
      requires Valid() && View().lock.None?
      modifies this, waitersConsumer
      ensures Valid() && View() == KioChannel.ApplyPollCount(old(View()), w, used, weak)
      ensures decided == View().lock.None?
      ensures decided ==> closed || KioChannel.CountMet(View(), used)
    {
      if closed { return true; }
      if !weak && (if used then consumers > 0 else consumers == 0) { return true; }
      waitersConsumer.RegisterWaiter(Entry(next, w), alive);
      next := next + 2;
      world := KioChannel.ApplyPollCount(old(View()), w, used, weak);
      decided := false;
    }

    /** The second load, under the same lock. */
    method FinishPoll(used: bool, ghost op: nat) returns (pending: bool)
      requires Valid() && KioChannel.Enabled(View(), KioChannel.FinishPoll(op))
               && View().regs[View().ops[op].reg].kind.used == used
      modifies this
      ensures Valid() && View() == KioChannel.ApplyFinishPoll(old(View()), op)
      ensures pending == !KioChannel.CountMet(View(), used)
    {
      pending := if used then consumers == 0 else consumers > 0;
      world := KioChannel.ApplyFinishPoll(old(View()), op);
    }

    // Counts

    /** Counts a consumer; the first one goes on to lock. */
    method Consume() returns (first: bool)
      modifies this
      requires Valid()
      ensures Valid() && View() == KioChannel.ApplyConsume(old(View()))
      ensures first <==> old(consumers) == 0
    {
      first := consumers == 0;
      consumers, next := consumers + 1, next + 2;
      world := KioChannel.ApplyConsume(old(View()));
    }

    /** Uncounts a consumer; the last one goes on to lock. */
    method DropConsumer(ghost h: nat) returns (last: bool)
      requires Valid() && consumers > 0
      modifies this
      ensures Valid() && View() == KioChannel.ApplyDropConsumer(old(View()), h)
      ensures last <==> old(consumers) <= 1
    {
      var prev := consumers;
      consumers, next := consumers - 1, next + 1;
      last := !(prev > 1);
      world := KioChannel.ApplyDropConsumer(old(View()), h);
    }

    method DropProducer(ghost h: nat) returns (last: bool)
      requires Valid() && producers > 0
      modifies this
      ensures Valid() && View() == KioChannel.ApplyDropProducer(old(View()), h)
      ensures last <==> old(producers) <= 1
    {
      var prev := producers;
      producers, next := producers - 1, next + 1;
      last := !(prev > 1);
      world := KioChannel.ApplyDropProducer(old(View()), h);
    }

    method BeginUpgrade()
      requires Valid()
      modifies this
      ensures Valid() && View() == KioChannel.ApplyUpgrade(old(View()))
    {
      producers, next := producers + 1, next + 1;
      world := KioChannel.ApplyUpgrade(old(View()));
    }

    // Lock regions

    /** The first consumer, or the last one gone, drains the count waiters. */
    method DrainCount(ghost op: nat) returns (batch: seq<Entry>)
      requires Valid() && KioChannel.Enabled(View(), KioChannel.LockStep(op))
      requires View().ops[op].Consuming? || View().ops[op].DroppingConsumer?
      modifies this, waitersConsumer
      ensures Valid() && View() == KioChannel.ApplyLockStep(old(View()), op)
      ensures batch == old(waitersConsumer.entries)
    {
      batch := waitersConsumer.Take();
      world := KioChannel.ApplyLockStep(old(View()), op);
    }

    /** The last producer closes, unless closed already. */
    method CloseByDrop(ghost op: nat) returns (batch: seq<Entry>)
      requires Valid() && KioChannel.Enabled(View(), KioChannel.LockStep(op)) && View().ops[op].DroppingProducer?
      modifies this, waitersValue, waitersClosed, waitersConsumer
      ensures Valid() && View() == KioChannel.ApplyLockStep(old(View()), op)
      ensures batch == if old(closed) then []
              else old(waitersValue.entries) + old(waitersClosed.entries) + old(waitersConsumer.entries)
    {
      batch := [];
      if !closed {
        closed := true;
        var onValue := waitersValue.Take();
        var onClosed := waitersClosed.Take();
        var onConsumer := waitersConsumer.Take();
        batch := onValue + onClosed + onConsumer;
      }
      world := KioChannel.ApplyLockStep(old(View()), op);
    }

    /** `produce` under the lock: a handle if open, otherwise the count is given back. */
    method FinishUpgrade(ghost op: nat) returns (ok: bool)
      requires Valid() && KioChannel.Enabled(View(), KioChannel.LockStep(op)) && View().ops[op].Upgrading?
      modifies this
      ensures Valid() && View() == KioChannel.ApplyLockStep(old(View()), op)
      ensures ok == !closed && (ok ==> old(next) in View().producerHandles)
    {
      ok := !closed;
      if ok { next := next + 1; } else { producers := producers - 1; }
      world := KioChannel.ApplyLockStep(old(View()), op);
    }
  }
}

/** The futex calls as the kernel runs them, on the shared parking lot, proved equal to the steps of `Futex`. */
module FutexKernel {
  import opened Numbers
  import opened Options
  import opened TaskQueue
  import opened Futex

  class Kernel {
    var words: map<Address, nat>
    var lot: map<Address, seq<Handle>>
    var blocked: map<int, Option<nat>>
    var inbox: set<Handle>
    var now: nat
    ghost var waits: map<int, Wait>
    ghost var tickets: nat
    ghost var popped: set<nat>
    ghost var returned: map<nat, int>
    ghost var reported: nat
    ghost var excess: nat

    ghost function View(): State
      reads this
    {
      State(words, lot, blocked, inbox, waits, now, tickets, popped, returned, reported, excess)
    }

    constructor ()
      ensures View() == Initial
    {
      words, lot, blocked, inbox, now := map[], map[], map[], {}, 0;
      waits, tickets, popped, returned, reported, excess := map[], 0, {}, map[], 0, 0;
    }

    /** `futex_wait` up to its first reschedule, and `futex_wait_and_set` if there is a new value. */
    method EnterWait(handle: Handle, address: Address, expected: nat, timeout: Option<nat>, relative: bool,
                     newValue: Option<nat>)
      returns (r: Option<int>, wakeup: Option<nat>)
      modifies this
      ensures (View(), r) == ApplyPark(old(View()), handle, address, expected, timeout, relative, newValue)
      ensures r.None? ==> handle.id in waits && waits[handle.id] == Wait(address, wakeup, handle, old(tickets))
    {
      hide WakeupTime;
      wakeup := None;
      var loaded := if address in words then words[address] else 0;
      if newValue.Some? { words := words[address := newValue.value]; }
      if loaded != expected {
        return Some(-EAGAIN), None;
      }
      wakeup := WakeupTime(now, timeout, relative);
      blocked := blocked[handle.id := wakeup];
      var queue := if address in lot then lot[address] else [];
      lot := lot[address := queue + [handle]];
      waits := waits[handle.id := Wait(address, wakeup, handle, tickets)];
      tickets := tickets + 1;
      r := None;
    }

    /** One iteration of the loop in a wait, after `reschedule` returned. */
    method ResumeWait(address: Address, wakeup: Option<nat>, handle: Handle) returns (r: Option<int>)
      requires handle.id in waits && waits[handle.id] == Wait(address, wakeup, handle, waits[handle.id].ticket)
      modifies this
      ensures (View(), r) == ApplyResume(old(View()), handle.id)
    {
      if wakeup.Some? && wakeup.value <= now {
        var wakeupSeen := true;
        if address in lot {
          var queue := lot[address];
          wakeupSeen := !Contains(queue, handle);
          queue := RemoveAll(queue, handle);
          if queue == [] { lot := lot - {address}; } else { lot := lot[address := queue]; }
        }
        r := Some(if wakeupSeen then 0 else -ETIMEDOUT);
      } else {
        var wakeupSeen := !(address in lot && Contains(lot[address], handle));
        if wakeupSeen {
          r := Some(0);
        } else {
          blocked := blocked[handle.id := wakeup];
          r := None;
        }
      }
      if r.Some? {
        returned := returned[waits[handle.id].ticket := r.value];
        waits := waits - {handle.id};
      }
    }

    method CustomWakeup(core: nat, handle: Handle)
      modifies this
      ensures View() == ApplyCustomWakeup(old(View()), core, handle)
    {
      if handle.core == core {
        blocked := blocked - {handle.id};
      } else {
        inbox := inbox + {handle};
      }
    }

    /** The loop shared by the two wake calls. */
    method WakeQueue(core: nat, queue: seq<Handle>, count: int) returns (rest: seq<Handle>, woken: int)
      modifies this
      ensures (View(), rest, woken) == WakeLoop(old(View()), core, queue, count, 0)
    {
      woken := 0;
      rest := queue;
      while woken != count || count == I32_MAX
        invariant 0 <= woken <= I32_MAX
        invariant WakeLoop(old(View()), core, queue, count, 0) == WakeLoop(View(), core, rest, count, woken)
        decreases |rest|
      {
        if rest == [] { break; }
        var handle := rest[Next(rest)];
        rest := Without(rest, Next(rest));
        if handle.id in waits { popped := popped + {waits[handle.id].ticket}; }
        CustomWakeup(core, handle);
        woken := if woken >= I32_MAX then I32_MAX else woken + 1;
      }
    }

    method Wake(core: nat, address: Address, count: int) returns (r: int)
      modifies this
      ensures (View(), r) == ApplyWake(old(View()), core, address, count)
    {
      hide WakeLoop;
      if count < 0 { return -EINVAL; }
      if address !in lot { return 0; }
      var queue := lot[address];
      ghost var was := View();
      var rest, woken := WakeQueue(core, queue, count);
      LoopFrame(was, core, queue, count, 0);
      if rest == [] { lot := lot - {address}; } else { lot := lot[address := rest]; }
      reported := reported + woken;
      excess := excess + (|queue| - |rest| - woken);
      r := woken;
    }

    method WakeOrSetWord(core: nat, address: Address, count: int, newValue: nat) returns (r: int)
      modifies this
      ensures (View(), r) == ApplyWakeOrSet(old(View()), core, address, count, newValue)
    {
      hide ApplyWake;
      if count < 0 { return -EINVAL; }
      if address !in lot {
        words := words[address := newValue];
        return 0;
      }
      r := Wake(core, address, count);
      if r == 0 { words := words[address := newValue]; }
    }
  }

  lemma {:induction false} LoopFrame(s: State, core: nat, q: seq<Handle>, count: int, woken: int)
    requires 0 <= woken <= I32_MAX
    ensures var s' := WakeLoop(s, core, q, count, woken).0;
            s'.lot == s.lot && s'.reported == s.reported && s'.excess == s.excess
    decreases |q|
  {
    if (woken != count || count == I32_MAX) && q != [] {
      LoopFrame(Popped(s, core, q[Next(q)]), core, Without(q, Next(q)), count, SaturatingSucc(woken));
    }
  }
}

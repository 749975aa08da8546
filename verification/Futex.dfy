/** The futex parking lot as a transition system. One step is one region that runs under the parking lot's
    lock, or one step of a scheduler, a timer or a user of a futex word. */
module Futex {
  import opened Numbers
  import opened Options
  import opened TaskQueue

  const U32_MAX: nat := 0xffff_ffff
  const U64_MAX: nat := 0xffff_ffff_ffff_ffff

  type Address = nat

  /** A task inside a wait: `wakeup` and `handle` are the locals of the call, `ticket` numbers the waits. */
  datatype Wait = Wait(address: Address, wakeup: Option<nat>, handle: Handle, ticket: nat)

  datatype State = State(
    words: map<Address, nat>,           // the futex words; a missing word is 0
    lot: map<Address, seq<Handle>>,     // PARKING_LOT, each queue in order of arrival
    blocked: map<int, Option<nat>>,     // tasks in the blocked lists of the cores, with their wakeup times
    inbox: set<Handle>,                 // wakeups under way to the core of the handle
    waits: map<int, Wait>,              // tasks that entered a wait and have not returned
    now: nat,                           // timer ticks
    tickets: nat,                       // number of waits so far that parked
    popped: set<nat>,                   // waits whose handle a wake took out of the lot
    returned: map<nat, int>,            // return values of the waits that parked and returned
    reported: nat,                      // sum of the values returned by wakes
    excess: nat)                        // woken tasks missing in those values because they saturate

  const Initial := State(map[], map[], map[], {}, map[], 0, 0, {}, map[], 0, 0)

  datatype Step =
    | Store(address: Address, value: nat)
    | Park(handle: Handle, address: Address, expected: nat, timeout: Option<nat>, relative: bool, newValue: Option<nat>)
    | Resume(task: int)
    | WakeUp(core: nat, address: Address, count: int)
    | WakeOrSet(core: nat, address: Address, count: int, value: nat)
    | CustomWakeup(core: nat, handle: Handle)
    | CheckInput(core: nat)
    | Timer(core: nat)
    | Tick

  function Word(s: State, a: Address): nat {
    if a in s.words then s.words[a] else 0
  }

  function QueueAt(s: State, a: Address): seq<Handle> {
    if a in s.lot then s.lot[a] else []
  }

  /** Stores a queue; an empty queue is removed from the lot. */
  function WithQueue(lot: map<Address, seq<Handle>>, a: Address, q: seq<Handle>): map<Address, seq<Handle>> {
    if q == [] then lot - {a} else lot[a := q]
  }

  /** The wakeup time of a wait: a relative timeout that overflows means no timeout. */
  function WakeupTime(now: nat, timeout: Option<nat>, relative: bool): Option<nat> {
    match timeout
    case None => None
    case Some(t) => if !relative then Some(t) else if now + t > U64_MAX then None else Some(now + t)
  }

  // Waiting

  /** The first region of a wait (a new value is stored even if the comparison fails). */
  function ApplyPark(s: State, h: Handle, a: Address, expected: nat, timeout: Option<nat>, relative: bool,
                     newValue: Option<nat>): (State, Option<int>) {
    var stored := if newValue.Some? then s.(words := s.words[a := newValue.value]) else s;
    if Word(s, a) != expected then (stored, Some(-EAGAIN))
    else
      var wakeup := WakeupTime(s.now, timeout, relative);
      (stored.(blocked := s.blocked[h.id := wakeup],
               lot := s.lot[a := QueueAt(s, a) + [h]],
               waits := s.waits[h.id := Wait(a, wakeup, h, s.tickets)],
               tickets := s.tickets + 1),
       None)
  }

  function Return(s: State, t: int, code: int): State
    requires t in s.waits
  {
    s.(waits := s.waits - {t}, returned := s.returned[s.waits[t].ticket := code])
  }

  /** The region after a reschedule: time out, return, or block again. */
  function ApplyResume(s: State, t: int): (State, Option<int>)
    requires t in s.waits
  {
    var w := s.waits[t];
    var q := QueueAt(s, w.address);
    if w.wakeup.Some? && w.wakeup.value <= s.now then
      if w.address !in s.lot then (Return(s, t, 0), Some(0))
      else
        var s1 := s.(lot := WithQueue(s.lot, w.address, RemoveAll(q, w.handle)));
        if Contains(q, w.handle) then (Return(s1, t, -ETIMEDOUT), Some(-ETIMEDOUT)) else (Return(s1, t, 0), Some(0))
    else if Contains(q, w.handle) then (s.(blocked := s.blocked[t := w.wakeup]), None)
    else (Return(s, t, 0), Some(0))
  }

  // Waking

  function ApplyCustomWakeup(s: State, core: nat, h: Handle): State {
    if h.core == core then s.(blocked := s.blocked - {h.id}) else s.(inbox := s.inbox + {h})
  }

  function SaturatingSucc(woken: int): int {
    if woken >= I32_MAX then I32_MAX else woken + 1
  }

  /** The wake loop: pops and wakes until `count` tasks are woken or the queue is empty; `I32_MAX` means all. */
  function WakeLoop(s: State, core: nat, q: seq<Handle>, count: int, woken: int): (r: (State, seq<Handle>, int))
    requires 0 <= woken <= I32_MAX
    ensures woken <= r.2 <= I32_MAX && |r.1| <= |q| && r.2 <= woken + (|q| - |r.1|)
    decreases |q|
  {
    if !(woken != count || count == I32_MAX) || q == [] then (s, q, woken)
    else WakeLoop(Popped(s, core, q[Next(q)]), core, Without(q, Next(q)), count, SaturatingSucc(woken))
  }

  /** One iteration: the handle taken out of the queue is woken. */
  function Popped(s: State, core: nat, h: Handle): State {
    ApplyCustomWakeup(s.(popped := if h.id in s.waits then s.popped + {s.waits[h.id].ticket} else s.popped), core, h)
  }

  function ApplyWake(s: State, core: nat, a: Address, count: int): (State, int) {
    if count < 0 then (s, -EINVAL)
    else if a !in s.lot then (s, 0)
    else
      var (s1, rest, woken) := WakeLoop(s, core, s.lot[a], count, 0);
      (s1.(lot := WithQueue(s.lot, a, rest), reported := s.reported + woken,
           excess := s.excess + (|s.lot[a]| - |rest| - woken)), woken)
  }

  function ApplyWakeOrSet(s: State, core: nat, a: Address, count: int, value: nat): (State, int) {
    if count < 0 then (s, -EINVAL)
    else if a !in s.lot then (s.(words := s.words[a := value]), 0)
    else
      var (s1, woken) := ApplyWake(s, core, a, count);
      (if woken == 0 then s1.(words := s1.words[a := value]) else s1, woken)
  }

  // Steps and runs

  predicate Enabled(s: State, step: Step) {
    match step
    case Park(h, _, _, _, _, _) => h.id !in s.waits && h.prio < NO_PRIORITIES
    case Resume(t) => t in s.waits && t !in s.blocked
    case _ => true
  }

  function Apply(s: State, step: Step): State
    requires Enabled(s, step)
  {
    match step
    case Store(a, v) => s.(words := s.words[a := v])
    case Park(h, a, expected, timeout, relative, newValue) =>
      ApplyPark(s, h, a, expected, timeout, relative, newValue).0
    case Resume(t) => ApplyResume(s, t).0
    case WakeUp(core, a, count) => ApplyWake(s, core, a, count).0
    case WakeOrSet(core, a, count, v) => ApplyWakeOrSet(s, core, a, count, v).0
    case CustomWakeup(core, h) => ApplyCustomWakeup(s, core, h)
    case CheckInput(core) =>
      s.(blocked := map t | t in s.blocked && !(exists h :: h in s.inbox && h.core == core && h.id == t) ::
                      s.blocked[t],
         inbox := set h | h in s.inbox && h.core != core)
    case Timer(core) =>
      s.(blocked := map t | t in s.blocked
                            && !(t in s.waits && s.waits[t].handle.core == core
                                 && s.blocked[t].Some? && s.blocked[t].value < s.now) ::
                      s.blocked[t])
    case Tick => s.(now := s.now + 1)
  }

  /** A state reached from s by the steps, all of them enabled. */
  predicate Reaches(s: State, steps: seq<Step>, s': State)
    decreases |steps|
  {
    if steps == [] then s' == s
    else Enabled(s, steps[0]) && Reaches(Apply(s, steps[0]), steps[1..], s')
  }

  // The invariant

  ghost predicate Queued(s: State, t: int)
    requires t in s.waits
  {
    s.waits[t].handle in QueueAt(s, s.waits[t].address)
  }

  ghost predicate DistinctIds(q: seq<Handle>) {
    forall i, j :: 0 <= i < j < |q| ==> q[i].id != q[j].id
  }

  /** The parked handles are those of the waits, once each, and there is no empty queue. */
  ghost predicate LotInv(s: State) {
    forall a :: a in s.lot ==> s.lot[a] != [] && QueueInv(s, a, s.lot[a])
  }

  ghost predicate QueueInv(s: State, a: Address, q: seq<Handle>) {
    && DistinctIds(q)
    && forall h :: h in q ==> h.id in s.waits && s.waits[h.id].address == a && s.waits[h.id].handle == h
  }

  ghost predicate WaitInv(s: State, t: int)
    requires t in s.waits
  {
    var w := s.waits[t];
    && w.handle.id == t && w.handle.prio < NO_PRIORITIES
    && w.ticket < s.tickets && w.ticket !in s.returned
    && (Queued(s, t) <==> w.ticket !in s.popped)
    && (t in s.blocked ==> s.blocked[t] == w.wakeup && (Queued(s, t) || w.handle in s.inbox))
  }

  ghost predicate TicketInv(s: State) {
    && (forall t, u :: t in s.waits && u in s.waits && t != u ==> s.waits[t].ticket != s.waits[u].ticket)
    && (forall k :: k in s.returned ==> k < s.tickets && s.returned[k] == if k in s.popped then 0 else -ETIMEDOUT)
    && (forall k :: k in s.popped ==> k in s.returned || exists t :: t in s.waits && s.waits[t].ticket == k)
  }

  ghost predicate ParkingInv(s: State) {
    && LotInv(s)
    && (forall t :: t in s.waits ==> WaitInv(s, t))
    && TicketInv(s)
  }

  ghost predicate Inv(s: State) {
    ParkingInv(s) && s.reported + s.excess == |s.popped|
  }

  // Queues

  lemma {:induction false} RemoveAllDistinct(q: seq<Handle>, h: Handle)
    requires DistinctIds(q)
    ensures DistinctIds(RemoveAll(q, h))
  {
    if q != [] {
      var n := |q| - 1;
      var r := RemoveAll(q[..n], h);
      RemoveAllDistinct(q[..n], h);
      RemoveAllFrom(q[..n], h);
      forall i | 0 <= i < |r| ensures r[i].id != q[n].id { assert r[i] in q[..n]; }
    }
  }

  /** In a lot that satisfies the invariant, looking up a wait's handle by id and priority finds that handle. */
  lemma ContainsIsMembership(s: State, a: Address, q: seq<Handle>, t: int)
    requires QueueInv(s, a, q) && t in s.waits && s.waits[t].handle.id == t
    ensures Contains(q, s.waits[t].handle) <==> s.waits[t].handle in q
    ensures forall x :: x in q && Same(x, s.waits[t].handle) ==> x == s.waits[t].handle
  {
    var h := s.waits[t].handle;
    if h in q {
      var i :| 0 <= i < |q| && q[i] == h;
      assert Same(q[i], h);
    }
    if Contains(q, h) {
      var i :| 0 <= i < |q| && Same(q[i], h);
      assert q[i] in q;
    }
  }

  lemma WithoutMembers(q: seq<Handle>, i: nat)
    requires i < |q| && DistinctIds(q)
    ensures DistinctIds(Without(q, i))
    ensures forall x :: x in Without(q, i) <==> x in q && x != q[i]
  {
    var r := Without(q, i);
    forall x | x in q && x != q[i] ensures x in r {
      var j :| 0 <= j < |q| && q[j] == x;
      if j < i { assert r[j] == x; } else { assert r[j - 1] == x; }
    }
  }

  // Each step keeps the invariant

  lemma ParkKeepsInv(s: State, h: Handle, a: Address, expected: nat, timeout: Option<nat>, relative: bool,
                     newValue: Option<nat>)
    requires Inv(s) && h.id !in s.waits && h.prio < NO_PRIORITIES
    ensures Inv(ApplyPark(s, h, a, expected, timeout, relative, newValue).0)
  {
    hide LotInv, WaitInv;
    var s' := ApplyPark(s, h, a, expected, timeout, relative, newValue).0;
    ParkKeepsLot(s, h, a, expected, timeout, relative, newValue);
    ParkKeepsWaits(s, h, a, expected, timeout, relative, newValue);
    forall k | k in s'.popped
      ensures k in s'.returned || exists t :: t in s'.waits && s'.waits[t].ticket == k
    {
      if k !in s.returned {
        var t :| t in s.waits && s.waits[t].ticket == k;
        assert t in s'.waits;
      }
    }
    if h.id in s'.waits {
      forall t | t in s.waits ensures s.waits[t].ticket != s.tickets { TicketsBelow(s, t); }
    }
  }

  lemma TicketsBelow(s: State, t: int)
    requires Inv(s) && t in s.waits
    ensures s.waits[t].ticket < s.tickets
  {
    assert WaitInv(s, t);
  }

  lemma ParkKeepsLot(s: State, h: Handle, a: Address, expected: nat, timeout: Option<nat>, relative: bool,
                     newValue: Option<nat>)
    requires Inv(s) && h.id !in s.waits && h.prio < NO_PRIORITIES
    ensures var s' := ApplyPark(s, h, a, expected, timeout, relative, newValue).0;
            LotInv(s')
  {
    var s' := ApplyPark(s, h, a, expected, timeout, relative, newValue).0;
    forall b | b in s'.lot
      ensures s'.lot[b] != [] && QueueInv(s', b, s'.lot[b])
    {
      assert QueueInv(s, b, QueueAt(s, b));
    }
  }

  lemma ParkKeepsWaits(s: State, h: Handle, a: Address, expected: nat, timeout: Option<nat>, relative: bool,
                       newValue: Option<nat>)
    requires Inv(s) && h.id !in s.waits && h.prio < NO_PRIORITIES
    ensures var s' := ApplyPark(s, h, a, expected, timeout, relative, newValue).0;
            forall t :: t in s'.waits ==> WaitInv(s', t)
  {
    hide QueueInv;
    assert s.tickets !in s.popped by {
      forall k | k in s.popped ensures k < s.tickets {
        if k !in s.returned { var t :| t in s.waits && s.waits[t].ticket == k; assert WaitInv(s, t); }
      }
    }
    var s' := ApplyPark(s, h, a, expected, timeout, relative, newValue).0;
    forall t | t in s'.waits
      ensures WaitInv(s', t)
    {
      if t in s.waits { assert WaitInv(s, t); }
    }
  }

  lemma ReturnKeepsInv(s: State, t: int, code: int)
    requires Inv(s) && t in s.waits && !Queued(s, t) && code == 0
    ensures Inv(Return(s, t, code))
  {
    var s' := Return(s, t, code);
    var k := s.waits[t].ticket;
    assert WaitInv(s, t);
    forall u | u in s'.waits ensures WaitInv(s', u) { assert WaitInv(s, u); }
    forall a | a in s'.lot ensures s'.lot[a] != [] && QueueInv(s', a, s'.lot[a]) { assert QueueInv(s, a, s.lot[a]); }
    forall j | j in s'.popped
      ensures j in s'.returned || exists u :: u in s'.waits && s'.waits[u].ticket == j
    {
      if j !in s.returned && j != k {
        var u :| u in s.waits && s.waits[u].ticket == j;
        assert u in s'.waits;
      }
    }
  }

  function TimedOut(s: State, t: int): State
    requires t in s.waits && s.waits[t].address in s.lot
  {
    var w := s.waits[t];
    Return(s.(lot := WithQueue(s.lot, w.address, RemoveAll(s.lot[w.address], w.handle))), t, -ETIMEDOUT)
  }

  lemma TimeoutKeepsLot(s: State, t: int)
    requires Inv(s) && t in s.waits && Queued(s, t)
    ensures LotInv(TimedOut(s, t))
    ensures forall u :: u in s.waits && u != t ==> WaitInv(TimedOut(s, t), u)
  {
    hide RemoveAll;
    var w := s.waits[t];
    var a, q := w.address, s.lot[w.address];
    var s' := TimedOut(s, t);
    assert WaitInv(s, t) && QueueInv(s, a, q);
    RemoveAllFrom(q, w.handle);
    RemoveAllDistinct(q, w.handle);
    ContainsIsMembership(s, a, q, t);
    hide DistinctIds, Contains;
    forall u | u in s.waits && u != t
      ensures WaitInv(s', u)
    {
      assert WaitInv(s, u);
      assert s.waits[u].handle != w.handle;
    }
    forall b | b in s'.lot
      ensures s'.lot[b] != [] && QueueInv(s', b, s'.lot[b])
    {
      assert QueueInv(s, b, s.lot[b]);
    }
  }

  lemma TimeoutKeepsInv(s: State, t: int)
    requires Inv(s) && t in s.waits && Queued(s, t)
    ensures Inv(TimedOut(s, t))
  {
    hide LotInv, RemoveAll;
    TimeoutKeepsLot(s, t);
    var s' := TimedOut(s, t);
    assert WaitInv(s, t);
    forall j | j in s'.popped
      ensures j in s'.returned || exists u :: u in s'.waits && s'.waits[u].ticket == j
    {
      if j !in s.returned {
        var u :| u in s.waits && s.waits[u].ticket == j;
        assert u in s'.waits;
      }
    }
  }

  /** The kernel's test for a wakeup: the handle is found exactly while no wake has popped it. */
  lemma ContainsIsQueued(s: State, t: int)
    requires Inv(s) && t in s.waits
    ensures Contains(QueueAt(s, s.waits[t].address), s.waits[t].handle) <==> Queued(s, t)
    ensures Queued(s, t) <==> s.waits[t].ticket !in s.popped
  {
    hide Contains;
    var a := s.waits[t].address;
    assert WaitInv(s, t) && QueueInv(s, a, QueueAt(s, a));
    ContainsIsMembership(s, a, QueueAt(s, a), t);
  }

  lemma ResumeKeepsInv(s: State, t: int)
    requires Inv(s) && t in s.waits
    ensures Inv(ApplyResume(s, t).0)
  {
    hide Inv, Contains, RemoveAll, Return;
    ContainsIsQueued(s, t);
    var w := s.waits[t];
    if !Queued(s, t) {
      if w.address in s.lot { NothingToRemove(s, w.address, w.handle); }
      ReturnKeepsInv(s, t, 0);
    } else if w.wakeup.Some? && w.wakeup.value <= s.now {
      TimeoutKeepsInv(s, t);
    } else {
      BlockAgainKeepsInv(s, t);
    }
  }

  lemma NothingToRemove(s: State, a: Address, h: Handle)
    requires Inv(s) && a in s.lot && !Contains(s.lot[a], h)
    ensures s.(lot := WithQueue(s.lot, a, RemoveAll(s.lot[a], h))) == s
  {
    hide RemoveAll, Contains;
    RemoveNothing(s.lot[a], h);
    assert s.lot[a] != [] && s.lot[a := s.lot[a]] == s.lot;
  }

  lemma {:induction false} RemoveNothing(q: seq<Handle>, h: Handle)
    requires !Contains(q, h)
    ensures RemoveAll(q, h) == q
  {
    if q != [] {
      var n := |q| - 1;
      forall i | 0 <= i < n ensures !Same(q[..n][i], h) { assert !Same(q[i], h); }
      RemoveNothing(q[..n], h);
    }
  }

  lemma BlockAgainKeepsInv(s: State, t: int)
    requires Inv(s) && t in s.waits && Queued(s, t)
    ensures Inv(s.(blocked := s.blocked[t := s.waits[t].wakeup]))
  {
    var s' := s.(blocked := s.blocked[t := s.waits[t].wakeup]);
    forall u | u in s'.waits ensures WaitInv(s', u) { assert WaitInv(s, u); }
    forall a | a in s'.lot ensures s'.lot[a] != [] && QueueInv(s', a, s'.lot[a]) { assert QueueInv(s, a, s.lot[a]); }
  }

  /** Unblocking tasks, moving time on, storing words and delivering wakeups that are no longer needed. */
  lemma SchedulerKeepsInv(s: State, s': State)
    requires Inv(s)
    requires s' == s.(words := s'.words, now := s'.now, blocked := s'.blocked, inbox := s'.inbox)
    requires forall t :: t in s'.blocked ==> t in s.blocked && s'.blocked[t] == s.blocked[t]
    requires forall t :: t in s.waits && t in s'.blocked && s.waits[t].handle in s.inbox ==>
               s.waits[t].handle in s'.inbox
    ensures Inv(s')
  {
    forall u | u in s'.waits ensures WaitInv(s', u) { assert WaitInv(s, u); }
    forall a | a in s'.lot ensures s'.lot[a] != [] && QueueInv(s', a, s'.lot[a]) { assert QueueInv(s, a, s.lot[a]); }
  }

  lemma CheckInputKeepsInv(s: State, core: nat)
    requires Inv(s)
    ensures Inv(Apply(s, CheckInput(core)))
  {
    var s' := Apply(s, CheckInput(core));
    forall t | t in s.waits && t in s'.blocked && s.waits[t].handle in s.inbox
      ensures s.waits[t].handle in s'.inbox
    {
      assert WaitInv(s, t);
      assert s.waits[t].handle.id == t;
    }
    SchedulerKeepsInv(s, s');
  }

  // Waking

  /** The state in the middle of a wake: the queue being drained is a local, its entry still holds the old one. */
  function WithLocal(s: State, a: Address, q: seq<Handle>): State {
    s.(lot := WithQueue(s.lot, a, q))
  }

  lemma PopKeepsInv(s: State, core: nat, a: Address, q: seq<Handle>, i: nat)
    requires i < |q| && ParkingInv(WithLocal(s, a, q))
    ensures var s' := Popped(s, core, q[i]);
            && ParkingInv(WithLocal(s', a, Without(q, i)))
            && |s'.popped| == |s.popped| + 1 && s'.reported == s.reported && s'.lot == s.lot && s'.excess == s.excess
  {
    hide QueueInv, WaitInv, TicketInv, DistinctIds, Without, Popped;
    LocalFacts(s, a, q, i);
    PopKeepsLot(s, core, a, q, i);
    PopKeepsTickets(s, core, a, q, i);
    forall t | t in s.waits
      ensures WaitInv(WithLocal(Popped(s, core, q[i]), a, Without(q, i)), t)
    {
      DistinctTickets(WithLocal(s, a, q), q[i].id, t);
      PopKeepsWait(s, core, a, q, i, t);
    }
  }

  /** What the invariant says of a handle in the queue being drained. */
  lemma LocalFacts(s: State, a: Address, q: seq<Handle>, i: nat)
    requires i < |q| && ParkingInv(WithLocal(s, a, q))
    ensures DistinctIds(q) && q[i].id in s.waits && s.waits[q[i].id].handle == q[i] && s.waits[q[i].id].address == a
    ensures s.waits[q[i].id].ticket !in s.popped && s.waits[q[i].id].ticket !in s.returned
  {
    var s0 := WithLocal(s, a, q);
    assert s0.lot[a] == q && QueueInv(s0, a, q) && q[i] in q;
    assert WaitInv(s0, q[i].id) && Queued(s0, q[i].id);
  }

  lemma DistinctTickets(s: State, t: int, u: int)
    requires ParkingInv(s) && t in s.waits && u in s.waits
    ensures t != u ==> s.waits[t].ticket != s.waits[u].ticket
    ensures WaitInv(s, t) && WaitInv(s, u)
  {
  }

  lemma PopKeepsWait(s: State, core: nat, a: Address, q: seq<Handle>, i: nat, t: int)
    requires i < |q| && t in s.waits && WaitInv(WithLocal(s, a, q), t)
    requires DistinctIds(q) && q[i].id in s.waits && s.waits[q[i].id].handle == q[i] && s.waits[q[i].id].address == a
    requires t != q[i].id ==> s.waits[t].ticket != s.waits[q[i].id].ticket
    ensures t in Popped(s, core, q[i]).waits
    ensures WaitInv(WithLocal(Popped(s, core, q[i]), a, Without(q, i)), t)
  {
    hide DistinctIds, Without;
    WithoutMembers(q, i);
    if t != q[i].id { assert s.waits[t].handle != q[i]; }
  }

  lemma PopKeepsTickets(s: State, core: nat, a: Address, q: seq<Handle>, i: nat)
    requires i < |q| && TicketInv(WithLocal(s, a, q))
    requires q[i].id in s.waits && s.waits[q[i].id].ticket !in s.popped && s.waits[q[i].id].ticket !in s.returned
    ensures var s' := Popped(s, core, q[i]);
            && TicketInv(WithLocal(s', a, Without(q, i))) && s'.waits == s.waits
            && |s'.popped| == |s.popped| + 1 && s'.reported == s.reported && s'.lot == s.lot && s'.excess == s.excess
  {
    hide Without;
    var h, s0 := q[i], WithLocal(s, a, q);
    var k := s.waits[h.id].ticket;
    assert Popped(s, core, h).popped == s.popped + {k};
    var s1 := WithLocal(Popped(s, core, h), a, Without(q, i));
    forall j | j in s1.popped
      ensures j in s1.returned || exists u :: u in s1.waits && s1.waits[u].ticket == j
    {
      if j == k {
        assert h.id in s1.waits;
      } else if j !in s0.returned {
        var u :| u in s0.waits && s0.waits[u].ticket == j;
        assert u in s1.waits;
      }
    }
  }

  lemma PopKeepsLot(s: State, core: nat, a: Address, q: seq<Handle>, i: nat)
    requires i < |q| && LotInv(WithLocal(s, a, q))
    ensures LotInv(WithLocal(Popped(s, core, q[i]), a, Without(q, i)))
  {
    var s0, s1 := WithLocal(s, a, q), WithLocal(Popped(s, core, q[i]), a, Without(q, i));
    assert s0.lot[a] == q && QueueInv(s0, a, q);
    WithoutMembers(q, i);
    forall b | b in s1.lot
      ensures s1.lot[b] != [] && QueueInv(s1, b, s1.lot[b])
    {
      if b != a { assert s0.lot[b] == s1.lot[b] && QueueInv(s0, b, s0.lot[b]); }
    }
  }

  lemma {:induction false} WakeLoopKeepsInv(s: State, core: nat, a: Address, q: seq<Handle>, count: int, woken: int)
    requires 0 <= woken <= I32_MAX && ParkingInv(WithLocal(s, a, q))
    ensures var (s', rest, _) := WakeLoop(s, core, q, count, woken);
            && ParkingInv(WithLocal(s', a, rest))
            && |s'.popped| == |s.popped| + |q| - |rest| && s'.reported == s.reported && s'.lot == s.lot
               && s'.excess == s.excess
    decreases |q|
  {
    hide ParkingInv, Popped, Next;
    if (woken != count || count == I32_MAX) && q != [] {
      PopKeepsInv(s, core, a, q, Next(q));
      WakeLoopKeepsInv(Popped(s, core, q[Next(q)]), core, a, Without(q, Next(q)), count, SaturatingSucc(woken));
    }
  }

  lemma EntryAsLocal(s: State, a: Address)
    requires ParkingInv(s) && a in s.lot
    ensures WithLocal(s, a, s.lot[a]) == s
  {
    assert s.lot[a] != [] && s.lot[a := s.lot[a]] == s.lot;
  }

  lemma WakeKeepsInv(s: State, core: nat, a: Address, count: int)
    requires Inv(s)
    ensures Inv(ApplyWake(s, core, a, count).0)
  {
    hide ParkingInv, WakeLoop;
    if count < 0 || a !in s.lot { return; }
    EntryAsLocal(s, a);
    var q := s.lot[a];
    WakeLoopKeepsInv(s, core, a, q, count, 0);
    WakeAsLocal(s, core, a, count);
    var r := WakeLoop(s, core, q, count, 0);
    ReportedKeepsInv(WithLocal(r.0, a, r.1), s.reported + r.2, s.excess + (|q| - |r.1| - r.2));
  }

  lemma WakeAsLocal(s: State, core: nat, a: Address, count: int)
    requires count >= 0 && a in s.lot
    ensures var r := WakeLoop(s, core, s.lot[a], count, 0);
            r.0.lot == s.lot && r.0.reported == s.reported ==>
              ApplyWake(s, core, a, count).0
                == WithLocal(r.0, a, r.1).(reported := s.reported + r.2,
                                           excess := s.excess + (|s.lot[a]| - |r.1| - r.2))
  {
    hide WakeLoop;
  }

  lemma ReportedKeepsInv(s: State, reported: nat, excess: nat)
    requires ParkingInv(s) && reported + excess == |s.popped|
    ensures Inv(s.(reported := reported, excess := excess))
  {
    var s' := s.(reported := reported, excess := excess);
    forall u | u in s'.waits ensures WaitInv(s', u) { assert WaitInv(s, u); }
    forall a | a in s'.lot ensures s'.lot[a] != [] && QueueInv(s', a, s'.lot[a]) { assert QueueInv(s, a, s.lot[a]); }
  }

  lemma StepKeepsInv(s: State, step: Step)
    requires Inv(s) && Enabled(s, step)
    ensures Inv(Apply(s, step))
  {
    hide Inv, ApplyPark, ApplyResume, ApplyWake;
    var s' := Apply(s, step);
    match step
    case Store(_, _) => SchedulerKeepsInv(s, s');
    case Park(h, a, expected, timeout, relative, newValue) =>
      ParkKeepsInv(s, h, a, expected, timeout, relative, newValue);
    case Resume(t) => ResumeKeepsInv(s, t);
    case WakeUp(core, a, count) => WakeKeepsInv(s, core, a, count);
    case WakeOrSet(core, a, count, v) => WakeOrSetKeepsInv(s, core, a, count, v);
    case CustomWakeup(core, h) => SchedulerKeepsInv(s, s');
    case CheckInput(core) => CheckInputKeepsInv(s, core);
    case Timer(core) => SchedulerKeepsInv(s, s');
    case Tick => SchedulerKeepsInv(s, s');
  }

  lemma WakeOrSetKeepsInv(s: State, core: nat, a: Address, count: int, v: nat)
    requires Inv(s)
    ensures Inv(ApplyWakeOrSet(s, core, a, count, v).0)
  {
    hide Inv, ApplyWake;
    WakeKeepsInv(s, core, a, count);
    var s1 := ApplyWake(s, core, a, count).0;
    SchedulerKeepsInv(s, s.(words := s.words[a := v]));
    SchedulerKeepsInv(s1, s1.(words := s1.words[a := v]));
  }

  /** Every state of every run satisfies the invariant. */
  lemma {:induction false} RunKeepsInv(s: State, steps: seq<Step>, s': State)
    requires Inv(s) && Reaches(s, steps, s')
    ensures Inv(s')
    decreases |steps|
  {
    if steps != [] {
      StepKeepsInv(s, steps[0]);
      RunKeepsInv(Apply(s, steps[0]), steps[1..], s');
    }
  }

  ghost predicate Reachable(s: State) {
    exists steps :: Reaches(Initial, steps, s)
  }

  lemma ReachableInv(s: State)
    requires Reachable(s)
    ensures Inv(s)
  {
    hide Reaches;
    var steps :| Reaches(Initial, steps, s);
    RunKeepsInv(Initial, steps, s);
  }

  // What holds in every reachable state

  /** A wait returned 0 if and only if a wake popped it, and ETIMEDOUT if and only if none did. */
  lemma ReturnCodes(s: State, k: nat)
    requires Reachable(s) && k in s.returned
    ensures s.returned[k] == 0 <==> k in s.popped
    ensures s.returned[k] == -ETIMEDOUT <==> k !in s.popped
    ensures forall t :: t in s.waits ==> s.waits[t].ticket != k
  {
    hide Reachable;
    ReachableInv(s);
    forall t | t in s.waits ensures s.waits[t].ticket != k { assert WaitInv(s, t); }
  }

  /** The waits that returned 0, and those popped that have not returned yet. */
  ghost function ReturnedZero(s: State): set<nat> {
    set k | k in s.returned && s.returned[k] == 0
  }

  ghost function PoppedInFlight(s: State): set<nat> {
    set t | t in s.waits && !Queued(s, t) :: s.waits[t].ticket
  }

  /** The wakes reported are the waits that returned 0 and those popped that have not returned yet. */
  lemma WakeAccounting(s: State)
    requires Reachable(s)
    ensures s.reported + s.excess == |ReturnedZero(s)| + |PoppedInFlight(s)|
  {
    hide Reachable;
    ReachableInv(s);
    PoppedSplits(s);
    assert s.popped == ReturnedZero(s) + PoppedInFlight(s);
  }

  lemma PoppedSplits(s: State)
    requires Inv(s)
    ensures s.popped == ReturnedZero(s) + PoppedInFlight(s)
    ensures ReturnedZero(s) !! PoppedInFlight(s)
  {
    hide QueueInv;
    forall k | k in s.popped
      ensures k in ReturnedZero(s) + PoppedInFlight(s)
    {
      if k !in s.returned {
        var t :| t in s.waits && s.waits[t].ticket == k;
        assert WaitInv(s, t) && !Queued(s, t);
      }
    }
    forall k | k in PoppedInFlight(s)
      ensures k in s.popped && k !in s.returned
    {
      var t :| t in s.waits && !Queued(s, t) && s.waits[t].ticket == k;
      assert WaitInv(s, t);
    }
  }

  /** No queue in the lot is empty, and every parked handle belongs to exactly the wait that parked it. */
  lemma NoEmptyQueue(s: State, a: Address)
    requires Reachable(s) && a in s.lot
    ensures s.lot[a] != [] && DistinctIds(s.lot[a])
    ensures forall h :: h in s.lot[a] ==> h.id in s.waits && s.waits[h.id].address == a && s.waits[h.id].handle == h
  {
    hide Reachable;
    ReachableInv(s);
    assert QueueInv(s, a, s.lot[a]);
  }

  /** A task asleep in a wait is still queued, or a wakeup is on the way to its core. */
  lemma NoStrandedSleeper(s: State, t: int)
    requires Reachable(s) && t in s.waits && t in s.blocked
    ensures Queued(s, t) || s.waits[t].handle in s.inbox
    ensures s.waits[t].ticket in s.popped ==> s.waits[t].handle in s.inbox
  {
    hide Reachable;
    ReachableInv(s);
    assert WaitInv(s, t);
  }

  /** Once popped, a wait returns 0 as soon as its core has read its inbox and the task runs again,
      whatever other wakeups or timeouts came in between. */
  lemma PoppedWaitReturns(s: State, t: int)
    requires Reachable(s) && t in s.waits && s.waits[t].ticket in s.popped
    ensures var s1 := Apply(s, CheckInput(s.waits[t].handle.core));
            Enabled(s1, Resume(t)) && ApplyResume(s1, t).1 == Some(0)
  {
    hide Reachable;
    ReachableInv(s);
    var s1 := Apply(s, CheckInput(s.waits[t].handle.core));
    CheckInputKeepsInv(s, s.waits[t].handle.core);
    var w := s.waits[t];
    assert WaitInv(s, t) && WaitInv(s1, t) && !Queued(s1, t);
    if t in s.blocked { assert w.handle in s.inbox && w.handle.id == t; }
    assert QueueInv(s1, w.address, QueueAt(s1, w.address));
    ContainsIsMembership(s1, w.address, QueueAt(s1, w.address), t);
  }

  /** A wait that no wake popped and whose time has come returns ETIMEDOUT when it runs, and leaves the lot. */
  lemma ExpiredWaitTimesOut(s: State, t: int)
    requires Reachable(s) && Enabled(s, Resume(t)) && s.waits[t].ticket !in s.popped
    requires s.waits[t].wakeup.Some? && s.waits[t].wakeup.value <= s.now
    ensures ApplyResume(s, t).1 == Some(-ETIMEDOUT)
    ensures forall a :: s.waits[t].handle !in QueueAt(ApplyResume(s, t).0, a)
  {
    hide Reachable;
    ReachableInv(s);
    var w := s.waits[t];
    assert WaitInv(s, t) && Queued(s, t);
    var q := QueueAt(s, w.address);
    assert QueueInv(s, w.address, q);
    ContainsIsMembership(s, w.address, q, t);
    RemoveAllFrom(q, w.handle);
    var s' := ApplyResume(s, t).0;
    forall a
      ensures w.handle !in QueueAt(s', a)
    {
      if a != w.address && a in s.lot { assert QueueInv(s, a, s.lot[a]); }
    }
  }

  // What a wake does

  function Wanted(count: int, available: nat): int
    requires count >= 0
  {
    if count == I32_MAX || available <= count then available else count
  }

  /** The number of tasks woken is the smaller of `count` and the queue length (all for `I32_MAX`), and it is
      the value returned unless it exceeds `I32_MAX`. */
  lemma {:induction false} WakeLoopCounts(s: State, core: nat, q: seq<Handle>, count: int, woken: int)
    requires 0 <= woken <= count <= I32_MAX || (count == I32_MAX && 0 <= woken <= I32_MAX)
    ensures var (_, rest, r) := WakeLoop(s, core, q, count, woken);
            && |q| - |rest| == (if count == I32_MAX then |q| else Wanted(count - woken, |q|))
            && r == (if woken + |q| - |rest| <= I32_MAX then woken + |q| - |rest| else I32_MAX)
    decreases |q|
  {
    hide Popped, Next;
    if (woken != count || count == I32_MAX) && q != [] {
      WakeLoopCounts(Popped(s, core, q[Next(q)]), core, Without(q, Next(q)), count, SaturatingSucc(woken));
    }
  }

  /** What a queue has lost. */
  ghost function Taken(q: seq<Handle>, rest: seq<Handle>): multiset<Handle> {
    multiset(q) - multiset(rest)
  }

  /** No task left has a higher priority than one taken. */
  ghost predicate HigherFirst(q: seq<Handle>, rest: seq<Handle>) {
    forall x, h :: x in Taken(q, rest) && h in rest ==> h.prio <= x.prio
  }

  predicate IsSuffix(b: seq<Handle>, a: seq<Handle>) {
    |b| <= |a| && b == a[|a| - |b|..]
  }

  /** Of each priority those taken came before those left. */
  ghost predicate EarlierFirst(q: seq<Handle>, rest: seq<Handle>) {
    forall p :: IsSuffix(Level(rest, p), Level(q, p))
  }

  /** Highest priorities are woken first, and within a priority those that came first. */
  lemma {:induction false} WakeLoopOrder(s: State, core: nat, q: seq<Handle>, count: int, woken: int)
    requires 0 <= woken <= I32_MAX
    ensures var rest := WakeLoop(s, core, q, count, woken).1;
            multiset(rest) <= multiset(q) && HigherFirst(q, rest) && EarlierFirst(q, rest)
    decreases |q|
  {
    hide Popped, Next, HigherFirst, EarlierFirst;
    if (woken != count || count == I32_MAX) && q != [] {
      var i := Next(q);
      WakeLoopOrder(Popped(s, core, q[i]), core, Without(q, i), count, SaturatingSucc(woken));
      var rest := WakeLoop(s, core, q, count, woken).1;
      PopTakesHigher(q, i, rest);
      PopTakesEarlier(q, i, rest);
    } else {
      NothingTaken(q);
    }
  }

  lemma NothingTaken(q: seq<Handle>)
    ensures HigherFirst(q, q) && EarlierFirst(q, q)
  {
    hide Level;
    assert Taken(q, q) == multiset{};
  }

  lemma PopTakesHigher(q: seq<Handle>, i: nat, rest: seq<Handle>)
    requires i < |q| && (forall j :: 0 <= j < |q| ==> q[j].prio <= q[i].prio)
    requires multiset(rest) <= multiset(Without(q, i)) && HigherFirst(Without(q, i), rest)
    ensures multiset(rest) <= multiset(q) && HigherFirst(q, rest)
  {
    hide Without;
    PopTakesOne(q, i);
    forall x, h | x in Taken(q, rest) && h in rest
      ensures h.prio <= x.prio
    {
      StillQueued(q, rest, h);
      assert x == q[i] || x in Taken(Without(q, i), rest);
    }
  }

  lemma PopTakesOne(q: seq<Handle>, i: nat)
    requires i < |q|
    ensures multiset(q) == multiset(Without(q, i)) + multiset{q[i]}
  {
    assert q == q[..i] + [q[i]] + q[i + 1..];
  }

  lemma StillQueued(q: seq<Handle>, rest: seq<Handle>, h: Handle)
    requires multiset(rest) <= multiset(q) && h in rest
    ensures h in q
  {
    assert h in multiset(rest);
  }

  lemma PopTakesEarlier(q: seq<Handle>, i: nat, rest: seq<Handle>)
    requires i < |q| && (forall j :: 0 <= j < i ==> q[j].prio < q[i].prio) && EarlierFirst(Without(q, i), rest)
    ensures EarlierFirst(q, rest)
  {
    hide Level, Without, IsSuffix;
    forall p: nat
      ensures IsSuffix(Level(rest, p), Level(q, p))
    {
      LevelWithout(q, i, p);
      assert IsSuffix(Level(rest, p), Level(Without(q, i), p));
      if p == q[i].prio { SuffixOfMore(Level(rest, p), Level(Without(q, i), p), q[i]); }
    }
  }

  lemma SuffixOfMore(b: seq<Handle>, a: seq<Handle>, h: Handle)
    requires IsSuffix(b, a)
    ensures IsSuffix(b, [h] + a)
  {
  }

  lemma WakeReturns(s: State, core: nat, a: Address, count: int)
    requires Inv(s) && 0 <= count <= I32_MAX
    ensures var (s', woken) := ApplyWake(s, core, a, count);
            && |s'.popped| - |s.popped| == Wanted(count, |QueueAt(s, a)|)
            && |QueueAt(s', a)| == |QueueAt(s, a)| - Wanted(count, |QueueAt(s, a)|)
            && woken == (if Wanted(count, |QueueAt(s, a)|) <= I32_MAX then Wanted(count, |QueueAt(s, a)|) else I32_MAX)
            && (forall b :: b != a ==> QueueAt(s', b) == QueueAt(s, b))
            && (|QueueAt(s, a)| <= I32_MAX ==> s'.excess == s.excess)
  {
    hide ParkingInv, WakeLoop;
    if a !in s.lot { return; }
    EntryAsLocal(s, a);
    WakeLoopKeepsInv(s, core, a, s.lot[a], count, 0);
    WakeLoopCounts(s, core, s.lot[a], count, 0);
  }
}

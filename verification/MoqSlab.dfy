/** The slabs of libmoq and the locked regions of its tasks as classes, against the transition system. */
module MoqSlab {
  import opened Numbers
  import opened Options
  import opened MoqConsume

  /** The counter all slabs share. */
  class IdCounter {
    var next: nat
    ghost var issued: nat

    ghost predicate Valid()
      reads this
    {
      next == RawId(issued)
    }

    constructor ()
      ensures Valid() && issued == 0
    {
      next, issued := 1, 0;
    }

    /** Adds one, wrapping at 32 bits, and returns the number before. */
    method FetchAdd() returns (raw: nat)
      requires Valid()
      modifies this
      ensures Valid() && raw == RawId(old(issued)) && issued == old(issued) + 1
    {
      raw := next;
      next := if next == U32 - 1 then 0 else next + 1;
      issued := issued + 1;
    }
  }

  class NonZeroSlab<T> {
    var content: map<int, T>

    constructor ()
      ensures content == map[]
    {
      content := map[];
    }

    /** Fails, having used up a number, if the number is not positive as an i32. */
    method Insert(counter: IdCounter, value: T) returns (id: Option<int>)
      requires counter.Valid()
      modifies this, counter
      ensures counter.Valid() && counter.issued == old(counter.issued) + 1
      ensures id == if ValidId(RawId(old(counter.issued))) then Some(RawId(old(counter.issued))) else None
      ensures content == if id.Some? then old(content)[id.value := value] else old(content)
    {
      var raw := counter.FetchAdd();
      if raw == 0 || raw > I32_MAX { return None; }
      content := content[raw := value];
      id := Some(raw);
    }

    method Remove(id: int) returns (value: Option<T>)
      modifies this
      ensures content == old(content) - {id}
      ensures value == if id in old(content) then Some(old(content)[id]) else None
    {
      if id !in content { return None; }
      value := Some(content[id]);
      content := content - {id};
    }
  }

  /** A task entry; the sender is gone once closed. */
  datatype TaskEntry = TaskEntry(close: bool, callback: nat)

  /** The task and item slabs of one kind, next to a counter. */
  class Consume {
    const kind: Kind
    const counter: IdCounter
    const tasks: NonZeroSlab<TaskEntry>
    const items: NonZeroSlab<int>
    ghost var world: State

    ghost predicate Valid()
      reads this, counter, tasks, items
    {
      && counter.Valid() && world.issued == counter.issued
      && (forall id :: id in tasks.content <==> Key(Tasks(kind), id) in world.slots)
      && (forall id :: id in tasks.content ==>
            world.slots[Key(Tasks(kind), id)] == Entry(tasks.content[id].callback, tasks.content[id].close))
      && (forall id :: id in items.content <==> Key(Items(kind), id) in world.slots)
    }

    constructor (k: Kind)
      ensures Valid() && world == Initial && kind == k
      ensures fresh(counter) && fresh(tasks) && fresh(items)
    {
      kind := k;
      counter := new IdCounter();
      tasks := new NonZeroSlab();
      items := new NonZeroSlab();
      world := Initial;
    }

    /** Enters a new task, which then runs on its own. Callbacks are named by the draw of their task. */
    method Start(callback: nat) returns (id: Option<int>)
      requires Valid() && callback == counter.issued
      modifies this, counter, tasks
      ensures Valid() && world == ApplyStart(old(world), kind)
      ensures id.Some? <==> ValidId(RawId(old(world).issued))
      ensures id.Some? ==> id.value == RawId(old(world).issued) && CloseAccepted(world, kind, id.value)
    {
      id := tasks.Insert(counter, TaskEntry(true, callback));
      world := ApplyStart(world, kind);
    }

    /** Signals shutdown by dropping the sender; fails without an entry or without a sender. */
    method Close(id: int) returns (ok: bool)
      requires Valid()
      modifies this, tasks
      ensures Valid() && ok == CloseAccepted(old(world), kind, id) && world == ApplyClose(old(world), kind, id)
    {
      if id !in tasks.content || !tasks.content[id].close { return false; }
      tasks.content := tasks.content[id := tasks.content[id].(close := false)];
      world := ApplyClose(world, kind, id);
      ok := true;
    }

    /** Buffers an item of a task. */
    method Buffer(ghost t: nat, item: int) returns (id: Option<int>)
      requires Valid() && Enabled(world, MoqConsume.Buffer(t)) && world.tasks[t].kind == kind
      modifies this, counter, items
      ensures Valid() && world == ApplyBuffer(old(world), t)
      ensures id.Some? ==> world.tasks[t].phase == Holding(id.value)
      ensures id.None? ==> world.tasks[t].phase == Returned(INVALID_ID)
      ensures items.content == if id.Some? then old(items.content)[id.value := item] else old(items.content)
    {
      id := items.Insert(counter, item);
      world := ApplyBuffer(world, t);
    }

    /** Takes the entry out; the terminal callback is the one that was in it. */
    method RemoveEntry(ghost t: nat, id: int) returns (callback: Option<nat>)
      requires Valid() && Enabled(world, MoqConsume.Remove(t)) && world.tasks[t].kind == kind && world.tasks[t].id == id
      modifies this, tasks
      ensures Valid() && world == ApplyRemove(old(world), t)
      ensures callback == if world.tasks[t].phase.Removed? then Some(world.tasks[t].phase.callback) else None
    {
      var entry := tasks.Remove(id);
      callback := if entry.Some? then Some(entry.value.callback) else None;
      world := ApplyRemove(world, t);
    }
  }
}

/** Waiter lists of kio: weak wakers, with dead slots reused in place. */
module KioWaiters {

  /** One registration of a waiter. The list holds it weakly: it is dead once the waiter has been dropped. */
  datatype Entry = Entry(reg: nat, waiter: nat)

  datatype List = List(entries: seq<Entry>, cursor: nat)

  const Empty := List([], 0)

  predicate ValidList(l: List) {
    if l.entries == [] then l.cursor == 0 else l.cursor < |l.entries|
  }

  /** Looks at up to `tries` slots from the cursor on and reuses the first dead one; otherwise appends. */
  function Probe(l: List, tries: nat, e: Entry, alive: set<nat>): (r: List)
    requires ValidList(l) && tries <= |l.entries|
    ensures ValidList(r) && e in r.entries && |l.entries| <= |r.entries| <= |l.entries| + 1
    ensures forall x :: x in l.entries && x.waiter in alive ==> x in r.entries
    ensures forall x :: x in r.entries ==> x == e || x in l.entries
    decreases tries
  {
    if tries == 0 then
      var r := List(l.entries + [e], l.cursor);
      assert r.entries[|l.entries|] == e;
      r
    else if l.entries[l.cursor].waiter !in alive then
      var r := List(l.entries[l.cursor := e], l.cursor);
      assert r.entries[l.cursor] == e;
      assert forall x :: x in l.entries && x != l.entries[l.cursor] ==> x in r.entries by {
        UpdateKeeps(l.entries, l.cursor, e);
      }
      r
    else Probe(List(l.entries, (l.cursor + 1) % |l.entries|), tries - 1, e, alive)
  }

  lemma UpdateKeeps(s: seq<Entry>, i: nat, e: Entry)
    requires i < |s|
    ensures forall x :: x in s && x != s[i] ==> x in s[i := e]
  {
    forall x | x in s && x != s[i] ensures x in s[i := e] {
      var j :| 0 <= j < |s| && s[j] == x;
      assert s[i := e][j] == x;
    }
  }

  /** Registering adds the entry, loses no live entry and keeps the cursor in range. */
  function Register(l: List, e: Entry, alive: set<nat>): (r: List)
    requires ValidList(l)
    ensures ValidList(r) && e in r.entries && |l.entries| <= |r.entries| <= |l.entries| + 1
    ensures forall x :: x in l.entries && x.waiter in alive ==> x in r.entries
    ensures forall x :: x in r.entries ==> x == e || x in l.entries
  {
    Probe(l, if |l.entries| < 2 then |l.entries| else 2, e, alive)
  }

  /** The waiter in the slot n places after the cursor has been dropped. */
  predicate DeadAt(l: List, n: nat, alive: set<nat>)
    requires ValidList(l) && n < |l.entries|
  {
    l.entries[(l.cursor + n) % |l.entries|].waiter !in alive
  }

  /** A list grows only if the two slots it looks at are alive: a dead one is reused in place, and the cursor moves past
      the live ones it has seen. */
  lemma RegisterReuses(l: List, e: Entry, alive: set<nat>)
    requires ValidList(l)
    ensures var r, n := Register(l, e, alive), |l.entries|;
            if n >= 1 && DeadAt(l, 0, alive) then r == List(l.entries[l.cursor := e], l.cursor)
            else if n >= 2 && DeadAt(l, 1, alive) then
              r == List(l.entries[(l.cursor + 1) % n := e], (l.cursor + 1) % n)
            else
              && r.entries == l.entries + [e]
              && r.cursor == if n == 0 then 0 else (l.cursor + (if n >= 2 then 2 else 1)) % n
  {
    var n := |l.entries|;
    if n == 1 {
      assert l.cursor == 0;
    } else if n >= 2 {
      var l1 := List(l.entries, (l.cursor + 1) % n);
      CursorWraps(l.cursor, n);
      assert Probe(l, 2, e, alive) == if DeadAt(l, 0, alive) then List(l.entries[l.cursor := e], l.cursor)
                                      else Probe(l1, 1, e, alive);
      assert Probe(l1, 1, e, alive) == if l.entries[l1.cursor].waiter !in alive
                                       then List(l.entries[l1.cursor := e], l1.cursor)
                                       else List(l.entries + [e], (l1.cursor + 1) % n);
    }
  }

  lemma CursorWraps(cursor: nat, n: nat)
    requires n >= 2 && cursor < n
    ensures cursor % n == cursor && ((cursor + 1) % n + 1) % n == (cursor + 2) % n
  {
    Below(cursor, n);
    if cursor + 1 < n {
      Below(cursor + 1, n);
    } else {
      Beyond(cursor + 1, n);
      Beyond(cursor + 2, n);
      Below(1, n);
    }
  }

  lemma Below(x: nat, n: nat)
    requires x < n
    ensures x % n == x
  {
  }

  lemma Beyond(x: nat, n: nat)
    requires n <= x < 2 * n
    ensures x % n == x - n
  {
    assert x == n * 1 + (x - n);
  }

  class WaiterList {
    var entries: seq<Entry>
    var cursor: nat

    function View(): List
      reads this
    {
      List(entries, cursor)
    }

    constructor ()
      ensures View() == Empty
    {
      entries, cursor := [], 0;
    }

    method RegisterWaiter(e: Entry, alive: set<nat>)
      requires ValidList(View())
      modifies this
      ensures View() == Register(old(View()), e, alive)
    {
      var probes := if |entries| < 2 then |entries| else 2;
      for i := 0 to probes
        invariant ValidList(View()) && entries == old(entries)
        invariant Probe(View(), probes - i, e, alive) == Register(old(View()), e, alive)
      {
        if entries[cursor].waiter !in alive {
          entries := entries[cursor := e];
          return;
        }
        cursor := (cursor + 1) % |entries|;
      }
      entries := entries + [e];
    }

    method Take() returns (taken: seq<Entry>)
      modifies this
      ensures taken == old(entries) && View() == Empty
    {
      cursor := 0;
      taken := entries;
      entries := [];
    }

    /** Wakes the live entries, in order, draining the list. */
    method Wake(alive: set<nat>) returns (woken: seq<Entry>)
      modifies this
      ensures View() == Empty && woken == LiveEntries(old(entries), alive)
    {
      cursor := 0;
      woken := [];
      for i := 0 to |entries|
        invariant entries == old(entries) && woken == LiveEntries(entries[..i], alive)
      {
        assert entries[..i + 1][..i] == entries[..i];
        if entries[i].waiter in alive { woken := woken + [entries[i]]; }
      }
      assert entries[..|entries|] == entries;
      entries, cursor := [], 0;
    }
  }

  function LiveEntries(s: seq<Entry>, alive: set<nat>): seq<Entry> {
    if s == [] then []
    else LiveEntries(s[..|s| - 1], alive) + if s[|s| - 1].waiter in alive then [s[|s| - 1]] else []
  }

  /** The live entries are the entries whose waiter is alive, in their order. */
  lemma {:induction false} LiveEntriesAre(s: seq<Entry>, alive: set<nat>)
    ensures forall e :: e in LiveEntries(s, alive) <==> e in s && e.waiter in alive
    ensures (forall e :: e in s ==> e.waiter in alive) ==> LiveEntries(s, alive) == s
  {
    if s != [] {
      var n := |s| - 1;
      LiveEntriesAre(s[..n], alive);
      assert s == s[..n] + [s[n]];
    }
  }

  lemma {:induction false} LiveEntriesConcat(s: seq<Entry>, t: seq<Entry>, alive: set<nat>)
    ensures LiveEntries(s + t, alive) == LiveEntries(s, alive) + LiveEntries(t, alive)
  {
    if t == [] {
      assert s + t == s;
    } else {
      var n := |t| - 1;
      LiveEntriesConcat(s, t[..n], alive);
      assert (s + t)[..|s| + n] == s + t[..n];
    }
  }
}

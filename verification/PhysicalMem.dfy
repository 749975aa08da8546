/** Which physical frames are free after the device tree has been read. The free list is a list of disjoint ranges;
    of `allocate_with` only what the reservation loop relies on is modelled. */
module PhysicalMem {
  import opened Numbers
  import opened Options

  const PAGE_SIZE: nat := 0x1000

  /** A nonempty range of whole pages. */
  datatype PageRange = PageRange(start: nat, end: nat)

  predicate Valid(r: PageRange) {
    r.start < r.end && r.start % PAGE_SIZE == 0 && r.end % PAGE_SIZE == 0
  }

  predicate In(r: PageRange, a: nat) {
    r.start <= a < r.end
  }

  /** `PageRange::new`. */
  function New(start: nat, end: nat): (r: Option<PageRange>)
    ensures r.Some? <==> start < end && start % PAGE_SIZE == 0 && end % PAGE_SIZE == 0
    ensures r.Some? ==> Valid(r.value)
  {
    if start < end && start % PAGE_SIZE == 0 && end % PAGE_SIZE == 0 then Some(PageRange(start, end)) else None
  }

  /** The overlap of two ranges, if there is one. */
  function And(a: PageRange, b: PageRange): (r: Option<PageRange>)
    requires Valid(a) && Valid(b)
    ensures r.Some? ==> Valid(r.value)
    ensures forall x :: In(a, x) && In(b, x) <==> r.Some? && In(r.value, x)
  {
    var r := New(Max(a.start, b.start), Min(a.end, b.end));
    assert r.Some? <==> Max(a.start, b.start) < Min(a.end, b.end);
    r
  }

  /** The smallest range of whole pages around an interval. */
  function Containing(start: nat, end: nat): (r: Option<PageRange>)
    ensures start < end ==> r.Some?
    ensures r.Some? ==>
              Valid(r.value) && r.value.start <= start < r.value.start + PAGE_SIZE
              && end <= r.value.end < end + PAGE_SIZE
  {
    New(start / PAGE_SIZE * PAGE_SIZE, (end + PAGE_SIZE - 1) / PAGE_SIZE * PAGE_SIZE)
  }

  ghost predicate Free(list: seq<PageRange>, a: nat) {
    exists i :: 0 <= i < |list| && In(list[i], a)
  }

  predicate Disjoint(a: PageRange, b: PageRange) {
    a.end <= b.start || b.end <= a.start
  }

  /** Valid ranges, no frame in two of them. */
  ghost predicate Proper(list: seq<PageRange>) {
    && (forall i :: 0 <= i < |list| ==> Valid(list[i]))
    && (forall i, j :: 0 <= i < j < |list| ==> Disjoint(list[i], list[j]))
  }

  /** What is left of a range without a part of it. */
  function Rest(r: PageRange, cut: PageRange): seq<PageRange> {
    (if r.start < cut.start then [PageRange(r.start, cut.start)] else [])
      + (if cut.end < r.end then [PageRange(cut.end, r.end)] else [])
  }

  lemma {:induction false} RestIsDifference(r: PageRange, cut: PageRange, a: nat)
    requires Valid(r) && Valid(cut) && r.start <= cut.start && cut.end <= r.end
    ensures Proper(Rest(r, cut))
    ensures Free(Rest(r, cut), a) <==> In(r, a) && !In(cut, a)
  {
    var rest := Rest(r, cut);
    if In(r, a) && !In(cut, a) {
      if a < cut.start { assert In(rest[0], a); } else { assert In(rest[|rest| - 1], a); }
    }
  }

  lemma {:induction false} ConcatFree(x: seq<PageRange>, y: seq<PageRange>, a: nat)
    ensures Free(x + y, a) <==> Free(x, a) || Free(y, a)
  {
    if i :| 0 <= i < |x| && In(x[i], a) { assert In((x + y)[i], a); }
    if i :| 0 <= i < |y| && In(y[i], a) { assert In((x + y)[|x| + i], a); }
    if i :| 0 <= i < |x + y| && In((x + y)[i], a) {
      if i < |x| { assert In(x[i], a); } else { assert In(y[i - |x|], a); }
    }
  }

  /** How many ranges a reservation overlaps. */
  function Overlaps(list: seq<PageRange>, r: PageRange): nat
    requires Valid(r) && forall i :: 0 <= i < |list| ==> Valid(list[i])
  {
    if list == [] then 0 else (if And(r, list[0]).Some? then 1 else 0) + Overlaps(list[1..], r)
  }

  lemma {:induction false} OverlapsConcat(x: seq<PageRange>, y: seq<PageRange>, r: PageRange)
    requires Valid(r) && (forall i :: 0 <= i < |x| ==> Valid(x[i])) && (forall i :: 0 <= i < |y| ==> Valid(y[i]))
    requires forall i :: 0 <= i < |x + y| ==> Valid((x + y)[i])
    ensures Overlaps(x + y, r) == Overlaps(x, r) + Overlaps(y, r)
  {
    hide And, Valid;
    if x == [] {
      assert x + y == y;
    } else {
      assert (x + y)[1..] == x[1..] + y;
      OverlapsConcat(x[1..], y, r);
    }
  }

  function Cut(list: seq<PageRange>, i: nat, cut: PageRange): seq<PageRange>
    requires i < |list|
  {
    list[..i] + (Rest(list[i], cut) + list[i + 1..])
  }

  /** Cutting part of a range out of the list frees nothing and takes exactly that part. */
  lemma {:induction false} CutTakes(list: seq<PageRange>, i: nat, cut: PageRange, a: nat)
    requires i < |list| && Proper(list) && Valid(cut) && list[i].start <= cut.start && cut.end <= list[i].end
    ensures Free(Cut(list, i, cut), a) <==> Free(list, a) && !In(cut, a)
  {
    hide Rest;
    RestIsDifference(list[i], cut, a);
    ConcatFree(Rest(list[i], cut), list[i + 1..], a);
    ConcatFree(list[..i], Rest(list[i], cut) + list[i + 1..], a);
    assert list == list[..i] + ([list[i]] + list[i + 1..]);
    ConcatFree([list[i]], list[i + 1..], a);
    ConcatFree(list[..i], [list[i]] + list[i + 1..], a);
    assert In([list[i]][0], a) <==> Free([list[i]], a);
    if In(cut, a) { OnlyThere(list, i, a); }
  }

  lemma {:induction false} OnlyThere(list: seq<PageRange>, i: nat, a: nat)
    requires i < |list| && Proper(list) && In(list[i], a)
    ensures !Free(list[..i], a) && !Free(list[i + 1..], a)
  {
    var later := list[i + 1..];
    forall j | 0 <= j < |later| ensures !In(later[j], a) { assert later[j] == list[i + 1 + j]; }
  }

  lemma {:induction false} CutKeepsProper(list: seq<PageRange>, i: nat, cut: PageRange)
    requires i < |list| && Proper(list) && Valid(cut) && list[i].start <= cut.start && cut.end <= list[i].end
    ensures Proper(Cut(list, i, cut))
  {
    RestIsDifference(list[i], cut, 0);
    var rest, l := Rest(list[i], cut), Cut(list, i, cut);
    forall j | 0 <= j < |l|
      ensures Valid(l[j]) && j < i ==> l[j] == list[j]
      ensures i <= j < i + |rest| ==> l[j] == rest[j - i]
      ensures i + |rest| <= j ==> l[j] == list[j - |rest| + 1]
    {
    }
    forall j | 0 <= j < |rest| ensures list[i].start <= rest[j].start && rest[j].end <= list[i].end { }
    forall j, k | 0 <= j < k < |l| ensures Disjoint(l[j], l[k]) { CutDisjoint(list, i, rest, l, j, k); }
  }

  lemma {:induction false} CutDisjoint(list: seq<PageRange>, i: nat, rest: seq<PageRange>, l: seq<PageRange>, j: nat,
                                       k: nat)
    requires i < |list| && Proper(list) && Proper(rest) && l == list[..i] + (rest + list[i + 1..]) && j < k < |l|
    requires forall m :: 0 <= m < |rest| ==> list[i].start <= rest[m].start && rest[m].end <= list[i].end
    ensures Disjoint(l[j], l[k])
  {
    var jj := if j < i then j else if j < i + |rest| then i else j - |rest| + 1;
    var kk := if k < i then k else if k < i + |rest| then i else k - |rest| + 1;
    assert l[j] == if j < i then list[j] else if j < i + |rest| then rest[j - i] else list[j - |rest| + 1];
    assert l[k] == if k < i then list[k] else if k < i + |rest| then rest[k - i] else list[k - |rest| + 1];
    if jj < kk { assert Disjoint(list[jj], list[kk]); }
  }

  lemma {:induction false} CutOverlapsLess(list: seq<PageRange>, i: nat, r: PageRange)
    requires i < |list| && Proper(list) && Valid(r) && And(r, list[i]).Some?
    requires Proper(Cut(list, i, And(r, list[i]).value))
    ensures Overlaps(Cut(list, i, And(r, list[i]).value), r) == Overlaps(list, r) - 1
  {
    var rest := Rest(list[i], And(r, list[i]).value);
    RestValid(list[i], r);
    RestApart(list[i], r);
    assert list == list[..i] + ([list[i]] + list[i + 1..]);
    hide And, Rest, Valid;
    OverlapsConcat(list[..i], [list[i]] + list[i + 1..], r);
    OverlapsConcat([list[i]], list[i + 1..], r);
    OverlapsConcat(rest, list[i + 1..], r);
    OverlapsConcat(list[..i], rest + list[i + 1..], r);
    assert Overlaps([list[i]], r) == 1 by { assert [list[i]][1..] == []; }
  }

  lemma {:induction false} RestValid(range: PageRange, r: PageRange)
    requires Valid(range) && Valid(r) && And(r, range).Some?
    ensures forall i :: 0 <= i < |Rest(range, And(r, range).value)| ==> Valid(Rest(range, And(r, range).value)[i])
  {
  }

  /** The rest of a range does not overlap the reservation. */
  lemma {:induction false} RestApart(range: PageRange, r: PageRange)
    requires Valid(range) && Valid(r) && And(r, range).Some?
    requires forall i :: 0 <= i < |Rest(range, And(r, range).value)| ==> Valid(Rest(range, And(r, range).value)[i])
    ensures Overlaps(Rest(range, And(r, range).value), r) == 0
  {
    var rest := Rest(range, And(r, range).value);
    forall i | 0 <= i < |rest| ensures And(r, rest[i]).None? { }
    NoOverlaps(rest, r);
  }

  lemma {:induction false} NoOverlaps(list: seq<PageRange>, r: PageRange)
    requires Valid(r) && (forall i :: 0 <= i < |list| ==> Valid(list[i]) && And(r, list[i]).None?)
    ensures Overlaps(list, r) == 0
  {
    hide And;
    if list != [] { NoOverlaps(list[1..], r); }
  }

  class FreeList {
    var ranges: seq<PageRange>

    constructor ()
      ensures ranges == []
    {
      ranges := [];
    }

    /** A range that becomes free; it must not overlap what is free already. */
    method Deallocate(range: PageRange)
      requires Proper(ranges) && Valid(range) && forall i :: 0 <= i < |ranges| ==> Disjoint(ranges[i], range)
      modifies this
      ensures Proper(ranges)
      ensures forall a :: Free(ranges, a) <==> Free(old(ranges), a) || In(range, a)
    {
      ranges := ranges + [range];
      forall a: nat
        ensures Free(ranges, a) <==> Free(old(ranges), a) || In(range, a)
      {
        ConcatFree(old(ranges), [range], a);
        assert In([range][0], a) <==> Free([range], a);
      }
    }

    /** Takes the overlap of the reservation with the first range that has one. */
    method AllocateOverlap(reservation: PageRange) returns (taken: Option<PageRange>)
      requires Proper(ranges) && Valid(reservation)
      modifies this
      ensures Proper(ranges)
      ensures taken.None? ==> ranges == old(ranges) && forall a :: Free(ranges, a) ==> !In(reservation, a)
      ensures taken.Some? ==> Overlaps(ranges, reservation) < Overlaps(old(ranges), reservation)
      ensures taken.Some? ==> forall a :: In(taken.value, a) ==> In(reservation, a) && Free(old(ranges), a)
      ensures taken.Some? ==> forall a :: Free(ranges, a) <==> Free(old(ranges), a) && !In(taken.value, a)
    {
      hide Overlaps;
      for i := 0 to |ranges|
        invariant ranges == old(ranges) && forall j :: 0 <= j < i ==> And(reservation, ranges[j]).None?
      {
        taken := And(reservation, ranges[i]);
        if taken.Some? {
          ghost var was := ranges;
          CutKeepsProper(was, i, taken.value);
          CutOverlapsLess(was, i, reservation);
          forall a: nat
            ensures Free(Cut(was, i, taken.value), a) <==> Free(was, a) && !In(taken.value, a)
          {
            CutTakes(was, i, taken.value, a);
          }
          ranges := ranges[..i] + (Rest(ranges[i], taken.value) + ranges[i + 1..]);
          return;
        }
      }
      taken := None;
    }

    /** Afterwards exactly the frames outside the reservation are still free. */
    method Reserve(reservation: PageRange)
      requires Proper(ranges) && Valid(reservation)
      modifies this
      ensures Proper(ranges)
      ensures forall a :: Free(ranges, a) <==> Free(old(ranges), a) && !In(reservation, a)
    {
      hide Overlaps, Free, And;
      while true
        invariant Proper(ranges)
        invariant forall a :: Free(ranges, a) ==> Free(old(ranges), a)
        invariant forall a :: Free(old(ranges), a) && !In(reservation, a) ==> Free(ranges, a)
        decreases Overlaps(ranges, reservation)
      {
        var reserved := AllocateOverlap(reservation);
        if reserved.None? { return; }
      }
    }
  }

  // All of it

  datatype Region = Region(start: nat, size: nat)

  /** The part of a memory region that is claimed. Without UEFI nothing up to the end of the kernel is. */
  function Claim(m: Region, uefi: bool, kernelStart: nat, kernelEnd: nat): Option<PageRange> {
    var end := m.start + m.size;
    if end <= kernelEnd && !uefi then None
    else Some(PageRange(if m.start <= kernelStart && !uefi then kernelEnd else m.start, end))
  }

  ghost predicate InRegions(regions: seq<Region>, a: nat) {
    exists i :: 0 <= i < |regions| && regions[i].start <= a < regions[i].start + regions[i].size
  }

  /** What the kernel takes for granted of the device tree: regions apart from each other, everything in whole pages. */
  ghost predicate GoodTree(regions: seq<Region>, reservations: seq<PageRange>, uefi: bool, kernelStart: nat,
                           kernelEnd: nat) {
    && (forall i :: 0 <= i < |regions| ==>
          Claim(regions[i], uefi, kernelStart, kernelEnd).Some?
          ==> Valid(Claim(regions[i], uefi, kernelStart, kernelEnd).value))
    && (forall i, j :: 0 <= i < j < |regions| ==> Disjoint(Whole(regions[i]), Whole(regions[j])))
    && (forall i :: 0 <= i < |reservations| ==> Valid(reservations[i]))
    && Valid(PageRange(kernelStart, kernelEnd))
  }

  function Whole(m: Region): PageRange {
    PageRange(m.start, m.start + m.size)
  }

  /** The frames claimed of the first n regions. */
  ghost predicate Claimed(regions: seq<Region>, n: nat, uefi: bool, kernelStart: nat, kernelEnd: nat, a: nat)
    requires n <= |regions|
  {
    exists i :: 0 <= i < n && Claim(regions[i], uefi, kernelStart, kernelEnd).Some?
      && In(Claim(regions[i], uefi, kernelStart, kernelEnd).value, a)
  }

  /** The sum of the lengths of the claims. */
  function ClaimedSize(regions: seq<Region>, n: nat, uefi: bool, kernelStart: nat, kernelEnd: nat): int
    requires n <= |regions|
  {
    if n == 0 then 0
    else
      ClaimedSize(regions, n - 1, uefi, kernelStart, kernelEnd)
      + match Claim(regions[n - 1], uefi, kernelStart, kernelEnd) case None => 0 case Some(r) => r.end - r.start
  }

  method ClaimRegions(list: FreeList, regions: seq<Region>, uefi: bool, kernelStart: nat, kernelEnd: nat)
    returns (total: nat)
    requires list.ranges == [] && GoodTree(regions, [], uefi, kernelStart, kernelEnd)
    modifies list
    ensures Proper(list.ranges) && total == ClaimedSize(regions, |regions|, uefi, kernelStart, kernelEnd)
    ensures forall a :: Free(list.ranges, a) <==> Claimed(regions, |regions|, uefi, kernelStart, kernelEnd, a)
  {
    total := 0;
    for n := 0 to |regions|
      invariant Proper(list.ranges) && total == ClaimedSize(regions, n, uefi, kernelStart, kernelEnd)
      invariant forall a :: Free(list.ranges, a) <==> Claimed(regions, n, uefi, kernelStart, kernelEnd, a)
    {
      var m := regions[n];
      var end := m.start + m.size;
      ClaimedOneMore(regions, n, uefi, kernelStart, kernelEnd);
      if end <= kernelEnd && !uefi { continue; }
      var start := if m.start <= kernelStart && !uefi then kernelEnd else m.start;
      var range := PageRange(start, end);
      ApartFromClaimed(list.ranges, regions, n, uefi, kernelStart, kernelEnd);
      list.Deallocate(range);
      total := total + (end - start);
    }
  }

  lemma {:induction false} ClaimedOneMore(regions: seq<Region>, n: nat, uefi: bool, kernelStart: nat, kernelEnd: nat)
    requires n < |regions|
    ensures forall a :: Claimed(regions, n + 1, uefi, kernelStart, kernelEnd, a) <==>
                        Claimed(regions, n, uefi, kernelStart, kernelEnd, a)
                        || (Claim(regions[n], uefi, kernelStart, kernelEnd).Some?
                            && In(Claim(regions[n], uefi, kernelStart, kernelEnd).value, a))
  {
  }

  lemma {:induction false} NotClaimedTwice(regions: seq<Region>, n: nat, uefi: bool, kernelStart: nat, kernelEnd: nat,
                                           a: nat)
    requires n < |regions| && GoodTree(regions, [], uefi, kernelStart, kernelEnd)
             && Claim(regions[n], uefi, kernelStart, kernelEnd).Some?
    ensures In(Claim(regions[n], uefi, kernelStart, kernelEnd).value, a)
            ==> !Claimed(regions, n, uefi, kernelStart, kernelEnd, a)
  {
    if In(Claim(regions[n], uefi, kernelStart, kernelEnd).value, a) {
      forall i | 0 <= i < n && Claim(regions[i], uefi, kernelStart, kernelEnd).Some?
        ensures !In(Claim(regions[i], uefi, kernelStart, kernelEnd).value, a)
      {
        assert Disjoint(Whole(regions[i]), Whole(regions[n]));
      }
    }
  }

  /** Regions that are apart have claims that are apart. */
  lemma {:induction false} ApartFromClaimed(list: seq<PageRange>, regions: seq<Region>, n: nat, uefi: bool,
                                            kernelStart: nat, kernelEnd: nat)
    requires n < |regions| && GoodTree(regions, [], uefi, kernelStart, kernelEnd) && Proper(list)
    requires Claim(regions[n], uefi, kernelStart, kernelEnd).Some?
    requires forall a :: Free(list, a) <==> Claimed(regions, n, uefi, kernelStart, kernelEnd, a)
    ensures forall k :: 0 <= k < |list| ==> Disjoint(list[k], Claim(regions[n], uefi, kernelStart, kernelEnd).value)
  {
    var c := Claim(regions[n], uefi, kernelStart, kernelEnd).value;
    forall k | 0 <= k < |list|
      ensures Disjoint(list[k], c)
    {
      var a := Max(list[k].start, c.start);
      NotClaimedTwice(regions, n, uefi, kernelStart, kernelEnd, a);
      if In(list[k], a) { assert Free(list, a); }
    }
  }

  // The size of what is claimed

  function Interval(lo: nat, hi: nat): (r: set<nat>)
    requires lo <= hi
    ensures |r| == hi - lo && forall a :: a in r <==> lo <= a < hi
    decreases hi - lo
  {
    if lo == hi then {} else {lo} + Interval(lo + 1, hi)
  }

  ghost function ClaimedBytes(regions: seq<Region>, n: nat, uefi: bool, kernelStart: nat, kernelEnd: nat,
                              bound: nat): set<nat>
    requires n <= |regions|
  {
    set a: nat | a < bound && Claimed(regions, n, uefi, kernelStart, kernelEnd, a)
  }

  /** The total is the number of bytes claimed. */
  lemma {:induction false} TotalCountsBytes(regions: seq<Region>, n: nat, uefi: bool, kernelStart: nat, kernelEnd: nat,
                                            bound: nat)
    requires n <= |regions| && GoodTree(regions, [], uefi, kernelStart, kernelEnd)
    requires forall i :: 0 <= i < |regions| ==> regions[i].start + regions[i].size <= bound
    ensures ClaimedSize(regions, n, uefi, kernelStart, kernelEnd)
            == |ClaimedBytes(regions, n, uefi, kernelStart, kernelEnd, bound)|
  {
    hide Claimed, Claim, GoodTree, Interval;
    if n == 0 {
      NothingClaimed(regions, uefi, kernelStart, kernelEnd);
      assert ClaimedBytes(regions, 0, uefi, kernelStart, kernelEnd, bound) == {};
    } else {
      TotalCountsBytes(regions, n - 1, uefi, kernelStart, kernelEnd, bound);
      ClaimedOneMore(regions, n - 1, uefi, kernelStart, kernelEnd);
      var before := ClaimedBytes(regions, n - 1, uefi, kernelStart, kernelEnd, bound);
      var all := ClaimedBytes(regions, n, uefi, kernelStart, kernelEnd, bound);
      var claim := Claim(regions[n - 1], uefi, kernelStart, kernelEnd);
      if claim.None? {
        assert all == before;
      } else {
        ClaimIsRange(regions, n - 1, uefi, kernelStart, kernelEnd);
        forall a: nat | In(claim.value, a)
          ensures a !in before
        {
          NotClaimedTwice(regions, n - 1, uefi, kernelStart, kernelEnd, a);
        }
        OneMoreRange(before, all, claim.value);
      }
    }
  }

  lemma ClaimIsRange(regions: seq<Region>, i: nat, uefi: bool, kernelStart: nat, kernelEnd: nat)
    requires i < |regions| && GoodTree(regions, [], uefi, kernelStart, kernelEnd)
             && Claim(regions[i], uefi, kernelStart, kernelEnd).Some?
    ensures var r := Claim(regions[i], uefi, kernelStart, kernelEnd).value;
            r.start < r.end <= regions[i].start + regions[i].size
  {
  }

  lemma OneMoreRange(before: set<nat>, all: set<nat>, r: PageRange)
    requires r.start <= r.end && (forall a: nat :: a in all <==> a in before || In(r, a))
    requires forall a: nat :: In(r, a) ==> a !in before
    ensures |all| == |before| + (r.end - r.start)
  {
    assert all == before + Interval(r.start, r.end);
  }

  lemma NothingClaimed(regions: seq<Region>, uefi: bool, kernelStart: nat, kernelEnd: nat)
    ensures forall a :: !Claimed(regions, 0, uefi, kernelStart, kernelEnd, a)
  {
  }

  /** After detection a frame is free exactly if it is memory, not the kernel's (without UEFI: not below its end), not
      reserved and not the device tree's; and no frame is in the list twice. */
  method DetectFromFdt(list: FreeList, regions: seq<Region>, reservations: seq<PageRange>, uefi: bool,
                       kernelStart: nat, kernelEnd: nat, fdtStart: nat, fdtSize: nat) returns (ok: bool, total: nat)
    requires list.ranges == [] && GoodTree(regions, reservations, uefi, kernelStart, kernelEnd) && fdtSize > 0
    modifies list
    ensures Proper(list.ranges) && (ok <==> regions != [])
    ensures total == ClaimedSize(regions, |regions|, uefi, kernelStart, kernelEnd)
    ensures forall a: nat :: Free(list.ranges, a) <==>
              InRegions(regions, a)
              && (if uefi then !(kernelStart <= a < kernelEnd) else kernelEnd <= a)
              && (forall i :: 0 <= i < |reservations| ==> !In(reservations[i], a))
              && !In(Containing(fdtStart, fdtStart + fdtSize).value, a)
  {
    hide Free, Claimed, InRegions, Containing;
    ok := regions != [];
    if !ok { NoMemory(); return false, 0; }
    total := ClaimRegions(list, regions, uefi, kernelStart, kernelEnd);
    for n := 0 to |reservations|
      invariant Proper(list.ranges)
      invariant forall a: nat :: Free(list.ranges, a) <==>
        Claimed(regions, |regions|, uefi, kernelStart, kernelEnd, a)
        && forall i :: 0 <= i < n ==> !In(reservations[i], a)
    {
      list.Reserve(reservations[n]);
    }
    list.Reserve(PageRange(if uefi then kernelStart else 0, kernelEnd));
    list.Reserve(Containing(fdtStart, fdtStart + fdtSize).value);
    forall a: nat
      ensures Claimed(regions, |regions|, uefi, kernelStart, kernelEnd, a)
              && !In(PageRange(if uefi then kernelStart else 0, kernelEnd), a)
         <==> InRegions(regions, a) && (if uefi then !(kernelStart <= a < kernelEnd) else kernelEnd <= a)
    {
      ClaimedOutsideKernel(regions, uefi, kernelStart, kernelEnd, a);
    }
  }

  lemma {:induction false} ClaimedOutsideKernel(regions: seq<Region>, uefi: bool, kernelStart: nat, kernelEnd: nat,
                                                a: nat)
    requires kernelStart < kernelEnd
    ensures Claimed(regions, |regions|, uefi, kernelStart, kernelEnd, a)
            && !In(PageRange(if uefi then kernelStart else 0, kernelEnd), a)
       <==> InRegions(regions, a) && (if uefi then !(kernelStart <= a < kernelEnd) else kernelEnd <= a)
  {
  }

  lemma {:induction false} NoMemory()
    ensures forall a :: !Free([], a) && !InRegions([], a)
    ensures Proper([])
  {
  }
}

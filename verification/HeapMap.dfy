/** Mapping the kernel heap with pages of three sizes, any of which may run out of frames. */
module HeapMap {
  import opened Numbers
  import opened Options

  const BASE: nat := 0x1000
  const LARGE: nat := 0x20_0000
  const HUGE: nat := 0x4000_0000

  datatype Page = Page(addr: nat, size: nat)

  /** Pages back to back from start to end, each aligned to its size. */
  ghost predicate Tiles(pages: seq<Page>, start: nat, end: nat)
    decreases |pages|
  {
    if pages == [] then start == end
    else
      var last := pages[|pages| - 1];
      last.size in {BASE, LARGE, HUGE} && last.addr % last.size == 0 && last.addr + last.size == end
        && Tiles(pages[..|pages| - 1], start, last.addr)
  }

  /** Tiled pages map each address of the range exactly once, and no other. */
  lemma {:induction false} TilesMapOnce(pages: seq<Page>, start: nat, end: nat, a: nat)
    requires Tiles(pages, start, end)
    ensures start <= end
    ensures start <= a < end <==> exists i :: 0 <= i < |pages| && Maps(pages[i], a)
    ensures forall i, j :: 0 <= i < |pages| && 0 <= j < |pages| && Maps(pages[i], a) && Maps(pages[j], a) ==> i == j
    decreases |pages|
  {
    if pages != [] {
      var n := |pages| - 1;
      var front, last := pages[..n], pages[n];
      TilesMapOnce(front, start, last.addr, a);
      assert forall i :: 0 <= i < n ==> front[i] == pages[i];
      if start <= a < last.addr {
        var i :| 0 <= i < |front| && Maps(front[i], a);
        assert Maps(pages[i], a);
      } else {
        forall i | 0 <= i < n ensures !Maps(pages[i], a) { assert !Maps(front[i], a); }
      }
      if last.addr <= a < end { assert Maps(pages[n], a); }
    }
  }

  predicate Maps(p: Page, a: nat) {
    p.addr <= a < p.addr + p.size
  }

  lemma TilesAppend(pages: seq<Page>, start: nat, end: nat, p: Page)
    requires Tiles(pages, start, end) && p.addr == end && p.size in {BASE, LARGE, HUGE} && p.addr % p.size == 0
    ensures Tiles(pages + [p], start, end + p.size)
  {
    assert (pages + [p])[..|pages|] == pages;
  }

  function AlignDown(a: nat, size: nat): nat
    requires size > 0
  {
    a / size * size
  }

  class Heap {
    var pages: seq<Page>     // mapped so far
    const start: nat

    constructor (at: nat)
      ensures start == at && pages == []
    {
      start, pages := at, [];
    }

    /** Maps `count` pages while frames last; on failure, how many pages it did map. */
    method MapHeap(addr: nat, size: nat, count: nat, frames: nat) returns (failed: Option<nat>)
      requires Tiles(pages, start, addr) && size in {BASE, LARGE, HUGE} && addr % size == 0
      modifies this
      ensures failed == if frames < count then Some(frames) else None
      ensures Tiles(pages, start, addr + size * Mapped(count, frames))
      ensures pages == old(pages) + PagesFrom(addr, size, Mapped(count, frames))
    {
      hide Tiles, PagesFrom;
      var i := 0;
      var at := addr;
      NoPages(addr, size);
      while i < count
        invariant i <= count && i <= frames && at == addr + size * i && at % size == 0 && Tiles(pages, start, at)
        invariant pages == old(pages) + PagesFrom(addr, size, i)
      {
        if i == frames { return Some(i); }
        TilesAppend(pages, start, at, Page(at, size));
        PagesNext(addr, size, i);
        pages := pages + [Page(at, size)];
        NextPage(addr, size, i);
        at := at + size;
        i := i + 1;
      }
      failed := None;
    }

    /** Maps as much as possible of what is left with pages of one size. */
    method MapStage(supported: bool, addr: nat, left: nat, size: nat, frames: nat)
      returns (mapAddr: nat, mapSize: nat, failed: bool)
      requires Tiles(pages, start, addr) && size in {BASE, LARGE, HUGE}
      modifies this
      ensures Tiles(pages, start, mapAddr) && mapAddr + mapSize == addr + left && addr <= mapAddr
      ensures forall g :: g in {BASE, LARGE} && g <= size && Aligned(addr, g) && Aligned(left, g) ==>
                Aligned(mapAddr, g) && Aligned(mapSize, g)
      ensures mapAddr == StageEnd(supported, addr, left, size, frames)
      ensures pages == old(pages) + StagePages(supported, addr, left, size, frames)
      ensures failed <==> Tried(supported, addr, left, size) && frames < left / size
      ensures failed ==> mapSize >= size
      ensures Tried(supported, addr, left, size) && !failed ==> mapSize < size
    {
      hide Tiles, AlignDown, PagesFrom;
      mapAddr, mapSize, failed := addr, left, false;
      if supported && mapSize > size && mapAddr % size == 0 {
        var whole := AlignDown(mapSize, size);
        var err := MapHeap(mapAddr, size, whole / size, frames);
        WholePages(left, size);
        var mapped := if err.Some? then size * err.value else whole;
        SomePages(addr, left, size, if err.Some? then err.value else left / size);
        mapSize := mapSize - mapped;
        mapAddr := mapAddr + mapped;
        failed := err.Some?;
      }
    }

    /** Large pages up to the next huge page boundary. */
    method MapToBoundary(virtAddr: nat, virtSize: nat, frames: nat) returns (mapAddr: nat, mapSize: nat)
      requires Tiles(pages, start, virtAddr) && Aligned(virtAddr, LARGE) && Aligned(virtSize, LARGE) && virtSize > HUGE
      modifies this
      ensures Tiles(pages, start, mapAddr) && mapAddr + mapSize == virtAddr + virtSize
      ensures Aligned(mapAddr, LARGE) && Aligned(mapSize, LARGE)
      ensures mapAddr == BoundaryEnd(virtAddr, frames)
      ensures pages == old(pages) + BoundaryPages(virtAddr, frames)
    {
      hide Tiles, AlignUp, PagesFrom;
      NextBoundary(virtAddr);
      var npages := (AlignUp(virtAddr, HUGE) - virtAddr) / LARGE;
      var err := MapHeap(virtAddr, LARGE, npages, frames);
      BelowBoundary(virtAddr, virtSize, npages, if err.Some? then err.value else npages);
      if err.Some? {
        mapAddr := virtAddr + err.value * LARGE;
      } else {
        mapAddr := AlignUp(virtAddr, HUGE);
      }
      mapSize := virtSize - (mapAddr - virtAddr);
    }

    /** The phases of `init`. `frames` is how many pages each call finds frames for. */
    method Init(virtSize: nat, has1Gib: bool, has2Mib: bool, frames: seq<nat>)
      returns (heapEnd: nat, unmapped: nat, baseFailed: bool)
      requires pages == [] && Aligned(start, LARGE) && Aligned(virtSize, LARGE) && |frames| == 4
      modifies this
      ensures Tiles(pages, start, heapEnd)
      ensures heapEnd + unmapped == start + virtSize
      ensures unmapped == 0 <==> !baseFailed
      // the frames each call finds decide its pages, and where it ends
      ensures (pages, heapEnd) == HeapPages(start, virtSize, has1Gib, has2Mib, frames)
    {
      hide Tiles, Aligned, StageEnd, BoundaryEnd, StagePages, BoundaryPages;
      EmptyTiles(start);
      var mapAddr, mapSize := start, virtSize;
      if has1Gib && virtSize > HUGE {
        mapAddr, mapSize := MapToBoundary(start, virtSize, frames[0]);
        assert pages == BoundaryPages(start, frames[0]);
      }
      var failed;
      ghost var before := (pages, mapAddr as int);
      mapAddr, mapSize, failed := MapStage(has1Gib, mapAddr, mapSize, HUGE, frames[1]);
      assert (pages, mapAddr as int) == AddStage(before, has1Gib, start + virtSize, HUGE, frames[1]);
      before := (pages, mapAddr as int);
      mapAddr, mapSize, failed := MapStage(has2Mib, mapAddr, mapSize, LARGE, frames[2]);
      assert (pages, mapAddr as int) == AddStage(before, has2Mib, start + virtSize, LARGE, frames[2]);
      before := (pages, mapAddr as int);
      LargeIsBase(mapAddr);
      LargeIsBase(mapSize);
      mapAddr, mapSize, baseFailed := MapStage(true, mapAddr, mapSize, BASE, frames[3]);
      assert (pages, mapAddr as int) == AddStage(before, true, start + virtSize, BASE, frames[3]);
      LargeIsBase(mapSize);
      heapEnd, unmapped := mapAddr, mapSize;
    }
  }

  /** Pages of one size, back to back. */
  function PagesFrom(addr: nat, size: nat, n: int): seq<Page> {
    if n <= 0 then [] else PagesFrom(addr, size, n - 1) + [Page(addr + size * (n - 1), size)]
  }

  /** How many pages a call maps: as many as it is asked for while frames last. */
  function Mapped(count: int, frames: nat): int {
    if frames < count then frames else count
  }

  /** Whether a stage maps at all. */
  predicate Tried(supported: bool, addr: int, left: int, size: nat)
    requires size > 0
  {
    supported && left > size && Aligned(addr, size)
  }

  /** Where a stage ends. */
  function StageEnd(supported: bool, addr: int, left: int, size: nat, frames: nat): int
    requires size > 0
  {
    if Tried(supported, addr, left, size) then addr + size * Mapped(left / size, frames) else addr
  }

  function BoundaryEnd(addr: nat, frames: nat): int {
    addr + LARGE * Mapped((AlignUp(addr, HUGE) - addr) / LARGE, frames)
  }

  function BoundaryPages(addr: nat, frames: nat): seq<Page> {
    PagesFrom(addr, LARGE, Mapped((AlignUp(addr, HUGE) - addr) / LARGE, frames))
  }

  function StagePages(supported: bool, addr: nat, left: int, size: nat, frames: nat): seq<Page>
    requires size > 0
  {
    if Tried(supported, addr, left, size) then PagesFrom(addr, size, Mapped(left / size, frames)) else []
  }

  /** One stage after others: their pages and end, with its own. */
  function AddStage(before: (seq<Page>, int), supported: bool, end: int, size: nat, frames: nat): (seq<Page>, int)
    requires size > 0
  {
    var (pages, addr) := before;
    if addr < 0 then before
    else (pages + StagePages(supported, addr, end - addr, size, frames),
          StageEnd(supported, addr, end - addr, size, frames))
  }

  /** The pages of the heap and its end, given how many frames each stage finds. */
  function HeapPages(start: nat, size: nat, has1Gib: bool, has2Mib: bool, frames: seq<nat>): (seq<Page>, int)
    requires |frames| == 4
  {
    var end := start + size;
    var first := if has1Gib && size > HUGE then (BoundaryPages(start, frames[0]), BoundaryEnd(start, frames[0]))
      else ([], start);
    var second := AddStage(first, has1Gib, end, HUGE, frames[1]);
    var third := AddStage(second, has2Mib, end, LARGE, frames[2]);
    AddStage(third, true, end, BASE, frames[3])
  }

  predicate Aligned(a: int, size: nat)
    requires size > 0
  {
    a % size == 0
  }

  lemma LargeIsBase(a: nat)
    ensures Aligned(a, LARGE) ==> Aligned(a, BASE) && (a <= BASE ==> a == 0)
    ensures Aligned(a, BASE) ==> a < BASE ==> a == 0
  {
  }

  lemma BelowBoundary(addr: nat, size: nat, npages: nat, n: nat)
    requires Aligned(addr, LARGE) && Aligned(size, LARGE) && n <= npages && LARGE * npages <= size
    ensures LARGE * n <= size && Aligned(addr + LARGE * n, LARGE) && Aligned(size - LARGE * n, LARGE)
  {
  }

  lemma NoPages(addr: nat, size: nat)
    ensures PagesFrom(addr, size, 0) == []
  {
  }

  lemma PagesNext(addr: nat, size: nat, i: nat)
    ensures PagesFrom(addr, size, i + 1) == PagesFrom(addr, size, i) + [Page(addr + size * i, size)]
  {
  }

  lemma NextPage(addr: nat, size: nat, i: nat)
    requires size in {BASE, LARGE, HUGE} && addr % size == 0
    ensures addr + size * (i + 1) == addr + size * i + size && (addr + size * (i + 1)) % size == 0
  {
  }

  lemma EmptyTiles(a: nat)
    ensures Tiles([], a, a)
  {
  }

  lemma WholePages(left: nat, size: nat)
    requires size in {BASE, LARGE, HUGE}
    ensures AlignDown(left, size) / size == left / size
            && size * (left / size) == AlignDown(left, size) <= left < AlignDown(left, size) + size
  {
  }

  /** After some of the whole pages, what is left is still aligned to every smaller page. */
  lemma SomePages(addr: nat, left: nat, size: nat, n: nat)
    requires size in {BASE, LARGE, HUGE} && n <= left / size
    ensures size * n <= left && (n < left / size ==> left - size * n >= size)
            && (n == left / size ==> left - size * n < size)
    ensures addr % BASE == 0 && left % BASE == 0 ==> (addr + size * n) % BASE == 0 && (left - size * n) % BASE == 0
    ensures size >= LARGE && addr % LARGE == 0 && left % LARGE == 0
            ==> (addr + size * n) % LARGE == 0 && (left - size * n) % LARGE == 0
  {
    if size == BASE {
      SomeBasePages(addr, left, n);
    } else if size == LARGE {
      SomeLargePages(addr, left, n);
    } else {
      SomeHugePages(addr, left, n);
    }
  }

  lemma BaseShift(a: int, m: int)
    requires a % BASE == 0
    ensures (a + BASE * m) % BASE == 0
  {
  }

  lemma LargeShift(a: int, m: int)
    requires a % LARGE == 0
    ensures (a + LARGE * m) % LARGE == 0
  {
  }

  lemma SomeBasePages(addr: nat, left: nat, n: nat)
    requires n <= left / BASE
    ensures BASE * n <= left && (n < left / BASE ==> left - BASE * n >= BASE)
            && (n == left / BASE ==> left - BASE * n < BASE)
    ensures addr % BASE == 0 && left % BASE == 0 ==> (addr + BASE * n) % BASE == 0 && (left - BASE * n) % BASE == 0
  {
    if addr % BASE == 0 && left % BASE == 0 { BaseShift(addr, n); BaseShift(left, 0 - n); }
  }

  lemma SomeLargePages(addr: nat, left: nat, n: nat)
    requires n <= left / LARGE
    ensures LARGE * n <= left && (n < left / LARGE ==> left - LARGE * n >= LARGE)
            && (n == left / LARGE ==> left - LARGE * n < LARGE)
    ensures addr % BASE == 0 && left % BASE == 0 ==> (addr + LARGE * n) % BASE == 0 && (left - LARGE * n) % BASE == 0
    ensures addr % LARGE == 0 && left % LARGE == 0
            ==> (addr + LARGE * n) % LARGE == 0 && (left - LARGE * n) % LARGE == 0
  {
    LargeRest(left, n);
    AlignedAfter(addr, left, LARGE * n, 0x200 * n, n);
  }

  lemma LargeRest(left: nat, n: nat)
    requires n <= left / LARGE
    ensures LARGE * n <= left && (n < left / LARGE ==> left - LARGE * n >= LARGE)
            && (n == left / LARGE ==> left - LARGE * n < LARGE)
  {
  }

  lemma SomeHugePages(addr: nat, left: nat, n: nat)
    requires n <= left / HUGE
    ensures HUGE * n <= left && (n < left / HUGE ==> left - HUGE * n >= HUGE)
            && (n == left / HUGE ==> left - HUGE * n < HUGE)
    ensures addr % BASE == 0 && left % BASE == 0 ==> (addr + HUGE * n) % BASE == 0 && (left - HUGE * n) % BASE == 0
    ensures addr % LARGE == 0 && left % LARGE == 0 ==> (addr + HUGE * n) % LARGE == 0 && (left - HUGE * n) % LARGE == 0
  {
    HugeRest(left, n);
    AlignedAfter(addr, left, HUGE * n, 0x4_0000 * n, 0x200 * n);
  }

  lemma HugeRest(left: nat, n: nat)
    requires n <= left / HUGE
    ensures HUGE * n <= left && (n < left / HUGE ==> left - HUGE * n >= HUGE)
            && (n == left / HUGE ==> left - HUGE * n < HUGE)
  {
  }

  lemma AlignedAfter(addr: int, left: int, mapped: int, basePages: int, largePages: int)
    requires mapped == BASE * basePages == LARGE * largePages
    ensures addr % BASE == 0 && left % BASE == 0 ==> (addr + mapped) % BASE == 0 && (left - mapped) % BASE == 0
    ensures addr % LARGE == 0 && left % LARGE == 0 ==> (addr + mapped) % LARGE == 0 && (left - mapped) % LARGE == 0
  {
    if addr % BASE == 0 && left % BASE == 0 { BaseShift(addr, basePages); BaseShift(left, -basePages); }
    if addr % LARGE == 0 && left % LARGE == 0 { LargeShift(addr, largePages); LargeShift(left, -largePages); }
  }

  lemma NextBoundary(addr: nat)
    requires addr % LARGE == 0
    ensures addr <= AlignUp(addr, HUGE) < addr + HUGE && AlignUp(addr, HUGE) % LARGE == 0
    ensures addr + LARGE * ((AlignUp(addr, HUGE) - addr) / LARGE) == AlignUp(addr, HUGE)
  {
    var q, m := (addr + HUGE - 1) / HUGE, addr / LARGE;
    assert addr == LARGE * m && AlignUp(addr, HUGE) == LARGE * (0x200 * q);
    assert addr + HUGE - 1 == HUGE * q + (addr + HUGE - 1) % HUGE;
    assert AlignUp(addr, HUGE) - addr == LARGE * (0x200 * q - m);
  }

  // The largest pages possible

  lemma {:induction false} PagesFromAre(addr: nat, size: nat, n: int)
    ensures forall p :: p in PagesFrom(addr, size, n) ==> p.size == size && addr <= p.addr
    ensures n >= 0 ==> forall p :: p in PagesFrom(addr, size, n) ==> p.addr + size <= addr + size * n
  {
    if n > 0 { PagesFromAre(addr, size, n - 1); SizeGrows(size, n - 1); }
  }

  lemma SizeGrows(size: nat, n: nat)
    ensures size * n + size == size * (n + 1) && 0 <= size * n
  {
  }

  /** A stage adds pages of its own size, from where it starts. */
  lemma StageAdds(before: (seq<Page>, int), supported: bool, end: int, size: nat, frames: nat)
    requires size > 0 && before.1 >= 0
    ensures forall p :: p in AddStage(before, supported, end, size, frames).0 ==>
              p in before.0 || (p.size == size && p.addr >= before.1)
  {
    hide PagesFrom, Tried;
    PagesFromAre(before.1, size, Mapped((end - before.1) / size, frames));
  }

  /** A stage with enough frames leaves at most one page of its size. */
  lemma StageLeaves(before: (seq<Page>, int), end: int, size: nat, frames: nat)
    requires size in {LARGE, HUGE} && 0 <= before.1 <= end && Aligned(before.1, size)
    requires frames >= (end - before.1) / size
    ensures var after := AddStage(before, true, end, size, frames).1; before.1 <= after <= end <= after + size
  {
    hide StagePages;
    WholePages(end - before.1, size);
  }

  /** Any stage stays within the heap and keeps the alignment to large pages. */
  lemma StageWithin(before: (seq<Page>, int), supported: bool, end: int, size: nat, frames: nat)
    requires size in {LARGE, HUGE} && 0 <= before.1 <= end && Aligned(before.1, LARGE) && Aligned(end, LARGE)
    ensures var after := AddStage(before, supported, end, size, frames).1;
            before.1 <= after <= end && Aligned(after, LARGE)
  {
    hide StagePages;
    var left := end - before.1;
    assert Aligned(left, LARGE);
    if Tried(supported, before.1, left, size) { SomePages(before.1, left, size, Mapped(left / size, frames)); }
  }

  /** The first large pages stay within the heap, and reach the boundary with enough frames. */
  lemma FirstWithin(start: nat, size: nat, frames: nat)
    requires Aligned(start, LARGE) && Aligned(size, LARGE) && size > HUGE
    ensures start <= BoundaryEnd(start, frames) <= start + size && Aligned(BoundaryEnd(start, frames), LARGE)
    ensures frames >= HUGE / LARGE ==> BoundaryEnd(start, frames) == AlignUp(start, HUGE)
    ensures forall p :: p in BoundaryPages(start, frames) ==> p.size == LARGE && p.addr < AlignUp(start, HUGE)
  {
    hide AlignUp, PagesFrom;
    NextBoundary(start);
    var npages := (AlignUp(start, HUGE) - start) / LARGE;
    var n := Mapped(npages, frames);
    BelowBoundary(start, size, npages, n);
    PagesFromAre(start, LARGE, n);
  }

  /** With large pages and frames for them, base pages are used for no more than one large page at the end. */
  lemma FewBasePages(start: nat, size: nat, has1Gib: bool, frames: seq<nat>)
    requires Aligned(start, LARGE) && Aligned(size, LARGE) && |frames| == 4 && frames[2] >= size / LARGE
    ensures forall p :: p in HeapPages(start, size, has1Gib, true, frames).0 && p.size == BASE ==>
              p.addr >= start + size - LARGE
  {
    hide AddStage, BoundaryEnd, BoundaryPages, AlignUp;
    var end := start + size;
    if has1Gib && size > HUGE { FirstWithin(start, size, frames[0]); }
    var first := if has1Gib && size > HUGE then (BoundaryPages(start, frames[0]), BoundaryEnd(start, frames[0]))
      else ([], start);
    var second := AddStage(first, has1Gib, end, HUGE, frames[1]);
    StageWithin(first, has1Gib, end, HUGE, frames[1]);
    StageAdds(first, has1Gib, end, HUGE, frames[1]);
    var third := AddStage(second, true, end, LARGE, frames[2]);
    FewerPages(end - second.1, size);
    StageLeaves(second, end, LARGE, frames[2]);
    StageAdds(second, true, end, LARGE, frames[2]);
    StageAdds(third, true, end, BASE, frames[3]);
  }

  lemma FewerPages(left: int, size: nat)
    requires 0 <= left <= size
    ensures left / LARGE <= size / LARGE && left / HUGE <= size / HUGE
  {
  }

  /** With huge pages and frames for them, smaller pages are used only below the first huge page boundary, and
      for no more than one huge page at the end. */
  lemma FewSmallPages(start: nat, size: nat, has2Mib: bool, frames: seq<nat>)
    requires Aligned(start, LARGE) && Aligned(size, LARGE) && size > HUGE
    requires |frames| == 4 && frames[0] >= HUGE / LARGE && frames[1] >= size / HUGE
    ensures forall p :: p in HeapPages(start, size, true, has2Mib, frames).0 && p.size < HUGE ==>
              p.addr < AlignUp(start, HUGE) || p.addr >= start + size - HUGE
  {
    hide AddStage, BoundaryEnd, BoundaryPages, AlignUp;
    var end := start + size;
    FirstWithin(start, size, frames[0]);
    var first := (BoundaryPages(start, frames[0]), BoundaryEnd(start, frames[0]));
    assert Aligned(first.1, HUGE) by { BoundaryIsAligned(start); }
    FewerPages(end - first.1, size);
    var second := AddStage(first, true, end, HUGE, frames[1]);
    StageLeaves(first, end, HUGE, frames[1]);
    StageWithin(first, true, end, HUGE, frames[1]);
    StageAdds(first, true, end, HUGE, frames[1]);
    var third := AddStage(second, has2Mib, end, LARGE, frames[2]);
    StageWithin(second, has2Mib, end, LARGE, frames[2]);
    StageAdds(second, has2Mib, end, LARGE, frames[2]);
    StageAdds(third, true, end, BASE, frames[3]);
  }

  lemma BoundaryIsAligned(start: nat)
    ensures Aligned(AlignUp(start, HUGE), HUGE)
  {
  }

  /** Without huge pages none is used, and without large ones too only base pages are. */
  lemma UnsupportedUnused(start: nat, size: nat, has2Mib: bool, frames: seq<nat>)
    requires Aligned(start, LARGE) && Aligned(size, LARGE) && |frames| == 4
    ensures forall p :: p in HeapPages(start, size, false, has2Mib, frames).0 ==> p.size == BASE || p.size == LARGE
    ensures !has2Mib ==> forall p :: p in HeapPages(start, size, false, has2Mib, frames).0 ==> p.size == BASE
  {
    hide AddStage, BoundaryEnd, BoundaryPages, AlignUp;
    var end := start + size;
    var first: (seq<Page>, int) := ([], start);
    StageSkipped(first, end, HUGE, frames[1]);
    var third := AddStage(first, has2Mib, end, LARGE, frames[2]);
    if !has2Mib { StageSkipped(first, end, LARGE, frames[2]); }
    StageWithin(first, has2Mib, end, LARGE, frames[2]);
    StageAdds(first, has2Mib, end, LARGE, frames[2]);
    StageAdds(third, true, end, BASE, frames[3]);
  }

  lemma StageSkipped(before: (seq<Page>, int), end: int, size: nat, frames: nat)
    requires size > 0
    ensures AddStage(before, false, end, size, frames) == before
  {
    assert before.0 + [] == before.0;
  }
}

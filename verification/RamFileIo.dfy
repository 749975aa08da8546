/** RAM files and vectored I/O as classes. Memory is one array of bytes, in which buffers may overlap. */
module RamFileIo {
  import opened Bytes
  import opened Numbers
  import opened Options
  import opened RamFile

  const IOV_MAX: nat := 1024

  /** What all handles of a file share: the vector and the size attribute. */
  class RamFileInner {
    var data: seq<Byte>
    var stSize: int

    ghost predicate Valid()
      reads this
    {
      stSize == |data| <= ISIZE_MAX
    }

    constructor ()
      ensures Valid() && data == []
    {
      data, stSize := [], 0;
    }

    /** `Vec::resize` with zeros. */
    method Resize(n: nat)
      requires n <= ISIZE_MAX
      modifies this
      ensures data == Resized(old(data), n) && stSize == n
    {
      if n <= |data| {
        data := data[..n];
      } else {
        var zeros: seq<Byte> := seq(n - |data|, i => 0);
        data := data + zeros;
      }
      stSize := |data|;
    }
  }

  class RamFileInterface {
    const inner: RamFileInner
    var pos: nat

    ghost predicate Valid()
      reads this, inner
    {
      inner.Valid() && pos <= ISIZE_MAX
    }

    constructor (file: RamFileInner)
      ensures inner == file && pos == 0
    {
      inner, pos := file, 0;
    }

    method Read(mem: array<Byte>, base: nat, len: nat) returns (count: nat)
      requires Valid() && base + len <= mem.Length
      modifies this, mem
      ensures Valid()
      ensures count == |Chunk(inner.data, old(pos), len)| && pos == old(pos) + count
      ensures mem[..] == Stored(old(mem[..]), base, Chunk(inner.data, old(pos), len))
    {
      var start := pos;
      if start >= |inner.data| { return 0; }
      count := if |inner.data| - start < len then |inner.data| - start else len;
      var data := inner.data;
      forall i | 0 <= i < count { mem[base + i] := data[start + i]; }
      pos := start + count;
    }

    method Write(buf: seq<Byte>) returns (count: nat)
      requires Valid() && pos + |buf| <= ISIZE_MAX
      modifies this, inner
      ensures Valid() && count == |buf| && pos == old(pos) + |buf|
      ensures inner.data == Written(old(inner.data), old(pos), buf)
    {
      var start := pos;
      if start + |buf| > |inner.data| { inner.Resize(start + |buf|); }
      inner.data := inner.data[..start] + buf + inner.data[start + |buf|..];
      pos := start + |buf|;
      count := |buf|;
    }

    method Lseek(offset: int, whence: Whence) returns (r: Outcome)
      requires Valid() && -ISIZE_MAX - 1 <= offset <= ISIZE_MAX
      modifies this, inner
      ensures Valid() && r == Target(|old(inner.data)|, old(pos), offset, whence)
      ensures r.Err? ==> pos == old(pos) && inner.data == old(inner.data)
      ensures r.Ok? ==>
                0 <= r.value <= ISIZE_MAX && pos == r.value
                && inner.data == Resized(old(inner.data), Max(|old(inner.data)|, r.value))
    {
      var dataLen := |inner.data|;
      var newPos;
      match whence {
        case Set => newPos := offset;
        case Cur =>
          if pos + offset > ISIZE_MAX { return Err(EOVERFLOW); }
          newPos := pos + offset;
        case End =>
          if dataLen + offset > ISIZE_MAX { return Err(EOVERFLOW); }
          newPos := dataLen + offset;
        case Other => return Err(EINVAL);
      }
      if newPos < 0 { return Err(EINVAL); }
      if newPos > dataLen { inner.Resize(newPos); }
      pos := newPos;
      r := Ok(newPos);
    }

    method Truncate(size: nat)
      requires Valid() && size <= ISIZE_MAX
      modifies inner
      ensures Valid() && inner.data == Resized(old(inner.data), size)
    {
      inner.Resize(size);
    }

    /** The size attribute is the length. */
    method Fstat() returns (size: int)
      requires Valid()
      ensures size == |inner.data|
    {
      size := inner.stSize;
    }
  }

  /** A file with all handles on it: the file of the reference form. */
  class OpenFile {
    const inner: RamFileInner
    var handles: map<nat, RamFileInterface>

    ghost predicate Valid()
      reads this, inner, handles.Values
    {
      && inner.Valid()
      && (forall h :: h in handles ==> handles[h].inner == inner && handles[h].pos <= ISIZE_MAX)
      && (forall h, g :: h in handles && g in handles && h != g ==> handles[h] != handles[g])
    }

    ghost function View(): File
      reads this, inner, handles.Values
    {
      File(inner.data, map h | h in handles :: handles[h].pos)
    }

    constructor ()
      ensures Valid() && View() == File([], map[]) && fresh(inner)
    {
      inner := new RamFileInner();
      handles := map[];
    }

    method Open(h: nat)
      requires Valid() && Enabled(View(), Op.Open(h))
      modifies this
      ensures Valid() && View() == Apply(old(View()), Op.Open(h))
      ensures fresh(handles.Values - old(handles.Values))
    {
      var handle := new RamFileInterface(inner);
      ghost var was := handles;
      handles := handles[h := handle];
      assert handles.Values <= was.Values + {handle};
    }

    method Read(h: nat, mem: array<Byte>, base: nat, n: nat) returns (count: nat)
      requires Valid() && Enabled(View(), Op.Read(h, n)) && base + n <= mem.Length
      modifies handles[h], mem
      ensures Valid() && View() == Apply(old(View()), Op.Read(h, n))
      ensures count == |Chunk(old(View()).bytes, old(View()).cursors[h], n)|
      ensures mem[..] == Stored(old(mem[..]), base, Chunk(old(View()).bytes, old(View()).cursors[h], n))
    {
      count := handles[h].Read(mem, base, n);
    }

    method Write(h: nat, data: seq<Byte>) returns (count: nat)
      requires Valid() && Enabled(View(), Op.Write(h, data))
      modifies handles[h], inner
      ensures Valid() && View() == Apply(old(View()), Op.Write(h, data)) && count == |data|
    {
      count := handles[h].Write(data);
    }

    method Lseek(h: nat, offset: int, whence: Whence) returns (r: Outcome)
      requires Valid() && Enabled(View(), Op.Seek(h, offset, whence))
      modifies handles[h], inner
      ensures Valid() && View() == Apply(old(View()), Op.Seek(h, offset, whence))
      ensures r == Target(|old(View()).bytes|, old(View()).cursors[h], offset, whence)
    {
      r := handles[h].Lseek(offset, whence);
      assert r.Err? ==> View() == old(View());
    }

    method Truncate(h: nat, size: nat)
      requires Valid() && h in handles && Enabled(View(), Op.Truncate(size))
      modifies inner
      ensures Valid() && View() == Apply(old(View()), Op.Truncate(size))
    {
      handles[h].Truncate(size);
    }
  }

  // Vectored I/O

  datatype IoVec = IoVec(base: nat, len: nat)

  predicate InMemory(mem: seq<Byte>, iov: seq<IoVec>) {
    forall i :: 0 <= i < |iov| ==> iov[i].base + iov[i].len <= |mem|
  }

  function Total(iov: seq<IoVec>): nat {
    if iov == [] then 0 else iov[0].len + Total(iov[1..])
  }

  /** The buffers' contents, one after the other. */
  function Gather(mem: seq<Byte>, iov: seq<IoVec>): (r: seq<Byte>)
    requires InMemory(mem, iov)
    ensures |r| == Total(iov)
    decreases |iov|
  {
    if iov == [] then []
    else
      assert forall i :: 0 <= i < |iov[1..]| ==> iov[1..][i] == iov[i + 1];
      mem[iov[0].base..iov[0].base + iov[0].len] + Gather(mem, iov[1..])
  }

  /** Data stored into the buffers in order, filling each before the next. */
  function Scatter(mem: seq<Byte>, iov: seq<IoVec>, data: seq<Byte>): (r: seq<Byte>)
    requires InMemory(mem, iov) && |data| <= Total(iov)
    ensures |r| == |mem|
    decreases |iov|
  {
    if iov == [] then mem
    else
      assert forall i :: 0 <= i < |iov[1..]| ==> iov[1..][i] == iov[i + 1];
      if |data| <= iov[0].len then Stored(mem, iov[0].base, data)
      else Scatter(Stored(mem, iov[0].base, data[..iov[0].len]), iov[1..], data[iov[0].len..])
  }

  /** `fd::write` does nothing for an empty buffer. */
  function FdWritten(s: seq<Byte>, pos: nat, data: seq<Byte>): seq<Byte> {
    if data == [] then s else Written(s, pos, data)
  }

  /** Byte j of buffer i comes after all bytes of the buffers before. */
  lemma {:induction false} GatherAt(mem: seq<Byte>, iov: seq<IoVec>, i: nat, j: nat)
    requires InMemory(mem, iov) && i < |iov| && j < iov[i].len
    ensures Total(iov[..i]) + j < Total(iov) && Gather(mem, iov)[Total(iov[..i]) + j] == mem[iov[i].base + j]
    decreases |iov|
  {
    forall k | 0 <= k < |iov[1..]| ensures iov[1..][k] == iov[k + 1] { }
    if i > 0 {
      GatherAt(mem, iov[1..], i - 1, j);
      assert iov[..i][1..] == iov[1..][..i - 1];
    }
  }

  predicate InBuffer(v: IoVec, a: nat) {
    v.base <= a < v.base + v.len
  }

  /** No byte is in two buffers. */
  ghost predicate Apart(iov: seq<IoVec>) {
    forall i, j, a :: 0 <= i < j < |iov| && InBuffer(iov[i], a) ==> !InBuffer(iov[j], a)
  }

  /** A scatter changes only what is in the buffers. */
  lemma {:induction false} ScatterKeeps(mem: seq<Byte>, iov: seq<IoVec>, data: seq<Byte>, a: nat)
    requires InMemory(mem, iov) && |data| <= Total(iov) && a < |mem|
    requires forall i :: 0 <= i < |iov| ==> !InBuffer(iov[i], a)
    ensures Scatter(mem, iov, data)[a] == mem[a]
    decreases |iov|
  {
    if iov != [] {
      forall i | 0 <= i < |iov[1..]| ensures iov[1..][i] == iov[i + 1] { }
      assert !InBuffer(iov[0], a);
      if |data| > iov[0].len {
        ScatterKeeps(Stored(mem, iov[0].base, data[..iov[0].len]), iov[1..], data[iov[0].len..], a);
      }
    }
  }

  /** What is scattered over buffers that do not overlap is gathered again. */
  lemma {:induction false} GatherUndoesScatter(mem: seq<Byte>, iov: seq<IoVec>, data: seq<Byte>)
    requires InMemory(mem, iov) && |data| <= Total(iov) && Apart(iov)
    ensures Gather(Scatter(mem, iov, data), iov)[..|data|] == data
    decreases |iov|
  {
    if iov != [] {
      var v, rest, after := iov[0], iov[1..], Scatter(mem, iov, data);
      forall i | 0 <= i < |rest| ensures rest[i] == iov[i + 1] { }
      if |data| <= v.len {
        assert after[v.base..v.base + v.len][..|data|] == data by { StoredHolds(mem, v.base, data); }
      } else {
        var head, tail := data[..v.len], data[v.len..];
        var mid := Stored(mem, v.base, head);
        StoredHolds(mem, v.base, head);
        GatherUndoesScatter(mid, rest, tail);
        forall a | v.base <= a < v.base + v.len
          ensures after[a] == mid[a]
        {
          assert InBuffer(iov[0], a);
          ScatterKeeps(mid, rest, tail, a);
        }
        assert after[v.base..v.base + v.len] == mid[v.base..v.base + v.len] == head;
        assert Gather(after, iov)[..|data|] == head + Gather(after, rest)[..|tail|];
      }
    }
  }

  lemma FdWrittenTwice(s: seq<Byte>, pos: nat, a: seq<Byte>, b: seq<Byte>)
    ensures FdWritten(FdWritten(s, pos, a), pos + |a|, b) == FdWritten(s, pos, a + b)
  {
    hide Written;
    if a == [] { assert a + b == b; }
    else if b == [] { assert a + b == a; }
    else { WrittenTwice(s, pos, a, b); }
  }

  /** Buffers of memory beyond the stored data stay. */
  lemma {:induction false} ScatterNothing(mem: seq<Byte>, iov: seq<IoVec>)
    requires InMemory(mem, iov)
    ensures Scatter(mem, iov, []) == mem
  {
    if iov != [] { assert Stored(mem, iov[0].base, []) == mem; }
  }

  /** The first buffer, then the others. */
  lemma {:induction false} ScatterFirst(mem: seq<Byte>, iov: seq<IoVec>, a: seq<Byte>, b: seq<Byte>)
    requires iov != [] && InMemory(mem, iov) && |a| == iov[0].len && |b| <= Total(iov[1..])
    ensures InMemory(Stored(mem, iov[0].base, a), iov[1..])
    ensures Scatter(mem, iov, a + b) == Scatter(Stored(mem, iov[0].base, a), iov[1..], b)
  {
    forall i | 0 <= i < |iov[1..]| ensures iov[1..][i] == iov[i + 1] { }
    if b == [] {
      assert a + b == a;
      ScatterNothing(Stored(mem, iov[0].base, a), iov[1..]);
    } else {
      assert (a + b)[..|a|] == a && (a + b)[|a|..] == b;
    }
  }

  // System calls. A null object is a descriptor that is not open.

  /** `fd::read`: an empty buffer is answered without asking the file. */
  method FdRead(obj: RamFileInterface?, mem: array<Byte>, base: nat, len: nat) returns (r: Outcome)
    requires obj != null ==> obj.Valid()
    requires base + len <= mem.Length
    modifies mem, if obj == null then {} else {obj}
    ensures obj == null ==> r == Err(EBADF) && mem[..] == old(mem[..])
    ensures obj != null ==> obj.Valid()
    ensures obj != null ==> r == Ok(|Chunk(obj.inner.data, old(obj.pos), len)|) && obj.pos == old(obj.pos) + r.value
    ensures obj != null ==> mem[..] == Stored(old(mem[..]), base, Chunk(obj.inner.data, old(obj.pos), len))
  {
    if obj == null { return Err(EBADF); }
    if len == 0 { return Ok(0); }
    var count := obj.Read(mem, base, len);
    r := Ok(count);
  }

  method FdWrite(obj: RamFileInterface?, buf: seq<Byte>) returns (r: Outcome)
    requires obj != null ==> obj.Valid() && obj.pos + |buf| <= ISIZE_MAX
    modifies if obj == null then {} else {obj, obj.inner}
    ensures obj == null ==> r == Err(EBADF)
    ensures obj != null ==> obj.Valid() && r == Ok(|buf|) && obj.pos == old(obj.pos) + |buf|
    ensures obj != null ==> obj.inner.data == FdWritten(old(obj.inner.data), old(obj.pos), buf)
    ensures obj != null && buf == [] ==> obj.inner.data == old(obj.inner.data)
  {
    if obj == null { return Err(EBADF); }
    if buf == [] { return Ok(0); }
    var count := obj.Write(buf);
    r := Ok(count);
  }

  /** One read, scattered over the buffers in order. */
  method SysReadv(obj: RamFileInterface?, mem: array<Byte>, iov: seq<IoVec>) returns (r: int)
    requires obj != null ==> obj.Valid()
    requires InMemory(mem[..], iov)
    modifies mem, if obj == null then {} else {obj}
    ensures obj != null ==> obj.Valid()
    ensures r == ReadvResult(obj != null, if obj == null then [] else obj.inner.data,
                             if obj == null then 0 else old(obj.pos), iov)
    ensures r < 0 || obj == null ==> mem[..] == old(mem[..]) && (obj != null ==> obj.pos == old(obj.pos))
    ensures r >= 0 && obj != null ==> r <= Total(iov) && obj.pos == old(obj.pos) + r
                                      && mem[..] == Scatter(old(mem[..]), iov,
                                                            Chunk(obj.inner.data, old(obj.pos), Total(iov)))
  {
    hide Chunk, Stored;
    if |iov| > IOV_MAX { return -EINVAL; }
    var readBytes := 0;
    ghost var s, start := if obj == null then [] else obj.inner.data, if obj == null then 0 else obj.pos;
    ghost var all := Chunk(s, start, Total(iov));
    assert iov[0..] == iov;
    for i := 0 to |iov|
      invariant readBytes >= 0 && InMemory(mem[..], iov[i..])
      invariant obj == null ==> i == readBytes == 0 && mem[..] == old(mem[..])
      invariant obj != null ==> obj.Valid() && obj.pos == start + readBytes
      invariant obj != null ==> readBytes + |Chunk(s, obj.pos, Total(iov[i..]))| == |all|
      invariant obj != null ==>
                  Scatter(mem[..], iov[i..], Chunk(s, obj.pos, Total(iov[i..])))
                  == Scatter(old(mem[..]), iov, all)
    {
      ghost var was, pos := mem[..], start + readBytes;
      var len := FdRead(obj, mem, iov[i].base, iov[i].len);
      if len.Err? { return -len.errno; }
      ghost var first := Chunk(s, pos, iov[i].len);
      assert iov[i..][1..] == iov[i + 1..];
      ChunkTwice(s, pos, iov[i].len, Total(iov[i + 1..]));
      readBytes := readBytes + len.value;
      if len.value < iov[i].len { return readBytes; }
      ScatterFirst(was, iov[i..], first, Chunk(s, pos + iov[i].len, Total(iov[i + 1..])));
    }
    ScatterNothing(mem[..], []);
    r := readBytes;
  }

  /** One write of the buffers' contents, one after the other. */
  method SysWritev(obj: RamFileInterface?, mem: array<Byte>, iov: seq<IoVec>) returns (r: int)
    requires InMemory(mem[..], iov)
    requires obj != null ==> obj.Valid() && obj.pos + Total(iov) <= ISIZE_MAX
    modifies if obj == null then {} else {obj, obj.inner}
    ensures r == WritevResult(obj != null, iov)
    ensures obj != null ==> obj.Valid()
    ensures obj != null && r < 0 ==> obj.pos == old(obj.pos) && obj.inner.data == old(obj.inner.data)
    ensures obj != null && r >= 0 ==> obj.pos == old(obj.pos) + r
                                      && obj.inner.data == FdWritten(old(obj.inner.data), old(obj.pos),
                                                                     Gather(mem[..], iov))
  {
    hide FdWritten, Gather, Total;
    if |iov| > IOV_MAX { return -EINVAL; }
    var writtenBytes := 0;
    ghost var bytes := mem[..];
    assert iov[0..] == iov;
    for i := 0 to |iov|
      invariant writtenBytes >= 0 && InMemory(bytes, iov[i..]) && mem[..] == bytes
      invariant obj == null ==> i == writtenBytes == 0
      invariant obj != null ==>
                  obj.Valid() && obj.pos == old(obj.pos) + writtenBytes
                  && writtenBytes + Total(iov[i..]) == Total(iov)
      invariant obj != null ==>
                  FdWritten(obj.inner.data, obj.pos, Gather(bytes, iov[i..]))
                  == FdWritten(old(obj.inner.data), old(obj.pos), Gather(bytes, iov))
    {
      var buf := mem[iov[i].base..iov[i].base + iov[i].len];
      GatherFirst(bytes, iov, i);
      if obj != null { FdWrittenTwice(obj.inner.data, obj.pos, buf, Gather(bytes, iov[i + 1..])); }
      var len := FdWrite(obj, buf);
      if len.Err? { return -len.errno; }
      writtenBytes := writtenBytes + len.value;
      if len.value < iov[i].len { return writtenBytes; }
    }
    if obj != null { NothingWritten(obj.inner.data, obj.pos); }
    NothingGathered(bytes);
    assert iov[|iov|..] == [];
    r := writtenBytes;
  }

  lemma {:induction false} GatherFirst(mem: seq<Byte>, iov: seq<IoVec>, i: nat)
    requires i < |iov| && InMemory(mem, iov[i..])
    ensures iov[i].base + iov[i].len <= |mem| && InMemory(mem, iov[i + 1..])
    ensures Total(iov[i..]) == iov[i].len + Total(iov[i + 1..])
    ensures Gather(mem, iov[i..]) == mem[iov[i].base..iov[i].base + iov[i].len] + Gather(mem, iov[i + 1..])
  {
    hide Gather, Total, InMemory;
    GatherHead(mem, iov[i..]);
    assert iov[i..][0] == iov[i] && iov[i..][1..] == iov[i + 1..];
  }

  lemma {:induction false} GatherHead(mem: seq<Byte>, iov: seq<IoVec>)
    requires iov != [] && InMemory(mem, iov)
    ensures iov[0].base + iov[0].len <= |mem| && InMemory(mem, iov[1..])
    ensures Total(iov) == iov[0].len + Total(iov[1..])
    ensures Gather(mem, iov) == mem[iov[0].base..iov[0].base + iov[0].len] + Gather(mem, iov[1..])
  {
    var rest := iov[1..];
    forall j | 0 <= j < |rest| ensures rest[j].base + rest[j].len <= |mem| { assert rest[j] == iov[j + 1]; }
  }

  lemma NothingGathered(mem: seq<Byte>)
    ensures Gather(mem, []) == [] && Total([]) == 0
  {
  }

  lemma NothingWritten(s: seq<Byte>, pos: nat)
    ensures FdWritten(s, pos, []) == s
  {
  }

  // Against a single call on the concatenation

  function ReadvResult(open: bool, s: seq<Byte>, pos: nat, iov: seq<IoVec>): int {
    if |iov| > IOV_MAX then -EINVAL else if iov == [] then 0 else if !open then -EBADF else |Chunk(s, pos, Total(iov))|
  }

  function ReadResult(open: bool, s: seq<Byte>, pos: nat, n: nat): int {
    if !open then -EBADF else |Chunk(s, pos, n)|
  }

  function WritevResult(open: bool, iov: seq<IoVec>): int {
    if |iov| > IOV_MAX then -EINVAL else if iov == [] then 0 else if !open then -EBADF else Total(iov)
  }

  function WriteResult(open: bool, n: nat): int {
    if !open then -EBADF else n
  }

  /** A vectored call returns what the single call does, exactly if there are not too many buffers and it is not the
      call without buffers on a descriptor that is not open, which returns 0. */
  lemma VectoredIsSingle(open: bool, s: seq<Byte>, pos: nat, iov: seq<IoVec>)
    ensures ReadvResult(open, s, pos, iov) == ReadResult(open, s, pos, Total(iov))
            <==> |iov| <= IOV_MAX && (open || iov != [])
    ensures WritevResult(open, iov) == WriteResult(open, Total(iov)) <==> |iov| <= IOV_MAX && (open || iov != [])
    ensures |iov| > IOV_MAX ==> ReadvResult(open, s, pos, iov) == WritevResult(open, iov) == -EINVAL
  {
  }

  lemma NoBuffersOnClosedDescriptor()
    ensures ReadvResult(false, [], 0, []) == 0 && ReadResult(false, [], 0, 0) == -EBADF
  {
  }
}

/** What users of a RAM file rely on: where seeks go, what reads yield, and how long the file is, over any history. */
module RamFileLaws {
  import opened Bytes
  import opened Numbers
  import opened RamFile

  /** What a read through a handle yields. */
  function Yields(f: File, h: nat, n: nat): seq<Byte>
    requires h in f.cursors
  {
    Chunk(f.bytes, f.cursors[h], n)
  }

  /** A read yields the bytes from the position on, as many as asked for and there are; none at or beyond the end. */
  lemma ChunkIs(s: seq<Byte>, pos: nat, n: nat)
    ensures |Chunk(s, pos, n)| == Min(n, Max(0, |s| - pos))
    ensures forall i :: 0 <= i < |Chunk(s, pos, n)| ==> Chunk(s, pos, n)[i] == s[pos + i]
  {
  }

  // Seeking

  /** Where an offset counts from. */
  function Origin(f: File, h: nat, whence: Whence): int
    requires h in f.cursors
  {
    match whence
    case Cur => f.cursors[h]
    case End => |f.bytes|
    case _ => 0
  }

  function SeekResult(f: File, h: nat, offset: int, whence: Whence): Outcome
    requires h in f.cursors
  {
    Target(|f.bytes|, f.cursors[h], offset, whence)
  }

  /** A seek fails exactly if its target is negative or beyond isize, or it does not know where to count from, and then
      it changes nothing; otherwise it goes to its target, and answers it. */
  lemma SeekGoesToTarget(f: File, h: nat, offset: int, whence: Whence)
    requires Bounded(f) && Enabled(f, Seek(h, offset, whence))
    ensures var r, target := SeekResult(f, h, offset, whence), Origin(f, h, whence) + offset;
            var f' := Apply(f, Seek(h, offset, whence));
            && (r.Err? <==> whence.Other? || target < 0 || target > ISIZE_MAX)
            && (r.Err? ==> f' == f && r.errno == if !whence.Other? && target > ISIZE_MAX then EOVERFLOW else EINVAL)
            && (r.Ok? ==> r.value == target && f'.cursors == f.cursors[h := target]
                          && |f'.bytes| == Max(|f.bytes|, target)
                          && forall i: nat :: ByteAt(f'.bytes, i) == ByteAt(f.bytes, i))
  {
  }

  /** Asking for the position: the answer is the cursor, and nothing changes, exactly if the cursor is not beyond the
      end; if it is, the file grows to it. */
  lemma SeekNowhere(f: File, h: nat)
    requires Bounded(f) && h in f.cursors
    ensures SeekResult(f, h, 0, Cur) == Ok(f.cursors[h])
    ensures Apply(f, Seek(h, 0, Cur)) == f <==> f.cursors[h] <= |f.bytes|
  {
    assert f.cursors[h := f.cursors[h]] == f.cursors;
    if f.cursors[h] <= |f.bytes| { assert Resized(f.bytes, |f.bytes|) == f.bytes; }
  }

  /** Two steps from where one is end where one step of the sum does; the file is the same unless the first one went
      further and made it longer. */
  lemma SeekTwice(f: File, h: nat, a: int, b: int)
    requires Bounded(f) && Enabled(f, Seek(h, a, Cur)) && SeekResult(f, h, a, Cur).Ok?
    requires var f1 := Apply(f, Seek(h, a, Cur)); Enabled(f1, Seek(h, b, Cur)) && SeekResult(f1, h, b, Cur).Ok?
    ensures Enabled(f, Seek(h, a + b, Cur)) && SeekResult(f, h, a + b, Cur).Ok?
    ensures var f2, once := Apply(Apply(f, Seek(h, a, Cur)), Seek(h, b, Cur)), Apply(f, Seek(h, a + b, Cur));
            f2.cursors == once.cursors && (b >= 0 || f.cursors[h] + a <= |f.bytes| ==> f2 == once)
  {
    var f1 := Apply(f, Seek(h, a, Cur));
    var f2, once := Apply(f1, Seek(h, b, Cur)), Apply(f, Seek(h, a + b, Cur));
    SeekGoesToTarget(f, h, a, Cur);
    SeekGoesToTarget(f1, h, b, Cur) by { LengthsOf(f, Seek(h, a, Cur)); }
    SeekGoesToTarget(f, h, a + b, Cur);
    assert f2.cursors == once.cursors;
    if b >= 0 || f.cursors[h] + a <= |f.bytes| { SameBytes(f2.bytes, once.bytes); }
  }

  lemma SameBytes(a: seq<Byte>, b: seq<Byte>)
    requires |a| == |b| && forall i: nat :: ByteAt(a, i) == ByteAt(b, i)
    ensures a == b
  {
    forall i | 0 <= i < |a| ensures a[i] == b[i] { assert ByteAt(a, i) == ByteAt(b, i); }
  }

  /** Seeking back from the end, then reading, yields the tail of the file. */
  lemma ReadTail(f: File, h: nat, n: nat)
    requires Bounded(f) && h in f.cursors && n <= |f.bytes|
    ensures Enabled(f, Seek(h, 0 - n, End)) && SeekResult(f, h, 0 - n, End) == Ok(|f.bytes| - n)
    ensures var f1 := Apply(f, Seek(h, 0 - n, End));
            f1.bytes == f.bytes && Yields(f1, h, n) == f.bytes[|f.bytes| - n..]
  {
    SeekGoesToTarget(f, h, 0 - n, End);
    SameBytes(Apply(f, Seek(h, 0 - n, End)).bytes, f.bytes);
  }

  // Reading and writing in turn

  /** Two reads in turn are one: the same bytes, and the same file afterwards. */
  lemma ReadTwice(f: File, h: nat, n: nat, m: nat)
    requires h in f.cursors
    ensures var f1 := Apply(f, Read(h, n));
            && f1.bytes == f.bytes && Yields(f, h, n) + Yields(f1, h, m) == Yields(f, h, n + m)
            && Apply(f1, Read(h, m)) == Apply(f, Read(h, n + m))
  {
    ChunkTwice(f.bytes, f.cursors[h], n, m);
    var f1 := Apply(f, Read(h, n));
    assert Yields(f, h, n) + Yields(f1, h, m) == Yields(f, h, n + m);
    assert Apply(f1, Read(h, m)).cursors == Apply(f, Read(h, n + m)).cursors;
  }

  /** Two writes in turn are one. */
  lemma WriteTwice(f: File, h: nat, a: seq<Byte>, b: seq<Byte>)
    requires Enabled(f, Write(h, a + b))
    ensures Apply(Apply(f, Write(h, a)), Write(h, b)) == Apply(f, Write(h, a + b))
  {
    hide Written;
    WrittenTwice(f.bytes, f.cursors[h], a, b);
    assert Apply(Apply(f, Write(h, a)), Write(h, b)).cursors == Apply(f, Write(h, a + b)).cursors;
  }

  /** What was written is read after going back by its length, and the handle is where it was after the write. */
  lemma WriteBackRead(f: File, h: nat, data: seq<Byte>)
    requires Bounded(f) && Enabled(f, Write(h, data))
    ensures var f1 := Apply(f, Write(h, data));
            && Enabled(f1, Seek(h, -|data|, Cur)) && SeekResult(f1, h, -|data|, Cur) == Ok(f.cursors[h])
            && var f2 := Apply(f1, Seek(h, -|data|, Cur));
               Yields(f2, h, |data|) == data && Apply(f2, Read(h, |data|)) == f1
  {
    var f1 := Apply(f, Write(h, data));
    LengthsOf(f, Write(h, data));
    ReadBack(f.bytes, f.cursors[h], data);
    hide Written;
    SeekGoesToTarget(f1, h, -|data|, Cur);
    var f2 := Apply(f1, Seek(h, -|data|, Cur));
    WrittenReaches(f.bytes, f.cursors[h], data);
    SameBytes(f2.bytes, f1.bytes);
    assert Apply(f2, Read(h, |data|)).cursors == f1.cursors;
  }

  lemma WrittenReaches(s: seq<Byte>, pos: nat, data: seq<Byte>)
    ensures |Written(s, pos, data)| == Max(|s|, pos + |data|)
  {
  }

  /** A new handle reads from the beginning, and leaves the other handles alone. */
  lemma OpenReadsFromStart(f: File, h: nat, n: nat)
    requires Enabled(f, Open(h))
    ensures var f1 := Apply(f, Open(h));
            && Yields(f1, h, n) == f.bytes[..Min(n, |f.bytes|)] && f1.bytes == f.bytes
            && f1.cursors.Keys == f.cursors.Keys + {h} && forall g :: g in f.cursors ==> f1.cursors[g] == f.cursors[g]
  {
  }

  // The length of a file over a history

  /** The operation makes position i part of the file. */
  predicate Extends(f: File, op: Op, i: nat)
    requires Enabled(f, op)
  {
    match op
    case Write(h, data) => i < f.cursors[h] + |data|
    case Seek(h, offset, whence) =>
      SeekResult(f, h, offset, whence).Ok? && i < Origin(f, h, whence) + offset
    case Truncate(n) => i < n
    case _ => false
  }

  /** The operation decides whether position i is part of the file. */
  predicate Settles(f: File, op: Op, i: nat)
    requires Enabled(f, op)
  {
    op.Truncate? || Extends(f, op, i)
  }

  lemma StepLength(f: File, op: Op, i: nat)
    requires Bounded(f) && Enabled(f, op)
    ensures i < |Apply(f, op).bytes| <==> if Settles(f, op, i) then Extends(f, op, i) else i < |f.bytes|
  {
    if op.Seek? { SeekGoesToTarget(f, op.handle, op.offset, op.whence); }
  }

  lemma {:induction false} UnsettledStays(f: File, ops: seq<Op>, i: nat)
    requires Bounded(f) && Runs(f, ops) && forall k :: 0 <= k < |ops| ==> !Settles(Before(f, ops, k), ops[k], i)
    ensures i < |After(f, ops).bytes| <==> i < |f.bytes|
    decreases |ops|
  {
    hide Apply, Enabled, Settles, Bounded;
    if ops != [] {
      var f1, rest := Apply(f, ops[0]), ops[1..];
      assert !Settles(Before(f, ops, 0), ops[0], i);
      StepLength(f, ops[0], i);
      LengthsOf(f, ops[0]);
      forall k | 0 <= k < |rest|
        ensures !Settles(Before(f1, rest, k), rest[k], i)
      {
        assert Before(f1, rest, k) == Before(f, ops, k + 1);
      }
      UnsettledStays(f1, rest, i);
    }
  }

  /** Over any history, through any handles, position i is part of the file exactly as the last operation that decided
      about it says: a write or a seek beyond it, or a truncation. */
  lemma {:induction false} LastOneSettles(f: File, ops: seq<Op>, i: nat, k: nat)
    requires Bounded(f) && Runs(f, ops) && k < |ops| && Settles(Before(f, ops, k), ops[k], i)
    requires forall j :: k < j < |ops| ==> !Settles(Before(f, ops, j), ops[j], i)
    ensures i < |After(f, ops).bytes| <==> Extends(Before(f, ops, k), ops[k], i)
    decreases |ops|
  {
    hide Apply, Settles, Extends, Bounded;
    var f1, rest := Apply(f, ops[0]), ops[1..];
    LengthsOf(f, ops[0]);
    forall j | 0 <= j < |rest| && k <= j
      ensures !Settles(Before(f1, rest, j), rest[j], i)
    {
      assert Before(f1, rest, j) == Before(f, ops, j + 1);
    }
    if k == 0 {
      StepLength(f, ops[0], i);
      UnsettledStays(f1, rest, i);
    } else {
      LastOneSettles(f1, rest, i, k - 1);
    }
  }
}

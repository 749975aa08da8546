/** RAM files. The reference form is a byte string with a cursor for each handle, each operation given byte by byte;
    the running form resizes and overwrites a vector shared by all handles. */
module RamFile {
  import opened Bytes
  import opened Numbers

  const ISIZE_MAX: int := 0x7fff_ffff_ffff_ffff

  datatype Whence = Set | Cur | End | Other

  datatype Outcome = Ok(value: int) | Err(errno: int)

  // Reference form

  /** The bytes of a file of length n. */
  function Tabulate(n: nat, at: int -> Byte): (s: seq<Byte>)
    ensures |s| == n && forall i :: 0 <= i < n ==> s[i] == at(i)
  {
    seq<Byte>(n, i => at(i))
  }

  /** Byte i, and 0 beyond the end. */
  function ByteAt(s: seq<Byte>, i: int): Byte {
    if 0 <= i < |s| then s[i] else 0
  }

  function Resized(s: seq<Byte>, n: nat): seq<Byte> {
    Tabulate(n, i => ByteAt(s, i))
  }

  /** Data written at a position; a gap before it reads as zeros. */
  function Written(s: seq<Byte>, pos: nat, data: seq<Byte>): seq<Byte> {
    Tabulate(Max(|s|, pos + |data|), i => if pos <= i < pos + |data| then data[i - pos] else ByteAt(s, i))
  }

  /** Up to n bytes from a position. */
  function Chunk(s: seq<Byte>, pos: nat, n: nat): (r: seq<Byte>)
    ensures |r| <= n && (|r| < n ==> pos + |r| >= |s|)
  {
    if pos >= |s| then [] else if pos + n <= |s| then s[pos..pos + n] else s[pos..]
  }

  /** Where a seek goes, computed in isize. */
  function Target(len: nat, pos: nat, offset: int, whence: Whence): Outcome {
    match whence
    case Set => if offset < 0 then Err(EINVAL) else Ok(offset)
    case Cur =>
      if pos + offset > ISIZE_MAX then Err(EOVERFLOW) else if pos + offset < 0 then Err(EINVAL) else Ok(pos + offset)
    case End =>
      if len + offset > ISIZE_MAX then Err(EOVERFLOW) else if len + offset < 0 then Err(EINVAL) else Ok(len + offset)
    case Other => Err(EINVAL)
  }

  datatype File = File(bytes: seq<Byte>, cursors: map<nat, nat>)

  datatype Op =
    | Open(handle: nat)
    | Read(handle: nat, n: nat)
    | Write(handle: nat, data: seq<Byte>)
    | Seek(handle: nat, offset: int, whence: Whence)
    | Truncate(size: nat)

  predicate Enabled(f: File, op: Op) {
    match op
    case Open(h) => h !in f.cursors
    case Read(h, _) => h in f.cursors
    case Write(h, data) => h in f.cursors && f.cursors[h] + |data| <= ISIZE_MAX
    case Seek(h, offset, _) => h in f.cursors && -ISIZE_MAX - 1 <= offset <= ISIZE_MAX
    case Truncate(n) => n <= ISIZE_MAX
  }

  function Apply(f: File, op: Op): File
    requires Enabled(f, op)
  {
    match op
    case Open(h) => f.(cursors := f.cursors[h := 0])
    case Read(h, n) => f.(cursors := f.cursors[h := f.cursors[h] + |Chunk(f.bytes, f.cursors[h], n)|])
    case Write(h, data) =>
      File(Written(f.bytes, f.cursors[h], data), f.cursors[h := f.cursors[h] + |data|])
    case Seek(h, offset, whence) =>
      (match Target(|f.bytes|, f.cursors[h], offset, whence)
       case Err(_) => f
       case Ok(p) => if p < 0 then f else File(Resized(f.bytes, Max(|f.bytes|, p)), f.cursors[h := p]))
    case Truncate(n) => f.(bytes := Resized(f.bytes, n))
  }

  // Facts about the reference form

  lemma WrittenTwice(s: seq<Byte>, pos: nat, a: seq<Byte>, b: seq<Byte>)
    ensures Written(Written(s, pos, a), pos + |a|, b) == Written(s, pos, a + b)
  {
    var once, twice, both := Written(s, pos, a), Written(Written(s, pos, a), pos + |a|, b), Written(s, pos, a + b);
    assert |twice| == |both|;
    forall i | 0 <= i < |both|
      ensures twice[i] == both[i]
    {
      if i < pos + |a| { assert twice[i] == once[i]; }
    }
  }

  /** A read of n + m bytes is a read of n bytes, followed, if that was not short, by one of m. */
  lemma ChunkTwice(s: seq<Byte>, pos: nat, n: nat, m: nat)
    ensures |Chunk(s, pos, n)| == n ==> Chunk(s, pos, n + m) == Chunk(s, pos, n) + Chunk(s, pos + n, m)
    ensures |Chunk(s, pos, n)| < n ==> Chunk(s, pos, n + m) == Chunk(s, pos, n)
  {
  }

  /** What was written is read back; other bytes below the old end are as before, and a gap is zeros. */
  lemma ReadBack(s: seq<Byte>, pos: nat, data: seq<Byte>)
    ensures Chunk(Written(s, pos, data), pos, |data|) == data
    ensures forall i :: 0 <= i < |s| && !(pos <= i < pos + |data|) ==> Written(s, pos, data)[i] == s[i]
    ensures forall i :: |s| <= i < pos && data != [] ==> i < |Written(s, pos, data)| && Written(s, pos, data)[i] == 0
  {
  }

  // Histories

  /** Each operation can be done after those before it. */
  ghost predicate Runs(f: File, ops: seq<Op>)
    decreases |ops|
  {
    ops == [] || (Enabled(f, ops[0]) && Runs(Apply(f, ops[0]), ops[1..]))
  }

  function After(f: File, ops: seq<Op>): File
    requires Runs(f, ops)
    decreases |ops|
  {
    if ops == [] then f else After(Apply(f, ops[0]), ops[1..])
  }

  /** Cursors and lengths stay within isize, so no position ever overflows. */
  ghost predicate Bounded(f: File) {
    |f.bytes| <= ISIZE_MAX && forall h :: h in f.cursors ==> f.cursors[h] <= ISIZE_MAX
  }

  lemma {:induction false} RunsStayBounded(f: File, ops: seq<Op>)
    requires Bounded(f) && Runs(f, ops)
    ensures Bounded(After(f, ops))
    decreases |ops|
  {
    hide Written, Resized;
    if ops != [] {
      LengthsOf(f, ops[0]);
      RunsStayBounded(Apply(f, ops[0]), ops[1..]);
    }
  }

  lemma LengthsOf(f: File, op: Op)
    requires Bounded(f) && Enabled(f, op)
    ensures Bounded(Apply(f, op))
  {
  }

  predicate Uses(op: Op, h: nat) {
    !op.Truncate? && op.handle == h
  }

  /** A cursor moves only by operations through its own handle, whatever the others do. */
  lemma {:induction false} CursorsAreIndependent(f: File, ops: seq<Op>, h: nat)
    requires Runs(f, ops) && h in f.cursors && forall k :: 0 <= k < |ops| ==> !Uses(ops[k], h)
    ensures h in After(f, ops).cursors && After(f, ops).cursors[h] == f.cursors[h]
    decreases |ops|
  {
    hide Written, Resized, Chunk;
    if ops != [] {
      assert !Uses(ops[0], h);
      CursorsAreIndependent(Apply(f, ops[0]), ops[1..], h);
    }
  }

  // The bytes of a file over a history

  /** The file before operation k. */
  function Before(f: File, ops: seq<Op>, k: nat): (r: File)
    requires Runs(f, ops) && k <= |ops|
    ensures k < |ops| ==> Enabled(r, ops[k])
    decreases |ops|
  {
    if k == 0 then f else Before(Apply(f, ops[0]), ops[1..], k - 1)
  }

  /** The operation writes position i, or cuts it off. */
  predicate Touches(f: File, op: Op, i: nat)
    requires Enabled(f, op)
  {
    match op
    case Write(h, data) => f.cursors[h] <= i < f.cursors[h] + |data|
    case Truncate(n) => n <= i
    case _ => false
  }

  lemma StepByte(f: File, op: Op, i: nat)
    requires Enabled(f, op)
    ensures !Touches(f, op, i) ==> ByteAt(Apply(f, op).bytes, i) == ByteAt(f.bytes, i)
    ensures Touches(f, op, i)
            ==> ByteAt(Apply(f, op).bytes, i) == if op.Write? then op.data[i - f.cursors[op.handle]] else 0
  {
  }

  /** A byte that no operation writes or cuts off is the initial one, or 0 if there was none. */
  lemma {:induction false} UntouchedStays(f: File, ops: seq<Op>, i: nat)
    requires Runs(f, ops) && forall k :: 0 <= k < |ops| ==> !Touches(Before(f, ops, k), ops[k], i)
    ensures ByteAt(After(f, ops).bytes, i) == ByteAt(f.bytes, i)
    decreases |ops|
  {
    hide Apply, Enabled, Touches;
    if ops != [] {
      var f1, rest := Apply(f, ops[0]), ops[1..];
      assert !Touches(Before(f, ops, 0), ops[0], i);
      StepByte(f, ops[0], i);
      forall k | 0 <= k < |rest|
        ensures !Touches(Before(f1, rest, k), rest[k], i)
      {
        assert Before(f1, rest, k) == Before(f, ops, k + 1);
      }
      UntouchedStays(f1, rest, i);
    }
  }

  /** Over any history, through any handles, each byte is decided by the last operation that wrote or cut off its
      position: the byte written, or 0. */
  lemma {:induction false} LastWriterWins(f: File, ops: seq<Op>, i: nat, k: nat)
    requires Runs(f, ops) && k < |ops| && Touches(Before(f, ops, k), ops[k], i)
    requires forall j :: k < j < |ops| ==> !Touches(Before(f, ops, j), ops[j], i)
    ensures ByteAt(After(f, ops).bytes, i)
         == if ops[k].Write? then ops[k].data[i - Before(f, ops, k).cursors[ops[k].handle]] else 0
    decreases |ops|
  {
    hide Apply, Touches;
    var f1, rest := Apply(f, ops[0]), ops[1..];
    forall j | 0 <= j < |rest| && k <= j
      ensures !Touches(Before(f1, rest, j), rest[j], i)
    {
      assert Before(f1, rest, j) == Before(f, ops, j + 1);
    }
    if k == 0 {
      StepByte(f, ops[0], i);
      UntouchedStays(f1, rest, i);
    } else {
      LastWriterWins(f1, rest, i, k - 1);
    }
  }
}

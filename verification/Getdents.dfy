/** Directory listings of the in-memory file system: packed `Dirent64` records that a caller walks by `d_reclen`. */
module Getdents {
  import opened Bytes
  import opened Numbers
  import opened Options

  const NAME_OFFSET: nat := 19     // of d_name in Dirent64
  const DIRENT_SIZE: nat := 24     // of Dirent64, alignment 8
  const USIZE: nat := 0x1_0000_0000_0000_0000

  datatype Result = Ok(count: nat) | Err(errno: int)

  function DirentLen(name: seq<Byte>): nat {
    NAME_OFFSET + |name| + 1
  }

  function RecLen(name: seq<Byte>): (r: nat)
    ensures r % 8 == 0 && DIRENT_SIZE <= r && DirentLen(name) <= r
  {
    AlignUp(DirentLen(name), 8)
  }

  /** Names a listing can hold: no NUL inside, and a record length that fits 16 bits. */
  predicate Listable(name: seq<Byte>) {
    0 !in name && RecLen(name) < 0x10000
  }

  function LittleEndian(lo: Byte, hi: Byte): nat {
    (lo as int) + 256 * (hi as int)
  }

  /** A record of exactly its stated length: inode 1, offset 0, type unknown, the name and its NUL. */
  predicate IsRecord(r: seq<Byte>, name: seq<Byte>) {
    && |r| == RecLen(name)
    && r[..8] == [1, 0, 0, 0, 0, 0, 0, 0]
    && r[8..16] == [0, 0, 0, 0, 0, 0, 0, 0]
    && LittleEndian(r[16], r[17]) == |r|
    && r[18] == 0
    && r[NAME_OFFSET..NAME_OFFSET + |name|] == name
    && r[NAME_OFFSET + |name|] == 0
  }

  /** One record for each name, back to back. */
  predicate Listing(bytes: seq<Byte>, names: seq<seq<Byte>>)
    decreases |names|
  {
    if names == [] then bytes == []
    else
      var n := RecLen(names[0]);
      n <= |bytes| && IsRecord(bytes[..n], names[0]) && Listing(bytes[n..], names[1..])
  }

  // What a caller reads back

  /** The bytes before the first NUL. */
  function CString(s: seq<Byte>): Option<seq<Byte>> {
    if s == [] then None
    else if s[0] == 0 then Some([])
    else match CString(s[1..]) case None => None case Some(rest) => Some([s[0]] + rest)
  }

  /** Walks a listing by record length. None unless it consists of whole, aligned records. */
  function Decode(bytes: seq<Byte>): Option<seq<seq<Byte>>> {
    if bytes == [] then Some([])
    else if |bytes| < DIRENT_SIZE then None
    else
      var n := LittleEndian(bytes[16], bytes[17]);
      if n < DIRENT_SIZE || n % 8 != 0 || n > |bytes| then None
      else
        match CString(bytes[NAME_OFFSET..n])
        case None => None
        case Some(name) =>
          match Decode(bytes[n..])
          case None => None
          case Some(names) => Some([name] + names)
  }

  lemma {:induction false} CStringReads(s: seq<Byte>, name: seq<Byte>)
    requires 0 !in name && |name| < |s| && s[..|name|] == name && s[|name|] == 0
    ensures CString(s) == Some(name)
  {
    if name != [] {
      assert s[0] == name[0] && name[0] in name;
      CStringReads(s[1..], name[1..]);
      assert [s[0]] + name[1..] == name;
    }
  }

  lemma {:induction false} DecodeReads(bytes: seq<Byte>, names: seq<seq<Byte>>)
    requires Listing(bytes, names) && forall i :: 0 <= i < |names| ==> 0 !in names[i]
    ensures Decode(bytes) == Some(names)
    decreases |names|
  {
    if names != [] {
      var n, name := RecLen(names[0]), names[0];
      var r := bytes[..n];
      assert r[16] == bytes[16] && r[17] == bytes[17];
      assert bytes[NAME_OFFSET..n][..|name|] == r[NAME_OFFSET..NAME_OFFSET + |name|];
      CStringReads(bytes[NAME_OFFSET..n], name);
      DecodeReads(bytes[n..], names[1..]);
      assert [name] + names[1..] == names;
    }
  }

  lemma {:induction false} ListingAppend(bytes: seq<Byte>, names: seq<seq<Byte>>, r: seq<Byte>, name: seq<Byte>)
    requires Listing(bytes, names) && IsRecord(r, name)
    ensures Listing(bytes + r, names + [name])
    decreases |names|
  {
    hide IsRecord;
    if names == [] {
      assert bytes + r == r && names + [name] == [name];
      RecordLength(r, name);
      assert r[..RecLen(name)] == r;
    } else {
      var n := RecLen(names[0]);
      ListingAppend(bytes[n..], names[1..], r, name);
      assert (bytes + r)[..n] == bytes[..n] && (bytes + r)[n..] == bytes[n..] + r;
      assert (names + [name])[1..] == names[1..] + [name];
    }
  }

  lemma RecordLength(r: seq<Byte>, name: seq<Byte>)
    requires IsRecord(r, name)
    ensures |r| == RecLen(name)
  {
  }

  // One call

  /** How many records of these names fit. */
  function Fitting(names: seq<seq<Byte>>, space: nat): (k: nat)
    ensures k <= |names|
    decreases |names|
  {
    if names == [] || RecLen(names[0]) > space then 0 else 1 + Fitting(names[1..], space - RecLen(names[0]))
  }

  /** The space the records of these names take. */
  function Space(names: seq<seq<Byte>>): nat {
    if names == [] then 0 else Space(names[..|names| - 1]) + RecLen(names[|names| - 1])
  }

  /** As many as fit are those that fit together, and one more does not. */
  lemma {:induction false} FittingIsMost(names: seq<seq<Byte>>, space: nat)
    ensures var k := Fitting(names, space);
            Space(names[..k]) <= space && (k < |names| ==> Space(names[..k + 1]) > space)
    decreases |names|
  {
    hide RecLen;
    if names != [] {
      var n, rest := RecLen(names[0]), names[1..];
      if n <= space {
        FittingIsMost(rest, space - n);
        var k := Fitting(rest, space - n);
        SpaceFirst(names[..k + 1]);
        assert names[..k + 1][1..] == rest[..k];
        if k < |rest| {
          SpaceFirst(names[..k + 2]);
          assert names[..k + 2][1..] == rest[..k + 1];
        }
      } else {
        assert names[..1] == [names[0]];
        SpaceFirst(names[..1]);
      }
    }
  }

  lemma {:induction false} SpaceFirst(names: seq<seq<Byte>>)
    requires names != []
    ensures Space(names) == RecLen(names[0]) + Space(names[1..])
    decreases |names|
  {
    hide RecLen;
    var n := |names| - 1;
    if n > 0 {
      SpaceFirst(names[..n]);
      assert names[..n][1..] == names[1..][..n - 1];
    }
  }

  /** A call, as the caller sees it: buffer size, bytes returned, result, and the read position before and after. */
  datatype Call = Call(size: nat, bytes: seq<Byte>, result: Result, before: nat, after: nat)

  /** What one call on a directory promises. */
  ghost predicate Answers(keys: seq<seq<Byte>>, c: Call) {
    if c.before >= |keys| then c.result == Ok(0) && c.bytes == [] && c.after == c.before
    else if RecLen(keys[c.before]) > c.size then c.result == Err(EINVAL) && c.bytes == [] && c.after == c.before
    else
      && c.after == c.before + Fitting(keys[c.before..], c.size)
      && c.before < c.after <= |keys|
      && c.result == Ok(|c.bytes|) && 0 < |c.bytes| <= c.size && |c.bytes| % 8 == 0
      && Listing(c.bytes, keys[c.before..c.after])
  }

  class MemDirectoryInterface {
    const keys: seq<seq<Byte>>
    var readIdx: nat

    constructor (names: seq<seq<Byte>>)
      ensures keys == names && readIdx == 0
    {
      keys, readIdx := names, 0;
    }

    /** Fills the buffer with as many records as fit. `padding` is what lies in a `Dirent64` beyond its fields. */
    method Getdents(buf: array<Byte>, padding: seq<Byte>) returns (r: Result)
      requires |padding| == DIRENT_SIZE - NAME_OFFSET && forall i :: 0 <= i < |keys| ==> Listable(keys[i])
      modifies this, buf
      ensures r.Ok? ==> r.count <= buf.Length && buf[r.count..] == old(buf[r.count..])
      ensures r.Err? ==> buf[..] == old(buf[..])
      ensures Answers(keys, Call(buf.Length, if r.Ok? then buf[..r.count] else [], r, old(readIdx), readIdx))
    {
      hide IsRecord, Listing, Listable, RecLen, AlignUp, Fitting;
      var bufOffset: nat := 0;
      ghost var start := readIdx;
      if readIdx >= |keys| { return Ok(0); }
      EmptyListing();
      assert buf[..0] == [] && keys[start..start] == [];
      while readIdx < |keys|
        invariant start <= readIdx <= |keys| && bufOffset <= buf.Length && bufOffset % 8 == 0
        invariant bufOffset == 0 <==> readIdx == start
        invariant Listing(buf[..bufOffset], keys[start..readIdx])
        invariant Fitting(keys[start..], buf.Length)
                  == readIdx - start + Fitting(keys[readIdx..], buf.Length - bufOffset)
        invariant buf[bufOffset..] == old(buf[..])[bufOffset..] && (bufOffset == 0 ==> buf[..] == old(buf[..]))
        decreases |keys| - readIdx
      {
        var name := keys[readIdx];
        var direntLen := NAME_OFFSET + |name| + 1;
        var nextDirent := AlignUp(bufOffset + direntLen, 8);
        NextRecord(bufOffset, name);
        FirstFits(keys, readIdx, buf.Length - bufOffset);
        if nextDirent > buf.Length {
          if bufOffset == 0 { return Err(EINVAL); }
          break;
        }
        assert keys[start..readIdx + 1] == keys[start..readIdx] + [name];
        AppendDirent(buf, bufOffset, keys[start..readIdx], name, padding);
        readIdx := readIdx + 1;
        bufOffset := nextDirent;
      }
      NoneFits(keys, buf.Length - bufOffset);
      FirstFits(keys, start, buf.Length);
      r := Ok(bufOffset);
    }

    /** Rewinding, or going to an entry by its number; `offset` is an isize. */
    method Lseek(offset: int, absolute: bool) returns (r: Option<int>)
      requires -(USIZE / 2) <= offset < USIZE / 2
      modifies this
      ensures r.None? <==> !absolute && offset != 0
      ensures r.None? ==> readIdx == old(readIdx)
      ensures r.Some? ==> r.value == offset && readIdx == offset % USIZE
    {
      if !absolute && offset != 0 { return None; }
      readIdx := offset % USIZE;
      r := Some(offset);
    }
  }

  lemma FirstFits(keys: seq<seq<Byte>>, i: nat, space: nat)
    requires i < |keys|
    ensures Fitting(keys[i..], space) == if RecLen(keys[i]) > space then 0
            else 1 + Fitting(keys[i + 1..], space - RecLen(keys[i]))
  {
    assert keys[i..][1..] == keys[i + 1..];
  }

  lemma NoneFits(keys: seq<seq<Byte>>, space: nat)
    ensures Fitting(keys[|keys|..], space) == 0
  {
  }

  lemma NextRecord(offset: nat, name: seq<Byte>)
    requires offset % 8 == 0
    ensures AlignUp(offset + DirentLen(name), 8) == offset + RecLen(name)
  {
  }

  lemma EmptyListing()
    ensures Listing([], [])
  {
  }

  /** Writes the structure, then the name and its NUL over it. */
  method WriteDirent(buf: array<Byte>, offset: nat, name: seq<Byte>, padding: seq<Byte>)
    requires offset + RecLen(name) <= buf.Length && Listable(name) && |padding| == DIRENT_SIZE - NAME_OFFSET
    modifies buf
    ensures IsRecord(buf[offset..offset + RecLen(name)], name)
    ensures buf[..offset] == old(buf[..offset])
    ensures buf[offset + RecLen(name)..] == old(buf[offset + RecLen(name)..])
  {
    hide IsRecord, AlignUp, Stored, Listable;
    ghost var was := buf[..];
    var dirent := Dirent(RecLen(name), padding) by { ShortRecord(name); }
    Store(buf, offset, dirent);
    Store(buf, offset + NAME_OFFSET, name + [0]);
    RecordStored(was, buf[..], offset, dirent, name, padding);
    assert was[..offset] == buf[..offset] && was[offset + RecLen(name)..] == buf[offset + RecLen(name)..];
  }

  lemma ShortRecord(name: seq<Byte>)
    requires Listable(name)
    ensures RecLen(name) < 0x10000
  {
  }

  /** A `Dirent64` structure: inode, offset, record length, type, and whatever lies behind. */
  function Dirent(reclen: nat, padding: seq<Byte>): (d: seq<Byte>)
    requires reclen < 0x10000
    ensures |d| == NAME_OFFSET + |padding|
  {
    [1, 0, 0, 0, 0, 0, 0, 0] + [0, 0, 0, 0, 0, 0, 0, 0] + [reclen % 256, reclen / 256] + [0] + padding
  }

  lemma RecordStored(was: seq<Byte>, now: seq<Byte>, offset: nat, dirent: seq<Byte>, name: seq<Byte>,
                     padding: seq<Byte>)
    requires offset + RecLen(name) <= |was| && Listable(name) && |padding| == DIRENT_SIZE - NAME_OFFSET
    requires RecLen(name) < 0x10000 && dirent == Dirent(RecLen(name), padding)
    requires now == Stored(Stored(was, offset, dirent), offset + NAME_OFFSET, name + [0])
    ensures IsRecord(now[offset..offset + RecLen(name)], name)
    ensures now[..offset] == was[..offset] && now[offset + RecLen(name)..] == was[offset + RecLen(name)..]
  {
    hide IsRecord, AlignUp, Stored, Listable, Dirent;
    var n, one := RecLen(name), Stored(was, offset, dirent);
    StoredHolds(was, offset, dirent);
    SubSlice(one, offset, DIRENT_SIZE, 0, NAME_OFFSET);
    StoredKeeps(one, offset + NAME_OFFSET, name + [0], offset, offset + NAME_OFFSET);
    StoredHolds(one, offset + NAME_OFFSET, name + [0]);
    SubSlice(now, offset, n, 0, NAME_OFFSET);
    SubSlice(now, offset, n, NAME_OFFSET, |name| + 1);
    RecordParts(now[offset..offset + n], dirent, name, padding);
    StoredKeeps(was, offset, dirent, 0, offset);
    StoredKeeps(one, offset + NAME_OFFSET, name + [0], 0, offset);
    StoredKeeps(was, offset, dirent, offset + n, |was|);
    StoredKeeps(one, offset + NAME_OFFSET, name + [0], offset + n, |was|);
    assert now[..offset] == now[0..offset] && was[..offset] == was[0..offset];
    assert now[offset + n..] == now[offset + n..|was|] && was[offset + n..] == was[offset + n..|was|];
  }

  lemma RecordParts(r: seq<Byte>, dirent: seq<Byte>, name: seq<Byte>, padding: seq<Byte>)
    requires |r| == RecLen(name) < 0x10000 && |padding| == DIRENT_SIZE - NAME_OFFSET && dirent == Dirent(|r|, padding)
    requires r[..NAME_OFFSET] == dirent[..NAME_OFFSET] && r[NAME_OFFSET..NAME_OFFSET + |name| + 1] == name + [0]
    ensures IsRecord(r, name)
  {
    hide AlignUp;
    var head, tail := r[..NAME_OFFSET], r[NAME_OFFSET..NAME_OFFSET + |name| + 1];
    assert forall i :: 0 <= i < NAME_OFFSET ==> r[i] == head[i] == dirent[i];
    assert r[..8] == dirent[..8] && r[8..16] == dirent[8..16];
    assert r[NAME_OFFSET..NAME_OFFSET + |name|] == tail[..|name|] == name;
    assert r[NAME_OFFSET + |name|] == tail[|name|];
  }

  method AppendDirent(buf: array<Byte>, offset: nat, ghost names: seq<seq<Byte>>, name: seq<Byte>, padding: seq<Byte>)
    requires offset + RecLen(name) <= buf.Length && Listable(name) && |padding| == DIRENT_SIZE - NAME_OFFSET
    requires Listing(buf[..offset], names)
    modifies buf
    ensures Listing(buf[..offset + RecLen(name)], names + [name])
    ensures buf[offset + RecLen(name)..] == old(buf[offset..])[RecLen(name)..]
  {
    hide IsRecord, Listing, Listable, RecLen;
    ghost var done := buf[..offset];
    WriteDirent(buf, offset, name, padding);
    ListingAppend(done, names, buf[offset..offset + RecLen(name)], name);
    assert buf[..offset + RecLen(name)] == done + buf[offset..offset + RecLen(name)];
  }

  // Any number of calls

  /** Calls on an unchanging directory, each from where the one before stopped. */
  ghost predicate Calls(keys: seq<seq<Byte>>, calls: seq<Call>, start: nat, end: nat)
    decreases |calls|
  {
    if calls == [] then end == start
    else calls[0].before == start && Answers(keys, calls[0]) && Calls(keys, calls[1..], calls[0].after, end)
  }

  /** All names the caller decodes. */
  function NamesRead(calls: seq<Call>): seq<seq<Byte>> {
    if calls == [] then []
    else (match Decode(calls[0].bytes) case Some(names) => names case None => []) + NamesRead(calls[1..])
  }

  lemma AnswersDecode(keys: seq<seq<Byte>>, c: Call)
    requires Answers(keys, c) && forall i :: 0 <= i < |keys| ==> Listable(keys[i])
    ensures c.before <= c.after && (c.after <= |keys| || c.after == c.before)
    ensures c.before <= |keys| ==> c.after <= |keys| && Decode(c.bytes) == Some(keys[c.before..c.after])
    ensures c.before > |keys| ==> Decode(c.bytes) == Some([])
    ensures c.result == Ok(0) <==> c.before >= |keys|
    ensures c.result.Err? ==> c.after == c.before && c.before < |keys| && RecLen(keys[c.before]) > c.size
  {
    hide Decode, Listing, Fitting;
    EmptyListing();
    if c.bytes == [] {
      DecodeReads([], []);
      if c.before <= |keys| { assert keys[c.before..c.after] == []; }
    } else {
      DecodeReads(c.bytes, keys[c.before..c.after]);
    }
  }

  /** For any buffer sizes, the calls together yield the keys from the start on, in order and each once; a call that
      returns 0 has seen them all. */
  lemma {:induction false} ListingIsComplete(keys: seq<seq<Byte>>, calls: seq<Call>, start: nat, end: nat)
    requires Calls(keys, calls, start, end) && start <= |keys| && forall i :: 0 <= i < |keys| ==> Listable(keys[i])
    ensures start <= end <= |keys| && NamesRead(calls) == keys[start..end]
    ensures (exists i :: 0 <= i < |calls| && calls[i].result == Ok(0)) ==> NamesRead(calls) == keys[start..]
    decreases |calls|
  {
    hide Answers, Decode, Listable;
    if calls != [] {
      var c := calls[0];
      AnswersDecode(keys, c);
      ListingIsComplete(keys, calls[1..], c.after, end);
      assert keys[start..end] == keys[start..c.after] + keys[c.after..end];
      if i :| 0 <= i < |calls| && calls[i].result == Ok(0) {
        if i > 0 { assert calls[1..][i - 1] == calls[i]; }
        assert end == |keys|;
      }
    }
  }

  /** Large enough buffers always make progress, so as many calls as there are keys read them all. */
  lemma {:induction false} ListingEnds(keys: seq<seq<Byte>>, calls: seq<Call>, start: nat, end: nat)
    requires Calls(keys, calls, start, end) && start <= |keys|
    requires forall i, j :: 0 <= i < |keys| && 0 <= j < |calls| ==> RecLen(keys[i]) <= calls[j].size
    ensures end >= |keys| || end >= start + |calls|
    decreases |calls|
  {
    hide RecLen, Listing;
    if calls != [] {
      var c := calls[0];
      assert start < |keys| ==> RecLen(keys[start]) <= calls[0].size;
      forall i, j | 0 <= i < |keys| && 0 <= j < |calls[1..]|
        ensures RecLen(keys[i]) <= calls[1..][j].size
      {
        assert calls[1..][j] == calls[j + 1];
      }
      if c.after <= |keys| { ListingEnds(keys, calls[1..], c.after, end); }
    }
  }
}

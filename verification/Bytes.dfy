/** Bytes, and storing them into memory. */
module Bytes {
  type Byte = b: int | 0 <= b < 256

  /** Memory after storing data at an address. */
  function Stored(mem: seq<Byte>, base: nat, data: seq<Byte>): (r: seq<Byte>)
    requires base + |data| <= |mem|
    ensures |r| == |mem|
  {
    mem[..base] + data + mem[base + |data|..]
  }

  lemma StoredHolds(mem: seq<Byte>, base: nat, data: seq<Byte>)
    requires base + |data| <= |mem|
    ensures Stored(mem, base, data)[base..base + |data|] == data
  {
  }

  /** What lies before or behind stays. */
  lemma StoredKeeps(mem: seq<Byte>, base: nat, data: seq<Byte>, lo: nat, hi: nat)
    requires base + |data| <= |mem| && lo <= hi <= |mem| && (hi <= base || base + |data| <= lo)
    ensures Stored(mem, base, data)[lo..hi] == mem[lo..hi]
  {
    var r := Stored(mem, base, data);
    forall k | lo <= k < hi ensures r[k] == mem[k] { }
  }

  /** A slice of a slice. */
  lemma SubSlice(s: seq<Byte>, at: nat, n: nat, from: nat, m: nat)
    requires at + n <= |s| && from + m <= n
    ensures s[at..at + n][from..from + m] == s[at + from..at + from + m]
  {
    var outer, left, right := s[at..at + n], s[at..at + n][from..from + m], s[at + from..at + from + m];
    forall k | 0 <= k < m ensures left[k] == right[k] { assert left[k] == outer[from + k]; }
  }

  method Store(mem: array<Byte>, base: nat, data: seq<Byte>)
    requires base + |data| <= mem.Length
    modifies mem
    ensures mem[..] == Stored(old(mem[..]), base, data)
  {
    forall k | 0 <= k < |data| { mem[base + k] := data[k]; }
  }
}

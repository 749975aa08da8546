/** Bitwise operations of `usize`, written out on natural numbers, and the interleaved
    bit patterns that the Z-order code builds with the masks 0x5555_5555 and 0xaaaa_aaaa. */
module Bits {

  const EVEN_BITS: nat := 0x5555_5555
  const ODD_BITS: nat := 0xaaaa_aaaa

  /** `x & y` */
  function BitAnd(x: nat, y: nat): nat {
    if x == 0 || y == 0 then 0
    else (if x % 2 == 1 && y % 2 == 1 then 1 else 0) + 2 * BitAnd(x / 2, y / 2)
  }

  /** `x | y` */
  function BitOr(x: nat, y: nat): nat {
    if x == 0 then y
    else if y == 0 then x
    else (if x % 2 == 1 || y % 2 == 1 then 1 else 0) + 2 * BitOr(x / 2, y / 2)
  }

  function Pow2(k: nat): (r: nat)
    ensures r > 0
  {
    if k == 0 then 1 else 2 * Pow2(k - 1)
  }

  function Pow4(k: nat): (r: nat)
    ensures r > 0
  {
    if k == 0 then 1 else 4 * Pow4(k - 1)
  }

  /** Moves bit b of m to bit 2b. */
  function Spread(m: nat): nat {
    if m == 0 then 0 else m % 2 + 4 * Spread(m / 2)
  }

  /** The column (even bits) and the row (odd bits) of a Z-order index. */
  function Col(x: nat): nat {
    if x == 0 then 0 else x % 2 + 2 * Col(x / 4)
  }

  function Row(x: nat): nat {
    if x == 0 then 0 else x / 2 % 2 + 2 * Row(x / 4)
  }

  /** The Z-order index of row r and column c. */
  function Morton(r: nat, c: nat): nat {
    2 * Spread(r) + Spread(c)
  }

  /** The lowest p even bits. */
  function EvenMask(p: nat): nat {
    if p == 0 then 0 else 1 + 4 * EvenMask(p - 1)
  }

  // One step of each recursion, by the low bit or the low pair of bits.

  lemma SplitBit(x: nat) returns (q: nat, b: nat)
    ensures b < 2 && x == 2 * q + b
  {
    q, b := x / 2, x % 2;
  }

  lemma SplitPair(x: nat) returns (q: nat, h: nat, l: nat)
    ensures h < 2 && l < 2 && x == 4 * q + 2 * h + l
  {
    q, h, l := x / 4, x / 2 % 2, x % 2;
  }

  lemma SpreadBit(m: nat, q: nat, b: nat)
    requires b < 2 && m == 2 * q + b
    ensures Spread(m) == b + 4 * Spread(q)
  {
    assert m / 2 == q && m % 2 == b;
  }

  lemma PairParts(x: nat, q: nat, h: nat, l: nat)
    requires h < 2 && l < 2 && x == 4 * q + 2 * h + l
    ensures x % 2 == l && x / 2 % 2 == h && x / 4 == q
  {
    assert x / 2 == 2 * q + h;
  }

  lemma ColRowPair(x: nat, q: nat, h: nat, l: nat)
    requires h < 2 && l < 2 && x == 4 * q + 2 * h + l
    ensures Col(x) == l + 2 * Col(q) && Row(x) == h + 2 * Row(q)
  {
    PairParts(x, q, h, l);
  }

  lemma AndBit(x: nat, q: nat, b: nat, y: nat, r: nat, c: nat)
    requires b < 2 && c < 2 && x == 2 * q + b && y == 2 * r + c
    ensures BitAnd(x, y) == (if b == 1 && c == 1 then 1 else 0) + 2 * BitAnd(q, r)
  {
    assert x / 2 == q && x % 2 == b && y / 2 == r && y % 2 == c;
  }

  lemma OrBit(x: nat, q: nat, b: nat, y: nat, r: nat, c: nat)
    requires b < 2 && c < 2 && x == 2 * q + b && y == 2 * r + c
    ensures BitOr(x, y) == (if b == 1 || c == 1 then 1 else 0) + 2 * BitOr(q, r)
  {
  }

  lemma AndPair(x: nat, q: nat, h: nat, l: nat, y: nat, q': nat, h': nat, l': nat)
    requires h < 2 && l < 2 && h' < 2 && l' < 2 && x == 4 * q + 2 * h + l && y == 4 * q' + 2 * h' + l'
    ensures BitAnd(x, y) == (if l == 1 && l' == 1 then 1 else 0) + (if h == 1 && h' == 1 then 2 else 0)
            + 4 * BitAnd(q, q')
  {
    var u, v := 2 * q + h, 2 * q' + h';
    AndBit(u, q, h, v, q', h');
    AndBit(x, u, l, y, v, l');
  }

  lemma OrPair(x: nat, q: nat, h: nat, l: nat, y: nat, q': nat, h': nat, l': nat)
    requires h < 2 && l < 2 && h' < 2 && l' < 2 && x == 4 * q + 2 * h + l && y == 4 * q' + 2 * h' + l'
    ensures BitOr(x, y) == (if l == 1 || l' == 1 then 1 else 0) + (if h == 1 || h' == 1 then 2 else 0)
            + 4 * BitOr(q, q')
  {
    var u, v := 2 * q + h, 2 * q' + h';
    OrBit(u, q, h, v, q', h');
    OrBit(x, u, l, y, v, l');
  }

  lemma {:induction false} AndAtMost(x: nat, y: nat)
    ensures BitAnd(x, y) <= y
  {
    if x != 0 && y != 0 { AndAtMost(x / 2, y / 2); }
  }

  // Rows, columns and Z-order indices

  /** Every index is the index of its row and column. */
  lemma {:induction false} MortonOfRowCol(x: nat)
    ensures Morton(Row(x), Col(x)) == x
  {
    if x != 0 {
      var q, h, l := SplitPair(x);
      MortonOfRowCol(q);
      ColRowPair(x, q, h, l);
      SpreadBit(Row(x), Row(q), h);
      SpreadBit(Col(x), Col(q), l);
    }
  }

  /** Row and column of an index are what it was built from. */
  lemma {:induction false} RowColOfMorton(r: nat, c: nat)
    ensures Row(Morton(r, c)) == r && Col(Morton(r, c)) == c
    decreases r + c
  {
    if r != 0 || c != 0 {
      var r', h := SplitBit(r);
      var c', l := SplitBit(c);
      RowColOfMorton(r', c');
      SpreadBit(r, r', h);
      SpreadBit(c, c', l);
      ColRowPair(Morton(r, c), Morton(r', c'), h, l);
    }
  }

  lemma {:induction false} RowColBound(k: nat, x: nat)
    requires x < Pow4(k)
    ensures Row(x) < Pow2(k) && Col(x) < Pow2(k)
  {
    if k != 0 && x != 0 { RowColBound(k - 1, x / 4); }
  }

  lemma {:induction false} SpreadBound(k: nat, m: nat)
    requires m < Pow2(k)
    ensures 3 * Spread(m) < Pow4(k)
  {
    if k != 0 && m != 0 { SpreadBound(k - 1, m / 2); }
  }

  lemma MortonBound(k: nat, r: nat, c: nat)
    requires r < Pow2(k) && c < Pow2(k)
    ensures Morton(r, c) < Pow4(k)
  {
    SpreadBound(k, r);
    SpreadBound(k, c);
  }

  /** p if the bit is set: the offset of the upper half. */
  function Upper(bit: bool, p: nat): nat {
    if bit then p else 0
  }

  /** The top bit of a coordinate selects the half. */
  lemma {:induction false} SpreadHigh(k: nat, h: bool, m: nat)
    requires m < Pow2(k)
    ensures Spread(Upper(h, Pow2(k)) + m) == Upper(h, Pow4(k)) + Spread(m)
  {
    if k == 0 {
      SpreadBit(1, 0, 1);
    } else {
      hide Spread;
      var m', b := SplitBit(m);
      SpreadHigh(k - 1, h, m');
      SpreadBit(Upper(h, Pow2(k)) + m, Upper(h, Pow2(k - 1)) + m', b);
      SpreadBit(m, m', b);
    }
  }

  /** The two top bits of an index select the quarter. */
  lemma MortonHigh(k: nat, h: bool, r: nat, l: bool, c: nat)
    requires r < Pow2(k) && c < Pow2(k)
    ensures Morton(Upper(h, Pow2(k)) + r, Upper(l, Pow2(k)) + c)
         == Upper(h, 2 * Pow4(k)) + Upper(l, Pow4(k)) + Morton(r, c)
  {
    SpreadHigh(k, h, r);
    SpreadHigh(k, l, c);
  }

  lemma {:induction false} SpreadOfPow2(k: nat)
    ensures Spread(Pow2(k)) == Pow4(k)
  {
    if k == 0 {
      SpreadBit(1, 0, 1);
    } else {
      SpreadOfPow2(k - 1);
      SpreadBit(Pow2(k), Pow2(k - 1), 0);
    }
  }

  lemma {:induction false} SpreadMonotone(m: nat, n: nat)
    requires m < n
    ensures Spread(m) < Spread(n)
  {
    if m / 2 < n / 2 { SpreadMonotone(m / 2, n / 2); }
  }

  // The 32-bit masks

  lemma MasksAreMasks()
    ensures EvenMask(16) == EVEN_BITS && 2 * EvenMask(16) == ODD_BITS
  {
    assert EvenMask(4) == 0x55;
    assert EvenMask(8) == 0x5555;
    assert EvenMask(12) == 0x55_5555;
  }

  lemma Pow4Values()
    ensures Pow4(5) == 1024 && Pow4(15) == 0x4000_0000 && Pow4(16) == 0x1_0000_0000
  {
    assert Pow4(4) == 0x100;
    assert Pow4(5) == 0x400;
    assert Pow4(8) == 0x1_0000;
    assert Pow4(12) == 0x100_0000;
    assert Pow4(15) == 0x4000_0000;
  }

  lemma {:induction false} Pow4Monotone(j: nat, k: nat)
    requires j <= k
    ensures Pow4(j) <= Pow4(k)
  {
    if j < k { Pow4Monotone(j, k - 1); }
  }

  lemma {:induction false} Pow2Monotone(j: nat, k: nat)
    requires j <= k
    ensures Pow2(j) <= Pow2(k)
  {
    if j < k { Pow2Monotone(j, k - 1); }
  }

  lemma {:induction false} Pow4IsSquare(k: nat)
    ensures Pow4(k) == Pow2(k) * Pow2(k)
  {
    if k != 0 { Pow4IsSquare(k - 1); }
  }

  /** Masking an index that fits the masks separates the two coordinates. */
  lemma {:induction false} AndMasks(p: nat, x: nat)
    requires x < Pow4(p)
    ensures BitAnd(x, EvenMask(p)) == Spread(Col(x))
    ensures BitAnd(x, 2 * EvenMask(p)) == 2 * Spread(Row(x))
  {
    if p != 0 {
      var q, h, l := SplitPair(x);
      AndMasks(p - 1, q);
      AndPair(x, q, h, l, EvenMask(p), EvenMask(p - 1), 0, 1);
      AndPair(x, q, h, l, 2 * EvenMask(p), 2 * EvenMask(p - 1), 1, 0);
      ColRowPair(x, q, h, l);
      SpreadBit(Row(x), Row(q), h);
      SpreadBit(Col(x), Col(q), l);
    }
  }

  /** Or-ing a row part and a column part is the index. */
  lemma {:induction false} OrIsMorton(r: nat, c: nat)
    ensures BitOr(2 * Spread(r), Spread(c)) == Morton(r, c)
    decreases r + c
  {
    if r != 0 && c != 0 {
      var r', h := SplitBit(r);
      var c', l := SplitBit(c);
      OrIsMorton(r', c');
      SpreadBit(r, r', h);
      SpreadBit(c, c', l);
      OrPair(2 * Spread(r), 2 * Spread(r'), h, 0, Spread(c), Spread(c'), 0, l);
    }
  }

  /** Setting all odd bits keeps the even bits. */
  lemma {:induction false} OrOddBits(p: nat, x: nat)
    requires x < Pow4(p)
    ensures BitOr(x, 2 * EvenMask(p)) == BitAnd(x, EvenMask(p)) + 2 * EvenMask(p)
  {
    if p != 0 {
      var q, h, l := SplitPair(x);
      OrOddBits(p - 1, q);
      OrPair(x, q, h, l, 2 * EvenMask(p), 2 * EvenMask(p - 1), 1, 0);
      AndPair(x, q, h, l, EvenMask(p), EvenMask(p - 1), 0, 1);
    }
  }

  lemma {:induction false} AndOfSpreadAndOdd(p: nat, m: nat)
    requires m < Pow2(p)
    ensures BitAnd(Spread(m) + 2 * EvenMask(p), EvenMask(p)) == Spread(m)
  {
    if p != 0 {
      hide BitAnd, Spread;
      var q, b := SplitBit(m);
      AndOfSpreadAndOdd(p - 1, q);
      SpreadBit(m, q, b);
      AndPair(Spread(m) + 2 * EvenMask(p), Spread(q) + 2 * EvenMask(p - 1), 1, b, EvenMask(p), EvenMask(p - 1), 0, 1);
    }
  }

  /** Adding one with all odd bits set: the carry runs through them to the next spread value,
      and to zero when the p even bits are exhausted. */
  lemma {:induction false} CarryThroughOddBits(p: nat, m: nat)
    requires m < Pow2(p)
    ensures BitAnd(Spread(m) + 2 * EvenMask(p) + 1, EvenMask(p)) == if m + 1 < Pow2(p) then Spread(m + 1) else 0
  {
    hide BitAnd, Spread, EvenMask, Pow2;
    if p == 0 {
      CarryFromNothing(m);
    } else {
      var q, b := SplitBit(m);
      HalfBelow(p, m, q, b);
      if b == 0 {
        AndOfSpreadAndOdd(p - 1, q);
        CarryIntoEvenBit(p, m, q);
      } else {
        CarryThroughOddBits(p - 1, q);
        CarryIntoNextPair(p, m, q);
      }
    }
  }

  lemma CarryFromNothing(m: nat)
    requires m < Pow2(0)
    ensures m + 1 >= Pow2(0) && BitAnd(Spread(m) + 2 * EvenMask(0) + 1, EvenMask(0)) == 0
  {
  }

  lemma HalfBelow(p: nat, m: nat, q: nat, b: nat)
    requires p > 0 && m == 2 * q + b && m < Pow2(p)
    ensures q < Pow2(p - 1)
  {
  }

  lemma CarryIntoEvenBit(p: nat, m: nat, q: nat)
    requires p > 0 && m == 2 * q && m < Pow2(p)
    requires BitAnd(Spread(q) + 2 * EvenMask(p - 1), EvenMask(p - 1)) == Spread(q)
    ensures m + 1 < Pow2(p)
    ensures BitAnd(Spread(m) + 2 * EvenMask(p) + 1, EvenMask(p)) == Spread(m + 1)
  {
    hide BitAnd, Spread;
    var e := EvenMask(p - 1);
    SpreadBit(m, q, 0);
    SpreadBit(m + 1, q, 1);
    AndPair(Spread(m) + 2 * EvenMask(p) + 1, Spread(q) + 2 * e, 1, 1, EvenMask(p), e, 0, 1);
  }

  lemma CarryIntoNextPair(p: nat, m: nat, q: nat)
    requires p > 0 && m == 2 * q + 1 && m < Pow2(p)
    ensures m + 1 < Pow2(p) <==> q + 1 < Pow2(p - 1)
    ensures Spread(m + 1) == 4 * Spread(q + 1)
    ensures BitAnd(Spread(m) + 2 * EvenMask(p) + 1, EvenMask(p))
         == 4 * BitAnd(Spread(q) + 2 * EvenMask(p - 1) + 1, EvenMask(p - 1))
  {
    hide BitAnd, Spread;
    var e := EvenMask(p - 1);
    SpreadBit(m, q, 1);
    SpreadBit(m + 1, q + 1, 0);
    AndPair(Spread(m) + 2 * EvenMask(p) + 1, Spread(q) + 2 * e + 1, 0, 0, EvenMask(p), e, 0, 1);
  }
}

/** The four matrix multiplications of the demo, over exact integers. An immutable slice is a sequence;
    a mutable slice is the range lo..lo+n of an array. The joined closures run in sequence. */
module MatMul {
  import opened Bits
  import opened ZMatrix
  import opened Options

  const MULT_CHUNK: nat := 1 * 1024
  const LINEAR_CHUNK: nat := 64 * 1024
  const USIZE_RANGE: nat := 0x1_0000_0000_0000_0000

  // SplayedBitsCounter

  /** The counter after one successful `next`: all odd bits set, plus one. */
  function NextValue(value: nat): nat {
    (BitOr(value, ODD_BITS) + 1) % USIZE_RANGE
  }

  /** The counter after t successful calls of `next`. */
  function ValueAfter(t: nat): nat {
    if t == 0 then 0 else NextValue(ValueAfter(t - 1))
  }

  class SplayedBitsCounter {
    var value: nat
    const max: nat

    constructor (max: nat)
      ensures value == 0 && this.max == max
    {
      this.value := 0;
      this.max := max;
    }

    method Next() returns (r: Option<nat>)
      modifies this
      ensures r == if BitAnd(old(value), EVEN_BITS) < max then Some(BitAnd(old(value), EVEN_BITS)) else None
      ensures value == if r.Some? then NextValue(old(value)) else old(value)
    {
      var prev := BitAnd(value, EVEN_BITS);
      if prev < max {
        value := BitOr(value, ODD_BITS);
        value := (value + 1) % USIZE_RANGE;
        r := Some(prev);
      } else {
        r := None;
      }
    }
  }

  /** Call number t yields the spread of t, for all values that fit the 32-bit masks. */
  lemma {:induction false} CounterYields(t: nat)
    requires t < Pow2(16)
    ensures ValueAfter(t) < Pow4(16)
    ensures BitAnd(ValueAfter(t), EVEN_BITS) == Spread(t)
  {
    if t == 0 {
      assert BitAnd(0, EVEN_BITS) == 0 == Spread(0);
    } else {
      hide BitOr, BitAnd, Spread, EvenMask, Pow2, Pow4, ValueAfter, NextValue;
      CounterYields(t - 1);
      ValueStep(t);
      YieldsNext(t, ValueAfter(t - 1));
    }
  }

  lemma YieldsNext(t: nat, v: nat)
    requires 0 < t < Pow2(16) && v < Pow4(16) && BitAnd(v, EVEN_BITS) == Spread(t - 1)
    ensures NextValue(v) < Pow4(16) && BitAnd(NextValue(v), EVEN_BITS) == Spread(t)
  {
    hide BitOr, BitAnd, Spread, EvenMask, Pow2, Pow4;
    MasksAreMasks();
    Pow4Values();
    OrOddBits(16, v);
    CarryThroughOddBits(16, t - 1);
    SpreadMonotone(t - 1, t);
    SpreadBound(16, t);
  }

  lemma ValueStart()
    ensures ValueAfter(0) == 0
  {
  }

  lemma ValueStep(t: nat)
    requires t > 0
    ensures ValueAfter(t) == NextValue(ValueAfter(t - 1))
  {
  }

  /** The counter stops at all exactly when its bound fits the mask: from length 4^16 on it never does. */
  lemma CounterStops(max: nat)
    ensures (exists t :: BitAnd(ValueAfter(t), EVEN_BITS) >= max) <==> max <= EVEN_BITS
  {
    hide BitOr, BitAnd, Spread, EvenMask, ValueAfter;
    if max <= EVEN_BITS {
      var t := Pow2(16) - 1;
      CounterYields(t);
      LastSpread(16);
      MasksAreMasks();
    } else {
      forall t: nat ensures BitAnd(ValueAfter(t), EVEN_BITS) < max { AndAtMost(ValueAfter(t), EVEN_BITS); }
    }
  }

  lemma {:induction false} LastSpread(p: nat)
    ensures Spread(Pow2(p) - 1) == EvenMask(p)
  {
    if p != 0 {
      hide Spread;
      LastSpread(p - 1);
      SpreadBit(Pow2(p) - 1, Pow2(p - 1) - 1, 1);
    }
  }

  /** For length 4^k, k at most 15, the results are the spreads of 0..2^k-1 in order, and then nothing. */
  lemma CounterCoversSide(k: nat, t: nat)
    requires k <= 15 && t <= Pow2(k)
    ensures BitAnd(ValueAfter(t), EVEN_BITS) == Spread(t)
    ensures Spread(t) < Pow4(k) <==> t < Pow2(k)
  {
    hide BitAnd, Spread, ValueAfter, Pow2, Pow4;
    SideFitsMask(k);
    CounterYields(t);
    if t < Pow2(k) { SpreadBound(k, t); } else { SpreadOfPow2(k); }
  }

  lemma SideFitsMask(k: nat)
    requires k <= 15
    ensures Pow2(k) < Pow2(16)
  {
    Pow2Monotone(k, 15);
  }

  // Slices

  /** s with the slice at lo replaced by v. */
  function Splice(s: seq<int>, lo: nat, v: seq<int>): (r: seq<int>)
    requires lo + |v| <= |s|
    ensures |r| == |s|
  {
    s[..lo] + v + s[lo + |v|..]
  }

  lemma SpliceTwice(s: seq<int>, lo: nat, v: seq<int>, w: seq<int>)
    requires lo + |v| + |w| <= |s|
    ensures Splice(Splice(s, lo, v), lo + |v|, w) == Splice(s, lo, v + w)
  {
  }

  lemma SpliceOver(s: seq<int>, lo: nat, v: seq<int>, w: seq<int>)
    requires lo + |v| <= |s| && |w| == |v|
    ensures Splice(s, lo, v)[lo..lo + |v|] == v
    ensures Splice(Splice(s, lo, v), lo, w) == Splice(s, lo, w)
  {
  }

  method RCopy(src: seq<int>, dest: array<int>, lo: nat)
    requires lo + |src| <= dest.Length
    modifies dest
    ensures dest[..] == Splice(old(dest[..]), lo, src)
    decreases |src|
  {
    if |src| <= LINEAR_CHUNK {
      forall x | 0 <= x < |src| { dest[lo + x] := src[x]; }
      assert dest[lo..lo + |src|] == src;
      return;
    }
    var mid := |src| / 2;
    ghost var was := dest[..];
    RCopy(src[..mid], dest, lo);
    RCopy(src[mid..], dest, lo + mid);
    SpliceTwice(was, lo, src[..mid], src[mid..]);
    assert src[..mid] + src[mid..] == src;
  }

  method RMatSum(src: seq<int>, dest: array<int>, lo: nat)
    requires lo + |src| <= dest.Length
    modifies dest
    ensures dest[..] == Splice(old(dest[..]), lo, Add(old(dest[lo..lo + |src|]), src))
  {
    for x := 0 to |src|
      invariant forall y :: 0 <= y < dest.Length ==>
                  dest[y] == old(dest[y]) + if lo <= y < lo + x then src[y - lo] else 0
    {
      dest[lo + x] := dest[lo + x] + src[x];
    }
  }

  method RMatSub(src: seq<int>, dest: array<int>, lo: nat)
    requires lo + |src| <= dest.Length
    modifies dest
    ensures dest[..] == Splice(old(dest[..]), lo, Sub(old(dest[lo..lo + |src|]), src))
  {
    for x := 0 to |src|
      invariant forall y :: 0 <= y < dest.Length ==>
                  dest[y] == old(dest[y]) - if lo <= y < lo + x then src[y - lo] else 0
    {
      dest[lo + x] := dest[lo + x] - src[x];
    }
  }

  method RTmpSum(a: seq<int>, b: seq<int>) returns (tmp: array<int>)
    requires |a| == |b|
    ensures fresh(tmp) && tmp[..] == Add(a, b)
  {
    tmp := new int[|a|];
    RCopy(a, tmp, 0);
    RMatSum(b, tmp, 0);
  }

  method RTmpSub(a: seq<int>, b: seq<int>) returns (tmp: array<int>)
    requires |a| == |b|
    ensures fresh(tmp) && tmp[..] == Sub(a, b)
  {
    tmp := new int[|a|];
    RCopy(a, tmp, 0);
    RMatSub(b, tmp, 0);
  }

  // Morton-order sequential multiplication

  /** The operand indices the inner loop uses are in range and are those of the inner product. */
  lemma IndicesOfTerm(k: nat, ij: nat, m: nat)
    requires k <= 15 && ij < Pow4(k) && m < Pow2(k)
    ensures Row(ij) < Pow2(k) && Col(ij) < Pow2(k)
    ensures BitOr(BitAnd(ij, ODD_BITS), Spread(m)) == Morton(Row(ij), m) < Pow4(k)
    ensures BitOr(2 * Spread(m), BitAnd(ij, EVEN_BITS)) == Morton(m, Col(ij)) < Pow4(k)
  {
    hide BitOr, BitAnd, Spread, EvenMask, Row, Col;
    RowColBound(k, ij);
    Pow4Monotone(k, 16);
    MasksAreMasks();
    AndMasks(16, ij);
    OrIsMorton(Row(ij), m);
    OrIsMorton(m, Col(ij));
    MortonBound(k, Row(ij), m);
    MortonBound(k, m, Col(ij));
  }

  method InnerProductZ(a: seq<int>, b: seq<int>, i: nat, j: nat, ghost k: nat, ghost ij: nat) returns (sum: int)
    requires k <= 15 && Square(k, a) && Square(k, b) && ij < Pow4(k)
    requires i == BitAnd(ij, ODD_BITS) && j == BitAnd(ij, EVEN_BITS)
    ensures sum == Entry(k, a, b, ij)
  {
    hide BitOr, BitAnd, Spread, Row, Col, ValueAfter, Pow4;
    RowColBound(k, ij);
    ghost var terms := Terms(k, a, b, Row(ij), Col(ij));
    ghost var m := 0;
    var counter := new SplayedBitsCounter(|a|);
    sum := 0;
    CounterCoversSide(k, 0);
    assert ValueAfter(0) == 0 by { ValueStart(); }
    var next := counter.Next();
    while next.Some?
      invariant m <= Pow2(k) && counter.max == |a|
      invariant next == if m < Pow2(k) then Some(Spread(m)) else None
      invariant next.Some? ==> counter.value == NextValue(ValueAfter(m))
      invariant sum == Sum(terms[..m])
      decreases Pow2(k) - m
    {
      IndicesOfTerm(k, ij, m);
      var u, v := BitOr(i, next.value), BitOr(2 * next.value, j);
      assert a[u] * b[v] == terms[m];
      assert terms[..m + 1][..m] == terms[..m];
      sum := sum + a[u] * b[v];
      m := m + 1;
      ValueStep(m);
      CounterCoversSide(k, m);
      next := counter.Next();
    }
    assert terms[..m] == terms;
  }

  method SeqMatMulZ(a: seq<int>, b: seq<int>, dest: array<int>, lo: nat, ghost k: nat)
    requires k <= 15 && Square(k, a) && Square(k, b) && lo + |a| <= dest.Length
    modifies dest
    ensures dest[..] == Splice(old(dest[..]), lo, Product(k, a, b))
  {
    hide BitAnd, Entry;
    var n := |a|;
    for d := 0 to n
      invariant forall y :: 0 <= y < dest.Length && !(lo <= y < lo + n) ==> dest[y] == old(dest[y])
    {
      dest[lo + d] := 0;
    }
    for ij := 0 to n
      invariant forall y :: 0 <= y < dest.Length && !(lo <= y < lo + n) ==> dest[y] == old(dest[y])
      invariant forall y :: 0 <= y < ij ==> dest[lo + y] == Entry(k, a, b, y)
    {
      var i := BitAnd(ij, ODD_BITS);
      var j := BitAnd(ij, EVEN_BITS);
      var sum := InnerProductZ(a, b, i, j, k, ij);
      dest[lo + ij] := sum;
    }
    assert dest[lo..lo + n] == Product(k, a, b);
  }

  // Recursive multiplication

  function QuarterChunks(v: seq<int>): (seq<int>, seq<int>, seq<int>, seq<int>) {
    var mid := |v| / 2;
    var quarter := mid / 2;
    var (left, right) := (v[..mid], v[mid..]);
    (left[..quarter], left[quarter..], right[..quarter], right[quarter..])
  }

  lemma QuartersAreBlocks(k: nat, v: seq<int>)
    requires Square(k + 1, v)
    ensures QuarterChunks(v)
            == (Block(k, v, false, false), Block(k, v, false, true), Block(k, v, true, false), Block(k, v, true, true))
  {
    var p := Pow4(k);
    assert |v| / 2 == 2 * p && 2 * p / 2 == p;
    assert v[..2 * p][..p] == v[..p] && v[..2 * p][p..] == v[p..2 * p];
    assert v[2 * p..][..p] == v[2 * p..3 * p] && v[2 * p..][p..] == v[3 * p..4 * p];
  }

  /** Writing four quarters in order writes their concatenation. */
  lemma SpliceFour(s: seq<int>, lo: nat, p: nat, v1: seq<int>, v2: seq<int>, v3: seq<int>, v4: seq<int>)
    requires |v1| == |v2| == |v3| == |v4| == p && lo + 4 * p <= |s|
    ensures Splice(Splice(Splice(Splice(s, lo, v1), lo + p, v2), lo + 2 * p, v3), lo + 3 * p, v4)
         == Splice(s, lo, v1 + v2 + v3 + v4)
  {
    hide Splice;
    SpliceTwice(s, lo, v1, v2);
    SpliceTwice(s, lo, v1 + v2, v3);
    SpliceTwice(s, lo, v1 + v2 + v3, v4);
  }

  lemma SmallIsShallow(k: nat, a: seq<int>)
    requires Square(k, a)
    ensures |a| <= MULT_CHUNK ==> k <= 5
    ensures |a| > MULT_CHUNK ==> k > 5
  {
    Pow4Values();
    if k > 5 { Pow4Monotone(6, k); assert Pow4(6) == 4 * Pow4(5); } else { Pow4Monotone(k, 5); }
  }

  /** The two halves of the block products add up to the product. */
  lemma EightProducts(k: nat, a: seq<int>, b: seq<int>, d: seq<int>, t: seq<int>)
    requires Square(k + 1, a) && Square(k + 1, b)
    requires var (a1, a2, a3, a4) := QuarterChunks(a); var (b1, b2, b3, b4) := QuarterChunks(b);
             && Square(k, a1) && Square(k, a2) && Square(k, a3) && Square(k, a4)
             && Square(k, b1) && Square(k, b2) && Square(k, b3) && Square(k, b4)
             && d == Product(k, a1, b1) + Product(k, a1, b2) + Product(k, a3, b1) + Product(k, a3, b2)
             && t == Product(k, a2, b3) + Product(k, a2, b4) + Product(k, a4, b3) + Product(k, a4, b4)
    ensures |d| == |t| && Add(d, t) == Product(k + 1, a, b)
  {
    hide Product, Block, QuarterChunks;
    QuartersAreBlocks(k, a);
    QuartersAreBlocks(k, b);
    ProductBlock(k, a, b, false, false);
    ProductBlock(k, a, b, false, true);
    ProductBlock(k, a, b, true, false);
    ProductBlock(k, a, b, true, true);
    BlocksCompose(k, Product(k + 1, a, b));
    var (a1, a2, a3, a4) := QuarterChunks(a);
    var (b1, b2, b3, b4) := QuarterChunks(b);
    AddConcat4(Product(k, a1, b1), Product(k, a1, b2), Product(k, a3, b1), Product(k, a3, b2),
               Product(k, a2, b3), Product(k, a2, b4), Product(k, a4, b3), Product(k, a4, b4));
  }

  lemma AddConcat4(d1: seq<int>, d2: seq<int>, d3: seq<int>, d4: seq<int>, t1: seq<int>, t2: seq<int>, t3: seq<int>,
                   t4: seq<int>)
    requires |d1| == |d2| == |d3| == |d4| == |t1| == |t2| == |t3| == |t4|
    ensures Add(d1 + d2 + d3 + d4, t1 + t2 + t3 + t4) == Add(d1, t1) + Add(d2, t2) + Add(d3, t3) + Add(d4, t4)
  {
  }

  method MatMulZ(a: seq<int>, b: seq<int>, dest: array<int>, lo: nat, ghost k: nat)
    requires Square(k, a) && Square(k, b) && lo + |a| <= dest.Length
    modifies dest
    ensures dest[..] == Splice(old(dest[..]), lo, Product(k, a, b))
    decreases |a|, 0
  {
    SmallIsShallow(k, a);
    if |a| <= MULT_CHUNK {
      SeqMatMulZ(a, b, dest, lo, k);
      return;
    }
    hide Product, Splice, QuarterChunks, Combine;
    var tmp := RawBuffer(|a|);
    var (a1, a2, a3, a4) := QuarterChunks(a);
    var (b1, b2, b3, b4) := QuarterChunks(b);
    QuartersAreBlocks(k - 1, a);
    QuartersAreBlocks(k - 1, b);
    ghost var was, blank := dest[..], tmp[..];
    ghost var d := MatMulZ4(a1, a3, b1, b2, dest, lo, k - 1);
    ghost var t := MatMulZ4(a2, a4, b3, b4, tmp, 0, k - 1);
    assert tmp[..] == t by { SpliceAll(blank, t); }
    SpliceOver(was, lo, d, d);
    RMatSum(tmp[..], dest, lo);
    EightProducts(k - 1, a, b, d, t);
    SpliceOver(was, lo, d, Product(k, a, b));
  }

  /** Four of the eight joined products: two left factors by two right factors, into the quarters of one slice. */
  method MatMulZ4(x: seq<int>, y: seq<int>, u: seq<int>, v: seq<int>, dest: array<int>, lo: nat, ghost k: nat)
    returns (ghost d: seq<int>)
    requires Square(k, x) && Square(k, y) && Square(k, u) && Square(k, v) && lo + 4 * |x| <= dest.Length
    modifies dest
    ensures d == Product(k, x, u) + Product(k, x, v) + Product(k, y, u) + Product(k, y, v)
    ensures dest[..] == Splice(old(dest[..]), lo, d)
    decreases |x|, 1
  {
    hide Product, Splice;
    var p := |x|;
    ghost var was := dest[..];
    MatMulZ(x, u, dest, lo, k);
    MatMulZ(x, v, dest, lo + p, k);
    MatMulZ(y, u, dest, lo + 2 * p, k);
    MatMulZ(y, v, dest, lo + 3 * p, k);
    d := Product(k, x, u) + Product(k, x, v) + Product(k, y, u) + Product(k, y, v);
    SpliceFour(was, lo, p, Product(k, x, u), Product(k, x, v), Product(k, y, u), Product(k, y, v));
  }

  lemma SpliceAll(s: seq<int>, v: seq<int>)
    requires |s| == |v|
    ensures Splice(s, 0, v) == v
  {
  }

  method RawBuffer(n: nat) returns (r: array<int>)
    ensures fresh(r) && r.Length == n && forall x :: 0 <= x < n ==> r[x] == 0
  {
    r := new int[n](x => 0);
  }

  // Strassen multiplication

  method MatMulStrassen(a: seq<int>, b: seq<int>, dest: array<int>, lo: nat, ghost k: nat)
    requires Square(k, a) && Square(k, b) && lo + |a| <= dest.Length
    modifies dest
    ensures dest[..] == Splice(old(dest[..]), lo, Product(k, a, b))
    decreases |a|, 0
  {
    SmallIsShallow(k, a);
    if |a| <= MULT_CHUNK {
      SeqMatMulZ(a, b, dest, lo, k);
      return;
    }
    hide Product, Splice, QuarterChunks, Combine;
    var (a11, a12, a21, a22) := QuarterChunks(a);
    var (b11, b12, b21, b22) := QuarterChunks(b);
    QuartersAreBlocks(k - 1, a);
    QuartersAreBlocks(k - 1, b);
    ghost var was := dest[..];
    StrassenSevenMultiplies(a11, a12, a21, a22, b11, b12, b21, b22, dest, lo, k - 1);
    StrassenBlocks(k - 1, a, b, was, lo);
  }

  /** The seven submatrix multiplies and the sums of their results into the four quarters of one slice. */
  method StrassenSevenMultiplies(a11: seq<int>, a12: seq<int>, a21: seq<int>, a22: seq<int>, b11: seq<int>,
                                 b12: seq<int>, b21: seq<int>, b22: seq<int>, dest: array<int>, lo: nat, ghost k: nat)
    requires Square(k, a11) && Square(k, a12) && Square(k, a21) && Square(k, a22)
    requires Square(k, b11) && Square(k, b12) && Square(k, b21) && Square(k, b22) && lo + 4 * |a11| <= dest.Length
    modifies dest
    ensures dest[..] == FourBlocks(old(dest[..]), lo,
                                   Add(Product(k, a11, b11), Product(k, a12, b21)),
                                   Add(Product(k, a11, b12), Product(k, a12, b22)),
                                   Add(Product(k, a21, b11), Product(k, a22, b21)),
                                   Add(Product(k, a21, b12), Product(k, a22, b22)))
    decreases |a11|, 2
  {
    hide Product, Combine, Splice, FourBlocks;
    var m1 := StrassenAdd2Mul(a11, a22, b11, b22, k);
    var m2 := StrassenAddMul(a21, a22, b11, k);
    var m3 := StrassenSubMul(b12, b22, a11, k);
    var m4 := StrassenSubMul(b21, b11, a22, k);
    var m5 := StrassenAddMul(a11, a12, b22, k);
    var m6 := StrassenSubAddMul(a21, a11, b11, b12, k);
    var m7 := StrassenSubAddMul(a12, a22, b21, b22, k);
    StrassenRecombine(m1[..], m2[..], m3[..], m4[..], m5[..], m6[..], m7[..], dest, lo);
    StrassenIdentity(k, a11, a12, a21, a22, b11, b12, b21, b22);
  }

  method StrassenRecombine(m1: seq<int>, m2: seq<int>, m3: seq<int>, m4: seq<int>, m5: seq<int>, m6: seq<int>,
                           m7: seq<int>, dest: array<int>, lo: nat)
    requires |m1| == |m2| == |m3| == |m4| == |m5| == |m6| == |m7| && lo + 4 * |m1| <= dest.Length
    modifies dest
    ensures dest[..] == FourBlocks(old(dest[..]), lo, Sub(Add(Add(m1, m4), m7), m5), Add(m3, m5),
                                   Add(m2, m4), Sub(Add(Add(m1, m3), m6), m2))
  {
    hide Combine, Splice;
    var p := |m1|;
    StrassenSumSub(m1, m4, m7, m5, dest, lo);
    StrassenSum(m3, m5, dest, lo + p);
    StrassenSum(m2, m4, dest, lo + 2 * p);
    StrassenSumSub(m1, m3, m6, m2, dest, lo + 3 * p);
  }

  /** The four quarters of a slice written one after the other. */
  function FourBlocks(s: seq<int>, lo: nat, c11: seq<int>, c12: seq<int>, c21: seq<int>, c22: seq<int>): seq<int>
    requires |c11| == |c12| == |c21| == |c22| && lo + 4 * |c11| <= |s|
  {
    var p := |c11|;
    Splice(Splice(Splice(Splice(s, lo, c11), lo + p, c12), lo + 2 * p, c21), lo + 3 * p, c22)
  }

  method StrassenAdd2Mul(a1: seq<int>, a2: seq<int>, b1: seq<int>, b2: seq<int>, ghost k: nat)
    returns (dest: array<int>)
    requires Square(k, a1) && Square(k, a2) && Square(k, b1) && Square(k, b2)
    ensures fresh(dest) && dest[..] == Product(k, Add(a1, a2), Add(b1, b2))
    decreases |a1|, 1
  {
    hide Product, Combine;
    dest := RawBuffer(|a1|);
    var a := RTmpSum(a1, a2);
    var b := RTmpSum(b1, b2);
    MatMulStrassen(a[..], b[..], dest, 0, k);
  }

  method StrassenSubAddMul(a1: seq<int>, a2: seq<int>, b1: seq<int>, b2: seq<int>, ghost k: nat)
    returns (dest: array<int>)
    requires Square(k, a1) && Square(k, a2) && Square(k, b1) && Square(k, b2)
    ensures fresh(dest) && dest[..] == Product(k, Sub(a1, a2), Add(b1, b2))
    decreases |a1|, 1
  {
    hide Product, Combine;
    dest := RawBuffer(|a1|);
    var a := RTmpSub(a1, a2);
    var b := RTmpSum(b1, b2);
    MatMulStrassen(a[..], b[..], dest, 0, k);
  }

  method StrassenAddMul(a1: seq<int>, a2: seq<int>, b: seq<int>, ghost k: nat) returns (dest: array<int>)
    requires Square(k, a1) && Square(k, a2) && Square(k, b)
    ensures fresh(dest) && dest[..] == Product(k, Add(a1, a2), b)
    decreases |a1|, 1
  {
    hide Product, Combine;
    dest := RawBuffer(|a1|);
    var a := RTmpSum(a1, a2);
    MatMulStrassen(a[..], b, dest, 0, k);
  }

  method StrassenSubMul(b1: seq<int>, b2: seq<int>, a: seq<int>, ghost k: nat) returns (dest: array<int>)
    requires Square(k, b1) && Square(k, b2) && Square(k, a)
    ensures fresh(dest) && dest[..] == Product(k, a, Sub(b1, b2))
    decreases |a|, 1
  {
    hide Product, Combine;
    dest := RawBuffer(|a|);
    var b := RTmpSub(b1, b2);
    MatMulStrassen(a, b[..], dest, 0, k);
  }

  method StrassenSumSub(a: seq<int>, b: seq<int>, c: seq<int>, s: seq<int>, dest: array<int>, lo: nat)
    requires |a| == |b| == |c| == |s| && lo + |a| <= dest.Length
    modifies dest
    ensures dest[..] == Splice(old(dest[..]), lo, Sub(Add(Add(a, b), c), s))
  {
    hide Combine, Splice;
    ghost var was := dest[..];
    RCopy(a, dest, lo);
    SpliceOver(was, lo, a, Add(a, b));
    RMatSum(b, dest, lo);
    SpliceOver(was, lo, Add(a, b), Add(Add(a, b), c));
    RMatSum(c, dest, lo);
    SpliceOver(was, lo, Add(Add(a, b), c), Sub(Add(Add(a, b), c), s));
    RMatSub(s, dest, lo);
  }

  method StrassenSum(a: seq<int>, b: seq<int>, dest: array<int>, lo: nat)
    requires |a| == |b| && lo + |a| <= dest.Length
    modifies dest
    ensures dest[..] == Splice(old(dest[..]), lo, Add(a, b))
  {
    hide Combine, Splice;
    ghost var was := dest[..];
    RCopy(a, dest, lo);
    SpliceOver(was, lo, a, Add(a, b));
    RMatSum(b, dest, lo);
  }

  /** Strassen's seven products recombine to the four blocks of the product. */
  lemma StrassenIdentity(k: nat, a11: seq<int>, a12: seq<int>, a21: seq<int>, a22: seq<int>, b11: seq<int>,
                         b12: seq<int>, b21: seq<int>, b22: seq<int>)
    requires Square(k, a11) && Square(k, a12) && Square(k, a21) && Square(k, a22)
    requires Square(k, b11) && Square(k, b12) && Square(k, b21) && Square(k, b22)
    ensures Sub(Add(Add(Product(k, Add(a11, a22), Add(b11, b22)), Product(k, a22, Sub(b21, b11))),
                    Product(k, Sub(a12, a22), Add(b21, b22))), Product(k, Add(a11, a12), b22))
         == Add(Product(k, a11, b11), Product(k, a12, b21))
    ensures Add(Product(k, a11, Sub(b12, b22)), Product(k, Add(a11, a12), b22))
         == Add(Product(k, a11, b12), Product(k, a12, b22))
    ensures Add(Product(k, Add(a21, a22), b11), Product(k, a22, Sub(b21, b11)))
         == Add(Product(k, a21, b11), Product(k, a22, b21))
    ensures Sub(Add(Add(Product(k, Add(a11, a22), Add(b11, b22)), Product(k, a11, Sub(b12, b22))),
                    Product(k, Sub(a21, a11), Add(b11, b12))), Product(k, Add(a21, a22), b11))
         == Add(Product(k, a21, b12), Product(k, a22, b22))
  {
    hide Product;
    ProductOfTwo(k, a11, true, a22, b11, true, b22);
    ProductOfTwo(k, a12, false, a22, b21, true, b22);
    ProductOfTwo(k, a21, false, a11, b11, true, b12);
    ProductRight(k, a22, b21, false, b11);
    ProductRight(k, a11, b12, false, b22);
    ProductLeft(k, a11, true, a12, b22);
    ProductLeft(k, a21, true, a22, b11);
  }

  lemma StrassenBlocks(k: nat, a: seq<int>, b: seq<int>, was: seq<int>, lo: nat)
    requires Square(k + 1, a) && Square(k + 1, b) && lo + |a| <= |was|
    ensures var (a11, a12, a21, a22) := QuarterChunks(a); var (b11, b12, b21, b22) := QuarterChunks(b);
            && Square(k, a11) && Square(k, a12) && Square(k, a21) && Square(k, a22)
            && Square(k, b11) && Square(k, b12) && Square(k, b21) && Square(k, b22)
            && FourBlocks(was, lo,
                          Add(Product(k, a11, b11), Product(k, a12, b21)),
                          Add(Product(k, a11, b12), Product(k, a12, b22)),
                          Add(Product(k, a21, b11), Product(k, a22, b21)),
                          Add(Product(k, a21, b12), Product(k, a22, b22)))
               == Splice(was, lo, Product(k + 1, a, b))
  {
    hide Product, Splice, QuarterChunks, Block, Combine;
    QuartersAreBlocks(k, a);
    QuartersAreBlocks(k, b);
    ProductBlock(k, a, b, false, false);
    ProductBlock(k, a, b, false, true);
    ProductBlock(k, a, b, true, false);
    ProductBlock(k, a, b, true, true);
    var c := Product(k + 1, a, b);
    BlocksCompose(k, c);
    SpliceFour(was, lo, Pow4(k), Block(k, c, false, false), Block(k, c, false, true), Block(k, c, true, false),
               Block(k, c, true, true));
  }

  // Row-major multiplication

  function TrailingZeros(x: nat): nat
    requires x > 0
  {
    if x % 2 == 1 then 0 else 1 + TrailingZeros(x / 2)
  }

  lemma {:induction false} TrailingZerosOfPow4(k: nat)
    ensures TrailingZeros(Pow4(k)) == 2 * k
  {
    if k != 0 {
      TrailingZerosOfPow4(k - 1);
      assert Pow4(k) / 2 == 2 * Pow4(k - 1) && 2 * Pow4(k - 1) / 2 == Pow4(k - 1);
    }
  }

  lemma {:induction false} OrShifted(k: nat, i: nat, m: nat)
    requires m < Pow2(k)
    ensures BitOr(i * Pow2(k), m) == i * Pow2(k) + m
  {
    if k != 0 {
      hide BitOr;
      var m', b := SplitBit(m);
      OrShifted(k - 1, i, m');
      Doubled(i, Pow2(k - 1));
      OrBit(i * Pow2(k), i * Pow2(k - 1), 0, m, m', b);
    }
  }

  lemma Doubled(i: nat, p: nat)
    ensures i * (2 * p) == 2 * (i * p)
  {
  }

  lemma RowMajorBound(k: nat, i: nat, j: nat)
    requires i < Pow2(k) && j < Pow2(k)
    ensures i * Pow2(k) + j < Pow4(k)
  {
    Pow4IsSquare(k);
    RowBefore(Pow2(k), i, j, Pow2(k));
  }

  function RowMajorAt(k: nat, a: seq<int>, i: nat, j: nat): int
    requires Square(k, a) && i < Pow2(k) && j < Pow2(k)
  {
    RowMajorBound(k, i, j);
    a[i * Pow2(k) + j]
  }

  function RowMajorTerms(k: nat, a: seq<int>, b: seq<int>, i: nat, j: nat): (s: seq<int>)
    requires Square(k, a) && Square(k, b) && i < Pow2(k) && j < Pow2(k)
    ensures |s| == Pow2(k)
  {
    seq(Pow2(k), m requires 0 <= m < Pow2(k) => RowMajorAt(k, a, i, m) * RowMajorAt(k, b, m, j))
  }

  ghost predicate IsRowMajorProduct(k: nat, a: seq<int>, b: seq<int>, d: seq<int>)
    requires Square(k, a) && Square(k, b)
  {
    Square(k, d)
    && forall i: nat, j: nat | i < Pow2(k) && j < Pow2(k) ::
      RowMajorAt(k, d, i, j) == Sum(RowMajorTerms(k, a, b, i, j))
  }

  /** The Morton permutation of a row-major matrix. */
  function ToZOrder(k: nat, a: seq<int>): (z: seq<int>)
    requires Square(k, a)
    ensures Square(k, z)
  {
    seq(Pow4(k), x requires 0 <= x < Pow4(k) => RowColBound(k, x); RowMajorAt(k, a, Row(x), Col(x)))
  }

  lemma AtToZOrder(k: nat, a: seq<int>, i: nat, j: nat)
    requires Square(k, a) && i < Pow2(k) && j < Pow2(k)
    ensures At(k, ToZOrder(k, a), i, j) == RowMajorAt(k, a, i, j)
  {
    hide Row, Col, RowMajorAt;
    MortonBound(k, i, j);
    RowColOfMorton(i, j);
  }

  /** Multiplying in row-major order and permuting equals permuting and multiplying in Morton order. */
  lemma RowMajorAgreesWithZOrder(k: nat, a: seq<int>, b: seq<int>, d: seq<int>)
    requires Square(k, a) && Square(k, b) && IsRowMajorProduct(k, a, b, d)
    ensures ToZOrder(k, d) == Product(k, ToZOrder(k, a), ToZOrder(k, b))
  {
    hide Row, Col, RowMajorAt, At;
    forall x | 0 <= x < Pow4(k)
      ensures ToZOrder(k, d)[x] == Product(k, ToZOrder(k, a), ToZOrder(k, b))[x]
    {
      RowColBound(k, x);
      TermsToZOrder(k, a, b, Row(x), Col(x));
    }
  }

  lemma TermsToZOrder(k: nat, a: seq<int>, b: seq<int>, i: nat, j: nat)
    requires Square(k, a) && Square(k, b) && i < Pow2(k) && j < Pow2(k)
    ensures Terms(k, ToZOrder(k, a), ToZOrder(k, b), i, j) == RowMajorTerms(k, a, b, i, j)
  {
    hide RowMajorAt, At, ToZOrder;
    forall m | 0 <= m < Pow2(k)
      ensures Terms(k, ToZOrder(k, a), ToZOrder(k, b), i, j)[m] == RowMajorTerms(k, a, b, i, j)[m]
    {
      AtToZOrder(k, a, i, m);
      AtToZOrder(k, b, m, j);
    }
  }

  method InnerProductRowMajor(a: seq<int>, b: seq<int>, i: nat, j: nat, bits: nat, ghost k: nat) returns (sum: int)
    requires Square(k, a) && Square(k, b) && i < Pow2(k) && j < Pow2(k) && bits == k
    ensures sum == Sum(RowMajorTerms(k, a, b, i, j))
  {
    hide BitOr, Pow2, Pow4;
    ghost var terms := RowMajorTerms(k, a, b, i, j);
    sum := 0;
    for m := 0 to Pow2(bits)
      invariant sum == Sum(terms[..m])
    {
      OrShifted(k, i, m);
      OrShifted(k, m, j);
      RowMajorBound(k, i, m);
      RowMajorBound(k, m, j);
      var u, v := BitOr(i * Pow2(bits), m), BitOr(m * Pow2(bits), j);
      assert a[u] == RowMajorAt(k, a, i, m) && b[v] == RowMajorAt(k, b, m, j);
      assert terms[..m + 1][..m] == terms[..m];
      sum := sum + a[u] * b[v];
    }
    assert terms[..Pow2(k)] == terms;
  }

  ghost predicate RowsDone(k: nat, a: seq<int>, b: seq<int>, d: seq<int>, i: nat, j: nat)
    requires Square(k, a) && Square(k, b) && Square(k, d)
  {
    forall r: nat, c: nat | r < Pow2(k) && c < Pow2(k) && (r < i || (r == i && c < j)) ::
      RowMajorAt(k, d, r, c) == Sum(RowMajorTerms(k, a, b, r, c))
  }

  method SeqMatMul(a: seq<int>, b: seq<int>, dest: array<int>, ghost k: nat)
    requires Square(k, a) && Square(k, b) && dest.Length == Pow4(k)
    modifies dest
    ensures IsRowMajorProduct(k, a, b, dest[..])
  {
    hide BitOr, Sum, RowMajorTerms;
    TrailingZerosOfPow4(k);
    var bits := TrailingZeros(dest.Length) / 2;
    var n := Pow2(bits);
    for d := 0 to dest.Length { dest[d] := 0; }
    for i := 0 to n
      invariant RowsDone(k, a, b, dest[..], i, 0)
    {
      for j := 0 to n
        invariant RowsDone(k, a, b, dest[..], i, j)
      {
        var sum := InnerProductRowMajor(a, b, i, j, bits, k);
        OrShifted(k, i, j);
        RowMajorBound(k, i, j);
        ghost var was := dest[..];
        dest[BitOr(i * Pow2(bits), j)] := sum;
        RowsStep(k, a, b, was, i, j, sum);
        assert dest[..] == was[i * Pow2(k) + j := sum];
      }
    }
  }

  lemma RowsStep(k: nat, a: seq<int>, b: seq<int>, d: seq<int>, i: nat, j: nat, sum: int)
    requires Square(k, a) && Square(k, b) && Square(k, d) && i < Pow2(k) && j < Pow2(k)
    requires RowsDone(k, a, b, d, i, j) && sum == Sum(RowMajorTerms(k, a, b, i, j))
    requires i * Pow2(k) + j < |d|
    ensures RowsDone(k, a, b, d[i * Pow2(k) + j := sum], i, j + 1)
  {
    hide Sum, RowMajorTerms, Pow2, Pow4;
    forall r: nat, c: nat | r < Pow2(k) && c < Pow2(k) && (r < i || (r == i && c < j + 1))
      ensures RowMajorAt(k, d[i * Pow2(k) + j := sum], r, c) == Sum(RowMajorTerms(k, a, b, r, c))
    {
      RowMajorBound(k, r, c);
      if r < i { RowBefore(Pow2(k), r, c, i); }
      assert r * Pow2(k) + c != i * Pow2(k) + j || (r == i && c == j);
    }
  }

  lemma RowBefore(p: nat, r: nat, c: nat, i: nat)
    requires r < i && c < p
    ensures r * p + c < i * p
  {
    assert (r + 1) * p <= i * p;
    assert (r + 1) * p == r * p + p;
  }
}

/** Square matrices of side 2^k stored in Z-order, and their mathematical product. */
module ZMatrix {
  import opened Bits

  predicate Square(k: nat, a: seq<int>) {
    |a| == Pow4(k)
  }

  /** Row i, column j of a matrix in Z-order. */
  function At(k: nat, a: seq<int>, i: nat, j: nat): int
    requires Square(k, a) && i < Pow2(k) && j < Pow2(k)
  {
    MortonBound(k, i, j);
    a[Morton(i, j)]
  }

  function Sum(s: seq<int>): int {
    if s == [] then 0 else Sum(s[..|s| - 1]) + s[|s| - 1]
  }

  /** The terms of the inner product of row i of a and column j of b. */
  function Terms(k: nat, a: seq<int>, b: seq<int>, i: nat, j: nat): (s: seq<int>)
    requires Square(k, a) && Square(k, b) && i < Pow2(k) && j < Pow2(k)
    ensures |s| == Pow2(k)
  {
    seq(Pow2(k), m requires 0 <= m < Pow2(k) => At(k, a, i, m) * At(k, b, m, j))
  }

  function Entry(k: nat, a: seq<int>, b: seq<int>, x: nat): int
    requires Square(k, a) && Square(k, b) && x < Pow4(k)
  {
    RowColBound(k, x);
    Sum(Terms(k, a, b, Row(x), Col(x)))
  }

  /** The matrix product, in Z-order. */
  function Product(k: nat, a: seq<int>, b: seq<int>): (d: seq<int>)
    requires Square(k, a) && Square(k, b)
    ensures Square(k, d)
  {
    seq(Pow4(k), x requires 0 <= x < Pow4(k) => Entry(k, a, b, x))
  }

  /** Element-wise sum (plus) or difference. */
  function Combine(a: seq<int>, plus: bool, b: seq<int>): (d: seq<int>)
    requires |a| == |b|
    ensures |d| == |a|
  {
    seq(|a|, x requires 0 <= x < |a| => if plus then a[x] + b[x] else a[x] - b[x])
  }

  function Add(a: seq<int>, b: seq<int>): (d: seq<int>)
    requires |a| == |b|
    ensures |d| == |a|
  {
    Combine(a, true, b)
  }

  function Sub(a: seq<int>, b: seq<int>): (d: seq<int>)
    requires |a| == |b|
    ensures |d| == |a|
  {
    Combine(a, false, b)
  }

  /** Where the block with block row h and block column l starts. */
  function Offset(k: nat, h: bool, l: bool): nat {
    Upper(h, 2 * Pow4(k)) + Upper(l, Pow4(k))
  }

  /** The block with block row h and block column l: a quarter of the sequence. */
  function Block(k: nat, a: seq<int>, h: bool, l: bool): (d: seq<int>)
    requires Square(k + 1, a)
    ensures Square(k, d)
  {
    a[Offset(k, h, l)..Offset(k, h, l) + Pow4(k)]
  }

  /** The product entry at row i and column j is the inner product. */
  lemma ProductAt(k: nat, a: seq<int>, b: seq<int>, i: nat, j: nat)
    requires Square(k, a) && Square(k, b) && i < Pow2(k) && j < Pow2(k)
    ensures At(k, Product(k, a, b), i, j) == Sum(Terms(k, a, b, i, j))
  {
    hide Row, Col, Sum, Terms;
    MortonBound(k, i, j);
    RowColOfMorton(i, j);
  }

  // Sums

  lemma {:induction false} SumConcat(s: seq<int>, t: seq<int>)
    ensures Sum(s + t) == Sum(s) + Sum(t)
  {
    if t == [] {
      assert s + t == s;
    } else {
      var n := |t| - 1;
      SumConcat(s, t[..n]);
      assert (s + t)[..|s| + n] == s + t[..n];
    }
  }

  lemma {:induction false} SumCombine(s: seq<int>, plus: bool, t: seq<int>)
    requires |s| == |t|
    ensures Sum(Combine(s, plus, t)) == if plus then Sum(s) + Sum(t) else Sum(s) - Sum(t)
  {
    if s != [] {
      var n := |s| - 1;
      SumCombine(s[..n], plus, t[..n]);
      assert Combine(s, plus, t)[..n] == Combine(s[..n], plus, t[..n]);
    }
  }

  // Blocks

  lemma AtBlock(k: nat, a: seq<int>, h: bool, i: nat, r: nat, l: bool, j: nat, c: nat)
    requires Square(k + 1, a) && i < Pow2(k) && j < Pow2(k)
    requires r == Upper(h, Pow2(k)) + i && c == Upper(l, Pow2(k)) + j
    ensures At(k + 1, a, r, c) == At(k, Block(k, a, h, l), i, j)
  {
    hide Spread;
    MortonHigh(k, h, i, l, j);
    MortonBound(k, i, j);
  }

  lemma TermOfBlock(k: nat, a: seq<int>, b: seq<int>, h: bool, i: nat, r: nat, l: bool, j: nat, c: nat, upper: bool,
                    m: nat, m': nat)
    requires Square(k + 1, a) && Square(k + 1, b) && i < Pow2(k) && j < Pow2(k) && m < Pow2(k)
    requires r == Upper(h, Pow2(k)) + i && c == Upper(l, Pow2(k)) + j && m' == Upper(upper, Pow2(k)) + m
    ensures Terms(k + 1, a, b, r, c)[m'] == Terms(k, Block(k, a, h, upper), Block(k, b, upper, l), i, j)[m]
  {
    hide At, Block;
    AtBlock(k, a, h, i, r, upper, m, m');
    AtBlock(k, b, upper, m, m', l, j, c);
  }

  lemma TermsOfBlock(k: nat, a: seq<int>, b: seq<int>, h: bool, i: nat, r: nat, l: bool, j: nat, c: nat)
    requires Square(k + 1, a) && Square(k + 1, b) && i < Pow2(k) && j < Pow2(k)
    requires r == Upper(h, Pow2(k)) + i && c == Upper(l, Pow2(k)) + j
    ensures Terms(k + 1, a, b, r, c)
         == Terms(k, Block(k, a, h, false), Block(k, b, false, l), i, j)
            + Terms(k, Block(k, a, h, true), Block(k, b, true, l), i, j)
  {
    hide Terms, Block;
    var p := Pow2(k);
    var all := Terms(k + 1, a, b, r, c);
    var low := Terms(k, Block(k, a, h, false), Block(k, b, false, l), i, j);
    var high := Terms(k, Block(k, a, h, true), Block(k, b, true, l), i, j);
    forall m' | 0 <= m' < 2 * p
      ensures all[m'] == (low + high)[m']
    {
      if m' < p {
        TermOfBlock(k, a, b, h, i, r, l, j, c, false, m', m');
      } else {
        TermOfBlock(k, a, b, h, i, r, l, j, c, true, m' - p, m');
      }
    }
  }

  lemma RowColOfBlock(k: nat, h: bool, l: bool, x: nat)
    requires x < Pow4(k)
    ensures Row(Offset(k, h, l) + x) == Upper(h, Pow2(k)) + Row(x)
    ensures Col(Offset(k, h, l) + x) == Upper(l, Pow2(k)) + Col(x)
  {
    hide Row, Col, Spread, Pow2, Pow4;
    RowColBound(k, x);
    MortonHigh(k, h, Row(x), l, Col(x));
    MortonOfRowCol(x);
    RowColOfMorton(Upper(h, Pow2(k)) + Row(x), Upper(l, Pow2(k)) + Col(x));
  }

  lemma EntryOfBlock(k: nat, a: seq<int>, b: seq<int>, h: bool, l: bool, x: nat)
    requires Square(k + 1, a) && Square(k + 1, b) && x < Pow4(k)
    ensures Entry(k + 1, a, b, Offset(k, h, l) + x)
         == Entry(k, Block(k, a, h, false), Block(k, b, false, l), x)
            + Entry(k, Block(k, a, h, true), Block(k, b, true, l), x)
  {
    hide Row, Col, Terms, Block, Sum;
    RowColBound(k, x);
    RowColOfBlock(k, h, l, x);
    TermsOfBlock(k, a, b, h, Row(x), Row(Offset(k, h, l) + x), l, Col(x), Col(Offset(k, h, l) + x));
    SumConcat(Terms(k, Block(k, a, h, false), Block(k, b, false, l), Row(x), Col(x)),
              Terms(k, Block(k, a, h, true), Block(k, b, true, l), Row(x), Col(x)));
  }

  /** A block of the product is the sum of two products of blocks. */
  lemma ProductBlock(k: nat, a: seq<int>, b: seq<int>, h: bool, l: bool)
    requires Square(k + 1, a) && Square(k + 1, b)
    ensures Block(k, Product(k + 1, a, b), h, l)
         == Add(Product(k, Block(k, a, h, false), Block(k, b, false, l)),
                Product(k, Block(k, a, h, true), Block(k, b, true, l)))
  {
    hide Entry;
    var left := Block(k, Product(k + 1, a, b), h, l);
    forall x | 0 <= x < Pow4(k)
      ensures left[x] == Entry(k, Block(k, a, h, false), Block(k, b, false, l), x)
                         + Entry(k, Block(k, a, h, true), Block(k, b, true, l), x)
    {
      assert left[x] == Product(k + 1, a, b)[Offset(k, h, l) + x];
      EntryOfBlock(k, a, b, h, l, x);
    }
  }

  /** A matrix is the concatenation of its blocks. */
  lemma BlocksCompose(k: nat, a: seq<int>)
    requires Square(k + 1, a)
    ensures a == Block(k, a, false, false) + Block(k, a, false, true) + Block(k, a, true, false)
            + Block(k, a, true, true)
  {
  }

  // Bilinearity

  lemma Distribute(u: int, v: int, w: int)
    ensures (u + v) * w == u * w + v * w && (u - v) * w == u * w - v * w
    ensures w * (u + v) == w * u + w * v && w * (u - v) == w * u - w * v
  {
  }

  lemma AtCombine(k: nat, a: seq<int>, plus: bool, c: seq<int>, i: nat, j: nat)
    requires Square(k, a) && Square(k, c) && i < Pow2(k) && j < Pow2(k)
    ensures At(k, Combine(a, plus, c), i, j) == if plus then At(k, a, i, j) + At(k, c, i, j)
            else At(k, a, i, j) - At(k, c, i, j)
  {
    MortonBound(k, i, j);
  }

  lemma TermsLeft(k: nat, a: seq<int>, plus: bool, c: seq<int>, b: seq<int>, i: nat, j: nat)
    requires Square(k, a) && Square(k, b) && Square(k, c) && i < Pow2(k) && j < Pow2(k)
    ensures Terms(k, Combine(a, plus, c), b, i, j) == Combine(Terms(k, a, b, i, j), plus, Terms(k, c, b, i, j))
  {
    hide At;
    forall m | 0 <= m < Pow2(k)
      ensures Terms(k, Combine(a, plus, c), b, i, j)[m] == Combine(Terms(k, a, b, i, j), plus, Terms(k, c, b, i, j))[m]
    {
      AtCombine(k, a, plus, c, i, m);
      Distribute(At(k, a, i, m), At(k, c, i, m), At(k, b, m, j));
    }
  }

  lemma TermsRight(k: nat, a: seq<int>, b: seq<int>, plus: bool, c: seq<int>, i: nat, j: nat)
    requires Square(k, a) && Square(k, b) && Square(k, c) && i < Pow2(k) && j < Pow2(k)
    ensures Terms(k, a, Combine(b, plus, c), i, j) == Combine(Terms(k, a, b, i, j), plus, Terms(k, a, c, i, j))
  {
    hide At;
    forall m | 0 <= m < Pow2(k)
      ensures Terms(k, a, Combine(b, plus, c), i, j)[m] == Combine(Terms(k, a, b, i, j), plus, Terms(k, a, c, i, j))[m]
    {
      AtCombine(k, b, plus, c, m, j);
      Distribute(At(k, b, m, j), At(k, c, m, j), At(k, a, i, m));
    }
  }

  lemma ProductLeft(k: nat, a: seq<int>, plus: bool, c: seq<int>, b: seq<int>)
    requires Square(k, a) && Square(k, b) && Square(k, c)
    ensures Product(k, Combine(a, plus, c), b) == Combine(Product(k, a, b), plus, Product(k, c, b))
  {
    hide Row, Col, Terms, Sum;
    forall x | 0 <= x < Pow4(k)
      ensures Product(k, Combine(a, plus, c), b)[x] == Combine(Product(k, a, b), plus, Product(k, c, b))[x]
    {
      RowColBound(k, x);
      TermsLeft(k, a, plus, c, b, Row(x), Col(x));
      SumCombine(Terms(k, a, b, Row(x), Col(x)), plus, Terms(k, c, b, Row(x), Col(x)));
    }
  }

  lemma ProductRight(k: nat, a: seq<int>, b: seq<int>, plus: bool, c: seq<int>)
    requires Square(k, a) && Square(k, b) && Square(k, c)
    ensures Product(k, a, Combine(b, plus, c)) == Combine(Product(k, a, b), plus, Product(k, a, c))
  {
    hide Row, Col, Terms, Sum;
    forall x | 0 <= x < Pow4(k)
      ensures Product(k, a, Combine(b, plus, c))[x] == Combine(Product(k, a, b), plus, Product(k, a, c))[x]
    {
      RowColBound(k, x);
      TermsRight(k, a, b, plus, c, Row(x), Col(x));
      SumCombine(Terms(k, a, b, Row(x), Col(x)), plus, Terms(k, a, c, Row(x), Col(x)));
    }
  }

  /** (a ± c)(b ± d) expands into four products. */
  lemma ProductOfTwo(k: nat, a: seq<int>, p: bool, c: seq<int>, b: seq<int>, q: bool, d: seq<int>)
    requires Square(k, a) && Square(k, b) && Square(k, c) && Square(k, d)
    ensures Product(k, Combine(a, p, c), Combine(b, q, d))
         == Combine(Combine(Product(k, a, b), q, Product(k, a, d)), p, Combine(Product(k, c, b), q, Product(k, c, d)))
  {
    ProductLeft(k, a, p, c, Combine(b, q, d));
    ProductRight(k, a, b, q, d);
    ProductRight(k, c, b, q, d);
  }

  // The identity matrix

  function Identity(k: nat): (d: seq<int>)
    ensures Square(k, d)
  {
    seq(Pow4(k), x requires 0 <= x < Pow4(k) => if Row(x) == Col(x) then 1 else 0)
  }

  lemma IdentityAt(k: nat, i: nat, j: nat)
    requires i < Pow2(k) && j < Pow2(k)
    ensures At(k, Identity(k), i, j) == if i == j then 1 else 0
  {
    hide Row, Col;
    MortonBound(k, i, j);
    RowColOfMorton(i, j);
  }

  /** A sum with one term that is not zero. */
  lemma {:induction false} SumOfOne(s: seq<int>, m: nat)
    requires m < |s| && forall i :: 0 <= i < |s| && i != m ==> s[i] == 0
    ensures Sum(s) == s[m]
  {
    var n := |s| - 1;
    if m == n { SumOfNone(s[..n]); } else { SumOfOne(s[..n], m); }
  }

  lemma {:induction false} SumOfNone(s: seq<int>)
    requires forall i :: 0 <= i < |s| ==> s[i] == 0
    ensures Sum(s) == 0
  {
    if s != [] { SumOfNone(s[..|s| - 1]); }
  }

  /** The identity matrix is the unit of the product, on both sides. */
  lemma ProductWithIdentity(k: nat, a: seq<int>)
    requires Square(k, a)
    ensures Product(k, Identity(k), a) == a && Product(k, a, Identity(k)) == a
  {
    hide Row, Col, Sum, Identity, Morton;
    forall x | 0 <= x < Pow4(k)
      ensures Product(k, Identity(k), a)[x] == a[x] && Product(k, a, Identity(k))[x] == a[x]
    {
      RowColBound(k, x);
      MortonOfRowCol(x);
      EntryWithIdentity(k, a, Row(x), Col(x));
    }
  }

  lemma EntryWithIdentity(k: nat, a: seq<int>, i: nat, j: nat)
    requires Square(k, a) && i < Pow2(k) && j < Pow2(k)
    ensures Sum(Terms(k, Identity(k), a, i, j)) == At(k, a, i, j)
    ensures Sum(Terms(k, a, Identity(k), i, j)) == At(k, a, i, j)
  {
    hide Sum, Identity, At;
    forall m | 0 <= m < Pow2(k)
      ensures At(k, Identity(k), i, m) == (if i == m then 1 else 0)
      ensures At(k, Identity(k), m, j) == (if m == j then 1 else 0)
    {
      IdentityAt(k, i, m);
      IdentityAt(k, m, j);
    }
    SumOfOne(Terms(k, Identity(k), a, i, j), i);
    SumOfOne(Terms(k, a, Identity(k), i, j), j);
  }
}

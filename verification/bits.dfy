/**
 * Sixty-four-square occupancy sets as 64-bit words.
 *
 * Square index = rank * 8 + file, so A1 is bit 0 and H8 is bit 63.
 * The set view `Squares` turns a word into the set of indices of its set
 * bits; `PopCount` (Python's `bin(x).count("1")`) is the size of that set.
 */
module Bits {

  /** The 64-bit all-ones word, `0xFFFFFFFFFFFFFFFF`. */
  const FULL: bv64 := 0xFFFF_FFFF_FFFF_FFFF

  /** The one-square set `1 << i`. */
  function Sq(i: int): bv64
    requires 0 <= i < 64
  {
    (1 as bv64) << i
  }

  /** `x` and the mask `m` share a square: the test `x & m` of the source. */
  predicate Has(x: bv64, m: bv64)
  {
    x & m != 0
  }

  /** Square `i` is in the set `x`. */
  predicate Bit(x: bv64, i: int)
    requires 0 <= i < 64
  {
    Has(x, Sq(i))
  }

  /** `m` holds exactly one square. */
  predicate Single(m: bv64)
  {
    m != 0 && m & (m - 1) == 0
  }

  /** `a` is a subset of `b`. */
  predicate SubsetOf(a: bv64, b: bv64)
  {
    a & !b == 0
  }

  /** `a` and `b` share no square. */
  predicate Apart(a: bv64, b: bv64)
  {
    a & b == 0
  }

  lemma ApartSym(a: bv64, b: bv64)
    requires Apart(a, b)
    ensures Apart(b, a)
  {}

  /** The union `a | b` of two sets. */
  function Union(a: bv64, b: bv64): bv64
  {
    a | b
  }

  lemma AllOnes(x: bv64)
    ensures x & FULL == x
  {}

  lemma SubsetUnion(a: bv64, b: bv64, c: bv64)
    requires SubsetOf(a, c) && SubsetOf(b, c)
    ensures SubsetOf(a | b, c)
  {}

  lemma SubsetMeet(a: bv64, b: bv64)
    ensures SubsetOf(a & b, a) && SubsetOf(a & b, b)
  {}

  lemma SubsetTrans(a: bv64, b: bv64, c: bv64)
    requires SubsetOf(a, b) && SubsetOf(b, c)
    ensures SubsetOf(a, c)
  {}

  /** The indices of the set bits of `x`. */
  function Squares(x: bv64): set<int>
  {
    set i | 0 <= i < 64 && Bit(x, i)
  }

  /** Number of set bits of `x`. */
  function PopCount(x: bv64): nat
  {
    |Squares(x)|
  }

  // ---------------------------------------------------------------
  // Bit-level facts. The word-level ones take an arbitrary one-square
  // mask; the bridges to an integer index go through a 7-bit shift
  // amount, the width the shifts of a 64-bit word use.
  // ---------------------------------------------------------------

  lemma SqSingle(i: int)
    requires 0 <= i < 64
    ensures Single(Sq(i))
  {}

  lemma HasOr(a: bv64, b: bv64, m: bv64)
    ensures Has(a | b, m) <==> Has(a, m) || Has(b, m)
  {
    assert (a | b) & m == (a & m) | (b & m);
  }

  lemma HasAnd(a: bv64, b: bv64, m: bv64)
    requires Single(m)
    ensures Has(a & b, m) <==> Has(a, m) && Has(b, m)
  {}

  lemma HasNot(a: bv64, m: bv64)
    requires Single(m)
    ensures Has(!a, m) <==> !Has(a, m)
  {}

  lemma HasXor(a: bv64, b: bv64, m: bv64)
    requires Single(m)
    ensures Has(a ^ b, m) <==> Has(a, m) != Has(b, m)
  {}

  lemma BitOr(a: bv64, b: bv64, i: int)
    requires 0 <= i < 64
    ensures Bit(a | b, i) <==> Bit(a, i) || Bit(b, i)
  {
    HasOr(a, b, Sq(i));
  }

  lemma BitAnd(a: bv64, b: bv64, i: int)
    requires 0 <= i < 64
    ensures Bit(a & b, i) <==> Bit(a, i) && Bit(b, i)
  {
    SqSingle(i);
    HasAnd(a, b, Sq(i));
  }

  lemma BitNot(a: bv64, i: int)
    requires 0 <= i < 64
    ensures Bit(!a, i) <==> !Bit(a, i)
  {
    SqSingle(i);
    HasNot(a, Sq(i));
  }

  lemma BitXor(a: bv64, b: bv64, i: int)
    requires 0 <= i < 64
    ensures Bit(a ^ b, i) <==> Bit(a, i) != Bit(b, i)
  {
    SqSingle(i);
    HasXor(a, b, Sq(i));
  }

  lemma SqAsBv(i: int)
    requires 0 <= i < 64
    ensures Sq(i) == (1 as bv64) << (i as bv7)
  {}

  lemma AsBvRound(i: int)
    requires 0 <= i < 64
    ensures (i as bv7) as int == i
  {}

  lemma SqBv(j: bv7, k: bv7)
    requires j < 64 && k < 64
    ensures Has((1 as bv64) << j, (1 as bv64) << k) <==> j == k
  {}

  lemma BitSq(j: int, i: int)
    requires 0 <= j < 64 && 0 <= i < 64
    ensures Bit(Sq(j), i) <==> i == j
  {
    SqAsBv(i);
    SqAsBv(j);
    SqBv(j as bv7, i as bv7);
    AsBvRound(i);
    AsBvRound(j);
  }

  lemma ShiftAsBv(x: bv64, i: int)
    requires 0 <= i < 64
    ensures x >> i == x >> (i as bv7)
  {}

  lemma ShiftTestBv(x: bv64, k: bv7)
    requires k < 64
    ensures (x >> k) & 1 == 1 <==> Has(x, (1 as bv64) << k)
  {}

  /** The test `(x >> i) & 1` with which the listing loops read square `i` of `x`. */
  predicate ShiftBit(x: bv64, i: int)
    requires 0 <= i < 64
  {
    (x >> i) & 1 == 1
  }

  /** The shift test agrees with `Bit`. */
  lemma ShiftTest(x: bv64, i: int)
    requires 0 <= i < 64
    ensures ShiftBit(x, i) <==> Bit(x, i)
  {
    SqAsBv(i);
    ShiftAsBv(x, i);
    ShiftTestBv(x, i as bv7);
  }

  // ---------------------------------------------------------------
  // The set view.
  // ---------------------------------------------------------------

  lemma SquaresUnion(a: bv64, b: bv64)
    ensures Squares(a | b) == Squares(a) + Squares(b)
  {
    forall i | 0 <= i < 64
      ensures Bit(a | b, i) <==> Bit(a, i) || Bit(b, i)
    {
      BitOr(a, b, i);
    }
  }

  lemma SquaresDisjoint(a: bv64, b: bv64)
    requires a & b == 0
    ensures Squares(a) !! Squares(b)
  {
    forall i | 0 <= i < 64
      ensures !(Bit(a, i) && Bit(b, i))
    {
      BitAnd(a, b, i);
    }
  }

  lemma SquaresSq(j: int)
    requires 0 <= j < 64
    ensures Squares(Sq(j)) == {j}
  {
    forall i | 0 <= i < 64
      ensures Bit(Sq(j), i) <==> i == j
    {
      BitSq(j, i);
    }
  }

  /** The counts of two disjoint sets add up. */
  lemma PopCountDisjointUnion(a: bv64, b: bv64)
    requires a & b == 0
    ensures PopCount(a | b) == PopCount(a) + PopCount(b)
  {
    SquaresUnion(a, b);
    SquaresDisjoint(a, b);
  }

  /** Removing a subset `s` of `a` lowers its count by the count of `s`. */
  lemma PopCountRemove(a: bv64, s: bv64)
    requires SubsetOf(s, a)
    ensures PopCount(a ^ s) + PopCount(s) == PopCount(a)
  {
    SquaresRemove(a, s);
    CardRemove(Squares(a), Squares(s));
  }

  lemma CardRemove(A: set<int>, S: set<int>)
    requires S <= A
    ensures |A - S| + |S| == |A|
  {
    assert A == (A - S) + S;
  }

  lemma SquaresRemove(a: bv64, s: bv64)
    requires SubsetOf(s, a)
    ensures Squares(a ^ s) == Squares(a) - Squares(s)
    ensures Squares(s) <= Squares(a)
  {
    forall i | 0 <= i < 64
      ensures Bit(a ^ s, i) <==> Bit(a, i) && !Bit(s, i)
      ensures Bit(s, i) ==> Bit(a, i)
    {
      BitXor(a, s, i);
      BitAnd(s, !a, i);
      BitNot(a, i);
    }
  }

  lemma PopCountSq(j: int)
    requires 0 <= j < 64
    ensures PopCount(Sq(j)) == 1
  {
    SquaresSq(j);
  }

  /** The indices below `n`. */
  function Below(n: nat): (r: set<int>)
    ensures forall i :: i in r <==> 0 <= i < n
  {
    if n == 0 then {} else Below(n - 1) + {n - 1}
  }

  lemma {:induction false} BelowCard(n: nat)
    ensures |Below(n)| == n
  {
    if n > 0 {
      BelowCard(n - 1);
    }
  }

  /** No word holds more than 64 squares. */
  lemma PopCountBound(x: bv64)
    ensures PopCount(x) <= 64
  {
    BelowCard(64);
    assert Squares(x) <= Below(64);
    SubsetCard(Squares(x), Below(64));
  }

  lemma SubsetCard(a: set<int>, b: set<int>)
    requires a <= b
    ensures |a| <= |b|
  {
    assert b == a + (b - a);
  }
}

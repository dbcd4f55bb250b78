/**
 * The views of a board the engine hands out: the names of the squares in
 * a set, in increasing index order, and the 8 x 8 grid of cell labels with
 * rank 8 on top.
 */
module Listings {
  import opened Bits
  import opened Coords

  /** The names of the squares of `x` with index below `n`, lowest index first. */
  function Listing(x: bv64, n: nat): seq<string>
    requires n <= 64
  {
    if n == 0 then []
    else Listing(x, n - 1) + (if Bit(x, n - 1) then [IndexToSquare(n - 1)] else [])
  }

  /** A stretch of indices holding no square adds nothing to the listing. */
  lemma {:induction false} ListingGap(x: bv64, lo: nat, hi: nat)
    requires lo <= hi <= 64
    requires forall k :: lo <= k < hi ==> !Bit(x, k)
    ensures Listing(x, hi) == Listing(x, lo)
    decreases hi
  {
    if lo < hi {
      ListingGap(x, lo, hi - 1);
    }
  }

  /** The indices of the squares of `x` below `n`, in increasing order. */
  function Indices(x: bv64, n: nat): (r: seq<int>)
    requires n <= 64
    ensures forall k :: 0 <= k < |r| ==> 0 <= r[k] < n && Bit(x, r[k])
  {
    if n == 0 then []
    else Indices(x, n - 1) + (if Bit(x, n - 1) then [n - 1] else [])
  }

  /** The listing names the indices one by one. */
  lemma {:induction false} ListingNames(x: bv64, n: nat)
    requires n <= 64
    ensures |Listing(x, n)| == |Indices(x, n)|
    ensures forall k :: 0 <= k < |Indices(x, n)| ==> Listing(x, n)[k] == IndexToSquare(Indices(x, n)[k])
  {
    if n > 0 {
      ListingNames(x, n - 1);
    }
  }

  /** The indices come in strictly increasing order. */
  lemma {:induction false} IndicesIncreasing(x: bv64, n: nat)
    requires n <= 64
    ensures forall j, k :: 0 <= j < k < |Indices(x, n)| ==> Indices(x, n)[j] < Indices(x, n)[k]
  {
    if n > 0 {
      IndicesIncreasing(x, n - 1);
    }
  }

  /** Every square of `x` below `n` is among the indices. */
  lemma {:induction false} IndicesComplete(x: bv64, n: nat, i: int)
    requires n <= 64 && 0 <= i < n && Bit(x, i)
    ensures i in Indices(x, n)
  {
    if i < n - 1 {
      IndicesComplete(x, n - 1, i);
    }
  }

  /** The squares of `x` with index below `n`. */
  function SquaresBelow(x: bv64, n: nat): set<int>
  {
    set i | 0 <= i < n && i < 64 && Bit(x, i)
  }

  lemma SquaresBelowStep(x: bv64, n: nat)
    requires 0 < n <= 64
    ensures SquaresBelow(x, n) == SquaresBelow(x, n - 1) + (if Bit(x, n - 1) then {n - 1} else {})
  {
    forall i
      ensures i in SquaresBelow(x, n) <==> i in SquaresBelow(x, n - 1) || (i == n - 1 && Bit(x, n - 1))
    {
    }
  }

  /** One index per square: as many indices as squares of `x` below `n`. */
  lemma {:induction false} IndicesCount(x: bv64, n: nat)
    requires n <= 64
    ensures |Indices(x, n)| == |SquaresBelow(x, n)|
  {
    if n == 0 {
      assert SquaresBelow(x, 0) == {};
    } else {
      IndicesCount(x, n - 1);
      SquaresBelowStep(x, n);
      assert n - 1 !in SquaresBelow(x, n - 1);
    }
  }

  /** The whole board's listing has one name per set bit. */
  lemma ListingPopCount(x: bv64)
    ensures |Listing(x, 64)| == PopCount(x)
  {
    ListingNames(x, 64);
    IndicesCount(x, 64);
    assert SquaresBelow(x, 64) == Squares(x);
  }

  // ---------------------------------------------------------------
  // The board grid.
  // ---------------------------------------------------------------

  /** The label of square `idx`: `"B"` for black, else `"W"` for white, else empty. */
  function Cell(black: bv64, white: bv64, idx: int): string
    requires 0 <= idx < 64
  {
    if Bit(black, idx) then "B" else if Bit(white, idx) then "W" else ""
  }

  /** On a board with no doubly-held square, each label says exactly who holds the square. */
  lemma CellMeaning(black: bv64, white: bv64, idx: int)
    requires 0 <= idx < 64 && Apart(black, white)
    ensures Cell(black, white, idx) == "B" <==> Bit(black, idx)
    ensures Cell(black, white, idx) == "W" <==> Bit(white, idx)
    ensures Cell(black, white, idx) == "" <==> !Bit(black, idx) && !Bit(white, idx)
  {
    BitAnd(black, white, idx);
  }

  /** Row `r` of the grid shows rank `8 - r`, so the first row is rank 8. */
  function Row(black: bv64, white: bv64, r: int): seq<string>
    requires 0 <= r < 8
  {
    seq(8, c requires 0 <= c < 8 => Cell(black, white, (7 - r) * 8 + c))
  }

  /** The eight rows of the board, rank 8 first. */
  function Grid(black: bv64, white: bv64): seq<seq<string>>
  {
    seq(8, r requires 0 <= r < 8 => Row(black, white, r))
  }

  /** The cell in row `r`, column `c` is the square named by file `c` and rank `8 - r`. */
  lemma GridNames(black: bv64, white: bv64, r: int, c: int)
    requires 0 <= r < 8 && 0 <= c < 8
    ensures |Grid(black, white)| == 8 && |Grid(black, white)[r]| == 8
    ensures Grid(black, white)[r][c] == Cell(black, white, SquareToIndex([('A' as int + c) as char, ('8' as int - r) as char]))
  {}
}

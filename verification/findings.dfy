/**
 * The west walk of bitboard.py's `make_move`.
 *
 * Every other direction of `make_move` steps its run with the same shift
 * that started it. The west run starts with `move >> 1` but continues with
 * `cand << 1`, which steps back towards the placed stone. That square is
 * empty, so the walk always stops after one stone: westward, at most the
 * single stone next to the move can flip. The table-driven board of web.py
 * walks west with `>> 1` throughout and flips whole runs.
 */
module Findings {
  import opened Bits
  import opened Directions
  import opened Rules
  import opened Properties

  // ---------------------------------------------------------------
  // As written: the west run is cut after one stone.
  // ---------------------------------------------------------------

  lemma BackEastEmpty(move: bv64, opponent: bv64)
    requires Apart(move, opponent)
    ensures Advance(Advance(move, Guard(opponent, West), West), Guard(opponent, West), East) == 0
  {}

  lemma StopsAtOnce(cand: bv64, mask: bv64, cont: Dir)
    requires cand != 0 && Advance(cand, mask, cont) == 0
    ensures Walk(cand, mask, cont) == Run(cand, cand)
  {}

  lemma AdvanceInShift(c: bv64, mask: bv64, d: Dir)
    ensures SubsetOf(Advance(c, mask, d), Shift(c, d))
  {}

  lemma ZeroWithin(s: bv64)
    ensures SubsetOf(0, s)
  {}

  /** The flips of a probe lie within whatever holds its walk's flips. */
  lemma FlipsWithin(move: bv64, player: bv64, opponent: bv64, d: Dir, cont: Dir, s: bv64)
    requires SubsetOf(Walk(Advance(move, Guard(opponent, d), d), Guard(opponent, d), cont).flips, s)
    ensures SubsetOf(FlipsInDir(move, player, opponent, d, cont), s)
  {
    ZeroWithin(s);
  }

  /**
   * bitboard.py's west probe flips at most the one square west of the move,
   * whatever lies beyond it, when the move is not on an opponent stone.
   */
  lemma WestFlipsAtMostOne(move: bv64, player: bv64, opponent: bv64)
    requires Apart(move, opponent)
    ensures SubsetOf(FlipsInDir(move, player, opponent, West, East), Shift(move, West))
  {
    var mask := Guard(opponent, West);
    var cand := Advance(move, mask, West);
    AdvanceInShift(move, mask, West);
    if cand == 0 {
      ZeroWithin(Shift(move, West));
    } else {
      BackEastEmpty(move, opponent);
      StopsAtOnce(cand, mask, East);
    }
    FlipsWithin(move, player, opponent, West, East, Shift(move, West));
  }

  /** The position of the west example: black on A1, white on B1 and C1, black to move. */
  const WEST_EXAMPLE: Position := Position(0x1, 0x6, Black)

  /** Black's only legal square in `WEST_EXAMPLE` is D1, flanking B1 and C1 from A1. */
  lemma WestExampleLegal()
    ensures LegalMoves(WEST_EXAMPLE) == 0x8
  {
    WestExampleEast();
    WestExampleOthers();
    LegalOverAll(0x1, 0x6);
    LegalOverFirstHalf(0x1, 0x6);
  }

  lemma WestExampleEast()
    ensures LegalInDir(0x1, 0x6, East) == 0x8
  {}

  lemma WestExampleOthers()
    ensures LegalInDir(0x1, 0x6, West) == 0
    ensures LegalInDir(0x1, 0x6, North) == 0
    ensures LegalInDir(0x1, 0x6, South) == 0
    ensures LegalInDir(0x1, 0x6, NorthEast) == 0
    ensures LegalInDir(0x1, 0x6, NorthWest) == 0
    ensures LegalInDir(0x1, 0x6, SouthEast) == 0
    ensures LegalInDir(0x1, 0x6, SouthWest) == 0
  {}

  lemma WestExampleFlipsAsWritten()
    ensures TotalFlips(0x8, 0x1, 0x6, BITBOARD_PROBES) == 0
  {
    WestExampleNoFlips();
    TotalFlipsAll(0x8, 0x1, 0x6, BITBOARD_PROBES);
    TotalFlipsFirstHalf(0x8, 0x1, 0x6, BITBOARD_PROBES);
  }

  /** Apart from a west run continuing west, D1 flips nothing in `WEST_EXAMPLE`. */
  lemma WestExampleNoFlips()
    ensures FlipsInDir(0x8, 0x1, 0x6, East, East) == 0
    ensures FlipsInDir(0x8, 0x1, 0x6, West, East) == 0
    ensures FlipsInDir(0x8, 0x1, 0x6, North, North) == 0
    ensures FlipsInDir(0x8, 0x1, 0x6, South, South) == 0
    ensures FlipsInDir(0x8, 0x1, 0x6, NorthEast, NorthEast) == 0
    ensures FlipsInDir(0x8, 0x1, 0x6, NorthWest, NorthWest) == 0
    ensures FlipsInDir(0x8, 0x1, 0x6, SouthEast, SouthEast) == 0
    ensures FlipsInDir(0x8, 0x1, 0x6, SouthWest, SouthWest) == 0
  {}

  /**
   * In `WEST_EXAMPLE`, bitboard.py's D1 flips nothing: the west run stops at
   * C1, and the square west of C1 is white, not black.
   */
  lemma WestRunCut()
    ensures Has(LegalMoves(WEST_EXAMPLE), 0x8)
    ensures FlipsInDir(0x8, 0x1, 0x6, West, East) == 0
    ensures Play(WEST_EXAMPLE, 0x8, BITBOARD_PROBES) == Some(Position(0x9, 0x6, White))
  {
    WestExampleLegal();
    WestExampleFlipsAsWritten();
  }

  // ---------------------------------------------------------------
  // Corrected: each run continues in its own direction.
  // ---------------------------------------------------------------

  /** The square(s) `j` steps from `move` in direction `d`. */
  function Ray(move: bv64, d: Dir, j: nat): bv64
  {
    if j == 0 then move else Shift(Ray(move, d, j - 1), d)
  }

  /** The squares 1 to `hi` steps from `move`, listed from step `lo` on. */
  function Span(move: bv64, d: Dir, lo: nat, hi: nat): bv64
    decreases hi - lo
  {
    if lo > hi then 0 else Union(Ray(move, d, lo), Span(move, d, lo + 1, hi))
  }

  /** Step `j` from `move` lands on a square of `mask`. */
  predicate OnRun(move: bv64, mask: bv64, d: Dir, j: nat)
  {
    Ray(move, d, j) != 0 && SubsetOf(Ray(move, d, j), mask)
  }

  /**
   * The line from `move` in direction `d` holds `k` squares of `mask` (the
   * guarded opponent stones) and then a stone of `player`.
   */
  predicate Flanked(move: bv64, player: bv64, mask: bv64, d: Dir, k: nat)
  {
    && k >= 1
    && (forall j :: 1 <= j <= k ==> OnRun(move, mask, d, j))
    && Ray(move, d, k + 1) != 0
    && SubsetOf(Ray(move, d, k + 1), player)
  }

  lemma InsideMask(r: bv64, mask: bv64)
    requires SubsetOf(r, mask)
    ensures mask & r == r
  {}

  lemma OutsideMask(r: bv64, player: bv64, mask: bv64)
    requires SubsetOf(r, player) && Apart(player, mask)
    ensures mask & r == 0
  {}

  /** A step from a run stone onto the next run stone stays on the ray. */
  lemma RayAdvance(move: bv64, mask: bv64, d: Dir, j: nat)
    requires OnRun(move, mask, d, j + 1)
    ensures Advance(Ray(move, d, j), mask, d) == Ray(move, d, j + 1)
  {
    InsideMask(Ray(move, d, j + 1), mask);
  }

  /** The step past the last run stone lands on the mover and leaves the mask. */
  lemma RayStops(move: bv64, player: bv64, mask: bv64, d: Dir, k: nat)
    requires Apart(player, mask) && SubsetOf(Ray(move, d, k + 1), player)
    ensures Advance(Ray(move, d, k), mask, d) == 0
  {
    OutsideMask(Ray(move, d, k + 1), player, mask);
  }

  lemma SpanLast(move: bv64, d: Dir, k: nat)
    ensures Span(move, d, k, k) == Ray(move, d, k)
  {
    assert Ray(move, d, k) | 0 == Ray(move, d, k);
  }

  lemma SpanStep(move: bv64, d: Dir, j: nat, k: nat)
    requires j <= k
    ensures Span(move, d, j, k) == Union(Ray(move, d, j), Span(move, d, j + 1, k))
  {}

  lemma WalkRayEnd(move: bv64, player: bv64, mask: bv64, d: Dir, k: nat)
    requires Apart(player, mask) && Flanked(move, player, mask, d, k)
    ensures WalksTo(Ray(move, d, k), mask, d, Span(move, d, k, k), Ray(move, d, k))
  {
    assert OnRun(move, mask, d, k);
    RayStops(move, player, mask, d, k);
    StopsAtOnce(Ray(move, d, k), mask, d);
    SpanLast(move, d, k);
  }

  /** The walk from `cand` collects `flips` and stops at `last`. */
  predicate WalksTo(cand: bv64, mask: bv64, d: Dir, flips: bv64, last: bv64)
  {
    Walk(cand, mask, d) == Run(flips, last)
  }

  /** One more stone in front of a walk that collects `tail` and stops at `last`. */
  lemma WalkPrepend(cand: bv64, next: bv64, mask: bv64, d: Dir, tail: bv64, whole: bv64, last: bv64)
    requires cand != 0 && next != 0 && next == Advance(cand, mask, d)
    requires WalksTo(next, mask, d, tail, last) && whole == Union(cand, tail)
    ensures WalksTo(cand, mask, d, whole, last)
  {
    WalkUnfolds(cand, next, mask, d);
  }

  /** The walk from step `j` collects steps `j` to `k` and stops at step `k`. */
  lemma {:induction false} WalkRay(move: bv64, player: bv64, mask: bv64, d: Dir, k: nat, j: nat)
    requires Apart(player, mask) && Flanked(move, player, mask, d, k)
    requires 1 <= j <= k
    ensures WalksTo(Ray(move, d, j), mask, d, Span(move, d, j, k), Ray(move, d, k))
    decreases k - j
  {
    if j == k {
      WalkRayEnd(move, player, mask, d, k);
    } else {
      WalkRay(move, player, mask, d, k, j + 1);
      assert OnRun(move, mask, d, j);
      assert OnRun(move, mask, d, j + 1);
      RayAdvance(move, mask, d, j);
      SpanStep(move, d, j, k);
      WalkPrepend(Ray(move, d, j), Ray(move, d, j + 1), mask, d, Span(move, d, j + 1, k), Span(move, d, j, k), Ray(move, d, k));
    }
  }

  lemma WalkUnfolds(cand: bv64, next: bv64, mask: bv64, cont: Dir)
    requires cand != 0 && next != 0 && next == Advance(cand, mask, cont)
    ensures Walk(cand, mask, cont) == Run(Union(cand, Walk(next, mask, cont).flips), Walk(next, mask, cont).last)
  {}

  lemma EndOnPlayer(r: bv64, player: bv64)
    requires r != 0 && SubsetOf(r, player)
    ensures Has(r, player)
  {}

  lemma GuardApart(player: bv64, opponent: bv64, d: Dir)
    requires Apart(player, opponent)
    ensures Apart(player, Guard(opponent, d))
  {}

  /**
   * With a run continuing in its own direction, a line of `k` guarded
   * opponent stones closed by a mover stone is flipped entirely.
   */
  lemma RunFlipped(move: bv64, player: bv64, opponent: bv64, d: Dir, k: nat)
    requires Apart(player, opponent) && Flanked(move, player, Guard(opponent, d), d, k)
    ensures FlipsInDir(move, player, opponent, d, d) == Span(move, d, 1, k)
  {
    var mask := Guard(opponent, d);
    GuardApart(player, opponent, d);
    assert OnRun(move, mask, d, 1);
    RayAdvance(move, mask, d, 0);
    WalkRay(move, player, mask, d, k, 1);
    EndOnPlayer(Ray(move, d, k + 1), player);
  }

  lemma WestExampleFlipsCorrected()
    ensures TotalFlips(0x8, 0x1, 0x6, WEB_PROBES) == 0x6
  {
    WestExampleNoFlips();
    WestExampleWestFlips();
    TotalFlipsAll(0x8, 0x1, 0x6, WEB_PROBES);
    TotalFlipsFirstHalf(0x8, 0x1, 0x6, WEB_PROBES);
  }

  lemma WestExampleWestFlips()
    ensures FlipsInDir(0x8, 0x1, 0x6, West, West) == 0x6
  {}

  /** In `WEST_EXAMPLE`, web.py's D1 flips both white stones. */
  lemma WestRunWhole()
    ensures FlipsInDir(0x8, 0x1, 0x6, West, West) == 0x6
    ensures Play(WEST_EXAMPLE, 0x8, WEB_PROBES) == Some(Position(0xF, 0x0, White))
  {
    WestExampleLegal();
    WestExampleFlipsCorrected();
  }
}

/**
 * The `BitBoard` class of bitboard.py: two 64-bit occupancy words and the
 * colour to move, updated in place by `make_move` and by a pass.
 *
 * Each method is proved against the rule functions of `Rules` on the
 * position `Pos()` the fields hold; what those functions promise (legal
 * squares are empty, flips are opponent stones, a move adds one stone, no
 * square is held twice, ...) is proved in `Properties` and `Listings`.
 */
module Engine {
  import opened Bits
  import opened Directions
  import opened Rules
  import opened Coords
  import opened Listings
  import opened Properties

  /** One step of the legal-move loop, `l | (l | a)` followed by the rest `r`, regroups. */
  lemma SweepStep(l: bv64, a: bv64, r: bv64)
    ensures Union(l | (l | a), r) == Union(l, Union(a, r))
  {
    var b := l | (l | a);
    assert b == l | a;
    assert Union(b, r) == Union(l, Union(a, r));
  }

  lemma UnionAssoc(a: bv64, b: bv64, c: bv64)
    ensures Union(a, Union(b, c)) == Union(a | b, c)
  {
    assert Union(b, c) == b | c;
    assert Union(a, b | c) == a | (b | c);
    assert Union(a | b, c) == (a | b) | c;
    assert a | (b | c) == (a | b) | c;
  }

  lemma UnionZero(a: bv64)
    ensures Union(a, 0) == a
  {
    assert Union(a, 0) == a | 0;
    assert a | 0 == a;
  }

  lemma UnionZeroLeft(a: bv64)
    ensures Union(0, a) == a
  {
    assert Union(0, a) == 0 | a;
    assert 0 | a == a;
  }

  /** The test `move_bb & legal == 0` of `make_move` rejects exactly the squares outside `legal`. */
  lemma MeetTest(legal: bv64, idx: int, moveBB: bv64)
    requires 0 <= idx < 64 && moveBB == Sq(idx)
    ensures moveBB & legal == 0 <==> !Bit(legal, idx)
  {
    MeetHas(legal, moveBB);
  }

  lemma MeetHas(x: bv64, m: bv64)
    ensures m & x == 0 <==> !Has(x, m)
  {}

  /**
   * What the updates of `make_move` amount to on a legal square: the
   * mover's board after the exclusive-or already holds the square, and the
   * position handed over is the one `Play` describes.
   */
  lemma MoveOutcome(p: Position, idx: int, move: bv64, player: bv64, opponent: bv64, total: bv64, gained: bv64, lost: bv64)
    requires 0 <= idx < 64 && move == Sq(idx) && Bit(LegalMoves(p), idx)
    requires player == Mover(p) && opponent == Opponent(p)
    requires total == TotalFlips(move, player, opponent, BITBOARD_PROBES)
    requires gained == Gained(player, move, total) && lost == Lost(opponent, total)
    ensures Union(gained, move) == gained
    ensures Play(p, move, BITBOARD_PROBES) == Some(HandOver(p.turn, gained, lost))
  {
    SquareFree(p, idx, move, player, opponent);
    TotalFlipsInOpponent(move, player, opponent, BITBOARD_PROBES);
    RefillNoOp(player, opponent, move, total, gained);
    PlayLegal(p, idx, BITBOARD_PROBES);
  }

  lemma SquareFree(p: Position, idx: int, move: bv64, player: bv64, opponent: bv64)
    requires 0 <= idx < 64 && move == Sq(idx) && Bit(LegalMoves(p), idx)
    requires player == Mover(p) && opponent == Opponent(p)
    ensures Apart(move, player | opponent)
  {
    LegalSquareEmpty(p, idx);
  }

  /** Re-adding the played square after the exclusive-or changes nothing. */
  lemma RefillNoOp(a: bv64, o: bv64, m: bv64, f: bv64, gained: bv64)
    requires Apart(m, a | o) && SubsetOf(f, o) && gained == Gained(a, m, f)
    ensures Union(gained, m) == gained
  {
    RefillBits(a, o, m, f, gained);
    assert Union(gained, m) == gained | m;
  }

  lemma RefillBits(a: bv64, o: bv64, m: bv64, f: bv64, gained: bv64)
    requires Apart(m, a | o) && SubsetOf(f, o) && gained == a ^ (m | f)
    ensures gained | m == gained
  {}

  /**
   * One pass of the legal-move loop: adding the empty squares one step past
   * `cand` keeps what remains to be gathered. The step's squares are passed
   * in as `gain` and `rest` so that the solver never meets the raw
   * disjunction of a function application.
   */
  lemma SweepAdvance(legal: bv64, cand: bv64, mask: bv64, empty: bv64, d: Dir, target: bv64, gain: bv64, rest: bv64)
    requires gain == Advance(cand, empty, d) && rest == Reach(Advance(cand, mask, d), mask, empty, d)
    requires cand != 0 && Union(legal, Reach(cand, mask, empty, d)) == target
    ensures Union(legal | (legal | gain), rest) == target
  {
    ReachUnfold(cand, mask, empty, d);
    SweepTarget(legal, gain, rest, Reach(cand, mask, empty, d), target);
  }

  lemma SweepTarget(l: bv64, a: bv64, r: bv64, reach: bv64, target: bv64)
    requires reach == Union(a, r) && Union(l, reach) == target
    ensures Union(l | (l | a), r) == target
  {
    SweepStep(l, a, r);
  }

  /**
   * One direction of `get_legal_moves`: the mover's stones step onto the
   * guarded opponent stones, and while any remain, the empty squares one
   * step further are added and the run steps on.
   */
  method Sweep(legal0: bv64, player: bv64, opponent: bv64, empty: bv64, d: Dir) returns (legal: bv64)
    requires empty == Vacant(player, opponent)
    ensures legal == Union(legal0, LegalInDir(player, opponent, d))
  {
    var mask := Guard(opponent, d);
    legal := legal0;
    var cand := Advance(player, mask, d);
    ghost var target := Union(legal0, LegalInDir(player, opponent, d));
    while cand != 0
      invariant Union(legal, Reach(cand, mask, empty, d)) == target
      decreases Steps(cand, mask, d)
    {
      var gain := Advance(cand, empty, d);
      var next := Advance(cand, mask, d);
      SweepAdvance(legal, cand, mask, empty, d, target, gain, Reach(next, mask, empty, d));
      StepsDecrease(cand, mask, d);
      legal := legal | (legal | gain);
      cand := next;
    }
    UnionZero(legal);
  }

  /**
   * One direction of `make_move`: walk from the placed stone over guarded
   * opponent stones, stepping in direction `cont` after the first step in
   * direction `d`, stop before the step that leaves them, and keep the run
   * only when one step in direction `d` past its last stone lies a stone of
   * the mover.
   */
  method FlipLine(moveBB: bv64, player: bv64, opponent: bv64, d: Dir, cont: Dir) returns (line: bv64)
    ensures line == FlipsInDir(moveBB, player, opponent, d, cont)
  {
    var mask := Guard(opponent, d);
    var flips, last := WalkLine(Advance(moveBB, mask, d), mask, cont);
    FlipsOfWalk(moveBB, player, opponent, d, cont, flips, last);
    line := if Has(Shift(last, d), player) then flips else 0;
  }

  /**
   * The loop of one direction of `make_move`: gather the stones from `cand`
   * on while the next step in direction `cont` stays inside `mask`, and
   * report the last stone reached.
   */
  method WalkLine(cand0: bv64, mask: bv64, cont: Dir) returns (flips: bv64, last: bv64)
    ensures Walk(cand0, mask, cont) == Run(flips, last)
  {
    flips := 0;
    var cand := cand0;
    ghost var run := Walk(cand, mask, cont);
    UnionZeroLeft(Walk(cand, mask, cont).flips);
    while cand != 0
      invariant cand != 0 ==> run == Run(Union(flips, Walk(cand, mask, cont).flips), Walk(cand, mask, cont).last)
      invariant cand == 0 ==> run == Run(0, 0) && flips == 0
      decreases Steps(cand, mask, cont)
    {
      var grown := flips | cand;
      var tcand := Advance(cand, mask, cont);
      if tcand == 0 {
        WalkStop(flips, cand, mask, cont, run, grown);
        flips := grown;
        break;
      }
      WalkAdvance(flips, cand, mask, cont, run, tcand, grown);
      StepsDecrease(cand, mask, cont);
      flips := grown;
      cand := tcand;
    }
    last := cand;
  }

  /** One direction's flips added to those gathered so far (`total_flips |= flips` when the run is flanked). */
  method Collect(total0: bv64, moveBB: bv64, player: bv64, opponent: bv64, d: Dir, cont: Dir) returns (total: bv64)
    ensures total == Union(total0, FlipsInDir(moveBB, player, opponent, d, cont))
  {
    var line := FlipLine(moveBB, player, opponent, d, cont);
    assert Union(total0, line) == total0 | line;
    total := total0 | line;
  }

  /** The flips of all eight directions, in the order of bitboard.py (the west walk continues eastward). */
  method GatherFlips(moveBB: bv64, player: bv64, opponent: bv64) returns (total: bv64)
    ensures total == TotalFlips(moveBB, player, opponent, BITBOARD_PROBES)
  {
    total := 0;
    total := Collect(total, moveBB, player, opponent, East, East);
    total := Collect(total, moveBB, player, opponent, West, East);
    total := Collect(total, moveBB, player, opponent, North, North);
    total := Collect(total, moveBB, player, opponent, South, South);
    total := Collect(total, moveBB, player, opponent, NorthEast, NorthEast);
    total := Collect(total, moveBB, player, opponent, NorthWest, NorthWest);
    total := Collect(total, moveBB, player, opponent, SouthEast, SouthEast);
    total := Collect(total, moveBB, player, opponent, SouthWest, SouthWest);
    BitboardFlips(moveBB, player, opponent);
  }

  /** The flips of one direction, read off the walk's gathered stones and last stone. */
  lemma FlipsOfWalk(move: bv64, player: bv64, opponent: bv64, d: Dir, cont: Dir, flips: bv64, last: bv64)
    requires Walk(Advance(move, Guard(opponent, d), d), Guard(opponent, d), cont) == Run(flips, last)
    ensures FlipsInDir(move, player, opponent, d, cont) == if Has(Shift(last, d), player) then flips else 0
  {}

  /** A pass of the flip loop that steps on keeps the walk's outcome. */
  lemma WalkAdvance(flips: bv64, cand: bv64, mask: bv64, cont: Dir, run: Run, next: bv64, grown: bv64)
    requires cand != 0 && next == Advance(cand, mask, cont) && next != 0 && grown == flips | cand
    requires run == Run(Union(flips, Walk(cand, mask, cont).flips), Walk(cand, mask, cont).last)
    ensures run == Run(Union(grown, Walk(next, mask, cont).flips), Walk(next, mask, cont).last)
  {
    WalkUnfold(cand, mask, cont);
    UnionAssoc(flips, cand, Walk(next, mask, cont).flips);
  }

  /** A pass of the flip loop that cannot step on ends the walk at `cand`. */
  lemma WalkStop(flips: bv64, cand: bv64, mask: bv64, cont: Dir, run: Run, grown: bv64)
    requires cand != 0 && Advance(cand, mask, cont) == 0 && grown == flips | cand
    requires run == Run(Union(flips, Walk(cand, mask, cont).flips), Walk(cand, mask, cont).last)
    ensures run == Run(grown, cand)
  {
    assert Union(flips, cand) == flips | cand;
  }

  class BitBoard {
    var black: bv64
    var white: bv64
    var currentPlayer: Color

    /** The position the fields hold. */
    function Pos(): Position
      reads this
    {
      Position(black, white, currentPlayer)
    }

    /** The opening position: black on D4 and E5, white on E4 and D5, black to move. */
    constructor ()
      ensures Pos() == START
    {
      black := Sq(27) | Sq(36);
      white := Sq(35) | Sq(28);
      currentPlayer := Black;
    }

    /** The boards of the colour to move and of the other colour. */
    function PlayerBoards(): (r: (bv64, bv64))
      reads this
      ensures r.0 == Stones(Pos(), currentPlayer) && r.1 == Stones(Pos(), Other(currentPlayer))
    {
      if currentPlayer == Black then (black, white) else (white, black)
    }

    /** The legal squares of the colour to move, direction by direction. */
    method GetLegalMoves() returns (legal: bv64)
      ensures legal == LegalMoves(Pos())
    {
      var (player, opponent) := PlayerBoards();
      assert player == Mover(Pos()) && opponent == Opponent(Pos());
      var empty := Vacant(player, opponent);
      legal := 0;
      legal := Sweep(legal, player, opponent, empty, East);
      legal := Sweep(legal, player, opponent, empty, West);
      legal := Sweep(legal, player, opponent, empty, North);
      legal := Sweep(legal, player, opponent, empty, South);
      legal := Sweep(legal, player, opponent, empty, NorthEast);
      legal := Sweep(legal, player, opponent, empty, NorthWest);
      legal := Sweep(legal, player, opponent, empty, SouthEast);
      legal := Sweep(legal, player, opponent, empty, SouthWest);
      LegalOverAll(player, opponent);
      LegalOverFirstHalf(player, opponent);
      AllOnes(legal);
      legal := legal & FULL;
    }

    /**
     * `make_move` for a square index: a square that is not legal leaves the
     * board alone and answers false; a legal one is played, flipping the
     * runs it flanks, and passes the turn.
     */
    method MakeMove(idx: int) returns (ok: bool)
      requires 0 <= idx < 64
      modifies this
      ensures ok <==> Bit(LegalMoves(old(Pos())), idx)
      ensures Play(old(Pos()), Sq(idx), BITBOARD_PROBES) == if ok then Some(Pos()) else None
      ensures !ok ==> Pos() == old(Pos())
    {
      var moveBB := Sq(idx);
      var legal := GetLegalMoves();
      MeetTest(legal, idx, moveBB);
      if moveBB & legal == 0 {
        return false;
      }
      var (player, opponent) := PlayerBoards();
      var total := GatherFlips(moveBB, player, opponent);
      ghost var p := Pos();
      MoveOutcome(p, idx, moveBB, player, opponent, total, Gained(player, moveBB, total), Lost(opponent, total));
      ApplyMove(moveBB, total);
      ok := true;
    }

    /**
     * The board updates of `make_move`: the mover's board toggles the
     * placed square and the flips, the opponent's board toggles the flips,
     * the placed square is set once more on the mover's board, and the
     * other colour is to move.
     */
    method ApplyMove(moveBB: bv64, total: bv64)
      modifies this
      ensures Pos() == HandOver(old(currentPlayer), Union(Gained(old(Mover(Pos())), moveBB, total), moveBB), Lost(old(Opponent(Pos())), total))
    {
      if currentPlayer == Black {
        black := Gained(black, moveBB, total);
        white := Lost(white, total);
        black := Union(black, moveBB);
      } else {
        white := Gained(white, moveBB, total);
        black := Lost(black, total);
        white := Union(white, moveBB);
      }
      currentPlayer := if currentPlayer == Black then White else Black;
    }

    /** `can_pass`: the colour to move may pass exactly when it has no legal square. */
    method CanPass() returns (pass: bool)
      ensures pass <==> LegalMoves(Pos()) == 0
    {
      var legal := GetLegalMoves();
      pass := legal == 0;
    }

    /**
     * `is_game_over`: false as soon as the colour to move has a legal
     * square; otherwise the turn is handed over, the other colour's legal
     * squares are computed, and the turn is handed back.
     */
    method IsGameOver() returns (over: bool)
      modifies this
      ensures over <==> GameOver(old(Pos()))
      ensures Pos() == old(Pos())
    {
      var legal := GetLegalMoves();
      if legal != 0 {
        return false;
      }
      currentPlayer := if currentPlayer == Black then White else Black;
      assert Pos() == Toggled(old(Pos()));
      var other := GetLegalMoves();
      var hasMoves := other != 0;
      currentPlayer := if currentPlayer == Black then White else Black;
      over := !hasMoves;
    }

    /** `get_score`: the number of black stones and of white stones. */
    function GetScore(): (r: (nat, nat))
      reads this
      ensures r.0 == |Squares(black)| && r.1 == |Squares(white)|
      ensures Disjoint(Pos()) ==> r.0 + r.1 <= 64
    {
      ScoreBoundIf(Pos());
      (PopCount(black), PopCount(white))
    }

    /** `list_legal_moves`: the names of the legal squares, lowest index first. */
    method ListLegalMoves() returns (moves: seq<string>)
      ensures moves == Listing(LegalMoves(Pos()), 64)
    {
      var legal := GetLegalMoves();
      moves := [];
      for i := 0 to 64
        invariant moves == Listing(legal, i)
      {
        ListingStep(legal, i, moves);
        if ShiftBit(legal, i) {
          moves := moves + [IndexToSquare(i)];
        }
      }
    }

    /** The pass of the game loop: the turn passes only when `can_pass` allows it. */
    method Pass() returns (passed: bool)
      modifies this
      ensures passed <==> LegalMoves(old(Pos())) == 0
      ensures Pos() == if passed then Toggled(old(Pos())) else old(Pos())
    {
      passed := CanPass();
      if passed {
        currentPlayer := if currentPlayer == Black then White else Black;
      }
    }
  }

  /** One pass of the listing loop names square `i` exactly when the test `(x >> i) & 1` finds it. */
  lemma ListingStep(x: bv64, i: int, moves: seq<string>)
    requires 0 <= i < 64 && moves == Listing(x, i)
    ensures (if ShiftBit(x, i) then moves + [IndexToSquare(i)] else moves) == Listing(x, i + 1)
  {
    ShiftTest(x, i);
  }

  /** The score bound, for any position. */
  lemma ScoreBoundIf(p: Position)
    ensures Disjoint(p) ==> PopCount(p.black) + PopCount(p.white) <= 64
  {
    if Disjoint(p) {
      ScoreBound(p);
    }
  }
}

/**
 * The `BitBoard` class of web.py: the same three fields and the same
 * rules as bitboard.py, with the eight directions driven by a table of
 * (shift, file mask) pairs. Each walk in `make_move` continues with the
 * shift it started with, the flips are not or-ed in a second time, and the
 * board can be listed as an 8 x 8 grid of labels.
 */
module Web {
  import opened Bits
  import opened Directions
  import opened Rules
  import opened Coords
  import opened Listings
  import opened Properties
  import opened Engine

  /** The direction table: a positive shift moves left, a negative one right by its absolute value. */
  const WEB_TABLE: seq<(int, bv64)> := [
    (1, FILE_H), (-1, FILE_A), (8, 0), (-8, 0), (9, FILE_H), (7, FILE_A), (-7, FILE_H), (-9, FILE_A)]

  /** `(x << shift) if shift > 0 else (x >> -shift)`, kept to 64 bits. */
  function ShiftBy(x: bv64, shift: int): bv64
    requires -64 < shift < 64
  {
    if shift > 0 then x << shift else x >> -shift
  }

  /** Entry `k` of the table is direction `k` of `DIRECTIONS`: its shift and its guarded file. */
  lemma TableEntry(k: int, x: bv64)
    requires 0 <= k < 8
    ensures -64 < WEB_TABLE[k].0 < 64
    ensures ShiftBy(x, WEB_TABLE[k].0) == Shift(x, DIRECTIONS[k])
    ensures WEB_TABLE[k].1 == FileGuard(DIRECTIONS[k])
  {
    if k == 0 {
      ShiftEast(x);
    } else if k == 1 {
      ShiftWest(x);
    } else if k == 2 {
      ShiftNorth(x);
    } else if k == 3 {
      ShiftSouth(x);
    } else if k == 4 {
      ShiftNorthEast(x);
    } else if k == 5 {
      ShiftNorthWest(x);
    } else if k == 6 {
      ShiftSouthEast(x);
    } else {
      ShiftSouthWest(x);
    }
  }

  lemma ShiftEast(x: bv64)
    ensures ShiftBy(x, 1) == Shift(x, East)
  {}

  lemma ShiftWest(x: bv64)
    ensures ShiftBy(x, -1) == Shift(x, West)
  {}

  lemma ShiftNorth(x: bv64)
    ensures ShiftBy(x, 8) == Shift(x, North)
  {}

  lemma ShiftSouth(x: bv64)
    ensures ShiftBy(x, -8) == Shift(x, South)
  {}

  lemma ShiftNorthEast(x: bv64)
    ensures ShiftBy(x, 9) == Shift(x, NorthEast)
  {}

  lemma ShiftNorthWest(x: bv64)
    ensures ShiftBy(x, 7) == Shift(x, NorthWest)
  {}

  lemma ShiftSouthEast(x: bv64)
    ensures ShiftBy(x, -7) == Shift(x, SouthEast)
  {}

  lemma ShiftSouthWest(x: bv64)
    ensures ShiftBy(x, -9) == Shift(x, SouthWest)
  {}

  /** Entry `k` of the probes of web.py walks and ends in direction `k`. */
  lemma WebProbe(k: int)
    requires 0 <= k < 8
    ensures |WEB_PROBES| == 8 && WEB_PROBES[k] == Probe(DIRECTIONS[k], DIRECTIONS[k])
  {}

  /** The shift of one table entry, `x << shift` for a positive amount and `x >> -shift` otherwise. */
  method ShiftEntry(x: bv64, shift: int, ghost k: int) returns (y: bv64)
    requires 0 <= k < 8 && shift == WEB_TABLE[k].0
    ensures y == Shift(x, DIRECTIONS[k])
  {
    TableEntry(k, x);
    y := ShiftBy(x, shift);
  }

  /** `opponent & ~mask_file` with the guarded file of `d` is the guard of `d`. */
  lemma GuardIs(opponent: bv64, maskFile: bv64, d: Dir, mask: bv64)
    requires maskFile == FileGuard(d) && mask == opponent & !maskFile
    ensures mask == Guard(opponent, d)
  {}

  /** Masking the shifted set is one step of a walk. */
  lemma AdvanceIs(c: bv64, mask: bv64, d: Dir, shifted: bv64, r: bv64)
    requires shifted == Shift(c, d) && r == mask & shifted
    ensures r == Advance(c, mask, d)
  {}

  /** One pass of the table-driven legal-move loop keeps what remains to be gathered. */
  lemma SweepEntryStep(legal: bv64, cand: bv64, mask: bv64, empty: bv64, d: Dir, target: bv64, gain: bv64, next: bv64)
    requires gain == Advance(cand, empty, d) && next == Advance(cand, mask, d)
    requires cand != 0 && Union(legal, Reach(cand, mask, empty, d)) == target
    ensures Union(legal | gain, Reach(next, mask, empty, d)) == target
  {
    ReachUnfold(cand, mask, empty, d);
    UnionRegroup(legal, gain, Reach(next, mask, empty, d), Reach(cand, mask, empty, d), target);
  }

  lemma UnionRegroup(l: bv64, a: bv64, r: bv64, reach: bv64, target: bv64)
    requires reach == Union(a, r) && Union(l, reach) == target
    ensures Union(l | a, r) == target
  {
    UnionAssoc(l, a, r);
  }

  /**
   * The start of one table entry: the opponent's stones off the entry's
   * guarded file, and the mover's stones shifted onto them.
   */
  method EntryStart(from: bv64, opponent: bv64, shift: int, maskFile: bv64, ghost k: int) returns (mask: bv64, cand: bv64)
    requires 0 <= k < 8 && (shift, maskFile) == WEB_TABLE[k]
    ensures mask == Guard(opponent, DIRECTIONS[k]) && cand == Advance(from, mask, DIRECTIONS[k])
  {
    TableEntry(k, from);
    mask := opponent & !maskFile;
    GuardIs(opponent, maskFile, DIRECTIONS[k], mask);
    var shifted := ShiftEntry(from, shift, k);
    cand := mask & shifted;
    AdvanceIs(from, mask, DIRECTIONS[k], shifted, cand);
  }

  /**
   * One entry of the table in `get_legal_moves`: the mover's stones shift
   * onto the guarded opponent stones, and while any remain, the empty
   * squares one shift further are added and the run shifts on.
   */
  method SweepEntry(legal0: bv64, player: bv64, opponent: bv64, empty: bv64, shift: int, maskFile: bv64, ghost k: int)
    returns (legal: bv64)
    requires empty == Vacant(player, opponent)
    requires 0 <= k < 8 && (shift, maskFile) == WEB_TABLE[k]
    ensures legal == Union(legal0, LegalInDir(player, opponent, DIRECTIONS[k]))
  {
    ghost var d := DIRECTIONS[k];
    var mask, cand := EntryStart(player, opponent, shift, maskFile, k);
    legal := legal0;
    ghost var target := Union(legal0, LegalInDir(player, opponent, d));
    while cand != 0
      invariant Union(legal, Reach(cand, mask, empty, d)) == target
      decreases Steps(cand, mask, d)
    {
      var candShifted := ShiftEntry(cand, shift, k);
      var gain := empty & candShifted;
      var next := mask & candShifted;
      AdvanceIs(cand, empty, d, candShifted, gain);
      AdvanceIs(cand, mask, d, candShifted, next);
      SweepEntryStep(legal, cand, mask, empty, d, target, gain, next);
      StepsDecrease(cand, mask, d);
      legal := legal | gain;
      cand := next;
    }
    UnionZero(legal);
  }

  /**
   * The walk of one table entry in `make_move`: gather the stones from
   * `cand` on while the next shift stays inside `mask`, and report the last
   * stone reached.
   */
  method WalkEntry(cand0: bv64, mask: bv64, shift: int, ghost k: int) returns (lineFlips: bv64, last: bv64)
    requires 0 <= k < 8 && shift == WEB_TABLE[k].0
    ensures Walk(cand0, mask, DIRECTIONS[k]) == Run(lineFlips, last)
  {
    ghost var d := DIRECTIONS[k];
    lineFlips := 0;
    var cand := cand0;
    ghost var run := Walk(cand, mask, d);
    UnionZeroLeft(Walk(cand, mask, d).flips);
    while cand != 0
      invariant cand != 0 ==> run == Run(Union(lineFlips, Walk(cand, mask, d).flips), Walk(cand, mask, d).last)
      invariant cand == 0 ==> run == Run(0, 0) && lineFlips == 0
      decreases Steps(cand, mask, d)
    {
      var grown := lineFlips | cand;
      var shifted := ShiftEntry(cand, shift, k);
      var nextCand := mask & shifted;
      AdvanceIs(cand, mask, d, shifted, nextCand);
      if nextCand == 0 {
        WalkStop(lineFlips, cand, mask, d, run, grown);
        lineFlips := grown;
        break;
      }
      WalkAdvance(lineFlips, cand, mask, d, run, nextCand, grown);
      StepsDecrease(cand, mask, d);
      lineFlips := grown;
      cand := nextCand;
    }
    last := cand;
  }

  /**
   * One table entry of `make_move`: walk from the placed stone, then add
   * the run to the flips when the square one shift past its last stone is
   * the mover's.
   */
  method CollectEntry(flips0: bv64, moveBB: bv64, player: bv64, opponent: bv64, shift: int, maskFile: bv64, ghost k: int)
    returns (flips: bv64)
    requires 0 <= k < 8 && (shift, maskFile) == WEB_TABLE[k]
    ensures flips == Union(flips0, FlipsInDir(moveBB, player, opponent, DIRECTIONS[k], DIRECTIONS[k]))
  {
    ghost var d := DIRECTIONS[k];
    var mask, cand := EntryStart(moveBB, opponent, shift, maskFile, k);
    var lineFlips, last := WalkEntry(cand, mask, shift, k);
    var endBit := ShiftEntry(last, shift, k);
    FlipsOfWalk(moveBB, player, opponent, d, d, lineFlips, last);
    if Has(endBit, player) {
      assert Union(flips0, lineFlips) == flips0 | lineFlips;
      flips := flips0 | lineFlips;
    } else {
      UnionZero(flips0);
      flips := flips0;
    }
  }

  /** The flips of all eight table entries, gathered in table order. */
  method GatherEntries(moveBB: bv64, player: bv64, opponent: bv64) returns (flips: bv64)
    ensures flips == TotalFlips(moveBB, player, opponent, WEB_PROBES)
  {
    flips := 0;
    EmptyPrefix(WEB_PROBES);
    for k := 0 to 8
      invariant flips == TotalFlips(moveBB, player, opponent, WEB_PROBES[..k])
    {
      var (shift, maskFile) := WEB_TABLE[k];
      flips := CollectEntry(flips, moveBB, player, opponent, shift, maskFile, k);
      WebProbe(k);
      TotalFlipsPrefix(moveBB, player, opponent, WEB_PROBES, k);
    }
    WholePrefix(WEB_PROBES);
  }

  /**
   * What the updates of web.py's `make_move` amount to on a legal square:
   * the position handed over is the one `Play` describes.
   */
  lemma WebOutcome(p: Position, idx: int, flips: bv64)
    requires 0 <= idx < 64 && Bit(LegalMoves(p), idx) && flips == TotalFlips(Sq(idx), Mover(p), Opponent(p), WEB_PROBES)
    ensures Play(p, Sq(idx), WEB_PROBES) == Some(Place(p, Sq(idx), flips))
  {
    PlayLegal(p, idx, WEB_PROBES);
  }

  /** Appending the cell of column `c` of rank `r + 1` extends the row of that rank by one cell. */
  lemma CellStep(black: bv64, white: bv64, r: int, c: int, row: seq<string>, cell: string)
    requires 0 <= r < 8 && 0 <= c < 8 && row == Row(black, white, 7 - r)[..c]
    requires cell == Cell(black, white, r * 8 + c)
    ensures row + [cell] == Row(black, white, 7 - r)[..c + 1]
  {
    assert Row(black, white, 7 - r)[c] == cell;
  }

  class BitBoard {
    var black: bv64
    var white: bv64
    var currentPlayer: Color

    /** The position the fields hold. */
    function Pos(): Position
      reads this
    {
      Position(black, white, currentPlayer)
    }

    /** The opening position: black on D4 and E5, white on E4 and D5, black to move. */
    constructor ()
      ensures Pos() == START
    {
      black := Sq(27) | Sq(36);
      white := Sq(35) | Sq(28);
      currentPlayer := Black;
    }

    /** The boards of the colour to move and of the other colour. */
    function PlayerBoards(): (r: (bv64, bv64))
      reads this
      ensures r.0 == Mover(Pos()) && r.1 == Opponent(Pos())
    {
      if currentPlayer == Black then (black, white) else (white, black)
    }

    /** `get_legal_moves`: the table's eight directions in order; no final 64-bit mask. */
    method GetLegalMoves() returns (legal: bv64)
      ensures legal == LegalMoves(Pos())
    {
      var (player, opponent) := PlayerBoards();
      var empty := Vacant(player, opponent);
      legal := 0;
      EmptyPrefix(DIRECTIONS);
      for k := 0 to 8
        invariant legal == LegalOver(player, opponent, DIRECTIONS[..k])
      {
        var (shift, maskFile) := WEB_TABLE[k];
        legal := SweepEntry(legal, player, opponent, empty, shift, maskFile, k);
        LegalOverPrefix(player, opponent, DIRECTIONS, k);
      }
      WholePrefix(DIRECTIONS);
    }

    /**
     * `make_move` for a square name. The name is read with
     * `square_to_index`; an index past the board gives a square that no
     * legal set holds. An illegal square leaves the board alone and
     * answers false; a legal one is played and the turn passes.
     */
    method MakeMove(square: string) returns (ok: bool)
      requires |square| >= 2 && IsDigit(square[1]) && SquareToIndex(square) >= 0
      modifies this
      ensures ok <==> SquareToIndex(square) < 64 && Bit(LegalMoves(old(Pos())), SquareToIndex(square))
      ensures ok ==> Play(old(Pos()), Sq(SquareToIndex(square)), WEB_PROBES) == Some(Pos())
      ensures !ok ==> Pos() == old(Pos())
    {
      var idx := SquareToIndex(square);
      ok := MoveAt(idx);
    }

    /**
     * `make_move` once the name is read: the move's mask meets the legal
     * set only for an index on the board whose square is legal.
     */
    method MoveAt(idx: int) returns (ok: bool)
      requires idx >= 0
      modifies this
      ensures ok <==> idx < 64 && Bit(LegalMoves(old(Pos())), idx)
      ensures ok ==> Play(old(Pos()), Sq(idx), WEB_PROBES) == Some(Pos())
      ensures !ok ==> Pos() == old(Pos())
    {
      var moveBB: bv64 := if idx < 64 then Sq(idx) else 0;
      var legal := GetLegalMoves();
      if idx < 64 {
        MeetTest(legal, idx, moveBB);
      }
      if moveBB & legal == 0 {
        return false;
      }
      PlaceStone(idx, moveBB);
      ok := true;
    }

    /**
     * The second half of `make_move`, on a legal square: gather the flips
     * of the eight table entries, toggle the flipped stones and the placed
     * one into the mover's board, take the flipped ones out of the
     * opponent's, and pass the turn.
     */
    method PlaceStone(idx: int, moveBB: bv64)
      requires 0 <= idx < 64 && moveBB == Sq(idx) && Bit(LegalMoves(Pos()), idx)
      modifies this
      ensures Play(old(Pos()), moveBB, WEB_PROBES) == Some(Pos())
    {
      var (player, opponent) := PlayerBoards();
      var flips := GatherEntries(moveBB, player, opponent);
      ghost var p := Pos();
      WebOutcome(p, idx, flips);
      ApplyFlips(moveBB, flips);
    }

    /**
     * The board updates of `make_move`: the mover's board toggles the
     * flipped stones and the placed one, the opponent's board toggles the
     * flipped stones, and the other colour is to move.
     */
    method ApplyFlips(moveBB: bv64, flips: bv64)
      modifies this
      ensures Pos() == Place(old(Pos()), moveBB, flips)
    {
      if currentPlayer == Black {
        black := Gained(black, moveBB, flips);
        white := Lost(white, flips);
      } else {
        white := Gained(white, moveBB, flips);
        black := Lost(black, flips);
      }
      currentPlayer := if currentPlayer == Black then White else Black;
    }

    /** `list_board`: eight rows from rank 8 down to rank 1, each of eight labels from file A to H. */
    method ListBoard() returns (grid: seq<seq<string>>)
      ensures grid == Grid(black, white)
    {
      grid := [];
      for r := 8 downto 0
        invariant |grid| == 8 - r
        invariant forall j :: 0 <= j < |grid| ==> grid[j] == Row(black, white, j)
      {
        var row: seq<string> := [];
        for c := 0 to 8
          invariant row == Row(black, white, 7 - r)[..c]
        {
          var idx := r * 8 + c;
          var bit := Sq(idx);
          var cell: string;
          if Has(black, bit) {
            cell := "B";
          } else if Has(white, bit) {
            cell := "W";
          } else {
            cell := "";
          }
          CellStep(black, white, r, c, row, cell);
          row := row + [cell];
        }
        grid := grid + [row];
      }
    }

    /** `list_legal`: the names of the legal squares, lowest index first. */
    method ListLegal() returns (names: seq<string>)
      ensures names == Listing(LegalMoves(Pos()), 64)
    {
      var moves := GetLegalMoves();
      names := Listing(moves, 64);
    }
  }
}

/**
 * The rules of the bitboard Othello engine as functions on positions.
 *
 * A position holds the black and the white stones as 64-bit sets and the
 * colour to move. The mover's legal squares are found direction by
 * direction: the mover's stones take one step, land on guarded opponent
 * stones, keep stepping while opponent stones continue, and every empty
 * square reached by the step after an opponent stone is legal. Placing a
 * stone walks from it over guarded opponent stones in each direction and
 * flips that run when the square after its last stone is the mover's.
 */
module Rules {
  import opened Bits
  import opened Directions

  datatype Option<T> = None | Some(value: T)

  datatype Color = Black | White

  datatype Position = Position(black: bv64, white: bv64, turn: Color)

  /** The colour that moves next: `'W'` after `'B'`, `'B'` otherwise. */
  function Other(c: Color): Color
  {
    if c == Black then White else Black
  }

  /** The opening position: black on D4 and E5, white on E4 and D5, black to move. */
  const START: Position := Position(Sq(27) | Sq(36), Sq(35) | Sq(28), Black)

  /** The stones of colour `c`. */
  function Stones(p: Position, c: Color): bv64
  {
    if c == Black then p.black else p.white
  }

  /** The stones of the colour to move (the first board of `_get_player_bitboards`). */
  function Mover(p: Position): bv64
  {
    if p.turn == Black then p.black else p.white
  }

  /** The stones of the colour not to move (its second board). */
  function Opponent(p: Position): bv64
  {
    if p.turn == Black then p.white else p.black
  }

  /** The same stones with the other colour to move. */
  function Toggled(p: Position): Position
  {
    p.(turn := Other(p.turn))
  }

  /** No square holds two stones. */
  predicate Disjoint(p: Position)
  {
    Apart(p.black, p.white)
  }

  /** The squares holding neither player's stones (the final `& FULL` keeps 64 bits). */
  function Vacant(player: bv64, opponent: bv64): bv64
  {
    !(player | opponent) & FULL
  }

  // ---------------------------------------------------------------
  // Legal-move generation.
  // ---------------------------------------------------------------

  /**
   * The empty squares one step past the guarded opponent runs that start
   * at `cand`, walking in direction `d` inside `mask`.
   */
  function Reach(cand: bv64, mask: bv64, empty: bv64, d: Dir): bv64
    decreases Steps(cand, mask, d)
  {
    if cand == 0 then 0
    else
      var next := Advance(cand, mask, d);
      StepsDecrease(cand, mask, d);
      Union(Advance(cand, empty, d), Reach(next, mask, empty, d))
  }

  /** The squares made legal by runs in direction `d`. */
  function LegalInDir(player: bv64, opponent: bv64, d: Dir): bv64
  {
    var mask := Guard(opponent, d);
    Reach(Advance(player, mask, d), mask, Vacant(player, opponent), d)
  }

  /** The squares made legal by runs in any of `dirs`, gathered in the order of `dirs`. */
  function LegalOver(player: bv64, opponent: bv64, dirs: seq<Dir>): bv64
  {
    if dirs == [] then 0
    else Union(LegalOver(player, opponent, dirs[..|dirs| - 1]), LegalInDir(player, opponent, dirs[|dirs| - 1]))
  }

  /** The legal squares of the colour to move. */
  function LegalMoves(p: Position): bv64
  {
    LegalOver(Mover(p), Opponent(p), DIRECTIONS)
  }

  // ---------------------------------------------------------------
  // Move application.
  // ---------------------------------------------------------------

  /** The stones collected by a walk and the last non-empty step of it. */
  datatype Run = Run(flips: bv64, last: bv64)

  /**
   * The walk of `make_move`: collect `cand`, step it in direction `cont`
   * inside `mask`, and stop before the step that leaves `mask` empty.
   */
  function Walk(cand: bv64, mask: bv64, cont: Dir): Run
    decreases Steps(cand, mask, cont)
  {
    if cand == 0 then Run(0, 0)
    else
      var next := Advance(cand, mask, cont);
      if next == 0 then Run(cand, cand)
      else
        StepsDecrease(cand, mask, cont);
        var rest := Walk(next, mask, cont);
        Run(Union(cand, rest.flips), rest.last)
  }

  /**
   * The stones flipped in direction `d` by a stone placed on `move`: the
   * run starts one step from `move` in direction `d`, continues with
   * steps in direction `cont`, and is kept only when the square one step
   * in direction `d` past its last stone holds one of the mover's stones.
   */
  function FlipsInDir(move: bv64, player: bv64, opponent: bv64, d: Dir, cont: Dir): bv64
  {
    var mask := Guard(opponent, d);
    var run := Walk(Advance(move, mask, d), mask, cont);
    if Has(Shift(run.last, d), player) then run.flips else 0
  }

  /** One direction of `make_move`: the direction of the run and the direction it continues in. */
  datatype Probe = Probe(dir: Dir, cont: Dir)

  /** The probes of bitboard.py, whose west walk continues eastward. */
  const BITBOARD_PROBES: seq<Probe> := [
    Probe(East, East), Probe(West, East), Probe(North, North), Probe(South, South),
    Probe(NorthEast, NorthEast), Probe(NorthWest, NorthWest),
    Probe(SouthEast, SouthEast), Probe(SouthWest, SouthWest)]

  /** The probes of web.py, each continuing in its own direction. */
  const WEB_PROBES: seq<Probe> := [
    Probe(East, East), Probe(West, West), Probe(North, North), Probe(South, South),
    Probe(NorthEast, NorthEast), Probe(NorthWest, NorthWest),
    Probe(SouthEast, SouthEast), Probe(SouthWest, SouthWest)]

  /** All the stones flipped by a stone on `move` over the given probes, gathered in their order. */
  function TotalFlips(move: bv64, player: bv64, opponent: bv64, probes: seq<Probe>): bv64
  {
    if probes == [] then 0
    else
      var pr := probes[|probes| - 1];
      Union(TotalFlips(move, player, opponent, probes[..|probes| - 1]), FlipsInDir(move, player, opponent, pr.dir, pr.cont))
  }

  /**
   * The position in which colour `c` holds `mine`, the other colour holds
   * `theirs`, and the other colour is to move.
   */
  function HandOver(c: Color, mine: bv64, theirs: bv64): Position
  {
    if c == Black then Position(mine, theirs, White) else Position(theirs, mine, Black)
  }

  /** The mover's board after `board ^= move | flips`. */
  function Gained(board: bv64, move: bv64, flips: bv64): bv64
  {
    board ^ (move | flips)
  }

  /** The opponent's board after `board ^= flips`. */
  function Lost(board: bv64, flips: bv64): bv64
  {
    board ^ flips
  }

  /** The board after the mover places `move` and flips `flips`; the turn passes. */
  function Place(p: Position, move: bv64, flips: bv64): Position
  {
    HandOver(p.turn, Gained(Mover(p), move, flips), Lost(Opponent(p), flips))
  }

  /** `make_move`: `None` when `move` meets no legal square, else the position after it. */
  function Play(p: Position, move: bv64, probes: seq<Probe>): Option<Position>
  {
    if !Has(LegalMoves(p), move) then None
    else Some(Place(p, move, TotalFlips(move, Mover(p), Opponent(p), probes)))
  }

  /** Neither colour has a legal square. */
  predicate GameOver(p: Position)
  {
    LegalMoves(p) == 0 && LegalMoves(Toggled(p)) == 0
  }
}

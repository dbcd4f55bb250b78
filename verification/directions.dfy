/**
 * The eight compass directions of the board and the one-step shift of a
 * bitboard in each of them.
 *
 * With A1 at bit 0, moving east is a shift left by 1, north a shift left
 * by 8, north-east by 9 and north-west by 7; the four opposite directions
 * shift right by the same amounts. A shift that would carry a stone from
 * the H file onto the A file of the next rank (or the reverse) is blocked
 * by clearing the file the stone would wrap from: the H file for the
 * eastward directions, the A file for the westward ones, nothing for north
 * and south.
 */
module Directions {
  import opened Bits

  datatype Dir = East | West | North | South | NorthEast | NorthWest | SouthEast | SouthWest

  /** File A: bits 0, 8, ..., 56. */
  const FILE_A: bv64 := 0x0101_0101_0101_0101
  /** File H: bits 7, 15, ..., 63. */
  const FILE_H: bv64 := 0x8080_8080_8080_8080

  /** The eight directions in the order both boards visit them. */
  const DIRECTIONS: seq<Dir> := [East, West, North, South, NorthEast, NorthWest, SouthEast, SouthWest]

  /** One step in direction `d`; bits shifted past either end of the word are lost. */
  function Shift(x: bv64, d: Dir): bv64
  {
    match d
    case East => x << 1
    case West => x >> 1
    case North => x << 8
    case South => x >> 8
    case NorthEast => x << 9
    case NorthWest => x << 7
    case SouthEast => x >> 7
    case SouthWest => x >> 9
  }

  /** The squares of `mask` one step from `c` in direction `d`. */
  function Advance(c: bv64, mask: bv64, d: Dir): bv64
  {
    mask & Shift(c, d)
  }

  lemma AdvanceInMask(c: bv64, mask: bv64, d: Dir)
    ensures SubsetOf(Advance(c, mask, d), mask)
  {}

  /** The file whose stones must not take a step in direction `d`. */
  function FileGuard(d: Dir): bv64
  {
    match d
    case East => FILE_H
    case NorthEast => FILE_H
    case SouthEast => FILE_H
    case West => FILE_A
    case NorthWest => FILE_A
    case SouthWest => FILE_A
    case North => 0
    case South => 0
  }

  /** The opponent's stones that a run in direction `d` may pass over. */
  function Guard(opponent: bv64, d: Dir): (mask: bv64)
    ensures SubsetOf(mask, opponent)
  {
    GuardSubset(opponent, FileGuard(d));
    opponent & !FileGuard(d)
  }

  lemma GuardSubset(opponent: bv64, file: bv64)
    ensures SubsetOf(opponent & !file, opponent)
  {}

  // ---------------------------------------------------------------
  // Termination of the walks. A set that keeps stepping in one
  // direction while staying inside a fixed mask eventually becomes
  // empty: for the left shifts its lowest set bit rises, for the right
  // shifts its value falls.
  // ---------------------------------------------------------------

  predicate Upward(d: Dir)
  {
    d.East? || d.North? || d.NorthEast? || d.NorthWest?
  }

  function LowestBit(c: bv64): bv64
  {
    c & (0 - c)
  }

  /** Termination measure of a walk in direction `d` at the set `c`. */
  function Progress(c: bv64, d: Dir): bv64
  {
    if Upward(d) then 0 - LowestBit(c) else c
  }

  lemma ProgressEast(mask: bv64, c: bv64, d: Dir)
    requires c != 0 && d.East?
    ensures Progress(Advance(c, mask, d), d) < Progress(c, d)
  {}

  lemma ProgressWest(mask: bv64, c: bv64, d: Dir)
    requires c != 0 && d.West?
    ensures Progress(Advance(c, mask, d), d) < Progress(c, d)
  {}

  lemma ProgressNorth(mask: bv64, c: bv64, d: Dir)
    requires c != 0 && d.North?
    ensures Progress(Advance(c, mask, d), d) < Progress(c, d)
  {}

  lemma ProgressSouth(mask: bv64, c: bv64, d: Dir)
    requires c != 0 && d.South?
    ensures Progress(Advance(c, mask, d), d) < Progress(c, d)
  {}

  lemma ProgressNorthEast(mask: bv64, c: bv64, d: Dir)
    requires c != 0 && d.NorthEast?
    ensures Progress(Advance(c, mask, d), d) < Progress(c, d)
  {}

  lemma ProgressNorthWest(mask: bv64, c: bv64, d: Dir)
    requires c != 0 && d.NorthWest?
    ensures Progress(Advance(c, mask, d), d) < Progress(c, d)
  {}

  lemma ProgressSouthEast(mask: bv64, c: bv64, d: Dir)
    requires c != 0 && d.SouthEast?
    ensures Progress(Advance(c, mask, d), d) < Progress(c, d)
  {}

  lemma ProgressSouthWest(mask: bv64, c: bv64, d: Dir)
    requires c != 0 && d.SouthWest?
    ensures Progress(Advance(c, mask, d), d) < Progress(c, d)
  {}

  /** One step of a walk inside `mask` strictly lowers its measure. */
  lemma StepProgress(mask: bv64, c: bv64, d: Dir)
    requires c != 0
    ensures Progress(Advance(c, mask, d), d) < Progress(c, d)
  {
    match d
    case East => ProgressEast(mask, c, d);
    case West => ProgressWest(mask, c, d);
    case North => ProgressNorth(mask, c, d);
    case South => ProgressSouth(mask, c, d);
    case NorthEast => ProgressNorthEast(mask, c, d);
    case NorthWest => ProgressNorthWest(mask, c, d);
    case SouthEast => ProgressSouthEast(mask, c, d);
    case SouthWest => ProgressSouthWest(mask, c, d);
  }

  /** The number of steps a walk from `c` inside `mask` takes before it runs out. */
  function Steps(c: bv64, mask: bv64, d: Dir): nat
    decreases Progress(c, d)
  {
    if c == 0 then 0
    else
      var next := Advance(c, mask, d);
      StepProgress(mask, c, d);
      1 + Steps(next, mask, d)
  }

  lemma StepsDecrease(c: bv64, mask: bv64, d: Dir)
    requires c != 0
    ensures Steps(Advance(c, mask, d), mask, d) < Steps(c, mask, d)
  {}
}

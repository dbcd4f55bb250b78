/**
 * Properties of the rules: legal squares are empty, flips are the
 * opponent's stones, a move adds exactly one stone and keeps the two
 * colours apart, and the turn passes.
 */
module Properties {
  import opened Bits
  import opened Directions
  import opened Rules

  // ---------------------------------------------------------------
  // Legal squares are empty squares.
  // ---------------------------------------------------------------

  /** Every square a direction's runs reach is one of the `empty` squares. */
  lemma ReachInEmpty(cand: bv64, mask: bv64, empty: bv64, d: Dir)
    ensures SubsetOf(Reach(cand, mask, empty, d), empty)
  {
    ReachWithinEmpty(cand, mask, empty, d);
  }

  predicate ReachWithin(cand: bv64, mask: bv64, empty: bv64, d: Dir)
  {
    SubsetOf(Reach(cand, mask, empty, d), empty)
  }

  lemma {:induction false} ReachWithinEmpty(cand: bv64, mask: bv64, empty: bv64, d: Dir)
    ensures ReachWithin(cand, mask, empty, d)
    decreases Steps(cand, mask, d)
  {
    if cand != 0 {
      StepsDecrease(cand, mask, d);
      ReachWithinEmpty(Advance(cand, mask, d), mask, empty, d);
      ReachStepInEmpty(cand, mask, empty, d);
    }
  }

  lemma ReachStepInEmpty(cand: bv64, mask: bv64, empty: bv64, d: Dir)
    requires cand != 0
    requires ReachWithin(Advance(cand, mask, d), mask, empty, d)
    ensures ReachWithin(cand, mask, empty, d)
  {
    ReachUnfold(cand, mask, empty, d);
    MeetUnion(cand, empty, d, Reach(Advance(cand, mask, d), mask, empty, d));
  }

  lemma ReachUnfold(cand: bv64, mask: bv64, empty: bv64, d: Dir)
    requires cand != 0
    ensures Reach(cand, mask, empty, d) == Union(Advance(cand, empty, d), Reach(Advance(cand, mask, d), mask, empty, d))
  {}

  lemma MeetUnion(cand: bv64, empty: bv64, d: Dir, r: bv64)
    requires SubsetOf(r, empty)
    ensures SubsetOf(Advance(cand, empty, d) | r, empty)
  {
    AdvanceInMask(cand, empty, d);
    SubsetUnion(Advance(cand, empty, d), r, empty);
  }

  lemma {:induction false} LegalOverInVacant(player: bv64, opponent: bv64, dirs: seq<Dir>)
    ensures SubsetOf(LegalOver(player, opponent, dirs), Vacant(player, opponent))
  {
    if dirs != [] {
      var init, last := dirs[..|dirs| - 1], dirs[|dirs| - 1];
      LegalInDirVacant(player, opponent, last);
      LegalOverInVacant(player, opponent, init);
      SubsetUnion(LegalOver(player, opponent, init), LegalInDir(player, opponent, last), Vacant(player, opponent));
    }
  }

  lemma LegalInDirVacant(player: bv64, opponent: bv64, d: Dir)
    ensures SubsetOf(LegalInDir(player, opponent, d), Vacant(player, opponent))
  {
    var mask := Guard(opponent, d);
    ReachInEmpty(Advance(player, mask, d), mask, Vacant(player, opponent), d);
  }

  /** `get_legal_moves` only ever offers empty squares. */
  lemma LegalMovesVacant(p: Position)
    ensures SubsetOf(LegalMoves(p), !(p.black | p.white))
  {
    LegalOverInVacant(Mover(p), Opponent(p), DIRECTIONS);
    VacantOfBoth(p);
  }

  lemma VacantOfBoth(p: Position)
    ensures Vacant(Mover(p), Opponent(p)) == !(p.black | p.white)
  {
    if p.turn == Black {
      VacantSwap(p.black, p.white);
    } else {
      VacantSwap(p.white, p.black);
    }
  }

  lemma VacantSwap(a: bv64, b: bv64)
    ensures Vacant(a, b) == !(a | b) && Vacant(b, a) == !(a | b)
  {}

  // ---------------------------------------------------------------
  // Flips are guarded opponent stones.
  // ---------------------------------------------------------------

  /** A walk that starts inside `mask` collects only squares of `mask`. */
  lemma WalkInMask(cand: bv64, mask: bv64, cont: Dir)
    requires SubsetOf(cand, mask)
    ensures SubsetOf(Walk(cand, mask, cont).flips, mask)
  {
    WalkWithinMask(cand, mask, cont);
  }

  predicate WalkWithin(cand: bv64, mask: bv64, cont: Dir)
  {
    SubsetOf(cand, mask) ==> SubsetOf(Walk(cand, mask, cont).flips, mask)
  }

  lemma {:induction false} WalkWithinMask(cand: bv64, mask: bv64, cont: Dir)
    ensures WalkWithin(cand, mask, cont)
    decreases Steps(cand, mask, cont)
  {
    var next := Advance(cand, mask, cont);
    if cand != 0 && next != 0 {
      StepsDecrease(cand, mask, cont);
      WalkWithinMask(next, mask, cont);
    }
    WalkStepInMask(cand, mask, cont);
  }

  lemma WalkStepInMask(cand: bv64, mask: bv64, cont: Dir)
    requires cand != 0 && Advance(cand, mask, cont) != 0 ==> WalkWithin(Advance(cand, mask, cont), mask, cont)
    ensures WalkWithin(cand, mask, cont)
  {
    var next := Advance(cand, mask, cont);
    if cand != 0 && next != 0 {
      WalkUnfold(cand, mask, cont);
      AdvanceInMask(cand, mask, cont);
      if SubsetOf(cand, mask) {
        SubsetUnion(cand, Walk(next, mask, cont).flips, mask);
      }
    }
  }

  lemma WalkUnfold(cand: bv64, mask: bv64, cont: Dir)
    requires cand != 0 && Advance(cand, mask, cont) != 0
    ensures Walk(cand, mask, cont).flips == Union(cand, Walk(Advance(cand, mask, cont), mask, cont).flips)
    ensures Walk(cand, mask, cont).last == Walk(Advance(cand, mask, cont), mask, cont).last
  {}

  lemma FlipsInGuard(move: bv64, player: bv64, opponent: bv64, d: Dir, cont: Dir)
    ensures SubsetOf(FlipsInDir(move, player, opponent, d, cont), Guard(opponent, d))
  {
    var mask := Guard(opponent, d);
    var cand := Advance(move, mask, d);
    AdvanceInMask(move, mask, d);
    WalkInMask(cand, mask, cont);
    KeptOrDropped(Walk(cand, mask, cont).flips, FlipsInDir(move, player, opponent, d, cont), mask);
  }

  /** A run that lies in `mask` still does when it is either kept or dropped. */
  lemma KeptOrDropped(flips: bv64, kept: bv64, mask: bv64)
    requires SubsetOf(flips, mask) && (kept == flips || kept == 0)
    ensures SubsetOf(kept, mask)
  {
    SubsetMeet(mask, 0);
  }

  /** Whatever the probes, only opponent stones are flipped. */
  lemma {:induction false} TotalFlipsInOpponent(move: bv64, player: bv64, opponent: bv64, probes: seq<Probe>)
    ensures SubsetOf(TotalFlips(move, player, opponent, probes), opponent)
  {
    if probes != [] {
      var init, pr := probes[..|probes| - 1], probes[|probes| - 1];
      FlipsInGuard(move, player, opponent, pr.dir, pr.cont);
      SubsetTrans(FlipsInDir(move, player, opponent, pr.dir, pr.cont), Guard(opponent, pr.dir), opponent);
      TotalFlipsInOpponent(move, player, opponent, init);
      SubsetUnion(TotalFlips(move, player, opponent, init), FlipsInDir(move, player, opponent, pr.dir, pr.cont), opponent);
    }
  }

  // ---------------------------------------------------------------
  // The effect of a legal move. Each word-level fact is its own lemma
  // over plain words; the position-level lemmas only unfold `Place`.
  // ---------------------------------------------------------------

  lemma GainWords(a: bv64, o: bv64, m: bv64, f: bv64)
    requires Apart(a, o) && SubsetOf(f, o) && Apart(m, a | o)
    ensures Gained(a, m, f) == a | m | f
  {}

  lemma LoseWords(o: bv64, f: bv64)
    requires SubsetOf(f, o)
    ensures Lost(o, f) == o & !f
  {}

  lemma ApartWords(a: bv64, o: bv64, m: bv64, f: bv64)
    requires Apart(a, o) && SubsetOf(f, o) && Apart(m, a | o)
    ensures Apart(Gained(a, m, f), Lost(o, f))
  {}

  lemma CountWords(a: bv64, o: bv64, m: bv64, f: bv64)
    requires Apart(a, o) && SubsetOf(f, o) && Apart(m, a | o)
    ensures PopCount(Gained(a, m, f)) + PopCount(Lost(o, f)) == PopCount(a) + PopCount(o) + PopCount(m)
  {
    GainWords(a, o, m, f);
    SplitWords(a, o, m, f);
    PopCountDisjointUnion(a, m | f);
    PopCountDisjointUnion(m, f);
    PopCountRemove(o, f);
  }

  lemma SplitWords(a: bv64, o: bv64, m: bv64, f: bv64)
    requires Apart(a, o) && SubsetOf(f, o) && Apart(m, a | o)
    ensures a & (m | f) == 0 && m & f == 0
    ensures a | m | f == a | (m | f)
  {}

  /** A one-square mask that meets a subset of `v` lies in `v`. */
  lemma SingleInside(m: bv64, l: bv64, v: bv64)
    requires Single(m) && Has(l, m) && SubsetOf(l, v)
    ensures SubsetOf(m, v)
  {}

  lemma VacantApart(m: bv64, a: bv64, o: bv64)
    requires SubsetOf(m, Vacant(a, o))
    ensures Apart(m, a | o)
  {}

  /** The mover's and the opponent's stones are apart when the colours are. */
  lemma SidesApart(p: Position)
    requires Disjoint(p)
    ensures Apart(Mover(p), Opponent(p))
  {
    if p.turn == White {
      ApartSym(p.black, p.white);
    }
  }

  /** A legal square holds no stone. */
  lemma LegalSquareEmpty(p: Position, i: int)
    requires 0 <= i < 64 && Bit(LegalMoves(p), i)
    ensures Apart(Sq(i), Mover(p) | Opponent(p))
  {
    SqSingle(i);
    LegalOverInVacant(Mover(p), Opponent(p), DIRECTIONS);
    SingleInside(Sq(i), LegalMoves(p), Vacant(Mover(p), Opponent(p)));
    VacantApart(Sq(i), Mover(p), Opponent(p));
  }

  lemma HandOverStones(c: Color, mine: bv64, theirs: bv64)
    ensures Stones(HandOver(c, mine, theirs), c) == mine
    ensures Stones(HandOver(c, mine, theirs), Other(c)) == theirs
    ensures HandOver(c, mine, theirs).turn == Other(c)
  {
    if c == Black {
      assert HandOver(c, mine, theirs) == Position(mine, theirs, White);
    } else {
      assert HandOver(c, mine, theirs) == Position(theirs, mine, Black);
    }
  }

  lemma HandOverApart(c: Color, mine: bv64, theirs: bv64)
    requires Apart(mine, theirs)
    ensures Disjoint(HandOver(c, mine, theirs))
  {
    if c == Black {
      assert HandOver(c, mine, theirs) == Position(mine, theirs, White);
    } else {
      assert HandOver(c, mine, theirs) == Position(theirs, mine, Black);
      ApartSym(mine, theirs);
    }
  }

  lemma HandOverCount(c: Color, mine: bv64, theirs: bv64)
    ensures PopCount(HandOver(c, mine, theirs).black) + PopCount(HandOver(c, mine, theirs).white)
         == PopCount(mine) + PopCount(theirs)
  {
    if c == Black {
      assert HandOver(c, mine, theirs) == Position(mine, theirs, White);
    } else {
      assert HandOver(c, mine, theirs) == Position(theirs, mine, Black);
    }
  }

  lemma SidesCount(p: Position)
    ensures PopCount(Mover(p)) + PopCount(Opponent(p)) == PopCount(p.black) + PopCount(p.white)
  {
    if p.turn == Black {
      assert Mover(p) == p.black && Opponent(p) == p.white;
    } else {
      assert Mover(p) == p.white && Opponent(p) == p.black;
    }
  }

  /** The position after a stone of the mover goes on square `i`. */
  function After(p: Position, i: int, probes: seq<Probe>): Position
    requires 0 <= i < 64
  {
    Place(p, Sq(i), Flips(p, i, probes))
  }

  /** The stones a stone of the mover on square `i` flips. */
  function Flips(p: Position, i: int, probes: seq<Probe>): bv64
    requires 0 <= i < 64
  {
    TotalFlips(Sq(i), Mover(p), Opponent(p), probes)
  }

  /** A legal move is played: `make_move` answers with the position after it, and the turn passes. */
  lemma PlayLegal(p: Position, i: int, probes: seq<Probe>)
    requires 0 <= i < 64 && Bit(LegalMoves(p), i)
    ensures Play(p, Sq(i), probes) == Some(After(p, i, probes))
    ensures After(p, i, probes).turn == Other(p.turn)
  {
    HandOverStones(p.turn, Gained(Mover(p), Sq(i), Flips(p, i, probes)), Lost(Opponent(p), Flips(p, i, probes)));
  }

  /** The mover keeps its stones and gains the played square and the flips. */
  lemma MoveGains(p: Position, i: int, probes: seq<Probe>)
    requires 0 <= i < 64 && Disjoint(p) && Bit(LegalMoves(p), i)
    ensures Stones(After(p, i, probes), p.turn) == Mover(p) | Sq(i) | Flips(p, i, probes)
  {
    TotalFlipsInOpponent(Sq(i), Mover(p), Opponent(p), probes);
    SidesApart(p);
    LegalSquareEmpty(p, i);
    PlaceGains(p, Sq(i), Flips(p, i, probes));
  }

  lemma PlaceGains(p: Position, m: bv64, f: bv64)
    requires Apart(Mover(p), Opponent(p)) && SubsetOf(f, Opponent(p)) && Apart(m, Mover(p) | Opponent(p))
    ensures Stones(Place(p, m, f), p.turn) == Mover(p) | m | f
  {
    GainWords(Mover(p), Opponent(p), m, f);
    HandOverStones(p.turn, Gained(Mover(p), m, f), Lost(Opponent(p), f));
  }

  /** The opponent loses exactly the flipped stones, all of which were its own. */
  lemma MoveLoses(p: Position, i: int, probes: seq<Probe>)
    requires 0 <= i < 64
    ensures SubsetOf(Flips(p, i, probes), Opponent(p))
    ensures Stones(After(p, i, probes), Other(p.turn)) == Opponent(p) & !Flips(p, i, probes)
  {
    var f := Flips(p, i, probes);
    TotalFlipsInOpponent(Sq(i), Mover(p), Opponent(p), probes);
    LoseWords(Opponent(p), f);
    HandOverStones(p.turn, Gained(Mover(p), Sq(i), f), Lost(Opponent(p), f));
  }

  /** No square ends up holding two stones. */
  lemma MoveKeepsApart(p: Position, i: int, probes: seq<Probe>)
    requires 0 <= i < 64 && Disjoint(p) && Bit(LegalMoves(p), i)
    ensures Disjoint(After(p, i, probes))
  {
    var f := Flips(p, i, probes);
    TotalFlipsInOpponent(Sq(i), Mover(p), Opponent(p), probes);
    SidesApart(p);
    LegalSquareEmpty(p, i);
    ApartWords(Mover(p), Opponent(p), Sq(i), f);
    HandOverApart(p.turn, Gained(Mover(p), Sq(i), f), Lost(Opponent(p), f));
  }

  /** A move puts exactly one more stone on the board. */
  lemma MoveAddsOne(p: Position, i: int, probes: seq<Probe>)
    requires 0 <= i < 64 && Disjoint(p) && Bit(LegalMoves(p), i)
    ensures PopCount(After(p, i, probes).black) + PopCount(After(p, i, probes).white)
         == PopCount(p.black) + PopCount(p.white) + 1
  {
    var f := Flips(p, i, probes);
    TotalFlipsInOpponent(Sq(i), Mover(p), Opponent(p), probes);
    SidesApart(p);
    LegalSquareEmpty(p, i);
    CountWords(Mover(p), Opponent(p), Sq(i), f);
    HandOverCount(p.turn, Gained(Mover(p), Sq(i), f), Lost(Opponent(p), f));
    SidesCount(p);
    PopCountSq(i);
  }

  /** A square that is not legal leaves the game as it is. */
  lemma PlayIllegal(p: Position, i: int, probes: seq<Probe>)
    requires 0 <= i < 64 && !Bit(LegalMoves(p), i)
    ensures Play(p, Sq(i), probes) == None
  {}

  // ---------------------------------------------------------------
  // Passing, the end of the game and the score.
  // ---------------------------------------------------------------

  lemma ShiftZero(d: Dir)
    ensures Shift(0, d) == 0
  {}

  lemma GuardZero(d: Dir)
    ensures Guard(0, d) == 0
  {}

  /** A side without stones leaves no legal square in any direction. */
  lemma LegalInDirNone(player: bv64, opponent: bv64, d: Dir)
    requires player == 0 || opponent == 0
    ensures LegalInDir(player, opponent, d) == 0
  {
    ShiftZero(d);
    GuardZero(d);
  }

  lemma {:induction false} LegalOverNone(player: bv64, opponent: bv64, dirs: seq<Dir>)
    requires player == 0 || opponent == 0
    ensures LegalOver(player, opponent, dirs) == 0
  {
    if dirs != [] {
      LegalInDirNone(player, opponent, dirs[|dirs| - 1]);
      LegalOverNone(player, opponent, dirs[..|dirs| - 1]);
    }
  }

  lemma ToggledSides(p: Position)
    ensures Mover(Toggled(p)) == Opponent(p) && Opponent(Toggled(p)) == Mover(p)
  {
    if p.turn == Black {
      assert Toggled(p) == Position(p.black, p.white, White);
    } else {
      assert Toggled(p) == Position(p.black, p.white, Black);
    }
  }

  /** Once a colour has no stones left, neither colour can move: the game is over. */
  lemma NoStonesGameOver(p: Position)
    requires p.black == 0 || p.white == 0
    ensures GameOver(p)
  {
    ToggledSides(p);
    assert Mover(p) == 0 || Opponent(p) == 0;
    LegalOverNone(Mover(p), Opponent(p), DIRECTIONS);
    LegalOverNone(Opponent(p), Mover(p), DIRECTIONS);
  }

  lemma NothingVacant(l: bv64, b: bv64, w: bv64)
    requires SubsetOf(l, !(b | w)) && b | w == FULL
    ensures l == 0
  {}

  /** On a full board neither colour can move: the game is over. */
  lemma FullBoardGameOver(p: Position)
    requires p.black | p.white == FULL
    ensures GameOver(p)
  {
    LegalMovesVacant(p);
    LegalMovesVacant(Toggled(p));
    NothingVacant(LegalMoves(p), p.black, p.white);
    NothingVacant(LegalMoves(Toggled(p)), p.black, p.white);
  }

  /** Two disjoint colours hold at most 64 stones between them. */
  lemma ScoreBound(p: Position)
    requires Disjoint(p)
    ensures PopCount(p.black) + PopCount(p.white) <= 64
  {
    PopCountDisjointUnion(p.black, p.white);
    PopCountBound(p.black | p.white);
  }

  /** Gathering one more direction of `ds` adds its legal squares. */
  lemma LegalOverPrefix(player: bv64, opponent: bv64, ds: seq<Dir>, k: int)
    requires 0 <= k < |ds|
    ensures LegalOver(player, opponent, ds[..k + 1]) == Union(LegalOver(player, opponent, ds[..k]), LegalInDir(player, opponent, ds[k]))
  {
    assert ds[..k + 1][..k] == ds[..k];
  }

  /** Gathering one more probe of `ps` adds its flips. */
  lemma TotalFlipsPrefix(move: bv64, player: bv64, opponent: bv64, ps: seq<Probe>, k: int)
    requires 0 <= k < |ps|
    ensures TotalFlips(move, player, opponent, ps[..k + 1])
         == Union(TotalFlips(move, player, opponent, ps[..k]), FlipsInDir(move, player, opponent, ps[k].dir, ps[k].cont))
  {
    assert ps[..k + 1][..k] == ps[..k];
  }

  /** `LegalMoves` gathers the eight directions in the order East, West, North, South, NE, NW, SE, SW. */
  lemma LegalOverAll(player: bv64, opponent: bv64)
    ensures LegalOver(player, opponent, DIRECTIONS)
         == Union(Union(Union(Union(LegalOver(player, opponent, DIRECTIONS[..4]),
              LegalInDir(player, opponent, NorthEast)), LegalInDir(player, opponent, NorthWest)),
              LegalInDir(player, opponent, SouthEast)), LegalInDir(player, opponent, SouthWest))
  {
    var ds := DIRECTIONS;
    LegalOverPrefix(player, opponent, ds, 4);
    LegalOverPrefix(player, opponent, ds, 5);
    LegalOverPrefix(player, opponent, ds, 6);
    LegalOverPrefix(player, opponent, ds, 7);
    WholePrefix(ds);
  }

  lemma LegalOverFirstHalf(player: bv64, opponent: bv64)
    ensures LegalOver(player, opponent, DIRECTIONS[..4])
         == Union(Union(Union(Union(0, LegalInDir(player, opponent, East)), LegalInDir(player, opponent, West)),
              LegalInDir(player, opponent, North)), LegalInDir(player, opponent, South))
  {
    var ds := DIRECTIONS;
    EmptyPrefix(ds);
    LegalOverPrefix(player, opponent, ds, 0);
    LegalOverPrefix(player, opponent, ds, 1);
    LegalOverPrefix(player, opponent, ds, 2);
    LegalOverPrefix(player, opponent, ds, 3);
  }

  /** `make_move` gathers the flips of eight probes in their order. */
  lemma TotalFlipsAll(move: bv64, player: bv64, opponent: bv64, ps: seq<Probe>)
    requires |ps| == 8
    ensures TotalFlips(move, player, opponent, ps)
         == Union(Union(Union(Union(TotalFlips(move, player, opponent, ps[..4]),
              FlipsInDir(move, player, opponent, ps[4].dir, ps[4].cont)),
              FlipsInDir(move, player, opponent, ps[5].dir, ps[5].cont)),
              FlipsInDir(move, player, opponent, ps[6].dir, ps[6].cont)),
              FlipsInDir(move, player, opponent, ps[7].dir, ps[7].cont))
  {
    TotalFlipsPrefix(move, player, opponent, ps, 4);
    TotalFlipsPrefix(move, player, opponent, ps, 5);
    TotalFlipsPrefix(move, player, opponent, ps, 6);
    TotalFlipsPrefix(move, player, opponent, ps, 7);
    WholePrefix(ps);
  }

  lemma TotalFlipsFirstHalf(move: bv64, player: bv64, opponent: bv64, ps: seq<Probe>)
    requires |ps| == 8
    ensures TotalFlips(move, player, opponent, ps[..4])
         == Union(Union(Union(Union(0,
              FlipsInDir(move, player, opponent, ps[0].dir, ps[0].cont)),
              FlipsInDir(move, player, opponent, ps[1].dir, ps[1].cont)),
              FlipsInDir(move, player, opponent, ps[2].dir, ps[2].cont)),
              FlipsInDir(move, player, opponent, ps[3].dir, ps[3].cont))
  {
    EmptyPrefix(ps);
    TotalFlipsPrefix(move, player, opponent, ps, 0);
    TotalFlipsPrefix(move, player, opponent, ps, 1);
    TotalFlipsPrefix(move, player, opponent, ps, 2);
    TotalFlipsPrefix(move, player, opponent, ps, 3);
  }

  /** The flips of bitboard.py, spelled out probe by probe. */
  lemma BitboardFlips(move: bv64, player: bv64, opponent: bv64)
    ensures TotalFlips(move, player, opponent, BITBOARD_PROBES) == Union(Union(Union(Union(Union(Union(Union(Union(0, FlipsInDir(move, player, opponent, East, East)), FlipsInDir(move, player, opponent, West, East)), FlipsInDir(move, player, opponent, North, North)), FlipsInDir(move, player, opponent, South, South)), FlipsInDir(move, player, opponent, NorthEast, NorthEast)), FlipsInDir(move, player, opponent, NorthWest, NorthWest)), FlipsInDir(move, player, opponent, SouthEast, SouthEast)), FlipsInDir(move, player, opponent, SouthWest, SouthWest))
  {
    TotalFlipsAll(move, player, opponent, BITBOARD_PROBES);
    TotalFlipsFirstHalf(move, player, opponent, BITBOARD_PROBES);
  }

  lemma WholePrefix<T>(s: seq<T>)
    ensures s[..|s|] == s
  {}

  lemma EmptyPrefix<T>(s: seq<T>)
    ensures s[..0] == []
  {}
}

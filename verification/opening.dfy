/**
 * The opening position and black's first move on E3.
 */
module Opening {
  import opened Bits
  import opened Directions
  import opened Rules
  import opened Properties
  import opened Coords
  import opened Listings

  /** E3, F4, C5 and D6 as one word. */
  const START_LEGAL: bv64 := 0x804_2010_0000

  /** The opening stones: black on D4 and E5, white on E4 and D5, apart. */
  lemma StartStones()
    ensures START.black == 0x10_0800_0000 && START.white == 0x8_1000_0000
    ensures START.turn == Black && Disjoint(START)
  {}

  lemma StartLegalSquares()
    ensures START_LEGAL == Sq(20) | Sq(29) | Sq(34) | Sq(43)
  {}

  /** The names `list_legal_moves` gives for the opening's legal set. */
  lemma StartLegalNames()
    ensures Listing(START_LEGAL, 64) == ["E3", "F4", "C5", "D6"]
  {
    StartNamesLow();
    StartNamesHigh();
    ListingGap(START_LEGAL, 44, 64);
  }

  lemma StartNamesLow()
    ensures Listing(START_LEGAL, 30) == ["E3", "F4"]
  {
    ListingGap(START_LEGAL, 0, 20);
    assert Listing(START_LEGAL, 21) == ["E3"];
    ListingGap(START_LEGAL, 21, 29);
  }

  lemma StartNamesHigh()
    ensures Listing(START_LEGAL, 44) == Listing(START_LEGAL, 30) + ["C5", "D6"]
  {
    StartNamesC5();
    ListingGap(START_LEGAL, 35, 43);
  }

  lemma StartNamesC5()
    ensures Listing(START_LEGAL, 35) == Listing(START_LEGAL, 30) + ["C5"]
  {
    ListingGap(START_LEGAL, 30, 34);
  }

  /** From the opening, black may play exactly E3, F4, C5 and D6. */
  lemma StartLegal()
    ensures LegalMoves(START) == START_LEGAL
  {
    StartStones();
    StartLegalFirstHalf();
    StartLegalSecondHalf();
    LegalOverAll(0x10_0800_0000, 0x8_1000_0000);
    LegalOverFirstHalf(0x10_0800_0000, 0x8_1000_0000);
  }

  /** From the opening, East gives F4, West C5, North D6 and South E3. */
  lemma StartLegalFirstHalf()
    ensures LegalInDir(0x10_0800_0000, 0x8_1000_0000, East) == 0x2000_0000
    ensures LegalInDir(0x10_0800_0000, 0x8_1000_0000, West) == 0x4_0000_0000
    ensures LegalInDir(0x10_0800_0000, 0x8_1000_0000, North) == 0x800_0000_0000
    ensures LegalInDir(0x10_0800_0000, 0x8_1000_0000, South) == 0x10_0000
  {}

  lemma StartLegalSecondHalf()
    ensures LegalInDir(0x10_0800_0000, 0x8_1000_0000, NorthEast) == 0
    ensures LegalInDir(0x10_0800_0000, 0x8_1000_0000, NorthWest) == 0
    ensures LegalInDir(0x10_0800_0000, 0x8_1000_0000, SouthEast) == 0
    ensures LegalInDir(0x10_0800_0000, 0x8_1000_0000, SouthWest) == 0
  {}

  lemma StartFlips()
    ensures TotalFlips(Sq(20), START.black, START.white, BITBOARD_PROBES) == Sq(28)
  {
    StartStones();
    StartSquares();
    StartFlipsEach();
    TotalFlipsAll(0x10_0000, 0x10_0800_0000, 0x8_1000_0000, BITBOARD_PROBES);
    TotalFlipsFirstHalf(0x10_0000, 0x10_0800_0000, 0x8_1000_0000, BITBOARD_PROBES);
  }

  lemma StartSquares()
    ensures Sq(20) == 0x10_0000 && Sq(28) == 0x1000_0000
  {}

  /** Black's E3 flips only northward, the white stone on E4. */
  lemma StartFlipsEach()
    ensures FlipsInDir(0x10_0000, 0x10_0800_0000, 0x8_1000_0000, East, East) == 0
    ensures FlipsInDir(0x10_0000, 0x10_0800_0000, 0x8_1000_0000, West, East) == 0
    ensures FlipsInDir(0x10_0000, 0x10_0800_0000, 0x8_1000_0000, North, North) == 0x1000_0000
    ensures FlipsInDir(0x10_0000, 0x10_0800_0000, 0x8_1000_0000, South, South) == 0
    ensures FlipsInDir(0x10_0000, 0x10_0800_0000, 0x8_1000_0000, NorthEast, NorthEast) == 0
    ensures FlipsInDir(0x10_0000, 0x10_0800_0000, 0x8_1000_0000, NorthWest, NorthWest) == 0
    ensures FlipsInDir(0x10_0000, 0x10_0800_0000, 0x8_1000_0000, SouthEast, SouthEast) == 0
    ensures FlipsInDir(0x10_0000, 0x10_0800_0000, 0x8_1000_0000, SouthWest, SouthWest) == 0
  {}

  /** Black's E3 flips E4: black then holds E3, D4, E4 and E5, white only D5. */
  lemma StartPlay()
    ensures Play(START, Sq(20), BITBOARD_PROBES)
         == Some(Position(Sq(20) | Sq(27) | Sq(28) | Sq(36), Sq(35), White))
  {
    StartStones();
    StartLegal();
    StartLegalSquares();
    StartFlips();
    assert Has(LegalMoves(START), Sq(20));
  }

  /** The score after black's E3: four black stones, one white. */
  lemma StartPlayScore()
    ensures PopCount(Sq(20) | Sq(27) | Sq(28) | Sq(36)) == 4
    ensures PopCount(Sq(35)) == 1
  {
    PopCountSq(20);
    PopCountSq(35);
    AddSquare(Sq(20), 27);
    AddSquare(Sq(20) | Sq(27), 28);
    AddSquare(Sq(20) | Sq(27) | Sq(28), 36);
  }

  lemma AddSquare(a: bv64, i: int)
    requires 0 <= i < 64 && Apart(a, Sq(i))
    ensures PopCount(a | Sq(i)) == PopCount(a) + 1
  {
    PopCountSq(i);
    PopCountDisjointUnion(a, Sq(i));
  }
}

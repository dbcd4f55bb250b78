# Othello bitboard engine

A Dafny model of the rules engine of a small Othello (Reversi) program.
It has two near-identical engines, each a `BitBoard` class with three fields:

- `black` and `white`, 64-bit occupancy sets with square index `rank * 8 + file`, so A1 is bit 0 and H8 is bit 63;
- `current_player`, black or white.

The first engine sits behind a console game (`bitboard.py`). It spells out each of the eight directions as its own block of code. The second sits behind a web page (`web.py`). It drives the same two algorithms from a table of `(shift, file mask)` pairs.

The model is layered:

- `Bits` (bits.dfy): 64-bit sets as `bv64`. Union, intersection tests, subsets, and the population count as the size of the set of bit indices.
- `Directions` (directions.dfy): the eight one-step shifts and the file guard that stops a run from wrapping across a rank edge. It also holds the step count `Steps` that bounds every walk.
- `Coords` (coords.dfy): the square-name codec, `"D3"` to 19 and back.
- `Rules` (rules.dfy): the specification functions.
  - `Reach`, `LegalInDir` and `LegalMoves` give the legal squares.
  - `Walk`, `FlipsInDir` and `TotalFlips` give the flips. A probe list states, per direction, which shift starts a run and which shift continues it.
  - `Play` gives the position after a move: `None` for an illegal square.
  - `GameOver` says that neither colour can move.
- `Properties` (properties.dfy): what the rules guarantee. Legal squares are empty. Flips are opponent stones. A legal move keeps the sides disjoint, adds exactly one stone and passes the turn. The listing and the score agree with the sets.
- `Listings` (listings.dfy): the listing of legal square names in increasing index order, and the 8 x 8 label grid.
- `Opening` (opening.dfy): the opening position, its four legal squares, and the first move on E3.
- `Engine` (engine.dfy): `bitboard.py`'s `BitBoard` as a class with methods and loops, each proved against the `Rules` functions. It also models the console's guarded pass.
- `Web` (web.dfy): `web.py`'s `BitBoard` as a class. Its loops run over the direction table and are proved against the same functions.
- `Findings` (findings.dfy): the west walk of `bitboard.py`'s `make_move`, as written and as intended.

Every shifted value in the source is intersected with a 64-bit set before it is used:
- the opponent's stones;
- the mover's stones;
- the empty squares;
- or, at the end of `get_legal_moves` in `bitboard.py`, the final `& 0xFFFFFFFFFFFFFFFF`.

So the truncating shifts of `bv64` give the same sets as Python's unbounded integers. The one exception is `1 << idx` in `web.py` for an index of 64 or more. It meets no legal square, and the model uses the empty mask for it.

Both engines apply the file guard only to opponent stones, not to the first shift of the mover's stones or of the placed stone. A first step can therefore wrap across a rank edge. The model does not claim that the legal squares are the geometrically flanking ones. It states the structural facts below for the code as written. The one exception is `Findings.RunFlipped`: a run of guarded opponent stones followed by a mover's stone is flipped whole. The guard keeps the run, and the step from its last stone to the mover's stone, from wrapping; the step from the placed stone to the first stone of the run is not guarded and may itself wrap across a rank edge.

## Model

| member | source | states |
|---|---|---|
| Coords.SquareToIndex | bitboard.py:42-49 | The result is an on-board index in the column of the letter exactly when the name is a file letter (either case) followed by a rank digit; for such a name the row is the rank digit minus one, so rank 1 is row 0 |
| Coords.IndexToSquare | bitboard.py:55-62 | Every index 0..63 is named by the file letter `'A' + index % 8` and the rank digit `'1' + index / 8`, so A1 is bit 0 and H8 bit 63 |
| Coords.NameExamples | bitboard.py:42-62 | Bits 0, 7, 19 and 63 are named A1, H1, D3 and H8, and `d3` and `A8` read back as 19 and 56 |
| Coords.IndexRoundTrip | bitboard.py:42-62 | Reading back the name of any index gives the index |
| Coords.SquareRoundTrip | bitboard.py:42-62 | Naming the index of a valid name gives the name, upper-cased |
| Coords.NamesDistinct | bitboard.py:55-62 | Distinct indices have distinct names |
| Coords.Upper | bitboard.py:47 | Upper-casing maps `a`-`z` onto `A`-`Z` in order and leaves every other character alone |
| Opening.StartStones | bitboard.py:20-26 | A new board has black on D4 and E5 and white on E4 and D5, with no doubly held square, and black to move |
| Opening.StartLegal | bitboard.py:88-161 | From the opening, the legal squares are exactly E3, F4, C5 and D6 |
| Opening.StartLegalSquares | bitboard.py:88-161 | The opening's legal set is the four squares 20, 29, 34 and 43 |
| Opening.StartLegalNames | bitboard.py:336-342 | From the opening, `list_legal_moves` names E3, F4, C5 and D6, in that order |
| Opening.StartFlips | bitboard.py:178-289 | Playing E3 from the opening flips exactly E4 |
| Opening.StartFlipsEach | bitboard.py:178-289 | From the opening, E3's run to the north flips E4 and every other direction flips nothing |
| Opening.StartPlay | bitboard.py:166-303 | `make_move(20)` from the opening leaves black on {20, 27, 28, 36}, white on {35}, white to move |
| Opening.StartPlayScore | bitboard.py:328-331 | That position scores 4 to 1 |
| Opening.AddSquare | bitboard.py:292-299 | Adding a square not yet held raises the stone count by one |
| Properties.ReachInEmpty | bitboard.py:100-108 | The squares a direction's loop adds to the legal set are all empty |
| Properties.ReachWithinEmpty | bitboard.py:100-108 | By induction over the walk, every square a run reaches is in the empty set it is given |
| Properties.LegalOverInVacant | bitboard.py:88-161 | Whatever directions are visited, the legal set lies in the empty squares |
| Properties.LegalInDirVacant | bitboard.py:100-108 | One direction's legal squares are empty |
| Properties.LegalMovesVacant | bitboard.py:88-161 | `get_legal_moves` returns a subset of the squares outside both `black` and `white` |
| Properties.VacantOfBoth | bitboard.py:93-94 | The empty squares do not depend on which colour is to move |
| Properties.WalkInMask | bitboard.py:183-193 | A walk that starts inside the guarded opponent stones collects only such stones |
| Properties.WalkWithinMask | bitboard.py:183-193 | The same, by induction over the walk |
| Properties.FlipsInGuard | bitboard.py:181-194 | One direction's flips are guarded opponent stones, whatever shift continues the run |
| Properties.TotalFlipsInOpponent | bitboard.py:178-289 | The flip set is a subset of the opponent's stones, for any list of directions |
| Properties.GainWords | bitboard.py:292-294 | On a free square, with flips taken from the opponent, toggling the move and the flips into the mover's board is the same as adding them |
| Properties.LoseWords | bitboard.py:293 | With flips taken from the opponent, `opponent ^ flips` is the opponent minus the flips |
| Properties.ApartWords | bitboard.py:292-299 | After the updates no square is held by both colours |
| Properties.CountWords | bitboard.py:292-299 | After the updates the total stone count has grown by the size of the move mask |
| Properties.LegalSquareEmpty | bitboard.py:174-176 | A legal square holds no stone |
| Properties.HandOverStones | bitboard.py:291-302 | The handed-over position gives the mover's new board to the mover and the other board to the other colour, and the other colour is to move |
| Properties.HandOverApart | bitboard.py:291-302 | Handing over two disjoint boards gives a disjoint position |
| Properties.HandOverCount | bitboard.py:291-302 | Handing over keeps the stone count |
| Properties.SidesCount | bitboard.py:31-35 | The mover's and the opponent's counts add up to black's and white's |
| Properties.PlayLegal | bitboard.py:174-303 | A legal square is played: the result is the position after it, and the turn toggles |
| Properties.PlayIllegal | bitboard.py:174-176 | A square outside the legal set gives no new position |
| Properties.MoveGains | bitboard.py:292-299 | After a legal move the mover holds its old stones, the placed square and the flips |
| Properties.PlaceGains | bitboard.py:292-299 | The same for any free mask and flips taken from the opponent |
| Properties.MoveLoses | bitboard.py:292-299 | The flips are opponent stones, and after the move the opponent holds its old stones minus the flips |
| Properties.MoveKeepsApart | bitboard.py:292-299 | A legal move on a disjoint position leaves it disjoint |
| Properties.MoveAddsOne | bitboard.py:292-299 | A legal move on a disjoint position raises the total stone count by exactly one |
| Properties.LegalInDirNone | bitboard.py:100-108 | A side without stones has no legal square in any direction, and neither does its opponent |
| Properties.LegalOverNone | bitboard.py:88-161 | The same over any list of directions |
| Properties.ToggledSides | bitboard.py:31-35 | Toggling the turn swaps the mover's and the opponent's boards |
| Properties.NoStonesGameOver | bitboard.py:314-323 | A position where one colour has no stones is over |
| Properties.FullBoardGameOver | bitboard.py:314-323 | A full board is over |
| Properties.ScoreBound | bitboard.py:328-331 | On a disjoint position the two scores add up to at most 64 |
| Properties.LegalOverPrefix | bitboard.py:88-161 | Visiting one more direction adds that direction's legal squares to the set |
| Properties.TotalFlipsPrefix | bitboard.py:178-289 | Visiting one more direction adds that direction's flips to the set |
| Properties.LegalOverAll | bitboard.py:100-158 | The legal set is the union of the eight directions' sets, in the order the code visits them |
| Properties.TotalFlipsAll | bitboard.py:178-289 | The flip set is the union of the eight directions' flips, in order |
| Properties.BitboardFlips | bitboard.py:181-289 | `bitboard.py`'s eight flip blocks, the west one continuing east, make up the flip set |
| Listings.Indices | bitboard.py:336-342 | Every listed index is a set bit below the bound |
| Listings.ListingNames | bitboard.py:336-342 | The listing names the set bits one by one |
| Listings.ListingGap | bitboard.py:339-341 | Indices whose bit is clear add no name to the listing |
| Listings.IndicesIncreasing | bitboard.py:336-342 | The listed indices are strictly increasing |
| Listings.IndicesComplete | bitboard.py:336-342 | Every set bit below the bound is listed |
| Listings.IndicesCount | bitboard.py:336-342 | There are as many listed indices as set bits below the bound |
| Listings.ListingPopCount | bitboard.py:336-342 | The full listing has one name per set bit |
| Listings.CellMeaning | web.py:83-90 | On a disjoint board the label of a square is `'B'`, `'W'` or `''` exactly when black, white or nobody holds it |
| Listings.GridNames | web.py:78-92 | Row `r`, column `c` of the grid is the cell of the square with file `c` and rank `8 - r` |
| Engine.BitBoard.constructor | bitboard.py:20-26 | A new board is the opening position |
| Engine.BitBoard.PlayerBoards | bitboard.py:31-35 | Returns the boards of the colour to move and of the other colour |
| Engine.Sweep | bitboard.py:100-158 | One direction's `while flip_candidates` loop adds exactly that direction's legal squares to the set |
| Engine.BitBoard.GetLegalMoves | bitboard.py:88-161 | Returns the legal set of the position, and changes no field |
| Engine.WalkLine | bitboard.py:186-192 | The `while cand` loop of a flip block gathers the walk's stones and stops on its last stone |
| Engine.FlipLine | bitboard.py:181-194 | One flip block yields that direction's flips |
| Engine.Collect | bitboard.py:181-194 | One flip block adds its flips to `total_flips` |
| Engine.GatherFlips | bitboard.py:178-289 | The eight flip blocks gather the flip set of `bitboard.py`'s probes |
| Engine.FlipsOfWalk | bitboard.py:193-194 | A direction's run is kept exactly when the square one step past its last stone is the mover's |
| Engine.MoveOutcome | bitboard.py:292-299 | On a legal square setting the placed bit once more after the toggles changes nothing, and the updated boards are the position `Play` gives |
| Engine.BitBoard.MakeMove | bitboard.py:166-303 | Succeeds exactly when the index's square is legal. Then the new state is the position `Play` gives; otherwise nothing changes |
| Engine.BitBoard.ApplyMove | bitboard.py:291-302 | The boards become the toggled mover and opponent boards with the move set again, and the turn passes |
| Engine.BitBoard.CanPass | bitboard.py:308-309 | True exactly when the colour to move has no legal square |
| Engine.BitBoard.IsGameOver | bitboard.py:314-323 | True exactly when neither colour has a legal square. The turn it toggles is restored and the boards are untouched |
| Engine.BitBoard.GetScore | bitboard.py:328-331 | The popcounts of black and white, which add up to at most 64 on a disjoint board |
| Engine.BitBoard.ListLegalMoves | bitboard.py:336-342 | Returns the names of the legal squares, lowest index first |
| Engine.ListingStep | bitboard.py:339-341 | One pass of the listing loop appends square `i`'s name exactly when `(legal >> i) & 1` is set |
| Engine.BitBoard.Pass | bitboard.py:383-390 | The turn passes exactly when the colour to move has no legal square; otherwise nothing changes |
| Web.TableEntry | web.py:37 | Each table entry's shift is the step of the matching direction, and its file mask is that direction's guard (0 for north and south) |
| Web.ShiftEntry | web.py:43 | The table-driven shift of an entry is one step in its direction |
| Web.EntryStart | web.py:39-41 | An entry's mask is the guarded opponent stones, and its first candidates are the mover's stones one step on inside it |
| Web.SweepEntry | web.py:39-45 | One entry's loop adds exactly that direction's legal squares |
| Web.BitBoard.constructor | web.py:14-17 | A new board is the opening position |
| Web.BitBoard.PlayerBoards | web.py:19-20 | Returns the boards of the colour to move and of the other colour |
| Web.BitBoard.GetLegalMoves | web.py:33-46 | Returns the same legal set as the other engine, with no final mask, and changes no field |
| Web.WebProbe | web.py:55-68 | Each table entry walks and checks its end with one and the same direction |
| Web.WalkEntry | web.py:58-65 | An entry's `while cand` loop gathers the walk's stones and stops on its last stone |
| Web.CollectEntry | web.py:57-68 | An entry adds its run to `flips` exactly when the square one shift past the last stone is the mover's |
| Web.GatherEntries | web.py:54-68 | The table loop gathers the flip set of `web.py`'s probes |
| Web.WebOutcome | web.py:52-76 | On a legal square the position `Play` gives is the one the updates describe |
| Web.BitBoard.MakeMove | web.py:48-76 | Succeeds exactly when the name's index is on the board and legal. Then the new state is the position `Play` gives; otherwise nothing changes |
| Web.BitBoard.MoveAt | web.py:50-76 | The same for the index read from the name |
| Web.BitBoard.PlaceStone | web.py:53-76 | On a legal square the gathered flips and updates produce the position `Play` gives |
| Web.BitBoard.ApplyFlips | web.py:69-75 | The mover's board toggles the placed square and flips, the opponent's the flips, and the turn passes |
| Web.CellStep | web.py:83-90 | Appending the label of a square extends its row of the grid by one cell |
| Web.BitBoard.ListBoard | web.py:78-92 | Returns the eight rows from rank 8 down to rank 1, each with the eight labels of its squares |
| Web.BitBoard.ListLegal | web.py:94-96 | Returns the names of the legal squares, lowest index first |
| Findings.WestFlipsAtMostOne | bitboard.py:196-208 | As written, the west block flips at most the one stone next to the move |
| Findings.BackEastEmpty | bitboard.py:202 | The continuation `cand << 1` steps back onto the placed square, which holds no opponent stone |
| Findings.WestRunCut | bitboard.py:196-208 | With black on A1 and white on B1 and C1, D1 is legal but the west block flips nothing: the move leaves B1 and C1 white |
| Findings.WestExampleLegal | bitboard.py:88-161 | In that position black's only legal square is D1 |
| Findings.WestExampleFlipsAsWritten | bitboard.py:178-289 | In that position D1 flips nothing at all |
| Findings.RunFlipped | web.py:56-68 | With a consistent continuation, a run of opponent stones flanked by the mover is flipped whole |
| Findings.WalkRay | web.py:60-65 | Along a flanked run, the walk gathers every stone from the current one to the last |
| Findings.WestRunWhole | web.py:56-68 | In the same position the consistent west walk flips B1 and C1, and the move leaves black on A1 to D1 |
| Findings.WestExampleFlipsCorrected | web.py:54-68 | With the consistent walk D1 flips exactly B1 and C1 |

## Findings

| source | as written | input that shows it | evidently intended | confidence | as-written member | corrected member |
|---|---|---|---|---|---|---|
| bitboard.py:202 | The west flip walk continues with `tcand = mask & (cand << 1)`, stepping back east towards the placed stone, so it stops after one stone | Black on A1, white on B1 and C1, black to move, `make_move(3)` (D1): legal, yet B1 and C1 stay white | `tcand = mask & (cand >> 1)`, as every other block and `web.py:62` do, flipping B1 and C1 | high (not executed) | Findings.WestRunCut | Findings.WestRunWhole |

`Engine` models `bitboard.py` as written, west block included. `Web` uses the consistent walk, and `Findings.RunFlipped` proves that a straight flanked run is flipped whole under it.

## Left out

- The console loop and `print_board` (bitboard.py:67-83, 344-412), the winner announcement, and the debug `print` inside `is_game_over`: these are console output only.
- The Flask application, routes, session storage and template (web.py:1-5, 98-166): these are web I/O. A stored game is a copy of the three fields.
- The unused masks `MASK_FILE_AB` and `MASK_FILE_GH`.
- Engine.BitBoard.MakeMove: takes an index 0..63. The branch of `make_move` that takes an already-built mask (`bit_length() > 6`, bitboard.py:168-172) is not modelled; the console passes only indices of validated names. A negative index makes Python's `1 << idx` raise, and that is not modelled either.
- Web.BitBoard.MakeMove: requires a name of at least two characters whose second character is an ASCII digit and whose index is not negative. For other names `square_to_index` or `1 << idx` raise an exception, and exceptions are not modelled. An index of 64 or more is modelled and answers false.
- Coords.SquareToIndex: `int()` also accepts non-ASCII digits and `str.upper` also changes non-ASCII letters; only `0`-`9` and ASCII upper-casing are modelled. Both files define the same codec, and it is modelled once; `web.py`'s `divmod` is the same division as `bitboard.py`'s `//` and `%` on 0..63.
- The loops of `bitboard.py` are written out eight times in the source. In the model each direction's loop is one method (`Engine.Sweep`, `Engine.FlipLine`) called with that direction. The north and south blocks use the unguarded opponent set, which the model writes as the guard with an empty file mask.
- `bitboard.py` updates with `legal_moves |= (legal_moves | …)`. `Engine.Sweep` keeps that form; `web.py` uses `legal |= …`.
- `web.py` toggles with `flips | move_bb` and `bitboard.py` with `move_bb | total_flips`. The model uses one function, `Rules.Gained`, for both, since it is the same set.
- Termination of the `while cand` loops is proved with a step count (`Directions.Steps`). The count is defined through a measure that strictly decreases at each step, so it leaves no gap in the model.

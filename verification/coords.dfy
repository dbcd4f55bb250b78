/**
 * Square names: a file letter `A`-`H` (either case) followed by a rank
 * digit `1`-`8`. Square index = (rank - 1) * 8 + (file - 'A'), so `"A1"`
 * is 0, `"D3"` is 19 and `"H8"` is 63.
 */
module Coords {

  /** ASCII upper-casing of one character, as `str.upper` does for `a`-`z`. */
  function Upper(c: char): (u: char)
    ensures 'a' <= c <= 'z' ==> 'A' <= u <= 'Z' && u as int - 'A' as int == c as int - 'a' as int
    ensures !('a' <= c <= 'z') ==> u == c
  {
    if 'a' <= c <= 'z' then (c as int - 32) as char else c
  }

  predicate IsDigit(c: char)
  {
    '0' <= c <= '9'
  }

  /** A file letter in either case. */
  predicate IsFile(c: char)
  {
    'A' <= c <= 'H' || 'a' <= c <= 'h'
  }

  predicate IsRank(c: char)
  {
    '1' <= c <= '8'
  }

  /** Exactly a file letter and a rank digit. */
  predicate ValidSquare(s: string)
  {
    |s| == 2 && IsFile(s[0]) && IsRank(s[1])
  }

  /**
   * `square_to_index`: the column is the upper-cased first character minus
   * `'A'`, the row the second character read as a digit minus one.
   * Characters after the second are ignored and nothing checks the range:
   * the index is on the board, in the column of the letter, exactly when
   * the two characters are a file letter and a rank digit.
   */
  function SquareToIndex(s: string): (i: int)
    requires |s| >= 2 && IsDigit(s[1])
    ensures IsFile(s[0]) && IsRank(s[1]) <==> 0 <= i < 64 && i % 8 == Upper(s[0]) as int - 'A' as int
    ensures IsFile(s[0]) && IsRank(s[1]) ==> i / 8 == s[1] as int - '1' as int
  {
    var col := Upper(s[0]) as int - 'A' as int;
    var row := s[1] as int - '0' as int - 1;
    row * 8 + col
  }

  /** `index_to_square`: the file letter of `index % 8` and the rank digit of `index / 8 + 1`. */
  function IndexToSquare(index: int): (s: string)
    requires 0 <= index < 64
    ensures ValidSquare(s) && 'A' <= s[0] <= 'H'
    ensures s[0] as int - 'A' as int == index % 8 && s[1] as int - '1' as int == index / 8
  {
    var row := index / 8;
    var col := index % 8;
    [(col + 'A' as int) as char, (row + 1 + '0' as int) as char]
  }

  /** The corners and the square the opening move is played on. */
  lemma NameExamples()
    ensures IndexToSquare(0) == "A1" && IndexToSquare(7) == "H1"
    ensures IndexToSquare(19) == "D3" && IndexToSquare(63) == "H8"
    ensures SquareToIndex("d3") == 19 && SquareToIndex("A8") == 56
  {}

  /** Naming an index and reading the name back gives the index. */
  lemma IndexRoundTrip(index: int)
    requires 0 <= index < 64
    ensures SquareToIndex(IndexToSquare(index)) == index
  {}

  /** Reading a valid name and naming the index gives the name, upper-cased. */
  lemma SquareRoundTrip(s: string)
    requires ValidSquare(s)
    ensures IndexToSquare(SquareToIndex(s)) == [Upper(s[0]), s[1]]
  {}

  /** Distinct indices have distinct names. */
  lemma NamesDistinct(i: int, j: int)
    requires 0 <= i < 64 && 0 <= j < 64 && i != j
    ensures IndexToSquare(i) != IndexToSquare(j)
  {
    IndexRoundTrip(i);
    IndexRoundTrip(j);
  }
}

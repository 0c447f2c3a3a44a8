/** Conversion of algebraic square names ("e2", "H8"; FIDE Laws of Chess,
    Appendix C) into (rank, file) indices of the board array. Rank index 0 is
    the chess 8th rank and rank index 7 the 1st; file index 0 is the a-file. */
module Notation {
  import opened Ascii

  /** (rank, file), each an index into the 8x8 array. */
  type Square = (nat, nat)

  predicate OnBoard(sq: Square) { sq.0 < 8 && sq.1 < 8 }

  predicate IsFileLetter(c: char) { 'A' <= c <= 'H' || 'a' <= c <= 'h' }

  predicate IsRankDigit(c: char) { '1' <= c <= '8' }

  /** A string that starts with a square name; any further characters are ignored. */
  predicate IsSquareName(s: string) { |s| >= 2 && IsFileLetter(s[0]) && IsRankDigit(s[1]) }

  /** The strings chess_notation_to_array_notation converts without panicking:
      two characters exist, the upper-cased first one is not below 'A', and the
      second is a digit 1-8 (a lower one underflows the subtraction of '1', a
      higher one the subtraction from 7). */
  predicate Converts(s: string) {
    |s| >= 2 && ToAsciiUppercase(s[0]) >= 'A' && IsRankDigit(s[1])
  }

  /** chess_notation_to_array_notation. */
  function ChessNotationToArrayNotation(s: string): (sq: Square)
    requires Converts(s)
    ensures sq.0 <= 7
    ensures sq.0 + (s[1] as int - '1' as int) == 7
    ensures sq.1 + 'A' as int == ToAsciiUppercase(s[0]) as int
    ensures IsSquareName(s) ==> OnBoard(sq)
  {
    var file := ToAsciiUppercase(s[0]) as int - 65;
    var rank := 7 - (s[1] as int - 49);
    (rank, file)
  }

  /** Converted strings land on the board exactly when they are square names:
      a letter past H gives a file index of 8 or more. */
  lemma OnBoardExactlyForSquareNames(s: string)
    requires Converts(s)
    ensures OnBoard(ChessNotationToArrayNotation(s)) <==> IsSquareName(s)
  {
  }

  /** The canonical name of an on-board square: upper-case file letter, rank digit. */
  function SquareName(sq: Square): (s: string)
    requires OnBoard(sq)
    ensures |s| == 2 && IsAsciiUpper(s[0]) && IsSquareName(s)
  {
    [('A' as int + sq.1) as char, ('1' as int + (7 - sq.0)) as char]
  }

  /** Naming a square and converting the name back gives the square. */
  lemma SquareNameRoundTrip(sq: Square)
    requires OnBoard(sq)
    ensures ChessNotationToArrayNotation(SquareName(sq)) == sq
  {
  }

  /** Converting a square name and naming the result gives the canonical form
      of the first two characters. */
  lemma ConvertThenName(s: string)
    requires IsSquareName(s)
    ensures SquareName(ChessNotationToArrayNotation(s)) == [ToAsciiUppercase(s[0]), s[1]]
  {
  }

  /** Only the first two characters are read, and the letter's case does not matter. */
  lemma ConversionReadsTwoCharsIgnoringCase(s: string, t: string)
    requires Converts(s) && |t| >= 2
    requires ToAsciiUppercase(t[0]) == ToAsciiUppercase(s[0]) && t[1] == s[1]
    ensures Converts(t)
    ensures ChessNotationToArrayNotation(t) == ChessNotationToArrayNotation(s)
  {
  }

  /** Two square names convert to the same square exactly when they name it alike. */
  lemma ConversionInjective(s: string, t: string)
    requires IsSquareName(s) && IsSquareName(t)
    ensures ChessNotationToArrayNotation(s) == ChessNotationToArrayNotation(t) <==>
              ToAsciiUppercase(s[0]) == ToAsciiUppercase(t[0]) && s[1] == t[1]
  {
  }
}

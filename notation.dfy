/**
 * Board coordinates as the players type them: a file letter followed by a
 * rank digit. Both versions of the program read the rank digit the same way;
 * they differ in how they read the file letter (see modules Input and Grid).
 */
module Notation {

  predicate IsDigit(c: char) {
    '0' <= c <= '9'
  }

  predicate IsFileLetter(c: char) {
    'a' <= c <= 'h'
  }

  predicate IsRankDigit(c: char) {
    '1' <= c <= '8'
  }

  /** `digit.digitToInt() - 1`: rank digits '1'..'8' become the row indices 0..7. */
  function ConvertVerticalDigitToIndex(digit: char): (r: int)
    requires IsDigit(digit)
    ensures -1 <= r <= 8
    ensures 0 <= r < 8 <==> IsRankDigit(digit)
    ensures r == -1 <==> digit == '0'
    ensures r == 8 <==> digit == '9'
  {
    (digit as int - '0' as int) - 1
  }

  /** The digit a player types for a row index. */
  function RankDigit(rank: int): (c: char)
    requires 0 <= rank < 8
    ensures IsRankDigit(c)
    ensures ConvertVerticalDigitToIndex(c) == rank
  {
    ('1' as int + rank) as char
  }

  /** The letter a player types for a column index. */
  function FileLetter(file: int): (c: char)
    requires 0 <= file < 8
    ensures IsFileLetter(c)
    ensures c as int - 'a' as int == file
  {
    ('a' as int + file) as char
  }

  /** Every rank digit is the digit of the row it is read as. */
  lemma RankDigitRoundTrip(digit: char)
    requires IsRankDigit(digit)
    ensures RankDigit(ConvertVerticalDigitToIndex(digit)) == digit
  {
  }
}

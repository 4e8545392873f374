/**
 * The earlier version of the program: an 8 x 8 grid of one-letter cells,
 * "W" for a White pawn, "B" for a Black pawn and " " for an empty square,
 * updated in place, and a flag saying whose turn it is. This version knows
 * only plain advances: no captures, no en passant, no end of the game.
 */
module Grid {
  import opened Figures
  import opened Notation

  datatype CurrentTurn = FirstPlayersTurn | SecondPlayersTurn

  function Opponent(turn: CurrentTurn): CurrentTurn {
    if turn == FirstPlayersTurn then SecondPlayersTurn else FirstPlayersTurn
  }

  /** The cell rows start with: White's pawns on row 1, Black's on row 6. */
  function InitialCell(row: int): string {
    if row == 1 then "W" else if row == 6 then "B" else " "
  }

  /** Files 'a'..'g' become the column indices 0..6; every other character becomes 7. */
  function ConvertHorizontalLetterToIndex(letter: char): (r: int)
    ensures 0 <= r < 8
    ensures IsFileLetter(letter) ==> FileLetter(r) == letter
    ensures r < 7 <==> 'a' <= letter <= 'g'
  {
    match letter
    case 'a' => 0
    case 'b' => 1
    case 'c' => 2
    case 'd' => 3
    case 'e' => 4
    case 'f' => 5
    case 'g' => 6
    case _ => 7
  }

  /**
   * Reads a file letter and a rank digit into (row, column). Any letter names
   * a column; the square is on the board exactly when the digit is '1'..'8'.
   */
  function ConvertPositionToSquare(position: string): (r: Square)
    requires |position| >= 2 && IsDigit(position[1])
    ensures OnBoard(r) <==> IsRankDigit(position[1])
    ensures 0 <= r.vertical < 8
    ensures IsRankDigit(position[1]) ==> RankDigit(r.horizontal) == position[1]
    ensures IsFileLetter(position[0]) ==> FileLetter(r.vertical) == position[0]
    ensures !IsFileLetter(position[0]) ==> r.vertical == 7
  {
    Square(ConvertVerticalDigitToIndex(position[1]), ConvertHorizontalLetterToIndex(position[0]))
  }

  /** The first two characters of a move name the start square. */
  function MoveStart(move: string): Square
    requires |move| >= 4 && IsDigit(move[1])
  {
    ConvertPositionToSquare(move[..2])
  }

  /** The characters from the third on name the destination square. */
  function MoveDestination(move: string): Square
    requires |move| >= 4 && IsDigit(move[3])
  {
    ConvertPositionToSquare(move[2..])
  }

  /** The index of row `row`, column `column` when the grid is read row by row. */
  function Index(row: int, column: int): int {
    row * 8 + column
  }

  lemma IndexOf(row: int, column: int)
    requires 0 <= row < 8 && 0 <= column < 8
    ensures 0 <= Index(row, column) < 64
    ensures Index(row, column) / 8 == row && Index(row, column) % 8 == column
  {
  }

  lemma IndexOfCell(k: int)
    requires 0 <= k < 64
    ensures 0 <= k / 8 < 8 && 0 <= k % 8 < 8 && Index(k / 8, k % 8) == k
  {
  }

  /** Setting cell j to what cell i holds and cell i to what cell j held leaves the multiset of cells alone. */
  lemma {:induction false} SwapKeepsCells(cells: seq<string>, i: int, j: int)
    requires 0 <= i < |cells| && 0 <= j < |cells|
    ensures multiset(cells[j := cells[i]][i := cells[j]]) == multiset(cells)
  {
    var once := cells[j := cells[i]];
    assert multiset(once) == multiset(cells) - multiset{cells[j]} + multiset{cells[i]};
    assert once[i] == (if i == j then cells[i] else cells[i]);
    assert multiset(once[i := cells[j]]) == multiset(once) - multiset{once[i]} + multiset{cells[j]};
  }

  class ChessBoard {
    const chessboard: array2<string>
    var currentTurn: CurrentTurn

    /** The grid is 8 x 8 and every cell holds one of "W", "B" and " ". */
    ghost predicate Valid()
      reads this, chessboard
    {
      && chessboard.Length0 == 8 && chessboard.Length1 == 8
      && forall i, j :: 0 <= i < 8 && 0 <= j < 8 ==> chessboard[i, j] == "W" || chessboard[i, j] == "B" || chessboard[i, j] == " "
    }

    /** The cells row by row. */
    ghost function Cells(): seq<string>
      reads chessboard
      requires chessboard.Length0 == 8 && chessboard.Length1 == 8
    {
      seq(64, k requires 0 <= k < 64 reads chessboard => chessboard[k / 8, k % 8])
    }

    constructor ()
      ensures Valid() && fresh(chessboard)
      ensures forall i, j :: 0 <= i < 8 && 0 <= j < 8 ==> chessboard[i, j] == InitialCell(i)
      ensures currentTurn == FirstPlayersTurn
    {
      chessboard := new string[8, 8]((i, j) => InitialCell(i));
      currentTurn := FirstPlayersTurn;
    }

    predicate IsWhitePawn(square: Square)
      reads this, chessboard
      requires Valid() && OnBoard(square)
    {
      chessboard[square.horizontal, square.vertical] == "W"
    }

    predicate IsBlackPawn(square: Square)
      reads this, chessboard
      requires Valid() && OnBoard(square)
    {
      chessboard[square.horizontal, square.vertical] == "B"
    }

    /** `isWhitePawn(position: String)`: whether the named square holds a White pawn. */
    predicate IsWhitePawnAt(position: string)
      reads this, chessboard
      requires Valid() && |position| >= 2 && IsRankDigit(position[1])
    {
      IsWhitePawn(ConvertPositionToSquare(position))
    }

    /** `isBlackPawn(position: String)`: whether the named square holds a Black pawn. */
    predicate IsBlackPawnAt(position: string)
      reads this, chessboard
      requires Valid() && |position| >= 2 && IsRankDigit(position[1])
    {
      IsBlackPawn(ConvertPositionToSquare(position))
    }

    /** The checks of the grid version, in their order: occupied start, empty destination, same file, own colour, distance. */
    predicate IsCorrectMove(start: Square, destination: Square)
      reads this, chessboard
      requires Valid() && OnBoard(start) && OnBoard(destination)
    {
      if chessboard[start.horizontal, start.vertical] == " " then false
      else if chessboard[destination.horizontal, destination.vertical] != " " then false
      else if start.vertical != destination.vertical then false
      else if currentTurn == FirstPlayersTurn then
        if chessboard[start.horizontal, start.vertical] == "B" then false
        else if start.horizontal - destination.horizontal != -1 then
          if start.horizontal - destination.horizontal != -2 then false
          else if start.horizontal != 1 then false
          else chessboard[start.horizontal + 1, start.vertical] == " "
        else true
      else
        if chessboard[start.horizontal, start.vertical] == "W" then false
        else if start.horizontal - destination.horizontal != 1 then
          if start.horizontal - destination.horizontal != 2 then false
          else if start.horizontal != 6 then false
          else chessboard[start.horizontal - 1, start.vertical] == " "
        else true
    }

    /**
     * The rules a move obeys: the side to move moves its own pawn, straight
     * ahead onto an empty square, one row, or two rows from its starting row
     * over an empty square.
     */
    lemma MoveRules(start: Square, destination: Square)
      requires Valid() && OnBoard(start) && OnBoard(destination)
      ensures IsCorrectMove(start, destination) <==>
        && chessboard[destination.horizontal, destination.vertical] == " "
        && start.vertical == destination.vertical
        && (currentTurn == FirstPlayersTurn ==>
              && IsWhitePawn(start)
              && (|| destination.horizontal == start.horizontal + 1
                  || (start.horizontal == 1 && destination.horizontal == 3 && chessboard[2, start.vertical] == " ")))
        && (currentTurn == SecondPlayersTurn ==>
              && IsBlackPawn(start)
              && (|| destination.horizontal == start.horizontal - 1
                  || (start.horizontal == 6 && destination.horizontal == 4 && chessboard[5, start.vertical] == " ")))
    {
      var cell := chessboard[start.horizontal, start.vertical];
      assert cell == "W" || cell == "B" || cell == " ";
    }

    /**
     * Moves the pawn when the move is correct: the destination cell takes the
     * start cell's letter, the start cell becomes empty and the turn passes.
     * A rejected move changes nothing.
     */
    method MakeMove(move: string) returns (r: bool)
      requires Valid() && |move| >= 4 && IsRankDigit(move[1]) && IsRankDigit(move[3])
      modifies this, chessboard
      ensures Valid()
      ensures r == old(IsCorrectMove(MoveStart(move), MoveDestination(move)))
      ensures var start, destination := MoveStart(move), MoveDestination(move);
        r ==> && chessboard[destination.horizontal, destination.vertical] == old(chessboard[start.horizontal, start.vertical])
              && chessboard[start.horizontal, start.vertical] == " "
              && (forall i, j :: 0 <= i < 8 && 0 <= j < 8 && Square(i, j) != start && Square(i, j) != destination ==>
                    chessboard[i, j] == old(chessboard[i, j]))
              && currentTurn == Opponent(old(currentTurn))
      ensures !r ==> && (forall i, j :: 0 <= i < 8 && 0 <= j < 8 ==> chessboard[i, j] == old(chessboard[i, j]))
                     && currentTurn == old(currentTurn)
      ensures multiset(Cells()) == multiset(old(Cells()))
    {
      var start := ConvertPositionToSquare(move[..2]);
      var destination := ConvertPositionToSquare(move[2..]);
      if IsCorrectMove(start, destination) {
        MovePawn(start, destination);
        currentTurn := if currentTurn == FirstPlayersTurn then SecondPlayersTurn else FirstPlayersTurn;
        return true;
      } else {
        return false;
      }
    }

    /** The two cell writes of an accepted move; the letters on the board are only moved about. */
    method MovePawn(start: Square, destination: Square)
      requires Valid() && OnBoard(start) && OnBoard(destination)
      requires chessboard[destination.horizontal, destination.vertical] == " "
      modifies chessboard
      ensures Valid()
      ensures chessboard[destination.horizontal, destination.vertical] == old(chessboard[start.horizontal, start.vertical])
      ensures chessboard[start.horizontal, start.vertical] == " "
      ensures forall i, j :: 0 <= i < 8 && 0 <= j < 8 && Square(i, j) != start && Square(i, j) != destination ==>
        chessboard[i, j] == old(chessboard[i, j])
      ensures multiset(Cells()) == multiset(old(Cells()))
    {
      ghost var before := Cells();
      ghost var i, j := Index(start.horizontal, start.vertical), Index(destination.horizontal, destination.vertical);
      IndexOf(start.horizontal, start.vertical);
      IndexOf(destination.horizontal, destination.vertical);
      assert before[j] == " ";
      chessboard[destination.horizontal, destination.vertical] := chessboard[start.horizontal, start.vertical];
      chessboard[start.horizontal, start.vertical] := " ";
      forall k | 0 <= k < 64
        ensures Cells()[k] == before[j := before[i]][i := before[j]][k]
      {
        IndexOfCell(k);
        var row, column := k / 8, k % 8;
        if k != i && k != j {
          assert Square(row, column) != start && Square(row, column) != destination;
        }
      }
      assert Cells() == before[j := before[i]][i := before[j]];
      SwapKeepsCells(before, i, j);
    }
  }
}

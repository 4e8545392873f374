/**
 * The rules engine as the object it is: a board whose state flag and pawn
 * lists `makeTurn` and `undoTurn` update in place, and whose history of
 * snapshots belongs to this board (one game session).
 *
 * Each method does what the engine does, step by step, and is proved to
 * agree with the pure functions of module Turns, about which the
 * properties of a turn are proved.
 */
module Model {
  import opened Figures
  import opened Rules
  import opened Turns

  class ChessBoard {
    var gameState: GameState
    var whiteFigures: seq<Square>
    var blackFigures: seq<Square>
    /** One snapshot per accepted move, taken before the move. */
    var previousTurns: seq<Board>

    /** The value a deep copy of this board has. */
    function Snapshot(): Board
      reads this
    {
      Board(gameState, whiteFigures, blackFigures)
    }

    function Session(): Game
      reads this
    {
      Game(Snapshot(), previousTurns)
    }

    ghost predicate Valid()
      reads this
    {
      GameInvariant(Session())
    }

    /** The starting position: eight pawns on rank 1 and on rank 6, White to move, no history. */
    constructor ()
      ensures Valid() && Session() == InitialGame
    {
      gameState := FirstPlayersTurn;
      whiteFigures := InitialWhite;
      blackFigures := InitialBlack;
      previousTurns := [];
      new;
      assert Session() == InitialGame;
      InitialGameInvariant();
    }

    method MakeTurn(start: Square, destination: Square)
      requires Valid()
      modifies this
      ensures Valid()
      ensures Session() == TurnResult(old(Session()), start, destination)
    {
      ghost var before := Session();
      match gameState {
        case FirstPlayersTurn =>
          var isCorrectMove := IsCorrectMove(Snapshot(), start, destination);
          var isCorrectCapture := IsCorrectCapture(Snapshot(), start, destination);
          var isCorrectEnPassant := IsCorrectEnPassant(Snapshot(), previousTurns, start, destination);
          if IsBlankSquare(Snapshot(), start) || IsBlackFigure(Snapshot(), start) {
            gameState := NoWhiteFigureAtSquare;
          } else if isCorrectMove || isCorrectCapture || isCorrectEnPassant {
            AcceptedIsAdvance(before, start, destination);
            MoveWhiteFigure(start, destination, isCorrectCapture, isCorrectEnPassant);
          } else {
            gameState := InvalidInput;
          }
        case SecondPlayersTurn =>
          var isCorrectMove := IsCorrectMove(Snapshot(), start, destination);
          var isCorrectCapture := IsCorrectCapture(Snapshot(), start, destination);
          var isCorrectEnPassant := IsCorrectEnPassant(Snapshot(), previousTurns, start, destination);
          if IsBlankSquare(Snapshot(), start) || IsWhiteFigure(Snapshot(), start) {
            gameState := NoBlackFigureAtSquare;
          } else if isCorrectMove || isCorrectCapture || isCorrectEnPassant {
            AcceptedIsAdvance(before, start, destination);
            MoveBlackFigure(start, destination, isCorrectCapture, isCorrectEnPassant);
          } else {
            gameState := InvalidInput;
          }
        case FirstPlayerWins =>
          gameState := EndGame;
        case SecondPlayerWins =>
          gameState := EndGame;
        case Stalemate =>
          gameState := EndGame;
        case _ =>
      }
      assert Session() == TurnResult(before, start, destination);
      TurnPreservesInvariant(before, start, destination);
    }

    /**
     * White's accepted move, as the first branch of `makeTurn` performs it:
     * snapshot, remove the captured Black pawn, move the White pawn, hand the
     * turn to Black, then test for stalemate and, last, for White's win.
     */
    method MoveWhiteFigure(start: Square, destination: Square, isCorrectCapture: bool, isCorrectEnPassant: bool)
      requires gameState == FirstPlayersTurn && LookBackDefined(Snapshot(), previousTurns)
      requires isCorrectCapture == IsCorrectCapture(Snapshot(), start, destination)
      requires isCorrectEnPassant == IsCorrectEnPassant(Snapshot(), previousTurns, start, destination)
      modifies this
      ensures Session() == Advance(old(Session()), start, destination)
    {
      ghost var before := Session();
      var snapshot := Clone();
      previousTurns := previousTurns + [snapshot];
      assert previousTurns == before.previousTurns + [before.board];
      if isCorrectEnPassant {
        var capturedFigure := Square(destination.horizontal - 1, destination.vertical);
        blackFigures := RemoveIf(blackFigures, capturedFigure);
      }
      if isCorrectCapture {
        blackFigures := RemoveIf(blackFigures, destination);
      }
      whiteFigures := Relocate(whiteFigures, start, destination);
      gameState := SecondPlayersTurn;
      assert Snapshot() == Moved(before, start, destination);
      HistoryLooksBack(Snapshot(), previousTurns);
      var isStalemate := IsStalemate();
      if isStalemate {
        gameState := Stalemate;
      }
      var isWhiteWins := IsWhiteWins();
      if isWhiteWins {
        gameState := FirstPlayerWins;
      }
    }

    /** Black's accepted move, the mirror image of `MoveWhiteFigure`. */
    method MoveBlackFigure(start: Square, destination: Square, isCorrectCapture: bool, isCorrectEnPassant: bool)
      requires gameState == SecondPlayersTurn && LookBackDefined(Snapshot(), previousTurns)
      requires isCorrectCapture == IsCorrectCapture(Snapshot(), start, destination)
      requires isCorrectEnPassant == IsCorrectEnPassant(Snapshot(), previousTurns, start, destination)
      modifies this
      ensures Session() == Advance(old(Session()), start, destination)
    {
      ghost var before := Session();
      var snapshot := Clone();
      previousTurns := previousTurns + [snapshot];
      assert previousTurns == before.previousTurns + [before.board];
      if isCorrectEnPassant {
        var capturedFigure := Square(destination.horizontal + 1, destination.vertical);
        whiteFigures := RemoveIf(whiteFigures, capturedFigure);
      }
      if isCorrectCapture {
        whiteFigures := RemoveIf(whiteFigures, destination);
      }
      blackFigures := Relocate(blackFigures, start, destination);
      gameState := FirstPlayersTurn;
      assert Snapshot() == Moved(before, start, destination);
      HistoryLooksBack(Snapshot(), previousTurns);
      var isStalemate := IsStalemate();
      if isStalemate {
        gameState := Stalemate;
      }
      var isBlackWins := IsBlackWins();
      if isBlackWins {
        gameState := SecondPlayerWins;
      }
    }

    method UndoTurn()
      requires Valid()
      modifies this
      ensures Valid()
      ensures Session() == UndoResult(old(Session()))
    {
      ghost var before := Session();
      UndoPreservesInvariant(before);
      match gameState
      case InvalidInput =>
        if previousTurns == [] || previousTurns[|previousTurns| - 1].gameState == SecondPlayersTurn {
          gameState := FirstPlayersTurn;
        } else if previousTurns[|previousTurns| - 1].gameState == FirstPlayersTurn {
          gameState := SecondPlayersTurn;
        }
      case NoWhiteFigureAtSquare =>
        gameState := FirstPlayersTurn;
      case NoBlackFigureAtSquare =>
        gameState := SecondPlayersTurn;
      case _ =>
    }

    /** Scans the pawns of the side to move and stops at the first one with a probed option. */
    method IsStalemate() returns (r: bool)
      requires LookBackDefined(Snapshot(), previousTurns)
      ensures r == Stalemated(Snapshot(), previousTurns)
    {
      var board := Snapshot();
      if gameState == FirstPlayersTurn {
        var i := 0;
        while i < |whiteFigures|
          invariant 0 <= i <= |whiteFigures|
          invariant forall k :: 0 <= k < i ==> !WhiteHasOption(board, previousTurns, board.whiteFigures[k])
        {
          var start := whiteFigures[i];
          if IsCorrectMove(board, start, Square(start.horizontal + 1, start.vertical))
            || IsCorrectMove(board, start, Square(start.horizontal + 2, start.vertical))
          {
            assert WhiteHasOption(board, previousTurns, board.whiteFigures[i]);
            return false;
          }
          var destinationEnPassant := Square(start.horizontal + 1, start.vertical - 1);
          if start.vertical != 0
            && (IsCorrectCapture(board, start, destinationEnPassant)
                || IsCorrectEnPassant(board, previousTurns, start, destinationEnPassant))
          {
            assert WhiteHasOption(board, previousTurns, board.whiteFigures[i]);
            return false;
          }
          if start.vertical != 7
            && IsCorrectCapture(board, start, Square(start.horizontal + 1, start.vertical + 1))
          {
            assert WhiteHasOption(board, previousTurns, board.whiteFigures[i]);
            return false;
          }
          assert !WhiteHasOption(board, previousTurns, start);
          i := i + 1;
        }
      } else if gameState == SecondPlayersTurn {
        var i := 0;
        while i < |blackFigures|
          invariant 0 <= i <= |blackFigures|
          invariant forall k :: 0 <= k < i ==> !BlackHasOption(board, previousTurns, board.blackFigures[k])
        {
          var start := blackFigures[i];
          if IsCorrectMove(board, start, Square(start.horizontal - 1, start.vertical))
            || IsCorrectMove(board, start, Square(start.horizontal - 2, start.vertical))
          {
            assert BlackHasOption(board, previousTurns, board.blackFigures[i]);
            return false;
          }
          if start.vertical != 0
            && IsCorrectCapture(board, start, Square(start.horizontal - 1, start.vertical - 1))
          {
            assert BlackHasOption(board, previousTurns, board.blackFigures[i]);
            return false;
          }
          var destinationEnPassant := Square(start.horizontal - 1, start.vertical + 1);
          if start.vertical != 7
            && (IsCorrectCapture(board, start, destinationEnPassant)
                || IsCorrectEnPassant(board, previousTurns, start, destinationEnPassant))
          {
            assert BlackHasOption(board, previousTurns, board.blackFigures[i]);
            return false;
          }
          assert !BlackHasOption(board, previousTurns, start);
          i := i + 1;
        }
      }
      return true;
    }

    /** Looks along rank 7 for a White pawn, then checks whether Black has any pawn left. */
    method IsWhiteWins() returns (r: bool)
      ensures r == WhiteWon(Snapshot())
    {
      for i := 0 to 8
        invariant forall k :: 0 <= k < i ==> !IsWhiteFigure(Snapshot(), Square(7, k))
      {
        if IsWhiteFigure(Snapshot(), Square(7, i)) {
          return true;
        }
      }
      if blackFigures == [] {
        return true;
      }
      return false;
    }

    /** Looks along rank 0 for a Black pawn, then checks whether White has any pawn left. */
    method IsBlackWins() returns (r: bool)
      ensures r == BlackWon(Snapshot())
    {
      for i := 0 to 8
        invariant forall k :: 0 <= k < i ==> !IsBlackFigure(Snapshot(), Square(0, k))
      {
        if IsBlackFigure(Snapshot(), Square(0, i)) {
          return true;
        }
      }
      if whiteFigures == [] {
        return true;
      }
      return false;
    }

    /** A deep copy: the state flag and fresh lists holding a copy of every pawn. */
    method Clone() returns (cloned: Board)
      ensures cloned == Snapshot()
    {
      var clonedWhite: seq<Square> := [];
      for i := 0 to |whiteFigures|
        invariant clonedWhite == whiteFigures[..i]
      {
        clonedWhite := clonedWhite + [whiteFigures[i]];
      }
      var clonedBlack: seq<Square> := [];
      for i := 0 to |blackFigures|
        invariant clonedBlack == blackFigures[..i]
      {
        clonedBlack := clonedBlack + [blackFigures[i]];
      }
      assert whiteFigures[..|whiteFigures|] == whiteFigures;
      assert blackFigures[..|blackFigures|] == blackFigures;
      cloned := Board(gameState, clonedWhite, clonedBlack);
    }
  }
}

/**
 * The outcomes of concrete games, stated through the turn functions: the opening double step,
 * rejected moves undone, en passant (including the cases where the engine's
 * look-back differs from the rules of chess), stalemate, and a win that
 * overrides stalemate.
 */
module Scenarios {
  import opened Figures
  import opened Rules
  import opened Turns

  /** Off ranks 1 and 6 the starting position is empty. */
  lemma InitiallyBlank(square: Square)
    requires square.horizontal != 1 && square.horizontal != 6
    ensures IsBlankSquare(InitialBoard, square)
  {
  }

  /** Rank 1 holds White's pawns at the start. */
  lemma InitiallyWhite(file: int)
    requires 0 <= file < 8
    ensures IsWhiteFigure(InitialBoard, Square(1, file)) && !IsBlackFigure(InitialBoard, Square(1, file))
  {
    assert InitialWhite[file] == Square(1, file);
  }

  /** e2-e4 from the starting position: the pawn moves two ranks and Black is to move. */
  lemma OpeningDoubleStep()
    ensures TurnResult(InitialGame, Square(1, 4), Square(3, 4))
         == Game(Board(SecondPlayersTurn, AfterE4, InitialBlack), [InitialBoard])
  {
    OpeningDoubleStepIsLegal();
    OpeningDoubleStepAdvances();
  }

  lemma OpeningDoubleStepAdvances()
    ensures Advance(InitialGame, Square(1, 4), Square(3, 4))
         == Game(Board(SecondPlayersTurn, AfterE4, InitialBlack), [InitialBoard])
  {
    OpeningDoubleStepMoves();
    OpeningDoubleStepContinues();
  }

  /** White's pawns after e2-e4. */
  const AfterE4: seq<Square> := [
    Square(1, 0), Square(1, 1), Square(1, 2), Square(1, 3),
    Square(3, 4), Square(1, 5), Square(1, 6), Square(1, 7)]

  lemma OpeningDoubleStepIsLegal()
    ensures !IsBlankSquare(InitialBoard, Square(1, 4)) && !IsBlackFigure(InitialBoard, Square(1, 4))
    ensures IsLegal(InitialBoard, [], Square(1, 4), Square(3, 4))
  {
    InitiallyWhite(4);
    InitiallyBlank(Square(2, 4));
    InitiallyBlank(Square(3, 4));
    assert IsCorrectMove(InitialBoard, Square(1, 4), Square(3, 4));
  }

  lemma OpeningDoubleStepMoves()
    ensures Moved(InitialGame, Square(1, 4), Square(3, 4)) == Board(SecondPlayersTurn, AfterE4, InitialBlack)
  {
    InitiallyBlank(Square(3, 4));
    assert !IsCorrectCapture(InitialBoard, Square(1, 4), Square(3, 4));
    assert !IsCorrectEnPassant(InitialBoard, [], Square(1, 4), Square(3, 4));
    assert AfterE4 == InitialWhite[4 := Square(3, 4)];
    RelocateFirst(InitialWhite, 4, Square(1, 4), Square(3, 4));
  }

  lemma OpeningDoubleStepContinues()
    ensures var moved := Board(SecondPlayersTurn, AfterE4, InitialBlack);
      !Stalemated(moved, [InitialBoard]) && !WhiteWon(moved)
  {
    var moved := Board(SecondPlayersTurn, AfterE4, InitialBlack);
    assert IsCorrectMove(moved, Square(6, 0), Square(5, 0));
    assert BlackHasOption(moved, [InitialBoard], Square(6, 0));
    assert moved.blackFigures[0] == Square(6, 0);
  }

  /** e2-e5 is rejected as invalid input, and undoing it gives White the move again, with nothing else changed. */
  lemma TooLongAdvanceIsUndone()
    ensures TurnResult(InitialGame, Square(1, 4), Square(4, 4)) == WithState(InitialGame, InvalidInput)
    ensures UndoResult(TurnResult(InitialGame, Square(1, 4), Square(4, 4))) == InitialGame
  {
    InitiallyWhite(4);
    InitiallyBlank(Square(4, 4));
    assert !IsLegal(InitialBoard, [], Square(1, 4), Square(4, 4));
    var r := TurnResult(InitialGame, Square(1, 4), Square(4, 4));
    assert r == WithState(InitialGame, InvalidInput);
    assert UndoResult(r) == WithState(r, FirstPlayersTurn);
  }

  /** Moving from an empty square is rejected, and undoing the rejection restores the game. */
  lemma EmptyStartIsUndone()
    ensures TurnResult(InitialGame, Square(3, 3), Square(4, 3)) == WithState(InitialGame, NoWhiteFigureAtSquare)
    ensures UndoResult(TurnResult(InitialGame, Square(3, 3), Square(4, 3))) == InitialGame
  {
    InitiallyBlank(Square(3, 3));
  }

  /** Black cannot move a White pawn: the start is not Black's. */
  lemma OpponentsPawnIsRejected()
    ensures TurnResult(Game(InitialBoard.(gameState := SecondPlayersTurn), [InitialBoard]), Square(1, 0), Square(2, 0)).board.gameState
         == NoBlackFigureAtSquare
  {
  }

  /**
   * White's pawn on e5, Black's pawn just arrived on d5 from d7: White takes
   * en passant on d6 and the Black pawn on d5 disappears.
   */
  lemma EnPassantAfterDoubleStep()
    ensures
      var before := Board(SecondPlayersTurn, [Square(4, 4)], [Square(6, 3), Square(6, 0)]);
      var g := Game(Board(FirstPlayersTurn, [Square(4, 4)], [Square(4, 3), Square(6, 0)]), [before]);
      TurnResult(g, Square(4, 4), Square(5, 3))
        == Game(Board(SecondPlayersTurn, [Square(5, 3)], [Square(6, 0)]), [before, g.board])
  {
    var before := Board(SecondPlayersTurn, [Square(4, 4)], [Square(6, 3), Square(6, 0)]);
    var g := Game(Board(FirstPlayersTurn, [Square(4, 4)], [Square(4, 3), Square(6, 0)]), [before]);
    assert IsCorrectEnPassant(g.board, g.previousTurns, Square(4, 4), Square(5, 3));
    var moved := Board(SecondPlayersTurn, [Square(5, 3)], [Square(6, 0)]);
    assert Moved(g, Square(4, 4), Square(5, 3)) == moved;
    assert BlackHasOption(moved, [before, g.board], Square(6, 0));
    assert !Stalemated(moved, [before, g.board]);
  }

  /**
   * The look-back only asks whether the captured pawn's square was empty one
   * ply ago, so a Black pawn that came from d6 to d5 in one step can be taken
   * en passant too, which the rules of chess do not allow.
   */
  lemma EnPassantAfterSingleStep()
    ensures
      var before := Board(SecondPlayersTurn, [Square(4, 4)], [Square(5, 3)]);
      var g := Game(Board(FirstPlayersTurn, [Square(4, 4)], [Square(4, 3)]), [before]);
      IsCorrectEnPassant(g.board, g.previousTurns, Square(4, 4), Square(5, 3))
  {
  }

  /**
   * En passant looks only toward the lower file for White: a Black pawn that
   * just arrived on f5 next to White's e5 cannot be taken on f6.
   */
  lemma EnPassantIsOneSided()
    ensures
      var before := Board(SecondPlayersTurn, [Square(4, 4)], [Square(6, 5)]);
      var g := Game(Board(FirstPlayersTurn, [Square(4, 4)], [Square(4, 5)]), [before]);
      TurnResult(g, Square(4, 4), Square(5, 5)) == WithState(g, InvalidInput)
  {
  }

  /**
   * White's a4-a5 blocks Black's last pawn on a6, and White's h2 pawn gives
   * Black nothing to capture: Black is stalemated.
   */
  lemma BlockedPawnIsStalemate()
    ensures
      var before := Board(SecondPlayersTurn, [Square(3, 0), Square(1, 7)], [Square(6, 0)]);
      var g := Game(Board(FirstPlayersTurn, [Square(3, 0), Square(1, 7)], [Square(5, 0)]), [before]);
      TurnResult(g, Square(3, 0), Square(4, 0))
        == Game(Board(Stalemate, [Square(4, 0), Square(1, 7)], [Square(5, 0)]), [before, g.board])
  {
    var before := Board(SecondPlayersTurn, [Square(3, 0), Square(1, 7)], [Square(6, 0)]);
    var g := Game(Board(FirstPlayersTurn, [Square(3, 0), Square(1, 7)], [Square(5, 0)]), [before]);
    assert IsCorrectMove(g.board, Square(3, 0), Square(4, 0));
    AcceptedIsAdvance(g, Square(3, 0), Square(4, 0));
    BlockedPawnAdvance(before, g);
  }

  lemma BlockedPawnAdvance(before: Board, g: Game)
    requires before == Board(SecondPlayersTurn, [Square(3, 0), Square(1, 7)], [Square(6, 0)])
    requires g == Game(Board(FirstPlayersTurn, [Square(3, 0), Square(1, 7)], [Square(5, 0)]), [before])
    ensures Advance(g, Square(3, 0), Square(4, 0))
         == Game(Board(Stalemate, [Square(4, 0), Square(1, 7)], [Square(5, 0)]), [before, g.board])
  {
    var moved := Board(SecondPlayersTurn, [Square(4, 0), Square(1, 7)], [Square(5, 0)]);
    BlockedPawnHasNoOption(before, g);
    assert !WhiteWon(moved);
  }

  lemma BlockedPawnHasNoOption(before: Board, g: Game)
    requires before == Board(SecondPlayersTurn, [Square(3, 0), Square(1, 7)], [Square(6, 0)])
    requires g == Game(Board(FirstPlayersTurn, [Square(3, 0), Square(1, 7)], [Square(5, 0)]), [before])
    ensures Moved(g, Square(3, 0), Square(4, 0)) == Board(SecondPlayersTurn, [Square(4, 0), Square(1, 7)], [Square(5, 0)])
    ensures Stalemated(Moved(g, Square(3, 0), Square(4, 0)), [before, g.board])
  {
    var moved := Board(SecondPlayersTurn, [Square(4, 0), Square(1, 7)], [Square(5, 0)]);
    assert Moved(g, Square(3, 0), Square(4, 0)) == moved;
    assert !BlackHasOption(moved, [before, g.board], Square(5, 0));
  }

  /**
   * Capturing Black's last pawn leaves Black without a move, but the win
   * test runs last: the state is White's win, not stalemate.
   */
  lemma WinOverridesStalemate()
    ensures
      var before := Board(SecondPlayersTurn, [Square(4, 0)], [Square(6, 1)]);
      var g := Game(Board(FirstPlayersTurn, [Square(4, 0)], [Square(5, 1)]), [before]);
      var r := TurnResult(g, Square(4, 0), Square(5, 1));
      && Stalemated(Moved(g, Square(4, 0), Square(5, 1)), g.previousTurns + [g.board])
      && r == Game(Board(FirstPlayerWins, [Square(5, 1)], []), [before, g.board])
  {
    var before := Board(SecondPlayersTurn, [Square(4, 0)], [Square(6, 1)]);
    var g := Game(Board(FirstPlayersTurn, [Square(4, 0)], [Square(5, 1)]), [before]);
    assert Moved(g, Square(4, 0), Square(5, 1)) == Board(SecondPlayersTurn, [Square(5, 1)], []);
  }

  /**
   * The win also overrides stalemate while the opponent still has pawns:
   * Black's a6 pawn, just arrived from a7, is blocked by White's a5 pawn,
   * and White's c7-c8 reaches the far rank. Testing stalemate last would
   * give `Stalemate`.
   */
  lemma FarRankOverridesStalemate()
    ensures
      var before := Board(SecondPlayersTurn, [Square(4, 0), Square(6, 2)], [Square(6, 0)]);
      var g := Game(Board(FirstPlayersTurn, [Square(4, 0), Square(6, 2)], [Square(5, 0)]), [before]);
      var moved := Moved(g, Square(6, 2), Square(7, 2));
      && moved.blackFigures != []
      && Stalemated(moved, g.previousTurns + [g.board])
      && TurnResult(g, Square(6, 2), Square(7, 2)).board.gameState == FirstPlayerWins
  {
    var before := Board(SecondPlayersTurn, [Square(4, 0), Square(6, 2)], [Square(6, 0)]);
    var g := Game(Board(FirstPlayersTurn, [Square(4, 0), Square(6, 2)], [Square(5, 0)]), [before]);
    var moved := Board(SecondPlayersTurn, [Square(4, 0), Square(7, 2)], [Square(5, 0)]);
    assert IsCorrectMove(g.board, Square(6, 2), Square(7, 2));
    assert Moved(g, Square(6, 2), Square(7, 2)) == moved;
    assert !BlackHasOption(moved, [before, g.board], Square(5, 0));
    assert IsWhiteFigure(moved, Square(7, 2));
  }

  /** A White pawn reaching the last rank wins. */
  lemma LastRankWins()
    ensures
      var before := Board(SecondPlayersTurn, [Square(6, 2)], [Square(6, 5)]);
      var g := Game(Board(FirstPlayersTurn, [Square(6, 2)], [Square(5, 5)]), [before]);
      TurnResult(g, Square(6, 2), Square(7, 2)).board.gameState == FirstPlayerWins
  {
    var before := Board(SecondPlayersTurn, [Square(6, 2)], [Square(6, 5)]);
    var g := Game(Board(FirstPlayersTurn, [Square(6, 2)], [Square(5, 5)]), [before]);
    assert Moved(g, Square(6, 2), Square(7, 2)) == Board(SecondPlayersTurn, [Square(7, 2)], [Square(5, 5)]);
    assert IsWhiteFigure(Moved(g, Square(6, 2), Square(7, 2)), Square(7, 2));
  }
}

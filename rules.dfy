/**
 * The move validator of the pawns-only rules engine: occupancy queries, the
 * three kinds of move (plain advance, diagonal capture, en passant) and the
 * win and stalemate tests, all as predicates over a board value.
 *
 * Every predicate reads whose turn it is from the board's own state flag,
 * as the engine does; in a state that is not a live turn the plain-move test
 * only looks at the destination and the file, and the other tests are false.
 */
module Rules {
  import opened Figures

  /** Whose turn it is and, at the same time, the outcome of the last action. */
  datatype GameState =
    | FirstPlayersTurn
    | SecondPlayersTurn
    | InvalidInput
    | NoWhiteFigureAtSquare
    | NoBlackFigureAtSquare
    | FirstPlayerWins
    | SecondPlayerWins
    | Stalemate
    | EndGame

  predicate IsLive(state: GameState) {
    state == FirstPlayersTurn || state == SecondPlayersTurn
  }

  /** The state flag together with both lists of pawns: what a snapshot copies. */
  datatype Board = Board(gameState: GameState, whiteFigures: seq<Square>, blackFigures: seq<Square>)

  const InitialWhite: seq<Square> := [
    Square(1, 0), Square(1, 1), Square(1, 2), Square(1, 3),
    Square(1, 4), Square(1, 5), Square(1, 6), Square(1, 7)]

  const InitialBlack: seq<Square> := [
    Square(6, 0), Square(6, 1), Square(6, 2), Square(6, 3),
    Square(6, 4), Square(6, 5), Square(6, 6), Square(6, 7)]

  const InitialBoard: Board := Board(FirstPlayersTurn, InitialWhite, InitialBlack)

  predicate IsWhiteFigure(b: Board, square: Square) {
    square in b.whiteFigures
  }

  predicate IsBlackFigure(b: Board, square: Square) {
    square in b.blackFigures
  }

  /** No pawn stands on `square`; in particular every square off the board is blank. */
  predicate IsBlankSquare(b: Board, square: Square) {
    !IsWhiteFigure(b, square) && !IsBlackFigure(b, square)
  }

  /**
   * What makes `previousTurns.last()` safe: with no history yet the pawns
   * are still where they started, so no pawn stands next to an enemy pawn on
   * the en-passant rank and the look-back is never reached.
   */
  predicate LookBackDefined(b: Board, previousTurns: seq<Board>) {
    previousTurns == [] ==> b.whiteFigures == InitialWhite && b.blackFigures == InitialBlack
  }

  /**
   * The look-back is always defined once a snapshot exists: with a
   * non-empty history the implication in `LookBackDefined` holds vacuously.
   * A proof step for callers that have just appended a snapshot.
   */
  lemma HistoryLooksBack(b: Board, previousTurns: seq<Board>)
    requires |previousTurns| > 0
    ensures LookBackDefined(b, previousTurns)
  {
  }

  /** A plain advance: one rank forward, or two from the pawn's starting rank over a blank square. */
  predicate IsCorrectMove(b: Board, start: Square, destination: Square) {
    if !IsBlankSquare(b, destination) then false
    else if start.vertical != destination.vertical then false
    else
      var horizontalMoving := start.horizontal - destination.horizontal;
      if b.gameState == FirstPlayersTurn then
        !(horizontalMoving != -1
          && (horizontalMoving != -2 || start.horizontal != 1
              || !IsBlankSquare(b, Square(start.horizontal + 1, start.vertical))))
      else if b.gameState == SecondPlayersTurn then
        !(horizontalMoving != 1
          && (horizontalMoving != 2 || start.horizontal != 6
              || !IsBlankSquare(b, Square(start.horizontal - 1, start.vertical))))
      else true
  }

  function Abs(x: int): int {
    if x < 0 then -x else x
  }

  /** A diagonal capture of an enemy pawn one rank forward. */
  predicate IsCorrectCapture(b: Board, start: Square, destination: Square) {
    if b.gameState == FirstPlayersTurn then
      if IsBlankSquare(b, destination) || IsWhiteFigure(b, destination) then false
      else start.horizontal - destination.horizontal == -1
           && Abs(start.vertical - destination.vertical) == 1
    else if b.gameState == SecondPlayersTurn then
      if IsBlankSquare(b, destination) || IsBlackFigure(b, destination) then false
      else start.horizontal - destination.horizontal == 1
           && Abs(start.vertical - destination.vertical) == 1
    else false
  }

  /**
   * En passant, with the look-back at the last snapshot: the captured pawn's
   * square must have been blank before the opponent's last move.
   */
  predicate IsCorrectEnPassant(b: Board, previousTurns: seq<Board>, start: Square, destination: Square)
    requires LookBackDefined(b, previousTurns)
  {
    if !IsBlankSquare(b, destination) then false
    else if b.gameState == FirstPlayersTurn then
      start.horizontal == 4
      && start.vertical != 0 && IsBlackFigure(b, Square(start.horizontal, start.vertical - 1))
      && start.horizontal - destination.horizontal == -1 && start.vertical - destination.vertical == 1
      && destination.horizontal != 0
      && IsBlankSquare(previousTurns[|previousTurns| - 1],
                       Square(destination.horizontal - 1, destination.vertical))
    else if b.gameState == SecondPlayersTurn then
      start.horizontal == 3
      && start.vertical != 7 && IsWhiteFigure(b, Square(start.horizontal, start.vertical + 1))
      && start.horizontal - destination.horizontal == 1 && start.vertical - destination.vertical == -1
      && destination.horizontal != 7
      && IsBlankSquare(previousTurns[|previousTurns| - 1],
                       Square(destination.horizontal + 1, destination.vertical))
    else false
  }

  /** Any of the three kinds of move. */
  predicate IsLegal(b: Board, previousTurns: seq<Board>, start: Square, destination: Square)
    requires LookBackDefined(b, previousTurns)
  {
    IsCorrectMove(b, start, destination)
    || IsCorrectCapture(b, start, destination)
    || IsCorrectEnPassant(b, previousTurns, start, destination)
  }

  /** The moves the stalemate test probes for a White pawn on `start`. */
  predicate WhiteHasOption(b: Board, previousTurns: seq<Board>, start: Square)
    requires LookBackDefined(b, previousTurns)
  {
    var destinationEnPassant := Square(start.horizontal + 1, start.vertical - 1);
    IsCorrectMove(b, start, Square(start.horizontal + 1, start.vertical))
    || IsCorrectMove(b, start, Square(start.horizontal + 2, start.vertical))
    || (start.vertical != 0
        && (IsCorrectCapture(b, start, destinationEnPassant)
            || IsCorrectEnPassant(b, previousTurns, start, destinationEnPassant)))
    || (start.vertical != 7
        && IsCorrectCapture(b, start, Square(start.horizontal + 1, start.vertical + 1)))
  }

  /** The moves the stalemate test probes for a Black pawn on `start`. */
  predicate BlackHasOption(b: Board, previousTurns: seq<Board>, start: Square)
    requires LookBackDefined(b, previousTurns)
  {
    var destinationEnPassant := Square(start.horizontal - 1, start.vertical + 1);
    IsCorrectMove(b, start, Square(start.horizontal - 1, start.vertical))
    || IsCorrectMove(b, start, Square(start.horizontal - 2, start.vertical))
    || (start.vertical != 0
        && IsCorrectCapture(b, start, Square(start.horizontal - 1, start.vertical - 1)))
    || (start.vertical != 7
        && (IsCorrectCapture(b, start, destinationEnPassant)
            || IsCorrectEnPassant(b, previousTurns, start, destinationEnPassant)))
  }

  /** No pawn of the side to move has a probed option (true outside a live turn). */
  predicate Stalemated(b: Board, previousTurns: seq<Board>)
    requires LookBackDefined(b, previousTurns)
  {
    if b.gameState == FirstPlayersTurn then
      forall i :: 0 <= i < |b.whiteFigures| ==> !WhiteHasOption(b, previousTurns, b.whiteFigures[i])
    else if b.gameState == SecondPlayersTurn then
      forall i :: 0 <= i < |b.blackFigures| ==> !BlackHasOption(b, previousTurns, b.blackFigures[i])
    else true
  }

  /** A White pawn on rank 7 (files 0 to 7), or no Black pawn left. */
  predicate WhiteWon(b: Board) {
    (exists i :: 0 <= i <= 7 && IsWhiteFigure(b, Square(7, i))) || b.blackFigures == []
  }

  /** A Black pawn on rank 0 (files 0 to 7), or no White pawn left. */
  predicate BlackWon(b: Board) {
    (exists i :: 0 <= i <= 7 && IsBlackFigure(b, Square(0, i))) || b.whiteFigures == []
  }

  /** The pawns of the side whose turn the state names. */
  function Movers(b: Board): seq<Square> {
    if b.gameState == FirstPlayersTurn then b.whiteFigures else b.blackFigures
  }

  // ---------------------------------------------------------------------------
  // Properties of the validator
  // ---------------------------------------------------------------------------

  /** Squares off the board are blank whenever every pawn is on the board. */
  lemma OffBoardIsBlank(b: Board, square: Square)
    requires AllOnBoard(b.whiteFigures) && AllOnBoard(b.blackFigures)
    requires !OnBoard(square)
    ensures IsBlankSquare(b, square)
  {
  }

  /**
   * For any start and destination at most one kind of move applies: a plain
   * move and en passant need a blank destination, a capture an occupied one,
   * and a plain move keeps the file while en passant changes it.
   */
  lemma MoveKindsExclusive(b: Board, previousTurns: seq<Board>, start: Square, destination: Square)
    requires LookBackDefined(b, previousTurns)
    ensures IsCorrectMove(b, start, destination) ==> IsBlankSquare(b, destination) && start.vertical == destination.vertical
    ensures IsCorrectCapture(b, start, destination) ==> !IsBlankSquare(b, destination)
    ensures IsCorrectEnPassant(b, previousTurns, start, destination) ==>
              IsBlankSquare(b, destination) && Abs(start.vertical - destination.vertical) == 1
    ensures !(IsCorrectMove(b, start, destination) && IsCorrectCapture(b, start, destination))
    ensures !(IsCorrectMove(b, start, destination) && IsCorrectEnPassant(b, previousTurns, start, destination))
    ensures !(IsCorrectCapture(b, start, destination) && IsCorrectEnPassant(b, previousTurns, start, destination))
  {
  }

  /** The plain advance, per side: same file, one rank forward, or two from the starting rank over a blank square. */
  lemma PlainMoveGeometry(b: Board, start: Square, destination: Square)
    requires IsLive(b.gameState)
    ensures b.gameState == FirstPlayersTurn ==>
      (IsCorrectMove(b, start, destination) <==>
         IsBlankSquare(b, destination) && destination.vertical == start.vertical
         && (destination.horizontal == start.horizontal + 1
             || (start.horizontal == 1 && destination.horizontal == 3
                 && IsBlankSquare(b, Square(2, start.vertical)))))
    ensures b.gameState == SecondPlayersTurn ==>
      (IsCorrectMove(b, start, destination) <==>
         IsBlankSquare(b, destination) && destination.vertical == start.vertical
         && (destination.horizontal == start.horizontal - 1
             || (start.horizontal == 6 && destination.horizontal == 4
                 && IsBlankSquare(b, Square(5, start.vertical)))))
  {
  }

  /** The capture, per side: an enemy pawn one rank forward and one file to either side. */
  lemma CaptureGeometry(b: Board, start: Square, destination: Square)
    requires IsLive(b.gameState)
    ensures b.gameState == FirstPlayersTurn ==>
      (IsCorrectCapture(b, start, destination) <==>
         IsBlackFigure(b, destination) && !IsWhiteFigure(b, destination)
         && destination.horizontal == start.horizontal + 1
         && (destination.vertical == start.vertical - 1 || destination.vertical == start.vertical + 1))
    ensures b.gameState == SecondPlayersTurn ==>
      (IsCorrectCapture(b, start, destination) <==>
         IsWhiteFigure(b, destination) && !IsBlackFigure(b, destination)
         && destination.horizontal == start.horizontal - 1
         && (destination.vertical == start.vertical - 1 || destination.vertical == start.vertical + 1))
  {
  }

  /**
   * En passant, per side. White captures only toward the lower file, Black
   * only toward the higher file, and the look-back asks only that the
   * captured pawn's square was blank in the last snapshot.
   */
  lemma EnPassantGeometry(b: Board, previousTurns: seq<Board>, start: Square, destination: Square)
    requires IsLive(b.gameState) && LookBackDefined(b, previousTurns)
    ensures b.gameState == FirstPlayersTurn ==>
      (IsCorrectEnPassant(b, previousTurns, start, destination) <==>
         previousTurns != []
         && start.horizontal == 4 && start.vertical != 0
         && IsBlackFigure(b, Square(4, start.vertical - 1))
         && destination == Square(5, start.vertical - 1)
         && IsBlankSquare(b, destination)
         && IsBlankSquare(previousTurns[|previousTurns| - 1], Square(4, start.vertical - 1)))
    ensures b.gameState == SecondPlayersTurn ==>
      (IsCorrectEnPassant(b, previousTurns, start, destination) <==>
         previousTurns != []
         && start.horizontal == 3 && start.vertical != 7
         && IsWhiteFigure(b, Square(3, start.vertical + 1))
         && destination == Square(2, start.vertical + 1)
         && IsBlankSquare(b, destination)
         && IsBlankSquare(previousTurns[|previousTurns| - 1], Square(3, start.vertical + 1)))
  {
  }

  /** En passant consults the last snapshot only: older history makes no difference. */
  lemma EnPassantLooksBackOnePly(b: Board, h1: seq<Board>, h2: seq<Board>, start: Square, destination: Square)
    requires h1 != [] && h2 != [] && h1[|h1| - 1] == h2[|h2| - 1]
    ensures IsCorrectEnPassant(b, h1, start, destination) == IsCorrectEnPassant(b, h2, start, destination)
  {
  }

  /**
   * The stalemate test is exact: when every pawn is on the board, the side to
   * move is stalemated exactly when none of its pawns has any legal move to
   * any square.
   */
  lemma StalemateIffNoLegalMove(b: Board, previousTurns: seq<Board>)
    requires IsLive(b.gameState) && LookBackDefined(b, previousTurns)
    requires AllOnBoard(b.whiteFigures) && AllOnBoard(b.blackFigures)
    ensures Stalemated(b, previousTurns) <==>
      forall start, destination :: start in Movers(b) ==> !IsLegal(b, previousTurns, start, destination)
  {
    if Stalemated(b, previousTurns) {
      forall start, destination | start in Movers(b)
        ensures !IsLegal(b, previousTurns, start, destination)
      {
        var i :| 0 <= i < |Movers(b)| && Movers(b)[i] == start;
        NoOptionNoMove(b, previousTurns, start, destination);
      }
    } else {
      if b.gameState == FirstPlayersTurn {
        var i :| 0 <= i < |b.whiteFigures| && WhiteHasOption(b, previousTurns, b.whiteFigures[i]);
        OptionIsMove(b, previousTurns, b.whiteFigures[i]);
      } else {
        var i :| 0 <= i < |b.blackFigures| && BlackHasOption(b, previousTurns, b.blackFigures[i]);
        OptionIsMove(b, previousTurns, b.blackFigures[i]);
      }
    }
  }

  /** A probed option is a legal move to some square. */
  lemma OptionIsMove(b: Board, previousTurns: seq<Board>, start: Square)
    requires IsLive(b.gameState) && LookBackDefined(b, previousTurns)
    requires if b.gameState == FirstPlayersTurn then WhiteHasOption(b, previousTurns, start)
             else BlackHasOption(b, previousTurns, start)
    ensures exists destination :: IsLegal(b, previousTurns, start, destination)
  {
    var forward := if b.gameState == FirstPlayersTurn then 1 else -1;
    var one := Square(start.horizontal + forward, start.vertical);
    var two := Square(start.horizontal + 2 * forward, start.vertical);
    var left := Square(start.horizontal + forward, start.vertical - 1);
    var right := Square(start.horizontal + forward, start.vertical + 1);
    if IsLegal(b, previousTurns, start, one) {
    } else if IsLegal(b, previousTurns, start, two) {
    } else if IsLegal(b, previousTurns, start, left) {
    } else {
      assert IsLegal(b, previousTurns, start, right);
    }
  }

  /** A pawn without probed options has no legal move to any square. */
  lemma NoOptionNoMove(b: Board, previousTurns: seq<Board>, start: Square, destination: Square)
    requires IsLive(b.gameState) && LookBackDefined(b, previousTurns)
    requires AllOnBoard(b.whiteFigures) && AllOnBoard(b.blackFigures)
    requires if b.gameState == FirstPlayersTurn then !WhiteHasOption(b, previousTurns, start)
             else !BlackHasOption(b, previousTurns, start)
    ensures !IsLegal(b, previousTurns, start, destination)
  {
    if IsCorrectCapture(b, start, destination) {
      assert !IsBlankSquare(b, destination);
      if OnBoard(destination) {
      } else {
        OffBoardIsBlank(b, destination);
      }
    }
  }
}

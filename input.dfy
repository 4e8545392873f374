/**
 * The console front end of the rules engine: how one line of input is read
 * as a move, and how it is routed to the board.
 */
module Input {
  import opened Figures
  import opened Rules
  import opened Turns
  import opened Notation
  import Model

  /** The whole input matches `[a-h][1-8][a-h][1-8]`. */
  predicate MatchesMovePattern(s: string) {
    && |s| == 4
    && IsFileLetter(s[0]) && IsRankDigit(s[1])
    && IsFileLetter(s[2]) && IsRankDigit(s[3])
  }

  /** Files 'a'..'h' become the column indices 0..7; any other character becomes -1. */
  function ConvertHorizontalLetterToIndex(letter: char): (r: int)
    ensures IsFileLetter(letter) ==> 0 <= r < 8 && FileLetter(r) == letter
    ensures !IsFileLetter(letter) ==> r == -1
  {
    match letter
    case 'a' => 0
    case 'b' => 1
    case 'c' => 2
    case 'd' => 3
    case 'e' => 4
    case 'f' => 5
    case 'g' => 6
    case 'h' => 7
    case _ => -1
  }

  /** The name of a square, letter first. */
  function SquareName(square: Square): (name: string)
    requires OnBoard(square)
    ensures |name| == 2 && IsFileLetter(name[0]) && IsRankDigit(name[1])
  {
    [FileLetter(square.vertical), RankDigit(square.horizontal)]
  }

  /**
   * Reads a file letter and a rank digit; the rank becomes `horizontal` and
   * the file `vertical`. The square is on the board exactly when both
   * characters are in range, and then it is the square so named.
   */
  function ConvertPositionToSquare(position: string): (r: Square)
    requires |position| >= 2 && IsDigit(position[1])
    ensures OnBoard(r) <==> IsFileLetter(position[0]) && IsRankDigit(position[1])
    ensures OnBoard(r) ==> SquareName(r) == position[..2]
  {
    Square(ConvertVerticalDigitToIndex(position[1]), ConvertHorizontalLetterToIndex(position[0]))
  }

  /** Naming a square and reading the name back gives the square. */
  lemma SquareNameRoundTrip(square: Square)
    requires OnBoard(square)
    ensures ConvertPositionToSquare(SquareName(square)) == square
  {
    var name := SquareName(square);
    assert ConvertHorizontalLetterToIndex(name[0]) == square.vertical;
  }

  function Start(usersInput: string): Square
    requires MatchesMovePattern(usersInput)
  {
    ConvertPositionToSquare(usersInput[..2])
  }

  function Destination(usersInput: string): Square
    requires MatchesMovePattern(usersInput)
  {
    ConvertPositionToSquare(usersInput[2..])
  }

  /** A matching input names two squares of the board, and is exactly their two names. */
  lemma MatchedInputNamesTwoSquares(usersInput: string)
    requires MatchesMovePattern(usersInput)
    ensures OnBoard(Start(usersInput)) && OnBoard(Destination(usersInput))
    ensures SquareName(Start(usersInput)) + SquareName(Destination(usersInput)) == usersInput
  {
    assert usersInput[2..][..2] == usersInput[2..];
    assert usersInput == usersInput[..2] + usersInput[2..];
  }

  /** Every move between two squares of the board can be typed, and is read back as that move. */
  lemma EveryMoveCanBeTyped(start: Square, destination: Square)
    requires OnBoard(start) && OnBoard(destination)
    ensures MatchesMovePattern(SquareName(start) + SquareName(destination))
    ensures Start(SquareName(start) + SquareName(destination)) == start
    ensures Destination(SquareName(start) + SquareName(destination)) == destination
  {
    var usersInput := SquareName(start) + SquareName(destination);
    assert usersInput[..2] == SquareName(start);
    assert usersInput[2..] == SquareName(destination);
    SquareNameRoundTrip(start);
    SquareNameRoundTrip(destination);
  }

  /** The game after one line of input: a move, the end of the game, or invalid input. */
  function InputResult(g: Game, usersInput: string): Game
    requires LookBackDefined(g.board, g.previousTurns)
  {
    if MatchesMovePattern(usersInput) then TurnResult(g, Start(usersInput), Destination(usersInput))
    else if usersInput == "exit" then WithState(g, EndGame)
    else WithState(g, InvalidInput)
  }

  /** Input that is not a move touches neither the pawns nor the history. */
  lemma NonMoveInputChangesOnlyState(g: Game, usersInput: string)
    requires LookBackDefined(g.board, g.previousTurns) && !MatchesMovePattern(usersInput)
    ensures InputResult(g, usersInput).board.whiteFigures == g.board.whiteFigures
    ensures InputResult(g, usersInput).board.blackFigures == g.board.blackFigures
    ensures InputResult(g, usersInput).previousTurns == g.previousTurns
    ensures InputResult(g, usersInput).board.gameState == EndGame <==> usersInput == "exit"
    ensures InputResult(g, usersInput).board.gameState == InvalidInput <==> usersInput != "exit"
  {
  }

  /** "exit" ends the game whatever the state: it is not a move. */
  lemma ExitEndsTheGame(g: Game)
    requires LookBackDefined(g.board, g.previousTurns)
    ensures InputResult(g, "exit") == WithState(g, EndGame)
  {
    assert !IsDigit("exit"[1]);
  }

  /** Input that is neither a move nor "exit" is rejected, and undoing the rejection gives back the game. */
  lemma InvalidInputIsUndone(g: Game, usersInput: string)
    requires GameInvariant(g) && IsLive(g.board.gameState)
    requires !MatchesMovePattern(usersInput) && usersInput != "exit"
    ensures InputResult(g, usersInput).board.gameState == InvalidInput
    ensures UndoResult(InputResult(g, usersInput)) == g
  {
  }

  /** Every line of input keeps the game invariant. */
  lemma InputPreservesInvariant(g: Game, usersInput: string)
    requires GameInvariant(g)
    ensures GameInvariant(InputResult(g, usersInput))
  {
    if MatchesMovePattern(usersInput) {
      TurnPreservesInvariant(g, Start(usersInput), Destination(usersInput));
    }
  }

  /**
   * What every game the console program reaches satisfies: the game
   * invariant, and every pawn on a square of the board, since the program
   * only ever passes squares that the move pattern names.
   */
  ghost predicate Reachable(g: Game) {
    GameInvariant(g) && AllOnBoard(g.board.whiteFigures) && AllOnBoard(g.board.blackFigures)
  }

  /** The new board the program starts from is reachable. */
  lemma InitialGameReachable()
    ensures Reachable(InitialGame)
  {
    InitialGameInvariant();
  }

  /** Every line of input keeps a reachable game reachable, pawns on the board included. */
  lemma InputKeepsReachable(g: Game, usersInput: string)
    requires Reachable(g)
    ensures Reachable(InputResult(g, usersInput))
  {
    InputPreservesInvariant(g, usersInput);
    if MatchesMovePattern(usersInput) {
      MatchedInputNamesTwoSquares(usersInput);
      OnBoardPreserved(g, Start(usersInput), Destination(usersInput));
    }
  }

  /**
   * In a reachable game the stalemate the engine declares after a typed
   * move is the real thing: the state becomes `Stalemate` exactly when the
   * mover has not won and no pawn of the opponent has a legal move to any
   * square.
   */
  lemma StalemateOutcomeIsExact(g: Game, usersInput: string)
    requires Reachable(g) && IsLive(g.board.gameState) && MatchesMovePattern(usersInput)
    requires Accepted(g, Start(usersInput), Destination(usersInput))
    ensures var r := InputResult(g, usersInput);
      var white := g.board.gameState == FirstPlayersTurn;
      var moved := r.board.(gameState := if white then SecondPlayersTurn else FirstPlayersTurn);
      var won := if white then WhiteWon(r.board) else BlackWon(r.board);
      && LookBackDefined(moved, r.previousTurns)
      && (r.board.gameState == Stalemate <==>
            !won && forall start, destination :: start in Movers(moved) ==> !IsLegal(moved, r.previousTurns, start, destination))
  {
    var start, destination := Start(usersInput), Destination(usersInput);
    var r := InputResult(g, usersInput);
    var white := g.board.gameState == FirstPlayersTurn;
    var moved := r.board.(gameState := if white then SecondPlayersTurn else FirstPlayersTurn);
    MatchedInputNamesTwoSquares(usersInput);
    OutcomeOfAcceptedMove(g, start, destination);
    OnBoardPreserved(g, start, destination);
    StalemateIffNoLegalMove(moved, r.previousTurns);
  }

  /** Routes one line of input to the board. */
  method MakeTurn(usersInput: string, chessboard: Model.ChessBoard)
    requires Reachable(chessboard.Session())
    modifies chessboard
    ensures Reachable(chessboard.Session())
    ensures chessboard.Session() == InputResult(old(chessboard.Session()), usersInput)
  {
    InputKeepsReachable(chessboard.Session(), usersInput);
    if MatchesMovePattern(usersInput) {
      var start := ConvertPositionToSquare(usersInput[..2]);
      var destination := ConvertPositionToSquare(usersInput[2..]);
      chessboard.MakeTurn(start, destination);
    } else if usersInput == "exit" {
      chessboard.gameState := EndGame;
    } else {
      chessboard.gameState := InvalidInput;
    }
  }
}

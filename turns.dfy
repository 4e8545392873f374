/**
 * The turn state machine of the rules engine as pure functions: a game is
 * the live board together with its history of snapshots, `TurnResult` is
 * one call of `makeTurn` and `UndoResult` one call of `undoTurn`. The class
 * in module Model carries out the same steps in place and is proved equal to
 * these functions.
 */
module Turns {
  import opened Figures
  import opened Rules

  /** The board and its history: one snapshot per accepted move, oldest first. */
  datatype Game = Game(board: Board, previousTurns: seq<Board>)

  const InitialGame: Game := Game(InitialBoard, [])

  /** No two pawns, of either side, share a square. */
  ghost predicate NoSharedSquares(b: Board) {
    && Distinct(b.whiteFigures)
    && Distinct(b.blackFigures)
    && forall square :: square in b.whiteFigures ==> square !in b.blackFigures
  }

  /** Every snapshot was taken while a player was to move. */
  predicate SnapshotsLive(previousTurns: seq<Board>) {
    forall k :: 0 <= k < |previousTurns| ==> IsLive(previousTurns[k].gameState)
  }

  /** The state agrees with the side that made the last accepted move. */
  predicate Alternation(g: Game) {
    var h := g.previousTurns;
    var s := g.board.gameState;
    && (s == FirstPlayersTurn || s == NoWhiteFigureAtSquare ==>
          h == [] || h[|h| - 1].gameState == SecondPlayersTurn)
    && (s == SecondPlayersTurn || s == NoBlackFigureAtSquare || s == FirstPlayerWins ==>
          h != [] && h[|h| - 1].gameState == FirstPlayersTurn)
    && (s == SecondPlayerWins ==> h != [] && h[|h| - 1].gameState == SecondPlayersTurn)
  }

  /** What every reachable game satisfies. */
  ghost predicate GameInvariant(g: Game) {
    && NoSharedSquares(g.board)
    && LookBackDefined(g.board, g.previousTurns)
    && SnapshotsLive(g.previousTurns)
    && Alternation(g)
  }

  lemma InitialGameInvariant()
    ensures GameInvariant(InitialGame)
  {
    assert forall i :: 0 <= i < 8 ==> InitialWhite[i] == Square(1, i);
    assert forall i :: 0 <= i < 8 ==> InitialBlack[i] == Square(6, i);
    ConsecutiveFilesDistinct(InitialWhite, 0);
    ConsecutiveFilesDistinct(InitialBlack, 0);
  }

  predicate IsRejection(state: GameState) {
    state == InvalidInput || state == NoWhiteFigureAtSquare || state == NoBlackFigureAtSquare
  }

  /** The start square holds a pawn of the side to move. */
  predicate OwnsStart(b: Board, start: Square) {
    if b.gameState == FirstPlayersTurn then !IsBlankSquare(b, start) && !IsBlackFigure(b, start)
    else if b.gameState == SecondPlayersTurn then !IsBlankSquare(b, start) && !IsWhiteFigure(b, start)
    else false
  }

  /** `makeTurn` will carry out this move. */
  predicate Accepted(g: Game, start: Square, destination: Square)
    requires LookBackDefined(g.board, g.previousTurns)
  {
    OwnsStart(g.board, start) && IsLegal(g.board, g.previousTurns, start, destination)
  }

  /** The square of the pawn taken en passant: one rank behind the destination, seen from the mover. */
  function EnPassantVictim(state: GameState, destination: Square): Square {
    if state == FirstPlayersTurn then Square(destination.horizontal - 1, destination.vertical)
    else Square(destination.horizontal + 1, destination.vertical)
  }

  /**
   * The pawns after an accepted move, with the turn handed over: the
   * captured pawn is removed (en passant first, then a plain capture, as at
   * most one applies) and the mover's pawn is relocated.
   */
  function Moved(g: Game, start: Square, destination: Square): Board
    requires IsLive(g.board.gameState) && LookBackDefined(g.board, g.previousTurns)
  {
    var b := g.board;
    var isCorrectCapture := IsCorrectCapture(b, start, destination);
    var isCorrectEnPassant := IsCorrectEnPassant(b, g.previousTurns, start, destination);
    var victim := EnPassantVictim(b.gameState, destination);
    if b.gameState == FirstPlayersTurn then
      var black := if isCorrectEnPassant then RemoveIf(b.blackFigures, victim) else b.blackFigures;
      var black' := if isCorrectCapture then RemoveIf(black, destination) else black;
      Board(SecondPlayersTurn, Relocate(b.whiteFigures, start, destination), black')
    else
      var white := if isCorrectEnPassant then RemoveIf(b.whiteFigures, victim) else b.whiteFigures;
      var white' := if isCorrectCapture then RemoveIf(white, destination) else white;
      Board(FirstPlayersTurn, white', Relocate(b.blackFigures, start, destination))
  }

  /**
   * An accepted move: snapshot the board, move the pawns, hand the turn
   * over, then test for stalemate of the opponent and, last, for a win of
   * the mover.
   */
  function Advance(g: Game, start: Square, destination: Square): Game
    requires IsLive(g.board.gameState) && LookBackDefined(g.board, g.previousTurns)
  {
    var moved := Moved(g, start, destination);
    var history := g.previousTurns + [g.board];
    var state := if Stalemated(moved, history) then Stalemate else moved.gameState;
    var state' :=
      if g.board.gameState == FirstPlayersTurn then (if WhiteWon(moved) then FirstPlayerWins else state)
      else (if BlackWon(moved) then SecondPlayerWins else state);
    Game(moved.(gameState := state'), history)
  }

  function WithState(g: Game, state: GameState): Game {
    g.(board := g.board.(gameState := state))
  }

  /** One call of `makeTurn(start, destination)`. */
  function TurnResult(g: Game, start: Square, destination: Square): Game
    requires LookBackDefined(g.board, g.previousTurns)
  {
    var b := g.board;
    match b.gameState
    case FirstPlayersTurn =>
      if IsBlankSquare(b, start) || IsBlackFigure(b, start) then WithState(g, NoWhiteFigureAtSquare)
      else if IsLegal(b, g.previousTurns, start, destination) then Advance(g, start, destination)
      else WithState(g, InvalidInput)
    case SecondPlayersTurn =>
      if IsBlankSquare(b, start) || IsWhiteFigure(b, start) then WithState(g, NoBlackFigureAtSquare)
      else if IsLegal(b, g.previousTurns, start, destination) then Advance(g, start, destination)
      else WithState(g, InvalidInput)
    case FirstPlayerWins => WithState(g, EndGame)
    case SecondPlayerWins => WithState(g, EndGame)
    case Stalemate => WithState(g, EndGame)
    case _ => g
  }

  /** One call of `undoTurn()`; it never touches the pawns or the history. */
  function UndoResult(g: Game): (r: Game)
    ensures r.board.whiteFigures == g.board.whiteFigures && r.board.blackFigures == g.board.blackFigures
    ensures r.previousTurns == g.previousTurns
    ensures !IsRejection(g.board.gameState) ==> r == g
  {
    var h := g.previousTurns;
    match g.board.gameState
    case InvalidInput =>
      if h == [] || h[|h| - 1].gameState == SecondPlayersTurn then WithState(g, FirstPlayersTurn)
      else if h[|h| - 1].gameState == FirstPlayersTurn then WithState(g, SecondPlayersTurn)
      else g
    case NoWhiteFigureAtSquare => WithState(g, FirstPlayersTurn)
    case NoBlackFigureAtSquare => WithState(g, SecondPlayersTurn)
    case _ => g
  }

  // ---------------------------------------------------------------------------
  // Properties of one turn
  // ---------------------------------------------------------------------------

  /**
   * A turn either accepts the move, or changes the state flag only. The
   * ownership test comes first and gives the side's "no figure" state; an
   * owned pawn without a legal move gives `InvalidInput`.
   */
  lemma RejectionChangesOnlyState(g: Game, start: Square, destination: Square)
    requires IsLive(g.board.gameState) && LookBackDefined(g.board, g.previousTurns)
    ensures var r := TurnResult(g, start, destination);
      && (Accepted(g, start, destination) <==> !IsRejection(r.board.gameState))
      && (Accepted(g, start, destination) <==> r.previousTurns != g.previousTurns)
      && (!Accepted(g, start, destination) ==> r == WithState(g, r.board.gameState))
      && (g.board.gameState == FirstPlayersTurn ==>
            (r.board.gameState == NoWhiteFigureAtSquare <==>
               IsBlankSquare(g.board, start) || IsBlackFigure(g.board, start)))
      && (g.board.gameState == SecondPlayersTurn ==>
            (r.board.gameState == NoBlackFigureAtSquare <==>
               IsBlankSquare(g.board, start) || IsWhiteFigure(g.board, start)))
      && (r.board.gameState == InvalidInput <==>
            OwnsStart(g.board, start) && !IsLegal(g.board, g.previousTurns, start, destination))
  {
    var r := TurnResult(g, start, destination);
    if Accepted(g, start, destination) {
      assert |r.previousTurns| == |g.previousTurns| + 1;
    }
  }

  /** An accepted move is carried out by `Advance`, whose pawns are those of `Moved`. */
  lemma AcceptedIsAdvance(g: Game, start: Square, destination: Square)
    requires IsLive(g.board.gameState) && LookBackDefined(g.board, g.previousTurns)
    requires Accepted(g, start, destination)
    ensures var r := TurnResult(g, start, destination);
      var m := Moved(g, start, destination);
      && r == Advance(g, start, destination)
      && r.board.whiteFigures == m.whiteFigures && r.board.blackFigures == m.blackFigures
      && r.previousTurns == g.previousTurns + [g.board]
  {
  }

  /**
   * An accepted move by White appends the pre-move board, keeps White's
   * number of pawns, puts the mover on the destination, and takes from Black
   * the pawn on the destination (capture), the pawn one rank behind it (en
   * passant) or nothing (plain advance).
   */
  lemma WhiteMoveEffects(g: Game, start: Square, destination: Square)
    requires GameInvariant(g) && g.board.gameState == FirstPlayersTurn
    requires Accepted(g, start, destination)
    ensures var r := TurnResult(g, start, destination);
      var b := g.board;
      var victim := Square(destination.horizontal - 1, destination.vertical);
      && r.previousTurns == g.previousTurns + [b]
      && |r.board.whiteFigures| == |b.whiteFigures|
      && multiset(r.board.whiteFigures) == multiset(b.whiteFigures) - multiset{start} + multiset{destination}
      && destination in r.board.whiteFigures && start !in r.board.whiteFigures
      && (IsCorrectMove(b, start, destination) ==> r.board.blackFigures == b.blackFigures)
      && (IsCorrectCapture(b, start, destination) ==>
            multiset(r.board.blackFigures) == multiset(b.blackFigures) - multiset{destination}
            && |r.board.blackFigures| == |b.blackFigures| - 1)
      && (IsCorrectEnPassant(b, g.previousTurns, start, destination) ==>
            multiset(r.board.blackFigures) == multiset(b.blackFigures) - multiset{victim}
            && |r.board.blackFigures| == |b.blackFigures| - 1)
  {
    AcceptedIsAdvance(g, start, destination);
    MovedWhiteEffects(g, start, destination);
  }

  lemma MovedWhiteEffects(g: Game, start: Square, destination: Square)
    requires NoSharedSquares(g.board) && LookBackDefined(g.board, g.previousTurns) && g.board.gameState == FirstPlayersTurn
    requires Accepted(g, start, destination)
    ensures var r := Moved(g, start, destination);
      var b := g.board;
      var victim := Square(destination.horizontal - 1, destination.vertical);
      && |r.whiteFigures| == |b.whiteFigures|
      && multiset(r.whiteFigures) == multiset(b.whiteFigures) - multiset{start} + multiset{destination}
      && destination in r.whiteFigures && start !in r.whiteFigures
      && destination !in r.blackFigures
      && Distinct(r.whiteFigures) && Distinct(r.blackFigures)
      && (IsCorrectMove(b, start, destination) ==> r.blackFigures == b.blackFigures)
      && (IsCorrectCapture(b, start, destination) ==>
            multiset(r.blackFigures) == multiset(b.blackFigures) - multiset{destination}
            && |r.blackFigures| == |b.blackFigures| - 1)
      && (IsCorrectEnPassant(b, g.previousTurns, start, destination) ==>
            multiset(r.blackFigures) == multiset(b.blackFigures) - multiset{victim}
            && |r.blackFigures| == |b.blackFigures| - 1)
  {
    var b := g.board;
    var m := Moved(g, start, destination);
    MoveKindsExclusive(b, g.previousTurns, start, destination);
    assert start in b.whiteFigures;
    var victim := Square(destination.horizontal - 1, destination.vertical);
    assert m.whiteFigures == Relocate(b.whiteFigures, start, destination);
    if IsCorrectCapture(b, start, destination) {
      assert m.blackFigures == RemoveIf(b.blackFigures, destination);
      RemoveIfDistinct(b.blackFigures, destination);
      assert multiset(b.blackFigures)[destination] == 1;
      assert destination !in b.whiteFigures;
      RelocateDistinct(b.whiteFigures, start, destination);
    } else if IsCorrectEnPassant(b, g.previousTurns, start, destination) {
      assert m.blackFigures == RemoveIf(b.blackFigures, victim);
      RemoveIfDistinct(b.blackFigures, victim);
      assert multiset(b.blackFigures)[victim] == 1;
      RelocateDistinct(b.whiteFigures, start, destination);
    } else {
      assert m.blackFigures == b.blackFigures;
      RelocateDistinct(b.whiteFigures, start, destination);
    }
  }


  /** The mirror image for Black: the en-passant victim stands one rank above the destination. */
  lemma BlackMoveEffects(g: Game, start: Square, destination: Square)
    requires GameInvariant(g) && g.board.gameState == SecondPlayersTurn
    requires Accepted(g, start, destination)
    ensures var r := TurnResult(g, start, destination);
      var b := g.board;
      var victim := Square(destination.horizontal + 1, destination.vertical);
      && r.previousTurns == g.previousTurns + [b]
      && |r.board.blackFigures| == |b.blackFigures|
      && multiset(r.board.blackFigures) == multiset(b.blackFigures) - multiset{start} + multiset{destination}
      && destination in r.board.blackFigures && start !in r.board.blackFigures
      && (IsCorrectMove(b, start, destination) ==> r.board.whiteFigures == b.whiteFigures)
      && (IsCorrectCapture(b, start, destination) ==>
            multiset(r.board.whiteFigures) == multiset(b.whiteFigures) - multiset{destination}
            && |r.board.whiteFigures| == |b.whiteFigures| - 1)
      && (IsCorrectEnPassant(b, g.previousTurns, start, destination) ==>
            multiset(r.board.whiteFigures) == multiset(b.whiteFigures) - multiset{victim}
            && |r.board.whiteFigures| == |b.whiteFigures| - 1)
  {
    AcceptedIsAdvance(g, start, destination);
    MovedBlackEffects(g, start, destination);
  }

  lemma MovedBlackEffects(g: Game, start: Square, destination: Square)
    requires NoSharedSquares(g.board) && LookBackDefined(g.board, g.previousTurns) && g.board.gameState == SecondPlayersTurn
    requires Accepted(g, start, destination)
    ensures var r := Moved(g, start, destination);
      var b := g.board;
      var victim := Square(destination.horizontal + 1, destination.vertical);
      && |r.blackFigures| == |b.blackFigures|
      && multiset(r.blackFigures) == multiset(b.blackFigures) - multiset{start} + multiset{destination}
      && destination in r.blackFigures && start !in r.blackFigures
      && destination !in r.whiteFigures
      && Distinct(r.blackFigures) && Distinct(r.whiteFigures)
      && (IsCorrectMove(b, start, destination) ==> r.whiteFigures == b.whiteFigures)
      && (IsCorrectCapture(b, start, destination) ==>
            multiset(r.whiteFigures) == multiset(b.whiteFigures) - multiset{destination}
            && |r.whiteFigures| == |b.whiteFigures| - 1)
      && (IsCorrectEnPassant(b, g.previousTurns, start, destination) ==>
            multiset(r.whiteFigures) == multiset(b.whiteFigures) - multiset{victim}
            && |r.whiteFigures| == |b.whiteFigures| - 1)
  {
    var b := g.board;
    var m := Moved(g, start, destination);
    MoveKindsExclusive(b, g.previousTurns, start, destination);
    assert start in b.blackFigures;
    var victim := Square(destination.horizontal + 1, destination.vertical);
    assert m.blackFigures == Relocate(b.blackFigures, start, destination);
    if IsCorrectCapture(b, start, destination) {
      assert m.whiteFigures == RemoveIf(b.whiteFigures, destination);
      RemoveIfDistinct(b.whiteFigures, destination);
      assert multiset(b.whiteFigures)[destination] == 1;
      assert destination !in b.blackFigures;
      RelocateDistinct(b.blackFigures, start, destination);
    } else if IsCorrectEnPassant(b, g.previousTurns, start, destination) {
      assert m.whiteFigures == RemoveIf(b.whiteFigures, victim);
      RemoveIfDistinct(b.whiteFigures, victim);
      assert multiset(b.whiteFigures)[victim] == 1;
      RelocateDistinct(b.blackFigures, start, destination);
    } else {
      assert m.whiteFigures == b.whiteFigures;
      RelocateDistinct(b.blackFigures, start, destination);
    }
  }


  /**
   * The state after an accepted move: the opponent's turn, overwritten by
   * `Stalemate` when the opponent has no probed option, overwritten in turn
   * by the mover's win, which therefore takes precedence. An opponent left
   * without pawns is stalemated vacuously, and the win still prevails.
   */
  lemma OutcomeOfAcceptedMove(g: Game, start: Square, destination: Square)
    requires IsLive(g.board.gameState) && LookBackDefined(g.board, g.previousTurns)
    requires Accepted(g, start, destination)
    ensures var r := TurnResult(g, start, destination);
      var white := g.board.gameState == FirstPlayersTurn;
      var opponent := if white then SecondPlayersTurn else FirstPlayersTurn;
      var moved := r.board.(gameState := opponent);
      var won := if white then WhiteWon(r.board) else BlackWon(r.board);
      && LookBackDefined(moved, r.previousTurns)
      && (won ==> r.board.gameState == (if white then FirstPlayerWins else SecondPlayerWins))
      && (!won && Stalemated(moved, r.previousTurns) ==> r.board.gameState == Stalemate)
      && (!won && !Stalemated(moved, r.previousTurns) ==> r.board.gameState == opponent)
      && (Movers(moved) == [] ==> Stalemated(moved, r.previousTurns) && won)
  {
  }

  /** Terminal outcomes move on to `EndGame`; `EndGame` and the rejection states are left alone. */
  lemma TerminalAndWaitingStates(g: Game, start: Square, destination: Square)
    requires LookBackDefined(g.board, g.previousTurns)
    ensures var s := g.board.gameState;
      s == FirstPlayerWins || s == SecondPlayerWins || s == Stalemate ==>
        TurnResult(g, start, destination) == WithState(g, EndGame)
    ensures var s := g.board.gameState;
      s == EndGame || IsRejection(s) ==> TurnResult(g, start, destination) == g
  {
  }

  /** Undo resolves every rejection state to a live turn, because every snapshot holds a live turn. */
  lemma UndoLandsOnLiveTurn(g: Game)
    requires SnapshotsLive(g.previousTurns)
    requires IsRejection(g.board.gameState)
    ensures IsLive(UndoResult(g).board.gameState)
    ensures g.board.gameState == NoWhiteFigureAtSquare ==> UndoResult(g).board.gameState == FirstPlayersTurn
    ensures g.board.gameState == NoBlackFigureAtSquare ==> UndoResult(g).board.gameState == SecondPlayersTurn
  {
    var h := g.previousTurns;
    if h != [] {
      assert IsLive(h[|h| - 1].gameState);
    }
  }

  /** A rejected move followed by undo leaves the game exactly as it was before the move. */
  lemma UndoRestoresRejectedTurn(g: Game, start: Square, destination: Square)
    requires GameInvariant(g) && IsLive(g.board.gameState)
    requires !Accepted(g, start, destination)
    ensures UndoResult(TurnResult(g, start, destination)) == g
  {
    RejectionChangesOnlyState(g, start, destination);
  }

  /** Pawns are never created: each side keeps or loses pawns, and the mover keeps all of its own. */
  lemma PawnCountNonIncreasing(g: Game, start: Square, destination: Square)
    requires GameInvariant(g)
    ensures var r := TurnResult(g, start, destination);
      && |r.board.whiteFigures| <= |g.board.whiteFigures|
      && |r.board.blackFigures| <= |g.board.blackFigures|
      && |r.board.whiteFigures| + |r.board.blackFigures| >= |g.board.whiteFigures| + |g.board.blackFigures| - 1
  {
    if IsLive(g.board.gameState) && Accepted(g, start, destination) {
      if g.board.gameState == FirstPlayersTurn {
        WhiteMoveEffects(g, start, destination);
      } else {
        BlackMoveEffects(g, start, destination);
      }
    }
  }

  /** A move onto a square of the board keeps every pawn on the board. */
  lemma OnBoardPreserved(g: Game, start: Square, destination: Square)
    requires LookBackDefined(g.board, g.previousTurns)
    requires AllOnBoard(g.board.whiteFigures) && AllOnBoard(g.board.blackFigures)
    requires OnBoard(destination)
    ensures var r := TurnResult(g, start, destination);
      AllOnBoard(r.board.whiteFigures) && AllOnBoard(r.board.blackFigures)
  {
    var r := TurnResult(g, start, destination);
    forall i | 0 <= i < |r.board.whiteFigures|
      ensures OnBoard(r.board.whiteFigures[i])
    {
      assert r.board.whiteFigures[i] in g.board.whiteFigures || r.board.whiteFigures[i] == destination;
    }
    forall i | 0 <= i < |r.board.blackFigures|
      ensures OnBoard(r.board.blackFigures[i])
    {
      assert r.board.blackFigures[i] in g.board.blackFigures || r.board.blackFigures[i] == destination;
    }
  }

  /** Every turn and every undo keeps the game invariant. */
  lemma TurnPreservesInvariant(g: Game, start: Square, destination: Square)
    requires GameInvariant(g)
    ensures GameInvariant(TurnResult(g, start, destination))
  {
    if IsLive(g.board.gameState) && Accepted(g, start, destination) {
      AdvancePreservesInvariant(g, start, destination);
    } else {
      var r := TurnResult(g, start, destination);
      assert r == WithState(g, r.board.gameState);
      assert r.board.gameState == g.board.gameState || r.board.gameState == InvalidInput
        || r.board.gameState == EndGame
        || (g.board.gameState == FirstPlayersTurn && r.board.gameState == NoWhiteFigureAtSquare)
        || (g.board.gameState == SecondPlayersTurn && r.board.gameState == NoBlackFigureAtSquare);
    }
  }

  /** The state after an accepted move is the opponent's turn, stalemate or the mover's win. */
  lemma AdvanceState(g: Game, start: Square, destination: Square)
    requires IsLive(g.board.gameState) && LookBackDefined(g.board, g.previousTurns)
    ensures var s := Advance(g, start, destination).board.gameState;
      if g.board.gameState == FirstPlayersTurn then
        s == SecondPlayersTurn || s == Stalemate || s == FirstPlayerWins
      else
        s == FirstPlayersTurn || s == Stalemate || s == SecondPlayerWins
  {
  }

  lemma AdvancePreservesInvariant(g: Game, start: Square, destination: Square)
    requires GameInvariant(g)
    requires IsLive(g.board.gameState) && Accepted(g, start, destination)
    ensures GameInvariant(TurnResult(g, start, destination))
  {
    var r := TurnResult(g, start, destination);
    var m := Moved(g, start, destination);
    AcceptedIsAdvance(g, start, destination);
    AdvanceState(g, start, destination);
    MovedKeepsSquaresApart(g, start, destination);
    assert r.board == m.(gameState := r.board.gameState);
    assert NoSharedSquares(r.board);
    assert r.previousTurns[|r.previousTurns| - 1] == g.board;
    assert Alternation(r);
    assert SnapshotsLive(r.previousTurns) by {
      forall k | 0 <= k < |r.previousTurns|
        ensures IsLive(r.previousTurns[k].gameState)
      {
        if k < |g.previousTurns| {
          assert r.previousTurns[k] == g.previousTurns[k];
        }
      }
    }
  }

  /** After an accepted move, no two pawns share a square. */
  lemma MovedKeepsSquaresApart(g: Game, start: Square, destination: Square)
    requires NoSharedSquares(g.board) && LookBackDefined(g.board, g.previousTurns)
    requires IsLive(g.board.gameState) && Accepted(g, start, destination)
    ensures NoSharedSquares(Moved(g, start, destination))
  {
    var b := g.board;
    var m := Moved(g, start, destination);
    if b.gameState == FirstPlayersTurn {
      MovedWhiteEffects(g, start, destination);
      SquaresApartAfterMove(b.whiteFigures, b.blackFigures, m.whiteFigures, m.blackFigures, destination);
    } else {
      MovedBlackEffects(g, start, destination);
      SquaresApartAfterMove(b.blackFigures, b.whiteFigures, m.blackFigures, m.whiteFigures, destination);
    }
  }

  /**
   * The mover's pawns gain at most the destination and the opponent's only
   * lose pawns; with the destination no longer the opponent's, the two
   * sides stay apart.
   */
  lemma SquaresApartAfterMove(mover: seq<Square>, opponent: seq<Square>, mover': seq<Square>, opponent': seq<Square>, destination: Square)
    requires forall square :: square in mover ==> square !in opponent
    requires multiset(mover') <= multiset(mover + [destination])
    requires multiset(opponent') <= multiset(opponent)
    requires destination !in opponent'
    ensures forall square :: square in mover' ==> square !in opponent'
    ensures forall square :: square in opponent' ==> square !in mover'
  {
    MultisetSubsetMembers(mover', mover + [destination]);
    MultisetSubsetMembers(opponent', opponent);
  }

  lemma UndoPreservesInvariant(g: Game)
    requires GameInvariant(g)
    ensures GameInvariant(UndoResult(g))
  {
    var h := g.previousTurns;
    if h != [] {
      assert IsLive(h[|h| - 1].gameState);
    }
  }

  lemma MultisetSubsetMembers(small: seq<Square>, large: seq<Square>)
    requires multiset(small) <= multiset(large)
    ensures forall x :: x in small ==> x in large
  {
    forall x | x in small
      ensures x in large
    {
      assert multiset(small)[x] > 0;
    }
  }
}

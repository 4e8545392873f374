# Pawns-only chess, modelled in Dafny

This project models the rules engine of a console game of pawns-only chess
written in Kotlin. Each side starts with eight pawns, on rank 1 (White) and
rank 6 (Black). A pawn advances one rank, or two from its starting rank;
it captures diagonally; and it may capture en passant. A side wins by
reaching the far rank or by taking every enemy pawn. A side with no probed
move is stalemated.

The model has three parts, one per source file.

- **The engine** (`model.ChessBoard`), in four modules:
  - `Figures`: squares, and the two lists of pawns with the list operations
    the engine uses (`removeIf` becomes `RemoveIf`; the `find … ?.square =`
    relocation becomes `Relocate`).
  - `Rules`: the game state flag, board snapshots, and the move predicates:
    plain advance, capture and en passant. Also the probes the stalemate
    test uses, and the win tests.
  - `Turns`: one call of `makeTurn` and one of `undoTurn`, as pure
    functions (`TurnResult`, `UndoResult`) of a game, where a game is a
    board plus its history of snapshots. Also the invariant every
    reachable game keeps, and the properties of a turn.
  - `Model`: the class `ChessBoard` itself. Its fields are the state flag,
    the two pawn lists and the history. Its methods update them in place,
    step by step as the Kotlin does, and each method is proved to agree
    with the functions of `Turns`.
- **The console front end** (`Main.kt`), in two modules:
  - `Notation`: reading a rank digit.
  - `Input`: reading a file letter (anything else becomes -1), the
    `[a-h][1-8][a-h][1-8]` pattern, and the routing of one input line to
    the board (a move, `exit`, or invalid input).
- **The earlier grid version** (`chess/Main.kt`), in module `Grid`: a class
  over an 8 x 8 array of `"W"`, `"B"` and `" "` cells with a two-valued turn
  flag. It knows plain advances only. Any character other than `a`..`g`
  reads as file 7.

`Scenarios` states, as lemmas about the turn functions, the outcome of
concrete games:
- the opening double step;
- rejected moves, and their undo;
- en passant after a double step;
- the engine's departures from the rules of chess;
- a stalemate;
- a win that overrides stalemate.

The engine departs from the rules of chess in four places. The model
follows the engine's code in each:

- **Win against stalemate.** A natural order is to test for stalemate
  first and for the win only when there is no stalemate. The code sets
  `STALEMATE` and then overwrites it with the mover's win. The two orders
  differ whenever the mover has won and the opponent has no probed option.
  That happens when the mover takes the opponent's last pawn, leaving the
  opponent vacuously stalemated, and when the mover reaches the far rank
  while the opponent's pawns are blocked. In both cases the code reports
  the win (`Turns.OutcomeOfAcceptedMove`, `Scenarios.WinOverridesStalemate`,
  `Scenarios.FarRankOverridesStalemate`).
- **Direction of en passant.** In chess, en passant is allowed toward
  either neighbouring file. The code looks only toward the lower file for
  White and only toward the higher file for Black
  (`Rules.EnPassantGeometry`, `Scenarios.EnPassantIsOneSided`).
- **The look-back.** In chess, en passant is allowed only right after the
  enemy pawn's two-step advance. The code only asks whether the captured
  pawn's current square was empty in the last snapshot. So a pawn that
  arrived there by a single step can be taken en passant too
  (`Scenarios.EnPassantAfterSingleStep`).
- **Stalemate with no pawns.** In chess, stalemate concerns a side that
  still has pieces. The engine's test is true for a side without pawns.

The stalemate test is exact only while every pawn stands on the board.
Every game the console front end produces keeps that
(`Input.Reachable`, `Input.InputKeepsReachable`), so there the declared
stalemate is exactly "no legal move" (`Input.StalemateOutcomeIsExact`).

## Model

| member | source | states |
|---|---|---|
| Figures.RemoveIf | src/main/kotlin/model/ChessBoard.kt:78-87 | Drops every pawn on the square and keeps the rest. The square's count becomes zero and every other square's count is unchanged. A square is in the result iff it was in the list and is not the removed one. |
| Figures.Relocate | src/main/kotlin/model/ChessBoard.kt:89-91 | Same length. An entry either stays or, if it was `start`, becomes `destination`. With a pawn on `start`, one `start` is traded for one `destination`. With none (`find` gives null), nothing changes. |
| Figures.RelocateFirst | src/main/kotlin/model/ChessBoard.kt:89-91 | `find` takes the first pawn on `start`: the result replaces exactly that index. |
| Figures.RemoveIfDistinct | src/main/kotlin/model/ChessBoard.kt:78-87 | On a list without repetitions, removal keeps it so. It takes exactly one pawn when one is there and changes nothing otherwise. |
| Figures.RemoveIfNothing | src/main/kotlin/model/ChessBoard.kt:78-87 | Removing a square no pawn stands on leaves the list as it was. |
| Figures.RelocateDistinct | src/main/kotlin/model/ChessBoard.kt:89-91 | Moving a pawn onto a square the list does not hold keeps the list free of repetitions. The destination is then held and the start is not. |
| Figures.ConsecutiveFilesDistinct | src/main/kotlin/model/ChessBoard.kt:38-58 | Pawns on consecutive files, as in the starting lists, are all on different squares. |
| Rules.OffBoardIsBlank | src/main/kotlin/model/ChessBoard.kt:378-388 | While every pawn is on the board, an off-board square counts as blank. |
| Rules.MoveKindsExclusive | src/main/kotlin/model/ChessBoard.kt:180-276 | At most one of plain move, capture and en passant holds. A plain move needs a blank destination on the same file, a capture an occupied destination, and en passant a blank destination one file over. |
| Rules.PlainMoveGeometry | src/main/kotlin/model/ChessBoard.kt:180-211 | Iff, per side: a plain move keeps the file and lands on a blank square one rank forward. It may also go two ranks from rank 1 (White) or rank 6 (Black) when the square in between is blank. |
| Rules.CaptureGeometry | src/main/kotlin/model/ChessBoard.kt:213-241 | Iff, per side: a capture lands on an enemy pawn one rank forward (+1 for White, -1 for Black) and one file to either side. |
| Rules.EnPassantGeometry | src/main/kotlin/model/ChessBoard.kt:243-276 | Iff, per side. White: from rank 4, a Black pawn on (4, file-1), destination (5, file-1) blank, and (4, file-1) blank in the last snapshot. Black mirrors this: rank 3, file+1, destination (2, file+1). A history exists whenever en passant holds. |
| Rules.EnPassantLooksBackOnePly | src/main/kotlin/model/ChessBoard.kt:255-268 | En passant depends on the last snapshot only; older history makes no difference. |
| Rules.StalemateIffNoLegalMove | src/main/kotlin/model/ChessBoard.kt:306-360 | With every pawn on the board, the probing stalemate test holds iff no pawn of the side to move has a legal move to any square. |
| Rules.OptionIsMove | src/main/kotlin/model/ChessBoard.kt:306-360 | Each probe that stops the stalemate loop is a legal move to some square. |
| Rules.NoOptionNoMove | src/main/kotlin/model/ChessBoard.kt:306-360 | A pawn for which every probe fails has no legal move to any square. |
| Turns.InitialGameInvariant | src/main/kotlin/model/ChessBoard.kt:31-61 | The starting game satisfies the invariant. No square holds two pawns, an empty history goes with the initial lists, every snapshot is a live turn, and the state agrees with the last snapshot. |
| Turns.UndoResult | src/main/kotlin/model/ChessBoard.kt:159-178 | Undo never touches pawns or history. Outside the three rejection states it changes nothing. |
| Turns.RejectionChangesOnlyState | src/main/kotlin/model/ChessBoard.kt:66-149 | A live turn is accepted iff the history grows and iff the new state is not a rejection. A blank or enemy start gives the side's "no figure" state. An owned pawn without a legal move gives `InvalidInput`. A rejected turn changes only the state. |
| Turns.AcceptedIsAdvance | src/main/kotlin/model/ChessBoard.kt:73-103 | An accepted move appends the pre-move board to the history and moves the pawns as `Moved` does. |
| Turns.WhiteMoveEffects | src/main/kotlin/model/ChessBoard.kt:74-93 | White's accepted move appends one snapshot and keeps White's count. It trades `start` for `destination`. Black loses nothing (plain move), the pawn on the destination (capture), or the pawn one rank below it (en passant). |
| Turns.MovedWhiteEffects | src/main/kotlin/model/ChessBoard.kt:76-91 | The same, for the pawn lists alone. No side holds a square twice afterwards, and the destination is not Black's. |
| Turns.BlackMoveEffects | src/main/kotlin/model/ChessBoard.kt:116-135 | Black's mirror image: the en-passant victim stands one rank above the destination. |
| Turns.MovedBlackEffects | src/main/kotlin/model/ChessBoard.kt:118-133 | The same for Black's lists alone. |
| Turns.OutcomeOfAcceptedMove | src/main/kotlin/model/ChessBoard.kt:93-145 | After an accepted move the state is the mover's win if the mover has won. Otherwise it is `Stalemate` if the opponent has no probed option, and else the opponent's turn. An opponent without pawns is stalemated, and the win prevails. |
| Turns.TerminalAndWaitingStates | src/main/kotlin/model/ChessBoard.kt:150-155 | From a win or `Stalemate` the next call gives `EndGame`. From `EndGame` or a rejection state the call changes nothing. |
| Turns.UndoLandsOnLiveTurn | src/main/kotlin/model/ChessBoard.kt:159-178 | Undo from a rejection state always reaches a live turn. `NO_WHITE…` goes to White and `NO_BLACK…` to Black. |
| Turns.UndoRestoresRejectedTurn | src/main/kotlin/model/ChessBoard.kt:159-178 | A rejected move followed by undo gives back exactly the game before the move. |
| Turns.PawnCountNonIncreasing | src/main/kotlin/model/ChessBoard.kt:74-133 | No pawn is ever created, and a turn removes at most one pawn. |
| Turns.OnBoardPreserved | src/main/kotlin/model/ChessBoard.kt:89-91 | A move to a square on the board keeps every pawn on the board. |
| Turns.TurnPreservesInvariant | src/main/kotlin/model/ChessBoard.kt:64-157 | Every call of `makeTurn` keeps the game invariant, so no two pawns ever share a square. |
| Turns.AdvanceState | src/main/kotlin/model/ChessBoard.kt:93-103 | After an accepted move the state is the opponent's turn, `Stalemate` or the mover's win. |
| Turns.AdvancePreservesInvariant | src/main/kotlin/model/ChessBoard.kt:73-103 | An accepted move keeps the game invariant. |
| Turns.MovedKeepsSquaresApart | src/main/kotlin/model/ChessBoard.kt:76-91 | After an accepted move no two pawns of either side share a square. |
| Turns.SquaresApartAfterMove | src/main/kotlin/model/ChessBoard.kt:76-91 | The mover gains at most the destination and the opponent only loses pawns. With the destination not the opponent's, the sides stay apart. |
| Turns.UndoPreservesInvariant | src/main/kotlin/model/ChessBoard.kt:159-178 | Every call of `undoTurn` keeps the game invariant. |
| Model.ChessBoard.constructor | src/main/kotlin/model/ChessBoard.kt:31-61 | A new board is the starting game: White to move, both starting lists, empty history. It satisfies the invariant. |
| Model.ChessBoard.MakeTurn | src/main/kotlin/model/ChessBoard.kt:64-157 | The in-place turn leaves exactly `TurnResult` of the old game and keeps the invariant. |
| Model.ChessBoard.MoveWhiteFigure | src/main/kotlin/model/ChessBoard.kt:74-103 | White's accepted branch runs snapshot, removals, relocation, hand-over, stalemate test and win test in place. It leaves exactly `Advance` of the old game. |
| Model.ChessBoard.MoveBlackFigure | src/main/kotlin/model/ChessBoard.kt:116-145 | The same for Black's branch. |
| Model.ChessBoard.UndoTurn | src/main/kotlin/model/ChessBoard.kt:159-178 | The in-place undo leaves exactly `UndoResult` of the old game and keeps the invariant. |
| Model.ChessBoard.IsStalemate | src/main/kotlin/model/ChessBoard.kt:306-360 | The early-return loop answers exactly `Stalemated`. When every pawn is on the board, as in every game the console reaches, that means no pawn of the side to move has a legal move (`Rules.StalemateIffNoLegalMove`, `Input.StalemateOutcomeIsExact`). |
| Model.ChessBoard.IsWhiteWins | src/main/kotlin/model/ChessBoard.kt:278-290 | True iff a White pawn stands on one of the eight squares of rank 7 or Black has no pawn. |
| Model.ChessBoard.IsBlackWins | src/main/kotlin/model/ChessBoard.kt:292-304 | True iff a Black pawn stands on rank 0 or White has no pawn. |
| Model.ChessBoard.Clone | src/main/kotlin/model/ChessBoard.kt:390-406 | The copy built pawn by pawn has the same state and the same two lists. |
| Notation.ConvertVerticalDigitToIndex | src/main/kotlin/Main.kt:152 | The result is in -1..8. It is a row of the board iff the digit is '1'..'8' (each then read as its own row, by `Notation.RankDigit`). '0' gives -1 and '9' gives 8. |
| Notation.RankDigit | src/main/kotlin/Main.kt:152 | The digit written for a row is read back as that row. |
| Notation.FileLetter | src/main/kotlin/Main.kt:138-150 | The letter written for a column is 'a'..'h', at that distance from 'a'. |
| Notation.RankDigitRoundTrip | src/main/kotlin/Main.kt:152 | Reading a rank digit and writing the row again gives the same digit. |
| Input.ConvertHorizontalLetterToIndex | src/main/kotlin/Main.kt:138-150 | 'a'..'h' become 0..7 in order, and map back to the same letter. Every other character becomes -1. |
| Input.SquareName | src/main/kotlin/Main.kt:131-136 | The name of a square is a file letter followed by a rank digit. |
| Input.ConvertPositionToSquare | src/main/kotlin/Main.kt:131-136 | Position[1] gives `horizontal` and position[0] gives `vertical`. The square is on the board iff both characters are in range, and then it is the square whose name is the first two characters. |
| Input.SquareNameRoundTrip | src/main/kotlin/Main.kt:131-136 | Reading the name of a square gives the square back. |
| Input.MatchedInputNamesTwoSquares | src/main/kotlin/Main.kt:119-122 | Input matching `[a-h][1-8][a-h][1-8]` yields two squares of the board, and the input is exactly their two names. |
| Input.EveryMoveCanBeTyped | src/main/kotlin/Main.kt:119-123 | Every move between squares of the board has an input that matches the pattern and is read back as that move. |
| Input.NonMoveInputChangesOnlyState | src/main/kotlin/Main.kt:124-127 | Input that is not a move leaves pawns and history alone. It gives `EndGame` iff it is "exit", and `InvalidInput` otherwise. |
| Input.ExitEndsTheGame | src/main/kotlin/Main.kt:124-125 | "exit" is not a move, so in every state it only sets `EndGame`. |
| Input.InputPreservesInvariant | src/main/kotlin/Main.kt:118-129 | Every input line keeps the game invariant. |
| Input.InitialGameReachable | src/main/kotlin/model/ChessBoard.kt:31-61 | The new board the program starts from is reachable: invariant, and every pawn on the board. |
| Input.InputKeepsReachable | src/main/kotlin/Main.kt:118-129 | Every input line keeps a reachable game reachable. Typed squares are on the board, so every pawn stays on the board. |
| Input.StalemateOutcomeIsExact | src/main/kotlin/model/ChessBoard.kt:93-103 | In a reachable game, after an accepted typed move the state is `Stalemate` iff the mover has not won and no pawn of the opponent has a legal move to any square. |
| Input.MakeTurn | src/main/kotlin/Main.kt:118-129 | Routing one line leaves exactly `InputResult` of the old game, and the board stays reachable. |
| Grid.ConvertHorizontalLetterToIndex | src/main/kotlin/chess/Main.kt:159-170 | Every character names a column 0..7. 'a'..'h' map back to the same letter. The result is below 7 iff the letter is 'a'..'g', so any other character aliases 'h'. |
| Grid.ConvertPositionToSquare | src/main/kotlin/chess/Main.kt:152-157 | Every letter gives a column. The square is on the board iff the digit is '1'..'8', and then the digit is read back as written. A letter 'a'..'h' is read back as written; any other letter reads as column 7, the 'h' file. |
| Grid.SwapKeepsCells | src/main/kotlin/chess/Main.kt:68-71 | Exchanging two cells keeps the multiset of cells. |
| Grid.ChessBoard.constructor | src/main/kotlin/chess/Main.kt:31-42 | The grid is 8 x 8, with "W" across row 1, "B" across row 6 and " " elsewhere, and the first player moves first. |
| Grid.ChessBoard.MoveRules | src/main/kotlin/chess/Main.kt:85-136 | Iff: the destination is empty, the file is kept, and the side to move moves its own colour. White goes +1 row, or +2 from row 1 over an empty row 2. Black goes -1 row, or -2 from row 6 over an empty row 5. |
| Grid.ChessBoard.MakeMove | src/main/kotlin/chess/Main.kt:63-83 | Returns whether the move was correct. If it was: the destination takes the start's letter, the start becomes " ", no other cell changes and the turn flips. If not, nothing changes. The multiset of cells is kept either way, so "W" and "B" counts never change. |
| Grid.ChessBoard.MovePawn | src/main/kotlin/chess/Main.kt:68-71 | The two cell writes onto an empty destination move the letter and keep the multiset of cells. |
| Scenarios.InitiallyBlank | src/main/kotlin/model/ChessBoard.kt:38-58 | Off ranks 1 and 6 the starting position is empty. |
| Scenarios.InitiallyWhite | src/main/kotlin/model/ChessBoard.kt:38-48 | Rank 1 holds White's pawns at the start. |
| Scenarios.OpeningDoubleStep | src/main/kotlin/model/ChessBoard.kt:66-107 | e2-e4 from the start moves the e-pawn to rank 3 and gives Black the move, with the starting board as the only snapshot. |
| Scenarios.OpeningDoubleStepIsLegal | src/main/kotlin/model/ChessBoard.kt:194-200 | The double step from rank 1 over an empty rank 2 is a legal plain move. |
| Scenarios.OpeningDoubleStepMoves | src/main/kotlin/model/ChessBoard.kt:76-93 | After e2-e4 the lists are the starting lists with the e-pawn moved. |
| Scenarios.OpeningDoubleStepContinues | src/main/kotlin/model/ChessBoard.kt:95-103 | After e2-e4 Black is not stalemated and White has not won. |
| Scenarios.OpeningDoubleStepAdvances | src/main/kotlin/model/ChessBoard.kt:74-103 | The accepted e2-e4 gives the expected game. |
| Scenarios.TooLongAdvanceIsUndone | src/main/kotlin/model/ChessBoard.kt:104-106 | e2-e5 gives `InvalidInput`, and undoing it restores the starting game. |
| Scenarios.EmptyStartIsUndone | src/main/kotlin/model/ChessBoard.kt:71-72 | A move from an empty square gives `NoWhiteFigureAtSquare`, and undoing it restores the starting game. |
| Scenarios.OpponentsPawnIsRejected | src/main/kotlin/model/ChessBoard.kt:113-114 | On Black's turn a White pawn cannot be moved. |
| Scenarios.EnPassantAfterDoubleStep | src/main/kotlin/model/ChessBoard.kt:76-81 | White on e5 takes en passant on d6 after d7-d5. The pawn on d5 disappears and Black is to move. |
| Scenarios.EnPassantAfterSingleStep | src/main/kotlin/model/ChessBoard.kt:251-256 | The look-back also admits a pawn that came to d5 by a single step. |
| Scenarios.EnPassantIsOneSided | src/main/kotlin/model/ChessBoard.kt:251-253 | White cannot take en passant toward the higher file. |
| Scenarios.BlockedPawnIsStalemate | src/main/kotlin/model/ChessBoard.kt:95-98 | a4-a5 blocks Black's last pawn on a6, and the result is `Stalemate`. |
| Scenarios.BlockedPawnAdvance | src/main/kotlin/model/ChessBoard.kt:93-103 | The accepted a4-a5 ends in `Stalemate` with the expected lists and history. |
| Scenarios.BlockedPawnHasNoOption | src/main/kotlin/model/ChessBoard.kt:332-359 | After a4-a5 Black's pawn has no probed option. |
| Scenarios.WinOverridesStalemate | src/main/kotlin/model/ChessBoard.kt:95-103 | Taking Black's last pawn leaves Black stalemated, but the state is White's win. |
| Scenarios.LastRankWins | src/main/kotlin/model/ChessBoard.kt:278-283 | A White pawn that reaches rank 7 wins. |
| Rules.IsWhiteFigure | src/main/kotlin/model/ChessBoard.kt:362-368 | No ensures; the body is the model: some White pawn stands on the square. Used by every rule lemma. |
| Rules.IsBlackFigure | src/main/kotlin/model/ChessBoard.kt:370-376 | No ensures; the body is the model: some Black pawn stands on the square. |
| Rules.IsBlankSquare | src/main/kotlin/model/ChessBoard.kt:378-388 | No ensures; the body is the model: no pawn of either side stands there. Characterised off the board by `Rules.OffBoardIsBlank`. |
| Rules.IsCorrectMove | src/main/kotlin/model/ChessBoard.kt:180-211 | No ensures; the body is the model. Characterised by `Rules.PlainMoveGeometry`. |
| Rules.IsCorrectCapture | src/main/kotlin/model/ChessBoard.kt:213-241 | No ensures; the body is the model. Characterised by `Rules.CaptureGeometry`. |
| Rules.IsCorrectEnPassant | src/main/kotlin/model/ChessBoard.kt:243-276 | No ensures; the body is the model. Characterised by `Rules.EnPassantGeometry` and `Rules.EnPassantLooksBackOnePly`. |
| Rules.WhiteHasOption | src/main/kotlin/model/ChessBoard.kt:312-330 | No ensures; the body is the model: the probes of the White loop. Related to legal moves by `Rules.OptionIsMove` and `Rules.NoOptionNoMove`. |
| Rules.BlackHasOption | src/main/kotlin/model/ChessBoard.kt:332-356 | No ensures; the body is the model: the probes of the Black loop. Related to legal moves by `Rules.OptionIsMove` and `Rules.NoOptionNoMove`. |
| Rules.Stalemated | src/main/kotlin/model/ChessBoard.kt:306-360 | No ensures; the body is the model. Characterised by `Rules.StalemateIffNoLegalMove`; computed by `Model.ChessBoard.IsStalemate`. |
| Rules.WhiteWon | src/main/kotlin/model/ChessBoard.kt:278-290 | No ensures; the body is the model. Computed by `Model.ChessBoard.IsWhiteWins`. |
| Rules.BlackWon | src/main/kotlin/model/ChessBoard.kt:292-304 | No ensures; the body is the model. Computed by `Model.ChessBoard.IsBlackWins`. |
| Turns.TurnResult | src/main/kotlin/model/ChessBoard.kt:64-157 | No ensures; the body is the model of one `makeTurn`. Characterised by `Turns.RejectionChangesOnlyState`, `Turns.OutcomeOfAcceptedMove`, `Turns.TerminalAndWaitingStates` and `Turns.TurnPreservesInvariant`; carried out by `Model.ChessBoard.MakeTurn`. |
| Turns.Moved | src/main/kotlin/model/ChessBoard.kt:76-93 | No ensures; the body is the model of the removals, the relocation and the hand-over. Characterised by `Turns.MovedWhiteEffects`, `Turns.MovedBlackEffects` and `Turns.MovedKeepsSquaresApart`. |
| Turns.Advance | src/main/kotlin/model/ChessBoard.kt:73-103 | No ensures; the body is the model of an accepted move (lines 116-145 for Black). Characterised by `Turns.AdvanceState` and `Turns.AdvancePreservesInvariant`; carried out by `Model.ChessBoard.MoveWhiteFigure` and `Model.ChessBoard.MoveBlackFigure`. |
| Input.MatchesMovePattern | src/main/kotlin/Main.kt:30 | No ensures; the body is the model of `[a-h][1-8][a-h][1-8]` matched against the whole line. Characterised by `Input.MatchedInputNamesTwoSquares` and `Input.EveryMoveCanBeTyped`. |
| Input.InputResult | src/main/kotlin/Main.kt:118-129 | No ensures; the body is the model of the routing. Characterised by `Input.NonMoveInputChangesOnlyState`, `Input.InputKeepsReachable` and `Input.InvalidInputIsUndone`; carried out by `Input.MakeTurn`. |
| Input.InvalidInputIsUndone | src/main/kotlin/Main.kt:126-127 | Input that is neither a move nor "exit" gives `InvalidInput`, and the undo that follows gives back the game exactly. |
| Grid.ChessBoard.IsCorrectMove | src/main/kotlin/chess/Main.kt:85-136 | No ensures; the body is the model. Characterised by `Grid.ChessBoard.MoveRules`. |
| Grid.ChessBoard.IsWhitePawn | src/main/kotlin/chess/Main.kt:148 | No ensures; the body is the model: the cell holds "W". |
| Grid.ChessBoard.IsBlackPawn | src/main/kotlin/chess/Main.kt:150 | No ensures; the body is the model: the cell holds "B". |
| Grid.ChessBoard.IsWhitePawnAt | src/main/kotlin/chess/Main.kt:138-141 | No ensures; the body is the model: the position is read as a square and tested with `IsWhitePawn`. |
| Grid.ChessBoard.IsBlackPawnAt | src/main/kotlin/chess/Main.kt:143-146 | No ensures; the body is the model: the position is read as a square and tested with `IsBlackPawn`. |
| Scenarios.FarRankOverridesStalemate | src/main/kotlin/model/ChessBoard.kt:95-103 | c7-c8 leaves Black, who still has a pawn, stalemated, yet the state is White's win. |

## Left out

- The `main()` loops of both programs are not modelled: they read lines,
  print prompts, read player names and print messages. Neither is
  `getBoard`, which only renders the board as text. Only the routing of one
  input line (`Input.MakeTurn`) is modelled.
- The Kotlin `Regex` engine. The one fixed pattern is the predicate
  `Input.MatchesMovePattern`, matched against the whole line as
  `String.matches` does.
- `Char.digitToInt` is modelled for the ASCII digits '0'..'9' only. The
  converters require a digit, which is what their callers guarantee once
  the pattern matched. Other Unicode digits, and the exception on a
  non-digit, are not modelled.
- The `previousTurns` history is one list per board here. In the source it
  sits in a companion object, so every `ChessBoard` shares it, including
  the copies `clone` makes. Sharing across games is not modelled.
- Pawns are the squares they stand on, and moving one replaces its square
  in the list. Pawn identity and object aliasing are not modelled; none is
  observable, since `clone` deep-copies and the lists are the only owners.
- `Cloneable`/`clone` mechanics: a snapshot is a value copy of the state
  and the two lists (`Model.ChessBoard.Clone`).
- The classes `Square`, `Figure`, `Pawn` and `GameState` are not part of
  this model. They become the datatype `Figures.Square` with structural
  equality, a pawn as its square, and the nine-valued `Rules.GameState`.
  The grid version's `chess.Square` is a class without structural
  equality. It is modelled by the same datatype, which is harmless because
  that code never compares squares.
- The public setter of `gameState` appears only as the two assignments
  `Input.MakeTurn` makes (`EndGame`, `InvalidInput`). They are the only ones
  the program makes from outside the board.
- Grid.ChessBoard.IsWhitePawnAt and Grid.ChessBoard.IsBlackPawnAt
  (`isWhitePawn`/`isBlackPawn` on a position string) are modelled without a
  contract. Their only caller is the message choice in the grid version's
  `main()`, which is left out.
- Grid.ChessBoard.MakeMove, Grid.ChessBoard.IsWhitePawnAt and
  Grid.ChessBoard.IsBlackPawnAt require rank digits '1'..'8'. A '0' or '9'
  gives row -1 or 8, and the source's cell access then throws an
  out-of-bounds exception. That exception is not modelled. The grid
  version's `main()` calls them only on input that matched
  `[a-h][1-8][a-h][1-8]` (chess/Main.kt:193, 209), so that input never
  reaches them.

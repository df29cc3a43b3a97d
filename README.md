# NOISYSTRESS draughts core in Dafny

This project models the core of NOISYSTRESS, an 8×8 draughts (checkers) game for iOS, and proves
properties of that model. It covers:

- **The rule engine `CheckersRules`** (`rules.dfy`). Per-piece move generation scans the
  directions in the code's order, with the simple step before the jump. `getValidMoves` scans
  the board row by row with forced capture. `executeStep` applies one step with capture and
  promotion. `checkForWinner` counts pieces.
- **The turn controller `CheckersViewModel`** (`viewmodel.dfy`). The class keeps the same fields
  as the Swift class. Each method is proved equal to a pure transition function on a
  `GameState` value, and the properties are lemmas about those functions. They cover tap
  handling, the pending-capture state, end of turn, the machine player's greedy follow-up
  loop and reset.
- **The search-side game model `CheckersGameModel`** (`ai.dfy`). It covers:
  - the move list offered to the search;
  - `apply`: one step, the greedy capture chain, one player flip;
  - the material score;
  - the win and loss predicates, `copy`, `setGameModel`;
  - player ids and the difficulty setting of `CheckersAI`.
- **The data types** (`types.dfy`, `move.dfy`) and the opening layout that all three
  `setupBoard` variants write (`setup.dfy`).
- **The older capture-free controller** of `Features/Checkers/ViewModels` (`legacy.dfy`), the
  `CheckersViewModel` declared in `ContentView.swift` (`contentview.dfy`), and the second,
  identical `CheckersAI` declaration (`ai_duplicate.dfy`). Each is its own module.

Boards are values: the Swift `[[Piece?]]` is a value type, so an `inout` board becomes a method
that takes a board and returns one. Where the Swift code loops, the Dafny code loops too, and the
loop is proved to compute the specification function in its `ensures`. Greedy chains are defined
as a recursive function over the board, `GreedyChain`. Its termination measure is the opponent's
piece count, because every step removes one opposing piece.

Three points where the model is deliberately exact about what the code does:

- **A pending capture locks the human player.** While `mustCaptureWithPosition` is set, every
  tap either re-selects the pending piece or is ignored, so the human can never finish a
  multi-jump (`PendingCaptureDeadlock`).
- **The picker does not reach the search.** The settings picker binds straight to
  `aiDifficulty` (NOISYSTRESS/Views/MainView.swift:16, NOISYSTRESS/Views/SettingsView.swift:18),
  and nothing calls `setDifficulty`. The search therefore keeps the depth of its last
  `updateDifficulty`, which is 3 (medium) from `init`. The class invariant `Valid` does not tie
  `ai` to `aiDifficulty`, so taps and the machine's reply are covered in that state too.
- **`setupBoard` keeps `validMoves`.** It does not reset them; they stay as they were
  (`ResetEffect`).

## Model

| member | source | states |
|---|---|---|
| CheckersTypes.PlayerRawValueRoundTrip | NOISYSTRESS/ContentView.swift:10-13 | the raw values are "White" and "Black"; decoding a player's raw value gives the player back, and a decoded string is that player's raw value |
| CheckersTypes.DifficultyRawValueRoundTrip | NOISYSTRESS/ContentView.swift:20-24 | easy = 1, medium = 3, hard = 5; `init(rawValue:)` succeeds exactly on 1, 3 and 5 and inverts `rawValue` |
| CheckersTypes.PositionEquality | NOISYSTRESS/ContentView.swift:32-35 | two positions are equal exactly when their rows and their columns are equal |
| CheckersTypes.EmptyBoard | NOISYSTRESS/ViewModels/CheckersViewModel.swift:14 | the default board has every square empty |
| CheckersTypes.ValidPositionIndexesBoard | NOISYSTRESS/Services/CheckersRules.swift:123-125 | `isValidPosition` holds exactly when the square's row and column index a square of the 8×8 board, so every board access it guards is in range |
| CheckersMoves.NewMove | NOISYSTRESS/Models/CheckersMove.swift:12-22 | the initialiser stores `from` and `to` unchanged; `intermediates` defaults to the empty list; `value` starts at 0 |
| CheckersMoves.Description | NOISYSTRESS/Models/CheckersMove.swift:24-26 | the text starts with `Move(` and ends with `)`; its exact format is pinned by `DescriptionExample` and its meaning by `DescriptionDeterminesSquares` |
| CheckersMoves.DescriptionExample | NOISYSTRESS/Models/CheckersMove.swift:24-26 | the move from (5,0) to (4,1) is written exactly `Move(5,0 -> 4,1)`, and the jump from (2,7) to (4,5) exactly `Move(2,7 -> 4,5)` |
| CheckersMoves.NatToStringDigits | NOISYSTRESS/Models/CheckersMove.swift:24-26 | the decimal text that interpolation writes for a number is a non-empty string of digits that reads back as the number |
| CheckersMoves.IntToStringInjective | NOISYSTRESS/Models/CheckersMove.swift:24-26 | different integers are written as different texts |
| CheckersMoves.DescriptionDeterminesSquares | NOISYSTRESS/Models/CheckersMove.swift:24-26 | two moves with the same `description` have the same `from` and the same `to` squares |
| CheckersRules.DirectionsAllowed | NOISYSTRESS/Services/CheckersRules.swift:97 | a direction is scanned exactly when it is a unit diagonal the piece may take: kings all four, white men row −1 only, black men row +1 only |
| CheckersRules.GetMovesForPiece | NOISYSTRESS/Services/CheckersRules.swift:95-117 | the loop over the directions returns `PieceMoves`, the moves of each direction in order, each direction giving its simple step before its jump |
| CheckersRules.PieceMovesShape | NOISYSTRESS/Services/CheckersRules.swift:99-116 | a move is generated for the piece exactly when it is a fresh move from its square to an empty on-board square that is either a (±1,±1) step in an allowed direction or a (±2,±2) jump in an allowed direction over an opponent piece |
| CheckersRules.PieceMovesFrom | NOISYSTRESS/Services/CheckersRules.swift:99-116 | every generated move starts on the piece's square, has no intermediates and has value 0 |
| CheckersRules.SortMoves | NOISYSTRESS/Services/CheckersRules.swift:25-31 | the inner loop appends the captures of the piece's list to `captureMoves` and the other moves to `simpleMoves`, each in list order |
| CheckersRules.CollectSquare | NOISYSTRESS/Services/CheckersRules.swift:21-32 | one square of the scan adds the captures and the simple moves of a piece of the player standing there, and nothing for any other square |
| CheckersRules.GetValidMoves | NOISYSTRESS/Services/CheckersRules.swift:15-45 | the nested scan returns `ValidMoves`: the captures of the row-major scan when there is one, and its simple moves otherwise |
| CheckersRules.ValidMovesExactly | NOISYSTRESS/Services/CheckersRules.swift:15-45 | a move is returned exactly when some piece of the player generates it and it is a capture exactly when any capture exists (forced capture) |
| CheckersRules.ValidMovesOwned | NOISYSTRESS/Services/CheckersRules.swift:19-23 | every returned move starts on a board square that holds a piece of the player |
| CheckersRules.ValidMovesUniform | NOISYSTRESS/Services/CheckersRules.swift:41-44 | two returned moves are either both captures or both simple moves |
| CheckersRules.ValidMovesEmpty | NOISYSTRESS/Services/CheckersRules.swift:15-45 | the list is empty exactly when no piece of the player has any move |
| CheckersRules.IsCapture | NOISYSTRESS/Services/CheckersRules.swift:119-121 | a move is a capture exactly when the absolute row difference of its squares is 2, and a capture always leaves its square; `PieceMovesShape` ties generated captures to jumps over an opponent piece |
| CheckersRules.CanCaptureAgain | NOISYSTRESS/Services/CheckersRules.swift:48-51 | true exactly when the piece's own move list, which is not filtered by forced capture, holds a move spanning two rows |
| CheckersRules.Landed | NOISYSTRESS/Services/CheckersRules.swift:71-75 | the landing piece keeps its player and gets `position = to`; it is a king exactly when it was one or a white piece reaches row 0 or a black piece reaches row 7; otherwise its kind is unchanged |
| CheckersRules.StepBoardEffect | NOISYSTRESS/Services/CheckersRules.swift:54-79 | after a step from an occupied square: the destination holds the landed piece, the source and (for a capture) the midpoint are empty, and every other square is unchanged |
| CheckersRules.ExecuteStep | NOISYSTRESS/Services/CheckersRules.swift:54-79 | from an empty square it returns false and leaves the board as it was; otherwise it leaves `StepBoard` and returns whether the move is a capture |
| CheckersRules.CaptureRemovesOpponent | NOISYSTRESS/Services/CheckersRules.swift:59-77 | a generated capture removes exactly one opposing piece and keeps the mover's piece count |
| CheckersRules.CountZero | NOISYSTRESS/Services/CheckersRules.swift:82-83 | a side's piece count is zero exactly when no square holds a piece of that side |
| CheckersRules.CheckForWinner | NOISYSTRESS/Services/CheckersRules.swift:81-91 | black wins exactly when white has no pieces (even when both sides are empty); white wins exactly when white has pieces and black has none; otherwise there is no winner |
| BoardSetup.FillRows | NOISYSTRESS/ViewModels/CheckersViewModel.swift:209-219 | one pair of setup loops places a man of the side, carrying its own square, on every dark square of the given rows and leaves every other square as it was |
| BoardSetup.Overlay | NOISYSTRESS/ContentView.swift:53-66 | both loop pairs together write the starting cell on every starting square and leave every other square as it was |
| BoardSetup.FillBothSides | NOISYSTRESS/ViewModels/CheckersViewModel.swift:209-219 | the white loops followed by the black loops give exactly that overlay |
| BoardSetup.OverlayEmpty | NOISYSTRESS/ViewModels/CheckersViewModel.swift:201-219 | on the cleared board, the overlay is the standard opening layout |
| BoardSetup.StandardBoardLayout | NOISYSTRESS/ViewModels/CheckersViewModel.swift:199-220 | in the opening layout, white men stand exactly on the dark squares of rows 5-7 and black men exactly on those of rows 0-2, each a man carrying its own square, and all other squares are empty |
| BoardSetup.StandardBoardCounts | NOISYSTRESS/ViewModels/CheckersViewModel.swift:199-220 | the opening layout holds exactly twelve pieces of each side |
| CheckersSearch.NewCheckersPlayer | NOISYSTRESS/Services/CheckersAI.swift:12-21 | `playerId` is 0 exactly for white and 1 exactly for black |
| CheckersSearch.PlayerIdsDistinct | NOISYSTRESS/Services/CheckersAI.swift:18 | two players get the same id exactly when they are the same player |
| CheckersSearch.FirstPlaying | NOISYSTRESS/Services/CheckersAI.swift:28-30 | the lookup returns nothing exactly when no listed player matches, and otherwise returns the first one that does |
| CheckersSearch.DefaultActivePlayer | NOISYSTRESS/Services/CheckersAI.swift:28-36 | with the two players set by `init`, the active player is the player object of the side to move |
| CheckersSearch.CapturesFromMembership | NOISYSTRESS/Services/CheckersAI.swift:86-87 | the filter keeps exactly the moves from the current square that are captures |
| CheckersSearch.OfferedCaptures | NOISYSTRESS/Services/CheckersAI.swift:86-89 | the captures from a square among the valid moves are that piece's own captures in its direction order when the square holds a piece of the mover, and none otherwise |
| CheckersSearch.NextCapture | NOISYSTRESS/Services/CheckersAI.swift:83-89 | the next step, when there is one, is a capture of the mover's piece on the square; for a mover's piece there is none exactly when `canCaptureAgain` is false |
| CheckersSearch.ChainStep | NOISYSTRESS/Services/CheckersAI.swift:89-91 | one chain step starts on the square, lands on the board, removes exactly one opposing piece, keeps the mover's count and leaves the mover's piece on the landing square |
| CheckersSearch.ChainCounts | NOISYSTRESS/Services/CheckersAI.swift:83-95 | the greedy loop removes exactly one opposing piece per step (so it ends) and keeps the mover's count |
| CheckersSearch.ChainIsCaptureRun | NOISYSTRESS/Services/CheckersAI.swift:83-95 | the steps taken are captures, each starting where the previous one landed, and the last lands on the final square |
| CheckersSearch.ChainAdvance | NOISYSTRESS/Services/CheckersAI.swift:83-95 | one loop iteration: with no capture left in the filtered list the loop stops; otherwise the first one is taken, it removes an opposing piece, and the rest of the chain continues from its landing square |
| CheckersSearch.ChainHalts | NOISYSTRESS/Services/CheckersAI.swift:83-84 | when the square is empty or its piece cannot capture again, the chain takes no step |
| CheckersSearch.ChainStopsQuiet | NOISYSTRESS/Services/CheckersAI.swift:83-95 | starting from a mover's piece, the chain ends on a square holding a mover's piece that has no capture left |
| CheckersSearch.FollowChain | NOISYSTRESS/Services/CheckersAI.swift:82-95 | the `while` loop leaves the board of the greedy chain |
| CheckersSearch.ApplyLegalCapture | NOISYSTRESS/Services/CheckersAI.swift:73-100 | for one of the mover's legal captures, `apply` ends with the mover's piece on a square where it cannot capture again, with one opposing piece fewer per capture taken and the mover's count unchanged |
| CheckersSearch.PieceValue | NOISYSTRESS/Services/CheckersAI.swift:109 | a piece is worth 1 or 5, and 5 exactly when it is a king |
| CheckersSearch.ScoreIsMaterialDifference | NOISYSTRESS/Services/CheckersAI.swift:102-119 | the score is the player's material minus the opponent's, so the white score is the negation of the black score |
| CheckersSearch.CheckersGameModel.constructor | NOISYSTRESS/Services/CheckersAI.swift:32-36 | stores the board and the side to move, and sets the players to white then black |
| CheckersSearch.CheckersGameModel.ActivePlayer | NOISYSTRESS/Services/CheckersAI.swift:28-30 | with the default players it is the player object of the side to move; there is none without players |
| CheckersSearch.CheckersGameModel.SetGameModel | NOISYSTRESS/Services/CheckersAI.swift:40-45 | copies the other model's board and side to move and nothing else |
| CheckersSearch.CheckersGameModel.IsWin | NOISYSTRESS/Services/CheckersAI.swift:47-50 | true exactly when the winner test names this player |
| CheckersSearch.CheckersGameModel.IsLoss | NOISYSTRESS/Services/CheckersAI.swift:52-56 | true exactly when the winner test names the other player |
| CheckersSearch.WinLossExclusive | NOISYSTRESS/Services/CheckersAI.swift:47-56 | a player never both wins and loses, and does neither while there is no winner |
| CheckersSearch.CheckersGameModel.GameModelUpdates | NOISYSTRESS/Services/CheckersAI.swift:58-71 | nil exactly when the player has no generated move; otherwise exactly the non-empty list `getValidMoves` returns |
| CheckersSearch.CheckersGameModel.Apply | NOISYSTRESS/Services/CheckersAI.swift:73-100 | the board becomes the board after the step and, if it captured, after the greedy chain; the side to move flips exactly once |
| CheckersSearch.CheckersGameModel.Score | NOISYSTRESS/Services/CheckersAI.swift:102-119 | the nested loop computes the board score of the player (see `ScoreIsMaterialDifference`) |
| CheckersSearch.CheckersGameModel.Copy | NOISYSTRESS/Services/CheckersAI.swift:121-124 | a fresh model with the same board and side to move and the default players |
| CheckersSearch.CheckersAI.constructor | NOISYSTRESS/Services/CheckersAI.swift:188-193 | stores the level and sets the look-ahead depth to its raw value |
| CheckersSearch.CheckersAI.UpdateDifficulty | NOISYSTRESS/Services/CheckersAI.swift:195-198 | the level becomes the new one and the look-ahead depth its raw value, 1, 3 or 5 |
| CheckersSearchDuplicate.CheckersAI.constructor | NOISYSTRESS/Services/CheckersAI.swift:216-221 | the second declaration: stores the level and sets the look-ahead depth to its raw value |
| CheckersSearchDuplicate.CheckersAI.UpdateDifficulty | NOISYSTRESS/Services/CheckersAI.swift:223-226 | the second declaration: the level becomes the new one and the look-ahead depth its raw value, 1, 3 or 5 |
| ViewModel.MovesFrom | NOISYSTRESS/ViewModels/CheckersViewModel.swift:84 | keeps exactly the moves that start on the given square |
| ViewModel.Targets | NOISYSTRESS/ViewModels/CheckersViewModel.swift:87 | the list of `to` squares of the moves, position by position |
| ViewModel.ValidTargetsExactly | NOISYSTRESS/ViewModels/CheckersViewModel.swift:76-92 | a square is offered exactly when the selected square holds a piece and the move to that square is one of `getValidMoves`; offers exist only for a piece of the side to move |
| ViewModel.CaptureOffersTargets | NOISYSTRESS/ViewModels/CheckersViewModel.swift:76-92 | for a piece of the side to move that can capture again, the offered squares are non-empty and all two rows away |
| ViewModel.TurnFinishedEffect | NOISYSTRESS/ViewModels/CheckersViewModel.swift:114-129 | `finishTurn` clears the pending capture, sets the winner from the winner test, flips the side exactly when both sides still have pieces, and changes nothing else |
| ViewModel.TapGuard | NOISYSTRESS/ViewModels/CheckersViewModel.swift:35 | a tap changes nothing unless white is to move and nobody has won |
| ViewModel.TappedConsistent | NOISYSTRESS/ViewModels/CheckersViewModel.swift:33-64 | a tap keeps the selection on the board and equal to the pending piece while one is pending |
| ViewModel.PendingCaptureFrozen | NOISYSTRESS/ViewModels/CheckersViewModel.swift:38-43 | while a capture is pending, a tap either changes nothing or re-selects the pending piece; the board, side, winner, last move, pending square and selection stay the same |
| ViewModel.PendingCaptureDeadlock | NOISYSTRESS/ViewModels/CheckersViewModel.swift:38-43 | once a capture is pending, no sequence of taps changes the board, the side to move, the winner, the last move or the pending square |
| ViewModel.TapSelectedDeselects | NOISYSTRESS/ViewModels/CheckersViewModel.swift:46-48 | tapping the selected square clears the selection and the offered squares, and changes nothing else |
| ViewModel.TappedTargetsCurrent | NOISYSTRESS/ViewModels/CheckersViewModel.swift:76-92 | taps keep the offered squares equal to the targets of `getValidMoves` from the selected square |
| ViewModel.HumanMoveGuard | NOISYSTRESS/ViewModels/CheckersViewModel.swift:52-56 | a tap changes the board only when white is to move, nobody has won, no capture is pending, a piece is selected, the tapped square is empty and offered, and the move is one of `getValidMoves`; the tap then performs that move |
| ViewModel.MovedEffect | NOISYSTRESS/ViewModels/CheckersViewModel.swift:94-112 | after a capture whose piece can capture again, the landing square is both pending and selected, with its targets offered, and the side and winner are unchanged; otherwise the step is on the board and shown as the last move, selection, targets and pending capture are cleared, the winner comes from the winner test, and the side flips exactly when there is no winner |
| ViewModel.ContinuationStalls | NOISYSTRESS/ViewModels/CheckersViewModel.swift:101-108 | after such a capture the continuation is offered, yet no further tap moves the board |
| ViewModel.ResetEffect | NOISYSTRESS/ViewModels/CheckersViewModel.swift:199-220 | reset gives the standard layout with twelve pieces per side, white to move, no winner, selection, pending capture or last move, and the offered squares as they were |
| ViewModel.LastStepLands | NOISYSTRESS/ViewModels/CheckersViewModel.swift:168-188 | after a run of captures, the last move shown ends on the final landing square |
| ViewModel.FollowCaptures | NOISYSTRESS/ViewModels/CheckersViewModel.swift:168-188 | the follow-up loop leaves the board of the greedy chain and, as last move, its last step (or the machine's own move when there is none) |
| ViewModel.AIMovedEffect | NOISYSTRESS/ViewModels/CheckersViewModel.swift:150-192 | the machine's move leaves the same board as `apply`; the last move shown ends on the final landing square; `finishTurn` runs once: no pending capture, winner from the winner test, side flipped exactly when there is no winner |
| ViewModel.AIMovedLegalCapture | NOISYSTRESS/ViewModels/CheckersViewModel.swift:159-188 | for a legal capture, each follow-up step takes one more opposing piece, and the sequence ends on a piece of the mover that cannot capture again |
| ViewModel.AIRepliedConsistent | NOISYSTRESS/ViewModels/CheckersViewModel.swift:137-146 | the main-actor end of the machine's turn keeps the state consistent and leaves nothing selected |
| ViewModel.CheckersViewModel.constructor | NOISYSTRESS/ViewModels/CheckersViewModel.swift:14-31 | the default fields followed by `setupBoard()`; the machine player plays at medium difficulty |
| ViewModel.CheckersViewModel.HandleTap | NOISYSTRESS/ViewModels/CheckersViewModel.swift:33-64 | the new state is `Tapped` of the old one, branch for branch; the offered targets stay those of the selected piece, and a tap that changes the board plays one of white's legal moves from the selected square |
| ViewModel.CheckersViewModel.SelectPiece | NOISYSTRESS/ViewModels/CheckersViewModel.swift:66-69 | selects the square and offers its targets |
| ViewModel.CheckersViewModel.DeselectPiece | NOISYSTRESS/ViewModels/CheckersViewModel.swift:71-74 | clears the selection and the offered squares |
| ViewModel.CheckersViewModel.CalculateValidMoves | NOISYSTRESS/ViewModels/CheckersViewModel.swift:76-92 | offers the targets of `getValidMoves` from the square and changes nothing else |
| ViewModel.CheckersViewModel.PerformMove | NOISYSTRESS/ViewModels/CheckersViewModel.swift:94-112 | the new state is `Moved` of the old one |
| ViewModel.CheckersViewModel.FinishTurn | NOISYSTRESS/ViewModels/CheckersViewModel.swift:114-121 | the new state is `TurnFinished` of the old one |
| ViewModel.CheckersViewModel.TogglePlayer | NOISYSTRESS/ViewModels/CheckersViewModel.swift:123-129 | the side to move flips and nothing else changes |
| ViewModel.CheckersViewModel.CompleteAIMove | NOISYSTRESS/ViewModels/CheckersViewModel.swift:137-146 | with no move found, `finishTurn()`; otherwise the machine's move sequence; the state stays consistent with nothing selected |
| ViewModel.CheckersViewModel.PerformAIMoveSequence | NOISYSTRESS/ViewModels/CheckersViewModel.swift:150-192 | the new state is `AIMoved` of the old one |
| ViewModel.CheckersViewModel.SetDifficulty | NOISYSTRESS/ViewModels/CheckersViewModel.swift:194-197 | the stored level, the machine player's level and its look-ahead depth follow the new level, whatever they were before; the game state is unchanged |
| ViewModel.CheckersViewModel.SetupBoard | NOISYSTRESS/ViewModels/CheckersViewModel.swift:199-220 | the new state is `Reset` of the old one |
| LegacyController.IsValidMove | NOISYSTRESS/Features/Checkers/ViewModels/CheckersViewModel.swift:49-73 | an accepted move has an on-board target, an occupied start, and a one-row, one-column difference, so it is never a two-step jump |
| LegacyController.IsValidMoveExactly | NOISYSTRESS/Features/Checkers/ViewModels/CheckersViewModel.swift:49-73 | a move is accepted exactly when the target is on the board, the start holds a piece, and the step is a unit diagonal the rules allow that piece (kings either way, white men row −1, black men row +1) |
| LegacyController.IsValidMoveIsSimpleMove | NOISYSTRESS/Features/Checkers/ViewModels/CheckersViewModel.swift:53-72 | onto an empty square, a move is accepted exactly when the rule engine generates it for that piece as a simple move |
| LegacyController.MovedPieceEffect | NOISYSTRESS/Features/Checkers/ViewModels/CheckersViewModel.swift:75-91 | the start is emptied; the target holds the piece with its position set to the target, promoted on row 0 (white) or row 7 (black); every other square is unchanged; an empty start changes nothing |
| LegacyController.MovedPieceIsStep | NOISYSTRESS/Features/Checkers/ViewModels/CheckersViewModel.swift:75-91 | for an accepted move, `movePiece` leaves the same board as the rule engine's `executeStep` |
| LegacyController.MovedPieceKeepsCounts | NOISYSTRESS/Features/Checkers/ViewModels/CheckersViewModel.swift:75-91 | a move onto an empty square keeps both sides' piece counts |
| LegacyController.Tapped | NOISYSTRESS/Features/Checkers/ViewModels/CheckersViewModel.swift:25-47 | a tap keeps any selection on a piece of the side to move |
| LegacyController.TapSelectedDeselects | NOISYSTRESS/Features/Checkers/ViewModels/CheckersViewModel.swift:27-29 | tapping the selected square clears the selection and changes nothing else |
| LegacyController.TapOwnPieceSelects | NOISYSTRESS/Features/Checkers/ViewModels/CheckersViewModel.swift:30-32 | tapping another piece of the side to move selects it and changes nothing else |
| LegacyController.TapOpponentIgnored | NOISYSTRESS/Features/Checkers/ViewModels/CheckersViewModel.swift:25-46 | tapping a piece of the other side changes nothing |
| LegacyController.TapMoveGuard | NOISYSTRESS/Features/Checkers/ViewModels/CheckersViewModel.swift:33-39 | the board changes only when a piece is selected, the tapped square is empty and the move is accepted; then the move is made, the selection cleared and the side flipped; no tap changes either side's piece count |
| LegacyController.ResetLayout | NOISYSTRESS/Features/Checkers/ViewModels/CheckersViewModel.swift:101-119 | after setup, each side has twelve men on the dark squares of its three home rows, each carrying its own square |
| LegacyController.CheckersViewModel.constructor | NOISYSTRESS/Features/Checkers/ViewModels/CheckersViewModel.swift:14-23 | the default fields followed by `setupBoard()`: the standard layout, white to move, nothing selected, medium difficulty |
| LegacyController.CheckersViewModel.HandleTap | NOISYSTRESS/Features/Checkers/ViewModels/CheckersViewModel.swift:25-47 | the new state is `Tapped` of the old one |
| LegacyController.CheckersViewModel.MovePiece | NOISYSTRESS/Features/Checkers/ViewModels/CheckersViewModel.swift:75-91 | only the board changes, to `MovedPiece` of the old board |
| LegacyController.CheckersViewModel.TogglePlayer | NOISYSTRESS/Features/Checkers/ViewModels/CheckersViewModel.swift:93-95 | the side to move flips and nothing else changes |
| LegacyController.CheckersViewModel.SetDifficulty | NOISYSTRESS/Features/Checkers/ViewModels/CheckersViewModel.swift:97-99 | only the stored level changes |
| LegacyController.CheckersViewModel.SetupBoard | NOISYSTRESS/Features/Checkers/ViewModels/CheckersViewModel.swift:101-119 | the board is cleared and filled with the standard layout, white is to move and nothing is selected, whatever the state before |
| ContentViewController.OverlayPlacesMen | NOISYSTRESS/ContentView.swift:53-66 | each starting square gets a normal man of its side whose position is that square; every other square keeps what it held |
| ContentViewController.OverlayIdempotent | NOISYSTRESS/ContentView.swift:53-66 | running the setup a second time changes nothing |
| ContentViewController.OverlayIsStandardExactly | NOISYSTRESS/ContentView.swift:53-66 | because the board is not cleared first, setup gives the standard layout exactly when every square it does not write was already empty |
| ContentViewController.CheckersViewModel.constructor | NOISYSTRESS/ContentView.swift:38-46 | the default (empty) board followed by `setupBoard()` gives the standard layout, with white to move at medium difficulty |
| ContentViewController.CheckersViewModel.SetDifficulty | NOISYSTRESS/ContentView.swift:48-51 | only the stored level changes |
| ContentViewController.CheckersViewModel.SetupBoard | NOISYSTRESS/ContentView.swift:53-66 | the board becomes the overlay of the old board; the side to move and the level are unchanged |

## Left out

- The GameplayKit search (`GKMinmaxStrategist`, `GKARC4RandomSource`, `bestMove`) is a foreign
  library. The move it picks is the input `result` of `CompleteAIMove`.
- The asynchronous part of `makeAIMove` is left out: `Task.detached`, the half-second sleep,
  `MainActor.run` and the weak `self`. That covers concurrency, timing and the unguarded race
  where a reset lands during the search. `togglePlayer` starting the machine's turn is that
  same hop, so `TogglePlayer` only flips the side.
- SwiftUI views and the `@Observable`/`@Published` observation wrappers are UI.
- The protocol plumbing is replaced by plain datatypes: `NSObject`, the `GKGameModelPlayer` and
  `GKGameModelUpdate` conformance and casts, and `NSZone`. The cast guards (`as? CheckersPlayer`,
  `as? CheckersMove`) therefore never fail in the model.
- Dead code: Features/Checkers/Services/CheckersAI.swift (entirely commented out), the commented
  block at the end of ContentView.swift, and the unused private helpers of `CheckersGameModel`
  (CheckersAI.swift:128-180). None of them is ever called.
- `CheckersMove.value`: nothing in the app's code writes it after the initialiser, but it is the
  `GKGameModelUpdate` property the strategist may set on the moves it ranks. `CompleteAIMove`
  accepts a result with any `value`, and no member reads it.
- Tapped squares and move squares are required to be on the board. Taps come only from the 8×8
  grid, and Swift would trap on an off-board index.
- CheckersSearch.CheckersGameModel.Apply: the greedy `while` loop runs on a local board value
  (`FollowChain`) that is then assigned to the field, not on the field itself.
- ViewModel.CheckersViewModel.PerformAIMoveSequence: the follow-up loop runs on local values
  (`FollowCaptures`) that are then assigned to the fields.
- CheckersSearch.ApplyLegalCapture: "the piece on the final square has no capture left" is
  stated for capture moves only. After a simple move `apply` takes no chain, and the moved
  piece may still have a capture.
- ViewModel.CheckersViewModel.CompleteAIMove: requires that nothing be selected. That holds
  whenever the machine is to move, because every path that hands the turn over clears the
  selection.

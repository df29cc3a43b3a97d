/**
 * The older, capture-free controller of Features/Checkers/ViewModels/CheckersViewModel.swift:
 * select a piece, then move it one diagonal step forward (any way for a king); no jumps, no
 * forced capture, no winner test.
 */
module LegacyController {
  import opened Options
  import opened CheckersTypes
  import opened CheckersMoves
  import opened CheckersRules
  import opened BoardSetup

  /** The fields a tap reads and writes: the board, the side to move and the selection. */
  datatype TapState = TapState(board: Board, currentPlayer: Player, selectedPosition: Option<Position>)

  /**
   * A selection, when there is one, is a square of the board (taps only come from the 8x8 grid)
   * holding a piece of the side to move: only such a tap selects, and a move clears the selection.
   */
  predicate Consistent(s: TapState) {
    s.selectedPosition.Some? ==>
      IsValidPosition(s.selectedPosition.value) && OwnedBy(s.board, s.selectedPosition.value, s.currentPlayer)
  }

  /**
   * `isValidMove(from:to:)`: the target is on the board, one column over, and one row over in a
   * direction the piece on `start` may take; an empty `start` never moves.
   */
  function IsValidMove(b: Board, start: Position, end: Position): (ok: bool)
    requires IsValidPosition(start)
    ensures ok ==> IsValidPosition(end) && At(b, start).Some?
    ensures ok ==> ((end.row - start.row == 1 || end.row - start.row == -1)
                    && (end.column - start.column == 1 || end.column - start.column == -1))
  {
    if !IsValidPosition(end) then false
    else
      var rowDiff := end.row - start.row;
      var colDiff := end.column - start.column;
      if colDiff != 1 && colDiff != -1 then false
      else
        match At(b, start)
        case None => false
        case Some(piece) =>
          if piece.kind == King then rowDiff == 1 || rowDiff == -1
          else if piece.player == White then rowDiff == -1
          else rowDiff == 1
  }

  /** The validator accepts exactly the unit diagonal steps the rules allow the piece on `start`. */
  lemma IsValidMoveExactly(b: Board, start: Position, end: Position)
    requires IsValidPosition(start)
    ensures IsValidMove(b, start, end) <==>
      IsValidPosition(end) && At(b, start).Some?
      && IsUnitDiagonal((end.row - start.row, end.column - start.column))
      && MayAdvance(At(b, start).value, end.row - start.row)
  {
  }

  /**
   * Onto an empty square, the validator accepts exactly the simple (non-capturing) moves that the
   * rule engine's `getMovesForPiece` generates for the piece on `start`.
   */
  lemma IsValidMoveIsSimpleMove(b: Board, start: Position, end: Position)
    requires IsValidPosition(start) && At(b, start).Some?
    ensures (IsValidMove(b, start, end) && At(b, end).None?) <==>
      NewMove(start, end) in PieceMoves(b, At(b, start).value, start) && !IsCapture(NewMove(start, end))
  {
    var m := NewMove(start, end);
    PieceMovesShape(b, At(b, start).value, start, m);
  }

  /** `movePiece(from:to:)`: `start` emptied, the piece (promoted on the far row) placed on `end`. */
  function MovedPiece(b: Board, start: Position, end: Position): Board
    requires IsValidPosition(start) && IsValidPosition(end)
  {
    match At(b, start)
    case None => b
    case Some(piece) => Set(Set(b, start, None), end, Some(Landed(piece, end)))
  }

  /** Square by square: the landing square gets the moved piece, `start` is emptied, nothing else changes. */
  lemma MovedPieceEffect(b: Board, start: Position, end: Position, q: Position)
    requires IsValidPosition(start) && IsValidPosition(end) && IsValidPosition(q)
    ensures At(b, start).None? ==> At(MovedPiece(b, start, end), q) == At(b, q)
    ensures At(b, start).Some? ==> (At(MovedPiece(b, start, end), q) ==
      if q == end then Some(At(b, start).value.(kind := if Promotes(At(b, start).value.player, end.row) then King
                                                         else At(b, start).value.kind,
                                               position := end))
      else if q == start then None
      else At(b, q))
  {
  }

  /** On an accepted move, `movePiece` does what the rule engine's `executeStep` does with that move. */
  lemma MovedPieceIsStep(b: Board, start: Position, end: Position)
    requires IsValidPosition(start) && IsValidMove(b, start, end)
    ensures MovedPiece(b, start, end) == StepBoard(b, NewMove(start, end))
  {
  }

  /** A move onto an empty square takes nothing: both sides keep their piece counts. */
  lemma MovedPieceKeepsCounts(b: Board, start: Position, end: Position, player: Player)
    requires IsValidPosition(start) && IsValidPosition(end) && start != end && At(b, end).None?
    ensures PieceCount(MovedPiece(b, start, end), player) == PieceCount(b, player)
  {
    if At(b, start).Some? {
      var piece := At(b, start).value;
      var cleared := Set(b, start, None);
      CountSet(b, start, None, player);
      CountSet(cleared, end, Some(Landed(piece, end)), player);
    }
  }

  /** `handleTap(at:)`, branch by branch. */
  function Tapped(s: TapState, pos: Position): (r: TapState)
    requires Consistent(s) && IsValidPosition(pos)
    ensures Consistent(r)
  {
    match s.selectedPosition
    case Some(selected) =>
      if selected == pos then s.(selectedPosition := None)
      else if OwnedBy(s.board, pos, s.currentPlayer) then s.(selectedPosition := Some(pos))
      else if At(s.board, pos).None? then
        if IsValidMove(s.board, selected, pos) then
          TapState(MovedPiece(s.board, selected, pos), Opponent(s.currentPlayer), None)
        else s
      else s
    case None =>
      if OwnedBy(s.board, pos, s.currentPlayer) then s.(selectedPosition := Some(pos)) else s
  }

  /** Tapping the selected square clears the selection and changes nothing else. */
  lemma TapSelectedDeselects(s: TapState, pos: Position)
    requires Consistent(s) && IsValidPosition(pos) && s.selectedPosition == Some(pos)
    ensures Tapped(s, pos) == s.(selectedPosition := None)
  {
  }

  /** Tapping another piece of the side to move selects it and changes nothing else. */
  lemma TapOwnPieceSelects(s: TapState, pos: Position)
    requires Consistent(s) && IsValidPosition(pos) && s.selectedPosition != Some(pos)
    requires OwnedBy(s.board, pos, s.currentPlayer)
    ensures Tapped(s, pos) == s.(selectedPosition := Some(pos))
  {
  }

  /** Tapping a piece of the other side changes nothing at all. */
  lemma TapOpponentIgnored(s: TapState, pos: Position)
    requires Consistent(s) && IsValidPosition(pos) && OwnedBy(s.board, pos, Opponent(s.currentPlayer))
    ensures Tapped(s, pos) == s
  {
  }

  /**
   * A tap moves a piece exactly when a piece is selected, the tapped square is empty and the
   * validator accepts the step; the move then clears the selection and passes the turn, and it
   * captures nothing.
   */
  lemma TapMoveGuard(s: TapState, pos: Position)
    requires Consistent(s) && IsValidPosition(pos)
    ensures var r := Tapped(s, pos);
      r.board != s.board ==>
        s.selectedPosition.Some? && At(s.board, pos).None? && IsValidMove(s.board, s.selectedPosition.value, pos)
    ensures s.selectedPosition.Some? && At(s.board, pos).None? && IsValidMove(s.board, s.selectedPosition.value, pos)
      ==> Tapped(s, pos) == TapState(MovedPiece(s.board, s.selectedPosition.value, pos), Opponent(s.currentPlayer), None)
    ensures var r := Tapped(s, pos);
      PieceCount(r.board, White) == PieceCount(s.board, White) && PieceCount(r.board, Black) == PieceCount(s.board, Black)
  {
    var r := Tapped(s, pos);
    if r.board != s.board {
      var selected := s.selectedPosition.value;
      MovedPieceKeepsCounts(s.board, selected, pos, White);
      MovedPieceKeepsCounts(s.board, selected, pos, Black);
    }
  }

  /** The state `setupBoard()` leaves: the standard layout, white to move, nothing selected. */
  function Reset(): (s: TapState)
    ensures Consistent(s)
  {
    TapState(StandardBoard(), White, None)
  }

  /** After `setupBoard()`, each side has its twelve men on the dark squares of its three home rows. */
  lemma ResetLayout(q: Position)
    requires IsValidPosition(q)
    ensures PieceCount(Reset().board, White) == 12 && PieceCount(Reset().board, Black) == 12
    ensures OwnedBy(Reset().board, q, White) <==> 5 <= q.row && (q.row + q.column) % 2 == 1
    ensures OwnedBy(Reset().board, q, Black) <==> q.row < 3 && (q.row + q.column) % 2 == 1
    ensures At(Reset().board, q).Some? ==> At(Reset().board, q).value == Man(At(Reset().board, q).value.player, q)
  {
    StandardBoardCounts(White);
    StandardBoardCounts(Black);
    StandardBoardLayout(q);
  }

  /** The controller object, with the fields its methods update in place. */
  class CheckersViewModel {
    var board: Board
    var currentPlayer: Player
    var aiDifficulty: DifficultyLevel
    var selectedPosition: Option<Position>

    function State(): TapState
      reads this
    {
      TapState(board, currentPlayer, selectedPosition)
    }

    ghost predicate Valid()
      reads this
    {
      Consistent(State())
    }

    /** `init()`: the default field values, then `setupBoard()`. */
    constructor()
      ensures Valid() && State() == Reset() && aiDifficulty == Medium
    {
      board := EmptyBoard();
      currentPlayer := White;
      aiDifficulty := Medium;
      selectedPosition := None;
      new;
      SetupBoard();
    }

    /** `handleTap(at:)`. */
    method HandleTap(position: Position)
      requires Valid() && IsValidPosition(position)
      modifies this
      ensures Valid() && State() == Tapped(old(State()), position) && aiDifficulty == old(aiDifficulty)
    {
      if selectedPosition.Some? {
        var selected := selectedPosition.value;
        if selected == position {
          selectedPosition := None;
        } else if At(board, position).Some? && At(board, position).value.player == currentPlayer {
          selectedPosition := Some(position);
        } else if At(board, position).None? {
          if IsValidMove(board, selected, position) {
            MovePiece(selected, position);
            selectedPosition := None;
            TogglePlayer();
          }
        }
      } else {
        if At(board, position).Some? && At(board, position).value.player == currentPlayer {
          selectedPosition := Some(position);
        }
      }
    }

    /** `movePiece(from:to:)`: lift the piece, promote it on the far row, set its position, place it. */
    method MovePiece(start: Position, end: Position)
      requires IsValidPosition(start) && IsValidPosition(end)
      modifies this
      ensures State() == old(State()).(board := MovedPiece(old(board), start, end))
      ensures aiDifficulty == old(aiDifficulty)
    {
      if At(board, start).None? {
        return;
      }
      var piece := At(board, start).value;
      board := Set(board, start, None);
      if (piece.player == White && end.row == 0) || (piece.player == Black && end.row == 7) {
        piece := piece.(kind := King);
      }
      piece := piece.(position := end);
      board := Set(board, end, Some(piece));
    }

    /** `togglePlayer()`. */
    method TogglePlayer()
      modifies this
      ensures State() == old(State()).(currentPlayer := Opponent(old(currentPlayer)))
      ensures aiDifficulty == old(aiDifficulty)
    {
      currentPlayer := if currentPlayer == White then Black else White;
    }

    /** `setDifficulty(_:)`: only the stored level changes. */
    method SetDifficulty(difficulty: DifficultyLevel)
      modifies this
      ensures State() == old(State()) && aiDifficulty == difficulty
    {
      aiDifficulty := difficulty;
    }

    /** `setupBoard()`: clear the board and the selection, white to move, then the two filling loops. */
    method SetupBoard()
      modifies this
      ensures Valid() && State() == Reset() && aiDifficulty == old(aiDifficulty)
    {
      board := EmptyBoard();
      selectedPosition := None;
      currentPlayer := White;
      ghost var cleared := board;
      board := FillRows(board, 5, 8, White);
      ghost var white := board;
      board := FillRows(board, 0, 3, Black);
      FillBothSides(cleared, white, board);
      OverlayEmpty();
    }
  }
}

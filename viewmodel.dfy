/**
 * The turn controller `CheckersViewModel` (NOISYSTRESS/ViewModels/CheckersViewModel.swift): the
 * board, whose turn it is, the winner, the human's selection and its targets, the last move shown,
 * and the square of a capture chain the human has still to continue.
 *
 * Each transition is a function on `GameState`; the class's methods are proved to perform it.
 */
module ViewModel {
  import opened Options
  import opened CheckersTypes
  import opened CheckersMoves
  import opened CheckersRules
  import opened CheckersSearch
  import opened BoardSetup

  /** The fields of the view model that its transitions read and write. */
  datatype GameState = GameState(
    board: Board,
    currentPlayer: Player,
    winner: Option<Player>,
    selectedPosition: Option<Position>,
    validMoves: seq<Position>,
    lastMove: Option<(Position, Position)>,
    mustCaptureWithPosition: Option<Position>)

  /**
   * What every transition keeps: a selection is a square of the board, and a pending capture
   * is always the selected piece.
   */
  predicate Consistent(s: GameState) {
    (s.selectedPosition.Some? ==> IsValidPosition(s.selectedPosition.value))
    && (s.mustCaptureWithPosition.Some? ==> s.selectedPosition == s.mustCaptureWithPosition)
  }

  // The targets shown for a selected piece.

  /** `filter { $0.from == position }`, keeping the order of the list. */
  function MovesFrom(ms: seq<CheckersMove>, pos: Position): (r: seq<CheckersMove>)
    ensures forall m :: m in r <==> m in ms && m.from == pos
  {
    if ms == [] then []
    else (if ms[0].from == pos then [ms[0]] else []) + MovesFrom(ms[1..], pos)
  }

  /** `map { $0.to }`. */
  function Targets(ms: seq<CheckersMove>): (ts: seq<Position>)
    ensures |ts| == |ms|
    ensures forall i :: 0 <= i < |ms| ==> ts[i] == ms[i].to
  {
    seq(|ms|, i requires 0 <= i < |ms| => ms[i].to)
  }

  /** `calculateValidMoves(for:)`: nothing for an empty square, else the landing squares of that square's legal moves. */
  function ValidTargets(b: Board, player: Player, pos: Position): seq<Position>
    requires IsValidPosition(pos)
  {
    if At(b, pos).None? then [] else Targets(MovesFrom(ValidMoves(b, player), pos))
  }

  /**
   * A square is offered as a target exactly when the step from the selected piece to it is one
   * of the side's legal moves; only a piece of the side to move is offered anything.
   */
  lemma ValidTargetsExactly(b: Board, player: Player, pos: Position, t: Position)
    requires IsValidPosition(pos)
    ensures t in ValidTargets(b, player, pos) <==> At(b, pos).Some? && NewMove(pos, t) in ValidMoves(b, player)
    ensures ValidTargets(b, player, pos) != [] ==> OwnedBy(b, pos, player)
  {
    if At(b, pos).Some? {
      var ms := MovesFrom(ValidMoves(b, player), pos);
      if t in ValidTargets(b, player, pos) {
        var i :| 0 <= i < |ms| && Targets(ms)[i] == t;
        var m := ms[i];
        ValidMovesExactly(b, player, m);
        PieceMovesFrom(b, At(b, m.from).value, m.from, m);
        assert m == NewMove(pos, t);
      }
      if NewMove(pos, t) in ValidMoves(b, player) {
        var m := NewMove(pos, t);
        assert m in ms;
        var i :| 0 <= i < |ms| && ms[i] == m;
        assert Targets(ms)[i] == t;
      }
      if ValidTargets(b, player, pos) != [] {
        var m := ms[0];
        ValidMovesOwned(b, player, m);
      }
    }
  }

  /**
   * A piece of the side to move that can capture again is offered targets, and every one of them
   * is a jump: forced capture leaves only captures among the side's moves.
   */
  lemma CaptureOffersTargets(b: Board, player: Player, pos: Position)
    requires IsValidPosition(pos) && OwnedBy(b, pos, player) && CanCaptureAgain(b, At(b, pos).value, pos)
    ensures ValidTargets(b, player, pos) != []
    ensures forall t :: t in ValidTargets(b, player, pos) ==> t.row - pos.row == 2 || t.row - pos.row == -2
  {
    var m :| m in PieceMoves(b, At(b, pos).value, pos) && IsCapture(m);
    PieceMovesFrom(b, At(b, pos).value, pos, m);
    assert Generated(b, player, m);
    ValidMovesExactly(b, player, m);
    ValidTargetsExactly(b, player, pos, m.to);
    assert m == NewMove(pos, m.to);
    forall t | t in ValidTargets(b, player, pos)
      ensures t.row - pos.row == 2 || t.row - pos.row == -2
    {
      ValidTargetsExactly(b, player, pos, t);
      ValidMovesExactly(b, player, NewMove(pos, t));
    }
  }

  // The transitions.

  /** `selectPiece(at:)`: select the square and compute its targets. */
  function Selected(s: GameState, pos: Position): GameState
    requires IsValidPosition(pos)
  {
    s.(selectedPosition := Some(pos), validMoves := ValidTargets(s.board, s.currentPlayer, pos))
  }

  /** `deselectPiece()`. */
  function Deselected(s: GameState): GameState {
    s.(selectedPosition := None, validMoves := [])
  }

  /** `togglePlayer()`, without the search it launches when the machine is to move. */
  function Toggled(s: GameState): GameState {
    s.(currentPlayer := if s.currentPlayer == White then Black else White)
  }

  /** `finishTurn()`: drop any pending capture, record the winner, and pass the turn only if nobody has won. */
  function TurnFinished(s: GameState): GameState {
    var s1 := s.(mustCaptureWithPosition := None, winner := CheckForWinner(s.board));
    if s1.winner == None then Toggled(s1) else s1
  }

  /**
   * `performMove(from:to:)`: one step; after a capture whose piece can capture again, the turn
   * stays open with that piece pending and selected; otherwise the turn ends.
   */
  function Moved(s: GameState, start: Position, end: Position): GameState
    requires IsValidPosition(start) && IsValidPosition(end)
  {
    var move := NewMove(start, end);
    var wasCapture := At(s.board, start).Some? && IsCapture(move);
    var b := if At(s.board, start).Some? then StepBoard(s.board, move) else s.board;
    var s1 := Deselected(s.(board := b, lastMove := Some((start, end))));
    if wasCapture && At(b, end).Some? && CanCaptureAgain(b, At(b, end).value, end) then
      Selected(s1.(mustCaptureWithPosition := Some(end)), end)
    else
      TurnFinished(s1)
  }

  /** `handleTap(at:)`. */
  function Tapped(s: GameState, pos: Position): GameState
    requires Consistent(s) && IsValidPosition(pos)
  {
    if !(s.currentPlayer == White && s.winner == None) then s
    else if s.mustCaptureWithPosition.Some? then
      if pos == s.mustCaptureWithPosition.value then Selected(s, pos) else s
    else if s.selectedPosition.Some? then
      var selected := s.selectedPosition.value;
      if selected == pos then Deselected(s)
      else if OwnedBy(s.board, pos, s.currentPlayer) then Selected(s, pos)
      else if At(s.board, pos).None? then
        if pos in s.validMoves then Moved(s, selected, pos) else s
      else s
    else if OwnedBy(s.board, pos, s.currentPlayer) then Selected(s, pos)
    else s
  }

  /** The last step of a chain, or `fallback` when it took none. */
  function LastStep(steps: seq<CheckersMove>, fallback: (Position, Position)): (Position, Position) {
    if steps == [] then fallback else (steps[|steps| - 1].from, steps[|steps| - 1].to)
  }

  lemma LastStepCons(m: CheckersMove, steps: seq<CheckersMove>, fallback: (Position, Position))
    ensures LastStep([m] + steps, fallback) == LastStep(steps, (m.from, m.to))
  {
  }

  /** The last step of a capture run lands on the run's landing square. */
  lemma {:induction false} LastStepLands(from: Position, steps: seq<CheckersMove>, landing: Position, fallback: (Position, Position))
    requires CaptureRun(from, steps, landing) && fallback.1 == from
    ensures LastStep(steps, fallback).1 == landing
    decreases |steps|
  {
    if steps != [] {
      LastStepLands(steps[0].to, steps[1..], landing, (steps[0].from, steps[0].to));
      assert steps == [steps[0]] + steps[1..];
      LastStepCons(steps[0], steps[1..], fallback);
    }
  }

  /**
   * The steps `performAIMoveSequence` takes after the machine's move: the greedy chain from the
   * landing square when the move captured, nothing otherwise.
   */
  function AIChain(b: Board, player: Player, move: CheckersMove): (c: Chain)
    requires IsValidPosition(move.from) && IsValidPosition(move.to)
  {
    if At(b, move.from).None? then Chain(b, move.to, [])
    else if IsCapture(move) then GreedyChain(StepBoard(b, move), player, move.to)
    else Chain(StepBoard(b, move), move.to, [])
  }

  /** `performAIMoveSequence(_:)`: the move, its greedy follow-up captures, the last step shown, then `finishTurn()`. */
  function AIMoved(s: GameState, move: CheckersMove): GameState
    requires IsValidPosition(move.from) && IsValidPosition(move.to)
  {
    var c := AIChain(s.board, s.currentPlayer, move);
    TurnFinished(s.(board := c.board, lastMove := Some(LastStep(c.steps, (move.from, move.to)))))
  }

  /** What the main actor does with the search's answer: `finishTurn()` when there is no move. */
  function AIReplied(s: GameState, result: Option<CheckersMove>): GameState
    requires result.Some? ==> IsValidPosition(result.value.from) && IsValidPosition(result.value.to)
  {
    match result
    case None => TurnFinished(s)
    case Some(move) => AIMoved(s, move)
  }

  /** `setupBoard()`: the opening layout, white to move, nothing selected or pending; `validMoves` is not reset. */
  function Reset(s: GameState): GameState {
    s.(board := StandardBoard(), selectedPosition := None, currentPlayer := White, winner := None,
       mustCaptureWithPosition := None, lastMove := None)
  }

  /** A run of taps, one after another. */
  function AfterTaps(s: GameState, taps: seq<Position>): GameState
    requires Consistent(s) && forall i :: 0 <= i < |taps| ==> IsValidPosition(taps[i])
    decreases |taps|
  {
    if taps == [] then s
    else
      TappedConsistent(s, taps[0]);
      AfterTaps(Tapped(s, taps[0]), taps[1..])
  }

  // Properties of the transitions.

  /** `finishTurn()`: nothing pending, the winner recorded, and the turn passes exactly when both sides still have pieces. */
  lemma TurnFinishedEffect(s: GameState)
    ensures var r := TurnFinished(s);
      r.mustCaptureWithPosition == None && r.winner == CheckForWinner(s.board)
      && (r.currentPlayer == Opponent(s.currentPlayer) <==> !NoPiecesOf(s.board, White) && !NoPiecesOf(s.board, Black))
      && (r.currentPlayer == Opponent(s.currentPlayer) || r.currentPlayer == s.currentPlayer)
      && r.board == s.board && r.selectedPosition == s.selectedPosition
      && r.validMoves == s.validMoves && r.lastMove == s.lastMove
  {
  }

  /** Taps count only while the human (white) is to move and nobody has won. */
  lemma TapGuard(s: GameState, pos: Position)
    requires Consistent(s) && IsValidPosition(pos)
    ensures !(s.currentPlayer == White && s.winner == None) ==> Tapped(s, pos) == s
  {
  }

  /** Every transition keeps the state consistent. */
  lemma TappedConsistent(s: GameState, pos: Position)
    requires Consistent(s) && IsValidPosition(pos)
    ensures Consistent(Tapped(s, pos))
  {
  }

  lemma AIRepliedConsistent(s: GameState, result: Option<CheckersMove>)
    requires Consistent(s) && s.selectedPosition.None?
    requires result.Some? ==> IsValidPosition(result.value.from) && IsValidPosition(result.value.to)
    ensures Consistent(AIReplied(s, result)) && AIReplied(s, result).selectedPosition.None?
  {
  }

  /** `setupBoard()`: twelve men a side on their home rows, white to move, nothing pending, `validMoves` left as it was. */
  lemma ResetEffect(s: GameState)
    ensures var r := Reset(s);
      Consistent(r) && r.board == StandardBoard()
      && PieceCount(r.board, White) == 12 && PieceCount(r.board, Black) == 12
      && r.currentPlayer == White && r.winner == None && r.selectedPosition == None
      && r.mustCaptureWithPosition == None && r.lastMove == None && r.validMoves == s.validMoves
  {
    StandardBoardCounts(White);
    StandardBoardCounts(Black);
  }

  /**
   * While a capture is pending, a tap re-selects the pending piece or does nothing: board, side to
   * move, winner, last move and selection all stay.
   */
  lemma PendingCaptureFrozen(s: GameState, pos: Position)
    requires Consistent(s) && IsValidPosition(pos) && s.mustCaptureWithPosition.Some?
    ensures var r := Tapped(s, pos);
      r == s || r == Selected(s, s.mustCaptureWithPosition.value)
    ensures var r := Tapped(s, pos);
      r.board == s.board && r.currentPlayer == s.currentPlayer && r.winner == s.winner
      && r.lastMove == s.lastMove && r.mustCaptureWithPosition == s.mustCaptureWithPosition
      && r.selectedPosition == s.selectedPosition
  {
  }

  /**
   * The consequence: once a capture is pending, no sequence of taps ever moves a piece, passes
   * the turn or clears the pending capture. Only `setupBoard()` does.
   */
  lemma {:induction false} PendingCaptureDeadlock(s: GameState, taps: seq<Position>)
    requires Consistent(s) && s.mustCaptureWithPosition.Some?
    requires forall i :: 0 <= i < |taps| ==> IsValidPosition(taps[i])
    ensures var r := AfterTaps(s, taps);
      r.board == s.board && r.currentPlayer == s.currentPlayer && r.winner == s.winner
      && r.lastMove == s.lastMove && r.mustCaptureWithPosition == s.mustCaptureWithPosition
    decreases |taps|
  {
    if taps != [] {
      PendingCaptureFrozen(s, taps[0]);
      TappedConsistent(s, taps[0]);
      PendingCaptureDeadlock(Tapped(s, taps[0]), taps[1..]);
    }
  }

  /** Tapping the selected square clears the selection and its targets and changes nothing else. */
  lemma TapSelectedDeselects(s: GameState)
    requires Consistent(s) && s.selectedPosition.Some?
    requires s.currentPlayer == White && s.winner == None && s.mustCaptureWithPosition == None
    ensures var r := Tapped(s, s.selectedPosition.value);
      r.selectedPosition == None && r.validMoves == []
      && r == s.(selectedPosition := None, validMoves := [])
  {
  }

  /** The targets on display are those of the selected piece on the current board. */
  predicate TargetsCurrent(s: GameState) {
    s.selectedPosition.Some? ==>
      IsValidPosition(s.selectedPosition.value)
      && s.validMoves == ValidTargets(s.board, s.currentPlayer, s.selectedPosition.value)
  }

  lemma TappedTargetsCurrent(s: GameState, pos: Position)
    requires Consistent(s) && IsValidPosition(pos) && TargetsCurrent(s)
    ensures TargetsCurrent(Tapped(s, pos))
  {
    if s.currentPlayer == White && s.winner == None && s.mustCaptureWithPosition.None? && s.selectedPosition.Some? {
      var selected := s.selectedPosition.value;
      if selected != pos && !OwnedBy(s.board, pos, s.currentPlayer) && At(s.board, pos).None? && pos in s.validMoves {
        MovedTargetsCurrent(s, selected, pos);
      }
    }
  }

  lemma MovedTargetsCurrent(s: GameState, start: Position, end: Position)
    requires IsValidPosition(start) && IsValidPosition(end)
    ensures TargetsCurrent(Moved(s, start, end))
  {
  }

  /**
   * The human move guard: a tap moves a piece only when it lands on an empty square among the
   * targets of the selection, and then the step is one of white's legal moves.
   */
  lemma HumanMoveGuard(s: GameState, pos: Position)
    requires Consistent(s) && IsValidPosition(pos) && TargetsCurrent(s)
    ensures Tapped(s, pos).board != s.board ==>
      s.currentPlayer == White && s.winner == None && s.mustCaptureWithPosition == None
      && s.selectedPosition.Some? && At(s.board, pos).None? && pos in s.validMoves
      && NewMove(s.selectedPosition.value, pos) in ValidMoves(s.board, White)
      && Tapped(s, pos) == Moved(s, s.selectedPosition.value, pos)
  {
    if Tapped(s, pos).board != s.board {
      ValidTargetsExactly(s.board, s.currentPlayer, s.selectedPosition.value, pos);
    }
  }

  /**
   * `performMove`: after a capture whose piece can capture again, that piece is pending and
   * selected with its targets shown, and neither the side to move nor the winner changes;
   * otherwise the turn ends.
   */
  lemma MovedEffect(s: GameState, start: Position, end: Position)
    requires IsValidPosition(start) && IsValidPosition(end) && At(s.board, start).Some?
    ensures var move := NewMove(start, end);
      var b := StepBoard(s.board, move);
      var r := Moved(s, start, end);
      if IsCapture(move) && At(b, end).Some? && CanCaptureAgain(b, At(b, end).value, end) then
        r.mustCaptureWithPosition == Some(end) && r.selectedPosition == Some(end)
        && r.currentPlayer == s.currentPlayer && r.winner == s.winner
        && r.board == b && r.lastMove == Some((start, end))
        && r.validMoves == ValidTargets(b, s.currentPlayer, end)
      else
        r.board == b && r.lastMove == Some((start, end))
        && r.selectedPosition == None && r.validMoves == [] && r.mustCaptureWithPosition == None
        && r.winner == CheckForWinner(b)
        && (r.currentPlayer == Opponent(s.currentPlayer) <==> r.winner == None)
        && (r.currentPlayer == Opponent(s.currentPlayer) || r.currentPlayer == s.currentPlayer)
  {
  }

  /**
   * A capture by a piece of the side to move that can capture again shows that piece's jump
   * targets, yet no tap can take one: the human never completes a multi-jump.
   */
  lemma ContinuationStalls(s: GameState, start: Position, end: Position)
    requires IsValidPosition(start) && IsValidPosition(end) && OwnedBy(s.board, start, s.currentPlayer)
    requires var move := NewMove(start, end);
      var b := StepBoard(s.board, move);
      IsCapture(move) && CanCaptureAgain(b, At(b, end).value, end)
    ensures var r := Moved(s, start, end);
      Consistent(r) && r.validMoves != [] && r.mustCaptureWithPosition == Some(end)
      && forall t :: IsValidPosition(t) ==> Tapped(r, t).board == r.board
  {
    var move := NewMove(start, end);
    var b := StepBoard(s.board, move);
    StepBoardEffect(s.board, move, end);
    CaptureOffersTargets(b, s.currentPlayer, end);
    var r := Moved(s, start, end);
    forall t | IsValidPosition(t)
      ensures Tapped(r, t).board == r.board
    {
      PendingCaptureFrozen(r, t);
    }
  }

  /**
   * `performAIMoveSequence`: the board is the one `apply` computes for the same move, the last
   * step taken is shown, and the turn ends once.
   */
  lemma AIMovedEffect(s: GameState, move: CheckersMove)
    requires IsValidPosition(move.from) && IsValidPosition(move.to)
    ensures var r := AIMoved(s, move);
      var c := AIChain(s.board, s.currentPlayer, move);
      r.board == ApplyBoard(s.board, s.currentPlayer, move)
      && r.lastMove == Some(LastStep(c.steps, (move.from, move.to)))
      && r.lastMove.value.1 == c.landing
      && r.mustCaptureWithPosition == None && r.winner == CheckForWinner(r.board)
      && (r.currentPlayer == Opponent(s.currentPlayer) <==> r.winner == None)
      && r.selectedPosition == s.selectedPosition && r.validMoves == s.validMoves
  {
    var c := AIChain(s.board, s.currentPlayer, move);
    AIChainLands(s.board, s.currentPlayer, move);
    TurnFinishedEffect(s.(board := c.board, lastMove := Some(LastStep(c.steps, (move.from, move.to)))));
  }

  /** The follow-up chain leaves the board `apply` leaves, and its last step ends on its landing square. */
  lemma AIChainLands(b: Board, player: Player, move: CheckersMove)
    requires IsValidPosition(move.from) && IsValidPosition(move.to)
    ensures var c := AIChain(b, player, move);
      c.board == ApplyBoard(b, player, move) && LastStep(c.steps, (move.from, move.to)).1 == c.landing
  {
    var c := AIChain(b, player, move);
    if At(b, move.from).Some? && IsCapture(move) {
      ChainIsCaptureRun(StepBoard(b, move), player, move.to);
      LastStepLands(move.to, c.steps, c.landing, (move.from, move.to));
    }
  }

  /**
   * Given one of its legal captures, the machine's follow-up loop takes one more white piece per
   * extra step (so it ends) and stops on a square from which its piece has no capture left.
   */
  lemma AIMovedLegalCapture(s: GameState, move: CheckersMove)
    requires move in ValidMoves(s.board, s.currentPlayer) && IsCapture(move)
    ensures IsValidPosition(move.from) && IsValidPosition(move.to)
    ensures var r := AIMoved(s, move);
      var c := AIChain(s.board, s.currentPlayer, move);
      PieceCount(r.board, Opponent(s.currentPlayer)) == PieceCount(s.board, Opponent(s.currentPlayer)) - 1 - |c.steps|
      && PieceCount(r.board, s.currentPlayer) == PieceCount(s.board, s.currentPlayer)
      && r.lastMove.Some? && IsValidPosition(r.lastMove.value.1)
      && OwnedBy(r.board, r.lastMove.value.1, s.currentPlayer)
      && !CanCaptureAgain(r.board, At(r.board, r.lastMove.value.1).value, r.lastMove.value.1)
  {
    ApplyLegalCapture(s.board, s.currentPlayer, move);
    AIMovedEffect(s, move);
  }

  /**
   * The `while` loop of `performAIMoveSequence` on the board and last move it updates: while the
   * piece on the current square can capture again, take its first capture offered by the rules.
   */
  method FollowCaptures(b: Board, player: Player, start: Position, last: (Position, Position))
    returns (board: Board, lastStep: (Position, Position))
    requires IsValidPosition(start)
    ensures board == GreedyChain(b, player, start).board
    ensures lastStep == LastStep(GreedyChain(b, player, start).steps, last)
  {
    board := b;
    lastStep := last;
    var currentPos := start;
    while At(board, currentPos).Some? && CanCaptureAgain(board, At(board, currentPos).value, currentPos)
      invariant IsValidPosition(currentPos)
      invariant var c := GreedyChain(board, player, currentPos);
        c.board == GreedyChain(b, player, start).board
        && LastStep(c.steps, lastStep) == LastStep(GreedyChain(b, player, start).steps, last)
      decreases PieceCount(board, Opponent(player))
    {
      var validMoves := GetValidMoves(board, player);
      var nextMoves := CapturesFrom(validMoves, currentPos);
      ChainAdvance(board, player, currentPos, nextMoves);
      if nextMoves == [] {
        break;
      }
      var nextMove := nextMoves[0];
      LastStepCons(nextMove, GreedyChain(StepBoard(board, nextMove), player, nextMove.to).steps, lastStep);
      var capturedAgain;
      board, capturedAgain := ExecuteStep(board, nextMove);
      lastStep := (nextMove.from, nextMove.to);
      currentPos := nextMove.to;
    }
    ChainHalts(board, player, currentPos);
  }

  /** `CheckersViewModel`: the controller the board view talks to. */
  class CheckersViewModel {
    var board: Board
    var currentPlayer: Player
    var aiDifficulty: DifficultyLevel
    var winner: Option<Player>
    var selectedPosition: Option<Position>
    var validMoves: seq<Position>
    var lastMove: Option<(Position, Position)>
    var mustCaptureWithPosition: Option<Position>
    const ai: CheckersAI

    /** The fields the transitions are about. */
    function State(): GameState
      reads this
    {
      GameState(board, currentPlayer, winner, selectedPosition, validMoves, lastMove, mustCaptureWithPosition)
    }

    /**
     * The state is consistent and the targets on display are those of the selected piece. The
     * machine player's level is not part of it: the settings picker writes `aiDifficulty` directly,
     * so `ai` keeps the level its last `updateDifficulty` set.
     */
    ghost predicate Valid()
      reads this
    {
      Consistent(State()) && TargetsCurrent(State())
    }

    /** `init()`: the default field values, then `setupBoard()`. */
    constructor()
      ensures Valid() && fresh(ai)
      ensures ai.difficulty == Medium && ai.maxLookAheadDepth == DifficultyRawValue(Medium)
      ensures State() == Reset(GameState(EmptyBoard(), White, None, None, [], None, None))
      ensures aiDifficulty == Medium
    {
      board := EmptyBoard();
      currentPlayer := White;
      aiDifficulty := Medium;
      winner := None;
      selectedPosition := None;
      validMoves := [];
      lastMove := None;
      mustCaptureWithPosition := None;
      ai := new CheckersAI();
      new;
      SetupBoard();
    }

    /** `handleTap(at:)`. */
    method HandleTap(position: Position)
      requires Valid() && IsValidPosition(position)
      modifies this
      ensures Valid() && State() == Tapped(old(State()), position)
      ensures board != old(board) ==>
        old(selectedPosition).Some? && NewMove(old(selectedPosition).value, position) in ValidMoves(old(board), White)
      ensures aiDifficulty == old(aiDifficulty)
    {
      TappedConsistent(State(), position);
      TappedTargetsCurrent(State(), position);
      HumanMoveGuard(State(), position);
      if !(currentPlayer == White && winner == None) {
        return;
      }
      if mustCaptureWithPosition.Some? {
        var requiredPos := mustCaptureWithPosition.value;
        if position == requiredPos {
          SelectPiece(position);
        }
        return;
      }
      if selectedPosition.Some? {
        var selected := selectedPosition.value;
        if selected == position {
          DeselectPiece();
        } else if board[position.row][position.column].Some? && board[position.row][position.column].value.player == currentPlayer {
          SelectPiece(position);
        } else if board[position.row][position.column].None? {
          if position in validMoves {
            PerformMove(selected, position);
          }
        }
      } else {
        if board[position.row][position.column].Some? && board[position.row][position.column].value.player == currentPlayer {
          SelectPiece(position);
        }
      }
    }

    /** `selectPiece(at:)`. */
    method SelectPiece(position: Position)
      requires IsValidPosition(position)
      modifies this
      ensures State() == Selected(old(State()), position) && aiDifficulty == old(aiDifficulty)
    {
      selectedPosition := Some(position);
      CalculateValidMoves(position);
    }

    /** `deselectPiece()`. */
    method DeselectPiece()
      modifies this
      ensures State() == Deselected(old(State())) && aiDifficulty == old(aiDifficulty)
    {
      selectedPosition := None;
      validMoves := [];
    }

    /** `calculateValidMoves(for:)`: the targets of the piece on `position` among the side's legal moves. */
    method CalculateValidMoves(position: Position)
      requires IsValidPosition(position)
      modifies this
      ensures State() == old(State()).(validMoves := ValidTargets(board, currentPlayer, position))
      ensures aiDifficulty == old(aiDifficulty)
    {
      validMoves := [];
      if board[position.row][position.column].None? {
        return;
      }
      var allMoves := GetValidMoves(board, currentPlayer);
      var pieceMoves := MovesFrom(allMoves, position);
      validMoves := Targets(pieceMoves);
    }

    /** `performMove(from:to:)`. */
    method PerformMove(start: Position, end: Position)
      requires IsValidPosition(start) && IsValidPosition(end)
      modifies this
      ensures State() == Moved(old(State()), start, end) && aiDifficulty == old(aiDifficulty)
    {
      var move := NewMove(start, end);
      var wasCapture;
      board, wasCapture := ExecuteStep(board, move);
      lastMove := Some((start, end));
      DeselectPiece();
      if wasCapture {
        var piece := board[end.row][end.column];
        if piece.Some? && CanCaptureAgain(board, piece.value, end) {
          mustCaptureWithPosition := Some(end);
          SelectPiece(end);
          return;
        }
      }
      FinishTurn();
    }

    /** `finishTurn()`. */
    method FinishTurn()
      modifies this
      ensures State() == TurnFinished(old(State())) && aiDifficulty == old(aiDifficulty)
    {
      mustCaptureWithPosition := None;
      winner := CheckForWinner(board);
      if winner == None {
        TogglePlayer();
      }
    }

    /** `togglePlayer()`; the search it starts when black is to move is `CompleteAIMove`'s input. */
    method TogglePlayer()
      modifies this
      ensures State() == Toggled(old(State())) && aiDifficulty == old(aiDifficulty)
    {
      currentPlayer := if currentPlayer == White then Black else White;
    }

    /**
     * The main-actor hop at the end of `makeAIMove`: `finishTurn()` when the search found no
     * move, else `performAIMoveSequence` with the move it found.
     */
    method CompleteAIMove(result: Option<CheckersMove>)
      requires Valid() && selectedPosition.None?
      requires result.Some? ==> IsValidPosition(result.value.from) && IsValidPosition(result.value.to)
      modifies this
      ensures Valid() && State() == AIReplied(old(State()), result)
    {
      AIRepliedConsistent(State(), result);
      match result
      case None => FinishTurn();
      case Some(move) => PerformAIMoveSequence(move);
    }

    /** `performAIMoveSequence(_:)`: the move, then greedy captures from where it lands, then `finishTurn()`. */
    method PerformAIMoveSequence(move: CheckersMove)
      requires IsValidPosition(move.from) && IsValidPosition(move.to)
      modifies this
      ensures State() == AIMoved(old(State()), move) && aiDifficulty == old(aiDifficulty)
    {
      var b, wasCapture := ExecuteStep(board, move);
      var last := (move.from, move.to);
      if wasCapture {
        b, last := FollowCaptures(b, currentPlayer, move.to, last);
      }
      board := b;
      lastMove := Some(last);
      FinishTurn();
    }

    /** `setDifficulty(_:)`: the level on display and the machine player's depth. */
    method SetDifficulty(difficulty: DifficultyLevel)
      requires Valid()
      modifies this, ai
      ensures Valid() && State() == old(State())
      ensures aiDifficulty == difficulty && ai.difficulty == difficulty
      ensures ai.maxLookAheadDepth == DifficultyRawValue(difficulty)
    {
      aiDifficulty := difficulty;
      ai.UpdateDifficulty(difficulty);
    }

    /** `setupBoard()`: clear the board, reset the turn, then the two filling loops. */
    method SetupBoard()
      modifies this
      ensures State() == Reset(old(State())) && aiDifficulty == old(aiDifficulty)
    {
      board := EmptyBoard();
      selectedPosition := None;
      currentPlayer := White;
      winner := None;
      mustCaptureWithPosition := None;
      lastMove := None;
      ghost var cleared := board;
      board := FillRows(board, 5, 8, White);
      ghost var white := board;
      board := FillRows(board, 0, 3, Black);
      FillBothSides(cleared, white, board);
      OverlayEmpty();
    }
  }
}

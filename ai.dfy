/**
 * The search-side game model of NOISYSTRESS/Services/CheckersAI.swift: `CheckersPlayer`,
 * `CheckersGameModel` (legal moves, `apply` with its greedy capture chain, material score,
 * win and loss tests, copying) and the first `CheckersAI` declaration of that file.
 */
module CheckersSearch {
  import opened Options
  import opened CheckersTypes
  import opened CheckersMoves
  import opened CheckersRules

  /** `CheckersPlayer`: a side together with its numeric id. */
  datatype CheckersPlayer = CheckersPlayer(playerId: int, player: Player)

  /** `CheckersPlayer.init`: white gets id 0 and black id 1. */
  function NewCheckersPlayer(player: Player): (cp: CheckersPlayer)
    ensures cp.player == player
    ensures cp.playerId == 0 <==> player == White
    ensures cp.playerId == 1 <==> player == Black
  {
    CheckersPlayer(if player == White then 0 else 1, player)
  }

  /** The two ids differ, so an id names a side. */
  lemma PlayerIdsDistinct(p: Player, q: Player)
    ensures NewCheckersPlayer(p).playerId == NewCheckersPlayer(q).playerId <==> p == q
  {
  }

  /** The player list every game model is created with. */
  function DefaultPlayers(): seq<CheckersPlayer> {
    [NewCheckersPlayer(White), NewCheckersPlayer(Black)]
  }

  /** `first(where:)` on the player list: the first entry playing `p`. */
  function FirstPlaying(ps: seq<CheckersPlayer>, p: Player): (r: Option<CheckersPlayer>)
    ensures r.None? <==> forall i :: 0 <= i < |ps| ==> ps[i].player != p
    ensures r.Some? ==>
      exists i :: 0 <= i < |ps| && ps[i] == r.value && r.value.player == p && forall j :: 0 <= j < i ==> ps[j].player != p
  {
    if ps == [] then None
    else if ps[0].player == p then Some(ps[0])
    else
      var r := FirstPlaying(ps[1..], p);
      assert forall i :: 1 <= i < |ps| ==> ps[i] == ps[1..][i - 1];
      r
  }

  /** In the default list, the entry playing `p` is `p`'s own player. */
  lemma DefaultActivePlayer(p: Player)
    ensures FirstPlaying(DefaultPlayers(), p) == Some(NewCheckersPlayer(p))
  {
  }

  /** `.filter { $0.from == pos && isCapture($0) }`, keeping the order of `ms`. */
  function CapturesFrom(ms: seq<CheckersMove>, pos: Position): seq<CheckersMove> {
    if ms == [] then []
    else
      var last := ms[|ms| - 1];
      CapturesFrom(ms[..|ms| - 1], pos) + (if last.from == pos && IsCapture(last) then [last] else [])
  }

  /** The filter keeps exactly the captures from `pos`. */
  lemma {:induction false} CapturesFromMembership(ms: seq<CheckersMove>, pos: Position, m: CheckersMove)
    ensures m in CapturesFrom(ms, pos) <==> m in ms && m.from == pos && IsCapture(m)
    decreases |ms|
  {
    if ms != [] {
      var init := ms[..|ms| - 1];
      assert ms == init + [ms[|ms| - 1]];
      CapturesFromMembership(init, pos, m);
    }
  }

  lemma {:induction false} CapturesFromConcat(ms: seq<CheckersMove>, ns: seq<CheckersMove>, pos: Position)
    ensures CapturesFrom(ms + ns, pos) == CapturesFrom(ms, pos) + CapturesFrom(ns, pos)
    decreases |ns|
  {
    if ns == [] {
      assert ms + ns == ms;
    } else {
      var init := ns[..|ns| - 1];
      var last := ns[|ns| - 1];
      assert (ms + ns)[..|ms + ns| - 1] == ms + init;
      assert (ms + ns)[|ms + ns| - 1] == last;
      CapturesFromConcat(ms, init, pos);
    }
  }

  /** Filtering the captures first changes nothing; filtering the simple moves first leaves nothing. */
  lemma {:induction false} CapturesFromFiltered(ms: seq<CheckersMove>, pos: Position)
    ensures CapturesFrom(Captures(ms), pos) == CapturesFrom(ms, pos)
    ensures CapturesFrom(Simples(ms), pos) == []
    decreases |ms|
  {
    if ms != [] {
      var init := ms[..|ms| - 1];
      var last := ms[|ms| - 1];
      CapturesFromFiltered(init, pos);
      CapturesFromConcat(Captures(init), if IsCapture(last) then [last] else [], pos);
      CapturesFromConcat(Simples(init), if IsCapture(last) then [] else [last], pos);
    }
  }

  /** All moves of `ms` start on `pos`: the filter keeps exactly the captures. */
  lemma {:induction false} CapturesFromOneSquare(ms: seq<CheckersMove>, pos: Position)
    requires forall m :: m in ms ==> m.from == pos
    ensures CapturesFrom(ms, pos) == Captures(ms)
    decreases |ms|
  {
    if ms != [] {
      var init := ms[..|ms| - 1];
      assert forall m :: m in init ==> m in ms;
      CapturesFromOneSquare(init, pos);
    }
  }

  /** No move of `ms` starts on `pos`: the filter keeps nothing. */
  lemma {:induction false} CapturesFromOtherSquares(ms: seq<CheckersMove>, pos: Position)
    requires forall m :: m in ms ==> m.from != pos
    ensures CapturesFrom(ms, pos) == []
    decreases |ms|
  {
    if ms != [] {
      var init := ms[..|ms| - 1];
      assert forall m :: m in init ==> m in ms;
      CapturesFromOtherSquares(init, pos);
    }
  }

  /** The captures from `pos` that the scan meets at square `q`. */
  lemma CapturesFromCell(b: Board, player: Player, q: Position, pos: Position)
    requires IsValidPosition(q)
    ensures CapturesFrom(CellMoves(b, player, q), pos) == if q == pos then Captures(CellMoves(b, player, q)) else []
  {
    forall m | m in CellMoves(b, player, q)
      ensures m.from == q
    {
      CellMembership(b, player, q, m);
    }
    if q == pos {
      CapturesFromOneSquare(CellMoves(b, player, q), pos);
    } else {
      CapturesFromOtherSquares(CellMoves(b, player, q), pos);
    }
  }

  /** When only list k can hold captures from `pos`, the first n lists hold those of list k (if k < n) and no others. */
  lemma {:induction false} CapturesFromFlatten(blocks: seq<seq<CheckersMove>>, n: int, pos: Position, k: int)
    requires 0 <= n <= |blocks| && 0 <= k < |blocks|
    requires forall i {:trigger CapturesFrom(blocks[i], pos)} :: 0 <= i < |blocks| && i != k ==> CapturesFrom(blocks[i], pos) == []
    ensures CapturesFrom(Flatten(blocks, n), pos) == if k < n then CapturesFrom(blocks[k], pos) else []
    decreases n
  {
    if n > 0 {
      CapturesFromFlatten(blocks, n - 1, pos, k);
      CapturesFromJoin(Flatten(blocks, n - 1), blocks[n - 1], pos, CapturesFrom(blocks[k], pos), k < n - 1, k == n - 1);
    }
  }

  /** Two parts of a list, at most one of which holds the captures from `pos`. */
  lemma CapturesFromJoin(first: seq<CheckersMove>, second: seq<CheckersMove>, pos: Position, own: seq<CheckersMove>,
                         inFirst: bool, inSecond: bool)
    requires !(inFirst && inSecond)
    requires CapturesFrom(first, pos) == if inFirst then own else []
    requires CapturesFrom(second, pos) == if inSecond then own else []
    ensures CapturesFrom(first + second, pos) == if inFirst || inSecond then own else []
  {
    CapturesFromConcat(first, second, pos);
    assert own + [] == own && [] + own == own;
  }

  /** The captures from `pos` among the moves of row r: those of the piece on `pos` when it lies in that row. */
  lemma CapturesFromRow(b: Board, player: Player, r: int, pos: Position)
    requires 0 <= r < 8 && IsValidPosition(pos)
    ensures CapturesFrom(RowMoves(b, player, r, 8), pos) == if pos.row == r then Captures(CellMoves(b, player, pos)) else []
  {
    var cells := RowCells(b, player, r);
    if pos.row == r {
      forall i | 0 <= i < 8 && i != pos.column
        ensures CapturesFrom(cells[i], pos) == []
      {
        CapturesFromCell(b, player, Position(r, i), pos);
      }
      CapturesFromFlatten(cells, 8, pos, pos.column);
      CapturesFromCell(b, player, pos, pos);
      assert cells[pos.column] == CellMoves(b, player, pos);
    } else {
      forall m | m in RowMoves(b, player, r, 8)
        ensures m.from != pos
      {
        RowMembership(b, player, r, 8, m);
      }
      CapturesFromOtherSquares(RowMoves(b, player, r, 8), pos);
    }
  }

  /**
   * The captures from `pos` that `apply` finds in `getValidMoves` are that piece's own captures in
   * direction order, and there are none unless a piece of the mover stands on `pos`.
   */
  lemma OfferedCaptures(b: Board, player: Player, pos: Position)
    requires IsValidPosition(pos)
    ensures CapturesFrom(ValidMoves(b, player), pos)
      == if OwnedBy(b, pos, player) then Captures(PieceMoves(b, At(b, pos).value, pos)) else []
  {
    var rows := Rows(b, player);
    forall i | 0 <= i < 8 && i != pos.row
      ensures CapturesFrom(rows[i], pos) == []
    {
      CapturesFromRow(b, player, i, pos);
    }
    CapturesFromFlatten(rows, 8, pos, pos.row);
    CapturesFromRow(b, player, pos.row, pos);
    CapturesFromFiltered(ScanMoves(b, player, 8), pos);
  }

  /**
   * The test at the head of `apply`'s loop and the move it then takes: when the piece of `player`
   * on `pos` can capture again, its first capture in direction order.
   */
  function NextCapture(b: Board, player: Player, pos: Position): (r: Option<CheckersMove>)
    requires IsValidPosition(pos)
    ensures r.Some? ==> OwnedBy(b, pos, player) && r.value in PieceMoves(b, At(b, pos).value, pos) && IsCapture(r.value)
    ensures OwnedBy(b, pos, player) ==> (r.None? <==> !CanCaptureAgain(b, At(b, pos).value, pos))
  {
    if !OwnedBy(b, pos, player) then None
    else
      var caps := Captures(PieceMoves(b, At(b, pos).value, pos));
      if caps == [] then None
      else
        FiltersMembership(PieceMoves(b, At(b, pos).value, pos), caps[0]);
        Some(caps[0])
  }

  /** One greedy chain step: a capture by the piece of `player` on `pos`. */
  lemma ChainStep(b: Board, player: Player, pos: Position, m: CheckersMove)
    requires IsValidPosition(pos) && OwnedBy(b, pos, player)
    requires m in PieceMoves(b, At(b, pos).value, pos) && IsCapture(m)
    ensures m.from == pos && IsValidPosition(m.to)
    ensures PieceCount(StepBoard(b, m), Opponent(player)) == PieceCount(b, Opponent(player)) - 1
    ensures PieceCount(StepBoard(b, m), player) == PieceCount(b, player)
    ensures OwnedBy(StepBoard(b, m), m.to, player)
  {
    CaptureRemovesOpponent(b, pos, m);
    StepBoardEffect(b, m, m.to);
  }

  /** Where a greedy chain ends: the board, the last landing square, and the captures taken. */
  datatype Chain = Chain(board: Board, landing: Position, steps: seq<CheckersMove>)

  /**
   * The loop of `apply`: while the piece on `pos` can capture again, take its first capture and
   * continue from where it lands. Each step removes an opposing piece.
   */
  function GreedyChain(b: Board, player: Player, pos: Position): (c: Chain)
    requires IsValidPosition(pos)
    ensures IsValidPosition(c.landing)
    decreases PieceCount(b, Opponent(player))
  {
    match NextCapture(b, player, pos)
    case None => Chain(b, pos, [])
    case Some(m) =>
      ChainStep(b, player, pos, m);
      var rest := GreedyChain(StepBoard(b, m), player, m.to);
      Chain(rest.board, rest.landing, [m] + rest.steps)
  }

  /** Every step of the chain takes one opposing piece; the mover loses none. */
  lemma {:induction false} ChainCounts(b: Board, player: Player, pos: Position)
    requires IsValidPosition(pos)
    ensures PieceCount(GreedyChain(b, player, pos).board, Opponent(player))
      == PieceCount(b, Opponent(player)) - |GreedyChain(b, player, pos).steps|
    ensures PieceCount(GreedyChain(b, player, pos).board, player) == PieceCount(b, player)
    decreases PieceCount(b, Opponent(player))
  {
    match NextCapture(b, player, pos)
    case None =>
    case Some(m) =>
      ChainStep(b, player, pos, m);
      ChainCounts(StepBoard(b, m), player, m.to);
  }

  /** `steps` is a run of captures leaving `from`, each starting where the previous one landed, and ending on `landing`. */
  predicate CaptureRun(from: Position, steps: seq<CheckersMove>, landing: Position)
    decreases |steps|
  {
    if steps == [] then landing == from
    else IsCapture(steps[0]) && steps[0].from == from && CaptureRun(steps[0].to, steps[1..], landing)
  }

  /** The chain is a connected run of captures from `pos` to its landing square. */
  lemma {:induction false} ChainIsCaptureRun(b: Board, player: Player, pos: Position)
    requires IsValidPosition(pos)
    ensures CaptureRun(pos, GreedyChain(b, player, pos).steps, GreedyChain(b, player, pos).landing)
    decreases PieceCount(b, Opponent(player))
  {
    match NextCapture(b, player, pos)
    case None =>
    case Some(m) =>
      ChainStep(b, player, pos, m);
      var rest := GreedyChain(StepBoard(b, m), player, m.to);
      ChainIsCaptureRun(StepBoard(b, m), player, m.to);
      assert ([m] + rest.steps)[1..] == rest.steps;
  }

  /** One turn of `apply`'s loop, given the captures from `pos` it filters out of `getValidMoves`. */
  lemma ChainAdvance(b: Board, player: Player, pos: Position, nextMoves: seq<CheckersMove>)
    requires IsValidPosition(pos) && At(b, pos).Some? && CanCaptureAgain(b, At(b, pos).value, pos)
    requires nextMoves == CapturesFrom(ValidMoves(b, player), pos)
    ensures nextMoves == [] ==> GreedyChain(b, player, pos) == Chain(b, pos, [])
    ensures nextMoves != [] ==>
      var m := nextMoves[0];
      m.from == pos && IsValidPosition(m.to) && At(b, m.from).Some?
      && PieceCount(StepBoard(b, m), Opponent(player)) < PieceCount(b, Opponent(player))
      && var rest := GreedyChain(StepBoard(b, m), player, m.to);
         GreedyChain(b, player, pos) == Chain(rest.board, rest.landing, [m] + rest.steps)
  {
    OfferedCaptures(b, player, pos);
    if nextMoves != [] {
      assert OwnedBy(b, pos, player);
      assert NextCapture(b, player, pos) == Some(nextMoves[0]);
      ChainStep(b, player, pos, nextMoves[0]);
    }
  }

  /** When the loop test fails, the chain is over. */
  lemma ChainHalts(b: Board, player: Player, pos: Position)
    requires IsValidPosition(pos)
    ensures !(At(b, pos).Some? && CanCaptureAgain(b, At(b, pos).value, pos)) ==> GreedyChain(b, player, pos) == Chain(b, pos, [])
  {
  }

  /** Started on a piece of `player`, the chain ends on a piece of `player` that has no capture left. */
  lemma {:induction false} ChainStopsQuiet(b: Board, player: Player, pos: Position)
    requires IsValidPosition(pos) && OwnedBy(b, pos, player)
    ensures var c := GreedyChain(b, player, pos);
      OwnedBy(c.board, c.landing, player) && !CanCaptureAgain(c.board, At(c.board, c.landing).value, c.landing)
    decreases PieceCount(b, Opponent(player))
  {
    match NextCapture(b, player, pos)
    case None =>
    case Some(m) =>
      ChainStep(b, player, pos, m);
      ChainStopsQuiet(StepBoard(b, m), player, m.to);
  }

  /** The `while` loop of `apply`, on the board it updates: greedy captures by the piece on `start`. */
  method FollowChain(b: Board, player: Player, start: Position) returns (board: Board)
    requires IsValidPosition(start)
    ensures board == GreedyChain(b, player, start).board
  {
    board := b;
    var currentPos := start;
    while At(board, currentPos).Some? && CanCaptureAgain(board, At(board, currentPos).value, currentPos)
      invariant IsValidPosition(currentPos)
      invariant GreedyChain(board, player, currentPos).board == GreedyChain(b, player, start).board
      decreases PieceCount(board, Opponent(player))
    {
      var validMoves := GetValidMoves(board, player);
      var nextMoves := CapturesFrom(validMoves, currentPos);
      ChainAdvance(board, player, currentPos, nextMoves);
      if nextMoves == [] {
        break;
      }
      var nextMove := nextMoves[0];
      var capturedAgain;
      board, capturedAgain := ExecuteStep(board, nextMove);
      currentPos := nextMove.to;
    }
    ChainHalts(board, player, currentPos);
  }

  /** The board after `apply(move)`: one step, then the greedy chain if that step captured. */
  function ApplyBoard(b: Board, player: Player, move: CheckersMove): Board
    requires IsValidPosition(move.from) && IsValidPosition(move.to)
  {
    if At(b, move.from).None? then b
    else if IsCapture(move) then GreedyChain(StepBoard(b, move), player, move.to).board
    else StepBoard(b, move)
  }

  /**
   * `apply` given one of the mover's legal captures: the moved piece ends its turn on a square from
   * which it has no further capture, and the opponent has lost one piece per capture taken.
   */
  lemma ApplyLegalCapture(b: Board, player: Player, move: CheckersMove)
    requires move in ValidMoves(b, player) && IsCapture(move)
    ensures IsValidPosition(move.from) && IsValidPosition(move.to) && OwnedBy(b, move.from, player)
    ensures var c := GreedyChain(StepBoard(b, move), player, move.to);
      ApplyBoard(b, player, move) == c.board
      && OwnedBy(c.board, c.landing, player) && !CanCaptureAgain(c.board, At(c.board, c.landing).value, c.landing)
      && PieceCount(c.board, Opponent(player)) == PieceCount(b, Opponent(player)) - 1 - |c.steps|
      && PieceCount(c.board, player) == PieceCount(b, player)
  {
    ValidMovesExactly(b, player, move);
    ChainStep(b, player, move.from, move);
    ChainStopsQuiet(StepBoard(b, move), player, move.to);
    ChainCounts(StepBoard(b, move), player, move.to);
  }

  // The material score.

  /** A man is worth 1, a king 5. */
  function PieceValue(piece: Piece): (v: int)
    ensures v == 1 || v == 5
    ensures v == 5 <==> piece.kind == King
  {
    if piece.kind == King then 5 else 1
  }

  /** The material of `player` on one square. */
  function CellMaterial(c: Cell, player: Player): nat {
    if c.Some? && c.value.player == player then PieceValue(c.value) else 0
  }

  function RowMaterial(row: seq<Cell>, player: Player, n: int): int
    requires 0 <= n <= |row|
  {
    if n == 0 then 0 else RowMaterial(row, player, n - 1) + CellMaterial(row[n - 1], player)
  }

  /** The material of `player` in the first n rows: the sum of its pieces' values. */
  function Material(b: Board, player: Player, n: int): int
    requires 0 <= n <= 8
  {
    if n == 0 then 0 else Material(b, player, n - 1) + RowMaterial(b[n - 1], player, 8)
  }

  /** The change `score` makes for one square, seen from `player`. */
  function CellScore(c: Cell, player: Player): int {
    match c
    case None => 0
    case Some(piece) => if piece.player == player then PieceValue(piece) else -PieceValue(piece)
  }

  function RowScore(row: seq<Cell>, player: Player, n: int): int
    requires 0 <= n <= |row|
  {
    if n == 0 then 0 else RowScore(row, player, n - 1) + CellScore(row[n - 1], player)
  }

  /** The running total of `score` after the first n rows. */
  function BoardScore(b: Board, player: Player, n: int): int
    requires 0 <= n <= 8
  {
    if n == 0 then 0 else BoardScore(b, player, n - 1) + RowScore(b[n - 1], player, 8)
  }

  lemma {:induction false} RowScoreIsDifference(row: seq<Cell>, player: Player, n: int)
    requires 0 <= n <= |row|
    ensures RowScore(row, player, n) == RowMaterial(row, player, n) - RowMaterial(row, Opponent(player), n)
    decreases n
  {
    if n > 0 {
      RowScoreIsDifference(row, player, n - 1);
    }
  }

  lemma {:induction false} BoardScoreIsDifference(b: Board, player: Player, n: int)
    requires 0 <= n <= 8
    ensures BoardScore(b, player, n) == Material(b, player, n) - Material(b, Opponent(player), n)
    decreases n
  {
    if n > 0 {
      BoardScoreIsDifference(b, player, n - 1);
      RowScoreIsDifference(b[n - 1], player, 8);
    }
  }

  /**
   * `score(for: p)` is p's material minus the opponent's (man 1, king 5), so the two sides'
   * scores are opposite.
   */
  lemma ScoreIsMaterialDifference(b: Board, player: Player)
    ensures BoardScore(b, player, 8) == Material(b, player, 8) - Material(b, Opponent(player), 8)
    ensures BoardScore(b, White, 8) == -BoardScore(b, Black, 8)
  {
    BoardScoreIsDifference(b, player, 8);
    BoardScoreIsDifference(b, White, 8);
    BoardScoreIsDifference(b, Black, 8);
  }

  /** `CheckersGameModel`: the position the search explores. */
  class CheckersGameModel {
    var board: Board
    var currentPlayer: Player
    var players: Option<seq<CheckersPlayer>>

    constructor(board: Board, currentPlayer: Player)
      ensures this.board == board && this.currentPlayer == currentPlayer
      ensures players == Some(DefaultPlayers())
    {
      this.board := board;
      this.currentPlayer := currentPlayer;
      players := Some(DefaultPlayers());
    }

    /** `activePlayer`: the first listed player whose side is to move. */
    function ActivePlayer(): (r: Option<CheckersPlayer>)
      reads this
      ensures players.None? ==> r.None?
      ensures r.Some? ==> r.value.player == currentPlayer
      ensures players == Some(DefaultPlayers()) ==> r == Some(NewCheckersPlayer(currentPlayer))
    {
      match players
      case None => None
      case Some(ps) =>
        DefaultActivePlayer(currentPlayer);
        FirstPlaying(ps, currentPlayer)
    }

    /** `setGameModel`: take over another model's board and side to move. */
    method SetGameModel(model: CheckersGameModel)
      modifies this
      ensures board == old(model.board) && currentPlayer == old(model.currentPlayer)
      ensures players == old(players)
    {
      board := model.board;
      currentPlayer := model.currentPlayer;
    }

    /** `isWin(for:)`: `checkForWinner` names this side. */
    function IsWin(p: CheckersPlayer): (r: bool)
      reads this
      ensures r <==>
        (p.player == Black && NoPiecesOf(board, White)) || (p.player == White && !NoPiecesOf(board, White) && NoPiecesOf(board, Black))
    {
      CheckForWinner(board) == Some(p.player)
    }

    /** `isLoss(for:)`: `checkForWinner` names the other side. */
    function IsLoss(p: CheckersPlayer): (r: bool)
      reads this
      ensures r <==>
        (p.player == White && NoPiecesOf(board, White)) || (p.player == Black && !NoPiecesOf(board, White) && NoPiecesOf(board, Black))
    {
      var winner := CheckForWinner(board);
      winner.Some? && winner.value != p.player
    }

    /** `gameModelUpdates(for:)`: the rules' move list, or nothing when the side has no move at all. */
    function GameModelUpdates(p: CheckersPlayer): (r: Option<seq<CheckersMove>>)
      reads this
      ensures r.None? <==> forall m :: !Generated(board, p.player, m)
      ensures r.Some? ==> r.value == ValidMoves(board, p.player) && r.value != []
    {
      ValidMovesEmpty(board, p.player);
      var moves := ValidMoves(board, p.player);
      if moves == [] then None else Some(moves)
    }

    /**
     * `apply`: one step, then (if it captured) the greedy chain from the landing square, then
     * exactly one change of the side to move.
     */
    method Apply(move: CheckersMove)
      requires IsValidPosition(move.from) && IsValidPosition(move.to)
      modifies this
      ensures board == ApplyBoard(old(board), old(currentPlayer), move)
      ensures currentPlayer == Opponent(old(currentPlayer))
      ensures players == old(players)
    {
      var wasCapture;
      board, wasCapture := ExecuteStep(board, move);
      if wasCapture {
        board := FollowChain(board, currentPlayer, move.to);
      }
      currentPlayer := if currentPlayer == White then Black else White;
    }

    /** `score(for:)`, accumulated square by square. */
    method Score(p: CheckersPlayer) returns (score: int)
      ensures score == BoardScore(board, p.player, 8)
    {
      score := 0;
      for r := 0 to 8
        invariant score == BoardScore(board, p.player, r)
      {
        for c := 0 to 8
          invariant score == BoardScore(board, p.player, r) + RowScore(board[r], p.player, c)
        {
          var cell := board[r][c];
          if cell.Some? {
            var piece := cell.value;
            var value := if piece.kind == King then 5 else 1;
            if piece.player == p.player {
              score := score + value;
            } else {
              score := score - value;
            }
          }
        }
      }
    }

    /** `copy(with:)`: a fresh model on the same board with the same side to move. */
    method Copy() returns (c: CheckersGameModel)
      ensures fresh(c)
      ensures c.board == board && c.currentPlayer == currentPlayer && c.players == Some(DefaultPlayers())
    {
      c := new CheckersGameModel(board, currentPlayer);
    }
  }

  /** Win and loss never hold together, and neither holds while nobody has won. */
  lemma WinLossExclusive(g: CheckersGameModel, p: CheckersPlayer)
    ensures !(g.IsWin(p) && g.IsLoss(p))
    ensures CheckForWinner(g.board) == None ==> !g.IsWin(p) && !g.IsLoss(p)
  {
  }

  /**
   * `CheckersAI` (the first of the two declarations in CheckersAI.swift): the difficulty and the
   * look-ahead depth it sets on the strategist.
   */
  class CheckersAI {
    var difficulty: DifficultyLevel
    var maxLookAheadDepth: int

    /** `init(difficulty:)`: store the level, then `updateDifficulty(to:)`. */
    constructor(difficulty: DifficultyLevel := Medium)
      ensures this.difficulty == difficulty && maxLookAheadDepth == DifficultyRawValue(difficulty)
    {
      this.difficulty := difficulty;
      new;
      UpdateDifficulty(difficulty);
    }

    /** `updateDifficulty(to:)`: the look-ahead depth becomes the level's raw value (1, 3 or 5). */
    method UpdateDifficulty(newDifficulty: DifficultyLevel)
      modifies this
      ensures difficulty == newDifficulty && maxLookAheadDepth == DifficultyRawValue(newDifficulty)
      ensures maxLookAheadDepth in {1, 3, 5}
    {
      difficulty := newDifficulty;
      maxLookAheadDepth := DifficultyRawValue(difficulty);
    }
  }
}

/**
 * The rule engine `CheckersRules` (NOISYSTRESS/Services/CheckersRules.swift):
 * move generation with forced capture, single-step application with capture
 * and promotion, and the piece-count winner test.
 */
module CheckersRules {
  import opened Options
  import opened CheckersTypes
  import opened CheckersMoves

  /** A (row, column) offset. */
  type Direction = (int, int)

  predicate IsUnitDiagonal(d: Direction) {
    (d.0 == 1 || d.0 == -1) && (d.1 == 1 || d.1 == -1)
  }

  /** The direction list of `getMovesForPiece`, in the order it is scanned. */
  function Directions(piece: Piece): (ds: seq<Direction>)
    ensures forall d :: d in ds ==> IsUnitDiagonal(d)
  {
    if piece.kind == King then [(-1, -1), (-1, 1), (1, -1), (1, 1)]
    else if piece.player == White then [(-1, -1), (-1, 1)]
    else [(1, -1), (1, 1)]
  }

  /** The row steps the rules allow: kings both ways, white men towards row 0, black men towards row 7. */
  predicate MayAdvance(piece: Piece, rowStep: int) {
    piece.kind == King || (piece.player == White && rowStep == -1) || (piece.player == Black && rowStep == 1)
  }

  /** Kings use all four diagonals, white men only row -1, black men only row +1. */
  lemma DirectionsAllowed(piece: Piece, d: Direction)
    ensures d in Directions(piece) <==> IsUnitDiagonal(d) && MayAdvance(piece, d.0)
  {
  }

  /** Swift's `abs` on `Int`. */
  function Abs(x: int): (r: nat)
    ensures r == x || r == -x
  {
    if x < 0 then -x else x
  }

  /** `isCapture`: the move spans two rows. */
  predicate IsCapture(m: CheckersMove): (r: bool)
    ensures r <==> Abs(m.to.row - m.from.row) == 2
    ensures r ==> m.from != m.to
  {
    var dr := m.to.row - m.from.row;
    dr == 2 || dr == -2
  }

  /** The square one step along `d`: the target of a simple move and the square a jump passes over. */
  function Neighbour(pos: Position, d: Direction): Position {
    Position(pos.row + d.0, pos.column + d.1)
  }

  /** The square two steps along `d`: the target of a jump. */
  function JumpTarget(pos: Position, d: Direction): Position {
    Position(pos.row + d.0 * 2, pos.column + d.1 * 2)
  }

  /** The square a jump lands on is on the board only if the square it passes over is. */
  lemma JumpPassesOverBoardSquare(pos: Position, d: Direction)
    requires IsValidPosition(pos) && IsUnitDiagonal(d)
    requires IsValidPosition(JumpTarget(pos, d))
    ensures IsValidPosition(Neighbour(pos, d))
  {
  }

  /** The moves one direction contributes: the simple step first, then the jump. */
  function DirMoves(b: Board, piece: Piece, pos: Position, d: Direction): seq<CheckersMove>
    requires IsValidPosition(pos) && IsUnitDiagonal(d)
  {
    var simplePos := Neighbour(pos, d);
    var jumpPos := JumpTarget(pos, d);
    (if IsValidPosition(simplePos) && At(b, simplePos).None? then [NewMove(pos, simplePos)] else [])
    + (if IsValidPosition(jumpPos) && At(b, jumpPos).None?
          && At(b, simplePos).Some? && At(b, simplePos).value.player != piece.player
       then [NewMove(pos, jumpPos)] else [])
  }

  /** The moves of the directions `dirs`, in their order. */
  function MovesOver(b: Board, piece: Piece, pos: Position, dirs: seq<Direction>): seq<CheckersMove>
    requires IsValidPosition(pos) && forall d :: d in dirs ==> IsUnitDiagonal(d)
  {
    if dirs == [] then []
    else MovesOver(b, piece, pos, dirs[..|dirs| - 1]) + DirMoves(b, piece, pos, dirs[|dirs| - 1])
  }

  lemma MovesOverSnoc(b: Board, piece: Piece, pos: Position, dirs: seq<Direction>, i: int)
    requires IsValidPosition(pos) && forall d :: d in dirs ==> IsUnitDiagonal(d)
    requires 0 <= i < |dirs|
    ensures MovesOver(b, piece, pos, dirs[..i + 1]) == MovesOver(b, piece, pos, dirs[..i]) + DirMoves(b, piece, pos, dirs[i])
  {
    assert dirs[..i + 1][..i] == dirs[..i];
  }

  /** What `getMovesForPiece` returns: the piece's own moves, not filtered by forced capture. */
  function PieceMoves(b: Board, piece: Piece, pos: Position): seq<CheckersMove>
    requires IsValidPosition(pos)
  {
    MovesOver(b, piece, pos, Directions(piece))
  }

  /** `getMovesForPiece`, with its loop over the directions. */
  method GetMovesForPiece(b: Board, piece: Piece, pos: Position) returns (moves: seq<CheckersMove>)
    requires IsValidPosition(pos)
    ensures moves == PieceMoves(b, piece, pos)
  {
    moves := [];
    var directions := Directions(piece);
    for i := 0 to |directions|
      invariant moves == MovesOver(b, piece, pos, directions[..i])
    {
      ghost var previous := moves;
      var (rowOffset, colOffset) := directions[i];
      // Simple move
      var simplePos := Position(pos.row + rowOffset, pos.column + colOffset);
      if IsValidPosition(simplePos) && At(b, simplePos).None? {
        moves := moves + [NewMove(pos, simplePos)];
      }
      // Capture move
      var jumpPos := Position(pos.row + rowOffset * 2, pos.column + colOffset * 2);
      var midPos := Position(pos.row + rowOffset, pos.column + colOffset);
      if IsValidPosition(jumpPos) && At(b, jumpPos).None? {
        if At(b, midPos).Some? && At(b, midPos).value.player != piece.player {
          moves := moves + [NewMove(pos, jumpPos)];
        }
      }
      assert moves == previous + DirMoves(b, piece, pos, directions[i]);
      MovesOverSnoc(b, piece, pos, directions, i);
    }
    assert directions[..|directions|] == directions;
  }

  // The board scan of `getValidMoves`: row by row, and column by column within a row.

  /** The moves the scan collects at `pos`: those of a piece of `player` standing there. */
  function CellMoves(b: Board, player: Player, pos: Position): seq<CheckersMove>
    requires IsValidPosition(pos)
  {
    match At(b, pos)
    case Some(piece) => if piece.player == player then PieceMoves(b, piece, pos) else []
    case None => []
  }

  /** The first n lists of `blocks`, one after another. */
  function Flatten(blocks: seq<seq<CheckersMove>>, n: int): seq<CheckersMove>
    requires 0 <= n <= |blocks|
  {
    if n == 0 then [] else Flatten(blocks, n - 1) + blocks[n - 1]
  }

  /** A move is in the first n lists exactly when it is in one of them. */
  lemma {:induction false} FlattenMembership(blocks: seq<seq<CheckersMove>>, n: int, m: CheckersMove)
    requires 0 <= n <= |blocks|
    ensures m in Flatten(blocks, n) <==> exists i :: 0 <= i < n && m in blocks[i]
    decreases n
  {
    if n > 0 {
      FlattenMembership(blocks, n - 1, m);
    }
  }

  /** What the scan collects at each square of row r, column by column. */
  function RowCells(b: Board, player: Player, r: int): seq<seq<CheckersMove>>
    requires 0 <= r < 8
  {
    seq(8, c requires 0 <= c < 8 => CellMoves(b, player, Position(r, c)))
  }

  /** The moves of the first n squares of row r. */
  function RowMoves(b: Board, player: Player, r: int, n: int): seq<CheckersMove>
    requires 0 <= r < 8 && 0 <= n <= 8
  {
    Flatten(RowCells(b, player, r), n)
  }

  /** What the scan collects in each row. */
  function Rows(b: Board, player: Player): seq<seq<CheckersMove>> {
    seq(8, r requires 0 <= r < 8 => RowMoves(b, player, r, 8))
  }

  /** The moves of the first n rows. */
  function ScanMoves(b: Board, player: Player, n: int): seq<CheckersMove>
    requires 0 <= n <= 8
  {
    Flatten(Rows(b, player), n)
  }

  /** The capturing moves of `ms`, in order. */
  function Captures(ms: seq<CheckersMove>): seq<CheckersMove> {
    if ms == [] then []
    else Captures(ms[..|ms| - 1]) + (if IsCapture(ms[|ms| - 1]) then [ms[|ms| - 1]] else [])
  }

  /** The non-capturing moves of `ms`, in order. */
  function Simples(ms: seq<CheckersMove>): seq<CheckersMove> {
    if ms == [] then []
    else Simples(ms[..|ms| - 1]) + (if IsCapture(ms[|ms| - 1]) then [] else [ms[|ms| - 1]])
  }

  lemma FiltersSnoc(ms: seq<CheckersMove>, m: CheckersMove)
    ensures Captures(ms + [m]) == Captures(ms) + (if IsCapture(m) then [m] else [])
    ensures Simples(ms + [m]) == Simples(ms) + (if IsCapture(m) then [] else [m])
  {
    assert (ms + [m])[..|ms|] == ms;
  }

  lemma {:induction false} FiltersConcat(ms: seq<CheckersMove>, ns: seq<CheckersMove>)
    ensures Captures(ms + ns) == Captures(ms) + Captures(ns)
    ensures Simples(ms + ns) == Simples(ms) + Simples(ns)
    decreases |ns|
  {
    if ns == [] {
      assert ms + ns == ms;
    } else {
      var last := ns[|ns| - 1];
      var init := ns[..|ns| - 1];
      assert ns == init + [last];
      assert ms + ns == (ms + init) + [last];
      FiltersSnoc(ms + init, last);
      FiltersSnoc(init, last);
      FiltersConcat(ms, init);
    }
  }

  /** What `getValidMoves` returns: the captures of the scan if there are any, else its simple moves. */
  function ValidMoves(b: Board, player: Player): seq<CheckersMove> {
    var all := ScanMoves(b, player, 8);
    if Captures(all) != [] then Captures(all) else Simples(all)
  }

  /** One more list adds its captures and its simple moves. */
  lemma FlattenStep(s: seq<CheckersMove>, blocks: seq<seq<CheckersMove>>, c: int)
    requires 0 <= c < |blocks|
    ensures Captures(s + Flatten(blocks, c + 1)) == Captures(s + Flatten(blocks, c)) + Captures(blocks[c])
    ensures Simples(s + Flatten(blocks, c + 1)) == Simples(s + Flatten(blocks, c)) + Simples(blocks[c])
  {
    FiltersAppend(s, Flatten(blocks, c), blocks[c]);
  }

  lemma FiltersAppend(s: seq<CheckersMove>, t: seq<CheckersMove>, u: seq<CheckersMove>)
    ensures Captures(s + (t + u)) == Captures(s + t) + Captures(u)
    ensures Simples(s + (t + u)) == Simples(s + t) + Simples(u)
  {
    assert s + (t + u) == (s + t) + u;
    FiltersConcat(s + t, u);
  }

  lemma ScanRowStart(b: Board, player: Player, r: int)
    requires 0 <= r < 8
    ensures ScanMoves(b, player, r) + RowMoves(b, player, r, 0) == ScanMoves(b, player, r)
    ensures ScanMoves(b, player, r) + RowMoves(b, player, r, 8) == ScanMoves(b, player, r + 1)
  {
    assert Rows(b, player)[r] == RowMoves(b, player, r, 8);
  }

  /** One square more of row r adds the captures and the simple moves collected at that square. */
  lemma ScanStep(b: Board, player: Player, r: int, c: int)
    requires 0 <= r < 8 && 0 <= c < 8
    ensures Captures(ScanMoves(b, player, r) + RowMoves(b, player, r, c + 1))
      == Captures(ScanMoves(b, player, r) + RowMoves(b, player, r, c)) + Captures(CellMoves(b, player, Position(r, c)))
    ensures Simples(ScanMoves(b, player, r) + RowMoves(b, player, r, c + 1))
      == Simples(ScanMoves(b, player, r) + RowMoves(b, player, r, c)) + Simples(CellMoves(b, player, Position(r, c)))
  {
    FlattenStep(ScanMoves(b, player, r), RowCells(b, player, r), c);
    assert RowCells(b, player, r)[c] == CellMoves(b, player, Position(r, c));
  }

  /** The inner `for move in moves` loop of the scan: append each capture to one list, each other move to the other. */
  method SortMoves(moves: seq<CheckersMove>, captures0: seq<CheckersMove>, simples0: seq<CheckersMove>)
    returns (captureMoves: seq<CheckersMove>, simpleMoves: seq<CheckersMove>)
    ensures captureMoves == captures0 + Captures(moves)
    ensures simpleMoves == simples0 + Simples(moves)
  {
    captureMoves, simpleMoves := captures0, simples0;
    for j := 0 to |moves|
      invariant captureMoves == captures0 + Captures(moves[..j])
      invariant simpleMoves == simples0 + Simples(moves[..j])
    {
      var move := moves[j];
      assert moves[..j + 1] == moves[..j] + [move];
      FiltersSnoc(moves[..j], move);
      if IsCapture(move) {
        captureMoves := captureMoves + [move];
      } else {
        simpleMoves := simpleMoves + [move];
      }
    }
    assert moves[..|moves|] == moves;
  }

  /** The body of the scan at one square: sort the moves of a piece of `player` there into the two lists. */
  method CollectSquare(b: Board, player: Player, pos: Position, captures0: seq<CheckersMove>, simples0: seq<CheckersMove>)
    returns (captureMoves: seq<CheckersMove>, simpleMoves: seq<CheckersMove>)
    requires IsValidPosition(pos)
    ensures captureMoves == captures0 + Captures(CellMoves(b, player, pos))
    ensures simpleMoves == simples0 + Simples(CellMoves(b, player, pos))
  {
    var cell := At(b, pos);
    if cell.Some? && cell.value.player == player {
      var pieceMoves := GetMovesForPiece(b, cell.value, pos);
      captureMoves, simpleMoves := SortMoves(pieceMoves, captures0, simples0);
    } else {
      assert CellMoves(b, player, pos) == [];
      captureMoves, simpleMoves := captures0, simples0;
      assert captures0 + [] == captures0 && simples0 + [] == simples0;
    }
  }

  /** `getValidMoves`, with its nested loops over rows and columns. */
  method GetValidMoves(b: Board, player: Player) returns (moves: seq<CheckersMove>)
    ensures moves == ValidMoves(b, player)
  {
    var simpleMoves: seq<CheckersMove> := [];
    var captureMoves: seq<CheckersMove> := [];
    for r := 0 to 8
      invariant captureMoves == Captures(ScanMoves(b, player, r))
      invariant simpleMoves == Simples(ScanMoves(b, player, r))
    {
      ScanRowStart(b, player, r);
      for c := 0 to 8
        invariant captureMoves == Captures(ScanMoves(b, player, r) + RowMoves(b, player, r, c))
        invariant simpleMoves == Simples(ScanMoves(b, player, r) + RowMoves(b, player, r, c))
      {
        ScanStep(b, player, r, c);
        captureMoves, simpleMoves := CollectSquare(b, player, Position(r, c), captureMoves, simpleMoves);
      }
    }
    if captureMoves != [] {
      return captureMoves;
    }
    return simpleMoves;
  }

  // Membership in the generated lists.

  /** The moves of `ms` that `Captures` keeps are exactly its capturing moves. */
  lemma {:induction false} FiltersMembership(ms: seq<CheckersMove>, m: CheckersMove)
    ensures m in Captures(ms) <==> m in ms && IsCapture(m)
    ensures m in Simples(ms) <==> m in ms && !IsCapture(m)
    decreases |ms|
  {
    if ms != [] {
      var init := ms[..|ms| - 1];
      assert ms == init + [ms[|ms| - 1]];
      FiltersMembership(init, m);
    }
  }

  /** `canCaptureAgain`: the piece's own (unfiltered) move list holds a capture. */
  function CanCaptureAgain(b: Board, piece: Piece, pos: Position): (r: bool)
    requires IsValidPosition(pos)
    ensures r <==> exists m :: m in PieceMoves(b, piece, pos) && IsCapture(m)
  {
    var moves := PieceMoves(b, piece, pos);
    if Captures(moves) == [] then
      assert forall m :: m in moves && IsCapture(m) ==> m in Captures(moves) by {
        forall m | m in moves && IsCapture(m) {
          FiltersMembership(moves, m);
        }
      }
      false
    else
      FiltersMembership(moves, Captures(moves)[0]);
      true
  }

  /** The reference reading of a single step: a diagonal step to an empty square, or a jump over an opponent. */
  predicate LegalStep(b: Board, piece: Piece, pos: Position, to: Position)
    requires IsValidPosition(pos)
  {
    var dr := to.row - pos.row;
    var dc := to.column - pos.column;
    IsValidPosition(to) && At(b, to).None? &&
    (((dr == 1 || dr == -1) && (dc == 1 || dc == -1) && MayAdvance(piece, dr)) ||
     ((dr == 2 || dr == -2) && (dc == 2 || dc == -2) && MayAdvance(piece, dr / 2) &&
      var mid := Position(pos.row + dr / 2, pos.column + dc / 2);
      At(b, mid).Some? && At(b, mid).value.player != piece.player))
  }

  lemma DirMovesShape(b: Board, piece: Piece, pos: Position, d: Direction, m: CheckersMove)
    requires IsValidPosition(pos) && IsUnitDiagonal(d)
    ensures m in DirMoves(b, piece, pos, d) <==>
      m == NewMove(pos, m.to) && IsValidPosition(m.to) && At(b, m.to).None? &&
      ((m.to == Neighbour(pos, d)) ||
       (m.to == JumpTarget(pos, d) && At(b, Neighbour(pos, d)).Some? && At(b, Neighbour(pos, d)).value.player != piece.player))
  {
  }

  lemma {:induction false} MovesOverShape(b: Board, piece: Piece, pos: Position, dirs: seq<Direction>, m: CheckersMove)
    requires IsValidPosition(pos) && forall d :: d in dirs ==> IsUnitDiagonal(d)
    ensures m in MovesOver(b, piece, pos, dirs) <==> exists d :: d in dirs && m in DirMoves(b, piece, pos, d)
    decreases |dirs|
  {
    if dirs != [] {
      var init := dirs[..|dirs| - 1];
      assert dirs == init + [dirs[|dirs| - 1]];
      MovesOverShape(b, piece, pos, init, m);
    }
  }

  /**
   * Shape of every move of a piece: `getMovesForPiece` yields exactly the moves from `pos`
   * that are a legal step in one of the piece's directions.
   */
  lemma PieceMovesShape(b: Board, piece: Piece, pos: Position, m: CheckersMove)
    requires IsValidPosition(pos)
    ensures m in PieceMoves(b, piece, pos) <==> m == NewMove(pos, m.to) && LegalStep(b, piece, pos, m.to)
  {
    if m in PieceMoves(b, piece, pos) {
      PieceMovesSound(b, piece, pos, m);
    }
    if m == NewMove(pos, m.to) && LegalStep(b, piece, pos, m.to) {
      PieceMovesComplete(b, piece, pos, m);
    }
  }

  lemma PieceMovesSound(b: Board, piece: Piece, pos: Position, m: CheckersMove)
    requires IsValidPosition(pos) && m in PieceMoves(b, piece, pos)
    ensures m == NewMove(pos, m.to) && LegalStep(b, piece, pos, m.to)
  {
    var dirs := Directions(piece);
    MovesOverShape(b, piece, pos, dirs, m);
    var d :| d in dirs && m in DirMoves(b, piece, pos, d);
    DirectionsAllowed(piece, d);
    DirMovesLegal(b, piece, pos, d, m);
  }

  /** A move one allowed direction contributes is a legal step. */
  lemma DirMovesLegal(b: Board, piece: Piece, pos: Position, d: Direction, m: CheckersMove)
    requires IsValidPosition(pos) && IsUnitDiagonal(d) && MayAdvance(piece, d.0)
    requires m in DirMoves(b, piece, pos, d)
    ensures m == NewMove(pos, m.to) && LegalStep(b, piece, pos, m.to)
  {
    DirMovesShape(b, piece, pos, d, m);
    if m.to == JumpTarget(pos, d) {
      assert (m.to.row - pos.row) / 2 == d.0 && (m.to.column - pos.column) / 2 == d.1;
    }
  }

  lemma PieceMovesComplete(b: Board, piece: Piece, pos: Position, m: CheckersMove)
    requires IsValidPosition(pos) && m == NewMove(pos, m.to) && LegalStep(b, piece, pos, m.to)
    ensures m in PieceMoves(b, piece, pos)
  {
    var dr := m.to.row - pos.row;
    var dc := m.to.column - pos.column;
    var d := if dr == 1 || dr == -1 then (dr, dc) else (dr / 2, dc / 2);
    DirectionsAllowed(piece, d);
    assert d in Directions(piece);
    DirMovesShape(b, piece, pos, d, m);
    assert m in DirMoves(b, piece, pos, d);
    MovesOverShape(b, piece, pos, Directions(piece), m);
  }

  /** Every move of a piece starts on its square. */
  lemma PieceMovesFrom(b: Board, piece: Piece, pos: Position, m: CheckersMove)
    requires IsValidPosition(pos) && m in PieceMoves(b, piece, pos)
    ensures m.from == pos && m.intermediates == [] && m.value == 0
  {
    PieceMovesShape(b, piece, pos, m);
  }

  /** A move of the scan: a move of a piece of `player`, from the square that piece stands on. */
  ghost predicate Generated(b: Board, player: Player, m: CheckersMove) {
    IsValidPosition(m.from) && OwnedBy(b, m.from, player) && m in PieceMoves(b, At(b, m.from).value, m.from)
  }

  /** The moves collected at one square are the generated moves from that square. */
  lemma CellMembership(b: Board, player: Player, pos: Position, m: CheckersMove)
    requires IsValidPosition(pos)
    ensures m in CellMoves(b, player, pos) <==> Generated(b, player, m) && m.from == pos
  {
    if m in CellMoves(b, player, pos) {
      PieceMovesFrom(b, At(b, pos).value, pos, m);
    }
  }

  lemma RowMembership(b: Board, player: Player, r: int, n: int, m: CheckersMove)
    requires 0 <= r < 8 && 0 <= n <= 8
    ensures m in RowMoves(b, player, r, n) <==> Generated(b, player, m) && m.from.row == r && m.from.column < n
  {
    var cells := RowCells(b, player, r);
    FlattenMembership(cells, n, m);
    if m in RowMoves(b, player, r, n) {
      var i :| 0 <= i < n && m in cells[i];
      CellMembership(b, player, Position(r, i), m);
    }
    if Generated(b, player, m) && m.from.row == r && m.from.column < n {
      CellMembership(b, player, m.from, m);
      assert m in cells[m.from.column];
    }
  }

  lemma ScanMembership(b: Board, player: Player, n: int, m: CheckersMove)
    requires 0 <= n <= 8
    ensures m in ScanMoves(b, player, n) <==> Generated(b, player, m) && m.from.row < n
  {
    var rows := Rows(b, player);
    FlattenMembership(rows, n, m);
    if m in ScanMoves(b, player, n) {
      var i :| 0 <= i < n && m in rows[i];
      RowMembership(b, player, i, 8, m);
    }
    if Generated(b, player, m) && m.from.row < n {
      RowMembership(b, player, m.from.row, 8, m);
      assert m in rows[m.from.row];
    }
  }

  /** Some piece of `player` has a capture. */
  ghost predicate AnyCapture(b: Board, player: Player) {
    exists m :: Generated(b, player, m) && IsCapture(m)
  }

  /**
   * Forced capture: `getValidMoves` holds exactly the generated captures when there is one,
   * and exactly the generated simple moves otherwise.
   */
  lemma ValidMovesExactly(b: Board, player: Player, m: CheckersMove)
    ensures m in ValidMoves(b, player) <==> Generated(b, player, m) && (IsCapture(m) <==> AnyCapture(b, player))
  {
    var all := ScanMoves(b, player, 8);
    ScanMembership(b, player, 8, m);
    FiltersMembership(all, m);
    if AnyCapture(b, player) {
      var c :| Generated(b, player, c) && IsCapture(c);
      ScanMembership(b, player, 8, c);
      FiltersMembership(all, c);
    } else if Captures(all) != [] {
      var c := Captures(all)[0];
      FiltersMembership(all, c);
      ScanMembership(b, player, 8, c);
    }
  }

  /** Every returned move starts on a square holding a piece of the player. */
  lemma ValidMovesOwned(b: Board, player: Player, m: CheckersMove)
    requires m in ValidMoves(b, player)
    ensures IsValidPosition(m.from) && OwnedBy(b, m.from, player)
  {
    ValidMovesExactly(b, player, m);
  }

  /** The returned list never mixes captures and simple moves. */
  lemma ValidMovesUniform(b: Board, player: Player, m: CheckersMove, n: CheckersMove)
    requires m in ValidMoves(b, player) && n in ValidMoves(b, player)
    ensures IsCapture(m) <==> IsCapture(n)
  {
    ValidMovesExactly(b, player, m);
    ValidMovesExactly(b, player, n);
  }

  /** The list is empty exactly when no piece of the player has any move. */
  lemma ValidMovesEmpty(b: Board, player: Player)
    ensures ValidMoves(b, player) == [] <==> forall m :: !Generated(b, player, m)
  {
    if ValidMoves(b, player) == [] {
      forall m | Generated(b, player, m)
        ensures false
      {
        ValidMovesExactly(b, player, m);
        if !AnyCapture(b, player) {
        } else {
          var c :| Generated(b, player, c) && IsCapture(c);
          ValidMovesExactly(b, player, c);
        }
      }
    } else {
      ValidMovesExactly(b, player, ValidMoves(b, player)[0]);
    }
  }

  // Applying one step.

  /** The square a capture jumps over (both coordinates are non-negative, so `/` rounds down). */
  function Midpoint(m: CheckersMove): (mid: Position)
    requires IsValidPosition(m.from) && IsValidPosition(m.to)
    ensures IsValidPosition(mid)
  {
    Position((m.from.row + m.to.row) / 2, (m.from.column + m.to.column) / 2)
  }

  /** A white piece reaching row 0 or a black piece reaching row 7 is crowned. */
  predicate Promotes(player: Player, row: int) {
    (player == White && row == 0) || (player == Black && row == 7)
  }

  /** The piece as it lands on `to`. */
  function Landed(piece: Piece, to: Position): (p: Piece)
    ensures p.player == piece.player && p.position == to
    ensures p.kind == King <==> piece.kind == King || Promotes(piece.player, to.row)
    ensures !Promotes(piece.player, to.row) ==> p.kind == piece.kind
  {
    piece.(kind := if Promotes(piece.player, to.row) then King else piece.kind, position := to)
  }

  /** The board after `executeStep` moves the piece on `m.from`. */
  function StepBoard(b: Board, m: CheckersMove): Board
    requires IsValidPosition(m.from) && IsValidPosition(m.to) && At(b, m.from).Some?
  {
    var cleared := if IsCapture(m) then Set(b, Midpoint(m), None) else b;
    Set(Set(cleared, m.from, None), m.to, Some(Landed(At(b, m.from).value, m.to)))
  }

  /**
   * The effect of one step: the piece lands on `to`, its old square and (for a capture) the
   * jumped square are empty, and every other square is unchanged.
   */
  lemma StepBoardEffect(b: Board, m: CheckersMove, q: Position)
    requires IsValidPosition(m.from) && IsValidPosition(m.to) && At(b, m.from).Some?
    requires IsValidPosition(q)
    ensures At(StepBoard(b, m), q) ==
      if q == m.to then Some(Landed(At(b, m.from).value, m.to))
      else if q == m.from || (IsCapture(m) && q == Midpoint(m)) then None
      else At(b, q)
  {
  }

  /** `executeStep`, updating the board square by square. */
  method ExecuteStep(b: Board, move: CheckersMove) returns (b': Board, captured: bool)
    requires IsValidPosition(move.from) && IsValidPosition(move.to)
    ensures At(b, move.from).None? ==> b' == b && !captured
    ensures At(b, move.from).Some? ==> b' == StepBoard(b, move) && captured == IsCapture(move)
  {
    b' := b;
    var cell := At(b', move.from);
    if cell.None? {
      return b', false;
    }
    var piece := cell.value;
    captured := false;
    if IsCapture(move) {
      var midRow := (move.from.row + move.to.row) / 2;
      var midCol := (move.from.column + move.to.column) / 2;
      b' := Set(b', Position(midRow, midCol), None);
      captured := true;
    }
    b' := Set(b', move.from, None);
    if Promotes(piece.player, move.to.row) {
      piece := piece.(kind := King);
    }
    piece := piece.(position := move.to);
    b' := Set(b', move.to, Some(piece));
  }

  // Counting pieces.

  function CellCount(c: Cell, player: Player): nat {
    if c.Some? && c.value.player == player then 1 else 0
  }

  function RowCount(row: seq<Cell>, player: Player): nat {
    if row == [] then 0 else CellCount(row[0], player) + RowCount(row[1..], player)
  }

  function RowsCount(rows: seq<seq<Cell>>, player: Player): nat {
    if rows == [] then 0 else RowCount(rows[0], player) + RowsCount(rows[1..], player)
  }

  /** The number of pieces of `player` on the board. */
  function PieceCount(b: Board, player: Player): nat {
    RowsCount(b, player)
  }

  lemma {:induction false} RowCountUpdate(row: seq<Cell>, i: int, v: Cell, player: Player)
    requires 0 <= i < |row|
    ensures RowCount(row[i := v], player) + CellCount(row[i], player) == RowCount(row, player) + CellCount(v, player)
    decreases |row|
  {
    if i == 0 {
      assert row[i := v][1..] == row[1..];
    } else {
      assert row[i := v][1..] == row[1..][i - 1 := v];
      RowCountUpdate(row[1..], i - 1, v, player);
    }
  }

  lemma {:induction false} RowsCountUpdate(rows: seq<seq<Cell>>, i: int, row: seq<Cell>, player: Player)
    requires 0 <= i < |rows|
    ensures RowsCount(rows[i := row], player) + RowCount(rows[i], player) == RowsCount(rows, player) + RowCount(row, player)
    decreases |rows|
  {
    if i == 0 {
      assert rows[i := row][1..] == rows[1..];
    } else {
      assert rows[i := row][1..] == rows[1..][i - 1 := row];
      RowsCountUpdate(rows[1..], i - 1, row, player);
    }
  }

  /** Writing one square changes a player's count only by what that square held and now holds. */
  lemma CountSet(b: Board, p: Position, v: Cell, player: Player)
    requires IsValidPosition(p)
    ensures PieceCount(Set(b, p, v), player) + CellCount(At(b, p), player) == PieceCount(b, player) + CellCount(v, player)
  {
    RowCountUpdate(b[p.row], p.column, v, player);
    RowsCountUpdate(b, p.row, b[p.row][p.column := v], player);
  }

  /** `player` has no piece anywhere on the board. */
  ghost predicate NoPiecesOf(b: Board, player: Player) {
    forall q :: IsValidPosition(q) ==> !OwnedBy(b, q, player)
  }

  lemma {:induction false} RowCountZero(row: seq<Cell>, player: Player)
    ensures RowCount(row, player) == 0 <==> forall i :: 0 <= i < |row| ==> CellCount(row[i], player) == 0
    decreases |row|
  {
    if row != [] {
      RowCountZero(row[1..], player);
      assert forall i :: 1 <= i < |row| ==> row[i] == row[1..][i - 1];
    }
  }

  lemma {:induction false} RowsCountZero(rows: seq<seq<Cell>>, player: Player)
    ensures RowsCount(rows, player) == 0 <==> forall i :: 0 <= i < |rows| ==> RowCount(rows[i], player) == 0
    decreases |rows|
  {
    if rows != [] {
      RowsCountZero(rows[1..], player);
      assert forall i :: 1 <= i < |rows| ==> rows[i] == rows[1..][i - 1];
    }
  }

  /** The count is zero exactly when no square holds a piece of the player. */
  lemma CountZero(b: Board, player: Player)
    ensures PieceCount(b, player) == 0 <==> NoPiecesOf(b, player)
  {
    RowsCountZero(b, player);
    forall r | 0 <= r < 8 {
      RowCountZero(b[r], player);
    }
    if PieceCount(b, player) == 0 {
      forall q | IsValidPosition(q)
        ensures !OwnedBy(b, q, player)
      {
        assert CellCount(b[q.row][q.column], player) == 0;
      }
    } else {
      var r :| 0 <= r < 8 && RowCount(b[r], player) != 0;
      var c :| 0 <= c < 8 && CellCount(b[r][c], player) != 0;
      assert OwnedBy(b, Position(r, c), player);
    }
  }

  /**
   * `checkForWinner`: black wins when white has no pieces (this test comes first, so even when
   * both sides are empty), white wins when only black has none, and otherwise nobody has won.
   */
  function CheckForWinner(b: Board): (w: Option<Player>)
    ensures w == Some(Black) <==> NoPiecesOf(b, White)
    ensures w == Some(White) <==> !NoPiecesOf(b, White) && NoPiecesOf(b, Black)
    ensures w == None <==> !NoPiecesOf(b, White) && !NoPiecesOf(b, Black)
  {
    CountZero(b, White);
    CountZero(b, Black);
    var whiteCount := PieceCount(b, White);
    var blackCount := PieceCount(b, Black);
    if whiteCount == 0 then Some(Black)
    else if blackCount == 0 then Some(White)
    else None
  }

  /**
   * A capture from the square of a piece removes exactly one opposing piece and keeps the
   * mover's count.
   */
  lemma CaptureRemovesOpponent(b: Board, pos: Position, m: CheckersMove)
    requires IsValidPosition(pos) && At(b, pos).Some?
    requires m in PieceMoves(b, At(b, pos).value, pos) && IsCapture(m)
    ensures m.from == pos && IsValidPosition(m.to) &&
      PieceCount(StepBoard(b, m), Opponent(At(b, pos).value.player)) == PieceCount(b, Opponent(At(b, pos).value.player)) - 1 &&
      PieceCount(StepBoard(b, m), At(b, pos).value.player) == PieceCount(b, At(b, pos).value.player)
  {
    var piece := At(b, pos).value;
    PieceMovesSound(b, piece, pos, m);
    var mid := Midpoint(m);
    assert At(b, mid).Some? && At(b, mid).value.player == Opponent(piece.player);
    var b1 := Set(b, mid, None);
    var b2 := Set(b1, m.from, None);
    forall player | true
      ensures PieceCount(StepBoard(b, m), player) + CellCount(At(b, mid), player) + CellCount(At(b, pos), player)
        == PieceCount(b, player) + CellCount(Some(Landed(piece, m.to)), player)
    {
      CountSet(b, mid, None, player);
      CountSet(b1, m.from, None, player);
      CountSet(b2, m.to, Some(Landed(piece, m.to)), player);
    }
  }
}

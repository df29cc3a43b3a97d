/**
 * The opening layout that every `setupBoard` in the repository writes: the two nested loops that
 * put white men on the dark squares of rows 5-7 and black men on those of rows 0-2.
 */
module BoardSetup {
  import opened Options
  import opened CheckersTypes
  import opened CheckersRules

  /** Two boards that agree on every square are the same board. */
  lemma BoardExtensionality(b: Board, c: Board)
    requires forall q :: IsValidPosition(q) ==> At(b, q) == At(c, q)
    ensures b == c
  {
    forall r | 0 <= r < 8
      ensures b[r] == c[r]
    {
      forall col | 0 <= col < 8
        ensures b[r][col] == c[r][col]
      {
        assert At(b, Position(r, col)) == At(c, Position(r, col));
      }
    }
  }

  /** A man of `player` placed on `q`, as the setup loops create it. */
  function Man(player: Player, q: Position): Piece {
    Piece(player, Normal, q)
  }

  /**
   * One pair of setup loops, `for row in lo..<hi { for col in 0..<8 where (row + col) % 2 == 1 { ... } }`:
   * a man of `player` on every dark square of those rows, every other square as it was.
   */
  method FillRows(b: Board, lo: int, hi: int, player: Player) returns (b': Board)
    requires 0 <= lo <= hi <= 8
    ensures forall q :: IsValidPosition(q) ==>
      At(b', q) == if lo <= q.row < hi && (q.row + q.column) % 2 == 1 then Some(Man(player, q)) else At(b, q)
  {
    b' := b;
    for row := lo to hi
      invariant forall q :: IsValidPosition(q) ==>
        At(b', q) == if lo <= q.row < row && (q.row + q.column) % 2 == 1 then Some(Man(player, q)) else At(b, q)
    {
      for col := 0 to 8
        invariant forall q :: IsValidPosition(q) ==>
          At(b', q) == if (lo <= q.row < row || (q.row == row && q.column < col)) && (q.row + q.column) % 2 == 1
                       then Some(Man(player, q)) else At(b, q)
      {
        if (row + col) % 2 == 1 {
          b' := Set(b', Position(row, col), Some(Piece(player, Normal, Position(row, col))));
        }
      }
    }
  }

  /** The layout both loop pairs leave on top of `b`: the starting squares are set, the rest untouched. */
  function Overlay(b: Board): (o: Board)
    ensures forall q :: IsValidPosition(q) ==>
      At(o, q) == if IsStartingSquare(q.row, q.column) then StartingCell(q.row, q.column) else At(b, q)
  {
    seq(8, r requires 0 <= r < 8 => seq(8, c requires 0 <= c < 8 =>
      if IsStartingSquare(r, c) then StartingCell(r, c) else b[r][c]))
  }

  /** Filling rows 5-7 with white men and then rows 0-2 with black men gives the overlay. */
  lemma FillBothSides(b: Board, white: Board, both: Board)
    requires forall q :: IsValidPosition(q) ==>
      At(white, q) == if 5 <= q.row < 8 && (q.row + q.column) % 2 == 1 then Some(Man(White, q)) else At(b, q)
    requires forall q :: IsValidPosition(q) ==>
      At(both, q) == if 0 <= q.row < 3 && (q.row + q.column) % 2 == 1 then Some(Man(Black, q)) else At(white, q)
    ensures both == Overlay(b)
  {
    BoardExtensionality(both, Overlay(b));
  }

  /** On the empty board, the overlay is the standard layout. */
  lemma OverlayEmpty()
    ensures Overlay(EmptyBoard()) == StandardBoard()
  {
    BoardExtensionality(Overlay(EmptyBoard()), StandardBoard());
  }

  /**
   * The standard layout: white men exactly on the dark squares of rows 5-7, black men exactly on
   * those of rows 0-2, each carrying its own square, and nothing else.
   */
  lemma StandardBoardLayout(q: Position)
    requires IsValidPosition(q)
    ensures OwnedBy(StandardBoard(), q, White) <==> 5 <= q.row && (q.row + q.column) % 2 == 1
    ensures OwnedBy(StandardBoard(), q, Black) <==> q.row < 3 && (q.row + q.column) % 2 == 1
    ensures At(StandardBoard(), q).None? <==> !IsStartingSquare(q.row, q.column)
    ensures At(StandardBoard(), q).Some? ==>
      At(StandardBoard(), q).value.kind == Normal && At(StandardBoard(), q).value.position == q
  {
  }

  lemma RowCountStep(row: seq<Cell>, k: int, player: Player)
    requires 0 <= k < |row|
    ensures RowCount(row[k..], player) == CellCount(row[k], player) + RowCount(row[k + 1..], player)
  {
    assert row[k..][1..] == row[k + 1..];
  }

  /** The count of an eight-square row is the sum over its squares. */
  lemma RowCountOfEight(row: seq<Cell>, player: Player)
    requires |row| == 8
    ensures RowCount(row, player) == CellCount(row[0], player) + CellCount(row[1], player) + CellCount(row[2], player)
      + CellCount(row[3], player) + CellCount(row[4], player) + CellCount(row[5], player)
      + CellCount(row[6], player) + CellCount(row[7], player)
  {
    assert row[0..] == row;
    RowCountStep(row, 0, player);
    RowCountStep(row, 1, player);
    RowCountStep(row, 2, player);
    RowCountStep(row, 3, player);
    RowCountStep(row, 4, player);
    RowCountStep(row, 5, player);
    RowCountStep(row, 6, player);
    RowCountStep(row, 7, player);
    assert row[8..] == [];
  }

  lemma RowsCountStep(rows: seq<seq<Cell>>, k: int, player: Player)
    requires 0 <= k < |rows|
    ensures RowsCount(rows[k..], player) == RowCount(rows[k], player) + RowsCount(rows[k + 1..], player)
  {
    assert rows[k..][1..] == rows[k + 1..];
  }

  /** Each row of the standard layout holds four men of its side. */
  lemma StandardRowCount(r: int, player: Player)
    requires 0 <= r < 8
    ensures RowCount(StandardBoard()[r], player)
      == if (player == White && 5 <= r) || (player == Black && r < 3) then 4 else 0
  {
    RowCountOfEight(StandardBoard()[r], player);
  }

  /** `setupBoard` yields exactly twelve men of each side. */
  lemma StandardBoardCounts(player: Player)
    ensures PieceCount(StandardBoard(), player) == 12
  {
    var b := StandardBoard();
    assert b[0..] == b;
    RowsCountStep(b, 0, player);
    RowsCountStep(b, 1, player);
    RowsCountStep(b, 2, player);
    RowsCountStep(b, 3, player);
    RowsCountStep(b, 4, player);
    RowsCountStep(b, 5, player);
    RowsCountStep(b, 6, player);
    RowsCountStep(b, 7, player);
    assert b[8..] == [];
    StandardRowCount(0, player);
    StandardRowCount(1, player);
    StandardRowCount(2, player);
    StandardRowCount(3, player);
    StandardRowCount(4, player);
    StandardRowCount(5, player);
    StandardRowCount(6, player);
    StandardRowCount(7, player);
  }
}

/**
 * The `CheckersViewModel` declared in ContentView.swift: a board, the side to move and a
 * difficulty, and a `setupBoard` that writes the opening men without clearing the board first.
 */
module ContentViewController {
  import opened Options
  import opened CheckersTypes
  import opened BoardSetup

  /** Each starting square gets a man of its side carrying its own square; every other square is left as it was. */
  lemma OverlayPlacesMen(b: Board, q: Position)
    requires IsValidPosition(q)
    ensures IsStartingSquare(q.row, q.column) ==>
      At(Overlay(b), q) == Some(Man(if q.row >= 5 then White else Black, q))
    ensures !IsStartingSquare(q.row, q.column) ==> At(Overlay(b), q) == At(b, q)
  {
  }

  /** Running the setup loops a second time changes nothing. */
  lemma OverlayIdempotent(b: Board)
    ensures Overlay(Overlay(b)) == Overlay(b)
  {
    BoardExtensionality(Overlay(Overlay(b)), Overlay(b));
  }

  /**
   * Because the board is not cleared, the setup yields the standard opening exactly when every
   * square it does not write (rows 3-4 and the light squares) was already empty.
   */
  lemma OverlayIsStandardExactly(b: Board)
    ensures Overlay(b) == StandardBoard() <==>
      forall q :: IsValidPosition(q) && !IsStartingSquare(q.row, q.column) ==> At(b, q).None?
  {
    if forall q :: IsValidPosition(q) && !IsStartingSquare(q.row, q.column) ==> At(b, q).None? {
      BoardExtensionality(Overlay(b), StandardBoard());
    }
    if Overlay(b) == StandardBoard() {
      forall q | IsValidPosition(q) && !IsStartingSquare(q.row, q.column)
        ensures At(b, q).None?
      {
        assert At(StandardBoard(), q) == StartingCell(q.row, q.column);
      }
    }
  }

  class CheckersViewModel {
    var board: Board
    var currentPlayer: Player
    var aiDifficulty: DifficultyLevel

    /** `init()`: the default (empty) board, then `setupBoard()`, which therefore gives the standard opening. */
    constructor()
      ensures board == StandardBoard() && currentPlayer == White && aiDifficulty == Medium
    {
      board := EmptyBoard();
      currentPlayer := White;
      aiDifficulty := Medium;
      new;
      SetupBoard();
      OverlayEmpty();
    }

    /** `setDifficulty(_:)`: only the stored level changes. */
    method SetDifficulty(difficulty: DifficultyLevel)
      modifies this
      ensures aiDifficulty == difficulty && board == old(board) && currentPlayer == old(currentPlayer)
    {
      aiDifficulty := difficulty;
    }

    /** `setupBoard()`: the two filling loops, on top of whatever the board holds. */
    method SetupBoard()
      modifies this
      ensures board == Overlay(old(board))
      ensures currentPlayer == old(currentPlayer) && aiDifficulty == old(aiDifficulty)
    {
      ghost var before := board;
      board := FillRows(board, 5, 8, White);
      ghost var white := board;
      board := FillRows(board, 0, 3, Black);
      FillBothSides(before, white, board);
    }
  }
}

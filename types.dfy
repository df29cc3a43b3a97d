/**
 * The value types shared by the draughts engine: players, piece kinds,
 * difficulty levels, pieces, positions and the 8x8 board
 * (NOISYSTRESS/ContentView.swift).
 */
module CheckersTypes {
  import opened Options

  /** The two sides. White moves first and advances towards row 0. */
  datatype Player = White | Black

  /** The raw value of the Swift enum `Player: String`. */
  function PlayerRawValue(p: Player): string {
    match p
    case White => "White"
    case Black => "Black"
  }

  /** The failable initializer `Player(rawValue:)` that Swift derives for the enum. */
  function PlayerFromRawValue(s: string): Option<Player> {
    if s == "White" then Some(White)
    else if s == "Black" then Some(Black)
    else None
  }

  /** The raw values are "White" and "Black", and they identify the player. */
  lemma PlayerRawValueRoundTrip(p: Player, s: string)
    ensures PlayerFromRawValue(PlayerRawValue(p)) == Some(p)
    ensures PlayerFromRawValue(s).Some? ==> PlayerRawValue(PlayerFromRawValue(s).value) == s
    ensures PlayerRawValue(White) == "White" && PlayerRawValue(Black) == "Black"
  {
  }

  /** The side that moves after `p`. */
  function Opponent(p: Player): (q: Player)
    ensures q != p
  {
    if p == White then Black else White
  }

  /** `PieceType`: `normal` (a man) or `king`. */
  datatype PieceType = Normal | King

  datatype DifficultyLevel = Easy | Medium | Hard

  /** The raw value of `DifficultyLevel: Int`, which is also the search depth. */
  function DifficultyRawValue(d: DifficultyLevel): int {
    match d
    case Easy => 1
    case Medium => 3
    case Hard => 5
  }

  /** The failable initializer `DifficultyLevel(rawValue:)`. */
  function DifficultyFromRawValue(v: int): Option<DifficultyLevel> {
    if v == 1 then Some(Easy)
    else if v == 3 then Some(Medium)
    else if v == 5 then Some(Hard)
    else None
  }

  /** easy = 1, medium = 3, hard = 5, and no other integer names a level. */
  lemma DifficultyRawValueRoundTrip(d: DifficultyLevel, v: int)
    ensures DifficultyFromRawValue(DifficultyRawValue(d)) == Some(d)
    ensures DifficultyFromRawValue(v).Some? <==> v in {1, 3, 5}
    ensures DifficultyFromRawValue(v).Some? ==> DifficultyRawValue(DifficultyFromRawValue(v).value) == v
    ensures DifficultyRawValue(Easy) == 1 && DifficultyRawValue(Medium) == 3 && DifficultyRawValue(Hard) == 5
  {
  }

  /** `Position`; equality of this datatype is the synthesized `Hashable` equality. */
  datatype Position = Position(row: int, column: int)

  lemma PositionEquality(p: Position, q: Position)
    ensures p == q <==> p.row == q.row && p.column == q.column
  {
  }

  /**
   * `Piece`. The owner is a `let` in the source; the kind (Swift `type`) and
   * the position are the only parts that change, by field update.
   */
  datatype Piece = Piece(player: Player, kind: PieceType, position: Position)

  /** One square of the board: a piece or empty. */
  type Cell = Option<Piece>

  ghost predicate IsBoardShape(b: seq<seq<Cell>>) {
    |b| == 8 && forall r :: 0 <= r < 8 ==> |b[r]| == 8
  }

  /** The board `[[Piece?]]`: eight rows of eight squares. */
  type Board = b: seq<seq<Cell>> | IsBoardShape(b) witness seq(8, _ => seq(8, _ => None))

  /** `isValidPosition` (declared beside the rules): the square lies on the board. */
  predicate IsValidPosition(p: Position) {
    p.row >= 0 && p.row < 8 && p.column >= 0 && p.column < 8
  }

  /** A square is valid exactly when it indexes a square of every board: `board[p.row][p.column]` exists. */
  lemma ValidPositionIndexesBoard(b: Board, p: Position)
    ensures IsValidPosition(p) <==> 0 <= p.row < |b| && 0 <= p.column < |b[p.row]|
  {
  }

  /** `board[p.row][p.column]`. */
  function At(b: Board, p: Position): Cell
    requires IsValidPosition(p)
  {
    b[p.row][p.column]
  }

  /** `board[p.row][p.column] = v` on a copy of the board. */
  function Set(b: Board, p: Position, v: Cell): (b': Board)
    requires IsValidPosition(p)
    ensures forall q :: IsValidPosition(q) ==> At(b', q) == if q == p then v else At(b, q)
  {
    b[p.row := b[p.row][p.column := v]]
  }

  /** The square holds a piece of `player`. */
  predicate OwnedBy(b: Board, p: Position, player: Player)
    requires IsValidPosition(p)
  {
    At(b, p).Some? && At(b, p).value.player == player
  }

  /** The board with every square empty: `Array(repeating: Array(repeating: nil, count: 8), count: 8)`. */
  function EmptyBoard(): (b: Board)
    ensures forall q :: IsValidPosition(q) ==> At(b, q).None?
  {
    seq(8, _ => seq(8, _ => None))
  }

  /** The squares `setupBoard` fills: the dark squares (row + column odd) of rows 0-2 and 5-7. */
  predicate IsStartingSquare(row: int, col: int) {
    0 <= col < 8 && (row + col) % 2 == 1 && (0 <= row < 3 || 5 <= row < 8)
  }

  /** What `setupBoard` writes at a starting square: a white man on rows 5-7, a black man on rows 0-2. */
  function StartingPiece(row: int, col: int): Piece {
    Piece(if row >= 5 then White else Black, Normal, Position(row, col))
  }

  /** The square of the standard opening layout. */
  function StartingCell(row: int, col: int): Cell {
    if IsStartingSquare(row, col) then Some(StartingPiece(row, col)) else None
  }

  /** The standard opening layout on an otherwise empty board. */
  function StandardBoard(): Board {
    seq(8, r => seq(8, c => StartingCell(r, c)))
  }
}

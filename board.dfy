/**
 * The 8x8 board as the domain layer reads it (`Array<Array<Piece?>>`, indexed `[row][col]`,
 * row 0 being Black's back rank) and the occupancy helpers of MoveGenerator.kt.
 */
module Board {

  import opened Wrappers
  import opened Pieces
  import opened Moves

  /** A snapshot of the board: rows of optional pieces. */
  type Grid = seq<seq<Option<Piece>>>

  const BoardSize: int := 8

  /** Eight rows of eight squares each. */
  predicate ValidGrid(g: Grid)
  {
    |g| == BoardSize && forall r :: 0 <= r < BoardSize ==> |g[r]| == BoardSize
  }

  /** `isInsideBoard`: both coordinates in 0..7. */
  predicate InsideBoard(row: int, column: int)
  {
    0 <= row <= 7 && 0 <= column <= 7
  }

  predicate OnBoard(s: Square)
  {
    InsideBoard(s.row, s.col)
  }

  /** `pieceAt`: the occupant of a square. */
  function PieceAt(g: Grid, s: Square): Option<Piece>
    requires ValidGrid(g) && OnBoard(s)
  {
    g[s.row][s.col]
  }

  /** `isEmpty`: nothing stands on the square. */
  predicate IsEmpty(g: Grid, s: Square)
    requires ValidGrid(g) && OnBoard(s)
  {
    PieceAt(g, s).None?
  }

  /** `isOpponent`: a piece of the side other than `sideToMove` stands on the square. */
  predicate IsOpponent(g: Grid, s: Square, sideToMove: PieceColor)
    requires ValidGrid(g) && OnBoard(s)
  {
    PieceAt(g, s).Some? && PieceAt(g, s).value.color != sideToMove
  }

  /** `isFriendlyTo`: the optional piece is present and of the given side. */
  predicate IsFriendlyTo(p: Option<Piece>, color: PieceColor)
  {
    p.Some? && p.value.color == color
  }
}

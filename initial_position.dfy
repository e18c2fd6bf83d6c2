/**
 * The starting layout of ChessBoardRepository.kt read against the generator's own
 * constants (back rank, pawn start row, castling squares), and the opening moves the
 * generator offers from it.
 */
module InitialPosition {

  import opened Wrappers
  import opened Pieces
  import opened Moves
  import opened Board
  import opened MoveGenerator
  import opened BoardRepository

  /**
   * Each side's king and rooks stand where the castling rules look for them, its pawns fill
   * the row the double advance starts from, rows 2 to 5 are empty, and White's pieces mirror
   * Black's across the board.
   */
  lemma InitialLayout(pieceIds: (int, int) -> string, side: PieceColor)
    ensures var g := InitialGrid(pieceIds);
      var backRank := BackRank(side);
      g[backRank][4] == Some(Piece(pieceIds(backRank, 4), King, side)) &&
      g[backRank][0] == Some(Piece(pieceIds(backRank, 0), Rook, side)) &&
      g[backRank][7] == Some(Piece(pieceIds(backRank, 7), Rook, side)) &&
      (forall c :: 0 <= c < 8 ==> g[StartRow(side)][c] == Some(Piece(pieceIds(StartRow(side), c), Pawn, side)))
    ensures var g := InitialGrid(pieceIds);
      forall r, c :: 0 <= r < 8 && 0 <= c < 8 ==>
        (g[r][c].None? <==> 2 <= r <= 5) &&
        (g[r][c].Some? ==> g[7 - r][c].Some? && g[7 - r][c].value.pieceType == g[r][c].value.pieceType &&
                           g[7 - r][c].value.color != g[r][c].value.color) &&
        (g[r][c].Some? && g[r][c].value.pieceType == Pawn ==> r == StartRow(g[r][c].value.color)) &&
        (g[r][c].Some? && g[r][c].value.pieceType == King ==> r == BackRank(g[r][c].value.color) && c == 4)
  {
  }

  /** A square next to a king on its home square is off the board or holds one of its own pieces. */
  lemma HomeNeighboursFriendly(pieceIds: (int, int) -> string, side: PieceColor, s: Square)
    requires Delta(Square(BackRank(side), 4), s) in KingOffsets && OnBoard(s)
    ensures IsFriendlyTo(PieceAt(InitialGrid(pieceIds), s), side)
  {
    assert s.row == BackRank(side) || s.row == StartRow(side);
  }

  /** At the start a king has no move at all: every neighbour is its own, and both castles are blocked. */
  lemma InitialKingHasNoMoves(pieceIds: (int, int) -> string, side: PieceColor)
    ensures var home := Square(BackRank(side), 4);
      GenerateMoves(InitialGrid(pieceIds), Piece(pieceIds(home.row, home.col), King, side), home, []) == []
  {
    var g := InitialGrid(pieceIds);
    var home := Square(BackRank(side), 4);
    var king := Piece(pieceIds(home.row, home.col), King, side);
    InitialKingStepsBlocked(pieceIds, side);
    InitialCastlingBlocked(pieceIds, side);
    assert GenerateMoves(g, king, home, []) ==
      StepMoves(g, king, home, KingOffsets) + CastlingMoves(g, king, home, []);
  }

  /** At the start no single king step is possible. */
  lemma InitialKingStepsBlocked(pieceIds: (int, int) -> string, side: PieceColor)
    ensures var home := Square(BackRank(side), 4);
      StepMoves(InitialGrid(pieceIds), Piece(pieceIds(home.row, home.col), King, side), home, KingOffsets) == []
  {
    var g := InitialGrid(pieceIds);
    var home := Square(BackRank(side), 4);
    forall o | o in KingOffsets && OnBoard(Offset(home, o))
      ensures IsFriendlyTo(PieceAt(g, Offset(home, o)), side)
    {
      HomeNeighboursFriendly(pieceIds, side, Offset(home, o));
    }
    StepMovesBlocked(g, Piece(pieceIds(home.row, home.col), King, side), home, KingOffsets);
  }

  /** At the start both castles are blocked by the king's own bishop and queen. */
  lemma InitialCastlingBlocked(pieceIds: (int, int) -> string, side: PieceColor)
    ensures var home := Square(BackRank(side), 4);
      CastlingMoves(InitialGrid(pieceIds), Piece(pieceIds(home.row, home.col), King, side), home, []) == []
  {
    var g := InitialGrid(pieceIds);
    var home := Square(BackRank(side), 4);
    assert g[home.row][5] == InitialCell(pieceIds, home.row, 5);
    assert g[home.row][3] == InitialCell(pieceIds, home.row, 3);
  }

  /** At the start every pawn has exactly its single and double advance, in that order. */
  lemma InitialPawnMoves(pieceIds: (int, int) -> string, side: PieceColor, c: int)
    requires 0 <= c < 8
    ensures var from := Square(StartRow(side), c);
      var pawn := Piece(pieceIds(from.row, from.col), Pawn, side);
      GenerateMoves(InitialGrid(pieceIds), pawn, from, []) ==
        [PlainMove(from, Square(from.row + ForwardDir(side), c), pawn),
         PlainMove(from, Square(from.row + 2 * ForwardDir(side), c), pawn)]
  {
    var g := InitialGrid(pieceIds);
    var from := Square(StartRow(side), c);
    var pawn := Piece(pieceIds(from.row, from.col), Pawn, side);
    PawnMovesInOrder(g, pawn, from, []);
    assert PawnCapturesToward(g, pawn, from, [], -1) == [];
    assert PawnCapturesToward(g, pawn, from, [], 1) == [];
  }
}

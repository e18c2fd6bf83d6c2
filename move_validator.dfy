/**
 * MoveValidator.kt: narrowing the generator's pseudo-legal moves to legal ones.
 *
 * The board helpers the validator calls (`allPieces`, `copy`, `applyMove`, `findKing`,
 * `isSquareAttacked`, `opponent`, `isCastling`) are not defined in any file of this
 * model; they are the fields of `BoardOps`, and nothing is known about them beyond
 * what a lemma's `requires` states explicitly.
 */
module MoveValidator {

  import opened Wrappers
  import opened Pieces
  import opened Moves
  import opened Board
  import opened MoveGenerator

  /** The board helpers the validator relies on, as opaque function values. */
  datatype BoardOps = BoardOps(
    allPieces: (Grid, PieceColor) -> seq<(Piece, Square)>,
    copy: Grid -> Grid,
    applyMove: (Grid, Move) -> Grid,
    findKing: (Grid, PieceColor) -> Option<Square>,
    isSquareAttacked: (Grid, Square, PieceColor) -> bool,
    opponent: PieceColor -> PieceColor,
    isCastling: SpecialMove -> bool)

  /** The trial board of step 2: the move applied to a copy, the caller's board left as it was. */
  function BoardAfter(ops: BoardOps, board: Grid, move: Move): Grid
  {
    ops.applyMove(ops.copy(board), move)
  }

  /** The squares a castle must not start on, pass through or land on. */
  function ThroughSquares(move: Move): (squares: seq<Square>)
    ensures |squares| == 3 && squares[0] == move.from
    ensures forall i :: 0 <= i < 3 ==> squares[i].row == move.from.row
    ensures move.special == CastlingKingside ==> squares[1].col == 5 && squares[2].col == 6
    ensures move.special != CastlingKingside ==> squares[1].col == 3 && squares[2].col == 2
  {
    if move.special == CastlingKingside then
      [move.from, Square(move.from.row, 5), Square(move.from.row, 6)]
    else
      [move.from, Square(move.from.row, 3), Square(move.from.row, 2)]
  }

  /** `throughSquares.any { board.isSquareAttacked(it, attacker) }`. */
  predicate AnyAttacked(ops: BoardOps, board: Grid, squares: seq<Square>, attacker: PieceColor)
  {
    exists i :: 0 <= i < |squares| && ops.isSquareAttacked(board, squares[i], attacker)
  }

  /**
   * `isLegal`: rejected when the move is not pseudo-legal, when the mover's king cannot be
   * found after the trial move, when that king is attacked then, or, for a castle, when a
   * square it starts on, crosses or lands on is attacked before the move; accepted otherwise.
   */
  function IsLegal(ops: BoardOps, board: Grid, move: Move, history: seq<Move>): (legal: bool)
    requires ValidGrid(board)
    ensures !(move in GenerateMoves(board, move.piece, move.from, history)) ==> !legal
    ensures ops.findKing(BoardAfter(ops, board, move), move.piece.color).None? ==> !legal
    ensures (match ops.findKing(BoardAfter(ops, board, move), move.piece.color)
             case Some(kingSquare) =>
               ops.isSquareAttacked(BoardAfter(ops, board, move), kingSquare, ops.opponent(move.piece.color))
             case None => false) ==> !legal
    ensures ops.isCastling(move.special) ==>
      forall i :: 0 <= i < 3 && ops.isSquareAttacked(board, ThroughSquares(move)[i], ops.opponent(move.piece.color))
        ==> !legal
    ensures legal <==>
      move in GenerateMoves(board, move.piece, move.from, history) &&
      KingSafeAfter(ops, board, move) &&
      !(ops.isCastling(move.special) && AnyAttacked(ops, board, ThroughSquares(move), ops.opponent(move.piece.color)))
  {
    if move !in GenerateMoves(board, move.piece, move.from, history) then false
    else
      var boardAfter := BoardAfter(ops, board, move);
      match ops.findKing(boardAfter, move.piece.color)
      case None => false
      case Some(kingSquare) =>
        if ops.isSquareAttacked(boardAfter, kingSquare, ops.opponent(move.piece.color)) then false
        else if ops.isCastling(move.special) &&
                AnyAttacked(ops, board, ThroughSquares(move), ops.opponent(move.piece.color)) then false
        else true
  }

  /** Step 3 passes: the mover's king is found after the trial move and is not attacked there. */
  predicate KingSafeAfter(ops: BoardOps, board: Grid, move: Move)
  {
    var boardAfter := BoardAfter(ops, board, move);
    match ops.findKing(boardAfter, move.piece.color)
    case None => false
    case Some(kingSquare) => !ops.isSquareAttacked(boardAfter, kingSquare, ops.opponent(move.piece.color))
  }

  /** A legal move has the shape of every generated move. */
  lemma LegalMoveWellFormed(ops: BoardOps, board: Grid, move: Move, history: seq<Move>)
    requires ValidGrid(board) && IsLegal(ops, board, move, history)
    ensures move.promotion == None && OnBoard(move.to)
  {
    GeneratedMovesWellFormed(board, move.piece, move.from, history, move);
  }

  /** `isCastling` recognises both castles. */
  predicate RecognisesCastles(ops: BoardOps)
  {
    ops.isCastling(CastlingKingside) && ops.isCastling(CastlingQueenside)
  }

  /**
   * The kingside castle is legal exactly when the generator offers it (king at home and
   * unmoved, h-file rook unmoved, f and g empty), the king is safe after it, and none of
   * e, f, g on the back rank is attacked before it.
   */
  lemma KingsideCastleLegal(ops: BoardOps, board: Grid, king: Piece, history: seq<Move>)
    requires ValidGrid(board) && king.pieceType == King && RecognisesCastles(ops)
    ensures var home := Square(BackRank(king.color), 4);
      var castle := KingsideCastle(king, home);
      var attacker := ops.opponent(king.color);
      IsLegal(ops, board, castle, history) <==>
        !KingHasMoved(history, king.color) && KingsideClear(board, king, history) &&
        KingSafeAfter(ops, board, castle) &&
        !ops.isSquareAttacked(board, home, attacker) &&
        !ops.isSquareAttacked(board, Square(BackRank(king.color), 5), attacker) &&
        !ops.isSquareAttacked(board, Square(BackRank(king.color), 6), attacker)
  {
    var home := Square(BackRank(king.color), 4);
    CastlingGenerated(board, king, home, history);
    AttackedThrough(ops, board, KingsideCastle(king, home), ops.opponent(king.color));
  }

  /**
   * The queenside castle is legal exactly when the generator offers it (king at home and
   * unmoved, a-file rook unmoved, b, c and d empty), the king is safe after it, and none of
   * e, d, c on the back rank is attacked before it; b may be attacked.
   */
  lemma QueensideCastleLegal(ops: BoardOps, board: Grid, king: Piece, history: seq<Move>)
    requires ValidGrid(board) && king.pieceType == King && RecognisesCastles(ops)
    ensures var home := Square(BackRank(king.color), 4);
      var castle := QueensideCastle(king, home);
      var attacker := ops.opponent(king.color);
      IsLegal(ops, board, castle, history) <==>
        !KingHasMoved(history, king.color) && QueensideClear(board, king, history) &&
        KingSafeAfter(ops, board, castle) &&
        !ops.isSquareAttacked(board, home, attacker) &&
        !ops.isSquareAttacked(board, Square(BackRank(king.color), 3), attacker) &&
        !ops.isSquareAttacked(board, Square(BackRank(king.color), 2), attacker)
  {
    var home := Square(BackRank(king.color), 4);
    CastlingGenerated(board, king, home, history);
    AttackedThrough(ops, board, QueensideCastle(king, home), ops.opponent(king.color));
  }

  /** `any` over the three through-squares, spelled out. */
  lemma AttackedThrough(ops: BoardOps, board: Grid, move: Move, attacker: PieceColor)
    ensures var squares := ThroughSquares(move);
      AnyAttacked(ops, board, squares, attacker) <==>
        ops.isSquareAttacked(board, squares[0], attacker) ||
        ops.isSquareAttacked(board, squares[1], attacker) ||
        ops.isSquareAttacked(board, squares[2], attacker)
  {
    var squares := ThroughSquares(move);
    if ops.isSquareAttacked(board, squares[0], attacker) {
      assert AnyAttacked(ops, board, squares, attacker) by { assert 0 < |squares|; }
    }
  }

  // ---------------------------------------------------------------------------
  // legalMoves
  // ---------------------------------------------------------------------------

  /** `.filter { isLegal(board, it, moveHistory) }`. */
  function KeepLegal(ops: BoardOps, board: Grid, moves: seq<Move>, history: seq<Move>): (kept: seq<Move>)
    requires ValidGrid(board)
    ensures |kept| <= |moves|
    ensures forall m :: m in kept <==> m in moves && IsLegal(ops, board, m, history)
  {
    if moves == [] then []
    else
      (if IsLegal(ops, board, moves[0], history) then [moves[0]] else []) +
      KeepLegal(ops, board, moves[1..], history)
  }

  /** The `flatMap` of `legalMoves` over a list of (piece, square) pairs. */
  function LegalMovesFrom(ops: BoardOps, board: Grid, pieces: seq<(Piece, Square)>, history: seq<Move>): (moves: seq<Move>)
    requires ValidGrid(board)
  {
    if pieces == [] then []
    else
      KeepLegal(ops, board, GenerateMoves(board, pieces[0].0, pieces[0].1, history), history) +
      LegalMovesFrom(ops, board, pieces[1..], history)
  }

  /** `legalMoves`: every piece `allPieces` lists for the side, its generated moves that are legal. */
  function LegalMoves(ops: BoardOps, board: Grid, side: PieceColor, history: seq<Move>): seq<Move>
    requires ValidGrid(board)
  {
    LegalMovesFrom(ops, board, ops.allPieces(board, side), history)
  }

  /** A move is in the flatMap exactly when some listed piece generates it and it is legal. */
  lemma {:induction false} LegalMovesFromExactly(ops: BoardOps, board: Grid, pieces: seq<(Piece, Square)>,
                                                 history: seq<Move>, m: Move)
    requires ValidGrid(board)
    ensures m in LegalMovesFrom(ops, board, pieces, history) <==>
      (exists i :: 0 <= i < |pieces| && m in GenerateMoves(board, pieces[i].0, pieces[i].1, history)) &&
      IsLegal(ops, board, m, history)
  {
    if pieces != [] {
      LegalMovesFromExactly(ops, board, pieces[1..], history, m);
      if m in GenerateMoves(board, pieces[0].0, pieces[0].1, history) {
        assert 0 < |pieces|;
      }
      if exists i :: 0 <= i < |pieces| && m in GenerateMoves(board, pieces[i].0, pieces[i].1, history) {
        var i :| 0 <= i < |pieces| && m in GenerateMoves(board, pieces[i].0, pieces[i].1, history);
        if i > 0 {
          assert pieces[1..][i - 1] == pieces[i];
        }
      }
      forall i | 1 <= i < |pieces| && m in GenerateMoves(board, pieces[i].0, pieces[i].1, history)
        ensures exists i' ::
          0 <= i' < |pieces[1..]| && m in GenerateMoves(board, pieces[1..][i'].0, pieces[1..][i'].1, history)
      {
        assert pieces[1..][i - 1] == pieces[i];
      }
    }
  }

  /** `allPieces(side)` lists only pieces of `side`, each with the square it stands on. */
  predicate ListsOnlyOwnPieces(ops: BoardOps, board: Grid, side: PieceColor)
    requires ValidGrid(board)
  {
    forall i :: 0 <= i < |ops.allPieces(board, side)| ==>
      var (p, s) := ops.allPieces(board, side)[i];
      OnBoard(s) && PieceAt(board, s) == Some(p) && p.color == side
  }

  /** `allPieces(side)` lists every piece of `side` with its square. */
  predicate ListsAllOwnPieces(ops: BoardOps, board: Grid, side: PieceColor)
    requires ValidGrid(board)
  {
    forall r, c :: 0 <= r < 8 && 0 <= c < 8 && board[r][c].Some? && board[r][c].value.color == side ==>
      (board[r][c].value, Square(r, c)) in ops.allPieces(board, side)
  }

  /**
   * Every move `legalMoves` returns is legal and is made by a piece of `side` from the
   * square it stands on, given that `allPieces` lists only such pieces.
   */
  lemma LegalMovesSound(ops: BoardOps, board: Grid, side: PieceColor, history: seq<Move>, m: Move)
    requires ValidGrid(board) && ListsOnlyOwnPieces(ops, board, side)
    requires m in LegalMoves(ops, board, side, history)
    ensures IsLegal(ops, board, m, history)
    ensures m.piece.color == side && OnBoard(m.from) && PieceAt(board, m.from) == Some(m.piece)
  {
    var pieces := ops.allPieces(board, side);
    LegalMovesFromExactly(ops, board, pieces, history, m);
    var i :| 0 <= i < |pieces| && m in GenerateMoves(board, pieces[i].0, pieces[i].1, history);
    GeneratedMovesWellFormed(board, pieces[i].0, pieces[i].1, history, m);
  }

  /**
   * Every legal move of a piece of `side` from the square it stands on is in `legalMoves`,
   * given that `allPieces` lists every such piece.
   */
  lemma LegalMovesComplete(ops: BoardOps, board: Grid, side: PieceColor, history: seq<Move>, m: Move)
    requires ValidGrid(board) && ListsAllOwnPieces(ops, board, side)
    requires m.piece.color == side && OnBoard(m.from) && PieceAt(board, m.from) == Some(m.piece)
    requires IsLegal(ops, board, m, history)
    ensures m in LegalMoves(ops, board, side, history)
  {
    var pieces := ops.allPieces(board, side);
    LegalMovesFromExactly(ops, board, pieces, history, m);
    assert board[m.from.row][m.from.col] == Some(m.piece);
    var i :| 0 <= i < |pieces| && pieces[i] == (m.piece, m.from);
    assert m in GenerateMoves(board, pieces[i].0, pieces[i].1, history);
  }

  /**
   * With `allPieces` listing exactly the pieces of `side`, `legalMoves` holds exactly the
   * legal moves of the pieces of `side` from the squares they stand on.
   */
  lemma LegalMovesExactly(ops: BoardOps, board: Grid, side: PieceColor, history: seq<Move>, m: Move)
    requires ValidGrid(board) && ListsOnlyOwnPieces(ops, board, side) && ListsAllOwnPieces(ops, board, side)
    ensures m in LegalMoves(ops, board, side, history) <==>
      m.piece.color == side && OnBoard(m.from) && PieceAt(board, m.from) == Some(m.piece) &&
      IsLegal(ops, board, m, history)
  {
    if m in LegalMoves(ops, board, side, history) {
      LegalMovesSound(ops, board, side, history, m);
    }
    if m.piece.color == side && OnBoard(m.from) && PieceAt(board, m.from) == Some(m.piece) &&
       IsLegal(ops, board, m, history) {
      LegalMovesComplete(ops, board, side, history, m);
    }
  }
}

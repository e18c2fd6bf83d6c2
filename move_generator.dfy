/**
 * Pseudo-legal move generation for one piece (domain/usecase/MoveGenerator.kt).
 *
 * The functions give the moves each part of the generator produces, in the order the
 * Kotlin code emits them; the methods `CollectPawnMoves`, `CollectSlideMoves` and
 * `Generate` are the loops of the source, proved to produce exactly those sequences.
 * The lemmas state what the moves are: destinations, captures, en passant and castling.
 */
module MoveGenerator {

  import opened Wrappers
  import opened Pieces
  import opened Moves
  import opened Board

  // ---------------------------------------------------------------------------
  // Offsets and shared shapes
  // ---------------------------------------------------------------------------

  const DiagonalOffsets: seq<(int, int)> := [(1, 1), (1, -1), (-1, 1), (-1, -1)]
  const OrthogonalOffsets: seq<(int, int)> := [(1, 0), (-1, 0), (0, 1), (0, -1)]
  const KnightOffsets: seq<(int, int)> :=
    [(2, 1), (1, 2), (-2, 1), (-1, 2), (2, -1), (1, -2), (-2, -1), (-1, -2)]
  const KingOffsets: seq<(int, int)> := DiagonalOffsets + OrthogonalOffsets

  function Abs(x: int): nat
  {
    if x < 0 then -x else x
  }

  /** The square reached from `s` by one offset. */
  function Offset(s: Square, o: (int, int)): Square
  {
    Square(s.row + o.0, s.col + o.1)
  }

  /** The offset that leads from `from` to `to`. */
  function Delta(from: Square, to: Square): (int, int)
  {
    (to.row - from.row, to.col - from.col)
  }

  /**
   * The move of `piece` from `from` onto `dest` that records the occupant of `dest`
   * (possibly nothing) as captured: the shape of knight, king-step and sliding moves.
   */
  function TakeMove(g: Grid, piece: Piece, from: Square, dest: Square): Move
    requires ValidGrid(g) && OnBoard(dest)
  {
    Move(from, dest, piece, PieceAt(g, dest), None, NoSpecial)
  }

  // ---------------------------------------------------------------------------
  // Knight and king single steps: fixed offsets, filtered, in offset order
  // ---------------------------------------------------------------------------

  /** `map` to squares, `filter` on board and not friendly, `map` to moves. */
  function StepMoves(g: Grid, piece: Piece, from: Square, offsets: seq<(int, int)>): (moves: seq<Move>)
    requires ValidGrid(g)
    ensures |moves| <= |offsets|
    ensures forall m :: m in moves ==> m.from == from && m.piece == piece && m.special == NoSpecial
  {
    if offsets == [] then []
    else
      var dest := Offset(from, offsets[0]);
      (if OnBoard(dest) && !IsFriendlyTo(PieceAt(g, dest), piece.color)
       then [TakeMove(g, piece, from, dest)] else [])
      + StepMoves(g, piece, from, offsets[1..])
  }

  /** No step is generated when every offset leaves the board or lands on a friendly piece. */
  lemma {:induction false} StepMovesBlocked(g: Grid, piece: Piece, from: Square, offsets: seq<(int, int)>)
    requires ValidGrid(g)
    requires forall o :: o in offsets ==>
      !OnBoard(Offset(from, o)) || IsFriendlyTo(PieceAt(g, Offset(from, o)), piece.color)
    ensures StepMoves(g, piece, from, offsets) == []
  {
    if offsets != [] {
      assert offsets[0] in offsets;
      StepMovesBlocked(g, piece, from, offsets[1..]);
    }
  }

  /**
   * A single step is generated exactly when its offset is one of the list, it stays on
   * the board and does not land on a friendly piece; it then captures the occupant.
   */
  lemma {:induction false} StepMovesExactly(g: Grid, piece: Piece, from: Square, offsets: seq<(int, int)>, m: Move)
    requires ValidGrid(g)
    ensures m in StepMoves(g, piece, from, offsets) <==>
      Delta(from, m.to) in offsets && OnBoard(m.to) &&
      !IsFriendlyTo(PieceAt(g, m.to), piece.color) && m == TakeMove(g, piece, from, m.to)
  {
    if offsets != [] {
      StepMovesExactly(g, piece, from, offsets[1..], m);
      assert offsets == [offsets[0]] + offsets[1..];
      if Delta(from, m.to) == offsets[0] {
        assert Offset(from, offsets[0]) == m.to;
      }
    }
  }

  // ---------------------------------------------------------------------------
  // Sliding pieces: rays
  // ---------------------------------------------------------------------------

  /** A direction of the source's offset lists: each component in -1..1, not both zero. */
  predicate ValidDirection(dr: int, dc: int)
  {
    -1 <= dr <= 1 && -1 <= dc <= 1 && (dr != 0 || dc != 0)
  }

  predicate ValidDirections(directions: seq<(int, int)>)
  {
    forall d :: d in directions ==> ValidDirection(d.0, d.1)
  }

  /** The square `k` steps from `from` along (dr, dc). */
  function RaySquare(from: Square, dr: int, dc: int, k: nat): Square
  {
    if k == 0 then from
    else Square(RaySquare(from, dr, dc, k - 1).row + dr, RaySquare(from, dr, dc, k - 1).col + dc)
  }

  /** How many more steps along (dr, dc) the square (row, col) can take before it leaves the board. */
  function RayMeasure(row: int, col: int, dr: int, dc: int): int
  {
    if dr > 0 then 8 - row
    else if dr < 0 then row + 1
    else if dc > 0 then 8 - col
    else col + 1
  }

  /** Every square strictly before step `j`, from step `k` on, is on the board and empty. */
  predicate ClearBetween(g: Grid, from: Square, dr: int, dc: int, k: nat, j: nat)
    requires ValidGrid(g)
  {
    forall i: nat :: k <= i < j ==>
      OnBoard(RaySquare(from, dr, dc, i)) && IsEmpty(g, RaySquare(from, dr, dc, i))
  }

  /**
   * The moves along one ray from step `k` on: each empty square, then the first occupied
   * square if it holds the other side, and nothing after it.
   */
  function Ray(g: Grid, piece: Piece, from: Square, dr: int, dc: int, k: nat): seq<Move>
    requires ValidGrid(g) && ValidDirection(dr, dc)
    decreases var s := RaySquare(from, dr, dc, k); if OnBoard(s) then RayMeasure(s.row, s.col, dr, dc) else 0
  {
    var s := RaySquare(from, dr, dc, k);
    if !OnBoard(s) then []
    else match PieceAt(g, s)
      case None => [PlainMove(from, s, piece)] + Ray(g, piece, from, dr, dc, k + 1)
      case Some(occupant) =>
        if occupant.color != piece.color then [Move(from, s, piece, Some(occupant), None, NoSpecial)] else []
  }

  /**
   * A ray from step `k` holds exactly the moves onto a square `j >= k` steps out that is on
   * the board, is reached over empty squares only, and does not hold a friendly piece; each
   * captures what stands there.
   */
  lemma {:induction false} RayExactly(g: Grid, piece: Piece, from: Square, dr: int, dc: int, k: nat, m: Move)
    requires ValidGrid(g) && ValidDirection(dr, dc)
    ensures m in Ray(g, piece, from, dr, dc, k) <==>
      exists j: nat :: k <= j && OnBoard(RaySquare(from, dr, dc, j)) &&
        ClearBetween(g, from, dr, dc, k, j) &&
        !IsFriendlyTo(PieceAt(g, RaySquare(from, dr, dc, j)), piece.color) &&
        m == TakeMove(g, piece, from, RaySquare(from, dr, dc, j))
  {
    if m in Ray(g, piece, from, dr, dc, k) {
      RayOnlyReaches(g, piece, from, dr, dc, k, m);
    }
    if exists j: nat :: k <= j && OnBoard(RaySquare(from, dr, dc, j)) &&
        ClearBetween(g, from, dr, dc, k, j) &&
        !IsFriendlyTo(PieceAt(g, RaySquare(from, dr, dc, j)), piece.color) &&
        m == TakeMove(g, piece, from, RaySquare(from, dr, dc, j))
    {
      var j: nat :| k <= j && OnBoard(RaySquare(from, dr, dc, j)) &&
        ClearBetween(g, from, dr, dc, k, j) &&
        !IsFriendlyTo(PieceAt(g, RaySquare(from, dr, dc, j)), piece.color) &&
        m == TakeMove(g, piece, from, RaySquare(from, dr, dc, j));
      RayReachesAll(g, piece, from, dr, dc, k, j);
    }
  }

  /** Every move on a ray lands on a reachable, non-friendly square and captures what is there. */
  lemma {:induction false} RayOnlyReaches(g: Grid, piece: Piece, from: Square, dr: int, dc: int, k: nat, m: Move)
    requires ValidGrid(g) && ValidDirection(dr, dc) && m in Ray(g, piece, from, dr, dc, k)
    ensures exists j: nat ::
        k <= j && OnBoard(RaySquare(from, dr, dc, j)) &&
        ClearBetween(g, from, dr, dc, k, j) &&
        !IsFriendlyTo(PieceAt(g, RaySquare(from, dr, dc, j)), piece.color) &&
        m == TakeMove(g, piece, from, RaySquare(from, dr, dc, j))
    decreases var s := RaySquare(from, dr, dc, k); if OnBoard(s) then RayMeasure(s.row, s.col, dr, dc) else 0
  {
    var s := RaySquare(from, dr, dc, k);
    assert ClearBetween(g, from, dr, dc, k, k);
    if PieceAt(g, s).None? && m != PlainMove(from, s, piece) {
      assert m in Ray(g, piece, from, dr, dc, k + 1);
      RayOnlyReaches(g, piece, from, dr, dc, k + 1, m);
      var j: nat :| k + 1 <= j && OnBoard(RaySquare(from, dr, dc, j)) &&
        ClearBetween(g, from, dr, dc, k + 1, j) &&
        !IsFriendlyTo(PieceAt(g, RaySquare(from, dr, dc, j)), piece.color) &&
        m == TakeMove(g, piece, from, RaySquare(from, dr, dc, j));
      assert ClearBetween(g, from, dr, dc, k, j);
    } else {
      assert m == TakeMove(g, piece, from, s);
    }
  }

  /** Every reachable, non-friendly square `j` steps out gives a move on the ray. */
  lemma {:induction false} RayReachesAll(g: Grid, piece: Piece, from: Square, dr: int, dc: int, k: nat, j: nat)
    requires ValidGrid(g) && ValidDirection(dr, dc)
    requires k <= j && OnBoard(RaySquare(from, dr, dc, j)) && ClearBetween(g, from, dr, dc, k, j)
    requires !IsFriendlyTo(PieceAt(g, RaySquare(from, dr, dc, j)), piece.color)
    ensures TakeMove(g, piece, from, RaySquare(from, dr, dc, j)) in Ray(g, piece, from, dr, dc, k)
    decreases j - k
  {
    var s := RaySquare(from, dr, dc, k);
    if j == k {
      if PieceAt(g, s).None? {
        assert TakeMove(g, piece, from, s) == PlainMove(from, s, piece);
      }
    } else {
      assert OnBoard(s) && IsEmpty(g, s);
      assert ClearBetween(g, from, dr, dc, k + 1, j);
      RayReachesAll(g, piece, from, dr, dc, k + 1, j);
      assert Ray(g, piece, from, dr, dc, k) == [PlainMove(from, s, piece)] + Ray(g, piece, from, dr, dc, k + 1);
    }
  }

  /** `slideMoves`: the rays of the given directions, one after the other, each from step 1. */
  function SlideMoves(g: Grid, piece: Piece, from: Square, directions: seq<(int, int)>): seq<Move>
    requires ValidGrid(g) && ValidDirections(directions)
  {
    if directions == [] then []
    else
      var d := directions[|directions| - 1];
      SlideMoves(g, piece, from, directions[..|directions| - 1]) + Ray(g, piece, from, d.0, d.1, 1)
  }

  /** A sliding move is a move along one of the piece's directions. */
  lemma {:induction false} SlideMovesExactly(g: Grid, piece: Piece, from: Square, directions: seq<(int, int)>, m: Move)
    requires ValidGrid(g) && ValidDirections(directions)
    ensures m in SlideMoves(g, piece, from, directions) <==>
      exists d :: d in directions && m in Ray(g, piece, from, d.0, d.1, 1)
  {
    if directions != [] {
      var front := directions[..|directions| - 1];
      var d := directions[|directions| - 1];
      assert directions == front + [d];
      assert ValidDirections(front) by {
        forall e | e in front ensures ValidDirection(e.0, e.1) {
          assert e in directions;
        }
      }
      SlideMovesExactly(g, piece, from, front, m);
    }
  }

  /**
   * Sliding moves, stated square by square: the destinations along a direction are the
   * squares reached over empty squares, the first occupied one included only when it holds
   * the other side, and nothing beyond it.
   */
  lemma SlideMoveDestinations(g: Grid, piece: Piece, from: Square, directions: seq<(int, int)>, m: Move)
    requires ValidGrid(g) && ValidDirections(directions)
    ensures m in SlideMoves(g, piece, from, directions) <==>
      exists d, j: nat :: d in directions && 1 <= j && OnBoard(RaySquare(from, d.0, d.1, j)) &&
        ClearBetween(g, from, d.0, d.1, 1, j) &&
        !IsFriendlyTo(PieceAt(g, RaySquare(from, d.0, d.1, j)), piece.color) &&
        m == TakeMove(g, piece, from, RaySquare(from, d.0, d.1, j))
  {
    SlideMovesExactly(g, piece, from, directions, m);
    forall d | d in directions
      ensures m in Ray(g, piece, from, d.0, d.1, 1) <==>
        exists j: nat :: 1 <= j && OnBoard(RaySquare(from, d.0, d.1, j)) &&
          ClearBetween(g, from, d.0, d.1, 1, j) &&
          !IsFriendlyTo(PieceAt(g, RaySquare(from, d.0, d.1, j)), piece.color) &&
          m == TakeMove(g, piece, from, RaySquare(from, d.0, d.1, j))
    {
      RayExactly(g, piece, from, d.0, d.1, 1, m);
    }
  }

  /** The loop of `slideMoves` over the directions. */
  method CollectSlideMoves(g: Grid, piece: Piece, fromSquare: Square, directions: seq<(int, int)>)
    returns (moves: seq<Move>)
    requires ValidGrid(g) && ValidDirections(directions)
    ensures moves == SlideMoves(g, piece, fromSquare, directions)
  {
    moves := [];
    for i := 0 to |directions|
      invariant moves == SlideMoves(g, piece, fromSquare, directions[..i])
    {
      assert ValidDirections(directions[..i + 1]) by {
        forall e | e in directions[..i + 1] ensures ValidDirection(e.0, e.1) {
          assert e in directions;
        }
      }
      assert directions[..i + 1][..i] == directions[..i];
      assert directions[i] in directions;
      var ray := CollectRay(g, piece, fromSquare, directions[i].0, directions[i].1);
      moves := moves + ray;
    }
    assert directions[..|directions|] == directions;
  }

  /**
   * The inner loop of `slideMoves`: step `currentRow`/`currentColumn` along one direction
   * until the board edge or the first occupied square.
   */
  method CollectRay(g: Grid, piece: Piece, fromSquare: Square, rowOffset: int, colOffset: int)
    returns (moves: seq<Move>)
    requires ValidGrid(g) && ValidDirection(rowOffset, colOffset)
    ensures moves == Ray(g, piece, fromSquare, rowOffset, colOffset, 1)
  {
    moves := [];
    var currentRow := fromSquare.row + rowOffset;
    var currentColumn := fromSquare.col + colOffset;
    ghost var k: nat := 1;
    while InsideBoard(currentRow, currentColumn)
      invariant k >= 1
      invariant Square(currentRow, currentColumn) == RaySquare(fromSquare, rowOffset, colOffset, k)
      invariant moves + Ray(g, piece, fromSquare, rowOffset, colOffset, k) ==
        Ray(g, piece, fromSquare, rowOffset, colOffset, 1)
      decreases RayMeasure(currentRow, currentColumn, rowOffset, colOffset)
    {
      var targetSquare := Square(currentRow, currentColumn);
      var occupant := PieceAt(g, targetSquare);
      ghost var before := moves;
      if occupant.None? {
        moves := moves + [PlainMove(fromSquare, targetSquare, piece)];
        assert Ray(g, piece, fromSquare, rowOffset, colOffset, k) ==
          [PlainMove(fromSquare, targetSquare, piece)] + Ray(g, piece, fromSquare, rowOffset, colOffset, k + 1);
        AppendAssociative(before, [PlainMove(fromSquare, targetSquare, piece)],
          Ray(g, piece, fromSquare, rowOffset, colOffset, k + 1));
      } else {
        if occupant.value.color != piece.color {
          moves := moves + [Move(fromSquare, targetSquare, piece, occupant, None, NoSpecial)];
        }
        assert moves == before + Ray(g, piece, fromSquare, rowOffset, colOffset, k);
        break;
      }
      currentRow := currentRow + rowOffset;
      currentColumn := currentColumn + colOffset;
      k := k + 1;
    }
    assert moves == moves + [];
  }

  // ---------------------------------------------------------------------------
  // Pawns
  // ---------------------------------------------------------------------------

  /** WHITE moves toward row 0. */
  function ForwardDir(c: PieceColor): int
  {
    if c == White then -1 else 1
  }

  function StartRow(c: PieceColor): int
  {
    if c == White then 6 else 1
  }

  function OneStepForward(piece: Piece, from: Square): Square
  {
    Square(from.row + ForwardDir(piece.color), from.col)
  }

  function TwoStepForward(piece: Piece, from: Square): Square
  {
    Square(from.row + 2 * ForwardDir(piece.color), from.col)
  }

  /** The forward advances: one step onto an empty square, then two from the start row. */
  function PawnAdvances(g: Grid, piece: Piece, from: Square): seq<Move>
    requires ValidGrid(g)
  {
    var one := OneStepForward(piece, from);
    if OnBoard(one) && IsEmpty(g, one) then
      var two := TwoStepForward(piece, from);
      [PlainMove(from, one, piece)] +
      (if from.row == StartRow(piece.color) && IsEmpty(g, two) then [PlainMove(from, two, piece)] else [])
    else []
  }

  /** `history.lastOrNull()`. */
  function LastMove(history: seq<Move>): Option<Move>
  {
    if |history| == 0 then None else Some(history[|history| - 1])
  }

  /**
   * `isAdjacentPawnTwoStep`: the last move was a pawn (of either side: the colour is not
   * looked at) moving two rows and landing on the mover's row in the target's column.
   */
  predicate IsAdjacentPawnTwoStep(lastMove: Move, from: Square, target: Square)
  {
    lastMove.piece.pieceType == Pawn &&
    Abs(lastMove.from.row - lastMove.to.row) == 2 &&
    lastMove.to.row == from.row && lastMove.to.col == target.col
  }

  /** The ordinary capture onto `target`, when it holds the other side. */
  function DiagonalCapture(g: Grid, piece: Piece, from: Square, target: Square): seq<Move>
    requires ValidGrid(g) && OnBoard(target)
  {
    if IsOpponent(g, target, piece.color) then [TakeMove(g, piece, from, target)] else []
  }

  /** The en passant capture onto `target`, when the last move allows it. */
  function EnPassantCapture(piece: Piece, from: Square, target: Square, history: seq<Move>): seq<Move>
  {
    match LastMove(history)
    case None => []
    case Some(lastMove) =>
      if IsAdjacentPawnTwoStep(lastMove, from, target)
      then [Move(from, target, piece, Some(lastMove.piece), None, EnPassant)]
      else []
  }

  /** The diagonal capture, then the en passant capture, toward one column offset. */
  function PawnCapturesToward(g: Grid, piece: Piece, from: Square, history: seq<Move>, columnOffset: int): seq<Move>
    requires ValidGrid(g)
  {
    var target := Square(from.row + ForwardDir(piece.color), from.col + columnOffset);
    if !OnBoard(target) then []
    else DiagonalCapture(g, piece, from, target) + EnPassantCapture(piece, from, target, history)
  }

  /** The advances, then the captures toward each of the given column offsets in turn. */
  function PawnMovesToward(g: Grid, piece: Piece, from: Square, history: seq<Move>, columnOffsets: seq<int>): seq<Move>
    requires ValidGrid(g)
  {
    if columnOffsets == [] then PawnAdvances(g, piece, from)
    else
      PawnMovesToward(g, piece, from, history, columnOffsets[..|columnOffsets| - 1]) +
      PawnCapturesToward(g, piece, from, history, columnOffsets[|columnOffsets| - 1])
  }

  const CaptureColumnOffsets: seq<int> := [-1, 1]

  /** `pawnMoves`: advances, then captures toward the left and toward the right. */
  function PawnMoves(g: Grid, piece: Piece, from: Square, history: seq<Move>): seq<Move>
    requires ValidGrid(g)
  {
    PawnMovesToward(g, piece, from, history, CaptureColumnOffsets)
  }

  lemma PawnMovesInOrder(g: Grid, piece: Piece, from: Square, history: seq<Move>)
    requires ValidGrid(g)
    ensures PawnMoves(g, piece, from, history) ==
      PawnAdvances(g, piece, from) +
      PawnCapturesToward(g, piece, from, history, -1) + PawnCapturesToward(g, piece, from, history, 1)
  {
    var offsets := CaptureColumnOffsets;
    assert offsets[..|offsets| - 1] == [-1] && offsets[|offsets| - 1] == 1;
    assert [-1][..0] == [];
    assert PawnMovesToward(g, piece, from, history, [-1]) ==
      PawnAdvances(g, piece, from) + PawnCapturesToward(g, piece, from, history, -1);
  }

  /** The loop of `pawnMoves` over the two capture columns, with its early `continue`s. */
  method CollectPawnMoves(g: Grid, piece: Piece, from: Square, history: seq<Move>) returns (moves: seq<Move>)
    requires ValidGrid(g)
    ensures moves == PawnMoves(g, piece, from, history)
  {
    var forwardDir := ForwardDir(piece.color);
    var startRow := StartRow(piece.color);
    moves := [];

    var oneStepForward := Square(from.row + forwardDir, from.col);
    if InsideBoard(oneStepForward.row, oneStepForward.col) && IsEmpty(g, oneStepForward) {
      moves := moves + [PlainMove(from, oneStepForward, piece)];
      var twoStepForward := Square(from.row + 2 * forwardDir, from.col);
      if from.row == startRow && IsEmpty(g, twoStepForward) {
        moves := moves + [PlainMove(from, twoStepForward, piece)];
      }
    }

    assert moves == PawnAdvances(g, piece, from);
    assert CaptureColumnOffsets[..0] == [];

    var columnOffsets := CaptureColumnOffsets;
    for i := 0 to |columnOffsets|
      invariant moves == PawnMovesToward(g, piece, from, history, columnOffsets[..i])
    {
      ghost var before := moves;
      assert PawnMovesToward(g, piece, from, history, columnOffsets[..i + 1]) == before + PawnCapturesToward(g, piece, from, history, columnOffsets[i]) by {
        assert columnOffsets[..i + 1][..i] == columnOffsets[..i];
      }
      var found := CollectCapturesToward(g, piece, from, history, columnOffsets[i]);
      moves := moves + found;
    }
    assert columnOffsets[..|columnOffsets|] == columnOffsets;
  }

  /** One pass of the capture loop of `pawnMoves`: the captures toward one column offset. */
  method CollectCapturesToward(g: Grid, piece: Piece, from: Square, history: seq<Move>, columnOffset: int)
    returns (found: seq<Move>)
    requires ValidGrid(g)
    ensures found == PawnCapturesToward(g, piece, from, history, columnOffset)
  {
    found := [];
    var target := Square(from.row + ForwardDir(piece.color), from.col + columnOffset);
    if InsideBoard(target.row, target.col) {
      if IsOpponent(g, target, piece.color) {
        found := found + [Move(from, target, piece, PieceAt(g, target), None, NoSpecial)];
      }
      if |history| > 0 {
        var lastMove := history[|history| - 1];
        var isAdjacentPawnTwoStep :=
          lastMove.piece.pieceType == Pawn &&
          Abs(lastMove.from.row - lastMove.to.row) == 2 &&
          lastMove.to.row == from.row && lastMove.to.col == target.col;
        if isAdjacentPawnTwoStep {
          found := found + [Move(from, target, piece, Some(lastMove.piece), None, EnPassant)];
        }
      }
    }
  }

  lemma AppendAssociative(a: seq<Move>, b: seq<Move>, c: seq<Move>)
    ensures (a + b) + c == a + (b + c)
  {
  }

  /** What an advance is: a straight step onto empty squares, one, or two from the start row. */
  lemma AdvanceShape(g: Grid, piece: Piece, from: Square, m: Move)
    requires ValidGrid(g) && m in PawnAdvances(g, piece, from)
    ensures m == PlainMove(from, m.to, piece) && OnBoard(m.to) && IsEmpty(g, m.to) && m.to.col == from.col
    ensures m.to == OneStepForward(piece, from) ||
      (m.to == TwoStepForward(piece, from) && from.row == StartRow(piece.color) &&
       IsEmpty(g, OneStepForward(piece, from)))
  {
  }

  /** What a capture toward one column is: a diagonal capture of an opponent, or en passant. */
  lemma CaptureTowardShape(g: Grid, piece: Piece, from: Square, history: seq<Move>, columnOffset: int, m: Move)
    requires ValidGrid(g) && m in PawnCapturesToward(g, piece, from, history, columnOffset)
    ensures m.from == from && m.piece == piece && m.promotion == None && OnBoard(m.to)
    ensures m.to == Square(from.row + ForwardDir(piece.color), from.col + columnOffset)
    ensures m.special == NoSpecial ==> IsOpponent(g, m.to, piece.color) && m == TakeMove(g, piece, from, m.to)
    ensures m.special == EnPassant ==>
      |history| > 0 && IsAdjacentPawnTwoStep(history[|history| - 1], from, m.to) &&
      m.captured == Some(history[|history| - 1].piece)
    ensures m.special == NoSpecial || m.special == EnPassant
  {
  }

  /** The one-step advance is generated exactly when the square ahead is on the board and empty. */
  lemma PawnSingleAdvance(g: Grid, piece: Piece, from: Square, history: seq<Move>)
    requires ValidGrid(g)
    ensures var one := OneStepForward(piece, from);
      PlainMove(from, one, piece) in PawnMoves(g, piece, from, history) <==> OnBoard(one) && IsEmpty(g, one)
  {
    PawnMovesInOrder(g, piece, from, history);
  }

  /**
   * The two-step advance is generated exactly from the start row (6 for White, 1 for Black)
   * when both squares ahead are empty.
   */
  lemma PawnDoubleAdvance(g: Grid, piece: Piece, from: Square, history: seq<Move>)
    requires ValidGrid(g)
    ensures var one := OneStepForward(piece, from);
      var two := TwoStepForward(piece, from);
      PlainMove(from, two, piece) in PawnMoves(g, piece, from, history) <==>
        OnBoard(one) && from.row == StartRow(piece.color) && IsEmpty(g, one) && IsEmpty(g, two)
  {
    PawnMovesInOrder(g, piece, from, history);
  }

  /**
   * What any pawn move is: a straight advance onto empty squares; a diagonal step capturing
   * an opponent; or an en passant capture, only right after a two-row pawn move landing
   * beside the mover, recording that pawn as captured.
   */
  lemma PawnMoveShapes(g: Grid, piece: Piece, from: Square, history: seq<Move>, m: Move)
    requires ValidGrid(g) && m in PawnMoves(g, piece, from, history)
    ensures m.from == from && m.piece == piece && m.promotion == None && OnBoard(m.to)
    ensures m.to.col == from.col ==>
      m == PlainMove(from, m.to, piece) && IsEmpty(g, m.to) &&
      (m.to == OneStepForward(piece, from) ||
       (m.to == TwoStepForward(piece, from) && from.row == StartRow(piece.color) &&
        IsEmpty(g, OneStepForward(piece, from))))
    ensures m.to.col != from.col && m.special != EnPassant ==>
      Abs(m.to.col - from.col) == 1 && m.to.row == from.row + ForwardDir(piece.color) &&
      IsOpponent(g, m.to, piece.color) && m == TakeMove(g, piece, from, m.to)
    ensures m.special == EnPassant ==>
      |history| > 0 && IsAdjacentPawnTwoStep(history[|history| - 1], from, m.to) &&
      m.captured == Some(history[|history| - 1].piece) &&
      Abs(m.to.col - from.col) == 1 && m.to.row == from.row + ForwardDir(piece.color)
    ensures m.special == NoSpecial || m.special == EnPassant
  {
    PawnMovesInOrder(g, piece, from, history);
    if m in PawnAdvances(g, piece, from) {
      AdvanceShape(g, piece, from, m);
    } else if m in PawnCapturesToward(g, piece, from, history, -1) {
      CaptureTowardShape(g, piece, from, history, -1, m);
    } else {
      CaptureTowardShape(g, piece, from, history, 1, m);
    }
  }

  /** An en passant move needs the last move of the history to be a two-row pawn move beside the mover. */
  lemma EnPassantNeedsTwoStep(g: Grid, piece: Piece, from: Square, history: seq<Move>, m: Move)
    requires ValidGrid(g)
    ensures m in PawnMoves(g, piece, from, history) && m.special == EnPassant ==>
      |history| > 0 && IsAdjacentPawnTwoStep(history[|history| - 1], from, m.to)
  {
    if m in PawnMoves(g, piece, from, history) {
      PawnMoveShapes(g, piece, from, history, m);
    }
  }

  /** A diagonal target on the board holding an opponent is always captured. */
  lemma PawnDiagonalCaptureGenerated(g: Grid, piece: Piece, from: Square, history: seq<Move>, columnOffset: int)
    requires ValidGrid(g) && (columnOffset == -1 || columnOffset == 1)
    requires var target := Square(from.row + ForwardDir(piece.color), from.col + columnOffset);
      OnBoard(target) && IsOpponent(g, target, piece.color)
    ensures var target := Square(from.row + ForwardDir(piece.color), from.col + columnOffset);
      TakeMove(g, piece, from, target) in PawnMoves(g, piece, from, history)
  {
    PawnMovesInOrder(g, piece, from, history);
  }

  /** Right after a two-row pawn move landing beside the mover, en passant onto its column is generated. */
  lemma EnPassantGenerated(g: Grid, piece: Piece, from: Square, history: seq<Move>)
    requires ValidGrid(g) && |history| > 0
    requires var lastMove := history[|history| - 1];
      var target := Square(from.row + ForwardDir(piece.color), lastMove.to.col);
      OnBoard(target) && Abs(lastMove.to.col - from.col) == 1 && IsAdjacentPawnTwoStep(lastMove, from, target)
    ensures var lastMove := history[|history| - 1];
      var target := Square(from.row + ForwardDir(piece.color), lastMove.to.col);
      Move(from, target, piece, Some(lastMove.piece), None, EnPassant) in PawnMoves(g, piece, from, history)
  {
    PawnMovesInOrder(g, piece, from, history);
  }

  /**
   * The en passant window is one move wide: appending any move that is not itself a
   * qualifying two-row pawn move closes it, whatever came before.
   */
  lemma EnPassantWindowCloses(g: Grid, piece: Piece, from: Square, history: seq<Move>, next: Move, m: Move)
    requires ValidGrid(g) && m.special == EnPassant
    requires next.piece.pieceType != Pawn || Abs(next.from.row - next.to.row) != 2
    ensures m !in PawnMoves(g, piece, from, history + [next])
  {
    EnPassantNeedsTwoStep(g, piece, from, history + [next], m);
    assert (history + [next])[|history + [next]| - 1] == next;
  }

  // ---------------------------------------------------------------------------
  // King: single steps and castling
  // ---------------------------------------------------------------------------

  function BackRank(c: PieceColor): int
  {
    if c == White then 7 else 0
  }

  /** `kingHasMoved`: some move in the history was made by a king of this colour. */
  predicate KingHasMoved(history: seq<Move>, color: PieceColor)
  {
    exists m :: m in history && m.piece.pieceType == King && m.piece.color == color
  }

  /** `rookKingSideMoved` / `rookQueenSideMoved`: a rook of this colour once moved from `square`. */
  predicate RookHasMovedFrom(history: seq<Move>, square: Square, color: PieceColor)
  {
    exists m :: m in history && m.from == square && m.piece.pieceType == Rook && m.piece.color == color
  }

  function KingsideCastle(king: Piece, kingSquare: Square): Move
  {
    Move(kingSquare, Square(BackRank(king.color), 6), king, None, None, CastlingKingside)
  }

  function QueensideCastle(king: Piece, kingSquare: Square): Move
  {
    Move(kingSquare, Square(BackRank(king.color), 2), king, None, None, CastlingQueenside)
  }

  /** The kingside conditions the generator checks: rook move history and f, g empty. */
  predicate KingsideClear(g: Grid, king: Piece, history: seq<Move>)
    requires ValidGrid(g)
  {
    var backRank := BackRank(king.color);
    !RookHasMovedFrom(history, Square(backRank, 7), king.color) &&
    IsEmpty(g, Square(backRank, 5)) && IsEmpty(g, Square(backRank, 6))
  }

  /** The queenside conditions the generator checks: rook move history and d, c, b empty. */
  predicate QueensideClear(g: Grid, king: Piece, history: seq<Move>)
    requires ValidGrid(g)
  {
    var backRank := BackRank(king.color);
    !RookHasMovedFrom(history, Square(backRank, 0), king.color) &&
    IsEmpty(g, Square(backRank, 3)) && IsEmpty(g, Square(backRank, 2)) && IsEmpty(g, Square(backRank, 1))
  }

  /**
   * `generateCastlingMoves`: nothing once this colour's king has moved or when it is off
   * its home square; otherwise kingside, then queenside, each when its side is clear.
   * Attacked squares are not looked at here.
   */
  function CastlingMoves(g: Grid, king: Piece, kingSquare: Square, history: seq<Move>): (moves: seq<Move>)
    requires ValidGrid(g)
    ensures |moves| <= 2
    ensures KingHasMoved(history, king.color) ==> moves == []
    ensures forall m :: m in moves ==> m.from == kingSquare && m.piece == king && m.special != NoSpecial
  {
    var backRank := BackRank(king.color);
    if KingHasMoved(history, king.color) || kingSquare != Square(backRank, 4) then []
    else
      (if KingsideClear(g, king, history) then [KingsideCastle(king, kingSquare)] else []) +
      (if QueensideClear(g, king, history) then [QueensideCastle(king, kingSquare)] else [])
  }

  /** `generateCastlingMoves` as the source builds it: an early return, then up to two appends. */
  method CollectCastlingMoves(g: Grid, king: Piece, kingSquare: Square, history: seq<Move>) returns (moves: seq<Move>)
    requires ValidGrid(g)
    ensures moves == CastlingMoves(g, king, kingSquare, history)
  {
    moves := [];
    var backRank := BackRank(king.color);
    if KingHasMoved(history, king.color) || kingSquare != Square(backRank, 4) {
      return;
    }
    if KingsideClear(g, king, history) {
      moves := moves + [Move(kingSquare, Square(backRank, 6), king, None, None, CastlingKingside)];
    }
    if QueensideClear(g, king, history) {
      moves := moves + [Move(kingSquare, Square(backRank, 2), king, None, None, CastlingQueenside)];
    }
  }

  /** `kingMoves`: the eight single steps, then the castling candidates. */
  function KingMoves(g: Grid, piece: Piece, from: Square, history: seq<Move>): (moves: seq<Move>)
    requires ValidGrid(g)
    ensures |moves| <= 10
  {
    StepMoves(g, piece, from, KingOffsets) + CastlingMoves(g, piece, from, history)
  }

  /** Castling moves are only ever the two castles from the king's home square. */
  lemma CastlingMoveShapes(g: Grid, king: Piece, kingSquare: Square, history: seq<Move>, m: Move)
    requires ValidGrid(g) && m in CastlingMoves(g, king, kingSquare, history)
    ensures !KingHasMoved(history, king.color) && kingSquare == Square(BackRank(king.color), 4)
    ensures m == KingsideCastle(king, kingSquare) || m == QueensideCastle(king, kingSquare)
  {
  }

  /**
   * A king generates the kingside castle exactly when it stands on its home square, no king
   * of its colour has moved, no rook of its colour moved from the h-file corner, and the two
   * squares between are empty; the queenside castle likewise with the a-file corner and the
   * three squares between.
   */
  lemma {:induction false} CastlingGenerated(g: Grid, king: Piece, kingSquare: Square, history: seq<Move>)
    requires ValidGrid(g) && king.pieceType == King
    ensures var home := !KingHasMoved(history, king.color) && kingSquare == Square(BackRank(king.color), 4);
      (KingsideCastle(king, kingSquare) in GenerateMoves(g, king, kingSquare, history) <==>
         home && KingsideClear(g, king, history)) &&
      (QueensideCastle(king, kingSquare) in GenerateMoves(g, king, kingSquare, history) <==>
         home && QueensideClear(g, king, history))
  {
    var steps := StepMoves(g, king, kingSquare, KingOffsets);
    var castles := CastlingMoves(g, king, kingSquare, history);
    assert GenerateMoves(g, king, kingSquare, history) == steps + castles;
    CastleIsNotStep(g, king, kingSquare, KingsideCastle(king, kingSquare));
    CastleIsNotStep(g, king, kingSquare, QueensideCastle(king, kingSquare));
  }

  /** A single king step never carries a special kind, so no castle is one. */
  lemma CastleIsNotStep(g: Grid, king: Piece, kingSquare: Square, m: Move)
    requires ValidGrid(g) && m.special != NoSpecial
    ensures m !in StepMoves(g, king, kingSquare, KingOffsets)
  {
    StepMovesExactly(g, king, kingSquare, KingOffsets, m);
  }

  // ---------------------------------------------------------------------------
  // Dispatch
  // ---------------------------------------------------------------------------

  lemma OffsetListsAreDirections()
    ensures ValidDirections(DiagonalOffsets)
    ensures ValidDirections(OrthogonalOffsets)
    ensures ValidDirections(DiagonalOffsets + OrthogonalOffsets)
  {
  }

  /** `generateMoves`: one generator per piece type. */
  function GenerateMoves(g: Grid, piece: Piece, from: Square, history: seq<Move>): seq<Move>
    requires ValidGrid(g)
  {
    OffsetListsAreDirections();
    match piece.pieceType
    case Pawn => PawnMoves(g, piece, from, history)
    case Knight => StepMoves(g, piece, from, KnightOffsets)
    case Bishop => SlideMoves(g, piece, from, DiagonalOffsets)
    case Rook => SlideMoves(g, piece, from, OrthogonalOffsets)
    case Queen => SlideMoves(g, piece, from, DiagonalOffsets + OrthogonalOffsets)
    case King => KingMoves(g, piece, from, history)
  }

  /** `generateMoves` as the source runs it: the pawn and slider loops, the other generators directly. */
  method Generate(g: Grid, piece: Piece, fromSquare: Square, history: seq<Move>) returns (moves: seq<Move>)
    requires ValidGrid(g)
    ensures moves == GenerateMoves(g, piece, fromSquare, history)
  {
    OffsetListsAreDirections();
    match piece.pieceType {
      case Pawn => moves := CollectPawnMoves(g, piece, fromSquare, history);
      case Knight => moves := StepMoves(g, piece, fromSquare, KnightOffsets);
      case Bishop => moves := CollectSlideMoves(g, piece, fromSquare, DiagonalOffsets);
      case Rook => moves := CollectSlideMoves(g, piece, fromSquare, OrthogonalOffsets);
      case Queen => moves := CollectSlideMoves(g, piece, fromSquare, DiagonalOffsets + OrthogonalOffsets);
      case King =>
        var castlingMoves := CollectCastlingMoves(g, piece, fromSquare, history);
        moves := StepMoves(g, piece, fromSquare, KingOffsets) + castlingMoves;
    }
  }

  /**
   * Every generated move starts on the given square, carries the given piece, has no
   * promotion, and ends on the board.
   */
  lemma GeneratedMovesWellFormed(g: Grid, piece: Piece, from: Square, history: seq<Move>, m: Move)
    requires ValidGrid(g) && m in GenerateMoves(g, piece, from, history)
    ensures m.from == from && m.piece == piece && m.promotion == None && OnBoard(m.to)
  {
    OffsetListsAreDirections();
    match piece.pieceType
    case Pawn => PawnMoveShapes(g, piece, from, history, m);
    case Knight => StepMovesExactly(g, piece, from, KnightOffsets, m);
    case Bishop => SlideMoveDestinations(g, piece, from, DiagonalOffsets, m);
    case Rook => SlideMoveDestinations(g, piece, from, OrthogonalOffsets, m);
    case Queen => SlideMoveDestinations(g, piece, from, DiagonalOffsets + OrthogonalOffsets, m);
    case King =>
      if m in StepMoves(g, piece, from, KingOffsets) {
        StepMovesExactly(g, piece, from, KingOffsets, m);
      } else {
        CastlingMoveShapes(g, piece, from, history, m);
      }
  }
}

/**
 * ChessBoardRepository.kt: the mutable board store. The published board is an 8x8
 * `array2`; `movePiece` and `scramble` write into a fresh copy and publish it, `reset`
 * publishes a fresh initial layout.
 */
module BoardRepository {

  import opened Wrappers
  import opened Pieces
  import opened Moves
  import opened Board

  // ---------------------------------------------------------------------------
  // The board as a value
  // ---------------------------------------------------------------------------

  /** The contents of an 8x8 array, row by row. */
  function GridOf(b: array2<Option<Piece>>): (g: Grid)
    reads b
    requires b.Length0 == BoardSize && b.Length1 == BoardSize
    ensures ValidGrid(g)
    ensures forall r, c :: 0 <= r < BoardSize && 0 <= c < BoardSize ==> g[r][c] == b[r, c]
  {
    seq(BoardSize, r requires 0 <= r < BoardSize reads b =>
      seq(BoardSize, c requires 0 <= c < BoardSize reads b => b[r, c]))
  }

  /** Two boards are equal when they agree on every square. */
  lemma GridsEqual(g: Grid, h: Grid)
    requires ValidGrid(g) && ValidGrid(h)
    requires forall r, c :: 0 <= r < BoardSize && 0 <= c < BoardSize ==> g[r][c] == h[r][c]
    ensures g == h
  {
    forall r | 0 <= r < BoardSize
      ensures g[r] == h[r]
    {
      assert forall c :: 0 <= c < BoardSize ==> g[r][c] == h[r][c];
    }
  }

  /**
   * `movePiece` on the board value: with an empty origin nothing changes; otherwise the
   * destination receives the piece, replacing any occupant, and then the origin is cleared,
   * so a piece moved onto its own square disappears.
   */
  function Relocate(g: Grid, from: Square, to: Square): (r: Grid)
    requires ValidGrid(g) && OnBoard(from) && OnBoard(to)
    ensures ValidGrid(r)
    ensures PieceAt(g, from).None? ==> r == g
    ensures PieceAt(g, from).Some? && from != to ==>
      PieceAt(r, to) == PieceAt(g, from) && PieceAt(r, from).None?
    ensures from == to ==> PieceAt(r, from).None?
    ensures forall s :: OnBoard(s) && s != from && s != to ==> PieceAt(r, s) == PieceAt(g, s)
  {
    match g[from.row][from.col]
    case None => g
    case Some(piece) =>
      var placed := g[to.row := g[to.row][to.col := Some(piece)]];
      placed[from.row := placed[from.row][from.col := None]]
  }

  /** The rows laid end to end (`flatten`). */
  function Flatten<T>(rows: seq<seq<T>>): seq<T>
  {
    if rows == [] then [] else rows[0] + Flatten(rows[1..])
  }

  /** Flattening rows of eight puts square (r, c) at index 8 * r + c. */
  lemma {:induction false} FlattenIndex<T>(rows: seq<seq<T>>)
    requires forall r :: 0 <= r < |rows| ==> |rows[r]| == 8
    ensures |Flatten(rows)| == 8 * |rows|
    ensures forall r, c :: 0 <= r < |rows| && 0 <= c < 8 ==> Flatten(rows)[8 * r + c] == rows[r][c]
  {
    if rows != [] {
      FlattenIndex(rows[1..]);
      forall r, c | 0 <= r < |rows| && 0 <= c < 8
        ensures Flatten(rows)[8 * r + c] == rows[r][c]
      {
        if r > 0 {
          assert Flatten(rows)[8 * r + c] == Flatten(rows[1..])[8 * (r - 1) + c];
        }
      }
    }
  }

  /** A board flattens to 64 squares. */
  lemma FlattenLength(g: Grid)
    requires ValidGrid(g)
    ensures |Flatten(g)| == 64
  {
    FlattenIndex(g);
  }

  /** A board whose square (r, c) is `cells[8 * r + c]` flattens to `cells`. */
  lemma FlattenRowMajor(g: Grid, cells: seq<Option<Piece>>)
    requires ValidGrid(g) && |cells| == 64
    requires forall r, c :: 0 <= r < 8 && 0 <= c < 8 ==> g[r][c] == cells[8 * r + c]
    ensures Flatten(g) == cells
  {
    FlattenIndex(g);
    forall k | 0 <= k < 64
      ensures Flatten(g)[k] == cells[k]
    {
      var r, c := k / 8, k % 8;
      assert k == 8 * r + c;
      assert Flatten(g)[8 * r + c] == g[r][c];
    }
  }

  // ---------------------------------------------------------------------------
  // The starting layout
  // ---------------------------------------------------------------------------

  /** The back rank from column 0 to 7: R N B Q K B N R. */
  const BackRankTypes: seq<PieceType> := [Rook, Knight, Bishop, Queen, King, Bishop, Knight, Rook]

  /**
   * `initBoard`, square by square: Black's back rank on row 0 and pawns on row 1, White's
   * pawns on row 6 and back rank on row 7, rows 2 to 5 empty. Ids come from `pieceIds`.
   */
  function InitialCell(pieceIds: (int, int) -> string, r: int, c: int): Option<Piece>
  {
    if !InsideBoard(r, c) then None
    else if r == 0 then Some(Piece(pieceIds(r, c), BackRankTypes[c], Black))
    else if r == 1 then Some(Piece(pieceIds(r, c), Pawn, Black))
    else if r == 6 then Some(Piece(pieceIds(r, c), Pawn, White))
    else if r == 7 then Some(Piece(pieceIds(r, c), BackRankTypes[c], White))
    else None
  }

  function InitialGrid(pieceIds: (int, int) -> string): (g: Grid)
    ensures ValidGrid(g)
    ensures forall r, c :: 0 <= r < BoardSize && 0 <= c < BoardSize ==> g[r][c] == InitialCell(pieceIds, r, c)
  {
    seq(BoardSize, r => seq(BoardSize, c => InitialCell(pieceIds, r, c)))
  }

  /** `initBoard`: a fresh array holding the starting layout. */
  method InitBoard(pieceIds: (int, int) -> string) returns (b: array2<Option<Piece>>)
    ensures fresh(b) && b.Length0 == BoardSize && b.Length1 == BoardSize
    ensures GridOf(b) == InitialGrid(pieceIds)
  {
    b := new Option<Piece>[BoardSize, BoardSize]((r, c) => InitialCell(pieceIds, r, c));
    GridsEqual(GridOf(b), InitialGrid(pieceIds));
  }

  /** `_board.value.map { it.copyOf() }.toTypedArray()`: a fresh array with the same contents. */
  method CopyOf(b: array2<Option<Piece>>) returns (copy: array2<Option<Piece>>)
    requires b.Length0 == BoardSize && b.Length1 == BoardSize
    ensures fresh(copy) && copy.Length0 == BoardSize && copy.Length1 == BoardSize
    ensures GridOf(copy) == GridOf(b)
  {
    copy := new Option<Piece>[BoardSize, BoardSize](
      (r, c) requires 0 <= r < BoardSize && 0 <= c < BoardSize reads b => b[r, c]);
    GridsEqual(GridOf(copy), GridOf(b));
  }

  /**
   * The nested loops of `scramble`: square (i, j) receives `squares[index]`, the running
   * index counting up from 0 in row-major order.
   */
  method WriteBackRowMajor(copiedBoard: array2<Option<Piece>>, squares: seq<Option<Piece>>)
    requires copiedBoard.Length0 == BoardSize && copiedBoard.Length1 == BoardSize && |squares| == 64
    modifies copiedBoard
    ensures forall r, c :: 0 <= r < 8 && 0 <= c < 8 ==> copiedBoard[r, c] == squares[8 * r + c]
  {
    var index := 0;
    for i := 0 to BoardSize
      invariant index == 8 * i
      invariant forall r, c :: 0 <= r < i && 0 <= c < 8 ==> copiedBoard[r, c] == squares[8 * r + c]
    {
      for j := 0 to BoardSize
        invariant index == 8 * i + j
        invariant forall r, c :: 0 <= r < i && 0 <= c < 8 ==> copiedBoard[r, c] == squares[8 * r + c]
        invariant forall c :: 0 <= c < j ==> copiedBoard[i, c] == squares[8 * i + c]
      {
        copiedBoard[i, j] := squares[index];
        index := index + 1;
      }
    }
  }

  // ---------------------------------------------------------------------------
  // The repository
  // ---------------------------------------------------------------------------

  class ChessBoardRepository {

    /** The published board (`_board.value`). */
    var board: array2<Option<Piece>>

    /** The ids given to the pieces of the starting layout, square by square. */
    const pieceIds: (int, int) -> string

    ghost predicate Valid()
      reads this
    {
      board.Length0 == BoardSize && board.Length1 == BoardSize
    }

    /** The published board as a value. */
    function Snapshot(): Grid
      reads this, board
      requires Valid()
    {
      GridOf(board)
    }

    constructor(pieceIds: (int, int) -> string)
      ensures Valid() && fresh(board)
      ensures this.pieceIds == pieceIds
      ensures Snapshot() == InitialGrid(pieceIds)
    {
      var initial := InitBoard(pieceIds);
      this.pieceIds := pieceIds;
      board := initial;
    }

    /**
     * `movePiece`: copy the board, stop if the origin is empty, otherwise write the piece on
     * the destination, clear the origin, and publish the copy. The old array is never written.
     */
    method MovePiece(fromRow: int, fromCol: int, toRow: int, toCol: int)
      requires Valid() && InsideBoard(fromRow, fromCol)
      requires board[fromRow, fromCol].Some? ==> InsideBoard(toRow, toCol)
      modifies this
      ensures Valid()
      ensures old(board[fromRow, fromCol]).None? ==> board == old(board) && Snapshot() == old(Snapshot())
      ensures old(board[fromRow, fromCol]).Some? ==>
        fresh(board) && Snapshot() == Relocate(old(Snapshot()), Square(fromRow, fromCol), Square(toRow, toCol))
    {
      var current := CopyOf(board);
      var piece := current[fromRow, fromCol];
      if piece.None? {
        return;
      }
      ghost var before := GridOf(current);
      current[toRow, toCol] := piece;
      current[fromRow, fromCol] := None;
      board := current;
      GridsEqual(GridOf(board), Relocate(before, Square(fromRow, fromCol), Square(toRow, toCol)));
    }

    /** `reset`: publish a fresh starting layout, whatever the board held. */
    method Reset()
      requires Valid()
      modifies this
      ensures Valid() && fresh(board)
      ensures Snapshot() == InitialGrid(pieceIds)
    {
      board := InitBoard(pieceIds);
    }

    /**
     * `scramble`: write the shuffled squares back row by row through a running index and
     * publish the copy. `shuffled` is what `flatten().shuffled()` returned: any permutation
     * of the current squares.
     */
    method Scramble(shuffled: seq<Option<Piece>>)
      requires Valid() && multiset(shuffled) == multiset(Flatten(Snapshot()))
      modifies this
      ensures Valid() && fresh(board)
      ensures Flatten(Snapshot()) == shuffled
      ensures multiset(Flatten(Snapshot())) == multiset(Flatten(old(Snapshot())))
    {
      FlattenLength(Snapshot());
      assert |shuffled| == |multiset(shuffled)| == 64;
      var copiedBoard := CopyOf(board);
      WriteBackRowMajor(copiedBoard, shuffled);
      board := copiedBoard;
      FlattenRowMajor(Snapshot(), shuffled);
    }
  }
}

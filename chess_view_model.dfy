/**
 * ChessViewModel.kt: the projection of the board to the list of pieces the UI draws, and
 * the tap-selection state machine that turns two taps into a move attempt.
 */
module ViewModel {

  import opened Wrappers
  import opened Pieces
  import opened Moves
  import opened Board
  import opened BoardRepository
  import opened MakeMove

  // ---------------------------------------------------------------------------
  // uiPieces
  // ---------------------------------------------------------------------------

  /** `AnimatedPiece` without its drawable representation: the piece id and its square. */
  datatype AnimatedPiece = AnimatedPiece(id: string, row: int, col: int)

  /** `rowArray.mapIndexedNotNull`, for the cells of row `row` from column `col` on. */
  function RowPieces(row: int, cells: seq<Option<Piece>>, col: int): seq<AnimatedPiece>
  {
    if cells == [] then []
    else
      (match cells[0]
       case None => []
       case Some(p) => [AnimatedPiece(p.id, row, col)]) +
      RowPieces(row, cells[1..], col + 1)
  }

  /** `board.flatMapIndexed`, for the rows of the board from row `row` on. */
  function BoardPieces(rows: Grid, row: int): seq<AnimatedPiece>
  {
    if rows == [] then []
    else RowPieces(row, rows[0], 0) + BoardPieces(rows[1..], row + 1)
  }

  /** `uiPieces`: the pieces of a board as the UI lists them. */
  function UiPieces(g: Grid): seq<AnimatedPiece>
  {
    BoardPieces(g, 0)
  }

  /** Row-major order on squares. */
  predicate Before(a: AnimatedPiece, b: AnimatedPiece)
  {
    a.row < b.row || (a.row == b.row && a.col < b.col)
  }

  /** An entry of a row's list is an occupied cell of that row, with its column and id. */
  lemma {:induction false} RowPiecesExactly(row: int, cells: seq<Option<Piece>>, col: int, a: AnimatedPiece)
    ensures a in RowPieces(row, cells, col) <==>
      a.row == row && col <= a.col < col + |cells| &&
      cells[a.col - col].Some? && cells[a.col - col].value.id == a.id
  {
    if cells != [] {
      RowPiecesExactly(row, cells[1..], col + 1, a);
      if col + 1 <= a.col < col + |cells| {
        assert cells[1..][a.col - (col + 1)] == cells[a.col - col];
      }
    }
  }

  /** A row's list stays in the row and its columns strictly increase. */
  lemma {:induction false} RowPiecesOrdered(row: int, cells: seq<Option<Piece>>, col: int)
    ensures forall i :: 0 <= i < |RowPieces(row, cells, col)| ==>
      RowPieces(row, cells, col)[i].row == row && col <= RowPieces(row, cells, col)[i].col < col + |cells|
    ensures forall i, j :: 0 <= i < j < |RowPieces(row, cells, col)| ==>
      RowPieces(row, cells, col)[i].col < RowPieces(row, cells, col)[j].col
  {
    if cells != [] {
      RowPiecesOrdered(row, cells[1..], col + 1);
      var head: seq<AnimatedPiece> := match cells[0] case None => [] case Some(p) => [AnimatedPiece(p.id, row, col)];
      var rest := RowPieces(row, cells[1..], col + 1);
      var ps := head + rest;
      assert RowPieces(row, cells, col) == ps;
      assert forall i :: 0 <= i < |head| ==> head[i] == AnimatedPiece(cells[0].value.id, row, col);
      forall i | 0 <= i < |ps|
        ensures ps[i].row == row && col <= ps[i].col < col + |cells|
      {
        if i < |head| {
          assert ps[i] == head[i];
        } else {
          assert ps[i] == rest[i - |head|];
        }
      }
      forall i, j | 0 <= i < j < |ps|
        ensures ps[i].col < ps[j].col
      {
        assert ps[j] == rest[j - |head|];
        if i < |head| {
          assert ps[i] == head[i];
        } else {
          assert ps[i] == rest[i - |head|];
        }
      }
    }
  }

  /** An entry of the list is an occupied cell of one of the rows, with its square and id. */
  lemma {:induction false} BoardPiecesExactly(rows: Grid, row: int, a: AnimatedPiece)
    ensures a in BoardPieces(rows, row) <==>
      row <= a.row < row + |rows| && 0 <= a.col < |rows[a.row - row]| &&
      rows[a.row - row][a.col].Some? && rows[a.row - row][a.col].value.id == a.id
  {
    if rows != [] {
      var first := RowPieces(row, rows[0], 0);
      var rest := BoardPieces(rows[1..], row + 1);
      assert BoardPieces(rows, row) == first + rest;
      assert a in first + rest <==> a in first || a in rest;
      RowPiecesExactly(row, rows[0], 0, a);
      BoardPiecesExactly(rows[1..], row + 1, a);
      if row + 1 <= a.row < row + |rows| {
        assert rows[1..][a.row - (row + 1)] == rows[a.row - row];
      }
    }
  }

  /** The list is in strict row-major order and stays within the rows it was given. */
  lemma {:induction false} BoardPiecesOrdered(rows: Grid, row: int)
    ensures forall i :: 0 <= i < |BoardPieces(rows, row)| ==>
      row <= BoardPieces(rows, row)[i].row < row + |rows|
    ensures forall i, j :: 0 <= i < j < |BoardPieces(rows, row)| ==>
      Before(BoardPieces(rows, row)[i], BoardPieces(rows, row)[j])
  {
    if rows != [] {
      RowPiecesOrdered(row, rows[0], 0);
      BoardPiecesOrdered(rows[1..], row + 1);
      var first := RowPieces(row, rows[0], 0);
      var rest := BoardPieces(rows[1..], row + 1);
      var ps := first + rest;
      assert BoardPieces(rows, row) == ps;
      forall i | 0 <= i < |ps|
        ensures row <= ps[i].row < row + |rows|
      {
        if i < |first| {
          assert ps[i] == first[i];
        } else {
          assert ps[i] == rest[i - |first|];
        }
      }
      forall i, j | 0 <= i < j < |ps|
        ensures Before(ps[i], ps[j])
      {
        if j < |first| {
          assert ps[i] == first[i] && ps[j] == first[j];
        } else if i < |first| {
          assert ps[i] == first[i] && ps[j] == rest[j - |first|];
        } else {
          assert ps[i] == rest[i - |first|] && ps[j] == rest[j - |first|];
        }
      }
    }
  }

  /**
   * `uiPieces` lists exactly the occupied squares of the board, each with its row, column
   * and piece id, empty squares skipped.
   */
  lemma UiPiecesExactly(g: Grid, a: AnimatedPiece)
    requires ValidGrid(g)
    ensures a in UiPieces(g) <==>
      InsideBoard(a.row, a.col) && g[a.row][a.col].Some? && g[a.row][a.col].value.id == a.id
  {
    BoardPiecesExactly(g, 0, a);
  }

  /** `uiPieces` is in strict row-major order, so no square appears twice. */
  lemma UiPiecesRowMajor(g: Grid)
    requires ValidGrid(g)
    ensures forall i, j :: 0 <= i < j < |UiPieces(g)| ==> Before(UiPieces(g)[i], UiPieces(g)[j])
    ensures forall i, j :: 0 <= i < j < |UiPieces(g)| ==>
      UiPieces(g)[i].row != UiPieces(g)[j].row || UiPieces(g)[i].col != UiPieces(g)[j].col
  {
    BoardPiecesOrdered(g, 0);
  }

  // ---------------------------------------------------------------------------
  // onSquareClicked
  // ---------------------------------------------------------------------------

  /** A move attempt handed to the use case: the selected piece, from where, to where. */
  datatype Attempt = Attempt(piece: Piece, from: Square, to: Square)

  /** The new selection after a tap, and the move attempted by it, if any. */
  datatype TapOutcome = TapOutcome(selected: Option<Square>, attempt: Option<Attempt>)

  /**
   * `onSquareClicked` on values: with nothing selected, an occupied square becomes selected;
   * tapping the selected square again does nothing; tapping another square attempts to move
   * the piece on the selected square there, when there is one, and always clears the selection.
   */
  function Tap(selected: Option<Square>, g: Grid, square: Square): (r: TapOutcome)
    requires ValidGrid(g) && OnBoard(square) && (selected.Some? ==> OnBoard(selected.value))
    ensures selected.None? ==>
      r.attempt.None? && (r.selected.Some? <==> PieceAt(g, square).Some?) &&
      (r.selected.Some? ==> r.selected == Some(square))
    ensures selected == Some(square) ==> r.selected == selected && r.attempt.None?
    ensures selected.Some? && selected.value != square ==> r.selected.None?
    ensures selected.Some? && selected.value != square ==>
      (r.attempt.Some? <==> PieceAt(g, selected.value).Some?) &&
      (r.attempt.Some? ==> r.attempt.value == Attempt(PieceAt(g, selected.value).value, selected.value, square))
    ensures r.selected.Some? ==> OnBoard(r.selected.value)
    ensures r.attempt.Some? ==> OnBoard(r.attempt.value.from) && OnBoard(r.attempt.value.to)
  {
    match selected
    case None => TapOutcome(if PieceAt(g, square).Some? then Some(square) else None, None)
    case Some(current) =>
      if current == square then TapOutcome(selected, None)
      else
        match PieceAt(g, current)
        case None => TapOutcome(None, None)
        case Some(piece) => TapOutcome(None, Some(Attempt(piece, current, square)))
  }

  /**
   * Two taps on an unchanged board, first on an occupied square and then on another square,
   * attempt to move the piece standing on the first to the second and leave nothing selected.
   */
  lemma TwoTapsAttemptMove(g: Grid, first: Square, second: Square)
    requires ValidGrid(g) && OnBoard(first) && OnBoard(second) && first != second
    requires PieceAt(g, first).Some?
    ensures var afterFirst := Tap(None, g, first);
      afterFirst == TapOutcome(Some(first), None) &&
      Tap(afterFirst.selected, g, second) ==
        TapOutcome(None, Some(Attempt(PieceAt(g, first).value, first, second)))
  {
  }

  /** The board after an attempt: relocated when the validator accepts, untouched otherwise. */
  function AfterAttempt(g: Grid, attempt: Option<Attempt>, isLegal: (Piece, Square, Square) -> bool): Grid
    requires ValidGrid(g) && (attempt.Some? ==> OnBoard(attempt.value.from) && OnBoard(attempt.value.to))
  {
    match attempt
    case None => g
    case Some(a) => if isLegal(a.piece, a.from, a.to) then Relocate(g, a.from, a.to) else g
  }

  class ChessViewModel {

    const repository: ChessBoardRepository
    const validateAndMakeMove: ValidateAndMakeMove

    /** `_selected.value`. */
    var selected: Option<Square>

    ghost predicate Valid()
      reads this, repository, validateAndMakeMove
    {
      validateAndMakeMove.repository == repository && repository.Valid() &&
      (selected.Some? ==> OnBoard(selected.value))
    }

    constructor(repository: ChessBoardRepository, validateAndMakeMove: ValidateAndMakeMove)
      requires validateAndMakeMove.repository == repository && repository.Valid()
      ensures Valid() && selected.None?
      ensures this.repository == repository && this.validateAndMakeMove == validateAndMakeMove
    {
      this.repository := repository;
      this.validateAndMakeMove := validateAndMakeMove;
      selected := None;
    }

    /**
     * `onSquareClicked`: the selection moves as `Tap` says, and the board changes only
     * through the use case, as the attempted move's `AfterAttempt`.
     */
    method OnSquareClicked(square: Square)
      requires Valid() && OnBoard(square)
      modifies this, repository
      ensures Valid()
      ensures var outcome := Tap(old(selected), old(repository.Snapshot()), square);
        selected == outcome.selected &&
        repository.Snapshot() == AfterAttempt(old(repository.Snapshot()), outcome.attempt, validateAndMakeMove.isLegal)
    {
      var currentSel := selected;
      var board := repository.board;
      match currentSel {
        case None =>
          if board[square.row, square.col].Some? {
            selected := Some(square);
          }
        case Some(current) =>
          if current != square {
            var selectedPiece := board[current.row, current.col];
            if selectedPiece.Some? {
              var moveResult := validateAndMakeMove.Invoke(selectedPiece.value, current, square);
            }
            selected := None;
          }
      }
    }
  }
}

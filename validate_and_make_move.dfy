/**
 * ValidateAndMakeMove.kt: apply a move to the repository only when the validator
 * accepts it.
 */
module MakeMove {

  import opened Pieces
  import opened Moves
  import opened Board
  import opened BoardRepository

  /** `ValidateAndMakeMove.Result`: exactly two outcomes. */
  datatype MoveResult = Success | Illegal

  class ValidateAndMakeMove {

    const repository: ChessBoardRepository

    /**
     * The validator's three-argument `isLegal(piece, from, to)` that the use case calls; no
     * such overload exists on `MoveValidator`, so it is taken as given.
     */
    const isLegal: (Piece, Square, Square) -> bool

    constructor(repository: ChessBoardRepository, isLegal: (Piece, Square, Square) -> bool)
      ensures this.repository == repository && this.isLegal == isLegal
    {
      this.repository := repository;
      this.isLegal := isLegal;
    }

    /**
     * `invoke`: `Success` exactly when the validator accepts, and then the board changes as
     * `movePiece(from.row, from.col, to.row, to.col)` changes it: untouched for an empty
     * origin, a plain relocation otherwise; `Illegal` otherwise, with the published board
     * untouched.
     */
    method Invoke(selectedPiece: Piece, from: Square, to: Square) returns (result: MoveResult)
      requires repository.Valid()
      requires isLegal(selectedPiece, from, to) ==>
        OnBoard(from) && (repository.board[from.row, from.col].Some? ==> OnBoard(to))
      modifies repository
      ensures repository.Valid()
      ensures result == Success <==> isLegal(selectedPiece, from, to)
      ensures result == Success && old(repository.board[from.row, from.col]).None? ==>
        repository.board == old(repository.board) && repository.Snapshot() == old(repository.Snapshot())
      ensures result == Success && old(repository.board[from.row, from.col]).Some? ==>
        repository.Snapshot() == Relocate(old(repository.Snapshot()), from, to)
      ensures result == Illegal ==>
        repository.board == old(repository.board) && repository.Snapshot() == old(repository.Snapshot())
    {
      if isLegal(selectedPiece, from, to) {
        repository.MovePiece(from.row, from.col, to.row, to.col);
        result := Success;
      } else {
        result := Illegal;
      }
    }
  }
}

# kmp-chess move rules, board store and tap selection in Dafny

This project models the rules engine of the kmp-chess Kotlin Multiplatform app and the
small amount of state that drives it. It covers these parts:

- **Pieces and moves** (`pieces.dfy`, `moves.dfy`). `Piece` and `Move` are value types compared
  field by field. A `Move` built from only from/to/piece gets the defaults no capture, no
  promotion and `NONE`.
- **The move generator** (`board.dfy`, `move_generator.dfy`). It produces the pseudo-legal
  moves of one piece on an 8x8 board indexed `[row][col]`, where row 0 is Black's back rank
  and White moves toward row 0. It covers:
  - pawn advances, diagonal captures and en passant;
  - knight and king single steps;
  - bishop, rook and queen rays;
  - castling rights read from the move history.

  The `+=` loops of `pawnMoves`, `slideMoves` and `generateCastlingMoves` are methods. Each is
  proved equal to a specification function. The properties are proved about those functions.
- **The move validator** (`move_validator.dfy`). `isLegal` is built on the generator and on
  board helpers that are not part of this model (`allPieces`, `copy`, `applyMove`, `findKing`,
  `isSquareAttacked`, `opponent`, `isCastling`). They are the function-valued fields of
  `BoardOps`, and nothing is assumed about them unless a lemma's `requires` says so. `legalMoves`
  is the `flatMap`/`filter` over `allPieces`.
- **The board repository** (`board_repository.dfy`). It is a class whose published board is an
  `array2`. `movePiece` and `scramble` copy the board, write cells in place and publish the copy.
  `reset` publishes a fresh starting layout. `initial_position.dfy` reads the starting layout
  against the generator's own constants and derives the opening moves of kings and pawns.
- **The use case** (`validate_and_make_move.dfy`). It is an accept-or-reject gate in front of
  `movePiece`.
- **The view model** (`chess_view_model.dfy`). It contains:
  - `uiPieces`, the projection of the board to a row-major list of (id, row, column);
  - `onSquareClicked`, the three-way selection state machine. It is specified by the pure
    transition `Tap` and by the board change of the attempted move.

Paths in the table are relative to the repository root.

## Model

| member | source | states |
|---|---|---|
| Pieces.PieceTypesAreSix | composeApp/src/commonMain/kotlin/org/example/chess/domain/model/Piece.kt:3 | every piece kind is one of six pairwise distinct kinds |
| Pieces.PieceColorsAreTwo | composeApp/src/commonMain/kotlin/org/example/chess/domain/model/Piece.kt:4 | a colour is White or Black, and the two differ |
| Pieces.PieceEquality | composeApp/src/commonMain/kotlin/org/example/chess/domain/model/Piece.kt:6-10 | two pieces are equal iff id, kind and colour are all equal |
| Moves.PlainMove | composeApp/src/commonMain/kotlin/org/example/chess/domain/model/Move.kt:9-11 | a move built from from/to/piece has no capture, no promotion and special `NONE` |
| Moves.MoveEquality | composeApp/src/commonMain/kotlin/org/example/chess/domain/model/Move.kt:5-12 | moves are equal iff all six fields are; the same from/to with another capture is another move |
| Board.InsideBoard | composeApp/src/commonMain/kotlin/org/example/chess/domain/usecase/MoveGenerator.kt:27 | `isInsideBoard`: both coordinates lie in 0..7 (definition; no contract) |
| Board.PieceAt | composeApp/src/commonMain/kotlin/org/example/chess/domain/usecase/MoveGenerator.kt:29 | `pieceAt`: the occupant of an on-board square (definition; no contract) |
| Board.IsEmpty | composeApp/src/commonMain/kotlin/org/example/chess/domain/usecase/MoveGenerator.kt:31 | `isEmpty`: no piece on the square (definition; no contract) |
| Board.IsOpponent | composeApp/src/commonMain/kotlin/org/example/chess/domain/usecase/MoveGenerator.kt:33-34 | `isOpponent`: a piece of the other side on the square (definition; no contract) |
| Board.IsFriendlyTo | composeApp/src/commonMain/kotlin/org/example/chess/domain/usecase/MoveGenerator.kt:36 | `isFriendlyTo`: a piece of the given side (definition; no contract) |
| MoveGenerator.StepMoves | composeApp/src/commonMain/kotlin/org/example/chess/domain/usecase/MoveGenerator.kt:108-125 | at most one move per offset, each from the given square, by the given piece, of no special kind; membership is `StepMovesExactly` |
| MoveGenerator.Ray | composeApp/src/commonMain/kotlin/org/example/chess/domain/usecase/MoveGenerator.kt:144-159 | one direction of `slideMoves` (definition; its meaning is `RayExactly`) |
| MoveGenerator.SlideMoves | composeApp/src/commonMain/kotlin/org/example/chess/domain/usecase/MoveGenerator.kt:136-162 | the rays of the directions in order (definition; its meaning is `SlideMovesExactly` and `SlideMoveDestinations`) |
| MoveGenerator.StepMovesExactly | composeApp/src/commonMain/kotlin/org/example/chess/domain/usecase/MoveGenerator.kt:108-125 | a knight or king step is generated iff its offset is listed, it stays on the board and does not land on a friendly piece; `captured` is the occupant, possibly none |
| MoveGenerator.StepMovesBlocked | composeApp/src/commonMain/kotlin/org/example/chess/domain/usecase/MoveGenerator.kt:117 | no step is generated when every offset leaves the board or lands on a friendly piece |
| MoveGenerator.RayExactly | composeApp/src/commonMain/kotlin/org/example/chess/domain/usecase/MoveGenerator.kt:143-160 | a ray's moves are exactly the on-board, non-friendly squares reached over empty squares only, each capturing its occupant |
| MoveGenerator.RayOnlyReaches | composeApp/src/commonMain/kotlin/org/example/chess/domain/usecase/MoveGenerator.kt:146-156 | every move on a ray lands on such a square; nothing past the first occupied square |
| MoveGenerator.RayReachesAll | composeApp/src/commonMain/kotlin/org/example/chess/domain/usecase/MoveGenerator.kt:146-158 | every such square gives a move on the ray |
| MoveGenerator.SlideMovesExactly | composeApp/src/commonMain/kotlin/org/example/chess/domain/usecase/MoveGenerator.kt:136-162 | a sliding move is a move on the ray of one of the given directions, and every ray move is a sliding move |
| MoveGenerator.SlideMoveDestinations | composeApp/src/commonMain/kotlin/org/example/chess/domain/usecase/MoveGenerator.kt:127-162 | sliding destinations, square by square: empty squares up to the first occupied one, that one included as a capture iff it holds the other side |
| MoveGenerator.CollectSlideMoves | composeApp/src/commonMain/kotlin/org/example/chess/domain/usecase/MoveGenerator.kt:136-162 | the direction loop of `slideMoves` returns the concatenated rays of the directions in order |
| MoveGenerator.CollectRay | composeApp/src/commonMain/kotlin/org/example/chess/domain/usecase/MoveGenerator.kt:144-159 | the inner `while` loop with its `break` returns exactly the ray of one direction |
| MoveGenerator.PawnMoves | composeApp/src/commonMain/kotlin/org/example/chess/domain/usecase/MoveGenerator.kt:57-106 | `pawnMoves` (definition; its meaning is `PawnMoveShapes` and the four generation lemmas) |
| MoveGenerator.PawnMovesInOrder | composeApp/src/commonMain/kotlin/org/example/chess/domain/usecase/MoveGenerator.kt:57-106 | pawn moves are the advances, then the captures toward column -1, then toward column +1 |
| MoveGenerator.CollectPawnMoves | composeApp/src/commonMain/kotlin/org/example/chess/domain/usecase/MoveGenerator.kt:57-106 | the imperative `pawnMoves` returns exactly the specified pawn moves |
| MoveGenerator.CollectCapturesToward | composeApp/src/commonMain/kotlin/org/example/chess/domain/usecase/MoveGenerator.kt:79-104 | one pass of the capture loop (off-board `continue`, diagonal capture, `lastOrNull() ?: continue`, en passant) returns the captures toward that column |
| MoveGenerator.AdvanceShape | composeApp/src/commonMain/kotlin/org/example/chess/domain/usecase/MoveGenerator.kt:64-76 | an advance is a plain move in the same column onto an empty square: one step, or two from the start row over an empty square |
| MoveGenerator.CaptureTowardShape | composeApp/src/commonMain/kotlin/org/example/chess/domain/usecase/MoveGenerator.kt:78-104 | a capture toward a column lands one row forward in that column: a diagonal capture of an opponent, or en passant after a qualifying last move, capturing that move's pawn |
| MoveGenerator.PawnSingleAdvance | composeApp/src/commonMain/kotlin/org/example/chess/domain/usecase/MoveGenerator.kt:65-71 | the one-step advance is generated iff the square ahead is on the board and empty |
| MoveGenerator.PawnDoubleAdvance | composeApp/src/commonMain/kotlin/org/example/chess/domain/usecase/MoveGenerator.kt:72-75 | the two-step advance is generated iff the pawn is on its start row (6 White, 1 Black) and both squares ahead are empty |
| MoveGenerator.PawnMoveShapes | composeApp/src/commonMain/kotlin/org/example/chess/domain/usecase/MoveGenerator.kt:57-106 | every pawn move is an advance onto empty squares, a diagonal capture of an opponent recorded as captured, or en passant with the last move's pawn as captured; never a castle, never a promotion |
| MoveGenerator.EnPassantNeedsTwoStep | composeApp/src/commonMain/kotlin/org/example/chess/domain/usecase/MoveGenerator.kt:89-103 | en passant needs a non-empty history whose last move is a two-row pawn move landing beside the mover in the target column |
| MoveGenerator.PawnDiagonalCaptureGenerated | composeApp/src/commonMain/kotlin/org/example/chess/domain/usecase/MoveGenerator.kt:83-86 | a diagonal target on the board holding an opponent is always captured |
| MoveGenerator.EnPassantGenerated | composeApp/src/commonMain/kotlin/org/example/chess/domain/usecase/MoveGenerator.kt:88-103 | right after a qualifying two-row pawn move beside the mover, en passant onto its column is generated |
| MoveGenerator.EnPassantWindowCloses | composeApp/src/commonMain/kotlin/org/example/chess/domain/usecase/MoveGenerator.kt:89-95 | appending any move that is not a two-row pawn move removes every en passant option |
| MoveGenerator.KingMoves | composeApp/src/commonMain/kotlin/org/example/chess/domain/usecase/MoveGenerator.kt:164-188 | at most ten moves: eight steps and two castles |
| MoveGenerator.CastlingMoves | composeApp/src/commonMain/kotlin/org/example/chess/domain/usecase/MoveGenerator.kt:190-244 | at most two moves, none once the king has moved, each from the king's square by the king and of a castling kind |
| MoveGenerator.CollectCastlingMoves | composeApp/src/commonMain/kotlin/org/example/chess/domain/usecase/MoveGenerator.kt:190-244 | the early return and two appends of `generateCastlingMoves` return exactly the specified castling moves |
| MoveGenerator.CastlingMoveShapes | composeApp/src/commonMain/kotlin/org/example/chess/domain/usecase/MoveGenerator.kt:194-240 | a castling move exists only with the king unmoved on (backRank, 4), and it is one of the two castles |
| MoveGenerator.CastlingGenerated | composeApp/src/commonMain/kotlin/org/example/chess/domain/usecase/MoveGenerator.kt:190-244 | a king generates the kingside castle iff it is at home, unmoved, the h-rook unmoved and columns 5, 6 empty; the queenside castle likewise with the a-rook and columns 1 to 3; attacks are not consulted |
| MoveGenerator.CastleIsNotStep | composeApp/src/commonMain/kotlin/org/example/chess/domain/usecase/MoveGenerator.kt:167-184 | a king single step never carries a special kind |
| MoveGenerator.GenerateMoves | composeApp/src/commonMain/kotlin/org/example/chess/domain/usecase/MoveGenerator.kt:43-55 | `generateMoves` (definition; its meaning is `GeneratedMovesWellFormed` and the per-kind lemmas) |
| MoveGenerator.Generate | composeApp/src/commonMain/kotlin/org/example/chess/domain/usecase/MoveGenerator.kt:43-55 | `generateMoves` dispatches on the piece kind and returns exactly the specified moves |
| MoveGenerator.GeneratedMovesWellFormed | composeApp/src/commonMain/kotlin/org/example/chess/domain/usecase/MoveGenerator.kt:43-55 | every generated move starts on the given square, carries the given piece, has no promotion and ends on the board |
| MoveValidator.BoardAfter | composeApp/src/commonMain/kotlin/org/example/chess/domain/usecase/MoveValidator.kt:24-25 | the trial board `copy()` then `applyMove` (definition over the abstract helpers; no contract) |
| MoveValidator.ThroughSquares | composeApp/src/commonMain/kotlin/org/example/chess/domain/usecase/MoveValidator.kt:33-37 | the checked castling squares are `from` and columns 5, 6 on its row for kingside, `from` and columns 3, 2 otherwise |
| MoveValidator.IsLegal | composeApp/src/commonMain/kotlin/org/example/chess/domain/usecase/MoveValidator.kt:15-42 | rejected when not generated, when the king is not found or is attacked after the trial move, or for a castle when a checked square is attacked before it; accepted exactly when none fires |
| MoveValidator.LegalMoveWellFormed | composeApp/src/commonMain/kotlin/org/example/chess/domain/usecase/MoveValidator.kt:21 | a legal move has no promotion and ends on the board |
| MoveValidator.KingsideCastleLegal | composeApp/src/commonMain/kotlin/org/example/chess/domain/usecase/MoveValidator.kt:32-40 | the kingside castle is legal iff the generator's castling conditions hold, the king is safe after it, and none of columns 4, 5, 6 of the back rank is attacked |
| MoveValidator.QueensideCastleLegal | composeApp/src/commonMain/kotlin/org/example/chess/domain/usecase/MoveValidator.kt:32-40 | the queenside castle is legal iff the generator's conditions hold, the king is safe after it, and none of columns 4, 3, 2 is attacked; column 1 may be |
| MoveValidator.AttackedThrough | composeApp/src/commonMain/kotlin/org/example/chess/domain/usecase/MoveValidator.kt:38 | `any` over the three checked squares is the disjunction of the three attack tests |
| MoveValidator.KeepLegal | composeApp/src/commonMain/kotlin/org/example/chess/domain/usecase/MoveValidator.kt:11 | the filter keeps exactly the legal moves of its input, and no more of them |
| MoveValidator.LegalMoves | composeApp/src/commonMain/kotlin/org/example/chess/domain/usecase/MoveValidator.kt:4-12 | `legalMoves` (definition; its meaning is `LegalMovesSound`, `LegalMovesComplete` and `LegalMovesExactly`) |
| MoveValidator.LegalMovesFromExactly | composeApp/src/commonMain/kotlin/org/example/chess/domain/usecase/MoveValidator.kt:9-12 | a move is in the `flatMap` iff some listed piece generates it and it is legal |
| MoveValidator.LegalMovesSound | composeApp/src/commonMain/kotlin/org/example/chess/domain/usecase/MoveValidator.kt:4-12 | every move of `legalMoves` is legal and is made by a piece of `side` from its own square, given `allPieces` lists only such pieces |
| MoveValidator.LegalMovesComplete | composeApp/src/commonMain/kotlin/org/example/chess/domain/usecase/MoveValidator.kt:4-12 | every legal move of a piece of `side` from its own square is in `legalMoves`, given `allPieces` lists every such piece |
| MoveValidator.LegalMovesExactly | composeApp/src/commonMain/kotlin/org/example/chess/domain/usecase/MoveValidator.kt:4-12 | given `allPieces` lists exactly the pieces of `side`, `legalMoves` holds exactly the legal moves of those pieces from their squares |
| BoardRepository.Relocate | composeApp/src/commonMain/kotlin/org/example/chess/data/repository/ChessBoardRepository.kt:16-22 | empty origin: board unchanged; otherwise the destination holds the piece and the origin is empty; onto its own square the piece disappears; no other square changes |
| BoardRepository.Flatten | composeApp/src/commonMain/kotlin/org/example/chess/data/repository/ChessBoardRepository.kt:59 | `flatten`: the rows laid end to end (definition; its layout is `FlattenIndex`) |
| BoardRepository.FlattenIndex | composeApp/src/commonMain/kotlin/org/example/chess/data/repository/ChessBoardRepository.kt:59 | `flatten` of rows of eight has 8 entries per row and puts square (r, c) at index 8r + c |
| BoardRepository.InitialGrid | composeApp/src/commonMain/kotlin/org/example/chess/data/repository/ChessBoardRepository.kt:28-55 | the starting layout is an 8x8 board given square by square |
| BoardRepository.InitBoard | composeApp/src/commonMain/kotlin/org/example/chess/data/repository/ChessBoardRepository.kt:28-55 | `initBoard` returns a fresh array holding the starting layout |
| BoardRepository.CopyOf | composeApp/src/commonMain/kotlin/org/example/chess/data/repository/ChessBoardRepository.kt:17 | the row copy is a fresh array with the same contents |
| BoardRepository.WriteBackRowMajor | composeApp/src/commonMain/kotlin/org/example/chess/data/repository/ChessBoardRepository.kt:60-67 | the nested loops with the running index put `squares[8i + j]` on square (i, j) |
| BoardRepository.ChessBoardRepository.constructor | composeApp/src/commonMain/kotlin/org/example/chess/data/repository/ChessBoardRepository.kt:13-14 | a new repository publishes the starting layout |
| BoardRepository.ChessBoardRepository.MovePiece | composeApp/src/commonMain/kotlin/org/example/chess/data/repository/ChessBoardRepository.kt:16-22 | empty origin: same array, same board; otherwise a fresh array holding the relocated board; the previous array is never written |
| BoardRepository.ChessBoardRepository.Reset | composeApp/src/commonMain/kotlin/org/example/chess/data/repository/ChessBoardRepository.kt:24-26 | whatever came before, a fresh array holding exactly the starting layout |
| BoardRepository.ChessBoardRepository.Scramble | composeApp/src/commonMain/kotlin/org/example/chess/data/repository/ChessBoardRepository.kt:57-69 | the new board flattens to the shuffled list, so the multiset of squares is preserved; the array is fresh |
| InitialPosition.InitialLayout | composeApp/src/commonMain/kotlin/org/example/chess/data/repository/ChessBoardRepository.kt:28-55 | kings on (backRank, 4), rooks in the corners, pawns filling the start row, rows 2 to 5 empty, White mirroring Black; the generator's back rank and start row |
| InitialPosition.InitialKingHasNoMoves | composeApp/src/commonMain/kotlin/org/example/chess/domain/usecase/MoveGenerator.kt:164-188 | at the start a king has no move at all |
| InitialPosition.InitialKingStepsBlocked | composeApp/src/commonMain/kotlin/org/example/chess/domain/usecase/MoveGenerator.kt:167-184 | at the start every king neighbour is off the board or friendly |
| InitialPosition.InitialCastlingBlocked | composeApp/src/commonMain/kotlin/org/example/chess/domain/usecase/MoveGenerator.kt:216-241 | at the start both castles are blocked by the king's own pieces |
| InitialPosition.InitialPawnMoves | composeApp/src/commonMain/kotlin/org/example/chess/domain/usecase/MoveGenerator.kt:64-76 | at the start every pawn has exactly its single and double advance, in that order |
| MakeMove.ValidateAndMakeMove.constructor | composeApp/src/commonMain/kotlin/org/example/chess/domain/usecase/ValidateAndMakeMove.kt:7-10 | the use case keeps its repository and validator |
| MakeMove.ValidateAndMakeMove.Invoke | composeApp/src/commonMain/kotlin/org/example/chess/domain/usecase/ValidateAndMakeMove.kt:16-23 | `Success` iff the validator accepts, and then the board changes as by `movePiece`: untouched for an empty origin, relocated otherwise; `Illegal` leaves the published array and board untouched |
| ViewModel.UiPieces | composeApp/src/commonMain/kotlin/org/example/chess/ui/viewmodel/ChessViewModel.kt:21-34 | `uiPieces` (definition; its meaning is `UiPiecesExactly` and `UiPiecesRowMajor`) |
| ViewModel.RowPiecesExactly | composeApp/src/commonMain/kotlin/org/example/chess/ui/viewmodel/ChessViewModel.kt:23-32 | a row's entries are exactly its occupied cells, with column and id |
| ViewModel.RowPiecesOrdered | composeApp/src/commonMain/kotlin/org/example/chess/ui/viewmodel/ChessViewModel.kt:23-32 | a row's entries stay in that row, with strictly increasing columns |
| ViewModel.BoardPiecesExactly | composeApp/src/commonMain/kotlin/org/example/chess/ui/viewmodel/ChessViewModel.kt:22-33 | the flattened entries are exactly the occupied cells of the rows, with square and id |
| ViewModel.BoardPiecesOrdered | composeApp/src/commonMain/kotlin/org/example/chess/ui/viewmodel/ChessViewModel.kt:22-33 | the flattened entries are in strict row-major order |
| ViewModel.UiPiecesExactly | composeApp/src/commonMain/kotlin/org/example/chess/ui/viewmodel/ChessViewModel.kt:21-34 | `uiPieces` lists exactly the occupied squares with their row, column and piece id; empty squares are skipped |
| ViewModel.UiPiecesRowMajor | composeApp/src/commonMain/kotlin/org/example/chess/ui/viewmodel/ChessViewModel.kt:21-34 | `uiPieces` is in strict row-major order, so each square appears at most once |
| ViewModel.Tap | composeApp/src/commonMain/kotlin/org/example/chess/ui/viewmodel/ChessViewModel.kt:36-61 | nothing selected: an occupied square is selected, an empty one is not; the selected square again: no change, no attempt; another square: selection cleared, and a move of the selected square's piece is attempted iff it holds one |
| ViewModel.TwoTapsAttemptMove | composeApp/src/commonMain/kotlin/org/example/chess/ui/viewmodel/ChessViewModel.kt:40-58 | tapping an occupied square then another square attempts that piece's move and leaves nothing selected |
| ViewModel.ChessViewModel.constructor | composeApp/src/commonMain/kotlin/org/example/chess/ui/viewmodel/ChessViewModel.kt:13-19 | a new view model has nothing selected |
| ViewModel.ChessViewModel.OnSquareClicked | composeApp/src/commonMain/kotlin/org/example/chess/ui/viewmodel/ChessViewModel.kt:36-61 | the selection moves as `Tap` says; the board changes only through the use case, relocated iff the attempted move is accepted |

## Left out

- Rendering is not modelled: Compose UI, `AnimatedPiece.representation` and `PieceRepresentation`. `AnimatedPiece` keeps id, row and column only.
- Platform entry points, the `BaseViewModel` coroutine scopes and the Kodein wiring in `AppModule.kt` are plumbing and are not modelled. So is the misnamed `moveGenerator =` argument there.
- `StateFlow`/`MutableStateFlow` are not modelled: the published board and the selection are plain fields, and emission and collection are not modelled. `uiPieces` is the function `UiPieces` of the current board value.
- `ChessViewModel.reset` and `ChessViewModel.scramble` forward to the repository with no logic of their own; they are not modelled separately.
- The randomness of `shuffled()` is not modelled: `Scramble` takes the shuffled list as a parameter and requires only that it is a permutation of the current squares.
- The validator's board helpers are not defined in any file of this model. `copy` and `applyMove` are function values, so the trial board is the value `applyMove(copy(board), move)`. The in-place update of that copy is therefore not modelled.
- `ValidateAndMakeMove` calls a three-argument `isLegal(piece, from, to)` that `MoveValidator` does not declare. The use case holds it as the function `isLegal`, unrelated to `MoveValidator.IsLegal`.
- `initBoard` builds `Piece` without the `id` the data class requires. The repository takes the ids as `pieceIds(row, col)`; nothing is assumed about them.
- Kotlin `Array<Array<Piece?>>` rows are separate objects; the model collapses them into one `array2`, so aliasing between row objects is not modelled. The source copies every row before writing, and the model copies the whole array.
- Array bounds exceptions are not modelled. `ChessBoardRepository.MovePiece` requires an on-board origin, and an on-board destination when the origin is occupied, since the source throws otherwise. `MakeMove.ValidateAndMakeMove.Invoke` requires the same whenever the validator accepts.
- The generator's doc comment (MoveGenerator.kt:40-41) and the comments at lines 216 and 229 say castling checks attacked squares. The code does not, and the model follows the code: the check exists only in `MoveValidator.IsLegal`.
- Promotion, rook relocation on castling, removal of the pawn taken en passant, history append, turn alternation and checkmate, stalemate or draw detection do not exist in the source and are not modelled. Applying a move is a plain relocation (`Relocate`).
- The en passant condition does not look at the colour of the last move's pawn, and castling does not check that a rook stands in the corner. Both quirks are kept as written.

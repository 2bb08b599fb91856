# Chess rules engine — a Dafny model

This project models the rules engine of a browser chess game written in TypeScript. It covers:

- the `ChessBoard` class (`src/app/chess-logic/chess-board.ts`): the 8x8 board, the side
  to move, the map from each origin square to its legal destinations ("safe squares"), the
  last move and the check state;
- the piece classes, with their direction tables and `hasMoved` flags;
- the `FENConverter`, which writes a position as a Forsyth–Edwards Notation string;
- the decoder that reads the chess engine's reply (`e7e5`, `b2b1q`) back into coordinates.

The board is indexed `[x][y]`: `x` is the rank (0 is White's back rank) and `y` is the file.

## How the model is built

- **Pieces are values.** A piece is a value `Piece(kind, colour, hasMoved)`. Its direction
  table and FEN letter are functions of kind and colour (`Pieces`). The three classes whose
  objects change after construction (Pawn, King, Rook) are also modelled as classes with
  their setters (`PieceObjects`). Each is tied to the value by `AsPiece`.
- **The board is a value.** It is a `seq<seq<Option<Piece>>>`. `ChessBoard` holds it in a
  field, and its methods reassign that field one cell at a time.
- **Methods are proved against functions.** Every method of the class is proved to compute
  a function of the board value: `CheckScan`, `SafeAfterMove`, `PieceDests`,
  `SafeSquareMap` and `AfterMove`. The properties are proved about those functions.
  - `CheckScan` is proved sound and complete against a reference definition of an attack.
  - Slides are proved sound and complete against a reference definition of a reachable
    square.
  - The map's keys are exactly the squares of the side to move that have a destination.
  - In every position the engine reaches, every destination passes
    `isPositionSafeAfterMove` (`PieceDestsSafe`), so `move` only plays safe moves
    (`ListedIsSafe`).
- **The class invariant.** `ChessBoard.Valid()` says the map is always the map of the
  current position. It also says an unmoved King stands on its home square, and that the
  last move was not a Pawn moving two ranks (`PawnMovesShort`). The constructor
  establishes it and `Move` keeps it (`DestKeepsPawnMovesShort`).
- **Outcome of `move`.** `move` returns nothing and throws `Error("Square is not safe.")`.
  The model returns a `MoveOutcome` instead: `Ignored`, `Moved` or `Failed(message)`.
- **The FEN string.** It is specified by `FenString`. Its partners are a reader for each
  field:
  - `Split` at spaces gives back the six fields;
  - `Split` at "/" gives the eight rank texts;
  - `ExpandRank` reads each rank text back into the rank of the board view.

The model follows the code as written. Several places do not do what chess (or a reader of
the code) would expect, and the model keeps them:

- **Transposed Pawn vectors.** The Pawn's table is `(0,1), (0,2), (1,1), (-1,1)`, so a
  Pawn's forward step changes the file, not the rank. The Pawn filters of
  `findSafeSquares` test `dx` as if it were the rank step. As a result a Pawn changes rank
  by at most one (`PawnDestsOneRank`). So the last move is never a two-rank Pawn move,
  and the en-passant branches never fire in a game: `canCaptureEnPassant` refuses
  (`ShortPawnMovesNoEnPassant`), `handlingSpecialMoves` never captures en passant
  (`ShortPawnMovesNoCapture`) and the FEN en-passant field is "-"
  (`FenConverter.EnPassantFieldOfEngine`).
- **Sliders never give check.** In `isInCheck` the ray walk is inside the branch for Pawns,
  Knights and Kings. Those pieces follow every vector to the first occupied square.
  Rooks, Bishops and Queens are never examined (`Attacks.SlidersNeverGiveCheck`).
- **No has-moved gate on the double step.** The Pawn's two-square vector is available
  whether or not it has moved.
- **Queen-side castling only in FEN.** The castling field reports queen-side castling only:
  "Q" for White, "q" for Black. The king-side Rook is looked up but never used.
- **No promotion.** The board never promotes a Pawn.
- **Castling uses the home square.** `canCastle` looks up the King's home square rather
  than the King's actual square.

## Model

| member | source | states |
|---|---|---|
| JsNumbers.IntToString | src/app/chess-logic/FENConverter.ts:29-30 | `String(n)` is non-empty and holds only digits, with an optional leading minus sign |
| JsNumbers.IntToStringRoundTrip | src/app/chess-logic/FENConverter.ts:46-47 | the number a counter field holds can be read back from its text |
| JsNumbers.SingleDigitString | src/app/chess-logic/FENConverter.ts:36-37 | a count of empty squares below ten is written as exactly one digit |
| JsNumbers.NumberOfChar | src/app/modules/computer-mode/stockfish.ts:29 | `Number` of one character: the digit's value, 0 for white space, NaN otherwise |
| Models.LettersAreDistinct | src/app/chess-logic/models.ts:11-24 | the twelve FEN letters are pairwise distinct: each letter reads back as its value |
| Models.LetterCase | src/app/chess-logic/models.ts:11-24 | White letters are upper case, Black letters lower case |
| Pieces.NewPiece | src/app/chess-logic/pieces/pawn.ts:5 | a new piece has the given kind and colour and `hasMoved` false |
| Pieces.MirrorX | src/app/chess-logic/pieces/pawn.ts:20-22 | `setBlackPawnDirections` negates x in every vector, keeping y and the order |
| Pieces.MirrorTwice | src/app/chess-logic/pieces/pawn.ts:20-22 | mirroring a table twice gives it back |
| Pieces.MarkMoved | src/app/chess-logic/chess-board.ts:263-264 | the `hasMoved` assignment sets the flag exactly for Pawn, King and Rook, and keeps kind and colour |
| Pieces.PawnTables | src/app/chess-logic/pieces/pawn.ts:7-22 | the White Pawn table is the constructor's list, and the Black table is it mirrored in x |
| Pieces.PawnVectorsShape | src/app/chess-logic/pieces/pawn.ts:7-12 | every Pawn vector changes the rank by at most one and the file by one or two |
| Pieces.DirectionsNonZero | src/app/chess-logic/pieces/piece.ts:13-15 | no table holds the zero vector, and every component is between -2 and 2 |
| Pieces.KingTableIsUnitVectors | src/app/chess-logic/pieces/king.ts:7-16 | the King table is the eight non-zero vectors with components in {-1,0,1}, each once |
| Pieces.RookTableIsOrthogonal | src/app/chess-logic/pieces/rook.ts:7-12 | the Rook table is the four orthogonal unit vectors |
| Pieces.BishopTableIsDiagonal | src/app/chess-logic/pieces/bishop.ts:6-11 | the Bishop table is the four diagonal unit vectors |
| Pieces.KnightTableIsLShaped | src/app/chess-logic/pieces/knight.ts:6-15 | the Knight table is eight distinct vectors, each one step one way and two the other |
| Pieces.QueenTableIsRookPlusBishop | src/app/chess-logic/pieces/queen.ts:6-15 | the Queen table is the union of the Rook and Bishop tables: eight distinct vectors |
| Pieces.TablesColourIndependent | src/app/chess-logic/pieces/piece.ts:13-15 | only the Pawn's table depends on the colour |
| Pieces.FenLetters | src/app/chess-logic/pieces/queen.ts:19 | a White letter is upper case and the Black letter is its lower case; kind and colour can be read back from the letter |
| PieceObjects.Pawn.constructor | src/app/chess-logic/pieces/pawn.ts:14-18 | a new Pawn has not moved, and its table is the one for its colour |
| PieceObjects.Pawn.SetBlackPawnDirections | src/app/chess-logic/pieces/pawn.ts:20-22 | the table becomes its mirror in x |
| PieceObjects.Pawn.SetHasMoved | src/app/chess-logic/pieces/pawn.ts:28-37 | the flag becomes true whatever value is assigned; the table is rebuilt to the constructor's table |
| PieceObjects.King.constructor | src/app/chess-logic/pieces/king.ts:18-21 | a new King has not moved and has the King table |
| PieceObjects.King.SetHasMoved | src/app/chess-logic/pieces/king.ts:27-29 | the flag becomes true whatever value is assigned |
| PieceObjects.Rook.constructor | src/app/chess-logic/pieces/rook.ts:14-17 | a new Rook has not moved and has the Rook table |
| PieceObjects.Rook.SetHasMoved | src/app/chess-logic/pieces/rook.ts:23-25 | the flag becomes true whatever value is assigned |
| BoardBasics.InRange | src/app/chess-logic/chess-board.ts:70-72 | `areCoordsValid`: both coordinates lie in 0..7; `KeyInjective` shows that the keys of such squares are distinct |
| BoardBasics.Put | src/app/chess-logic/chess-board.ts:268-269 | one cell write changes that cell and no other |
| BoardBasics.IsSquareDark | src/app/chess-logic/chess-board.ts:66-68 | `isSquareDark` with the truncating `%`; `SquareDarkIffSameParity` characterises it by parity |
| BoardBasics.SquareDarkIffSameParity | src/app/chess-logic/chess-board.ts:66-68 | on the board a square is dark exactly when rank and file have the same parity; off it, the truncating `%` makes odd negative ranks never dark |
| BoardBasics.BishopStepKeepsShade | src/app/chess-logic/chess-board.ts:66-68 | a Bishop step keeps the shade of the square |
| BoardBasics.Key | src/app/chess-logic/chess-board.ts:196-197 | the map key `x + "," + y`; `KeyInjective` shows it is three characters on the board and injective |
| BoardBasics.KeyInjective | src/app/chess-logic/chess-board.ts:197 | a map key `x + "," + y` is three characters, and distinct squares have distinct keys |
| BoardBasics.RowView | src/app/chess-logic/chess-board.ts:48-52 | the view of a rank is the FEN letter of each occupied square, None for an empty one |
| BoardBasics.BoardView | src/app/chess-logic/chess-board.ts:48-52 | `chessBoardView` is the view of each rank |
| BoardBasics.InitialBoard | src/app/chess-logic/chess-board.ts:19-40 | the constructor's position; `InitialBoardKingsHome` shows that it meets the unmoved-King invariant |
| BoardBasics.InitialBoardKingsHome | src/app/chess-logic/chess-board.ts:19-40 | in the initial position every unmoved King stands on its home square |
| Attacks.FirstOccupied | src/app/chess-logic/chess-board.ts:95-105 | the walk stops on an occupied square of the board |
| Attacks.FirstOccupiedIsFirstOnRay | src/app/chess-logic/chess-board.ts:95-105 | the walk finds exactly the occupied square with only empty squares before it |
| Attacks.DirectionsHitSpec | src/app/chess-logic/chess-board.ts:80-108 | the direction loop reports a hit exactly when some vector's walk hits the King |
| Attacks.ScanFromSound | src/app/chess-logic/chess-board.ts:75-110 | a hit reported by the scan is the hit of some square at or after the start |
| Attacks.ScanFromComplete | src/app/chess-logic/chess-board.ts:75-110 | a hit on any square at or after the start is reported |
| Attacks.PieceHit | src/app/chess-logic/chess-board.ts:77-108 | the square examined by `isInCheck`: only an opposing Pawn, Knight or King is examined; `PieceHitIsKing` shows that a hit is the attacked King |
| Attacks.PieceHitIsKing | src/app/chess-logic/chess-board.ts:89-100 | a reported square holds the King of the side in question and is attacked from the square examined |
| Attacks.CheckScan | src/app/chess-logic/chess-board.ts:74-113 | the King the scan of `isInCheck` meets first; `CheckScanIsAttack` and `AttackIsFound` show it sound and complete against `AttacksAlong` |
| Attacks.CheckStateOf | src/app/chess-logic/chess-board.ts:91-111 | the check state `isInCheck` records: the attacked King's square, or not in check; `ChessBoard.IsInCheck` is proved to record it |
| Attacks.CheckScanIsAttack | src/app/chess-logic/chess-board.ts:74-113 | `isInCheck` is sound: the reported King is attacked by an opposing piece |
| Attacks.AttackIsFound | src/app/chess-logic/chess-board.ts:74-113 | `isInCheck` is complete: every attack on the King is found |
| Attacks.SlidersNeverGiveCheck | src/app/chess-logic/chess-board.ts:86-107 | when every opposing piece is a Rook, Bishop or Queen, the side is never in check |
| Attacks.SafeAfterMove | src/app/chess-logic/chess-board.ts:115-130 | `isPositionSafeAfterMove`: no own piece on the destination and no check after the move; `ChessBoard.IsPositionSafeAfterMove` is proved to return it, and `ChessBoardState.ListedIsSafe` shows that every listed move passes it |
| MoveGeneration.PawnSkips | src/app/chess-logic/chess-board.ts:152-166 | the Pawn filters, reading `dx` as the rank step; `PawnDestsOneRank` shows the effect with the transposed table |
| MoveGeneration.SlideDests | src/app/chess-logic/chess-board.ts:172-183 | the slide of a Rook, Bishop or Queen along one vector; `SlideDestsSound` and `SlideDestsComplete` show that it lists exactly the squares of `SlideReaches` |
| MoveGeneration.SlideDestsSound | src/app/chess-logic/chess-board.ts:172-183 | every listed square is reached across empty squares, holds no own piece and is safe |
| MoveGeneration.SlideDestsComplete | src/app/chess-logic/chess-board.ts:172-183 | every such square is listed |
| MoveGeneration.DirectionDestsSafe | src/app/chess-logic/chess-board.ts:142-185 | every destination along a vector is on the board, holds no own piece and passes the safety test |
| MoveGeneration.DirectionsDestsSafe | src/app/chess-logic/chess-board.ts:142-185 | the same for all vectors of the table |
| MoveGeneration.StepDestsAreOffsets | src/app/chess-logic/chess-board.ts:167-170 | a Pawn, Knight or King destination is exactly one of its vectors away |
| MoveGeneration.CastlingAllowed | src/app/chess-logic/chess-board.ts:232-252 | `canCastle`, on the home square whatever the King's actual square; `KingDestsShape` and `MoveExecution.CastlingMoveFindsRook` state what an allowed castling lists and does |
| MoveGeneration.PawnMovesShort | src/app/chess-logic/chess-board.ts:207-209 | the last move was not a two-rank Pawn move; `ChessBoardState.DestKeepsPawnMovesShort` shows that every listed move keeps it |
| MoveGeneration.EnPassantAllowed | src/app/chess-logic/chess-board.ts:204-230 | `canCaptureEnPassant`; `ShortPawnMovesNoEnPassant` shows it refuses in every position the engine reaches |
| MoveGeneration.ShortPawnMovesNoEnPassant | src/app/chess-logic/chess-board.ts:207-209 | when the last move was not a two-rank Pawn move, `canCaptureEnPassant` returns false |
| MoveGeneration.SpecialDests | src/app/chess-logic/chess-board.ts:187-194 | the castling and en-passant destinations after the vectors; `KingDestsShape` gives the castling squares |
| MoveGeneration.PieceDests | src/app/chess-logic/chess-board.ts:140-194 | one piece's list in `findSafeSquares` order; `PieceDestsSafe` shows each destination safe, `ChessBoard.PieceSafeSquares` is proved to compute it |
| MoveGeneration.MapBeforeKeys | src/app/chess-logic/chess-board.ts:132-202 | after part of the scan, the keys are exactly the scanned squares with a non-empty list, each mapped to that list |
| MoveGeneration.SafeSquareMap | src/app/chess-logic/chess-board.ts:132-202 | `findSafeSquares` as a map value; `SafeSquareMapKeys` gives its keys and entries |
| MoveGeneration.SafeSquareMapKeys | src/app/chess-logic/chess-board.ts:132-202 | an origin is a key exactly when it holds a piece of the side to move with a destination; its entry is that piece's list |
| MoveGeneration.PieceDestsSafe | src/app/chess-logic/chess-board.ts:115-194 | in a position with every unmoved King at home and no two-rank Pawn move last, every destination of a piece is on the board and passes `isPositionSafeAfterMove` |
| MoveGeneration.KingStepDests | src/app/chess-logic/pieces/king.ts:7-16 | a King's vector destinations are one square away |
| MoveGeneration.KingDestsShape | src/app/chess-logic/chess-board.ts:187-192 | a King moves one square, or two files from file 4 of its home rank when castling on that side is allowed |
| MoveGeneration.PawnDestsOneRank | src/app/chess-logic/chess-board.ts:153-194 | a Pawn destination is at most one rank away |
| MoveExecution.SpecialMoves | src/app/chess-logic/chess-board.ts:285-307 | `handlingSpecialMoves` as a board value; `CastlingMoveFindsRook` states its castling effect and `ShortPawnMovesNoCapture` that its en-passant branch never fires in a game |
| MoveExecution.ShortPawnMovesNoCapture | src/app/chess-logic/chess-board.ts:297-304 | when the last move was not a two-rank Pawn move, the en-passant branch of `handlingSpecialMoves` does not fire |
| MoveExecution.MarkSquare | src/app/chess-logic/chess-board.ts:294 | the `hasMoved` assignment on whatever stands on a square |
| MoveExecution.AfterMove | src/app/chess-logic/chess-board.ts:263-269 | the destination holds the moved piece, marked as moved; the origin is empty; only the squares the move touches change |
| MoveExecution.CastlingMoveFindsRook | src/app/chess-logic/chess-board.ts:285-296 | a King's listed two-file move is an allowed castling; the Rook leaves its corner and lands, marked as moved, on the square the King crosses |
| MoveExecution.AfterMoveKeepsKingsHome | src/app/chess-logic/chess-board.ts:254-283 | every move keeps each unmoved King on its home square |
| ChessBoardState.Opponent | src/app/chess-logic/chess-board.ts:279 | the turn passes to the other colour |
| ChessBoardState.ListedIsDest | src/app/chess-logic/chess-board.ts:259-261 | a move found in the map is one of the piece's destinations |
| ChessBoardState.ListedIsSafe | src/app/chess-logic/chess-board.ts:259-261 | in a position the engine reaches, a move found in the map passes `isPositionSafeAfterMove` |
| ChessBoardState.DestKeepsPawnMovesShort | src/app/chess-logic/chess-board.ts:271-277 | the last move recorded after a listed move never moves a Pawn two ranks |
| ChessBoardState.ChessBoard.SquareAttack | src/app/chess-logic/chess-board.ts:77-108 | the attack examined from one square is `PieceHit` |
| ChessBoardState.ChessBoard.VectorsAttack | src/app/chess-logic/chess-board.ts:80-108 | the direction loop with its ray walk, for Pawns, Knights and Kings only |
| ChessBoardState.ChessBoard.IsInCheck | src/app/chess-logic/chess-board.ts:74-113 | the result is `InCheck`; when recording, the check state names the attacked King |
| ChessBoardState.ChessBoard.IsPositionSafeAfterMove | src/app/chess-logic/chess-board.ts:115-130 | the result is `SafeAfterMove`; the board is restored when the piece stood on its origin |
| ChessBoardState.ChessBoard.CanCaptureEnPassant | src/app/chess-logic/chess-board.ts:204-230 | the result is `EnPassantAllowed`; the board is restored |
| ChessBoardState.ChessBoard.CanCastle | src/app/chess-logic/chess-board.ts:232-252 | the result is `CastlingAllowed`; the board is restored |
| ChessBoardState.ChessBoard.VectorsDests | src/app/chess-logic/chess-board.ts:142-185 | the direction loop of `findSafeSquares` lists `DirectionsDests` |
| ChessBoardState.ChessBoard.VectorDests | src/app/chess-logic/chess-board.ts:143-184 | one vector: the Pawn filters, then one safety test or the slide |
| ChessBoardState.ChessBoard.SlideSquares | src/app/chess-logic/chess-board.ts:172-183 | the slide loop lists `SlideDests` |
| ChessBoardState.ChessBoard.PieceSafeSquares | src/app/chess-logic/chess-board.ts:140-194 | a piece's list is `PieceDests`: its vectors, then castling or en passant |
| ChessBoardState.ChessBoard.ScanSquare | src/app/chess-logic/chess-board.ts:137-197 | one square of the scan extends the map by that square |
| ChessBoardState.ChessBoard.FindSafeSquares | src/app/chess-logic/chess-board.ts:132-202 | `findSafeSquares` returns `SafeSquareMap` and leaves the board as it was |
| ChessBoardState.ChessBoard.HandlingSpecialMoves | src/app/chess-logic/chess-board.ts:285-307 | the board becomes `SpecialMoves`: the castling Rook moves, or the Pawn taken en passant is removed |
| ChessBoardState.ChessBoard.constructor | src/app/chess-logic/chess-board.ts:18-42 | the initial position, White to move, no last move, not in check, and the invariant holds |
| ChessBoardState.ChessBoard.ComputeSafeSquares | src/app/chess-logic/chess-board.ts:281 | rebuilding the map restores the invariant |
| ChessBoardState.ChessBoard.PlayMove | src/app/chess-logic/chess-board.ts:263-282 | the board becomes `AfterMove`, the last move is recorded, the turn passes, the check state and map are recomputed |
| ChessBoardState.ChessBoard.MoveListed | src/app/chess-logic/chess-board.ts:259-282 | a listed move is a destination of the piece and passes `isPositionSafeAfterMove`, and playing it keeps the invariant |
| ChessBoardState.ChessBoard.Move | src/app/chess-logic/chess-board.ts:254-283 | ignored exactly when off the board or not the mover's piece; refused with "Square is not safe." exactly when not listed, changing nothing; otherwise played as `AfterMove`, and the move played passes `isPositionSafeAfterMove`; the invariant is kept |
| FenConverter.LastSep | src/app/chess-logic/FENConverter.ts:39 | the last separator of a string, with none after it |
| FenConverter.Split | src/app/chess-logic/FENConverter.ts:39 | splitting always gives at least one piece |
| FenConverter.SplitLast | src/app/chess-logic/FENConverter.ts:39 | a separator followed by text without one splits off that text as the last piece |
| FenConverter.SplitSixFields | src/app/chess-logic/FENConverter.ts:42-47 | six fields without the separator, joined by it, split back into the six fields |
| FenConverter.RankText | src/app/chess-logic/FENConverter.ts:20-37 | the text of one rank; `RankTextRoundTrip` reads it back and `RankTextShape` gives its shape |
| FenConverter.ExpandRank | src/app/chess-logic/FENConverter.ts:20-37 | the reader of a rank text: a digit for that many empty squares, a letter for a piece; `RankTextRoundTrip` shows it undoes `RankText` |
| FenConverter.ExpandRankAppend | src/app/chess-logic/FENConverter.ts:23-37 | reading a rank text back distributes over concatenation |
| FenConverter.RankTextRoundTrip | src/app/chess-logic/FENConverter.ts:19-38 | a rank text reads back as the rank: digits stand for runs of empty squares, letters for pieces |
| FenConverter.RankTextShape | src/app/chess-logic/FENConverter.ts:19-38 | a rank text holds only digits 1-8 and FEN letters, never two digits side by side |
| FenConverter.Placement | src/app/chess-logic/FENConverter.ts:19-40 | the placement field, rank 7 first; `PlacementReadsBack` reads it back |
| FenConverter.JoinRanksSplits | src/app/chess-logic/FENConverter.ts:39 | the ranks joined by "/" split back into the ranks from 7 down |
| FenConverter.PlacementReadsBack | src/app/chess-logic/FENConverter.ts:19-40 | the placement field splits into eight rank texts; the k-th reads back as rank 7 - k; it holds no space |
| FenConverter.UpperString | src/app/chess-logic/FENConverter.ts:66-67 | `toUpperCase` upper-cases each character |
| FenConverter.CastlingField | src/app/chess-logic/FENConverter.ts:51-75 | `castlingAvailability`; `CastlingFieldMeaning` gives its closed form |
| FenConverter.CastlingFieldMeaning | src/app/chess-logic/FENConverter.ts:51-75 | the castling field is "Qq", "Q", "q" or "-" as rank 0, rank 7, both or neither have an unmoved King on file 4 and an unmoved Rook on file 0; never "K" or "k" |
| FenConverter.EnPassantField | src/app/chess-logic/FENConverter.ts:77-86 | `enPassantPossibility`; `EnPassantFieldMeaning` and `EnPassantFieldOfEngine` give its meaning |
| FenConverter.EnPassantFieldMeaning | src/app/chess-logic/FENConverter.ts:77-86 | the en-passant field is "-" exactly when the last move was not a two-rank Pawn move; otherwise the file of the origin and "6" or "3" |
| FenConverter.EnPassantFieldOfEngine | src/app/chess-logic/FENConverter.ts:77-86 | in every position the engine reaches, the en-passant field is "-" |
| FenConverter.FenString | src/app/chess-logic/FENConverter.ts:10-49 | the FEN string; `FenFields` splits it back into its six fields |
| FenConverter.FenFields | src/app/chess-logic/FENConverter.ts:42-48 | the FEN string splits at spaces into exactly its six fields |
| FenConverter.ConvertRank | src/app/chess-logic/FENConverter.ts:20-37 | the rank loop writes `RankText` of the rank's view |
| FenConverter.ConvertBoardToFEN | src/app/chess-logic/FENConverter.ts:10-49 | `convertBoardToFEN` returns `FenString` |
| StockfishDecoder.ConvertColumnLetterToYCoord | src/app/modules/computer-mode/stockfish.ts:15-17 | a file letter a-h gives its file 0-7, and only those letters give a file on the board |
| StockfishDecoder.PromotedPiece | src/app/modules/computer-mode/stockfish.ts:19-25 | no piece without a fifth character; "n", "r", "b" give that Black piece, anything else the Black Queen |
| StockfishDecoder.CharAt | src/app/modules/computer-mode/stockfish.ts:28-32 | `move[i]` is the character, or `undefined` past the end |
| StockfishDecoder.RankOf | src/app/modules/computer-mode/stockfish.ts:29 | `Number(move[i]) - 1` is a rank 0-7 for a digit 1-8 and NaN for `undefined` |
| StockfishDecoder.MoveFromStockfishString | src/app/modules/computer-mode/stockfish.ts:27-35 | fails exactly on a string shorter than three characters; a promotion piece exactly with five or more; a well-formed move gives two squares on the board |
| StockfishDecoder.MoveText | src/app/modules/computer-mode/stockfish.ts:27-35 | a move written from two board squares is well formed |
| StockfishDecoder.MoveTextRoundTrip | src/app/modules/computer-mode/stockfish.ts:27-35 | decoding a written move gives back its squares and the promotion piece of its letter |

## Left out

- Aliasing of piece objects is not modelled. The board stores piece values, so
  `lastMove.piece` is a copy. The source reads only its kind and colour.
- Setting `hasMoved` after a piece is placed is not modelled as an update through an
  alias. `move` marks the piece and writes it to its destination, which has the same
  effect.
- `handlingSpecialMoves` casts the castling corner to `Rook` without a check. If that
  corner were empty, `rook.hasMoved = true` would throw. A listed castling move always
  finds an unmoved Rook there (`CastlingMoveFindsRook`), so that case is not modelled.
- JavaScript numbers are modelled as unbounded integers. Coordinates are small integers
  or `NaN`, and `String` is only applied to integers here.
- The counters `fiftyMoveRuleCounter` and `fullNumberOfMoves` are parameters of the
  converter. They are not kept anywhere in the core.
- `StockfishDecoder.ConvertColumnLetterToYCoord`, `StockfishDecoder.CharAt` and
  `StockfishDecoder.MoveFromStockfishString` use Dafny characters (Unicode scalar values)
  where the source's `charCodeAt`, `move[i]` and length use UTF-16 code units. The two
  agree on every string whose characters are all below U+10000. A string with a character
  above U+FFFF counts it twice in the source, so "a" followed by such a character has
  length 3 there and decodes to a move with a `NaN` rank, while the model counts length 2
  and fails.
- Promotion, checkmate, stalemate, threefold repetition and the fifty-move rule are not
  modelled; the core does not implement them.
- `getBestMove` is not modelled. It is an HTTP request and an asynchronous pipeline.
- The Angular components, routing and the computer-mode component are user interface,
  outside the core.
- `columns` is taken to be the file letters "abcdefgh".
  `src/app/modules/chess-board/models.ts` is not part of this model.
- The `ChessMove` type is taken from the object that `moveFromStockfishString` builds.
  `src/app/modules/computer-mode/models.ts` is not part of this model.
- `FenConverter.Split` is the reader the FEN string is checked against. It is not a
  member of the source.

# Chess rule engine of `ChessGame`, modelled in Dafny

This project models the rule engine inside the `ChessGame` class of the
browser chess game (`assets/js/script.js`) and proves properties of it. The
engine keeps an 8×8 grid of optional `{type, color}` pieces, the side to move,
the game-over and checkmate flags, and a ledger of move records. On top of
that state it provides:

- per-kind pseudo-legal move generation for pawn, rook, knight, bishop,
  queen and king;
- a self-check filter that plays each candidate on the live board, asks
  whether the mover's king is attacked and puts the board back;
- check detection by a row-major king search followed by an attack scan;
- the move commit, with automatic queen promotion and the turn flip;
- the simplified algebraic label of a move and the ledger that pairs a
  white move with its black reply;
- the end-of-game classification: check, checkmate or stalemate;
- the standard initial setup and the reset.

Module layout, one file each:

- `board.dfy`, module `ChessBoard`: colours, kinds, pieces, squares, the
  `Board` grid, single-cell writes and the starting position.
- `moves.dfy`, module `MoveGeneration`: the six generators and their
  dispatch. It also proves that generation looks only at which colour stands
  on each square.
- `check.dfy`, module `CheckDetection`: the king search, the attack scan, the
  speculative move, the legality filter, the end-of-game scan and the
  committed move with promotion.
- `notation.dfy`, module `MoveRecords`: move labels, reading a label back,
  and the ledger with its invariant.
- `game.dfy`, module `Game`: the class `ChessGame`, whose methods update the
  session state in place the way the engine's methods do.
- `scenarios.dfy`, module `Scenarios`: two concrete positions worked through
  the model. In the opening position white has exactly twenty legal moves. The
  fool's mate (1. f3 e5 2. g4 Qh4) leaves white in check with no legal move.

The read-only queries (generators, `findKing`, `isInCheck`) are functions on a
board value. The grid scans, which the engine writes as nested `for` loops
that return early, become recursion over squares in row-major order. Lemmas
show that each scan finds the first match in that order, or reports
correctly that there is none.

The state-changing operations are methods of `ChessGame`:
`wouldBeInCheck` (write, test, restore), `getPossibleMoves` (the filter loop),
`isValidMove`, `recordMove`, `checkGameState`, `makeMove`, `reset`, the
constructor, and the move path of `handleSquareClick`.

The nested scan at lines 547-560 of `checkGameState` is a method of its own,
`HasValidMoves`, named after the engine's local flag. `CheckGameState` calls
it in place of the inline loops.

The pawn's double step is nested inside the single-step branch
(`assets/js/script.js:227-236`). The square in between is therefore always
required to be empty, and `PawnMoves` states this as part of its exact
description. There is no gap to report.

Two quirks of the engine are kept and proved:

- knights and kings print the same letter `K`;
- a side without a king is never in check.

## Model

| member | source | states |
|---|---|---|
| ChessBoard.Opponent | assets/js/script.js:399 | the turn flip always hands the move to the other colour |
| ChessBoard.Set | assets/js/script.js:476-477 | writing one cell puts the new occupant on that square and leaves every other square as it was |
| ChessBoard.InBoundsCells | assets/js/script.js:374-376 | the bounds check `isInBounds` admits exactly the row and column indices of the 8×8 grid |
| ChessBoard.InitialBoard | assets/js/script.js:52-78 | every square holds its standard starting occupant: black back rank on row 0, black pawns on row 1, white pawns on row 6, white back rank on row 7 (rook, knight, bishop, queen, king, bishop, knight, rook), the rest empty |
| ChessBoard.InitialKings | assets/js/script.js:62-75 | the starting position holds exactly one king of each colour, white on (7, 4) and black on (0, 4) |
| MoveGeneration.PawnGeometry | assets/js/script.js:224-225 | `Forward` and `HomeRow` fit the starting position: the home row holds that colour's pawns, one step back from it is that colour's back rank, and six forward steps from it reach row 0 or 7, the opponent's back rank, where promotion happens |
| MoveGeneration.PawnCapture | assets/js/script.js:238-247 | a forward diagonal is offered exactly when it is on the board and holds a piece of the other colour |
| MoveGeneration.PawnMoves | assets/js/script.js:222-250 | a square is a pawn destination exactly when it is on the board and is one of: the empty square one step forward; two steps forward from the home rank (row 6 white, row 1 black) with both squares empty; a forward diagonal holding an enemy piece |
| MoveGeneration.RayFrom | assets/js/script.js:261-277 | a ray starts at the first square and advances one step at a time over empty squares. It ends at the edge, at step 8, before a friendly piece, or after including an enemy piece. It stays on its line and never contains a friendly square |
| MoveGeneration.Ray | assets/js/script.js:261-277 | every square of a ray from (row, col) is on the board, not friendly, on the ray's line and not the origin |
| MoveGeneration.RookMoves | assets/js/script.js:252-281 | every rook destination is on the board, not friendly, not the origin, and on the origin's row or column |
| MoveGeneration.BishopMoves | assets/js/script.js:311-340 | every bishop destination is on the board, not friendly, not the origin, and on one of the origin's diagonals |
| MoveGeneration.QueenMoves | assets/js/script.js:342-344 | the queen reaches exactly the squares the rook or the bishop from the same square reaches |
| MoveGeneration.Leaps | assets/js/script.js:296-306 | a square is a leap destination exactly when it is on the board, its offset from the origin is in the table and it holds no friendly piece |
| MoveGeneration.KnightMoves | assets/js/script.js:283-309 | a square is a knight destination exactly when it is on the board, is a (1, 2) or (2, 1) jump away and holds no friendly piece |
| MoveGeneration.KingMoves | assets/js/script.js:346-372 | a square is a king destination exactly when it is on the board, is one of the eight neighbours and holds no friendly piece; there is no castling |
| MoveGeneration.PseudoMoves | assets/js/script.js:510-530 | an empty square has no moves; every generated destination is on the board, differs from the origin and holds no piece of the mover's colour |
| MoveGeneration.RayFromSameSides | assets/js/script.js:261-277 | a ray is the same on any two positions that have the same colour on every square |
| MoveGeneration.LeapsSameSides | assets/js/script.js:296-306 | knight and king leaps are the same on any two positions that have the same colour on every square |
| MoveGeneration.RaySameSides | assets/js/script.js:261-277 | the ray from a square is the same on positions with the same colours |
| MoveGeneration.PawnMovesSameSides | assets/js/script.js:222-250 | pawn moves are the same on positions with the same colours |
| MoveGeneration.RookMovesSameSides | assets/js/script.js:252-281 | rook moves are the same on positions with the same colours |
| MoveGeneration.BishopMovesSameSides | assets/js/script.js:311-340 | bishop moves are the same on positions with the same colours |
| MoveGeneration.PseudoMovesSameSides | assets/js/script.js:510-530 | generation depends only on the moving piece and the colour on each square: the same list, in the same order, on two such positions |
| CheckDetection.FindKingFrom | assets/js/script.js:532-542 | a square the resumed search returns is still to be scanned and holds a king of the colour searched for |
| CheckDetection.FindKingFromFirst | assets/js/script.js:532-542 | the resumed search returns the first pending king in row-major order, and returns nothing exactly when no pending square holds such a king |
| CheckDetection.FindKing | assets/js/script.js:532-542 | a found square is on the board and holds a king of that colour |
| CheckDetection.FindKingFirst | assets/js/script.js:532-542 | findKing returns the first such king in row-major order, and null exactly when the board holds no king of that colour |
| CheckDetection.AttackedFromScan | assets/js/script.js:491-507 | the resumed attack scan `AttackedFrom` reports true exactly when some square still to be scanned holds a piece of the other colour whose pseudo-legal moves reach the target |
| CheckDetection.InCheckMeansAttacked | assets/js/script.js:487-508 | `IsInCheck`: a side is in check exactly when it has a king and some piece of the other colour has a pseudo-legal move onto the first king found; a side without a king is never in check |
| CheckDetection.ApplyMove | assets/js/script.js:476-477 | the speculative move puts the moving piece on the destination, empties the origin and changes no other square |
| CheckDetection.LeavesInCheckMeans | assets/js/script.js:472-485 | `LeavesInCheck`, the answer of `wouldBeInCheck`: a move leaves the mover in check exactly when, after the speculative move, the mover has a king and some square holds a piece of the other colour attacking the first king found; when the moving piece is the mover's only king, that king is found on the destination |
| CheckDetection.KeepSafe | assets/js/script.js:217-219 | the filter keeps candidates in their order (a subsequence), and keeps a candidate exactly when it does not leave the mover's king in check |
| CheckDetection.LegalMoves | assets/js/script.js:190-220 | the legal moves are a subsequence of the pseudo-legal moves, and a square is legal exactly when it is pseudo-legal and does not leave the mover in check |
| CheckDetection.MovableFromScan | assets/js/script.js:548-560 | the resumed end-of-game scan `MovableFrom` succeeds exactly when some square still to be visited holds a piece of the side to move with a legal move |
| CheckDetection.HasLegalMoveMeans | assets/js/script.js:547-560 | `HasLegalMove`: the scan's flag is set exactly when some piece of the side to move has at least one legal move |
| CheckDetection.Commit | assets/js/script.js:378-399 | after a committed move the origin is empty and the destination holds the moving piece, or a queen of its colour when a pawn lands on row 0 or 7; no other square changes |
| CheckDetection.Promoted | assets/js/script.js:395-397 | the piece that lands keeps its colour; its kind changes exactly when a pawn reaches row 0 or 7, and then it becomes a queen |
| CheckDetection.FindKingFromSame | assets/js/script.js:532-542 | king searches over positions with their kings on the same squares give the same answer |
| CheckDetection.AttackedFromSame | assets/js/script.js:491-507 | attack scans over positions with the same attackers of the target give the same answer |
| CheckDetection.PromotionKeepsCheck | assets/js/script.js:395-397 | the speculative move skips promotion, and this never changes the answer: the committed position leaves the mover in check exactly when the speculative one does |
| CheckDetection.LegalMoveIsSafe | assets/js/script.js:217-219 | committing any move from the legal list, promotion included, never leaves the mover's own king in check |
| CheckDetection.InitialKingsFound | assets/js/script.js:532-542 | in the starting position the king search finds white's king on (7, 4) and black's on (0, 4) |
| MoveRecords.PieceLetter | assets/js/script.js:411-413 | a pawn has no letter; a rook prints "R", a bishop "B", a queen "Q", and knight and king both print "K" |
| MoveRecords.MoveNotation | assets/js/script.js:405-425 | a label has two to four characters, ends with the destination file (a-h) and rank (8-1 by row), and contains "x" exactly when a piece is captured |
| MoveRecords.NotationRoundTrip | assets/js/script.js:405-425 | every label reads back as its move: piece letter, capture marker, origin file for a pawn capture, and destination square |
| MoveRecords.KnightAndKingShareLetter | assets/js/script.js:411-413 | a knight move and a king move between the same squares get the same label |
| MoveRecords.Recorded | assets/js/script.js:427-437 | recording a move keeps the ledger consistent with the other side now to move, appends exactly that label to the sequence of moves played, and leaves every complete record unchanged |
| MoveRecords.PlyCount | assets/js/script.js:427-437 | in a consistent ledger, the move counter and the side to move determine how many moves have been played |
| Game.ChessGame.InitializeBoard | assets/js/script.js:52-78 | the two fill loops build exactly the standard starting position |
| Game.ChessGame.constructor | assets/js/script.js:18-26 | a new session has the starting position, white to move, an empty ledger, move counter 1 and all flags false, and satisfies the session invariant |
| Game.ChessGame.Reset | assets/js/script.js:625-633 | whatever came before, reset restores exactly the state of a new session |
| Game.ChessGame.WouldBeInCheck | assets/js/script.js:472-485 | the board is left exactly as it was found, and the answer is whether the move, played on that board, leaves the mover's king in check |
| Game.ChessGame.GetPossibleMoves | assets/js/script.js:190-220 | the board is unchanged and the result is exactly the legal moves of the piece, in generation order |
| Game.ChessGame.IsValidMove | assets/js/script.js:180-188 | the board is unchanged; a request is valid exactly when the origin holds a piece of the side to move and the destination is one of its legal moves |
| Game.ChessGame.RecordMove | assets/js/script.js:427-440 | the ledger and the counter become the recorded ledger: white opens record number moveCount, and black fills the open record and advances the counter |
| Game.ChessGame.HasValidMoves | assets/js/script.js:547-560 | the board is unchanged, and the flag is set exactly when some piece of the side to move has a legal move |
| Game.ChessGame.CheckGameState | assets/js/script.js:544-571 | inCheck is set to whether the side to move is in check. The game ends when that side has no legal move, and it is checkmate when it is also in check. The flags are never cleared, the board is unchanged and the session invariant is kept |
| Game.ChessGame.MakeMove | assets/js/script.js:378-403 | the board becomes the committed move with promotion, the turn flips, the label is appended to the ledger, and the status of the new side to move is recomputed as by CheckGameState |
| Game.ChessGame.HandleSquareClick | assets/js/script.js:147-167 | a legal move by the side to move while the game is on is committed, recorded and leaves the mover not in check; the turn passes, inCheck becomes whether the new side to move is in check, the game ends exactly when that side has no legal move, and checkmate is set when it is also in check. Once the game is over, or when the move is not legal, nothing changes |
| Scenarios.InitialLegalMoves | assets/js/script.js:52-78 | in the starting position each white pawn may advance one or two squares, each white knight may jump to the two squares of row 5, and every other white piece has no move |
| Scenarios.InitialNothingFiltered | assets/js/script.js:217-219 | in the starting position the self-check filter removes none of white's pseudo-legal moves |
| Scenarios.InitialTwentyMoves | assets/js/script.js:52-78 | white opens with exactly twenty legal moves, counted square by square in the engine's scan order |
| Scenarios.FoolsMateBoard | assets/js/script.js:378-399 | committing f2-f3, e7-e5, g2-g4 and d8-h4 from the starting position gives the expected fool's-mate position, square by square |
| Scenarios.FoolsMateMoveLeavesCheck | assets/js/script.js:472-485 | in the fool's-mate position every pseudo-legal white move leaves white's king in check |
| Scenarios.FoolsMate | assets/js/script.js:544-571 | after the fool's mate white is in check and has no legal move, so the status check ends the game in checkmate |
| Scenarios.KeepSafeKeepsAll | assets/js/script.js:217-219 | when no candidate leaves the mover in check, the filter keeps the whole list |
| Scenarios.KeepSafeDropsAll | assets/js/script.js:217-219 | when every candidate leaves the mover in check, the filter keeps nothing |

## Left out

- Rendering and event wiring (`createBoard`, `renderBoard`, `updateGameInfo`, `updateMoveHistory`, `showModal`, `closeModal`, the page-load handler): browser I/O with no rule logic.
- The checkmate, stalemate and check messages of `checkGameState`: presentation only. The model keeps the flag updates.
- The image paths of the pieces, and the theme manager with its `localStorage` persistence: asset strings and UI preferences.
- Game.ChessGame.HandleSquareClick: models the click made while a square is selected. The selection bookkeeping (`selectedSquare`) is UI state and is left out.
- Aliasing of the row arrays: the engine writes cells of shared row arrays in place. The model holds the board as a value field that each write reassigns, so the model cannot express a row shared between two boards.
- The `default` branch of the dispatch, which returns no moves for an unknown type: every `Kind` value is one of the six kinds.
- MoveGeneration.RookMoves: its own contract states only that each destination is sound (on the board, not friendly, on a line of the origin). The exact content of each ray (where it stops, that it includes an enemy blocker) is stated by MoveGeneration.RayFrom.
- MoveGeneration.BishopMoves: states only soundness, as for RookMoves. The exact content of each ray is stated by MoveGeneration.RayFrom.
- MoveGeneration.PseudoMoves: states only soundness. The exact sets for each kind are stated by the per-kind generators it dispatches to.
- Castling, en passant, under-promotion and draws other than stalemate: the engine does not have them either.

/**
 * The game session: the live board, the side to move, the terminal flags and
 * the move ledger, with the operations that change them.
 */
module Game {
  import opened ChessBoard
  import opened MoveGeneration
  import opened CheckDetection
  import opened MoveRecords

  /** A click from `from` to `to` is acted on: the game is not over and the move is legal for the side to move. */
  predicate Playable(over: bool, g: Board, player: Color, from: Square, to: Square)
    requires OnBoard(from)
  {
    !over && HoldsColor(g, from, player) && to in LegalMoves(g, from)
  }

  class ChessGame {
    var board: Board
    var currentPlayer: Color
    var gameOver: bool
    var moveHistory: seq<MoveRecord>
    var moveCount: int
    var inCheck: bool
    var checkmate: bool

    /** The session invariant: a consistent ledger, and checkmate only in a finished game. */
    ghost predicate Valid()
      reads this
    {
      && LedgerValid(moveHistory, moveCount, currentPlayer)
      && (checkmate ==> gameOver)
    }

    /** A new board in the standard starting arrangement: pawns first, then both back ranks. */
    static method InitializeBoard() returns (b: Board)
      ensures b == InitialBoard()
    {
      b := seq(8, _ => seq(8, _ => None));
      for col := 0 to 8
        invariant forall s {:trigger At(b, s)} | OnBoard(s) ::
          At(b, s) == if (s.row == 1 || s.row == 6) && s.col < col then StartCell(s.row, s.col) else None
      {
        b := Set(b, Square(1, col), Some(Piece(Pawn, Black)));
        b := Set(b, Square(6, col), Some(Piece(Pawn, White)));
      }
      for col := 0 to 8
        invariant forall s {:trigger At(b, s)} | OnBoard(s) ::
          At(b, s) == if s.row == 1 || s.row == 6 || ((s.row == 0 || s.row == 7) && s.col < col)
                      then StartCell(s.row, s.col) else None
      {
        b := Set(b, Square(0, col), Some(Piece(BackRow[col], Black)));
        b := Set(b, Square(7, col), Some(Piece(BackRow[col], White)));
      }
      BoardsEqual(b, InitialBoard());
    }

    /** A new session: the standard setup, white to move, an empty ledger, all flags false. */
    constructor ()
      ensures Valid()
      ensures board == InitialBoard()
      ensures currentPlayer == White && moveHistory == [] && moveCount == 1
      ensures !gameOver && !inCheck && !checkmate
    {
      var initial := InitializeBoard();
      board := initial;
      currentPlayer := White;
      gameOver := false;
      moveHistory := [];
      moveCount := 1;
      inCheck := false;
      checkmate := false;
    }

    /** Back to the state of a new session, whatever came before. */
    method Reset()
      modifies this
      ensures Valid()
      ensures board == InitialBoard()
      ensures currentPlayer == White && moveHistory == [] && moveCount == 1
      ensures !gameOver && !inCheck && !checkmate
    {
      board := InitializeBoard();
      currentPlayer := White;
      gameOver := false;
      moveHistory := [];
      moveCount := 1;
      inCheck := false;
      checkmate := false;
    }

    /**
     * Tries the move on the live board, asks whether the mover's king is in
     * check, and puts both squares back.
     */
    method WouldBeInCheck(fromRow: int, fromCol: int, toRow: int, toCol: int) returns (check: bool)
      requires InBounds(fromRow, fromCol) && InBounds(toRow, toCol)
      requires At(board, Square(fromRow, fromCol)).Some?
      modifies this`board
      ensures board == old(board)
      ensures check == LeavesInCheck(board, Square(fromRow, fromCol), Square(toRow, toCol))
    {
      var from, to := Square(fromRow, fromCol), Square(toRow, toCol);
      var originalPiece := At(board, to);
      var movingPiece := At(board, from);

      board := Set(board, to, movingPiece);
      board := Set(board, from, None);

      check := IsInCheck(board, movingPiece.value.color);

      board := Set(board, from, movingPiece);
      board := Set(board, to, originalPiece);
      BoardsEqual(board, old(board));
    }

    /** The pseudo-legal moves of the piece on (row, col) that pass WouldBeInCheck, in generation order. */
    method GetPossibleMoves(row: int, col: int) returns (moves: seq<Square>)
      requires InBounds(row, col)
      modifies this`board
      ensures board == old(board)
      ensures moves == LegalMoves(board, Square(row, col))
    {
      var from := Square(row, col);
      var piece := At(board, from);
      if piece.None? {
        return [];
      }
      var candidates := PseudoMoves(board, from);
      moves := [];
      var i := 0;
      while i < |candidates|
        invariant 0 <= i <= |candidates|
        invariant board == old(board)
        invariant forall s :: s in candidates ==> OnBoard(s)
        invariant At(board, from) == piece
        invariant moves == KeepSafe(board, from, candidates[..i])
      {
        var move := candidates[i];
        assert OnBoard(move);
        var leaves := WouldBeInCheck(row, col, move.row, move.col);
        KeepSafeStep(board, from, candidates, i);
        if !leaves {
          moves := moves + [move];
        }
        i := i + 1;
      }
      assert candidates[..i] == candidates;
    }

    /** A move request is valid when the origin holds a piece of the side to move and the destination is among its legal moves. */
    method IsValidMove(fromRow: int, fromCol: int, toRow: int, toCol: int) returns (valid: bool)
      requires InBounds(fromRow, fromCol)
      modifies this`board
      ensures board == old(board)
      ensures valid <==>
        HoldsColor(board, Square(fromRow, fromCol), currentPlayer)
        && Square(toRow, toCol) in LegalMoves(board, Square(fromRow, fromCol))
    {
      var piece := At(board, Square(fromRow, fromCol));
      if piece.None? || piece.value.color != currentPlayer {
        return false;
      }
      var possibleMoves := GetPossibleMoves(fromRow, fromCol);
      valid := Square(toRow, toCol) in possibleMoves;
    }

    /** Adds the label of a move by the side to move to the ledger. */
    method RecordMove(moveNotation: string)
      requires LedgerValid(moveHistory, moveCount, currentPlayer) && moveNotation != ""
      modifies this`moveHistory, this`moveCount
      ensures (moveHistory, moveCount) == Recorded(old(moveHistory), old(moveCount), currentPlayer, moveNotation)
    {
      if currentPlayer == White {
        moveHistory := moveHistory + [MoveRecord(moveCount, moveNotation, "")];
      } else {
        var last := moveHistory[|moveHistory| - 1];
        moveHistory := moveHistory[..|moveHistory| - 1] + [last.(black := moveNotation)];
        moveCount := moveCount + 1;
      }
    }

    /**
     * Scans the board row by row, left to right, until it meets a piece of the
     * side to move with at least one legal move.
     */
    method HasValidMoves() returns (hasValidMoves: bool)
      modifies this`board
      ensures board == old(board)
      ensures hasValidMoves == HasLegalMove(board, currentPlayer)
    {
      ghost var g, cp := board, currentPlayer;
      hasValidMoves := false;
      var row := 0;
      while row < 8
        modifies this`board
        invariant 0 <= row <= 8
        invariant board == g
        invariant HasLegalMove(g, cp) == (hasValidMoves || MovableFrom(g, cp, row, 0))
      {
        var col := 0;
        while col < 8
          modifies this`board
          invariant 0 <= col <= 8
          invariant board == g
          invariant HasLegalMove(g, cp) == (hasValidMoves || MovableFrom(g, cp, row, col))
        {
          var piece := At(board, Square(row, col));
          if piece.Some? && piece.value.color == currentPlayer {
            var moves := GetPossibleMoves(row, col);
            if |moves| > 0 {
              hasValidMoves := true;
              break;
            }
          }
          assert !CanMoveFrom(g, Square(row, col), cp);
          col := col + 1;
        }
        if hasValidMoves {
          break;
        }
        row := row + 1;
      }
    }

    /**
     * Recomputes the status of the side to move: whether it is in check and,
     * when none of its pieces has a legal move, ends the game (checkmate when
     * it is also in check, stalemate otherwise).
     */
    method CheckGameState()
      requires Valid()
      modifies this`inCheck, this`gameOver, this`checkmate, this`board
      ensures Valid()
      ensures board == old(board)
      ensures currentPlayer == old(currentPlayer) && (moveHistory, moveCount) == old((moveHistory, moveCount))
      ensures inCheck == IsInCheck(board, currentPlayer)
      ensures gameOver == (old(gameOver) || !HasLegalMove(board, currentPlayer))
      ensures checkmate == (old(checkmate) || (!HasLegalMove(board, currentPlayer) && inCheck))
    {
      inCheck := IsInCheck(board, currentPlayer);
      var hasValidMoves := HasValidMoves();
      if !hasValidMoves {
        gameOver := true;
        if inCheck {
          checkmate := true;
        }
      }
    }

    /**
     * Commits a move: the piece goes to the destination (a pawn landing on row
     * 0 or 7 becomes a queen), its label is recorded, the turn passes and the
     * status of the new side to move is recomputed.
     */
    method MakeMove(fromRow: int, fromCol: int, toRow: int, toCol: int)
      requires Valid() && InBounds(fromRow, fromCol) && InBounds(toRow, toCol)
      requires At(board, Square(fromRow, fromCol)).Some?
      modifies this
      ensures Valid()
      ensures board == Commit(old(board), Square(fromRow, fromCol), Square(toRow, toCol))
      ensures currentPlayer == Opponent(old(currentPlayer))
      ensures (moveHistory, moveCount) ==
        Recorded(old(moveHistory), old(moveCount), old(currentPlayer),
                 MoveNotation(At(old(board), Square(fromRow, fromCol)).value, fromRow, fromCol, toRow, toCol,
                              At(old(board), Square(toRow, toCol))))
      ensures inCheck == IsInCheck(board, currentPlayer)
      ensures gameOver == (old(gameOver) || !HasLegalMove(board, currentPlayer))
      ensures checkmate == (old(checkmate) || (!HasLegalMove(board, currentPlayer) && inCheck))
    {
      var from, to := Square(fromRow, fromCol), Square(toRow, toCol);
      var piece := At(board, from);
      var capturedPiece := At(board, to);

      board := ApplyMove(board, from, to);

      var moveNotation := MoveNotation(piece.value, fromRow, fromCol, toRow, toCol, capturedPiece);
      RecordMove(moveNotation);
      ghost var ledger := (moveHistory, moveCount);
      assert ledger == Recorded(old(moveHistory), old(moveCount), old(currentPlayer), moveNotation);

      if piece.value.kind == Pawn && (toRow == 0 || toRow == 7) {
        board := Set(board, to, Some(Piece(Queen, piece.value.color)));
      }

      currentPlayer := Opponent(currentPlayer);
      assert gameOver == old(gameOver) && checkmate == old(checkmate);
      CheckGameState();
      assert (moveHistory, moveCount) == ledger;
    }

    /**
     * A click on (row, col) while (fromRow, fromCol) is selected: ignored once
     * the game is over; otherwise the move is committed when it is valid, and
     * nothing changes when it is not.
     */
    method HandleSquareClick(fromRow: int, fromCol: int, row: int, col: int)
      requires Valid() && InBounds(fromRow, fromCol) && InBounds(row, col)
      modifies this
      ensures Valid()
      // a legal move while the game is on: committed, recorded, safe, and the new status computed
      ensures Playable(old(gameOver), old(board), old(currentPlayer), Square(fromRow, fromCol), Square(row, col)) ==>
        && board == Commit(old(board), Square(fromRow, fromCol), Square(row, col))
        && currentPlayer == Opponent(old(currentPlayer))
        && (moveHistory, moveCount) ==
           Recorded(old(moveHistory), old(moveCount), old(currentPlayer),
                    MoveNotation(At(old(board), Square(fromRow, fromCol)).value, fromRow, fromCol, row, col,
                                 At(old(board), Square(row, col))))
      ensures Playable(old(gameOver), old(board), old(currentPlayer), Square(fromRow, fromCol), Square(row, col)) ==>
        && !IsInCheck(board, old(currentPlayer))
        && inCheck == IsInCheck(board, currentPlayer)
        && gameOver == !HasLegalMove(board, currentPlayer)
        && checkmate == (old(checkmate) || (!HasLegalMove(board, currentPlayer) && inCheck))
      // anything else: nothing changes
      ensures !Playable(old(gameOver), old(board), old(currentPlayer), Square(fromRow, fromCol), Square(row, col)) ==>
        && board == old(board)
        && currentPlayer == old(currentPlayer)
        && moveHistory == old(moveHistory) && moveCount == old(moveCount)
        && gameOver == old(gameOver) && checkmate == old(checkmate) && inCheck == old(inCheck)
    {
      if gameOver {
        return;
      }
      ghost var g, player := board, currentPlayer;
      var valid := IsValidMove(fromRow, fromCol, row, col);
      assert valid == Playable(gameOver, g, player, Square(fromRow, fromCol), Square(row, col));
      if valid {
        LegalMoveIsSafe(g, Square(fromRow, fromCol), Square(row, col));
        MakeMove(fromRow, fromCol, row, col);
      }
    }
  }
}

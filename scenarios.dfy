/**
 * Two positions worked through in full: the opening position, where white
 * has exactly twenty legal moves, and the fool's mate, where white is in
 * check and has no legal move left.
 */
module Scenarios {
  import opened ChessBoard
  import opened MoveGeneration
  import opened CheckDetection

  // ---------------------------------------------------------------------
  // Tools shared by both positions
  // ---------------------------------------------------------------------

  /** The square one leap of `o` lands on, when it is on the board and not friendly. */
  function LeapTo(g: Board, row: int, col: int, o: (int, int), color: Color): seq<Square>
  {
    var s := Square(row + o.0, col + o.1);
    if OnBoard(s) && !HoldsColor(g, s, color) then [s] else []
  }

  /** One more offset of the table extends the leaps by that offset's square, when it qualifies. */
  lemma LeapsExtend(g: Board, row: int, col: int, offsets: seq<(int, int)>, k: int, color: Color)
    requires 0 < k <= |offsets|
    ensures Leaps(g, row, col, offsets[..k], color) ==
      Leaps(g, row, col, offsets[..k - 1], color) + LeapTo(g, row, col, offsets[k - 1], color)
  {
    assert offsets[..k][..k - 1] == offsets[..k - 1];
  }

  /** Offsets past `k` that all land off the board or on friendly pieces add nothing to the leaps. */
  lemma {:induction false} LeapsTail(g: Board, row: int, col: int, offsets: seq<(int, int)>, k: int, color: Color)
    requires 0 <= k <= |offsets|
    requires forall j | k <= j < |offsets| :: LeapTo(g, row, col, offsets[j], color) == []
    decreases |offsets| - k
    ensures Leaps(g, row, col, offsets, color) == Leaps(g, row, col, offsets[..k], color)
  {
    if k < |offsets| {
      var n := |offsets|;
      var init := offsets[..n - 1];
      assert offsets[..n] == offsets;
      LeapsExtend(g, row, col, offsets, n, color);
      assert LeapTo(g, row, col, offsets[n - 1], color) == [];
      assert init[..k] == offsets[..k];
      assert forall j | k <= j < |init| :: init[j] == offsets[j];
      LeapsTail(g, row, col, init, k, color);
    } else {
      assert offsets[..k] == offsets;
    }
  }

  /** A ray whose first square is off the board or holds a friendly piece is empty. */
  lemma BlockedRay(g: Board, row: int, col: int, dr: int, dc: int, color: Color)
    requires var first := Square(row + dr, col + dc); !OnBoard(first) || HoldsColor(g, first, color)
    ensures Ray(g, row, col, dr, dc, color) == []
  {
  }

  /** When no candidate leaves the mover in check, the filter keeps every one of them. */
  lemma {:induction false} KeepSafeKeepsAll(g: Board, from: Square, candidates: seq<Square>)
    requires OnBoard(from) && At(g, from).Some?
    requires forall s :: s in candidates ==> OnBoard(s) && !LeavesInCheck(g, from, s)
    ensures KeepSafe(g, from, candidates) == candidates
  {
    if candidates != [] {
      var init := candidates[..|candidates| - 1];
      assert candidates == init + [candidates[|candidates| - 1]];
      KeepSafeKeepsAll(g, from, init);
    }
  }

  /** When every candidate leaves the mover in check, the filter keeps none of them. */
  lemma {:induction false} KeepSafeDropsAll(g: Board, from: Square, candidates: seq<Square>)
    requires OnBoard(from) && At(g, from).Some?
    requires forall s :: s in candidates ==> OnBoard(s) && LeavesInCheck(g, from, s)
    ensures KeepSafe(g, from, candidates) == []
  {
    if candidates != [] {
      var init := candidates[..|candidates| - 1];
      assert candidates == init + [candidates[|candidates| - 1]];
      KeepSafeDropsAll(g, from, init);
    }
  }

  /** When a colour has a single king, the search finds it. */
  lemma OnlyKing(h: Board, k: Square, color: Color)
    requires OnBoard(k)
    requires forall u {:trigger IsKingOf(h, u, color)} | OnBoard(u) :: IsKingOf(h, u, color) <==> u == k
    ensures FindKing(h, color) == Some(k)
  {
    FindKingFirst(h, color);
    assert IsKingOf(h, k, color);
  }

  // ---------------------------------------------------------------------
  // The opening position
  // ---------------------------------------------------------------------

  /** `g` holds the standard starting arrangement, square by square. */
  ghost predicate IsOpening(g: Board)
  {
    forall s {:trigger At(g, s)} | OnBoard(s) :: At(g, s) == StartCell(s.row, s.col)
  }

  /** The knights' moves in the opening position: two jumps each, towards rows 5. */
  lemma InitialKnightJumps(g: Board, col: int)
    requires IsOpening(g)
    requires col == 1 || col == 6
    ensures PseudoMoves(g, Square(7, col)) == [Square(5, col - 1), Square(5, col + 1)]
  {
    var o := KnightOffsets;
    assert At(g, Square(7, col)) == Some(Piece(Knight, White));
    assert o[..0] == [];
    LeapsExtend(g, 7, col, o, 1, White);
    LeapsExtend(g, 7, col, o, 2, White);
    assert Leaps(g, 7, col, o[..2], White) == [Square(5, col - 1), Square(5, col + 1)];
    assert HoldsColor(g, Square(6, if col == 1 then 3 else 4), White);
    LeapsTail(g, 7, col, o, 2, White);
  }

  /** The pawns' moves in the opening position: one step and the double step. */
  lemma InitialPawnAdvances(g: Board, col: int)
    requires IsOpening(g)
    requires 0 <= col < 8
    ensures PseudoMoves(g, Square(6, col)) == [Square(5, col), Square(4, col)]
  {
  }

  /** Every other white piece of the opening position is hemmed in by its own pieces and the edge. */
  lemma InitialBackRankBlocked(g: Board, col: int)
    requires IsOpening(g)
    requires 0 <= col < 8 && col != 1 && col != 6
    ensures PseudoMoves(g, Square(7, col)) == []
  {
    forall dr, dc | -1 <= dr <= 1 && -1 <= dc <= 1 && (dr != 0 || dc != 0)
      ensures Ray(g, 7, col, dr, dc, White) == []
    {
      BlockedRay(g, 7, col, dr, dc, White);
    }
    forall j | 0 <= j < |KingOffsets| ensures LeapTo(g, 7, col, KingOffsets[j], White) == [] {
    }
    LeapsTail(g, 7, col, KingOffsets, 0, White);
  }

  /** A piece of the other side on its starting square has no pseudo-legal move onto (7, 4). */
  lemma HomePieceMissesWhiteKing(h: Board, t: Square)
    requires OnBoard(t) && t.row <= 1 && At(h, t) == StartCell(t.row, t.col)
    ensures Square(7, 4) !in PseudoMoves(h, t)
  {
  }

  /** A move by a white piece other than the king leaves white's only king on e1. */
  lemma InitialKingStays(g: Board, s: Square, m: Square)
    requires IsOpening(g)
    requires OnBoard(s) && OnBoard(m) && HoldsColor(g, s, White) && !HoldsColor(g, m, White) && s != Square(7, 4)
    ensures FindKing(ApplyMove(g, s, m), White) == Some(Square(7, 4))
  {
    var h := ApplyMove(g, s, m);
    forall u | OnBoard(u) ensures IsKingOf(h, u, White) <==> u == Square(7, 4) {
    }
    OnlyKing(h, Square(7, 4), White);
  }

  /** After a white move from the opening position every black piece is still on its starting square, so none attacks e1. */
  lemma InitialNoAttacker(g: Board, s: Square, m: Square)
    requires IsOpening(g)
    requires OnBoard(s) && OnBoard(m) && HoldsColor(g, s, White)
    ensures forall t | OnBoard(t) :: !Attacks(ApplyMove(g, s, m), t, White, Square(7, 4))
  {
    var h := ApplyMove(g, s, m);
    forall t | OnBoard(t) ensures !Attacks(h, t, White, Square(7, 4)) {
      if IsEnemy(h, t, White) {
        HomePieceMissesWhiteKing(h, t);
      }
    }
  }

  /** No move of a white piece in the opening position leaves white in check. */
  lemma InitialMoveIsSafe(g: Board, s: Square, m: Square)
    requires IsOpening(g)
    requires OnBoard(s) && HoldsColor(g, s, White) && m in PseudoMoves(g, s)
    ensures !LeavesInCheck(g, s, m)
  {
    InitialBackRankBlocked(g, 4);
    InitialKingStays(g, s, m);
    InitialNoAttacker(g, s, m);
    InCheckMeansAttacked(ApplyMove(g, s, m), White);
  }

  /** What each white piece of the opening position may do: pawns advance one or two squares, knights jump to row 5. */
  function InitialMoveList(s: Square): seq<Square>
  {
    if s.row == 6 then [Square(5, s.col), Square(4, s.col)]
    else if s.row == 7 && (s.col == 1 || s.col == 6) then [Square(5, s.col - 1), Square(5, s.col + 1)]
    else []
  }

  /** In the opening position every pseudo-legal move of a white piece is legal. */
  lemma InitialNothingFiltered(g: Board, s: Square)
    requires IsOpening(g)
    requires OnBoard(s) && HoldsColor(g, s, White)
    ensures LegalMoves(g, s) == PseudoMoves(g, s)
  {
    forall m | m in PseudoMoves(g, s) ensures OnBoard(m) && !LeavesInCheck(g, s, m) {
      InitialMoveIsSafe(g, s, m);
    }
    KeepSafeKeepsAll(g, s, PseudoMoves(g, s));
  }

  /** The legal moves of every white piece in the opening position, in the order the engine lists them. */
  lemma InitialLegalMoves(g: Board, s: Square)
    requires IsOpening(g)
    requires OnBoard(s) && HoldsColor(g, s, White)
    ensures LegalMoves(g, s) == InitialMoveList(s)
  {
    InitialNothingFiltered(g, s);
    if s.row == 6 {
      InitialPawnAdvances(g, s.col);
    } else if s.col == 1 || s.col == 6 {
      InitialKnightJumps(g, s.col);
    } else {
      InitialBackRankBlocked(g, s.col);
    }
  }

  /** The number of legal moves of the pieces of `color` on the squares from `s` on, in row-major order. */
  function LegalMoveCountFrom(g: Board, color: Color, s: Square): nat
    requires ScanPosition(s)
    decreases |g| - s.row, 8 - s.col
  {
    if s.row == 8 then 0
    else (if HoldsColor(g, s, color) then |LegalMoves(g, s)| else 0) + LegalMoveCountFrom(g, color, NextSquare(s))
  }

  /** The moves white has left in the opening position once the scan reaches `s`. */
  lemma {:induction false} InitialCountFrom(g: Board, s: Square)
    requires IsOpening(g)
    requires ScanPosition(s)
    decreases 8 - s.row, 8 - s.col
    ensures LegalMoveCountFrom(g, White, s) ==
      if s.row <= 5 then 20
      else if s.row == 6 then 2 * (8 - s.col) + 4
      else if s.row == 7 then (if s.col <= 1 then 4 else if s.col <= 6 then 2 else 0)
      else 0
  {
    if s.row != 8 {
      InitialCountFrom(g, NextSquare(s));
      if HoldsColor(g, s, White) {
        InitialLegalMoves(g, s);
      }
    }
  }

  /** White opens with exactly twenty legal moves: sixteen pawn moves and four knight moves. */
  lemma InitialTwentyMoves()
    ensures LegalMoveCountFrom(InitialBoard(), White, Square(0, 0)) == 20
  {
    InitialCountFrom(InitialBoard(), Square(0, 0));
  }

  // ---------------------------------------------------------------------
  // The fool's mate: 1. f3 e5 2. g4 Qh4
  // ---------------------------------------------------------------------

  /** The occupant of each square once the four moves of the fool's mate are played. */
  function FoolsMateCell(s: Square): Option<Piece>
    requires OnBoard(s)
  {
    if s == Square(6, 5) || s == Square(1, 4) || s == Square(6, 6) || s == Square(0, 3) then None
    else if s == Square(5, 5) || s == Square(4, 6) then Some(Piece(Pawn, White))
    else if s == Square(3, 4) then Some(Piece(Pawn, Black))
    else if s == Square(4, 7) then Some(Piece(Queen, Black))
    else StartCell(s.row, s.col)
  }

  /** `g` holds the position after the fool's mate, square by square. */
  ghost predicate IsFoolsMate(g: Board)
  {
    forall s {:trigger At(g, s)} | OnBoard(s) :: At(g, s) == FoolsMateCell(s)
  }

  /** The opening position with f2-f3 and e7-e5 committed in turn. */
  function FoolsMateFirstMoves(): (g: Board)
    ensures forall s {:trigger At(g, s)} | OnBoard(s) ::
      At(g, s) == (
        if s == Square(6, 5) || s == Square(1, 4) then None
        else if s == Square(5, 5) then Some(Piece(Pawn, White))
        else if s == Square(3, 4) then Some(Piece(Pawn, Black))
        else StartCell(s.row, s.col))
  {
    var g0 := InitialBoard();
    var g1 := Commit(g0, Square(6, 5), Square(5, 5));
    Commit(g1, Square(1, 4), Square(3, 4))
  }

  /** The position after f2-f3 and e7-e5 with g2-g4 committed. */
  function FoolsMateThreeMoves(): (g: Board)
    ensures forall s {:trigger At(g, s)} | OnBoard(s) ::
      At(g, s) == (if s == Square(4, 7) then StartCell(4, 7) else if s == Square(0, 3) then StartCell(0, 3) else FoolsMateCell(s))
  {
    Commit(FoolsMateFirstMoves(), Square(6, 6), Square(4, 6))
  }

  /** The position after f2-f3, e7-e5 and g2-g4 with Qd8-h4 committed. */
  function FoolsMateBoard(): (g: Board)
    ensures forall s {:trigger At(g, s)} | OnBoard(s) :: At(g, s) == FoolsMateCell(s)
  {
    Commit(FoolsMateThreeMoves(), Square(0, 3), Square(4, 7))
  }

  /**
   * With the black queen on h4, f2 and g3 empty and a lone white king on e1
   * (or on f2 itself), the queen's diagonal reaches the king.
   */
  lemma QueenReachesKing(h: Board, k: Square)
    requires At(h, Square(4, 7)) == Some(Piece(Queen, Black)) && IsEmpty(h, Square(5, 6))
    requires k == Square(6, 5) || (k == Square(7, 4) && IsEmpty(h, Square(6, 5)))
    requires IsKingOf(h, k, White)
    ensures Attacks(h, Square(4, 7), White, k)
  {
    if k == Square(7, 4) {
      assert RayFrom(h, Square(7, 4), 1, -1, Black, 3) == [k];
      assert RayFrom(h, Square(6, 5), 1, -1, Black, 2) == [Square(6, 5), k];
    } else {
      assert RayFrom(h, Square(6, 5), 1, -1, Black, 2) == [k];
    }
    assert RayFrom(h, Square(5, 6), 1, -1, Black, 1) == [Square(5, 6)] + RayFrom(h, Square(6, 5), 1, -1, Black, 2);
    assert k in Ray(h, 4, 7, 1, -1, Black);
    assert k in BishopMoves(h, 4, 7, Black);
  }

  /** A white pawn after the fool's mate moves up the board and reaches neither h4 nor g3. */
  lemma FoolsMatePawn(g: Board, s: Square, m: Square)
    requires IsFoolsMate(g)
    requires OnBoard(s) && At(g, s) == Some(Piece(Pawn, White)) && m in PseudoMoves(g, s)
    ensures m.row < s.row && m != Square(4, 7) && m != Square(5, 6)
  {
    assert m in PawnMoves(g, s.row, s.col, White);
  }

  /** After the fool's mate the white rooks are hemmed in by their own pieces and the edge. */
  lemma FoolsMateRooksBlocked(g: Board)
    requires IsFoolsMate(g)
    ensures RookMoves(g, 7, 0, White) == [] && RookMoves(g, 7, 7, White) == []
  {
    BlockedRay(g, 7, 0, 0, 1, White);
    BlockedRay(g, 7, 0, 0, -1, White);
    BlockedRay(g, 7, 0, 1, 0, White);
    BlockedRay(g, 7, 0, -1, 0, White);
    BlockedRay(g, 7, 7, 0, 1, White);
    BlockedRay(g, 7, 7, 0, -1, White);
    BlockedRay(g, 7, 7, 1, 0, White);
    BlockedRay(g, 7, 7, -1, 0, White);
  }

  /** After the fool's mate the white queen and the bishop on c1 are hemmed in as well. */
  lemma FoolsMateQueenBlocked(g: Board)
    requires IsFoolsMate(g)
    ensures BishopMoves(g, 7, 2, White) == [] && QueenMoves(g, 7, 3, White) == []
  {
    BlockedRay(g, 7, 2, 1, 1, White);
    BlockedRay(g, 7, 2, 1, -1, White);
    BlockedRay(g, 7, 2, -1, 1, White);
    BlockedRay(g, 7, 2, -1, -1, White);
    BlockedRay(g, 7, 3, 0, 1, White);
    BlockedRay(g, 7, 3, 0, -1, White);
    BlockedRay(g, 7, 3, 1, 0, White);
    BlockedRay(g, 7, 3, -1, 0, White);
    BlockedRay(g, 7, 3, 1, 1, White);
    BlockedRay(g, 7, 3, 1, -1, White);
    BlockedRay(g, 7, 3, -1, 1, White);
    BlockedRay(g, 7, 3, -1, -1, White);
  }

  /** The pieces on a1, c1, d1 and h1 have no move at all after the fool's mate. */
  lemma FoolsMateStuck(g: Board, col: int)
    requires IsFoolsMate(g)
    requires col == 0 || col == 2 || col == 3 || col == 7
    ensures PseudoMoves(g, Square(7, col)) == []
  {
    if col == 0 || col == 7 {
      assert At(g, Square(7, col)) == Some(Piece(Rook, White));
      FoolsMateRooksBlocked(g);
    } else if col == 2 {
      assert At(g, Square(7, col)) == Some(Piece(Bishop, White));
      FoolsMateQueenBlocked(g);
    } else {
      assert At(g, Square(7, col)) == Some(Piece(Queen, White));
      FoolsMateQueenBlocked(g);
    }
  }

  /** The bishop on f1 after the fool's mate reaches none of h4, g3 and f2. */
  lemma FoolsMateBishop(g: Board, m: Square)
    requires IsFoolsMate(g)
    requires m in PseudoMoves(g, Square(7, 5))
    ensures m != Square(4, 7) && m != Square(5, 6) && m != Square(6, 5)
  {
    assert At(g, Square(7, 5)) == Some(Piece(Bishop, White));
    assert m in BishopMoves(g, 7, 5, White);
  }

  /** The white knights after the fool's mate reach none of h4, g3 and f2. */
  lemma FoolsMateKnight(g: Board, col: int, m: Square)
    requires IsFoolsMate(g)
    requires (col == 1 || col == 6) && m in PseudoMoves(g, Square(7, col))
    ensures m != Square(4, 7) && m != Square(5, 6) && m != Square(6, 5)
  {
    assert At(g, Square(7, col)) == Some(Piece(Knight, White));
    assert m in KnightMoves(g, 7, col, White);
  }

  /** The white king after the fool's mate has the single move to f2. */
  lemma FoolsMateKing(g: Board, m: Square)
    requires IsFoolsMate(g)
    requires m in PseudoMoves(g, Square(7, 4))
    ensures m == Square(6, 5)
  {
    assert At(g, Square(7, 4)) == Some(Piece(King, White));
    assert m in KingMoves(g, 7, 4, White);
  }

  /**
   * After the fool's mate no white piece can take the queen on h4 or step
   * between it and the king on g3 or f2; only the king itself reaches f2.
   */
  lemma FoolsMateDestinations(g: Board, s: Square, m: Square)
    requires IsFoolsMate(g)
    requires OnBoard(s) && HoldsColor(g, s, White) && m in PseudoMoves(g, s)
    ensures m != Square(4, 7) && m != Square(5, 6)
    ensures m == Square(6, 5) <==> s == Square(7, 4)
  {
    if s.row != 7 {
      FoolsMatePawn(g, s, m);
    } else if s.col == 1 || s.col == 6 {
      FoolsMateKnight(g, s.col, m);
    } else if s.col == 4 {
      FoolsMateKing(g, m);
    } else if s.col == 5 {
      FoolsMateBishop(g, m);
    } else {
      FoolsMateStuck(g, s.col);
    }
  }

  /**
   * A white move after the fool's mate that neither takes the queen nor
   * blocks g3 leaves one white king, on e1 or (when the king itself moved) on f2.
   */
  lemma FoolsMateKingAfter(g: Board, s: Square, m: Square)
    requires IsFoolsMate(g)
    requires OnBoard(s) && OnBoard(m) && HoldsColor(g, s, White) && !HoldsColor(g, m, White)
    requires m != Square(4, 7) && m != Square(5, 6) && (m == Square(6, 5) <==> s == Square(7, 4))
    ensures var h, k := ApplyMove(g, s, m), if s == Square(7, 4) then m else Square(7, 4);
      && FindKing(h, White) == Some(k)
      && At(h, Square(4, 7)) == Some(Piece(Queen, Black)) && IsEmpty(h, Square(5, 6))
      && (k == Square(6, 5) || (k == Square(7, 4) && IsEmpty(h, Square(6, 5))))
      && IsKingOf(h, k, White)
  {
    var h, k := ApplyMove(g, s, m), if s == Square(7, 4) then m else Square(7, 4);
    forall u | OnBoard(u) ensures IsKingOf(h, u, White) <==> u == k {
    }
    OnlyKing(h, k, White);
  }

  /** Every pseudo-legal move of white after the fool's mate leaves white's king attacked by the queen. */
  lemma FoolsMateMoveLeavesCheck(g: Board, s: Square, m: Square)
    requires IsFoolsMate(g)
    requires OnBoard(s) && HoldsColor(g, s, White) && m in PseudoMoves(g, s)
    ensures LeavesInCheck(g, s, m)
  {
    FoolsMateDestinations(g, s, m);
    FoolsMateKingAfter(g, s, m);
    var h, k := ApplyMove(g, s, m), if s == Square(7, 4) then m else Square(7, 4);
    QueenReachesKing(h, k);
    InCheckMeansAttacked(h, White);
  }

  /** White has no legal move after the fool's mate. */
  lemma FoolsMateNoMove(g: Board, s: Square)
    requires IsFoolsMate(g)
    requires OnBoard(s) && HoldsColor(g, s, White)
    ensures LegalMoves(g, s) == []
  {
    forall m | m in PseudoMoves(g, s) ensures OnBoard(m) && LeavesInCheck(g, s, m) {
      FoolsMateMoveLeavesCheck(g, s, m);
    }
    KeepSafeDropsAll(g, s, PseudoMoves(g, s));
  }

  /** After the fool's mate the queen on h4 attacks the white king on e1. */
  lemma FoolsMateCheck(g: Board)
    requires IsFoolsMate(g)
    ensures IsInCheck(g, White)
  {
    var e1 := Square(7, 4);
    forall u | OnBoard(u) ensures IsKingOf(g, u, White) <==> u == e1 {
    }
    OnlyKing(g, e1, White);
    QueenReachesKing(g, e1);
    InCheckMeansAttacked(g, White);
  }

  /** After the fool's mate the end-of-game scan finds no white piece with a legal move. */
  lemma FoolsMateNoLegalMove(g: Board)
    requires IsFoolsMate(g)
    ensures !HasLegalMove(g, White)
  {
    forall s | OnBoard(s) ensures !CanMoveFrom(g, s, White) {
      if HoldsColor(g, s, White) {
        FoolsMateNoMove(g, s);
      }
    }
    HasLegalMoveMeans(g, White);
  }

  /**
   * The fool's mate, 1. f3 e5 2. g4 Qh4, played through the engine's move
   * commit from the opening position: white is in check and no white piece
   * has a legal move, so the end-of-game scan declares checkmate.
   */
  lemma FoolsMate()
    ensures IsInCheck(FoolsMateBoard(), White)
    ensures !HasLegalMove(FoolsMateBoard(), White)
  {
    FoolsMateCheck(FoolsMateBoard());
    FoolsMateNoLegalMove(FoolsMateBoard());
  }
}

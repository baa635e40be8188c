/**
 * Check detection and the legality filter: the king search, the attack scan,
 * the speculative move used to test for self-check, and the legal moves that
 * survive it.
 */
module CheckDetection {
  import opened ChessBoard
  import opened MoveGeneration

  /** The square after `s` in row-major order; (8, 0) ends the scan. */
  function NextSquare(s: Square): Square
  {
    if s.col == 7 then Square(s.row + 1, 0) else Square(s.row, s.col + 1)
  }

  /** `s` is a square of the scan or the end marker (8, 0). */
  predicate ScanPosition(s: Square)
  {
    OnBoard(s) || s == Square(8, 0)
  }

  /** `t` is still to be visited by a scan that stands at `s`. */
  predicate Pending(t: Square, s: Square)
  {
    OnBoard(t) && !Precedes(t, s)
  }

  /** A scan standing on a board square still has that square and then everything pending after it. */
  lemma PendingStep(s: Square)
    requires OnBoard(s)
    ensures forall t {:trigger Pending(t, s)} :: Pending(t, s) <==> t == s || Pending(t, NextSquare(s))
  {
  }

  /** The row-major king search, resumed at `s`. */
  function FindKingFrom(g: Board, color: Color, s: Square): (k: Option<Square>)
    requires ScanPosition(s)
    decreases |g| - s.row, 8 - s.col
    ensures k.Some? ==> Pending(k.value, s) && IsKingOf(g, k.value, color)
  {
    if s.row == 8 then None
    else if IsKingOf(g, s, color) then Some(s)
    else FindKingFrom(g, color, NextSquare(s))
  }

  /** The search resumed at `s` finds the first king still pending, and None when no king is pending. */
  lemma {:induction false} FindKingFromFirst(g: Board, color: Color, s: Square)
    requires ScanPosition(s)
    decreases 8 - s.row, 8 - s.col
    ensures var k := FindKingFrom(g, color, s);
      && (k.Some? ==> forall t {:trigger IsKingOf(g, t, color)} | Pending(t, s) && Precedes(t, k.value) :: !IsKingOf(g, t, color))
      && (k.None? <==> forall t {:trigger IsKingOf(g, t, color)} | Pending(t, s) :: !IsKingOf(g, t, color))
  {
    if s.row != 8 && !IsKingOf(g, s, color) {
      FindKingFromFirst(g, color, NextSquare(s));
      PendingStep(s);
    }
  }

  /** The square of the first king of `color` in row-major order, or None when the board holds no such king. */
  function FindKing(g: Board, color: Color): (k: Option<Square>)
    ensures k.Some? ==> OnBoard(k.value) && IsKingOf(g, k.value, color)
  {
    FindKingFrom(g, color, Square(0, 0))
  }

  /** FindKing returns the first king in row-major order, and None exactly when there is no king of that colour. */
  lemma FindKingFirst(g: Board, color: Color)
    ensures var k := FindKing(g, color);
      && (k.Some? ==> forall t {:trigger IsKingOf(g, t, color)} | OnBoard(t) && Precedes(t, k.value) :: !IsKingOf(g, t, color))
      && (k.None? <==> forall t {:trigger IsKingOf(g, t, color)} | OnBoard(t) :: !IsKingOf(g, t, color))
  {
    FindKingFromFirst(g, color, Square(0, 0));
  }

  /** The piece on `t` is not of colour `color` and its pseudo-legal moves reach `target`. */
  predicate Attacks(g: Board, t: Square, color: Color, target: Square)
    requires OnBoard(t)
  {
    IsEnemy(g, t, color) && target in PseudoMoves(g, t)
  }

  /** The attack scan of the engine, resumed at `s`; it stops at the first attacker. */
  predicate AttackedFrom(g: Board, color: Color, target: Square, s: Square)
    requires ScanPosition(s)
    decreases |g| - s.row, 8 - s.col
  {
    if s.row == 8 then false
    else if Attacks(g, s, color, target) then true
    else AttackedFrom(g, color, target, NextSquare(s))
  }

  /** The scan resumed at `s` reports an attack exactly when some pending square holds an attacker. */
  lemma {:induction false} AttackedFromScan(g: Board, color: Color, target: Square, s: Square)
    requires ScanPosition(s)
    decreases 8 - s.row, 8 - s.col
    ensures AttackedFrom(g, color, target, s) <==>
      exists t {:trigger Attacks(g, t, color, target)} | Pending(t, s) :: Attacks(g, t, color, target)
  {
    if s.row != 8 && !Attacks(g, s, color, target) {
      AttackedFromScan(g, color, target, NextSquare(s));
      PendingStep(s);
    }
  }

  /**
   * The king of `color` is attacked by some opposing piece's pseudo-legal
   * moves. When there is no king of `color` the answer is false.
   */
  predicate IsInCheck(g: Board, color: Color)
  {
    match FindKing(g, color)
    case None => false
    case Some(k) => AttackedFrom(g, color, k, Square(0, 0))
  }

  /** In check exactly when a king of `color` exists and some piece of another colour attacks the first one found. */
  lemma InCheckMeansAttacked(g: Board, color: Color)
    ensures IsInCheck(g, color) <==>
      FindKing(g, color).Some? &&
      exists t {:trigger Attacks(g, t, color, FindKing(g, color).value)} | OnBoard(t) ::
        Attacks(g, t, color, FindKing(g, color).value)
  {
    if FindKing(g, color).Some? {
      AttackedFromScan(g, color, FindKing(g, color).value, Square(0, 0));
    }
  }

  /**
   * The move as the engine tries it before testing for check: the piece is
   * copied to `to`, then `from` is cleared. No promotion happens here.
   */
  function ApplyMove(g: Board, from: Square, to: Square): (r: Board)
    requires OnBoard(from) && OnBoard(to)
    ensures At(r, from).None?
    ensures from != to ==> At(r, to) == At(g, from)
    ensures forall t {:trigger At(r, t)} | OnBoard(t) && t != from && t != to :: At(r, t) == At(g, t)
  {
    Set(Set(g, to, At(g, from)), from, None)
  }

  /** Moving the piece on `from` to `to` leaves that piece's own king in check. */
  predicate LeavesInCheck(g: Board, from: Square, to: Square)
    requires OnBoard(from) && OnBoard(to) && At(g, from).Some?
  {
    IsInCheck(ApplyMove(g, from, to), At(g, from).value.color)
  }

  /**
   * The speculative test asks whether, after the move, some piece of another
   * colour attacks the first king of the mover's colour. When the mover is
   * that side's only king, the square tested is the destination.
   */
  lemma LeavesInCheckMeans(g: Board, from: Square, to: Square)
    requires OnBoard(from) && OnBoard(to) && At(g, from).Some?
    ensures var h, c := ApplyMove(g, from, to), At(g, from).value.color;
      LeavesInCheck(g, from, to) <==>
        FindKing(h, c).Some? &&
        exists t {:trigger Attacks(h, t, c, FindKing(h, c).value)} | OnBoard(t) :: Attacks(h, t, c, FindKing(h, c).value)
    ensures var h, c := ApplyMove(g, from, to), At(g, from).value.color;
      from != to && IsKingOf(g, from, c) &&
      (forall u {:trigger IsKingOf(g, u, c)} | OnBoard(u) && u != from :: !IsKingOf(g, u, c))
      ==> FindKing(h, c) == Some(to)
  {
    var h, c := ApplyMove(g, from, to), At(g, from).value.color;
    InCheckMeansAttacked(h, c);
    if from != to && IsKingOf(g, from, c) && (forall u {:trigger IsKingOf(g, u, c)} | OnBoard(u) && u != from :: !IsKingOf(g, u, c)) {
      FindKingFirst(h, c);
      assert IsKingOf(h, to, c);
      forall u | OnBoard(u) && u != to ensures !IsKingOf(h, u, c) {
        if u != from {
          assert !IsKingOf(g, u, c);
        }
      }
    }
  }

  /** `sub` is `s` with some elements left out and the rest kept in order. */
  predicate IsSubsequence(sub: seq<Square>, s: seq<Square>)
    decreases |s|
  {
    sub == []
    || (s != [] &&
        (IsSubsequence(sub, s[..|s| - 1])
         || (sub[|sub| - 1] == s[|s| - 1] && IsSubsequence(sub[..|sub| - 1], s[..|s| - 1]))))
  }

  /** The candidates that do not leave the mover in check, in generation order. */
  function KeepSafe(g: Board, from: Square, candidates: seq<Square>): (safe: seq<Square>)
    requires OnBoard(from) && At(g, from).Some?
    requires forall s :: s in candidates ==> OnBoard(s)
    ensures IsSubsequence(safe, candidates)
    ensures forall s :: s in safe <==> s in candidates && !LeavesInCheck(g, from, s)
  {
    if candidates == [] then []
    else
      var last := candidates[|candidates| - 1];
      var init := candidates[..|candidates| - 1];
      assert candidates == init + [last];
      var kept := KeepSafe(g, from, init);
      if LeavesInCheck(g, from, last) then
        kept
      else
        assert (kept + [last])[..|kept|] == kept;
        kept + [last]
  }

  /** Extending the candidates by one extends the kept moves by that candidate, unless it leaves the mover in check. */
  lemma KeepSafeStep(g: Board, from: Square, candidates: seq<Square>, i: int)
    requires OnBoard(from) && At(g, from).Some?
    requires forall s :: s in candidates ==> OnBoard(s)
    requires 0 <= i < |candidates|
    ensures KeepSafe(g, from, candidates[..i + 1]) ==
      KeepSafe(g, from, candidates[..i]) + (if LeavesInCheck(g, from, candidates[i]) then [] else [candidates[i]])
  {
    assert candidates[..i + 1][..i] == candidates[..i];
  }

  /** The legal moves of the piece on `from`: its pseudo-legal moves minus those that leave its king in check. */
  function LegalMoves(g: Board, from: Square): (moves: seq<Square>)
    requires OnBoard(from)
    ensures IsSubsequence(moves, PseudoMoves(g, from))
    ensures forall s :: s in moves <==> s in PseudoMoves(g, from) && !LeavesInCheck(g, from, s)
  {
    match At(g, from)
    case None => []
    case Some(_) => KeepSafe(g, from, PseudoMoves(g, from))
  }

  /** The square `s` holds a piece of `color` with at least one legal move. */
  predicate CanMoveFrom(g: Board, s: Square, color: Color)
    requires OnBoard(s)
  {
    HoldsColor(g, s, color) && |LegalMoves(g, s)| > 0
  }

  /**
   * The engine's end-of-game scan, resumed at (row, col): rows top to bottom,
   * columns left to right, stopping at the first piece of `color` that has a
   * legal move. Column 8 stands for the start of the next row.
   */
  predicate MovableFrom(g: Board, color: Color, row: int, col: int)
    requires 0 <= row <= 8 && 0 <= col <= 8
    decreases |g| - row, 8 - col
  {
    if row == 8 then false
    else if col == 8 then MovableFrom(g, color, row + 1, 0)
    else CanMoveFrom(g, Square(row, col), color) || MovableFrom(g, color, row, col + 1)
  }

  /** The scan resumed at (row, col) succeeds exactly when a square not yet visited holds a piece of `color` with a legal move. */
  lemma {:induction false} MovableFromScan(g: Board, color: Color, row: int, col: int)
    requires 0 <= row <= 8 && 0 <= col <= 8
    decreases 8 - row, 8 - col
    ensures MovableFrom(g, color, row, col) <==>
      exists s {:trigger CanMoveFrom(g, s, color)} | Pending(s, Square(row, col)) :: CanMoveFrom(g, s, color)
  {
    if row == 8 {
    } else if col == 8 {
      MovableFromScan(g, color, row + 1, 0);
      assert forall s {:trigger Pending(s, Square(row, col))} :: Pending(s, Square(row, col)) <==> Pending(s, Square(row + 1, 0));
    } else {
      MovableFromScan(g, color, row, col + 1);
      if MovableFrom(g, color, row, col) {
        if CanMoveFrom(g, Square(row, col), color) {
          assert Pending(Square(row, col), Square(row, col));
        }
      } else {
        forall s | Pending(s, Square(row, col)) ensures !CanMoveFrom(g, s, color) {
          if s != Square(row, col) {
            assert Pending(s, Square(row, col + 1));
          }
        }
      }
    }
  }

  /** Some piece of `color` has at least one legal move, as the engine's scan finds out. */
  predicate HasLegalMove(g: Board, color: Color)
  {
    MovableFrom(g, color, 0, 0)
  }

  /** The scan succeeds exactly when some piece of `color` has a legal move. */
  lemma HasLegalMoveMeans(g: Board, color: Color)
    ensures HasLegalMove(g, color) <==> exists s {:trigger CanMoveFrom(g, s, color)} | OnBoard(s) :: CanMoveFrom(g, s, color)
  {
    MovableFromScan(g, color, 0, 0);
  }

  /** What a piece becomes on landing at `to`: a pawn reaching row 0 or 7 becomes a queen of its colour. */
  function Promoted(p: Piece, to: Square): (r: Option<Piece>)
    ensures r.Some? && r.value.color == p.color
    ensures r.value.kind != p.kind <==> p.kind == Pawn && (to.row == 0 || to.row == 7)
    ensures r.value.kind != p.kind ==> r.value.kind == Queen
  {
    if p.kind == Pawn && (to.row == 0 || to.row == 7) then Some(Piece(Queen, p.color)) else Some(p)
  }

  /**
   * The position after a committed move: the speculative move, followed by
   * promotion to a queen of the mover's colour when a pawn lands on row 0 or 7.
   */
  function Commit(g: Board, from: Square, to: Square): (r: Board)
    requires OnBoard(from) && OnBoard(to) && At(g, from).Some?
    ensures from != to ==> At(r, from).None?
    ensures from != to ==> At(r, to) == Promoted(At(g, from).value, to)
    ensures forall t {:trigger At(r, t)} | OnBoard(t) && t != from && t != to :: At(r, t) == At(g, t)
  {
    var p := At(g, from).value;
    var moved := ApplyMove(g, from, to);
    if p.kind == Pawn && (to.row == 0 || to.row == 7) then Set(moved, to, Some(Piece(Queen, p.color)))
    else moved
  }

  /** King searches over positions that have their kings on the same squares give the same answer. */
  lemma {:induction false} FindKingFromSame(a: Board, b: Board, color: Color, s: Square)
    requires ScanPosition(s)
    requires forall t {:trigger IsKingOf(a, t, color)} {:trigger IsKingOf(b, t, color)} | OnBoard(t) ::
      IsKingOf(a, t, color) == IsKingOf(b, t, color)
    decreases 8 - s.row, 8 - s.col
    ensures FindKingFrom(a, color, s) == FindKingFrom(b, color, s)
  {
    if s.row != 8 {
      FindKingFromSame(a, b, color, NextSquare(s));
    }
  }

  /** Attack scans over positions with the same attackers of `target` give the same answer. */
  lemma {:induction false} AttackedFromSame(a: Board, b: Board, color: Color, target: Square, s: Square)
    requires ScanPosition(s)
    requires forall t {:trigger Attacks(a, t, color, target)} {:trigger Attacks(b, t, color, target)} | OnBoard(t) ::
      Attacks(a, t, color, target) == Attacks(b, t, color, target)
    decreases 8 - s.row, 8 - s.col
    ensures AttackedFrom(a, color, target, s) == AttackedFrom(b, color, target, s)
  {
    if s.row != 8 {
      AttackedFromSame(a, b, color, target, NextSquare(s));
    }
  }

  /**
   * Promotion does not change whether the mover's king is in check: the queen
   * stands where the pawn stood and has the pawn's colour, so no king moves
   * and no opposing piece gains or loses a move.
   */
  lemma PromotionKeepsCheck(g: Board, from: Square, to: Square)
    requires OnBoard(from) && OnBoard(to) && At(g, from).Some? && from != to
    ensures IsInCheck(Commit(g, from, to), At(g, from).value.color) == LeavesInCheck(g, from, to)
  {
    var color := At(g, from).value.color;
    var a, b := ApplyMove(g, from, to), Commit(g, from, to);
    if a != b {
      assert SameSides(a, b) by {
        forall s | OnBoard(s) ensures SideAt(a, s) == SideAt(b, s) {
        }
      }
      forall t | OnBoard(t) ensures IsKingOf(a, t, color) == IsKingOf(b, t, color) {
      }
      FindKingFromSame(a, b, color, Square(0, 0));
      if FindKing(a, color).Some? {
        var k := FindKing(a, color).value;
        forall t | OnBoard(t) ensures Attacks(a, t, color, k) == Attacks(b, t, color, k) {
          if t != to {
            PseudoMovesSameSides(a, b, t);
          }
        }
        AttackedFromSame(a, b, color, k, Square(0, 0));
      }
    }
  }

  /** Committing one of the legal moves of a piece, promotion included, never leaves that piece's own king in check. */
  lemma LegalMoveIsSafe(g: Board, from: Square, to: Square)
    requires OnBoard(from)
    ensures to in LegalMoves(g, from) ==>
      && OnBoard(to) && At(g, from).Some? && to != from
      && !IsInCheck(Commit(g, from, to), At(g, from).value.color)
  {
    if to in LegalMoves(g, from) {
      PromotionKeepsCheck(g, from, to);
    }
  }

  /** In the starting position the king search finds each side's king on file e of its back rank. */
  lemma InitialKingsFound(color: Color)
    ensures FindKing(InitialBoard(), color) == Some(if color == White then Square(7, 4) else Square(0, 4))
  {
    var home := if color == White then Square(7, 4) else Square(0, 4);
    InitialKings(home, color);
    FindKingFirst(InitialBoard(), color);
    InitialKings(FindKing(InitialBoard(), color).value, color);
  }
}

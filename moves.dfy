/**
 * Pseudo-legal move generation, one generator per piece kind. The destinations
 * are produced in the order the engine pushes them; none of these consult
 * check status.
 */
module MoveGeneration {
  import opened ChessBoard

  /** The row step of a pawn: white moves up the grid, black down. */
  function Forward(color: Color): int
  {
    if color == White then -1 else 1
  }

  /** The rank from which a pawn may advance two squares. */
  function HomeRow(color: Color): int
  {
    if color == White then 6 else 1
  }

  /**
   * Pawns start on their home row with their own back rank one step behind,
   * and six forward steps from the home row reach the opponent's back rank,
   * where promotion happens.
   */
  lemma PawnGeometry(color: Color, col: int)
    requires 0 <= col < 8
    ensures StartCell(HomeRow(color), col) == Some(Piece(Pawn, color))
    ensures StartCell(HomeRow(color) - Forward(color), col) == Some(Piece(BackRow[col], color))
    ensures var last := HomeRow(color) + 6 * Forward(color);
      (last == 0 || last == 7) && StartCell(last, col) == Some(Piece(BackRow[col], Opponent(color)))
  {
  }

  /** The three ways a pawn of `color` at (row, col) may reach `s`. */
  predicate IsPawnMove(g: Board, row: int, col: int, color: Color, s: Square)
    requires OnBoard(s)
  {
    var d := Forward(color);
    (s == Square(row + d, col) && IsEmpty(g, s))
    || (row == HomeRow(color) && s == Square(row + 2 * d, col)
        && IsEmpty(g, Square(row + d, col)) && IsEmpty(g, s))
    || (s.row == row + d && (s.col == col - 1 || s.col == col + 1) && IsEnemy(g, s, color))
  }

  /** The diagonal capture towards column offset `dc`, when an enemy stands there. */
  function PawnCapture(g: Board, row: int, col: int, color: Color, dc: int): (moves: seq<Square>)
    ensures forall s {:trigger s in moves} :: s in moves <==>
      s == Square(row + Forward(color), col + dc) && OnBoard(s) && IsEnemy(g, s, color)
  {
    var target := Square(row + Forward(color), col + dc);
    if OnBoard(target) && IsEnemy(g, target, color) then [target] else []
  }

  /**
   * Pawn: one step forward onto an empty square and, nested inside that case,
   * a second step from the home rank onto an empty square; then the two
   * forward diagonals when an enemy piece stands there.
   */
  function PawnMoves(g: Board, row: int, col: int, color: Color): (moves: seq<Square>)
    ensures forall s {:trigger s in moves} :: s in moves <==> OnBoard(s) && IsPawnMove(g, row, col, color, s)
  {
    var d := Forward(color);
    var ahead := Square(row + d, col);
    var advances :=
      if OnBoard(ahead) && IsEmpty(g, ahead) then
        var twoAhead := Square(row + 2 * d, col);
        [ahead] + (if row == HomeRow(color) && IsEmpty(g, twoAhead) then [twoAhead] else [])
      else [];
    advances + PawnCapture(g, row, col, color, -1) + PawnCapture(g, row, col, color, 1)
  }

  function Last(ray: seq<Square>): Square
    requires ray != []
  {
    ray[|ray| - 1]
  }

  function Advance(s: Square, dr: int, dc: int): Square
  {
    Square(s.row + dr, s.col + dc)
  }

  /**
   * One ray, continued from `cur`, the square reached at step `step` of the
   * engine's `for (i = 1; i < 8; i++)` loop: it runs over empty squares, stops
   * at the edge, stops before a piece of the mover's colour and stops after
   * including an enemy piece.
   */
  function RayFrom(g: Board, cur: Square, dr: int, dc: int, color: Color, step: int): (ray: seq<Square>)
    decreases |g| - step
    ensures step < 8 ==> |ray| <= 8 - step
    ensures step >= 8 ==> ray == []
    ensures forall j :: 0 <= j < |ray| ==> OnBoard(ray[j]) && !HoldsColor(g, ray[j], color)
    ensures ray != [] ==> ray[0] == cur
    ensures forall j :: 0 <= j < |ray| - 1 ==> IsEmpty(g, ray[j]) && ray[j + 1] == Advance(ray[j], dr, dc)
    // where the ray ends: the step bound, an enemy piece, the edge or a friendly piece
    ensures step + |ray| < 8 && (ray == [] || IsEmpty(g, Last(ray))) ==>
      var next := if ray == [] then cur else Advance(Last(ray), dr, dc);
      !OnBoard(next) || HoldsColor(g, next, color)
    // the ray stays on its line
    ensures forall s {:trigger s in ray} :: s in ray ==>
      (dr == 0 ==> s.row == cur.row) && (dc == 0 ==> s.col == cur.col)
      && (dr > 0 ==> s.row >= cur.row) && (dr < 0 ==> s.row <= cur.row)
      && (dc > 0 ==> s.col >= cur.col) && (dc < 0 ==> s.col <= cur.col)
      && (dr == dc ==> s.row - cur.row == s.col - cur.col)
      && (dr == -dc ==> s.row - cur.row == cur.col - s.col)
  {
    if step >= 8 || !OnBoard(cur) then []
    else if IsEmpty(g, cur) then [cur] + RayFrom(g, Advance(cur, dr, dc), dr, dc, color, step + 1)
    else if IsEnemy(g, cur, color) then [cur]
    else []
  }

  /** The ray leaving (row, col) in direction (dr, dc). */
  function Ray(g: Board, row: int, col: int, dr: int, dc: int, color: Color): (ray: seq<Square>)
    ensures forall s {:trigger s in ray} :: s in ray ==>
      OnBoard(s) && !HoldsColor(g, s, color)
      && (dr == 0 ==> s.row == row) && (dc == 0 ==> s.col == col)
      && (dr == dc ==> s.row - row == s.col - col)
      && (dr == -dc ==> s.row - row == col - s.col)
      && ((dr != 0 || dc != 0) ==> s != Square(row, col))
  {
    RayFrom(g, Square(row + dr, col + dc), dr, dc, color, 1)
  }

  /** Rook: the rays towards (0, 1), (0, -1), (1, 0) and (-1, 0), in that order. */
  function RookMoves(g: Board, row: int, col: int, color: Color): (moves: seq<Square>)
    ensures forall s {:trigger s in moves} :: s in moves ==>
      OnBoard(s) && !HoldsColor(g, s, color) && s != Square(row, col) && (s.row == row || s.col == col)
  {
    Ray(g, row, col, 0, 1, color) + Ray(g, row, col, 0, -1, color)
    + Ray(g, row, col, 1, 0, color) + Ray(g, row, col, -1, 0, color)
  }

  /** Bishop: the rays towards (1, 1), (1, -1), (-1, 1) and (-1, -1), in that order. */
  function BishopMoves(g: Board, row: int, col: int, color: Color): (moves: seq<Square>)
    ensures forall s {:trigger s in moves} :: s in moves ==>
      OnBoard(s) && !HoldsColor(g, s, color) && s != Square(row, col)
      && (s.row - row == s.col - col || s.row - row == col - s.col)
  {
    Ray(g, row, col, 1, 1, color) + Ray(g, row, col, 1, -1, color)
    + Ray(g, row, col, -1, 1, color) + Ray(g, row, col, -1, -1, color)
  }

  /** Queen: the rook's rays followed by the bishop's. */
  function QueenMoves(g: Board, row: int, col: int, color: Color): (moves: seq<Square>)
    ensures forall s {:trigger s in moves} :: s in moves <==> s in RookMoves(g, row, col, color) || s in BishopMoves(g, row, col, color)
  {
    RookMoves(g, row, col, color) + BishopMoves(g, row, col, color)
  }

  /** The offsets in `offsets` that land on the board and not on a friendly piece, in order. */
  function Leaps(g: Board, row: int, col: int, offsets: seq<(int, int)>, color: Color): (moves: seq<Square>)
    ensures forall s {:trigger s in moves} :: s in moves <==>
      OnBoard(s) && (s.row - row, s.col - col) in offsets && !HoldsColor(g, s, color)
  {
    if offsets == [] then []
    else
      var last := offsets[|offsets| - 1];
      var s := Square(row + last.0, col + last.1);
      Leaps(g, row, col, offsets[..|offsets| - 1], color) + (if OnBoard(s) && !HoldsColor(g, s, color) then [s] else [])
  }

  const KnightOffsets: seq<(int, int)> := [(-2, -1), (-2, 1), (-1, -2), (-1, 2), (1, -2), (1, 2), (2, -1), (2, 1)]
  const KingOffsets: seq<(int, int)> := [(-1, -1), (-1, 0), (-1, 1), (0, -1), (0, 1), (1, -1), (1, 0), (1, 1)]

  predicate IsKnightJump(dr: int, dc: int)
  {
    ((dr == 1 || dr == -1) && (dc == 2 || dc == -2)) || ((dr == 2 || dr == -2) && (dc == 1 || dc == -1))
  }

  predicate IsKingStep(dr: int, dc: int)
  {
    -1 <= dr <= 1 && -1 <= dc <= 1 && (dr != 0 || dc != 0)
  }

  /** Knight: the eight (1, 2) jumps that stay on the board and do not land on a friendly piece. */
  function KnightMoves(g: Board, row: int, col: int, color: Color): (moves: seq<Square>)
    ensures forall s {:trigger s in moves} :: s in moves <==>
      OnBoard(s) && IsKnightJump(s.row - row, s.col - col) && !HoldsColor(g, s, color)
  {
    Leaps(g, row, col, KnightOffsets, color)
  }

  /** King: the eight neighbouring squares under the same rule; no castling. */
  function KingMoves(g: Board, row: int, col: int, color: Color): (moves: seq<Square>)
    ensures forall s {:trigger s in moves} :: s in moves <==>
      OnBoard(s) && IsKingStep(s.row - row, s.col - col) && !HoldsColor(g, s, color)
  {
    Leaps(g, row, col, KingOffsets, color)
  }

  /**
   * The generator of the piece on `from`, called with that piece's colour;
   * an empty square has no moves.
   */
  function PseudoMoves(g: Board, from: Square): (moves: seq<Square>)
    requires OnBoard(from)
    ensures At(g, from).None? ==> moves == []
    ensures forall s {:trigger s in moves} :: s in moves ==>
      OnBoard(s) && s != from && At(g, from).Some? && !HoldsColor(g, s, At(g, from).value.color)
  {
    match At(g, from)
    case None => []
    case Some(p) =>
      match p.kind
      case Pawn => PawnMoves(g, from.row, from.col, p.color)
      case Rook => RookMoves(g, from.row, from.col, p.color)
      case Knight => KnightMoves(g, from.row, from.col, p.color)
      case Bishop => BishopMoves(g, from.row, from.col, p.color)
      case Queen => QueenMoves(g, from.row, from.col, p.color)
      case King => KingMoves(g, from.row, from.col, p.color)
  }

  /** The colour standing on `s`, or None for an empty square. */
  function SideAt(g: Board, s: Square): Option<Color>
    requires OnBoard(s)
  {
    match At(g, s)
    case None => None
    case Some(p) => Some(p.color)
  }

  /** Two positions with the same colour on every square; the kinds may differ. */
  ghost predicate SameSides(g: Board, h: Board)
  {
    forall s {:trigger SideAt(g, s)} {:trigger SideAt(h, s)} | OnBoard(s) :: SideAt(g, s) == SideAt(h, s)
  }

  /** Emptiness, friendliness and enmity of a square depend on its colour alone. */
  lemma SquareTests(g: Board, h: Board, s: Square, color: Color)
    requires SameSides(g, h) && OnBoard(s)
    ensures IsEmpty(g, s) == IsEmpty(h, s)
    ensures HoldsColor(g, s, color) == HoldsColor(h, s, color)
    ensures IsEnemy(g, s, color) == IsEnemy(h, s, color)
  {
    assert SideAt(g, s) == SideAt(h, s);
  }

  /** A ray sees only colours, so it is the same on positions with the same sides. */
  lemma {:induction false} RayFromSameSides(g: Board, h: Board, cur: Square, dr: int, dc: int, color: Color, step: int)
    requires SameSides(g, h)
    decreases 8 - step
    ensures RayFrom(g, cur, dr, dc, color, step) == RayFrom(h, cur, dr, dc, color, step)
  {
    if step < 8 && OnBoard(cur) {
      SquareTests(g, h, cur, color);
      RayFromSameSides(g, h, Advance(cur, dr, dc), dr, dc, color, step + 1);
    }
  }

  lemma {:induction false} LeapsSameSides(g: Board, h: Board, row: int, col: int, offsets: seq<(int, int)>, color: Color)
    requires SameSides(g, h)
    ensures Leaps(g, row, col, offsets, color) == Leaps(h, row, col, offsets, color)
  {
    if offsets != [] {
      var last := offsets[|offsets| - 1];
      var s := Square(row + last.0, col + last.1);
      if OnBoard(s) {
        SquareTests(g, h, s, color);
      }
      LeapsSameSides(g, h, row, col, offsets[..|offsets| - 1], color);
    }
  }

  lemma RaySameSides(g: Board, h: Board, row: int, col: int, dr: int, dc: int, color: Color)
    requires SameSides(g, h)
    ensures Ray(g, row, col, dr, dc, color) == Ray(h, row, col, dr, dc, color)
  {
    RayFromSameSides(g, h, Square(row + dr, col + dc), dr, dc, color, 1);
  }

  lemma PawnMovesSameSides(g: Board, h: Board, row: int, col: int, color: Color)
    requires SameSides(g, h)
    ensures PawnMoves(g, row, col, color) == PawnMoves(h, row, col, color)
  {
    var d := Forward(color);
    var ahead, twoAhead := Square(row + d, col), Square(row + 2 * d, col);
    var left, right := Square(row + d, col - 1), Square(row + d, col + 1);
    if OnBoard(ahead) { SquareTests(g, h, ahead, color); }
    if OnBoard(twoAhead) { SquareTests(g, h, twoAhead, color); }
    if OnBoard(left) { SquareTests(g, h, left, color); }
    if OnBoard(right) { SquareTests(g, h, right, color); }
  }

  lemma RookMovesSameSides(g: Board, h: Board, row: int, col: int, color: Color)
    requires SameSides(g, h)
    ensures RookMoves(g, row, col, color) == RookMoves(h, row, col, color)
  {
    RaySameSides(g, h, row, col, 0, 1, color);
    RaySameSides(g, h, row, col, 0, -1, color);
    RaySameSides(g, h, row, col, 1, 0, color);
    RaySameSides(g, h, row, col, -1, 0, color);
  }

  lemma BishopMovesSameSides(g: Board, h: Board, row: int, col: int, color: Color)
    requires SameSides(g, h)
    ensures BishopMoves(g, row, col, color) == BishopMoves(h, row, col, color)
  {
    RaySameSides(g, h, row, col, 1, 1, color);
    RaySameSides(g, h, row, col, 1, -1, color);
    RaySameSides(g, h, row, col, -1, 1, color);
    RaySameSides(g, h, row, col, -1, -1, color);
  }

  /**
   * Move generation depends only on the kind of the moving piece and on which
   * colour stands on each square: positions that agree on colours and on the
   * piece at `from` give the same pseudo-legal moves, in the same order.
   */
  lemma PseudoMovesSameSides(g: Board, h: Board, from: Square)
    requires SameSides(g, h) && OnBoard(from) && At(g, from) == At(h, from)
    ensures PseudoMoves(g, from) == PseudoMoves(h, from)
  {
    if At(g, from).Some? {
      var p := At(g, from).value;
      match p.kind
      case Pawn => PawnMovesSameSides(g, h, from.row, from.col, p.color);
      case Rook => RookMovesSameSides(g, h, from.row, from.col, p.color);
      case Knight => LeapsSameSides(g, h, from.row, from.col, KnightOffsets, p.color);
      case Bishop => BishopMovesSameSides(g, h, from.row, from.col, p.color);
      case Queen =>
        RookMovesSameSides(g, h, from.row, from.col, p.color);
        BishopMovesSameSides(g, h, from.row, from.col, p.color);
      case King => LeapsSameSides(g, h, from.row, from.col, KingOffsets, p.color);
    }
  }
}

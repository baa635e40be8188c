/**
 * The board of the chess rule engine: colours, piece kinds, squares and the
 * 8x8 grid of optional pieces, together with the standard starting position.
 */
module ChessBoard {

  datatype Option<T> = None | Some(value: T)

  datatype Color = White | Black
  datatype Kind = Pawn | Rook | Knight | Bishop | Queen | King
  datatype Piece = Piece(kind: Kind, color: Color)

  /** A (row, col) pair; row 0 is black's back rank, row 7 is white's. */
  datatype Square = Square(row: int, col: int)

  function Opponent(c: Color): (o: Color)
    ensures o != c
  {
    if c == White then Black else White
  }

  predicate IsGrid(g: seq<seq<Option<Piece>>>)
  {
    |g| == 8 && forall r :: 0 <= r < 8 ==> |g[r]| == 8
  }

  /** A position: eight rows of eight optional occupants. */
  type Board = g: seq<seq<Option<Piece>>> | IsGrid(g)
    witness seq(8, _ => seq(8, _ => None))

  /** The bounds check every generator applies before it looks at a square. */
  predicate InBounds(row: int, col: int)
  {
    0 <= row < 8 && 0 <= col < 8
  }

  /** The bounds check admits exactly the cells of a position. */
  lemma InBoundsCells(g: Board, row: int, col: int)
    ensures InBounds(row, col) <==> 0 <= row < |g| && 0 <= col < |g[row]|
  {
  }

  predicate OnBoard(s: Square)
  {
    InBounds(s.row, s.col)
  }

  function At(g: Board, s: Square): Option<Piece>
    requires OnBoard(s)
  {
    g[s.row][s.col]
  }

  /** The position `g` with square `s` overwritten by `x`. */
  function Set(g: Board, s: Square, x: Option<Piece>): (r: Board)
    requires OnBoard(s)
    ensures At(r, s) == x
    ensures forall t {:trigger At(r, t)} | OnBoard(t) && t != s :: At(r, t) == At(g, t)
  {
    g[s.row := g[s.row][s.col := x]]
  }

  /** Two positions that agree on every square are the same position. */
  lemma BoardsEqual(g: Board, h: Board)
    requires forall s {:trigger At(g, s)} {:trigger At(h, s)} | OnBoard(s) :: At(g, s) == At(h, s)
    ensures g == h
  {
    forall r | 0 <= r < 8 ensures g[r] == h[r] {
      forall c | 0 <= c < 8 ensures g[r][c] == h[r][c] {
        assert At(g, Square(r, c)) == At(h, Square(r, c));
      }
    }
  }

  predicate IsEmpty(g: Board, s: Square)
    requires OnBoard(s)
  {
    At(g, s).None?
  }

  /** `s` holds a piece of colour `color`. */
  predicate HoldsColor(g: Board, s: Square, color: Color)
    requires OnBoard(s)
  {
    At(g, s).Some? && At(g, s).value.color == color
  }

  /** `s` holds a piece whose colour differs from `color`. */
  predicate IsEnemy(g: Board, s: Square, color: Color)
    requires OnBoard(s)
  {
    At(g, s).Some? && At(g, s).value.color != color
  }

  predicate IsKingOf(g: Board, s: Square, color: Color)
    requires OnBoard(s)
  {
    At(g, s) == Some(Piece(King, color))
  }

  /** Row-major order, the order in which the engine scans the grid. */
  predicate Precedes(a: Square, b: Square)
  {
    a.row < b.row || (a.row == b.row && a.col < b.col)
  }

  /** The order of pieces on both back ranks, from file a to file h. */
  const BackRow: seq<Kind> := [Rook, Knight, Bishop, Queen, King, Bishop, Knight, Rook]

  /** The occupant of (row, col) in the standard starting position. */
  function StartCell(row: int, col: int): Option<Piece>
    requires InBounds(row, col)
  {
    if row == 0 then Some(Piece(BackRow[col], Black))
    else if row == 1 then Some(Piece(Pawn, Black))
    else if row == 6 then Some(Piece(Pawn, White))
    else if row == 7 then Some(Piece(BackRow[col], White))
    else None
  }

  function InitialBoard(): (g: Board)
    ensures forall s {:trigger At(g, s)} | OnBoard(s) :: At(g, s) == StartCell(s.row, s.col)
  {
    seq(8, r requires 0 <= r < 8 => seq(8, c requires 0 <= c < 8 => StartCell(r, c)))
  }

  /** The starting position has exactly one king of each colour, on file e. */
  lemma InitialKings(s: Square, color: Color)
    requires OnBoard(s)
    ensures IsKingOf(InitialBoard(), s, color) <==>
            s == (if color == White then Square(7, 4) else Square(0, 4))
  {
  }
}

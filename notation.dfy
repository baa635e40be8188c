/**
 * The simplified algebraic label of a committed move and the ledger of move
 * records, one record per white move and its black reply.
 */
module MoveRecords {
  import opened ChessBoard

  const Files: string := "abcdefgh"
  const Ranks: string := "87654321"

  /** The name the engine gives each kind of piece. */
  function KindName(k: Kind): string
  {
    match k
    case Pawn => "pawn"
    case Rook => "rook"
    case Knight => "knight"
    case Bishop => "bishop"
    case Queen => "queen"
    case King => "king"
  }

  function ToUpper(c: char): char
  {
    if 'a' <= c <= 'z' then (c as int - 'a' as int + 'A' as int) as char else c
  }

  /** The piece letter: the upper-cased first letter of the kind's name, none for a pawn. */
  function PieceLetter(k: Kind): (letter: string)
    ensures k == Pawn <==> letter == ""
    ensures k != Pawn ==> |letter| == 1 && 'A' <= letter[0] <= 'Z'
    ensures letter == match k
      case Pawn => "" case Rook => "R" case Knight => "K" case Bishop => "B" case Queen => "Q" case King => "K"
  {
    if k == Pawn then "" else [ToUpper(KindName(k)[0])]
  }

  /**
   * The label of a move: piece letter, then for a capture the origin file (pawns
   * only) and "x", then the destination file and rank. No disambiguation, no
   * check suffix, no promotion suffix.
   */
  function MoveNotation(piece: Piece, fromRow: int, fromCol: int, toRow: int, toCol: int,
                        captured: Option<Piece>): (n: string)
    requires InBounds(fromRow, fromCol) && InBounds(toRow, toCol)
    ensures 2 <= |n| <= 4
    ensures n[|n| - 2] == Files[toCol] && n[|n| - 1] == Ranks[toRow]
    ensures 'x' in n <==> captured.Some?
  {
    PieceLetter(piece.kind)
    + (if captured.Some? then (if piece.kind == Pawn then [Files[fromCol]] else []) + "x" else "")
    + [Files[toCol], Ranks[toRow]]
  }

  /** What a label says about its move. */
  datatype Label = Label(letter: string, originFile: Option<int>, capture: bool, toRow: int, toCol: int)

  function FileIndex(c: char): Option<int>
  {
    if 'a' <= c <= 'h' then Some(c as int - 'a' as int) else None
  }

  function RankIndex(c: char): Option<int>
  {
    if '1' <= c <= '8' then Some('8' as int - c as int) else None
  }

  /** Reads a label back: the inverse of MoveNotation. */
  function ParseNotation(n: string): Option<Label>
  {
    if |n| < 2 then None
    else
      var toCol := FileIndex(n[|n| - 2]);
      var toRow := RankIndex(n[|n| - 1]);
      var prefix := n[..|n| - 2];
      var capture := |prefix| > 0 && prefix[|prefix| - 1] == 'x';
      var head := if capture then prefix[..|prefix| - 1] else prefix;
      if toCol.None? || toRow.None? then None
      else if head == [] then Some(Label("", None, capture, toRow.value, toCol.value))
      else if |head| == 1 && 'A' <= head[0] <= 'Z' then Some(Label(head, None, capture, toRow.value, toCol.value))
      else if |head| == 1 && capture && FileIndex(head[0]).Some? then
        Some(Label("", FileIndex(head[0]), true, toRow.value, toCol.value))
      else None
  }

  /** The label a move should carry. */
  function LabelOf(piece: Piece, fromCol: int, toRow: int, toCol: int, captured: Option<Piece>): Label
  {
    Label(PieceLetter(piece.kind),
          if piece.kind == Pawn && captured.Some? then Some(fromCol) else None,
          captured.Some?, toRow, toCol)
  }

  /** Every label reads back as the move it was made from: the kind letter, capture, origin file of a pawn capture and destination. */
  lemma NotationRoundTrip(piece: Piece, fromRow: int, fromCol: int, toRow: int, toCol: int, captured: Option<Piece>)
    requires InBounds(fromRow, fromCol) && InBounds(toRow, toCol)
    ensures ParseNotation(MoveNotation(piece, fromRow, fromCol, toRow, toCol, captured))
            == Some(LabelOf(piece, fromCol, toRow, toCol, captured))
  {
    var n := MoveNotation(piece, fromRow, fromCol, toRow, toCol, captured);
    var letter := PieceLetter(piece.kind);
    var middle := if captured.Some? then (if piece.kind == Pawn then [Files[fromCol]] else []) + "x" else "";
    assert n == letter + middle + [Files[toCol], Ranks[toRow]];
    var prefix := n[..|n| - 2];
    assert prefix == letter + middle;
    assert FileIndex(Files[toCol]) == Some(toCol);
    assert RankIndex(Ranks[toRow]) == Some(toRow);
    if captured.Some? {
      assert prefix[..|prefix| - 1] == letter + (if piece.kind == Pawn then [Files[fromCol]] else []);
      assert FileIndex(Files[fromCol]) == Some(fromCol);
    } else {
      assert prefix == letter;
      assert |prefix| > 0 ==> prefix[|prefix| - 1] != 'x';
      if piece.kind == Pawn {
        assert prefix == [];
      } else {
        assert |prefix| == 1 && 'A' <= prefix[0] <= 'Z';
      }
    }
  }

  /** The engine prints knights and kings alike: both names start with 'k'. */
  lemma KnightAndKingShareLetter(color: Color, fromRow: int, fromCol: int, toRow: int, toCol: int, captured: Option<Piece>)
    requires InBounds(fromRow, fromCol) && InBounds(toRow, toCol)
    ensures MoveNotation(Piece(Knight, color), fromRow, fromCol, toRow, toCol, captured)
         == MoveNotation(Piece(King, color), fromRow, fromCol, toRow, toCol, captured)
  {
  }

  /** One line of the ledger; `black` stays "" until black replies. */
  datatype MoveRecord = MoveRecord(number: int, white: string, black: string)

  /**
   * The ledger invariant: records are numbered 1, 2, ...; every record but an
   * open last one (white has moved, black not yet) is complete; and the move
   * counter is the number of the record the next white move opens.
   */
  predicate LedgerValid(history: seq<MoveRecord>, moveCount: int, toMove: Color)
  {
    && (forall i :: 0 <= i < |history| ==> history[i].number == i + 1 && history[i].white != "")
    && (toMove == White ==>
          |history| == moveCount - 1 && forall i :: 0 <= i < |history| ==> history[i].black != "")
    && (toMove == Black ==>
          |history| == moveCount && |history| > 0 && history[|history| - 1].black == ""
          && forall i :: 0 <= i < |history| - 1 ==> history[i].black != "")
  }

  /** The labels of all moves in the ledger, in the order they were played. */
  function Plies(history: seq<MoveRecord>): seq<string>
  {
    if history == [] then []
    else
      var last := history[|history| - 1];
      Plies(history[..|history| - 1]) + [last.white] + (if last.black == "" then [] else [last.black])
  }

  /**
   * The ledger after `mover` plays a move labelled `notation`: white opens a
   * record numbered `moveCount`; black fills the open record and advances the
   * counter.
   */
  function Recorded(history: seq<MoveRecord>, moveCount: int, mover: Color, notation: string)
    : (r: (seq<MoveRecord>, int))
    requires LedgerValid(history, moveCount, mover) && notation != ""
    ensures LedgerValid(r.0, r.1, Opponent(mover))
    ensures Plies(r.0) == Plies(history) + [notation]
    ensures |r.0| >= |history| && forall i :: 0 <= i < |history| && history[i].black != "" ==> r.0[i] == history[i]
  {
    if mover == White then
      var h := history + [MoveRecord(moveCount, notation, "")];
      assert h[..|h| - 1] == history;
      (h, moveCount)
    else
      var last := history[|history| - 1];
      var h := history[..|history| - 1] + [last.(black := notation)];
      assert h[..|h| - 1] == history[..|history| - 1];
      (h, moveCount + 1)
  }

  /** In a valid ledger the counter and the side to move fix how many moves were played. */
  lemma {:induction false} PlyCount(history: seq<MoveRecord>, moveCount: int, toMove: Color)
    requires LedgerValid(history, moveCount, toMove)
    ensures |Plies(history)| == 2 * (moveCount - 1) + (if toMove == Black then 1 else 0)
  {
    if history != [] {
      var init := history[..|history| - 1];
      var count := if toMove == White then moveCount - 1 else moveCount;
      assert LedgerValid(init, count, White);
      PlyCount(init, count, White);
    }
  }
}

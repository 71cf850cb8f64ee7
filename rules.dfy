/** What committing a move does beyond generating it: the board after `make_move`, the
    rook jump of `castling_move`, the pawn removal of `en_passant_move`, the promotion
    choice, the en-passant record of `check_en_passant`, the castling flags, and the
    king re-scan that the caller runs after every move. */
module Rules {
  import opened Pieces
  import opened Notation
  import opened Generation

  // ---------------------------------------------------------------------------------
  // make_move.

  /** `make_move` on the board: the start square is emptied, then the moved piece is
      written on the end square; no other square changes. */
  function MoveBoard(b: Board, m: Move): (b': Board)
    requires WellFormed(b) && SquaresOnBoard(m)
    ensures WellFormed(b')
    ensures b'[m.endRow][m.endCol] == m.pieceMoved
    ensures (m.startRow, m.startCol) != (m.endRow, m.endCol) ==> b'[m.startRow][m.startCol] == Empty
    ensures forall r, c :: OnBoard(r, c) && (r, c) != (m.startRow, m.startCol) && (r, c) != (m.endRow, m.endCol) ==>
      b'[r][c] == b[r][c]
  {
    Set(Set(b, m.startRow, m.startCol, Empty), m.endRow, m.endCol, m.pieceMoved)
  }

  /** The castling flags of side `c` after `make_move`: a king move sets the king flag, a
      rook leaving column 0 (7) sets the queen-side (king-side) rook flag. Flags only rise. */
  function MovedFlags(f: SideFlags, c: Color, m: Move): (g: SideFlags)
    ensures f.kingMoved ==> g.kingMoved
    ensures f.kingRookMoved ==> g.kingRookMoved
    ensures f.queenRookMoved ==> g.queenRookMoved
    ensures g.kingMoved <==> f.kingMoved || m.pieceMoved == Occupied(c, King)
  {
    SideFlags(f.kingMoved || m.pieceMoved == Occupied(c, King),
              f.kingRookMoved || (m.pieceMoved == Occupied(c, Rook) && m.startCol == 7),
              f.queenRookMoved || (m.pieceMoved == Occupied(c, Rook) && m.startCol == 0))
  }

  // ---------------------------------------------------------------------------------
  // castling_move.

  datatype Side = KingSide | QueenSide

  /** The castling a logged move triggers: a king of colour `c` moving from column 4 to
      column 6 (king side) or 2 (queen side); the rows are not looked at. */
  function CastlingOf(m: Move): Option<(Color, Side)> {
    if m.pieceMoved.Occupied? && m.pieceMoved.kind == King && m.startCol == 4 && (m.endCol == 6 || m.endCol == 2) then
      Some((m.pieceMoved.color, if m.endCol == 6 then KingSide else QueenSide))
    else None
  }

  function RookFrom(s: Side): int {
    if s == KingSide then 7 else 0
  }

  function RookTo(s: Side): int {
    if s == KingSide then 5 else 3
  }

  /** The rook jump of a castling: on the castling colour's back rank the corner square of
      that side is emptied and a rook of that colour is put next to the king's home. */
  function CastleRook(b: Board, m: Move): (b': Board)
    requires WellFormed(b)
    ensures WellFormed(b')
    ensures CastlingOf(m) == None ==> b' == b
  {
    match CastlingOf(m)
    case None => b
    case Some(cs) =>
      Set(Set(b, Home(cs.0).0, RookFrom(cs.1), Empty), Home(cs.0).0, RookTo(cs.1), Occupied(cs.0, Rook))
  }

  /** The rook jump case by case, as `castling_move` tests the logged king's code and columns. */
  lemma CastleRookCases(b: Board, m: Move)
    requires WellFormed(b)
    ensures var k := m.startCol == 4 && (m.endCol == 6 || m.endCol == 2);
      && (k && m.pieceMoved == Occupied(White, King) && m.endCol == 6 ==>
            CastleRook(b, m) == Set(Set(b, 7, 7, Empty), 7, 5, Occupied(White, Rook)))
      && (k && m.pieceMoved == Occupied(White, King) && m.endCol == 2 ==>
            CastleRook(b, m) == Set(Set(b, 7, 0, Empty), 7, 3, Occupied(White, Rook)))
      && (k && m.pieceMoved == Occupied(Black, King) && m.endCol == 6 ==>
            CastleRook(b, m) == Set(Set(b, 0, 7, Empty), 0, 5, Occupied(Black, Rook)))
      && (k && m.pieceMoved == Occupied(Black, King) && m.endCol == 2 ==>
            CastleRook(b, m) == Set(Set(b, 0, 0, Empty), 0, 3, Occupied(Black, Rook)))
      && (!k || (m.pieceMoved != Occupied(White, King) && m.pieceMoved != Occupied(Black, King)) ==>
            CastleRook(b, m) == b)
  {
  }

  /** `castling_move` marks the rook of the castling side as moved. */
  function CastledFlags(f: SideFlags, c: Color, m: Move): (g: SideFlags)
    ensures g.kingMoved == f.kingMoved
    ensures f.kingRookMoved ==> g.kingRookMoved
    ensures f.queenRookMoved ==> g.queenRookMoved
  {
    match CastlingOf(m)
    case None => f
    case Some(cs) =>
      if cs.0 != c then f
      else if cs.1 == KingSide then f.(kingRookMoved := true)
      else f.(queenRookMoved := true)
  }

  /** A castling move as the king generator produces it (king on its home square, two
      columns sideways along the back rank), followed by the rook jump, leaves the king on
      column 6 (2) with its rook on column 5 (3) and the king's and the corner's squares empty. */
  lemma CastlingCompletes(b: Board, m: Move, c: Color)
    requires WellFormed(b) && BuiltFrom(m, b) && m.pieceMoved == Occupied(c, King)
    requires (m.startRow, m.startCol) == Home(c) && m.endRow == Home(c).0 && (m.endCol == 6 || m.endCol == 2)
    ensures var after := CastleRook(MoveBoard(b, m), m);
      var r := Home(c).0;
      var s := if m.endCol == 6 then KingSide else QueenSide;
      && after[r][m.endCol] == Occupied(c, King)
      && after[r][RookTo(s)] == Occupied(c, Rook)
      && after[r][4] == Empty
      && after[r][RookFrom(s)] == Empty
  {
    var s := if m.endCol == 6 then KingSide else QueenSide;
    assert CastlingOf(m) == Some((c, s));
  }

  // ---------------------------------------------------------------------------------
  // en_passant_move and check_en_passant.

  /** `en_passant_move` on the board: while an en-passant record is open, a pawn (of either
      colour) landing on its target square removes the pawn on the record's capture square. */
  function EnPassantCapture(b: Board, ep: EnPassant, m: Move): (b': Board)
    requires WellFormed(b)
    requires ep.EnPassantAt? ==> OnBoard(ep.captured.0, ep.captured.1)
    ensures WellFormed(b')
    ensures ep.EnPassantAt? && m.pieceMoved.Occupied? && m.pieceMoved.kind == Pawn && (m.endRow, m.endCol) == ep.target ==>
      b'[ep.captured.0][ep.captured.1] == Empty
  {
    if ep.EnPassantAt? && m.pieceMoved.Occupied? && m.pieceMoved.kind == Pawn && (m.endRow, m.endCol) == ep.target then
      Set(b, ep.captured.0, ep.captured.1, Empty)
    else b
  }

  predicate DoublePush(m: Move) {
    m.pieceMoved.Occupied? && m.pieceMoved.kind == Pawn &&
    ((m.startRow == 6 && m.endRow == 4) || (m.startRow == 1 && m.endRow == 3))
  }

  /** `check_en_passant`: after a two-square pawn advance from either starting row, the
      square passed over becomes the target and the advanced pawn the one to capture. */
  function EnPassantFrom(m: Move): (ep: EnPassant)
    ensures ep.EnPassantAt? <==> DoublePush(m)
    ensures ep.EnPassantAt? ==>
      && ep.captured == (m.endRow, m.endCol)
      && ep.target.1 == m.startCol
      && (m.startRow < ep.target.0 < m.endRow || m.endRow < ep.target.0 < m.startRow)
  {
    if DoublePush(m) then EnPassantAt(((m.startRow + m.endRow) / 2, m.startCol), (m.endRow, m.endCol))
    else NoEnPassant
  }

  // ---------------------------------------------------------------------------------
  // check_promotion and the promotion choice.

  /** `check_promotion`: a pawn that reaches row 0 or row 7 is to be promoted there. */
  function PromotionSquare(m: Move): (sq: Option<Square>)
    ensures sq.Some? <==> m.pieceMoved.Occupied? && m.pieceMoved.kind == Pawn && (m.endRow == 0 || m.endRow == 7)
    ensures sq.Some? ==> sq.value == (m.endRow, m.endCol)
  {
    if m.pieceMoved.Occupied? && m.pieceMoved.kind == Pawn && (m.endRow == 0 || m.endRow == 7) then
      Some((m.endRow, m.endCol))
    else None
  }

  /** The four pieces the player may pick. */
  predicate PromotionChoice(k: Kind) {
    k == Queen || k == Rook || k == Bishop || k == Knight
  }

  /** The colour of the promoted piece follows the row: row 0 gets a white piece, row 7 a
      black one. */
  function PromotionColor(row: int): Color {
    if row == 0 then White else Black
  }

  /** The board after the promotion (if any) that `m` triggers, with `choice` picked. */
  function PromoteAt(b: Board, m: Move, choice: Kind): (b': Board)
    requires WellFormed(b) && SquaresOnBoard(m)
    ensures WellFormed(b')
    ensures PromotionSquare(m).Some? ==> b'[m.endRow][m.endCol] == Occupied(PromotionColor(m.endRow), choice)
  {
    match PromotionSquare(m)
    case None => b
    case Some(sq) => Set(b, sq.0, sq.1, Occupied(PromotionColor(sq.0), choice))
  }

  /** A pawn of the side that reaches the far rank (row 0 for White, row 7 for Black) is
      replaced by the chosen piece of its own colour. */
  lemma PromotionKeepsColor(b: Board, m: Move, choice: Kind, c: Color)
    requires WellFormed(b) && SquaresOnBoard(m) && m.pieceMoved == Occupied(c, Pawn)
    requires m.endRow == (if c == White then 0 else 7)
    ensures PromoteAt(b, m, choice)[m.endRow][m.endCol] == Occupied(c, choice)
  {
  }

  // ---------------------------------------------------------------------------------
  // Kings.

  /** The king re-scan after a move: visiting the cells from `(r, col)` on in row-major
      order, `loc` becomes the square of each king of colour `c` met. (The board in the
      termination measure keeps the verifier from unrolling the scan at constant indices.) */
  function KingScan(b: Board, c: Color, r: int, col: int, loc: Square): Square
    requires WellFormed(b) && 0 <= r <= 8 && 0 <= col <= 8
    decreases 8 - r, 8 - col, b
  {
    if r == 8 then loc
    else if col == 8 then KingScan(b, c, r + 1, 0, loc)
    else KingScan(b, c, r, col + 1, if b[r][col] == Occupied(c, King) then (r, col) else loc)
  }

  /** No king of colour `c` on the cells before `(r, col)` in row-major order. */
  predicate NoKingBefore(b: Board, c: Color, r: int, col: int)
    requires WellFormed(b)
  {
    forall r', c' :: 0 <= r' < 8 && 0 <= c' < 8 && (r' < r || (r' == r && c' < col)) ==> !KingOn(b, c, r', c')
  }

  /** When all kings of colour `c` stand on `sq`, the re-scan ends on `sq`, or, when no such
      king is on the board at all, keeps the location it started from. */
  lemma {:induction false} KingScanLocates(b: Board, c: Color, r: int, col: int, loc: Square, sq: Square)
    requires WellFormed(b) && 0 <= r <= 8 && 0 <= col <= 8 && KingsAt(b, c, sq)
    requires loc == sq || NoKingBefore(b, c, r, col)
    ensures var s := KingScan(b, c, r, col, loc);
      s == sq || (s == loc && NoKingBefore(b, c, 8, 0))
    decreases 8 - r, 8 - col
  {
    if r < 8 {
      if col == 8 {
        KingScanLocates(b, c, r + 1, 0, loc, sq);
      } else {
        var loc' := if b[r][col] == Occupied(c, King) then (r, col) else loc;
        if b[r][col] == Occupied(c, King) {
          assert KingOn(b, c, r, col);
        }
        KingScanLocates(b, c, r, col + 1, loc', sq);
      }
    }
  }

  /** A board without a king of colour `c` has all its (no) kings of that colour anywhere. */
  lemma NoKingsAnywhere(b: Board, c: Color, sq: Square)
    requires WellFormed(b) && NoKingBefore(b, c, 8, 0)
    ensures KingsAt(b, c, sq)
  {
  }

  /** Writing anything but a king of colour `c` keeps the kings of colour `c` where they were. */
  lemma SetKeepsKings(b: Board, r: int, col: int, p: Piece, c: Color, sq: Square)
    requires WellFormed(b) && OnBoard(r, col) && KingsAt(b, c, sq) && p != Occupied(c, King)
    ensures KingsAt(Set(b, r, col, p), c, sq)
  {
    var b' := Set(b, r, col, p);
    forall r', c' | 0 <= r' < 8 && 0 <= c' < 8 && KingOn(b', c, r', c') ensures (r', c') == sq {
      assert KingOn(b, c, r', c');
    }
  }

  /** After `make_move` with a move built from the board, the kings of each colour stand on
      the end square when the moved piece is that colour's king, and where they stood
      otherwise. */
  lemma MoveKeepsKings(b: Board, m: Move, c: Color, sq: Square)
    requires WellFormed(b) && BuiltFrom(m, b) && KingsAt(b, c, sq)
    ensures KingsAt(MoveBoard(b, m), c, if m.pieceMoved == Occupied(c, King) then (m.endRow, m.endCol) else sq)
  {
    var b' := MoveBoard(b, m);
    var target := if m.pieceMoved == Occupied(c, King) then (m.endRow, m.endCol) else sq;
    forall r', c' | 0 <= r' < 8 && 0 <= c' < 8 && KingOn(b', c, r', c') ensures (r', c') == target {
      if (r', c') != (m.endRow, m.endCol) {
        assert KingOn(b, c, r', c');
        if m.pieceMoved == Occupied(c, King) {
          assert KingOn(b, c, m.startRow, m.startCol);
        }
      }
    }
  }

  lemma CastleRookKeepsKings(b: Board, m: Move, c: Color, sq: Square)
    requires WellFormed(b) && KingsAt(b, c, sq)
    ensures KingsAt(CastleRook(b, m), c, sq)
  {
    match CastlingOf(m)
    case None =>
    case Some(cs) =>
      SetKeepsKings(b, Home(cs.0).0, RookFrom(cs.1), Empty, c, sq);
      SetKeepsKings(Set(b, Home(cs.0).0, RookFrom(cs.1), Empty), Home(cs.0).0, RookTo(cs.1), Occupied(cs.0, Rook), c, sq);
  }

  lemma CaptureKeepsKings(b: Board, ep: EnPassant, m: Move, c: Color, sq: Square)
    requires WellFormed(b) && KingsAt(b, c, sq)
    requires ep.EnPassantAt? ==> OnBoard(ep.captured.0, ep.captured.1)
    ensures KingsAt(EnPassantCapture(b, ep, m), c, sq)
  {
    if ep.EnPassantAt? {
      SetKeepsKings(b, ep.captured.0, ep.captured.1, Empty, c, sq);
    }
  }

  lemma PromoteKeepsKings(b: Board, m: Move, choice: Kind, c: Color, sq: Square)
    requires WellFormed(b) && SquaresOnBoard(m) && KingsAt(b, c, sq) && PromotionChoice(choice)
    ensures KingsAt(PromoteAt(b, m, choice), c, sq)
  {
    match PromotionSquare(m)
    case None =>
    case Some(s) => SetKeepsKings(b, s.0, s.1, Occupied(PromotionColor(s.0), choice), c, sq);
  }

  /** In the starting position the only white king is on (7, 4) and the only black king on (0, 4). */
  lemma InitialKings()
    ensures KingsAt(InitialBoard(), White, Home(White))
    ensures KingsAt(InitialBoard(), Black, Home(Black))
  {
    var b := InitialBoard();
    forall r, c | 0 <= r < 8 && 0 <= c < 8
      ensures KingOn(b, White, r, c) ==> (r, c) == Home(White)
      ensures KingOn(b, Black, r, c) ==> (r, c) == Home(Black)
    {
      assert b[r] == (if r == 0 then BackRank(Black) else if r == 1 then PawnRank(Black)
                      else if r == 6 then PawnRank(White) else if r == 7 then BackRank(White) else EmptyRank());
    }
  }
  // ---------------------------------------------------------------------------------
  // The whole post-move sequence.

  /** The board after the caller's post-move sequence: `make_move`, the rook jump of a
      castling, the en-passant removal against the record open before the move, then the
      promotion with `choice` picked. */
  function CommittedBoard(b: Board, ep: EnPassant, m: Move, choice: Kind): (b': Board)
    requires WellFormed(b) && SquaresOnBoard(m)
    requires ep.EnPassantAt? ==> OnBoard(ep.captured.0, ep.captured.1)
    ensures WellFormed(b')
  {
    PromoteAt(EnPassantCapture(CastleRook(MoveBoard(b, m), m), ep, m), m, choice)
  }

  /** The king re-scan after a move built from the board finds the king of colour `c`
      where the move left it (on the end square if it is that king that moved, otherwise
      where it was), and every king of that colour still stands there once the whole
      sequence has run. */
  lemma CommitKeepsKings(b: Board, ep: EnPassant, m: Move, choice: Kind, c: Color, loc: Square)
    requires WellFormed(b) && BuiltFrom(m, b) && KingsAt(b, c, loc) && OnBoard(loc.0, loc.1)
    requires ep.EnPassantAt? ==> OnBoard(ep.captured.0, ep.captured.1)
    requires PromotionChoice(choice)
    ensures var s := KingScan(MoveBoard(b, m), c, 0, 0, loc);
      && OnBoard(s.0, s.1)
      && KingsAt(CommittedBoard(b, ep, m, choice), c, s)
      && (m.pieceMoved != Occupied(c, King) ==> s == loc)
      && (m.pieceMoved == Occupied(c, King) ==> s == (m.endRow, m.endCol))
  {
    var b1 := MoveBoard(b, m);
    var t := if m.pieceMoved == Occupied(c, King) then (m.endRow, m.endCol) else loc;
    MoveKeepsKings(b, m, c, loc);
    KingScanLocates(b1, c, 0, 0, loc, t);
    var s := KingScan(b1, c, 0, 0, loc);
    if s != t {
      NoKingsAnywhere(b1, c, s);
      if m.pieceMoved == Occupied(c, King) {
        assert KingOn(b1, c, m.endRow, m.endCol);
      }
    }
    var b2 := CastleRook(b1, m);
    var b3 := EnPassantCapture(b2, ep, m);
    CastleRookKeepsKings(b1, m, c, s);
    CaptureKeepsKings(b2, ep, m, c, s);
    PromoteKeepsKings(b3, m, choice, c, s);
  }

  /** Beyond what `make_move` changed, the post-move sequence touches only the two rook
      squares of a castling, the capture square of an open en-passant record (which it
      empties) and the square of a promotion. */
  lemma CommitTouchesOnly(b: Board, ep: EnPassant, m: Move, choice: Kind, r: int, col: int)
    requires WellFormed(b) && SquaresOnBoard(m) && OnBoard(r, col)
    requires ep.EnPassantAt? ==> OnBoard(ep.captured.0, ep.captured.1)
    requires CommittedBoard(b, ep, m, choice)[r][col] != MoveBoard(b, m)[r][col]
    ensures
      || (CastlingOf(m).Some? && r == Home(CastlingOf(m).value.0).0 &&
          (col == RookFrom(CastlingOf(m).value.1) || col == RookTo(CastlingOf(m).value.1)))
      || (ep.EnPassantAt? && (r, col) == ep.captured && CommittedBoard(b, ep, m, choice)[r][col] == Empty)
      || (PromotionSquare(m).Some? && (r, col) == (m.endRow, m.endCol))
  {
    var b1 := MoveBoard(b, m);
    var b2 := CastleRook(b1, m);
    var b3 := EnPassantCapture(b2, ep, m);
    var b4 := PromoteAt(b3, m, choice);
    if b4[r][col] == b3[r][col] && b3[r][col] != b2[r][col] {
      assert ep.EnPassantAt? && (r, col) == ep.captured;
    } else if b4[r][col] == b3[r][col] && b3[r][col] == b2[r][col] {
      assert CastlingOf(m).Some?;
    }
  }

  /** After a two-square pawn advance over an empty square, the square passed over, which
      becomes the en-passant target, is still empty once the whole sequence has run. */
  lemma CommitKeepsTargetVacant(b: Board, ep: EnPassant, m: Move, choice: Kind)
    requires WellFormed(b) && SquaresOnBoard(m)
    requires ep.EnPassantAt? ==> OnBoard(ep.captured.0, ep.captured.1)
    requires DoublePush(m) ==> m.endCol == m.startCol && b[(m.startRow + m.endRow) / 2][m.startCol] == Empty
    ensures TargetVacant(CommittedBoard(b, ep, m, choice), EnPassantFrom(m))
  {
    if DoublePush(m) {
      var t := ((m.startRow + m.endRow) / 2, m.startCol);
      assert EnPassantFrom(m).target == t;
      assert MoveBoard(b, m)[t.0][t.1] == Empty;
      if CommittedBoard(b, ep, m, choice)[t.0][t.1] != MoveBoard(b, m)[t.0][t.1] {
        CommitTouchesOnly(b, ep, m, choice, t.0, t.1);
      }
    }
  }
}

/** The `Move` value of the chess engine: two squares, the piece that moves and the piece
    it captures, its integer identity and its algebraic notation. */
module Notation {
  import opened Pieces

  /** A move records the board's cells at its two squares when it is built. */
  datatype Move = Move(startRow: int, startCol: int, endRow: int, endCol: int,
                       pieceMoved: Piece, pieceCaptured: Piece)

  predicate SquaresOnBoard(m: Move) {
    OnBoard(m.startRow, m.startCol) && OnBoard(m.endRow, m.endCol)
  }

  /** `Move(start_square, end_square, board)`. */
  function NewMove(start: Square, end: Square, b: Board): (m: Move)
    requires WellFormed(b) && OnBoard(start.0, start.1) && OnBoard(end.0, end.1)
    ensures BuiltFrom(m, b)
    ensures (m.startRow, m.startCol) == start && (m.endRow, m.endCol) == end
  {
    Move(start.0, start.1, end.0, end.1, b[start.0][start.1], b[end.0][end.1])
  }

  /** A move as the given board would build it: its pieces are the board's cells. */
  predicate BuiltFrom(m: Move, b: Board)
    requires WellFormed(b)
  {
    SquaresOnBoard(m) &&
    m.pieceMoved == b[m.startRow][m.startCol] && m.pieceCaptured == b[m.endRow][m.endCol]
  }

  function MoveId(m: Move): int {
    m.startRow * 1000 + m.startCol * 100 + m.endRow * 10 + m.endCol
  }

  /** `Move.__eq__`: two moves are equal when their identities are. */
  predicate MovesEqual(a: Move, b: Move) {
    MoveId(a) == MoveId(b)
  }

  /** The identity of an on-board move spells out its four coordinates as decimal digits. */
  lemma MoveIdDigits(m: Move)
    requires SquaresOnBoard(m)
    ensures 0 <= MoveId(m) < 10000
    ensures MoveId(m) / 1000 == m.startRow
    ensures MoveId(m) / 100 % 10 == m.startCol
    ensures MoveId(m) / 10 % 10 == m.endRow
    ensures MoveId(m) % 10 == m.endCol
  {
    var a, b, c, d := m.startRow, m.startCol, m.endRow, m.endCol;
    var id := MoveId(m);
    assert id == ((a * 10 + b) * 10 + c) * 10 + d;
    DivModDigit(id, (a * 10 + b) * 10 + c, d);
    DivModDigit((a * 10 + b) * 10 + c, a * 10 + b, c);
    DivModDigit(a * 10 + b, a, b);
    DivOfDiv(id, 10, 100);
    DivOfDiv(id, 100, 1000);
  }

  lemma DivModDigit(n: int, q: int, d: int)
    requires 0 <= d < 10 && 0 <= q && n == q * 10 + d
    ensures n / 10 == q && n % 10 == d
  {
  }

  lemma DivOfDiv(n: int, a: int, b: int)
    requires 0 <= n && ((a == 10 && b == 100) || (a == 100 && b == 1000))
    ensures n / a / 10 == n / b
  {
  }

  /** Two on-board moves are equal exactly when their start and end squares coincide:
      the moved and captured pieces play no part. */
  lemma MovesEqualIffSameSquares(a: Move, b: Move)
    requires SquaresOnBoard(a) && SquaresOnBoard(b)
    ensures MovesEqual(a, b) <==>
      (a.startRow, a.startCol, a.endRow, a.endCol) == (b.startRow, b.startCol, b.endRow, b.endCol)
  {
    MoveIdDigits(a);
    MoveIdDigits(b);
  }

  /** Two moves built from the same board are equal exactly when they are the same value. */
  lemma MovesEqualBuiltFrom(a: Move, b: Move, brd: Board)
    requires WellFormed(brd) && BuiltFrom(a, brd) && BuiltFrom(b, brd)
    ensures MovesEqual(a, b) <==> a == b
  {
    MovesEqualIffSameSquares(a, b);
  }

  const RankToRow: map<char, int> :=
    map['1' := 7, '2' := 6, '3' := 5, '4' := 4, '5' := 3, '6' := 2, '7' := 1, '8' := 0]

  const FileToCol: map<char, int> :=
    map['h' := 7, 'g' := 6, 'f' := 5, 'e' := 4, 'd' := 3, 'c' := 2, 'b' := 1, 'a' := 0]

  /** The inverse dictionaries, which the source builds by swapping keys and values. */
  const RowToRank: map<int, char> :=
    map[7 := '1', 6 := '2', 5 := '3', 4 := '4', 3 := '5', 2 := '6', 1 := '7', 0 := '8']

  const ColToFile: map<int, char> :=
    map[7 := 'h', 6 := 'g', 5 := 'f', 4 := 'e', 3 := 'd', 2 := 'c', 1 := 'b', 0 := 'a']

  /** Each inverse dictionary undoes its forward dictionary on every key. */
  lemma InverseDictionaries()
    ensures forall k :: k in RankToRow ==> RankToRow[k] in RowToRank && RowToRank[RankToRow[k]] == k
    ensures forall k :: k in FileToCol ==> FileToCol[k] in ColToFile && ColToFile[FileToCol[k]] == k
  {
    assert RankToRow.Keys == {'1', '2', '3', '4', '5', '6', '7', '8'};
    assert FileToCol.Keys == {'a', 'b', 'c', 'd', 'e', 'f', 'g', 'h'};
  }

  lemma RowToRankInverse(row: int)
    requires 0 <= row < 8
    ensures row in RowToRank && RowToRank[row] in RankToRow && RankToRow[RowToRank[row]] == row
  {
  }

  lemma ColToFileInverse(col: int)
    requires 0 <= col < 8
    ensures col in ColToFile && ColToFile[col] in FileToCol && FileToCol[ColToFile[col]] == col
  {
  }

  /** `get_rank_file`: file letter then rank digit. */
  function GetRankFile(row: int, col: int): (s: string)
    requires OnBoard(row, col)
    ensures |s| == 2
    ensures s[0] in FileToCol && FileToCol[s[0]] == col
    ensures s[1] in RankToRow && RankToRow[s[1]] == row
  {
    RowToRankInverse(row);
    ColToFileInverse(col);
    [ColToFile[col], RowToRank[row]]
  }

  /** `get_chess_notation`: the piece code followed by the two squares, e.g. "wpe2e4". */
  function GetChessNotation(m: Move): (s: string)
    requires SquaresOnBoard(m)
    ensures |s| == 6
  {
    PieceCode(m.pieceMoved) + GetRankFile(m.startRow, m.startCol) + GetRankFile(m.endRow, m.endCol)
  }

  /** Decoding characters 2 to 5 of the notation through `file_to_col`/`rank_to_row` gives
      back the move's squares, and characters 0 and 1 are the moved piece's code. The
      side rules read the last logged move this way. */
  lemma NotationRoundTrip(m: Move)
    requires SquaresOnBoard(m)
    ensures var s := GetChessNotation(m);
      && s[..2] == PieceCode(m.pieceMoved)
      && s[2] in FileToCol && FileToCol[s[2]] == m.startCol
      && s[3] in RankToRow && RankToRow[s[3]] == m.startRow
      && s[4] in FileToCol && FileToCol[s[4]] == m.endCol
      && s[5] in RankToRow && RankToRow[s[5]] == m.endRow
  {
    var s := GetChessNotation(m);
    var a, b := GetRankFile(m.startRow, m.startCol), GetRankFile(m.endRow, m.endCol);
    PieceCodeInjective(m.pieceMoved, m.pieceMoved);
    assert s == PieceCode(m.pieceMoved) + a + b;
    assert s[2] == a[0] && s[3] == a[1] && s[4] == b[0] && s[5] == b[1];
  }

  /** The notation determines the move up to its captured piece. */
  lemma NotationInjective(m: Move, n: Move)
    requires SquaresOnBoard(m) && SquaresOnBoard(n)
    requires GetChessNotation(m) == GetChessNotation(n)
    ensures m.pieceMoved == n.pieceMoved && MovesEqual(m, n)
  {
    NotationRoundTrip(m);
    NotationRoundTrip(n);
    PieceCodeInjective(m.pieceMoved, n.pieceMoved);
    MovesEqualIffSameSquares(m, n);
  }
}

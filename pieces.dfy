/** Board values of the chess engine: colours, piece kinds, the two-character piece
    codes ("wK", "bp", "--") and the 8x8 board held by the game state. */
module Pieces {

  datatype Option<T> = None | Some(value: T)

  datatype Color = White | Black

  datatype Kind = Pawn | Knight | Bishop | Rook | Queen | King

  /** A board cell: `Empty` stands for the code "--". */
  datatype Piece = Empty | Occupied(color: Color, kind: Kind)

  type Square = (int, int)

  /** The board is a list of 8 rows of 8 cells; row 0 is Black's back rank. */
  type Board = seq<seq<Piece>>

  predicate WellFormed(b: Board) {
    |b| == 8 && forall r :: 0 <= r < 8 ==> |b[r]| == 8
  }

  predicate OnBoard(row: int, col: int) {
    0 <= row < 8 && 0 <= col < 8
  }

  /** The square `i` steps from `(row, col)` along direction `d`. */
  function Step(row: int, col: int, d: (int, int), i: int): Square {
    (row + d.0 * i, col + d.1 * i)
  }

  function At(b: Board, row: int, col: int): Piece
    requires WellFormed(b) && OnBoard(row, col)
  {
    b[row][col]
  }

  function Opponent(c: Color): (o: Color)
    ensures o != c
  {
    if c == White then Black else White
  }

  /** `p[0] == colour` in the source: true only for a piece of that colour. */
  predicate IsColor(p: Piece, c: Color) {
    p.Occupied? && p.color == c
  }

  predicate IsPiece(p: Piece, c: Color, k: Kind) {
    p == Occupied(c, k)
  }

  /** The board after one cell is overwritten. */
  function Set(b: Board, row: int, col: int, p: Piece): (b': Board)
    requires WellFormed(b) && OnBoard(row, col)
    ensures WellFormed(b')
    ensures b'[row][col] == p
    ensures forall r, c :: OnBoard(r, c) && (r, c) != (row, col) ==> b'[r][c] == b[r][c]
  {
    b[row := b[row][col := p]]
  }

  function ColorChar(c: Color): char {
    match c
    case White => 'w'
    case Black => 'b'
  }

  function KindChar(k: Kind): char {
    match k
    case Pawn => 'p'
    case Knight => 'N'
    case Bishop => 'B'
    case Rook => 'R'
    case Queen => 'Q'
    case King => 'K'
  }

  /** The two-character code the source stores in each cell. */
  function PieceCode(p: Piece): string {
    match p
    case Empty => "--"
    case Occupied(c, k) => [ColorChar(c), KindChar(k)]
  }

  /** Distinct cells have distinct codes, so comparing codes (`piece_type == "wK"`)
      is comparing pieces. */
  lemma PieceCodeInjective(p: Piece, q: Piece)
    ensures |PieceCode(p)| == 2
    ensures PieceCode(p) == PieceCode(q) <==> p == q
  {
    if PieceCode(p) == PieceCode(q) {
      assert PieceCode(p)[0] == PieceCode(q)[0] && PieceCode(p)[1] == PieceCode(q)[1];
    }
  }

  /** The colour character at index 0 and the kind character at index 1 of a code. */
  lemma PieceCodeFields(p: Piece)
    ensures p.Occupied? ==> PieceCode(p)[0] == ColorChar(p.color) && PieceCode(p)[1] == KindChar(p.kind)
    ensures PieceCode(p)[1] == 'p' <==> p.Occupied? && p.kind == Pawn
    ensures PieceCode(p)[1] == 'K' <==> p.Occupied? && p.kind == King
  {
  }

  function BackRank(c: Color): seq<Piece> {
    [Occupied(c, Rook), Occupied(c, Knight), Occupied(c, Bishop), Occupied(c, Queen),
     Occupied(c, King), Occupied(c, Bishop), Occupied(c, Knight), Occupied(c, Rook)]
  }

  function PawnRank(c: Color): seq<Piece> {
    seq(8, _ => Occupied(c, Pawn))
  }

  function EmptyRank(): seq<Piece> {
    seq(8, _ => Empty)
  }

  lemma ConcatAssoc<T>(a: seq<T>, b: seq<T>, c: seq<T>)
    ensures a + (b + c) == a + b + c
  {
  }

  /** The standard starting position. */
  function InitialBoard(): (b: Board)
    ensures WellFormed(b)
    ensures b[0][4] == Occupied(Black, King) && b[7][4] == Occupied(White, King)
  {
    [BackRank(Black), PawnRank(Black), EmptyRank(), EmptyRank(),
     EmptyRank(), EmptyRank(), PawnRank(White), BackRank(White)]
  }
}

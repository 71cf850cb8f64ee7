/** Reference definitions of the move lists that the game state's generators build:
    per piece kind, over the whole board (with the pin list consumed as the scan goes),
    the check filter of `get_valid_move`, and the lemmas that say what those lists hold. */
module Generation {
  import opened Pieces
  import opened Notation
  import opened Attacks

  /** The one-ply en-passant record `[flag, capture square, captured pawn square]`. */
  datatype EnPassant = NoEnPassant | EnPassantAt(target: Square, captured: Square)

  /** The square an en-passant capture lands on is the one the double push crossed, so it
      is on the board and empty. */
  predicate TargetVacant(b: Board, ep: EnPassant)
    requires WellFormed(b)
  {
    ep.EnPassantAt? ==> OnBoard(ep.target.0, ep.target.1) && b[ep.target.0][ep.target.1] == Empty
  }

  /** The castling flags of the side to move. */
  datatype SideFlags = SideFlags(kingMoved: bool, kingRookMoved: bool, queenRookMoved: bool)

  function Home(c: Color): Square {
    if c == White then (7, 4) else (0, 4)
  }

  /** Every king of colour `c` on the board stands on `sq`. */
  predicate KingsAt(b: Board, c: Color, sq: Square)
    requires WellFormed(b)
  {
    forall r, col :: 0 <= r < 8 && 0 <= col < 8 && KingOn(b, c, r, col) ==> (r, col) == sq
  }

  /** While a side's king has not moved, every king of that side stands on its home square. */
  predicate KingAtHome(b: Board, turn: Color, f: SideFlags)
    requires WellFormed(b)
  {
    !f.kingMoved ==> KingsAt(b, turn, Home(turn))
  }

  predicate KingOn(b: Board, turn: Color, r: int, c: int)
    requires WellFormed(b)
  {
    OnBoard(r, c) && b[r][c] == Occupied(turn, King)
  }

  // ---------------------------------------------------------------------------------
  // Pins as the generators look them up.

  predicate PinOnSquare(p: Ray, row: int, col: int) {
    p.row == row && p.col == col
  }

  /** The last index below `n` of a pin entry on `(row, col)`, or -1: the reverse scan of
      the pin list. */
  function LastPinIndex(pins: seq<Ray>, row: int, col: int, n: int): (k: int)
    requires 0 <= n <= |pins|
    ensures -1 <= k < n
    ensures k >= 0 ==> PinOnSquare(pins[k], row, col)
    ensures forall t :: k < t < n ==> !PinOnSquare(pins[t], row, col)
  {
    if n == 0 then -1
    else if PinOnSquare(pins[n - 1], row, col) then n - 1
    else LastPinIndex(pins, row, col, n - 1)
  }

  /** The pin direction of the piece on `(row, col)`, if it is pinned. */
  function PinOf(pins: seq<Ray>, row: int, col: int): Option<(int, int)> {
    var k := LastPinIndex(pins, row, col, |pins|);
    if k < 0 then None else Some((pins[k].dr, pins[k].dc))
  }

  /** `list.remove(x)`: drop the first element equal to `x`. */
  function RemoveFirst<T(==)>(s: seq<T>, x: T): (r: seq<T>)
    ensures x in s ==> |r| == |s| - 1
    ensures x !in s ==> r == s
    ensures multiset(r) == multiset(s) - multiset{x}
  {
    if s == [] then []
    else
      assert s == [s[0]] + s[1..];
      if s[0] == x then s[1..]
      else [s[0]] + RemoveFirst(s[1..], x)
  }

  /** The pin list after a generator consumed the pin entry of `(row, col)`. */
  function Unpinned(pins: seq<Ray>, row: int, col: int): seq<Ray> {
    var k := LastPinIndex(pins, row, col, |pins|);
    if k < 0 then pins else RemoveFirst(pins, pins[k])
  }

  // ---------------------------------------------------------------------------------
  // Per-piece move lists.

  /** The row step of a pawn: White moves up the board (toward row 0). */
  function Forward(c: Color): int {
    if c == White then -1 else 1
  }

  function PawnStartRow(c: Color): int {
    if c == White then 6 else 1
  }

  /** Pawn moves: one step forward onto an empty square (two from the starting row when
      that square is empty too), and a diagonal step onto an opponent piece or onto the
      en-passant square. A pinned pawn moves only in its pin direction. */
  function PawnTargets(b: Board, turn: Color, ep: EnPassant, row: int, col: int, pin: Option<(int, int)>): seq<Move>
    requires WellFormed(b) && OnBoard(row, col)
  {
    if !(0 <= row + Forward(turn) < 8) then []
    else
      PawnPushes(b, turn, row, col, pin) + PawnCapture(b, turn, ep, row, col, pin, -1)
      + PawnCapture(b, turn, ep, row, col, pin, 1)
  }

  function PawnPushes(b: Board, turn: Color, row: int, col: int, pin: Option<(int, int)>): seq<Move>
    requires WellFormed(b) && OnBoard(row, col) && 0 <= row + Forward(turn) < 8
  {
    var f := Forward(turn);
    if b[row + f][col] == Empty && (pin.None? || pin.value == (f, 0)) then
      [NewMove((row, col), (row + f, col), b)] +
      (if row == PawnStartRow(turn) && b[row + 2 * f][col] == Empty then [NewMove((row, col), (row + 2 * f, col), b)] else [])
    else []
  }

  /** The diagonal step toward column `col + dc`. */
  function PawnCapture(b: Board, turn: Color, ep: EnPassant, row: int, col: int, pin: Option<(int, int)>, dc: int): seq<Move>
    requires WellFormed(b) && OnBoard(row, col) && 0 <= row + Forward(turn) < 8
  {
    var r, c := row + Forward(turn), col + dc;
    if 0 <= c < 8 && (IsColor(b[r][c], Opponent(turn)) || (ep.EnPassantAt? && (r, c) == ep.target))
       && (pin.None? || pin.value == (Forward(turn), dc))
    then [NewMove((row, col), (r, c), b)] else []
  }

  /** The squares a slider reaches from `(row, col)` along `d`, from step `i` on: every empty
      square up to the first occupied one, which is included when it holds an opponent piece. */
  function Slide(b: Board, turn: Color, row: int, col: int, d: (int, int), i: int): seq<Move>
    requires WellFormed(b) && OnBoard(row, col) && 1 <= i <= 8
    decreases 8 - i
  {
    if i == 8 then []
    else
      var sq := Step(row, col, d, i);
      if !OnBoard(sq.0, sq.1) then []
      else if b[sq.0][sq.1] == Empty then [NewMove((row, col), (sq.0, sq.1), b)] + Slide(b, turn, row, col, d, i + 1)
      else if IsColor(b[sq.0][sq.1], Opponent(turn)) then [NewMove((row, col), (sq.0, sq.1), b)]
      else []
  }

  /** A pinned slider may use only its pin direction and the opposite one. */
  predicate AlongPin(pin: Option<(int, int)>, d: (int, int)) {
    pin.None? || pin.value == d || pin.value == (-d.0, -d.1)
  }

  function Slides(b: Board, turn: Color, row: int, col: int, dirs: seq<(int, int)>, pin: Option<(int, int)>): seq<Move>
    requires WellFormed(b) && OnBoard(row, col)
  {
    if dirs == [] then []
    else
      (if AlongPin(pin, dirs[0]) then Slide(b, turn, row, col, dirs[0], 1) else [])
      + Slides(b, turn, row, col, dirs[1..], pin)
  }

  const RookDirections: seq<(int, int)> := [(-1, 0), (0, -1), (1, 0), (0, 1)]

  const BishopDirections: seq<(int, int)> := [(-1, 1), (-1, -1), (1, 1), (1, -1)]

  const KingDirections: seq<(int, int)> :=
    [(0, -1), (0, 1), (-1, 0), (1, 0), (1, 1), (1, -1), (-1, 1), (-1, -1)]

  function RookTargets(b: Board, turn: Color, row: int, col: int, pin: Option<(int, int)>): seq<Move>
    requires WellFormed(b) && OnBoard(row, col)
  {
    Slides(b, turn, row, col, RookDirections, pin)
  }

  function BishopTargets(b: Board, turn: Color, row: int, col: int, pin: Option<(int, int)>): seq<Move>
    requires WellFormed(b) && OnBoard(row, col)
  {
    Slides(b, turn, row, col, BishopDirections, pin)
  }

  /** Knight moves from offset `k` on: every on-board square not holding an own piece; none
      at all when the knight is pinned. */
  function KnightTargets(b: Board, turn: Color, row: int, col: int, pinned: bool, k: int): seq<Move>
    requires WellFormed(b) && OnBoard(row, col) && 0 <= k <= 8
    decreases 8 - k
  {
    if k == 8 then [] else KnightStep(b, turn, row, col, pinned, k) + KnightTargets(b, turn, row, col, pinned, k + 1)
  }

  /** What knight offset `k` contributes. */
  function KnightStep(b: Board, turn: Color, row: int, col: int, pinned: bool, k: int): seq<Move>
    requires WellFormed(b) && OnBoard(row, col) && 0 <= k < 8
  {
    var sq := Step(row, col, KnightOffsets[k], 1);
    if OnBoard(sq.0, sq.1) && !pinned && !IsColor(b[sq.0][sq.1], turn) then [NewMove((row, col), (sq.0, sq.1), b)] else []
  }

  /** Castling toward the king's side: neither flag set, the king not in check where it
      stands (`loc`), and the two squares toward the rook empty and not attacked. */
  predicate CanCastleKingSide(b: Board, attacked: Square -> bool, loc: Square, row: int, col: int, f: SideFlags)
    requires WellFormed(b)
    requires !f.kingMoved && !f.kingRookMoved ==> OnBoard(row, col) && col + 2 < 8
  {
    !f.kingMoved && !f.kingRookMoved && !attacked(loc) &&
    b[row][col + 1] == Empty && !attacked((row, col + 1)) &&
    b[row][col + 2] == Empty && !attacked((row, col + 2))
  }

  /** Castling toward the queen's side; only the two squares next to the king are tested. */
  predicate CanCastleQueenSide(b: Board, attacked: Square -> bool, loc: Square, row: int, col: int, f: SideFlags)
    requires WellFormed(b)
    requires !f.kingMoved && !f.queenRookMoved ==> OnBoard(row, col) && col - 2 >= 0
  {
    !f.kingMoved && !f.queenRookMoved && !attacked(loc) &&
    b[row][col - 1] == Empty && !attacked((row, col - 1)) &&
    b[row][col - 2] == Empty && !attacked((row, col - 2))
  }

  /** King moves from direction `k` on: for every adjacent on-board square not holding an
      own piece, the step if the king would not be in check there, then the two castling
      moves if allowed (so castling moves repeat once per such square). */
  function KingTargets(b: Board, turn: Color, attacked: Square -> bool, row: int, col: int, f: SideFlags, k: int): seq<Move>
    requires WellFormed(b) && OnBoard(row, col) && 0 <= k <= 8
    requires !f.kingMoved ==> (row, col) == Home(turn)
    decreases 8 - k
  {
    if k == 8 then [] else KingStep(b, turn, attacked, row, col, f, k) + KingTargets(b, turn, attacked, row, col, f, k + 1)
  }

  /** What one king direction contributes. */
  function KingStep(b: Board, turn: Color, attacked: Square -> bool, row: int, col: int, f: SideFlags, k: int): seq<Move>
    requires WellFormed(b) && OnBoard(row, col) && 0 <= k < 8
    requires !f.kingMoved ==> (row, col) == Home(turn)
  {
    var sq := Step(row, col, KingDirections[k], 1);
    if OnBoard(sq.0, sq.1) && !IsColor(b[sq.0][sq.1], turn) then
      (if !attacked(sq) then [NewMove((row, col), (sq.0, sq.1), b)] else [])
      + (if CanCastleKingSide(b, attacked, (row, col), row, col, f) then [NewMove((row, col), (row, col + 2), b)] else [])
      + (if CanCastleQueenSide(b, attacked, (row, col), row, col, f) then [NewMove((row, col), (row, col - 2), b)] else [])
    else []
  }

  /** The moves of the piece on `(row, col)`, given its pin direction. */
  function PieceTargets(b: Board, turn: Color, attacked: Square -> bool, ep: EnPassant, f: SideFlags, row: int, col: int,
                        pin: Option<(int, int)>): seq<Move>
    requires WellFormed(b) && OnBoard(row, col) && b[row][col].Occupied?
    requires KingAtHome(b, turn, f) && b[row][col].color == turn
  {
    match b[row][col].kind
    case Pawn => PawnTargets(b, turn, ep, row, col, pin)
    case Rook => RookTargets(b, turn, row, col, pin)
    case Bishop => BishopTargets(b, turn, row, col, pin)
    case Knight => KnightTargets(b, turn, row, col, pin.Some?, 0)
    case Queen => RookTargets(b, turn, row, col, pin) + BishopTargets(b, turn, row, col, pin)
    case King => KingTargets(b, turn, attacked, row, col, f, 0)
  }

  /** `get_possible_move` from square `(r, c)` on in row-major order, with the pin list as
      the generators have left it by then. */
  function PossibleFrom(b: Board, turn: Color, attacked: Square -> bool, ep: EnPassant, f: SideFlags,
                        pins: seq<Ray>, r: int, c: int): seq<Move>
    requires WellFormed(b) && KingAtHome(b, turn, f) && 0 <= r <= 8 && 0 <= c <= 8
    decreases 8 - r, 8 - c
  {
    if r == 8 then []
    else if c == 8 then PossibleFrom(b, turn, attacked, ep, f, pins, r + 1, 0)
    else if IsColor(b[r][c], turn) then
      if b[r][c].kind == King then
        assert KingOn(b, turn, r, c);
        KingTargets(b, turn, attacked, r, c, f, 0) + PossibleFrom(b, turn, attacked, ep, f, pins, r, c + 1)
      else
        PieceTargets(b, turn, attacked, ep, f, r, c, PinOf(pins, r, c))
        + PossibleFrom(b, turn, attacked, ep, f, Unpinned(pins, r, c), r, c + 1)
    else PossibleFrom(b, turn, attacked, ep, f, pins, r, c + 1)
  }

  /** The pin list that `get_possible_move` leaves behind once it has visited every square
      from `(r, c)` on: each non-king piece of the side to move consumes its own entry. */
  function PinsLeft(b: Board, turn: Color, pins: seq<Ray>, r: int, c: int): seq<Ray>
    requires WellFormed(b) && 0 <= r <= 8 && 0 <= c <= 8
    decreases 8 - r, 8 - c
  {
    if r == 8 then pins
    else if c == 8 then PinsLeft(b, turn, pins, r + 1, 0)
    else if IsColor(b[r][c], turn) && b[r][c].kind != King then PinsLeft(b, turn, Unpinned(pins, r, c), r, c + 1)
    else PinsLeft(b, turn, pins, r, c + 1)
  }

  // ---------------------------------------------------------------------------------
  // The check filter of `get_valid_move`.

  /** The squares that resolve the check `chk`: the checker's own square for a knight,
      otherwise the ray squares from the king up to and including the checker. */
  function ResolvingSquares(b: Board, kr: int, kc: int, chk: Ray): seq<Square>
    requires WellFormed(b)
  {
    if OnBoard(chk.row, chk.col) && b[chk.row][chk.col].Occupied? && b[chk.row][chk.col].kind == Knight then
      [(chk.row, chk.col)]
    else RaySquaresTo(kr, kc, chk, 1)
  }

  function RaySquaresTo(kr: int, kc: int, chk: Ray, i: int): seq<Square>
    requires 1 <= i <= 8
    decreases 8 - i, chk
  {
    if i == 8 then []
    else
      var sq := Step(kr, kc, (chk.dr, chk.dc), i);
      [sq] + (if sq == (chk.row, chk.col) then [] else RaySquaresTo(kr, kc, chk, i + 1))
  }

  predicate IsKingMove(m: Move) {
    m.pieceMoved.Occupied? && m.pieceMoved.kind == King
  }

  /** A move survives the single-check filter when it is a king move or lands on a
      resolving square. */
  predicate Resolves(m: Move, squares: seq<Square>) {
    IsKingMove(m) || (m.endRow, m.endCol) in squares
  }

  function KeepResolving(ms: seq<Move>, squares: seq<Square>): seq<Move> {
    if ms == [] then []
    else (if Resolves(ms[0], squares) then [ms[0]] else []) + KeepResolving(ms[1..], squares)
  }

  /** `moves.remove(x)`: drop the first move equal to `x` under `Move.__eq__`. */
  function RemoveMatching(ms: seq<Move>, x: Move): (r: seq<Move>)
    ensures |r| == |ms| || |r| == |ms| - 1
  {
    if ms == [] then []
    else if MovesEqual(ms[0], x) then ms[1..]
    else [ms[0]] + RemoveMatching(ms[1..], x)
  }

  /** Whether the side's king would be in check on a square: the scan run with the king
      taken to stand there. */
  function Attacked(b: Board, turn: Color): Square -> bool {
    (sq: Square) => WellFormed(b) && InCheckAt(b, turn, sq.0, sq.1)
  }

  /** `get_valid_move` for the side `turn` whose king is on `king`. */
  function ValidMoves(b: Board, turn: Color, ep: EnPassant, f: SideFlags, king: Square): seq<Move>
    requires WellFormed(b) && KingAtHome(b, turn, f) && OnBoard(king.0, king.1)
    requires !f.kingMoved ==> king == Home(turn)
  {
    var s := PinsAndChecks(b, turn, king.0, king.1);
    if s.inCheck then
      if |s.checks| == 1 then
        CheckedMoves(b, turn, ep, f, king, s)
      else KingTargets(b, turn, Attacked(b, turn), king.0, king.1, f, 0)
    else PossibleFrom(b, turn, Attacked(b, turn), ep, f, s.pins, 0, 0)
  }

  function CheckedMoves(b: Board, turn: Color, ep: EnPassant, f: SideFlags, king: Square, s: Scan): seq<Move>
    requires WellFormed(b) && KingAtHome(b, turn, f) && |s.checks| == 1
    requires s == PinsAndChecks(b, turn, king.0, king.1)
  {
    KeepResolving(PossibleFrom(b, turn, Attacked(b, turn), ep, f, s.pins, 0, 0),
                  ResolvingSquares(b, king.0, king.1, s.checks[0]))
  }

  lemma ChecksOnBoard(b: Board, ally: Color, kr: int, kc: int)
    requires WellFormed(b)
    ensures forall e :: e in PinsAndChecks(b, ally, kr, kc).checks ==> OnBoard(e.row, e.col)
  {
    forall e | e in PinsAndChecks(b, ally, kr, kc).checks ensures OnBoard(e.row, e.col) {
      ChecksExactly(b, ally, kr, kc, e);
    }
  }
}

/** The game state of the chess engine: the board, the side to move, the move log, the
    king locations, the pin and check lists, the en-passant and promotion records and the
    six castling flags, with the operations that generate moves from it and change it. */
module Engine {
  import opened Pieces
  import opened Notation
  import opened Attacks
  import opened Generation
  import opened MoveFacts
  import opened Rules

  /** One ray of `check_for_pins_or_check`: the walk from the king along direction `i`,
      remembering the first own piece met, up to the board edge, a second own piece or
      an opponent piece. */
  method ScanDirection(b: Board, ally: Color, kr: int, kc: int, i: int) returns (outcome: RayOutcome)
    requires WellFormed(b) && 0 <= i < 8
    ensures outcome == ScanRay(b, ally, kr, kc, i, 1, None)
  {
    hide Threatens;
    var d := Directions[i];
    var candidate: Option<Ray> := None;
    outcome := Clear;
    var j := 1;
    while j < 8
      invariant 1 <= j <= 8
      invariant ScanRay(b, ally, kr, kc, i, j, candidate) == ScanRay(b, ally, kr, kc, i, 1, None)
    {
      var er, ec := kr + d.0 * j, kc + d.1 * j;
      assert (er, ec) == Cell(kr, kc, i, j) && Ray(er, ec, d.0, d.1) == EntryAt(kr, kc, i, j);
      if !(0 <= er < 8 && 0 <= ec < 8) {
        return;
      }
      var p := b[er][ec];
      if IsColor(p, ally) && p.kind != King {
        if candidate != None {
          return;
        }
        candidate := Some(Ray(er, ec, d.0, d.1));
      } else if IsColor(p, Opponent(ally)) {
        if Threatens(p.kind, Opponent(ally), i, j) {
          outcome := if candidate == None then CheckFrom(Ray(er, ec, d.0, d.1)) else PinOn(candidate.value);
        }
        return;
      }
      j := j + 1;
    }
  }

  /** The entry a ray outcome adds to the pin list, and to the check list. */
  function PinPart(o: RayOutcome): seq<Ray> {
    if o.PinOn? then [o.pin] else []
  }

  function CheckPart(o: RayOutcome): seq<Ray> {
    if o.CheckFrom? then [o.check] else []
  }

  lemma RayUnfold(b: Board, ally: Color, kr: int, kc: int, i: int)
    requires WellFormed(b) && 0 <= i < 8
    ensures RayPins(b, ally, kr, kc, i) == PinPart(ScanRay(b, ally, kr, kc, i, 1, None)) + RayPins(b, ally, kr, kc, i + 1)
    ensures RayChecks(b, ally, kr, kc, i) == CheckPart(ScanRay(b, ally, kr, kc, i, 1, None)) + RayChecks(b, ally, kr, kc, i + 1)
  {
  }

  /** The ray loop of `check_for_pins_or_check`: pins and checks in direction order. */
  method ScanRays(b: Board, ally: Color, kr: int, kc: int) returns (pins: seq<Ray>, checks: seq<Ray>)
    requires WellFormed(b)
    ensures pins == RayPins(b, ally, kr, kc, 0) && checks == RayChecks(b, ally, kr, kc, 0)
  {
    pins, checks := [], [];
    for i := 0 to 8
      invariant pins + RayPins(b, ally, kr, kc, i) == RayPins(b, ally, kr, kc, 0)
      invariant checks + RayChecks(b, ally, kr, kc, i) == RayChecks(b, ally, kr, kc, 0)
    {
      var outcome := ScanDirection(b, ally, kr, kc, i);
      RayUnfold(b, ally, kr, kc, i);
      ConcatAssoc(pins, PinPart(outcome), RayPins(b, ally, kr, kc, i + 1));
      ConcatAssoc(checks, CheckPart(outcome), RayChecks(b, ally, kr, kc, i + 1));
      pins := pins + PinPart(outcome);
      checks := checks + CheckPart(outcome);
    }
  }

  /** The knight loop of `check_for_pins_or_check`: an opponent knight a knight's jump
      from the king is a check. */
  method ScanKnights(b: Board, ally: Color, kr: int, kc: int) returns (checks: seq<Ray>)
    requires WellFormed(b)
    ensures checks == KnightChecks(b, ally, kr, kc, 0)
  {
    checks := [];
    var k := 0;
    while k < 8
      invariant 0 <= k <= 8
      invariant checks + KnightChecks(b, ally, kr, kc, k) == KnightChecks(b, ally, kr, kc, 0)
    {
      var e := KnightEntry(kr, kc, k);
      if 0 <= e.row < 8 && 0 <= e.col < 8 && b[e.row][e.col] == Occupied(Opponent(ally), Knight) {
        assert KnightChecks(b, ally, kr, kc, k) == [e] + KnightChecks(b, ally, kr, kc, k + 1);
        ConcatAssoc(checks, [e], KnightChecks(b, ally, kr, kc, k + 1));
        checks := checks + [e];
      } else {
        assert KnightChecks(b, ally, kr, kc, k) == KnightChecks(b, ally, kr, kc, k + 1);
      }
      k := k + 1;
    }
  }

  /** The forward pushes of `pawn_move`: one step onto an empty square, then two from the
      pawn's start row when that square is empty too, unless pinned off the file. */
  method AddPushes(b: Board, turn: Color, row: int, col: int, pin: Option<(int, int)>, moves: seq<Move>)
    returns (out: seq<Move>)
    requires WellFormed(b) && OnBoard(row, col) && 0 <= row + Forward(turn) < 8
    ensures out == moves + PawnPushes(b, turn, row, col, pin)
  {
    var f := Forward(turn);
    out := moves;
    if b[row + f][col] == Empty && (pin.None? || pin.value == (f, 0)) {
      out := out + [NewMove((row, col), (row + f, col), b)];
      if row == PawnStartRow(turn) && b[row + 2 * f][col] == Empty {
        out := out + [NewMove((row, col), (row + 2 * f, col), b)];
      }
    }
  }

  /** A diagonal pawn capture toward column offset `dc`: onto an opponent piece or onto
      the en-passant target, unless pinned off that diagonal. */
  method AddPawnCapture(b: Board, turn: Color, ep: EnPassant, row: int, col: int, pin: Option<(int, int)>, dc: int,
                        moves: seq<Move>) returns (out: seq<Move>)
    requires WellFormed(b) && OnBoard(row, col) && 0 <= row + Forward(turn) < 8
    ensures out == moves + PawnCapture(b, turn, ep, row, col, pin, dc)
  {
    var r, c := row + Forward(turn), col + dc;
    out := moves;
    if 0 <= c < 8 && (IsColor(b[r][c], Opponent(turn)) || (ep.EnPassantAt? && (r, c) == ep.target)) &&
       (pin.None? || pin.value == (Forward(turn), dc)) {
      out := out + [NewMove((row, col), (r, c), b)];
    }
  }

  /** The moves `pawn_move` generates for a pawn with pin direction `pin`: pushes, then the
      capture to the left, then the capture to the right. */
  method AddPawnMoves(b: Board, turn: Color, ep: EnPassant, row: int, col: int, pin: Option<(int, int)>,
                      moves: seq<Move>) returns (out: seq<Move>)
    requires WellFormed(b) && OnBoard(row, col)
    ensures out == moves + PawnTargets(b, turn, ep, row, col, pin)
  {
    out := moves;
    if 0 <= row + Forward(turn) < 8 {
      ghost var pushes := PawnPushes(b, turn, row, col, pin);
      ghost var left, right := PawnCapture(b, turn, ep, row, col, pin, -1), PawnCapture(b, turn, ep, row, col, pin, 1);
      out := AddPushes(b, turn, row, col, pin, out);
      out := AddPawnCapture(b, turn, ep, row, col, pin, -1, out);
      out := AddPawnCapture(b, turn, ep, row, col, pin, 1, out);
      ConcatAssoc(moves, pushes, left);
      ConcatAssoc(moves, pushes + left, right);
    }
  }

  /** One direction of `rook_move` or `bishop_move`: outward from the piece, each empty
      square, then an opponent piece, stopping at the board edge or any piece; a pinned
      piece moves only along its pin line. */
  method AddSlide(b: Board, turn: Color, row: int, col: int, d: (int, int), pin: Option<(int, int)>,
                  moves: seq<Move>) returns (out: seq<Move>)
    requires WellFormed(b) && OnBoard(row, col)
    ensures out == moves + (if AlongPin(pin, d) then Slide(b, turn, row, col, d, 1) else [])
  {
    out := moves;
    var i := 1;
    while i < 8
      invariant 1 <= i <= 8
      invariant AlongPin(pin, d) ==> out + Slide(b, turn, row, col, d, i) == moves + Slide(b, turn, row, col, d, 1)
      invariant !AlongPin(pin, d) ==> out == moves
    {
      var er, ec := row + d.0 * i, col + d.1 * i;
      if !(0 <= er < 8 && 0 <= ec < 8) {
        return;
      }
      if pin.None? || pin.value == d || pin.value == (-d.0, -d.1) {
        var p := b[er][ec];
        if p == Empty {
          ConcatAssoc(out, [NewMove((row, col), (er, ec), b)], Slide(b, turn, row, col, d, i + 1));
          out := out + [NewMove((row, col), (er, ec), b)];
        } else {
          if IsColor(p, Opponent(turn)) {
            out := out + [NewMove((row, col), (er, ec), b)];
          }
          return;
        }
      }
      i := i + 1;
    }
  }

  /** The direction loop of `rook_move` and `bishop_move` over `dirs`. */
  method AddSlides(b: Board, turn: Color, row: int, col: int, dirs: seq<(int, int)>, pin: Option<(int, int)>,
                   moves: seq<Move>) returns (out: seq<Move>)
    requires WellFormed(b) && OnBoard(row, col)
    ensures out == moves + Slides(b, turn, row, col, dirs, pin)
  {
    out := moves;
    for n := 0 to |dirs|
      invariant out + Slides(b, turn, row, col, dirs[n..], pin) == moves + Slides(b, turn, row, col, dirs, pin)
    {
      ghost var prev := out;
      out := AddSlide(b, turn, row, col, dirs[n], pin, out);
      assert dirs[n..][1..] == dirs[n + 1..];
      ConcatAssoc(prev, if AlongPin(pin, dirs[n]) then Slide(b, turn, row, col, dirs[n], 1) else [],
                  Slides(b, turn, row, col, dirs[n + 1..], pin));
    }
    assert dirs[|dirs|..] == [];
  }

  /** The move to the adjacent square `(er, ec)` unless the king would be in check there. */
  function KingStepMove(b: Board, row: int, col: int, er: int, ec: int, check: bool): seq<Move>
    requires WellFormed(b) && OnBoard(row, col) && OnBoard(er, ec)
  {
    if !check then [NewMove((row, col), (er, ec), b)] else []
  }

  /** The castling moves allowed from the king's home square. */
  function KingStepCastles(b: Board, row: int, col: int, kingSide: bool, queenSide: bool): seq<Move>
    requires WellFormed(b) && OnBoard(row, col) && ((kingSide || queenSide) ==> col == 4)
  {
    (if kingSide then [NewMove((row, col), (row, col + 2), b)] else []) + (if queenSide then [NewMove((row, col), (row, col - 2), b)] else [])
  }

  lemma KnightTargetsEnd(b: Board, turn: Color, row: int, col: int, pinned: bool)
    requires WellFormed(b) && OnBoard(row, col)
    ensures KnightTargets(b, turn, row, col, pinned, 8) == []
  {
  }

  /** Knight offset `k` adds the jump to its square when that square is on the board, the
      knight is not pinned and no own piece stands there, and the offsets after it follow. */
  lemma KnightUnfold(b: Board, turn: Color, row: int, col: int, pinned: bool, k: int)
    requires WellFormed(b) && OnBoard(row, col) && 0 <= k < 8
    ensures var er, ec := row + KnightOffsets[k].0, col + KnightOffsets[k].1;
      && KnightTargets(b, turn, row, col, pinned, k) ==
         KnightStep(b, turn, row, col, pinned, k) + KnightTargets(b, turn, row, col, pinned, k + 1)
      && KnightStep(b, turn, row, col, pinned, k) ==
         if 0 <= er < 8 && 0 <= ec < 8 && !pinned && !IsColor(b[er][ec], turn) then [NewMove((row, col), (er, ec), b)] else []
  {
  }

  /** A king direction off the board or onto an own piece contributes nothing. */
  lemma KingStepBlocked(b: Board, turn: Color, attacked: Square -> bool, row: int, col: int, f: SideFlags, k: int)
    requires WellFormed(b) && OnBoard(row, col) && 0 <= k < 8 && (!f.kingMoved ==> (row, col) == Home(turn))
    requires !OnBoard(row + KingDirections[k].0, col + KingDirections[k].1) ||
             IsColor(b[row + KingDirections[k].0][col + KingDirections[k].1], turn)
    ensures KingStep(b, turn, attacked, row, col, f, k) == []
  {
  }

  /** One king direction, split into its step and its castling moves. */
  lemma KingStepParts(b: Board, turn: Color, row: int, col: int, f: SideFlags, k: int,
                      check: bool, kingSide: bool, queenSide: bool)
    requires WellFormed(b) && OnBoard(row, col) && 0 <= k < 8 && (!f.kingMoved ==> (row, col) == Home(turn))
    requires OnBoard(row + KingDirections[k].0, col + KingDirections[k].1)
    requires !IsColor(b[row + KingDirections[k].0][col + KingDirections[k].1], turn)
    requires check == InCheckAt(b, turn, row + KingDirections[k].0, col + KingDirections[k].1)
    requires kingSide == CanCastleKingSide(b, Attacked(b, turn), (row, col), row, col, f)
    requires queenSide == CanCastleQueenSide(b, Attacked(b, turn), (row, col), row, col, f)
    ensures (kingSide || queenSide) ==> col == 4
    ensures KingStep(b, turn, Attacked(b, turn), row, col, f, k) ==
            KingStepMove(b, row, col, row + KingDirections[k].0, col + KingDirections[k].1, check)
            + KingStepCastles(b, row, col, kingSide, queenSide)
  {
    hide InCheckAt;
  }

  /** What the square `(r, c)` contributes to `get_possible_move`, and the pin list after it. */
  function SquareMoves(b: Board, turn: Color, attacked: Square -> bool, ep: EnPassant, f: SideFlags,
                       pins: seq<Ray>, r: int, c: int): seq<Move>
    requires WellFormed(b) && KingAtHome(b, turn, f) && OnBoard(r, c)
  {
    if IsColor(b[r][c], turn) then
      if b[r][c].kind == King then
        assert KingOn(b, turn, r, c);
        KingTargets(b, turn, attacked, r, c, f, 0)
      else PieceTargets(b, turn, attacked, ep, f, r, c, PinOf(pins, r, c))
    else []
  }

  function PinsAfter(b: Board, turn: Color, pins: seq<Ray>, r: int, c: int): seq<Ray>
    requires WellFormed(b) && OnBoard(r, c)
  {
    if IsColor(b[r][c], turn) && b[r][c].kind != King then Unpinned(pins, r, c) else pins
  }

  lemma PossibleUnfold(b: Board, turn: Color, attacked: Square -> bool, ep: EnPassant, f: SideFlags,
                       pins: seq<Ray>, r: int, c: int)
    requires WellFormed(b) && KingAtHome(b, turn, f) && OnBoard(r, c)
    ensures PossibleFrom(b, turn, attacked, ep, f, pins, r, c) ==
            SquareMoves(b, turn, attacked, ep, f, pins, r, c) + PossibleFrom(b, turn, attacked, ep, f, PinsAfter(b, turn, pins, r, c), r, c + 1)
    ensures PinsLeft(b, turn, pins, r, c) == PinsLeft(b, turn, PinsAfter(b, turn, pins, r, c), r, c + 1)
  {
  }

  /** The valid squares of `get_valid_move` against the single check `chk`: the knight's
      own square, or the ray squares walked out from the king until the checker is met. */
  method ResolvingSquaresOf(b: Board, kr: int, kc: int, chk: Ray) returns (squares: seq<Square>)
    requires WellFormed(b)
    ensures squares == ResolvingSquares(b, kr, kc, chk)
  {
    if OnBoard(chk.row, chk.col) && b[chk.row][chk.col].Occupied? && b[chk.row][chk.col].kind == Knight {
      squares := [(chk.row, chk.col)];
    } else {
      squares := WalkToChecker(kr, kc, chk);
    }
  }

  /** The walk along the check's direction: each square is appended, and the walk stops
      after the checker's square. */
  method WalkToChecker(kr: int, kc: int, chk: Ray) returns (squares: seq<Square>)
    ensures squares == RaySquaresTo(kr, kc, chk, 1)
  {
    squares := [];
    for i := 1 to 8
      invariant squares + RaySquaresTo(kr, kc, chk, i) == RaySquaresTo(kr, kc, chk, 1)
    {
      var sq := Step(kr, kc, (chk.dr, chk.dc), i);
      squares := squares + [sq];
      if sq == (chk.row, chk.col) {
        return;
      }
    }
  }

  /** The reverse removal loop of `get_valid_move`: from the last index down, a move that
      is neither a king move nor lands on a valid square is removed with `list.remove`,
      which drops the first move equal to it. Since every move was built from the same
      board, the survivors are exactly the forward filter of the list. */
  method KeepResolvingMoves(b: Board, moves: seq<Move>, squares: seq<Square>) returns (out: seq<Move>)
    requires WellFormed(b) && forall m :: m in moves ==> BuiltFrom(m, b)
    ensures out == KeepResolving(moves, squares)
  {
    out := moves;
    var i := |moves|;
    assert out[..i] == moves && out[i..] == [];
    while i > 0
      invariant 0 <= i <= |out|
      invariant KeepResolving(out[..i], squares) + out[i..] == KeepResolving(moves, squares)
      invariant forall m :: m in out ==> BuiltFrom(m, b)
    {
      i := i - 1;
      var x := out[i];
      RemoveStep(b, out, i, squares);
      if !Resolves(x, squares) {
        out := RemoveMatching(out, x);
      }
    }
  }

  /** One step of the removal loop keeps its invariant. */
  lemma RemoveStep(b: Board, out: seq<Move>, i: int, squares: seq<Square>)
    requires WellFormed(b) && 0 <= i < |out| && forall m :: m in out ==> BuiltFrom(m, b)
    ensures var x := out[i];
      var next := if Resolves(x, squares) then out else RemoveMatching(out, x);
      && i <= |next|
      && KeepResolving(next[..i], squares) + next[i..] == KeepResolving(out[..i + 1], squares) + out[i + 1..]
      && forall m :: m in next ==> m in out
  {
    var x := out[i];
    var front, back := out[..i + 1], out[i + 1..];
    assert out == front + back;
    assert front == out[..i] + [x];
    KeepResolvingConcat(out[..i], [x], squares);
    assert KeepResolving([x], squares) == if Resolves(x, squares) then [x] else [] by {
      assert [x][1..] == [];
    }
    if !Resolves(x, squares) {
      RemoveMatchingFront(front, back, x);
      RemoveNonResolving(front, x, squares, b);
      var next := RemoveMatching(out, x);
      assert next[..i] == RemoveMatching(front, x);
      assert next[i..] == back;
      forall m | m in next ensures m in out {
        if m in RemoveMatching(front, x) {
          assert m in front;
        }
      }
    } else {
      assert out[i..] == [x] + back;
    }
  }

  /** A move that matches a valid move keeps the en-passant target empty: the square a
      double push passes over was empty and the rest of the sequence leaves it so. */
  lemma ValidMoveKeepsTargetVacant(b: Board, turn: Color, ep: EnPassant, f: SideFlags, king: Square, move: Move,
                                   choice: Kind)
    requires WellFormed(b) && KingAtHome(b, turn, f) && OnBoard(king.0, king.1)
    requires !f.kingMoved ==> king == Home(turn)
    requires TargetVacant(b, ep) && (ep.EnPassantAt? ==> OnBoard(ep.captured.0, ep.captured.1))
    requires BuiltFrom(move, b)
    requires exists v :: v in ValidMoves(b, turn, ep, f, king) && MovesEqual(v, move)
    ensures TargetVacant(CommittedBoard(b, ep, move, choice), EnPassantFrom(move))
  {
    hide ValidMoves, CommittedBoard, EnPassantFrom;
    var v :| v in ValidMoves(b, turn, ep, f, king) && MovesEqual(v, move);
    ValidPawnAdvance(b, turn, ep, f, king, v);
    MovesEqualBuiltFrom(v, move, b);
    CommitKeepsTargetVacant(b, ep, move, choice);
  }

  class GameState {
    var board: Board
    var turn: Color
    var moveLog: seq<Move>
    var whiteKingLocation: Square
    var blackKingLocation: Square
    var inCheck: bool
    var pins: seq<Ray>
    var checks: seq<Ray>
    var enPassant: EnPassant
    var pawnPromotion: Option<Square>
    var blackQueenRookMoved: bool
    var blackKingRookMoved: bool
    var blackKingMoved: bool
    var whiteQueenRookMoved: bool
    var whiteKingRookMoved: bool
    var whiteKingMoved: bool

    /** What holds between two moves: the king locations are on the board and every king
        of a colour stands on that colour's location, an unmoved king is on its home
        square, the logged moves and the en-passant record name squares of the board, and
        no promotion is pending. */
    ghost predicate Valid()
      reads this
    {
      && WellFormed(board)
      && OnBoard(whiteKingLocation.0, whiteKingLocation.1) && OnBoard(blackKingLocation.0, blackKingLocation.1)
      && KingsAt(board, White, whiteKingLocation) && KingsAt(board, Black, blackKingLocation)
      && (!whiteKingMoved ==> whiteKingLocation == Home(White))
      && (!blackKingMoved ==> blackKingLocation == Home(Black))
      && (forall m :: m in moveLog ==> SquaresOnBoard(m))
      && (enPassant.EnPassantAt? ==> OnBoard(enPassant.captured.0, enPassant.captured.1))
      && TargetVacant(board, enPassant)
      && pawnPromotion == None
    }

    function KingLocation(): Square
      reads this`turn, this`whiteKingLocation, this`blackKingLocation
    {
      if turn == White then whiteKingLocation else blackKingLocation
    }

    function WhiteFlags(): SideFlags
      reads this`whiteKingMoved, this`whiteKingRookMoved, this`whiteQueenRookMoved
    {
      SideFlags(whiteKingMoved, whiteKingRookMoved, whiteQueenRookMoved)
    }

    function BlackFlags(): SideFlags
      reads this`blackKingMoved, this`blackKingRookMoved, this`blackQueenRookMoved
    {
      SideFlags(blackKingMoved, blackKingRookMoved, blackQueenRookMoved)
    }

    /** The castling flags of the side to move. */
    function Flags(): SideFlags
      reads this`turn, this`whiteKingMoved, this`whiteKingRookMoved, this`whiteQueenRookMoved,
            this`blackKingMoved, this`blackKingRookMoved, this`blackQueenRookMoved
    {
      if turn == White then WhiteFlags() else BlackFlags()
    }

    /** The starting position, White to move, nothing logged, no flag set. */
    constructor ()
      ensures Valid()
      ensures board == InitialBoard() && turn == White && moveLog == []
      ensures whiteKingLocation == (7, 4) && blackKingLocation == (0, 4)
      ensures !inCheck && pins == [] && checks == []
      ensures enPassant == NoEnPassant && pawnPromotion == None
      ensures WhiteFlags() == SideFlags(false, false, false) && BlackFlags() == SideFlags(false, false, false)
    {
      board := InitialBoard();
      turn := White;
      moveLog := [];
      whiteKingLocation := (7, 4);
      blackKingLocation := (0, 4);
      inCheck := false;
      pins := [];
      checks := [];
      enPassant := NoEnPassant;
      pawnPromotion := None;
      blackQueenRookMoved, blackKingRookMoved, blackKingMoved := false, false, false;
      whiteQueenRookMoved, whiteKingRookMoved, whiteKingMoved := false, false, false;
      new;
      InitialKings();
    }

    // -------------------------------------------------------------------------------
    // Pins and checks.

    /** `check_for_pins_or_check`: the eight rays from the side's king location, then the
        eight knight squares, exactly as the reference scan defines them; the side is in
        check as soon as one check entry is found. */
    method CheckForPinsOrCheck() returns (check: bool, pinList: seq<Ray>, checkList: seq<Ray>)
      requires WellFormed(board)
      ensures Scan(check, pinList, checkList) == PinsAndChecks(board, turn, KingLocation().0, KingLocation().1)
    {
      var loc := KingLocation();
      var rayChecks, knightChecks;
      pinList, rayChecks := ScanRays(board, turn, loc.0, loc.1);
      knightChecks := ScanKnights(board, turn, loc.0, loc.1);
      checkList := rayChecks + knightChecks;
      check := |checkList| > 0;
    }

    // -------------------------------------------------------------------------------
    // Per-piece generators.

    /** The reverse scan of the pin list that opens every piece generator: the direction of
        the last pin entry on `(row, col)`; with `consume` set, that entry is removed (by
        value, as `list.remove` does). */
    method LookUpPin(row: int, col: int, consume: bool) returns (pin: Option<(int, int)>)
      modifies this`pins
      ensures pin == PinOf(old(pins), row, col)
      ensures pins == if consume then Unpinned(old(pins), row, col) else old(pins)
    {
      pin := None;
      var i := |pins| - 1;
      while i >= 0
        invariant -1 <= i < |pins|
        invariant pins == old(pins)
        invariant LastPinIndex(pins, row, col, i + 1) == LastPinIndex(pins, row, col, |pins|)
      {
        if pins[i].row == row && pins[i].col == col {
          pin := Some((pins[i].dr, pins[i].dc));
          if consume {
            pins := RemoveFirst(pins, pins[i]);
          }
          break;
        }
        i := i - 1;
      }
    }

    /** `pawn_move`. */
    method PawnMove(row: int, col: int, moves: seq<Move>) returns (out: seq<Move>)
      requires WellFormed(board) && OnBoard(row, col)
      modifies this`pins
      ensures out == moves + PawnTargets(board, turn, enPassant, row, col, PinOf(old(pins), row, col))
      ensures pins == Unpinned(old(pins), row, col)
    {
      var pin := LookUpPin(row, col, true);
      out := AddPawnMoves(board, turn, enPassant, row, col, pin, moves);
    }

    /** `rook_move`: a queen's pin entry is kept for its bishop half to find. */
    method RookMove(row: int, col: int, moves: seq<Move>) returns (out: seq<Move>)
      requires WellFormed(board) && OnBoard(row, col)
      modifies this`pins
      ensures out == moves + RookTargets(board, turn, row, col, PinOf(old(pins), row, col))
      ensures pins == if board[row][col].Occupied? && board[row][col].kind == Queen
                      then old(pins) else Unpinned(old(pins), row, col)
    {
      var isQueen := board[row][col].Occupied? && board[row][col].kind == Queen;
      var pin := LookUpPin(row, col, !isQueen);
      out := AddSlides(board, turn, row, col, RookDirections, pin, moves);
    }

    /** `bishop_move`. */
    method BishopMove(row: int, col: int, moves: seq<Move>) returns (out: seq<Move>)
      requires WellFormed(board) && OnBoard(row, col)
      modifies this`pins
      ensures out == moves + BishopTargets(board, turn, row, col, PinOf(old(pins), row, col))
      ensures pins == Unpinned(old(pins), row, col)
    {
      var pin := LookUpPin(row, col, true);
      out := AddSlides(board, turn, row, col, BishopDirections, pin, moves);
    }

    /** `queen_move`: the rook moves, then the bishop moves, both under the same pin. */
    method QueenMove(row: int, col: int, moves: seq<Move>) returns (out: seq<Move>)
      requires WellFormed(board) && OnBoard(row, col) && board[row][col] == Occupied(turn, Queen)
      modifies this`pins
      ensures out == moves + (RookTargets(board, turn, row, col, PinOf(old(pins), row, col))
                              + BishopTargets(board, turn, row, col, PinOf(old(pins), row, col)))
      ensures pins == Unpinned(old(pins), row, col)
    {
      out := RookMove(row, col, moves);
      out := BishopMove(row, col, out);
      ConcatAssoc(moves, RookTargets(board, turn, row, col, PinOf(old(pins), row, col)),
                  BishopTargets(board, turn, row, col, PinOf(old(pins), row, col)));
    }

    /** The offset loop of `knight_move`: every on-board knight jump not onto an own
        piece, none at all for a pinned knight. */
    method AddKnightMoves(row: int, col: int, pinned: bool, moves: seq<Move>) returns (out: seq<Move>)
      requires WellFormed(board) && OnBoard(row, col)
      ensures out == moves + KnightTargets(board, turn, row, col, pinned, 0)
    {
      hide KnightTargets, KnightStep;
      out := moves;
      for k := 0 to 8
        invariant out + KnightTargets(board, turn, row, col, pinned, k) == moves + KnightTargets(board, turn, row, col, pinned, 0)
      {
        var er, ec := row + KnightOffsets[k].0, col + KnightOffsets[k].1;
        ghost var prev := out;
        KnightUnfold(board, turn, row, col, pinned, k);
        if 0 <= er < 8 && 0 <= ec < 8 && !pinned && !IsColor(board[er][ec], turn) {
          out := out + [NewMove((row, col), (er, ec), board)];
        }
        ConcatAssoc(prev, KnightStep(board, turn, row, col, pinned, k), KnightTargets(board, turn, row, col, pinned, k + 1));
      }
      KnightTargetsEnd(board, turn, row, col, pinned);
    }

    /** `knight_move`. */
    method KnightMove(row: int, col: int, moves: seq<Move>) returns (out: seq<Move>)
      requires WellFormed(board) && OnBoard(row, col)
      modifies this`pins
      ensures out == moves + KnightTargets(board, turn, row, col, PinOf(old(pins), row, col).Some?, 0)
      ensures pins == Unpinned(old(pins), row, col)
    {
      var pin := LookUpPin(row, col, true);
      out := AddKnightMoves(row, col, pin.Some?, moves);
    }

    // -------------------------------------------------------------------------------
    // The king.

    /** Moves the side's king location (the board is left alone). */
    method PlaceKing(sq: Square)
      modifies this`whiteKingLocation, this`blackKingLocation
      ensures KingLocation() == sq
      ensures turn == White ==> blackKingLocation == old(blackKingLocation)
      ensures turn == Black ==> whiteKingLocation == old(whiteKingLocation)
    {
      if turn == White {
        whiteKingLocation := sq;
      } else {
        blackKingLocation := sq;
      }
    }

    /** The probe the king generators use: the side's king location is moved to `sq` and
        the pin-and-check scan run from there. The location is left on `sq`. */
    method InCheckIfKingOn(sq: Square) returns (check: bool)
      requires WellFormed(board)
      modifies this`whiteKingLocation, this`blackKingLocation
      ensures check == InCheckAt(board, turn, sq.0, sq.1)
      ensures KingLocation() == sq
      ensures turn == White ==> blackKingLocation == old(blackKingLocation)
      ensures turn == Black ==> whiteKingLocation == old(whiteKingLocation)
    {
      PlaceKing(sq);
      var pinList, checkList;
      check, pinList, checkList := CheckForPinsOrCheck();
    }

    /** `check_castling_king_side`: flags clear, the king not in check, and each of the two
        squares toward the rook empty and not attacked (tested by moving the king location
        there). The location is restored. */
    method CheckCastlingKingSide(row: int, col: int) returns (ok: bool)
      requires WellFormed(board) && OnBoard(row, col) && KingLocation() == (row, col)
      requires !Flags().kingMoved ==> (row, col) == Home(turn)
      modifies this`whiteKingLocation, this`blackKingLocation
      ensures ok == CanCastleKingSide(board, Attacked(board, turn), (row, col), row, col, Flags())
      ensures ok ==> (row, col) == Home(turn)
      ensures whiteKingLocation == old(whiteKingLocation) && blackKingLocation == old(blackKingLocation)
    {
      hide InCheckAt;
      if Flags().kingMoved || Flags().kingRookMoved {
        return false;
      }
      var check := InCheckIfKingOn((row, col));
      if check {
        return false;
      }
      assert col + 2 < 8;
      var i := 1;
      while i < 3
        invariant 1 <= i <= 3
        invariant turn == White ==> blackKingLocation == old(blackKingLocation)
        invariant turn == Black ==> whiteKingLocation == old(whiteKingLocation)
        invariant i > 1 ==> board[row][col + 1] == Empty && !InCheckAt(board, turn, row, col + 1)
        invariant i > 2 ==> board[row][col + 2] == Empty && !InCheckAt(board, turn, row, col + 2)
      {
        check := InCheckIfKingOn((row, col + i));
        if board[row][col + i] != Empty || check {
          PlaceKing((row, col));
          return false;
        }
        i := i + 1;
      }
      PlaceKing((row, col));
      return true;
    }

    /** `check_castling_queen_side`: as the king side, toward column 0; only the two
        squares next to the king are tested. */
    method CheckCastlingQueenSide(row: int, col: int) returns (ok: bool)
      requires WellFormed(board) && OnBoard(row, col) && KingLocation() == (row, col)
      requires !Flags().kingMoved ==> (row, col) == Home(turn)
      modifies this`whiteKingLocation, this`blackKingLocation
      ensures ok == CanCastleQueenSide(board, Attacked(board, turn), (row, col), row, col, Flags())
      ensures ok ==> (row, col) == Home(turn)
      ensures whiteKingLocation == old(whiteKingLocation) && blackKingLocation == old(blackKingLocation)
    {
      hide InCheckAt;
      if Flags().kingMoved || Flags().queenRookMoved {
        return false;
      }
      var check := InCheckIfKingOn((row, col));
      if check {
        return false;
      }
      assert col - 2 >= 0;
      var i := 1;
      while i < 3
        invariant 1 <= i <= 3
        invariant turn == White ==> blackKingLocation == old(blackKingLocation)
        invariant turn == Black ==> whiteKingLocation == old(whiteKingLocation)
        invariant i > 1 ==> board[row][col - 1] == Empty && !InCheckAt(board, turn, row, col - 1)
        invariant i > 2 ==> board[row][col - 2] == Empty && !InCheckAt(board, turn, row, col - 2)
      {
        check := InCheckIfKingOn((row, col - i));
        if board[row][col - i] != Empty || check {
          PlaceKing((row, col));
          return false;
        }
        i := i + 1;
      }
      PlaceKing((row, col));
      return true;
    }

    /** The step of `king_move` to `(er, ec)`: the king is put there, probed, and the move
        is kept when it is not in check. The king is put back on `(row, col)`. */
    method AddKingStep(row: int, col: int, er: int, ec: int, moves: seq<Move>) returns (out: seq<Move>)
      requires WellFormed(board) && OnBoard(row, col) && OnBoard(er, ec) && KingLocation() == (row, col)
      modifies this`whiteKingLocation, this`blackKingLocation
      ensures out == moves + KingStepMove(board, row, col, er, ec, InCheckAt(board, turn, er, ec))
      ensures whiteKingLocation == old(whiteKingLocation) && blackKingLocation == old(blackKingLocation)
    {
      hide InCheckAt;
      var check := InCheckIfKingOn((er, ec));
      out := moves;
      if !check {
        out := out + [NewMove((row, col), (er, ec), board)];
      }
      PlaceKing((row, col));
    }

    /** The two castling tests of `king_move`, each adding the king's two-square move. */
    method AddCastles(row: int, col: int, moves: seq<Move>) returns (out: seq<Move>)
      requires WellFormed(board) && OnBoard(row, col) && KingLocation() == (row, col)
      requires !Flags().kingMoved ==> (row, col) == Home(turn)
      modifies this`whiteKingLocation, this`blackKingLocation
      ensures CanCastleKingSide(board, Attacked(board, turn), (row, col), row, col, Flags()) ==> col == 4
      ensures CanCastleQueenSide(board, Attacked(board, turn), (row, col), row, col, Flags()) ==> col == 4
      ensures out == moves + KingStepCastles(board, row, col,
                       CanCastleKingSide(board, Attacked(board, turn), (row, col), row, col, Flags()),
                       CanCastleQueenSide(board, Attacked(board, turn), (row, col), row, col, Flags()))
      ensures whiteKingLocation == old(whiteKingLocation) && blackKingLocation == old(blackKingLocation)
    {
      hide InCheckAt;
      out := moves;
      var kingSide := CheckCastlingKingSide(row, col);
      if kingSide {
        out := out + [NewMove((row, col), (row, col + 2), board)];
      }
      ghost var afterKingSide := out;
      var queenSide := CheckCastlingQueenSide(row, col);
      if queenSide {
        out := out + [NewMove((row, col), (row, col - 2), board)];
      }
      ConcatAssoc(moves, if kingSide then [NewMove((row, col), (row, col + 2), board)] else [],
                  if queenSide then [NewMove((row, col), (row, col - 2), board)] else []);
    }

    /** One direction of `king_move`: for an on-board square without an own piece, the
        step if the king is not in check there, then the castling moves allowed. */
    method AddKingDirection(row: int, col: int, k: int, moves: seq<Move>) returns (out: seq<Move>)
      requires WellFormed(board) && OnBoard(row, col) && KingLocation() == (row, col) && 0 <= k < 8
      requires !Flags().kingMoved ==> (row, col) == Home(turn)
      modifies this`whiteKingLocation, this`blackKingLocation
      ensures out == moves + KingStep(board, turn, Attacked(board, turn), row, col, Flags(), k)
      ensures whiteKingLocation == old(whiteKingLocation) && blackKingLocation == old(blackKingLocation)
    {
      hide InCheckAt, KingStep, CanCastleKingSide, CanCastleQueenSide, Attacked;
      var er, ec := row + KingDirections[k].0, col + KingDirections[k].1;
      if 0 <= er < 8 && 0 <= ec < 8 && !IsColor(board[er][ec], turn) {
        var afterStep := AddKingStep(row, col, er, ec, moves);
        out := AddCastles(row, col, afterStep);
        KingStepParts(board, turn, row, col, Flags(), k, InCheckAt(board, turn, er, ec),
                      CanCastleKingSide(board, Attacked(board, turn), (row, col), row, col, Flags()),
                      CanCastleQueenSide(board, Attacked(board, turn), (row, col), row, col, Flags()));
        ConcatAssoc(moves, KingStepMove(board, row, col, er, ec, InCheckAt(board, turn, er, ec)),
                    KingStepCastles(board, row, col,
                       CanCastleKingSide(board, Attacked(board, turn), (row, col), row, col, Flags()),
                       CanCastleQueenSide(board, Attacked(board, turn), (row, col), row, col, Flags())));
      } else {
        out := moves;
        KingStepBlocked(board, turn, Attacked(board, turn), row, col, Flags(), k);
      }
    }

    /** `king_move`: the eight directions in order. The king location is restored. */
    method KingMove(row: int, col: int, moves: seq<Move>) returns (out: seq<Move>)
      requires WellFormed(board) && OnBoard(row, col) && KingLocation() == (row, col)
      requires !Flags().kingMoved ==> (row, col) == Home(turn)
      modifies this`whiteKingLocation, this`blackKingLocation
      ensures out == moves + KingTargets(board, turn, Attacked(board, turn), row, col, Flags(), 0)
      ensures whiteKingLocation == old(whiteKingLocation) && blackKingLocation == old(blackKingLocation)
    {
      hide InCheckAt, KingStep, CanCastleKingSide, CanCastleQueenSide, Attacked;
      out := moves;
      for k := 0 to 8
        invariant whiteKingLocation == old(whiteKingLocation) && blackKingLocation == old(blackKingLocation)
        invariant out + KingTargets(board, turn, Attacked(board, turn), row, col, Flags(), k) ==
                  moves + KingTargets(board, turn, Attacked(board, turn), row, col, Flags(), 0)
      {
        ghost var prev := out;
        out := AddKingDirection(row, col, k, out);
        ConcatAssoc(prev, KingStep(board, turn, Attacked(board, turn), row, col, Flags(), k),
                    KingTargets(board, turn, Attacked(board, turn), row, col, Flags(), k + 1));
      }
    }

    // -------------------------------------------------------------------------------
    // All moves.

    /** The body of `get_possible_move` for one square: an own piece's generator. */
    method AddSquareMoves(row: int, col: int, moves: seq<Move>) returns (out: seq<Move>)
      requires WellFormed(board) && OnBoard(row, col) && KingAtHome(board, turn, Flags())
      requires KingsAt(board, turn, KingLocation())
      modifies this`pins, this`whiteKingLocation, this`blackKingLocation
      ensures out == moves + SquareMoves(board, turn, Attacked(board, turn), enPassant, Flags(), old(pins), row, col)
      ensures pins == PinsAfter(board, turn, old(pins), row, col)
      ensures whiteKingLocation == old(whiteKingLocation) && blackKingLocation == old(blackKingLocation)
    {
      var p := board[row][col];
      if !IsColor(p, turn) {
        return moves;
      }
      match p.kind
      case Pawn => out := PawnMove(row, col, moves);
      case Rook => out := RookMove(row, col, moves);
      case Bishop => out := BishopMove(row, col, moves);
      case Knight => out := KnightMove(row, col, moves);
      case Queen => out := QueenMove(row, col, moves);
      case King =>
        assert KingOn(board, turn, row, col);
        out := KingMove(row, col, moves);
    }

    /** One row of `get_possible_move`. */
    method AddRowMoves(row: int, moves: seq<Move>) returns (out: seq<Move>)
      requires WellFormed(board) && 0 <= row < 8 && KingAtHome(board, turn, Flags())
      requires KingsAt(board, turn, KingLocation())
      modifies this`pins, this`whiteKingLocation, this`blackKingLocation
      ensures out + PossibleFrom(board, turn, Attacked(board, turn), enPassant, Flags(), pins, row + 1, 0) ==
              moves + PossibleFrom(board, turn, Attacked(board, turn), enPassant, Flags(), old(pins), row, 0)
      ensures PinsLeft(board, turn, pins, row + 1, 0) == PinsLeft(board, turn, old(pins), row, 0)
      ensures whiteKingLocation == old(whiteKingLocation) && blackKingLocation == old(blackKingLocation)
    {
      out := moves;
      for col := 0 to 8
        invariant whiteKingLocation == old(whiteKingLocation) && blackKingLocation == old(blackKingLocation)
        invariant out + PossibleFrom(board, turn, Attacked(board, turn), enPassant, Flags(), pins, row, col) ==
                  moves + PossibleFrom(board, turn, Attacked(board, turn), enPassant, Flags(), old(pins), row, 0)
        invariant PinsLeft(board, turn, pins, row, col) == PinsLeft(board, turn, old(pins), row, 0)
      {
        ghost var prev, pins0 := out, pins;
        PossibleUnfold(board, turn, Attacked(board, turn), enPassant, Flags(), pins, row, col);
        out := AddSquareMoves(row, col, out);
        ConcatAssoc(prev, SquareMoves(board, turn, Attacked(board, turn), enPassant, Flags(), pins0, row, col),
                    PossibleFrom(board, turn, Attacked(board, turn), enPassant, Flags(), pins, row, col + 1));
      }
    }

    /** `get_possible_move`: every piece of the side to move, in row-major order, through
        its generator; the non-king generators consume their pin entries. */
    method GetPossibleMove() returns (moves: seq<Move>)
      requires WellFormed(board) && KingsAt(board, turn, KingLocation())
      requires !Flags().kingMoved ==> KingLocation() == Home(turn)
      modifies this`pins, this`whiteKingLocation, this`blackKingLocation
      ensures moves == PossibleFrom(board, turn, Attacked(board, turn), enPassant, Flags(), old(pins), 0, 0)
      ensures pins == PinsLeft(board, turn, old(pins), 0, 0)
      ensures whiteKingLocation == old(whiteKingLocation) && blackKingLocation == old(blackKingLocation)
    {
      moves := [];
      for row := 0 to 8
        invariant whiteKingLocation == old(whiteKingLocation) && blackKingLocation == old(blackKingLocation)
        invariant moves + PossibleFrom(board, turn, Attacked(board, turn), enPassant, Flags(), pins, row, 0) ==
                  PossibleFrom(board, turn, Attacked(board, turn), enPassant, Flags(), old(pins), 0, 0)
        invariant PinsLeft(board, turn, pins, row, 0) == PinsLeft(board, turn, old(pins), 0, 0)
      {
        moves := AddRowMoves(row, moves);
      }
    }

    // -------------------------------------------------------------------------------
    // Valid moves.

    /** `get_valid_move`: the scan is stored, then in single check the possible moves are
        filtered down to king moves and moves onto a valid square, in double check only
        the king's moves are generated, and otherwise every possible move is valid. */
    method GetValidMove() returns (moves: seq<Move>)
      requires Valid()
      modifies this`inCheck, this`pins, this`checks, this`whiteKingLocation, this`blackKingLocation
      ensures whiteKingLocation == old(whiteKingLocation) && blackKingLocation == old(blackKingLocation)
      ensures Valid()
      ensures moves == ValidMoves(board, turn, enPassant, Flags(), KingLocation())
      ensures var s := PinsAndChecks(board, turn, KingLocation().0, KingLocation().1);
        && inCheck == s.inCheck && checks == s.checks
        && pins == if s.inCheck && |s.checks| != 1 then s.pins else PinsLeft(board, turn, s.pins, 0, 0)
    {
      hide InCheckAt, Attacked, PossibleFrom, KingTargets, PinsAndChecks, KeepResolving, PinsLeft, ResolvingSquares;
      inCheck, pins, checks := CheckForPinsOrCheck();
      var loc := KingLocation();
      if inCheck {
        if |checks| == 1 {
          moves := ValidInSingleCheck();
        } else {
          moves := KingMove(loc.0, loc.1, []);
        }
      } else {
        moves := GetPossibleMove();
      }
    }

    /** The single-check branch of `get_valid_move`: the possible moves, then the removal
        of those that neither move the king nor land on a valid square. */
    method ValidInSingleCheck() returns (moves: seq<Move>)
      requires Valid() && |checks| == 1
      requires Scan(inCheck, pins, checks) == PinsAndChecks(board, turn, KingLocation().0, KingLocation().1)
      modifies this`pins, this`whiteKingLocation, this`blackKingLocation
      ensures whiteKingLocation == old(whiteKingLocation) && blackKingLocation == old(blackKingLocation)
      ensures Valid()
      ensures moves == CheckedMoves(board, turn, enPassant, Flags(), KingLocation(), Scan(inCheck, old(pins), checks))
      ensures pins == PinsLeft(board, turn, old(pins), 0, 0)
    {
      hide InCheckAt, Attacked, PossibleFrom, KingTargets, PinsAndChecks, KeepResolving, PinsLeft, ResolvingSquares;
      var loc := KingLocation();
      moves := GetPossibleMove();
      var squares := ResolvingSquaresOf(board, loc.0, loc.1, checks[0]);
      forall m | m in moves ensures BuiltFrom(m, board) {
        PossibleSound(board, turn, Attacked(board, turn), enPassant, Flags(), old(pins), 0, 0, m);
      }
      moves := KeepResolvingMoves(board, moves, squares);
    }

    // -------------------------------------------------------------------------------
    // Making a move.

    /** The last logged move. */
    function LastMove(): Move
      reads this`moveLog
      requires moveLog != []
    {
      moveLog[|moveLog| - 1]
    }

    /** How the side rules read the last logged move: through its notation, the piece code
        from characters 0 and 1 and the squares decoded from characters 2 to 5. */
    method ReadLastMove() returns (code: string, start: Square, end: Square)
      requires moveLog != [] && SquaresOnBoard(LastMove())
      ensures code == PieceCode(LastMove().pieceMoved)
      ensures start == (LastMove().startRow, LastMove().startCol)
      ensures end == (LastMove().endRow, LastMove().endCol)
    {
      var notation := GetChessNotation(LastMove());
      NotationRoundTrip(LastMove());
      code := notation[..2];
      start := (RankToRow[notation[3]], FileToCol[notation[2]]);
      end := (RankToRow[notation[5]], FileToCol[notation[4]]);
    }

    /** `make_move`: the start square is emptied and the moved piece written on the end
        square, the move is logged, a moving king or a rook leaving its corner column sets
        its flag, and the turn passes. Nothing else changes. */
    method MakeMove(move: Move)
      requires WellFormed(board) && SquaresOnBoard(move)
      modifies this`board, this`moveLog, this`turn
      modifies this`whiteKingMoved, this`whiteKingRookMoved, this`whiteQueenRookMoved
      modifies this`blackKingMoved, this`blackKingRookMoved, this`blackQueenRookMoved
      ensures board == MoveBoard(old(board), move)
      ensures moveLog == old(moveLog) + [move]
      ensures turn == Opponent(old(turn))
      ensures WhiteFlags() == MovedFlags(old(WhiteFlags()), White, move)
      ensures BlackFlags() == MovedFlags(old(BlackFlags()), Black, move)
    {
      board := Set(board, move.startRow, move.startCol, Empty);
      board := Set(board, move.endRow, move.endCol, move.pieceMoved);
      moveLog := moveLog + [move];
      MarkMovedPieces();
      turn := if turn == Black then White else Black;
    }

    /** The flag updates of `make_move`, read from the last logged move: a king sets its
        side's king flag, a rook leaving column 0 (7) the queen-side (king-side) rook flag. */
    method MarkMovedPieces()
      requires moveLog != [] && SquaresOnBoard(LastMove())
      modifies this`whiteKingMoved, this`whiteKingRookMoved, this`whiteQueenRookMoved
      modifies this`blackKingMoved, this`blackKingRookMoved, this`blackQueenRookMoved
      ensures WhiteFlags() == MovedFlags(old(WhiteFlags()), White, LastMove())
      ensures BlackFlags() == MovedFlags(old(BlackFlags()), Black, LastMove())
    {
      var code, start, _ := ReadLastMove();
      PieceCodeInjective(LastMove().pieceMoved, Occupied(White, King));
      PieceCodeInjective(LastMove().pieceMoved, Occupied(Black, King));
      PieceCodeInjective(LastMove().pieceMoved, Occupied(White, Rook));
      PieceCodeInjective(LastMove().pieceMoved, Occupied(Black, Rook));
      if code == "bK" && !blackKingMoved {
        blackKingMoved := true;
      }
      if code == "wK" && !whiteKingMoved {
        whiteKingMoved := true;
      }
      if code == "wR" && start.1 == 0 && !whiteQueenRookMoved {
        whiteQueenRookMoved := true;
      }
      if code == "wR" && start.1 == 7 && !whiteKingRookMoved {
        whiteKingRookMoved := true;
      }
      if code == "bR" && start.1 == 0 && !blackQueenRookMoved {
        blackQueenRookMoved := true;
      }
      if code == "bR" && start.1 == 7 && !blackKingRookMoved {
        blackKingRookMoved := true;
      }
    }

    /** `castling_move`: a king that the last move took from column 4 to column 6 (2)
        brings the rook of its colour from column 7 (0) to column 5 (3) of that colour's
        back rank, and that rook is marked as moved. */
    method CastlingMove()
      requires WellFormed(board) && moveLog != [] && SquaresOnBoard(LastMove())
      modifies this`board, this`whiteKingRookMoved, this`whiteQueenRookMoved
      modifies this`blackKingRookMoved, this`blackQueenRookMoved
      ensures board == CastleRook(old(board), LastMove())
      ensures WhiteFlags() == CastledFlags(old(WhiteFlags()), White, LastMove())
      ensures BlackFlags() == CastledFlags(old(BlackFlags()), Black, LastMove())
    {
      hide CastleRook;
      var code, start, end := ReadLastMove();
      ghost var m := LastMove();
      PieceCodeInjective(m.pieceMoved, Occupied(White, King));
      PieceCodeInjective(m.pieceMoved, Occupied(Black, King));
      CastleRookCases(board, m);
      var whiteKing, blackKing := code == "wK", code == "bK";
      assert whiteKing == (m.pieceMoved == Occupied(White, King)) && blackKing == (m.pieceMoved == Occupied(Black, King));
      var b := board;
      if whiteKing && start.1 == 4 && end.1 == 6 {
        b := Set(Set(b, 7, 7, Empty), 7, 5, Occupied(White, Rook));
        whiteKingRookMoved := true;
      }
      if whiteKing && start.1 == 4 && end.1 == 2 {
        b := Set(Set(b, 7, 0, Empty), 7, 3, Occupied(White, Rook));
        whiteQueenRookMoved := true;
      }
      if blackKing && start.1 == 4 && end.1 == 6 {
        b := Set(Set(b, 0, 7, Empty), 0, 5, Occupied(Black, Rook));
        blackKingRookMoved := true;
      }
      if blackKing && start.1 == 4 && end.1 == 2 {
        b := Set(Set(b, 0, 0, Empty), 0, 3, Occupied(Black, Rook));
        blackQueenRookMoved := true;
      }
      board := b;
    }

    /** `en_passant_move`: while a record is open, a pawn landing on its target square
        removes the pawn on its capture square; either way the record is closed. */
    method EnPassantMove()
      requires WellFormed(board)
      requires enPassant.EnPassantAt? ==> OnBoard(enPassant.captured.0, enPassant.captured.1)
      requires enPassant.EnPassantAt? ==> moveLog != [] && SquaresOnBoard(LastMove())
      modifies this`board, this`enPassant
      ensures old(enPassant).EnPassantAt? ==> board == EnPassantCapture(old(board), old(enPassant), LastMove())
      ensures old(enPassant) == NoEnPassant ==> board == old(board)
      ensures enPassant == NoEnPassant
    {
      if enPassant.EnPassantAt? {
        var code, _, end := ReadLastMove();
        PieceCodeFields(LastMove().pieceMoved);
        if code[1] == 'p' && end == enPassant.target {
          board := Set(board, enPassant.captured.0, enPassant.captured.1, Empty);
        }
        enPassant := NoEnPassant;
      }
    }

    /** `check_promotion`: a pawn that the last move took to row 0 or row 7 is to be
        promoted there; otherwise the pending promotion is left as it was. */
    method CheckPromotion()
      requires moveLog != [] && SquaresOnBoard(LastMove())
      modifies this`pawnPromotion
      ensures pawnPromotion == if PromotionSquare(LastMove()).Some? then PromotionSquare(LastMove()) else old(pawnPromotion)
    {
      var code, _, end := ReadLastMove();
      PieceCodeFields(LastMove().pieceMoved);
      if code[1] == 'p' && (end.0 == 7 || end.0 == 0) {
        pawnPromotion := Some(end);
      }
    }

    /** The piece picked for a pending promotion replaces the pawn (white on row 0, black
        on row 7), and the pending promotion is cleared. */
    method Promote(choice: Kind)
      requires WellFormed(board) && pawnPromotion.Some? && OnBoard(pawnPromotion.value.0, pawnPromotion.value.1)
      requires PromotionChoice(choice)
      modifies this`board, this`pawnPromotion
      ensures board == Set(old(board), old(pawnPromotion).value.0, old(pawnPromotion).value.1,
                           Occupied(PromotionColor(old(pawnPromotion).value.0), choice))
      ensures pawnPromotion == None
    {
      var sq := pawnPromotion.value;
      var piece := if sq.0 == 0 then Occupied(White, choice) else Occupied(Black, choice);
      board := Set(board, sq.0, sq.1, piece);
      pawnPromotion := None;
    }

    /** `check_en_passant`: a two-square pawn advance opens a record whose target is the
        square passed over and whose capture square is the pawn's; otherwise the record is
        left as it was. */
    method CheckEnPassant()
      requires moveLog != [] && SquaresOnBoard(LastMove())
      modifies this`enPassant
      ensures enPassant == if DoublePush(LastMove()) then EnPassantFrom(LastMove()) else old(enPassant)
    {
      var code, start, end := ReadLastMove();
      PieceCodeFields(LastMove().pieceMoved);
      if code[1] == 'p' && ((start.0 == 6 && end.0 == 4) || (start.0 == 1 && end.0 == 3)) {
        enPassant := EnPassantAt(((start.0 + end.0) / 2, start.1), end);
      }
    }

    /** The caller's king re-scan: every cell in row-major order, a black king found sets
        the black location and a white king the white one. */
    method RelocateKings()
      requires WellFormed(board)
      modifies this`whiteKingLocation, this`blackKingLocation
      ensures whiteKingLocation == KingScan(board, White, 0, 0, old(whiteKingLocation))
      ensures blackKingLocation == KingScan(board, Black, 0, 0, old(blackKingLocation))
    {
      for row := 0 to 8
        invariant KingScan(board, White, row, 0, whiteKingLocation) == KingScan(board, White, 0, 0, old(whiteKingLocation))
        invariant KingScan(board, Black, row, 0, blackKingLocation) == KingScan(board, Black, 0, 0, old(blackKingLocation))
      {
        for col := 0 to 8
          invariant KingScan(board, White, row, col, whiteKingLocation) == KingScan(board, White, 0, 0, old(whiteKingLocation))
          invariant KingScan(board, Black, row, col, blackKingLocation) == KingScan(board, Black, 0, 0, old(blackKingLocation))
        {
          if board[row][col] == Occupied(Black, King) {
            blackKingLocation := (row, col);
          }
          if board[row][col] == Occupied(White, King) {
            whiteKingLocation := (row, col);
          }
        }
      }
    }

    /** The side rules the caller runs after the king re-scan, in order: `castling_move`,
        `en_passant_move`, `check_promotion` with the picked piece put in when a promotion
        is pending, then `check_en_passant`. */
    method SideRules(choice: Kind)
      requires WellFormed(board) && moveLog != [] && SquaresOnBoard(LastMove()) && PromotionChoice(choice)
      requires enPassant.EnPassantAt? ==> OnBoard(enPassant.captured.0, enPassant.captured.1)
      requires pawnPromotion == None
      modifies this`board, this`enPassant, this`pawnPromotion
      modifies this`whiteKingRookMoved, this`whiteQueenRookMoved, this`blackKingRookMoved, this`blackQueenRookMoved
      ensures board == PromoteAt(EnPassantCapture(CastleRook(old(board), LastMove()), old(enPassant), LastMove()),
                                 LastMove(), choice)
      ensures enPassant == EnPassantFrom(LastMove()) && pawnPromotion == None
      ensures WhiteFlags() == CastledFlags(old(WhiteFlags()), White, LastMove())
      ensures BlackFlags() == CastledFlags(old(BlackFlags()), Black, LastMove())
    {
      hide CastleRook, CastledFlags;
      CastlingMove();
      EnPassantMove();
      CheckPromotion();
      if pawnPromotion.Some? {
        Promote(choice);
      }
      CheckEnPassant();
    }

    /** The caller's sequence for one move: `make_move`, the king re-scan, `castling_move`,
        `en_passant_move`, `check_promotion` with the picked piece put in when a promotion
        is pending, then `check_en_passant`. The game state is valid again afterwards, and
        the en-passant record is the one this move opens, if any. */
    method Commit(move: Move, choice: Kind)
      requires Valid() && BuiltFrom(move, board) && PromotionChoice(choice)
      requires exists v :: v in ValidMoves(board, turn, enPassant, Flags(), KingLocation()) && MovesEqual(v, move)
      modifies this`board, this`moveLog, this`turn, this`whiteKingLocation, this`blackKingLocation
      modifies this`enPassant, this`pawnPromotion
      modifies this`whiteKingMoved, this`whiteKingRookMoved, this`whiteQueenRookMoved
      modifies this`blackKingMoved, this`blackKingRookMoved, this`blackQueenRookMoved
      ensures Valid()
      ensures board == CommittedBoard(old(board), old(enPassant), move, choice)
      ensures moveLog == old(moveLog) + [move]
      ensures turn == Opponent(old(turn))
      ensures enPassant == EnPassantFrom(move)
      ensures WhiteFlags() == CastledFlags(MovedFlags(old(WhiteFlags()), White, move), White, move)
      ensures BlackFlags() == CastledFlags(MovedFlags(old(BlackFlags()), Black, move), Black, move)
      ensures whiteKingLocation == KingScan(MoveBoard(old(board), move), White, 0, 0, old(whiteKingLocation))
      ensures blackKingLocation == KingScan(MoveBoard(old(board), move), Black, 0, 0, old(blackKingLocation))
    {
      hide KingScan, PromoteAt, EnPassantCapture, CastleRook, MoveBoard, MovedFlags, CastledFlags, EnPassantFrom;
      hide ValidMoves, TargetVacant;
      ghost var b0, t0, ep0, f0, k0 := board, turn, enPassant, Flags(), KingLocation();
      MakeMove(move);
      RelocateKings();
      SideRules(choice);
      CommitKeepsKings(b0, ep0, move, choice, White, old(whiteKingLocation));
      CommitKeepsKings(b0, ep0, move, choice, Black, old(blackKingLocation));
      ValidMoveKeepsTargetVacant(b0, t0, ep0, f0, k0, move, choice);
    }
  }
}

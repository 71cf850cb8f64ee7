/** What the move lists of the generators hold: the exact reach of every piece kind, the
    effect of a pin, the shape of every generated move, and the check filter. */
module MoveFacts {
  import opened Pieces
  import opened Notation
  import opened Attacks
  import opened Generation

  // ---------------------------------------------------------------------------------
  // Sliders.

  predicate EmptyStep(b: Board, row: int, col: int, d: (int, int), t: int)
    requires WellFormed(b)
  {
    var sq := Step(row, col, d, t);
    OnBoard(sq.0, sq.1) && b[sq.0][sq.1] == Empty
  }

  /** Step `k` along `d` is a slider's destination: every step from `from` up to it is
      empty, and it is on the board and holds no own piece. */
  predicate SlideReaches(b: Board, turn: Color, row: int, col: int, d: (int, int), from: int, k: int)
    requires WellFormed(b)
  {
    var sq := Step(row, col, d, k);
    from <= k < 8 && OnBoard(sq.0, sq.1) && !IsColor(b[sq.0][sq.1], turn) &&
    forall t :: from <= t < k ==> EmptyStep(b, row, col, d, t)
  }

  /** A slide holds exactly the moves to the squares it reaches: it stops at the first
      occupied square, keeping it only when it holds an opponent piece. */
  lemma {:induction false} SlideExactly(b: Board, turn: Color, row: int, col: int, d: (int, int), i: int, m: Move)
    requires WellFormed(b) && OnBoard(row, col) && 1 <= i <= 8
    ensures m in Slide(b, turn, row, col, d, i) <==>
      exists k :: SlideReaches(b, turn, row, col, d, i, k) &&
        m == NewMove((row, col), (Step(row, col, d, k).0, Step(row, col, d, k).1), b)
    decreases 8 - i
  {
    if i < 8 {
      SlideExactly(b, turn, row, col, d, i + 1, m);
      var sq := Step(row, col, d, i);
      if EmptyStep(b, row, col, d, i) {
        if m in Slide(b, turn, row, col, d, i) && m != NewMove((row, col), (sq.0, sq.1), b) {
          var k :| SlideReaches(b, turn, row, col, d, i + 1, k) &&
            m == NewMove((row, col), (Step(row, col, d, k).0, Step(row, col, d, k).1), b);
          assert SlideReaches(b, turn, row, col, d, i, k);
        }
        if m == NewMove((row, col), (sq.0, sq.1), b) {
          assert SlideReaches(b, turn, row, col, d, i, i);
        }
        forall k | SlideReaches(b, turn, row, col, d, i, k) && k != i
          ensures SlideReaches(b, turn, row, col, d, i + 1, k)
        {
        }
      } else {
        forall k | SlideReaches(b, turn, row, col, d, i, k)
          ensures k == i
        {
        }
        if m in Slide(b, turn, row, col, d, i) {
          assert SlideReaches(b, turn, row, col, d, i, i);
        }
      }
    }
  }

  /** A multi-direction slide holds exactly the slides along the directions its pin allows. */
  lemma {:induction false} SlidesExactly(b: Board, turn: Color, row: int, col: int, dirs: seq<(int, int)>,
                                         pin: Option<(int, int)>, m: Move)
    requires WellFormed(b) && OnBoard(row, col)
    ensures m in Slides(b, turn, row, col, dirs, pin) <==>
      exists j :: 0 <= j < |dirs| && AlongPin(pin, dirs[j]) && m in Slide(b, turn, row, col, dirs[j], 1)
  {
    if dirs != [] {
      SlidesExactly(b, turn, row, col, dirs[1..], pin, m);
      if m in Slides(b, turn, row, col, dirs[1..], pin) {
        var j :| 0 <= j < |dirs[1..]| && AlongPin(pin, dirs[1..][j]) && m in Slide(b, turn, row, col, dirs[1..][j], 1);
        assert dirs[j + 1] == dirs[1..][j];
      }
      forall j | 0 <= j < |dirs| && j > 0 && AlongPin(pin, dirs[j]) && m in Slide(b, turn, row, col, dirs[j], 1)
        ensures m in Slides(b, turn, row, col, dirs[1..], pin)
      {
        assert dirs[1..][j - 1] == dirs[j];
      }
    }
  }

  lemma SlideDisplacement(b: Board, turn: Color, row: int, col: int, d: (int, int), m: Move)
    requires WellFormed(b) && OnBoard(row, col)
    requires m in Slide(b, turn, row, col, d, 1)
    ensures exists k :: 1 <= k < 8 && (m.endRow, m.endCol) == Step(row, col, d, k)
  {
    SlideExactly(b, turn, row, col, d, 1, m);
  }

  /** A pinned rook, bishop or queen moves only along its pin line, toward the king or
      toward the pinning piece: its displacement is a non-zero multiple of the pin
      direction. */
  lemma SliderAlongPin(b: Board, turn: Color, row: int, col: int, dirs: seq<(int, int)>, p: (int, int), m: Move)
    requires WellFormed(b) && OnBoard(row, col)
    requires m in Slides(b, turn, row, col, dirs, Some(p))
    ensures exists k :: -8 < k < 8 && k != 0 && (m.endRow, m.endCol) == Step(row, col, p, k)
  {
    SlidesExactly(b, turn, row, col, dirs, Some(p), m);
    var j :| 0 <= j < |dirs| && AlongPin(Some(p), dirs[j]) && m in Slide(b, turn, row, col, dirs[j], 1);
    SlideDisplacement(b, turn, row, col, dirs[j], m);
    var k :| 1 <= k < 8 && (m.endRow, m.endCol) == Step(row, col, dirs[j], k);
    OppositeSteps(row, col, dirs[j], p, k);
  }

  lemma OppositeSteps(row: int, col: int, d: (int, int), p: (int, int), k: int)
    requires AlongPin(Some(p), d) && 1 <= k < 8
    ensures exists k' :: -8 < k' < 8 && k' != 0 && Step(row, col, d, k) == Step(row, col, p, k')
  {
    if d == p {
      assert Step(row, col, d, k) == Step(row, col, p, k);
    } else {
      assert d.0 * k == p.0 * -k && d.1 * k == p.1 * -k;
      assert Step(row, col, d, k) == Step(row, col, p, -k);
    }
  }

  // ---------------------------------------------------------------------------------
  // Knights.

  predicate KnightReaches(b: Board, turn: Color, row: int, col: int, k: int)
    requires WellFormed(b)
  {
    0 <= k < 8 && OnBoard(Step(row, col, KnightOffsets[k], 1).0, Step(row, col, KnightOffsets[k], 1).1) &&
    !IsColor(b[Step(row, col, KnightOffsets[k], 1).0][Step(row, col, KnightOffsets[k], 1).1], turn)
  }

  /** An unpinned knight reaches every on-board knight square without an own piece; a
      pinned knight has no move at all. */
  lemma {:induction false} KnightExactly(b: Board, turn: Color, row: int, col: int, pinned: bool, k0: int, m: Move)
    requires WellFormed(b) && OnBoard(row, col) && 0 <= k0 <= 8
    ensures m in KnightTargets(b, turn, row, col, pinned, k0) <==>
      !pinned && (exists k :: k0 <= k && KnightJump(b, turn, row, col, k, m))
    decreases 8 - k0
  {
    if k0 < 8 {
      KnightExactly(b, turn, row, col, pinned, k0 + 1, m);
      var sq := Step(row, col, KnightOffsets[k0], 1);
      var here := if !pinned && KnightReaches(b, turn, row, col, k0) then [NewMove((row, col), (sq.0, sq.1), b)] else [];
      assert KnightTargets(b, turn, row, col, pinned, k0) == here + KnightTargets(b, turn, row, col, pinned, k0 + 1);
      assert m in here <==> !pinned && KnightJump(b, turn, row, col, k0, m);
    }
  }

  /** `m` is the knight jump along offset `k` onto a square without an own piece. */
  predicate KnightJump(b: Board, turn: Color, row: int, col: int, k: int, m: Move)
    requires WellFormed(b) && OnBoard(row, col)
  {
    KnightReaches(b, turn, row, col, k) &&
    m == NewMove((row, col), (Step(row, col, KnightOffsets[k], 1).0, Step(row, col, KnightOffsets[k], 1).1), b)
  }

  lemma PinnedKnightHasNoMoves(b: Board, turn: Color, row: int, col: int)
    requires WellFormed(b) && OnBoard(row, col)
    ensures KnightTargets(b, turn, row, col, true, 0) == []
  {
    if KnightTargets(b, turn, row, col, true, 0) != [] {
      KnightExactly(b, turn, row, col, true, 0, KnightTargets(b, turn, row, col, true, 0)[0]);
    }
  }

  // ---------------------------------------------------------------------------------
  // Pawns.

  /** Every pawn move goes one row forward (or two from the starting row over an empty
      square) onto an empty square, or diagonally one row forward onto an opponent piece
      or the en-passant square; a pinned pawn moves only when its step is exactly its pin
      direction. */
  lemma PawnSound(b: Board, turn: Color, ep: EnPassant, row: int, col: int, pin: Option<(int, int)>, m: Move)
    requires WellFormed(b) && OnBoard(row, col)
    requires m in PawnTargets(b, turn, ep, row, col, pin)
    ensures BuiltFrom(m, b) && m.startRow == row && m.startCol == col
    ensures PawnShape(b, turn, ep, row, col, pin, m)
  {
    if m in PawnPushes(b, turn, row, col, pin) {
      PushSound(b, turn, row, col, pin, m);
    } else if m in PawnCapture(b, turn, ep, row, col, pin, -1) {
    } else {
      assert m in PawnCapture(b, turn, ep, row, col, pin, 1);
    }
  }

  /** The shape of a pawn move from `(row, col)`. */
  predicate PawnShape(b: Board, turn: Color, ep: EnPassant, row: int, col: int, pin: Option<(int, int)>, m: Move)
    requires WellFormed(b) && OnBoard(row, col) && 0 <= row + Forward(turn) < 8 && SquaresOnBoard(m)
  {
    var f := Forward(turn);
    && (m.endCol == col ==>
          && b[row + f][col] == Empty && b[m.endRow][m.endCol] == Empty
          && (m.endRow == row + f || (m.endRow == row + 2 * f && row == PawnStartRow(turn))))
    && (m.endCol != col ==>
          && m.endRow == row + f && (m.endCol == col - 1 || m.endCol == col + 1)
          && (IsColor(b[m.endRow][m.endCol], Opponent(turn)) ||
              (ep.EnPassantAt? && ep.target == (m.endRow, m.endCol))))
    && (pin.Some? ==> pin.value == (f, m.endCol - col))
  }

  lemma PushSound(b: Board, turn: Color, row: int, col: int, pin: Option<(int, int)>, m: Move)
    requires WellFormed(b) && OnBoard(row, col) && 0 <= row + Forward(turn) < 8
    requires m in PawnPushes(b, turn, row, col, pin)
    ensures BuiltFrom(m, b) && m.startRow == row && m.startCol == col && m.endCol == col
    ensures b[row + Forward(turn)][col] == Empty && b[m.endRow][col] == Empty
    ensures m.endRow == row + Forward(turn) || (m.endRow == row + 2 * Forward(turn) && row == PawnStartRow(turn))
    ensures pin.Some? ==> pin.value == (Forward(turn), 0)
  {
  }

  /** An unpinned pawn (or one pinned along its file) with an empty square ahead can push,
      and from its starting row push two squares when the second one is empty too; one
      with an opponent piece or the en-passant square diagonally ahead (`dc` is -1 or 1)
      can capture there, unless pinned along another line. */
  lemma PawnComplete(b: Board, turn: Color, ep: EnPassant, row: int, col: int, pin: Option<(int, int)>, dc: int)
    requires WellFormed(b) && OnBoard(row, col) && (dc == -1 || dc == 1)
    ensures var r := row + Forward(turn);
      && ((0 <= r < 8 && b[r][col] == Empty && (pin.None? || pin.value == (Forward(turn), 0))) ==>
            NewMove((row, col), (r, col), b) in PawnTargets(b, turn, ep, row, col, pin))
      && ((row == PawnStartRow(turn) && b[r][col] == Empty && b[r + Forward(turn)][col] == Empty &&
           (pin.None? || pin.value == (Forward(turn), 0))) ==>
            NewMove((row, col), (r + Forward(turn), col), b) in PawnTargets(b, turn, ep, row, col, pin))
      && ((0 <= r < 8 && 0 <= col + dc < 8 && IsColor(b[r][col + dc], Opponent(turn)) &&
           (pin.None? || pin.value == (Forward(turn), dc))) ==>
            NewMove((row, col), (r, col + dc), b) in PawnTargets(b, turn, ep, row, col, pin))
      && ((0 <= r < 8 && 0 <= col + dc < 8 && ep.EnPassantAt? && ep.target == (r, col + dc) &&
           (pin.None? || pin.value == (Forward(turn), dc))) ==>
            NewMove((row, col), (r, col + dc), b) in PawnTargets(b, turn, ep, row, col, pin))
  {
  }

  // ---------------------------------------------------------------------------------
  // Kings.

  /** Direction `k` takes the king to an on-board square without an own piece where it
      would not be in check. */
  predicate KingReaches(b: Board, turn: Color, attacked: Square -> bool, row: int, col: int, k: int)
    requires WellFormed(b)
  {
    0 <= k < 8 && OnBoard(Step(row, col, KingDirections[k], 1).0, Step(row, col, KingDirections[k], 1).1) &&
    !IsColor(b[Step(row, col, KingDirections[k], 1).0][Step(row, col, KingDirections[k], 1).1], turn) &&
    !attacked(Step(row, col, KingDirections[k], 1))
  }

  /** The castling moves a king direction may add. */
  predicate CastlingMove(b: Board, attacked: Square -> bool, row: int, col: int, f: SideFlags, m: Move)
    requires WellFormed(b) && OnBoard(row, col)
    requires !f.kingMoved ==> col == 4
  {
    || (m.endRow == row && m.endCol == col + 2 && CanCastleKingSide(b, attacked, (row, col), row, col, f))
    || (m.endRow == row && m.endCol == col - 2 && CanCastleQueenSide(b, attacked, (row, col), row, col, f))
  }

  lemma KingStepSound(b: Board, turn: Color, attacked: Square -> bool, row: int, col: int, f: SideFlags, k: int, m: Move)
    requires WellFormed(b) && OnBoard(row, col) && 0 <= k < 8
    requires !f.kingMoved ==> (row, col) == Home(turn)
    requires m in KingStep(b, turn, attacked, row, col, f, k)
    ensures BuiltFrom(m, b) && m.startRow == row && m.startCol == col && !IsColor(m.pieceCaptured, turn)
    ensures || (KingReaches(b, turn, attacked, row, col, k) && (m.endRow, m.endCol) == Step(row, col, KingDirections[k], 1))
            || CastlingMove(b, attacked, row, col, f, m)
  {
  }

  /** Every king move is a step to an adjacent square without an own piece where the king
      would not be in check, or a castling move whose conditions hold. */
  lemma {:induction false} KingSound(b: Board, turn: Color, attacked: Square -> bool, row: int, col: int, f: SideFlags,
                                     k0: int, m: Move)
    requires WellFormed(b) && OnBoard(row, col) && 0 <= k0 <= 8
    requires !f.kingMoved ==> (row, col) == Home(turn)
    requires m in KingTargets(b, turn, attacked, row, col, f, k0)
    ensures BuiltFrom(m, b) && m.startRow == row && m.startCol == col && !IsColor(m.pieceCaptured, turn)
    ensures || (exists k :: k0 <= k && KingReaches(b, turn, attacked, row, col, k) &&
                  (m.endRow, m.endCol) == Step(row, col, KingDirections[k], 1))
            || CastlingMove(b, attacked, row, col, f, m)
    decreases 8 - k0
  {
    if m in KingStep(b, turn, attacked, row, col, f, k0) {
      KingStepSound(b, turn, attacked, row, col, f, k0, m);
    } else {
      KingSound(b, turn, attacked, row, col, f, k0 + 1, m);
    }
  }

  /** Every adjacent square the king may step to is in its move list. */
  lemma {:induction false} KingComplete(b: Board, turn: Color, attacked: Square -> bool, row: int, col: int,
                                        f: SideFlags, k0: int, k: int)
    requires WellFormed(b) && OnBoard(row, col) && 0 <= k0 <= k
    requires !f.kingMoved ==> (row, col) == Home(turn)
    requires KingReaches(b, turn, attacked, row, col, k)
    ensures NewMove((row, col), (Step(row, col, KingDirections[k], 1).0, Step(row, col, KingDirections[k], 1).1), b)
      in KingTargets(b, turn, attacked, row, col, f, k0)
    decreases 8 - k0
  {
    if k0 < k {
      KingComplete(b, turn, attacked, row, col, f, k0 + 1, k);
    } else {
      assert NewMove((row, col), (Step(row, col, KingDirections[k], 1).0, Step(row, col, KingDirections[k], 1).1), b)
        in KingStep(b, turn, attacked, row, col, f, k);
    }
  }

  // ---------------------------------------------------------------------------------
  // The pin list as the generators consume it.

  /** A square is pinned exactly when some pin entry names it, and its pin direction is
      that of the last such entry. */
  lemma PinOfExactly(pins: seq<Ray>, row: int, col: int)
    ensures PinOf(pins, row, col).None? <==> forall t :: 0 <= t < |pins| ==> !PinOnSquare(pins[t], row, col)
    ensures PinOf(pins, row, col).Some? ==>
      exists k :: 0 <= k < |pins| && PinOnSquare(pins[k], row, col) &&
        PinOf(pins, row, col) == Some((pins[k].dr, pins[k].dc)) &&
        forall t :: k < t < |pins| ==> !PinOnSquare(pins[t], row, col)
  {
    var k := LastPinIndex(pins, row, col, |pins|);
    if k >= 0 {
      assert PinOnSquare(pins[k], row, col);
    }
  }

  /** Looking up a pin consumes one entry, the one found, and only when there is one. */
  lemma UnpinnedExactly(pins: seq<Ray>, row: int, col: int)
    ensures PinOf(pins, row, col).None? ==> Unpinned(pins, row, col) == pins
    ensures PinOf(pins, row, col).Some? ==>
      |Unpinned(pins, row, col)| == |pins| - 1 &&
      exists k :: 0 <= k < |pins| && PinOnSquare(pins[k], row, col) &&
        multiset(Unpinned(pins, row, col)) == multiset(pins) - multiset{pins[k]}
  {
    var k := LastPinIndex(pins, row, col, |pins|);
    if k >= 0 {
      assert pins[k] in pins;
    }
  }

  lemma {:induction false} LastPinIndexCons(y: Ray, t: seq<Ray>, row: int, col: int, n: int)
    requires 0 <= n <= |t|
    ensures LastPinIndex([y] + t, row, col, n + 1) ==
      if LastPinIndex(t, row, col, n) >= 0 then LastPinIndex(t, row, col, n) + 1
      else if PinOnSquare(y, row, col) then 0 else -1
    decreases n
  {
    assert ([y] + t)[n] == if n == 0 then y else t[n - 1];
    if n > 0 && !PinOnSquare(t[n - 1], row, col) {
      LastPinIndexCons(y, t, row, col, n - 1);
    }
  }

  /** The pin of a square read from a list with one more entry in front: the entry in
      front counts only when the rest holds none for that square. */
  lemma PinOfCons(y: Ray, t: seq<Ray>, row: int, col: int)
    ensures PinOf([y] + t, row, col) ==
      if PinOf(t, row, col).Some? then PinOf(t, row, col)
      else if PinOnSquare(y, row, col) then Some((y.dr, y.dc)) else None
  {
    LastPinIndexCons(y, t, row, col, |t|);
    var k := LastPinIndex(t, row, col, |t|);
    if k >= 0 {
      assert ([y] + t)[k + 1] == t[k];
    } else {
      assert ([y] + t)[0] == y;
    }
  }

  /** Removing an entry that is not on `(row, col)` does not change that square's pin. */
  lemma {:induction false} RemoveFirstKeepsPin(s: seq<Ray>, x: Ray, row: int, col: int)
    requires !PinOnSquare(x, row, col)
    ensures PinOf(RemoveFirst(s, x), row, col) == PinOf(s, row, col)
  {
    if s != [] {
      assert s == [s[0]] + s[1..];
      PinOfCons(s[0], s[1..], row, col);
      if s[0] != x {
        RemoveFirstKeepsPin(s[1..], x, row, col);
        PinOfCons(s[0], RemoveFirst(s[1..], x), row, col);
      }
    }
  }

  /** A generator consumes only the pin entry of its own square: every other square keeps
      its pin. */
  lemma UnpinnedKeepsOthers(pins: seq<Ray>, r: int, c: int, row: int, col: int)
    requires (r, c) != (row, col)
    ensures PinOf(Unpinned(pins, r, c), row, col) == PinOf(pins, row, col)
  {
    var k := LastPinIndex(pins, r, c, |pins|);
    if k >= 0 {
      RemoveFirstKeepsPin(pins, pins[k], row, col);
    }
  }

  // ---------------------------------------------------------------------------------
  // Every generated move.

  /** A generated move is built from the board, moves a piece of the side to move, and
      never lands on an own piece. */
  predicate Plausible(b: Board, turn: Color, m: Move)
    requires WellFormed(b)
  {
    BuiltFrom(m, b) && IsColor(m.pieceMoved, turn) && !IsColor(m.pieceCaptured, turn)
  }

  lemma SlidesPlausible(b: Board, turn: Color, row: int, col: int, dirs: seq<(int, int)>,
                        pin: Option<(int, int)>, m: Move)
    requires WellFormed(b) && OnBoard(row, col) && IsColor(b[row][col], turn)
    requires m in Slides(b, turn, row, col, dirs, pin)
    ensures Plausible(b, turn, m) && m.startRow == row && m.startCol == col
  {
    SlidesExactly(b, turn, row, col, dirs, pin, m);
    var j :| 0 <= j < |dirs| && AlongPin(pin, dirs[j]) && m in Slide(b, turn, row, col, dirs[j], 1);
    SlideExactly(b, turn, row, col, dirs[j], 1, m);
  }

  lemma KingPlausible(b: Board, turn: Color, attacked: Square -> bool, f: SideFlags,
                      row: int, col: int, m: Move)
    requires WellFormed(b) && OnBoard(row, col) && IsColor(b[row][col], turn)
    requires !f.kingMoved ==> (row, col) == Home(turn)
    requires b[row][col].kind == King
    requires m in KingTargets(b, turn, attacked, row, col, f, 0)
    ensures Plausible(b, turn, m) && m.startRow == row && m.startCol == col
  {
    KingSound(b, turn, attacked, row, col, f, 0, m);
  }

  lemma TargetsPlausible(b: Board, turn: Color, attacked: Square -> bool, ep: EnPassant, f: SideFlags,
                         row: int, col: int, pin: Option<(int, int)>, m: Move)
    requires WellFormed(b) && OnBoard(row, col) && IsColor(b[row][col], turn) && KingAtHome(b, turn, f)
    requires TargetVacant(b, ep)
    requires m in PieceTargets(b, turn, attacked, ep, f, row, col, pin)
    ensures Plausible(b, turn, m) && m.startRow == row && m.startCol == col
  {
    match b[row][col].kind
    case Pawn => PawnSound(b, turn, ep, row, col, pin, m);
    case Rook => SlidesPlausible(b, turn, row, col, RookDirections, pin, m);
    case Bishop => SlidesPlausible(b, turn, row, col, BishopDirections, pin, m);
    case Queen =>
      if m in RookTargets(b, turn, row, col, pin) {
        SlidesPlausible(b, turn, row, col, RookDirections, pin, m);
      } else {
        SlidesPlausible(b, turn, row, col, BishopDirections, pin, m);
      }
    case Knight => KnightExactly(b, turn, row, col, pin.Some?, 0, m);
    case King =>
      assert KingOn(b, turn, row, col);
      KingPlausible(b, turn, attacked, f, row, col, m);
  }

  /** A king's moves do not depend on a pin entry. */
  lemma KingPieceTargets(b: Board, turn: Color, attacked: Square -> bool, ep: EnPassant, f: SideFlags,
                         row: int, col: int, pin: Option<(int, int)>)
    requires WellFormed(b) && KingAtHome(b, turn, f) && KingOn(b, turn, row, col)
    ensures PieceTargets(b, turn, attacked, ep, f, row, col, pin) == KingTargets(b, turn, attacked, row, col, f, 0)
  {
    hide KingTargets;
  }

  /** Every move of `get_possible_move` is plausible and starts on or after `(r, c)` in
      row-major order. */
  lemma {:induction false} PossibleSound(b: Board, turn: Color, attacked: Square -> bool, ep: EnPassant, f: SideFlags,
                                         pins: seq<Ray>, r: int, c: int, m: Move)
    requires WellFormed(b) && KingAtHome(b, turn, f) && 0 <= r <= 8 && 0 <= c <= 8
    requires TargetVacant(b, ep)
    requires m in PossibleFrom(b, turn, attacked, ep, f, pins, r, c)
    ensures Plausible(b, turn, m)
    ensures m.startRow > r || (m.startRow == r && m.startCol >= c)
    ensures OnBoard(m.startRow, m.startCol) && IsColor(b[m.startRow][m.startCol], turn)
    ensures m in PieceTargets(b, turn, attacked, ep, f, m.startRow, m.startCol, PinOf(pins, m.startRow, m.startCol))
    decreases 8 - r, 8 - c
  {
    hide KingTargets, PieceTargets;
    if r < 8 {
      if c == 8 {
        PossibleSound(b, turn, attacked, ep, f, pins, r + 1, 0, m);
      } else if IsColor(b[r][c], turn) {
        var isKing := b[r][c].kind == King;
        var here := if isKing then KingTargets(b, turn, attacked, r, c, f, 0)
                    else PieceTargets(b, turn, attacked, ep, f, r, c, PinOf(pins, r, c));
        var rest := if isKing then pins else Unpinned(pins, r, c);
        assert PossibleFrom(b, turn, attacked, ep, f, pins, r, c) ==
          here + PossibleFrom(b, turn, attacked, ep, f, rest, r, c + 1);
        if m in here {
          if isKing {
            assert KingOn(b, turn, r, c);
            KingPlausible(b, turn, attacked, f, r, c, m);
            KingPieceTargets(b, turn, attacked, ep, f, r, c, PinOf(pins, r, c));
          } else {
            TargetsPlausible(b, turn, attacked, ep, f, r, c, PinOf(pins, r, c), m);
          }
        } else {
          PossibleSound(b, turn, attacked, ep, f, rest, r, c + 1, m);
          if !isKing {
            UnpinnedKeepsOthers(pins, r, c, m.startRow, m.startCol);
          }
        }
      } else {
        PossibleSound(b, turn, attacked, ep, f, pins, r, c + 1, m);
      }
    }
  }

  /** Every move of every piece of the side to move, under the pin the list holds for its
      square, is among the moves of `get_possible_move` from `(r, c)` on when the piece
      stands on or after `(r, c)`: the pin entries other squares consume are not its own. */
  lemma {:induction false} PossibleComplete(b: Board, turn: Color, attacked: Square -> bool, ep: EnPassant, f: SideFlags,
                                            pins: seq<Ray>, r: int, c: int, m: Move)
    requires WellFormed(b) && KingAtHome(b, turn, f) && 0 <= r <= 8 && 0 <= c <= 8
    requires OnBoard(m.startRow, m.startCol) && IsColor(b[m.startRow][m.startCol], turn)
    requires m.startRow > r || (m.startRow == r && m.startCol >= c)
    requires m in PieceTargets(b, turn, attacked, ep, f, m.startRow, m.startCol, PinOf(pins, m.startRow, m.startCol))
    ensures m in PossibleFrom(b, turn, attacked, ep, f, pins, r, c)
    decreases 8 - r, 8 - c
  {
    hide KingTargets, PieceTargets;
    if c == 8 {
      PossibleComplete(b, turn, attacked, ep, f, pins, r + 1, 0, m);
    } else if IsColor(b[r][c], turn) {
      var isKing := b[r][c].kind == King;
      if isKing {
        assert KingOn(b, turn, r, c);
      }
      var here := if isKing then KingTargets(b, turn, attacked, r, c, f, 0)
                  else PieceTargets(b, turn, attacked, ep, f, r, c, PinOf(pins, r, c));
      var rest := if isKing then pins else Unpinned(pins, r, c);
      assert PossibleFrom(b, turn, attacked, ep, f, pins, r, c) ==
        here + PossibleFrom(b, turn, attacked, ep, f, rest, r, c + 1);
      if (m.startRow, m.startCol) == (r, c) {
        if isKing {
          KingPieceTargets(b, turn, attacked, ep, f, r, c, PinOf(pins, r, c));
        }
        assert m in here;
      } else {
        if !isKing {
          UnpinnedKeepsOthers(pins, r, c, m.startRow, m.startCol);
        }
        PossibleComplete(b, turn, attacked, ep, f, rest, r, c + 1, m);
      }
    } else {
      PossibleComplete(b, turn, attacked, ep, f, pins, r, c + 1, m);
    }
  }

  // ---------------------------------------------------------------------------------
  // The check filter.

  lemma {:induction false} KeepResolvingExactly(ms: seq<Move>, squares: seq<Square>, m: Move)
    ensures m in KeepResolving(ms, squares) <==> m in ms && Resolves(m, squares)
  {
    if ms != [] {
      KeepResolvingExactly(ms[1..], squares, m);
      assert ms == [ms[0]] + ms[1..];
    }
  }

  lemma {:induction false} KeepResolvingConcat(a: seq<Move>, c: seq<Move>, squares: seq<Square>)
    ensures KeepResolving(a + c, squares) == KeepResolving(a, squares) + KeepResolving(c, squares)
  {
    if a == [] {
      assert a + c == c;
    } else {
      KeepResolvingConcat(a[1..], c, squares);
      assert (a + c)[1..] == a[1..] + c;
    }
  }

  /** Removing, by identity, a move that does not resolve the check leaves the filtered
      list as it was, provided every move was built from the same board. */
  lemma {:induction false} RemoveNonResolving(ms: seq<Move>, x: Move, squares: seq<Square>, b: Board)
    requires WellFormed(b) && BuiltFrom(x, b) && !Resolves(x, squares)
    requires forall m :: m in ms ==> BuiltFrom(m, b)
    ensures KeepResolving(RemoveMatching(ms, x), squares) == KeepResolving(ms, squares)
    ensures forall m :: m in RemoveMatching(ms, x) ==> m in ms
  {
    if ms != [] {
      if MovesEqual(ms[0], x) {
        MovesEqualBuiltFrom(ms[0], x, b);
      } else {
        RemoveNonResolving(ms[1..], x, squares, b);
        assert RemoveMatching(ms, x) == [ms[0]] + RemoveMatching(ms[1..], x);
      }
    }
  }

  /** When `x` occurs in the front part, removing it touches only that part. */
  lemma {:induction false} RemoveMatchingFront(front: seq<Move>, back: seq<Move>, x: Move)
    requires x in front
    ensures RemoveMatching(front + back, x) == RemoveMatching(front, x) + back
    ensures |RemoveMatching(front, x)| == |front| - 1
  {
    if !MovesEqual(front[0], x) {
      assert front[0] != x;
      RemoveMatchingFront(front[1..], back, x);
      assert (front + back)[1..] == front[1..] + back;
    }
  }

  lemma {:induction false} RaySquaresUpTo(kr: int, kc: int, d: (int, int), j: int, e: Ray, s: int)
    requires d == (e.dr, e.dc) && d != (0, 0) && 1 <= s <= j < 8 && (e.row, e.col) == Step(kr, kc, d, j)
    ensures var rs := RaySquaresTo(kr, kc, e, s);
      |rs| == j - s + 1 && forall t :: 0 <= t < |rs| ==> rs[t] == Step(kr, kc, d, s + t)
    decreases j - s
  {
    if s < j {
      StepsDiffer(kr, kc, d, s, j);
      RaySquaresUpTo(kr, kc, d, j, e, s + 1);
    }
  }

  /** Distinct steps along a non-zero direction are distinct squares. */
  lemma StepsDiffer(kr: int, kc: int, d: (int, int), s: int, t: int)
    requires d != (0, 0) && s != t
    ensures Step(kr, kc, d, s) != Step(kr, kc, d, t)
  {
    if d.0 != 0 {
      assert d.0 * s - d.0 * t == d.0 * (s - t);
    } else {
      assert d.1 * s - d.1 * t == d.1 * (s - t);
    }
  }

  /** Against a check along a ray, the resolving squares are the squares from the king's
      neighbour up to and including the checking piece. */
  lemma ResolvingRayCheck(b: Board, ally: Color, kr: int, kc: int, i: int, j: int, e: Ray)
    requires WellFormed(b) && RayCheck(b, ally, kr, kc, i, j, e)
    ensures var rs := ResolvingSquares(b, kr, kc, e);
      |rs| == j && (forall t :: 1 <= t <= j ==> rs[t - 1] == Cell(kr, kc, i, t)) && rs[j - 1] == (e.row, e.col)
  {
    assert Directions[i] != (0, 0);
    RaySquaresUpTo(kr, kc, Directions[i], j, e, 1);
  }

  /** Against a knight's check, the only resolving square is the knight's. */
  lemma ResolvingKnightCheck(b: Board, ally: Color, kr: int, kc: int, k: int, e: Ray)
    requires WellFormed(b) && KnightCheck(b, ally, kr, kc, k, e)
    ensures ResolvingSquares(b, kr, kc, e) == [(e.row, e.col)]
  {
  }

  /** In single check, the valid moves are the possible moves that move the king or land
      on a resolving square. */
  lemma SingleCheck(b: Board, turn: Color, ep: EnPassant, f: SideFlags, king: Square, m: Move)
    requires WellFormed(b) && KingAtHome(b, turn, f) && OnBoard(king.0, king.1)
    requires !f.kingMoved ==> king == Home(turn)
    requires |PinsAndChecks(b, turn, king.0, king.1).checks| == 1
    ensures var s := PinsAndChecks(b, turn, king.0, king.1);
      && IsCheck(b, turn, king.0, king.1, s.checks[0])
      && (m in ValidMoves(b, turn, ep, f, king) <==>
            m in PossibleFrom(b, turn, Attacked(b, turn), ep, f, s.pins, 0, 0) &&
            Resolves(m, ResolvingSquares(b, king.0, king.1, s.checks[0])))
  {
    var s := PinsAndChecks(b, turn, king.0, king.1);
    ChecksExactly(b, turn, king.0, king.1, s.checks[0]);
    ChecksOnBoard(b, turn, king.0, king.1);
    KeepResolvingExactly(PossibleFrom(b, turn, Attacked(b, turn), ep, f, s.pins, 0, 0),
                         ResolvingSquares(b, king.0, king.1, s.checks[0]), m);
  }

  /** In double check only the king moves. */
  lemma DoubleCheck(b: Board, turn: Color, ep: EnPassant, f: SideFlags, king: Square, m: Move)
    requires WellFormed(b) && KingAtHome(b, turn, f) && OnBoard(king.0, king.1)
    requires !f.kingMoved ==> king == Home(turn)
    requires b[king.0][king.1] == Occupied(turn, King)
    requires |PinsAndChecks(b, turn, king.0, king.1).checks| >= 2
    requires m in ValidMoves(b, turn, ep, f, king)
    ensures IsKingMove(m) && (m.startRow, m.startCol) == king
  {
    KingSound(b, turn, Attacked(b, turn), king.0, king.1, f, 0, m);
  }

  /** Out of check, the valid moves are all possible moves. */
  lemma NotInCheck(b: Board, turn: Color, ep: EnPassant, f: SideFlags, king: Square)
    requires WellFormed(b) && KingAtHome(b, turn, f) && OnBoard(king.0, king.1)
    requires !f.kingMoved ==> king == Home(turn)
    requires !(exists c :: IsCheck(b, turn, king.0, king.1, c))
    ensures ValidMoves(b, turn, ep, f, king) ==
      PossibleFrom(b, turn, Attacked(b, turn), ep, f, PinsAndChecks(b, turn, king.0, king.1).pins, 0, 0)
  {
    InCheckExactly(b, turn, king.0, king.1);
  }

  /** Every valid move is plausible. */
  lemma ValidSound(b: Board, turn: Color, ep: EnPassant, f: SideFlags, king: Square, m: Move)
    requires WellFormed(b) && KingAtHome(b, turn, f) && OnBoard(king.0, king.1)
    requires !f.kingMoved ==> king == Home(turn)
    requires b[king.0][king.1] == Occupied(turn, King)
    requires TargetVacant(b, ep)
    requires m in ValidMoves(b, turn, ep, f, king)
    ensures Plausible(b, turn, m)
    ensures OnBoard(m.startRow, m.startCol) && IsColor(b[m.startRow][m.startCol], turn)
    ensures m in PieceTargets(b, turn, Attacked(b, turn), ep, f, m.startRow, m.startCol,
                              PinOf(PinsAndChecks(b, turn, king.0, king.1).pins, m.startRow, m.startCol))
  {
    var s := PinsAndChecks(b, turn, king.0, king.1);
    if s.inCheck && |s.checks| != 1 {
      KingPlausible(b, turn, Attacked(b, turn), f, king.0, king.1, m);
      KingPieceTargets(b, turn, Attacked(b, turn), ep, f, king.0, king.1, PinOf(s.pins, king.0, king.1));
    } else if s.inCheck {
      SingleCheck(b, turn, ep, f, king, m);
      PossibleSound(b, turn, Attacked(b, turn), ep, f, s.pins, 0, 0, m);
    } else {
      PossibleSound(b, turn, Attacked(b, turn), ep, f, s.pins, 0, 0, m);
    }
  }

  /** Every valid move is built from the board, and a valid pawn move of two rows is the
      push from the starting row along the file over an empty square. */
  lemma ValidPawnAdvance(b: Board, turn: Color, ep: EnPassant, f: SideFlags, king: Square, m: Move)
    requires WellFormed(b) && KingAtHome(b, turn, f) && OnBoard(king.0, king.1)
    requires !f.kingMoved ==> king == Home(turn)
    requires TargetVacant(b, ep)
    requires m in ValidMoves(b, turn, ep, f, king)
    ensures BuiltFrom(m, b)
    ensures m.pieceMoved.Occupied? && m.pieceMoved.kind == Pawn && (m.endRow == m.startRow + 2 || m.endRow == m.startRow - 2) ==>
      && m.endCol == m.startCol && m.startRow == PawnStartRow(turn) && m.endRow == m.startRow + 2 * Forward(turn)
      && b[m.startRow + Forward(turn)][m.startCol] == Empty
  {
    hide PieceTargets, PawnTargets, KingTargets, PossibleFrom, KeepResolving;
    var s := PinsAndChecks(b, turn, king.0, king.1);
    if s.inCheck && |s.checks| != 1 {
      KingMoveRows(b, turn, Attacked(b, turn), king.0, king.1, f, m);
    } else {
      if s.inCheck {
        SingleCheck(b, turn, ep, f, king, m);
      }
      PossibleSound(b, turn, Attacked(b, turn), ep, f, s.pins, 0, 0, m);
      if m.pieceMoved.Occupied? && m.pieceMoved.kind == Pawn {
        var pin := PinOf(s.pins, m.startRow, m.startCol);
        PawnPieceTargets(b, turn, Attacked(b, turn), ep, f, m.startRow, m.startCol, pin);
        PawnSound(b, turn, ep, m.startRow, m.startCol, pin, m);
      }
    }
  }

  /** A king move, a step or a castling, changes the row by at most one. */
  lemma KingMoveRows(b: Board, turn: Color, attacked: Square -> bool, row: int, col: int, f: SideFlags, m: Move)
    requires WellFormed(b) && OnBoard(row, col)
    requires !f.kingMoved ==> (row, col) == Home(turn)
    requires m in KingTargets(b, turn, attacked, row, col, f, 0)
    ensures BuiltFrom(m, b) && m.startRow == row && row - 1 <= m.endRow <= row + 1
  {
    hide KingTargets, CanCastleKingSide, CanCastleQueenSide;
    KingSound(b, turn, attacked, row, col, f, 0, m);
    if !CastlingMove(b, attacked, row, col, f, m) {
      var k :| 0 <= k && KingReaches(b, turn, attacked, row, col, k) &&
        (m.endRow, m.endCol) == Step(row, col, KingDirections[k], 1);
      KingReachesDirection(b, turn, attacked, row, col, k);
    }
  }

  lemma KingReachesDirection(b: Board, turn: Color, attacked: Square -> bool, row: int, col: int, k: int)
    requires WellFormed(b) && KingReaches(b, turn, attacked, row, col, k)
    ensures 0 <= k < 8 && -1 <= KingDirections[k].0 <= 1
  {
  }

  lemma PawnPieceTargets(b: Board, turn: Color, attacked: Square -> bool, ep: EnPassant, f: SideFlags,
                         row: int, col: int, pin: Option<(int, int)>)
    requires WellFormed(b) && KingAtHome(b, turn, f) && OnBoard(row, col) && b[row][col] == Occupied(turn, Pawn)
    ensures PieceTargets(b, turn, attacked, ep, f, row, col, pin) == PawnTargets(b, turn, ep, row, col, pin)
  {
    hide PawnTargets;
  }
}

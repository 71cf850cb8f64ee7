/** Pin and check detection: the reference definition of what `check_for_pins_or_check`
    computes from the board, the side to move and that side's king square, and the
    lemmas that say what its pins and checks are. */
module Attacks {
  import opened Pieces

  /** A pin or check entry `(row, col, dr, dc)`: the square of the pinned piece or of the
      checking piece, and the ray direction or knight offset from the king. */
  datatype Ray = Ray(row: int, col: int, dr: int, dc: int)

  datatype Scan = Scan(inCheck: bool, pins: seq<Ray>, checks: seq<Ray>)

  /** What one ray from the king yields. */
  datatype RayOutcome = Clear | PinOn(pin: Ray) | CheckFrom(check: Ray)

  /** Rays 0 to 3 are orthogonal, 4 to 7 diagonal. */
  const Directions: seq<(int, int)> :=
    [(-1, 0), (0, -1), (1, 0), (0, 1), (-1, -1), (-1, 1), (1, -1), (1, 1)]

  const KnightOffsets: seq<(int, int)> :=
    [(-2, -1), (-2, 1), (-1, -2), (-1, 2), (2, 1), (2, -1), (1, 2), (1, -2)]

  /** The square `j` steps from the king along ray `i`. */
  function Cell(kr: int, kc: int, i: int, j: int): Square
    requires 0 <= i < 8
  {
    Step(kr, kc, Directions[i], j)
  }

  function EntryAt(kr: int, kc: int, i: int, j: int): Ray
    requires 0 <= i < 8
  {
    Ray(Cell(kr, kc, i, j).0, Cell(kr, kc, i, j).1, Directions[i].0, Directions[i].1)
  }

  /** The ray scan looks through empty squares and through the side's own king (which
      stays on its square while another square is tried for it). */
  predicate Transparent(p: Piece, ally: Color) {
    p.Empty? || p == Occupied(ally, King)
  }

  predicate OpenAt(b: Board, ally: Color, kr: int, kc: int, i: int, s: int)
    requires WellFormed(b) && 0 <= i < 8
  {
    var sq := Cell(kr, kc, i, s);
    OnBoard(sq.0, sq.1) && Transparent(b[sq.0][sq.1], ally)
  }

  /** Steps `from` (inclusive) to `to` (exclusive) of ray `i` are on the board and transparent. */
  predicate ClearRun(b: Board, ally: Color, kr: int, kc: int, i: int, from: int, to: int)
    requires WellFormed(b) && 0 <= i < 8
  {
    forall s :: from <= s < to ==> OpenAt(b, ally, kr, kc, i, s)
  }

  /** Whether an opponent piece of kind `kind`, first met at step `j` of ray `i`, gives
      check (or confirms a pin): a rook on a straight ray, a bishop on a diagonal ray, a
      queen on any ray, a king next to the square, a pawn next to it on one of the two
      diagonals it captures along. */
  predicate Threatens(kind: Kind, opponent: Color, i: int, j: int) {
    || (0 <= i <= 3 && kind == Rook)
    || (4 <= i <= 7 && kind == Bishop)
    || (j == 1 && kind == Pawn && ((opponent == White && 6 <= i <= 7) || (opponent == Black && 4 <= i <= 5)))
    || kind == Queen
    || (j == 1 && kind == King)
  }

  /** An opponent piece at step `j` of ray `i` that gives check by `Threatens`. */
  predicate ThreatAt(b: Board, ally: Color, kr: int, kc: int, i: int, j: int)
    requires WellFormed(b) && 0 <= i < 8
  {
    var sq := Cell(kr, kc, i, j);
    OnBoard(sq.0, sq.1) && IsColor(b[sq.0][sq.1], Opponent(ally)) &&
    Threatens(b[sq.0][sq.1].kind, Opponent(ally), i, j)
  }

  /** A piece of the side's own, other than its king, at step `j` of ray `i`. */
  predicate BlockerAt(b: Board, ally: Color, kr: int, kc: int, i: int, j: int)
    requires WellFormed(b) && 0 <= i < 8
  {
    var sq := Cell(kr, kc, i, j);
    OnBoard(sq.0, sq.1) && IsColor(b[sq.0][sq.1], ally) && b[sq.0][sq.1].kind != King
  }

  /** The scan of ray `i` from step `j` on, with `cand` the candidate pin met so far.
      (Here and in the other scans over a board, the board in the termination measure
      only keeps the verifier from unrolling a scan fully whenever its index is a
      constant.) */
  function ScanRay(b: Board, ally: Color, kr: int, kc: int, i: int, j: int, cand: Option<Ray>): RayOutcome
    requires WellFormed(b) && 0 <= i < 8 && 1 <= j <= 8
    decreases 8 - j, b
  {
    if j == 8 then Clear
    else
      var sq := Cell(kr, kc, i, j);
      if !OnBoard(sq.0, sq.1) then Clear
      else
        var p := b[sq.0][sq.1];
        if IsColor(p, ally) && p.kind != King then
          if cand.None? then ScanRay(b, ally, kr, kc, i, j + 1, Some(EntryAt(kr, kc, i, j))) else Clear
        else if IsColor(p, Opponent(ally)) then
          if Threatens(p.kind, Opponent(ally), i, j) then
            if cand.None? then CheckFrom(EntryAt(kr, kc, i, j)) else PinOn(cand.value)
          else Clear
        else ScanRay(b, ally, kr, kc, i, j + 1, cand)
  }

  function RayPins(b: Board, ally: Color, kr: int, kc: int, i: int): seq<Ray>
    requires WellFormed(b) && 0 <= i <= 8
    decreases 8 - i, b
  {
    if i == 8 then []
    else
      (match ScanRay(b, ally, kr, kc, i, 1, None)
       case PinOn(p) => [p]
       case _ => [])
      + RayPins(b, ally, kr, kc, i + 1)
  }

  function RayChecks(b: Board, ally: Color, kr: int, kc: int, i: int): seq<Ray>
    requires WellFormed(b) && 0 <= i <= 8
    decreases 8 - i, b
  {
    if i == 8 then []
    else
      (match ScanRay(b, ally, kr, kc, i, 1, None)
       case CheckFrom(c) => [c]
       case _ => [])
      + RayChecks(b, ally, kr, kc, i + 1)
  }

  function KnightEntry(kr: int, kc: int, k: int): Ray
    requires 0 <= k < 8
  {
    Ray(kr + KnightOffsets[k].0, kc + KnightOffsets[k].1, KnightOffsets[k].0, KnightOffsets[k].1)
  }

  /** An opponent knight one knight's move (offset `k`) away from the king. */
  predicate KnightCheck(b: Board, ally: Color, kr: int, kc: int, k: int, e: Ray)
    requires WellFormed(b)
  {
    0 <= k < 8 && e == KnightEntry(kr, kc, k) &&
    OnBoard(e.row, e.col) && b[e.row][e.col] == Occupied(Opponent(ally), Knight)
  }

  function KnightChecks(b: Board, ally: Color, kr: int, kc: int, k: int): seq<Ray>
    requires WellFormed(b) && 0 <= k <= 8
    decreases 8 - k, b
  {
    if k == 8 then []
    else
      (if KnightCheck(b, ally, kr, kc, k, KnightEntry(kr, kc, k)) then [KnightEntry(kr, kc, k)] else [])
      + KnightChecks(b, ally, kr, kc, k + 1)
  }

  /** The reference definition of `check_for_pins_or_check` for side `ally` whose king is
      (taken to be) on `(kr, kc)`: ray pins in ray order, then ray checks in ray order
      followed by knight checks in offset order; in check when some check was found. */
  function PinsAndChecks(b: Board, ally: Color, kr: int, kc: int): Scan
    requires WellFormed(b)
  {
    var checks := RayChecks(b, ally, kr, kc, 0) + KnightChecks(b, ally, kr, kc, 0);
    Scan(|checks| > 0, RayPins(b, ally, kr, kc, 0), checks)
  }

  predicate InCheckAt(b: Board, ally: Color, kr: int, kc: int)
    requires WellFormed(b)
  {
    PinsAndChecks(b, ally, kr, kc).inCheck
  }

  // ---------------------------------------------------------------------------------
  // What a check and a pin are, stated without the scan.

  /** Ray `i` reaches, over transparent squares, an opponent piece at step `j` that gives
      check from there; `e` is that piece's entry. */
  predicate RayCheck(b: Board, ally: Color, kr: int, kc: int, i: int, j: int, e: Ray)
    requires WellFormed(b)
  {
    0 <= i < 8 && 1 <= j < 8 && e == EntryAt(kr, kc, i, j) &&
    ClearRun(b, ally, kr, kc, i, 1, j) && ThreatAt(b, ally, kr, kc, i, j)
  }

  /** Along ray `i` the first non-transparent square (step `j`) holds an own non-king piece
      (the pinned piece, entry `e`) and the next one (step `j2`) an opponent piece that
      would give check from there. */
  predicate RayPin(b: Board, ally: Color, kr: int, kc: int, i: int, j: int, j2: int, e: Ray)
    requires WellFormed(b)
  {
    0 <= i < 8 && 1 <= j < j2 < 8 && e == EntryAt(kr, kc, i, j) &&
    ClearRun(b, ally, kr, kc, i, 1, j) && BlockerAt(b, ally, kr, kc, i, j) &&
    ClearRun(b, ally, kr, kc, i, j + 1, j2) && ThreatAt(b, ally, kr, kc, i, j2)
  }

  ghost predicate IsCheck(b: Board, ally: Color, kr: int, kc: int, e: Ray)
    requires WellFormed(b)
  {
    (exists i, j :: RayCheck(b, ally, kr, kc, i, j, e)) ||
    (exists k :: KnightCheck(b, ally, kr, kc, k, e))
  }

  ghost predicate IsPin(b: Board, ally: Color, kr: int, kc: int, e: Ray)
    requires WellFormed(b)
  {
    exists i, j, j2 :: RayPin(b, ally, kr, kc, i, j, j2, e)
  }

  // ---------------------------------------------------------------------------------
  // The scan of one ray.

  /** From step `j` on, ray `i` reaches a checking piece at step `j2` over transparent squares. */
  predicate ThreatAhead(b: Board, ally: Color, kr: int, kc: int, i: int, j: int, j2: int)
    requires WellFormed(b) && 0 <= i < 8
  {
    j <= j2 < 8 && ClearRun(b, ally, kr, kc, i, j, j2) && ThreatAt(b, ally, kr, kc, i, j2)
  }

  /** From step `j` on, ray `i` meets first an own non-king piece at step `j1` (entry `e`),
      then a checking piece at step `j2`. */
  predicate PinAhead(b: Board, ally: Color, kr: int, kc: int, i: int, j: int, j1: int, j2: int, e: Ray)
    requires WellFormed(b) && 0 <= i < 8
  {
    j <= j1 && ClearRun(b, ally, kr, kc, i, j, j1) && BlockerAt(b, ally, kr, kc, i, j1) &&
    e == EntryAt(kr, kc, i, j1) && ThreatAhead(b, ally, kr, kc, i, j1 + 1, j2)
  }

  /** Stepping over a transparent square. */
  lemma AheadOverOpen(b: Board, ally: Color, kr: int, kc: int, i: int, j: int)
    requires WellFormed(b) && 0 <= i < 8 && OpenAt(b, ally, kr, kc, i, j)
    ensures forall j2 :: ThreatAhead(b, ally, kr, kc, i, j, j2) <==> j < j2 && ThreatAhead(b, ally, kr, kc, i, j + 1, j2)
    ensures forall j1, j2, e :: PinAhead(b, ally, kr, kc, i, j, j1, j2, e) <==> j < j1 && PinAhead(b, ally, kr, kc, i, j + 1, j1, j2, e)
  {
    assert !ThreatAt(b, ally, kr, kc, i, j) && !BlockerAt(b, ally, kr, kc, i, j);
  }

  /** At a square that is not transparent nothing lies further ahead. */
  lemma AheadAtStop(b: Board, ally: Color, kr: int, kc: int, i: int, j: int)
    requires WellFormed(b) && 0 <= i < 8 && !OpenAt(b, ally, kr, kc, i, j)
    ensures forall j2 :: ThreatAhead(b, ally, kr, kc, i, j, j2) <==> j2 == j && j < 8 && ThreatAt(b, ally, kr, kc, i, j)
    ensures forall j1, j2, e :: PinAhead(b, ally, kr, kc, i, j, j1, j2, e) <==>
      j1 == j && BlockerAt(b, ally, kr, kc, i, j) && e == EntryAt(kr, kc, i, j) && ThreatAhead(b, ally, kr, kc, i, j + 1, j2)
  {
  }

  lemma {:induction false} ScanWithCandidate(b: Board, ally: Color, kr: int, kc: int, i: int, j: int, p: Ray)
    requires WellFormed(b) && 0 <= i < 8 && 1 <= j <= 8
    ensures var o := ScanRay(b, ally, kr, kc, i, j, Some(p));
      o.Clear? || o == PinOn(p)
    ensures ScanRay(b, ally, kr, kc, i, j, Some(p)) == PinOn(p) <==>
      exists j2 :: ThreatAhead(b, ally, kr, kc, i, j, j2)
    decreases 8 - j
  {
    if j < 8 {
      if OpenAt(b, ally, kr, kc, i, j) {
        ScanWithCandidate(b, ally, kr, kc, i, j + 1, p);
        AheadOverOpen(b, ally, kr, kc, i, j);
        var next := j + 1;
        if exists j2 :: ThreatAhead(b, ally, kr, kc, i, next, j2) {
          var j2 :| ThreatAhead(b, ally, kr, kc, i, next, j2);
          assert ThreatAhead(b, ally, kr, kc, i, j, j2);
        }
      } else {
        AheadAtStop(b, ally, kr, kc, i, j);
        if ThreatAt(b, ally, kr, kc, i, j) {
          assert ThreatAhead(b, ally, kr, kc, i, j, j);
        }
      }
    }
  }

  /** Without a candidate, a ray yields a check exactly when it meets a checking piece over
      transparent squares; `e` is that piece's entry. */
  lemma {:induction false} ScanCheck(b: Board, ally: Color, kr: int, kc: int, i: int, j: int, e: Ray)
    requires WellFormed(b) && 0 <= i < 8 && 1 <= j <= 8
    ensures ScanRay(b, ally, kr, kc, i, j, None) == CheckFrom(e) <==>
      exists j2 :: ThreatAhead(b, ally, kr, kc, i, j, j2) && e == EntryAt(kr, kc, i, j2)
    decreases 8 - j
  {
    if j < 8 {
      if OpenAt(b, ally, kr, kc, i, j) {
        ScanCheck(b, ally, kr, kc, i, j + 1, e);
        AheadOverOpen(b, ally, kr, kc, i, j);
      } else {
        AheadAtStop(b, ally, kr, kc, i, j);
        if BlockerAt(b, ally, kr, kc, i, j) {
          ScanWithCandidate(b, ally, kr, kc, i, j + 1, EntryAt(kr, kc, i, j));
        } else if ThreatAt(b, ally, kr, kc, i, j) && e == EntryAt(kr, kc, i, j) {
          assert ThreatAhead(b, ally, kr, kc, i, j, j);
        }
      }
    }
  }

  /** Without a candidate, a ray yields a pin exactly when its first non-transparent square
      holds an own non-king piece (entry `e`) and its next one a checking piece. */
  lemma {:induction false} ScanPin(b: Board, ally: Color, kr: int, kc: int, i: int, j: int, e: Ray)
    requires WellFormed(b) && 0 <= i < 8 && 1 <= j <= 8
    ensures ScanRay(b, ally, kr, kc, i, j, None) == PinOn(e) <==>
      exists j1, j2 :: PinAhead(b, ally, kr, kc, i, j, j1, j2, e)
    decreases 8 - j
  {
    if j < 8 {
      if OpenAt(b, ally, kr, kc, i, j) {
        ScanPin(b, ally, kr, kc, i, j + 1, e);
        AheadOverOpen(b, ally, kr, kc, i, j);
        var next := j + 1;
        if exists j1, j2 :: PinAhead(b, ally, kr, kc, i, next, j1, j2, e) {
          var j1, j2 :| PinAhead(b, ally, kr, kc, i, next, j1, j2, e);
          assert PinAhead(b, ally, kr, kc, i, j, j1, j2, e);
        }
      } else {
        ScanPinAtStop(b, ally, kr, kc, i, j, e);
      }
    }
  }

  /** `ScanPin` at the ray's first non-transparent square. */
  lemma ScanPinAtStop(b: Board, ally: Color, kr: int, kc: int, i: int, j: int, e: Ray)
    requires WellFormed(b) && 0 <= i < 8 && 1 <= j < 8 && !OpenAt(b, ally, kr, kc, i, j)
    ensures ScanRay(b, ally, kr, kc, i, j, None) == PinOn(e) <==>
      exists j1, j2 :: PinAhead(b, ally, kr, kc, i, j, j1, j2, e)
  {
    AheadAtStop(b, ally, kr, kc, i, j);
    if BlockerAt(b, ally, kr, kc, i, j) {
      ScanWithCandidate(b, ally, kr, kc, i, j + 1, EntryAt(kr, kc, i, j));
      if ScanRay(b, ally, kr, kc, i, j, None) == PinOn(e) {
        var j2 :| ThreatAhead(b, ally, kr, kc, i, j + 1, j2);
        assert PinAhead(b, ally, kr, kc, i, j, j, j2, e);
      }
    }
  }

  // ---------------------------------------------------------------------------------
  // What the whole scan returns.

  /** The ray checks are exactly the checking pieces that the rays from `i0` on reach. */
  lemma {:induction false} RayChecksExactly(b: Board, ally: Color, kr: int, kc: int, i0: int, e: Ray)
    requires WellFormed(b) && 0 <= i0 <= 8
    ensures e in RayChecks(b, ally, kr, kc, i0) <==> exists i, j :: i0 <= i && RayCheck(b, ally, kr, kc, i, j, e)
    decreases 8 - i0
  {
    if i0 < 8 {
      RayChecksExactly(b, ally, kr, kc, i0 + 1, e);
      RayCheckHere(b, ally, kr, kc, i0, e);
      if exists i, j :: i0 <= i && RayCheck(b, ally, kr, kc, i, j, e) {
        var i, j :| i0 <= i && RayCheck(b, ally, kr, kc, i, j, e);
        if i > i0 {
          assert i0 + 1 <= i;
        }
      }
    }
  }

  /** Ray `i` on its own yields the check `e` exactly when it holds such a check. */
  lemma RayCheckHere(b: Board, ally: Color, kr: int, kc: int, i: int, e: Ray)
    requires WellFormed(b) && 0 <= i < 8
    ensures ScanRay(b, ally, kr, kc, i, 1, None) == CheckFrom(e) <==> exists j :: RayCheck(b, ally, kr, kc, i, j, e)
  {
    ScanCheck(b, ally, kr, kc, i, 1, e);
    if exists j :: RayCheck(b, ally, kr, kc, i, j, e) {
      var j :| RayCheck(b, ally, kr, kc, i, j, e);
      assert ThreatAhead(b, ally, kr, kc, i, 1, j);
    }
    if ScanRay(b, ally, kr, kc, i, 1, None) == CheckFrom(e) {
      var j :| ThreatAhead(b, ally, kr, kc, i, 1, j) && e == EntryAt(kr, kc, i, j);
      assert RayCheck(b, ally, kr, kc, i, j, e);
    }
  }

  /** The pins are exactly the own pieces that the rays from `i0` on find pinned. */
  lemma {:induction false} RayPinsExactly(b: Board, ally: Color, kr: int, kc: int, i0: int, e: Ray)
    requires WellFormed(b) && 0 <= i0 <= 8
    ensures e in RayPins(b, ally, kr, kc, i0) <==> exists i, j, j2 :: i0 <= i && RayPin(b, ally, kr, kc, i, j, j2, e)
    decreases 8 - i0
  {
    if i0 < 8 {
      RayPinsExactly(b, ally, kr, kc, i0 + 1, e);
      RayPinHere(b, ally, kr, kc, i0, e);
      if exists i, j, j2 :: i0 <= i && RayPin(b, ally, kr, kc, i, j, j2, e) {
        var i, j, j2 :| i0 <= i && RayPin(b, ally, kr, kc, i, j, j2, e);
        if i > i0 {
          assert i0 + 1 <= i;
        }
      }
    }
  }

  /** Ray `i` on its own yields the pin `e` exactly when it holds such a pin. */
  lemma RayPinHere(b: Board, ally: Color, kr: int, kc: int, i: int, e: Ray)
    requires WellFormed(b) && 0 <= i < 8
    ensures ScanRay(b, ally, kr, kc, i, 1, None) == PinOn(e) <==> exists j, j2 :: RayPin(b, ally, kr, kc, i, j, j2, e)
  {
    ScanPin(b, ally, kr, kc, i, 1, e);
    if exists j, j2 :: RayPin(b, ally, kr, kc, i, j, j2, e) {
      var j, j2 :| RayPin(b, ally, kr, kc, i, j, j2, e);
      assert PinAhead(b, ally, kr, kc, i, 1, j, j2, e);
    }
    if ScanRay(b, ally, kr, kc, i, 1, None) == PinOn(e) {
      var j, j2 :| PinAhead(b, ally, kr, kc, i, 1, j, j2, e);
      assert RayPin(b, ally, kr, kc, i, j, j2, e);
    }
  }

  lemma {:induction false} KnightChecksExactly(b: Board, ally: Color, kr: int, kc: int, k0: int, e: Ray)
    requires WellFormed(b) && 0 <= k0 <= 8
    ensures e in KnightChecks(b, ally, kr, kc, k0) <==> exists k :: k0 <= k && KnightCheck(b, ally, kr, kc, k, e)
    decreases 8 - k0
  {
    if k0 < 8 {
      KnightChecksExactly(b, ally, kr, kc, k0 + 1, e);
    }
  }

  /** `checks` lists exactly the pieces giving check to the king square. */
  lemma ChecksExactly(b: Board, ally: Color, kr: int, kc: int, e: Ray)
    requires WellFormed(b)
    ensures e in PinsAndChecks(b, ally, kr, kc).checks <==> IsCheck(b, ally, kr, kc, e)
  {
    RayChecksExactly(b, ally, kr, kc, 0, e);
    KnightChecksExactly(b, ally, kr, kc, 0, e);
  }

  /** `pins` lists exactly the own pieces pinned against the king square. */
  lemma PinsExactly(b: Board, ally: Color, kr: int, kc: int, e: Ray)
    requires WellFormed(b)
    ensures e in PinsAndChecks(b, ally, kr, kc).pins <==> IsPin(b, ally, kr, kc, e)
  {
    RayPinsExactly(b, ally, kr, kc, 0, e);
  }

  /** The side is in check exactly when some piece gives check to the king square. */
  lemma InCheckExactly(b: Board, ally: Color, kr: int, kc: int)
    requires WellFormed(b)
    ensures InCheckAt(b, ally, kr, kc) <==> exists c :: IsCheck(b, ally, kr, kc, c)
  {
    var s := PinsAndChecks(b, ally, kr, kc);
    if exists c :: IsCheck(b, ally, kr, kc, c) {
      var c :| IsCheck(b, ally, kr, kc, c);
      ChecksExactly(b, ally, kr, kc, c);
    }
    if s.inCheck {
      ChecksExactly(b, ally, kr, kc, s.checks[0]);
    }
  }

  // ---------------------------------------------------------------------------------
  // Each ray and each knight offset contributes at most one entry.

  function DirOf(e: Ray): (int, int) {
    (e.dr, e.dc)
  }

  /** No two entries of `s` lie on the same ray (or knight offset) from the king. */
  predicate DistinctLines(s: seq<Ray>) {
    forall a, c :: 0 <= a < c < |s| ==> DirOf(s[a]) != DirOf(s[c])
  }

  lemma DistinctLinesConcat(s: seq<Ray>, t: seq<Ray>)
    requires DistinctLines(s) && DistinctLines(t)
    requires forall x, y :: x in s && y in t ==> DirOf(x) != DirOf(y)
    ensures DistinctLines(s + t)
  {
    forall a, c | 0 <= a < c < |s + t|
      ensures DirOf((s + t)[a]) != DirOf((s + t)[c])
    {
      if a < |s| && c >= |s| {
        assert (s + t)[a] in s && (s + t)[c] in t;
      }
    }
  }

  lemma DirectionsDistinct()
    ensures forall a, c :: 0 <= a < c < 8 ==> Directions[a] != Directions[c]
    ensures forall a, c :: 0 <= a < c < 8 ==> KnightOffsets[a] != KnightOffsets[c]
  {
  }

  /** Ray directions are unit steps; knight offsets have a component of two. */
  predicate UnitLine(e: Ray) {
    -1 <= e.dr <= 1 && -1 <= e.dc <= 1
  }

  predicate KnightLine(e: Ray) {
    e.dr == 2 || e.dr == -2 || e.dc == 2 || e.dc == -2
  }

  lemma LineShapes()
    ensures forall t :: 0 <= t < 8 ==> -1 <= Directions[t].0 <= 1 && -1 <= Directions[t].1 <= 1
    ensures forall t :: 0 <= t < 8 ==>
      KnightOffsets[t].0 == 2 || KnightOffsets[t].0 == -2 || KnightOffsets[t].1 == 2 || KnightOffsets[t].1 == -2
  {
  }

  lemma ScanRayOnLine(b: Board, ally: Color, kr: int, kc: int, i: int)
    requires WellFormed(b) && 0 <= i < 8
    ensures ScanRay(b, ally, kr, kc, i, 1, None).PinOn? ==> DirOf(ScanRay(b, ally, kr, kc, i, 1, None).pin) == Directions[i]
    ensures ScanRay(b, ally, kr, kc, i, 1, None).CheckFrom? ==> DirOf(ScanRay(b, ally, kr, kc, i, 1, None).check) == Directions[i]
  {
    var o := ScanRay(b, ally, kr, kc, i, 1, None);
    if o.PinOn? {
      ScanPin(b, ally, kr, kc, i, 1, o.pin);
    }
    if o.CheckFrom? {
      ScanCheck(b, ally, kr, kc, i, 1, o.check);
    }
  }

  lemma {:induction false} RayLines(b: Board, ally: Color, kr: int, kc: int, i0: int)
    requires WellFormed(b) && 0 <= i0 <= 8
    ensures DistinctLines(RayPins(b, ally, kr, kc, i0)) && DistinctLines(RayChecks(b, ally, kr, kc, i0))
    ensures forall x, y :: x in RayPins(b, ally, kr, kc, i0) && y in RayChecks(b, ally, kr, kc, i0) ==> DirOf(x) != DirOf(y)
    ensures forall x :: x in RayPins(b, ally, kr, kc, i0) ==> DirOf(x) in Directions[i0..]
    ensures forall x :: x in RayChecks(b, ally, kr, kc, i0) ==> DirOf(x) in Directions[i0..]
    ensures forall x :: x in RayPins(b, ally, kr, kc, i0) + RayChecks(b, ally, kr, kc, i0) ==> UnitLine(x)
    decreases 8 - i0
  {
    if i0 < 8 {
      RayLines(b, ally, kr, kc, i0 + 1);
      ScanRayOnLine(b, ally, kr, kc, i0);
      DirectionsDistinct();
      LineShapes();
      var P, C := RayPins(b, ally, kr, kc, i0 + 1), RayChecks(b, ally, kr, kc, i0 + 1);
      var o := ScanRay(b, ally, kr, kc, i0, 1, None);
      var X: seq<Ray> := if o.PinOn? then [o.pin] else [];
      var Y: seq<Ray> := if o.CheckFrom? then [o.check] else [];
      assert RayPins(b, ally, kr, kc, i0) == X + P;
      assert RayChecks(b, ally, kr, kc, i0) == Y + C;
      assert Directions[i0..] == [Directions[i0]] + Directions[i0 + 1..];
      assert Directions[i0] !in Directions[i0 + 1..] by {
        forall t | i0 + 1 <= t < 8 ensures Directions[t] != Directions[i0] { }
      }
      DistinctLinesConcat(X, P);
      DistinctLinesConcat(Y, C);
    }
  }

  lemma {:induction false} KnightLines(b: Board, ally: Color, kr: int, kc: int, k0: int)
    requires WellFormed(b) && 0 <= k0 <= 8
    ensures DistinctLines(KnightChecks(b, ally, kr, kc, k0))
    ensures forall x :: x in KnightChecks(b, ally, kr, kc, k0) ==> DirOf(x) in KnightOffsets[k0..]
    ensures forall x :: x in KnightChecks(b, ally, kr, kc, k0) ==> KnightLine(x)
    decreases 8 - k0
  {
    if k0 < 8 {
      KnightLines(b, ally, kr, kc, k0 + 1);
      DirectionsDistinct();
      LineShapes();
      var K := KnightChecks(b, ally, kr, kc, k0 + 1);
      var X: seq<Ray> := if KnightCheck(b, ally, kr, kc, k0, KnightEntry(kr, kc, k0)) then [KnightEntry(kr, kc, k0)] else [];
      assert KnightChecks(b, ally, kr, kc, k0) == X + K;
      assert KnightOffsets[k0..] == [KnightOffsets[k0]] + KnightOffsets[k0 + 1..];
      assert KnightOffsets[k0] !in KnightOffsets[k0 + 1..] by {
        forall t | k0 + 1 <= t < 8 ensures KnightOffsets[t] != KnightOffsets[k0] { }
      }
      DistinctLinesConcat(X, K);
    }
  }

  lemma UnitAndKnightLinesDistinct(P: seq<Ray>, C: seq<Ray>, K: seq<Ray>)
    requires DistinctLines(P) && DistinctLines(C) && DistinctLines(K)
    requires forall x, y :: x in P && y in C ==> DirOf(x) != DirOf(y)
    requires forall x :: x in P + C ==> UnitLine(x)
    requires forall x :: x in K ==> KnightLine(x)
    ensures DistinctLines(P + C + K)
  {
    forall x | x in C ensures UnitLine(x) {
      assert x in P + C;
    }
    forall x | x in P ensures UnitLine(x) {
      assert x in P + C;
    }
    DistinctLinesConcat(C, K);
    forall x, y | x in P && y in C + K ensures DirOf(x) != DirOf(y) {
    }
    DistinctLinesConcat(P, C + K);
    assert P + (C + K) == P + C + K;
  }

  /** Each of the eight rays contributes at most one pin or check, and each knight offset at
      most one check: no two entries of `pins` and `checks` together share a line. */
  lemma OneEntryPerLine(b: Board, ally: Color, kr: int, kc: int)
    requires WellFormed(b)
    ensures var s := PinsAndChecks(b, ally, kr, kc);
      DistinctLines(s.pins + s.checks)
  {
    var P, C, K := RayPins(b, ally, kr, kc, 0), RayChecks(b, ally, kr, kc, 0), KnightChecks(b, ally, kr, kc, 0);
    AllLinesDistinct(b, ally, kr, kc);
    var s := PinsAndChecks(b, ally, kr, kc);
    assert s.pins == P && s.checks == C + K;
    ConcatAssoc(P, C, K);
  }

  lemma AllLinesDistinct(b: Board, ally: Color, kr: int, kc: int)
    requires WellFormed(b)
    ensures DistinctLines(RayPins(b, ally, kr, kc, 0) + RayChecks(b, ally, kr, kc, 0) + KnightChecks(b, ally, kr, kc, 0))
  {
    AllRayLines(b, ally, kr, kc);
    AllKnightLines(b, ally, kr, kc);
    UnitAndKnightLinesDistinct(RayPins(b, ally, kr, kc, 0), RayChecks(b, ally, kr, kc, 0), KnightChecks(b, ally, kr, kc, 0));
  }

  lemma AllRayLines(b: Board, ally: Color, kr: int, kc: int)
    requires WellFormed(b)
    ensures var P, C := RayPins(b, ally, kr, kc, 0), RayChecks(b, ally, kr, kc, 0);
      && DistinctLines(P) && DistinctLines(C)
      && (forall x, y :: x in P && y in C ==> DirOf(x) != DirOf(y))
      && (forall x :: x in P + C ==> UnitLine(x))
  {
    RayLines(b, ally, kr, kc, 0);
  }

  lemma AllKnightLines(b: Board, ally: Color, kr: int, kc: int)
    requires WellFormed(b)
    ensures DistinctLines(KnightChecks(b, ally, kr, kc, 0))
    ensures forall x :: x in KnightChecks(b, ally, kr, kc, 0) ==> KnightLine(x)
  {
    KnightLines(b, ally, kr, kc, 0);
  }
}

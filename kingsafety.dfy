/** King safety after a valid move. The pin scan stops at the first opponent piece on a
    ray, so a pawn that shares a rank with its king and an opponent pawn is never seen as
    pinned; the en-passant capture then removes both pawns from the rank at once. This
    module exhibits one position where a valid move leaves the mover's king in check. */
module KingSafety {
  import opened Pieces
  import opened Notation
  import opened Attacks
  import opened Generation
  import opened MoveFacts
  import opened Rules

  /** Black's king on h8, Black's pawn on c7, and on the fifth rank White's king on a5, a
      white pawn on b5 and Black's rook on h5. */
  function BeforePush(): (b: Board)
    ensures WellFormed(b)
  {
    [EmptyRank()[7 := Occupied(Black, King)],
     EmptyRank()[2 := Occupied(Black, Pawn)],
     EmptyRank(),
     [Occupied(White, King), Occupied(White, Pawn), Empty, Empty, Empty, Empty, Empty, Occupied(Black, Rook)],
     EmptyRank(), EmptyRank(), EmptyRank(), EmptyRank()]
  }

  /** The position once Black's pawn has advanced c7-c5, beside the white pawn. */
  function AfterPush(): (b: Board)
    ensures WellFormed(b)
  {
    [EmptyRank()[7 := Occupied(Black, King)],
     EmptyRank(),
     EmptyRank(),
     [Occupied(White, King), Occupied(White, Pawn), Occupied(Black, Pawn), Empty, Empty, Empty, Empty,
      Occupied(Black, Rook)],
     EmptyRank(), EmptyRank(), EmptyRank(), EmptyRank()]
  }

  /** Black's two-square advance c7-c5 leads to the second position and records c6 as the
      en-passant target, with the pawn on c5 to be captured. */
  lemma DoublePushSetsUp()
    ensures var m := NewMove((1, 2), (3, 2), BeforePush());
      && CommittedBoard(BeforePush(), NoEnPassant, m, Queen) == AfterPush()
      && EnPassantFrom(m) == EnPassantAt((2, 2), (3, 2))
      && TargetVacant(AfterPush(), EnPassantFrom(m))
  {
    var b := BeforePush();
    var m := NewMove((1, 2), (3, 2), b);
    var b' := CommittedBoard(b, NoEnPassant, m, Queen);
    assert b' == Set(Set(b, 1, 2, Empty), 3, 2, Occupied(Black, Pawn));
    assert b'[1] == AfterPush()[1];
    assert b'[3] == AfterPush()[3];
    assert b' == AfterPush();
  }

  /** What the argument reads of the second position: White's king on a5, White's pawn on
      b5 and Black's pawn on c5 between it and Black's rook on h5, and every other square
      a ray or a knight's move from a5 reaches is empty, c6 included. */
  predicate Setup(b: Board)
    requires WellFormed(b)
  {
    && b[3][0] == Occupied(White, King) && b[3][1] == Occupied(White, Pawn) && b[3][2] == Occupied(Black, Pawn)
    && b[3][3] == Empty && b[3][4] == Empty && b[3][5] == Empty && b[3][6] == Empty
    && b[3][7] == Occupied(Black, Rook)
    && b[2][0] == Empty && b[1][0] == Empty && b[0][0] == Empty
    && b[4][0] == Empty && b[5][0] == Empty && b[6][0] == Empty && b[7][0] == Empty
    && b[2][1] == Empty && b[1][2] == Empty && b[0][3] == Empty
    && b[4][1] == Empty && b[5][2] == Empty && b[6][3] == Empty && b[7][4] == Empty
    && b[1][1] == Empty && b[2][2] == Empty && b[5][1] == Empty && b[4][2] == Empty
  }

  lemma AfterPushSetup()
    ensures Setup(AfterPush())
  {
  }

  /** One step of a ray scan over an empty square, and the step that meets a checking
      piece with no candidate pin. */
  lemma ScanOverEmpty(b: Board, ally: Color, kr: int, kc: int, i: int, j: int, cand: Option<Ray>)
    requires WellFormed(b) && 0 <= i < 8 && 1 <= j < 8
    requires OnBoard(Cell(kr, kc, i, j).0, Cell(kr, kc, i, j).1)
    requires b[Cell(kr, kc, i, j).0][Cell(kr, kc, i, j).1] == Empty
    ensures ScanRay(b, ally, kr, kc, i, j, cand) == ScanRay(b, ally, kr, kc, i, j + 1, cand)
  {
  }

  lemma ScanMeetsThreat(b: Board, ally: Color, kr: int, kc: int, i: int, j: int)
    requires WellFormed(b) && 0 <= i < 8 && 1 <= j < 8 && ThreatAt(b, ally, kr, kc, i, j)
    ensures ScanRay(b, ally, kr, kc, i, j, None) == CheckFrom(EntryAt(kr, kc, i, j))
  {
  }

  // The eight rays from a5, one lemma each.

  lemma ClearUp(b: Board)
    requires WellFormed(b) && Setup(b)
    ensures ScanRay(b, White, 3, 0, 0, 1, None) == Clear
  {
    assert ScanRay(b, White, 3, 0, 0, 1, None) == ScanRay(b, White, 3, 0, 0, 2, None)
      == ScanRay(b, White, 3, 0, 0, 3, None) == ScanRay(b, White, 3, 0, 0, 4, None);
  }

  lemma ClearDown(b: Board)
    requires WellFormed(b) && Setup(b)
    ensures ScanRay(b, White, 3, 0, 2, 1, None) == Clear
  {
    assert ScanRay(b, White, 3, 0, 2, 1, None) == ScanRay(b, White, 3, 0, 2, 2, None)
      == ScanRay(b, White, 3, 0, 2, 3, None) == ScanRay(b, White, 3, 0, 2, 4, None)
      == ScanRay(b, White, 3, 0, 2, 5, None);
  }

  /** Along the fifth rank the scan takes the pawn on b5 as the candidate and stops at
      Black's pawn on c5, which gives no check from two squares away. */
  lemma RankStopsAtPawn(b: Board)
    requires WellFormed(b) && Setup(b)
    ensures ScanRay(b, White, 3, 0, 3, 1, None) == Clear
  {
    assert ScanRay(b, White, 3, 0, 3, 1, None) == ScanRay(b, White, 3, 0, 3, 2, Some(EntryAt(3, 0, 3, 1)));
  }

  lemma ClearUpRight(b: Board)
    requires WellFormed(b) && Setup(b)
    ensures ScanRay(b, White, 3, 0, 5, 1, None) == Clear
  {
    assert ScanRay(b, White, 3, 0, 5, 1, None) == ScanRay(b, White, 3, 0, 5, 2, None)
      == ScanRay(b, White, 3, 0, 5, 3, None) == ScanRay(b, White, 3, 0, 5, 4, None);
  }

  lemma ClearDownRight(b: Board)
    requires WellFormed(b) && Setup(b)
    ensures ScanRay(b, White, 3, 0, 7, 1, None) == Clear
  {
    assert ScanRay(b, White, 3, 0, 7, 1, None) == ScanRay(b, White, 3, 0, 7, 2, None)
      == ScanRay(b, White, 3, 0, 7, 3, None) == ScanRay(b, White, 3, 0, 7, 4, None)
      == ScanRay(b, White, 3, 0, 7, 5, None);
  }

  /** The three rays to the left leave the board at once. */
  lemma ClearLeft(b: Board)
    requires WellFormed(b)
    ensures ScanRay(b, White, 3, 0, 1, 1, None) == Clear
    ensures ScanRay(b, White, 3, 0, 4, 1, None) == Clear
    ensures ScanRay(b, White, 3, 0, 6, 1, None) == Clear
  {
  }

  lemma NoKnightChecks(b: Board)
    requires WellFormed(b) && Setup(b)
    ensures KnightChecks(b, White, 3, 0, 0) == []
  {
    assert KnightChecks(b, White, 3, 0, 0) == KnightChecks(b, White, 3, 0, 1) == KnightChecks(b, White, 3, 0, 2)
      == KnightChecks(b, White, 3, 0, 3) == KnightChecks(b, White, 3, 0, 4);
    assert KnightChecks(b, White, 3, 0, 4) == KnightChecks(b, White, 3, 0, 5) == KnightChecks(b, White, 3, 0, 6)
      == KnightChecks(b, White, 3, 0, 7) == KnightChecks(b, White, 3, 0, 8);
  }

  /** In a position of this shape White is not in check and no white piece is pinned. */
  lemma NothingPinned(b: Board)
    requires WellFormed(b) && Setup(b)
    ensures PinsAndChecks(b, White, 3, 0) == Scan(false, [], [])
  {
    ClearUp(b);
    ClearDown(b);
    RankStopsAtPawn(b);
    ClearUpRight(b);
    ClearDownRight(b);
    ClearLeft(b);
    NoKnightChecks(b);
    hide Setup, ScanRay;
    forall k | 0 <= k < 8
      ensures ScanRay(b, White, 3, 0, k, 1, None) == Clear
    {
      assert k == 0 || k == 1 || k == 2 || k == 3 || k == 4 || k == 5 || k == 6 || k == 7;
    }
    NoRayFinds(b, 0);
  }

  /** When no ray from `i` on finds a pin or a check, the ray lists from `i` on are empty. */
  lemma {:induction false} NoRayFinds(b: Board, i: int)
    requires WellFormed(b) && 0 <= i <= 8
    requires forall k :: i <= k < 8 ==> ScanRay(b, White, 3, 0, k, 1, None) == Clear
    ensures RayPins(b, White, 3, 0, i) == [] && RayChecks(b, White, 3, 0, i) == []
    decreases 8 - i
  {
    if i < 8 {
      NoRayFinds(b, i + 1);
    }
  }

  /** The en-passant capture b5xc6 is a valid move for White, and once it is made the
      rook on h5 checks White's king along the emptied fifth rank: a valid move that leaves
      the mover's own king attacked. */
  lemma EnPassantExposesKing()
    ensures var b, ep, f := AfterPush(), EnPassantAt((2, 2), (3, 2)), SideFlags(true, true, true);
      var m := NewMove((3, 1), (2, 2), b);
      && !InCheckAt(b, White, 3, 0)
      && m in ValidMoves(b, White, ep, f, (3, 0))
      && InCheckAt(CommittedBoard(b, ep, m, Queen), White, 3, 0)
  {
    var b, ep, f := AfterPush(), EnPassantAt((2, 2), (3, 2)), SideFlags(true, true, true);
    AfterPushSetup();
    hide AfterPush;
    CaptureIsValid(b, ep, f);
    AfterCapture(b, ep);
  }

  lemma CaptureIsValid(b: Board, ep: EnPassant, f: SideFlags)
    requires WellFormed(b) && Setup(b) && ep == EnPassantAt((2, 2), (3, 2)) && f.kingMoved
    ensures !InCheckAt(b, White, 3, 0)
    ensures NewMove((3, 1), (2, 2), b) in ValidMoves(b, White, ep, f, (3, 0))
  {
    var m := NewMove((3, 1), (2, 2), b);
    NothingPinned(b);
    hide PinsAndChecks, PawnTargets, PieceTargets, PossibleFrom;
    assert ValidMoves(b, White, ep, f, (3, 0)) == PossibleFrom(b, White, Attacked(b, White), ep, f, [], 0, 0);
    PawnComplete(b, White, ep, 3, 1, None, 1);
    PawnPieceTargets(b, White, Attacked(b, White), ep, f, 3, 1, None);
    assert PinOf([], 3, 1) == None;
    PossibleComplete(b, White, Attacked(b, White), ep, f, [], 0, 0, m);
  }

  /** After b5xc6 the fifth rank holds only White's king and Black's rook, and the rook
      gives check. */
  lemma AfterCapture(b: Board, ep: EnPassant)
    requires WellFormed(b) && Setup(b) && ep == EnPassantAt((2, 2), (3, 2))
    ensures InCheckAt(CommittedBoard(b, ep, NewMove((3, 1), (2, 2), b), Queen), White, 3, 0)
  {
    var m := NewMove((3, 1), (2, 2), b);
    var b' := CommittedBoard(b, ep, m, Queen);
    assert b' == Set(Set(Set(b, 3, 1, Empty), 2, 2, Occupied(White, Pawn)), 3, 2, Empty);
    hide CommittedBoard;
    RookChecksAlongRank(b');
  }

  /** With only empty squares between White's king on a5 and Black's rook on h5, the rook
      gives check. */
  lemma RookChecksAlongRank(b: Board)
    requires WellFormed(b) && b[3][7] == Occupied(Black, Rook)
    requires b[3][1] == Empty && b[3][2] == Empty && b[3][3] == Empty
    requires b[3][4] == Empty && b[3][5] == Empty && b[3][6] == Empty
    ensures InCheckAt(b, White, 3, 0)
  {
    RookFound(b);
    hide ScanRay, EntryAt;
    assert |RayChecks(b, White, 3, 0, 3)| > 0;
    RayChecksShrink(b, 0, 3);
  }

  /** The check list of the rays from `i` on holds those of the rays from `k` on. */
  lemma {:induction false} RayChecksShrink(b: Board, i: int, k: int)
    requires WellFormed(b) && 0 <= i <= k <= 8
    ensures |RayChecks(b, White, 3, 0, i)| >= |RayChecks(b, White, 3, 0, k)|
    decreases k - i
  {
    if i < k {
      RayChecksShrink(b, i + 1, k);
    }
  }

  lemma RookFound(b: Board)
    requires WellFormed(b) && b[3][7] == Occupied(Black, Rook)
    requires b[3][1] == Empty && b[3][2] == Empty && b[3][3] == Empty
    requires b[3][4] == Empty && b[3][5] == Empty && b[3][6] == Empty
    ensures ScanRay(b, White, 3, 0, 3, 1, None) == CheckFrom(EntryAt(3, 0, 3, 7))
  {
    hide ScanRay;
    assert Directions[3] == (0, 1);
    ScanOverEmpty(b, White, 3, 0, 3, 1, None);
    ScanOverEmpty(b, White, 3, 0, 3, 2, None);
    ScanOverEmpty(b, White, 3, 0, 3, 3, None);
    ScanOverEmpty(b, White, 3, 0, 3, 4, None);
    ScanOverEmpty(b, White, 3, 0, 3, 5, None);
    ScanOverEmpty(b, White, 3, 0, 3, 6, None);
    ScanMeetsThreat(b, White, 3, 0, 3, 7);
  }
}

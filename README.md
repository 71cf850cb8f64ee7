# A verified model of a pygame chess engine's game state

This project models the rules core of a two-player chess program: the `game_state` class and
the `Move` class of `chessEngine.py`, together with the fixed sequence of side rules that the
game loop in `gameLogic.py` runs after every move. It covers:

- the board of two-character piece codes (`"wK"`, `"bp"`, `"--"`);
- the move log, the side to move and both king locations;
- the pin and check scan from the king (`check_for_pins_or_check`);
- the per-piece move generators;
- `get_possible_move` and the check filter of `get_valid_move`;
- the castling tests;
- `make_move`;
- the rook jump of a castling;
- the one-ply en-passant record;
- pawn promotion.

The game state is a Dafny `class` whose fields are the source's attributes. Its methods
update those fields as the source does: the generators append to a move list, they consume
the pin list as they go, and the king generator moves the king location around and puts it
back. Each method is proved against a reference function over the board in the modules
`Attacks`, `Generation` and `Rules`. Lemmas in `MoveFacts`, `Attacks` and `Notation` say what
those functions mean in chess terms:

- which squares a slider reaches;
- that a pinned piece stays on its pin line;
- that the check filter keeps exactly the king moves and the moves onto a square between
  king and checker;
- that the scan finds exactly the checks and pins its rules describe;
- that the move notation decodes back to the move.

The model follows the code, including where it differs from the chess rules:

- The scan treats the side's own king as an empty square. This matters when the king
  generator tries a king move: the king is still on its old square.
- A pinned pawn moves only when its step points exactly along the pin, that is, in the
  direction from the king to the pawn. A pawn pinned on its file by a piece behind it,
  with the king ahead of it, gets no push.
- Queen-side castling looks only at columns 3 and 2. It does not look at column 1.
- The king generator tests both castlings once per direction that leads to a free
  square, so an allowed castling can appear in the move list more than once.
- `make_move` flips the side to move before the promotion runs. The promoted piece is
  white on row 0 and black on row 7.
- The en-passant removal applies to a pawn of either colour that lands on the target square.
- A rook of either colour leaving column 0 or 7 sets that colour's rook flag, from any row.
- `castling_move` looks only at the columns of a king move. It does not look at the rows.
- The scan looks for pins and checks from the king only. It does not look at what an
  en-passant capture removes. A pawn taken en passant can therefore uncover a rook on the
  king's rank, and the capture is still a valid move. `KingSafety.EnPassantExposesKing`
  shows such a position.
- The castling tests do not look for the rook. If the rook was captured on its corner
  without moving, its flag stays clear, the castling is still generated, and
  `castling_move` puts a rook on the rook's destination square anyway.

The chess program's piece-code strings become a `Piece` datatype. `PieceCode` gives the
two-character code, and `Pieces.PieceCodeInjective` shows that comparing codes is
comparing pieces. A pin or check entry `(row, col, dr, dc)` becomes the datatype `Ray`.

## Model

| member | source | states |
|---|---|---|
| Notation.NewMove | chessEngine.py:537-545 | the new move records the moved and captured cells of the board it is built from, and its start and end squares are the ones given |
| Notation.MoveId | chessEngine.py:544 | defines `move_id`; `Notation.MoveIdDigits` proves what it encodes |
| Notation.MovesEqual | chessEngine.py:547-550 | defines `Move.__eq__` as equal `move_id`; `Notation.MovesEqualIffSameSquares` proves what it compares |
| Notation.MoveIdDigits | chessEngine.py:544 | on the board, `move_id` is below 10000 and its four decimal digits are start row, start column, end row and end column |
| Notation.MovesEqualIffSameSquares | chessEngine.py:544-550 | `Move.__eq__` holds exactly when the two moves have the same start and end squares |
| Notation.MovesEqualBuiltFrom | chessEngine.py:537-550 | for two moves built from the same board, `__eq__` is exactly equality of all their fields |
| Notation.InverseDictionaries | chessEngine.py:531-535 | the tables `RowToRank` and `ColToFile` (`row_to_rank`, `col_to_file`) invert `rank_to_row` and `file_to_col` |
| Notation.GetRankFile | chessEngine.py:556-557 | the two characters are a file letter that maps back to the column and a rank digit that maps back to the row |
| Notation.GetChessNotation | chessEngine.py:553-554 | the notation of an on-board move has six characters |
| Notation.NotationRoundTrip | chessEngine.py:366-370 | decoding the notation as the move-log readers do (piece code at 0..1, `file_to_col`/`rank_to_row` at 2..5) gives back the moved piece and both squares |
| Notation.NotationInjective | chessEngine.py:553-557 | two on-board moves with the same notation moved the same piece and are equal under `__eq__` |
| Pieces.PieceCodeInjective | chessEngine.py:511-524 | distinct pieces have distinct two-character codes, so comparing codes such as `"wK"` compares pieces |
| Pieces.PieceCodeFields | chessEngine.py:366 | character 1 of a code is `"p"` (`"K"`) exactly for a pawn (king), and character 0 gives the colour |
| Pieces.InitialBoard | chessEngine.py:7-16 | the starting board is 8x8 with the black king on (0, 4) and the white king on (7, 4) |
| Pieces.Set | chessEngine.py:508-509 | one assignment into the board changes that cell only |
| Rules.InitialKings | chessEngine.py:7-35 | in the starting position the only white king is on (7, 4) and the only black king on (0, 4), matching the stored locations |
| Engine.GameState.constructor | chessEngine.py:4-56 | starting board, White to move, empty log, kings on their home squares, no check, no pins, no en-passant record, no promotion pending, no castling flag set; the state invariant holds |
| Engine.GameState.CheckForPinsOrCheck | chessEngine.py:303-361 | returns exactly the reference scan `PinsAndChecks` of the board from the side's king |
| Engine.ScanDirection | chessEngine.py:321-349 | the walk along one of the eight directions ends as the reference `ScanRay` does: clear, a pin on the one own piece before a checker, or a check |
| Engine.ScanRays | chessEngine.py:319-349 | the pins and checks gathered over the eight directions, in order, are the reference `RayPins`/`RayChecks` |
| Engine.ScanKnights | chessEngine.py:351-359 | the knight checks gathered over the eight offsets are the reference `KnightChecks` |
| Attacks.Threatens | chessEngine.py:335-338 | defines which piece kinds attack along direction `i` at distance `j`: rook on directions 0-3, bishop on 4-7, queen on all, king at distance 1, and a pawn at distance 1 on the two diagonals facing it; used by `Attacks.RayCheckHere` and `Attacks.ChecksExactly` |
| Attacks.ScanRay | chessEngine.py:323-349 | defines one direction's walk from step `j` with the pin candidate so far; `Attacks.ScanCheck` and `Attacks.ScanPin` prove what it reports |
| Attacks.KnightChecks | chessEngine.py:351-359 | defines the knight checks from offset `k` on; `Attacks.KnightChecksExactly` proves what they are |
| Attacks.PinsAndChecks | chessEngine.py:303-361 | defines the whole scan; `Attacks.ChecksExactly`, `Attacks.PinsExactly`, `Attacks.InCheckExactly` and `Attacks.OneEntryPerLine` prove what it finds |
| Attacks.ChecksExactly | chessEngine.py:319-361 | an entry is among the scan's checks exactly when it is an opponent piece that attacks the king by its kind, with only empty squares or the own king in between, or a knight one jump away |
| Attacks.PinsExactly | chessEngine.py:319-349 | an entry is among the scan's pins exactly when it is the only own non-king piece between the king and such an attacker on one line |
| Attacks.InCheckExactly | chessEngine.py:306-358 | `in_check` is set exactly when some check exists |
| Attacks.OneEntryPerLine | chessEngine.py:320-359 | no two pins or checks lie on the same direction or knight offset from the king |
| Attacks.RayCheckHere | chessEngine.py:323-342 | one direction's walk ends in a check exactly when the first non-transparent square on it holds an attacker |
| Attacks.RayPinHere | chessEngine.py:323-345 | one direction's walk ends in a pin exactly when one own piece is followed by an attacker with nothing else in between |
| Attacks.ScanCheck | chessEngine.py:323-349 | from any step on, the walk reports a check exactly when an attacker lies ahead over open squares |
| Attacks.ScanPin | chessEngine.py:323-349 | from any step on, the walk reports a pin exactly when a lone own blocker is followed by an attacker ahead |
| Attacks.RayChecksExactly | chessEngine.py:319-349 | the ray checks from direction `i0` on are exactly the line checks on those directions |
| Attacks.RayPinsExactly | chessEngine.py:319-349 | the pins from direction `i0` on are exactly the pins on those directions |
| Attacks.KnightChecksExactly | chessEngine.py:351-359 | the knight checks from offset `k0` on are exactly the opponent knights one jump away on those offsets |
| Generation.ChecksOnBoard | chessEngine.py:80-83 | every check entry names a square on the board, so `self.board[check_row][check_col]` is in range |
| Generation.LastPinIndex | chessEngine.py:131-136 | the backward search stops at the last pin entry for the square, or reports none when no later entry names it |
| Generation.RemoveFirst | chessEngine.py:135 | `list.remove` drops one occurrence when present and leaves the list as it was otherwise |
| Generation.PinOf | chessEngine.py:129-136 | defines the pin direction found by the backward search; `MoveFacts.PinOfExactly` proves what it is |
| MoveFacts.PinOfExactly | chessEngine.py:131-134 | a square is pinned exactly when some pin entry names it, and its direction is that of the last such entry |
| Generation.Unpinned | chessEngine.py:131-136 | defines the pin list after a generator consumed its square's entry; `MoveFacts.UnpinnedExactly` and `MoveFacts.UnpinnedKeepsOthers` prove what it is |
| MoveFacts.UnpinnedExactly | chessEngine.py:131-136 | the list loses exactly one entry, one that names the square, when the square is pinned, and is unchanged otherwise |
| MoveFacts.UnpinnedKeepsOthers | chessEngine.py:131-136 | consuming one square's entry leaves the pin of every other square as it was |
| MoveFacts.PinOfCons | chessEngine.py:131-134 | with one more entry in front, a square's pin changes only when the rest has none for it |
| MoveFacts.RemoveFirstKeepsPin | chessEngine.py:135 | removing an entry of another square leaves a square's pin as it was |
| Engine.GameState.LookUpPin | chessEngine.py:129-136 | the pin direction found is that of the last entry for the square, and the entry is consumed when asked |
| Engine.GameState.PawnMove | chessEngine.py:128-168 | appends exactly the reference pawn moves for the pin found and consumes the pawn's pin entry |
| Engine.AddPawnMoves | chessEngine.py:138-168 | appends the pushes and both diagonal captures of the side to move |
| Engine.AddPushes | chessEngine.py:139-160 | appends the one- and two-square pushes onto empty squares |
| Engine.AddPawnCapture | chessEngine.py:145-168 | appends the diagonal capture of an opponent piece or onto the en-passant target |
| Generation.PawnPushes | chessEngine.py:139-160 | defines the one- and two-square pushes; `MoveFacts.PushSound` and `MoveFacts.PawnComplete` prove what they are |
| Generation.PawnCapture | chessEngine.py:145-168 | defines the diagonal step toward one side; `MoveFacts.PawnSound` and `MoveFacts.PawnComplete` prove what it yields |
| MoveFacts.PawnSound | chessEngine.py:128-168 | every generated pawn move starts on the pawn and is a push onto empty squares or a diagonal step onto an opponent piece or the en-passant target, along the pin when pinned |
| MoveFacts.PushSound | chessEngine.py:139-160 | every push is forward on the file over empty squares, two squares only from the starting row, and a pinned pawn pushes only when pinned along its forward direction |
| MoveFacts.PawnComplete | chessEngine.py:139-168 | each of these is generated unless the pin forbids it: a single push onto an empty square; a double push from the starting row over two empty squares; a diagonal step onto an opponent piece; a diagonal step onto the en-passant target |
| Engine.GameState.RookMove | chessEngine.py:171-199 | appends exactly the rook slides for the pin found; a queen's pin entry is kept for the bishop half |
| Engine.GameState.BishopMove | chessEngine.py:202-228 | appends exactly the bishop slides for the pin found and consumes the entry |
| Engine.GameState.QueenMove | chessEngine.py:251-253 | appends the rook slides and then the bishop slides, both under the queen's pin, and consumes the entry |
| Engine.AddSlide | chessEngine.py:185-199 | along one direction, appends the slide when the pin allows that line and nothing otherwise |
| Engine.AddSlides | chessEngine.py:184-199 | appends the slides along all the piece's directions in order |
| Generation.Slide | chessEngine.py:185-197 | defines the moves along one direction; `MoveFacts.SlideExactly` proves what they are |
| Generation.Slides | chessEngine.py:184-199 | defines the moves along a list of directions under a pin; `MoveFacts.SlidesExactly` proves what they are |
| MoveFacts.SlideExactly | chessEngine.py:185-197 | a move is in a slide exactly when it reaches a square over empty squares, stopping on the first opponent piece |
| MoveFacts.SlidesExactly | chessEngine.py:184-199 | a slider's moves are exactly the slides along the directions its pin allows |
| MoveFacts.SliderAlongPin | chessEngine.py:184-228 | a pinned rook, bishop or queen only moves along its pin line, in either direction |
| Engine.GameState.KnightMove | chessEngine.py:231-248 | appends exactly the reference knight moves, none when pinned, and consumes the entry |
| Engine.GameState.AddKnightMoves | chessEngine.py:239-248 | appends the jumps onto squares not held by the side to move |
| Generation.KnightStep | chessEngine.py:242-248 | defines what one knight offset contributes; `MoveFacts.KnightExactly` proves what the moves are |
| Generation.KnightTargets | chessEngine.py:239-248 | defines the knight moves from offset `k` on; `MoveFacts.KnightExactly` proves what they are |
| MoveFacts.KnightExactly | chessEngine.py:239-248 | a move is generated exactly when the knight is unpinned and jumps onto an on-board square not held by its side |
| MoveFacts.PinnedKnightHasNoMoves | chessEngine.py:245 | a pinned knight has no moves |
| Engine.GameState.KingMove | chessEngine.py:256-279 | appends exactly the reference king moves and leaves both king locations as they were |
| Engine.GameState.AddKingDirection | chessEngine.py:259-279 | for one direction, appends the reference step and castlings and restores the king locations |
| Engine.GameState.AddKingStep | chessEngine.py:262-275 | appends the step when the scan with the king moved there finds no check, and restores the location |
| Engine.GameState.AddCastles | chessEngine.py:276-279 | appends each castling its test allows; an allowed castling starts from column 4 |
| Engine.KingStepParts | chessEngine.py:262-279 | one direction's king moves are the safe step followed by the allowed castlings |
| Engine.KingStepBlocked | chessEngine.py:262-264 | a direction off the board or onto an own piece adds nothing |
| Engine.GameState.PlaceKing | chessEngine.py:265-268 | moves the side's king location only |
| Engine.GameState.InCheckIfKingOn | chessEngine.py:265-270 | reports the scan's `in_check` with the side's king taken to the square |
| Generation.KingStep | chessEngine.py:260-279 | defines what one king direction contributes; `MoveFacts.KingStepSound` proves what it yields |
| Generation.KingTargets | chessEngine.py:256-279 | defines the king moves from direction `k` on; `MoveFacts.KingSound`, `MoveFacts.KingComplete` and `MoveFacts.KingMoveRows` prove what they are |
| Generation.CanCastleKingSide | chessEngine.py:449-478 | defines the king-side castling test; `Engine.GameState.CheckCastlingKingSide` is proved equal to it |
| Generation.CanCastleQueenSide | chessEngine.py:417-447 | defines the queen-side castling test; `Engine.GameState.CheckCastlingQueenSide` is proved equal to it |
| MoveFacts.KingSound | chessEngine.py:256-279 | every king move is a step onto a non-own square that is not attacked, or a castling whose conditions hold |
| MoveFacts.KingComplete | chessEngine.py:259-275 | every step onto an on-board non-own square that is not attacked is generated |
| MoveFacts.KingStepSound | chessEngine.py:262-279 | one direction's king moves are the safe step or a castling |
| Engine.GameState.CheckCastlingKingSide | chessEngine.py:449-478 | true exactly when neither the king flag nor the king-rook flag is set, the king is not in check, and columns +1 and +2 are empty and not attacked; the locations are restored |
| Engine.GameState.CheckCastlingQueenSide | chessEngine.py:417-447 | the same for the queen-rook flag and columns -1 and -2 |
| Engine.GameState.GetPossibleMove | chessEngine.py:107-115 | returns exactly the reference `PossibleFrom` over the board in row-major order and leaves the pin list as the generators consume it |
| Engine.GameState.AddRowMoves | chessEngine.py:109-114 | one row's moves followed by the rest of the board are the whole reference list from that row |
| Engine.GameState.AddSquareMoves | chessEngine.py:111-114 | dispatches on the piece kind of the side to move and appends that piece's moves |
| Engine.PossibleUnfold | chessEngine.py:109-114 | the list from a square is that square's moves followed by the list from the next square |
| Generation.PossibleFrom | chessEngine.py:107-115 | defines `get_possible_move` from a square on; `MoveFacts.PossibleSound` and `MoveFacts.PossibleComplete` prove what it holds |
| MoveFacts.TargetsPlausible | chessEngine.py:114 | each generator only yields moves from its own square that are built from the board, move a piece of the side to move and capture no own piece, given that the en-passant target square is empty |
| MoveFacts.PossibleSound | chessEngine.py:107-115 | every possible move is built from the board, starts on a piece of the side to move, captures no own piece, and is a move that its start square's generator yields under that square's pin |
| MoveFacts.PossibleComplete | chessEngine.py:107-115 | every move that a generator yields for a piece of the side to move, under that square's pin, is a possible move |
| Engine.GameState.GetValidMove | chessEngine.py:58-104 | returns exactly the reference `ValidMoves`, records the scan's check flag and checks, and leaves the king locations and the state invariant intact |
| Engine.GameState.ValidInSingleCheck | chessEngine.py:78-98 | under a single check, returns the possible moves filtered to the king moves and those landing on a resolving square |
| Generation.ResolvingSquares | chessEngine.py:83-93 | defines the squares that resolve a single check; `MoveFacts.ResolvingRayCheck` and `MoveFacts.ResolvingKnightCheck` prove what they are |
| Generation.KeepResolving | chessEngine.py:95-98 | defines the filtered move list; `MoveFacts.KeepResolvingExactly` proves what it keeps |
| Generation.ValidMoves | chessEngine.py:58-104 | defines `get_valid_move`; `MoveFacts.SingleCheck`, `MoveFacts.DoubleCheck`, `MoveFacts.NotInCheck` and `MoveFacts.ValidSound` prove what it holds |
| Engine.ResolvingSquaresOf | chessEngine.py:83-93 | the resolving squares are the knight's square for a knight check, else the ray squares from the king up to the checker |
| Engine.WalkToChecker | chessEngine.py:89-93 | the loop collects the ray squares from step 1 up to and including the checker |
| Engine.KeepResolvingMoves | chessEngine.py:95-98 | the backward removal loop leaves exactly the moves that are king moves or land on a resolving square, in their order |
| Engine.RemoveStep | chessEngine.py:95-98 | one iteration of the backward loop keeps the filtered prefix plus the unvisited suffix unchanged |
| Generation.RemoveMatching | chessEngine.py:98 | `moves.remove` under `Move.__eq__` drops at most one move |
| MoveFacts.RemoveMatchingFront | chessEngine.py:98 | removing a move that occurs in the visited prefix only changes that prefix |
| MoveFacts.RemoveNonResolving | chessEngine.py:95-98 | removing an equal copy of a non-resolving move does not change the filtered list |
| MoveFacts.KeepResolvingExactly | chessEngine.py:95-98 | a move survives the filter exactly when it was in the list and is a king move or lands on a resolving square |
| MoveFacts.KeepResolvingConcat | chessEngine.py:95-98 | the filter distributes over concatenation |
| MoveFacts.ResolvingRayCheck | chessEngine.py:88-93 | for a line check, the resolving squares are the squares from the king up to the checker, ending on it |
| MoveFacts.ResolvingKnightCheck | chessEngine.py:86-87 | for a knight check, the only resolving square is the knight's |
| MoveFacts.SingleCheck | chessEngine.py:78-98 | in single check, a move is valid exactly when it is possible and is a king move or lands between the king and the checker |
| MoveFacts.DoubleCheck | chessEngine.py:99-100 | in double check, every valid move is a move of the king |
| MoveFacts.NotInCheck | chessEngine.py:101-102 | without a check, the valid moves are exactly the possible moves |
| MoveFacts.ValidSound | chessEngine.py:58-104 | every valid move is built from the board, starts on a piece of the side to move, captures no own piece, and is a move that its start square's generator yields under the pin the scan reports for that square |
| MoveFacts.ValidPawnAdvance | chessEngine.py:58-168 | every valid move is built from the board, and a valid pawn move of two rows is a forward double push on the file from the starting row over an empty square |
| MoveFacts.KingMoveRows | chessEngine.py:256-279 | every king move starts on the king and ends at most one row away |
| Engine.GameState.ReadLastMove | chessEngine.py:366-370 | decoding the last move's notation gives its piece code and its start and end squares |
| Engine.GameState.MakeMove | chessEngine.py:507-526 | the start square is emptied and the moved piece put on the end square, the move is logged, the turn passes and the flags are raised as `MovedFlags` says |
| Rules.MoveBoard | chessEngine.py:508-509 | the end square holds the moved piece, the start square is empty, and no other square changes |
| Rules.MovedFlags | chessEngine.py:511-524 | castling flags only rise, and the king flag is set exactly when it was set or this colour's king moved |
| Engine.GameState.MarkMovedPieces | chessEngine.py:511-524 | each colour's flags become `MovedFlags` of the logged move |
| Engine.GameState.CastlingMove | chessEngine.py:481-504 | the board gets the rook jump of `CastleRook` and the castling colour's rook flag is set |
| Rules.CastleRook | chessEngine.py:481-504 | without a castling, the board is unchanged |
| Rules.CastlingOf | chessEngine.py:486-503 | defines which colour and side a king move from column 4 to column 6 or 2 castles; `Rules.CastleRookCases` proves what the rook jump then is |
| Rules.CastleRookCases | chessEngine.py:486-504 | a white (black) king moving from column 4 to 6 brings the rook on (7, 7) ((0, 7)) to (7, 5) ((0, 5)), to 2 brings the rook on column 0 to column 3, and any other move leaves the board alone |
| Rules.CastledFlags | chessEngine.py:489-504 | the king flag is kept and the rook flags only rise |
| Rules.CastlingCompletes | chessEngine.py:481-509 | a generated castling followed by the rook jump leaves king and rook side by side and the king's and corner's squares empty |
| Engine.GameState.EnPassantMove | chessEngine.py:375-385 | while a record is open, a pawn landing on its target square removes the captured pawn; the record is always closed |
| Rules.EnPassantCapture | chessEngine.py:381-382 | a pawn landing on the open record's target square empties the captured pawn's square |
| Engine.GameState.CheckEnPassant | chessEngine.py:364-373 | after a two-square pawn advance the record opens on it, and otherwise is left as it was |
| Rules.DoublePush | chessEngine.py:371 | defines the two-square pawn advance test; `Rules.EnPassantFrom` states what record it opens |
| Rules.EnPassantFrom | chessEngine.py:371-373 | a record opens exactly on a two-square pawn advance; it then captures the advanced pawn and targets the square passed over |
| Engine.GameState.CheckPromotion | chessEngine.py:388-394 | a pawn reaching row 0 or 7 is marked for promotion on its end square, and otherwise nothing changes |
| Rules.PromotionSquare | chessEngine.py:393-394 | a square is marked exactly for a pawn ending on row 0 or row 7, and it is the end square |
| Engine.GameState.Promote | gameLogic.py:74-99 | the marked square gets the chosen piece, white on row 0 and black on row 7, and the mark is cleared |
| Rules.PromoteAt | gameLogic.py:74-99 | a promotion puts the chosen piece of the row's colour on the end square |
| Rules.PromotionKeepsColor | gameLogic.py:74-99 | a pawn reaching its own far rank is replaced by a piece of its own colour |
| Engine.GameState.RelocateKings | gameLogic.py:166-173 | each king location becomes the result of the row-major re-scan for that colour's king |
| Rules.KingScan | gameLogic.py:167-173 | defines the row-major re-scan for a colour's king; `Rules.KingScanLocates` proves what it finds |
| Rules.KingScanLocates | gameLogic.py:167-173 | when all of a colour's kings stand on one square, the re-scan finds it, or keeps the old location when there is none |
| Engine.GameState.SideRules | gameLogic.py:175-183 | castling rook jump, en-passant removal, promotion with the chosen piece and the new en-passant record, in that order |
| Engine.GameState.Commit | gameLogic.py:155-183 | for a move equal to a valid move, as the caller checks, the whole post-move sequence: the board becomes `CommittedBoard`, the move is logged, the turn passes, the en-passant record is the one the move opens, the flags rise, the king locations are re-scanned and the state invariant is preserved, including an empty en-passant target square |
| Rules.CommittedBoard | gameLogic.py:166-183 | the board after the post-move sequence is again 8x8 |
| Rules.CommitKeepsKings | gameLogic.py:166-183 | the re-scan finds each colour's king where the move left it, and every king of that colour still stands there after the side rules |
| Rules.CommitTouchesOnly | gameLogic.py:175-183 | beyond `make_move`, the side rules change only the castling rook squares, the en-passant capture square (which they empty) and the promotion square |
| Rules.CommitKeepsTargetVacant | chessEngine.py:371-373 | after a move whose two-row pawn advance passes over an empty square, the square the new record targets is empty |
| Engine.ValidMoveKeepsTargetVacant | gameLogic.py:155-183 | committing a move equal to a valid move leaves the target square of the new en-passant record empty |
| KingSafety.DoublePushSetsUp | chessEngine.py:371-373 | on the example board, Black's two-square advance (1, 2) to (3, 2) gives the board next to the white pawn and opens a record targeting (2, 2) |
| KingSafety.NothingPinned | chessEngine.py:303-361 | on that board the scan from the white king on (3, 0) finds no pin and no check, because the black pawn stands between the white pawn and the rook |
| KingSafety.EnPassantExposesKing | chessEngine.py:58-104 | on that board White is not in check, the en-passant capture (3, 1) to (2, 2) is a valid move, and after the post-move sequence the white king on (3, 0) is in check from the rook on (3, 7) |
| KingSafety.RookChecksAlongRank | chessEngine.py:323-342 | with the two pawns gone, the scan along the rank reports the rook's check |

## Left out

- The pygame front end is not part of this model: drawing, mouse input, the clock, the
  image loading and the main loop of `gameLogic.py`. The promotion picker becomes a
  parameter of `Commit` restricted to queen, rook, bishop or knight.
- Checkmate and stalemate detection, and any piece counting the front end does, are not
  part of this model.
- The board is a value (`seq<seq<Piece>>`) held in a field of the game state. The source's
  nested Python lists can be aliased, and aliasing is not modelled.
- Engine.GameState.EnPassantMove, CheckEnPassant, CheckPromotion, CastlingMove and
  MarkMovedPieces: these require a non-empty move log whose last move lies on the board.
  The source reads `move_log[-1]` and would raise an error on an empty log.
- Engine.GameState.Commit requires a move built from the current board and equal to a valid
  move, as the caller only commits a move found in the list from `get_valid_move`. It also requires the state invariant `Valid`:
  the kings stand on their recorded squares, and an unmoved king is on its home square.
- Engine.GameState.QueenMove requires a queen of the side to move on the square, as
  `get_possible_move` only dispatches it there. The rook half's test for a queen then keeps
  the pin entry for the bishop half.
- Engine.GameState.KingMove, CheckCastlingKingSide and CheckCastlingQueenSide require the
  side's recorded king location to be the square they are called with. That is how
  `get_valid_move` and `get_possible_move` call them.
- Rules.CommittedBoard states only that the board stays 8x8. What the sequence does square
  by square is stated by Rules.CommitTouchesOnly, Rules.CommitKeepsKings and the contracts
  of the rule functions it composes.
- Engine.GameState.GetValidMove: no contract says the own king is safe after a valid move,
  because the source does not make sure of it. An en-passant capture can uncover a check
  along the king's rank (`KingSafety.EnPassantExposesKing`).
- Notation.GetChessNotation states only the length. The content is stated by
  Notation.NotationRoundTrip and Notation.NotationInjective.
- The per-piece loops are split into helper methods: one direction, one square, one row.
  The appended moves and their order are those of the source loops.

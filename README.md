# Sargon III opening book: decoder and sub-book merger

This project models the two C tools that read the opening book of the Sargon III chess
program.

The book stores no moves. Each entry byte holds a class in its top two bits and, in its
low six bits, a 1-based rank into the ordered move list that a fixed move generator
produces for the current position. Decoding the book therefore means regenerating that
list exactly, ply by ply, and walking the variation tree with backtracking.

- `book_decoder.c` holds three things:
  - the position tables: `board`, `piece_location` and `piece_type`;
  - the move generator (`search_moves`, `search_moves_under_check` and their helpers) and the move applier `do_move`;
  - the tree walkers `decode_variations`, `skip_branch` and `skip_all_branches`.
- `book_rebuild.c` merges sub-book files into the master book:
  - `parse` copies the master book and records the rank path;
  - at a `0xC5` reference, `read_subbook` forms the sub-book's file name;
  - `synchronize` finds the branch along the recorded path and copies it, using `parse_branch`.

Modules, leaves first:

- `Wrappers` (wrappers.dfy): `Option` and `Result`.
- `ChessBoard` (chess_board.dfy):
  - squares, slots and colours, and a position as a value (`Position(board, location, types)`) with its consistency invariant;
  - the per-piece predicates, `is_threaten`, `is_protected` and `find_king_attacker` as functions, with lemmas stating each predicate's geometry;
  - the initial tables.
- `MoveApply` (apply_move.dfy): `do_move` as the function `ApplyMove` on positions, with what it does to every square and slot.
- `MoveGen` (move_gen.dfy):
  - the ordered move list as functions, phase by phase (`Generate`, `NormalMoves`, `Evasions`);
  - the `next_location` chain;
  - lemmas about list order and about what each phase may contain.
- `Engine` (engine.dfy): the class `Engine`, which holds the three tables as arrays and `moves` as a sequence. Every C routine that fills the list or changes the tables is a method there, and each is proved equal to the function on positions that specifies it.
- `BookFormat` (book_format.dfy): the entry-byte classes, and a `Node` datatype for a well-formed branch together with its byte encoding `Enc`.
- `BookDecoder` (decoder.dfy):
  - `decode_variations` as the function `Variations`, stated over any move generator and move applier;
  - `skip_branch` and `skip_all_branches` as `SkipFrom` and `SkipAllFrom`;
  - the class `Decoder`, whose methods run on an `Engine` and are proved against those functions.
- `BookRebuild` (rebuild.dfy): the functions `ParseFrom`, `SyncLoop` and `BranchEnd`, and the class `Rebuild`, whose cursors `index` and `subIndex`, path `moves` and output `out` the methods update in place.

Three details of the code that the model keeps:

- **Victim order.** Captures are collected by victim slot from QUEEN1 down to PAWN1, so the pawns are visited from PAWN8 down to PAWN1 (book_decoder.c:436).
- **Principal entries.** After a bare `0xC0`, the next byte must be of class `0x00` (the source asserts it). The entry keeps the class `0xC0` of the first byte, so its 0x80 bit is set and the remaining siblings follow it (book_decoder.c:657-662, 685).
- **Rank zero.** A rank of 0 stops the node without consuming the rank byte. After a `0xC0`, the `0xC0` itself has been consumed.

## Model

| member | source | states |
|---|---|---|
| ChessBoard.Adverse | book_decoder.c:65 | the adverse of a colour is a colour and differs from it |
| ChessBoard.CanTakeIff | book_decoder.c:75-193 | on any board of the right shape (the pretend board of `is_protected` included), `can_take` from an occupied square holds exactly when the target holds no piece of the mover's colour and the piece's geometry holds: a pawn, one file aside and one row forward; a knight, (1,2) or (2,1); a king, at most one step each way; a bishop, rook or queen, aligned with every square strictly between empty |
| ChessBoard.CanMoveIff | book_decoder.c:86-180 | `can_move` to an empty square holds for a pawn exactly when the target is one forward step away, and for any other piece exactly when the same geometry holds |
| ChessBoard.PathClearAll | book_decoder.c:122-124 | the loop over intermediate squares of a slide succeeds exactly when every square of the ray from step n to step d-1 is on the board and empty |
| ChessBoard.SlideIsOpenLine | book_decoder.c:113-156 | for aligned distinct squares, the open-line condition of the geometry is the same as the sliding pieces' loop from step 1 to the distance |
| ChessBoard.LineEnd | book_decoder.c:365-367 | walking `dist` steps of the sign step from one aligned square reaches the other |
| ChessBoard.BetweenNext | book_decoder.c:365-367 | consecutive squares of a line differ by `sgn(dx) + 8*sgn(dy)`, which is the shield loop's step |
| ChessBoard.ThreatensIff | book_decoder.c:195-202 | `is_threaten`'s loop over the first n slots of a colour is true exactly when one of those slots is alive and can take the square |
| ChessBoard.ThreatensGrows | book_decoder.c:195-202 | a threat found among the first n slots is a threat by the colour |
| ChessBoard.PretendTarget | book_decoder.c:206-208 | placing the pretended enemy piece changes only `board[pos]`, to the adverse colour's first slot, and keeps the tables consistent in shape |
| ChessBoard.LiveSlotFacts | book_decoder.c:387-398 | in a well-formed position a live slot stands on its square, that square has the slot's colour, and the piece there is a king exactly when the slot is KING1 |
| ChessBoard.FindAttackerFrom | book_decoder.c:223-227 | the scan from slot i returns a square of a live non-king attacker that can take the king's square, or nothing exactly when no slot from i to QUEEN1 can |
| ChessBoard.FindKingAttacker | book_decoder.c:219-228 | `find_king_attacker` returns a non-king enemy piece that can take the king, and finds none exactly when no enemy pawn..queen can; the source's `assert(false)` is this None |
| ChessBoard.InitialSlot | book_decoder.c:23-36 | each slot's initial square holds that slot, its type is a king exactly for KING1, and pawns start off the first and last rows |
| ChessBoard.InitialSquare | book_decoder.c:505-510 | after `init_board` every occupied square holds a slot whose location is that square |
| ChessBoard.InitialWellFormed | book_decoder.c:505-510 | the initial tables are well-formed: consistent, kings alive on their squares, pawns off the end rows |
| MoveApply.Lift | book_decoder.c:540-543 | removing a captured piece empties its square and its location and leaves every other square, slot and type alone |
| MoveApply.Relocate | book_decoder.c:544-546 | moving a piece to an empty square puts it there, empties its origin, updates its location and nothing else |
| MoveApply.PassedSquareFacts | book_decoder.c:540 | the en-passant victim's square `x2 + y1*8` is on the board and differs from the destination and, for a sideways move, from the origin |
| MoveApply.CaptureAndMove | book_decoder.c:531-546 | the mover lands on `to`, `from` is empty, a captured piece (the en-passant victim included) is dead and its square empty, and every other square and location is unchanged |
| MoveApply.CastleRook | book_decoder.c:548-559 | on a king move of +2 the rook from `to+1` is on `to-1`; on -2 the rook from `to-2` is on `to+1`; the mover's and victim's facts survive and untouched squares are unchanged |
| MoveApply.CastleCases | book_decoder.c:548-559 | the two castling tests on the new position hold exactly for a kingside or queenside castle; the rook step is then a relocation to an empty square, and otherwise nothing changes |
| MoveApply.KingsideRook | book_decoder.c:548-553 | after a kingside castle the rook's squares are valid, the rook moves from `to+1` to `to-1`, and all other facts of the move are kept |
| MoveApply.QueensideRook | book_decoder.c:554-559 | after a queenside castle the rook moves from `to-2` to `to+1`, and all other facts of the move are kept |
| MoveApply.ApplyMove | book_decoder.c:530-563 | `do_move` leaves a well-formed position: the mover on `to`, `from` empty, the victim dead, the castling rook moved, a pawn reaching row 1 or 8 a QUEEN and every other type unchanged, and every square it does not touch unchanged |
| MoveApply.OthersKeepRank | book_decoder.c:530-559 | every slot other than the mover and the victim keeps its liveness and its row (a castling rook stays on its row) |
| MoveApply.PawnsStayInside | book_decoder.c:560-561 | after the move no piece of type PAWN stands on the first or last row |
| MoveApply.ApplyGivesLastOk | book_decoder.c:413-416 | the move just played is a valid `last` for the next `search_moves`: its piece stands on `to`, and after a two-row pawn step the passed square is empty |
| MoveApply.DoubleStepPassage | book_decoder.c:413-416 | any result that keeps the mover on `to`, keeps untouched squares and does not turn a non-pawn into a pawn satisfies that condition |
| MoveGen.ChainFollowsOrder | book_decoder.c:469-480 | the chain starts at 033, and `next_location` maps the k-th square of the traversal order to the (k+1)-th, and the last one to END |
| MoveGen.NextLocationFollowsOrder | book_decoder.c:469-480 | `next_location` is the successor table of the traversal order from 033 |
| MoveGen.ChainVisitsEverySquareOnce | book_decoder.c:469-484 | the traversal from 033 lists 64 distinct squares that include every square, so both chain loops end |
| MoveGen.TakeBy | book_decoder.c:245-254 | one attacker slot adds moves exactly when it is alive and can take the target: all are the same move, four of them exactly for a pawn capturing onto the last row and one otherwise |
| MoveGen.TakeMoves | book_decoder.c:241-255 | `try_to_take` registers only captures of the target by the adverse colour, each playable by `do_move` |
| MoveGen.TakeMovesComplete | book_decoder.c:241-255 | a move is registered for the target exactly when it is a capture of the target by a live piece of the adverse colour in one of the scanned slots |
| MoveGen.TakeMovesCopies | book_decoder.c:248-253 | each registered capture appears four times when a pawn captures onto its last row, and once otherwise |
| MoveGen.CapturesOf | book_decoder.c:436-438 | the moves for one victim slot are captures by the side to move of that slot |
| MoveGen.CapturesOfCopies | book_decoder.c:436-438 | for one victim slot, each capture appears four times for a pawn capturing onto its last row, once otherwise |
| MoveGen.Captures | book_decoder.c:436-439 | the capture phase lists only captures by the side to move, never of the enemy king |
| MoveGen.CapturesComplete | book_decoder.c:436-439 | the capture phase holds exactly the captures by the side to move of a live enemy piece in the victim slots scanned (pawn..queen for the whole phase) |
| MoveGen.CapturesVictims | book_decoder.c:436-438 | every move of the phase takes a victim in the scanned slots, and the moves for one victim slot all take that slot |
| MoveGen.CapturesCopies | book_decoder.c:436-439 | in the whole phase each capture appears four times when a pawn captures onto its last row, once otherwise |
| MoveGen.CapturesByVictim | book_decoder.c:436 | the phase lists its captures by victim slot from QUEEN1 down to PAWN1 |
| MoveGen.PromotionBy | book_decoder.c:442-450 | a pawn adds nothing or four identical promotion pushes, and exactly four when it is alive, still a PAWN, and its forward square is empty and on an end row |
| MoveGen.Promotions | book_decoder.c:442-451 | the promotion phase is a run of blocks of four identical moves; it holds exactly the promotion pushes of the side's pawn slots, each four times |
| MoveGen.PromotionCompletes | book_decoder.c:442-450 | every promotion push of a pawn slot is among that pawn's four moves |
| MoveGen.Castling | book_decoder.c:453-466 | at most two moves: 4→6 only when the kingside conditions hold (king home, ROOK2 in its corner, squares 5 and 6 empty, squares 4, 5 and 6 unthreatened), 4→2 only when the queenside ones hold; kingside first |
| MoveGen.PieceMoveBy | book_decoder.c:284-286 | one slot adds a move to the empty square exactly when it is alive and `can_move` there, and then only its own quiet move |
| MoveGen.PieceMovesTo | book_decoder.c:280-288 | `try_to_move_a_piece_to` lists exactly the quiet moves to the square by the colour's slots from KNIGHT1 up to the bound |
| MoveGen.PromotedMoveBy | book_decoder.c:294-296 | one pawn slot adds a move exactly when it is alive, its type is no longer PAWN, and it can move to the square |
| MoveGen.PromotedMovesTo | book_decoder.c:290-298 | `try_to_move_a_promoted_piece_to` lists exactly the quiet moves to the square by pawn slots whose type is no longer PAWN |
| MoveGen.ChainAt | book_decoder.c:480-481 | the moves for one chain square are exactly the quiet moves onto it by knights..king of the side to move |
| MoveGen.ChainMoves | book_decoder.c:480-481 | the chain walk up to k lists exactly the quiet knight..king moves onto the first k squares of the chain |
| MoveGen.ChainPhasesComplete | book_decoder.c:469-484 | over the whole traversal order, the two chain walks list exactly the quiet knight..king moves and exactly the quiet promoted-pawn moves of the side to move |
| MoveGen.PromotedChainAt | book_decoder.c:483-484 | the moves for one square of the second walk are exactly the quiet moves onto it by promoted pawns |
| MoveGen.PromotedChainMoves | book_decoder.c:483-484 | the second walk up to k lists exactly the quiet promoted-pawn moves onto the first k squares |
| MoveGen.PushesBy | book_decoder.c:488-500 | one pawn adds at most two pushes, the single step first, each to an empty square off the end rows |
| MoveGen.PushesByIff | book_decoder.c:488-500 | one pawn adds exactly its single step when the forward square is empty and off the end rows, and also its double step from the start row when that square is empty |
| MoveGen.PawnPushes | book_decoder.c:487-502 | the push phase lists exactly the single steps, and the double steps from the start row over an empty square, of pawns whose forward square is empty and not on an end row |
| MoveGen.PretendPosition | book_decoder.c:416-420 | the pretend single step moves the double-stepped pawn to the passed square and changes nothing else |
| MoveGen.EnPassantBy | book_decoder.c:424-426 | one own pawn adds at most one move, and adds one exactly when it stands one file aside and one row behind the passed square and the double-stepped pawn is an enemy |
| MoveGen.EnPassantMoves | book_decoder.c:423-427 | the loop over the first n pawns lists exactly their en-passant captures onto the passed square |
| MoveGen.EnPassant | book_decoder.c:413-433 | the en-passant moves are exactly, after an enemy two-row pawn step, the captures onto the passed square by own pawns beside it; none otherwise |
| MoveGen.NormalMoves | book_decoder.c:412-502 | the list outside check is playable: every move is by the side to move and acceptable to `do_move` |
| MoveGen.CastlingIff | book_decoder.c:453-466 | the castling phase holds exactly the allowed castles: 4→6 when the kingside test passes, 4→2 when the queenside one does |
| MoveGen.SevenOrder | book_decoder.c:412-502 | seven lists, each exactly its phase's moves, appended in order split into those seven segments, and hold exactly the moves of the seven phases |
| MoveGen.NormalExact | book_decoder.c:412-502 | each of the seven phase lists outside check holds exactly its phase's moves, and the list is the seven appended in order |
| MoveGen.NormalList | book_decoder.c:407-502 | with the king alive and not threatened, `search_moves` gives the normal list; it is seven segments in order (en passant, captures, promotions, castling, knight..king walk, promoted-pawn walk, pawn pushes), each holding exactly its phase's moves, and it holds exactly the moves of those phases |
| MoveGen.KingTarget | book_decoder.c:302-309 | each of the 8 directions gives nothing or an on-board square adjacent to the king |
| MoveGen.KingDirections | book_decoder.c:302-309 | the eight directions and the adjacent on-board squares correspond one to one |
| MoveGen.KingTakeTo | book_decoder.c:305-311 | one direction adds at most one move: a capture of an adjacent enemy piece, in that direction, that the enemy does not protect |
| MoveGen.KingTakeToIff | book_decoder.c:305-311 | a direction adds a move exactly when it leads to an on-board square the king can safely capture on |
| MoveGen.KingTakes | book_decoder.c:300-313 | `try_king_take` from direction lo lists exactly the safe king captures whose direction is at least lo |
| MoveGen.KingStepTo | book_decoder.c:320-326 | one direction adds at most one move: a king step, in that direction, to an adjacent empty square the enemy does not threaten |
| MoveGen.KingStepToIff | book_decoder.c:320-326 | a direction adds a move exactly when it leads to an on-board empty square the enemy does not threaten |
| MoveGen.KingSteps | book_decoder.c:315-328 | `try_king_move` from direction lo lists exactly the safe king steps whose direction is at least lo |
| MoveGen.CountCheckers | book_decoder.c:334-338 | the count is between 0 and the slots scanned, and is 0 exactly when none of them can take the king |
| MoveGen.TwoCheckers | book_decoder.c:334-339 | the count is above 1 exactly when two distinct scanned slots hold live pieces that can take the king (the double-check test) |
| MoveGen.CheckerCaptureBy | book_decoder.c:353-355 | one own slot adds at most one move, a capture of the checker by that slot |
| MoveGen.CheckerCaptureByIff | book_decoder.c:353-355 | a slot adds a move exactly when it is alive and can take the checker |
| MoveGen.CheckerCaptures | book_decoder.c:350-356 | the first evasion phase lists exactly the captures of the checker by the side's slots below the bound |
| MoveGen.CheckerCapturesAll | book_decoder.c:350-356 | over slots PAWN1..QUEEN1 the phase holds exactly the captures of the checker by a piece other than the king |
| MoveGen.PawnBlockBy | book_decoder.c:374-378 | one pawn adds at most one move, and exactly its single or double step onto the shield square when it has one |
| MoveGen.PawnBlocks | book_decoder.c:374-379 | the pawn loop of a shield square lists exactly the pawn steps onto it by the first n pawns |
| MoveGen.BlocksTo | book_decoder.c:368-379 | a shield square gets exactly the blockers onto it: quiet knight..queen moves, quiet moves of promoted pawns, and pawn steps |
| MoveGen.LineSteps | book_decoder.c:365-367 | on an open line the shield loop's squares are empty, start one step from the checker, follow by the step, end one step before the king, and are exactly the squares strictly between |
| MoveGen.LineSquaresBetween | book_decoder.c:365-367 | the squares the shield loop visits are exactly the squares strictly between the checker and the king |
| MoveGen.Shields | book_decoder.c:367-380 | the interpositions over the first n shield squares are exactly the blockers onto those squares |
| MoveGen.Interpositions | book_decoder.c:362-381 | the interpositions are exactly the blockers onto squares strictly between a sliding checker and the king; none against a pawn or knight |
| MoveGen.DoubleCheckEvasions | book_decoder.c:339-343 | the double-check list is playable |
| MoveGen.SingleCheckEvasions | book_decoder.c:350-384 | the single-check list is playable |
| MoveGen.Evasions | book_decoder.c:330-385 | `search_moves_under_check` gives a playable list, and its only failure is NoChecker (the source's `assert(false)` in `find_king_attacker`) |
| MoveGen.Generate | book_decoder.c:400-503 | `search_moves` gives a playable list, and fails with KingMissing exactly when the king of the side to move is dead |
| MoveGen.DoubleCheckList | book_decoder.c:339-343 | the double-check list is safe king captures followed by safe king steps, and holds every safe king capture and every safe king step |
| MoveGen.GenerateUnderCheck | book_decoder.c:407-410 | with the king of the side to move threatened, `search_moves` gives the evasion list |
| MoveGen.DoubleCheckOnlyKing | book_decoder.c:335-343 | with the king threatened and more than one checker, `search_moves` returns king captures and then king steps, and every safe one of each |
| MoveGen.SingleCheckPhases | book_decoder.c:350-384 | the single-check list is, in order: checker captures, king captures, interpositions, king steps; and it holds every evasion of those four kinds |
| MoveGen.SingleCheckOrdered | book_decoder.c:350-384 | the single-check list is checker captures, then king captures, then interpositions, then king steps |
| MoveGen.SingleCheckComplete | book_decoder.c:350-384 | the single-check list holds exactly the checker captures, safe king captures, interpositions and safe king steps |
| MoveGen.SingleCheckList | book_decoder.c:345-384 | with the king threatened by at most one checker, `search_moves` fails exactly when `find_king_attacker` finds none, and otherwise gives the four phases in order, holding every evasion of those kinds |
| Engine.Engine.constructor | book_decoder.c:23-36 | the engine starts with the initial tables and an empty move list |
| Engine.Engine.InitBoard | book_decoder.c:505-510 | after `init_board` every slot's square holds that slot, and every occupied square's slot is located there |
| Engine.Engine.VerifyBoard | book_decoder.c:387-398 | the result is true exactly when the tables are consistent both ways |
| Engine.Engine.RegisterMove | book_decoder.c:235-239 | the move is appended to the list |
| Engine.Engine.IsThreaten | book_decoder.c:195-202 | the result is the position's `Threatened` |
| Engine.Engine.IsProtected | book_decoder.c:204-217 | the result is `Protected` of the position at entry, and `board` is as it was |
| Engine.Engine.FindKingAttacker | book_decoder.c:219-228 | the result is the attacker scan from slot 0 |
| Engine.Engine.TryToTake | book_decoder.c:241-255 | appends exactly `TakeMoves` for all 16 attacker slots |
| Engine.Engine.TakeStep | book_decoder.c:246-254 | appends exactly `TakeBy` for one attacker slot |
| Engine.Engine.TryToMoveAPieceTo | book_decoder.c:280-288 | appends exactly `PieceMovesTo` for slots KNIGHT1..KING1 |
| Engine.Engine.PiecesTo | book_decoder.c:283-287 | the loop's prefix appends `PieceMovesTo` up to slot n |
| Engine.Engine.PieceStep | book_decoder.c:284-286 | one slot appends `PieceMoveBy` |
| Engine.Engine.TryToMoveAPromotedPieceTo | book_decoder.c:290-298 | appends exactly `PromotedMovesTo` for slots PAWN1..PAWN8 |
| Engine.Engine.PromotedStep | book_decoder.c:294-296 | one pawn slot appends `PromotedMoveBy` |
| Engine.Engine.TryKingTake | book_decoder.c:300-313 | appends exactly `KingTakes` for directions 7 down to 0, with `board` restored |
| Engine.Engine.KingTakeStep | book_decoder.c:305-311 | one direction appends `KingTakeTo`, with `board` restored |
| Engine.Engine.TryKingMove | book_decoder.c:315-328 | appends exactly `KingSteps` for directions 7 down to 0 |
| Engine.Engine.KingMoveStep | book_decoder.c:320-326 | one direction appends `KingStepTo` |
| Engine.Engine.CountChecks | book_decoder.c:334-338 | the count is `CountCheckers` over slots PAWN1..QUEEN1 |
| Engine.Engine.CaptureChecker | book_decoder.c:350-356 | appends exactly `CheckerCaptures` over slots PAWN1..QUEEN1 |
| Engine.Engine.CheckerCaptureStep | book_decoder.c:353-355 | one slot appends `CheckerCaptureBy` |
| Engine.Engine.PawnBlocksTo | book_decoder.c:374-379 | appends exactly `PawnBlocks` for all eight pawns |
| Engine.Engine.PawnBlockStep | book_decoder.c:375-378 | one pawn appends `PawnBlockBy` |
| Engine.Engine.BlockOn | book_decoder.c:368-379 | one shield square appends `BlocksTo` |
| Engine.Engine.Interpose | book_decoder.c:362-381 | appends exactly `Shields` over the squares between checker and king |
| Engine.Engine.WalkLine | book_decoder.c:367-380 | the shield loop stepping from `start` to the king appends `Shields` over the line |
| Engine.Engine.SearchMovesUnderCheck | book_decoder.c:330-385 | succeeds exactly when `Evasions` does, appends its list, and leaves `board` as it was |
| Engine.Engine.EvadeDoubleCheck | book_decoder.c:339-343 | appends exactly `DoubleCheckEvasions` |
| Engine.Engine.EvadeSingleCheck | book_decoder.c:350-384 | appends exactly `SingleCheckEvasions` |
| Engine.Engine.CaptureOrTake | book_decoder.c:350-359 | appends checker captures, then king captures |
| Engine.Engine.BlockOrStep | book_decoder.c:361-384 | appends interpositions, then king steps |
| Engine.Engine.InterposeAgainst | book_decoder.c:362-381 | appends `Interpositions` for the checker |
| Engine.Engine.SearchMoves | book_decoder.c:400-503 | succeeds exactly when `Generate` does, the list is then exactly its result, and the position is unchanged |
| Engine.Engine.NormalPhases | book_decoder.c:412-502 | appends exactly `NormalMoves` and leaves the position unchanged |
| Engine.Engine.EarlyPhases | book_decoder.c:412-466 | appends en-passant, captures, promotions and castling in that order |
| Engine.Engine.PassOrTake | book_decoder.c:412-439 | appends en-passant moves, then captures |
| Engine.Engine.PromoteOrCastle | book_decoder.c:441-466 | appends promotions, then castling |
| Engine.Engine.LatePhases | book_decoder.c:468-502 | appends the chain walk, the promoted-pawn chain walk, then pawn pushes |
| Engine.Engine.TryEnPassant | book_decoder.c:412-433 | appends exactly `EnPassant` and restores the tables after the pretend step |
| Engine.Engine.PawnsTakeOn | book_decoder.c:423-427 | on the pretend position, appends `EnPassantMoves` for all eight pawns |
| Engine.Engine.EnPassantStep | book_decoder.c:424-426 | one pawn appends `EnPassantBy` |
| Engine.Engine.TakeMaterial | book_decoder.c:435-439 | appends exactly `Captures`, from the enemy QUEEN1 down to PAWN1 |
| Engine.Engine.VictimStep | book_decoder.c:437-438 | one victim slot appends `CapturesOf` |
| Engine.Engine.PromotePawns | book_decoder.c:441-451 | appends exactly `Promotions` for all eight pawns |
| Engine.Engine.PromotionStep | book_decoder.c:443-450 | one pawn appends `PromotionBy` |
| Engine.Engine.KingsideOk | book_decoder.c:456-459 | the result is `KingsideAllowed` |
| Engine.Engine.QueensideOk | book_decoder.c:461-465 | the result is `QueensideAllowed` |
| Engine.Engine.TryCastling | book_decoder.c:453-466 | appends exactly `Castling` |
| Engine.Engine.WalkChain | book_decoder.c:480-481 | walking `next_location` from 033 appends `ChainMoves` over the whole order |
| Engine.Engine.ChainStep | book_decoder.c:481 | one chain square appends `ChainAt` |
| Engine.Engine.WalkPromotedChain | book_decoder.c:483-484 | the second walk appends `PromotedChainMoves` over the whole order |
| Engine.Engine.PromotedChainStep | book_decoder.c:484 | one chain square appends `PromotedChainAt` |
| Engine.Engine.PushPawns | book_decoder.c:487-502 | appends exactly `PawnPushes`, PAWN8 first |
| Engine.Engine.PushStep | book_decoder.c:488-500 | one pawn appends `PushesBy` |
| Engine.Engine.DoMove | book_decoder.c:530-563 | the tables become `ApplyMove` of the position at entry |
| Engine.Engine.CaptureAndRelocate | book_decoder.c:531-546 | the tables become `CaptureAndMove` of the position at entry |
| Engine.Engine.MoveCastledRook | book_decoder.c:548-559 | the tables become `CastleRook` of the position after the capture-and-move step |
| Engine.Engine.MoveRook | book_decoder.c:549-552 | the rook move is `Relocate` |
| Engine.Engine.Restore | book_decoder.c:653-655 | the three tables hold exactly the snapshot |
| BookFormat.Flags | book_decoder.c:657 | `b & 0xC0` is one of the four classes and lies within 64 below `b` |
| BookFormat.EntryRank | book_decoder.c:671 | `b & 0x3F` is below 64 and, added to the class, gives back `b` |
| BookDecoder.Variations | book_decoder.c:642-690 | `decode_variations` never moves the cursor backwards |
| BookDecoder.Ply | book_decoder.c:666-676 | after the rank byte is read, the walk never ends before it |
| BookDecoder.Reply | book_decoder.c:675-685 | once a move is played, the walk ends after its rank byte |
| BookDecoder.RankZeroStops | book_decoder.c:671-672 | a rank of 0 stops the node with no line and does not consume the byte |
| BookDecoder.EscapeTakesFive | book_decoder.c:657-660 | a reference byte ends the node after exactly five bytes and reports the four name bytes |
| BookDecoder.LeafPlaysOne | book_decoder.c:671-681 | a class-0x40 entry prints one move, the rank-th of the generated list, and stops right after its byte |
| BookDecoder.RankBeyondList | book_decoder.c:657-675 | a rank above the list's length is the RankTooHigh error at the rank byte, which after a bare 0xC0 is the byte after it; the source would read a stale move |
| BookDecoder.VariationsSpan | book_decoder.c:642-690 | on a well-formed branch, a successful decode ends exactly after the branch's bytes |
| BookDecoder.PlySpan | book_decoder.c:666-685 | from the rank byte of a well-formed entry, a successful decode ends after the entry's child and its remaining siblings |
| BookDecoder.SkipFrom | book_decoder.c:587-605 | the skip loop never moves back and, with branches open, always moves on |
| BookDecoder.SkipSpans | book_decoder.c:596-604 | skipping a well-formed branch lowers the open-branch count by one exactly at its end |
| BookDecoder.SkipBranchEnd | book_decoder.c:584-607 | `skip_branch` stops right after a well-formed branch |
| BookDecoder.DecodeAndSkipAgree | book_decoder.c:584-690 | where `decode_variations` succeeds on a well-formed branch, `skip_branch` from the same byte stops where it did |
| BookDecoder.SkipAllFrom | book_decoder.c:615-629 | `skip_all_branches` always moves the cursor forward |
| BookDecoder.SkipSiblings | book_decoder.c:623-628 | the sibling loop always moves the cursor forward |
| BookDecoder.SkipAllOne | book_decoder.c:615-629 | without the 0x80 bit, `skip_all_branches` skips exactly one well-formed branch, a 0xC5 reference included |
| BookDecoder.Decoder.constructor | book_decoder.c:571-572 | the decoder starts at byte 0 of the book on the given engine, with no lines printed |
| BookDecoder.Decoder.SkipBranch | book_decoder.c:584-607 | the cursor ends where `SkipFrom` from level 1 says, or the method reports its error |
| BookDecoder.Decoder.SkipAllBranches | book_decoder.c:615-629 | the cursor ends where `SkipAllFrom` says, or the method reports its error |
| BookDecoder.Decoder.DecodeVariations | book_decoder.c:642-690 | the printed lines, cursor and error are those of `Variations` for the engine's move generator, and the engine's tables are restored to their state at entry |
| BookDecoder.Decoder.Entry | book_decoder.c:651-685 | one pass of the do-while either continues with the next sibling from a later byte or ends with the walk's outcome |
| BookDecoder.Decoder.Moves | book_decoder.c:666 | `search_moves` fills the list with the rules' result, whose moves are all acceptable to `do_move` |
| BookDecoder.Decoder.PlyStep | book_decoder.c:666-685 | the pass from the rank byte agrees with `Ply` |
| BookDecoder.Decoder.PlayOn | book_decoder.c:677 | `do_move` gives the rules' position, still well-formed, with the move a valid `last` |
| BookDecoder.Decoder.ReplyStep | book_decoder.c:675-685 | the pass after a move is chosen agrees with `Reply` |
| BookRebuild.Lowercase | book_rebuild.c:14-17 | 'A'..'Z' map to the letter of the same index in 'a'..'z', and every other character is unchanged |
| BookRebuild.LowercaseIdempotent | book_rebuild.c:14-17 | a lowercased character is not upper-case, and lowercasing it again changes nothing |
| BookRebuild.SubBookName | book_rebuild.c:53-54 | the name is the four reference bytes lowercased, followed by `#0x1000.BIN` |
| BookRebuild.NameIgnoresCase | book_rebuild.c:53-54 | references that differ only in letter case name the same file |
| BookRebuild.SubAt | book_rebuild.c:57-58 | a nonzero byte read from the zero-padded sub-book buffer is a byte of the file |
| BookRebuild.LevelChange | book_rebuild.c:24-29 | class 0x40 closes a level, class 0x80 and a bare 0xC0 open one, class 0x00 and the other 0xC? bytes leave it |
| BookRebuild.BranchEnd | book_rebuild.c:19-31 | `parse_branch` never moves back, and ends inside the file whenever it moves |
| BookRebuild.Copied | book_rebuild.c:22-23 | the copied bytes are as many as the cursor advanced |
| BookRebuild.BranchSpans | book_rebuild.c:19-31 | over a well-formed branch without references, the level is one lower exactly at the branch's end |
| BookRebuild.BranchCopiesNode | book_rebuild.c:19-31 | `parse_branch(true)` on a well-formed branch without references stops right after it and copies exactly its bytes |
| BookRebuild.SyncLoop | book_rebuild.c:37-45 | the loop never moves back, and once a branch is found it stays found |
| BookRebuild.SyncEntry | book_rebuild.c:40-44 | the entry step never moves back, and keeps a branch found |
| BookRebuild.NothingPastDepth | book_rebuild.c:40-42 | once the level has reached the depth, nothing more is copied or found |
| BookRebuild.CopiesOnlyWhenFound | book_rebuild.c:40-45 | if no branch is found, nothing is copied |
| BookRebuild.NotFoundWritesLeaf | book_rebuild.c:46-49 | `synchronize` writes the one byte 0x41 when no branch is found, and otherwise exactly the copied branch |
| BookRebuild.SyncFinds | book_rebuild.c:37-45 | when the recorded path leads through a well-formed sub-book to a branch, `synchronize` finds it and copies exactly its bytes |
| BookRebuild.SyncSkips | book_rebuild.c:43-44 | a sibling whose rank does not match the path is skipped whole, and the walk continues at the next sibling |
| BookRebuild.SyncEnters | book_rebuild.c:39-42 | a sibling whose rank matches the path is entered, the 0xC0 byte skipped, and the target branch below is found and copied |
| BookRebuild.Synchronized | book_rebuild.c:33-50 | `synchronize` appends its output to `out` and changes only `out` and the sub-book cursor |
| BookRebuild.ReadSub | book_rebuild.c:52-62 | reading a sub-book consumes the four name bytes, keeps the path, and loads the file of that name |
| BookRebuild.ParseFrom | book_rebuild.c:65-86 | `parse` always moves the cursor forward, and not past the end of the book |
| BookRebuild.Entry | book_rebuild.c:68-84 | one entry always moves the cursor forward |
| BookRebuild.Descend | book_rebuild.c:83-85 | the descent and the sibling loop always move the cursor forward |
| BookRebuild.ParseEntry | book_rebuild.c:68-84 | a class 0x00 or 0x80 byte is copied, its rank recorded at the level, and `parse` goes one level down |
| BookRebuild.ParsePrincipal | book_rebuild.c:73-84 | a bare 0xC0 and the byte after it are both copied, and the second byte's rank is recorded |
| BookRebuild.ParseLeaf | book_rebuild.c:73-83 | a class-0x40 byte is copied, its rank recorded, and the loop ends without going down |
| BookRebuild.ParseSubBook | book_rebuild.c:69-71 | 0xC5 is not copied; the four name bytes are consumed; the named file's synchronize output is appended, or the missing file or a short book is an error |
| BookRebuild.ParseCopies | book_rebuild.c:65-86 | on a well-formed branch without references, `parse` copies exactly the branch's bytes and stops right after it |
| BookRebuild.Rebuild.constructor | book_rebuild.c:7-12 | the merge starts at byte 0 with empty output, an empty path and the name template |
| BookRebuild.Rebuild.ParseBranch | book_rebuild.c:19-31 | the cursor ends at `BranchEnd`; with `copy` exactly the bytes passed are appended, without it nothing is; the rest of the state is unchanged |
| BookRebuild.Rebuild.Synchronize | book_rebuild.c:33-50 | the state becomes `Synchronized` of the state at entry |
| BookRebuild.Rebuild.SyncStep | book_rebuild.c:37-45 | one loop pass moves the cursor forward, appends what it copies, and leaves the rest of the loop's result unchanged |
| BookRebuild.Rebuild.SyncBranch | book_rebuild.c:40-44 | the match-or-skip step appends what it copies and agrees with `SyncEntry` |
| BookRebuild.Rebuild.ReadSubbook | book_rebuild.c:52-62 | the state becomes the result of `ReadSub`, or the error is reported |
| BookRebuild.Rebuild.Parse | book_rebuild.c:65-86 | the state becomes the result of `ParseFrom`, or the error is reported |
| BookRebuild.Rebuild.ParseStep | book_rebuild.c:67-85 | one pass of the do-while either continues with the same remaining `ParseFrom` or ends with its result |

## Left out

- Printing is not modelled: `print_board`, `print_move`, `print_moves`, `print_sub_book_name`, and the "=Q", "+", "!" and "....." annotations. The decoder records what `decode_variations` prints as a list of lines: a move at its depth with its "recommended" mark, or a sub-book name. The "gives check" test at the end of `do_move` only prints, so it is left out.
- File input and output are not modelled: `init_book`, `main`, `fopen`, `fread`, `bzero`, `putc` and `fflush`. The book and the sub-book files are given sequences, and the files are a map from name to contents. The merged output is the sequence `out`.
- The fixed capacities are not modelled: `Moves[100]`, the 200 snapshots, `book[100000]`, `book[4096]`, `subb[4096]` and `moves[100]`. The move list and the path are unbounded, and the book is its sequence. A read past the end of the book is the error `OutOfBook`, where the source reads its zero padding. The sub-book keeps the zero padding, through `SubAt`.
- Aborts become errors or preconditions:
  - the `exit(1)` of `verify_board` becomes a false result;
  - the `assert(false)` of `find_king_attacker` becomes the error `NoChecker`;
  - a dead king of the side to move becomes `KingMissing`, where the source indexes with -1;
  - the assert after a bare 0xC0 becomes `BadPrincipal`;
  - a rank above `nb_moves` becomes `RankTooHigh`;
  - the assert after `fopen` becomes `MissingSubBook`.
- The asserts that every caller in the source satisfies (an occupied `from`, a piece of the right type) are preconditions.
- Engine.Engine.DoMove requires the move to be one `search_moves` can produce: a destination off the origin, and pawn and king moves of the shapes the generator emits. `do_move` on arbitrary squares is not modelled.
- BookDecoder.Decoder.DecodeVariations keeps the snapshot of each depth in a local variable rather than in `board_backup[depth]`. Only the restore at each sibling and at exit is modelled.
- The walk functions `Variations`, `Ply` and `Reply` are stated over any move generator and applier. The engine's `search_moves` and `do_move` are tied to them only where their preconditions hold. Outside those, `BookDecoder.Search` and `BookDecoder.Play` give placeholder values that the decoder never reaches.
- skip_branch: the unused `flags` parameter and the commented-out code are not modelled. Neither is `print_variations`, which nothing calls.
- Pins, castling rights (whether king or rook has moved) and underpromotion are not checked by the source, and the model reproduces the list as the source builds it.
- BookRebuild.Rebuild.ParseBranch follows `parse_branch`, which does not skip the four name bytes of a sub-book reference inside a sub-book. The `0xC5` byte leaves the level as it is, and each name byte is then read as an entry of its own class: a letter (0x41-0x5A, 0x61-0x7A, class 0x40) closes a level, a digit (class 0x00) leaves it. So a reference named `b001` closes one level through its `b`. The branch lemmas (`BranchSpans`, `SyncFinds`, `ParseCopies`) are stated for branches without references.
- The notes `parse_branch` prints for a `0xC?` byte and `synchronize` prints for a missing branch are not modelled; the 0x41 byte written for a missing branch is.

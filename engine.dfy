/**
 * The engine of book_decoder.c: the three global tables board, piece_location and
 * piece_type as arrays, and the move list moves/nb_moves as a sequence. Every method
 * is proved against the functions on positions that MoveGen and MoveApply define.
 */
module Engine {
  import opened Wrappers
  import opened ChessBoard
  import opened MoveApply
  import opened MoveGen

  // ----- one iteration of each loop -----
  // Every loop of the engine appends one short list per iteration to moves. These lemmas
  // say that the list appended by the next iteration extends the phase's function on
  // positions by one more slot, square or direction.

  lemma PiecesGrow(o: seq<Move>, P: Position, pos: int, colour: int, i: int)
    requires WellFormed(P) && IsSquare(pos) && IsEmpty(P, pos) && IsColour(colour) && KNIGHT1 <= i < 16
    ensures o + PieceMovesTo(P, pos, colour, i) + PieceMoveBy(P, pos, colour, i)
      == o + PieceMovesTo(P, pos, colour, i + 1)
  {
  }

  lemma PromotedGrow(o: seq<Move>, P: Position, pos: int, colour: int, i: int)
    requires WellFormed(P) && IsSquare(pos) && IsEmpty(P, pos) && IsColour(colour) && 0 <= i < 8
    ensures o + PromotedMovesTo(P, pos, colour, i) + PromotedMoveBy(P, pos, colour, i)
      == o + PromotedMovesTo(P, pos, colour, i + 1)
  {
  }

  /** The king loops run from direction 7 down to 0. */
  lemma KingTakesGrow(o: seq<Move>, P: Position, kingPos: int, dir: int)
    requires WellFormed(P) && IsSquare(kingPos) && !IsEmpty(P, kingPos) && Piece(P, kingPos) == KING
    requires 0 <= dir < 8
    ensures o + KingTakes(P, kingPos, dir + 1) + KingTakeTo(P, kingPos, dir) == o + KingTakes(P, kingPos, dir)
  {
  }

  lemma KingStepsGrow(o: seq<Move>, P: Position, kingPos: int, dir: int)
    requires WellFormed(P) && IsSquare(kingPos) && !IsEmpty(P, kingPos) && Piece(P, kingPos) == KING
    requires 0 <= dir < 8
    ensures o + KingSteps(P, kingPos, dir + 1) + KingStepTo(P, kingPos, dir) == o + KingSteps(P, kingPos, dir)
  {
  }

  lemma CheckerCapturesGrow(o: seq<Move>, P: Position, turn: int, a: int, i: int)
    requires WellFormed(P) && IsColour(turn) && IsSquare(a) && 0 <= i < 15
    ensures o + CheckerCaptures(P, turn, a, i) + CheckerCaptureBy(P, turn, a, i)
      == o + CheckerCaptures(P, turn, a, i + 1)
  {
  }

  lemma PawnBlocksGrow(o: seq<Move>, P: Position, turn: int, pos: int, i: int)
    requires WellFormed(P) && IsColour(turn) && IsSquare(pos) && IsEmpty(P, pos) && 0 <= i < 8
    ensures o + PawnBlocks(P, turn, pos, i) + PawnBlockBy(P, turn, pos, i) == o + PawnBlocks(P, turn, pos, i + 1)
  {
  }

  lemma ShieldsGrow(o: seq<Move>, P: Position, turn: int, line: seq<int>, i: int)
    requires WellFormed(P) && IsColour(turn) && EmptySquares(P, line) && 0 <= i < |line|
    ensures o + Shields(P, turn, line, i) + BlocksTo(P, turn, line[i]) == o + Shields(P, turn, line, i + 1)
  {
  }

  lemma EnPassantGrow(o: seq<Move>, P: Position, turn: int, last: Move, i: int)
    requires WellFormed(P) && IsColour(turn) && LastOk(P, last) && IsDoubleStep(P, last) && 0 <= i < 8
    ensures o + EnPassantMoves(P, turn, last, i) + EnPassantBy(P, turn, last, i)
      == o + EnPassantMoves(P, turn, last, i + 1)
  {
  }

  /** The capture loop runs from the queen's slot down to PAWN1. */
  lemma CapturesGrow(o: seq<Move>, P: Position, turn: int, lo: int)
    requires WellFormed(P) && IsColour(turn) && 0 <= lo < 15
    ensures o + Captures(P, turn, lo + 1) + CapturesOf(P, turn, lo) == o + Captures(P, turn, lo)
  {
  }

  lemma PromotionsGrow(o: seq<Move>, P: Position, turn: int, i: int)
    requires WellFormed(P) && IsColour(turn) && 0 <= i < 8
    ensures o + Promotions(P, turn, i) + PromotionBy(P, turn, i) == o + Promotions(P, turn, i + 1)
  {
  }

  lemma ChainGrow(o: seq<Move>, P: Position, turn: int, chain: seq<int>, k: int)
    requires WellFormed(P) && IsColour(turn) && AllSquares(chain) && 0 <= k < |chain|
    ensures o + ChainMoves(P, turn, chain, k) + ChainAt(P, turn, chain, k) == o + ChainMoves(P, turn, chain, k + 1)
  {
  }

  lemma PromotedChainGrow(o: seq<Move>, P: Position, turn: int, chain: seq<int>, k: int)
    requires WellFormed(P) && IsColour(turn) && AllSquares(chain) && 0 <= k < |chain|
    ensures o + PromotedChainMoves(P, turn, chain, k) + PromotedChainAt(P, turn, chain, k)
      == o + PromotedChainMoves(P, turn, chain, k + 1)
  {
  }

  /** The pawn-push loop runs from PAWN8 down to PAWN1. */
  lemma PushesGrow(o: seq<Move>, P: Position, turn: int, lo: int)
    requires WellFormed(P) && IsColour(turn) && 0 <= lo < 8
    ensures o + PawnPushes(P, turn, lo + 1) + PushesBy(P, turn, lo) == o + PawnPushes(P, turn, lo)
  {
  }

  lemma AppendThree(o: seq<Move>, a: seq<Move>, b: seq<Move>, c: seq<Move>)
    ensures o + a + b + c == o + (a + b + c)
  {
  }

  lemma AppendTwo(o: seq<Move>, a: seq<Move>, b: seq<Move>)
    ensures o + a + b == o + (a + b)
  {
  }

  lemma AppendPairs(o: seq<Move>, a: seq<Move>, b: seq<Move>, c: seq<Move>, d: seq<Move>)
    ensures o + (a + b) + (c + d) == o + (a + b + c + d)
  {
  }

  lemma AppendFour(o: seq<Move>, a: seq<Move>, b: seq<Move>, c: seq<Move>, d: seq<Move>)
    ensures o + a + b + c + d == o + (a + b + (c + d))
  {
  }

  /** The single-check list is the four phases appended one after the other. */
  lemma SingleCheckPhasesAppend(P: Position, turn: int, a: int, kingPos: int, o: seq<Move>)
    requires WellFormed(P) && IsColour(turn) && Alive(P, turn + KING1) && kingPos == P.location[turn + KING1]
    requires IsSquare(kingPos) && !IsEmpty(P, kingPos) && Piece(P, kingPos) == KING
    requires IsSquare(a) && !IsEmpty(P, a) && Colour(P, a) == Adverse(turn) && Piece(P, a) != KING
    requires CanTake(P, a, kingPos)
    ensures o + CheckerCaptures(P, turn, a, 15) + KingTakes(P, kingPos, 0)
        + Interpositions(P, turn, a) + KingSteps(P, kingPos, 0)
      == o + SingleCheckEvasions(P, turn, a)
  {
    SingleCheckParts(P, turn, a);
    AppendFour(o, CheckerCaptures(P, turn, a, 15), KingTakes(P, kingPos, 0),
               Interpositions(P, turn, a), KingSteps(P, kingPos, 0));
  }

  /** The normal list is its seven phases appended one after the other. */
  lemma NormalPhasesAppend(P: Position, turn: int, last: Move, o: seq<Move>)
    requires WellFormed(P) && IsColour(turn) && LastOk(P, last) && ChainTable(NextLocation, Order)
    ensures o + (EnPassant(P, turn, last) + Captures(P, turn, 0) + Promotions(P, turn, 8) + Castling(P, turn))
        + (ChainMoves(P, turn, Order, 64) + PromotedChainMoves(P, turn, Order, 64) + PawnPushes(P, turn, 0))
      == o + NormalMoves(P, turn, last)
  {
    var e, c, p, k := EnPassant(P, turn, last), Captures(P, turn, 0), Promotions(P, turn, 8), Castling(P, turn);
    var q, pq, w := ChainMoves(P, turn, Order, 64), PromotedChainMoves(P, turn, Order, 64), PawnPushes(P, turn, 0);
    assert NormalMoves(P, turn, last) == e + c + p + k + q + pq + w;
    AppendSeven(o, e, c, p, k, q, pq, w);
  }

  lemma AppendSeven(o: seq<Move>, e: seq<Move>, c: seq<Move>, p: seq<Move>, k: seq<Move>,
                    q: seq<Move>, pq: seq<Move>, w: seq<Move>)
    ensures o + (e + c + p + k) + (q + pq + w) == o + (e + c + p + k + q + pq + w)
  {
  }

  class Engine {
    const board: array<int>
    const location: array<int>
    const types: array<int>
    var moves: seq<Move>

    /** The three tables have their C sizes and are distinct arrays. */
    ghost predicate Valid()
      reads this
    {
      && board.Length == 64 && location.Length == 32 && types.Length == 32
      && board != location && board != types && location != types
    }

    /** The position the tables hold. */
    function Pos(): Position
      reads board, location, types
    {
      Position(board[..], location[..], types[..])
    }

    /** The static tables of book_decoder.c followed by init_board. */
    constructor ()
      ensures Valid() && Pos() == Initial() && moves == []
    {
      board := new int[64];
      location := new int[32](s requires 0 <= s < 32 => InitialLocation[s]);
      types := new int[32](s requires 0 <= s < 32 => InitialTypes[s]);
      moves := [];
      new;
      assert location[..] == InitialLocation;
      forall s | 0 <= s < 32
        ensures IsSquare(location[s])
      {
        InitialSlot(s);
      }
      forall s, t | 0 <= s < t < 32
        ensures location[s] != location[t]
      {
        InitialSlot(s);
        InitialSlot(t);
      }
      InitBoard();
      forall sq | 0 <= sq < 64
        ensures board[sq] == InitialBoard[sq]
      {
        InitialSquare(sq);
        if board[sq] != EMPTY {
          InitialSlot(board[sq]);
        }
      }
      assert board[..] == InitialBoard;
    }

    /** init_board: every square emptied, then each piece put on its square. */
    method InitBoard()
      requires Valid()
      requires forall s :: 0 <= s < 32 ==> 0 <= location[s] < 64
      requires forall s, t :: 0 <= s < t < 32 ==> location[s] != location[t]
      modifies board
      ensures forall s :: 0 <= s < 32 ==> board[location[s]] == s
      ensures forall sq :: 0 <= sq < 64 && board[sq] != EMPTY ==>
        0 <= board[sq] < 32 && location[board[sq]] == sq
    {
      for pos := 0 to 64
        invariant forall sq :: 0 <= sq < pos ==> board[sq] == EMPTY
      {
        board[pos] := EMPTY;
      }
      for piece := 0 to 32
        invariant forall s :: 0 <= s < piece ==> board[location[s]] == s
        invariant forall sq :: 0 <= sq < 64 && board[sq] != EMPTY ==>
          0 <= board[sq] < piece && location[board[sq]] == sq
      {
        board[location[piece]] := piece;
      }
    }

    /** verify_board: true exactly when the two tables agree both ways (where the source
        prints BOARD ERROR and exits, this returns false). */
    method VerifyBoard() returns (ok: bool)
      requires Valid() && Shaped(Pos())
      ensures ok == Consistent(Pos())
    {
      for i := 0 to 32
        invariant forall s :: 0 <= s < i && location[s] != EMPTY ==> board[location[s]] == s
      {
        var pos := location[i];
        if pos != EMPTY && board[pos] != i {
          assert Pos().location[i] == pos;
          return false;
        }
      }
      for pos := 0 to 64
        invariant forall sq :: 0 <= sq < pos && board[sq] != EMPTY ==> location[board[sq]] == sq
      {
        if board[pos] != EMPTY && location[board[pos]] != pos {
          assert Pos().board[pos] == board[pos];
          return false;
        }
      }
      return true;
    }

    /** register_move: appends one move. */
    method RegisterMove(from: int, to: int)
      requires Valid() && 0 <= from < 64 && board[from] != EMPTY
      modifies this
      ensures moves == old(moves) + [Move(from, to)]
    {
      moves := moves + [Move(from, to)];
    }

    /** is_threaten: some live piece of colour `attacker` can take on pos. */
    method IsThreaten(pos: int, attacker: int) returns (r: bool)
      requires Valid() && WellFormed(Pos()) && IsSquare(pos) && IsColour(attacker)
      ensures r == Threatened(Pos(), pos, attacker)
    {
      WellFormedLiveOccupied(Pos());
      for i := 0 to 16
        invariant !Threatens(Pos(), pos, attacker, i)
      {
        var from := location[attacker + i];
        if from != EMPTY && CanTake(Pos(), from, pos) {
          ThreatensGrows(Pos(), pos, attacker, i + 1);
          return true;
        }
      }
      return false;
    }

    /** is_protected: writes an enemy piece onto pos, asks whether pieces of `colour`
        could take it, and writes back the square's old contents. */
    method IsProtected(pos: int, colour: int) returns (r: bool)
      requires Valid() && WellFormed(Pos()) && IsSquare(pos) && IsColour(colour)
      modifies board
      ensures board[..] == old(board[..])
      ensures r == Protected(old(Pos()), pos, colour)
    {
      ghost var P := Pos();
      WellFormedLiveOccupied(P);
      var protected := false;
      var save := board[pos];
      board[pos] := Adverse(colour);
      ghost var Q := PretendTarget(P, pos, colour);
      assert Pos() == Q;
      for i := 0 to 16
        invariant Pos() == Q
        invariant protected == Threatens(Q, pos, colour, i)
      {
        var from := location[colour + i];
        if from != EMPTY && CanTake(Pos(), from, pos) {
          protected := true;
        }
      }
      board[pos] := save;
      assert board[..] == P.board;
      r := protected;
    }

    /** find_king_attacker: the square of the first enemy piece other than the king that
        can take the king (None where the source reaches assert(false)). */
    method FindKingAttacker(kingColour: int) returns (r: Option<int>)
      requires Valid() && WellFormed(Pos()) && IsColour(kingColour) && Alive(Pos(), kingColour + KING1)
      ensures r == FindAttackerFrom(Pos(), location[kingColour + KING1], Adverse(kingColour), 0)
    {
      ghost var P := Pos();
      var attacker := Adverse(kingColour);
      var kingPos := location[kingColour + 15];
      LiveSlotFacts(P, kingColour + KING1);
      for i := 0 to 15
        invariant FindAttackerFrom(P, kingPos, attacker, 0) == FindAttackerFrom(P, kingPos, attacker, i)
      {
        var from := location[attacker + i];
        if from != EMPTY && CanTake(Pos(), from, kingPos) {
          return Some(from);
        }
      }
      return None;
    }

    /** try_to_take: each piece of the other colour that can take on pos registers the
        capture, a pawn reaching the last rank three more times (the underpromotions). */
    method TryToTake(pos: int)
      requires Valid() && WellFormed(Pos()) && IsSquare(pos) && !IsEmpty(Pos(), pos)
      modifies this
      ensures moves == old(moves) + TakeMoves(Pos(), pos, KING1 + 1)
    {
      ghost var P := Pos();
      var defender := Colour(Pos(), pos);
      var attacker := Adverse(defender);
      for i := PAWN1 to KING1 + 1
        invariant moves == old(moves) + TakeMoves(P, pos, i)
      {
        TakeStep(pos, attacker, i);
      }
    }

    /** One iteration of try_to_take's loop, for slot attacker + i. */
    method TakeStep(pos: int, attacker: int, i: int)
      requires Valid() && WellFormed(Pos()) && IsSquare(pos) && IsColour(attacker) && 0 <= i < 16
      modifies this
      ensures moves == old(moves) + TakeBy(Pos(), pos, attacker, i)
    {
      var from := location[attacker + i];
      if from != EMPTY {
        LiveSlotFacts(Pos(), attacker + i);
        if CanTake(Pos(), from, pos) {
          RegisterMove(from, pos);
          if Piece(Pos(), from) == PAWN
            && ((attacker == WHITE && pos >= 56) || (attacker == BLACK && pos < 8))
          {
            for j := 0 to 3
              invariant moves == old(moves) + Repeat(Move(from, pos), j + 1)
            {
              RegisterMove(from, pos);
            }
          }
        }
      }
    }

    /** The loop of try_to_move_a_piece_to over slots colour + KNIGHT1 .. colour + n - 1;
        search_moves_under_check runs the same loop without the king. */
    method PiecesTo(pos: int, colour: int, n: int)
      requires Valid() && WellFormed(Pos()) && IsSquare(pos) && IsEmpty(Pos(), pos) && IsColour(colour)
      requires KNIGHT1 <= n <= KING1 + 1
      modifies this
      ensures moves == old(moves) + PieceMovesTo(old(Pos()), pos, colour, n)
    {
      ghost var P := Pos();
      for i := KNIGHT1 to n
        invariant moves == old(moves) + PieceMovesTo(P, pos, colour, i)
      {
        PieceStep(pos, colour, i, P);
        PiecesGrow(old(moves), P, pos, colour, i);
      }
    }

    /** One iteration of that loop, for slot colour + i. */
    method PieceStep(pos: int, colour: int, i: int, ghost P: Position)
      requires Valid() && Pos() == P && WellFormed(P) && IsSquare(pos) && IsEmpty(P, pos) && IsColour(colour)
      requires 0 <= i < 16
      modifies this
      ensures moves == old(moves) + PieceMoveBy(P, pos, colour, i)
    {
      var from := location[colour + i];
      if from != EMPTY {
        LiveSlotFacts(P, colour + i);
        if CanMove(Pos(), from, pos) {
          RegisterMove(from, pos);
        }
      }
    }

    /** try_to_move_a_piece_to: knights, bishops, rooks, queen and king that can move to pos. */
    method TryToMoveAPieceTo(pos: int, colour: int)
      requires Valid() && WellFormed(Pos()) && IsSquare(pos) && IsEmpty(Pos(), pos) && IsColour(colour)
      modifies this
      ensures moves == old(moves) + PieceMovesTo(Pos(), pos, colour, KING1 + 1)
    {
      PiecesTo(pos, colour, KING1 + 1);
    }

    /** try_to_move_a_promoted_piece_to: pawn slots whose type is no longer PAWN. */
    method TryToMoveAPromotedPieceTo(pos: int, colour: int)
      requires Valid() && WellFormed(Pos()) && IsSquare(pos) && IsEmpty(Pos(), pos) && IsColour(colour)
      modifies this
      ensures moves == old(moves) + PromotedMovesTo(old(Pos()), pos, colour, PAWN8 + 1)
    {
      ghost var P := Pos();
      for i := PAWN1 to PAWN8 + 1
        invariant moves == old(moves) + PromotedMovesTo(P, pos, colour, i)
      {
        PromotedStep(pos, colour, i, P);
        PromotedGrow(old(moves), P, pos, colour, i);
      }
    }

    /** One iteration of that loop, for pawn slot colour + i. */
    method PromotedStep(pos: int, colour: int, i: int, ghost P: Position)
      requires Valid() && Pos() == P && WellFormed(P) && IsSquare(pos) && IsEmpty(P, pos) && IsColour(colour)
      requires 0 <= i < 8
      modifies this
      ensures moves == old(moves) + PromotedMoveBy(P, pos, colour, i)
    {
      var from := location[colour + i];
      if from != EMPTY {
        LiveSlotFacts(P, colour + i);
        if Piece(Pos(), from) != PAWN && CanMove(Pos(), from, pos) {
          RegisterMove(from, pos);
        }
      }
    }

    /** try_king_take: directions 7 down to 0, captures of enemy pieces no enemy protects. */
    method TryKingTake(kingPos: int)
      requires Valid() && WellFormed(Pos()) && IsSquare(kingPos) && !IsEmpty(Pos(), kingPos)
      requires Piece(Pos(), kingPos) == KING
      modifies this, board
      ensures board[..] == old(board[..])
      ensures moves == old(moves) + KingTakes(old(Pos()), kingPos, 0)
    {
      ghost var P := Pos();
      var dir := 7;
      ghost var done := 8;
      while dir >= 0
        invariant 0 <= done <= 8 && dir == done - 1
        invariant board[..] == P.board
        invariant moves == old(moves) + KingTakes(P, kingPos, done)
      {
        KingTakeStep(kingPos, dir, P);
        KingTakesGrow(old(moves), P, kingPos, dir);
        dir := dir - 1;
        done := done - 1;
      }
      assert done == 0;
    }

    /** One direction of try_king_take. */
    method KingTakeStep(kingPos: int, dir: int, ghost P: Position)
      requires Valid() && board[..] == P.board && Pos() == P && WellFormed(P)
      requires IsSquare(kingPos) && !IsEmpty(P, kingPos) && Piece(P, kingPos) == KING && 0 <= dir < 8
      modifies this, board
      ensures board[..] == P.board
      ensures moves == old(moves) + KingTakeTo(P, kingPos, dir)
    {
      var turn := Colour(Pos(), kingPos);
      var opponent := Adverse(turn);
      var x, y := kingPos % 8, kingPos / 8;
      var x2, y2 := x + KingDX[dir], y + KingDY[dir];
      if !(x2 < 0 || x2 > 7 || y2 < 0 || y2 > 7) {
        var kingTo := x2 + y2 * 8;
        if !(board[kingTo] == EMPTY || SameColour(Pos(), kingPos, kingTo)) {
          var protected := IsProtected(kingTo, opponent);
          if !protected {
            RegisterMove(kingPos, kingTo);
          }
        }
      }
    }

    /** try_king_move: directions 7 down to 0, steps to empty squares no enemy attacks. */
    method TryKingMove(kingPos: int)
      requires Valid() && WellFormed(Pos()) && IsSquare(kingPos) && !IsEmpty(Pos(), kingPos)
      requires Piece(Pos(), kingPos) == KING
      modifies this
      ensures moves == old(moves) + KingSteps(old(Pos()), kingPos, 0)
    {
      ghost var P := Pos();
      var dir := 7;
      ghost var done := 8;
      while dir >= 0
        invariant 0 <= done <= 8 && dir == done - 1
        invariant moves == old(moves) + KingSteps(P, kingPos, done)
      {
        KingMoveStep(kingPos, dir, P);
        KingStepsGrow(old(moves), P, kingPos, dir);
        dir := dir - 1;
        done := done - 1;
      }
      assert done == 0;
    }

    /** One direction of try_king_move. */
    method KingMoveStep(kingPos: int, dir: int, ghost P: Position)
      requires Valid() && Pos() == P && WellFormed(P) && IsSquare(kingPos) && !IsEmpty(P, kingPos)
      requires Piece(P, kingPos) == KING && 0 <= dir < 8
      modifies this
      ensures moves == old(moves) + KingStepTo(P, kingPos, dir)
    {
      var turn := Colour(Pos(), kingPos);
      var opponent := Adverse(turn);
      var x, y := kingPos % 8, kingPos / 8;
      var x2, y2 := x + KingDX[dir], y + KingDY[dir];
      if !(x2 < 0 || x2 > 7 || y2 < 0 || y2 > 7) {
        var kingTo := x2 + y2 * 8;
        if board[kingTo] == EMPTY {
          var threatened := IsThreaten(kingTo, opponent);
          if !threatened {
            RegisterMove(kingPos, kingTo);
          }
        }
      }
    }
  
    // ----- search_moves_under_check -----

    /** The first loop of search_moves_under_check: the live enemy pieces other than the
        king that can take on kingPos. */
    method CountChecks(kingPos: int, attacker: int) returns (n: int)
      requires Valid() && WellFormed(Pos()) && IsSquare(kingPos) && IsColour(attacker)
      ensures n == CountCheckers(Pos(), kingPos, attacker, QUEEN1 + 1)
    {
      n := 0;
      for i := PAWN1 to QUEEN1 + 1
        invariant n == CountCheckers(Pos(), kingPos, attacker, i)
      {
        var from := location[attacker + i];
        if from != EMPTY {
          LiveSlotFacts(Pos(), attacker + i);
          if CanTake(Pos(), from, kingPos) {
            n := n + 1;
          }
        }
      }
    }

    /** The second loop: every piece of `turn` other than the king that can take the
        checker on a registers the capture. */
    method CaptureChecker(turn: int, a: int)
      requires Valid() && WellFormed(Pos()) && IsColour(turn) && IsSquare(a)
      modifies this
      ensures moves == old(moves) + CheckerCaptures(old(Pos()), turn, a, QUEEN1 + 1)
    {
      ghost var P := Pos();
      for i := PAWN1 to QUEEN1 + 1
        invariant moves == old(moves) + CheckerCaptures(P, turn, a, i)
      {
        CheckerCaptureStep(turn, a, i, P);
        CheckerCapturesGrow(old(moves), P, turn, a, i);
      }
    }

    /** One iteration of that loop, for slot turn + i. */
    method CheckerCaptureStep(turn: int, a: int, i: int, ghost P: Position)
      requires Valid() && Pos() == P && WellFormed(P) && IsColour(turn) && IsSquare(a) && 0 <= i < 15
      modifies this
      ensures moves == old(moves) + CheckerCaptureBy(P, turn, a, i)
    {
      var from := location[turn + i];
      if from != EMPTY {
        LiveSlotFacts(P, turn + i);
        if CanTake(Pos(), from, a) {
          RegisterMove(from, a);
        }
      }
    }

    /** The pawn loop of an interposition on pos: a single step, then a double step. */
    method PawnBlocksTo(pos: int, turn: int)
      requires Valid() && WellFormed(Pos()) && IsSquare(pos) && IsEmpty(Pos(), pos) && IsColour(turn)
      modifies this
      ensures moves == old(moves) + PawnBlocks(old(Pos()), turn, pos, PAWN8 + 1)
    {
      ghost var P := Pos();
      for i := PAWN1 to PAWN8 + 1
        invariant moves == old(moves) + PawnBlocks(P, turn, pos, i)
      {
        PawnBlockStep(pos, turn, i, P);
        PawnBlocksGrow(old(moves), P, turn, pos, i);
      }
    }

    /** One iteration of that loop, for pawn slot turn + i. */
    method PawnBlockStep(pos: int, turn: int, i: int, ghost P: Position)
      requires Valid() && Pos() == P && WellFormed(P) && IsSquare(pos) && IsEmpty(P, pos) && IsColour(turn)
      requires 0 <= i < 8
      modifies this
      ensures moves == old(moves) + PawnBlockBy(P, turn, pos, i)
    {
      var from := location[turn + i];
      if from != EMPTY && types[turn + i] == PAWN {
        LiveSlotFacts(P, turn + i);
        if IsPawnMove(Pos(), from, pos) {
          RegisterMove(from, pos);
        }
        if IsPawnEntry(Pos(), from, pos) {
          RegisterMove(from, pos);
        }
      }
    }

    /** The three inner loops for one shield square: knights to queen, promoted pawns, pawns. */
    method BlockOn(pos: int, turn: int, ghost P: Position)
      requires Valid() && Pos() == P && WellFormed(P) && IsSquare(pos) && IsEmpty(P, pos) && IsColour(turn)
      modifies this
      ensures moves == old(moves) + BlocksTo(P, turn, pos)
    {
      PiecesTo(pos, turn, QUEEN1 + 1);
      TryToMoveAPromotedPieceTo(pos, turn);
      PawnBlocksTo(pos, turn);
      AppendThree(old(moves), PieceMovesTo(P, pos, turn, 15), PromotedMovesTo(P, pos, turn, 8),
                  PawnBlocks(P, turn, pos, 8));
    }

    /** The shield loop: from a + step up to the king, the blocks on each square. */
    method Interpose(turn: int, a: int, kingPos: int)
      requires Valid() && WellFormed(Pos()) && IsColour(turn) && OpenLine(Pos(), a, kingPos)
      requires !IsEmpty(Pos(), kingPos)
      modifies this
      ensures moves == old(moves) + Shields(old(Pos()), turn, LineSquares(a, kingPos), |LineSquares(a, kingPos)|)
    {
      LineSteps(Pos(), a, kingPos);
      var x1, y1 := a % 8, a / 8;
      var x2, y2 := kingPos % 8, kingPos / 8;
      var step := Sgn(x2 - x1) + Sgn(y2 - y1) * 8;
      WalkLine(turn, a + step, step, kingPos, LineSquares(a, kingPos), Pos());
    }

    /** The walk of the shield loop over the squares of line, which are step apart and
        end one step before the king. */
    method WalkLine(turn: int, start: int, step: int, kingPos: int, ghost line: seq<int>, ghost P: Position)
      requires Valid() && Pos() == P && WellFormed(P) && IsColour(turn) && EmptySquares(P, line)
      requires IsSquare(kingPos) && !IsEmpty(P, kingPos)
      requires if |line| == 0 then kingPos == start else line[0] == start && kingPos == line[|line| - 1] + step
      requires forall j :: 0 <= j < |line| - 1 ==> line[j + 1] == line[j] + step
      modifies this
      ensures moves == old(moves) + Shields(P, turn, line, |line|)
    {
      var shieldPos := start;
      ghost var i := 0;
      while shieldPos != kingPos
        invariant 0 <= i <= |line| && shieldPos == (if i < |line| then line[i] else kingPos)
        invariant moves == old(moves) + Shields(P, turn, line, i)
        decreases |line| - i
      {
        BlockOn(shieldPos, turn, P);
        ShieldsGrow(old(moves), P, turn, line, i);
        shieldPos := shieldPos + step;
        i := i + 1;
      }
    }

    /** search_moves_under_check: a double check lets only the king take and step; a single
        check is answered by capturing the checker, the king's captures, interpositions
        when the checker slides, then the king's steps. No checker found is the source's
        assert(false), reported as NoChecker. */
    method SearchMovesUnderCheck(turn: int) returns (r: Option<GenError>)
      requires Valid() && WellFormed(Pos()) && IsColour(turn) && Alive(Pos(), turn + KING1)
      modifies this, board
      ensures board[..] == old(board[..])
      ensures r.None? <==> Evasions(old(Pos()), turn).Ok?
      ensures r.None? ==> moves == old(moves) + Evasions(old(Pos()), turn).value
      ensures r.Some? ==> r.value == Evasions(old(Pos()), turn).error
    {
      ghost var P := Pos();
      LiveSlotFacts(P, turn + KING1);
      var kingPos := location[turn + KING1];
      var attacker := Adverse(turn);
      var nbChecks := CountChecks(kingPos, attacker);
      if nbChecks > 1 {
        assert Evasions(P, turn) == Ok(DoubleCheckEvasions(P, turn));
        EvadeDoubleCheck(turn, kingPos, P);
        return None;
      }
      var found := FindKingAttacker(turn);
      if found.None? {
        assert Evasions(P, turn) == Err(NoChecker);
        return Some(NoChecker);
      }
      assert Evasions(P, turn) == Ok(SingleCheckEvasions(P, turn, found.value));
      EvadeSingleCheck(turn, found.value, kingPos, P);
      return None;
    }

    /** The double-check branch: the king's captures, then its steps. */
    method EvadeDoubleCheck(turn: int, kingPos: int, ghost P: Position)
      requires Valid() && Pos() == P && WellFormed(P) && IsColour(turn) && Alive(P, turn + KING1)
      requires kingPos == P.location[turn + KING1]
      modifies this, board
      ensures board[..] == old(board[..])
      ensures moves == old(moves) + DoubleCheckEvasions(P, turn)
    {
      LiveSlotFacts(P, turn + KING1);
      TryKingTake(kingPos);
      assert Pos() == P;
      TryKingMove(kingPos);
      AppendTwo(old(moves), KingTakes(P, kingPos, 0), KingSteps(P, kingPos, 0));
    }

    /** The single-check branch against the checker on attackerPos. */
    method EvadeSingleCheck(turn: int, attackerPos: int, kingPos: int, ghost P: Position)
      requires Valid() && Pos() == P && WellFormed(P) && IsColour(turn) && Alive(P, turn + KING1)
      requires kingPos == P.location[turn + KING1]
      requires IsSquare(attackerPos) && !IsEmpty(P, attackerPos) && Colour(P, attackerPos) == Adverse(turn)
      requires Piece(P, attackerPos) != KING && CanTake(P, attackerPos, kingPos)
      modifies this, board
      ensures board[..] == old(board[..])
      ensures moves == old(moves) + SingleCheckEvasions(P, turn, attackerPos)
    {
      LiveSlotFacts(P, turn + KING1);
      CaptureOrTake(turn, attackerPos, kingPos, P);
      assert Pos() == P;
      BlockOrStep(turn, attackerPos, kingPos, P);
      SingleCheckPhasesAppend(P, turn, attackerPos, kingPos, old(moves));
    }

    /** The first two phases of a single check: captures of the checker, then the king's. */
    method CaptureOrTake(turn: int, attackerPos: int, kingPos: int, ghost P: Position)
      requires Valid() && Pos() == P && WellFormed(P) && IsColour(turn)
      requires IsSquare(kingPos) && !IsEmpty(P, kingPos) && Piece(P, kingPos) == KING && IsSquare(attackerPos)
      modifies this, board
      ensures board[..] == old(board[..])
      ensures moves == old(moves) + CheckerCaptures(P, turn, attackerPos, 15) + KingTakes(P, kingPos, 0)
    {
      CaptureChecker(turn, attackerPos);
      assert Pos() == P;
      TryKingTake(kingPos);
    }

    /** The last two phases of a single check: interpositions, then the king's steps. */
    method BlockOrStep(turn: int, attackerPos: int, kingPos: int, ghost P: Position)
      requires Valid() && Pos() == P && WellFormed(P) && IsColour(turn) && Alive(P, turn + KING1)
      requires kingPos == P.location[turn + KING1]
      requires IsSquare(kingPos) && !IsEmpty(P, kingPos) && Piece(P, kingPos) == KING
      requires IsSquare(attackerPos) && !IsEmpty(P, attackerPos) && Colour(P, attackerPos) == Adverse(turn)
      requires Piece(P, attackerPos) != KING && CanTake(P, attackerPos, kingPos)
      modifies this
      ensures moves == old(moves) + Interpositions(P, turn, attackerPos) + KingSteps(P, kingPos, 0)
    {
      InterposeAgainst(turn, attackerPos, kingPos, P);
      assert Pos() == P;
      TryKingMove(kingPos);
    }

    /** The interpositions, tried only when the checker is neither a pawn nor a knight. */
    method InterposeAgainst(turn: int, attackerPos: int, kingPos: int, ghost P: Position)
      requires Valid() && Pos() == P && WellFormed(P) && IsColour(turn) && Alive(P, turn + KING1)
      requires kingPos == P.location[turn + KING1]
      requires IsSquare(attackerPos) && !IsEmpty(P, attackerPos) && Colour(P, attackerPos) == Adverse(turn)
      requires Piece(P, attackerPos) != KING && CanTake(P, attackerPos, kingPos)
      modifies this
      ensures moves == old(moves) + Interpositions(P, turn, attackerPos)
    {
      InterpositionsLine(P, turn, attackerPos);
      if Piece(Pos(), attackerPos) != PAWN && Piece(Pos(), attackerPos) != KNIGHT {
        Interpose(turn, attackerPos, kingPos);
      } else {
        assert moves == old(moves) + [];
      }
    }

    // ----- search_moves -----

    /** search_moves: the list is emptied; a missing king is KingMissing (the source reads
        outside its tables); a king in check gets the evasions; otherwise the seven
        normal phases. The tables are left as they were. */
    method SearchMoves(turn: int, last: Move) returns (r: Option<GenError>)
      requires Valid() && WellFormed(Pos()) && IsColour(turn) && LastOk(Pos(), last)
      modifies this, board, location
      ensures Pos() == old(Pos())
      ensures r.None? <==> Generate(old(Pos()), turn, last).Ok?
      ensures r.None? ==> moves == Generate(old(Pos()), turn, last).value
      ensures r.Some? ==> r.value == Generate(old(Pos()), turn, last).error
    {
      ghost var P := Pos();
      var ok := VerifyBoard();
      if !ok {
        assert false;
      }
      moves := [];
      if location[turn + KING1] == EMPTY {
        return Some(KingMissing);
      }
      LiveSlotFacts(P, turn + KING1);
      var check := IsThreaten(location[turn + KING1], Adverse(turn));
      if check {
        r := SearchMovesUnderCheck(turn);
        assert Generate(P, turn, last) == Evasions(P, turn);
        assert location[..] == P.location;
        return;
      }
      assert Generate(P, turn, last) == Ok(NormalMoves(P, turn, last));
      NormalPhases(turn, last, P);
      return None;
    }

    /** The phases of search_moves when the king is not in check. */
    method NormalPhases(turn: int, last: Move, ghost P: Position)
      requires Valid() && Pos() == P && WellFormed(P) && IsColour(turn) && LastOk(P, last)
      modifies this, board, location
      ensures Pos() == P
      ensures moves == old(moves) + NormalMoves(P, turn, last)
    {
      EarlyPhases(turn, last, P);
      NextLocationFollowsOrder();
      LatePhases(turn, P);
      NormalPhasesAppend(P, turn, last, old(moves));
    }

    /** En passant, captures, promotions and castling. */
    method EarlyPhases(turn: int, last: Move, ghost P: Position)
      requires Valid() && Pos() == P && WellFormed(P) && IsColour(turn) && LastOk(P, last)
      modifies this, board, location
      ensures Pos() == P
      ensures moves == old(moves)
        + (EnPassant(P, turn, last) + Captures(P, turn, 0) + Promotions(P, turn, 8) + Castling(P, turn))
    {
      PassOrTake(turn, last, P);
      assert Pos() == P;
      PromoteOrCastle(turn, P);
      AppendPairs(old(moves), EnPassant(P, turn, last), Captures(P, turn, 0),
                  Promotions(P, turn, 8), Castling(P, turn));
    }

    /** En passant, then the captures. */
    method PassOrTake(turn: int, last: Move, ghost P: Position)
      requires Valid() && Pos() == P && WellFormed(P) && IsColour(turn) && LastOk(P, last)
      modifies this, board, location
      ensures Pos() == P
      ensures moves == old(moves) + (EnPassant(P, turn, last) + Captures(P, turn, 0))
    {
      TryEnPassant(turn, last);
      assert Pos() == P;
      TakeMaterial(turn);
      AppendTwo(old(moves), EnPassant(P, turn, last), Captures(P, turn, 0));
    }

    /** The promotions, then castling. */
    method PromoteOrCastle(turn: int, ghost P: Position)
      requires Valid() && Pos() == P && WellFormed(P) && IsColour(turn)
      modifies this
      ensures moves == old(moves) + (Promotions(P, turn, 8) + Castling(P, turn))
    {
      PromotePawns(turn);
      assert Pos() == P;
      TryCastling(turn);
      AppendTwo(old(moves), Promotions(P, turn, 8), Castling(P, turn));
    }

    /** The two walks of the next_location chain, then the pawn pushes. */
    method LatePhases(turn: int, ghost P: Position)
      requires Valid() && Pos() == P && WellFormed(P) && IsColour(turn) && ChainTable(NextLocation, Order)
      modifies this
      ensures moves == old(moves)
        + (ChainMoves(P, turn, Order, 64) + PromotedChainMoves(P, turn, Order, 64) + PawnPushes(P, turn, 0))
    {
      WalkChain(turn, NextLocation, ChainStart, Order, P);
      WalkPromotedChain(turn, NextLocation, ChainStart, Order, P);
      PushPawns(turn, P);
      AppendThree(old(moves), ChainMoves(P, turn, Order, 64), PromotedChainMoves(P, turn, Order, 64),
                  PawnPushes(P, turn, 0));
    }

    /** The en-passant block: after a pawn's double step the pawn is written one square
        back, the pawns that can take it there register the capture, and the pawn is put
        back where it stands. */
    method TryEnPassant(turn: int, last: Move)
      requires Valid() && WellFormed(Pos()) && IsColour(turn) && LastOk(Pos(), last)
      modifies this, board, location
      ensures Pos() == old(Pos())
      ensures moves == old(moves) + EnPassant(old(Pos()), turn, last)
    {
      ghost var P := Pos();
      if Abs(last.to - last.from) == 16 && Piece(Pos(), last.to) == PAWN {
        var pretend := if Colour(Pos(), last.to) == WHITE then last.to - 8 else last.to + 8;
        var pawn := board[last.to];
        board[pretend] := pawn;
        board[last.to] := EMPTY;
        location[pawn] := pretend;
        assert Pos() == PretendPosition(P, last);
        PawnsTakeOn(turn, pretend, last, P);
        board[last.to] := pawn;
        board[pretend] := EMPTY;
        location[pawn] := last.to;
        assert board[..] == P.board && location[..] == P.location;
      }
    }

    /** The pawn loop of the en-passant block, on the pretend position. */
    method PawnsTakeOn(turn: int, pretend: int, last: Move, ghost P: Position)
      requires Valid() && WellFormed(P) && IsColour(turn) && LastOk(P, last) && IsDoubleStep(P, last)
      requires pretend == PretendSquare(P, last) && Pos() == PretendPosition(P, last)
      modifies this
      ensures moves == old(moves) + EnPassantMoves(P, turn, last, PAWN8 + 1)
    {
      for i := PAWN1 to PAWN8 + 1
        invariant moves == old(moves) + EnPassantMoves(P, turn, last, i)
      {
        EnPassantStep(turn, pretend, last, i, P);
        EnPassantGrow(old(moves), P, turn, last, i);
      }
    }

    /** One iteration of that loop, for pawn slot turn + i. */
    method EnPassantStep(turn: int, pretend: int, last: Move, i: int, ghost P: Position)
      requires Valid() && WellFormed(P) && IsColour(turn) && LastOk(P, last) && IsDoubleStep(P, last)
      requires pretend == PretendSquare(P, last) && Pos() == PretendPosition(P, last) && 0 <= i < 8
      modifies this
      ensures moves == old(moves) + EnPassantBy(P, turn, last, i)
    {
      var from := location[turn + i];
      if from != EMPTY {
        SlotSquare(Pos(), turn + i);
        if Piece(Pos(), from) == PAWN && CanPawnTake(Pos(), from, pretend) {
          RegisterMove(from, pretend);
        }
      }
    }

    /** The capture phase: the enemy victims from the queen's slot down to PAWN1, each
        handed to try_to_take while alive. */
    method TakeMaterial(turn: int)
      requires Valid() && WellFormed(Pos()) && IsColour(turn)
      modifies this
      ensures moves == old(moves) + Captures(old(Pos()), turn, PAWN1)
    {
      ghost var P := Pos();
      var taken := QUEEN1;
      ghost var done := 15;
      while taken >= PAWN1
        invariant 0 <= done <= 15 && taken == done - 1
        invariant moves == old(moves) + Captures(P, turn, done)
      {
        VictimStep(turn, taken, P);
        CapturesGrow(old(moves), P, turn, taken);
        taken := taken - 1;
        done := done - 1;
      }
      assert done == 0;
    }

    /** One iteration of that loop, for enemy slot Adverse(turn) + taken. */
    method VictimStep(turn: int, taken: int, ghost P: Position)
      requires Valid() && Pos() == P && WellFormed(P) && IsColour(turn) && 0 <= taken < 15
      modifies this
      ensures moves == old(moves) + CapturesOf(P, turn, taken)
    {
      var victim := Adverse(turn) + taken;
      var pos := location[victim];
      if pos != EMPTY {
        LiveSlotFacts(P, victim);
        TryToTake(pos);
      }
    }

    /** The promotion phase: each pawn whose forward square is empty and on an end rank
        registers the push four times (the queen and the three underpromotions). */
    method PromotePawns(turn: int)
      requires Valid() && WellFormed(Pos()) && IsColour(turn)
      modifies this
      ensures moves == old(moves) + Promotions(old(Pos()), turn, PAWN8 + 1)
    {
      ghost var P := Pos();
      for i := PAWN1 to PAWN8 + 1
        invariant moves == old(moves) + Promotions(P, turn, i)
      {
        PromotionStep(turn, i, P);
        PromotionsGrow(old(moves), P, turn, i);
      }
    }

    /** One iteration of that loop, for pawn slot turn + i. */
    method PromotionStep(turn: int, i: int, ghost P: Position)
      requires Valid() && Pos() == P && WellFormed(P) && IsColour(turn) && 0 <= i < 8
      modifies this
      ensures moves == old(moves) + PromotionBy(P, turn, i)
    {
      var from := location[turn + i];
      if from != EMPTY {
        LiveSlotFacts(P, turn + i);
        if types[board[from]] == PAWN {
          var to := if turn == WHITE then from + 8 else from - 8;
          if board[to] == EMPTY && (to >= 56 || to < 8) {
            for j := 0 to 4
              invariant moves == old(moves) + Repeat(Move(from, to), j)
            {
              RegisterMove(from, to);
            }
          }
        }
      }
    }

    /** The kingside test of the castling phase, in the source's order of evaluation. */
    method KingsideOk(turn: int) returns (ok: bool)
      requires Valid() && WellFormed(Pos()) && IsColour(turn)
      ensures ok == KingsideAllowed(Pos(), turn)
    {
      var enemy := Adverse(turn);
      var row := HomeRow(turn);
      if location[turn + KING1] != 4 + row {
        return false;
      }
      var threat := IsThreaten(4 + row, enemy);
      if threat || location[turn + ROOK2] == EMPTY || location[turn + ROOK2] != 7 + row || board[5 + row] != EMPTY {
        return false;
      }
      threat := IsThreaten(5 + row, enemy);
      if threat || board[6 + row] != EMPTY {
        return false;
      }
      threat := IsThreaten(6 + row, enemy);
      return !threat;
    }

    /** The queenside test: the knight's square is only tested for emptiness. */
    method QueensideOk(turn: int) returns (ok: bool)
      requires Valid() && WellFormed(Pos()) && IsColour(turn)
      ensures ok == QueensideAllowed(Pos(), turn)
    {
      var enemy := Adverse(turn);
      var row := HomeRow(turn);
      if location[turn + KING1] != 4 + row {
        return false;
      }
      var threat := IsThreaten(4 + row, enemy);
      if threat || location[turn + ROOK1] == EMPTY || location[turn + ROOK1] != row
        || board[1 + row] != EMPTY || board[2 + row] != EMPTY
      {
        return false;
      }
      threat := IsThreaten(2 + row, enemy);
      if threat || board[3 + row] != EMPTY {
        return false;
      }
      threat := IsThreaten(3 + row, enemy);
      return !threat;
    }

    /** The castling phase: the king's two-square move to the kingside, then to the queenside. */
    method TryCastling(turn: int)
      requires Valid() && WellFormed(Pos()) && IsColour(turn)
      modifies this
      ensures moves == old(moves) + Castling(old(Pos()), turn)
    {
      var row := HomeRow(turn);
      var kingside := KingsideOk(turn);
      if kingside {
        LiveSlotFacts(Pos(), turn + KING1);
        RegisterMove(4 + row, 6 + row);
      }
      var queenside := QueensideOk(turn);
      if queenside {
        LiveSlotFacts(Pos(), turn + KING1);
        RegisterMove(4 + row, 2 + row);
      }
    }

    /** The first walk of the chain: table is next_location, chain the squares it visits
        from start; each empty square gets try_to_move_a_piece_to. */
    method WalkChain(turn: int, table: seq<int>, start: int, ghost chain: seq<int>, ghost P: Position)
      requires Valid() && Pos() == P && WellFormed(P) && IsColour(turn)
      requires ChainTable(table, chain) && chain[0] == start
      modifies this
      ensures moves == old(moves) + ChainMoves(P, turn, chain, 64)
    {
      var pos := start;
      ghost var k := 0;
      while pos != END
        invariant 0 <= k <= 64 && pos == (if k < 64 then chain[k] else END)
        invariant moves == old(moves) + ChainMoves(P, turn, chain, k)
        decreases 64 - k
      {
        ChainStep(turn, pos, chain, k, P);
        ChainGrow(old(moves), P, turn, chain, k);
        pos := table[pos];
        k := k + 1;
      }
    }

    /** One pass of that loop, at the square pos, the k-th of the chain. */
    method ChainStep(turn: int, pos: int, ghost chain: seq<int>, ghost k: int, ghost P: Position)
      requires Valid() && Pos() == P && WellFormed(P) && IsColour(turn)
      requires AllSquares(chain) && 0 <= k < |chain| && pos == chain[k]
      modifies this
      ensures moves == old(moves) + ChainAt(P, turn, chain, k)
    {
      if board[pos] == EMPTY {
        TryToMoveAPieceTo(pos, turn);
      } else {
        assert moves == old(moves) + [];
      }
    }

    /** The second walk of the chain: each empty square gets try_to_move_a_promoted_piece_to. */
    method WalkPromotedChain(turn: int, table: seq<int>, start: int, ghost chain: seq<int>, ghost P: Position)
      requires Valid() && Pos() == P && WellFormed(P) && IsColour(turn)
      requires ChainTable(table, chain) && chain[0] == start
      modifies this
      ensures moves == old(moves) + PromotedChainMoves(P, turn, chain, 64)
    {
      var pos := start;
      ghost var k := 0;
      while pos != END
        invariant 0 <= k <= 64 && pos == (if k < 64 then chain[k] else END)
        invariant moves == old(moves) + PromotedChainMoves(P, turn, chain, k)
        decreases 64 - k
      {
        PromotedChainStep(turn, pos, chain, k, P);
        PromotedChainGrow(old(moves), P, turn, chain, k);
        pos := table[pos];
        k := k + 1;
      }
    }

    /** One pass of that loop, at the square pos, the k-th of the chain. */
    method PromotedChainStep(turn: int, pos: int, ghost chain: seq<int>, ghost k: int, ghost P: Position)
      requires Valid() && Pos() == P && WellFormed(P) && IsColour(turn)
      requires AllSquares(chain) && 0 <= k < |chain| && pos == chain[k]
      modifies this
      ensures moves == old(moves) + PromotedChainAt(P, turn, chain, k)
    {
      if board[pos] == EMPTY {
        TryToMoveAPromotedPieceTo(pos, turn);
      } else {
        assert moves == old(moves) + [];
      }
    }

    /** The pawn phase: pawns PAWN8 down to PAWN1, single steps that do not promote and
        double steps from the start rank. */
    method PushPawns(turn: int, ghost P: Position)
      requires Valid() && Pos() == P && WellFormed(P) && IsColour(turn)
      modifies this
      ensures moves == old(moves) + PawnPushes(P, turn, PAWN1)
    {
      var pawn := PAWN8;
      ghost var done := 8;
      while pawn >= PAWN1
        invariant 0 <= done <= 8 && pawn == done - 1
        invariant moves == old(moves) + PawnPushes(P, turn, done)
      {
        PushStep(turn, pawn, P);
        PushesGrow(old(moves), P, turn, pawn);
        pawn := pawn - 1;
        done := done - 1;
      }
      assert done == 0;
    }

    /** One iteration of that loop, for pawn slot turn + i. */
    method PushStep(turn: int, i: int, ghost P: Position)
      requires Valid() && Pos() == P && WellFormed(P) && IsColour(turn) && 0 <= i < 8
      modifies this
      ensures moves == old(moves) + PushesBy(P, turn, i)
    {
      var from := location[turn + i];
      if from != EMPTY {
        LiveSlotFacts(P, turn + i);
        if types[board[from]] == PAWN {
          var forward := if turn == WHITE then 8 else -8;
          var startRow := if turn == WHITE then 1 else 6;
          var y := from / 8;
          var to := from + forward;
          if board[to] == EMPTY && !(to >= 56 || to < 8) {
            RegisterMove(from, to);
            if y == startRow && board[to + forward] == EMPTY {
              RegisterMove(from, to + forward);
            }
          }
        }
      }
    }

    // ----- do_move -----

    /** do_move: the capture (en passant included), the mover's relocation, the rook of
        a castling, and a pawn reaching an end rank becoming a queen. */
    method DoMove(m: Move)
      requires Valid() && WellFormed(Pos()) && GoodMove(Pos(), m)
      modifies board, location, types
      ensures Pos() == ApplyMove(old(Pos()), m)
    {
      ghost var P := Pos();
      var pawnMove := types[board[m.from]] == PAWN;
      CaptureAndRelocate(m);
      MoveCastledRook(m, P);
      if pawnMove && (m.to >= 56 || m.to < 8) {
        types[board[m.to]] := QUEEN;
      }
      assert Pos() == ApplyMove(P, m);
    }

    /** The first half of do_move: the taken piece (on the passed square for an en-passant
        capture) leaves the board and the mover goes from `from` to `to`. */
    method CaptureAndRelocate(m: Move)
      requires Valid() && WellFormed(Pos()) && GoodMove(Pos(), m)
      modifies board, location
      ensures Pos() == CaptureAndMove(old(Pos()), m)
    {
      ghost var P := Pos();
      var p := board[m.from];
      var taken := board[m.to];
      var x1, y1 := m.from % 8, m.from / 8;
      var x2 := m.to % 8;
      var pawnMove := types[p] == PAWN;
      if pawnMove && taken == EMPTY && Abs(x1 - x2) == 1 {
        taken := board[x2 + y1 * 8];
        board[x2 + y1 * 8] := EMPTY;
      }
      assert taken == Taken(P, m);
      if taken != EMPTY {
        location[taken] := EMPTY;
      }
      board[m.from] := EMPTY;
      board[m.to] := p;
      location[p] := m.to;
      assert board[..] == CaptureAndMove(P, m).board;
      assert location[..] == CaptureAndMove(P, m).location;
    }

    /** The second half: after a king's two-square move, its rook jumps over it. */
    method MoveCastledRook(m: Move, ghost P: Position)
      requires Valid() && WellFormed(P) && GoodMove(P, m) && Pos() == CaptureAndMove(P, m)
      modifies board, location
      ensures Pos() == CastleRook(P, m, old(Pos()))
    {
      CastleCases(P, m, Pos());
      if types[board[m.to]] == KING && m.to == m.from + 2 {
        MoveRook(m.to + 1, m.to - 1);
      }
      if types[board[m.to]] == KING && m.to == m.from - 2 {
        MoveRook(m.to - 2, m.to + 1);
      }
    }

    /** The rook's jump: the piece on `from` goes to the empty square `to`. */
    method MoveRook(from: int, to: int)
      requires Valid() && Sound(Pos()) && IsSquare(from) && IsSquare(to)
      requires !IsEmpty(Pos(), from) && IsEmpty(Pos(), to)
      modifies board, location
      ensures Pos() == Relocate(old(Pos()), from, to)
    {
      var rook := board[from];
      board[from] := EMPTY;
      board[to] := rook;
      location[rook] := to;
    }

    /** The memcpy of decode_variations that writes a saved position back. */
    method Restore(b: seq<int>, l: seq<int>, t: seq<int>)
      requires Valid() && |b| == 64 && |l| == 32 && |t| == 32
      modifies board, location, types
      ensures board[..] == b && location[..] == l && types[..] == t
    {
      forall sq | 0 <= sq < 64 {
        board[sq] := b[sq];
      }
      forall s | 0 <= s < 32 {
        location[s] := l[s];
      }
      forall s | 0 <= s < 32 {
        types[s] := t[s];
      }
    }
  }
}

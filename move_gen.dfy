/**
 * The move list of search_moves and search_moves_under_check as functions of the
 * position. The order of the list is the contract: a book byte is a 1-based rank into it.
 * Each phase is a function of the phase's loop bound, so that the engine's loops can
 * state after every iteration which prefix of the phase they have registered.
 */
module MoveGen {
  import opened Wrappers
  import opened ChessBoard
  import opened MoveApply

  datatype GenError =
    | KingMissing   // the side's king has been captured: the source indexes board[-1]
    | NoChecker     // the only attacker of the king is the enemy king: assert(false)

  const END := -1

  /** next_location: the priority chain of destination squares, starting at square 27 (d4). */
  const NextLocation: seq<int> :=
    [1, 2, 3, 4, 5, 6, 7, 63] +
    [48, 49, 50, 51, 52, 53, 54, 55] +
    [40, 41, 42, 43, 44, 45, 46, 47] +
    [32, 33, 34, 35, 36, 37, 38, 39] +
    [16, 17, 18, 28, 29, 20, 22, 23] +
    [12, 24, 31, 30, 21, 19, 26, 25] +
    [0, 15, 14, 13, 11, 10, 9, 8] +
    [END, 56, 57, 58, 59, 60, 61, 62]

  const ChainStart := 27

  /** The squares in the order the chain visits them (an independent listing). */
  const Order: seq<int> :=
    [27, 35, 28, 36, 29, 37, 20, 44, 21, 45, 19, 43, 30, 38, 22, 46] +
    [26, 34, 18, 42, 31, 39, 23, 47, 25, 33, 17, 41, 24, 32, 16, 40] +
    [12, 52, 11, 51, 13, 53, 10, 50, 14, 54, 9, 49, 15, 55, 8, 48] +
    [0, 1, 2, 3, 4, 5, 6, 7, 63, 62, 61, 60, 59, 58, 57, 56]

  /** The position of each square in Order. */
  const Rank: seq<int> :=
    [48, 49, 50, 51, 52, 53, 54, 55, 46, 42, 38, 34, 32, 36, 40, 44] +
    [30, 26, 18, 10, 6, 8, 14, 22, 28, 24, 16, 0, 2, 4, 12, 20] +
    [29, 25, 17, 1, 3, 5, 13, 21, 31, 27, 19, 11, 7, 9, 15, 23] +
    [47, 43, 39, 35, 33, 37, 41, 45, 63, 62, 61, 60, 59, 58, 57, 56]

  /** Following next_location from square 27 visits Order[0], Order[1], ..., Order[63]
      and then reaches END: both chain loops of search_moves terminate. */
  lemma ChainFollowsOrder(k: int)
    requires 0 <= k < 64
    ensures |NextLocation| == 64 && |Order| == 64 && Order[0] == ChainStart
    ensures IsSquare(Order[k])
    ensures NextLocation[Order[k]] == if k < 63 then Order[k + 1] else END
  {
    if k < 32 { ChainFollowsOrderBelow(k); } else { ChainFollowsOrderAbove(k); }
  }

  // The tables are checked a half at a time to keep each case split small.

  lemma ChainFollowsOrderBelow(k: int)
    requires 0 <= k < 32
    ensures IsSquare(Order[k]) && NextLocation[Order[k]] == Order[k + 1]
  {
  }

  lemma ChainFollowsOrderAbove(k: int)
    requires 32 <= k < 64
    ensures IsSquare(Order[k]) && NextLocation[Order[k]] == if k < 63 then Order[k + 1] else END
  {
  }

  lemma OrderRank(k: int)
    requires 0 <= k < 64
    ensures |Order| == 64 && |Rank| == 64 && IsSquare(Order[k]) && Rank[Order[k]] == k
  {
    if k < 32 { OrderRankBelow(k); } else { OrderRankAbove(k); }
  }

  lemma OrderRankBelow(k: int)
    requires 0 <= k < 32
    ensures IsSquare(Order[k]) && Rank[Order[k]] == k
  {
  }

  lemma OrderRankAbove(k: int)
    requires 32 <= k < 64
    ensures IsSquare(Order[k]) && Rank[Order[k]] == k
  {
  }

  lemma RankOrder(sq: int)
    requires IsSquare(sq)
    ensures |Order| == 64 && |Rank| == 64 && 0 <= Rank[sq] < 64 && Order[Rank[sq]] == sq
  {
    if sq < 32 { RankOrderBelow(sq); } else { RankOrderAbove(sq); }
  }

  lemma RankOrderBelow(sq: int)
    requires 0 <= sq < 32
    ensures 0 <= Rank[sq] < 64 && Order[Rank[sq]] == sq
  {
  }

  lemma RankOrderAbove(sq: int)
    requires 32 <= sq < 64
    ensures 0 <= Rank[sq] < 64 && Order[Rank[sq]] == sq
  {
  }

  /** The chain visits every square, and each exactly once. */
  lemma ChainVisitsEverySquareOnce()
    ensures |Order| == 64
    ensures forall sq :: IsSquare(sq) ==> sq in Order
    ensures forall j, k :: 0 <= j < k < 64 ==> Order[j] != Order[k]
  {
    forall sq | IsSquare(sq)
      ensures sq in Order
    {
      RankOrder(sq);
    }
    forall j, k | 0 <= j < k < 64
      ensures Order[j] != Order[k]
    {
      OrderRank(j);
      OrderRank(k);
    }
  }

  /** The last rank as seen by `colour`: try_to_take's underpromotion test. */
  predicate PromotionRow(colour: int, sq: int) {
    (colour == WHITE && sq >= 56) || (colour == BLACK && sq < 8)
  }

  function Repeat(m: Move, n: nat): (r: seq<Move>)
    ensures |r| == n && forall k :: 0 <= k < n ==> r[k] == m
    ensures multiset(r)[m] == n
  {
    if n == 0 then [] else Repeat(m, n - 1) + [m]
  }

  predicate AllGood(P: Position, ms: seq<Move>)
    requires Shaped(P)
  {
    forall m :: m in ms ==> GoodMove(P, m)
  }

  /** Every move of ms is a good move of a piece of `colour`. */
  predicate Playable(P: Position, colour: int, ms: seq<Move>)
    requires Shaped(P)
  {
    forall m :: m in ms ==> ByColour(P, colour, m) && GoodMove(P, m)
  }

  lemma PlayableAppend(P: Position, colour: int, a: seq<Move>, b: seq<Move>)
    requires Shaped(P)
    requires AllGood(P, a) && forall m :: m in a ==> ByColour(P, colour, m)
    requires AllGood(P, b) && forall m :: m in b ==> ByColour(P, colour, m)
    ensures Playable(P, colour, a + b)
  {
  }

  lemma PlayableOne(P: Position, colour: int, a: seq<Move>)
    requires Shaped(P)
    requires AllGood(P, a) && forall m :: m in a ==> ByColour(P, colour, m)
    ensures Playable(P, colour, a)
  {
  }

  lemma PlayableJoin(P: Position, colour: int, a: seq<Move>, b: seq<Move>)
    requires Shaped(P) && Playable(P, colour, a) && Playable(P, colour, b)
    ensures Playable(P, colour, a + b)
  {
  }

  /** The square of a live slot holds that slot: the facts the phase functions need. */
  lemma SlotSquare(P: Position, s: int)
    requires Sound(P) && IsSlot(s) && Alive(P, s)
    ensures IsSquare(P.location[s]) && P.board[P.location[s]] == s && !IsEmpty(P, P.location[s])
    ensures Colour(P, P.location[s]) == SlotColour(s) && Piece(P, P.location[s]) == P.types[s]
  {
  }

  lemma AdjacentNotTwoApart(a: int, b: int)
    requires IsSquare(a) && IsSquare(b) && Abs(X(a) - X(b)) <= 1 && Abs(Y(a) - Y(b)) <= 1
    ensures b != a + 2 && b != a - 2 && Abs(b - a) != 16
  {
  }

  /** m starts on a piece of `colour` and ends on a square. */
  predicate ByColour(P: Position, colour: int, m: Move)
    requires Shaped(P)
  {
    IsSquare(m.from) && IsSquare(m.to) && !IsEmpty(P, m.from) && Colour(P, m.from) == colour
  }

  /** m is a capture by a piece of `colour` that its predicate allows. */
  predicate CaptureBy(P: Position, colour: int, m: Move)
    requires Shaped(P)
  {
    ByColour(P, colour, m) && CanTake(P, m.from, m.to)
  }

  /** m is a move of a piece of `colour` to an empty square that its predicate allows. */
  predicate QuietBy(P: Position, colour: int, m: Move)
    requires Shaped(P)
  {
    ByColour(P, colour, m) && IsEmpty(P, m.to) && CanMove(P, m.from, m.to)
  }

  /** A move that is neither a pawn's nor a king's double step is good as soon as it
      leaves its square. */
  lemma PlainMoveGood(P: Position, m: Move)
    requires WellFormed(P) && IsSquare(m.from) && IsSquare(m.to) && m.from != m.to
    requires !IsEmpty(P, m.from)
    requires Piece(P, m.from) == PAWN ==> Y(m.to) != Y(m.from) && Abs(m.to - m.from) != 16
    requires Piece(P, m.from) == KING ==> Abs(X(m.from) - X(m.to)) <= 1 && Abs(Y(m.from) - Y(m.to)) <= 1
    ensures GoodMove(P, m)
  {
    if Piece(P, m.from) == KING {
      AdjacentNotTwoApart(m.from, m.to);
    }
  }

  /** Every capture a predicate allows is a good move. */
  lemma CaptureGood(P: Position, colour: int, m: Move)
    requires WellFormed(P) && CaptureBy(P, colour, m)
    ensures GoodMove(P, m)
  {
    if Piece(P, m.from) == PAWN {
      assert Abs(m.to - m.from) != 16 && Y(m.to) != Y(m.from);
    }
    PlainMoveGood(P, m);
  }

  /** Every move to an empty square a predicate allows is a good move. */
  lemma QuietGood(P: Position, colour: int, m: Move)
    requires WellFormed(P) && QuietBy(P, colour, m)
    ensures GoodMove(P, m)
  {
    PlainMoveGood(P, m);
  }

  // ----- try_to_take -----

  /** The registrations of try_to_take for slot attacker + i: one capture, or four
      identical ones for a pawn reaching the last rank (promotion and underpromotions). */
  function TakeBy(P: Position, pos: int, attacker: int, i: int): (r: seq<Move>)
    requires WellFormed(P) && IsSquare(pos) && IsColour(attacker) && 0 <= i < 16
    ensures r != [] <==> Alive(P, attacker + i) && CanTake(P, P.location[attacker + i], pos)
    ensures forall k :: 0 <= k < |r| ==> r[k] == Move(P.location[attacker + i], pos)
    ensures r != [] ==>
      (|r| == 4 <==> Piece(P, P.location[attacker + i]) == PAWN && PromotionRow(attacker, pos))
    ensures r != [] && |r| != 4 ==> |r| == 1
    ensures forall m :: m in r ==> CaptureBy(P, attacker, m)
    ensures AllGood(P, r)
  {
    var s := attacker + i;
    if Alive(P, s) && CanTake(P, P.location[s], pos) then
      var from := P.location[s];
      SlotSquare(P, s);
      CaptureGood(P, attacker, Move(from, pos));
      if Piece(P, from) == PAWN && PromotionRow(attacker, pos) then Repeat(Move(from, pos), 4)
      else [Move(from, pos)]
    else []
  }

  /** try_to_take(pos) after its loop has handled slots attacker + 0 .. attacker + n - 1. */
  function TakeMoves(P: Position, pos: int, n: int): (r: seq<Move>)
    requires WellFormed(P) && IsSquare(pos) && !IsEmpty(P, pos) && 0 <= n <= 16
    ensures forall m :: m in r ==> m.to == pos && CaptureBy(P, Adverse(Colour(P, pos)), m)
    ensures AllGood(P, r)
  {
    if n == 0 then []
    else TakeMoves(P, pos, n - 1) + TakeBy(P, pos, Adverse(Colour(P, pos)), n - 1)
  }

  /** The captures of the victim in enemy slot Adverse(turn) + lo, if it is alive. */
  function CapturesOf(P: Position, turn: int, lo: int): (r: seq<Move>)
    requires WellFormed(P) && IsColour(turn) && 0 <= lo < 15
    ensures forall m :: m in r ==>
      && CaptureBy(P, turn, m) && !IsEmpty(P, m.to) && P.board[m.to] == Adverse(turn) + lo
    ensures AllGood(P, r)
  {
    var taken := Adverse(turn) + lo;
    if Alive(P, taken) then SlotSquare(P, taken); TakeMoves(P, P.location[taken], 16) else []
  }

  /** The capture phase after the victims in enemy slots 14 down to lo: victims by
      decreasing value (queen, rooks, bishops, knights, pawns), never the king. */
  function Captures(P: Position, turn: int, lo: int): (r: seq<Move>)
    requires WellFormed(P) && IsColour(turn) && 0 <= lo <= 15
    ensures forall m :: m in r ==>
      CaptureBy(P, turn, m) && !IsEmpty(P, m.to) && P.board[m.to] != Adverse(turn) + KING1
    ensures AllGood(P, r)
    decreases 15 - lo
  {
    if lo == 15 then [] else Captures(P, turn, lo + 1) + CapturesOf(P, turn, lo)
  }

  /** How many times try_to_take registers a capture: four for a pawn reaching the last
      rank, once otherwise. */
  function Copies(P: Position, attacker: int, m: Move): (k: int)
    requires Shaped(P)
    ensures k == 1 || k == 4
  {
    if IsSquare(m.from) && !IsEmpty(P, m.from) && Piece(P, m.from) == PAWN && PromotionRow(attacker, m.to) then 4
    else 1
  }

  /** Every move of r appears in it as many times as try_to_take registers it. */
  predicate Registered(P: Position, attacker: int, r: seq<Move>)
    requires Shaped(P)
  {
    forall m :: m in r ==> multiset(r)[m] == Copies(P, attacker, m)
  }

  /** Joining two lists with no move in common keeps every move's count. */
  lemma CopiesJoin(P: Position, attacker: int, r0: seq<Move>, b: seq<Move>)
    requires Shaped(P) && Registered(P, attacker, r0) && Registered(P, attacker, b)
    requires forall m :: m in b ==> m !in r0
    ensures Registered(P, attacker, r0 + b)
  {
    forall m | m in r0 + b
      ensures multiset(r0 + b)[m] == Copies(P, attacker, m)
    {
      if m !in b {
        assert multiset(b)[m] == 0;
      } else {
        assert multiset(r0)[m] == 0;
      }
    }
  }

  /** Joining the captures of victims above t with those of victim t keeps every count. */
  lemma CopiesJoinApart(P: Position, attacker: int, r0: seq<Move>, b: seq<Move>, t: int)
    requires Shaped(P) && Registered(P, attacker, r0) && Registered(P, attacker, b)
    requires forall m :: m in r0 ==> Victim(P, m) > t
    requires forall m :: m in b ==> Victim(P, m) == t
    ensures Registered(P, attacker, r0 + b)
  {
    CopiesJoin(P, attacker, r0, b);
  }

  /** The moves of r come by victim slot, from the highest down. */
  predicate ByVictimDown(P: Position, r: seq<Move>)
    requires Shaped(P)
  {
    forall j, k :: 0 <= j < k < |r| ==> Victim(P, r[k]) <= Victim(P, r[j])
  }

  /** Appending moves of victim t to a list whose victims are above t, in decreasing order,
      keeps the order. */
  lemma DescendingJoin(P: Position, r0: seq<Move>, b: seq<Move>, t: int)
    requires Shaped(P) && ByVictimDown(P, r0)
    requires forall m :: m in r0 ==> Victim(P, m) > t
    requires forall m :: m in b ==> Victim(P, m) == t
    ensures ByVictimDown(P, r0 + b)
  {
    var r := r0 + b;
    forall j, k | 0 <= j < k < |r|
      ensures Victim(P, r[k]) <= Victim(P, r[j])
    {
      if k >= |r0| {
        assert r[k] == b[k - |r0|];
        if j >= |r0| {
          assert r[j] == b[j - |r0|];
        } else {
          assert r[j] == r0[j];
        }
      }
    }
  }

  /** try_to_take over the first n attacker slots lists every capture of pos by those
      slots, and nothing else. */
  lemma {:induction false} TakeMovesComplete(P: Position, pos: int, n: int)
    requires WellFormed(P) && IsSquare(pos) && !IsEmpty(P, pos) && 0 <= n <= 16
    ensures var A, r := Adverse(Colour(P, pos)), TakeMoves(P, pos, n);
      forall m: Move :: m in r <==> m.to == pos && CaptureBy(P, A, m) && A <= P.board[m.from] < A + n
    decreases n
  {
    if n > 0 {
      TakeMovesComplete(P, pos, n - 1);
      var A := Adverse(Colour(P, pos));
      var s := A + n - 1;
      var b := TakeBy(P, pos, A, n - 1);
      assert TakeMoves(P, pos, n) == TakeMoves(P, pos, n - 1) + b;
      SlotMoves(P, s);
      forall m: Move | m.to == pos && CaptureBy(P, A, m) && P.board[m.from] == s
        ensures m in b
      {
        assert b[0] == m;
      }
    }
  }

  /** try_to_take registers each capture it lists four times for a pawn reaching the last
      rank, once otherwise. */
  lemma {:induction false} TakeMovesCopies(P: Position, pos: int, n: int)
    requires WellFormed(P) && IsSquare(pos) && !IsEmpty(P, pos) && 0 <= n <= 16
    ensures Registered(P, Adverse(Colour(P, pos)), TakeMoves(P, pos, n))
    decreases n
  {
    if n > 0 {
      TakeMovesCopies(P, pos, n - 1);
      TakeMovesComplete(P, pos, n - 1);
      var A := Adverse(Colour(P, pos));
      var s := A + n - 1;
      var r0, b := TakeMoves(P, pos, n - 1), TakeBy(P, pos, A, n - 1);
      assert TakeMoves(P, pos, n) == r0 + b;
      if b != [] {
        var m := b[0];
        SlotSquare(P, s);
        assert P.board[m.from] == s && m !in r0;
        if |b| == 4 {
          assert b == Repeat(m, 4);
        } else {
          assert b == [m];
        }
        assert forall m' :: m' in b ==> m' == m;
      }
      CopiesJoin(P, A, r0, b);
    }
  }

  /** A capture's victim slot. */
  function Victim(P: Position, m: Move): int
    requires Shaped(P)
  {
    if IsSquare(m.to) then P.board[m.to] else EMPTY
  }

  /** The capture phase from victim slot lo up lists every capture by the side to move of a
      live enemy piece in those slots (never the king), and nothing else. */
  lemma {:induction false} CapturesComplete(P: Position, turn: int, lo: int)
    requires WellFormed(P) && IsColour(turn) && 0 <= lo <= 15
    ensures forall m: Move :: m in Captures(P, turn, lo) <==>
      CaptureBy(P, turn, m) && !IsEmpty(P, m.to) && Adverse(turn) + lo <= P.board[m.to] < Adverse(turn) + KING1
    decreases 15 - lo
  {
    if lo < 15 {
      CapturesComplete(P, turn, lo + 1);
      var taken := Adverse(turn) + lo;
      var b := CapturesOf(P, turn, lo);
      assert Captures(P, turn, lo) == Captures(P, turn, lo + 1) + b;
      if Alive(P, taken) {
        SlotSquare(P, taken);
        TakeMovesComplete(P, P.location[taken], 16);
        assert Adverse(Colour(P, P.location[taken])) == turn;
      }
      forall m: Move | CaptureBy(P, turn, m) && !IsEmpty(P, m.to) && P.board[m.to] == taken
        ensures m in b
      {
        SlotMoves(P, taken);
        assert SlotColour(P.board[m.from]) == turn;
      }
    }
  }

  /** The victims of the phase from slot lo up lie between slot lo and the king, and
      those of slot lo itself come last. */
  lemma {:induction false} CapturesVictims(P: Position, turn: int, lo: int)
    requires WellFormed(P) && IsColour(turn) && 0 <= lo <= 15
    ensures forall m :: m in Captures(P, turn, lo) ==> Adverse(turn) + lo <= Victim(P, m) < Adverse(turn) + KING1
    ensures lo < 15 ==> forall m :: m in CapturesOf(P, turn, lo) ==> Victim(P, m) == Adverse(turn) + lo
    decreases 15 - lo
  {
    if lo < 15 {
      CapturesVictims(P, turn, lo + 1);
      assert Captures(P, turn, lo) == Captures(P, turn, lo + 1) + CapturesOf(P, turn, lo);
    }
  }

  /** The captures of one victim appear as many times as try_to_take registers them. */
  lemma CapturesOfCopies(P: Position, turn: int, lo: int)
    requires WellFormed(P) && IsColour(turn) && 0 <= lo < 15
    ensures Registered(P, turn, CapturesOf(P, turn, lo))
  {
    var taken := Adverse(turn) + lo;
    if Alive(P, taken) {
      SlotSquare(P, taken);
      TakeMovesCopies(P, P.location[taken], 16);
      assert Adverse(Colour(P, P.location[taken])) == turn;
    }
  }

  /** Each capture of the phase appears as many times as try_to_take registers it. */
  lemma {:induction false} CapturesCopies(P: Position, turn: int, lo: int)
    requires WellFormed(P) && IsColour(turn) && 0 <= lo <= 15
    ensures Registered(P, turn, Captures(P, turn, lo))
    decreases 15 - lo
  {
    if lo < 15 {
      CapturesCopies(P, turn, lo + 1);
      CapturesVictims(P, turn, lo + 1);
      CapturesVictims(P, turn, lo);
      var r0, b := Captures(P, turn, lo + 1), CapturesOf(P, turn, lo);
      assert Captures(P, turn, lo) == r0 + b;
      CapturesOfCopies(P, turn, lo);
      CopiesJoinApart(P, turn, r0, b, Adverse(turn) + lo);
    }
  }

  /** The captures come by victim slot, from the highest (the queen) down. */
  lemma {:induction false} CapturesByVictim(P: Position, turn: int, lo: int)
    requires WellFormed(P) && IsColour(turn) && 0 <= lo <= 15
    ensures ByVictimDown(P, Captures(P, turn, lo))
    decreases 15 - lo
  {
    if lo < 15 {
      CapturesByVictim(P, turn, lo + 1);
      CapturesVictims(P, turn, lo + 1);
      CapturesVictims(P, turn, lo);
      var r0, b := Captures(P, turn, lo + 1), CapturesOf(P, turn, lo);
      assert Captures(P, turn, lo) == r0 + b;
      DescendingJoin(P, r0, b, Adverse(turn) + lo);
    }
  }

  // ----- promotion pushes -----

  /** A pawn of `colour` pushed one square onto an end rank. */
  predicate PromotionPush(P: Position, colour: int, m: Move)
    requires Shaped(P)
  {
    && ByColour(P, colour, m) && Piece(P, m.from) == PAWN
    && m.to == m.from + ForwardStep(colour) && IsEmpty(P, m.to) && EndRow(m.to)
  }

  /** The four identical registrations for a pawn of slot turn + i whose forward square
      is empty and on an end rank. */
  function PromotionBy(P: Position, turn: int, i: int): (r: seq<Move>)
    requires WellFormed(P) && IsColour(turn) && 0 <= i < 8
    ensures |r| == 0 || |r| == 4
    ensures |r| == 4 <==>
      && Alive(P, turn + i) && Piece(P, P.location[turn + i]) == PAWN
      && IsEmpty(P, P.location[turn + i] + ForwardStep(turn)) && EndRow(P.location[turn + i] + ForwardStep(turn))
    ensures forall k :: 0 <= k < |r| ==> r[k] == r[0]
    ensures forall m :: m in r ==> PromotionPush(P, turn, m) && P.board[m.from] == turn + i
    ensures AllGood(P, r)
  {
    var s := turn + i;
    if Alive(P, s) && (SlotSquare(P, s); Piece(P, P.location[s]) == PAWN) then
      var from := P.location[s];
      var to := if turn == WHITE then from + 8 else from - 8;
      if IsEmpty(P, to) && EndRow(to) then
        PlainMoveGood(P, Move(from, to));
        Repeat(Move(from, to), 4)
      else []
    else []
  }

  /** The promotion phase after pawns turn + 0 .. turn + n - 1: blocks of four identical
      pushes onto an end rank. */
  function Promotions(P: Position, turn: int, n: int): (r: seq<Move>)
    requires WellFormed(P) && IsColour(turn) && 0 <= n <= 8
    ensures |r| % 4 == 0
    ensures forall k :: 0 <= k < |r| ==> r[k] == r[k - k % 4]
    ensures forall m :: m in r <==> PromotionPush(P, turn, m) && turn <= P.board[m.from] < turn + n
    ensures forall m :: m in r ==> multiset(r)[m] == 4
    ensures AllGood(P, r)
  {
    if n == 0 then []
    else
      var r0 := Promotions(P, turn, n - 1);
      var b := PromotionBy(P, turn, n - 1);
      PromotionCompletes(P, turn, n - 1);
      BlocksJoin(r0, b);
      r0 + b
  }

  /** A pawn whose forward square is an empty end-rank square gets its block. */
  lemma PromotionCompletes(P: Position, turn: int, i: int)
    requires WellFormed(P) && IsColour(turn) && 0 <= i < 8
    ensures forall m :: PromotionPush(P, turn, m) && P.board[m.from] == turn + i ==> m in PromotionBy(P, turn, i)
  {
    if Alive(P, turn + i) {
      SlotSquare(P, turn + i);
    }
  }

  /** Joining a run of blocks of four with one more block, whose moves are new. */
  lemma BlocksJoin(r0: seq<Move>, b: seq<Move>)
    requires |r0| % 4 == 0 && forall k :: 0 <= k < |r0| ==> r0[k] == r0[k - k % 4]
    requires forall m :: m in r0 ==> multiset(r0)[m] == 4
    requires |b| == 0 || |b| == 4
    requires forall k :: 0 <= k < |b| ==> b[k] == b[0]
    requires forall m :: m in b ==> m !in r0
    ensures var r := r0 + b;
      && |r| % 4 == 0 && (forall k :: 0 <= k < |r| ==> r[k] == r[k - k % 4])
      && forall m :: m in r ==> multiset(r)[m] == 4
  {
    var r := r0 + b;
    assert forall k :: |r0| <= k < |r| ==> r[k] == b[k - |r0|];
    if |b| == 4 {
      assert b == Repeat(b[0], 4);
    }
  }

  // ----- castling -----

  /** The rank castling happens on. */
  function HomeRow(turn: int): int { if turn == WHITE then 0 else 56 }

  predicate KingsideAllowed(P: Position, turn: int)
    requires WellFormed(P) && IsColour(turn)
  {
    var row := HomeRow(turn);
    var enemy := Adverse(turn);
    && P.location[turn + KING1] == 4 + row && !Threatened(P, 4 + row, enemy)
    && Alive(P, turn + ROOK2) && P.location[turn + ROOK2] == 7 + row
    && IsEmpty(P, 5 + row) && !Threatened(P, 5 + row, enemy)
    && IsEmpty(P, 6 + row) && !Threatened(P, 6 + row, enemy)
  }

  /** The queenside test: the knight's square must be empty but is not tested for threats. */
  predicate QueensideAllowed(P: Position, turn: int)
    requires WellFormed(P) && IsColour(turn)
  {
    var row := HomeRow(turn);
    var enemy := Adverse(turn);
    && P.location[turn + KING1] == 4 + row && !Threatened(P, 4 + row, enemy)
    && Alive(P, turn + ROOK1) && P.location[turn + ROOK1] == row
    && IsEmpty(P, 1 + row)
    && IsEmpty(P, 2 + row) && !Threatened(P, 2 + row, enemy)
    && IsEmpty(P, 3 + row) && !Threatened(P, 3 + row, enemy)
  }

  /** The castling phase: kingside, then queenside. */
  function Castling(P: Position, turn: int): (r: seq<Move>)
    requires WellFormed(P) && IsColour(turn)
    ensures |r| <= 2
    ensures forall m :: m in r ==>
      || (m == Move(4 + HomeRow(turn), 6 + HomeRow(turn)) && KingsideAllowed(P, turn))
      || (m == Move(4 + HomeRow(turn), 2 + HomeRow(turn)) && QueensideAllowed(P, turn))
    ensures KingsideAllowed(P, turn) ==> |r| > 0 && r[0] == Move(4 + HomeRow(turn), 6 + HomeRow(turn))
    ensures QueensideAllowed(P, turn) ==> |r| > 0 && r[|r| - 1] == Move(4 + HomeRow(turn), 2 + HomeRow(turn))
    ensures forall m :: m in r ==> ByColour(P, turn, m)
    ensures AllGood(P, r)
  {
    var row := HomeRow(turn);
    var k := if KingsideAllowed(P, turn) then
        SlotSquare(P, turn + KING1); SlotSquare(P, turn + ROOK2); [Move(4 + row, 6 + row)]
      else [];
    var q := if QueensideAllowed(P, turn) then
        SlotSquare(P, turn + KING1); SlotSquare(P, turn + ROOK1); [Move(4 + row, 2 + row)]
      else [];
    k + q
  }

  // ----- moves to an empty square -----

  /** m moves one of the knights .. king of `colour` to an empty square its predicate allows. */
  predicate PieceQuiet(P: Position, colour: int, m: Move)
    requires Shaped(P)
  {
    QuietBy(P, colour, m) && colour + KNIGHT1 <= P.board[m.from] < colour + 16
  }

  /** m moves a promoted pawn of `colour` (a pawn slot no longer of type PAWN) to an empty
      square its predicate allows. */
  predicate PromotedQuiet(P: Position, colour: int, m: Move)
    requires Shaped(P)
  {
    QuietBy(P, colour, m) && colour <= P.board[m.from] < colour + KNIGHT1 && Piece(P, m.from) != PAWN
  }

  /** The registration of try_to_move_a_piece_to for slot colour + i. */
  function PieceMoveBy(P: Position, pos: int, colour: int, i: int): (r: seq<Move>)
    requires WellFormed(P) && IsSquare(pos) && IsEmpty(P, pos) && IsColour(colour) && 0 <= i < 16
    ensures |r| <= 1
    ensures r != [] <==> Alive(P, colour + i) && CanMove(P, P.location[colour + i], pos)
    ensures forall m :: m in r ==>
      m.to == pos && QuietBy(P, colour, m) && P.board[m.from] == colour + i
    ensures AllGood(P, r)
  {
    var s := colour + i;
    if Alive(P, s) && (SlotSquare(P, s); CanMove(P, P.location[s], pos)) then
      QuietGood(P, colour, Move(P.location[s], pos)); [Move(P.location[s], pos)]
    else []
  }

  /** try_to_move_a_piece_to after slots colour + 8 .. colour + n - 1 (knights to king):
      exactly the quiet moves of those slots' pieces to pos. */
  function PieceMovesTo(P: Position, pos: int, colour: int, n: int): (r: seq<Move>)
    requires WellFormed(P) && IsSquare(pos) && IsEmpty(P, pos) && IsColour(colour) && 8 <= n <= 16
    ensures forall m :: m in r <==>
      m.to == pos && QuietBy(P, colour, m) && colour + KNIGHT1 <= P.board[m.from] < colour + n
    ensures AllGood(P, r)
  {
    if n == 8 then []
    else
      var r0, b := PieceMovesTo(P, pos, colour, n - 1), PieceMoveBy(P, pos, colour, n - 1);
      SlotMoves(P, colour + n - 1);
      r0 + b
  }

  /** A move from the square of slot s is the move from that slot's location. */
  lemma SlotMoves(P: Position, s: int)
    requires WellFormed(P) && IsSlot(s)
    ensures forall m: Move :: IsSquare(m.from) && P.board[m.from] == s ==>
      Alive(P, s) && m == Move(P.location[s], m.to)
  {
  }

  /** The registration of try_to_move_a_promoted_piece_to for pawn slot colour + i. */
  function PromotedMoveBy(P: Position, pos: int, colour: int, i: int): (r: seq<Move>)
    requires WellFormed(P) && IsSquare(pos) && IsEmpty(P, pos) && IsColour(colour) && 0 <= i < 8
    ensures |r| <= 1
    ensures r != [] <==>
      Alive(P, colour + i) && Piece(P, P.location[colour + i]) != PAWN && CanMove(P, P.location[colour + i], pos)
    ensures forall m :: m in r ==>
      && m.to == pos && QuietBy(P, colour, m) && P.board[m.from] == colour + i
      && Piece(P, m.from) != PAWN
    ensures AllGood(P, r)
  {
    var s := colour + i;
    if Alive(P, s) && (SlotSquare(P, s); Piece(P, P.location[s]) != PAWN) && CanMove(P, P.location[s], pos) then
      QuietGood(P, colour, Move(P.location[s], pos)); [Move(P.location[s], pos)]
    else []
  }

  /** try_to_move_a_promoted_piece_to after slots colour + 0 .. colour + n - 1: exactly
      the quiet moves to pos of those pawns that no longer have the pawn type. */
  function PromotedMovesTo(P: Position, pos: int, colour: int, n: int): (r: seq<Move>)
    requires WellFormed(P) && IsSquare(pos) && IsEmpty(P, pos) && IsColour(colour) && 0 <= n <= 8
    ensures forall m :: m in r <==>
      && m.to == pos && QuietBy(P, colour, m) && colour <= P.board[m.from] < colour + n
      && Piece(P, m.from) != PAWN
    ensures AllGood(P, r)
  {
    if n == 0 then []
    else
      var r0, b := PromotedMovesTo(P, pos, colour, n - 1), PromotedMoveBy(P, pos, colour, n - 1);
      SlotMoves(P, colour + n - 1);
      r0 + b
  }

  /** Every entry of the list is a square. */
  predicate AllSquares(squares: seq<int>) {
    forall i :: 0 <= i < |squares| ==> IsSquare(squares[i])
  }

  /** Following table from chain[0] visits chain[0], chain[1], ..., chain[63] and then
      reaches END. */
  predicate ChainTable(table: seq<int>, chain: seq<int>) {
    && |table| == 64 && |chain| == 64 && AllSquares(chain)
    && (forall k :: 0 <= k < 63 ==> table[chain[k]] == chain[k + 1])
    && table[chain[63]] == END
  }

  lemma NextLocationFollowsOrder()
    ensures ChainTable(NextLocation, Order) && Order[0] == ChainStart
  {
    forall k | 0 <= k < 64
      ensures IsSquare(Order[k]) && NextLocation[Order[k]] == if k < 63 then Order[k + 1] else END
    {
      ChainFollowsOrder(k);
    }
  }

  /** The first chain phase at the k-th square of the chain: when it is empty, every
      quiet move onto it of a knight .. king. */
  function ChainAt(P: Position, turn: int, chain: seq<int>, k: int): (r: seq<Move>)
    requires WellFormed(P) && IsColour(turn) && AllSquares(chain) && 0 <= k < |chain|
    ensures forall m :: m in r <==> m.to == chain[k] && PieceQuiet(P, turn, m)
    ensures AllGood(P, r)
  {
    if IsEmpty(P, chain[k]) then PieceMovesTo(P, chain[k], turn, 16) else []
  }

  /** The first chain phase over the squares chain[0 .. k - 1]: every quiet move of a
      knight .. king onto one of them. */
  function ChainMoves(P: Position, turn: int, chain: seq<int>, k: int): (r: seq<Move>)
    requires WellFormed(P) && IsColour(turn) && AllSquares(chain) && 0 <= k <= |chain|
    ensures forall m :: m in r <==> m.to in chain[..k] && PieceQuiet(P, turn, m)
    ensures AllGood(P, r)
  {
    if k == 0 then []
    else
      assert chain[..k] == chain[..k - 1] + [chain[k - 1]];
      ChainMoves(P, turn, chain, k - 1) + ChainAt(P, turn, chain, k - 1)
  }

  /** The second chain phase at the k-th square of the chain: when it is empty, every
      quiet move onto it of a promoted pawn. */
  function PromotedChainAt(P: Position, turn: int, chain: seq<int>, k: int): (r: seq<Move>)
    requires WellFormed(P) && IsColour(turn) && AllSquares(chain) && 0 <= k < |chain|
    ensures forall m :: m in r <==> m.to == chain[k] && PromotedQuiet(P, turn, m)
    ensures AllGood(P, r)
  {
    if IsEmpty(P, chain[k]) then PromotedMovesTo(P, chain[k], turn, 8) else []
  }

  /** The second chain phase over the squares chain[0 .. k - 1]: every quiet move of a
      promoted pawn onto one of them. */
  function PromotedChainMoves(P: Position, turn: int, chain: seq<int>, k: int): (r: seq<Move>)
    requires WellFormed(P) && IsColour(turn) && AllSquares(chain) && 0 <= k <= |chain|
    ensures forall m :: m in r <==> m.to in chain[..k] && PromotedQuiet(P, turn, m)
    ensures AllGood(P, r)
  {
    if k == 0 then []
    else
      assert chain[..k] == chain[..k - 1] + [chain[k - 1]];
      PromotedChainMoves(P, turn, chain, k - 1) + PromotedChainAt(P, turn, chain, k - 1)
  }

  /** Walking the whole chain, the two chain phases list every quiet move of a knight ..
      king, and every quiet move of a promoted pawn, wherever it goes. */
  lemma ChainPhasesComplete(P: Position, turn: int)
    requires WellFormed(P) && IsColour(turn)
    ensures AllSquares(Order) && |Order| == 64
    ensures forall m :: m in ChainMoves(P, turn, Order, 64) <==> PieceQuiet(P, turn, m)
    ensures forall m :: m in PromotedChainMoves(P, turn, Order, 64) <==> PromotedQuiet(P, turn, m)
  {
    NextLocationFollowsOrder();
    ChainVisitsEverySquareOnce();
    assert Order[..64] == Order;
  }

  // ----- pawn pushes -----

  /** The rank a colour's pawns start on. */
  function StartRow(turn: int): int { if turn == WHITE then 1 else 6 }

  /** m pushes a pawn of `colour` one square, or two from its start rank, onto empty squares
      off the end ranks. */
  predicate PawnPush(P: Position, colour: int, m: Move)
    requires Shaped(P)
  {
    && ByColour(P, colour, m) && P.board[m.from] < colour + KNIGHT1 && Piece(P, m.from) == PAWN
    && IsSquare(m.from + ForwardStep(colour)) && IsEmpty(P, m.from + ForwardStep(colour))
    && !EndRow(m.from + ForwardStep(colour))
    && (|| m.to == m.from + ForwardStep(colour)
        || (Y(m.from) == StartRow(colour) && m.to == m.from + 2 * ForwardStep(colour) && IsEmpty(P, m.to)))
  }

  /** The pushes of the pawn in slot turn + i: a single step unless it reaches an end
      rank (those were registered as promotions), then the double step from the start rank. */
  function PushesBy(P: Position, turn: int, i: int): (r: seq<Move>)
    requires WellFormed(P) && IsColour(turn) && 0 <= i < 8
    ensures |r| <= 2
    ensures r != [] ==> r[0].to == r[0].from + ForwardStep(turn)
    ensures forall m :: m in r ==>
      ByColour(P, turn, m) && Piece(P, m.from) == PAWN && IsEmpty(P, m.to) && !EndRow(m.to)
    ensures AllGood(P, r)
  {
    var s := turn + i;
    if Alive(P, s) && (SlotSquare(P, s); Piece(P, P.location[s]) == PAWN) then
      var from := P.location[s];
      var step := ForwardStep(turn);
      var startRow := StartRow(turn);
      var to := from + step;
      if IsEmpty(P, to) && !EndRow(to) then
        PlainMoveGood(P, Move(from, to));
        if Y(from) == startRow && IsEmpty(P, to + step) then
          [Move(from, to), Move(from, to + step)]
        else [Move(from, to)]
      else []
    else []
  }

  /** The pawn in slot turn + i registers exactly its pushes. */
  lemma PushesByIff(P: Position, turn: int, i: int)
    requires WellFormed(P) && IsColour(turn) && 0 <= i < 8
    ensures forall m :: m in PushesBy(P, turn, i) <==> PawnPush(P, turn, m) && P.board[m.from] == turn + i
  {
    var r := PushesBy(P, turn, i);
    forall m | m in r
      ensures PawnPush(P, turn, m) && P.board[m.from] == turn + i
    {
      SlotSquare(P, turn + i);
    }
    forall m | PawnPush(P, turn, m) && P.board[m.from] == turn + i
      ensures m in r
    {
      SlotMoves(P, turn + i);
      SlotSquare(P, turn + i);
      if m.to != m.from + ForwardStep(turn) {
        assert r == [Move(m.from, m.from + ForwardStep(turn)), m];
      }
    }
  }

  /** The pawn phase after pawns turn + 7 down to turn + lo: every push of those pawns. */
  function PawnPushes(P: Position, turn: int, lo: int): (r: seq<Move>)
    requires WellFormed(P) && IsColour(turn) && 0 <= lo <= 8
    ensures forall m :: m in r <==> PawnPush(P, turn, m) && turn + lo <= P.board[m.from]
    ensures forall m :: m in r ==>
      ByColour(P, turn, m) && Piece(P, m.from) == PAWN && IsEmpty(P, m.to) && !EndRow(m.to)
    ensures AllGood(P, r)
    decreases 8 - lo
  {
    if lo == 8 then [] else PushesByIff(P, turn, lo); PawnPushes(P, turn, lo + 1) + PushesBy(P, turn, lo)
  }

  // ----- en passant -----

  /** The position of the en-passant block: the double-stepped pawn pretended one square back. */
  function PretendPosition(P: Position, last: Move): (Q: Position)
    requires WellFormed(P) && LastOk(P, last) && IsDoubleStep(P, last)
    ensures Sound(Q) && Q.types == P.types
    ensures Q.board[PretendSquare(P, last)] == P.board[last.to] && IsEmpty(Q, last.to)
    ensures Q.location[P.board[last.to]] == PretendSquare(P, last)
    ensures forall sq :: 0 <= sq < 64 && sq != last.to && sq != PretendSquare(P, last) ==>
      Q.board[sq] == P.board[sq]
    ensures forall s :: 0 <= s < 32 && s != P.board[last.to] ==> Q.location[s] == P.location[s]
  {
    var pawn := P.board[last.to];
    var pretend := PretendSquare(P, last);
    Position(P.board[pretend := pawn][last.to := EMPTY], P.location[pawn := pretend], P.types)
  }

  /** m takes en passant the enemy pawn that has just made a double step: a pawn of
      `colour` in a pawn slot moves diagonally forward onto the square it passed. */
  predicate EnPassantCapture(P: Position, colour: int, last: Move, m: Move)
    requires Shaped(P) && IsSquare(last.to) && !IsEmpty(P, last.to)
  {
    && ByColour(P, colour, m) && P.board[m.from] < colour + KNIGHT1 && Piece(P, m.from) == PAWN
    && Colour(P, last.to) == Adverse(colour) && m.to == PretendSquare(P, last)
    && Abs(X(m.from) - X(m.to)) == 1 && Y(m.to) - Y(m.from) == ForwardDir(colour)
  }

  /** The en-passant capture by the pawn in slot turn + i, taken on the pretend position. */
  function EnPassantBy(P: Position, turn: int, last: Move, i: int): (r: seq<Move>)
    requires WellFormed(P) && IsColour(turn) && LastOk(P, last) && IsDoubleStep(P, last) && 0 <= i < 8
    ensures |r| <= 1
    ensures forall m :: m in r <==> EnPassantCapture(P, turn, last, m) && P.board[m.from] == turn + i
    ensures forall m :: m in r ==>
      && ByColour(P, turn, m) && m.to == PretendSquare(P, last) && IsEnPassant(P, m)
      && Y(m.to) - Y(m.from) == ForwardDir(turn)
    ensures AllGood(P, r)
  {
    var Q := PretendPosition(P, last);
    var pretend := PretendSquare(P, last);
    var s := turn + i;
    SlotMoves(P, s);
    if Alive(Q, s) && (SlotSquare(Q, s); Piece(Q, Q.location[s]) == PAWN)
      && CanPawnTake(Q, Q.location[s], pretend) then
      var from := Q.location[s];
      assert s != P.board[last.to];
      SlotSquare(P, s);
      PlainMoveGood(P, Move(from, pretend));
      [Move(from, pretend)]
    else
      PretendCaptureNeedsEnemy(P, turn, last, i);
      []
  }

  /** On the pretend position, a pawn of turn + i that can take the pretend square is a
      pawn of the other colour than the double-stepped one, on the same square as before. */
  lemma PretendCaptureNeedsEnemy(P: Position, turn: int, last: Move, i: int)
    requires WellFormed(P) && IsColour(turn) && LastOk(P, last) && IsDoubleStep(P, last) && 0 <= i < 8
    ensures forall m :: EnPassantCapture(P, turn, last, m) && P.board[m.from] == turn + i ==>
      var Q := PretendPosition(P, last);
      && Alive(Q, turn + i) && Q.location[turn + i] == m.from && !IsEmpty(Q, m.from)
      && Piece(Q, m.from) == PAWN && CanPawnTake(Q, m.from, PretendSquare(P, last))
  {
  }

  /** The en-passant block after pawns turn + 0 .. turn + n - 1. */
  function EnPassantMoves(P: Position, turn: int, last: Move, n: int): (r: seq<Move>)
    requires WellFormed(P) && IsColour(turn) && LastOk(P, last) && IsDoubleStep(P, last) && 0 <= n <= 8
    ensures forall m :: m in r <==> EnPassantCapture(P, turn, last, m) && P.board[m.from] < turn + n
    ensures forall m :: m in r ==> ByColour(P, turn, m) && IsEnPassant(P, m)
    ensures AllGood(P, r)
  {
    if n == 0 then [] else EnPassantMoves(P, turn, last, n - 1) + EnPassantBy(P, turn, last, n - 1)
  }

  /** The en-passant phase: after a pawn's double step, every capture of it by a pawn;
      otherwise nothing. */
  function EnPassant(P: Position, turn: int, last: Move): (r: seq<Move>)
    requires WellFormed(P) && IsColour(turn) && LastOk(P, last)
    ensures forall m :: m in r <==> IsDoubleStep(P, last) && EnPassantCapture(P, turn, last, m)
    ensures forall m :: m in r ==> ByColour(P, turn, m) && IsEnPassant(P, m)
    ensures AllGood(P, r)
  {
    if IsDoubleStep(P, last) then EnPassantMoves(P, turn, last, 8) else []
  }

  /** search_moves when the side is not in check, phase by phase. */
  function NormalMoves(P: Position, turn: int, last: Move): (r: seq<Move>)
    requires WellFormed(P) && IsColour(turn) && LastOk(P, last)
    ensures Playable(P, turn, r)
  {
    var e := EnPassant(P, turn, last);
    var c := Captures(P, turn, 0);
    var p := Promotions(P, turn, 8);
    var k := Castling(P, turn);
    NextLocationFollowsOrder();
    var q := ChainMoves(P, turn, Order, 64);
    var pq := PromotedChainMoves(P, turn, Order, 64);
    var w := PawnPushes(P, turn, 0);
    PlayableOne(P, turn, e);
    PlayableOne(P, turn, c);
    PlayableOne(P, turn, p);
    PlayableOne(P, turn, k);
    PlayableOne(P, turn, q);
    PlayableOne(P, turn, pq);
    PlayableOne(P, turn, w);
    PlayableJoin(P, turn, e, c);
    PlayableJoin(P, turn, e + c, p);
    PlayableJoin(P, turn, e + c + p, k);
    PlayableJoin(P, turn, e + c + p + k, q);
    PlayableJoin(P, turn, e + c + p + k + q, pq);
    PlayableJoin(P, turn, e + c + p + k + q + pq, w);
    e + c + p + k + q + pq + w
  }

  // ----- evasions -----

  /** The king's eight directions, in the order of try_king_take and try_king_move
      (which walk them from the last to the first). */
  const KingDX: seq<int> := [-1, 1, 0, -1, 1, 0, -1, 1]
  const KingDY: seq<int> := [0, -1, -1, -1, 1, 1, 1, 0]

  predicate Adjacent(a: int, b: int) {
    a != b && Abs(X(a) - X(b)) <= 1 && Abs(Y(a) - Y(b)) <= 1
  }

  /** The square in direction dir from the king, if it is on the board. */
  function KingTarget(kingPos: int, dir: int): (r: Option<int>)
    requires IsSquare(kingPos) && 0 <= dir < 8
    ensures r.Some? ==> IsSquare(r.value) && Adjacent(kingPos, r.value)
  {
    var x2, y2 := X(kingPos) + KingDX[dir], Y(kingPos) + KingDY[dir];
    if OnBoard(x2, y2) then Some(Sq(x2, y2)) else None
  }

  /** The king on kingPos captures an adjacent enemy piece no enemy piece protects. */
  predicate SafeKingTake(P: Position, kingPos: int, m: Move)
    requires WellFormed(P) && IsSquare(kingPos) && !IsEmpty(P, kingPos)
  {
    && m.from == kingPos && IsSquare(m.to) && Adjacent(kingPos, m.to)
    && !IsEmpty(P, m.to) && !SameColour(P, kingPos, m.to)
    && !Protected(P, m.to, Adverse(Colour(P, kingPos)))
  }

  /** The king on kingPos steps to an adjacent empty square no enemy piece attacks. */
  predicate SafeKingStep(P: Position, kingPos: int, m: Move)
    requires WellFormed(P) && IsSquare(kingPos) && !IsEmpty(P, kingPos)
  {
    && m.from == kingPos && IsSquare(m.to) && Adjacent(kingPos, m.to)
    && IsEmpty(P, m.to) && !Threatened(P, m.to, Adverse(Colour(P, kingPos)))
  }

  /** The index in KingDX / KingDY of the direction from a square to an adjacent one. */
  function KingDir(from: int, to: int): (d: int)
    ensures 0 <= d < 8
  {
    var dx, dy := X(to) - X(from), Y(to) - Y(from);
    if dy == 0 then (if dx < 0 then 0 else 7)
    else if dy < 0 then (if dx > 0 then 1 else if dx == 0 then 2 else 3)
    else (if dx > 0 then 4 else if dx == 0 then 5 else 6)
  }

  /** The eight directions reach exactly the adjacent squares, each through its own index. */
  lemma KingDirections(kingPos: int)
    requires IsSquare(kingPos)
    ensures forall d :: 0 <= d < 8 && KingTarget(kingPos, d).Some? ==> KingDir(kingPos, KingTarget(kingPos, d).value) == d
    ensures forall to :: IsSquare(to) && Adjacent(kingPos, to) ==> KingTarget(kingPos, KingDir(kingPos, to)) == Some(to)
  {
    forall d | 0 <= d < 8 && KingTarget(kingPos, d).Some?
      ensures KingDir(kingPos, KingTarget(kingPos, d).value) == d
    {
      var x2, y2 := X(kingPos) + KingDX[d], Y(kingPos) + KingDY[d];
      assert X(Sq(x2, y2)) == x2 && Y(Sq(x2, y2)) == y2;
    }
    forall to | IsSquare(to) && Adjacent(kingPos, to)
      ensures KingTarget(kingPos, KingDir(kingPos, to)) == Some(to)
    {
      var d := KingDir(kingPos, to);
      assert X(kingPos) + KingDX[d] == X(to) && Y(kingPos) + KingDY[d] == Y(to);
      assert Sq(X(to), Y(to)) == to;
    }
  }

  /** try_king_take's registration for direction dir: the capture there exactly when it is safe. */
  function KingTakeTo(P: Position, kingPos: int, dir: int): (r: seq<Move>)
    requires WellFormed(P) && IsSquare(kingPos) && !IsEmpty(P, kingPos) && Piece(P, kingPos) == KING
    requires 0 <= dir < 8
    ensures |r| <= 1
    ensures forall m :: m in r ==> SafeKingTake(P, kingPos, m) && KingTarget(kingPos, dir) == Some(m.to)
    ensures AllGood(P, r)
  {
    match KingTarget(kingPos, dir)
    case None => []
    case Some(to) =>
      if IsEmpty(P, to) || SameColour(P, kingPos, to) then []
      else if !Protected(P, to, Adverse(Colour(P, kingPos))) then
        PlainMoveGood(P, Move(kingPos, to)); [Move(kingPos, to)]
      else []
  }

  /** try_king_take registers the capture in direction dir exactly when it is safe. */
  lemma KingTakeToIff(P: Position, kingPos: int, dir: int)
    requires WellFormed(P) && IsSquare(kingPos) && !IsEmpty(P, kingPos) && Piece(P, kingPos) == KING
    requires 0 <= dir < 8
    ensures KingTakeTo(P, kingPos, dir) != [] <==>
      KingTarget(kingPos, dir).Some? && SafeKingTake(P, kingPos, Move(kingPos, KingTarget(kingPos, dir).value))
  {
  }

  /** try_king_take after directions 7 down to lo: every safe capture in those directions. */
  function KingTakes(P: Position, kingPos: int, lo: int): (r: seq<Move>)
    requires WellFormed(P) && IsSquare(kingPos) && !IsEmpty(P, kingPos) && Piece(P, kingPos) == KING
    requires 0 <= lo <= 8
    ensures forall m :: m in r <==> SafeKingTake(P, kingPos, m) && lo <= KingDir(kingPos, m.to)
    ensures AllGood(P, r)
    decreases 8 - lo
  {
    if lo == 8 then []
    else
      KingDirections(kingPos);
      KingTakeToIff(P, kingPos, lo);
      KingTakes(P, kingPos, lo + 1) + KingTakeTo(P, kingPos, lo)
  }

  /** try_king_move's registration for direction dir: the step there exactly when it is safe. */
  function KingStepTo(P: Position, kingPos: int, dir: int): (r: seq<Move>)
    requires WellFormed(P) && IsSquare(kingPos) && !IsEmpty(P, kingPos) && Piece(P, kingPos) == KING
    requires 0 <= dir < 8
    ensures |r| <= 1
    ensures forall m :: m in r ==> SafeKingStep(P, kingPos, m) && KingTarget(kingPos, dir) == Some(m.to)
    ensures AllGood(P, r)
  {
    match KingTarget(kingPos, dir)
    case None => []
    case Some(to) =>
      if !IsEmpty(P, to) then []
      else if !Threatened(P, to, Adverse(Colour(P, kingPos))) then
        PlainMoveGood(P, Move(kingPos, to)); [Move(kingPos, to)]
      else []
  }

  /** try_king_move registers the step in direction dir exactly when it is safe. */
  lemma KingStepToIff(P: Position, kingPos: int, dir: int)
    requires WellFormed(P) && IsSquare(kingPos) && !IsEmpty(P, kingPos) && Piece(P, kingPos) == KING
    requires 0 <= dir < 8
    ensures KingStepTo(P, kingPos, dir) != [] <==>
      KingTarget(kingPos, dir).Some? && SafeKingStep(P, kingPos, Move(kingPos, KingTarget(kingPos, dir).value))
  {
  }

  /** try_king_move after directions 7 down to lo: every safe step in those directions. */
  function KingSteps(P: Position, kingPos: int, lo: int): (r: seq<Move>)
    requires WellFormed(P) && IsSquare(kingPos) && !IsEmpty(P, kingPos) && Piece(P, kingPos) == KING
    requires 0 <= lo <= 8
    ensures forall m :: m in r <==> SafeKingStep(P, kingPos, m) && lo <= KingDir(kingPos, m.to)
    ensures AllGood(P, r)
    decreases 8 - lo
  {
    if lo == 8 then []
    else
      KingDirections(kingPos);
      KingStepToIff(P, kingPos, lo);
      KingSteps(P, kingPos, lo + 1) + KingStepTo(P, kingPos, lo)
  }

  /** The number of checkers among slots attacker + 0 .. attacker + n - 1 (never the king). */
  function CountCheckers(P: Position, kingPos: int, attacker: int, n: int): (r: int)
    requires WellFormed(P) && IsSquare(kingPos) && IsColour(attacker) && 0 <= n <= 15
    ensures 0 <= r <= n
    ensures r == 0 <==>
      forall s :: attacker <= s < attacker + n && Alive(P, s) ==> !CanTake(P, P.location[s], kingPos)
  {
    if n == 0 then 0
    else
      var s := attacker + n - 1;
      CountCheckers(P, kingPos, attacker, n - 1)
        + if Alive(P, s) && CanTake(P, P.location[s], kingPos) then 1 else 0
  }

  /** The piece of slot s is alive and can take the king's square. */
  predicate Checks(P: Position, kingPos: int, s: int)
    requires WellFormed(P) && IsSquare(kingPos)
  {
    IsSlot(s) && Alive(P, s) && CanTake(P, P.location[s], kingPos)
  }

  /** The test Checks for every slot, as one function. */
  function CheckTest(P: Position, kingPos: int): int -> bool
    requires WellFormed(P) && IsSquare(kingPos)
  {
    s => Checks(P, kingPos, s)
  }

  /** The number of k among lo .. lo + n - 1 for which f holds. */
  ghost function CountOf(f: int -> bool, lo: int, n: nat): (r: nat)
    ensures r <= n
  {
    if n == 0 then 0 else CountOf(f, lo, n - 1) + if f(lo + n - 1) then 1 else 0
  }

  /** The count is positive exactly when some k passes, and above one exactly when two
      different k pass. */
  lemma {:induction false} CountOfTwo(f: int -> bool, lo: int, n: nat)
    ensures CountOf(f, lo, n) > 0 <==> exists s :: lo <= s < lo + n && f(s)
    ensures CountOf(f, lo, n) > 1 <==> exists s, t :: lo <= s < t < lo + n && f(s) && f(t)
  {
    if n > 0 {
      CountOfTwo(f, lo, n - 1);
      var u := lo + n - 1;
      var c := CountOf(f, lo, n - 1);
      if c > 0 {
        var s :| lo <= s < lo + n - 1 && f(s);
        assert lo <= s < lo + n;
      }
      if CountOf(f, lo, n) > 1 && c <= 1 {
        var s :| lo <= s < lo + n - 1 && f(s);
        assert lo <= s < u < lo + n && f(s) && f(u);
      }
      if exists s, t :: lo <= s < t < lo + n && f(s) && f(t) {
        var s, t :| lo <= s < t < lo + n && f(s) && f(t);
        if t == u {
          assert lo <= s < lo + n - 1;
        } else {
          assert lo <= s < t < lo + n - 1;
        }
      }
    }
  }

  /** CountCheckers counts the slots that give check. */
  lemma {:induction false} CountCheckersOf(P: Position, kingPos: int, attacker: int, n: int)
    requires WellFormed(P) && IsSquare(kingPos) && IsColour(attacker) && 0 <= n <= 15
    ensures CountCheckers(P, kingPos, attacker, n) == CountOf(CheckTest(P, kingPos), attacker, n)
  {
    if n > 0 {
      CountCheckersOf(P, kingPos, attacker, n - 1);
      assert CheckTest(P, kingPos)(attacker + n - 1) == Checks(P, kingPos, attacker + n - 1);
    }
  }

  /** The count exceeds one exactly when two different slots among the first n give check. */
  lemma TwoCheckers(P: Position, kingPos: int, attacker: int, n: int)
    requires WellFormed(P) && IsSquare(kingPos) && IsColour(attacker) && 0 <= n <= 15
    ensures CountCheckers(P, kingPos, attacker, n) > 1 <==>
      exists s, t :: attacker <= s < t < attacker + n && Checks(P, kingPos, s) && Checks(P, kingPos, t)
  {
    var f := CheckTest(P, kingPos);
    CountCheckersOf(P, kingPos, attacker, n);
    CountOfTwo(f, attacker, n);
    if exists s, t :: attacker <= s < t < attacker + n && Checks(P, kingPos, s) && Checks(P, kingPos, t) {
      var s, t :| attacker <= s < t < attacker + n && Checks(P, kingPos, s) && Checks(P, kingPos, t);
      assert f(s) && f(t);
    }
    if exists s, t :: attacker <= s < t < attacker + n && f(s) && f(t) {
      var s, t :| attacker <= s < t < attacker + n && f(s) && f(t);
      assert Checks(P, kingPos, s) && Checks(P, kingPos, t);
    }
  }

  /** The capture of the checker on a by the piece of slot turn + i. */
  function CheckerCaptureBy(P: Position, turn: int, a: int, i: int): (r: seq<Move>)
    requires WellFormed(P) && IsColour(turn) && IsSquare(a) && 0 <= i < 15
    ensures |r| <= 1
    ensures forall m :: m in r ==> m.to == a && CaptureBy(P, turn, m) && P.board[m.from] == turn + i
    ensures AllGood(P, r)
  {
    var s := turn + i;
    if Alive(P, s) && CanTake(P, P.location[s], a) then
      SlotSquare(P, s); CaptureGood(P, turn, Move(P.location[s], a)); [Move(P.location[s], a)]
    else []
  }

  /** Slot turn + i registers its capture of the checker exactly when it is alive and can take it. */
  lemma CheckerCaptureByIff(P: Position, turn: int, a: int, i: int)
    requires WellFormed(P) && IsColour(turn) && IsSquare(a) && 0 <= i < 15
    ensures CheckerCaptureBy(P, turn, a, i) != [] <==> Alive(P, turn + i) && CanTake(P, P.location[turn + i], a)
  {
  }

  /** The captures of the checker on a by pieces of slots turn + 0 .. turn + n - 1 (not the
      king): every capture of a by those pieces. */
  function CheckerCaptures(P: Position, turn: int, a: int, n: int): (r: seq<Move>)
    requires WellFormed(P) && IsColour(turn) && IsSquare(a) && 0 <= n <= 15
    ensures forall m :: m in r <==> m.to == a && CaptureBy(P, turn, m) && P.board[m.from] < turn + n
    ensures forall m :: m in r ==> CheckerCapture(P, turn, a, m)
    ensures AllGood(P, r)
  {
    if n == 0 then []
    else
      var r0, b := CheckerCaptures(P, turn, a, n - 1), CheckerCaptureBy(P, turn, a, n - 1);
      SlotMoves(P, turn + n - 1);
      CheckerCaptureByIff(P, turn, a, n - 1);
      r0 + b
  }

  /** A pawn of `colour` blocking on the empty square pos by a single or a double step. */
  predicate PawnBlock(P: Position, colour: int, m: Move)
    requires Shaped(P)
  {
    && ByColour(P, colour, m) && Piece(P, m.from) == PAWN && IsEmpty(P, m.to)
    && (IsPawnMove(P, m.from, m.to) || IsPawnEntry(P, m.from, m.to))
  }

  /** The single step, then the double step, of the pawn in slot turn + i onto pos: at most
      one of them applies. */
  function PawnBlockBy(P: Position, turn: int, pos: int, i: int): (r: seq<Move>)
    requires WellFormed(P) && IsColour(turn) && IsSquare(pos) && IsEmpty(P, pos) && 0 <= i < 8
    ensures |r| <= 1
    ensures forall m :: m in r <==> m.to == pos && PawnBlock(P, turn, m) && P.board[m.from] == turn + i
    ensures AllGood(P, r)
  {
    var s := turn + i;
    if Alive(P, s) && P.types[s] == PAWN then
      var from := P.location[s];
      SlotSquare(P, s);
      var single := if IsPawnMove(P, from, pos) then PlainMoveGood(P, Move(from, pos)); [Move(from, pos)] else [];
      var double := if IsPawnEntry(P, from, pos) then [Move(from, pos)] else [];
      single + double
    else
      SlotMoves(P, s);
      []
  }

  /** The pawn blocks onto pos after pawns turn + 0 .. turn + n - 1: every single or double
      step of those pawns onto pos. */
  function PawnBlocks(P: Position, turn: int, pos: int, n: int): (r: seq<Move>)
    requires WellFormed(P) && IsColour(turn) && IsSquare(pos) && IsEmpty(P, pos) && 0 <= n <= 8
    ensures forall m :: m in r <==> m.to == pos && PawnBlock(P, turn, m) && P.board[m.from] < turn + n
    ensures AllGood(P, r)
  {
    if n == 0 then [] else PawnBlocks(P, turn, pos, n - 1) + PawnBlockBy(P, turn, pos, n - 1)
  }

  /** m moves a piece of `colour` other than the king onto an empty square, as the shield
      loop tries them: a knight .. queen by its predicate, a promoted pawn by its predicate,
      or a pawn by its single or double step. */
  predicate Blocker(P: Position, colour: int, m: Move)
    requires Shaped(P)
  {
    || (QuietBy(P, colour, m) && colour + KNIGHT1 <= P.board[m.from] < colour + KING1)
    || PromotedQuiet(P, colour, m)
    || (PawnBlock(P, colour, m) && P.board[m.from] < colour + KNIGHT1)
  }

  /** The moves of `turn` onto the empty shield square pos: knights to queen, promoted
      pawns, then pawns; every blocker onto pos. */
  function BlocksTo(P: Position, turn: int, pos: int): (r: seq<Move>)
    requires WellFormed(P) && IsColour(turn) && IsSquare(pos) && IsEmpty(P, pos)
    ensures forall m :: m in r <==> m.to == pos && Blocker(P, turn, m)
    ensures forall m :: m in r ==>
      m.to == pos && ByColour(P, turn, m) && P.board[m.from] != turn + KING1 && IsEmpty(P, m.to)
    ensures AllGood(P, r)
  {
    var pieces, promoted, pawns := PieceMovesTo(P, pos, turn, 15), PromotedMovesTo(P, pos, turn, 8), PawnBlocks(P, turn, pos, 8);
    pieces + promoted + pawns
  }

  /** The squares strictly between the checker on a and the king, from a's side. */
  function LineSquares(a: int, kingPos: int): seq<int> {
    seq(Max(Dist(a, kingPos) - 1, 0), j => Between(a, kingPos, j + 1))
  }

  /** sq lies strictly between a and b on the line joining them. */
  predicate StrictlyBetween(a: int, b: int, sq: int) {
    exists k :: 1 <= k < Dist(a, b) && sq == Between(a, b, k)
  }

  /** Every square of the list is an empty square of the board. */
  predicate EmptySquares(P: Position, squares: seq<int>)
    requires Shaped(P)
  {
    forall i :: 0 <= i < |squares| ==> IsSquare(squares[i]) && IsEmpty(P, squares[i])
  }

  /** The line is walked from a + step to the king by steps of step, the source's
      (dx, dy) direction; its squares are empty, and they are the squares strictly between. */
  lemma LineSteps(P: Position, a: int, kingPos: int)
    requires Shaped(P) && OpenLine(P, a, kingPos)
    ensures var line, step := LineSquares(a, kingPos), Sgn(X(kingPos) - X(a)) + Sgn(Y(kingPos) - Y(a)) * 8;
      && EmptySquares(P, line)
      && (if |line| == 0 then kingPos == a + step else line[0] == a + step && kingPos == line[|line| - 1] + step)
      && (forall j :: 0 <= j < |line| - 1 ==> line[j + 1] == line[j] + step)
      && forall sq :: sq in line <==> StrictlyBetween(a, kingPos, sq)
  {
    var line := LineSquares(a, kingPos);
    forall k | 0 <= k <= |line| {
      BetweenNext(a, kingPos, k);
    }
    LineSquaresBetween(a, kingPos);
  }

  /** The line's squares are the squares strictly between. */
  lemma LineSquaresBetween(a: int, kingPos: int)
    ensures forall sq :: sq in LineSquares(a, kingPos) <==> StrictlyBetween(a, kingPos, sq)
  {
    var line := LineSquares(a, kingPos);
    forall sq | StrictlyBetween(a, kingPos, sq)
      ensures sq in line
    {
      var k :| 1 <= k < Dist(a, kingPos) && sq == Between(a, kingPos, k);
      assert line[k - 1] == sq;
    }
    forall sq | sq in line
      ensures StrictlyBetween(a, kingPos, sq)
    {
      var j :| 0 <= j < |line| && line[j] == sq;
      assert sq == Between(a, kingPos, j + 1);
    }
  }

  /** The interpositions on the first n shield squares, in the order of the list: every
      blocker onto one of them. */
  function Shields(P: Position, turn: int, squares: seq<int>, n: int): (r: seq<Move>)
    requires WellFormed(P) && IsColour(turn) && EmptySquares(P, squares) && 0 <= n <= |squares|
    ensures forall m :: m in r <==> m.to in squares[..n] && Blocker(P, turn, m)
    ensures forall m :: m in r ==>
      ByColour(P, turn, m) && P.board[m.from] != turn + KING1 && IsEmpty(P, m.to) && m.to in squares
    ensures AllGood(P, r)
  {
    if n == 0 then []
    else
      assert squares[..n] == squares[..n - 1] + [squares[n - 1]];
      Shields(P, turn, squares, n - 1) + BlocksTo(P, turn, squares[n - 1])
  }

  /** The interpositions against the checker on a: none against a pawn or a knight, and
      otherwise every blocker onto a square strictly between the checker and the king. */
  function Interpositions(P: Position, turn: int, a: int): (r: seq<Move>)
    requires WellFormed(P) && IsColour(turn) && Alive(P, turn + KING1)
    requires IsSquare(a) && !IsEmpty(P, a) && Colour(P, a) == Adverse(turn) && Piece(P, a) != KING
    requires CanTake(P, a, P.location[turn + KING1])
    ensures forall m :: m in r <==>
      && Piece(P, a) != PAWN && Piece(P, a) != KNIGHT
      && Blocker(P, turn, m) && StrictlyBetween(a, P.location[turn + KING1], m.to)
    ensures AllInterpose(P, turn, a, P.location[turn + KING1], r)
    ensures AllGood(P, r)
  {
    SlotSquare(P, turn + KING1);
    var kingPos := P.location[turn + KING1];
    if Piece(P, a) != PAWN && Piece(P, a) != KNIGHT then
      CanTakeIff(P, a, kingPos);
      LineSteps(P, a, kingPos);
      var line := LineSquares(a, kingPos);
      assert line[..|line|] == line;
      Shields(P, turn, line, |line|)
    else []
  }

  /** The interposition phase is the shield walk along the line from a line-piece checker
      to the king, and nothing when the checker is a pawn or a knight. */
  lemma InterpositionsLine(P: Position, turn: int, a: int)
    requires WellFormed(P) && IsColour(turn) && Alive(P, turn + KING1)
    requires IsSquare(a) && !IsEmpty(P, a) && Colour(P, a) == Adverse(turn) && Piece(P, a) != KING
    requires CanTake(P, a, P.location[turn + KING1])
    ensures IsSquare(P.location[turn + KING1]) && !IsEmpty(P, P.location[turn + KING1])
    ensures Piece(P, a) != PAWN && Piece(P, a) != KNIGHT ==>
      var kingPos := P.location[turn + KING1];
      && OpenLine(P, a, kingPos)
      && Interpositions(P, turn, a) == Shields(P, turn, LineSquares(a, kingPos), |LineSquares(a, kingPos)|)
    ensures Piece(P, a) == PAWN || Piece(P, a) == KNIGHT ==> Interpositions(P, turn, a) == []
  {
    SlotSquare(P, turn + KING1);
    if Piece(P, a) != PAWN && Piece(P, a) != KNIGHT {
      CanTakeIff(P, a, P.location[turn + KING1]);
    }
  }

  /** The evasions from a double check: only the king can move, captures first. */
  function DoubleCheckEvasions(P: Position, turn: int): (r: seq<Move>)
    requires WellFormed(P) && IsColour(turn) && Alive(P, turn + KING1)
    ensures Playable(P, turn, r)
  {
    SlotSquare(P, turn + KING1);
    var kingPos := P.location[turn + KING1];
    var takes, steps := KingTakes(P, kingPos, 0), KingSteps(P, kingPos, 0);
    PlayableAppend(P, turn, takes, steps);
    takes + steps
  }

  /** The evasions from the single checker on a: its captures, the king's captures, the
      interpositions when a attacks along a line, then the king's steps. */
  function SingleCheckEvasions(P: Position, turn: int, a: int): (r: seq<Move>)
    requires WellFormed(P) && IsColour(turn) && Alive(P, turn + KING1)
    requires IsSquare(a) && !IsEmpty(P, a) && Colour(P, a) == Adverse(turn) && Piece(P, a) != KING
    requires CanTake(P, a, P.location[turn + KING1])
    ensures Playable(P, turn, r)
  {
    SlotSquare(P, turn + KING1);
    var kingPos := P.location[turn + KING1];
    var captures := CheckerCaptures(P, turn, a, 15);
    var takes, steps := KingTakes(P, kingPos, 0), KingSteps(P, kingPos, 0);
    var blocks := Interpositions(P, turn, a);
    PlayableAppend(P, turn, captures, takes);
    PlayableAppend(P, turn, blocks, steps);
    PlayableJoin(P, turn, captures + takes, blocks + steps);
    captures + takes + (blocks + steps)
  }

  /** search_moves_under_check: a double check leaves only king moves; a single checker
      must be found among the enemy pieces other than the king. */
  function Evasions(P: Position, turn: int): (r: Result<seq<Move>, GenError>)
    requires WellFormed(P) && IsColour(turn) && Alive(P, turn + KING1)
    ensures r.Ok? ==> Playable(P, turn, r.value)
    ensures r.Err? ==> r.error == NoChecker
  {
    SlotSquare(P, turn + KING1);
    var kingPos := P.location[turn + KING1];
    if CountCheckers(P, kingPos, Adverse(turn), 15) > 1 then Ok(DoubleCheckEvasions(P, turn))
    else
      match FindKingAttacker(P, turn)
      case None => Err(NoChecker)
      case Some(a) => Ok(SingleCheckEvasions(P, turn, a))
  }

  // ----- search_moves -----

  /** search_moves: the evasions when the side's king is attacked, the normal phases otherwise. */
  function Generate(P: Position, turn: int, last: Move): (r: Result<seq<Move>, GenError>)
    requires WellFormed(P) && IsColour(turn) && LastOk(P, last)
    ensures r.Ok? ==> Playable(P, turn, r.value)
    ensures r == Err(KingMissing) <==> !Alive(P, turn + KING1)
  {
    if !Alive(P, turn + KING1) then Err(KingMissing)
    else if Threatened(P, P.location[turn + KING1], Adverse(turn)) then Evasions(P, turn)
    else Ok(NormalMoves(P, turn, last))
  }

  // ----- what the evasion list holds -----

  /** ms is some safe king captures followed by some safe king steps. */
  predicate KingTakesThenSteps(P: Position, kingPos: int, ms: seq<Move>)
    requires WellFormed(P) && IsSquare(kingPos) && !IsEmpty(P, kingPos)
  {
    exists j :: 0 <= j <= |ms| && AllSafeTakes(P, kingPos, ms[..j]) && AllSafeSteps(P, kingPos, ms[j..])
  }

  predicate AllSafeTakes(P: Position, kingPos: int, ms: seq<Move>)
    requires WellFormed(P) && IsSquare(kingPos) && !IsEmpty(P, kingPos)
  {
    forall m :: m in ms ==> SafeKingTake(P, kingPos, m)
  }

  predicate AllSafeSteps(P: Position, kingPos: int, ms: seq<Move>)
    requires WellFormed(P) && IsSquare(kingPos) && !IsEmpty(P, kingPos)
  {
    forall m :: m in ms ==> SafeKingStep(P, kingPos, m)
  }

  /** The double-check list is the king's safe captures followed by its safe steps, and it
      holds every safe capture and every safe step of the king. */
  lemma DoubleCheckList(P: Position, turn: int)
    requires WellFormed(P) && IsColour(turn) && Alive(P, turn + KING1)
    ensures KingTakesThenSteps(P, P.location[turn + KING1], DoubleCheckEvasions(P, turn))
    ensures forall m :: m in DoubleCheckEvasions(P, turn) <==>
      SafeKingTake(P, P.location[turn + KING1], m) || SafeKingStep(P, P.location[turn + KING1], m)
  {
    SlotSquare(P, turn + KING1);
    var kingPos := P.location[turn + KING1];
    var takes, steps := KingTakes(P, kingPos, 0), KingSteps(P, kingPos, 0);
    var r := DoubleCheckEvasions(P, turn);
    assert r == takes + steps;
    assert r[..|takes|] == takes && r[|takes|..] == steps;
    assert AllSafeTakes(P, kingPos, r[..|takes|]);
  }

  /** With the king attacked, search_moves gives the evasions. */
  lemma GenerateUnderCheck(P: Position, turn: int, last: Move)
    requires WellFormed(P) && IsColour(turn) && LastOk(P, last) && Alive(P, turn + KING1)
    requires Threatened(P, P.location[turn + KING1], Adverse(turn))
    ensures Generate(P, turn, last) == Evasions(P, turn)
  {
  }

  /** Under double check only the king moves: its safe captures, then its safe steps, all
      of them. */
  lemma DoubleCheckOnlyKing(P: Position, turn: int, last: Move)
    requires WellFormed(P) && IsColour(turn) && LastOk(P, last) && Alive(P, turn + KING1)
    requires Threatened(P, P.location[turn + KING1], Adverse(turn))
    requires CountCheckers(P, P.location[turn + KING1], Adverse(turn), 15) > 1
    ensures Generate(P, turn, last).Ok?
    ensures KingTakesThenSteps(P, P.location[turn + KING1], Generate(P, turn, last).value)
    ensures forall m :: m in Generate(P, turn, last).value <==>
      SafeKingTake(P, P.location[turn + KING1], m) || SafeKingStep(P, P.location[turn + KING1], m)
  {
    GenerateUnderCheck(P, turn, last);
    assert Evasions(P, turn) == Ok(DoubleCheckEvasions(P, turn));
    DoubleCheckList(P, turn);
  }

  /** m captures the checker on a with a piece other than the king. */
  predicate CheckerCapture(P: Position, turn: int, a: int, m: Move)
    requires Shaped(P)
  {
    m.to == a && CaptureBy(P, turn, m) && P.board[m.from] != turn + KING1
  }

  /** m moves a piece other than the king onto an empty square strictly between the
      checker on a and the king. */
  predicate Interposes(P: Position, turn: int, a: int, kingPos: int, m: Move)
    requires Shaped(P)
  {
    ByColour(P, turn, m) && P.board[m.from] != turn + KING1 && IsEmpty(P, m.to) && StrictlyBetween(a, kingPos, m.to)
  }

  predicate AllCheckerCaptures(P: Position, turn: int, a: int, ms: seq<Move>)
    requires Shaped(P)
  {
    forall m :: m in ms ==> CheckerCapture(P, turn, a, m)
  }

  /** The interpositions; none against a pawn or a knight. */
  predicate AllInterpose(P: Position, turn: int, a: int, kingPos: int, ms: seq<Move>)
    requires Shaped(P) && IsSquare(a) && !IsEmpty(P, a)
  {
    && (Piece(P, a) == PAWN || Piece(P, a) == KNIGHT ==> ms == [])
    && forall m :: m in ms ==> Interposes(P, turn, a, kingPos, m)
  }

  /** ms is, in order: captures of the checker on a, safe king captures, interpositions,
      safe king steps. */
  predicate SingleCheckOrder(P: Position, turn: int, a: int, kingPos: int, ms: seq<Move>)
    requires WellFormed(P) && IsSquare(a) && !IsEmpty(P, a) && IsSquare(kingPos) && !IsEmpty(P, kingPos)
  {
    exists i, j, k :: 0 <= i <= j <= k <= |ms|
      && AllCheckerCaptures(P, turn, a, ms[..i]) && AllSafeTakes(P, kingPos, ms[i..j])
      && AllInterpose(P, turn, a, kingPos, ms[j..k]) && AllSafeSteps(P, kingPos, ms[k..])
  }

  /** An evasion from the single checker on a: a capture of it by a piece other than the
      king, a safe capture by the king, a blocker onto a square between a line piece and the
      king, or a safe step of the king. */
  predicate SingleCheckEvasion(P: Position, turn: int, a: int, kingPos: int, m: Move)
    requires WellFormed(P) && IsSquare(a) && !IsEmpty(P, a) && IsSquare(kingPos) && !IsEmpty(P, kingPos)
  {
    || CheckerCapture(P, turn, a, m)
    || SafeKingTake(P, kingPos, m)
    || (Piece(P, a) != PAWN && Piece(P, a) != KNIGHT && Blocker(P, turn, m) && StrictlyBetween(a, kingPos, m.to))
    || SafeKingStep(P, kingPos, m)
  }

  /** The single-check list follows the four evasion phases in order, and holds every
      evasion of those four kinds. */
  lemma SingleCheckPhases(P: Position, turn: int, a: int)
    requires WellFormed(P) && IsColour(turn) && Alive(P, turn + KING1)
    requires IsSquare(a) && !IsEmpty(P, a) && Colour(P, a) == Adverse(turn) && Piece(P, a) != KING
    requires CanTake(P, a, P.location[turn + KING1])
    ensures SingleCheckOrder(P, turn, a, P.location[turn + KING1], SingleCheckEvasions(P, turn, a))
    ensures forall m :: m in SingleCheckEvasions(P, turn, a) <==>
      SingleCheckEvasion(P, turn, a, P.location[turn + KING1], m)
  {
    SingleCheckOrdered(P, turn, a);
    SingleCheckComplete(P, turn, a);
  }

  /** The single-check list follows the four evasion phases in order. */
  lemma SingleCheckOrdered(P: Position, turn: int, a: int)
    requires WellFormed(P) && IsColour(turn) && Alive(P, turn + KING1)
    requires IsSquare(a) && !IsEmpty(P, a) && Colour(P, a) == Adverse(turn) && Piece(P, a) != KING
    requires CanTake(P, a, P.location[turn + KING1])
    ensures IsSquare(P.location[turn + KING1]) && !IsEmpty(P, P.location[turn + KING1])
    ensures SingleCheckOrder(P, turn, a, P.location[turn + KING1], SingleCheckEvasions(P, turn, a))
  {
    SlotSquare(P, turn + KING1);
    var kingPos := P.location[turn + KING1];
    var captures := CheckerCaptures(P, turn, a, 15);
    var takes, steps := KingTakes(P, kingPos, 0), KingSteps(P, kingPos, 0);
    var blocks := Interpositions(P, turn, a);
    var r := SingleCheckEvasions(P, turn, a);
    assert AllCheckerCaptures(P, turn, a, captures);
    assert AllSafeTakes(P, kingPos, takes);
    assert AllSafeSteps(P, kingPos, steps);
    FourPhases(r, captures, takes, blocks, steps);
  }

  /** Every evasion of the four kinds is in the single-check list, and nothing else is. */
  lemma SingleCheckComplete(P: Position, turn: int, a: int)
    requires WellFormed(P) && IsColour(turn) && Alive(P, turn + KING1)
    requires IsSquare(a) && !IsEmpty(P, a) && Colour(P, a) == Adverse(turn) && Piece(P, a) != KING
    requires CanTake(P, a, P.location[turn + KING1])
    ensures IsSquare(P.location[turn + KING1]) && !IsEmpty(P, P.location[turn + KING1])
    ensures forall m :: m in SingleCheckEvasions(P, turn, a) <==>
      SingleCheckEvasion(P, turn, a, P.location[turn + KING1], m)
  {
    SingleCheckParts(P, turn, a);
    var kingPos := P.location[turn + KING1];
    var captures := CheckerCaptures(P, turn, a, 15);
    var takes, steps := KingTakes(P, kingPos, 0), KingSteps(P, kingPos, 0);
    var blocks := Interpositions(P, turn, a);
    CheckerCapturesAll(P, turn, a);
    KingPhasesIff(P, kingPos);
    EvasionParts(P, turn, a, kingPos, SingleCheckEvasions(P, turn, a), captures, takes, blocks, steps);
  }

  /** The single-check list is its four phases appended. */
  lemma SingleCheckParts(P: Position, turn: int, a: int)
    requires WellFormed(P) && IsColour(turn) && Alive(P, turn + KING1)
    requires IsSquare(a) && !IsEmpty(P, a) && Colour(P, a) == Adverse(turn) && Piece(P, a) != KING
    requires CanTake(P, a, P.location[turn + KING1])
    ensures IsSquare(P.location[turn + KING1]) && !IsEmpty(P, P.location[turn + KING1])
    ensures Piece(P, P.location[turn + KING1]) == KING
    ensures var kingPos := P.location[turn + KING1];
      SingleCheckEvasions(P, turn, a)
        == CheckerCaptures(P, turn, a, 15) + KingTakes(P, kingPos, 0)
          + (Interpositions(P, turn, a) + KingSteps(P, kingPos, 0))
  {
    SlotSquare(P, turn + KING1);
    LiveSlotFacts(P, turn + KING1);
  }

  /** The king's capture and step phases hold exactly the safe captures and steps. */
  lemma KingPhasesIff(P: Position, kingPos: int)
    requires WellFormed(P) && IsSquare(kingPos) && !IsEmpty(P, kingPos) && Piece(P, kingPos) == KING
    ensures forall m :: m in KingTakes(P, kingPos, 0) <==> SafeKingTake(P, kingPos, m)
    ensures forall m :: m in KingSteps(P, kingPos, 0) <==> SafeKingStep(P, kingPos, m)
  {
    assert forall m :: m in KingTakes(P, kingPos, 0) <==> SafeKingTake(P, kingPos, m);
    assert forall m :: m in KingSteps(P, kingPos, 0) <==> SafeKingStep(P, kingPos, m);
  }

  /** Four exact phase lists appended hold exactly the single-check evasions. */
  lemma EvasionParts(P: Position, turn: int, a: int, kingPos: int, r: seq<Move>,
                     captures: seq<Move>, takes: seq<Move>, blocks: seq<Move>, steps: seq<Move>)
    requires WellFormed(P) && IsSquare(a) && !IsEmpty(P, a) && IsSquare(kingPos) && !IsEmpty(P, kingPos)
    requires r == captures + takes + (blocks + steps)
    requires forall m :: m in captures <==> CheckerCapture(P, turn, a, m)
    requires forall m :: m in takes <==> SafeKingTake(P, kingPos, m)
    requires forall m :: m in blocks <==>
      Piece(P, a) != PAWN && Piece(P, a) != KNIGHT && Blocker(P, turn, m) && StrictlyBetween(a, kingPos, m.to)
    requires forall m :: m in steps <==> SafeKingStep(P, kingPos, m)
    ensures forall m :: m in r <==> SingleCheckEvasion(P, turn, a, kingPos, m)
  {
    FourMembers(r, captures, takes, blocks, steps);
  }

  /** The checker-capture phase holds exactly the captures of the checker by a piece other
      than the king. */
  lemma CheckerCapturesAll(P: Position, turn: int, a: int)
    requires WellFormed(P) && IsColour(turn) && IsSquare(a)
    ensures forall m :: m in CheckerCaptures(P, turn, a, 15) <==> CheckerCapture(P, turn, a, m)
  {
    forall m | CheckerCapture(P, turn, a, m)
      ensures P.board[m.from] < turn + 15
    {
      assert SlotColour(P.board[m.from]) == turn;
    }
  }

  /** Membership in a list made of four parts. */
  lemma FourMembers(r: seq<Move>, a: seq<Move>, b: seq<Move>, c: seq<Move>, d: seq<Move>)
    requires r == a + b + (c + d)
    ensures forall m :: m in r <==> m in a || m in b || m in c || m in d
  {
  }

  /** The three cut points of a list made of four parts. */
  lemma FourPhases(r: seq<Move>, a: seq<Move>, b: seq<Move>, c: seq<Move>, d: seq<Move>)
    requires r == a + b + (c + d)
    ensures r[..|a|] == a && r[|a|..|a| + |b|] == b
    ensures r[|a| + |b|..|a| + |b| + |c|] == c && r[|a| + |b| + |c|..] == d
  {
    assert r[..|a|] == a;
  }

  /** Under a single check the list is found only when an enemy piece other than the king
      gives the check, and then follows the four evasion phases in order and holds every
      evasion. */
  lemma SingleCheckList(P: Position, turn: int, last: Move)
    requires WellFormed(P) && IsColour(turn) && LastOk(P, last) && Alive(P, turn + KING1)
    requires Threatened(P, P.location[turn + KING1], Adverse(turn))
    requires CountCheckers(P, P.location[turn + KING1], Adverse(turn), 15) <= 1
    ensures FindKingAttacker(P, turn).None? <==> Generate(P, turn, last) == Err(NoChecker)
    ensures FindKingAttacker(P, turn).Some? ==>
      && Generate(P, turn, last).Ok?
      && SingleCheckOrder(P, turn, FindKingAttacker(P, turn).value, P.location[turn + KING1],
                          Generate(P, turn, last).value)
      && forall m :: m in Generate(P, turn, last).value <==>
           SingleCheckEvasion(P, turn, FindKingAttacker(P, turn).value, P.location[turn + KING1], m)
  {
    SlotSquare(P, turn + KING1);
    GenerateUnderCheck(P, turn, last);
    match FindKingAttacker(P, turn)
    case None =>
    case Some(a) =>
      var ms := SingleCheckEvasions(P, turn, a);
      assert Evasions(P, turn) == Ok(ms);
      assert Generate(P, turn, last) == Ok(ms);
      SingleCheckPhases(P, turn, a);
      assert SingleCheckOrder(P, turn, a, P.location[turn + KING1], ms);
  }

  // ----- what the list outside check holds -----

  /** A castling move the two castling tests allow: the king from its home square two
      squares towards ROOK2, or two towards ROOK1. */
  predicate Castle(P: Position, turn: int, m: Move)
    requires WellFormed(P) && IsColour(turn)
  {
    || (m == Move(4 + HomeRow(turn), 6 + HomeRow(turn)) && KingsideAllowed(P, turn))
    || (m == Move(4 + HomeRow(turn), 2 + HomeRow(turn)) && QueensideAllowed(P, turn))
  }

  /** The castling phase holds exactly the castles allowed. */
  lemma CastlingIff(P: Position, turn: int)
    requires WellFormed(P) && IsColour(turn)
    ensures forall m :: m in Castling(P, turn) <==> Castle(P, turn, m)
  {
    var r := Castling(P, turn);
    if KingsideAllowed(P, turn) {
      assert r[0] in r;
    }
    if QueensideAllowed(P, turn) {
      assert r[|r| - 1] in r;
    }
  }

  /** The en-passant phase: a capture onto the square a double step passed over. */
  predicate EnPassantPhase(P: Position, turn: int, last: Move, m: Move)
    requires WellFormed(P) && IsColour(turn) && LastOk(P, last)
  {
    IsDoubleStep(P, last) && EnPassantCapture(P, turn, last, m)
  }

  /** The capture phase: a capture of an enemy pawn..queen. */
  predicate CapturePhase(P: Position, turn: int, m: Move)
    requires WellFormed(P) && IsColour(turn)
  {
    CaptureBy(P, turn, m) && !IsEmpty(P, m.to) && Adverse(turn) <= P.board[m.to] < Adverse(turn) + KING1
  }

  /** The promotion phase: a pawn slot's push onto an end rank. */
  predicate PromotionPhase(P: Position, turn: int, m: Move)
    requires WellFormed(P) && IsColour(turn)
  {
    PromotionPush(P, turn, m) && turn <= P.board[m.from] < turn + KNIGHT1
  }

  /** The push phase: a pawn push off the end ranks. */
  predicate PushPhase(P: Position, turn: int, m: Move)
    requires WellFormed(P) && IsColour(turn)
  {
    PawnPush(P, turn, m) && turn <= P.board[m.from]
  }

  /** The seven phases of search_moves outside check, in order: en passant, captures of
      pawn..queen, promotions, castling, quiet moves of knight..king, quiet moves of promoted
      pawns, pawn pushes. */
  function NormalPhases(P: Position, turn: int, last: Move): (ps: seq<Move -> bool>)
    requires WellFormed(P) && IsColour(turn) && LastOk(P, last)
    ensures |ps| == 7
  {
    [ m => EnPassantPhase(P, turn, last, m), m => CapturePhase(P, turn, m), m => PromotionPhase(P, turn, m),
      m => Castle(P, turn, m), m => PieceQuiet(P, turn, m), m => PromotedQuiet(P, turn, m),
      m => PushPhase(P, turn, m) ]
  }

  /** xs holds exactly the moves phase accepts. */
  ghost predicate Exactly(xs: seq<Move>, phase: Move -> bool)
  {
    forall m :: m in xs <==> phase(m)
  }

  /** ms is seven consecutive segments, the k-th holding exactly the moves of phase k. */
  ghost predicate SevenSegments(ms: seq<Move>, ps: seq<Move -> bool>)
    requires |ps| == 7
  {
    exists i1, i2, i3, i4, i5, i6 :: 0 <= i1 <= i2 <= i3 <= i4 <= i5 <= i6 <= |ms|
      && Exactly(ms[..i1], ps[0]) && Exactly(ms[i1..i2], ps[1]) && Exactly(ms[i2..i3], ps[2])
      && Exactly(ms[i3..i4], ps[3]) && Exactly(ms[i4..i5], ps[4]) && Exactly(ms[i5..i6], ps[5])
      && Exactly(ms[i6..], ps[6])
  }

  /** A move of one of the seven phases outside check. */
  ghost predicate NormalMove(P: Position, turn: int, last: Move, m: Move)
    requires WellFormed(P) && IsColour(turn) && LastOk(P, last)
  {
    exists k :: 0 <= k < 7 && NormalPhases(P, turn, last)[k](m)
  }

  /** Seven lists, each exactly its phase's moves, appended in phase order. */
  ghost predicate SevenExact(ms: seq<Move>, ps: seq<Move -> bool>,
                             a: seq<Move>, b: seq<Move>, c: seq<Move>, d: seq<Move>, e: seq<Move>, f: seq<Move>, g: seq<Move>)
    requires |ps| == 7
  {
    && ms == a + b + c + d + e + f + g
    && Exactly(a, ps[0]) && Exactly(b, ps[1]) && Exactly(c, ps[2]) && Exactly(d, ps[3])
    && Exactly(e, ps[4]) && Exactly(f, ps[5]) && Exactly(g, ps[6])
  }

  /** Seven exact phase lists appended in order are in phase order, and their members are
      the moves of the seven phases. */
  lemma SevenOrder(ms: seq<Move>, ps: seq<Move -> bool>,
                   a: seq<Move>, b: seq<Move>, c: seq<Move>, d: seq<Move>, e: seq<Move>, f: seq<Move>, g: seq<Move>)
    requires |ps| == 7 && SevenExact(ms, ps, a, b, c, d, e, f, g)
    ensures SevenSegments(ms, ps)
    ensures forall m :: m in ms <==> exists k :: 0 <= k < 7 && ps[k](m)
  {
    SevenSplit(ms, a, b, c, d, e, f, g);
    SevenMembers(ms, a, b, c, d, e, f, g);
    SevenSound(ms, ps, a, b, c, d, e, f, g);
    SevenComplete(ms, ps, a, b, c, d, e, f, g);
  }

  /** Every member of the seven parts is a move of its part's phase. */
  lemma SevenSound(ms: seq<Move>, ps: seq<Move -> bool>,
                   a: seq<Move>, b: seq<Move>, c: seq<Move>, d: seq<Move>, e: seq<Move>, f: seq<Move>, g: seq<Move>)
    requires |ps| == 7 && SevenExact(ms, ps, a, b, c, d, e, f, g)
    requires forall m :: m in ms <==> m in a || m in b || m in c || m in d || m in e || m in f || m in g
    ensures forall m :: m in ms ==> exists k :: 0 <= k < 7 && ps[k](m)
  {
    forall m | m in ms
      ensures exists k :: 0 <= k < 7 && ps[k](m)
    {
      if m in a { assert ps[0](m); }
      else if m in b { assert ps[1](m); }
      else if m in c { assert ps[2](m); }
      else if m in d { assert ps[3](m); }
      else if m in e { assert ps[4](m); }
      else if m in f { assert ps[5](m); }
      else { assert ps[6](m); }
    }
  }

  /** Every move of a phase is in that phase's part. */
  lemma SevenComplete(ms: seq<Move>, ps: seq<Move -> bool>,
                      a: seq<Move>, b: seq<Move>, c: seq<Move>, d: seq<Move>, e: seq<Move>, f: seq<Move>, g: seq<Move>)
    requires |ps| == 7 && SevenExact(ms, ps, a, b, c, d, e, f, g)
    requires forall m :: m in ms <==> m in a || m in b || m in c || m in d || m in e || m in f || m in g
    ensures forall m :: (exists k :: 0 <= k < 7 && ps[k](m)) ==> m in ms
  {
    forall m | exists k :: 0 <= k < 7 && ps[k](m)
      ensures m in ms
    {
      var k :| 0 <= k < 7 && ps[k](m);
      if k == 0 { assert m in a; } else if k == 1 { assert m in b; } else if k == 2 { assert m in c; }
      else if k == 3 { assert m in d; } else if k == 4 { assert m in e; } else if k == 5 { assert m in f; }
      else { assert m in g; }
    }
  }

  /** The cut points of a list made of seven parts. */
  lemma SevenSplit(ms: seq<Move>, a: seq<Move>, b: seq<Move>, c: seq<Move>, d: seq<Move>, e: seq<Move>, f: seq<Move>, g: seq<Move>)
    requires ms == a + b + c + d + e + f + g
    ensures var i1 := |a|; var i2 := i1 + |b|; var i3 := i2 + |c|; var i4 := i3 + |d|;
      var i5 := i4 + |e|; var i6 := i5 + |f|;
      && 0 <= i1 <= i2 <= i3 <= i4 <= i5 <= i6 <= |ms|
      && ms[..i1] == a && ms[i1..i2] == b && ms[i2..i3] == c && ms[i3..i4] == d
      && ms[i4..i5] == e && ms[i5..i6] == f && ms[i6..] == g
  {
    var i1 := |a|; var i2 := i1 + |b|; var i3 := i2 + |c|; var i4 := i3 + |d|;
    var i5 := i4 + |e|; var i6 := i5 + |f|;
    assert ms[..i1] == a;
    assert ms[i1..i2] == b;
    assert ms[i2..i3] == c;
    assert ms[i3..i4] == d;
    assert ms[i4..i5] == e;
    assert ms[i5..i6] == f;
    assert ms[i6..] == g;
  }

  /** The members of a list made of seven parts. */
  lemma SevenMembers(ms: seq<Move>, a: seq<Move>, b: seq<Move>, c: seq<Move>, d: seq<Move>, e: seq<Move>, f: seq<Move>, g: seq<Move>)
    requires ms == a + b + c + d + e + f + g
    ensures forall m :: m in ms <==> m in a || m in b || m in c || m in d || m in e || m in f || m in g
  {
  }

  /** The seven phase lists of search_moves outside check are exact, and appended they are
      the list. */
  lemma NormalExact(P: Position, turn: int, last: Move)
    requires WellFormed(P) && IsColour(turn) && LastOk(P, last)
    ensures AllSquares(Order) && |Order| == 64
    ensures SevenExact(NormalMoves(P, turn, last), NormalPhases(P, turn, last),
      EnPassant(P, turn, last), Captures(P, turn, 0), Promotions(P, turn, 8), Castling(P, turn),
      ChainMoves(P, turn, Order, 64), PromotedChainMoves(P, turn, Order, 64), PawnPushes(P, turn, 0))
  {
    PhasesExact(P, turn, last);
    assert NormalMoves(P, turn, last) == EnPassant(P, turn, last) + Captures(P, turn, 0) + Promotions(P, turn, 8)
      + Castling(P, turn) + ChainMoves(P, turn, Order, 64) + PromotedChainMoves(P, turn, Order, 64) + PawnPushes(P, turn, 0);
  }

  /** Each phase list holds exactly the moves of its phase. */
  lemma PhasesExact(P: Position, turn: int, last: Move)
    requires WellFormed(P) && IsColour(turn) && LastOk(P, last)
    ensures AllSquares(Order) && |Order| == 64
    ensures var ps := NormalPhases(P, turn, last);
      && Exactly(EnPassant(P, turn, last), ps[0]) && Exactly(Captures(P, turn, 0), ps[1])
      && Exactly(Promotions(P, turn, 8), ps[2]) && Exactly(Castling(P, turn), ps[3])
      && Exactly(ChainMoves(P, turn, Order, 64), ps[4]) && Exactly(PromotedChainMoves(P, turn, Order, 64), ps[5])
      && Exactly(PawnPushes(P, turn, 0), ps[6])
  {
    EarlyExact(P, turn, last);
    LateExact(P, turn, last);
  }

  lemma EarlyExact(P: Position, turn: int, last: Move)
    requires WellFormed(P) && IsColour(turn) && LastOk(P, last)
    ensures var ps := NormalPhases(P, turn, last);
      && Exactly(EnPassant(P, turn, last), ps[0]) && Exactly(Captures(P, turn, 0), ps[1])
      && Exactly(Promotions(P, turn, 8), ps[2]) && Exactly(Castling(P, turn), ps[3])
  {
    EnPassantExact(P, turn, last);
    CapturesIff(P, turn);
    CapturesExact(P, turn, last, Captures(P, turn, 0));
    PromotionsIff(P, turn);
    PromotionsExact(P, turn, last, Promotions(P, turn, 8));
    CastlingExact(P, turn, last);
  }

  lemma LateExact(P: Position, turn: int, last: Move)
    requires WellFormed(P) && IsColour(turn) && LastOk(P, last)
    ensures AllSquares(Order) && |Order| == 64
    ensures var ps := NormalPhases(P, turn, last);
      && Exactly(ChainMoves(P, turn, Order, 64), ps[4]) && Exactly(PromotedChainMoves(P, turn, Order, 64), ps[5])
      && Exactly(PawnPushes(P, turn, 0), ps[6])
  {
    ChainPhasesComplete(P, turn);
    ChainExact(P, turn, last);
    PromotedExact(P, turn, last);
    PushesExact(P, turn, last);
  }

  // The steps of EarlyExact and LateExact, one phase each, so that no proof opens the
  // definitions of more than one phase.

  lemma PromotionsIff(P: Position, turn: int)
    requires WellFormed(P) && IsColour(turn)
    ensures forall m :: m in Promotions(P, turn, 8) <==> PromotionPhase(P, turn, m)
  {
  }

  lemma EnPassantExact(P: Position, turn: int, last: Move)
    requires WellFormed(P) && IsColour(turn) && LastOk(P, last)
    ensures Exactly(EnPassant(P, turn, last), NormalPhases(P, turn, last)[0])
  {
  }

  lemma CapturesIff(P: Position, turn: int)
    requires WellFormed(P) && IsColour(turn)
    ensures forall m :: m in Captures(P, turn, 0) <==> CapturePhase(P, turn, m)
  {
    CapturesComplete(P, turn, 0);
  }

  lemma CapturesExact(P: Position, turn: int, last: Move, r: seq<Move>)
    requires WellFormed(P) && IsColour(turn) && LastOk(P, last)
    requires forall m :: m in r <==> CapturePhase(P, turn, m)
    ensures Exactly(r, NormalPhases(P, turn, last)[1])
  {
  }

  lemma PromotionsExact(P: Position, turn: int, last: Move, r: seq<Move>)
    requires WellFormed(P) && IsColour(turn) && LastOk(P, last)
    requires forall m :: m in r <==> PromotionPhase(P, turn, m)
    ensures Exactly(r, NormalPhases(P, turn, last)[2])
  {
  }

  lemma CastlingExact(P: Position, turn: int, last: Move)
    requires WellFormed(P) && IsColour(turn) && LastOk(P, last)
    ensures Exactly(Castling(P, turn), NormalPhases(P, turn, last)[3])
  {
    CastlingIff(P, turn);
  }

  lemma ChainExact(P: Position, turn: int, last: Move)
    requires WellFormed(P) && IsColour(turn) && LastOk(P, last) && AllSquares(Order) && |Order| == 64
    requires forall m :: m in ChainMoves(P, turn, Order, 64) <==> PieceQuiet(P, turn, m)
    ensures Exactly(ChainMoves(P, turn, Order, 64), NormalPhases(P, turn, last)[4])
  {
  }

  lemma PromotedExact(P: Position, turn: int, last: Move)
    requires WellFormed(P) && IsColour(turn) && LastOk(P, last) && AllSquares(Order) && |Order| == 64
    requires forall m :: m in PromotedChainMoves(P, turn, Order, 64) <==> PromotedQuiet(P, turn, m)
    ensures Exactly(PromotedChainMoves(P, turn, Order, 64), NormalPhases(P, turn, last)[5])
  {
  }

  lemma PushesExact(P: Position, turn: int, last: Move)
    requires WellFormed(P) && IsColour(turn) && LastOk(P, last)
    ensures Exactly(PawnPushes(P, turn, 0), NormalPhases(P, turn, last)[6])
  {
  }

  /** With the king of the side to move alive and not attacked, search_moves gives the seven
      phases in order, and exactly their moves. */
  lemma NormalList(P: Position, turn: int, last: Move)
    requires WellFormed(P) && IsColour(turn) && LastOk(P, last) && Alive(P, turn + KING1)
    requires !Threatened(P, P.location[turn + KING1], Adverse(turn))
    ensures Generate(P, turn, last) == Ok(NormalMoves(P, turn, last))
    ensures SevenSegments(Generate(P, turn, last).value, NormalPhases(P, turn, last))
    ensures forall m :: m in Generate(P, turn, last).value <==> NormalMove(P, turn, last, m)
  {
    NormalExact(P, turn, last);
    SevenOrder(NormalMoves(P, turn, last), NormalPhases(P, turn, last), EnPassant(P, turn, last),
      Captures(P, turn, 0), Promotions(P, turn, 8), Castling(P, turn),
      ChainMoves(P, turn, Order, 64), PromotedChainMoves(P, turn, Order, 64), PawnPushes(P, turn, 0));
  }
}

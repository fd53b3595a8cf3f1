/**
 * do_move as a function on positions: capture (en passant included), the mover's
 * relocation, the rook's relocation on castling and the unconditional queen promotion.
 */
module MoveApply {
  import opened ChessBoard

  /** Either end rank: the promotion test of do_move and of the pawn phases. */
  predicate EndRow(sq: int) { sq >= 56 || sq < 8 }

  /** What do_move needs of a move: its asserts, and the squares its castling branches
      read and write; plus the intermediate square of a double step being empty, which
      the next node's en-passant test relies on. Every generated move satisfies it. */
  predicate GoodMove(P: Position, m: Move)
    requires Shaped(P)
  {
    && IsSquare(m.from) && IsSquare(m.to) && m.from != m.to && !IsEmpty(P, m.from)
    && (Piece(P, m.from) == PAWN ==> Y(m.to) != Y(m.from))
    && (Piece(P, m.from) == PAWN && Abs(m.to - m.from) == 16 ==>
          && m.to - m.from == 2 * ForwardStep(Colour(P, m.from))
          && IsEmpty(P, m.from + ForwardStep(Colour(P, m.from))))
    && (Piece(P, m.from) == KING && m.to == m.from + 2 ==>
          X(m.from) == 4 && IsSquare(m.to + 1) && !IsEmpty(P, m.to + 1) && IsEmpty(P, m.to - 1))
    && (Piece(P, m.from) == KING && m.to == m.from - 2 ==>
          X(m.from) == 4 && IsSquare(m.to - 2) && !IsEmpty(P, m.to - 2) && IsEmpty(P, m.to + 1))
  }

  /** The square search_moves pretends a double-stepped pawn stopped on. */
  function PretendSquare(P: Position, last: Move): int
    requires Shaped(P) && IsSquare(last.to) && !IsEmpty(P, last.to)
  {
    if Colour(P, last.to) == WHITE then last.to - 8 else last.to + 8
  }

  /** A pawn's double step. */
  predicate IsDoubleStep(P: Position, last: Move)
    requires Shaped(P) && IsSquare(last.to) && !IsEmpty(P, last.to)
  {
    Piece(P, last.to) == PAWN && Abs(last.to - last.from) == 16
  }

  /** What search_moves needs of the previous move: its destination is occupied
      (piece(last.to) asserts it) and a double step passed over an empty square. */
  predicate LastOk(P: Position, last: Move)
    requires Shaped(P)
  {
    && IsSquare(last.to) && !IsEmpty(P, last.to)
    && (IsDoubleStep(P, last) ==> IsSquare(PretendSquare(P, last)) && IsEmpty(P, PretendSquare(P, last)))
  }

  /** Takes the live piece in slot s off the board. */
  function Lift(P: Position, s: int): (Q: Position)
    requires Sound(P) && IsSlot(s) && Alive(P, s)
    ensures Sound(Q) && Q.types == P.types
    ensures !Alive(Q, s) && IsEmpty(Q, P.location[s])
    ensures forall sq :: 0 <= sq < 64 && sq != P.location[s] ==> Q.board[sq] == P.board[sq]
    ensures forall t :: 0 <= t < 32 && t != s ==> Q.location[t] == P.location[t]
  {
    P.(board := P.board[P.location[s] := EMPTY], location := P.location[s := EMPTY])
  }

  /** Moves the piece on `from` to the empty square `to`. */
  function Relocate(P: Position, from: int, to: int): (Q: Position)
    requires Sound(P) && IsSquare(from) && IsSquare(to) && !IsEmpty(P, from) && IsEmpty(P, to)
    ensures Sound(Q) && Q.types == P.types
    ensures Q.board[to] == P.board[from] && IsEmpty(Q, from) && Q.location[P.board[from]] == to
    ensures forall sq :: 0 <= sq < 64 && sq != from && sq != to ==> Q.board[sq] == P.board[sq]
    ensures forall t :: 0 <= t < 32 && t != P.board[from] ==> Q.location[t] == P.location[t]
  {
    var p := P.board[from];
    P.(board := P.board[from := EMPTY][to := p], location := P.location[p := to])
  }

  /** The en-passant victim's square: file of the destination, rank of the origin. */
  function PassedSquare(m: Move): int { X(m.to) + 8 * Y(m.from) }

  predicate IsEnPassant(P: Position, m: Move)
    requires Shaped(P) && IsSquare(m.from) && IsSquare(m.to) && !IsEmpty(P, m.from)
  {
    Piece(P, m.from) == PAWN && IsEmpty(P, m.to) && Abs(X(m.from) - X(m.to)) == 1
  }

  /** The slot do_move captures, or EMPTY. */
  function Taken(P: Position, m: Move): int
    requires Shaped(P) && IsSquare(m.from) && IsSquare(m.to) && !IsEmpty(P, m.from)
  {
    if IsEnPassant(P, m) then P.board[PassedSquare(m)] else P.board[m.to]
  }

  predicate IsKingside(P: Position, m: Move)
    requires Shaped(P) && IsSquare(m.from) && IsSquare(m.to) && !IsEmpty(P, m.from)
  {
    Piece(P, m.from) == KING && m.to == m.from + 2
  }

  predicate IsQueenside(P: Position, m: Move)
    requires Shaped(P) && IsSquare(m.from) && IsSquare(m.to) && !IsEmpty(P, m.from)
  {
    Piece(P, m.from) == KING && m.to == m.from - 2
  }

  predicate IsPromotion(P: Position, m: Move)
    requires Shaped(P) && IsSquare(m.from) && IsSquare(m.to) && !IsEmpty(P, m.from)
  {
    Piece(P, m.from) == PAWN && EndRow(m.to)
  }

  /** The squares do_move may write. */
  predicate Touched(P: Position, m: Move, sq: int)
    requires Shaped(P) && IsSquare(m.from) && IsSquare(m.to) && !IsEmpty(P, m.from)
  {
    || sq == m.from || sq == m.to
    || (IsEnPassant(P, m) && sq == PassedSquare(m))
    || (IsKingside(P, m) && (sq == m.to + 1 || sq == m.to - 1))
    || (IsQueenside(P, m) && (sq == m.to - 2 || sq == m.to + 1))
  }

  lemma PassedSquareFacts(m: Move)
    requires IsSquare(m.from) && IsSquare(m.to)
    ensures IsSquare(PassedSquare(m))
    ensures Y(m.from) != Y(m.to) ==> PassedSquare(m) != m.to
    ensures X(m.from) != X(m.to) ==> PassedSquare(m) != m.from
  {
  }

  /** The capture (en passant included) and the mover's relocation. */
  function CaptureAndMove(P: Position, m: Move): (Q: Position)
    requires WellFormed(P) && GoodMove(P, m)
    ensures Sound(Q) && Q.types == P.types
    ensures Q.board[m.to] == P.board[m.from] && IsEmpty(Q, m.from)
    ensures Q.location[P.board[m.from]] == m.to
    ensures Taken(P, m) != EMPTY ==> !Alive(Q, Taken(P, m))
    ensures IsEnPassant(P, m) ==> IsEmpty(Q, PassedSquare(m))
    ensures forall sq ::
      (0 <= sq < 64 && sq != m.from && sq != m.to && !(IsEnPassant(P, m) && sq == PassedSquare(m)))
      ==> Q.board[sq] == P.board[sq]
    ensures forall t :: 0 <= t < 32 && t != P.board[m.from] && t != Taken(P, m) ==>
      Q.location[t] == P.location[t]
  {
    PassedSquareFacts(m);
    var taken := Taken(P, m);
    var P1 := if taken != EMPTY then Lift(P, taken) else P;
    Relocate(P1, m.from, m.to)
  }

  /** do_move: the position after m. The steps are those of the source, grouped so that
      each keeps the tables consistent; the final tables are the same. */
  function ApplyMove(P: Position, m: Move): (Q: Position)
    requires WellFormed(P) && GoodMove(P, m)
    ensures WellFormed(Q)
    // the mover stands on `to`, `from` is empty
    ensures Q.board[m.to] == P.board[m.from] && IsEmpty(Q, m.from)
    ensures Q.location[P.board[m.from]] == m.to
    // the captured piece, the en-passant victim included, is off the board
    ensures Taken(P, m) != EMPTY ==> !Alive(Q, Taken(P, m))
    ensures IsEnPassant(P, m) ==> IsEmpty(Q, PassedSquare(m))
    // castling moves the rook from to+1 to to-1, or from to-2 to to+1
    ensures IsKingside(P, m) ==>
      Q.board[m.to - 1] == P.board[m.to + 1] && IsEmpty(Q, m.to + 1)
      && Q.location[P.board[m.to + 1]] == m.to - 1
    ensures IsQueenside(P, m) ==>
      Q.board[m.to + 1] == P.board[m.to - 2] && IsEmpty(Q, m.to - 2)
      && Q.location[P.board[m.to - 2]] == m.to + 1
    // a pawn reaching either end rank becomes a queen; no other type changes
    ensures forall t :: 0 <= t < 32 ==>
      Q.types[t] == (if t == P.board[m.from] && IsPromotion(P, m) then QUEEN else P.types[t])
    // no other square changes
    ensures forall sq :: 0 <= sq < 64 && !Touched(P, m, sq) ==> Q.board[sq] == P.board[sq]
  {
    var P2 := CaptureAndMove(P, m);
    var P3 := CastleRook(P, m, P2);
    OthersKeepRank(P, m);
    var Q := if IsPromotion(P, m) then P3.(types := P3.types[P.board[m.from] := QUEEN]) else P3;
    PawnsStayInside(P, m, Q);
    Q
  }

  /** The rook's relocation when the king moved two squares. */
  function CastleRook(P: Position, m: Move, P2: Position): (Q: Position)
    requires WellFormed(P) && GoodMove(P, m) && P2 == CaptureAndMove(P, m)
    ensures Sound(Q) && Q.types == P.types
    ensures Q.board[m.to] == P.board[m.from] && IsEmpty(Q, m.from)
    ensures Q.location[P.board[m.from]] == m.to
    ensures Taken(P, m) != EMPTY ==> !Alive(Q, Taken(P, m))
    ensures IsEnPassant(P, m) ==> IsEmpty(Q, PassedSquare(m))
    ensures IsKingside(P, m) ==>
      Q.board[m.to - 1] == P.board[m.to + 1] && IsEmpty(Q, m.to + 1)
      && Q.location[P.board[m.to + 1]] == m.to - 1
    ensures IsQueenside(P, m) ==>
      Q.board[m.to + 1] == P.board[m.to - 2] && IsEmpty(Q, m.to - 2)
      && Q.location[P.board[m.to - 2]] == m.to + 1
    ensures forall sq :: 0 <= sq < 64 && !Touched(P, m, sq) ==> Q.board[sq] == P.board[sq]
  {
    if IsKingside(P, m) then
      KingsideRook(P, m, P2);
      Relocate(P2, m.to + 1, m.to - 1)
    else if IsQueenside(P, m) then
      QueensideRook(P, m, P2);
      Relocate(P2, m.to - 2, m.to + 1)
    else P2
  }

  /** Which rook move, if any, CastleRook makes, told by the piece that stands on the
      destination once the mover is there. */
  lemma CastleCases(P: Position, m: Move, P2: Position)
    requires WellFormed(P) && GoodMove(P, m) && P2 == CaptureAndMove(P, m)
    ensures Sound(P2) && IsSquare(m.to) && !IsEmpty(P2, m.to)
    ensures IsKingside(P, m) <==> Piece(P2, m.to) == KING && m.to == m.from + 2
    ensures IsQueenside(P, m) <==> Piece(P2, m.to) == KING && m.to == m.from - 2
    ensures IsKingside(P, m) ==>
      && IsSquare(m.to + 1) && IsSquare(m.to - 1) && !IsEmpty(P2, m.to + 1) && IsEmpty(P2, m.to - 1)
      && CastleRook(P, m, P2) == Relocate(P2, m.to + 1, m.to - 1)
    ensures IsQueenside(P, m) ==>
      && IsSquare(m.to - 2) && IsSquare(m.to + 1) && !IsEmpty(P2, m.to - 2) && IsEmpty(P2, m.to + 1)
      && CastleRook(P, m, P2) == Relocate(P2, m.to - 2, m.to + 1)
    ensures !IsKingside(P, m) && !IsQueenside(P, m) ==> CastleRook(P, m, P2) == P2
  {
    if IsKingside(P, m) {
      KingsideRook(P, m, P2);
    } else if IsQueenside(P, m) {
      QueensideRook(P, m, P2);
    }
  }

  /** The king moved two squares right: the rook on to + 1 goes to to - 1. */
  lemma KingsideRook(P: Position, m: Move, P2: Position)
    requires WellFormed(P) && GoodMove(P, m) && P2 == CaptureAndMove(P, m) && IsKingside(P, m)
    ensures IsSquare(m.to + 1) && IsSquare(m.to - 1) && !IsEmpty(P2, m.to + 1) && IsEmpty(P2, m.to - 1)
    ensures var Q := Relocate(P2, m.to + 1, m.to - 1);
      && Q.board[m.to] == P.board[m.from] && IsEmpty(Q, m.from)
      && Q.location[P.board[m.from]] == m.to
      && (Taken(P, m) != EMPTY ==> !Alive(Q, Taken(P, m))) && !IsEnPassant(P, m) && !IsQueenside(P, m)
      && Q.board[m.to - 1] == P.board[m.to + 1] && IsEmpty(Q, m.to + 1)
      && Q.location[P.board[m.to + 1]] == m.to - 1
      && forall sq :: 0 <= sq < 64 && !Touched(P, m, sq) ==> Q.board[sq] == P.board[sq]
  {
    assert P2.board[m.to + 1] == P.board[m.to + 1] && P2.board[m.to - 1] == P.board[m.to - 1];
  }

  /** The king moved two squares left: the rook on to - 2 goes to to + 1. */
  lemma QueensideRook(P: Position, m: Move, P2: Position)
    requires WellFormed(P) && GoodMove(P, m) && P2 == CaptureAndMove(P, m) && IsQueenside(P, m)
    ensures IsSquare(m.to - 2) && IsSquare(m.to + 1) && !IsEmpty(P2, m.to - 2) && IsEmpty(P2, m.to + 1)
    ensures var Q := Relocate(P2, m.to - 2, m.to + 1);
      && Q.board[m.to] == P.board[m.from] && IsEmpty(Q, m.from)
      && Q.location[P.board[m.from]] == m.to
      && (Taken(P, m) != EMPTY ==> !Alive(Q, Taken(P, m))) && !IsEnPassant(P, m) && !IsKingside(P, m)
      && Q.board[m.to + 1] == P.board[m.to - 2] && IsEmpty(Q, m.to - 2)
      && Q.location[P.board[m.to - 2]] == m.to + 1
      && forall sq :: 0 <= sq < 64 && !Touched(P, m, sq) ==> Q.board[sq] == P.board[sq]
  {
    assert P2.board[m.to - 2] == P.board[m.to - 2] && P2.board[m.to + 1] == P.board[m.to + 1];
  }

  /** The castling squares share the king's rank. */
  lemma CastlingRow(from: int)
    requires IsSquare(from) && X(from) == 4
    ensures Y(from - 4) == Y(from - 1) == Y(from) == Y(from + 1) == Y(from + 3)
  {
  }

  /** Every piece other than the mover and the captured one stays alive or dead, on its rank. */
  lemma OthersKeepRank(P: Position, m: Move)
    requires WellFormed(P) && GoodMove(P, m)
    ensures var Q := CastleRook(P, m, CaptureAndMove(P, m));
      forall t :: 0 <= t < 32 && t != P.board[m.from] && t != Taken(P, m) ==>
        (Alive(Q, t) <==> Alive(P, t)) && (Alive(P, t) ==> Y(Q.location[t]) == Y(P.location[t]))
  {
    var P2 := CaptureAndMove(P, m);
    var Q := CastleRook(P, m, P2);
    if IsKingside(P, m) || IsQueenside(P, m) {
      CastlingRow(m.from);
    }
    forall t | 0 <= t < 32 && t != P.board[m.from] && t != Taken(P, m)
      ensures (Alive(Q, t) <==> Alive(P, t)) && (Alive(P, t) ==> Y(Q.location[t]) == Y(P.location[t]))
    {
      assert P2.location[t] == P.location[t];
      if IsKingside(P, m) {
        if t == P.board[m.to + 1] {
          assert Q.location[t] == m.to - 1 && P.location[t] == m.to + 1;
        } else {
          assert Q.location[t] == P2.location[t];
        }
      } else if IsQueenside(P, m) {
        if t == P.board[m.to - 2] {
          assert Q.location[t] == m.to + 1 && P.location[t] == m.to - 2;
        } else {
          assert Q.location[t] == P2.location[t];
        }
      }
    }
  }

  lemma PawnsStayInside(P: Position, m: Move, Q: Position)
    requires WellFormed(P) && GoodMove(P, m) && Sound(Q)
    requires Q.board[m.to] == P.board[m.from] && Q.location[P.board[m.from]] == m.to
    requires forall t :: 0 <= t < 32 ==>
      Q.types[t] == (if t == P.board[m.from] && IsPromotion(P, m) then QUEEN else P.types[t])
    requires forall t :: 0 <= t < 32 && t != P.board[m.from] && t != Taken(P, m) ==>
      (Alive(Q, t) <==> Alive(P, t)) && (Alive(P, t) ==> Y(Q.location[t]) == Y(P.location[t]))
    requires Taken(P, m) != EMPTY ==> !Alive(Q, Taken(P, m))
    ensures PawnsInside(Q)
  {
    forall t | 0 <= t < 32 && Q.location[t] != EMPTY && Q.types[t] == PAWN
      ensures 8 <= Q.location[t] < 56
    {
      if t != P.board[m.from] {
        assert Alive(P, t);
      }
    }
  }

  /** The move just applied is a valid `last` for the next search. */
  lemma ApplyGivesLastOk(P: Position, m: Move)
    requires WellFormed(P) && GoodMove(P, m)
    ensures LastOk(ApplyMove(P, m), m)
  {
    var Q := ApplyMove(P, m);
    DoubleStepPassage(P, m, Q);
  }

  /** A pawn that went two squares left the square it passed over as it was: empty. */
  lemma DoubleStepPassage(P: Position, m: Move, Q: Position)
    requires WellFormed(P) && GoodMove(P, m) && Sound(Q) && Q.board[m.to] == P.board[m.from]
    requires Q.types[P.board[m.from]] == PAWN ==> P.types[P.board[m.from]] == PAWN
    requires forall sq :: 0 <= sq < 64 && !Touched(P, m, sq) ==> Q.board[sq] == P.board[sq]
    ensures LastOk(Q, m)
  {
    var mover := P.board[m.from];
    if IsDoubleStep(Q, m) {
      assert Q.types[mover] == PAWN;
      assert Piece(P, m.from) == PAWN;
      var mid := m.from + ForwardStep(Colour(P, m.from));
      assert Colour(Q, m.to) == Colour(P, m.from);
      assert PretendSquare(Q, m) == mid;
      assert !Touched(P, m, mid);
    }
  }
}

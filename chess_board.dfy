/**
 * The position model of the book decoder: squares, piece slots, the three tables
 * board / piece_location / piece_type, their consistency invariant, and the
 * per-piece movement and capture predicates with the threat tests built on them.
 *
 * Squares are file + 8 * rank (0..63). Slots 0..15 are White's roster
 * (PAWN1..PAWN8, KNIGHT1, KNIGHT2, BISHOP1, BISHOP2, ROOK1, ROOK2, QUEEN1, KING1),
 * slots 16..31 the same roster for Black; a slot's colour is its 0x10 bit.
 */
module ChessBoard {
  import opened Wrappers

  const WHITE := 0
  const BLACK := 16
  const EMPTY := -1

  // piece types
  const PAWN := 0
  const KNIGHT := 1
  const BISHOP := 2
  const ROOK := 3
  const QUEEN := 4
  const KING := 5

  // roster offsets inside one colour
  const PAWN1 := 0
  const PAWN8 := 7
  const KNIGHT1 := 8
  const ROOK1 := 12
  const ROOK2 := 13
  const QUEEN1 := 14
  const KING1 := 15

  datatype Move = Move(from: int, to: int)

  /** board: square -> slot or EMPTY; location: slot -> square or EMPTY (captured);
      types: slot -> current piece type. */
  datatype Position = Position(board: seq<int>, location: seq<int>, types: seq<int>)

  predicate IsSquare(sq: int) { 0 <= sq < 64 }
  predicate IsSlot(s: int) { 0 <= s < 32 }
  predicate IsColour(c: int) { c == WHITE || c == BLACK }

  function X(sq: int): int { sq % 8 }
  function Y(sq: int): int { sq / 8 }
  function Sq(x: int, y: int): int { x + 8 * y }
  predicate OnBoard(x: int, y: int) { 0 <= x < 8 && 0 <= y < 8 }

  function Abs(n: int): nat { if n < 0 then -n else n }
  function Sgn(n: int): int { if n < 0 then -1 else if n > 0 then 1 else 0 }
  function Max(a: int, b: int): int { if a < b then b else a }

  /** The other colour (col ^ 0x10). */
  function Adverse(c: int): (r: int)
    requires IsColour(c)
    ensures IsColour(r) && r != c
  {
    if c == WHITE then BLACK else WHITE
  }

  /** The colour bit (0x10) of a slot. */
  function SlotColour(s: int): int
    requires IsSlot(s)
  {
    if s < 16 then WHITE else BLACK
  }

  /** Table sizes and value ranges. */
  predicate Shaped(P: Position) {
    && |P.board| == 64 && |P.location| == 32 && |P.types| == 32
    && (forall sq :: 0 <= sq < 64 ==> -1 <= P.board[sq] < 32)
    && (forall s :: 0 <= s < 32 ==> -1 <= P.location[s] < 64)
    && (forall s :: 0 <= s < 32 ==> PAWN <= P.types[s] <= KING)
  }

  /** The two-way invariant that verify_board checks. */
  predicate Consistent(P: Position)
    requires Shaped(P)
  {
    && (forall s :: 0 <= s < 32 && P.location[s] != EMPTY ==> P.board[P.location[s]] == s)
    && (forall sq :: 0 <= sq < 64 && P.board[sq] != EMPTY ==> P.location[P.board[sq]] == sq)
  }

  /** Every live piece stands on an occupied square (all that the threat tests need;
      it survives the "pretend" writes of is_protected). */
  predicate LiveOccupied(P: Position)
    requires Shaped(P)
  {
    forall s :: 0 <= s < 32 && P.location[s] != EMPTY ==> P.board[P.location[s]] != EMPTY
  }

  /** Slot types only change by promotion: the KING1 slots keep type KING, no other slot has it. */
  predicate KingsFixed(P: Position)
    requires Shaped(P)
  {
    forall s :: 0 <= s < 32 ==> (P.types[s] == KING <==> s % 16 == KING1)
  }

  /** A piece of type PAWN never stands on the first or last rank (it is promoted there). */
  predicate PawnsInside(P: Position)
    requires Shaped(P)
  {
    forall s :: 0 <= s < 32 && P.location[s] != EMPTY && P.types[s] == PAWN ==> 8 <= P.location[s] < 56
  }

  /** The invariant every intermediate state of do_move keeps. */
  predicate Sound(P: Position) {
    Shaped(P) && Consistent(P) && KingsFixed(P)
  }

  predicate WellFormed(P: Position) {
    Sound(P) && PawnsInside(P)
  }

  lemma WellFormedLiveOccupied(P: Position)
    requires WellFormed(P)
    ensures LiveOccupied(P)
  {
  }

  predicate Alive(P: Position, s: int)
    requires Shaped(P) && IsSlot(s)
  {
    P.location[s] != EMPTY
  }

  predicate IsEmpty(P: Position, sq: int)
    requires Shaped(P) && IsSquare(sq)
  {
    P.board[sq] == EMPTY
  }

  function Colour(P: Position, sq: int): int
    requires Shaped(P) && IsSquare(sq) && !IsEmpty(P, sq)
  {
    SlotColour(P.board[sq])
  }

  function Piece(P: Position, sq: int): int
    requires Shaped(P) && IsSquare(sq) && !IsEmpty(P, sq)
  {
    P.types[P.board[sq]]
  }

  /** are_same_color */
  predicate SameColour(P: Position, from: int, to: int)
    requires Shaped(P) && IsSquare(from) && IsSquare(to) && !IsEmpty(P, from)
  {
    !IsEmpty(P, to) && Colour(P, from) == Colour(P, to)
  }

  /** Rank direction of a colour's pawns. */
  function ForwardDir(c: int): int { if c == WHITE then 1 else -1 }
  function ForwardStep(c: int): int { if c == WHITE then 8 else -8 }

  // ----- per-piece predicates -----

  predicate CanPawnTake(P: Position, from: int, to: int)
    requires Shaped(P) && IsSquare(from) && IsSquare(to) && !IsEmpty(P, from)
    requires Piece(P, from) == PAWN
  {
    !SameColour(P, from, to)
    && Abs(X(from) - X(to)) == 1 && Y(to) - Y(from) == ForwardDir(Colour(P, from))
  }

  /** A single forward step onto an empty square. */
  predicate IsPawnMove(P: Position, from: int, to: int)
    requires Shaped(P) && IsSquare(from) && IsSquare(to) && !IsEmpty(P, from)
    requires Piece(P, from) == PAWN && IsEmpty(P, to)
  {
    to - from == ForwardStep(Colour(P, from))
  }

  /** The two-square entry from the pawn's starting rank over an empty square. */
  predicate IsPawnEntry(P: Position, from: int, to: int)
    requires Shaped(P) && IsSquare(from) && IsSquare(to) && !IsEmpty(P, from)
    requires Piece(P, from) == PAWN && IsEmpty(P, to)
  {
    var step := ForwardStep(Colour(P, from));
    var startRow := if Colour(P, from) == WHITE then 1 else 6;
    Y(from) == startRow && IsEmpty(P, from + step) && to - from == 2 * step
  }

  predicate IsKnightMove(P: Position, from: int, to: int)
    requires Shaped(P) && IsSquare(from) && IsSquare(to) && !IsEmpty(P, from)
  {
    var dx, dy := Abs(X(from) - X(to)), Abs(Y(from) - Y(to));
    !SameColour(P, from, to) && ((dx == 1 && dy == 2) || (dx == 2 && dy == 1))
  }

  /** The coordinate n steps from a along direction s (-1, 0 or +1). */
  function Towards(a: int, s: int, n: int): int {
    if s > 0 then a + n else if s < 0 then a - n else a
  }

  /** The square n steps from (x, y) in direction (sx, sy): from + n * step in the source. */
  function RaySquare(x: int, y: int, sx: int, sy: int, n: int): int {
    Sq(Towards(x, sx, n), Towards(y, sy, n))
  }

  predicate IsDirection(sx: int, sy: int) { -1 <= sx <= 1 && -1 <= sy <= 1 }

  /** The sliding pieces' loop: the squares n .. d-1 steps along the ray are all empty. */
  predicate PathClear(P: Position, x: int, y: int, sx: int, sy: int, n: int, d: int)
    requires Shaped(P) && IsDirection(sx, sy) && 1 <= n
    requires OnBoard(x, y) && OnBoard(Towards(x, sx, d), Towards(y, sy, d))
    decreases d - n
  {
    n >= d || (IsEmpty(P, RaySquare(x, y, sx, sy, n)) && PathClear(P, x, y, sx, sy, n + 1, d))
  }

  predicate IsBishopMove(P: Position, from: int, to: int)
    requires Shaped(P) && IsSquare(from) && IsSquare(to) && !IsEmpty(P, from)
  {
    var x1, y1, x2, y2 := X(from), Y(from), X(to), Y(to);
    && !SameColour(P, from, to)
    && Abs(x1 - x2) == Abs(y1 - y2)
    && PathClear(P, x1, y1, Sgn(x2 - x1), Sgn(y2 - y1), 1, Abs(x1 - x2))
  }

  predicate IsRookMove(P: Position, from: int, to: int)
    requires Shaped(P) && IsSquare(from) && IsSquare(to) && !IsEmpty(P, from)
  {
    var x1, y1, x2, y2 := X(from), Y(from), X(to), Y(to);
    && !SameColour(P, from, to)
    && (x1 == x2 || y1 == y2)
    && PathClear(P, x1, y1, Sgn(x2 - x1), Sgn(y2 - y1), 1, Max(Abs(x1 - x2), Abs(y1 - y2)))
  }

  predicate IsQueenMove(P: Position, from: int, to: int)
    requires Shaped(P) && IsSquare(from) && IsSquare(to) && !IsEmpty(P, from)
  {
    var x1, y1, x2, y2 := X(from), Y(from), X(to), Y(to);
    && !SameColour(P, from, to)
    && (Abs(x1 - x2) == Abs(y1 - y2) || x1 == x2 || y1 == y2)
    && PathClear(P, x1, y1, Sgn(x2 - x1), Sgn(y2 - y1), 1, Max(Abs(x1 - x2), Abs(y1 - y2)))
  }

  predicate IsKingMove(P: Position, from: int, to: int)
    requires Shaped(P) && IsSquare(from) && IsSquare(to) && !IsEmpty(P, from)
  {
    !SameColour(P, from, to) && Abs(X(from) - X(to)) <= 1 && Abs(Y(from) - Y(to)) <= 1
  }

  /** can_move: the move predicate of the piece on `from` (pawns only step forward). */
  predicate CanMove(P: Position, from: int, to: int)
    requires Shaped(P) && IsSquare(from) && IsSquare(to) && !IsEmpty(P, from)
    requires Piece(P, from) == PAWN ==> IsEmpty(P, to)
  {
    var t := Piece(P, from);
    if t == PAWN then IsPawnMove(P, from, to)
    else if t == KNIGHT then IsKnightMove(P, from, to)
    else if t == BISHOP then IsBishopMove(P, from, to)
    else if t == ROOK then IsRookMove(P, from, to)
    else if t == QUEEN then IsQueenMove(P, from, to)
    else IsKingMove(P, from, to)
  }

  /** can_take: the capture predicate of the piece on `from`. */
  predicate CanTake(P: Position, from: int, to: int)
    requires Shaped(P) && IsSquare(from) && IsSquare(to) && !IsEmpty(P, from)
  {
    var t := Piece(P, from);
    if t == PAWN then CanPawnTake(P, from, to)
    else if t == KNIGHT then IsKnightMove(P, from, to)
    else if t == BISHOP then IsBishopMove(P, from, to)
    else if t == ROOK then IsRookMove(P, from, to)
    else if t == QUEEN then IsQueenMove(P, from, to)
    else IsKingMove(P, from, to)
  }

  // ----- geometry of the predicates -----

  /** Moving k steps along a direction stays between the two ends of the ray. */
  lemma RayOnBoard(x: int, y: int, sx: int, sy: int, k: int, d: int)
    requires IsDirection(sx, sy) && 0 <= k <= d
    requires OnBoard(x, y) && OnBoard(Towards(x, sx, d), Towards(y, sy, d))
    ensures OnBoard(Towards(x, sx, k), Towards(y, sy, k))
    ensures IsSquare(RaySquare(x, y, sx, sy, k))
  {
  }

  /** The recursive path test is the statement that every square n .. d-1 steps along
      the ray is empty. */
  lemma {:induction false} PathClearAll(P: Position, x: int, y: int, sx: int, sy: int, n: int, d: int)
    requires Shaped(P) && IsDirection(sx, sy) && 1 <= n
    requires OnBoard(x, y) && OnBoard(Towards(x, sx, d), Towards(y, sy, d))
    ensures PathClear(P, x, y, sx, sy, n, d) <==>
      forall k :: n <= k < d ==> IsSquare(RaySquare(x, y, sx, sy, k)) && IsEmpty(P, RaySquare(x, y, sx, sy, k))
    decreases d - n
  {
    if n < d {
      RayOnBoard(x, y, sx, sy, n, d);
      PathClearAll(P, x, y, sx, sy, n + 1, d);
    }
  }

  /** The distance in king steps. */
  function Dist(a: int, b: int): int { Max(Abs(X(a) - X(b)), Abs(Y(a) - Y(b))) }

  /** The square k steps from a towards b. */
  function Between(a: int, b: int, k: int): int {
    RaySquare(X(a), Y(a), Sgn(X(b) - X(a)), Sgn(Y(b) - Y(a)), k)
  }

  /** a and b are distinct squares on one rank, file or diagonal with every square
      strictly between them empty. */
  predicate OpenLine(P: Position, a: int, b: int)
    requires Shaped(P)
  {
    && IsSquare(a) && IsSquare(b) && Dist(a, b) >= 1
    && (Abs(X(a) - X(b)) == Abs(Y(a) - Y(b)) || X(a) == X(b) || Y(a) == Y(b))
    && Between(a, b, Dist(a, b)) == b
    && forall k :: 1 <= k < Dist(a, b) ==> IsSquare(Between(a, b, k)) && IsEmpty(P, Between(a, b, k))
  }

  /** Dist(a, b) steps from a towards b on a line reach b. */
  lemma LineEnd(a: int, b: int)
    requires IsSquare(a) && IsSquare(b)
    requires Abs(X(a) - X(b)) == Abs(Y(a) - Y(b)) || X(a) == X(b) || Y(a) == Y(b)
    ensures Towards(X(a), Sgn(X(b) - X(a)), Dist(a, b)) == X(b)
    ensures Towards(Y(a), Sgn(Y(b) - Y(a)), Dist(a, b)) == Y(b)
    ensures Between(a, b, Dist(a, b)) == b
  {
  }

  /** One more step from a towards b adds the source's step sgn(dx) + sgn(dy) * 8. */
  lemma BetweenNext(a: int, b: int, k: int)
    requires IsSquare(a) && IsSquare(b)
    ensures Between(a, b, 1) == a + Sgn(X(b) - X(a)) + Sgn(Y(b) - Y(a)) * 8
    ensures Between(a, b, k + 1) == Between(a, b, k) + Sgn(X(b) - X(a)) + Sgn(Y(b) - Y(a)) * 8
  {
    assert a == X(a) + 8 * Y(a);
  }

  lemma DistinctSquaresApart(a: int, b: int)
    requires IsSquare(a) && IsSquare(b) && a != b
    ensures Dist(a, b) >= 1
  {
    assert a == X(a) + 8 * Y(a) && b == X(b) + 8 * Y(b);
  }

  /** The sliding test of the bishop, rook and queen predicates, on aligned squares. */
  lemma SlideIsOpenLine(P: Position, a: int, b: int)
    requires Shaped(P) && IsSquare(a) && IsSquare(b) && a != b
    requires Abs(X(a) - X(b)) == Abs(Y(a) - Y(b)) || X(a) == X(b) || Y(a) == Y(b)
    ensures OpenLine(P, a, b) <==>
      PathClear(P, X(a), Y(a), Sgn(X(b) - X(a)), Sgn(Y(b) - Y(a)), 1, Dist(a, b))
  {
    LineEnd(a, b);
    DistinctSquaresApart(a, b);
    var x, y, sx, sy, d := X(a), Y(a), Sgn(X(b) - X(a)), Sgn(Y(b) - Y(a)), Dist(a, b);
    PathClearAll(P, x, y, sx, sy, 1, d);
    assert forall k :: Between(a, b, k) == RaySquare(x, y, sx, sy, k);
    assert OpenLine(P, a, b) <==>
      forall k :: 1 <= k < d ==> IsSquare(RaySquare(x, y, sx, sy, k)) && IsEmpty(P, RaySquare(x, y, sx, sy, k));
  }

  /** The geometry of each piece type, stated without the predicates' loops. */
  predicate Geometry(P: Position, from: int, to: int)
    requires Shaped(P) && IsSquare(from) && IsSquare(to) && !IsEmpty(P, from)
  {
    var dx, dy := X(to) - X(from), Y(to) - Y(from);
    var t := Piece(P, from);
    if t == PAWN then Abs(dx) == 1 && dy == ForwardDir(Colour(P, from))
    else if t == KNIGHT then (Abs(dx) == 1 && Abs(dy) == 2) || (Abs(dx) == 2 && Abs(dy) == 1)
    else if t == BISHOP then Abs(dx) == Abs(dy) && OpenLine(P, from, to)
    else if t == ROOK then (dx == 0 || dy == 0) && OpenLine(P, from, to)
    else if t == QUEEN then OpenLine(P, from, to)
    else Abs(dx) <= 1 && Abs(dy) <= 1
  }

  /** can_take: no piece takes its own colour, and each takes exactly along its geometry. */
  lemma CanTakeIff(P: Position, from: int, to: int)
    requires Shaped(P) && IsSquare(from) && IsSquare(to) && !IsEmpty(P, from)
    ensures CanTake(P, from, to) <==> !SameColour(P, from, to) && Geometry(P, from, to)
  {
    if from != to && (Abs(X(from) - X(to)) == Abs(Y(from) - Y(to)) || X(from) == X(to) || Y(from) == Y(to)) {
      SlideIsOpenLine(P, from, to);
    }
  }

  /** can_move on an empty square: a pawn steps forward, every other piece moves as it takes. */
  lemma CanMoveIff(P: Position, from: int, to: int)
    requires WellFormed(P) && IsSquare(from) && IsSquare(to) && !IsEmpty(P, from) && IsEmpty(P, to)
    ensures CanMove(P, from, to) <==>
      if Piece(P, from) == PAWN then to - from == ForwardStep(Colour(P, from))
      else Geometry(P, from, to)
  {
    CanTakeIff(P, from, to);
  }

  // ----- threats -----

  /** is_threaten's loop over the first n slots of colour `attacker`. */
  predicate Threatens(P: Position, pos: int, attacker: int, n: int)
    requires Shaped(P) && LiveOccupied(P) && IsSquare(pos) && IsColour(attacker) && 0 <= n <= 16
  {
    n > 0
    && (Threatens(P, pos, attacker, n - 1)
        || (Alive(P, attacker + n - 1) && CanTake(P, P.location[attacker + n - 1], pos)))
  }

  /** is_threaten: some live piece of colour `attacker` can take on pos. */
  predicate Threatened(P: Position, pos: int, attacker: int)
    requires Shaped(P) && LiveOccupied(P) && IsSquare(pos) && IsColour(attacker)
  {
    Threatens(P, pos, attacker, 16)
  }

  /** is_threaten's loop finds exactly the live pieces among the first n slots that can take on pos. */
  lemma {:induction false} ThreatensIff(P: Position, pos: int, attacker: int, n: int)
    requires Shaped(P) && LiveOccupied(P) && IsSquare(pos) && IsColour(attacker) && 0 <= n <= 16
    ensures Threatens(P, pos, attacker, n) <==>
      exists s :: attacker <= s < attacker + n && Alive(P, s) && CanTake(P, P.location[s], pos)
  {
    if n > 0 {
      ThreatensIff(P, pos, attacker, n - 1);
    }
  }

  /** Once a slot that can take is found, the whole loop reports the threat. */
  lemma ThreatensGrows(P: Position, pos: int, attacker: int, n: int)
    requires Shaped(P) && LiveOccupied(P) && IsSquare(pos) && IsColour(attacker) && 0 <= n <= 16
    requires Threatens(P, pos, attacker, n)
    ensures Threatened(P, pos, attacker)
  {
    ThreatensIff(P, pos, attacker, n);
    ThreatensIff(P, pos, attacker, 16);
  }

  /** The board of is_protected: a piece of the other colour pretended onto pos. */
  function PretendTarget(P: Position, pos: int, colour: int): (Q: Position)
    requires Shaped(P) && LiveOccupied(P) && IsSquare(pos) && IsColour(colour)
    ensures Shaped(Q) && LiveOccupied(Q)
    ensures Q.location == P.location && Q.types == P.types
    ensures Q.board == P.board[pos := Adverse(colour)]
  {
    P.(board := P.board[pos := Adverse(colour)])
  }

  /** is_protected: pieces of `colour` could take an enemy piece standing on pos. */
  predicate Protected(P: Position, pos: int, colour: int)
    requires Shaped(P) && LiveOccupied(P) && IsSquare(pos) && IsColour(colour)
  {
    Threatened(PretendTarget(P, pos, colour), pos, colour)
  }

  /** A live non-king slot's square holds that slot, of that slot's colour. */
  lemma LiveSlotFacts(P: Position, s: int)
    requires WellFormed(P) && IsSlot(s) && Alive(P, s)
    ensures IsSquare(P.location[s]) && P.board[P.location[s]] == s
    ensures !IsEmpty(P, P.location[s]) && Colour(P, P.location[s]) == SlotColour(s)
    ensures Piece(P, P.location[s]) == KING <==> s % 16 == KING1
  {
  }

  /** find_king_attacker's loop from slot offset i: the square of the first of the
      slots attacker+i .. attacker+14 whose piece can take on kingPos. */
  function FindAttackerFrom(P: Position, kingPos: int, attacker: int, i: int): (r: Option<int>)
    requires WellFormed(P) && IsSquare(kingPos) && IsColour(attacker) && 0 <= i <= 15
    ensures r.Some? ==>
      (&& IsSquare(r.value) && !IsEmpty(P, r.value)
       && Colour(P, r.value) == attacker && Piece(P, r.value) != KING
       && CanTake(P, r.value, kingPos))
    ensures r.None? <==>
      forall s :: attacker + i <= s < attacker + 15 && Alive(P, s) ==> !CanTake(P, P.location[s], kingPos)
    decreases 15 - i
  {
    if i == 15 then None
    else if Alive(P, attacker + i) && CanTake(P, P.location[attacker + i], kingPos) then
      LiveSlotFacts(P, attacker + i);
      Some(P.location[attacker + i])
    else FindAttackerFrom(P, kingPos, attacker, i + 1)
  }

  /** find_king_attacker: the checking piece's square, never the enemy king's
      (None where the source hits assert(false)). */
  function FindKingAttacker(P: Position, kingColour: int): (r: Option<int>)
    requires WellFormed(P) && IsColour(kingColour) && Alive(P, kingColour + KING1)
    ensures r.Some? ==>
      (&& IsSquare(r.value) && !IsEmpty(P, r.value)
       && Colour(P, r.value) == Adverse(kingColour) && Piece(P, r.value) != KING
       && CanTake(P, r.value, P.location[kingColour + KING1]))
    ensures r.None? <==>
      forall s :: Adverse(kingColour) <= s < Adverse(kingColour) + 15 && Alive(P, s) ==>
        !CanTake(P, P.location[s], P.location[kingColour + KING1])
  {
    LiveSlotFacts(P, kingColour + KING1);
    FindAttackerFrom(P, P.location[kingColour + KING1], Adverse(kingColour), 0)
  }

  // ----- the opening position -----

  /** The initial piece_location table (white pawns, white pieces, black pawns, black pieces). */
  const InitialLocation: seq<int> :=
    [8, 9, 10, 11, 12, 13, 14, 15] + [1, 6, 2, 5, 0, 7, 3, 4] +
    [48, 49, 50, 51, 52, 53, 54, 55] + [57, 62, 58, 61, 56, 63, 59, 60]

  /** The initial piece_type table. */
  const InitialTypes: seq<int> :=
    [PAWN, PAWN, PAWN, PAWN, PAWN, PAWN, PAWN, PAWN] +
    [KNIGHT, KNIGHT, BISHOP, BISHOP, ROOK, ROOK, QUEEN, KING] +
    [PAWN, PAWN, PAWN, PAWN, PAWN, PAWN, PAWN, PAWN] +
    [KNIGHT, KNIGHT, BISHOP, BISHOP, ROOK, ROOK, QUEEN, KING]

  /** The board, rank by rank, that init_board derives from InitialLocation. */
  const InitialBoard: seq<int> :=
    [12, 8, 10, 14, 15, 11, 9, 13] + [0, 1, 2, 3, 4, 5, 6, 7] +
    [-1, -1, -1, -1, -1, -1, -1, -1] + [-1, -1, -1, -1, -1, -1, -1, -1] +
    [-1, -1, -1, -1, -1, -1, -1, -1] + [-1, -1, -1, -1, -1, -1, -1, -1] +
    [16, 17, 18, 19, 20, 21, 22, 23] + [28, 24, 26, 30, 31, 27, 25, 29]

  function Initial(): Position {
    Position(InitialBoard, InitialLocation, InitialTypes)
  }

  lemma InitialSlot(s: int)
    requires 0 <= s < 32
    ensures 0 <= InitialLocation[s] < 64 && InitialBoard[InitialLocation[s]] == s
    ensures PAWN <= InitialTypes[s] <= KING && (InitialTypes[s] == KING <==> s % 16 == KING1)
    ensures InitialTypes[s] == PAWN ==> 8 <= InitialLocation[s] < 56
  {
  }

  lemma InitialSquare(sq: int)
    requires 0 <= sq < 64
    ensures -1 <= InitialBoard[sq] < 32
    ensures InitialBoard[sq] != EMPTY ==> InitialLocation[InitialBoard[sq]] == sq
  {
  }

  /** The opening position satisfies the invariant verify_board checks, and more. */
  lemma InitialWellFormed()
    ensures WellFormed(Initial())
  {
    forall s | 0 <= s < 32 { InitialSlot(s); }
    forall sq | 0 <= sq < 64 { InitialSquare(sq); }
  }
}

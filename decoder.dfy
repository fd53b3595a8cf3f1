/**
 * The variation-tree walkers of book_decoder.c: decode_variations, which replays the
 * book on the engine's tables, and the level-counting skippers skip_branch and
 * skip_all_branches. The book is the byte buffer the source reads; a read past its end,
 * a failed assert of the source and a rank the move list does not have are errors here.
 */
module BookDecoder {
  import opened Wrappers
  import opened ChessBoard
  import opened MoveApply
  import opened MoveGen
  import opened BookFormat
  import Engine

  datatype DecodeError =
    | OutOfBook(at: int)                          // a read past the end of the book
    | BadPrincipal(at: int)                       // the rank after 0xC0 is not of class 0x00
    | RankTooHigh(at: int, rank: int, count: int) // the source prints "> !!!" and reads a stale move
    | NoMoves(error: GenError)                    // search_moves cannot run

  /** One line of the printed tree: a move at its depth (with "!" when recommended), or
      the name of the sub-book the line continues in. */
  datatype Line =
    | Played(depth: nat, m: Move, recommended: bool)
    | SubBookRef(name: seq<Byte>)

  /** Where a walk stops in the book and what it printed. */
  datatype Walk = Walk(next: int, lines: seq<Line>)

  /** The two engine calls decode_variations makes, on positions of type Pos: search_moves
      (for the side to move, after the last move) and do_move. */
  datatype Rules<!Pos> = Rules(search: (Pos, int, Move) -> Result<seq<Move>, GenError>, play: (Pos, Move) -> Pos)

  /** The engine's search_moves: Generate wherever its precondition holds. */
  function Search(P: Position, turn: int, last: Move): Result<seq<Move>, GenError> {
    if WellFormed(P) && IsColour(turn) && LastOk(P, last) then Generate(P, turn, last) else Err(KingMissing)
  }

  /** The engine's do_move: ApplyMove wherever its precondition holds. */
  function Play(P: Position, m: Move): Position {
    if WellFormed(P) && GoodMove(P, m) then ApplyMove(P, m) else P
  }

  const EngineRules: Rules<Position> := Rules(Search, Play)

  /** odd(depth) ? BLACK : WHITE */
  function Turn(depth: nat): int {
    if depth % 2 == 1 then BLACK else WHITE
  }

  /** The lines acc printed before a walk's own. */
  function Prefix(acc: seq<Line>, r: Result<Walk, DecodeError>): Result<Walk, DecodeError> {
    if r.Ok? then Ok(Walk(r.value.next, acc + r.value.lines)) else r
  }

  lemma PrefixPrefix(a: seq<Line>, b: seq<Line>, r: Result<Walk, DecodeError>)
    ensures Prefix(a, Prefix(b, r)) == Prefix(a + b, r)
  {
    if r.Ok? {
      assert a + (b + r.value.lines) == a + b + r.value.lines;
    }
  }

  lemma PrefixNothing(r: Result<Walk, DecodeError>)
    ensures Prefix([], r) == r
  {
    if r.Ok? {
      assert [] + r.value.lines == r.value.lines;
    }
  }

  // ----- decode_variations -----

  /** decode_variations(depth, last) on position P with the cursor at i: one entry of the
      do-while over the siblings of a node, then the siblings after it. Every sibling
      starts again from P. */
  function Variations<Pos>(rules: Rules<Pos>, P: Pos, book: seq<Byte>, i: int, depth: nat, last: Move): (r: Result<Walk, DecodeError>)
    requires 0 <= i
    ensures r.Ok? ==> i <= r.value.next
    decreases |book| - i, 2
  {
    if i >= |book| then Err(OutOfBook(i))
    else if IsEscape(book[i]) then
      if i + 4 >= |book| then Err(OutOfBook(i + 4))
      else Ok(Walk(i + 5, [SubBookRef(book[i + 1..i + 5])]))
    else
      var flags := Flags(book[i]);
      var j := if flags == PRINCIPAL then i + 1 else i;
      if j >= |book| then Err(OutOfBook(j))
      else if flags == PRINCIPAL && Flags(book[j]) != PLAIN then Err(BadPrincipal(j))
      else Ply(rules, P, book, j, flags, depth, last)
  }

  /** The entry whose rank byte is at j and whose class is flags: search_moves, then the
      rank into its list. */
  function Ply<Pos>(rules: Rules<Pos>, P: Pos, book: seq<Byte>, j: int, flags: int, depth: nat, last: Move): (r: Result<Walk, DecodeError>)
    requires 0 <= j < |book|
    ensures r.Ok? ==> j <= r.value.next
    decreases |book| - j, 1
  {
    match rules.search(P, Turn(depth), last)
    case Err(e) => Err(NoMoves(e))
    case Ok(ms) =>
      var rank := EntryRank(book[j]);
      if rank == 0 then Ok(Walk(j, []))
      else if rank > |ms| then Err(RankTooHigh(j, rank, |ms|))
      else Reply(rules, P, book, j, flags, depth, last, ms[rank - 1])
  }

  /** The chosen move m is printed and played: a class-0x40 entry stops after its byte,
      the others decode the reply node on the new position, then (with the 0x80 bit)
      the remaining siblings on P. */
  function Reply<Pos>(rules: Rules<Pos>, P: Pos, book: seq<Byte>, j: int, flags: int, depth: nat, last: Move, m: Move): (r: Result<Walk, DecodeError>)
    requires 0 <= j < |book|
    ensures r.Ok? ==> j < r.value.next
    decreases |book| - j, 0
  {
    var line := Played(depth, m, flags == PRINCIPAL);
    if flags == LEAF then Ok(Walk(j + 1, [line]))
    else
      match Variations(rules, rules.play(P, m), book, j + 1, depth + 1, m)
      case Err(e) => Err(e)
      case Ok(w) =>
        if HasSibling(flags) then Prefix([line] + w.lines, Variations(rules, P, book, w.next, depth, last))
        else Ok(Walk(w.next, [line] + w.lines))
  }

  /** What a method reports against a walk: the same error, or the same cursor and lines. */
  predicate Outcome(r: Result<Walk, DecodeError>, err: Option<DecodeError>, index: int, added: seq<Line>) {
    match r
    case Ok(w) => err.None? && index == w.next && added == w.lines
    case Err(e) => err == Some(e)
  }

  /** What one pass of the do-while reports against a walk: with more, no error yet and
      the walk goes on from index; without, the walk's outcome. */
  predicate Reports<Pos>(rules: Rules<Pos>, r: Result<Walk, DecodeError>, more: bool, err: Option<DecodeError>,
                         index: int, added: seq<Line>, P: Pos, book: seq<Byte>, depth: nat, last: Move)
  {
    && (more ==> err.None? && 0 <= index && r == Prefix(added, Variations(rules, P, book, index, depth, last)))
    && (!more ==> Outcome(r, err, index, added))
  }

  lemma OutcomePrefix(acc: seq<Line>, r: Result<Walk, DecodeError>, err: Option<DecodeError>, index: int, added: seq<Line>)
    requires Outcome(r, err, index, added)
    ensures Outcome(Prefix(acc, r), err, index, acc + added)
  {
  }

  /** A rank of 0 ends the node where it stands: the byte is not consumed. */
  lemma RankZeroStops<Pos>(rules: Rules<Pos>, P: Pos, book: seq<Byte>, i: int, depth: nat, last: Move)
    requires 0 <= i < |book| && book[i] == 0 && rules.search(P, Turn(depth), last).Ok?
    ensures Variations(rules, P, book, i, depth, last) == Ok(Walk(i, []))
  {
  }

  /** An escape byte with low bits set consumes itself and four name bytes, and ends the node. */
  lemma EscapeTakesFive<Pos>(rules: Rules<Pos>, P: Pos, book: seq<Byte>, i: int, depth: nat, last: Move)
    requires 0 <= i && i + 4 < |book| && IsEscape(book[i])
    ensures Variations(rules, P, book, i, depth, last) == Ok(Walk(i + 5, [SubBookRef(book[i + 1..i + 5])]))
  {
  }

  /** A class-0x40 entry with a rank plays the move the rank names and stops after its
      byte, without a reply. */
  lemma LeafPlaysOne<Pos>(rules: Rules<Pos>, P: Pos, book: seq<Byte>, i: int, depth: nat, last: Move)
    requires 0 <= i < |book| && Flags(book[i]) == LEAF && EntryRank(book[i]) != 0
    ensures var r := Variations(rules, P, book, i, depth, last);
      var g := rules.search(P, Turn(depth), last);
      r.Ok? ==> (g.Ok? && EntryRank(book[i]) <= |g.value|
        && r.value == Walk(i + 1, [Played(depth, g.value[EntryRank(book[i]) - 1], false)]))
  {
    var g := rules.search(P, Turn(depth), last);
    assert Variations(rules, P, book, i, depth, last) == Ply(rules, P, book, i, LEAF, depth, last);
    if g.Ok? && EntryRank(book[i]) <= |g.value| {
      var m := g.value[EntryRank(book[i]) - 1];
      assert Ply(rules, P, book, i, LEAF, depth, last) == Reply(rules, P, book, i, LEAF, depth, last, m);
    }
  }

  /** A rank beyond the list is an error, never a move; after a bare 0xC0 the rank is the
      next byte's, and the error names that byte. */
  lemma RankBeyondList<Pos>(rules: Rules<Pos>, P: Pos, book: seq<Byte>, i: int, depth: nat, last: Move)
    requires 0 <= i < |book| && !IsEscape(book[i])
    requires Flags(book[i]) == PRINCIPAL ==> i + 1 < |book| && Flags(book[i + 1]) == PLAIN
    requires rules.search(P, Turn(depth), last).Ok?
    ensures var j := if Flags(book[i]) == PRINCIPAL then i + 1 else i;
      var n := |rules.search(P, Turn(depth), last).value|;
      EntryRank(book[j]) > n ==> Variations(rules, P, book, i, depth, last) == Err(RankTooHigh(j, EntryRank(book[j]), n))
  {
  }

  /** decode_variations consumes exactly the bytes of a well-formed branch. */
  lemma {:induction false} VariationsSpan<Pos>(rules: Rules<Pos>, P: Pos, book: seq<Byte>, i: int, depth: nat, last: Move, n: Node)
    requires ValidNode(n) && Holds(book, i, Enc(n))
    ensures var r := Variations(rules, P, book, i, depth, last);
      r.Ok? ==> r.value.next == i + |Enc(n)|
    decreases n, 2
  {
    HoldsFirst(book, i, n);
    match n
    case Leaf(_) =>
      assert |Enc(n)| == 1;
      LeafPlaysOne(rules, P, book, i, depth, last);
    case Ref(_, _) =>
      HoldsRef(book, i, n);
      assert |Enc(n)| == 5;
      EscapeTakesFive(rules, P, book, i, depth, last);
    case Then(_, _) =>
      HoldsThen(book, i, n);
      assert |Enc(n)| == 1 + |Enc(n.child)|;
      PlySpan(rules, P, book, i, PLAIN, depth, last, n);
    case Fork(_, _, _, _) =>
      HoldsFork(book, i, n);
      var j := if n.principal then i + 1 else i;
      var flags := if n.principal then PRINCIPAL else SIBLING;
      assert |Enc(n)| == (j - i) + 1 + |Enc(n.child)| + |Enc(n.rest)|;
      assert EntryRank(book[j]) == n.rank;
      PlySpan(rules, P, book, j, flags, depth, last, n);
  }

  /** The bytes after an entry's rank byte: the reply node, then (for a fork) the
      remaining siblings. */
  function Tail(n: Node): (r: int)
    requires ValidNode(n) && (n.Then? || n.Fork?)
    ensures r > 0
  {
    if n.Then? then |Enc(n.child)| else |Enc(n.child)| + |Enc(n.rest)|
  }

  /** The class of an entry agrees with the node's shape. */
  predicate Shape(n: Node, flags: int) {
    match n
    case Then(_, _) => flags == PLAIN
    case Fork(_, _, _, _) => flags == SIBLING || flags == PRINCIPAL
    case _ => false
  }

  /** The entry of a continued line or a fork, from its rank byte at j. */
  lemma {:induction false} PlySpan<Pos>(rules: Rules<Pos>, P: Pos, book: seq<Byte>, j: int, flags: int, depth: nat, last: Move, n: Node)
    requires ValidNode(n) && Shape(n, flags) && 0 <= j < |book|
    requires EntryRank(book[j]) == n.rank && Holds(book, j + 1, Enc(n.child))
    requires n.Fork? ==> Holds(book, j + 1 + |Enc(n.child)|, Enc(n.rest))
    ensures var r := Ply(rules, P, book, j, flags, depth, last);
      r.Ok? ==> r.value.next == j + 1 + Tail(n)
    decreases n, 1
  {
    var g := rules.search(P, Turn(depth), last);
    if g.Ok? && n.rank <= |g.value| {
      var m := g.value[n.rank - 1];
      var w := Variations(rules, rules.play(P, m), book, j + 1, depth + 1, m);
      VariationsSpan(rules, rules.play(P, m), book, j + 1, depth + 1, m, n.child);
      if n.Fork? && w.Ok? {
        VariationsSpan(rules, P, book, w.value.next, depth, last, n.rest);
      }
    }
  }

  // ----- skip_branch and skip_all_branches -----

  /** skip_branch's loop from index i with `level` branches open: 0x40 and a sub-book
      reference close one, 0x80 and a bare 0xC0 open one, 0x00 changes nothing. */
  function SkipFrom(book: seq<Byte>, i: int, level: int): (r: Result<int, DecodeError>)
    requires 0 <= i
    ensures r.Ok? ==> i <= r.value
    ensures r.Ok? && level != 0 ==> i < r.value
    decreases |book| - i
  {
    if level == 0 then Ok(i)
    else if i >= |book| then Err(OutOfBook(i))
    else
      var b := book[i];
      if Flags(b) == PLAIN then SkipFrom(book, i + 1, level)
      else if Flags(b) == LEAF then SkipFrom(book, i + 1, level - 1)
      else if Flags(b) == SIBLING then SkipFrom(book, i + 1, level + 1)
      else if b % 8 != 0 then SkipFrom(book, i + 5, level - 1)
      else SkipFrom(book, i + 1, level + 1)
  }

  /** skip_branch's level count over a well-formed branch: it is one lower after the
      branch's last byte. */
  lemma {:induction false} SkipSpans(book: seq<Byte>, i: int, level: int, n: Node)
    requires ValidNode(n) && Holds(book, i, Enc(n)) && level >= 1
    ensures SkipFrom(book, i, level) == SkipFrom(book, i + |Enc(n)|, level - 1)
    decreases n, 1
  {
    HoldsFirst(book, i, n);
    match n
    case Leaf(_) =>
      assert |Enc(n)| == 1;
    case Ref(_, _) =>
      HoldsRef(book, i, n);
      assert |Enc(n)| == 5;
    case Then(_, c) =>
      SkipThenSpans(book, i, level, n);
    case Fork(_, _, _, _) =>
      SkipForkSpans(book, i, level, n);
  }

  lemma {:induction false} SkipThenSpans(book: seq<Byte>, i: int, level: int, n: Node)
    requires ValidNode(n) && n.Then? && Holds(book, i, Enc(n)) && level >= 1
    ensures SkipFrom(book, i, level) == SkipFrom(book, i + |Enc(n)|, level - 1)
    decreases n, 0
  {
    HoldsThen(book, i, n);
    assert |Enc(n)| == 1 + |Enc(n.child)|;
    assert SkipFrom(book, i, level) == SkipFrom(book, i + 1, level);
    SkipSpans(book, i + 1, level, n.child);
  }

  lemma {:induction false} SkipForkSpans(book: seq<Byte>, i: int, level: int, n: Node)
    requires ValidNode(n) && n.Fork? && Holds(book, i, Enc(n)) && level >= 1
    ensures SkipFrom(book, i, level) == SkipFrom(book, i + |Enc(n)|, level - 1)
    decreases n, 0
  {
    HoldsFork(book, i, n);
    var h := if n.principal then 2 else 1;
    var c, rest := n.child, n.rest;
    assert |Enc(n)| == h + |Enc(c)| + |Enc(rest)|;
    assert SkipFrom(book, i, level) == SkipFrom(book, i + h, level + 1) by {
      if n.principal {
        assert SkipFrom(book, i + 1, level + 1) == SkipFrom(book, i + 2, level + 1);
      }
    }
    SkipSpans(book, i + h, level + 1, c);
    SkipSpans(book, i + h + |Enc(c)|, level, rest);
  }

  /** skip_branch stops right after a well-formed branch. */
  lemma SkipBranchEnd(book: seq<Byte>, i: int, n: Node)
    requires ValidNode(n) && Holds(book, i, Enc(n))
    ensures SkipFrom(book, i, 1) == Ok(i + |Enc(n)|)
  {
    SkipSpans(book, i, 1, n);
  }

  /** decode_variations and skip_branch agree on where a well-formed branch ends. */
  lemma DecodeAndSkipAgree<Pos>(rules: Rules<Pos>, P: Pos, book: seq<Byte>, i: int, depth: nat, last: Move, n: Node)
    requires ValidNode(n) && Holds(book, i, Enc(n))
    ensures var r := Variations(rules, P, book, i, depth, last);
      r.Ok? ==> SkipFrom(book, i, 1) == Ok(r.value.next)
  {
    VariationsSpan(rules, P, book, i, depth, last, n);
    SkipBranchEnd(book, i, n);
  }

  /** skip_all_branches(flags) from index i: a 0xC5 byte and its name, or skip_branch
      repeated while the flags carry 0x80, and once more for the last branch. */
  function SkipAllFrom(book: seq<Byte>, i: int, flags: Byte): (r: Result<int, DecodeError>)
    requires 0 <= i
    ensures r.Ok? ==> i < r.value
  {
    if i >= |book| then Err(OutOfBook(i))
    else if book[i] == SUB_BOOK then
      if i + 4 >= |book| then Err(OutOfBook(i + 4)) else Ok(i + 5)
    else SkipSiblings(book, i, flags)
  }

  function SkipSiblings(book: seq<Byte>, i: int, flags: Byte): (r: Result<int, DecodeError>)
    requires 0 <= i
    ensures r.Ok? ==> i < r.value
    decreases |book| - i
  {
    if HasSibling(flags) then
      match SkipFrom(book, i, 1)
      case Err(e) => Err(e)
      case Ok(j) => if j >= |book| then Err(OutOfBook(j)) else SkipSiblings(book, j, book[j])
    else SkipFrom(book, i, 1)
  }

  /** With the 0x80 bit clear, skip_all_branches skips exactly one well-formed branch. */
  lemma SkipAllOne(book: seq<Byte>, i: int, flags: Byte, n: Node)
    requires ValidNode(n) && Holds(book, i, Enc(n)) && !HasSibling(flags)
    ensures SkipAllFrom(book, i, flags) == Ok(i + |Enc(n)|)
  {
    HoldsFirst(book, i, n);
    SkipBranchEnd(book, i, n);
    if book[i] == SUB_BOOK {
      HoldsRef(book, i, n);
    }
  }

  /** What a skipping method reports against its function. */
  predicate Reached(r: Result<int, DecodeError>, err: Option<DecodeError>, index: int) {
    match r
    case Ok(j) => err.None? && index == j
    case Err(e) => err == Some(e)
  }

  /** The cursor over the book, with the engine whose tables the decoder replays moves on. */
  class Decoder {
    const engine: Engine.Engine
    const book: seq<Byte>
    /** The rules the walk is stated over: they agree with the engine's search_moves
        and do_move wherever those may be called. */
    ghost const rules: Rules<Position>
    var index: int
    var lines: seq<Line>

    ghost predicate Faithful() {
      && (forall P, turn, last {:trigger Generate(P, turn, last)} ::
            WellFormed(P) && IsColour(turn) && LastOk(P, last) ==> rules.search(P, turn, last) == Generate(P, turn, last))
      && (forall P, m {:trigger ApplyMove(P, m)} ::
            WellFormed(P) && GoodMove(P, m) ==> rules.play(P, m) == ApplyMove(P, m))
    }

    constructor (e: Engine.Engine, b: seq<Byte>)
      ensures engine == e && book == b && index == 0 && lines == []
      ensures rules == EngineRules && Faithful()
    {
      engine := e;
      book := b;
      rules := EngineRules;
      index := 0;
      lines := [];
    }

    /** skip_branch: walks to the end of the branch the cursor stands in (the source's
        flags argument is unused). */
    method SkipBranch() returns (err: Option<DecodeError>)
      requires 0 <= index
      modifies this
      ensures Reached(SkipFrom(book, old(index), 1), err, index)
    {
      var level := 1;
      while level != 0
        invariant old(index) <= index
        invariant SkipFrom(book, old(index), 1) == SkipFrom(book, index, level)
        decreases |book| - index
      {
        if index >= |book| {
          return Some(OutOfBook(index));
        }
        var b := book[index];
        if Flags(b) == LEAF {
          level := level - 1;
        } else if Flags(b) == SIBLING {
          level := level + 1;
        } else if Flags(b) == PRINCIPAL {
          if b % 8 != 0 {
            index := index + 4;
            level := level - 1;
          } else {
            level := level + 1;
          }
        }
        index := index + 1;
      }
      return None;
    }

    /** skip_all_branches(flags). */
    method SkipAllBranches(flags: Byte) returns (err: Option<DecodeError>)
      requires 0 <= index
      modifies this
      ensures Reached(SkipAllFrom(book, old(index), flags), err, index)
    {
      if index >= |book| {
        return Some(OutOfBook(index));
      }
      if book[index] == SUB_BOOK {
        if index + 4 >= |book| {
          return Some(OutOfBook(index + 4));
        }
        index := index + 5;
        return None;
      }
      var f := flags;
      while HasSibling(f)
        invariant old(index) <= index
        invariant SkipAllFrom(book, old(index), flags) == SkipSiblings(book, index, f)
        decreases |book| - index
      {
        err := SkipBranch();
        if err.Some? {
          return;
        }
        if index >= |book| {
          return Some(OutOfBook(index));
        }
        f := book[index];
      }
      err := SkipBranch();
    }

    /** decode_variations(depth, last): the position is saved on entry, put back before
        each sibling and on exit; the lines are the printed tree. */
    method DecodeVariations(depth: nat, last: Move) returns (err: Option<DecodeError>, ghost added: seq<Line>)
      requires Faithful() && engine.Valid() && WellFormed(engine.Pos()) && LastOk(engine.Pos(), last) && 0 <= index
      modifies this, engine, engine.board, engine.location, engine.types
      ensures engine.Pos() == old(engine.Pos())
      ensures lines == old(lines) + added
      ensures Outcome(Variations(rules, old(engine.Pos()), book, old(index), depth, last), err, index, added)
      decreases |book| - index, 3
    {
      ghost var P := engine.Pos();
      var turn := Turn(depth);
      var boardBackup, locationBackup, typesBackup := engine.board[..], engine.location[..], engine.types[..];
      ghost var start := index;
      added := [];
      PrefixNothing(Variations(rules, P, book, start, depth, last));
      while true
        invariant start <= index
        invariant index > start ==> start < |book|
        invariant lines == old(lines) + added
        invariant Variations(rules, P, book, start, depth, last) == Prefix(added, Variations(rules, P, book, index, depth, last))
        decreases |book| - index
      {
        engine.Restore(boardBackup, locationBackup, typesBackup);
        assert engine.Pos() == P;
        var more;
        ghost var step;
        ghost var acc, at := added, index;
        more, err, step := Entry(depth, turn, last, P);
        added := added + step;
        if !more {
          OutcomePrefix(acc, Variations(rules, P, book, at, depth, last), err, index, step);
          break;
        }
        PrefixPrefix(acc, step, Variations(rules, P, book, index, depth, last));
      }
      engine.Restore(boardBackup, locationBackup, typesBackup);
    }

    /** One pass of decode_variations' do-while, from the class byte at the cursor: more
        is the 0x80 bit of the class, once the entry and its reply node are done. */
    method Entry(depth: nat, turn: int, last: Move, ghost P: Position)
      returns (more: bool, err: Option<DecodeError>, ghost added: seq<Line>)
      requires Faithful() && engine.Valid() && engine.Pos() == P && WellFormed(P) && LastOk(P, last)
      requires turn == Turn(depth) && 0 <= index
      modifies this, engine, engine.board, engine.location, engine.types
      ensures lines == old(lines) + added
      ensures more ==> old(index) < index && old(index) < |book|
      ensures Reports(rules, Variations(rules, P, book, old(index), depth, last), more, err, index, added, P, book, depth, last)
      decreases |book| - index, 2
    {
      if index >= |book| {
        return false, Some(OutOfBook(index)), [];
      }
      var flags := Flags(book[index]);
      if flags == PRINCIPAL {
        if book[index] % 8 != 0 {
          if index + 4 >= |book| {
            return false, Some(OutOfBook(index + 4)), [];
          }
          var ref := SubBookRef(book[index + 1..index + 5]);
          lines := lines + [ref];
          index := index + 5;
          return false, None, [ref];
        }
        index := index + 1;
        if index >= |book| {
          return false, Some(OutOfBook(index)), [];
        }
        if Flags(book[index]) != PLAIN {
          return false, Some(BadPrincipal(index)), [];
        }
      }
      ghost var j := index;
      assert Variations(rules, P, book, old(index), depth, last) == Ply(rules, P, book, j, flags, depth, last);
      more, err, added := PlyStep(depth, turn, flags, last, P);
    }

    /** search_moves on the engine: the list the rules give, every move of it playable. */
    method Moves(turn: int, last: Move, ghost P: Position) returns (e: Option<GenError>)
      requires Faithful() && engine.Valid() && engine.Pos() == P && WellFormed(P) && LastOk(P, last) && IsColour(turn)
      modifies engine, engine.board, engine.location
      ensures engine.Valid() && engine.Pos() == P
      ensures match rules.search(P, turn, last)
        case Ok(ms) => e.None? && engine.moves == ms
        case Err(x) => e == Some(x)
      ensures e.None? ==> forall k :: 0 <= k < |engine.moves| ==> GoodMove(P, engine.moves[k])
    {
      e := engine.SearchMoves(turn, last);
      assert rules.search(P, turn, last) == Generate(P, turn, last);
      if e.None? {
        forall k | 0 <= k < |engine.moves|
          ensures GoodMove(P, engine.moves[k])
        {
          assert engine.moves[k] in Generate(P, turn, last).value;
        }
      }
    }

    /** search_moves, then the rank at the cursor into its list. */
    method PlyStep(depth: nat, turn: int, flags: int, last: Move, ghost P: Position)
      returns (more: bool, err: Option<DecodeError>, ghost added: seq<Line>)
      requires Faithful() && engine.Valid() && engine.Pos() == P && WellFormed(P) && LastOk(P, last)
      requires turn == Turn(depth) && 0 <= index < |book|
      modifies this, engine, engine.board, engine.location, engine.types
      ensures lines == old(lines) + added
      ensures more ==> old(index) < index
      ensures Reports(rules, Ply(rules, P, book, old(index), flags, depth, last), more, err, index, added, P, book, depth, last)
      decreases |book| - index, 1
    {
      var e := Moves(turn, last, P);
      if e.Some? {
        return false, Some(NoMoves(e.value)), [];
      }
      var rank := EntryRank(book[index]);
      if rank == 0 {
        return false, None, [];
      }
      if rank > |engine.moves| {
        return false, Some(RankTooHigh(index, rank, |engine.moves|)), [];
      }
      var m := engine.moves[rank - 1];
      assert Ply(rules, P, book, index, flags, depth, last) == Reply(rules, P, book, index, flags, depth, last, m);
      more, err, added := ReplyStep(depth, flags, last, m, P);
    }

    /** do_move on the engine: the tables then hold the position Play gives, a valid
        starting point for the reply's search. */
    method PlayOn(m: Move, ghost P: Position)
      requires Faithful() && engine.Valid() && engine.Pos() == P && WellFormed(P) && GoodMove(P, m)
      modifies engine.board, engine.location, engine.types
      ensures engine.Valid() && engine.Pos() == rules.play(P, m)
      ensures WellFormed(engine.Pos()) && LastOk(engine.Pos(), m)
    {
      engine.DoMove(m);
      ApplyGivesLastOk(P, m);
    }

    /** do_move, the line printed, and the reply node decoded one level deeper. */
    method ReplyStep(depth: nat, flags: int, last: Move, m: Move, ghost P: Position)
      returns (more: bool, err: Option<DecodeError>, ghost added: seq<Line>)
      requires Faithful() && engine.Valid() && engine.Pos() == P && WellFormed(P) && LastOk(P, last) && GoodMove(P, m)
      requires 0 <= index < |book|
      modifies this, engine, engine.board, engine.location, engine.types
      ensures lines == old(lines) + added
      ensures more ==> old(index) < index
      ensures Reports(rules, Reply(rules, P, book, old(index), flags, depth, last, m), more, err, index, added, P, book, depth, last)
      decreases |book| - index, 0
    {
      PlayOn(m, P);
      var line := Played(depth, m, flags == PRINCIPAL);
      lines := lines + [line];
      index := index + 1;
      if flags == LEAF {
        return false, None, [line];
      }
      var childErr, childLines := DecodeVariations(depth + 1, m);
      added := [line] + childLines;
      if childErr.Some? {
        return false, childErr, added;
      }
      more := HasSibling(flags);
      err := None;
    }
  }
}

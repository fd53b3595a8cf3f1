/**
 * book_rebuild.c: merges the sub-books into the master book. parse copies the master
 * book to the output and records the rank path in moves[]; at a 0xC5 reference it
 * names the sub-book from the next four bytes, loads it and lets synchronize walk it
 * along the recorded path, copying the branch found there (or one 0x41 when none is).
 * The files are a map from names to contents; the output file is the sequence `out`.
 */
module BookRebuild {
  import opened Wrappers
  import opened BookFormat

  datatype RebuildError =
    | OutOfBook(at: int)                 // a read past the end of the master book
    | MissingSubBook(name: seq<char>)    // fopen fails and the source's assert aborts

  /** What synchronize writes when no branch of the sub-book follows the path:
      a single move of rank 1 that ends the line. */
  const BRANCH_NOT_FOUND: Byte := 0x41

  /** The part of a sub-book's file name after its four letters. */
  const SUFFIX := "#0x1000.BIN"

  /** lowercase: 'A'..'Z' to 'a'..'z', every other character unchanged. */
  function Lowercase(c: char): (r: char)
    ensures 'A' <= c <= 'Z' ==> 'a' <= r <= 'z' && r as int - 'a' as int == c as int - 'A' as int
    ensures !('A' <= c <= 'Z') ==> r == c
  {
    if 'A' <= c <= 'Z' then (c as int + 32) as char else c
  }

  /** Lowercasing is idempotent: no result is an upper-case letter. */
  lemma LowercaseIdempotent(c: char)
    ensures !('A' <= Lowercase(c) <= 'Z') && Lowercase(Lowercase(c)) == Lowercase(c)
  {
  }

  /** The name read_subbook opens for the four bytes after a 0xC5. */
  function SubBookName(letters: seq<Byte>): (r: seq<char>)
    requires |letters| == 4
    ensures |r| == 4 + |SUFFIX| && r[4..] == SUFFIX
    ensures forall i :: 0 <= i < 4 ==> r[i] == Lowercase(letters[i] as char)
  {
    [Lowercase(letters[0] as char), Lowercase(letters[1] as char),
     Lowercase(letters[2] as char), Lowercase(letters[3] as char)] + SUFFIX
  }

  /** Two references whose letters differ only in case name the same sub-book. */
  lemma NameIgnoresCase(a: seq<Byte>, b: seq<Byte>)
    requires |a| == 4 && |b| == 4
    requires forall i :: 0 <= i < 4 ==> Lowercase(a[i] as char) == Lowercase(b[i] as char)
    ensures SubBookName(a) == SubBookName(b)
  {
    assert SubBookName(a)[..4] == SubBookName(b)[..4];
    assert SubBookName(a) == SubBookName(a)[..4] + SUFFIX;
    assert SubBookName(b) == SubBookName(b)[..4] + SUFFIX;
  }

  /** The sub-book buffer at index k: the file's bytes, then the zeros bzero left. */
  function SubAt(sub: seq<Byte>, k: int): (r: Byte)
    requires 0 <= k
    ensures r != 0 ==> k < |sub| && r == sub[k]
  {
    if k < |sub| then sub[k] else 0
  }

  /** moves[level]: the rank parse recorded at that level, 0 where none was. */
  function PathAt(moves: map<int, int>, level: int): int {
    if level in moves then moves[level] else 0
  }

  /** The change parse_branch makes to its level for one byte: 0x40 closes a branch,
      0x80 and a bare 0xC0 open one, 0x00 and the other 0xC? bytes change nothing. */
  function LevelChange(b: Byte): (r: int)
    ensures Flags(b) == LEAF ==> r == -1
    ensures Flags(b) == SIBLING || b == PRINCIPAL ==> r == 1
    ensures Flags(b) == PLAIN || (Flags(b) == PRINCIPAL && b != PRINCIPAL) ==> r == 0
  {
    if Flags(b) == LEAF then -1
    else if Flags(b) == SIBLING || b == PRINCIPAL then 1
    else 0
  }

  // ----- parse_branch -----

  /** Where parse_branch's loop stops, from index k with `level` branches open: when
      the level is back to 0 or the byte at the cursor is 0. */
  function BranchEnd(sub: seq<Byte>, k: int, level: int): (r: int)
    requires 0 <= k
    ensures k <= r && (k < r ==> r <= |sub|)
    decreases |sub| - k
  {
    if level == 0 || SubAt(sub, k) == 0 then k
    else BranchEnd(sub, k + 1, level + LevelChange(sub[k]))
  }

  /** The bytes parse_branch consumed from k up to e. */
  function Copied(sub: seq<Byte>, k: int, e: int): (r: seq<Byte>)
    requires 0 <= k <= e && (k < e ==> e <= |sub|)
    ensures |r| == e - k
  {
    if k < e then sub[k..e] else []
  }

  lemma CopiedGrows(sub: seq<Byte>, k: int, e: int)
    requires 0 <= k <= e < |sub|
    ensures Copied(sub, k, e + 1) == Copied(sub, k, e) + [sub[e]]
  {
    assert sub[k..e + 1] == sub[k..e] + [sub[e]];
  }

  /** parse_branch counts levels over a branch without references: the level is one
      lower right after the branch's last byte. */
  lemma {:induction false} BranchSpans(sub: seq<Byte>, k: int, level: int, n: Node)
    requires ValidNode(n) && RefFree(n) && Holds(sub, k, Enc(n)) && level >= 1
    ensures BranchEnd(sub, k, level) == BranchEnd(sub, k + |Enc(n)|, level - 1)
    decreases n, 1
  {
    HoldsFirst(sub, k, n);
    match n
    case Leaf(_) =>
      assert |Enc(n)| == 1;
    case Then(_, _) =>
      ThenSpans(sub, k, level, n);
    case Fork(_, _, _, _) =>
      var h, k2 := ForkParts(sub, k, n);
      ForkSpans(sub, k, level, n, h, k2);
  }

  lemma {:induction false} ThenSpans(sub: seq<Byte>, k: int, level: int, n: Node)
    requires ValidNode(n) && RefFree(n) && n.Then? && Holds(sub, k, Enc(n)) && level >= 1
    ensures BranchEnd(sub, k, level) == BranchEnd(sub, k + |Enc(n)|, level - 1)
    decreases n, 0
  {
    HoldsThen(sub, k, n);
    assert |Enc(n)| == 1 + |Enc(n.child)|;
    BranchSpans(sub, k + 1, level, n.child);
  }

  lemma {:induction false} ForkSpans(sub: seq<Byte>, k: int, level: int, n: Node, h: int, k2: int)
    requires n.Fork? && 1 <= n.rank < 64
    requires ValidNode(n.child) && RefFree(n.child) && ValidNode(n.rest) && RefFree(n.rest)
    requires h == (if n.principal then 2 else 1) && 0 <= k && k2 == k + h + |Enc(n.child)| && level >= 1
    requires Holds(sub, k + h, Enc(n.child)) && Holds(sub, k2, Enc(n.rest))
    requires n.principal ==> k + 1 < |sub| && sub[k] == PRINCIPAL && sub[k + 1] == n.rank
    requires !n.principal ==> k < |sub| && sub[k] == SIBLING + n.rank
    ensures BranchEnd(sub, k, level) == BranchEnd(sub, k2 + |Enc(n.rest)|, level - 1)
    decreases n, 0
  {
    ForkHead(sub, k, level, n.principal, n.rank);
    BranchSpans(sub, k + h, level + 1, n.child);
    BranchSpans(sub, k2, level, n.rest);
  }

  /** A fork's head opens one branch. */
  lemma ForkHead(sub: seq<Byte>, k: int, level: int, principal: bool, rank: int)
    requires 0 <= k && level >= 1 && 1 <= rank < 64
    requires principal ==> k + 1 < |sub| && sub[k] == PRINCIPAL && sub[k + 1] == rank
    requires !principal ==> k < |sub| && sub[k] == SIBLING + rank
    ensures BranchEnd(sub, k, level) == BranchEnd(sub, k + (if principal then 2 else 1), level + 1)
  {
    if principal {
      assert BranchEnd(sub, k + 1, level + 1) == BranchEnd(sub, k + 2, level + 1);
    }
  }

  /** A fork's head (one byte, or a bare 0xC0 and the rank) and where its two parts start. */
  lemma ForkParts(sub: seq<Byte>, k: int, n: Node) returns (h: int, k2: int)
    requires ValidNode(n) && RefFree(n) && n.Fork? && Holds(sub, k, Enc(n))
    ensures h == (if n.principal then 2 else 1) && k2 == k + h + |Enc(n.child)| && k2 + |Enc(n.rest)| == k + |Enc(n)|
    ensures ValidNode(n.child) && RefFree(n.child) && ValidNode(n.rest) && RefFree(n.rest)
    ensures Holds(sub, k + h, Enc(n.child)) && Holds(sub, k2, Enc(n.rest))
    ensures n.principal ==> k + 1 < |sub| && sub[k] == PRINCIPAL && sub[k + 1] == n.rank
    ensures !n.principal ==> k < |sub| && sub[k] == SIBLING + n.rank
  {
    HoldsFork(sub, k, n);
    h := if n.principal then 2 else 1;
    k2 := k + h + |Enc(n.child)|;
  }

  /** parse_branch over a branch without references stops right after it, so
      parse_branch(true) copies exactly that branch. */
  lemma BranchCopiesNode(sub: seq<Byte>, k: int, n: Node)
    requires ValidNode(n) && RefFree(n) && Holds(sub, k, Enc(n))
    ensures BranchEnd(sub, k, 1) == k + |Enc(n)| && Copied(sub, k, k + |Enc(n)|) == Enc(n)
  {
    BranchSpans(sub, k, 1, n);
    HoldsSlice(sub, k, Enc(n));
  }

  // ----- synchronize -----

  /** Where synchronize's loop stops, what it copied and whether it found the branch. */
  datatype Sync = Sync(next: int, copied: seq<Byte>, found: bool)

  /** Bytes copied before a continuation of the loop. */
  function After(copied: seq<Byte>, r: Sync): Sync {
    Sync(r.next, copied + r.copied, r.found)
  }

  lemma AfterAfter(a: seq<Byte>, b: seq<Byte>, r: Sync)
    ensures After(a, After(b, r)) == After(a + b, r)
  {
    assert a + (b + r.copied) == a + b + r.copied;
  }

  /** synchronize's loop from index k at `level`: a bare 0xC0 is skipped and the rank
      taken from the byte after it; the loop stops at a 0 byte or below level 0. */
  function SyncLoop(sub: seq<Byte>, moves: map<int, int>, depth: int, k: int, level: int, found: bool): (r: Sync)
    requires 0 <= k
    ensures k <= r.next && (found ==> r.found)
    decreases |sub| - k, 0
  {
    if SubAt(sub, k) == 0 || level < 0 then Sync(k, [], found)
    else if SubAt(sub, k) == PRINCIPAL then SyncEntry(sub, moves, depth, k + 2, SubAt(sub, k + 1), level, found)
    else SyncEntry(sub, moves, depth, k + 1, SubAt(sub, k), level, found)
  }

  /** An entry whose branch starts at k1: when its rank is the one recorded at this
      level the search goes one level down, and the branch is copied on reaching depth;
      any other entry's branch is skipped. */
  function SyncEntry(sub: seq<Byte>, moves: map<int, int>, depth: int, k1: int, entry: Byte, level: int, found: bool): (r: Sync)
    requires 0 <= k1
    ensures k1 <= r.next && (found ==> r.found)
    decreases |sub| - k1, 1
  {
    if EntryRank(entry) == PathAt(moves, level) then
      if level + 1 == depth then
        var e := BranchEnd(sub, k1, 1);
        After(Copied(sub, k1, e), SyncLoop(sub, moves, depth, e, level + 1, true))
      else SyncLoop(sub, moves, depth, k1, level + 1, found)
    else SyncLoop(sub, moves, depth, BranchEnd(sub, k1, 1), level, found)
  }

  /** What synchronize appends to the output for a sub-book and a path. */
  function SyncOutput(sub: seq<Byte>, moves: map<int, int>, depth: int): seq<Byte> {
    var r := SyncLoop(sub, moves, depth, 0, 0, false);
    r.copied + (if r.found then [] else [BRANCH_NOT_FOUND])
  }

  /** At or below depth nothing more is copied: the branch is copied at most once. */
  lemma {:induction false} NothingPastDepth(sub: seq<Byte>, moves: map<int, int>, depth: int, k: int, level: int, found: bool)
    requires 0 <= k && level >= depth
    ensures var r := SyncLoop(sub, moves, depth, k, level, found);
      r.copied == [] && r.found == found
    decreases |sub| - k
  {
    if SubAt(sub, k) != 0 && level >= 0 {
      var b := SubAt(sub, k);
      var k1 := if b == PRINCIPAL then k + 2 else k + 1;
      var entry := if b == PRINCIPAL then SubAt(sub, k + 1) else b;
      if EntryRank(entry) == PathAt(moves, level) {
        NothingPastDepth(sub, moves, depth, k1, level + 1, found);
      } else {
        NothingPastDepth(sub, moves, depth, BranchEnd(sub, k1, 1), level, found);
      }
    }
  }

  /** Nothing is copied unless the branch is found. */
  lemma {:induction false} CopiesOnlyWhenFound(sub: seq<Byte>, moves: map<int, int>, depth: int, k: int, level: int)
    requires 0 <= k
    ensures var r := SyncLoop(sub, moves, depth, k, level, false);
      !r.found ==> r.copied == []
    decreases |sub| - k
  {
    if SubAt(sub, k) != 0 && level >= 0 {
      var b := SubAt(sub, k);
      var k1 := if b == PRINCIPAL then k + 2 else k + 1;
      var entry := if b == PRINCIPAL then SubAt(sub, k + 1) else b;
      if EntryRank(entry) == PathAt(moves, level) {
        if level + 1 != depth {
          CopiesOnlyWhenFound(sub, moves, depth, k1, level + 1);
        }
      } else {
        CopiesOnlyWhenFound(sub, moves, depth, BranchEnd(sub, k1, 1), level);
      }
    }
  }

  /** When no branch follows the path, synchronize writes exactly one 0x41. */
  lemma NotFoundWritesLeaf(sub: seq<Byte>, moves: map<int, int>, depth: int)
    ensures var r := SyncLoop(sub, moves, depth, 0, 0, false);
      (!r.found ==> SyncOutput(sub, moves, depth) == [BRANCH_NOT_FOUND])
      && (r.found ==> SyncOutput(sub, moves, depth) == r.copied)
  {
    CopiesOnlyWhenFound(sub, moves, depth, 0, 0);
  }

  /** The branch a path leads to in a variation tree: at each level the first sibling
      with the recorded rank is entered; the branch under the last one is the answer. */
  function Follow(n: Node, path: seq<int>): (r: Option<Node>)
    requires |path| > 0
    ensures r.Some? && ValidNode(n) ==> ValidNode(r.value) && (RefFree(n) ==> RefFree(r.value))
  {
    match n
    case Leaf(_) => None
    case Ref(_, _) => None
    case Then(r, c) =>
      if r != path[0] then None
      else if |path| == 1 then Some(c)
      else Follow(c, path[1..])
    case Fork(_, r, c, rest) =>
      if r != path[0] then Follow(rest, path)
      else if |path| == 1 then Some(c)
      else Follow(c, path[1..])
  }

  /** The path recorded in moves from `level` on. */
  predicate Recorded(moves: map<int, int>, level: int, path: seq<int>) {
    forall i :: 0 <= i < |path| ==> PathAt(moves, level + i) == path[i]
  }

  /** synchronize finds what Follow finds: when the sub-book holds a tree without
      references and the path recorded down to depth leads to a branch of it, that
      branch, and nothing else, is copied. */
  lemma {:induction false} SyncFinds(sub: seq<Byte>, moves: map<int, int>, depth: int, k: int, level: int,
                                     found: bool, n: Node, path: seq<int>, c: Node)
    requires ValidNode(n) && RefFree(n) && Holds(sub, k, Enc(n))
    requires 0 <= level < depth && |path| == depth - level && Recorded(moves, level, path)
    requires Follow(n, path) == Some(c)
    ensures var r := SyncLoop(sub, moves, depth, k, level, found);
      r.found && r.copied == Enc(c)
    decreases n, 0
  {
    HoldsFirst(sub, k, n);
    match n
    case Then(_, _) =>
      HoldsThen(sub, k, n);
      SyncEnters(sub, moves, depth, k, k + 1, level, found, n.child, path, c);
    case Fork(p, rk, _, rest) =>
      HoldsFork(sub, k, n);
      var k1 := if p then k + 2 else k + 1;
      if rk == path[0] {
        SyncEnters(sub, moves, depth, k, k1, level, found, n.child, path, c);
      } else {
        assert PathAt(moves, level) == path[0];
        var next := SyncSkips(sub, moves, depth, k, level, found, n);
        SyncFinds(sub, moves, depth, next, level, found, rest, path, c);
      }
  }

  /** A sibling whose rank is not the recorded one: its branch is skipped, and the
      search goes on at the next sibling. */
  lemma SyncSkips(sub: seq<Byte>, moves: map<int, int>, depth: int, k: int, level: int, found: bool, n: Node)
    returns (next: int)
    requires ValidNode(n) && RefFree(n) && n.Fork? && Holds(sub, k, Enc(n))
    requires 0 <= level && n.rank != PathAt(moves, level)
    ensures 0 <= next && Holds(sub, next, Enc(n.rest))
    ensures SyncLoop(sub, moves, depth, k, level, found) == SyncLoop(sub, moves, depth, next, level, found)
  {
    HoldsFirst(sub, k, n);
    HoldsFork(sub, k, n);
    var k1 := if n.principal then k + 2 else k + 1;
    BranchCopiesNode(sub, k1, n.child);
    next := k1 + |Enc(n.child)|;
  }

  /** An entry at k whose rank is the one recorded at `level`, with its branch at k1:
      the branch is copied when depth is reached, and searched one level down before. */
  lemma {:induction false} SyncEnters(sub: seq<Byte>, moves: map<int, int>, depth: int, k: int, k1: int, level: int,
                                      found: bool, child: Node, path: seq<int>, c: Node)
    requires 0 <= level < depth && |path| == depth - level && Recorded(moves, level, path)
    requires 0 <= k && SubAt(sub, k) != 0
    requires k1 == (if SubAt(sub, k) == PRINCIPAL then k + 2 else k + 1)
    requires EntryRank(if SubAt(sub, k) == PRINCIPAL then SubAt(sub, k + 1) else SubAt(sub, k)) == path[0]
    requires ValidNode(child) && RefFree(child) && Holds(sub, k1, Enc(child))
    requires |path| == 1 ==> c == child
    requires |path| > 1 ==> Follow(child, path[1..]) == Some(c)
    ensures var r := SyncLoop(sub, moves, depth, k, level, found);
      r.found && r.copied == Enc(c)
    decreases child, 1
  {
    assert PathAt(moves, level) == path[0];
    if |path| == 1 {
      BranchCopiesNode(sub, k1, child);
      var e := k1 + |Enc(child)|;
      NothingPastDepth(sub, moves, depth, e, level + 1, true);
      assert Enc(c) + [] == Enc(c);
    } else {
      assert Recorded(moves, level + 1, path[1..]) by {
        forall i | 0 <= i < |path[1..]|
          ensures PathAt(moves, level + 1 + i) == path[1..][i]
        {
          assert PathAt(moves, level + (i + 1)) == path[i + 1];
        }
      }
      SyncFinds(sub, moves, depth, k1, level + 1, found, child, path[1..], c);
    }
  }

  // ----- read_subbook and parse -----

  /** The globals book_rebuild.c works on: the master book's cursor, the output written
      so far, the rank path, the sub-book's name, buffer and cursor. */
  datatype Merge = Merge(index: int, out: seq<Byte>, moves: map<int, int>, name: seq<char>, sub: seq<Byte>, subIndex: int)

  /** synchronize(depth) on the loaded sub-book: the cursor ends where the loop stopped. */
  function Synchronized(s: Merge, depth: int): (t: Merge)
    ensures t.out == s.out + SyncOutput(s.sub, s.moves, depth)
    ensures t == s.(out := t.out, subIndex := t.subIndex)
  {
    var r := SyncLoop(s.sub, s.moves, depth, 0, 0, false);
    s.(subIndex := r.next, out := s.out + SyncOutput(s.sub, s.moves, depth))
  }

  /** read_subbook(depth), with the cursor on the first of the four name bytes. */
  function ReadSub(book: seq<Byte>, files: map<seq<char>, seq<Byte>>, s: Merge, depth: int): (r: Result<Merge, RebuildError>)
    requires 0 <= s.index <= |book|
    ensures r.Ok? ==> s.index + 4 <= |book| && r.value.index == s.index + 4 && r.value.moves == s.moves
    ensures r.Ok? ==> r.value.name in files && r.value.sub == files[r.value.name]
  {
    if s.index + 4 > |book| then Err(OutOfBook(|book|))
    else
      var name := SubBookName(book[s.index..s.index + 4]);
      if name !in files then Err(MissingSubBook(name))
      else Ok(Synchronized(s.(index := s.index + 4, name := name, sub := files[name], subIndex := 0), depth))
  }

  /** parse(level) from the cursor: the do-while over the siblings of one node. An entry
      byte is copied (0xC0 with the byte after it) and its rank recorded at this level;
      a 0x40 entry ends the loop, the others parse the reply one level down and loop on
      while the entry had the 0x80 bit. A 0xC5 byte is not copied: the sub-book it
      names is merged in its place and the loop ends. */
  function ParseFrom(book: seq<Byte>, files: map<seq<char>, seq<Byte>>, s: Merge, level: int): (r: Result<Merge, RebuildError>)
    requires 0 <= s.index
    ensures r.Ok? ==> s.index < r.value.index <= |book|
    decreases |book| - s.index, 2
  {
    if s.index >= |book| then Err(OutOfBook(s.index))
    else if book[s.index] == SUB_BOOK then ReadSub(book, files, s.(index := s.index + 1), level)
    else Entry(book, files, s, level)
  }

  /** One entry of parse's loop, at a byte other than 0xC5. */
  function Entry(book: seq<Byte>, files: map<seq<char>, seq<Byte>>, s: Merge, level: int): (r: Result<Merge, RebuildError>)
    requires 0 <= s.index < |book|
    ensures r.Ok? ==> s.index < r.value.index <= |book|
    decreases |book| - s.index, 1
  {
    var b := book[s.index];
    var flags := Flags(b);
    var s1 := s.(index := s.index + 1, out := s.out + [b]);
    if flags == PRINCIPAL && s1.index >= |book| then Err(OutOfBook(s1.index))
    else
      var entry := if flags == PRINCIPAL then book[s1.index] else b;
      var s2 := if flags == PRINCIPAL then s1.(index := s1.index + 1, out := s1.out + [entry]) else s1;
      var s3 := s2.(moves := s2.moves[level := EntryRank(entry)]);
      if flags == LEAF then Ok(s3)
      else Descend(book, files, s3, level, flags)
  }

  /** The reply parsed one level down, then the next sibling when the entry had the 0x80 bit. */
  function Descend(book: seq<Byte>, files: map<seq<char>, seq<Byte>>, s: Merge, level: int, flags: int): (r: Result<Merge, RebuildError>)
    requires 0 <= s.index <= |book|
    ensures r.Ok? ==> s.index < r.value.index <= |book|
    decreases |book| - s.index + 1, 0
  {
    match ParseFrom(book, files, s, level + 1)
    case Err(e) => Err(e)
    case Ok(t) => if HasSibling(flags) then ParseFrom(book, files, t, level) else Ok(t)
  }

  /** What parse leaves of a state it ran on: the output grew by `added`, the cursor
      moved past them, and no sub-book was loaded. */
  predicate CopiedOnly(r: Result<Merge, RebuildError>, s: Merge, added: seq<Byte>) {
    && r.Ok?
    && r.value.index == s.index + |added| && r.value.out == s.out + added
    && r.value.name == s.name && r.value.sub == s.sub && r.value.subIndex == s.subIndex
  }

  /** An entry byte of class 0x00 or 0x80 is copied and its rank recorded; the reply
      is parsed next. */
  lemma ParseEntry(book: seq<Byte>, files: map<seq<char>, seq<Byte>>, s: Merge, level: int)
    requires 0 <= s.index < |book| && (Flags(book[s.index]) == PLAIN || Flags(book[s.index]) == SIBLING)
    ensures var b := book[s.index];
      ParseFrom(book, files, s, level)
      == Descend(book, files, s.(index := s.index + 1, out := s.out + [b], moves := s.moves[level := EntryRank(b)]), level, Flags(b))
  {
  }

  /** A class-0xC0 byte other than 0xC5 is copied with the byte after it, whose rank is
      recorded; the reply is parsed next and the loop goes on after it. */
  lemma ParsePrincipal(book: seq<Byte>, files: map<seq<char>, seq<Byte>>, s: Merge, level: int)
    requires 0 <= s.index && s.index + 1 < |book| && Flags(book[s.index]) == PRINCIPAL && book[s.index] != SUB_BOOK
    ensures var b, e := book[s.index], book[s.index + 1];
      ParseFrom(book, files, s, level)
      == Descend(book, files, s.(index := s.index + 2, out := s.out + [b, e], moves := s.moves[level := EntryRank(e)]), level, PRINCIPAL)
  {
    assert s.out + [book[s.index]] + [book[s.index + 1]] == s.out + [book[s.index], book[s.index + 1]];
  }

  /** A class-0x40 entry is copied, its rank recorded, and the loop ends: no reply is parsed. */
  lemma ParseLeaf(book: seq<Byte>, files: map<seq<char>, seq<Byte>>, s: Merge, level: int)
    requires 0 <= s.index < |book| && Flags(book[s.index]) == LEAF
    ensures var b := book[s.index];
      ParseFrom(book, files, s, level)
      == Ok(s.(index := s.index + 1, out := s.out + [b], moves := s.moves[level := EntryRank(b)]))
  {
  }

  /** A 0xC5 byte is not copied: the sub-book named by the next four bytes is loaded and
      what synchronize finds in it along the recorded path takes its place; the loop ends. */
  lemma ParseSubBook(book: seq<Byte>, files: map<seq<char>, seq<Byte>>, s: Merge, level: int)
    requires 0 <= s.index < |book| && book[s.index] == SUB_BOOK
    ensures var r := ParseFrom(book, files, s, level);
      && (s.index + 5 > |book| ==> r == Err(OutOfBook(|book|)))
      && (s.index + 5 <= |book| ==>
            var name := SubBookName(book[s.index + 1..s.index + 5]);
            && (name !in files ==> r == Err(MissingSubBook(name)))
            && (name in files ==>
                  && r.Ok? && r.value.index == s.index + 5 && r.value.moves == s.moves
                  && r.value.name == name && r.value.sub == files[name]
                  && r.value.out == s.out + SyncOutput(files[name], s.moves, level)))
  {
  }

  lemma Associative(a: seq<Byte>, b: seq<Byte>, c: seq<Byte>)
    ensures a + b + c == a + (b + c)
  {
  }

  /** A book without sub-book references comes out of parse unchanged. */
  lemma {:induction false} ParseCopies(book: seq<Byte>, files: map<seq<char>, seq<Byte>>, s: Merge, level: int, n: Node)
    requires ValidNode(n) && RefFree(n) && Holds(book, s.index, Enc(n))
    ensures CopiedOnly(ParseFrom(book, files, s, level), s, Enc(n))
    decreases n, 2
  {
    HoldsFirst(book, s.index, n);
    match n
    case Leaf(_) =>
      ParseLeaf(book, files, s, level);
      assert |Enc(n)| == 1;
    case Then(_, _) =>
      ThenCopies(book, files, s, level, n);
    case Fork(_, _, _, _) =>
      var h, k2 := ForkParts(book, s.index, n);
      ForkCopies(book, files, s, level, n, h);
      assert Enc(n) == (if n.principal then [PRINCIPAL, n.rank] else [SIBLING + n.rank]) + (Enc(n.child) + Enc(n.rest));
  }

  lemma {:induction false} ThenCopies(book: seq<Byte>, files: map<seq<char>, seq<Byte>>, s: Merge, level: int, n: Node)
    requires ValidNode(n) && RefFree(n) && n.Then? && Holds(book, s.index, Enc(n))
    ensures CopiedOnly(ParseFrom(book, files, s, level), s, Enc(n))
    decreases n, 1
  {
    HoldsThen(book, s.index, n);
    ParseEntry(book, files, s, level);
    var s1 := s.(index := s.index + 1, out := s.out + [n.rank], moves := s.moves[level := n.rank]);
    ParseCopies(book, files, s1, level + 1, n.child);
    assert Enc(n) == [n.rank] + Enc(n.child);
    Associative(s.out, [n.rank], Enc(n.child));
  }

  lemma {:induction false} ForkCopies(book: seq<Byte>, files: map<seq<char>, seq<Byte>>, s: Merge, level: int, n: Node, h: int)
    requires n.Fork? && 1 <= n.rank < 64 && 0 <= s.index
    requires ValidNode(n.child) && RefFree(n.child) && ValidNode(n.rest) && RefFree(n.rest)
    requires h == (if n.principal then 2 else 1)
    requires Holds(book, s.index + h, Enc(n.child)) && Holds(book, s.index + h + |Enc(n.child)|, Enc(n.rest))
    requires n.principal ==> s.index + 1 < |book| && book[s.index] == PRINCIPAL && book[s.index + 1] == n.rank
    requires !n.principal ==> s.index < |book| && book[s.index] == SIBLING + n.rank
    ensures var head: seq<Byte> := if n.principal then [PRINCIPAL, n.rank] else [SIBLING + n.rank];
      CopiedOnly(ParseFrom(book, files, s, level), s, head + (Enc(n.child) + Enc(n.rest)))
    decreases n, 1
  {
    var head: seq<Byte> := if n.principal then [PRINCIPAL, n.rank] else [SIBLING + n.rank];
    if n.principal {
      ParsePrincipal(book, files, s, level);
    } else {
      ParseEntry(book, files, s, level);
    }
    var s1 := s.(index := s.index + h, out := s.out + head, moves := s.moves[level := n.rank]);
    DescendCopies(book, files, s1, level, if n.principal then PRINCIPAL else SIBLING, n);
    Associative(s.out, head, Enc(n.child) + Enc(n.rest));
  }

  /** A fork's reply, then its remaining siblings, come out unchanged. */
  lemma {:induction false} DescendCopies(book: seq<Byte>, files: map<seq<char>, seq<Byte>>, s: Merge, level: int, flags: int, n: Node)
    requires n.Fork? && HasSibling(flags) && 0 <= s.index <= |book|
    requires ValidNode(n.child) && RefFree(n.child) && ValidNode(n.rest) && RefFree(n.rest)
    requires Holds(book, s.index, Enc(n.child)) && Holds(book, s.index + |Enc(n.child)|, Enc(n.rest))
    ensures CopiedOnly(Descend(book, files, s, level, flags), s, Enc(n.child) + Enc(n.rest))
    decreases n, 0
  {
    ParseCopies(book, files, s, level + 1, n.child);
    var t := ParseFrom(book, files, s, level + 1).value;
    ParseCopies(book, files, t, level, n.rest);
    Associative(s.out, Enc(n.child), Enc(n.rest));
  }

  /** The outcome a method reports against its function: the same error, or no error
      and exactly the state the function gives. */
  predicate Done(r: Result<Merge, RebuildError>, err: Option<RebuildError>, t: Merge) {
    match r
    case Ok(u) => err.None? && t == u
    case Err(e) => err == Some(e)
  }

  /** The merger's globals, over the master book and the sub-book files it may open. */
  class Rebuild {
    const book: seq<Byte>
    const files: map<seq<char>, seq<Byte>>
    var index: int
    var out: seq<Byte>
    var moves: map<int, int>
    var name: seq<char>
    var sub: seq<Byte>
    var subIndex: int

    function State(): Merge
      reads this
    {
      Merge(index, out, moves, name, sub, subIndex)
    }

    /** The program's start: the master book at its first byte, nothing written, no
        sub-book loaded, the name still the "...." placeholder. */
    constructor (b: seq<Byte>, f: map<seq<char>, seq<Byte>>)
      ensures book == b && files == f
      ensures State() == Merge(0, [], map[], "...." + SUFFIX, [], 0)
    {
      book := b;
      files := f;
      index := 0;
      out := [];
      moves := map[];
      name := "...." + SUFFIX;
      sub := [];
      subIndex := 0;
    }

    /** parse_branch(copy): walks to the end of the branch at the sub-book cursor,
        writing what it reads when copy is set. */
    method ParseBranch(copy: bool)
      requires 0 <= subIndex
      modifies this
      ensures index == old(index) && moves == old(moves) && name == old(name) && sub == old(sub)
      ensures subIndex == BranchEnd(sub, old(subIndex), 1)
      ensures out == old(out) + if copy then Copied(sub, old(subIndex), subIndex) else []
    {
      var level := 1;
      while level != 0 && SubAt(sub, subIndex) != 0
        invariant old(subIndex) <= subIndex && (old(subIndex) < subIndex ==> subIndex <= |sub|)
        invariant index == old(index) && moves == old(moves) && name == old(name) && sub == old(sub)
        invariant BranchEnd(sub, old(subIndex), 1) == BranchEnd(sub, subIndex, level)
        invariant out == old(out) + if copy then Copied(sub, old(subIndex), subIndex) else []
        decreases |sub| - subIndex
      {
        var b := sub[subIndex];
        ghost var step := BranchEnd(sub, subIndex + 1, level + LevelChange(b));
        if copy {
          CopiedGrows(sub, old(subIndex), subIndex);
          out := out + [b];
        }
        subIndex := subIndex + 1;
        if Flags(b) == LEAF {
          level := level - 1;
        } else if Flags(b) == SIBLING || b == PRINCIPAL {
          level := level + 1;
        }
        assert step == BranchEnd(sub, subIndex, level);
      }
    }

    /** synchronize(depth): walks the loaded sub-book from its start along the path
        recorded in moves, copying the branch found at depth, or writing one 0x41. */
    method Synchronize(depth: int)
      modifies this
      ensures State() == Synchronized(old(State()), depth)
    {
      var found := false;
      subIndex := 0;
      var level := 0;
      ghost var added: seq<Byte> := [];
      while SubAt(sub, subIndex) != 0 && level >= 0
        invariant 0 <= subIndex
        invariant index == old(index) && moves == old(moves) && name == old(name) && sub == old(sub)
        invariant out == old(out) + added
        invariant SyncLoop(sub, moves, depth, 0, 0, false) == After(added, SyncLoop(sub, moves, depth, subIndex, level, found))
        decreases |sub| - subIndex
      {
        ghost var acc := added;
        ghost var step;
        level, found, step := SyncStep(depth, level, found);
        added := added + step;
        AfterAfter(acc, step, SyncLoop(sub, moves, depth, subIndex, level, found));
      }
      if !found {
        out := out + [BRANCH_NOT_FOUND];
      }
    }

    /** One pass of synchronize's loop, at a non-zero byte: the entry is read (a bare
        0xC0 and the rank after it), then its branch is entered, copied or skipped. */
    method SyncStep(depth: int, level: int, found: bool) returns (level': int, found': bool, ghost copied: seq<Byte>)
      requires 0 <= subIndex && SubAt(sub, subIndex) != 0 && level >= 0
      modifies this
      ensures old(subIndex) < subIndex
      ensures index == old(index) && moves == old(moves) && name == old(name) && sub == old(sub)
      ensures out == old(out) + copied
      ensures SyncLoop(sub, moves, depth, old(subIndex), level, found)
        == After(copied, SyncLoop(sub, moves, depth, subIndex, level', found'))
    {
      var b := SubAt(sub, subIndex);
      subIndex := subIndex + 1;
      if b == PRINCIPAL {
        b := SubAt(sub, subIndex);
        subIndex := subIndex + 1;
      }
      level', found', copied := SyncBranch(depth, b, level, found);
    }

    /** The branch of an entry whose rank is in b, with the cursor on the branch. */
    method SyncBranch(depth: int, b: Byte, level: int, found: bool) returns (level': int, found': bool, ghost copied: seq<Byte>)
      requires 0 <= subIndex
      modifies this
      ensures old(subIndex) <= subIndex
      ensures index == old(index) && moves == old(moves) && name == old(name) && sub == old(sub)
      ensures out == old(out) + copied
      ensures SyncEntry(sub, moves, depth, old(subIndex), b, level, found)
        == After(copied, SyncLoop(sub, moves, depth, subIndex, level', found'))
    {
      level', found', copied := level, found, [];
      if EntryRank(b) == PathAt(moves, level) {
        level' := level + 1;
        if level' == depth {
          found' := true;
          ghost var start := subIndex;
          ParseBranch(true);
          copied := Copied(sub, start, subIndex);
        }
      } else {
        ParseBranch(false);
      }
    }

    /** read_subbook(depth): names the sub-book after the four bytes at the cursor,
        loads it and synchronizes it. */
    method ReadSubbook(depth: int) returns (err: Option<RebuildError>)
      requires 0 <= index <= |book| && |name| == 4 + |SUFFIX| && name[4..] == SUFFIX
      modifies this
      ensures Done(ReadSub(book, files, old(State()), depth), err, State())
      ensures old(index) <= index <= |book| && |name| == 4 + |SUFFIX| && name[4..] == SUFFIX
    {
      for i := 0 to 4
        invariant index == old(index) + i && index <= |book|
        invariant State() == old(State()).(index := index, name := name)
        invariant |name| == 4 + |SUFFIX| && name[4..] == SUFFIX
        invariant forall j :: 0 <= j < i ==> name[j] == Lowercase(book[old(index) + j] as char)
      {
        if index >= |book| {
          return Some(OutOfBook(index));
        }
        name := name[i := Lowercase(book[index] as char)];
        index := index + 1;
      }
      assert name == SubBookName(book[old(index)..old(index) + 4]);
      if name !in files {
        return Some(MissingSubBook(name));
      }
      sub := files[name];
      Synchronize(depth);
      err := None;
    }

    /** parse(level): the do-while over the siblings of the node at the cursor. */
    method Parse(level: int) returns (err: Option<RebuildError>)
      requires 0 <= index <= |book| && |name| == 4 + |SUFFIX| && name[4..] == SUFFIX
      modifies this
      ensures Done(ParseFrom(book, files, old(State()), level), err, State())
      ensures old(index) <= index <= |book| && |name| == 4 + |SUFFIX| && name[4..] == SUFFIX
      decreases |book| - index, 1
    {
      var more := true;
      err := None;
      while more
        invariant old(index) <= index <= |book| && |name| == 4 + |SUFFIX| && name[4..] == SUFFIX
        invariant more ==> ParseFrom(book, files, old(State()), level) == ParseFrom(book, files, State(), level)
        invariant !more ==> Done(ParseFrom(book, files, old(State()), level), err, State())
        decreases |book| - index, more
      {
        more, err := ParseStep(level);
      }
    }

    /** One pass of parse's do-while: more is the 0x80 bit of the entry, once the entry
        and its reply are done. */
    method ParseStep(level: int) returns (more: bool, err: Option<RebuildError>)
      requires 0 <= index <= |book| && |name| == 4 + |SUFFIX| && name[4..] == SUFFIX
      modifies this
      ensures old(index) <= index <= |book| && |name| == 4 + |SUFFIX| && name[4..] == SUFFIX
      ensures more ==> old(index) < index && ParseFrom(book, files, old(State()), level) == ParseFrom(book, files, State(), level)
      ensures !more ==> Done(ParseFrom(book, files, old(State()), level), err, State())
      decreases |book| - index, 0
    {
      if index >= |book| {
        return false, Some(OutOfBook(index));
      }
      var b := book[index];
      if b == SUB_BOOK {
        index := index + 1;
        err := ReadSubbook(level);
        return false, err;
      }
      ghost var s := State();
      index := index + 1;
      out := out + [b];
      var flags := Flags(b);
      if flags == PRINCIPAL {
        if index >= |book| {
          return false, Some(OutOfBook(index));
        }
        b := book[index];
        index := index + 1;
        out := out + [b];
      }
      moves := moves[level := EntryRank(b)];
      assert ParseFrom(book, files, s, level)
        == if flags == LEAF then Ok(State()) else Descend(book, files, State(), level, flags);
      if flags == LEAF {
        return false, None;
      }
      err := Parse(level + 1);
      if err.Some? {
        return false, err;
      }
      more := HasSibling(flags);
    }
  }
}

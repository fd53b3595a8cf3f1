/**
 * The byte format of the opening book, shared by book_decoder.c and book_rebuild.c.
 * An entry byte carries a class in its top two bits (b & 0xC0) and a 1-based rank into
 * the generated move list in its low six bits (b & 0x3F):
 *   0x00  the line continues with the reply (a child node follows)
 *   0x40  the line ends after this move
 *   0x80  this move has a child node and is followed by further siblings
 *   0xC0  a principal ("recommended") sibling: the rank is in the next byte
 *   0xC1 .. 0xFF with low three bits set: a sub-book reference, four name bytes follow
 */
module BookFormat {

  /** A book byte (uint8_t). */
  type Byte = b: int | 0 <= b < 256

  const PLAIN := 0x00
  const LEAF := 0x40
  const SIBLING := 0x80
  const PRINCIPAL := 0xC0
  /** The one escape byte book_rebuild.c splices sub-books for. */
  const SUB_BOOK := 0xC5

  /** b & 0xC0 */
  function Flags(b: Byte): (r: int)
    ensures r == PLAIN || r == LEAF || r == SIBLING || r == PRINCIPAL
    ensures r <= b < r + 64
  {
    if b < 0x40 then PLAIN else if b < 0x80 then LEAF else if b < 0xC0 then SIBLING else PRINCIPAL
  }

  /** b & 0x3F */
  function EntryRank(b: Byte): (r: int)
    ensures 0 <= r < 64 && Flags(b) + r == b
  {
    b - Flags(b)
  }

  /** flags & 0x80: the sibling bit of a class. */
  predicate HasSibling(flags: int) {
    flags >= SIBLING
  }

  /** A class-0xC0 byte whose low three bits (b & 7) are not all zero. */
  predicate IsEscape(b: Byte) {
    Flags(b) == PRINCIPAL && b % 8 != 0
  }

  /** A branch of the variation tree as the book stores it. */
  datatype Node =
    | Leaf(rank: int)                                      // 0x40 | rank
    | Ref(escape: Byte, name: seq<Byte>)                   // escape byte, four name bytes
    | Then(rank: int, child: Node)                         // rank, then the reply node
    | Fork(principal: bool, rank: int, child: Node, rest: Node)
      // 0x80 | rank (or 0xC0, rank), the child node, then the remaining siblings

  predicate ValidNode(n: Node) {
    match n
    case Leaf(r) => 1 <= r < 64
    case Ref(e, name) => IsEscape(e) && |name| == 4
    case Then(r, c) => 1 <= r < 64 && ValidNode(c)
    case Fork(_, r, c, rest) => 1 <= r < 64 && ValidNode(c) && ValidNode(rest)
  }

  /** No sub-book reference anywhere in the branch. */
  predicate RefFree(n: Node) {
    match n
    case Leaf(_) => true
    case Ref(_, _) => false
    case Then(_, c) => RefFree(c)
    case Fork(_, _, c, rest) => RefFree(c) && RefFree(rest)
  }

  /** The bytes of a branch. */
  function Enc(n: Node): (r: seq<Byte>)
    requires ValidNode(n)
    ensures |r| > 0 && r[0] != 0
  {
    match n
    case Leaf(r) => [LEAF + r]
    case Ref(e, name) => [e] + name
    case Then(r, c) => [r] + Enc(c)
    case Fork(p, r, c, rest) => (if p then [PRINCIPAL, r] else [SIBLING + r]) + Enc(c) + Enc(rest)
  }

  /** The bytes s stand in book at index i. */
  predicate Holds(book: seq<Byte>, i: int, s: seq<Byte>)
    decreases |s|
  {
    if |s| == 0 then 0 <= i <= |book|
    else 0 <= i < |book| && book[i] == s[0] && Holds(book, i + 1, s[1..])
  }

  lemma {:induction false} HoldsSlice(book: seq<Byte>, i: int, s: seq<Byte>)
    requires Holds(book, i, s)
    ensures 0 <= i && i + |s| <= |book| && book[i..i + |s|] == s
    decreases |s|
  {
    if |s| > 0 {
      HoldsSlice(book, i + 1, s[1..]);
      assert book[i..i + |s|] == [book[i]] + book[i + 1..i + |s|];
    }
  }

  lemma {:induction false} HoldsSplit(book: seq<Byte>, i: int, a: seq<Byte>, b: seq<Byte>)
    requires Holds(book, i, a + b)
    ensures Holds(book, i, a) && Holds(book, i + |a|, b)
    decreases |a|
  {
    if |a| == 0 {
      assert a + b == b;
    } else {
      assert (a + b)[1..] == a[1..] + b;
      HoldsSplit(book, i + 1, a[1..], b);
    }
  }

  /** The first byte of a branch. */
  lemma HoldsFirst(book: seq<Byte>, i: int, n: Node)
    requires ValidNode(n) && Holds(book, i, Enc(n))
    ensures i < |book| && book[i] == Enc(n)[0]
  {
  }

  /** A reference: the escape byte, then the name. */
  lemma HoldsRef(book: seq<Byte>, i: int, n: Node)
    requires ValidNode(n) && n.Ref? && Holds(book, i, Enc(n))
    ensures book[i] == n.escape && i + 4 < |book| && book[i + 1..i + 5] == n.name
  {
    HoldsFirst(book, i, n);
    HoldsSplit(book, i, [n.escape], n.name);
    HoldsSlice(book, i + 1, n.name);
  }

  /** A continued line: the rank byte, then the reply node. */
  lemma HoldsThen(book: seq<Byte>, i: int, n: Node)
    requires ValidNode(n) && n.Then? && Holds(book, i, Enc(n))
    ensures book[i] == n.rank && Holds(book, i + 1, Enc(n.child))
  {
    HoldsFirst(book, i, n);
    HoldsSplit(book, i, [n.rank], Enc(n.child));
  }

  /** A fork: its head (one byte, or 0xC0 and the rank), the child node, the rest. */
  lemma HoldsFork(book: seq<Byte>, i: int, n: Node)
    requires ValidNode(n) && n.Fork? && Holds(book, i, Enc(n))
    ensures var h := if n.principal then 2 else 1;
      && (!n.principal ==> book[i] == SIBLING + n.rank)
      && (n.principal ==> book[i] == PRINCIPAL && i + 1 < |book| && book[i + 1] == n.rank)
      && Holds(book, i + h, Enc(n.child)) && Holds(book, i + h + |Enc(n.child)|, Enc(n.rest))
  {
    HoldsFirst(book, i, n);
    var head: seq<Byte> := if n.principal then [PRINCIPAL, n.rank] else [SIBLING + n.rank];
    HoldsSplit(book, i, head + Enc(n.child), Enc(n.rest));
    HoldsSplit(book, i, head, Enc(n.child));
  }
}

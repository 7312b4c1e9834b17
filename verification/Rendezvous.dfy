/** The sticky node choice of the selector (transport/micro/selector.go): FNV-1a scores and their first maximum. */
module Rendezvous {
  import opened Common

  type Bytes = seq<bv8>

  /** 64-bit unsigned values, with the wrap-around of Go's uint64 written out. */
  const TWO_TO_64: nat := 0x1_0000_0000_0000_0000

  type Word = w: nat | w < TWO_TO_64

  const FNV_OFFSET: Word := 14695981039346656037
  const FNV_PRIME: nat := 1099511628211

  /** A registry node; only its id takes part in the choice. */
  datatype Node = Node(id: Bytes, address: Bytes)

  /** A low byte xored with a byte. */
  function XorLow(low: nat, b: bv8): (r: nat)
    requires low < 256
    ensures r < 256
  {
    (low as bv8 ^ b) as nat
  }

  /** h xor b: a byte changes only the low eight bits of the word. */
  function XorByte(h: Word, b: bv8): (r: Word) {
    hide XorLow;
    h / 256 * 256 + XorLow(h % 256, b)
  }

  function FnvByte(h: Word, b: bv8): Word {
    XorByte(h, b) * FNV_PRIME % TWO_TO_64
  }

  /** FNV-1a over a byte string, continued from the hash h. */
  function Fnv(h: Word, data: Bytes): Word
    decreases data
  {
    if data == [] then h else Fnv(FnvByte(h, data[0]), data[1..])
  }

  lemma {:induction false} FnvConcat(h: Word, a: Bytes, b: Bytes)
    ensures Fnv(h, a + b) == Fnv(Fnv(h, a), b)
    decreases a
  {
    if a == [] {
      assert a + b == b;
    } else {
      assert (a + b)[1..] == a[1..] + b;
      FnvConcat(FnvByte(h, a[0]), a[1..], b);
    }
  }

  // ----- The fold is FNV-1a

  /** Multiplying by P and then by its inverse modulo m. */
  lemma InverseUndoes(x: nat, p: nat, inverse: nat, k: nat, m: nat)
    requires x < m && p * inverse == 1 + k * m
    ensures x * p % m * inverse % m == x
  {
    var q := x * p / m;
    var r := x * p % m;
    assert r == x * p - q * m;
    assert r * inverse == x * (p * inverse) - q * m * inverse == x + (x * k - q * inverse) * m;
    Quotient(r * inverse, m, x * k - q * inverse, x);
  }

  /**
   A byte is first mixed into the low end and then spread by the multiplication: undoing the
   multiplication, by the inverse of the prime, leaves h with the byte xored into its low eight bits.
   */
  lemma FnvByteIsXorThenMultiply(h: Word, b: bv8)
    ensures
      var mixed := FnvByte(h, b) * 0xce965057aff6957b % 0x1_0000_0000_0000_0000;
      mixed / 256 == h / 256 && mixed % 256 == ((h % 256) as bv8 ^ b) as nat
  {
    var x := XorByte(h, b);
    InverseUndoes(x, FNV_PRIME, 0xce965057aff6957b, 887285111055, TWO_TO_64);
  }

  /** A fold whose intermediate words are known. */
  lemma {:induction false} FnvAlong(words: seq<Word>, data: Bytes)
    requires |words| == |data| + 1
    requires forall i :: 0 <= i < |data| ==> words[i + 1] == FnvByte(words[i], data[i])
    ensures Fnv(words[0], data) == words[|data|]
    decreases data
  {
    if data != [] {
      FnvAlong(words[1..], data[1..]);
    }
  }

  /** One byte: `low` and `high` are h's low byte and the rest, `mixed` the low byte after the xor, k what wraps. */
  lemma FnvByteIs(h: Word, b: bv8, high: nat, low: nat, mixed: nat, k: nat, next: Word)
    requires h == 256 * high + low && low < 256 && XorLow(low, b) == mixed
    requires (256 * high + mixed) * 0x100000001b3 == next + k * 0x1_0000_0000_0000_0000
    ensures FnvByte(h, b) == next
  {
    hide XorLow;
    assert h / 256 == high && h % 256 == low;
    Quotient(XorByte(h, b) * FNV_PRIME, TWO_TO_64, k, next);
  }

  lemma LowBytesOfFoobar()
    ensures XorLow(37, 97) == 68 && XorLow(37, 102) == 67 && XorLow(217, 111) == 182 && XorLow(66, 111) == 45
    ensures XorLow(119, 98) == 21 && XorLow(175, 97) == 206 && XorLow(10, 114) == 120
  {
  }

  /** Published values of 64-bit FNV-1a: the empty string and "a". */
  lemma FnvOfShortStrings()
    ensures Fnv(FNV_OFFSET, []) == 0xcbf29ce484222325
    ensures Fnv(FNV_OFFSET, [97]) == 0xaf63dc4c8601ec8c
  {
    hide FnvByte, XorLow;
    LowBytesOfFoobar();
    FnvByteIs(FNV_OFFSET, 97, 0xcbf29ce4842223, 37, 68, 0xcbf29ce5de, 0xaf63dc4c8601ec8c);
    FnvAlong([FNV_OFFSET, 0xaf63dc4c8601ec8c], [97]);
  }

  /** And of "foobar". */
  lemma FnvOfFoobar()
    ensures Fnv(FNV_OFFSET, [102, 111, 111, 98, 97, 114]) == 0x85944171f73967e8
  {
    hide FnvByte, Fnv, XorLow;
    LowBytesOfFoobar();
    FnvByteIs(FNV_OFFSET, 102, 0xcbf29ce4842223, 37, 67, 0xcbf29ce5de, 0xaf63db4c8601ead9);
    FnvByteIs(0xaf63db4c8601ead9, 111, 0xaf63db4c8601ea, 217, 182, 0xaf63db4db0, 0x8985907b541d342);
    FnvByteIs(0x8985907b541d342, 111, 0x8985907b541d3, 66, 45, 0x8985907c3, 0xdcb27518fed9d577);
    FnvByteIs(0xdcb27518fed9d577, 98, 0xdcb27518fed9d5, 119, 21, 0xdcb2751a75, 0xdd120e790c2512af);
    FnvByteIs(0xdd120e790c2512af, 97, 0xdd120e790c2512, 175, 206, 0xdd120e7a83, 0xcac165afa2fef40a);
    FnvByteIs(0xcac165afa2fef40a, 114, 0xcac165afa2fef4, 10, 120, 0xcac165b0fb, 0x85944171f73967e8);
    FnvAlong([FNV_OFFSET, 0xaf63db4c8601ead9, 0x8985907b541d342, 0xdcb27518fed9d577, 0xdd120e790c2512af,
              0xcac165afa2fef40a, 0x85944171f73967e8],
             [102, 111, 111, 98, 97, 114]);
  }

  /** The 64-bit FNV-1a hasher of Go's hash/fnv. */
  class Hasher {
    var sum: Word

    constructor ()
      ensures sum == FNV_OFFSET
    {
      sum := FNV_OFFSET;
    }

    method Write(data: Bytes)
      modifies this
      ensures sum == Fnv(old(sum), data)
    {
      var i := 0;
      while i < |data|
        invariant 0 <= i <= |data|
        invariant Fnv(sum, data[i..]) == Fnv(old(sum), data)
      {
        assert data[i..][0] == data[i] && data[i..][1..] == data[i + 1..];
        sum := FnvByte(sum, data[i]);
        i := i + 1;
      }
    }
  }

  /** The score of a node for a key: one fold over key, a zero byte and the node's id. */
  function Score(key: Bytes, n: Node): Word {
    Fnv(FNV_OFFSET, key + [0] + n.id)
  }

  function Scores(key: Bytes, nodes: seq<Node>): (r: seq<Word>)
    ensures |r| == |nodes|
  {
    if nodes == [] then [] else [Score(key, nodes[0])] + Scores(key, nodes[1..])
  }

  lemma {:induction false} ScoresAt(key: Bytes, nodes: seq<Node>, i: nat)
    requires i < |nodes|
    ensures Scores(key, nodes)[i] == Score(key, nodes[i])
  {
    if i > 0 {
      ScoresAt(key, nodes[1..], i - 1);
    }
  }

  lemma {:induction false} ScoresAppend(key: Bytes, nodes: seq<Node>, n: Node)
    ensures Scores(key, nodes + [n]) == Scores(key, nodes) + [Score(key, n)]
  {
    if nodes == [] {
      assert nodes + [n] == [n];
    } else {
      assert (nodes + [n])[1..] == nodes[1..] + [n];
      ScoresAppend(key, nodes[1..], n);
    }
  }

  /** Index i holds the maximum, and everything before it is smaller. */
  ghost predicate FirstMax(scores: seq<Word>, i: nat) {
    && i < |scores|
    && (forall j :: 0 <= j < |scores| ==> scores[j] <= scores[i])
    && (forall j :: 0 <= j < i ==> scores[j] < scores[i])
  }

  /** The choice falls on index i. */
  ghost predicate FirstBest(key: Bytes, nodes: seq<Node>, i: nat) {
    FirstMax(Scores(key, nodes), i)
  }

  ghost predicate Picks(key: Bytes, nodes: seq<Node>, n: Node) {
    exists i: nat :: FirstBest(key, nodes, i) && nodes[i] == n
  }

  method ScoreOf(key: Bytes, n: Node) returns (score: Word)
    ensures score == Score(key, n)
  {
    var h := new Hasher();
    h.Write(key);
    h.Write([0]);
    h.Write(n.id);
    FnvConcat(FNV_OFFSET, key, [0]);
    FnvConcat(FNV_OFFSET, key + [0], n.id);
    score := h.sum;
  }

  /** The code's loop: nil for no nodes, otherwise the first node of maximal score. */
  method HrwPick(key: Bytes, nodes: seq<Node>) returns (best: Option<Node>)
    ensures best == None <==> nodes == []
    ensures best.Some? ==> Picks(key, nodes, best.value)
  {
    best := None;
    var bestScore: Word := 0;
    ghost var at: nat := 0;
    ghost var scores: seq<Word> := [];
    var i := 0;
    while i < |nodes|
      invariant 0 <= i <= |nodes| && |scores| == i
      invariant scores == Scores(key, nodes[..i])
      invariant best == None <==> i == 0
      invariant best.Some? ==> FirstMax(scores, at) && nodes[at] == best.value && bestScore == scores[at]
    {
      var score := ScoreOf(key, nodes[i]);
      assert nodes[..i + 1] == nodes[..i] + [nodes[i]];
      ScoresAppend(key, nodes[..i], nodes[i]);
      scores := scores + [score];
      if best == None || score > bestScore {
        best := Some(nodes[i]);
        bestScore := score;
        at := i;
      }
      i := i + 1;
    }
    assert nodes[..i] == nodes;
    assert best.Some? ==> FirstBest(key, nodes, at);
  }

  /** The pick is a function of key and node list. */
  lemma PickIsUnique(key: Bytes, nodes: seq<Node>, a: Node, b: Node)
    requires Picks(key, nodes, a) && Picks(key, nodes, b)
    ensures a == b
  {
    var i: nat :| FirstBest(key, nodes, i) && nodes[i] == a;
    var j: nat :| FirstBest(key, nodes, j) && nodes[j] == b;
  }

  /** sub is the subsequence of nodes at the strictly increasing positions in `at`. */
  ghost predicate SubsequenceAt(sub: seq<Node>, nodes: seq<Node>, at: seq<nat>) {
    && |at| == |sub|
    && (forall k :: 0 <= k < |at| ==> at[k] < |nodes| && sub[k] == nodes[at[k]])
    && (forall k, l :: 0 <= k < l < |at| ==> at[k] < at[l])
  }

  lemma FirstMaxOfSubsequence(sub: seq<Word>, scores: seq<Word>, at: seq<nat>, k: nat)
    requires |at| == |sub| && k < |at|
    requires forall m :: 0 <= m < |at| ==> at[m] < |scores| && sub[m] == scores[at[m]]
    requires forall l, m :: 0 <= l < m < |at| ==> at[l] < at[m]
    requires FirstMax(scores, at[k])
    ensures FirstMax(sub, k)
  {
  }

  /** Any subsequence that keeps the picked position picks the same node: removing others never moves a key. */
  lemma RemovalKeepsPick(key: Bytes, nodes: seq<Node>, sub: seq<Node>, at: seq<nat>, i: nat)
    requires SubsequenceAt(sub, nodes, at) && FirstBest(key, nodes, i) && i in at
    ensures Picks(key, sub, nodes[i])
  {
    var k: nat :| k < |at| && at[k] == i;
    forall m | 0 <= m < |at|
      ensures Scores(key, sub)[m] == Scores(key, nodes)[at[m]]
    {
      ScoresAt(key, sub, m);
      ScoresAt(key, nodes, at[m]);
    }
    FirstMaxOfSubsequence(Scores(key, sub), Scores(key, nodes), at, k);
    assert FirstBest(key, sub, k);
  }

  /** Growing a node list, with new nodes inserted anywhere, moves a key only to an inserted node. */
  lemma InsertionMovesOnlyToNew(key: Bytes, before: seq<Node>, after: seq<Node>, at: seq<nat>, chosen: Node, i: nat)
    requires SubsequenceAt(before, after, at) && Picks(key, before, chosen) && FirstBest(key, after, i)
    ensures after[i] == chosen || i !in at
  {
    if i in at {
      RemovalKeepsPick(key, after, before, at, i);
      PickIsUnique(key, before, chosen, after[i]);
    }
  }

  /** With pairwise distinct scores the pick does not depend on the order of the nodes. */
  lemma OrderIrrelevant(key: Bytes, a: seq<Node>, b: seq<Node>, n: Node)
    requires multiset(a) == multiset(b)
    requires forall i, j :: 0 <= i < j < |a| ==> Scores(key, a)[i] != Scores(key, a)[j]
    requires Picks(key, a, n)
    ensures Picks(key, b, n)
  {
    var i: nat :| FirstBest(key, a, i) && a[i] == n;
    assert n in multiset(b);
    var first := FirstIndex(b, n);
    ScoresAt(key, a, i);
    ScoresAt(key, b, first);
    forall j | 0 <= j < |b|
      ensures Scores(key, b)[j] <= Scores(key, b)[first]
      ensures j < first ==> Scores(key, b)[j] < Scores(key, b)[first]
    {
      assert b[j] in multiset(a);
      var m :| 0 <= m < |a| && a[m] == b[j];
      ScoresAt(key, a, m);
      ScoresAt(key, b, j);
      if j < first {
        assert m != i;
        assert Scores(key, a)[m] <= Scores(key, a)[i];
      }
    }
    assert FirstBest(key, b, first);
  }

  function FirstIndex(s: seq<Node>, n: Node): (i: nat)
    requires n in s
    ensures i < |s| && s[i] == n
    ensures forall j :: 0 <= j < i ==> s[j] != n
  {
    if s[0] == n then 0 else 1 + FirstIndex(s[1..], n)
  }

  /** Distinct scores are needed: two nodes that tie swap the pick when they swap places. */
  lemma TieFollowsOrder(key: Bytes, a: Node, b: Node)
    requires a != b && Scores(key, [a]) == Scores(key, [b])
    ensures Picks(key, [a, b], a) && Picks(key, [b, a], b)
  {
    ScoresAppend(key, [a], b);
    ScoresAppend(key, [b], a);
    ScoresAt(key, [a], 0);
    ScoresAt(key, [b], 0);
    assert [a] + [b] == [a, b] && [b] + [a] == [b, a];
    var s := Scores(key, [a])[0];
    assert Scores(key, [a, b]) == [s, s] && Scores(key, [b, a]) == [s, s];
    assert FirstBest(key, [a, b], 0) && FirstBest(key, [b, a], 0);
  }

  // ----- An example from start to end

  const ALICE: Bytes := [97, 108, 105, 99, 101]

  /** A zero byte and "node-". */
  const NODE: Bytes := [0, 110, 111, 100, 101, 45]

  lemma LowBytesOfAlice()
    ensures XorLow(37, 97) == 68 && XorLow(140, 108) == 224 && XorLow(160, 105) == 201 && XorLow(139, 99) == 232
    ensures XorLow(56, 101) == 93 && XorLow(7, 0) == 7 && XorLow(229, 110) == 139 && XorLow(49, 111) == 94
    ensures XorLow(186, 100) == 222 && XorLow(58, 101) == 95 && XorLow(109, 45) == 64 && XorLow(192, 49) == 241
    ensures XorLow(192, 50) == 242 && XorLow(192, 51) == 243
  {
  }

  lemma FnvOfAlice()
    ensures Fnv(FNV_OFFSET, ALICE) == 0x508b2abb65a03907
  {
    hide FnvByte, Fnv, XorLow;
    LowBytesOfAlice();
    FnvByteIs(FNV_OFFSET, 97, 0xcbf29ce4842223, 37, 68, 0xcbf29ce5de, 0xaf63dc4c8601ec8c);
    FnvByteIs(0xaf63dc4c8601ec8c, 108, 0xaf63dc4c8601ec, 140, 224, 0xaf63dc4db0, 0x89c3607b54580a0);
    FnvByteIs(0x89c3607b54580a0, 105, 0x89c3607b54580, 160, 201, 0x89c3607c3, 0xe6f098190519d58b);
    FnvByteIs(0xe6f098190519d58b, 99, 0xe6f098190519d5, 139, 232, 0xe6f0981a8d, 0x84a85a83aae67938);
    FnvByteIs(0x84a85a83aae67938, 101, 0x84a85a83aae679, 56, 93, 0x84a85a848c, 0x508b2abb65a03907);
    FnvAlong([FNV_OFFSET, 0xaf63dc4c8601ec8c, 0x89c3607b54580a0, 0xe6f098190519d58b, 0x84a85a83aae67938,
              0x508b2abb65a03907], ALICE);
  }

  lemma FnvOfNode()
    ensures Fnv(0x508b2abb65a03907, NODE) == 0x91c91da81f033c0
  {
    hide FnvByte, Fnv, XorLow;
    LowBytesOfAlice();
    FnvByteIs(0x508b2abb65a03907, 0, 0x508b2abb65a039, 7, 7, 0x508b2abbee, 0x7cb2a36daf40e6e5);
    FnvByteIs(0x7cb2a36daf40e6e5, 110, 0x7cb2a36daf40e6, 229, 139, 0x7cb2a36e83, 0x24723e60cb47be31);
    FnvByteIs(0x24723e60cb47be31, 111, 0x24723e60cb47be, 49, 94, 0x24723e6109, 0x35de5c796ae879ba);
    FnvByteIs(0x35de5c796ae879ba, 100, 0x35de5c796ae879, 186, 222, 0x35de5c79c6, 0x71510050a907143a);
    FnvByteIs(0x71510050a907143a, 101, 0x71510050a90714, 58, 95, 0x7151005169, 0x93b7e80f37079d6d);
    FnvByteIs(0x93b7e80f37079d6d, 45, 0x93b7e80f37079d, 109, 64, 0x93b7e81032, 0x91c91da81f033c0);
    FnvAlong([0x508b2abb65a03907, 0x7cb2a36daf40e6e5, 0x24723e60cb47be31, 0x35de5c796ae879ba, 0x71510050a907143a,
              0x93b7e80f37079d6d, 0x91c91da81f033c0], NODE);
  }

  lemma FnvOfOne(h: Word, b: bv8)
    ensures Fnv(h, [b]) == FnvByte(h, b)
  {
    hide FnvByte;
    assert [b][1..] == [];
  }

  /** The last byte of the node's id decides. */
  lemma ScoreOfAlice(digit: bv8, n: Node)
    requires n.id == [110, 111, 100, 101, 45, digit]
    ensures Score(ALICE, n) == FnvByte(0x91c91da81f033c0, digit)
  {
    hide FnvByte, Fnv;
    FnvOfAlice();
    FnvOfNode();
    FnvOfOne(0x91c91da81f033c0, digit);
    assert ALICE + [0] + n.id == ALICE + (NODE + [digit]);
    FnvConcat(FNV_OFFSET, ALICE, NODE + [digit]);
    FnvConcat(0x508b2abb65a03907, NODE, [digit]);
  }

  /** Of node-1, node-2 and node-3 the key "alice" picks node-3. */
  lemma AlicePicksThird(one: Node, two: Node, three: Node)
    requires one.id == [110, 111, 100, 101, 45, 49] && two.id == [110, 111, 100, 101, 45, 50]
    requires three.id == [110, 111, 100, 101, 45, 51]
    ensures Picks(ALICE, [one, two, three], three)
  {
    hide FnvByte, Score, XorLow;
    LowBytesOfAlice();
    var key, nodes := ALICE, [one, two, three];
    ScoreOfAlice(49, one);
    ScoreOfAlice(50, two);
    ScoreOfAlice(51, three);
    FnvByteIs(0x91c91da81f033c0, 49, 0x91c91da81f033, 192, 241, 0x91c91da91, 0x6bbfc74acb284283);
    FnvByteIs(0x91c91da81f033c0, 50, 0x91c91da81f033, 192, 242, 0x91c91da91, 0x6bbfc84acb284436);
    FnvByteIs(0x91c91da81f033c0, 51, 0x91c91da81f033, 192, 243, 0x91c91da91, 0x6bbfc94acb2845e9);
    ScoresAt(key, nodes, 0);
    ScoresAt(key, nodes, 1);
    ScoresAt(key, nodes, 2);
    assert FirstBest(key, nodes, 2);
  }

  // ----- Select

  /** firstNonEmpty over the four metadata spellings of the user id. */
  function FirstNonEmpty(vals: seq<Bytes>): (r: Bytes)
    ensures r == [] ==> forall i :: 0 <= i < |vals| ==> vals[i] == []
    ensures r != [] ==> exists i :: 0 <= i < |vals| && IsFirstNonEmpty(vals, i) && r == vals[i]
  {
    if vals == [] then []
    else if vals[0] != [] then
      assert IsFirstNonEmpty(vals, 0);
      vals[0]
    else
      var r := FirstNonEmpty(vals[1..]);
      assert forall i :: 0 <= i < |vals| - 1 ==> vals[1..][i] == vals[i + 1];
      assert forall i :: 0 <= i < |vals| - 1 && IsFirstNonEmpty(vals[1..], i) ==> IsFirstNonEmpty(vals, i + 1);
      r
  }

  ghost predicate IsFirstNonEmpty(vals: seq<Bytes>, i: int) {
    && 0 <= i < |vals|
    && vals[i] != []
    && forall j :: 0 <= j < i ==> vals[j] == []
  }

  type Service = seq<Node>

  /** What Select answers: an error, a Next that always yields one node, or the configured strategy. */
  datatype Selection = NoneAvailable | Sticky(node: Node) | Fallback(services: seq<Service>)

  function Flatten(services: seq<Service>): seq<Node> {
    if services == [] then [] else services[0] + Flatten(services[1..])
  }

  lemma {:induction false} FlattenConcat(a: seq<Service>, b: seq<Service>)
    ensures Flatten(a + b) == Flatten(a) + Flatten(b)
  {
    if a == [] {
      assert a + b == b;
    } else {
      assert (a + b)[1..] == a[1..] + b;
      FlattenConcat(a[1..], b);
    }
  }

  /** Every node of every service is considered, in the order of the services. */
  lemma FlattenAt(services: seq<Service>, i: nat)
    requires i < |services|
    ensures Flatten(services) == Flatten(services[..i]) + services[i] + Flatten(services[i + 1..])
  {
    assert services == services[..i] + services[i..] && services[i..] == [services[i]] + services[i + 1..];
    FlattenConcat(services[..i], services[i..]);
  }

  lemma {:induction false} FlattenHasEveryNode(services: seq<Service>, n: Node)
    ensures n in Flatten(services) <==> exists i :: 0 <= i < |services| && n in services[i]
  {
    if services != [] {
      FlattenHasEveryNode(services[1..], n);
      assert forall i :: 0 <= i < |services| - 1 ==> services[1..][i] == services[i + 1];
    }
  }

  /** A pick over all services scores at least as high as any node of any of them. */
  lemma PickBeatsEveryNode(key: Bytes, services: seq<Service>, n: Node, i: nat, other: Node)
    requires Picks(key, Flatten(services), n) && i < |services| && other in services[i]
    ensures Score(key, other) <= Score(key, n)
    ensures exists j :: 0 <= j < |services| && n in services[j]
  {
    hide Score, Scores;
    var nodes := Flatten(services);
    var at: nat :| FirstBest(key, nodes, at) && nodes[at] == n;
    FlattenHasEveryNode(services, n);
    FlattenHasEveryNode(services, other);
    var k :| 0 <= k < |nodes| && nodes[k] == other;
    ScoresAt(key, nodes, at);
    ScoresAt(key, nodes, k);
  }

  /** Select after the cache lookup and the filters; md holds the four metadata values in the code's order. */
  method Select(services: seq<Service>, md: seq<Bytes>) returns (s: Selection)
    ensures s == NoneAvailable <==> services == []
    ensures s.Sticky? <==> FirstNonEmpty(md) != [] && Flatten(services) != []
    ensures s.Sticky? ==> Picks(FirstNonEmpty(md), Flatten(services), s.node)
    ensures s.Sticky? ==> forall i, n :: 0 <= i < |services| && n in services[i] ==>
                            Score(FirstNonEmpty(md), n) <= Score(FirstNonEmpty(md), s.node)
    ensures s.Fallback? ==> s.services == services
  {
    if |services| == 0 {
      return NoneAvailable;
    }
    var nodes: seq<Node> := [];
    var i := 0;
    while i < |services|
      invariant 0 <= i <= |services|
      invariant nodes == Flatten(services[..i])
    {
      assert services[..i + 1] == services[..i] + [services[i]];
      FlattenConcat(services[..i], [services[i]]);
      assert Flatten([services[i]]) == services[i] + Flatten([]);
      nodes := nodes + services[i];
      i := i + 1;
    }
    assert services[..i] == services;
    var key := FirstNonEmpty(md);
    if key != [] && |nodes| > 0 {
      var chosen := HrwPick(key, nodes);
      if chosen == None {
        return NoneAvailable;
      }
      forall i, n | 0 <= i < |services| && n in services[i] ensures Score(key, n) <= Score(key, chosen.value) {
        PickBeatsEveryNode(key, services, chosen.value, i, n);
      }
      return Sticky(chosen.value);
    }
    return Fallback(services);
  }
}

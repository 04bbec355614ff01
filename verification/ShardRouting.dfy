/** shardFor: from a routing key to a shard, in 64-bit wrap-around arithmetic. */
module ShardRouting {
  import opened RoutingKeys
  import opened Dispatcher

  const WORD: nat := 0x1_0000_0000_0000_0000
  const FIBONACCI: nat := 11400714819323198485
  const KIND_MIX: nat := 15485907386658061715
  /** The inverse of FIBONACCI modulo WORD. */
  const UNFIBONACCI: nat := 17428512612931826493

  function KindCode(kind: KeyKind): nat {
    match kind
    case Account => 0
    case AccountGroup => 1
    case EngineWide => 2
    case ExclusiveBarrier => 3
  }

  /** Exclusive or of the lowest `bits` bits. */
  function Xor(a: nat, b: nat, bits: nat): nat {
    if bits == 0 then 0 else (if a % 2 == b % 2 then 0 else 1) + 2 * Xor(a / 2, b / 2, bits - 1)
  }

  function Pow2(n: nat): nat {
    if n == 0 then 1 else 2 * Pow2(n - 1)
  }

  lemma {:induction false} XorBelow(a: nat, b: nat, bits: nat)
    ensures Xor(a, b, bits) < Pow2(bits)
  {
    if bits > 0 {
      XorBelow(a / 2, b / 2, bits - 1);
    }
  }

  lemma {:induction false} XorUndoes(a: nat, b: nat, bits: nat)
    requires a < Pow2(bits)
    ensures Xor(Xor(a, b, bits), b, bits) == a
  {
    if bits > 0 {
      var bit: nat := if a % 2 == b % 2 then 0 else 1;
      var rest := Xor(a / 2, b / 2, bits - 1);
      LowBit(bit, rest);
      XorUndoes(a / 2, b / 2, bits - 1);
      assert Xor(bit + 2 * rest, b, bits) == a % 2 + 2 * Xor(rest, b / 2, bits - 1);
    }
  }

  lemma LowBit(bit: nat, rest: nat)
    requires bit < 2
    ensures (bit + 2 * rest) % 2 == bit && (bit + 2 * rest) / 2 == rest
  {
  }

  lemma {:induction false} Pow2Add(m: nat, n: nat)
    ensures Pow2(m + n) == Pow2(m) * Pow2(n)
  {
    if m > 0 {
      Pow2Add(m - 1, n);
      assert Pow2(m + n) == 2 * (Pow2(m - 1) * Pow2(n));
      assert 2 * (Pow2(m - 1) * Pow2(n)) == (2 * Pow2(m - 1)) * Pow2(n);
    }
  }

  lemma WordIsPow2()
    ensures WORD == Pow2(64)
  {
    assert Pow2(4) == 16;
    Pow2Add(4, 4);
    Pow2Add(8, 8);
    Pow2Add(16, 16);
    Pow2Add(32, 32);
  }

  function Scale(x: nat): nat {
    x * FIBONACCI % WORD
  }

  function Unscale(x: nat): nat {
    x * UNFIBONACCI % WORD
  }

  /** What a kind contributes to the hash. */
  function KindWord(kind: KeyKind): nat {
    KindCode(kind) * KIND_MIX % WORD
  }

  /** The hash of a key: its id times the Fibonacci constant, mixed with its kind. */
  function Hash(key: Key): nat {
    Xor(Scale(key.id), KindWord(key.kind), 64)
  }

  function Unhash(kind: KeyKind, h: nat): Key {
    Key(kind, Unscale(Xor(h, KindWord(kind), 64)))
  }

  lemma ModTimes(x: nat, c: nat)
    ensures (x % WORD) * c % WORD == x * c % WORD
  {
    var q := x / WORD;
    assert x * c == (x % WORD) * c + (q * c) * WORD;
    ModDrops((x % WORD) * c, q * c);
  }

  lemma {:induction false} ModDrops(r: nat, k: nat)
    ensures (r + k * WORD) % WORD == r % WORD
  {
    if k > 0 {
      ModDrops(r, k - 1);
      assert r + k * WORD == (r + (k - 1) * WORD) + WORD;
    }
  }

  lemma MultiplierUndoes(x: nat)
    ensures (x * FIBONACCI % WORD) * UNFIBONACCI % WORD == x % WORD
    ensures (x * UNFIBONACCI % WORD) * FIBONACCI % WORD == x % WORD
  {
    ModTimes(x * FIBONACCI, UNFIBONACCI);
    ModTimes(x * UNFIBONACCI, FIBONACCI);
    assert FIBONACCI * UNFIBONACCI == 1 + 10771413168148108919 * WORD;
    assert x * FIBONACCI * UNFIBONACCI == x + (10771413168148108919 * x) * WORD;
    ModDrops(x, 10771413168148108919 * x);
  }

  /** Multiplication by the odd constant permutes the words. */
  lemma ScaleUndoes(x: nat)
    requires x < WORD
    ensures Scale(x) < WORD && Unscale(Scale(x)) == x
    ensures Unscale(x) < WORD && Scale(Unscale(x)) == x
  {
    MultiplierUndoes(x);
  }

  /** Exclusive or with a fixed word permutes the words. */
  lemma XorWord(x: nat, c: nat)
    requires x < WORD
    ensures Xor(x, c, 64) < WORD && Xor(Xor(x, c, 64), c, 64) == x
  {
    WordIsPow2();
    XorBelow(x, c, 64);
    XorUndoes(x, c, 64);
  }

  /** For a fixed kind, the hash is a bijection between 64-bit ids and 64-bit words. */
  lemma HashIsBijective(kind: KeyKind, w: nat)
    requires w < WORD
    ensures Hash(Key(kind, w)) < WORD && Unhash(kind, Hash(Key(kind, w))) == Key(kind, w)
    ensures Unhash(kind, w).id < WORD && Hash(Unhash(kind, w)) == w
  {
    var c := KindWord(kind);
    ScaleUndoes(w);
    XorWord(Scale(w), c);
    XorWord(w, c);
    ScaleUndoes(Xor(w, c, 64));
  }

  lemma {:induction false} XorZero(b: nat, bits: nat)
    requires b < Pow2(bits)
    ensures Xor(b, 0, bits) == b && Xor(0, b, bits) == b
  {
    if bits > 0 {
      XorZero(b / 2, bits - 1);
    }
  }

  lemma {:induction false} XorTellsApart(a: nat, b: nat, c: nat, bits: nat)
    requires b < Pow2(bits) && c < Pow2(bits) && Xor(a, b, bits) == Xor(a, c, bits)
    ensures b == c
  {
    if bits > 0 {
      XorTellsApart(a / 2, b / 2, c / 2, bits - 1);
    }
  }

  /** An id hashes differently under each kind, though every hash of one kind is a hash of any other kind too. */
  lemma KindsAreMixedIn(a: KeyKind, b: KeyKind, id: nat)
    requires a != b && id < WORD
    ensures Hash(Key(a, id)) != Hash(Key(b, id))
    ensures var twin := Unhash(b, Hash(Key(a, id)));
            twin.kind == b && twin.id < WORD && Hash(twin) == Hash(Key(a, id))
  {
    hide Xor;
    WordIsPow2();
    assert KindWord(a) != KindWord(b);
    if Hash(Key(a, id)) == Hash(Key(b, id)) {
      XorTellsApart(Scale(id), KindWord(a), KindWord(b), 64);
    }
    HashIsBijective(a, id);
    HashIsBijective(b, Hash(Key(a, id)));
  }

  /** Where the two constants go: an account's id takes the one, the kind of a group the other. */
  lemma HashConstants(id: nat)
    ensures Hash(Key(Account, id)) == id * 0x9E37_79B9_7F4A_7C15 % WORD
    ensures Hash(Key(AccountGroup, 0)) == 0xD6E8_FEB8_6659_FD93
  {
    hide Xor;
    XorIntoZero(Scale(id));
    XorIntoZero(KIND_MIX);
    assert Scale(0) == 0;
  }

  lemma XorIntoZero(x: nat)
    requires x < WORD
    ensures Xor(x, 0, 64) == x && Xor(0, x, 64) == x
  {
    hide Xor;
    WordIsPow2();
    XorZero(x, 64);
  }

  /** The high word of the 128-bit product of hash and shard count. */
  function Index(h: nat, n: nat): (i: nat)
    requires n > 0
  {
    h * n / WORD
  }

  function ShardOf(key: Key, n: nat): nat
    requires n > 0
  {
    Index(Hash(key), n)
  }

  /** Where the interval of hashes of shard s begins: s * WORD / n, rounded up. */
  function Edge(s: nat, n: nat): nat
    requires n > 0
  {
    (s * WORD + n - 1) / n
  }

  lemma DivAtLeast(a: nat, d: nat, q: nat)
    requires d > 0
    ensures a / d >= q <==> a >= q * d
  {
    var k := a / d;
    assert a == k * d + a % d;
    if k >= q {
      assert k * d >= q * d by { TimesGrows(q, k, d); }
    } else {
      assert (k + 1) * d <= q * d by { TimesGrows(k + 1, q, d); }
      assert (k + 1) * d == k * d + d;
    }
  }

  lemma TimesGrows(a: nat, b: nat, d: nat)
    requires a <= b
    ensures a * d <= b * d
  {
  }

  /** Shard s owns exactly the hashes between its edge and the next one. */
  lemma IndexByEdges(h: nat, s: nat, n: nat)
    requires n > 0
    ensures Index(h, n) == s <==> Edge(s, n) <= h < Edge(s + 1, n)
  {
    AboveEdge(h, s, n);
    AboveEdge(h, s + 1, n);
  }

  lemma AboveEdge(h: nat, s: nat, n: nat)
    requires n > 0
    ensures Index(h, n) >= s <==> h >= Edge(s, n)
  {
    DivAtLeast(h * n, WORD, s);
    DivAtLeast(s * WORD + n - 1, n, h + 1);
    assert (h + 1) * n == h * n + n;
  }

  lemma IndexInRange(h: nat, n: nat)
    requires n > 0 && h < WORD
    ensures Index(h, n) < n
  {
    DivAtLeast(h * n, WORD, n);
    assert h * n < WORD * n by {
      TimesGrows(h + 1, WORD, n);
      assert (h + 1) * n == h * n + n;
    }
  }

  /** Consecutive edges are the rounded-down or the rounded-up share apart. */
  lemma EdgeGap(s: nat, n: nat)
    requires n > 0
    ensures WORD / n <= Edge(s + 1, n) - Edge(s, n) <= (WORD + n - 1) / n
  {
    var q, r := WORD / n, WORD % n;
    assert (s + 1) * WORD + n - 1 == (s * WORD + n - 1) + WORD;
    SumDiv(s * WORD + n - 1, WORD, n);
    DivAtLeast(WORD + n - 1, n, q + 1);
    DivAtLeast(WORD + n - 1, n, q);
    assert WORD == q * n + r && (q + 1) * n == q * n + n;
    if r == 0 {
      WholeShare(s * WORD + n - 1, q, n);
    }
  }

  lemma Spread(x: nat, y: nat, n: nat)
    ensures (x + y) * n == x * n + y * n
  {
  }

  lemma SumDiv(a: nat, b: nat, n: nat)
    requires n > 0
    ensures a / n + b / n <= (a + b) / n <= a / n + b / n + 1
  {
    var x, y := a / n, b / n;
    DivAtLeast(a, n, x);
    DivAtLeast(a, n, x + 1);
    DivAtLeast(b, n, y);
    DivAtLeast(b, n, y + 1);
    Spread(x, 1, n);
    Spread(y, 1, n);
    Spread(x, y, n);
    Spread(x + 1, y + 1, n);
    DivAtLeast(a + b, n, x + y);
    DivAtLeast(a + b, n, (x + 1) + (y + 1));
  }

  lemma WholeShare(a: nat, q: nat, n: nat)
    requires n > 0
    ensures (a + q * n) / n == a / n + q
  {
    DivAtLeast(a + q * n, n, a / n + q);
    DivAtLeast(a + q * n, n, a / n + q + 1);
    assert (a / n + q) * n == (a / n) * n + q * n;
    assert (a / n + q + 1) * n == (a / n) * n + q * n + n;
  }

  function Between(a: nat, b: nat): (r: set<nat>)
    ensures forall h: nat :: h in r <==> a <= h < b
  {
    if a < b then Between(a, b - 1) + {b - 1} else {}
  }

  lemma {:induction false} BetweenSize(a: nat, b: nat)
    requires a <= b
    ensures |Between(a, b)| == b - a
  {
    if a < b {
      BetweenSize(a, b - 1);
    }
  }

  /** The hashes that the ids of a set map to. */
  ghost function Hashes(kind: KeyKind, ids: set<nat>): set<nat> {
    set w: nat | w in ids :: Hash(Key(kind, w))
  }

  lemma {:induction false} HashesSize(kind: KeyKind, ids: set<nat>)
    requires forall w :: w in ids ==> w < WORD
    ensures |Hashes(kind, ids)| == |ids|
  {
    if ids != {} {
      var w :| w in ids;
      var rest := ids - {w};
      HashesSize(kind, rest);
      forall v | v in rest ensures Hash(Key(kind, v)) != Hash(Key(kind, w)) {
        HashIsBijective(kind, v);
        HashIsBijective(kind, w);
      }
      assert Hashes(kind, ids) == Hashes(kind, rest) + {Hash(Key(kind, w))};
    } else {
      assert Hashes(kind, ids) == {};
    }
  }

  /** The 64-bit ids of one kind that shard s serves. */
  function IdsOf(kind: KeyKind, s: nat, n: nat): set<nat>
    requires n > 0
  {
    set w: nat | w < WORD && ShardOf(Key(kind, w), n) == s
  }

  lemma EdgesBelowWord(s: nat, n: nat)
    requires s < n
    ensures Edge(s + 1, n) <= WORD
  {
    DivAtLeast((s + 1) * WORD + n - 1, n, WORD + 1);
    TimesGrows(s + 1, n, WORD);
    assert (WORD + 1) * n == WORD * n + n;
  }

  /** A hash between the edges of a shard comes from an id that the shard serves. */
  lemma HashFromShard(kind: KeyKind, s: nat, n: nat, h: nat)
    requires s < n && Edge(s, n) <= h < Edge(s + 1, n)
    ensures h in Hashes(kind, IdsOf(kind, s, n))
  {
    EdgesBelowWord(s, n);
    IndexByEdges(h, s, n);
    HashIsBijective(kind, h);
    var key := Unhash(kind, h);
    assert Hash(Key(kind, key.id)) == h && ShardOf(Key(kind, key.id), n) == s;
    assert key.id in IdsOf(kind, s, n);
  }

  lemma HashesOfShard(kind: KeyKind, s: nat, n: nat)
    requires s < n
    ensures Hashes(kind, IdsOf(kind, s, n)) == Between(Edge(s, n), Edge(s + 1, n))
  {
    forall h: nat ensures h in Hashes(kind, IdsOf(kind, s, n)) <==> Edge(s, n) <= h < Edge(s + 1, n) {
      if Edge(s, n) <= h < Edge(s + 1, n) {
        HashFromShard(kind, s, n, h);
      } else {
        IndexByEdges(h, s, n);
      }
    }
  }

  /** Of the 2^64 ids of a kind, each of the n shards serves the even share, rounded down or rounded up. */
  lemma EveryShardGetsItsShare(kind: KeyKind, s: nat, n: nat)
    requires s < n
    ensures WORD / n <= |IdsOf(kind, s, n)| <= (WORD + n - 1) / n
  {
    HashesSize(kind, IdsOf(kind, s, n));
    HashesOfShard(kind, s, n);
    EdgeGap(s, n);
    BetweenSize(Edge(s, n), Edge(s + 1, n));
  }

  /** Every key has a shard. */
  lemma ShardInRange(key: Key, n: nat)
    requires n > 0
    ensures ShardOf(key, n) < n
  {
    XorWord(Scale(key.id), KindWord(key.kind));
    IndexInRange(Hash(key), n);
  }

  /** The Sharded engine of the source, as a configuration of the dispatcher model. */
  function ShardedEngine(cap: nat, n: nat): Config
    requires n > 0
  {
    Config(false, false, cap, 0, n, (k: Key) => ShardOf(k, n))
  }

  lemma EveryKeyIsServed(cap: nat, n: nat, key: Key)
    requires n > 0 && cap > 0
    ensures GoodConfig(ShardedEngine(cap, n)) && CanFind(Init(ShardedEngine(cap, n)), key)
  {
    ShardInRange(key, n);
  }
}

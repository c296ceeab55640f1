/** How much correlated randomness a query uses, and that the configured budget covers it. */
module Budget {
  import opened Bits
  import opened Folds
  import opened OneHot

  /* ---------- what one query uses ---------- */

  /** Bytes of triples the one-hot tree of a `k`-bit index takes: every node's ticket, rounded up. */
  function TreeBytes(k: nat): nat
    requires k >= 1
  {
    if k == 1 then 0 else TreeBytes(Split(k)) + TreeBytes(k - Split(k)) + CeilDiv8(Pow2(k))
  }

  lemma {:induction false} SumZeros(n: nat)
    ensures Sum(seq(n, i => 0)) == 0
  {
    if n > 0 {
      SumZeros(n - 1);
      assert seq(n, i => 0)[..n - 1] == seq(n - 1, i => 0);
    }
  }

  lemma {:induction false} SumWiden(z: seq<nat>, l: nat)
    ensures Sum(Widen(z, l)) == Sum(z)
  {
    if l >= |z| {
      SumConcat(z, seq(l + 1 - |z|, i => 0));
      SumZeros(l + 1 - |z|);
    }
  }

  lemma {:induction false} JoinBytes(z: seq<nat>, l: nat, k: nat, low: Tree, high: Tree)
    ensures Sum(JoinPlan(z, l, k, low, high).0) == Sum(z) + CeilDiv8(Pow2(k))
  {
    var z' := Widen(z, l);
    SumWiden(z, l);
    SumUpdate(z', l, z'[l] + CeilDiv8(Pow2(k)));
  }

  lemma {:induction false} PlanStep(z: seq<nat>, l: nat, k: nat, low: (seq<nat>, Tree), high: (seq<nat>, Tree))
    requires k > 1 && low == Plan(z, l + 1, Split(k)) && high == Plan(low.0, l + 1, k - Split(k))
    ensures Plan(z, l, k) == JoinPlan(high.0, l, k, low.1, high.1)
  {
  }

  lemma {:induction false} TreeBytesStep(k: nat)
    requires k > 1
    ensures TreeBytes(k) == TreeBytes(Split(k)) + TreeBytes(k - Split(k)) + CeilDiv8(Pow2(k))
  {
  }

  /** The layers of the planned circuit together have exactly that many bytes. */
  lemma {:induction false} PlanBytes(z: seq<nat>, l: nat, k: nat)
    requires k >= 1
    ensures Sum(Plan(z, l, k).0) == Sum(z) + TreeBytes(k)
    decreases k
  {
    if k > 1 {
      SplitInside(k);
      var low := Plan(z, l + 1, Split(k));
      var high := Plan(low.0, l + 1, k - Split(k));
      PlanBytes(z, l + 1, Split(k));
      PlanBytes(low.0, l + 1, k - Split(k));
      PlanStep(z, l, k, low, high);
      JoinBytes(high.0, l, k, low.1, high.1);
      TreeBytesStep(k);
    }
  }

  /* ---------- how many layers there are ---------- */

  /** How often a length can be halved, rounding up, until one bit is left: the logarithm, rounded up. */
  function CeilLog2(k: nat): (d: nat)
    requires k >= 1
    ensures k <= Pow2(d) && (d > 0 ==> Pow2(d - 1) < k) && (d == 0 <==> k == 1)
  {
    if k == 1 then 0 else 1 + CeilLog2(Split(k))
  }

  lemma {:induction false} Pow2Reflects(a: nat, b: nat)
    requires Pow2(a) < Pow2(b)
    ensures a < b
  {
    if b <= a { Pow2Monotone(b, a); }
  }

  lemma {:induction false} LogMonotone(j: nat, k: nat)
    requires 1 <= j <= k
    ensures CeilLog2(j) <= CeilLog2(k)
  {
    var d, e := CeilLog2(j), CeilLog2(k);
    if d > 0 { Pow2Reflects(d - 1, e); }
  }

  function Max(a: nat, b: nat): nat { if a < b then b else a }

  /** Layers once a `k`-bit index is expanded at layer `l` over `n` layers. */
  function LayersAfter(n: nat, l: nat, k: nat): nat
    requires k >= 1
  {
    if k == 1 then n else Max(n, l + CeilLog2(k))
  }

  /** The plan has as many layers as the tree is deep. */
  predicate DeepEnough(z: seq<nat>, l: nat, k: nat)
    requires k >= 1
  {
    |Plan(z, l, k).0| == LayersAfter(|z|, l, k)
  }

  /** The tree of a `k`-bit index is as deep as the logarithm of k, rounded up. */
  lemma {:induction false} PlanDepth(z: seq<nat>, l: nat, k: nat)
    requires k >= 1
    ensures DeepEnough(z, l, k)
    decreases k
  {
    if k > 1 {
      SplitInside(k);
      PlanDepth(z, l + 1, Split(k));
      PlanDepth(Plan(z, l + 1, Split(k)).0, l + 1, k - Split(k));
      NodeDepth(z, l, k);
    }
  }

  /** The low half of an index gets the odd bit. */
  lemma SplitBalanced(k: nat)
    ensures Split(k) <= k && Split(k) == (k - Split(k)) + k % 2
  {
  }

  lemma JoinDepth(z: seq<nat>, l: nat, k: nat, low: Tree, high: Tree)
    ensures |JoinPlan(z, l, k, low, high).0| == Max(|z|, l + 1)
  {
  }

  lemma {:induction false} NodeDepth(z: seq<nat>, l: nat, k: nat)
    requires k > 1 && 1 <= Split(k) < k && DeepEnough(z, l + 1, Split(k))
    requires DeepEnough(Plan(z, l + 1, Split(k)).0, l + 1, k - Split(k))
    ensures DeepEnough(z, l, k)
  {
    var low := Plan(z, l + 1, Split(k));
    var high := Plan(low.0, l + 1, k - Split(k));
    PlanStep(z, l, k, low, high);
    JoinDepth(high.0, l, k, low.1, high.1);
    SplitBalanced(k);
    LogMonotone(k - Split(k), Split(k));
    DepthStep(|z|, l, k, Split(k), |low.0|, |high.0|);
  }

  lemma DepthStep(n: nat, l: nat, k: nat, s: nat, low: nat, high: nat)
    requires k >= 2 && s == Split(k) && 1 <= s < k && CeilLog2(k - s) <= CeilLog2(s)
    requires low == LayersAfter(n, l + 1, s) && high == LayersAfter(low, l + 1, k - s)
    ensures Max(high, l + 1) == LayersAfter(n, l, k)
  {
  }

  /** The circuit of a query has one layer for every time the longer half of the index can be halved. */
  lemma {:induction false} QueryDepth(k1: nat, k2: nat)
    requires 1 <= k2 <= k1 && k1 >= 2
    ensures |QueryPlan(k1, k2)| == CeilLog2(k1)
  {
    PlanDepth([], 0, k1);
    PlanDepth(Plan([], 0, k1).0, 0, k2);
    LogMonotone(k2, k1);
  }

  /** Layer sizes after both `ohe_vec` calls of a query. */
  function QueryPlan(k1: nat, k2: nat): seq<nat>
    requires k1 >= 1 && k2 >= 1
  {
    Plan(Plan([], 0, k1).0, 0, k2).0
  }

  /** Bytes of triples of one query: all layers of the one-hot circuit, then the select layer. */
  function QueryBytes(k1: nat, k2: nat): nat
    requires k1 >= 1 && k2 >= 1
  {
    TreeBytes(k1) + TreeBytes(k2) + CeilDiv8(Pow2(k2))
  }

  lemma {:induction false} QueryPlanBytes(k1: nat, k2: nat)
    requires k1 >= 1 && k2 >= 1
    ensures Sum(QueryPlan(k1, k2)) + CeilDiv8(Pow2(k2)) == QueryBytes(k1, k2)
  {
    PlanBytes([], 0, k1);
    PlanBytes(Plan([], 0, k1).0, 0, k2);
  }

  /** DaBits of one query: the joined index and the record bit. */
  function QueryDaBits(k1: nat, k2: nat): nat { k1 + k2 + 1 }

  /* ---------- what is configured ---------- */

  function Ceil(x: real): int { -((-x).Floor) }

  /** `beaver_per_q`, in bits. */
  function BeaverPerQuery(l1Dim: nat, l2Dim: nat): int {
    Ceil(2.5 * (l2Dim as real)) + Ceil(1.5 * (l1Dim as real)) + 3 * 32
  }

  const DABITS_PER_QUERY := 36

  /* ---------- the bound ---------- */

  lemma {:induction false} BytesOf(k: nat)
    requires k >= 1
    ensures k >= 3 ==> 8 * CeilDiv8(Pow2(k)) == Pow2(k)
    ensures 8 * CeilDiv8(Pow2(k)) <= Pow2(k) + 6
  {
    if k >= 3 {
      Pow2Bytes(k);
      CeilDiv8Shift(Pow2(k - 3), 0);
    } else if k == 1 {
      assert Pow2(1) == 2;
    } else {
      assert Pow2(2) == 4;
    }
  }

  lemma SmallTrees()
    ensures TreeBytes(1) == 0 && TreeBytes(2) == 1 && TreeBytes(3) == 2
    ensures TreeBytes(4) == 4 && TreeBytes(5) == 7 && TreeBytes(6) == 12
    ensures Pow2(1) == 2 && Pow2(2) == 4 && Pow2(3) == 8 && Pow2(4) == 16 && Pow2(5) == 32 && Pow2(6) == 64
  {
    assert Pow2(2) == 4;
    assert Pow2(4) == 16;
    assert Pow2(6) == 64;
    assert TreeBytes(2) == 1;
    assert TreeBytes(3) == 2;
    assert TreeBytes(4) == 4;
    assert TreeBytes(5) == 7;
  }

  /** Two half trees are small beside the root. */
  lemma HalvesSmall(a: nat, b: nat)
    requires a >= 4 && b >= 3 && b <= a
    ensures 3 * Pow2(a) + 3 * Pow2(b) + 32 <= Pow2(a + b)
  {
    Pow2Add(a, b);
    Pow2Monotone(4, a);
    Pow2Monotone(3, b);
    Pow2Monotone(b, a);
    assert Pow2(4) == 16 && Pow2(3) == 8;
    MulMonotone(8, Pow2(b), Pow2(a));
    Commute(Pow2(a), Pow2(b));
  }

  lemma {:induction false} SmallBound(k: nat)
    requires 1 <= k <= 6
    ensures 2 * (8 * TreeBytes(k)) <= 3 * Pow2(k) + 16
  {
    SmallTrees();
    if k == 1 {} else if k == 2 {} else if k == 3 {} else if k == 4 {} else if k == 5 {} else {}
  }

  lemma SplitParts(k: nat)
    requires k >= 7
    ensures Split(k) >= 4 && 3 <= k - Split(k) <= Split(k) < k
  {
  }

  lemma BigBound(a: nat, b: nat, low: nat, high: nat)
    requires a >= 4 && 3 <= b <= a
    requires 2 * (8 * low) <= 3 * Pow2(a) + 16 && 2 * (8 * high) <= 3 * Pow2(b) + 16
    ensures 2 * (8 * (low + high + CeilDiv8(Pow2(a + b)))) <= 3 * Pow2(a + b) + 16
  {
    BytesOf(a + b);
    HalvesSmall(a, b);
  }

  /** At most 1.5 * 2^k bits, plus one byte. */
  predicate Bounded(k: nat, bytes: nat) { 2 * (8 * bytes) <= 3 * Pow2(k) + 16 }

  lemma TreeStep(k: nat) returns (a: nat, b: nat)
    requires k >= 7
    ensures a >= 4 && 3 <= b <= a && a + b == k
    ensures TreeBytes(k) == TreeBytes(a) + TreeBytes(b) + CeilDiv8(Pow2(k))
  {
    SplitParts(k);
    a, b := Split(k), k - Split(k);
  }

  lemma {:induction false} BigTree(k: nat, a: nat, b: nat, low: nat, high: nat, all: nat)
    requires a >= 4 && 3 <= b <= a && a + b == k
    requires Bounded(a, low) && Bounded(b, high) && all == low + high + CeilDiv8(Pow2(k))
    ensures Bounded(k, all)
  {
    BigBound(a, b, low, high);
  }

  /** One tree's triples, for every index length. */
  lemma {:induction false} TreeBound(k: nat)
    requires k >= 1
    ensures Bounded(k, TreeBytes(k))
    decreases k
  {
    if k <= 6 {
      SmallBound(k);
    } else {
      var a, b := TreeStep(k);
      TreeBound(a);
      TreeBound(b);
      BigTree(k, a, b, TreeBytes(a), TreeBytes(b), TreeBytes(k));
    }
  }

  lemma CeilEven(h: nat)
    ensures Ceil(2.5 * ((2 * h) as real)) == 5 * h
    ensures Ceil(1.5 * ((2 * h) as real)) == 3 * h
  {
    assert 2.5 * ((2 * h) as real) == (5 * h) as real;
    assert 1.5 * ((2 * h) as real) == (3 * h) as real;
  }

  lemma {:induction false} CeilHalf(k: nat)
    requires k >= 1
    ensures 2 * Ceil(2.5 * (Pow2(k) as real)) == 5 * Pow2(k)
    ensures 2 * Ceil(1.5 * (Pow2(k) as real)) == 3 * Pow2(k)
  {
    CeilEven(Pow2(k - 1));
  }

  lemma CeilBounds(x: real)
    ensures x <= Ceil(x) as real < x + 1.0
  {
  }

  /** `c` is m/2 times n, rounded up. */
  predicate Halves(m: nat, n: nat, c: int) { m * n <= 2 * c <= m * n + 1 }

  lemma TwoAndAHalf(n: nat)
    ensures Halves(5, n, Ceil(2.5 * (n as real)))
  {
    CeilBounds(2.5 * (n as real));
  }

  lemma OneAndAHalf(n: nat)
    ensures Halves(3, n, Ceil(1.5 * (n as real)))
  {
    CeilBounds(1.5 * (n as real));
  }

  lemma HalvesAdd(l1Dim: nat, l2Dim: nat, x: int, y: int, all: int)
    requires Halves(5, l2Dim, x) && Halves(3, l1Dim, y) && all == x + y + 96
    ensures 5 * l2Dim + 3 * l1Dim + 192 <= 2 * all <= 5 * l2Dim + 3 * l1Dim + 194
    ensures l1Dim % 2 == 0 && l2Dim % 2 == 0 ==> 2 * all == 5 * l2Dim + 3 * l1Dim + 192
  {
    if l1Dim % 2 == 0 && l2Dim % 2 == 0 {
      HalvesEven(5, l2Dim, l2Dim / 2, x);
      HalvesEven(3, l1Dim, l1Dim / 2, y);
    }
  }

  lemma HalvesEven(m: nat, n: nat, h: nat, c: int)
    requires n == 2 * h && Halves(m, n, c)
    ensures c == m * h
  {
    assert m * n == 2 * (m * h);
  }

  /** What is set aside for a query, in numbers: 2.5 bits for every row, 1.5 for every column, 96 more and at
      most one bit for rounding, for dimensions of any size. */
  lemma BudgetInNumbers(l1Dim: nat, l2Dim: nat)
    ensures 5 * l2Dim + 3 * l1Dim + 192 <= 2 * BeaverPerQuery(l1Dim, l2Dim) <= 5 * l2Dim + 3 * l1Dim + 194
    ensures l1Dim % 2 == 0 && l2Dim % 2 == 0 ==> 2 * BeaverPerQuery(l1Dim, l2Dim) == 5 * l2Dim + 3 * l1Dim + 192
  {
    TwoAndAHalf(l2Dim);
    OneAndAHalf(l1Dim);
    HalvesAdd(l1Dim, l2Dim, Ceil(2.5 * (l2Dim as real)), Ceil(1.5 * (l1Dim as real)),
              BeaverPerQuery(l1Dim, l2Dim));
  }

  /** One tree takes at least the bits of its root. */
  lemma {:induction false} TreeAtLeast(k: nat)
    requires k >= 2
    ensures 8 * TreeBytes(k) >= Pow2(k)
  {
  }

  /** What one query uses, in numbers: at most 2.5 bits for every row, 1.5 for every column and 96 more, and at
      least two for every row and one for every column. */
  lemma {:induction false} QueryUse(k1: nat, k2: nat)
    requires k1 >= 3 && 1 <= k2 <= k1
    ensures 4 * Pow2(k2) + 2 * Pow2(k1) <= 16 * QueryBytes(k1, k2) <= 5 * Pow2(k2) + 3 * Pow2(k1) + 192
  {
    TreeBound(k1);
    TreeBound(k2);
    BytesOf(k2);
    TreeAtLeast(k1);
    if k2 >= 2 { TreeAtLeast(k2); } else { SmallTrees(); }
  }

  lemma {:induction false} BudgetOfPowers(k1: nat, k2: nat)
    requires k1 >= 1 && k2 >= 1
    ensures 2 * BeaverPerQuery(Pow2(k1), Pow2(k2)) == 5 * Pow2(k2) + 3 * Pow2(k1) + 192
  {
    CeilHalf(k1);
    CeilHalf(k2);
  }

  /** The budget covers a query and overshoots it by at most half a bit for every row and column, plus 96. */
  lemma {:induction false} BudgetTight(k1: nat, k2: nat)
    requires k1 >= 3 && 1 <= k2 <= k1
    ensures 0 <= 2 * (BeaverPerQuery(Pow2(k1), Pow2(k2)) - 8 * QueryBytes(k1, k2)) <= Pow2(k2) + Pow2(k1) + 192
  {
    QueryUse(k1, k2);
    BudgetOfPowers(k1, k2);
  }

  /** The daBits set aside cover every legal query, and the longest index leaves three of them over. */
  lemma DaBitsTight(k1: nat, k2: nat)
    requires k1 + k2 <= 32
    ensures QueryDaBits(k1, k2) + 3 <= DABITS_PER_QUERY
    ensures QueryDaBits(k1, k2) + 3 == DABITS_PER_QUERY <==> k1 + k2 == 32
  {
  }

  /** One query never uses more triples than the configuration sets aside for it. */
  lemma {:induction false} QueryWithinBudget(k1: nat, k2: nat)
    requires k1 >= 3 && 1 <= k2 <= k1
    ensures 8 * QueryBytes(k1, k2) <= BeaverPerQuery(Pow2(k1), Pow2(k2))
  {
    TreeBound(k1);
    TreeBound(k2);
    BytesOf(k2);
    CeilHalf(k1);
    CeilHalf(k2);
  }

  /** Bytes a provider stores for `n` expected queries. */
  function StoredBytes(n: nat, k1: nat, k2: nat): nat
    requires n * BeaverPerQuery(Pow2(k1), Pow2(k2)) >= 0
  {
    CeilDiv8(n * BeaverPerQuery(Pow2(k1), Pow2(k2)))
  }

  /** The providers store the budget of all expected queries, rounded up to whole bytes. */
  lemma {:induction false} StoredTight(n: nat, k1: nat, k2: nat)
    requires n * BeaverPerQuery(Pow2(k1), Pow2(k2)) >= 0
    ensures 0 <= 8 * StoredBytes(n, k1, k2) - n * BeaverPerQuery(Pow2(k1), Pow2(k2)) < 8
  {
  }

  lemma MulMonotone(a: int, b: int, c: nat)
    requires a <= b
    ensures a * c <= b * c
  {
    assert (b - a) * c >= 0;
  }

  lemma Eightfold(n: nat, use: nat)
    ensures (8 * use) * n == 8 * (use * n)
  {
  }

  lemma ScaleUp(q: nat, n: nat, use: nat, budget: int)
    requires q < n && 8 * use <= budget
    ensures 0 <= n * budget && (q + 1) * use <= CeilDiv8(n * budget)
  {
    MulMonotone(8 * use, budget, n);
    Eightfold(n, use);
    MulMonotone(q + 1, n, use);
    Commute(n, budget);
    Commute(n, use);
  }

  lemma Commute(a: int, b: int)
    ensures a * b == b * a
  {
  }

  /** Query number `q` of `n` expected ones starts after q queries' bytes and ends within the
      storage: `take` never runs out, of triples or of daBits. */
  lemma {:induction false} NeverExhausted(q: nat, n: nat, k1: nat, k2: nat)
    requires q < n && k1 >= 3 && 1 <= k2 <= k1 && k1 + k2 <= 32
    ensures n * BeaverPerQuery(Pow2(k1), Pow2(k2)) >= 0
    ensures q * QueryBytes(k1, k2) + QueryBytes(k1, k2) <= StoredBytes(n, k1, k2)
    ensures q * QueryDaBits(k1, k2) + QueryDaBits(k1, k2) <= n * DABITS_PER_QUERY
  {
    QueryWithinBudget(k1, k2);
    ScaleUp(q, n, QueryBytes(k1, k2), BeaverPerQuery(Pow2(k1), Pow2(k2)));
    assert (q + 1) * QueryBytes(k1, k2) == q * QueryBytes(k1, k2) + QueryBytes(k1, k2);
    DaBitScale(q, n, QueryDaBits(k1, k2));
  }

  lemma DaBitScale(q: nat, n: nat, use: nat)
    requires q < n && use <= DABITS_PER_QUERY
    ensures q * use + use <= n * DABITS_PER_QUERY
  {
    assert q * use <= q * 36;
    assert (q + 1) * 36 <= n * 36;
  }

  /** The allowance for alignment is needed: the smallest database exceeds the estimate without it. */
  lemma AllowanceNeeded()
    ensures 8 * QueryBytes(3, 1) > BeaverPerQuery(Pow2(3), Pow2(1)) - 3 * 32
  {
    SmallTrees();
    CeilHalf(3);
    CeilHalf(1);
  }

  /* ---------- the sizes of messages ---------- */

  lemma {:induction false} ElementBelowSum(z: seq<nat>, l: nat)
    requires l < |z|
    ensures z[l] <= Sum(z) && 0 <= Sum(z)
  {
    var n := |z| - 1;
    SumNonNeg(z[..n]);
    if l < n { ElementBelowSum(z[..n], l); }
  }

  lemma {:induction false} WordPowers(k1: nat, k2: nat)
    requires k2 <= k1 < 32 && k1 + k2 <= 32
    ensures Pow2(k1) <= 0x8000_0000 && Pow2(k2) <= 0x1_0000
  {
    assert Pow2(8) == 0x100;
    Pow2Add(8, 8);
    Pow2Add(16, 8);
    assert Pow2(7) == 0x80;
    Pow2Add(24, 7);
    Pow2Monotone(k1, 31);
    Pow2Monotone(k2, 16);
  }

  /** On legal dimensions every layer of a query, the select layer and the daBits have fewer than
      2^32 bits. */
  lemma {:induction false} MessagesFit(k1: nat, k2: nat, l: nat)
    requires 1 <= k2 <= k1 < 32 && k1 + k2 <= 32 && l < |QueryPlan(k1, k2)|
    ensures 8 * QueryPlan(k1, k2)[l] < 0x1_0000_0000
    ensures 8 * CeilDiv8(Pow2(k2)) < 0x1_0000_0000 && QueryDaBits(k1, k2) < 0x1_0000_0000
  {
    PlanBytes([], 0, k1);
    PlanBytes(Plan([], 0, k1).0, 0, k2);
    ElementBelowSum(QueryPlan(k1, k2), l);
    TreeBound(k1);
    TreeBound(k2);
    WordPowers(k1, k2);
  }
}

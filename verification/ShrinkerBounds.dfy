/** How many runs shrinking costs, whatever the oracle answers. */
module ShrinkerBounds {
  import opened Wrappers
  import opened Ops
  import opened Shrinker
  import opened ShrinkerTheorems
  import opened ShrinkerEmbedding

  function Pow2(k: nat): nat {
    if k == 0 then 1 else 2 * Pow2(k - 1)
  }

  /** floor(log2(k)) + 1, and 0 for 0: how often `k` can be halved. */
  function Bits(k: nat): nat {
    if k == 0 then 0 else 1 + Bits(k / 2)
  }

  lemma {:induction false} BitsIsLogarithm(k: nat)
    requires k > 0
    ensures Bits(k) > 0 && Pow2(Bits(k) - 1) <= k < Pow2(Bits(k))
  {
    if k > 1 {
      BitsIsLogarithm(k / 2);
    }
  }

  lemma {:induction false} BitsMonotone(j: nat, k: nat)
    requires j <= k
    ensures Bits(j) <= Bits(k)
  {
    if j > 0 {
      BitsMonotone(j / 2, k / 2);
    }
  }

  /** The runs a pass may take on `n` ops. */
  function Budget(kind: PassKind, n: nat): nat {
    match kind
    case SuffixTrim => if n == 0 then 0 else n - 1
    case PrefixTrim => if n == 0 then 0 else n - 1
    case SingleDeletion => n
    case Subsequence => if n <= 2 then 0 else n * Bits(n - 1)
    case NameSimplification => n
    case SqlSimplification => n
  }

  lemma BudgetMonotone(kind: PassKind, m: nat, n: nat)
    requires m <= n
    ensures Budget(kind, m) <= Budget(kind, n)
  {
    if kind == Subsequence && m > 2 {
      BitsMonotone(m - 1, n - 1);
      ProductMonotone(m, n, Bits(m - 1), Bits(n - 1));
    }
  }

  lemma ProductMonotone(a: nat, b: nat, x: nat, y: nat)
    requires a <= b && x <= y
    ensures a * x <= b * y
  {
    assert a * x <= b * x <= b * y;
  }

  function Repeated(cost: nat, times: nat): nat {
    if times == 0 then 0 else cost + Repeated(cost, times - 1)
  }

  lemma {:induction false} RepeatedIsProduct(cost: nat, times: nat)
    ensures Repeated(cost, times) == cost * times && cost * times == times * cost
  {
    if times > 0 {
      RepeatedIsProduct(cost, times - 1);
    }
  }

  lemma {:induction false} RepeatedMonotone(cost: nat, j: nat, k: nat)
    requires j <= k
    ensures Repeated(cost, j) <= Repeated(cost, k)
    decreases k
  {
    if j < k {
      RepeatedMonotone(cost, j, k - 1);
    }
  }

  /** One probe of the window search tries at most every position once. */
  lemma ProbeCost(
    o: Oracle, ops: seq<FrontendOp>, lo: nat, hi: nat, best: Option<seq<FrontendOp>>, clock: nat, mid: nat)
    returns (p: Probe)
    requires 1 <= lo <= hi < |ops| && mid == (lo + hi) / 2
    ensures p.clock <= clock + |ops|
    ensures p.found.None? ==> Search(o, ops, lo, hi, best, clock) == Search(o, ops, mid + 1, hi, best, p.clock)
    ensures p.found.Some? && mid <= 1 ==> Search(o, ops, lo, hi, best, clock) == p
    ensures p.found.Some? && mid > 1 ==>
      Search(o, ops, lo, hi, best, clock) == Search(o, ops, lo, mid - 1, p.found, p.clock)
  {
    p := FirstWindow(o, ops, mid, 0, clock);
    FirstWindowAnswers(o, ops, mid, 0, clock);
    SearchStep(o, ops, lo, hi, best, clock, mid);
  }

  /** The runs a search over `size` lengths may take, probe by probe. */
  function SearchBudget(cost: nat, size: nat): nat {
    if size == 0 then 0 else cost + SearchBudget(cost, size / 2)
  }

  lemma {:induction false} SearchBudgetMonotone(cost: nat, j: nat, k: nat)
    requires j <= k
    ensures SearchBudget(cost, j) <= SearchBudget(cost, k)
    decreases k
  {
    if j > 0 {
      SearchBudgetMonotone(cost, j / 2, k / 2);
    }
  }

  lemma {:induction false} SearchBudgetIs(cost: nat, size: nat)
    ensures SearchBudget(cost, size) == Repeated(cost, Bits(size))
  {
    if size > 0 {
      SearchBudgetIs(cost, size / 2);
    }
  }

  lemma Halves(lo: nat, hi: nat, mid: nat, size: nat)
    requires lo <= hi && mid == (lo + hi) / 2 && size == hi + 1 - lo
    ensures lo <= mid <= hi && hi - mid <= size / 2 && mid - lo <= size / 2
  {
  }

  /** What is left of the budget after a probe covers a search over at most half the lengths. */
  lemma HalfBudget(cost: nat, size: nat, rest: nat)
    requires size > 0 && rest <= size / 2
    ensures cost + SearchBudget(cost, rest) <= SearchBudget(cost, size)
  {
    SearchBudgetMonotone(cost, rest, size / 2);
  }

  lemma {:induction false} SearchCost(
    o: Oracle, ops: seq<FrontendOp>, lo: nat, hi: nat, best: Option<seq<FrontendOp>>, clock: nat, size: nat, all: Probe)
    requires 1 <= lo <= hi + 1 && hi < |ops| && size == hi + 1 - lo
    requires all == Search(o, ops, lo, hi, best, clock)
    ensures all.clock <= clock + SearchBudget(|ops|, size)
    decreases size
  {
    if lo <= hi {
      var mid := (lo + hi) / 2;
      Halves(lo, hi, mid, size);
      HalfBudget(|ops|, size, hi - mid);
      HalfBudget(|ops|, size, mid - lo);
      var p := ProbeCost(o, ops, lo, hi, best, clock, mid);
      if p.found.None? {
        SearchCost(o, ops, mid + 1, hi, best, p.clock, hi - mid, all);
      } else if mid > 1 {
        SearchCost(o, ops, lo, mid - 1, p.found, p.clock, mid - lo, all);
      }
    }
  }

  lemma WindowsCost(o: Oracle, ops: seq<FrontendOp>, clock: nat, n: nat)
    requires n == |ops|
    ensures SearchWindows(o, ops, clock).clock <= clock + if n <= 2 then 0 else SearchBudget(n, n - 1)
  {
    if n > 2 {
      var all := Search(o, ops, 1, n - 1, None, clock);
      SearchCost(o, ops, 1, n - 1, None, clock, n - 1, all);
    }
  }

  lemma WindowsBudget(n: nat)
    requires n > 2
    ensures SearchBudget(n, n - 1) == Budget(Subsequence, n)
  {
    SearchBudgetIs(n, n - 1);
    RepeatedIsProduct(n, Bits(n - 1));
  }

  lemma PassCost(kind: PassKind, o: Oracle, ops: seq<FrontendOp>, clock: nat)
    ensures Pass(kind, o, ops, clock).clock <= clock + Budget(kind, |ops|)
  {
    match kind
    case SuffixTrim => FirstHitAnswers(o, Prefixes(ops), clock);
    case PrefixTrim => FirstHitAnswers(o, Suffixes(ops), clock);
    case SingleDeletion => FirstHitAnswers(o, Deletions(ops), clock);
    case Subsequence =>
      WindowsCost(o, ops, clock, |ops|);
      if |ops| > 2 {
        WindowsBudget(|ops|);
      }
    case NameSimplification => GreedyAnswers(o, SimplifyNames, Progress(ops, false, clock), 0);
    case SqlSimplification => GreedyAnswers(o, SimplifySql, Progress(ops, false, clock), 0);
  }

  function PassesBudget(k: nat, n: nat): nat
    requires k <= PASS_COUNT
  {
    if k == 0 then 0 else PassesBudget(k - 1, n) + Budget(KindAt(k - 1), n)
  }

  function RoundBudget(n: nat): nat {
    PassesBudget(PASS_COUNT, n)
  }

  /** The budget of a round, written out. */
  lemma RoundBudgetIs(n: nat)
    requires n > 2
    ensures RoundBudget(n) == (n - 1) + (n - 1) + n + n * Bits(n - 1) + 2 * n
  {
    assert PassesBudget(1, n) == n - 1;
    assert PassesBudget(2, n) == (n - 1) + (n - 1);
    assert PassesBudget(3, n) == (n - 1) + (n - 1) + n;
    assert PassesBudget(4, n) == (n - 1) + (n - 1) + n + n * Bits(n - 1);
    assert PassesBudget(5, n) == (n - 1) + (n - 1) + n + n * Bits(n - 1) + n;
  }

  lemma {:induction false} PassesBudgetMonotone(k: nat, m: nat, n: nat)
    requires k <= PASS_COUNT && m <= n
    ensures PassesBudget(k, m) <= PassesBudget(k, n)
  {
    if k > 0 {
      PassesBudgetMonotone(k - 1, m, n);
      BudgetMonotone(KindAt(k - 1), m, n);
    }
  }

  lemma RoundBudgetMonotone(m: nat, n: nat)
    requires m <= n
    ensures RoundBudget(m) <= RoundBudget(n)
  {
    PassesBudgetMonotone(PASS_COUNT, m, n);
  }

  lemma RoundBudgetOf31()
    ensures RoundBudget(31) == 308
  {
    RoundBudgetIs(31);
    assert Bits(3) == 2 && Bits(7) == 3 && Bits(15) == 4 && Bits(30) == 5;
  }

  lemma DerivedIsNoLonger(a: seq<FrontendOp>, b: seq<FrontendOp>)
    requires Derived(a, b)
    ensures |a| <= |b|
  {
    var m :| DerivedVia(a, b, m);
    IndexMapFits(m, |b|);
  }

  lemma {:induction false} PassesCost(o: Oracle, s: Progress, k: nat, n: nat)
    requires k <= PASS_COUNT && |s.ops| <= n
    ensures Passes(o, s, k).clock <= s.clock + PassesBudget(k, n)
  {
    if k > 0 {
      PassesCost(o, s, k - 1, n);
      var s' := Passes(o, s, k - 1);
      PassesDerived(o, s, k - 1);
      DerivedIsNoLonger(s'.ops, s.ops);
      PassCost(KindAt(k - 1), o, s'.ops, s'.clock);
      BudgetMonotone(KindAt(k - 1), |s'.ops|, n);
    }
  }

  lemma RoundCost(o: Oracle, ops: seq<FrontendOp>, clock: nat, n: nat)
    requires |ops| <= n
    ensures var r := Round(o, ops, clock); r.clock <= clock + RoundBudget(n) && |r.ops| <= n
  {
    var s := Progress(ops, false, clock);
    PassesCost(o, s, PASS_COUNT, n);
    PassesDerived(o, s, PASS_COUNT);
    DerivedIsNoLonger(Round(o, ops, clock).ops, ops);
  }

  /** How many rounds the fixed-point loop goes through. */
  function Rounds(o: Oracle, ops: seq<FrontendOp>, clock: nat): nat
    decreases Size(ops)
  {
    var r := Round(o, ops, clock);
    RoundIsSmaller(o, ops, clock);
    if r.progress then 1 + Rounds(o, r.ops, r.clock) else 1
  }

  lemma {:induction false} SizeAtMost(ops: seq<FrontendOp>)
    ensures Size(ops) <= 3 * |ops|
  {
    if ops != [] {
      SizeAtMost(ops[..|ops| - 1]);
    }
  }

  lemma {:induction false} ShrunkCost(
    o: Oracle, ops: seq<FrontendOp>, clock: nat, n: nat, budget: nat, rounds: nat, all: Progress)
    requires ops != [] && |ops| <= n && budget == RoundBudget(n)
    requires rounds == Rounds(o, ops, clock) && all == Shrunk(o, ops, clock)
    ensures 0 < rounds <= Size(ops)
    ensures all.clock <= clock + Repeated(budget, rounds)
    decreases Size(ops)
  {
    var r := Round(o, ops, clock);
    RoundCost(o, ops, clock, n);
    RoundIsSmaller(o, ops, clock);
    if r.progress {
      ShrunkCost(o, r.ops, r.clock, n, budget, rounds - 1, all);
    } else {
      assert Repeated(budget, 1) == budget + Repeated(budget, 0);
    }
  }

  /** Against any oracle: at most 3n rounds, and at most 3n times a round's budget of runs. */
  lemma ShrinkingIsBounded(o: Oracle, ops: seq<FrontendOp>, clock: nat)
    requires ops != []
    ensures Rounds(o, ops, clock) <= 3 * |ops|
    ensures Shrunk(o, ops, clock).clock - clock <= 3 * |ops| * RoundBudget(|ops|)
  {
    var budget := RoundBudget(|ops|);
    ShrunkCost(o, ops, clock, |ops|, budget, Rounds(o, ops, clock), Shrunk(o, ops, clock));
    SizeAtMost(ops);
    RepeatedMonotone(budget, Rounds(o, ops, clock), 3 * |ops|);
    RepeatedIsProduct(budget, 3 * |ops|);
  }
}

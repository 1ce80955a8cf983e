/** What shrinking guarantees, for every oracle and every input. */
module ShrinkerTheorems {
  import opened Wrappers
  import opened Ops
  import opened Shrinker

  // ---------------------------------------------------------------------------
  // Refusals and acceptances
  // ---------------------------------------------------------------------------

  /** The candidate was turned down in some run of a time span. */
  ghost predicate Refused(o: Oracle, c: seq<FrontendOp>, from: nat, to: nat) {
    c == [] || exists n :: from <= n < to && !o(n, c)
  }

  ghost predicate Accepted(o: Oracle, c: seq<FrontendOp>, from: nat, to: nat) {
    c != [] && exists n :: from <= n < to && o(n, c)
  }

  lemma RefusedLonger(o: Oracle, c: seq<FrontendOp>, from: nat, to: nat, from': nat, to': nat)
    requires Refused(o, c, from, to) && from' <= from && to <= to'
    ensures Refused(o, c, from', to')
  {
  }

  /** The oracle's answer depends on the candidate alone. */
  ghost predicate Steady(o: Oracle) {
    forall n, c :: o(n, c) == o(0, c)
  }

  lemma {:induction false} FirstHitAnswers(o: Oracle, cs: seq<seq<FrontendOp>>, clock: nat)
    ensures var p := FirstHit(o, cs, clock);
      && clock <= p.clock <= clock + |cs|
      && (p.found.None? ==> forall c :: c in cs ==> Refused(o, c, clock, p.clock))
      && (p.found.Some? ==> p.found.value in cs && Accepted(o, p.found.value, clock, p.clock))
  {
    if cs != [] && !Accepts(o, clock, cs[0]) {
      FirstHitAnswers(o, cs[1..], Tick(cs[0], clock));
      var p := FirstHit(o, cs, clock);
      if p.found.None? {
        forall c | c in cs ensures Refused(o, c, clock, p.clock) {
          assert c == cs[0] || c in cs[1..];
        }
      }
    }
  }

  /** What is found is the first candidate not refused: all before it were tried and turned down. */
  lemma {:induction false} FirstHitOrder(o: Oracle, cs: seq<seq<FrontendOp>>, clock: nat) returns (i: nat)
    requires FirstHit(o, cs, clock).found.Some?
    ensures var p := FirstHit(o, cs, clock);
      && i < |cs| && p.found.value == cs[i] && Accepted(o, cs[i], clock, p.clock)
      && forall j :: 0 <= j < i ==> Refused(o, cs[j], clock, p.clock)
  {
    FirstHitAnswers(o, cs, clock);
    i := 0;
    if !Accepts(o, clock, cs[0]) {
      var t := Tick(cs[0], clock);
      FirstHitAnswers(o, cs[1..], t);
      var k := FirstHitOrder(o, cs[1..], t);
      i := k + 1;
      var end := FirstHit(o, cs, clock).clock;
      forall j | 0 <= j < i ensures Refused(o, cs[j], clock, end) {
        if j > 0 {
          assert cs[j] == cs[1..][j - 1];
          RefusedLonger(o, cs[j], t, end, clock, end);
        }
      }
    }
  }

  /** The suffix pass keeps the shortest prefix it can: every shorter one was refused. */
  lemma SuffixTrimIsAggressive(o: Oracle, ops: seq<FrontendOp>, clock: nat, shorter: seq<FrontendOp>)
    requires var p := Pass(SuffixTrim, o, ops, clock); p.found.Some? && shorter < p.found.value
    ensures var p := Pass(SuffixTrim, o, ops, clock);
      && [] < p.found.value < ops && Accepted(o, p.found.value, clock, p.clock)
      && Refused(o, shorter, clock, p.clock)
  {
    var i := FirstHitOrder(o, Prefixes(ops), clock);
    if shorter != [] {
      assert Prefixes(ops)[|shorter| - 1] == shorter;
    }
  }

  /** The prefix pass keeps the shortest suffix it can: it cuts at `k`, and every later cut was refused. */
  lemma PrefixTrimIsAggressive(o: Oracle, ops: seq<FrontendOp>, clock: nat) returns (k: nat)
    requires Pass(PrefixTrim, o, ops, clock).found.Some?
    ensures var p := Pass(PrefixTrim, o, ops, clock);
      && 0 < k < |ops| && p.found.value == ops[k..] && Accepted(o, ops[k..], clock, p.clock)
      && forall j :: k < j < |ops| ==> Refused(o, ops[j..], clock, p.clock)
  {
    var i := FirstHitOrder(o, Suffixes(ops), clock);
    k := |ops| - 1 - i;
    forall j | k < j < |ops| ensures Refused(o, ops[j..], clock, Pass(PrefixTrim, o, ops, clock).clock) {
      assert Suffixes(ops)[|ops| - 1 - j] == ops[j..];
    }
  }

  /** Single deletion removes the first op that can go. */
  lemma SingleDeletionTakesFirst(o: Oracle, ops: seq<FrontendOp>, clock: nat) returns (i: nat)
    requires Pass(SingleDeletion, o, ops, clock).found.Some?
    ensures var p := Pass(SingleDeletion, o, ops, clock);
      && i < |ops| && p.found.value == Without(ops, i) && Accepted(o, Without(ops, i), clock, p.clock)
      && forall j :: 0 <= j < i ==> Refused(o, Without(ops, j), clock, p.clock)
  {
    i := FirstHitOrder(o, Deletions(ops), clock);
    assert forall j :: 0 <= j < i ==> Deletions(ops)[j] == Without(ops, j);
  }

  lemma {:induction false} FirstWindowAnswers(o: Oracle, ops: seq<FrontendOp>, length: nat, i: nat, clock: nat)
    requires i <= |ops|
    ensures var p := FirstWindow(o, ops, length, i, clock);
      && clock <= p.clock <= clock + |ops| - i
      && (p.found.None? ==> forall j: nat :: i <= j && j + length <= |ops| ==>
            Refused(o, Slice(ops, j, length), clock, p.clock))
      && (p.found.Some? ==> Accepted(o, p.found.value, clock, p.clock))
    decreases |ops| - i
  {
    if i + length <= |ops| && i < |ops| {
      var c := Slice(ops, i, length);
      if !Accepts(o, clock, c) {
        FirstWindowAnswers(o, ops, length, i + 1, Tick(c, clock));
        var p := FirstWindow(o, ops, length, i, clock);
        forall j: nat | p.found.None? && i <= j && j + length <= |ops|
          ensures Refused(o, Slice(ops, j, length), clock, p.clock)
        {
          assert j == i || i + 1 <= j;
        }
      }
    }
  }

  lemma {:induction false} GreedyAnswers(o: Oracle, f: Rewriter, s: Progress, i: nat)
    requires i <= |s.ops|
    ensures var r := Greedy(o, f, s, i);
      && s.clock <= r.clock <= s.clock + |s.ops| - i
      && |r.ops| == |s.ops|
      && (s.progress ==> r.progress)
      && (!r.progress ==> r.ops == s.ops)
      && (!r.progress ==> forall j :: i <= j < |s.ops| && f(s.ops[j]).Some? ==>
            Refused(o, s.ops[j := f(s.ops[j]).value], s.clock, r.clock))
      && (r.progress ==> (s.progress && r.ops == s.ops) || Accepted(o, r.ops, s.clock, r.clock))
    decreases |s.ops| - i
  {
    if i < |s.ops| {
      match f(s.ops[i])
      case None => GreedyAnswers(o, f, s, i + 1);
      case Some(simplified) =>
        var candidate := s.ops[i := simplified];
        if Accepts(o, s.clock, candidate) {
          GreedyAnswers(o, f, Progress(candidate, true, Tick(candidate, s.clock)), i + 1);
        } else {
          GreedyAnswers(o, f, s.(clock := Tick(candidate, s.clock)), i + 1);
        }
    }
  }

  /** The sequence with its first `j` ops rewritten as decided, the next one about to be, the rest as it was. */
  function Attempt(done: seq<FrontendOp>, ops: seq<FrontendOp>, j: nat, op: FrontendOp): seq<FrontendOp>
    requires j < |ops| && |done| == |ops|
  {
    done[..j] + [op] + ops[j + 1..]
  }

  lemma {:induction false} GreedyKeeps(o: Oracle, f: Rewriter, s: Progress, i: nat, j: nat)
    requires j <= i && j <= |s.ops|
    ensures var r := Greedy(o, f, s, i).ops; |r| == |s.ops| && r[..j] == s.ops[..j]
    decreases |s.ops| - i
  {
    if i < |s.ops| {
      match f(s.ops[i])
      case None => GreedyKeeps(o, f, s, i + 1, j);
      case Some(simplified) =>
        var candidate := s.ops[i := simplified];
        assert candidate[..j] == s.ops[..j];
        if Accepts(o, s.clock, candidate) {
          GreedyKeeps(o, f, Progress(candidate, true, Tick(candidate, s.clock)), i + 1, j);
        } else {
          GreedyKeeps(o, f, s.(clock := Tick(candidate, s.clock)), i + 1, j);
        }
    }
  }

  /** What became of position `j`: it was rewritten if that could be done and was accepted, else left. */
  ghost predicate Decided(o: Oracle, f: Rewriter, s: Progress, r: Progress, j: nat)
    requires j < |s.ops| && |r.ops| == |s.ops|
  {
    match f(s.ops[j])
    case None => r.ops[j] == s.ops[j]
    case Some(op) =>
      var c := Attempt(r.ops, s.ops, j, op);
      || (r.ops[j] == op && Accepted(o, c, s.clock, r.clock))
      || (r.ops[j] == s.ops[j] && Refused(o, c, s.clock, r.clock))
  }

  lemma DecidedAt(o: Oracle, f: Rewriter, s: Progress, s': Progress, r: Progress, i: nat, op: FrontendOp)
    requires i < |s.ops| && f(s.ops[i]) == Some(op) && |s'.ops| == |r.ops| == |s.ops|
    requires var candidate := s.ops[i := op];
      s' == if Accepts(o, s.clock, candidate) then Progress(candidate, true, Tick(candidate, s.clock))
            else s.(clock := Tick(candidate, s.clock))
    requires r.ops[..i + 1] == s'.ops[..i + 1] && s'.clock <= r.clock
    ensures Decided(o, f, s, r, i)
  {
    var candidate := s.ops[i := op];
    assert r.ops[..i] == r.ops[..i + 1][..i] == s'.ops[..i] == s.ops[..i];
    assert r.ops[i] == r.ops[..i + 1][i] == s'.ops[i];
    assert Attempt(r.ops, s.ops, i, op) == candidate;
  }

  lemma DecidedLater(o: Oracle, f: Rewriter, s: Progress, s': Progress, r: Progress, i: nat, j: nat)
    requires i < j < |s.ops| && |s'.ops| == |r.ops| == |s.ops| && Decided(o, f, s', r, j)
    requires s'.ops[i + 1..] == s.ops[i + 1..] && s.clock <= s'.clock
    ensures Decided(o, f, s, r, j)
  {
    assert s.ops[j] == s.ops[i + 1..][j - i - 1] == s'.ops[j];
    assert s.ops[j + 1..] == s.ops[i + 1..][j - i..] == s'.ops[j + 1..];
  }

  /**
   Rewriting goes from left to right and keeps exactly what is accepted: each op was tried
   with the ops before it as already decided and the ops after it as they were.
   */
  lemma {:induction false} GreedyDecides(o: Oracle, f: Rewriter, s: Progress, i: nat, j: nat)
    requires i <= j < |s.ops|
    ensures |Greedy(o, f, s, i).ops| == |s.ops| && Decided(o, f, s, Greedy(o, f, s, i), j)
    decreases |s.ops| - i
  {
    var s' := GreedyStep(o, f, s, i);
    GreedyKeeps(o, f, s', i + 1, i + 1);
    GreedyAnswers(o, f, s', i + 1);
    var r := Greedy(o, f, s, i);
    if i < j {
      GreedyDecides(o, f, s', i + 1, j);
      DecidedLater(o, f, s, s', r, i, j);
    } else if f(s.ops[i]).Some? {
      DecidedAt(o, f, s, s', r, i, f(s.ops[i]).value);
    } else {
      assert r.ops[..i + 1][i] == s.ops[..i + 1][i];
    }
  }

  lemma GreedyStep(o: Oracle, f: Rewriter, s: Progress, i: nat) returns (s': Progress)
    requires i < |s.ops|
    ensures Greedy(o, f, s, i) == Greedy(o, f, s', i + 1)
    ensures |s'.ops| == |s.ops| && s.clock <= s'.clock && s'.ops[i + 1..] == s.ops[i + 1..]
    ensures f(s.ops[i]).None? ==> s' == s
    ensures f(s.ops[i]).Some? ==>
      var candidate := s.ops[i := f(s.ops[i]).value];
      s' == if Accepts(o, s.clock, candidate) then Progress(candidate, true, Tick(candidate, s.clock))
            else s.(clock := Tick(candidate, s.clock))
  {
    match f(s.ops[i])
    case None => s' := s;
    case Some(op) =>
      var candidate := s.ops[i := op];
      s' := if Accepts(o, s.clock, candidate) then Progress(candidate, true, Tick(candidate, s.clock))
            else s.(clock := Tick(candidate, s.clock));
  }

  lemma TrimsInOrder(o: Oracle, s0: Progress) returns (s1: Progress, s2: Progress, s3: Progress)
    ensures s1 == Take(s0, FirstHit(o, Prefixes(s0.ops), s0.clock))
    ensures s2 == Take(s1, FirstHit(o, Suffixes(s1.ops), s1.clock))
    ensures s3 == Take(s2, FirstHit(o, Deletions(s2.ops), s2.clock)) == Passes(o, s0, 3)
  {
    s1 := Take(s0, FirstHit(o, Prefixes(s0.ops), s0.clock));
    PassStep(o, s0, 0, s0);
    s2 := Take(s1, FirstHit(o, Suffixes(s1.ops), s1.clock));
    PassStep(o, s0, 1, s1);
    s3 := Take(s2, FirstHit(o, Deletions(s2.ops), s2.clock));
    PassStep(o, s0, 2, s2);
  }

  lemma RestInOrder(o: Oracle, s0: Progress, s3: Progress) returns (s4: Progress, s5: Progress, s6: Progress)
    requires s3 == Passes(o, s0, 3)
    ensures s4 == Take(s3, SearchWindows(o, s3.ops, s3.clock))
    ensures s5 == Take(s4, Rewrite(o, SimplifyNames, s4.ops, s4.clock))
    ensures s6 == Take(s5, Rewrite(o, SimplifySql, s5.ops, s5.clock)) == Passes(o, s0, 6)
  {
    s4 := Take(s3, SearchWindows(o, s3.ops, s3.clock));
    PassStep(o, s0, 3, s3);
    s5 := Take(s4, Rewrite(o, SimplifyNames, s4.ops, s4.clock));
    PassStep(o, s0, 4, s4);
    s6 := Take(s5, Rewrite(o, SimplifySql, s5.ops, s5.clock));
    PassStep(o, s0, 5, s5);
  }

  /** The passes of a round: first the three that take ops away one way, then windows, then names, then SQL. */
  lemma RoundInOrder(o: Oracle, ops: seq<FrontendOp>, clock: nat)
    returns (s1: Progress, s2: Progress, s3: Progress, s4: Progress, s5: Progress)
    ensures s1 == Take(Progress(ops, false, clock), FirstHit(o, Prefixes(ops), clock))
    ensures s2 == Take(s1, FirstHit(o, Suffixes(s1.ops), s1.clock))
    ensures s3 == Take(s2, FirstHit(o, Deletions(s2.ops), s2.clock))
    ensures s4 == Take(s3, SearchWindows(o, s3.ops, s3.clock))
    ensures s5 == Take(s4, Rewrite(o, SimplifyNames, s4.ops, s4.clock))
    ensures Round(o, ops, clock) == Take(s5, Rewrite(o, SimplifySql, s5.ops, s5.clock))
  {
    var s0, s6 := Progress(ops, false, clock), Round(o, ops, clock);
    s1, s2, s3 := TrimsInOrder(o, s0);
    s4, s5, s6 := RestInOrder(o, s0, s3);
  }

  lemma {:induction false} SearchAnswers(
    o: Oracle, ops: seq<FrontendOp>, lo: nat, hi: nat, best: Option<seq<FrontendOp>>, clock: nat)
    requires 1 <= lo && hi < |ops|
    ensures var p := Search(o, ops, lo, hi, best, clock);
      && clock <= p.clock
      && (p.found == best || (p.found.Some? && Accepted(o, p.found.value, clock, p.clock)))
      && (best.Some? ==> p.found.Some?)
    decreases hi + 1 - lo
  {
    if lo <= hi {
      var mid := (lo + hi) / 2;
      var p := FirstWindow(o, ops, mid, 0, clock);
      FirstWindowAnswers(o, ops, mid, 0, clock);
      if p.found.None? {
        SearchAnswers(o, ops, mid + 1, hi, best, p.clock);
      } else if mid > 1 {
        SearchAnswers(o, ops, lo, mid - 1, p.found, p.clock);
      }
    }
  }

  /** A pass moves the clock forward, and what it finds was accepted while it ran. */
  lemma PassAnswers(kind: PassKind, o: Oracle, ops: seq<FrontendOp>, clock: nat)
    ensures var p := Pass(kind, o, ops, clock);
      clock <= p.clock && (p.found.Some? ==> Accepted(o, p.found.value, clock, p.clock))
  {
    match kind
    case SuffixTrim => FirstHitAnswers(o, Prefixes(ops), clock);
    case PrefixTrim => FirstHitAnswers(o, Suffixes(ops), clock);
    case SingleDeletion => FirstHitAnswers(o, Deletions(ops), clock);
    case Subsequence =>
      if |ops| > 2 {
        SearchAnswers(o, ops, 1, |ops| - 1, None, clock);
      }
    case NameSimplification => GreedyAnswers(o, SimplifyNames, Progress(ops, false, clock), 0);
    case SqlSimplification => GreedyAnswers(o, SimplifySql, Progress(ops, false, clock), 0);
  }

  lemma {:induction false} PassesAnswer(o: Oracle, s: Progress, k: nat)
    requires k <= PASS_COUNT
    ensures var r := Passes(o, s, k);
      s.clock <= r.clock && (r.ops == s.ops || Accepted(o, r.ops, s.clock, r.clock))
  {
    if k > 0 {
      PassesAnswer(o, s, k - 1);
      var s' := Passes(o, s, k - 1);
      PassAnswers(KindAt(k - 1), o, s'.ops, s'.clock);
    }
  }

  lemma RoundAnswers(o: Oracle, ops: seq<FrontendOp>, clock: nat)
    ensures var r := Round(o, ops, clock);
      clock <= r.clock && (r.ops == ops || Accepted(o, r.ops, clock, r.clock))
  {
    PassesAnswer(o, Progress(ops, false, clock), PASS_COUNT);
  }

  // ---------------------------------------------------------------------------
  // The result reproduces, and nothing next to it does
  // ---------------------------------------------------------------------------

  /** Whatever the oracle does, the result is the input itself or was accepted in some run. */
  lemma {:induction false} ResultWasAccepted(o: Oracle, ops: seq<FrontendOp>, clock: nat)
    ensures var r := Shrunk(o, ops, clock);
      && clock <= r.clock && !r.progress
      && (r.ops == ops || Accepted(o, r.ops, clock, r.clock))
      && (ops != [] ==> r.ops != [])
      && Size(r.ops) <= Size(ops)
    decreases Size(ops)
  {
    var r := Round(o, ops, clock);
    RoundAnswers(o, ops, clock);
    RoundIsSmaller(o, ops, clock);
    if r.progress {
      ResultWasAccepted(o, r.ops, r.clock);
    }
  }

  ghost predicate IsRewriteOf(f: Rewriter, c: seq<FrontendOp>, r: seq<FrontendOp>) {
    exists i :: 0 <= i < |r| && f(r[i]).Some? && c == r[i := f(r[i]).value]
  }

  // ---------------------------------------------------------------------------
  // The lengths of windows tried
  // ---------------------------------------------------------------------------

  /** The lengths a search over `lo..hi` tries when it is steered towards a target length. */
  function Probed(lo: nat, hi: nat, target: nat): seq<nat>
    decreases hi + 1 - lo
  {
    if lo > hi then []
    else
      var mid := (lo + hi) / 2;
      if target < mid then [mid] + Probed(lo, mid - 1, target)
      else if target > mid then [mid] + Probed(mid + 1, hi, target)
      else [mid]
  }

  /** One fruitless probe of a search that finds nothing. */
  lemma MissStep(o: Oracle, ops: seq<FrontendOp>, lo: nat, hi: nat, clock: nat, mid: nat) returns (t: nat)
    requires 1 <= lo <= hi < |ops| && mid == (lo + hi) / 2
    requires Search(o, ops, lo, hi, None, clock).found.None?
    ensures Search(o, ops, lo, hi, None, clock) == Search(o, ops, mid + 1, hi, None, t)
    ensures clock <= t <= Search(o, ops, mid + 1, hi, None, t).clock
    ensures forall i: nat :: i + mid <= |ops| ==> Refused(o, Slice(ops, i, mid), clock, t)
  {
    var p := FirstWindow(o, ops, mid, 0, clock);
    t := p.clock;
    FirstWindowAnswers(o, ops, mid, 0, clock);
    SearchStep(o, ops, lo, hi, None, clock, mid);
    if p.found.Some? {
      SearchAnswers(o, ops, lo, mid - 1, p.found, t);
    }
    SearchAnswers(o, ops, mid + 1, hi, None, t);
  }

  /** For any oracle: finding nothing means every window of every length on the way up was refused. */
  lemma {:induction false} FindsNothing(
    o: Oracle, ops: seq<FrontendOp>, lo: nat, hi: nat, clock: nat, m: nat, i: nat)
    requires 1 <= lo && hi < |ops| && Search(o, ops, lo, hi, None, clock).found.None?
    requires m in Probed(lo, hi, hi + 1) && i + m <= |ops|
    ensures Refused(o, Slice(ops, i, m), clock, Search(o, ops, lo, hi, None, clock).clock)
    decreases hi + 1 - lo
  {
    var mid := (lo + hi) / 2;
    var t := MissStep(o, ops, lo, hi, clock, mid);
    var end := Search(o, ops, mid + 1, hi, None, t).clock;
    if m == mid {
      RefusedLonger(o, Slice(ops, i, m), clock, t, clock, end);
    } else {
      FindsNothing(o, ops, mid + 1, hi, t, m, i);
      RefusedLonger(o, Slice(ops, i, m), t, end, clock, end);
    }
  }

  /** The longest proper length is always on the way up. */
  lemma {:induction false} LongestIsProbed(lo: nat, hi: nat)
    requires lo <= hi
    ensures hi in Probed(lo, hi, hi + 1)
    decreases hi - lo
  {
    var mid := (lo + hi) / 2;
    if mid < hi {
      LongestIsProbed(mid + 1, hi);
    }
  }

  /** A window of a length the search tries when it finds nothing. */
  ghost predicate IsProbedWindow(c: seq<FrontendOp>, r: seq<FrontendOp>) {
    |r| > 2 && |c| in Probed(1, |r| - 1, |r|) && IsWindow(c, r)
  }

  lemma WindowsRefused(o: Oracle, r: seq<FrontendOp>, t: nat, c: seq<FrontendOp>)
    requires SearchWindows(o, r, t).found.None? && IsProbedWindow(c, r)
    ensures Refused(o, c, t, SearchWindows(o, r, t).clock)
  {
    SearchIsOne(o, r, 1, |r| - 1, None, t);
    var i :| 0 <= i <= |r| - |c| && Slice(r, i, |c|) == c;
    FindsNothing(o, r, 1, |r| - 1, t, |c|, i);
  }

  // ---------------------------------------------------------------------------
  // Neighbours
  // ---------------------------------------------------------------------------

  /** The candidates a pass tries before it gives up. */
  ghost predicate Tries(kind: PassKind, c: seq<FrontendOp>, r: seq<FrontendOp>) {
    match kind
    case SuffixTrim => c < r
    case PrefixTrim => exists i :: 0 < i <= |r| && c == r[i..]
    case SingleDeletion => exists i :: 0 <= i < |r| && c == Without(r, i)
    case Subsequence => IsProbedWindow(c, r)
    case NameSimplification => IsRewriteOf(SimplifyNames, c, r)
    case SqlSimplification => IsRewriteOf(SimplifySql, c, r)
  }

  /** One step smaller: a proper prefix or suffix, a probed window, one op gone, or one op simplified. */
  ghost predicate Neighbour(c: seq<FrontendOp>, r: seq<FrontendOp>) {
    exists k :: 0 <= k < PASS_COUNT && Tries(KindAt(k), c, r)
  }

  /** The last round: it starts from the result, and none of its passes gets anywhere. */
  lemma {:induction false} LastRound(o: Oracle, ops: seq<FrontendOp>, clock: nat) returns (start: nat)
    ensures var r := Shrunk(o, ops, clock);
      clock <= start <= r.clock && Round(o, r.ops, start) == r && !r.progress
    decreases Size(ops)
  {
    var r := Round(o, ops, clock);
    RoundAnswers(o, ops, clock);
    RoundIsSmaller(o, ops, clock);
    if r.progress {
      start := LastRound(o, r.ops, r.clock);
    } else {
      start := clock;
    }
  }

  /** When a number of passes get nowhere, the last of them has found nothing. */
  lemma IdlePass(o: Oracle, s: Progress, k: nat) returns (t: nat)
    requires 0 < k <= PASS_COUNT && !s.progress && !Passes(o, s, k).progress
    ensures t == Passes(o, s, k - 1).clock && s.clock <= t <= Passes(o, s, k).clock
    ensures !Passes(o, s, k - 1).progress
    ensures Pass(KindAt(k - 1), o, s.ops, t) == Probe(None, Passes(o, s, k).clock)
  {
    var at := Passes(o, s, k - 1);
    t := at.clock;
    PassStep(o, s, k - 1, at);
    PassesAreSmaller(o, s, k - 1);
    PassesAnswer(o, s, k - 1);
    PassAnswers(KindAt(k - 1), o, at.ops, at.clock);
  }

  lemma {:induction false} IdlePasses(o: Oracle, s: Progress, k: nat, j: nat) returns (t: nat)
    requires j < k <= PASS_COUNT && !s.progress && !Passes(o, s, k).progress
    ensures s.clock <= t && Pass(KindAt(j), o, s.ops, t).found.None?
    ensures Pass(KindAt(j), o, s.ops, t).clock <= Passes(o, s, k).clock
  {
    t := IdlePass(o, s, k);
    if j < k - 1 {
      var at := Passes(o, s, k - 1);
      assert at.clock == t;
      t := IdlePasses(o, s, k - 1, j);
    }
  }

  lemma PassRefuses(kind: PassKind, o: Oracle, r: seq<FrontendOp>, t: nat, c: seq<FrontendOp>)
    requires Pass(kind, o, r, t).found.None? && Tries(kind, c, r) && c != []
    ensures Refused(o, c, t, Pass(kind, o, r, t).clock)
  {
    match kind
    case SuffixTrim =>
      FirstHitAnswers(o, Prefixes(r), t);
      assert Prefixes(r)[|c| - 1] == c;
    case PrefixTrim =>
      FirstHitAnswers(o, Suffixes(r), t);
      var i :| 0 < i <= |r| && c == r[i..];
      assert Suffixes(r)[|r| - 1 - i] == c;
    case SingleDeletion =>
      FirstHitAnswers(o, Deletions(r), t);
      var i :| 0 <= i < |r| && c == Without(r, i);
      assert Deletions(r)[i] == c;
    case Subsequence =>
      WindowsRefused(o, r, t, c);
    case NameSimplification =>
      GreedyAnswers(o, SimplifyNames, Progress(r, false, t), 0);
    case SqlSimplification =>
      GreedyAnswers(o, SimplifySql, Progress(r, false, t), 0);
  }

  /** In a round without progress every neighbour was tried and turned down. */
  lemma IdleRoundRefuses(o: Oracle, r: seq<FrontendOp>, start: nat, c: seq<FrontendOp>)
    requires !Round(o, r, start).progress && Neighbour(c, r)
    ensures Refused(o, c, start, Round(o, r, start).clock)
  {
    if c != [] {
      var k :| 0 <= k < PASS_COUNT && Tries(KindAt(k), c, r);
      var t := IdlePasses(o, Progress(r, false, start), PASS_COUNT, k);
      PassRefuses(KindAt(k), o, r, t, c);
      RefusedLonger(o, c, t, Pass(KindAt(k), o, r, t).clock, start, Round(o, r, start).clock);
    }
  }

  /** For any oracle at all, every neighbour of the result was refused in the last round. */
  lemma LocallyMinimal(o: Oracle, ops: seq<FrontendOp>, clock: nat)
    ensures var r := Shrunk(o, ops, clock);
      forall c :: Neighbour(c, r.ops) ==> Refused(o, c, clock, r.clock)
  {
    var start := LastRound(o, ops, clock);
    var r := Shrunk(o, ops, clock);
    forall c | Neighbour(c, r.ops) ensures Refused(o, c, clock, r.clock) {
      IdleRoundRefuses(o, r.ops, start, c);
      RefusedLonger(o, c, start, r.clock, clock, r.clock);
    }
  }

  /** Nothing next to the sequence reproduces. */
  ghost predicate Stuck(o: Oracle, r: seq<FrontendOp>) {
    forall c :: Neighbour(c, r) && c != [] ==> !o(0, c)
  }

  /**
   With a steady oracle and a reproducing input, the result reproduces, none of its
   neighbours does, and shrinking it again changes nothing.
   */
  lemma FixedPointMinimality(o: Oracle, ops: seq<FrontendOp>, clock: nat)
    requires Steady(o) && ops != [] && o(0, ops)
    ensures var r := Shrunk(o, ops, clock).ops;
      && r != [] && o(0, r) && Stuck(o, r)
      && (forall t :: Shrunk(o, r, t).ops == r)
  {
    ResultWasAccepted(o, ops, clock);
    LocallyMinimal(o, ops, clock);
    var r := Shrunk(o, ops, clock).ops;
    assert o(0, r);
    forall t: nat ensures Shrunk(o, r, t).ops == r {
      FixedIff(o, r, t);
    }
  }

  /** With a steady oracle shrinking leaves a sequence alone exactly if nothing next to it reproduces. */
  lemma FixedIff(o: Oracle, r: seq<FrontendOp>, t: nat)
    requires Steady(o)
    ensures Shrunk(o, r, t).ops == r <==> Stuck(o, r)
  {
    if Stuck(o, r) {
      StuckPasses(o, Progress(r, false, t), PASS_COUNT);
    } else {
      LocallyMinimal(o, r, t);
    }
  }

  lemma {:induction false} StuckPasses(o: Oracle, s: Progress, k: nat)
    requires Steady(o) && Stuck(o, s.ops) && k <= PASS_COUNT
    ensures Passes(o, s, k).ops == s.ops && Passes(o, s, k).progress == s.progress
  {
    if k > 0 {
      StuckPasses(o, s, k - 1);
      StuckPass(o, s.ops, k - 1, Passes(o, s, k - 1).clock);
    }
  }

  /** A pass over a sequence that is stuck finds nothing. */
  lemma StuckPass(o: Oracle, r: seq<FrontendOp>, k: nat, t: nat)
    requires Steady(o) && Stuck(o, r) && k < PASS_COUNT
    ensures Pass(KindAt(k), o, r, t).found.None?
  {
    var p := Pass(KindAt(k), o, r, t);
    match KindAt(k)
    case SuffixTrim => FoundIsNeighbour(o, r, k, Prefixes(r), t);
    case PrefixTrim => FoundIsNeighbour(o, r, k, Suffixes(r), t);
    case SingleDeletion => FoundIsNeighbour(o, r, k, Deletions(r), t);
    case Subsequence =>
      if |r| > 2 {
        var lengths := Probed(1, |r| - 1, |r|);
        StuckSearch(o, r, 1, t, lengths, [], Search(o, r, 1, |r| - 1, None, t));
      }
    case NameSimplification => StuckGreedy(o, SimplifyNames, k, Progress(r, false, t), 0);
    case SqlSimplification => StuckGreedy(o, SimplifySql, k, Progress(r, false, t), 0);
  }

  lemma FoundIsNeighbour(o: Oracle, r: seq<FrontendOp>, k: nat, cs: seq<seq<FrontendOp>>, t: nat)
    requires Steady(o) && Stuck(o, r)
    requires (k == 0 && cs == Prefixes(r)) || (k == 1 && cs == Suffixes(r)) || (k == 2 && cs == Deletions(r))
    ensures FirstHit(o, cs, t).found.None?
  {
    FirstHitAnswers(o, cs, t);
    forall i | 0 <= i < |cs| ensures Tries(KindAt(k), cs[i], r) {
      if k == 1 {
        assert cs[i] == r[|r| - 1 - i..];
      }
    }
  }

  lemma StuckProbe(o: Oracle, r: seq<FrontendOp>, m: nat, t: nat)
    requires Steady(o) && Stuck(o, r) && |r| > 2 && m in Probed(1, |r| - 1, |r|)
    ensures FirstWindow(o, r, m, 0, t).found.None?
  {
    var p := FirstWindow(o, r, m, 0, t);
    FirstWindowAnswers(o, r, m, 0, t);
    FirstWindowIsOne(o, r, m, 0, t);
    assert p.found.Some? ==> Tries(KindAt(3), p.found.value, r);
  }

  lemma ProbedStep(lo: nat, hi: nat, all: seq<nat>, before: seq<nat>, mid: nat)
    requires lo <= hi && mid == (lo + hi) / 2 && all == before + Probed(lo, hi, hi + 1)
    ensures mid in all && all == before + [mid] + Probed(mid + 1, hi, hi + 1)
  {
    assert Probed(lo, hi, hi + 1) == [mid] + Probed(mid + 1, hi, hi + 1);
    assert all[|before|] == mid;
  }

  lemma {:induction false} StuckSearch(
    o: Oracle, r: seq<FrontendOp>, lo: nat, t: nat, lengths: seq<nat>, before: seq<nat>, all: Probe)
    requires Steady(o) && Stuck(o, r) && |r| > 2 && 1 <= lo
    requires lengths == Probed(1, |r| - 1, |r|) == before + Probed(lo, |r| - 1, |r|)
    requires all == Search(o, r, lo, |r| - 1, None, t)
    ensures all.found.None?
    decreases |r| - lo
  {
    var hi := |r| - 1;
    if lo <= hi {
      var mid := (lo + hi) / 2;
      ProbedStep(lo, hi, lengths, before, mid);
      StuckProbe(o, r, mid, t);
      SearchStep(o, r, lo, hi, None, t, mid);
      StuckSearch(o, r, mid + 1, FirstWindow(o, r, mid, 0, t).clock, lengths, before + [mid], all);
    }
  }

  lemma {:induction false} StuckGreedy(o: Oracle, f: Rewriter, k: nat, s: Progress, i: nat)
    requires Steady(o) && Stuck(o, s.ops)
    requires (k == 4 && f == SimplifyNames) || (k == 5 && f == SimplifySql)
    ensures Greedy(o, f, s, i).progress == s.progress
    decreases |s.ops| - i
  {
    if i < |s.ops| {
      match f(s.ops[i])
      case None => StuckGreedy(o, f, k, s, i + 1);
      case Some(simplified) =>
        var candidate := s.ops[i := simplified];
        assert Tries(KindAt(k), candidate, s.ops);
        assert o(s.clock, candidate) == o(0, candidate);
        StuckGreedy(o, f, k, s.(clock := Tick(candidate, s.clock)), i + 1);
    }
  }

  lemma {:induction false} FirstHitIgnoresClock(o: Oracle, cs: seq<seq<FrontendOp>>, t: nat, u: nat)
    requires Steady(o)
    ensures FirstHit(o, cs, t).found == FirstHit(o, cs, u).found
  {
    if cs != [] {
      assert o(t, cs[0]) == o(u, cs[0]);
      FirstHitIgnoresClock(o, cs[1..], Tick(cs[0], t), Tick(cs[0], u));
    }
  }

  lemma {:induction false} FirstWindowIgnoresClock(o: Oracle, ops: seq<FrontendOp>, length: nat, i: nat, t: nat, u: nat)
    requires Steady(o)
    ensures FirstWindow(o, ops, length, i, t).found == FirstWindow(o, ops, length, i, u).found
    decreases |ops| - i
  {
    if i + length <= |ops| && i < |ops| {
      var c := Slice(ops, i, length);
      assert o(t, c) == o(0, c) == o(u, c);
      FirstWindowIgnoresClock(o, ops, length, i + 1, Tick(c, t), Tick(c, u));
    }
  }

  lemma {:induction false} SearchIgnoresClock(
    o: Oracle, ops: seq<FrontendOp>, lo: nat, hi: nat, best: Option<seq<FrontendOp>>, t: nat, u: nat)
    requires Steady(o) && 1 <= lo && hi < |ops|
    ensures Search(o, ops, lo, hi, best, t).found == Search(o, ops, lo, hi, best, u).found
    decreases hi + 1 - lo
  {
    if lo <= hi {
      var mid := (lo + hi) / 2;
      FirstWindowIgnoresClock(o, ops, mid, 0, t, u);
      var p, q := FirstWindow(o, ops, mid, 0, t), FirstWindow(o, ops, mid, 0, u);
      if p.found.None? {
        SearchIgnoresClock(o, ops, mid + 1, hi, best, p.clock, q.clock);
      } else if mid > 1 {
        SearchIgnoresClock(o, ops, lo, mid - 1, p.found, p.clock, q.clock);
      }
    }
  }

  lemma {:induction false} GreedyIgnoresClock(o: Oracle, f: Rewriter, s: Progress, i: nat, u: nat)
    requires Steady(o)
    ensures var r, q := Greedy(o, f, s, i), Greedy(o, f, s.(clock := u), i);
      r.ops == q.ops && r.progress == q.progress
    decreases |s.ops| - i
  {
    if i < |s.ops| {
      match f(s.ops[i])
      case None => GreedyIgnoresClock(o, f, s, i + 1, u);
      case Some(simplified) =>
        var candidate := s.ops[i := simplified];
        assert o(s.clock, candidate) == o(u, candidate);
        if Accepts(o, s.clock, candidate) {
          GreedyIgnoresClock(o, f, Progress(candidate, true, Tick(candidate, s.clock)), i + 1, Tick(candidate, u));
        } else {
          GreedyIgnoresClock(o, f, s.(clock := Tick(candidate, s.clock)), i + 1, Tick(candidate, u));
        }
    }
  }

  lemma PassIgnoresClock(kind: PassKind, o: Oracle, ops: seq<FrontendOp>, t: nat, u: nat)
    requires Steady(o)
    ensures Pass(kind, o, ops, t).found == Pass(kind, o, ops, u).found
  {
    match kind
    case SuffixTrim => FirstHitIgnoresClock(o, Prefixes(ops), t, u);
    case PrefixTrim => FirstHitIgnoresClock(o, Suffixes(ops), t, u);
    case SingleDeletion => FirstHitIgnoresClock(o, Deletions(ops), t, u);
    case Subsequence =>
      if |ops| > 2 {
        SearchIgnoresClock(o, ops, 1, |ops| - 1, None, t, u);
      }
    case NameSimplification => GreedyIgnoresClock(o, SimplifyNames, Progress(ops, false, t), 0, u);
    case SqlSimplification => GreedyIgnoresClock(o, SimplifySql, Progress(ops, false, t), 0, u);
  }

  ghost predicate SameButForClock(r: Progress, q: Progress) {
    r.ops == q.ops && r.progress == q.progress
  }

  lemma StepIgnoresClock(o: Oracle, s: Progress, s': Progress, k: nat, q: Progress, q': Progress)
    requires Steady(o) && k < PASS_COUNT && q == Passes(o, s, k) && q' == Passes(o, s', k)
    requires SameButForClock(q, q')
    ensures SameButForClock(Passes(o, s, k + 1), Passes(o, s', k + 1))
  {
    PassStep(o, s, k, q);
    PassStep(o, s', k, q');
    PassIgnoresClock(KindAt(k), o, q.ops, q.clock, q'.clock);
  }

  lemma {:induction false} PassesIgnoreClock(o: Oracle, s: Progress, s': Progress, k: nat)
    requires Steady(o) && k <= PASS_COUNT && SameButForClock(s, s')
    ensures SameButForClock(Passes(o, s, k), Passes(o, s', k))
  {
    if k > 0 {
      var j: nat := k - 1;
      PassesIgnoreClock(o, s, s', j);
      StepIgnoresClock(o, s, s', j, Passes(o, s, j), Passes(o, s', j));
    }
  }

  lemma RoundIgnoresClock(o: Oracle, ops: seq<FrontendOp>, t: nat, u: nat)
    requires Steady(o)
    ensures var r, q := Round(o, ops, t), Round(o, ops, u);
      r.ops == q.ops && r.progress == q.progress
  {
    PassesIgnoreClock(o, Progress(ops, false, t), Progress(ops, false, u), PASS_COUNT);
  }
}

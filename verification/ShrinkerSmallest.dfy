/** When the result of shrinking is the smallest reproducing case, exactly. */
module ShrinkerSmallest {
  import opened Wrappers
  import opened Ops
  import opened Shrinker
  import opened ShrinkerTheorems
  import opened ShrinkerEmbedding

  ghost predicate Reproducing(o: Oracle, c: seq<FrontendOp>) {
    c != [] && o(0, c)
  }

  // ---------------------------------------------------------------------------
  // Smallest inside the result
  // ---------------------------------------------------------------------------

  /** Nothing else that reproduces can be derived from it. */
  ghost predicate MinimalInside(o: Oracle, r: seq<FrontendOp>) {
    forall a :: Reproducing(o, a) && Derived(a, r) ==> a == r
  }

  /** Whatever can be reduced and still reproduce can be reduced by one step and still reproduce. */
  ghost predicate StepsSuffice(o: Oracle) {
    forall r :: Reproducing(o, r) && Stuck(o, r) ==> MinimalInside(o, r)
  }

  ghost predicate AlwaysMinimalInside(o: Oracle) {
    forall ops, clock :: Reproducing(o, ops) ==> MinimalInside(o, Shrunk(o, ops, clock).ops)
  }

  /**
   For a steady oracle no result has a smaller reproducing case inside it exactly if
   every reproducing sequence with one inside it has one next to it.
   */
  lemma MinimalInsideIff(o: Oracle)
    requires Steady(o)
    ensures AlwaysMinimalInside(o) <==> StepsSuffice(o)
  {
    if StepsSuffice(o) {
      forall ops, clock | Reproducing(o, ops) ensures MinimalInside(o, Shrunk(o, ops, clock).ops) {
        FixedPointMinimality(o, ops, clock);
      }
    }
    if AlwaysMinimalInside(o) {
      forall r | Reproducing(o, r) && Stuck(o, r) ensures MinimalInside(o, r) {
        FixedIff(o, r, 0);
        assert MinimalInside(o, Shrunk(o, r, 0).ops);
      }
    }
  }

  // ---------------------------------------------------------------------------
  // Smallest inside the input
  // ---------------------------------------------------------------------------

  /** No reproducing case that can be derived from the input is shorter. */
  ghost predicate ShortestFrom(o: Oracle, ops: seq<FrontendOp>, r: seq<FrontendOp>) {
    forall a :: Reproducing(o, a) && Derived(a, ops) ==> |r| <= |a|
  }

  /** The promise: the result is always a shortest reproducing case. */
  ghost predicate AlwaysShortest(o: Oracle) {
    forall ops, clock :: Reproducing(o, ops) ==> ShortestFrom(o, ops, Shrunk(o, ops, clock).ops)
  }

  /** The reproducing sequences nothing can be taken from by one step are all of one length. */
  ghost predicate StuckAtOneLength(o: Oracle) {
    forall a, b :: Reproducing(o, a) && Reproducing(o, b) && Stuck(o, a) && Stuck(o, b) ==> |a| == |b|
  }

  /** Appending ops keeps a sequence reproducing. */
  ghost predicate Extensible(o: Oracle) {
    forall a, b :: Reproducing(o, a) ==> Reproducing(o, a + b)
  }

  /** Any sequence that reproduces leads to one that is stuck and no longer. */
  lemma ShrinksToStuck(o: Oracle, a: seq<FrontendOp>) returns (s: seq<FrontendOp>)
    requires Steady(o) && Reproducing(o, a)
    ensures Reproducing(o, s) && Stuck(o, s) && Derived(s, a) && |s| <= |a|
  {
    s := Shrunk(o, a, 0).ops;
    FixedPointMinimality(o, a, 0);
    ResultDerived(o, a, 0);
    var m :| DerivedVia(s, a, m);
    IndexMapFits(m, |a|);
  }

  /** Suffix trimming stops at a stuck prefix. */
  lemma TrimStopsAtStuck(o: Oracle, k: seq<FrontendOp>, t: seq<FrontendOp>, clock: nat)
    requires Steady(o) && Reproducing(o, k) && Stuck(o, k) && t != []
    ensures Pass(SuffixTrim, o, k + t, clock).found == Some(k)
  {
    var cs := Prefixes(k + t);
    var p := FirstHit(o, cs, clock);
    assert cs[|k| - 1] == k;
    FirstHitAnswers(o, cs, clock);
    assert k in cs && !Refused(o, k, clock, p.clock);
    var i := FirstHitOrder(o, cs, clock);
    assert i < |k| - 1 ==> Tries(KindAt(0), cs[i], k);
    assert i <= |k| - 1;
  }

  /** Whatever follows a stuck sequence, shrinking gets no further than that sequence. */
  lemma StuckPrefixWins(o: Oracle, k: seq<FrontendOp>, t: seq<FrontendOp>, clock: nat)
    requires Steady(o) && Reproducing(o, k) && Stuck(o, k)
    ensures Shrunk(o, k + t, clock).ops == k
  {
    if t == [] {
      assert k + t == k;
      FixedIff(o, k, clock);
    } else {
      TrimStopsAtStuck(o, k, t, clock);
      var s := Passes(o, Progress(k + t, false, clock), 1);
      assert s == Take(Passes(o, Progress(k + t, false, clock), 0), Pass(SuffixTrim, o, k + t, clock));
      RestOfRoundKeeps(o, Progress(k + t, false, clock), k, PASS_COUNT);
      var r := Round(o, k + t, clock);
      FixedIff(o, k, r.clock);
    }
  }

  lemma {:induction false} RestOfRoundKeeps(o: Oracle, s: Progress, k: seq<FrontendOp>, n: nat)
    requires Steady(o) && Stuck(o, k) && 1 <= n <= PASS_COUNT
    requires Passes(o, s, 1).ops == k && Passes(o, s, 1).progress
    ensures Passes(o, s, n).ops == k && Passes(o, s, n).progress
  {
    if n > 1 {
      RestOfRoundKeeps(o, s, k, n - 1);
      StuckPass(o, k, n - 1, Passes(o, s, n - 1).clock);
    }
  }

  /**
   For a steady oracle that appending ops does not turn off, the result is always a
   shortest reproducing case exactly if all reproducing sequences that cannot be reduced
   by one step have the same length.
   */
  lemma AlwaysShortestIff(o: Oracle)
    requires Steady(o) && Extensible(o)
    ensures AlwaysShortest(o) <==> StuckAtOneLength(o)
  {
    if StuckAtOneLength(o) {
      OneLengthIsShortest(o);
    }
    if AlwaysShortest(o) {
      forall k, m | Reproducing(o, k) && Reproducing(o, m) && Stuck(o, k) && Stuck(o, m) ensures |k| <= |m| {
        StuckIsShortest(o, k, m);
      }
    }
  }

  lemma ShortestIsNoLonger(o: Oracle, k: seq<FrontendOp>, m: seq<FrontendOp>)
    requires ShortestFrom(o, k + m, k) && Reproducing(o, m)
    ensures |k| <= |m|
  {
    WindowDerived(k + m, |k|, |k + m|);
    assert (k + m)[|k|..|k + m|] == m;
  }

  /** If a stuck sequence is longer than another reproducing one, the two in a row show it. */
  lemma StuckIsShortest(o: Oracle, k: seq<FrontendOp>, m: seq<FrontendOp>)
    requires Steady(o) && Extensible(o) && AlwaysShortest(o)
    requires Reproducing(o, k) && Stuck(o, k) && Reproducing(o, m)
    ensures |k| <= |m|
  {
    StuckPrefixWins(o, k, m, 0);
    PromiseAt(o, k + m, 0);
    ShortestIsNoLonger(o, k, m);
  }

  lemma PromiseAt(o: Oracle, ops: seq<FrontendOp>, clock: nat)
    requires AlwaysShortest(o) && Reproducing(o, ops)
    ensures ShortestFrom(o, ops, Shrunk(o, ops, clock).ops)
  {
  }

  /** One direction needs nothing of the oracle but that it is steady. */
  lemma OneLengthIsShortest(o: Oracle)
    requires Steady(o) && StuckAtOneLength(o)
    ensures AlwaysShortest(o)
  {
    forall ops, clock, a | Reproducing(o, ops) && Reproducing(o, a)
      ensures |Shrunk(o, ops, clock).ops| <= |a|
    {
      FixedPointMinimality(o, ops, clock);
      var s := ShrinksToStuck(o, a);
    }
  }

  // ---------------------------------------------------------------------------
  // Oracles closed under adding ops
  // ---------------------------------------------------------------------------

  /** No op of it can be left out. */
  ghost predicate Irreducible(o: Oracle, r: seq<FrontendOp>) {
    forall i :: 0 <= i < |r| ==> !Reproducing(o, Without(r, i))
  }

  ghost predicate IrreducibleAtOneLength(o: Oracle) {
    forall a, b :: Reproducing(o, a) && Reproducing(o, b) && Irreducible(o, a) && Irreducible(o, b) ==> |a| == |b|
  }

  lemma StuckIsIrreducible(o: Oracle, r: seq<FrontendOp>)
    requires Stuck(o, r)
    ensures Irreducible(o, r)
  {
    forall i | 0 <= i < |r| ensures !Reproducing(o, Without(r, i)) {
      assert Tries(KindAt(2), Without(r, i), r);
    }
  }

  lemma UpwardClosedIsExtensible(o: Oracle)
    requires UpwardClosed(o)
    ensures Extensible(o)
  {
    forall a, b | Reproducing(o, a) ensures Reproducing(o, a + b) {
      WindowDerived(a + b, 0, |a|);
      assert (a + b)[0..|a|] == a;
    }
  }

  /** Nothing shorter than an irreducible sequence can be derived from it and reproduce. */
  lemma IrreducibleStays(o: Oracle, r: seq<FrontendOp>, a: seq<FrontendOp>)
    requires UpwardClosed(o) && Irreducible(o, r) && Reproducing(o, a) && Derived(a, r)
    ensures |a| >= |r|
  {
    if |a| < |r| {
      var j := DerivedFromDeletion(a, r);
    }
  }

  /**
   If adding ops and undoing simplifications never turns the oracle off, leaving out
   single ops is all that has to be looked at: the result is always a shortest
   reproducing case exactly if the irreducible reproducing sequences have one length.
   */
  lemma AlwaysShortestIffIrreducible(o: Oracle)
    requires Steady(o) && UpwardClosed(o)
    ensures AlwaysShortest(o) <==> IrreducibleAtOneLength(o)
  {
    UpwardClosedIsExtensible(o);
    AlwaysShortestIff(o);
    if IrreducibleAtOneLength(o) {
      forall a, b | Reproducing(o, a) && Reproducing(o, b) && Stuck(o, a) && Stuck(o, b) ensures |a| == |b| {
        StuckIsIrreducible(o, a);
        StuckIsIrreducible(o, b);
      }
    }
    if StuckAtOneLength(o) {
      forall a, b | Reproducing(o, a) && Reproducing(o, b) && Irreducible(o, a) && Irreducible(o, b)
        ensures |a| == |b|
      {
        var s := ShrinksToStuck(o, a);
        var t := ShrinksToStuck(o, b);
        IrreducibleStays(o, a, s);
        IrreducibleStays(o, b, t);
      }
    }
  }
}

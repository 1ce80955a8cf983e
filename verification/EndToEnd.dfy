/**
 One iteration of the fuzzer, from running a sequence to reporting a shrunk divergence
 (the spawned body in src/main.rs), and what holds of its report because of how the
 runner, the comparator and the shrinker fit together.
 */
module EndToEnd {
  import opened Wrappers
  import opened Protocol
  import opened Ops
  import opened Runner
  import opened Comparator
  import opened Shrinker
  import opened ShrinkerTheorems
  import opened ShrinkerEmbedding
  import opened ShrinkerSmallest
  import opened ShrinkerBounds
  import opened RunnerTheorems

  datatype Report =
    | Matched
    | ConnectionError(error: string)
    | ShrunkDivergence(original: Divergence, shrunk: Divergence)
    | UnshrunkDivergence(original: Divergence)

  function Difference(r: Result<Streams, string>, ops: seq<FrontendOp>): Option<Divergence> {
    match r
    case Failure(_) => None
    case Success((pg, target)) => Compared(NormalizedStream(pg), NormalizedStream(target), ops)
  }

  /** A report, and the number of runs there have been when it is made. */
  datatype Conclusion = Conclusion(report: Report, runs: nat)

  /** What an iteration comes to when it starts at the given run number. */
  function Concluded(runner: DualRunner, ops: seq<FrontendOp>, clock: nat): Conclusion {
    var r := runner.Outcome(clock, ops);
    ConcludedFrom(runner, ops, r, Difference(r, ops), clock + 1)
  }

  /** The conclusion from a first run and its difference; shrinking starts at the given run number. */
  function ConcludedFrom(
    runner: DualRunner, ops: seq<FrontendOp>, r: Result<Streams, string>, div: Option<Divergence>, clock: nat)
    : Conclusion
  {
    if r.Failure? then Conclusion(ConnectionError(r.error), clock)
    else if div.None? then Conclusion(Matched, clock)
    else ConcludedDivergence(runner, ops, div.value, clock)
  }

  /** Shrinking a divergence and confirming the result. */
  function ConcludedDivergence(runner: DualRunner, ops: seq<FrontendOp>, div: Divergence, clock: nat): Conclusion {
    var s := Shrunk(OracleOf(runner, Classify(div)), ops, clock);
    Conclusion(Confirmed(runner, div, s.ops, s.clock), s.clock + 1)
  }

  /** The report of a divergence after running its shrunk sequence once more. */
  function Confirmed(runner: DualRunner, original: Divergence, shrunkOps: seq<FrontendOp>, clock: nat): Report {
    match Difference(runner.Outcome(clock, shrunkOps), shrunkOps)
    case None => UnshrunkDivergence(original)
    case Some(shrunk) => ShrunkDivergence(original, shrunk)
  }

  function Reported(runner: DualRunner, ops: seq<FrontendOp>, clock: nat): Report {
    Concluded(runner, ops, clock).report
  }

  method RunAndCompare(ops: seq<FrontendOp>, runner: DualRunner)
    returns (r: Result<Streams, string>, div: Option<Divergence>)
    modifies runner`runs
    ensures r == runner.Outcome(old(runner.runs), ops) && div == Difference(r, ops)
    ensures runner.runs == old(runner.runs) + 1
  {
    r := runner.Run(ops);
    div := None;
    if r.Success? {
      div := Compare(r.value.0, r.value.1, ops);
    }
  }

  /** A conclusion in terms of the first run. */
  lemma ConcludedIs(runner: DualRunner, ops: seq<FrontendOp>, clock: nat)
    ensures var r := runner.Outcome(clock, ops);
      Concluded(runner, ops, clock) == ConcludedFrom(runner, ops, r, Difference(r, ops), clock + 1)
  {
  }

  method Investigate(ops: seq<FrontendOp>, runner: DualRunner) returns (report: Report)
    modifies runner`runs
    ensures Conclusion(report, runner.runs) == Concluded(runner, ops, old(runner.runs))
  {
    var r, div := RunAndCompare(ops, runner);
    ConcludedIs(runner, ops, old(runner.runs));
    report := ReportOn(ops, r, div, runner);
  }

  method ReportOn(ops: seq<FrontendOp>, r: Result<Streams, string>, div: Option<Divergence>, runner: DualRunner)
    returns (report: Report)
    modifies runner`runs
    ensures Conclusion(report, runner.runs) == ConcludedFrom(runner, ops, r, div, old(runner.runs))
  {
    if r.Failure? {
      report := ConnectionError(r.error);
    } else if div.None? {
      report := Matched;
    } else {
      report := InvestigateDivergence(ops, div.value, runner);
    }
  }

  /** Shrinks a divergence and confirms the result. */
  method InvestigateDivergence(ops: seq<FrontendOp>, div: Divergence, runner: DualRunner) returns (report: Report)
    modifies runner`runs
    ensures Conclusion(report, runner.runs) == ConcludedDivergence(runner, ops, div, old(runner.runs))
  {
    var shrunkOps := Shrink(ops, div, runner);
    report := Confirm(div, shrunkOps, runner);
  }

  /** Runs the shrunk sequence once more for the report; falls back on the original divergence. */
  method Confirm(original: Divergence, shrunkOps: seq<FrontendOp>, runner: DualRunner) returns (report: Report)
    modifies runner`runs
    ensures report == Confirmed(runner, original, shrunkOps, old(runner.runs)) && runner.runs == old(runner.runs) + 1
  {
    var again, shrunk := RunAndCompare(shrunkOps, runner);
    if shrunk.Some? {
      report := ShrunkDivergence(original, shrunk.value);
    } else {
      report := UnshrunkDivergence(original);
    }
  }

  // ---------------------------------------------------------------------------
  // Any servers
  // ---------------------------------------------------------------------------

  /** In its `n`-th run the sequence diverges in the class. */
  ghost predicate DivergesIn(runner: DualRunner, n: nat, ops: seq<FrontendOp>, cls: DivergenceClass) {
    var d := Difference(runner.Outcome(n, ops), ops);
    d.Some? && Classify(d.value) == cls
  }

  ghost predicate DivergedIn(runner: DualRunner, ops: seq<FrontendOp>, cls: DivergenceClass, from: nat, to: nat) {
    exists n :: from <= n < to && DivergesIn(runner, n, ops, cls)
  }

  ghost predicate DidNotDivergeIn(runner: DualRunner, ops: seq<FrontendOp>, cls: DivergenceClass, from: nat, to: nat) {
    exists n :: from <= n < to && !DivergesIn(runner, n, ops, cls)
  }

  /**
   What shrinking may make of a sequence between two runs: something derived from it, that
   diverged in the class in a run unless it is the sequence itself, and of which nothing
   one step smaller diverged in the class in every run.
   */
  ghost predicate ShrinksTo(
    runner: DualRunner, ops: seq<FrontendOp>, cls: DivergenceClass, r: seq<FrontendOp>, from: nat, to: nat)
  {
    && r != [] && Derived(r, ops)
    && (r == ops || DivergedIn(runner, r, cls, from, to))
    && (forall c :: Neighbour(c, r) && c != [] ==> DidNotDivergeIn(runner, c, cls, from, to))
  }

  lemma DifferenceKeepsOps(r: Result<Streams, string>, ops: seq<FrontendOp>)
    ensures Difference(r, ops).Some? ==> Difference(r, ops).value.ops == ops
  {
  }

  /** What is reported of a divergence: shrunk exactly if the last run, of the shrunk sequence, diverges. */
  ghost predicate ConfirmedBy(
    runner: DualRunner, ops: seq<FrontendOp>, original: Divergence, r: seq<FrontendOp>, clock: nat, c: Conclusion)
  {
    && 0 < c.runs
    && ShrinksTo(runner, ops, Classify(original), r, clock, c.runs - 1)
    && match Difference(runner.Outcome(c.runs - 1, r), r)
       case None => c.report == UnshrunkDivergence(original)
       case Some(shrunk) => c.report == ShrunkDivergence(original, shrunk) && shrunk.ops == r
  }

  /**
   Against any servers, also such that change from run to run, a report says what
   happened. A failed first run is reported as its error, one without a difference as a
   match, any other as the divergence it showed; and this one shrunk if and only if the
   last run of the iteration, of what shrinking made of the sequence, diverges again.
   */
  lemma ReportIsObserved(runner: DualRunner, ops: seq<FrontendOp>, clock: nat) returns (r: seq<FrontendOp>)
    requires ops != []
    ensures var c := Concluded(runner, ops, clock);
      match runner.Outcome(clock, ops)
      case Failure(error) => c == Conclusion(ConnectionError(error), clock + 1)
      case Success((pg, target)) =>
        var d := Compared(NormalizedStream(pg), NormalizedStream(target), ops);
        if NormalizedStream(pg) == NormalizedStream(target) then c == Conclusion(Matched, clock + 1)
        else d.Some? && ConfirmedBy(runner, ops, d.value, r, clock + 1, c)
  {
    var d := Difference(runner.Outcome(clock, ops), ops);
    if d.Some? {
      r := ConfirmedIsObserved(runner, ops, d.value, clock + 1);
      DivergenceIsConcluded(runner, ops, clock, d.value);
    } else {
      r := ops;
      NothingIsConcluded(runner, ops, clock);
    }
  }

  lemma DivergenceIsConcluded(runner: DualRunner, ops: seq<FrontendOp>, clock: nat, d: Divergence)
    requires Difference(runner.Outcome(clock, ops), ops) == Some(d)
    ensures Concluded(runner, ops, clock) == ConcludedDivergence(runner, ops, d, clock + 1)
  {
  }

  lemma NothingIsConcluded(runner: DualRunner, ops: seq<FrontendOp>, clock: nat)
    requires Difference(runner.Outcome(clock, ops), ops).None?
    ensures match runner.Outcome(clock, ops)
      case Failure(error) => Concluded(runner, ops, clock) == Conclusion(ConnectionError(error), clock + 1)
      case Success(_) => Concluded(runner, ops, clock) == Conclusion(Matched, clock + 1)
  {
  }

  lemma ConfirmedIsObserved(runner: DualRunner, ops: seq<FrontendOp>, original: Divergence, clock: nat)
    returns (r: seq<FrontendOp>)
    requires ops != []
    ensures ConfirmedBy(runner, ops, original, r, clock, ConcludedDivergence(runner, ops, original, clock))
  {
    var o := OracleOf(runner, Classify(original));
    var s := Shrunk(o, ops, clock);
    r := s.ops;
    ShrinkingIsObserved(runner, ops, Classify(original), clock, o, s);
    DifferenceKeepsOps(runner.Outcome(s.clock, s.ops), s.ops);
  }

  lemma ShrinkingIsObserved(
    runner: DualRunner, ops: seq<FrontendOp>, cls: DivergenceClass, clock: nat, o: Oracle, s: Progress)
    requires ops != [] && o == OracleOf(runner, cls) && s == Shrunk(o, ops, clock)
    ensures ShrinksTo(runner, ops, cls, s.ops, clock, s.clock)
  {
    ResultWasAccepted(o, ops, clock);
    ResultDerived(o, ops, clock);
    LocallyMinimal(o, ops, clock);
    if s.ops != ops {
      var n :| clock <= n < s.clock && o(n, s.ops);
      DifferenceShowsClass(runner, cls, n, s.ops);
      assert DivergesIn(runner, n, s.ops, cls);
    }
    forall c | Neighbour(c, s.ops) && c != [] ensures DidNotDivergeIn(runner, c, cls, clock, s.clock) {
      var n :| clock <= n < s.clock && !o(n, c);
      DifferenceShowsClass(runner, cls, n, c);
      assert !DivergesIn(runner, n, c, cls);
    }
  }

  /** However the servers answer, an iteration takes a bounded number of runs. */
  lemma RunsAreBounded(runner: DualRunner, ops: seq<FrontendOp>, clock: nat)
    requires ops != []
    ensures clock < Concluded(runner, ops, clock).runs <= clock + 2 + 3 * |ops| * RoundBudget(|ops|)
  {
    var r := runner.Outcome(clock, ops);
    if Difference(r, ops).Some? {
      var o := OracleOf(runner, Classify(Difference(r, ops).value));
      ResultWasAccepted(o, ops, clock + 1);
      ShrinkingIsBounded(o, ops, clock + 1);
    } else {
      RepeatedIsProduct(RoundBudget(|ops|), 3 * |ops|);
    }
  }

  // ---------------------------------------------------------------------------
  // Deterministic servers
  // ---------------------------------------------------------------------------

  /** What a run yields depends on the ops alone. */
  ghost predicate SteadyRunner(runner: DualRunner) {
    forall n, ops :: runner.Outcome(n, ops) == runner.Outcome(0, ops)
  }

  /** So it is if every run meets the same servers. */
  lemma UnchangingServersAreSteady(runner: DualRunner)
    requires forall n :: runner.pgFactory(n) == runner.pgFactory(0)
    requires forall n :: runner.targetFactory(n) == runner.targetFactory(0)
    ensures SteadyRunner(runner)
  {
    forall n, ops ensures runner.Outcome(n, ops) == runner.Outcome(0, ops) {
      assert runner.pgFactory(n) == runner.pgFactory(0) && runner.targetFactory(n) == runner.targetFactory(0);
    }
  }

  lemma SteadyOracle(runner: DualRunner, cls: DivergenceClass)
    requires SteadyRunner(runner)
    ensures Steady(OracleOf(runner, cls))
  {
    forall n: nat, c: seq<FrontendOp> ensures OracleOf(runner, cls)(n, c) == OracleOf(runner, cls)(0, c) {
      assert runner.Outcome(n, c) == runner.Outcome(0, c);
    }
  }

  lemma DifferenceShowsClass(runner: DualRunner, cls: DivergenceClass, n: nat, ops: seq<FrontendOp>)
    ensures var d := Difference(runner.Outcome(n, ops), ops);
      OracleOf(runner, cls)(n, ops) <==> ops != [] && d.Some? && Classify(d.value) == cls
  {
  }

  /**
   With deterministic servers a divergence is always reported shrunk: running the shrunk
   sequence again diverges again, in the same class, and what it reports has the shrunk
   sequence as its ops. It does not matter at which run the iteration starts.
   */
  lemma ShrunkReportReproduces(runner: DualRunner, ops: seq<FrontendOp>, clock: nat)
    requires SteadyRunner(runner) && Difference(runner.Outcome(0, ops), ops).Some?
    ensures var original := Difference(runner.Outcome(0, ops), ops).value;
      var o := OracleOf(runner, Classify(original));
      var shrunkOps := Shrunk(o, ops, 0).ops;
      var report := Reported(runner, ops, clock);
      && report.ShrunkDivergence? && report.original == original
      && Classify(report.shrunk) == Classify(original)
      && report.shrunk.ops == shrunkOps
  {
    var original := Difference(runner.Outcome(0, ops), ops).value;
    var cls := Classify(original);
    var o := OracleOf(runner, cls);
    assert runner.Outcome(clock, ops) == runner.Outcome(0, ops);
    SteadyOracle(runner, cls);
    ShrunkIgnoresClock(o, ops, clock + 1, 0);
    var s := Shrunk(o, ops, clock + 1);
    assert runner.Outcome(s.clock, s.ops) == runner.Outcome(0, s.ops);
    ShrunkKeepsClass(runner, ops, original, clock + 1, s);
  }

  lemma ShrunkKeepsClass(runner: DualRunner, ops: seq<FrontendOp>, original: Divergence, t: nat, s: Progress)
    requires SteadyRunner(runner) && Difference(runner.Outcome(0, ops), ops) == Some(original)
    requires s == Shrunk(OracleOf(runner, Classify(original)), ops, t)
    ensures var d := Difference(runner.Outcome(0, s.ops), s.ops);
      d.Some? && Classify(d.value) == Classify(original) && d.value.ops == s.ops
  {
    var cls := Classify(original);
    var o := OracleOf(runner, cls);
    SteadyOracle(runner, cls);
    ResultWasAccepted(o, ops, t);
    DifferenceKeepsOps(runner.Outcome(0, s.ops), s.ops);
    if s.ops != ops {
      DifferenceShowsClass(runner, cls, 0, s.ops);
    }
  }

  lemma {:induction false} ShrunkIgnoresClock(o: Oracle, ops: seq<FrontendOp>, t: nat, u: nat)
    requires Steady(o)
    ensures Shrunk(o, ops, t).ops == Shrunk(o, ops, u).ops
    decreases Size(ops)
  {
    var r, q := Round(o, ops, t), Round(o, ops, u);
    RoundIgnoresClock(o, ops, t, u);
    RoundIsSmaller(o, ops, t);
    if r.progress {
      ShrunkIgnoresClock(o, r.ops, r.clock, q.clock);
    }
  }

  /** The shrunk sequence of an iteration, for deterministic servers. */
  ghost predicate ShrunkTo(runner: DualRunner, ops: seq<FrontendOp>, original: Divergence, r: seq<FrontendOp>) {
    && ops != []
    && Difference(runner.Outcome(0, ops), ops) == Some(original)
    && r == Shrunk(OracleOf(runner, Classify(original)), ops, 0).ops
  }

  /** Nothing one step smaller than a reported sequence diverges in its class. */
  lemma ReportIsMinimal(
    runner: DualRunner, ops: seq<FrontendOp>, original: Divergence, r: seq<FrontendOp>, c: seq<FrontendOp>)
    requires SteadyRunner(runner) && ShrunkTo(runner, ops, original, r)
    requires Neighbour(c, r) && c != []
    ensures var d, e := Difference(runner.Outcome(0, r), r), Difference(runner.Outcome(0, c), c);
      && r != [] && d.Some? && Classify(d.value) == Classify(original)
      && (e.Some? ==> Classify(e.value) != Classify(original))
  {
    var cls := Classify(original);
    SteadyOracle(runner, cls);
    DifferenceShowsClass(runner, cls, 0, ops);
    FixedPointMinimality(OracleOf(runner, cls), ops, 0);
    DifferenceShowsClass(runner, cls, 0, r);
    DifferenceShowsClass(runner, cls, 0, c);
  }

  /** A proper prefix with the same outcome cannot be left behind by the shrinker. */
  lemma NoEquivalentPrefix(
    runner: DualRunner, ops: seq<FrontendOp>, original: Divergence, r: seq<FrontendOp>, p: seq<FrontendOp>)
    requires SteadyRunner(runner) && ShrunkTo(runner, ops, original, r)
    requires p < r && p != []
    ensures runner.Outcome(0, p) != runner.Outcome(0, r)
  {
    assert Tries(KindAt(0), p, r);
    ReportIsMinimal(runner, ops, original, r, p);
    if runner.Outcome(0, p) == runner.Outcome(0, r) {
      SameClass(runner.Outcome(0, r), r, p);
    }
  }

  lemma SameClass(r: Result<Streams, string>, a: seq<FrontendOp>, b: seq<FrontendOp>)
    ensures var d, e := Difference(r, a), Difference(r, b);
      (d.Some? <==> e.Some?) && (d.Some? ==> Classify(d.value) == Classify(e.value))
  {
  }

  // ---------------------------------------------------------------------------
  // The unflushed tail
  // ---------------------------------------------------------------------------

  lemma OutcomeIgnoresTail(runner: DualRunner, n: nat, p: seq<FrontendOp>, t: seq<FrontendOp>)
    requires HasTrigger(p) && forall op :: op in t ==> !op.TriggersFlush()
    ensures runner.Outcome(n, p + t) == runner.Outcome(n, p)
  {
    forall b: Backend, w: Wire, received: nat
      ensures Replies(b, w, received, p + t) == Replies(b, w, received, p)
    {
      TailIsInvisible(b, w, received, p, t);
    }
  }

  /**
   A shrunk sequence ends in an op that flushes, or contains none: ops after the last
   flush are never sent, so the shrinker would have trimmed them.
   */
  lemma NoUnflushedTail(runner: DualRunner, ops: seq<FrontendOp>, original: Divergence, r: seq<FrontendOp>)
    requires SteadyRunner(runner) && ShrunkTo(runner, ops, original, r) && HasTrigger(r)
    ensures r[|r| - 1].TriggersFlush()
  {
    var p, t := LastTrigger(r);
    OutcomeIgnoresTail(runner, 0, p, t);
    NothingToTrim(runner, ops, original, r, p, t);
  }

  lemma NothingToTrim(
    runner: DualRunner, ops: seq<FrontendOp>, original: Divergence,
    r: seq<FrontendOp>, p: seq<FrontendOp>, t: seq<FrontendOp>)
    requires SteadyRunner(runner) && ShrunkTo(runner, ops, original, r)
    requires r == p + t && p != [] && runner.Outcome(0, r) == runner.Outcome(0, p)
    ensures r[|r| - 1] == p[|p| - 1]
  {
    if t != [] {
      NoEquivalentPrefix(runner, ops, original, r, p);
    }
  }

  lemma {:induction false} LastTrigger(ops: seq<FrontendOp>) returns (p: seq<FrontendOp>, t: seq<FrontendOp>)
    requires HasTrigger(ops)
    ensures ops == p + t && p != [] && p[|p| - 1].TriggersFlush() && HasTrigger(p)
    ensures forall op :: op in t ==> !op.TriggersFlush()
  {
    var last := ops[|ops| - 1];
    if last.TriggersFlush() {
      p, t := ops, [];
    } else {
      p, t := LastTrigger(ops[..|ops| - 1]);
      t := t + [last];
    }
  }

  // ---------------------------------------------------------------------------
  // The blind tail
  // ---------------------------------------------------------------------------

  /** By the time a server falls silent it has sent a ReadyForQuery for each Sync and Query. */
  ghost predicate Prompt(b: Backend) {
    forall c :: AllAnswered(b, c)
  }

  ghost predicate AllAnswered(b: Backend, c: seq<Chunk>) {
    Readies(b.respond(c).msgs) >= Requests(Flat(c))
  }

  ghost predicate Reliable(b: Backend) {
    forall c :: FlushSucceeds(b, c)
  }

  ghost predicate FlushSucceeds(b: Backend, c: seq<Chunk>) {
    b.flushError(c) == None
  }

  /** The runner's stated expectation of a server. */
  ghost predicate WellBehaved(b: Backend) {
    Causal(b) && Prompt(b) && Reliable(b)
  }

  lemma {:induction false} SetUpRequests(b: Backend, stmts: seq<string>)
    requires SetUp(b, FRESH, stmts).Success?
    ensures var r := SetUp(b, FRESH, stmts).value;
      r.wire.pending == [] && Requests(Flat(r.wire.sent)) == |stmts|
  {
    if stmts != [] {
      var front, last := stmts[..|stmts| - 1], stmts[|stmts| - 1];
      SetUpRequests(b, front);
      var r := SetUp(b, FRESH, front).value;
      assert r.wire.pending + [QueryMsg(last)] == [QueryMsg(last)];
      FlatSnoc(r.wire.sent, [QueryMsg(last)]);
      RequestsAppend(Flat(r.wire.sent), [QueryMsg(last)]);
      assert [QueryMsg(last)][..0] == [];
    }
  }

  lemma {:induction false} ReliableSends(b: Backend, w: Wire, ops: seq<FrontendOp>)
    requires Reliable(b)
    ensures SendAll(b, w, ops).Success?
  {
    if ops != [] {
      ReliableSends(b, w, ops[..|ops| - 1]);
      var w' := SendAll(b, w, ops[..|ops| - 1]).value;
      assert FlushSucceeds(b, w'.sent + [w'.pending + [EncodeOp(ops[|ops| - 1])]]);
    }
  }

  /** Extending a stream that already holds all that is waited for changes nothing. */
  lemma CollectedIgnoresMore(a: seq<PgMessage>, b: seq<PgMessage>, endA: End, endB: End, n: nat)
    requires a <= b && 0 < n <= Readies(a)
    ensures Collected(b, endB, n) == Collected(a, endA, n)
  {
    var k := Cut(a, n);
    CutEndsInReady(a, n);
    assert b[..k] == a[..k];
    CutIs(b, n, k);
  }

  /** What a prompt server has sent beyond setup covers every request made since. */
  lemma EnoughReadies(b: Backend, r: Ready, sent: seq<Chunk>, k: nat, n: nat)
    requires WellBehaved(b) && AtReady(b, r, k) && r.wire.sent <= sent
    requires Requests(Flat(sent)) == k + n
    ensures var msgs := b.respond(sent).msgs;
      r.received <= |msgs| && Readies(msgs[r.received..]) >= n
  {
    StillAtReady(b, r, sent, k);
    var msgs := b.respond(sent).msgs;
    assert AllAnswered(b, sent);
    assert msgs == msgs[..r.received] + msgs[r.received..];
    ReadiesAppend(msgs[..r.received], msgs[r.received..]);
  }

  lemma RequestTriggers(p: seq<FrontendOp>, t: seq<FrontendOp>)
    requires p != [] && p[|p| - 1].ExpectsReady()
    ensures HasTrigger(p) && HasTrigger(p + t) && HasRequest(p)
  {
    HasTriggerIs(p);
    HasTriggerIs(p + t);
    assert (p + t)[|p| - 1].TriggersFlush();
  }

  lemma RepliesAre(b: Backend, w: Wire, received: nat, ops: seq<FrontendOp>)
    requires Reliable(b) && HasTrigger(ops)
    ensures SendAll(b, w, ops).Success?
    ensures Transmitted(b, w, ops) == SendAll(b, w, ops)
    ensures Replies(b, w, received, ops)
         == CollectedFrom(b.respond(SendAll(b, w, ops).value.sent), received, ExpectedReady(ops))
  {
    ReliableSends(b, w, ops);
  }

  lemma LaterTraceCollectsTheSame(b: Backend, r: Ready, k: nat, sent: seq<Chunk>, more: seq<Chunk>, n: nat)
    requires WellBehaved(b) && AtReady(b, r, k) && r.wire.sent <= sent <= more
    requires Requests(Flat(sent)) == k + n && n > 0
    ensures CollectedFrom(b.respond(more), r.received, n) == CollectedFrom(b.respond(sent), r.received, n)
  {
    EnoughReadies(b, r, sent, k, n);
    assert sent + more[|sent|..] == more;
    assert Grows(b, sent, more[|sent|..]);
    CollectedIgnoresMore(b.respond(sent).msgs[r.received..], b.respond(more).msgs[r.received..],
                         b.respond(sent).end, b.respond(more).end, n);
  }

  /** Ops after the last Sync or Query cannot change what is collected from a well-behaved server. */
  lemma BlindTailIsInvisible(b: Backend, stmts: seq<string>, p: seq<FrontendOp>, t: seq<FrontendOp>)
    requires WellBehaved(b) && SetUp(b, FRESH, stmts).Success?
    requires p != [] && p[|p| - 1].ExpectsReady() && ExpectedReady(t) == 0
    ensures var r := SetUp(b, FRESH, stmts).value;
      Replies(b, r.wire, r.received, p + t) == Replies(b, r.wire, r.received, p)
  {
    var r := SetUp(b, FRESH, stmts).value;
    SetUpAtReady(b, stmts);
    SetUpRequests(b, stmts);
    BlindFrom(b, r, |stmts|, p, t);
  }

  /** What a reliable server has been sent when a sequence with a trigger is through. */
  lemma SentBy(b: Backend, r: Ready, ops: seq<FrontendOp>) returns (sent: seq<Chunk>)
    requires Reliable(b) && HasTrigger(ops) && r.wire.pending == []
    ensures SendAll(b, r.wire, ops).Success? && sent == SendAll(b, r.wire, ops).value.sent
    ensures r.wire.sent <= sent && Requests(Flat(sent)) == Requests(Flat(r.wire.sent)) + ExpectedReady(ops)
    ensures Replies(b, r.wire, r.received, ops) == CollectedFrom(b.respond(sent), r.received, ExpectedReady(ops))
  {
    RepliesAre(b, r.wire, r.received, ops);
    FlushDiscipline(b, r.wire, ops);
    sent := SendAll(b, r.wire, ops).value.sent;
  }

  lemma BlindFrom(b: Backend, r: Ready, k: nat, p: seq<FrontendOp>, t: seq<FrontendOp>)
    requires WellBehaved(b) && AtReady(b, r, k) && Requests(Flat(r.wire.sent)) == k
    requires p != [] && p[|p| - 1].ExpectsReady() && ExpectedReady(t) == 0
    ensures Replies(b, r.wire, r.received, p + t) == Replies(b, r.wire, r.received, p)
  {
    RequestTriggers(p, t);
    var sent := SentBy(b, r, p);
    var more := SentBy(b, r, p + t);
    SentGrows(b, r.wire, p, t);
    ExpectedReadyAppend(p, t);
    ExpectedReadyPositive(p);
    LaterTraceCollectsTheSame(b, r, k, sent, more, ExpectedReady(p));
  }

  lemma SentGrows(b: Backend, w: Wire, p: seq<FrontendOp>, t: seq<FrontendOp>)
    requires SendAll(b, w, p + t).Success?
    ensures SendAll(b, w, p).Success? && SendAll(b, w, p).value.sent <= SendAll(b, w, p + t).value.sent
  {
    SendAllAppend(b, w, p, t);
    SentThenPending(b, SendAll(b, w, p).value, t);
  }

  /** The ops after the last Sync or Query. */
  lemma {:induction false} LastRequest(ops: seq<FrontendOp>) returns (p: seq<FrontendOp>, t: seq<FrontendOp>)
    requires HasRequest(ops)
    ensures ops == p + t && p != [] && p[|p| - 1].ExpectsReady() && ExpectedReady(t) == 0
  {
    var last := ops[|ops| - 1];
    if last.ExpectsReady() {
      p, t := ops, [];
    } else {
      var i :| 0 <= i < |ops| && ops[i].ExpectsReady();
      assert ops[..|ops| - 1][i].ExpectsReady();
      p, t := LastRequest(ops[..|ops| - 1]);
      assert (t + [last])[..|t|] == t;
      t := t + [last];
    }
  }

  lemma OutcomeIgnoresBlindTail(runner: DualRunner, n: nat, p: seq<FrontendOp>, t: seq<FrontendOp>)
    requires runner.pgFactory(n).Success? ==> WellBehaved(runner.pgFactory(n).value)
    requires runner.targetFactory(n).Success? ==> WellBehaved(runner.targetFactory(n).value)
    requires p != [] && p[|p| - 1].ExpectsReady() && ExpectedReady(t) == 0
    ensures runner.Outcome(n, p + t) == runner.Outcome(n, p)
  {
    if runner.Outcome(n, p).Success? {
      BlindTailIsInvisible(runner.pgFactory(n).value, runner.setupStmts, p, t);
      BlindTailIsInvisible(runner.targetFactory(n).value, runner.setupStmts, p, t);
    }
  }

  /** Cutting a sequence after its last Sync or Query does not change what it yields. */
  lemma CutAfterLastRequest(runner: DualRunner, n: nat, r: seq<FrontendOp>)
    returns (p: seq<FrontendOp>, t: seq<FrontendOp>)
    requires HasRequest(r)
    requires runner.pgFactory(n).Success? ==> WellBehaved(runner.pgFactory(n).value)
    requires runner.targetFactory(n).Success? ==> WellBehaved(runner.targetFactory(n).value)
    ensures r == p + t && p != [] && p[|p| - 1].ExpectsReady()
    ensures runner.Outcome(n, r) == runner.Outcome(n, p)
  {
    p, t := LastRequest(r);
    OutcomeIgnoresBlindTail(runner, n, p, t);
  }

  /**
   With two well-behaved servers a shrunk sequence that holds a Sync or Query ends in
   one: whatever follows the last of them is not waited for and would have been trimmed.
   */
  lemma NoBlindTail(runner: DualRunner, ops: seq<FrontendOp>, original: Divergence, r: seq<FrontendOp>)
    requires SteadyRunner(runner) && ShrunkTo(runner, ops, original, r) && HasRequest(r)
    requires runner.pgFactory(0).Success? ==> WellBehaved(runner.pgFactory(0).value)
    requires runner.targetFactory(0).Success? ==> WellBehaved(runner.targetFactory(0).value)
    ensures r[|r| - 1].ExpectsReady()
  {
    var p, t := CutAfterLastRequest(runner, 0, r);
    NothingToTrim(runner, ops, original, r, p, t);
  }

  // ---------------------------------------------------------------------------
  // Windows
  // ---------------------------------------------------------------------------

  lemma CutGrows(msgs: seq<PgMessage>, n: nat, n': nat)
    requires n <= n' <= Readies(msgs)
    ensures Cut(msgs, n) <= Cut(msgs, n')
  {
    if Cut(msgs, n') < Cut(msgs, n) {
      CutIsShortest(msgs, n, Cut(msgs, n'));
    }
  }

  /** Waiting for more of a stream that has grown only adds to what is collected. */
  lemma CollectedGrows(a: seq<PgMessage>, b: seq<PgMessage>, endA: End, endB: End, n: nat, n': nat)
    requires a <= b && 0 < n <= n' && n <= Readies(a) && n' <= Readies(b)
    ensures Collected(a, endA, n) <= Collected(b, endB, n')
  {
    ReadiesOfPrefix(b, |a|);
    CollectedIgnoresMore(a, b, endA, endB, n);
    CutGrows(b, n, n');
    assert Events(b[..Cut(b, n)]) <= Events(b[..Cut(b, n')]);
  }

  lemma LaterTraceCollectsMore(
    b: Backend, r: Ready, k: nat, sent: seq<Chunk>, more: seq<Chunk>, n: nat, n': nat)
    requires WellBehaved(b) && AtReady(b, r, k) && r.wire.sent <= sent <= more && 0 < n <= n'
    requires Requests(Flat(sent)) == k + n && Requests(Flat(more)) == k + n'
    ensures CollectedFrom(b.respond(sent), r.received, n) <= CollectedFrom(b.respond(more), r.received, n')
  {
    EnoughReadies(b, r, sent, k, n);
    EnoughReadies(b, r, more, k, n');
    assert sent + more[|sent|..] == more;
    assert Grows(b, sent, more[|sent|..]);
    CollectedGrows(b.respond(sent).msgs[r.received..], b.respond(more).msgs[r.received..],
                   b.respond(sent).end, b.respond(more).end, n, n');
  }

  lemma RepliesGrowFrom(b: Backend, r: Ready, k: nat, p: seq<FrontendOp>, t: seq<FrontendOp>)
    requires WellBehaved(b) && AtReady(b, r, k) && Requests(Flat(r.wire.sent)) == k && HasRequest(p)
    ensures Replies(b, r.wire, r.received, p) <= Replies(b, r.wire, r.received, p + t)
  {
    RequestIsTrigger(p, t);
    var sent := SentBy(b, r, p);
    var more := SentBy(b, r, p + t);
    SentGrows(b, r.wire, p, t);
    ExpectedReadyAppend(p, t);
    ExpectedReadyPositive(p);
    LaterTraceCollectsMore(b, r, k, sent, more, ExpectedReady(p), ExpectedReady(p + t));
  }

  /** What follows in the sequence only adds to the replies of a well-behaved server. */
  lemma RepliesGrow(b: Backend, stmts: seq<string>, p: seq<FrontendOp>, t: seq<FrontendOp>)
    requires WellBehaved(b) && SetUp(b, FRESH, stmts).Success? && HasRequest(p)
    ensures var r := SetUp(b, FRESH, stmts).value;
      Replies(b, r.wire, r.received, p) <= Replies(b, r.wire, r.received, p + t)
  {
    SetUpAtReady(b, stmts);
    SetUpRequests(b, stmts);
    RepliesGrowFrom(b, SetUp(b, FRESH, stmts).value, |stmts|, p, t);
  }

  lemma RequestIsTrigger(p: seq<FrontendOp>, t: seq<FrontendOp>)
    requires HasRequest(p)
    ensures HasTrigger(p) && HasTrigger(p + t)
  {
    HasTriggerIs(p);
    HasTriggerIs(p + t);
    var i :| 0 <= i < |p| && p[i].ExpectsReady();
    assert p[i].TriggersFlush() && (p + t)[i].TriggersFlush();
  }

  lemma NormalizedGrows(a: seq<ResponseEvent>, b: seq<ResponseEvent>)
    requires a <= b
    ensures NormalizedStream(a) <= NormalizedStream(b)
  {
    NormalizedStreamAppend(a, b[|a|..]);
    assert a + b[|a|..] == b;
  }

  /** A mismatch of two messages is not affected by what comes after it. */
  lemma MismatchStays(
    a: seq<NormalizedMsg>, b: seq<NormalizedMsg>, a': seq<NormalizedMsg>, b': seq<NormalizedMsg>, ops: seq<FrontendOp>)
    requires a <= a' && b <= b' && Compared(a, b, ops).Some?
    requires Compared(a, b, ops).value.expected.Some? && Compared(a, b, ops).value.actual.Some?
    ensures Compared(a', b', ops) == Compared(a, b, ops)
  {
    var k := CommonPrefix(a, b);
    assert a'[..k] == a[..k] && b'[..k] == b[..k];
    CommonPrefixIs(a', b', k);
  }

  /**
   However a sequence that diverges on two well-behaved servers goes on, its first
   mismatch stays where and what it is.
   */
  lemma FirstMismatchStays(runner: DualRunner, n: nat, p: seq<FrontendOp>, t: seq<FrontendOp>)
    requires runner.pgFactory(n).Success? ==> WellBehaved(runner.pgFactory(n).value)
    requires runner.targetFactory(n).Success? ==> WellBehaved(runner.targetFactory(n).value)
    requires HasRequest(p) && Difference(runner.Outcome(n, p), p).Some?
    ensures Difference(runner.Outcome(n, p + t), p + t)
         == Some(Difference(runner.Outcome(n, p), p).value.(ops := p + t))
  {
    NoEndOfStream(runner, n, p);
    RepliesGrow(runner.pgFactory(n).value, runner.setupStmts, p, t);
    RepliesGrow(runner.targetFactory(n).value, runner.setupStmts, p, t);
    var (a, b) := runner.Outcome(n, p).value;
    var (a', b') := runner.Outcome(n, p + t).value;
    NormalizedGrows(a, a');
    NormalizedGrows(b, b');
    MismatchStays(NormalizedStream(a), NormalizedStream(b), NormalizedStream(a'), NormalizedStream(b'), p);
  }

  /**
   Two well-behaved, deterministic servers agree on every proper part of a shrunk sequence
   that it starts with and that holds a Sync or Query: whatever they differ in shows only
   with the last op.
   */
  lemma AgreeUntilLastOp(
    runner: DualRunner, ops: seq<FrontendOp>, original: Divergence, r: seq<FrontendOp>, p: seq<FrontendOp>)
    requires SteadyRunner(runner) && ShrunkTo(runner, ops, original, r)
    requires runner.pgFactory(0).Success? ==> WellBehaved(runner.pgFactory(0).value)
    requires runner.targetFactory(0).Success? ==> WellBehaved(runner.targetFactory(0).value)
    requires p < r && HasRequest(p)
    ensures Difference(runner.Outcome(0, p), p) == None
  {
    if Difference(runner.Outcome(0, p), p).Some? {
      assert Tries(KindAt(0), p, r);
      assert r == p + r[|p|..];
      FirstMismatchStays(runner, 0, p, r[|p|..]);
      ReportIsMinimal(runner, ops, original, r, p);
    }
  }

  /** A proper window is a proper prefix, or the start of a proper suffix. */
  lemma WindowToNeighbour(r: seq<FrontendOp>, i: nat, j: nat) returns (t: seq<FrontendOp>)
    requires i < j <= |r| && j - i < |r|
    ensures Neighbour(r[i..j] + t, r)
  {
    if i == 0 {
      t := [];
      assert r[i..j] + t == r[..j];
      assert Tries(KindAt(0), r[i..j] + t, r);
    } else {
      t := r[j..];
      assert r[i..j] + t == r[i..];
      assert Tries(KindAt(1), r[i..j] + t, r);
    }
  }

  /**
   With two well-behaved, deterministic servers no proper window of a shrunk sequence
   diverges in its class if it holds a Sync or Query, of whatever length, whether the
   window search tried that length or not.
   */
  lemma NoWindowReproduces(
    runner: DualRunner, ops: seq<FrontendOp>, original: Divergence, r: seq<FrontendOp>, i: nat, j: nat)
    requires SteadyRunner(runner) && ShrunkTo(runner, ops, original, r)
    requires runner.pgFactory(0).Success? ==> WellBehaved(runner.pgFactory(0).value)
    requires runner.targetFactory(0).Success? ==> WellBehaved(runner.targetFactory(0).value)
    requires i < j <= |r| && j - i < |r| && HasRequest(r[i..j])
    ensures var d := Difference(runner.Outcome(0, r[i..j]), r[i..j]);
      d.Some? ==> Classify(d.value) != Classify(original)
  {
    var w := r[i..j];
    if Difference(runner.Outcome(0, w), w).Some? {
      var t := WindowToNeighbour(r, i, j);
      FirstMismatchStays(runner, 0, w, t);
      ReportIsMinimal(runner, ops, original, r, w + t);
    }
  }

  /** A class that shows only on sequences with a Sync or Query. */
  ghost predicate NeedsRequest(runner: DualRunner, cls: DivergenceClass) {
    forall c :: Reproducing(OracleOf(runner, cls), c) ==> HasRequest(c)
  }

  lemma ReproductionExtends(runner: DualRunner, cls: DivergenceClass, p: seq<FrontendOp>, t: seq<FrontendOp>)
    requires runner.pgFactory(0).Success? ==> WellBehaved(runner.pgFactory(0).value)
    requires runner.targetFactory(0).Success? ==> WellBehaved(runner.targetFactory(0).value)
    requires Reproducing(OracleOf(runner, cls), p) && HasRequest(p)
    ensures Reproducing(OracleOf(runner, cls), p + t)
  {
    DifferenceShowsClass(runner, cls, 0, p);
    FirstMismatchStays(runner, 0, p, t);
    DifferenceShowsClass(runner, cls, 0, p + t);
  }

  /**
   With two well-behaved, deterministic servers and a class that shows only on sequences
   with a Sync or Query, shrinking always ends in a shortest sequence of the class
   exactly if all sequences of the class that cannot be reduced by one step are of one length.
   */
  lemma ReportsAreShortestIff(runner: DualRunner, cls: DivergenceClass)
    requires SteadyRunner(runner) && NeedsRequest(runner, cls)
    requires runner.pgFactory(0).Success? ==> WellBehaved(runner.pgFactory(0).value)
    requires runner.targetFactory(0).Success? ==> WellBehaved(runner.targetFactory(0).value)
    ensures AlwaysShortest(OracleOf(runner, cls)) <==> StuckAtOneLength(OracleOf(runner, cls))
  {
    var o := OracleOf(runner, cls);
    SteadyOracle(runner, cls);
    forall a, b | Reproducing(o, a) ensures Reproducing(o, a + b) {
      ReproductionExtends(runner, cls, a, b);
    }
    AlwaysShortestIff(o);
  }

  // ---------------------------------------------------------------------------
  // End of stream
  // ---------------------------------------------------------------------------

  lemma OnlyMissingIsEndOfStream(m: Option<NormalizedMsg>)
    ensures MsgKind(m) == "EndOfStream" <==> m.None?
  {
  }

  ghost predicate HasBothSides(d: Divergence) {
    && d.expected.Some? && d.actual.Some?
    && Classify(d).expectedKind != "EndOfStream" && Classify(d).actualKind != "EndOfStream"
  }

  /** Any divergence of a sequence with a Sync or Query, in any run. */
  lemma DivergenceHasBothSides(runner: DualRunner, n: nat, ops: seq<FrontendOp>)
    requires HasRequest(ops) && Difference(runner.Outcome(n, ops), ops).Some?
    ensures HasBothSides(Difference(runner.Outcome(n, ops), ops).value)
  {
    NoEndOfStream(runner, n, ops);
    OnlyMissingIsEndOfStream(Difference(runner.Outcome(n, ops), ops).value.expected);
    OnlyMissingIsEndOfStream(Difference(runner.Outcome(n, ops), ops).value.actual);
  }

  /**
   Against any servers, a divergence reported for a sequence with a Sync or Query never
   names the end of a stream, and neither does the shrunk one if a Sync or Query is left.
   With deterministic servers it does not even if shrinking has removed them all.
   */
  lemma ReportHasBothSides(runner: DualRunner, ops: seq<FrontendOp>, clock: nat)
    requires HasRequest(ops)
    ensures var report := Reported(runner, ops, clock);
      && (report.ShrunkDivergence? || report.UnshrunkDivergence? ==> HasBothSides(report.original))
      && (report.ShrunkDivergence? && HasRequest(report.shrunk.ops) ==> HasBothSides(report.shrunk))
      && (SteadyRunner(runner) && report.ShrunkDivergence? ==> HasBothSides(report.shrunk))
  {
    var report := Reported(runner, ops, clock);
    var r := ReportIsObserved(runner, ops, clock);
    if report.ShrunkDivergence? || report.UnshrunkDivergence? {
      DivergenceHasBothSides(runner, clock, ops);
    }
    if report.ShrunkDivergence? && HasRequest(report.shrunk.ops) {
      DivergenceHasBothSides(runner, Concluded(runner, ops, clock).runs - 1, report.shrunk.ops);
    }
    if SteadyRunner(runner) && report.ShrunkDivergence? {
      assert runner.Outcome(clock, ops) == runner.Outcome(0, ops);
      ShrunkReportReproduces(runner, ops, clock);
      OnlyMissingIsEndOfStream(report.shrunk.expected);
      OnlyMissingIsEndOfStream(report.shrunk.actual);
    }
  }
}

/** The whole program: generated sequences, run by the pool, judged and reported. */
module Fuzzer {
  import opened Wrappers
  import opened Ops
  import opened Runner
  import opened Comparator
  import opened Shrinker
  import opened Templates
  import opened Generator
  import opened GeneratorTheorems
  import opened WorkerPool
  import opened ShrinkerBounds
  import opened EndToEnd

  /** Where the draws of the `i`-th sequence start: sequences are generated one after the other. */
  function StartOf(src: Source, templates: seq<SqlEntry>, i: nat): nat
    requires templates != []
  {
    if i == 0 then 0 else NextSequence(src, StartOf(src, templates, i - 1), templates).pos
  }

  function SequenceAt(src: Source, templates: seq<SqlEntry>, i: nat): seq<FrontendOp>
    requires templates != []
  {
    NextSequence(src, StartOf(src, templates, i), templates).value
  }

  lemma NextSequenceIs(src: Source, templates: seq<SqlEntry>, i: nat, d: Drawn<seq<FrontendOp>>)
    requires templates != [] && d == NextSequence(src, StartOf(src, templates, i), templates)
    ensures d.value == SequenceAt(src, templates, i) && d.pos == StartOf(src, templates, i + 1)
  {
  }

  /** A runner that sets fresh connections up for the templates of a profile. */
  ghost predicate SetUpFor(runner: DualRunner, profile: Profile) {
    runner.setupStmts == Distinct(AllSetup(EnabledTemplates(profile)))
  }

  method NewRunner(pgFactory: Factory, targetFactory: Factory, profile: Profile) returns (runner: DualRunner)
    ensures fresh(runner) && runner.runs == 0 && SetUpFor(runner, profile)
    ensures runner.pgFactory == pgFactory && runner.targetFactory == targetFactory
  {
    var setupStmts := SetupSql(profile);
    runner := new DualRunner(pgFactory, targetFactory, setupStmts);
  }

  lemma {:induction false} AllSetupIs(templates: seq<SqlEntry>, stmt: string)
    ensures stmt in AllSetup(templates) <==> exists t :: t in templates && stmt in t.setup
  {
    if templates != [] {
      var front, last := templates[..|templates| - 1], templates[|templates| - 1];
      AllSetupIs(front, stmt);
      assert templates == front + [last];
      assert stmt in last.setup ==> last in templates;
    }
  }

  /**
   Every run first executes what the enabled templates need, each statement once and
   nothing else: the templates a sequence can draw from find their tables in place.
   */
  lemma SetupServesTemplates(runner: DualRunner, profile: Profile, stmt: string)
    requires SetUpFor(runner, profile)
    ensures stmt in runner.setupStmts <==> exists t :: t in EnabledTemplates(profile) && stmt in t.setup
    ensures forall i, j :: 0 <= i < j < |runner.setupStmts| ==> runner.setupStmts[i] != runner.setupStmts[j]
  {
    AllSetupIs(EnabledTemplates(profile), stmt);
    DistinctSpec(AllSetup(EnabledTemplates(profile)));
  }

  ghost predicate Tabulates<T(!new)>(all: seq<T>, f: nat -> T) {
    forall k :: 0 <= k < |all| ==> all[k] == f(k)
  }

  lemma TabulatesSnoc<T(!new)>(all: seq<T>, x: T, f: nat -> T)
    requires Tabulates(all, f) && x == f(|all|)
    ensures Tabulates(all + [x], f)
  {
  }

  /** The sequences of a seed, one after the other, as the spawn loop generates them. */
  method GenerateAll(templates: seq<SqlEntry>, rng: Rng, total: nat) returns (all: seq<seq<FrontendOp>>)
    requires templates != [] && rng.pos == 0
    modifies rng`pos
    ensures |all| == total && forall i :: 0 <= i < total ==> all[i] == SequenceAt(rng.src, templates, i)
    ensures rng.pos == StartOf(rng.src, templates, total)
  {
    ghost var f := (i: nat) => SequenceAt(rng.src, templates, i);
    all := [];
    for i := 0 to total
      invariant |all| == i && Tabulates(all, f)
      invariant rng.pos == StartOf(rng.src, templates, i)
    {
      var ops := Next(templates, rng);
      NextSequenceIs(rng.src, templates, i, Drawn(ops, rng.pos));
      TabulatesSnoc(all, ops, f);
      all := all + [ops];
    }
  }

  /** What the first run of a sequence comes to, if it is the `n`-th run of all. */
  function VerdictOf(runner: DualRunner, ops: seq<FrontendOp>, n: nat): Verdict {
    var r := runner.Outcome(n, ops);
    if r.Failure? then Failed else if Difference(r, ops).Some? then Diverging else Same
  }

  /** The two servers send what does not compare equal. */
  ghost predicate StreamsDiffer(runner: DualRunner, ops: seq<FrontendOp>, n: nat) {
    var r := runner.Outcome(n, ops);
    r.Success? && NormalizedStream(r.value.0) != NormalizedStream(r.value.1)
  }

  /** What a verdict says of a run. */
  ghost predicate Judges(v: Verdict, runner: DualRunner, ops: seq<FrontendOp>, n: nat) {
    match v
    case Failed => runner.Outcome(n, ops).Failure?
    case Diverging => StreamsDiffer(runner, ops, n)
    case Same => runner.Outcome(n, ops).Success? && !StreamsDiffer(runner, ops, n)
  }

  lemma VerdictJudges(runner: DualRunner, ops: seq<FrontendOp>, n: nat, v: Verdict)
    ensures Judges(v, runner, ops, n) <==> v == VerdictOf(runner, ops, n)
  {
  }

  ghost predicate IsVerdictOf(v: Verdict, runner: DualRunner, ops: seq<FrontendOp>) {
    exists n: nat :: Judges(v, runner, ops, n)
  }

  /** A program run: the seed's source, the profile, the servers, the workers. */
  ghost function FuzzConfig(runner: DualRunner, src: Source, profile: Profile, workers: nat, total: nat): Config {
    NeverEmpty(profile);
    Config(workers, total, (i: nat, v: Verdict) =>
      IsVerdictOf(v, runner, SequenceAt(src, EnabledTemplates(profile), i)))
  }

  lemma FuzzAnswers(runner: DualRunner, src: Source, profile: Profile, workers: nat, total: nat)
    ensures Answering(FuzzConfig(runner, src, profile, workers, total))
  {
    NeverEmpty(profile);
    var cfg := FuzzConfig(runner, src, profile, workers, total);
    forall i: nat ensures HasAnswer(cfg, i) {
      var ops := SequenceAt(src, EnabledTemplates(profile), i);
      VerdictJudges(runner, ops, 0, VerdictOf(runner, ops, 0));
      assert cfg.allowed(i, VerdictOf(runner, ops, 0));
    }
  }

  lemma SteadyIsDeterministic(runner: DualRunner, src: Source, profile: Profile, workers: nat, total: nat)
    requires SteadyRunner(runner)
    ensures EnabledTemplates(profile) != []
    ensures Deterministic(FuzzConfig(runner, src, profile, workers, total),
              (i: nat) => VerdictOf(runner, SequenceAt(src, EnabledTemplates(profile), i), 0))
  {
    NeverEmpty(profile);
    var cfg := FuzzConfig(runner, src, profile, workers, total);
    forall i: nat, v: Verdict
      ensures cfg.allowed(i, v) <==> v == VerdictOf(runner, SequenceAt(src, EnabledTemplates(profile), i), 0)
    {
      OneVerdict(runner, SequenceAt(src, EnabledTemplates(profile), i), v);
    }
  }

  lemma OneVerdict(runner: DualRunner, ops: seq<FrontendOp>, v: Verdict)
    requires SteadyRunner(runner)
    ensures IsVerdictOf(v, runner, ops) <==> v == VerdictOf(runner, ops, 0)
  {
    forall n: nat ensures Judges(v, runner, ops, n) <==> Judges(v, runner, ops, 0) {
      assert runner.Outcome(n, ops) == runner.Outcome(0, ops);
    }
    VerdictJudges(runner, ops, 0, v);
  }

  /** Every verdict is that of some run of the iteration's own sequence. */
  lemma VerdictIsOfSequence(
    cfg: Config, runner: DualRunner, src: Source, templates: seq<SqlEntry>, s: Pool, i: nat)
    requires templates != [] && Inv(cfg, s) && i in s.verdicts
    requires forall v :: cfg.allowed(i, v) ==> IsVerdictOf(v, runner, SequenceAt(src, templates, i))
    ensures IsVerdictOf(s.verdicts[i], runner, SequenceAt(src, templates, i))
  {
    assert Local(cfg, s, i);
  }

  /** What holds of any program that has come to its exit without a panic. */
  lemma PoolResult(cfg: Config, schedule: seq<Action>)
    requires Answering(cfg)
    requires Exec(cfg, schedule).Some? && Exec(cfg, schedule).value.exitCode.Some?
    requires Exec(cfg, schedule).value.panicked == {}
    ensures cfg.workers > 0 || cfg.total == 0
    ensures var s := Exec(cfg, schedule).value;
      && Inv(cfg, s)
      && (forall i: nat :: i < cfg.total <==> i in s.verdicts)
      && s.exitCode == Some(if exists i :: i in s.verdicts && s.verdicts[i] == Diverging then 1 else 0)
  {
    ExitsIff(cfg);
    FinalState(cfg, schedule);
    UpToIs(cfg.total);
    InvAlways(cfg, schedule);
  }

  /**
   The program's promise, for every seed, profile and pair of servers. With at least one
   worker it can always run to its exit; when it exits without a panic each iteration
   was judged on its own generated sequence and the exit code is 1 exactly if one diverged.
   */
  lemma ProgramResult(
    runner: DualRunner, src: Source, profile: Profile, workers: nat, total: nat, schedule: seq<Action>)
    requires var cfg := FuzzConfig(runner, src, profile, workers, total);
      Exec(cfg, schedule).Some? && Exec(cfg, schedule).value.exitCode.Some? && Exec(cfg, schedule).value.panicked == {}
    ensures EnabledTemplates(profile) != []
    ensures workers > 0 || total == 0
    ensures var s := Exec(FuzzConfig(runner, src, profile, workers, total), schedule).value;
      && (forall i: nat :: i < total <==> i in s.verdicts)
      && (forall i :: i in s.verdicts ==>
            IsVerdictOf(s.verdicts[i], runner, SequenceAt(src, EnabledTemplates(profile), i)))
      && s.exitCode == Some(if exists i :: i in s.verdicts && s.verdicts[i] == Diverging then 1 else 0)
  {
    var cfg := FuzzConfig(runner, src, profile, workers, total);
    NeverEmpty(profile);
    FuzzAnswers(runner, src, profile, workers, total);
    PoolResult(cfg, schedule);
    var s := Exec(cfg, schedule).value;
    forall i | i in s.verdicts
      ensures IsVerdictOf(s.verdicts[i], runner, SequenceAt(src, EnabledTemplates(profile), i))
    {
      VerdictIsOfSequence(cfg, runner, src, EnabledTemplates(profile), s, i);
    }
  }

  /** With deterministic servers the exit code says whether they differ on one of the sequences. */
  lemma ExitCodeTells(
    runner: DualRunner, src: Source, profile: Profile, workers: nat, total: nat, schedule: seq<Action>)
    requires SteadyRunner(runner)
    requires var cfg := FuzzConfig(runner, src, profile, workers, total);
      Exec(cfg, schedule).Some? && Exec(cfg, schedule).value.exitCode.Some? && Exec(cfg, schedule).value.panicked == {}
    ensures EnabledTemplates(profile) != []
    ensures var s := Exec(FuzzConfig(runner, src, profile, workers, total), schedule).value;
      var differs := exists i: nat :: i < total && DiffersAt(runner, src, EnabledTemplates(profile), i);
      s.exitCode == Some(if differs then 1 else 0)
  {
    ProgramResult(runner, src, profile, workers, total, schedule);
    var s := Exec(FuzzConfig(runner, src, profile, workers, total), schedule).value;
    var templates := EnabledTemplates(profile);
    forall i: nat | i < total ensures s.verdicts[i] == Diverging <==> DiffersAt(runner, src, templates, i) {
      DivergingTells(runner, SequenceAt(src, templates, i), s.verdicts[i]);
    }
  }

  ghost predicate DiffersAt(runner: DualRunner, src: Source, templates: seq<SqlEntry>, i: nat)
    requires templates != []
  {
    StreamsDiffer(runner, SequenceAt(src, templates, i), 0)
  }

  lemma DivergingTells(runner: DualRunner, ops: seq<FrontendOp>, v: Verdict)
    requires SteadyRunner(runner) && IsVerdictOf(v, runner, ops)
    ensures v == Diverging <==> StreamsDiffer(runner, ops, 0)
  {
    var n: nat :| Judges(v, runner, ops, n);
    assert runner.Outcome(n, ops) == runner.Outcome(0, ops);
  }

  /** With deterministic servers only the seed, the profile and the number of iterations matter. */
  lemma ResultDependsOnSeed(
    runner: DualRunner, src: Source, profile: Profile, total: nat,
    workersA: nat, scheduleA: seq<Action>, workersB: nat, scheduleB: seq<Action>)
    requires SteadyRunner(runner)
    requires var a := FuzzConfig(runner, src, profile, workersA, total);
      var b := FuzzConfig(runner, src, profile, workersB, total);
      && Exec(a, scheduleA).Some? && Exec(a, scheduleA).value.exitCode.Some? && Exec(a, scheduleA).value.panicked == {}
      && Exec(b, scheduleB).Some? && Exec(b, scheduleB).value.exitCode.Some? && Exec(b, scheduleB).value.panicked == {}
    ensures var s := Exec(FuzzConfig(runner, src, profile, workersA, total), scheduleA).value;
      var t := Exec(FuzzConfig(runner, src, profile, workersB, total), scheduleB).value;
      s.verdicts == t.verdicts && s.divergences == t.divergences && s.exitCode == t.exitCode
  {
    var a, b := FuzzConfig(runner, src, profile, workersA, total), FuzzConfig(runner, src, profile, workersB, total);
    SteadyIsDeterministic(runner, src, profile, workersA, total);
    SteadyIsDeterministic(runner, src, profile, workersB, total);
    var f := (i: nat) => VerdictOf(runner, SequenceAt(src, EnabledTemplates(profile), i), 0);
    ScheduleDoesNotMatter(a, b, f, scheduleA, scheduleB);
  }

  /**
   Whatever is drawn and however the servers answer: if the first run of a generated
   sequence differs, and only then, a divergence is reported, with a message on both
   sides. With deterministic servers the report is shrunk, in the same class, and has a
   message on both sides too.
   */
  lemma GeneratedReport(runner: DualRunner, src: Source, profile: Profile, i: nat, clock: nat)
    ensures EnabledTemplates(profile) != []
    ensures var ops := SequenceAt(src, EnabledTemplates(profile), i);
      var report := Reported(runner, ops, clock);
      && (StreamsDiffer(runner, ops, clock) <==> report.ShrunkDivergence? || report.UnshrunkDivergence?)
      && (StreamsDiffer(runner, ops, clock) ==>
            && HasBothSides(report.original)
            && (SteadyRunner(runner) ==>
                  && report.ShrunkDivergence? && HasBothSides(report.shrunk)
                  && Classify(report.shrunk) == Classify(report.original)))
  {
    NeverEmpty(profile);
    var ops := SequenceAt(src, EnabledTemplates(profile), i);
    GeneratedSequence(src, StartOf(src, EnabledTemplates(profile), i), profile);
    var r := ReportIsObserved(runner, ops, clock);
    ReportHasBothSides(runner, ops, clock);
    if SteadyRunner(runner) && StreamsDiffer(runner, ops, clock) {
      assert runner.Outcome(clock, ops) == runner.Outcome(0, ops);
      ShrunkReportReproduces(runner, ops, clock);
    }
  }

  /** One iteration on a generated sequence takes at most 28646 runs, however the servers answer. */
  lemma GeneratedRunsAreBounded(runner: DualRunner, src: Source, profile: Profile, i: nat, clock: nat)
    ensures EnabledTemplates(profile) != []
    ensures Concluded(runner, SequenceAt(src, EnabledTemplates(profile), i), clock).runs <= clock + 28646
  {
    NeverEmpty(profile);
    var ops := SequenceAt(src, EnabledTemplates(profile), i);
    var n := |ops|;
    GeneratedSequence(src, StartOf(src, EnabledTemplates(profile), i), profile);
    RunsAreBounded(runner, ops, clock);
    RoundBudgetMonotone(n, 31);
    RoundBudgetOf31();
    ProductMonotone(3 * n, 93, RoundBudget(n), 308);
  }
}

/**
 The spawn loop, the workers and their counters (src/main.rs) as a step system.

 The spawn loop acquires a permit, spawns a task that owns it, and after the last
 iteration waits for all tasks. Tasks step independently, each atomic operation one
 step; a task may also panic, which gives its permit back like any other end. What a
 run yields for an iteration is up to the environment. `verdicts`, `numbers`,
 `reported`, `finished`, `left` and `panicked` record history and steer nothing.
 */
module WorkerPool {
  import opened Wrappers

  /** How the first run of an iteration turns out. */
  datatype Verdict = Same | Failed | Diverging

  datatype Stage =
    | Running
    | Counting                // a divergence was found and is about to be numbered
    | Reporting(number: nat)  // shrinking and reporting it
    | Finishing               // about to count itself done
    | Leaving                 // done, permit not yet released

  datatype Config = Config(workers: nat, total: nat, allowed: (nat, Verdict) -> bool)

  datatype Pool = Pool(
    free: nat,
    next: nat,
    holding: bool,
    tasks: map<nat, Stage>,
    divergences: nat,
    done: nat,
    exitCode: Option<nat>,
    verdicts: map<nat, Verdict>,
    numbers: map<nat, nat>,
    reported: set<nat>,
    finished: set<nat>,
    left: set<nat>,
    panicked: set<nat>)

  datatype Action =
    | Acquire
    | Spawn
    | Judge(i: nat, verdict: Verdict)
    | Count(i: nat)
    | Report(i: nat)
    | Finish(i: nat)
    | Leave(i: nat)
    | Panic(i: nat)
    | Exit

  function Initial(cfg: Config): Pool {
    Pool(cfg.workers, 0, false, map[], 0, 0, None, map[], map[], {}, {}, {}, {})
  }

  predicate At(s: Pool, i: nat, stage: Stage) {
    i in s.tasks && s.tasks[i] == stage
  }

  predicate Enabled(cfg: Config, s: Pool, a: Action) {
    s.exitCode == None &&
    match a
    case Acquire => !s.holding && s.next < cfg.total && s.free > 0
    case Spawn => s.holding
    case Judge(i, v) => At(s, i, Running) && cfg.allowed(i, v)
    case Count(i) => At(s, i, Counting)
    case Report(i) => i in s.tasks && s.tasks[i].Reporting?
    case Finish(i) => At(s, i, Finishing)
    case Leave(i) => At(s, i, Leaving)
    case Panic(i) => i in s.tasks && s.tasks[i] != Leaving
    case Exit => !s.holding && s.next == cfg.total && s.tasks == map[]
  }

  function Apply(s: Pool, a: Action): Pool {
    match a
    case Acquire => s.(free := if s.free > 0 then s.free - 1 else 0, holding := true)
    case Spawn => s.(holding := false, tasks := s.tasks[s.next := Running], next := s.next + 1)
    case Judge(i, v) =>
      s.(tasks := s.tasks[i := if v == Diverging then Counting else Finishing], verdicts := s.verdicts[i := v])
    case Count(i) =>
      var number := s.divergences + 1;
      s.(divergences := number, tasks := s.tasks[i := Reporting(number)], numbers := s.numbers[i := number])
    case Report(i) => s.(tasks := s.tasks[i := Finishing], reported := s.reported + {i})
    case Finish(i) => s.(tasks := s.tasks[i := Leaving], done := s.done + 1, finished := s.finished + {i})
    case Leave(i) => s.(tasks := s.tasks - {i}, free := s.free + 1, left := s.left + {i})
    case Panic(i) => s.(tasks := s.tasks - {i}, free := s.free + 1, panicked := s.panicked + {i})
    case Exit => s.(exitCode := Some(if s.divergences > 0 then 1 else 0))
  }

  /** Runs a schedule; `None` when some action in it is not possible. */
  function Exec(cfg: Config, schedule: seq<Action>): Option<Pool> {
    if schedule == [] then Some(Initial(cfg))
    else
      match Exec(cfg, schedule[..|schedule| - 1])
      case None => None
      case Some(s) =>
        var a := schedule[|schedule| - 1];
        if Enabled(cfg, s, a) then Some(Apply(s, a)) else None
  }

  // ---------------------------------------------------------------------------
  // Invariants
  // ---------------------------------------------------------------------------

  /** What holds of one iteration at any time. */
  predicate Local(cfg: Config, s: Pool, i: nat) {
    // It is spawned exactly if it is live, has left or has panicked, and only one of these.
    && (i < s.next <==> i in s.tasks || i in s.left || i in s.panicked)
    && (i in s.tasks ==> i !in s.left && i !in s.panicked)
    && (i in s.panicked ==> i !in s.left && i !in s.finished)
    && (i in s.finished <==> At(s, i, Leaving) || i in s.left)
    // Its verdict is one the environment may give.
    && (i in s.verdicts ==> i < s.next && cfg.allowed(i, s.verdicts[i]))
    && (i in s.tasks ==> (s.tasks[i] != Running <==> i in s.verdicts))
    && (i in s.left ==> i in s.verdicts)
    // Exactly the diverging ones are numbered, as soon as they are past counting.
    && (i in s.numbers ==> i in s.verdicts && s.verdicts[i] == Diverging && 1 <= s.numbers[i] <= s.divergences)
    && (At(s, i, Counting) ==> s.verdicts[i] == Diverging && i !in s.numbers)
    && (i in s.tasks && s.tasks[i].Reporting? ==>
          i in s.numbers && s.numbers[i] == s.tasks[i].number && i !in s.reported)
    && (i in s.reported ==> i in s.numbers)
    && (i in s.verdicts && s.verdicts[i] == Diverging && i !in s.panicked && !At(s, i, Counting) ==> i in s.numbers)
  }

  /** No permit is lost and none is made up. */
  predicate Permits(cfg: Config, s: Pool) {
    s.free + |s.tasks| + (if s.holding then 1 else 0) == cfg.workers
  }

  /** The spawn loop is in range, the counters count, and the exit code is right. */
  predicate Global(cfg: Config, s: Pool) {
    && s.next <= cfg.total
    && (s.holding ==> s.next < cfg.total)
    && s.done == |s.finished|
    && s.divergences == |s.numbers|
    && (s.exitCode.Some? ==>
          && !s.holding && s.next == cfg.total && s.tasks == map[]
          && s.exitCode.value == if s.divergences > 0 then 1 else 0)
  }

  ghost predicate HandedOut(s: Pool, n: nat) {
    exists i :: i in s.numbers && s.numbers[i] == n
  }

  /** The numbers handed out are 1, 2, ... up to the counter, each once. */
  ghost predicate Numbered(s: Pool) {
    && (forall i, j :: i in s.numbers && j in s.numbers && s.numbers[i] == s.numbers[j] ==> i == j)
    && (forall n: nat :: 1 <= n <= s.divergences <==> HandedOut(s, n))
  }

  ghost predicate Inv(cfg: Config, s: Pool) {
    Permits(cfg, s) && Global(cfg, s) && (forall i: nat :: Local(cfg, s, i)) && Numbered(s)
  }

  /** The iteration an action is about; the spawn loop acts for the next one. */
  function Subject(s: Pool, a: Action): nat {
    match a
    case Judge(i, _) => i
    case Count(i) => i
    case Report(i) => i
    case Finish(i) => i
    case Leave(i) => i
    case Panic(i) => i
    case _ => s.next
  }

  lemma LocalKeptOfOthers(cfg: Config, s: Pool, a: Action, i: nat)
    requires Enabled(cfg, s, a) && Local(cfg, s, i) && i != Subject(s, a)
    ensures Local(cfg, Apply(s, a), i)
  {
  }

  lemma LocalKeptOfSubject(cfg: Config, s: Pool, a: Action)
    requires Enabled(cfg, s, a) && Local(cfg, s, Subject(s, a))
    ensures Local(cfg, Apply(s, a), Subject(s, a))
  {
  }

  lemma LocalKept(cfg: Config, s: Pool, a: Action, i: nat)
    requires Enabled(cfg, s, a) && Local(cfg, s, i)
    ensures Local(cfg, Apply(s, a), i)
  {
    if i == Subject(s, a) {
      LocalKeptOfSubject(cfg, s, a);
    } else {
      LocalKeptOfOthers(cfg, s, a, i);
    }
  }

  lemma RemoveOne<V>(m: map<nat, V>, i: nat)
    requires i in m
    ensures |m - {i}| == |m| - 1
  {
    assert (m - {i}).Keys == m.Keys - {i};
    assert |m| == |m.Keys| && |m - {i}| == |(m - {i}).Keys|;
  }

  lemma GlobalKept(cfg: Config, s: Pool, a: Action)
    requires Permits(cfg, s) && Global(cfg, s) && Local(cfg, s, Subject(s, a)) && Enabled(cfg, s, a)
    ensures Permits(cfg, Apply(s, a)) && Global(cfg, Apply(s, a))
  {
    match a
    case Leave(i) => RemoveOne(s.tasks, i);
    case Panic(i) => RemoveOne(s.tasks, i);
    case _ =>
  }

  lemma NumberedKept(cfg: Config, s: Pool, a: Action)
    requires Inv(cfg, s) && Enabled(cfg, s, a)
    ensures Numbered(Apply(s, a))
  {
    if a.Count? {
      NextNumber(cfg, s, a.i);
    } else {
      var t := Apply(s, a);
      assert t.numbers == s.numbers && t.divergences == s.divergences;
      assert forall n: nat :: HandedOut(t, n) <==> HandedOut(s, n);
    }
  }

  lemma NextNumber(cfg: Config, s: Pool, k: nat)
    requires Inv(cfg, s) && Enabled(cfg, s, Count(k))
    ensures Numbered(Apply(s, Count(k)))
  {
    var t := Apply(s, Count(k));
    assert Local(cfg, s, k);
    assert forall i :: i in s.numbers ==> i != k && t.numbers[i] == s.numbers[i];
    assert forall i :: i in s.numbers ==> s.numbers[i] <= s.divergences by {
      forall i | i in s.numbers ensures s.numbers[i] <= s.divergences {
        assert Local(cfg, s, i);
      }
    }
    forall n: nat ensures 1 <= n <= t.divergences <==> HandedOut(t, n) {
      if n == t.divergences {
        assert t.numbers[k] == n;
      } else if HandedOut(s, n) {
        var i :| i in s.numbers && s.numbers[i] == n;
        assert t.numbers[i] == n;
      }
    }
  }

  /** Every step keeps the invariant. */
  lemma InvKept(cfg: Config, s: Pool, a: Action)
    requires Inv(cfg, s) && Enabled(cfg, s, a)
    ensures Inv(cfg, Apply(s, a))
  {
    assert Local(cfg, s, Subject(s, a));
    GlobalKept(cfg, s, a);
    NumberedKept(cfg, s, a);
    forall i: nat ensures Local(cfg, Apply(s, a), i) {
      LocalKept(cfg, s, a, i);
    }
  }

  lemma InitialInv(cfg: Config)
    ensures Inv(cfg, Initial(cfg))
  {
    var s := Initial(cfg);
    assert forall n: nat :: !HandedOut(s, n);
  }

  /** So the invariant holds after every schedule, whatever the environment's verdicts and panics. */
  lemma {:induction false} InvAlways(cfg: Config, schedule: seq<Action>)
    requires Exec(cfg, schedule).Some?
    ensures Inv(cfg, Exec(cfg, schedule).value)
  {
    if schedule == [] {
      InitialInv(cfg);
    } else {
      var front := schedule[..|schedule| - 1];
      InvAlways(cfg, front);
      InvKept(cfg, Exec(cfg, front).value, schedule[|schedule| - 1]);
    }
  }

  // ---------------------------------------------------------------------------
  // The end of a run
  // ---------------------------------------------------------------------------

  function UpTo(n: nat): set<nat> {
    if n == 0 then {} else UpTo(n - 1) + {n - 1}
  }

  lemma {:induction false} UpToIs(n: nat)
    ensures |UpTo(n)| == n && forall i: nat :: i in UpTo(n) <==> i < n
  {
    if n > 0 {
      UpToIs(n - 1);
    }
  }

  /**
   When the program exits every iteration has finished or panicked and all permits are
   back. Without panics all have finished, the diverging ones are numbered from 1 on
   without gaps or repeats, and the exit code is 1 exactly if there is one.
   */
  lemma FinalState(cfg: Config, schedule: seq<Action>)
    requires Exec(cfg, schedule).Some? && Exec(cfg, schedule).value.exitCode.Some?
    ensures var s := Exec(cfg, schedule).value;
      && s.free == cfg.workers
      && s.finished + s.panicked == UpTo(cfg.total)
      && s.done + |s.panicked| == cfg.total
      && Numbered(s)
      && (s.panicked == {} ==>
            && s.done == cfg.total
            && s.verdicts.Keys == UpTo(cfg.total)
            && s.numbers.Keys == (set i | i in s.verdicts && s.verdicts[i] == Diverging)
            && s.exitCode.value == if exists i :: i in s.verdicts && s.verdicts[i] == Diverging then 1 else 0)
  {
    InvAlways(cfg, schedule);
    var s := Exec(cfg, schedule).value;
    UpToIs(cfg.total);
    forall i: nat
      ensures i in s.finished + s.panicked <==> i in UpTo(cfg.total)
      ensures !(i in s.finished && i in s.panicked)
      ensures s.panicked == {} ==>
        && (i in s.verdicts <==> i in UpTo(cfg.total))
        && (i in s.numbers <==> i in s.verdicts && s.verdicts[i] == Diverging)
    {
      assert Local(cfg, s, i);
    }
    assert s.finished + s.panicked == UpTo(cfg.total) && s.finished !! s.panicked;
    assert |s.numbers| == |s.numbers.Keys|;
    if s.divergences > 0 {
      assert HandedOut(s, 1);
    } else {
      assert s.numbers.Keys == {};
    }
  }

  /** Each iteration can turn out in exactly one way. */
  ghost predicate Deterministic(cfg: Config, f: nat -> Verdict) {
    forall i, v :: cfg.allowed(i, v) <==> v == f(i)
  }

  lemma VerdictsAre(cfg: Config, f: nat -> Verdict, s: Pool)
    requires Deterministic(cfg, f) && Inv(cfg, s)
    ensures forall i: nat :: i in s.verdicts ==> s.verdicts[i] == f(i)
  {
    forall i: nat ensures i in s.verdicts ==> s.verdicts[i] == f(i) {
      assert Local(cfg, s, i);
    }
  }

  /** What a complete run without panics comes to is a matter of the verdicts alone. */
  lemma OutcomeIs(cfg: Config, f: nat -> Verdict, schedule: seq<Action>, s: Pool)
    requires Deterministic(cfg, f) && Exec(cfg, schedule) == Some(s) && s.exitCode.Some? && s.panicked == {}
    ensures s.verdicts.Keys == UpTo(cfg.total) && forall i :: i in s.verdicts ==> s.verdicts[i] == f(i)
    ensures s.divergences == |set i | i in s.verdicts && s.verdicts[i] == Diverging|
    ensures s.exitCode.value == if exists i :: i in s.verdicts && s.verdicts[i] == Diverging then 1 else 0
  {
    FinalState(cfg, schedule);
    InvAlways(cfg, schedule);
    VerdictsAre(cfg, f, s);
    assert |s.numbers| == |s.numbers.Keys|;
  }

  /**
   With deterministic verdicts the result does not depend on the schedule or on the
   number of workers: two panic-free complete runs agree on every verdict, on the number
   of divergences and on the exit code.
   */
  lemma ScheduleDoesNotMatter(
    a: Config, b: Config, f: nat -> Verdict, scheduleA: seq<Action>, scheduleB: seq<Action>)
    requires a.total == b.total && Deterministic(a, f) && Deterministic(b, f)
    requires Exec(a, scheduleA).Some? && Exec(b, scheduleB).Some?
    requires var s, t := Exec(a, scheduleA).value, Exec(b, scheduleB).value;
      s.exitCode.Some? && t.exitCode.Some? && s.panicked == {} && t.panicked == {}
    ensures var s, t := Exec(a, scheduleA).value, Exec(b, scheduleB).value;
      s.verdicts == t.verdicts && s.divergences == t.divergences && s.exitCode == t.exitCode
  {
    var s, t := Exec(a, scheduleA).value, Exec(b, scheduleB).value;
    OutcomeIs(a, f, scheduleA, s);
    OutcomeIs(b, f, scheduleB, t);
    assert s.verdicts == t.verdicts;
  }

  // ---------------------------------------------------------------------------
  // Every run ends
  // ---------------------------------------------------------------------------

  function Potential(s: Pool): nat {
    2 * s.next + (if s.holding then 1 else 0) + |s.verdicts| + |s.numbers| + |s.reported|
    + |s.finished| + |s.left| + |s.panicked| + (if s.exitCode.Some? then 1 else 0)
  }

  lemma SubsetSize(a: set<nat>, n: nat)
    requires forall i :: i in a ==> i < n
    ensures |a| <= n
  {
    UpToIs(n);
    assert a <= UpTo(n);
    SubsetSmaller(a, UpTo(n));
  }

  lemma {:induction false} SubsetSmaller(a: set<nat>, b: set<nat>)
    requires a <= b
    ensures |a| <= |b|
    decreases a
  {
    if a != {} {
      var x :| x in a;
      SubsetSmaller(a - {x}, b - {x});
    }
  }

  /** Every step makes progress. */
  lemma StepRaisesPotential(cfg: Config, s: Pool, a: Action)
    requires Inv(cfg, s) && Enabled(cfg, s, a)
    ensures Potential(Apply(s, a)) == Potential(s) + 1
  {
    assert Local(cfg, s, Subject(s, a));
  }

  lemma PotentialBound(cfg: Config, s: Pool)
    requires Inv(cfg, s)
    ensures Potential(s) <= 8 * cfg.total + 1
  {
    forall i: nat
      ensures i in s.verdicts || i in s.numbers || i in s.reported || i in s.finished || i in s.left || i in s.panicked
        ==> i < cfg.total
    {
      assert Local(cfg, s, i);
    }
    assert |s.verdicts| == |s.verdicts.Keys| && |s.numbers| == |s.numbers.Keys|;
    SubsetSize(s.verdicts.Keys, cfg.total);
    SubsetSize(s.numbers.Keys, cfg.total);
    SubsetSize(s.reported, cfg.total);
    SubsetSize(s.finished, cfg.total);
    SubsetSize(s.left, cfg.total);
    SubsetSize(s.panicked, cfg.total);
  }

  lemma {:induction false} ScheduleLength(cfg: Config, schedule: seq<Action>)
    requires Exec(cfg, schedule).Some?
    ensures |schedule| == Potential(Exec(cfg, schedule).value)
  {
    if schedule != [] {
      var front := schedule[..|schedule| - 1];
      ScheduleLength(cfg, front);
      InvAlways(cfg, front);
      StepRaisesPotential(cfg, Exec(cfg, front).value, schedule[|schedule| - 1]);
    }
  }

  /** There is no infinite run. */
  lemma SchedulesAreShort(cfg: Config, schedule: seq<Action>)
    requires Exec(cfg, schedule).Some?
    ensures |schedule| <= 8 * cfg.total + 1
  {
    ScheduleLength(cfg, schedule);
    InvAlways(cfg, schedule);
    PotentialBound(cfg, Exec(cfg, schedule).value);
  }

  /** The environment has an answer for every run. */
  ghost predicate Answering(cfg: Config) {
    forall i: nat :: HasAnswer(cfg, i)
  }

  ghost predicate HasAnswer(cfg: Config, i: nat) {
    exists v :: cfg.allowed(i, v)
  }

  /** A state that has not exited can move, unless there are no workers to wait for. */
  lemma NoDeadlock(cfg: Config, s: Pool) returns (a: Action)
    requires Inv(cfg, s) && Answering(cfg) && s.exitCode == None
    requires cfg.workers > 0 || cfg.total == 0
    ensures Enabled(cfg, s, a)
  {
    if s.tasks != map[] {
      assert s.tasks.Keys != {};
      var i :| i in s.tasks;
      match s.tasks[i]
      case Running =>
        assert HasAnswer(cfg, i);
        var v :| cfg.allowed(i, v);
        a := Judge(i, v);
      case Counting => a := Count(i);
      case Reporting(_) => a := Report(i);
      case Finishing => a := Finish(i);
      case Leaving => a := Leave(i);
    } else if s.holding {
      a := Spawn;
    } else if s.next < cfg.total {
      a := Acquire;
    } else {
      a := Exit;
    }
  }

  /** Every schedule can be carried on to the exit. */
  lemma {:induction false} CanFinish(cfg: Config, schedule: seq<Action>) returns (whole: seq<Action>)
    requires Exec(cfg, schedule).Some? && Answering(cfg)
    requires cfg.workers > 0 || cfg.total == 0
    ensures schedule <= whole && Exec(cfg, whole).Some? && Exec(cfg, whole).value.exitCode.Some?
    decreases 8 * cfg.total + 1 - |schedule|
  {
    InvAlways(cfg, schedule);
    var s := Exec(cfg, schedule).value;
    if s.exitCode.Some? {
      whole := schedule;
    } else {
      var a := NoDeadlock(cfg, s);
      var longer := schedule + [a];
      assert longer[..|schedule|] == schedule;
      SchedulesAreShort(cfg, longer);
      whole := CanFinish(cfg, longer);
    }
  }

  ghost predicate Exits(cfg: Config) {
    exists schedule :: Exec(cfg, schedule).Some? && Exec(cfg, schedule).value.exitCode.Some?
  }

  lemma {:induction false} NoWorkersNoStep(cfg: Config, schedule: seq<Action>)
    requires cfg.workers == 0 && cfg.total > 0 && Exec(cfg, schedule).Some?
    ensures Exec(cfg, schedule).value == Initial(cfg)
  {
    if schedule != [] {
      NoWorkersNoStep(cfg, schedule[..|schedule| - 1]);
    }
  }

  /** The program can come to its end exactly if it has a worker or nothing to do. */
  lemma ExitsIff(cfg: Config)
    requires Answering(cfg)
    ensures Exits(cfg) <==> cfg.workers > 0 || cfg.total == 0
  {
    if cfg.workers > 0 || cfg.total == 0 {
      var whole := CanFinish(cfg, []);
    } else if Exits(cfg) {
      var schedule :| Exec(cfg, schedule).Some? && Exec(cfg, schedule).value.exitCode.Some?;
      NoWorkersNoStep(cfg, schedule);
    }
  }
}

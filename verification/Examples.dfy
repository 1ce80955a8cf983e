/**
 Servers that answer each Sync and Query with a ReadyForQuery and nothing else, and what
 becomes of sequences on which two such servers differ.
 */
module Examples {
  import opened Wrappers
  import opened Protocol
  import opened Ops
  import opened Runner
  import opened Comparator
  import opened Shrinker
  import opened ShrinkerTheorems
  import opened ShrinkerEmbedding
  import opened ShrinkerSearch
  import opened ShrinkerSmallest
  import opened RunnerTheorems
  import opened EndToEnd
  import opened OrderlyServers

  // ---------------------------------------------------------------------------
  // Status servers
  // ---------------------------------------------------------------------------

  /** The transaction state a server reports, given all it was sent through the request. */
  type Status = seq<FrontendMsg> -> string

  function Statuses(f: Status, msgs: seq<FrontendMsg>): seq<PgMessage> {
    if msgs == [] then []
    else Statuses(f, msgs[..|msgs| - 1]) + if IsRequest(msgs[|msgs| - 1]) then [ReadyForQuery(f(msgs))] else []
  }

  function StatusServer(f: Status): Backend {
    Backend(_ => None, (c: seq<Chunk>) => Trace(Statuses(f, Flat(c)), Silent))
  }

  lemma {:induction false} StatusesGrow(f: Status, a: seq<FrontendMsg>, b: seq<FrontendMsg>)
    ensures Statuses(f, a) <= Statuses(f, a + b)
  {
    if b == [] {
      assert a + b == a;
    } else {
      assert (a + b)[..|a + b| - 1] == a + b[..|b| - 1];
      StatusesGrow(f, a, b[..|b| - 1]);
    }
  }

  lemma {:induction false} StatusesAre(f: Status, msgs: seq<FrontendMsg>)
    ensures |Statuses(f, msgs)| == Readies(Statuses(f, msgs)) == Requests(msgs)
    ensures forall m :: m in Statuses(f, msgs) ==> m.ReadyForQuery?
  {
    if msgs != [] {
      var front := msgs[..|msgs| - 1];
      StatusesAre(f, front);
      if IsRequest(msgs[|msgs| - 1]) {
        ReadiesAppend(Statuses(f, front), [ReadyForQuery(f(msgs))]);
        assert [ReadyForQuery(f(msgs))][..0] == [];
      } else {
        assert Statuses(f, msgs) == Statuses(f, front);
      }
    }
  }

  /** Orderly servers exist: whatever they report, these are. */
  lemma StatusServersAreOrderly(f: Status)
    ensures Orderly(StatusServer(f))
  {
    var b := StatusServer(f);
    forall c, d ensures GrowsWithBytes(b, c, d) {
      if Flat(c) <= Flat(d) {
        assert Flat(c) + Flat(d)[|Flat(c)|..] == Flat(d);
        StatusesGrow(f, Flat(c), Flat(d)[|Flat(c)|..]);
      }
    }
    forall c ensures AnsweredOnce(b, c) {
      StatusesAre(f, Flat(c));
    }
    assert forall c :: FlushSucceeds(b, c);
  }

  lemma {:induction false} StatusesIgnoreTail(f: Status, a: seq<FrontendMsg>, b: seq<FrontendMsg>)
    requires Requests(b) == 0
    ensures Statuses(f, a + b) == Statuses(f, a)
  {
    if b == [] {
      assert a + b == a;
    } else {
      assert (a + b)[..|a + b| - 1] == a + b[..|b| - 1];
      StatusesIgnoreTail(f, a, b[..|b| - 1]);
    }
  }

  /** All the server sends is collected. */
  lemma AllCollected(f: Status, msgs: seq<FrontendMsg>)
    ensures Collected(Statuses(f, msgs), Silent, Requests(msgs)) == Events(Statuses(f, msgs))
  {
    var s := Statuses(f, msgs);
    StatusesAre(f, msgs);
    assert s[..|s|] == s;
    CutIs(s, |s|, |s|);
  }

  lemma StatusTransmits(f: Status, ops: seq<FrontendOp>)
    ensures Transmitted(StatusServer(f), FRESH.wire, ops).Success?
  {
    StatusServersAreOrderly(f);
    ReliableSends(StatusServer(f), FRESH.wire, ops);
  }

  /** What a status server is sent of a sequence, and what is not sent holds no request. */
  lemma StatusTold(f: Status, ops: seq<FrontendOp>) returns (told: seq<FrontendMsg>, rest: seq<FrontendMsg>)
    ensures Transmitted(StatusServer(f), FRESH.wire, ops).Success?
    ensures told == Flat(Transmitted(StatusServer(f), FRESH.wire, ops).value.sent)
    ensures EncodeAll(ops) == told + rest && Requests(told) == ExpectedReady(ops) && Requests(rest) == 0
  {
    StatusTransmits(f, ops);
    FlushDiscipline(StatusServer(f), FRESH.wire, ops);
    told, rest := EncodeAll(Told(ops)), EncodeAll(ops[|Told(ops)|..]);
    assert [] + told == told;
    EncodeAllAppend(Told(ops), ops[|Told(ops)|..]);
    assert Told(ops) + ops[|Told(ops)|..] == ops;
    RequestsEncoded(ops);
    RequestsAppend(told, rest);
  }

  /** What is recorded of a status server: a status for each request, in order. */
  lemma StatusReplies(f: Status, ops: seq<FrontendOp>)
    ensures Replies(StatusServer(f), FRESH.wire, 0, ops) == Events(Statuses(f, EncodeAll(ops)))
  {
    var told, rest := StatusTold(f, ops);
    StatusesIgnoreTail(f, told, rest);
    assert Drop(Statuses(f, told), 0) == Statuses(f, told);
    AllCollected(f, told);
  }

  // ---------------------------------------------------------------------------
  // Two servers that differ in a status
  // ---------------------------------------------------------------------------

  /** What a server fails on: the messages through some request. */
  type Fault = seq<FrontendMsg> -> bool

  function Healthy(): Status {
    _ => "Idle"
  }

  function Faulty(fault: Fault): Status {
    msgs => if fault(msgs) then "Failed" else "Idle"
  }

  /** The target reports a failed transaction where the oracle reports an idle one. */
  ghost predicate FailsOn(runner: DualRunner, fault: Fault) {
    && runner.setupStmts == []
    && (forall n :: runner.pgFactory(n) == Success(StatusServer(Healthy())))
    && (forall n :: runner.targetFactory(n) == Success(StatusServer(Faulty(fault))))
  }

  const STATUS_DIFFERS := DivergenceClass("ReadyForQuery", "ReadyForQuery")

  /** The server fails on some request. */
  predicate Troubled(fault: Fault, msgs: seq<FrontendMsg>) {
    msgs != [] && (Troubled(fault, msgs[..|msgs| - 1]) || (IsRequest(msgs[|msgs| - 1]) && fault(msgs)))
  }

  lemma SnocDiffers<T>(a: seq<T>, x: T, b: seq<T>, y: T)
    ensures a + [x] == b + [y] <==> a == b && x == y
  {
    if a + [x] == b + [y] {
      assert |a + [x]| == |b + [y]|;
      assert a == (a + [x])[..|a|] && b == (b + [y])[..|b|];
      assert x == (a + [x])[|a|] && y == (b + [y])[|b|];
    }
  }

  lemma {:induction false} StatusesDiffer(fault: Fault, msgs: seq<FrontendMsg>)
    ensures Statuses(Healthy(), msgs) != Statuses(Faulty(fault), msgs) <==> Troubled(fault, msgs)
  {
    if msgs != [] {
      var front := msgs[..|msgs| - 1];
      StatusesDiffer(fault, front);
      var a, b := Statuses(Healthy(), front), Statuses(Faulty(fault), front);
      if IsRequest(msgs[|msgs| - 1]) {
        SnocDiffers(a, ReadyForQuery(Healthy()(msgs)), b, ReadyForQuery(Faulty(fault)(msgs)));
        assert "Idle" != "Failed" by {
          assert |"Idle"| != |"Failed"|;
        }
      } else {
        assert Statuses(Healthy(), msgs) == a && Statuses(Faulty(fault), msgs) == b;
      }
    }
  }

  lemma NormalizedReady(front: seq<PgMessage>, last: PgMessage, s: seq<PgMessage>)
    requires last.ReadyForQuery? && s == front + [last]
    ensures NormalizedStream(Events(s)) == NormalizedStream(Events(front)) + [NReadyForQuery(last.status)]
  {
    EventsSnoc(s);
    assert s[..|s| - 1] == front;
    NormalizedSnoc(Events(front), Message(last));
  }

  lemma {:induction false} NormalizedReadies(s: seq<PgMessage>)
    requires forall m :: m in s ==> m.ReadyForQuery?
    ensures var n := NormalizedStream(Events(s));
      |n| == |s| && forall i :: 0 <= i < |s| ==> n[i] == NReadyForQuery(s[i].status)
  {
    if s != [] {
      var front, last := s[..|s| - 1], s[|s| - 1];
      NormalizedReadies(front);
      NormalizedReady(front, last, s);
    }
  }

  /** Two streams of equally many statuses differ, if at all, in a status on both sides. */
  lemma ReadiesCompared(a: seq<PgMessage>, b: seq<PgMessage>, ops: seq<FrontendOp>)
    requires |a| == |b| && (forall m :: m in a ==> m.ReadyForQuery?) && (forall m :: m in b ==> m.ReadyForQuery?)
    ensures var d := Compared(NormalizedStream(Events(a)), NormalizedStream(Events(b)), ops);
      (d.Some? <==> a != b) && (d.Some? ==> Classify(d.value) == STATUS_DIFFERS)
  {
    NormalizedReadies(a);
    NormalizedReadies(b);
    var x, y := NormalizedStream(Events(a)), NormalizedStream(Events(b));
    SameReadies(a, b, x, y);
    if x != y {
      StatusMismatch(x, y, ops);
    }
  }

  lemma SameReadies(a: seq<PgMessage>, b: seq<PgMessage>, x: seq<NormalizedMsg>, y: seq<NormalizedMsg>)
    requires |a| == |b| && (forall m :: m in a ==> m.ReadyForQuery?) && (forall m :: m in b ==> m.ReadyForQuery?)
    requires |x| == |a| && forall i :: 0 <= i < |a| ==> x[i] == NReadyForQuery(a[i].status)
    requires |y| == |b| && forall i :: 0 <= i < |b| ==> y[i] == NReadyForQuery(b[i].status)
    ensures x == y <==> a == b
  {
    if x == y {
      forall i | 0 <= i < |a| ensures a[i] == b[i] {
        assert x[i] == y[i] && a[i] in a && b[i] in b;
      }
    }
  }

  lemma StatusMismatch(x: seq<NormalizedMsg>, y: seq<NormalizedMsg>, ops: seq<FrontendOp>)
    requires |x| == |y| && x != y
    requires forall i :: 0 <= i < |x| ==> x[i].NReadyForQuery? && y[i].NReadyForQuery?
    ensures Compared(x, y, ops).Some? && Classify(Compared(x, y, ops).value) == STATUS_DIFFERS
  {
    var k := CommonPrefix(x, y);
    assert x[..|x|] == x && y[..|y|] == y;
  }

  /** The two servers diverge exactly where the target fails, and always in the same class. */
  lemma DivergesIff(runner: DualRunner, fault: Fault, n: nat, ops: seq<FrontendOp>)
    requires FailsOn(runner, fault)
    ensures runner.Outcome(n, ops).Success? && runner.Outcome(n, ops) == runner.Outcome(0, ops)
    ensures var d := Difference(runner.Outcome(n, ops), ops);
      (d.Some? <==> Troubled(fault, EncodeAll(ops))) && (d.Some? ==> Classify(d.value) == STATUS_DIFFERS)
  {
    var msgs := EncodeAll(ops);
    StatusReplies(Healthy(), ops);
    StatusReplies(Faulty(fault), ops);
    StatusesDiffer(fault, msgs);
    StatusesAre(Healthy(), msgs);
    StatusesAre(Faulty(fault), msgs);
    ReadiesCompared(Statuses(Healthy(), msgs), Statuses(Faulty(fault), msgs), ops);
  }

  lemma FaultRunnerIsOrderly(runner: DualRunner, fault: Fault)
    requires FailsOn(runner, fault)
    ensures SteadyRunner(runner) && OrderlyRun(runner, 0)
  {
    StatusServersAreOrderly(Healthy());
    StatusServersAreOrderly(Faulty(fault));
    FaultOracle(runner, fault);
  }

  /** Any fault gives an oracle that real servers have. */
  lemma FaultOracle(runner: DualRunner, fault: Fault)
    requires FailsOn(runner, fault)
    ensures SteadyRunner(runner) && Steady(OracleOf(runner, STATUS_DIFFERS))
    ensures forall c :: Reproducing(OracleOf(runner, STATUS_DIFFERS), c) <==> Troubled(fault, EncodeAll(c))
  {
    forall n, ops ensures runner.Outcome(n, ops) == runner.Outcome(0, ops) {
      DivergesIff(runner, fault, n, ops);
    }
    SteadyOracle(runner, STATUS_DIFFERS);
    forall c ensures Reproducing(OracleOf(runner, STATUS_DIFFERS), c) <==> Troubled(fault, EncodeAll(c)) {
      DivergesIff(runner, fault, 0, c);
      DifferenceShowsClass(runner, STATUS_DIFFERS, 0, c);
    }
  }

  lemma FaultOracleIsExtensible(runner: DualRunner, fault: Fault)
    requires FailsOn(runner, fault)
    ensures Extensible(OracleOf(runner, STATUS_DIFFERS))
  {
    FaultRunnerIsOrderly(runner, fault);
    MessageClassIsExtensible(runner, STATUS_DIFFERS);
  }

  // ---------------------------------------------------------------------------
  // The smallest reproducing case can be missed
  // ---------------------------------------------------------------------------

  /** A Sync fails as an even-numbered message after a leading query. */
  function EvenSync(): Fault {
    (msgs: seq<FrontendMsg>) => |msgs| > 0 && |msgs| % 2 == 0 && msgs[0].QueryMsg? && msgs[|msgs| - 1].SyncMsg?
  }

  const LONG := [Query("SELECT 1"), Flush, Flush, Sync]
  const SHORT := [Query("SELECT 1"), Sync]

  ghost predicate HasEvenSync(c: seq<FrontendOp>) {
    exists i :: 0 <= i < |c| && i % 2 == 1 && c[0].Query? && c[i].Sync?
  }

  lemma {:induction false} EncodeAllAt(ops: seq<FrontendOp>)
    ensures |EncodeAll(ops)| == |ops| && forall i :: 0 <= i < |ops| ==> EncodeAll(ops)[i] == EncodeOp(ops[i])
  {
    if ops != [] {
      EncodeAllAt(ops[..|ops| - 1]);
    }
  }

  lemma EvenSyncOn(msgs: seq<FrontendMsg>, first: FrontendOp, last: FrontendOp)
    requires msgs != [] && msgs[0] == EncodeOp(first) && msgs[|msgs| - 1] == EncodeOp(last)
    ensures IsRequest(msgs[|msgs| - 1]) && EvenSync()(msgs) <==> |msgs| % 2 == 0 && first.Query? && last.Sync?
  {
  }

  lemma EvenSyncAtEnd(c: seq<FrontendOp>, msgs: seq<FrontendMsg>)
    requires c != [] && msgs == EncodeAll(c)
    ensures msgs != []
    ensures IsRequest(msgs[|msgs| - 1]) && EvenSync()(msgs) <==> |c| % 2 == 0 && c[0].Query? && c[|c| - 1].Sync?
  {
    EncodeAllAt(c);
    EvenSyncOn(msgs, c[0], c[|c| - 1]);
  }

  lemma HasEvenSyncSnoc(c: seq<FrontendOp>)
    requires c != []
    ensures HasEvenSync(c) <==>
      HasEvenSync(c[..|c| - 1]) || (|c| % 2 == 0 && c[0].Query? && c[|c| - 1].Sync?)
  {
    var front := c[..|c| - 1];
    if HasEvenSync(front) {
      var i :| 0 <= i < |front| && i % 2 == 1 && front[0].Query? && front[i].Sync?;
      assert c[0].Query? && c[i].Sync?;
    }
    if HasEvenSync(c) {
      var i :| 0 <= i < |c| && i % 2 == 1 && c[0].Query? && c[i].Sync?;
      assert i < |front| ==> front[0].Query? && front[i].Sync?;
    }
  }

  lemma {:induction false} EvenSyncIs(c: seq<FrontendOp>)
    ensures Troubled(EvenSync(), EncodeAll(c)) <==> HasEvenSync(c)
  {
    if c != [] {
      EvenSyncIs(c[..|c| - 1]);
      EvenSyncAtEnd(c, EncodeAll(c));
      HasEvenSyncSnoc(c);
      assert EncodeAll(c)[..|EncodeAll(c)| - 1] == EncodeAll(c[..|c| - 1]);
    }
  }

  /** Without its query, or without its Sync as the fourth op, the sequence is harmless. */
  lemma PieceIsHarmless(c: seq<FrontendOp>, i: nat)
    requires i + |c| <= 4 && |c| < 4 && c == LONG[i..i + |c|]
    ensures !HasEvenSync(c)
  {
    assert forall k :: 0 <= k < |c| ==> c[k] == LONG[i + k];
  }

  lemma DeletionIsHarmless(i: nat)
    requires i < 4
    ensures !HasEvenSync(Without(LONG, i))
  {
    var c := Without(LONG, i);
    assert |c| == 3;
    assert c[0] == LONG[if i == 0 then 1 else 0] && c[1] == LONG[if i <= 1 then 2 else 1];
  }

  lemma NothingNearLong(c: seq<FrontendOp>)
    requires Neighbour(c, LONG)
    ensures !HasEvenSync(c)
  {
    var k :| 0 <= k < PASS_COUNT && Tries(KindAt(k), c, LONG);
    match KindAt(k)
    case SuffixTrim =>
      assert c == LONG[0..0 + |c|];
      PieceIsHarmless(c, 0);
    case PrefixTrim =>
      var i :| 0 < i <= |LONG| && c == LONG[i..];
      assert c == LONG[i..i + |c|];
      PieceIsHarmless(c, i);
    case SingleDeletion =>
      var i :| 0 <= i < |LONG| && c == Without(LONG, i);
      DeletionIsHarmless(i);
    case Subsequence =>
      ProbedInRange(1, 3, 4);
      var i :| 0 <= i <= |LONG| - |c| && Slice(LONG, i, |c|) == c;
      PieceIsHarmless(c, i);
    case NameSimplification => NothingToSimplify(c);
    case SqlSimplification => NothingToSimplify(c);
  }

  lemma NothingToSimplify(c: seq<FrontendOp>)
    ensures !IsRewriteOf(SimplifyNames, c, LONG) && !IsRewriteOf(SimplifySql, c, LONG)
  {
  }

  lemma NothingNearShort(c: seq<FrontendOp>)
    requires Neighbour(c, SHORT)
    ensures !HasEvenSync(c)
  {
    var k :| 0 <= k < PASS_COUNT && Tries(KindAt(k), c, SHORT);
    assert |c| < 2;
  }

  lemma EvenSyncOracle(runner: DualRunner, o: Oracle)
    requires FailsOn(runner, EvenSync()) && o == OracleOf(runner, STATUS_DIFFERS)
    ensures Steady(o) && Extensible(o)
    ensures forall c :: Reproducing(o, c) <==> HasEvenSync(c)
  {
    FaultOracle(runner, EvenSync());
    FaultOracleIsExtensible(runner, EvenSync());
    forall c ensures Reproducing(o, c) <==> HasEvenSync(c) {
      EvenSyncIs(c);
    }
  }

  lemma LongAndShort(o: Oracle)
    requires Steady(o) && forall c :: Reproducing(o, c) <==> HasEvenSync(c)
    ensures Reproducing(o, LONG) && Reproducing(o, SHORT) && Stuck(o, LONG) && Stuck(o, SHORT)
  {
    assert LONG[3].Sync? && LONG[0].Query? && SHORT[1].Sync? && SHORT[0].Query?;
    forall c | Neighbour(c, LONG) && c != [] ensures !o(0, c) {
      NothingNearLong(c);
      assert !Reproducing(o, c);
    }
    forall c | Neighbour(c, SHORT) && c != [] ensures !o(0, c) {
      NothingNearShort(c);
      assert !Reproducing(o, c);
    }
  }

  lemma ConditionsFail(o: Oracle)
    requires Reproducing(o, LONG) && Reproducing(o, SHORT) && Stuck(o, LONG) && Stuck(o, SHORT)
    ensures Embedded(SHORT, LONG) && !StepsSuffice(o) && !StuckAtOneLength(o)
  {
    assert EmbeddedVia(SHORT, LONG, [0, 3]);
    assert DerivedVia(SHORT, LONG, [0, 3]);
    assert |SHORT| != |LONG|;
  }

  lemma LongIsReported(runner: DualRunner) returns (original: Divergence)
    requires FailsOn(runner, EvenSync()) && Steady(OracleOf(runner, STATUS_DIFFERS))
    requires Reproducing(OracleOf(runner, STATUS_DIFFERS), LONG) && Stuck(OracleOf(runner, STATUS_DIFFERS), LONG)
    ensures ShrunkTo(runner, LONG, original, LONG) && Classify(original) == STATUS_DIFFERS
  {
    DifferenceShowsClass(runner, STATUS_DIFFERS, 0, LONG);
    original := Difference(runner.Outcome(0, LONG), LONG).value;
    FixedIff(OracleOf(runner, STATUS_DIFFERS), LONG, 0);
  }

  /**
   Two orderly, deterministic servers on which a sequence of four ops diverges and cannot
   be reduced by one step, though two of its ops diverge in the same class. So neither
   condition for a smallest result holds of them, and shrinking misses it.
   */
  lemma SmallestCanBeMissed(runner: DualRunner, o: Oracle) returns (original: Divergence)
    requires FailsOn(runner, EvenSync()) && o == OracleOf(runner, STATUS_DIFFERS)
    ensures SteadyRunner(runner) && OrderlyRun(runner, 0)
    ensures ShrunkTo(runner, LONG, original, LONG) && Classify(original) == STATUS_DIFFERS
    ensures Embedded(SHORT, LONG) && |SHORT| < |LONG| && Reproducing(o, SHORT)
    ensures Steady(o) && Extensible(o) && !StepsSuffice(o) && !StuckAtOneLength(o)
  {
    FaultRunnerIsOrderly(runner, EvenSync());
    EvenSyncOracle(runner, o);
    LongAndShort(o);
    ConditionsFail(o);
    original := LongIsReported(runner);
  }

  /** Such servers can be had. */
  method EvenSyncRunner() returns (runner: DualRunner)
    ensures fresh(runner) && runner.runs == 0 && FailsOn(runner, EvenSync())
  {
    runner := new DualRunner(
      _ => Success(StatusServer(Healthy())), _ => Success(StatusServer(Faulty(EvenSync()))), []);
  }

  // ---------------------------------------------------------------------------
  // The smallest reproducing case can be cut off
  // ---------------------------------------------------------------------------

  /** Any Query fails, and a Sync right after a Flush. */
  function QueryOrFlushed(): Fault {
    (msgs: seq<FrontendMsg>) => |msgs| > 0
      && (msgs[|msgs| - 1].QueryMsg?
          || (|msgs| > 1 && msgs[|msgs| - 2].FlushMsg? && msgs[|msgs| - 1].SyncMsg?))
  }

  const KEPT := [Flush, Sync]
  const CUT_OFF := [Query("SELECT 1")]

  lemma EncodeOne(op: FrontendOp)
    ensures EncodeAll([op]) == [EncodeOp(op)]
  {
    assert [op][..0] == [];
  }

  lemma TroubleOfMessage(msg: FrontendMsg)
    ensures Troubled(QueryOrFlushed(), [msg]) <==> msg.QueryMsg?
  {
    assert [msg][..0] == [];
  }

  lemma TroubleOfOne(op: FrontendOp)
    ensures Troubled(QueryOrFlushed(), EncodeAll([op])) <==> op.Query?
  {
    EncodeOne(op);
    TroubleOfMessage(EncodeOp(op));
  }

  lemma KeptIsTroubled()
    ensures Troubled(QueryOrFlushed(), EncodeAll(KEPT))
  {
    EncodeAllAt(KEPT);
    var msgs := EncodeAll(KEPT);
    assert msgs[0] == FlushMsg && msgs[1] == SyncMsg;
  }

  lemma NothingNearKept(c: seq<FrontendOp>)
    requires Neighbour(c, KEPT) && c != []
    ensures c == [Flush] || c == [Sync]
  {
    var k :| 0 <= k < PASS_COUNT && Tries(KindAt(k), c, KEPT);
    assert |c| == 1;
    if k == 0 {
      assert c[0] == KEPT[0];
    } else if k == 1 {
      var i :| 0 < i <= |KEPT| && c == KEPT[i..];
      assert c[0] == KEPT[1];
    }
  }

  lemma KeptIsStuck(o: Oracle)
    requires forall c :: Reproducing(o, c) <==> Troubled(QueryOrFlushed(), EncodeAll(c))
    ensures Reproducing(o, KEPT) && Reproducing(o, CUT_OFF) && Stuck(o, KEPT)
  {
    KeptIsTroubled();
    TroubleOfOne(CUT_OFF[0]);
    TroubleOfOne(Flush);
    TroubleOfOne(Sync);
    forall c | Neighbour(c, KEPT) && c != [] ensures !o(0, c) {
      NothingNearKept(c);
      assert !Reproducing(o, c);
    }
  }

  lemma CutOffIsEmbedded()
    ensures Embedded(CUT_OFF, KEPT + CUT_OFF) && |CUT_OFF| < |KEPT|
  {
    assert EmbeddedVia(CUT_OFF, KEPT + CUT_OFF, [2]);
  }

  /**
   Two orderly, deterministic servers and a sequence whose last op alone diverges in the
   class of the whole, but shrinking keeps its first two and cuts that one off.
   */
  lemma SmallestCanBeCutOff(runner: DualRunner, o: Oracle, clock: nat)
    requires FailsOn(runner, QueryOrFlushed()) && o == OracleOf(runner, STATUS_DIFFERS)
    ensures SteadyRunner(runner) && OrderlyRun(runner, 0)
    ensures Reproducing(o, KEPT + CUT_OFF) && Shrunk(o, KEPT + CUT_OFF, clock).ops == KEPT
    ensures Reproducing(o, CUT_OFF) && Embedded(CUT_OFF, KEPT + CUT_OFF) && |CUT_OFF| < |KEPT|
    ensures !AlwaysShortest(o)
  {
    FaultRunnerIsOrderly(runner, QueryOrFlushed());
    FaultOracle(runner, QueryOrFlushed());
    FaultOracleIsExtensible(runner, QueryOrFlushed());
    KeptIsStuck(o);
    CutOffIsEmbedded();
    CutOffIsMissed(o, clock);
  }

  lemma CutOffIsMissed(o: Oracle, clock: nat)
    requires Steady(o) && Extensible(o) && Reproducing(o, KEPT) && Reproducing(o, CUT_OFF) && Stuck(o, KEPT)
    ensures Reproducing(o, KEPT + CUT_OFF) && Shrunk(o, KEPT + CUT_OFF, clock).ops == KEPT
    ensures !AlwaysShortest(o)
  {
    var ops := KEPT + CUT_OFF;
    assert Reproducing(o, ops);
    StuckPrefixWins(o, KEPT, CUT_OFF, clock);
    assert ops[2..3] == CUT_OFF;
    WindowDerived(ops, 2, 3);
    assert |Shrunk(o, ops, clock).ops| > |CUT_OFF|;
    assert AlwaysShortest(o) ==> ShortestFrom(o, ops, Shrunk(o, ops, clock).ops);
  }

  /** Such servers can be had. */
  method CutOffRunner() returns (runner: DualRunner)
    ensures fresh(runner) && runner.runs == 0 && FailsOn(runner, QueryOrFlushed())
  {
    runner := new DualRunner(
      _ => Success(StatusServer(Healthy())), _ => Success(StatusServer(Faulty(QueryOrFlushed()))), []);
  }
}

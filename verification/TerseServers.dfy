/** Servers that are not well-behaved, and whose results are always shortest all the same. */
module TerseServers {
  import opened Wrappers
  import opened Protocol
  import opened Ops
  import opened Runner
  import opened Comparator
  import opened Shrinker
  import opened ShrinkerTheorems
  import opened ShrinkerEmbedding
  import opened ShrinkerSmallest
  import opened RunnerTheorems
  import opened EndToEnd
  import opened OrderlyServers
  import opened Examples

  /** Everything sent is a single Sync, or just two Flushes. */
  predicate IsCue(msgs: seq<FrontendMsg>) {
    msgs == [SyncMsg] || msgs == [FlushMsg, FlushMsg]
  }

  /** A server that sends a status if it was sent exactly this, and is silent otherwise. */
  function Terse(status: string): Backend {
    Backend(_ => None, (c: seq<Chunk>) => Trace(if IsCue(Flat(c)) then [ReadyForQuery(status)] else [], Silent))
  }

  ghost predicate AreTerse(runner: DualRunner) {
    && runner.setupStmts == []
    && (forall n :: runner.pgFactory(n) == Success(Terse("Idle")))
    && (forall n :: runner.targetFactory(n) == Success(Terse("Failed")))
  }

  function Cued(cue: bool, status: string, n: nat): seq<ResponseEvent> {
    if cue then [Message(ReadyForQuery(status))] else if n > 0 then [Timeout] else []
  }

  lemma OneReady(status: string, n: nat)
    requires n <= 1
    ensures Collected([ReadyForQuery(status)], Silent, n) == [Message(ReadyForQuery(status))]
  {
    var msgs := [ReadyForQuery(status)];
    assert msgs[..1] == msgs && msgs[..0] == [];
    assert Readies(msgs) == 1;
    CutIs(msgs, 1, 1);
  }

  lemma CueRequests(msgs: seq<FrontendMsg>)
    requires IsCue(msgs)
    ensures Requests(msgs) <= 1
  {
    assert msgs[..|msgs| - 1] == [] || msgs[..|msgs| - 1] == [FlushMsg];
    assert [FlushMsg][..0] == [];
  }

  lemma TerseReplies(status: string, ops: seq<FrontendOp>)
    ensures Replies(Terse(status), FRESH.wire, 0, ops) == Cued(IsCue(EncodeAll(Told(ops))), status, ExpectedReady(ops))
  {
    var b := Terse(status);
    assert forall c :: FlushSucceeds(b, c);
    var sent := SentToOrderly(b, FRESH, ops);
    var told := EncodeAll(Told(ops));
    assert Flat(FRESH.wire.sent) == [] && [] + told == told;
    var msgs := b.respond(sent).msgs;
    assert Drop(msgs, 0) == msgs;
    if IsCue(told) {
      CueRequests(told);
      OneReady(status, ExpectedReady(ops));
    }
  }

  /** The two diverge exactly on the sequences of which just a cue is sent. */
  lemma TerseDivergesIff(runner: DualRunner, n: nat, ops: seq<FrontendOp>)
    requires AreTerse(runner)
    ensures runner.Outcome(n, ops).Success? && runner.Outcome(n, ops) == runner.Outcome(0, ops)
    ensures var d := Difference(runner.Outcome(n, ops), ops);
      (d.Some? <==> IsCue(EncodeAll(Told(ops)))) && (d.Some? ==> Classify(d.value) == STATUS_DIFFERS)
  {
    TerseReplies("Idle", ops);
    TerseReplies("Failed", ops);
    if IsCue(EncodeAll(Told(ops))) {
      CuesDiffer(ops);
    }
  }

  lemma CuesDiffer(ops: seq<FrontendOp>)
    ensures var d := Compared(NormalizedStream([Message(ReadyForQuery("Idle"))]),
                              NormalizedStream([Message(ReadyForQuery("Failed"))]), ops);
      d.Some? && Classify(d.value) == STATUS_DIFFERS
  {
    var a, b := [ReadyForQuery("Idle")], [ReadyForQuery("Failed")];
    assert Events(a) == [Message(a[0])] && Events(b) == [Message(b[0])];
    assert |a[0].status| != |b[0].status|;
    ReadiesCompared(a, b, ops);
  }

  const CUE_ONE := [Sync]
  const CUE_TWO := [Flush, Flush]

  /** A sequence that amounts to a cue: the cue, and ops that are never sent. */
  ghost predicate CuedBy(ops: seq<FrontendOp>, cue: seq<FrontendOp>) {
    cue <= ops && forall op :: op in ops[|cue|..] ==> !op.TriggersFlush()
  }

  lemma CuedByTold(ops: seq<FrontendOp>, cue: seq<FrontendOp>)
    requires cue == CUE_ONE || cue == CUE_TWO
    ensures CuedBy(ops, cue) <==> EncodeAll(Told(ops)) == EncodeAll(cue)
  {
    if CuedBy(ops, cue) {
      CueIsTold(ops, cue);
    }
    if EncodeAll(Told(ops)) == EncodeAll(cue) {
      SameOps(Told(ops), cue);
      ToldIsCued(ops, cue);
    }
  }

  lemma ToldIsCued(ops: seq<FrontendOp>, cue: seq<FrontendOp>)
    requires (cue == CUE_ONE || cue == CUE_TWO) && Told(ops) == cue
    ensures CuedBy(ops, cue)
  {
    ToldIsPrefix(ops);
    CueHasTrigger(ops, cue);
    TailSpec(ops);
    EncodedParts(ops);
  }

  lemma CueHasTrigger(ops: seq<FrontendOp>, cue: seq<FrontendOp>)
    requires cue == CUE_ONE || cue == CUE_TWO
    requires cue <= ops
    ensures HasTrigger(ops)
  {
    HasTriggerIs(ops);
    assert ops[0] == cue[0] && ops[0].TriggersFlush();
  }

  lemma CueIsTold(ops: seq<FrontendOp>, cue: seq<FrontendOp>)
    requires (cue == CUE_ONE || cue == CUE_TWO) && CuedBy(ops, cue)
    ensures Told(ops) == cue
  {
    CueHasTrigger(ops, cue);
    ToldIsPrefix(ops);
    var k, n := |cue|, |Told(ops)|;
    assert ops[k - 1] == cue[k - 1] && ops[k - 1].TriggersFlush();
    TriggerIsTold(ops, k - 1);
    assert n == k;
  }

  lemma SameOps(a: seq<FrontendOp>, cue: seq<FrontendOp>)
    requires (cue == CUE_ONE || cue == CUE_TWO) && EncodeAll(a) == EncodeAll(cue)
    ensures a == cue
  {
    EncodeAllAt(a);
    EncodeAllAt(cue);
    forall i | 0 <= i < |a| ensures a[i] == cue[i] {
      assert EncodeOp(a[i]) == EncodeOp(cue[i]);
    }
  }

  lemma CuesEncoded()
    ensures EncodeAll(CUE_ONE) == [SyncMsg] && EncodeAll(CUE_TWO) == [FlushMsg, FlushMsg]
  {
    EncodeAllAt(CUE_ONE);
    EncodeAllAt(CUE_TWO);
  }

  lemma TerseOracle(runner: DualRunner, o: Oracle)
    requires AreTerse(runner) && o == OracleOf(runner, STATUS_DIFFERS)
    ensures Steady(o)
    ensures forall c :: Reproducing(o, c) <==> CuedBy(c, CUE_ONE) || CuedBy(c, CUE_TWO)
  {
    forall n, ops ensures runner.Outcome(n, ops) == runner.Outcome(0, ops) {
      TerseDivergesIff(runner, n, ops);
    }
    SteadyOracle(runner, STATUS_DIFFERS);
    CuesEncoded();
    forall c ensures Reproducing(o, c) <==> CuedBy(c, CUE_ONE) || CuedBy(c, CUE_TWO) {
      TerseDivergesIff(runner, 0, c);
      DifferenceShowsClass(runner, STATUS_DIFFERS, 0, c);
      CuedByTold(c, CUE_ONE);
      CuedByTold(c, CUE_TWO);
    }
  }

  ghost predicate IsTerseOracle(o: Oracle) {
    Steady(o) && forall c :: Reproducing(o, c) <==> CuedBy(c, CUE_ONE) || CuedBy(c, CUE_TWO)
  }

  lemma CuesAreApart(c: seq<FrontendOp>, cue: seq<FrontendOp>)
    requires (cue == CUE_ONE || cue == CUE_TWO) && Neighbour(c, cue)
    ensures !CuedBy(c, CUE_ONE) && !CuedBy(c, CUE_TWO)
  {
    var k :| 0 <= k < PASS_COUNT && Tries(KindAt(k), c, cue);
    if k <= 2 {
      assert |c| < |cue|;
      assert forall x :: x in c ==> x in cue;
      assert c != [] ==> c[0] in cue;
    }
  }

  lemma CuesAreStuck(o: Oracle, cue: seq<FrontendOp>)
    requires IsTerseOracle(o) && (cue == CUE_ONE || cue == CUE_TWO)
    ensures Reproducing(o, cue) && Stuck(o, cue)
  {
    assert CuedBy(cue, cue);
    forall c | Neighbour(c, cue) && c != [] ensures !o(0, c) {
      CuesAreApart(c, cue);
      assert !Reproducing(o, c);
    }
  }

  lemma NoSyncAfterFlushes(ops: seq<FrontendOp>, i: nat)
    requires CuedBy(ops, CUE_TWO) && i < |ops|
    ensures !ops[i].Sync?
  {
    if i < 2 {
      assert ops[i] == CUE_TWO[i];
    } else {
      assert |CUE_TWO| == 2 && ops[2..][i - 2] == ops[i];
      assert ops[i] in ops[|CUE_TWO|..];
    }
  }

  lemma SimplerThanSync(y: FrontendOp)
    requires SimplerForm(Sync, y)
    ensures y.Sync?
  {
    RewritesAreOrderly(y);
    RewritesAreOrderly(PlainSql(y));
  }

  /** The one-op cue cannot be made of a sequence cued by two Flushes. */
  lemma NoSyncInside(a: seq<FrontendOp>, ops: seq<FrontendOp>)
    requires CuedBy(a, CUE_ONE) && CuedBy(ops, CUE_TWO)
    ensures !Derived(a, ops)
  {
    if Derived(a, ops) {
      var m :| DerivedVia(a, ops, m);
      assert a[0] == CUE_ONE[0];
      SimplerThanSync(ops[m[0]]);
      NoSyncAfterFlushes(ops, m[0]);
    }
  }

  lemma CueResult(o: Oracle, ops: seq<FrontendOp>, cue: seq<FrontendOp>, clock: nat)
    requires IsTerseOracle(o) && (cue == CUE_ONE || cue == CUE_TWO) && CuedBy(ops, cue)
    ensures Shrunk(o, ops, clock).ops == cue
  {
    CuesAreStuck(o, cue);
    assert ops == cue + ops[|cue|..];
    StuckPrefixWins(o, cue, ops[|cue|..], clock);
  }

  lemma TerseIsShortest(o: Oracle)
    requires IsTerseOracle(o)
    ensures AlwaysShortest(o)
  {
    forall ops, clock, a | Reproducing(o, ops) && Reproducing(o, a) && Derived(a, ops)
      ensures |Shrunk(o, ops, clock).ops| <= |a|
    {
      if CuedBy(ops, CUE_ONE) {
        CueResult(o, ops, CUE_ONE, clock);
      } else {
        CueResult(o, ops, CUE_TWO, clock);
        if CuedBy(a, CUE_ONE) {
          NoSyncInside(a, ops);
        }
      }
    }
  }

  lemma TerseIsNeither(o: Oracle)
    requires IsTerseOracle(o)
    ensures !Extensible(o) && !StuckAtOneLength(o)
  {
    CuesAreStuck(o, CUE_ONE);
    CuesAreStuck(o, CUE_TWO);
    assert |CUE_ONE| != |CUE_TWO|;
    var twice := CUE_ONE + CUE_ONE;
    assert twice[0] == Sync && twice[1..][0] == Sync && Sync in twice[1..];
    assert !Reproducing(o, twice);
  }

  /**
   Two deterministic servers, not well-behaved, whose results are always shortest though
   one sequence without a reproducing neighbour has one op and another has two: no
   sequence holds both, because appending ops turns their oracle off.
   */
  lemma OneLengthIsNotNeeded(runner: DualRunner, o: Oracle)
    requires AreTerse(runner) && o == OracleOf(runner, STATUS_DIFFERS)
    ensures Steady(o) && !Extensible(o) && AlwaysShortest(o) && !StuckAtOneLength(o)
  {
    TerseOracle(runner, o);
    TerseIsShortest(o);
    TerseIsNeither(o);
  }

  /** Such servers can be had. */
  method TerseRunner() returns (runner: DualRunner)
    ensures fresh(runner) && runner.runs == 0 && AreTerse(runner)
  {
    runner := new DualRunner(_ => Success(Terse("Idle")), _ => Success(Terse("Failed")), []);
  }
}

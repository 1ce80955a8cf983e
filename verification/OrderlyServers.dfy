/**
 Servers that do exactly what the runner expects of them (src/runner.rs): one
 ReadyForQuery for each Sync and Query. Against two of these the first mismatch of a
 sequence stays what it is however the sequence goes on, with or without a Sync or Query.
 */
module OrderlyServers {
  import opened Wrappers
  import opened Protocol
  import opened Ops
  import opened Runner
  import opened Comparator
  import opened Shrinker
  import opened ShrinkerTheorems
  import opened ShrinkerSmallest
  import opened RunnerTheorems
  import opened EndToEnd

  /** What was sent is not taken back, and does not depend on how it was asked for in flushes. */
  ghost predicate GrowsWithBytes(b: Backend, c: seq<Chunk>, d: seq<Chunk>) {
    Flat(c) <= Flat(d) ==> b.respond(c).msgs <= b.respond(d).msgs
  }

  ghost predicate AnsweredOnce(b: Backend, c: seq<Chunk>) {
    Readies(b.respond(c).msgs) == Requests(Flat(c))
  }

  ghost predicate Orderly(b: Backend) {
    && Reliable(b)
    && (forall c, d :: GrowsWithBytes(b, c, d))
    && (forall c :: AnsweredOnce(b, c))
  }

  lemma OrderlyIsWellBehaved(b: Backend)
    requires Orderly(b)
    ensures WellBehaved(b)
  {
    forall c, d ensures Grows(b, c, d) {
      FlatAppend(c, d);
      assert GrowsWithBytes(b, c, c + d);
    }
    forall c ensures AllAnswered(b, c) {
      assert AnsweredOnce(b, c);
    }
  }

  // ---------------------------------------------------------------------------
  // One side of a run
  // ---------------------------------------------------------------------------

  lemma TriggerIsTold(ops: seq<FrontendOp>, i: nat)
    requires i < |ops| && ops[i].TriggersFlush()
    ensures i < |Told(ops)|
  {
    TailSpec(ops);
    HasTriggerIs(ops);
    var tail := AfterLastTrigger(ops);
    assert forall op :: op in ops[|ops| - |tail|..] ==> !op.TriggersFlush();
  }

  lemma ToldIsPrefix(ops: seq<FrontendOp>)
    ensures Told(ops) <= ops
    ensures HasTrigger(ops) ==> Told(ops) != [] && Told(ops)[|Told(ops)| - 1].TriggersFlush()
    ensures !HasTrigger(ops) ==> Told(ops) == ops
  {
    TailSpec(ops);
  }

  /** A longer sequence gets no less across. */
  lemma ToldGrows(p: seq<FrontendOp>, t: seq<FrontendOp>)
    ensures Told(p) <= Told(p + t)
  {
    ToldIsPrefix(p);
    ToldIsPrefix(p + t);
    HasTriggerIs(p);
    HasTriggerIs(p + t);
    if HasTrigger(p) {
      TriggerIsTold(p + t, |Told(p)| - 1);
    } else if HasTrigger(p + t) {
      var i :| 0 <= i < |p + t| && (p + t)[i].TriggersFlush();
      TriggerIsTold(p + t, i);
    }
  }

  lemma EncodedGrows(a: seq<FrontendOp>, b: seq<FrontendOp>)
    requires a <= b
    ensures EncodeAll(a) <= EncodeAll(b)
  {
    EncodeAllAppend(a, b[|a|..]);
    assert a + b[|a|..] == b;
  }

  /** What an orderly server has been sent by the time it is listened to. */
  lemma SentToOrderly(b: Backend, r: Ready, ops: seq<FrontendOp>) returns (sent: seq<Chunk>)
    requires Reliable(b) && r.wire.pending == []
    ensures r.wire.sent <= sent && Flat(sent) == Flat(r.wire.sent) + EncodeAll(Told(ops))
    ensures Requests(Flat(sent)) == Requests(Flat(r.wire.sent)) + ExpectedReady(ops)
    ensures Replies(b, r.wire, r.received, ops) == CollectedFrom(b.respond(sent), r.received, ExpectedReady(ops))
  {
    ReliableSends(b, r.wire, ops);
    var w := SendAll(b, r.wire, ops).value;
    assert FlushSucceeds(b, w.sent + [w.pending]);
    FlushDiscipline(b, r.wire, ops);
    sent := Transmitted(b, r.wire, ops).value.sent;
  }

  /** The messages of a stream that are collected when it brings exactly what is waited for. */
  function Awaited(msgs: seq<PgMessage>, n: nat): seq<PgMessage>
    requires n == Readies(msgs)
  {
    if n == 0 then msgs else msgs[..Cut(msgs, n)]
  }

  /** These messages, and possibly the end of the connection. */
  ghost predicate Side(events: seq<ResponseEvent>, msgs: seq<PgMessage>) {
    events == Events(msgs) || exists error :: events == Events(msgs) + [Disconnected(error)]
  }

  lemma CollectedSide(msgs: seq<PgMessage>, end: End, n: nat)
    requires n == Readies(msgs)
    ensures Side(Collected(msgs, end, n), Awaited(msgs, n))
  {
    match end
    case Closed(error) =>
    case Silent => assert n == 0 ==> Events(msgs) + [] == Events(msgs);
  }

  lemma AwaitedGrows(a: seq<PgMessage>, b: seq<PgMessage>, n: nat, n': nat)
    requires a <= b && n == Readies(a) && n' == Readies(b)
    ensures Awaited(a, n) <= Awaited(b, n')
  {
    ReadiesOfPrefix(b, |a|);
    assert b[..|a|] == a;
    if n > 0 {
      CutEndsInReady(a, n);
      assert b[..Cut(a, n)] == a[..Cut(a, n)];
      CutIs(b, n, Cut(a, n));
      CutGrows(b, n, n');
    } else if n' > 0 && Cut(b, n') < |a| {
      assert b[..Cut(b, n')] == a[..Cut(b, n')];
      ReadiesOfPrefix(a, Cut(b, n'));
    }
  }

  /** What an orderly server has sent since setup brings exactly what has been asked for since. */
  lemma SinceSetup(b: Backend, r: Ready, sent: seq<Chunk>, k: nat, n: nat)
    requires Orderly(b) && AtReady(b, r, k) && r.wire.sent <= sent && Requests(Flat(sent)) == k + n
    ensures var msgs := b.respond(sent).msgs;
      r.received <= |msgs| && Readies(msgs[r.received..]) == n
  {
    OrderlyIsWellBehaved(b);
    StillAtReady(b, r, sent, k);
    var msgs := b.respond(sent).msgs;
    assert AnsweredOnce(b, sent);
    assert msgs == msgs[..r.received] + msgs[r.received..];
    ReadiesAppend(msgs[..r.received], msgs[r.received..]);
  }

  lemma SideFrom(b: Backend, r: Ready, k: nat, sent: seq<Chunk>, n: nat) returns (x: seq<PgMessage>)
    requires Orderly(b) && AtReady(b, r, k) && r.wire.sent <= sent && Requests(Flat(sent)) == k + n
    ensures r.received <= |b.respond(sent).msgs| && Readies(b.respond(sent).msgs[r.received..]) == n
    ensures x == Awaited(b.respond(sent).msgs[r.received..], n)
    ensures Side(CollectedFrom(b.respond(sent), r.received, n), x)
  {
    SinceSetup(b, r, sent, k, n);
    var rest := b.respond(sent).msgs[r.received..];
    x := Awaited(rest, n);
    CollectedSide(rest, b.respond(sent).end, n);
  }

  lemma SidesFrom(b: Backend, r: Ready, k: nat, p: seq<FrontendOp>, t: seq<FrontendOp>)
    returns (x: seq<PgMessage>, x': seq<PgMessage>)
    requires Orderly(b) && AtReady(b, r, k) && Requests(Flat(r.wire.sent)) == k
    ensures Side(Replies(b, r.wire, r.received, p), x) && Side(Replies(b, r.wire, r.received, p + t), x') && x <= x'
  {
    var sent := SentToOrderly(b, r, p);
    var more := SentToOrderly(b, r, p + t);
    ToldGrows(p, t);
    EncodedGrows(Told(p), Told(p + t));
    assert GrowsWithBytes(b, sent, more);
    x := SideFrom(b, r, k, sent, ExpectedReady(p));
    x' := SideFrom(b, r, k, more, ExpectedReady(p + t));
    AwaitedGrows(b.respond(sent).msgs[r.received..], b.respond(more).msgs[r.received..],
                 ExpectedReady(p), ExpectedReady(p + t));
  }

  /** What follows in a sequence adds to the messages of an orderly server and takes none away. */
  lemma SidesGrow(b: Backend, stmts: seq<string>, p: seq<FrontendOp>, t: seq<FrontendOp>)
    returns (x: seq<PgMessage>, x': seq<PgMessage>)
    requires Orderly(b) && SetUp(b, FRESH, stmts).Success?
    ensures var r := SetUp(b, FRESH, stmts).value;
      Side(Replies(b, r.wire, r.received, p), x) && Side(Replies(b, r.wire, r.received, p + t), x') && x <= x'
  {
    OrderlyIsWellBehaved(b);
    SetUpAtReady(b, stmts);
    SetUpRequests(b, stmts);
    x, x' := SidesFrom(b, SetUp(b, FRESH, stmts).value, |stmts|, p, t);
  }

  // ---------------------------------------------------------------------------
  // Both sides
  // ---------------------------------------------------------------------------

  /** A normalized stream that goes beyond its messages at most by the end of the connection. */
  predicate Closing(s: seq<NormalizedMsg>, core: seq<NormalizedMsg>) {
    core <= s && |s| <= |core| + 1 && (|s| == |core| + 1 ==> s[|core|].NDisconnected?)
  }

  lemma SideCloses(events: seq<ResponseEvent>, msgs: seq<PgMessage>)
    requires Side(events, msgs)
    ensures Closing(NormalizedStream(events), NormalizedStream(Events(msgs)))
  {
    if events != Events(msgs) {
      var error :| events == Events(msgs) + [Disconnected(error)];
      NormalizedSnoc(Events(msgs), Disconnected(error));
    }
  }

  lemma EventsGrow(x: seq<PgMessage>, y: seq<PgMessage>)
    requires x <= y
    ensures NormalizedStream(Events(x)) <= NormalizedStream(Events(y))
  {
    assert Events(x) <= Events(y);
    NormalizedGrows(Events(x), Events(y));
  }

  /** A class in which both servers have sent a message. */
  predicate IsMessageClass(cls: DivergenceClass) {
    && cls.expectedKind != "EndOfStream" && cls.expectedKind != "Disconnected"
    && cls.actualKind != "EndOfStream" && cls.actualKind != "Disconnected"
  }

  lemma MessageClassIs(d: Divergence)
    requires IsMessageClass(Classify(d))
    ensures d.expected.Some? && !d.expected.value.NDisconnected? && d.actual.Some? && !d.actual.value.NDisconnected?
  {
  }

  /** A mismatch of two messages lies before any end of a connection. */
  lemma MismatchOfMessages(
    a: seq<NormalizedMsg>, b: seq<NormalizedMsg>, x: seq<NormalizedMsg>, y: seq<NormalizedMsg>, ops: seq<FrontendOp>)
    requires Closing(a, x) && Closing(b, y) && Compared(a, b, ops).Some?
    requires IsMessageClass(Classify(Compared(a, b, ops).value))
    ensures Compared(x, y, ops) == Compared(a, b, ops)
  {
    var d := Compared(a, b, ops).value;
    MessageClassIs(d);
    var k := CommonPrefix(a, b);
    assert k < |x| && k < |y|;
    assert x[..k] == a[..k] && y[..k] == b[..k];
    CommonPrefixIs(x, y, k);
    assert x[k] == a[k] && y[k] == b[k];
  }

  ghost predicate OrderlyRun(runner: DualRunner, n: nat) {
    && (runner.pgFactory(n).Success? ==> Orderly(runner.pgFactory(n).value))
    && (runner.targetFactory(n).Success? ==> Orderly(runner.targetFactory(n).value))
  }

  lemma MismatchCarries(
    a: seq<NormalizedMsg>, b: seq<NormalizedMsg>, x: seq<NormalizedMsg>, y: seq<NormalizedMsg>,
    a': seq<NormalizedMsg>, b': seq<NormalizedMsg>, ops: seq<FrontendOp>)
    requires Closing(a, x) && Closing(b, y) && x <= a' && y <= b' && Compared(a, b, ops).Some?
    requires IsMessageClass(Classify(Compared(a, b, ops).value))
    ensures Compared(a', b', ops) == Compared(a, b, ops)
  {
    MismatchOfMessages(a, b, x, y, ops);
    MessageClassIs(Compared(a, b, ops).value);
    MismatchStays(x, y, a', b', ops);
  }

  /** What is normalized of one side, and what of it is messages, shorter and longer. */
  lemma SideGrows(a: seq<ResponseEvent>, x: seq<PgMessage>, a': seq<ResponseEvent>, x': seq<PgMessage>)
    returns (core: seq<NormalizedMsg>)
    requires Side(a, x) && Side(a', x') && x <= x'
    ensures Closing(NormalizedStream(a), core) && core <= NormalizedStream(a')
  {
    core := NormalizedStream(Events(x));
    SideCloses(a, x);
    SideCloses(a', x');
    EventsGrow(x, x');
  }

  /**
   However a sequence that diverges on two orderly servers goes on, its first mismatch
   stays where and what it is, if it is one of messages.
   */
  lemma MessageMismatchStays(runner: DualRunner, n: nat, p: seq<FrontendOp>, t: seq<FrontendOp>)
    requires OrderlyRun(runner, n)
    requires var d := Difference(runner.Outcome(n, p), p); d.Some? && IsMessageClass(Classify(d.value))
    ensures Difference(runner.Outcome(n, p + t), p + t)
         == Some(Difference(runner.Outcome(n, p), p).value.(ops := p + t))
  {
    var x, x' := SidesGrow(runner.pgFactory(n).value, runner.setupStmts, p, t);
    var y, y' := SidesGrow(runner.targetFactory(n).value, runner.setupStmts, p, t);
    var (a, b) := runner.Outcome(n, p).value;
    var (a', b') := runner.Outcome(n, p + t).value;
    var coreA := SideGrows(a, x, a', x');
    var coreB := SideGrows(b, y, b', y');
    MismatchCarries(NormalizedStream(a), NormalizedStream(b), coreA, coreB,
                    NormalizedStream(a'), NormalizedStream(b'), p);
  }

  // ---------------------------------------------------------------------------
  // Shrinking against orderly servers
  // ---------------------------------------------------------------------------

  lemma MessageClassIsExtensible(runner: DualRunner, cls: DivergenceClass)
    requires OrderlyRun(runner, 0) && IsMessageClass(cls)
    ensures Extensible(OracleOf(runner, cls))
  {
    var o := OracleOf(runner, cls);
    forall p, t | Reproducing(o, p) ensures Reproducing(o, p + t) {
      DifferenceShowsClass(runner, cls, 0, p);
      MessageMismatchStays(runner, 0, p, t);
      DifferenceShowsClass(runner, cls, 0, p + t);
    }
  }

  /**
   With two orderly, deterministic servers and any class of messages, shrinking always
   ends in a shortest sequence of the class exactly if all sequences of the class that
   cannot be reduced by one step are of one length.
   */
  lemma ShortestIff(runner: DualRunner, cls: DivergenceClass)
    requires SteadyRunner(runner) && OrderlyRun(runner, 0) && IsMessageClass(cls)
    ensures AlwaysShortest(OracleOf(runner, cls)) <==> StuckAtOneLength(OracleOf(runner, cls))
  {
    SteadyOracle(runner, cls);
    MessageClassIsExtensible(runner, cls);
    AlwaysShortestIff(OracleOf(runner, cls));
  }

  /** No proper window at all of a shrunk sequence diverges in its class, if that is one of messages. */
  lemma NoProperWindow(
    runner: DualRunner, ops: seq<FrontendOp>, original: Divergence, r: seq<FrontendOp>, i: nat, j: nat)
    requires SteadyRunner(runner) && ShrunkTo(runner, ops, original, r)
    requires OrderlyRun(runner, 0) && IsMessageClass(Classify(original))
    requires i < j <= |r| && j - i < |r|
    ensures var d := Difference(runner.Outcome(0, r[i..j]), r[i..j]);
      d.Some? ==> Classify(d.value) != Classify(original)
  {
    var w := r[i..j];
    var d := Difference(runner.Outcome(0, w), w);
    if d.Some? && Classify(d.value) == Classify(original) {
      var t := WindowToNeighbour(r, i, j);
      MessageMismatchStays(runner, 0, w, t);
      ReportIsMinimal(runner, ops, original, r, w + t);
    }
  }

  /** The servers do not send different messages on anything a shrunk sequence starts with. */
  lemma NoEarlierMismatch(
    runner: DualRunner, ops: seq<FrontendOp>, original: Divergence, r: seq<FrontendOp>, p: seq<FrontendOp>)
    requires SteadyRunner(runner) && ShrunkTo(runner, ops, original, r)
    requires OrderlyRun(runner, 0) && p < r && p != []
    ensures var d := Difference(runner.Outcome(0, p), p);
      d.Some? ==> !IsMessageClass(Classify(d.value))
  {
    var d := Difference(runner.Outcome(0, p), p);
    if d.Some? && IsMessageClass(Classify(d.value)) {
      assert Tries(KindAt(0), p, r);
      assert r == p + r[|p|..];
      MessageMismatchStays(runner, 0, p, r[|p|..]);
      ReportIsMinimal(runner, ops, original, r, p);
    }
  }
}

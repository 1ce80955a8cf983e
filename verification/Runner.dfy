/**
 Replaying an op sequence against two servers (src/runner.rs).

 A server is a pair of functions of the chunks flushed to it so far: whether the
 latest flush succeeds, and what it has sent by the time it falls silent or closes
 the connection. Nothing else is assumed of it here; `Causal`, `Prompt` and
 `Reliable` name the assumptions some theorems make.
 */
module Runner {
  import opened Wrappers
  import opened Protocol
  import opened Ops
  import opened Bytes

  // ---------------------------------------------------------------------------
  // Servers and connections
  // ---------------------------------------------------------------------------

  type Chunk = seq<FrontendMsg>

  /** How an inbound stream ends: nothing more within the timeout, or a receive error. */
  datatype End = Silent | Closed(error: string)

  datatype Trace = Trace(msgs: seq<PgMessage>, end: End)

  datatype Backend = Backend(flushError: seq<Chunk> -> Option<string>, respond: seq<Chunk> -> Trace)

  datatype Received = Arrived(msg: PgMessage) | RecvError(error: string) | TimedOut

  datatype ResponseEvent = Message(msg: PgMessage) | Timeout | Disconnected(error: string)

  /** The outbound half of a connection: what was flushed, flush by flush, and what was not. */
  datatype Wire = Wire(sent: seq<Chunk>, pending: Chunk)

  function Flat(chunks: seq<Chunk>): Chunk {
    if chunks == [] then [] else Flat(chunks[..|chunks| - 1]) + chunks[|chunks| - 1]
  }

  function Flushed(b: Backend, w: Wire): Result<Wire, string> {
    match b.flushError(w.sent + [w.pending])
    case Some(error) => Failure(error)
    case None => Success(Wire(w.sent + [w.pending], []))
  }

  class Connection {
    const backend: Backend
    var wire: Wire
    var received: nat

    constructor (backend: Backend)
      ensures this.backend == backend
      ensures wire == Wire([], []) && received == 0
    {
      this.backend := backend;
      wire := Wire([], []);
      received := 0;
    }

    method Queue(msg: FrontendMsg)
      modifies this`wire
      ensures wire == old(wire).(pending := old(wire).pending + [msg])
    {
      wire := wire.(pending := wire.pending + [msg]);
    }

    method Flush() returns (error: Option<string>)
      modifies this`wire
      ensures error.None? ==> Flushed(backend, old(wire)) == Success(wire)
      ensures error.Some? ==> Flushed(backend, old(wire)) == Failure(error.value) && wire == old(wire)
    {
      error := backend.flushError(wire.sent + [wire.pending]);
      if error.None? {
        wire := Wire(wire.sent + [wire.pending], []);
      }
    }

    /** The next message, or how the stream ends once the messages are used up. */
    method Recv() returns (outcome: Received)
      modifies this`received
      ensures var trace := backend.respond(wire.sent);
        if old(received) < |trace.msgs|
        then outcome == Arrived(trace.msgs[old(received)]) && received == old(received) + 1
        else outcome == (match trace.end case Silent => TimedOut case Closed(error) => RecvError(error))
             && received == old(received)
    {
      var trace := backend.respond(wire.sent);
      if received < |trace.msgs| {
        outcome := Arrived(trace.msgs[received]);
        received := received + 1;
      } else {
        match trace.end {
          case Silent => outcome := TimedOut;
          case Closed(error) => outcome := RecvError(error);
        }
      }
    }
  }

  // ---------------------------------------------------------------------------
  // Sending
  // ---------------------------------------------------------------------------

  function EncodeParams(params: seq<Param>): seq<(FormatCode, seq<byte>)> {
    seq(|params|, i requires 0 <= i < |params| => (params[i].FormatCode(), Field(ParamValue(params[i]))))
  }

  function EncodeOp(op: FrontendOp): FrontendMsg {
    match op
    case Query(sql) => QueryMsg(sql)
    case Parse(name, sql, paramOids) =>
      ParseMsg(name.AsOption(), sql, if paramOids == [] then None else Some(paramOids))
    case Bind(portal, stmt, params) => BindMsg(portal.AsOption(), stmt.AsStr(), EncodeParams(params))
    case DescribeStatement(name) => DescribeStatementMsg(name.AsOption())
    case DescribePortal(name) => DescribePortalMsg(name.AsOption())
    case Execute(portal, maxRows) => ExecuteMsg(portal.AsOption(), maxRows)
    case CloseStatement(name) => CloseStatementMsg(name.AsOption())
    case ClosePortal(name) => ClosePortalMsg(name.AsOption())
    case Sync => SyncMsg
    case Flush => FlushMsg
    case CopyDataOp(data) => CopyDataMsg(data)
    case CopyDoneOp => CopyDoneMsg
    case CopyFailOp(message) => CopyFailMsg(message)
  }

  function EncodeAll(ops: seq<FrontendOp>): Chunk {
    if ops == [] then [] else EncodeAll(ops[..|ops| - 1]) + [EncodeOp(ops[|ops| - 1])]
  }

  function Send(b: Backend, w: Wire, op: FrontendOp): Result<Wire, string> {
    var queued := w.(pending := w.pending + [EncodeOp(op)]);
    if op.TriggersFlush() then Flushed(b, queued) else Success(queued)
  }

  /** Queueing every op, flushing after each trigger; the first failed flush stops it. */
  function SendAll(b: Backend, w: Wire, ops: seq<FrontendOp>): Result<Wire, string> {
    if ops == [] then Success(w)
    else
      match SendAll(b, w, ops[..|ops| - 1])
      case Failure(error) => Failure(error)
      case Success(w') => Send(b, w', ops[|ops| - 1])
  }

  /** A sequence without a trigger is flushed once at its end. */
  function Transmitted(b: Backend, w: Wire, ops: seq<FrontendOp>): Result<Wire, string> {
    match SendAll(b, w, ops)
    case Failure(error) => Failure(error)
    case Success(w') => if HasTrigger(ops) then Success(w') else Flushed(b, w')
  }

  // ---------------------------------------------------------------------------
  // Collecting
  // ---------------------------------------------------------------------------

  function Readies(msgs: seq<PgMessage>): nat {
    if msgs == [] then 0
    else Readies(msgs[..|msgs| - 1]) + if msgs[|msgs| - 1].ReadyForQuery? then 1 else 0
  }

  /** The length of the shortest prefix holding `n` ReadyForQuery messages. */
  function Cut(msgs: seq<PgMessage>, n: nat): (k: nat)
    requires n <= Readies(msgs)
    ensures k <= |msgs| && Readies(msgs[..k]) == n
  {
    if n == 0 then 0
    else
      var front := msgs[..|msgs| - 1];
      if n <= Readies(front) then
        var k := Cut(front, n);
        assert msgs[..k] == front[..k];
        k
      else
        assert msgs[..|msgs|] == msgs;
        |msgs|
  }

  lemma {:induction false} CutIsShortest(msgs: seq<PgMessage>, n: nat, j: nat)
    requires n <= Readies(msgs) && j < Cut(msgs, n)
    ensures Readies(msgs[..j]) < n
  {
    var front := msgs[..|msgs| - 1];
    assert msgs[..j] == front[..j];
    if n <= Readies(front) {
      CutIsShortest(front, n, j);
    } else {
      ReadiesOfPrefix(front, j);
    }
  }

  lemma {:induction false} ReadiesOfPrefix(msgs: seq<PgMessage>, j: nat)
    requires j <= |msgs|
    ensures Readies(msgs[..j]) <= Readies(msgs)
  {
    if j == |msgs| {
      assert msgs[..j] == msgs;
    } else {
      assert msgs[..|msgs| - 1][..j] == msgs[..j];
      ReadiesOfPrefix(msgs[..|msgs| - 1], j);
    }
  }

  lemma {:induction false} ReadiesAppend(a: seq<PgMessage>, b: seq<PgMessage>)
    ensures Readies(a + b) == Readies(a) + Readies(b)
  {
    if b == [] {
      assert a + b == a;
    } else {
      assert (a + b)[..|a + b| - 1] == a + b[..|b| - 1];
      ReadiesAppend(a, b[..|b| - 1]);
    }
  }

  /** The cut depends only on the messages before it, and there is no other such prefix. */
  lemma CutIs(msgs: seq<PgMessage>, n: nat, k: nat)
    requires k <= |msgs| && Readies(msgs[..k]) == n
    requires k > 0 ==> msgs[k - 1].ReadyForQuery?
    ensures n <= Readies(msgs) && Cut(msgs, n) == k
  {
    ReadiesOfPrefix(msgs, k);
    var c := Cut(msgs, n);
    if k < c {
      CutIsShortest(msgs, n, k);
    } else if c < k {
      assert msgs[..k][..k - 1] == msgs[..k - 1];
      assert msgs[..k - 1][..c] == msgs[..c];
      ReadiesOfPrefix(msgs[..k - 1], c);
    }
  }

  function Events(msgs: seq<PgMessage>): seq<ResponseEvent> {
    seq(|msgs|, i requires 0 <= i < |msgs| => Message(msgs[i]))
  }

  /** What is recorded when the stream ends before the messages waited for have come. */
  function Terminal(end: End, expected: nat): seq<ResponseEvent> {
    match end
    case Closed(error) => [Disconnected(error)]
    case Silent => if expected > 0 then [Timeout] else []
  }

  /**
   What collecting records of a stream: the shortest prefix with the expected number of
   ReadyForQuery messages, or, when there is none to wait for or too few come, all of it
   and the way it ended.
   */
  function Collected(msgs: seq<PgMessage>, end: End, expected: nat): seq<ResponseEvent> {
    if 0 < expected <= Readies(msgs) then Events(msgs[..Cut(msgs, expected)])
    else Events(msgs) + Terminal(end, expected)
  }

  function Drop(msgs: seq<PgMessage>, received: nat): seq<PgMessage> {
    if received <= |msgs| then msgs[received..] else []
  }

  function CollectedFrom(trace: Trace, received: nat, expected: nat): seq<ResponseEvent> {
    Collected(Drop(trace.msgs, received), trace.end, expected)
  }

  method CollectResponses(conn: Connection, expectedRfq: nat) returns (responses: seq<ResponseEvent>)
    modifies conn`received
    ensures responses == CollectedFrom(conn.backend.respond(conn.wire.sent), old(conn.received), expectedRfq)
  {
    responses := [];
    var rfqCount := 0;
    var expectingRfq := expectedRfq > 0;
    ghost var trace := conn.backend.respond(conn.wire.sent);
    ghost var msgs := Drop(trace.msgs, conn.received);
    ghost var k := 0;
    while true
      invariant 0 <= k <= |msgs| && conn.received == old(conn.received) + k
      invariant responses == Events(msgs[..k])
      invariant rfqCount == Readies(msgs[..k])
      invariant expectingRfq ==> rfqCount < expectedRfq
      decreases |msgs| - k
    {
      var outcome := conn.Recv();
      match outcome {
        case Arrived(msg) =>
          assert msg == msgs[k];
          assert msgs[..k + 1][..k] == msgs[..k];
          if msg.ReadyForQuery? {
            rfqCount := rfqCount + 1;
          }
          responses := responses + [Message(msg)];
          k := k + 1;
          if expectingRfq && rfqCount >= expectedRfq {
            CutIs(msgs, expectedRfq, k);
            break;
          }
        case RecvError(error) =>
          assert msgs[..k] == msgs;
          responses := responses + [Disconnected(error)];
          break;
        case TimedOut =>
          assert msgs[..k] == msgs;
          if expectingRfq && rfqCount < expectedRfq {
            responses := responses + [Timeout];
          }
          break;
      }
    }
  }

  // ---------------------------------------------------------------------------
  // One side of a run
  // ---------------------------------------------------------------------------

  function Replies(b: Backend, w: Wire, received: nat, ops: seq<FrontendOp>): seq<ResponseEvent> {
    match Transmitted(b, w, ops)
    case Failure(error) => [Disconnected(error)]
    case Success(w') => CollectedFrom(b.respond(w'.sent), received, ExpectedReady(ops))
  }

  method RunSequence(conn: Connection, ops: seq<FrontendOp>) returns (events: seq<ResponseEvent>)
    modifies conn
    ensures events == Replies(conn.backend, old(conn.wire), old(conn.received), ops)
  {
    var expectedRfq := 0;
    for i := 0 to |ops|
      invariant expectedRfq == ExpectedReady(ops[..i])
    {
      assert ops[..i + 1][..i] == ops[..i];
      if ops[i].ExpectsReady() {
        expectedRfq := expectedRfq + 1;
      }
    }
    assert ops[..|ops|] == ops;

    ghost var start := conn.wire;
    for i := 0 to |ops|
      invariant SendAll(conn.backend, start, ops[..i]) == Success(conn.wire)
      invariant conn.received == old(conn.received)
    {
      SendStep(conn.backend, start, ops, i, conn.wire);
      conn.Queue(EncodeOp(ops[i]));
      if ops[i].TriggersFlush() {
        var error := conn.Flush();
        if error.Some? {
          SendFails(conn.backend, start, ops, i + 1);
          return [Disconnected(error.value)];
        }
      }
    }
    assert ops[..|ops|] == ops;

    if !HasTrigger(ops) {
      var error := conn.Flush();
      if error.Some? {
        return [Disconnected(error.value)];
      }
    }
    events := CollectResponses(conn, expectedRfq);
  }

  lemma SendStep(b: Backend, start: Wire, ops: seq<FrontendOp>, i: nat, w: Wire)
    requires i < |ops| && SendAll(b, start, ops[..i]) == Success(w)
    ensures SendAll(b, start, ops[..i + 1]) == Send(b, w, ops[i])
  {
    assert ops[..i + 1][..i] == ops[..i];
  }

  lemma {:induction false} SendFails(b: Backend, w: Wire, ops: seq<FrontendOp>, i: nat)
    requires i <= |ops| && SendAll(b, w, ops[..i]).Failure?
    ensures SendAll(b, w, ops) == SendAll(b, w, ops[..i])
  {
    if i == |ops| {
      assert ops[..i] == ops;
    } else {
      assert ops[..|ops| - 1][..i] == ops[..i];
      SendFails(b, w, ops[..|ops| - 1], i);
    }
  }

  // ---------------------------------------------------------------------------
  // Setup
  // ---------------------------------------------------------------------------

  datatype Ready = Ready(wire: Wire, received: nat)

  /** One setup statement: query, flush, and drain up to the next ReadyForQuery. */
  function SetUpOne(b: Backend, r: Ready, stmt: string): Result<Ready, string> {
    match Flushed(b, r.wire.(pending := r.wire.pending + [QueryMsg(stmt)]))
    case Failure(error) => Failure(error)
    case Success(w) =>
      var trace := b.respond(w.sent);
      var rest := Drop(trace.msgs, r.received);
      if Readies(rest) >= 1 then Success(Ready(w, r.received + Cut(rest, 1)))
      else Failure(match trace.end case Closed(error) => error case Silent => "timeout during setup: " + stmt)
  }

  function SetUp(b: Backend, r: Ready, stmts: seq<string>): Result<Ready, string> {
    if stmts == [] then Success(r)
    else
      match SetUp(b, r, stmts[..|stmts| - 1])
      case Failure(error) => Failure(error)
      case Success(r') => SetUpOne(b, r', stmts[|stmts| - 1])
  }

  lemma {:induction false} SetUpFails(b: Backend, r: Ready, stmts: seq<string>, i: nat)
    requires i <= |stmts| && SetUp(b, r, stmts[..i]).Failure?
    ensures SetUp(b, r, stmts) == SetUp(b, r, stmts[..i])
  {
    if i == |stmts| {
      assert stmts[..i] == stmts;
    } else {
      assert stmts[..|stmts| - 1][..i] == stmts[..i];
      SetUpFails(b, r, stmts[..|stmts| - 1], i);
    }
  }

  method Drain(conn: Connection, stmt: string) returns (error: Option<string>)
    modifies conn`received
    ensures var trace := conn.backend.respond(conn.wire.sent);
      var rest := Drop(trace.msgs, old(conn.received));
      if Readies(rest) >= 1 then error == None && conn.received == old(conn.received) + Cut(rest, 1)
      else error == Some(match trace.end case Closed(e) => e case Silent => "timeout during setup: " + stmt)
  {
    ghost var rest := Drop(conn.backend.respond(conn.wire.sent).msgs, conn.received);
    ghost var k := 0;
    while true
      invariant 0 <= k <= |rest| && conn.received == old(conn.received) + k
      invariant Readies(rest[..k]) == 0
      decreases |rest| - k
    {
      var outcome := conn.Recv();
      match outcome {
        case Arrived(msg) =>
          assert rest[..k + 1][..k] == rest[..k];
          k := k + 1;
          if msg.ReadyForQuery? {
            CutIs(rest, 1, k);
            return None;
          }
        case RecvError(e) =>
          assert rest[..k] == rest;
          return Some(e);
        case TimedOut =>
          assert rest[..k] == rest;
          return Some("timeout during setup: " + stmt);
      }
    }
  }

  /** The setup loop's body: afterwards the connection is ready for the next statement. */
  method RunSetupStmt(conn: Connection, stmt: string) returns (error: Option<string>)
    modifies conn
    ensures var r := SetUpOne(conn.backend, old(Ready(conn.wire, conn.received)), stmt);
      if error.None? then r == Success(Ready(conn.wire, conn.received)) else r == Failure(error.value)
  {
    conn.Queue(QueryMsg(stmt));
    error := conn.Flush();
    if error.None? {
      error := Drain(conn, stmt);
    }
  }

  method RunSetup(conn: Connection, stmts: seq<string>) returns (error: Option<string>)
    modifies conn
    ensures var r := SetUp(conn.backend, old(Ready(conn.wire, conn.received)), stmts);
      if error.None? then r == Success(Ready(conn.wire, conn.received)) else r == Failure(error.value)
  {
    ghost var start := Ready(conn.wire, conn.received);
    for i := 0 to |stmts|
      invariant SetUp(conn.backend, start, stmts[..i]) == Success(Ready(conn.wire, conn.received))
    {
      SetUpStep(conn.backend, start, stmts, i, Ready(conn.wire, conn.received));
      error := RunSetupStmt(conn, stmts[i]);
      if error.Some? {
        SetUpFails(conn.backend, start, stmts, i + 1);
        return;
      }
    }
    assert stmts[..|stmts|] == stmts;
    error := None;
  }

  lemma SetUpStep(b: Backend, start: Ready, stmts: seq<string>, i: nat, r: Ready)
    requires i < |stmts| && SetUp(b, start, stmts[..i]) == Success(r)
    ensures SetUp(b, start, stmts[..i + 1]) == SetUpOne(b, r, stmts[i])
  {
    assert stmts[..i + 1][..i] == stmts[..i];
  }

  // ---------------------------------------------------------------------------
  // Both sides
  // ---------------------------------------------------------------------------

  type Streams = (seq<ResponseEvent>, seq<ResponseEvent>)

  /** The servers a run meets, or why connecting failed. The number counts the runs so far. */
  type Factory = nat -> Result<Backend, string>

  class DualRunner {
    const pgFactory: Factory
    const targetFactory: Factory
    const setupStmts: seq<string>
    /** How many runs there have been: the clock against which servers may change. */
    var runs: nat

    constructor (pgFactory: Factory, targetFactory: Factory, setupStmts: seq<string>)
      ensures this.pgFactory == pgFactory && this.targetFactory == targetFactory
      ensures this.setupStmts == setupStmts && runs == 0
    {
      this.pgFactory, this.targetFactory, this.setupStmts := pgFactory, targetFactory, setupStmts;
      runs := 0;
    }

    /** What the `n`-th run yields for `ops`. */
    function Outcome(n: nat, ops: seq<FrontendOp>): Result<Streams, string> {
      var start := Ready(Wire([], []), 0);
      match pgFactory(n)
      case Failure(error) => Failure(error)
      case Success(pg) =>
        match targetFactory(n)
        case Failure(error) => Failure(error)
        case Success(target) =>
          match SetUp(pg, start, setupStmts)
          case Failure(error) => Failure(error)
          case Success(pgReady) =>
            match SetUp(target, start, setupStmts)
            case Failure(error) => Failure(error)
            case Success(targetReady) =>
              Success((Replies(pg, pgReady.wire, pgReady.received, ops),
                       Replies(target, targetReady.wire, targetReady.received, ops)))
    }

    method Run(ops: seq<FrontendOp>) returns (r: Result<Streams, string>)
      modifies this`runs
      ensures runs == old(runs) + 1
      ensures r == Outcome(old(runs), ops)
    {
      var n := runs;
      runs := runs + 1;
      var pgBackend := pgFactory(n);
      if pgBackend.Failure? {
        return Failure(pgBackend.error);
      }
      var targetBackend := targetFactory(n);
      if targetBackend.Failure? {
        return Failure(targetBackend.error);
      }
      var pgConn := new Connection(pgBackend.value);
      var targetConn := new Connection(targetBackend.value);
      if setupStmts != [] {
        var error := RunSetup(pgConn, setupStmts);
        if error.Some? {
          return Failure(error.value);
        }
        error := RunSetup(targetConn, setupStmts);
        if error.Some? {
          return Failure(error.value);
        }
      }
      var pgResponses := RunSequence(pgConn, ops);
      var targetResponses := RunSequence(targetConn, ops);
      r := Success((pgResponses, targetResponses));
    }
  }
}

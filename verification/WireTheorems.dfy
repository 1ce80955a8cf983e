/** What goes over the wire, read back from the messages themselves: ops, chunks, setup, a whole run. */
module WireTheorems {
  import opened Wrappers
  import opened Protocol
  import opened Ops
  import opened Bytes
  import opened Runner
  import opened RunnerTheorems

  // ---------------------------------------------------------------------------
  // Reading messages back
  // ---------------------------------------------------------------------------

  function StmtCalled(name: string): Option<StmtName> {
    if name == "s1" then Some(S1) else if name == "s2" then Some(S2) else None
  }

  function PortalCalled(name: string): Option<PortalName> {
    if name == "p1" then Some(P1) else if name == "p2" then Some(P2) else None
  }

  function StmtOf(name: Option<string>): Option<StmtName> {
    match name case None => Some(UnnamedStmt) case Some(s) => StmtCalled(s)
  }

  function PortalOf(name: Option<string>): Option<PortalName> {
    match name case None => Some(UnnamedPortal) case Some(s) => PortalCalled(s)
  }

  /** A parameter as a server reads it: its format, and NULL or bytes. */
  function ParamOf(format: FormatCode, field: seq<byte>): Option<Param> {
    match ReadField(field)
    case None => None
    case Some((value, rest)) =>
      if rest != [] then None
      else
        match value
        case None => Some(Null)
        case Some(data) => Some(if format.TextFormat? then Text(data) else Bytes(data))
  }

  function ParamsOf(params: seq<(FormatCode, seq<byte>)>): Option<seq<Param>> {
    if params == [] then Some([])
    else
      match (ParamsOf(params[..|params| - 1]), ParamOf(params[|params| - 1].0, params[|params| - 1].1))
      case (Some(front), Some(last)) => Some(front + [last])
      case _ => None
  }

  /** The op a server understands. */
  function Understood(msg: FrontendMsg): Option<FrontendOp> {
    match msg
    case QueryMsg(sql) => Some(Query(sql))
    case ParseMsg(stmt, sql, types) =>
      (match StmtOf(stmt) case None => None case Some(name) => Some(Parse(name, sql, types.GetOr([]))))
    case BindMsg(portal, stmt, params) =>
      (match (PortalOf(portal), if stmt == "" then Some(UnnamedStmt) else StmtCalled(stmt), ParamsOf(params))
       case (Some(p), Some(s), Some(ps)) => Some(Bind(p, s, ps))
       case _ => None)
    case DescribeStatementMsg(stmt) =>
      (match StmtOf(stmt) case None => None case Some(name) => Some(DescribeStatement(name)))
    case DescribePortalMsg(portal) =>
      (match PortalOf(portal) case None => None case Some(name) => Some(DescribePortal(name)))
    case ExecuteMsg(portal, maxRows) =>
      (match PortalOf(portal) case None => None case Some(name) => Some(Execute(name, maxRows)))
    case CloseStatementMsg(stmt) =>
      (match StmtOf(stmt) case None => None case Some(name) => Some(CloseStatement(name)))
    case ClosePortalMsg(portal) =>
      (match PortalOf(portal) case None => None case Some(name) => Some(ClosePortal(name)))
    case SyncMsg => Some(Sync)
    case FlushMsg => Some(Flush)
    case CopyDataMsg(data) => Some(CopyDataOp(data))
    case CopyDoneMsg => Some(CopyDoneOp)
    case CopyFailMsg(message) => Some(CopyFailOp(message))
  }

  /** What a server reads of a parameter: NULL, text, or bytes; those of an integer are its value. */
  ghost predicate Conveys(read: Param, p: Param) {
    match p
    case Null => read.Null?
    case Int32(v) => read.Bytes? && |read.bytes| == 4 && ReadI32(read.bytes) == v
    case Text(utf8) => read == Text(utf8)
    case Bytes(bytes) => read == Bytes(bytes)
  }

  ghost predicate OpConveyed(read: FrontendOp, op: FrontendOp) {
    if op.Bind? then
      read.Bind? && read.portal == op.portal && read.stmt == op.stmt && AllConveyed(read.params, op.params)
    else read == op
  }

  /** Its parameters are short enough for their length fields. */
  ghost predicate Sendable(op: FrontendOp) {
    op.Bind? ==> forall p :: p in op.params ==> FieldFits(ParamValue(p))
  }

  lemma ParamReadsBack(p: Param, field: seq<byte>) returns (read: Param)
    requires FieldFits(ParamValue(p)) && field == Field(ParamValue(p))
    ensures ParamOf(p.FormatCode(), field) == Some(read) && Conveys(read, p)
  {
    ReadFieldBack(ParamValue(p), []);
    assert field + [] == field;
    read := ParamOf(p.FormatCode(), field).value;
    match p
    case Int32(v) => I32ReadsBack(v);
    case _ =>
  }

  lemma EncodeParamsSnoc(params: seq<Param>)
    requires params != []
    ensures var front, last := params[..|params| - 1], params[|params| - 1];
      EncodeParams(params) == EncodeParams(front) + [(last.FormatCode(), Field(ParamValue(last)))]
  {
  }

  lemma ParamsOfSnoc(
    front: seq<(FormatCode, seq<byte>)>, format: FormatCode, field: seq<byte>, ps: seq<Param>, p: Param)
    requires ParamsOf(front) == Some(ps) && ParamOf(format, field) == Some(p)
    ensures ParamsOf(front + [(format, field)]) == Some(ps + [p])
  {
    assert (front + [(format, field)])[..|front|] == front;
  }

  ghost predicate AllConveyed(read: seq<Param>, params: seq<Param>) {
    |read| == |params| && forall i :: 0 <= i < |params| ==> Conveys(read[i], params[i])
  }

  lemma ConveyedSnoc(read: seq<Param>, r: Param, params: seq<Param>, p: Param)
    requires AllConveyed(read, params) && Conveys(r, p)
    ensures AllConveyed(read + [r], params + [p])
  {
  }

  lemma {:induction false} ParamsReadBack(params: seq<Param>, fields: seq<(FormatCode, seq<byte>)>)
    returns (read: seq<Param>)
    requires fields == EncodeParams(params) && forall p :: p in params ==> FieldFits(ParamValue(p))
    ensures ParamsOf(fields) == Some(read) && AllConveyed(read, params)
    decreases |params|
  {
    if params == [] {
      read := [];
    } else {
      var front, last := params[..|params| - 1], params[|params| - 1];
      var field := Field(ParamValue(last));
      var before := ParamsReadBack(front, EncodeParams(front));
      var one := ParamReadsBack(last, field);
      EncodeParamsSnoc(params);
      ParamsOfSnoc(EncodeParams(front), last.FormatCode(), field, before, one);
      ConveyedSnoc(before, one, front, last);
      assert params == front + [last];
      read := before + [one];
    }
  }

  lemma NamesReadBack(stmt: StmtName, portal: PortalName)
    ensures StmtOf(stmt.AsOption()) == Some(stmt) && PortalOf(portal.AsOption()) == Some(portal)
    ensures (if stmt.AsStr() == "" then Some(UnnamedStmt) else StmtCalled(stmt.AsStr())) == Some(stmt)
  {
    assert "s1"[1] != "s2"[1] && "p1"[1] != "p2"[1];
  }

  lemma BindReadsBack(portal: PortalName, stmt: StmtName, params: seq<Param>)
    requires forall p :: p in params ==> FieldFits(ParamValue(p))
    ensures var op := Bind(portal, stmt, params);
      Understood(EncodeOp(op)).Some? && OpConveyed(Understood(EncodeOp(op)).value, op)
  {
    NamesReadBack(stmt, portal);
    var read := ParamsReadBack(params, EncodeParams(params));
    assert Understood(BindMsg(portal.AsOption(), stmt.AsStr(), EncodeParams(params))) == Some(Bind(portal, stmt, read));
  }

  /** Reading an op's message gives back the op, with everything in it. */
  lemma OpReadsBack(op: FrontendOp)
    requires Sendable(op)
    ensures Understood(EncodeOp(op)).Some? && OpConveyed(Understood(EncodeOp(op)).value, op)
  {
    match op
    case Parse(name, _, _) => NamesReadBack(name, UnnamedPortal);
    case Bind(portal, stmt, params) => BindReadsBack(portal, stmt, params);
    case DescribeStatement(name) => NamesReadBack(name, UnnamedPortal);
    case DescribePortal(name) => NamesReadBack(UnnamedStmt, name);
    case Execute(portal, _) => NamesReadBack(UnnamedStmt, portal);
    case CloseStatement(name) => NamesReadBack(name, UnnamedPortal);
    case ClosePortal(name) => NamesReadBack(UnnamedStmt, name);
    case _ =>
  }

  lemma {:induction false} EncodedAt(ops: seq<FrontendOp>, i: nat)
    requires i < |ops|
    ensures |EncodeAll(ops)| == |ops| && EncodeAll(ops)[i] == EncodeOp(ops[i])
  {
    var front := ops[..|ops| - 1];
    EncodedLength(front);
    if i < |front| {
      EncodedAt(front, i);
    }
  }

  lemma {:induction false} EncodedLength(ops: seq<FrontendOp>)
    ensures |EncodeAll(ops)| == |ops|
  {
    if ops != [] {
      EncodedLength(ops[..|ops| - 1]);
    }
  }

  // ---------------------------------------------------------------------------
  // Chunks
  // ---------------------------------------------------------------------------

  /** The messages after which everything so far has to be on its way. */
  predicate EndsChunk(msg: FrontendMsg) {
    msg.SyncMsg? || msg.QueryMsg? || msg.FlushMsg? || msg.CopyDoneMsg? || msg.CopyFailMsg?
  }

  lemma TriggerEndsChunk(op: FrontendOp)
    ensures EndsChunk(EncodeOp(op)) <==> op.TriggersFlush()
  {
  }

  /** Messages cut after each of those, and what is left over. */
  function Split(msgs: Chunk): (seq<Chunk>, Chunk) {
    if msgs == [] then ([], [])
    else
      var (chunks, rest) := Split(msgs[..|msgs| - 1]);
      var last := msgs[|msgs| - 1];
      if EndsChunk(last) then (chunks + [rest + [last]], []) else (chunks, rest + [last])
  }

  ghost predicate IsChunk(c: Chunk) {
    c != [] && EndsChunk(c[|c| - 1]) && forall i :: 0 <= i < |c| - 1 ==> !EndsChunk(c[i])
  }

  ghost predicate IsSplit(chunks: seq<Chunk>, rest: Chunk, msgs: Chunk) {
    && Flat(chunks) + rest == msgs
    && (forall c :: c in chunks ==> IsChunk(c))
    && (forall i :: 0 <= i < |rest| ==> !EndsChunk(rest[i]))
  }

  lemma SplitEnds(chunks: seq<Chunk>, rest: Chunk, msgs: Chunk, last: FrontendMsg)
    requires IsSplit(chunks, rest, msgs) && EndsChunk(last)
    ensures IsSplit(chunks + [rest + [last]], [], msgs + [last])
  {
    FlatSnoc(chunks, rest + [last]);
    assert IsChunk(rest + [last]);
    assert Flat(chunks) + (rest + [last]) + [] == Flat(chunks) + rest + [last];
  }

  lemma SplitGoesOn(chunks: seq<Chunk>, rest: Chunk, msgs: Chunk, last: FrontendMsg)
    requires IsSplit(chunks, rest, msgs) && !EndsChunk(last)
    ensures IsSplit(chunks, rest + [last], msgs + [last])
  {
    assert Flat(chunks) + (rest + [last]) == Flat(chunks) + rest + [last];
  }

  /** Nothing is lost, each chunk ends where it has to and nowhere later, and the left-over does not end. */
  lemma {:induction false} SplitIs(msgs: Chunk)
    ensures IsSplit(Split(msgs).0, Split(msgs).1, msgs)
  {
    if msgs == [] {
      assert Flat([]) + [] == [];
    } else {
      var front, last := msgs[..|msgs| - 1], msgs[|msgs| - 1];
      assert msgs == front + [last];
      SplitIs(front);
      if EndsChunk(last) {
        SplitEnds(Split(front).0, Split(front).1, front, last);
      } else {
        SplitGoesOn(Split(front).0, Split(front).1, front, last);
      }
    }
  }

  lemma SplitSnoc(msgs: Chunk, last: FrontendMsg)
    ensures Split(msgs + [last]) ==
      var (chunks, rest) := Split(msgs);
      if EndsChunk(last) then (chunks + [rest + [last]], []) else (chunks, rest + [last])
  {
    assert (msgs + [last])[..|msgs|] == msgs;
  }

  /** What is flushed of a sequence: its chunks, or all of it in one if it has none. */
  function Outgoing(ops: seq<FrontendOp>): seq<Chunk> {
    var (chunks, rest) := Split(EncodeAll(ops));
    if chunks == [] then [rest] else chunks
  }

  ghost predicate FlushWorks(b: Backend, sent: seq<Chunk>, chunks: seq<Chunk>, k: nat) {
    k <= |chunks| && b.flushError(sent + chunks[..k]) == None
  }

  /** Every flush succeeds. */
  ghost predicate FlushesWork(b: Backend, sent: seq<Chunk>, chunks: seq<Chunk>) {
    forall k :: 0 < k <= |chunks| ==> FlushWorks(b, sent, chunks, k)
  }

  /** The first flush that fails fails so. */
  ghost predicate FlushesFail(b: Backend, sent: seq<Chunk>, chunks: seq<Chunk>, error: string) {
    exists k :: 0 < k <= |chunks| && b.flushError(sent + chunks[..k]) == Some(error)
                && FlushesWork(b, sent, chunks[..k - 1])
  }

  lemma WorkSnoc(b: Backend, sent: seq<Chunk>, chunks: seq<Chunk>, c: Chunk)
    requires FlushesWork(b, sent, chunks)
    ensures b.flushError(sent + chunks + [c]) == None ==> FlushesWork(b, sent, chunks + [c])
    ensures forall error :: b.flushError(sent + chunks + [c]) == Some(error) ==>
      FlushesFail(b, sent, chunks + [c], error)
  {
    var more := chunks + [c];
    assert sent + more == sent + chunks + [c] && more[..|more|] == more && more[..|chunks|] == chunks;
    forall k | 0 < k <= |chunks| ensures FlushWorks(b, sent, more, k) {
      assert FlushWorks(b, sent, chunks, k);
      assert more[..k] == chunks[..k];
    }
  }

  lemma FailSnoc(b: Backend, sent: seq<Chunk>, chunks: seq<Chunk>, c: Chunk, error: string)
    requires FlushesFail(b, sent, chunks, error)
    ensures FlushesFail(b, sent, chunks + [c], error)
  {
    var more := chunks + [c];
    var k :| 0 < k <= |chunks| && b.flushError(sent + chunks[..k]) == Some(error)
             && FlushesWork(b, sent, chunks[..k - 1]);
    assert more[..k] == chunks[..k] && more[..k - 1] == chunks[..k - 1];
  }

  /** What sending comes to: the chunks flushed and the rest queued, or the first flush that failed. */
  ghost predicate SentAs(b: Backend, sent: seq<Chunk>, chunks: seq<Chunk>, rest: Chunk, r: Result<Wire, string>) {
    match r
    case Success(w) => FlushesWork(b, sent, chunks) && w == Wire(sent + chunks, rest)
    case Failure(error) => FlushesFail(b, sent, chunks, error)
  }

  lemma {:induction false} SendsChunks(b: Backend, w: Wire, ops: seq<FrontendOp>)
    requires w.pending == []
    ensures var (chunks, rest) := Split(EncodeAll(ops)); SentAs(b, w.sent, chunks, rest, SendAll(b, w, ops))
  {
    if ops == [] {
      assert w.sent + [] == w.sent;
    } else {
      var front, last := ops[..|ops| - 1], ops[|ops| - 1];
      SendsChunks(b, w, front);
      SplitSnoc(EncodeAll(front), EncodeOp(last));
      TriggerEndsChunk(last);
      var (chunks, rest) := Split(EncodeAll(front));
      SendsOne(b, w, front, last, chunks, rest);
    }
  }

  lemma SendsOne(b: Backend, w: Wire, front: seq<FrontendOp>, last: FrontendOp, chunks: seq<Chunk>, rest: Chunk)
    requires SentAs(b, w.sent, chunks, rest, SendAll(b, w, front))
    ensures var r := SendAll(b, w, front + [last]);
      if last.TriggersFlush() then SentAs(b, w.sent, chunks + [rest + [EncodeOp(last)]], [], r)
      else SentAs(b, w.sent, chunks, rest + [EncodeOp(last)], r)
  {
    assert (front + [last])[..|front|] == front;
    var c := rest + [EncodeOp(last)];
    match SendAll(b, w, front)
    case Failure(error) =>
      FailSnoc(b, w.sent, chunks, c, error);
    case Success(_) =>
      WorkSnoc(b, w.sent, chunks, c);
      assert w.sent + chunks + [c] == w.sent + (chunks + [c]);
  }

  /**
   A sequence is sent chunk by chunk, each flushed once and only after its last message;
   it fails exactly if one of these flushes does, with the error of the first.
   */
  lemma TransmitsChunks(b: Backend, w: Wire, ops: seq<FrontendOp>)
    requires w.pending == []
    ensures match Transmitted(b, w, ops)
      case Success(w') => FlushesWork(b, w.sent, Outgoing(ops)) && w'.sent == w.sent + Outgoing(ops)
      case Failure(error) => FlushesFail(b, w.sent, Outgoing(ops), error)
    ensures Transmitted(b, w, ops).Success? <==> FlushesWork(b, w.sent, Outgoing(ops))
  {
    var (chunks, rest) := Split(EncodeAll(ops));
    SendsChunks(b, w, ops);
    ChunksIfTrigger(ops);
    if !HasTrigger(ops) {
      WorkSnoc(b, w.sent, [], rest);
      assert [] + [rest] == [rest] && w.sent + [] == w.sent;
    }
    if Transmitted(b, w, ops).Failure? {
      FailIsNoWork(b, w.sent, Outgoing(ops), Transmitted(b, w, ops).error);
    }
  }

  lemma FailIsNoWork(b: Backend, sent: seq<Chunk>, chunks: seq<Chunk>, error: string)
    requires FlushesFail(b, sent, chunks, error)
    ensures !FlushesWork(b, sent, chunks)
  {
    var k :| 0 < k <= |chunks| && b.flushError(sent + chunks[..k]) == Some(error)
             && FlushesWork(b, sent, chunks[..k - 1]);
    assert !FlushWorks(b, sent, chunks, k);
  }

  lemma {:induction false} ChunksIfTrigger(ops: seq<FrontendOp>)
    ensures Split(EncodeAll(ops)).0 != [] <==> HasTrigger(ops)
  {
    if ops != [] {
      var front, last := ops[..|ops| - 1], ops[|ops| - 1];
      ChunksIfTrigger(front);
      SplitSnoc(EncodeAll(front), EncodeOp(last));
      TriggerEndsChunk(last);
    }
  }

  // ---------------------------------------------------------------------------
  // Setup
  // ---------------------------------------------------------------------------

  /** The setup statements as they are sent: one simple query in a chunk. */
  function QueryChunks(stmts: seq<string>): seq<Chunk> {
    seq(|stmts|, i requires 0 <= i < |stmts| => [QueryMsg(stmts[i])])
  }

  /** The `k`-th statement gets across and a ReadyForQuery for each so far comes back. */
  ghost predicate StatementWorks(b: Backend, stmts: seq<string>, k: nat)
    requires k <= |stmts|
  {
    var sent := QueryChunks(stmts[..k]);
    b.flushError(sent) == None && Readies(b.respond(sent).msgs) >= k
  }

  ghost predicate SetupWorks(b: Backend, stmts: seq<string>) {
    forall k :: 0 < k <= |stmts| ==> StatementWorks(b, stmts, k)
  }

  function StatementError(b: Backend, stmts: seq<string>, k: nat): string
    requires 0 < k <= |stmts|
  {
    var sent := QueryChunks(stmts[..k]);
    match b.flushError(sent)
    case Some(error) => error
    case None =>
      match b.respond(sent).end
      case Closed(error) => error
      case Silent => "timeout during setup: " + stmts[k - 1]
  }

  /** The error of the first statement that does not work. */
  ghost predicate SetupFails(b: Backend, stmts: seq<string>, error: string) {
    exists k :: 0 < k <= |stmts| && !StatementWorks(b, stmts, k) && SetupWorks(b, stmts[..k - 1])
                && error == StatementError(b, stmts, k)
  }

  lemma SetupPrefix(b: Backend, stmts: seq<string>, front: seq<string>, k: nat)
    requires front <= stmts && k <= |front|
    ensures StatementWorks(b, stmts, k) == StatementWorks(b, front, k)
    ensures k > 0 ==> StatementError(b, stmts, k) == StatementError(b, front, k)
  {
    assert stmts[..k] == front[..k];
  }

  lemma SetupWorksSnoc(b: Backend, stmts: seq<string>)
    requires stmts != []
    ensures SetupWorks(b, stmts) <==> SetupWorks(b, stmts[..|stmts| - 1]) && StatementWorks(b, stmts, |stmts|)
  {
    var front := stmts[..|stmts| - 1];
    forall k: nat | k <= |front| ensures StatementWorks(b, stmts, k) == StatementWorks(b, front, k) {
      SetupPrefix(b, stmts, front, k);
    }
    if SetupWorks(b, stmts) {
      forall k | 0 < k <= |front| ensures StatementWorks(b, front, k) {
        assert StatementWorks(b, stmts, k);
      }
    }
    if SetupWorks(b, front) && StatementWorks(b, stmts, |stmts|) {
      forall k | 0 < k <= |stmts| ensures StatementWorks(b, stmts, k) {
        if k <= |front| {
          assert StatementWorks(b, front, k);
        }
      }
    }
  }

  lemma SetupFailsSnoc(b: Backend, stmts: seq<string>, error: string)
    requires stmts != [] && SetupFails(b, stmts[..|stmts| - 1], error)
    ensures SetupFails(b, stmts, error)
  {
    var front := stmts[..|stmts| - 1];
    var k :| 0 < k <= |front| && !StatementWorks(b, front, k) && SetupWorks(b, front[..k - 1])
             && error == StatementError(b, front, k);
    SetupPrefix(b, stmts, front, k);
    assert stmts[..k - 1] == front[..k - 1];
  }

  lemma QueryChunksSnoc(stmts: seq<string>)
    requires stmts != []
    ensures QueryChunks(stmts) == QueryChunks(stmts[..|stmts| - 1]) + [[QueryMsg(stmts[|stmts| - 1])]]
  {
  }

  /** Whether a next ReadyForQuery comes can be told from how many there are in all. */
  lemma NextReadyIff(b: Backend, r: Ready, k: nat, sent: seq<Chunk>)
    requires Causal(b) && AtReady(b, r, k) && r.wire.sent <= sent
    ensures Readies(Drop(b.respond(sent).msgs, r.received)) >= 1 <==> Readies(b.respond(sent).msgs) >= k + 1
  {
    StillAtReady(b, r, sent, k);
    var msgs := b.respond(sent).msgs;
    assert msgs == msgs[..r.received] + msgs[r.received..];
    ReadiesAppend(msgs[..r.received], msgs[r.received..]);
  }

  lemma StatementIs(b: Backend, stmts: seq<string>, r: Ready)
    requires stmts != [] && Causal(b) && AtReady(b, r, |stmts| - 1)
    requires r.wire == Wire(QueryChunks(stmts[..|stmts| - 1]), [])
    ensures var last := SetUpOne(b, r, stmts[|stmts| - 1]);
      && (last.Success? <==> StatementWorks(b, stmts, |stmts|))
      && (last.Success? ==> last.value.wire == Wire(QueryChunks(stmts), []))
      && (last.Failure? ==> last.error == StatementError(b, stmts, |stmts|))
  {
    QueryChunksSnoc(stmts);
    assert stmts[..|stmts|] == stmts;
    assert [] + [QueryMsg(stmts[|stmts| - 1])] == [QueryMsg(stmts[|stmts| - 1])];
    NextReadyIff(b, r, |stmts| - 1, QueryChunks(stmts));
  }

  /**
   Setting a causal server up succeeds exactly if every statement gets across and is
   answered with its ReadyForQuery in time; otherwise it fails as the first that is not.
   */
  lemma {:induction false} SetupIs(b: Backend, stmts: seq<string>)
    requires Causal(b)
    ensures SetUp(b, FRESH, stmts).Success? <==> SetupWorks(b, stmts)
    ensures match SetUp(b, FRESH, stmts)
      case Success(r) => r.wire == Wire(QueryChunks(stmts), [])
      case Failure(error) => SetupFails(b, stmts, error)
  {
    if stmts != [] {
      var front := stmts[..|stmts| - 1];
      SetupIs(b, front);
      SetupWorksSnoc(b, stmts);
      match SetUp(b, FRESH, front)
      case Failure(error) => SetupFailsSnoc(b, stmts, error);
      case Success(r) =>
        SetUpAtReady(b, front);
        StatementIs(b, stmts, r);
    }
  }

  // ---------------------------------------------------------------------------
  // A whole run
  // ---------------------------------------------------------------------------

  /** One side of a run, from what the server was sent and what it sent back. */
  ghost predicate SideOfRun(b: Backend, stmts: seq<string>, ops: seq<FrontendOp>, events: seq<ResponseEvent>) {
    var before, chunks := QueryChunks(stmts), Outgoing(ops);
    if FlushesWork(b, before, chunks) then
      var trace := b.respond(before + chunks);
      && |stmts| <= Readies(trace.msgs)
      && events == Collected(trace.msgs[Cut(trace.msgs, |stmts|)..], trace.end, ExpectedReady(ops))
    else
      exists error :: FlushesFail(b, before, chunks, error) && events == [Disconnected(error)]
  }

  lemma SideIs(b: Backend, stmts: seq<string>, ops: seq<FrontendOp>)
    requires Causal(b) && SetUp(b, FRESH, stmts).Success?
    ensures var r := SetUp(b, FRESH, stmts).value;
      SideOfRun(b, stmts, ops, Replies(b, r.wire, r.received, ops))
  {
    SetupIs(b, stmts);
    SetupIsolation(b, stmts, ops);
    TransmitsChunks(b, SetUp(b, FRESH, stmts).value.wire, ops);
  }

  /** How a run of two causal servers can fail: connecting or setting up, the oracle first each time. */
  ghost predicate RunFails(runner: DualRunner, n: nat, error: string) {
    var pg, target := runner.pgFactory(n), runner.targetFactory(n);
    if pg.Failure? then error == pg.error
    else if target.Failure? then error == target.error
    else if !SetupWorks(pg.value, runner.setupStmts) then SetupFails(pg.value, runner.setupStmts, error)
    else !SetupWorks(target.value, runner.setupStmts) && SetupFails(target.value, runner.setupStmts, error)
  }

  ghost predicate RunWorks(runner: DualRunner, n: nat) {
    && runner.pgFactory(n).Success? && SetupWorks(runner.pgFactory(n).value, runner.setupStmts)
    && runner.targetFactory(n).Success? && SetupWorks(runner.targetFactory(n).value, runner.setupStmts)
  }

  /**
   A run of two causal servers succeeds exactly if both connect and can be set up, with
   each side's events as collected past its setup replies; otherwise it fails with the
   first error, whatever the sequence.
   */
  lemma RunIs(runner: DualRunner, n: nat, ops: seq<FrontendOp>)
    requires runner.pgFactory(n).Success? ==> Causal(runner.pgFactory(n).value)
    requires runner.targetFactory(n).Success? ==> Causal(runner.targetFactory(n).value)
    ensures runner.Outcome(n, ops).Success? <==> RunWorks(runner, n)
    ensures match runner.Outcome(n, ops)
      case Failure(error) => RunFails(runner, n, error)
      case Success((a, b)) =>
        && SideOfRun(runner.pgFactory(n).value, runner.setupStmts, ops, a)
        && SideOfRun(runner.targetFactory(n).value, runner.setupStmts, ops, b)
  {
    if runner.pgFactory(n).Success? && runner.targetFactory(n).Success? {
      var pg, target := runner.pgFactory(n).value, runner.targetFactory(n).value;
      SetupIs(pg, runner.setupStmts);
      SetupIs(target, runner.setupStmts);
      if RunWorks(runner, n) {
        SideIs(pg, runner.setupStmts, ops);
        SideIs(target, runner.setupStmts, ops);
      }
    }
  }

  /** The message at a position is understood as the op. */
  ghost predicate UnderstoodAt(sent: Chunk, k: nat, op: FrontendOp) {
    k < |sent| && Understood(sent[k]).Some? && OpConveyed(Understood(sent[k]).value, op)
  }

  lemma ToldReadsBack(told: seq<FrontendOp>, before: Chunk, sent: Chunk, i: nat)
    requires sent == before + EncodeAll(told) && i < |told| && Sendable(told[i])
    ensures |sent| == |before| + |told| && UnderstoodAt(sent, |before| + i, told[i])
  {
    EncodedAt(told, i);
    OpReadsBack(told[i]);
    assert sent[|before| + i] == EncodeAll(told)[i];
  }

  lemma SentIsTold(b: Backend, w: Wire, ops: seq<FrontendOp>, w': Wire)
    requires w.pending == [] && Transmitted(b, w, ops) == Success(w')
    ensures Flat(w'.sent) == Flat(w.sent) + EncodeAll(Told(ops))
  {
    FlushDiscipline(b, w, ops);
  }

  /** What a server reads of a sequence: the ops through the last flush, in order and in full. */
  lemma SentReadsBack(b: Backend, w: Wire, ops: seq<FrontendOp>, w': Wire, i: nat)
    requires w.pending == [] && Transmitted(b, w, ops) == Success(w')
    requires i < |Told(ops)| && Sendable(Told(ops)[i])
    ensures |Flat(w'.sent)| == |Flat(w.sent)| + |Told(ops)|
    ensures UnderstoodAt(Flat(w'.sent), |Flat(w.sent)| + i, Told(ops)[i])
  {
    SentIsTold(b, w, ops, w');
    ToldReadsBack(Told(ops), Flat(w.sent), Flat(w'.sent), i);
  }
}

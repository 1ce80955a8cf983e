/** What a run records: flush discipline, the collector, setup isolation, prefix-freeness. */
module RunnerTheorems {
  import opened Wrappers
  import opened Protocol
  import opened Ops
  import opened Bytes
  import opened Runner
  import opened Comparator

  // ---------------------------------------------------------------------------
  // Encoding
  // ---------------------------------------------------------------------------

  /** Parameters a server cannot tell apart: same format, same bytes or both NULL. */
  predicate SameParam(p: Param, q: Param) {
    p.FormatCode() == q.FormatCode() && ParamValue(p) == ParamValue(q)
  }

  predicate SameParams(ps: seq<Param>, qs: seq<Param>) {
    |ps| == |qs| && forall i :: 0 <= i < |ps| ==> SameParam(ps[i], qs[i])
  }

  /** Ops are put on the wire without loss, except for how a parameter's bytes came about. */
  predicate SameOnWire(a: FrontendOp, b: FrontendOp) {
    if a.Bind? && b.Bind? then a.portal == b.portal && a.stmt == b.stmt && SameParams(a.params, b.params) else a == b
  }

  lemma FieldDetermines(a: Option<seq<byte>>, b: Option<seq<byte>>)
    requires Field(a) == Field(b)
    ensures a == b
  {
    match (a, b)
    case (Some(x), Some(y)) =>
      assert x == Field(a)[4..] && y == Field(b)[4..];
    case (Some(x), None) =>
      EmptyIsNotNull(x);
    case (None, Some(y)) =>
      EmptyIsNotNull(y);
    case (None, None) =>
  }

  lemma EmptyIsNotNull(x: seq<byte>)
    ensures Field(Some(x)) != Field(None)
  {
    if x == [] {
      Limits();
      ReadBigEndianBack(0, 4);
      ReadBigEndianBack(NULL_LENGTH, 4);
      assert U32(0) + x == U32(0);
    }
  }

  lemma ParamsOnWire(ps: seq<Param>, qs: seq<Param>)
    ensures EncodeParams(ps) == EncodeParams(qs) <==> SameParams(ps, qs)
  {
    if EncodeParams(ps) == EncodeParams(qs) {
      assert |EncodeParams(ps)| == |ps| && |EncodeParams(qs)| == |qs|;
      forall i | 0 <= i < |ps| ensures SameParam(ps[i], qs[i]) {
        assert EncodeParams(ps)[i] == EncodeParams(qs)[i];
        FieldDetermines(ParamValue(ps[i]), ParamValue(qs[i]));
      }
    }
  }

  /** Two ops become the same message exactly if they agree in everything a server can see. */
  lemma EncodingIsFaithful(a: FrontendOp, b: FrontendOp)
    ensures EncodeOp(a) == EncodeOp(b) <==> SameOnWire(a, b)
  {
    if a.Bind? && b.Bind? {
      ParamsOnWire(a.params, b.params);
    }
  }

  // ---------------------------------------------------------------------------
  // Flush discipline
  // ---------------------------------------------------------------------------

  /** The ops still unflushed when the sequence ends. */
  function AfterLastTrigger(ops: seq<FrontendOp>): seq<FrontendOp> {
    if ops == [] || ops[|ops| - 1].TriggersFlush() then []
    else AfterLastTrigger(ops[..|ops| - 1]) + [ops[|ops| - 1]]
  }

  lemma {:induction false} TailSpec(ops: seq<FrontendOp>)
    ensures var tail := AfterLastTrigger(ops);
      && |tail| <= |ops| && tail == ops[|ops| - |tail|..]
      && (forall op :: op in tail ==> !op.TriggersFlush())
      && (HasTrigger(ops) <==> |tail| < |ops|)
      && (|tail| < |ops| ==> ops[|ops| - |tail| - 1].TriggersFlush())
  {
    if ops != [] {
      TailSpec(ops[..|ops| - 1]);
    }
  }

  predicate IsRequest(msg: FrontendMsg) {
    msg.SyncMsg? || msg.QueryMsg?
  }

  function Requests(chunk: Chunk): nat {
    if chunk == [] then 0 else Requests(chunk[..|chunk| - 1]) + if IsRequest(chunk[|chunk| - 1]) then 1 else 0
  }

  lemma {:induction false} RequestsAppend(a: Chunk, b: Chunk)
    ensures Requests(a + b) == Requests(a) + Requests(b)
  {
    if b == [] {
      assert a + b == a;
    } else {
      assert (a + b)[..|a + b| - 1] == a + b[..|b| - 1];
      RequestsAppend(a, b[..|b| - 1]);
    }
  }

  lemma RequestsSnoc(chunk: Chunk, msg: FrontendMsg)
    ensures Requests(chunk + [msg]) == Requests(chunk) + if IsRequest(msg) then 1 else 0
  {
    assert (chunk + [msg])[..|chunk|] == chunk;
  }

  lemma RequestEncoded(op: FrontendOp)
    ensures IsRequest(EncodeOp(op)) <==> op.ExpectsReady()
  {
  }

  lemma {:induction false} RequestsEncoded(ops: seq<FrontendOp>)
    ensures Requests(EncodeAll(ops)) == ExpectedReady(ops)
  {
    if ops != [] {
      var front, last := ops[..|ops| - 1], ops[|ops| - 1];
      RequestsEncoded(front);
      RequestsSnoc(EncodeAll(front), EncodeOp(last));
      RequestEncoded(last);
    }
  }

  lemma {:induction false} EncodeAllAppend(a: seq<FrontendOp>, b: seq<FrontendOp>)
    ensures EncodeAll(a + b) == EncodeAll(a) + EncodeAll(b)
  {
    if b == [] {
      assert a + b == a;
    } else {
      assert (a + b)[..|a + b| - 1] == a + b[..|b| - 1];
      EncodeAllAppend(a, b[..|b| - 1]);
    }
  }

  lemma FlatSnoc(chunks: seq<Chunk>, chunk: Chunk)
    ensures Flat(chunks + [chunk]) == Flat(chunks) + chunk
  {
    assert (chunks + [chunk])[..|chunks|] == chunks;
  }

  lemma {:induction false} FlatAppend(c: seq<Chunk>, d: seq<Chunk>)
    ensures Flat(c + d) == Flat(c) + Flat(d)
  {
    if d == [] {
      assert c + d == c;
    } else {
      var front, last := d[..|d| - 1], d[|d| - 1];
      assert c + d == c + front + [last];
      FlatSnoc(c + front, last);
      FlatAppend(c, front);
    }
  }

  lemma SendOne(b: Backend, w: Wire, op: FrontendOp)
    requires Send(b, w, op).Success?
    ensures var w' := Send(b, w, op).value;
      && w.sent <= w'.sent
      && Flat(w'.sent) + w'.pending == Flat(w.sent) + (w.pending + [EncodeOp(op)])
      && w'.pending == if op.TriggersFlush() then [] else w.pending + [EncodeOp(op)]
  {
    FlatSnoc(w.sent, w.pending + [EncodeOp(op)]);
  }

  lemma TailStep(front: seq<FrontendOp>, op: FrontendOp)
    ensures HasTrigger(front + [op]) <==> op.TriggersFlush() || HasTrigger(front)
    ensures AfterLastTrigger(front + [op]) == if op.TriggersFlush() then [] else AfterLastTrigger(front) + [op]
  {
    assert (front + [op])[..|front|] == front;
  }

  lemma EncodeSnoc(front: seq<FrontendOp>, op: FrontendOp)
    ensures EncodeAll(front + [op]) == EncodeAll(front) + [EncodeOp(op)]
  {
    assert (front + [op])[..|front|] == front;
  }

  lemma {:induction false} PendingIsTail(b: Backend, w: Wire, ops: seq<FrontendOp>)
    requires SendAll(b, w, ops).Success?
    ensures SendAll(b, w, ops).value.pending
         == (if HasTrigger(ops) then [] else w.pending) + EncodeAll(AfterLastTrigger(ops))
  {
    if ops != [] {
      var front, last := ops[..|ops| - 1], ops[|ops| - 1];
      assert ops == front + [last];
      PendingIsTail(b, w, front);
      SendOne(b, SendAll(b, w, front).value, last);
      TailStep(front, last);
      EncodeSnoc(AfterLastTrigger(front), last);
    }
  }

  lemma {:induction false} NothingIsLost(b: Backend, w: Wire, ops: seq<FrontendOp>)
    requires SendAll(b, w, ops).Success?
    ensures var w' := SendAll(b, w, ops).value;
      w.sent <= w'.sent && Flat(w'.sent) + w'.pending == Flat(w.sent) + w.pending + EncodeAll(ops)
  {
    if ops != [] {
      var front, last := ops[..|ops| - 1], ops[|ops| - 1];
      assert ops == front + [last];
      NothingIsLost(b, w, front);
      var w1 := SendAll(b, w, front).value;
      SendOne(b, w1, last);
      EncodeSnoc(front, last);
      Regroup(Flat(w1.sent), w1.pending, Flat(w.sent) + w.pending, EncodeAll(front), [EncodeOp(last)]);
    }
  }

  /**
   After any number of ops, what was sent followed by what is pending is their encoding,
   and pending is what came after the last flush.
   */
  lemma SentThenPending(b: Backend, w: Wire, ops: seq<FrontendOp>)
    requires SendAll(b, w, ops).Success?
    ensures var w' := SendAll(b, w, ops).value;
      && w.sent <= w'.sent
      && Flat(w'.sent) + w'.pending == Flat(w.sent) + w.pending + EncodeAll(ops)
      && w'.pending == (if HasTrigger(ops) then [] else w.pending) + EncodeAll(AfterLastTrigger(ops))
  {
    NothingIsLost(b, w, ops);
    PendingIsTail(b, w, ops);
  }

  lemma Regroup<T>(sent: seq<T>, pending: seq<T>, start: seq<T>, before: seq<T>, last: seq<T>)
    requires sent + pending == start + before
    ensures sent + (pending + last) == start + (before + last)
  {
    assert sent + (pending + last) == (sent + pending) + last;
  }

  /** The ops a server gets to see: through the last flush trigger, or all if there is none. */
  function Told(ops: seq<FrontendOp>): seq<FrontendOp> {
    TailSpec(ops);
    if HasTrigger(ops) then ops[..|ops| - |AfterLastTrigger(ops)|] else ops
  }

  lemma ToldFirst<T>(sent: seq<T>, start: seq<T>, pending: seq<T>, all: seq<T>, told: seq<T>, tail: seq<T>)
    requires sent + tail == start + pending + all && pending == [] && all == told + tail
    ensures sent == start + told
  {
    CancelRight(sent, start, told, tail);
  }

  lemma ToldWithTrigger(b: Backend, w: Wire, ops: seq<FrontendOp>)
    requires w.pending == [] && SendAll(b, w, ops).Success? && HasTrigger(ops)
    ensures var w' := SendAll(b, w, ops).value;
      && Flat(w'.sent) == Flat(w.sent) + EncodeAll(Told(ops))
      && w'.pending == EncodeAll(AfterLastTrigger(ops))
  {
    SentThenPending(b, w, ops);
    EncodedParts(ops);
    var w', tail := SendAll(b, w, ops).value, EncodeAll(AfterLastTrigger(ops));
    assert w'.pending == tail;
    ToldFirst(Flat(w'.sent), Flat(w.sent), w.pending, EncodeAll(ops), EncodeAll(Told(ops)), tail);
  }

  lemma ToldWithoutTrigger(b: Backend, w: Wire, ops: seq<FrontendOp>)
    requires w.pending == [] && Transmitted(b, w, ops).Success? && !HasTrigger(ops)
    ensures var w' := Transmitted(b, w, ops).value;
      w.sent <= w'.sent && Flat(w'.sent) == Flat(w.sent) + EncodeAll(ops) && w'.pending == []
  {
    SentThenPending(b, w, ops);
    var w1 := SendAll(b, w, ops).value;
    StartEmpty(Flat(w.sent), w.pending);
    FlatSnoc(w1.sent, w1.pending);
  }

  lemma ToldIsSent(b: Backend, w: Wire, ops: seq<FrontendOp>)
    requires w.pending == [] && Transmitted(b, w, ops).Success?
    ensures var w' := Transmitted(b, w, ops).value;
      && w.sent <= w'.sent
      && Flat(w'.sent) == Flat(w.sent) + EncodeAll(Told(ops))
      && Told(ops) <= ops && w'.pending == EncodeAll(ops[|Told(ops)|..])
  {
    EncodedParts(ops);
    if HasTrigger(ops) {
      SentThenPending(b, w, ops);
      ToldWithTrigger(b, w, ops);
    } else {
      ToldWithoutTrigger(b, w, ops);
    }
  }

  lemma StartEmpty<T>(sent: seq<T>, pending: seq<T>)
    requires pending == []
    ensures sent + pending == sent
  {
  }

  lemma ToldParts(ops: seq<FrontendOp>)
    ensures Told(ops) <= ops
    ensures HasTrigger(ops) ==> AfterLastTrigger(ops) == ops[|Told(ops)|..]
    ensures !HasTrigger(ops) ==> Told(ops) == ops
  {
    TailSpec(ops);
  }

  lemma EncodedParts(ops: seq<FrontendOp>)
    ensures Told(ops) <= ops
    ensures HasTrigger(ops) ==> AfterLastTrigger(ops) == ops[|Told(ops)|..]
    ensures HasTrigger(ops) ==> EncodeAll(ops) == EncodeAll(Told(ops)) + EncodeAll(AfterLastTrigger(ops))
    ensures !HasTrigger(ops) ==> Told(ops) == ops && ops[|Told(ops)|..] == []
  {
    ToldParts(ops);
    var n := |Told(ops)|;
    assert ops[..n] == Told(ops);
    EncodeSplit(ops, n);
  }

  lemma EncodeSplit(ops: seq<FrontendOp>, k: nat)
    requires k <= |ops|
    ensures EncodeAll(ops) == EncodeAll(ops[..k]) + EncodeAll(ops[k..])
  {
    assert ops == ops[..k] + ops[k..];
    EncodeAllAppend(ops[..k], ops[k..]);
  }

  lemma ToldHasAllRequests(ops: seq<FrontendOp>)
    ensures ExpectedReady(Told(ops)) == ExpectedReady(ops)
  {
    TailSpec(ops);
    var tail := ops[|Told(ops)|..];
    assert ops == Told(ops) + tail;
    ExpectedReadyAppend(Told(ops), tail);
    NoRequestsWithoutTrigger(tail);
  }

  /**
   Once all flushes have succeeded the server has been sent exactly the ops through the
   last flush trigger, or all of them if there is none, and as many requests as the
   runner waits for.
   */
  lemma FlushDiscipline(b: Backend, w: Wire, ops: seq<FrontendOp>)
    requires w.pending == [] && Transmitted(b, w, ops).Success?
    ensures var w' := Transmitted(b, w, ops).value;
      && w.sent <= w'.sent
      && Flat(w'.sent) == Flat(w.sent) + EncodeAll(Told(ops))
      && Told(ops) <= ops && w'.pending == EncodeAll(ops[|Told(ops)|..])
      && Requests(Flat(w'.sent)) == Requests(Flat(w.sent)) + ExpectedReady(ops)
  {
    ToldIsSent(b, w, ops);
    ToldHasAllRequests(ops);
    RequestsAppend(Flat(w.sent), EncodeAll(Told(ops)));
    RequestsEncoded(Told(ops));
  }

  lemma CancelRight<T>(sent: seq<T>, start: seq<T>, told: seq<T>, tail: seq<T>)
    requires sent + tail == start + (told + tail)
    ensures sent == start + told
  {
    assert |sent| == |start + told|;
    assert sent == (sent + tail)[..|sent|];
    assert start + told == (start + (told + tail))[..|sent|];
  }

  lemma {:induction false} NoRequestsWithoutTrigger(tail: seq<FrontendOp>)
    requires forall op :: op in tail ==> !op.TriggersFlush()
    ensures ExpectedReady(tail) == 0
  {
    if tail != [] {
      assert tail[|tail| - 1] in tail;
      NoRequestsWithoutTrigger(tail[..|tail| - 1]);
    }
  }

  /** Sending in two parts is sending once. */
  lemma {:induction false} SendAllAppend(b: Backend, w: Wire, p: seq<FrontendOp>, t: seq<FrontendOp>)
    ensures SendAll(b, w, p + t) ==
      match SendAll(b, w, p) case Failure(e) => Failure(e) case Success(w') => SendAll(b, w', t)
  {
    if t == [] {
      assert p + t == p;
    } else {
      assert (p + t)[..|p + t| - 1] == p + t[..|t| - 1];
      SendAllAppend(b, w, p, t[..|t| - 1]);
    }
  }

  lemma {:induction false} UnflushedTail(b: Backend, w: Wire, t: seq<FrontendOp>)
    requires forall op :: op in t ==> !op.TriggersFlush()
    ensures SendAll(b, w, t).Success? && SendAll(b, w, t).value.sent == w.sent
  {
    if t != [] {
      UnflushedTail(b, w, t[..|t| - 1]);
    }
  }

  /** An unflushed tail after a trigger changes nothing a server could see, so nothing it replies. */
  lemma TailIsInvisible(b: Backend, w: Wire, received: nat, p: seq<FrontendOp>, t: seq<FrontendOp>)
    requires HasTrigger(p) && forall op :: op in t ==> !op.TriggersFlush()
    ensures Replies(b, w, received, p + t) == Replies(b, w, received, p)
  {
    HasTriggerIs(p);
    HasTriggerIs(p + t);
    var i :| 0 <= i < |p| && p[i].TriggersFlush();
    assert (p + t)[i].TriggersFlush();
    SendAllAppend(b, w, p, t);
    if SendAll(b, w, p).Success? {
      UnflushedTail(b, SendAll(b, w, p).value, t);
    }
    NoRequestsWithoutTrigger(t);
    ExpectedReadyAppend(p, t);
  }

  // ---------------------------------------------------------------------------
  // The collector
  // ---------------------------------------------------------------------------

  /** The messages a recording starts with. */
  function Messages(events: seq<ResponseEvent>): seq<PgMessage> {
    if events == [] || !events[0].Message? then [] else [events[0].msg] + Messages(events[1..])
  }

  lemma {:induction false} MessagesOfEvents(msgs: seq<PgMessage>, rest: seq<ResponseEvent>)
    requires rest == [] || !rest[0].Message?
    ensures Messages(Events(msgs) + rest) == msgs
  {
    if msgs == [] {
      assert Events(msgs) + rest == rest;
    } else {
      assert (Events(msgs) + rest)[1..] == Events(msgs[1..]) + rest;
      MessagesOfEvents(msgs[1..], rest);
      assert msgs == [msgs[0]] + msgs[1..];
    }
  }

  /**
   What is collected from any finite stream: messages of the stream in order, with at
   most one terminal event, at the very end. Waiting for ReadyForQuery messages stops at
   the first moment all have come, or else takes everything and ends with the terminal
   event; with none to wait for everything is taken and there is never a timeout.
   */
  lemma CollectorSpec(msgs: seq<PgMessage>, end: End, expected: nat)
    ensures var r := Collected(msgs, end, expected);
      var got := Messages(r);
      && got <= msgs
      && (forall i :: 0 <= i < |r| - 1 ==> r[i].Message?)
      && (expected == 0 ==> got == msgs && Timeout !in r && (r == Events(got) <==> end.Silent?))
      && (expected > 0 && Readies(msgs) >= expected ==>
            r == Events(got) && Readies(got) == expected && forall j :: 0 <= j < |got| ==> Readies(got[..j]) < expected)
      && (expected > 0 && Readies(msgs) < expected ==>
            got == msgs && r == Events(got) + [if end.Silent? then Timeout else Disconnected(end.error)])
  {
    var r := Collected(msgs, end, expected);
    if 0 < expected <= Readies(msgs) {
      var k := Cut(msgs, expected);
      MessagesOfEvents(msgs[..k], []);
      assert Events(msgs[..k]) + [] == Events(msgs[..k]);
      forall j | 0 <= j < k ensures Readies(msgs[..k][..j]) < expected {
        assert msgs[..k][..j] == msgs[..j];
        CutIsShortest(msgs, expected, j);
      }
    } else {
      MessagesOfEvents(msgs, Terminal(end, expected));
    }
  }

  // ---------------------------------------------------------------------------
  // Setup isolation
  // ---------------------------------------------------------------------------

  /** What a server has sent it does not take back when more arrives. */
  ghost predicate Causal(b: Backend) {
    forall c, d :: Grows(b, c, d)
  }

  ghost predicate Grows(b: Backend, c: seq<Chunk>, d: seq<Chunk>) {
    b.respond(c).msgs <= b.respond(c + d).msgs
  }

  const FRESH := Ready(Wire([], []), 0)

  ghost predicate AtReady(b: Backend, r: Ready, k: nat) {
    var msgs := b.respond(r.wire.sent).msgs;
    && r.wire.pending == []
    && r.received <= |msgs|
    && Readies(msgs[..r.received]) == k
    && (r.received > 0 ==> msgs[r.received - 1].ReadyForQuery?)
  }

  lemma ReadyAfter(msgs: seq<PgMessage>, received: nat, c: nat)
    requires received <= |msgs| && 0 < c <= |msgs| - received && msgs[received..][c - 1].ReadyForQuery?
    ensures Readies(msgs[..received + c]) == Readies(msgs[..received]) + Readies(msgs[received..][..c])
    ensures msgs[received + c - 1].ReadyForQuery?
  {
    assert msgs[..received + c] == msgs[..received] + msgs[received..][..c];
    ReadiesAppend(msgs[..received], msgs[received..][..c]);
  }

  /** Draining to the next ReadyForQuery of a stream that has only grown. */
  lemma NextReady(before: seq<PgMessage>, after: seq<PgMessage>, received: nat, k: nat)
    requires before <= after && received <= |before| && Readies(before[..received]) == k
    requires Readies(Drop(after, received)) >= 1
    ensures var next := received + Cut(Drop(after, received), 1);
      received < next <= |after| && Readies(after[..next]) == k + 1 && after[next - 1].ReadyForQuery?
  {
    assert after[..received] == before[..received];
    CutEndsInReady(Drop(after, received), 1);
    ReadyAfter(after, received, Cut(Drop(after, received), 1));
  }

  lemma SetUpOneShape(b: Backend, r: Ready, stmt: string)
    requires SetUpOne(b, r, stmt).Success?
    ensures var r' := SetUpOne(b, r, stmt).value;
      var rest := Drop(b.respond(r'.wire.sent).msgs, r.received);
      && r'.wire == Wire(r.wire.sent + [r.wire.pending + [QueryMsg(stmt)]], [])
      && Readies(rest) >= 1 && r'.received == r.received + Cut(rest, 1)
  {
  }

  lemma SetUpOneAtReady(b: Backend, r: Ready, stmt: string, k: nat)
    requires Causal(b) && AtReady(b, r, k) && SetUpOne(b, r, stmt).Success?
    ensures AtReady(b, SetUpOne(b, r, stmt).value, k + 1)
  {
    SetUpOneShape(b, r, stmt);
    assert Grows(b, r.wire.sent, [r.wire.pending + [QueryMsg(stmt)]]);
    NextReady(b.respond(r.wire.sent).msgs, b.respond(SetUpOne(b, r, stmt).value.wire.sent).msgs, r.received, k);
  }

  lemma CutEndsInReady(msgs: seq<PgMessage>, n: nat)
    requires 0 < n <= Readies(msgs)
    ensures Cut(msgs, n) > 0 && msgs[Cut(msgs, n) - 1].ReadyForQuery?
  {
    var k := Cut(msgs, n);
    assert k > 0;
    assert msgs[..k][..k - 1] == msgs[..k - 1];
    CutIsShortest(msgs, n, k - 1);
  }

  lemma {:induction false} SetUpAtReady(b: Backend, stmts: seq<string>)
    requires Causal(b) && SetUp(b, FRESH, stmts).Success?
    ensures AtReady(b, SetUp(b, FRESH, stmts).value, |stmts|)
  {
    if stmts != [] {
      SetUpAtReady(b, stmts[..|stmts| - 1]);
      SetUpOneAtReady(b, SetUp(b, FRESH, stmts[..|stmts| - 1]).value, stmts[|stmts| - 1], |stmts| - 1);
    }
  }

  /**
   After `k` setup statements a causal server's side of a run is collected from just past
   the `k`-th ReadyForQuery of everything that server sent: no setup reply gets in.
   */
  lemma SetupIsolation(b: Backend, stmts: seq<string>, ops: seq<FrontendOp>)
    requires Causal(b) && SetUp(b, FRESH, stmts).Success?
    ensures var r := SetUp(b, FRESH, stmts).value;
      match Transmitted(b, r.wire, ops)
      case Failure(error) => Replies(b, r.wire, r.received, ops) == [Disconnected(error)]
      case Success(w) =>
        var trace := b.respond(w.sent);
        && |stmts| <= Readies(trace.msgs)
        && Replies(b, r.wire, r.received, ops)
           == Collected(trace.msgs[Cut(trace.msgs, |stmts|)..], trace.end, ExpectedReady(ops))
  {
    var r := SetUp(b, FRESH, stmts).value;
    SetUpAtReady(b, stmts);
    match Transmitted(b, r.wire, ops)
    case Failure(_) =>
    case Success(w) =>
      FlushDiscipline(b, r.wire, ops);
      StillAtReady(b, r, w.sent, |stmts|);
  }

  /** The part of a run one side contributes: what comes after the setup replies. */
  function PastSetup(b: Backend, stmts: seq<string>, ops: seq<FrontendOp>): seq<ResponseEvent> {
    match SetUp(b, FRESH, stmts)
    case Failure(_) => []
    case Success(r) =>
      match Transmitted(b, r.wire, ops)
      case Failure(error) => [Disconnected(error)]
      case Success(w) =>
        var trace := b.respond(w.sent);
        if |stmts| <= Readies(trace.msgs)
        then Collected(trace.msgs[Cut(trace.msgs, |stmts|)..], trace.end, ExpectedReady(ops))
        else []
  }

  /** A run of causal servers fails, or compares exactly what each sent past its setup replies. */
  lemma RunIsIsolated(runner: DualRunner, n: nat, ops: seq<FrontendOp>)
    requires runner.Outcome(n, ops).Success?
    requires Causal(runner.pgFactory(n).value) && Causal(runner.targetFactory(n).value)
    ensures SetUp(runner.pgFactory(n).value, FRESH, runner.setupStmts).Success?
    ensures SetUp(runner.targetFactory(n).value, FRESH, runner.setupStmts).Success?
    ensures runner.Outcome(n, ops).value ==
      (PastSetup(runner.pgFactory(n).value, runner.setupStmts, ops),
       PastSetup(runner.targetFactory(n).value, runner.setupStmts, ops))
  {
    SetupIsolation(runner.pgFactory(n).value, runner.setupStmts, ops);
    SetupIsolation(runner.targetFactory(n).value, runner.setupStmts, ops);
  }

  lemma StillAtReady(b: Backend, r: Ready, sent: seq<Chunk>, k: nat)
    requires Causal(b) && AtReady(b, r, k) && r.wire.sent <= sent
    ensures var msgs := b.respond(sent).msgs;
      r.received <= |msgs| && k <= Readies(msgs) && Cut(msgs, k) == r.received
  {
    var before, msgs := b.respond(r.wire.sent).msgs, b.respond(sent).msgs;
    assert r.wire.sent + sent[|r.wire.sent|..] == sent;
    assert Grows(b, r.wire.sent, sent[|r.wire.sent|..]);
    assert msgs[..r.received] == before[..r.received];
    CutIs(msgs, k, r.received);
  }

  // ---------------------------------------------------------------------------
  // Prefix-freeness
  // ---------------------------------------------------------------------------

  predicate IsTerminal(m: NormalizedMsg) {
    m.NTimeout? || m.NDisconnected?
  }

  function NReadies(s: seq<NormalizedMsg>): nat {
    if s == [] then 0 else NReadies(s[..|s| - 1]) + if s[|s| - 1].NReadyForQuery? then 1 else 0
  }

  /** It ends at its first terminal message, or with its `n`-th ReadyForQuery. */
  ghost predicate Complete(s: seq<NormalizedMsg>, n: nat) {
    && s != []
    && (forall i :: 0 <= i < |s| - 1 ==> !IsTerminal(s[i]))
    && NReadies(s[..|s| - 1]) < n
    && (IsTerminal(s[|s| - 1]) || NReadies(s) == n)
  }

  lemma {:induction false} NReadiesOfPrefix(s: seq<NormalizedMsg>, j: nat)
    requires j <= |s|
    ensures NReadies(s[..j]) <= NReadies(s)
  {
    if j == |s| {
      assert s[..j] == s;
    } else {
      assert s[..|s| - 1][..j] == s[..j];
      NReadiesOfPrefix(s[..|s| - 1], j);
    }
  }

  /** No complete stream is a proper prefix of another. */
  lemma CompleteIsPrefixFree(a: seq<NormalizedMsg>, b: seq<NormalizedMsg>, n: nat)
    requires Complete(a, n) && Complete(b, n)
    ensures !(a < b)
  {
    if a < b {
      var front := b[..|b| - 1];
      assert a[|a| - 1] == b[|a| - 1];
      assert front[..|a|] == a;
      NReadiesOfPrefix(front, |a|);
      assert false;
    }
  }

  lemma EventsSnoc(msgs: seq<PgMessage>)
    requires msgs != []
    ensures Events(msgs) == Events(msgs[..|msgs| - 1]) + [Message(msgs[|msgs| - 1])]
  {
  }

  lemma NormalizedSnoc(events: seq<ResponseEvent>, e: ResponseEvent)
    ensures NormalizedStream(events + [e]) == NormalizedStream(events) +
      match NormalizedEvent(e) case None => [] case Some(m) => [m]
  {
    assert (events + [e])[..|events|] == events;
  }

  lemma AddNormalized(s: seq<NormalizedMsg>, msg: PgMessage, t: seq<NormalizedMsg>)
    requires forall m :: m in s ==> !IsTerminal(m)
    requires t == s + match Normalized(msg) case None => [] case Some(m) => [m]
    ensures NReadies(t) == NReadies(s) + (if msg.ReadyForQuery? then 1 else 0)
    ensures forall m :: m in t ==> !IsTerminal(m)
  {
    match Normalized(msg)
    case None => assert t == s;
    case Some(m) => assert t[..|s|] == s;
  }

  lemma {:induction false} NormalizedMessages(msgs: seq<PgMessage>)
    ensures NReadies(NormalizedStream(Events(msgs))) == Readies(msgs)
    ensures forall m :: m in NormalizedStream(Events(msgs)) ==> !IsTerminal(m)
  {
    if msgs != [] {
      var front, last := msgs[..|msgs| - 1], msgs[|msgs| - 1];
      NormalizedMessages(front);
      EventsSnoc(msgs);
      NormalizedSnoc(Events(front), Message(last));
      AddNormalized(NormalizedStream(Events(front)), last, NormalizedStream(Events(msgs)));
    }
  }

  lemma EventsEndingInTerminal(msgs: seq<PgMessage>, t: ResponseEvent, n: nat)
    requires Readies(msgs) < n && !t.Message?
    ensures Complete(NormalizedStream(Events(msgs) + [t]), n)
  {
    NormalizedMessages(msgs);
    NormalizedSnoc(Events(msgs), t);
    CompleteSnoc(NormalizedStream(Events(msgs)), NormalizedEvent(t).value, n);
  }

  lemma EventsEndingInReady(msgs: seq<PgMessage>, n: nat)
    requires msgs != [] && msgs[|msgs| - 1].ReadyForQuery? && Readies(msgs) == n
    ensures Complete(NormalizedStream(Events(msgs)), n)
  {
    var front, last := msgs[..|msgs| - 1], msgs[|msgs| - 1];
    NormalizedMessages(front);
    NormalizedMessages(msgs);
    EventsSnoc(msgs);
    NormalizedSnoc(Events(front), Message(last));
    CompleteSnoc(NormalizedStream(Events(front)), NReadyForQuery(last.status), n);
  }

  lemma CompleteSnoc(s: seq<NormalizedMsg>, m: NormalizedMsg, n: nat)
    requires (forall x :: x in s ==> !IsTerminal(x)) && NReadies(s) < n
    requires IsTerminal(m) || NReadies(s + [m]) == n
    ensures Complete(s + [m], n)
  {
    assert (s + [m])[..|s|] == s;
  }

  /** Whatever the server does, one side of a run with a Sync or Query is a complete stream. */
  lemma RepliesAreComplete(b: Backend, w: Wire, received: nat, ops: seq<FrontendOp>)
    requires HasRequest(ops)
    ensures Complete(NormalizedStream(Replies(b, w, received, ops)), ExpectedReady(ops))
  {
    ExpectedReadyPositive(ops);
    var n := ExpectedReady(ops);
    match Transmitted(b, w, ops)
    case Failure(error) =>
      EventsEndingInTerminal([], Disconnected(error), n);
      assert Events([]) + [Disconnected(error)] == [Disconnected(error)];
    case Success(w') =>
      var trace := b.respond(w'.sent);
      var msgs := Drop(trace.msgs, received);
      if n <= Readies(msgs) {
        CutEndsInReady(msgs, n);
        EventsEndingInReady(msgs[..Cut(msgs, n)], n);
      } else {
        EventsEndingInTerminal(msgs, Terminal(trace.end, n)[0], n);
      }
  }

  /** Two complete streams that differ, differ at a position both have. */
  lemma BothSidesPresent(a: seq<NormalizedMsg>, b: seq<NormalizedMsg>, n: nat, ops: seq<FrontendOp>)
    requires Complete(a, n) && Complete(b, n) && a != b
    ensures var d := Compared(a, b, ops); d.Some? && d.value.expected.Some? && d.value.actual.Some?
  {
    CompleteIsPrefixFree(a, b, n);
    CompleteIsPrefixFree(b, a, n);
    var k := CommonPrefix(a, b);
    assert a[..|a|] == a && b[..|b|] == b;
  }

  /** Any run of a sequence with a Sync or Query: a divergence always has a message on both sides. */
  lemma NoEndOfStream(runner: DualRunner, n: nat, ops: seq<FrontendOp>)
    requires HasRequest(ops) && runner.Outcome(n, ops).Success?
    ensures var streams := runner.Outcome(n, ops).value;
      var d := Compared(NormalizedStream(streams.0), NormalizedStream(streams.1), ops);
      d.Some? ==> d.value.expected.Some? && d.value.actual.Some?
  {
    var streams := runner.Outcome(n, ops).value;
    var pg, target := runner.pgFactory(n).value, runner.targetFactory(n).value;
    var pgReady := SetUp(pg, FRESH, runner.setupStmts).value;
    var targetReady := SetUp(target, FRESH, runner.setupStmts).value;
    RepliesAreComplete(pg, pgReady.wire, pgReady.received, ops);
    RepliesAreComplete(target, targetReady.wire, targetReady.received, ops);
    var a, b := NormalizedStream(streams.0), NormalizedStream(streams.1);
    if a != b {
      BothSidesPresent(a, b, ExpectedReady(ops), ops);
    }
  }

  /** The two sides of some run on fresh connections end at different points. */
  ghost predicate CanRunOut(ops: seq<FrontendOp>) {
    exists pg: Backend, target: Backend {:trigger RunsOut(pg, target, ops)} :: RunsOut(pg, target, ops)
  }

  ghost predicate RunsOut(pg: Backend, target: Backend, ops: seq<FrontendOp>) {
    var d := Compared(NormalizedStream(Replies(pg, Wire([], []), 0, ops)),
                      NormalizedStream(Replies(target, Wire([], []), 0, ops)), ops);
    d.Some? && (d.value.expected.None? || d.value.actual.None?)
  }

  function Scripted(msgs: seq<PgMessage>): Backend {
    Backend(_ => None, _ => Trace(msgs, Silent))
  }

  lemma {:induction false} ScriptedAccepts(msgs: seq<PgMessage>, w: Wire, ops: seq<FrontendOp>)
    ensures SendAll(Scripted(msgs), w, ops).Success?
  {
    if ops != [] {
      ScriptedAccepts(msgs, w, ops[..|ops| - 1]);
    }
  }

  lemma ScriptedReplies(msgs: seq<PgMessage>, ops: seq<FrontendOp>)
    requires !HasRequest(ops)
    ensures Replies(Scripted(msgs), Wire([], []), 0, ops) == Events(msgs)
  {
    ScriptedAccepts(msgs, Wire([], []), ops);
    ExpectedReadyPositive(ops);
    assert Drop(msgs, 0) == msgs;
  }

  /** An end-of-stream divergence is possible exactly for sequences without Sync or Query. */
  lemma EndOfStreamIff(ops: seq<FrontendOp>)
    ensures CanRunOut(ops) <==> !HasRequest(ops)
  {
    if HasRequest(ops) {
      forall pg: Backend, target: Backend ensures !RunsOut(pg, target, ops) {
        RepliesAreComplete(pg, Wire([], []), 0, ops);
        RepliesAreComplete(target, Wire([], []), 0, ops);
        var a := NormalizedStream(Replies(pg, Wire([], []), 0, ops));
        var b := NormalizedStream(Replies(target, Wire([], []), 0, ops));
        if a != b {
          BothSidesPresent(a, b, ExpectedReady(ops), ops);
        }
      }
    } else {
      ScriptedReplies([ParseComplete], ops);
      ScriptedReplies([], ops);
      var chatty := NormalizedStream(Events([ParseComplete]));
      assert Events([ParseComplete])[..0] == [];
      assert chatty == [NParseComplete];
      assert RunsOut(Scripted([ParseComplete]), Scripted([]), ops);
    }
  }
}

/**
 Shrinking a failing sequence (src/shrinker.rs).

 Every pass asks one question again and again: does this candidate still show the
 same class of divergence? The answers come from live servers, so they are modelled
 as an oracle that may change its mind from run to run. Each pass and the fixed-point
 loop are methods over a runner; each is proved to compute what a function of the
 oracle, the ops and the run counter says.
 */
module Shrinker {
  import opened Wrappers
  import opened Ops
  import opened Runner
  import opened Comparator

  // ---------------------------------------------------------------------------
  // Divergence classes
  // ---------------------------------------------------------------------------

  datatype DivergenceClass = DivergenceClass(expectedKind: string, actualKind: string)

  function MsgKind(msg: Option<NormalizedMsg>): string {
    match msg
    case None => "EndOfStream"
    case Some(m) =>
      match m
      case NReadyForQuery(_) => "ReadyForQuery"
      case NErrorResponse(_, _) => "ErrorResponse"
      case NNoticeResponse(_, _) => "NoticeResponse"
      case NRowDescription(_) => "RowDescription"
      case NDataRow(_) => "DataRow"
      case NCommandComplete(_) => "CommandComplete"
      case NParameterDescription(_) => "ParameterDescription"
      case NCopyInResponse(_, _) => "CopyInResponse"
      case NCopyOutResponse(_, _) => "CopyOutResponse"
      case NCopyData(_) => "CopyData"
      case NParseComplete => "ParseComplete"
      case NBindComplete => "BindComplete"
      case NCloseComplete => "CloseComplete"
      case NNoData => "NoData"
      case NEmptyQueryResponse => "EmptyQueryResponse"
      case NPortalSuspended => "PortalSuspended"
      case NCopyDone => "CopyDone"
      case NTimeout => "Timeout"
      case NDisconnected(_) => "Disconnected"
  }

  function Classify(div: Divergence): DivergenceClass {
    DivergenceClass(MsgKind(div.expected), MsgKind(div.actual))
  }

  /** The constructor of a message, counted from 1; 0 for no message. */
  function KindIndex(msg: Option<NormalizedMsg>): nat {
    match msg
    case None => 0
    case Some(m) =>
      match m
      case NReadyForQuery(_) => 1
      case NErrorResponse(_, _) => 2
      case NNoticeResponse(_, _) => 3
      case NRowDescription(_) => 4
      case NDataRow(_) => 5
      case NCommandComplete(_) => 6
      case NParameterDescription(_) => 7
      case NCopyInResponse(_, _) => 8
      case NCopyOutResponse(_, _) => 9
      case NCopyData(_) => 10
      case NParseComplete => 11
      case NBindComplete => 12
      case NCloseComplete => 13
      case NNoData => 14
      case NEmptyQueryResponse => 15
      case NPortalSuspended => 16
      case NCopyDone => 17
      case NTimeout => 18
      case NDisconnected(_) => 19
  }

  /** The length of a kind name and at most two of its characters tell which it is. */
  function KindNumber(name: string): nat {
    if |name| == 6 then 14
    else if |name| == 7 then (if name[0] == 'D' then 5 else 18)
    else if |name| == 8 then (if name[5] == 'a' then 10 else 17)
    else if |name| == 11 then 0
    else if |name| == 12 then (if name[0] == 'B' then 12 else 19)
    else if |name| == 13 then
      (if name[0] == 'R' then 1 else if name[0] == 'E' then 2 else if name[0] == 'P' then 11 else 13)
    else if |name| == 14 then (if name[0] == 'N' then 3 else if name[0] == 'R' then 4 else 8)
    else if |name| == 15 then (if name[0] == 'P' then 16 else if name[2] == 'm' then 6 else 9)
    else if |name| == 18 then 15
    else 7
  }

  lemma KindNumberIs(msg: Option<NormalizedMsg>)
    ensures KindNumber(MsgKind(msg)) == KindIndex(msg)
  {
  }

  function KindName(k: nat): string {
    if k == 0 then "EndOfStream"
    else if k == 1 then "ReadyForQuery"
    else if k == 2 then "ErrorResponse"
    else if k == 3 then "NoticeResponse"
    else if k == 4 then "RowDescription"
    else if k == 5 then "DataRow"
    else if k == 6 then "CommandComplete"
    else if k == 7 then "ParameterDescription"
    else if k == 8 then "CopyInResponse"
    else if k == 9 then "CopyOutResponse"
    else if k == 10 then "CopyData"
    else if k == 11 then "ParseComplete"
    else if k == 12 then "BindComplete"
    else if k == 13 then "CloseComplete"
    else if k == 14 then "NoData"
    else if k == 15 then "EmptyQueryResponse"
    else if k == 16 then "PortalSuspended"
    else if k == 17 then "CopyDone"
    else if k == 18 then "Timeout"
    else "Disconnected"
  }

  lemma KindNameIs(msg: Option<NormalizedMsg>)
    ensures MsgKind(msg) == KindName(KindIndex(msg))
  {
  }

  /** Two divergences are in the same class exactly if both sides agree in their message constructor. */
  lemma SameClassIff(a: Divergence, b: Divergence)
    ensures Classify(a) == Classify(b) <==>
      KindIndex(a.expected) == KindIndex(b.expected) && KindIndex(a.actual) == KindIndex(b.actual)
  {
    SameKindIff(a.expected, b.expected);
    SameKindIff(a.actual, b.actual);
  }

  /** A class names the constructor on either side, the expected one first. */
  lemma ClassIs(d: Divergence)
    ensures Classify(d).expectedKind == KindName(KindIndex(d.expected))
    ensures Classify(d).actualKind == KindName(KindIndex(d.actual))
  {
    KindNameIs(d.expected);
    KindNameIs(d.actual);
  }

  lemma SameKindIff(a: Option<NormalizedMsg>, b: Option<NormalizedMsg>)
    ensures MsgKind(a) == MsgKind(b) <==> KindIndex(a) == KindIndex(b)
  {
    KindNumberIs(a);
    KindNumberIs(b);
    KindNameIs(a);
    KindNameIs(b);
  }

  // ---------------------------------------------------------------------------
  // The oracle
  // ---------------------------------------------------------------------------

  /** Whether a candidate reproduces in the run with the given number. */
  type Oracle = (nat, seq<FrontendOp>) -> bool

  /** Whether two streams diverge in the given class. */
  predicate ShowsClass(streams: Streams, cls: DivergenceClass) {
    var div := Compared(NormalizedStream(streams.0), NormalizedStream(streams.1), []);
    div.Some? && Classify(div.value) == cls
  }

  predicate Reproduced(runner: DualRunner, cls: DivergenceClass, n: nat, candidate: seq<FrontendOp>) {
    var r := runner.Outcome(n, candidate);
    candidate != [] && r.Success? && ShowsClass(r.value, cls)
  }

  function OracleOf(runner: DualRunner, cls: DivergenceClass): Oracle {
    (n: nat, candidate: seq<FrontendOp>) => Reproduced(runner, cls, n, candidate)
  }

  /** The oracle gives the answers the runner's servers would. */
  ghost predicate Answers(o: Oracle, runner: DualRunner, cls: DivergenceClass) {
    forall n, c {:trigger Reproduced(runner, cls, n, c)} :: o(n, c) == Reproduced(runner, cls, n, c)
  }

  lemma OracleAnswers(runner: DualRunner, cls: DivergenceClass)
    ensures Answers(OracleOf(runner, cls), runner, cls)
  {
  }

  /** The empty candidate is turned down without a run. */
  function Tick(candidate: seq<FrontendOp>, clock: nat): nat {
    if candidate == [] then clock else clock + 1
  }

  predicate Accepts(o: Oracle, clock: nat, candidate: seq<FrontendOp>) {
    candidate != [] && o(clock, candidate)
  }

  method Reproduces(candidate: seq<FrontendOp>, cls: DivergenceClass, runner: DualRunner, ghost o: Oracle)
    returns (b: bool)
    requires Answers(o, runner, cls)
    modifies runner`runs
    ensures b == Accepts(o, old(runner.runs), candidate)
    ensures runner.runs == Tick(candidate, old(runner.runs))
  {
    if candidate == [] {
      return false;
    }
    var r := runner.Run(candidate);
    assert o(old(runner.runs), candidate) == Reproduced(runner, cls, old(runner.runs), candidate);
    match r {
      case Success((pg, target)) =>
        var div := Compare(pg, target, candidate);
        b := div.Some? && Classify(div.value) == cls;
      case Failure(_) =>
        b := false;
    }
  }

  // ---------------------------------------------------------------------------
  // What the passes compute
  // ---------------------------------------------------------------------------

  /** What a pass found, and the run counter when it stopped. */
  datatype Probe = Probe(found: Option<seq<FrontendOp>>, clock: nat)

  /** Tries candidates in order and takes the first that reproduces. */
  function FirstHit(o: Oracle, candidates: seq<seq<FrontendOp>>, clock: nat): Probe {
    if candidates == [] then Probe(None, clock)
    else
      var c := candidates[0];
      if Accepts(o, clock, c) then Probe(Some(c), Tick(c, clock))
      else FirstHit(o, candidates[1..], Tick(c, clock))
  }

  function PrefixCount(ops: seq<FrontendOp>): nat {
    if ops == [] then 0 else |ops| - 1
  }

  /** The proper non-empty prefixes, shortest first. */
  function Prefixes(ops: seq<FrontendOp>): seq<seq<FrontendOp>> {
    seq(PrefixCount(ops), i requires 0 <= i < PrefixCount(ops) => ops[..i + 1])
  }

  /** The proper non-empty suffixes, shortest first. */
  function Suffixes(ops: seq<FrontendOp>): seq<seq<FrontendOp>> {
    seq(PrefixCount(ops), i requires 0 <= i < PrefixCount(ops) => ops[|ops| - 1 - i..])
  }

  function Without(ops: seq<FrontendOp>, i: nat): seq<FrontendOp>
    requires i < |ops|
  {
    ops[..i] + ops[i + 1..]
  }

  function Deletions(ops: seq<FrontendOp>): seq<seq<FrontendOp>> {
    seq(|ops|, i requires 0 <= i < |ops| => Without(ops, i))
  }

  function Slice(ops: seq<FrontendOp>, i: nat, length: nat): seq<FrontendOp>
    requires i + length <= |ops|
  {
    ops[i..i + length]
  }

  /** Tries the windows of one length from position `i` on and takes the first that reproduces. */
  function FirstWindow(o: Oracle, ops: seq<FrontendOp>, length: nat, i: nat, clock: nat): Probe
    decreases |ops| - i
  {
    if i + length > |ops| || i >= |ops| then Probe(None, clock)
    else
      var c := Slice(ops, i, length);
      if Accepts(o, clock, c) then Probe(Some(c), Tick(c, clock))
      else FirstWindow(o, ops, length, i + 1, Tick(c, clock))
  }

  /** The search over window lengths, with bounds `lo` and `hi` and the best window so far. */
  function Search(o: Oracle, ops: seq<FrontendOp>, lo: nat, hi: nat, best: Option<seq<FrontendOp>>, clock: nat): Probe
    requires 1 <= lo && hi < |ops|
    decreases hi + 1 - lo
  {
    if lo > hi then Probe(best, clock)
    else
      var mid := (lo + hi) / 2;
      var p := FirstWindow(o, ops, mid, 0, clock);
      if p.found.Some? then
        if mid <= 1 then p else Search(o, ops, lo, mid - 1, p.found, p.clock)
      else Search(o, ops, mid + 1, hi, best, p.clock)
  }

  function SearchWindows(o: Oracle, ops: seq<FrontendOp>, clock: nat): Probe {
    if |ops| <= 2 then Probe(None, clock)
    else
      var p := Search(o, ops, 1, |ops| - 1, None, clock);
      if p.found.Some? && |p.found.value| < |ops| then p else p.(found := None)
  }

  function SimplifyNames(op: FrontendOp): Option<FrontendOp> {
    match op
    case Parse(name, sql, paramOids) =>
      if name != UnnamedStmt then Some(Parse(UnnamedStmt, sql, paramOids)) else None
    case Bind(portal, stmt, params) =>
      if portal != UnnamedPortal || stmt != UnnamedStmt then Some(Bind(UnnamedPortal, UnnamedStmt, params)) else None
    case DescribeStatement(name) => if name != UnnamedStmt then Some(DescribeStatement(UnnamedStmt)) else None
    case DescribePortal(name) => if name != UnnamedPortal then Some(DescribePortal(UnnamedPortal)) else None
    case Execute(portal, maxRows) =>
      if portal != UnnamedPortal then Some(Execute(UnnamedPortal, maxRows)) else None
    case CloseStatement(name) => if name != UnnamedStmt then Some(CloseStatement(UnnamedStmt)) else None
    case ClosePortal(name) => if name != UnnamedPortal then Some(ClosePortal(UnnamedPortal)) else None
    case _ => None
  }

  function SimplifySql(op: FrontendOp): Option<FrontendOp> {
    match op
    case Query(sql) => if sql != "SELECT 1" then Some(Query("SELECT 1")) else None
    case Parse(name, sql, _) => if sql != "SELECT 1" then Some(Parse(name, "SELECT 1", [])) else None
    case _ => None
  }

  type Rewriter = FrontendOp -> Option<FrontendOp>

  /** The state of the fixed-point loop, and of a rewriting pass. */
  datatype Progress = Progress(ops: seq<FrontendOp>, progress: bool, clock: nat)

  /** Rewrites position by position from `i` on, keeping each rewrite that still reproduces. */
  function Greedy(o: Oracle, f: Rewriter, s: Progress, i: nat): Progress
    decreases |s.ops| - i
  {
    if i >= |s.ops| then s
    else
      match f(s.ops[i])
      case None => Greedy(o, f, s, i + 1)
      case Some(simplified) =>
        var candidate := s.ops[i := simplified];
        if Accepts(o, s.clock, candidate) then Greedy(o, f, Progress(candidate, true, Tick(candidate, s.clock)), i + 1)
        else Greedy(o, f, s.(clock := Tick(candidate, s.clock)), i + 1)
  }

  function Rewrite(o: Oracle, f: Rewriter, ops: seq<FrontendOp>, clock: nat): Probe {
    var s := Greedy(o, f, Progress(ops, false, clock), 0);
    Probe(if s.progress then Some(s.ops) else None, s.clock)
  }

  datatype PassKind = SuffixTrim | PrefixTrim | SingleDeletion | Subsequence | NameSimplification | SqlSimplification

  const PASS_COUNT := 6

  /** The order of the passes in a round. */
  function KindAt(k: nat): PassKind
    requires k < PASS_COUNT
  {
    if k == 0 then SuffixTrim
    else if k == 1 then PrefixTrim
    else if k == 2 then SingleDeletion
    else if k == 3 then Subsequence
    else if k == 4 then NameSimplification
    else SqlSimplification
  }

  function Pass(kind: PassKind, o: Oracle, ops: seq<FrontendOp>, clock: nat): Probe {
    match kind
    case SuffixTrim => FirstHit(o, Prefixes(ops), clock)
    case PrefixTrim => FirstHit(o, Suffixes(ops), clock)
    case SingleDeletion => FirstHit(o, Deletions(ops), clock)
    case Subsequence => SearchWindows(o, ops, clock)
    case NameSimplification => Rewrite(o, SimplifyNames, ops, clock)
    case SqlSimplification => Rewrite(o, SimplifySql, ops, clock)
  }

  function Take(s: Progress, p: Probe): Progress {
    match p.found
    case None => s.(clock := p.clock)
    case Some(shrunk) => Progress(shrunk, true, p.clock)
  }

  /** The first `k` passes of a round, one after the other. */
  function Passes(o: Oracle, s: Progress, k: nat): Progress
    requires k <= PASS_COUNT
  {
    if k == 0 then s
    else
      var s' := Passes(o, s, k - 1);
      Take(s', Pass(KindAt(k - 1), o, s'.ops, s'.clock))
  }

  /** One round: the six passes in order, each on what the one before it left. */
  function Round(o: Oracle, ops: seq<FrontendOp>, clock: nat): Progress {
    Passes(o, Progress(ops, false, clock), PASS_COUNT)
  }

  lemma PassStep(o: Oracle, s: Progress, k: nat, at: Progress)
    requires k < PASS_COUNT && at == Passes(o, s, k)
    ensures Passes(o, s, k + 1) == Take(at, Pass(KindAt(k), o, at.ops, at.clock))
  {
  }

  // ---------------------------------------------------------------------------
  // Termination, whatever the oracle answers
  // ---------------------------------------------------------------------------

  function Rewritable(f: Rewriter, ops: seq<FrontendOp>): nat {
    if ops == [] then 0
    else Rewritable(f, ops[..|ops| - 1]) + if f(ops[|ops| - 1]).Some? then 1 else 0
  }

  /** Length, plus the ops with a name to drop, plus the ops with SQL to replace. */
  function Size(ops: seq<FrontendOp>): nat {
    |ops| + Rewritable(SimplifyNames, ops) + Rewritable(SimplifySql, ops)
  }

  lemma {:induction false} RewritableAppend(f: Rewriter, a: seq<FrontendOp>, b: seq<FrontendOp>)
    ensures Rewritable(f, a + b) == Rewritable(f, a) + Rewritable(f, b)
  {
    if b == [] {
      assert a + b == a;
    } else {
      assert (a + b)[..|a + b| - 1] == a + b[..|b| - 1];
      RewritableAppend(f, a, b[..|b| - 1]);
    }
  }

  /** What is left of a sequence when a middle part is cut out is smaller. */
  lemma CutOutIsSmaller(ops: seq<FrontendOp>, i: nat, j: nat)
    requires i < j <= |ops|
    ensures Size(ops[..i] + ops[j..]) < Size(ops)
  {
    assert ops == ops[..i] + ops[i..j] + ops[j..];
    forall f: Rewriter
      ensures Rewritable(f, ops[..i] + ops[j..]) <= Rewritable(f, ops)
    {
      RewritableAppend(f, ops[..i] + ops[i..j], ops[j..]);
      RewritableAppend(f, ops[..i], ops[i..j]);
      RewritableAppend(f, ops[..i], ops[j..]);
    }
  }

  lemma PrefixIsSmaller(ops: seq<FrontendOp>, j: nat)
    requires j < |ops|
    ensures Size(ops[..j]) < Size(ops)
  {
    CutOutIsSmaller(ops, j, |ops|);
    assert ops[..j] + ops[|ops|..] == ops[..j];
  }

  lemma SuffixIsSmaller(ops: seq<FrontendOp>, i: nat)
    requires 0 < i <= |ops|
    ensures Size(ops[i..]) < Size(ops)
  {
    CutOutIsSmaller(ops, 0, i);
    assert ops[..0] + ops[i..] == ops[i..];
  }

  lemma WindowIsSmaller(ops: seq<FrontendOp>, i: nat, j: nat)
    requires i <= j <= |ops| && j - i < |ops|
    ensures Size(ops[i..j]) < Size(ops)
  {
    assert ops[i..j] == ops[..j][i..];
    if j < |ops| {
      PrefixIsSmaller(ops, j);
    } else {
      assert ops[..j] == ops;
    }
    if i > 0 {
      SuffixIsSmaller(ops[..j], i);
    } else {
      assert ops[..j][i..] == ops[..j];
    }
  }

  lemma RewritableUpdate(f: Rewriter, ops: seq<FrontendOp>, i: nat, op: FrontendOp)
    requires i < |ops|
    ensures Rewritable(f, ops[i := op]) + (if f(ops[i]).Some? then 1 else 0)
         == Rewritable(f, ops) + (if f(op).Some? then 1 else 0)
  {
    var before, after := ops[..i], ops[i + 1..];
    assert ops == before + [ops[i]] + after && ops[i := op] == before + [op] + after;
    RewritableAppend(f, before + [ops[i]], after);
    RewritableAppend(f, before + [op], after);
    RewritableAppend(f, before, [ops[i]]);
    RewritableAppend(f, before, [op]);
    assert [ops[i]][..0] == [] && [op][..0] == [];
  }

  /** One of the two rewritings of the shrinker, undoing nothing the other has done. */
  ghost predicate IsSimplifier(f: Rewriter) {
    f == SimplifyNames || f == SimplifySql
  }

  lemma RewriteIsSmaller(f: Rewriter, ops: seq<FrontendOp>, i: nat)
    requires IsSimplifier(f) && i < |ops| && f(ops[i]).Some?
    ensures Size(ops[i := f(ops[i]).value]) < Size(ops)
  {
    var op := f(ops[i]).value;
    RewritableUpdate(SimplifyNames, ops, i, op);
    RewritableUpdate(SimplifySql, ops, i, op);
  }

  lemma {:induction false} FirstHitIsOne(o: Oracle, candidates: seq<seq<FrontendOp>>, clock: nat)
    ensures var p := FirstHit(o, candidates, clock);
      && clock <= p.clock <= clock + |candidates|
      && (p.found.Some? ==> p.found.value in candidates && p.found.value != [])
  {
    if candidates != [] && !Accepts(o, clock, candidates[0]) {
      FirstHitIsOne(o, candidates[1..], Tick(candidates[0], clock));
    }
  }

  ghost predicate IsWindow(w: seq<FrontendOp>, ops: seq<FrontendOp>) {
    exists i :: 0 <= i <= |ops| - |w| && Slice(ops, i, |w|) == w
  }

  lemma {:induction false} FirstWindowIsOne(o: Oracle, ops: seq<FrontendOp>, length: nat, i: nat, clock: nat)
    ensures var p := FirstWindow(o, ops, length, i, clock);
      p.found.Some? ==> p.found.value != [] && |p.found.value| == length && IsWindow(p.found.value, ops)
    decreases |ops| - i
  {
    if i + length <= |ops| && i < |ops| {
      var c := Slice(ops, i, length);
      if !Accepts(o, clock, c) {
        FirstWindowIsOne(o, ops, length, i + 1, Tick(c, clock));
      }
    }
  }

  lemma {:induction false} SearchIsOne(
    o: Oracle, ops: seq<FrontendOp>, lo: nat, hi: nat, best: Option<seq<FrontendOp>>, clock: nat)
    requires 1 <= lo && hi < |ops|
    ensures var p := Search(o, ops, lo, hi, best, clock);
      || p.found == best
      || (p.found.Some? && p.found.value != [] && lo <= |p.found.value| <= hi && IsWindow(p.found.value, ops))
    decreases hi + 1 - lo
  {
    if lo <= hi {
      var mid := (lo + hi) / 2;
      var p := FirstWindow(o, ops, mid, 0, clock);
      FirstWindowIsOne(o, ops, mid, 0, clock);
      if p.found.None? {
        SearchIsOne(o, ops, mid + 1, hi, best, p.clock);
      } else if mid > 1 {
        SearchIsOne(o, ops, lo, mid - 1, p.found, p.clock);
      }
    }
  }

  lemma {:induction false} GreedyIsSmaller(o: Oracle, f: Rewriter, s: Progress, i: nat)
    requires IsSimplifier(f)
    ensures var r := Greedy(o, f, s, i);
      && |r.ops| == |s.ops| && Size(r.ops) <= Size(s.ops)
      && (s.progress ==> r.progress)
      && (r.progress && !s.progress ==> Size(r.ops) < Size(s.ops))
      && (!r.progress ==> r.ops == s.ops)
    decreases |s.ops| - i
  {
    if i < |s.ops| {
      match f(s.ops[i])
      case None => GreedyIsSmaller(o, f, s, i + 1);
      case Some(simplified) =>
        var candidate := s.ops[i := simplified];
        RewriteIsSmaller(f, s.ops, i);
        if Accepts(o, s.clock, candidate) {
          GreedyIsSmaller(o, f, Progress(candidate, true, Tick(candidate, s.clock)), i + 1);
        } else {
          GreedyIsSmaller(o, f, s.(clock := Tick(candidate, s.clock)), i + 1);
        }
    }
  }

  lemma TrimIsSmaller(o: Oracle, ops: seq<FrontendOp>, clock: nat)
    ensures var p := FirstHit(o, Prefixes(ops), clock); p.found.Some? ==> Size(p.found.value) < Size(ops)
    ensures var p := FirstHit(o, Suffixes(ops), clock); p.found.Some? ==> Size(p.found.value) < Size(ops)
  {
    FirstHitIsOne(o, Prefixes(ops), clock);
    forall i | 0 <= i < |Prefixes(ops)| ensures Size(Prefixes(ops)[i]) < Size(ops) {
      WindowIsSmaller(ops, 0, i + 1);
      assert ops[0..i + 1] == ops[..i + 1];
    }
    FirstHitIsOne(o, Suffixes(ops), clock);
    forall i | 0 <= i < |Suffixes(ops)| ensures Size(Suffixes(ops)[i]) < Size(ops) {
      WindowIsSmaller(ops, |ops| - 1 - i, |ops|);
      assert ops[|ops| - 1 - i..|ops|] == ops[|ops| - 1 - i..];
    }
  }

  lemma DeletionIsSmaller(o: Oracle, ops: seq<FrontendOp>, clock: nat)
    ensures var p := FirstHit(o, Deletions(ops), clock); p.found.Some? ==> Size(p.found.value) < Size(ops)
  {
    FirstHitIsOne(o, Deletions(ops), clock);
    forall i | 0 <= i < |Deletions(ops)| ensures Size(Deletions(ops)[i]) < Size(ops) {
      CutOutIsSmaller(ops, i, i + 1);
    }
  }

  lemma WindowInIsSmaller(w: seq<FrontendOp>, ops: seq<FrontendOp>)
    requires IsWindow(w, ops) && |w| < |ops|
    ensures Size(w) < Size(ops)
  {
    var i :| 0 <= i <= |ops| - |w| && Slice(ops, i, |w|) == w;
    WindowIsSmaller(ops, i, i + |w|);
  }

  lemma SearchIsSmaller(o: Oracle, ops: seq<FrontendOp>, clock: nat)
    ensures var p := SearchWindows(o, ops, clock);
      p.found.Some? ==> Size(p.found.value) < Size(ops) && p.found.value != []
  {
    var p := SearchWindows(o, ops, clock);
    if p.found.Some? {
      SearchIsOne(o, ops, 1, |ops| - 1, None, clock);
      WindowInIsSmaller(p.found.value, ops);
    }
  }

  /** A pass that finds anything finds something smaller and not empty. */
  lemma PassIsSmaller(kind: PassKind, o: Oracle, ops: seq<FrontendOp>, clock: nat)
    ensures var p := Pass(kind, o, ops, clock);
      p.found.Some? ==> Size(p.found.value) < Size(ops) && (ops != [] ==> p.found.value != [])
  {
    var p := Pass(kind, o, ops, clock);
    match kind
    case SuffixTrim =>
      FirstHitIsOne(o, Prefixes(ops), clock);
      TrimIsSmaller(o, ops, clock);
    case PrefixTrim =>
      FirstHitIsOne(o, Suffixes(ops), clock);
      TrimIsSmaller(o, ops, clock);
    case SingleDeletion =>
      FirstHitIsOne(o, Deletions(ops), clock);
      DeletionIsSmaller(o, ops, clock);
    case Subsequence =>
      SearchIsSmaller(o, ops, clock);
    case NameSimplification =>
      GreedyIsSmaller(o, SimplifyNames, Progress(ops, false, clock), 0);
    case SqlSimplification =>
      GreedyIsSmaller(o, SimplifySql, Progress(ops, false, clock), 0);
  }

  lemma {:induction false} PassesAreSmaller(o: Oracle, s: Progress, k: nat)
    requires k <= PASS_COUNT
    ensures var r := Passes(o, s, k);
      && Size(r.ops) <= Size(s.ops)
      && (s.progress ==> r.progress)
      && (r.progress && !s.progress ==> Size(r.ops) < Size(s.ops))
      && (!r.progress ==> r.ops == s.ops)
      && (s.ops != [] ==> r.ops != [])
  {
    if k > 0 {
      PassesAreSmaller(o, s, k - 1);
      var s' := Passes(o, s, k - 1);
      PassIsSmaller(KindAt(k - 1), o, s'.ops, s'.clock);
    }
  }

  lemma RoundIsSmaller(o: Oracle, ops: seq<FrontendOp>, clock: nat)
    ensures var r := Round(o, ops, clock);
      && (r.progress ==> Size(r.ops) < Size(ops))
      && (!r.progress ==> r.ops == ops)
      && (ops != [] ==> r.ops != [])
  {
    PassesAreSmaller(o, Progress(ops, false, clock), PASS_COUNT);
  }

  /** Rounds until one makes no progress. Every other round makes the sequence smaller. */
  function Shrunk(o: Oracle, ops: seq<FrontendOp>, clock: nat): Progress
    decreases Size(ops)
  {
    var r := Round(o, ops, clock);
    RoundIsSmaller(o, ops, clock);
    if r.progress then Shrunk(o, r.ops, r.clock) else r
  }

  // ---------------------------------------------------------------------------
  // The passes
  // ---------------------------------------------------------------------------

  lemma FirstHitStep(o: Oracle, candidates: seq<seq<FrontendOp>>, k: nat, clock: nat)
    requires k < |candidates|
    ensures FirstHit(o, candidates[k..], clock) ==
      var c := candidates[k];
      if Accepts(o, clock, c) then Probe(Some(c), Tick(c, clock))
      else FirstHit(o, candidates[k + 1..], Tick(c, clock))
  {
    assert candidates[k..][1..] == candidates[k + 1..];
  }

  method TrimSuffix(ops: seq<FrontendOp>, cls: DivergenceClass, runner: DualRunner, ghost o: Oracle)
    returns (r: Option<seq<FrontendOp>>)
    requires Answers(o, runner, cls)
    modifies runner`runs
    ensures Probe(r, runner.runs) == FirstHit(o, Prefixes(ops), old(runner.runs))
  {
    ghost var candidates := Prefixes(ops);
    var end := 1;
    while end < |ops|
      invariant 1 <= end <= |candidates| + 1
      invariant FirstHit(o, candidates, old(runner.runs)) == FirstHit(o, candidates[end - 1..], runner.runs)
    {
      FirstHitStep(o, candidates, end - 1, runner.runs);
      var candidate := ops[..end];
      var b := Reproduces(candidate, cls, runner, o);
      if b {
        return Some(candidate);
      }
      end := end + 1;
    }
    r := None;
  }

  method TrimPrefix(ops: seq<FrontendOp>, cls: DivergenceClass, runner: DualRunner, ghost o: Oracle)
    returns (r: Option<seq<FrontendOp>>)
    requires Answers(o, runner, cls)
    modifies runner`runs
    ensures Probe(r, runner.runs) == FirstHit(o, Suffixes(ops), old(runner.runs))
  {
    ghost var candidates := Suffixes(ops);
    var length := 1;
    while length < |ops|
      invariant 1 <= length <= |candidates| + 1
      invariant FirstHit(o, candidates, old(runner.runs)) == FirstHit(o, candidates[length - 1..], runner.runs)
    {
      FirstHitStep(o, candidates, length - 1, runner.runs);
      var candidate := ops[|ops| - length..];
      assert candidate == candidates[length - 1];
      var b := Reproduces(candidate, cls, runner, o);
      if b {
        return Some(candidate);
      }
      length := length + 1;
    }
    r := None;
  }

  method DeleteOne(ops: seq<FrontendOp>, cls: DivergenceClass, runner: DualRunner, ghost o: Oracle)
    returns (r: Option<seq<FrontendOp>>)
    requires Answers(o, runner, cls)
    modifies runner`runs
    ensures Probe(r, runner.runs) == FirstHit(o, Deletions(ops), old(runner.runs))
  {
    ghost var candidates := Deletions(ops);
    for i := 0 to |ops|
      invariant FirstHit(o, candidates, old(runner.runs)) == FirstHit(o, candidates[i..], runner.runs)
    {
      FirstHitStep(o, candidates, i, runner.runs);
      var candidate := ops[..i] + ops[i + 1..];
      var b := Reproduces(candidate, cls, runner, o);
      if b {
        return Some(candidate);
      }
    }
    r := None;
  }

  /** The inner loop of the window search: the leftmost reproducing window of one length. */
  method FindWindow(ops: seq<FrontendOp>, length: nat, cls: DivergenceClass, runner: DualRunner, ghost o: Oracle)
    returns (r: Option<seq<FrontendOp>>)
    requires 0 < length <= |ops|
    requires Answers(o, runner, cls)
    modifies runner`runs
    ensures Probe(r, runner.runs) == FirstWindow(o, ops, length, 0, old(runner.runs))
  {
    for start := 0 to |ops| - length + 1
      invariant FirstWindow(o, ops, length, 0, old(runner.runs)) == FirstWindow(o, ops, length, start, runner.runs)
    {
      var candidate := ops[start..start + length];
      var b := Reproduces(candidate, cls, runner, o);
      if b {
        return Some(candidate);
      }
    }
    r := None;
  }

  lemma SearchStep(
    o: Oracle, ops: seq<FrontendOp>, lo: nat, hi: nat, best: Option<seq<FrontendOp>>, clock: nat, mid: nat)
    requires 1 <= lo <= hi < |ops| && mid == (lo + hi) / 2
    ensures lo <= mid <= hi
    ensures var p := FirstWindow(o, ops, mid, 0, clock);
      Search(o, ops, lo, hi, best, clock) ==
        if p.found.None? then Search(o, ops, mid + 1, hi, best, p.clock)
        else if mid <= 1 then p
        else Search(o, ops, lo, mid - 1, p.found, p.clock)
  {
  }

  method ShortestWindow(ops: seq<FrontendOp>, cls: DivergenceClass, runner: DualRunner, ghost o: Oracle)
    returns (r: Option<seq<FrontendOp>>)
    requires Answers(o, runner, cls)
    modifies runner`runs
    ensures Probe(r, runner.runs) == SearchWindows(o, ops, old(runner.runs))
  {
    var n := |ops|;
    if n <= 2 {
      return None;
    }
    var best := SearchLengths(ops, cls, runner, o);
    r := if best.Some? && |best.value| < n then best else None;
  }

  /** One probe of the search: bounds and best window afterwards, or that the search is over. */
  method SearchTurn(
    ops: seq<FrontendOp>, lo: nat, hi: nat, best: Option<seq<FrontendOp>>, cls: DivergenceClass, runner: DualRunner,
    ghost o: Oracle)
    returns (lo': nat, hi': nat, best': Option<seq<FrontendOp>>, over: bool)
    requires 1 <= lo <= hi < |ops| && Answers(o, runner, cls)
    modifies runner`runs
    ensures 1 <= lo' <= hi' + 1 && hi' < |ops| && (!over ==> hi' + 1 - lo' < hi + 1 - lo)
    ensures Search(o, ops, lo, hi, best, old(runner.runs)) ==
      if over then Probe(best', runner.runs) else Search(o, ops, lo', hi', best', runner.runs)
  {
    lo', hi', best', over := lo, hi, best, false;
    var mid := (lo + hi) / 2;
    SearchStep(o, ops, lo, hi, best, runner.runs, mid);
    var window := FindWindow(ops, mid, cls, runner, o);
    if window.Some? {
      best' := window;
      if mid <= 1 {
        over := true;
      } else {
        hi' := mid - 1;
      }
    } else {
      lo' := mid + 1;
    }
  }

  /** The binary search over the lengths of proper windows. */
  method SearchLengths(ops: seq<FrontendOp>, cls: DivergenceClass, runner: DualRunner, ghost o: Oracle)
    returns (best: Option<seq<FrontendOp>>)
    requires |ops| > 2 && Answers(o, runner, cls)
    modifies runner`runs
    ensures Probe(best, runner.runs) == Search(o, ops, 1, |ops| - 1, None, old(runner.runs))
  {
    ghost var all := Search(o, ops, 1, |ops| - 1, None, runner.runs);
    best := None;
    var lo, hi := 1, |ops| - 1;
    while lo <= hi
      invariant 1 <= lo <= hi + 1 && 0 <= hi < |ops|
      invariant Search(o, ops, lo, hi, best, runner.runs) == all
      decreases hi + 1 - lo
    {
      var over;
      lo, hi, best, over := SearchTurn(ops, lo, hi, best, cls, runner, o);
      if over {
        return;
      }
    }
  }

  method SimplifyAllNames(ops: seq<FrontendOp>, cls: DivergenceClass, runner: DualRunner, ghost o: Oracle)
    returns (r: Option<seq<FrontendOp>>)
    requires Answers(o, runner, cls)
    modifies runner`runs
    ensures Probe(r, runner.runs) == Rewrite(o, SimplifyNames, ops, old(runner.runs))
  {
    ghost var all := Greedy(o, SimplifyNames, Progress(ops, false, runner.runs), 0);
    var current := ops;
    var progress := false;
    for i := 0 to |ops|
      invariant |current| == |ops|
      invariant Greedy(o, SimplifyNames, Progress(current, progress, runner.runs), i) == all
    {
      var simplified := SimplifyNames(current[i]);
      if simplified.Some? {
        var candidate := current[i := simplified.value];
        var b := Reproduces(candidate, cls, runner, o);
        if b {
          current := candidate;
          progress := true;
        }
      }
    }
    r := if progress then Some(current) else None;
  }

  method SimplifyAllSql(ops: seq<FrontendOp>, cls: DivergenceClass, runner: DualRunner, ghost o: Oracle)
    returns (r: Option<seq<FrontendOp>>)
    requires Answers(o, runner, cls)
    modifies runner`runs
    ensures Probe(r, runner.runs) == Rewrite(o, SimplifySql, ops, old(runner.runs))
  {
    ghost var all := Greedy(o, SimplifySql, Progress(ops, false, runner.runs), 0);
    var current := ops;
    var progress := false;
    for i := 0 to |ops|
      invariant |current| == |ops|
      invariant Greedy(o, SimplifySql, Progress(current, progress, runner.runs), i) == all
    {
      var simplified := SimplifySql(current[i]);
      if simplified.Some? {
        var candidate := current[i := simplified.value];
        var b := Reproduces(candidate, cls, runner, o);
        if b {
          current := candidate;
          progress := true;
        }
      }
    }
    r := if progress then Some(current) else None;
  }

  method ShrinkRound(ops: seq<FrontendOp>, cls: DivergenceClass, runner: DualRunner, ghost o: Oracle)
    returns (current: seq<FrontendOp>, progress: bool)
    requires Answers(o, runner, cls)
    modifies runner`runs
    ensures Progress(current, progress, runner.runs) == Round(o, ops, old(runner.runs))
  {
    current, progress := TrimAndDelete(ops, cls, runner, o);
    current, progress := SearchAndSimplify(
      current, progress, cls, runner, o, Progress(ops, false, old(runner.runs)));
  }

  /** The first half of a round. */
  method TrimAndDelete(ops: seq<FrontendOp>, cls: DivergenceClass, runner: DualRunner, ghost o: Oracle)
    returns (current: seq<FrontendOp>, progress: bool)
    requires Answers(o, runner, cls)
    modifies runner`runs
    ensures Progress(current, progress, runner.runs) == Passes(o, Progress(ops, false, old(runner.runs)), 3)
  {
    current, progress := ops, false;
    ghost var s := Progress(ops, false, runner.runs);
    PassStep(o, s, 0, Progress(current, progress, runner.runs));
    var found := TrimSuffix(current, cls, runner, o);
    if found.Some? {
      current, progress := found.value, true;
    }
    PassStep(o, s, 1, Progress(current, progress, runner.runs));
    found := TrimPrefix(current, cls, runner, o);
    if found.Some? {
      current, progress := found.value, true;
    }
    PassStep(o, s, 2, Progress(current, progress, runner.runs));
    found := DeleteOne(current, cls, runner, o);
    if found.Some? {
      current, progress := found.value, true;
    }
  }

  /** The second half of a round that started from `s`. */
  method SearchAndSimplify(
    ops: seq<FrontendOp>, before: bool, cls: DivergenceClass, runner: DualRunner, ghost o: Oracle, ghost s: Progress)
    returns (current: seq<FrontendOp>, progress: bool)
    requires Answers(o, runner, cls) && Progress(ops, before, runner.runs) == Passes(o, s, 3)
    modifies runner`runs
    ensures Progress(current, progress, runner.runs) == Passes(o, s, PASS_COUNT)
  {
    current, progress := ops, before;
    PassStep(o, s, 3, Progress(current, progress, runner.runs));
    var found := ShortestWindow(current, cls, runner, o);
    if found.Some? {
      current, progress := found.value, true;
    }
    PassStep(o, s, 4, Progress(current, progress, runner.runs));
    found := SimplifyAllNames(current, cls, runner, o);
    if found.Some? {
      current, progress := found.value, true;
    }
    PassStep(o, s, 5, Progress(current, progress, runner.runs));
    found := SimplifyAllSql(current, cls, runner, o);
    if found.Some? {
      current, progress := found.value, true;
    }
  }

  /** The fixed-point loop. */
  method Shrink(ops: seq<FrontendOp>, divergence: Divergence, runner: DualRunner)
    returns (shrunk: seq<FrontendOp>)
    modifies runner`runs
    ensures Progress(shrunk, false, runner.runs)
         == Shrunk(OracleOf(runner, Classify(divergence)), ops, old(runner.runs))
  {
    var cls := Classify(divergence);
    ghost var o := OracleOf(runner, cls);
    OracleAnswers(runner, cls);
    var current := ops;
    while true
      invariant Shrunk(o, current, runner.runs) == Shrunk(o, ops, old(runner.runs))
      decreases Size(current)
    {
      RoundIsSmaller(o, current, runner.runs);
      var progress;
      current, progress := ShrinkRound(current, cls, runner, o);
      if !progress {
        break;
      }
    }
    shrunk := current;
  }
}

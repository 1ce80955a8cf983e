/**
 Generating op sequences (src/generator.rs).

 A random source is any infinite sequence of draws; every claim holds for all of them.
 The functions say what is generated from a source and a position in it, and how many
 draws that takes; the methods advance a generator's position and compute the same.
 */
module Generator {
  import opened Protocol
  import opened Ops
  import opened Templates

  // ---------------------------------------------------------------------------
  // Draws
  // ---------------------------------------------------------------------------

  type Source = nat -> nat

  /** A value and the position of the next draw. */
  datatype Drawn<+T> = Drawn(value: T, pos: nat)

  /** `random_bool` with a probability in percent. */
  function Coin(src: Source, pos: nat, percent: nat): bool {
    src(pos) % 100 < percent
  }

  /** `random_range(lo..hi)`. */
  function Pick(src: Source, pos: nat, lo: int, hi: int): (r: int)
    requires lo < hi
    ensures lo <= r < hi
  {
    lo + src(pos) % (hi - lo)
  }

  class Rng {
    const src: Source
    var pos: nat

    constructor (src: Source)
      ensures this.src == src && pos == 0
    {
      this.src := src;
      pos := 0;
    }

    method RandomBool(percent: nat) returns (b: bool)
      modifies this`pos
      ensures b == Coin(src, old(pos), percent) && pos == old(pos) + 1
    {
      b := Coin(src, pos, percent);
      pos := pos + 1;
    }

    method RandomRange(lo: int, hi: int) returns (r: int)
      requires lo < hi
      modifies this`pos
      ensures r == Pick(src, old(pos), lo, hi) && pos == old(pos) + 1
    {
      r := Pick(src, pos, lo, hi);
      pos := pos + 1;
    }
  }

  /** Counts failures before the first success, up to `max - 1`; the cap takes no draw. */
  function GeometricFrom(src: Source, pos: nat, percent: nat, max: nat, n: nat): Drawn<nat>
    decreases max - n
  {
    if n + 1 >= max then Drawn(n, pos)
    else if Coin(src, pos, percent) then Drawn(n, pos + 1)
    else GeometricFrom(src, pos + 1, percent, max, n + 1)
  }

  /**
   The result counts the failures up to the first success, or is the cap; one draw is
   taken for each failure, and one more for the success if there was one.
   */
  lemma {:induction false} GeometricCounts(src: Source, pos: nat, percent: nat, max: nat, n: nat)
    requires n < max
    ensures var d := GeometricFrom(src, pos, percent, max, n);
      var failures := d.value - n;
      && n <= d.value < max
      && (forall k :: pos <= k < pos + failures ==> !Coin(src, k, percent))
      && (if d.value == max - 1 then d.pos == pos + failures
          else d.pos == pos + failures + 1 && Coin(src, pos + failures, percent))
    decreases max - n
  {
    if n + 1 < max && !Coin(src, pos, percent) {
      GeometricCounts(src, pos + 1, percent, max, n + 1);
    }
  }

  method Geometric(rng: Rng, percent: nat, max: nat) returns (n: nat)
    requires max > 0
    modifies rng`pos
    ensures Drawn(n, rng.pos) == GeometricFrom(rng.src, old(rng.pos), percent, max, 0)
  {
    n := 0;
    while n < max - 1
      invariant GeometricFrom(rng.src, rng.pos, percent, max, n)
             == GeometricFrom(rng.src, old(rng.pos), percent, max, 0)
      decreases max - n
    {
      var stop := rng.RandomBool(percent);
      if stop {
        return;
      }
      n := n + 1;
    }
  }

  // ---------------------------------------------------------------------------
  // Helpers
  // ---------------------------------------------------------------------------

  const STMT_POOL: seq<StmtName> := [UnnamedStmt, S1, S2]
  const PORTAL_POOL: seq<PortalName> := [UnnamedPortal, P1, P2]

  function StmtNameAt(src: Source, pos: nat): StmtName {
    STMT_POOL[Pick(src, pos, 0, 3)]
  }

  function PortalNameAt(src: Source, pos: nat): PortalName {
    PORTAL_POOL[Pick(src, pos, 0, 3)]
  }

  method RandomStmtName(rng: Rng) returns (name: StmtName)
    modifies rng`pos
    ensures name == StmtNameAt(rng.src, old(rng.pos)) && rng.pos == old(rng.pos) + 1
  {
    var i := rng.RandomRange(0, |STMT_POOL|);
    name := STMT_POOL[i];
  }

  method RandomPortalName(rng: Rng) returns (name: PortalName)
    modifies rng`pos
    ensures name == PortalNameAt(rng.src, old(rng.pos)) && rng.pos == old(rng.pos) + 1
  {
    var i := rng.RandomRange(0, |PORTAL_POOL|);
    name := PORTAL_POOL[i];
  }

  predicate Suits(t: SqlEntry, affinity: Affinity) {
    affinity == AnyPath || t.affinity == affinity || t.affinity == AnyPath
  }

  function Candidates(templates: seq<SqlEntry>, affinity: Affinity): seq<SqlEntry> {
    if templates == [] then []
    else
      Candidates(templates[..|templates| - 1], affinity) +
      if Suits(templates[|templates| - 1], affinity) then [templates[|templates| - 1]] else []
  }

  /** A suitable template, or any template when none is suitable. */
  function TemplateAt(src: Source, pos: nat, templates: seq<SqlEntry>, affinity: Affinity): SqlEntry
    requires templates != []
  {
    var suitable := Candidates(templates, affinity);
    if suitable == [] then templates[Pick(src, pos, 0, |templates|)] else suitable[Pick(src, pos, 0, |suitable|)]
  }

  lemma {:induction false} CandidatesAre(templates: seq<SqlEntry>, affinity: Affinity, t: SqlEntry)
    ensures t in Candidates(templates, affinity) <==> t in templates && Suits(t, affinity)
  {
    if templates != [] {
      var front, last := templates[..|templates| - 1], templates[|templates| - 1];
      CandidatesAre(front, affinity, t);
      assert templates == front + [last];
    }
  }

  /** Suitable, unless nothing is. */
  ghost predicate Fitting(t: SqlEntry, templates: seq<SqlEntry>, affinity: Affinity) {
    t in templates && (Suits(t, affinity) || forall u :: u in templates ==> !Suits(u, affinity))
  }

  /** What is drawn is enabled, and suits the path it is drawn for if any template does. */
  lemma TemplateIsFitting(src: Source, pos: nat, templates: seq<SqlEntry>, affinity: Affinity)
    requires templates != []
    ensures Fitting(TemplateAt(src, pos, templates, affinity), templates, affinity)
  {
    var t := TemplateAt(src, pos, templates, affinity);
    CandidatesAre(templates, affinity, t);
    if !Suits(t, affinity) {
      forall u | u in templates ensures !Suits(u, affinity) {
        CandidatesAre(templates, affinity, u);
      }
    }
  }

  method RandomTemplate(templates: seq<SqlEntry>, affinity: Affinity, rng: Rng) returns (t: SqlEntry)
    requires templates != []
    modifies rng`pos
    ensures t == TemplateAt(rng.src, old(rng.pos), templates, affinity) && rng.pos == old(rng.pos) + 1
  {
    var suitable := Candidates(templates, affinity);
    if suitable == [] {
      var i := rng.RandomRange(0, |templates|);
      t := templates[i];
    } else {
      var i := rng.RandomRange(0, |suitable|);
      t := suitable[i];
    }
  }

  /** `format!("v{n}")` in UTF-8, for n below 100. */
  function VText(n: int): seq<byte>
    requires 0 <= n < 100
  {
    [118] + (if n < 10 then [48 + n] else [48 + n / 10, 48 + n % 10])
  }

  function ParamAt(src: Source, pos: nat): Drawn<Param> {
    var choice := Pick(src, pos, 0, 100);
    if choice < 10 then Drawn(Null, pos + 1)
    else if choice < 50 then Drawn(Int32(Pick(src, pos + 1, -100, 100)), pos + 2)
    else if choice < 90 then Drawn(Text(VText(Pick(src, pos + 1, 0, 100))), pos + 2)
    else
      var b := Pick(src, pos + 1, 0, 256);
      Drawn(Bytes(seq(Pick(src, pos + 2, 0, 8), _ => b)), pos + 3)
  }

  function ParamsAt(src: Source, pos: nat, count: nat): Drawn<seq<Param>> {
    if count == 0 then Drawn([], pos)
    else
      var front := ParamsAt(src, pos, count - 1);
      var last := ParamAt(src, front.pos);
      Drawn(front.value + [last.value], last.pos)
  }

  method RandomParam(rng: Rng) returns (p: Param)
    modifies rng`pos
    ensures Drawn(p, rng.pos) == ParamAt(rng.src, old(rng.pos))
  {
    var choice := rng.RandomRange(0, 100);
    if choice < 10 {
      p := Null;
    } else if choice < 50 {
      var v := rng.RandomRange(-100, 100);
      p := Int32(v);
    } else if choice < 90 {
      var n := rng.RandomRange(0, 100);
      p := Text(VText(n));
    } else {
      var b := rng.RandomRange(0, 256);
      var n := rng.RandomRange(0, 8);
      p := Bytes(seq(n, _ => b));
    }
  }

  method RandomParams(count: nat, rng: Rng) returns (params: seq<Param>)
    modifies rng`pos
    ensures Drawn(params, rng.pos) == ParamsAt(rng.src, old(rng.pos), count)
  {
    params := [];
    for i := 0 to count
      invariant Drawn(params, rng.pos) == ParamsAt(rng.src, old(rng.pos), i)
    {
      var p := RandomParam(rng);
      params := params + [p];
    }
  }

  function ParseAt(src: Source, pos: nat, templates: seq<SqlEntry>): Drawn<FrontendOp>
    requires templates != []
  {
    Drawn(Parse(StmtNameAt(src, pos + 1), TemplateAt(src, pos, templates, Extended).sql, []), pos + 2)
  }

  function BindAt(src: Source, pos: nat, templates: seq<SqlEntry>): Drawn<FrontendOp>
    requires templates != []
  {
    var params := ParamsAt(src, pos + 3, TemplateAt(src, pos, templates, Extended).paramCount);
    Drawn(Bind(PortalNameAt(src, pos + 1), StmtNameAt(src, pos + 2), params.value), params.pos)
  }

  function ExecuteAt(src: Source, pos: nat): Drawn<FrontendOp> {
    var portal := PortalNameAt(src, pos);
    if Coin(src, pos + 1, 80) then Drawn(Execute(portal, 0), pos + 2)
    else Drawn(Execute(portal, Pick(src, pos + 2, 1, 10)), pos + 3)
  }

  function QueryAt(src: Source, pos: nat, templates: seq<SqlEntry>): Drawn<FrontendOp>
    requires templates != []
  {
    Drawn(Query(TemplateAt(src, pos, templates, Simple).sql), pos + 1)
  }

  method RandomParse(templates: seq<SqlEntry>, rng: Rng) returns (op: FrontendOp)
    requires templates != []
    modifies rng`pos
    ensures Drawn(op, rng.pos) == ParseAt(rng.src, old(rng.pos), templates)
  {
    var t := RandomTemplate(templates, Extended, rng);
    var name := RandomStmtName(rng);
    op := Parse(name, t.sql, []);
  }

  method RandomBind(templates: seq<SqlEntry>, rng: Rng) returns (op: FrontendOp)
    requires templates != []
    modifies rng`pos
    ensures Drawn(op, rng.pos) == BindAt(rng.src, old(rng.pos), templates)
  {
    var t := RandomTemplate(templates, Extended, rng);
    var portal := RandomPortalName(rng);
    var stmt := RandomStmtName(rng);
    var params := RandomParams(t.paramCount, rng);
    op := Bind(portal, stmt, params);
  }

  method RandomExecute(rng: Rng) returns (op: FrontendOp)
    modifies rng`pos
    ensures Drawn(op, rng.pos) == ExecuteAt(rng.src, old(rng.pos))
  {
    var portal := RandomPortalName(rng);
    var all := rng.RandomBool(80);
    if all {
      op := Execute(portal, 0);
    } else {
      var n := rng.RandomRange(1, 10);
      op := Execute(portal, n);
    }
  }

  method RandomQuery(templates: seq<SqlEntry>, rng: Rng) returns (op: FrontendOp)
    requires templates != []
    modifies rng`pos
    ensures Drawn(op, rng.pos) == QueryAt(rng.src, old(rng.pos), templates)
  {
    var t := RandomTemplate(templates, Simple, rng);
    op := Query(t.sql);
  }

  // ---------------------------------------------------------------------------
  // The random strategy
  // ---------------------------------------------------------------------------

  /** A random op, by the choice drawn for it. */
  function ChosenOpAt(src: Source, next: nat, templates: seq<SqlEntry>, choice: int): Drawn<FrontendOp>
    requires templates != []
  {
    if choice < 15 then ParseAt(src, next, templates)
    else if choice < 30 then BindAt(src, next, templates)
    else if choice < 45 then ExecuteAt(src, next)
    else if choice < 55 then Drawn(Sync, next)
    else if choice < 65 then QueryAt(src, next, templates)
    else if choice < 72 then Drawn(DescribeStatement(StmtNameAt(src, next)), next + 1)
    else if choice < 79 then Drawn(DescribePortal(PortalNameAt(src, next)), next + 1)
    else if choice < 86 then Drawn(CloseStatement(StmtNameAt(src, next)), next + 1)
    else if choice < 93 then Drawn(ClosePortal(PortalNameAt(src, next)), next + 1)
    else if choice < 98 then Drawn(Flush, next)
    else Drawn(CopyDoneOp, next)
  }

  function RandomOpAt(src: Source, pos: nat, templates: seq<SqlEntry>): Drawn<FrontendOp>
    requires templates != []
  {
    ChosenOpAt(src, pos + 1, templates, Pick(src, pos, 0, 100))
  }

  method RandomOp(templates: seq<SqlEntry>, rng: Rng) returns (op: FrontendOp)
    requires templates != []
    modifies rng`pos
    ensures Drawn(op, rng.pos) == RandomOpAt(rng.src, old(rng.pos), templates)
  {
    var choice := rng.RandomRange(0, 100);
    op := ChosenOp(templates, choice, rng);
  }

  method ChosenOp(templates: seq<SqlEntry>, choice: int, rng: Rng) returns (op: FrontendOp)
    requires templates != []
    modifies rng`pos
    ensures Drawn(op, rng.pos) == ChosenOpAt(rng.src, old(rng.pos), templates, choice)
  {
    if choice < 15 {
      op := RandomParse(templates, rng);
    } else if choice < 30 {
      op := RandomBind(templates, rng);
    } else if choice < 45 {
      op := RandomExecute(rng);
    } else if choice < 55 {
      op := Sync;
    } else if choice < 65 {
      op := RandomQuery(templates, rng);
    } else if choice < 72 {
      var name := RandomStmtName(rng);
      op := DescribeStatement(name);
    } else if choice < 79 {
      var name := RandomPortalName(rng);
      op := DescribePortal(name);
    } else if choice < 86 {
      var name := RandomStmtName(rng);
      op := CloseStatement(name);
    } else if choice < 93 {
      var name := RandomPortalName(rng);
      op := ClosePortal(name);
    } else if choice < 98 {
      op := Flush;
    } else {
      op := CopyDoneOp;
    }
  }

  function RandomOpsAt(src: Source, pos: nat, templates: seq<SqlEntry>, len: nat): Drawn<seq<FrontendOp>>
    requires templates != []
  {
    if len == 0 then Drawn([], pos)
    else
      var front := RandomOpsAt(src, pos, templates, len - 1);
      var last := RandomOpAt(src, front.pos, templates);
      Drawn(front.value + [last.value], last.pos)
  }

  /** Something to wait for: a sequence without Sync and Query gets a final Sync. */
  function WithRequest(ops: seq<FrontendOp>): seq<FrontendOp> {
    if HasRequest(ops) then ops else ops + [Sync]
  }

  function RandomSequence(src: Source, pos: nat, templates: seq<SqlEntry>): Drawn<seq<FrontendOp>>
    requires templates != []
  {
    var len := GeometricFrom(src, pos, 12, 30, 0);
    var ops := RandomOpsAt(src, len.pos, templates, 1 + len.value);
    Drawn(WithRequest(ops.value), ops.pos)
  }

  method GenerateRandom(templates: seq<SqlEntry>, rng: Rng) returns (ops: seq<FrontendOp>)
    requires templates != []
    modifies rng`pos
    ensures Drawn(ops, rng.pos) == RandomSequence(rng.src, old(rng.pos), templates)
  {
    var n := Geometric(rng, 12, 30);
    ghost var start := rng.pos;
    ops := [];
    for i := 0 to 1 + n
      invariant Drawn(ops, rng.pos) == RandomOpsAt(rng.src, start, templates, i)
    {
      var op := RandomOp(templates, rng);
      ops := ops + [op];
    }
    if !HasRequest(ops) {
      ops := ops + [Sync];
    }
  }

  // ---------------------------------------------------------------------------
  // The grammar strategy
  // ---------------------------------------------------------------------------

  datatype ProtoState = Idle | InExtended | CopyIn

  /** How a step came by its op: a leak, the start of COPY-in, or an ordinary step. */
  datatype StepKind = Leak | Opener | Ordinary

  datatype Step = Step(op: FrontendOp, kind: StepKind, state: ProtoState, pos: nat)

  function FirstCopyIn(templates: seq<SqlEntry>): SqlEntry
    requires templates != []
  {
    if IsCopyIn(templates[0]) || |templates| == 1 then templates[0] else FirstCopyIn(templates[1..])
  }

  lemma {:induction false} FirstCopyInIsFirst(templates: seq<SqlEntry>)
    requires HasCopyIn(templates)
    ensures templates != [] && IsCopyIn(FirstCopyIn(templates))
    ensures exists i :: 0 <= i < |templates| && templates[i] == FirstCopyIn(templates)
                        && forall j :: 0 <= j < i ==> !IsCopyIn(templates[j])
  {
    var k :| 0 <= k < |templates| && IsCopyIn(templates[k]);
    if !IsCopyIn(templates[0]) {
      assert IsCopyIn(templates[1..][k - 1]);
      FirstCopyInIsFirst(templates[1..]);
      var i :| 0 <= i < |templates[1..]| && templates[1..][i] == FirstCopyIn(templates[1..])
               && forall j :: 0 <= j < i ==> !IsCopyIn(templates[1..][j]);
      assert templates[i + 1] == FirstCopyIn(templates);
      forall j | 0 <= j < i + 1 ensures !IsCopyIn(templates[j]) {
        if j > 0 {
          assert templates[j] == templates[1..][j - 1];
        }
      }
    }
  }

  function IdleStep(src: Source, pos: nat, templates: seq<SqlEntry>): Step
    requires templates != []
  {
    var hasCopyIn := HasCopyIn(templates);
    var p := if hasCopyIn then pos + 1 else pos;
    if hasCopyIn && Coin(src, pos, 10) then Step(Query(FirstCopyIn(templates).sql), Opener, CopyIn, p)
    else OutsideCopyStep(src, p, templates)
  }

  /** A simple query, or the start of an extended one. */
  function OutsideCopyStep(src: Source, pos: nat, templates: seq<SqlEntry>): Step
    requires templates != []
  {
    if Coin(src, pos, 30) then
      var q := QueryAt(src, pos + 1, templates);
      Step(q.value, Ordinary, Idle, q.pos)
    else
      var q := ParseAt(src, pos + 1, templates);
      Step(q.value, Ordinary, InExtended, q.pos)
  }

  /** The op of an extended-path step, by the choice drawn for it. */
  function ExtendedOpAt(src: Source, next: nat, templates: seq<SqlEntry>, choice: int): Drawn<FrontendOp>
    requires templates != []
  {
    if choice < 25 then BindAt(src, next, templates)
    else if choice < 45 then ExecuteAt(src, next)
    else if choice < 55 then Drawn(DescribeStatement(StmtNameAt(src, next)), next + 1)
    else if choice < 65 then Drawn(DescribePortal(PortalNameAt(src, next)), next + 1)
    else if choice < 70 then Drawn(Flush, next)
    else if choice < 80 then Drawn(Sync, next)
    else if choice < 88 then Drawn(CloseStatement(StmtNameAt(src, next)), next + 1)
    else if choice < 95 then Drawn(ClosePortal(PortalNameAt(src, next)), next + 1)
    else QueryAt(src, next, templates)
  }

  function ExtendedStep(src: Source, pos: nat, templates: seq<SqlEntry>): Step
    requires templates != []
  {
    var choice := Pick(src, pos, 0, 100);
    var d := ExtendedOpAt(src, pos + 1, templates, choice);
    Step(d.value, Ordinary, if 70 <= choice < 80 then Idle else InExtended, d.pos)
  }

  function CopyInStep(src: Source, pos: nat): Step {
    var choice := Pick(src, pos, 0, 100);
    if choice < 40 then Step(CopyDataOp([49, 10]), Ordinary, CopyIn, pos + 1)
    else if choice < 70 then Step(CopyDoneOp, Ordinary, Idle, pos + 1)
    else if choice < 85 then Step(CopyFailOp("abort"), Ordinary, Idle, pos + 1)
    else Step(Sync, Ordinary, Idle, pos + 1)
  }

  function GrammarStep(src: Source, pos: nat, templates: seq<SqlEntry>, state: ProtoState): Step
    requires templates != []
  {
    if Coin(src, pos, 5) then
      var d := RandomOpAt(src, pos + 1, templates);
      Step(d.value, Leak, state, d.pos)
    else
      match state
      case Idle => IdleStep(src, pos + 1, templates)
      case InExtended => ExtendedStep(src, pos + 1, templates)
      case CopyIn => CopyInStep(src, pos + 1)
  }

  /** Where the state machine stands after some steps. */
  function StateAfter(steps: seq<Step>): ProtoState {
    if steps == [] then Idle else steps[|steps| - 1].state
  }

  function PosAfter(steps: seq<Step>, start: nat): nat {
    if steps == [] then start else steps[|steps| - 1].pos
  }

  function OpsOf(steps: seq<Step>): seq<FrontendOp> {
    seq(|steps|, i requires 0 <= i < |steps| => steps[i].op)
  }

  /** The first `len` steps of the state machine. */
  function WalkAt(src: Source, pos: nat, templates: seq<SqlEntry>, len: nat): seq<Step>
    requires templates != []
  {
    if len == 0 then []
    else
      var w := WalkAt(src, pos, templates, len - 1);
      w + [GrammarStep(src, PosAfter(w, pos), templates, StateAfter(w))]
  }

  function GrammarWalk(src: Source, pos: nat, templates: seq<SqlEntry>): seq<Step>
    requires templates != []
  {
    var len := GeometricFrom(src, pos, 10, 25, 0);
    WalkAt(src, len.pos, templates, 2 + len.value)
  }

  function GrammarSequence(src: Source, pos: nat, templates: seq<SqlEntry>): Drawn<seq<FrontendOp>>
    requires templates != []
  {
    var len := GeometricFrom(src, pos, 10, 25, 0);
    var w := GrammarWalk(src, pos, templates);
    Drawn(WithRequest(OpsOf(w)), PosAfter(w, len.pos))
  }

  lemma GrammarSequenceIs(src: Source, pos: nat, templates: seq<SqlEntry>, len: Drawn<nat>, w: seq<Step>)
    requires templates != [] && len == GeometricFrom(src, pos, 10, 25, 0)
    requires w == WalkAt(src, len.pos, templates, 2 + len.value)
    ensures GrammarSequence(src, pos, templates) == Drawn(WithRequest(OpsOf(w)), PosAfter(w, len.pos))
  {
  }

  /** The visible part of a step. */
  predicate Stepped(op: FrontendOp, state: ProtoState, pos: nat, s: Step) {
    s == Step(op, s.kind, state, pos)
  }

  method NextOutsideCopy(templates: seq<SqlEntry>, rng: Rng) returns (op: FrontendOp, state: ProtoState)
    requires templates != []
    modifies rng`pos
    ensures Stepped(op, state, rng.pos, OutsideCopyStep(rng.src, old(rng.pos), templates))
  {
    var simple := rng.RandomBool(30);
    if simple {
      op := RandomQuery(templates, rng);
      state := Idle;
    } else {
      op := RandomParse(templates, rng);
      state := InExtended;
    }
  }

  method NextIdle(templates: seq<SqlEntry>, rng: Rng) returns (op: FrontendOp, state: ProtoState)
    requires templates != []
    modifies rng`pos
    ensures Stepped(op, state, rng.pos, IdleStep(rng.src, old(rng.pos), templates))
  {
    var start := false;
    if HasCopyIn(templates) {
      start := rng.RandomBool(10);
    }
    if start {
      op, state := Query(FirstCopyIn(templates).sql), CopyIn;
    } else {
      op, state := NextOutsideCopy(templates, rng);
    }
  }

  method NextExtendedOp(templates: seq<SqlEntry>, choice: int, rng: Rng) returns (op: FrontendOp)
    requires templates != []
    modifies rng`pos
    ensures Drawn(op, rng.pos) == ExtendedOpAt(rng.src, old(rng.pos), templates, choice)
  {
    if choice < 25 {
      op := RandomBind(templates, rng);
    } else if choice < 45 {
      op := RandomExecute(rng);
    } else if choice < 55 {
      var name := RandomStmtName(rng);
      op := DescribeStatement(name);
    } else if choice < 65 {
      var name := RandomPortalName(rng);
      op := DescribePortal(name);
    } else if choice < 70 {
      op := Flush;
    } else if choice < 80 {
      op := Sync;
    } else if choice < 88 {
      var name := RandomStmtName(rng);
      op := CloseStatement(name);
    } else if choice < 95 {
      var name := RandomPortalName(rng);
      op := ClosePortal(name);
    } else {
      op := RandomQuery(templates, rng);
    }
  }

  method NextExtended(templates: seq<SqlEntry>, rng: Rng) returns (op: FrontendOp, state: ProtoState)
    requires templates != []
    modifies rng`pos
    ensures Stepped(op, state, rng.pos, ExtendedStep(rng.src, old(rng.pos), templates))
  {
    var choice := rng.RandomRange(0, 100);
    op := NextExtendedOp(templates, choice, rng);
    state := if 70 <= choice < 80 then Idle else InExtended;
  }

  method NextCopyIn(rng: Rng) returns (op: FrontendOp, state: ProtoState)
    modifies rng`pos
    ensures Stepped(op, state, rng.pos, CopyInStep(rng.src, old(rng.pos)))
  {
    var choice := rng.RandomRange(0, 100);
    if choice < 40 {
      op, state := CopyDataOp([49, 10]), CopyIn;
    } else if choice < 70 {
      op, state := CopyDoneOp, Idle;
    } else if choice < 85 {
      op, state := CopyFailOp("abort"), Idle;
    } else {
      op, state := Sync, Idle;
    }
  }

  /** The loop body: a leaked random op, or a step of the state machine. */
  method NextStep(templates: seq<SqlEntry>, state: ProtoState, rng: Rng) returns (op: FrontendOp, state': ProtoState)
    requires templates != []
    modifies rng`pos
    ensures Stepped(op, state', rng.pos, GrammarStep(rng.src, old(rng.pos), templates, state))
  {
    var leak := rng.RandomBool(5);
    if leak {
      op := RandomOp(templates, rng);
      return op, state;
    }
    match state {
      case Idle => op, state' := NextIdle(templates, rng);
      case InExtended => op, state' := NextExtended(templates, rng);
      case CopyIn => op, state' := NextCopyIn(rng);
    }
  }

  lemma WalkStep(src: Source, pos: nat, templates: seq<SqlEntry>, i: nat, w: seq<Step>, s: Step)
    requires templates != [] && w == WalkAt(src, pos, templates, i)
    requires s == GrammarStep(src, PosAfter(w, pos), templates, StateAfter(w))
    ensures WalkAt(src, pos, templates, i + 1) == w + [s]
    ensures OpsOf(w + [s]) == OpsOf(w) + [s.op]
  {
  }

  /** A step, and how the walk so far goes on with it. */
  method NextTurn(templates: seq<SqlEntry>, state: ProtoState, rng: Rng, ghost start: nat, ghost w: seq<Step>)
    returns (op: FrontendOp, state': ProtoState, ghost w': seq<Step>)
    requires templates != [] && w == WalkAt(rng.src, start, templates, |w|)
    requires state == StateAfter(w) && rng.pos == PosAfter(w, start)
    modifies rng`pos
    ensures |w'| == |w| + 1 && w' == WalkAt(rng.src, start, templates, |w| + 1) && OpsOf(w') == OpsOf(w) + [op]
    ensures state' == StateAfter(w') && rng.pos == PosAfter(w', start)
  {
    ghost var s := GrammarStep(rng.src, rng.pos, templates, state);
    WalkStep(rng.src, start, templates, |w|, w, s);
    op, state' := NextStep(templates, state, rng);
    w' := w + [s];
  }

  method GenerateGrammar(templates: seq<SqlEntry>, rng: Rng) returns (ops: seq<FrontendOp>)
    requires templates != []
    modifies rng`pos
    ensures Drawn(ops, rng.pos) == GrammarSequence(rng.src, old(rng.pos), templates)
  {
    var n := Geometric(rng, 10, 25);
    ghost var start := rng.pos;
    ghost var w := [];
    ops := [];
    var state := Idle;
    for i := 0 to 2 + n
      invariant |w| == i && w == WalkAt(rng.src, start, templates, i)
      invariant ops == OpsOf(w) && state == StateAfter(w) && rng.pos == PosAfter(w, start)
    {
      var op;
      op, state, w := NextTurn(templates, state, rng, start, w);
      ops := ops + [op];
    }
    GrammarSequenceIs(rng.src, old(rng.pos), templates, Drawn(n, start), w);
    if !HasRequest(ops) {
      ops := ops + [Sync];
    }
  }

  function NextSequence(src: Source, pos: nat, templates: seq<SqlEntry>): Drawn<seq<FrontendOp>>
    requires templates != []
  {
    if Coin(src, pos, 50) then GrammarSequence(src, pos + 1, templates) else RandomSequence(src, pos + 1, templates)
  }

  method Next(templates: seq<SqlEntry>, rng: Rng) returns (ops: seq<FrontendOp>)
    requires templates != []
    modifies rng`pos
    ensures Drawn(ops, rng.pos) == NextSequence(rng.src, old(rng.pos), templates)
  {
    var grammar := rng.RandomBool(50);
    if grammar {
      ops := GenerateGrammar(templates, rng);
    } else {
      ops := GenerateRandom(templates, rng);
    }
  }
}

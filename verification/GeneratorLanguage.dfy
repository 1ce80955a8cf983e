/** Exactly which sequences can be generated: every claim about all draws has its converse here. */
module GeneratorLanguage {
  import opened Protocol
  import opened Ops
  import opened Templates
  import opened Generator
  import opened GeneratorTheorems

  /** From a position on the source gives these draws. */
  ghost predicate Follows(src: Source, pos: nat, draws: seq<nat>) {
    forall i :: 0 <= i < |draws| ==> src(pos + i) == draws[i]
  }

  lemma FollowsParts(src: Source, pos: nat, a: seq<nat>, b: seq<nat>)
    requires Follows(src, pos, a + b)
    ensures Follows(src, pos, a) && Follows(src, pos + |a|, b)
  {
    assert forall i :: 0 <= i < |a| ==> (a + b)[i] == a[i];
    forall i | 0 <= i < |b| ensures src(pos + |a| + i) == b[i] {
      assert (a + b)[|a| + i] == b[i];
    }
  }

  lemma FollowsFirst(src: Source, pos: nat, d: nat, rest: seq<nat>)
    requires Follows(src, pos, [d] + rest)
    ensures src(pos) == d && Follows(src, pos + 1, rest)
  {
    FollowsParts(src, pos, [d], rest);
    assert src(pos + 0) == [d][0];
  }

  lemma PickIs(src: Source, pos: nat, lo: int, hi: int, d: nat)
    requires src(pos) == d && d < hi - lo
    ensures Pick(src, pos, lo, hi) == lo + d
  {
    SmallRemainder(d, hi - lo);
  }

  lemma SmallRemainder(d: nat, n: nat)
    requires d < n
    ensures d % n == d
  {
  }

  // ---------------------------------------------------------------------------
  // Parameters
  // ---------------------------------------------------------------------------

  /** The number in a text parameter. */
  function NumberIn(utf8: seq<byte>): nat
    requires Drawable(Text(utf8))
  {
    if |utf8| == 2 then utf8[1] - 48 else 10 * (utf8[1] - 48) + utf8[2] - 48
  }

  /** Draws that give a parameter. */
  function ParamDraws(p: Param): seq<nat>
    requires Drawable(p)
  {
    match p
    case Null => [0]
    case Int32(v) => [10, v + 100]
    case Text(utf8) => [50, NumberIn(utf8)]
    case Bytes(bytes) => [90, if bytes == [] then 0 else bytes[0], |bytes|]
  }

  lemma TextFollows(utf8: seq<byte>)
    requires Drawable(Text(utf8))
    ensures NumberIn(utf8) < 100 && VText(NumberIn(utf8)) == utf8
  {
    if |utf8| == 2 {
      assert utf8 == [utf8[0], utf8[1]];
    } else {
      assert utf8 == [utf8[0], utf8[1], utf8[2]];
    }
  }

  lemma NumberFollows(src: Source, pos: nat, p: Param, choice: nat, d: nat)
    requires Drawable(p) && src(pos) == choice && src(pos + 1) == d
    requires (p.Int32? && choice == 10 && d == p.v + 100) || (p.Text? && choice == 50 && d == NumberIn(p.utf8))
    ensures ParamAt(src, pos) == Drawn(p, pos + 2)
  {
    PickIs(src, pos, 0, 100, choice);
    match p
    case Int32(_) => PickIs(src, pos + 1, -100, 100, d);
    case Text(utf8) =>
      TextFollows(utf8);
      PickIs(src, pos + 1, 0, 100, d);
  }

  lemma BytesFollow(src: Source, pos: nat, bytes: seq<byte>, b: byte)
    requires |bytes| < 8 && bytes == seq(|bytes|, _ => b)
    requires src(pos) == 90 && src(pos + 1) == b && src(pos + 2) == |bytes|
    ensures ParamAt(src, pos) == Drawn(Bytes(bytes), pos + 3)
  {
    PickIs(src, pos, 0, 100, 90);
    PickIs(src, pos + 1, 0, 256, b);
    PickIs(src, pos + 2, 0, 8, |bytes|);
  }

  lemma ParamFollows(src: Source, pos: nat, p: Param)
    requires Drawable(p) && Follows(src, pos, ParamDraws(p))
    ensures ParamAt(src, pos) == Drawn(p, pos + |ParamDraws(p)|)
  {
    var draws := ParamDraws(p);
    assert src(pos + 0) == draws[0];
    match p
    case Null => PickIs(src, pos, 0, 100, 0);
    case Int32(v) =>
      assert src(pos + 1) == draws[1];
      NumberFollows(src, pos, p, 10, draws[1]);
    case Text(utf8) =>
      assert src(pos + 1) == draws[1];
      NumberFollows(src, pos, p, 50, draws[1]);
    case Bytes(bytes) =>
      assert src(pos + 1) == draws[1] && src(pos + 2) == draws[2];
      assert bytes == seq(|bytes|, _ => draws[1]);
      BytesFollow(src, pos, bytes, draws[1]);
  }

  function ParamsDraws(ps: seq<Param>): seq<nat>
    requires forall p :: p in ps ==> Drawable(p)
  {
    if ps == [] then [] else ParamsDraws(ps[..|ps| - 1]) + ParamDraws(ps[|ps| - 1])
  }

  lemma ParamsFollowOne(src: Source, pos: nat, n: nat, front: seq<Param>, last: Param, mid: nat, end: nat)
    requires ParamsAt(src, pos, n) == Drawn(front, mid) && ParamAt(src, mid) == Drawn(last, end)
    ensures ParamsAt(src, pos, n + 1) == Drawn(front + [last], end)
  {
  }

  lemma ParamsStep(
    src: Source, pos: nat, front: seq<Param>, last: Param, before: seq<nat>, one: seq<nat>)
    requires Drawable(last) && one == ParamDraws(last) && Follows(src, pos + |before|, one)
    requires ParamsAt(src, pos, |front|) == Drawn(front, pos + |before|)
    ensures ParamsAt(src, pos, |front| + 1) == Drawn(front + [last], pos + |before| + |one|)
  {
    ParamFollows(src, pos + |before|, last);
    ParamsFollowOne(src, pos, |front|, front, last, pos + |before|, pos + |before| + |one|);
  }

  lemma {:induction false} ParamsFollow(src: Source, pos: nat, ps: seq<Param>, draws: seq<nat>)
    requires forall p :: p in ps ==> Drawable(p)
    requires draws == ParamsDraws(ps) && Follows(src, pos, draws)
    ensures ParamsAt(src, pos, |ps|) == Drawn(ps, pos + |draws|)
    decreases |ps|
  {
    if ps != [] {
      var front, last := ps[..|ps| - 1], ps[|ps| - 1];
      assert ps == front + [last];
      var before, one := ParamsDraws(front), ParamDraws(last);
      FollowsParts(src, pos, before, one);
      ParamsFollow(src, pos, front, before);
      ParamsStep(src, pos, front, last, before, one);
    }
  }

  // ---------------------------------------------------------------------------
  // Ops
  // ---------------------------------------------------------------------------

  /** The draw that picks this template. */
  ghost predicate IsTemplateDraw(d: nat, t: SqlEntry, templates: seq<SqlEntry>, affinity: Affinity) {
    var suitable := Candidates(templates, affinity);
    if suitable == [] then d < |templates| && templates[d] == t else d < |suitable| && suitable[d] == t
  }

  lemma TemplateCanBeDrawn(t: SqlEntry, templates: seq<SqlEntry>, affinity: Affinity) returns (d: nat)
    requires Fitting(t, templates, affinity)
    ensures IsTemplateDraw(d, t, templates, affinity)
  {
    var suitable := Candidates(templates, affinity);
    CandidatesAre(templates, affinity, t);
    if suitable == [] {
      d :| 0 <= d < |templates| && templates[d] == t;
    } else {
      CandidatesAre(templates, affinity, suitable[0]);
      assert suitable[0] in suitable;
      d :| 0 <= d < |suitable| && suitable[d] == t;
    }
  }

  lemma TemplateFollows(src: Source, pos: nat, d: nat, t: SqlEntry, templates: seq<SqlEntry>, affinity: Affinity)
    requires templates != [] && IsTemplateDraw(d, t, templates, affinity) && src(pos) == d
    ensures TemplateAt(src, pos, templates, affinity) == t
  {
    var suitable := Candidates(templates, affinity);
    PickIs(src, pos, 0, if suitable == [] then |templates| else |suitable|, d);
  }

  function StmtDraw(name: StmtName): nat {
    match name case UnnamedStmt => 0 case S1 => 1 case S2 => 2
  }

  function PortalDraw(name: PortalName): nat {
    match name case UnnamedPortal => 0 case P1 => 1 case P2 => 2
  }

  /** These draws, wherever they come, give the rest of the op once its kind is drawn. */
  ghost predicate GivesOp(draws: seq<nat>, op: FrontendOp, templates: seq<SqlEntry>)
    requires templates != []
  {
    forall src: Source, pos: nat :: Follows(src, pos, draws) ==> RestOfOp(src, pos, templates, op, pos + |draws|)
  }

  /** What is drawn of an op of this kind. */
  predicate RestOfOp(src: Source, pos: nat, templates: seq<SqlEntry>, op: FrontendOp, end: nat)
    requires templates != []
  {
    match op
    case Parse(_, _, _) => ParseAt(src, pos, templates) == Drawn(op, end)
    case Bind(_, _, _) => BindAt(src, pos, templates) == Drawn(op, end)
    case Execute(_, _) => ExecuteAt(src, pos) == Drawn(op, end)
    case Query(_) => QueryAt(src, pos, templates) == Drawn(op, end)
    case DescribeStatement(name) => StmtNameAt(src, pos) == name && end == pos + 1
    case DescribePortal(name) => PortalNameAt(src, pos) == name && end == pos + 1
    case CloseStatement(name) => StmtNameAt(src, pos) == name && end == pos + 1
    case ClosePortal(name) => PortalNameAt(src, pos) == name && end == pos + 1
    case _ => end == pos
  }

  lemma ParseFollows(src: Source, pos: nat, d: nat, t: SqlEntry, op: FrontendOp, templates: seq<SqlEntry>)
    requires templates != [] && IsTemplateDraw(d, t, templates, Extended)
    requires op.Parse? && op.sql == t.sql && op.paramOids == [] && Follows(src, pos, [d, StmtDraw(op.name)])
    ensures ParseAt(src, pos, templates) == Drawn(op, pos + 2)
  {
    var draws := [d, StmtDraw(op.name)];
    assert src(pos + 0) == draws[0] && src(pos + 1) == draws[1];
    TemplateFollows(src, pos, d, t, templates, Extended);
  }

  lemma ParseCanBeDrawn(op: FrontendOp, templates: seq<SqlEntry>) returns (draws: seq<nat>)
    requires templates != [] && op.Parse? && IsRandomOp(op, templates)
    ensures GivesOp(draws, op, templates)
  {
    var t :| Fitting(t, templates, Extended) && t.sql == op.sql;
    var d := TemplateCanBeDrawn(t, templates, Extended);
    draws := [d, StmtDraw(op.name)];
    forall src: Source, pos: nat | Follows(src, pos, draws)
      ensures RestOfOp(src, pos, templates, op, pos + |draws|)
    {
      ParseFollows(src, pos, d, t, op, templates);
    }
  }

  lemma QueryFollows(src: Source, pos: nat, d: nat, t: SqlEntry, op: FrontendOp, templates: seq<SqlEntry>)
    requires templates != [] && IsTemplateDraw(d, t, templates, Simple)
    requires op.Query? && op.sql == t.sql && Follows(src, pos, [d])
    ensures QueryAt(src, pos, templates) == Drawn(op, pos + 1)
  {
    assert src(pos + 0) == [d][0];
    TemplateFollows(src, pos, d, t, templates, Simple);
  }

  lemma QueryCanBeDrawn(op: FrontendOp, templates: seq<SqlEntry>) returns (draws: seq<nat>)
    requires templates != [] && op.Query? && IsRandomOp(op, templates)
    ensures GivesOp(draws, op, templates)
  {
    var t :| Fitting(t, templates, Simple) && t.sql == op.sql;
    var d := TemplateCanBeDrawn(t, templates, Simple);
    draws := [d];
    forall src: Source, pos: nat | Follows(src, pos, draws)
      ensures RestOfOp(src, pos, templates, op, pos + |draws|)
    {
      QueryFollows(src, pos, d, t, op, templates);
    }
  }

  lemma NamesFollow(src: Source, pos: nat, stmt: StmtName, portal: PortalName)
    ensures src(pos) == StmtDraw(stmt) ==> StmtNameAt(src, pos) == stmt
    ensures src(pos) == PortalDraw(portal) ==> PortalNameAt(src, pos) == portal
  {
  }

  lemma BindIsDrawn(src: Source, pos: nat, op: FrontendOp, templates: seq<SqlEntry>, t: SqlEntry, end: nat)
    requires templates != [] && op.Bind? && TemplateAt(src, pos, templates, Extended) == t
    requires PortalNameAt(src, pos + 1) == op.portal && StmtNameAt(src, pos + 2) == op.stmt
    requires ParamsAt(src, pos + 3, t.paramCount) == Drawn(op.params, end)
    ensures BindAt(src, pos, templates) == Drawn(op, end)
  {
  }

  lemma BindHead(
    src: Source, pos: nat, d: nat, t: SqlEntry, portal: PortalName, stmt: StmtName, templates: seq<SqlEntry>)
    requires templates != [] && IsTemplateDraw(d, t, templates, Extended)
    requires Follows(src, pos, [d, PortalDraw(portal), StmtDraw(stmt)])
    ensures TemplateAt(src, pos, templates, Extended) == t
    ensures PortalNameAt(src, pos + 1) == portal && StmtNameAt(src, pos + 2) == stmt
  {
    var head := [d, PortalDraw(portal), StmtDraw(stmt)];
    assert src(pos + 0) == head[0] && src(pos + 1) == head[1] && src(pos + 2) == head[2];
    TemplateFollows(src, pos, d, t, templates, Extended);
    NamesFollow(src, pos + 1, stmt, portal);
    NamesFollow(src, pos + 2, stmt, portal);
  }

  lemma ParamsGiven(src: Source, pos: nat, count: nat, ps: seq<Param>, draws: seq<nat>)
    requires count == |ps| && forall p :: p in ps ==> Drawable(p)
    requires draws == ParamsDraws(ps) && Follows(src, pos, draws)
    ensures ParamsAt(src, pos, count) == Drawn(ps, pos + |draws|)
  {
    ParamsFollow(src, pos, ps, draws);
  }

  lemma BindGiven(
    src: Source, pos: nat, d: nat, t: SqlEntry, op: FrontendOp, templates: seq<SqlEntry>, params: seq<nat>)
    requires templates != [] && IsTemplateDraw(d, t, templates, Extended) && op.Bind?
    requires t.paramCount == |op.params| && forall p :: p in op.params ==> Drawable(p)
    requires Follows(src, pos, [d, PortalDraw(op.portal), StmtDraw(op.stmt)])
    requires params == ParamsDraws(op.params) && Follows(src, pos + 3, params)
    ensures BindAt(src, pos, templates) == Drawn(op, pos + 3 + |params|)
  {
    ParamsGiven(src, pos + 3, t.paramCount, op.params, params);
    BindHead(src, pos, d, t, op.portal, op.stmt, templates);
    BindIsDrawn(src, pos, op, templates, t, pos + 3 + |params|);
  }

  lemma BindCanBeDrawn(op: FrontendOp, templates: seq<SqlEntry>) returns (draws: seq<nat>)
    requires templates != [] && op.Bind? && IsRandomOp(op, templates)
    ensures GivesOp(draws, op, templates)
  {
    var t :| Fitting(t, templates, Extended) && t.paramCount == |op.params|;
    var d := TemplateCanBeDrawn(t, templates, Extended);
    var params := ParamsDraws(op.params);
    var head := [d, PortalDraw(op.portal), StmtDraw(op.stmt)];
    draws := head + params;
    forall src: Source, pos: nat | Follows(src, pos, draws)
      ensures RestOfOp(src, pos, templates, op, pos + |draws|)
    {
      FollowsParts(src, pos, head, params);
      BindGiven(src, pos, d, t, op, templates, params);
    }
  }

  lemma ExecuteCanBeDrawn(op: FrontendOp, templates: seq<SqlEntry>) returns (draws: seq<nat>)
    requires templates != [] && op.Execute? && IsRandomOp(op, templates)
    ensures GivesOp(draws, op, templates)
  {
    draws := if op.maxRows == 0 then [PortalDraw(op.portal), 0] else [PortalDraw(op.portal), 80, op.maxRows - 1];
    forall src: Source, pos: nat | Follows(src, pos, draws)
      ensures RestOfOp(src, pos, templates, op, pos + |draws|)
    {
      assert src(pos + 0) == draws[0] && src(pos + 1) == draws[1];
      assert |draws| == 3 ==> src(pos + 2) == draws[2];
    }
  }

  lemma NameCanBeDrawn(op: FrontendOp, templates: seq<SqlEntry>) returns (draws: seq<nat>)
    requires templates != []
    requires op.DescribeStatement? || op.DescribePortal? || op.CloseStatement? || op.ClosePortal?
    ensures GivesOp(draws, op, templates)
  {
    draws := match op
      case DescribeStatement(name) => [StmtDraw(name)]
      case DescribePortal(name) => [PortalDraw(name)]
      case CloseStatement(name) => [StmtDraw(name)]
      case ClosePortal(name) => [PortalDraw(name)];
    forall src: Source, pos: nat | Follows(src, pos, draws)
      ensures RestOfOp(src, pos, templates, op, pos + |draws|)
    {
      assert src(pos + 0) == draws[0];
    }
  }

  /** Whatever the random strategy may draw from, it can draw. */
  lemma OpCanBeDrawn(op: FrontendOp, templates: seq<SqlEntry>) returns (draws: seq<nat>)
    requires templates != [] && IsRandomOp(op, templates)
    ensures GivesOp(draws, op, templates)
  {
    match op
    case Parse(_, _, _) => draws := ParseCanBeDrawn(op, templates);
    case Bind(_, _, _) => draws := BindCanBeDrawn(op, templates);
    case Execute(_, _) => draws := ExecuteCanBeDrawn(op, templates);
    case Query(_) => draws := QueryCanBeDrawn(op, templates);
    case Sync => draws := [];
    case Flush => draws := [];
    case CopyDoneOp => draws := [];
    case _ => draws := NameCanBeDrawn(op, templates);
  }

  /** The draw that makes the random strategy choose an op of this kind. */
  function RandomChoice(op: FrontendOp): nat {
    match op
    case Parse(_, _, _) => 0
    case Bind(_, _, _) => 15
    case Execute(_, _) => 30
    case Sync => 45
    case Query(_) => 55
    case DescribeStatement(_) => 65
    case DescribePortal(_) => 72
    case CloseStatement(_) => 79
    case ClosePortal(_) => 86
    case Flush => 93
    case _ => 98
  }

  lemma ChosenOpFollows(src: Source, pos: nat, templates: seq<SqlEntry>, choice: nat, op: FrontendOp, end: nat)
    requires templates != [] && choice == RandomChoice(op) && RestOfOp(src, pos, templates, op, end)
    requires !IsCopyBody(op)
    ensures ChosenOpAt(src, pos, templates, choice) == Drawn(op, end) && choice < 100
  {
  }

  lemma RandomOpFollows(src: Source, pos: nat, templates: seq<SqlEntry>, op: FrontendOp, draws: seq<nat>)
    requires templates != [] && IsRandomOp(op, templates) && GivesOp(draws, op, templates)
    requires Follows(src, pos, [RandomChoice(op)] + draws)
    ensures RandomOpAt(src, pos, templates) == Drawn(op, pos + 1 + |draws|)
  {
    FollowsFirst(src, pos, RandomChoice(op), draws);
    assert RestOfOp(src, pos + 1, templates, op, pos + 1 + |draws|);
    ChosenOpFollows(src, pos + 1, templates, RandomChoice(op), op, pos + 1 + |draws|);
    PickIs(src, pos, 0, 100, RandomChoice(op));
  }

  // ---------------------------------------------------------------------------
  // Steps
  // ---------------------------------------------------------------------------

  /** The draw that makes an extended-path step choose an op of this kind. */
  function ExtendedChoice(op: FrontendOp): nat {
    match op
    case Bind(_, _, _) => 0
    case Execute(_, _) => 25
    case DescribeStatement(_) => 45
    case DescribePortal(_) => 55
    case Flush => 65
    case Sync => 70
    case CloseStatement(_) => 80
    case ClosePortal(_) => 88
    case _ => 95
  }

  function CopyInChoice(op: FrontendOp): nat {
    match op
    case CopyDataOp(_) => 0
    case CopyDoneOp => 40
    case CopyFailOp(_) => 70
    case _ => 85
  }

  /** These draws, wherever they come, give this step. */
  ghost predicate GivesStep(draws: seq<nat>, state: ProtoState, s: Step, templates: seq<SqlEntry>)
    requires templates != []
  {
    forall src: Source, pos: nat :: Follows(src, pos, draws) ==>
      GrammarStep(src, pos, templates, state) == s.(pos := pos + |draws|)
  }

  lemma LeakCanBeDrawn(state: ProtoState, s: Step, templates: seq<SqlEntry>) returns (draws: seq<nat>)
    requires templates != [] && s.kind == Leak && StepSpec(state, s, templates)
    ensures GivesStep(draws, state, s, templates)
  {
    var rest := OpCanBeDrawn(s.op, templates);
    draws := [0] + ([RandomChoice(s.op)] + rest);
    forall src: Source, pos: nat | Follows(src, pos, draws)
      ensures GrammarStep(src, pos, templates, state) == s.(pos := pos + |draws|)
    {
      FollowsFirst(src, pos, 0, [RandomChoice(s.op)] + rest);
      RandomOpFollows(src, pos + 1, templates, s.op, rest);
    }
  }

  lemma OpenerCanBeDrawn(s: Step, templates: seq<SqlEntry>) returns (draws: seq<nat>)
    requires templates != [] && s.kind == Opener && StepSpec(Idle, s, templates)
    ensures GivesStep(draws, Idle, s, templates)
  {
    draws := [99, 0];
    OpenerIsFirst(s.op, templates);
    forall src: Source, pos: nat | Follows(src, pos, draws)
      ensures GrammarStep(src, pos, templates, Idle) == s.(pos := pos + |draws|)
    {
      assert src(pos + 0) == draws[0] && src(pos + 1) == draws[1];
    }
  }

  lemma OpenerIsFirst(op: FrontendOp, templates: seq<SqlEntry>)
    requires IsFirstOpener(op, templates)
    ensures HasCopyIn(templates) && templates != [] && op == Query(FirstCopyIn(templates).sql)
  {
    var i :| 0 <= i < |templates| && IsCopyIn(templates[i]) && templates[i].sql == op.sql
             && forall j :: 0 <= j < i ==> !IsCopyIn(templates[j]);
    assert HasCopyIn(templates);
    FirstCopyInIsFirst(templates);
    var k :| 0 <= k < |templates| && templates[k] == FirstCopyIn(templates)
             && forall j :: 0 <= j < k ==> !IsCopyIn(templates[j]);
    assert i == k;
  }

  lemma OutsideCopyFollows(src: Source, pos: nat, templates: seq<SqlEntry>, s: Step, end: nat)
    requires templates != [] && s.kind == Ordinary
    requires (s.op.Query? && s.state == Idle) || (s.op.Parse? && s.state == InExtended)
    requires src(pos) == (if s.op.Query? then 0 else 99) && RestOfOp(src, pos + 1, templates, s.op, end)
    ensures OutsideCopyStep(src, pos, templates) == s.(pos := end)
  {
    if s.op.Query? {
      assert Coin(src, pos, 30) && QueryAt(src, pos + 1, templates) == Drawn(s.op, end);
    } else {
      assert !Coin(src, pos, 30) && ParseAt(src, pos + 1, templates) == Drawn(s.op, end);
    }
  }

  lemma IdleStepFollows(src: Source, pos: nat, templates: seq<SqlEntry>, k: nat, s: Step, end: nat)
    requires templates != [] && k == (if HasCopyIn(templates) then 2 else 1)
    requires src(pos) == 99 && (k == 2 ==> src(pos + 1) == 99)
    requires OutsideCopyStep(src, pos + k, templates) == s.(pos := end)
    ensures GrammarStep(src, pos, templates, Idle) == s.(pos := end)
  {
    NoOpening(src, pos + 1, templates, pos + k, s.(pos := end));
    NoLeak(src, pos, templates, Idle);
  }

  lemma HeadFollows(src: Source, pos: nat, k: nat, choice: nat, head: seq<nat>)
    requires (k == 2 && head == [99, 99, choice]) || (k == 1 && head == [99, choice])
    requires Follows(src, pos, head)
    ensures src(pos) == 99 && src(pos + k) == choice && (k == 2 ==> src(pos + 1) == 99)
  {
    assert src(pos + 0) == head[0] && src(pos + 1) == head[1] && src(pos + k) == head[k];
  }

  lemma NoLeak(src: Source, pos: nat, templates: seq<SqlEntry>, state: ProtoState)
    requires templates != [] && src(pos) == 99
    ensures GrammarStep(src, pos, templates, state) ==
      match state
      case Idle => IdleStep(src, pos + 1, templates)
      case InExtended => ExtendedStep(src, pos + 1, templates)
      case CopyIn => CopyInStep(src, pos + 1)
  {
  }

  lemma NoOpening(src: Source, pos: nat, templates: seq<SqlEntry>, next: nat, s: Step)
    requires templates != [] && next == (if HasCopyIn(templates) then pos + 1 else pos)
    requires HasCopyIn(templates) ==> src(pos) == 99
    requires OutsideCopyStep(src, next, templates) == s
    ensures IdleStep(src, pos, templates) == s
  {
  }

  lemma IdleStepGiven(src: Source, pos: nat, s: Step, templates: seq<SqlEntry>, k: nat, end: nat)
    requires templates != [] && s.kind == Ordinary
    requires (s.op.Query? && s.state == Idle) || (s.op.Parse? && s.state == InExtended)
    requires k == (if HasCopyIn(templates) then 2 else 1)
    requires src(pos) == 99 && (k == 2 ==> src(pos + 1) == 99) && src(pos + k) == (if s.op.Query? then 0 else 99)
    requires RestOfOp(src, pos + k + 1, templates, s.op, end)
    ensures GrammarStep(src, pos, templates, Idle) == s.(pos := end)
  {
    OutsideCopyFollows(src, pos + k, templates, s, end);
    IdleStepFollows(src, pos, templates, k, s, end);
  }

  lemma IdleStepCanBeDrawn(s: Step, templates: seq<SqlEntry>) returns (draws: seq<nat>)
    requires templates != [] && s.kind == Ordinary && StepSpec(Idle, s, templates)
    ensures GivesStep(draws, Idle, s, templates)
  {
    var rest := OpCanBeDrawn(s.op, templates);
    var choice := if s.op.Query? then 0 else 99;
    var k := if HasCopyIn(templates) then 2 else 1;
    var head := if HasCopyIn(templates) then [99, 99, choice] else [99, choice];
    draws := head + rest;
    forall src: Source, pos: nat | Follows(src, pos, draws)
      ensures GrammarStep(src, pos, templates, Idle) == s.(pos := pos + |draws|)
    {
      FollowsParts(src, pos, head, rest);
      HeadFollows(src, pos, k, choice, head);
      assert RestOfOp(src, pos + |head|, templates, s.op, pos + |head| + |rest|);
      IdleStepGiven(src, pos, s, templates, k, pos + |draws|);
    }
  }

  lemma ExtendedStepCanBeDrawn(s: Step, templates: seq<SqlEntry>) returns (draws: seq<nat>)
    requires templates != [] && s.kind == Ordinary && StepSpec(InExtended, s, templates)
    ensures GivesStep(draws, InExtended, s, templates)
  {
    var rest := OpCanBeDrawn(s.op, templates);
    draws := [99] + ([ExtendedChoice(s.op)] + rest);
    forall src: Source, pos: nat | Follows(src, pos, draws)
      ensures GrammarStep(src, pos, templates, InExtended) == s.(pos := pos + |draws|)
    {
      FollowsFirst(src, pos, 99, [ExtendedChoice(s.op)] + rest);
      FollowsFirst(src, pos + 1, ExtendedChoice(s.op), rest);
      ExtendedOpFollows(src, pos + 2, templates, ExtendedChoice(s.op), s.op, pos + 2 + |rest|);
      ExtendedStepFollows(src, pos + 1, templates, s, ExtendedChoice(s.op), pos + 2 + |rest|);
    }
  }

  lemma ExtendedOpFollows(
    src: Source, pos: nat, templates: seq<SqlEntry>, choice: nat, op: FrontendOp, end: nat)
    requires templates != [] && choice == ExtendedChoice(op) && RestOfOp(src, pos, templates, op, end)
    requires !op.Parse? && !op.CopyDoneOp? && !IsCopyBody(op)
    ensures ExtendedOpAt(src, pos, templates, choice) == Drawn(op, end)
    ensures choice < 100 && (op.Sync? <==> 70 <= choice < 80)
  {
  }

  lemma ExtendedStepFollows(src: Source, pos: nat, templates: seq<SqlEntry>, s: Step, choice: nat, end: nat)
    requires templates != [] && s.kind == Ordinary && src(pos) == choice && choice < 100
    requires ExtendedOpAt(src, pos + 1, templates, choice) == Drawn(s.op, end)
    requires s.state == if 70 <= choice < 80 then Idle else InExtended
    ensures ExtendedStep(src, pos, templates) == s.(pos := end)
  {
    PickIs(src, pos, 0, 100, choice);
  }

  lemma CopyInStepCanBeDrawn(s: Step, templates: seq<SqlEntry>) returns (draws: seq<nat>)
    requires templates != [] && s.kind == Ordinary && StepSpec(CopyIn, s, templates)
    ensures GivesStep(draws, CopyIn, s, templates)
  {
    draws := [99, CopyInChoice(s.op)];
    forall src: Source, pos: nat | Follows(src, pos, draws)
      ensures GrammarStep(src, pos, templates, CopyIn) == s.(pos := pos + |draws|)
    {
      assert src(pos + 0) == draws[0] && src(pos + 1) == draws[1];
    }
  }

  /** Every step the state machine may take can be drawn. */
  lemma StepCanBeDrawn(state: ProtoState, s: Step, templates: seq<SqlEntry>) returns (draws: seq<nat>)
    requires templates != [] && StepSpec(state, s, templates)
    ensures GivesStep(draws, state, s, templates)
  {
    match s.kind
    case Leak => draws := LeakCanBeDrawn(state, s, templates);
    case Opener => draws := OpenerCanBeDrawn(s, templates);
    case Ordinary =>
      match state
      case Idle => draws := IdleStepCanBeDrawn(s, templates);
      case InExtended => draws := ExtendedStepCanBeDrawn(s, templates);
      case CopyIn => draws := CopyInStepCanBeDrawn(s, templates);
  }

  // ---------------------------------------------------------------------------
  // Lengths
  // ---------------------------------------------------------------------------

  /** Draws that make the geometric draw give `n`. */
  function LengthDraws(n: nat, max: nat): seq<nat> {
    seq(n, _ => 99) + if n + 1 < max then [0] else []
  }

  /** Only failures are drawn between two positions. */
  ghost predicate AllFail(src: Source, from: nat, to: nat) {
    forall j :: from <= j < to ==> src(j) == 99
  }

  lemma {:induction false} LengthFollows(src: Source, pos: nat, percent: nat, max: nat, k: nat, n: nat, end: nat)
    requires 0 < percent <= 99 && k <= n < max && end == pos + (n - k) && AllFail(src, pos, end)
    requires n + 1 < max ==> src(end) == 0
    ensures GeometricFrom(src, pos, percent, max, k) == Drawn(n, end + if n + 1 < max then 1 else 0)
    decreases n - k
  {
    if k < n {
      assert src(pos) == 99;
      LengthFollows(src, pos + 1, percent, max, k + 1, n, end);
    }
  }

  lemma LengthIsDrawn(src: Source, pos: nat, percent: nat, max: nat, n: nat)
    requires 0 < percent <= 99 && n < max && Follows(src, pos, LengthDraws(n, max))
    ensures GeometricFrom(src, pos, percent, max, 0) == Drawn(n, pos + |LengthDraws(n, max)|)
  {
    var draws := LengthDraws(n, max);
    forall j | pos <= j < pos + n ensures src(j) == 99 {
      assert src(pos + (j - pos)) == draws[j - pos];
    }
    if n + 1 < max {
      assert src(pos + n) == draws[n];
    }
    LengthFollows(src, pos, percent, max, 0, n, pos + n);
  }

  // ---------------------------------------------------------------------------
  // Sequences
  // ---------------------------------------------------------------------------

  ghost predicate GivesOps(draws: seq<nat>, ops: seq<FrontendOp>, templates: seq<SqlEntry>)
    requires templates != []
  {
    forall src: Source, pos: nat :: Follows(src, pos, draws) ==>
      RandomOpsAt(src, pos, templates, |ops|) == Drawn(ops, pos + |draws|)
  }

  lemma RandomOpsNext(
    src: Source, pos: nat, templates: seq<SqlEntry>, front: seq<FrontendOp>, last: FrontendOp, mid: nat, end: nat)
    requires templates != [] && RandomOpsAt(src, pos, templates, |front|) == Drawn(front, mid)
    requires RandomOpAt(src, mid, templates) == Drawn(last, end)
    ensures RandomOpsAt(src, pos, templates, |front| + 1) == Drawn(front + [last], end)
  {
  }

  lemma OneMoreOp(
    front: seq<FrontendOp>, last: FrontendOp, ops: seq<FrontendOp>, templates: seq<SqlEntry>,
    before: seq<nat>, rest: seq<nat>, one: seq<nat>)
    requires templates != [] && ops == front + [last] && IsRandomOp(last, templates)
    requires GivesOps(before, front, templates) && GivesOp(rest, last, templates)
    requires one == [RandomChoice(last)] + rest
    ensures GivesOps(before + one, ops, templates)
  {
    forall src: Source, pos: nat | Follows(src, pos, before + one)
      ensures RandomOpsAt(src, pos, templates, |ops|) == Drawn(ops, pos + |before + one|)
    {
      FollowsParts(src, pos, before, one);
      var mid := pos + |before|;
      RandomOpFollows(src, mid, templates, last, rest);
      OpsGiven(src, pos, front, templates, before);
      RandomOpsNext(src, pos, templates, front, last, mid, mid + |one|);
    }
  }

  lemma OpsGiven(src: Source, pos: nat, ops: seq<FrontendOp>, templates: seq<SqlEntry>, draws: seq<nat>)
    requires templates != [] && Follows(src, pos, draws) && GivesOps(draws, ops, templates)
    ensures RandomOpsAt(src, pos, templates, |ops|) == Drawn(ops, pos + |draws|)
  {
  }

  lemma {:induction false} OpsCanBeDrawn(ops: seq<FrontendOp>, templates: seq<SqlEntry>) returns (draws: seq<nat>)
    requires templates != [] && forall op :: op in ops ==> IsRandomOp(op, templates)
    ensures GivesOps(draws, ops, templates)
  {
    if ops == [] {
      draws := [];
    } else {
      var front, last := ops[..|ops| - 1], ops[|ops| - 1];
      var before := OpsCanBeDrawn(front, templates);
      var rest := OpCanBeDrawn(last, templates);
      OneMoreOp(front, last, ops, templates, before, rest, [RandomChoice(last)] + rest);
      draws := before + ([RandomChoice(last)] + rest);
    }
  }

  /** How a walk goes on from a position and a state. */
  type Stepper = (nat, ProtoState) -> Step

  /** How walks go on, for every source. */
  type Machine = Source -> Stepper

  function GrammarMachine(templates: seq<SqlEntry>): Machine
    requires templates != []
  {
    (src: Source) => (pos: nat, state: ProtoState) => GrammarStep(src, pos, templates, state)
  }

  function WalkBy(f: Stepper, pos: nat, len: nat): seq<Step> {
    if len == 0 then []
    else
      var w := WalkBy(f, pos, len - 1);
      w + [f(PosAfter(w, pos), StateAfter(w))]
  }

  lemma WalkByStep(src: Source, pos: nat, templates: seq<SqlEntry>, n: nat, w: seq<Step>, f: Stepper)
    requires templates != [] && f == GrammarMachine(templates)(src)
    requires w == WalkAt(src, pos, templates, n) == WalkBy(f, pos, n)
    ensures WalkAt(src, pos, templates, n + 1) == WalkBy(f, pos, n + 1)
  {
  }

  lemma {:induction false} WalkByIs(src: Source, pos: nat, templates: seq<SqlEntry>, len: nat, f: Stepper)
    requires templates != [] && f == GrammarMachine(templates)(src)
    ensures WalkAt(src, pos, templates, len) == WalkBy(f, pos, len)
  {
    if len > 0 {
      var n: nat := len - 1;
      WalkByIs(src, pos, templates, n, f);
      WalkByStep(src, pos, templates, n, WalkBy(f, pos, n), f);
    }
  }

  /** The walk has these ops and ends in their state and at this position. */
  ghost predicate WalksAs(f: Stepper, pos: nat, w: seq<Step>, end: nat) {
    var g := WalkBy(f, pos, |w|);
    OpsOf(g) == OpsOf(w) && StateAfter(g) == StateAfter(w) && PosAfter(g, pos) == end
  }

  /** Draws that give the walk of these steps. */
  ghost predicate GivesWalk(draws: seq<nat>, w: seq<Step>, machine: Machine) {
    forall src: Source, pos: nat :: Follows(src, pos, draws) ==> WalksAs(machine(src), pos, w, pos + |draws|)
  }

  /** Draws that give the step. */
  ghost predicate Steps(draws: seq<nat>, state: ProtoState, s: Step, machine: Machine) {
    forall src: Source, pos: nat :: Follows(src, pos, draws) ==> machine(src)(pos, state) == s.(pos := pos + |draws|)
  }

  lemma StepsIs(draws: seq<nat>, state: ProtoState, s: Step, templates: seq<SqlEntry>)
    requires templates != [] && GivesStep(draws, state, s, templates)
    ensures Steps(draws, state, s, GrammarMachine(templates))
  {
  }

  lemma SameWalk(g: seq<Step>, front: seq<Step>, last: Step, pos: nat, end: nat)
    requires OpsOf(g) == OpsOf(front)
    ensures var more := g + [last.(pos := end)];
      && OpsOf(more) == OpsOf(front + [last]) && StateAfter(more) == last.state && PosAfter(more, pos) == end
  {
    assert OpsOf(g + [last.(pos := end)]) == OpsOf(g) + [last.op];
    assert OpsOf(front + [last]) == OpsOf(front) + [last.op];
  }

  lemma WalksOneMore(f: Stepper, pos: nat, front: seq<Step>, last: Step, mid: nat, end: nat)
    requires WalksAs(f, pos, front, mid) && f(mid, StateAfter(front)) == last.(pos := end)
    ensures WalksAs(f, pos, front + [last], end)
  {
    SameWalk(WalkBy(f, pos, |front|), front, last, pos, end);
  }

  lemma OneMoreStep(
    front: seq<Step>, last: Step, w: seq<Step>, machine: Machine, before: seq<nat>, one: seq<nat>)
    requires w == front + [last] && GivesWalk(before, front, machine) && Steps(one, StateAfter(front), last, machine)
    ensures GivesWalk(before + one, w, machine)
  {
    forall src: Source, pos: nat | Follows(src, pos, before + one)
      ensures WalksAs(machine(src), pos, w, pos + |before + one|)
    {
      FollowsParts(src, pos, before, one);
      WalksOneMore(machine(src), pos, front, last, pos + |before|, pos + |before + one|);
    }
  }

  lemma {:induction false} WalkCanBeDrawn(w: seq<Step>, templates: seq<SqlEntry>) returns (draws: seq<nat>)
    requires templates != [] && Lawful(w, templates)
    ensures GivesWalk(draws, w, GrammarMachine(templates))
    decreases |w|
  {
    if w == [] {
      draws := [];
    } else {
      var n: nat := |w| - 1;
      LawfulPrefix(w, templates, n);
      LawfulAt(w, templates, n);
      var before := WalkCanBeDrawn(w[..n], templates);
      var one := StepCanBeDrawn(StateAfter(w[..n]), w[n], templates);
      StepsIs(one, StateAfter(w[..n]), w[n], templates);
      OneMoreStep(w[..n], w[n], w, GrammarMachine(templates), before, one);
      draws := before + one;
    }
  }

  // ---------------------------------------------------------------------------
  // The language
  // ---------------------------------------------------------------------------

  /** What the random strategy makes before it looks for something to wait for. */
  ghost predicate RandomCore(core: seq<FrontendOp>, templates: seq<SqlEntry>) {
    1 <= |core| <= 30 && forall op :: op in core ==> IsRandomOp(op, templates)
  }

  /** What the grammar strategy makes: the ops of a walk of the state machine. */
  ghost predicate GrammarCore(core: seq<FrontendOp>, templates: seq<SqlEntry>) {
    exists w :: Lawful(w, templates) && 2 <= |w| <= 26 && core == OpsOf(w)
  }

  ghost predicate InLanguage(ops: seq<FrontendOp>, templates: seq<SqlEntry>) {
    exists core :: (RandomCore(core, templates) || GrammarCore(core, templates)) && Awaits(ops, core)
  }

  /** The core itself if there is something to wait for in it, or else with a Sync at its end. */
  ghost predicate Awaits(ops: seq<FrontendOp>, core: seq<FrontendOp>) {
    if exists i :: 0 <= i < |core| && (core[i].Sync? || core[i].Query?) then ops == core else ops == core + [Sync]
  }

  ghost predicate CanGenerate(ops: seq<FrontendOp>, templates: seq<SqlEntry>)
    requires templates != []
  {
    exists src: Source, pos: nat :: NextSequence(src, pos, templates).value == ops
  }

  lemma AwaitsIs(ops: seq<FrontendOp>, core: seq<FrontendOp>)
    ensures Awaits(ops, core) <==> ops == WithRequest(core)
  {
    if HasRequest(core) {
      var i :| 0 <= i < |core| && core[i].ExpectsReady();
      assert core[i].Sync? || core[i].Query?;
    } else {
      forall i | 0 <= i < |core| ensures !core[i].Sync? && !core[i].Query? {
        assert !core[i].ExpectsReady();
      }
    }
  }

  lemma RandomSequenceIs(src: Source, pos: nat, templates: seq<SqlEntry>, len: Drawn<nat>, core: seq<FrontendOp>)
    requires templates != [] && len == GeometricFrom(src, pos, 12, 30, 0)
    requires core == RandomOpsAt(src, len.pos, templates, 1 + len.value).value
    ensures RandomSequence(src, pos, templates).value == WithRequest(core)
  {
  }

  lemma GrammarIsInLanguage(src: Source, pos: nat, templates: seq<SqlEntry>)
    requires templates != []
    ensures InLanguage(GrammarSequence(src, pos, templates).value, templates)
  {
    GeometricCounts(src, pos, 10, 25, 0);
    var len := GeometricFrom(src, pos, 10, 25, 0);
    var w := WalkIsLawful(src, len.pos, templates, 2 + len.value);
    GrammarSequenceIs(src, pos, templates, len, w);
    AwaitsIs(WithRequest(OpsOf(w)), OpsOf(w));
    assert GrammarCore(OpsOf(w), templates);
  }

  lemma RandomIsInLanguage(src: Source, pos: nat, templates: seq<SqlEntry>)
    requires templates != []
    ensures InLanguage(RandomSequence(src, pos, templates).value, templates)
  {
    GeometricCounts(src, pos, 12, 30, 0);
    var len := GeometricFrom(src, pos, 12, 30, 0);
    var core := RandomOpsAt(src, len.pos, templates, 1 + len.value).value;
    RandomOpsArePlain(src, len.pos, templates, 1 + len.value);
    RandomSequenceIs(src, pos, templates, len, core);
    AwaitsIs(WithRequest(core), core);
    assert RandomCore(core, templates);
  }

  lemma GeneratedIsInLanguage(src: Source, pos: nat, templates: seq<SqlEntry>)
    requires templates != []
    ensures InLanguage(NextSequence(src, pos, templates).value, templates)
  {
    GrammarIsInLanguage(src, pos + 1, templates);
    RandomIsInLanguage(src, pos + 1, templates);
  }

  /** A source that starts with these draws. */
  function Giving(draws: seq<nat>): Source {
    (i: nat) => if i < |draws| then draws[i] else 0
  }

  lemma GivingFollows(draws: seq<nat>)
    ensures Follows(Giving(draws), 0, draws)
  {
  }

  lemma NextIs(src: Source, pos: nat, templates: seq<SqlEntry>, d: nat)
    requires templates != [] && src(pos) == d && (d == 0 || d == 99)
    ensures d == 0 ==> NextSequence(src, pos, templates) == GrammarSequence(src, pos + 1, templates)
    ensures d == 99 ==> NextSequence(src, pos, templates) == RandomSequence(src, pos + 1, templates)
  {
  }

  lemma RandomFollows(src: Source, core: seq<FrontendOp>, templates: seq<SqlEntry>, length: seq<nat>, ops: seq<nat>)
    requires templates != [] && 1 <= |core| <= 30 && GivesOps(ops, core, templates)
    requires length == LengthDraws(|core| - 1, 30) && Follows(src, 0, [99] + (length + ops))
    ensures NextSequence(src, 0, templates).value == WithRequest(core)
  {
    FollowsFirst(src, 0, 99, length + ops);
    FollowsParts(src, 1, length, ops);
    LengthIsDrawn(src, 1, 12, 30, |core| - 1);
    RandomSequenceIs(src, 1, templates, Drawn(|core| - 1, 1 + |length|), core);
    NextIs(src, 0, templates, 99);
  }

  lemma RandomCanBeGenerated(core: seq<FrontendOp>, templates: seq<SqlEntry>)
    requires templates != [] && RandomCore(core, templates)
    ensures CanGenerate(WithRequest(core), templates)
  {
    var ops := OpsCanBeDrawn(core, templates);
    var length := LengthDraws(|core| - 1, 30);
    var draws := [99] + (length + ops);
    GivingFollows(draws);
    RandomFollows(Giving(draws), core, templates, length, ops);
  }

  lemma WalkGiven(src: Source, pos: nat, w: seq<Step>, templates: seq<SqlEntry>, draws: seq<nat>)
    requires templates != [] && Follows(src, pos, draws) && GivesWalk(draws, w, GrammarMachine(templates))
    ensures OpsOf(WalkAt(src, pos, templates, |w|)) == OpsOf(w)
  {
    var f := GrammarMachine(templates)(src);
    WalkByIs(src, pos, templates, |w|, f);
    assert WalksAs(f, pos, w, pos + |draws|);
  }

  lemma GrammarParts(src: Source, n: nat, length: seq<nat>, walk: seq<nat>)
    requires n < 25 && length == LengthDraws(n, 25) && Follows(src, 0, [0] + (length + walk))
    ensures src(0) == 0 && GeometricFrom(src, 1, 10, 25, 0) == Drawn(n, 1 + |length|)
    ensures Follows(src, 1 + |length|, walk)
  {
    FollowsFirst(src, 0, 0, length + walk);
    FollowsParts(src, 1, length, walk);
    LengthIsDrawn(src, 1, 10, 25, n);
  }

  lemma GrammarFollows(src: Source, w: seq<Step>, templates: seq<SqlEntry>, length: seq<nat>, walk: seq<nat>)
    requires templates != [] && 2 <= |w| <= 26 && GivesWalk(walk, w, GrammarMachine(templates))
    requires length == LengthDraws(|w| - 2, 25) && Follows(src, 0, [0] + (length + walk))
    ensures NextSequence(src, 0, templates).value == WithRequest(OpsOf(w))
  {
    GrammarParts(src, |w| - 2, length, walk);
    WalkGiven(src, 1 + |length|, w, templates, walk);
    var g := WalkAt(src, 1 + |length|, templates, |w|);
    GrammarSequenceIs(src, 1, templates, Drawn(|w| - 2, 1 + |length|), g);
    NextIs(src, 0, templates, 0);
  }

  lemma GrammarCanBeGenerated(w: seq<Step>, templates: seq<SqlEntry>)
    requires templates != [] && Lawful(w, templates) && 2 <= |w| <= 26
    ensures CanGenerate(WithRequest(OpsOf(w)), templates)
  {
    var walk := WalkCanBeDrawn(w, templates);
    var length := LengthDraws(|w| - 2, 25);
    var draws := [0] + (length + walk);
    GivingFollows(draws);
    GrammarFollows(Giving(draws), w, templates, length, walk);
  }

  /**
   A sequence can be generated exactly if it consists of 1 to 30 ops filled in from
   templates, or of the ops of 2 to 26 steps of the state machine, with a Sync appended
   if and only if there would be no Sync or Query otherwise.
   */
  lemma CanGenerateIff(ops: seq<FrontendOp>, templates: seq<SqlEntry>)
    requires templates != []
    ensures CanGenerate(ops, templates) <==> InLanguage(ops, templates)
  {
    if CanGenerate(ops, templates) {
      var src: Source, pos: nat :| NextSequence(src, pos, templates).value == ops;
      GeneratedIsInLanguage(src, pos, templates);
    }
    if InLanguage(ops, templates) {
      var core :| (RandomCore(core, templates) || GrammarCore(core, templates)) && Awaits(ops, core);
      AwaitsIs(ops, core);
      if RandomCore(core, templates) {
        RandomCanBeGenerated(core, templates);
      } else {
        var w :| Lawful(w, templates) && 2 <= |w| <= 26 && core == OpsOf(w);
        GrammarCanBeGenerated(w, templates);
      }
    }
  }
}

/** What every generated sequence looks like, whatever is drawn. */
module GeneratorTheorems {
  import opened Ops
  import opened Templates
  import opened Generator

  // ---------------------------------------------------------------------------
  // Single ops
  // ---------------------------------------------------------------------------

  ghost predicate SqlFor(sql: string, templates: seq<SqlEntry>, affinity: Affinity) {
    exists t :: Fitting(t, templates, affinity) && t.sql == sql
  }

  ghost predicate CountFor(count: nat, templates: seq<SqlEntry>, affinity: Affinity) {
    exists t :: Fitting(t, templates, affinity) && t.paramCount == count
  }

  const MAX_ROW_LIMIT := 9

  /** Any SQL in it, and any number of parameters, is that of an enabled template drawn for its path. */
  ghost predicate FromTemplates(op: FrontendOp, templates: seq<SqlEntry>) {
    && (op.Query? ==> SqlFor(op.sql, templates, Simple))
    && (op.Parse? ==> SqlFor(op.sql, templates, Extended) && op.paramOids == [])
    && (op.Bind? ==> CountFor(|op.params|, templates, Extended) && forall p :: p in op.params ==> Drawable(p))
    && (op.Execute? ==> op.maxRows <= MAX_ROW_LIMIT)
  }

  ghost predicate SqlAvoiding(sql: string, templates: seq<SqlEntry>, affinity: Affinity) {
    exists t :: t in templates && t.sql == sql && t.affinity != affinity
  }

  ghost predicate CountAvoiding(count: nat, templates: seq<SqlEntry>, affinity: Affinity) {
    exists t :: t in templates && t.paramCount == count && t.affinity != affinity
  }

  /**
   No simple query uses SQL meant for the extended path only, and the other way round;
   a Bind has as many parameters as some template for the extended path.
   */
  ghost predicate OnItsPath(op: FrontendOp, templates: seq<SqlEntry>) {
    && (op.Query? ==> SqlAvoiding(op.sql, templates, Extended))
    && (op.Parse? ==> SqlAvoiding(op.sql, templates, Simple))
    && (op.Bind? ==> CountAvoiding(|op.params|, templates, Simple) && forall p :: p in op.params ==> Drawable(p))
    && (op.Execute? ==> op.maxRows <= MAX_ROW_LIMIT)
  }

  lemma FittingIsOnPath(op: FrontendOp, templates: seq<SqlEntry>, any: SqlEntry)
    requires FromTemplates(op, templates) && any in templates && any.affinity == AnyPath
    ensures OnItsPath(op, templates)
  {
    assert Suits(any, Simple) && Suits(any, Extended);
    if op.Query? {
      var t :| Fitting(t, templates, Simple) && t.sql == op.sql;
      assert Suits(t, Simple);
    }
    if op.Parse? {
      var t :| Fitting(t, templates, Extended) && t.sql == op.sql;
      assert Suits(t, Extended);
    }
    if op.Bind? {
      var t :| Fitting(t, templates, Extended) && t.paramCount == |op.params|;
      assert Suits(t, Extended);
    }
  }

  /** The parameters that can be drawn. */
  predicate Drawable(p: Param) {
    match p
    case Null => true
    case Int32(v) => -100 <= v < 100
    case Text(utf8) =>
      && 2 <= |utf8| <= 3 && utf8[0] == 118 && (|utf8| == 3 ==> utf8[1] != 48)
      && forall i :: 1 <= i < |utf8| ==> 48 <= utf8[i] <= 57
    case Bytes(bytes) => |bytes| < 8 && forall i :: 0 <= i < |bytes| ==> bytes[i] == bytes[0]
  }

  lemma ParamIs(src: Source, pos: nat)
    ensures Drawable(ParamAt(src, pos).value) && pos < ParamAt(src, pos).pos
  {
  }

  /** As many parameters as asked for, each of a kind and size that can be drawn. */
  lemma {:induction false} ParamsAre(src: Source, pos: nat, count: nat)
    ensures var d := ParamsAt(src, pos, count);
      |d.value| == count && forall p :: p in d.value ==> Drawable(p)
  {
    if count > 0 {
      ParamsAre(src, pos, count - 1);
      ParamIs(src, ParamsAt(src, pos, count - 1).pos);
    }
  }

  /** A Bind has exactly the parameters an enabled template for its path takes. */
  lemma BindIsFrom(src: Source, pos: nat, templates: seq<SqlEntry>)
    requires templates != []
    ensures var op := BindAt(src, pos, templates).value; op.Bind? && FromTemplates(op, templates)
  {
    var t := TemplateAt(src, pos, templates, Extended);
    TemplateIsFitting(src, pos, templates, Extended);
    ParamsAre(src, pos + 3, t.paramCount);
  }

  /** No row limit, or one between 1 and 9. */
  lemma ExecuteIsFrom(src: Source, pos: nat, templates: seq<SqlEntry>)
    ensures var op := ExecuteAt(src, pos).value;
      op.Execute? && FromTemplates(op, templates) && (op.maxRows == 0 <==> Coin(src, pos + 1, 80))
  {
  }

  predicate IsCopyBody(op: FrontendOp) {
    op.CopyDataOp? || op.CopyFailOp?
  }

  lemma QueryIsFrom(src: Source, pos: nat, templates: seq<SqlEntry>)
    requires templates != []
    ensures var op := QueryAt(src, pos, templates).value; op.Query? && FromTemplates(op, templates)
  {
    TemplateIsFitting(src, pos, templates, Simple);
  }

  lemma ParseIsFrom(src: Source, pos: nat, templates: seq<SqlEntry>)
    requires templates != []
    ensures var op := ParseAt(src, pos, templates).value; op.Parse? && FromTemplates(op, templates)
  {
    TemplateIsFitting(src, pos, templates, Extended);
  }

  /** Nothing in it is drawn but names, and it is not COPY data: nothing to check. */
  predicate IsOther(op: FrontendOp) {
    !op.Query? && !op.Parse? && !op.Bind? && !op.Execute? && !IsCopyBody(op)
  }

  lemma ChosenOpIsPlain(src: Source, next: nat, templates: seq<SqlEntry>, choice: int)
    requires templates != [] && 0 <= choice < 100
    ensures var op := ChosenOpAt(src, next, templates, choice).value; FromTemplates(op, templates) && !IsCopyBody(op)
  {
    ParseIsFrom(src, next, templates);
    BindIsFrom(src, next, templates);
    ExecuteIsFrom(src, next, templates);
    QueryIsFrom(src, next, templates);
    assert choice >= 45 && !(55 <= choice < 65) ==> IsOther(ChosenOpAt(src, next, templates, choice).value);
  }

  /** A random op never sends COPY data and never aborts a COPY. */
  lemma RandomOpIsPlain(src: Source, pos: nat, templates: seq<SqlEntry>)
    requires templates != []
    ensures var op := RandomOpAt(src, pos, templates).value; FromTemplates(op, templates) && !IsCopyBody(op)
  {
    ChosenOpIsPlain(src, pos + 1, templates, Pick(src, pos, 0, 100));
  }

  /** A simple query whose SQL is that of an enabled COPY-in template. */
  ghost predicate IsOpener(op: FrontendOp, templates: seq<SqlEntry>) {
    op.Query? && exists i :: 0 <= i < |templates| && IsCopyIn(templates[i]) && templates[i].sql == op.sql
  }

  /** What the random strategy and a leak draw from: any op but COPY data and aborts, filled in from templates. */
  ghost predicate IsRandomOp(op: FrontendOp, templates: seq<SqlEntry>) {
    FromTemplates(op, templates) && !IsCopyBody(op)
  }

  /** The query that opens COPY-in: the first template that can. */
  ghost predicate IsFirstOpener(op: FrontendOp, templates: seq<SqlEntry>) {
    op.Query? && exists i :: 0 <= i < |templates| && IsCopyIn(templates[i]) && templates[i].sql == op.sql
                             && forall j :: 0 <= j < i ==> !IsCopyIn(templates[j])
  }

  const COPY_LINE: seq<int> := [49, 10]

  /** What an ordinary step may send in a state, and the state it leads to. */
  ghost predicate OrdinaryStep(state: ProtoState, op: FrontendOp, next: ProtoState, templates: seq<SqlEntry>) {
    match state
    case Idle => IsRandomOp(op, templates) && ((op.Query? && next == Idle) || (op.Parse? && next == InExtended))
    case InExtended =>
      && IsRandomOp(op, templates) && !op.Parse? && !op.CopyDoneOp?
      && next == if op.Sync? then Idle else InExtended
    case CopyIn =>
      || (op.CopyDataOp? && op.data == COPY_LINE && next == CopyIn)
      || ((op.CopyDoneOp? || op.Sync? || (op.CopyFailOp? && op.message == "abort")) && next == Idle)
  }

  /** What a step of the state machine may do. */
  ghost predicate StepSpec(state: ProtoState, s: Step, templates: seq<SqlEntry>) {
    match s.kind
    case Leak => IsRandomOp(s.op, templates) && s.state == state
    case Opener => state == Idle && IsFirstOpener(s.op, templates) && s.state == CopyIn
    case Ordinary => OrdinaryStep(state, s.op, s.state, templates)
  }

  lemma OutsideCopyStepIs(src: Source, pos: nat, templates: seq<SqlEntry>)
    requires templates != []
    ensures StepSpec(Idle, OutsideCopyStep(src, pos, templates), templates)
  {
    QueryIsFrom(src, pos + 1, templates);
    ParseIsFrom(src, pos + 1, templates);
  }

  lemma IdleStepIs(src: Source, pos: nat, templates: seq<SqlEntry>)
    requires templates != []
    ensures StepSpec(Idle, IdleStep(src, pos, templates), templates)
  {
    if HasCopyIn(templates) {
      FirstCopyInIsFirst(templates);
      OutsideCopyStepIs(src, pos + 1, templates);
    } else {
      OutsideCopyStepIs(src, pos, templates);
    }
  }

  lemma ExtendedOpIs(src: Source, next: nat, templates: seq<SqlEntry>, choice: int)
    requires templates != [] && 0 <= choice < 100
    ensures var op := ExtendedOpAt(src, next, templates, choice).value;
      IsRandomOp(op, templates) && !op.Parse? && !op.CopyDoneOp? && (op.Sync? <==> 70 <= choice < 80)
  {
    BindIsFrom(src, next, templates);
    ExecuteIsFrom(src, next, templates);
    QueryIsFrom(src, next, templates);
    assert 45 <= choice < 95 ==> IsOther(ExtendedOpAt(src, next, templates, choice).value);
  }

  lemma ExtendedStepIs(src: Source, pos: nat, templates: seq<SqlEntry>)
    requires templates != []
    ensures StepSpec(InExtended, ExtendedStep(src, pos, templates), templates)
  {
    ExtendedOpIs(src, pos + 1, templates, Pick(src, pos, 0, 100));
  }

  lemma GrammarStepIs(src: Source, pos: nat, templates: seq<SqlEntry>, state: ProtoState)
    requires templates != []
    ensures StepSpec(state, GrammarStep(src, pos, templates, state), templates)
  {
    RandomOpIsPlain(src, pos + 1, templates);
    match state
    case Idle => IdleStepIs(src, pos + 1, templates);
    case InExtended => ExtendedStepIs(src, pos + 1, templates);
    case CopyIn =>
  }

  /** A run of the state machine from its idle state. */
  ghost predicate Lawful(w: seq<Step>, templates: seq<SqlEntry>) {
    forall i :: 0 <= i < |w| ==> StepSpec(StateAfter(w[..i]), w[i], templates)
  }

  lemma LawfulPrefix(w: seq<Step>, templates: seq<SqlEntry>, k: nat)
    requires Lawful(w, templates) && k <= |w|
    ensures Lawful(w[..k], templates)
  {
    assert forall i :: 0 <= i < k ==> w[..k][..i] == w[..i];
  }

  lemma NextIsLawful(src: Source, pos: nat, templates: seq<SqlEntry>, len: nat, w: seq<Step>) returns (s: Step)
    requires templates != [] && w == WalkAt(src, pos, templates, len)
    ensures WalkAt(src, pos, templates, len + 1) == w + [s]
    ensures StepSpec(StateAfter(w), s, templates)
  {
    s := GrammarStep(src, PosAfter(w, pos), templates, StateAfter(w));
    GrammarStepIs(src, PosAfter(w, pos), templates, StateAfter(w));
    WalkStep(src, pos, templates, len, w, s);
  }

  /** Whatever is drawn, the generator walks lawfully. */
  lemma {:induction false} WalkIsLawful(src: Source, pos: nat, templates: seq<SqlEntry>, len: nat)
    returns (w: seq<Step>)
    requires templates != []
    ensures w == WalkAt(src, pos, templates, len)
    ensures |w| == len && Lawful(w, templates)
  {
    if len == 0 {
      w := [];
    } else {
      w := WalkIsLawful(src, pos, templates, len - 1);
      var s := NextIsLawful(src, pos, templates, len - 1, w);
      LawfulSnoc(w, s, templates);
      w := w + [s];
    }
  }

  lemma LawfulSnoc(w: seq<Step>, s: Step, templates: seq<SqlEntry>)
    requires Lawful(w, templates) && StepSpec(StateAfter(w), s, templates)
    ensures Lawful(w + [s], templates)
  {
    assert forall i :: 0 <= i <= |w| ==> (w + [s])[..i] == w[..i];
    assert w[..|w|] == w;
  }

  // ---------------------------------------------------------------------------
  // COPY structure
  // ---------------------------------------------------------------------------

  /** Position `i` starts a COPY-in, and up to `j` there is only COPY data and leaked ops. */
  ghost predicate OpenFrom(w: seq<Step>, templates: seq<SqlEntry>, i: nat, j: nat) {
    && i < j <= |w|
    && w[i].kind == Opener && IsOpener(w[i].op, templates)
    && forall k :: i < k < j ==> w[k].kind == Leak || (w[k].kind == Ordinary && w[k].op.CopyDataOp?)
  }

  lemma StepIntoCopying(state: ProtoState, s: Step, templates: seq<SqlEntry>)
    requires StepSpec(state, s, templates) && s.state == CopyIn
    ensures s.kind == Opener ==> IsOpener(s.op, templates)
    ensures s.kind != Opener ==> state == CopyIn && (s.kind == Leak || (s.kind == Ordinary && s.op.CopyDataOp?))
  {
  }

  lemma OpenLonger(w: seq<Step>, templates: seq<SqlEntry>, i: nat, n: nat)
    requires n < |w| && OpenFrom(w[..n], templates, i, n)
    requires w[n].kind == Leak || (w[n].kind == Ordinary && w[n].op.CopyDataOp?)
    ensures OpenFrom(w, templates, i, n + 1)
  {
    assert forall k :: 0 <= k < n ==> w[..n][k] == w[k];
  }

  /** In the copying state a COPY-in is open. */
  lemma {:induction false} CopyingIsOpen(w: seq<Step>, templates: seq<SqlEntry>) returns (i: nat)
    requires Lawful(w, templates) && StateAfter(w) == CopyIn
    ensures OpenFrom(w, templates, i, |w|)
  {
    var n := |w| - 1;
    StepIntoCopying(StateAfter(w[..n]), w[n], templates);
    if w[n].kind == Opener {
      i := n;
    } else {
      LawfulPrefix(w, templates, n);
      i := CopyingIsOpen(w[..n], templates);
      OpenLonger(w, templates, i, n);
    }
  }

  /**
   In a lawful walk every COPY data and COPY abort belongs to a COPY-in started before
   it, with nothing but COPY data and leaked ops in between.
   */
  lemma CopyBodyIsOpened(w: seq<Step>, templates: seq<SqlEntry>, j: nat) returns (i: nat)
    requires Lawful(w, templates) && j < |w| && IsCopyBody(w[j].op)
    ensures OpenFrom(w, templates, i, j)
  {
    assert StepSpec(StateAfter(w[..j]), w[j], templates);
    LawfulPrefix(w, templates, j);
    i := CopyingIsOpen(w[..j], templates);
    assert forall k :: 0 <= k < j ==> w[..j][k] == w[k];
  }

  function OneIf(b: bool): nat {
    if b then 1 else 0
  }

  function CopyFails(ops: seq<FrontendOp>): nat {
    if ops == [] then 0 else CopyFails(ops[..|ops| - 1]) + OneIf(ops[|ops| - 1].CopyFailOp?)
  }

  ghost function CopyInQueries(ops: seq<FrontendOp>, templates: seq<SqlEntry>): nat {
    if ops == [] then 0
    else CopyInQueries(ops[..|ops| - 1], templates) + OneIf(IsOpener(ops[|ops| - 1], templates))
  }

  lemma CountsSnoc(ops: seq<FrontendOp>, op: FrontendOp, templates: seq<SqlEntry>)
    ensures CopyFails(ops + [op]) == CopyFails(ops) + OneIf(op.CopyFailOp?)
    ensures CopyInQueries(ops + [op], templates)
         == CopyInQueries(ops, templates) + OneIf(IsOpener(op, templates))
  {
    assert (ops + [op])[..|ops|] == ops;
  }

  /** An abort gives up an open COPY-in, and only a FROM STDIN query opens one. */
  lemma CopyBalance(state: ProtoState, s: Step, templates: seq<SqlEntry>)
    requires StepSpec(state, s, templates)
    ensures OneIf(s.op.CopyFailOp?) + OneIf(s.state == CopyIn)
         <= OneIf(state == CopyIn) + OneIf(IsOpener(s.op, templates))
  {
  }

  lemma OpsSplit(w: seq<Step>)
    requires w != []
    ensures OpsOf(w) == OpsOf(w[..|w| - 1]) + [w[|w| - 1].op]
  {
  }

  lemma LawfulAt(w: seq<Step>, templates: seq<SqlEntry>, i: nat)
    requires Lawful(w, templates) && i < |w|
    ensures StepSpec(StateAfter(w[..i]), w[i], templates)
  {
  }

  lemma LawfulSplit(w: seq<Step>, templates: seq<SqlEntry>) returns (front: seq<Step>, last: Step)
    requires Lawful(w, templates) && w != []
    ensures |front| < |w| && Lawful(front, templates) && StepSpec(StateAfter(front), last, templates)
    ensures OpsOf(w) == OpsOf(front) + [last.op] && StateAfter(w) == last.state
  {
    var n := |w| - 1;
    front, last := w[..n], w[n];
    LawfulPrefix(w, templates, n);
    LawfulAt(w, templates, n);
    OpsSplit(w);
  }

  /** Never more COPY aborts than FROM STDIN queries, and one fewer while a COPY-in is open. */
  lemma {:induction false} CopyFailsAreBounded(w: seq<Step>, templates: seq<SqlEntry>)
    requires Lawful(w, templates)
    ensures CopyFails(OpsOf(w)) + OneIf(StateAfter(w) == CopyIn) <= CopyInQueries(OpsOf(w), templates)
    decreases |w|
  {
    if w != [] {
      var front, last := LawfulSplit(w, templates);
      CopyFailsAreBounded(front, templates);
      CopyBalance(StateAfter(front), last, templates);
      CountsSnoc(OpsOf(front), last.op, templates);
    }
  }

  /** Without a COPY-in template there is no COPY data and no abort. */
  lemma NoCopyInNoCopyBody(w: seq<Step>, templates: seq<SqlEntry>, j: nat)
    requires Lawful(w, templates) && !HasCopyIn(templates) && j < |w|
    ensures !IsCopyBody(w[j].op)
  {
    if IsCopyBody(w[j].op) {
      var i := CopyBodyIsOpened(w, templates, j);
    }
  }

  lemma {:induction false} RandomOpsArePlain(src: Source, pos: nat, templates: seq<SqlEntry>, len: nat)
    requires templates != []
    ensures var ops := RandomOpsAt(src, pos, templates, len).value;
      |ops| == len && forall op :: op in ops ==> FromTemplates(op, templates) && !IsCopyBody(op)
  {
    if len > 0 {
      RandomOpsArePlain(src, pos, templates, len - 1);
      RandomOpIsPlain(src, RandomOpsAt(src, pos, templates, len - 1).pos, templates);
    }
  }

  // ---------------------------------------------------------------------------
  // Whole sequences
  // ---------------------------------------------------------------------------

  lemma WithRequestIs(ops: seq<FrontendOp>)
    ensures HasRequest(WithRequest(ops))
    ensures ops <= WithRequest(ops) && |WithRequest(ops)| <= |ops| + 1
    ensures forall op :: op in WithRequest(ops) ==> op in ops || op == Sync
  {
    if !HasRequest(ops) {
      assert (ops + [Sync])[|ops|].ExpectsReady();
    }
  }

  /**
   Every generated sequence, for all draws: it has something to wait for, between 1 and
   31 ops, and only SQL and numbers of parameters of enabled templates that are not meant
   for the other path; and with a profile that does not enable simple COPY it has no COPY
   data and no COPY abort.
   */
  lemma GeneratedSequence(src: Source, pos: nat, profile: Profile)
    ensures var templates := EnabledTemplates(profile);
      && templates != []
      && var ops := NextSequence(src, pos, templates).value;
        && HasRequest(ops)
        && 1 <= |ops| <= 31
        && (forall op :: op in ops ==> OnItsPath(op, templates))
        && (COPY !in profile ==> forall op :: op in ops ==> !IsCopyBody(op))
  {
    var templates := EnabledTemplates(profile);
    NeverEmpty(profile);
    CopyInIff(profile);
    if Coin(src, pos, 50) {
      GrammarIs(src, pos + 1, templates);
    } else {
      RandomIs(src, pos + 1, templates);
    }
    forall op | op in NextSequence(src, pos, templates).value ensures OnItsPath(op, templates) {
      FittingIsOnPath(op, templates, SqlEntry("SELECT 1", AnyPath, [], 0, []));
    }
  }

  /** What the generator does after drawing keeps to what was drawn. */
  ghost predicate Fine(ops: seq<FrontendOp>, templates: seq<SqlEntry>, copy: bool) {
    forall op :: op in ops ==> FromTemplates(op, templates) && (!copy ==> !IsCopyBody(op))
  }

  lemma LawfulIsFine(w: seq<Step>, templates: seq<SqlEntry>)
    requires Lawful(w, templates)
    ensures Fine(OpsOf(w), templates, HasCopyIn(templates))
  {
    forall j | 0 <= j < |w|
      ensures FromTemplates(w[j].op, templates) && (!HasCopyIn(templates) ==> !IsCopyBody(w[j].op))
    {
      assert StepSpec(StateAfter(w[..j]), w[j], templates);
      if !HasCopyIn(templates) {
        NoCopyInNoCopyBody(w, templates, j);
      }
    }
  }

  lemma WalkIsFine(src: Source, pos: nat, templates: seq<SqlEntry>, len: nat)
    requires templates != []
    ensures var w := WalkAt(src, pos, templates, len);
      |OpsOf(w)| == len && Fine(OpsOf(w), templates, HasCopyIn(templates))
  {
    var w := WalkIsLawful(src, pos, templates, len);
    LawfulIsFine(w, templates);
  }

  lemma FineWithRequest(ops: seq<FrontendOp>, templates: seq<SqlEntry>, copy: bool)
    requires Fine(ops, templates, copy)
    ensures Fine(WithRequest(ops), templates, copy) && HasRequest(WithRequest(ops))
    ensures |ops| <= |WithRequest(ops)| <= |ops| + 1
  {
    WithRequestIs(ops);
  }

  lemma GrammarIs(src: Source, pos: nat, templates: seq<SqlEntry>)
    requires templates != []
    ensures var ops := GrammarSequence(src, pos, templates).value;
      HasRequest(ops) && 2 <= |ops| <= 27 && Fine(ops, templates, HasCopyIn(templates))
  {
    var len := GeometricFrom(src, pos, 10, 25, 0);
    GeometricCounts(src, pos, 10, 25, 0);
    WalkIsFine(src, len.pos, templates, 2 + len.value);
    FineWithRequest(OpsOf(GrammarWalk(src, pos, templates)), templates, HasCopyIn(templates));
  }

  lemma RandomIs(src: Source, pos: nat, templates: seq<SqlEntry>)
    requires templates != []
    ensures var ops := RandomSequence(src, pos, templates).value;
      HasRequest(ops) && 1 <= |ops| <= 31 && Fine(ops, templates, false)
  {
    var len := GeometricFrom(src, pos, 12, 30, 0);
    GeometricCounts(src, pos, 12, 30, 0);
    RandomOpsArePlain(src, len.pos, templates, 1 + len.value);
    FineWithRequest(RandomOpsAt(src, len.pos, templates, 1 + len.value).value, templates, false);
  }

  // ---------------------------------------------------------------------------
  // COPY structure of whole sequences
  // ---------------------------------------------------------------------------

  /** Position `i` asks for COPY-in, and up to `j` there is only COPY data and what the random strategy draws. */
  ghost predicate Feeds(ops: seq<FrontendOp>, templates: seq<SqlEntry>, i: nat, j: nat) {
    && i < j < |ops| && IsOpener(ops[i], templates)
    && forall k :: i < k < j ==> (ops[k].CopyDataOp? || IsRandomOp(ops[k], templates)) && !ops[k].CopyFailOp?
  }

  ghost predicate IsFed(ops: seq<FrontendOp>, templates: seq<SqlEntry>, j: nat) {
    exists i :: Feeds(ops, templates, i, j)
  }

  /** Each COPY data and abort has its FROM STDIN query, and there are at least as many of those as aborts. */
  ghost predicate CopyOrdered(ops: seq<FrontendOp>, templates: seq<SqlEntry>) {
    && (forall j :: 0 <= j < |ops| && IsCopyBody(ops[j]) ==> IsFed(ops, templates, j))
    && CopyFails(ops) <= CopyInQueries(ops, templates)
  }

  lemma WalkIsCopyOrdered(w: seq<Step>, templates: seq<SqlEntry>)
    requires Lawful(w, templates)
    ensures CopyOrdered(OpsOf(w), templates)
  {
    var ops := OpsOf(w);
    CopyFailsAreBounded(w, templates);
    forall j | 0 <= j < |ops| && IsCopyBody(ops[j]) ensures IsFed(ops, templates, j) {
      var i := CopyBodyIsOpened(w, templates, j);
      forall k | i < k < j
        ensures (ops[k].CopyDataOp? || IsRandomOp(ops[k], templates)) && !ops[k].CopyFailOp?
      {
        assert StepSpec(StateAfter(w[..k]), w[k], templates);
      }
      assert Feeds(ops, templates, i, j);
    }
  }

  lemma FedHasRequest(ops: seq<FrontendOp>, templates: seq<SqlEntry>, j: nat)
    requires IsFed(ops, templates, j)
    ensures HasRequest(ops)
  {
    var i: nat :| Feeds(ops, templates, i, j);
    assert ops[i].ExpectsReady();
  }

  lemma WithRequestIsCopyOrdered(ops: seq<FrontendOp>, templates: seq<SqlEntry>)
    requires CopyOrdered(ops, templates)
    ensures CopyOrdered(WithRequest(ops), templates)
  {
    if !HasRequest(ops) {
      forall j | 0 <= j < |ops| ensures !IsCopyBody(ops[j]) {
        if IsCopyBody(ops[j]) {
          FedHasRequest(ops, templates, j);
        }
      }
      NoBodyIsCopyOrdered(ops + [Sync], templates);
    }
  }

  lemma {:induction false} NoBodyIsCopyOrdered(ops: seq<FrontendOp>, templates: seq<SqlEntry>)
    requires forall op :: op in ops ==> !IsCopyBody(op)
    ensures CopyOrdered(ops, templates) && CopyFails(ops) == 0
  {
    if ops != [] {
      assert ops[|ops| - 1] in ops;
      NoBodyIsCopyOrdered(ops[..|ops| - 1], templates);
    }
  }

  /** Every generated sequence, for all draws, has its COPY data and aborts in order. */
  lemma GeneratedCopyIsOrdered(src: Source, pos: nat, templates: seq<SqlEntry>)
    requires templates != []
    ensures CopyOrdered(NextSequence(src, pos, templates).value, templates)
  {
    if Coin(src, pos, 50) {
      var len := GeometricFrom(src, pos + 1, 10, 25, 0);
      var w := WalkIsLawful(src, len.pos, templates, 2 + len.value);
      WalkIsCopyOrdered(w, templates);
      WithRequestIsCopyOrdered(OpsOf(w), templates);
    } else {
      RandomIs(src, pos + 1, templates);
      NoBodyIsCopyOrdered(RandomSequence(src, pos + 1, templates).value, templates);
    }
  }
}

/** How the output of shrinking sits inside its input, and what no sub-sequence of it can do. */
module ShrinkerEmbedding {
  import opened Wrappers
  import opened Ops
  import opened Shrinker
  import opened ShrinkerTheorems

  // ---------------------------------------------------------------------------
  // The two rewrites
  // ---------------------------------------------------------------------------

  /** The ops agree in everything but the names in them. */
  predicate SameButNames(x: FrontendOp, y: FrontendOp) {
    match x
    case Parse(_, sql, paramOids) => y.Parse? && y.sql == sql && y.paramOids == paramOids
    case Bind(_, _, params) => y.Bind? && y.params == params
    case DescribeStatement(_) => y.DescribeStatement?
    case DescribePortal(_) => y.DescribePortal?
    case Execute(_, maxRows) => y.Execute? && y.maxRows == maxRows
    case CloseStatement(_) => y.CloseStatement?
    case ClosePortal(_) => y.ClosePortal?
    case _ => y == x
  }

  /** No statement or portal in it has a name. */
  predicate IsUnnamed(op: FrontendOp) {
    match op
    case Parse(name, _, _) => name.UnnamedStmt?
    case Bind(portal, stmt, _) => portal.UnnamedPortal? && stmt.UnnamedStmt?
    case DescribeStatement(name) => name.UnnamedStmt?
    case DescribePortal(name) => name.UnnamedPortal?
    case Execute(portal, _) => portal.UnnamedPortal?
    case CloseStatement(name) => name.UnnamedStmt?
    case ClosePortal(name) => name.UnnamedPortal?
    case _ => true
  }

  /** The ops agree in everything but SQL and what goes with it. */
  predicate SameButSql(x: FrontendOp, y: FrontendOp) {
    match x
    case Query(_) => y.Query?
    case Parse(name, _, _) => y.Parse? && y.name == name
    case _ => y == x
  }

  const PLAIN := "SELECT 1"

  predicate IsPlain(op: FrontendOp) {
    op.Query? || op.Parse? ==> op.sql == PLAIN
  }

  /** Dropping names drops all of them and nothing else, and applies exactly if there is one. */
  lemma NamesAreDropped(op: FrontendOp)
    ensures SimplifyNames(op).None? <==> IsUnnamed(op)
    ensures SimplifyNames(op).Some? ==>
      var x := SimplifyNames(op).value;
      SameButNames(x, op) && IsUnnamed(x)
  {
  }

  /** Replacing SQL replaces it and its parameter types and nothing else, and applies exactly if it is not plain. */
  lemma SqlIsReplaced(op: FrontendOp)
    ensures SimplifySql(op).None? <==> IsPlain(op)
    ensures SimplifySql(op).Some? ==>
      var x := SimplifySql(op).value;
      SameButSql(x, op) && IsPlain(x) && (x.Parse? ==> x.paramOids == [])
  {
  }

  function Unnamed(op: FrontendOp): FrontendOp {
    SimplifyNames(op).GetOr(op)
  }

  function PlainSql(op: FrontendOp): FrontendOp {
    SimplifySql(op).GetOr(op)
  }

  /** The order of the rewrites is free, and each leaves the other's work alone. */
  lemma RewritesAreOrderly(op: FrontendOp)
    ensures SimplifyNames(Unnamed(op)).None? && SimplifySql(PlainSql(op)).None?
    ensures SimplifyNames(op).None? ==> Unnamed(op) == op
    ensures SimplifySql(op).None? ==> PlainSql(op) == op
    ensures SimplifyNames(op).Some? ==> Unnamed(op) != op
    ensures SimplifySql(op).Some? ==> PlainSql(op) != op
    ensures Unnamed(PlainSql(op)) == PlainSql(Unnamed(op))
    ensures IsUnnamed(op) ==> IsUnnamed(PlainSql(op))
    ensures IsPlain(op) ==> IsPlain(Unnamed(op))
  {
    NamesAreDropped(op);
    SqlIsReplaced(op);
  }

  /** All names kept or all dropped. */
  predicate SimplerNames(x: FrontendOp, y: FrontendOp) {
    match x
    case Parse(name, _, _) => y.Parse? && (name == y.name || name.UnnamedStmt?)
    case Bind(portal, stmt, _) =>
      y.Bind? && ((portal == y.portal && stmt == y.stmt) || (portal.UnnamedPortal? && stmt.UnnamedStmt?))
    case DescribeStatement(name) => y.DescribeStatement? && (name == y.name || name.UnnamedStmt?)
    case DescribePortal(name) => y.DescribePortal? && (name == y.portalName || name.UnnamedPortal?)
    case Execute(portal, _) => y.Execute? && (portal == y.portal || portal.UnnamedPortal?)
    case CloseStatement(name) => y.CloseStatement? && (name == y.name || name.UnnamedStmt?)
    case ClosePortal(name) => y.ClosePortal? && (name == y.portalName || name.UnnamedPortal?)
    case _ => true
  }

  /** SQL kept with its parameter types, or replaced by plain SQL without any; all the rest kept. */
  predicate SimplerRest(x: FrontendOp, y: FrontendOp) {
    match x
    case Query(sql) => y.Query? && (sql == y.sql || sql == PLAIN)
    case Parse(_, sql, paramOids) =>
      y.Parse? && ((sql == y.sql && paramOids == y.paramOids) || (sql == PLAIN && paramOids == [] && y.sql != PLAIN))
    case _ => SameButNames(x, y)
  }

  /** The op itself, or with its names dropped, its SQL replaced, or both. */
  predicate SimplerForm(x: FrontendOp, y: FrontendOp) {
    SimplerNames(x, y) && SimplerRest(x, y)
  }

  /** These are the forms the two rewrites lead to. */
  lemma SimplerFormIff(x: FrontendOp, y: FrontendOp)
    ensures SimplerForm(x, y) <==> x == y || x == Unnamed(y) || x == PlainSql(y) || x == Unnamed(PlainSql(y))
  {
    NamesAreDropped(y);
    SqlIsReplaced(y);
    NamesAreDropped(PlainSql(y));
  }

  lemma SimplerFormTransitive(x: FrontendOp, y: FrontendOp, z: FrontendOp)
    requires SimplerForm(x, y) && SimplerForm(y, z)
    ensures SimplerForm(x, z)
  {
  }

  // ---------------------------------------------------------------------------
  // Simulation
  // ---------------------------------------------------------------------------

  /** A strictly increasing map from the positions of one sequence into another's. */
  ghost predicate IsIndexMap(m: seq<nat>, from: nat, to: nat) {
    && |m| == from
    && (forall i :: 0 <= i < |m| ==> m[i] < to)
    && (forall i, j :: 0 <= i < j < |m| ==> m[i] < m[j])
  }

  ghost predicate DerivedVia(a: seq<FrontendOp>, b: seq<FrontendOp>, m: seq<nat>) {
    IsIndexMap(m, |a|, |b|) && forall i :: 0 <= i < |a| ==> SimplerForm(a[i], b[m[i]])
  }

  ghost predicate Derived(a: seq<FrontendOp>, b: seq<FrontendOp>) {
    exists m :: DerivedVia(a, b, m)
  }

  lemma DerivedTransitive(a: seq<FrontendOp>, b: seq<FrontendOp>, c: seq<FrontendOp>)
    requires Derived(a, b) && Derived(b, c)
    ensures Derived(a, c)
  {
    var m :| DerivedVia(a, b, m);
    var k :| DerivedVia(b, c, k);
    var mk := seq(|a|, i requires 0 <= i < |a| => k[m[i]]);
    forall i | 0 <= i < |a| ensures SimplerForm(a[i], c[mk[i]]) {
      SimplerFormTransitive(a[i], b[m[i]], c[mk[i]]);
    }
    assert DerivedVia(a, c, mk);
  }

  lemma DerivedReflexive(a: seq<FrontendOp>)
    ensures Derived(a, a)
  {
    assert DerivedVia(a, a, seq(|a|, i requires 0 <= i < |a| => i));
  }

  lemma WindowDerived(ops: seq<FrontendOp>, i: nat, j: nat)
    requires i <= j <= |ops|
    ensures Derived(ops[i..j], ops)
  {
    assert DerivedVia(ops[i..j], ops, seq(j - i, k requires 0 <= k < j - i => i + k));
  }

  lemma DeletionDerived(ops: seq<FrontendOp>, i: nat)
    requires i < |ops|
    ensures Derived(Without(ops, i), ops)
  {
    var m := seq(|ops| - 1, k requires 0 <= k < |ops| - 1 => if k < i then k else k + 1);
    assert DerivedVia(Without(ops, i), ops, m);
  }

  lemma RewriteDerived(f: Rewriter, ops: seq<FrontendOp>, i: nat)
    requires IsSimplifier(f) && i < |ops| && f(ops[i]).Some?
    ensures Derived(ops[i := f(ops[i]).value], ops)
  {
    var a := ops[i := f(ops[i]).value];
    assert f(ops[i]).value == Unnamed(ops[i]) || f(ops[i]).value == PlainSql(ops[i]);
    SimplerFormIff(a[i], ops[i]);
    assert DerivedVia(a, ops, seq(|ops|, k requires 0 <= k < |ops| => k));
  }

  lemma {:induction false} GreedyDerived(o: Oracle, f: Rewriter, s: Progress, i: nat)
    requires IsSimplifier(f)
    ensures Derived(Greedy(o, f, s, i).ops, s.ops)
    decreases |s.ops| - i
  {
    if i >= |s.ops| {
      DerivedReflexive(s.ops);
    } else {
      match f(s.ops[i])
      case None => GreedyDerived(o, f, s, i + 1);
      case Some(simplified) =>
        var candidate := s.ops[i := simplified];
        if Accepts(o, s.clock, candidate) {
          var s' := Progress(candidate, true, Tick(candidate, s.clock));
          GreedyDerived(o, f, s', i + 1);
          RewriteDerived(f, s.ops, i);
          DerivedTransitive(Greedy(o, f, s', i + 1).ops, candidate, s.ops);
        } else {
          GreedyDerived(o, f, s.(clock := Tick(candidate, s.clock)), i + 1);
        }
    }
  }

  lemma PrefixesDerived(ops: seq<FrontendOp>, i: nat)
    requires i < |Prefixes(ops)|
    ensures Derived(Prefixes(ops)[i], ops)
  {
    WindowDerived(ops, 0, i + 1);
    assert ops[0..i + 1] == ops[..i + 1];
  }

  lemma SuffixesDerived(ops: seq<FrontendOp>, i: nat)
    requires i < |Suffixes(ops)|
    ensures Derived(Suffixes(ops)[i], ops)
  {
    WindowDerived(ops, |ops| - 1 - i, |ops|);
    assert ops[|ops| - 1 - i..|ops|] == ops[|ops| - 1 - i..];
  }

  lemma TrimsDerived(ops: seq<FrontendOp>, c: seq<FrontendOp>)
    requires c in Prefixes(ops) || c in Suffixes(ops) || c in Deletions(ops)
    ensures Derived(c, ops)
  {
    if c in Prefixes(ops) {
      var i :| 0 <= i < |Prefixes(ops)| && Prefixes(ops)[i] == c;
      PrefixesDerived(ops, i);
    } else if c in Suffixes(ops) {
      var i :| 0 <= i < |Suffixes(ops)| && Suffixes(ops)[i] == c;
      SuffixesDerived(ops, i);
    } else {
      var i :| 0 <= i < |Deletions(ops)| && Deletions(ops)[i] == c;
      DeletionDerived(ops, i);
    }
  }

  lemma SearchDerived(o: Oracle, ops: seq<FrontendOp>, clock: nat)
    ensures var p := SearchWindows(o, ops, clock); p.found.Some? ==> Derived(p.found.value, ops)
  {
    var p := SearchWindows(o, ops, clock);
    if p.found.Some? {
      var c := p.found.value;
      SearchIsOne(o, ops, 1, |ops| - 1, None, clock);
      var i :| 0 <= i <= |ops| - |c| && Slice(ops, i, |c|) == c;
      WindowDerived(ops, i, i + |c|);
    }
  }

  lemma PassDerived(kind: PassKind, o: Oracle, ops: seq<FrontendOp>, clock: nat)
    ensures var p := Pass(kind, o, ops, clock); p.found.Some? ==> Derived(p.found.value, ops)
  {
    var p := Pass(kind, o, ops, clock);
    if p.found.Some? {
      match kind
      case SuffixTrim =>
        FirstHitIsOne(o, Prefixes(ops), clock);
        TrimsDerived(ops, p.found.value);
      case PrefixTrim =>
        FirstHitIsOne(o, Suffixes(ops), clock);
        TrimsDerived(ops, p.found.value);
      case SingleDeletion =>
        FirstHitIsOne(o, Deletions(ops), clock);
        TrimsDerived(ops, p.found.value);
      case Subsequence =>
        SearchDerived(o, ops, clock);
      case NameSimplification =>
        GreedyDerived(o, SimplifyNames, Progress(ops, false, clock), 0);
      case SqlSimplification =>
        GreedyDerived(o, SimplifySql, Progress(ops, false, clock), 0);
    }
  }

  lemma {:induction false} PassesDerived(o: Oracle, s: Progress, k: nat)
    requires k <= PASS_COUNT
    ensures Derived(Passes(o, s, k).ops, s.ops)
  {
    if k == 0 {
      DerivedReflexive(s.ops);
    } else {
      PassesDerived(o, s, k - 1);
      var s' := Passes(o, s, k - 1);
      PassDerived(KindAt(k - 1), o, s'.ops, s'.clock);
      if Pass(KindAt(k - 1), o, s'.ops, s'.clock).found.Some? {
        DerivedTransitive(Passes(o, s, k).ops, s'.ops, s.ops);
      }
    }
  }

  /**
   Whatever the oracle answers, every op of the result comes from an op of the input,
   in order and at most simplified: shrinking never invents or reorders anything.
   */
  lemma {:induction false} ResultDerived(o: Oracle, ops: seq<FrontendOp>, clock: nat)
    ensures Derived(Shrunk(o, ops, clock).ops, ops)
    decreases Size(ops)
  {
    var r := Round(o, ops, clock);
    PassesDerived(o, Progress(ops, false, clock), PASS_COUNT);
    RoundIsSmaller(o, ops, clock);
    if r.progress {
      ResultDerived(o, r.ops, r.clock);
      DerivedTransitive(Shrunk(o, ops, clock).ops, r.ops, ops);
    }
  }

  // ---------------------------------------------------------------------------
  // Global minimality
  // ---------------------------------------------------------------------------

  ghost predicate EmbeddedVia(a: seq<FrontendOp>, b: seq<FrontendOp>, m: seq<nat>) {
    IsIndexMap(m, |a|, |b|) && forall i :: 0 <= i < |a| ==> a[i] == b[m[i]]
  }

  /** A sub-sequence, contiguous or not. */
  ghost predicate Embedded(a: seq<FrontendOp>, b: seq<FrontendOp>) {
    exists m :: EmbeddedVia(a, b, m)
  }

  /** Adding ops to a sequence that reproduces keeps it reproducing. */
  ghost predicate Monotone(o: Oracle) {
    forall a, b :: a != [] && Embedded(a, b) && o(0, a) ==> o(0, b)
  }

  lemma {:induction false} FirstGap(m: seq<nat>, n: nat, from: nat) returns (j: nat)
    requires IsIndexMap(m, |m|, n) && |m| < n && from <= |m|
    requires forall i :: 0 <= i < from ==> m[i] == i
    ensures j <= |m| && (forall i :: 0 <= i < j ==> m[i] < j) && (forall i :: j <= i < |m| ==> m[i] > j)
    decreases |m| - from
  {
    if from == |m| || m[from] != from {
      j := from;
      if from < |m| {
        assert m[from] > from by {
          if from > 0 {
            assert m[from - 1] < m[from];
          }
        }
      }
    } else {
      j := FirstGap(m, n, from + 1);
    }
  }

  /** A shorter sub-sequence misses some position, so it is a sub-sequence of a single deletion. */
  lemma EmbeddedInDeletion(a: seq<FrontendOp>, b: seq<FrontendOp>) returns (j: nat)
    requires Embedded(a, b) && |a| < |b|
    ensures j < |b| && Embedded(a, Without(b, j))
  {
    var m :| EmbeddedVia(a, b, m);
    j := FirstGap(m, |b|, 0);
    var m' := seq(|m|, i requires 0 <= i < |m| => if m[i] < j then m[i] else m[i] - 1);
    assert EmbeddedVia(a, Without(b, j), m');
  }

  lemma {:induction false} IndexMapFits(m: seq<nat>, n: nat)
    requires IsIndexMap(m, |m|, n)
    ensures |m| <= n
    ensures forall i :: 0 <= i < |m| ==> i <= m[i] <= n - |m| + i
  {
    if m != [] {
      var front := m[..|m| - 1];
      IndexMapFits(front, m[|m| - 1]);
    }
  }

  lemma EmbeddedFits(a: seq<FrontendOp>, b: seq<FrontendOp>)
    requires Embedded(a, b)
    ensures |a| <= |b| && (|a| == |b| ==> a == b)
  {
    var m :| EmbeddedVia(a, b, m);
    IndexMapFits(m, |b|);
  }

  /** With a steady and monotone oracle no proper sub-sequence of the result reproduces. */
  lemma GlobalMinimality(o: Oracle, ops: seq<FrontendOp>, clock: nat, a: seq<FrontendOp>)
    requires Steady(o) && Monotone(o) && ops != [] && o(0, ops)
    requires a != [] && Embedded(a, Shrunk(o, ops, clock).ops) && o(0, a)
    ensures a == Shrunk(o, ops, clock).ops
  {
    var r := Shrunk(o, ops, clock).ops;
    FixedPointMinimality(o, ops, clock);
    EmbeddedFits(a, r);
    if |a| < |r| {
      var j := EmbeddedInDeletion(a, r);
      assert Tries(KindAt(2), Without(r, j), r);
    }
  }

  /** Adding ops, and putting names and SQL back, keeps a sequence reproducing. */
  ghost predicate UpwardClosed(o: Oracle) {
    forall a, b :: a != [] && Derived(a, b) && o(0, a) ==> o(0, b)
  }

  lemma DerivedFromDeletion(a: seq<FrontendOp>, b: seq<FrontendOp>) returns (j: nat)
    requires Derived(a, b) && |a| < |b|
    ensures j < |b| && Derived(a, Without(b, j))
  {
    var m :| DerivedVia(a, b, m);
    j := FirstGap(m, |b|, 0);
    var m' := seq(|m|, i requires 0 <= i < |m| => if m[i] < j then m[i] else m[i] - 1);
    assert DerivedVia(a, Without(b, j), m');
  }

  /** A proper simplification of an op goes through a single rewrite of it. */
  lemma ThroughOneRewrite(x: FrontendOp, y: FrontendOp) returns (k: nat, z: FrontendOp)
    requires SimplerForm(x, y) && x != y
    ensures (k == 4 && SimplifyNames(y) == Some(z)) || (k == 5 && SimplifySql(y) == Some(z))
    ensures SimplerForm(x, z)
  {
    RewritesAreOrderly(y);
    RewritesAreOrderly(PlainSql(y));
    SimplerFormIff(x, y);
    SimplerFormIff(x, PlainSql(y));
    SimplerFormIff(x, Unnamed(y));
    if SimplifySql(y).Some? && (x == PlainSql(y) || x == Unnamed(PlainSql(y))) {
      k, z := 5, PlainSql(y);
    } else {
      k, z := 4, Unnamed(y);
    }
  }

  lemma RewrittenStillCovers(a: seq<FrontendOp>, b: seq<FrontendOp>, m: seq<nat>, i: nat, z: FrontendOp)
    requires DerivedVia(a, b, m) && |a| == |b| && i < |b| && SimplerForm(a[i], z)
    ensures Derived(a, b[i := z])
  {
    IndexMapFits(m, |b|);
    assert DerivedVia(a, b[i := z], m);
  }

  /** A simplification of the same length goes through a single simplification. */
  lemma DerivedFromRewrite(a: seq<FrontendOp>, b: seq<FrontendOp>) returns (k: nat, c: seq<FrontendOp>)
    requires Derived(a, b) && |a| == |b| && a != b
    ensures (k == 4 || k == 5) && Tries(KindAt(k), c, b) && Derived(a, c) && c != []
  {
    var m :| DerivedVia(a, b, m);
    IndexMapFits(m, |b|);
    var i :| 0 <= i < |a| && a[i] != b[i];
    var z;
    k, z := ThroughOneRewrite(a[i], b[i]);
    c := b[i := z];
    RewrittenStillCovers(a, b, m, i, z);
    RewriteIsTried(b, i, k, z);
  }

  lemma RewriteIsTried(b: seq<FrontendOp>, i: nat, k: nat, z: FrontendOp)
    requires i < |b| && ((k == 4 && SimplifyNames(b[i]) == Some(z)) || (k == 5 && SimplifySql(b[i]) == Some(z)))
    ensures Tries(KindAt(k), b[i := z], b)
  {
    assert k == 4 ==> IsRewriteOf(SimplifyNames, b[i := z], b);
    assert k == 5 ==> IsRewriteOf(SimplifySql, b[i := z], b);
  }

  /**
   With a steady oracle closed under adding ops and undoing simplifications, the result
   is minimal among everything that can be derived from it.
   */
  lemma MinimalAmongDerived(o: Oracle, ops: seq<FrontendOp>, clock: nat, a: seq<FrontendOp>)
    requires Steady(o) && UpwardClosed(o) && ops != [] && o(0, ops)
    requires a != [] && Derived(a, Shrunk(o, ops, clock).ops) && o(0, a)
    ensures a == Shrunk(o, ops, clock).ops
  {
    var r := Shrunk(o, ops, clock).ops;
    FixedPointMinimality(o, ops, clock);
    var m :| DerivedVia(a, r, m);
    IndexMapFits(m, |r|);
    if |a| < |r| {
      var j := DerivedFromDeletion(a, r);
      assert Tries(KindAt(2), Without(r, j), r);
    } else if a != r {
      var k, c := DerivedFromRewrite(a, r);
      assert Neighbour(c, r);
    }
  }
}

/** The SQL templates and which of them a profile enables (src/template.rs). */
module Templates {
  datatype Affinity = AnyPath | Simple | Extended

  type Feature = string

  const COPY: Feature := "copy"
  const COPY_EXTENDED: Feature := "copy_extended"
  const TRANSACTIONS: Feature := "transactions"
  const SQL_PREPARE: Feature := "sql_prepare"
  const PLPGSQL: Feature := "plpgsql"
  const MULTI_STATEMENT: Feature := "multi_statement"

  /** A profile is the set of feature tags it enables. */
  type Profile = set<Feature>

  datatype SqlEntry = SqlEntry(
    sql: string, affinity: Affinity, needs: seq<Feature>, paramCount: nat, setup: seq<string>)

  const CREATE_COPY_TEST := "CREATE TABLE IF NOT EXISTS copy_test (id int)"
  const COPY_IN := "COPY copy_test FROM STDIN"

  const TEMPLATES: seq<SqlEntry> := [
    SqlEntry("SELECT 1", AnyPath, [], 0, []),
    SqlEntry("SELECT $1::int", Extended, [], 1, []),
    SqlEntry("SELECT $1::int, $2::text", Extended, [], 2, []),
    SqlEntry("SELECT * FROM pg_type LIMIT 5", AnyPath, [], 0, []),
    SqlEntry("SLECT 1", AnyPath, [], 0, []),
    SqlEntry("SELECT 1/0", AnyPath, [], 0, []),
    SqlEntry("SELECT 1; SELECT 2", Simple, [MULTI_STATEMENT], 0, []),
    SqlEntry("BEGIN", AnyPath, [TRANSACTIONS], 0, []),
    SqlEntry("COMMIT", AnyPath, [TRANSACTIONS], 0, []),
    SqlEntry("ROLLBACK", AnyPath, [TRANSACTIONS], 0, []),
    SqlEntry("COPY (SELECT 1) TO STDOUT", Simple, [COPY], 0, []),
    SqlEntry(COPY_IN, Simple, [COPY], 0, [CREATE_COPY_TEST]),
    SqlEntry("COPY (SELECT 1) TO STDOUT", Extended, [COPY_EXTENDED], 0, []),
    SqlEntry(COPY_IN, Extended, [COPY_EXTENDED], 0, [CREATE_COPY_TEST]),
    SqlEntry("DO $$ BEGIN RAISE NOTICE 'hi'; END $$", AnyPath, [PLPGSQL], 0, []),
    SqlEntry("PREPARE fuzz_stmt AS SELECT 1", Simple, [SQL_PREPARE], 0, []),
    SqlEntry("DEALLOCATE fuzz_stmt", Simple, [SQL_PREPARE], 0, []),
    SqlEntry("EXECUTE fuzz_stmt", Simple, [SQL_PREPARE], 0, []),
    SqlEntry("DEALLOCATE ALL", Simple, [SQL_PREPARE], 0, [])
  ]

  predicate AllEnabled(profile: Profile, tags: seq<Feature>) {
    forall tag :: tag in tags ==> tag in profile
  }

  function EnabledAmong(profile: Profile, entries: seq<SqlEntry>): seq<SqlEntry> {
    if entries == [] then []
    else
      EnabledAmong(profile, entries[..|entries| - 1]) +
      if AllEnabled(profile, entries[|entries| - 1].needs) then [entries[|entries| - 1]] else []
  }

  function EnabledTemplates(profile: Profile): seq<SqlEntry> {
    EnabledAmong(profile, TEMPLATES)
  }

  /** The filter keeps exactly the entries all of whose tags are enabled. */
  lemma {:induction false} EnabledAmongIs(profile: Profile, entries: seq<SqlEntry>, t: SqlEntry)
    ensures t in EnabledAmong(profile, entries) <==> t in entries && AllEnabled(profile, t.needs)
  {
    if entries != [] {
      var front, last := entries[..|entries| - 1], entries[|entries| - 1];
      EnabledAmongIs(profile, front, t);
      assert entries == front + [last];
    }
  }

  /** The positions of the entries all of whose tags are enabled. */
  function EnabledPositions(profile: Profile, entries: seq<SqlEntry>): seq<nat> {
    if entries == [] then []
    else
      EnabledPositions(profile, entries[..|entries| - 1]) +
      if forall tag :: tag in entries[|entries| - 1].needs ==> tag in profile then [|entries| - 1] else []
  }

  /** The filter keeps the order and repeats nothing. */
  lemma {:induction false} EnabledInOrder(profile: Profile, entries: seq<SqlEntry>)
    ensures var r, m := EnabledAmong(profile, entries), EnabledPositions(profile, entries);
      && |m| == |r|
      && (forall i :: 0 <= i < |r| ==> m[i] < |entries| && r[i] == entries[m[i]])
      && (forall i, j :: 0 <= i < j < |m| ==> m[i] < m[j])
      && (forall k :: 0 <= k < |entries| ==> (k in m <==> AllEnabled(profile, entries[k].needs)))
  {
    if entries != [] {
      EnabledInOrder(profile, entries[..|entries| - 1]);
    }
  }

  /** Whatever the profile, there is a template to draw. */
  lemma NeverEmpty(profile: Profile)
    ensures SqlEntry("SELECT 1", AnyPath, [], 0, []) in EnabledTemplates(profile)
  {
    assert TEMPLATES[0] in TEMPLATES;
    EnabledAmongIs(profile, TEMPLATES, TEMPLATES[0]);
  }

  // ---------------------------------------------------------------------------
  // COPY-in templates
  // ---------------------------------------------------------------------------

  predicate Contains(s: string, sub: string) {
    exists i :: 0 <= i <= |s| - |sub| && OccursAt(s, sub, i)
  }

  predicate OccursAt(s: string, sub: string, i: nat)
    requires i + |sub| <= |s|
  {
    s[i..i + |sub|] == sub
  }

  /** A template that starts COPY-in from a simple query. */
  predicate IsCopyIn(t: SqlEntry) {
    Contains(t.sql, "FROM STDIN") && t.affinity == Simple
  }

  predicate HasCopyIn(templates: seq<SqlEntry>) {
    exists i :: 0 <= i < |templates| && IsCopyIn(templates[i])
  }

  lemma ContainedCharacter(s: string, sub: string, k: nat)
    requires Contains(s, sub) && k < |sub|
    ensures sub[k] in s
  {
    var i :| 0 <= i <= |s| - |sub| && OccursAt(s, sub, i);
    assert s[i..i + |sub|][k] == s[i + k];
  }

  lemma NotCopyInWithoutM(s: string)
    requires 'M' !in s
    ensures !Contains(s, "FROM STDIN")
  {
    assert "FROM STDIN"[3] == 'M';
    if Contains(s, "FROM STDIN") {
      ContainedCharacter(s, "FROM STDIN", 3);
    }
  }

  /** The other templates meant for simple queries all lack the letter M. */
  lemma SimpleQueriesWithoutM()
    ensures 'M' !in "SELECT 1; SELECT 2" && 'M' !in "COPY (SELECT 1) TO STDOUT"
  {
  }

  lemma PreparedQueriesWithoutM()
    ensures 'M' !in "PREPARE fuzz_stmt AS SELECT 1" && 'M' !in "DEALLOCATE fuzz_stmt"
    ensures 'M' !in "EXECUTE fuzz_stmt" && 'M' !in "DEALLOCATE ALL"
  {
  }

  lemma OtherSimpleTemplates(i: nat)
    requires i < |TEMPLATES| && TEMPLATES[i].affinity == Simple && i != 11
    ensures i in {6, 10, 15, 16, 17, 18}
  {
  }

  lemma CopyInTemplate()
    ensures IsCopyIn(TEMPLATES[11])
  {
    assert COPY_IN[15..25] == "FROM STDIN";
    assert OccursAt(COPY_IN, "FROM STDIN", 15);
  }

  lemma OnlyOneCopyIn(i: nat)
    requires i < |TEMPLATES|
    ensures IsCopyIn(TEMPLATES[i]) <==> i == 11
  {
    if i == 11 {
      CopyInTemplate();
    } else if TEMPLATES[i].affinity == Simple {
      OtherSimpleTemplates(i);
      SimpleQueriesWithoutM();
      PreparedQueriesWithoutM();
      NotCopyInWithoutM(TEMPLATES[i].sql);
    }
  }

  /** The generator can start COPY-in exactly when the profile enables simple COPY. */
  lemma CopyInIff(profile: Profile)
    ensures HasCopyIn(EnabledTemplates(profile)) <==> COPY in profile
  {
    var enabled := EnabledTemplates(profile);
    if HasCopyIn(enabled) {
      var k :| 0 <= k < |enabled| && IsCopyIn(enabled[k]);
      EnabledAmongIs(profile, TEMPLATES, enabled[k]);
      var i :| 0 <= i < |TEMPLATES| && TEMPLATES[i] == enabled[k];
      OnlyOneCopyIn(i);
    }
    if COPY in profile {
      var t := TEMPLATES[11];
      EnabledAmongIs(profile, TEMPLATES, t);
      var k :| 0 <= k < |enabled| && enabled[k] == t;
      OnlyOneCopyIn(11);
      assert IsCopyIn(enabled[k]);
    }
  }

  // ---------------------------------------------------------------------------
  // Setup SQL
  // ---------------------------------------------------------------------------

  /** Keeps the first occurrence of everything. */
  function Distinct<T(==)>(s: seq<T>): seq<T> {
    if s == [] then []
    else
      var d := Distinct(s[..|s| - 1]);
      if s[|s| - 1] in d then d else d + [s[|s| - 1]]
  }

  function AllSetup(templates: seq<SqlEntry>): seq<string> {
    if templates == [] then [] else AllSetup(templates[..|templates| - 1]) + templates[|templates| - 1].setup
  }

  function FirstPositions<T(==)>(s: seq<T>): seq<nat> {
    if s == [] then []
    else
      var m := FirstPositions(s[..|s| - 1]);
      if s[|s| - 1] in Distinct(s[..|s| - 1]) then m else m + [|s| - 1]
  }

  /** Nothing lost, nothing added, and each element where it first occurred, in that order. */
  lemma {:induction false} DistinctSpec<T>(s: seq<T>)
    ensures var d, m := Distinct(s), FirstPositions(s);
      && |m| == |d|
      && (forall x :: x in d <==> x in s)
      && (forall i :: 0 <= i < |d| ==> m[i] < |s| && s[m[i]] == d[i] && d[i] !in s[..m[i]])
      && (forall i, j :: 0 <= i < j < |d| ==> m[i] < m[j] && d[i] != d[j])
  {
    if s != [] {
      var front, last := s[..|s| - 1], s[|s| - 1];
      DistinctSpec(front);
      assert s == front + [last];
      assert forall k :: 0 <= k <= |front| ==> s[..k] == front[..k];
      var d := Distinct(front);
      assert forall i :: 0 <= i < |d| ==> d[i] in d;
    }
  }

  lemma DistinctSnoc<T>(s: seq<T>, x: T)
    ensures Distinct(s + [x]) == if x in Distinct(s) then Distinct(s) else Distinct(s) + [x]
  {
    assert (s + [x])[..|s|] == s;
  }

  /** The inner loop: appends the statements of one template not seen before. */
  method AddSetup(setup: seq<string>, before: seq<string>, seen: set<string>, ghost all: seq<string>)
    returns (result: seq<string>, seen': set<string>)
    requires before == Distinct(all) && forall x :: x in seen <==> x in before
    ensures result == Distinct(all + setup) && forall x :: x in seen' <==> x in result
  {
    result, seen' := before, seen;
    assert all + setup[..0] == all;
    for k := 0 to |setup|
      invariant result == Distinct(all + setup[..k])
      invariant forall x :: x in seen' <==> x in result
    {
      DistinctSnoc(all + setup[..k], setup[k]);
      assert all + setup[..k] + [setup[k]] == all + setup[..k + 1];
      if setup[k] !in seen' {
        seen' := seen' + {setup[k]};
        result := result + [setup[k]];
      }
    }
    assert setup[..|setup|] == setup;
  }

  method SetupOf(templates: seq<SqlEntry>) returns (result: seq<string>)
    ensures result == Distinct(AllSetup(templates))
  {
    var seen: set<string> := {};
    result := [];
    for i := 0 to |templates|
      invariant result == Distinct(AllSetup(templates[..i]))
      invariant forall x :: x in seen <==> x in result
    {
      assert templates[..i + 1][..i] == templates[..i];
      result, seen := AddSetup(templates[i].setup, result, seen, AllSetup(templates[..i]));
    }
    assert templates[..|templates|] == templates;
  }

  method SetupSql(profile: Profile) returns (result: seq<string>)
    ensures result == Distinct(AllSetup(EnabledTemplates(profile)))
  {
    result := SetupOf(EnabledTemplates(profile));
  }
}

/** Frontend operations (src/op.rs). */
module Ops {
  import opened Wrappers
  import opened Protocol

  datatype StmtName = UnnamedStmt | S1 | S2 {
    function AsOption(): Option<string> {
      match this
      case UnnamedStmt => None
      case S1 => Some("s1")
      case S2 => Some("s2")
    }

    function AsStr(): string {
      AsOption().GetOr("")
    }
  }

  datatype PortalName = UnnamedPortal | P1 | P2 {
    function AsOption(): Option<string> {
      match this
      case UnnamedPortal => None
      case P1 => Some("p1")
      case P2 => Some("p2")
    }
  }

  /** A bind parameter. `Text` carries the UTF-8 bytes of its string. */
  datatype Param = Null | Int32(v: i32) | Text(utf8: seq<byte>) | Bytes(bytes: seq<byte>) {
    function FormatCode(): FormatCode {
      if Text? then TextFormat else BinaryFormat
    }
  }

  datatype FrontendOp =
    | Query(sql: string)
    | Parse(name: StmtName, sql: string, paramOids: seq<u32>)
    | Bind(portal: PortalName, stmt: StmtName, params: seq<Param>)
    | DescribeStatement(name: StmtName)
    | DescribePortal(portalName: PortalName)
    | Execute(portal: PortalName, maxRows: u32)
    | CloseStatement(name: StmtName)
    | ClosePortal(portalName: PortalName)
    | Sync
    | Flush
    | CopyDataOp(data: seq<byte>)
    | CopyDoneOp
    | CopyFailOp(message: string)
  {
    /** The ops after which the runner flushes the write buffer. */
    predicate TriggersFlush() {
      Sync? || Query? || Flush? || CopyDoneOp? || CopyFailOp?
    }

    /** The ops the runner expects one ReadyForQuery for. */
    predicate ExpectsReady() {
      Sync? || Query?
    }
  }

  /** How many ReadyForQuery messages the runner waits for. */
  function ExpectedReady(ops: seq<FrontendOp>): nat {
    if ops == [] then 0
    else ExpectedReady(ops[..|ops| - 1]) + if ops[|ops| - 1].ExpectsReady() then 1 else 0
  }

  predicate HasTrigger(ops: seq<FrontendOp>) {
    ops != [] && (HasTrigger(ops[..|ops| - 1]) || ops[|ops| - 1].TriggersFlush())
  }

  lemma {:induction false} HasTriggerIs(ops: seq<FrontendOp>)
    ensures HasTrigger(ops) <==> exists i :: 0 <= i < |ops| && ops[i].TriggersFlush()
  {
    if ops != [] {
      var front := ops[..|ops| - 1];
      HasTriggerIs(front);
      if HasTrigger(front) {
        var i :| 0 <= i < |front| && front[i].TriggersFlush();
        assert ops[i].TriggersFlush();
      }
    }
  }

  predicate HasRequest(ops: seq<FrontendOp>) {
    exists i :: 0 <= i < |ops| && ops[i].ExpectsReady()
  }

  lemma {:induction false} ExpectedReadyAppend(a: seq<FrontendOp>, b: seq<FrontendOp>)
    ensures ExpectedReady(a + b) == ExpectedReady(a) + ExpectedReady(b)
  {
    if b == [] {
      assert a + b == a;
    } else {
      assert (a + b)[..|a + b| - 1] == a + b[..|b| - 1];
      ExpectedReadyAppend(a, b[..|b| - 1]);
    }
  }

  lemma {:induction false} ExpectedReadyPositive(ops: seq<FrontendOp>)
    ensures ExpectedReady(ops) > 0 <==> HasRequest(ops)
  {
    if ops != [] {
      var front := ops[..|ops| - 1];
      ExpectedReadyPositive(front);
      if HasRequest(front) {
        var i :| 0 <= i < |front| && front[i].ExpectsReady();
        assert ops[i].ExpectsReady();
      }
    }
  }
}

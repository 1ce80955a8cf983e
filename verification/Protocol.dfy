/**
 The surface of the wire-protocol library the fuzzer talks through: the frontend
 messages it can queue and the backend messages it hands back. How the library
 turns the former into bytes is not part of this model.
 */
module Protocol {
  import opened Wrappers

  type byte = x: int | 0 <= x < 256
  type u16 = x: int | 0 <= x < 0x1_0000
  type u32 = x: int | 0 <= x < 0x1_0000_0000
  type i32 = x: int | -0x8000_0000 <= x < 0x8000_0000

  datatype FormatCode = TextFormat | BinaryFormat

  /** A message queued in a connection's write buffer. `None` names the unnamed statement or portal. */
  datatype FrontendMsg =
    | QueryMsg(sql: string)
    | ParseMsg(stmt: Option<string>, sql: string, paramTypes: Option<seq<u32>>)
    | BindMsg(portal: Option<string>, stmtName: string, params: seq<(FormatCode, seq<byte>)>)
    | DescribeStatementMsg(stmt: Option<string>)
    | DescribePortalMsg(portal: Option<string>)
    | ExecuteMsg(portal: Option<string>, maxRows: u32)
    | CloseStatementMsg(stmt: Option<string>)
    | ClosePortalMsg(portal: Option<string>)
    | SyncMsg
    | FlushMsg
    | CopyDataMsg(data: seq<byte>)
    | CopyDoneMsg
    | CopyFailMsg(message: string)

  /** One column of a row description; each accessor of the library may come back empty. */
  datatype RawColumn = RawColumn(name: Option<string>, typeOid: Option<u32>, format: Option<u16>)

  /** A backend message as the library presents it. `status` is the status' debug name. */
  datatype PgMessage =
    | ReadyForQuery(status: string)
    | ErrorResponse(severity: string, code: string, message: string)
    | NoticeResponse(severity: string, code: string, message: string)
    | RowDescription(fields: seq<RawColumn>)
    | DataRow(columns: seq<Option<seq<byte>>>)
    | CommandComplete(tag: string)
    | ParameterDescription(oids: seq<Option<u32>>)
    | CopyInResponse(format: u16, columnFormats: seq<Option<u16>>)
    | CopyOutResponse(format: u16, columnFormats: seq<Option<u16>>)
    | CopyData(data: seq<byte>)
    | ParseComplete
    | BindComplete
    | CloseComplete
    | NoData
    | EmptyQueryResponse
    | PortalSuspended
    | CopyDone
    | BackendKeyData(processId: u32, secret: u32)
    | ParameterStatus(name: string, setting: string)
    | OtherMessage(kind: byte)
}

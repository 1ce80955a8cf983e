/**
 The backend message builders used to script servers in tests (src/mock.rs), as a code
 over bytes. Strings are their UTF-8 bytes.
 */
module Mock {
  import opened Wrappers
  import opened Protocol
  import opened Bytes

  datatype BackendMsg =
    | MReadyForQuery(status: byte)
    | MParseComplete
    | MBindComplete
    | MCloseComplete
    | MNoData
    | MEmptyQueryResponse
    | MPortalSuspended
    | MCopyDone
    | MCommandComplete(tag: seq<byte>)
    | MErrorResponse(severity: seq<byte>, code: seq<byte>, message: seq<byte>)
    | MNoticeResponse(severity: seq<byte>, code: seq<byte>, message: seq<byte>)
    | MDataRow(values: seq<Option<seq<byte>>>)
    | MRowDescription(columns: seq<(seq<byte>, u32)>)
    | MParameterDescription(oids: seq<u32>)
    | MCopyInResponse(format: byte, columnFormats: seq<u16>)
    | MCopyOutResponse(format: byte, columnFormats: seq<u16>)
    | MCopyData(data: seq<byte>)

  function TypeByte(m: BackendMsg): byte {
    match m
    case MReadyForQuery(_) => 'Z' as int
    case MParseComplete => '1' as int
    case MBindComplete => '2' as int
    case MCloseComplete => '3' as int
    case MNoData => 'n' as int
    case MEmptyQueryResponse => 'I' as int
    case MPortalSuspended => 's' as int
    case MCopyDone => 'c' as int
    case MCommandComplete(_) => 'C' as int
    case MErrorResponse(_, _, _) => 'E' as int
    case MNoticeResponse(_, _, _) => 'N' as int
    case MDataRow(_) => 'D' as int
    case MRowDescription(_) => 'T' as int
    case MParameterDescription(_) => 't' as int
    case MCopyInResponse(_, _) => 'G' as int
    case MCopyOutResponse(_, _) => 'H' as int
    case MCopyData(_) => 'd' as int
  }

  function CString(s: seq<byte>): seq<byte> {
    s + [0]
  }

  function ErrorFields(severity: seq<byte>, code: seq<byte>, message: seq<byte>): seq<byte> {
    ['S' as int] + CString(severity) + (['V' as int] + CString(severity) +
    (['C' as int] + CString(code) + (['M' as int] + CString(message) + [0])))
  }

  /** Table OID, attribute number, type OID, type size, type modifier, format. */
  function ColumnTail(typeOid: u32): seq<byte> {
    U32(0) + U16(0) + (U32(typeOid) + (U16(0xFFFF) + U32(0xFFFF_FFFF) + U16(0)))
  }

  function Column(c: (seq<byte>, u32)): seq<byte> {
    CString(c.0) + ColumnTail(c.1)
  }

  function Joined<T>(xs: seq<T>, f: T -> seq<byte>): seq<byte> {
    if xs == [] then [] else f(xs[0]) + Joined(xs[1..], f)
  }

  function ValuesPayload(values: seq<Option<seq<byte>>>): seq<byte> {
    U16(|values|) + Fields(values)
  }

  function ColumnsPayload(columns: seq<(seq<byte>, u32)>): seq<byte> {
    U16(|columns|) + Joined(columns, Column)
  }

  function OidsPayload(oids: seq<u32>): seq<byte> {
    U16(|oids|) + Joined(oids, (n: u32) => U32(n))
  }

  function FormatsPayload(format: byte, formats: seq<u16>): seq<byte> {
    [format] + (U16(|formats|) + Joined(formats, (n: u16) => U16(n)))
  }

  function Payload(m: BackendMsg): seq<byte> {
    match m
    case MReadyForQuery(status) => [status]
    case MCommandComplete(tag) => CString(tag)
    case MErrorResponse(severity, code, message) => ErrorFields(severity, code, message)
    case MNoticeResponse(severity, code, message) => ErrorFields(severity, code, message)
    case MDataRow(values) => ValuesPayload(values)
    case MRowDescription(columns) => ColumnsPayload(columns)
    case MParameterDescription(oids) => OidsPayload(oids)
    case MCopyInResponse(format, formats) => FormatsPayload(format, formats)
    case MCopyOutResponse(format, formats) => FormatsPayload(format, formats)
    case MCopyData(data) => data
    case _ => []
  }

  /** Type byte, length including itself, payload. */
  function Frame(kind: byte, payload: seq<byte>): seq<byte> {
    [kind] + U32(4 + |payload|) + payload
  }

  function Encode(m: BackendMsg): seq<byte> {
    Frame(TypeByte(m), Payload(m))
  }

  function Concat(ms: seq<BackendMsg>): seq<byte> {
    if ms == [] then [] else Encode(ms[0]) + Concat(ms[1..])
  }

  // ---------------------------------------------------------------------------
  // Builders
  // ---------------------------------------------------------------------------

  /** One entry further in the list: it is part of what is written, no longer of what is to come. */
  lemma JoinedStep<T>(written: seq<byte>, xs: seq<T>, i: nat, f: T -> seq<byte>, entry: seq<byte>)
    requires i < |xs| && entry == f(xs[i])
    ensures written + Joined(xs[i..], f) == written + entry + Joined(xs[i + 1..], f)
  {
    assert xs[i..][1..] == xs[i + 1..];
  }

  lemma FieldsStep(written: seq<byte>, values: seq<Option<seq<byte>>>, i: nat, entry: seq<byte>)
    requires i < |values| && entry == Field(values[i])
    ensures written + Fields(values[i..]) == written + entry + Fields(values[i + 1..])
  {
    assert values[i..][1..] == values[i + 1..];
  }

  lemma NothingToCome(written: seq<byte>)
    ensures written + [] == written
  {
  }

  /** A message is its payload in its frame. */
  lemma EncodeIs(m: BackendMsg, kind: byte, payload: seq<byte>)
    requires kind == TypeByte(m) && payload == Payload(m)
    ensures Encode(m) == [kind] + U32(4 + |payload|) + payload
  {
  }

  method ReadyForQuery(status: byte) returns (buf: seq<byte>)
    ensures buf == Encode(MReadyForQuery(status))
  {
    buf := ['Z' as int];
    buf := buf + U32(5);
    buf := buf + [status];
  }

  /** The builders of messages without a payload differ only in their type byte. */
  method Bare(m: BackendMsg) returns (buf: seq<byte>)
    requires m in {MParseComplete, MBindComplete, MCloseComplete, MNoData,
                   MEmptyQueryResponse, MPortalSuspended, MCopyDone}
    ensures buf == Encode(m)
  {
    buf := [TypeByte(m)];
    buf := buf + U32(4);
    assert Payload(m) == [] && buf + [] == buf;
  }

  method CommandComplete(tag: seq<byte>) returns (buf: seq<byte>)
    ensures buf == Encode(MCommandComplete(tag))
  {
    var payloadLen := |tag| + 1;
    buf := ['C' as int];
    buf := buf + U32(4 + payloadLen);
    buf := buf + tag;
    buf := buf + [0];
    assert buf == ['C' as int] + U32(4 + payloadLen) + (tag + [0]);
  }

  method ErrorPayload(severity: seq<byte>, code: seq<byte>, message: seq<byte>) returns (payload: seq<byte>)
    ensures payload == ErrorFields(severity, code, message)
  {
    payload := ['S' as int] + severity + [0];
    payload := payload + ['V' as int] + severity + [0];
    payload := payload + ['C' as int] + code + [0];
    payload := payload + ['M' as int] + message + [0];
    payload := payload + [0];
  }

  method ErrorResponse(severity: seq<byte>, code: seq<byte>, message: seq<byte>) returns (buf: seq<byte>)
    ensures buf == Encode(MErrorResponse(severity, code, message))
  {
    var payload := ErrorPayload(severity, code, message);
    buf := ['E' as int];
    buf := buf + U32(4 + |payload|);
    buf := buf + payload;
  }

  /** The error builder's bytes with another type byte. */
  method NoticeResponse(severity: seq<byte>, code: seq<byte>, message: seq<byte>) returns (buf: seq<byte>)
    ensures buf == Encode(MNoticeResponse(severity, code, message))
  {
    buf := ErrorResponse(severity, code, message);
    buf := buf[0 := 'N' as int];
  }

  method FieldEntry(col: Option<seq<byte>>) returns (entry: seq<byte>)
    ensures entry == Field(col)
  {
    match col {
      case Some(data) =>
        entry := U32(|data|);
        entry := entry + data;
      case None =>
        entry := U32(NULL_LENGTH);
    }
  }

  method DataRow(columns: seq<Option<seq<byte>>>) returns (buf: seq<byte>)
    ensures buf == Encode(MDataRow(columns))
  {
    ghost var whole := ValuesPayload(columns);
    var payload := U16(|columns|);
    assert columns[0..] == columns;
    for i := 0 to |columns|
      invariant payload + Fields(columns[i..]) == whole
    {
      var entry := FieldEntry(columns[i]);
      FieldsStep(payload, columns, i, entry);
      payload := payload + entry;
    }
    NothingToCome(payload);
    EncodeIs(MDataRow(columns), 'D' as int, payload);
    buf := ['D' as int] + U32(4 + |payload|) + payload;
  }

  method ColumnEntry(name: seq<byte>, typeOid: u32) returns (entry: seq<byte>)
    ensures entry == Column((name, typeOid))
  {
    entry := name + [0];
    entry := entry + (U32(0) + U16(0) + (U32(typeOid) + (U16(0xFFFF) + U32(0xFFFF_FFFF) + U16(0))));
  }

  method RowDescription(columns: seq<(seq<byte>, u32)>) returns (buf: seq<byte>)
    ensures buf == Encode(MRowDescription(columns))
  {
    ghost var whole := ColumnsPayload(columns);
    var payload := U16(|columns|);
    assert columns[0..] == columns;
    for i := 0 to |columns|
      invariant payload + Joined(columns[i..], Column) == whole
    {
      var entry := ColumnEntry(columns[i].0, columns[i].1);
      JoinedStep(payload, columns, i, Column, entry);
      payload := payload + entry;
    }
    NothingToCome(payload);
    EncodeIs(MRowDescription(columns), 'T' as int, payload);
    buf := ['T' as int] + U32(4 + |payload|) + payload;
  }

  method ParameterDescription(oids: seq<u32>) returns (buf: seq<byte>)
    ensures buf == Encode(MParameterDescription(oids))
  {
    ghost var f := (n: u32) => U32(n);
    ghost var whole := OidsPayload(oids);
    var payload := U16(|oids|);
    assert oids[0..] == oids;
    for i := 0 to |oids|
      invariant payload + Joined(oids[i..], f) == whole
    {
      JoinedStep(payload, oids, i, f, U32(oids[i]));
      payload := payload + U32(oids[i]);
    }
    NothingToCome(payload);
    EncodeIs(MParameterDescription(oids), 't' as int, payload);
    buf := ['t' as int] + U32(4 + |payload|) + payload;
  }

  method CopyInResponse(format: byte, columnFormats: seq<u16>) returns (buf: seq<byte>)
    ensures buf == Encode(MCopyInResponse(format, columnFormats))
  {
    ghost var f := (n: u16) => U16(n);
    ghost var whole := FormatsPayload(format, columnFormats);
    var payload := [format];
    payload := payload + U16(|columnFormats|);
    assert columnFormats[0..] == columnFormats;
    Appended([format], U16(|columnFormats|), Joined(columnFormats, f));
    for i := 0 to |columnFormats|
      invariant payload + Joined(columnFormats[i..], f) == whole
    {
      JoinedStep(payload, columnFormats, i, f, U16(columnFormats[i]));
      payload := payload + U16(columnFormats[i]);
    }
    NothingToCome(payload);
    EncodeIs(MCopyInResponse(format, columnFormats), 'G' as int, payload);
    buf := ['G' as int] + U32(4 + |payload|) + payload;
  }

  method CopyOutResponse(format: byte, columnFormats: seq<u16>) returns (buf: seq<byte>)
    ensures buf == Encode(MCopyOutResponse(format, columnFormats))
  {
    buf := CopyInResponse(format, columnFormats);
    buf := buf[0 := 'H' as int];
  }

  method CopyData(data: seq<byte>) returns (buf: seq<byte>)
    ensures buf == Encode(MCopyData(data))
  {
    buf := ['d' as int];
    buf := buf + U32(4 + |data|);
    buf := buf + data;
  }

  // ---------------------------------------------------------------------------
  // Limits
  // ---------------------------------------------------------------------------

  predicate NulFree(s: seq<byte>) {
    0 !in s
  }

  /** Within the limits of the length and count fields, and without NUL inside strings. */
  predicate Fits(m: BackendMsg) {
    && 4 + |Payload(m)| < 0x1_0000_0000
    && match m
       case MCommandComplete(tag) => NulFree(tag)
       case MErrorResponse(severity, code, message) => NulFree(severity) && NulFree(code) && NulFree(message)
       case MNoticeResponse(severity, code, message) => NulFree(severity) && NulFree(code) && NulFree(message)
       case MDataRow(values) => |values| < 0x1_0000 && FieldsFit(values)
       case MRowDescription(columns) => |columns| < 0x1_0000 && forall c :: c in columns ==> NulFree(c.0)
       case MParameterDescription(oids) => |oids| < 0x1_0000
       case MCopyInResponse(_, formats) => |formats| < 0x1_0000
       case MCopyOutResponse(_, formats) => |formats| < 0x1_0000
       case _ => true
  }

  // ---------------------------------------------------------------------------
  // Reading messages
  // ---------------------------------------------------------------------------

  function ReadNumber(bs: seq<byte>, width: nat): Option<(nat, seq<byte>)> {
    if |bs| < width then None else Some((ReadBigEndian(bs[..width]), bs[width..]))
  }

  /** Up to and including the first NUL. */
  function ReadCString(bs: seq<byte>): (r: Option<(seq<byte>, seq<byte>)>)
    ensures r.Some? ==> |r.value.1| < |bs|
  {
    if bs == [] then None
    else if bs[0] == 0 then Some(([], bs[1..]))
    else
      match ReadCString(bs[1..])
      case None => None
      case Some((s, rest)) => Some(([bs[0]] + s, rest))
  }

  /** A list of numbers that takes up everything. */
  function ReadNumbers(bs: seq<byte>, width: nat, count: nat): Option<seq<nat>> {
    if count == 0 then (if bs == [] then Some([]) else None)
    else
      match ReadNumber(bs, width)
      case None => None
      case Some((n, rest)) =>
        match ReadNumbers(rest, width, count - 1)
        case None => None
        case Some(ns) => Some([n] + ns)
  }

  /** A counted list of numbers. */
  function ReadCounted(bs: seq<byte>, width: nat): Option<seq<nat>> {
    match ReadNumber(bs, 2)
    case None => None
    case Some((count, rest)) => ReadNumbers(rest, width, count)
  }

  /** A column of no table, of variable size and without a type modifier, sent as text. */
  const COLUMN_SHAPE := (0, 0, 0xFFFF, 0xFFFF_FFFF, 0)

  /** Name, table OID, attribute number, type OID, type size, type modifier, format. */
  function ReadColumn(bs: seq<byte>): Option<((seq<byte>, nat), seq<byte>)> {
    match ReadCString(bs)
    case None => None
    case Some((name, rest)) =>
      if |rest| < 18 then None
      else
        var (table, attribute) := (ReadBigEndian(rest[..4]), ReadBigEndian(rest[4..6]));
        var (oid, size) := (ReadBigEndian(rest[6..10]), ReadBigEndian(rest[10..12]));
        var (modifier, format) := (ReadBigEndian(rest[12..16]), ReadBigEndian(rest[16..18]));
        if (table, attribute, size, modifier, format) != COLUMN_SHAPE then None else Some(((name, oid), rest[18..]))
  }

  function ReadColumns(bs: seq<byte>, count: nat): Option<seq<(seq<byte>, nat)>>
    decreases count
  {
    if count == 0 then (if bs == [] then Some([]) else None)
    else
      match ReadColumn(bs)
      case None => None
      case Some((c, rest)) =>
        match ReadColumns(rest, count - 1)
        case None => None
        case Some(cs) => Some([c] + cs)
  }

  /** Fields by their kind, up to a final zero. */
  function ReadTagged(bs: seq<byte>): Option<map<byte, seq<byte>>>
    decreases |bs|
  {
    if bs == [0] then Some(map[])
    else if bs == [] || bs[0] == 0 then None
    else
      match ReadCString(bs[1..])
      case None => None
      case Some((s, rest)) =>
        match ReadTagged(rest)
        case None => None
        case Some(fields) => Some(fields[bs[0] := s])
  }

  /** Severity, code and message of an error or notice. */
  function ReadError(bs: seq<byte>): Option<(seq<byte>, seq<byte>, seq<byte>)> {
    match ReadTagged(bs)
    case None => None
    case Some(fields) =>
      if {'S' as int, 'V' as int, 'C' as int, 'M' as int} != fields.Keys then None
      else if fields['S' as int] != fields['V' as int] then None
      else Some((fields['S' as int], fields['C' as int], fields['M' as int]))
  }

  function ReadFormats(bs: seq<byte>): Option<(byte, seq<nat>)> {
    if bs == [] then None
    else
      match ReadCounted(bs[1..], 2)
      case None => None
      case Some(formats) => Some((bs[0], formats))
  }

  function ReadValues(bs: seq<byte>): Option<seq<Option<seq<byte>>>> {
    match ReadNumber(bs, 2)
    case None => None
    case Some((count, rest)) =>
      match ReadFields(rest)
      case None => None
      case Some(values) => if |values| == count then Some(values) else None
  }

  /** The payload is that of the message, as a client reads it. */
  ghost predicate Says(payload: seq<byte>, m: BackendMsg) {
    match m
    case MReadyForQuery(status) => payload == [status]
    case MCommandComplete(tag) => ReadCString(payload) == Some((tag, []))
    case MErrorResponse(severity, code, message) => ReadError(payload) == Some((severity, code, message))
    case MNoticeResponse(severity, code, message) => ReadError(payload) == Some((severity, code, message))
    case MDataRow(values) => ReadValues(payload) == Some(values)
    case MRowDescription(columns) =>
      && |payload| >= 2 && ReadBigEndian(payload[..2]) == |columns|
      && ReadColumns(payload[2..], |columns|) == Some(columns)
    case MParameterDescription(oids) => ReadCounted(payload, 4) == Some(oids)
    case MCopyInResponse(format, formats) => ReadFormats(payload) == Some((format, formats))
    case MCopyOutResponse(format, formats) => ReadFormats(payload) == Some((format, formats))
    case MCopyData(data) => payload == data
    case _ => payload == []
  }

  /** The type byte names the kind of message. */
  predicate KindSays(kind: byte, m: BackendMsg) {
    && (kind == 'Z' as int <==> m.MReadyForQuery?) && (kind == '1' as int <==> m.MParseComplete?)
    && (kind == '2' as int <==> m.MBindComplete?) && (kind == '3' as int <==> m.MCloseComplete?)
    && (kind == 'n' as int <==> m.MNoData?) && (kind == 'I' as int <==> m.MEmptyQueryResponse?)
    && (kind == 's' as int <==> m.MPortalSuspended?) && (kind == 'c' as int <==> m.MCopyDone?)
    && (kind == 'C' as int <==> m.MCommandComplete?) && (kind == 'E' as int <==> m.MErrorResponse?)
    && (kind == 'N' as int <==> m.MNoticeResponse?) && (kind == 'D' as int <==> m.MDataRow?)
    && (kind == 'T' as int <==> m.MRowDescription?) && (kind == 't' as int <==> m.MParameterDescription?)
    && (kind == 'G' as int <==> m.MCopyInResponse?) && (kind == 'H' as int <==> m.MCopyOutResponse?)
    && (kind == 'd' as int <==> m.MCopyData?)
  }

  /** Type byte, a length that includes itself but not the type byte, and as much of what follows. */
  function ReadFrame(bs: seq<byte>): Option<(byte, seq<byte>, seq<byte>)> {
    if |bs| < 5 then None
    else
      var length := ReadBigEndian(bs[1..5]);
      if length < 4 || |bs| < 1 + length then None else Some((bs[0], bs[5..1 + length], bs[1 + length..]))
  }

  /** A client reads this message first, and the rest is left. */
  ghost predicate Reads(bs: seq<byte>, m: BackendMsg, rest: seq<byte>) {
    match ReadFrame(bs)
    case None => false
    case Some((kind, payload, left)) => KindSays(kind, m) && Says(payload, m) && rest == left
  }

  lemma ReadNumberBack(n: nat, width: nat, rest: seq<byte>)
    requires n < Pow256(width)
    ensures ReadNumber(BigEndian(n, width) + rest, width) == Some((n, rest))
  {
    var bs := BigEndian(n, width) + rest;
    ReadBigEndianBack(n, width);
    assert bs[..width] == BigEndian(n, width) && bs[width..] == rest;
  }

  lemma {:induction false} ReadCStringBack(s: seq<byte>, rest: seq<byte>)
    requires NulFree(s)
    ensures ReadCString(CString(s) + rest) == Some((s, rest))
  {
    var bs := CString(s) + rest;
    if s == [] {
      assert bs[1..] == rest;
    } else {
      assert bs[0] == s[0] && bs[0] in s;
      assert bs[1..] == CString(s[1..]) + rest;
      ReadCStringBack(s[1..], rest);
      assert s == [s[0]] + s[1..];
    }
  }

  lemma {:induction false} FormatsReadBack(formats: seq<u16>)
    ensures ReadNumbers(Joined(formats, (n: u16) => U16(n)), 2, |formats|) == Some(formats)
  {
    if formats != [] {
      Limits();
      ReadNumberBack(formats[0], 2, Joined(formats[1..], (n: u16) => U16(n)));
      FormatsReadBack(formats[1..]);
      assert formats == [formats[0]] + formats[1..];
    }
  }

  lemma {:induction false} OidsReadBack(oids: seq<u32>)
    ensures ReadNumbers(Joined(oids, (n: u32) => U32(n)), 4, |oids|) == Some(oids)
  {
    if oids != [] {
      Limits();
      ReadNumberBack(oids[0], 4, Joined(oids[1..], (n: u32) => U32(n)));
      OidsReadBack(oids[1..]);
      assert oids == [oids[0]] + oids[1..];
    }
  }

  lemma ColumnTailParts(oid: u32, rest: seq<byte>)
    ensures var bs := ColumnTail(oid) + rest;
      && |bs| == 18 + |rest| && bs[18..] == rest
      && bs[..4] == U32(0) && bs[4..6] == U16(0) && bs[6..10] == U32(oid) && bs[10..12] == U16(0xFFFF)
      && bs[12..16] == U32(0xFFFF_FFFF) && bs[16..18] == U16(0)
  {
  }

  lemma ColumnReadsBack(c: (seq<byte>, u32), rest: seq<byte>)
    requires NulFree(c.0)
    ensures ReadColumn(Column(c) + rest) == Some((c, rest))
  {
    Limits();
    Appended(CString(c.0), ColumnTail(c.1), rest);
    ReadCStringBack(c.0, ColumnTail(c.1) + rest);
    ColumnTailParts(c.1, rest);
    ReadBigEndianBack(0, 4);
    ReadBigEndianBack(0, 2);
    ReadBigEndianBack(c.1, 4);
    ReadBigEndianBack(0xFFFF, 2);
    ReadBigEndianBack(0xFFFF_FFFF, 4);
  }

  lemma {:induction false} ColumnsReadBack(columns: seq<(seq<byte>, u32)>)
    requires forall c :: c in columns ==> NulFree(c.0)
    ensures ReadColumns(Joined(columns, Column), |columns|) == Some(columns)
  {
    if columns != [] {
      ColumnReadsBack(columns[0], Joined(columns[1..], Column));
      ColumnsReadBack(columns[1..]);
      assert columns == [columns[0]] + columns[1..];
    }
  }

  lemma TaggedReadsBack(kind: byte, s: seq<byte>, rest: seq<byte>, fields: map<byte, seq<byte>>)
    requires kind != 0 && NulFree(s) && ReadTagged(rest) == Some(fields)
    ensures ReadTagged([kind] + CString(s) + rest) == Some(fields[kind := s])
  {
    var bs := [kind] + CString(s) + rest;
    assert bs[1..] == CString(s) + rest;
    ReadCStringBack(s, rest);
    assert |bs| > 1;
  }

  lemma ErrorReadsBack(severity: seq<byte>, code: seq<byte>, message: seq<byte>)
    requires NulFree(severity) && NulFree(code) && NulFree(message)
    ensures ReadError(ErrorFields(severity, code, message)) == Some((severity, code, message))
  {
    var fourth := ['M' as int] + CString(message) + [0];
    var third := ['C' as int] + CString(code) + fourth;
    var second := ['V' as int] + CString(severity) + third;
    TaggedReadsBack('M' as int, message, [0], map[]);
    TaggedReadsBack('C' as int, code, fourth, ReadTagged(fourth).value);
    TaggedReadsBack('V' as int, severity, third, ReadTagged(third).value);
    TaggedReadsBack('S' as int, severity, second, ReadTagged(second).value);
  }

  lemma FormatsPayloadReadsBack(format: byte, formats: seq<u16>)
    requires |formats| < 0x1_0000
    ensures ReadFormats(FormatsPayload(format, formats)) == Some((format, formats))
  {
    Limits();
    var list := Joined(formats, (n: u16) => U16(n));
    var bs := FormatsPayload(format, formats);
    assert bs[0] == format && bs[1..] == U16(|formats|) + list;
    ReadNumberBack(|formats|, 2, list);
    FormatsReadBack(formats);
  }

  lemma OidsPayloadReadsBack(oids: seq<u32>)
    requires |oids| < 0x1_0000
    ensures ReadCounted(OidsPayload(oids), 4) == Some(oids)
  {
    Limits();
    ReadNumberBack(|oids|, 2, Joined(oids, (n: u32) => U32(n)));
    OidsReadBack(oids);
  }

  lemma ColumnsPayloadReadsBack(columns: seq<(seq<byte>, u32)>)
    requires |columns| < 0x1_0000 && forall c :: c in columns ==> NulFree(c.0)
    ensures Says(ColumnsPayload(columns), MRowDescription(columns))
  {
    Limits();
    ReadNumberBack(|columns|, 2, Joined(columns, Column));
    ColumnsReadBack(columns);
  }

  lemma ValuesPayloadReadsBack(values: seq<Option<seq<byte>>>)
    requires |values| < 0x1_0000 && FieldsFit(values)
    ensures ReadValues(ValuesPayload(values)) == Some(values)
  {
    Limits();
    ReadNumberBack(|values|, 2, Fields(values));
    ReadFieldsBack(values);
  }

  /** Every message's payload says to a client what the message says. */
  lemma PayloadSays(m: BackendMsg)
    requires Fits(m)
    ensures Says(Payload(m), m) && KindSays(TypeByte(m), m)
  {
    match m
    case MCommandComplete(tag) =>
      ReadCStringBack(tag, []);
      assert CString(tag) + [] == CString(tag);
    case MErrorResponse(severity, code, message) => ErrorReadsBack(severity, code, message);
    case MNoticeResponse(severity, code, message) => ErrorReadsBack(severity, code, message);
    case MDataRow(values) => ValuesPayloadReadsBack(values);
    case MRowDescription(columns) => ColumnsPayloadReadsBack(columns);
    case MParameterDescription(oids) => OidsPayloadReadsBack(oids);
    case MCopyInResponse(format, formats) => FormatsPayloadReadsBack(format, formats);
    case MCopyOutResponse(format, formats) => FormatsPayloadReadsBack(format, formats);
    case _ =>
  }

  lemma FrameReadsBack(kind: byte, payload: seq<byte>, rest: seq<byte>)
    requires 4 + |payload| < 0x1_0000_0000
    ensures ReadFrame(Frame(kind, payload) + rest) == Some((kind, payload, rest))
  {
    Limits();
    var bs := Frame(kind, payload) + rest;
    ReadBigEndianBack(4 + |payload|, 4);
    assert bs[1..5] == U32(4 + |payload|);
    assert bs[5..5 + |payload|] == payload && bs[5 + |payload|..] == rest;
  }

  /** A client reads back the message that was built, in front of whatever follows. */
  lemma MessageReadsBack(m: BackendMsg, rest: seq<byte>)
    requires Fits(m)
    ensures Reads(Encode(m) + rest, m, rest)
  {
    PayloadSays(m);
    FrameReadsBack(TypeByte(m), Payload(m), rest);
  }

  /** A client cannot read two different messages off the same bytes. */
  lemma ReadingIsUnique(bs: seq<byte>, m: BackendMsg, x: seq<byte>, n: BackendMsg, y: seq<byte>)
    requires Reads(bs, m, x) && Reads(bs, n, y)
    ensures m == n && x == y
  {
  }

  /** The first message of a byte stream, and what follows it, are determined. */
  lemma FirstMessageIsUnique(m: BackendMsg, x: seq<byte>, n: BackendMsg, y: seq<byte>)
    requires Fits(m) && Fits(n) && Encode(m) + x == Encode(n) + y
    ensures m == n && x == y
  {
    MessageReadsBack(m, x);
    MessageReadsBack(n, y);
    ReadingIsUnique(Encode(m) + x, m, x, n, y);
  }

  /** A scripted byte stream determines the messages it was built from. */
  lemma {:induction false} UniquelyDecodable(ms: seq<BackendMsg>, ns: seq<BackendMsg>)
    requires (forall m :: m in ms ==> Fits(m)) && (forall n :: n in ns ==> Fits(n))
    requires Concat(ms) == Concat(ns)
    ensures ms == ns
  {
    if ms != [] && ns != [] {
      FirstMessageIsUnique(ms[0], Concat(ms[1..]), ns[0], Concat(ns[1..]));
      UniquelyDecodable(ms[1..], ns[1..]);
      assert ms == [ms[0]] + ms[1..] && ns == [ns[0]] + ns[1..];
    }
  }

  /** A client reads a stream message by message. */
  ghost predicate ReadsAll(bs: seq<byte>, ms: seq<BackendMsg>) {
    if ms == [] then bs == [] else exists rest :: Reads(bs, ms[0], rest) && ReadsAll(rest, ms[1..])
  }

  lemma {:induction false} StreamReadsBack(ms: seq<BackendMsg>)
    requires forall m :: m in ms ==> Fits(m)
    ensures ReadsAll(Concat(ms), ms)
  {
    if ms != [] {
      MessageReadsBack(ms[0], Concat(ms[1..]));
      StreamReadsBack(ms[1..]);
    }
  }
}

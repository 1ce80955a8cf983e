/** Normalizing two response streams and finding where they part (src/comparator.rs). */
module Comparator {
  import opened Wrappers
  import opened Protocol
  import opened Ops
  import opened Runner

  datatype ColumnDesc = ColumnDesc(name: string, typeOid: u32, format: u16)

  datatype NormalizedMsg =
    | NReadyForQuery(status: string)
    | NErrorResponse(code: string, message: string)
    | NNoticeResponse(code: string, message: string)
    | NRowDescription(columns: seq<ColumnDesc>)
    | NDataRow(values: seq<Option<seq<byte>>>)
    | NCommandComplete(tag: string)
    | NParameterDescription(oids: seq<u32>)
    | NCopyInResponse(format: u16, columnFormats: seq<u16>)
    | NCopyOutResponse(format: u16, columnFormats: seq<u16>)
    | NCopyData(data: seq<byte>)
    | NParseComplete
    | NBindComplete
    | NCloseComplete
    | NNoData
    | NEmptyQueryResponse
    | NPortalSuspended
    | NCopyDone
    | NTimeout
    | NDisconnected(error: string)

  datatype Divergence = Divergence(
    index: nat,
    expected: Option<NormalizedMsg>,
    actual: Option<NormalizedMsg>,
    ops: seq<FrontendOp>)

  // ---------------------------------------------------------------------------
  // Normalization
  // ---------------------------------------------------------------------------

  function DescribeColumn(c: RawColumn): ColumnDesc {
    ColumnDesc(c.name.GetOr(""), c.typeOid.GetOr(0), c.format.GetOr(0))
  }

  function DescribeColumns(cs: seq<RawColumn>): seq<ColumnDesc> {
    seq(|cs|, i requires 0 <= i < |cs| => DescribeColumn(cs[i]))
  }

  /** Absent entries read as zero. */
  function OrZero<T>(entries: seq<Option<T>>, zero: T): seq<T> {
    seq(|entries|, i requires 0 <= i < |entries| => entries[i].GetOr(zero))
  }

  /** The comparable form of a message; `None` for the messages servers may differ in. */
  function Normalized(msg: PgMessage): Option<NormalizedMsg> {
    match msg
    case ReadyForQuery(status) => Some(NReadyForQuery(status))
    case ErrorResponse(_, code, message) => Some(NErrorResponse(code, message))
    case NoticeResponse(_, code, message) => Some(NNoticeResponse(code, message))
    case RowDescription(fields) => Some(NRowDescription(DescribeColumns(fields)))
    case DataRow(columns) => Some(NDataRow(columns))
    case CommandComplete(tag) => Some(NCommandComplete(tag))
    case ParameterDescription(oids) => Some(NParameterDescription(OrZero(oids, 0)))
    case CopyInResponse(format, formats) => Some(NCopyInResponse(format, OrZero(formats, 0)))
    case CopyOutResponse(format, formats) => Some(NCopyOutResponse(format, OrZero(formats, 0)))
    case CopyData(data) => Some(NCopyData(data))
    case CopyDone => Some(NCopyDone)
    case ParseComplete => Some(NParseComplete)
    case BindComplete => Some(NBindComplete)
    case CloseComplete => Some(NCloseComplete)
    case NoData => Some(NNoData)
    case EmptyQueryResponse => Some(NEmptyQueryResponse)
    case PortalSuspended => Some(NPortalSuspended)
    case BackendKeyData(_, _) => None
    case ParameterStatus(_, _) => None
    case OtherMessage(_) => None
  }

  method CollectOrZero<T>(entries: seq<Option<T>>, zero: T) returns (r: seq<T>)
    ensures r == OrZero(entries, zero)
  {
    r := [];
    for i := 0 to |entries|
      invariant r == OrZero(entries[..i], zero)
    {
      r := r + [entries[i].GetOr(zero)];
    }
    assert entries[..|entries|] == entries;
  }

  method Normalize(msg: PgMessage) returns (r: Option<NormalizedMsg>)
    ensures r == Normalized(msg)
  {
    match msg {
      case RowDescription(fields) =>
        var columns := [];
        for i := 0 to |fields|
          invariant columns == DescribeColumns(fields[..i])
        {
          columns := columns + [DescribeColumn(fields[i])];
        }
        assert fields[..|fields|] == fields;
        r := Some(NRowDescription(columns));
      case DataRow(raw) =>
        var columns := [];
        for i := 0 to |raw|
          invariant columns == raw[..i]
        {
          columns := columns + [raw[i]];
        }
        assert raw[..|raw|] == raw;
        r := Some(NDataRow(columns));
      case ParameterDescription(raw) =>
        var oids := CollectOrZero(raw, 0);
        r := Some(NParameterDescription(oids));
      case CopyInResponse(format, raw) =>
        var formats := CollectOrZero(raw, 0);
        r := Some(NCopyInResponse(format, formats));
      case CopyOutResponse(format, raw) =>
        var formats := CollectOrZero(raw, 0);
        r := Some(NCopyOutResponse(format, formats));
      case _ =>
        r := Normalized(msg);
    }
  }

  function NormalizedEvent(event: ResponseEvent): Option<NormalizedMsg> {
    match event
    case Message(msg) => Normalized(msg)
    case Timeout => Some(NTimeout)
    case Disconnected(error) => Some(NDisconnected(error))
  }

  function NormalizedStream(events: seq<ResponseEvent>): seq<NormalizedMsg> {
    if events == [] then []
    else
      NormalizedStream(events[..|events| - 1]) +
      match NormalizedEvent(events[|events| - 1])
      case None => []
      case Some(m) => [m]
  }

  method NormalizeStream(events: seq<ResponseEvent>) returns (r: seq<NormalizedMsg>)
    ensures r == NormalizedStream(events)
  {
    r := [];
    for i := 0 to |events|
      invariant r == NormalizedStream(events[..i])
    {
      assert events[..i + 1][..i] == events[..i];
      var m: Option<NormalizedMsg>;
      match events[i] {
        case Message(msg) => m := Normalize(msg);
        case Timeout => m := Some(NTimeout);
        case Disconnected(error) => m := Some(NDisconnected(error));
      }
      if m.Some? {
        r := r + [m.value];
      }
    }
    assert events[..|events|] == events;
  }

  lemma {:induction false} NormalizedStreamAppend(a: seq<ResponseEvent>, b: seq<ResponseEvent>)
    ensures NormalizedStream(a + b) == NormalizedStream(a) + NormalizedStream(b)
  {
    if b == [] {
      assert a + b == a;
    } else {
      assert (a + b)[..|a + b| - 1] == a + b[..|b| - 1];
      NormalizedStreamAppend(a, b[..|b| - 1]);
    }
  }

  // ---------------------------------------------------------------------------
  // Comparison
  // ---------------------------------------------------------------------------

  function Get<T>(s: seq<T>, i: nat): Option<T> {
    if i < |s| then Some(s[i]) else None
  }

  /** The length of the longest common prefix. */
  function CommonPrefix<T(==)>(a: seq<T>, b: seq<T>): (k: nat)
    ensures k <= |a| && k <= |b| && a[..k] == b[..k]
    ensures k < |a| && k < |b| ==> a[k] != b[k]
  {
    if a == [] || b == [] || a[0] != b[0] then 0
    else
      var k := CommonPrefix(a[1..], b[1..]);
      assert a[..k + 1] == [a[0]] + a[1..][..k] && b[..k + 1] == [b[0]] + b[1..][..k];
      k + 1
  }

  lemma CommonPrefixIs<T>(a: seq<T>, b: seq<T>, k: nat)
    requires k <= |a| && k <= |b| && a[..k] == b[..k]
    requires k < |a| && k < |b| ==> a[k] != b[k]
    ensures CommonPrefix(a, b) == k
  {
    var c := CommonPrefix(a, b);
    assert forall i :: 0 <= i < k ==> a[i] == a[..k][i] == b[..k][i] == b[i];
    assert forall i :: 0 <= i < c ==> a[i] == a[..c][i] == b[..c][i] == b[i];
  }

  lemma MismatchAtCommonPrefix<T>(a: seq<T>, b: seq<T>)
    ensures Get(a, CommonPrefix(a, b)) == Get(b, CommonPrefix(a, b)) ==> a == b
  {
    assert a[..|a|] == a && b[..|b|] == b;
  }

  /** The first position where two normalized streams disagree, and what each has there. */
  function Compared(pg: seq<NormalizedMsg>, target: seq<NormalizedMsg>, ops: seq<FrontendOp>): Option<Divergence> {
    if pg == target then None
    else
      var i := CommonPrefix(pg, target);
      Some(Divergence(i, Get(pg, i), Get(target, i), ops))
  }

  method Compare(pgEvents: seq<ResponseEvent>, targetEvents: seq<ResponseEvent>, ops: seq<FrontendOp>)
    returns (r: Option<Divergence>)
    ensures r == Compared(NormalizedStream(pgEvents), NormalizedStream(targetEvents), ops)
  {
    var pg := NormalizeStream(pgEvents);
    var target := NormalizeStream(targetEvents);
    var maxLen := if |pg| >= |target| then |pg| else |target|;
    for i := 0 to maxLen
      invariant i <= |pg| && i <= |target| && pg[..i] == target[..i]
    {
      match (Get(pg, i), Get(target, i)) {
        case (Some(p), Some(t)) =>
          if p != t {
            CommonPrefixIs(pg, target, i);
            return Some(Divergence(i, Some(p), Some(t), ops));
          }
        case (Some(p), None) =>
          CommonPrefixIs(pg, target, i);
          return Some(Divergence(i, Some(p), None, ops));
        case (None, Some(t)) =>
          CommonPrefixIs(pg, target, i);
          return Some(Divergence(i, None, Some(t), ops));
        case (None, None) =>
          assert false;
      }
    }
    assert pg[..maxLen] == pg && target[..maxLen] == target;
    r := None;
  }

  /** Comparing finds nothing exactly when the filtered streams agree; what it finds is the first mismatch. */
  lemma CompareIsExact(a: seq<ResponseEvent>, b: seq<ResponseEvent>, ops: seq<FrontendOp>)
    ensures var pg, target := NormalizedStream(a), NormalizedStream(b);
      var r := Compared(pg, target, ops);
      && (r.None? <==> pg == target)
      && (r.Some? ==>
            var d := r.value;
            && d.ops == ops
            && d.index <= |pg| && d.index <= |target| && pg[..d.index] == target[..d.index]
            && d.expected == Get(pg, d.index) && d.actual == Get(target, d.index)
            && d.expected != d.actual)
  {
    var pg, target := NormalizedStream(a), NormalizedStream(b);
    MismatchAtCommonPrefix(pg, target);
  }

  function Mirrored(d: Divergence): Divergence {
    Divergence(d.index, d.actual, d.expected, d.ops)
  }

  /** Exchanging the servers exchanges what was expected with what came, and nothing else. */
  lemma CompareIsSymmetric(pg: seq<NormalizedMsg>, target: seq<NormalizedMsg>, ops: seq<FrontendOp>)
    ensures Compared(target, pg, ops) ==
      match Compared(pg, target, ops) case None => None case Some(d) => Some(Mirrored(d))
  {
    CommonPrefixIs(target, pg, CommonPrefix(pg, target));
  }

  /** A skipped message anywhere in either stream makes no difference. */
  lemma SkippedMessagesDoNotMatter(
    before: seq<ResponseEvent>, skipped: seq<ResponseEvent>, after: seq<ResponseEvent>,
    other: seq<ResponseEvent>, ops: seq<FrontendOp>)
    requires forall e :: e in skipped ==> NormalizedEvent(e) == None
    ensures NormalizedStream(before + skipped + after) == NormalizedStream(before + after)
    ensures Compared(NormalizedStream(before + skipped + after), NormalizedStream(other), ops)
         == Compared(NormalizedStream(before + after), NormalizedStream(other), ops)
    ensures Compared(NormalizedStream(other), NormalizedStream(before + skipped + after), ops)
         == Compared(NormalizedStream(other), NormalizedStream(before + after), ops)
  {
    NormalizedStreamAppend(before + skipped, after);
    NormalizedStreamAppend(before, skipped);
    NormalizedStreamAppend(before, after);
    OnlySkipped(skipped);
  }

  lemma {:induction false} OnlySkipped(skipped: seq<ResponseEvent>)
    requires forall e :: e in skipped ==> NormalizedEvent(e) == None
    ensures NormalizedStream(skipped) == []
  {
    if skipped != [] {
      OnlySkipped(skipped[..|skipped| - 1]);
    }
  }

  // ---------------------------------------------------------------------------
  // What the comparison can tell apart
  // ---------------------------------------------------------------------------

  /** Messages in which servers may differ. */
  predicate Skipped(e: ResponseEvent) {
    e.Message? && (e.msg.BackendKeyData? || e.msg.ParameterStatus? || e.msg.OtherMessage?)
  }

  /** Equal entries, where an absent one passes for the default. */
  predicate SameEntry<T(==)>(x: Option<T>, y: Option<T>, default: T) {
    x == y || (x == None && y == Some(default)) || (x == Some(default) && y == None)
  }

  predicate SameEntries<T(==)>(xs: seq<Option<T>>, ys: seq<Option<T>>, default: T) {
    |xs| == |ys| && forall i :: 0 <= i < |xs| ==> SameEntry(xs[i], ys[i], default)
  }

  predicate SameColumn(c: RawColumn, d: RawColumn) {
    SameEntry(c.name, d.name, "") && SameEntry(c.typeOid, d.typeOid, 0) && SameEntry(c.format, d.format, 0)
  }

  /** Messages that differ at most in a severity or in entries that are absent or default. */
  predicate Alike(m: PgMessage, n: PgMessage) {
    match m
    case ErrorResponse(_, code, message) => n.ErrorResponse? && n.code == code && n.message == message
    case NoticeResponse(_, code, message) => n.NoticeResponse? && n.code == code && n.message == message
    case RowDescription(fields) =>
      && n.RowDescription? && |n.fields| == |fields|
      && forall i :: 0 <= i < |fields| ==> SameColumn(fields[i], n.fields[i])
    case ParameterDescription(oids) => n.ParameterDescription? && SameEntries(oids, n.oids, 0)
    case CopyInResponse(format, formats) =>
      n.CopyInResponse? && n.format == format && SameEntries(formats, n.columnFormats, 0)
    case CopyOutResponse(format, formats) =>
      n.CopyOutResponse? && n.format == format && SameEntries(formats, n.columnFormats, 0)
    case _ => m == n
  }

  predicate AlikeEvents(e: ResponseEvent, f: ResponseEvent) {
    e == f || (e.Message? && f.Message? && Alike(e.msg, f.msg))
  }

  lemma SameEntriesIff<T>(xs: seq<Option<T>>, ys: seq<Option<T>>, default: T)
    ensures OrZero(xs, default) == OrZero(ys, default) <==> SameEntries(xs, ys, default)
  {
    var a, b := OrZero(xs, default), OrZero(ys, default);
    if a == b {
      assert |a| == |xs| && |b| == |ys|;
      forall i | 0 <= i < |xs| ensures SameEntry(xs[i], ys[i], default) {
        assert a[i] == b[i];
      }
    }
  }

  lemma SameColumnsIff(cs: seq<RawColumn>, ds: seq<RawColumn>)
    ensures DescribeColumns(cs) == DescribeColumns(ds)
       <==> |cs| == |ds| && forall i :: 0 <= i < |cs| ==> SameColumn(cs[i], ds[i])
  {
    var a, b := DescribeColumns(cs), DescribeColumns(ds);
    if a == b {
      assert |a| == |cs| && |b| == |ds|;
      forall i | 0 <= i < |cs| ensures SameColumn(cs[i], ds[i]) {
        assert a[i] == b[i];
      }
    }
  }

  /** Normalizing drops exactly the skipped events and identifies exactly the alike ones. */
  lemma NormalizationIsExact(e: ResponseEvent, f: ResponseEvent)
    ensures NormalizedEvent(e) == None <==> Skipped(e)
    ensures !Skipped(e) && !Skipped(f) ==> (NormalizedEvent(e) == NormalizedEvent(f) <==> AlikeEvents(e, f))
  {
    if e.Message? && f.Message? {
      match (e.msg, f.msg)
      case (RowDescription(cs), RowDescription(ds)) => SameColumnsIff(cs, ds);
      case (ParameterDescription(xs), ParameterDescription(ys)) => SameEntriesIff(xs, ys, 0);
      case (CopyInResponse(_, xs), CopyInResponse(_, ys)) => SameEntriesIff(xs, ys, 0);
      case (CopyOutResponse(_, xs), CopyOutResponse(_, ys)) => SameEntriesIff(xs, ys, 0);
      case _ =>
    }
  }

  /** The events that take part in the comparison. */
  function Visible(events: seq<ResponseEvent>): seq<ResponseEvent> {
    if events == [] then []
    else Visible(events[..|events| - 1]) + if Skipped(events[|events| - 1]) then [] else [events[|events| - 1]]
  }

  lemma {:induction false} NormalizedPointwise(events: seq<ResponseEvent>)
    ensures var v, n := Visible(events), NormalizedStream(events);
      |v| == |n| && forall i :: 0 <= i < |v| ==> !Skipped(v[i]) && NormalizedEvent(v[i]) == Some(n[i])
  {
    if events != [] {
      NormalizedPointwise(events[..|events| - 1]);
      NormalizationIsExact(events[|events| - 1], events[|events| - 1]);
    }
  }

  /** Two streams compare equal exactly if their visible events are alike one by one. */
  lemma NoDivergenceIff(a: seq<ResponseEvent>, b: seq<ResponseEvent>, ops: seq<FrontendOp>)
    ensures var v, w := Visible(a), Visible(b);
      Compared(NormalizedStream(a), NormalizedStream(b), ops) == None
      <==> |v| == |w| && forall i :: 0 <= i < |v| ==> AlikeEvents(v[i], w[i])
  {
    var v, w := Visible(a), Visible(b);
    NormalizedPointwise(a);
    NormalizedPointwise(b);
    forall i | 0 <= i < |v| && i < |w|
      ensures AlikeEvents(v[i], w[i]) <==> NormalizedStream(a)[i] == NormalizedStream(b)[i]
    {
      NormalizationIsExact(v[i], w[i]);
    }
  }

  // ---------------------------------------------------------------------------
  // What the comparison shows
  // ---------------------------------------------------------------------------

  predicate ShowsEntry<T(==)>(x: T, entry: Option<T>, default: T) {
    match entry case None => x == default case Some(v) => x == v
  }

  predicate ShowsEntries<T(==)>(xs: seq<T>, entries: seq<Option<T>>, default: T) {
    |xs| == |entries| && forall i :: 0 <= i < |xs| ==> ShowsEntry(xs[i], entries[i], default)
  }

  predicate ShowsColumn(d: ColumnDesc, c: RawColumn) {
    ShowsEntry(d.name, c.name, "") && ShowsEntry(d.typeOid, c.typeOid, 0) && ShowsEntry(d.format, c.format, 0)
  }

  /** The normalized message is of the kind of the message and says what it says. */
  predicate Shows(n: NormalizedMsg, m: PgMessage) {
    match m
    case ReadyForQuery(status) => n.NReadyForQuery? && n.status == status
    case ErrorResponse(_, code, message) => n.NErrorResponse? && n.code == code && n.message == message
    case NoticeResponse(_, code, message) => n.NNoticeResponse? && n.code == code && n.message == message
    case RowDescription(fields) =>
      n.NRowDescription? && |n.columns| == |fields|
      && forall i :: 0 <= i < |fields| ==> ShowsColumn(n.columns[i], fields[i])
    case DataRow(columns) => n.NDataRow? && n.values == columns
    case CommandComplete(tag) => n.NCommandComplete? && n.tag == tag
    case ParameterDescription(oids) => n.NParameterDescription? && ShowsEntries(n.oids, oids, 0)
    case CopyInResponse(format, formats) =>
      n.NCopyInResponse? && n.format == format && ShowsEntries(n.columnFormats, formats, 0)
    case CopyOutResponse(format, formats) =>
      n.NCopyOutResponse? && n.format == format && ShowsEntries(n.columnFormats, formats, 0)
    case CopyData(data) => n.NCopyData? && n.data == data
    case ParseComplete => n.NParseComplete?
    case BindComplete => n.NBindComplete?
    case CloseComplete => n.NCloseComplete?
    case NoData => n.NNoData?
    case EmptyQueryResponse => n.NEmptyQueryResponse?
    case PortalSuspended => n.NPortalSuspended?
    case CopyDone => n.NCopyDone?
    case _ => false
  }

  predicate ShowsEvent(n: NormalizedMsg, e: ResponseEvent) {
    match e
    case Message(m) => Shows(n, m)
    case Timeout => n.NTimeout?
    case Disconnected(error) => n.NDisconnected? && n.error == error
  }

  /** Every event that takes part is shown as what it is. */
  lemma NormalizedShows(e: ResponseEvent)
    ensures match NormalizedEvent(e)
      case None => Skipped(e)
      case Some(n) => !Skipped(e) && ShowsEvent(n, e)
  {
  }

  /** What a stream has at a position: its end, or something that shows its event there. */
  predicate ShowsAt(m: Option<NormalizedMsg>, events: seq<ResponseEvent>, k: nat) {
    match m
    case None => k == |events|
    case Some(n) => k < |events| && ShowsEvent(n, events[k])
  }

  /** A normalized stream shows its visible events one by one. */
  lemma StreamShows(events: seq<ResponseEvent>, k: nat)
    requires k <= |Visible(events)|
    ensures |NormalizedStream(events)| == |Visible(events)|
    ensures ShowsAt(Get(NormalizedStream(events), k), Visible(events), k)
  {
    NormalizedPointwise(events);
    if k < |Visible(events)| {
      NormalizedShows(Visible(events)[k]);
    }
  }

  lemma AlikeIffEqual(a: seq<ResponseEvent>, b: seq<ResponseEvent>, i: nat)
    requires i < |Visible(a)| && i < |Visible(b)|
    ensures i < |NormalizedStream(a)| && i < |NormalizedStream(b)|
    ensures AlikeEvents(Visible(a)[i], Visible(b)[i]) <==> NormalizedStream(a)[i] == NormalizedStream(b)[i]
  {
    NormalizedPointwise(a);
    NormalizedPointwise(b);
    NormalizationIsExact(Visible(a)[i], Visible(b)[i]);
  }

  lemma AlikeBefore(a: seq<ResponseEvent>, b: seq<ResponseEvent>, k: nat)
    requires k <= |NormalizedStream(a)| && k <= |NormalizedStream(b)|
    requires NormalizedStream(a)[..k] == NormalizedStream(b)[..k]
    ensures k <= |Visible(a)| && k <= |Visible(b)|
    ensures forall i :: 0 <= i < k ==> AlikeEvents(Visible(a)[i], Visible(b)[i])
  {
    NormalizedPointwise(a);
    NormalizedPointwise(b);
    forall i | 0 <= i < k ensures AlikeEvents(Visible(a)[i], Visible(b)[i]) {
      AlikeIffEqual(a, b, i);
      assert NormalizedStream(a)[..k][i] == NormalizedStream(b)[..k][i];
    }
  }

  /**
   A divergence points at the first position where the visible events of the two streams
   are not alike, and shows the one stream's event there as expected, the other's as actual.
   */
  lemma DivergenceShowsEvents(a: seq<ResponseEvent>, b: seq<ResponseEvent>, ops: seq<FrontendOp>)
    requires Compared(NormalizedStream(a), NormalizedStream(b), ops).Some?
    ensures var d := Compared(NormalizedStream(a), NormalizedStream(b), ops).value;
      var v, w := Visible(a), Visible(b);
      && d.index <= |v| && d.index <= |w|
      && (forall i :: 0 <= i < d.index ==> AlikeEvents(v[i], w[i]))
      && ShowsAt(d.expected, v, d.index) && ShowsAt(d.actual, w, d.index)
      && (d.index < |v| && d.index < |w| ==> !AlikeEvents(v[d.index], w[d.index]))
  {
    CompareIsExact(a, b, ops);
    var k := Compared(NormalizedStream(a), NormalizedStream(b), ops).value.index;
    AlikeBefore(a, b, k);
    StreamShows(a, k);
    StreamShows(b, k);
    if k < |Visible(a)| && k < |Visible(b)| {
      AlikeIffEqual(a, b, k);
    }
  }
}

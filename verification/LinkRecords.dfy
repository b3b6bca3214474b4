/** The record of a link: its events since the last call and its state. */
module LinkRecords {
  import opened Wrappers
  import opened Pieces
  import opened Records
  import L = LinkStates

  type Utf8 = seq<byte>

  datatype LinkEvent =
    | SendText(text: Utf8)
    | SendBinary(bytes: seq<byte>)
    | Closed(reason: Utf8)
    | Report(id: Option<nat>, outcome: L.Outcome, received: nat, metadata: bool, draining: bool, closeReason: Option<Utf8>)
    | Resolved(id: Option<nat>, payload: Option<seq<byte>>)
    | HaveChanged(keys: seq<Utf8>)
    | ScheduleChanged
    | ServeRequest(key: Utf8)
    | ServeRange(key: Utf8, range: PieceRange)
    | UploadCancelled(count: nat)
    | Progress(received: nat, size: nat)

  datatype LinkUpdate = LinkUpdate(
    events: seq<LinkEvent>, requestId: Option<nat>, version: nat, closed: bool, busy: bool, transferring: bool,
    outboundInFlight: nat, bytesIn: nat, bytesOut: nat, openedAt: nat, lastServedAt: nat, lastDeliveredAt: nat,
    nextDeadline: Option<nat>, uploadWaiting: bool)

  // ---- outcomes ----

  const OUTCOMES: seq<L.Outcome> := [L.Payload, L.NoPayload, L.Timeout, L.Abort, L.Abandoned, L.Closed, L.Busy, L.SendFailed]

  function OutcomeTag(o: L.Outcome): (tag: nat)
    ensures tag < 8 && OUTCOMES[tag] == o
  {
    match o
    case Payload => 0
    case NoPayload => 1
    case Timeout => 2
    case Abort => 3
    case Abandoned => 4
    case Closed => 5
    case Busy => 6
    case SendFailed => 7
  }

  function ReadOutcome(s: seq<byte>): Parsed<L.Outcome> {
    var tag := ReadNumber(s, 1);
    if tag.None? || tag.value.0 >= 8 then None else Some((OUTCOMES[tag.value.0], tag.value.1))
  }

  lemma OutcomeRound(o: L.Outcome, rest: seq<byte>)
    ensures ReadOutcome(Little(OutcomeTag(o), 1) + rest) == Some((o, rest))
  {
    Powers();
    NumberRound(OutcomeTag(o), 1, rest);
  }

  // ---- the report of a request ----

  function WriteReport(e: LinkEvent): seq<byte>
    requires e.Report?
  {
    WriteOptional(e.id, WriteU64) +
    (Little(OutcomeTag(e.outcome), 1) +
     (WriteU64(e.received) + (WriteBool(e.metadata) + (WriteBool(e.draining) + WriteOptional(e.closeReason, WriteBytes)))))
  }

  function ReadReport(s: seq<byte>): Parsed<LinkEvent> {
    var id := ReadOptional(s, ReadU64);
    if id.None? then None
    else
      var outcome := ReadOutcome(id.value.1);
      if outcome.None? then None
      else
        var received := ReadU64(outcome.value.1);
        if received.None? then None
        else
          var metadata := ReadBool(received.value.1);
          if metadata.None? then None
          else
            var draining := ReadBool(metadata.value.1);
            if draining.None? then None
            else
              Map(ReadOptional(draining.value.1, ReadBytes),
                  r => Report(id.value.0, outcome.value.0, received.value.0, metadata.value.0, draining.value.0, r))
  }

  lemma ReportRound(e: LinkEvent, rest: seq<byte>)
    requires e.Report? && FitsEvent(e) && |WriteReport(e)| < TWO_31
    ensures ReadReport(WriteReport(e) + rest) == Some((e, rest))
  {
    hide ReadBool, WriteBool, ReadU64, WriteU64, ReadOptional, Little, ReadOutcome, ReadBytes;
    var f := WriteOptional(e.closeReason, WriteBytes);
    var d := WriteBool(e.draining) + f;
    var c := WriteBool(e.metadata) + d;
    var b := WriteU64(e.received) + c;
    var a := Little(OutcomeTag(e.outcome), 1) + b;
    if e.id.Some? {
      U64Round(e.id.value, a + rest);
    }
    OptionalRound(e.id, WriteU64, ReadU64, a + rest);
    OutcomeRound(e.outcome, b + rest);
    U64Round(e.received, c + rest);
    BoolRound(e.metadata, d + rest);
    BoolRound(e.draining, f + rest);
    if e.closeReason.Some? {
      BytesRound(e.closeReason.value, rest);
    }
    OptionalRound(e.closeReason, WriteBytes, ReadBytes, rest);
    assert WriteReport(e) + rest == WriteOptional(e.id, WriteU64) + (a + rest);
    assert a + rest == Little(OutcomeTag(e.outcome), 1) + (b + rest) && b + rest == WriteU64(e.received) + (c + rest);
    assert c + rest == WriteBool(e.metadata) + (d + rest) && d + rest == WriteBool(e.draining) + (f + rest);
  }

  // ---- events ----

  function WriteEvent(e: LinkEvent): seq<byte> {
    match e
    case SendText(text) => Little(0, 1) + WriteBytes(text)
    case SendBinary(bytes) => Little(1, 1) + WriteBytes(bytes)
    case Closed(reason) => Little(2, 1) + WriteBytes(reason)
    case Report(_, _, _, _, _, _) => Little(3, 1) + WriteReport(e)
    case Resolved(id, payload) => Little(4, 1) + (WriteOptional(id, WriteU64) + WriteOptional(payload, WriteBytes))
    case HaveChanged(keys) => Little(5, 1) + WriteList(keys, WriteBytes)
    case ScheduleChanged => Little(6, 1)
    case ServeRequest(key) => Little(7, 1) + WriteBytes(key)
    case ServeRange(key, range) => Little(8, 1) + (WriteBytes(key) + WriteSpan(range))
    case UploadCancelled(count) => Little(9, 1) + WriteU64(count)
    case Progress(received, size) => Little(10, 1) + (WriteU64(received) + WriteU64(size))
  }

  function ReadResolved(s: seq<byte>): Parsed<LinkEvent> {
    var id := ReadOptional(s, ReadU64);
    if id.None? then None else Map(ReadOptional(id.value.1, ReadBytes), b => Resolved(id.value.0, b))
  }

  function ReadServeRange(s: seq<byte>): Parsed<LinkEvent> {
    var key := ReadBytes(s);
    if key.None? then None else Map(ReadSpan(key.value.1), r => ServeRange(key.value.0, r))
  }

  function ReadProgress(s: seq<byte>): Parsed<LinkEvent> {
    var received := ReadU64(s);
    if received.None? then None else Map(ReadU64(received.value.1), n => Progress(received.value.0, n))
  }

  function ReadEvent(s: seq<byte>): Parsed<LinkEvent> {
    var tag := ReadNumber(s, 1);
    if tag.None? then None
    else
      var rest := tag.value.1;
      match tag.value.0
      case 0 => Map(ReadBytes(rest), b => SendText(b))
      case 1 => Map(ReadBytes(rest), b => SendBinary(b))
      case 2 => Map(ReadBytes(rest), b => Closed(b))
      case 3 => ReadReport(rest)
      case 4 => ReadResolved(rest)
      case 5 => Map(ReadList(rest, ReadBytes), keys => HaveChanged(keys))
      case 6 => Some((ScheduleChanged, rest))
      case 7 => Map(ReadBytes(rest), b => ServeRequest(b))
      case 8 => ReadServeRange(rest)
      case 9 => Map(ReadU64(rest), n => UploadCancelled(n))
      case 10 => ReadProgress(rest)
      case _ => None
  }

  /** The numbers are of the native side's widths. */
  predicate FitsEvent(e: LinkEvent) {
    match e
    case Report(id, _, received, _, _, _) => FitsDeadline(id) && received < TWO_64
    case Resolved(id, _) => FitsDeadline(id)
    case ServeRange(_, range) => FitsSpan(range)
    case UploadCancelled(count) => count < TWO_64
    case Progress(received, size) => received < TWO_64 && size < TWO_64
    case _ => true
  }

  lemma ResolvedRound(id: Option<nat>, payload: Option<seq<byte>>, rest: seq<byte>)
    requires FitsDeadline(id) && (payload.Some? ==> |payload.value| < TWO_31)
    ensures ReadResolved(WriteOptional(id, WriteU64) + WriteOptional(payload, WriteBytes) + rest) == Some((Resolved(id, payload), rest))
  {
    hide ReadU64, WriteU64, WriteOptional, ReadOptional, ReadBytes, WriteBytes;
    var b := WriteOptional(payload, WriteBytes);
    if id.Some? {
      U64Round(id.value, b + rest);
    }
    OptionalRound(id, WriteU64, ReadU64, b + rest);
    if payload.Some? {
      BytesRound(payload.value, rest);
    }
    OptionalRound(payload, WriteBytes, ReadBytes, rest);
    assert WriteOptional(id, WriteU64) + b + rest == WriteOptional(id, WriteU64) + (b + rest);
  }

  lemma ServeRangeRound(key: Utf8, range: PieceRange, rest: seq<byte>)
    requires |key| < TWO_31 && FitsSpan(range)
    ensures ReadServeRange(WriteBytes(key) + WriteSpan(range) + rest) == Some((ServeRange(key, range), rest))
  {
    hide ReadBytes, WriteBytes, ReadSpan, WriteSpan;
    BytesRound(key, WriteSpan(range) + rest);
    SpanRound(range, rest);
    assert WriteBytes(key) + WriteSpan(range) + rest == WriteBytes(key) + (WriteSpan(range) + rest);
  }

  lemma ProgressRound(received: nat, size: nat, rest: seq<byte>)
    requires received < TWO_64 && size < TWO_64
    ensures ReadProgress(WriteU64(received) + WriteU64(size) + rest) == Some((Progress(received, size), rest))
  {
    hide ReadU64, WriteU64;
    U64Round(received, WriteU64(size) + rest);
    U64Round(size, rest);
    assert WriteU64(received) + WriteU64(size) + rest == WriteU64(received) + (WriteU64(size) + rest);
  }

  lemma KeysRound(keys: seq<Utf8>, rest: seq<byte>)
    requires |WriteList(keys, WriteBytes)| < TWO_31
    ensures ReadList(WriteList(keys, WriteBytes) + rest, ReadBytes) == Some((keys, rest))
  {
    AllSize(keys, WriteBytes);
    forall key, more | key in keys ensures ReadBytes(WriteBytes(key) + more) == Some((key, more)) {
      BytesRound(key, more);
    }
    ListRound(keys, WriteBytes, ReadBytes, rest);
  }

  lemma EventRound(e: LinkEvent, rest: seq<byte>)
    requires FitsEvent(e) && |WriteEvent(e)| < TWO_31
    ensures ReadEvent(WriteEvent(e) + rest) == Some((e, rest))
  {
    hide Little, ReadNumber, ReadSpan, WriteSpan, ReadBytes, WriteReport, ReadReport, ReadList, WriteList, WriteU64, ReadU64,
      ReadResolved, ReadServeRange, ReadProgress;
    match e
    case SendText(text) =>
      TagRound(0, WriteBytes(text), rest);
      BytesRound(text, rest);
    case SendBinary(bytes) =>
      TagRound(1, WriteBytes(bytes), rest);
      BytesRound(bytes, rest);
    case Closed(reason) =>
      TagRound(2, WriteBytes(reason), rest);
      BytesRound(reason, rest);
    case Report(_, _, _, _, _, _) =>
      TagRound(3, WriteReport(e), rest);
      ReportRound(e, rest);
    case Resolved(id, payload) =>
      TagRound(4, WriteOptional(id, WriteU64) + WriteOptional(payload, WriteBytes), rest);
      ResolvedRound(id, payload, rest);
    case HaveChanged(keys) =>
      TagRound(5, WriteList(keys, WriteBytes), rest);
      KeysRound(keys, rest);
    case ScheduleChanged =>
      TagRound(6, [], rest);
      assert Little(6, 1) + [] == Little(6, 1) && [] + rest == rest;
    case ServeRequest(key) =>
      TagRound(7, WriteBytes(key), rest);
      BytesRound(key, rest);
    case ServeRange(key, range) =>
      TagRound(8, WriteBytes(key) + WriteSpan(range), rest);
      ServeRangeRound(key, range, rest);
    case UploadCancelled(count) =>
      TagRound(9, WriteU64(count), rest);
      U64Round(count, rest);
    case Progress(received, size) =>
      TagRound(10, WriteU64(received) + WriteU64(size), rest);
      ProgressRound(received, size, rest);
  }

  // ---- the state after the events ----

  /** Three flags, and the number of uploads. */
  function WriteFlags(v: LinkUpdate): seq<byte> {
    WriteBool(v.closed) + (WriteBool(v.busy) + (WriteBool(v.transferring) + Little(v.outboundInFlight, 4)))
  }

  function WriteCounters(v: LinkUpdate): seq<byte> {
    WriteU64(v.bytesIn) + (WriteU64(v.bytesOut) + (WriteU64(v.openedAt) + (WriteU64(v.lastServedAt) + WriteU64(v.lastDeliveredAt))))
  }

  function WriteLast(v: LinkUpdate): seq<byte> {
    WriteOptional(v.nextDeadline, WriteU64) + WriteBool(v.uploadWaiting)
  }

  function WriteLinkStatus(v: LinkUpdate): seq<byte> {
    WriteOptional(v.requestId, WriteU64) + (WriteU64(v.version) + (WriteFlags(v) + (WriteCounters(v) + WriteLast(v))))
  }

  function WriteUpdate(v: LinkUpdate): seq<byte> {
    WriteList(v.events, WriteEvent) + WriteLinkStatus(v)
  }

  /** `v` with the fields read that `WriteFlags` writes, and so on below. */
  function ReadFlags(v: LinkUpdate, s: seq<byte>): Parsed<LinkUpdate> {
    var closed := ReadBool(s);
    if closed.None? then None
    else
      var busy := ReadBool(closed.value.1);
      if busy.None? then None
      else
        var transferring := ReadBool(busy.value.1);
        if transferring.None? then None
        else
          Map(ReadNumber(transferring.value.1, 4),
              n => v.(closed := closed.value.0, busy := busy.value.0, transferring := transferring.value.0, outboundInFlight := n))
  }

  function ReadCounters(v: LinkUpdate, s: seq<byte>): Parsed<LinkUpdate> {
    var bytesIn := ReadU64(s);
    if bytesIn.None? then None
    else
      var bytesOut := ReadU64(bytesIn.value.1);
      if bytesOut.None? then None
      else
        var openedAt := ReadU64(bytesOut.value.1);
        if openedAt.None? then None
        else
          var servedAt := ReadU64(openedAt.value.1);
          if servedAt.None? then None
          else
            Map(ReadU64(servedAt.value.1),
                n => v.(bytesIn := bytesIn.value.0, bytesOut := bytesOut.value.0, openedAt := openedAt.value.0,
                        lastServedAt := servedAt.value.0, lastDeliveredAt := n))
  }

  function ReadLast(v: LinkUpdate, s: seq<byte>): Parsed<LinkUpdate> {
    var deadline := ReadOptional(s, ReadU64);
    if deadline.None? then None
    else Map(ReadBool(deadline.value.1), b => v.(nextDeadline := deadline.value.0, uploadWaiting := b))
  }

  function Blank(events: seq<LinkEvent>): LinkUpdate {
    LinkUpdate(events, None, 0, false, false, false, 0, 0, 0, 0, 0, 0, None, false)
  }

  function ReadLinkStatus(events: seq<LinkEvent>, s: seq<byte>): Parsed<LinkUpdate> {
    var id := ReadOptional(s, ReadU64);
    if id.None? then None
    else
      var version := ReadU64(id.value.1);
      if version.None? then None
      else
        var flags := ReadFlags(Blank(events).(requestId := id.value.0, version := version.value.0), version.value.1);
        if flags.None? then None
        else
          var counters := ReadCounters(flags.value.0, flags.value.1);
          if counters.None? then None else ReadLast(counters.value.0, counters.value.1)
  }

  function ReadUpdate(s: seq<byte>): Option<LinkUpdate> {
    var events := ReadList(s, ReadEvent);
    if events.None? then None else Done(ReadLinkStatus(events.value.0, events.value.1))
  }

  predicate FitsUpdate(v: LinkUpdate) {
    && (forall k :: 0 <= k < |v.events| ==> FitsEvent(v.events[k]))
    && FitsDeadline(v.requestId) && v.version < TWO_64 && v.outboundInFlight < TWO_32
    && v.bytesIn < TWO_64 && v.bytesOut < TWO_64 && v.openedAt < TWO_64 && v.lastServedAt < TWO_64 && v.lastDeliveredAt < TWO_64
    && FitsDeadline(v.nextDeadline)
  }

  lemma FlagsRound(u: LinkUpdate, v: LinkUpdate, rest: seq<byte>)
    requires FitsUpdate(v)
    ensures ReadFlags(u, WriteFlags(v) + rest) ==
              Some((u.(closed := v.closed, busy := v.busy, transferring := v.transferring, outboundInFlight := v.outboundInFlight), rest))
  {
    hide ReadBool, WriteBool, Little, ReadNumber;
    var c := Little(v.outboundInFlight, 4);
    var b := WriteBool(v.transferring) + c;
    var a := WriteBool(v.busy) + b;
    BoolRound(v.closed, a + rest);
    BoolRound(v.busy, b + rest);
    BoolRound(v.transferring, c + rest);
    U32Round(v.outboundInFlight, rest);
    assert WriteFlags(v) + rest == WriteBool(v.closed) + (a + rest) && a + rest == WriteBool(v.busy) + (b + rest);
    assert b + rest == WriteBool(v.transferring) + (c + rest);
  }

  lemma CountersRound(u: LinkUpdate, v: LinkUpdate, rest: seq<byte>)
    requires FitsUpdate(v)
    ensures ReadCounters(u, WriteCounters(v) + rest) ==
              Some((u.(bytesIn := v.bytesIn, bytesOut := v.bytesOut, openedAt := v.openedAt, lastServedAt := v.lastServedAt,
                       lastDeliveredAt := v.lastDeliveredAt), rest))
  {
    hide ReadU64, WriteU64;
    var d := WriteU64(v.lastDeliveredAt);
    var c := WriteU64(v.lastServedAt) + d;
    var b := WriteU64(v.openedAt) + c;
    var a := WriteU64(v.bytesOut) + b;
    U64Round(v.bytesIn, a + rest);
    U64Round(v.bytesOut, b + rest);
    U64Round(v.openedAt, c + rest);
    U64Round(v.lastServedAt, d + rest);
    U64Round(v.lastDeliveredAt, rest);
    assert WriteCounters(v) + rest == WriteU64(v.bytesIn) + (a + rest) && a + rest == WriteU64(v.bytesOut) + (b + rest);
    assert b + rest == WriteU64(v.openedAt) + (c + rest) && c + rest == WriteU64(v.lastServedAt) + (d + rest);
  }

  lemma LastRound(u: LinkUpdate, v: LinkUpdate, rest: seq<byte>)
    requires FitsUpdate(v)
    ensures ReadLast(u, WriteLast(v) + rest) == Some((u.(nextDeadline := v.nextDeadline, uploadWaiting := v.uploadWaiting), rest))
  {
    hide ReadU64, WriteU64, ReadBool, WriteBool, ReadOptional, WriteOptional;
    var b := WriteBool(v.uploadWaiting);
    if v.nextDeadline.Some? {
      U64Round(v.nextDeadline.value, b + rest);
    }
    OptionalRound(v.nextDeadline, WriteU64, ReadU64, b + rest);
    BoolRound(v.uploadWaiting, rest);
    assert WriteLast(v) + rest == WriteOptional(v.nextDeadline, WriteU64) + (b + rest);
  }

  lemma LinkStatusRound(v: LinkUpdate, rest: seq<byte>)
    requires FitsUpdate(v)
    ensures ReadLinkStatus(v.events, WriteLinkStatus(v) + rest) == Some((v, rest))
  {
    hide ReadU64, WriteU64, ReadOptional, WriteOptional, ReadFlags, WriteFlags, ReadCounters, WriteCounters, ReadLast, WriteLast;
    var d := WriteLast(v);
    var c := WriteCounters(v) + d;
    var b := WriteFlags(v) + c;
    var a := WriteU64(v.version) + b;
    if v.requestId.Some? {
      U64Round(v.requestId.value, a + rest);
    }
    OptionalRound(v.requestId, WriteU64, ReadU64, a + rest);
    U64Round(v.version, b + rest);
    var u := Blank(v.events).(requestId := v.requestId, version := v.version);
    FlagsRound(u, v, c + rest);
    var u1 := u.(closed := v.closed, busy := v.busy, transferring := v.transferring, outboundInFlight := v.outboundInFlight);
    CountersRound(u1, v, d + rest);
    LastRound(u1.(bytesIn := v.bytesIn, bytesOut := v.bytesOut, openedAt := v.openedAt, lastServedAt := v.lastServedAt,
                  lastDeliveredAt := v.lastDeliveredAt), v, rest);
    assert WriteLinkStatus(v) + rest == WriteOptional(v.requestId, WriteU64) + (a + rest) && a + rest == WriteU64(v.version) + (b + rest);
    assert b + rest == WriteFlags(v) + (c + rest) && c + rest == WriteCounters(v) + (d + rest);
  }

  lemma EventsNotEmpty()
    ensures forall e :: |WriteEvent(e)| >= 1
  {
    hide WriteReport, WriteList, WriteBytes, WriteOptional, WriteU64, WriteSpan;
  }

  /** Every update comes back as it was written, with no bytes left, if its record
      fits into an array of the facade's platform. */
  lemma UpdateRoundTrip(v: LinkUpdate)
    requires FitsUpdate(v) && |WriteUpdate(v)| < TWO_31
    ensures ReadUpdate(WriteUpdate(v)) == Some(v)
  {
    hide WriteLinkStatus, ReadLinkStatus, WriteEvent, ReadEvent, ReadList;
    EventsNotEmpty();
    AllSize(v.events, WriteEvent);
    forall e, more | e in v.events ensures ReadEvent(WriteEvent(e) + more) == Some((e, more)) {
      EventRound(e, more);
    }
    ListRound(v.events, WriteEvent, ReadEvent, WriteLinkStatus(v));
    LinkStatusRound(v, []);
    assert WriteLinkStatus(v) + [] == WriteLinkStatus(v);
  }
}

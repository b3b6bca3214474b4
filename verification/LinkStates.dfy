/** One link between two viewers: its state as a value, and what each input does
    to it. A link plays requester and holder at once over one channel. */
module LinkStates {
  import opened Wrappers
  import opened Pieces

  const CHUNK_BYTES: nat := 16_384
  const HIGH_WATER_BYTES: nat := 131_072

  type Key = string

  /** Close reasons; a reason the table does not know reads as `Host`. */
  datatype Reason =
    | Host | HostStop | Admission | Rotation | Integrity | RequestTimeout | RequestAbort | NativeFailed | NativeClosed
    | NativeDisconnected | ChannelClose | ChannelError | Protocol | SendError | ServeError | UploadQueue | UploadDrainTimeout

  datatype Outcome = Payload | NoPayload | Timeout | Abort | Abandoned | Closed | Busy | SendFailed

  /** The `p` field of a control message: absent, malformed, or a range with
      `start < end <= 64`. */
  datatype RangeField = Absent | Malformed | Exactly(range: PieceRange)

  /** A control message. A number is `Some` when it is a safe integer, and a key
      when it is 64 hex digits. `Advisory` is a `have`, `contribution` or
      `fetching` message, `Ignored` any other object and every JSON value that is
      not an object, `Garbage` a text that is too long or not JSON. */
  datatype Frame =
    | Want(id: Option<int>, key: Option<Key>, range: RangeField)
    | CancelWant(id: Option<int>)
    | Meta(id: Option<int>, size: Option<int>, range: RangeField)
    | Eof(id: Option<int>)
    | Nothing(id: Option<int>)
    | Advisory
    | Ignored
    | Garbage

  datatype Event =
    | SendText(frame: Frame)
    | SendBinary(bytes: seq<byte>)
    | ClosedAs(reason: Reason)
    | Report(id: Option<nat>, outcome: Outcome, received: nat, metadata: bool, draining: bool, closing: Option<Reason>)
    | Resolved(id: Option<nat>, payload: Option<seq<byte>>)
    | ScheduleChanged
    | ServeRequest(key: Key)
    | ServeRange(key: Key, range: PieceRange)
    | UploadCancelled(count: nat)
    | ProgressTo(received: nat, size: nat)

  /** The request in progress. */
  datatype Pending = Pending(
    id: nat, expected: Option<nat>, range: Option<PieceRange>, size: Option<nat>, parts: seq<byte>, chunks: nat, received: nat,
    draining: bool, cancelled: bool, resolved: bool, reported: bool, abandonReason: Reason, deadline: nat, timer: nat)

  datatype Upload = Upload(id: int, key: Key, cancelled: bool, range: Option<PieceRange>)

  datatype Stage = AwaitingBytes | Draining(bytes: seq<byte>, sent: nat, deadline: nat, timer: nat)

  datatype Active = Active(upload: Upload, stage: Stage)

  datatype Config = Config(maxSegmentBytes: nat, maxQueued: nat, drainTimeoutMs: nat)

  /** What a request expected, and what was heard for it: the size in its `meta`,
      and the chunks since then. */
  datatype Hearing = Hearing(expected: Option<nat>, size: Option<nat>, chunks: seq<seq<byte>>)

  /** What happened so far: the IDs of the accepted wants, whether the channel was
      ever not open, and what was heard for each request. */
  datatype Past = Past(accepted: seq<int>, shut: bool, hearings: map<nat, Hearing>)

  /** `log` has every event so far. */
  datatype Link = Link(
    config: Config, reliable: bool, closed: bool, closeReason: Option<Reason>, pending: Option<Pending>, nextId: nat,
    queue: seq<Upload>, active: Option<Active>, inFlight: nat, buffered: nat, timers: nat, lastServedAt: nat,
    lastDeliveredAt: nat, bytesIn: nat, bytesOut: nat, clock: nat, channelOpen: bool,
    log: seq<Event>, past: Past)

  function NewLink(config: Config, reliable: bool, now: nat): Link {
    Link(config, reliable, false, None, None, 1, [], None, 0, 0, 0, 0, 0, 0, 0, now, true, [], Past([], false, map[]))
  }

  function MaxChunks(config: Config): nat {
    Max(DivCeil(config.maxSegmentBytes, CHUNK_BYTES) * 4, 1)
  }

  // ---- what the log says ----

  /** The response stream: quiet, or inside the response to `id`, of whose `size`
      bytes `sent` went out and `dropped` were cancelled. */
  datatype Stream = Quiet | Responding(id: int, size: int, sent: int, dropped: int) | Broken

  /** A request that was resolved with bytes. */
  datatype Payment = Payment(id: nat, bytes: seq<byte>)

  /** The requests resolved, the bytes they were resolved with, and the requests
      reported. */
  datatype Account = Account(resolved: multiset<nat>, paid: seq<Payment>, reported: multiset<nat>)

  /** Summary of a log: the account of the requests, the responses done in order,
      the chunk bytes, and whether anything was sent after the end. */
  datatype Summary = Summary(account: Account, stream: Stream, done: seq<int>, chunkBytes: nat, closed: bool, late: bool)

  function PaidBy(id: nat, payload: Option<seq<byte>>): seq<Payment> {
    if payload.Some? then [Payment(id, payload.value)] else []
  }

  function Settled(a: Account, id: nat, payload: Option<seq<byte>>): Account {
    a.(resolved := a.resolved + multiset{id}, paid := a.paid + PaidBy(id, payload))
  }

  function Reported(a: Account, id: nat): Account {
    a.(reported := a.reported + multiset{id})
  }

  function Summarize(s: Summary, e: Event): Summary {
    match e
    case Resolved(Some(id), payload) => s.(account := Settled(s.account, id, payload))
    case Report(Some(id), _, _, _, _, _) => s.(account := Reported(s.account, id))
    case ClosedAs(_) => s.(closed := true, late := s.late || s.closed)
    case UploadCancelled(n) => if s.stream.Responding? then s.(stream := s.stream.(dropped := s.stream.dropped + n)) else s
    case SendBinary(b) =>
      s.(late := s.late || s.closed, chunkBytes := s.chunkBytes + |b|,
         stream := if s.stream.Responding? then s.stream.(sent := s.stream.sent + |b|) else Broken)
    case SendText(Meta(Some(id), Some(size), _)) =>
      s.(late := s.late || s.closed, stream := if s.stream.Quiet? then Responding(id, size, 0, 0) else Broken)
    case SendText(Eof(Some(id))) =>
      if s.stream.Responding? && s.stream.id == id && s.stream.sent + s.stream.dropped == s.stream.size then
        s.(late := s.late || s.closed, stream := Quiet, done := s.done + [id])
      else s.(late := s.late || s.closed, stream := Broken)
    case SendText(Nothing(Some(id))) =>
      if s.stream.Quiet? then s.(late := s.late || s.closed, done := s.done + [id])
      else s.(late := s.late || s.closed, stream := Broken)
    case SendText(_) => s.(late := s.late || s.closed)
    case _ => s
  }

  ghost function SummaryOf(log: seq<Event>): Summary
    decreases |log|
  {
    if log == [] then Summary(Account(multiset{}, [], multiset{}), Quiet, [], 0, false, false)
    else Summarize(SummaryOf(log[..|log| - 1]), log[|log| - 1])
  }

  function Emit(l: Link, e: Event): Link {
    l.(log := l.log + [e])
  }

  lemma SumNext(log: seq<Event>, e: Event)
    ensures SummaryOf(log + [e]) == Summarize(SummaryOf(log), e)
  {
    assert (log + [e])[..|log|] == log;
  }

  // ---- sending, settling and closing ----

  predicate MaySend(l: Link) {
    !l.closed && l.channelOpen
  }

  function Send(l: Link, f: Frame): Link {
    if MaySend(l) then Emit(l, SendText(f)) else l
  }

  function ReportOf(p: Pending, outcome: Outcome, reason: Option<Reason>): Event {
    Report(Some(p.id), outcome, p.received, p.size.Some?, p.draining, reason)
  }

  function When(c: bool, e: Event): seq<Event> {
    if c then [e] else []
  }

  /** The log once the shell has been told that request `p` is settled. */
  function FinishLog(l: Link, p: Pending, payload: Option<seq<byte>>, outcome: Outcome, reportNow: bool): seq<Event> {
    l.log + When(!p.resolved, Resolved(Some(p.id), payload)) + When(p.draining && !l.closed, ScheduleChanged) +
    When(reportNow && !p.reported, ReportOf(p, outcome, l.closeReason))
  }

  /** The request is over. Without an outcome, bytes mean `Payload`. */
  function Finish(l: Link, payload: Option<seq<byte>>, outcome: Option<Outcome>, reportNow: bool): Link {
    if l.pending.None? then l
    else
      l.(pending := None, lastDeliveredAt := if payload.Some? then l.clock else l.lastDeliveredAt,
         log := FinishLog(l, l.pending.value, payload, outcome.GetOr(if payload.Some? then Payload else NoPayload), reportNow))
  }

  function Fewer(n: nat): nat {
    if n > 0 then n - 1 else 0
  }

  /** Takes one upload off the queue: a cancelled one is declined, the others
      start, or are dropped by a closed link. */
  function StartOne(l: Link): Link
    requires l.queue != []
  {
    var u, l1 := l.queue[0], l.(queue := l.queue[1..]);
    if u.cancelled then Send(Emit(l1, UploadCancelled(0)), Nothing(Some(u.id))).(inFlight := Fewer(l.inFlight))
    else if l.closed then l1.(inFlight := Fewer(l.inFlight))
    else
      Emit(l1, if u.range.Some? then ServeRange(u.key, u.range.value) else ServeRequest(u.key)).(active := Some(Active(u, AwaitingBytes)))
  }

  /** The queue is worked off until a response needs the shell. */
  function StartNext(l: Link): Link
    decreases |l.queue|
  {
    if l.active.Some? || l.queue == [] then l else StartNext(StartOne(l))
  }

  lemma ShorterQueue(l: Link)
    requires l.queue != []
    ensures |StartOne(l).queue| == |l.queue| - 1
  {
  }

  function FinishUpload(l: Link): Link {
    StartNext(l.(inFlight := Fewer(l.inFlight)))
  }

  predicate Paused(l: Link) {
    l.active.Some? && l.active.value.stage.Draining?
  }

  function CloseOutcome(reason: Reason): Outcome {
    if reason == SendError then SendFailed else Closed
  }

  /** The link is closed, its request settled, and the shell told. */
  function Closing(l: Link, reason: Reason): Link {
    Emit(Finish(l.(closed := true, closeReason := Some(reason)), None, Some(CloseOutcome(reason)), true), ClosedAs(reason))
  }

  /** Closes the link once. A paused response stops with the channel. */
  function Close(l: Link, reason: Reason): Link {
    if l.closed then l
    else
      var l1 := Closing(l, reason);
      if Paused(l1) then FinishUpload(l1.(active := None)) else l1
  }

  // ---- requesting ----

  function NewPending(l: Link, now: nat, timeoutMs: nat, expected: Option<nat>, range: Option<PieceRange>): Pending {
    Pending(l.nextId, expected, range, None, [], 0, 0, false, false, false, false, RequestTimeout, now + Max(timeoutMs, 1),
            l.timers + 1)
  }

  function FieldOf(range: Option<PieceRange>): RangeField {
    if range.Some? then Exactly(range.value) else Absent
  }

  /** What was heard for request `id` is recorded. */
  function WithHearing(l: Link, id: nat, hearing: Hearing): Link {
    l.(past := l.past.(hearings := l.past.hearings[id := hearing]))
  }

  function HearingOf(l: Link, id: nat): Hearing {
    if id in l.past.hearings then l.past.hearings[id] else Hearing(None, None, [])
  }

  /** The request becomes the pending one. */
  function Started(l: Link, p: Pending): Link {
    WithHearing(l.(nextId := l.nextId + 1, timers := l.timers + 1, pending := Some(p)), p.id, Hearing(p.expected, None, []))
  }

  /** A request on a link that is open and has none. */
  function Ask(l: Link, p: Pending, key: Key): Link {
    var l1 := Started(l, p);
    if MaySend(l1) then Send(l1, Want(Some(p.id), Some(key), FieldOf(p.range))) else Finish(l1, None, Some(SendFailed), true)
  }

  function Refuse(l: Link): Link {
    Emit(Emit(l, Resolved(None, None)), Report(None, if l.closed then Closed else Busy, 0, false, false, l.closeReason))
  }

  function Request(l0: Link, now: nat, key: Key, timeoutMs: nat, expected: Option<nat>, range: Option<PieceRange>): Link {
    var l := l0.(clock := now);
    if l.closed || l.pending.Some? then Refuse(l) else Ask(l, NewPending(l, now, timeoutMs, expected, range), key)
  }

  /** The request's outcome when it is given up for `reason`. */
  function AbandonOutcome(reason: Reason, abandoned: bool): Outcome {
    if reason != RequestAbort then Timeout else if abandoned then Abandoned else Abort
  }

  /** Without an ordered, reliable channel the link closes with the request. */
  function AbandonClosing(l: Link, p: Pending, reason: Reason, o: Outcome): Link {
    var l1 := Close(Finish(l, None, Some(o), false), reason);
    if p.reported then l1 else Emit(l1, ReportOf(p, o, l1.closeReason))
  }

  function DrainingOne(l: Link, p: Pending, now: nat, reason: Reason): Pending {
    p.(draining := true, parts := [], abandonReason := reason, resolved := true, reported := true,
       deadline := now + l.config.drainTimeoutMs, timer := l.timers + 1)
  }

  function TellDraining(l: Link, p: Pending, o: Outcome): Link {
    Emit(Emit(l.(timers := l.timers + 1), Resolved(Some(p.id), None)), ReportOf(p, o, l.closeReason))
  }

  /** On such a channel the response is drained, and the holder asked to stop. */
  function AbandonDraining(l: Link, p: Pending, o: Outcome): Link {
    var l1 := TellDraining(l, p, o);
    Send(l1.(pending := Some(p.(cancelled := MaySend(l1)))), CancelWant(Some(p.id)))
  }

  /** Gives the pending request up. */
  function Abandon(l: Link, now: nat, reason: Reason, abandoned: bool): Link
    requires l.pending.Some?
  {
    var p, o := l.pending.value, AbandonOutcome(reason, abandoned);
    if !(l.reliable && l.channelOpen) then AbandonClosing(l, p, reason, o) else AbandonDraining(l, DrainingOne(l, p, now, reason), o)
  }

  function AbortRequest(l0: Link, now: nat, id: nat, abandoned: bool): Link {
    var l := l0.(clock := now);
    if l.pending.Some? && l.pending.value.id == id && !l.pending.value.draining then Abandon(l, now, RequestAbort, abandoned) else l
  }

  // ---- time ----

  /** A timer: when it is due, its number, and whether it is the request's. */
  datatype Due = Due(at: nat, timer: nat, request: bool)

  predicate Sooner(a: Due, b: Due) {
    a.at < b.at || (a.at == b.at && a.timer <= b.timer)
  }

  function RequestDue(l: Link): Option<Due> {
    if l.pending.Some? then Some(Due(l.pending.value.deadline, l.pending.value.timer, true)) else None
  }

  function UploadDue(l: Link): Option<Due> {
    if Paused(l) then Some(Due(l.active.value.stage.deadline, l.active.value.stage.timer, false)) else None
  }

  /** The earliest timer. */
  function NextDue(l: Link): Option<Due> {
    var r, u := RequestDue(l), UploadDue(l);
    if r.Some? && (u.None? || Sooner(r.value, u.value)) then r else u
  }

  function NextDeadline(l: Link): Option<nat> {
    var d := NextDue(l);
    if d.Some? then Some(d.value.at) else None
  }

  /** How many timers may still fire. */
  function Rank(l: Link): nat {
    (if l.pending.None? then 0 else if l.pending.value.draining then 1 else 2) + (if Paused(l) then 1 else 0)
  }

  /** One timer fires. */
  function Fire(l0: Link, d: Due): Link
    requires NextDue(l0) == Some(d)
  {
    var l := l0.(clock := d.at);
    if d.request then
      if l.pending.value.draining then Close(l, l.pending.value.abandonReason)
      else Abandon(l, d.at, RequestTimeout, false)
    else FinishUpload(Close(l.(active := None), UploadDrainTimeout))
  }

  /** A closed link has no request and no paused response. */
  predicate Shape(l: Link) {
    l.closed ==> l.pending.None? && !Paused(l)
  }

  lemma StartOneCalm(l: Link)
    requires l.queue != [] && l.active.None?
    ensures var r := StartOne(l);
            r == l.(queue := r.queue, inFlight := r.inFlight, active := r.active, log := r.log) && !Paused(r) && |r.queue| < |l.queue|
  {
  }

  lemma {:induction false} StartNextCalm(l: Link)
    ensures StartNext(l) == l.(queue := StartNext(l).queue, inFlight := StartNext(l).inFlight, active := StartNext(l).active,
                               log := StartNext(l).log)
    ensures !Paused(l) ==> !Paused(StartNext(l))
    ensures l.active.Some? ==> StartNext(l) == l
    decreases |l.queue|
  {
    hide StartOne;
    if l.active.None? && l.queue != [] {
      StartOneCalm(l);
      StartNextCalm(StartOne(l));
    }
  }

  lemma ClosingFields(l: Link, reason: Reason)
    ensures var r := Closing(l, reason);
            r == l.(closed := true, closeReason := Some(reason), pending := None, lastDeliveredAt := r.lastDeliveredAt, log := r.log)
  {
    hide FinishLog;
  }

  lemma CloseShape(l: Link, reason: Reason)
    requires Shape(l)
    ensures Shape(Close(l, reason)) && Close(l, reason).closed && Rank(Close(l, reason)) == 0
    ensures Close(l, reason).clock == l.clock
  {
    hide Closing, StartNext;
    if !l.closed {
      var l2 := Closing(l, reason);
      ClosingFields(l, reason);
      StartNextCalm(l2.(active := None, inFlight := Fewer(l2.inFlight)));
    }
  }

  lemma FinishFields(l: Link, payload: Option<seq<byte>>, outcome: Option<Outcome>, reportNow: bool)
    ensures var r := Finish(l, payload, outcome, reportNow);
            r == l.(pending := None, lastDeliveredAt := r.lastDeliveredAt, log := r.log)
  {
    hide FinishLog;
  }

  lemma FireShape(l: Link, d: Due)
    requires Shape(l) && NextDue(l) == Some(d)
    ensures Shape(Fire(l, d)) && Rank(Fire(l, d)) < Rank(l)
  {
    hide Close, StartNext, Finish;
    var l1 := l.(clock := d.at);
    if d.request {
      var p := l.pending.value;
      if p.draining {
        CloseShape(l1, p.abandonReason);
      } else if !(l.reliable && l.channelOpen) {
        FinishFields(l1, None, Some(AbandonOutcome(RequestTimeout, false)), false);
        CloseShape(Finish(l1, None, Some(AbandonOutcome(RequestTimeout, false)), false), RequestTimeout);
      }
    } else {
      var l2 := Close(l1.(active := None), UploadDrainTimeout);
      CloseShape(l1.(active := None), UploadDrainTimeout);
      StartNextCalm(l2.(inFlight := Fewer(l2.inFlight)));
    }
  }

  /** Time reaches `now`: the due timers fire in their order. */
  function Tick(l: Link, now: nat): Link
    requires Shape(l)
    decreases Rank(l)
  {
    var d := NextDue(l);
    if d.None? || d.value.at > now then l
    else
      FireShape(l, d.value);
      Tick(Fire(l, d.value), now)
  }

  // ---- frames from the remote ----

  /** Whether a number names the pending request. */
  predicate NamesPending(l: Link, id: Option<int>) {
    l.pending.Some? && id == Some(l.pending.value.id)
  }

  /** A response frame with another ID is ignored, or while draining a protocol
      error. */
  function Misnamed(l: Link): Link {
    if l.pending.Some? && l.pending.value.draining then Close(l, Protocol) else l
  }

  function OnMeta(l: Link, id: Option<int>, size: Option<int>, range: RangeField): Link {
    if !NamesPending(l, id) then Misnamed(l)
    else
      var p := l.pending.value;
      if p.size.Some? || (p.range.Some? && range != Exactly(p.range.value)) then Close(l, Protocol)
      else if p.expected.Some? && size != Some(p.expected.value) then Close(l, Protocol)
      else if size.Some? && 1 <= size.value <= l.config.maxSegmentBytes then
        WithHearing(l.(pending := Some(p.(size := Some(size.value)))), p.id, HearingOf(l, p.id).(size := Some(size.value)))
      else Close(l, Protocol)
  }

  function OnEof(l: Link, id: Option<int>): Link {
    if !NamesPending(l, id) then Misnamed(l)
    else
      var p := l.pending.value;
      if p.cancelled && p.size.Some? then Finish(l, None, None, true)
      else if p.size != Some(p.received) then Close(l, Protocol)
      else if p.draining then Finish(l, None, None, true)
      else Finish(l.(pending := Some(p.(parts := []))), Some(p.parts), None, true)
  }

  function OnNothing(l: Link, id: Option<int>): Link {
    if !NamesPending(l, id) then Misnamed(l)
    else if l.pending.value.size.Some? then Close(l, Protocol)
    else Finish(l, None, None, true)
  }

  function OnWant(l: Link, id: Option<int>, key: Option<Key>, range: RangeField): Link {
    if id.None? || key.None? then l
    else if range == Malformed then Close(l, Protocol)
    else if l.inFlight >= l.config.maxQueued then Close(l, UploadQueue)
    else
      var u := Upload(id.value, key.value, false, if range.Exactly? then Some(range.range) else None);
      StartNext(l.(inFlight := l.inFlight + 1, queue := l.queue + [u], past := l.past.(accepted := l.past.accepted + [id.value])))
  }

  function MarkOne(u: Upload, id: int): Upload {
    if u.id == id then u.(cancelled := true) else u
  }

  function Mark(queue: seq<Upload>, id: int): (r: seq<Upload>)
    ensures |r| == |queue| && forall k :: 0 <= k < |r| ==> r[k] == MarkOne(queue[k], id)
  {
    seq(|queue|, k requires 0 <= k < |queue| => MarkOne(queue[k], id))
  }

  /** Cancels the uploads of that ID; a paused one is ended at once. */
  function OnCancel(l: Link, now: nat, id: Option<int>): Link {
    if id.None? then l
    else
      var a := if l.active.Some? then Some(l.active.value.(upload := MarkOne(l.active.value.upload, id.value))) else None;
      var l1 := l.(queue := Mark(l.queue, id.value), active := a);
      if Paused(l1) && l1.active.value.upload.id == id.value then
        var s := l1.active.value.stage;
        SendChunks(l1.(active := None), now, l1.active.value.upload, s.bytes, s.sent, true)
      else l1
  }

  function OnText(l0: Link, now: nat, f: Frame): Link {
    var l := l0.(clock := now);
    if l.closed then l
    else
      match f
      case Want(id, key, range) => OnWant(l, id, key, range)
      case CancelWant(id) => OnCancel(l, now, id)
      case Meta(id, size, range) => OnMeta(l, id, size, range)
      case Eof(id) => OnEof(l, id)
      case Nothing(id) => OnNothing(l, id)
      case Garbage => Close(l, Protocol)
      case Advisory => l
      case Ignored => l
  }

  /** A chunk is counted, and what was heard is recorded. */
  function Counted(l: Link, p: Pending, chunk: seq<byte>): Link {
    var h := HearingOf(l, p.id);
    WithHearing(l.(pending := Some(p), bytesIn := l.bytesIn + |chunk|), p.id, h.(chunks := h.chunks + [chunk]))
  }

  /** A chunk of the response: too much closes the link, and what is drained is
      only counted. `p` has counted the chunk. */
  function Receive(l: Link, p: Pending, size: nat, chunk: seq<byte>): Link {
    var l1 := Counted(l, p, chunk);
    if p.received > size then Close(l1, Protocol)
    else if p.draining then l1
    else Emit(l1.(pending := Some(p.(parts := p.parts + chunk))), ProgressTo(p.received, size))
  }

  function OnBinary(l0: Link, now: nat, chunk: seq<byte>): Link {
    var l := l0.(clock := now);
    if l.closed || l.pending.None? then l
    else
      var p := l.pending.value;
      if p.size.None? || chunk == [] || |chunk| > CHUNK_BYTES || p.chunks >= MaxChunks(l.config) then Close(l, Protocol)
      else Receive(l, p.(chunks := p.chunks + 1, received := p.received + |chunk|), p.size.value, chunk)
  }

  // ---- serving ----

  /** The answer to the active upload, once its bytes are known. */
  function Respond(l: Link, now: nat, u: Upload, bytes: seq<byte>): Link {
    if u.cancelled then FinishUpload(Send(Emit(l, UploadCancelled(|bytes|)), Nothing(Some(u.id))))
    else if !MaySend(l) then FinishUpload(l)
    else
      SendChunks(Send(l, Meta(Some(u.id), Some(|bytes|), FieldOf(u.range))), now, u, bytes, 0, false)
  }

  function Decline(l: Link, u: Upload): Link {
    FinishUpload(Send(l, Nothing(Some(u.id))))
  }

  predicate Awaiting(l: Link) {
    l.active.Some? && l.active.value.stage.AwaitingBytes?
  }

  /** The bytes of a range of an object, if it has them. */
  function Cut(bytes: seq<byte>, range: PieceRange): (r: Option<seq<byte>>)
    ensures r.Some? ==> |r.value| > 0
  {
    var cut := RangeBytes(|bytes|, range);
    if cut.None? then None
    else
      RangeInside(|bytes|, range);
      Some(bytes[cut.value.0..cut.value.1])
  }

  /** How long the range is in an object of `size` bytes that has it. */
  function CutLength(size: nat, range: PieceRange): Option<int> {
    var cut := RangeBytes(size, range);
    if cut.None? then None else Some(cut.value.1 - cut.value.0)
  }

  /** The shell's answer: the whole held object, or `None`. */
  function Serve(l0: Link, now: nat, held: Option<seq<byte>>): Link {
    var l := l0.(clock := now);
    if !Awaiting(l) then l
    else
      var u, l1 := l.active.value.upload, l.(active := None);
      if held.None? then Decline(l1, u)
      else if u.range.None? then Respond(l1, now, u, held.value)
      else
        var cut := Cut(held.value, u.range.value);
        if cut.None? then Decline(l1, u) else Respond(l1, now, u, cut.value)
  }

  /** The shell's answer: only the bytes of the wanted range. */
  function ServeOnly(l0: Link, now: nat, objectSize: nat, bytes: seq<byte>): Link {
    var l := l0.(clock := now);
    if !Awaiting(l) then l
    else
      var u, l1 := l.active.value.upload, l.(active := None);
      var length := if u.range.Some? && objectSize <= l.config.maxSegmentBytes then CutLength(objectSize, u.range.value) else None;
      if length != Some(|bytes|) then Decline(l1, u) else Respond(l1, now, u, bytes)
  }

  function Low(l0: Link, now: nat, buffered: nat): Link {
    var l := l0.(clock := now, buffered := buffered);
    if !Paused(l) then l
    else
      var s := l.active.value.stage;
      SendChunks(l.(active := None), now, l.active.value.upload, s.bytes, s.sent, true)
  }

  /** The end of a response: what was not sent was cancelled. */
  function EndResponse(l: Link, now: nat, u: Upload, bytes: seq<byte>, sent: nat): Link {
    var l1 := l.(bytesOut := l.bytesOut + sent, lastServedAt := now);
    var l2 := if sent < |bytes| then Emit(l1, UploadCancelled(|bytes| - sent)) else l1;
    FinishUpload(Send(l2, Eof(Some(u.id))))
  }

  /** Sends chunks until the channel is full, the upload is cancelled or all is
      sent. A resumed response sends one chunk whatever the buffered amount. */
  function SendChunks(l: Link, now: nat, u: Upload, bytes: seq<byte>, sent: nat, resumed: bool): Link
    decreases |bytes| - sent
  {
    if sent >= |bytes| then EndResponse(l, now, u, bytes, sent)
    else if l.closed then FinishUpload(l)
    else if !resumed && l.buffered > HIGH_WATER_BYTES then
      l.(timers := l.timers + 1,
         active := Some(Active(u, Draining(bytes, sent, now + l.config.drainTimeoutMs, l.timers + 1))))
    else if u.cancelled then EndResponse(l, now, u, bytes, sent)
    else
      var end := Min(sent + CHUNK_BYTES, |bytes|);
      SendChunks(Emit(l.(buffered := l.buffered + (end - sent)), SendBinary(bytes[sent..end])), now, u, bytes, end, false)
  }
}

/** The link object. Every method does to the fields what `LinkStates` says. */
module PeerLinks {
  import opened Wrappers
  import opened Pieces
  import opened LinkStates
  import opened LinkRuns

  class PeerLink {
    const config: Config

    var reliable: bool
    var closed: bool
    var closeReason: Option<Reason>
    var pending: Option<Pending>
    var nextId: nat
    var queue: seq<Upload>
    var active: Option<Active>
    var inFlight: nat
    var buffered: nat
    var timers: nat
    var lastServedAt: nat
    var lastDeliveredAt: nat
    var bytesIn: nat
    var bytesOut: nat
    var clock: nat
    var channelOpen: bool
    var events: seq<Event>

    /** The events already taken, and what else happened so far. */
    ghost var drained: seq<Event>
    ghost var past: Past

    ghost function St(): Link
      reads this
    {
      Link(config, reliable, closed, closeReason, pending, nextId, queue, active, inFlight, buffered, timers, lastServedAt,
           lastDeliveredAt, bytesIn, bytesOut, clock, channelOpen, drained + events, past)
    }

    ghost predicate Valid()
      reads this
    {
      Inv(St(), None)
    }

    constructor (config: Config, reliable: bool, now: nat)
      ensures this.config == config && St() == NewLink(config, reliable, now) && Valid() && events == []
    {
      this.config, this.reliable := config, reliable;
      closed, closeReason, pending, nextId, queue, active := false, None, None, 1, [], None;
      inFlight, buffered, timers, lastServedAt, lastDeliveredAt, bytesIn, bytesOut := 0, 0, 0, 0, 0, 0, 0;
      clock, channelOpen, events := now, true, [];
      drained, past := [], Past([], false, map[]);
      new;
      NewLinkOk(config, reliable, now);
    }

    // ---- sending, settling and closing ----

    method Push(e: Event)
      modifies `events
      ensures St() == Emit(old(St()), e)
    {
      assert drained + (events + [e]) == (drained + events) + [e];
      events := events + [e];
    }

    method SendFrame(f: Frame) returns (sent: bool)
      modifies `events
      ensures St() == Send(old(St()), f) && sent == MaySend(old(St()))
    {
      if closed || !channelOpen {
        return false;
      }
      Push(SendText(f));
      return true;
    }

    method PushWhen(c: bool, e: Event)
      modifies `events
      ensures St() == old(St()).(log := old(St()).log + When(c, e))
    {
      if c {
        Push(e);
      } else {
        assert drained + events + [] == drained + events;
      }
    }

    /** Tells the shell that request `p` is settled. */
    method TellSettled(p: Pending, payload: Option<seq<byte>>, outcome: Outcome, reportNow: bool)
      modifies `events
      ensures St() == old(St()).(log := FinishLog(old(St()), p, payload, outcome, reportNow))
    {
      hide When, ReportOf;
      PushWhen(!p.resolved, Resolved(Some(p.id), payload));
      PushWhen(p.draining && !closed, ScheduleChanged);
      PushWhen(reportNow && !p.reported, ReportOf(p, outcome, closeReason));
    }

    /** The request is over, by `Payload` or `NoPayload` unless said otherwise. */
    method Settle(payload: Option<seq<byte>>, outcome: Option<Outcome>, reportNow: bool)
      modifies `pending, `events, `lastDeliveredAt
      ensures St() == Finish(old(St()), payload, outcome, reportNow)
    {
      hide FinishLog;
      if pending.Some? {
        var p, o := pending.value, outcome.GetOr(if payload.Some? then Payload else NoPayload);
        TellSettled(p, payload, o, reportNow);
        pending := None;
        lastDeliveredAt := if payload.Some? then clock else lastDeliveredAt;
      }
    }

    /** Takes one upload off the queue. */
    method StartFirst()
      requires queue != []
      modifies `queue, `active, `inFlight, `events
      ensures St() == StartOne(old(St()))
    {
      var u := queue[0];
      queue := queue[1..];
      if u.cancelled {
        Push(UploadCancelled(0));
        var _ := SendFrame(Nothing(Some(u.id)));
        inFlight := Fewer(inFlight);
      } else if closed {
        inFlight := Fewer(inFlight);
      } else {
        Push(if u.range.Some? then ServeRange(u.key, u.range.value) else ServeRequest(u.key));
        active := Some(Active(u, AwaitingBytes));
      }
    }

    /** Works the queue off until a response needs the shell. */
    method StartQueued()
      modifies `queue, `active, `inFlight, `events
      ensures St() == StartNext(old(St()))
    {
      hide StartOne;
      while active.None? && queue != []
        invariant StartNext(St()) == StartNext(old(St()))
        decreases |queue|
      {
        ghost var l := St();
        StartFirst();
        ShorterQueue(l);
      }
    }

    method EndUpload()
      modifies `queue, `active, `inFlight, `events
      ensures St() == FinishUpload(old(St()))
    {
      hide StartNext;
      inFlight := Fewer(inFlight);
      StartQueued();
    }

    method BeginClose(reason: Reason)
      modifies `closed, `closeReason, `pending, `events, `lastDeliveredAt
      ensures St() == Closing(old(St()), reason)
    {
      hide Finish;
      closed, closeReason := true, Some(reason);
      Settle(None, Some(CloseOutcome(reason)), true);
      Push(ClosedAs(reason));
    }

    /** Closes the link once. A paused response stops with the channel. */
    method CloseAs(reason: Reason)
      modifies `closed, `closeReason, `pending, `events, `lastDeliveredAt, `queue, `active, `inFlight
      ensures St() == Close(old(St()), reason)
    {
      hide Closing, FinishUpload;
      if closed {
        return;
      }
      BeginClose(reason);
      if active.Some? && active.value.stage.Draining? {
        active := None;
        EndUpload();
      }
    }

    /** The shell's close; an unknown reason reads as `Host`. */
    method CloseFor(reason: Option<Reason>)
      requires Valid()
      modifies `closed, `closeReason, `pending, `events, `lastDeliveredAt, `queue, `active, `inFlight
      ensures Valid() && closed && St() == Close(old(St()), reason.GetOr(Host))
    {
      hide Inv, Close;
      CloseKeeps(St(), reason.GetOr(Host), None);
      InvShape(St());
      CloseShape(St(), reason.GetOr(Host));
      CloseAs(reason.GetOr(Host));
    }

    // ---- requesting ----

    /** Asks for one object or some of its pieces. */
    method StartRequest(now: nat, key: Key, timeoutMs: nat, expected: Option<nat>, range: Option<PieceRange>)
        returns (id: Option<nat>)
      requires Valid()
      modifies this
      ensures Valid() && St() == Request(old(St()), now, key, timeoutMs, expected, range)
      ensures id == if old(closed) || old(pending).Some? then None else Some(old(nextId))
      ensures drained == old(drained)
    {
      hide Inv, Ask;
      RequestKeeps(St(), now, key, timeoutMs, expected, range);
      clock := now;
      if closed || pending.Some? {
        Push(Resolved(None, None));
        Push(Report(None, if closed then Closed else Busy, 0, false, false, closeReason));
        return None;
      }
      id := Some(nextId);
      var p := Pending(nextId, expected, range, None, [], 0, 0, false, false, false, false, RequestTimeout,
                       now + Max(timeoutMs, 1), timers + 1);
      Begin(p, key);
    }

    method Begin(p: Pending, key: Key)
      modifies `pending, `events, `lastDeliveredAt, `nextId, `timers, `past
      ensures St() == Ask(old(St()), p, key)
    {
      hide Finish, Started;
      MakePending(p);
      var sent := SendFrame(Want(Some(p.id), Some(key), FieldOf(p.range)));
      if !sent {
        Settle(None, Some(SendFailed), true);
      }
    }

    method MakePending(p: Pending)
      modifies `pending, `nextId, `timers, `past
      ensures St() == Started(old(St()), p)
    {
      nextId, timers, pending := nextId + 1, timers + 1, Some(p);
      past := past.(hearings := past.hearings[p.id := Hearing(p.expected, None, [])]);
    }

    /** Asks for a part of an object whose size is known. A range outside it is
        not asked. */
    method RequestRange(now: nat, key: Key, timeoutMs: nat, range: PieceRange, objectSize: nat) returns (id: Option<nat>)
      requires Valid()
      modifies this
      ensures Valid() && drained == old(drained)
      ensures RangeBytes(objectSize, range).None? ==> id == None && St() == old(St())
      ensures RangeBytes(objectSize, range).Some? ==>
                var (from, to) := RangeBytes(objectSize, range).value;
                to >= from && St() == Request(old(St()), now, key, timeoutMs, Some(to - from), Some(range))
    {
      hide Inv, Request, PieceCount, CommitmentPieceSize;
      id := None;
      var bytes := RangeBytes(objectSize, range);
      if bytes.Some? {
        RangeInside(objectSize, range);
        id := StartRequest(now, key, timeoutMs, Some(bytes.value.1 - bytes.value.0), Some(range));
      }
    }

    /** Gives the pending request up: drained if the channel allows it, else the
        link closes. */
    method GiveUp(now: nat, reason: Reason, abandoned: bool)
      requires pending.Some?
      modifies this
      ensures St() == Abandon(old(St()), now, reason, abandoned) && drained == old(drained)
    {
      hide AbandonClosing, AbandonDraining;
      var p, outcome := pending.value, AbandonOutcome(reason, abandoned);
      if !(reliable && channelOpen) {
        GiveUpClosing(p, reason, outcome);
      } else {
        GiveUpDraining(p.(draining := true, parts := [], abandonReason := reason, resolved := true, reported := true,
                          deadline := now + config.drainTimeoutMs, timer := timers + 1), outcome);
      }
    }

    method GiveUpClosing(p: Pending, reason: Reason, outcome: Outcome)
      modifies this
      ensures St() == AbandonClosing(old(St()), p, reason, outcome) && drained == old(drained)
    {
      hide Finish, Close, ReportOf;
      Settle(None, Some(outcome), false);
      CloseAs(reason);
      if !p.reported {
        Push(ReportOf(p, outcome, closeReason));
      }
    }

    method TellDrain(p: Pending, outcome: Outcome)
      modifies `timers, `events
      ensures St() == TellDraining(old(St()), p, outcome)
    {
      hide ReportOf;
      timers := timers + 1;
      Push(Resolved(Some(p.id), None));
      Push(ReportOf(p, outcome, closeReason));
    }

    method GiveUpDraining(p: Pending, outcome: Outcome)
      modifies this
      ensures St() == AbandonDraining(old(St()), p, outcome) && drained == old(drained)
    {
      hide TellDraining;
      TellDrain(p, outcome);
      // Only after this may the holder's eof end early.
      pending := Some(p.(cancelled := !closed && channelOpen));
      var _ := SendFrame(CancelWant(Some(p.id)));
    }

    method Abort(now: nat, id: nat, abandoned: bool)
      requires Valid()
      modifies this
      ensures Valid() && St() == AbortRequest(old(St()), now, id, abandoned) && drained == old(drained)
    {
      hide Inv, Abandon;
      AbortKeeps(St(), now, id, abandoned);
      clock := now;
      if pending.Some? && pending.value.id == id && !pending.value.draining {
        GiveUp(now, RequestAbort, abandoned);
      }
    }

    // ---- time ----

    /** The earliest timer, the request's first between equals. */
    method Earliest() returns (d: Option<Due>)
      ensures d == NextDue(St())
    {
      d := if pending.Some? then Some(Due(pending.value.deadline, pending.value.timer, true)) else None;
      if active.Some? && active.value.stage.Draining? {
        var u := Due(active.value.stage.deadline, active.value.stage.timer, false);
        if d.None? || !Sooner(d.value, u) {
          d := Some(u);
        }
      }
    }

    /** Time reaches `now`. */
    method TickTo(now: nat)
      requires Valid()
      modifies this
      ensures Valid() && St() == Tick(old(St()), now) && drained == old(drained)
      ensures NextDeadline(St()).Some? ==> NextDeadline(St()).value > now
    {
      hide Inv, Fire, NextDue;
      InvShape(St());
      TickKeeps(St(), now);
      NothingDue(St(), now);
      while true
        invariant Shape(St()) && Tick(St(), now) == Tick(old(St()), now) && drained == old(drained)
        decreases Rank(St())
      {
        var due := Earliest();
        if due.None? || due.value.at > now {
          return;
        }
        FireShape(St(), due.value);
        FireOne(due.value);
      }
    }

    method FireOne(d: Due)
      requires NextDue(St()) == Some(d)
      modifies this
      ensures St() == Fire(old(St()), d) && drained == old(drained)
    {
      hide Close, Abandon, StartNext, FinishUpload;
      clock := d.at;
      if d.request {
        if pending.value.draining {
          CloseAs(pending.value.abandonReason);
        } else {
          GiveUp(d.at, RequestTimeout, false);
        }
      } else {
        active := None;
        CloseAs(UploadDrainTimeout);
        EndUpload();
      }
    }

    // ---- serving ----

    method EndOfResponse(now: nat, u: Upload, bytes: seq<byte>, sent: nat)
      modifies `bytesOut, `lastServedAt, `queue, `active, `inFlight, `events
      ensures St() == EndResponse(old(St()), now, u, bytes, sent)
    {
      hide FinishUpload;
      bytesOut, lastServedAt := bytesOut + sent, now;
      if sent < |bytes| {
        Push(UploadCancelled(|bytes| - sent));
      }
      var _ := SendFrame(Eof(Some(u.id)));
      EndUpload();
    }

    /** Sends chunks until the channel is full, the upload is cancelled or all is
        sent. A resumed response sends one chunk whatever the buffered amount. */
    method SendPieces(now: nat, u: Upload, bytes: seq<byte>, start: nat, afresh: bool)
      requires start <= |bytes|
      modifies this
      ensures St() == SendChunks(old(St()), now, u, bytes, start, afresh) && drained == old(drained)
    {
      hide FinishUpload, EndResponse;
      var sent, resumed := start, afresh;
      while sent < |bytes|
        invariant start <= sent <= |bytes| && drained == old(drained)
        invariant SendChunks(St(), now, u, bytes, sent, resumed) == SendChunks(old(St()), now, u, bytes, start, afresh)
      {
        if closed {
          EndUpload();
          return;
        }
        if !resumed && buffered > HIGH_WATER_BYTES {
          timers := timers + 1;
          active := Some(Active(u, Draining(bytes, sent, now + config.drainTimeoutMs, timers)));
          return;
        }
        if u.cancelled {
          break;
        }
        var end := Min(sent + CHUNK_BYTES, |bytes|);
        buffered := buffered + (end - sent);
        Push(SendBinary(bytes[sent..end]));
        sent, resumed := end, false;
      }
      EndOfResponse(now, u, bytes, sent);
    }

    method DeclineWant(u: Upload)
      modifies `queue, `active, `inFlight, `events
      ensures St() == Decline(old(St()), u)
    {
      hide FinishUpload;
      var _ := SendFrame(Nothing(Some(u.id)));
      EndUpload();
    }

    method RespondWith(now: nat, u: Upload, bytes: seq<byte>)
      modifies this
      ensures St() == Respond(old(St()), now, u, bytes) && drained == old(drained)
    {
      hide FinishUpload, SendChunks;
      if u.cancelled {
        Push(UploadCancelled(|bytes|));
        DeclineWant(u);
        return;
      }
      var sent := SendFrame(Meta(Some(u.id), Some(|bytes|), FieldOf(u.range)));
      if sent {
        SendPieces(now, u, bytes, 0, false);
      } else {
        EndUpload();
      }
    }

    /** What the shell holds for the upload that waits, if anything. */
    method ServeResponse(now: nat, held: Option<seq<byte>>)
      requires Valid()
      modifies this
      ensures Valid() && St() == Serve(old(St()), now, held) && drained == old(drained)
    {
      hide Inv, Respond, Decline, Cut;
      ServeKeeps(St(), now, held);
      clock := now;
      if active.None? || !active.value.stage.AwaitingBytes? {
        return;
      }
      var u := active.value.upload;
      active := None;
      if held.None? {
        DeclineWant(u);
      } else if u.range.None? {
        RespondWith(now, u, held.value);
      } else {
        // The object is too short for the range.
        var cut := Cut(held.value, u.range.value);
        if cut.None? {
          DeclineWant(u);
        } else {
          RespondWith(now, u, cut.value);
        }
      }
    }

    /** The shell's answer with only the bytes of the wanted range. */
    method ServeRangeResponse(now: nat, objectSize: nat, bytes: seq<byte>)
      requires Valid()
      modifies this
      ensures Valid() && St() == ServeOnly(old(St()), now, objectSize, bytes) && drained == old(drained)
    {
      hide Inv, Respond, Decline, CutLength;
      ServeOnlyKeeps(St(), now, objectSize, bytes);
      clock := now;
      if active.None? || !active.value.stage.AwaitingBytes? {
        return;
      }
      var u := active.value.upload;
      active := None;
      var length := if u.range.Some? && objectSize <= config.maxSegmentBytes then CutLength(objectSize, u.range.value) else None;
      if length == Some(|bytes|) {
        RespondWith(now, u, bytes);
      } else {
        DeclineWant(u);
      }
    }

    /** The channel takes more again: a paused response goes on. */
    method BufferedAmountLow(now: nat, amount: nat)
      requires Valid()
      modifies this
      ensures Valid() && St() == Low(old(St()), now, amount) && drained == old(drained)
    {
      hide Inv, SendChunks;
      LowKeeps(St(), now, amount);
      if Paused(St()) {
        Resume(St(), clock);
      }
      clock, buffered := now, amount;
      if active.Some? && active.value.stage.Draining? {
        var a := active.value;
        active := None;
        SendPieces(now, a.upload, a.stage.bytes, a.stage.sent, true);
      }
    }

    // ---- frames from the remote ----

    method OnMetaFrame(id: Option<int>, size: Option<int>, range: RangeField)
      modifies this
      ensures St() == OnMeta(old(St()), id, size, range) && drained == old(drained)
    {
      hide Close;
      if pending.None? || id != Some(pending.value.id) {
        if pending.Some? && pending.value.draining {
          CloseAs(Protocol);
        }
        return;
      }
      var p := pending.value;
      if p.size.Some? || (p.range.Some? && range != Exactly(p.range.value)) || (p.expected.Some? && size != Some(p.expected.value)) {
        CloseAs(Protocol);
      } else if size.Some? && 1 <= size.value <= config.maxSegmentBytes {
        past := past.(hearings := past.hearings[p.id := HearingOf(St(), p.id).(size := Some(size.value))]);
        pending := Some(p.(size := Some(size.value)));
      } else {
        CloseAs(Protocol);
      }
    }

    method OnEofFrame(id: Option<int>)
      modifies this
      ensures St() == OnEof(old(St()), id) && drained == old(drained)
    {
      hide Close, Finish;
      if pending.None? || id != Some(pending.value.id) {
        if pending.Some? && pending.value.draining {
          CloseAs(Protocol);
        }
        return;
      }
      var p := pending.value;
      if p.cancelled && p.size.Some? {
        Settle(None, None, true);
      } else if p.size != Some(p.received) {
        CloseAs(Protocol);
      } else if p.draining {
        Settle(None, None, true);
      } else {
        pending := Some(p.(parts := []));
        Settle(Some(p.parts), None, true);
      }
    }

    method OnNoneFrame(id: Option<int>)
      modifies this
      ensures St() == OnNothing(old(St()), id) && drained == old(drained)
    {
      hide Close, Finish;
      if pending.None? || id != Some(pending.value.id) {
        if pending.Some? && pending.value.draining {
          CloseAs(Protocol);
        }
        return;
      }
      if pending.value.size.Some? {
        CloseAs(Protocol);
      } else {
        Settle(None, None, true);
      }
    }

    method OnWantFrame(id: Option<int>, key: Option<Key>, range: RangeField)
      modifies this
      ensures St() == OnWant(old(St()), id, key, range) && drained == old(drained)
    {
      hide Close, StartNext;
      if id.None? || key.None? {
        return;
      }
      if range == Malformed {
        CloseAs(Protocol);
        return;
      }
      if inFlight >= config.maxQueued {
        CloseAs(UploadQueue);
        return;
      }
      inFlight := inFlight + 1;
      queue := queue + [Upload(id.value, key.value, false, if range.Exactly? then Some(range.range) else None)];
      past := past.(accepted := past.accepted + [id.value]);
      StartQueued();
    }

    /** The remote no longer wants the ID. A paused response ends now, before its
        drain timer can end the link. */
    method OnCancelFrame(now: nat, id: Option<int>)
      requires Paused(St()) ==> active.value.stage.sent <= |active.value.stage.bytes|
      modifies this
      ensures St() == OnCancel(old(St()), now, id) && drained == old(drained)
    {
      hide SendChunks;
      if id.None? {
        return;
      }
      for i := 0 to |queue|
        invariant St() == old(St()).(queue := queue) && |queue| == |old(queue)| && drained == old(drained)
        invariant forall j :: 0 <= j < |queue| ==> queue[j] == if j < i then MarkOne(old(queue)[j], id.value) else old(queue)[j]
      {
        queue := queue[i := MarkOne(queue[i], id.value)];
      }
      assert queue == Mark(old(queue), id.value);
      if active.Some? {
        active := Some(active.value.(upload := MarkOne(active.value.upload, id.value)));
        if active.value.upload.id == id.value && active.value.stage.Draining? {
          var a := active.value;
          active := None;
          SendPieces(now, a.upload, a.stage.bytes, a.stage.sent, true);
        }
      }
    }

    method HandleText(now: nat, f: Frame)
      requires Valid()
      modifies this
      ensures Valid() && St() == OnText(old(St()), now, f) && drained == old(drained)
    {
      hide Inv, OnWant, OnCancel, OnMeta, OnEof, OnNothing, Close;
      OnTextKeeps(St(), now, f);
      if Paused(St()) {
        Resume(St(), clock);
      }
      clock := now;
      if closed {
        return;
      }
      match f
      case Want(id, key, range) => OnWantFrame(id, key, range);
      case CancelWant(id) => OnCancelFrame(now, id);
      case Meta(id, size, range) => OnMetaFrame(id, size, range);
      case Eof(id) => OnEofFrame(id);
      case Nothing(id) => OnNoneFrame(id);
      case Garbage => CloseAs(Protocol);
      case Advisory =>
      case Ignored =>
    }

    method HandleBinary(now: nat, chunk: seq<byte>)
      requires Valid()
      modifies this
      ensures Valid() && St() == OnBinary(old(St()), now, chunk) && drained == old(drained)
    {
      hide Inv, Close, MaxChunks, Receive;
      OnBinaryKeeps(St(), now, chunk);
      clock := now;
      if closed || pending.None? {
        return;
      }
      var p := pending.value;
      if p.size.None? || chunk == [] || |chunk| > CHUNK_BYTES || p.chunks >= MaxChunks(config) {
        CloseAs(Protocol);
        return;
      }
      Absorb(p.(chunks := p.chunks + 1, received := p.received + |chunk|), p.size.value, chunk);
    }

    method Absorb(p: Pending, size: nat, chunk: seq<byte>)
      modifies this
      ensures St() == Receive(old(St()), p, size, chunk) && drained == old(drained)
    {
      hide Close, Counted;
      CountChunk(p, chunk);
      if p.received > size {
        CloseAs(Protocol);
      } else if !p.draining {
        pending := Some(p.(parts := p.parts + chunk));
        Push(ProgressTo(p.received, size));
      }
    }

    method CountChunk(p: Pending, chunk: seq<byte>)
      modifies `pending, `bytesIn, `past
      ensures St() == Counted(old(St()), p, chunk)
    {
      ghost var hearing := HearingOf(St(), p.id);
      past := past.(hearings := past.hearings[p.id := hearing.(chunks := hearing.chunks + [chunk])]);
      pending := Some(p);
      bytesIn := bytesIn + |chunk|;
    }

    // ---- the shell's readings ----

    method SetChannelOpen(open: bool)
      requires Valid()
      modifies `channelOpen, `past
      ensures Valid() && channelOpen == open && past == old(past).(shut := old(past).shut || !open)
    {
      SettingOpen(St(), open);
      channelOpen, past := open, past.(shut := past.shut || !open);
    }

    method SetReliable(value: bool)
      requires Valid()
      modifies `reliable
      ensures Valid() && reliable == value
    {
      SettingReliable(St(), value);
      reliable := value;
    }

    method ObserveBuffered(amount: nat)
      requires Valid()
      modifies `buffered
      ensures Valid() && buffered == amount
    {
      SettingBuffered(St(), amount);
      buffered := amount;
    }

    /** Hands the events over to the shell. */
    method DrainEvents() returns (r: seq<Event>)
      requires Valid()
      modifies `events, `drained
      ensures Valid() && r == old(events) && events == [] && drained == old(drained) + r && St() == old(St())
    {
      r := events;
      assert drained + events + [] == drained + events;
      drained := drained + events;
      events := [];
    }
  }
}

/** What each input to one end of a link does to that end's view of the
    conversation, and what the end puts on the channel. */
module LinkViews {
  import opened Wrappers
  import opened Pieces
  import opened LinkStates
  import opened LinkRuns
  import opened Conversation

  // ---- events that say nothing on the channel ----

  predicate Silent(e: Event) {
    !e.SendText? && !e.SendBinary? && !(e.Resolved? && e.payload.Some?)
  }

  lemma TellWhen(log: seq<Event>, c: bool, e: Event)
    requires Silent(e)
    ensures Tell(log + When(c, e)) == Tell(log)
  {
    if c {
      TellNext(log, e);
    } else {
      assert log + [] == log;
    }
  }

  lemma FinishLogTold(l: Link, p: Pending, o: Outcome, reportNow: bool)
    ensures Tell(FinishLog(l, p, None, o, reportNow)) == Tell(l.log)
  {
    hide Tell, When, ReportOf;
    var a, b := When(!p.resolved, Resolved(Some(p.id), None)), When(p.draining && !l.closed, ScheduleChanged);
    TellWhen(l.log, !p.resolved, Resolved(Some(p.id), None));
    TellWhen(l.log + a, p.draining && !l.closed, ScheduleChanged);
    ReportSilent(p, o, l.closeReason);
    TellWhen(l.log + a + b, reportNow && !p.reported, ReportOf(p, o, l.closeReason));
  }

  lemma ReportSilent(p: Pending, o: Outcome, reason: Option<Reason>)
    ensures Silent(ReportOf(p, o, reason))
  {
  }

  /** Settling a request without bytes says nothing. */
  lemma FinishTold(l: Link, outcome: Option<Outcome>, reportNow: bool)
    ensures Tell(Finish(l, None, outcome, reportNow).log) == Tell(l.log)
  {
    hide Tell, FinishLog;
    if l.pending.Some? {
      FinishLogTold(l, l.pending.value, outcome.GetOr(NoPayload), reportNow);
    }
  }

  /** Settling a request with bytes pays it. */
  lemma PayTold(l: Link, payload: seq<byte>)
    requires l.pending.Some? && !l.pending.value.resolved && !l.pending.value.draining && !l.pending.value.reported
    ensures Tell(Finish(l, Some(payload), None, true).log) == Note(Tell(l.log), Resolved(Some(l.pending.value.id), Some(payload)))
  {
    hide Tell, ReportOf;
    var p := l.pending.value;
    var e := Resolved(Some(p.id), Some(payload));
    TellNext(l.log, e);
    ReportSilent(p, Payload, l.closeReason);
    TellWhen(l.log + [e] + [], true, ReportOf(p, Payload, l.closeReason));
    assert l.log + [e] + [] == l.log + [e];
  }

  /** The end a link comes to when it closes. */
  ghost predicate Ends(l: Link, r: Link, reason: Reason) {
    && r.closed && r.queue == [] && (l.active.None? ==> r.active.None?) && r.nextId == l.nextId && r.channelOpen == l.channelOpen
    && r.config == l.config && Tell(r.log) == Tell(l.log)
    && (if l.closed then r.closeReason == l.closeReason && r.pending == l.pending else r.closeReason == Some(reason) && r.pending.None?)
  }

  lemma ClosingEnds(l: Link, reason: Reason)
    requires !l.closed && l.queue == []
    ensures Ends(l, Closing(l, reason), reason)
  {
    hide Tell, Finish;
    var l1 := l.(closed := true, closeReason := Some(reason));
    FinishTold(l1, Some(CloseOutcome(reason)), true);
    FinishFields(l1, None, Some(CloseOutcome(reason)), true);
    TellNext(Finish(l1, None, Some(CloseOutcome(reason)), true).log, ClosedAs(reason));
  }

  /** A link with an empty queue closes without a word. */
  lemma CloseEnds(l: Link, reason: Reason)
    requires l.queue == []
    ensures Ends(l, Close(l, reason), reason)
  {
    hide Tell, Closing;
    if !l.closed {
      ClosingEnds(l, reason);
    }
  }

  // ---- the holder ----

  /** A holder with at most one upload, on an open channel. */
  predicate Ready(b: Link) {
    !b.closed && b.channelOpen && b.queue == []
  }

  /** The holder is at `h` and has said `items` more; it asks for what it asked for. */
  ghost predicate Turns(b: Link, r: Link, h: Holder, items: seq<Item>) {
    && Ready(r) && ViewOf(r) == h && r.config == b.config && r.closeReason == b.closeReason
    && r.pending == b.pending && r.nextId == b.nextId
    && Tell(r.log) == Tell(b.log).(items := Tell(b.log).items + items)
  }

  lemma SendTold(l: Link, f: Frame)
    requires MaySend(l)
    ensures Tell(Send(l, f).log) == Note(Tell(l.log), SendText(f))
  {
    TellNext(l.log, SendText(f));
  }

  lemma DeclineTurns(l: Link, u: Upload)
    requires Ready(l) && l.active.None?
    ensures Turns(l, Decline(l, u), Idle, [Text(Nothing(Some(u.id)))])
  {
    hide Tell;
    SendTold(l, Nothing(Some(u.id)));
  }

  lemma EndTurns(l: Link, now: nat, u: Upload, bytes: seq<byte>, sent: nat)
    requires Ready(l) && l.active.None?
    ensures Turns(l, EndResponse(l, now, u, bytes, sent), Idle, [Text(Eof(Some(u.id)))])
  {
    hide Tell;
    var l1 := l.(bytesOut := l.bytesOut + sent, lastServedAt := now);
    var l2 := if sent < |bytes| then Emit(l1, UploadCancelled(|bytes| - sent)) else l1;
    if sent < |bytes| {
      TellNext(l1.log, UploadCancelled(|bytes| - sent));
    }
    SendTold(l2, Eof(Some(u.id)));
  }

  /** Sending goes on to a cut of the response, and to its end unless it pauses. */
  lemma {:induction false} ChunksTurn(l: Link, now: nat, u: Upload, bytes: seq<byte>, sent: nat, resumed: bool)
      returns (out: nat, ended: bool)
    requires Ready(l) && l.active.None? && !u.cancelled && sent <= |bytes| && Aligned(sent, |bytes|)
    ensures sent <= out <= |bytes| && Aligned(out, |bytes|) && (if ended then out == |bytes| else out < |bytes|)
    ensures Turns(l, SendChunks(l, now, u, bytes, sent, resumed), After(u, bytes, out, ended),
                  Chunks(bytes, sent, out) + Whenever(ended, Text(Eof(Some(u.id)))))
    decreases |bytes| - sent
  {
    hide Tell, EndResponse;
    if sent >= |bytes| {
      out, ended := sent, true;
      EndTurns(l, now, u, bytes, sent);
      assert [] + [Text(Eof(Some(u.id)))] == [Text(Eof(Some(u.id)))];
    } else if !resumed && l.buffered > HIGH_WATER_BYTES {
      out, ended := sent, false;
    } else {
      var end := Min(sent + CHUNK_BYTES, |bytes|);
      var l1 := Emit(l.(buffered := l.buffered + (end - sent)), SendBinary(bytes[sent..end]));
      TellNext(l.log, SendBinary(bytes[sent..end]));
      out, ended := ChunksTurn(l1, now, u, bytes, end, false);
      ChunksGoOn(bytes, sent, out, Whenever(ended, Text(Eof(Some(u.id)))), Tell(l.log).items);
    }
  }

  lemma ChunksGoOn(bytes: seq<byte>, sent: nat, out: nat, last: seq<Item>, items: seq<Item>)
    requires sent < |bytes| && Aligned(sent, |bytes|) && Min(sent + CHUNK_BYTES, |bytes|) <= out <= |bytes| && Aligned(out, |bytes|)
    ensures var end := Min(sent + CHUNK_BYTES, |bytes|);
            items + [Bytes(bytes[sent..end])] + (Chunks(bytes, end, out) + last) == items + (Chunks(bytes, sent, out) + last)
  {
  }

  lemma RespondTurns(l: Link, now: nat, u: Upload, bytes: seq<byte>) returns (out: nat, ended: bool)
    requires Ready(l) && l.active.None?
    ensures out <= |bytes| && Aligned(out, |bytes|) && (if ended then out == |bytes| else out < |bytes|)
    ensures u.cancelled ==> Turns(l, Respond(l, now, u, bytes), Idle, [Text(Nothing(Some(u.id)))])
    ensures !u.cancelled ==>
      Turns(l, Respond(l, now, u, bytes), After(u, bytes, out, ended), StillComing(u.id, u.range, bytes, false, 0, out, ended))
  {
    hide Tell, SendChunks;
    if u.cancelled {
      out, ended := |bytes|, true;
      TellNext(l.log, UploadCancelled(|bytes|));
      DeclineTurns(Emit(l, UploadCancelled(|bytes|)), u);
    } else {
      var meta := Meta(Some(u.id), Some(|bytes|), FieldOf(u.range));
      SendTold(l, meta);
      out, ended := ChunksTurn(Send(l, meta), now, u, bytes, 0, false);
      assert Tell(l.log).items + [Text(meta)] + (Chunks(bytes, 0, out) + Whenever(ended, Text(Eof(Some(u.id)))))
          == Tell(l.log).items + StillComing(u.id, u.range, bytes, false, 0, out, ended);
    }
  }

  /** What the shell has for an upload when it answers with the whole object. */
  function Held(u: Upload, held: Option<seq<byte>>): Option<seq<byte>> {
    if held.None? || u.range.None? then held else Cut(held.value, u.range.value)
  }

  lemma ServeTurns(b: Link, now: nat, held: Option<seq<byte>>) returns (out: nat, ended: bool)
    requires Ready(b) && Awaiting(b)
    ensures var u := b.active.value.upload;
            if Held(u, held).None? || u.cancelled then Turns(b, Serve(b, now, held), Idle, [Text(Nothing(Some(u.id)))])
            else
              var bytes := Held(u, held).value;
              && out <= |bytes| && Aligned(out, |bytes|) && (if ended then out == |bytes| else out < |bytes|)
              && Turns(b, Serve(b, now, held), After(u, bytes, out, ended), StillComing(u.id, u.range, bytes, false, 0, out, ended))
  {
    hide Tell, Respond, Decline, StillComing, Cut;
    var u, l1 := b.active.value.upload, b.(clock := now, active := None);
    out, ended := 0, false;
    DeclineTurns(l1, u);
    if Held(u, held).Some? {
      out, ended := RespondTurns(l1, now, u, Held(u, held).value);
    }
  }

  /** The shell answers with the bytes of the range only: it is declined, or
      goes as if the whole object had been there. */
  lemma ServeOnlyTurns(b: Link, now: nat, whole: seq<byte>, bytes: seq<byte>) returns (out: nat, ended: bool, declined: bool)
    requires Ready(b) && Awaiting(b)
    requires var u := b.active.value.upload; u.range.Some? && Cut(whole, u.range.value).Some? ==> bytes == Cut(whole, u.range.value).value
    ensures var u := b.active.value.upload;
            if declined || u.cancelled then Turns(b, ServeOnly(b, now, |whole|, bytes), Idle, [Text(Nothing(Some(u.id)))])
            else
              && Held(u, Some(whole)) == Some(bytes)
              && out <= |bytes| && Aligned(out, |bytes|) && (if ended then out == |bytes| else out < |bytes|)
              && Turns(b, ServeOnly(b, now, |whole|, bytes), After(u, bytes, out, ended),
                       StillComing(u.id, u.range, bytes, false, 0, out, ended))
  {
    hide Tell, Respond, Decline, StillComing, RangeBytes;
    var u, l1 := b.active.value.upload, b.(clock := now, active := None);
    out, ended := 0, false;
    DeclineTurns(l1, u);
    declined := !(u.range.Some? && |whole| <= b.config.maxSegmentBytes && CutLength(|whole|, u.range.value) == Some(|bytes|));
    if !declined {
      out, ended := RespondTurns(l1, now, u, bytes);
    }
  }

  lemma LowTurns(b: Link, now: nat, amount: nat) returns (out: nat, ended: bool)
    requires Ready(b) && Paused(b) && !b.active.value.upload.cancelled
    requires var s := b.active.value.stage; s.sent <= |s.bytes| && Aligned(s.sent, |s.bytes|)
    ensures var u, s := b.active.value.upload, b.active.value.stage;
            && s.sent <= out <= |s.bytes| && Aligned(out, |s.bytes|) && (if ended then out == |s.bytes| else out < |s.bytes|)
            && Turns(b, Low(b, now, amount), After(u, s.bytes, out, ended),
                     Chunks(s.bytes, s.sent, out) + Whenever(ended, Text(Eof(Some(u.id)))))
  {
    hide Tell, SendChunks;
    var u, s := b.active.value.upload, b.active.value.stage;
    out, ended := ChunksTurn(b.(clock := now, buffered := amount, active := None), now, u, s.bytes, s.sent, true);
  }

  /** A holder takes a proper want when it is idle, and any cancel. */
  lemma HearsTurns(b: Link, now: nat, f: Frame)
    requires Ready(b) && Inv(b, None) && b.config.maxQueued >= 1
    requires (f.CancelWant? && f.id.Some?) || (ProperWant(f) && ViewOf(b).Idle?)
    ensures Turns(b, OnText(b, now, f), Hears(ViewOf(b), f).0, Hears(ViewOf(b), f).1)
  {
    hide Tell, SendChunks, Base, Serving;
    var l := b.(clock := now);
    if f.CancelWant? {
      CancelTurns(l, now, f.id.value);
    } else {
      WantTurns(l, f);
    }
  }

  lemma WantTurns(l: Link, f: Frame)
    requires Ready(l) && l.active.None? && l.inFlight == 0 && l.config.maxQueued >= 1 && ProperWant(f)
    ensures Turns(l, OnWant(l, f.id, f.key, f.range), Hears(Idle, f).0, [])
  {
    hide Tell;
    var u := Upload(f.id.value, f.key.value, false, if f.range.Exactly? then Some(f.range.range) else None);
    var e := if u.range.Some? then ServeRange(u.key, u.range.value) else ServeRequest(u.key);
    var l1 := l.(inFlight := l.inFlight + 1, queue := l.queue + [u], past := l.past.(accepted := l.past.accepted + [f.id.value]));
    assert l1.queue == [u] && [u][1..] == [];
    assert StartNext(l1) == StartOne(l1);
    TellNext(l.log, e);
  }

  lemma CancelTurns(l: Link, now: nat, id: int)
    requires Ready(l) && (Paused(l) ==> l.active.value.stage.sent < |l.active.value.stage.bytes|)
    ensures Turns(l, OnCancel(l, now, Some(id)), Hears(ViewOf(l), CancelWant(Some(id))).0, Hears(ViewOf(l), CancelWant(Some(id))).1)
  {
    hide Tell, EndResponse;
    assert Mark(l.queue, id) == [];
    if Paused(l) && l.active.value.upload.id == id {
      var u, s := MarkOne(l.active.value.upload, id), l.active.value.stage;
      EndTurns(l.(queue := [], active := None), now, u, s.bytes, s.sent);
      assert SendChunks(l.(queue := [], active := None), now, u, s.bytes, s.sent, true)
          == EndResponse(l.(queue := [], active := None), now, u, s.bytes, s.sent);
    }
  }

  /** A paused response that waited too long ends the link. */
  lemma UploadEnds(l: Link)
    requires Paused(l) && l.queue == [] && !l.closed
    ensures Ends(l, FinishUpload(Close(l.(active := None), UploadDrainTimeout)), UploadDrainTimeout)
  {
    hide Tell, Close;
    CloseEnds(l.(active := None), UploadDrainTimeout);
  }

  /** What no answer of the shell changes, whether or not the link is open. */
  ghost predicate Stays(b: Link, r: Link) {
    && r.pending == b.pending && r.nextId == b.nextId && r.queue == [] && r.closed == b.closed && r.closeReason == b.closeReason
    && r.config == b.config && Tell(r.log).paid == Tell(b.log).paid
    && r.channelOpen == b.channelOpen && Tell(b.log).items <= Tell(r.log).items && (b.closed ==> Tell(r.log) == Tell(b.log))
  }

  lemma SendStays(l: Link, f: Frame)
    requires l.queue == []
    ensures Stays(l, FinishUpload(Send(l, f)))
  {
    hide Tell;
    if MaySend(l) {
      SendTold(l, f);
    }
  }

  lemma EndStays(l: Link, now: nat, u: Upload, bytes: seq<byte>, sent: nat)
    requires l.queue == []
    ensures Stays(l, EndResponse(l, now, u, bytes, sent))
  {
    hide Tell, FinishUpload, Send;
    var l1 := l.(bytesOut := l.bytesOut + sent, lastServedAt := now);
    var l2 := if sent < |bytes| then Emit(l1, UploadCancelled(|bytes| - sent)) else l1;
    if sent < |bytes| {
      TellNext(l1.log, UploadCancelled(|bytes| - sent));
    }
    SendStays(l2, Eof(Some(u.id)));
  }

  lemma {:induction false} ChunksStay(l: Link, now: nat, u: Upload, bytes: seq<byte>, sent: nat, resumed: bool)
    requires l.queue == []
    ensures Stays(l, SendChunks(l, now, u, bytes, sent, resumed))
    decreases |bytes| - sent
  {
    hide Tell, EndResponse;
    if sent >= |bytes| {
      EndStays(l, now, u, bytes, sent);
    } else if !l.closed && !(!resumed && l.buffered > HIGH_WATER_BYTES) {
      if u.cancelled {
        EndStays(l, now, u, bytes, sent);
      } else {
        var end := Min(sent + CHUNK_BYTES, |bytes|);
        TellNext(l.log, SendBinary(bytes[sent..end]));
        ChunksStay(Emit(l.(buffered := l.buffered + (end - sent)), SendBinary(bytes[sent..end])), now, u, bytes, end, false);
      }
    }
  }

  lemma RespondStays(l: Link, now: nat, u: Upload, bytes: seq<byte>)
    requires l.queue == []
    ensures Stays(l, Respond(l, now, u, bytes))
  {
    hide Tell, SendChunks, FinishUpload;
    if u.cancelled {
      TellNext(l.log, UploadCancelled(|bytes|));
      SendStays(Emit(l, UploadCancelled(|bytes|)), Nothing(Some(u.id)));
    } else if MaySend(l) {
      SendTold(l, Meta(Some(u.id), Some(|bytes|), FieldOf(u.range)));
      ChunksStay(Send(l, Meta(Some(u.id), Some(|bytes|), FieldOf(u.range))), now, u, bytes, 0, false);
    } else {
      FinishEmpty(l);
    }
  }

  lemma FinishEmpty(l: Link)
    requires l.queue == []
    ensures FinishUpload(l) == l.(inFlight := Fewer(l.inFlight))
  {
  }

  lemma ServeStays(b: Link, now: nat, held: Option<seq<byte>>, objectSize: nat, bytes: seq<byte>, amount: nat)
    requires b.queue == []
    ensures Stays(b, Serve(b, now, held)) && Stays(b, ServeOnly(b, now, objectSize, bytes)) && Stays(b, Low(b, now, amount))
  {
    hide Tell, Respond, SendChunks, FinishUpload, Send, CutLength, Cut;
    if b.active.Some? {
      var u, l1 := b.active.value.upload, b.(clock := now, active := None);
      SendStays(l1, Nothing(Some(u.id)));
      RespondStays(l1, now, u, bytes);
      if Held(u, held).Some? {
        RespondStays(l1, now, u, Held(u, held).value);
      }
      if Paused(b) {
        var s := b.active.value.stage;
        ChunksStay(l1.(buffered := amount), now, u, s.bytes, s.sent, true);
      }
    }
  }

  // ---- the requester ----

  /** A requester that serves at most one upload. */
  predicate Asker(a: Link) {
    !a.closed && a.queue == []
  }

  /** The requester is at `pending` and has said `items` more; nothing is paid, and
      it serves what it served. */
  ghost predicate Moves(a: Link, r: Link, nextId: nat, pending: Option<Pending>, items: seq<Item>) {
    && Asker(r) && r.nextId == nextId && r.pending == pending && r.channelOpen == a.channelOpen && r.config == a.config
    && ViewOf(r) == ViewOf(a)
    && r.closeReason == a.closeReason && Tell(r.log) == Tell(a.log).(items := Tell(a.log).items + items)
  }

  lemma RefuseMoves(l: Link)
    ensures var r := Refuse(l); r == l.(log := r.log) && Tell(r.log) == Tell(l.log)
  {
    hide Tell;
    var e := Report(None, if l.closed then Closed else Busy, 0, false, false, l.closeReason);
    TellNext(l.log, Resolved(None, None));
    TellNext(l.log + [Resolved(None, None)], e);
  }

  lemma AskMoves(l: Link, p: Pending, key: Key)
    requires Asker(l) && l.pending.None? && p.id == l.nextId
    ensures l.channelOpen ==> Moves(l, Ask(l, p, key), l.nextId + 1, Some(p), [WantItem(p.id, Wanted(key, p.range))])
    ensures !l.channelOpen ==> Moves(l, Ask(l, p, key), l.nextId + 1, None, [])
  {
    hide Tell, Finish;
    var l1 := Started(l, p);
    if l.channelOpen {
      SendTold(l1, Want(Some(p.id), Some(key), FieldOf(p.range)));
    } else {
      FinishTold(l1, Some(SendFailed), true);
      FinishFields(l1, None, Some(SendFailed), true);
    }
  }

  lemma DrainMoves(l: Link, p: Pending, o: Outcome)
    requires Asker(l) && l.channelOpen
    ensures Moves(l, AbandonDraining(l, p, o), l.nextId, Some(p.(cancelled := true)), [Text(CancelWant(Some(p.id)))])
  {
    hide Tell, ReportOf;
    var e := ReportOf(p, o, l.closeReason);
    ReportSilent(p, o, l.closeReason);
    TellNext(l.log, Resolved(Some(p.id), None));
    TellNext(l.log + [Resolved(Some(p.id), None)], e);
    var l1 := TellDraining(l, p, o);
    SendTold(l1.(pending := Some(p.(cancelled := true))), CancelWant(Some(p.id)));
  }

  lemma AbandonEnds(l: Link, p: Pending, reason: Reason, o: Outcome)
    requires Asker(l)
    ensures Ends(l, AbandonClosing(l, p, reason, o), reason)
  {
    hide Tell, Finish, Close, ReportOf;
    FinishTold(l, Some(o), false);
    FinishFields(l, None, Some(o), false);
    var l1 := Finish(l, None, Some(o), false);
    CloseEnds(l1, reason);
    var e := ReportOf(p, o, Close(l1, reason).closeReason);
    ReportSilent(p, o, Close(l1, reason).closeReason);
    TellNext(Close(l1, reason).log, e);
  }

  /** Giving a request up closes the link, or asks the holder to stop. */
  lemma AbandonMoves(l: Link, now: nat, reason: Reason, abandoned: bool)
    requires Asker(l) && l.pending.Some?
    ensures var p, r := l.pending.value, Abandon(l, now, reason, abandoned);
            || Ends(l, r, reason)
            || (l.channelOpen && Moves(l, r, l.nextId, Some(DrainingOne(l, p, now, reason).(cancelled := true)), [Text(CancelWant(Some(p.id)))]))
  {
    hide Tell, AbandonClosing, AbandonDraining, Ends, Moves;
    var p, o := l.pending.value, AbandonOutcome(reason, abandoned);
    AbandonEnds(l, p, reason, o);
    if l.channelOpen {
      DrainMoves(l, DrainingOne(l, p, now, reason), o);
    }
  }

  lemma MetaMoves(a: Link, now: nat, n: nat, range: RangeField)
    requires Asker(a) && a.pending.Some? && a.pending.value.size.None? && 1 <= n <= a.config.maxSegmentBytes
    requires range == FieldOf(a.pending.value.range) && (a.pending.value.expected.Some? ==> n == a.pending.value.expected.value)
    ensures var p := a.pending.value;
            Moves(a, OnText(a, now, Meta(Some(p.id), Some(n), range)), a.nextId, Some(p.(size := Some(n))), [])
  {
    hide Tell;
  }

  lemma ChunkMoves(a: Link, now: nat, chunk: seq<byte>)
    requires Asker(a) && a.pending.Some? && a.pending.value.size.Some? && 1 <= |chunk| <= CHUNK_BYTES
    requires a.pending.value.chunks < MaxChunks(a.config) && a.pending.value.received + |chunk| <= a.pending.value.size.value
    ensures Moves(a, OnBinary(a, now, chunk), a.nextId, Some(WithChunk(a.pending.value, chunk)), [])
  {
    hide Tell, MaxChunks;
    var p := a.pending.value;
    TellNext(a.log, ProgressTo(p.received + |chunk|, p.size.value));
  }

  lemma NothingMoves(a: Link, now: nat)
    requires Asker(a) && a.pending.Some? && a.pending.value.size.None?
    ensures Moves(a, OnText(a, now, Nothing(Some(a.pending.value.id))), a.nextId, None, [])
  {
    hide Tell, Finish;
    FinishTold(a.(clock := now), None, true);
    FinishFields(a.(clock := now), None, None, true);
  }

  lemma CancelledMoves(a: Link, now: nat)
    requires Asker(a) && a.pending.Some? && a.pending.value.size.Some? && a.pending.value.cancelled
    ensures Moves(a, OnText(a, now, Eof(Some(a.pending.value.id))), a.nextId, None, [])
  {
    hide Tell, Finish;
    FinishTold(a.(clock := now), None, true);
    FinishFields(a.(clock := now), None, None, true);
  }

  /** A complete response is paid in full. */
  lemma PaidMoves(a: Link, now: nat)
    requires Asker(a) && a.pending.Some?
    requires var p := a.pending.value;
             p.size == Some(p.received) && !p.cancelled && !p.draining && !p.resolved && !p.reported
    ensures var p, r := a.pending.value, OnText(a, now, Eof(Some(a.pending.value.id)));
            && Asker(r) && r.nextId == a.nextId && r.pending.None? && r.channelOpen == a.channelOpen && r.config == a.config
            && ViewOf(r) == ViewOf(a)
            && r.closeReason == a.closeReason && Tell(r.log) == Note(Tell(a.log), Resolved(Some(p.id), Some(p.parts)))
  {
    hide Tell, Finish;
    var p := a.pending.value;
    var l := a.(clock := now, pending := Some(p.(parts := [])));
    PayTold(l, p.parts);
    FinishFields(l, Some(p.parts), None, true);
  }

  /** A closed link only takes note of the time. */
  lemma ClosedHears(l: Link, now: nat, f: Frame, chunk: seq<byte>)
    requires l.closed
    ensures OnText(l, now, f) == l.(clock := now) && OnBinary(l, now, chunk) == l.(clock := now)
  {
  }
}

/** What a link keeps over every run of its inputs: the grammar of its responses,
    the conservation of uploads and bytes, and one outcome for each request. */
module LinkRuns {
  import opened Wrappers
  import opened Pieces
  import opened LinkStates

  // ---- the requester's side ----

  function Flatten(chunks: seq<seq<byte>>): seq<byte>
    decreases |chunks|
  {
    if chunks == [] then [] else Flatten(chunks[..|chunks| - 1]) + chunks[|chunks| - 1]
  }

  lemma FlattenNext(chunks: seq<seq<byte>>, chunk: seq<byte>)
    ensures Flatten(chunks + [chunk]) == Flatten(chunks) + chunk
  {
    assert (chunks + [chunk])[..|chunks|] == chunks;
  }

  /** The requests of a link: the next ID, the one in progress, what was heard for
      each of them, and the largest response that it takes. */
  datatype Side = Side(nextId: nat, pending: Option<Pending>, hearings: map<nat, Hearing>, limit: nat)

  function SideOf(l: Link): Side {
    Side(l.nextId, l.pending, l.past.hearings, l.config.maxSegmentBytes)
  }

  /** The request in progress agrees with what was heard for it. */
  predicate PendingOk(a: Side, p: Pending) {
    && 1 <= p.id < a.nextId && p.resolved == p.reported == p.draining && (p.cancelled ==> p.draining)
    && (p.size.None? ==> p.received == 0)
    && (p.size.Some? ==> 1 <= p.size.value <= a.limit && p.received <= p.size.value)
    && (p.size.Some? && p.expected.Some? ==> p.size == p.expected)
    && p.id in a.hearings && a.hearings[p.id].expected == p.expected && a.hearings[p.id].size == p.size
    && (if p.draining then p.parts == [] else p.parts == Flatten(a.hearings[p.id].chunks) && |p.parts| == p.received)
  }

  predicate IsPending(a: Side, id: nat) {
    a.pending.Some? && a.pending.value.id == id
  }

  function Once(c: bool): nat {
    if c then 1 else 0
  }

  /** One `Resolved` and one `Report` for a request that is over, none for another;
      `owed` is a request whose report is about to come. */
  predicate CountedAt(a: Side, s: Account, owed: Option<nat>, id: nat) {
    && s.resolved[id] == Once(1 <= id < a.nextId && (!IsPending(a, id) || a.pending.value.resolved))
    && s.reported[id] == Once(1 <= id < a.nextId && (!IsPending(a, id) || a.pending.value.reported) && owed != Some(id))
  }

  /** The payload is what was heard: all the chunks since the `meta`, of the size
      that it announced and that was expected. */
  predicate Faithful(h: Hearing, payload: seq<byte>) {
    payload == Flatten(h.chunks) && h.size == Some(|payload|) && (h.expected.Some? ==> h.expected == Some(|payload|))
  }

  /** A request that was resolved with bytes is over, and they are faithful. */
  predicate PaymentOk(a: Side, pay: Payment) {
    pay.id < a.nextId && !IsPending(a, pay.id) && pay.id in a.hearings && Faithful(a.hearings[pay.id], pay.bytes)
  }

  ghost predicate SideOk(a: Side, s: Account, owed: Option<nat>) {
    && 1 <= a.nextId && (owed.Some? ==> a.pending.None? && 1 <= owed.value < a.nextId)
    && (a.pending.Some? ==> PendingOk(a, a.pending.value))
    && (forall id: nat :: CountedAt(a, s, owed, id))
    && (forall pay :: pay in s.paid ==> PaymentOk(a, pay))
  }

  /** A new request. */
  lemma SideAsks(a: Side, s: Account, p: Pending)
    requires SideOk(a, s, None) && a.pending.None? && p.id == a.nextId && p.size.None? && p.received == 0 && p.parts == []
    requires !p.resolved && !p.reported && !p.draining && !p.cancelled
    ensures SideOk(a.(nextId := a.nextId + 1, pending := Some(p), hearings := a.hearings[p.id := Hearing(p.expected, None, [])]), s, None)
  {
    hide Faithful;
    var a' := a.(nextId := a.nextId + 1, pending := Some(p), hearings := a.hearings[p.id := Hearing(p.expected, None, [])]);
    forall id: nat ensures CountedAt(a', s, None, id) {
      assert CountedAt(a, s, None, id);
    }
    forall pay | pay in s.paid ensures PaymentOk(a', pay) {
      assert PaymentOk(a, pay);
    }
  }

  /** The request in progress hears something. */
  lemma SideHears(a: Side, s: Account, p: Pending, hearing: Hearing)
    requires SideOk(a, s, None) && a.pending.Some? && p.id == a.pending.value.id
    requires p.resolved == a.pending.value.resolved && p.reported == a.pending.value.reported
    requires PendingOk(a.(pending := Some(p), hearings := a.hearings[p.id := hearing]), p)
    ensures SideOk(a.(pending := Some(p), hearings := a.hearings[p.id := hearing]), s, None)
  {
    hide PendingOk, Faithful;
    var a' := a.(pending := Some(p), hearings := a.hearings[p.id := hearing]);
    forall id: nat ensures CountedAt(a', s, None, id) {
      assert CountedAt(a, s, None, id);
    }
    forall pay | pay in s.paid ensures PaymentOk(a', pay) {
      assert PaymentOk(a, pay);
    }
  }

  /** What is told of a request that is settled. */
  function SettledAccount(s: Account, p: Pending, payload: Option<seq<byte>>, reportNow: bool): Account {
    var s1 := if p.resolved then s else Settled(s, p.id, payload);
    if reportNow && !p.reported then Reported(s1, p.id) else s1
  }

  /** The request in progress is settled; its report is owed if it is not given. */
  lemma SideSettles(a: Side, s: Account, payload: Option<seq<byte>>, reportNow: bool)
    requires SideOk(a, s, None) && a.pending.Some?
    requires payload.Some? && !a.pending.value.resolved ==> Faithful(a.hearings[a.pending.value.id], payload.value)
    ensures var p := a.pending.value;
            SideOk(a.(pending := None), SettledAccount(s, p, payload, reportNow), if reportNow || p.reported then None else Some(p.id))
  {
    hide Faithful;
    var p, a' := a.pending.value, a.(pending := None);
    var s', owed := SettledAccount(s, p, payload, reportNow), if reportNow || p.reported then None else Some(p.id);
    forall id: nat ensures CountedAt(a', s', owed, id) {
      assert CountedAt(a, s, None, id);
    }
    forall pay | pay in s'.paid ensures PaymentOk(a', pay) {
      assert pay in s.paid ==> PaymentOk(a, pay);
    }
  }

  /** The request in progress is given up, resolved and reported, and drained. */
  lemma SideDrains(a: Side, s: Account, p: Pending)
    requires SideOk(a, s, None) && a.pending.Some? && !a.pending.value.draining
    requires p == a.pending.value.(draining := true, parts := [], abandonReason := p.abandonReason, resolved := true, reported := true,
                                   deadline := p.deadline, timer := p.timer, cancelled := p.cancelled)
    ensures SideOk(a.(pending := Some(p)), Reported(Settled(s, p.id, None), p.id), None)
  {
    hide Faithful;
    var a', s' := a.(pending := Some(p)), Reported(Settled(s, p.id, None), p.id);
    forall id: nat ensures CountedAt(a', s', None, id) {
      assert CountedAt(a, s, None, id);
    }
    forall pay | pay in s'.paid ensures PaymentOk(a', pay) {
      assert PaymentOk(a, pay);
    }
  }

  /** The report that was owed is given. */
  lemma SideReports(a: Side, s: Account, id: nat)
    requires SideOk(a, s, Some(id))
    ensures SideOk(a, Reported(s, id), None)
  {
    hide PendingOk, PaymentOk;
    forall i: nat ensures CountedAt(a, Reported(s, id), None, i) {
      assert CountedAt(a, s, Some(id), i);
    }
  }

  // ---- the invariant ----

  ghost predicate Base(l: Link, owed: Option<nat>) {
    && Shape(l) && SideOk(SideOf(l), SummaryOf(l.log).account, owed)
    && SummaryOf(l.log).closed == l.closed && !SummaryOf(l.log).late
    && (!l.channelOpen ==> l.past.shut)
  }

  function Ids(queue: seq<Upload>): seq<int> {
    seq(|queue|, k requires 0 <= k < |queue| => queue[k].id)
  }

  /** The link still answers everything it hears. */
  predicate Intact(l: Link) {
    !l.closed && !l.past.shut
  }

  /** The response stream is `stream`, `first` are the uploads before the queue,
      and `sent` bytes of the current one are not yet counted. */
  ghost predicate Serving(l: Link, stream: Stream, first: seq<int>, sent: nat) {
    Intact(l) ==>
      && SummaryOf(l.log).stream == stream
      && SummaryOf(l.log).done + first + Ids(l.queue) == l.past.accepted
      && l.bytesOut + sent == SummaryOf(l.log).chunkBytes
  }

  ghost predicate ActiveOk(l: Link) {
    match l.active
    case None => l.queue == [] && Serving(l, Quiet, [], 0)
    case Some(Active(u, AwaitingBytes)) => Serving(l, Quiet, [u.id], 0)
    case Some(Active(u, Draining(bytes, sent, _, _))) => sent < |bytes| && Serving(l, Responding(u.id, |bytes|, sent, 0), [u.id], sent)
  }

  ghost predicate Inv(l: Link, owed: Option<nat>) {
    && Base(l, owed) && ActiveOk(l)
    && l.inFlight == |l.queue| + Once(l.active.Some?) <= l.config.maxQueued
  }

  /** An upload has been taken up; `stream` is where its response stands. */
  ghost predicate InHand(l: Link, owed: Option<nat>, stream: Stream, first: seq<int>, sent: nat) {
    && Base(l, owed) && l.active.None? && l.inFlight == |l.queue| + 1 <= l.config.maxQueued
    && Serving(l, stream, first, sent)
  }

  lemma NewLinkOk(config: Config, reliable: bool, now: nat)
    ensures Inv(NewLink(config, reliable, now), None)
  {
    var l := NewLink(config, reliable, now);
    forall id: nat ensures CountedAt(SideOf(l), SummaryOf(l.log).account, None, id) {
    }
  }

  // ---- what happened is told once ----

  predicate Quietly(e: Event) {
    e.Resolved? || e.Report? || e.ScheduleChanged? || e.ProgressTo?
  }

  /** What an event says of the requests. */
  function Entered(a: Account, e: Event): Account {
    match e
    case Resolved(Some(id), payload) => Settled(a, id, payload)
    case Report(Some(id), _, _, _, _, _) => Reported(a, id)
    case _ => a
  }

  /** Events that are no frames and end nothing leave the response stream alone. */
  lemma SumWhen(log: seq<Event>, c: bool, e: Event)
    requires Quietly(e)
    ensures SummaryOf(log + When(c, e)) == SummaryOf(log).(account := if c then Entered(SummaryOf(log).account, e) else SummaryOf(log).account)
  {
    if c {
      SumNext(log, e);
    } else {
      assert log + [] == log;
    }
  }

  lemma SumFinish(l: Link, p: Pending, payload: Option<seq<byte>>, o: Outcome, reportNow: bool)
    ensures SummaryOf(FinishLog(l, p, payload, o, reportNow)) == SummaryOf(l.log).(account := SettledAccount(SummaryOf(l.log).account, p, payload, reportNow))
  {
    hide SummaryOf, When;
    var a, b := When(!p.resolved, Resolved(Some(p.id), payload)), When(p.draining && !l.closed, ScheduleChanged);
    SumWhen(l.log, !p.resolved, Resolved(Some(p.id), payload));
    SumWhen(l.log + a, p.draining && !l.closed, ScheduleChanged);
    SumWhen(l.log + a + b, reportNow && !p.reported, ReportOf(p, o, l.closeReason));
  }

  /** What the pending request may be settled with. */
  predicate MaySettle(l: Link, payload: Option<seq<byte>>) {
    payload.Some? && l.pending.Some? && !l.pending.value.resolved ==>
      l.pending.value.id in l.past.hearings && Faithful(l.past.hearings[l.pending.value.id], payload.value)
  }

  /** Settling keeps the books, and owes a report if it gives none. */
  lemma FinishBase(l: Link, payload: Option<seq<byte>>, outcome: Option<Outcome>, reportNow: bool)
    requires Base(l, None) && l.pending.Some? && MaySettle(l, payload)
    ensures Base(Finish(l, payload, outcome, reportNow),
                 if reportNow || l.pending.value.reported then None else Some(l.pending.value.id))
    ensures SameServing(l, Finish(l, payload, outcome, reportNow))
  {
    hide FinishLog, SummaryOf, SideOk, SettledAccount;
    var o := outcome.GetOr(if payload.Some? then Payload else NoPayload);
    SumFinish(l, l.pending.value, payload, o, reportNow);
    SideSettles(SideOf(l), SummaryOf(l.log).account, payload, reportNow);
  }

  /** The uploads and their books are untouched. */
  ghost predicate SameServing(l: Link, l': Link) {
    && l'.queue == l.queue && l'.active == l.active && l'.inFlight == l.inFlight && l'.past.accepted == l.past.accepted
    && l'.bytesOut == l.bytesOut && l'.config == l.config && (Intact(l') ==> Intact(l))
    && SummaryOf(l'.log).stream == SummaryOf(l.log).stream && SummaryOf(l'.log).done == SummaryOf(l.log).done
    && SummaryOf(l'.log).chunkBytes == SummaryOf(l.log).chunkBytes
  }

  lemma SameServingKeeps(l: Link, l': Link, owed: Option<nat>, owed': Option<nat>)
    requires Inv(l, owed) && SameServing(l, l') && Base(l', owed')
    ensures Inv(l', owed')
  {
    hide Base, SummaryOf;
  }

  lemma FinishKeeps(l: Link, payload: Option<seq<byte>>, outcome: Option<Outcome>)
    requires Inv(l, None) && MaySettle(l, payload)
    ensures Inv(Finish(l, payload, outcome, true), None)
  {
    hide Base, Finish, ActiveOk, MaySettle;
    if l.pending.Some? {
      FinishBase(l, payload, outcome, true);
      SameServingKeeps(l, Finish(l, payload, outcome, true), None, None);
    } else {
      FinishNothing(l, payload, outcome, true);
    }
  }

  lemma FinishNothing(l: Link, payload: Option<seq<byte>>, outcome: Option<Outcome>, reportNow: bool)
    requires l.pending.None?
    ensures Finish(l, payload, outcome, reportNow) == l
  {
  }

  // ---- serving ----

  lemma IdsTail(queue: seq<Upload>)
    requires queue != []
    ensures Ids(queue) == [queue[0].id] + Ids(queue[1..])
  {
  }

  lemma IdsSnoc(queue: seq<Upload>, u: Upload)
    ensures Ids(queue + [u]) == Ids(queue) + [u.id]
  {
  }

  lemma IdsMark(queue: seq<Upload>, id: int)
    ensures Ids(Mark(queue, id)) == Ids(queue)
  {
  }

  /** The requester's side is untouched, and so is what was told of it. */
  ghost predicate SameAsking(l: Link, l': Link) {
    && l'.pending == l.pending && l'.nextId == l.nextId && l'.closed == l.closed && l'.channelOpen == l.channelOpen && l'.past == l.past
    && l'.config == l.config && SummaryOf(l'.log).account == SummaryOf(l.log).account
    && SummaryOf(l'.log).closed == SummaryOf(l.log).closed && SummaryOf(l'.log).late == SummaryOf(l.log).late
  }

  lemma SameAskingKeeps(l: Link, l': Link, owed: Option<nat>)
    requires Base(l, owed) && SameAsking(l, l') && (l'.closed ==> !Paused(l'))
    ensures Base(l', owed)
  {
    hide SummaryOf, SideOk;
  }

  /** A cancelled count or a response frame, sent while the link may send. */
  lemma ServeEvent(l: Link, owed: Option<nat>, e: Event)
    requires Base(l, owed) && (e.UploadCancelled? || e.ServeRequest? || e.ServeRange? || MaySend(l))
    requires e.UploadCancelled? || e.ServeRequest? || e.ServeRange? || e.SendText? || e.SendBinary?
    ensures SameAsking(l, Emit(l, e)) && Base(Emit(l, e), owed)
    ensures SummaryOf(Emit(l, e).log) == Summarize(SummaryOf(l.log), e)
  {
    hide SummaryOf;
    SumNext(l.log, e);
  }

  lemma {:induction false} StartNextKeeps(l: Link, owed: Option<nat>)
    requires Base(l, owed) && l.active.None? && l.inFlight == |l.queue| <= l.config.maxQueued && Serving(l, Quiet, [], 0)
    ensures Inv(StartNext(l), owed)
    decreases |l.queue|
  {
    hide Base, SummaryOf, Ids;
    if l.queue != [] {
      var u, l1 := l.queue[0], l.(queue := l.queue[1..]);
      IdsTail(l.queue);
      SameAskingKeeps(l, l1, owed);
      assert SummaryOf(l.log).done + [] + ([u.id] + Ids(l1.queue)) == SummaryOf(l.log).done + [u.id] + Ids(l1.queue);
      if u.cancelled {
        var l2 := Emit(l1, UploadCancelled(0));
        ServeEvent(l1, owed, UploadCancelled(0));
        var l3 := Send(l2, Nothing(Some(u.id))).(inFlight := l.inFlight - 1);
        SendServes(l2, owed, Nothing(Some(u.id)));
        SameAskingKeeps(l2, l3, owed);
        NothingServes(l2, u.id);
        StartNextKeeps(l3, owed);
      } else if l.closed {
        SameAskingKeeps(l1, l1.(inFlight := l.inFlight - 1), owed);
        StartNextKeeps(l1.(inFlight := l.inFlight - 1), owed);
      } else {
        var e := if u.range.Some? then ServeRange(u.key, u.range.value) else ServeRequest(u.key);
        ServeEvent(l1, owed, e);
        SameAskingKeeps(Emit(l1, e), Emit(l1, e).(active := Some(Active(u, AwaitingBytes))), owed);
      }
    } else {
      assert StartNext(l) == l;
    }
  }

  lemma SendServes(l: Link, owed: Option<nat>, f: Frame)
    requires Base(l, owed)
    ensures SameAsking(l, Send(l, f)) && Base(Send(l, f), owed)
    ensures MaySend(l) ==> SummaryOf(Send(l, f).log) == Summarize(SummaryOf(l.log), SendText(f))
  {
    if MaySend(l) {
      ServeEvent(l, owed, SendText(f));
    }
  }

  /** A declined upload is done. */
  lemma NothingServes(l: Link, id: int)
    requires Serving(l, Quiet, [id], 0) && (Intact(l) ==> MaySend(l))
    ensures Serving(Send(l, Nothing(Some(id))), Quiet, [], 0)
  {
    hide SummaryOf;
    if MaySend(l) {
      SumNext(l.log, SendText(Nothing(Some(id))));
      assert SummaryOf(l.log).done + [id] + [] == SummaryOf(l.log).done + [id];
    }
  }

  lemma FinishUploadKeeps(l: Link, owed: Option<nat>)
    requires InHand(l, owed, Quiet, [], 0)
    ensures Inv(FinishUpload(l), owed)
  {
    hide Base, SummaryOf;
    var l1 := l.(inFlight := l.inFlight - 1);
    SameAskingKeeps(l, l1, owed);
    StartNextKeeps(l1, owed);
  }

  lemma EndResponseKeeps(l: Link, now: nat, u: Upload, bytes: seq<byte>, sent: nat, owed: Option<nat>)
    requires InHand(l, owed, Responding(u.id, |bytes|, sent, 0), [u.id], sent) && sent <= |bytes|
    ensures Inv(EndResponse(l, now, u, bytes, sent), owed)
  {
    hide Base, SummaryOf, StartNext;
    var l1 := l.(bytesOut := l.bytesOut + sent, lastServedAt := now);
    SameAskingKeeps(l, l1, owed);
    var l2 := if sent < |bytes| then Emit(l1, UploadCancelled(|bytes| - sent)) else l1;
    if sent < |bytes| {
      ServeEvent(l1, owed, UploadCancelled(|bytes| - sent));
    }
    SendServes(l2, owed, Eof(Some(u.id)));
    var l3 := Send(l2, Eof(Some(u.id)));
    assert Serving(l3, Quiet, [], 0) by {
      assert SummaryOf(l.log).done + [u.id] + [] == SummaryOf(l.log).done + [u.id];
      BaseOpen(l, owed);
    }
    FinishUploadKeeps(l3, owed);
  }

  lemma BaseOpen(l: Link, owed: Option<nat>)
    requires Base(l, owed)
    ensures Intact(l) ==> MaySend(l)
  {
  }

  lemma {:induction false} SendChunksKeeps(l: Link, now: nat, u: Upload, bytes: seq<byte>, sent: nat, resumed: bool, owed: Option<nat>)
    requires InHand(l, owed, Responding(u.id, |bytes|, sent, 0), [u.id], sent) && sent <= |bytes| && !l.closed
    ensures Inv(SendChunks(l, now, u, bytes, sent, resumed), owed)
    decreases |bytes| - sent
  {
    hide Base, SummaryOf, EndResponse;
    if sent >= |bytes| || (!(!resumed && l.buffered > HIGH_WATER_BYTES) && u.cancelled) {
      EndResponseKeeps(l, now, u, bytes, sent, owed);
    } else if !resumed && l.buffered > HIGH_WATER_BYTES {
      var l1 := SendChunks(l, now, u, bytes, sent, resumed);
      SameAskingKeeps(l, l1, owed);
    } else {
      var end := Min(sent + CHUNK_BYTES, |bytes|);
      var l1 := l.(buffered := l.buffered + (end - sent));
      SameAskingKeeps(l, l1, owed);
      ChunkServes(l1, bytes[sent..end], owed);
      SendChunksKeeps(Emit(l1, SendBinary(bytes[sent..end])), now, u, bytes, end, false, owed);
    }
  }

  /** A chunk goes out whether or not the channel is open: its response began. */
  lemma ChunkServes(l: Link, chunk: seq<byte>, owed: Option<nat>)
    requires Base(l, owed) && !l.closed
    ensures Base(Emit(l, SendBinary(chunk)), owed)
    ensures SummaryOf(Emit(l, SendBinary(chunk)).log) == Summarize(SummaryOf(l.log), SendBinary(chunk))
  {
    hide SummaryOf;
    SumNext(l.log, SendBinary(chunk));
    SameAskingKeeps(l, Emit(l, SendBinary(chunk)), owed);
  }

  lemma RespondKeeps(l: Link, now: nat, u: Upload, bytes: seq<byte>)
    requires InHand(l, None, Quiet, [u.id], 0)
    ensures Inv(Respond(l, now, u, bytes), None)
  {
    hide Base, SummaryOf, SendChunks, StartNext;
    BaseOpen(l, None);
    if u.cancelled {
      ServeEvent(l, None, UploadCancelled(|bytes|));
      DeclineKeeps(Emit(l, UploadCancelled(|bytes|)), u);
    } else if !MaySend(l) {
      FinishUploadKeeps(l, None);
    } else {
      SendServes(l, None, Meta(Some(u.id), Some(|bytes|), FieldOf(u.range)));
      SendChunksKeeps(Send(l, Meta(Some(u.id), Some(|bytes|), FieldOf(u.range))), now, u, bytes, 0, false, None);
    }
  }

  lemma DeclineKeeps(l: Link, u: Upload)
    requires InHand(l, None, Quiet, [u.id], 0)
    ensures Inv(Decline(l, u), None)
  {
    hide Base, SummaryOf, StartNext;
    BaseOpen(l, None);
    SendServes(l, None, Nothing(Some(u.id)));
    NothingServes(l, u.id);
    FinishUploadKeeps(Send(l, Nothing(Some(u.id))), None);
  }

  lemma TakeUp(l: Link, now: nat)
    requires Inv(l, None) && Awaiting(l)
    ensures InHand(l.(clock := now, active := None), None, Quiet, [l.active.value.upload.id], 0)
  {
    hide SummaryOf;
  }

  lemma ServeKeeps(l: Link, now: nat, held: Option<seq<byte>>)
    requires Inv(l, None)
    ensures Inv(Serve(l, now, held), None)
  {
    hide Base, SummaryOf, Respond, Decline, Cut;
    if Awaiting(l) {
      var u, l1 := l.active.value.upload, l.(clock := now, active := None);
      TakeUp(l, now);
      if held.None? || (u.range.Some? && Cut(held.value, u.range.value).None?) {
        DeclineKeeps(l1, u);
      } else {
        RespondKeeps(l1, now, u, if u.range.None? then held.value else Cut(held.value, u.range.value).value);
      }
    } else {
      ClockKeeps(l, now);
    }
  }

  lemma ClockKeeps(l: Link, now: nat)
    requires Inv(l, None)
    ensures Inv(l.(clock := now), None)
  {
    hide SummaryOf;
  }

  lemma ServeOnlyKeeps(l: Link, now: nat, objectSize: nat, bytes: seq<byte>)
    requires Inv(l, None)
    ensures Inv(ServeOnly(l, now, objectSize, bytes), None)
  {
    hide Base, SummaryOf, Respond, Decline, CutLength;
    if Awaiting(l) {
      TakeUp(l, now);
      DeclineKeeps(l.(clock := now, active := None), l.active.value.upload);
      RespondKeeps(l.(clock := now, active := None), now, l.active.value.upload, bytes);
    } else {
      ClockKeeps(l, now);
    }
  }

  lemma Resume(l: Link, now: nat)
    requires Inv(l, None) && Paused(l)
    ensures var a := l.active.value;
            InHand(l.(active := None), None, Responding(a.upload.id, |a.stage.bytes|, a.stage.sent, 0), [a.upload.id], a.stage.sent) &&
            a.stage.sent < |a.stage.bytes| && !l.closed
  {
    hide SummaryOf;
  }

  lemma LowKeeps(l: Link, now: nat, buffered: nat)
    requires Inv(l, None)
    ensures Inv(Low(l, now, buffered), None)
  {
    hide Base, SummaryOf, SendChunks;
    var l1 := l.(clock := now, buffered := buffered);
    SameAskingKeepsInv(l, l1);
    if Paused(l1) {
      var a := l1.active.value;
      Resume(l1, now);
      SendChunksKeeps(l1.(active := None), now, a.upload, a.stage.bytes, a.stage.sent, true, None);
    }
  }

  lemma SameAskingKeepsInv(l: Link, l': Link)
    requires Inv(l, None) && l' == l.(clock := l'.clock, buffered := l'.buffered)
    ensures Inv(l', None)
  {
    hide SummaryOf;
  }

  lemma OnCancelKeeps(l: Link, now: nat, id: Option<int>)
    requires Inv(l, None) && !l.closed
    ensures Inv(OnCancel(l, now, id), None)
  {
    hide Base, SummaryOf, SendChunks;
    if id.Some? {
      var a := if l.active.Some? then Some(l.active.value.(upload := MarkOne(l.active.value.upload, id.value))) else None;
      var l1 := l.(queue := Mark(l.queue, id.value), active := a);
      IdsMark(l.queue, id.value);
      SameAskingKeeps(l, l1, None);
      assert Inv(l1, None);
      if Paused(l1) && l1.active.value.upload.id == id.value {
        var s := l1.active.value.stage;
        Resume(l1, now);
        SendChunksKeeps(l1.(active := None), now, l1.active.value.upload, s.bytes, s.sent, true, None);
      }
    }
  }

  lemma OnWantKeeps(l: Link, id: Option<int>, key: Option<Key>, range: RangeField)
    requires Inv(l, None) && !l.closed
    ensures Inv(OnWant(l, id, key, range), None)
  {
    hide Base, SummaryOf, StartNext, Close;
    if id.Some? && key.Some? {
      if range == Malformed {
        CloseKeeps(l, Protocol, None);
      } else if l.inFlight >= l.config.maxQueued {
        CloseKeeps(l, UploadQueue, None);
      } else {
        var u := Upload(id.value, key.value, false, if range.Exactly? then Some(range.range) else None);
        var l1 := l.(inFlight := l.inFlight + 1, queue := l.queue + [u], past := l.past.(accepted := l.past.accepted + [id.value]));
        AcceptKeeps(l, l1, u);
        if l.active.None? {
          StartNextKeeps(l1, None);
        } else {
          StartNextCalm(l1);
        }
      }
    }
  }

  lemma AcceptKeeps(l: Link, l1: Link, u: Upload)
    requires Inv(l, None) && l.inFlight < l.config.maxQueued
    requires l1 == l.(inFlight := l.inFlight + 1, queue := l.queue + [u], past := l.past.(accepted := l.past.accepted + [u.id]))
    ensures l.active.Some? ==> Inv(l1, None)
    ensures l.active.None? ==> Base(l1, None) && l1.inFlight == |l1.queue| <= l1.config.maxQueued && Serving(l1, Quiet, [], 0)
  {
    hide SummaryOf, Ids;
    IdsSnoc(l.queue, u);
    var done := SummaryOf(l.log).done;
    assert forall first: seq<int> :: done + first + (Ids(l.queue) + [u.id]) == (done + first + Ids(l.queue)) + [u.id];
  }

  // ---- closing ----

  lemma CloseKeeps(l: Link, reason: Reason, owed: Option<nat>)
    requires Inv(l, owed) && (owed.Some? ==> l.pending.None?)
    ensures Inv(Close(l, reason), owed)
  {
    hide Base, SummaryOf, StartNext, Closing;
    if !l.closed {
      var l1 := Closing(l, reason);
      ClosingFields(l, reason);
      ClosingBase(l, reason, owed);
      if Paused(l1) {
        FinishUploadKeeps(l1.(active := None), owed);
      }
    }
  }

  /** The end is told once, after the pending request has been settled. */
  lemma ClosingBase(l: Link, reason: Reason, owed: Option<nat>)
    requires Base(l, owed) && !l.closed && (owed.Some? ==> l.pending.None?)
    ensures var r := Closing(l, reason); Base(r.(active := None), owed) && (!Paused(r) ==> Base(r, owed))
  {
    hide SummaryOf, Closing, SideOk, SettledAccount;
    ClosingFields(l, reason);
    ClosingSum(l, reason);
    if l.pending.Some? {
      SideSettles(SideOf(l), SummaryOf(l.log).account, None, true);
    }
  }

  lemma ClosingSum(l: Link, reason: Reason)
    ensures SummaryOf(Closing(l, reason).log) ==
              SummaryOf(l.log).(account := if l.pending.Some? then SettledAccount(SummaryOf(l.log).account, l.pending.value, None, true)
                                     else SummaryOf(l.log).account,
                          closed := true, late := SummaryOf(l.log).late || SummaryOf(l.log).closed)
  {
    hide SummaryOf, FinishLog;
    var l1, o := l.(closed := true, closeReason := Some(reason)), CloseOutcome(reason);
    if l.pending.Some? {
      SumFinish(l1, l1.pending.value, None, o, true);
    }
    SumNext(Finish(l1, None, Some(o), true).log, ClosedAs(reason));
  }

  // ---- requesting ----

  /** The pending request hears something; nothing is told of it. */
  lemma PendingKeeps(l: Link, p: Pending, hearing: Hearing, bytesIn: nat)
    requires Inv(l, None) && l.pending.Some? && !l.closed && p.id == l.pending.value.id
    requires p.resolved == l.pending.value.resolved && p.reported == l.pending.value.reported
    requires PendingOk(SideOf(l).(pending := Some(p), hearings := l.past.hearings[p.id := hearing]), p)
    ensures Inv(WithHearing(l.(pending := Some(p), bytesIn := bytesIn), p.id, hearing), None)
  {
    hide SummaryOf, SideOk, PendingOk;
    var l' := WithHearing(l.(pending := Some(p), bytesIn := bytesIn), p.id, hearing);
    SideHears(SideOf(l), SummaryOf(l.log).account, p, hearing);
    SameServingKeeps(l, l', None, None);
  }

  lemma MisnamedKeeps(l: Link)
    requires Inv(l, None)
    ensures Inv(Misnamed(l), None)
  {
    hide Inv, Close;
    CloseKeeps(l, Protocol, None);
  }

  lemma OnMetaKeeps(l: Link, id: Option<int>, size: Option<int>, range: RangeField)
    requires Inv(l, None) && !l.closed
    ensures Inv(OnMeta(l, id, size, range), None)
  {
    hide Close, Inv, WithHearing;
    CloseKeeps(l, Protocol, None);
    MisnamedKeeps(l);
    if NamesPending(l, id) && l.pending.value.size.None? && size.Some? && 1 <= size.value <= l.config.maxSegmentBytes {
      var p := l.pending.value;
      InvPending(l);
      if p.expected.Some? ==> size == Some(p.expected.value) {
        PendingKeeps(l, p.(size := Some(size.value)), HearingOf(l, p.id).(size := Some(size.value)), l.bytesIn);
        assert l.(pending := Some(p.(size := Some(size.value))), bytesIn := l.bytesIn) == l.(pending := Some(p.(size := Some(size.value))));
      }
    }
  }

  lemma OnEofKeeps(l: Link, id: Option<int>)
    requires Inv(l, None) && !l.closed
    ensures Inv(OnEof(l, id), None)
  {
    hide Close, Inv, Finish;
    CloseKeeps(l, Protocol, None);
    MisnamedKeeps(l);
    FinishKeeps(l, None, None);
    if NamesPending(l, id) && !l.pending.value.draining && l.pending.value.size == Some(l.pending.value.received) {
      TakeParts(l);
    }
  }

  /** Taking the parts out before settling changes nothing that is told. */
  lemma TakeParts(l: Link)
    requires Inv(l, None) && l.pending.Some? && !l.pending.value.draining && l.pending.value.size == Some(l.pending.value.received)
    ensures var p := l.pending.value; Inv(Finish(l.(pending := Some(p.(parts := []))), Some(p.parts), None, true), None)
  {
    var p := l.pending.value;
    assert Finish(l.(pending := Some(p.(parts := []))), Some(p.parts), None, true) == Finish(l, Some(p.parts), None, true);
    InvPending(l);
    hide Inv, Finish;
    FinishKeeps(l, Some(p.parts), None);
  }

  lemma OnNothingKeeps(l: Link, id: Option<int>)
    requires Inv(l, None) && !l.closed
    ensures Inv(OnNothing(l, id), None)
  {
    hide Close, Inv, Finish;
    CloseKeeps(l, Protocol, None);
    MisnamedKeeps(l);
    FinishKeeps(l, None, None);
  }

  lemma OnBinaryKeeps(l0: Link, now: nat, chunk: seq<byte>)
    requires Inv(l0, None)
    ensures Inv(OnBinary(l0, now, chunk), None)
  {
    hide Close, Inv, MaxChunks, Receive;
    var l := l0.(clock := now);
    ClockKeeps(l0, now);
    if !l.closed && l.pending.Some? {
      CloseKeeps(l, Protocol, None);
      if l.pending.value.size.Some? {
        ReceiveKeeps(l, chunk);
      }
    }
  }

  lemma ReceiveKeeps(l: Link, chunk: seq<byte>)
    requires Inv(l, None) && !l.closed && l.pending.Some? && l.pending.value.size.Some?
    ensures var p := l.pending.value;
            Inv(Receive(l, p.(chunks := p.chunks + 1, received := p.received + |chunk|), p.size.value, chunk), None)
  {
    hide Close, Inv, WithHearing, PendingOk;
    var p, h := l.pending.value, HearingOf(l, l.pending.value.id);
    var p1, h1 := p.(chunks := p.chunks + 1, received := p.received + |chunk|), h.(chunks := h.chunks + [chunk]);
    InvPending(l);
    if p1.received > p.size.value {
      OverrunKeeps(l, p1, h1, l.bytesIn + |chunk|);
    } else {
      var p2 := if p.draining then p1 else p1.(parts := p.parts + chunk);
      HearsMore(SideOf(l), chunk, p2);
      PendingKeeps(l, p2, h1, l.bytesIn + |chunk|);
      if !p.draining {
        SettleKeeps(WithHearing(l.(pending := Some(p2), bytesIn := l.bytesIn + |chunk|), p.id, h1), ProgressTo(p1.received, p.size.value));
        WithHearingPending(l.(bytesIn := l.bytesIn + |chunk|), p1, p2, h1);
      }
    }
  }

  /** A chunk that fits is added to what was heard, and to the parts. */
  lemma HearsMore(a: Side, chunk: seq<byte>, p: Pending)
    requires a.pending.Some? && PendingOk(a, a.pending.value) && a.pending.value.size.Some?
    requires p == a.pending.value.(chunks := p.chunks, received := a.pending.value.received + |chunk|, parts := p.parts)
    requires p.received <= p.size.value && p.parts == if p.draining then [] else a.pending.value.parts + chunk
    ensures var h := a.hearings[p.id];
            PendingOk(a.(pending := Some(p), hearings := a.hearings[p.id := h.(chunks := h.chunks + [chunk])]), p)
  {
    FlattenNext(a.hearings[p.id].chunks, chunk);
  }

  lemma WithHearingPending(l: Link, p: Pending, q: Pending, hearing: Hearing)
    requires p.id == q.id
    ensures WithHearing(l.(pending := Some(p)), p.id, hearing).(pending := Some(q)) == WithHearing(l.(pending := Some(q)), q.id, hearing)
  {
  }

  /** A request that got too much is closed with the link; it reports what it got.
      To the books it is as if the chunk had come after the close. */
  lemma OverrunKeeps(l: Link, p: Pending, hearing: Hearing, bytesIn: nat)
    requires Inv(l, None) && l.pending.Some? && !l.closed && p == l.pending.value.(chunks := p.chunks, received := p.received)
    ensures Inv(Close(WithHearing(l.(pending := Some(p), bytesIn := bytesIn), p.id, hearing), Protocol), None)
  {
    hide Inv, StartNext, Closing, WithHearing;
    var l1 := WithHearing(l.(pending := Some(p), bytesIn := bytesIn), p.id, hearing);
    var l2 := Closing(l1, Protocol);
    OverrunClosing(l, p, hearing, bytesIn);
    if Paused(l2) {
      FinishUploadKeeps(l2.(active := None), None);
    }
  }

  lemma OverrunClosing(l: Link, p: Pending, hearing: Hearing, bytesIn: nat)
    requires Inv(l, None) && l.pending.Some? && !l.closed && p == l.pending.value.(chunks := p.chunks, received := p.received)
    ensures var l1 := WithHearing(l.(pending := Some(p), bytesIn := bytesIn), p.id, hearing);
            var l2 := Closing(l1, Protocol);
            && !l1.closed
            && (if Paused(l2) then InHand(l2.(active := None), None, Quiet, [], 0) else Inv(l2, None))
  {
    hide SummaryOf, Closing, SideOk, SettledAccount;
    var l1 := WithHearing(l.(pending := Some(p), bytesIn := bytesIn), p.id, hearing);
    ClosingFields(l1, Protocol);
    ClosingSum(l1, Protocol);
    SideOverruns(SideOf(l), SummaryOf(l.log).account, p, hearing);
  }

  lemma SideOverruns(a: Side, s: Account, p: Pending, hearing: Hearing)
    requires SideOk(a, s, None) && a.pending.Some? && p == a.pending.value.(chunks := p.chunks, received := p.received)
    ensures SideOk(a.(pending := None, hearings := a.hearings[p.id := hearing]), SettledAccount(s, p, None, true), None)
  {
    hide Faithful;
    SideSettles(a, s, None, true);
    var s', a1, a' := SettledAccount(s, p, None, true), a.(pending := None), a.(pending := None, hearings := a.hearings[p.id := hearing]);
    forall id: nat ensures CountedAt(a', s', None, id) {
      assert CountedAt(a1, s', None, id);
    }
    forall pay | pay in s'.paid ensures PaymentOk(a', pay) {
      assert pay in s.paid && PaymentOk(a, pay) && PaymentOk(a1, pay);
    }
  }

  lemma SettleKeeps(l: Link, e: Event)
    requires Inv(l, None) && (e.ProgressTo? || e.ScheduleChanged?)
    ensures Inv(Emit(l, e), None)
  {
    hide SummaryOf, SideOk;
    SumNext(l.log, e);
  }

  /** A report without a request, for a call that starts nothing. */
  lemma RefuseKeeps(l: Link)
    requires Inv(l, None)
    ensures Inv(Refuse(l), None)
  {
    hide SummaryOf, SideOk;
    var o := if l.closed then Closed else Busy;
    SumNext(l.log, Resolved(None, None));
    SumNext(l.log + [Resolved(None, None)], Report(None, o, 0, false, false, l.closeReason));
  }

  /** A frame of the requester does not disturb the responses. */
  lemma AskKeeps(l: Link, f: Frame, owed: Option<nat>)
    requires Inv(l, owed) && (f.Want? || f.CancelWant?)
    ensures Inv(Send(l, f), owed)
  {
    hide SummaryOf, SideOk;
    if MaySend(l) {
      SumNext(l.log, SendText(f));
    }
  }

  lemma RequestKeeps(l0: Link, now: nat, key: Key, timeoutMs: nat, expected: Option<nat>, range: Option<PieceRange>)
    requires Inv(l0, None)
    ensures Inv(Request(l0, now, key, timeoutMs, expected, range), None)
  {
    hide Inv, Ask;
    var l := l0.(clock := now);
    ClockKeeps(l0, now);
    if l.closed || l.pending.Some? {
      RefuseKeeps(l);
    } else {
      AskingKeeps(l, NewPending(l, now, timeoutMs, expected, range), key);
    }
  }

  lemma AskingKeeps(l: Link, p: Pending, key: Key)
    requires Inv(l, None) && l.pending.None? && !l.closed && p.id == l.nextId && p.size.None? && p.received == 0 && p.parts == []
    requires !p.resolved && !p.reported && !p.draining && !p.cancelled
    ensures Inv(Ask(l, p, key), None)
  {
    hide Inv, Finish, Started;
    var l1 := Started(l, p);
    NewPendingKeeps(l, l1, p);
    if MaySend(l1) {
      AskKeeps(l1, Want(Some(p.id), Some(key), FieldOf(p.range)), None);
    } else {
      FinishKeeps(l1, None, Some(SendFailed));
    }
  }

  lemma NewPendingKeeps(l: Link, l1: Link, p: Pending)
    requires Inv(l, None) && l.pending.None? && !l.closed && p.id == l.nextId && p.size.None? && p.received == 0 && p.parts == []
    requires !p.resolved && !p.reported && !p.draining && !p.cancelled
    requires l1 == Started(l, p)
    ensures Inv(l1, None)
  {
    hide SummaryOf, SideOk;
    SideAsks(SideOf(l), SummaryOf(l.log).account, p);
    SameServingKeeps(l, l1, None, None);
  }

  lemma AbandonKeeps(l: Link, now: nat, reason: Reason, abandoned: bool)
    requires Inv(l, None) && l.pending.Some? && !l.closed && !l.pending.value.draining
    ensures Inv(Abandon(l, now, reason, abandoned), None)
  {
    hide Inv, Finish, Close, ReportOf, TellDraining;
    var p, o := l.pending.value, AbandonOutcome(reason, abandoned);
    InvPending(l);
    if !(l.reliable && l.channelOpen) {
      var l1 := Finish(l, None, Some(o), false);
      UnreportedKeeps(l, o);
      FinishFields(l, None, Some(o), false);
      CloseKeeps(l1, reason, Some(p.id));
      PayOwed(Close(l1, reason), p, o);
    } else {
      var p1 := DrainingOne(l, p, now, reason);
      var l1 := TellDraining(l, p1, o);
      DrainKeeps(l, p1, o);
      AskKeeps(l1.(pending := Some(p1.(cancelled := MaySend(l1)))), CancelWant(Some(p.id)), None);
    }
  }

  lemma InvPending(l: Link)
    requires Inv(l, None) && l.pending.Some?
    ensures PendingOk(SideOf(l), l.pending.value) && l.pending.value.id in l.past.hearings
    ensures l.pending.value.draining ==> l.pending.value.parts == []
  {
    hide SummaryOf;
  }

  lemma UnreportedKeeps(l: Link, o: Outcome)
    requires Inv(l, None) && l.pending.Some? && !l.pending.value.reported
    ensures Inv(Finish(l, None, Some(o), false), Some(l.pending.value.id))
  {
    hide Base, Finish, ActiveOk;
    FinishBase(l, None, Some(o), false);
    SameServingKeeps(l, Finish(l, None, Some(o), false), None, Some(l.pending.value.id));
  }

  lemma PayOwed(l: Link, p: Pending, o: Outcome)
    requires Inv(l, Some(p.id))
    ensures Inv(Emit(l, ReportOf(p, o, l.closeReason)), None)
  {
    hide SummaryOf, SideOk;
    SumNext(l.log, ReportOf(p, o, l.closeReason));
    SideReports(SideOf(l), SummaryOf(l.log).account, p.id);
    SameServingKeeps(l, Emit(l, ReportOf(p, o, l.closeReason)), Some(p.id), None);
  }

  lemma DrainKeeps(l: Link, p1: Pending, o: Outcome)
    requires Inv(l, None) && l.pending.Some? && !l.closed && !l.pending.value.draining
    requires p1 == l.pending.value.(draining := true, parts := [], abandonReason := p1.abandonReason, resolved := true,
                                    reported := true, deadline := p1.deadline, timer := p1.timer)
    ensures var l1 := TellDraining(l, p1, o); Inv(l1.(pending := Some(p1.(cancelled := MaySend(l1)))), None)
  {
    hide SummaryOf, SideOk, TellDraining;
    var l1 := TellDraining(l, p1, o);
    var l2 := l1.(pending := Some(p1.(cancelled := MaySend(l1))));
    DrainTold(l, p1, o);
    SideDrains(SideOf(l), SummaryOf(l.log).account, l2.pending.value);
    SameServingKeeps(l, l2, None, None);
  }

  lemma DrainTold(l: Link, p1: Pending, o: Outcome)
    ensures var l1 := TellDraining(l, p1, o);
            && l1 == l.(timers := l.timers + 1, log := l1.log)
            && SummaryOf(l1.log) == SummaryOf(l.log).(account := Reported(Settled(SummaryOf(l.log).account, p1.id, None), p1.id))
  {
    hide SummaryOf;
    SumNext(l.log, Resolved(Some(p1.id), None));
    SumNext(l.log + [Resolved(Some(p1.id), None)], ReportOf(p1, o, l.closeReason));
  }

  lemma AbortKeeps(l0: Link, now: nat, id: nat, abandoned: bool)
    requires Inv(l0, None)
    ensures Inv(AbortRequest(l0, now, id, abandoned), None)
  {
    hide Inv, Abandon;
    var l := l0.(clock := now);
    ClockKeeps(l0, now);
    InvShape(l);
    if l.pending.Some? && l.pending.value.id == id && !l.pending.value.draining {
      AbandonKeeps(l, now, RequestAbort, abandoned);
    }
  }

  lemma InvShape(l: Link)
    requires Inv(l, None)
    ensures Shape(l)
  {
    hide SummaryOf;
  }

  // ---- time, frames and the rest ----

  lemma FireKeeps(l0: Link, d: Due)
    requires Inv(l0, None) && NextDue(l0) == Some(d)
    ensures Inv(Fire(l0, d), None)
  {
    hide Inv, Abandon, Close, StartNext;
    var l := l0.(clock := d.at);
    ClockKeeps(l0, d.at);
    InvShape(l);
    if d.request {
      if l.pending.value.draining {
        CloseKeeps(l, l.pending.value.abandonReason, None);
      } else {
        AbandonKeeps(l, d.at, RequestTimeout, false);
      }
    } else {
      UploadTimeout(l);
    }
  }

  /** A response that waited too long: the link closes, then the upload ends. */
  lemma UploadTimeout(l: Link)
    requires Inv(l, None) && Paused(l)
    ensures Inv(FinishUpload(Close(l.(active := None), UploadDrainTimeout)), None)
  {
    hide SummaryOf, StartNext, Closing;
    var l0 := l.(active := None);
    ClosingFields(l0, UploadDrainTimeout);
    Resume(l, l.clock);
    ClosingBase(l0, UploadDrainTimeout, None);
    FinishUploadKeeps(Close(l0, UploadDrainTimeout), None);
  }

  lemma {:induction false} TickKeeps(l: Link, now: nat)
    requires Inv(l, None) && Shape(l)
    ensures Inv(Tick(l, now), None) && Shape(Tick(l, now))
    decreases Rank(l)
  {
    hide Inv, Fire;
    var d := NextDue(l);
    if d.Some? && d.value.at <= now {
      FireShape(l, d.value);
      FireKeeps(l, d.value);
      TickKeeps(Fire(l, d.value), now);
    }
  }

  lemma OnTextKeeps(l0: Link, now: nat, f: Frame)
    requires Inv(l0, None)
    ensures Inv(OnText(l0, now, f), None)
  {
    hide Inv, OnWant, OnCancel, OnMeta, OnEof, OnNothing, Close;
    var l := l0.(clock := now);
    ClockKeeps(l0, now);
    if !l.closed {
      match f
      case Want(id, key, range) => OnWantKeeps(l, id, key, range);
      case CancelWant(id) => OnCancelKeeps(l, now, id);
      case Meta(id, size, range) => OnMetaKeeps(l, id, size, range);
      case Eof(id) => OnEofKeeps(l, id);
      case Nothing(id) => OnNothingKeeps(l, id);
      case Garbage => CloseKeeps(l, Protocol, None);
      case Advisory =>
      case Ignored =>
    }
  }

  lemma SettingOpen(l: Link, open: bool)
    requires Inv(l, None)
    ensures Inv(l.(channelOpen := open, past := l.past.(shut := l.past.shut || !open)), None)
  {
    hide SummaryOf;
  }

  lemma SettingReliable(l: Link, reliable: bool)
    requires Inv(l, None)
    ensures Inv(l.(reliable := reliable), None)
  {
    hide SummaryOf;
  }

  lemma SettingBuffered(l: Link, buffered: nat)
    requires Inv(l, None)
    ensures Inv(l.(buffered := buffered), None)
  {
    hide SummaryOf;
  }

  // ---- what follows for whole runs ----

  /** While the channel stays open the responses are done in the order in which
      the wants were accepted, none is lost, and the bytes add up. */
  lemma UploadsConserved(l: Link)
    requires Inv(l, None) && Intact(l)
    ensures SummaryOf(l.log).stream != Broken && SummaryOf(l.log).done <= l.past.accepted
    ensures |l.past.accepted| == |SummaryOf(l.log).done| + l.inFlight
    ensures l.inFlight == |l.queue| + Once(l.active.Some?) <= l.config.maxQueued
    ensures l.bytesOut + (if Paused(l) then l.active.value.stage.sent else 0) == SummaryOf(l.log).chunkBytes
  {
    hide SummaryOf, Base;
  }

  /** A stream that is not broken was never broken: every response so far was a
      `none`, or a `meta`, chunks and an `eof` that account for its size. */
  lemma {:induction false} NeverBroken(log: seq<Event>, k: nat)
    requires SummaryOf(log).stream != Broken && k <= |log|
    ensures SummaryOf(log[..k]).stream != Broken
    decreases |log|
  {
    if k < |log| {
      NeverBroken(log[..|log| - 1], k);
      assert log[..|log| - 1][..k] == log[..k];
    } else {
      assert log[..k] == log;
    }
  }

  /** Every request that is over has exactly one `Resolved` and one `Report`; one
      still pending has none, or both while its response is drained. */
  lemma OneOutcome(l: Link, id: nat)
    requires Inv(l, None)
    ensures var a := SummaryOf(l.log).account;
            && a.resolved[id] == a.reported[id] <= 1
            && (1 <= id < l.nextId && (l.pending.None? || l.pending.value.id != id) ==> a.resolved[id] == 1)
            && (!(1 <= id < l.nextId) ==> a.resolved[id] == 0)
            && (l.pending.Some? && l.pending.value.id == id ==> (a.resolved[id] == 1 <==> l.pending.value.draining))
  {
    hide SummaryOf, ActiveOk, PaymentOk;
    assert CountedAt(SideOf(l), SummaryOf(l.log).account, None, id);
  }

  lemma {:induction false} PaymentTold(log: seq<Event>, k: nat)
    requires k < |log| && log[k].Resolved? && log[k].id.Some? && log[k].payload.Some?
    ensures Payment(log[k].id.value, log[k].payload.value) in SummaryOf(log).account.paid
    decreases |log|
  {
    if k < |log| - 1 {
      PaymentTold(log[..|log| - 1], k);
    }
  }

  /** Whoever the holder is, and at any point of a run: bytes that a request was
      resolved with are all the chunks heard since its `meta`, of the size that the
      `meta` announced and, if one was expected, of the expected size. */
  lemma PayloadIsHeard(l: Link, k: nat)
    requires Inv(l, None) && k < |l.log| && l.log[k].Resolved? && l.log[k].id.Some? && l.log[k].payload.Some?
    ensures var id, bytes := l.log[k].id.value, l.log[k].payload.value;
            && id in l.past.hearings && bytes == Flatten(l.past.hearings[id].chunks)
            && l.past.hearings[id].size == Some(|bytes|)
            && (l.past.hearings[id].expected.Some? ==> l.past.hearings[id].expected == Some(|bytes|))
  {
    PaymentTold(l.log, k);
    hide SummaryOf, ActiveOk, CountedAt;
    assert PaymentOk(SideOf(l), Payment(l.log[k].id.value, l.log[k].payload.value));
  }

  /** After the link has closed it sends nothing, and it closes only once. */
  lemma {:induction false} NothingAfterClose(log: seq<Event>, j: nat, k: nat)
    requires !SummaryOf(log).late && j < k < |log| && log[j].ClosedAs?
    ensures !log[k].SendText? && !log[k].SendBinary? && !log[k].ClosedAs?
    decreases |log|
  {
    var init := log[..|log| - 1];
    if k < |log| - 1 {
      NothingAfterClose(init, j, k);
    } else {
      ClosedBefore(init, j);
    }
  }

  lemma {:induction false} ClosedBefore(log: seq<Event>, j: nat)
    requires j < |log| && log[j].ClosedAs?
    ensures SummaryOf(log).closed
    decreases |log|
  {
    if j < |log| - 1 {
      ClosedBefore(log[..|log| - 1], j);
    }
  }

  // ---- late ticks ----

  /** A tick leaves no timer due. */
  lemma {:induction false} NothingDue(l: Link, now: nat)
    requires Shape(l)
    ensures Shape(Tick(l, now)) && (NextDue(Tick(l, now)).Some? ==> NextDue(Tick(l, now)).value.at > now)
    decreases Rank(l)
  {
    var d := NextDue(l);
    if d.Some? && d.value.at <= now {
      FireShape(l, d.value);
      NothingDue(Fire(l, d.value), now);
    }
  }

  /** A late tick does what punctual ticks would have done, event for event. */
  lemma {:induction false} LateIsPunctual(l: Link, t1: nat, t2: nat)
    requires Shape(l) && t1 <= t2
    ensures Shape(Tick(l, t1)) && Tick(Tick(l, t1), t2) == Tick(l, t2)
    decreases Rank(l)
  {
    var d := NextDue(l);
    if d.Some? && d.value.at <= t1 {
      FireShape(l, d.value);
      LateIsPunctual(Fire(l, d.value), t1, t2);
    }
  }
}

/** What is on its way between a requester and a holder: the frames of one
    request and its response, cut at any point, on two FIFO channels. */
module Conversation {
  import opened Wrappers
  import opened Pieces
  import opened Sorting
  import opened LinkStates

  /** What a channel carries. */
  datatype Item = Text(frame: Frame) | Bytes(bytes: seq<byte>)

  /** What a log put on the channel and what it answered with bytes, in order. */
  datatype Told = Told(items: seq<Item>, paid: seq<Payment>)

  function Note(t: Told, e: Event): Told {
    match e
    case SendText(f) => t.(items := t.items + [Text(f)])
    case SendBinary(b) => t.(items := t.items + [Bytes(b)])
    case Resolved(Some(id), Some(b)) => t.(paid := t.paid + [Payment(id, b)])
    case _ => t
  }

  ghost function Tell(log: seq<Event>): Told
    decreases |log|
  {
    if log == [] then Told([], []) else Note(Tell(log[..|log| - 1]), log[|log| - 1])
  }

  lemma TellNext(log: seq<Event>, e: Event)
    ensures Tell(log + [e]) == Note(Tell(log), e)
  {
    assert (log + [e])[..|log|] == log;
  }

  /** What a request asked for, and what an honest holder has for it. */
  datatype Wanted = Wanted(key: Key, range: Option<PieceRange>)

  function Slice(objects: map<Key, seq<byte>>, w: Wanted): Option<seq<byte>> {
    if w.key !in objects then None
    else if w.range.None? then Some(objects[w.key])
    else Cut(objects[w.key], w.range.value)
  }

  /** The upload that a holder with an empty queue is at. */
  datatype Holder = Idle | Fetching(upload: Upload) | Streaming(upload: Upload, bytes: seq<byte>, out: nat)

  function ViewOf(b: Link): Holder {
    match b.active
    case None => Idle
    case Some(Active(u, AwaitingBytes)) => Fetching(u)
    case Some(Active(u, Draining(bytes, sent, _, _))) => Streaming(u, bytes, sent)
  }

  // ---- the response stream ----

  /** Whether a response of `n` bytes is cut into chunks at `at`. */
  predicate Aligned(at: nat, n: nat) {
    at == n || (at < n && at % CHUNK_BYTES == 0)
  }

  /** The chunks of `bytes` between two of its cuts. */
  function Chunks(bytes: seq<byte>, from: nat, upto: nat): seq<Item>
    requires from <= upto <= |bytes|
    decreases upto - from
  {
    if from == upto then []
    else
      var end := Min(from + CHUNK_BYTES, upto);
      [Bytes(bytes[from..end])] + Chunks(bytes, end, upto)
  }

  lemma {:induction false} ChunksSplit(bytes: seq<byte>, from: nat, mid: nat, upto: nat)
    requires from <= mid <= upto <= |bytes| && Aligned(from, |bytes|) && Aligned(mid, |bytes|)
    ensures Chunks(bytes, from, upto) == Chunks(bytes, from, mid) + Chunks(bytes, mid, upto)
    decreases mid - from
  {
    if from < mid {
      var end := Min(from + CHUNK_BYTES, mid);
      ChunksSplit(bytes, end, mid, upto);
    }
  }

  function MetaOf(id: int, range: Option<PieceRange>, n: nat): Item {
    Text(Meta(Some(id), Some(n), FieldOf(range)))
  }

  function Whenever(c: bool, item: Item): seq<Item> {
    if c then [item] else []
  }

  /** What of a response is still on its way: its `meta` unless it was heard, the
      chunks after the `from` bytes heard, and its `eof` once it has ended. */
  function StillComing(id: int, range: Option<PieceRange>, bytes: seq<byte>, heard: bool, from: nat, out: nat, ended: bool): seq<Item>
    requires from <= out <= |bytes|
  {
    Whenever(!heard, MetaOf(id, range, |bytes|)) + Chunks(bytes, from, out) + Whenever(ended, Text(Eof(Some(id))))
  }

  /** What of a response arrives next. */
  lemma RemainingHead(id: int, range: Option<PieceRange>, bytes: seq<byte>, heard: bool, from: nat, out: nat, ended: bool)
    requires from <= out <= |bytes| && StillComing(id, range, bytes, heard, from, out, ended) != []
    ensures var rest := StillComing(id, range, bytes, heard, from, out, ended);
            if !heard then rest[0] == MetaOf(id, range, |bytes|) && rest[1..] == StillComing(id, range, bytes, true, from, out, ended)
            else if from < out then
              var end := Min(from + CHUNK_BYTES, out);
              rest[0] == Bytes(bytes[from..end]) && rest[1..] == StillComing(id, range, bytes, true, end, out, ended)
            else ended && rest == [Text(Eof(Some(id)))]
  {
    if heard && from < out {
      var end, last := Min(from + CHUNK_BYTES, out), Whenever(ended, Text(Eof(Some(id))));
      assert [] + ([Bytes(bytes[from..end])] + Chunks(bytes, end, out)) + last
          == [Bytes(bytes[from..end])] + ([] + Chunks(bytes, end, out) + last);
    }
  }

  /** The holder goes on with a response that has not ended. */
  lemma ComingGrows(id: int, range: Option<PieceRange>, bytes: seq<byte>, heard: bool, from: nat, sent: nat, out: nat, ended: bool)
    requires from <= sent <= out <= |bytes| && Aligned(from, |bytes|) && Aligned(sent, |bytes|)
    ensures StillComing(id, range, bytes, heard, from, sent, false) + Chunks(bytes, sent, out) + Whenever(ended, Text(Eof(Some(id))))
         == StillComing(id, range, bytes, heard, from, out, ended)
  {
    hide Chunks, MetaOf, Whenever;
    ChunksSplit(bytes, from, sent, out);
    var first, a, b := Whenever(!heard, MetaOf(id, range, |bytes|)), Chunks(bytes, from, sent), Chunks(bytes, sent, out);
    NothingWhenever(Text(Eof(Some(id))));
    assert first + a + [] == first + a;
    ConcatAssoc(first, a, b);
  }

  lemma NothingWhenever(item: Item)
    ensures Whenever(false, item) == []
  {
  }

  // ---- the requester's channel ----

  predicate CancelItem(item: Item, below: nat) {
    item.Text? && item.frame.CancelWant? && item.frame.id.Some? && item.frame.id.value < below
  }

  /** Only cancels of requests below `below`. */
  predicate Stale(toB: seq<Item>, below: nat) {
    forall k :: 0 <= k < |toB| ==> CancelItem(toB[k], below)
  }

  function WantItem(id: nat, w: Wanted): Item {
    Text(Want(Some(id), Some(w.key), FieldOf(w.range)))
  }

  function CancelTail(p: Pending): seq<Item> {
    Whenever(p.cancelled, Text(CancelWant(Some(p.id))))
  }

  /** Cancels of earlier requests, the want, and its cancel if it was given up. */
  predicate WantOnItsWay(toB: seq<Item>, p: Pending, w: Wanted) {
    var k := |toB| - 1 - |CancelTail(p)|;
    k >= 0 && Stale(toB[..k], p.id) && toB[k] == WantItem(p.id, w) && toB[k + 1..] == CancelTail(p)
  }

  // ---- the states of one request ----

  /** Nothing of the response has been heard. */
  predicate Unheard(p: Pending) {
    p.size.None? && p.received == 0 && p.chunks == 0 && p.parts == []
  }

  function UploadOf(p: Pending, w: Wanted, cancelled: bool): Upload {
    Upload(p.id, w.key, cancelled, w.range)
  }

  /** The want is on its way, or the holder is fetching the bytes. */
  predicate Asking(p: Pending, w: Wanted, open: bool, h: Holder, toA: seq<Item>, toB: seq<Item>) {
    && Unheard(p) && toA == []
    && (open ==>
          || (h == Idle && WantOnItsWay(toB, p, w))
          || (h == Fetching(UploadOf(p, w, false)) && toB == CancelTail(p))
          || (h == Fetching(UploadOf(p, w, true)) && toB == [] && p.cancelled))
  }

  /** The holder has nothing for it, or gave it up before it had the bytes. */
  predicate Declined(p: Pending, open: bool, h: Holder, toA: seq<Item>, toB: seq<Item>) {
    && Unheard(p) && toA == [Text(Nothing(Some(p.id)))]
    && (open ==> h == Idle && Stale(toB, p.id + 1))
  }

  /** What the requester has heard of `bytes`. */
  predicate Heard(p: Pending, bytes: seq<byte>) {
    && p.received <= |bytes| && Aligned(p.received, |bytes|) && p.chunks == DivCeil(p.received, CHUNK_BYTES)
    && (if p.size.None? then p.received == 0 else p.size.value == |bytes|)
    && (!p.draining ==> p.parts == bytes[..p.received])
  }

  /** `out` bytes of the response went out; it ends early only for a cancel. */
  predicate PartlySent(p: Pending, w: Wanted, bytes: seq<byte>, open: bool, h: Holder, toA: seq<Item>, toB: seq<Item>, out: nat, ended: bool) {
    && Heard(p, bytes) && p.received <= out <= |bytes| && Aligned(out, |bytes|)
    && toA == StillComing(p.id, w.range, bytes, p.size.Some?, p.received, out, ended)
    && (ended ==> out == |bytes| || p.cancelled)
    && (open ==>
          if ended then h == Idle && Stale(toB, p.id + 1)
          else h == Streaming(UploadOf(p, w, false), bytes, out) && out < |bytes| && toB == CancelTail(p))
  }

  /** The request agrees with what it asked for. */
  predicate Proper(objects: map<Key, seq<byte>>, w: Wanted, nextId: nat, p: Pending) {
    && p.id + 1 == nextId && p.range == w.range && p.draining == p.cancelled
    && (p.expected.Some? && Slice(objects, w).Some? ==> p.expected.value == |Slice(objects, w).value|)
  }

  /** Both channels, as the open requester and the holder left them; `open` tells
      whether the holder is open too. */
  ghost predicate Flow(objects: map<Key, seq<byte>>, asked: map<nat, Wanted>, nextId: nat, pending: Option<Pending>, open: bool,
                       h: Holder, toA: seq<Item>, toB: seq<Item>) {
    match pending
    case None => toA == [] && (open ==> h == Idle && Stale(toB, nextId))
    case Some(p) =>
      && p.id in asked && Proper(objects, asked[p.id], nextId, p)
      && (|| Asking(p, asked[p.id], open, h, toA, toB)
          || Declined(p, open, h, toA, toB)
          || (Slice(objects, asked[p.id]).Some? &&
              exists out: nat, ended: bool :: PartlySent(p, asked[p.id], Slice(objects, asked[p.id]).value, open, h, toA, toB, out, ended)))
  }

  /** At most one want is on its way to the holder, and none while it is busy. */
  predicate Orderly(h: Holder, toB: seq<Item>) {
    && (forall k :: 0 <= k < |toB| ==> toB[k].Text? && ((toB[k].frame.CancelWant? && toB[k].frame.id.Some?) || ProperWant(toB[k].frame)))
    && (forall j, k :: 0 <= j < |toB| && 0 <= k < |toB| && toB[j].frame.Want? && toB[k].frame.Want? ==> j == k)
    && (!h.Idle? ==> forall k :: 0 <= k < |toB| ==> toB[k].frame.CancelWant?)
  }

  predicate ProperWant(f: Frame) {
    f.Want? && f.id.Some? && f.key.Some? && !f.range.Malformed?
  }

  // ---- the requester acts ----

  lemma FlowAsks(objects: map<Key, seq<byte>>, asked: map<nat, Wanted>, nextId: nat, p: Pending, w: Wanted, open: bool, h: Holder,
                 toA: seq<Item>, toB: seq<Item>)
    requires Flow(objects, asked, nextId, None, open, h, toA, toB)
    requires p.id == nextId && Unheard(p) && !p.draining && !p.cancelled && Proper(objects, w, nextId + 1, p)
    ensures Flow(objects, asked[p.id := w], nextId + 1, Some(p), open, h, toA, toB + [WantItem(p.id, w)])
    ensures open ==> Orderly(h, toB + [WantItem(p.id, w)])
  {
    var toB' := toB + [WantItem(p.id, w)];
    assert toB'[..|toB|] == toB && toB'[|toB| + 1..] == [];
    assert Asking(p, w, open, h, toA, toB');
  }

  /** `p1` is the request `p` once it was given up. */
  predicate GivenUp(p: Pending, p1: Pending) {
    && !p.draining
    && p1 == p.(draining := true, cancelled := true, parts := [], abandonReason := p1.abandonReason, resolved := true,
                reported := true, deadline := p1.deadline, timer := p1.timer)
  }

  lemma AskingDrops(p: Pending, p1: Pending, w: Wanted, open: bool, h: Holder, toA: seq<Item>, toB: seq<Item>)
    requires Asking(p, w, open, h, toA, toB) && GivenUp(p, p1) && !p.cancelled
    ensures Asking(p1, w, open, h, toA, toB + [Text(CancelWant(Some(p.id)))])
  {
    hide Stale;
    var toB' := toB + [Text(CancelWant(Some(p.id)))];
    if open && h == Idle {
      var k := |toB| - 1;
      assert toB'[..k] == toB[..k] && toB'[k + 1..] == CancelTail(p1);
    }
  }

  lemma StaleMore(toB: seq<Item>, id: nat)
    requires Stale(toB, id + 1)
    ensures Stale(toB + [Text(CancelWant(Some(id)))], id + 1)
  {
  }

  lemma SentDrops(p: Pending, p1: Pending, w: Wanted, bytes: seq<byte>, open: bool, h: Holder, toA: seq<Item>, toB: seq<Item>, out: nat,
                  ended: bool)
    requires PartlySent(p, w, bytes, open, h, toA, toB, out, ended) && GivenUp(p, p1) && !p.cancelled
    ensures PartlySent(p1, w, bytes, open, h, toA, toB + [Text(CancelWant(Some(p.id)))], out, ended)
  {
    hide Stale, StillComing, Aligned;
    if open && ended {
      StaleMore(toB, p.id);
    }
  }

  lemma FlowDrops(objects: map<Key, seq<byte>>, asked: map<nat, Wanted>, nextId: nat, p: Pending, p1: Pending, open: bool, h: Holder,
                  toA: seq<Item>, toB: seq<Item>)
    requires Flow(objects, asked, nextId, Some(p), open, h, toA, toB) && GivenUp(p, p1)
    ensures Flow(objects, asked, nextId, Some(p1), open, h, toA, toB + [Text(CancelWant(Some(p.id)))])
  {
    hide Asking, PartlySent, Stale;
    var w, toB' := asked[p.id], toB + [Text(CancelWant(Some(p.id)))];
    if Asking(p, w, open, h, toA, toB) {
      AskingDrops(p, p1, w, open, h, toA, toB);
    } else if !Declined(p, open, h, toA, toB) {
      var bytes := Slice(objects, w).value;
      var out: nat, ended: bool :| PartlySent(p, w, bytes, open, h, toA, toB, out, ended);
      SentDrops(p, p1, w, bytes, open, h, toA, toB, out, ended);
    } else if open {
      StaleMore(toB, p.id);
    }
  }

  lemma OrderlyCancel(h: Holder, toB: seq<Item>, id: nat)
    requires Orderly(h, toB)
    ensures Orderly(h, toB + [Text(CancelWant(Some(id)))])
  {
  }

  /** The holder has gone; what it sent is still on its way. */
  lemma FlowLost(objects: map<Key, seq<byte>>, asked: map<nat, Wanted>, nextId: nat, pending: Option<Pending>, open: bool, h: Holder,
                 h': Holder, toA: seq<Item>, toB: seq<Item>, toB': seq<Item>)
    requires Flow(objects, asked, nextId, pending, open, h, toA, toB)
    ensures Flow(objects, asked, nextId, pending, false, h', toA, toB')
  {
    if pending.Some? {
      var p, w := pending.value, asked[pending.value.id];
      if !Asking(p, w, open, h, toA, toB) && !Declined(p, open, h, toA, toB) {
        var bytes := Slice(objects, w).value;
        var out: nat, ended: bool :| PartlySent(p, w, bytes, open, h, toA, toB, out, ended);
        assert PartlySent(p, w, bytes, false, h', toA, toB', out, ended);
      } else if Asking(p, w, open, h, toA, toB) {
        assert Asking(p, w, false, h', toA, toB');
      } else {
        assert Declined(p, false, h', toA, toB');
      }
    }
  }

  // ---- the requester hears ----

  /** Every object can be sent to a requester that takes `limit` bytes. */
  predicate Honest(objects: map<Key, seq<byte>>, limit: nat) {
    forall key :: key in objects ==> 1 <= |objects[key]| <= limit
  }

  lemma SliceFits(objects: map<Key, seq<byte>>, w: Wanted, limit: nat)
    requires Honest(objects, limit) && Slice(objects, w).Some?
    ensures 1 <= |Slice(objects, w).value| <= limit
  {
    if w.range.Some? {
      RangeInside(|objects[w.key]|, w.range.value);
    }
  }

  /** A response never overruns the limit on its chunks. */
  lemma FewChunks(received: nat, n: nat, config: Config)
    requires received < n <= config.maxSegmentBytes && received % CHUNK_BYTES == 0
    ensures DivCeil(received, CHUNK_BYTES) < MaxChunks(config)
  {
    assert DivCeil(received, CHUNK_BYTES) * CHUNK_BYTES <= received;
    assert config.maxSegmentBytes <= DivCeil(config.maxSegmentBytes, CHUNK_BYTES) * CHUNK_BYTES;
  }

  lemma OneMoreChunk(received: nat, n: nat)
    requires received < n && received % CHUNK_BYTES == 0
    ensures DivCeil(Min(received + CHUNK_BYTES, n), CHUNK_BYTES) == DivCeil(received, CHUNK_BYTES) + 1
  {
  }

  /** What can arrive at the requester next. */
  lemma FlowHead(objects: map<Key, seq<byte>>, asked: map<nat, Wanted>, nextId: nat, pending: Option<Pending>, open: bool, h: Holder,
                 toA: seq<Item>, toB: seq<Item>)
    requires Flow(objects, asked, nextId, pending, open, h, toA, toB) && toA != []
    ensures pending.Some? && (toA[0].Bytes? || toA[0].frame.Meta? || toA[0].frame.Eof? || toA[0].frame.Nothing?)
    ensures toA[0].Text? ==> toA[0].frame.id == Some(pending.value.id)
  {
  }

  lemma FlowMeta(objects: map<Key, seq<byte>>, asked: map<nat, Wanted>, nextId: nat, p: Pending, open: bool, h: Holder, toA: seq<Item>,
                 toB: seq<Item>, limit: nat)
    requires Flow(objects, asked, nextId, Some(p), open, h, toA, toB) && Honest(objects, limit)
    requires toA != [] && toA[0].Text? && toA[0].frame.Meta?
    ensures p.size.None? && toA[0].frame.size.Some? && 1 <= toA[0].frame.size.value <= limit
    ensures toA[0].frame.range == FieldOf(p.range) && (p.expected.Some? ==> toA[0].frame.size.value == p.expected.value)
    ensures Flow(objects, asked, nextId, Some(p.(size := Some(toA[0].frame.size.value))), open, h, toA[1..], toB)
  {
    hide StillComing;
    var w := asked[p.id];
    var bytes := Slice(objects, w).value;
    var out: nat, ended: bool :| PartlySent(p, w, bytes, open, h, toA, toB, out, ended);
    RemainingHead(p.id, w.range, bytes, p.size.Some?, p.received, out, ended);
    SliceFits(objects, w, limit);
    assert PartlySent(p.(size := Some(|bytes|)), w, bytes, open, h, toA[1..], toB, out, ended);
  }

  /** The request once it has heard a chunk. */
  function WithChunk(p: Pending, chunk: seq<byte>): Pending {
    var q := p.(chunks := p.chunks + 1, received := p.received + |chunk|);
    if p.draining then q else q.(parts := p.parts + chunk)
  }

  lemma FlowChunk(objects: map<Key, seq<byte>>, asked: map<nat, Wanted>, nextId: nat, p: Pending, open: bool, h: Holder, toA: seq<Item>,
                  toB: seq<Item>, config: Config)
    requires Flow(objects, asked, nextId, Some(p), open, h, toA, toB) && Honest(objects, config.maxSegmentBytes)
    requires toA != [] && toA[0].Bytes?
    ensures p.size.Some? && 1 <= |toA[0].bytes| <= CHUNK_BYTES && p.chunks < MaxChunks(config)
    ensures p.received + |toA[0].bytes| <= p.size.value
    ensures Flow(objects, asked, nextId, Some(WithChunk(p, toA[0].bytes)), open, h, toA[1..], toB)
  {
    hide PartlySent, Slice, MaxChunks;
    var w := asked[p.id];
    var bytes := Slice(objects, w).value;
    var out: nat, ended: bool :| PartlySent(p, w, bytes, open, h, toA, toB, out, ended);
    SliceFits(objects, w, config.maxSegmentBytes);
    AnsweredChunk(p, w, bytes, open, h, toA, toB, out, ended, config);
  }

  lemma AnsweredChunk(p: Pending, w: Wanted, bytes: seq<byte>, open: bool, h: Holder, toA: seq<Item>, toB: seq<Item>, out: nat, ended: bool,
                      config: Config)
    requires PartlySent(p, w, bytes, open, h, toA, toB, out, ended) && |bytes| <= config.maxSegmentBytes && toA != [] && toA[0].Bytes?
    ensures p.size.Some? && 1 <= |toA[0].bytes| <= CHUNK_BYTES && p.chunks < MaxChunks(config)
    ensures p.received + |toA[0].bytes| <= p.size.value
    ensures PartlySent(WithChunk(p, toA[0].bytes), w, bytes, open, h, toA[1..], toB, out, ended)
  {
    hide MaxChunks, StillComing, Heard;
    RemainingHead(p.id, w.range, bytes, p.size.Some?, p.received, out, ended);
    HeardMore(p, bytes, out);
    FewChunks(p.received, |bytes|, config);
  }

  lemma HeardMore(p: Pending, bytes: seq<byte>, out: nat)
    requires Heard(p, bytes) && p.size.Some? && p.received < out <= |bytes| && Aligned(out, |bytes|)
    ensures var end := Min(p.received + CHUNK_BYTES, out);
            Heard(WithChunk(p, bytes[p.received..end]), bytes) && p.received < end <= p.received + CHUNK_BYTES
    ensures p.size.value == |bytes| && p.chunks == DivCeil(p.received, CHUNK_BYTES) && p.received % CHUNK_BYTES == 0
  {
    var end := Min(p.received + CHUNK_BYTES, out);
    assert end == Min(p.received + CHUNK_BYTES, |bytes|);
    OneMoreChunk(p.received, |bytes|);
    assert bytes[..p.received] + bytes[p.received..end] == bytes[..end];
  }

  /** An `eof` ends the response it should: all of it, or a cancelled one. */
  lemma FlowEof(objects: map<Key, seq<byte>>, asked: map<nat, Wanted>, nextId: nat, p: Pending, open: bool, h: Holder, toA: seq<Item>,
                toB: seq<Item>)
    requires Flow(objects, asked, nextId, Some(p), open, h, toA, toB) && toA != [] && toA[0].Text? && toA[0].frame.Eof?
    ensures p.size.Some? && (p.cancelled || (!p.draining && p.size == Some(p.received) && Slice(objects, asked[p.id]) == Some(p.parts)))
    ensures Flow(objects, asked, nextId, None, open, h, toA[1..], toB)
  {
    hide StillComing, Slice;
    var w := asked[p.id];
    var bytes := Slice(objects, w).value;
    var out: nat, ended: bool :| PartlySent(p, w, bytes, open, h, toA, toB, out, ended);
    RemainingHead(p.id, w.range, bytes, p.size.Some?, p.received, out, ended);
    assert bytes[..|bytes|] == bytes;
  }

  lemma FlowNothing(objects: map<Key, seq<byte>>, asked: map<nat, Wanted>, nextId: nat, p: Pending, open: bool, h: Holder, toA: seq<Item>,
                    toB: seq<Item>)
    requires Flow(objects, asked, nextId, Some(p), open, h, toA, toB) && toA != [] && toA[0].Text? && toA[0].frame.Nothing?
    ensures p.size.None? && Flow(objects, asked, nextId, None, open, h, toA[1..], toB)
  {
  }

  // ---- the holder hears and answers ----

  /** What a frame of the requester does to an open holder that takes wants when
      it is idle, and what the holder answers at once. */
  function Hears(h: Holder, f: Frame): (Holder, seq<Item>) {
    match f
    case Want(Some(id), Some(key), range) => (Fetching(Upload(id, key, false, if range.Exactly? then Some(range.range) else None)), [])
    case CancelWant(Some(id)) =>
      if h.Fetching? then (Fetching(MarkOne(h.upload, id)), [])
      else if h.Streaming? && h.upload.id == id then (Idle, [Text(Eof(Some(id)))])
      else (h, [])
    case _ => (h, [])
  }

  lemma OrderlyHears(h: Holder, toB: seq<Item>)
    requires Orderly(h, toB) && toB != []
    ensures toB[0].Text? && (toB[0].frame.Want? ==> h.Idle? && ProperWant(toB[0].frame))
    ensures Orderly(Hears(h, toB[0].frame).0, toB[1..])
  {
    assert forall k :: 0 <= k < |toB[1..]| ==> toB[1..][k] == toB[k + 1];
  }

  lemma OrderlyBusy(h: Holder, h': Holder, toB: seq<Item>)
    requires Orderly(h, toB) && !h.Idle?
    ensures Orderly(h', toB)
  {
  }

  lemma FlowHears(objects: map<Key, seq<byte>>, asked: map<nat, Wanted>, nextId: nat, pending: Option<Pending>, h: Holder, toA: seq<Item>,
                  toB: seq<Item>)
    requires Flow(objects, asked, nextId, pending, true, h, toA, toB) && toB != [] && toB[0].Text?
    ensures Flow(objects, asked, nextId, pending, true, Hears(h, toB[0].frame).0, toA + Hears(h, toB[0].frame).1, toB[1..])
  {
    var f, h', toA' := toB[0].frame, Hears(h, toB[0].frame).0, toA + Hears(h, toB[0].frame).1;
    if pending.Some? {
      var p, w := pending.value, asked[pending.value.id];
      if Asking(p, w, true, h, toA, toB) {
        AskingHears(p, w, h, toB);
      } else if Declined(p, true, h, toA, toB) {
        assert toA + [] == toA;
        assert Declined(p, true, h', toA', toB[1..]);
      } else {
        var bytes := Slice(objects, w).value;
        var out: nat, ended: bool :| PartlySent(p, w, bytes, true, h, toA, toB, out, ended);
        assert toA + [] == toA;
        assert PartlySent(p, w, bytes, true, h', toA', toB[1..], out, true);
      }
    }
  }

  lemma AskingHears(p: Pending, w: Wanted, h: Holder, toB: seq<Item>)
    requires Asking(p, w, true, h, [], toB) && toB != [] && toB[0].Text?
    ensures Hears(h, toB[0].frame).1 == [] && Asking(p, w, true, Hears(h, toB[0].frame).0, [], toB[1..])
  {
    if h == Idle {
      var k := |toB| - 1 - |CancelTail(p)|;
      if k > 0 {
        assert CancelItem(toB[..k][0], p.id);
        assert toB[1..][..k - 1] == toB[..k][1..] && toB[1..][k..] == toB[k + 1..];
      }
    }
  }

  lemma FlowDeclines(objects: map<Key, seq<byte>>, asked: map<nat, Wanted>, nextId: nat, pending: Option<Pending>, h: Holder,
                     toA: seq<Item>, toB: seq<Item>)
    requires Flow(objects, asked, nextId, pending, true, h, toA, toB) && h.Fetching?
    ensures Flow(objects, asked, nextId, pending, true, Idle, toA + [Text(Nothing(Some(h.upload.id)))], toB)
  {
    assert Declined(pending.value, true, Idle, toA + [Text(Nothing(Some(h.upload.id)))], toB);
  }

  /** The holder is idle after an ended response, and paused otherwise. */
  function After(u: Upload, bytes: seq<byte>, out: nat, ended: bool): Holder {
    if ended then Idle else Streaming(u, bytes, out)
  }

  lemma FlowAnswers(objects: map<Key, seq<byte>>, asked: map<nat, Wanted>, nextId: nat, pending: Option<Pending>, h: Holder,
                    toA: seq<Item>, toB: seq<Item>, bytes: seq<byte>, out: nat, ended: bool)
    requires Flow(objects, asked, nextId, pending, true, h, toA, toB) && h.Fetching? && !h.upload.cancelled
    requires Slice(objects, Wanted(h.upload.key, h.upload.range)) == Some(bytes)
    requires out <= |bytes| && Aligned(out, |bytes|) && (if ended then out == |bytes| else out < |bytes|)
    ensures Flow(objects, asked, nextId, pending, true, After(h.upload, bytes, out, ended),
                 toA + StillComing(h.upload.id, h.upload.range, bytes, false, 0, out, ended), toB)
  {
    var p, w := pending.value, asked[pending.value.id];
    assert Asking(p, w, true, h, toA, toB);
    assert w == Wanted(h.upload.key, h.upload.range);
    var toA' := toA + StillComing(h.upload.id, h.upload.range, bytes, false, 0, out, ended);
    assert toA' == StillComing(p.id, w.range, bytes, false, 0, out, ended);
    assert PartlySent(p, w, bytes, true, After(h.upload, bytes, out, ended), toA', toB, out, ended);
  }

  lemma FlowResumes(objects: map<Key, seq<byte>>, asked: map<nat, Wanted>, nextId: nat, pending: Option<Pending>, h: Holder,
                    toA: seq<Item>, toB: seq<Item>, out: nat, ended: bool)
    requires Flow(objects, asked, nextId, pending, true, h, toA, toB) && h.Streaming?
    requires h.out <= out <= |h.bytes| && Aligned(out, |h.bytes|) && (if ended then out == |h.bytes| else out < |h.bytes|)
    ensures Flow(objects, asked, nextId, pending, true, After(h.upload, h.bytes, out, ended),
                 toA + Chunks(h.bytes, h.out, out) + Whenever(ended, Text(Eof(Some(h.upload.id)))), toB)
  {
    hide StillComing, Slice;
    var p, w := pending.value, asked[pending.value.id];
    var bytes := Slice(objects, w).value;
    var from: nat, early: bool :| PartlySent(p, w, bytes, true, h, toA, toB, from, early);
    ComingGrows(p.id, w.range, bytes, p.size.Some?, p.received, from, out, ended);
    var toA' := toA + Chunks(h.bytes, h.out, out) + Whenever(ended, Text(Eof(Some(h.upload.id))));
    assert PartlySent(p, w, bytes, true, After(h.upload, h.bytes, out, ended), toA', toB, out, ended);
  }

  /** A want that is under way is heard or answered: something is always on its
      way or in the holder's hands. */
  lemma NeverStuck(objects: map<Key, seq<byte>>, asked: map<nat, Wanted>, nextId: nat, pending: Option<Pending>, h: Holder, toA: seq<Item>,
                   toB: seq<Item>)
    requires Flow(objects, asked, nextId, pending, true, h, toA, toB) && pending.Some?
    ensures toA != [] || toB != [] || !h.Idle?
  {
  }

  /** A paused response is the pending request's, and was not cancelled. */
  lemma FlowStreams(objects: map<Key, seq<byte>>, asked: map<nat, Wanted>, nextId: nat, pending: Option<Pending>, h: Holder,
                    toA: seq<Item>, toB: seq<Item>)
    requires Flow(objects, asked, nextId, pending, true, h, toA, toB) && h.Streaming?
    ensures !h.upload.cancelled && h.out < |h.bytes| && Aligned(h.out, |h.bytes|)
  {
  }

  lemma OrderlyNamed(h: Holder, toB: seq<Item>, k: nat)
    requires Orderly(h, toB) && k < |toB|
    ensures toB[k].Text? && ((toB[k].frame.CancelWant? && toB[k].frame.id.Some?) || ProperWant(toB[k].frame))
  {
  }
}

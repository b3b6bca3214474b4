/** Two links joined by FIFO channels, each of them requester and honest holder at
    once, in any order of requests, aborts, timers, answers, backpressure, drains
    and deliveries. */
module TwoLinks {
  import opened Wrappers
  import opened Pieces
  import opened Sorting
  import opened LinkStates
  import opened LinkRuns
  import opened Conversation
  import opened LinkViews

  /** One end: its link, how many items of the other's it has heard, what it asked
      for, and the objects that its shell holds. */
  datatype End = End(link: Link, read: nat, asked: map<nat, Wanted>, objects: map<Key, seq<byte>>)

  /** Both ends; nothing is delivered any more once the channel is `cut`. */
  datatype Pair = Pair(a: End, b: End, cut: bool)

  /** What one end's shell, or time, or the channel does. */
  datatype Action =
    | AskWhole(now: nat, key: Key, timeoutMs: nat, expected: Option<nat>)
    | AskRange(now: nat, key: Key, timeoutMs: nat, range: PieceRange, objectSize: nat)
    | Drop(now: nat, id: nat, abandoned: bool)
    | TickTo(now: nat)
    | Hear(now: nat)
    | Answer(now: nat, held: bool)
    | AnswerRange(now: nat)
    | Drained(now: nat, amount: nat)
    | Observed(amount: nat)
    | CloseFor(reason: Reason)
    | Notice

  datatype Step = First(action: Action) | Second(action: Action) | CutOff

  function Swap(s: Pair): Pair {
    Pair(s.b, s.a, s.cut)
  }

  ghost function ItemsOf(l: Link): seq<Item> {
    Tell(l.log).items
  }

  /** What is on its way from `x` to `y`. */
  ghost function Coming(x: End, y: End): seq<Item> {
    if y.read <= |ItemsOf(x.link)| then ItemsOf(x.link)[y.read..] else []
  }

  // ---- the two conversations on one channel ----

  predicate IsAsk(item: Item) {
    item.Text? && (item.frame.Want? || item.frame.CancelWant?)
  }

  function Asks(items: seq<Item>): seq<Item> {
    if items == [] then [] else Whenever(IsAsk(items[0]), items[0]) + Asks(items[1..])
  }

  function Answers(items: seq<Item>): seq<Item> {
    if items == [] then [] else Whenever(!IsAsk(items[0]), items[0]) + Answers(items[1..])
  }

  lemma {:induction false} AsksConcat(a: seq<Item>, b: seq<Item>)
    ensures Asks(a + b) == Asks(a) + Asks(b) && Answers(a + b) == Answers(a) + Answers(b)
    decreases |a|
  {
    hide IsAsk, Whenever;
    if a == [] {
      assert a + b == b;
      assert [] + Asks(b) == Asks(b) && [] + Answers(b) == Answers(b);
    } else {
      assert (a + b)[1..] == a[1..] + b;
      AsksConcat(a[1..], b);
      ConcatAssoc(Whenever(IsAsk(a[0]), a[0]), Asks(a[1..]), Asks(b));
      ConcatAssoc(Whenever(!IsAsk(a[0]), a[0]), Answers(a[1..]), Answers(b));
    }
  }

  predicate AllAsks(items: seq<Item>) {
    forall k :: 0 <= k < |items| ==> IsAsk(items[k])
  }

  predicate NoAsks(items: seq<Item>) {
    forall k :: 0 <= k < |items| ==> !IsAsk(items[k])
  }

  lemma {:induction false} OnlyAsks(items: seq<Item>)
    ensures AllAsks(items) ==> Asks(items) == items && Answers(items) == []
    ensures NoAsks(items) ==> Asks(items) == [] && Answers(items) == items
    decreases |items|
  {
    if items != [] {
      OnlyAsks(items[1..]);
    }
  }

  // ---- the steps ----

  /** Neither end accuses the other. */
  predicate Polite(reason: Option<Reason>) {
    reason != Some(Protocol) && reason != Some(UploadQueue)
  }

  function Deliver(l: Link, now: nat, item: Item): Link {
    if item.Text? then OnText(l, now, item.frame) else OnBinary(l, now, item.bytes)
  }

  function HolderHas(e: End): Option<seq<byte>> {
    if Awaiting(e.link) && e.link.active.value.upload.key in e.objects then Some(e.objects[e.link.active.value.upload.key]) else None
  }

  /** The bytes of the wanted range of `whole`, if it has them. */
  function RangeOf(l: Link, whole: seq<byte>): seq<byte> {
    if Awaiting(l) && Held(l.active.value.upload, Some(whole)).Some? then Held(l.active.value.upload, Some(whole)).value else whole
  }

  function AskedNow(e: End, w: Wanted): map<nat, Wanted> {
    if e.link.closed || e.link.pending.Some? then e.asked else e.asked[e.link.nextId := w]
  }

  /** Whether a shell may act so: it knows sizes only from the objects themselves,
      and closes no link for the other's fault. */
  predicate May(objects: map<Key, seq<byte>>, action: Action) {
    match action
    case AskWhole(_, key, _, expected) => key in objects && expected.Some? ==> expected.value == |objects[key]|
    case AskRange(_, key, _, _, objectSize) => key in objects ==> objectSize == |objects[key]|
    case CloseFor(reason) => Polite(Some(reason))
    case _ => true
  }

  /** The first end acts; nothing happens when it cannot. */
  ghost function Act(s: Pair, action: Action): Pair {
    var a, l := s.a, s.a.link;
    if !May(s.b.objects, action) then s
    else
      match action
      case AskWhole(now, key, timeoutMs, expected) =>
        s.(a := a.(link := Request(l, now, key, timeoutMs, expected, None), asked := AskedNow(a, Wanted(key, None))))
      case AskRange(now, key, timeoutMs, range, objectSize) =>
        var cut := RangeBytes(objectSize, range);
        if cut.None? || cut.value.1 < cut.value.0 then s
        else
          s.(a := a.(link := Request(l, now, key, timeoutMs, Some(cut.value.1 - cut.value.0), Some(range)),
                     asked := AskedNow(a, Wanted(key, Some(range)))))
      case Drop(now, id, abandoned) => s.(a := a.(link := AbortRequest(l, now, id, abandoned)))
      case TickTo(now) => if Shape(l) then s.(a := a.(link := Tick(l, now))) else s
      case Hear(now) =>
        var items := Coming(s.b, a);
        if s.cut || items == [] then s else s.(a := a.(link := Deliver(l, now, items[0]), read := a.read + 1))
      case Answer(now, held) => s.(a := a.(link := Serve(l, now, if held then HolderHas(a) else None)))
      case AnswerRange(now) =>
        var held := HolderHas(a);
        if held.None? then s else s.(a := a.(link := ServeOnly(l, now, |held.value|, RangeOf(l, held.value))))
      case Drained(now, amount) => s.(a := a.(link := Low(l, now, amount)))
      case Observed(amount) => s.(a := a.(link := l.(buffered := amount)))
      case CloseFor(reason) => s.(a := a.(link := Close(l, reason)))
      case Notice => if s.cut then s.(a := a.(link := l.(channelOpen := false, past := l.past.(shut := true)))) else s
  }

  ghost function Apply(s: Pair, step: Step): Pair {
    match step
    case First(action) => Act(s, action)
    case Second(action) => Swap(Act(Swap(s), action))
    case CutOff => s.(cut := true)
  }

  ghost function Run(s: Pair, steps: seq<Step>): Pair
    decreases |steps|
  {
    if steps == [] then s else Apply(Run(s, steps[..|steps| - 1]), steps[|steps| - 1])
  }

  function StartEnd(config: Config, reliable: bool, now: nat, objects: map<Key, seq<byte>>): End {
    End(NewLink(config, reliable, now), 0, map[], objects)
  }

  // ---- the joint invariant ----

  /** One end by itself; `other` are the objects that it can ask for. */
  ghost predicate EndOk(e: End, other: End, cut: bool) {
    && Inv(e.link, None) && e.link.queue == [] && Polite(e.link.closeReason) && e.link.config.maxQueued >= 1
    && (e.link.pending.Some? ==> Polite(Some(e.link.pending.value.abandonReason)))
    && Honest(other.objects, e.link.config.maxSegmentBytes) && (forall id :: id in e.asked ==> id < e.link.nextId)
    && other.read <= |ItemsOf(e.link)| && (!cut ==> e.link.channelOpen)
  }

  /** Every payload is the slice that its request asked for. */
  ghost predicate PaidUp(objects: map<Key, seq<byte>>, asked: map<nat, Wanted>, paid: seq<Payment>) {
    forall k :: 0 <= k < |paid| ==> paid[k].id in asked && Slice(objects, asked[paid[k].id]) == Some(paid[k].bytes)
  }

  /** The conversation in which `x` asks and `y` answers. */
  ghost predicate Talk(x: End, y: End, cut: bool) {
    && (!cut && !y.link.closed ==> Orderly(ViewOf(y.link), Asks(Coming(x, y))))
    && (!cut && !x.link.closed ==>
          Flow(y.objects, x.asked, x.link.nextId, x.link.pending, !y.link.closed, ViewOf(y.link), Answers(Coming(y, x)), Asks(Coming(x, y))))
  }

  ghost predicate Half(x: End, y: End, cut: bool) {
    EndOk(x, y, cut) && PaidUp(y.objects, x.asked, Tell(x.link.log).paid) && Talk(x, y, cut)
  }

  ghost predicate Joint(s: Pair) {
    Half(s.a, s.b, s.cut) && Half(s.b, s.a, s.cut)
  }

  lemma SwapJoint(s: Pair)
    ensures Joint(Swap(s)) <==> Joint(s)
  {
    hide Half;
  }

  // ---- what one end's act does to both conversations ----

  lemma Onward(items: seq<Item>, more: seq<Item>, read: nat)
    requires read <= |items|
    ensures (items + more)[read..] == items[read..] + more
  {
  }

  /** The first end says `items`, which are all requests or all answers. */
  lemma Says(x: End, x': End, y: End, items: seq<Item>)
    requires y.read <= |ItemsOf(x.link)| && ItemsOf(x'.link) == ItemsOf(x.link) + items
    ensures Coming(x', y) == Coming(x, y) + items
    ensures AllAsks(items) ==> Asks(Coming(x', y)) == Asks(Coming(x, y)) + items && Answers(Coming(x', y)) == Answers(Coming(x, y))
    ensures NoAsks(items) ==> Answers(Coming(x', y)) == Answers(Coming(x, y)) + items && Asks(Coming(x', y)) == Asks(Coming(x, y))
  {
    hide Tell;
    Onward(ItemsOf(x.link), items, y.read);
    AsksConcat(Coming(x, y), items);
    OnlyAsks(items);
    assert Asks(Coming(x, y)) + [] == Asks(Coming(x, y)) && Answers(Coming(x, y)) + [] == Answers(Coming(x, y));
  }

  /** The first item is heard: it belongs to one of the conversations. */
  lemma HeardOne(items: seq<Item>)
    requires items != []
    ensures if IsAsk(items[0]) then Asks(items) != [] && Asks(items)[0] == items[0] && Asks(items)[1..] == Asks(items[1..]) && Answers(items) == Answers(items[1..])
            else Answers(items) != [] && Answers(items)[0] == items[0] && Answers(items)[1..] == Answers(items[1..]) && Asks(items) == Asks(items[1..])
  {
  }

  lemma ComingNext(x: End, y: End)
    requires y.read <= |ItemsOf(x.link)| && Coming(x, y) != []
    ensures Coming(x, y.(read := y.read + 1)) == Coming(x, y)[1..] && y.read + 1 <= |ItemsOf(x.link)|
  {
    hide Tell;
  }

  /** The first end closes without a word; what it sent stays on its way. */
  lemma FirstEnds(s: Pair, r: Link, reason: Reason)
    requires Joint(s) && Ends(s.a.link, r, reason) && Polite(Some(reason)) && Inv(r, None)
    ensures Joint(s.(a := s.a.(link := r)))
  {
    hide Inv, Tell, Flow, Orderly, Honest, PaidUp, ViewOf, Asks, Answers;
    var a, b, a' := s.a, s.b, s.a.(link := r);
    assert Coming(a', b) == Coming(a, b) && Coming(b, a') == Coming(b, a);
    if !s.cut && !b.link.closed {
      FlowLost(a.objects, b.asked, b.link.nextId, b.link.pending, !a.link.closed, ViewOf(a.link), ViewOf(r),
               Answers(Coming(a, b)), Asks(Coming(b, a)), Asks(Coming(b, a)));
    }
  }

  /** As a requester the first end moves on: it says `items`, and has heard an
      answer if `heard`. */
  lemma FirstMoves(s: Pair, a': End, pending: Option<Pending>, items: seq<Item>, heard: bool)
    requires Joint(s) && !s.a.link.closed && AllAsks(items) && Moves(s.a.link, a'.link, s.a.link.nextId, pending, items)
    requires a' == s.a.(link := a'.link, read := if heard then s.a.read + 1 else s.a.read) && Inv(a'.link, None)
    requires heard ==> Coming(s.b, s.a) != [] && !IsAsk(Coming(s.b, s.a)[0])
    requires pending.Some? ==> Polite(Some(pending.value.abandonReason))
    requires !s.cut ==> Flow(s.b.objects, s.a.asked, s.a.link.nextId, pending, !s.b.link.closed, ViewOf(s.b.link),
                             Answers(Coming(s.b, a')), Asks(Coming(s.a, s.b)) + items)
    requires !s.cut && !s.b.link.closed ==> Orderly(ViewOf(s.b.link), Asks(Coming(s.a, s.b)) + items)
    ensures Joint(s.(a := a'))
  {
    hide Inv, Tell, Flow, Orderly, Honest, PaidUp, ViewOf, Asks, Answers, AllAsks;
    Says(s.a, a', s.b, items);
    HeardStays(s, a', heard);
  }

  lemma HeardStays(s: Pair, a': End, heard: bool)
    requires Joint(s) && a' == s.a.(link := a'.link, read := if heard then s.a.read + 1 else s.a.read)
    requires heard ==> Coming(s.b, s.a) != [] && !IsAsk(Coming(s.b, s.a)[0])
    ensures Asks(Coming(s.b, a')) == Asks(Coming(s.b, s.a)) && a'.read <= |ItemsOf(s.b.link)|
  {
    hide Inv, Tell, Flow, Orderly, Honest, PaidUp, ViewOf, Asks, Answers;
    if heard {
      ComingNext(s.b, s.a);
      HeardOne(Coming(s.b, s.a));
      assert Coming(s.b, a') == Coming(s.b, s.a.(read := s.a.read + 1));
    } else {
      assert Coming(s.b, a') == Coming(s.b, s.a);
    }
  }

  /** As a holder the first end takes a turn: it says `items`, and has heard a
      request if `heard`. */
  lemma FirstTurns(s: Pair, a': End, h: Holder, items: seq<Item>, heard: bool)
    requires Joint(s) && !s.a.link.closed && NoAsks(items) && Turns(s.a.link, a'.link, h, items) && Inv(a'.link, None)
    requires a' == s.a.(link := a'.link, read := if heard then s.a.read + 1 else s.a.read)
    requires heard ==> Coming(s.b, s.a) != [] && IsAsk(Coming(s.b, s.a)[0])
    requires !s.cut && !s.b.link.closed ==> Flow(s.a.objects, s.b.asked, s.b.link.nextId, s.b.link.pending, true, h,
                                                 Answers(Coming(s.a, s.b)) + items, Asks(Coming(s.b, a')))
    requires !s.cut ==> Orderly(h, Asks(Coming(s.b, a')))
    ensures Joint(s.(a := a'))
  {
    hide Inv, Tell, Flow, Orderly, Honest, PaidUp, ViewOf, Asks, Answers, NoAsks;
    Says(s.a, a', s.b, items);
    AskHeard(s, a', heard);
  }

  lemma AskHeard(s: Pair, a': End, heard: bool)
    requires Joint(s) && a' == s.a.(link := a'.link, read := if heard then s.a.read + 1 else s.a.read)
    requires heard ==> Coming(s.b, s.a) != [] && IsAsk(Coming(s.b, s.a)[0])
    ensures Answers(Coming(s.b, a')) == Answers(Coming(s.b, s.a)) && a'.read <= |ItemsOf(s.b.link)|
  {
    hide Inv, Tell, Flow, Orderly, Honest, PaidUp, ViewOf, Asks, Answers;
    if heard {
      ComingNext(s.b, s.a);
      HeardOne(Coming(s.b, s.a));
      assert Coming(s.b, a') == Coming(s.b, s.a.(read := s.a.read + 1));
    } else {
      assert Coming(s.b, a') == Coming(s.b, s.a);
    }
  }

  /** The first end answers where nobody listens any more. */
  lemma FirstStays(s: Pair, r: Link)
    requires Joint(s) && Stays(s.a.link, r) && Inv(r, None) && (s.cut || s.a.link.closed || s.b.link.closed)
    requires !s.cut && !s.a.link.closed ==> Orderly(ViewOf(r), Asks(Coming(s.b, s.a)))
    ensures Joint(s.(a := s.a.(link := r)))
  {
    hide Inv, Tell, Flow, Orderly, Honest, PaidUp, ViewOf, Asks, Answers;
    var a, b, a' := s.a, s.b, s.a.(link := r);
    assert Coming(b, a') == Coming(b, a);
    if !s.cut && a.link.closed {
      assert Coming(a', b) == Coming(a, b);
      if !b.link.closed {
        FlowLost(a.objects, b.asked, b.link.nextId, b.link.pending, false, ViewOf(a.link), ViewOf(r),
                 Answers(Coming(a, b)), Asks(Coming(b, a)), Asks(Coming(b, a)));
      }
    } else if !s.cut {
      FlowLost(b.objects, a.asked, a.link.nextId, a.link.pending, false, ViewOf(b.link), ViewOf(b.link),
               Answers(Coming(b, a)), Asks(Coming(a, b)), Asks(Coming(a', b)));
    }
  }

  /** Time, and the amount buffered. */
  lemma FirstClock(s: Pair, now: nat, buffered: nat)
    requires Joint(s)
    ensures Joint(s.(a := s.a.(link := s.a.link.(clock := now, buffered := buffered))))
  {
    hide Inv, Tell, Flow, Orderly, Honest, PaidUp, Asks, Answers;
    var a' := s.a.(link := s.a.link.(clock := now, buffered := buffered));
    SameAskingKeepsInv(s.a.link, a'.link);
    assert ViewOf(a'.link) == ViewOf(s.a.link) && Coming(a', s.b) == Coming(s.a, s.b) && Coming(s.b, a') == Coming(s.b, s.a);
  }

  // ---- asking ----

  /** What a request with `expected` bytes for `w` needs to be honest. */
  predicate HonestSize(objects: map<Key, seq<byte>>, w: Wanted, expected: Option<nat>) {
    expected.Some? && Slice(objects, w).Some? ==> expected.value == |Slice(objects, w).value|
  }

  lemma RequestJoint(s: Pair, now: nat, key: Key, timeoutMs: nat, expected: Option<nat>, range: Option<PieceRange>)
    requires Joint(s) && HonestSize(s.b.objects, Wanted(key, range), expected)
    ensures Joint(s.(a := s.a.(link := Request(s.a.link, now, key, timeoutMs, expected, range), asked := AskedNow(s.a, Wanted(key, range)))))
  {
    hide Inv, Tell, Flow, Orderly, Honest, PaidUp, Refuse, Ask, Asks, Answers;
    var l, w := s.a.link.(clock := now), Wanted(key, range);
    RequestKeeps(s.a.link, now, key, timeoutMs, expected, range);
    if s.a.link.closed || s.a.link.pending.Some? {
      RefuseMoves(l);
      var a' := s.a.(link := Refuse(l));
      assert ViewOf(a'.link) == ViewOf(s.a.link) && Coming(a', s.b) == Coming(s.a, s.b) && Coming(s.b, a') == Coming(s.b, s.a);
    } else {
      AskJoint(s, l, NewPending(l, now, timeoutMs, expected, range), w);
    }
  }

  lemma AskJoint(s: Pair, l: Link, p: Pending, w: Wanted)
    requires Joint(s) && !s.a.link.closed && s.a.link.pending.None? && l == s.a.link.(clock := l.clock)
    requires p.id == l.nextId && Unheard(p) && !p.draining && !p.cancelled && p.range == w.range && Polite(Some(p.abandonReason))
    requires HonestSize(s.b.objects, w, p.expected) && Inv(Ask(l, p, w.key), None)
    ensures Joint(s.(a := s.a.(link := Ask(l, p, w.key), asked := s.a.asked[s.a.link.nextId := w])))
  {
    hide Inv, Tell, Flow, Orderly, Honest, Ask, Asks, Answers, Unheard;
    AskMoves(l, p, w.key);
    var a, b := s.a, s.b;
    var a' := a.(link := Ask(l, p, w.key), asked := a.asked[a.link.nextId := w]);
    Says(a, a', b, if l.channelOpen then [WantItem(p.id, w)] else []);
    assert Coming(b, a') == Coming(b, a) && ViewOf(a'.link) == ViewOf(a.link);
    PaidUpWider(b.objects, a.asked, a.link.nextId, w, Tell(a.link.log).paid);
    if !s.cut {
      FlowAsks(b.objects, a.asked, a.link.nextId, p, w, !b.link.closed, ViewOf(b.link), Answers(Coming(b, a)), Asks(Coming(a, b)));
    }
  }

  lemma PaidUpWider(objects: map<Key, seq<byte>>, asked: map<nat, Wanted>, id: nat, w: Wanted, paid: seq<Payment>)
    requires PaidUp(objects, asked, paid) && forall i :: i in asked ==> i < id
    ensures PaidUp(objects, asked[id := w], paid)
  {
  }

  // ---- giving up, and time ----

  lemma GiveUpJoint(s: Pair, now: nat, reason: Reason, abandoned: bool)
    requires Joint(s) && s.a.link.pending.Some? && !s.a.link.pending.value.draining && Polite(Some(reason))
    ensures Joint(s.(a := s.a.(link := Abandon(s.a.link, now, reason, abandoned))))
  {
    hide Inv, Tell, Flow, Orderly, Honest, PaidUp, ViewOf, Abandon, Ends, Moves, Asks, Answers;
    var l := s.a.link;
    var p, r := l.pending.value, Abandon(l, now, reason, abandoned);
    InvShape(l);
    AbandonKeeps(l, now, reason, abandoned);
    AbandonMoves(l, now, reason, abandoned);
    if Ends(l, r, reason) {
      FirstEnds(s, r, reason);
    } else {
      var p1, toB := DrainingOne(l, p, now, reason).(cancelled := true), Asks(Coming(s.a, s.b));
      if !s.cut {
        FlowDrops(s.b.objects, s.a.asked, l.nextId, p, p1, !s.b.link.closed, ViewOf(s.b.link), Answers(Coming(s.b, s.a)), toB);
        if !s.b.link.closed {
          OrderlyCancel(ViewOf(s.b.link), toB, p.id);
        }
      }
      assert Coming(s.b, s.a.(link := r)) == Coming(s.b, s.a);
      FirstMoves(s, s.a.(link := r), Some(p1), [Text(CancelWant(Some(p.id)))], false);
    }
  }

  lemma DropJoint(s: Pair, now: nat, id: nat, abandoned: bool)
    requires Joint(s)
    ensures Joint(s.(a := s.a.(link := AbortRequest(s.a.link, now, id, abandoned))))
  {
    hide Joint, Abandon;
    FirstClock(s, now, s.a.link.buffered);
    var l := s.a.link.(clock := now);
    assert s.a.link.(clock := now, buffered := s.a.link.buffered) == l;
    if l.pending.Some? && l.pending.value.id == id && !l.pending.value.draining {
      GiveUpJoint(s.(a := s.a.(link := l)), now, RequestAbort, abandoned);
    }
  }

  lemma FireJoint(s: Pair, d: Due)
    requires Joint(s) && NextDue(s.a.link) == Some(d)
    ensures Joint(s.(a := s.a.(link := Fire(s.a.link, d))))
  {
    hide Inv, Talk, Tell, PaidUp, Honest, Abandon, Close, Ends, ItemsOf, StartNext;
    var l := s.a.link.(clock := d.at);
    var s1 := s.(a := s.a.(link := l));
    FirstClock(s, d.at, s.a.link.buffered);
    assert s.a.link.(clock := d.at, buffered := s.a.link.buffered) == l;
    FireKeeps(s.a.link, d);
    InvShape(l);
    if !d.request {
      UploadEnds(l);
      FirstEnds(s1, Fire(s.a.link, d), UploadDrainTimeout);
    } else if l.pending.value.draining {
      CloseEnds(l, l.pending.value.abandonReason);
      FirstEnds(s1, Close(l, l.pending.value.abandonReason), l.pending.value.abandonReason);
    } else {
      GiveUpJoint(s1, d.at, RequestTimeout, false);
    }
  }

  lemma {:induction false} TickJoint(s: Pair, now: nat)
    requires Joint(s) && Shape(s.a.link)
    ensures Joint(s.(a := s.a.(link := Tick(s.a.link, now))))
    decreases Rank(s.a.link)
  {
    hide Joint, Fire;
    var d := NextDue(s.a.link);
    if d.Some? && d.value.at <= now {
      FireShape(s.a.link, d.value);
      FireJoint(s, d.value);
      TickJoint(s.(a := s.a.(link := Fire(s.a.link, d.value))), now);
    } else {
      assert s.(a := s.a.(link := Tick(s.a.link, now))) == s;
    }
  }

  lemma CloseJoint(s: Pair, reason: Reason)
    requires Joint(s) && Polite(Some(reason))
    ensures Joint(s.(a := s.a.(link := Close(s.a.link, reason))))
  {
    hide Inv, Talk, Tell, PaidUp, Honest, Close, Ends, ItemsOf;
    CloseKeeps(s.a.link, reason, None);
    CloseEnds(s.a.link, reason);
    FirstEnds(s, Close(s.a.link, reason), reason);
  }

  // ---- hearing an answer ----

  lemma DeliverKeeps(l: Link, now: nat, item: Item)
    requires Inv(l, None)
    ensures Inv(Deliver(l, now, item), None)
  {
    hide Inv, OnText, OnBinary;
    if item.Text? {
      OnTextKeeps(l, now, item.frame);
    } else {
      OnBinaryKeeps(l, now, item.bytes);
    }
  }

  /** The first end with the next item heard. */
  ghost function HeardNext(s: Pair, now: nat): End
    requires Coming(s.b, s.a) != []
  {
    s.a.(link := Deliver(s.a.link, now, Coming(s.b, s.a)[0]), read := s.a.read + 1)
  }

  lemma HearJoint(s: Pair, now: nat)
    requires Joint(s) && !s.cut && Coming(s.b, s.a) != []
    ensures Joint(s.(a := HeardNext(s, now)))
  {
    hide Inv, Tell, Flow, Orderly, Honest, PaidUp, ViewOf, OnText, OnBinary, Asks, Answers;
    var items := Coming(s.b, s.a);
    HeardOne(items);
    if s.a.link.closed {
      ClosedHearsJoint(s, now);
    } else if IsAsk(items[0]) {
      HearAskJoint(s, now);
    } else {
      FlowHead(s.b.objects, s.a.asked, s.a.link.nextId, s.a.link.pending, !s.b.link.closed, ViewOf(s.b.link), Answers(items),
               Asks(Coming(s.a, s.b)));
      if items[0].Bytes? {
        HearChunkJoint(s, now);
      } else if items[0].frame.Meta? {
        HearMetaJoint(s, now);
      } else if items[0].frame.Eof? {
        HearEofJoint(s, now);
      } else {
        HearNothingJoint(s, now);
      }
    }
  }

  lemma ClosedHearsJoint(s: Pair, now: nat)
    requires Joint(s) && !s.cut && Coming(s.b, s.a) != [] && s.a.link.closed
    ensures Joint(s.(a := HeardNext(s, now)))
  {
    hide Inv, Tell, Flow, Orderly, Honest, PaidUp, OnText, OnBinary, Asks, Answers;
    var a, b, item, a' := s.a, s.b, Coming(s.b, s.a)[0], HeardNext(s, now);
    ClosedHears(a.link, now, if item.Text? then item.frame else Ignored, if item.Bytes? then item.bytes else []);
    DeliverKeeps(a.link, now, item);
    ComingNext(b, a);
    assert Coming(a', b) == Coming(a, b);
    if !b.link.closed {
      FlowLost(a.objects, b.asked, b.link.nextId, b.link.pending, false, ViewOf(a.link), ViewOf(a'.link),
               Answers(Coming(a, b)), Asks(Coming(b, a)), Asks(Coming(b, a')));
    }
  }

  /** What the requester's side needs of an answer. */
  ghost predicate Expects(s: Pair) {
    && Joint(s) && !s.cut && !s.a.link.closed && s.a.link.pending.Some?
    && Coming(s.b, s.a) != [] && !IsAsk(Coming(s.b, s.a)[0])
  }

  lemma ExpectsNext(s: Pair, now: nat)
    requires Expects(s)
    ensures var items := Coming(s.b, s.a);
            && Answers(items) != [] && Answers(items)[0] == items[0] && Answers(items)[1..] == Answers(Coming(s.b, HeardNext(s, now)))
            && Flow(s.b.objects, s.a.asked, s.a.link.nextId, s.a.link.pending, !s.b.link.closed, ViewOf(s.b.link), Answers(items),
                    Asks(Coming(s.a, s.b)))
            && Inv(HeardNext(s, now).link, None) && s.a.link.pending.value.id in s.a.asked && Asks(Coming(s.a, s.b)) + [] == Asks(Coming(s.a, s.b))
  {
    hide Inv, Tell, Flow, Orderly, Honest, PaidUp, ViewOf, OnText, OnBinary, Asks, Answers;
    HeardOne(Coming(s.b, s.a));
    ComingNext(s.b, s.a);
    DeliverKeeps(s.a.link, now, Coming(s.b, s.a)[0]);
    assert Coming(s.b, HeardNext(s, now)) == Coming(s.b, s.a.(read := s.a.read + 1));
    FlowNamed(s.b.objects, s.a.asked, s.a.link.nextId, s.a.link.pending.value, !s.b.link.closed, ViewOf(s.b.link),
              Answers(Coming(s.b, s.a)), Asks(Coming(s.a, s.b)));
  }

  lemma FlowNamed(objects: map<Key, seq<byte>>, asked: map<nat, Wanted>, nextId: nat, p: Pending, open: bool, h: Holder, toA: seq<Item>,
                  toB: seq<Item>)
    requires Flow(objects, asked, nextId, Some(p), open, h, toA, toB)
    ensures p.id in asked
  {
  }

  lemma HearChunkJoint(s: Pair, now: nat)
    requires Expects(s) && Coming(s.b, s.a)[0].Bytes?
    ensures Joint(s.(a := HeardNext(s, now)))
  {
    hide Inv, Tell, Flow, Orderly, Honest, PaidUp, ViewOf, OnText, OnBinary, Moves, Asks, Answers;
    var p, item := s.a.link.pending.value, Coming(s.b, s.a)[0];
    ExpectsNext(s, now);
    FlowChunk(s.b.objects, s.a.asked, s.a.link.nextId, p, !s.b.link.closed, ViewOf(s.b.link), Answers(Coming(s.b, s.a)),
              Asks(Coming(s.a, s.b)), s.a.link.config);
    ChunkMoves(s.a.link, now, item.bytes);
    FirstMoves(s, HeardNext(s, now), Some(WithChunk(p, item.bytes)), [], true);
  }

  lemma HearMetaJoint(s: Pair, now: nat)
    requires Expects(s) && Coming(s.b, s.a)[0].Text? && Coming(s.b, s.a)[0].frame.Meta?
    requires Coming(s.b, s.a)[0].frame.id == Some(s.a.link.pending.value.id)
    ensures Joint(s.(a := HeardNext(s, now)))
  {
    hide Inv, Tell, Flow, Orderly, Honest, PaidUp, ViewOf, OnText, OnBinary, Moves, Asks, Answers;
    var p, item := s.a.link.pending.value, Coming(s.b, s.a)[0];
    ExpectsNext(s, now);
    FlowMeta(s.b.objects, s.a.asked, s.a.link.nextId, p, !s.b.link.closed, ViewOf(s.b.link), Answers(Coming(s.b, s.a)),
             Asks(Coming(s.a, s.b)), s.a.link.config.maxSegmentBytes);
    var n: nat := item.frame.size.value;
    assert item.frame == Meta(Some(p.id), Some(n), item.frame.range);
    MetaMoves(s.a.link, now, n, item.frame.range);
    FirstMoves(s, HeardNext(s, now), Some(p.(size := Some(n))), [], true);
  }

  lemma HearNothingJoint(s: Pair, now: nat)
    requires Expects(s) && Coming(s.b, s.a)[0] == Text(Nothing(Some(s.a.link.pending.value.id)))
    ensures Joint(s.(a := HeardNext(s, now)))
  {
    hide Inv, Tell, Flow, Orderly, Honest, PaidUp, ViewOf, OnText, OnBinary, Moves, Asks, Answers;
    ExpectsNext(s, now);
    FlowNothing(s.b.objects, s.a.asked, s.a.link.nextId, s.a.link.pending.value, !s.b.link.closed, ViewOf(s.b.link),
                Answers(Coming(s.b, s.a)), Asks(Coming(s.a, s.b)));
    NothingMoves(s.a.link, now);
    FirstMoves(s, HeardNext(s, now), None, [], true);
  }

  /** An `eof` settles the request: with the whole slice, or as a cancelled one. */
  lemma HearEofJoint(s: Pair, now: nat)
    requires Expects(s) && Coming(s.b, s.a)[0] == Text(Eof(Some(s.a.link.pending.value.id)))
    ensures Joint(s.(a := HeardNext(s, now)))
  {
    hide Inv, Tell, Flow, Orderly, Honest, PaidUp, ViewOf, OnText, OnBinary, Moves, Asks, Answers, Slice;
    var p := s.a.link.pending.value;
    ExpectsNext(s, now);
    FlowEof(s.b.objects, s.a.asked, s.a.link.nextId, p, !s.b.link.closed, ViewOf(s.b.link), Answers(Coming(s.b, s.a)),
            Asks(Coming(s.a, s.b)));
    if p.cancelled {
      CancelledMoves(s.a.link, now);
      FirstMoves(s, HeardNext(s, now), None, [], true);
    } else {
      PaidJoint(s, now);
    }
  }

  lemma PaidJoint(s: Pair, now: nat)
    requires Expects(s) && Coming(s.b, s.a)[0] == Text(Eof(Some(s.a.link.pending.value.id)))
    requires var p := s.a.link.pending.value;
             && !p.cancelled && !p.draining && p.size == Some(p.received)
             && p.id in s.a.asked && Slice(s.b.objects, s.a.asked[p.id]) == Some(p.parts)
    requires Flow(s.b.objects, s.a.asked, s.a.link.nextId, None, !s.b.link.closed, ViewOf(s.b.link),
                  Answers(Coming(s.b, HeardNext(s, now))), Asks(Coming(s.a, s.b)))
    ensures Joint(s.(a := HeardNext(s, now)))
  {
    hide Inv, Tell, Flow, Orderly, Honest, PaidUp, ViewOf, OnText, OnBinary, Asks, Answers, Slice;
    var p, a' := s.a.link.pending.value, HeardNext(s, now);
    ExpectsNext(s, now);
    InvPending(s.a.link);
    PaidMoves(s.a.link, now);
    PaidUpNext(s.b.objects, s.a.asked, Tell(s.a.link.log).paid, Payment(p.id, p.parts));
    HeardStays(s, a', true);
    assert Coming(a', s.b) == Coming(s.a, s.b);
  }

  lemma PaidUpNext(objects: map<Key, seq<byte>>, asked: map<nat, Wanted>, paid: seq<Payment>, next: Payment)
    requires PaidUp(objects, asked, paid) && next.id in asked && Slice(objects, asked[next.id]) == Some(next.bytes)
    ensures PaidUp(objects, asked, paid + [next])
  {
  }

  // ---- hearing a request, and answering ----

  lemma HearAskJoint(s: Pair, now: nat)
    requires Joint(s) && !s.cut && !s.a.link.closed && Coming(s.b, s.a) != [] && IsAsk(Coming(s.b, s.a)[0])
    ensures Joint(s.(a := HeardNext(s, now)))
  {
    hide Inv, Tell, Flow, Orderly, Honest, PaidUp, ViewOf, OnText, OnBinary, Turns, Hears, Asks, Answers;
    var items, h := Coming(s.b, s.a), ViewOf(s.a.link);
    HeardOne(items);
    ComingNext(s.b, s.a);
    DeliverKeeps(s.a.link, now, items[0]);
    var f := items[0].frame;
    assert Coming(s.b, HeardNext(s, now)) == items[1..];
    OrderlyHears(h, Asks(items));
    OrderlyNamed(h, Asks(items), 0);
    HearsTurns(s.a.link, now, f);
    HearsAnswers(h, f);
    if !s.b.link.closed {
      FlowHears(s.a.objects, s.b.asked, s.b.link.nextId, s.b.link.pending, h, Answers(Coming(s.a, s.b)), Asks(items));
    }
    FirstTurns(s, HeardNext(s, now), Hears(h, f).0, Hears(h, f).1, true);
  }

  lemma HearsAnswers(h: Holder, f: Frame)
    ensures NoAsks(Hears(h, f).1)
  {
  }

  lemma {:induction false} ChunksAnswer(bytes: seq<byte>, from: nat, upto: nat)
    requires from <= upto <= |bytes|
    ensures NoAsks(Chunks(bytes, from, upto))
    decreases upto - from
  {
    if from < upto {
      ChunksAnswer(bytes, Min(from + CHUNK_BYTES, upto), upto);
    }
  }

  lemma NoAsksConcat(a: seq<Item>, b: seq<Item>)
    requires NoAsks(a) && NoAsks(b)
    ensures NoAsks(a + b)
  {
  }

  lemma RemainingAnswers(id: int, range: Option<PieceRange>, bytes: seq<byte>, heard: bool, from: nat, out: nat, ended: bool)
    requires from <= out <= |bytes|
    ensures NoAsks(StillComing(id, range, bytes, heard, from, out, ended))
  {
    ChunksAnswer(bytes, from, out);
    var meta, last := Whenever(!heard, MetaOf(id, range, |bytes|)), Whenever(ended, Text(Eof(Some(id))));
    NoAsksConcat(meta, Chunks(bytes, from, out));
    NoAsksConcat(meta + Chunks(bytes, from, out), last);
  }

  /** What an answer to the active upload comes to: nothing, or `slice` up to a cut. */
  ghost predicate Replying(l: Link, r: Link, slice: Option<seq<byte>>, out: nat, ended: bool)
    requires Awaiting(l)
  {
    var u := l.active.value.upload;
    if slice.None? || u.cancelled then Turns(l, r, Idle, [Text(Nothing(Some(u.id)))])
    else
      && out <= |slice.value| && Aligned(out, |slice.value|) && (if ended then out == |slice.value| else out < |slice.value|)
      && Turns(l, r, After(u, slice.value, out, ended), StillComing(u.id, u.range, slice.value, false, 0, out, ended))
  }

  lemma AnsweringJoint(s: Pair, r: Link, slice: Option<seq<byte>>, out: nat, ended: bool)
    requires Joint(s) && !s.cut && !s.a.link.closed && Awaiting(s.a.link) && Inv(r, None)
    requires var u := s.a.link.active.value.upload; slice.Some? ==> slice == Slice(s.a.objects, Wanted(u.key, u.range))
    requires Replying(s.a.link, r, slice, out, ended)
    ensures Joint(s.(a := s.a.(link := r)))
  {
    hide Inv, Tell, Flow, Orderly, Honest, PaidUp, Turns, StillComing, After, Asks, Answers, NoAsks;
    var u, h, b := s.a.link.active.value.upload, ViewOf(s.a.link), s.b;
    var a' := s.a.(link := r);
    var toA, toB := Asks(Coming(b, s.a)), Answers(Coming(s.a, b));
    assert Coming(b, a') == Coming(b, s.a);
    if slice.None? || u.cancelled {
      if !b.link.closed {
        FlowDeclines(s.a.objects, b.asked, b.link.nextId, b.link.pending, h, toB, toA);
      }
      OrderlyBusy(h, Idle, toA);
      NothingAnswers(u.id);
      FirstTurns(s, a', Idle, [Text(Nothing(Some(u.id)))], false);
    } else {
      if !b.link.closed {
        FlowAnswers(s.a.objects, b.asked, b.link.nextId, b.link.pending, h, toB, toA, slice.value, out, ended);
      }
      OrderlyBusy(h, After(u, slice.value, out, ended), toA);
      RemainingAnswers(u.id, u.range, slice.value, false, 0, out, ended);
      FirstTurns(s, a', After(u, slice.value, out, ended), StillComing(u.id, u.range, slice.value, false, 0, out, ended), false);
    }
  }

  lemma NothingAnswers(id: int)
    ensures NoAsks([Text(Nothing(Some(id)))])
  {
  }

  /** The shell answers with what it holds, or with nothing. */
  lemma AnswerJoint(s: Pair, now: nat, held: Option<seq<byte>>)
    requires Joint(s) && (held.None? || held == HolderHas(s.a))
    ensures Joint(s.(a := s.a.(link := Serve(s.a.link, now, held))))
  {
    hide Inv, Tell, Flow, Orderly, Honest, PaidUp, Serve, Turns, StillComing, Stays, Asks, Answers, NoAsks;
    var l, r := s.a.link, Serve(s.a.link, now, held);
    ServeKeeps(l, now, held);
    ServeStays(l, now, held, 0, [], 0);
    if !Awaiting(l) {
      NotAwaiting(l, now, held);
      FirstClock(s, now, l.buffered);
      assert l.(clock := now, buffered := l.buffered) == l.(clock := now);
    } else if s.cut || l.closed {
      FirstStays(s, r);
    } else {
      var out, ended := ServeTurns(l, now, held);
      AnsweringJoint(s, r, Held(l.active.value.upload, held), out, ended);
    }
  }

  lemma NotAwaiting(l: Link, now: nat, held: Option<seq<byte>>)
    requires !Awaiting(l)
    ensures Serve(l, now, held) == l.(clock := now)
  {
  }

  lemma AnswerRangeJoint(s: Pair, now: nat, whole: seq<byte>)
    requires Joint(s) && HolderHas(s.a) == Some(whole)
    ensures Joint(s.(a := s.a.(link := ServeOnly(s.a.link, now, |whole|, RangeOf(s.a.link, whole)))))
  {
    hide Inv, Tell, Flow, Orderly, Honest, PaidUp, ServeOnly, Turns, StillComing, Stays, Asks, Answers, NoAsks;
    var l, bytes, u := s.a.link, RangeOf(s.a.link, whole), s.a.link.active.value.upload;
    var r := ServeOnly(l, now, |whole|, bytes);
    ServeOnlyKeeps(l, now, |whole|, bytes);
    ServeStays(l, now, None, |whole|, bytes, 0);
    if s.cut || l.closed {
      FirstStays(s, r);
    } else {
      var out, ended, declined := ServeOnlyTurns(l, now, whole, bytes);
      AnsweringJoint(s, r, if declined || u.cancelled then None else Some(bytes), out, ended);
    }
  }

  /** The channel drained: a paused response goes on. */
  lemma DrainedJoint(s: Pair, now: nat, amount: nat)
    requires Joint(s)
    ensures Joint(s.(a := s.a.(link := Low(s.a.link, now, amount))))
  {
    hide Inv, Tell, Flow, Orderly, Honest, PaidUp, Low, Turns, After, Stays, Chunks, Asks, Answers, NoAsks;
    var l, r := s.a.link, Low(s.a.link, now, amount);
    LowKeeps(l, now, amount);
    ServeStays(l, now, None, 0, [], amount);
    if !Paused(l) {
      NotPaused(l, now, amount);
      FirstClock(s, now, amount);
    } else if s.cut || l.closed || s.b.link.closed {
      if !s.cut && !l.closed {
        OrderlyBusy(ViewOf(l), ViewOf(r), Asks(Coming(s.b, s.a)));
      }
      FirstStays(s, r);
    } else {
      ResumeJoint(s, now, amount);
    }
  }

  lemma NotPaused(l: Link, now: nat, amount: nat)
    requires !Paused(l)
    ensures Low(l, now, amount) == l.(clock := now, buffered := amount)
  {
  }

  lemma ResumeJoint(s: Pair, now: nat, amount: nat)
    requires Joint(s) && !s.cut && !s.a.link.closed && !s.b.link.closed && Paused(s.a.link)
    ensures Joint(s.(a := s.a.(link := Low(s.a.link, now, amount))))
  {
    hide Inv, Tell, Flow, Orderly, Honest, PaidUp, Low, Turns, After, Stays, Chunks, Asks, Answers, NoAsks;
    var l, r, b := s.a.link, Low(s.a.link, now, amount), s.b;
    var h, u, st := ViewOf(l), l.active.value.upload, l.active.value.stage;
    var toA, toB := Asks(Coming(b, s.a)), Answers(Coming(s.a, b));
    LowKeeps(l, now, amount);
    FlowStreams(s.a.objects, b.asked, b.link.nextId, b.link.pending, h, toB, toA);
    var out, ended := LowTurns(l, now, amount);
    FlowResumes(s.a.objects, b.asked, b.link.nextId, b.link.pending, h, toB, toA, out, ended);
    OrderlyBusy(h, After(u, st.bytes, out, ended), toA);
    var items := Chunks(st.bytes, st.sent, out) + Whenever(ended, Text(Eof(Some(u.id))));
    assert toB + items == toB + Chunks(st.bytes, st.sent, out) + Whenever(ended, Text(Eof(Some(u.id))));
    assert Coming(b, s.a.(link := r)) == Coming(b, s.a);
    ChunksAnswer(st.bytes, st.sent, out);
    EofAnswers(ended, u.id);
    NoAsksConcat(Chunks(st.bytes, st.sent, out), Whenever(ended, Text(Eof(Some(u.id)))));
    FirstTurns(s, s.a.(link := r), After(u, st.bytes, out, ended), items, false);
  }

  lemma EofAnswers(ended: bool, id: int)
    ensures NoAsks(Whenever(ended, Text(Eof(Some(id)))))
  {
  }

  // ---- the channel ----

  lemma NoticeJoint(s: Pair)
    requires Joint(s) && s.cut
    ensures Joint(s.(a := s.a.(link := s.a.link.(channelOpen := false, past := s.a.link.past.(shut := true)))))
  {
    hide Inv, Tell, Flow, Orderly, Honest, PaidUp, Asks, Answers;
    SettingOpen(s.a.link, false);
  }

  lemma CutJoint(s: Pair)
    requires Joint(s)
    ensures Joint(s.(cut := true))
  {
    hide Inv, Tell, Flow, Orderly, Honest, PaidUp, Asks, Answers;
  }

  // ---- whole runs ----

  lemma RequestSized(objects: map<Key, seq<byte>>, key: Key, range: PieceRange, objectSize: nat)
    requires key in objects ==> objectSize == |objects[key]|
    requires RangeBytes(objectSize, range).Some? && RangeBytes(objectSize, range).value.0 <= RangeBytes(objectSize, range).value.1
    ensures var cut := RangeBytes(objectSize, range).value; HonestSize(objects, Wanted(key, Some(range)), Some(cut.1 - cut.0))
  {
    hide PieceCount, CommitmentPieceSize;
    if key in objects {
      assert Slice(objects, Wanted(key, Some(range))) == Cut(objects[key], range);
    }
  }

  lemma ActJoint(s: Pair, action: Action)
    requires Joint(s)
    ensures Joint(Act(s, action))
  {
    hide Joint, Request, AbortRequest, Tick, Deliver, Serve, ServeOnly, Low, Close, RangeBytes, Tell;
    if May(s.b.objects, action) {
      match action
      case AskWhole(now, key, timeoutMs, expected) => RequestJoint(s, now, key, timeoutMs, expected, None);
      case AskRange(now, key, timeoutMs, range, objectSize) =>
        var cut := RangeBytes(objectSize, range);
        if cut.Some? && cut.value.0 <= cut.value.1 {
          RequestSized(s.b.objects, key, range, objectSize);
          RequestJoint(s, now, key, timeoutMs, Some(cut.value.1 - cut.value.0), Some(range));
        }
      case Drop(now, id, abandoned) => DropJoint(s, now, id, abandoned);
      case TickTo(now) => if Shape(s.a.link) { TickJoint(s, now); }
      case Hear(now) => if !s.cut && Coming(s.b, s.a) != [] { HearJoint(s, now); }
      case Answer(now, held) => AnswerJoint(s, now, if held then HolderHas(s.a) else None);
      case AnswerRange(now) => if HolderHas(s.a).Some? { AnswerRangeJoint(s, now, HolderHas(s.a).value); }
      case Drained(now, amount) => DrainedJoint(s, now, amount);
      case Observed(amount) => FirstClock(s, s.a.link.clock, amount);
      case CloseFor(reason) => CloseJoint(s, reason);
      case Notice => if s.cut { NoticeJoint(s); }
    }
  }

  lemma StepJoint(s: Pair, step: Step)
    requires Joint(s)
    ensures Joint(Apply(s, step))
  {
    hide Joint, Act;
    match step
    case First(action) => ActJoint(s, action);
    case Second(action) =>
      SwapJoint(s);
      ActJoint(Swap(s), action);
      SwapJoint(Act(Swap(s), action));
    case CutOff => CutJoint(s);
  }

  /** Two new links whose shells hold objects that the other can take. */
  ghost predicate NewPair(s: Pair) {
    && s.a == StartEnd(s.a.link.config, s.a.link.reliable, s.a.link.clock, s.a.objects)
    && s.b == StartEnd(s.b.link.config, s.b.link.reliable, s.b.link.clock, s.b.objects) && !s.cut
    && Honest(s.b.objects, s.a.link.config.maxSegmentBytes) && s.a.link.config.maxQueued >= 1
    && Honest(s.a.objects, s.b.link.config.maxSegmentBytes) && s.b.link.config.maxQueued >= 1
  }

  lemma StartJoint(s: Pair)
    requires NewPair(s)
    ensures Joint(s)
  {
    hide Inv;
    NewLinkOk(s.a.link.config, s.a.link.reliable, s.a.link.clock);
    NewLinkOk(s.b.link.config, s.b.link.reliable, s.b.link.clock);
  }

  lemma {:induction false} RunJoint(s: Pair, steps: seq<Step>)
    requires Joint(s)
    ensures Joint(Run(s, steps))
    decreases |steps|
  {
    hide Joint, Apply;
    if steps != [] {
      RunJoint(s, steps[..|steps| - 1]);
      StepJoint(Run(s, steps[..|steps| - 1]), steps[|steps| - 1]);
    }
  }

  lemma {:induction false} PaidTold(log: seq<Event>, k: nat)
    requires k < |log| && log[k].Resolved? && log[k].id.Some? && log[k].payload.Some?
    ensures Payment(log[k].id.value, log[k].payload.value) in Tell(log).paid
    decreases |log|
  {
    if k < |log| - 1 {
      PaidTold(log[..|log| - 1], k);
    }
  }

  /** In no run does either end close the other for a protocol error or a full
      queue. */
  lemma NeverAccused(start: Pair, steps: seq<Step>)
    requires NewPair(start)
    ensures var s := Run(start, steps); Polite(s.a.link.closeReason) && Polite(s.b.link.closeReason)
  {
    hide Inv, Run, Talk, PaidUp, NewPair;
    StartJoint(start);
    RunJoint(start, steps);
  }

  /** Both ends as one of them sees them: itself, and the other. */
  function Seen(s: Pair, first: bool): (End, End) {
    if first then (s.a, s.b) else (s.b, s.a)
  }

  /** In every run a request of either end is resolved at most once, and when with
      bytes, with exactly the slice that it asked for of an object that the other
      end holds. */
  lemma PaidExactly(start: Pair, steps: seq<Step>, first: bool, k: nat)
    requires NewPair(start) && k < |Seen(Run(start, steps), first).0.link.log|
    ensures var (x, y) := Seen(Run(start, steps), first);
            var e := x.link.log[k];
            e.Resolved? && e.id.Some? ==>
              && SummaryOf(x.link.log).account.resolved[e.id.value] <= 1
              && (e.payload.Some? ==> e.id.value in x.asked && e.payload == Slice(y.objects, x.asked[e.id.value]))
  {
    hide Inv, Run, Talk, Slice, NewPair;
    var (x, y) := Seen(Run(start, steps), first);
    StartJoint(start);
    RunJoint(start, steps);
    if x.link.log[k].Resolved? && x.link.log[k].id.Some? {
      OneOutcome(x.link, x.link.log[k].id.value);
      if x.link.log[k].payload.Some? {
        PaidTold(x.link.log, k);
      }
    }
  }

  /** While both ends are open and the channel is whole, a pending request always
      has something on its way, or in the holder's hands. */
  lemma NeverStranded(start: Pair, steps: seq<Step>, first: bool)
    requires NewPair(start)
    ensures var (x, y) := Seen(Run(start, steps), first);
            !Run(start, steps).cut && !x.link.closed && !y.link.closed && x.link.pending.Some? ==>
              Answers(Coming(y, x)) != [] || Asks(Coming(x, y)) != [] || y.link.active.Some?
  {
    hide Inv, Run, Flow, Tell, Asks, Answers, NewPair, Orderly;
    var (x, y) := Seen(Run(start, steps), first);
    StartJoint(start);
    RunJoint(start, steps);
    if !Run(start, steps).cut && !x.link.closed && !y.link.closed && x.link.pending.Some? {
      NeverStuck(y.objects, x.asked, x.link.nextId, x.link.pending, ViewOf(y.link), Answers(Coming(y, x)), Asks(Coming(x, y)));
    }
  }
}

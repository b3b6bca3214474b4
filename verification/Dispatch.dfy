/** One lane taking work and sending it, and when its request is judged. */
module Dispatch {
  import opened Wrappers
  import opened Pieces
  import opened Sorting
  import opened Estimates
  import opened Lanes
  import opened Books
  import opened Ownership

  const MAX_PEER_REQUEST_PIECES: nat := 4
  const MAX_PEER_REQUEST_BYTES: nat := 524_288

  function PeerCap(ps: nat): (r: nat)
    requires ps > 0
    ensures 1 <= r <= MAX_PEER_REQUEST_PIECES
  {
    Min(Max(MAX_PEER_REQUEST_BYTES / ps, 1), MAX_PEER_REQUEST_PIECES)
  }

  function OriginTailCap(ps: nat): nat
    requires ps > 0
  {
    Min(MAX_PEER_REQUEST_BYTES / ps, MAX_PEER_REQUEST_PIECES)
  }

  lemma CapBytes(ps: nat)
    requires ps > 0
    ensures PeerCap(ps) * ps <= Max(MAX_PEER_REQUEST_BYTES, ps)
  {
    var q := MAX_PEER_REQUEST_BYTES / ps;
    assert q * ps <= MAX_PEER_REQUEST_BYTES;
    MulMono(PeerCap(ps), Max(q, 1), ps);
  }

  lemma RangeSize(start: nat, end: nat, cap: nat, ps: nat)
    requires start < end && end - start <= cap
    ensures end * ps - start * ps <= cap * ps
  {
    MulMono(end - start, cap, ps);
    assert (end - start) * ps == end * ps - start * ps;
  }

  /** A peer request is never larger than 512 KiB or one piece. */
  lemma RequestBytes(size: nat, r: PieceRange)
    requires RangeBytes(size, r).Some? && r.end - r.start <= PeerCap(CommitmentPieceSize(size))
    ensures RangeBytes(size, r).value.1 - RangeBytes(size, r).value.0
            <= Max(MAX_PEER_REQUEST_BYTES, CommitmentPieceSize(size))
  {
    CapBytes(CommitmentPieceSize(size));
    RangeSize(r.start, r.end, PeerCap(CommitmentPieceSize(size)), CommitmentPieceSize(size));
  }

  ghost function HoldOf(l: Lane): Hold {
    Hold(SetOf(Flying(l.inFlight)), SetOf(Flat(l.queue)), l.retired)
  }

  ghost predicate FlightsWithin(fs: seq<Flight>, n: nat) {
    forall k :: 0 <= k < |fs| ==> fs[k].range.start < fs[k].range.end <= n
  }

  ghost predicate LaneOk(t: Terms, s: Source, l: Lane) {
    && l.estimate.source == s
    && Within(l.queue, t.n) && FlightsWithin(l.inFlight, t.n)
    && (s.Peer? ==> |l.inFlight| <= 1)
    && (s.Peer? || t.exclusive ==> NoDup(Work(l)))
    && (l.retired ==> l.queue == [] && l.inFlight == [])
  }

  /** A lane with work has a request in flight. */
  predicate Settled(l: Lane) {
    l.queue != [] ==> l.inFlight != []
  }

  lemma NewLaneOk(t: Terms, e: Estimate, now: nat)
    ensures LaneOk(t, e.source, NewLane(e, now)) && HoldOf(NewLane(e, now)) == Hold({}, {}, false)
  {
  }

  lemma HoldHolds(t: Terms, s: Source, l: Lane, i: nat)
    requires LaneOk(t, s, l)
    ensures Holds(l, i) <==> i in HoldOf(l).sent || i in HoldOf(l).queued
  {
    HoldsIsWork(l, i);
  }

  // ---- queueing ----

  lemma QueueLane(t: Terms, s: Source, l: Lane, ranges: seq<PieceRange>, finishAt: real)
    requires LaneOk(t, s, l) && !l.retired && Within(ranges, t.n)
    requires s.Peer? || t.exclusive ==> NoDup(Flat(ranges)) && SetOf(Flat(ranges)) !! HoldOf(l).sent + HoldOf(l).queued
    ensures var l' := l.(queue := l.queue + ranges, finishAt := finishAt);
            LaneOk(t, s, l') && Work(l') == Work(l) + Flat(ranges) &&
            HoldOf(l') == HoldOf(l).(queued := HoldOf(l).queued + SetOf(Flat(ranges)))
  {
    FlatConcat(l.queue, ranges);
    SetOfConcat(Flat(l.queue), Flat(ranges));
    LongerWork(Flying(l.inFlight), Flat(l.queue), Flat(ranges));
  }

  lemma LongerWork(flying: seq<nat>, queued: seq<nat>, more: seq<nat>)
    ensures flying + (queued + more) == (flying + queued) + more
    ensures NoDup(flying + queued) && NoDup(more) && SetOf(more) !! SetOf(flying) + SetOf(queued) ==>
              NoDup(flying + (queued + more))
  {
    ConcatAssoc(flying, queued, more);
    SetOfConcat(flying, queued);
    NoDupConcat(flying + queued, more);
  }

  // ---- sending ----

  /** The next request: at most `cap` pieces from the front of the queue. */
  function Front(queue: seq<PieceRange>, cap: nat): PieceRange
    requires queue != []
  {
    PieceRange(queue[0].start, Min(queue[0].start + cap, queue[0].end))
  }

  /** What the next request leaves queued. */
  function Behind(queue: seq<PieceRange>, cap: nat): seq<PieceRange>
    requires queue != []
  {
    var at := Front(queue, cap).end;
    if at < queue[0].end then [PieceRange(at, queue[0].end)] + queue[1..] else queue[1..]
  }

  lemma Cuts(queue: seq<PieceRange>, cap: nat, n: nat)
    requires queue != [] && Within(queue, n) && cap > 0
    ensures var r := Front(queue, cap);
            r.start < r.end <= n && r.end - r.start <= cap && Within(Behind(queue, cap), n) &&
            Flat(queue) == Span(r) + Flat(Behind(queue, cap))
  {
    var r := Front(queue, cap);
    if r.end < queue[0].end {
      var tail := PieceRange(r.end, queue[0].end);
      SpanSplit(queue[0], r.end);
      assert ([tail] + queue[1..])[1..] == queue[1..];
      ConcatAssoc(Span(r), Span(tail), Flat(queue[1..]));
    }
  }

  function SendFront(l: Lane, cap: nat, now: nat): Lane
    requires l.queue != []
  {
    l.(queue := Behind(l.queue, cap), inFlight := l.inFlight + [Flight(Front(l.queue, cap), now)],
       firstByteAt := None, flow := [], checkedAt := now)
  }

  lemma SpanLength(r: PieceRange)
    ensures |Span(r)| == if r.start < r.end then r.end - r.start else 0
  {
  }

  lemma FlightsMore(fs: seq<Flight>, f: Flight, n: nat)
    requires FlightsWithin(fs, n) && f.range.start < f.range.end <= n
    ensures FlightsWithin(fs + [f], n)
  {
  }

  lemma SendLane(t: Terms, s: Source, l: Lane, cap: nat, now: nat)
    requires LaneOk(t, s, l) && l.queue != [] && cap > 0 && (s.Peer? ==> l.inFlight == [])
    ensures var l', r := SendFront(l, cap, now), Front(l.queue, cap);
            LaneOk(t, s, l') && Work(l') == Work(l) &&
            HoldOf(l') == Hold(HoldOf(l).sent + PieceSet(r), HoldOf(l').queued, l.retired) &&
            HoldOf(l).queued == HoldOf(l').queued + PieceSet(r) &&
            (s.Peer? || t.exclusive ==> PieceSet(r) !! HoldOf(l').queued) &&
            |Flat(l.queue)| == |Flat(l'.queue)| + (r.end - r.start)
  {
    hide Flying, Flat, Span, NoDup, SetOf, Within, Front, Behind;
    var r, rest := Front(l.queue, cap), Flat(Behind(l.queue, cap));
    Cuts(l.queue, cap, t.n);
    SpanLength(r);
    FlightsMore(l.inFlight, Flight(r, now), t.n);
    FlyingSnoc(l.inFlight, Flight(r, now));
    ConcatAssoc(Flying(l.inFlight), Span(r), rest);
    SetOfConcat(Flying(l.inFlight), Span(r));
    SetOfConcat(Span(r), rest);
    NoDupConcat(Flying(l.inFlight), Flat(l.queue));
    NoDupConcat(Span(r), rest);
  }

  // ---- answers ----

  function WithoutFlight(l: Lane, k: nat): Lane
    requires k < |l.inFlight|
  {
    l.(inFlight := l.inFlight[..k] + l.inFlight[k + 1..])
  }

  lemma AnswerLane(t: Terms, s: Source, l: Lane, k: nat)
    requires LaneOk(t, s, l) && k < |l.inFlight|
    ensures var l', range := WithoutFlight(l, k), PieceSet(l.inFlight[k].range);
            LaneOk(t, s, l') && range <= HoldOf(l).sent &&
            HoldOf(l).sent - range <= HoldOf(l').sent <= HoldOf(l).sent &&
            HoldOf(l').queued == HoldOf(l).queued && HoldOf(l').retired == HoldOf(l).retired &&
            (s.Peer? || t.exclusive ==> HoldOf(l').sent !! range)
  {
    hide Flying, Flat, Span, NoDup, SetOf, Within;
    FlyingWithout(l.inFlight, k);
    FlightsLess(l.inFlight, k, t.n);
    TakeMiddle(Flying(l.inFlight[..k]), Span(l.inFlight[k].range), Flying(l.inFlight[k + 1..]), Flat(l.queue));
  }

  lemma FlightsLess(fs: seq<Flight>, k: nat, n: nat)
    requires FlightsWithin(fs, n) && k < |fs|
    ensures FlightsWithin(fs[..k] + fs[k + 1..], n)
  {
  }

  /** Taking `b` out of `a + b + c + d`. */
  lemma TakeMiddle(a: seq<nat>, b: seq<nat>, c: seq<nat>, d: seq<nat>)
    ensures SetOf(a + b + c) == SetOf(a + c) + SetOf(b)
    ensures NoDup((a + b + c) + d) ==> NoDup((a + c) + d) && SetOf(a + c) !! SetOf(b)
  {
    SetOfConcat(a, b);
    SetOfConcat(a + b, c);
    SetOfConcat(a, c);
    NoDupConcat(a + b + c, d);
    NoDupConcat(a + b, c);
    NoDupConcat(a, b);
    NoDupConcat(a, c);
    NoDupConcat(a + c, d);
  }

  // ---- how lanes change within one call ----

  /** The request that is being watched has not changed. */
  predicate SameWatch(l: Lane, l': Lane) {
    && l'.inFlight == l.inFlight && l'.firstByteAt == l.firstByteAt && l'.flow == l.flow
    && l'.checkedAt == l.checkedAt && l'.estimate == l.estimate && l'.retired == l.retired
  }

  /** A request just sent. */
  predicate Fresh(l: Lane, now: nat) {
    l.inFlight != [] && l.inFlight[0].sent == now && l.firstByteAt == None
  }

  predicate Stepped(l: Lane, l': Lane, now: nat) {
    SameWatch(l, l') || Fresh(l', now) || l'.inFlight == []
  }

  /** No lane disappears, none comes back, and every peer's request is the same,
      gone or new. */
  ghost predicate Evolved(lanes: map<Source, Lane>, lanes': map<Source, Lane>, now: nat) {
    && lanes.Keys <= lanes'.Keys && (forall s :: s in lanes' && s !in lanes ==> s == Origin)
    && forall s :: s in lanes && s.Peer? ==> EvolvedAt(lanes[s], lanes'[s], now)
  }

  ghost predicate EvolvedAt(l: Lane, l': Lane, now: nat) {
    && l'.estimate == l.estimate && (l.retired ==> l'.retired) && Stepped(l, l', now)
  }

  lemma EvolvedTrans(a: map<Source, Lane>, b: map<Source, Lane>, c: map<Source, Lane>, now: nat)
    requires Evolved(a, b, now) && Evolved(b, c, now)
    ensures Evolved(a, c, now)
  {
    forall s | s in a && s.Peer? ensures EvolvedAt(a[s], c[s], now) {
      assert EvolvedAt(a[s], b[s], now) && EvolvedAt(b[s], c[s], now);
    }
  }

  // ---- judging requests ----

  const SILENCE_FLOOR_MS: real := 250.0
  const RATE_WINDOW_MS: nat := 400
  const MIN_FLOW_MS: nat := 150
  const STALL_CHECK_MS: nat := 250

  /** What judging a request needs besides its lane. `active` is false once the
      floor is reached and in peer-only mode. */
  datatype Judge = Judge(
    active: bool, floorAt: nat, size: nat, pieceSize: nat, sharedFirstByteMs: Option<real>, sharedRate: Option<real>)

  function Ceil(x: real): (c: int)
    ensures x <= c as real < x + 1.0
  {
    if x.Floor as real == x then x.Floor else x.Floor + 1
  }

  /** A real as an unsigned time: rounded up, and never negative. */
  function CeilTime(x: real): nat {
    Max(Ceil(x), 0)
  }

  function Since(a: nat, b: nat): nat {
    if a < b then 0 else a - b
  }

  function FlightBytes(j: Judge, r: PieceRange): int {
    Min(r.end * j.pieceSize, j.size) - r.start * j.pieceSize
  }

  /** When silence abandons the request; `None` without a first-byte time. */
  function SilenceAt(j: Judge, l: Lane, f: Flight): Option<real> {
    var firstByte := Or(NonNegative(l.estimate.firstByteMs), NonNegative(j.sharedFirstByteMs));
    if firstByte.None? then None
    else
      var patience := MaxR(SILENCE_FLOOR_MS, firstByte.value * 3.0);
      var best := Positive(j.sharedRate);
      Some(f.sent as real +
           if best.None? then patience
           else MaxR(patience, j.floorAt as real - FlightBytes(j, f.range) as real / best.value - f.sent as real))
  }

  /** When the request of `s` is next to be judged. */
  function WatchAt(j: Judge, s: Source, l: Lane): Option<nat> {
    if !j.active || !s.Peer? || l.retired || l.inFlight == [] then None
    else if l.firstByteAt.None? then
      var at := SilenceAt(j, l, l.inFlight[0]);
      if at.None? then None else Some(CeilTime(at.value))
    else
      var last := if l.flow == [] then l.inFlight[0].sent else l.flow[|l.flow| - 1].at;
      Some(Max(last, l.checkedAt) + STALL_CHECK_MS)
  }

  /** The latest point at least a window old, or the oldest one. */
  function WindowStart(flow: seq<Progress>, now: nat): Progress
    requires flow != []
  {
    var last := flow[|flow| - 1];
    if |flow| == 1 || last.at + RATE_WINDOW_MS <= now then last else WindowStart(flow[..|flow| - 1], now)
  }

  /** Waiting for the rest makes no sense: the peer is too slow, or has said nothing. */
  predicate Hopeless(j: Judge, now: nat, s: Source, l: Lane) {
    if !s.Peer? || l.retired || l.inFlight == [] then false
    else
      var f := l.inFlight[0];
      if l.firstByteAt.None? then
        var at := SilenceAt(j, l, f);
        at.Some? && now as real >= at.value
      else if Since(now, f.sent) < 2 * Since(l.firstByteAt.value, f.sent) || l.flow == [] then false
      else
        var received := l.flow[|l.flow| - 1].received;
        var start := WindowStart(l.flow, now);
        var span := Since(now, start.at);
        if span < MIN_FLOW_MS then false
        else
          var recent := Since(received, start.received) as real / span as real;
          var rate := MaxR(2.0 * recent, Positive(j.sharedRate).GetOr(0.0));
          var left := MaxR(FlightBytes(j, f.range) as real - received as real, 0.0);
          rate <= 0.0 || now as real + left / rate > j.floorAt as real
  }

  /** No judgement of this request is due, and it would not be abandoned now. */
  predicate Calm(j: Judge, now: nat, s: Source, l: Lane) {
    WatchAt(j, s, l).Some? ==> WatchAt(j, s, l).value > now && !Hopeless(j, now, s, l)
  }

  lemma CalmStays(j: Judge, now: nat, s: Source, l: Lane, l': Lane)
    requires Calm(j, now, s, l) && Stepped(l, l', now)
    ensures Calm(j, now, s, l')
  {
    if Fresh(l', now) && SilenceAt(j, l', l'.inFlight[0]).Some? {
      assert SilenceAt(j, l', l'.inFlight[0]).value >= now as real + SILENCE_FLOOR_MS;
    }
  }

  /** A request that is not hopeless is calm once it has been judged. */
  lemma JudgedIsCalm(j: Judge, now: nat, s: Source, l: Lane)
    requires !Hopeless(j, now, s, l)
    ensures Calm(j, now, s, l.(checkedAt := now))
  {
  }
}

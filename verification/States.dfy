/** The state of one transfer as a value, its invariant, and the steps that keep
    it. The class in `Transfers` moves from state to state by these steps. */
module States {
  import opened Wrappers
  import opened Pieces
  import opened Sorting
  import opened Estimates
  import opened RunLists
  import opened Lanes
  import opened Books
  import opened Ownership
  import opened Dispatch

  type Digest = seq<byte>

  /** What is fixed for one transfer: its settings and the signed commitment. */
  datatype Setup = Setup(
    maxHolders: nat, originReserveMs: real, peerOnly: bool, size: nat, pieceSize: nat,
    hashes: seq<Digest>, whole: Digest, deadline: nat, sha: seq<byte> -> Digest)

  datatype State = State(
    exclusive: bool, started: bool, data: seq<byte>, verified: seq<bool>, lanes: map<Source, Lane>, pending: set<nat>,
    floorReached: bool, finished: bool, commands: seq<Command>, log: seq<Entry>, drained: seq<Command>,
    banned: bool, faulted: bool)

  function FloorAt(k: Setup): nat {
    Since(k.deadline, MaxR(k.originReserveMs, 0.0).Floor)
  }

  // ---- the pieces of the data ----

  function From(ps: nat, i: nat): nat {
    i * ps
  }

  function To(size: nat, ps: nat, i: nat): nat {
    Min((i + 1) * ps, size)
  }

  lemma PieceBounds(size: nat, ps: nat, count: nat, i: nat)
    requires Geometry(size, ps, count) && i < count
    ensures From(ps, i) < To(size, ps, i) <= size
  {
    PieceBytesBounds(size, ps, count, i);
  }

  lemma PiecesApart(size: nat, ps: nat, i: nat, j: nat)
    requires i < j
    ensures To(size, ps, i) <= From(ps, j)
  {
    MulMono(i + 1, j, ps);
  }

  /** Piece `i` of the data is the committed one. */
  ghost predicate Matches(k: Setup, data: seq<byte>, i: nat) {
    && i < |k.hashes| && From(k.pieceSize, i) <= To(k.size, k.pieceSize, i) <= |data|
    && k.sha(data[From(k.pieceSize, i)..To(k.size, k.pieceSize, i)]) == k.hashes[i]
  }

  /** The bytes are the committed object, piece by piece and whole. */
  ghost predicate Sound(k: Setup, bytes: seq<byte>) {
    |bytes| == k.size && k.sha(bytes) == k.whole && forall i: nat :: i < |k.hashes| ==> Matches(k, bytes, i)
  }

  // ---- the invariant ----

  ghost function TermsOf(k: Setup, st: State): Terms {
    Terms(|k.hashes|, if k.pieceSize > 0 then PeerCap(k.pieceSize) else 0, k.peerOnly, st.exclusive)
  }

  function Left(verified: seq<bool>): set<nat> {
    set i: nat | i < |verified| && !verified[i]
  }

  ghost function HoldsOf(lanes: map<Source, Lane>): map<Source, Hold> {
    map s | s in lanes :: HoldOf(lanes[s])
  }

  lemma HoldsOfUpdate(lanes: map<Source, Lane>, s: Source, l: Lane)
    ensures HoldsOf(lanes[s := l]) == HoldsOf(lanes)[s := HoldOf(l)]
  {
  }

  ghost function CoreOf(st: State): Core {
    Core(Left(st.verified), HoldsOf(st.lanes), st.pending, st.log, st.started, st.finished)
  }

  ghost predicate Fixed(k: Setup, verified: seq<bool>) {
    PieceCount(k.size) == Some(|k.hashes|) && k.pieceSize == CommitmentPieceSize(k.size) && |verified| == |k.hashes|
  }

  /** Every verified piece is the committed one, until the data is delivered. */
  ghost predicate Kept(k: Setup, data: seq<byte>, verified: seq<bool>) {
    |data| == k.size && forall i: nat :: i < |verified| && verified[i] ==> Matches(k, data, i)
  }

  ghost predicate LanesOk(t: Terms, lanes: map<Source, Lane>, loose: set<Source>) {
    forall s :: s in lanes ==> LaneOk(t, s, lanes[s]) && (s !in loose ==> Settled(lanes[s]))
  }

  ghost predicate Delivery(k: Setup, e: Entry) {
    e.Out? && e.command.Deliver? ==> Sound(k, e.command.bytes)
  }

  /** The log is what the shell is told, and everything delivered is sound. */
  ghost predicate Logged(k: Setup, log: seq<Entry>, told: seq<Command>) {
    Outputs(log) == told && forall j :: 0 <= j < |log| ==> Delivery(k, log[j])
  }

  ghost predicate Flags(k: Setup, st: State) {
    && (FloorPassed(st.log) ==> st.floorReached)
    && (!st.started && !st.finished ==> Unbegun(st.log))
    && (st.started && !k.peerOnly ==> Origin in st.lanes)
    && Banned(st.log) == st.banned && OriginFailed(st.log) == st.faulted
  }

  /** The invariant of every internal step. `orphans` are pieces on their way to
      a source, `loose` sources whose queue is about to be sent. */
  ghost predicate Good(k: Setup, st: State, orphans: set<nat>, loose: set<Source>) {
    && Fixed(k, st.verified) && (st.finished || Kept(k, st.data, st.verified))
    && Inv(TermsOf(k, st), CoreOf(st), orphans)
    && LanesOk(TermsOf(k, st), st.lanes, loose)
    && Logged(k, st.log, st.drained + st.commands) && Flags(k, st)
  }

  lemma LoggedNext(k: Setup, log: seq<Entry>, told: seq<Command>, e: Entry)
    requires Logged(k, log, told) && Delivery(k, e)
    ensures Logged(k, log + [e], told + if e.Out? then [e.command] else [])
  {
    OutputsNext(log, e);
  }

  /** One more entry and its command, if it is one. */
  lemma LoggedCommand(k: Setup, log: seq<Entry>, drained: seq<Command>, commands: seq<Command>, e: Entry)
    requires Logged(k, log, drained + commands) && Delivery(k, e)
    ensures Logged(k, log + [e], drained + (commands + if e.Out? then [e.command] else []))
  {
    LoggedNext(k, log, drained + commands, e);
    ConcatAssoc(drained, commands, if e.Out? then [e.command] else []);
    assert drained + commands + [] == drained + (commands + []);
  }

  lemma LanesUpdate(t: Terms, lanes: map<Source, Lane>, s: Source, l: Lane, loose: set<Source>, loose': set<Source>)
    requires LanesOk(t, lanes, loose) && LaneOk(t, s, l) && loose <= loose' + {s} && (s !in loose' ==> Settled(l))
    ensures LanesOk(t, lanes[s := l], loose')
  {
  }

  // ---- what the scheduler asks of the lanes ----

  predicate HeldIn(lanes: map<Source, Lane>, i: nat) {
    exists s :: s in lanes && Holds(lanes[s], i)
  }

  lemma HeldInIsHeldBy(t: Terms, lanes: map<Source, Lane>, loose: set<Source>, i: nat)
    requires LanesOk(t, lanes, loose)
    ensures HeldIn(lanes, i) <==> HeldBy(HoldsOf(lanes), i)
  {
    hide LaneOk, HoldOf, Holds;
    var holds := HoldsOf(lanes);
    if HeldIn(lanes, i) {
      var s :| s in lanes && Holds(lanes[s], i);
      HoldHolds(t, s, lanes[s], i);
      assert s in holds && (i in holds[s].sent || i in holds[s].queued);
    }
    if HeldBy(holds, i) {
      var s :| s in holds && (i in holds[s].sent || i in holds[s].queued);
      HoldHolds(t, s, lanes[s], i);
      assert s in lanes && Holds(lanes[s], i);
    }
  }

  // ---- sending ----

  function CommandOf(s: Source, r: PieceRange): Command {
    match s
    case Peer(p) => Request(p, r)
    case Origin => FetchOrigin(r)
  }

  ghost function SendState(st: State, s: Source, cap: nat, now: nat): State
    requires s in st.lanes && st.lanes[s].queue != []
  {
    var r := Front(st.lanes[s].queue, cap);
    st.(lanes := st.lanes[s := SendFront(st.lanes[s], cap, now)], commands := st.commands + [CommandOf(s, r)],
        log := st.log + [SendEntry(s, r)])
  }

  lemma SendGood(k: Setup, st: State, orphans: set<nat>, loose: set<Source>, s: Source, cap: nat, now: nat)
    requires Good(k, st, orphans, loose) && !st.finished && s in loose
    requires s in st.lanes && !st.lanes[s].retired && st.lanes[s].queue != [] && cap > 0
    requires s.Peer? ==> st.lanes[s].inFlight == [] && k.pieceSize > 0 && cap <= PeerCap(k.pieceSize)
    ensures Good(k, SendState(st, s, cap, now), orphans, loose)
  {
    var t, c, l, l', r := TermsOf(k, st), CoreOf(st), st.lanes[s], SendFront(st.lanes[s], cap, now), Front(st.lanes[s].queue, cap);
    var st' := SendState(st, s, cap, now);
    SendLane(t, s, l, cap, now);
    Cuts(l.queue, cap, t.n);
    SendKeeps(t, c, orphans, s, r, HoldOf(l').queued);
    HoldsOfUpdate(st.lanes, s, l');
    assert CoreOf(st') == AfterSend(c, s, r, HoldOf(l').queued);
    LanesUpdate(t, st.lanes, s, l', loose, loose);
    LoggedCommand(k, st.log, st.drained, st.commands, SendEntry(s, r));
    Summaries(st.log, SendEntry(s, r));
  }

  // ---- queueing ----

  function LaneOf(lanes: map<Source, Lane>, s: Source, now: nat): Lane {
    if s in lanes then lanes[s] else NewLane(Estimate(s, None, None), now)
  }

  ghost function QueueState(st: State, s: Source, ranges: seq<PieceRange>, finishAt: real, pending: set<nat>, now: nat): State {
    var l := LaneOf(st.lanes, s, now);
    st.(lanes := st.lanes[s := l.(queue := l.queue + ranges, finishAt := finishAt)], pending := pending)
  }

  /** When the ranges may join the queue of `s`. */
  ghost predicate MayTake(k: Setup, st: State, s: Source, ranges: seq<PieceRange>) {
    && !st.finished && st.started && Within(ranges, |k.hashes|)
    && SetOf(Flat(ranges)) <= Left(st.verified) && (s.Peer? || st.exclusive ==> NoDup(Flat(ranges)))
    && FreeOf(TermsOf(k, st), HoldsOf(st.lanes), s, SetOf(Flat(ranges)))
    && (s.Peer? ==> s in st.lanes && (FloorPassed(st.log) ==> ranges == []))
    && (s in st.lanes ==> !st.lanes[s].retired) && (s == Origin ==> !k.peerOnly)
  }

  lemma QueueGood(k: Setup, st: State, orphans: set<nat>, loose: set<Source>, s: Source, ranges: seq<PieceRange>,
                  finishAt: real, pending: set<nat>, now: nat)
    requires Good(k, st, orphans, loose) && MayTake(k, st, s, ranges)
    requires st.pending - SetOf(Flat(ranges)) <= pending <= st.pending
    ensures Good(k, QueueState(st, s, ranges, finishAt, pending, now), orphans - SetOf(Flat(ranges)), loose + {s})
  {
    hide Inv, LaneOk, Logged, FreeOf, Kept, HoldOf;
    var t, l, st' := TermsOf(k, st), LaneOf(st.lanes, s, now), QueueState(st, s, ranges, finishAt, pending, now);
    QueuedLane(k, st, orphans, loose, s, ranges, finishAt, now);
    QueueCore(k, st, orphans, loose, s, ranges, finishAt, pending, now);
    LanesUpdate(t, st.lanes, s, st'.lanes[s], loose, loose + {s});
  }

  lemma QueuedLane(k: Setup, st: State, orphans: set<nat>, loose: set<Source>, s: Source, ranges: seq<PieceRange>,
                   finishAt: real, now: nat)
    requires Good(k, st, orphans, loose) && MayTake(k, st, s, ranges)
    ensures var t, l, pieces := TermsOf(k, st), LaneOf(st.lanes, s, now), SetOf(Flat(ranges));
            var l' := l.(queue := l.queue + ranges, finishAt := finishAt);
            LaneOk(t, s, l') && HoldOf(l') == Queued(CoreOf(st), s, pieces)
    ensures s in st.lanes ==> HoldsOf(st.lanes)[s].retired == st.lanes[s].retired
    ensures ranges == [] ==> SetOf(Flat(ranges)) == {}
  {
    hide Inv, Logged, FreeOf, Kept, Flags, LaneOk;
    var t, l := TermsOf(k, st), LaneOf(st.lanes, s, now);
    NewLaneOk(t, Estimate(s, None, None), now);
    if s.Peer? || t.exclusive {
      FreeLane(t, st.lanes, s, SetOf(Flat(ranges)), now);
    }
    QueueLane(t, s, l, ranges, finishAt);
    assert s in st.lanes ==> CoreOf(st).holds[s] == HoldOf(st.lanes[s]);
  }

  lemma QueueCore(k: Setup, st: State, orphans: set<nat>, loose: set<Source>, s: Source, ranges: seq<PieceRange>,
                  finishAt: real, pending: set<nat>, now: nat)
    requires Good(k, st, orphans, loose) && MayTake(k, st, s, ranges)
    requires st.pending - SetOf(Flat(ranges)) <= pending <= st.pending
    ensures Inv(TermsOf(k, st), CoreOf(QueueState(st, s, ranges, finishAt, pending, now)), orphans - SetOf(Flat(ranges)))
  {
    hide Inv, LaneOk, Logged, FreeOf, Kept, HoldOf, LanesOk, Flags, Fixed, SetOf, Flat, NoDup, Within, Left, LaneOf, MayQueue;
    var t, c, pieces, st' := TermsOf(k, st), CoreOf(st), SetOf(Flat(ranges)), QueueState(st, s, ranges, finishAt, pending, now);
    QueuedLane(k, st, orphans, loose, s, ranges, finishAt, now);
    FreeQueues(t, c, s, pieces);
    QueueKeeps(t, c, orphans, s, pieces, pending);
    HoldsOfUpdate(st.lanes, s, st'.lanes[s]);
    assert CoreOf(st') == AfterQueue(c, s, pieces, pending);
  }

  lemma FreeLane(t: Terms, lanes: map<Source, Lane>, s: Source, pieces: set<nat>, now: nat)
    requires FreeOf(t, HoldsOf(lanes), s, pieces) && (s.Peer? || t.exclusive)
    ensures pieces !! HoldOf(LaneOf(lanes, s, now)).sent + HoldOf(LaneOf(lanes, s, now)).queued
  {
    hide HoldOf;
    NewLaneOk(t, Estimate(s, None, None), now);
    if s in lanes && t.exclusive {
      forall i | i in pieces ensures i !in HoldOf(lanes[s]).sent + HoldOf(lanes[s]).queued {
        assert FreeAt(t, HoldsOf(lanes), i);
        assert HoldsOf(lanes)[s] == HoldOf(lanes[s]);
      }
    }
  }

  // ---- small changes ----

  /** A lane changes without touching what it holds. */
  lemma TouchGood(k: Setup, st: State, orphans: set<nat>, loose: set<Source>, s: Source, l: Lane)
    requires Good(k, st, orphans, loose) && s in st.lanes
    requires l.queue == st.lanes[s].queue && l.inFlight == st.lanes[s].inFlight && l.retired == st.lanes[s].retired
    requires l.estimate.source == st.lanes[s].estimate.source
    ensures Good(k, st.(lanes := st.lanes[s := l]), orphans, loose)
  {
    hide Inv, Logged, HoldOf, NoDup, Work;
    var st' := st.(lanes := st.lanes[s := l]);
    assert HoldOf(l) == HoldOf(st.lanes[s]) by {
      SameHold(l, st.lanes[s]);
    }
    assert LaneOk(TermsOf(k, st), s, l) by {
      SameHold(l, st.lanes[s]);
    }
    HoldsOfUpdate(st.lanes, s, l);
    assert CoreOf(st') == CoreOf(st);
    LanesUpdate(TermsOf(k, st), st.lanes, s, l, loose, loose);
  }

  lemma SameHold(a: Lane, b: Lane)
    requires a.queue == b.queue && a.inFlight == b.inFlight && a.retired == b.retired
    ensures HoldOf(a) == HoldOf(b) && Work(a) == Work(b)
  {
  }

  /** A source whose queue has been sent is no longer loose. */
  lemma SettleGood(k: Setup, st: State, orphans: set<nat>, loose: set<Source>, s: Source)
    requires Good(k, st, orphans, loose) && (s in st.lanes ==> Settled(st.lanes[s]))
    ensures Good(k, st, orphans, loose - {s})
  {
    hide Inv, Logged, LaneOk;
  }

  lemma LoosenGood(k: Setup, st: State, orphans: set<nat>, loose: set<Source>, loose': set<Source>)
    requires Good(k, st, orphans, loose) && loose <= loose'
    ensures Good(k, st, orphans, loose')
  {
    hide Inv, Logged, LaneOk;
  }

  lemma OrphansGood(k: Setup, st: State, orphans: set<nat>, orphans': set<nat>, loose: set<Source>)
    requires Good(k, st, orphans, loose)
    requires st.started && !st.finished ==> orphans <= orphans'
    ensures Good(k, st, orphans', loose)
  {
    hide Logged, LaneOk, LogOk, Asks, Single, OriginAsks, Links;
  }

  /** Pieces become or stop being pending in peer-only mode. */
  lemma PendingGood(k: Setup, st: State, orphans: set<nat>, loose: set<Source>, pending: set<nat>, orphans': set<nat>)
    requires Good(k, st, orphans, loose) && k.peerOnly && st.started && !st.finished
    requires forall i :: i in pending ==> i < |k.hashes|
    requires forall i :: i in Left(st.verified) && (i in st.pending || i in orphans) ==>
               i in pending || i in orphans' || HeldIn(st.lanes, i)
    ensures Good(k, st.(pending := pending), orphans', loose)
  {
    hide Inv, Logged, LaneOk, HeldBy, Holds;
    var t, c := TermsOf(k, st), CoreOf(st);
    forall i | i in c.unverified && (i in c.pending || i in orphans) ensures i in pending || i in orphans' || HeldBy(c.holds, i) {
      HeldInIsHeldBy(t, st.lanes, loose, i);
    }
    PendingKeeps(t, c, orphans, pending, orphans');
    assert CoreOf(st.(pending := pending)) == c.(pending := pending);
  }

  /** The shell takes the commands. */
  lemma DrainGood(k: Setup, st: State, orphans: set<nat>, loose: set<Source>)
    requires Good(k, st, orphans, loose)
    ensures Good(k, st.(commands := [], drained := st.drained + st.commands), orphans, loose)
  {
    hide Inv, LaneOk;
    assert st.drained + st.commands + [] == st.drained + st.commands;
  }

  // ---- sources leaving ----

  function RetiredLane(l: Lane): Lane {
    l.(retired := true, inFlight := [], queue := [])
  }

  function NoteEntry(note: Option<Command>): seq<Entry> {
    if note.Some? then [Out(note.value)] else []
  }

  /** What may be told about a peer that leaves. */
  predicate AboutPeer(k: Setup, note: Option<Command>, p: nat) {
    note.Some? ==> note.value == Cancel(p) || note.value == Ban(p) || (note.value == Abandon(p) && !k.peerOnly)
  }

  /** `now` is `before` after peer `p` has answered: its lane may have lost the
      request, and what verified was in flight there. */
  ghost predicate Answered(k: Setup, before: State, now: State, p: nat) {
    && Peer(p) in before.lanes
    && now == before.(lanes := now.lanes, verified := now.verified, data := now.data)
    && Peer(p) in now.lanes && now.lanes == before.lanes[Peer(p) := now.lanes[Peer(p)]]
    && |now.verified| == |before.verified| && Kept(k, now.data, now.verified)
    && Left(now.verified) <= Left(before.verified)
    && Left(before.verified) - Left(now.verified) <= HoldOf(before.lanes[Peer(p)]).sent
  }

  ghost function RetireState(st: State, p: nat, note: Option<Command>): State
    requires Peer(p) in st.lanes
  {
    st.(lanes := st.lanes[Peer(p) := RetiredLane(st.lanes[Peer(p)])],
        commands := st.commands + (if note.Some? then [note.value] else []),
        log := st.log + [Gone(Peer(p))] + NoteEntry(note),
        banned := st.banned || note == Some(Ban(p)))
  }

  /** Every unverified piece that `p` held is released or held by another. */
  ghost predicate Frees(before: State, now: State, p: nat, released: set<nat>) {
    forall i :: i in Left(now.verified) && HeldIn(before.lanes, i) && !HeldElsewhere(before.lanes, Peer(p), i) ==> i in released
  }

  predicate HeldElsewhere(lanes: map<Source, Lane>, s: Source, i: nat) {
    exists u :: u in lanes && u != s && Holds(lanes[u], i)
  }

  lemma HeldElsewhereIsHeldBesides(t: Terms, lanes: map<Source, Lane>, loose: set<Source>, s: Source, i: nat)
    requires LanesOk(t, lanes, loose)
    ensures HeldElsewhere(lanes, s, i) <==> HeldBesides(HoldsOf(lanes), s, i)
  {
    hide LaneOk, HoldOf, Holds;
    var holds := HoldsOf(lanes);
    if HeldElsewhere(lanes, s, i) {
      var u :| u in lanes && u != s && Holds(lanes[u], i);
      HoldHolds(t, u, lanes[u], i);
      assert u in holds && u != s && (i in holds[u].sent || i in holds[u].queued);
    }
    if HeldBesides(holds, s, i) {
      var u :| u in holds && u != s && (i in holds[u].sent || i in holds[u].queued);
      HoldHolds(t, u, lanes[u], i);
      assert u in lanes && u != s && Holds(lanes[u], i);
    }
  }

  lemma FreesReleases(k: Setup, before: State, now: State, loose: set<Source>, p: nat, released: set<nat>)
    requires LanesOk(TermsOf(k, before), before.lanes, loose) && Frees(before, now, p, released)
    ensures Released(CoreOf(before).(unverified := Left(now.verified)), Peer(p), released)
  {
    hide LaneOk, HoldOf, Holds, HeldBy, HeldBesides, HeldIn, HeldElsewhere;
    var t := TermsOf(k, before);
    forall i | i in Left(now.verified) && HeldBy(HoldsOf(before.lanes), i) && !HeldBesides(HoldsOf(before.lanes), Peer(p), i)
      ensures i in released
    {
      HeldInIsHeldBy(t, before.lanes, loose, i);
      HeldElsewhereIsHeldBesides(t, before.lanes, loose, Peer(p), i);
    }
  }

  /** The invariant of the core, when peer `p` leaves and is told about. */
  lemma RetireCore(k: Setup, before: State, now: State, orphans: set<nat>, loose: set<Source>, p: nat, released: set<nat>,
                   note: Option<Command>)
    requires Good(k, before, orphans, loose) && !before.finished && Answered(k, before, now, p)
    requires Frees(before, now, p, released) && AboutPeer(k, note, p)
    ensures Inv(TermsOf(k, now), CoreOf(RetireState(now, p, note)), orphans + released)
  {
    hide Inv, Kept, LaneOk, Logged, Frees, Released;
    var t, c, good := TermsOf(k, before), CoreOf(before), Left(before.verified) - Left(now.verified);
    FreesReleases(k, before, now, loose, p, released);
    assert c.unverified - good == Left(now.verified);
    BadAnswerKeeps(t, c, orphans, p, good, released);
    var c' := Core(Left(now.verified), c.holds[Peer(p) := NOTHING], c.pending, c.log + [Gone(Peer(p))], c.started, c.finished);
    assert c' == c.(unverified := c.unverified - good, holds := c.holds[Peer(p) := NOTHING], log := c.log + [Gone(Peer(p))]);
    if note.Some? {
      NoteKeeps(t, c', orphans + released, Out(note.value));
    } else {
      assert c'.log + NoteEntry(note) == c'.log;
    }
    RetiredHolds(before.lanes, now.lanes, p);
    assert CoreOf(RetireState(now, p, note)) == c'.(log := c'.log + NoteEntry(note));
  }

  lemma RetiredHolds(lanes: map<Source, Lane>, lanes': map<Source, Lane>, p: nat)
    requires Peer(p) in lanes && Peer(p) in lanes' && lanes' == lanes[Peer(p) := lanes'[Peer(p)]]
    ensures HoldsOf(lanes'[Peer(p) := RetiredLane(lanes'[Peer(p)])]) == HoldsOf(lanes)[Peer(p) := NOTHING]
  {
    var l := RetiredLane(lanes'[Peer(p)]);
    assert lanes'[Peer(p) := l] == lanes[Peer(p) := l];
    HoldsOfUpdate(lanes, Peer(p), l);
    assert HoldOf(l) == NOTHING by {
      assert SetOf<nat>([]) == {};
    }
  }

  lemma RetireGood(k: Setup, before: State, now: State, orphans: set<nat>, loose: set<Source>, p: nat, released: set<nat>,
                   note: Option<Command>)
    requires Good(k, before, orphans, loose) && !before.finished && before.started && Answered(k, before, now, p)
    requires Frees(before, now, p, released) && AboutPeer(k, note, p)
    requires now.lanes[Peer(p)].estimate.source == Peer(p)
    ensures Good(k, RetireState(now, p, note), orphans + released, loose)
  {
    hide Inv, Kept, Frees, Logged, HoldOf;
    var t, st', l := TermsOf(k, before), RetireState(now, p, note), RetiredLane(now.lanes[Peer(p)]);
    RetireCore(k, before, now, orphans, loose, p, released, note);
    assert LaneOk(t, Peer(p), l);
    assert now.lanes[Peer(p) := l] == before.lanes[Peer(p) := l];
    LanesUpdate(t, before.lanes, Peer(p), l, loose, loose);
    RetireLogged(k, before, p, note);
    RetireFlags(k, before, now, p, note);
  }

  lemma RetireLogged(k: Setup, st: State, p: nat, note: Option<Command>)
    requires Logged(k, st.log, st.drained + st.commands) && AboutPeer(k, note, p)
    ensures Logged(k, st.log + [Gone(Peer(p))] + NoteEntry(note),
                   st.drained + (st.commands + if note.Some? then [note.value] else []))
  {
    hide Outputs;
    LoggedCommand(k, st.log, st.drained, st.commands, Gone(Peer(p)));
    assert st.commands + [] == st.commands;
    if note.Some? {
      LoggedCommand(k, st.log + [Gone(Peer(p))], st.drained, st.commands, Out(note.value));
    } else {
      assert st.log + [Gone(Peer(p))] + [] == st.log + [Gone(Peer(p))];
    }
  }

  lemma RetireFlags(k: Setup, before: State, now: State, p: nat, note: Option<Command>)
    requires Flags(k, before) && Answered(k, before, now, p) && AboutPeer(k, note, p)
    requires before.started || before.finished
    ensures Flags(k, RetireState(now, p, note))
  {
    var gone := before.log + [Gone(Peer(p))];
    Summaries(before.log, Gone(Peer(p)));
    if note.Some? {
      Summaries(gone, Out(note.value));
    } else {
      assert gone + [] == gone;
    }
  }

  // ---- taking an answer ----

  /** Source `s` has answered its request `j`, and all of it is verified now. */
  lemma AnswerGood(k: Setup, st: State, orphans: set<nat>, loose: set<Source>, s: Source, j: nat,
                   data: seq<byte>, verified: seq<bool>)
    requires Good(k, st, orphans, loose) && !st.finished && s in st.lanes && j < |st.lanes[s].inFlight|
    requires |verified| == |st.verified| && Kept(k, data, verified)
    requires Left(verified) == Left(st.verified) - PieceSet(st.lanes[s].inFlight[j].range)
    ensures Good(k, st.(lanes := st.lanes[s := WithoutFlight(st.lanes[s], j)], data := data, verified := verified),
                 orphans, loose + {s})
  {
    hide Inv, Kept, LaneOk, Logged, HoldOf, PieceSet;
    var t, c, l, range := TermsOf(k, st), CoreOf(st), WithoutFlight(st.lanes[s], j), PieceSet(st.lanes[s].inFlight[j].range);
    var st' := st.(lanes := st.lanes[s := l], data := data, verified := verified);
    AnswerLane(t, s, st.lanes[s], j);
    AnswerKeeps(t, c, orphans, s, range, HoldOf(l).sent);
    HoldsOfUpdate(st.lanes, s, l);
    assert CoreOf(st') == c.(unverified := c.unverified - range, holds := c.holds[s := c.holds[s].(sent := HoldOf(l).sent)]);
    LanesUpdate(t, st.lanes, s, l, loose, loose + {s});
  }

  // ---- the floor ----

  /** No peer has work. */
  ghost predicate PeersIdle(lanes: map<Source, Lane>) {
    forall s :: s in lanes && s.Peer? ==> lanes[s].inFlight == [] && lanes[s].queue == []
  }

  lemma FloorFlagGood(k: Setup, st: State, orphans: set<nat>, loose: set<Source>)
    requires Good(k, st, orphans, loose)
    ensures Good(k, st.(floorReached := true), orphans, loose)
  {
    hide Inv, LaneOk, Logged;
    assert CoreOf(st.(floorReached := true)) == CoreOf(st);
  }

  lemma FloorGood(k: Setup, st: State, orphans: set<nat>, loose: set<Source>)
    requires Good(k, st, orphans, loose) && !st.finished && st.started && !k.peerOnly && st.floorReached
    requires PeersIdle(st.lanes)
    ensures Good(k, st.(log := st.log + [Floor(true)]), orphans, loose)
  {
    hide Inv, LaneOk, Logged, Kept, HoldOf;
    var t, c := TermsOf(k, st), CoreOf(st);
    forall p: nat | Peer(p) in c.holds ensures Empty(c.holds[Peer(p)]) {
      IdleEmpty(st.lanes[Peer(p)]);
    }
    FloorKeeps(t, c, orphans);
    Summaries(st.log, Floor(true));
    assert CoreOf(st.(log := st.log + [Floor(true)])) == c.(log := c.log + [Floor(true)]);
    LoggedCommand(k, st.log, st.drained, st.commands, Floor(true));
    assert st.commands + [] == st.commands;
  }

  lemma NoteGood(k: Setup, st: State, orphans: set<nat>, loose: set<Source>, e: Entry)
    requires Good(k, st, orphans, loose) && !st.finished
    requires e == OriginFault || (e == Floor(false) && !st.started)
    ensures Good(k, st.(log := st.log + [e], faulted := st.faulted || e == OriginFault), orphans, loose)
  {
    hide Inv, LaneOk, Logged, Kept, HoldOf;
    var t, c := TermsOf(k, st), CoreOf(st);
    NoteKeeps(t, c, orphans, e);
    Summaries(st.log, e);
    assert CoreOf(st.(log := st.log + [e])) == c.(log := c.log + [e]);
    LoggedCommand(k, st.log, st.drained, st.commands, e);
    assert st.commands + [] == st.commands;
  }

  lemma IdleEmpty(l: Lane)
    requires l.inFlight == [] && l.queue == []
    ensures Empty(HoldOf(l))
  {
    assert SetOf<nat>([]) == {};
  }

  // ---- taking origin's unissued work back ----

  function Remaining(xs: seq<nat>, claimed: set<nat>): seq<nat> {
    if xs == [] then []
    else (if xs[0] in claimed then [] else [xs[0]]) + Remaining(xs[1..], claimed)
  }

  lemma {:induction false} RemainingSet(xs: seq<nat>, claimed: set<nat>)
    ensures SetOf(Remaining(xs, claimed)) == SetOf(xs) - claimed
  {
    if xs != [] {
      var head := if xs[0] in claimed then [] else [xs[0]];
      RemainingSet(xs[1..], claimed);
      SetOfConcat(head, Remaining(xs[1..], claimed));
      assert xs == [xs[0]] + xs[1..];
      SetOfConcat([xs[0]], xs[1..]);
      assert SetOf([xs[0]]) == {xs[0]} && SetOf(head) == {xs[0]} - claimed;
    }
  }

  lemma {:induction false} RemainingNoDup(xs: seq<nat>, claimed: set<nat>)
    requires NoDup(xs)
    ensures NoDup(Remaining(xs, claimed))
  {
    if xs != [] {
      var head, tail := if xs[0] in claimed then [] else [xs[0]], Remaining(xs[1..], claimed);
      RemainingNoDup(xs[1..], claimed);
      RemainingSet(xs[1..], claimed);
      assert xs == [xs[0]] + xs[1..];
      NoDupConcat([xs[0]], xs[1..]);
      NoDupConcat(head, tail);
    }
  }

  function ClaimLane(l: Lane, claimed: set<nat>): Lane {
    l.(queue := RunsOf(Remaining(Flat(l.queue), claimed)))
  }

  lemma ClaimLaneOk(t: Terms, s: Source, l: Lane, claimed: set<nat>)
    requires LaneOk(t, s, l) && t.exclusive
    ensures var l' := ClaimLane(l, claimed);
            LaneOk(t, s, l') && HoldOf(l') == HoldOf(l).(queued := HoldOf(l).queued - claimed) &&
            (l.queue == [] ==> l'.queue == [])
  {
    var xs := Flat(l.queue);
    var rest := Remaining(xs, claimed);
    RemainingSet(xs, claimed);
    RunsFlatten(rest);
    NoDupConcat(Flying(l.inFlight), xs);
    RemainingNoDup(xs, claimed);
    NoDupConcat(Flying(l.inFlight), rest);
    WithinFlat(l.queue, t.n);
    assert forall i :: i in rest ==> i in SetOf(rest);
    FlatWithin(RunsOf(rest), t.n);
  }

  lemma WithinFlat(ranges: seq<PieceRange>, n: nat)
    requires Within(ranges, n)
    ensures forall i :: i in Flat(ranges) ==> i < n
  {
    forall i | i in Flat(ranges) ensures i < n {
      FlatMember(ranges, i);
    }
  }

  lemma FlatWithin(ranges: seq<PieceRange>, n: nat)
    requires Maximal(ranges) && forall i :: i in Flat(ranges) ==> i < n
    ensures Within(ranges, n)
  {
    forall k | 0 <= k < |ranges| ensures ranges[k].start < ranges[k].end <= n {
      FlatMember(ranges, ranges[k].end - 1);
    }
  }

  lemma ClaimGood(k: Setup, st: State, orphans: set<nat>, loose: set<Source>, claimed: set<nat>)
    requires Good(k, st, orphans, loose) && !st.finished && st.exclusive && Origin in st.lanes
    requires claimed <= SetOf(Flat(st.lanes[Origin].queue))
    ensures var st' := st.(lanes := st.lanes[Origin := ClaimLane(st.lanes[Origin], claimed)]);
            Good(k, st', orphans + claimed, loose) && Free(TermsOf(k, st), HoldsOf(st'.lanes), claimed)
  {
    hide Inv, Kept, LaneOk, Logged;
    var t, c, l := TermsOf(k, st), CoreOf(st), ClaimLane(st.lanes[Origin], claimed);
    var st' := st.(lanes := st.lanes[Origin := l]);
    ClaimLaneOk(t, Origin, st.lanes[Origin], claimed);
    ClaimKeeps(t, c, orphans, claimed);
    HoldsOfUpdate(st.lanes, Origin, l);
    assert CoreOf(st') == c.(holds := c.holds[Origin := HoldOf(l)]);
    LanesUpdate(t, st.lanes, Origin, l, loose, loose);
    forall i | i in claimed ensures FreeAt(t, HoldsOf(st'.lanes), i) {
      UnheldIsFree(t, HoldsOf(st'.lanes), i);
    }
  }

  lemma UnheldIsFree(t: Terms, holds: map<Source, Hold>, i: nat)
    requires !HeldBy(holds, i)
    ensures FreeAt(t, holds, i)
  {
  }

  // ---- starting ----

  ghost predicate AllNew(lanes: map<Source, Lane>, now: nat) {
    forall s :: s in lanes ==> lanes[s] == NewLane(lanes[s].estimate, now) && lanes[s].estimate.source == s
  }

  lemma StartGood(k: Setup, st: State, lanes: map<Source, Lane>, now: nat)
    requires Good(k, st, {}, {}) && !st.started && AllNew(lanes, now) && (Origin in lanes <==> !k.peerOnly)
    ensures Good(k, st.(started := true, lanes := lanes), Left(st.verified), {})
  {
    hide Inv, Kept, Logged, LaneOk, HoldOf;
    var st' := st.(started := true, lanes := lanes);
    forall s | s in lanes ensures HoldOf(lanes[s]) == Hold({}, {}, false) && LaneOk(TermsOf(k, st), s, lanes[s]) {
      NewLaneOk(TermsOf(k, st), lanes[s].estimate, now);
    }
    StartKeeps(TermsOf(k, st), CoreOf(st), HoldsOf(lanes));
    assert CoreOf(st') == CoreOf(st).(holds := HoldsOf(lanes), started := true);
  }

  /** The state of a new transfer. */
  lemma NewGood(k: Setup, data: seq<byte>, verified: seq<bool>)
    requires Fixed(k, verified) && |data| == k.size && forall i :: 0 <= i < |verified| ==> !verified[i]
    ensures Good(k, State(false, false, data, verified, map[], {}, false, false, [], [], [], false, false), {}, {})
  {
    CountWithinBound(k.size);
  }

  lemma ExclusiveGood(k: Setup, st: State)
    requires Good(k, st, {}, {}) && !k.peerOnly && !st.started && !st.finished
    ensures Good(k, st.(exclusive := true), {}, {})
  {
    hide Inv, Kept, Logged;
    var st' := st.(exclusive := true);
    ExclusiveKeeps(TermsOf(k, st), CoreOf(st));
    assert CoreOf(st') == CoreOf(st);
    NoLanes(k, st);
  }

  lemma NoLanes(k: Setup, st: State)
    requires Inv(TermsOf(k, st), CoreOf(st), {}) && !st.started
    ensures st.lanes == map[]
  {
    assert HoldsOf(st.lanes).Keys == st.lanes.Keys;
    assert st.lanes.Keys == {};
  }

  // ---- closing ----

  function Outs(commands: seq<Command>): seq<Entry> {
    seq(|commands|, j requires 0 <= j < |commands| => Out(commands[j]))
  }

  ghost predicate AllCancels(commands: seq<Command>) {
    forall j :: 0 <= j < |commands| ==> commands[j].Cancel?
  }

  lemma {:induction false} LoggedMany(k: Setup, log: seq<Entry>, told: seq<Command>, commands: seq<Command>)
    requires Logged(k, log, told) && AllCancels(commands)
    ensures Logged(k, log + Outs(commands), told + commands)
    decreases |commands|
  {
    hide Outputs;
    if commands == [] {
      assert log + Outs(commands) == log && told + commands == told;
    } else {
      var init, last := commands[..|commands| - 1], commands[|commands| - 1];
      LoggedMany(k, log, told, init);
      LoggedNext(k, log + Outs(init), told + init, Out(last));
      assert Outs(commands) == Outs(init) + [Out(last)];
      ConcatAssoc(log, Outs(init), [Out(last)]);
      assert commands == init + [last];
      ConcatAssoc(told, init, [last]);
    }
  }

  /** The lanes have been emptied. */
  ghost predicate Emptied(lanes: map<Source, Lane>, lanes': map<Source, Lane>) {
    lanes'.Keys == lanes.Keys && forall s :: s in lanes ==> lanes'[s] == lanes[s].(inFlight := [], queue := [])
  }

  ghost predicate SameRoster(lanes: map<Source, Lane>, lanes': map<Source, Lane>) {
    && lanes'.Keys == lanes.Keys
    && forall s :: s in lanes ==> lanes'[s].retired == lanes[s].retired && lanes'[s].estimate.source == lanes[s].estimate.source
  }

  /** `now` is `before` with some work answered and some pieces verified. */
  ghost predicate Worn(before: State, now: State) {
    && now == before.(lanes := now.lanes, verified := now.verified, data := now.data)
    && SameRoster(before.lanes, now.lanes)
    && |now.verified| == |before.verified| && Left(now.verified) <= Left(before.verified)
  }

  ghost function CloseState(st: State, lanes: map<Source, Lane>, cancels: seq<Command>, end: Command, data: seq<byte>): State {
    st.(lanes := lanes, pending := {}, finished := true, data := data,
        commands := st.commands + cancels + [end], log := st.log + Outs(cancels) + [Out(end)])
  }

  lemma CloseCore(k: Setup, before: State, now: State, orphans: set<nat>, lanes: map<Source, Lane>,
                  cancels: seq<Command>, end: Command, data: seq<byte>)
    requires Inv(TermsOf(k, before), CoreOf(before), orphans) && !before.finished && Worn(before, now)
    requires Emptied(now.lanes, lanes) && AllCancels(cancels) && (end.Fail? || end.Deliver?)
    ensures Inv(TermsOf(k, before), CoreOf(CloseState(now, lanes, cancels, end, data)), {})
  {
    hide Inv, HoldOf, Emptied, SameRoster, Cleared;
    var c, st' := CoreOf(before), CloseState(now, lanes, cancels, end, data);
    EmptiedHolds(before.lanes, now.lanes, lanes);
    CloseKeeps(TermsOf(k, before), c, orphans, Left(now.verified), HoldsOf(lanes), Outs(cancels), Out(end));
    assert CoreOf(st') == Core(Left(now.verified), HoldsOf(lanes), {}, c.log + Outs(cancels) + [Out(end)], c.started, true);
  }

  lemma CloseGood(k: Setup, before: State, now: State, orphans: set<nat>, loose: set<Source>, lanes: map<Source, Lane>,
                  cancels: seq<Command>, end: Command, data: seq<byte>)
    requires Good(k, before, orphans, loose) && !before.finished && Worn(before, now)
    requires Emptied(now.lanes, lanes) && AllCancels(cancels)
    requires end.Fail? || (end.Deliver? && Sound(k, end.bytes))
    ensures Good(k, CloseState(now, lanes, cancels, end, data), {}, {})
  {
    hide Inv, Kept, LanesOk, Logged, Sound, CoreOf;
    CloseCore(k, before, now, orphans, lanes, cancels, end, data);
    EmptiedOk(TermsOf(k, before), before.lanes, now.lanes, lanes, loose);
    CloseLogged(k, before, cancels, end);
    CloseFlags(before.log, cancels, end);
  }

  lemma CloseLogged(k: Setup, st: State, cancels: seq<Command>, end: Command)
    requires Logged(k, st.log, st.drained + st.commands) && AllCancels(cancels) && Delivery(k, Out(end))
    ensures Logged(k, st.log + Outs(cancels) + [Out(end)], st.drained + (st.commands + cancels + [end]))
  {
    hide Outputs;
    LoggedMany(k, st.log, st.drained + st.commands, cancels);
    ConcatAssoc(st.drained, st.commands, cancels);
    LoggedCommand(k, st.log + Outs(cancels), st.drained, st.commands + cancels, Out(end));
  }

  lemma CloseFlags(log: seq<Entry>, cancels: seq<Command>, end: Command)
    requires AllCancels(cancels) && !end.Ban?
    ensures var log' := log + Outs(cancels) + [Out(end)]; FloorPassed(log') == FloorPassed(log)
    ensures var log' := log + Outs(cancels) + [Out(end)]; Banned(log') == Banned(log) && OriginFailed(log') == OriginFailed(log)
  {
    FloorMany(log, cancels);
    Summaries(log + Outs(cancels), Out(end));
  }

  lemma FloorNext(log: seq<Entry>, e: Entry)
    ensures FloorPassed(log + [e]) <==> e == Floor(true) || FloorPassed(log)
  {
    assert (log + [e])[..|log|] == log;
  }

  lemma {:induction false} FloorMany(log: seq<Entry>, commands: seq<Command>)
    requires AllCancels(commands)
    ensures FloorPassed(log + Outs(commands)) == FloorPassed(log) && Banned(log + Outs(commands)) == Banned(log)
    ensures OriginFailed(log + Outs(commands)) == OriginFailed(log)
    decreases |commands|
  {
    if commands == [] {
      assert log + Outs(commands) == log;
    } else {
      var init, last := commands[..|commands| - 1], commands[|commands| - 1];
      FloorMany(log, init);
      assert Outs(commands) == Outs(init) + [Out(last)];
      ConcatAssoc(log, Outs(init), [Out(last)]);
      Summaries(log + Outs(init), Out(last));
    }
  }

  lemma EmptiedHolds(before: map<Source, Lane>, lanes: map<Source, Lane>, lanes': map<Source, Lane>)
    requires SameRoster(before, lanes) && Emptied(lanes, lanes')
    ensures Cleared(HoldsOf(before), HoldsOf(lanes'))
  {
    assert SetOf<nat>([]) == {};
  }

  lemma EmptiedOk(t: Terms, before: map<Source, Lane>, lanes: map<Source, Lane>, lanes': map<Source, Lane>, loose: set<Source>)
    requires LanesOk(t, before, loose) && SameRoster(before, lanes) && Emptied(lanes, lanes')
    ensures LanesOk(t, lanes', {})
  {
    hide LaneOk;
    forall s | s in lanes' ensures LaneOk(t, s, lanes'[s]) {
      EmptyLaneOk(t, s, before[s], lanes'[s]);
    }
  }

  lemma EmptyLaneOk(t: Terms, s: Source, l: Lane, l': Lane)
    requires LaneOk(t, s, l) && l'.inFlight == [] && l'.queue == [] && l'.estimate.source == l.estimate.source
    ensures LaneOk(t, s, l')
  {
  }

  // ---- consequences of the invariant ----

  lemma GoodLanes(k: Setup, st: State, orphans: set<nat>, loose: set<Source>, s: Source)
    requires Good(k, st, orphans, loose) && s in st.lanes
    ensures LaneOk(TermsOf(k, st), s, st.lanes[s]) && (s !in loose ==> Settled(st.lanes[s]))
    ensures k.peerOnly ==> s.Peer?
    ensures s == Origin ==> !st.lanes[s].retired
    ensures st.finished || (s.Peer? && FloorPassed(st.log)) ==> st.lanes[s].inFlight == [] && st.lanes[s].queue == []
  {
    assert HoldsOf(st.lanes)[s] == HoldOf(st.lanes[s]);
    if st.finished || (s.Peer? && FloorPassed(st.log)) {
      if s.Peer? {
        assert LinkAt(CoreOf(st), s.id);
      }
      BusyHold(TermsOf(k, st), s, st.lanes[s]);
    }
  }

  lemma BusyHold(t: Terms, s: Source, l: Lane)
    requires LaneOk(t, s, l)
    ensures l.inFlight != [] ==> HoldOf(l).sent != {}
    ensures l.queue != [] ==> HoldOf(l).queued != {}
  {
    if l.inFlight != [] {
      FlyingMember(l.inFlight, l.inFlight[0].range.start);
      assert l.inFlight[0].range.start in SetOf(Flying(l.inFlight));
    }
    if l.queue != [] {
      FlatMember(l.queue, l.queue[0].start);
      assert l.queue[0].start in SetOf(Flat(l.queue));
    }
  }

  lemma GoodFacts(k: Setup, st: State, orphans: set<nat>, loose: set<Source>)
    requires Good(k, st, orphans, loose)
    ensures Fixed(k, st.verified) && Flags(k, st) && LanesOk(TermsOf(k, st), st.lanes, loose)
    ensures forall i :: i in st.pending ==> i < |k.hashes|
    ensures st.finished || Kept(k, st.data, st.verified)
    ensures !st.started ==> st.lanes == map[]
    ensures !st.finished ==> !Ended(st.log)
    ensures k.peerOnly ==> !FloorPassed(st.log)
    ensures !k.peerOnly ==> st.pending == {}
  {
    hide Asks, OriginAsks, Single, Coverage, LaneOk, Kept, Logged;
    if !st.started {
      NoLanes(k, st);
    }
  }

  /** In a started mixed transfer every unverified piece is on some lane. */
  lemma GoodCovers(k: Setup, st: State, loose: set<Source>, i: nat)
    requires Good(k, st, {}, loose) && st.started && !st.finished && i in Left(st.verified)
    ensures i in st.pending || HeldIn(st.lanes, i)
    ensures !k.peerOnly ==> HeldIn(st.lanes, i)
  {
    HeldInIsHeldBy(TermsOf(k, st), st.lanes, loose, i);
  }

  /** Pieces that are held, pending or verified are no orphans. */
  lemma OrphansHeld(k: Setup, st: State, orphans: set<nat>, orphans': set<nat>, loose: set<Source>)
    requires Good(k, st, orphans, loose)
    requires forall i :: i in orphans && i in Left(st.verified) ==> i in orphans' || HeldIn(st.lanes, i)
    ensures Good(k, st, orphans', loose)
  {
    hide Logged, LaneOk, LogOk, Asks, Single, OriginAsks, Links, HeldIn, HeldBy, Kept;
    assert Coverage(CoreOf(st), orphans') by {
      forall i | i in orphans && i in Left(st.verified) && i !in orphans' ensures HeldBy(HoldsOf(st.lanes), i) {
        HeldInIsHeldBy(TermsOf(k, st), st.lanes, loose, i);
      }
    }
  }

  // ---- verifying what was sent ----

  /** The bytes of piece `i` in an answer to `range`. */
  function PieceOf(k: Setup, range: PieceRange, bytes: seq<byte>, i: nat): seq<byte> {
    var from, start, end := From(k.pieceSize, range.start), From(k.pieceSize, i), To(k.size, k.pieceSize, i);
    if from <= start <= end && end - from <= |bytes| then bytes[start - from..end - from] else []
  }

  /** The answer's piece `i` hashes to its committed digest. */
  predicate GoodPiece(k: Setup, range: PieceRange, bytes: seq<byte>, i: nat) {
    i < |k.hashes| && k.sha(PieceOf(k, range, bytes, i)) == k.hashes[i]
  }

  lemma PieceLength(k: Setup, verified: seq<bool>, range: PieceRange, bytes: seq<byte>, i: nat)
    requires Fixed(k, verified) && InRange(range, i) && range.end <= |k.hashes|
    requires |bytes| == Min(range.end * k.pieceSize, k.size) - range.start * k.pieceSize
    ensures From(k.pieceSize, i) < To(k.size, k.pieceSize, i) <= k.size
    ensures |PieceOf(k, range, bytes, i)| == To(k.size, k.pieceSize, i) - From(k.pieceSize, i)
  {
    CountWithinBound(k.size);
    PieceBounds(k.size, k.pieceSize, |k.hashes|, i);
    MulMono(range.start, i, k.pieceSize);
    MulMono(i + 1, range.end, k.pieceSize);
  }

  /** The data with piece `i` replaced. */
  function Patch(k: Setup, data: seq<byte>, i: nat, piece: seq<byte>): seq<byte>
    requires From(k.pieceSize, i) <= To(k.size, k.pieceSize, i) <= |data|
  {
    data[..From(k.pieceSize, i)] + piece + data[To(k.size, k.pieceSize, i)..]
  }

  lemma PatchSlices(data: seq<byte>, a: nat, b: nat, piece: seq<byte>, c: nat, d: nat)
    requires a <= b <= |data| && |piece| == b - a && c <= d <= |data|
    ensures var data' := data[..a] + piece + data[b..];
            |data'| == |data| && data'[a..b] == piece && (d <= a || b <= c ==> data'[c..d] == data[c..d])
  {
  }

  lemma PatchKeeps(k: Setup, data: seq<byte>, verified: seq<bool>, i: nat, piece: seq<byte>)
    requires Fixed(k, verified) && Kept(k, data, verified) && i < |verified|
    requires From(k.pieceSize, i) <= To(k.size, k.pieceSize, i) <= k.size
    requires |piece| == To(k.size, k.pieceSize, i) - From(k.pieceSize, i) && k.sha(piece) == k.hashes[i]
    ensures Kept(k, Patch(k, data, i, piece), verified[i := true])
  {
    hide PieceCount, CommitmentPieceSize, From, To;
    var data', a, b := Patch(k, data, i, piece), From(k.pieceSize, i), To(k.size, k.pieceSize, i);
    PatchSlices(data, a, b, piece, a, b);
    forall j: nat | j < |verified| && verified[i := true][j] ensures Matches(k, data', j) {
      if j != i {
        assert Matches(k, data, j);
        if j < i {
          PiecesApart(k.size, k.pieceSize, j, i);
        } else {
          PiecesApart(k.size, k.pieceSize, i, j);
        }
        PatchSlices(data, a, b, piece, From(k.pieceSize, j), To(k.size, k.pieceSize, j));
      }
    }
  }

  /** After the answer, exactly its good pieces are newly verified. */
  ghost predicate Verifies(k: Setup, range: PieceRange, bytes: seq<byte>, upTo: nat, verified: seq<bool>, verified': seq<bool>) {
    |verified'| == |verified| &&
    forall i: nat :: i < |verified| ==>
      (verified'[i] <==> verified[i] || (InRange(range, i) && i < upTo && GoodPiece(k, range, bytes, i)))
  }
}

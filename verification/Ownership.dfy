/** The invariants of one transfer, and the steps that keep them: queueing work,
    sending it, taking an answer, retiring a source, closing the transfer. */
module Ownership {
  import opened Pieces
  import opened Estimates
  import opened Lanes
  import opened Books

  /** What one source holds: pieces asked of it and not answered, and pieces
      waiting to be asked. */
  datatype Hold = Hold(sent: set<nat>, queued: set<nat>, retired: bool)

  /** The part of a transfer's state that the invariants speak of. */
  datatype Core = Core(
    unverified: set<nat>, holds: map<Source, Hold>, pending: set<nat>, log: seq<Entry>, started: bool, finished: bool)

  ghost predicate HeldBy(holds: map<Source, Hold>, i: nat) {
    exists s :: s in holds && (i in holds[s].sent || i in holds[s].queued)
  }

  predicate Empty(h: Hold) {
    h.sent == {} && h.queued == {}
  }

  ghost predicate Roster(t: Terms, holds: map<Source, Hold>) {
    && (t.peerOnly ==> Origin !in holds)
    && (Origin in holds ==> !holds[Origin].retired)
    && (forall s :: s in holds && holds[s].retired ==> Empty(holds[s]))
  }

  /** Every unverified piece is held by a live source, or pending in peer-only
      mode; `orphans` are the exceptions while work is on its way. */
  ghost predicate Coverage(c: Core, orphans: set<nat>) {
    c.started && !c.finished ==>
      forall i :: i in c.unverified && i !in orphans ==> i in c.pending || HeldBy(c.holds, i)
  }

  /** No peer holds a piece twice; in exclusive mode no source does. */
  ghost predicate NoneTwice(t: Terms, holds: map<Source, Hold>) {
    forall s :: s in holds && (s.Peer? || t.exclusive) ==> holds[s].sent !! holds[s].queued
  }

  /** In exclusive mode what the sources hold is unverified, and each piece is
      held by one source only. */
  ghost predicate Single(t: Terms, c: Core) {
    t.exclusive ==>
      && (forall s :: s in c.holds ==> c.holds[s].sent <= c.unverified && c.holds[s].queued <= c.unverified)
      && (forall s, u :: s in c.holds && u in c.holds && s != u ==> Apart(c.holds[s], c.holds[u]))
  }

  ghost predicate Apart(a: Hold, b: Hold) {
    a.sent + a.queued !! b.sent + b.queued
  }

  /** What peer `p` was asked is verified or in flight there, and what is queued
      there was never asked. */
  ghost predicate AsksAt(c: Core, p: nat) {
    if Peer(p) in c.holds then
      !c.holds[Peer(p)].retired && !c.finished ==>
        && Asked(c.log, p) * c.unverified <= c.holds[Peer(p)].sent
        && Asked(c.log, p) !! c.holds[Peer(p)].queued
    else Asked(c.log, p) == {}
  }

  ghost predicate Asks(c: Core) {
    forall p: nat :: AsksAt(c, p)
  }

  /** In exclusive mode what origin was asked is verified or in flight there. */
  ghost predicate OriginAsks(t: Terms, c: Core) {
    t.exclusive && !c.finished ==>
      if Origin in c.holds
      then Fetched(c.log) * c.unverified <= c.holds[Origin].sent && Fetched(c.log) !! c.holds[Origin].queued
      else Fetched(c.log) == {}
  }

  /** The pieces ever asked of source `s`. */
  ghost function AskedOf(log: seq<Entry>, s: Source): set<nat> {
    match s
    case Peer(p) => Asked(log, p)
    case Origin => Fetched(log)
  }

  /** Whatever is in flight was asked for. */
  ghost predicate Commanded(c: Core) {
    forall s :: s in c.holds ==> c.holds[s].sent <= AskedOf(c.log, s)
  }

  /** Exactly the dropped peers are retired, and after the floor no peer holds
      anything. */
  ghost predicate LinkAt(c: Core, p: nat) {
    && (!c.finished ==> (Dropped(c.log, p) <==> Peer(p) in c.holds && c.holds[Peer(p)].retired))
    && (FloorPassed(c.log) && Peer(p) in c.holds ==> Empty(c.holds[Peer(p)]))
  }

  /** The log agrees with the state. */
  ghost predicate Links(t: Terms, c: Core) {
    && LogOk(t, c.log)
    && Ended(c.log) == c.finished
    && (c.finished ==> c.pending == {} && forall s :: s in c.holds ==> Empty(c.holds[s]))
    && (FloorPassed(c.log) ==> c.started && !t.peerOnly)
    && (!t.peerOnly ==> c.pending == {})
    && (forall p: nat :: LinkAt(c, p))
    && (forall i :: i in c.pending || i in c.unverified ==> i < t.n)
    && (!c.started ==> c.holds == map[] && c.pending == {})
  }

  ghost predicate Inv(t: Terms, c: Core, orphans: set<nat>) {
    && t.n > 0 && t.cap > 0 && !(t.peerOnly && t.exclusive)
    && Roster(t, c.holds)
    && Coverage(c, orphans)
    && NoneTwice(t, c.holds)
    && Single(t, c)
    && Asks(c)
    && OriginAsks(t, c)
    && Commanded(c)
    && Links(t, c)
  }

  // ---- queueing work ----

  /** A source that holds at least what it held keeps every piece covered. */
  lemma HeldByKept(holds: map<Source, Hold>, s: Source, h: Hold)
    requires s in holds ==> holds[s].sent + holds[s].queued <= h.sent + h.queued
    ensures forall i :: HeldBy(holds, i) || i in h.sent || i in h.queued ==> HeldBy(holds[s := h], i)
  {
    var holds' := holds[s := h];
    forall i | HeldBy(holds, i) || i in h.sent || i in h.queued ensures HeldBy(holds', i) {
      if i in h.sent || i in h.queued {
        assert s in holds' && (i in holds'[s].sent || i in holds'[s].queued);
      } else {
        var u :| u in holds && (i in holds[u].sent || i in holds[u].queued);
        assert i in h.sent + h.queued || u != s;
        assert u in holds' && (i in holds'[u].sent || i in holds'[u].queued);
      }
    }
  }

  /** The hold of `s` with `pieces` more in its queue. */
  function Queued(c: Core, s: Source, pieces: set<nat>): Hold {
    if s in c.holds then c.holds[s].(queued := c.holds[s].queued + pieces) else Hold({}, pieces, false)
  }

  /** When `pieces` may join the queue of `s`. */
  ghost predicate MayQueue(t: Terms, c: Core, s: Source, pieces: set<nat>) {
    && !c.finished && c.started
    && (s.Peer? ==> s in c.holds && pieces !! c.holds[s].sent + c.holds[s].queued && (FloorPassed(c.log) ==> pieces == {}))
    && (s in c.holds ==> !c.holds[s].retired)
    && (s == Origin ==> !t.peerOnly)
    && pieces <= c.unverified
    && (t.exclusive ==> forall i :: i in pieces ==> !HeldBy(c.holds, i))
  }

  ghost function AfterQueue(c: Core, s: Source, pieces: set<nat>, pending: set<nat>): Core {
    c.(holds := c.holds[s := Queued(c, s, pieces)], pending := pending)
  }

  lemma QueueKeeps(t: Terms, c: Core, orphans: set<nat>, s: Source, pieces: set<nat>, pending: set<nat>)
    requires Inv(t, c, orphans) && MayQueue(t, c, s, pieces)
    requires c.pending - pieces <= pending <= c.pending
    ensures Inv(t, AfterQueue(c, s, pieces, pending), orphans - pieces)
  {
    var h := Queued(c, s, pieces);
    var c' := AfterQueue(c, s, pieces, pending);
    assert Coverage(c', orphans - pieces) by {
      HeldByKept(c.holds, s, h);
    }
    assert Single(t, c') by {
      QueueSingle(t, c, s, pieces, pending);
    }
    assert Asks(c') by {
      forall p: nat ensures AsksAt(c', p) {
        assert AsksAt(c, p);
      }
    }
    assert Links(t, c') by {
      forall p: nat ensures LinkAt(c', p) {
        assert LinkAt(c, p);
      }
    }
  }

  lemma QueueSingle(t: Terms, c: Core, s: Source, pieces: set<nat>, pending: set<nat>)
    requires Single(t, c) && pieces <= c.unverified
    requires t.exclusive ==> forall i :: i in pieces ==> !HeldBy(c.holds, i)
    ensures Single(t, AfterQueue(c, s, pieces, pending))
  {
    if t.exclusive {
      forall u | u in c.holds ensures pieces !! c.holds[u].sent + c.holds[u].queued {
        forall i | i in pieces ensures i !in c.holds[u].sent + c.holds[u].queued {
          assert !HeldBy(c.holds, i);
        }
      }
      forall u | u in c.holds && u != s ensures Apart(Queued(c, s, pieces), c.holds[u]) {
        if s in c.holds {
          assert Apart(c.holds[s], c.holds[u]);
        }
      }
    }
  }

  /** No peer holds the piece; in exclusive mode nobody does. */
  ghost predicate FreeAt(t: Terms, holds: map<Source, Hold>, i: nat) {
    forall s :: s in holds && (s.Peer? || t.exclusive) ==> i !in holds[s].sent && i !in holds[s].queued
  }

  ghost predicate Free(t: Terms, holds: map<Source, Hold>, pieces: set<nat>) {
    forall i :: i in pieces ==> FreeAt(t, holds, i)
  }

  /** `s` does not hold any of the pieces; in exclusive mode nobody does. */
  ghost predicate FreeOf(t: Terms, holds: map<Source, Hold>, s: Source, pieces: set<nat>) {
    && (s.Peer? && s in holds ==> pieces !! holds[s].sent + holds[s].queued)
    && (t.exclusive ==> Free(t, holds, pieces))
  }

  lemma FreeIsFreeOf(t: Terms, holds: map<Source, Hold>, s: Source, pieces: set<nat>)
    requires Free(t, holds, pieces)
    ensures FreeOf(t, holds, s, pieces)
  {
    assert forall i :: i in pieces ==> FreeAt(t, holds, i);
  }

  lemma FreeQueues(t: Terms, c: Core, s: Source, pieces: set<nat>)
    requires !c.finished && c.started && pieces <= c.unverified && FreeOf(t, c.holds, s, pieces)
    requires s.Peer? ==> s in c.holds && (FloorPassed(c.log) ==> pieces == {})
    requires s in c.holds ==> !c.holds[s].retired
    requires s == Origin ==> !t.peerOnly
    ensures MayQueue(t, c, s, pieces)
  {
    assert t.exclusive ==> forall i :: i in pieces ==> FreeAt(t, c.holds, i);
  }

  /** Pending work changes, and every piece that was pending is still so, held
      or an orphan. */
  lemma PendingKeeps(t: Terms, c: Core, orphans: set<nat>, pending: set<nat>, orphans': set<nat>)
    requires Inv(t, c, orphans) && t.peerOnly && c.started && !c.finished
    requires forall i :: i in pending ==> i < t.n
    requires forall i :: i in c.unverified && (i in c.pending || i in orphans) ==> i in pending || i in orphans' || HeldBy(c.holds, i)
    ensures Inv(t, c.(pending := pending), orphans')
  {
    var c' := c.(pending := pending);
    forall p: nat ensures AsksAt(c', p) {
      assert AsksAt(c, p);
    }
    forall p: nat ensures LinkAt(c', p) {
      assert LinkAt(c, p);
    }
  }

  // ---- sending queued work ----

  /** Source `s` with the pieces of `r` moved from its queue into flight. */
  ghost function Sent(c: Core, s: Source, r: PieceRange, rest: set<nat>): Hold
    requires s in c.holds
  {
    c.holds[s].(sent := c.holds[s].sent + PieceSet(r), queued := rest)
  }

  function SendEntry(s: Source, r: PieceRange): Entry {
    match s
    case Peer(p) => Out(Request(p, r))
    case Origin => Out(FetchOrigin(r))
  }

  /** When `s` may send `r`, the front of its queue, leaving `rest` queued. */
  ghost predicate MaySend(t: Terms, c: Core, s: Source, r: PieceRange, rest: set<nat>) {
    && !c.finished && s in c.holds && !c.holds[s].retired
    && c.holds[s].queued == rest + PieceSet(r)
    && r.start < r.end <= t.n
    && (s.Peer? ==> c.holds[s].sent == {} && r.end - r.start <= t.cap && PieceSet(r) !! rest)
    && (t.exclusive ==> PieceSet(r) !! rest)
  }

  lemma SendFollows(t: Terms, c: Core, orphans: set<nat>, s: Source, r: PieceRange, rest: set<nat>)
    requires Inv(t, c, orphans) && MaySend(t, c, s, r, rest)
    ensures MayFollow(t, c.log, SendEntry(s, r))
  {
    hide Unowned;
    SpanMember(r, r.start);
    assert r.start in PieceSet(r);
    if t.exclusive {
      SendUnowned(t, c, s, r, rest);
    }
    if s.Peer? {
      assert AsksAt(c, s.id) && LinkAt(c, s.id);
      if t.exclusive && Origin in c.holds {
        assert Apart(c.holds[s], c.holds[Origin]);
      }
    }
  }

  /** What is sent was never asked of another live peer. */
  lemma SendUnowned(t: Terms, c: Core, s: Source, r: PieceRange, rest: set<nat>)
    requires MaySend(t, c, s, r, rest) && t.exclusive && Single(t, c) && Asks(c) && forall p: nat :: LinkAt(c, p)
    ensures Unowned(c.log, PieceSet(r), if s.Peer? then {s.id} else {})
  {
    forall q: nat | q !in (if s.Peer? then {s.id} else {}) && !Dropped(c.log, q) ensures PieceSet(r) !! Asked(c.log, q) {
      assert AsksAt(c, q) && LinkAt(c, q);
      if Peer(q) in c.holds {
        assert Apart(c.holds[s], c.holds[Peer(q)]);
      }
    }
  }

  ghost function AfterSend(c: Core, s: Source, r: PieceRange, rest: set<nat>): Core
    requires s in c.holds
  {
    c.(holds := c.holds[s := Sent(c, s, r, rest)], log := c.log + [SendEntry(s, r)])
  }

  lemma SendAsks(t: Terms, c: Core, s: Source, r: PieceRange, rest: set<nat>, p: nat)
    requires MaySend(t, c, s, r, rest) && AsksAt(c, p)
    ensures AsksAt(AfterSend(c, s, r, rest), p)
  {
    Summaries(c.log, SendEntry(s, r));
  }

  lemma SendSingle(t: Terms, c: Core, s: Source, r: PieceRange, rest: set<nat>)
    requires MaySend(t, c, s, r, rest) && Single(t, c)
    ensures Single(t, AfterSend(c, s, r, rest))
  {
    if t.exclusive {
      forall u | u in c.holds && u != s ensures Apart(Sent(c, s, r, rest), c.holds[u]) {
        assert Apart(c.holds[s], c.holds[u]);
      }
    }
  }

  lemma SendLinks(t: Terms, c: Core, orphans: set<nat>, s: Source, r: PieceRange, rest: set<nat>)
    requires Inv(t, c, orphans) && MaySend(t, c, s, r, rest)
    ensures Links(t, AfterSend(c, s, r, rest))
  {
    var e := SendEntry(s, r);
    SendFollows(t, c, orphans, s, r, rest);
    LogNext(t, c.log, e);
    Summaries(c.log, e);
    forall p: nat ensures LinkAt(AfterSend(c, s, r, rest), p) {
      assert LinkAt(c, p);
    }
  }

  lemma SendOrigin(t: Terms, c: Core, s: Source, r: PieceRange, rest: set<nat>)
    requires MaySend(t, c, s, r, rest) && OriginAsks(t, c)
    ensures OriginAsks(t, AfterSend(c, s, r, rest))
  {
    Summaries(c.log, SendEntry(s, r));
  }

  lemma SendCovers(t: Terms, c: Core, orphans: set<nat>, s: Source, r: PieceRange, rest: set<nat>)
    requires Coverage(c, orphans) && MaySend(t, c, s, r, rest)
    ensures Coverage(AfterSend(c, s, r, rest), orphans)
  {
    HeldByKept(c.holds, s, Sent(c, s, r, rest));
  }

  lemma SendCommanded(t: Terms, c: Core, s: Source, r: PieceRange, rest: set<nat>)
    requires Commanded(c) && MaySend(t, c, s, r, rest)
    ensures Commanded(AfterSend(c, s, r, rest))
  {
    hide Unowned, Apart;
    Summaries(c.log, SendEntry(s, r));
  }

  lemma SendKeeps(t: Terms, c: Core, orphans: set<nat>, s: Source, r: PieceRange, rest: set<nat>)
    requires Inv(t, c, orphans) && MaySend(t, c, s, r, rest)
    ensures Inv(t, AfterSend(c, s, r, rest), orphans)
  {
    hide Coverage, Single, AsksAt, OriginAsks, Commanded, Links;
    var c' := AfterSend(c, s, r, rest);
    SendCovers(t, c, orphans, s, r, rest);
    SendSingle(t, c, s, r, rest);
    forall p: nat ensures AsksAt(c', p) {
      SendAsks(t, c, s, r, rest, p);
    }
    SendOrigin(t, c, s, r, rest);
    SendCommanded(t, c, s, r, rest);
    SendLinks(t, c, orphans, s, r, rest);
  }

  // ---- commands and log entries without other effect ----

  /** Cancelling, abandoning or banning a peer that is already retired, a fault of
      origin, and a floor before the start change nobody's books. */
  lemma NoteKeeps(t: Terms, c: Core, orphans: set<nat>, e: Entry)
    requires Inv(t, c, orphans) && !c.finished
    requires e.Gone? || e.OriginFault? || (e == Floor(false) && Unbegun(c.log)) || (e.Out? && (e.command.Cancel? || e.command.Abandon? || e.command.Ban?))
    requires e.Out? && e.command.Abandon? ==> !t.peerOnly
    requires forall p :: Drops(e, p) ==> Peer(p) in c.holds && c.holds[Peer(p)].retired
    ensures Inv(t, c.(log := c.log + [e]), orphans)
  {
    var c' := c.(log := c.log + [e]);
    if e.Floor? {
      UnbegunFacts(t, c.log);
    }
    LogNext(t, c.log, e);
    Summaries(c.log, e);
    forall p: nat ensures AsksAt(c', p) {
      assert AsksAt(c, p);
    }
    forall p: nat ensures LinkAt(c', p) {
      assert LinkAt(c, p);
    }
  }

  /** The floor passes when no peer holds anything. */
  lemma FloorKeeps(t: Terms, c: Core, orphans: set<nat>)
    requires Inv(t, c, orphans) && !c.finished && c.started && !t.peerOnly
    requires forall p: nat :: Peer(p) in c.holds ==> Empty(c.holds[Peer(p)])
    ensures Inv(t, c.(log := c.log + [Floor(true)]), orphans)
  {
    var c' := c.(log := c.log + [Floor(true)]);
    LogNext(t, c.log, Floor(true));
    Summaries(c.log, Floor(true));
    forall p: nat ensures AsksAt(c', p) {
      assert AsksAt(c, p);
    }
    forall p: nat ensures LinkAt(c', p) {
      assert LinkAt(c, p);
    }
  }

  // ---- taking an answer ----

  /** Source `s` answers `range`: its pieces are verified, and `sent` is what it
      still has in flight. */
  ghost predicate MayAnswer(t: Terms, c: Core, s: Source, range: set<nat>, sent: set<nat>) {
    && s in c.holds && range <= c.holds[s].sent && !c.finished
    && c.holds[s].sent - range <= sent <= c.holds[s].sent
    && (t.exclusive || s.Peer? ==> sent !! range)
  }

  ghost function AfterAnswer(c: Core, s: Source, range: set<nat>, sent: set<nat>): Core
    requires s in c.holds
  {
    c.(unverified := c.unverified - range, holds := c.holds[s := c.holds[s].(sent := sent)])
  }

  lemma AnswerCovers(t: Terms, c: Core, orphans: set<nat>, s: Source, range: set<nat>, sent: set<nat>)
    requires Coverage(c, orphans) && MayAnswer(t, c, s, range, sent)
    ensures Coverage(AfterAnswer(c, s, range, sent), orphans)
  {
    var c' := AfterAnswer(c, s, range, sent);
    forall i | HeldBy(c.holds, i) && i !in range ensures HeldBy(c'.holds, i) {
      var u :| u in c.holds && (i in c.holds[u].sent || i in c.holds[u].queued);
      assert u in c'.holds && (i in c'.holds[u].sent || i in c'.holds[u].queued);
    }
  }

  lemma AnswerSingle(t: Terms, c: Core, s: Source, range: set<nat>, sent: set<nat>)
    requires Single(t, c) && NoneTwice(t, c.holds) && MayAnswer(t, c, s, range, sent)
    ensures Single(t, AfterAnswer(c, s, range, sent))
  {
    if t.exclusive {
      var h := c.holds[s].(sent := sent);
      forall u | u in c.holds && u != s
        ensures Apart(h, c.holds[u]) && c.holds[u].sent !! range && c.holds[u].queued !! range
      {
        assert Apart(c.holds[s], c.holds[u]);
      }
    }
  }

  lemma AnswerLinks(t: Terms, c: Core, s: Source, range: set<nat>, sent: set<nat>)
    requires Links(t, c) && MayAnswer(t, c, s, range, sent)
    ensures Links(t, AfterAnswer(c, s, range, sent))
  {
    forall p: nat ensures LinkAt(AfterAnswer(c, s, range, sent), p) {
      assert LinkAt(c, p);
    }
  }

  lemma AnswerKeeps(t: Terms, c: Core, orphans: set<nat>, s: Source, range: set<nat>, sent: set<nat>)
    requires Inv(t, c, orphans) && MayAnswer(t, c, s, range, sent)
    ensures Inv(t, AfterAnswer(c, s, range, sent), orphans)
  {
    hide Coverage, Single, Links, LogOk;
    AnswerCovers(t, c, orphans, s, range, sent);
    AnswerSingle(t, c, s, range, sent);
    AnswerLinks(t, c, s, range, sent);
    forall p: nat ensures AsksAt(AfterAnswer(c, s, range, sent), p) {
      assert AsksAt(c, p);
    }
  }

  // ---- retiring a source ----

  const NOTHING: Hold := Hold({}, {}, true)

  /** Some source other than `s` holds the piece. */
  ghost predicate HeldBesides(holds: map<Source, Hold>, s: Source, i: nat) {
    exists u :: u in holds && u != s && (i in holds[u].sent || i in holds[u].queued)
  }

  /** What leaves with source `s` and is held by nobody else. */
  ghost predicate Released(c: Core, s: Source, released: set<nat>) {
    forall i :: i in c.unverified && HeldBy(c.holds, i) && !HeldBesides(c.holds, s, i) ==> i in released
  }

  lemma RetireCovers(c: Core, orphans: set<nat>, s: Source, released: set<nat>, log: seq<Entry>)
    requires Coverage(c, orphans) && s in c.holds && Released(c, s, released)
    ensures Coverage(c.(holds := c.holds[s := NOTHING], log := log), orphans + released)
  {
    var holds := c.holds[s := NOTHING];
    forall i | i in c.unverified && i !in orphans + released && HeldBy(c.holds, i) ensures HeldBy(holds, i) {
      var u :| u in c.holds && u != s && (i in c.holds[u].sent || i in c.holds[u].queued);
      assert u in holds && (i in holds[u].sent || i in holds[u].queued);
    }
  }

  lemma RetireSingle(t: Terms, c: Core, s: Source, log: seq<Entry>)
    requires Single(t, c) && s in c.holds
    ensures Single(t, c.(holds := c.holds[s := NOTHING], log := log))
  {
    if t.exclusive {
      var holds := c.holds[s := NOTHING];
      forall u, v | u in holds && v in holds && u != v ensures Apart(holds[u], holds[v]) {
        if u != s && v != s {
          assert Apart(c.holds[u], c.holds[v]);
        }
      }
    }
  }

  ghost function AfterRetire(c: Core, s: Source): Core {
    c.(holds := c.holds[s := NOTHING], log := c.log + [Gone(s)])
  }

  lemma RetireLinks(t: Terms, c: Core, p: nat)
    requires Links(t, c) && Peer(p) in c.holds && !c.finished
    ensures Links(t, AfterRetire(c, Peer(p)))
  {
    hide LogOk;
    LogNext(t, c.log, Gone(Peer(p)));
    Summaries(c.log, Gone(Peer(p)));
    forall q: nat ensures LinkAt(AfterRetire(c, Peer(p)), q) {
      assert LinkAt(c, q);
    }
  }

  lemma RetireAsks(t: Terms, c: Core, p: nat)
    requires Asks(c) && OriginAsks(t, c) && Commanded(c) && Peer(p) in c.holds && !c.finished
    ensures Asks(AfterRetire(c, Peer(p))) && OriginAsks(t, AfterRetire(c, Peer(p))) && Commanded(AfterRetire(c, Peer(p)))
  {
    Summaries(c.log, Gone(Peer(p)));
    forall q: nat ensures AsksAt(AfterRetire(c, Peer(p)), q) {
      assert AsksAt(c, q);
    }
  }

  lemma RetireKeeps(t: Terms, c: Core, orphans: set<nat>, p: nat, released: set<nat>)
    requires Inv(t, c, orphans) && Peer(p) in c.holds && !c.finished
    requires Released(c, Peer(p), released)
    ensures Inv(t, AfterRetire(c, Peer(p)), orphans + released)
  {
    hide Coverage, Single, Released, Links, Asks, OriginAsks, Commanded;
    RetireCovers(c, orphans, Peer(p), released, AfterRetire(c, Peer(p)).log);
    RetireSingle(t, c, Peer(p), AfterRetire(c, Peer(p)).log);
    RetireLinks(t, c, p);
    RetireAsks(t, c, p);
  }

  /** A peer answers, only `good` of it verifies, and the peer is retired. */
  lemma BadAnswerKeeps(t: Terms, c: Core, orphans: set<nat>, p: nat, good: set<nat>, released: set<nat>)
    requires Inv(t, c, orphans) && Peer(p) in c.holds && !c.finished
    requires good <= c.holds[Peer(p)].sent
    requires Released(c.(unverified := c.unverified - good), Peer(p), released)
    ensures Inv(t, c.(unverified := c.unverified - good, holds := c.holds[Peer(p) := NOTHING],
                      log := c.log + [Gone(Peer(p))]), orphans + released)
  {
    var s := Peer(p);
    assert Released(c, s, released + good);
    RetireKeeps(t, c, orphans, p, released + good);
    var r := c.(holds := c.holds[s := NOTHING], log := c.log + [Gone(s)]);
    var r' := r.(unverified := c.unverified - good);
    assert Single(t, r') by {
      if t.exclusive {
        forall u | u in r.holds ensures r.holds[u].sent !! good && r.holds[u].queued !! good {
          if u != s {
            assert Apart(c.holds[s], c.holds[u]);
          }
        }
      }
    }
    forall q: nat ensures AsksAt(r', q) {
      assert AsksAt(r, q);
    }
    forall q: nat ensures LinkAt(r', q) {
      assert LinkAt(r, q);
    }
  }

  // ---- taking origin's unissued work back ----

  lemma ClaimKeeps(t: Terms, c: Core, orphans: set<nat>, claimed: set<nat>)
    requires Inv(t, c, orphans) && Origin in c.holds && !c.finished && t.exclusive
    requires claimed <= c.holds[Origin].queued
    ensures var h := c.holds[Origin].(queued := c.holds[Origin].queued - claimed);
            Inv(t, c.(holds := c.holds[Origin := h]), orphans + claimed) &&
            forall i :: i in claimed ==> !HeldBy(c.holds[Origin := h], i)
  {
    var h := c.holds[Origin].(queued := c.holds[Origin].queued - claimed);
    var c' := c.(holds := c.holds[Origin := h]);
    assert Coverage(c', orphans + claimed) by {
      forall i | HeldBy(c.holds, i) && i !in claimed ensures HeldBy(c'.holds, i) {
        var u :| u in c.holds && (i in c.holds[u].sent || i in c.holds[u].queued);
        assert u in c'.holds && (i in c'.holds[u].sent || i in c'.holds[u].queued);
      }
    }
    forall u | u in c.holds && u != Origin ensures Apart(h, c.holds[u]) && claimed !! c.holds[u].sent + c.holds[u].queued {
      assert Apart(c.holds[Origin], c.holds[u]);
    }
    forall q: nat ensures AsksAt(c', q) {
      assert AsksAt(c, q);
    }
    forall q: nat ensures LinkAt(c', q) {
      assert LinkAt(c, q);
    }
  }

  // ---- starting and closing ----

  /** Choosing exclusive origin ownership before anything has happened. */
  lemma ExclusiveKeeps(t: Terms, c: Core)
    requires Inv(t, c, {}) && !t.peerOnly && !c.started && Unbegun(c.log)
    ensures Inv(t.(exclusive := true), c, {})
  {
    UnbegunFacts(t.(exclusive := true), c.log);
  }

  /** At the start every source is idle and every piece is an orphan. */
  lemma StartKeeps(t: Terms, c: Core, holds: map<Source, Hold>)
    requires Inv(t, c, {}) && !c.started
    requires t.peerOnly ==> Origin !in holds
    requires forall s :: s in holds ==> holds[s] == Hold({}, {}, false)
    ensures Inv(t, c.(holds := holds, started := true), c.unverified)
  {
    var c' := c.(holds := holds, started := true);
    forall q: nat ensures AsksAt(c', q) {
      assert AsksAt(c, q);
    }
    forall q: nat ensures LinkAt(c', q) {
      assert LinkAt(c, q);
    }
  }

  /** Every hold is emptied. */
  ghost predicate Cleared(holds: map<Source, Hold>, holds': map<Source, Hold>) {
    holds'.Keys == holds.Keys && forall s :: s in holds ==> holds'[s] == Hold({}, {}, holds[s].retired)
  }

  ghost predicate Cancels(log: seq<Entry>) {
    forall k :: 0 <= k < |log| ==> log[k].Out? && log[k].command.Cancel?
  }

  lemma {:induction false} CancelsFollow(t: Terms, log: seq<Entry>, cancels: seq<Entry>)
    requires LogOk(t, log) && !Ended(log) && Cancels(cancels)
    ensures LogOk(t, log + cancels) && !Ended(log + cancels)
    ensures forall p :: Asked(log + cancels, p) == Asked(log, p)
    ensures Fetched(log + cancels) == Fetched(log) && FloorPassed(log + cancels) == FloorPassed(log)
    decreases |cancels|
  {
    if cancels == [] {
      assert log + cancels == log;
    } else {
      var n := |cancels| - 1;
      CancelsFollow(t, log, cancels[..n]);
      assert log + cancels == (log + cancels[..n]) + [cancels[n]];
      LogNext(t, log + cancels[..n], cancels[n]);
      Summaries(log + cancels[..n], cancels[n]);
    }
  }

  /** The transfer ends; some of what was in flight may have verified meanwhile. */
  lemma CloseKeeps(t: Terms, c: Core, orphans: set<nat>, unverified: set<nat>, holds: map<Source, Hold>,
                   cancels: seq<Entry>, end: Entry)
    requires Inv(t, c, orphans) && !c.finished && unverified <= c.unverified
    requires Cleared(c.holds, holds) && Cancels(cancels) && Terminal(end)
    ensures Inv(t, Core(unverified, holds, {}, c.log + cancels + [end], c.started, true), {})
  {
    CancelsFollow(t, c.log, cancels);
    LogNext(t, c.log + cancels, end);
    Summaries(c.log + cancels, end);
    var c' := Core(unverified, holds, {}, c.log + cancels + [end], c.started, true);
    forall q: nat ensures AsksAt(c', q) {
      assert AsksAt(c, q);
    }
    forall q: nat ensures LinkAt(c', q) {
      assert LinkAt(c, q);
    }
  }
}

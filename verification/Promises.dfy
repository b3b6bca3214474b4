/** What the scheduler promises in every reachable state and over every run; each
    promise follows from the invariant that all the transfer's methods keep. */
module Promises {
  import opened Wrappers
  import opened Pieces
  import opened Sorting
  import opened Estimates
  import opened Lanes
  import opened Books
  import opened Ownership
  import opened Dispatch
  import opened States
  import opened Supply
  import opened Answers

  // ---- exclusive origin ----

  /** With exclusive ownership each unverified piece has one owner at most, who has
      it once, and a verified piece has none. */
  lemma SingleOwner(k: Setup, st: State, orphans: set<nat>, loose: set<Source>, s: Source, u: Source, i: nat)
    requires Good(k, st, orphans, loose) && st.exclusive && s in st.lanes && u in st.lanes
    requires Holds(st.lanes[s], i) && Holds(st.lanes[u], i)
    ensures s == u && NoDup(Work(st.lanes[s])) && i in Left(st.verified)
  {
    hide Good, Holds, HoldOf, NoDup, Work;
    GoodLanes(k, st, orphans, loose, s);
    GoodLanes(k, st, orphans, loose, u);
    HoldHolds(TermsOf(k, st), s, st.lanes[s], i);
    HoldHolds(TermsOf(k, st), u, st.lanes[u], i);
    GoodSingle(k, st, orphans, loose, s, u);
  }

  lemma GoodSingle(k: Setup, st: State, orphans: set<nat>, loose: set<Source>, s: Source, u: Source)
    requires Good(k, st, orphans, loose) && st.exclusive && s in st.lanes && u in st.lanes
    ensures s != u ==> Apart(HoldOf(st.lanes[s]), HoldOf(st.lanes[u]))
    ensures HoldOf(st.lanes[s]).sent <= Left(st.verified) && HoldOf(st.lanes[s]).queued <= Left(st.verified)
  {
    hide LaneOk, HoldOf, Kept, Logged;
    assert HoldsOf(st.lanes)[s] == HoldOf(st.lanes[s]) && HoldsOf(st.lanes)[u] == HoldOf(st.lanes[u]);
  }

  /** ... so an answer never makes another request redundant. */
  lemma NothingRedundant(k: Setup, st: State, orphans: set<nat>, loose: set<Source>, winner: Source)
    requires Good(k, st, orphans, loose) && st.exclusive
    ensures Redundant(st.lanes, st.verified, winner) == {}
  {
    hide Good, NoDup, Work;
    forall s | s in st.lanes && st.lanes[s].inFlight != [] ensures !AllVerified(st.lanes[s], st.verified) {
      GoodLanes(k, st, orphans, loose, s);
      GoodSingle(k, st, orphans, loose, s, s);
      var i := st.lanes[s].inFlight[0].range.start;
      FlyingMember(st.lanes[s].inFlight, i);
      assert i in HoldOf(st.lanes[s]).sent;
    }
  }

  // ---- mixed mode ----

  /** A started, unfinished mixed transfer has every unverified piece on a live
      lane, and every lane with queued work has a request in flight. */
  lemma MixedCovered(k: Setup, st: State, i: nat)
    requires Good(k, st, {}, {}) && !k.peerOnly && st.started && !st.finished && i in Left(st.verified)
    ensures HeldIn(st.lanes, i) && InFlight(st.lanes)
    ensures forall s :: s in st.lanes ==> Settled(st.lanes[s])
  {
    hide Good, Holds, LaneOk;
    GoodCovers(k, st, {}, i);
    var s :| s in st.lanes && Holds(st.lanes[s], i);
    forall u | u in st.lanes ensures Settled(st.lanes[u]) {
      GoodLanes(k, st, {}, {}, u);
    }
    HoldsWork(st.lanes[s], i);
    assert Busy(st.lanes, s);
  }

  lemma HoldsWork(l: Lane, i: nat)
    requires Holds(l, i)
    ensures l.inFlight != [] || l.queue != []
  {
  }

  // ---- whole runs ----

  /** The commands of a run are those of its log, and the log keeps the rules of
      `LogOk`: at most one end, which comes last, no piece asked twice of a peer,
      no request to a dropped peer or past the floor. */
  lemma RunLog(k: Setup, st: State, orphans: set<nat>, loose: set<Source>)
    requires Good(k, st, orphans, loose)
    ensures LogOk(TermsOf(k, st), st.log) && Outputs(st.log) == st.drained + st.commands
    ensures Ended(st.log) == st.finished
  {
    hide LaneOk, Kept, Asks, Single;
  }

  /** A delivery has every committed digest, and ends the run. */
  lemma DeliveredIsSound(k: Setup, st: State, orphans: set<nat>, loose: set<Source>, j: nat, bytes: seq<byte>)
    requires Good(k, st, orphans, loose) && j < |st.log| && st.log[j] == Out(Deliver(bytes))
    ensures Sound(k, bytes) && j == |st.log| - 1
  {
    RunLog(k, st, orphans, loose);
    hide Inv, LaneOk, Kept, Sound, LogOk;
    assert Delivery(k, st.log[j]);
    OneEnd(TermsOf(k, st), st.log, j);
  }

  /** Every verified piece in hand hashes to its committed digest. */
  lemma VerifiedIsCommitted(k: Setup, st: State, orphans: set<nat>, loose: set<Source>, i: nat)
    requires Good(k, st, orphans, loose) && !st.finished && i < |st.verified| && st.verified[i]
    ensures i < |k.hashes| && From(k.pieceSize, i) < To(k.size, k.pieceSize, i) <= |st.data| == k.size
    ensures k.sha(st.data[From(k.pieceSize, i)..To(k.size, k.pieceSize, i)]) == k.hashes[i]
  {
    hide Inv, LanesOk, Logged;
    CountWithinBound(k.size);
    PieceBounds(k.size, k.pieceSize, |k.hashes|, i);
    assert Matches(k, st.data, i);
  }

  /** A peer-only run never fetches from origin and never abandons. */
  lemma PeerOnlyCommands(k: Setup, st: State, orphans: set<nat>, loose: set<Source>, j: nat)
    requires Good(k, st, orphans, loose) && k.peerOnly && j < |st.log| && st.log[j].Out?
    ensures !st.log[j].command.FetchOrigin? && !st.log[j].command.Abandon?
  {
    RunLog(k, st, orphans, loose);
    LogPrefix(TermsOf(k, st), st.log, j);
  }

  /** Every peer request of a run: some pieces of the object, at most four, and at
      most 512 KiB or one piece. */
  lemma RequestShape(k: Setup, st: State, orphans: set<nat>, loose: set<Source>, j: nat, p: nat, r: PieceRange)
    requires Good(k, st, orphans, loose) && j < |st.log| && st.log[j] == Out(Request(p, r))
    ensures r.start < r.end <= |k.hashes| && r.end - r.start <= MAX_PEER_REQUEST_PIECES
    ensures RangeBytes(k.size, r).Some?
    ensures var (from, to) := RangeBytes(k.size, r).value; to - from <= Max(MAX_PEER_REQUEST_BYTES, k.pieceSize)
  {
    RunLog(k, st, orphans, loose);
    LogPrefix(TermsOf(k, st), st.log, j);
    RequestFits(k, st, orphans, loose, r);
  }

  lemma RequestFits(k: Setup, st: State, orphans: set<nat>, loose: set<Source>, r: PieceRange)
    requires Good(k, st, orphans, loose)
    requires r.start < r.end <= |k.hashes| && r.end - r.start <= TermsOf(k, st).cap
    ensures r.end - r.start <= MAX_PEER_REQUEST_PIECES && RangeBytes(k.size, r).Some?
    ensures var (from, to) := RangeBytes(k.size, r).value; to - from <= Max(MAX_PEER_REQUEST_BYTES, k.pieceSize)
  {
    hide Inv, LanesOk, Logged, Kept;
    CountWithinBound(k.size);
    RequestBytes(k.size, r);
  }

  /** A peer has at most one request in flight, and none once it is retired, the
      floor has passed or the transfer is over. */
  lemma OneInFlight(k: Setup, st: State, orphans: set<nat>, loose: set<Source>, p: nat)
    requires Good(k, st, orphans, loose) && Peer(p) in st.lanes
    ensures |st.lanes[Peer(p)].inFlight| <= 1
    ensures st.lanes[Peer(p)].retired || st.finished || FloorPassed(st.log) ==> st.lanes[Peer(p)].inFlight == []
  {
    hide Good;
    GoodLanes(k, st, orphans, loose, Peer(p));
  }

  /** Whatever is in flight was commanded: some request or fetch asked the source
      for the piece. */
  lemma InFlightWasAsked(k: Setup, st: State, orphans: set<nat>, loose: set<Source>, s: Source, i: nat) returns (j: nat)
    requires Good(k, st, orphans, loose) && s in st.lanes && i in Flying(st.lanes[s].inFlight)
    ensures j < |st.log| && st.log[j].Out?
    ensures match s
            case Peer(p) => st.log[j].command.Request? && st.log[j].command.peer == p && InRange(st.log[j].command.range, i)
            case Origin => st.log[j].command.FetchOrigin? && InRange(st.log[j].command.range, i)
  {
    hide LanesOk, Kept, Logged, Links, Asks, Single, OriginAsks, Coverage, LogOk;
    assert HoldsOf(st.lanes)[s] == HoldOf(st.lanes[s]) && i in HoldOf(st.lanes[s]).sent;
    match s
    case Peer(p) => j := AskedAt(st.log, p, i);
    case Origin => j := FetchedAt(st.log, i);
  }

  /** No peer is asked more often than there are pieces. */
  lemma RequestCount(k: Setup, st: State, orphans: set<nat>, loose: set<Source>, p: nat)
    requires Good(k, st, orphans, loose)
    ensures Requests(st.log, p) <= |k.hashes| <= MAX_PIECES
  {
    RunLog(k, st, orphans, loose);
    RequestsBounded(TermsOf(k, st), st.log, p);
    hide Inv, LanesOk, Logged, Kept;
    CountWithinBound(k.size);
  }
}

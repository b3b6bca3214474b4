/** Sources that answer or leave: verifying what was sent, and what becomes of
    the pieces of a source that is retired. */
module Answers {
  import opened Wrappers
  import opened Pieces
  import opened Sorting
  import opened Estimates
  import opened Lanes
  import opened Books
  import opened Ownership
  import opened Dispatch
  import opened States
  import opened Supply
  import opened Assigning
  import opened Holders

  // ---- a source leaves ----

  ghost function Noted(note: Option<Command>): seq<Command> {
    if note.Some? then [note.value] else []
  }

  /** What the lane still held when the peer leaves: its queue, and its request
      unless that was answered; what the answer did not verify is lost. */
  ghost predicate Leaves(before: map<Source, Lane>, now: map<Source, Lane>, verified: seq<bool>, p: nat, lost: set<nat>) {
    && Peer(p) in before && Peer(p) in now && !before[Peer(p)].retired
    && var l, l' := before[Peer(p)], now[Peer(p)];
    && l'.queue == l.queue && l'.retired == l.retired && l'.estimate.source == l.estimate.source
    && (l'.inFlight == l.inFlight || l'.inFlight == [])
    && forall i :: i in Flying(l.inFlight) && i in Left(verified) && l'.inFlight != l.inFlight ==> i in lost
  }

  lemma LeavesLane(before: map<Source, Lane>, now: map<Source, Lane>, verified: seq<bool>, p: nat, lost: set<nat>)
    requires Leaves(before, now, verified, p, lost)
    ensures Peer(p) in now && !now[Peer(p)].retired
  {
  }

  lemma LeavesNow(lanes: map<Source, Lane>, verified: seq<bool>, p: nat)
    requires LivePeer(lanes, Peer(p))
    ensures Leaves(lanes, lanes, verified, p, {})
  {
  }

  lemma AnsweredNow(k: Setup, st: State, orphans: set<nat>, loose: set<Source>, p: nat)
    requires Good(k, st, orphans, loose) && !st.finished && Peer(p) in st.lanes
    ensures Answered(k, st, st, p)
  {
    hide Good;
    GoodFacts(k, st, orphans, loose);
  }

  /** The pieces a source has yet to deliver that no other source holds. */
  function Unfinished(lanes: map<Source, Lane>, verified: seq<bool>, s: Source): set<nat> {
    if s in lanes then set i | i in Work(lanes[s]) && i < |verified| && !verified[i] && !HeldElsewhere(lanes, s, i) else {}
  }

  lemma RetireFloor(log: seq<Entry>, p: nat, note: Option<Command>)
    ensures FloorPassed(log + [Gone(Peer(p))] + NoteEntry(note)) == FloorPassed(log)
  {
    FloorNext(log, Gone(Peer(p)));
    if note.Some? {
      FloorNext(log + [Gone(Peer(p))], Out(note.value));
    } else {
      assert log + [Gone(Peer(p))] + [] == log + [Gone(Peer(p))];
    }
  }

  lemma RetirePieces(k: Setup, before: State, now: State, orphans: set<nat>, loose: set<Source>, p: nat, lost: set<nat>, pieces: seq<nat>)
    requires Good(k, before, orphans, loose) && Answered(k, before, now, p) && Leaves(before.lanes, now.lanes, now.verified, p, lost)
    requires pieces == Listed(Unfinished(now.lanes, now.verified, Peer(p)), |now.verified|)
    ensures Frees(before, now, p, SetOf(pieces) + lost) && Ascending(pieces)
    ensures now.lanes[Peer(p)].estimate.source == Peer(p)
    ensures var lanes' := now.lanes[Peer(p) := RetiredLane(now.lanes[Peer(p)])];
            forall i :: i in pieces ==> i in Left(now.verified) && !HeldIn(lanes', i)
    ensures FloorPassed(before.log) ==> pieces == []
  {
    var s, l, l' := Peer(p), before.lanes[Peer(p)], now.lanes[Peer(p)];
    GoodLanes(k, before, orphans, loose, s);
    ListedMembers(Unfinished(now.lanes, now.verified, s), |now.verified|);
    forall i | i in Left(now.verified) && HeldIn(before.lanes, i) && !HeldElsewhere(before.lanes, s, i) ensures i in SetOf(pieces) + lost {
      LeavesPiece(before, now, p, lost, i);
    }
    forall i | i in pieces ensures i in Left(now.verified) && !HeldIn(now.lanes[s := RetiredLane(l')], i) {
      RetiredHoldsNothing(now.lanes, s, i);
    }
    if FloorPassed(before.log) {
      assert Work(l') == [];
      assert Unfinished(now.lanes, now.verified, s) == {};
      ListedNone(|now.verified|);
    }
  }

  lemma LeavesPiece(before: State, now: State, p: nat, lost: set<nat>, i: nat)
    requires Leaves(before.lanes, now.lanes, now.verified, p, lost) && now.lanes == before.lanes[Peer(p) := now.lanes[Peer(p)]]
    requires i in Left(now.verified) && HeldIn(before.lanes, i) && !HeldElsewhere(before.lanes, Peer(p), i)
    ensures i in lost || i in Unfinished(now.lanes, now.verified, Peer(p))
  {
    hide Holds;
    var s := Peer(p);
    var u :| u in before.lanes && Holds(before.lanes[u], i);
    assert u == s;
    HoldsIsWork(before.lanes[s], i);
    assert !HeldElsewhere(now.lanes, s, i) by {
      forall u | u in now.lanes && u != s ensures !Holds(now.lanes[u], i) {
        assert now.lanes[u] == before.lanes[u];
      }
    }
    if now.lanes[s].inFlight != before.lanes[s].inFlight && i in Flying(before.lanes[s].inFlight) {
      assert i in lost;
    } else {
      assert i in Work(now.lanes[s]);
    }
  }

  lemma RetiredHoldsNothing(lanes: map<Source, Lane>, s: Source, i: nat)
    requires s in lanes && !HeldElsewhere(lanes, s, i)
    ensures !HeldIn(lanes[s := RetiredLane(lanes[s])], i)
  {
    var lanes' := lanes[s := RetiredLane(lanes[s])];
    forall u | u in lanes' ensures !Holds(lanes'[u], i) {
      if u != s {
        assert u in lanes && !Holds(lanes[u], i);
      }
    }
  }

  ghost function Without(lanes: map<Source, Lane>, p: nat): map<Source, Lane> {
    if Peer(p) in lanes then lanes[Peer(p) := RetiredLane(lanes[Peer(p)])] else lanes
  }

  /** The pieces that are neither verified nor held by a live lane. */
  function Uncovered(pieces: seq<nat>, verified: seq<bool>, lanes: map<Source, Lane>): seq<nat> {
    if pieces == [] then []
    else
      var i := pieces[0];
      (if (i < |verified| && verified[i]) || HeldIn(lanes, i) then [] else [i]) + Uncovered(pieces[1..], verified, lanes)
  }

  lemma {:induction false} UncoveredSame(pieces: seq<nat>, verified: seq<bool>, lanes: map<Source, Lane>)
    requires forall i :: i in pieces ==> i in Left(verified) && !HeldIn(lanes, i)
    ensures Uncovered(pieces, verified, lanes) == pieces
  {
    hide HeldIn;
    if pieces != [] {
      assert pieces[0] in pieces;
      UncoveredSame(pieces[1..], verified, lanes);
    }
  }

  lemma RetiredProbing(k: Setup, lanes: map<Source, Lane>, p: nat, verified: seq<bool>, probePeers: set<Source>,
                       probeAvailable: set<Source>, badSeen: bool, lax: set<Source>)
    requires Peer(p) in lanes && Probing(k, lanes, probePeers, probeAvailable, badSeen)
    ensures Probing(k, Without(lanes, p), probePeers, probeAvailable, badSeen)
    ensures Keen(k, lanes, verified, probePeers, probeAvailable, badSeen, lax) ==>
              Keen(k, Without(lanes, p), verified, probePeers, probeAvailable, badSeen, lax)
  {
    assert Active(Without(lanes, p)) <= Active(lanes);
    SubsetSize(Active(Without(lanes, p)), Active(lanes));
  }

  lemma LeftAssignable(k: Setup, st: State, pieces: seq<nat>)
    requires !st.finished && st.started && Ascending(pieces) && (FloorPassed(st.log) ==> pieces == [])
    requires forall i :: i in pieces ==> i in Left(st.verified) && !HeldIn(st.lanes, i)
    ensures Assignable(k, st, SetOf(pieces), pieces)
  {
  }

  lemma RetiredEvolves(l: Lane, now: nat)
    ensures EvolvedAt(l, RetiredLane(l), now) && EvolvedAt(l, l, now)
  {
  }

  lemma WithoutEvolves(first: map<Source, Lane>, mid: map<Source, Lane>, lanes: map<Source, Lane>, p: nat, now: nat)
    requires Evolved(first, mid, now) && Supplied(Without(mid, p), lanes, now)
    ensures Evolved(first, lanes, now)
  {
    hide EvolvedAt;
    var gone := Without(mid, p);
    forall s | s in mid && s.Peer? ensures EvolvedAt(mid[s], gone[s], now) {
      RetiredEvolves(mid[s], now);
    }
    EvolvedTrans(first, mid, gone, now);
    EvolvedTrans(first, gone, lanes, now);
  }

  // ---- redundant requests ----

  predicate AllVerified(l: Lane, verified: seq<bool>) {
    forall i :: i in Flying(l.inFlight) ==> i < |verified| && verified[i]
  }

  /** The sources other than `winner` whose whole request is verified by now. */
  function Redundant(lanes: map<Source, Lane>, verified: seq<bool>, winner: Source): set<Source> {
    set s | s in lanes && s != winner && LivePeer(lanes, s) && lanes[s].inFlight != [] && AllVerified(lanes[s], verified)
  }

  lemma SameRedundant(before: map<Source, Lane>, lanes: map<Source, Lane>, verified: seq<bool>, winner: Source)
    requires winner in lanes && lanes == before[winner := lanes[winner]]
    ensures Redundant(lanes, verified, winner) == Redundant(before, verified, winner)
  {
  }

  lemma RedundantLive(lanes: map<Source, Lane>, verified: seq<bool>, winner: Source, order: seq<Source>)
    requires forall s :: s in order <==> s in Redundant(lanes, verified, winner)
    ensures forall j :: 0 <= j < |order| ==> LivePeer(lanes, order[j]) && order[j] != winner
  {
    forall j | 0 <= j < |order| ensures LivePeer(lanes, order[j]) && order[j] != winner {
      assert order[j] in order;
    }
  }

  /** The other sources on the list are still there. */
  lemma StillLive(mid: map<Source, Lane>, lanes: map<Source, Lane>, order: seq<Source>, i: nat, winner: Source, now: nat)
    requires i < |order| && order[i].Peer? && Supplied(Without(mid, order[i].id), lanes, now) && order[i] != winner
    requires winner in mid && !mid[winner].retired
    requires forall j :: i <= j < |order| ==> LivePeer(mid, order[j])
    requires forall h, j :: 0 <= h < j < |order| ==> SourceLess(order[h], order[j])
    ensures winner in lanes && !lanes[winner].retired && !LivePeer(lanes, order[i])
    ensures forall j :: i + 1 <= j < |order| ==> LivePeer(lanes, order[j])
  {
    var gone := Without(mid, order[i].id);
    SuppliedBusy(gone, lanes, now);
    hide Supplied;
    assert !LivePeer(gone, order[i]) && order[i] in gone;
    forall j | i + 1 <= j < |order| ensures LivePeer(lanes, order[j]) {
      assert SourceLess(order[i], order[j]);
      assert LivePeer(gone, order[j]);
    }
    if winner.Peer? {
      assert LivePeer(gone, winner);
    }
  }

  lemma RestOfOrder(order: seq<Source>, i: nat)
    requires i < |order| && forall h, j :: 0 <= h < j < |order| ==> SourceLess(order[h], order[j])
    ensures SetOf(order[i..]) - {order[i]} == SetOf(order[i + 1..])
  {
    var rest := order[i + 1..];
    assert order[i..] == [order[i]] + rest;
    forall j | 0 <= j < |rest| ensures rest[j] != order[i] {
      assert SourceLess(order[i], order[i + 1 + j]);
    }
  }

  lemma WinnerLives(lanes: map<Source, Lane>, p: nat, winner: Source)
    requires winner in lanes && !lanes[winner].retired && winner != Peer(p)
    ensures !NoneLive(Without(lanes, p))
  {
    assert winner in Without(lanes, p) && !Without(lanes, p)[winner].retired;
  }

  lemma LeftOne(k: Setup, lanes: map<Source, Lane>, verified: seq<bool>, probePeers: set<Source>, probeAvailable: set<Source>,
                badSeen: bool, lax: set<Source>, s: Source)
    requires Keen(k, lanes, verified, probePeers, probeAvailable, badSeen, lax) && !LivePeer(lanes, s)
    ensures Keen(k, lanes, verified, probePeers, probeAvailable, badSeen, lax - {s})
  {
  }

  // ---- a ban ----

  /** The unverified pieces that no live lane holds. */
  function Loose(verified: seq<bool>, lanes: map<Source, Lane>): set<nat> {
    set i: nat | i < |verified| && !verified[i] && !HeldIn(lanes, i)
  }

  lemma BanProbing(k: Setup, before: map<Source, Lane>, lanes: map<Source, Lane>, p: nat, probePeers: set<Source>,
                   probeAvailable: set<Source>)
    requires Peer(p) in lanes && lanes == before[Peer(p) := lanes[Peer(p)]] && lanes[Peer(p)].retired
    requires Probing(k, before, probePeers, probeAvailable, true)
    ensures Probing(k, lanes, probePeers, probeAvailable, true)
  {
    assert Active(lanes) <= Active(before);
    SubsetSize(Active(lanes), Active(before));
  }

  lemma BanAssigns(k: Setup, st: State, lost: set<nat>, pieces: seq<nat>, needed: seq<nat>)
    requires Good(k, st, {} + SetOf(pieces) + lost, {}) && st.started && !st.finished && !FloorPassed(st.log)
    requires forall i :: i in pieces ==> i in Left(st.verified) && !HeldIn(st.lanes, i)
    requires needed == Listed(SetOf(pieces) + Loose(st.verified, st.lanes), |st.verified|)
    ensures Assignable(k, st, SetOf(needed), needed) && Good(k, st, SetOf(needed), {})
  {
    hide Good, HeldIn;
    ListedMembers(SetOf(pieces) + Loose(st.verified, st.lanes), |st.verified|);
    assert forall i :: i in needed <==> i in Loose(st.verified, st.lanes);
    OrphansHeld(k, st, {} + SetOf(pieces) + lost, SetOf(needed), {});
  }

  /** `now` is `before` with an answer taken off the lane, and what was good in
      it verified. */
  ghost predicate Refused(k: Setup, before: State, now: State, s: Source, position: nat)
    requires s in before.lanes && position < |before.lanes[s].inFlight|
  {
    && now == before.(lanes := before.lanes[s := WithoutFlight(before.lanes[s], position)], verified := now.verified, data := now.data)
    && |now.verified| == |before.verified| && Kept(k, now.data, now.verified)
    && Left(now.verified) <= Left(before.verified)
    && Left(before.verified) - Left(now.verified) <= PieceSet(before.lanes[s].inFlight[position].range)
  }

  lemma RefusedLeaves(k: Setup, before: State, now: State, p: nat, position: nat, lost: set<nat>)
    requires Good(k, before, {}, {}) && Peer(p) in before.lanes && position < |before.lanes[Peer(p)].inFlight|
    requires Refused(k, before, now, Peer(p), position) && lost == set i | i in Flying(before.lanes[Peer(p)].inFlight)
    ensures Answered(k, before, now, p) && Leaves(before.lanes, now.lanes, now.verified, p, lost) && !FloorPassed(before.log)
  {
    hide Good, Kept, Left, HoldOf, PieceSet, NoDup, Work;
    GoodLanes(k, before, {}, {}, Peer(p));
    AnswerLane(TermsOf(k, before), Peer(p), before.lanes[Peer(p)], position);
  }

  lemma RefusedWorn(k: Setup, before: State, now: State, s: Source, position: nat)
    requires s in before.lanes && position < |before.lanes[s].inFlight| && Refused(k, before, now, s, position)
    ensures Worn(before, now)
  {
  }

  // ---- verified pieces ----

  /** The position of the first request for exactly this range. */
  method FlightOf(fs: seq<Flight>, range: PieceRange) returns (position: nat)
    ensures position <= |fs| && (position < |fs| ==> fs[position].range == range)
    ensures forall j :: 0 <= j < position ==> fs[j].range != range
  {
    position := 0;
    while position < |fs| && fs[position].range != range
      invariant position <= |fs| && forall j :: 0 <= j < position ==> fs[j].range != range
    {
      position := position + 1;
    }
  }

  /** The lane of `s` has a request at `position`, and all requests are in range. */
  ghost predicate Answering(lanes: map<Source, Lane>, s: Source, position: nat, n: nat) {
    && s in lanes && position < |lanes[s].inFlight| && !lanes[s].retired && (s.Peer? ==> |lanes[s].inFlight| == 1)
    && lanes[s].estimate.source == s
    && forall u :: u in lanes ==> FlightsWithin(lanes[u].inFlight, n)
  }

  /** What the invariant says about the lane that answers, and all the others. */
  lemma PeerOnlyOrigin(k: Setup, st: State)
    requires Good(k, st, {}, {}) && k.peerOnly
    ensures Origin !in st.lanes
  {
    hide LanesOk, Kept, Logged, Links, Asks, Single, OriginAsks, Coverage, HoldOf;
    assert Origin !in HoldsOf(st.lanes);
  }

  lemma GoodFlights(k: Setup, st: State, s: Source, position: nat)
    requires Good(k, st, {}, {}) && !st.finished && s in st.lanes && position < |st.lanes[s].inFlight|
    ensures Fixed(k, st.verified) && Kept(k, st.data, st.verified) && st.started
    ensures Answering(st.lanes, s, position, |st.verified|)
    ensures var r := st.lanes[s].inFlight[position].range; r.start < r.end <= |k.hashes|
    ensures s == Origin ==> !k.peerOnly
  {
    if k.peerOnly {
      PeerOnlyOrigin(k, st);
    }
    hide Inv, Logged, NoDup, Work, Kept;
    GoodFacts(k, st, {}, {});
    assert LaneOk(TermsOf(k, st), s, st.lanes[s]);
  }

  lemma RangePositive(k: Setup, verified: seq<bool>, r: PieceRange)
    requires Fixed(k, verified) && r.start < r.end <= |k.hashes|
    ensures Min(r.end * k.pieceSize, k.size) - r.start * k.pieceSize > 0
  {
    CountWithinBound(k.size);
    PieceBounds(k.size, k.pieceSize, |k.hashes|, r.start);
    MulMono(r.start + 1, r.end, k.pieceSize);
  }

  ghost predicate Grown(verified: seq<bool>, verified': seq<bool>) {
    |verified'| == |verified| && forall i :: 0 <= i < |verified| && verified[i] ==> verified'[i]
  }

  /** A piece of the range is still not verified. */
  ghost predicate Spoilt(range: PieceRange, verified: seq<bool>) {
    exists i: nat :: InRange(range, i) && i in Left(verified)
  }

  lemma VerifiesLeft(k: Setup, range: PieceRange, bytes: seq<byte>, before: seq<bool>, verified: seq<bool>)
    requires Verifies(k, range, bytes, range.end, before, verified)
    ensures Grown(before, verified) && Left(verified) <= Left(before) && Left(before) - Left(verified) <= PieceSet(range)
    ensures (forall i: nat :: InRange(range, i) ==> i !in Left(verified)) ==> Left(verified) == Left(before) - PieceSet(range)
  {
    hide GoodPiece;
    forall i: nat ensures i in PieceSet(range) <==> InRange(range, i) {
      SpanMember(range, i);
    }
  }

  lemma VerifiedUpTo(k: Setup, range: PieceRange, index: nat, before: seq<bool>, last: seq<bool>, verified: seq<bool>)
    requires |last| == |before| == |verified| && index < |before| && range.start <= index < range.end
    requires last == verified || verified == last[index := true]
    ensures (exists i: nat :: InRange(range, i) && i < index + 1 && i in Left(verified)) <==>
              (exists i: nat :: InRange(range, i) && i < index && i in Left(last)) || !verified[index]
  {
    if i: nat :| InRange(range, i) && i < index && i in Left(last) {
      assert InRange(range, i) && i < index + 1 && i in Left(verified);
    }
    if !verified[index] {
      assert InRange(range, index) && index in Left(verified);
    }
    if i: nat :| InRange(range, i) && i < index + 1 && i in Left(verified) {
      if i < index {
        assert i in Left(last);
      }
    }
  }

  lemma AllLeft(verified: seq<bool>)
    ensures Left(verified) == {} <==> forall i :: 0 <= i < |verified| ==> verified[i]
  {
    if forall i :: 0 <= i < |verified| ==> verified[i] {
    } else {
      var i :| 0 <= i < |verified| && !verified[i];
      assert i in Left(verified);
    }
  }

  lemma AnswerProbing(k: Setup, before: map<Source, Lane>, lanes: map<Source, Lane>, s: Source, position: nat, verified: seq<bool>,
                      verified': seq<bool>, probePeers: set<Source>, available: set<Source>, gained: bool, badSeen: bool)
    requires Answering(before, s, position, |verified'|) && s in lanes
    requires lanes == before[s := WithoutFlight(before[s], position).(estimate := lanes[s].estimate)]
    requires s.Peer? ==> Positive(lanes[s].estimate.rate).Some?
    requires Left(verified') == Left(verified) - PieceSet(before[s].inFlight[position].range) && (gained <==> verified' != verified)
    requires Probing(k, before, probePeers, available, badSeen) && Keen(k, before, verified, probePeers, available, badSeen, {})
    ensures var peers, offered := if gained then probePeers - {s} else probePeers, if gained then available - {s} else available;
            Probing(k, lanes, peers, offered, badSeen) && Keen(k, lanes, verified', peers, offered, badSeen, Redundant(lanes, verified', s))
  {
    hide Useful, PieceSet, Left;
    var peers, offered := if gained then probePeers - {s} else probePeers, if gained then available - {s} else available;
    assert Active(lanes) <= Active(before);
    SubsetSize(Active(lanes), Active(before));
    if k.peerOnly && !badSeen {
      if !gained && s.Peer? {
        NothingUseful(before, s, position, verified);
      }
      forall u | u in peers && u !in offered && LivePeer(lanes, u)
        ensures Busy(lanes, u) && (u in Redundant(lanes, verified', s) || Useful(lanes, verified', u))
      {
        if u != s {
          assert Busy(before, u);
          UsefulOrVerified(lanes, verified', u);
        }
      }
    }
  }

  lemma NothingUseful(lanes: map<Source, Lane>, s: Source, position: nat, verified: seq<bool>)
    requires s in lanes && |lanes[s].inFlight| == 1 && position == 0
    requires Left(verified) == Left(verified) - PieceSet(lanes[s].inFlight[position].range)
    ensures !Useful(lanes, verified, s)
  {
    var f := lanes[s].inFlight[0];
    assert lanes[s].inFlight == [] + [f];
    FlyingSnoc([], f);
    assert Flying(lanes[s].inFlight) == Span(f.range);
    assert forall i :: i in Span(f.range) ==> i in PieceSet(f.range);
  }

  lemma UsefulOrVerified(lanes: map<Source, Lane>, verified: seq<bool>, s: Source)
    requires s in lanes && FlightsWithin(lanes[s].inFlight, |verified|)
    ensures AllVerified(lanes[s], verified) || Useful(lanes, verified, s)
  {
    if !AllVerified(lanes[s], verified) {
      var i :| i in Flying(lanes[s].inFlight) && !(i < |verified| && verified[i]);
      FlyingMember(lanes[s].inFlight, i);
      assert i in Left(verified);
    }
  }

  /** The bytes of the verified pieces among the first `n`. */
  ghost function BytesOf(k: Setup, verified: seq<bool>, n: nat): nat
    requires n <= |verified|
  {
    if n == 0 then 0
    else BytesOf(k, verified, n - 1) + if verified[n - 1] then PieceBytes(k.size, k.pieceSize, n - 1) else 0
  }

  /** Verifying more never makes the count smaller. */
  lemma {:induction false} BytesGrow(k: Setup, verified: seq<bool>, verified': seq<bool>, n: nat)
    requires Grown(verified, verified') && n <= |verified|
    ensures BytesOf(k, verified, n) <= BytesOf(k, verified', n)
  {
    if n > 0 {
      BytesGrow(k, verified, verified', n - 1);
    }
  }

  lemma {:induction false} BytesAtMostPrefix(k: Setup, verified: seq<bool>, n: nat)
    requires Fixed(k, verified) && n <= |verified|
    ensures BytesOf(k, verified, n) <= SumBytes(k.size, k.pieceSize, n)
    ensures BytesOf(k, verified, n) == SumBytes(k.size, k.pieceSize, n) <==> forall i :: 0 <= i < n ==> verified[i]
  {
    if n > 0 {
      BytesAtMostPrefix(k, verified, n - 1);
      CountWithinBound(k.size);
      PieceBytesBounds(k.size, k.pieceSize, |verified|, n - 1);
    }
  }

  /** The count is the object's size exactly when every piece is verified. */
  lemma AllBytes(k: Setup, verified: seq<bool>)
    requires Fixed(k, verified)
    ensures BytesOf(k, verified, |verified|) <= k.size
    ensures BytesOf(k, verified, |verified|) == k.size <==> Left(verified) == {}
  {
    BytesAtMostPrefix(k, verified, |verified|);
    CountWithinBound(k.size);
    SumBytesPrefix(k.size, k.pieceSize, |verified|);
    AllLeft(verified);
  }
}

/** What peer-only mode keeps: bounded holders, probes that are at work, pending
    pieces, and a request always in flight. */
module Holders {
  import opened Pieces
  import opened Sorting
  import opened Estimates
  import opened Planner
  import opened Lanes
  import opened Books
  import opened Ownership
  import opened Dispatch
  import opened States
  import opened Supply
  import opened Assigning

  // ---- probes ----

  /** What peer-only mode keeps: a bounded number of holders at work, every
      unmeasured holder a probe, and every used probe at work, unless a peer
      has sent a bad piece. */
  ghost predicate Probing(k: Setup, lanes: map<Source, Lane>, probePeers: set<Source>, probeAvailable: set<Source>, badSeen: bool) {
    k.peerOnly ==>
      && |Active(lanes)| <= Max(k.maxHolders, 1)
      && probeAvailable <= probePeers
      && (forall s :: LivePeer(lanes, s) && Positive(lanes[s].estimate.rate).None? ==> s in probePeers)
      && (badSeen || forall s :: s in probePeers && s !in probeAvailable && LivePeer(lanes, s) ==> Busy(lanes, s))
  }

  /** Unless a peer has sent a bad piece, every probe at work asks for a piece
      that is still needed; `lax` are about to leave. */
  ghost predicate Keen(k: Setup, lanes: map<Source, Lane>, verified: seq<bool>, probePeers: set<Source>,
                       probeAvailable: set<Source>, badSeen: bool, lax: set<Source>) {
    k.peerOnly && !badSeen ==>
      forall s :: s in probePeers && s !in probeAvailable && s !in lax && LivePeer(lanes, s) ==> Useful(lanes, verified, s)
  }

  /** The source's request asks for a piece that is still needed. */
  ghost predicate Useful(lanes: map<Source, Lane>, verified: seq<bool>, s: Source) {
    s in lanes && exists i :: i in Left(verified) && i in Flying(lanes[s].inFlight)
  }

  lemma UsefulBusy(lanes: map<Source, Lane>, verified: seq<bool>, s: Source)
    requires Useful(lanes, verified, s)
    ensures Busy(lanes, s)
  {
  }

  lemma UsefulStays(a: map<Source, Lane>, b: map<Source, Lane>, verified: seq<bool>, s: Source)
    requires Useful(a, verified, s) && s in b && a[s].inFlight <= b[s].inFlight
    ensures Useful(b, verified, s)
  {
    var n := |a[s].inFlight|;
    assert b[s].inFlight == a[s].inFlight + b[s].inFlight[n..];
    FlyingConcat(a[s].inFlight, b[s].inFlight[n..]);
  }

  lemma UsefulIsKnown(lanes: map<Source, Lane>, verified: seq<bool>, s: Source)
    requires Useful(lanes, verified, s)
    ensures s in lanes
  {
  }

  lemma SuppliedUseful(a: map<Source, Lane>, b: map<Source, Lane>, verified: seq<bool>, s: Source, now: nat)
    requires Supplied(a, b, now) && Useful(a, verified, s)
    ensures Useful(b, verified, s)
  {
    assert SuppliedAt(a[s], b[s]);
    UsefulStays(a, b, verified, s);
  }

  /** Every probe that is no longer available has a useful request out. */
  ghost predicate ProbesOut(offered: set<Source>, available: set<Source>, lanes: map<Source, Lane>, verified: seq<bool>) {
    available <= offered && forall s :: s in offered && s !in available ==> Useful(lanes, verified, s)
  }

  lemma OutNone(available: set<Source>, lanes: map<Source, Lane>, verified: seq<bool>)
    ensures ProbesOut(available, available, lanes, verified)
  {
  }

  lemma OutFewer(offered: set<Source>, available: set<Source>, lanes: map<Source, Lane>, verified: seq<bool>)
    requires ProbesOut(offered, available, lanes, verified)
    ensures available <= offered
  {
  }

  lemma OutNext(offered: set<Source>, available: set<Source>, mid: map<Source, Lane>, s: Source, lanes: map<Source, Lane>,
                verified: seq<bool>)
    requires ProbesOut(offered, available, mid, verified) && s in mid
    requires Useful(lanes, verified, s) && lanes == mid[s := lanes[s]] && mid[s].inFlight <= lanes[s].inFlight
    ensures ProbesOut(offered, available - {s}, lanes, verified) && InFlight(lanes)
  {
    hide Useful, Busy;
    UsefulBusy(lanes, verified, s);
    forall u | u in offered && u !in available - {s} ensures Useful(lanes, verified, u) {
      if u != s {
        assert Useful(mid, verified, u);
        UsefulIsKnown(mid, verified, u);
        UsefulStays(mid, lanes, verified, u);
      }
    }
    assert Busy(lanes, s);
  }

  lemma ProbingStays(k: Setup, first: map<Source, Lane>, lanes: map<Source, Lane>, verified: seq<bool>, probePeers: set<Source>,
                     available: set<Source>, available': set<Source>, badSeen: bool, lax: set<Source>, now: nat)
    requires Probing(k, first, probePeers, available, badSeen) && Supplied(first, lanes, now)
    requires |Active(lanes)| <= Max(k.maxHolders, 1) && ProbesOut(available, available', lanes, verified)
    ensures Probing(k, lanes, probePeers, available', badSeen)
    ensures Keen(k, first, verified, probePeers, available, badSeen, lax) ==>
              Keen(k, lanes, verified, probePeers, available', badSeen, lax)
  {
    SuppliedBusy(first, lanes, now);
    forall s | s in available && s !in available' ensures Busy(lanes, s) {
      UsefulBusy(lanes, verified, s);
    }
    hide Supplied, Active, Useful;
    if Keen(k, first, verified, probePeers, available, badSeen, lax) && k.peerOnly && !badSeen {
      forall s | s in probePeers && s !in available' && s !in lax && LivePeer(lanes, s) ensures Useful(lanes, verified, s) {
        if s !in available {
          SuppliedUseful(first, lanes, verified, s, now);
        }
      }
    }
  }

  lemma MixedProbing(k: Setup, lanes: map<Source, Lane>, verified: seq<bool>, probePeers: set<Source>, probeAvailable: set<Source>,
                     badSeen: bool, lax: set<Source>)
    requires !k.peerOnly
    ensures Probing(k, lanes, probePeers, probeAvailable, badSeen) && Keen(k, lanes, verified, probePeers, probeAvailable, badSeen, lax)
  {
  }

  lemma WeakerProbing(k: Setup, lanes: map<Source, Lane>, probePeers: set<Source>, probeAvailable: set<Source>, badSeen: bool)
    requires Probing(k, lanes, probePeers, probeAvailable, badSeen)
    ensures Probing(k, lanes, probePeers, probeAvailable, true)
  {
  }

  /** One unverified piece given to an idle lane is asked at once. */
  lemma UsefulProbe(lanes: map<Source, Lane>, verified: seq<bool>, s: Source, l: Lane, index: nat, finishAt: real, now: nat)
    requires Unoccupied(lanes, s) && index in Left(verified)
    requires Given(s, LaneOf(lanes, s, now), l, [PieceRange(index, index + 1)], finishAt, now)
    requires l.inFlight != [] && l.inFlight[0].range.start < l.inFlight[0].range.end
    ensures Useful(lanes[s := l], verified, s)
  {
    OneRange([index]);
    assert Work(l) == [index];
    var i := l.inFlight[0].range.start;
    FlyingMember(l.inFlight, i);
    assert i in Work(l);
  }

  // ---- pending pieces ----

  /** Every pending piece is unverified and held by nobody. */
  ghost predicate Pending(k: Setup, st: State) {
    st.pending <= Left(st.verified) && Free(TermsOf(k, st), HoldsOf(st.lanes), st.pending)
  }

  lemma PendingNext(k: Setup, st: State)
    requires st.pending == {} || (st.pending <= Left(st.verified) && Free(TermsOf(k, st), HoldsOf(st.lanes), st.pending))
    ensures Pending(k, st)
  {
  }

  lemma PendingLeft(k: Setup, st: State)
    requires Pending(k, st)
    ensures st.pending <= Left(st.verified)
  {
  }

  /** The pending pieces that nobody verified or took over. */
  function StillPending(pending: set<nat>, verified: seq<bool>, lanes: map<Source, Lane>): set<nat> {
    set i | i in pending && !(i < |verified| && verified[i]) && !HeldIn(lanes, i)
  }

  lemma StillPendingGood(k: Setup, st: State, loose: set<Source>)
    requires Good(k, st, {}, loose) && k.peerOnly && st.started && !st.finished
    ensures var st' := st.(pending := StillPending(st.pending, st.verified, st.lanes));
            Good(k, st', {}, loose) && Pending(k, st')
  {
    hide Good, HeldIn, Free;
    var pending := StillPending(st.pending, st.verified, st.lanes);
    GoodFacts(k, st, {}, loose);
    PendingGood(k, st, {}, loose, pending, {});
    PendingFree(k, st.(pending := pending), loose);
  }

  lemma PendingFree(k: Setup, st: State, loose: set<Source>)
    requires Good(k, st, {}, loose) && forall i :: i in st.pending ==> i in Left(st.verified) && !HeldIn(st.lanes, i)
    ensures Pending(k, st)
  {
    hide Inv, Kept, Logged, HeldIn, FreeAt, LaneOk;
    forall i | i in st.pending ensures FreeAt(TermsOf(k, st), HoldsOf(st.lanes), i) {
      HeldInIsHeldBy(TermsOf(k, st), st.lanes, loose, i);
      UnheldIsFree(TermsOf(k, st), HoldsOf(st.lanes), i);
    }
  }

  /** The pending pieces in order. */
  lemma PendingList(k: Setup, st: State, needed: seq<nat>)
    requires Pending(k, st) && |st.verified| == |k.hashes| && needed == Listed(st.pending, |st.verified|)
    ensures SetOf(needed) == st.pending && Below(needed, |k.hashes|) && NoDup(needed)
    ensures st.pending != {} ==> needed != []
    ensures SetOf(needed) <= Left(st.verified) && Free(TermsOf(k, st), HoldsOf(st.lanes), SetOf(needed))
  {
    hide Free;
    ListedMembers(st.pending, |st.verified|);
    forall j | 0 <= j < |needed| ensures needed[j] < |k.hashes| {
      assert needed[j] in needed;
    }
    assert forall i :: i in st.pending ==> i < |st.verified|;
  }

  lemma PendMore(k: Setup, st: State, orphans: set<nat>, loose: set<Source>, needed: seq<nat>, more: set<nat>)
    requires Good(k, st, orphans, loose) && Assignable(k, st, orphans, needed) && k.peerOnly
    requires more == set i | i in needed && i < |st.verified| && !st.verified[i] && !HeldIn(st.lanes, i)
    ensures Good(k, st.(pending := st.pending + more), {}, loose)
  {
    hide Good, HeldIn;
    GoodFacts(k, st, orphans, loose);
    PendingGood(k, st, orphans, loose, st.pending + more, {});
  }

  method LeastPiece(pieces: set<nat>) returns (index: nat)
    requires pieces != {}
    ensures index in pieces && forall i :: i in pieces ==> index <= i
  {
    index :| index in pieces;
    var rest := pieces - {index};
    while rest != {}
      invariant index in pieces && rest <= pieces && forall i :: i in pieces && i !in rest ==> index <= i
      decreases rest
    {
      var i :| i in rest;
      rest := rest - {i};
      index := if i < index then i else index;
    }
  }

  // ---- refilling ----

  predicate NoneLive(lanes: map<Source, Lane>) {
    forall s :: s in lanes ==> lanes[s].retired
  }

  lemma IdleFits(k: Setup, st: State, input: PlanInput, assignments: seq<Assignment>, probePeers: set<Source>)
    requires Sourced(input, assignments, |k.hashes|) && input.origin.None? && k.peerOnly && st.started && !st.finished
    requires SetOf(PiecesOf(assignments)) <= Left(st.verified) && !FloorPassed(st.log) && Origin !in st.lanes
    requires forall j :: 0 <= j < |input.peers| ==> Unoccupied(st.lanes, input.peers[j].source)
    ensures Dispatchable(k, st, assignments)
  {
    forall j | 0 <= j < |assignments| ensures AssignableAt(k, st, assignments[j]) {
      assert KnownTo(input, assignments[j].source);
    }
  }

  function Available(lanes: map<Source, Lane>, probeAvailable: set<Source>): set<Source> {
    set s | s in lanes && Unoccupied(lanes, s) && s in probeAvailable
  }

  lemma AvailableReady(lanes: map<Source, Lane>, probeAvailable: set<Source>, ready: seq<Source>)
    requires forall s :: s in ready <==> s in Available(lanes, probeAvailable)
    ensures forall j :: 0 <= j < |ready| ==> Unoccupied(lanes, ready[j]) && ready[j] in probeAvailable
    ensures Available(lanes, probeAvailable) != {} ==> ready != []
  {
    forall j | 0 <= j < |ready| ensures Unoccupied(lanes, ready[j]) && ready[j] in probeAvailable {
      assert ready[j] in ready;
    }
    if Available(lanes, probeAvailable) != {} {
      var s :| s in Available(lanes, probeAvailable);
      assert s in ready;
    }
  }

  lemma UnoccupiedNext(lanes: map<Source, Lane>, ready: seq<Source>, i: nat, l: Lane)
    requires i < |ready| && forall j :: i <= j < |ready| ==> Unoccupied(lanes, ready[j])
    requires forall h, j :: 0 <= h < j < |ready| ==> SourceLess(ready[h], ready[j])
    ensures forall j :: i + 1 <= j < |ready| ==> Unoccupied(lanes[ready[i] := l], ready[j])
  {
    forall j | i + 1 <= j < |ready| ensures Unoccupied(lanes[ready[i] := l], ready[j]) {
      assert SourceLess(ready[i], ready[j]);
    }
  }

  lemma GivenFlight(k: Setup, st: State, loose: set<Source>, s: Source, l: Lane, ranges: seq<PieceRange>, finishAt: real, now: nat)
    requires Good(k, st, {}, loose) && s in st.lanes && Given(s, l, st.lanes[s], ranges, finishAt, now) && ranges != []
    ensures l.inFlight <= st.lanes[s].inFlight && st.lanes[s].inFlight != []
    ensures st.lanes[s].inFlight[0].range.start < st.lanes[s].inFlight[0].range.end
  {
    hide Good;
    GoodLanes(k, st, {}, loose, s);
  }

  lemma ProbeTakes(k: Setup, st: State, loose: set<Source>, s: Source, index: nat)
    requires Good(k, st, {}, loose) && k.peerOnly && st.started && !st.finished
    requires Pending(k, st) && index in st.pending && Unoccupied(st.lanes, s)
    ensures var range := PieceRange(index, index + 1);
            SetOf(Flat([range])) == {index} && MayTake(k, st, s, [range]) &&
            Free(TermsOf(k, st), HoldsOf(st.lanes), st.pending - {index})
  {
    hide Good, Free;
    GoodFacts(k, st, {}, loose);
    OneRange([index]);
    assert SetOf([index]) == {index};
    FreeLess(TermsOf(k, st), HoldsOf(st.lanes), st.pending, {index});
    FreeIsFreeOf(TermsOf(k, st), HoldsOf(st.lanes), s, {index});
    FreeLess(TermsOf(k, st), HoldsOf(st.lanes), st.pending, st.pending - {index});
  }

  lemma HeldIsWork(l: Lane, i: nat)
    requires Holds(l, i)
    ensures !l.retired && (l.inFlight != [] || l.queue != [])
  {
  }

  lemma StillInFlight(k: Setup, st: State, loose: set<Source>)
    requires Good(k, st, {}, loose) && k.peerOnly && st.started && !st.finished
    requires |Active(st.lanes)| >= Max(k.maxHolders, 1) || st.pending == {}
    ensures loose == {} && Left(st.verified) != {} ==> InFlight(st.lanes)
  {
    hide Good, LaneOk, Holds;
    if loose == {} && Left(st.verified) != {} {
      if st.pending == {} {
        var i :| i in Left(st.verified);
        GoodCovers(k, st, loose, i);
        var s :| s in st.lanes && Holds(st.lanes[s], i);
        GoodLanes(k, st, {}, loose, s);
        HeldIsWork(st.lanes[s], i);
        assert Busy(st.lanes, s);
      } else {
        assert Active(st.lanes) != {};
        var s :| s in Active(st.lanes);
        GoodLanes(k, st, {}, loose, s);
        assert Busy(st.lanes, s);
      }
    }
  }

  /** Every live holder is a probe that was used: nobody can be asked. */
  ghost predicate Stuck(lanes: map<Source, Lane>, probePeers: set<Source>, available: set<Source>) {
    !NoneLive(lanes) && forall s :: LivePeer(lanes, s) ==> s in probePeers && s !in available
  }

  /** Until a peer has sent a bad piece, a used probe is at work. */
  lemma StuckIsBusy(k: Setup, lanes: map<Source, Lane>, probePeers: set<Source>, available: set<Source>)
    requires k.peerOnly && Probing(k, lanes, probePeers, available, false) && Stuck(lanes, probePeers, available)
    requires Origin !in lanes
    ensures InFlight(lanes)
  {
    var s :| s in lanes && !lanes[s].retired;
    assert LivePeer(lanes, s) && Busy(lanes, s);
  }

  lemma SuppliedStuck(a: map<Source, Lane>, b: map<Source, Lane>, probePeers: set<Source>, available: set<Source>, now: nat)
    requires Supplied(a, b, now)
    ensures InFlight(a) || Stuck(a, probePeers, available) ==> InFlight(b) || Stuck(b, probePeers, available)
  {
    hide Stepped;
    SuppliedBusy(a, b, now);
    if InFlight(a) {
      var s :| Busy(a, s);
      assert Busy(b, s);
    } else if Stuck(a, probePeers, available) {
      forall s | LivePeer(b, s) ensures s in probePeers && s !in available {
        assert SuppliedAt(a[s], b[s]) && LivePeer(a, s);
      }
      var s :| s in a && !a[s].retired;
      assert SuppliedAt(a[s], b[s]) && !b[s].retired;
    }
  }

  lemma TouchStuck(lanes: map<Source, Lane>, s: Source, l: Lane, probePeers: set<Source>, available: set<Source>)
    requires s in lanes && l.retired == lanes[s].retired && l.inFlight == lanes[s].inFlight
    requires InFlight(lanes) || Stuck(lanes, probePeers, available)
    ensures InFlight(lanes[s := l]) || Stuck(lanes[s := l], probePeers, available)
  {
    var after := lanes[s := l];
    if InFlight(lanes) {
      var u :| Busy(lanes, u);
      assert Busy(after, u);
    } else {
      forall u | LivePeer(after, u) ensures u in probePeers && u !in available {
        assert LivePeer(lanes, u);
      }
      var u :| u in lanes && !lanes[u].retired;
      assert !after[u].retired;
    }
  }

  lemma RefillMoves(k: Setup, st: State, mid: map<Source, Lane>, lanes: map<Source, Lane>, loose: set<Source>,
                    probePeers: set<Source>, available: set<Source>, available': set<Source>, badSeen: bool, now: nat)
    requires Good(k, st, {}, loose) && k.peerOnly && !NoneLive(st.lanes) && Probing(k, st.lanes, probePeers, available, badSeen)
    requires if Measured(st.lanes, probePeers) == {} then mid == st.lanes else InFlight(lanes)
    requires Supplied(mid, lanes, now) && available' <= available
    requires mid == st.lanes && Available(mid, available) != {} ==> InFlight(lanes)
    ensures loose == {} ==> InFlight(lanes) || Stuck(lanes, probePeers, available')
  {
    hide Good, Active, LaneOk, Stepped;
    SuppliedBusy(mid, lanes, now);
    if loose == {} && !InFlight(lanes) {
      forall s | LivePeer(lanes, s) ensures s in probePeers && s !in available {
        assert SuppliedAt(mid[s], lanes[s]) && LivePeer(mid, s);
        GoodLanes(k, st, {}, loose, s);
        assert !Busy(mid, s) && Unoccupied(mid, s);
        assert s !in Measured(st.lanes, probePeers) && s !in Available(mid, available);
      }
      var u :| u in st.lanes && !st.lanes[u].retired;
      assert SuppliedAt(mid[u], lanes[u]) && !lanes[u].retired;
    }
  }

  // ---- how each step keeps the probes ----

  function UnmeasuredOf(sources: seq<Estimate>): set<Source> {
    set e | e in sources && Positive(e.rate).None? :: e.source
  }

  /** The peers that start as probes by the shell's choice. */
  function ProbesAmong(peers: seq<Estimate>, probes: seq<nat>): set<Source> {
    set e, p | e in peers && p in probes && e.source == Peer(p) :: e.source
  }

  /** One of the first `n` estimates is for source `s`. */
  ghost predicate Mentioned(sources: seq<Estimate>, n: nat, s: Source)
    requires n <= |sources|
  {
    exists j: nat :: j < n && sources[j].source == s
  }

  /** The live lanes are those of the sources, each with its first estimate. */
  ghost predicate LanesFor(lanes: map<Source, Lane>, sources: seq<Estimate>, peerOnly: bool) {
    && (forall p :: Peer(p) in lanes <==> Mentioned(sources, |sources|, Peer(p)))
    && (!peerOnly ==> (Origin in lanes <==> Mentioned(sources, |sources|, Origin)))
    && forall s :: s in lanes && (s.Peer? || !peerOnly) ==> FirstEstimate(sources, s, lanes[s].estimate) && !lanes[s].retired
  }

  lemma NewLanesFor(lanes: map<Source, Lane>, sources: seq<Estimate>, peerOnly: bool, now: nat)
    requires AllNew(lanes, now) && forall s :: s in lanes ==> FirstEstimate(sources, s, lanes[s].estimate)
    requires forall s :: s in lanes <==> (s.Peer? || !peerOnly) && Mentioned(sources, |sources|, s)
    ensures LanesFor(lanes, sources, peerOnly)
  {
  }

  lemma SuppliedFor(first: map<Source, Lane>, lanes: map<Source, Lane>, sources: seq<Estimate>, peerOnly: bool, now: nat)
    requires LanesFor(first, sources, peerOnly) && Supplied(first, lanes, now) && (peerOnly || Mentioned(sources, |sources|, Origin))
    ensures LanesFor(lanes, sources, peerOnly)
  {
    hide Mentioned, FirstEstimate, Stepped;
    assert forall s :: s in lanes && (s.Peer? || !peerOnly) ==> s in first && SuppliedAt(first[s], lanes[s]);
  }

  lemma MentionedNext(sources: seq<Estimate>, n: nat)
    requires n < |sources|
    ensures forall s :: Mentioned(sources, n + 1, s) <==> s == sources[n].source || Mentioned(sources, n, s)
  {
    forall s ensures Mentioned(sources, n + 1, s) <==> s == sources[n].source || Mentioned(sources, n, s) {
      if Mentioned(sources, n, s) {
        var j: nat :| j < n && sources[j].source == s;
        assert j < n + 1 && sources[j].source == s;
      }
      if Mentioned(sources, n + 1, s) && s != sources[n].source {
        var j: nat :| j < n + 1 && sources[j].source == s;
        assert j < n && sources[j].source == s;
      }
      assert n < n + 1 && (sources[n].source == s ==> Mentioned(sources, n + 1, s));
    }
  }

  /** `e` is the first estimate given for source `s`. */
  ghost predicate FirstEstimate(sources: seq<Estimate>, s: Source, e: Estimate) {
    exists j: nat :: j < |sources| && sources[j] == e && e.source == s && !Mentioned(sources, j, s)
  }

  lemma FirstMention(sources: seq<Estimate>, n: nat)
    requires n < |sources| && !Mentioned(sources, n, sources[n].source)
    ensures FirstEstimate(sources, sources[n].source, sources[n])
  {
  }

  lemma StartProbing(k: Setup, lanes: map<Source, Lane>, sources: seq<Estimate>, verified: seq<bool>, probePeers: set<Source>,
                     badSeen: bool, now: nat)
    requires AllNew(lanes, now) && forall s :: s in lanes ==> FirstEstimate(sources, s, lanes[s].estimate)
    requires k.peerOnly ==> UnmeasuredOf(sources) <= probePeers
    ensures Probing(k, lanes, probePeers, probePeers, badSeen) && Keen(k, lanes, verified, probePeers, probePeers, badSeen, {})
  {
    assert Active(lanes) == {};
    forall s | LivePeer(lanes, s) && Positive(lanes[s].estimate.rate).None? && k.peerOnly ensures s in probePeers {
      assert FirstEstimate(sources, s, lanes[s].estimate);
      assert lanes[s].estimate in sources;
      assert lanes[s].estimate.source in UnmeasuredOf(sources);
    }
  }

  lemma TouchProbing(k: Setup, lanes: map<Source, Lane>, s: Source, l: Lane, verified: seq<bool>, probePeers: set<Source>,
                     probeAvailable: set<Source>, badSeen: bool)
    requires s in lanes && l == lanes[s].(firstByteAt := l.firstByteAt, flow := l.flow)
    ensures Probing(k, lanes, probePeers, probeAvailable, badSeen) ==> Probing(k, lanes[s := l], probePeers, probeAvailable, badSeen)
    ensures Keen(k, lanes, verified, probePeers, probeAvailable, badSeen, {}) ==>
              Keen(k, lanes[s := l], verified, probePeers, probeAvailable, badSeen, {})
    ensures InFlight(lanes) ==> InFlight(lanes[s := l])
  {
    assert Active(lanes[s := l]) == Active(lanes);
    if InFlight(lanes) {
      var u :| Busy(lanes, u);
      assert Busy(lanes[s := l], u);
    }
    forall u | Useful(lanes, verified, u) ensures Useful(lanes[s := l], verified, u) {
      UsefulStays(lanes, lanes[s := l], verified, u);
    }
  }

  lemma IssuedProbing(k: Setup, mid: map<Source, Lane>, lanes: map<Source, Lane>, s: Source, verified: seq<bool>,
                      probePeers: set<Source>, probeAvailable: set<Source>, badSeen: bool, exclusive: bool, tail: nat, now: nat)
    requires (k.peerOnly ==> s.Peer?) && s in mid && s in lanes && lanes == mid[s := lanes[s]]
    requires Issued(k.pieceSize, exclusive, tail, s, mid[s], lanes[s], now)
    requires Probing(k, mid, probePeers, probeAvailable, badSeen) && Keen(k, mid, verified, probePeers, probeAvailable, badSeen, {})
    ensures Probing(k, lanes, probePeers, probeAvailable, badSeen) && Keen(k, lanes, verified, probePeers, probeAvailable, badSeen, {})
  {
    hide Useful, Work, Behind, Front;
    assert mid[s].inFlight <= lanes[s].inFlight && lanes[s].retired == mid[s].retired && lanes[s].estimate == mid[s].estimate;
    if s.Peer? {
      assert Active(lanes) <= Active(mid);
      SubsetSize(Active(lanes), Active(mid));
    }
    forall u | Useful(mid, verified, u) ensures Useful(lanes, verified, u) {
      UsefulIsKnown(mid, verified, u);
      UsefulStays(mid, lanes, verified, u);
    }
  }
}

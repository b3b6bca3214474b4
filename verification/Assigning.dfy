/** Who gets which pieces: the inputs of the planner, and origin's work that moves
    to peers. */
module Assigning {
  import opened Wrappers
  import opened Pieces
  import opened Sorting
  import opened Estimates
  import opened RunLists
  import opened WaterLevel
  import opened Planner
  import opened Lanes
  import opened Books
  import opened Ownership
  import opened Dispatch
  import opened States
  import opened Supply

  // ---- assignable pieces ----

  /** What may be assigned: unverified pieces that nobody holds, in order, and
      before the floor. */
  ghost predicate Assignable(k: Setup, st: State, orphans: set<nat>, needed: seq<nat>) {
    && !st.finished && st.started && Ascending(needed)
    && SetOf(needed) <= Left(st.verified) && orphans <= SetOf(needed)
    && (forall i :: i in needed ==> !HeldIn(st.lanes, i))
    && (FloorPassed(st.log) ==> needed == [])
  }

  lemma AssignableFacts(k: Setup, st: State, orphans: set<nat>, loose: set<Source>, needed: seq<nat>)
    requires Good(k, st, orphans, loose) && Assignable(k, st, orphans, needed)
    ensures NoDup(needed) && Below(needed, |k.hashes|)
    ensures Free(TermsOf(k, st), HoldsOf(st.lanes), SetOf(needed)) && Free(TermsOf(k, st), HoldsOf(st.lanes), {})
    ensures forall s :: s in st.lanes ==> st.lanes[s].estimate.source == s
    ensures Origin in st.lanes ==> !st.lanes[Origin].retired
    ensures k.peerOnly ==> Origin !in st.lanes
    ensures needed == [] ==> orphans == {}
  {
    hide Inv, Kept, Logged, NoDup, FreeAt, HeldIn;
    AscendingNoDup(needed);
    forall j | 0 <= j < |needed| ensures needed[j] < |k.hashes| {
      assert needed[j] in SetOf(needed);
    }
    forall i | i in SetOf(needed) ensures FreeAt(TermsOf(k, st), HoldsOf(st.lanes), i) {
      HeldInIsHeldBy(TermsOf(k, st), st.lanes, loose, i);
      UnheldIsFree(TermsOf(k, st), HoldsOf(st.lanes), i);
    }
    if Origin in st.lanes {
      GoodLanes(k, st, orphans, loose, Origin);
    }
  }

  lemma OneRange(needed: seq<nat>)
    requires |needed| == 1
    ensures var r := PieceRange(needed[0], needed[0] + 1);
            Flat([r]) == needed && PieceSet(r) == SetOf(needed)
  {
    var r := PieceRange(needed[0], needed[0] + 1);
    FlatOne(r);
    assert Span(r) == needed;
  }

  lemma NothingVerified(k: Setup, verified: seq<bool>)
    requires Fixed(k, verified) && forall i :: 0 <= i < |verified| ==> !verified[i]
    ensures Left(verified) != {}
  {
    CountWithinBound(k.size);
    assert 0 in Left(verified);
  }

  /** Before the start nothing is verified, and no floor has passed. */
  lemma UnstartedFacts(k: Setup, st: State)
    requires Good(k, st, {}, {}) && !st.started && forall i :: 0 <= i < |st.verified| ==> !st.verified[i]
    ensures Left(st.verified) != {} && (!st.finished ==> !FloorPassed(st.log))
  {
    hide Good;
    GoodFacts(k, st, {}, {});
    if !st.finished {
      UnbegunFacts(TermsOf(k, st), st.log);
    }
    NothingVerified(k, st.verified);
  }

  lemma AllNeeded(k: Setup, st: State, now: nat)
    requires Good(k, st, Left(st.verified), {}) && AllNew(st.lanes, now) && !st.finished && st.started && !FloorPassed(st.log)
    ensures var needed := Listed(Left(st.verified), |st.verified|);
            SetOf(needed) == Left(st.verified) && Assignable(k, st, SetOf(needed), needed)
  {
    hide Good;
    ListedMembers(Left(st.verified), |st.verified|);
  }

  // ---- planning for live peers ----

  /** Work that is planned now waits for the work that the lane has. */
  function Backlogged(l: Lane, now: nat, sharedFirstByteMs: Option<real>): (e: Estimate)
    ensures e.source == l.estimate.source
  {
    var backlog := MaxR(l.finishAt - now as real, 0.0);
    if backlog > 0.0 then
      var firstByte := Or(NonNegative(l.estimate.firstByteMs), NonNegative(sharedFirstByteMs)).GetOr(0.0);
      l.estimate.(firstByteMs := Some(MaxR(firstByte, backlog)))
    else l.estimate
  }

  /** The peers that are not probes. */
  function Normal(peers: seq<Estimate>, probes: set<Source>): (r: seq<Estimate>)
    ensures forall e :: e in r <==> e in peers && e.source !in probes
  {
    if peers == [] then []
    else (if peers[0].source in probes then [] else [peers[0]]) + Normal(peers[1..], probes)
  }

  /** The live peers in order, each with its backlog in its first-byte time. */
  ghost predicate LiveList(lanes: map<Source, Lane>, now: nat, sharedFirstByteMs: Option<real>, peers: seq<Estimate>) {
    && (forall s :: LivePeer(lanes, s) <==> exists j :: 0 <= j < |peers| && peers[j].source == s)
    && (forall i, j :: 0 <= i < j < |peers| ==> SourceLess(peers[i].source, peers[j].source))
    && forall j :: 0 <= j < |peers| ==>
         LivePeer(lanes, peers[j].source) && peers[j] == Backlogged(lanes[peers[j].source], now, sharedFirstByteMs)
  }

  /** Work is planned for all live peers beside origin, until the floor. */
  function WorkInput(k: Setup, origin: Estimate, peers: seq<Estimate>, sharedFirstByteMs: Option<real>, sharedRate: Option<real>,
                     now: nat, needed: seq<nat>): PlanInput {
    PlanInput(k.size, needed, peers, Some(origin), sharedFirstByteMs, sharedRate, (FloorAt(k) - now) as real, k.maxHolders)
  }

  /** The plan for the pieces that the probes leave, among the other peers. */
  function TailInput(input: PlanInput, probePeers: set<Source>, taken: nat): PlanInput
    requires taken <= |input.needed|
  {
    var slots := Since(Max(input.maxHolders, 1), taken);
    input.(needed := input.needed[taken..], peers := if slots == 0 then [] else Normal(input.peers, probePeers), maxHolders := slots)
  }

  /** One piece for each available probe, first pieces first, and a plan for the rest. */
  ghost predicate Divided(input: PlanInput, probePeers: set<Source>, available: set<Source>, n: nat, assignments: seq<Assignment>,
                          late: bool) {
    if probePeers == {} then
      exists plan, parts :: Planned(input, plan, parts) && assignments == plan.assignments && late == plan.late
    else
      exists probes, plan, parts :: DividedBy(input, probePeers, available, n, assignments, late, probes, plan, parts)
  }

  ghost predicate DividedBy(input: PlanInput, probePeers: set<Source>, available: set<Source>, n: nat, assignments: seq<Assignment>,
                            late: bool, probes: seq<Assignment>, plan: Plan, parts: seq<seq<nat>>) {
    && |probes| <= |input.needed| && PiecesOf(probes) == input.needed[..|probes|]
    && (forall j :: 0 <= j < |probes| ==> ProbeAt(probes[j], input.peers, available, n))
    && Planned(TailInput(input, probePeers, |probes|), plan, parts) && assignments == probes + plan.assignments
    && late == (LatestOf(assignments) > input.availableMs)
  }

  /** The needed pieces were divided among the lanes as planned, and queued. */
  ghost predicate Assigned(k: Setup, first: map<Source, Lane>, lanes: map<Source, Lane>, probePeers: set<Source>, available: set<Source>,
                           sharedFirstByteMs: Option<real>, sharedRate: Option<real>, now: nat, needed: seq<nat>, late: bool)
    requires Origin in first
  {
    exists peers, assignments ::
      && LiveList(first, now, sharedFirstByteMs, peers)
      && Divided(WorkInput(k, first[Origin].estimate, peers, sharedFirstByteMs, sharedRate, now, needed), probePeers, available,
                 |k.hashes|, assignments, late)
      && Shared(first, lanes, assignments)
  }

  /** Real pieces for a live peer or origin. */
  ghost predicate WorkAt(lanes: map<Source, Lane>, a: Assignment, n: nat) {
    Workable(a, n) && (a.source == Origin || LivePeer(lanes, a.source))
  }

  lemma SourcedWork(lanes: map<Source, Lane>, input: PlanInput, assignments: seq<Assignment>, n: nat)
    requires Sourced(input, assignments, n)
    requires forall j :: 0 <= j < |input.peers| ==> LivePeer(lanes, input.peers[j].source)
    requires input.origin.Some? ==> input.origin.value.source == Origin
    ensures forall j :: 0 <= j < |assignments| ==> WorkAt(lanes, assignments[j], n)
  {
    hide Workable;
    forall j | 0 <= j < |assignments| ensures WorkAt(lanes, assignments[j], n) {
      assert KnownTo(input, assignments[j].source);
    }
  }

  ghost predicate ProbeAt(a: Assignment, peers: seq<Estimate>, available: set<Source>, n: nat) {
    && Workable(a, n) && |Flat(a.ranges)| == 1 && a.source in available
    && exists k :: 0 <= k < |peers| && peers[k].source == a.source
  }

  lemma ProbesWork(lanes: map<Source, Lane>, assignments: seq<Assignment>, peers: seq<Estimate>, available: set<Source>, n: nat)
    requires forall j :: 0 <= j < |assignments| ==> ProbeAt(assignments[j], peers, available, n)
    requires forall j :: 0 <= j < |peers| ==> LivePeer(lanes, peers[j].source)
    ensures forall j :: 0 <= j < |assignments| ==> WorkAt(lanes, assignments[j], n)
  {
    hide Workable;
    forall j | 0 <= j < |assignments| ensures WorkAt(lanes, assignments[j], n) {
      assert ProbeAt(assignments[j], peers, available, n);
    }
  }

  lemma WorkPositive(lanes: map<Source, Lane>, assignments: seq<Assignment>, n: nat)
    requires forall j :: 0 <= j < |assignments| ==> WorkAt(lanes, assignments[j], n)
    ensures AllPositive(assignments)
  {
    forall j | 0 <= j < |assignments| ensures assignments[j].projectedMs > 0.0 {
      assert WorkAt(lanes, assignments[j], n);
    }
  }

  lemma ProbeCost(k: Setup, verified: seq<bool>, index: nat, s: Timed)
    requires Fixed(k, verified) && index < |k.hashes| && s.rate > 0.0 && s.firstByte >= 0.0
    ensures s.firstByte + PieceBytes(k.size, k.pieceSize, index) as real / s.rate > 0.0
  {
    CountWithinBound(k.size);
    PieceBytesBounds(k.size, k.pieceSize, |k.hashes|, index);
    PositiveQuotient(PieceBytes(k.size, k.pieceSize, index) as real, s.rate);
  }

  /** One piece for the available source of estimate `at` is a probe. */
  lemma ProbeFits(k: Setup, verified: seq<bool>, peers: seq<Estimate>, at: nat, available: set<Source>, index: nat, s: Timed, a: Assignment)
    requires Fixed(k, verified) && index < |k.hashes| && s.rate > 0.0 && s.firstByte >= 0.0
    requires at < |peers| && peers[at].source == a.source && a.source in available && a.ranges == [PieceRange(index, index + 1)]
    requires a.bytes == PieceBytes(k.size, k.pieceSize, index) && a.projectedMs == s.firstByte + a.bytes as real / s.rate
    ensures ProbeAt(a, peers, available, |k.hashes|) && Flat(a.ranges) == [index]
  {
    hide Flat, RunsOf;
    ProbeCost(k, verified, index, s);
    FlatOne(PieceRange(index, index + 1));
    assert Span(PieceRange(index, index + 1)) == [index];
  }

  lemma WorkFits(k: Setup, st: State, orphans: set<nat>, needed: seq<nat>, assignments: seq<Assignment>)
    requires Assignable(k, st, orphans, needed)
    requires PiecesOf(assignments) == needed && needed != [] && !k.peerOnly
    requires forall j :: 0 <= j < |assignments| ==> WorkAt(st.lanes, assignments[j], |k.hashes|)
    requires Origin in st.lanes ==> !st.lanes[Origin].retired
    ensures Dispatchable(k, st, assignments)
  {
    hide HeldIn;
    forall j | 0 <= j < |assignments| ensures AssignableAt(k, st, assignments[j]) {
      assert WorkAt(st.lanes, assignments[j], |k.hashes|);
    }
  }

  // ---- idle holders ----

  predicate Unoccupied(lanes: map<Source, Lane>, s: Source) {
    LivePeer(lanes, s) && lanes[s].inFlight == [] && lanes[s].queue == []
  }

  lemma UnoccupiedLane(lanes: map<Source, Lane>, s: Source)
    requires Unoccupied(lanes, s)
    ensures s in lanes && s.Peer? && !lanes[s].retired
  {
  }

  /** The idle holders with a measured rate that are not probes. */
  function Measured(lanes: map<Source, Lane>, probePeers: set<Source>): set<Source> {
    set s | s in lanes && Unoccupied(lanes, s) && s !in probePeers && Positive(lanes[s].estimate.rate).Some?
  }

  /** The estimates of the idle measured holders, in order. */
  ghost predicate IdleList(lanes: map<Source, Lane>, probePeers: set<Source>, idle: seq<Estimate>) {
    && (forall j :: 0 <= j < |idle| ==> idle[j].source in Measured(lanes, probePeers) && idle[j] == lanes[idle[j].source].estimate)
    && (forall s :: s in Measured(lanes, probePeers) ==> exists j :: 0 <= j < |idle| && idle[j] == lanes[s].estimate)
    && forall i, j :: 0 <= i < j < |idle| ==> SourceLess(idle[i].source, idle[j].source)
  }

  lemma MeasuredIdle(lanes: map<Source, Lane>, probePeers: set<Source>)
    ensures Measured(lanes, probePeers) <= lanes.Keys
    ensures forall s :: s in Measured(lanes, probePeers) ==> Unoccupied(lanes, s) && s.Peer?
  {
  }

  // ---- origin's work that may move ----

  /** Origin's unverified pieces as far as they may move: with exclusive ownership
      only what is queued. */
  function Owed(origin: Lane, verified: seq<bool>, exclusive: bool): set<nat> {
    set i | i in (if exclusive then Flat(origin.queue) else Work(origin)) && i < |verified| && !verified[i]
  }

  predicate PeerHeld(lanes: map<Source, Lane>, i: nat) {
    exists s :: s in lanes && s.Peer? && Holds(lanes[s], i)
  }

  predicate HoldsAny(l: Lane, pieces: set<nat>) {
    exists i :: i in pieces && Holds(l, i)
  }

  function Tail(pieces: seq<nat>, take: nat): seq<nat> {
    if take <= |pieces| then pieces[|pieces| - take..] else pieces
  }

  /** What origin owes and no peer holds. */
  function Moving(lanes: map<Source, Lane>, verified: seq<bool>, exclusive: bool): set<nat>
    requires Origin in lanes
  {
    set i | i in Owed(lanes[Origin], verified, exclusive) && !PeerHeld(lanes, i)
  }

  function MoveCandidates(lanes: map<Source, Lane>, verified: seq<bool>, exclusive: bool): seq<nat>
    requires Origin in lanes
  {
    Listed(Moving(lanes, verified, exclusive), |verified|)
  }

  /** The whole pieces that the peers bring before the time is up, together. */
  function TakeLimit(peers: seq<Timed>, availableMs: real, ps: nat): nat {
    if peers == [] || ps == 0 then 0
    else Max((MaxR(availableMs - peers[0].firstByte, 0.0) * peers[0].rate / ps as real).Floor, 0) + TakeLimit(peers[1..], availableMs, ps)
  }

  /** The idle peers' share of the pending pieces beside the busy ones. */
  function ShareOf(pending: nat, idle: nat, busy: nat): nat
    requires idle > 0
  {
    DivCeil(pending * idle, idle + busy)
  }

  lemma ShareAtMost(pending: nat, idle: nat, busy: nat)
    requires idle > 0
    ensures ShareOf(pending, idle, busy) <= pending
  {
    var n := idle + busy;
    assert pending * idle <= pending * n by {
      MulMono(idle, n, pending);
    }
    CeilAtMost(pending * idle, pending, n);
  }

  lemma CeilAtMost(a: nat, b: nat, n: nat)
    requires n > 0 && a <= b * n
    ensures DivCeil(a, n) <= b
  {
    var q := DivCeil(a, n);
    assert a + n - 1 == n * q + (a + n - 1) % n;
    if q > b {
      MulMono(b + 1, q, n);
    }
  }

  /** A plan that moves unverified pieces to live peers; they are origin's
      unissued pieces in exclusive mode, else pieces no peer holds. */
  ghost predicate Movable(k: Setup, st: State, assignments: seq<Assignment>)
    requires Origin in st.lanes
  {
    && NoDup(PiecesOf(assignments)) && SetOf(PiecesOf(assignments)) <= Left(st.verified) && AllPositive(assignments)
    && (if st.exclusive then SetOf(PiecesOf(assignments)) <= SetOf(Flat(st.lanes[Origin].queue))
        else Free(TermsOf(k, st), HoldsOf(st.lanes), SetOf(PiecesOf(assignments))))
    && forall j :: 0 <= j < |assignments| ==> WorkAt(st.lanes, assignments[j], |k.hashes|)
  }

  /** The assignment is to an idle measured peer, which is projected to finish within
      one of its pieces of `untilMs`. */
  ghost predicate MovesInTime(k: Setup, lanes: map<Source, Lane>, probePeers: set<Source>, untilMs: real, a: Assignment) {
    && a.source in Measured(lanes, probePeers)
    && a.projectedMs <= untilMs + k.pieceSize as real / lanes[a.source].estimate.rate.value
  }

  /** The last of the pieces that origin owes and no peer holds go to peers that are
      projected to bring them in time. */
  ghost predicate WorthMoving(k: Setup, lanes: map<Source, Lane>, verified: seq<bool>, exclusive: bool, probePeers: set<Source>,
                              untilMs: real, assignments: seq<Assignment>)
    requires Origin in lanes
  {
    && PiecesOf(assignments) == Tail(MoveCandidates(lanes, verified, exclusive), |PiecesOf(assignments)|)
    && forall j :: 0 <= j < |assignments| ==> MovesInTime(k, lanes, probePeers, untilMs, assignments[j])
  }

  lemma {:induction false} TakeFits(peers: seq<Timed>, availableMs: real, ps: nat)
    requires Usable(peers) && ps > 0
    ensures (TakeLimit(peers, availableMs, ps) * ps) as real <= Capacity(peers, availableMs)
    decreases |peers|
  {
    hide MaxR, Fill;
    if peers != [] {
      var fill := Fill(peers[0], availableMs);
      var first, rest := Max((fill / ps as real).Floor, 0), TakeLimit(peers[1..], availableMs, ps);
      TakeFits(peers[1..], availableMs, ps);
      FillMonotone(peers[0], availableMs, availableMs);
      FloorFits(fill, ps);
      TakeOne(peers, availableMs, ps);
      TakeSum(first, rest, ps);
    }
  }

  lemma TakeOne(peers: seq<Timed>, availableMs: real, ps: nat)
    requires peers != [] && ps > 0
    ensures TakeLimit(peers, availableMs, ps) == Max((Fill(peers[0], availableMs) / ps as real).Floor, 0) + TakeLimit(peers[1..], availableMs, ps)
  {
  }

  lemma FloorFits(fill: real, ps: nat)
    requires fill >= 0.0 && ps > 0
    ensures (Max((fill / ps as real).Floor, 0) * ps) as real <= fill
  {
    var q := fill / ps as real;
    RealDivide(fill, ps as real);
    NonNegativeOrder(Max(q.Floor, 0) as real, q, ps as real);
    CastProduct(Max(q.Floor, 0), ps);
  }

  lemma TakeSum(a: nat, b: nat, ps: nat)
    ensures (a + b) * ps == a * ps + b * ps
  {
  }

  /** What is asked for a move: no more pieces than the idle measured peers bring in
      time. */
  ghost predicate Proposal(k: Setup, lanes: map<Source, Lane>, probePeers: set<Source>, keys: seq<Source>, idle: seq<Estimate>,
                           input: PlanInput, needed: seq<nat>) {
    && PieceCount(k.size) == Some(|k.hashes|) && k.pieceSize == CommitmentPieceSize(k.size) && input.size == k.size
    && needed != [] && Needed(needed, |k.hashes|)
    && |needed| <= TakeLimit(Resolve(idle, input), input.availableMs, k.pieceSize)
    && |keys| == |idle|
    && forall i :: 0 <= i < |keys| ==>
         keys[i] in Measured(lanes, probePeers) && idle[i] == lanes[keys[i]].estimate && idle[i].source == keys[i]
  }

  lemma ProposalFits(k: Setup, lanes: map<Source, Lane>, probePeers: set<Source>, keys: seq<Source>, idle: seq<Estimate>,
                     input: PlanInput, needed: seq<nat>)
    requires Proposal(k, lanes, probePeers, keys, idle, input, needed)
    ensures TotalBytes(k.size, k.pieceSize, needed) as real <= Capacity(Resolve(idle, input), input.availableMs)
  {
    hide Capacity, TakeLimit, TotalBytes, Needed, Measured, PieceCount;
    var peers := Resolve(idle, input);
    TakeFits(peers, input.availableMs, k.pieceSize);
    BytesAtMost(k.size, k.pieceSize, needed);
    MulMono(|needed|, TakeLimit(peers, input.availableMs, k.pieceSize), k.pieceSize);
  }

  lemma ProposalRate(k: Setup, lanes: map<Source, Lane>, probePeers: set<Source>, keys: seq<Source>, idle: seq<Estimate>,
                     input: PlanInput, needed: seq<nat>, i: nat)
    requires Proposal(k, lanes, probePeers, keys, idle, input, needed) && i < |idle|
    ensures idle[i].source in Measured(lanes, probePeers) && ResolveOne(idle[i], input).rate == lanes[idle[i].source].estimate.rate.value
  {
    hide TakeLimit, Needed, PieceCount, CommitmentPieceSize;
    assert keys[i] in Measured(lanes, probePeers);
  }

  lemma ProposalFacts(k: Setup, lanes: map<Source, Lane>, probePeers: set<Source>, keys: seq<Source>, idle: seq<Estimate>,
                      input: PlanInput, needed: seq<nat>)
    requires Proposal(k, lanes, probePeers, keys, idle, input, needed)
    ensures PieceCount(k.size) == Some(|k.hashes|) && k.pieceSize == CommitmentPieceSize(k.size) && input.size == k.size
    ensures needed != [] && Needed(needed, |k.hashes|)
  {
  }

  /** Every assignment of a split of that move is in time. */
  lemma MoveInTime(k: Setup, lanes: map<Source, Lane>, probePeers: set<Source>, keys: seq<Source>, idle: seq<Estimate>, input: PlanInput,
                   needed: seq<nat>, parts: seq<seq<nat>>, plan: Plan, j: nat)
    requires SplitOf(input.(needed := needed), Resolve(idle, input), parts, plan) && j < |plan.assignments|
    requires Proposal(k, lanes, probePeers, keys, idle, input, needed)
    ensures MovesInTime(k, lanes, probePeers, input.availableMs, plan.assignments[j])
  {
    hide SplitOf, Capacity, TakeLimit, TotalBytes, Needed, PieceCount, CommitmentPieceSize, Proposal, Measured;
    ProposalFacts(k, lanes, probePeers, keys, idle, input, needed);
    ProposalFits(k, lanes, probePeers, keys, idle, input, needed);
    var i := SplitInTime(input.(needed := needed), Resolve(idle, input), parts, plan, input.availableMs, j);
    ProposalRate(k, lanes, probePeers, keys, idle, input, needed, i);
  }

  lemma MoveAllInTime(k: Setup, lanes: map<Source, Lane>, verified: seq<bool>, exclusive: bool, probePeers: set<Source>, keys: seq<Source>,
                      idle: seq<Estimate>, input: PlanInput, needed: seq<nat>, parts: seq<seq<nat>>, plan: Plan)
    requires SplitOf(input.(needed := needed), Resolve(idle, input), parts, plan) && Origin in lanes
    requires Proposal(k, lanes, probePeers, keys, idle, input, needed)
    requires PiecesOf(plan.assignments) == needed == Tail(MoveCandidates(lanes, verified, exclusive), |needed|)
    ensures WorthMoving(k, lanes, verified, exclusive, probePeers, input.availableMs, plan.assignments)
  {
    hide SplitOf, Proposal, MovesInTime;
    forall j | 0 <= j < |plan.assignments| ensures MovesInTime(k, lanes, probePeers, input.availableMs, plan.assignments[j]) {
      MoveInTime(k, lanes, probePeers, keys, idle, input, needed, parts, plan, j);
    }
  }

  lemma MoveFits(k: Setup, st: State, assignments: seq<Assignment>, needed: seq<nat>)
    requires Origin in st.lanes && PiecesOf(assignments) == needed && NoDup(needed) && SetOf(needed) <= Left(st.verified)
    requires st.exclusive ==> SetOf(needed) <= SetOf(Flat(st.lanes[Origin].queue))
    requires !st.exclusive ==> Free(TermsOf(k, st), HoldsOf(st.lanes), SetOf(needed))
    requires AllPositive(assignments) && forall j :: 0 <= j < |assignments| ==> WorkAt(st.lanes, assignments[j], |k.hashes|)
    ensures Movable(k, st, assignments)
  {
  }

  lemma MovableFacts(k: Setup, st: State, assignments: seq<Assignment>)
    requires Origin in st.lanes && Movable(k, st, assignments)
    requires !st.finished && st.started && !k.peerOnly && !FloorPassed(st.log) && Good(k, st, {}, {})
    ensures NoDup(PiecesOf(assignments)) && AllPositive(assignments) && Dispatchable(k, st, assignments)
    ensures if st.exclusive then SetOf(PiecesOf(assignments)) <= SetOf(Flat(st.lanes[Origin].queue))
            else Free(TermsOf(k, st), HoldsOf(st.lanes), SetOf(PiecesOf(assignments)))
  {
    hide Good, Workable;
    GoodLanes(k, st, {}, {}, Origin);
    forall j | 0 <= j < |assignments| ensures AssignableAt(k, st, assignments[j]) {
      WorkAssigns(k, st, assignments[j]);
    }
  }

  lemma WorkAssigns(k: Setup, st: State, a: Assignment)
    requires WorkAt(st.lanes, a, |k.hashes|) && !k.peerOnly && (Origin in st.lanes ==> !st.lanes[Origin].retired)
    ensures AssignableAt(k, st, a)
  {
  }

  lemma ClaimFits(k: Setup, st: State, lanes: map<Source, Lane>, assignments: seq<Assignment>, claimed: set<nat>)
    requires Origin in lanes && st.lanes == lanes[Origin := ClaimLane(lanes[Origin], claimed)]
    requires Dispatchable(k, st.(lanes := lanes), assignments)
    ensures Dispatchable(k, st, assignments)
  {
    forall j | 0 <= j < |assignments| ensures AssignableAt(k, st, assignments[j]) {
      assert AssignableAt(k, st.(lanes := lanes), assignments[j]);
    }
  }

  lemma SplitAssigns(k: Setup, st: State, input: PlanInput, peers: seq<Timed>, parts: seq<seq<nat>>, plan: Plan, idle: seq<Estimate>)
    requires SplitOf(input, peers, parts, plan) && Usable(peers) && PieceCount(input.size) == Some(|k.hashes|)
    requires Needed(input.needed, |k.hashes|) && |peers| == |idle|
    requires forall j :: 0 <= j < |peers| ==> peers[j].source == idle[j].source
    requires forall j :: 0 <= j < |idle| ==> LivePeer(st.lanes, idle[j].source)
    ensures PiecesOf(plan.assignments) == input.needed
    ensures forall j :: 0 <= j < |plan.assignments| ==> WorkAt(st.lanes, plan.assignments[j], |k.hashes|)
    ensures AllPositive(plan.assignments)
  {
    hide Workable, LivePeer, Usable, NearOptimal;
    DealtPieces(plan.assignments, peers, parts, input.size);
    forall j | 0 <= j < |plan.assignments| ensures WorkAt(st.lanes, plan.assignments[j], |k.hashes|) {
      DealtWorkable(plan.assignments, peers, parts, input.size, j);
    }
    WorkPositive(st.lanes, plan.assignments, |k.hashes|);
  }

  /** The tail of the owed pieces may go to peers. */
  lemma OwedPieces(k: Setup, st: State, pending: seq<nat>, take: nat)
    requires Good(k, st, {}, {}) && Origin in st.lanes && take <= |pending|
    requires pending == MoveCandidates(st.lanes, st.verified, st.exclusive)
    ensures var needed := Tail(pending, take);
            NoDup(needed) && Needed(needed, |k.hashes|) && SetOf(needed) <= Left(st.verified) &&
            (st.exclusive ==> SetOf(needed) <= SetOf(Flat(st.lanes[Origin].queue))) &&
            (!st.exclusive ==> Free(TermsOf(k, st), HoldsOf(st.lanes), SetOf(needed)))
  {
    hide Good, PeerHeld, Free, Flags, LanesOk, Kept, PieceCount, CommitmentPieceSize;
    GoodFacts(k, st, {}, {});
    var needed, moving := Tail(pending, take), Moving(st.lanes, st.verified, st.exclusive);
    ListedTail(moving, |st.verified|, take);
    assert SetOf(needed) <= moving;
    if !st.exclusive {
      MovingFree(k, st, SetOf(needed));
    }
  }

  /** The tail of a sorted list is sorted and in it. */
  lemma ListedTail(s: set<nat>, n: nat, take: nat)
    ensures NoDup(Tail(Listed(s, n), take)) && Needed(Tail(Listed(s, n), take), n) && SetOf(Tail(Listed(s, n), take)) <= s
  {
    hide Listed, NoDup;
    ListedMembers(s, n);
    TailOf(Listed(s, n), take);
    AscendingNoDup(Tail(Listed(s, n), take));
  }

  lemma TailOf(all: seq<nat>, take: nat)
    requires Ascending(all)
    ensures var tail := Tail(all, take);
            Ascending(tail) && forall j :: 0 <= j < |tail| ==> tail[j] in all
  {
    var from := if take <= |all| then |all| - take else 0;
    assert Tail(all, take) == all[from..];
  }

  lemma MovingFree(k: Setup, st: State, pieces: set<nat>)
    requires Good(k, st, {}, {}) && Origin in st.lanes && !st.exclusive && pieces <= Moving(st.lanes, st.verified, st.exclusive)
    ensures Free(TermsOf(k, st), HoldsOf(st.lanes), pieces)
  {
    hide Good, PeerHeld, Owed, FreeAt;
    forall i | i in pieces ensures FreeAt(TermsOf(k, st), HoldsOf(st.lanes), i) {
      PeerFree(k, st, i);
    }
  }

  lemma PeerFree(k: Setup, st: State, i: nat)
    requires Good(k, st, {}, {}) && !st.exclusive && !PeerHeld(st.lanes, i)
    ensures FreeAt(TermsOf(k, st), HoldsOf(st.lanes), i)
  {
    hide Good, HoldOf, Holds, LaneOk;
    forall s | s in st.lanes && s.Peer? ensures i !in HoldOf(st.lanes[s]).sent && i !in HoldOf(st.lanes[s]).queued {
      GoodLanes(k, st, {}, {}, s);
      HoldHolds(TermsOf(k, st), s, st.lanes[s], i);
      assert !Holds(st.lanes[s], i);
    }
  }

  lemma ClaimSupplied(lanes: map<Source, Lane>, claimed: set<nat>, now: nat)
    requires Origin in lanes
    ensures Supplied(lanes, lanes[Origin := ClaimLane(lanes[Origin], claimed)], now)
  {
    forall s | s in lanes && s.Peer? ensures EvolvedAt(lanes[s], lanes[s], now) {
      SteppedSame(lanes[s], now);
    }
  }
}

/** Where two promises end: a floor that passes before the start does not keep peers
    from being asked, and a bad piece can leave a peer-only transfer with nobody to
    ask. */
module Limits {
  import opened Wrappers
  import opened Pieces
  import opened Sorting
  import opened Estimates
  import opened Planner
  import opened Lanes
  import opened Books
  import opened Ownership
  import opened Dispatch
  import opened States
  import opened Supply
  import opened Assigning
  import opened Holders
  import opened Transfers
  import opened Promises

  // ---- a floor before the start ----

  /** A mixed transfer that is ticked past its floor and then started with untested
      peers asks one of them, however late it is. */
  method AskAfterEarlyFloor(k: Setup, now: nat, later: nat, peers: seq<Estimate>, origin: Estimate, sharedFirst: Option<real>,
                            shared: Option<real>)
      returns (t: Transfer, ghost j: nat)
    requires PieceCount(k.size) == Some(|k.hashes|) && k.pieceSize == CommitmentPieceSize(k.size) && !k.peerOnly
    requires now >= FloorAt(k) && origin.source == Origin && peers != []
    requires forall i :: 0 <= i < |peers| ==> peers[i].source.Peer? && Positive(peers[i].rate).None?
    ensures t.setup == k && t.Valid() && t.started && t.log != [] && t.log[0] == Floor(false)
    ensures 0 < j < |t.log| && t.log[j].Out? && t.log[j].command.Request?
  {
    hide Good, LaneOk, LanesFor, AllNew, Supplied, Listed, Assigned;
    var made := Transfer.New(k.maxHolders, k.originReserveMs, k.size, k.whole, k.hashes, k.deadline, k.peerOnly, k.sha);
    t := made.value;
    t.Tick(now);
    assert t.log == [Floor(false)];
    assert (peers + [origin])[|peers|] == origin;
    ghost var begun := t.originStarted;
    t.Start(later, peers, origin, sharedFirst, shared, []);
    ghost var first :| t.Begun(first, later, peers + [origin], begun);
    assert t.probePeers == {};
    ghost var p := SomeoneWorks(t, first, later, peers, origin, begun);
    j := WorkIsAsked(t.setup, t.St(), p);
  }

  /** One of the untested peers has work after the start. */
  lemma SomeoneWorks(t: Transfer, first: map<Source, Lane>, now: nat, peers: seq<Estimate>, origin: Estimate, begun: bool) returns (p: nat)
    requires t.Begun(first, now, peers + [origin], begun) && !t.exclusiveOrigin && t.probePeers == {} && Left(t.verified) != {}
    requires origin.source == Origin && peers != []
    requires forall i :: 0 <= i < |peers| ==> peers[i].source.Peer? && Positive(peers[i].rate).None?
    ensures Peer(p) in t.lanes && Work(t.lanes[Peer(p)]) != []
  {
    hide Planned, Work, Mentioned, FirstEstimate, Flat;
    ListedMembers(Left(t.verified), |t.verified|);
    var needed := Listed(Left(t.verified), |t.verified|);
    assert needed != [];
    var live: seq<Estimate>, assignments: seq<Assignment> :|
      && LiveList(first, now, t.sharedFirstByteMs, live)
      && Divided(WorkInput(t.setup, first[Origin].estimate, live, t.sharedFirstByteMs, t.sharedRate, now, needed), {}, {},
                 |t.setup.hashes|, assignments, t.late)
      && Shared(first, t.lanes, assignments);
    var input := WorkInput(t.setup, first[Origin].estimate, live, t.sharedFirstByteMs, t.sharedRate, now, needed);
    LiveUntested(first, now, peers, origin, t.sharedFirstByteMs, live);
    var plan: Plan, parts: seq<seq<nat>> :| Planned(input, plan, parts) && assignments == plan.assignments && t.late == plan.late;
    var i := UntestedWorks(input, plan, parts);
    var s := live[i].source;
    WorkOfFirst(assignments);
    assert WorkIn(t.lanes, s) == WorkIn(first, s) + WorkOf(assignments, s);
    p := s.id;
  }

  /** The live peers of a start are the untested ones that it named. */
  lemma LiveUntested(first: map<Source, Lane>, now: nat, peers: seq<Estimate>, origin: Estimate, sharedFirst: Option<real>, live: seq<Estimate>)
    requires AllNew(first, now) && LanesFor(first, peers + [origin], false) && LiveList(first, now, sharedFirst, live)
    requires origin.source == Origin && peers != []
    requires forall i :: 0 <= i < |peers| ==> peers[i].source.Peer? && Positive(peers[i].rate).None?
    ensures live != [] && forall j :: 0 <= j < |live| ==> live[j].source.Peer? && Positive(live[j].rate).None?
  {
    var sources := peers + [origin];
    var s := peers[0].source;
    assert sources[0].source == s && Mentioned(sources, |sources|, s);
    assert LivePeer(first, s);
    forall j | 0 <= j < |live| ensures live[j].source.Peer? && Positive(live[j].rate).None? {
      var u := live[j].source;
      assert LivePeer(first, u) && FirstEstimate(sources, u, first[u].estimate);
      assert live[j] == first[u].estimate;
    }
  }

  lemma {:induction false} WorkOfFirst(assignments: seq<Assignment>)
    requires assignments != [] && Flat(assignments[0].ranges) != []
    ensures WorkOf(assignments, assignments[0].source) != []
    decreases |assignments|
  {
    if |assignments| > 1 {
      WorkOfFirst(assignments[..|assignments| - 1]);
    }
  }

  /** A peer with work in a good transfer has been asked for some of it. */
  lemma WorkIsAsked(k: Setup, st: State, p: nat) returns (j: nat)
    requires Good(k, st, {}, {}) && !st.finished && Peer(p) in st.lanes && Work(st.lanes[Peer(p)]) != []
    ensures j < |st.log| && st.log[j].Out? && st.log[j].command.Request? && st.log[j].command.peer == p
  {
    hide Good, NoDup;
    var l := st.lanes[Peer(p)];
    GoodLanes(k, st, {}, {}, Peer(p));
    assert l.inFlight != [];
    var i := l.inFlight[0].range.start;
    FlyingMember(l.inFlight, i);
    j := InFlightWasAsked(k, st, {}, {}, Peer(p), i);
  }

  // ---- a stall after a bad piece ----

  /** Three untested holders were asked for a piece each. Holder 3 brought piece 2,
      then piece 0 and a bad piece 1, and was banned; holder 1's answer came when its
      piece was verified, so it is still a probe; holder 2 failed. */
  function StalledLog(): seq<Entry> {
    [Out(Request(1, PieceRange(0, 1))), Out(Request(2, PieceRange(1, 2))), Out(Request(3, PieceRange(2, 3))),
     Out(Request(3, PieceRange(0, 2))), Gone(Peer(3)), Out(Ban(3)), Gone(Peer(2))]
  }

  function IdleLane(p: nat, gone: bool): Lane {
    NewLane(Estimate(Peer(p), Some(0.0), Some(1.0)), 0).(retired := gone)
  }

  function StalledLanes(): map<Source, Lane> {
    map[Peer(1) := IdleLane(1, false), Peer(2) := IdleLane(2, true), Peer(3) := IdleLane(3, true)]
  }

  ghost function Stalled(data: seq<byte>): State {
    State(false, true, data, [true, false, true], StalledLanes(), {1}, false, false, [], StalledLog(), Outputs(StalledLog()), true, false)
  }

  lemma StalledAsked(t: Terms)
    requires t.peerOnly && !t.exclusive && t.n == 3 && t.cap >= 2
    ensures var log := StalledLog();
            && LogOk(t, log) && !Ended(log) && !FloorPassed(log) && Banned(log) && !OriginFailed(log) && Fetched(log) == {}
            && forall p :: Asked(log, p) == (if p == 1 then {0} else if p == 2 then {1} else if p == 3 then {0, 1, 2} else {})
                           && (Dropped(log, p) <==> p == 2 || p == 3)
  {
    var log := StalledLog();
    hide Asked, Fetched, Dropped, Ended, FloorPassed, Banned, OriginFailed, LogOk, PieceSet;
    Pieces3();
    var none: seq<Entry> := [];
    NoEntries(t);
    for k := 0 to 7
      invariant LogOk(t, log[..k]) && !Ended(log[..k]) && !FloorPassed(log[..k]) && !OriginFailed(log[..k]) && Fetched(log[..k]) == {}
      invariant Banned(log[..k]) == (k >= 6)
      invariant forall p :: Asked(log[..k], p) == AskedBy(p, k) && (Dropped(log[..k], p) <==> (p == 3 && k >= 5) || (p == 2 && k >= 7))
    {
      Summaries(log[..k], log[k]);
      LogNext(t, log[..k], log[k]);
      assert log[..k + 1] == log[..k] + [log[k]];
    }
    assert log[..7] == log;
  }

  /** The pieces asked of holder `p` in the first `k` entries. */
  ghost function AskedBy(p: nat, k: nat): set<nat> {
    if p == 1 && k >= 1 then {0}
    else if p == 2 && k >= 2 then {1}
    else if p == 3 && k >= 4 then {0, 1, 2}
    else if p == 3 && k >= 3 then {2}
    else {}
  }

  lemma NoEntries(t: Terms)
    ensures LogOk(t, []) && !Ended([]) && !FloorPassed([]) && !OriginFailed([]) && !Banned([]) && Fetched([]) == {}
    ensures forall p :: Asked([], p) == {} && !Dropped([], p)
  {
  }

  lemma Pieces3()
    ensures PieceSet(PieceRange(0, 1)) == {0} && PieceSet(PieceRange(1, 2)) == {1} && PieceSet(PieceRange(2, 3)) == {2}
    ensures PieceSet(PieceRange(0, 2)) == {0, 1}
  {
    assert Span(PieceRange(0, 1)) == [0] && Span(PieceRange(1, 2)) == [1] && Span(PieceRange(2, 3)) == [2];
    assert Span(PieceRange(0, 2)) == [0, 1];
  }

  lemma StalledLogged(k: Setup)
    ensures Logged(k, StalledLog(), Outputs(StalledLog()) + [])
  {
    assert Outputs(StalledLog()) + [] == Outputs(StalledLog());
  }

  lemma IdleLaneOk(t: Terms, p: nat, gone: bool)
    ensures LaneOk(t, Peer(p), IdleLane(p, gone)) && Settled(IdleLane(p, gone)) && HoldOf(IdleLane(p, gone)) == Hold({}, {}, gone)
  {
    assert SetOf<nat>([]) == {};
  }

  lemma StalledLanesOk(t: Terms)
    ensures LanesOk(t, StalledLanes(), {}) && Active(StalledLanes()) == {}
    ensures HoldsOf(StalledLanes()) ==
              map[Peer(1) := Hold({}, {}, false), Peer(2) := Hold({}, {}, true), Peer(3) := Hold({}, {}, true)]
  {
    hide LaneOk, HoldOf;
    IdleLaneOk(t, 1, false);
    IdleLaneOk(t, 2, true);
    IdleLaneOk(t, 3, true);
  }

  lemma StalledInv(t: Terms, st: State)
    requires t.peerOnly && !t.exclusive && t.n == 3 && t.cap >= 2 && st == Stalled(st.data)
    ensures Inv(t, CoreOf(st), {}) && Left(st.verified) == {1}
  {
    hide Asked, Fetched, Dropped, Ended, FloorPassed, Banned, OriginFailed, LogOk, Outputs, StalledLog, HoldsOf, StalledLanes;
    StalledAsked(t);
    StalledLanesOk(t);
    assert Left(st.verified) == {1};
    var c := CoreOf(st);
    forall p: nat ensures AsksAt(c, p) && LinkAt(c, p) {
    }
  }

  /** The transfer is valid and not over, piece 1 is pending and nothing is in flight,
      and nothing will be: the only live holder is a used probe. */
  lemma StallAfterBan(k: Setup, data: seq<byte>)
    requires k.peerOnly && PieceCount(k.size) == Some(3) && |k.hashes| == 3 && k.pieceSize == CommitmentPieceSize(k.size)
    requires PeerCap(k.pieceSize) >= 2 && Kept(k, data, [true, false, true])
    ensures var st := Stalled(data);
            && Good(k, st, {}, {}) && st.started && !st.finished && Left(st.verified) == {1} && Banned(st.log)
            && Probing(k, st.lanes, {Peer(1), Peer(2)}, {}, true) && Keen(k, st.lanes, st.verified, {Peer(1), Peer(2)}, {}, true, {})
            && !InFlight(st.lanes) && Stuck(st.lanes, {Peer(1), Peer(2)}, {})
  {
    hide Asked, Fetched, Dropped, Ended, FloorPassed, Banned, OriginFailed, LogOk, Outputs, StalledLog, Inv, Kept, Logged, LanesOk,
      HoldsOf, PieceCount, CommitmentPieceSize;
    var st := Stalled(data);
    var t := TermsOf(k, st);
    StalledAsked(t);
    StalledInv(t, st);
    StalledLogged(k);
    StalledLanesOk(t);
    assert LivePeer(st.lanes, Peer(1));
  }
}

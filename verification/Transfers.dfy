/** One object fetched from several sources: the transfer state machine. */
module Transfers {
  import opened Wrappers
  import opened Pieces
  import opened Sorting
  import opened Estimates
  import opened RunLists
  import opened Planner
  import opened Lanes
  import opened Books
  import opened Ownership
  import opened Dispatch
  import opened States
  import opened Supply
  import opened Assigning
  import opened Holders
  import opened Answers
  import opened Timing
  import Promises

  const ENDGAME_PIECES: nat := 2
  const FLOW_POINTS: nat := 256

  class Transfer {
    const setup: Setup

    var exclusiveOrigin: bool
    var originStarted: bool
    var started: bool
    var data: seq<byte>
    var verified: seq<bool>
    var lanes: map<Source, Lane>
    var probePeers: set<Source>
    var probeAvailable: set<Source>
    var peerPending: set<nat>
    var sharedFirstByteMs: Option<real>
    var sharedRate: Option<real>
    var duplicated: set<nat>
    var floorReached: bool
    var late: bool
    var finished: bool
    var commands: seq<Command>

    /** The run so far, the commands the shell has taken, whether a peer has ever
        sent a bad piece, and whether origin has failed or sent one. */
    ghost var log: seq<Entry>
    ghost var drained: seq<Command>
    ghost var badSeen: bool
    ghost var originFailed: bool

    ghost function St(): State
      reads this
    {
      State(exclusiveOrigin, started, data, verified, lanes, peerPending, floorReached, finished, commands, log, drained,
            badSeen, originFailed)
    }

    // ---- sending queued work ----

    /** In exclusive mode origin keeps a tail back while a probe is out. */
    predicate HoldsTail(source: Source)
      reads this
    {
      && exclusiveOrigin && source == Origin && !originStarted && !floorReached
      && exists s :: s in probePeers && s in lanes && !lanes[s].retired && lanes[s].inFlight != []
    }

    function TailHeld(source: Source): (tail: nat)
      requires setup.pieceSize > 0 && source in lanes
      reads this
      ensures tail <= Since(|Flat(lanes[source].queue)|, 1) && (!exclusiveOrigin || source != Origin ==> tail == 0)
    {
      if HoldsTail(source) then Min(OriginTailCap(setup.pieceSize), Since(|Flat(lanes[source].queue)|, 1)) else 0
    }

    /** Sends one request: at most `cap` pieces from the front of the queue. */
    method SendOne(now: nat, source: Source, cap: nat, ghost orphans: set<nat>, ghost loose: set<Source>)
        returns (range: PieceRange)
      requires Good(setup, St(), orphans, loose) && !finished && source in loose && setup.pieceSize > 0
      requires source in lanes && !lanes[source].retired && lanes[source].queue != [] && cap > 0
      requires source.Peer? ==> lanes[source].inFlight == [] && cap <= PeerCap(setup.pieceSize)
      modifies `lanes, `commands, `log
      ensures Good(setup, St(), orphans, loose)
      ensures lanes == old(lanes)[source := SendFront(old(lanes)[source], cap, now)]
      ensures Sending(old(lanes)[source], lanes[source], range, cap)
      ensures FloorPassed(log) == old(FloorPassed(log))
      ensures old(log) <= log
    {
      hide Good, Work, Flat, LaneOk, PieceCount, CommitmentPieceSize;
      var lane := lanes[source];
      range := Front(lane.queue, cap);
      GoodLanes(setup, St(), orphans, loose, source);
      SendLength(TermsOf(setup, St()), source, lane, cap, now);
      SendGood(setup, St(), orphans, loose, source, cap, now);
      lanes := lanes[source := SendFront(lane, cap, now)];
      commands := commands + [CommandOf(source, range)];
      FloorNext(log, SendEntry(source, range));
      log := log + [SendEntry(source, range)];
    }

    method Issue(now: nat, source: Source, ghost orphans: set<nat>, ghost loose: set<Source>)
      requires Good(setup, St(), orphans, loose) && !finished
      requires source in lanes && !lanes[source].retired && setup.pieceSize > 0
      modifies `lanes, `originStarted, `commands, `log
      ensures Good(setup, St(), orphans, loose - {source})
      ensures source in lanes && lanes == old(lanes)[source := lanes[source]]
      ensures Issued(setup.pieceSize, exclusiveOrigin, old(TailHeld(source)), source, old(lanes)[source], lanes[source], now)
      ensures Work(lanes[source]) == Work(old(lanes)[source]) && FloorPassed(log) == old(FloorPassed(log))
      ensures old(log) <= log
    {
      hide Good, Work, PeerCap, QueueHead, LaneOk, PieceCount, CommitmentPieceSize, SentMore, SentOnce, Sending, Issued, SentSoFar, TailHeld,
        HoldsTail, Flat, HoldOf;
      ghost var all, before, first, tail := loose + {source}, lanes, lanes[source], TailHeld(source);
      UpdateSame(before, source);
      assert all - {source} == loose - {source};
      GoodLanes(setup, St(), orphans, loose, source);
      LoosenGood(setup, St(), orphans, loose, all);
      if exclusiveOrigin && source == Origin && lanes[source].inFlight != [] {
        SettleGood(setup, St(), orphans, all, source);
        NoneIssued(setup.pieceSize, tail, first, now);
        return;
      }
      var queued := |Flat(lanes[source].queue)|;
      QueueLength(TermsOf(setup, St()), source, first);
      var prefix: nat := queued - TailHeld(source);
      if source == Origin && queued > 0 {
        originStarted := true;
      }
      SentNone(setup.pieceSize, source, first, prefix, tail, now);
      SendQueue(now, source, prefix, tail, orphans, all);
      SettleGood(setup, St(), orphans, all, source);
    }

    /** Sends the queue of a source up to the tail that is held back. */
    method SendQueue(now: nat, source: Source, pieces: nat, ghost tail: nat, ghost orphans: set<nat>, ghost all: set<Source>)
      requires Good(setup, St(), orphans, all) && !finished && source in all && setup.pieceSize > 0
      requires source in lanes && !lanes[source].retired && (!exclusiveOrigin || source != Origin ==> tail == 0)
      requires exclusiveOrigin && source == Origin ==> lanes[source].inFlight == []
      requires SentSoFar(setup.pieceSize, source, lanes[source], lanes[source], pieces, tail, now)
      modifies `lanes, `commands, `log
      ensures Good(setup, St(), orphans, all)
      ensures source in lanes && lanes == old(lanes)[source := lanes[source]]
      ensures Issued(setup.pieceSize, exclusiveOrigin, tail, source, old(lanes)[source], lanes[source], now)
      ensures Work(lanes[source]) == Work(old(lanes)[source]) && FloorPassed(log) == old(FloorPassed(log))
      ensures lanes[source].queue != [] ==> lanes[source].inFlight != []
      ensures old(log) <= log
    {
      hide Good, Work, PeerCap, QueueHead, LaneOk, PieceCount, CommitmentPieceSize, SentMore, SentOnce, Sending, Issued, SentSoFar, Flat;
      ghost var before, first := lanes, lanes[source];
      UpdateSame(before, source);
      var prefix: nat := pieces;
      while lanes[source].queue != []
        invariant old(log) <= log
        invariant source in lanes && lanes == before[source := lanes[source]] && lanes[source].retired == first.retired
        invariant Good(setup, St(), orphans, all) && FloorPassed(log) == old(FloorPassed(log))
        invariant SentSoFar(setup.pieceSize, source, first, lanes[source], prefix, tail, now)
        decreases |Flat(lanes[source].queue)|
      {
        var lane := lanes[source];
        if source.Peer? && lane.inFlight != [] {
          break;
        }
        if exclusiveOrigin && source == Origin && prefix == 0 {
          break;
        }
        var cap: nat := if source.Peer? then PeerCap(setup.pieceSize)
                        else if exclusiveOrigin then prefix else QueueHead(lane);
        SentHead(setup.pieceSize, source, first, lane, prefix, tail, now);
        var range := SendOne(now, source, cap, orphans, all);
        UpdateTwice(before, source, lane, lanes[source]);
        SentNext(setup.pieceSize, exclusiveOrigin, source, first, lane, lanes[source], range, cap, prefix, tail, now);
        if source == Origin {
          prefix := prefix - (range.end - range.start);
        }
      }
      SentAll(setup.pieceSize, exclusiveOrigin, source, first, lanes[source], prefix, tail, now);
    }

    /** Queues work for a source, opening its lane if need be, and sends. */
    method Give(now: nat, source: Source, ranges: seq<PieceRange>, finishAt: real, claimed: set<nat>,
                ghost orphans: set<nat>, ghost loose: set<Source>, ghost others: set<nat>)
      requires Good(setup, St(), orphans, loose) && MayTake(setup, St(), source, ranges)
      requires claimed <= SetOf(Flat(ranges))
      requires Free(TermsOf(setup, St()), HoldsOf(lanes), others) && SetOf(Flat(ranges)) !! others
      modifies `lanes, `originStarted, `commands, `log, `peerPending
      ensures Good(setup, St(), orphans - SetOf(Flat(ranges)), loose - {source})
      ensures source in lanes && lanes == old(lanes)[source := lanes[source]] && peerPending == old(peerPending) - claimed
      ensures Given(source, LaneOf(old(lanes), source, now), lanes[source], ranges, finishAt, now)
      ensures Free(TermsOf(setup, St()), HoldsOf(lanes), others)
      ensures FloorPassed(log) == old(FloorPassed(log))
      ensures old(log) <= log
    {
      hide Good, Free, Work, Flat, Given, Issued, HoldOf, LaneOk, PieceCount, CommitmentPieceSize;
      ghost var before, l, left := lanes, LaneOf(lanes, source, now), orphans - SetOf(Flat(ranges));
      GoodFacts(setup, St(), orphans, loose);
      QueueGood(setup, St(), orphans, loose, source, ranges, finishAt, peerPending - claimed, now);
      var lane := LaneOf(lanes, source, now);
      lanes := lanes[source := lane.(queue := lane.queue + ranges, finishAt := finishAt)];
      peerPending := peerPending - claimed;
      ghost var tail := TailHeld(source);
      Issue(now, source, left, loose + {source});
      assert loose + {source} - {source} == loose - {source};
      IssuedGiven(setup.pieceSize, exclusiveOrigin, tail, source, l, ranges, finishAt, lanes[source], now);
      FreeStays(TermsOf(setup, St()), before, source, lanes[source], ranges, finishAt, others, now);
    }

    /** Carries out a plan: every assignment joins its source's queue. A lane is
        projected to be busy with it, after its earlier work in mixed mode; in
        peer-only mode the pieces are no longer pending. */
    method CarryOut(now: nat, assignments: seq<Assignment>, ghost orphans: set<nat>, ghost loose: set<Source>)
      requires Good(setup, St(), orphans, loose) && Dispatchable(setup, St(), assignments) && NoDup(PiecesOf(assignments))
      requires Free(TermsOf(setup, St()), HoldsOf(lanes), SetOf(PiecesOf(assignments)))
      modifies `lanes, `originStarted, `commands, `log, `peerPending
      ensures Good(setup, St(), orphans - SetOf(PiecesOf(assignments)), loose)
      ensures Supplied(old(lanes), lanes, now) && (AllPositive(assignments) ==> Prompt(old(lanes), lanes, now))
      ensures peerPending == if setup.peerOnly then old(peerPending) - SetOf(PiecesOf(assignments)) else old(peerPending)
      ensures |Active(lanes)| <= |Active(old(lanes))| + |assignments| && Shared(old(lanes), lanes, assignments)
      ensures forall j :: 0 <= j < |assignments| ==> Busy(lanes, assignments[j].source)
      ensures FloorPassed(log) == old(FloorPassed(log))
      ensures old(log) <= log
    {
      hide Good, Carried, Free, Given, Within, Dispatchable, Rest, Done, MayTake, PiecesOf, LaneOk, PieceCount,
        CommitmentPieceSize, Supplied, Prompt, Shared, Active, NoDup, TermsOf, HoldsOf, SetOf, PieceSet, Flat, Work, Kept,
        Fixed, Flags, LanesOk, Stuck, HeldIn, Evolved;
      ghost var st := St();
      RestStart(assignments, orphans);
      RestStart(assignments, st.pending);
      CarriedNone(lanes, assignments, now);
      for k := 0 to |assignments|
        invariant old(log) <= log
        invariant Good(setup, St(), orphans - Done(assignments, k), loose)
        invariant Free(TermsOf(setup, St()), HoldsOf(lanes), Rest(assignments, k))
        invariant Carried(st.lanes, lanes, assignments, k, now)
        invariant peerPending == if setup.peerOnly then st.pending - Done(assignments, k) else st.pending
        invariant FloorPassed(log) == FloorPassed(st.log)
      {
        CarryOne(now, assignments, k, st, orphans, loose);
      }
      RestEnd(assignments);
      CarriedAll(st.lanes, lanes, assignments, now);
    }

    /** Assignment `k` of a plan that began in `st` joins its source's queue. */
    method CarryOne(now: nat, assignments: seq<Assignment>, k: nat, ghost st: State, ghost orphans: set<nat>, ghost loose: set<Source>)
      requires k < |assignments| && Dispatchable(setup, st, assignments) && NoDup(PiecesOf(assignments))
      requires Good(setup, St(), orphans - Done(assignments, k), loose) && Carried(st.lanes, lanes, assignments, k, now)
      requires Free(TermsOf(setup, St()), HoldsOf(lanes), Rest(assignments, k)) && FloorPassed(log) == FloorPassed(st.log)
      requires peerPending == if setup.peerOnly then st.pending - Done(assignments, k) else st.pending
      requires St() == st.(lanes := lanes, commands := commands, log := log, pending := peerPending)
      modifies `lanes, `originStarted, `commands, `log, `peerPending
      ensures Good(setup, St(), orphans - Done(assignments, k + 1), loose) && Carried(st.lanes, lanes, assignments, k + 1, now)
      ensures Free(TermsOf(setup, St()), HoldsOf(lanes), Rest(assignments, k + 1)) && FloorPassed(log) == FloorPassed(st.log)
      ensures peerPending == if setup.peerOnly then st.pending - Done(assignments, k + 1) else st.pending
      ensures old(log) <= log
    {
      hide Good, Carried, Free, Given, Within, Dispatchable, Rest, Done, MayTake, PiecesOf, LaneOk, PieceCount,
        CommitmentPieceSize, NoDup;
      var a := assignments[k];
      ghost var mid := lanes;
      RestNext(assignments, k, orphans);
      RestNext(assignments, k, st.pending);
      var until := now as real + MaxR(a.projectedMs, 0.0);
      var finishAt := if setup.peerOnly then until
                      else MaxR(if a.source in lanes then lanes[a.source].finishAt else now as real, until);
      DispatchTakes(setup, st, St(), orphans - Done(assignments, k), loose, assignments, k, now);
      Give(now, a.source, a.ranges, finishAt, if setup.peerOnly then SetOf(Flat(a.ranges)) else {},
           orphans - Done(assignments, k), loose, Rest(assignments, k + 1));
      LoosenGood(setup, St(), orphans - Done(assignments, k + 1), loose - {a.source}, loose);
      CarriedNext(st.lanes, mid, assignments, k, lanes[a.source], finishAt, now);
    }

    /** Work for origin, whose lane opens if need be. */
    method QueueOrigin(now: nat, range: PieceRange, ghost orphans: set<nat>, ghost loose: set<Source>, ghost others: set<nat>)
      requires Good(setup, St(), orphans, loose) && MayTake(setup, St(), Origin, [range])
      requires Free(TermsOf(setup, St()), HoldsOf(lanes), others) && PieceSet(range) !! others
      modifies `lanes, `originStarted, `commands, `log, `peerPending
      ensures Good(setup, St(), orphans - PieceSet(range), loose)
      ensures Supplied(old(lanes), lanes, now) && peerPending == old(peerPending)
      ensures Shared(old(lanes), lanes, [Assignment(Origin, [range], 0, 0.0)])
      ensures Free(TermsOf(setup, St()), HoldsOf(lanes), others) && FloorPassed(log) == old(FloorPassed(log))
      ensures old(log) <= log
    {
      hide Good, Supplied, Free, Given, MayTake, LaneOk, PieceCount, CommitmentPieceSize, Shared;
      ghost var before := lanes;
      FlatOne(range);
      SuppliedSame(lanes, now);
      var finishAt := if Origin in lanes then lanes[Origin].finishAt else now as real;
      Give(now, Origin, [range], finishAt, {}, orphans, loose, others);
      LoosenGood(setup, St(), orphans - PieceSet(range), loose - {Origin}, loose);
      ghost var one := [Assignment(Origin, [range], 0, 0.0)];
      SharedNone(before);
      assert one[..0] == [] && one[..1] == one;
      SharedGiven(before, before, one, 0, lanes[Origin], finishAt, now);
      SuppliedNext(before, before, Origin, lanes[Origin], [range], finishAt, now);
    }

    // ---- the end ----

    /** Cancels every peer still sending and empties the lanes. */
    method CloseOut() returns (ghost keys: seq<Source>)
      modifies `finished, `peerPending, `lanes, `commands
      ensures finished && peerPending == {} && Emptied(old(lanes), lanes)
      ensures forall s :: s in keys <==> s in old(lanes)
      ensures commands == old(commands) + CancelsFor(old(lanes), keys)
    {
      finished, peerPending := true, {};
      var order := InOrder(lanes.Keys);
      keys := order;
      ghost var done: set<Source> := {};
      assert commands == old(commands) + CancelsFor(old(lanes), order[..0]);
      hide CancelsFor;
      for i := 0 to |order|
        invariant finished && peerPending == {} && commands == old(commands) + CancelsFor(old(lanes), order[..i])
        invariant lanes.Keys == old(lanes).Keys
        invariant forall j :: 0 <= j < |order| ==> (order[j] in done <==> j < i)
        invariant forall s :: s in lanes ==> lanes[s] == if s in done then EmptiedLane(old(lanes)[s]) else old(lanes)[s]
      {
        var source := order[i];
        CancelsStep(old(lanes), order, i, old(commands));
        commands := commands + CancelOf(lanes[source], source);
        lanes := lanes[source := EmptiedLane(lanes[source])];
        done := done + {source};
      }
      assert order[..|order|] == order;
    }

    /** `before` is the transfer before the answer that ends it, if one does. */
    method Fail(ghost before: State, ghost orphans: set<nat>, ghost loose: set<Source>)
      requires Good(setup, before, orphans, loose) && !before.finished && Worn(before, St())
      modifies `finished, `peerPending, `lanes, `commands, `log
      ensures Good(setup, St(), {}, {}) && finished && Emptied(old(lanes), lanes)
      ensures log != [] && log[|log| - 1] == Out(Command.Fail) && Newly(old(log), log, Out(Command.Fail))
      ensures old(log) <= log
      ensures forall p :: Busy(old(lanes), Peer(p)) ==> Newly(old(log), log, Out(Cancel(p)))
    {
      hide Good, Emptied, SameRoster, LaneOk, PieceCount, CommitmentPieceSize;
      ghost var now := St();
      ghost var keys := CloseOut();
      ghost var cancels := CancelsFor(now.lanes, keys);
      CancelsAll(now.lanes, keys);
      commands := commands + [Command.Fail];
      ClosedCancels(log, now.lanes, keys, Command.Fail);
      log := log + Outs(cancels) + [Out(Command.Fail)];
      CloseGood(setup, before, now, orphans, loose, lanes, cancels, Command.Fail, data);
    }

    /** Origin cannot be repaired or replaced: its fault fails the transfer. */
    method Blame(ghost before: State, ghost orphans: set<nat>, ghost loose: set<Source>)
      requires Good(setup, before, orphans, loose) && !before.finished
      requires St() == before.(lanes := lanes, verified := verified, data := data) && Worn(before, St())
      modifies `finished, `peerPending, `lanes, `commands, `log, `originFailed
      ensures Good(setup, St(), {}, {}) && finished && originFailed && old(log) <= log
      ensures Newly(old(log), log, Out(Command.Fail))
    {
      hide Good, Emptied, Newly, SameRoster, LaneOk, PieceCount, CommitmentPieceSize;
      NoteGood(setup, before, orphans, loose, OriginFault);
      log, originFailed := log + [OriginFault], true;
      ghost var told := log;
      Fail(before.(log := told, faulted := true), orphans, loose);
      NewlyFrom(old(log), told, log, Out(Command.Fail));
    }

    /** Every piece verified: deliver the object if the whole of it matches. */
    method Finish(ghost orphans: set<nat>, ghost loose: set<Source>)
      requires Good(setup, St(), orphans, loose) && !finished && Left(verified) == {}
      modifies `finished, `peerPending, `lanes, `commands, `log, `data
      ensures Good(setup, St(), {}, {}) && finished && Emptied(old(lanes), lanes)
      ensures log != [] && log[|log| - 1] == Out(if setup.sha(old(data)) == setup.whole then Deliver(old(data)) else Command.Fail)
      ensures setup.sha(old(data)) != setup.whole ==> data == old(data)
      ensures old(log) <= log
      ensures forall p :: Busy(old(lanes), Peer(p)) ==> Newly(old(log), log, Out(Cancel(p)))
    {
      hide Good, Emptied, LanesOk, Flags, LaneOk, PieceCount, CommitmentPieceSize;
      ghost var now := St();
      WornSame(now);
      if setup.sha(data) != setup.whole {
        Fail(now, orphans, loose);
        return;
      }
      GoodFacts(setup, now, orphans, loose);
      assert Sound(setup, data) by {
        forall i: nat | i < |verified| ensures verified[i] {
          assert i !in Left(verified);
        }
      }
      ghost var keys := CloseOut();
      ghost var cancels := CancelsFor(now.lanes, keys);
      CancelsAll(now.lanes, keys);
      var bytes := data;
      commands := commands + [Deliver(bytes)];
      data := [];
      ClosedCancels(log, now.lanes, keys, Deliver(bytes));
      log := log + Outs(cancels) + [Out(Deliver(bytes))];
      CloseGood(setup, now, now, orphans, loose, lanes, cancels, Deliver(bytes), data);
    }

    // ---- assigning work ----

    method LivePeers(now: nat) returns (peers: seq<Estimate>)
      requires forall s :: s in lanes ==> lanes[s].estimate.source == s
      ensures LiveList(lanes, now, sharedFirstByteMs, peers)
    {
      var current, shared := lanes, sharedFirstByteMs;
      var live := set s | s in lanes && LivePeer(lanes, s);
      var keys := InOrder(live);
      forall j | 0 <= j < |keys| ensures LivePeer(current, keys[j]) {
        assert keys[j] in keys;
      }
      peers := seq(|keys|, j requires 0 <= j < |keys| && keys[j] in current => Backlogged(current[keys[j]], now, shared));
      forall s | LivePeer(lanes, s) ensures exists j :: 0 <= j < |peers| && peers[j].source == s {
        assert s in keys;
        var j :| 0 <= j < |keys| && keys[j] == s;
        assert peers[j].source == s;
      }
    }

    /** The probes, one piece for each available probe peer while pieces and
        holders last. */
    method Probes(peers: seq<Estimate>, input: PlanInput) returns (assignments: seq<Assignment>)
      requires Fixed(setup, verified) && input.size == setup.size && Below(input.needed, |setup.hashes|)
      modifies `probeAvailable
      ensures probeAvailable <= old(probeAvailable)
      ensures |assignments| <= |input.needed| && |assignments| <= Max(input.maxHolders, 1)
      ensures PiecesOf(assignments) == input.needed[..|assignments|]
      ensures forall j :: 0 <= j < |assignments| ==> ProbeAt(assignments[j], peers, old(probeAvailable), |setup.hashes|)
    {
      hide Flat, RunsOf, ProbeAt, PieceBytes, Fixed;
      assignments := [];
      var limit := Max(input.maxHolders, 1);
      var i := 0;
      while i < |peers| && |assignments| < |input.needed| && |assignments| < limit
        invariant 0 <= i <= |peers| && probeAvailable <= old(probeAvailable)
        invariant |assignments| <= |input.needed| && |assignments| <= limit
        invariant PiecesOf(assignments) == input.needed[..|assignments|]
        invariant forall j :: 0 <= j < |assignments| ==> ProbeAt(assignments[j], peers, old(probeAvailable), |setup.hashes|)
      {
        var source := peers[i].source;
        if source in probePeers && source in probeAvailable {
          probeAvailable := probeAvailable - {source};
          var index := input.needed[|assignments|];
          var bytes := PieceBytes(setup.size, setup.pieceSize, index);
          var timed := ResolveOne(peers[i], input);
          var probe := Assignment(source, [PieceRange(index, index + 1)], bytes, timed.firstByte + bytes as real / timed.rate);
          ProbeFits(setup, verified, peers, i, old(probeAvailable), index, timed, probe);
          PiecesOfSnoc(assignments, probe);
          assert input.needed[..|assignments| + 1] == input.needed[..|assignments|] + [index];
          assignments := assignments + [probe];
        }
        i := i + 1;
      }
    }

    /** Assignments for the needed pieces: probes first, then a plan. */
    method PlanWork(now: nat, needed: seq<nat>) returns (assignments: seq<Assignment>, ghost peers: seq<Estimate>)
      requires Fixed(setup, verified) && Below(needed, |setup.hashes|) && needed != []
      requires Origin in lanes && forall s :: s in lanes ==> lanes[s].estimate.source == s
      modifies `probeAvailable, `late
      ensures PiecesOf(assignments) == needed && AllPositive(assignments) && probeAvailable <= old(probeAvailable)
      ensures forall j :: 0 <= j < |assignments| ==> WorkAt(lanes, assignments[j], |setup.hashes|)
      ensures LiveList(lanes, now, sharedFirstByteMs, peers)
      ensures Divided(WorkInput(setup, lanes[Origin].estimate, peers, sharedFirstByteMs, sharedRate, now, needed), probePeers,
                      old(probeAvailable), |setup.hashes|, assignments, late)
    {
      hide Planned, Sourced, Workable, PiecesOf, TermsOf, HoldsOf, SetOf, PieceSet, NoDup, Within, Work, Kept, Flags,
        LanesOk, Stuck, HeldIn, Evolved;
      var live := LivePeers(now);
      peers := live;
      var input := WorkInput(setup, lanes[Origin].estimate, live, sharedFirstByteMs, sharedRate, now, needed);
      if probePeers == {} {
        var plan, parts := MakePlan(input);
        PlanAssigns(input, plan, parts, |setup.hashes|);
        SourcedWork(lanes, input, plan.assignments, |setup.hashes|);
        WorkPositive(lanes, plan.assignments, |setup.hashes|);
        late := plan.late;
        return plan.assignments, live;
      }
      assignments := PlanProbes(input);
    }

    /** Probes first, and a plan for the rest among the other peers. */
    method PlanProbes(input: PlanInput) returns (assignments: seq<Assignment>)
      requires Fixed(setup, verified) && Below(input.needed, |setup.hashes|) && input.needed != [] && input.size == setup.size
      requires input.origin.Some? && input.origin.value.source == Origin && probePeers != {}
      requires forall j :: 0 <= j < |input.peers| ==> LivePeer(lanes, input.peers[j].source)
      modifies `probeAvailable, `late
      ensures PiecesOf(assignments) == input.needed && AllPositive(assignments) && probeAvailable <= old(probeAvailable)
      ensures forall j :: 0 <= j < |assignments| ==> WorkAt(lanes, assignments[j], |setup.hashes|)
      ensures Divided(input, probePeers, old(probeAvailable), |setup.hashes|, assignments, late)
    {
      hide Planned, Sourced, Workable, PiecesOf, PieceCount, CommitmentPieceSize;
      var probes := Probes(input.peers, input);
      var tailInput := TailInput(input, probePeers, |probes|);
      var tail, parts := MakePlan(tailInput);
      PlanAssigns(tailInput, tail, parts, |setup.hashes|);
      PiecesOfConcat(probes, tail.assignments);
      assert input.needed == input.needed[..|probes|] + input.needed[|probes|..];
      SourcedWork(lanes, tailInput, tail.assignments, |setup.hashes|);
      ProbesWork(lanes, probes, input.peers, old(probeAvailable), |setup.hashes|);
      assignments := probes + tail.assignments;
      WorkPositive(lanes, assignments, |setup.hashes|);
      late := LatestOf(assignments) > input.availableMs;
      assert DividedBy(input, probePeers, old(probeAvailable), |setup.hashes|, assignments, late, probes, tail, parts);
    }

    /** A one-piece object has no source prefix beside a probe: origin keeps it. */
    method KeepAtOrigin(now: nat, needed: seq<nat>, ghost orphans: set<nat>, ghost loose: set<Source>)
      requires Good(setup, St(), orphans, loose) && !setup.peerOnly && Assignable(setup, St(), orphans, needed) && |needed| == 1
      modifies `lanes, `originStarted, `commands, `log, `peerPending
      ensures Good(setup, St(), {}, loose) && Supplied(old(lanes), lanes, now)
      ensures Shared(old(lanes), lanes, [Assignment(Origin, [PieceRange(needed[0], needed[0] + 1)], 0, 0.0)])
      ensures old(log) <= log
    {
      hide Good, Supplied, Free, LaneOk, PieceCount, CommitmentPieceSize, Shared;
      GoodFacts(setup, St(), orphans, loose);
      AssignableFacts(setup, St(), orphans, loose, needed);
      var range := PieceRange(needed[0], needed[0] + 1);
      OneRange(needed);
      FreeIsFreeOf(TermsOf(setup, St()), HoldsOf(lanes), Origin, SetOf(needed));
      QueueOrigin(now, range, orphans, loose, {});
      OrphansGood(setup, St(), orphans - PieceSet(range), {}, loose);
    }

    /** Pieces for the sources of a mixed transfer. */
    method AssignMixed(now: nat, needed: seq<nat>, ghost orphans: set<nat>, ghost loose: set<Source>)
      requires Good(setup, St(), orphans, loose) && !setup.peerOnly && Assignable(setup, St(), orphans, needed)
      modifies `lanes, `originStarted, `commands, `log, `peerPending, `probeAvailable, `late
      ensures Good(setup, St(), {}, loose) && Supplied(old(lanes), lanes, now)
      ensures old(log) <= log
      ensures AssignedMixed(old(lanes), old(probeAvailable), now, needed, old(originStarted))
    {
      hide Good, Supplied, Free, NoDup, Fixed, LaneOk, PieceCount, CommitmentPieceSize, LiveList, Divided, Shared,
        WorkInput, AssignedMixed, Dispatchable, WorkAt, AllPositive, Within, PieceSet, Flat, Below, HoldsOf, TermsOf, Prompt,
        LanesOk, Stuck, Evolved;
      ghost var first, available, begun := lanes, probeAvailable, originStarted;
      GoodFacts(setup, St(), orphans, loose);
      AssignableFacts(setup, St(), orphans, loose, needed);
      SuppliedSame(lanes, now);
      if needed == [] {
        OrphansGood(setup, St(), orphans, {}, loose);
        SharedNone(lanes);
        NoneAssigned(first, available, now, begun);
        return;
      }
      if exclusiveOrigin && !originStarted && |needed| == 1 {
        KeepAtOrigin(now, needed, orphans, loose);
        OneAssigned(first, available, now, needed, begun);
        return;
      }
      // Origin's lane is open from the start on, so no plan is empty.
      ghost var peers;
      var assignments;
      assignments, peers := PlanWork(now, needed);
      WorkFits(setup, St(), orphans, needed, assignments);
      CarryOut(now, assignments, orphans, loose);
      OrphansGood(setup, St(), orphans - SetOf(needed), {}, loose);
      PlanAssigned(first, available, now, needed, begun, peers, assignments);
    }

    /** What became of the needed pieces: origin keeps the piece of a one-piece object
        in exclusive mode, and otherwise they were divided as planned. */
    ghost predicate AssignedMixed(first: map<Source, Lane>, available: set<Source>, now: nat, needed: seq<nat>, begun: bool)
      reads this`lanes, this`exclusiveOrigin, this`probePeers, this`sharedFirstByteMs, this`sharedRate, this`late
    {
      if needed == [] then Shared(first, lanes, [])
      else if exclusiveOrigin && !begun && |needed| == 1 then
        Shared(first, lanes, [Assignment(Origin, [PieceRange(needed[0], needed[0] + 1)], 0, 0.0)])
      else
        Origin in first && Assigned(setup, first, lanes, probePeers, available, sharedFirstByteMs, sharedRate, now, needed, late)
    }

    lemma NoneAssigned(first: map<Source, Lane>, available: set<Source>, now: nat, begun: bool)
      requires Shared(first, lanes, [])
      ensures AssignedMixed(first, available, now, [], begun)
    {
    }

    lemma OneAssigned(first: map<Source, Lane>, available: set<Source>, now: nat, needed: seq<nat>, begun: bool)
      requires exclusiveOrigin && !begun && |needed| == 1
      requires Shared(first, lanes, [Assignment(Origin, [PieceRange(needed[0], needed[0] + 1)], 0, 0.0)])
      ensures AssignedMixed(first, available, now, needed, begun)
    {
    }

    lemma PlanAssigned(first: map<Source, Lane>, available: set<Source>, now: nat, needed: seq<nat>, begun: bool, peers: seq<Estimate>,
                       assignments: seq<Assignment>)
      requires Origin in first && needed != [] && !(exclusiveOrigin && !begun && |needed| == 1)
      requires LiveList(first, now, sharedFirstByteMs, peers) && Shared(first, lanes, assignments)
      requires Divided(WorkInput(setup, first[Origin].estimate, peers, sharedFirstByteMs, sharedRate, now, needed), probePeers,
                       available, |setup.hashes|, assignments, late)
      ensures AssignedMixed(first, available, now, needed, begun)
    {
      hide LiveList, Divided, Shared, WorkInput;
    }

    // ---- peer-only mode ----

    /** Some holder is asked, or none can be. */
    ghost predicate NotStalled()
      reads this`lanes, this`probePeers, this`probeAvailable
    {
      InFlight(lanes) || Stuck(lanes, probePeers, probeAvailable)
    }

    ghost predicate Eager(lax: set<Source>)
      reads this
    {
      Keen(setup, lanes, verified, probePeers, probeAvailable, badSeen, lax)
    }

    /** Gives idle measured holders their share of the pending pieces, then idle
        probes one piece each. Fails at the floor and when no holder is left. */
    method Refill(now: nat, ghost loose: set<Source>, ghost lax: set<Source>)
      requires Good(setup, St(), {}, loose) && setup.peerOnly && started && !finished
      requires Probing(setup, lanes, probePeers, probeAvailable, badSeen)
      modifies `lanes, `originStarted, `commands, `log, `peerPending, `probeAvailable, `late, `finished, `floorReached
      ensures Good(setup, St(), {}, loose)
      ensures finished ==> now >= FloorAt(setup) || NoneLive(old(lanes))
      ensures !finished ==>
        && Supplied(old(lanes), lanes, now) && Probing(setup, lanes, probePeers, probeAvailable, badSeen)
        && (old(Eager(lax)) ==> Eager(lax)) && floorReached == old(floorReached)
        && (loose == {} && Left(verified) != {} ==> NotStalled())
      ensures old(log) <= log
    {
      hide Good, Supplied, Probing, Keen, InFlight, Emptied, Pending, ProbesOut, Active, Measured, Available, HeldIn, Left,
        Flags, LaneOk, PieceCount, CommitmentPieceSize, TermsOf, HoldsOf, SetOf, PieceSet, NoDup, Within, Flat, Work, Kept,
        Fixed, LanesOk, Stuck, Evolved, RetiredLane, Answered, Leaves, NoneLive, Redundant, Without, Settled, FlightsWithin,
        HoldOf, LivePeer, EvolvedAt, SuppliedAt;
      if now >= FloorAt(setup) {
        floorReached := true;
        FloorFlagGood(setup, old(St()), {}, loose);
        GiveUp(loose);
        return;
      }
      StillPendingGood(setup, St(), loose);
      peerPending := StillPending(peerPending, verified, lanes);
      if NoneLive(lanes) {
        GiveUp(loose);
        return;
      }
      SuppliedSame(lanes, now);
      var slots := Since(Max(setup.maxHolders, 1), |Active(lanes)|);
      if slots == 0 || peerPending == {} {
        StillInFlight(setup, St(), loose);
        return;
      }
      ghost var first, st := lanes, St();
      RefillMeasured(now, slots, loose);
      ghost var mid := lanes;
      RefillProbes(now, loose);
      SuppliedTrans(first, mid, lanes, now);
      ProbingStays(setup, first, lanes, verified, probePeers, old(probeAvailable), probeAvailable, badSeen, lax, now);
      SuppliedInFlight(mid, lanes, now);
      OutFewer(old(probeAvailable), probeAvailable, lanes, verified);
      RefillMoves(setup, st, mid, lanes, loose, probePeers, old(probeAvailable), probeAvailable, badSeen, now);
    }

    method GiveUp(ghost loose: set<Source>)
      requires Good(setup, St(), {}, loose) && !finished
      modifies `finished, `peerPending, `lanes, `commands, `log
      ensures Good(setup, St(), {}, loose) && finished
      ensures old(log) <= log
    {
      hide Good, LaneOk, PieceCount, CommitmentPieceSize;
      WornSame(St());
      Fail(St(), {}, loose);
      LoosenGood(setup, St(), {}, {}, loose);
    }

    /** Idle measured holders take all the pending pieces, if there are any. */
    method RefillMeasured(now: nat, slots: nat, ghost loose: set<Source>)
      requires Good(setup, St(), {}, loose) && setup.peerOnly && started && !finished
      requires Pending(setup, St()) && peerPending != {} && slots > 0 && |Active(lanes)| + slots <= Max(setup.maxHolders, 1)
      modifies `lanes, `originStarted, `commands, `log, `peerPending, `late
      ensures Good(setup, St(), {}, loose) && Pending(setup, St()) && Supplied(old(lanes), lanes, now)
      ensures |Active(lanes)| <= Max(setup.maxHolders, 1)
      ensures if Measured(old(lanes), probePeers) == {} then lanes == old(lanes) && peerPending == old(peerPending)
              else InFlight(lanes)
      ensures old(log) <= log
    {
      hide Good, Supplied, Planned, Sourced, Pending, HeldIn, Free, Dispatchable, Active, Workable, LaneOk, PieceCount,
        CommitmentPieceSize, TermsOf, HoldsOf, SetOf, PieceSet, Flat, Work, Stuck;
      GoodFacts(setup, St(), {}, loose);
      LanesKeyed(setup, St(), loose);
      SuppliedSame(lanes, now);
      var keys := InOrder(Measured(lanes, probePeers));
      NoneListed(Measured(lanes, probePeers), keys);
      if keys == [] {
        return;
      }
      var current := lanes;
      assert forall j :: 0 <= j < |keys| ==> keys[j] in keys && keys[j] in current;
      var idle := seq(|keys|, j requires 0 <= j < |keys| && keys[j] in current => current[keys[j]].estimate);
      var needed := Listed(peerPending, |verified|);
      PendingList(setup, St(), needed);
      var input := PlanInput(setup.size, needed, idle, None, sharedFirstByteMs, sharedRate,
                             (FloorAt(setup) - now) as real, slots);
      var plan, parts := MakePlan(input);
      PlanAssigns(input, plan, parts, |setup.hashes|);
      PlanSize(input, plan, parts);
      late := plan.late;
      IdleFits(setup, St(), input, plan.assignments, probePeers);
      CarryOut(now, plan.assignments, {}, loose);
      assert {} - SetOf(PiecesOf(plan.assignments)) == {};
      PendingNext(setup, St());
      InFlightBusy(lanes, plan.assignments);
    }

    /** Idle probes take one pending piece each while holders may be added. */
    method RefillProbes(now: nat, ghost loose: set<Source>)
      requires Good(setup, St(), {}, loose) && setup.peerOnly && started && !finished
      requires Pending(setup, St()) && |Active(lanes)| <= Max(setup.maxHolders, 1)
      modifies `lanes, `originStarted, `commands, `log, `peerPending, `probeAvailable, `late
      ensures Good(setup, St(), {}, loose) && Supplied(old(lanes), lanes, now)
      ensures |Active(lanes)| <= Max(setup.maxHolders, 1) && ProbesOut(old(probeAvailable), probeAvailable, lanes, verified)
      ensures (old(peerPending) == {} || |Active(old(lanes))| >= Max(setup.maxHolders, 1)
               || Available(old(lanes), old(probeAvailable)) == {}) || InFlight(lanes)
      ensures old(log) <= log
    {
      hide Good, Supplied, Free, Active, Given, MayTake, ProbesOut, Busy, InFlight, Useful, Pending, Unoccupied,
        Available, Left, LaneOk, PieceCount, CommitmentPieceSize;
      ghost var first, offered := lanes, probeAvailable;
      LanesKeyed(setup, St(), loose);
      SuppliedSame(lanes, now);
      var slots := Since(Max(setup.maxHolders, 1), |Active(lanes)|);
      var ready := InOrder(Available(lanes, probeAvailable));
      AvailableReady(lanes, probeAvailable, ready);
      OutNone(probeAvailable, lanes, verified);
      var i: nat := 0;
      while i < slots && i < |ready| && peerPending != {}
        invariant old(log) <= log
        invariant i <= slots && i <= |ready| && Good(setup, St(), {}, loose) && Pending(setup, St())
        invariant Supplied(first, lanes, now) && |Active(lanes)| <= |Active(first)| + i
        invariant ProbesOut(offered, probeAvailable, lanes, verified)
        invariant if i > 0 then InFlight(lanes) else peerPending == old(peerPending)
        invariant forall j :: i <= j < |ready| ==> Unoccupied(lanes, ready[j])
      {
        var source := ready[i];
        ghost var mid, before := lanes, probeAvailable;
        ProbeOne(now, source, loose);
        UnoccupiedNext(mid, ready, i, lanes[source]);
        SuppliedTrans(first, mid, lanes, now);
        OutNext(offered, before, mid, source, lanes, verified);
        ActiveMore(mid, source, lanes[source]);
        i := i + 1;
      }
    }

    /** The least pending piece for an idle probe. */
    method ProbeOne(now: nat, source: Source, ghost loose: set<Source>)
      requires Good(setup, St(), {}, loose) && setup.peerOnly && started && !finished
      requires Pending(setup, St()) && peerPending != {} && Unoccupied(lanes, source)
      modifies `lanes, `originStarted, `commands, `log, `peerPending, `probeAvailable, `late
      ensures Good(setup, St(), {}, loose) && Pending(setup, St()) && Supplied(old(lanes), lanes, now)
      ensures source in lanes && source in old(lanes) && lanes == old(lanes)[source := lanes[source]]
      ensures Useful(lanes, verified, source) && old(lanes)[source].inFlight <= lanes[source].inFlight
      ensures probeAvailable == old(probeAvailable) - {source}
      ensures old(log) <= log
    {
      hide Good, Supplied, Free, Active, Given, MayTake, Busy, InFlight, Useful, Pending, Unoccupied, Left, LaneOk,
        PieceCount, CommitmentPieceSize;
      var index := LeastPiece(peerPending);
      UnoccupiedLane(lanes, source);
      probeAvailable := probeAvailable - {source};
      var projected := ProbeTime(lanes[source], index);
      late := late || projected > (FloorAt(setup) - now) as real;
      ProbeTakes(setup, St(), loose, source, index);
      PendingLeft(setup, St());
      GiveProbe(now, source, PieceRange(index, index + 1), now as real + projected, loose);
      PendingNext(setup, St());
    }

    /** One pending piece for an idle holder. */
    method GiveProbe(now: nat, source: Source, range: PieceRange, finishAt: real, ghost loose: set<Source>)
      requires Good(setup, St(), {}, loose) && setup.peerOnly && Unoccupied(lanes, source) && range.start in Left(verified)
      requires range.end == range.start + 1 && MayTake(setup, St(), source, [range])
      requires Free(TermsOf(setup, St()), HoldsOf(lanes), peerPending - {range.start})
      modifies `lanes, `originStarted, `commands, `log, `peerPending
      ensures Good(setup, St(), {}, loose) && Supplied(old(lanes), lanes, now) && peerPending == old(peerPending) - {range.start}
      ensures source in lanes && lanes == old(lanes)[source := lanes[source]]
      ensures Useful(lanes, verified, source) && old(lanes)[source].inFlight <= lanes[source].inFlight
      ensures Free(TermsOf(setup, St()), HoldsOf(lanes), peerPending)
      ensures old(log) <= log
    {
      hide Good, Supplied, Free, Given, MayTake, Useful, Unoccupied, LaneOk, PieceCount, CommitmentPieceSize;
      UnoccupiedLane(lanes, source);
      ghost var mid := lanes;
      OneRange([range.start]);
      assert range == PieceRange(range.start, range.start + 1);
      assert SetOf([range.start]) == {range.start};
      Give(now, source, [range], finishAt, {range.start}, {}, loose, peerPending - {range.start});
      assert {} - SetOf(Flat([range])) == {};
      LoosenGood(setup, St(), {}, loose - {source}, loose);
      SuppliedSame(mid, now);
      SuppliedNext(mid, mid, source, lanes[source], [range], finishAt, now);
      GivenFlight(setup, St(), loose, source, LaneOf(mid, source, now), [range], finishAt, now);
      UsefulProbe(mid, verified, source, lanes[source], range.start, finishAt, now);
    }

    /** The projected time of a probe's one piece. */
    function ProbeTime(lane: Lane, index: nat): real
      reads this`sharedFirstByteMs, this`sharedRate
    {
      var first := Or(NonNegative(lane.estimate.firstByteMs), NonNegative(sharedFirstByteMs)).GetOr(0.0);
      var rate := Or(Positive(lane.estimate.rate), Positive(sharedRate)).GetOr(MIN_RATE);
      if rate <= 0.0 then first else first + PieceBytes(setup.size, setup.pieceSize, index) as real / rate
    }

    // ---- assigning, and sources that leave ----

    ghost predicate ProbesKept()
      reads this
    {
      Probing(setup, lanes, probePeers, probeAvailable, badSeen)
    }

    lemma MixedProbes()
      requires !setup.peerOnly
      ensures ProbesKept() && Eager({})
    {
      hide Probing, Keen;
      MixedProbing(setup, lanes, verified, probePeers, probeAvailable, badSeen, {});
    }

    /** Assigns pieces that nobody holds. In mixed mode it never fails. */
    method Assign(now: nat, needed: seq<nat>, ghost orphans: set<nat>, ghost loose: set<Source>, ghost lax: set<Source>)
      requires Good(setup, St(), orphans, loose) && Assignable(setup, St(), orphans, needed) && ProbesKept()
      modifies `lanes, `originStarted, `commands, `log, `peerPending, `probeAvailable, `late, `finished, `floorReached
      ensures Good(setup, St(), {}, loose)
      ensures finished ==> setup.peerOnly && (now >= FloorAt(setup) || NoneLive(old(lanes)))
      ensures !finished ==> Supplied(old(lanes), lanes, now) && ProbesKept() && (old(Eager(lax)) ==> Eager(lax))
      ensures !finished ==> floorReached == old(floorReached)
      ensures !finished && setup.peerOnly && loose == {} && Left(verified) != {} ==> NotStalled()
      ensures !setup.peerOnly ==> AssignedMixed(old(lanes), old(probeAvailable), now, needed, old(originStarted))
      ensures old(log) <= log
    {
      hide Good, Probing, Keen, Supplied, InFlight, LaneOk, PieceCount, CommitmentPieceSize, AssignedMixed;
      if setup.peerOnly {
        var more := set i | i in needed && i < |verified| && !verified[i] && !HeldIn(lanes, i);
        PendMore(setup, St(), orphans, loose, needed, more);
        peerPending := peerPending + more;
        Refill(now, loose, lax);
      } else {
        AssignMixed(now, needed, orphans, loose);
        MixedProbing(setup, lanes, verified, probePeers, probeAvailable, badSeen, lax);
      }
    }

    /** Takes a peer out of the transfer and returns the pieces that nobody else
        holds. `before` is the transfer before the peer's answer, if that is why
        it leaves, and `lost` what that answer failed to bring. `note` is the
        command just issued about the peer. */
    method Retire(peer: nat, ghost before: State, ghost lost: set<nat>, ghost note: Option<Command>, ghost orphans: set<nat>,
                  ghost loose: set<Source>)
        returns (pieces: seq<nat>)
      requires Good(setup, before, orphans, loose) && !before.finished && before.started && AboutPeer(setup, note, peer)
      requires commands == before.commands + Noted(note)
      requires Answered(setup, before, St().(commands := before.commands), peer)
      requires Leaves(before.lanes, lanes, verified, peer, lost)
      modifies `lanes, `log
      ensures Good(setup, St().(banned := badSeen || note == Some(Ban(peer))), orphans + SetOf(pieces) + lost, loose)
      ensures old(Peer(peer) in lanes) && lanes == old(lanes)[Peer(peer) := RetiredLane(old(lanes)[Peer(peer)])]
      ensures pieces == Listed(Unfinished(old(lanes), verified, Peer(peer)), |verified|)
      ensures Ascending(pieces) && forall i :: i in pieces ==> i in Left(verified) && !HeldIn(lanes, i)
      ensures FloorPassed(log) == FloorPassed(before.log) && (FloorPassed(log) ==> pieces == [])
      ensures old(log) <= log
      ensures Newly(old(log), log, Gone(Peer(peer))) && (note.Some? ==> Newly(old(log), log, Out(note.value)))
    {
      hide Good, Unfinished, Left, Leaves, AboutPeer, Kept, LaneOk, PieceCount, CommitmentPieceSize, TermsOf, HoldsOf,
        SetOf, PieceSet, NoDup, Within, Flat, Work, Fixed, Flags, Stuck, HeldIn, Evolved;
      ghost var st := St().(commands := before.commands);
      assert Peer(peer) in lanes && !lanes[Peer(peer)].retired by {
        LeavesLane(before.lanes, lanes, verified, peer, lost);
      }
      pieces := Listed(Unfinished(lanes, verified, Peer(peer)), |verified|);
      RetirePieces(setup, before, st, orphans, loose, peer, lost, pieces);
      RetireGood(setup, before, st, orphans, loose, peer, SetOf(pieces) + lost, note);
      RetireFloor(before.log, peer, note);
      lanes := lanes[Peer(peer) := RetiredLane(lanes[Peer(peer)])];
      log := before.log + [Gone(Peer(peer))] + NoteEntry(note);
      assert orphans + SetOf(pieces) + lost == orphans + (SetOf(pieces) + lost);
    }

    /** The time a move has to beat: origin's projection, or the floor if origin
        is behind. */
    function MoveTime(now: nat, origin: Lane): real {
      var floor := FloorAt(setup) as real;
      (if origin.finishAt > now as real then MinR(origin.finishAt, floor) else floor) - now as real
    }

    function MoveInput(now: nat, pending: seq<nat>, idle: seq<Estimate>): PlanInput
      requires Origin in lanes
      reads this`lanes, this`sharedFirstByteMs, this`sharedRate
    {
      PlanInput(setup.size, pending, idle, None, sharedFirstByteMs, sharedRate, MoveTime(now, lanes[Origin]), |idle|)
    }

    /** The busy peers that do not work on origin's pieces and will be idle soon. */
    function BusyPeers(): set<Source>
      requires Origin in lanes
      reads this`lanes, this`verified, this`exclusiveOrigin, this`probePeers
    {
      set s | s in lanes && LivePeer(lanes, s) && s !in Measured(lanes, probePeers) &&
              !HoldsAny(lanes[s], Owed(lanes[Origin], verified, exclusiveOrigin))
    }

    /** How many pieces move: what the idle peers can finish in time, and no more
        than their share beside the busy peers. */
    function MoveAmount(now: nat, idle: seq<Estimate>): nat
      requires Origin in lanes
      reads this`lanes, this`verified, this`exclusiveOrigin, this`probePeers, this`sharedFirstByteMs, this`sharedRate
    {
      var pending, time := MoveCandidates(lanes, verified, exclusiveOrigin), MoveTime(now, lanes[Origin]);
      if pending == [] || idle == [] || time <= 0.0 then 0
      else
        Min(TakeLimit(Resolve(idle, MoveInput(now, pending, idle)), time, setup.pieceSize),
            ShareOf(|pending|, |idle|, |BusyPeers()|))
    }

    lemma MoveAtMost(now: nat, idle: seq<Estimate>)
      requires Origin in lanes
      ensures MoveAmount(now, idle) <= |MoveCandidates(lanes, verified, exclusiveOrigin)|
      ensures MoveAmount(now, idle) > 0 ==>
        && idle != [] && MoveCandidates(lanes, verified, exclusiveOrigin) != []
        && MoveAmount(now, idle) <=
             TakeLimit(Resolve(idle, MoveInput(now, MoveCandidates(lanes, verified, exclusiveOrigin), idle)),
                       MoveTime(now, lanes[Origin]), setup.pieceSize)
    {
      hide TakeLimit, ShareOf, MoveCandidates, BusyPeers, MoveTime;
      if idle != [] {
        ShareAtMost(|MoveCandidates(lanes, verified, exclusiveOrigin)|, |idle|, |BusyPeers()|);
      }
    }

    /** The move of origin's owed pieces: a tail of those no peer holds, split
        among the idle measured peers. */
    method PlanMove(now: nat) returns (assignments: seq<Assignment>, ghost idle: seq<Estimate>)
      requires Good(setup, St(), {}, {}) && Origin in lanes
      ensures IdleList(lanes, probePeers, idle) && (assignments == [] <==> MoveAmount(now, idle) == 0)
      ensures assignments != [] ==> Movable(setup, St(), assignments) && |PiecesOf(assignments)| == MoveAmount(now, idle)
      ensures assignments != [] ==>
        WorthMoving(setup, lanes, verified, exclusiveOrigin, probePeers, MoveTime(now, lanes[Origin]), assignments)
    {
      hide Good, Free, HeldIn, Measured, PeerHeld, TakeLimit, Movable, SplitOf, WorthMoving, Owed, MoveCandidates, ShareOf,
        Workable, LaneOk, PieceCount, CommitmentPieceSize, BusyPeers, MoveTime, PiecesOf, TermsOf, HoldsOf, SetOf, PieceSet,
        NoDup, Within, Flat, Work, LanesOk, Stuck, Evolved;
      GoodFacts(setup, St(), {}, {});
      LanesKeyed(setup, St(), {});
      var pending := MoveCandidates(lanes, verified, exclusiveOrigin);
      var keys := InOrder(Measured(lanes, probePeers));
      var measured := MeasuredEstimates(keys);
      idle := measured;
      if pending == [] || keys == [] {
        return [], measured;
      }
      MoveAtMost(now, measured);
      var take := MoveAmount(now, measured);
      if take == 0 {
        return [], measured;
      }
      var input := MoveInput(now, pending, measured);
      var moved := input.(needed := Tail(pending, take));
      var peers := Resolve(measured, input);
      var plan, parts := Split(moved, peers);
      OwedPieces(setup, St(), pending, take);
      SplitAssigns(setup, St(), moved, peers, parts, plan, measured);
      MoveFits(setup, St(), plan.assignments, moved.needed);
      MoveAllInTime(setup, lanes, verified, exclusiveOrigin, probePeers, keys, measured, input, moved.needed, parts, plan);
      NoPieces();
      return plan.assignments, measured;
    }

    lemma NoPieces()
      ensures PiecesOf([]) == []
    {
    }

    /** The estimates of idle measured holders. */
    method MeasuredEstimates(keys: seq<Source>) returns (idle: seq<Estimate>)
      requires forall s :: s in keys <==> s in Measured(lanes, probePeers)
      requires forall s :: s in lanes ==> lanes[s].estimate.source == s
      requires forall i, j :: 0 <= i < j < |keys| ==> SourceLess(keys[i], keys[j])
      ensures |idle| == |keys| && IdleList(lanes, probePeers, idle)
      ensures forall j :: 0 <= j < |idle| ==>
        && idle[j].source == keys[j] && Unoccupied(lanes, keys[j])
        && keys[j] in Measured(lanes, probePeers) && idle[j] == lanes[keys[j]].estimate
    {
      var current := lanes;
      forall j | 0 <= j < |keys| ensures keys[j] in current && Unoccupied(current, keys[j]) {
        assert keys[j] in keys;
      }
      idle := seq(|keys|, j requires 0 <= j < |keys| && keys[j] in current => current[keys[j]].estimate);
      forall s | s in Measured(lanes, probePeers) ensures exists j :: 0 <= j < |idle| && idle[j] == lanes[s].estimate {
        assert s in keys;
        var j :| 0 <= j < |keys| && keys[j] == s;
        assert idle[j] == lanes[s].estimate;
      }
    }

    /** Pieces that origin owes go to idle measured peers. */
    method Rebalance(now: nat)
      requires Good(setup, St(), {}, {})
      modifies `lanes, `originStarted, `commands, `log, `peerPending
      ensures Good(setup, St(), {}, {}) && Supplied(old(lanes), lanes, now) && peerPending == old(peerPending)
      ensures !exclusiveOrigin ==> Prompt(old(lanes), lanes, now)
      ensures setup.peerOnly ==> lanes == old(lanes)
      ensures old(finished || floorReached || Origin !in lanes) ==> St() == old(St())
      ensures !old(finished || floorReached || Origin !in lanes) ==>
        exists idle :: (
          && IdleList(old(lanes), probePeers, idle)
          && (if old(MoveAmount(now, idle)) == 0 then St() == old(St())
              else exists assignments :: Moved(old(lanes), now, assignments) && |PiecesOf(assignments)| == old(MoveAmount(now, idle))))
      ensures old(log) <= log
    {
      hide Good, Supplied, Prompt, Free, Movable, Dispatchable, Workable, LaneOk, PieceCount, CommitmentPieceSize,
        WorthMoving, Shared, IdleList, MoveAmount, PiecesOf, SetOf, PieceSet, NoDup, Flat, Work, LanesOk, Stuck, HeldIn,
        Evolved;
      SuppliedSame(lanes, now);
      if finished || floorReached || Origin !in lanes {
        return;
      }
      GoodFacts(setup, St(), {}, {});
      LanesKeyed(setup, St(), {});
      ghost var idle;
      var assignments;
      assignments, idle := PlanMove(now);
      ghost var amount := MoveAmount(now, idle);
      if assignments == [] {
        return;
      }
      MovableFacts(setup, St(), assignments);
      ghost var current := lanes;
      if exclusiveOrigin {
        var claimed := SetOf(PiecesOf(assignments));
        ClaimGood(setup, St(), {}, {}, claimed);
        assert {} + claimed == claimed && claimed - claimed == {};
        lanes := lanes[Origin := ClaimLane(lanes[Origin], claimed)];
        ClaimSupplied(current, claimed, now);
        ClaimFits(setup, St(), current, assignments, claimed);
        CarryOut(now, assignments, claimed, {});
        SuppliedTrans(current, current[Origin := ClaimLane(current[Origin], claimed)], lanes, now);
      } else {
        CarryOut(now, assignments, {}, {});
        assert {} - SetOf(PiecesOf(assignments)) == {};
      }
      assert Moved(current, now, assignments) && |PiecesOf(assignments)| == amount;
    }

    /** Some of the pieces that origin owed were worth moving, and were queued at peers;
        with exclusive origin they left its queue. */
    ghost predicate Moved(first: map<Source, Lane>, now: nat, assignments: seq<Assignment>)
      reads this`lanes, this`verified, this`exclusiveOrigin, this`probePeers
    {
      && Origin in first && assignments != []
      && WorthMoving(setup, first, verified, exclusiveOrigin, probePeers, MoveTime(now, first[Origin]), assignments)
      && Shared(if exclusiveOrigin then first[Origin := ClaimLane(first[Origin], SetOf(PiecesOf(assignments)))] else first,
                lanes, assignments)
    }

    /** A peer leaves, told so if `note` says; its pieces that nobody else holds
        are assigned anew. */
    method Leave(now: nat, peer: nat, note: Option<Command>, ghost loose: set<Source>, ghost lax: set<Source>)
      requires Good(setup, St(), {}, loose) && started && !finished && LivePeer(lanes, Peer(peer))
      requires AboutPeer(setup, note, peer) && note != Some(Ban(peer)) && ProbesKept()
      modifies `lanes, `originStarted, `commands, `log, `peerPending, `probeAvailable, `late, `finished, `floorReached
      ensures Good(setup, St(), {}, loose)
      ensures finished ==> setup.peerOnly && (now >= FloorAt(setup) || NoneLive(Without(old(lanes), peer)))
      ensures !finished ==> Supplied(Without(old(lanes), peer), lanes, now) && ProbesKept() && (old(Eager(lax)) ==> Eager(lax))
      ensures !finished ==> floorReached == old(floorReached)
      ensures !finished && setup.peerOnly && loose == {} && Left(verified) != {} ==> NotStalled()
      ensures old(log) <= log
      ensures Newly(old(log), log, Gone(Peer(peer))) && (note.Some? ==> Newly(old(log), log, Out(note.value)))
    {
      hide Good, Probing, Keen, Supplied, InFlight, HeldIn, Left, LaneOk, PieceCount, CommitmentPieceSize, Newly, AssignedMixed,
        TermsOf, SetOf, Without, NoneLive, Stuck;
      ghost var before := St();
      var pieces := LoseLane(peer, note, loose, lax);
      ghost var told := log;
      var needed := Uncovered(pieces, verified, lanes);
      UncoveredSame(pieces, verified, lanes);
      LeftAssignable(setup, St(), pieces);
      Assign(now, needed, SetOf(pieces), loose, lax);
      NewlyLater(before.log, told, log, Gone(Peer(peer)));
      if note.Some? {
        NewlyLater(before.log, told, log, Out(note.value));
      }
    }

    /** The peer's lane is emptied for good; returns what nobody else holds. */
    method LoseLane(peer: nat, note: Option<Command>, ghost loose: set<Source>, ghost lax: set<Source>) returns (pieces: seq<nat>)
      requires Good(setup, St(), {}, loose) && started && !finished && LivePeer(lanes, Peer(peer))
      requires AboutPeer(setup, note, peer) && note != Some(Ban(peer)) && ProbesKept()
      modifies `lanes, `commands, `log
      ensures Good(setup, St(), SetOf(pieces), loose) && lanes == Without(old(lanes), peer)
      ensures ProbesKept() && (old(Eager(lax)) ==> Eager(lax))
      ensures Ascending(pieces) && forall i :: i in pieces ==> i in Left(verified) && !HeldIn(lanes, i)
      ensures FloorPassed(log) ==> pieces == []
      ensures old(log) <= log
      ensures Newly(old(log), log, Gone(Peer(peer))) && (note.Some? ==> Newly(old(log), log, Out(note.value)))
    {
      hide Good, Probing, Keen, HeldIn, RetiredLane, Left, LaneOk, PieceCount, CommitmentPieceSize, Newly, Leaves, Answered, TermsOf,
        SetOf, Unfinished, Ascending;
      ghost var before := St();
      LeavesNow(lanes, verified, peer);
      AnsweredNow(setup, before, {}, loose, peer);
      if note.Some? {
        commands := commands + [note.value];
      }
      assert before.commands + Noted(note) == commands;
      assert before == St().(commands := before.commands);
      pieces := Retire(peer, before, {}, note, {}, loose);
      assert {} + SetOf(pieces) + {} == SetOf(pieces);
      RetiredProbing(setup, before.lanes, peer, verified, probePeers, probeAvailable, badSeen, lax);
    }

    /** Gives up on a peer's request; others bring its pieces. */
    method Abandon(now: nat, peer: nat)
      requires Good(setup, St(), {}, {}) && started && !finished && LivePeer(lanes, Peer(peer)) && !setup.peerOnly
      modifies `lanes, `originStarted, `commands, `log, `peerPending, `probeAvailable, `late, `finished, `floorReached
      ensures Good(setup, St(), {}, {}) && !finished && floorReached == old(floorReached)
      ensures Supplied(Without(old(lanes), peer), lanes, now)
      ensures old(log) <= log
      ensures Newly(old(log), log, Out(Command.Abandon(peer)))
    {
      hide Good, Probing, Keen, Supplied, InFlight, LaneOk, PieceCount, CommitmentPieceSize, Newly, ProbesKept, Eager, Moved,
        MoveAmount, IdleList, PiecesOf;
      MixedProbes();
      Leave(now, peer, Some(Command.Abandon(peer)), {}, {});
      ghost var mid := lanes;
      ghost var told := log;
      Rebalance(now);
      NewlyLater(old(log), told, log, Out(Command.Abandon(peer)));
      SuppliedTrans(Without(old(lanes), peer), mid, lanes, now);
    }

    /** Cancels peers whose request another source has now verified. */
    method DropRedundant(now: nat, winner: Source)
      requires Good(setup, St(), {}, {winner}) && started && !finished && winner in lanes && !lanes[winner].retired
      requires ProbesKept() && (setup.peerOnly ==> now < FloorAt(setup))
      requires Eager(Redundant(lanes, verified, winner))
      modifies `lanes, `originStarted, `commands, `log, `peerPending, `probeAvailable, `late, `finished, `floorReached
      ensures Good(setup, St(), {}, {winner}) && !finished && floorReached == old(floorReached)
      ensures ProbesKept() && Eager({}) && winner in lanes && !lanes[winner].retired && Evolved(old(lanes), lanes, now)
      ensures old(log) <= log
      ensures Cancelled(old(log), log, Redundant(old(lanes), verified, winner))
    {
      hide Good, Probing, Keen, Supplied, InFlight, Evolved, Redundant, LaneOk, PieceCount, CommitmentPieceSize, Newly,
        Cancelled, TermsOf, HoldsOf, PieceSet, NoDup, Within, Flat, Work, Kept, Fixed, Flags, LanesOk, Stuck, HeldIn;
      var order := InOrder(Redundant(lanes, verified, winner));
      RedundantLive(lanes, verified, winner, order);
      ghost var first, all, left := lanes, Redundant(lanes, verified, winner), Redundant(lanes, verified, winner);
      assert all - left == {};
      CancelledNone(log);
      EvolvedSame(lanes, now);
      for i := 0 to |order|
        invariant old(log) <= log
        invariant Good(setup, St(), {}, {winner}) && !finished && floorReached == old(floorReached)
        invariant ProbesKept() && Eager(left) && left == SetOf(order[i..])
        invariant left <= all && Cancelled(old(log), log, all - left)
        invariant winner in lanes && !lanes[winner].retired && Evolved(first, lanes, now)
        invariant forall j :: i <= j < |order| ==> LivePeer(lanes, order[j]) && order[j] != winner
      {
        ghost var mid, told, peer := lanes, log, order[i].id;
        WinnerLives(lanes, peer, winner);
        Leave(now, order[i].id, Some(Cancel(order[i].id)), {winner}, left);
        WithoutEvolves(first, mid, lanes, peer, now);
        StillLive(mid, lanes, order, i, winner, now);
        LeftOne(setup, lanes, verified, probePeers, probeAvailable, badSeen, left, order[i]);
        CancelledNext(old(log), told, log, all - left, peer);
        assert order[i] == Peer(peer) && order[i] == order[i..][0];
        assert all - left + {Peer(peer)} == all - (left - {order[i]});
        left := left - {order[i]};
        RestOfOrder(order, i);
      }
      assert order[|order|..] == [] && SetOf<Source>([]) == {};
      assert all - left == all;
    }

    /** A peer that sent a bad piece is banned and retired; every piece that is
        now uncovered is assigned anew. */
    method BanPeer(now: nat, peer: nat, ghost before: State, ghost lost: set<nat>)
      requires Good(setup, before, {}, {}) && before.started && !before.finished && St().commands == before.commands
      requires Answered(setup, before, St(), peer) && Leaves(before.lanes, lanes, verified, peer, lost)
      requires Probing(setup, before.lanes, probePeers, probeAvailable, badSeen) && !FloorPassed(before.log)
      modifies `lanes, `originStarted, `commands, `log, `peerPending, `probeAvailable, `late, `finished, `floorReached, `badSeen
      ensures badSeen && Good(setup, St(), {}, {}) && (finished ==> setup.peerOnly)
      ensures !finished ==> ProbesKept() && Eager({}) && (setup.peerOnly && Left(verified) != {} ==> NotStalled())
      ensures old(log) <= log
      ensures Newly(old(log), log, Gone(Peer(peer))) && Newly(old(log), log, Out(Ban(peer)))
    {
      hide Good, Valid, ProbesKept, Eager, NotStalled, Probing, HeldIn, Left, Leaves, Answered, LaneOk, PieceCount, CommitmentPieceSize,
        Newly, SetOf;
      ghost var st := St();
      var pieces := Dismiss(peer, before, lost);
      ghost var told := log;
      AssignLoose(now, pieces, lost);
      NewlyLater(st.log, told, log, Gone(Peer(peer)));
      NewlyLater(st.log, told, log, Out(Ban(peer)));
    }

    /** The ban itself: the peer is told and loses its lane. */
    method Dismiss(peer: nat, ghost before: State, ghost lost: set<nat>) returns (pieces: seq<nat>)
      requires Good(setup, before, {}, {}) && before.started && !before.finished && St().commands == before.commands
      requires Answered(setup, before, St(), peer) && Leaves(before.lanes, lanes, verified, peer, lost)
      requires Probing(setup, before.lanes, probePeers, probeAvailable, badSeen) && !FloorPassed(before.log)
      modifies `lanes, `commands, `log, `badSeen
      ensures badSeen && Good(setup, St(), {} + SetOf(pieces) + lost, {}) && ProbesKept()
      ensures started && !finished && !FloorPassed(log)
      ensures forall i :: i in pieces ==> i in Left(verified) && !HeldIn(lanes, i)
      ensures old(log) <= log
      ensures Newly(old(log), log, Gone(Peer(peer))) && Newly(old(log), log, Out(Ban(peer)))
    {
      hide Good, Probing, HeldIn, Left, Leaves, Kept, LaneOk, PieceCount, CommitmentPieceSize, Newly, SetOf, Unfinished, Ascending;
      ghost var st := St();
      LeavesLane(before.lanes, lanes, verified, peer, lost);
      commands := commands + [Ban(peer)];
      assert before.commands + Noted(Some(Ban(peer))) == commands;
      assert st == St().(commands := before.commands);
      pieces := Retire(peer, before, lost, Some(Ban(peer)), {}, {});
      badSeen := true;
      WeakerProbing(setup, before.lanes, probePeers, probeAvailable, old(badSeen));
      BanProbing(setup, before.lanes, lanes, peer, probePeers, probeAvailable);
    }

    /** Assigns the pieces of a banned peer and all others that nobody holds. */
    method AssignLoose(now: nat, pieces: seq<nat>, ghost lost: set<nat>)
      requires Good(setup, St(), {} + SetOf(pieces) + lost, {}) && started && !finished && !FloorPassed(log) && badSeen && ProbesKept()
      requires forall i :: i in pieces ==> i in Left(verified) && !HeldIn(lanes, i)
      modifies `lanes, `originStarted, `commands, `log, `peerPending, `probeAvailable, `late, `finished, `floorReached
      ensures Good(setup, St(), {}, {}) && (finished ==> setup.peerOnly)
      ensures !finished ==> ProbesKept() && Eager({}) && (setup.peerOnly && Left(verified) != {} ==> NotStalled())
      ensures old(log) <= log
    {
      hide Good, Probing, Supplied, InFlight, HeldIn, Left, LaneOk, PieceCount, CommitmentPieceSize, AssignedMixed, Loose, Assignable,
        NoneLive, Stuck;
      var needed := Listed(SetOf(pieces) + Loose(verified, lanes), |verified|);
      BanAssigns(setup, St(), lost, pieces, needed);
      Assign(now, needed, SetOf(needed), {}, {});
    }

    // ---- events ----

    /** Between events: the books are good, an unfinished transfer has work left,
        and a peer-only one has a request out unless a peer sent a bad piece. */
    ghost predicate Valid()
      reads this
    {
      && Good(setup, St(), {}, {})
      && (!finished ==> ProbesKept() && Eager({}))
      && (started && !finished ==> Left(verified) != {} && (setup.peerOnly ==> NotStalled()))
      && (!started ==> forall i :: 0 <= i < |verified| ==> !verified[i])
      && EndExplained()
    }

    /** A mixed transfer whose origin did not fail ends only when every piece is
        verified, and fails only if the whole of it does not match. */
    ghost predicate EndExplained()
      reads this`finished, this`originFailed, this`verified, this`log, this`data
    {
      finished && !setup.peerOnly && !originFailed ==>
        Left(verified) == {} && log != [] && (log[|log| - 1] == Out(Command.Fail) ==> setup.sha(data) != setup.whole)
    }

    /** Bad pieces, wrong lengths, failures and silence of peers never make a mixed
        transfer fail: without a fault of origin it fails only for the digest of the
        whole object, with every piece verified. */
    lemma PeersNeverFailIt(j: nat)
      requires Valid() && !setup.peerOnly && !OriginFailed(log) && j < |log| && log[j] == Out(Command.Fail)
      ensures Left(verified) == {} && setup.sha(data) != setup.whole && j == |log| - 1
    {
      FlagsTold();
      hide Inv, LanesOk, Kept, LogOk;
      Promises.RunLog(setup, St(), {}, {});
      OneEnd(TermsOf(setup, St()), log, j);
      EndedBefore(log, j);
    }

    /** A peer-only transfer keeps every unverified piece pending or on a live
        lane, has few holders at work, and until a bad piece always a request. */
    lemma PeerOnlyMoves()
      requires Valid() && setup.peerOnly && started && !finished
      ensures forall i :: i in Left(verified) ==> i in peerPending || HeldIn(lanes, i)
      ensures |Active(lanes)| <= Max(setup.maxHolders, 1) && (Banned(log) || InFlight(lanes))
    {
      hide Good, HeldIn, Probing, Stuck, InFlight;
      FlagsTold();
      forall i | i in Left(verified) ensures i in peerPending || HeldIn(lanes, i) {
        GoodCovers(setup, St(), {}, i);
      }
      PeerOnlyOrigin(setup, St());
      FewHolders();
      if !badSeen && !InFlight(lanes) {
        StuckIsBusy(setup, lanes, probePeers, probeAvailable);
      }
    }

    lemma FewHolders()
      requires ProbesKept() && setup.peerOnly
      ensures |Active(lanes)| <= Max(setup.maxHolders, 1)
    {
    }

    /** A holder that is asked, or one that can be: not a probe, or a probe that was
        not used. */
    ghost predicate CanWork(s: Source)
      reads this`lanes, this`probePeers, this`probeAvailable
    {
      LivePeer(lanes, s) && (Busy(lanes, s) || s !in probePeers || s in probeAvailable)
    }

    /** Whatever was sent, a peer-only transfer has a request in flight exactly if
        some holder can work. */
    lemma MovesIfAnyoneCan()
      requires Valid() && setup.peerOnly && started && !finished
      ensures InFlight(lanes) <==> exists s :: CanWork(s)
    {
      hide Good, Probing, Keen;
      PeerOnlyOrigin(setup, St());
      if InFlight(lanes) {
        var s :| Busy(lanes, s);
        GoodLanes(setup, St(), {}, {}, s);
        assert CanWork(s);
      }
    }

    /** The source brought nothing: a peer leaves, origin ends the transfer. */
    method Failed(now: nat, source: Source)
      requires Valid()
      modifies `lanes, `originStarted, `commands, `log, `peerPending, `probeAvailable, `late, `finished, `floorReached, `originFailed
      ensures Valid() && originFailed == (old(originFailed) || (!old(finished) && source == Origin && !setup.peerOnly))
      ensures !setup.peerOnly && source.Peer? ==> finished == old(finished)
      ensures !setup.peerOnly && source == Origin ==> finished
      ensures old(log) <= log
      ensures !old(finished) && LivePeer(old(lanes), source) ==> Newly(old(log), log, Gone(source))
      ensures !old(finished) && source == Origin && !setup.peerOnly ==> Newly(old(log), log, Out(Command.Fail))
      ensures old(finished) || !(LivePeer(old(lanes), source) || (source == Origin && !setup.peerOnly)) ==> St() == old(St())
    {
      hide Good, Probing, Keen, Supplied, InFlight, Emptied, LaneOk, PieceCount, CommitmentPieceSize, Newly, ProbesKept, Eager, Moved,
        MoveAmount, IdleList, PiecesOf;
      if finished {
        return;
      }
      GoodFacts(setup, St(), {}, {});
      if source == Origin {
        if !setup.peerOnly {
          Blame(St(), {}, {});
        }
        return;
      }
      if source !in lanes || lanes[source].retired {
        return;
      }
      assert source == Peer(source.id);
      Leave(now, source.id, None, {}, {});
      if !finished && !setup.peerOnly {
        ghost var told := log;
        Rebalance(now);
        NewlyLater(old(log), told, log, Gone(source));
        MixedProbes();
      }
    }

    /** Checks every piece of an answer that is not yet verified and keeps the
        good ones. */
    method VerifyPieces(range: PieceRange, bytes: seq<byte>) returns (bad: bool, gained: bool)
      requires Fixed(setup, verified) && Kept(setup, data, verified) && range.start < range.end <= |setup.hashes|
      requires |bytes| == Min(range.end * setup.pieceSize, setup.size) - range.start * setup.pieceSize
      modifies `data, `verified
      ensures Fixed(setup, verified) && Kept(setup, data, verified)
      ensures Verifies(setup, range, bytes, range.end, old(verified), verified)
      ensures bad <==> Spoilt(range, verified)
      ensures gained <==> verified != old(verified)
    {
      hide Kept, From, To, GoodPiece;
      bad, gained := false, false;
      ghost var before := verified;
      for index := range.start to range.end
        invariant Fixed(setup, verified) && Kept(setup, data, verified)
        invariant Verifies(setup, range, bytes, index, before, verified)
        invariant bad <==> exists i: nat :: InRange(range, i) && i < index && i in Left(verified)
        invariant gained <==> verified != before
      {
        ghost var last := verified;
        if !verified[index] {
          PieceLength(setup, verified, range, bytes, index);
          if GoodPiece(setup, range, bytes, index) {
            StorePiece(range, bytes, index);
            gained := true;
            assert verified[index] && !before[index];
          } else {
            bad := true;
            assert InRange(range, index) && index in Left(verified);
          }
        }
        VerifiedUpTo(setup, range, index, before, last, verified);
      }
    }

    /** Keeps a good piece. */
    method StorePiece(range: PieceRange, bytes: seq<byte>, index: nat)
      requires Fixed(setup, verified) && Kept(setup, data, verified) && index < |verified|
      requires From(setup.pieceSize, index) < To(setup.size, setup.pieceSize, index) <= setup.size
      requires |PieceOf(setup, range, bytes, index)| == To(setup.size, setup.pieceSize, index) - From(setup.pieceSize, index)
      requires GoodPiece(setup, range, bytes, index)
      modifies `data, `verified
      ensures Fixed(setup, verified) && Kept(setup, data, verified) && verified == old(verified)[index := true]
    {
      hide From, To, PieceOf;
      PatchKeeps(setup, data, verified, index, PieceOf(setup, range, bytes, index));
      data := Patch(setup, data, index, PieceOf(setup, range, bytes, index));
      verified := verified[index := true];
    }

    /** The first answer of an untested peer is its measurement: how soon it
        began, and how fast it went on. */
    method Measure(now: nat, source: Source, sent: nat, firstByteAt: Option<nat>, bytes: nat)
      requires Good(setup, St(), {}, {source}) && source in lanes && lanes[source].estimate.source == source && bytes > 0
      modifies `lanes
      ensures Good(setup, St(), {}, {source}) && source in lanes
      ensures lanes == old(lanes)[source := old(lanes)[source].(estimate := lanes[source].estimate)]
      ensures lanes[source].estimate.source == source
      ensures source.Peer? ==> Positive(lanes[source].estimate.rate).Some?
      ensures !source.Peer? || Positive(old(lanes)[source].estimate.rate).Some? ==> lanes == old(lanes)
    {
      hide Good, LaneOk, PieceCount, CommitmentPieceSize;
      var lane := lanes[source];
      UpdateSame(lanes, source);
      if !source.Peer? || Positive(lane.estimate.rate).Some? {
        return;
      }
      var firstByte := if firstByteAt.Some? then Since(firstByteAt.value, sent) as real
                       else NonNegative(sharedFirstByteMs).GetOr(0.0);
      var streaming := MaxR(now as real - sent as real - firstByte, 1.0);
      PositiveQuotient(bytes as real, streaming);
      var estimate := lane.estimate.(firstByteMs := Some(firstByte), rate := Some(bytes as real / streaming));
      TouchGood(setup, St(), {}, {source}, source, lane.(estimate := estimate));
      lanes := lanes[source := lane.(estimate := estimate)];
    }

    /** The flags say what the log says. */
    lemma FlagsTold()
      requires Valid()
      ensures badSeen == Banned(log) && originFailed == OriginFailed(log)
    {
      hide ProbesKept, Eager, InFlight, EndExplained, LaneOk, PieceCount, CommitmentPieceSize;
      GoodFacts(setup, St(), {}, {});
    }

    lemma UnstartedParts()
      requires Valid() && !started
      ensures Good(setup, St(), {}, {}) && EndExplained() && Left(verified) != {} && (!finished ==> !FloorPassed(log))
    {
      hide Good, Probing, Keen, LaneOk, PieceCount, CommitmentPieceSize, EndExplained;
      UnstartedFacts(setup, St());
    }

    lemma ValidParts()
      requires Valid() && !finished
      ensures Good(setup, St(), {}, {}) && ProbesKept() && Eager({})
    {
    }

    /** An answer of the right length to the request at `position`. */
    method Accept(now: nat, source: Source, position: nat, bytes: seq<byte>)
      requires Valid() && !finished && source in lanes && position < |lanes[source].inFlight|
      requires setup.peerOnly ==> now < FloorAt(setup)
      requires var r := lanes[source].inFlight[position].range;
               |bytes| == Min(r.end * setup.pieceSize, setup.size) - r.start * setup.pieceSize
      modifies `lanes, `originStarted, `commands, `log, `peerPending, `probePeers, `probeAvailable, `late, `finished, `floorReached,
        `data, `verified, `badSeen, `originFailed
      ensures Valid() && Grown(old(verified), verified)
      ensures var spoilt := Spoilt(old(lanes)[source].inFlight[position].range, verified);
              badSeen == (old(badSeen) || (spoilt && source.Peer?)) && originFailed == (old(originFailed) || (spoilt && source == Origin))
      ensures started && exclusiveOrigin == old(exclusiveOrigin) && drained == old(drained)
      ensures old(log) <= log
      ensures var r := old(lanes)[source].inFlight[position].range; Verifies(setup, r, bytes, r.end, old(verified), verified)
      ensures if Spoilt(old(lanes)[source].inFlight[position].range, verified) then Newly(old(log), log, Out(Verdict(source)))
              else Cancelled(old(log), log, Redundant(old(lanes), verified, source))
    {
      hide Good, Probing, Keen, Verifies, Kept, Redundant, Left, FlightsWithin, Valid, PieceSet, LaneOk, PieceCount,
        CommitmentPieceSize, Cancelled, NoDup, Within, Flat, Work, Fixed, HeldIn, Evolved;
      ValidParts();
      ghost var before := St();
      GoodFlights(setup, before, source, position);
      var flight, firstByteAt := lanes[source].inFlight[position], lanes[source].firstByteAt;
      RangePositive(setup, verified, flight.range);
      lanes := lanes[source := WithoutFlight(lanes[source], position)];
      var bad, gained := VerifyPieces(flight.range, bytes);
      VerifiesLeft(setup, flight.range, bytes, before.verified, verified);
      if bad {
        RefuseBad(now, source, before, position);
        return;
      }
      AnswerGood(setup, before, {}, {}, source, position, data, verified);
      assert {} + {source} == {source};
      Reward(now, source, flight, firstByteAt, |bytes|, gained, before.lanes, position, before.verified);
    }

    /** The source of a good answer is credited, and the transfer goes on. */
    method Reward(now: nat, source: Source, flight: Flight, firstByteAt: Option<nat>, bytes: nat, gained: bool,
                  ghost before: map<Source, Lane>, ghost position: nat, ghost wasVerified: seq<bool>)
      requires Good(setup, St(), {}, {source}) && bytes > 0 && Answering(before, source, position, |verified|)
      requires lanes == before[source := WithoutFlight(before[source], position)] && flight == before[source].inFlight[position]
      requires Left(verified) == Left(wasVerified) - PieceSet(flight.range) && (gained <==> verified != wasVerified)
      requires Probing(setup, before, probePeers, probeAvailable, badSeen)
      requires Keen(setup, before, wasVerified, probePeers, probeAvailable, badSeen, {})
      requires started && !finished && (setup.peerOnly ==> now < FloorAt(setup))
      modifies `lanes, `probePeers, `probeAvailable, `originStarted, `commands, `log, `peerPending, `late, `finished, `floorReached, `data
      ensures Valid()
      ensures old(log) <= log
      ensures Cancelled(old(log), log, Redundant(before, verified, source))
    {
      hide Good, Probing, Keen, Verifies, Redundant, Left, Valid, PieceSet, LaneOk, PieceCount, CommitmentPieceSize, Newly, Cancelled;
      Credit(now, source, flight, firstByteAt, bytes, gained, before, position, wasVerified);
      SameRedundant(before, lanes, verified, source);
      Proceed(now, source);
    }

    /** A good answer ends the source's probe and may measure it. */
    method Credit(now: nat, source: Source, flight: Flight, firstByteAt: Option<nat>, bytes: nat, gained: bool,
                  ghost before: map<Source, Lane>, ghost position: nat, ghost wasVerified: seq<bool>)
      requires Good(setup, St(), {}, {source}) && bytes > 0 && Answering(before, source, position, |verified|)
      requires lanes == before[source := WithoutFlight(before[source], position)] && flight == before[source].inFlight[position]
      requires Left(verified) == Left(wasVerified) - PieceSet(flight.range) && (gained <==> verified != wasVerified)
      requires Probing(setup, before, probePeers, probeAvailable, badSeen)
      requires Keen(setup, before, wasVerified, probePeers, probeAvailable, badSeen, {})
      modifies `lanes, `probePeers, `probeAvailable
      ensures Good(setup, St(), {}, {source}) && source in lanes && !lanes[source].retired
      ensures ProbesKept() && Eager(Redundant(lanes, verified, source)) && lanes == before[source := lanes[source]]
    {
      hide Good, Probing, Keen, Redundant, Left, FlightsWithin, Positive, PieceSet, LaneOk, PieceCount,
        CommitmentPieceSize;
      if gained {
        probePeers := probePeers - {source};
        probeAvailable := probeAvailable - {source};
      }
      Measure(now, source, flight.sent, firstByteAt, bytes);
      AnswerProbing(setup, before, lanes, source, position, wasVerified, verified, old(probePeers), old(probeAvailable), gained, badSeen);
    }

    /** What becomes of a source that sends a bad piece. */
    function Verdict(source: Source): Command {
      if source.Peer? then Ban(source.id) else Command.Fail
    }

    /** An answer with a bad piece: a peer is banned, and origin cannot be
        repaired here. */
    method RefuseBad(now: nat, source: Source, ghost before: State, ghost position: nat)
      requires Good(setup, before, {}, {}) && !before.finished && before.started && source in before.lanes
      requires position < |before.lanes[source].inFlight| && Refused(setup, before, St(), source, position)
      requires Left(verified) != {}
      requires Probing(setup, before.lanes, probePeers, probeAvailable, badSeen)
      modifies `lanes, `originStarted, `commands, `log, `peerPending, `probeAvailable, `late, `finished, `floorReached, `badSeen, `originFailed
      ensures Valid() && (finished ==> setup.peerOnly || source == Origin)
      ensures badSeen == (old(badSeen) || source.Peer?) && originFailed == (old(originFailed) || source == Origin)
      ensures Newly(old(log), log, Out(Verdict(source)))
    {
      hide Good, Probing, Keen, Supplied, InFlight, Emptied, Left, Kept, Leaves, Refused, LaneOk, PieceCount,
        CommitmentPieceSize, Newly, ProbesKept, Eager;
      match source
      case Peer(peer) =>
        ghost var lost := set i | i in Flying(before.lanes[source].inFlight);
        RefusedLeaves(setup, before, St(), peer, position, lost);
        BanPeer(now, peer, before, lost);
      case Origin =>
        RefusedWorn(setup, before, St(), source, position);
        Blame(before, {}, {});
    }

    /** After a good answer: drop what it made redundant, then finish or go on. */
    method Proceed(now: nat, source: Source)
      requires Good(setup, St(), {}, {source}) && started && !finished && source in lanes && !lanes[source].retired
      requires ProbesKept() && Eager(Redundant(lanes, verified, source)) && (setup.peerOnly ==> now < FloorAt(setup))
      modifies `lanes, `originStarted, `commands, `log, `peerPending, `probeAvailable, `late, `finished, `floorReached, `data
      ensures Valid()
      ensures old(log) <= log
      ensures Cancelled(old(log), log, Redundant(old(lanes), verified, source))
    {
      hide Good, Probing, Keen, Supplied, InFlight, Emptied, Evolved, Issued, Redundant, Left, LaneOk, PieceCount,
        CommitmentPieceSize, Cancelled;
      DropRedundant(now, source);
      ghost var told := log;
      AllLeft(verified);
      if forall i :: 0 <= i < |verified| ==> verified[i] {
        Finish({}, {source});
      } else {
        Continue(now, source);
      }
      CancelledLater(old(log), told, log, Redundant(old(lanes), verified, source));
    }

    /** Sends more to the source that answered, then looks after the others. */
    method Continue(now: nat, source: Source)
      requires Good(setup, St(), {}, {source}) && started && !finished && source in lanes && !lanes[source].retired
      requires ProbesKept() && Eager({}) && Left(verified) != {}
      modifies `lanes, `originStarted, `commands, `log, `peerPending, `probeAvailable, `late, `finished, `floorReached
      ensures Valid() && (finished ==> setup.peerOnly)
      ensures old(log) <= log
    {
      hide Good, Probing, Keen, Supplied, InFlight, Emptied, Issued, Left, LaneOk, PieceCount, CommitmentPieceSize, Moved,
        MoveAmount, IdleList, PiecesOf;
      GoodFacts(setup, St(), {}, {source});
      LanesKeyed(setup, St(), {source});
      ghost var mid, tail := lanes, TailHeld(source);
      Issue(now, source, {}, {source});
      assert {source} - {source} == {};
      IssuedProbing(setup, mid, lanes, source, verified, probePeers, probeAvailable, badSeen, exclusiveOrigin, tail, now);
      if setup.peerOnly {
        Refill(now, {}, {});
      } else {
        Rebalance(now);
        MixedProbes();
      }
    }

    // ---- the endgame ----

    /** The unverified pieces that may still be duplicated, when few are left. */
    function EndgamePieces(): seq<nat>
      reads this`exclusiveOrigin, this`floorReached, this`verified, this`duplicated
    {
      if exclusiveOrigin || floorReached || |Left(verified)| > ENDGAME_PIECES then []
      else Listed(Left(verified) - duplicated, |verified|)
    }

    /** In peer-only mode, whether a measured holder is free to duplicate. */
    predicate HasEndgameSource()
      reads this`lanes, this`probePeers
    {
      |Active(lanes)| < Max(setup.maxHolders, 1) && Measured(lanes, probePeers) != {}
    }

    /** Nobody who works on an endgame piece is behind, or nobody could help. */
    ghost predicate NoLag(now: nat)
      reads this
    {
      (setup.peerOnly && !HasEndgameSource()) || LagFree(lanes, EndgamePieces(), now)
    }

    /** The fastest of some lanes; between equals the first. */
    method Fastest(candidates: set<Source>) returns (best: Source)
      requires candidates != {} && candidates <= lanes.Keys
      ensures best in candidates
      ensures forall s :: s in candidates ==> RateOf(lanes[s]) <= RateOf(lanes[best])
      ensures forall s :: s in candidates && RateOf(lanes[s]) == RateOf(lanes[best]) ==> s == best || SourceLess(best, s)
    {
      var keys := InOrder(candidates);
      NoneListed(candidates, keys);
      best := keys[0];
      for i := 1 to |keys|
        invariant best in keys[..i]
        invariant forall j :: 0 <= j < i ==> RateOf(lanes[keys[j]]) <= RateOf(lanes[best])
        invariant forall j :: 0 <= j < i && RateOf(lanes[keys[j]]) == RateOf(lanes[best]) ==> keys[j] == best || SourceLess(best, keys[j])
        invariant forall j :: i <= j < |keys| ==> SourceLess(best, keys[j])
      {
        if RateOf(lanes[keys[i]]) > RateOf(lanes[best]) {
          best := keys[i];
        }
      }
    }

    /** Sends one range of the endgame; `rest` is still to be sent. */
    method DuplicateOne(now: nat, source: Source, range: PieceRange, ghost rest: set<nat>)
      requires Good(setup, St(), {}, {}) && MayTake(setup, St(), source, [range]) && !exclusiveOrigin
      requires FreeOf(TermsOf(setup, St()), HoldsOf(lanes), source, rest) && SetOf(Flat([range])) !! rest
      modifies `lanes, `originStarted, `commands, `log, `peerPending
      ensures Good(setup, St(), {}, {}) && Supplied(old(lanes), lanes, now) && peerPending == old(peerPending)
      ensures source in lanes && lanes == old(lanes)[source := lanes[source]] && FloorPassed(log) == old(FloorPassed(log))
      ensures source in old(lanes) ==> lanes[source].retired == old(lanes)[source].retired
      ensures FreeOf(TermsOf(setup, St()), HoldsOf(lanes), source, rest)
      ensures old(log) <= log
    {
      hide Good, Supplied, Given, MayTake, FreeOf, Free, LaneOk, PieceCount, CommitmentPieceSize;
      ghost var mid := lanes;
      var finishAt := if source in lanes then lanes[source].finishAt else now as real;
      FreeNone(TermsOf(setup, St()), HoldsOf(lanes));
      TakesKnown(setup, St(), source, range);
      Give(now, source, [range], finishAt, {}, {}, {}, {});
      assert {} - SetOf(Flat([range])) == {} && {} - {source} == {};
      SuppliedSame(mid, now);
      SuppliedNext(mid, mid, source, lanes[source], [range], finishAt, now);
      FreeOfNext(setup, St(), mid, source, range, rest, finishAt, now);
    }

    /** Sends the pieces of the endgame to one idle source as well. */
    method Duplicate(now: nat, source: Source, ranges: seq<PieceRange>)
      requires Good(setup, St(), {}, {}) && !finished && started && !FloorPassed(log) && !exclusiveOrigin
      requires Within(ranges, |setup.hashes|) && NoDup(Flat(ranges)) && SetOf(Flat(ranges)) <= Left(verified)
      requires if source == Origin then !setup.peerOnly else Unoccupied(lanes, source)
      modifies `lanes, `originStarted, `commands, `log, `peerPending
      ensures Good(setup, St(), {}, {}) && Supplied(old(lanes), lanes, now) && peerPending == old(peerPending)
      ensures source.Peer? ==> source in lanes && lanes == old(lanes)[source := lanes[source]]
      ensures old(log) <= log
    {
      hide Good, Supplied, Within, NoDup, Unoccupied, MayTake, FreeOf, Left, LaneOk, PieceCount, CommitmentPieceSize;
      ghost var first := lanes;
      SuppliedSame(lanes, now);
      IdleFree(setup, St(), source, ranges);
      if source.Peer? {
        UnoccupiedLane(lanes, source);
        UpdateSame(lanes, source);
      }
      for k := 0 to |ranges|
        invariant old(log) <= log
        invariant Good(setup, St(), {}, {}) && Supplied(first, lanes, now) && peerPending == old(peerPending)
        invariant source.Peer? ==> source in lanes && lanes == first[source := lanes[source]] && !lanes[source].retired
        invariant FreeOf(TermsOf(setup, St()), HoldsOf(lanes), source, SetOf(Flat(ranges[k..])))
        invariant NoDup(Flat(ranges[k..])) && SetOf(Flat(ranges[k..])) <= Left(verified) && FloorPassed(log) == old(FloorPassed(log))
      {
        ghost var mid := lanes;
        NextRange(setup, St(), source, ranges, k);
        DuplicateOne(now, source, ranges[k], SetOf(Flat(ranges[k + 1..])));
        SuppliedTrans(first, mid, lanes, now);
        if source.Peer? {
          UpdateTwice(first, source, mid[source], lanes[source]);
        }
      }
    }

    /** The fastest idle source: a measured holder in peer-only mode, else any
        peer, else origin. */
    method EndgameSource() returns (source: Source)
      requires setup.peerOnly ==> HasEndgameSource()
      ensures if source == Origin then !setup.peerOnly && forall s :: !Unoccupied(lanes, s) else Unoccupied(lanes, source)
      ensures setup.peerOnly ==> source in Measured(lanes, probePeers)
      ensures source.Peer? && !setup.peerOnly ==> forall s :: Unoccupied(lanes, s) ==> RateOf(lanes[s]) <= RateOf(lanes[source])
    {
      if setup.peerOnly {
        MeasuredIdle(lanes, probePeers);
        source := Fastest(Measured(lanes, probePeers));
      } else {
        var idle := set s | s in lanes && Unoccupied(lanes, s);
        if idle == {} {
          assert forall s :: Unoccupied(lanes, s) ==> s in idle;
          return Origin;
        }
        source := Fastest(idle);
      }
    }

    /** With few pieces left, those of a source behind its projection go to the
        fastest idle source as well. */
    method Endgame(now: nat)
      requires Good(setup, St(), {}, {}) && !finished && ProbesKept() && Eager({})
      modifies `lanes, `originStarted, `commands, `log, `peerPending, `duplicated
      ensures Good(setup, St(), {}, {}) && Supplied(old(lanes), lanes, now) && peerPending == old(peerPending)
      ensures ProbesKept() && Eager({}) && NoLag(now)
      ensures old(log) <= log
    {
      hide Good, Supplied, Probing, Keen, Measured, Active, Left, Within, NoDup, Unoccupied, Holds, LaneOk,
        PieceCount, CommitmentPieceSize;
      SuppliedSame(lanes, now);
      var pieces := EndgamePieces();
      var behind := exists s :: s in lanes && Lagging(lanes[s], pieces) && now as real >= lanes[s].finishAt;
      if pieces == [] || !behind {
        NoPieceLags(lanes, now);
        return;
      }
      if setup.peerOnly && !HasEndgameSource() {
        return;
      }
      var source := EndgameSource();
      EndgameFits(setup, St(), duplicated, pieces);
      DuplicateAll(now, source, pieces);
      NoPieceLags(lanes, now);
    }

    method DuplicateAll(now: nat, source: Source, pieces: seq<nat>)
      requires Good(setup, St(), {}, {}) && !finished && ProbesKept() && Eager({})
      requires started && !FloorPassed(log) && !exclusiveOrigin && pieces == EndgamePieces() && pieces != []
      requires Within(RunsOf(pieces), |setup.hashes|) && Flat(RunsOf(pieces)) == pieces
      requires NoDup(pieces) && SetOf(pieces) <= Left(verified)
      requires if source == Origin then !setup.peerOnly else Unoccupied(lanes, source)
      requires setup.peerOnly ==> |Active(lanes)| < Max(setup.maxHolders, 1)
      modifies `lanes, `originStarted, `commands, `log, `peerPending, `duplicated
      ensures Good(setup, St(), {}, {}) && Supplied(old(lanes), lanes, now) && peerPending == old(peerPending)
      ensures ProbesKept() && Eager({}) && EndgamePieces() == []
      ensures old(log) <= log
    {
      hide Good, Supplied, Probing, Keen, Active, Left, Within, NoDup, Unoccupied, LaneOk, PieceCount, CommitmentPieceSize, Flat,
        RunsOf, SetOf, TermsOf, Listed;
      ghost var first, before := lanes, duplicated;
      duplicated := duplicated + SetOf(pieces);
      var ranges := Runs(pieces);
      Duplicate(now, source, ranges);
      DuplicatedAll(verified, before, pieces);
      EndgameProbing(setup, first, lanes, source, verified, probePeers, probeAvailable, badSeen, now);
    }

    // ---- time ----

    function J(): Judge
      reads this`floorReached, this`sharedFirstByteMs, this`sharedRate
    {
      Judge(!setup.peerOnly && !floorReached, FloorAt(setup), setup.size, setup.pieceSize, sharedFirstByteMs, sharedRate)
    }

    /** The times at which the transfer asks to be ticked. */
    ghost predicate IsDeadline(d: nat)
      reads this
    {
      && !finished
      && if setup.peerOnly then d == FloorAt(setup) || (HasEndgameSource() && IsLag(d))
         else (!floorReached && d == FloorAt(setup)) || IsLag(d) || exists s :: s in lanes && WatchAt(J(), s, lanes[s]) == Some(d)
    }

    ghost predicate IsLag(d: nat)
      reads this
    {
      exists s :: s in lanes && Lagging(lanes[s], EndgamePieces()) && d == CeilTime(lanes[s].finishAt)
    }

    lemma NoneDue(now: nat)
      requires !finished && NoLag(now) && (setup.peerOnly || !floorReached ==> now < FloorAt(setup))
      requires !setup.peerOnly ==> AllCalm(J(), now, lanes)
      ensures forall d: nat :: IsDeadline(d) ==> d > now
    {
      forall d: nat | IsDeadline(d) ensures d > now {
        if s :| s in lanes && Lagging(lanes[s], EndgamePieces()) && d == CeilTime(lanes[s].finishAt) {
          LaterCeil(lanes[s].finishAt, now);
        }
        if s :| s in lanes && !setup.peerOnly && WatchAt(J(), s, lanes[s]) == Some(d) {
          assert Calm(J(), now, s, lanes[s]);
        }
      }
    }

    lemma NoneDueAfterFloor(now: nat)
      requires floorReached && !setup.peerOnly
      ensures forall d: nat :: !IsDeadline(d)
    {
      NoPieceLags(lanes, now);
    }

    /** Judges every watched request: a hopeless one is abandoned, the others are
        not due again before a while. */
    method Watch(now: nat)
      requires Good(setup, St(), {}, {}) && !finished && !setup.peerOnly
      modifies `lanes, `originStarted, `commands, `log, `peerPending, `probeAvailable, `late, `finished, `floorReached
      ensures Good(setup, St(), {}, {}) && !finished && floorReached == old(floorReached)
      ensures AllCalm(J(), now, lanes)
      ensures old(log) <= log
    {
      hide Good, WatchAt, Calm, LaneOk, PieceCount, CommitmentPieceSize;
      ghost var j := J();
      var watched := InOrder(set s | s in lanes && WatchAt(J(), s, lanes[s]).Some?);
      WatchedOrCalm(j, now, lanes, watched);
      for i := 0 to |watched|
        invariant old(log) <= log
        invariant Good(setup, St(), {}, {}) && !finished && floorReached == old(floorReached)
        invariant CalmBut(j, now, lanes, watched[i..])
        invariant forall h :: i <= h < |watched| ==> watched[h] in lanes && watched[h].Peer?
      {
        assert watched[i..] == [watched[i]] + watched[i + 1..];
        WatchOne(now, watched[i], watched[i + 1..]);
      }
    }

    method WatchOne(now: nat, source: Source, ghost others: seq<Source>)
      requires Good(setup, St(), {}, {}) && !finished && !setup.peerOnly && source in lanes && source.Peer?
      requires CalmBut(J(), now, lanes, [source] + others)
      modifies `lanes, `originStarted, `commands, `log, `peerPending, `probeAvailable, `late, `finished, `floorReached
      ensures Good(setup, St(), {}, {}) && !finished && floorReached == old(floorReached)
      ensures CalmBut(J(), now, lanes, others) && old(lanes).Keys <= lanes.Keys
      ensures old(log) <= log
    {
      hide Good, Supplied, WatchAt, Hopeless, Calm, CalmBut, LaneOk, PieceCount, CommitmentPieceSize;
      ghost var mid := lanes;
      if Hopeless(J(), now, source, lanes[source]) {
        HopelessLive(J(), now, source, lanes[source]);
        GoodFacts(setup, St(), {}, {});
        Abandon(now, source.id);
        AbandonedCalm(J(), now, mid, lanes, source.id, others);
      } else {
        TouchGood(setup, St(), {}, {}, source, lanes[source].(checkedAt := now));
        JudgedIsCalm(J(), now, source, lanes[source]);
        lanes := lanes[source := lanes[source].(checkedAt := now)];
        JudgedCalm(J(), now, mid, source, lanes[source], others);
      }
    }

    /** The floor: peers are cancelled and origin takes their work. */
    method PassFloor(now: nat)
      requires Good(setup, St(), {}, {}) && !finished && !setup.peerOnly
      modifies `lanes, `originStarted, `commands, `log, `peerPending, `floorReached
      ensures Good(setup, St(), {}, {}) && floorReached && (started ==> FloorPassed(log))
      ensures !started ==> log == old(log) + [Floor(false)] && lanes == old(lanes)
      ensures old(log) <= log
      ensures started ==> Cancelled(old(log), log, Active(old(lanes)) - {Origin})
    {
      hide Good, Free, Left, HeldIn, MayTake, LaneOk, PieceCount, CommitmentPieceSize, Cancelled, Active, TermsOf, HoldsOf,
        SetOf, PieceSet, NoDup, Within, Flat, Work, Kept, Fixed, Flags, Stuck, Evolved;
      floorReached := true;
      FloorFlagGood(setup, old(St()), {}, {});
      GoodFacts(setup, St(), {}, {});
      if !started {
        NoteGood(setup, St(), {}, {}, Floor(false));
        log := log + [Floor(false)];
        return;
      }
      var pieces := RetireLate();
      ghost var told := log;
      FloorGood(setup, St(), SetOf(pieces), {});
      FloorNext(log, Floor(true));
      log := log + [Floor(true)];
      var needed := Listed(SetOf(pieces) * Loose(verified, lanes), |verified|);
      var ranges := Runs(needed);
      FloorNeeds(setup, St(), pieces, needed);
      QueueAll(now, ranges);
      CancelledLater(old(log), told, log, Active(old(lanes)) - {Origin});
    }

    /** Cancels and retires one peer; returns what it held and nobody else does. */
    method CancelPeer(peer: nat, ghost orphans: set<nat>) returns (pieces: seq<nat>)
      requires Good(setup, St(), orphans, {}) && !finished && started && LivePeer(lanes, Peer(peer))
      modifies `lanes, `commands, `log
      ensures Good(setup, St(), orphans + SetOf(pieces), {}) && FloorPassed(log) == old(FloorPassed(log))
      ensures Peer(peer) in lanes && lanes[Peer(peer)].retired && lanes == old(lanes)[Peer(peer) := lanes[Peer(peer)]]
      ensures forall i :: i in pieces ==> i in Left(verified)
      ensures old(log) <= log
      ensures Newly(old(log), log, Gone(Peer(peer))) && Newly(old(log), log, Out(Cancel(peer)))
    {
      hide Good, Left, HeldIn, LaneOk, PieceCount, CommitmentPieceSize;
      ghost var before := St();
      LeavesNow(lanes, verified, peer);
      AnsweredNow(setup, before, orphans, {}, peer);
      commands := commands + [Cancel(peer)];
      assert before == St().(commands := before.commands);
      pieces := Retire(peer, before, {}, Some(Cancel(peer)), orphans, {});
      assert orphans + SetOf(pieces) + {} == orphans + SetOf(pieces);
    }

    /** Cancels and retires every peer that has work; returns what they held and
        nobody else does. */
    method RetireLate() returns (pieces: seq<nat>)
      requires Good(setup, St(), {}, {}) && !finished && started && !setup.peerOnly
      modifies `lanes, `commands, `log
      ensures Good(setup, St(), SetOf(pieces), {}) && PeersIdle(lanes) && Origin in lanes
      ensures forall i :: i in pieces ==> i in Left(verified)
      ensures FloorPassed(log) == old(FloorPassed(log))
      ensures old(log) <= log
      ensures Cancelled(old(log), log, Active(old(lanes)) - {Origin})
    {
      hide Good, Left, HeldIn, RetiredLane, LaneOk, PieceCount, CommitmentPieceSize, Newly, Cancelled, Active, PeersIdle;
      pieces := [];
      assert SetOf<nat>([]) == {};
      GoodFacts(setup, St(), {}, {});
      ghost var first := lanes;
      var late := InOrder(Active(lanes) - {Origin});
      NoneRetired(lanes, late);
      CancelledNone(log);
      for i := 0 to |late|
        invariant old(log) <= log
        invariant Good(setup, St(), SetOf(pieces), {}) && !finished && RetiredFirst(first, lanes, late, i)
        invariant forall x :: x in pieces ==> x in Left(verified)
        invariant FloorPassed(log) == old(FloorPassed(log))
        invariant Cancelled(old(log), log, SetOf(late[..i]))
      {
        ghost var told, mid := log, lanes;
        assert LivePeer(lanes, late[i]);
        var more := CancelPeer(late[i].id, SetOf(pieces));
        SetOfConcat(pieces, more);
        pieces := pieces + more;
        CancelledNext(old(log), told, log, SetOf(late[..i]), late[i].id);
        RetiredNext(first, mid, lanes, late, i);
        assert late[i] == Peer(late[i].id);
      }
      LateIdle(setup, St(), SetOf(pieces), first, late);
    }

    /** Origin takes the ranges, one after another. */
    method QueueAll(now: nat, ranges: seq<PieceRange>)
      requires Good(setup, St(), SetOf(Flat(ranges)), {}) && !finished && started && !setup.peerOnly && Origin in lanes
      requires Within(ranges, |setup.hashes|) && NoDup(Flat(ranges)) && SetOf(Flat(ranges)) <= Left(verified)
      requires Free(TermsOf(setup, St()), HoldsOf(lanes), SetOf(Flat(ranges)))
      modifies `lanes, `originStarted, `commands, `log, `peerPending
      ensures Good(setup, St(), {}, {}) && FloorPassed(log) == old(FloorPassed(log))
      ensures old(log) <= log
    {
      hide Good, Free, Left, MayTake, Within, NoDup, Supplied, LaneOk, PieceCount, CommitmentPieceSize;
      assert ranges[0..] == ranges;
      for k := 0 to |ranges|
        invariant old(log) <= log
        invariant Good(setup, St(), SetOf(Flat(ranges[k..])), {}) && Origin in lanes
        invariant Free(TermsOf(setup, St()), HoldsOf(lanes), SetOf(Flat(ranges[k..]))) && NoDup(Flat(ranges[k..]))
        invariant SetOf(Flat(ranges[k..])) <= Left(verified) && FloorPassed(log) == old(FloorPassed(log))
      {
        ghost var mid := lanes;
        NextForOrigin(setup, St(), ranges, k);
        QueueOrigin(now, ranges[k], SetOf(Flat(ranges[k..])), {}, SetOf(Flat(ranges[k + 1..])));
        SuppliedKeys(mid, lanes, now);
      }
      assert ranges[|ranges|..] == [] && SetOf(Flat([])) == {};
    }

    /** Time passes: the floor, the watch, the endgame and the rebalance. When it
        returns, nothing is due any more. */
    method Tick(now: nat)
      requires Valid()
      modifies `lanes, `originStarted, `commands, `log, `peerPending, `probeAvailable, `late, `finished, `floorReached, `duplicated
      ensures Valid() && (forall d: nat :: IsDeadline(d) ==> d > now)
      ensures !setup.peerOnly ==> finished == old(finished)
      ensures setup.peerOnly ==> (finished <==> old(finished) || now >= FloorAt(setup))
      ensures started && !setup.peerOnly && !finished && !old(floorReached) && now >= FloorAt(setup) ==>
        FloorPassed(log) && Cancelled(old(log), log, Active(old(lanes)) - {Origin})
      ensures !started && !setup.peerOnly && !old(finished) && !old(floorReached) && now >= FloorAt(setup) ==> log == old(log) + [Floor(false)]
      ensures !setup.peerOnly && !finished && !floorReached ==> forall s :: s in lanes ==> !Hopeless(J(), now, s, lanes[s])
      ensures finished && !old(finished) ==> Newly(old(log), log, Out(Command.Fail))
      ensures old(log) <= log
    {
      hide Good, Probing, Keen, Supplied, InFlight, Emptied, Left, AllCalm, Prompt, LaneOk, PieceCount,
        CommitmentPieceSize, Newly, Cancelled, ProbesKept, Eager;
      if finished {
        return;
      }
      ghost var first := lanes;
      if setup.peerOnly {
        if now >= FloorAt(setup) {
          floorReached := true;
          FloorFlagGood(setup, old(St()), {}, {});
          WornSame(St());
          Fail(St(), {}, {});
        } else {
          Endgame(now);
          SuppliedStuck(first, lanes, probePeers, probeAvailable, now);
          NoneDue(now);
        }
        return;
      }
      if !floorReached && now >= FloorAt(setup) {
        PassFloor(now);
        NoneDueAfterFloor(now);
      } else {
        TickMixed(now);
      }
      MixedProbes();
    }

    /** Requests are judged, lagging pieces duplicated and origin's work moved. */
    method TickMixed(now: nat)
      requires Good(setup, St(), {}, {}) && !finished && !setup.peerOnly && (floorReached || now < FloorAt(setup))
      modifies `lanes, `originStarted, `commands, `log, `peerPending, `probeAvailable, `late, `finished, `floorReached, `duplicated
      ensures Good(setup, St(), {}, {}) && !finished && floorReached == old(floorReached)
      ensures forall d: nat :: IsDeadline(d) ==> d > now
      ensures !floorReached ==> forall s :: s in lanes ==> !Hopeless(J(), now, s, lanes[s])
      ensures old(log) <= log
    {
      hide Good, Probing, Keen, Supplied, Left, AllCalm, Prompt, LaneOk, PieceCount, CommitmentPieceSize, ProbesKept, Eager, Moved,
        MoveAmount, IdleList, PiecesOf;
      Watch(now);
      MixedProbes();
      ghost var mid := lanes;
      Endgame(now);
      CalmSupplied(J(), now, mid, lanes);
      ghost var last, pieces := lanes, EndgamePieces();
      Rebalance(now);
      CalmSupplied(J(), now, last, lanes);
      LagFreeAfter(last, lanes, pieces, now);
      if !floorReached {
        NoneHopeless(J(), now, lanes);
      }
      NoneDue(now);
    }

    // ---- the shell's calls ----

    /** A peer-only transfer is past its floor. */
    predicate Closed(now: nat) {
      setup.peerOnly && now >= FloorAt(setup)
    }

    predicate Awaits(source: Source, range: PieceRange)
      reads this`finished, this`lanes
    {
      !finished && source in lanes && exists h :: 0 <= h < |lanes[source].inFlight| && lanes[source].inFlight[h].range == range
    }

    /** A ranged response; bytes for a range that is not in flight are ignored. */
    method Delivered(now: nat, source: Source, range: PieceRange, bytes: seq<byte>)
      requires Valid()
      modifies `lanes, `originStarted, `commands, `log, `peerPending, `probePeers, `probeAvailable, `late, `finished, `floorReached,
        `data, `verified, `duplicated, `badSeen, `originFailed
      ensures Valid() && Grown(old(verified), verified)
      ensures var unfit := |bytes| != FlightBytes(J(), range);
              var spoilt, answered := !unfit && Spoilt(range, verified), !Closed(now) && old(Awaits(source, range));
              && badSeen == (old(badSeen) || (answered && spoilt && source.Peer?))
              && originFailed == (old(originFailed) || (answered && (unfit || spoilt) && source == Origin))
      ensures exclusiveOrigin == old(exclusiveOrigin) && drained == old(drained)
      ensures old(log) <= log
      ensures !Closed(now) && !old(Awaits(source, range)) ==> St() == old(St())
      ensures !Closed(now) && old(Awaits(source, range)) && |bytes| == FlightBytes(J(), range) ==>
        && Verifies(setup, range, bytes, range.end, old(verified), verified)
        && if Spoilt(range, verified) then Newly(old(log), log, Out(Verdict(source)))
           else Cancelled(old(log), log, Redundant(old(lanes), verified, source))
      ensures !Closed(now) && old(Awaits(source, range)) && |bytes| != FlightBytes(J(), range) ==>
        && verified == old(verified) && (source.Peer? ==> Newly(old(log), log, Gone(source)))
        && (source == Origin ==> Newly(old(log), log, Out(Command.Fail)))
    {
      hide Good, Valid, Verifies, Spoilt, Redundant, FlightsWithin, LaneOk, PieceCount, CommitmentPieceSize, Newly,
        Cancelled, TermsOf, HoldsOf, NoDup, Within, Flat, Work, Kept, Fixed, Flags, LanesOk, Stuck, HeldIn, Evolved;
      if setup.peerOnly && now >= FloorAt(setup) {
        Tick(now);
        return;
      }
      if finished || source !in lanes {
        return;
      }
      var position := FlightOf(lanes[source].inFlight, range);
      if position == |lanes[source].inFlight| {
        return;
      }
      ValidParts();
      GoodFlights(setup, St(), source, position);
      var expected := Min(range.end * setup.pieceSize, setup.size) - range.start * setup.pieceSize;
      if |bytes| != expected {
        Failed(now, source);
      } else {
        Accept(now, source, position, bytes);
      }
    }

    predicate Watches(source: Source)
      reads this`finished, this`floorReached, this`lanes
    {
      !finished && !floorReached && LivePeer(lanes, source) && lanes[source].inFlight != []
    }

    /** One more flow point for a request; the oldest goes when there are too many. */
    function Flowed(lane: Lane, now: nat, received: nat): Lane {
      var flow := lane.flow + [Lanes.Progress(now, received)];
      lane.(firstByteAt := if lane.firstByteAt.Some? then lane.firstByteAt else Some(now),
            flow := if |flow| > FLOW_POINTS then flow[1..] else flow)
    }

    /** A peer's request got this far; a hopeless one is given up. */
    method Progress(now: nat, source: Source, received: nat)
      requires Valid()
      modifies `lanes, `originStarted, `commands, `log, `peerPending, `probeAvailable, `late, `finished, `floorReached, `duplicated
      ensures Valid()
      ensures !setup.peerOnly ==> finished == old(finished) && floorReached == old(floorReached)
      ensures old(log) <= log
      ensures !Closed(now) && !old(Watches(source)) ==> St() == old(St())
      ensures !Closed(now) && old(Watches(source)) ==>
        var l := Flowed(old(lanes)[source], now, received);
        if !setup.peerOnly && Hopeless(J(), now, source, l) then Newly(old(log), log, Out(Command.Abandon(source.id)))
        else St() == old(St()).(lanes := old(lanes)[source := l])
    {
      hide Good, Probing, Keen, InFlight, Supplied, Hopeless, LaneOk, PieceCount, CommitmentPieceSize, ProbesKept, Eager;
      if setup.peerOnly && now >= FloorAt(setup) {
        Tick(now);
        return;
      }
      if finished || floorReached || source !in lanes {
        return;
      }
      var lane := lanes[source];
      if lane.retired || lane.inFlight == [] || !source.Peer? {
        return;
      }
      GoodFacts(setup, St(), {}, {});
      NoteFlow(now, source, received);
      if !setup.peerOnly && Hopeless(J(), now, source, lanes[source]) {
        Abandon(now, source.id);
        MixedProbes();
      }
    }

    method NoteFlow(now: nat, source: Source, received: nat)
      requires Valid() && !finished && source in lanes && started
      modifies `lanes
      ensures Valid() && lanes == old(lanes)[source := Flowed(old(lanes)[source], now, received)]
    {
      hide Good, Probing, Keen, InFlight, Stuck, Useful, Active, LaneOk, PieceCount, CommitmentPieceSize;
      var moved := Flowed(lanes[source], now, received);
      TouchGood(setup, St(), {}, {}, source, moved);
      TouchProbing(setup, lanes, source, moved, verified, probePeers, probeAvailable, badSeen);
      if setup.peerOnly {
        TouchStuck(lanes, source, moved, probePeers, probeAvailable);
      }
      lanes := lanes[source := moved];
    }

    /** Hands the commands over to the shell. */
    method DrainCommands() returns (r: seq<Command>)
      requires Valid()
      modifies `commands, `drained
      ensures Valid() && r == old(commands) && commands == [] && drained == old(drained) + r
      ensures log == old(log)
    {
      hide Good, Probing, Keen, InFlight, LaneOk, PieceCount, CommitmentPieceSize;
      DrainGood(setup, St(), {}, {});
      r := commands;
      drained := drained + commands;
      commands := [];
    }

    /** The opt-in to exclusive origin ownership, before the start. */
    method WithExclusiveOrigin() returns (ok: bool)
      requires Valid()
      modifies `exclusiveOrigin
      ensures Valid() && ok == (!setup.peerOnly && !started && !finished)
      ensures exclusiveOrigin == (ok || old(exclusiveOrigin))
    {
      hide Good, Probing, Keen, InFlight, LaneOk, PieceCount, CommitmentPieceSize;
      if setup.peerOnly || started || finished {
        return false;
      }
      ExclusiveGood(setup, St());
      exclusiveOrigin := true;
      return true;
    }

    /** How much of the object is verified. */
    method VerifiedBytes() returns (bytes: nat)
      requires Valid()
      ensures bytes == BytesOf(setup, verified, |verified|) <= setup.size
      ensures bytes == setup.size <==> Left(verified) == {}
    {
      hide Good, ProbesKept, Eager, InFlight, Left, PieceBytes, LaneOk, PieceCount, CommitmentPieceSize;
      GoodFacts(setup, St(), {}, {});
      AllBytes(setup, verified);
      bytes := 0;
      for i := 0 to |verified|
        invariant bytes == BytesOf(setup, verified, i)
      {
        if verified[i] {
          bytes := bytes + PieceBytes(setup.size, setup.pieceSize, i);
        }
      }
    }

    /** When the shell should tick next: the earliest deadline, if there is one. */
    method NextDeadline() returns (next: Option<nat>)
      requires Valid()
      ensures next.Some? ==> IsDeadline(next.value) && forall d: nat :: IsDeadline(d) ==> next.value <= d
      ensures next.None? ==> forall d: nat :: !IsDeadline(d)
    {
      hide Good, Probing, Keen, InFlight, WatchAt, Lagging, EndgamePieces, HasEndgameSource, CeilTime, J, LaneOk,
        PieceCount, CommitmentPieceSize, AsksLater;
      if finished {
        return None;
      }
      next := if setup.peerOnly || !floorReached then Some(FloorAt(setup)) else None;
      if setup.peerOnly && !HasEndgameSource() {
        return;
      }
      var order := InOrder(lanes.Keys);
      for i := 0 to |order|
        invariant next.Some? ==> IsDeadline(next.value)
        invariant setup.peerOnly || !floorReached ==> next.Some? && next.value <= FloorAt(setup)
        invariant forall j :: 0 <= j < i ==> AsksLater(next, order[j])
      {
        assert order[i] in order;
        ghost var before := next;
        next := WithLane(next, order[i]);
        forall j | 0 <= j < i ensures AsksLater(next, order[j]) {
          assert AsksLater(before, order[j]);
          LaterStill(before, next, order[j]);
        }
      }
      forall s | s in lanes ensures AsksLater(next, s) {
        var j :| 0 <= j < |order| && order[j] == s;
      }
      AllAfter(next);
    }

    /** `next` is no later than what the lane of `s` asks for. */
    ghost predicate AsksLater(next: Option<nat>, s: Source)
      reads this
    {
      s in lanes ==> NotBefore(next, setup.peerOnly, J(), s, lanes[s], EndgamePieces())
    }

    lemma LaterStill(before: Option<nat>, next: Option<nat>, s: Source)
      requires AsksLater(before, s) && (before.Some? ==> next.Some? && next.value <= before.value)
      ensures AsksLater(next, s)
    {
      hide WatchAt, Lagging, EndgamePieces, CeilTime, J;
    }

    /** The earlier of `next` and what the lane of `s` asks for. */
    method WithLane(next: Option<nat>, s: Source) returns (r: Option<nat>)
      requires s in lanes && !finished && (next.Some? ==> IsDeadline(next.value)) && (setup.peerOnly ==> HasEndgameSource())
      ensures AsksLater(r, s) && (r.Some? ==> IsDeadline(r.value)) && (next.Some? ==> r.Some? && r.value <= next.value)
    {
      hide WatchAt, Lagging, EndgamePieces, HasEndgameSource, CeilTime, J;
      r := next;
      if Lagging(lanes[s], EndgamePieces()) {
        r := Earlier(r, Some(CeilTime(lanes[s].finishAt)));
      }
      if !setup.peerOnly {
        r := Earlier(r, WatchAt(J(), s, lanes[s]));
      }
    }

    lemma AllAfter(next: Option<nat>)
      requires setup.peerOnly || !floorReached ==> next.Some? && next.value <= FloorAt(setup)
      requires forall s :: s in lanes ==> AsksLater(next, s)
      ensures forall d: nat :: IsDeadline(d) ==> next.Some? && next.value <= d
    {
      hide WatchAt, Lagging, EndgamePieces, HasEndgameSource, CeilTime, J;
      forall d: nat | IsDeadline(d) ensures next.Some? && next.value <= d {
        if s :| s in lanes && Lagging(lanes[s], EndgamePieces()) && d == CeilTime(lanes[s].finishAt) {
          assert AsksLater(next, s);
        } else if s :| s in lanes && !setup.peerOnly && WatchAt(J(), s, lanes[s]) == Some(d) {
          assert AsksLater(next, s);
        }
      }
    }

    // ---- construction and start ----

    constructor (setup: Setup)
      requires PieceCount(setup.size) == Some(|setup.hashes|) && setup.pieceSize == CommitmentPieceSize(setup.size)
      ensures this.setup == setup && Valid() && !started && !finished && !exclusiveOrigin
      ensures commands == [] && log == [] && drained == [] && !badSeen && !originFailed && Left(verified) != {} && !floorReached
    {
      this.setup := setup;
      exclusiveOrigin, originStarted, started, floorReached, late, finished := false, false, false, false, false, false;
      data, verified := seq(setup.size, _ => 0 as byte), seq(|setup.hashes|, _ => false);
      lanes, probePeers, probeAvailable, peerPending, duplicated := map[], {}, {}, {}, {};
      sharedFirstByteMs, sharedRate, commands := None, None, [];
      log, drained, badSeen, originFailed := [], [], false, false;
      new;
      NewGood(setup, data, verified);
      assert Active(lanes) == {};
      CountWithinBound(setup.size);
      assert 0 in Left(verified);
    }

    /** A new transfer for an object that has as many pieces as digests. */
    static method New(maxHolders: nat, originReserveMs: real, size: nat, whole: Digest, hashes: seq<Digest>, deadline: nat,
                      peerOnly: bool, sha: seq<byte> -> Digest)
        returns (r: Option<Transfer>)
      ensures r.Some? <==> PieceCount(size) == Some(|hashes|)
      ensures r.Some? ==> fresh(r.value) && r.value.Valid() && !r.value.started && !r.value.finished
      ensures r.Some? ==> r.value.log == [] && !r.value.badSeen && !r.value.originFailed
      ensures r.Some? ==> !r.value.exclusiveOrigin && !r.value.floorReached
      ensures var k := Setup(maxHolders, originReserveMs, peerOnly, size, CommitmentPieceSize(size), hashes, whole, deadline, sha);
              r.Some? ==> r.value.setup == k
    {
      hide Transfer.Valid, PieceCount, CommitmentPieceSize;
      if PieceCount(size) != Some(|hashes|) {
        return None;
      }
      var k := Setup(maxHolders, originReserveMs, peerOnly, size, CommitmentPieceSize(size), hashes, whole, deadline, sha);
      var t := new Transfer(k);
      return Some(t);
    }

    /** Opens a lane for every source, the first estimate of each counting. */
    method OpenLanes(now: nat, sources: seq<Estimate>) returns (made: map<Source, Lane>)
      ensures AllNew(made, now)
      ensures forall s :: s in made <==> (s.Peer? || !setup.peerOnly) && Mentioned(sources, |sources|, s)
      ensures forall s :: s in made ==> FirstEstimate(sources, s, made[s].estimate)
    {
      hide FirstEstimate;
      made := map[];
      for i := 0 to |sources|
        invariant AllNew(made, now)
        invariant forall s :: s in made <==> (s.Peer? || !setup.peerOnly) && Mentioned(sources, i, s)
        invariant forall s :: s in made ==> FirstEstimate(sources, s, made[s].estimate)
      {
        var s := sources[i].source;
        MentionedNext(sources, i);
        if (s.Peer? || !setup.peerOnly) && s !in made {
          FirstMention(sources, i);
          made := made[s := NewLane(sources[i], now)];
        }
      }
    }

    /** The sources and probes of a transfer that starts. */
    method Open(now: nat, peers: seq<Estimate>, sources: seq<Estimate>, probes: seq<nat>)
      requires Good(setup, St(), {}, {}) && !started && (!setup.peerOnly ==> Mentioned(sources, |sources|, Origin))
      requires setup.peerOnly ==> sources == peers
      modifies `started, `lanes, `probePeers, `probeAvailable
      ensures Good(setup, St(), Left(verified), {}) && started && ProbesKept() && Eager({}) && AllNew(lanes, now)
      ensures LanesFor(lanes, sources, setup.peerOnly)
      ensures !setup.peerOnly ==> probePeers == probeAvailable == ProbesAmong(peers, probes)
    {
      hide Good, Probing, Keen, AllNew, FirstEstimate, UnmeasuredOf, Left, Mentioned, LaneOk, PieceCount,
        CommitmentPieceSize, LanesFor;
      probePeers := ProbesAmong(peers, probes);
      if setup.peerOnly {
        probePeers := probePeers + UnmeasuredOf(peers);
      }
      probeAvailable := probePeers;
      var made := OpenLanes(now, sources);
      StartGood(setup, St(), made, now);
      NewLanesFor(made, sources, setup.peerOnly, now);
      started := true;
      lanes := made;
      StartProbing(setup, lanes, sources, verified, probePeers, badSeen, now);
    }

    /** Plans and issues the first requests. A mixed transfer is started once, with
        an estimate for origin. A peer-only one ignores `origin`. */
    method Start(now: nat, peers: seq<Estimate>, origin: Estimate, sharedFirst: Option<real>, shared: Option<real>, probes: seq<nat>)
      requires Valid() && (setup.peerOnly || (!started && Mentioned(peers + [origin], |peers| + 1, Origin)))
      modifies `lanes, `probePeers, `probeAvailable, `sharedFirstByteMs, `sharedRate, `started, `originStarted, `commands, `log,
        `peerPending, `late, `finished, `floorReached
      ensures Valid() && started == (old(started) || !setup.peerOnly || !old(finished))
      ensures !setup.peerOnly ==> finished == old(finished) && floorReached == old(floorReached)
      ensures verified == old(verified) && exclusiveOrigin == old(exclusiveOrigin) && drained == old(drained)
      ensures old(log) <= log
      ensures !old(started) && !finished ==> LanesFor(lanes, if setup.peerOnly then peers else peers + [origin], setup.peerOnly)
      ensures !setup.peerOnly ==> sharedFirstByteMs == sharedFirst && sharedRate == shared && probePeers == ProbesAmong(peers, probes)
      ensures !setup.peerOnly && !finished ==> exists first :: Begun(first, now, peers + [origin], old(originStarted))
    {
      hide Good, Valid, ProbesKept, Eager, Supplied, LanesFor, AllNew, Mentioned, Left, LaneOk, PieceCount,
        CommitmentPieceSize, EndExplained, AssignedMixed, ProbesAmong, TermsOf, HoldsOf, SetOf, PieceSet, NoDup, Within, Flat,
        Work, Kept, Fixed, Flags, LanesOk, Stuck, HeldIn, Evolved;
      if setup.peerOnly && (started || finished) {
        return;
      }
      UnstartedParts();
      sharedFirstByteMs, sharedRate := sharedFirst, shared;
      var sources := if setup.peerOnly then peers else peers + [origin];
      Open(now, peers, sources, probes);
      ghost var first := lanes;
      Launch(now);
      if !finished {
        SuppliedFor(first, lanes, sources, setup.peerOnly, now);
        assert !setup.peerOnly ==> Begun(first, now, sources, old(originStarted));
      }
    }

    /** From new lanes for the sources, `first`, every piece was assigned. */
    ghost predicate Begun(first: map<Source, Lane>, now: nat, sources: seq<Estimate>, begun: bool)
      reads this`lanes, this`exclusiveOrigin, this`probePeers, this`sharedFirstByteMs, this`sharedRate, this`late, this`verified
    {
      && AllNew(first, now) && LanesFor(first, sources, false)
      && AssignedMixed(first, probePeers, now, Listed(Left(verified), |verified|), begun)
    }

    /** Assigns every piece of a transfer that has just started. */
    method Launch(now: nat)
      requires Good(setup, St(), Left(verified), {}) && started && ProbesKept() && Eager({}) && AllNew(lanes, now) && EndExplained()
      requires Left(verified) != {} && (!finished ==> !FloorPassed(log))
      modifies `lanes, `originStarted, `commands, `log, `peerPending, `probeAvailable, `late, `finished, `floorReached
      ensures Valid()
      ensures !setup.peerOnly ==> finished == old(finished) && floorReached == old(floorReached)
      ensures old(log) <= log && (!finished ==> Supplied(old(lanes), lanes, now))
      ensures !setup.peerOnly && !finished ==>
        AssignedMixed(old(lanes), old(probeAvailable), now, Listed(Left(verified), |verified|), old(originStarted))
    {
      hide Good, Probing, Keen, InFlight, Supplied, AllNew, Assignable, Left, LaneOk, PieceCount, CommitmentPieceSize, AssignedMixed;
      if finished {
        // A failed origin may end a mixed transfer before it starts.
        OrphansGood(setup, St(), Left(verified), {}, {});
        return;
      }
      AllNeeded(setup, St(), now);
      var needed := Listed(Left(verified), |verified|);
      Assign(now, needed, SetOf(needed), {}, {});
    }
  }
}

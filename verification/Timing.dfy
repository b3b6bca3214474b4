/** Time: requests that are judged, the endgame and the floor. */
module Timing {
  import opened Wrappers
  import opened Pieces
  import opened Sorting
  import opened Estimates
  import opened RunLists
  import opened Planner
  import opened Lanes
  import opened Books
  import opened Ownership
  import opened Dispatch
  import opened States
  import opened Supply
  import opened Assigning
  import opened Holders
  import opened Answers

  // ---- deadlines ----

  predicate Lagging(l: Lane, pieces: seq<nat>) {
    l.inFlight != [] && exists i :: i in pieces && Holds(l, i)
  }

  /** No source that works on one of the pieces is behind its projection. */
  ghost predicate LagFree(lanes: map<Source, Lane>, pieces: seq<nat>, now: nat) {
    forall s :: s in lanes && Lagging(lanes[s], pieces) ==> lanes[s].finishAt > now as real
  }

  lemma NoPieceLags(lanes: map<Source, Lane>, now: nat)
    ensures LagFree(lanes, [], now)
  {
  }

  lemma LagFreeAfter(last: map<Source, Lane>, lanes: map<Source, Lane>, pieces: seq<nat>, now: nat)
    requires LagFree(last, pieces, now) && (pieces == [] || Prompt(last, lanes, now))
    ensures LagFree(lanes, pieces, now)
  {
    if pieces == [] {
      NoPieceLags(lanes, now);
    }
  }

  lemma LaterCeil(x: real, now: nat)
    ensures x > now as real ==> CeilTime(x) > now
  {
  }

  function Earlier(a: Option<nat>, b: Option<nat>): Option<nat> {
    if a.None? then b else if b.None? then a else Some(Min(a.value, b.value))
  }

  /** `next` is no later than what the lane asks for. */
  ghost predicate NotBefore(next: Option<nat>, peerOnly: bool, j: Judge, s: Source, l: Lane, pieces: seq<nat>) {
    && (Lagging(l, pieces) ==> next.Some? && next.value <= CeilTime(l.finishAt))
    && (!peerOnly && WatchAt(j, s, l).Some? ==> next.Some? && next.value <= WatchAt(j, s, l).value)
  }

  // ---- the watch ----

  ghost predicate AllCalm(j: Judge, now: nat, lanes: map<Source, Lane>) {
    forall s :: s in lanes ==> Calm(j, now, s, lanes[s])
  }

  ghost predicate CalmBut(j: Judge, now: nat, lanes: map<Source, Lane>, others: seq<Source>) {
    forall s :: s in lanes ==> s in others || Calm(j, now, s, lanes[s])
  }

  lemma CalmSupplied(j: Judge, now: nat, a: map<Source, Lane>, b: map<Source, Lane>)
    requires AllCalm(j, now, a) && Supplied(a, b, now)
    ensures AllCalm(j, now, b)
  {
    hide Stepped, Calm;
    forall s | s in b ensures Calm(j, now, s, b[s]) {
      if s in a && s.Peer? {
        assert EvolvedAt(a[s], b[s], now);
        CalmStays(j, now, s, a[s], b[s]);
      } else {
        OriginCalm(j, now, b[s]);
      }
    }
  }

  lemma OriginCalm(j: Judge, now: nat, l: Lane)
    ensures Calm(j, now, Origin, l)
  {
  }

  lemma RetiredCalm(j: Judge, now: nat, s: Source, l: Lane)
    requires l.retired
    ensures Calm(j, now, s, l)
  {
  }

  lemma WatchedOrCalm(j: Judge, now: nat, lanes: map<Source, Lane>, watched: seq<Source>)
    requires forall s :: s in watched <==> s in lanes && WatchAt(j, s, lanes[s]).Some?
    ensures CalmBut(j, now, lanes, watched)
    ensures forall h :: 0 <= h < |watched| ==> watched[h] in lanes && watched[h].Peer?
  {
    forall h | 0 <= h < |watched| ensures watched[h] in lanes && watched[h].Peer? {
      assert watched[h] in watched;
    }
  }

  lemma NoneHopeless(j: Judge, now: nat, lanes: map<Source, Lane>)
    requires AllCalm(j, now, lanes) && j.active
    ensures forall s :: s in lanes ==> !Hopeless(j, now, s, lanes[s])
  {
    forall s | s in lanes ensures !Hopeless(j, now, s, lanes[s]) {
      assert Calm(j, now, s, lanes[s]);
    }
  }

  lemma HopelessLive(j: Judge, now: nat, s: Source, l: Lane)
    requires Hopeless(j, now, s, l)
    ensures s.Peer? && !l.retired && l.inFlight != []
  {
  }

  lemma AbandonedCalm(j: Judge, now: nat, mid: map<Source, Lane>, lanes: map<Source, Lane>, p: nat, others: seq<Source>)
    requires CalmBut(j, now, mid, [Peer(p)] + others) && Supplied(Without(mid, p), lanes, now)
    ensures CalmBut(j, now, lanes, others) && mid.Keys <= lanes.Keys
  {
    hide Stepped, Calm;
    var gone := Without(mid, p);
    forall s | s in lanes ensures s in others || Calm(j, now, s, lanes[s]) {
      if s in gone && s.Peer? {
        assert EvolvedAt(gone[s], lanes[s], now);
        if s == Peer(p) {
          RetiredCalm(j, now, s, gone[s]);
          CalmStays(j, now, s, gone[s], lanes[s]);
        } else if s !in others {
          CalmStays(j, now, s, mid[s], lanes[s]);
        }
      } else {
        OriginCalm(j, now, lanes[s]);
      }
    }
  }

  lemma JudgedCalm(j: Judge, now: nat, mid: map<Source, Lane>, s: Source, l: Lane, others: seq<Source>)
    requires CalmBut(j, now, mid, [s] + others) && Calm(j, now, s, l)
    ensures CalmBut(j, now, mid[s := l], others)
  {
    hide Calm;
  }

  // ---- the endgame ----

  function RateOf(l: Lane): real {
    Positive(l.estimate.rate).GetOr(0.0)
  }

  lemma EndgameFits(k: Setup, st: State, duplicated: set<nat>, pieces: seq<nat>)
    requires Good(k, st, {}, {}) && !st.floorReached && pieces == Listed(Left(st.verified) - duplicated, |st.verified|)
    requires exists s :: s in st.lanes && Lagging(st.lanes[s], pieces)
    ensures Within(RunsOf(pieces), |k.hashes|) && Flat(RunsOf(pieces)) == pieces && NoDup(pieces) && SetOf(pieces) <= Left(st.verified)
    ensures st.started && !FloorPassed(st.log)
  {
    hide Good;
    GoodFacts(k, st, {}, {});
    ListedMembers(Left(st.verified) - duplicated, |st.verified|);
    RunsFlatten(pieces);
    forall j | 0 <= j < |pieces| ensures pieces[j] < |k.hashes| {
      assert pieces[j] in pieces;
    }
    RunsWithin(pieces, |k.hashes|);
  }

  lemma DuplicatedAll(verified: seq<bool>, duplicated: set<nat>, pieces: seq<nat>)
    requires pieces == Listed(Left(verified) - duplicated, |verified|)
    ensures Listed(Left(verified) - (duplicated + SetOf(pieces)), |verified|) == []
  {
    ListedMembers(Left(verified) - duplicated, |verified|);
    assert Left(verified) - (duplicated + SetOf(pieces)) == {};
    ListedNone(|verified|);
  }

  lemma EndgameProbing(k: Setup, first: map<Source, Lane>, lanes: map<Source, Lane>, source: Source, verified: seq<bool>,
                       probePeers: set<Source>, probeAvailable: set<Source>, badSeen: bool, now: nat)
    requires Probing(k, first, probePeers, probeAvailable, badSeen) && Keen(k, first, verified, probePeers, probeAvailable, badSeen, {})
    requires Supplied(first, lanes, now) && (source.Peer? ==> source in lanes && lanes == first[source := lanes[source]])
    requires k.peerOnly ==> source.Peer? && |Active(first)| < Max(k.maxHolders, 1)
    ensures Probing(k, lanes, probePeers, probeAvailable, badSeen) && Keen(k, lanes, verified, probePeers, probeAvailable, badSeen, {})
  {
    if k.peerOnly {
      ActiveMore(first, source, lanes[source]);
      OutNone(probeAvailable, lanes, verified);
      ProbingStays(k, first, lanes, verified, probePeers, probeAvailable, probeAvailable, badSeen, {}, now);
    } else {
      MixedProbing(k, lanes, verified, probePeers, probeAvailable, badSeen, {});
    }
  }

  lemma IdleFree(k: Setup, st: State, s: Source, ranges: seq<PieceRange>)
    requires !st.exclusive && (s.Peer? ==> Unoccupied(st.lanes, s))
    ensures FreeOf(TermsOf(k, st), HoldsOf(st.lanes), s, SetOf(Flat(ranges[0..])))
  {
    if s.Peer? {
      IdleEmpty(st.lanes[s]);
    }
  }

  lemma NextRange(k: Setup, st: State, s: Source, ranges: seq<PieceRange>, j: nat)
    requires j < |ranges| && Within(ranges, |k.hashes|) && NoDup(Flat(ranges[j..])) && SetOf(Flat(ranges[j..])) <= Left(st.verified)
    requires FreeOf(TermsOf(k, st), HoldsOf(st.lanes), s, SetOf(Flat(ranges[j..]))) && !st.exclusive && Good(k, st, {}, {})
    requires !st.finished && st.started && !FloorPassed(st.log)
    requires if s == Origin then !k.peerOnly else s in st.lanes && !st.lanes[s].retired
    ensures MayTake(k, st, s, [ranges[j]]) && FreeOf(TermsOf(k, st), HoldsOf(st.lanes), s, SetOf(Flat(ranges[j + 1..])))
    ensures NoDup(Flat(ranges[j + 1..])) && SetOf(Flat([ranges[j]])) !! SetOf(Flat(ranges[j + 1..]))
    ensures SetOf(Flat(ranges[j + 1..])) <= Left(st.verified)
  {
    hide Good, NoDup, HoldOf;
    var rest := ranges[j..];
    assert rest[0] == ranges[j] && rest[1..] == ranges[j + 1..];
    FlatOne(ranges[j]);
    NoDupConcat(Flat([ranges[j]]), Flat(ranges[j + 1..]));
    SetOfConcat(Flat([ranges[j]]), Flat(ranges[j + 1..]));
    if Origin in st.lanes {
      GoodLanes(k, st, {}, {}, Origin);
    }
  }

  lemma FreeNone(t: Terms, holds: map<Source, Hold>)
    ensures Free(t, holds, {})
  {
  }

  lemma TakesKnown(k: Setup, st: State, s: Source, range: PieceRange)
    requires MayTake(k, st, s, [range])
    ensures s in st.lanes || s == Origin
  {
  }

  lemma FreeOfNext(k: Setup, st: State, mid: map<Source, Lane>, s: Source, range: PieceRange, rest: set<nat>, finishAt: real, now: nat)
    requires !st.exclusive && s in st.lanes && (s.Peer? ==> s in mid)
    requires FreeOf(TermsOf(k, st), HoldsOf(mid), s, rest) && SetOf(Flat([range])) !! rest
    requires Given(s, LaneOf(mid, s, now), st.lanes[s], [range], finishAt, now)
    ensures FreeOf(TermsOf(k, st), HoldsOf(st.lanes), s, rest)
    ensures s in mid ==> st.lanes[s].retired == mid[s].retired
  {
    if s.Peer? {
      var l, l' := mid[s], st.lanes[s];
      SetOfConcat(Flying(l.inFlight), Flat(l.queue));
      SetOfConcat(Flying(l'.inFlight), Flat(l'.queue));
      SetOfConcat(Work(l), Flat([range]));
    }
  }

  // ---- the floor ----

  /** Of the peers in `late` the first `n` have been retired. */
  ghost predicate RetiredFirst(first: map<Source, Lane>, lanes: map<Source, Lane>, late: seq<Source>, n: nat)
    requires n <= |late|
  {
    && lanes.Keys == first.Keys && (forall j :: n <= j < |late| ==> LivePeer(lanes, late[j]))
    && forall s :: s in lanes ==> if s in late[..n] then lanes[s].retired else lanes[s] == first[s]
  }

  lemma NoneRetired(lanes: map<Source, Lane>, late: seq<Source>)
    requires forall s :: s in late <==> s in Active(lanes) - {Origin}
    ensures RetiredFirst(lanes, lanes, late, 0) && {} == SetOf(late[..0])
  {
    forall j | 0 <= j < |late| ensures LivePeer(lanes, late[j]) {
      assert late[j] in late;
    }
  }

  lemma RetiredNext(first: map<Source, Lane>, mid: map<Source, Lane>, lanes: map<Source, Lane>, late: seq<Source>, n: nat)
    requires n < |late| && RetiredFirst(first, mid, late, n) && forall i, j :: 0 <= i < j < |late| ==> SourceLess(late[i], late[j])
    requires late[n] in lanes && lanes[late[n]].retired && lanes == mid[late[n] := lanes[late[n]]]
    ensures RetiredFirst(first, lanes, late, n + 1) && SetOf(late[..n + 1]) == SetOf(late[..n]) + {late[n]}
  {
    assert late[..n + 1] == late[..n] + [late[n]];
    forall j | n < j < |late| ensures LivePeer(lanes, late[j]) {
      assert SourceLess(late[n], late[j]) && LivePeer(mid, late[j]);
    }
  }

  lemma LateIdle(k: Setup, st: State, orphans: set<nat>, first: map<Source, Lane>, late: seq<Source>)
    requires Good(k, st, orphans, {}) && RetiredFirst(first, st.lanes, late, |late|)
    requires forall s :: s in late <==> s in Active(first) - {Origin}
    ensures PeersIdle(st.lanes) && SetOf(late[..|late|]) == Active(first) - {Origin}
  {
    hide Good, NoDup, Work, Within, FlightsWithin;
    assert late[..|late|] == late;
    forall s | s in st.lanes && s.Peer? ensures st.lanes[s].inFlight == [] && st.lanes[s].queue == [] {
      GoodLanes(k, st, orphans, {}, s);
      if s !in late {
        assert st.lanes[s] == first[s] && s !in Active(first);
      }
    }
  }

  lemma FloorNeeds(k: Setup, st: State, pieces: seq<nat>, needed: seq<nat>)
    requires Good(k, st, SetOf(pieces), {}) && needed == Listed(SetOf(pieces) * Loose(st.verified, st.lanes), |st.verified|)
    ensures Flat(RunsOf(needed)) == needed && Within(RunsOf(needed), |k.hashes|) && NoDup(needed)
    ensures SetOf(needed) <= Left(st.verified) && Free(TermsOf(k, st), HoldsOf(st.lanes), SetOf(needed))
    ensures Good(k, st, SetOf(needed), {})
  {
    hide Good, HeldIn, Free, RunsOf, Within;
    var uncovered := Loose(st.verified, st.lanes);
    GoodFacts(k, st, SetOf(pieces), {});
    ListedMembers(SetOf(pieces) * uncovered, |st.verified|);
    assert SetOf(needed) == SetOf(pieces) * uncovered;
    RunsFlatten(needed);
    forall j | 0 <= j < |needed| ensures needed[j] < |k.hashes| {
      assert needed[j] in needed;
    }
    RunsWithin(needed, |k.hashes|);
    OrphansHeld(k, st, SetOf(pieces), SetOf(needed), {});
    LooseFree(k, st, SetOf(needed));
  }

  lemma LooseFree(k: Setup, st: State, needed: set<nat>)
    requires LanesOk(TermsOf(k, st), st.lanes, {}) && needed <= Loose(st.verified, st.lanes)
    ensures Free(TermsOf(k, st), HoldsOf(st.lanes), needed)
  {
    hide HeldIn, FreeAt, LaneOk;
    forall i | i in needed ensures FreeAt(TermsOf(k, st), HoldsOf(st.lanes), i) {
      HeldInIsHeldBy(TermsOf(k, st), st.lanes, {}, i);
      UnheldIsFree(TermsOf(k, st), HoldsOf(st.lanes), i);
    }
  }

  lemma NextForOrigin(k: Setup, st: State, ranges: seq<PieceRange>, j: nat)
    requires j < |ranges| && Within(ranges, |k.hashes|) && NoDup(Flat(ranges[j..])) && SetOf(Flat(ranges[j..])) <= Left(st.verified)
    requires Free(TermsOf(k, st), HoldsOf(st.lanes), SetOf(Flat(ranges[j..])))
    requires Good(k, st, SetOf(Flat(ranges[j..])), {}) && !st.finished && st.started && !k.peerOnly && Origin in st.lanes
    ensures MayTake(k, st, Origin, [ranges[j]]) && Free(TermsOf(k, st), HoldsOf(st.lanes), SetOf(Flat(ranges[j + 1..])))
    ensures NoDup(Flat(ranges[j + 1..])) && PieceSet(ranges[j]) !! SetOf(Flat(ranges[j + 1..]))
    ensures SetOf(Flat(ranges[j + 1..])) <= Left(st.verified)
    ensures SetOf(Flat(ranges[j..])) - PieceSet(ranges[j]) == SetOf(Flat(ranges[j + 1..]))
  {
    hide Good, NoDup, HoldOf, FreeAt;
    var rest := ranges[j..];
    assert rest[0] == ranges[j] && rest[1..] == ranges[j + 1..];
    FlatOne(ranges[j]);
    NoDupConcat(Flat([ranges[j]]), Flat(ranges[j + 1..]));
    SetOfConcat(Flat([ranges[j]]), Flat(ranges[j + 1..]));
    FreeIsFreeOf(TermsOf(k, st), HoldsOf(st.lanes), Origin, PieceSet(ranges[j]));
    GoodLanes(k, st, SetOf(Flat(ranges[j..])), {}, Origin);
  }
}

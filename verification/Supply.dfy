/** Queued work on its way: what sending and giving work does to the lanes of a
    transfer, one source or a whole plan at a time. */
module Supply {
  import opened Wrappers
  import opened Pieces
  import opened Sorting
  import opened Estimates
  import opened Planner
  import opened Lanes
  import opened Books
  import opened Ownership
  import opened Dispatch
  import opened States

  // ---- order ----

  /** Sources in the map's order: peers by number, then origin. */
  method InOrder(sources: set<Source>) returns (keys: seq<Source>)
    ensures forall s :: s in keys <==> s in sources
    ensures forall i, j :: 0 <= i < j < |keys| ==> SourceLess(keys[i], keys[j])
  {
    keys := [];
    var left := sources;
    while left != {}
      invariant forall s :: s in sources <==> s in left || s in keys
      invariant forall i, j :: 0 <= i < j < |keys| ==> SourceLess(keys[i], keys[j])
      invariant forall i, s :: 0 <= i < |keys| && s in left ==> SourceLess(keys[i], s)
      decreases left
    {
      LeastSource(left);
      var s :| s in left && forall u :: u in left && u != s ==> SourceLess(s, u);
      keys, left := keys + [s], left - {s};
    }
  }

  lemma {:induction false} LeastSource(sources: set<Source>)
    requires sources != {}
    ensures exists s :: s in sources && forall u :: u in sources && u != s ==> SourceLess(s, u)
    decreases sources
  {
    var x :| x in sources;
    var rest := sources - {x};
    if rest == {} {
      forall u | u in sources ensures u == x {
        assert u in rest || u == x;
      }
    } else {
      LeastSource(rest);
      var s :| s in rest && forall u :: u in rest && u != s ==> SourceLess(s, u);
      var least := if SourceLess(x, s) then x else s;
      forall u | u in sources && u != least ensures SourceLess(least, u) {
        assert u == x || u in rest;
      }
    }
  }

  lemma NoneListed(sources: set<Source>, keys: seq<Source>)
    requires forall s :: s in keys <==> s in sources
    ensures keys == [] <==> sources == {}
    ensures forall j :: 0 <= j < |keys| ==> keys[j] in sources
  {
    forall j | 0 <= j < |keys| ensures keys[j] in sources {
      assert keys[j] in keys;
    }
    if sources != {} {
      var s :| s in sources;
      assert s in keys;
    }
    if keys != [] {
      assert keys[0] in sources;
    }
  }

  lemma UpdateSame<K, V>(m: map<K, V>, x: K)
    requires x in m
    ensures m[x := m[x]] == m
  {
  }

  lemma UpdateTwice<K, V>(m: map<K, V>, x: K, a: V, b: V)
    ensures m[x := a][x := b] == m[x := b]
  {
  }

  // ---- sending the queue of one source ----

  /** What sending the queue of `s` does to its lane. A peer is sent one bounded
      request when it is idle; origin is sent everything but the last `tail`
      pieces, in exclusive mode only when it is idle. */
  ghost predicate Issued(ps: nat, exclusive: bool, tail: nat, s: Source, l: Lane, l': Lane, now: nat) {
    if s.Peer? then l' == if l.inFlight == [] && l.queue != [] && ps > 0 then SendFront(l, PeerCap(ps), now) else l
    else if exclusive && l.inFlight != [] then l' == l
    else SentMore(l, l') && Work(l') == Work(l) && |Flat(l'.queue)| == tail && (l.queue != [] ==> l'.inFlight != [])
  }

  ghost predicate SentOnce(ps: nat, l: Lane, l': Lane, now: nat) {
    ps > 0 && l.inFlight == [] && l.queue != [] && l' == SendFront(l, PeerCap(ps), now)
  }

  ghost predicate SentMore(l: Lane, l': Lane) {
    && l.inFlight <= l'.inFlight
    && l' == l.(queue := l'.queue, inFlight := l'.inFlight, firstByteAt := l'.firstByteAt, flow := l'.flow, checkedAt := l'.checkedAt)
  }

  /** One request has gone: the same work, a shorter queue. */
  ghost predicate Sending(l: Lane, l': Lane, r: PieceRange, cap: nat) {
    && SentMore(l, l') && Work(l') == Work(l) && l'.inFlight != []
    && r.start < r.end && r.end - r.start <= cap
    && |Flat(l.queue)| == |Flat(l'.queue)| + (r.end - r.start)
    && (l'.queue != [] ==> 0 < QueueHead(l') <= |Flat(l'.queue)|)
  }

  /** What `Issue` knows when the lane of `s` has gone from `first` to `l`: `prefix`
      pieces are still to go before the tail that is held back. */
  ghost predicate SentSoFar(ps: nat, s: Source, first: Lane, l: Lane, prefix: nat, tail: nat, now: nat) {
    && SentMore(first, l) && Work(l) == Work(first)
    && (s.Peer? ==> l == first || SentOnce(ps, first, l, now))
    && (l.queue != [] ==> 0 < QueueHead(l) <= |Flat(l.queue)| && (prefix > 0 || l.inFlight != []))
    && (s == Origin ==> |Flat(l.queue)| == prefix + tail)
    && (first.queue != [] && l.inFlight == [] ==> l.queue != [])
  }

  lemma NoneIssued(ps: nat, tail: nat, l: Lane, now: nat)
    requires l.inFlight != []
    ensures Issued(ps, true, tail, Origin, l, l, now)
  {
  }

  lemma SentNone(ps: nat, s: Source, l: Lane, prefix: nat, tail: nat, now: nat)
    requires l.queue == [] <==> |Flat(l.queue)| == 0
    requires l.queue != [] ==> 0 < QueueHead(l) <= |Flat(l.queue)|
    requires |Flat(l.queue)| == prefix + tail && tail <= Since(|Flat(l.queue)|, 1)
    ensures SentSoFar(ps, s, l, l, prefix, tail, now)
  {
  }

  lemma SentHead(ps: nat, s: Source, first: Lane, l: Lane, prefix: nat, tail: nat, now: nat)
    requires SentSoFar(ps, s, first, l, prefix, tail, now) && l.queue != []
    ensures QueueHead(l) > 0 && (s == Origin ==> |Flat(l.queue)| == prefix + tail)
  {
  }

  lemma SentNext(ps: nat, exclusive: bool, s: Source, first: Lane, l: Lane, l': Lane, r: PieceRange, cap: nat, prefix: nat, tail: nat, now: nat)
    requires SentSoFar(ps, s, first, l, prefix, tail, now) && l.queue != [] && cap > 0 && Sending(l, l', r, cap) && ps > 0
    requires s.Peer? ==> l.inFlight == [] && cap == PeerCap(ps)
    requires s == Origin ==> if exclusive then cap == prefix else cap == QueueHead(l) && tail == 0
    requires l' == SendFront(l, cap, now)
    ensures r.start < r.end && l'.retired == l.retired && |Flat(l'.queue)| < |Flat(l.queue)|
    ensures s == Origin ==> r.end - r.start <= prefix
    ensures SentSoFar(ps, s, first, l', if s == Origin then prefix - (r.end - r.start) else prefix, tail, now)
  {
    hide Work, Flat, PeerCap;
  }

  lemma SentAll(ps: nat, exclusive: bool, s: Source, first: Lane, l: Lane, prefix: nat, tail: nat, now: nat)
    requires SentSoFar(ps, s, first, l, prefix, tail, now) && ps > 0
    requires l.queue == [] || (s.Peer? && l.inFlight != []) || (exclusive && s == Origin && prefix == 0)
    requires exclusive && s == Origin ==> first.inFlight == []
    ensures Issued(ps, exclusive, tail, s, first, l, now) && Work(l) == Work(first)
    ensures l.queue != [] ==> l.inFlight != []
  {
    hide Work, PeerCap;
  }

  function QueueHead(l: Lane): nat {
    if l.queue == [] || l.queue[0].end < l.queue[0].start then 0 else l.queue[0].end - l.queue[0].start
  }

  lemma QueueLength(t: Terms, s: Source, l: Lane)
    requires LaneOk(t, s, l)
    ensures l.queue == [] <==> |Flat(l.queue)| == 0
    ensures l.queue != [] ==> 0 < QueueHead(l) <= |Flat(l.queue)|
  {
  }

  lemma SendLength(t: Terms, s: Source, l: Lane, cap: nat, now: nat)
    requires LaneOk(t, s, l) && l.queue != [] && cap > 0 && (s.Peer? ==> l.inFlight == [])
    ensures Sending(l, SendFront(l, cap, now), Front(l.queue, cap), cap)
  {
    hide NoDup, Work, Flat, Flying, Span, HoldOf, PieceSet;
    SendLane(t, s, l, cap, now);
    Cuts(l.queue, cap, t.n);
    QueueLength(t, s, SendFront(l, cap, now));
  }

  // ---- giving work to one source ----

  /** What giving `ranges` to `s` does to its lane: more work, sent as far as it
      may be, and no other change that anyone watches. */
  ghost predicate Given(s: Source, l: Lane, l': Lane, ranges: seq<PieceRange>, finishAt: real, now: nat) {
    && Work(l') == Work(l) + Flat(ranges) && l'.finishAt == finishAt && l'.retired == l.retired
    && l.inFlight <= l'.inFlight && (ranges != [] ==> l'.inFlight != [])
    && l'.estimate == l.estimate && (s.Peer? ==> EvolvedAt(l, l', now))
  }

  lemma IssuedGiven(ps: nat, exclusive: bool, tail: nat, s: Source, l: Lane, ranges: seq<PieceRange>, finishAt: real, l': Lane, now: nat)
    requires Issued(ps, exclusive, tail, s, l.(queue := l.queue + ranges, finishAt := finishAt), l', now)
    requires (s.Peer? ==> ps > 0) && Work(l') == Work(l.(queue := l.queue + ranges, finishAt := finishAt))
    ensures Given(s, l, l', ranges, finishAt, now)
  {
    FlatConcat(l.queue, ranges);
    ConcatAssoc(Flying(l.inFlight), Flat(l.queue), Flat(ranges));
  }

  lemma FreeLess(t: Terms, holds: map<Source, Hold>, pieces: set<nat>, less: set<nat>)
    requires Free(t, holds, pieces) && less <= pieces
    ensures Free(t, holds, less)
  {
  }

  lemma FreeStays(t: Terms, lanes: map<Source, Lane>, s: Source, l: Lane, ranges: seq<PieceRange>, finishAt: real,
                  others: set<nat>, now: nat)
    requires Free(t, HoldsOf(lanes), others) && SetOf(Flat(ranges)) !! others
    requires Given(s, LaneOf(lanes, s, now), l, ranges, finishAt, now)
    ensures Free(t, HoldsOf(lanes[s := l]), others)
  {
    var l0, pieces := LaneOf(lanes, s, now), SetOf(Flat(ranges));
    SetOfConcat(Work(l0), Flat(ranges));
    assert HoldOf(l).sent + HoldOf(l).queued == HoldOf(l0).sent + HoldOf(l0).queued + pieces by {
      SetOfConcat(Flying(l.inFlight), Flat(l.queue));
      SetOfConcat(Flying(l0.inFlight), Flat(l0.queue));
    }
    NewLaneOk(t, Estimate(s, None, None), now);
    hide HoldOf, Work;
    forall i | i in others ensures FreeAt(t, HoldsOf(lanes[s := l]), i) {
      FreeAtStays(t, lanes, s, l, l0, pieces, i);
    }
  }

  lemma FreeAtStays(t: Terms, lanes: map<Source, Lane>, s: Source, l: Lane, l0: Lane, pieces: set<nat>, i: nat)
    requires FreeAt(t, HoldsOf(lanes), i) && i !in pieces
    requires l0 == if s in lanes then lanes[s] else l0
    requires s !in lanes ==> i !in HoldOf(l0).sent + HoldOf(l0).queued
    requires HoldOf(l).sent + HoldOf(l).queued == HoldOf(l0).sent + HoldOf(l0).queued + pieces
    ensures FreeAt(t, HoldsOf(lanes[s := l]), i)
  {
    hide HoldOf;
    var holds, holds' := HoldsOf(lanes), HoldsOf(lanes[s := l]);
    forall u | u in holds' && (u.Peer? || t.exclusive) ensures i !in holds'[u].sent && i !in holds'[u].queued {
      if u == s {
        assert i !in HoldOf(l0).sent + HoldOf(l0).queued;
        assert i !in HoldOf(l).sent + HoldOf(l).queued;
      } else {
        assert holds'[u] == holds[u];
      }
    }
  }

  // ---- what the lanes keep ----

  predicate LivePeer(lanes: map<Source, Lane>, s: Source) {
    s in lanes && s.Peer? && !lanes[s].retired
  }

  /** Lanes only gained work: nothing was taken from flight and nobody retired. */
  ghost predicate Supplied(lanes: map<Source, Lane>, lanes': map<Source, Lane>, now: nat) {
    && Evolved(lanes, lanes', now)
    && forall s :: s in lanes ==> SuppliedAt(lanes[s], lanes'[s])
  }

  ghost predicate SuppliedAt(l: Lane, l': Lane) {
    l'.retired == l.retired && l.inFlight <= l'.inFlight && l'.estimate == l.estimate
  }

  /** Every lane that changed is projected to be busy for a while yet. */
  ghost predicate Prompt(lanes: map<Source, Lane>, lanes': map<Source, Lane>, now: nat) {
    forall s :: s in lanes' ==> (s in lanes && lanes'[s] == lanes[s]) || lanes'[s].finishAt > now as real
  }

  lemma SuppliedSame(lanes: map<Source, Lane>, now: nat)
    ensures Supplied(lanes, lanes, now) && Prompt(lanes, lanes, now)
  {
  }

  lemma SteppedSame(l: Lane, now: nat)
    ensures EvolvedAt(l, l, now)
  {
  }

  lemma SuppliedNext(first: map<Source, Lane>, lanes: map<Source, Lane>, s: Source, l: Lane, ranges: seq<PieceRange>,
                     finishAt: real, now: nat)
    requires Supplied(first, lanes, now) && (s in lanes || s == Origin)
    requires Given(s, LaneOf(lanes, s, now), l, ranges, finishAt, now)
    ensures Supplied(first, lanes[s := l], now)
    ensures Prompt(first, lanes, now) && finishAt > now as real ==> Prompt(first, lanes[s := l], now)
  {
    hide EvolvedAt, Stepped, SameWatch, Work;
    var lanes' := lanes[s := l];
    forall u | u in lanes && u.Peer? ensures EvolvedAt(lanes[u], lanes'[u], now) {
      SteppedSame(lanes[u], now);
    }
    assert Evolved(lanes, lanes', now);
    EvolvedTrans(first, lanes, lanes', now);
    forall u | u in first ensures SuppliedAt(first[u], lanes'[u]) {
      assert SuppliedAt(first[u], lanes[u]);
    }
  }

  lemma SuppliedTrans(a: map<Source, Lane>, b: map<Source, Lane>, c: map<Source, Lane>, now: nat)
    requires Supplied(a, b, now) && Supplied(b, c, now)
    ensures Supplied(a, c, now)
  {
    EvolvedTrans(a, b, c, now);
    hide Evolved;
    forall s | s in a ensures SuppliedAt(a[s], c[s]) {
      assert SuppliedAt(a[s], b[s]) && SuppliedAt(b[s], c[s]);
    }
  }

  lemma SuppliedBusy(a: map<Source, Lane>, b: map<Source, Lane>, now: nat)
    requires Supplied(a, b, now)
    ensures forall s :: Busy(a, s) ==> Busy(b, s)
    ensures forall s :: s in a ==> s in b && (LivePeer(b, s) <==> LivePeer(a, s)) && b[s].estimate == a[s].estimate
    ensures forall s :: LivePeer(b, s) ==> s in a
  {
    hide EvolvedAt;
    forall s | s in a ensures s in b && b[s].retired == a[s].retired && a[s].inFlight <= b[s].inFlight && b[s].estimate == a[s].estimate {
      assert SuppliedAt(a[s], b[s]);
    }
  }

  lemma SuppliedKeys(a: map<Source, Lane>, b: map<Source, Lane>, now: nat)
    requires Supplied(a, b, now)
    ensures a.Keys <= b.Keys
  {
  }

  lemma EvolvedSame(lanes: map<Source, Lane>, now: nat)
    ensures Evolved(lanes, lanes, now)
  {
  }

  /** The source has a request in flight. */
  predicate Busy(lanes: map<Source, Lane>, s: Source) {
    s in lanes && lanes[s].inFlight != []
  }

  ghost predicate InFlight(lanes: map<Source, Lane>) {
    exists s :: Busy(lanes, s)
  }

  lemma InFlightBusy(lanes: map<Source, Lane>, assignments: seq<Assignment>)
    requires assignments != [] && forall j :: 0 <= j < |assignments| ==> Busy(lanes, assignments[j].source)
    ensures InFlight(lanes)
  {
    assert Busy(lanes, assignments[0].source);
  }

  lemma SuppliedInFlight(a: map<Source, Lane>, b: map<Source, Lane>, now: nat)
    requires Supplied(a, b, now)
    ensures InFlight(a) ==> InFlight(b)
  {
    SuppliedBusy(a, b, now);
    hide Supplied, Busy;
    if InFlight(a) {
      var s :| Busy(a, s);
      assert Busy(b, s);
    }
  }

  lemma StillSending(lanes: map<Source, Lane>, s: Source, l: Lane, ranges: seq<PieceRange>, finishAt: real, now: nat)
    requires Given(s, LaneOf(lanes, s, now), l, ranges, finishAt, now) && ranges != []
    ensures Busy(lanes[s := l], s)
    ensures forall u :: Busy(lanes, u) ==> Busy(lanes[s := l], u)
  {
  }

  /** The live sources that have work. */
  function Active(lanes: map<Source, Lane>): set<Source> {
    set s | s in lanes && !lanes[s].retired && (lanes[s].inFlight != [] || lanes[s].queue != [])
  }

  lemma ActiveMore(lanes: map<Source, Lane>, s: Source, l: Lane)
    ensures |Active(lanes[s := l])| <= |Active(lanes)| + 1
  {
    assert Active(lanes[s := l]) <= Active(lanes) + {s};
    SubsetSize(Active(lanes[s := l]), Active(lanes) + {s});
  }

  lemma LanesKeyed(k: Setup, st: State, loose: set<Source>)
    requires Good(k, st, {}, loose)
    ensures forall s :: s in st.lanes ==> st.lanes[s].estimate.source == s
    ensures k.peerOnly ==> Origin !in st.lanes
  {
    hide Kept, Logged, NoDup;
  }

  // ---- carrying out a plan ----

  /** The assignments fit the transfer: their pieces are unverified, free and
      distinct, and every source is a live lane or origin. */
  ghost predicate Dispatchable(k: Setup, st: State, assignments: seq<Assignment>) {
    && !st.finished && st.started
    && SetOf(PiecesOf(assignments)) <= Left(st.verified)
    && (FloorPassed(st.log) ==> assignments == [])
    && (forall j :: 0 <= j < |assignments| ==> AssignableAt(k, st, assignments[j]))
  }

  ghost predicate AssignableAt(k: Setup, st: State, a: Assignment) {
    && Within(a.ranges, |k.hashes|) && a.ranges != []
    && (if a.source == Origin then !k.peerOnly else a.source in st.lanes && !st.lanes[a.source].retired)
    && (Origin in st.lanes ==> !st.lanes[Origin].retired)
  }

  ghost predicate AllPositive(assignments: seq<Assignment>) {
    forall j :: 0 <= j < |assignments| ==> assignments[j].projectedMs > 0.0
  }

  /** Assignment `k` brings new pieces, disjoint from those before it. */
  lemma PiecesStep(assignments: seq<Assignment>, k: nat)
    requires k < |assignments| && NoDup(PiecesOf(assignments))
    ensures var done, more := PiecesOf(assignments[..k]), Flat(assignments[k].ranges);
            PiecesOf(assignments[..k + 1]) == done + more && NoDup(more) && SetOf(done) !! SetOf(more) &&
            SetOf(done + more) == SetOf(done) + SetOf(more) && SetOf(more) <= SetOf(PiecesOf(assignments))
  {
    hide PiecesOf, Flat, SetOf, NoDup;
    var done, more := PiecesOf(assignments[..k]), Flat(assignments[k].ranges);
    var all := PiecesOf(assignments);
    assert assignments[..k + 1] == assignments[..k] + [assignments[k]];
    PiecesOfSnoc(assignments[..k], assignments[k]);
    PiecesPrefix(assignments, k + 1);
    var rest := all[|done + more|..];
    assert all == (done + more) + rest;
    NoDupConcat(done + more, rest);
    SetOfConcat(done + more, rest);
    NoDupConcat(done, more);
    SetOfConcat(done, more);
  }

  lemma {:induction false} PiecesPrefix(assignments: seq<Assignment>, k: nat)
    requires k <= |assignments|
    ensures PiecesOf(assignments[..k]) <= PiecesOf(assignments)
    decreases |assignments|
  {
    var n := |assignments| - 1;
    if k <= n {
      PiecesPrefix(assignments[..n], k);
      assert assignments[..n][..k] == assignments[..k];
    } else {
      assert assignments[..k] == assignments;
    }
  }

  ghost function Done(assignments: seq<Assignment>, k: nat): set<nat>
    requires k <= |assignments|
  {
    SetOf(PiecesOf(assignments[..k]))
  }

  /** The pieces of assignments `k` and later. */
  ghost function Rest(assignments: seq<Assignment>, k: nat): set<nat>
    requires k <= |assignments|
  {
    SetOf(PiecesOf(assignments)) - Done(assignments, k)
  }

  lemma RestEnd(assignments: seq<Assignment>)
    ensures Done(assignments, |assignments|) == SetOf(PiecesOf(assignments))
  {
    assert assignments[..|assignments|] == assignments;
  }

  lemma RestStart(assignments: seq<Assignment>, orphans: set<nat>)
    ensures Rest(assignments, 0) == SetOf(PiecesOf(assignments)) && orphans - Done(assignments, 0) == orphans
  {
    assert assignments[..0] == [];
  }

  lemma RestNext(assignments: seq<Assignment>, k: nat, orphans: set<nat>)
    requires k < |assignments| && NoDup(PiecesOf(assignments))
    ensures var more := SetOf(Flat(assignments[k].ranges));
            NoDup(Flat(assignments[k].ranges)) && more <= Rest(assignments, k) && more !! Rest(assignments, k + 1) &&
            Rest(assignments, k + 1) <= Rest(assignments, k) &&
            orphans - Done(assignments, k) - more == orphans - Done(assignments, k + 1)
  {
    PiecesStep(assignments, k);
  }

  lemma DispatchTakes(k: Setup, first: State, st: State, orphans: set<nat>, loose: set<Source>,
                      assignments: seq<Assignment>, j: nat, now: nat)
    requires Dispatchable(k, first, assignments) && j < |assignments| && NoDup(PiecesOf(assignments))
    requires st == first.(lanes := st.lanes, commands := st.commands, log := st.log, pending := st.pending)
    requires Carried(first.lanes, st.lanes, assignments, j, now) && FloorPassed(st.log) == FloorPassed(first.log)
    requires Free(TermsOf(k, st), HoldsOf(st.lanes), Rest(assignments, j)) && Good(k, st, orphans, loose)
    ensures MayTake(k, st, assignments[j].source, assignments[j].ranges)
    ensures assignments[j].source in st.lanes || assignments[j].source == Origin
    ensures assignments[j].ranges != []
    ensures Free(TermsOf(k, st), HoldsOf(st.lanes), Rest(assignments, j + 1))
  {
    hide EvolvedAt, Within, NoDup, FreeAt, Good, LaneOk;
    RestNext(assignments, j, {});
    FreeLess(TermsOf(k, st), HoldsOf(st.lanes), Rest(assignments, j), SetOf(Flat(assignments[j].ranges)));
    FreeIsFreeOf(TermsOf(k, st), HoldsOf(st.lanes), assignments[j].source, SetOf(Flat(assignments[j].ranges)));
    assert AssignableAt(k, first, assignments[j]);
    if Origin in st.lanes {
      GoodLanes(k, st, orphans, loose, Origin);
    }
  }

  function WorkIn(lanes: map<Source, Lane>, s: Source): seq<nat> {
    if s in lanes then Work(lanes[s]) else []
  }

  /** The pieces that the assignments give to `s`, in order. */
  function WorkOf(assignments: seq<Assignment>, s: Source): seq<nat>
    decreases |assignments|
  {
    if assignments == [] then []
    else
      var last := assignments[|assignments| - 1];
      WorkOf(assignments[..|assignments| - 1], s) + if last.source == s then Flat(last.ranges) else []
  }

  /** Every source has the work that it had, then what the assignments give it. */
  ghost predicate Shared(first: map<Source, Lane>, lanes: map<Source, Lane>, assignments: seq<Assignment>) {
    forall s :: WorkIn(lanes, s) == WorkIn(first, s) + WorkOf(assignments, s)
  }

  lemma SharedNone(lanes: map<Source, Lane>)
    ensures Shared(lanes, lanes, [])
  {
    forall s ensures WorkIn(lanes, s) == WorkIn(lanes, s) + WorkOf([], s) {
      assert WorkIn(lanes, s) + [] == WorkIn(lanes, s);
    }
  }

  lemma SharedNext(first: map<Source, Lane>, lanes: map<Source, Lane>, assignments: seq<Assignment>, k: nat, l: Lane, now: nat)
    requires k < |assignments| && Shared(first, lanes, assignments[..k])
    requires Work(l) == Work(LaneOf(lanes, assignments[k].source, now)) + Flat(assignments[k].ranges)
    ensures Shared(first, lanes[assignments[k].source := l], assignments[..k + 1])
  {
    hide Work, Flat;
    var a, lanes' := assignments[k], lanes[assignments[k].source := l];
    assert assignments[..k + 1][..k] == assignments[..k];
    assert Work(NewLane(Estimate(a.source, None, None), now)) == [] by {
      NewWork(a.source, now);
    }
    forall s ensures WorkIn(lanes', s) == WorkIn(first, s) + WorkOf(assignments[..k + 1], s) {
      assert WorkIn(lanes, s) == WorkIn(first, s) + WorkOf(assignments[..k], s);
      if s == a.source {
        assert Work(LaneOf(lanes, s, now)) == WorkIn(lanes, s);
        ConcatAssoc(WorkIn(first, s), WorkOf(assignments[..k], s), Flat(a.ranges));
      } else {
        assert WorkOf(assignments[..k], s) + [] == WorkOf(assignments[..k], s);
      }
    }
  }

  lemma SharedGiven(first: map<Source, Lane>, lanes: map<Source, Lane>, assignments: seq<Assignment>, k: nat, l: Lane, finishAt: real,
                    now: nat)
    requires k < |assignments| && Shared(first, lanes, assignments[..k])
    requires Given(assignments[k].source, LaneOf(lanes, assignments[k].source, now), l, assignments[k].ranges, finishAt, now)
    ensures Shared(first, lanes[assignments[k].source := l], assignments[..k + 1])
  {
    hide Shared, EvolvedAt;
    SharedNext(first, lanes, assignments, k, l, now);
  }

  lemma NewWork(s: Source, now: nat)
    ensures Work(NewLane(Estimate(s, None, None), now)) == []
  {
  }

  /** What carrying out the first `k` assignments does to the lanes. */
  ghost predicate Carried(first: map<Source, Lane>, lanes: map<Source, Lane>, assignments: seq<Assignment>, k: nat, now: nat)
    requires k <= |assignments|
  {
    && Supplied(first, lanes, now) && (AllPositive(assignments) ==> Prompt(first, lanes, now))
    && |Active(lanes)| <= |Active(first)| + k && Shared(first, lanes, assignments[..k])
    && forall j :: 0 <= j < k ==> Busy(lanes, assignments[j].source)
  }

  lemma CarriedNone(lanes: map<Source, Lane>, assignments: seq<Assignment>, now: nat)
    ensures Carried(lanes, lanes, assignments, 0, now)
  {
    SharedNone(lanes);
    SuppliedSame(lanes, now);
  }

  lemma CarriedAll(first: map<Source, Lane>, lanes: map<Source, Lane>, assignments: seq<Assignment>, now: nat)
    requires Carried(first, lanes, assignments, |assignments|, now)
    ensures Supplied(first, lanes, now) && (AllPositive(assignments) ==> Prompt(first, lanes, now))
    ensures |Active(lanes)| <= |Active(first)| + |assignments| && Shared(first, lanes, assignments)
    ensures forall j :: 0 <= j < |assignments| ==> Busy(lanes, assignments[j].source)
  {
    hide Shared;
    assert assignments[..|assignments|] == assignments;
  }

  lemma CarriedNext(first: map<Source, Lane>, lanes: map<Source, Lane>, assignments: seq<Assignment>, k: nat, l: Lane,
                    finishAt: real, now: nat)
    requires k < |assignments| && Carried(first, lanes, assignments, k, now)
    requires assignments[k].source in lanes || assignments[k].source == Origin
    requires Given(assignments[k].source, LaneOf(lanes, assignments[k].source, now), l, assignments[k].ranges, finishAt, now)
    requires assignments[k].ranges != [] && finishAt >= now as real + MaxR(assignments[k].projectedMs, 0.0)
    ensures Carried(first, lanes[assignments[k].source := l], assignments, k + 1, now)
  {
    hide Supplied, Active, Busy, Shared, EvolvedAt, Work, Flat;
    var a := assignments[k];
    SharedNext(first, lanes, assignments, k, l, now);
    SuppliedNext(first, lanes, a.source, l, a.ranges, finishAt, now);
    StillSending(lanes, a.source, l, a.ranges, finishAt, now);
    ActiveMore(lanes, a.source, l);
  }

  // ---- closing ----

  function EmptiedLane(l: Lane): Lane {
    l.(inFlight := [], queue := [])
  }

  function CancelOf(l: Lane, s: Source): seq<Command> {
    if s.Peer? && l.inFlight != [] then [Cancel(s.id)] else []
  }

  /** One cancel for every listed peer that still has a request in flight. */
  function CancelsFor(lanes: map<Source, Lane>, keys: seq<Source>): seq<Command>
    decreases |keys|
  {
    if keys == [] then []
    else
      var s := keys[|keys| - 1];
      CancelsFor(lanes, keys[..|keys| - 1]) + if s in lanes then CancelOf(lanes[s], s) else []
  }

  lemma {:induction false} CancelsReach(lanes: map<Source, Lane>, keys: seq<Source>, p: nat)
    requires Busy(lanes, Peer(p)) && Peer(p) in keys
    ensures Cancel(p) in CancelsFor(lanes, keys)
    decreases |keys|
  {
    var rest := keys[..|keys| - 1];
    assert keys == rest + [keys[|keys| - 1]];
    if keys[|keys| - 1] == Peer(p) {
      assert Cancel(p) in CancelOf(lanes[Peer(p)], Peer(p));
    } else {
      CancelsReach(lanes, rest, p);
    }
  }

  lemma ClosedCancels(log: seq<Entry>, lanes: map<Source, Lane>, keys: seq<Source>, end: Command)
    requires forall s :: s in keys <==> s in lanes
    ensures forall p :: Busy(lanes, Peer(p)) ==> Newly(log, log + Outs(CancelsFor(lanes, keys)) + [Out(end)], Out(Cancel(p)))
  {
    var cancels := CancelsFor(lanes, keys);
    var after := log + Outs(cancels) + [Out(end)];
    forall p | Busy(lanes, Peer(p)) ensures Newly(log, after, Out(Cancel(p))) {
      CancelsReach(lanes, keys, p);
      var j :| 0 <= j < |cancels| && cancels[j] == Cancel(p);
      assert after[|log| + j] == Outs(cancels)[j];
    }
  }

  lemma CancelsStep(lanes: map<Source, Lane>, keys: seq<Source>, i: nat, before: seq<Command>)
    requires i < |keys| && keys[i] in lanes
    ensures before + CancelsFor(lanes, keys[..i + 1]) == before + CancelsFor(lanes, keys[..i]) + CancelOf(lanes[keys[i]], keys[i])
  {
    assert keys[..i + 1][..i] == keys[..i];
    ConcatAssoc(before, CancelsFor(lanes, keys[..i]), CancelOf(lanes[keys[i]], keys[i]));
  }

  lemma {:induction false} CancelsAll(lanes: map<Source, Lane>, keys: seq<Source>)
    ensures AllCancels(CancelsFor(lanes, keys))
    decreases |keys|
  {
    if keys != [] {
      CancelsAll(lanes, keys[..|keys| - 1]);
    }
  }

  lemma WornSame(st: State)
    ensures Worn(st, st)
  {
  }
}

/** The books of one transfer: who holds which piece and what has been asked of
    whom. The scheduler keeps them; the promises of a whole run follow from them. */
module Books {
  import opened Wrappers
  import opened Pieces
  import opened Sorting
  import opened Estimates
  import opened Lanes

  /** A transfer's orders to its shell. */
  datatype Command =
    | Request(peer: nat, range: PieceRange)
    | FetchOrigin(range: PieceRange)
    | Cancel(peer: nat)
    | Abandon(peer: nat)
    | Ban(peer: nat)
    | Deliver(bytes: seq<byte>)
    | Fail

  /** A run as an observer sees it: the commands, and between them the moments at
      which a source leaves the object, origin fails it, and the floor passes, in a
      transfer that has begun or in one that has not. */
  datatype Entry = Out(command: Command) | Gone(source: Source) | OriginFault | Floor(begun: bool)

  /** What is fixed for one transfer. `cap` bounds the pieces of a peer request. */
  datatype Terms = Terms(n: nat, cap: nat, peerOnly: bool, exclusive: bool)

  // ---- the log ----

  ghost function PieceSet(r: PieceRange): set<nat> {
    SetOf(Span(r))
  }

  /** The pieces ever requested of peer `p`. */
  ghost function Asked(log: seq<Entry>, p: nat): set<nat>
    decreases |log|
  {
    if log == [] then {}
    else
      var e := log[|log| - 1];
      Asked(log[..|log| - 1], p) +
      if e.Out? && e.command.Request? && e.command.peer == p then PieceSet(e.command.range) else {}
  }

  /** The pieces ever fetched from origin. */
  ghost function Fetched(log: seq<Entry>): set<nat>
    decreases |log|
  {
    if log == [] then {}
    else
      var e := log[|log| - 1];
      Fetched(log[..|log| - 1]) + if e.Out? && e.command.FetchOrigin? then PieceSet(e.command.range) else {}
  }

  predicate Drops(e: Entry, p: nat) {
    e == Gone(Peer(p)) || e == Out(Cancel(p)) || e == Out(Abandon(p)) || e == Out(Ban(p))
  }

  /** Peer `p` failed, or was cancelled, abandoned or banned. */
  ghost function Dropped(log: seq<Entry>, p: nat): bool
    decreases |log|
  {
    log != [] && (Drops(log[|log| - 1], p) || Dropped(log[..|log| - 1], p))
  }

  predicate Terminal(e: Entry) {
    e.Out? && (e.command.Deliver? || e.command.Fail?)
  }

  ghost function Ended(log: seq<Entry>): bool
    decreases |log|
  {
    log != [] && (Terminal(log[|log| - 1]) || Ended(log[..|log| - 1]))
  }

  /** The floor has passed in a transfer that had begun. */
  ghost function FloorPassed(log: seq<Entry>): bool
    decreases |log|
  {
    log != [] && (log[|log| - 1] == Floor(true) || FloorPassed(log[..|log| - 1]))
  }

  predicate Bans(e: Entry) {
    e.Out? && e.command.Ban?
  }

  /** Some peer was banned. */
  ghost function Banned(log: seq<Entry>): bool
    decreases |log|
  {
    log != [] && (Bans(log[|log| - 1]) || Banned(log[..|log| - 1]))
  }

  /** Origin failed the transfer, or sent a bad piece or a wrong length. */
  ghost function OriginFailed(log: seq<Entry>): bool
    decreases |log|
  {
    log != [] && (log[|log| - 1].OriginFault? || OriginFailed(log[..|log| - 1]))
  }

  /** Nobody still in the transfer, but for `except`, was ever asked for one of the
      pieces. */
  ghost predicate Unowned(log: seq<Entry>, pieces: set<nat>, except: set<nat>) {
    forall q: nat :: q !in except && !Dropped(log, q) ==> pieces !! Asked(log, q)
  }

  /** Whether entry `e` may follow `log`. */
  ghost predicate MayFollow(t: Terms, log: seq<Entry>, e: Entry) {
    && !Ended(log)
    && match e
       case Out(Request(p, r)) =>
         && !Dropped(log, p) && !FloorPassed(log)
         && r.start < r.end <= t.n && r.end - r.start <= t.cap
         && PieceSet(r) !! Asked(log, p)
         && (t.exclusive ==> PieceSet(r) !! Fetched(log) && Unowned(log, PieceSet(r), {p}))
       case Out(FetchOrigin(r)) =>
         && !t.peerOnly && r.start < r.end <= t.n
         && (t.exclusive ==> PieceSet(r) !! Fetched(log) && Unowned(log, PieceSet(r), {}))
       case Out(Abandon(_)) => !t.peerOnly
       case Floor(begun) => begun || Outputs(log) == []
       case _ => true
  }

  /** Every entry may follow those before it: no command after the end, no piece
      asked twice of one peer, no request to a dropped peer or past the floor, and
      with exclusive ownership no piece asked of a second source before its first
      one has left. */
  ghost predicate LogOk(t: Terms, log: seq<Entry>)
    decreases |log|
  {
    log == [] || (LogOk(t, log[..|log| - 1]) && MayFollow(t, log[..|log| - 1], log[|log| - 1]))
  }

  lemma LogNext(t: Terms, log: seq<Entry>, e: Entry)
    requires LogOk(t, log) && MayFollow(t, log, e)
    ensures LogOk(t, log + [e])
  {
    assert (log + [e])[..|log|] == log;
  }

  /** What the summaries of the log become with one more entry. */
  lemma Summaries(log: seq<Entry>, e: Entry)
    ensures forall p :: Asked(log + [e], p) ==
              Asked(log, p) + if e.Out? && e.command.Request? && e.command.peer == p then PieceSet(e.command.range) else {}
    ensures Fetched(log + [e]) == Fetched(log) + if e.Out? && e.command.FetchOrigin? then PieceSet(e.command.range) else {}
    ensures forall p :: Dropped(log + [e], p) <==> Drops(e, p) || Dropped(log, p)
    ensures Ended(log + [e]) <==> Terminal(e) || Ended(log)
    ensures FloorPassed(log + [e]) <==> e == Floor(true) || FloorPassed(log)
    ensures Banned(log + [e]) <==> Bans(e) || Banned(log)
    ensures OriginFailed(log + [e]) <==> e.OriginFault? || OriginFailed(log)
  {
    assert (log + [e])[..|log|] == log;
  }

  /** What the log of a transfer that has not begun can hold. */
  predicate Unbegun(log: seq<Entry>) {
    forall j :: 0 <= j < |log| ==> log[j] == Floor(false) || log[j] == OriginFault
  }

  lemma {:induction false} UnbegunFacts(t: Terms, log: seq<Entry>)
    requires Unbegun(log)
    ensures LogOk(t, log) && Outputs(log) == [] && Fetched(log) == {} && !Ended(log) && !FloorPassed(log)
    decreases |log|
  {
    if log != [] {
      UnbegunFacts(t, log[..|log| - 1]);
    }
  }

  /** The log has grown from `before`, by entry `e` among others. */
  ghost predicate Newly(before: seq<Entry>, log: seq<Entry>, e: Entry) {
    before <= log && exists j :: |before| <= j < |log| && log[j] == e
  }

  lemma NewlyLater(before: seq<Entry>, log: seq<Entry>, later: seq<Entry>, e: Entry)
    requires Newly(before, log, e) && log <= later
    ensures Newly(before, later, e)
  {
  }

  lemma NewlyFrom(before: seq<Entry>, log: seq<Entry>, later: seq<Entry>, e: Entry)
    requires before <= log && Newly(log, later, e)
    ensures Newly(before, later, e)
  {
  }

  /** Every peer in `gone` has been cancelled since `before`. */
  ghost predicate Cancelled(before: seq<Entry>, log: seq<Entry>, gone: set<Source>) {
    forall p :: Peer(p) in gone ==> Newly(before, log, Out(Cancel(p)))
  }

  lemma CancelledLater(before: seq<Entry>, log: seq<Entry>, later: seq<Entry>, gone: set<Source>)
    requires Cancelled(before, log, gone) && log <= later
    ensures Cancelled(before, later, gone)
  {
    hide Newly;
    forall p | Peer(p) in gone ensures Newly(before, later, Out(Cancel(p))) {
      NewlyLater(before, log, later, Out(Cancel(p)));
    }
  }

  lemma CancelledNone(log: seq<Entry>)
    ensures Cancelled(log, log, {})
  {
  }

  lemma CancelledNext(before: seq<Entry>, log: seq<Entry>, later: seq<Entry>, gone: set<Source>, p: nat)
    requires Cancelled(before, log, gone) && before <= log && Newly(log, later, Out(Cancel(p)))
    ensures Cancelled(before, later, gone + {Peer(p)})
  {
    CancelledLater(before, log, later, gone);
  }

  /** The commands of the log, in order. */
  ghost function Outputs(log: seq<Entry>): seq<Command>
    decreases |log|
  {
    if log == [] then []
    else Outputs(log[..|log| - 1]) + if log[|log| - 1].Out? then [log[|log| - 1].command] else []
  }

  lemma OutputsNext(log: seq<Entry>, e: Entry)
    ensures Outputs(log + [e]) == Outputs(log) + if e.Out? then [e.command] else []
  {
    assert (log + [e])[..|log|] == log;
  }

  // ---- what a good log means over the whole run ----

  lemma {:induction false} LogPrefix(t: Terms, log: seq<Entry>, k: nat)
    requires LogOk(t, log) && k < |log|
    ensures LogOk(t, log[..k]) && MayFollow(t, log[..k], log[k])
    decreases |log|
  {
    var n := |log| - 1;
    if k < n {
      LogPrefix(t, log[..n], k);
      assert log[..n][..k] == log[..k];
    }
  }

  lemma {:induction false} AskedBefore(log: seq<Entry>, k: nat, i: nat)
    requires k < |log| && log[k].Out? && log[k].command.Request? && i in PieceSet(log[k].command.range)
    ensures i in Asked(log, log[k].command.peer)
    decreases |log|
  {
    var n := |log| - 1;
    if k < n {
      AskedBefore(log[..n], k, i);
    }
  }

  lemma {:induction false} DroppedBefore(log: seq<Entry>, k: nat, p: nat)
    requires k < |log| && Drops(log[k], p)
    ensures Dropped(log, p)
    decreases |log|
  {
    var n := |log| - 1;
    if k < n {
      DroppedBefore(log[..n], k, p);
    }
  }

  lemma {:induction false} AskedAt(log: seq<Entry>, p: nat, i: nat) returns (j: nat)
    requires i in Asked(log, p)
    ensures j < |log| && log[j].Out? && log[j].command.Request? && log[j].command.peer == p && InRange(log[j].command.range, i)
    decreases |log|
  {
    var e := log[|log| - 1];
    if e.Out? && e.command.Request? && e.command.peer == p && i in PieceSet(e.command.range) {
      SpanMember(e.command.range, i);
      j := |log| - 1;
    } else {
      j := AskedAt(log[..|log| - 1], p, i);
    }
  }

  lemma {:induction false} FetchedAt(log: seq<Entry>, i: nat) returns (j: nat)
    requires i in Fetched(log)
    ensures j < |log| && log[j].Out? && log[j].command.FetchOrigin? && InRange(log[j].command.range, i)
    decreases |log|
  {
    var e := log[|log| - 1];
    if e.Out? && e.command.FetchOrigin? && i in PieceSet(e.command.range) {
      SpanMember(e.command.range, i);
      j := |log| - 1;
    } else {
      j := FetchedAt(log[..|log| - 1], i);
    }
  }

  lemma {:induction false} EndedBefore(log: seq<Entry>, k: nat)
    requires k < |log| && Terminal(log[k])
    ensures Ended(log)
    decreases |log|
  {
    var n := |log| - 1;
    if k < n {
      EndedBefore(log[..n], k);
    }
  }

  lemma {:induction false} FloorBefore(log: seq<Entry>, k: nat)
    requires k < |log| && log[k] == Floor(true)
    ensures FloorPassed(log)
    decreases |log|
  {
    var n := |log| - 1;
    if k < n {
      FloorBefore(log[..n], k);
    }
  }

  lemma {:induction false} FetchedBefore(log: seq<Entry>, k: nat, i: nat)
    requires k < |log| && log[k].Out? && log[k].command.FetchOrigin? && i in PieceSet(log[k].command.range)
    ensures i in Fetched(log)
    decreases |log|
  {
    var n := |log| - 1;
    if k < n {
      FetchedBefore(log[..n], k, i);
    }
  }

  /** The end comes at most once, and nothing follows it. */
  lemma OneEnd(t: Terms, log: seq<Entry>, j: nat)
    requires LogOk(t, log) && j < |log| && Terminal(log[j])
    ensures j == |log| - 1
  {
    if j + 1 < |log| {
      LogPrefix(t, log, j + 1);
      EndedBefore(log[..j + 1], j);
    }
  }

  /** No piece is asked twice of the same peer, over the whole run. */
  lemma AskedOnce(t: Terms, log: seq<Entry>, j: nat, k: nat, i: nat)
    requires LogOk(t, log) && j < k < |log|
    requires log[j].Out? && log[j].command.Request? && log[k].Out? && log[k].command.Request?
    requires log[j].command.peer == log[k].command.peer
    ensures !(InRange(log[j].command.range, i) && InRange(log[k].command.range, i))
  {
    if InRange(log[j].command.range, i) && InRange(log[k].command.range, i) {
      SpanMember(log[j].command.range, i);
      SpanMember(log[k].command.range, i);
      LogPrefix(t, log, k);
      AskedBefore(log[..k], j, i);
    }
  }

  /** A dropped peer gets no request, and no request follows the floor of a transfer
      that has begun; a floor that passes earlier comes before all commands. */
  lemma NoLateRequest(t: Terms, log: seq<Entry>, j: nat, k: nat)
    requires LogOk(t, log) && j < k < |log| && log[k].Out? && log[k].command.Request?
    ensures !Drops(log[j], log[k].command.peer) && (log[j].Floor? ==> !log[j].begun && Outputs(log[..j]) == [])
  {
    LogPrefix(t, log, k);
    if log[j] == Floor(true) {
      FloorBefore(log[..k], j);
    }
    LogPrefix(t, log, j);
    if Drops(log[j], log[k].command.peer) {
      DroppedBefore(log[..k], j, log[k].command.peer);
    }
  }

  /** In exclusive mode origin is fetched at most once for each piece, and no
      peer is asked for a piece whose origin fetch has begun. */
  lemma OriginExclusive(t: Terms, log: seq<Entry>, j: nat, k: nat, i: nat)
    requires LogOk(t, log) && t.exclusive && j < k < |log|
    requires log[j].Out? && log[j].command.FetchOrigin? && InRange(log[j].command.range, i)
    ensures log[k].Out? && log[k].command.Request? ==> !InRange(log[k].command.range, i)
    ensures log[k].Out? && log[k].command.FetchOrigin? ==> !InRange(log[k].command.range, i)
  {
    LogPrefix(t, log, k);
    SpanMember(log[j].command.range, i);
    FetchedBefore(log[..k], j, i);
    if log[k].Out? && (log[k].command.Request? || log[k].command.FetchOrigin?) {
      SpanMember(log[k].command.range, i);
    }
  }

  lemma {:induction false} DroppedAt(log: seq<Entry>, p: nat) returns (d: nat)
    requires Dropped(log, p)
    ensures d < |log| && Drops(log[d], p)
    decreases |log|
  {
    var n := |log| - 1;
    if Drops(log[n], p) {
      d := n;
    } else {
      d := DroppedAt(log[..n], p);
    }
  }

  /** With exclusive ownership a piece that was asked of a peer is asked of another
      source only after that peer has left: it failed, or was cancelled, abandoned
      or banned, in between. */
  lemma OneOwner(t: Terms, log: seq<Entry>, j: nat, k: nat, i: nat) returns (d: nat)
    requires LogOk(t, log) && t.exclusive && j < k < |log|
    requires log[j].Out? && log[j].command.Request? && InRange(log[j].command.range, i)
    requires log[k].Out? && (log[k].command.FetchOrigin? || (log[k].command.Request? && log[k].command.peer != log[j].command.peer))
    requires InRange(log[k].command.range, i)
    ensures j < d < k && Drops(log[d], log[j].command.peer)
  {
    var p, before := log[j].command.peer, log[..k];
    LogPrefix(t, log, k);
    SpanMember(log[j].command.range, i);
    SpanMember(log[k].command.range, i);
    AskedBefore(before, j, i);
    assert i in PieceSet(log[k].command.range) && i in Asked(before, p);
    assert Dropped(before, p);
    d := DroppedAt(before, p);
    if d <= j {
      LogPrefix(t, log, j);
      DroppedBefore(log[..j], d, p);
    }
  }

  /** At most as many requests as pieces go to one peer. */
  ghost function Requests(log: seq<Entry>, p: nat): nat
    decreases |log|
  {
    if log == [] then 0
    else
      var e := log[|log| - 1];
      Requests(log[..|log| - 1], p) + if e.Out? && e.command.Request? && e.command.peer == p then 1 else 0
  }

  lemma {:induction false} RequestsBounded(t: Terms, log: seq<Entry>, p: nat)
    requires LogOk(t, log)
    ensures Requests(log, p) <= |Asked(log, p)| <= t.n
    ensures forall i :: i in Asked(log, p) ==> i < t.n
    decreases |log|
  {
    if log != [] {
      var n := |log| - 1;
      var e := log[n];
      RequestsBounded(t, log[..n], p);
      if e.Out? && e.command.Request? && e.command.peer == p {
        var r := e.command.range;
        SpanMember(r, r.start);
        assert r.start in PieceSet(r);
        assert |Asked(log, p)| == |Asked(log[..n], p)| + |PieceSet(r)|;
        assert |PieceSet(r)| >= 1 by {
          assert {r.start} <= PieceSet(r);
          SubsetSize({r.start}, PieceSet(r));
        }
        forall i | i in PieceSet(r) ensures i < t.n {
          SpanMember(r, i);
        }
      }
    }
    BelowSize(Asked(log, p), t.n);
  }

  lemma {:induction false} SubsetSize<T>(a: set<T>, b: set<T>)
    requires a <= b
    ensures |a| <= |b|
    decreases a
  {
    if a != {} {
      var x :| x in a;
      SubsetSize(a - {x}, b - {x});
    }
  }

  lemma {:induction false} BelowSize(a: set<nat>, n: nat)
    requires forall i :: i in a ==> i < n
    ensures |a| <= n
  {
    if n == 0 {
      assert a == {};
    } else {
      BelowSize(a - {n - 1}, n - 1);
    }
  }
}

/** The lanes of one transfer, and what they hold. */
module Lanes {
  import opened Wrappers
  import opened Pieces
  import opened Sorting
  import opened Estimates

  /** A request sent at `sent` and not yet answered. */
  datatype Flight = Flight(range: PieceRange, sent: nat)

  /** Progress of a request: the time and the bytes received by then. */
  datatype Progress = Progress(at: nat, received: nat)

  datatype Lane = Lane(
    estimate: Estimate, queue: seq<PieceRange>, inFlight: seq<Flight>, finishAt: real, retired: bool,
    firstByteAt: Option<nat>, flow: seq<Progress>, checkedAt: nat)

  function NewLane(estimate: Estimate, now: nat): Lane {
    Lane(estimate, [], [], now as real, false, None, [], now)
  }

  /** The pieces of the requests in flight. */
  function Flying(fs: seq<Flight>): seq<nat>
    decreases |fs|
  {
    if fs == [] then [] else Flying(fs[..|fs| - 1]) + Span(fs[|fs| - 1].range)
  }

  lemma FlyingSnoc(fs: seq<Flight>, f: Flight)
    ensures Flying(fs + [f]) == Flying(fs) + Span(f.range)
  {
    assert (fs + [f])[..|fs|] == fs;
  }

  lemma {:induction false} FlyingConcat(a: seq<Flight>, b: seq<Flight>)
    ensures Flying(a + b) == Flying(a) + Flying(b)
    decreases |b|
  {
    if b == [] {
      assert a + b == a;
    } else {
      var init, f := b[..|b| - 1], b[|b| - 1];
      FlyingConcat(a, init);
      assert b == init + [f];
      FlyingSnocs(a, init, f);
    }
  }

  lemma FlyingSnocs(a: seq<Flight>, b: seq<Flight>, f: Flight)
    requires Flying(a + b) == Flying(a) + Flying(b)
    ensures Flying(a + (b + [f])) == Flying(a) + Flying(b + [f])
  {
    hide Flying, Span;
    ConcatAssoc(a, b, [f]);
    FlyingSnoc(a + b, f);
    FlyingSnoc(b, f);
    ConcatAssoc(Flying(a), Flying(b), Span(f.range));
  }

  /** Taking one answered request out of the list. */
  lemma FlyingWithout(fs: seq<Flight>, k: nat)
    requires k < |fs|
    ensures Flying(fs) == Flying(fs[..k]) + Span(fs[k].range) + Flying(fs[k + 1..])
    ensures Flying(fs[..k] + fs[k + 1..]) == Flying(fs[..k]) + Flying(fs[k + 1..])
  {
    FlyingSplit(fs, k + 1);
    FlyingLast(fs, k);
    FlyingConcat(fs[..k], fs[k + 1..]);
  }

  lemma FlyingSplit(fs: seq<Flight>, k: nat)
    requires k <= |fs|
    ensures Flying(fs) == Flying(fs[..k]) + Flying(fs[k..])
  {
    assert fs == fs[..k] + fs[k..];
    FlyingConcat(fs[..k], fs[k..]);
  }

  lemma FlyingLast(fs: seq<Flight>, k: nat)
    requires k < |fs|
    ensures Flying(fs[..k + 1]) == Flying(fs[..k]) + Span(fs[k].range)
  {
    assert fs[..k + 1] == fs[..k] + [fs[k]];
    FlyingSnoc(fs[..k], fs[k]);
  }

  /** All the pieces a lane has to deliver: in flight, then queued. */
  function Work(l: Lane): seq<nat> {
    Flying(l.inFlight) + Flat(l.queue)
  }

  predicate InRange(r: PieceRange, i: nat) {
    r.start <= i < r.end
  }

  /** A live lane has the piece among its requests or in its queue. */
  predicate Holds(l: Lane, i: nat) {
    !l.retired &&
    ((exists k :: 0 <= k < |l.inFlight| && InRange(l.inFlight[k].range, i)) ||
     (exists k :: 0 <= k < |l.queue| && InRange(l.queue[k], i)))
  }

  lemma SpanMember(r: PieceRange, i: nat)
    ensures i in Span(r) <==> InRange(r, i)
  {
    if InRange(r, i) {
      assert Span(r)[i - r.start] == i;
    }
  }

  lemma {:induction false} FlyingMember(fs: seq<Flight>, i: nat)
    ensures i in Flying(fs) <==> exists k :: 0 <= k < |fs| && InRange(fs[k].range, i)
    decreases |fs|
  {
    if fs != [] {
      var n := |fs| - 1;
      FlyingMember(fs[..n], i);
      SpanMember(fs[n].range, i);
      assert forall k :: 0 <= k < n ==> fs[..n][k] == fs[k];
    }
  }

  lemma HoldsIsWork(l: Lane, i: nat)
    requires l.retired ==> l.inFlight == [] && l.queue == []
    ensures Holds(l, i) <==> i in Work(l)
  {
    FlyingMember(l.inFlight, i);
    FlatMember(l.queue, i);
  }

  /** Ascending members of `s` below `n`: what sorting and deduplicating a list
      of piece indices leaves. */
  function Listed(s: set<nat>, n: nat): (r: seq<nat>)
  {
    if n == 0 then [] else Listed(s, n - 1) + if n - 1 in s then [n - 1] else []
  }

  lemma {:induction false} ListedMembers(s: set<nat>, n: nat)
    ensures forall i :: i in Listed(s, n) <==> i in s && i < n
    ensures forall j, k :: 0 <= j < k < |Listed(s, n)| ==> Listed(s, n)[j] < Listed(s, n)[k]
  {
    if n > 0 {
      ListedMembers(s, n - 1);
      var r := Listed(s, n - 1);
      forall j | 0 <= j < |r| ensures r[j] < n - 1 {
        assert r[j] in r;
      }
    }
  }

  lemma {:induction false} ListedNone(n: nat)
    ensures Listed({}, n) == []
  {
    if n > 0 {
      ListedNone(n - 1);
    }
  }

}

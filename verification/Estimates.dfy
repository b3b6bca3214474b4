/** What is known of each source's timing, over the reals, and how untested
    sources are filled in. */
module Estimates {
  import opened Wrappers
  import opened Pieces
  import opened Sorting

  /** What an unknown source is taken to bring per millisecond: 32 KiB a second. */
  const MIN_RATE: real := 32.768

  datatype Source = Peer(id: nat) | Origin

  datatype Estimate = Estimate(source: Source, firstByteMs: Option<real>, rate: Option<real>)

  datatype PlanInput = PlanInput(
    size: nat, needed: seq<nat>, peers: seq<Estimate>, origin: Option<Estimate>,
    sharedFirstByteMs: Option<real>, sharedRate: Option<real>,
    availableMs: real, maxHolders: nat)

  datatype Assignment = Assignment(source: Source, ranges: seq<PieceRange>, bytes: nat, projectedMs: real)

  /** `projectedMs` is `None` where the source has infinity. */
  datatype Plan = Plan(assignments: seq<Assignment>, projectedMs: Option<real>, late: bool)

  /** A source with its timing filled in. */
  datatype Timed = Timed(source: Source, firstByte: real, rate: real)

  function Positive(value: Option<real>): Option<real> {
    if value.Some? && value.value > 0.0 then value else None
  }

  function NonNegative(value: Option<real>): Option<real> {
    if value.Some? && value.value >= 0.0 then value else None
  }

  function Or<T>(a: Option<T>, b: Option<T>): Option<T> {
    if a.Some? then a else b
  }

  function MaxR(a: real, b: real): real {
    if a < b then b else a
  }

  function MinR(a: real, b: real): real {
    if b < a then b else a
  }

  predicate SourceLess(a: Source, b: Source) {
    match (a, b)
    case (Peer(x), Peer(y)) => x < y
    case (Peer(_), Origin) => true
    case (Origin, _) => false
  }

  // ---- filling in untested sources ----

  predicate LeqReal(a: real, b: real) {
    a <= b
  }

  /** The upper median. */
  function Median(values: seq<real>): (m: Option<real>)
    ensures m.None? <==> values == []
    ensures m.Some? ==> m.value in values
  {
    if values == [] then None
    else
      var sorted := Sort(values, LeqReal);
      SameMembers(values, sorted, sorted[|sorted| / 2]);
      Some(sorted[|sorted| / 2])
  }

  function TestedRates(peers: seq<Estimate>): (r: seq<real>)
    ensures forall x :: x in r ==> x > 0.0
  {
    if peers == [] then []
    else (if Positive(peers[0].rate).Some? then [peers[0].rate.value] else []) + TestedRates(peers[1..])
  }

  function FallbackRate(input: PlanInput): (r: real)
    ensures r > 0.0
  {
    Or(Median(TestedRates(input.peers)), Positive(input.sharedRate)).GetOr(MIN_RATE)
  }

  function ResolveOne(e: Estimate, input: PlanInput): (t: Timed)
    ensures t.source == e.source && t.rate > 0.0 && t.firstByte >= 0.0
  {
    Timed(e.source,
          NonNegative(e.firstByteMs).GetOr(NonNegative(input.sharedFirstByteMs).GetOr(0.0)),
          Positive(e.rate).GetOr(FallbackRate(input)))
  }

  function Resolve(estimates: seq<Estimate>, input: PlanInput): (r: seq<Timed>)
    ensures |r| == |estimates|
    ensures forall k :: 0 <= k < |r| ==> r[k] == ResolveOne(estimates[k], input)
  {
    seq(|estimates|, k requires 0 <= k < |estimates| => ResolveOne(estimates[k], input))
  }

  ghost predicate Usable(sources: seq<Timed>) {
    forall k :: 0 <= k < |sources| ==> sources[k].rate > 0.0 && sources[k].firstByte >= 0.0
  }

  ghost predicate DistinctTimed(xs: seq<Timed>) {
    forall i, j :: 0 <= i < j < |xs| ==> xs[i].source != xs[j].source
  }

  ghost predicate DistinctEstimates(xs: seq<Estimate>) {
    forall i, j :: 0 <= i < j < |xs| ==> xs[i].source != xs[j].source
  }
}

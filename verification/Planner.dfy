/** The pure planner of the multi-holder scheduler: the near-optimal split, the
    greedy heads with the origin tail, and the plan that chooses between them. */
module Planner {
  import opened Wrappers
  import opened Pieces
  import opened Sorting
  import opened Estimates
  import opened RunLists
  import opened WaterLevel
  import opened Apportionment

  function TotalBytes(size: nat, ps: nat, pieces: seq<nat>): nat {
    if pieces == [] then 0 else PieceBytes(size, ps, pieces[0]) + TotalBytes(size, ps, pieces[1..])
  }

  /** The bytes of `a` and the time `s` is projected to need for them. */
  ghost predicate Costed(a: Assignment, s: Timed, size: nat) {
    && a.bytes == TotalBytes(size, CommitmentPieceSize(size), Flat(a.ranges))
    && s.rate > 0.0 && a.projectedMs == s.firstByte + a.bytes as real / s.rate
  }

  method Give(s: Timed, pieces: seq<nat>, size: nat) returns (a: Assignment)
    requires s.rate > 0.0
    ensures a.source == s.source && a.ranges == RunsOf(pieces) && Costed(a, s, size)
  {
    var ranges := Runs(pieces);
    RunsFlatten(pieces);
    var bytes := TotalBytes(size, CommitmentPieceSize(size), pieces);
    a := Assignment(s.source, ranges, bytes, s.firstByte + bytes as real / s.rate);
  }

  function PiecesOf(assignments: seq<Assignment>): seq<nat>
    decreases |assignments|
  {
    if assignments == [] then []
    else PiecesOf(assignments[..|assignments| - 1]) + Flat(assignments[|assignments| - 1].ranges)
  }

  lemma PiecesOfSnoc(a: seq<Assignment>, x: Assignment)
    ensures PiecesOf(a + [x]) == PiecesOf(a) + Flat(x.ranges)
  {
    assert (a + [x])[..|a|] == a;
  }

  // ---- consecutive parts, dealt to the sources in order ----

  ghost function Concat(parts: seq<seq<nat>>): seq<nat>
    decreases |parts|
  {
    if parts == [] then [] else Concat(parts[..|parts| - 1]) + parts[|parts| - 1]
  }

  lemma ConcatSnoc(parts: seq<seq<nat>>, part: seq<nat>)
    ensures Concat(parts + [part]) == Concat(parts) + part
  {
    assert (parts + [part])[..|parts|] == parts;
  }

  /** The sources that get a non-empty part, in order. */
  ghost function Owners(parts: seq<seq<nat>>): (r: seq<nat>)
    ensures |r| <= |parts|
    decreases |parts|
  {
    if parts == [] then []
    else Owners(parts[..|parts| - 1]) + if parts[|parts| - 1] == [] then [] else [|parts| - 1]
  }

  lemma {:induction false} OwnersAscend(parts: seq<seq<nat>>)
    ensures Ascending(Owners(parts))
    ensures forall j :: 0 <= j < |Owners(parts)| ==> Owners(parts)[j] < |parts| && parts[Owners(parts)[j]] != []
    decreases |parts|
  {
    if parts != [] {
      OwnersAscend(parts[..|parts| - 1]);
    }
  }

  lemma OwnersSnoc(parts: seq<seq<nat>>, part: seq<nat>)
    ensures Owners(parts + [part]) == Owners(parts) + if part == [] then [] else [|parts|]
  {
    assert (parts + [part])[..|parts|] == parts;
  }

  /** Assignment `j` is the part of the `j`-th owner, with its cost. */
  ghost predicate Dealt(assignments: seq<Assignment>, sources: seq<Timed>, parts: seq<seq<nat>>, size: nat) {
    && |parts| <= |sources| && |Owners(parts)| == |assignments|
    && forall j :: 0 <= j < |assignments| ==> DealtAt(assignments[j], sources, parts, Owners(parts)[j], size)
  }

  ghost predicate DealtAt(a: Assignment, sources: seq<Timed>, parts: seq<seq<nat>>, k: nat, size: nat) {
    && k < |parts| && k < |sources|
    && a.source == sources[k].source && a.ranges == RunsOf(parts[k])
    && Costed(a, sources[k], size)
  }

  lemma DealtAtMore(a: Assignment, sources: seq<Timed>, parts: seq<seq<nat>>, k: nat, size: nat, part: seq<nat>)
    requires DealtAt(a, sources, parts, k, size)
    ensures DealtAt(a, sources, parts + [part], k, size)
  {
    assert (parts + [part])[k] == parts[k];
  }

  lemma DealNone(assignments: seq<Assignment>, sources: seq<Timed>, parts: seq<seq<nat>>, size: nat)
    requires Dealt(assignments, sources, parts, size) && |parts| < |sources|
    ensures Dealt(assignments, sources, parts + [[]], size)
  {
    OwnersSnoc(parts, []);
    forall j | 0 <= j < |assignments| ensures DealtAt(assignments[j], sources, parts + [[]], Owners(parts)[j], size) {
      DealtAtMore(assignments[j], sources, parts, Owners(parts)[j], size, []);
    }
  }

  lemma DealNext(assignments: seq<Assignment>, sources: seq<Timed>, parts: seq<seq<nat>>, size: nat, part: seq<nat>, a: Assignment)
    requires Dealt(assignments, sources, parts, size) && |parts| < |sources| && part != []
    requires a.source == sources[|parts|].source && a.ranges == RunsOf(part) && Costed(a, sources[|parts|], size)
    ensures Dealt(assignments + [a], sources, parts + [part], size)
  {
    OwnersSnoc(parts, part);
    forall j | 0 <= j < |assignments| + 1
      ensures DealtAt((assignments + [a])[j], sources, parts + [part], Owners(parts + [part])[j], size)
    {
      if j < |assignments| {
        DealtAtMore(assignments[j], sources, parts, Owners(parts)[j], size, part);
      }
    }
  }

  /** Without its last part, a deal loses its last assignment, if that part
      was not empty. */
  lemma DealtInit(assignments: seq<Assignment>, sources: seq<Timed>, parts: seq<seq<nat>>, size: nat)
    requires Dealt(assignments, sources, parts, size) && parts != []
    ensures |Owners(parts[..|parts| - 1])| <= |assignments|
    ensures Dealt(assignments[..|Owners(parts[..|parts| - 1])|], sources, parts[..|parts| - 1], size)
  {
    var init := parts[..|parts| - 1];
    OwnersAscend(init);
    forall j | 0 <= j < |Owners(init)| ensures DealtAt(assignments[j], sources, init, Owners(init)[j], size) {
      assert DealtAt(assignments[j], sources, parts, Owners(parts)[j], size);
    }
  }

  /** Dealt parts are assigned exactly once, in order. */
  lemma {:induction false} DealtPieces(assignments: seq<Assignment>, sources: seq<Timed>, parts: seq<seq<nat>>, size: nat)
    requires Dealt(assignments, sources, parts, size)
    ensures PiecesOf(assignments) == Concat(parts)
    decreases |parts|
  {
    if parts != [] {
      var n := |parts| - 1;
      var heads := assignments[..|Owners(parts[..n])|];
      DealtInit(assignments, sources, parts, size);
      DealtPieces(heads, sources, parts[..n], size);
      if parts[n] == [] {
        assert assignments == heads;
      } else {
        LastPieces(assignments, sources, parts, size, |heads|);
      }
    }
  }

  lemma LastPieces(assignments: seq<Assignment>, sources: seq<Timed>, parts: seq<seq<nat>>, size: nat, m: nat)
    requires Dealt(assignments, sources, parts, size) && parts != [] && parts[|parts| - 1] != []
    requires m == |Owners(parts[..|parts| - 1])|
    ensures m + 1 == |assignments| && PiecesOf(assignments) == PiecesOf(assignments[..m]) + parts[|parts| - 1]
  {
    assert DealtAt(assignments[m], sources, parts, Owners(parts)[m], size);
    RunsFlatten(parts[|parts| - 1]);
  }

  // ---- the split ----

  /** The parts have the given sizes. */
  ghost predicate Sized(parts: seq<seq<nat>>, counts: seq<nat>) {
    |parts| <= |counts| && forall k :: 0 <= k < |parts| ==> |parts[k]| == counts[k]
  }

  lemma SizedNext(parts: seq<seq<nat>>, counts: seq<nat>, part: seq<nat>)
    requires Sized(parts, counts) && |parts| < |counts| && |part| == counts[|parts|]
    ensures Sized(parts + [part], counts)
  {
  }

  lemma PrefixTotal(counts: seq<nat>, k: nat)
    requires k < |counts|
    ensures Total(counts[..k + 1]) == Total(counts[..k]) + counts[k] <= Total(counts)
  {
    assert counts[..k + 1] == counts[..k] + [counts[k]];
    TotalSnoc(counts[..k], counts[k]);
    assert counts == counts[..k + 1] + counts[k + 1..];
    TotalConcat(counts[..k + 1], counts[k + 1..]);
  }

  /** The first `k` counts cut `needed[..at]` into `parts`. */
  ghost predicate CutTo(needed: seq<nat>, counts: seq<nat>, parts: seq<seq<nat>>, k: nat, at: nat) {
    && |parts| == k <= |counts| && at == Total(counts[..k]) <= |needed|
    && Concat(parts) == needed[..at] && Sized(parts, counts)
  }

  lemma CutNext(needed: seq<nat>, counts: seq<nat>, parts: seq<seq<nat>>, k: nat, at: nat)
    requires CutTo(needed, counts, parts, k, at) && k < |counts| && Total(counts) == |needed|
    ensures at + counts[k] <= |needed|
    ensures CutTo(needed, counts, parts + [needed[at..at + counts[k]]], k + 1, at + counts[k])
  {
    PrefixTotal(counts, k);
    ConcatNext(parts, needed, at, at + counts[k]);
    SizedNext(parts, counts, needed[at..at + counts[k]]);
  }

  method Slices(needed: seq<nat>, sources: seq<Timed>, counts: seq<nat>, size: nat)
      returns (assignments: seq<Assignment>, ghost parts: seq<seq<nat>>)
    requires Usable(sources) && |counts| == |sources| && Total(counts) == |needed|
    ensures |parts| == |sources| && Concat(parts) == needed && Sized(parts, counts)
    ensures Dealt(assignments, sources, parts, size)
  {
    assignments, parts := [], [];
    var at: nat, k: nat := 0, 0;
    assert counts[..0] == [];
    while k < |sources|
      invariant 0 <= k <= |sources| && CutTo(needed, counts, parts, k, at)
      invariant Dealt(assignments, sources, parts, size)
    {
      CutNext(needed, counts, parts, k, at);
      ghost var part := needed[at..at + counts[k]];
      if counts[k] != 0 {
        var a := Give(sources[k], needed[at..at + counts[k]], size);
        DealNext(assignments, sources, parts, size, part, a);
        assignments := assignments + [a];
      } else {
        DealNone(assignments, sources, parts, size);
      }
      parts := parts + [part];
      at, k := at + counts[k], k + 1;
    }
    assert counts[..k] == counts;
    assert needed[..at] == needed;
  }

  lemma ConcatNext(parts: seq<seq<nat>>, needed: seq<nat>, at: nat, to: nat)
    requires at <= to <= |needed| && Concat(parts) == needed[..at]
    ensures Concat(parts + [needed[at..to]]) == needed[..to]
  {
    ConcatSnoc(parts, needed[at..to]);
    assert needed[..to] == needed[..at] + needed[at..to];
  }

  function Share(s: Timed, finish: real, ps: nat): real
    requires ps > 0
  {
    Fill(s, finish) / ps as real
  }

  function Shares(sources: seq<Timed>, finish: real, ps: nat): (r: seq<real>)
    requires ps > 0
    ensures |r| == |sources|
    ensures forall k :: 0 <= k < |r| ==> r[k] == Share(sources[k], finish, ps)
  {
    seq(|sources|, k requires 0 <= k < |sources| => Share(sources[k], finish, ps))
  }

  lemma ShareAtLeastZero(s: Timed, finish: real, ps: nat)
    requires ps > 0 && s.rate > 0.0
    ensures Share(s, finish, ps) >= 0.0
    ensures Share(s, finish, ps) * ps as real == Fill(s, finish)
  {
    NonNegativeProduct(MaxR(finish - s.firstByte, 0.0), s.rate);
    RealDivide(Fill(s, finish), ps as real);
    if Share(s, finish, ps) < 0.0 {
      NonNegativeProduct(-Share(s, finish, ps), ps as real);
      assert false;
    }
  }

  lemma {:induction false} SharesSum(sources: seq<Timed>, finish: real, ps: nat)
    requires ps > 0 && Usable(sources)
    ensures Sum(Same, Shares(sources, finish, ps)) * ps as real == Capacity(sources, finish)
  {
    var shares := Shares(sources, finish, ps);
    if sources != [] {
      assert shares[1..] == Shares(sources[1..], finish, ps);
      SharesSum(sources[1..], finish, ps);
      ShareAtLeastZero(sources[0], finish, ps);
      var a, b := shares[0], Sum(Same, shares[1..]);
      assert (a + b) * ps as real == a * ps as real + b * ps as real;
    }
  }

  /** Needed pieces as the plan promises them: ascending and in the object. */
  ghost predicate Needed(pieces: seq<nat>, count: nat) {
    && (forall i, j :: 0 <= i < j < |pieces| ==> pieces[i] < pieces[j])
    && (forall k :: 0 <= k < |pieces| ==> pieces[k] < count)
  }

  lemma TimesStep(n: int, ps: nat)
    ensures n * ps == (n - 1) * ps + ps
  {
  }

  /** All the needed pieces but the last are whole. */
  lemma {:induction false} NeededBytes(size: nat, ps: nat, count: nat, pieces: seq<nat>)
    requires Geometry(size, ps, count) && Needed(pieces, count) && pieces != []
    ensures (|pieces| - 1) * ps < TotalBytes(size, ps, pieces) <= |pieces| * ps
  {
    assert 0 < PieceBytes(size, ps, pieces[0]) <= ps && (|pieces| > 1 ==> PieceBytes(size, ps, pieces[0]) == ps) by {
      assert |pieces| > 1 ==> pieces[0] < pieces[1] < count;
      PieceBytesBounds(size, ps, count, pieces[0]);
    }
    var n, rest := |pieces|, TotalBytes(size, ps, pieces[1..]);
    if n > 1 {
      assert (n - 1 - 1) * ps < rest <= (n - 1) * ps by {
        assert Needed(pieces[1..], count);
        NeededBytes(size, ps, count, pieces[1..]);
      }
    } else {
      assert pieces[1..] == [] && rest == 0;
    }
    TimesStep(n, ps);
    TimesStep(n - 1, ps);
  }

  lemma {:induction false} BytesAtMost(size: nat, ps: nat, pieces: seq<nat>)
    ensures TotalBytes(size, ps, pieces) <= |pieces| * ps
  {
    if pieces != [] {
      BytesAtMost(size, ps, pieces[1..]);
      assert |pieces| * ps == |pieces[1..]| * ps + ps;
    }
  }

  lemma InReals(n: nat, ps: nat, total: nat)
    requires n > 0 && (n - 1) * ps < total <= n * ps
    ensures 0.0 < total as real
    ensures (n as real - 1.0) * ps as real < total as real <= n as real * ps as real
  {
    MulMono(0, n - 1, ps);
    CastProduct(n - 1, ps);
    CastProduct(n, ps);
  }

  lemma SharesWellSized(sources: seq<Timed>, finish: real, ps: nat, n: nat, total: nat)
    requires ps > 0 && Usable(sources) && n > 0
    requires Capacity(sources, finish) == total as real
    requires (n - 1) * ps < total <= n * ps
    ensures WellSized(Shares(sources, finish, ps), n) && total > 0
  {
    hide Capacity, Usable;
    var sum := Sum(Same, Shares(sources, finish, ps));
    SharesSum(sources, finish, ps);
    ShareCount(sum, n, ps, total);
  }

  lemma ShareCount(sum: real, n: nat, ps: nat, total: nat)
    requires ps > 0 && n > 0 && (n - 1) * ps < total <= n * ps && sum * ps as real == total as real
    ensures n as real - 1.0 < sum <= n as real && total > 0
  {
    InReals(n, ps, total);
    Sandwich(sum, n as real, ps as real, total as real);
    MulMono(0, n - 1, ps);
  }

  lemma CastProduct(a: int, b: int)
    ensures (a * b) as real == a as real * b as real
  {
  }

  lemma Sandwich(sum: real, n: real, p: real, total: real)
    requires p > 0.0 && sum * p == total && (n - 1.0) * p < total <= n * p
    ensures n - 1.0 < sum <= n
  {
    LessByRate(n - 1.0, sum, p);
    AtMostByRate(sum, n, p);
  }

  /** A count rounded from its share finishes within one piece of the level. */
  lemma RoundedFinish(s: Timed, finish: real, ps: nat, count: nat, bytes: nat)
    requires ps > 0 && s.rate > 0.0 && 0 < count && bytes <= count * ps
    requires count == Share(s, finish, ps).Floor ||
             (count == Share(s, finish, ps).Floor + 1 && Remainder(Share(s, finish, ps)) > 0.0)
    ensures s.firstByte + bytes as real / s.rate <= finish + ps as real / s.rate
  {
    assert Share(s, finish, ps) >= 0.0 by {
      ShareAtLeastZero(s, finish, ps);
    }
    RoundedShare(Share(s, finish, ps), count);
    assert Share(s, finish, ps) * ps as real == (finish - s.firstByte) * s.rate by {
      PositiveShare(s, finish, ps);
    }
    RealFinish(s.firstByte, finish, s.rate, ps, Share(s, finish, ps), count, bytes);
  }

  lemma RoundedShare(share: real, count: nat)
    requires 0 < count
    requires count == share.Floor || (count == share.Floor + 1 && Remainder(share) > 0.0)
    requires share >= 0.0
    ensures share > 0.0 && count as real <= share + 1.0
  {
  }

  lemma RealFinish(firstByte: real, finish: real, rate: real, ps: nat, share: real, count: nat, bytes: nat)
    requires rate > 0.0 && ps > 0 && share * ps as real == (finish - firstByte) * rate
    requires count as real <= share + 1.0 && bytes <= count * ps
    ensures firstByte + bytes as real / rate <= finish + ps as real / rate
  {
    assert bytes as real / rate <= (finish - firstByte) + ps as real / rate by {
      CastProduct(count, ps);
      BoundedFinish(finish - firstByte, rate, ps as real, share, count as real, bytes as real);
    }
  }

  lemma BoundedFinish(d: real, rate: real, p: real, share: real, count: real, bytes: real)
    requires rate > 0.0 && p > 0.0 && share * p == d * rate && count <= share + 1.0 && bytes <= count * p
    ensures bytes / rate <= d + p / rate
  {
    assert bytes <= d * rate + p by {
      NonNegativeOrder(count, share + 1.0, p);
      assert (share + 1.0) * p == share * p + p;
    }
    assert bytes / rate <= (d * rate + p) / rate by {
      DivideOrder(bytes, d * rate + p, rate);
    }
    DivideSum(d, p, rate);
  }

  lemma PositiveShare(s: Timed, finish: real, ps: nat)
    requires ps > 0 && s.rate > 0.0 && Share(s, finish, ps) > 0.0
    ensures finish > s.firstByte
    ensures Share(s, finish, ps) * ps as real == (finish - s.firstByte) * s.rate
  {
    ShareAtLeastZero(s, finish, ps);
    NonNegativeProduct(Share(s, finish, ps), ps as real);
    NonNegativeProduct(MaxR(finish - s.firstByte, 0.0), s.rate);
  }

  lemma DivideSum(d: real, p: real, r: real)
    requires r > 0.0
    ensures (d * r + p) / r == d + p / r
  {
    RealDivide(p, r);
    assert (d + p / r) * r == d * r + p;
    DivideBack(d + p / r, r);
  }

  lemma DivideOrder(a: real, b: real, r: real)
    requires r > 0.0 && a <= b
    ensures a / r <= b / r
  {
    RealDivide(a, r);
    RealDivide(b, r);
    AtMostByRate(a / r, b / r, r);
  }

  lemma DivideBack(a: real, r: real)
    requires r > 0.0
    ensures (a * r) / r == a
  {
  }

  /** No owner finishes more than one of its pieces after `u`. */
  ghost predicate WithinOnePiece(assignments: seq<Assignment>, sources: seq<Timed>, owners: seq<nat>, ps: nat, u: real) {
    forall j :: 0 <= j < |owners| && j < |assignments| && owners[j] < |sources| && sources[owners[j]].rate > 0.0 ==>
      assignments[j].projectedMs <= u + ps as real / sources[owners[j]].rate
  }

  /** Every source finishes within one piece of any finish time that any
      division of the same bytes among the same sources can reach. */
  ghost predicate NearOptimal(assignments: seq<Assignment>, sources: seq<Timed>, owners: seq<nat>, ps: nat, bytes: real) {
    forall division: seq<real>, u: real ::
      Divides(sources, division, bytes, u) ==> WithinOnePiece(assignments, sources, owners, ps, u)
  }

  lemma SplitFinish(a: Assignment, sources: seq<Timed>, counts: seq<nat>, parts: seq<seq<nat>>, size: nat, finish: real, k: nat)
    requires Usable(sources) && DealtAt(a, sources, parts, k, size) && parts[k] != []
    requires Sized(parts, counts)
    requires Rounded(Shares(sources, finish, CommitmentPieceSize(size)), counts)
    ensures a.projectedMs <= finish + CommitmentPieceSize(size) as real / sources[k].rate
  {
    var ps := CommitmentPieceSize(size);
    assert a.bytes <= counts[k] * ps by {
      RunsFlatten(parts[k]);
      BytesAtMost(size, ps, parts[k]);
    }
    RoundedFinish(sources[k], finish, ps, counts[k], a.bytes);
  }

  lemma SplitNearOptimal(assignments: seq<Assignment>, sources: seq<Timed>, counts: seq<nat>, parts: seq<seq<nat>>,
                         size: nat, finish: real, bytes: real)
    requires Usable(sources) && Dealt(assignments, sources, parts, size) && Sized(parts, counts)
    requires Capacity(sources, finish) == bytes && bytes > 0.0
    requires Rounded(Shares(sources, finish, CommitmentPieceSize(size)), counts)
    ensures NearOptimal(assignments, sources, Owners(parts), CommitmentPieceSize(size), bytes)
  {
    var ps, owners := CommitmentPieceSize(size), Owners(parts);
    OwnersAscend(parts);
    forall division: seq<real>, u: real | Divides(sources, division, bytes, u)
      ensures WithinOnePiece(assignments, sources, owners, ps, u)
    {
      LevelIsLowerBound(sources, division, bytes, finish, u);
      forall j | 0 <= j < |owners| && j < |assignments| && owners[j] < |sources| && sources[owners[j]].rate > 0.0
        ensures assignments[j].projectedMs <= u + ps as real / sources[owners[j]].rate
      {
        SplitFinish(assignments[j], sources, counts, parts, size, finish, owners[j]);
      }
    }
  }

  function LatestOf(assignments: seq<Assignment>): (m: real)
    ensures m >= 0.0
    ensures forall k :: 0 <= k < |assignments| ==> assignments[k].projectedMs <= m
    ensures m == 0.0 || exists k :: 0 <= k < |assignments| && assignments[k].projectedMs == m
  {
    if assignments == [] then 0.0
    else
      var rest := LatestOf(assignments[1..]);
      assert forall k :: 0 <= k < |assignments[1..]| ==> assignments[1..][k] == assignments[k + 1];
      MaxR(assignments[0].projectedMs, rest)
  }

  function Finished(assignments: seq<Assignment>, availableMs: real): Plan {
    var latest := LatestOf(assignments);
    Plan(assignments, Some(latest), latest > availableMs)
  }

  lemma SplitBound(input: PlanInput, sources: seq<Timed>, finish: real, counts: seq<nat>, parts: seq<seq<nat>>,
                   assignments: seq<Assignment>)
    requires Usable(sources) && Dealt(assignments, sources, parts, input.size) && Sized(parts, counts)
    requires PieceCount(input.size).Some? && Needed(input.needed, PieceCount(input.size).value) && input.needed != []
    requires Capacity(sources, finish) == TotalBytes(input.size, CommitmentPieceSize(input.size), input.needed) as real
    requires WellSized(Shares(sources, finish, CommitmentPieceSize(input.size)), |input.needed|) ==>
               Rounded(Shares(sources, finish, CommitmentPieceSize(input.size)), counts)
    ensures NearOptimal(assignments, sources, Owners(parts), CommitmentPieceSize(input.size),
                        TotalBytes(input.size, CommitmentPieceSize(input.size), input.needed) as real)
  {
    var ps, count := CommitmentPieceSize(input.size), PieceCount(input.size).value;
    var total := TotalBytes(input.size, ps, input.needed);
    assert total > 0 && WellSized(Shares(sources, finish, ps), |input.needed|) by {
      assert (|input.needed| - 1) * ps < total <= |input.needed| * ps by {
        CountWithinBound(input.size);
        NeededBytes(input.size, ps, count, input.needed);
      }
      SharesWellSized(sources, finish, ps, |input.needed|, total);
    }
    SplitNearOptimal(assignments, sources, counts, parts, input.size, finish, total as real);
  }

  /** What a split promises: the needed pieces dealt in consecutive parts, and
      no source much later than the best division could be. */
  ghost predicate SplitOf(input: PlanInput, sources: seq<Timed>, parts: seq<seq<nat>>, plan: Plan) {
    && Dealt(plan.assignments, sources, parts, input.size)
    && |parts| == |sources| && Concat(parts) == input.needed
    && plan == Finished(plan.assignments, input.availableMs)
    && (PieceCount(input.size).Some? && Needed(input.needed, PieceCount(input.size).value) && input.needed != [] ==>
          NearOptimal(plan.assignments, sources, Owners(parts), CommitmentPieceSize(input.size),
                      TotalBytes(input.size, CommitmentPieceSize(input.size), input.needed) as real))
  }

  /** If the sources can carry the pieces by `u`, each finishes its share within one
      of its pieces of `u`. */
  lemma SplitInTime(input: PlanInput, sources: seq<Timed>, parts: seq<seq<nat>>, plan: Plan, u: real, j: nat) returns (k: nat)
    requires SplitOf(input, sources, parts, plan) && Usable(sources) && input.needed != []
    requires PieceCount(input.size).Some? && Needed(input.needed, PieceCount(input.size).value)
    requires TotalBytes(input.size, CommitmentPieceSize(input.size), input.needed) as real <= Capacity(sources, u)
    requires j < |plan.assignments|
    ensures k < |sources| && plan.assignments[j].source == sources[k].source
    ensures plan.assignments[j].projectedMs <= u + CommitmentPieceSize(input.size) as real / sources[k].rate
  {
    hide Capacity, TotalBytes, WithinOnePiece, Needed, PieceCount, CommitmentPieceSize;
    var ps := CommitmentPieceSize(input.size);
    CountWithinBound(input.size);
    NeededBytes(input.size, ps, PieceCount(input.size).value, input.needed);
    var bytes := TotalBytes(input.size, ps, input.needed);
    AtLeastNone(|input.needed| - 1, ps);
    var division := DividesInTime(sources, bytes as real, u);
    assert WithinOnePiece(plan.assignments, sources, Owners(parts), ps, u);
    k := Owners(parts)[j];
    InTimeAt(plan.assignments, sources, parts, input.size, u, j);
  }

  lemma AtLeastNone(n: nat, ps: nat)
    ensures n * ps >= 0
  {
  }

  lemma InTimeAt(assignments: seq<Assignment>, sources: seq<Timed>, parts: seq<seq<nat>>, size: nat, u: real, j: nat)
    requires Dealt(assignments, sources, parts, size) && Usable(sources) && j < |assignments|
    requires WithinOnePiece(assignments, sources, Owners(parts), CommitmentPieceSize(size), u)
    ensures var k := Owners(parts)[j];
            && k < |sources| && assignments[j].source == sources[k].source
            && assignments[j].projectedMs <= u + CommitmentPieceSize(size) as real / sources[k].rate
  {
    hide CommitmentPieceSize;
    assert DealtAt(assignments[j], sources, parts, Owners(parts)[j], size);
  }

  lemma SharesAtLeastZero(sources: seq<Timed>, finish: real, ps: nat)
    requires ps > 0 && Usable(sources)
    ensures forall k :: 0 <= k < |sources| ==> Shares(sources, finish, ps)[k] >= 0.0
  {
    forall k | 0 <= k < |sources| ensures Shares(sources, finish, ps)[k] >= 0.0 {
      ShareAtLeastZero(sources[k], finish, ps);
    }
  }

  /** Split the needed pieces across the sources, whole pieces each. */
  method Split(input: PlanInput, sources: seq<Timed>) returns (plan: Plan, ghost parts: seq<seq<nat>>)
    requires sources != [] && Usable(sources)
    ensures SplitOf(input, sources, parts, plan)
  {
    var ps := CommitmentPieceSize(input.size);
    var finish := WaterFill(sources, TotalBytes(input.size, ps, input.needed) as real);
    var shares := Shares(sources, finish, ps);
    SharesAtLeastZero(sources, finish, ps);
    var counts := Apportion(shares, |input.needed|);
    var assignments;
    assignments, parts := Slices(input.needed, sources, counts, input.size);
    plan := Finished(assignments, input.availableMs);
    if PieceCount(input.size).Some? && Needed(input.needed, PieceCount(input.size).value) && input.needed != [] {
      SplitBound(input, sources, finish, counts, parts, assignments);
    }
  }

  // ---- the ranking ----

  /** Fastest first, then the earliest first byte, then the source. */
  predicate Before(a: Timed, b: Timed) {
    a.rate > b.rate ||
    (a.rate == b.rate && (a.firstByte < b.firstByte || (a.firstByte == b.firstByte && !SourceLess(b.source, a.source))))
  }

  /** The peers a plan may use: the fastest `max(1, maxHolders)`. */
  function Ranked(input: PlanInput): (r: seq<Timed>)
    ensures |r| <= Max(input.maxHolders, 1) && |r| <= |input.peers|
    ensures input.peers != [] ==> r != []
  {
    var all := Sort(Resolve(input.peers, input), Before);
    all[..Min(|all|, Max(input.maxHolders, 1))]
  }

  lemma RankedMember(input: PlanInput, k: nat)
    requires k < |Ranked(input)|
    ensures exists j :: 0 <= j < |input.peers| && Ranked(input)[k] == ResolveOne(input.peers[j], input)
  {
    var resolved := Resolve(input.peers, input);
    var all := Sort(resolved, Before);
    SameMembers(resolved, all, all[k]);
    var j :| 0 <= j < |resolved| && resolved[j] == all[k];
    assert Ranked(input)[k] == ResolveOne(input.peers[j], input);
  }

  lemma RankedUsable(input: PlanInput)
    ensures Usable(Ranked(input))
  {
    forall k | 0 <= k < |Ranked(input)| ensures Ranked(input)[k].rate > 0.0 && Ranked(input)[k].firstByte >= 0.0 {
      RankedMember(input, k);
    }
  }

  lemma BeforeIsTotal()
    ensures TotalPreorder(Before)
  {
  }

  /** Every peer the cut leaves out ranks after every peer it keeps. */
  lemma RankedFastest(input: PlanInput, j: nat, k: nat)
    requires j < |input.peers| && ResolveOne(input.peers[j], input) !in Ranked(input)
    requires k < |Ranked(input)|
    ensures Before(Ranked(input)[k], ResolveOne(input.peers[j], input))
  {
    var resolved := Resolve(input.peers, input);
    var all := Sort(resolved, Before);
    assert SortedBy(all, Before) by {
      BeforeIsTotal();
      SortSorted(resolved, Before);
    }
    SameMembers(resolved, all, resolved[j]);
    var m :| 0 <= m < |all| && all[m] == resolved[j];
    var kept := |Ranked(input)|;
    assert Ranked(input) == all[..kept];
  }

  lemma {:induction false} InsertDistinct(x: Timed, xs: seq<Timed>)
    requires DistinctTimed(xs) && forall k :: 0 <= k < |xs| ==> xs[k].source != x.source
    ensures DistinctTimed(Insert(x, xs, Before))
  {
    if xs != [] && !Before(x, xs[0]) {
      InsertDistinct(x, xs[1..]);
      var tail := Insert(x, xs[1..], Before);
      forall k | 0 <= k < |tail| ensures tail[k].source != xs[0].source {
        InsertMember(x, xs[1..], Before, tail[k]);
      }
    }
  }

  lemma {:induction false} SortDistinct(xs: seq<Timed>)
    requires DistinctTimed(xs)
    ensures DistinctTimed(Sort(xs, Before))
  {
    if xs != [] {
      SortDistinct(xs[1..]);
      var rest := Sort(xs[1..], Before);
      forall k | 0 <= k < |rest| ensures rest[k].source != xs[0].source {
        SameMembers(xs[1..], rest, rest[k]);
      }
      InsertDistinct(xs[0], rest);
    }
  }

  lemma RankedDistinct(input: PlanInput)
    requires DistinctEstimates(input.peers)
    ensures DistinctTimed(Ranked(input))
  {
    SortDistinct(Resolve(input.peers, input));
  }

  // ---- the origin tail ----

  lemma {:induction false} TotalBytesSnoc(size: nat, ps: nat, pieces: seq<nat>, x: nat)
    ensures TotalBytes(size, ps, pieces + [x]) == TotalBytes(size, ps, pieces) + PieceBytes(size, ps, x)
  {
    if pieces == [] {
      assert pieces + [x] == [x];
      assert [x][1..] == [];
    } else {
      assert (pieces + [x])[1..] == pieces[1..] + [x];
      TotalBytesSnoc(size, ps, pieces[1..], x);
    }
  }

  function Room(s: Timed, availableMs: real): real {
    MaxR(availableMs - s.firstByte, 0.0) * s.rate
  }

  /** Peer `k` takes `needed[from..to]`: as many pieces as fit, and it stops
      only at the end or before a piece that would overrun. */
  ghost predicate Greedy(input: PlanInput, s: Timed, trial: bool, from: nat, to: nat) {
    && from <= to <= |input.needed|
    && var ps, room := CommitmentPieceSize(input.size), Room(s, input.availableMs);
    && var bytes := TotalBytes(input.size, ps, input.needed[from..to]);
    && (from == to || bytes as real <= room || (from + 1 == to && trial))
    && (to < |input.needed| ==>
          (bytes + PieceBytes(input.size, ps, input.needed[to])) as real > room && (trial ==> from < to))
  }

  /** Every part is a greedy slice from where the parts before it end. */
  ghost predicate GreedyParts(input: PlanInput, peers: seq<Timed>, untested: seq<Source>, parts: seq<seq<nat>>)
    decreases |parts|
  {
    && |parts| <= |peers|
    && (parts != [] ==>
          var k := |parts| - 1;
          && GreedyParts(input, peers, untested, parts[..k])
          && Greedy(input, peers[k], peers[k].source in untested, |Concat(parts[..k])|, |Concat(parts)|))
  }

  lemma GreedyNext(input: PlanInput, peers: seq<Timed>, untested: seq<Source>, parts: seq<seq<nat>>, part: seq<nat>)
    requires GreedyParts(input, peers, untested, parts) && |parts| < |peers|
    requires Greedy(input, peers[|parts|], peers[|parts|].source in untested, |Concat(parts)|, |Concat(parts + [part])|)
    ensures GreedyParts(input, peers, untested, parts + [part])
  {
    assert (parts + [part])[..|parts|] == parts;
  }

  /** The end of the slice from `at` that fits the peer's room; a trial takes
      one piece anyway. */
  method TakeFitting(input: PlanInput, s: Timed, trial: bool, at: nat) returns (to: nat)
    requires at <= |input.needed|
    ensures Greedy(input, s, trial, at, to)
  {
    var capacity := Room(s, input.availableMs);
    var ps := CommitmentPieceSize(input.size);
    var bytes: nat := 0;
    to := at;
    while to < |input.needed|
      invariant at <= to <= |input.needed| && bytes == TotalBytes(input.size, ps, input.needed[at..to])
      invariant to == at || bytes as real <= capacity || (at + 1 == to && trial)
    {
      var next := PieceBytes(input.size, ps, input.needed[to]);
      if (bytes + next) as real > capacity && !(to == at && trial) {
        return;
      }
      TotalBytesSnoc(input.size, ps, input.needed[at..to], input.needed[to]);
      assert input.needed[at..to + 1] == input.needed[at..to] + [input.needed[to]];
      bytes := bytes + next;
      to := to + 1;
    }
  }

  /** On time, or one trial piece of an untested source. */
  ghost predicate OnTime(a: Assignment, availableMs: real, untested: seq<Source>) {
    a.projectedMs <= availableMs || (|Flat(a.ranges)| == 1 && a.source in untested)
  }

  lemma CapacityOnTime(s: Timed, availableMs: real, bytes: nat)
    requires s.rate > 0.0 && 0 < bytes && bytes as real <= Room(s, availableMs)
    ensures s.firstByte + bytes as real / s.rate <= availableMs
  {
    RealDivide(bytes as real, s.rate);
    var room := MaxR(availableMs - s.firstByte, 0.0);
    NonNegativeProduct(room, s.rate);
    AtMostByRate(bytes as real / s.rate, room, s.rate);
  }

  method TakeHeads(input: PlanInput, peers: seq<Timed>, untested: seq<Source>)
      returns (heads: seq<Assignment>, at: nat, ghost parts: seq<seq<nat>>)
    requires Usable(peers)
    ensures Dealt(heads, peers, parts, input.size) && GreedyParts(input, peers, untested, parts)
    ensures at <= |input.needed| && Concat(parts) == input.needed[..at] && (at < |input.needed| ==> |parts| == |peers|)
  {
    at, heads, parts := 0, [], [];
    var k := 0;
    while k < |peers| && at < |input.needed|
      invariant 0 <= k <= |peers| && |parts| == k && at <= |input.needed|
      invariant Concat(parts) == input.needed[..at]
      invariant Dealt(heads, peers, parts, input.size)
      invariant GreedyParts(input, peers, untested, parts)
    {
      var to := TakeFitting(input, peers[k], peers[k].source in untested, at);
      ghost var part := input.needed[at..to];
      ConcatNext(parts, input.needed, at, to);
      GreedyNext(input, peers, untested, parts, part);
      if to != at {
        var a := Give(peers[k], input.needed[at..to], input.size);
        DealNext(heads, peers, parts, input.size, part, a);
        heads := heads + [a];
      } else {
        DealNone(heads, peers, parts, input.size);
      }
      parts, at, k := parts + [part], to, k + 1;
    }
  }

  /** Greedy parts for the peers, then the rest for origin, if there is any. */
  ghost predicate Tailed(assignments: seq<Assignment>, parts: seq<seq<nat>>, input: PlanInput,
                         peers: seq<Timed>, origin: Timed, untested: seq<Source>) {
    && GreedyParts(input, peers, untested, parts)
    && Concat(parts) <= input.needed
    && if Concat(parts) == input.needed then Dealt(assignments, peers, parts, input.size)
       else
         |parts| == |peers| && OriginLast(assignments, parts, input, peers, origin)
  }

  ghost predicate OriginLast(assignments: seq<Assignment>, parts: seq<seq<nat>>, input: PlanInput, peers: seq<Timed>, origin: Timed) {
    && assignments != []
    && Dealt(assignments[..|assignments| - 1], peers, parts, input.size)
    && var last := assignments[|assignments| - 1];
    && Concat(parts) < input.needed
    && last.source == origin.source && last.ranges == RunsOf(input.needed[|Concat(parts)|..])
    && Costed(last, origin, input.size)
  }

  /** The plan when peers alone are late: each takes what it can bring, and what is
      left goes to origin. */
  method TailToOrigin(input: PlanInput, peers: seq<Timed>, origin: Timed, untested: seq<Source>)
      returns (plan: Plan, ghost parts: seq<seq<nat>>)
    requires Usable(peers) && origin.rate > 0.0
    ensures Tailed(plan.assignments, parts, input, peers, origin, untested)
    ensures plan == Finished(plan.assignments, input.availableMs)
  {
    var heads, at;
    heads, at, parts := TakeHeads(input, peers, untested);
    var assignments := heads;
    if at < |input.needed| {
      var a := Give(origin, input.needed[at..], input.size);
      assignments := heads + [a];
      assert assignments[..|heads|] == heads;
    }
    plan := Finished(assignments, input.availableMs);
  }

  lemma {:induction false} GreedyAt(input: PlanInput, peers: seq<Timed>, untested: seq<Source>, parts: seq<seq<nat>>, k: nat)
      returns (from: nat, to: nat)
    requires GreedyParts(input, peers, untested, parts) && k < |parts|
    requires Concat(parts) <= input.needed
    ensures Greedy(input, peers[k], peers[k].source in untested, from, to) && parts[k] == input.needed[from..to]
    decreases |parts|
  {
    var n := |parts| - 1;
    var init := parts[..n];
    PrefixPart(Concat(init), parts[n], input.needed);
    if k < n {
      from, to := GreedyAt(input, peers, untested, init, k);
    } else {
      from, to := |Concat(init)|, |Concat(parts)|;
    }
  }

  lemma PrefixPart(before: seq<nat>, part: seq<nat>, needed: seq<nat>)
    requires before + part <= needed
    ensures before <= needed && part == needed[|before|..|before + part|]
  {
    assert needed[..|before + part|] == before + part;
  }

  /** On the origin-tail path every peer is on time unless it holds a single
      trial piece. */
  lemma HeadOnTime(a: Assignment, parts: seq<seq<nat>>, input: PlanInput, peers: seq<Timed>, untested: seq<Source>, k: nat)
    requires DealtAt(a, peers, parts, k, input.size) && GreedyParts(input, peers, untested, parts)
    requires Concat(parts) <= input.needed && parts[k] != []
    requires PieceCount(input.size).Some? && forall i :: i in input.needed ==> i < PieceCount(input.size).value
    ensures OnTime(a, input.availableMs, untested)
  {
    hide TotalBytes, PieceCount, Room, GreedyParts, CommitmentPieceSize;
    var from, to := GreedyAt(input, peers, untested, parts, k);
    RunsFlatten(parts[k]);
    assert parts[k][0] == input.needed[from] && input.needed[from] in input.needed;
    PartBytes(input.size, parts[k]);
    if a.bytes as real <= Room(peers[k], input.availableMs) {
      CapacityOnTime(peers[k], input.availableMs, a.bytes);
    }
  }

  lemma PartBytes(size: nat, part: seq<nat>)
    requires PieceCount(size).Some? && part != [] && part[0] < PieceCount(size).value
    ensures TotalBytes(size, CommitmentPieceSize(size), part) > 0
  {
    CountWithinBound(size);
    PieceBytesBounds(size, CommitmentPieceSize(size), PieceCount(size).value, part[0]);
  }

  lemma PiecesEnd(heads: seq<Assignment>, last: Assignment, done: seq<nat>, needed: seq<nat>)
    requires PiecesOf(heads) == done && done <= needed && Flat(last.ranges) == needed[|done|..]
    ensures PiecesOf(heads + [last]) == needed
  {
    PiecesOfSnoc(heads, last);
    assert needed == done + needed[|done|..];
  }

  lemma OriginLastSplit(assignments: seq<Assignment>, parts: seq<seq<nat>>, input: PlanInput, peers: seq<Timed>, origin: Timed)
      returns (heads: seq<Assignment>, last: Assignment)
    requires OriginLast(assignments, parts, input, peers, origin)
    ensures assignments == heads + [last] && Dealt(heads, peers, parts, input.size)
    ensures Concat(parts) < input.needed && last.ranges == RunsOf(input.needed[|Concat(parts)|..])
  {
    heads, last := assignments[..|assignments| - 1], assignments[|assignments| - 1];
  }

  lemma OriginLastPieces(assignments: seq<Assignment>, parts: seq<seq<nat>>, input: PlanInput, peers: seq<Timed>, origin: Timed)
    requires OriginLast(assignments, parts, input, peers, origin)
    ensures PiecesOf(assignments) == input.needed
  {
    var heads, last := OriginLastSplit(assignments, parts, input, peers, origin);
    DealtPieces(heads, peers, parts, input.size);
    RunsFlatten(input.needed[|Concat(parts)|..]);
    PiecesEnd(heads, last, Concat(parts), input.needed);
  }

  // ---- the plan ----

  function Untested(peers: seq<Estimate>): (r: seq<Source>)
    ensures forall s :: s in r <==> exists k :: 0 <= k < |peers| && peers[k].source == s && Positive(peers[k].rate).None?
  {
    if peers == [] then []
    else
      var rest := Untested(peers[1..]);
      assert forall k :: 0 <= k < |peers[1..]| ==> peers[1..][k] == peers[k + 1];
      if Positive(peers[0].rate).None? then [peers[0].source] + rest else rest
  }

  /** The peers alone, because they are in time or there is no origin. */
  ghost predicate PlannedAlone(input: PlanInput, plan: Plan, parts: seq<seq<nat>>) {
    && Ranked(input) != []
    && SplitOf(input, Ranked(input), parts, plan)
    && (plan.late ==> input.origin.None?)
  }

  /** The greedy heads and the origin tail, because the peers' own split, if
      there are peers, would be late. */
  ghost predicate PlannedTail(input: PlanInput, plan: Plan, parts: seq<seq<nat>>, alone: Plan, aloneParts: seq<seq<nat>>) {
    && input.origin.Some?
    && (Ranked(input) == [] || (SplitOf(input, Ranked(input), aloneParts, alone) && alone.late))
    && Tailed(plan.assignments, parts, input, Ranked(input), ResolveOne(input.origin.value, input), Untested(input.peers))
    && plan == Finished(plan.assignments, input.availableMs)
  }

  /** The whole promise of `MakePlan`. */
  ghost predicate Planned(input: PlanInput, plan: Plan, parts: seq<seq<nat>>) {
    if input.needed == [] then plan == Plan([], Some(0.0), false)
    else if Ranked(input) == [] && input.origin.None? then plan == Plan([], None, true)
    else PlannedAlone(input, plan, parts) || exists alone, aloneParts :: PlannedTail(input, plan, parts, alone, aloneParts)
  }

  method MakePlan(input: PlanInput) returns (plan: Plan, ghost parts: seq<seq<nat>>)
    ensures Planned(input, plan, parts)
  {
    parts := [];
    if input.needed == [] {
      return Plan([], Some(0.0), false), parts;
    }
    var peers := Ranked(input);
    RankedUsable(input);
    var alone := Plan([], None, true);
    if peers != [] {
      alone, parts := Split(input, peers);
      if !alone.late {
        return alone, parts;
      }
    }
    if input.origin.None? {
      return alone, parts;
    }
    ghost var aloneParts := parts;
    plan, parts := TailToOrigin(input, peers, ResolveOne(input.origin.value, input), Untested(input.peers));
    assert PlannedTail(input, plan, parts, alone, aloneParts);
  }

  /** Peers' parts, then at most one suffix for origin. */
  ghost predicate PeersThenOrigin(input: PlanInput, assignments: seq<Assignment>, parts: seq<seq<nat>>) {
    || Dealt(assignments, Ranked(input), parts, input.size)
    || (input.origin.Some? && OriginLast(assignments, parts, input, Ranked(input), ResolveOne(input.origin.value, input)))
  }

  /** What the scheduler relies on: if there is any source, the needed pieces
      are assigned exactly once, in order, to peers and then origin. */
  lemma PlanPartitions(input: PlanInput, plan: Plan, parts: seq<seq<nat>>)
    requires Planned(input, plan, parts) && input.needed != []
    requires input.peers != [] || input.origin.Some?
    ensures PiecesOf(plan.assignments) == input.needed
    ensures PeersThenOrigin(input, plan.assignments, parts)
  {
    if PlannedAlone(input, plan, parts) {
      DealtPieces(plan.assignments, Ranked(input), parts, input.size);
    } else {
      var alone, aloneParts :| PlannedTail(input, plan, parts, alone, aloneParts);
      if Concat(parts) == input.needed {
        DealtPieces(plan.assignments, Ranked(input), parts, input.size);
      } else {
        OriginLastPieces(plan.assignments, parts, input, Ranked(input), ResolveOne(input.origin.value, input));
      }
    }
  }

  // ---- what the transfer relies on ----

  /** An assignment the transfer can carry out: real pieces, and time to come. */
  ghost predicate Workable(a: Assignment, n: nat) {
    a.ranges != [] && Within(a.ranges, n) && a.projectedMs > 0.0
  }

  ghost predicate Below(pieces: seq<nat>, n: nat) {
    forall k :: 0 <= k < |pieces| ==> pieces[k] < n
  }

  lemma RunsWithin(pieces: seq<nat>, n: nat)
    requires Below(pieces, n)
    ensures Within(RunsOf(pieces), n)
  {
    var ranges := RunsOf(pieces);
    RunsFlatten(pieces);
    forall k | 0 <= k < |ranges| ensures ranges[k].start < ranges[k].end <= n {
      FlatMember(ranges, ranges[k].end - 1);
    }
  }

  lemma CostPositive(a: Assignment, s: Timed, size: nat, pieces: seq<nat>)
    requires PieceCount(size).Some? && pieces != [] && pieces[0] < PieceCount(size).value
    requires Costed(a, s, size) && a.ranges == RunsOf(pieces) && s.firstByte >= 0.0
    ensures a.projectedMs > 0.0
  {
    RunsFlatten(pieces);
    CountWithinBound(size);
    PieceBytesBounds(size, CommitmentPieceSize(size), PieceCount(size).value, pieces[0]);
    PositiveQuotient(a.bytes as real, s.rate);
  }

  lemma PositiveQuotient(a: real, b: real)
    requires a > 0.0 && b > 0.0
    ensures a / b > 0.0
  {
  }

  lemma {:induction false} ConcatMembers(parts: seq<seq<nat>>, k: nat, i: nat)
    requires k < |parts| && i in parts[k]
    ensures i in Concat(parts)
    decreases |parts|
  {
    if k < |parts| - 1 {
      ConcatMembers(parts[..|parts| - 1], k, i);
    }
  }

  /** Every dealt assignment is workable and goes to one of the sources. */
  lemma DealtWorkable(assignments: seq<Assignment>, sources: seq<Timed>, parts: seq<seq<nat>>, size: nat, j: nat)
    requires Dealt(assignments, sources, parts, size) && Usable(sources) && j < |assignments|
    requires PieceCount(size).Some? && Below(Concat(parts), PieceCount(size).value)
    ensures Workable(assignments[j], PieceCount(size).value)
    ensures Among(sources, assignments[j].source)
  {
    var k := Owners(parts)[j];
    OwnersAscend(parts);
    assert DealtAt(assignments[j], sources, parts, k, size);
    forall m | 0 <= m < |parts[k]| ensures parts[k][m] < PieceCount(size).value {
      ConcatMembers(parts, k, parts[k][m]);
      var at :| 0 <= at < |Concat(parts)| && Concat(parts)[at] == parts[k][m];
    }
    RunsWithin(parts[k], PieceCount(size).value);
    RunsFlatten(parts[k]);
    CostPositive(assignments[j], sources[k], size, parts[k]);
  }

  predicate Among(sources: seq<Timed>, s: Source) {
    exists k :: 0 <= k < |sources| && sources[k].source == s
  }

  lemma LastWorkable(a: Assignment, origin: Timed, size: nat, rest: seq<nat>)
    requires a.ranges == RunsOf(rest) && rest != [] && Costed(a, origin, size) && origin.firstByte >= 0.0
    requires PieceCount(size).Some? && Below(rest, PieceCount(size).value)
    ensures Workable(a, PieceCount(size).value)
  {
    RunsWithin(rest, PieceCount(size).value);
    RunsFlatten(rest);
    CostPositive(a, origin, size, rest);
  }

  /** The same for the heads and the origin tail. */
  lemma TailWorkable(assignments: seq<Assignment>, parts: seq<seq<nat>>, input: PlanInput, peers: seq<Timed>, origin: Timed, j: nat)
    requires OriginLast(assignments, parts, input, peers, origin) && Usable(peers) && origin.firstByte >= 0.0
    requires PieceCount(input.size).Some? && Below(input.needed, PieceCount(input.size).value) && j < |assignments|
    ensures Workable(assignments[j], PieceCount(input.size).value)
    ensures Among(peers, assignments[j].source) || assignments[j].source == origin.source
  {
    var n, done := |assignments| - 1, Concat(parts);
    if j < n {
      var heads := assignments[..n];
      assert Below(done, PieceCount(input.size).value);
      DealtWorkable(heads, peers, parts, input.size, j);
      assert heads[j] == assignments[j];
    } else {
      LastWorkable(assignments[n], origin, input.size, input.needed[|done|..]);
    }
  }

  ghost predicate KnownTo(input: PlanInput, s: Source) {
    || (exists k :: 0 <= k < |input.peers| && input.peers[k].source == s)
    || (input.origin.Some? && input.origin.value.source == s)
  }

  lemma RankedKnown(input: PlanInput, s: Source)
    requires Among(Ranked(input), s)
    ensures KnownTo(input, s)
  {
    var k :| 0 <= k < |Ranked(input)| && Ranked(input)[k].source == s;
    RankedMember(input, k);
  }

  lemma PartsWorkable(input: PlanInput, assignments: seq<Assignment>, parts: seq<seq<nat>>, j: nat)
    requires PeersThenOrigin(input, assignments, parts) && PiecesOf(assignments) == input.needed && j < |assignments|
    requires PieceCount(input.size).Some? && Below(input.needed, PieceCount(input.size).value)
    ensures Workable(assignments[j], PieceCount(input.size).value)
    ensures Among(Ranked(input), assignments[j].source) ||
            (input.origin.Some? && input.origin.value.source == assignments[j].source)
  {
    var peers := Ranked(input);
    RankedUsable(input);
    if Dealt(assignments, peers, parts, input.size) {
      DealtPieces(assignments, peers, parts, input.size);
      DealtWorkable(assignments, peers, parts, input.size, j);
    } else {
      TailWorkable(assignments, parts, input, peers, ResolveOne(input.origin.value, input), j);
    }
  }

  /** Every assignment of a plan is workable and goes to a source it was given. */
  lemma PlanWorkable(input: PlanInput, plan: Plan, parts: seq<seq<nat>>, j: nat)
    requires Planned(input, plan, parts) && input.needed != [] && j < |plan.assignments|
    requires PieceCount(input.size).Some? && Below(input.needed, PieceCount(input.size).value)
    ensures Workable(plan.assignments[j], PieceCount(input.size).value)
    ensures KnownTo(input, plan.assignments[j].source)
  {
    PlanPartitions(input, plan, parts);
    PartsWorkable(input, plan.assignments, parts, j);
    if Among(Ranked(input), plan.assignments[j].source) {
      RankedKnown(input, plan.assignments[j].source);
    }
  }

  lemma {:induction false} FirstGreedy(input: PlanInput, peers: seq<Timed>, untested: seq<Source>, parts: seq<seq<nat>>)
    requires GreedyParts(input, peers, untested, parts) && parts != []
    ensures peers != [] && Greedy(input, peers[0], peers[0].source in untested, 0, |parts[0]|)
    decreases |parts|
  {
    hide Greedy;
    var init := parts[..|parts| - 1];
    if init == [] {
      assert parts == [parts[0]] && Concat(parts) == Concat([]) + parts[0] == parts[0];
    } else {
      FirstGreedy(input, peers, untested, init);
      assert init[0] == parts[0];
    }
  }

  lemma {:induction false} OwnersSome(parts: seq<seq<nat>>, k: nat)
    requires k < |parts| && parts[k] != []
    ensures Owners(parts) != []
    decreases |parts|
  {
    if k < |parts| - 1 {
      OwnersSome(parts[..|parts| - 1], k);
    }
  }

  /** Parts that are not all empty give one of the sources work. */
  lemma DealtSome(assignments: seq<Assignment>, sources: seq<Timed>, parts: seq<seq<nat>>, size: nat, k: nat) returns (i: nat)
    requires Dealt(assignments, sources, parts, size) && k < |parts| && parts[k] != []
    ensures assignments != [] && i < |sources| && assignments[0].source == sources[i].source && Flat(assignments[0].ranges) != []
  {
    hide Costed;
    OwnersSome(parts, k);
    OwnersAscend(parts);
    i := Owners(parts)[0];
    assert DealtAt(assignments[0], sources, parts, i, size);
    RunsFlatten(parts[i]);
  }

  lemma {:induction false} ConcatSome(parts: seq<seq<nat>>) returns (k: nat)
    requires Concat(parts) != []
    ensures k < |parts| && parts[k] != []
    decreases |parts|
  {
    k := |parts| - 1;
    if parts[k] == [] {
      k := ConcatSome(parts[..k]);
    }
  }

  /** If all peers are untested, a plan gives one of them work, however late it is. */
  lemma UntestedWorks(input: PlanInput, plan: Plan, parts: seq<seq<nat>>) returns (i: nat)
    requires Planned(input, plan, parts) && input.needed != [] && input.peers != []
    requires forall j :: 0 <= j < |input.peers| ==> Positive(input.peers[j].rate).None?
    ensures plan.assignments != [] && i < |input.peers| && plan.assignments[0].source == input.peers[i].source
    ensures Flat(plan.assignments[0].ranges) != []
  {
    hide Dealt, GreedyParts, Greedy, NearOptimal, Costed;
    var ranked := Ranked(input);
    var k: nat;
    if PlannedAlone(input, plan, parts) {
      var part := ConcatSome(parts);
      k := DealtSome(plan.assignments, ranked, parts, input.size, part);
    } else {
      var alone, aloneParts :| PlannedTail(input, plan, parts, alone, aloneParts);
      if Concat(parts) == input.needed {
        var part := ConcatSome(parts);
        k := DealtSome(plan.assignments, ranked, parts, input.size, part);
      } else {
        FirstGreedy(input, ranked, Untested(input.peers), parts);
        TrialTaken(input, parts);
        k := DealtSome(plan.assignments[..|plan.assignments| - 1], ranked, parts, input.size, 0);
      }
    }
    RankedMember(input, k);
    i :| 0 <= i < |input.peers| && ranked[k] == ResolveOne(input.peers[i], input);
  }

  lemma TrialTaken(input: PlanInput, parts: seq<seq<nat>>)
    requires input.needed != [] && Ranked(input) != [] && parts != []
    requires Greedy(input, Ranked(input)[0], Ranked(input)[0].source in Untested(input.peers), 0, |parts[0]|)
    requires forall j :: 0 <= j < |input.peers| ==> Positive(input.peers[j].rate).None?
    ensures parts[0] != []
  {
    hide Ranked;
    RankedMember(input, 0);
    var j :| 0 <= j < |input.peers| && Ranked(input)[0] == ResolveOne(input.peers[j], input);
    assert input.peers[j].source in Untested(input.peers);
  }

  /** No more assignments than holders, and origin. */
  lemma PlanSize(input: PlanInput, plan: Plan, parts: seq<seq<nat>>)
    requires Planned(input, plan, parts)
    ensures |plan.assignments| <= Max(input.maxHolders, 1) + if input.origin.Some? then 1 else 0
  {
    if input.needed != [] && (input.peers != [] || input.origin.Some?) {
      PlanPartitions(input, plan, parts);
      OwnersAscend(parts);
    }
  }

  /** With an origin every peer of a plan is on time, or holds a single piece as an
      untested source; only the tail at origin may be late. */
  lemma PlanOnTime(input: PlanInput, plan: Plan, parts: seq<seq<nat>>, j: nat)
    requires Planned(input, plan, parts) && input.needed != [] && input.origin.Some? && j < |plan.assignments|
    requires PieceCount(input.size).Some? && Below(input.needed, PieceCount(input.size).value)
    ensures || OnTime(plan.assignments[j], input.availableMs, Untested(input.peers))
            || (j == |plan.assignments| - 1 &&
                OriginLast(plan.assignments, parts, input, Ranked(input), ResolveOne(input.origin.value, input)))
  {
    hide OnTime, Dealt, GreedyParts, OriginLast, SplitOf, Ranked, Below, Concat;
    if PlannedAlone(input, plan, parts) {
      AloneOnTime(input, plan, parts, j);
    } else {
      var alone, aloneParts :| PlannedTail(input, plan, parts, alone, aloneParts);
      TailOnTime(input, plan.assignments, parts, j);
    }
  }

  lemma AloneOnTime(input: PlanInput, plan: Plan, parts: seq<seq<nat>>, j: nat)
    requires SplitOf(input, Ranked(input), parts, plan) && !plan.late && j < |plan.assignments|
    ensures OnTime(plan.assignments[j], input.availableMs, Untested(input.peers))
  {
  }

  lemma TailOnTime(input: PlanInput, assignments: seq<Assignment>, parts: seq<seq<nat>>, j: nat)
    requires input.origin.Some? && j < |assignments|
    requires Tailed(assignments, parts, input, Ranked(input), ResolveOne(input.origin.value, input), Untested(input.peers))
    requires PieceCount(input.size).Some? && Below(input.needed, PieceCount(input.size).value)
    ensures || OnTime(assignments[j], input.availableMs, Untested(input.peers))
            || (j == |assignments| - 1 && OriginLast(assignments, parts, input, Ranked(input), ResolveOne(input.origin.value, input)))
  {
    hide OnTime, Dealt, GreedyParts, Ranked, Below;
    var n := |assignments| - 1;
    if Concat(parts) == input.needed {
      DealtOnTime(assignments, input, parts, j);
    } else if j < n {
      DealtOnTime(assignments[..n], input, parts, j);
    }
  }

  lemma DealtOnTime(assignments: seq<Assignment>, input: PlanInput, parts: seq<seq<nat>>, j: nat)
    requires Dealt(assignments, Ranked(input), parts, input.size) && j < |assignments|
    requires GreedyParts(input, Ranked(input), Untested(input.peers), parts) && Concat(parts) <= input.needed
    requires PieceCount(input.size).Some? && Below(input.needed, PieceCount(input.size).value)
    ensures OnTime(assignments[j], input.availableMs, Untested(input.peers))
  {
    OwnersAscend(parts);
    HeadOnTime(assignments[j], parts, input, Ranked(input), Untested(input.peers), Owners(parts)[j]);
  }

  /** A plan is late exactly if its slowest assignment is; without any source it
      has no projection and is late. */
  lemma PlanLateness(input: PlanInput, plan: Plan, parts: seq<seq<nat>>)
    requires Planned(input, plan, parts) && input.needed != []
    ensures input.peers == [] && input.origin.None? ==> plan == Plan([], None, true)
    ensures input.peers != [] || input.origin.Some? ==>
              && plan.projectedMs == Some(LatestOf(plan.assignments))
              && (plan.late <==> LatestOf(plan.assignments) > input.availableMs)
  {
  }

  /** No source gets two assignments. */
  lemma PlanDistinct(input: PlanInput, plan: Plan, parts: seq<seq<nat>>, i: nat, j: nat)
    requires Planned(input, plan, parts) && input.needed != [] && i < j < |plan.assignments|
    requires DistinctEstimates(input.peers)
    requires input.origin.Some? ==> forall k :: 0 <= k < |input.peers| ==> input.peers[k].source != input.origin.value.source
    ensures plan.assignments[i].source != plan.assignments[j].source
  {
    hide Planned, PeersThenOrigin;
    if input.peers != [] || input.origin.Some? {
      PlanPartitions(input, plan, parts);
      PartsDistinct(input, plan.assignments, parts, i, j);
    } else {
      PlanLateness(input, plan, parts);
    }
  }

  lemma PartsDistinct(input: PlanInput, a: seq<Assignment>, parts: seq<seq<nat>>, i: nat, j: nat)
    requires PeersThenOrigin(input, a, parts) && i < j < |a| && DistinctEstimates(input.peers)
    requires input.origin.Some? ==> forall k :: 0 <= k < |input.peers| ==> input.peers[k].source != input.origin.value.source
    ensures a[i].source != a[j].source
  {
    hide Dealt, Ranked, Concat, DistinctTimed, DistinctEstimates;
    RankedDistinct(input);
    var n := |a| - 1;
    if Dealt(a, Ranked(input), parts, input.size) {
      DealtDistinct(a, Ranked(input), parts, input.size, i, j);
    } else if j < n {
      DealtDistinct(a[..n], Ranked(input), parts, input.size, i, j);
    } else {
      NotOrigin(input, a[..n], parts, i);
    }
  }

  lemma DealtDistinct(a: seq<Assignment>, sources: seq<Timed>, parts: seq<seq<nat>>, size: nat, i: nat, j: nat)
    requires Dealt(a, sources, parts, size) && DistinctTimed(sources) && i < j < |a|
    ensures a[i].source != a[j].source
  {
    OwnersAscend(parts);
    assert DealtAt(a[i], sources, parts, Owners(parts)[i], size);
    assert DealtAt(a[j], sources, parts, Owners(parts)[j], size);
  }

  lemma NotOrigin(input: PlanInput, heads: seq<Assignment>, parts: seq<seq<nat>>, i: nat)
    requires Dealt(heads, Ranked(input), parts, input.size) && i < |heads| && input.origin.Some?
    requires forall k :: 0 <= k < |input.peers| ==> input.peers[k].source != input.origin.value.source
    ensures heads[i].source != input.origin.value.source
  {
    assert DealtAt(heads[i], Ranked(input), parts, Owners(parts)[i], input.size);
    RankedMember(input, Owners(parts)[i]);
  }

  /** Every assignment is workable and goes to a source the plan was given. */
  ghost predicate Sourced(input: PlanInput, assignments: seq<Assignment>, n: nat) {
    forall j :: 0 <= j < |assignments| ==> Workable(assignments[j], n) && KnownTo(input, assignments[j].source)
  }

  /** A plan assigns exactly the needed pieces, each once and in order, if there
      is any source at all. */
  lemma PlanAssigns(input: PlanInput, plan: Plan, parts: seq<seq<nat>>, n: nat)
    requires Planned(input, plan, parts) && PieceCount(input.size) == Some(n) && Below(input.needed, n)
    ensures Sourced(input, plan.assignments, n)
    ensures input.peers != [] || input.origin.Some? ==> PiecesOf(plan.assignments) == input.needed
    ensures input.peers == [] && input.origin.None? ==> plan.assignments == []
  {
    hide Workable, KnownTo, SplitOf, PlannedTail, PlannedAlone;
    if input.needed != [] && (input.peers != [] || input.origin.Some?) {
      PlanPartitions(input, plan, parts);
    }
    if input.needed != [] {
      forall j | 0 <= j < |plan.assignments| ensures Workable(plan.assignments[j], n) && KnownTo(input, plan.assignments[j].source) {
        PlanWorkable(input, plan, parts, j);
      }
    }
  }

  lemma {:induction false} PiecesOfConcat(a: seq<Assignment>, b: seq<Assignment>)
    ensures PiecesOf(a + b) == PiecesOf(a) + PiecesOf(b)
    decreases |b|
  {
    if b == [] {
      assert a + b == a;
    } else {
      var init, last := b[..|b| - 1], b[|b| - 1];
      PiecesOfConcat(a, init);
      ConcatAssoc(a, init, [last]);
      assert b == init + [last];
      PiecesOfSnoc(a + init, last);
      ConcatAssoc(PiecesOf(a), PiecesOf(init), Flat(last.ranges));
    }
  }
}

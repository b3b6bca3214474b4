/** Contiguous runs of piece indices. */
module RunLists {
  import opened Pieces

  /** Consecutive ranges never touch, so no two of them could be one. */
  ghost predicate Maximal(ranges: seq<PieceRange>) {
    && (forall k :: 0 <= k < |ranges| ==> ranges[k].start < ranges[k].end)
    && (forall k :: 0 <= k < |ranges| - 1 ==> ranges[k].end != ranges[k + 1].start)
  }

  lemma GrowRun(ranges: seq<PieceRange>, index: nat)
    requires ranges != [] && Maximal(ranges) && ranges[|ranges| - 1].end == index
    ensures var n := |ranges| - 1;
            var grown := ranges[..n] + [PieceRange(ranges[n].start, index + 1)];
            Flat(grown) == Flat(ranges) + [index] && Maximal(grown)
  {
    var n := |ranges| - 1;
    var init, last, grown := ranges[..n], ranges[n], PieceRange(ranges[n].start, index + 1);
    assert ranges == init + [last];
    FlatConcat(init, [last]);
    FlatConcat(init, [grown]);
    FlatOne(last);
    FlatOne(grown);
    SpanSplit(grown, index);
    assert Span(PieceRange(index, index + 1)) == [index];
    assert Flat(init) + (Span(last) + [index]) == (Flat(init) + Span(last)) + [index];
  }

  lemma NewRun(ranges: seq<PieceRange>, index: nat)
    requires Maximal(ranges) && (ranges == [] || ranges[|ranges| - 1].end != index)
    ensures var grown := ranges + [PieceRange(index, index + 1)];
            Flat(grown) == Flat(ranges) + [index] && Maximal(grown)
  {
    var single := PieceRange(index, index + 1);
    FlatConcat(ranges, [single]);
    FlatOne(single);
    assert Span(single) == [index];
  }

  /** The runs of a list, by its last element. */
  function RunsOf(pieces: seq<nat>): seq<PieceRange>
    decreases |pieces|
  {
    if pieces == [] then []
    else
      var n := |pieces| - 1;
      Extended(RunsOf(pieces[..n]), pieces[n])
  }

  function Extended(ranges: seq<PieceRange>, index: nat): seq<PieceRange> {
    if ranges != [] && ranges[|ranges| - 1].end == index then
      ranges[..|ranges| - 1] + [PieceRange(ranges[|ranges| - 1].start, index + 1)]
    else ranges + [PieceRange(index, index + 1)]
  }

  method Runs(pieces: seq<nat>) returns (ranges: seq<PieceRange>)
    ensures ranges == RunsOf(pieces)
  {
    ranges := [];
    for n := 0 to |pieces|
      invariant ranges == RunsOf(pieces[..n])
    {
      var index := pieces[n];
      assert pieces[..n + 1][..n] == pieces[..n];
      if ranges != [] && ranges[|ranges| - 1].end == index {
        ranges := ranges[..|ranges| - 1] + [PieceRange(ranges[|ranges| - 1].start, index + 1)];
      } else {
        ranges := ranges + [PieceRange(index, index + 1)];
      }
    }
    assert pieces[..|pieces|] == pieces;
  }

  /** The runs flatten back to the list, and no two of them could be one. */
  lemma {:induction false} RunsFlatten(pieces: seq<nat>)
    ensures Flat(RunsOf(pieces)) == pieces && Maximal(RunsOf(pieces))
    ensures pieces != [] ==> RunsOf(pieces) != []
    decreases |pieces|
  {
    if pieces != [] {
      var n := |pieces| - 1;
      RunsFlatten(pieces[..n]);
      ExtendedFlattens(RunsOf(pieces[..n]), pieces[n]);
      assert pieces == pieces[..n] + [pieces[n]];
    }
  }

  lemma ExtendedFlattens(ranges: seq<PieceRange>, index: nat)
    requires Maximal(ranges)
    ensures Flat(Extended(ranges, index)) == Flat(ranges) + [index] && Maximal(Extended(ranges, index))
    ensures Extended(ranges, index) != []
  {
    if ranges != [] && ranges[|ranges| - 1].end == index {
      GrowRun(ranges, index);
    } else {
      NewRun(ranges, index);
    }
  }

  /** Ranges without touching neighbours are exactly the runs of their pieces. */
  lemma RunsCanonical(ranges: seq<PieceRange>)
    requires Maximal(ranges)
    ensures RunsOf(Flat(ranges)) == ranges
  {
    RunsFlatten(Flat(ranges));
    MaximalUnique(RunsOf(Flat(ranges)), ranges);
  }

  /** The run decomposition of a list is unique. */
  lemma {:induction false} MaximalUnique(a: seq<PieceRange>, b: seq<PieceRange>)
    requires Maximal(a) && Maximal(b) && Flat(a) == Flat(b)
    ensures a == b
  {
    if a != [] && b != [] {
      FirstRun(a, b);
      FirstRun(b, a);
      var d := |Span(a[0])|;
      assert Flat(a[1..]) == Flat(a)[d..];
      assert Flat(b[1..]) == Flat(b)[d..];
      assert forall k :: 0 <= k < |a[1..]| ==> a[1..][k] == a[k + 1];
      assert forall k :: 0 <= k < |b[1..]| ==> b[1..][k] == b[k + 1];
      MaximalUnique(a[1..], b[1..]);
      assert a == [a[0]] + a[1..] && b == [b[0]] + b[1..];
    }
  }

  lemma InsideFirstRun(a: seq<PieceRange>, d: nat)
    requires a != [] && a[0].start + d < a[0].end
    ensures d < |Flat(a)| && Flat(a)[d] == a[0].start + d
  {
    assert Span(a[0])[d] == a[0].start + d;
  }

  lemma AfterFirstRun(b: seq<PieceRange>)
    requires b != [] && Maximal(b)
    ensures var d := b[0].end - b[0].start;
            d == |Flat(b)| || (d < |Flat(b)| && Flat(b)[d] != b[0].end)
  {
    if |b| > 1 {
      assert b[1..][0] == b[1];
      InsideFirstRun(b[1..], 0);
      assert Flat(b)[|Span(b[0])|] == Flat(b[1..])[0];
    }
  }

  lemma FirstRun(a: seq<PieceRange>, b: seq<PieceRange>)
    requires a != [] && b != [] && Maximal(a) && Maximal(b) && Flat(a) == Flat(b)
    ensures a[0].start == b[0].start && a[0].end <= b[0].end
  {
    InsideFirstRun(a, 0);
    InsideFirstRun(b, 0);
    var d := b[0].end - b[0].start;
    if a[0].start + d < a[0].end {
      InsideFirstRun(a, d);
    }
    AfterFirstRun(b);
  }
}

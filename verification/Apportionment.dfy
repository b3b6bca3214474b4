/** Whole piece counts for real shares, by largest remainder. */
module Apportionment {
  import opened Sorting
  import opened WaterLevel

  function Floors(shares: seq<real>): (r: seq<nat>)
    requires forall k :: 0 <= k < |shares| ==> shares[k] >= 0.0
    ensures |r| == |shares|
    ensures forall k :: 0 <= k < |r| ==> r[k] == shares[k].Floor
  {
    seq(|shares|, k requires 0 <= k < |shares| => shares[k].Floor)
  }

  function Remainder(x: real): real {
    x - x.Floor as real
  }

  function RemainderAt(shares: seq<real>): int -> real {
    (k: int) => if 0 <= k < |shares| then Remainder(shares[k]) else 0.0
  }

  /** The larger remainder first, then the lower index. */
  function ByRemainder(shares: seq<real>): (int, int) -> bool {
    (a: int, b: int) =>
      RemainderAt(shares)(a) > RemainderAt(shares)(b) || (RemainderAt(shares)(a) == RemainderAt(shares)(b) && a <= b)
  }

  function Indices(n: nat): (r: seq<int>)
    ensures |r| == n && forall k :: 0 <= k < n ==> r[k] == k
  {
    seq(n, k => k)
  }

  /** The shares sum to more than `n - 1` and at most `n`. */
  ghost predicate WellSized(shares: seq<real>, n: nat) {
    n as real - 1.0 < Sum(Same, shares) <= n as real
  }

  lemma {:induction false} FloorsAndRemainders(shares: seq<real>, n: nat)
    requires forall k :: 0 <= k < |shares| ==> shares[k] >= 0.0
    requires n <= |shares|
    ensures Total(Floors(shares)[..n]) as real + Sum(RemainderAt(shares), Indices(|shares|)[..n]) == Sum(Same, shares[..n])
  {
    if n > 0 {
      FloorsAndRemainders(shares, n - 1);
      assert shares[..n] == shares[..n - 1] + [shares[n - 1]];
      assert Floors(shares)[..n] == Floors(shares)[..n - 1] + [Floors(shares)[n - 1]];
      assert Indices(|shares|)[..n] == Indices(|shares|)[..n - 1] + [n - 1];
      SumSnoc(Same, shares[..n - 1], shares[n - 1]);
      SumSnoc(RemainderAt(shares), Indices(|shares|)[..n - 1], n - 1);
      TotalSnoc(Floors(shares)[..n - 1], Floors(shares)[n - 1]);
    }
  }

  lemma {:induction false} RemaindersBelowOne(shares: seq<real>, xs: seq<int>)
    requires forall k :: 0 <= k < |xs| ==> 0 <= xs[k] < |shares|
    ensures Sum(RemainderAt(shares), xs) <= |xs| as real
  {
    if xs != [] {
      RemaindersBelowOne(shares, xs[1..]);
    }
  }

  lemma {:induction false} RemaindersVanish(shares: seq<real>, xs: seq<int>)
    requires forall k :: 0 <= k < |xs| ==> RemainderAt(shares)(xs[k]) == 0.0
    ensures Sum(RemainderAt(shares), xs) == 0.0
  {
    if xs != [] {
      RemaindersVanish(shares, xs[1..]);
    }
  }

  /** If only the first `q` sources in remainder order have a remainder, at most
      `q` pieces are left over after flooring, and flooring never overshoots. */
  lemma LeftOver(shares: seq<real>, n: nat, q: nat)
    requires forall k :: 0 <= k < |shares| ==> shares[k] >= 0.0
    requires WellSized(shares, n) && q <= |shares|
    requires forall p :: q <= p < |shares| ==>
               RemainderAt(shares)(Sort(Indices(|shares|), ByRemainder(shares))[p]) == 0.0
    ensures Total(Floors(shares)) <= n <= Total(Floors(shares)) + q
  {
    var order := Sort(Indices(|shares|), ByRemainder(shares));
    FloorsAndRemainders(shares, |shares|);
    assert shares[..|shares|] == shares;
    assert Floors(shares)[..|shares|] == Floors(shares);
    assert Indices(|shares|)[..|shares|] == Indices(|shares|);
    SumSort(RemainderAt(shares), Indices(|shares|), ByRemainder(shares));
    assert order == order[..q] + order[q..];
    SumConcat(RemainderAt(shares), order[..q], order[q..]);
    RemaindersVanish(shares, order[q..]);
    OrderIndices(shares);
    RemaindersBelowOne(shares, order[..q]);
    RemaindersAtLeastZero(shares, order[..q]);
  }

  lemma {:induction false} RemaindersAtLeastZero(shares: seq<real>, xs: seq<int>)
    ensures Sum(RemainderAt(shares), xs) >= 0.0
  {
    if xs != [] {
      RemaindersAtLeastZero(shares, xs[1..]);
    }
  }

  lemma OrderIndices(shares: seq<real>)
    ensures var order := Sort(Indices(|shares|), ByRemainder(shares));
            && |order| == |shares| && NoDup(order)
            && SortedBy(order, ByRemainder(shares))
            && forall p :: 0 <= p < |order| ==> 0 <= order[p] < |shares|
  {
    var order := Sort(Indices(|shares|), ByRemainder(shares));
    SortNoDup(Indices(|shares|), ByRemainder(shares));
    SortSorted(Indices(|shares|), ByRemainder(shares));
    forall p | 0 <= p < |order| ensures 0 <= order[p] < |shares| {
      SameMembers(order, Indices(|shares|), order[p]);
    }
  }

  method AddLeft(order: seq<int>, floors: seq<nat>, left0: nat) returns (counts: seq<nat>, left: nat)
    requires NoDup(order) && |order| == |floors|
    requires forall p :: 0 <= p < |order| ==> 0 <= order[p] < |floors|
    ensures |counts| == |floors| && Total(counts) + left == Total(floors) + left0
    ensures left == if left0 <= |order| then 0 else left0 - |order|
    ensures var q := left0 - left;
            forall k :: 0 <= k < |floors| ==> counts[k] == floors[k] + (if k in order[..q] then 1 else 0)
  {
    counts, left := floors, left0;
    var p := 0;
    while p < |order| && left > 0
      invariant 0 <= p <= |order| && left == left0 - p
      invariant |counts| == |floors| && Total(counts) + left == Total(floors) + left0
      invariant forall k :: 0 <= k < |floors| ==> counts[k] == floors[k] + (if k in order[..p] then 1 else 0)
    {
      var index := order[p];
      assert index !in order[..p];
      assert order[..p + 1] == order[..p] + [index];
      TotalUpdate(counts, index, counts[index] + 1);
      counts := counts[index := counts[index] + 1];
      left := left - 1;
      p := p + 1;
    }
  }

  method TrimTail(before: seq<nat>, n: nat) returns (counts: seq<nat>)
    requires Total(before) >= n
    ensures |counts| == |before| && Total(counts) == n
    ensures Total(before) == n ==> counts == before
  {
    counts := before;
    var excess, k := Total(before) - n, |before|;
    while k > 0
      invariant 0 <= k <= |before| == |counts|
      invariant excess >= 0 && Total(counts) == n + excess
      invariant Total(before) == n ==> counts == before
      invariant excess > 0 ==> Total(counts[k..]) == 0
    {
      k := k - 1;
      var cut := if excess < counts[k] then excess else counts[k];
      TotalUpdate(counts, k, counts[k] - cut);
      ghost var was := counts;
      counts := counts[k := counts[k] - cut];
      excess := excess - cut;
      assert counts[k..] == [counts[k]] + was[k + 1..];
    }
    assert counts[k..] == counts;
  }

  /** Whole pieces for real shares: the floors, one more for the largest
      remainders, exactly `n` in all whatever the shares are. */
  method Apportion(shares: seq<real>, n: nat) returns (counts: seq<nat>)
    requires shares != [] && forall k :: 0 <= k < |shares| ==> shares[k] >= 0.0
    ensures |counts| == |shares| && Total(counts) == n
    ensures WellSized(shares, n) ==> Rounded(shares, counts)
  {
    var floors := Floors(shares);
    var left0 := if Total(floors) < n then n - Total(floors) else 0;
    var order := Sort(Indices(|shares|), ByRemainder(shares));
    OrderIndices(shares);
    var left;
    counts, left := AddLeft(order, floors, left0);
    if WellSized(shares, n) {
      RoundedBy(shares, n, order, counts, left0);
    }
    TotalUpdate(counts, 0, counts[0] + left);
    counts := counts[0 := counts[0] + left];
    counts := TrimTail(counts, n);
  }

  /** Each count is its share rounded down, or up if there is a remainder; no
      share is rounded down whose remainder is larger than one rounded up. */
  ghost predicate Rounded(shares: seq<real>, counts: seq<nat>) {
    && |counts| == |shares|
    && (forall k :: 0 <= k < |shares| ==>
          counts[k] == shares[k].Floor || (counts[k] == shares[k].Floor + 1 && Remainder(shares[k]) > 0.0))
    && (forall i, j :: 0 <= i < |shares| && 0 <= j < |shares| && counts[i] > shares[i].Floor && counts[j] == shares[j].Floor ==>
          Remainder(shares[i]) >= Remainder(shares[j]))
  }

  lemma RoundedBy(shares: seq<real>, n: nat, order: seq<int>, counts: seq<nat>, left0: nat)
    requires forall k :: 0 <= k < |shares| ==> shares[k] >= 0.0
    requires WellSized(shares, n)
    requires order == Sort(Indices(|shares|), ByRemainder(shares))
    requires left0 == (if Total(Floors(shares)) < n then n - Total(Floors(shares)) else 0)
    requires |counts| == |shares|
    requires var q := if left0 <= |order| then left0 else |order|;
             forall k :: 0 <= k < |shares| ==> counts[k] == shares[k].Floor + (if k in order[..q] then 1 else 0)
    ensures Rounded(shares, counts) && left0 <= |order| && Total(Floors(shares)) + left0 == n
  {
    OrderIndices(shares);
    LeftOver(shares, n, |shares|);
    forall k | 0 <= k < |shares| && k in order[..left0] ensures Remainder(shares[k]) > 0.0 {
      var p :| 0 <= p < left0 && order[p] == k;
      ExtrasHaveRemainder(shares, n, order, left0, p);
    }
    forall i, j | 0 <= i < |shares| && 0 <= j < |shares| && i in order[..left0] && j !in order[..left0]
      ensures Remainder(shares[i]) >= Remainder(shares[j])
    {
      ExtrasGoFirst(shares, order, left0, i, j);
    }
  }

  lemma ExtrasHaveRemainder(shares: seq<real>, n: nat, order: seq<int>, left0: nat, p: nat)
    requires forall k :: 0 <= k < |shares| ==> shares[k] >= 0.0
    requires WellSized(shares, n) && order == Sort(Indices(|shares|), ByRemainder(shares))
    requires Total(Floors(shares)) + left0 == n && p < left0 <= |order|
    ensures 0 <= order[p] < |shares| && Remainder(shares[order[p]]) > 0.0
  {
    hide Floors, Total, WellSized, Sort;
    OrderIndices(shares);
    if Remainder(shares[order[p]]) == 0.0 {
      forall r | p <= r < |shares| ensures RemainderAt(shares)(order[r]) == 0.0 {
        if r > p {
          assert ByRemainder(shares)(order[p], order[r]);
        }
      }
      LeftOver(shares, n, p);
    }
  }

  lemma ExtrasGoFirst(shares: seq<real>, order: seq<int>, left0: nat, i: int, j: int)
    requires order == Sort(Indices(|shares|), ByRemainder(shares)) && left0 <= |order|
    requires 0 <= i < |shares| && 0 <= j < |shares| && i in order[..left0] && j !in order[..left0]
    ensures Remainder(shares[i]) >= Remainder(shares[j])
  {
    OrderIndices(shares);
    var p :| 0 <= p < left0 && order[p] == i;
    SameMembers(order, Indices(|shares|), Indices(|shares|)[j]);
    var r :| 0 <= r < |order| && order[r] == j;
    assert forall x :: 0 <= x < left0 ==> order[..left0][x] == order[x];
    assert ByRemainder(shares)(order[p], order[r]);
    assert RemainderAt(shares)(i) >= RemainderAt(shares)(j);
  }
}

/** The finish time at which several sources together carry a number of bytes,
    and why no division of those bytes can finish earlier. */
module WaterLevel {
  import opened Estimates
  import opened Sorting

  function Fill(s: Timed, t: real): real {
    MaxR(t - s.firstByte, 0.0) * s.rate
  }

  ghost function Filling(t: real): Timed -> real {
    (s: Timed) => Fill(s, t)
  }

  function Rate(s: Timed): real {
    s.rate
  }

  function Weight(s: Timed): real {
    s.firstByte * s.rate
  }

  /** The bytes that the sources together carry by time `t`. */
  ghost function Capacity(sources: seq<Timed>, t: real): real {
    Sum(Filling(t), sources)
  }

  predicate ByFirstByte(a: Timed, b: Timed) {
    a.firstByte <= b.firstByte
  }

  lemma {:induction false} Flowing(xs: seq<Timed>, t: real)
    requires forall k :: 0 <= k < |xs| ==> xs[k].firstByte <= t
    ensures Capacity(xs, t) == t * Sum(Rate, xs) - Sum(Weight, xs)
  {
    if xs != [] {
      Flowing(xs[1..], t);
      var s := xs[0];
      assert Fill(s, t) == (t - s.firstByte) * s.rate == t * s.rate - s.firstByte * s.rate;
      assert t * (s.rate + Sum(Rate, xs[1..])) == t * s.rate + t * Sum(Rate, xs[1..]);
    }
  }

  lemma {:induction false} Waiting(xs: seq<Timed>, t: real)
    requires forall k :: 0 <= k < |xs| ==> t <= xs[k].firstByte
    ensures Capacity(xs, t) == 0.0
  {
    if xs != [] {
      Waiting(xs[1..], t);
    }
  }

  lemma {:induction false} RatesPositive(xs: seq<Timed>)
    requires Usable(xs)
    ensures Sum(Rate, xs) >= 0.0
    ensures xs != [] ==> Sum(Rate, xs) > 0.0
  {
    if xs != [] {
      RatesPositive(xs[1..]);
    }
  }

  lemma RealDivide(a: real, b: real)
    requires b > 0.0
    ensures (a / b) * b == a
  {
  }

  lemma LessByRate(a: real, b: real, r: real)
    requires r > 0.0 && a * r < b * r
    ensures a < b
  {
  }

  lemma AtMostByRate(a: real, b: real, r: real)
    requires r > 0.0 && a * r <= b * r
    ensures a <= b
  {
  }

  lemma NonNegativeProduct(a: real, b: real)
    requires a >= 0.0 && b > 0.0
    ensures a * b >= 0.0 && (a > 0.0 <==> a * b > 0.0)
  {
  }

  lemma NonNegativeOrder(a: real, b: real, p: real)
    requires a <= b && p > 0.0
    ensures a * p <= b * p
  {
    NonNegativeProduct(b - a, p);
    assert (b - a) * p == b * p - a * p;
  }

  /** What the loop of `WaterFill` knows before it looks at source `index`: the
      sources before it cannot carry more than `bytes` by its first byte. */
  ghost predicate Rising(order: seq<Timed>, index: nat, bytes: real, weighted: real, rates: real) {
    && index < |order|
    && weighted == Sum(Weight, order[..index]) && rates == Sum(Rate, order[..index])
    && Capacity(order[..index], order[index].firstByte) <= bytes
  }

  /** `t` balances the bytes over the first `n` sources, if all of them flow. */
  ghost predicate Balanced(order: seq<Timed>, n: nat, bytes: real, t: real) {
    n <= |order| && t * Sum(Rate, order[..n]) == bytes + Sum(Weight, order[..n])
  }

  lemma FlowingPrefix(order: seq<Timed>, n: nat, t: real)
    requires SortedBy(order, ByFirstByte) && 0 < n <= |order| && order[n - 1].firstByte <= t
    ensures Capacity(order[..n], t) == t * Sum(Rate, order[..n]) - Sum(Weight, order[..n])
  {
    forall k | 0 <= k < n ensures order[..n][k].firstByte <= t {
      if k < n - 1 {
        assert ByFirstByte(order[k], order[n - 1]);
      }
    }
    Flowing(order[..n], t);
  }

  /** The source that just joined has sent its first byte by the level. */
  lemma JoinedBefore(order: seq<Timed>, n: nat, bytes: real, t: real)
    requires Usable(order) && SortedBy(order, ByFirstByte) && 0 < n <= |order|
    requires Capacity(order[..n - 1], order[n - 1].firstByte) <= bytes && Balanced(order, n, bytes, t)
    ensures order[n - 1].firstByte <= t
  {
    var first, rates := order[n - 1].firstByte, Sum(Rate, order[..n]);
    assert first * rates <= t * rates by {
      FlowingPrefix(order, n, first);
      assert order[..n] == order[..n - 1] + [order[n - 1]];
      SumSnoc(Filling(first), order[..n - 1], order[n - 1]);
    }
    RatesPositive(order[..n]);
    AtMostByRate(first, t, rates);
  }

  /** The level lies beyond the next first byte, so the next source joins. */
  lemma NextJoins(order: seq<Timed>, n: nat, bytes: real, t: real)
    requires Usable(order) && SortedBy(order, ByFirstByte) && 0 < n < |order|
    requires Balanced(order, n, bytes, t) && order[n].firstByte < t
    ensures Capacity(order[..n], order[n].firstByte) <= bytes
  {
    var next, rates := order[n].firstByte, Sum(Rate, order[..n]);
    assert next * rates <= t * rates by {
      RatesPositive(order[..n]);
      NonNegativeOrder(next, t, rates);
    }
    assert ByFirstByte(order[n - 1], order[n]);
    FlowingPrefix(order, n, next);
  }

  lemma CapacitySplit(order: seq<Timed>, n: nat, t: real)
    requires n <= |order|
    ensures Capacity(order, t) == Capacity(order[..n], t) + Capacity(order[n..], t)
  {
    assert order == order[..n] + order[n..];
    SumConcat(Filling(t), order[..n], order[n..]);
  }

  lemma RestWaits(order: seq<Timed>, n: nat, t: real)
    requires SortedBy(order, ByFirstByte) && n <= |order| && (n < |order| ==> t <= order[n].firstByte)
    ensures Capacity(order[n..], t) == 0.0
  {
    forall k | n <= k < |order| ensures t <= order[k].firstByte {
      if k > n {
        assert ByFirstByte(order[n], order[k]);
      }
    }
    Waiting(order[n..], t);
  }

  /** The level stops short of the next source, so it balances the bytes. */
  lemma LevelStops(order: seq<Timed>, n: nat, bytes: real, t: real)
    requires SortedBy(order, ByFirstByte) && 0 < n <= |order|
    requires order[n - 1].firstByte <= t && (n < |order| ==> t <= order[n].firstByte)
    requires Balanced(order, n, bytes, t)
    ensures Capacity(order, t) == bytes
  {
    hide Capacity, SortedBy;
    FlowingPrefix(order, n, t);
    RestWaits(order, n, t);
    CapacitySplit(order, n, t);
  }

  lemma OrderedUsable(sources: seq<Timed>)
    requires Usable(sources)
    ensures Usable(Sort(sources, ByFirstByte)) && SortedBy(Sort(sources, ByFirstByte), ByFirstByte)
  {
    var order := Sort(sources, ByFirstByte);
    SortSorted(sources, ByFirstByte);
    forall k | 0 <= k < |order| ensures order[k].rate > 0.0 && order[k].firstByte >= 0.0 {
      SameMembers(sources, order, order[k]);
    }
  }

  /** The sums with one more source, and the level of the sources so far. */
  method NextLevel(order: seq<Timed>, index: nat, bytes: real, weighted: real, rates: real)
      returns (w: real, r: real, finish: real)
    requires index < |order| && Usable(order)
    requires weighted == Sum(Weight, order[..index]) && rates == Sum(Rate, order[..index])
    ensures w == Sum(Weight, order[..index + 1]) && r == Sum(Rate, order[..index + 1])
    ensures Balanced(order, index + 1, bytes, finish)
  {
    w := weighted + Weight(order[index]);
    r := rates + Rate(order[index]);
    assert w == Sum(Weight, order[..index + 1]) && r == Sum(Rate, order[..index + 1]) by {
      assert order[..index + 1] == order[..index] + [order[index]];
      SumSnoc(Weight, order[..index], order[index]);
      SumSnoc(Rate, order[..index], order[index]);
    }
    RatesPositive(order[..index + 1]);
    finish := (bytes + w) / r;
    assert finish * r == bytes + w by {
      RealDivide(bytes + w, r);
    }
  }

  /** The finish time at which the sources together carry `bytes`. */
  method WaterFill(sources: seq<Timed>, bytes: real) returns (finish: real)
    requires sources != [] && Usable(sources) && bytes >= 0.0
    ensures Capacity(sources, finish) == bytes
  {
    var order := Sort(sources, ByFirstByte);
    OrderedUsable(sources);
    var weighted, rates, index := 0.0, 0.0, 0;
    while true
      invariant Rising(order, index, bytes, weighted, rates)
      decreases |order| - index
    {
      weighted, rates, finish := NextLevel(order, index, bytes, weighted, rates);
      if index + 1 == |order| || finish <= order[index + 1].firstByte {
        JoinedBefore(order, index + 1, bytes, finish);
        LevelStops(order, index + 1, bytes, finish);
        SumSort(Filling(finish), sources, ByFirstByte);
        return;
      }
      NextJoins(order, index + 1, bytes, finish);
      index := index + 1;
    }
  }

  lemma {:induction false} CapacityMonotone(xs: seq<Timed>, u: real, t: real)
    requires Usable(xs) && u <= t
    ensures 0.0 <= Capacity(xs, u) <= Capacity(xs, t)
    ensures u < t && Capacity(xs, t) > 0.0 ==> Capacity(xs, u) < Capacity(xs, t)
  {
    if xs != [] {
      CapacityMonotone(xs[1..], u, t);
      FillMonotone(xs[0], u, t);
    }
  }

  lemma FillMonotone(s: Timed, u: real, t: real)
    requires s.rate > 0.0 && u <= t
    ensures 0.0 <= Fill(s, u) <= Fill(s, t)
    ensures u < t && Fill(s, t) > 0.0 ==> Fill(s, u) < Fill(s, t)
  {
    var a, b := MaxR(u - s.firstByte, 0.0), MaxR(t - s.firstByte, 0.0);
    assert 0.0 <= a <= b;
    NonNegativeProduct(b - a, s.rate);
    NonNegativeProduct(a, s.rate);
    assert (b - a) * s.rate == b * s.rate - a * s.rate;
  }

  /** `parts` divides `bytes` among the sources, each source with a part
      finishing it by `u`. */
  ghost predicate Divides(sources: seq<Timed>, parts: seq<real>, bytes: real, u: real) {
    && |parts| == |sources|
    && (forall k :: 0 <= k < |parts| ==> parts[k] >= 0.0)
    && (forall k :: 0 <= k < |parts| && parts[k] > 0.0 && sources[k].rate > 0.0 ==>
          sources[k].firstByte + parts[k] / sources[k].rate <= u)
    && Sum(Same, parts) == bytes
  }

  ghost function Same(x: real): real {
    x
  }

  lemma {:induction false} PartsFit(sources: seq<Timed>, parts: seq<real>, u: real)
    requires Usable(sources) && Divides(sources, parts, Sum(Same, parts), u)
    ensures Sum(Same, parts) <= Capacity(sources, u)
  {
    if sources != [] {
      var s, b := sources[0], parts[0];
      assert Divides(sources[1..], parts[1..], Sum(Same, parts[1..]), u);
      PartsFit(sources[1..], parts[1..], u);
      if b > 0.0 {
        RealDivide(b, s.rate);
        var d := b / s.rate;
        assert (u - s.firstByte - d) * s.rate >= 0.0;
        assert d > 0.0;
      }
    }
  }

  /** No division of the bytes, whole pieces or not, finishes before the level. */
  lemma LevelIsLowerBound(sources: seq<Timed>, parts: seq<real>, bytes: real, level: real, u: real)
    requires Usable(sources) && bytes > 0.0
    requires Capacity(sources, level) == bytes
    requires Divides(sources, parts, bytes, u)
    ensures level <= u
  {
    PartsFit(sources, parts, u);
    if u < level {
      CapacityMonotone(sources, u, level);
      assert false;
    }
  }

  /** What every source carries by `u`, cut by one factor. */
  ghost function Scaled(sources: seq<Timed>, u: real, c: real): (r: seq<real>)
    ensures |r| == |sources|
  {
    if sources == [] then [] else [c * Fill(sources[0], u)] + Scaled(sources[1..], u, c)
  }

  lemma {:induction false} ScaledSum(sources: seq<Timed>, u: real, c: real)
    ensures Sum(Same, Scaled(sources, u, c)) == c * Capacity(sources, u)
    decreases |sources|
  {
    if sources != [] {
      ScaledSum(sources[1..], u, c);
      assert Scaled(sources, u, c)[1..] == Scaled(sources[1..], u, c);
      Distribute(c, Fill(sources[0], u), Capacity(sources[1..], u));
    }
  }

  lemma Distribute(c: real, a: real, b: real)
    ensures c * (a + b) == c * a + c * b
  {
  }

  lemma ScaledInTime(s: Timed, u: real, c: real)
    requires s.rate > 0.0 && 0.0 <= c <= 1.0
    ensures c * Fill(s, u) >= 0.0
    ensures c * Fill(s, u) > 0.0 ==> s.firstByte + c * Fill(s, u) / s.rate <= u
  {
    CutTime(c, MaxR(u - s.firstByte, 0.0), s.rate, Fill(s, u));
  }

  /** A share of what flows in `d` takes that share of `d`. */
  lemma CutTime(c: real, d: real, r: real, flow: real)
    requires 0.0 <= c <= 1.0 && d >= 0.0 && r > 0.0 && flow == d * r
    ensures c * flow >= 0.0 && c * flow / r <= d && (c * flow > 0.0 ==> d > 0.0)
  {
    var x := c * d;
    Regroup(c, d, r);
    assert c * flow == x * r;
    CutSmaller(c, d);
    RealMultiply(x, r);
    NonNegativeProduct(x, r);
  }

  lemma Regroup(c: real, d: real, r: real)
    ensures c * (d * r) == (c * d) * r
  {
  }

  lemma RealMultiply(a: real, r: real)
    requires r > 0.0
    ensures a * r / r == a
  {
  }

  lemma CutSmaller(c: real, f: real)
    requires 0.0 <= c <= 1.0 && f >= 0.0
    ensures 0.0 <= c * f <= f && (c * f > 0.0 ==> f > 0.0)
  {
  }

  /** What the sources can carry by `u` can be divided so that all finish by `u`. */
  lemma DividesInTime(sources: seq<Timed>, bytes: real, u: real) returns (parts: seq<real>)
    requires Usable(sources) && 0.0 < bytes <= Capacity(sources, u)
    ensures Divides(sources, parts, bytes, u)
  {
    hide Fill, Capacity, Scaled, Usable;
    var all := Capacity(sources, u);
    var c := bytes / all;
    Fraction(bytes, all);
    parts := Scaled(sources, u, c);
    ScaledSum(sources, u, c);
    forall k | 0 <= k < |parts|
      ensures parts[k] >= 0.0 && (parts[k] > 0.0 && sources[k].rate > 0.0 ==> sources[k].firstByte + parts[k] / sources[k].rate <= u)
    {
      ScaledAt(sources, u, c, k);
    }
  }

  lemma {:induction false} ScaledAt(sources: seq<Timed>, u: real, c: real, k: nat)
    requires Usable(sources) && 0.0 <= c <= 1.0 && k < |sources|
    ensures var part := Scaled(sources, u, c)[k];
            part >= 0.0 && (part > 0.0 && sources[k].rate > 0.0 ==> sources[k].firstByte + part / sources[k].rate <= u)
  {
    if k == 0 {
      ScaledInTime(sources[0], u, c);
    } else {
      ScaledAt(sources[1..], u, c, k - 1);
    }
  }

  lemma Fraction(a: real, b: real)
    requires 0.0 < a <= b
    ensures 0.0 <= a / b <= 1.0 && a / b * b == a
  {
  }
}

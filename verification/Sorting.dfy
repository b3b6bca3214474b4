/** The stable library sort that the planner and the selector call, as a
    function, and sums that do not depend on order. */
module Sorting {

  function Insert<T>(x: T, xs: seq<T>, leq: (T, T) -> bool): (r: seq<T>)
    ensures multiset(r) == multiset(xs) + multiset{x}
    ensures |r| == |xs| + 1
  {
    if xs == [] || leq(x, xs[0]) then [x] + xs
    else
      assert xs == [xs[0]] + xs[1..];
      [xs[0]] + Insert(x, xs[1..], leq)
  }

  /** Equal elements keep their order. */
  function Sort<T>(xs: seq<T>, leq: (T, T) -> bool): (r: seq<T>)
    ensures multiset(r) == multiset(xs)
    ensures |r| == |xs|
  {
    if xs == [] then []
    else
      assert xs == [xs[0]] + xs[1..];
      Insert(xs[0], Sort(xs[1..], leq), leq)
  }

  ghost predicate TotalPreorder<T(!new)>(leq: (T, T) -> bool) {
    && (forall a, b :: leq(a, b) || leq(b, a))
    && (forall a, b, c :: leq(a, b) && leq(b, c) ==> leq(a, c))
  }

  ghost predicate SortedBy<T>(xs: seq<T>, leq: (T, T) -> bool) {
    forall i, j :: 0 <= i < j < |xs| ==> leq(xs[i], xs[j])
  }

  lemma SameMembers<T>(xs: seq<T>, ys: seq<T>, x: T)
    requires multiset(xs) == multiset(ys)
    ensures x in xs <==> x in ys
  {
    assert x in xs <==> x in multiset(xs);
    assert x in ys <==> x in multiset(ys);
  }

  lemma InsertMember<T>(x: T, xs: seq<T>, leq: (T, T) -> bool, y: T)
    ensures y in Insert(x, xs, leq) <==> y == x || y in xs
  {
    assert y in Insert(x, xs, leq) <==> y in multiset(Insert(x, xs, leq));
    assert y in xs <==> y in multiset(xs);
  }

  lemma {:induction false} InsertSorted<T(!new)>(x: T, xs: seq<T>, leq: (T, T) -> bool)
    requires TotalPreorder(leq) && SortedBy(xs, leq)
    ensures SortedBy(Insert(x, xs, leq), leq)
  {
    var r := Insert(x, xs, leq);
    if xs == [] {
    } else if leq(x, xs[0]) {
      forall i, j | 0 <= i < j < |r| ensures leq(r[i], r[j]) {
        if i == 0 && j > 1 {
          assert leq(xs[0], xs[j - 1]);
        }
      }
    } else {
      var tail := Insert(x, xs[1..], leq);
      InsertSorted(x, xs[1..], leq);
      forall i, j | 0 <= i < j < |r| ensures leq(r[i], r[j]) {
        if i == 0 {
          assert r[j] == tail[j - 1];
          InsertMember(x, xs[1..], leq, tail[j - 1]);
          if tail[j - 1] != x {
            var k :| 0 <= k < |xs[1..]| && xs[1..][k] == tail[j - 1];
            assert leq(xs[0], xs[k + 1]);
          }
        } else {
          assert r[i] == tail[i - 1] && r[j] == tail[j - 1];
        }
      }
    }
  }

  lemma {:induction false} SortSorted<T(!new)>(xs: seq<T>, leq: (T, T) -> bool)
    requires TotalPreorder(leq)
    ensures SortedBy(Sort(xs, leq), leq)
  {
    if xs != [] {
      SortSorted(xs[1..], leq);
      InsertSorted(xs[0], Sort(xs[1..], leq), leq);
    }
  }

  /** Sums of reals over a sequence. */
  ghost function Sum<T>(f: T -> real, xs: seq<T>): real {
    if xs == [] then 0.0 else f(xs[0]) + Sum(f, xs[1..])
  }

  lemma {:induction false} SumConcat<T>(f: T -> real, a: seq<T>, b: seq<T>)
    ensures Sum(f, a + b) == Sum(f, a) + Sum(f, b)
  {
    if a == [] {
      assert a + b == b;
    } else {
      assert (a + b)[1..] == a[1..] + b;
      SumConcat(f, a[1..], b);
    }
  }

  lemma SumSnoc<T>(f: T -> real, a: seq<T>, x: T)
    ensures Sum(f, a + [x]) == Sum(f, a) + f(x)
  {
    SumConcat(f, a, [x]);
    assert [x][1..] == [];
  }

  lemma {:induction false} SumInsert<T>(f: T -> real, x: T, xs: seq<T>, leq: (T, T) -> bool)
    ensures Sum(f, Insert(x, xs, leq)) == f(x) + Sum(f, xs)
  {
    if xs == [] || leq(x, xs[0]) {
      assert ([x] + xs)[1..] == xs;
    } else {
      SumInsert(f, x, xs[1..], leq);
      var tail := Insert(x, xs[1..], leq);
      assert ([xs[0]] + tail)[1..] == tail;
    }
  }

  lemma {:induction false} SumSort<T>(f: T -> real, xs: seq<T>, leq: (T, T) -> bool)
    ensures Sum(f, Sort(xs, leq)) == Sum(f, xs)
  {
    if xs != [] {
      SumSort(f, xs[1..], leq);
      SumInsert(f, xs[0], Sort(xs[1..], leq), leq);
    }
  }

  /** Sums of natural numbers. */
  function Total(xs: seq<nat>): nat {
    if xs == [] then 0 else xs[0] + Total(xs[1..])
  }

  lemma {:induction false} TotalConcat(a: seq<nat>, b: seq<nat>)
    ensures Total(a + b) == Total(a) + Total(b)
  {
    if a == [] {
      assert a + b == b;
    } else {
      assert (a + b)[1..] == a[1..] + b;
      TotalConcat(a[1..], b);
    }
  }

  lemma TotalSnoc(a: seq<nat>, x: nat)
    ensures Total(a + [x]) == Total(a) + x
  {
    TotalConcat(a, [x]);
    assert [x][1..] == [];
  }

  lemma {:induction false} TotalUpdate(a: seq<nat>, k: nat, x: nat)
    requires k < |a|
    ensures Total(a[k := x]) == Total(a) - a[k] + x
  {
    if k == 0 {
      assert a[0 := x][1..] == a[1..];
    } else {
      assert a[k := x][1..] == a[1..][k - 1 := x];
      TotalUpdate(a[1..], k - 1, x);
    }
  }

  // ---- lists without repetition ----

  function SetOf<T(==)>(xs: seq<T>): set<T> {
    set x | x in xs
  }

  lemma SetOfConcat<T>(a: seq<T>, b: seq<T>)
    ensures SetOf(a + b) == SetOf(a) + SetOf(b)
  {
  }

  ghost predicate Ascending(xs: seq<nat>) {
    forall j, k :: 0 <= j < k < |xs| ==> xs[j] < xs[k]
  }

  lemma AscendingNoDup(xs: seq<nat>)
    requires Ascending(xs)
    ensures NoDup(xs)
  {
  }

  ghost predicate NoDup<T>(xs: seq<T>) {
    forall i, j :: 0 <= i < j < |xs| ==> xs[i] != xs[j]
  }

  lemma {:induction false} NoDupCounts<T>(xs: seq<T>)
    requires NoDup(xs)
    ensures forall x :: multiset(xs)[x] <= 1
  {
    if xs != [] {
      assert xs == [xs[0]] + xs[1..];
      NoDupCounts(xs[1..]);
      forall k | 0 <= k < |xs[1..]| ensures xs[1..][k] != xs[0] {
        assert xs[1..][k] == xs[k + 1];
      }
    }
  }

  lemma CountsNoDup<T>(xs: seq<T>)
    requires forall x :: multiset(xs)[x] <= 1
    ensures NoDup(xs)
  {
    forall i, j | 0 <= i < j < |xs| ensures xs[i] != xs[j] {
      assert xs == xs[..j] + [xs[j]] + xs[j + 1..];
      assert xs[..j][i] == xs[i];
      assert multiset(xs)[xs[j]] <= 1;
    }
  }

  lemma SortNoDup<T>(xs: seq<T>, leq: (T, T) -> bool)
    requires NoDup(xs)
    ensures NoDup(Sort(xs, leq))
  {
    NoDupCounts(xs);
    CountsNoDup(Sort(xs, leq));
  }

  /** The two halves of a list without repetition have nothing in common. */
  lemma NoDupConcat<T>(a: seq<T>, b: seq<T>)
    ensures NoDup(a + b) <==> NoDup(a) && NoDup(b) && SetOf(a) !! SetOf(b)
  {
    var c := a + b;
    if NoDup(c) {
      assert forall k :: 0 <= k < |a| ==> c[k] == a[k];
      forall i, j | 0 <= i < j < |b| ensures b[i] != b[j] {
        assert c[|a| + i] == b[i] && c[|a| + j] == b[j];
      }
      forall i, j | 0 <= i < |a| && 0 <= j < |b| ensures a[i] != b[j] {
        assert c[i] == a[i] && c[|a| + j] == b[j];
      }
    }
    if NoDup(a) && NoDup(b) && SetOf(a) !! SetOf(b) {
      forall i, j | 0 <= i < j < |c| ensures c[i] != c[j] {
        if i < |a| <= j {
          assert c[i] in SetOf(a) && c[j] in SetOf(b);
        }
      }
    }
  }

  lemma ConcatAssoc<T>(a: seq<T>, b: seq<T>, c: seq<T>)
    ensures (a + b) + c == a + (b + c)
  {
  }

  lemma ConcatThree<T>(a: seq<T>, b: seq<T>, c: seq<T>, d: seq<T>)
    ensures ((a + b) + c) + d == a + (b + (c + d))
  {
    ConcatAssoc(a + b, c, d);
    ConcatAssoc(a, b, c + d);
  }
}

/** The schema 3 piece geometry: piece size, piece count and byte offsets, and
    the list of piece indices that a list of ranges stands for. */
module Pieces {
  import opened Wrappers

  const MAX_PIECES: nat := 64
  const TWO_63: nat := 0x8000_0000_0000_0000
  const TWO_64: nat := 0x1_0000_0000_0000_0000
  const TWO_32: nat := 0x1_0000_0000

  /** Pieces `start..end` of one object, end exclusive. */
  datatype PieceRange = PieceRange(start: nat, end: nat)

  function Max(a: int, b: int): int {
    if a < b then b else a
  }

  function Min(a: int, b: int): int {
    if a < b then a else b
  }

  /** What an i64 holds after an addition that may overflow once. */
  function Wrap64(x: int): int {
    if x >= TWO_63 then x - TWO_64 else x
  }

  /** Division truncating towards zero, by a positive divisor. */
  function Truncating(x: int, divisor: nat): int
    requires divisor > 0
  {
    if x >= 0 then x / divisor else -((-x) / divisor)
  }

  function CommitmentPieceSize(size: nat): (r: nat)
    ensures r >= 65_536 && r % 16_384 == 0
  {
    var raw := Max(65_536, Truncating(Wrap64(size + 63), 64));
    (raw + 16_383) / 16_384 * 16_384
  }

  function DivCeil(a: nat, b: nat): nat
    requires b > 0
  {
    (a + b - 1) / b
  }

  /** The number of pieces, or `None` for an empty or unrepresentable object. */
  function PieceCount(size: nat): Option<nat> {
    if size == 0 || size >= TWO_63 then None
    else
      var count := DivCeil(size, CommitmentPieceSize(size));
      if count < TWO_32 then Some(count) else None
  }

  /** The byte offsets of `range`, or `None` when it does not fit the object. */
  function RangeBytes(size: nat, range: PieceRange): Option<(nat, nat)> {
    match PieceCount(size)
    case None => None
    case Some(count) =>
      if range.start >= range.end || range.end > count || range.end > MAX_PIECES then None
      else
        var ps := CommitmentPieceSize(size);
        Some((range.start * ps, Min(range.end * ps, size)))
  }

  function PieceBytes(size: nat, ps: nat, index: nat): nat {
    var from := index * ps;
    Max(Min(from + ps, size) - from, 0)
  }

  /** `ps` cuts an object of `size` bytes into exactly `count` non-empty pieces. */
  ghost predicate Geometry(size: nat, ps: nat, count: nat) {
    ps > 0 && count > 0 && (count - 1) * ps < size <= count * ps
  }

  lemma MulMono(a: int, b: int, c: nat)
    requires a <= b
    ensures a * c <= b * c
  {
  }

  lemma DivCeilGeometry(size: nat, ps: nat)
    requires size > 0 && ps > 0
    ensures Geometry(size, ps, DivCeil(size, ps))
  {
    var q := DivCeil(size, ps);
    var a := size + ps - 1;
    assert a == ps * q + a % ps;
    assert q * ps == ps * q;
    assert (q - 1) * ps == ps * q - ps;
    if q <= 0 {
      MulMono(q, 0, ps);
      assert false;
    }
  }

  /** Every object that has a piece count has between 1 and 64 pieces, and they
      tile it: the last one is not empty and none runs past the end. */
  lemma CountWithinBound(size: nat)
    ensures PieceCount(size).Some? <==> 0 < size <= TWO_63 - 64
    ensures PieceCount(size).Some? ==>
      1 <= PieceCount(size).value <= MAX_PIECES &&
      Geometry(size, CommitmentPieceSize(size), PieceCount(size).value)
  {
    if 0 < size < TWO_63 {
      var ps := CommitmentPieceSize(size);
      DivCeilGeometry(size, ps);
      if size + 63 < TWO_63 {
        var q := (size + 63) / 64;
        assert ps >= q && 64 * q >= size;
        var count := DivCeil(size, ps);
        if count > 64 {
          MulMono(64, count - 1, ps);
          assert false;
        }
      } else {
        assert ps == 65_536;
        assert DivCeil(size, ps) >= TWO_32;
      }
    }
  }

  /** The bytes of pieces `0..count`, counted piece by piece. */
  ghost function SumBytes(size: nat, ps: nat, count: nat): nat {
    if count == 0 then 0 else SumBytes(size, ps, count - 1) + PieceBytes(size, ps, count - 1)
  }

  lemma {:induction false} SumBytesPrefix(size: nat, ps: nat, count: nat)
    requires ps > 0
    ensures SumBytes(size, ps, count) == Min(count * ps, size)
  {
    if count > 0 {
      SumBytesPrefix(size, ps, count - 1);
      assert (count - 1) * ps + ps == count * ps;
    }
  }

  lemma PieceBytesBounds(size: nat, ps: nat, count: nat, index: nat)
    requires Geometry(size, ps, count) && index < count
    ensures 0 < PieceBytes(size, ps, index) <= ps
    ensures index + 1 < count ==> PieceBytes(size, ps, index) == ps
    ensures index * ps + PieceBytes(size, ps, index) == Min((index + 1) * ps, size) <= size
  {
    MulMono(index, count - 1, ps);
    assert (index + 1) * ps == index * ps + ps;
    if index + 1 < count {
      MulMono(index + 1, count - 1, ps);
    }
  }

  /** Cutting a range at a piece cuts its bytes at one offset, so two sides that
      divide an object differently agree where every piece is. */
  lemma AdjacentRanges(size: nat, a: nat, b: nat, c: nat)
    requires a < b < c
    requires RangeBytes(size, PieceRange(a, c)).Some?
    ensures var whole := RangeBytes(size, PieceRange(a, c)).value;
            var left, right := RangeBytes(size, PieceRange(a, b)), RangeBytes(size, PieceRange(b, c));
            left.Some? && right.Some? &&
            left.value.0 == whole.0 < left.value.1 == right.value.0 < right.value.1 == whole.1 <= size
  {
    var ps := CommitmentPieceSize(size);
    var count := PieceCount(size).value;
    CountWithinBound(size);
    MulMono(b, count - 1, ps);
    MulMono(a + 1, b, ps);
    MulMono(b + 1, c, ps);
    assert (b + 1) * ps == b * ps + ps && (a + 1) * ps == a * ps + ps;
  }

  /** A range that fits the object has some bytes, all inside the object. */
  lemma RangeInside(size: nat, range: PieceRange)
    requires RangeBytes(size, range).Some?
    ensures RangeBytes(size, range).value.0 < RangeBytes(size, range).value.1 <= size
  {
    CountWithinBound(size);
    var ps := CommitmentPieceSize(size);
    PieceBytesBounds(size, ps, PieceCount(size).value, range.start);
    MulMono(range.start + 1, range.end, ps);
  }

  // ---- the pieces that ranges stand for ----

  function Span(r: PieceRange): (s: seq<nat>)
    ensures |s| == if r.start < r.end then r.end - r.start else 0
  {
    if r.start < r.end then seq(r.end - r.start, k requires 0 <= k => r.start + k) else []
  }

  function Flat(ranges: seq<PieceRange>): seq<nat> {
    if ranges == [] then [] else Span(ranges[0]) + Flat(ranges[1..])
  }

  lemma {:induction false} FlatConcat(a: seq<PieceRange>, b: seq<PieceRange>)
    ensures Flat(a + b) == Flat(a) + Flat(b)
  {
    if a == [] {
      assert a + b == b;
    } else {
      assert (a + b)[0] == a[0] && (a + b)[1..] == a[1..] + b;
      FlatConcat(a[1..], b);
    }
  }

  lemma FlatOne(r: PieceRange)
    ensures Flat([r]) == Span(r)
  {
    assert [r][1..] == [];
  }

  lemma SpanSplit(r: PieceRange, at: nat)
    requires r.start <= at <= r.end
    ensures Span(r) == Span(PieceRange(r.start, at)) + Span(PieceRange(at, r.end))
  {
  }

  /** Every range is non-empty and lies within `0..n`. */
  ghost predicate Within(ranges: seq<PieceRange>, n: nat) {
    forall k :: 0 <= k < |ranges| ==> ranges[k].start < ranges[k].end <= n
  }

  lemma {:induction false} FlatMember(ranges: seq<PieceRange>, i: nat)
    ensures i in Flat(ranges) <==> exists k :: 0 <= k < |ranges| && ranges[k].start <= i < ranges[k].end
  {
    if ranges != [] {
      var r := ranges[0];
      FlatMember(ranges[1..], i);
      if r.start <= i < r.end {
        assert Span(r)[i - r.start] == i;
      }
      if k :| 0 <= k < |ranges[1..]| && ranges[1..][k].start <= i < ranges[1..][k].end {
        assert ranges[k + 1] == ranges[1..][k];
      }
      if k :| 0 <= k < |ranges| && ranges[k].start <= i < ranges[k].end {
        if k > 0 {
          assert ranges[1..][k - 1] == ranges[k];
        }
      }
    }
  }
}

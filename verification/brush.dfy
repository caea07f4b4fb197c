/** Stroke rendering (`draw_line`): the commands one pen segment turns into
    under each brush style. */
module Brush {
  import opened Canvas

  datatype Style = Solid | Dashed | Spray

  /** Length of one dash; dashes start every `DashStride` pixels. */
  const DashLen: int := 10
  const DashStride: int := 2 * DashLen

  /** A spray puff is `SprayDots` dots of radius `DotRadius`, each at most
      `SprayReach` pixels from the end point on either axis. */
  const SprayDots: nat := 30
  const SprayReach: int := 10
  const DotRadius: int := 1

  function Sq(n: int): nat { n * n }

  /** Squares grow with their (non-negative) roots. */
  lemma SqMonotone(a: nat, b: nat)
    requires a <= b
    ensures Sq(a) <= Sq(b)
  {
    assert a * a <= a * b <= b * b;
  }

  /** Only zero squares to zero; anything else squares to at least 1. */
  lemma SquareZero(n: int)
    ensures Sq(n) == 0 <==> n == 0
    ensures n != 0 ==> Sq(n) >= 1
  {
    if n != 0 {
      SqMonotone(1, if n > 0 then n else -n);
    }
  }

  /** The next root candidate: twice a root of `m / 4`, plus one if that still fits. */
  function RootStep(m: nat, h: nat): nat {
    if Sq(2 * h + 1) <= m then 2 * h + 1 else 2 * h
  }

  /** Doubling a root of `m / 4` and correcting by at most one gives a root of `m`. */
  lemma QuarterRoot(m: nat, h: nat)
    requires Sq(h) <= m / 4 < Sq(h + 1)
    ensures Sq(RootStep(m, h)) <= m < Sq(RootStep(m, h) + 1)
  {
    assert Sq(2 * h) == 4 * Sq(h);
    assert Sq(2 * h + 2) == 4 * Sq(h + 1);
  }

  /** The integer square root, by halving: the largest `r` with `r * r <= m`. */
  function ISqrt(m: nat): (r: nat)
    ensures Sq(r) <= m < Sq(r + 1)
    decreases m
  {
    if m == 0 then 0
    else
      var h := ISqrt(m / 4);
      QuarterRoot(m, h);
      RootStep(m, h)
  }

  /** `int(hypot(dx, dy))`: the Euclidean length between two pixel positions,
      rounded down. It is 0 exactly for a zero-length segment. */
  function SegmentLength(a: Point, b: Point): (d: nat)
    ensures Sq(d) <= Sq(b.x - a.x) + Sq(b.y - a.y) < Sq(d + 1)
    ensures d == 0 <==> a == b
  {
    SquareZero(b.x - a.x);
    SquareZero(b.y - a.y);
    ISqrt(Sq(b.x - a.x) + Sq(b.y - a.y))
  }

  /** `range(from, limit, DashStride)`: the dash start offsets. */
  function DashStarts(from: int, limit: int): (r: seq<int>)
    ensures |r| == if from < limit then (limit - from + DashStride - 1) / DashStride else 0
    ensures forall k :: 0 <= k < |r| ==> r[k] == from + DashStride * k
    ensures forall k :: 0 <= k < |r| ==> from <= r[k] < limit
    decreases limit - from
  {
    if from < limit then [from] + DashStarts(from + DashStride, limit) else []
  }

  /** The dash starts are exactly the points from `from` up to (not including)
      `limit` that lie a whole number of strides past `from`. */
  lemma {:induction false} DashStartsMembers(from: int, limit: int, x: int)
    ensures x in DashStarts(from, limit) <==> from <= x < limit && (x - from) % DashStride == 0
    decreases limit - from
  {
    if from < limit && x != from {
      DashStartsMembers(from + DashStride, limit, x);
      assert (x - (from + DashStride)) % DashStride == (x - from) % DashStride;
      if x < from + DashStride {
        assert x !in DashStarts(from + DashStride, limit);
      }
    }
  }

  /** The spray's random source promises 30 offsets, each in [-10, 10] on both axes. */
  predicate IsJitter(j: seq<Offset>) {
    && |j| == SprayDots
    && forall k :: 0 <= k < |j| ==>
         -SprayReach <= j[k].dx <= SprayReach && -SprayReach <= j[k].dy <= SprayReach
  }

  /** The commands for one pen segment from `start` to `end`. A solid brush
      draws the segment. A dashed brush draws a dash of length 10 starting at
      every multiple of 20 below the segment's rounded-down length, so a
      zero-length segment draws nothing. A spray brush ignores `start` and
      dots 30 points around `end`, displaced by `jitter`. */
  function DrawLine(style: Style, color: Color, start: Point, end: Point, width: int, jitter: seq<Offset>): (r: seq<Command>)
    requires style == Spray ==> IsJitter(jitter)
    ensures style == Solid ==> r == [Line(color, start, end, width)]
    ensures style == Dashed ==>
      var d := SegmentLength(start, end);
      && |r| == (d + DashStride - 1) / DashStride
      && (forall k :: 0 <= k < |r| ==>
            r[k] == Dash(color, start, end, DashStride * k, DashLen, width) && DashStride * k < d)
    ensures style == Dashed && start == end ==> r == []
    ensures style == Spray ==>
      && |r| == SprayDots
      && forall k :: 0 <= k < |r| ==>
           && r[k] == Disc(color, Shift(end, jitter[k]), DotRadius)
           && end.x - SprayReach <= r[k].center.x <= end.x + SprayReach
           && end.y - SprayReach <= r[k].center.y <= end.y + SprayReach
  {
    match style
    case Solid => [Line(color, start, end, width)]
    case Dashed =>
      var starts := DashStarts(0, SegmentLength(start, end));
      seq(|starts|, k requires 0 <= k < |starts| => Dash(color, start, end, starts[k], DashLen, width))
    case Spray =>
      seq(SprayDots, k requires 0 <= k < SprayDots => Disc(color, Shift(end, jitter[k]), DotRadius))
  }

  /** `n` strides, rounded up, are the fewest that reach `d`. */
  lemma CeilStrides(d: nat)
    ensures var n := (d + DashStride - 1) / DashStride;
            DashStride * n >= d && (n == 0 || DashStride * (n - 1) < d)
  {
    var n := (d + DashStride - 1) / DashStride;
    assert DashStride * n <= d + DashStride - 1 < DashStride * n + DashStride;
  }

  /** The number of dashes is the least count whose strides cover the
      segment's rounded-down length: one more dash would start past the end,
      one fewer would leave its tail uncovered. */
  lemma DashCountCovers(color: Color, start: Point, end: Point, width: int, jitter: seq<Offset>)
    ensures var n := |DrawLine(Dashed, color, start, end, width, jitter)|;
            var d := SegmentLength(start, end);
            DashStride * n >= d && (n == 0 || DashStride * (n - 1) < d)
  {
    CeilStrides(SegmentLength(start, end));
  }

  /** A spray puff depends only on the end point: the start is ignored. */
  lemma SprayIgnoresStart(color: Color, s1: Point, s2: Point, end: Point, width: int, jitter: seq<Offset>)
    requires IsJitter(jitter)
    ensures DrawLine(Spray, color, s1, end, width, jitter) == DrawLine(Spray, color, s2, end, width, jitter)
  {}
}

/** Cost-bounded waypoint merging. */
module Waypoints {
  import opened Geometry
  import opened Grid
  import opened Lattice
  import Segment

  // ----- floats with infinity, as far as the code meets them -----

  datatype Ext = Fin(value: real) | Inf | NaN

  function Add(a: Ext, b: Ext): Ext {
    if a.Fin? && b.Fin? then Fin(a.value + b.value)
    else if a.NaN? || b.NaN? then NaN
    else Inf
  }

  function Sub(a: Ext, b: Ext): Ext {
    if a.Fin? && b.Fin? then Fin(a.value - b.value)
    else if a.Inf? && b.Fin? then Inf
    else NaN
  }

  const SLOPE: real := 1.02

  function Scaled(a: Ext): Ext {
    if a.Fin? then Fin(a.value * SLOPE) else a
  }

  predicate AtMost(a: Ext, b: Ext) {
    if a.Fin? && b.Fin? then a.value <= b.value else !a.NaN? && b.Inf?
  }

  // ----- weighted length of one segment -----

  /** Everything the merge reads besides the points: the map frame, its mask and the cell costs. */
  datatype Field = Field(hyp: (real, real) -> real, meta: Meta, blocked: Mask, costs: Cell -> real)

  ghost predicate ValidField(f: Field) {
    IsHypot(f.hyp) && f.meta.resolution > 0.0 && forall c :: f.costs(c) >= 0.0
  }

  function SampleCount(f: Field, start: Point, end: Point): int
    requires f.meta.resolution > 0.0
  {
    var n := Segment.Ceil(Dist(f.hyp, start, end) / f.meta.resolution * 2.0) + 1;
    if n < 2 then 2 else n
  }

  /** The cell under the `i`-th of `count` evenly spaced samples. */
  function SampleCell(f: Field, start: Point, end: Point, count: int, i: int): Cell
    requires f.meta.resolution > 0.0 && count >= 2
  {
    ToCell(f.meta, Along(start, end, i as real / (count - 1) as real))
  }

  function CostSum(f: Field, start: Point, end: Point, count: int, n: nat): real
    requires f.meta.resolution > 0.0 && count >= 2
  {
    if n == 0 then 0.0
    else CostSum(f, start, end, count, n - 1) + f.costs(SampleCell(f, start, end, count, n - 1))
  }

  predicate SamplesInside(f: Field, start: Point, end: Point, count: int)
    requires f.meta.resolution > 0.0 && count >= 2
  {
    forall i :: 0 <= i < count ==> Inside(f.blocked, SampleCell(f, start, end, count, i))
  }

  /** Length raised by the mean cost of the sampled cells; infinite if a sample falls off the map. */
  function WeightedLength(f: Field, start: Point, end: Point): Ext
    requires f.meta.resolution > 0.0
  {
    var count := SampleCount(f, start, end);
    if !SamplesInside(f, start, end, count) then Inf
    else Fin(Dist(f.hyp, start, end) * (1.0 + CostSum(f, start, end, count, count) / count as real))
  }

  lemma {:induction false} CostSumNonNegative(f: Field, start: Point, end: Point, count: int, n: nat)
    requires ValidField(f) && count >= 2
    ensures CostSum(f, start, end, count, n) >= 0.0
  {
    if n > 0 {
      CostSumNonNegative(f, start, end, count, n - 1);
    }
  }

  lemma NonNegativeProduct(length: real, sum: real, count: int)
    requires length >= 0.0 && sum >= 0.0 && count >= 2
    ensures length * (1.0 + sum / count as real) >= 0.0
  {
    var mean := sum / count as real;
    assert mean * count as real == sum;
    assert mean >= 0.0;
  }

  lemma WeightedLengthSign(f: Field, start: Point, end: Point)
    requires ValidField(f)
    ensures !WeightedLength(f, start, end).NaN?
    ensures WeightedLength(f, start, end).Fin? ==> WeightedLength(f, start, end).value >= 0.0
  {
    var count := SampleCount(f, start, end);
    CostSumNonNegative(f, start, end, count, count);
    NonNegativeProduct(Dist(f.hyp, start, end), CostSum(f, start, end, count, count), count);
  }

  lemma FractionInUnit(i: int, n: int)
    requires 0 <= i <= n && n >= 1
    ensures 0.0 <= i as real / n as real <= 1.0
  {
  }

  /** A segment that passes the collision check has a finite weighted length. */
  lemma ClearIsFinite(f: Field, start: Point, end: Point)
    requires ValidField(f) && Segment.WorldClear(f.meta, f.blocked, start, end)
    ensures WeightedLength(f, start, end).Fin?
  {
    var count := SampleCount(f, start, end);
    forall i | 0 <= i < count
      ensures Inside(f.blocked, SampleCell(f, start, end, count, i))
    {
      var t := i as real / (count - 1) as real;
      FractionInUnit(i, count - 1);
      var p := Along(start, end, t);
      SquareIsTouch(f.meta, ToCell(f.meta, p), p);
      Segment.SegmentCovers(f.meta, f.blocked, start, end, t, ToCell(f.meta, p));
    }
  }

  lemma {:induction false} UniformSum(f: Field, start: Point, end: Point, count: int, n: nat, k: real)
    requires f.meta.resolution > 0.0 && count >= 2 && forall c :: f.costs(c) == k
    ensures CostSum(f, start, end, count, n) == n as real * k
  {
    if n > 0 {
      UniformSum(f, start, end, count, n - 1, k);
    }
  }

  /** Over ground that costs the same everywhere the weighted length is the length, raised by that cost. */
  lemma UniformCost(f: Field, start: Point, end: Point, k: real)
    requires ValidField(f) && (forall c :: f.costs(c) == k) && Segment.WorldClear(f.meta, f.blocked, start, end)
    ensures WeightedLength(f, start, end) == Fin(Dist(f.hyp, start, end) * (1.0 + k))
  {
    var count := SampleCount(f, start, end);
    ClearIsFinite(f, start, end);
    UniformSum(f, start, end, count, count, k);
    MeanOf(k, count);
    hide CostSum, IsHypot;
  }

  lemma MeanOf(k: real, count: int)
    requires count >= 2
    ensures count as real * k / count as real == k
  {
  }

  // ----- a whole polyline -----

  /** The weighted length of the first `n` hops. */
  function Travel(f: Field, points: seq<Point>, n: nat): Ext
    requires f.meta.resolution > 0.0 && (n == 0 || n < |points|)
  {
    if n == 0 then Fin(0.0)
    else Add(Travel(f, points, n - 1), WeightedLength(f, points[n - 1], points[n]))
  }

  function Total(f: Field, points: seq<Point>): Ext
    requires f.meta.resolution > 0.0
  {
    Travel(f, points, if points == [] then 0 else |points| - 1)
  }

  lemma {:induction false} TravelExtend(f: Field, points: seq<Point>, p: Point, n: nat)
    requires f.meta.resolution > 0.0 && n < |points|
    ensures Travel(f, points + [p], n) == Travel(f, points, n)
  {
    if n > 0 {
      TravelExtend(f, points, p, n - 1);
    }
  }

  lemma TotalExtend(f: Field, points: seq<Point>, p: Point)
    requires f.meta.resolution > 0.0 && points != []
    ensures Total(f, points + [p]) == Add(Total(f, points), WeightedLength(f, points[|points| - 1], p))
  {
    TravelExtend(f, points, p, |points| - 1);
  }

  /** Prefixes of a finite journey are finite and no longer. */
  lemma {:induction false} TravelGrows(f: Field, points: seq<Point>, i: nat, j: nat)
    requires ValidField(f) && i <= j && (j == 0 || j < |points|)
    ensures Travel(f, points, j).Fin? ==> Travel(f, points, i).Fin? && Travel(f, points, i).value <= Travel(f, points, j).value
    decreases j
  {
    if i < j {
      TravelGrows(f, points, i, j - 1);
      WeightedLengthSign(f, points[j - 1], points[j]);
    }
  }

  /** `kept` names the surviving points in order; the ends survive, and every merged hop is collision-free. */
  ghost predicate Merged(f: Field, points: seq<Point>, result: seq<Point>, kept: seq<nat>, upto: nat)
    requires f.meta.resolution > 0.0
  {
    && |kept| == |result| >= 1 && upto < |points|
    && kept[0] == 0 && kept[|kept| - 1] == upto
    && (forall k :: 0 <= k < |kept| ==> kept[k] < |points| && result[k] == points[kept[k]])
    && (forall k :: 0 < k < |kept| ==> kept[k - 1] < kept[k])
    && (forall k :: 0 < k < |kept| && kept[k - 1] + 1 < kept[k] ==>
          Segment.WorldClear(f.meta, f.blocked, result[k - 1], result[k]))
  }

  /** The running total stays within two per cent of the journey it replaces. */
  ghost predicate Near(f: Field, points: seq<Point>, result: seq<Point>, index: nat)
    requires f.meta.resolution > 0.0 && index < |points|
  {
    Travel(f, points, index).Fin? ==>
      Total(f, result).Fin? && Total(f, result).value <= Travel(f, points, index).value * SLOPE
  }

  /** Whether the code merges the hops from `index` to `end` into one. */
  ghost predicate Mergeable(f: Field, points: seq<Point>, index: nat, end: nat)
    requires f.meta.resolution > 0.0 && index < end < |points|
  {
    && Segment.WorldClear(f.meta, f.blocked, points[index], points[end])
    && AtMost(WeightedLength(f, points[index], points[end]),
              Scaled(Sub(Travel(f, points, end), Travel(f, points, index))))
  }

  /** One hop from `index` to `chosen`: the farthest point within 30 that may be merged to, else the next. */
  ghost predicate FarthestHop(f: Field, points: seq<Point>, index: nat, chosen: nat)
    requires f.meta.resolution > 0.0
  {
    && index < chosen < |points| && chosen <= index + 30
    && (chosen == index + 1 || Mergeable(f, points, index, chosen))
    && forall e :: chosen < e < |points| && e <= index + 30 ==> !Mergeable(f, points, index, e)
  }

  /** From every survivor the line goes on to the farthest point it may. */
  ghost predicate Greedy(f: Field, points: seq<Point>, kept: seq<nat>)
    requires f.meta.resolution > 0.0
  {
    forall k :: 0 < k < |kept| ==> FarthestHop(f, points, kept[k - 1], kept[k])
  }

  lemma GreedyExtend(f: Field, points: seq<Point>, kept: seq<nat>, chosen: nat)
    requires f.meta.resolution > 0.0 && kept != [] && Greedy(f, points, kept)
    requires FarthestHop(f, points, kept[|kept| - 1], chosen)
    ensures Greedy(f, points, kept + [chosen])
  {
    hide FarthestHop;
  }

  lemma HopNear(f: Field, points: seq<Point>, result: seq<Point>, index: nat, chosen: nat)
    requires ValidField(f) && index < chosen < |points|
    requires result != [] && result[|result| - 1] == points[index] && Near(f, points, result, index)
    requires chosen == index + 1 || Mergeable(f, points, index, chosen)
    ensures Near(f, points, result + [points[chosen]], chosen)
  {
    TotalExtend(f, result, points[chosen]);
    TravelGrows(f, points, index, chosen);
    if chosen == index + 1 {
      WeightedLengthSign(f, points[index], points[chosen]);
    }
  }

  lemma MergedExtend(f: Field, points: seq<Point>, result: seq<Point>, kept: seq<nat>, index: nat, chosen: nat)
    requires f.meta.resolution > 0.0 && Merged(f, points, result, kept, index) && index < chosen < |points|
    requires chosen == index + 1 || Segment.WorldClear(f.meta, f.blocked, points[index], points[chosen])
    ensures Merged(f, points, result + [points[chosen]], kept + [chosen], chosen)
  {
  }

  lemma MergedStart(f: Field, points: seq<Point>)
    requires f.meta.resolution > 0.0 && points != []
    ensures Merged(f, points, [points[0]], [0], 0) && Near(f, points, [points[0]], 0)
  {
  }

  lemma Unchanged(f: Field, points: seq<Point>)
    requires ValidField(f)
    ensures Total(f, points).Fin? ==> Total(f, points).value <= Total(f, points).value * SLOPE
  {
    TravelGrows(f, points, 0, if points == [] then 0 else |points| - 1);
  }

  /** The running sums of the weighted hop lengths. */
  method Accumulate(f: Field, points: seq<Point>) returns (acc: seq<Ext>)
    requires f.meta.resolution > 0.0 && points != []
    ensures |acc| == |points| && forall i :: 0 <= i < |points| ==> acc[i] == Travel(f, points, i)
  {
    hide WeightedLength, Add;
    acc := [Fin(0.0)];
    for i := 1 to |points|
      invariant |acc| == i && forall j :: 0 <= j < i ==> acc[j] == Travel(f, points, j)
    {
      acc := acc + [Add(acc[i - 1], WeightedLength(f, points[i - 1], points[i]))];
    }
  }

  /** The farthest point within 30 that one collision-free hop of nearly the same cost reaches. */
  method Farthest(f: Field, points: seq<Point>, acc: seq<Ext>, index: nat) returns (chosen: nat)
    requires f.meta.resolution > 0.0 && index + 1 < |points| == |acc|
    requires forall i :: 0 <= i < |points| ==> acc[i] == Travel(f, points, i)
    ensures FarthestHop(f, points, index, chosen)
  {
    var end := if |points| - 1 < index + 30 then |points| - 1 else index + 30;
    while end > index + 1
      invariant index < end < |points| && end <= index + 30
      invariant forall e :: end < e < |points| && e <= index + 30 ==> !Mergeable(f, points, index, e)
    {
      var clear := Segment.SegmentClear(f.meta, f.blocked, points[index], points[end]);
      if clear && AtMost(WeightedLength(f, points[index], points[end]), Scaled(Sub(acc[end], acc[index]))) {
        return end;
      }
      end := end - 1;
    }
    chosen := index + 1;
  }

  /** Merge hops: the ends and the order survive, every merged hop is collision-free, the weighted length grows by at
      most two per cent, and what can be merged is: from each survivor the line goes as far as it may. */
  method CostWaypoints(f: Field, points: seq<Point>) returns (result: seq<Point>, ghost kept: seq<nat>)
    requires ValidField(f)
    ensures points == [] ==> result == []
    ensures points != [] ==> Merged(f, points, result, kept, |points| - 1) && Greedy(f, points, kept)
    ensures Total(f, points).Fin? ==> Total(f, result).Fin? && Total(f, result).value <= Total(f, points).value * SLOPE
  {
    if |points| < 3 {
      Unchanged(f, points);
      return points, if points == [] then [] else if |points| == 1 then [0] else [0, 1];
    }
    MergedStart(f, points);
    hide WeightedLength;
    var acc := Accumulate(f, points);
    result, kept := [points[0]], [0];
    var index := 0;
    while index < |points| - 1
      invariant 0 <= index < |points|
      invariant Merged(f, points, result, kept, index)
      invariant Near(f, points, result, index) && Greedy(f, points, kept)
      decreases |points| - index
    {
      var chosen := Farthest(f, points, acc, index);
      HopNear(f, points, result, index, chosen);
      MergedExtend(f, points, result, kept, index, chosen);
      GreedyExtend(f, points, kept, chosen);
      result, kept := result + [points[chosen]], kept + [chosen];
      index := chosen;
    }
  }
}

/** The planner's segment check: finitely many probes along a segment decide every point of it.
    Everything here is in cell units unless it says otherwise. */
module Segment {
  import opened Geometry
  import opened Grid
  import opened Lattice

  /** The probe offset, a billionth of a cell. */
  const EPS: real := 0.000000001

  function Ceil(x: real): int {
    -(-x).Floor
  }

  function Min(x: real, y: real): real { if x <= y then x else y }
  function Max(x: real, y: real): real { if x <= y then y else x }

  /** When a coordinate that moves from `v0` to `v1` meets the grid line `k`. */
  function CrossTime(v0: real, v1: real, k: int): real
    requires v0 != v1
  {
    (k as real - v0) / (v1 - v0)
  }

  /** The times in [0, 1] at which the coordinate meets a grid line. */
  function AxisTimes(v0: real, v1: real): set<real> {
    if v0 == v1 then {} else
    set k: int | Ceil(Min(v0, v1)) <= k <= Max(v0, v1).Floor && 0.0 <= CrossTime(v0, v1, k) <= 1.0 :: CrossTime(v0, v1, k)
  }

  function Times(a: Point, b: Point): set<real> {
    {0.0, 1.0} + AxisTimes(a.x, b.x) + AxisTimes(a.y, b.y)
  }

  /** Neighbours in the sorted list of times. */
  ghost predicate Consecutive(ts: set<real>, t1: real, t2: real) {
    t1 in ts && t2 in ts && t1 < t2 && forall t :: t in ts ==> t <= t1 || t2 <= t
  }

  /** The times probed: every crossing, and the middle of every gap between two neighbouring crossings. */
  ghost predicate Sampled(a: Point, b: Point, t: real) {
    t in Times(a, b) || exists t1, t2 :: Consecutive(Times(a, b), t1, t2) && t == (t1 + t2) / 2.0
  }

  function Probe(g: Point, dx: real, dy: real): Cell {
    CellAt(Point(g.x + dx, g.y + dy))
  }

  /** The four cells around a point, an `eps` to either side, are in the grid and unblocked. */
  predicate ProbeFree(m: Mask, eps: real, g: Point) {
    && Free(m, Probe(g, -eps, -eps)) && Free(m, Probe(g, -eps, eps))
    && Free(m, Probe(g, eps, -eps)) && Free(m, Probe(g, eps, eps))
  }

  ghost predicate Clear(m: Mask, eps: real, a: Point, b: Point) {
    forall t :: Sampled(a, b, t) ==> ProbeFree(m, eps, Along(a, b, t))
  }

  ghost predicate WorldClear(meta: Meta, m: Mask, start: Point, end: Point)
    requires meta.resolution > 0.0
  {
    Clear(m, EPS, ToGrid(meta, start), ToGrid(meta, end))
  }

  // ----- the code -----

  ghost predicate Sorted(s: seq<real>) {
    forall i, j :: 0 <= i < j < |s| ==> s[i] < s[j]
  }

  /** `set.add` on times kept in sorted order. */
  method Insert(s: seq<real>, t: real) returns (r: seq<real>)
    requires Sorted(s)
    ensures Sorted(r) && forall x :: x in r <==> x in s || x == t
  {
    var i := 0;
    while i < |s| && s[i] < t
      invariant 0 <= i <= |s|
      invariant forall j :: 0 <= j < i ==> s[j] < t
    {
      i := i + 1;
    }
    if i < |s| && s[i] == t {
      return s;
    }
    r := s[..i] + [t] + s[i..];
    assert forall x :: x in s <==> x in s[..i] || x in s[i..];
  }

  ghost predicate CrossedBelow(v0: real, v1: real, lo: int, k: int, t: real)
    requires v0 != v1
  {
    exists j :: lo <= j < k && 0.0 <= CrossTime(v0, v1, j) <= 1.0 && t == CrossTime(v0, v1, j)
  }

  method AddCrossings(v0: real, v1: real, times: seq<real>) returns (r: seq<real>)
    requires Sorted(times)
    ensures Sorted(r) && forall x :: x in r <==> x in times || x in AxisTimes(v0, v1)
  {
    r := times;
    if v0 == v1 {
      return;
    }
    var lo, hi := Ceil(Min(v0, v1)), Max(v0, v1).Floor;
    var k := lo;
    while k <= hi
      invariant lo <= k && (lo <= hi + 1 ==> k <= hi + 1)
      invariant Sorted(r)
      invariant forall x :: x in r <==> (x in times || CrossedBelow(v0, v1, lo, k, x))
    {
      var t := CrossTime(v0, v1, k);
      if 0.0 <= t <= 1.0 {
        r := Insert(r, t);
      }
      k := k + 1;
    }
  }

  /** The sorted probe times of a segment without their midpoints. */
  method CrossingTimes(a: Point, b: Point) returns (ordered: seq<real>)
    ensures Sorted(ordered) && forall t :: t in ordered <==> t in Times(a, b)
  {
    ordered := AddCrossings(a.x, b.x, [0.0, 1.0]);
    ordered := AddCrossings(a.y, b.y, ordered);
  }

  method SegmentClear(meta: Meta, blocked: Mask, start: Point, end: Point) returns (clear: bool)
    requires meta.resolution > 0.0
    ensures clear <==> WorldClear(meta, blocked, start, end)
  {
    var a, b := ToGrid(meta, start), ToGrid(meta, end);
    var ordered := CrossingTimes(a, b);
    hide Times, ProbeFree, Sorted, Consecutive, Along, ToGrid;
    for i := 0 to |ordered|
      invariant forall j :: 0 <= j < i ==> ProbeFree(blocked, EPS, Along(a, b, ordered[j]))
    {
      assert ordered[i] in ordered;
      if !ProbeFree(blocked, EPS, Along(a, b, ordered[i])) {
        assert Sampled(a, b, ordered[i]);
        return false;
      }
    }
    clear := MiddlesClear(blocked, a, b, ordered);
  }

  /** The probe between the `j`-th time and the one before. */
  predicate MiddleFree(blocked: Mask, a: Point, b: Point, ordered: seq<real>, j: nat)
    requires 1 <= j < |ordered|
  {
    ProbeFree(blocked, EPS, Along(a, b, (ordered[j - 1] + ordered[j]) / 2.0))
  }

  /** The second half of the check: the middles of neighbouring crossing times. */
  method MiddlesClear(blocked: Mask, a: Point, b: Point, ordered: seq<real>) returns (clear: bool)
    requires Sorted(ordered) && forall t :: t in ordered <==> t in Times(a, b)
    requires forall j :: 0 <= j < |ordered| ==> ProbeFree(blocked, EPS, Along(a, b, ordered[j]))
    ensures clear <==> Clear(blocked, EPS, a, b)
  {
    assert 0.0 in ordered;
    hide *;
    for i := 1 to |ordered|
      invariant forall j :: 1 <= j < i ==> MiddleFree(blocked, a, b, ordered, j)
    {
      if !MiddleFree(blocked, a, b, ordered, i) {
        MiddleMatters(blocked, a, b, ordered, i);
        return false;
      }
    }
    AllProbed(blocked, a, b, ordered);
    clear := true;
  }

  lemma MiddleMatters(blocked: Mask, a: Point, b: Point, ordered: seq<real>, i: nat)
    requires Sorted(ordered) && (forall t :: t in ordered <==> t in Times(a, b)) && 1 <= i < |ordered|
    requires !MiddleFree(blocked, a, b, ordered, i)
    ensures !Clear(blocked, EPS, a, b)
  {
    hide Times, ProbeFree, Along, Sorted, Consecutive;
    SortedNeighbours(ordered, Times(a, b), i);
    assert Sampled(a, b, (ordered[i - 1] + ordered[i]) / 2.0);
  }

  lemma AllProbed(blocked: Mask, a: Point, b: Point, ordered: seq<real>)
    requires Sorted(ordered) && forall t :: t in ordered <==> t in Times(a, b)
    requires forall j :: 0 <= j < |ordered| ==> ProbeFree(blocked, EPS, Along(a, b, ordered[j]))
    requires forall j :: 1 <= j < |ordered| ==> MiddleFree(blocked, a, b, ordered, j)
    ensures Clear(blocked, EPS, a, b)
  {
    hide Times, ProbeFree, Sorted, Consecutive, Along;
    forall t | Sampled(a, b, t)
      ensures ProbeFree(blocked, EPS, Along(a, b, t))
    {
      if t !in Times(a, b) {
        var t1, t2 :| Consecutive(Times(a, b), t1, t2) && t == (t1 + t2) / 2.0;
        var j := NeighboursSorted(ordered, Times(a, b), t1, t2);
        assert MiddleFree(blocked, a, b, ordered, j);
      }
    }
  }

  lemma SortedNeighbours(s: seq<real>, ts: set<real>, i: nat)
    requires Sorted(s) && (forall t :: t in s <==> t in ts) && 1 <= i < |s|
    ensures Consecutive(ts, s[i - 1], s[i])
  {
    assert s[i - 1] in s && s[i] in s;
    forall t | t in ts
      ensures t <= s[i - 1] || s[i] <= t
    {
      assert t in s;
      var j :| 0 <= j < |s| && s[j] == t;
    }
  }

  lemma NeighboursSorted(s: seq<real>, ts: set<real>, t1: real, t2: real) returns (j: nat)
    requires Sorted(s) && (forall t :: t in s <==> t in ts) && Consecutive(ts, t1, t2)
    ensures 1 <= j < |s| && s[j - 1] == t1 && s[j] == t2
  {
    assert t1 in s && t2 in s;
    var i :| 0 <= i < |s| && s[i] == t1;
    j :| 0 <= j < |s| && s[j] == t2;
    assert i < j;
    assert s[i + 1] in s;
  }

  // ----- one coordinate -----

  predicate Between(k: int, v: real) {
    k as real <= v <= k as real + 1.0
  }

  /** A cell whose closed interval holds `v` is seen by a probe just below or just above. */
  lemma ProbeSees(v: real, eps: real, k: int)
    requires 0.0 < eps <= 0.5 && Between(k, v)
    ensures (v - eps).Floor == k || (v + eps).Floor == k
  {
  }

  /** A moving coordinate meets a grid line in [0, 1] only at a listed time. */
  lemma CrossingListed(v0: real, v1: real, t: real, k: int)
    requires v0 != v1 && 0.0 <= t <= 1.0 && Lerp(v0, v1, t) == k as real
    ensures t in AxisTimes(v0, v1)
  {
    var d := v1 - v0;
    LerpIs(v0, v1, t, d);
    Quotient(t, d, k as real - v0);
    PartBetween(t, d);
    assert CrossTime(v0, v1, k) == t;
    assert Ceil(Min(v0, v1)) <= k <= Max(v0, v1).Floor;
  }

  lemma Quotient(t: real, d: real, x: real)
    requires d != 0.0 && Part(t, d) == x
    ensures x / d == t
  {
    var q := x / d;
    assert q * d == x;
    Cancel(d, q, t);
  }

  lemma PartBetween(t: real, d: real)
    requires 0.0 <= t <= 1.0
    ensures d >= 0.0 ==> 0.0 <= Part(t, d) <= d
    ensures d <= 0.0 ==> d <= Part(t, d) <= 0.0
  {
    assert Part(t, d) + Part(1.0 - t, d) == d;
    PartSign(t, d);
    PartSign(1.0 - t, d);
    hide Part;
  }

  lemma PartSign(t: real, d: real)
    requires t >= 0.0
    ensures d >= 0.0 ==> Part(t, d) >= 0.0
    ensures d <= 0.0 ==> Part(t, d) <= 0.0
  {
  }

  /** Between two times with no crossing in between, the coordinate stays in the intervals it touches. */
  lemma NoCrossing(v0: real, v1: real, t: real, u: real, k: int)
    requires 0.0 <= t <= 1.0 && 0.0 <= u <= 1.0
    requires forall s :: s in AxisTimes(v0, v1) ==> !(Min(t, u) <= s <= Max(t, u))
    requires Between(k, Lerp(v0, v1, t))
    ensures Between(k, Lerp(v0, v1, u))
  {
    if v0 != v1 {
      hide Lerp, AxisTimes, CrossTime;
      var x, y := Lerp(v0, v1, t), Lerp(v0, v1, u);
      if y < k as real {
        MeetsBetween(v0, v1, t, u, k);
      } else if y > k as real + 1.0 {
        MeetsBetween(v0, v1, t, u, k + 1);
      }
    } else {
      LerpIs(v0, v1, t, 0.0);
      LerpIs(v0, v1, u, 0.0);
    }
  }

  lemma LerpIs(v0: real, v1: real, t: real, d: real)
    requires d == v1 - v0
    ensures Lerp(v0, v1, t) == v0 + Part(t, d)
  {
  }

  /** If the coordinate passes the line `k` between two times, it meets it in between, at a listed time. */
  lemma MeetsBetween(v0: real, v1: real, t: real, u: real, k: int)
    requires v0 != v1 && 0.0 <= t <= 1.0 && 0.0 <= u <= 1.0
    requires Lerp(v0, v1, u) < k as real <= Lerp(v0, v1, t) || Lerp(v0, v1, t) <= k as real < Lerp(v0, v1, u)
    ensures CrossTime(v0, v1, k) in AxisTimes(v0, v1)
    ensures Min(t, u) <= CrossTime(v0, v1, k) <= Max(t, u)
  {
    var s, d := CrossTime(v0, v1, k), v1 - v0;
    LerpIs(v0, v1, s, d);
    LerpIs(v0, v1, t, d);
    LerpIs(v0, v1, u, d);
    CrossTimeMeets(v0, v1, k, d);
    hide Lerp, AxisTimes, CrossTime;
    hide Part;
    Shift(Part(u, d), Part(s, d), Part(t, d), v0, k as real);
    OrderTimes(d, u, s, t);
    CrossingListed(v0, v1, s, k);
  }

  lemma Shift(xu: real, xs: real, xt: real, v0: real, v: real)
    requires xs == v - v0 && (v0 + xu < v <= v0 + xt || v0 + xt <= v < v0 + xu)
    ensures xu < xs <= xt || xt <= xs < xu
  {
  }

  lemma CrossTimeMeets(v0: real, v1: real, k: int, d: real)
    requires d == v1 - v0 && d != 0.0
    ensures Part(CrossTime(v0, v1, k), d) == k as real - v0
  {
  }

  lemma OrderTimes(d: real, u: real, s: real, t: real)
    requires d != 0.0 && (Part(u, d) < Part(s, d) <= Part(t, d) || Part(t, d) <= Part(s, d) < Part(u, d))
    ensures Min(t, u) <= s <= Max(t, u)
  {
    hide Part;
    Cancel(d, u, s);
    Cancel(d, s, t);
  }

  lemma Cancel(d: real, x: real, y: real)
    requires d != 0.0
    ensures d > 0.0 ==> (Part(x, d) <= Part(y, d) <==> x <= y) && (Part(y, d) <= Part(x, d) <==> y <= x)
    ensures d < 0.0 ==> (Part(x, d) <= Part(y, d) <==> y <= x) && (Part(y, d) <= Part(x, d) <==> x <= y)
  {
    assert Part(y, d) - Part(x, d) == (y - x) * d;
    if x < y {
      SignOf(y - x, d);
    } else if y < x {
      SignOf(x - y, d);
      assert (x - y) * d == -((y - x) * d);
    }
  }

  lemma SignOf(x: real, d: real)
    requires x > 0.0
    ensures d > 0.0 ==> x * d > 0.0
    ensures d < 0.0 ==> x * d < 0.0
  {
  }

  // ----- the continuum -----

  lemma {:induction false} BracketBelow(ts: set<real>, t: real) returns (lo: real)
    requires exists x :: x in ts && x < t
    ensures lo in ts && lo < t && forall x :: x in ts && x < t ==> x <= lo
    decreases ts
  {
    var x0 :| x0 in ts && x0 < t;
    lo := x0;
    if exists x :: x in ts - {x0} && x < t {
      var lo' := BracketBelow(ts - {x0}, t);
      lo := Max(x0, lo');
    }
    forall x | x in ts && x < t
      ensures x <= lo
    {
      assert x == x0 || x in ts - {x0};
    }
  }

  lemma {:induction false} BracketAbove(ts: set<real>, t: real) returns (hi: real)
    requires exists x :: x in ts && x > t
    ensures hi in ts && hi > t && forall x :: x in ts && x > t ==> x >= hi
    decreases ts
  {
    var x0 :| x0 in ts && x0 > t;
    hi := x0;
    if exists x :: x in ts - {x0} && x > t {
      var hi' := BracketAbove(ts - {x0}, t);
      hi := Min(x0, hi');
    }
    forall x | x in ts && x > t
      ensures x >= hi
    {
      assert x == x0 || x in ts - {x0};
    }
  }

  lemma ProbeTouched(m: Mask, eps: real, g: Point, c: Cell)
    requires 0.0 < eps <= 0.5 && ProbeFree(m, eps, g) && Touches(c, g)
    ensures Free(m, c)
  {
    ProbeSees(g.x, eps, c.col);
    ProbeSees(g.y, eps, c.row);
  }

  lemma TimesInUnit(a: Point, b: Point, t: real)
    requires t in Times(a, b)
    ensures 0.0 <= t <= 1.0
  {
  }

  lemma TouchesAlong(a: Point, b: Point, t: real, c: Cell)
    ensures Touches(c, Along(a, b, t)) <==>
              Between(c.col, Lerp(a.x, b.x, t)) && Between(c.row, Lerp(a.y, b.y, t))
  {
  }

  lemma StaysInGap(ts: set<real>, v0: real, v1: real, lo: real, hi: real, t: real, u: real, k: int)
    requires Consecutive(ts, lo, hi) && AxisTimes(v0, v1) <= ts && 0.0 <= lo < t < hi <= 1.0 && lo < u < hi
    requires Between(k, Lerp(v0, v1, t))
    ensures Between(k, Lerp(v0, v1, u))
  {
    hide AxisTimes, Between, Lerp;
    NoCrossing(v0, v1, t, u, k);
  }

  lemma GapTouches(a: Point, b: Point, lo: real, hi: real, t: real, c: Cell)
    requires Consecutive(Times(a, b), lo, hi) && 0.0 <= lo < t < hi <= 1.0 && Touches(c, Along(a, b, t))
    ensures Touches(c, Along(a, b, (lo + hi) / 2.0))
  {
    var ts, mid := Times(a, b), (lo + hi) / 2.0;
    assert AxisTimes(a.x, b.x) <= ts && AxisTimes(a.y, b.y) <= ts;
    hide *;
    TouchesAlong(a, b, t, c);
    TouchesAlong(a, b, mid, c);
    StaysInGap(ts, a.x, b.x, lo, hi, t, mid, c.col);
    StaysInGap(ts, a.y, b.y, lo, hi, t, mid, c.row);
  }

  /** A clear segment is clear everywhere: every cell whose closed square meets it is in the grid and unblocked. */
  lemma ClearCovers(m: Mask, eps: real, a: Point, b: Point, t: real, c: Cell)
    requires 0.0 < eps <= 0.5 && Clear(m, eps, a, b) && 0.0 <= t <= 1.0 && Touches(c, Along(a, b, t))
    ensures Free(m, c)
  {
    var ts := Times(a, b);
    assert 0.0 in ts && 1.0 in ts;
    hide Times, ProbeFree, Along, Touches, Free;
    if t in ts {
      assert Sampled(a, b, t);
      ProbeTouched(m, eps, Along(a, b, t), c);
    } else {
      var lo := BracketBelow(ts, t);
      var hi := BracketAbove(ts, t);
      assert Consecutive(ts, lo, hi);
      TimesInUnit(a, b, lo);
      TimesInUnit(a, b, hi);
      GapTouches(a, b, lo, hi, t, c);
      assert Sampled(a, b, (lo + hi) / 2.0);
      ProbeTouched(m, eps, Along(a, b, (lo + hi) / 2.0), c);
    }
  }

  /** The same in world units, for the offset the code uses. */
  lemma SegmentCovers(meta: Meta, m: Mask, start: Point, end: Point, t: real, c: Cell)
    requires meta.resolution > 0.0 && WorldClear(meta, m, start, end)
    requires 0.0 <= t <= 1.0 && SquareHolds(meta, c, Along(start, end, t))
    ensures Free(m, c)
  {
    AlongInGrid(meta, start, end, t);
    SquareIsTouch(meta, c, Along(start, end, t));
    ClearCovers(m, EPS, ToGrid(meta, start), ToGrid(meta, end), t, c);
  }

  // ----- the other direction -----

  predicate Near(c: Cell, g: Point, eps: real) {
    && c.col as real - eps <= g.x <= c.col as real + 1.0 + eps
    && c.row as real - eps <= g.y <= c.row as real + 1.0 + eps
  }

  lemma SampledInUnit(a: Point, b: Point, t: real)
    requires Sampled(a, b, t)
    ensures 0.0 <= t <= 1.0
  {
    if t in Times(a, b) {
      TimesInUnit(a, b, t);
    } else {
      var t1, t2 :| Consecutive(Times(a, b), t1, t2) && t == (t1 + t2) / 2.0;
      TimesInUnit(a, b, t1);
      TimesInUnit(a, b, t2);
    }
  }

  /** The check refuses only segments that come within `eps` of a cell that is blocked or outside. */
  lemma RoomyIsClear(m: Mask, eps: real, a: Point, b: Point)
    requires eps >= 0.0
    requires forall t, c :: 0.0 <= t <= 1.0 && Near(c, Along(a, b, t), eps) ==> Free(m, c)
    ensures Clear(m, eps, a, b)
  {
    forall t | Sampled(a, b, t)
      ensures ProbeFree(m, eps, Along(a, b, t))
    {
      SampledInUnit(a, b, t);
      var g := Along(a, b, t);
      assert Near(Probe(g, -eps, -eps), g, eps) && Near(Probe(g, -eps, eps), g, eps);
      assert Near(Probe(g, eps, -eps), g, eps) && Near(Probe(g, eps, eps), g, eps);
    }
  }

  lemma AlongInside(v0: real, v1: real, t: real, lo: real, hi: real)
    requires 0.0 <= t <= 1.0 && lo <= v0 <= hi && lo <= v1 <= hi
    ensures lo <= Lerp(v0, v1, t) <= hi
  {
    var d := v1 - v0;
    LerpIs(v0, v1, t, d);
    PartBetween(t, d);
    hide Lerp;
    hide Part;
    PartInside(v0, v1, d, Part(t, d), lo, hi);
  }

  lemma PartInside(v0: real, v1: real, d: real, x: real, lo: real, hi: real)
    requires lo <= v0 <= hi && lo <= v1 <= hi && d == v1 - v0
    requires (d >= 0.0 ==> 0.0 <= x <= d) && (d <= 0.0 ==> d <= x <= 0.0)
    ensures lo <= v0 + x <= hi
  {
  }

  lemma NearAlong(a: Point, b: Point, t: real, c: Cell, eps: real)
    requires Near(c, Along(a, b, t), eps)
    ensures c.col as real - eps <= Lerp(a.x, b.x, t) <= c.col as real + 1.0 + eps
    ensures c.row as real - eps <= Lerp(a.y, b.y, t) <= c.row as real + 1.0 + eps
  {
  }

  lemma WellInside(v0: real, v1: real, t: real, k: int, eps: real, k0: int, k1: int)
    requires 0.0 <= t <= 1.0 && k as real - eps <= Lerp(v0, v1, t) <= k as real + 1.0 + eps
    requires k0 as real + eps < v0 < k1 as real + 1.0 - eps && k0 as real + eps < v1 < k1 as real + 1.0 - eps
    ensures k0 <= k <= k1
  {
    AlongInside(v0, v1, t, Min(v0, v1), Max(v0, v1));
  }

  /** A segment well inside a block of free cells is clear. */
  lemma BlockIsClear(m: Mask, eps: real, a: Point, b: Point, r0: int, r1: int, c0: int, c1: int)
    requires eps > 0.0
    requires forall r, c :: r0 <= r <= r1 && c0 <= c <= c1 ==> Free(m, Cell(r, c))
    requires c0 as real + eps < a.x < c1 as real + 1.0 - eps && c0 as real + eps < b.x < c1 as real + 1.0 - eps
    requires r0 as real + eps < a.y < r1 as real + 1.0 - eps && r0 as real + eps < b.y < r1 as real + 1.0 - eps
    ensures Clear(m, eps, a, b)
  {
    forall t, c | 0.0 <= t <= 1.0 && Near(c, Along(a, b, t), eps)
      ensures Free(m, c)
    {
      NearAlong(a, b, t, c, eps);
      hide Along, Near;
      WellInside(a.x, b.x, t, c.col, eps, c0, c1);
      WellInside(a.y, b.y, t, c.row, eps, r0, r1);
      assert c == Cell(c.row, c.col);
    }
    RoomyIsClear(m, eps, a, b);
  }
}

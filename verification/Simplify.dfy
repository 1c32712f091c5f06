/** Douglas-Peucker simplification of a waypoint list. */
module Simplify {
  import opened Geometry
  import opened Lattice

  function Abs(x: real): real { if x >= 0.0 then x else -x }

  /** The implicit form of the line through two points, evaluated at `p`. */
  function LineValue(p: Point, s: Point, e: Point): real {
    (e.y - s.y) * p.x - (e.x - s.x) * p.y + e.x * s.y - e.y * s.x
  }

  /** Distance of a point to the line through two points, as the code computes it. */
  function Perpendicular(hyp: (real, real) -> real, p: Point, s: Point, e: Point): real
    requires IsHypot(hyp)
  {
    if s == e then hyp(p.x - s.x, p.y - s.y)
    else
      var length := hyp(e.x - s.x, e.y - s.y);
      HypotPositive(hyp, e.x - s.x, e.y - s.y);
      Abs(LineValue(p, s, e)) / length
  }

  lemma CrossIdentity(wx: real, wy: real, dx: real, dy: real, n: real, w: real)
    requires n > 0.0 && w >= 0.0 && n * n == dx * dx + dy * dy && w * w == wx * wx + wy * wy
    ensures Abs(wx * dy - wy * dx) <= w * n
    ensures wx * dx + wy * dy == 0.0 ==> Abs(wx * dy - wy * dx) == w * n
  {
    var cross, dot := wx * dy - wy * dx, wx * dx + wy * dy;
    assert cross * cross + dot * dot == (wx * wx + wy * wy) * (dx * dx + dy * dy);
    assert (w * n) * (w * n) == (w * w) * (n * n);
    assert dot * dot >= 0.0 && w * n >= 0.0;
    assert Abs(cross) * Abs(cross) == cross * cross;
    RootOrder(Abs(cross), w * n);
    if dot == 0.0 {
      RootUnique(Abs(cross), w * n);
    }
  }

  lemma LessQuotient(x: real, w: real, n: real)
    requires n > 0.0 && x <= w * n
    ensures x / n <= w && (x == w * n ==> x / n == w)
  {
    var q := x / n;
    assert q * n == x;
    if q > w { assert q * n > w * n; }
    if x == w * n && q < w { assert q * n < w * n; }
  }

  lemma SameCross(p: Point, s: Point, e: Point, u: real)
    ensures var q := Along(s, e, u);
            (p.x - q.x) * (e.y - s.y) - (p.y - q.y) * (e.x - s.x) == LineValue(p, s, e)
  {
    var dx, dy := e.x - s.x, e.y - s.y;
    assert (p.x - (s.x + u * dx)) * dy == p.x * dy - s.x * dy - u * dx * dy;
    assert (p.y - (s.y + u * dy)) * dx == p.y * dx - s.y * dx - u * dy * dx;
    assert u * dx * dy == u * dy * dx;
    assert s.y * dx - s.x * dy == e.x * s.y - e.y * s.x;
  }

  lemma PerpendicularCore(wx: real, wy: real, dx: real, dy: real, n: real, w: real, cross: real)
    requires n > 0.0 && w >= 0.0 && n * n == dx * dx + dy * dy && w * w == wx * wx + wy * wy
    requires cross == wx * dy - wy * dx
    ensures Abs(cross) / n <= w
    ensures wx * dx + wy * dy == 0.0 ==> Abs(cross) / n == w
  {
    CrossIdentity(wx, wy, dx, dy, n, w);
    LessQuotient(Abs(cross), w, n);
  }

  /** The offset from any point of the line leaves the cross product, and so the code's value, unchanged. */
  lemma PerpendicularBelow(hyp: (real, real) -> real, p: Point, s: Point, e: Point, u: real)
    requires IsHypot(hyp)
    ensures Perpendicular(hyp, p, s, e) <= Dist(hyp, p, Along(s, e, u))
    ensures var q := Along(s, e, u);
            (p.x - q.x) * (e.x - s.x) + (p.y - q.y) * (e.y - s.y) == 0.0 ==>
              Perpendicular(hyp, p, s, e) == Dist(hyp, p, q)
  {
    var q := Along(s, e, u);
    if s == e {
      assert q == s;
    } else {
      HypotPositive(hyp, e.x - s.x, e.y - s.y);
      SameCross(p, s, e, u);
      hide LineValue, Along;
      PerpendicularCore(p.x - q.x, p.y - q.y, e.x - s.x, e.y - s.y, hyp(e.x - s.x, e.y - s.y),
                        hyp(p.x - q.x, p.y - q.y), LineValue(p, s, e));
    }
  }

  lemma Ratio(x: real, n: real) returns (u: real)
    requires n > 0.0
    ensures u * (n * n) == x
  {
    var v := x / n;
    assert v * n == x;
    u := v / n;
    assert u * n == v;
    assert u * (n * n) == (u * n) * n;
  }

  lemma FootTime(ax: real, ay: real, dx: real, dy: real, n: real) returns (u: real)
    requires n > 0.0 && n * n == dx * dx + dy * dy
    ensures (ax - u * dx) * dx + (ay - u * dy) * dy == 0.0
  {
    u := Ratio(ax * dx + ay * dy, n);
    assert u * (n * n) == u * dx * dx + u * dy * dy;
    assert (ax - u * dx) * dx + (ay - u * dy) * dy == ax * dx + ay * dy - u * (n * n);
  }

  /** The code's value is the distance to the line: no point of the line is closer, and its foot is that close. */
  lemma PerpendicularIsDistance(hyp: (real, real) -> real, p: Point, s: Point, e: Point) returns (foot: real)
    requires IsHypot(hyp)
    ensures Dist(hyp, p, Along(s, e, foot)) == Perpendicular(hyp, p, s, e)
    ensures forall u :: Perpendicular(hyp, p, s, e) <= Dist(hyp, p, Along(s, e, u))
  {
    foot := 0.0;
    if s != e {
      HypotPositive(hyp, e.x - s.x, e.y - s.y);
      foot := FootTime(p.x - s.x, p.y - s.y, e.x - s.x, e.y - s.y, hyp(e.x - s.x, e.y - s.y));
      var q := Along(s, e, foot);
      assert p.x - q.x == p.x - s.x - foot * (e.x - s.x) && p.y - q.y == p.y - s.y - foot * (e.y - s.y);
    }
    PerpendicularBelow(hyp, p, s, e, foot);
    forall u
      ensures Perpendicular(hyp, p, s, e) <= Dist(hyp, p, Along(s, e, u))
    {
      PerpendicularBelow(hyp, p, s, e, u);
    }
  }

  /** Everything strictly between two positions is within `eps` of the line through the points there. */
  ghost predicate GapFlat(hyp: (real, real) -> real, points: seq<Point>, eps: real, lo: nat, hi: nat)
    requires IsHypot(hyp) && lo < hi < |points|
  {
    forall i :: lo < i < hi ==> Perpendicular(hyp, points[i], points[lo], points[hi]) <= eps
  }

  /** `kept` names the points of `out` in order, and the ends survive. */
  ghost predicate Survive(points: seq<Point>, out: seq<Point>, kept: seq<nat>) {
    && |kept| == |out|
    && (forall k :: 0 <= k < |kept| ==> kept[k] < |points| && out[k] == points[kept[k]])
    && (forall k :: 0 < k < |kept| ==> kept[k - 1] < kept[k])
    && (points == [] ==> kept == [])
    && (points != [] ==> kept != [] && kept[0] == 0 && kept[|kept| - 1] == |points| - 1)
  }

  /** `kept` names the surviving points in order, the ends survive, and every dropped point is within `eps` of the
      line through the two survivors around it. */
  ghost predicate Thinned(hyp: (real, real) -> real, points: seq<Point>, eps: real, out: seq<Point>, kept: seq<nat>)
    requires IsHypot(hyp)
  {
    Survive(points, out, kept) && forall k :: 0 < k < |kept| ==> GapFlat(hyp, points, eps, kept[k - 1], kept[k])
  }

  /** Of everything strictly between `lo` and `hi`, the point at `w` is farthest from the line through the points there, and
      farther than `eps`. */
  ghost predicate OffChord(hyp: (real, real) -> real, points: seq<Point>, eps: real, lo: nat, w: nat, hi: nat)
    requires IsHypot(hyp) && lo < w < hi < |points|
  {
    && Perpendicular(hyp, points[w], points[lo], points[hi]) > eps
    && forall i :: lo < i < hi ==>
         Perpendicular(hyp, points[i], points[lo], points[hi]) <= Perpendicular(hyp, points[w], points[lo], points[hi])
  }

  /** The `k`-th survivor is one because it is off the chord of two others. */
  ghost predicate Needed(hyp: (real, real) -> real, points: seq<Point>, eps: real, kept: seq<nat>, k: nat)
    requires IsHypot(hyp)
  {
    exists i: nat, j: nat :: i < k < j < |kept| && NeededBy(hyp, points, eps, kept, i, k, j)
  }

  ghost predicate NeededBy(hyp: (real, real) -> real, points: seq<Point>, eps: real, kept: seq<nat>, i: nat, k: nat, j: nat)
    requires IsHypot(hyp) && i < k < j < |kept|
  {
    kept[i] < kept[k] < kept[j] < |points| && OffChord(hyp, points, eps, kept[i], kept[k], kept[j])
  }

  /** Dropped points are near the line, and no point between the ends survives without need. */
  ghost predicate Simplified(hyp: (real, real) -> real, points: seq<Point>, eps: real, out: seq<Point>, kept: seq<nat>)
    requires IsHypot(hyp)
  {
    Thinned(hyp, points, eps, out, kept) && forall k :: 0 < k < |kept| - 1 ==> Needed(hyp, points, eps, kept, k)
  }

  /** The interior point farthest from the chord of the ends; 0 when none is off the chord. */
  method Worst(hyp: (real, real) -> real, points: seq<Point>) returns (index: nat, dist: real)
    requires IsHypot(hyp) && |points| >= 3
    ensures dist >= 0.0 && index < |points| - 1 && (dist > 0.0 ==> 1 <= index)
    ensures forall i :: 1 <= i < |points| - 1 ==> Perpendicular(hyp, points[i], points[0], points[|points| - 1]) <= dist
    ensures dist > 0.0 ==> Perpendicular(hyp, points[index], points[0], points[|points| - 1]) == dist
  {
    index, dist := 0, 0.0;
    for i := 1 to |points| - 1
      invariant dist >= 0.0 && index < |points| - 1 && (dist > 0.0 ==> 1 <= index)
      invariant dist > 0.0 ==> Perpendicular(hyp, points[index], points[0], points[|points| - 1]) == dist
      invariant forall j :: 1 <= j < i ==> Perpendicular(hyp, points[j], points[0], points[|points| - 1]) <= dist
    {
      var d := Perpendicular(hyp, points[i], points[0], points[|points| - 1]);
      if d > dist {
        dist, index := d, i;
      }
    }
  }

  ghost function Shifted(kept: seq<nat>, offset: nat): seq<nat> {
    seq(|kept|, i requires 0 <= i < |kept| => kept[i] + offset)
  }

  lemma FlatInPart(hyp: (real, real) -> real, points: seq<Point>, eps: real, from: nat, to: nat, lo: nat, hi: nat)
    requires IsHypot(hyp) && from <= to <= |points| && lo < hi < to - from
    requires GapFlat(hyp, points[from..to], eps, lo, hi)
    ensures GapFlat(hyp, points, eps, lo + from, hi + from)
  {
    forall i | lo + from < i < hi + from
      ensures Perpendicular(hyp, points[i], points[lo + from], points[hi + from]) <= eps
    {
      assert points[i] == points[from..to][i - from];
    }
  }

  lemma JoinSurvivors(points: seq<Point>, w: nat, left: seq<Point>, keptLeft: seq<nat>, right: seq<Point>, keptRight: seq<nat>)
    requires 1 <= w < |points| - 1
    requires Survive(points[..w + 1], left, keptLeft) && Survive(points[w..], right, keptRight)
    ensures Survive(points, left[..|left| - 1] + right, keptLeft[..|keptLeft| - 1] + Shifted(keptRight, w))
  {
  }

  lemma JoinThinned(hyp: (real, real) -> real, points: seq<Point>, eps: real, w: nat,
                    left: seq<Point>, keptLeft: seq<nat>, right: seq<Point>, keptRight: seq<nat>)
    requires IsHypot(hyp) && 1 <= w < |points| - 1
    requires Thinned(hyp, points[..w + 1], eps, left, keptLeft) && Thinned(hyp, points[w..], eps, right, keptRight)
    ensures Thinned(hyp, points, eps, left[..|left| - 1] + right, keptLeft[..|keptLeft| - 1] + Shifted(keptRight, w))
  {
    hide GapFlat, IsHypot;
    JoinSurvivors(points, w, left, keptLeft, right, keptRight);
    var kept := keptLeft[..|keptLeft| - 1] + Shifted(keptRight, w);
    forall k | 0 < k < |kept|
      ensures GapFlat(hyp, points, eps, kept[k - 1], kept[k])
    {
      JoinGap(hyp, points, eps, w, left, keptLeft, right, keptRight, k);
    }
  }

  lemma JoinGap(hyp: (real, real) -> real, points: seq<Point>, eps: real, w: nat,
                left: seq<Point>, keptLeft: seq<nat>, right: seq<Point>, keptRight: seq<nat>, k: nat)
    requires IsHypot(hyp) && 1 <= w < |points| - 1 && 0 < k < |keptLeft| - 1 + |keptRight|
    requires Thinned(hyp, points[..w + 1], eps, left, keptLeft) && Thinned(hyp, points[w..], eps, right, keptRight)
    ensures var kept := keptLeft[..|keptLeft| - 1] + Shifted(keptRight, w);
            kept[k - 1] < kept[k] < |points| && GapFlat(hyp, points, eps, kept[k - 1], kept[k])
  {
    hide GapFlat, IsHypot;
    var n := |keptLeft| - 1;
    assert points[0..w + 1] == points[..w + 1] && points[w..|points|] == points[w..];
    if k <= n {
      FlatInPart(hyp, points, eps, 0, w + 1, keptLeft[k - 1], keptLeft[k]);
    } else {
      FlatInPart(hyp, points, eps, w, |points|, keptRight[k - n - 1], keptRight[k - n]);
    }
  }

  lemma OffChordInPart(hyp: (real, real) -> real, points: seq<Point>, eps: real, from: nat, to: nat, lo: nat, w: nat, hi: nat)
    requires IsHypot(hyp) && from <= to <= |points| && lo < w < hi < to - from
    requires OffChord(hyp, points[from..to], eps, lo, w, hi)
    ensures OffChord(hyp, points, eps, lo + from, w + from, hi + from)
  {
    hide Perpendicular, IsHypot;
    var part := points[from..to];
    assert part[lo] == points[lo + from] && part[w] == points[w + from] && part[hi] == points[hi + from];
    forall i | lo + from < i < hi + from
      ensures Perpendicular(hyp, points[i], points[lo + from], points[hi + from])
           <= Perpendicular(hyp, points[w + from], points[lo + from], points[hi + from])
    {
      assert points[i] == part[i - from];
    }
  }

  /** What is needed in a part is needed in the whole. */
  lemma NeededInPart(hyp: (real, real) -> real, points: seq<Point>, eps: real, from: nat, to: nat, part: seq<nat>, k: nat,
                     kept: seq<nat>, offset: nat)
    requires IsHypot(hyp) && from <= to <= |points| && Needed(hyp, points[from..to], eps, part, k)
    requires offset + |part| <= |kept| && forall i :: 0 <= i < |part| ==> kept[offset + i] == part[i] + from
    ensures Needed(hyp, points, eps, kept, offset + k)
  {
    hide OffChord, IsHypot;
    var i: nat, j: nat :| i < k < j < |part| && NeededBy(hyp, points[from..to], eps, part, i, k, j);
    OffChordInPart(hyp, points, eps, from, to, part[i], part[k], part[j]);
    assert NeededBy(hyp, points, eps, kept, offset + i, offset + k, offset + j);
  }

  lemma JoinSimplified(hyp: (real, real) -> real, points: seq<Point>, eps: real, w: nat,
                       left: seq<Point>, keptLeft: seq<nat>, right: seq<Point>, keptRight: seq<nat>)
    requires IsHypot(hyp) && 1 <= w < |points| - 1 && OffChord(hyp, points, eps, 0, w, |points| - 1)
    requires Simplified(hyp, points[..w + 1], eps, left, keptLeft) && Simplified(hyp, points[w..], eps, right, keptRight)
    ensures Simplified(hyp, points, eps, left[..|left| - 1] + right, keptLeft[..|keptLeft| - 1] + Shifted(keptRight, w))
  {
    hide GapFlat, IsHypot, OffChord, Needed;
    JoinThinned(hyp, points, eps, w, left, keptLeft, right, keptRight);
    var kept := keptLeft[..|keptLeft| - 1] + Shifted(keptRight, w);
    forall k | 0 < k < |kept| - 1
      ensures Needed(hyp, points, eps, kept, k)
    {
      JoinNeeded(hyp, points, eps, w, left, keptLeft, right, keptRight, k);
    }
  }

  lemma JoinNeeded(hyp: (real, real) -> real, points: seq<Point>, eps: real, w: nat,
                   left: seq<Point>, keptLeft: seq<nat>, right: seq<Point>, keptRight: seq<nat>, k: nat)
    requires IsHypot(hyp) && 1 <= w < |points| - 1 && OffChord(hyp, points, eps, 0, w, |points| - 1)
    requires Simplified(hyp, points[..w + 1], eps, left, keptLeft) && Simplified(hyp, points[w..], eps, right, keptRight)
    requires 0 < k < |keptLeft| - 1 + |keptRight| - 1
    ensures Needed(hyp, points, eps, keptLeft[..|keptLeft| - 1] + Shifted(keptRight, w), k)
  {
    hide GapFlat, IsHypot, OffChord, Needed;
    var n := |keptLeft| - 1;
    var kept := keptLeft[..n] + Shifted(keptRight, w);
    JoinedAt(keptLeft, keptRight, w);
    assert points[0..w + 1] == points[..w + 1] && points[w..|points|] == points[w..];
    if k < n {
      NeededInPart(hyp, points, eps, 0, w + 1, keptLeft, k, kept, 0);
    } else if k > n {
      NeededInPart(hyp, points, eps, w, |points|, keptRight, k - n, kept, n);
    } else {
      PivotNeeded(hyp, points, eps, kept, k);
    }
  }

  /** Where the survivors of both parts are among those of the whole. */
  lemma JoinedAt(a: seq<nat>, b: seq<nat>, w: nat)
    requires a != [] && b != [] && a[|a| - 1] == w && b[0] == 0
    ensures var n := |a| - 1; var kept := a[..n] + Shifted(b, w);
            && |kept| == n + |b| && (forall i :: 0 <= i < |a| ==> kept[0 + i] == a[i] + 0)
            && (forall i :: 0 <= i < |b| ==> kept[n + i] == b[i] + w)
  {
  }

  lemma PivotNeeded(hyp: (real, real) -> real, points: seq<Point>, eps: real, kept: seq<nat>, k: nat)
    requires IsHypot(hyp) && 0 < k < |kept| - 1 && kept[0] == 0 && kept[|kept| - 1] == |points| - 1
    requires 0 < kept[k] < |points| - 1 && OffChord(hyp, points, eps, 0, kept[k], |points| - 1)
    ensures Needed(hyp, points, eps, kept, k)
  {
    hide OffChord, IsHypot;
    assert NeededBy(hyp, points, eps, kept, 0, k, |kept| - 1);
  }

  method Simplify(hyp: (real, real) -> real, points: seq<Point>, eps: real) returns (out: seq<Point>)
    requires IsHypot(hyp) && eps >= 0.0
    ensures exists kept :: Simplified(hyp, points, eps, out, kept)
    decreases |points|
  {
    hide IsHypot, Needed;
    if |points| < 3 {
      assert Simplified(hyp, points, eps, points, seq(|points|, i => i));
      return points;
    }
    var first, last := points[0], points[|points| - 1];
    var index, dist := Worst(hyp, points);
    if dist <= eps {
      assert Simplified(hyp, points, eps, [first, last], [0, |points| - 1]);
      return [first, last];
    }
    var left := Simplify(hyp, points[..index + 1], eps);
    var right := Simplify(hyp, points[index..], eps);
    ghost var keptLeft :| Simplified(hyp, points[..index + 1], eps, left, keptLeft);
    ghost var keptRight :| Simplified(hyp, points[index..], eps, right, keptRight);
    JoinSimplified(hyp, points, eps, index, left, keptLeft, right, keptRight);
    out := left[..|left| - 1] + right;
  }
}

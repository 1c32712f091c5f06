/** The whole planner: escape if needed, snap the goal into the reachable region, search, simplify, merge. */
module Plan {
  import opened Geometry
  import opened Grid
  import opened Optional
  import opened Lattice
  import opened Escape
  import AStar
  import Inflation
  import Reach
  import Segment
  import Simplify
  import Snap
  import Waypoints

  datatype Reason =
    | Success
    | StartOutsideMap
    | StartOccupied
    | StartUnobserved
    | StartClearanceBlocked
    | GoalUnreachable
    | NoPath

  datatype Plan = Plan(reason: Reason, waypoints: seq<Point>, lengthM: real, goalMovedM: real, startMovedM: real,
                       effective: Option<Point>, escapeEnd: int)

  function Refused(reason: Reason, startMoved: real): Plan {
    Plan(reason, [], 0.0, 0.0, startMoved, None, -1)
  }

  /** A point that keeps its distance from the grid lines. */
  predicate Roomy(meta: Meta, p: Point)
    requires meta.resolution > 0.0
  {
    var g, c := ToGrid(meta, p), ToCell(meta, p);
    && c.col as real + Segment.EPS < g.x < c.col as real + 1.0 - Segment.EPS
    && c.row as real + Segment.EPS < g.y < c.row as real + 1.0 - Segment.EPS
  }

  lemma CentreIsRoomy(meta: Meta, c: Cell)
    requires meta.resolution > 0.0
    ensures Roomy(meta, ToWorld(meta, c))
  {
    CentreOfCell(meta, c);
  }

  /** Between roomy points of two cells joined by a legal step, or of one cell, the way is clear. */
  lemma RoomyHop(meta: Meta, m: Mask, p: Point, q: Point)
    requires meta.resolution > 0.0 && Roomy(meta, p) && Roomy(meta, q) && Free(m, ToCell(meta, p))
    requires ToCell(meta, p) == ToCell(meta, q) || Legal(m, ToCell(meta, p), ToCell(meta, q))
    ensures Segment.WorldClear(meta, m, p, q)
  {
    var u, v := ToCell(meta, p), ToCell(meta, q);
    var r0, r1 := if u.row <= v.row then u.row else v.row, if u.row <= v.row then v.row else u.row;
    var c0, c1 := if u.col <= v.col then u.col else v.col, if u.col <= v.col then v.col else u.col;
    forall r, c | r0 <= r <= r1 && c0 <= c <= c1
      ensures Free(m, Cell(r, c))
    {
      assert Cell(r, c) == u || Cell(r, c) == v || Cell(r, c) == Cell(v.row, u.col) || Cell(r, c) == Cell(u.row, v.col);
    }
    hide ToGrid;
    Segment.BlockIsClear(m, Segment.EPS, ToGrid(meta, p), ToGrid(meta, q), r0, r1, c0, c1);
  }

  method AllClear(meta: Meta, m: Mask, points: seq<Point>) returns (clear: bool)
    requires meta.resolution > 0.0
    ensures clear <==> HopsClear(meta, m, points)
  {
    hide Segment.WorldClear;
    for i := 0 to |points|
      invariant forall j :: 0 < j < i ==> Segment.WorldClear(meta, m, points[j - 1], points[j])
    {
      if i == 0 {
        continue;
      }
      var c := Segment.SegmentClear(meta, m, points[i - 1], points[i]);
      if !c {
        return false;
      }
    }
    clear := true;
  }

  /** A polyline from `start` to `goal`. */
  predicate Joins(points: seq<Point>, start: Point, goal: Point) {
    |points| >= 2 && points[0] == start && points[|points| - 1] == goal
  }

  function Middle<T>(s: seq<T>): seq<T> {
    if |s| < 2 then [] else s[1..|s| - 1]
  }

  /** The unsimplified polyline: real ends, cell centres in between. */
  function Detailed(meta: Meta, path: seq<Cell>, start: Point, goal: Point): seq<Point> {
    [start] + Centres(meta, Middle(path)) + [goal]
  }

  lemma DetailedIsClear(meta: Meta, m: Mask, path: seq<Cell>, start: Point, goal: Point)
    requires meta.resolution > 0.0 && Leads(m, ToCell(meta, start), ToCell(meta, goal), path)
    requires Free(m, ToCell(meta, start)) && Roomy(meta, start) && Roomy(meta, goal)
    ensures HopsClear(meta, m, Detailed(meta, path, start, goal))
  {
    var points := Detailed(meta, path, start, goal);
    forall i | 0 < i < |points|
      ensures Segment.WorldClear(meta, m, points[i - 1], points[i])
    {
      if |path| == 1 {
        RoomyHop(meta, m, start, goal);
      } else {
        assert |points| == |path|;
        DetailedPoint(meta, path, start, goal, i - 1);
        DetailedPoint(meta, path, start, goal, i);
        assert Legal(m, path[i - 1], path[i - 1 + 1]);
        assert i > 1 ==> Legal(m, path[i - 2], path[i - 2 + 1]);
        hide ToCell, Roomy;
        RoomyHop(meta, m, points[i - 1], points[i]);
      }
    }
  }

  lemma DetailedPoint(meta: Meta, path: seq<Cell>, start: Point, goal: Point, i: nat)
    requires meta.resolution > 0.0 && i < |path| && |path| >= 2
    requires path[0] == ToCell(meta, start) && path[|path| - 1] == ToCell(meta, goal)
    requires Roomy(meta, start) && Roomy(meta, goal)
    ensures var p := Detailed(meta, path, start, goal)[i]; Roomy(meta, p) && ToCell(meta, p) == path[i]
  {
    if 0 < i < |path| - 1 {
      CentreIsRoomy(meta, path[i]);
      CentreOfCell(meta, path[i]);
    }
  }

  /** The drawing rule: the simplified line if it is clear, else the detailed one if that is, else none. */
  ghost predicate Drawn(hyp: (real, real) -> real, meta: Meta, m: Mask, path: seq<Cell>, start: Point, goal: Point, eps: real,
                        points: Option<seq<Point>>)
    requires IsHypot(hyp) && meta.resolution > 0.0
  {
    exists thin, kept :: Simplify.Simplified(hyp, Centres(meta, path), eps, thin, kept)
      && points == if HopsClear(meta, m, [start] + Middle(thin) + [goal]) then Some([start] + Middle(thin) + [goal])
                   else if HopsClear(meta, m, Detailed(meta, path, start, goal)) then Some(Detailed(meta, path, start, goal))
                   else None
  }

  /** Turn a cell route into a collision-free polyline. */
  method Polyline(hyp: (real, real) -> real, meta: Meta, m: Mask, path: seq<Cell>, start: Point, goal: Point, eps: real)
    returns (points: Option<seq<Point>>)
    requires IsHypot(hyp) && meta.resolution > 0.0 && eps >= 0.0
    requires Leads(m, ToCell(meta, start), ToCell(meta, goal), path) && Free(m, ToCell(meta, start))
    ensures Drawn(hyp, meta, m, path, start, goal, eps, points)
    ensures points.Some? ==> Joins(points.value, start, goal) && HopsClear(meta, m, points.value)
    ensures Roomy(meta, start) && Roomy(meta, goal) ==> points.Some?
  {
    hide HopsClear, Roomy, ToCell, IsHypot, Simplify.Simplified;
    var thin := Simplify.Simplify(hyp, Centres(meta, path), eps);
    ghost var kept :| Simplify.Simplified(hyp, Centres(meta, path), eps, thin, kept);
    var simple := [start] + Middle(thin) + [goal];
    var clear := AllClear(meta, m, simple);
    if clear {
      return Some(simple);
    }
    var detailed := Detailed(meta, path, start, goal);
    clear := AllClear(meta, m, detailed);
    if clear {
      return Some(detailed);
    }
    if Roomy(meta, start) && Roomy(meta, goal) {
      DetailedIsClear(meta, m, path, start, goal);
    }
    points := None;
  }

  // ----- the stages -----

  /** The fixed inputs of a planning call. `costs` are the traversal costs in force, if any. */
  datatype Query = Query(hyp: (real, real) -> real, meta: Meta, chart: Inflation.Chart, params: Inflation.Params,
                         blocked: Mask, costs: AStar.Costs, epsM: real, snapM: real, escapeM: real)

  ghost predicate ValidQuery(q: Query) {
    && IsHypot(q.hyp) && q.meta.resolution > 0.0 && q.chart.resolution == q.meta.resolution
    && q.blocked.height == q.chart.height && q.blocked.width == q.chart.width
    && AStar.NonNegative(q.costs) && q.epsM >= 0.0
  }

  /** The cells that legal routes reach from the cell of `from`. */
  ghost function ReachSet(m: Mask, from: Cell): set<Cell> {
    set c | c in AllCells(m) && Reach.Reachable(m, from, c)
  }

  /** What the body must not touch when the caller gives no mask: every cell from which it could reach an unsafe one, and
      every block of the planning mask that inflation does not explain. */
  ghost predicate IsDefaultBody(q: Query, body: Mask)
    requires q.chart.resolution > 0.0
  {
    && body.height == q.blocked.height && body.width == q.blocked.width
    && forall c :: Inside(body, c) ==>
         (c in body.blocked <==>
            Inflation.BodyHits(q.hyp, q.chart, q.params, c)
            || (c in q.blocked.blocked && !Inflation.Inflated(q.chart, q.params, c)))
  }

  /** So a connector checked against it is safe for the whole body. */
  lemma DefaultIsBodyMask(q: Query, body: Mask)
    requires ValidQuery(q) && IsDefaultBody(q, body)
    ensures Inflation.IsBodyMask(q.hyp, q.chart, q.params, body)
  {
    hide IsHypot, Inflation.BodyHits, Inflation.Inflated;
  }

  /** The body mask when the caller gives none: the collision mask, plus every extra block of the planning mask. */
  method DefaultBody(q: Query) returns (body: Mask)
    requires ValidQuery(q) && 0.0 < q.params.bodyRadius <= q.params.clearance
    ensures IsDefaultBody(q, body)
  {
    hide IsHypot, Inflation.BodyHits, Inflation.Inflated;
    var hits := Inflation.BodyCollisionMask(q.hyp, q.chart, q.params);
    var inflated := Inflation.Inflate(q.chart, q.params);
    var extra := hits.value;
    body := Mask(q.blocked.height, q.blocked.width,
                 set c | c in AllCells(q.blocked)
                         && (extra[c.row, c.col] || (c in q.blocked.blocked && !inflated[c.row, c.col])));
    forall c | Inside(body, c)
      ensures c in body.blocked <==>
              Inflation.BodyHits(q.hyp, q.chart, q.params, c) || (c in q.blocked.blocked && !Inflation.Inflated(q.chart, q.params, c))
    {
      assert c == Cell(c.row, c.col);
    }
  }

  /** The escape needs a body mask: given, or computable. */
  ghost predicate BodyKnown(q: Query, bodyGiven: Option<Mask>, start: Point)
    requires q.meta.resolution > 0.0
  {
    if bodyGiven.Some? then bodyGiven.value.height == q.blocked.height && bodyGiven.value.width == q.blocked.width
    else Segment.WorldClear(q.meta, q.blocked, start, start) || 0.0 < q.params.bodyRadius <= q.params.clearance
  }

  /** The mask an escape connector is checked against. */
  ghost predicate BodyUsed(q: Query, bodyGiven: Option<Mask>, body: Mask)
    requires q.chart.resolution > 0.0
  {
    if bodyGiven.Some? then body == bodyGiven.value else IsDefaultBody(q, body)
  }

  /** The outcome of the search for a way out of the inflated zone: the connector to the nearest exit, or none. */
  ghost predicate Escaped(q: Query, body: Mask, start: Point, points: Option<seq<Point>>)
    requires q.meta.resolution > 0.0
  {
    if Stuck(q.meta, body, start, q.escapeM) then points.None?
    else exists path :: Searched(q.meta, q.blocked, start,
                                 EscapeProblem(q.hyp, q.meta, body, ToCell(q.meta, start),
                                               Dist(q.hyp, start, ToWorld(q.meta, ToCell(q.meta, start))), q.escapeM),
                                 points, path)
  }

  /** Where planning starts: the start itself if it is clear, else the end of an escape connector. */
  ghost predicate StartChosen(q: Query, bodyGiven: Option<Mask>, start: Point, body: Mask, connector: seq<Point>, from: Point)
    requires q.meta.resolution > 0.0 && q.chart.resolution > 0.0
  {
    if Segment.WorldClear(q.meta, q.blocked, start, start) then connector == [] && from == start
    else
      && BodyUsed(q, bodyGiven, body) && Escaped(q, body, start, Some(connector))
      && Connector(q.meta, q.blocked, body, start, connector) && from == connector[|connector| - 1]
  }

  method FindStart(q: Query, bodyGiven: Option<Mask>, start: Point)
    returns (ok: bool, connector: seq<Point>, startFree: Point, ghost body: Mask)
    requires ValidQuery(q) && BodyKnown(q, bodyGiven, start)
    ensures ok ==> StartChosen(q, bodyGiven, start, body, connector, startFree)
    ensures ok ==> Segment.WorldClear(q.meta, q.blocked, startFree, startFree) && (startFree == start || Roomy(q.meta, startFree))
    ensures !ok ==> !Segment.WorldClear(q.meta, q.blocked, start, start) && BodyUsed(q, bodyGiven, body)
                    && Escaped(q, body, start, None)
  {
    hide Segment.WorldClear, HopsClear, IsHypot, IsDefaultBody, Exit, Leads, Roomy;
    connector, startFree, body := [], start, q.blocked;
    var clear := Segment.SegmentClear(q.meta, q.blocked, start, start);
    if clear {
      return true, connector, startFree, body;
    }
    var mask: Mask;
    if bodyGiven.None? {
      mask := DefaultBody(q);
      DefaultSize(q, mask);
    } else {
      mask := bodyGiven.value;
    }
    body := mask;
    var escape;
    ghost var path;
    escape, path := EscapeStart(q.hyp, q.meta, q.blocked, mask, start, q.escapeM);
    assert Escaped(q, body, start, escape);
    if escape.None? {
      return false, connector, startFree, body;
    }
    connector := escape.value;
    startFree := connector[|connector| - 1];
    CentreIsRoomy(q.meta, path[|path| - 1]);
    ok := true;
  }

  lemma DefaultSize(q: Query, body: Mask)
    requires q.chart.resolution > 0.0 && IsDefaultBody(q, body)
    ensures body.height == q.blocked.height && body.width == q.blocked.width
  {
  }

  /** The goal itself if it is clear and reachable, else the nearest scanned reachable cell centre. */
  ghost predicate GoalChosen(q: Query, from: Cell, goal: Point, effective: Point, moved: real)
    requires q.meta.resolution > 0.0
  {
    if Segment.WorldClear(q.meta, q.blocked, goal, goal) && Reach.Reachable(q.blocked, from, ToCell(q.meta, goal)) then
      effective == goal && moved == 0.0
    else
      moved == Dist(q.hyp, goal, effective)
      && exists c :: effective == ToWorld(q.meta, c)
           && Snap.NearestScanned(q.hyp, q.meta, q.blocked, ReachSet(q.blocked, from), goal, q.snapM, Some(c))
  }

  /** The goal is moved by at most `snapM`, or not at all. */
  predicate WithinSnap(q: Query, moved: real) {
    moved == 0.0 || moved <= q.snapM
  }

  ghost predicate GoalLost(q: Query, from: Cell, goal: Point)
    requires q.meta.resolution > 0.0
  {
    && !(Segment.WorldClear(q.meta, q.blocked, goal, goal) && Reach.Reachable(q.blocked, from, ToCell(q.meta, goal)))
    && Snap.NearestScanned(q.hyp, q.meta, q.blocked, ReachSet(q.blocked, from), goal, q.snapM, None)
  }

  /** The goal, moved into the region reachable from `from`; the reachable set is what A* can serve. */
  method FindGoal(q: Query, from: Cell, goal: Point) returns (goalFree: Point, moved: Option<real>, ghost best: Option<Cell>)
    requires ValidQuery(q)
    ensures moved.Some? ==> Reach.Reachable(q.blocked, from, ToCell(q.meta, goalFree))
                            && Segment.WorldClear(q.meta, q.blocked, goalFree, goalFree)
                            && WithinSnap(q, moved.value) && (goalFree == goal || Roomy(q.meta, goalFree))
    ensures if moved.Some? then GoalChosen(q, from, goal, goalFree, moved.value) else GoalLost(q, from, goal)
  {
    hide Segment.WorldClear, IsHypot, ToCell, Reach.Reachable, Snap.NearestScanned;
    var allowed := Reach.ReachableMask(q.blocked, from);
    goalFree, moved, best := Snap.SnapToFree(q.hyp, q.meta, q.blocked, allowed, ReachSet(q.blocked, from), goal, q.snapM);
    if Segment.WorldClear(q.meta, q.blocked, goal, goal) {
      ClearPointCell(q.meta, q.blocked, goal, goal);
    }
    if best.Some? {
      CentreIsRoomy(q.meta, best.value);
    }
  }

  /** Hops up to `escapeEnd` are checked against the body mask, the rest against the planning mask. */
  ghost predicate Drivable(q: Query, body: Mask, start: Point, plan: Plan)
    requires q.meta.resolution > 0.0
  {
    && plan.waypoints != [] && plan.waypoints[0] == start
    && plan.effective == Some(plan.waypoints[|plan.waypoints| - 1])
    && -1 <= plan.escapeEnd < |plan.waypoints|
    && forall i :: 0 < i < |plan.waypoints| ==>
         Segment.WorldClear(q.meta, if i <= plan.escapeEnd then body else q.blocked, plan.waypoints[i - 1], plan.waypoints[i])
  }

  ghost predicate MergesTo(f: Waypoints.Field, line: seq<Point>, upto: nat, merged: seq<Point>)
    requires f.meta.resolution > 0.0
  {
    exists kept :: Waypoints.Merged(f, line, merged, kept, upto) && Waypoints.Greedy(f, line, kept)
  }

  /** The polyline before merging, and what merging may do to it. */
  ghost predicate CheapMerge(q: Query, line: seq<Point>, merged: seq<Point>)
    requires q.meta.resolution > 0.0
  {
    if q.costs.None? then merged == line
    else
      var f := Waypoints.Field(q.hyp, q.meta, q.blocked, q.costs.value);
      && line != [] && MergesTo(f, line, |line| - 1, merged)
      && Waypoints.Total(f, line).Fin? && Waypoints.Total(f, merged).Fin?
      && Waypoints.Total(f, merged).value <= Waypoints.Total(f, line).value * Waypoints.SLOPE
  }

  lemma {:induction false} ClearTotalFinite(f: Waypoints.Field, points: seq<Point>, n: nat)
    requires Waypoints.ValidField(f) && HopsClear(f.meta, f.blocked, points) && (n == 0 || n < |points|)
    ensures Waypoints.Travel(f, points, n).Fin?
  {
    if n > 0 {
      ClearTotalFinite(f, points, n - 1);
      Waypoints.ClearIsFinite(f, points[n - 1], points[n]);
    }
  }

  lemma MergedHopsClear(f: Waypoints.Field, points: seq<Point>, result: seq<Point>, kept: seq<nat>)
    requires Waypoints.ValidField(f) && points != [] && HopsClear(f.meta, f.blocked, points)
    requires Waypoints.Merged(f, points, result, kept, |points| - 1)
    ensures HopsClear(f.meta, f.blocked, result)
  {
    forall k | 0 < k < |result|
      ensures Segment.WorldClear(f.meta, f.blocked, result[k - 1], result[k])
    {
      if kept[k - 1] + 1 == kept[k] {
        assert result[k - 1] == points[kept[k] - 1];
      }
    }
  }

  /** Merge the polyline when traversal costs are in force; it stays clear, keeps its ends and stays near its cost. */
  method Merge(q: Query, line: seq<Point>) returns (merged: seq<Point>)
    requires ValidQuery(q) && line != [] && HopsClear(q.meta, q.blocked, line)
    ensures HopsClear(q.meta, q.blocked, merged) && CheapMerge(q, line, merged)
    ensures merged != [] && merged[0] == line[0] && merged[|merged| - 1] == line[|line| - 1]
  {
    if q.costs.None? {
      return line;
    }
    hide HopsClear, IsHypot, Waypoints.Travel;
    var f := Waypoints.Field(q.hyp, q.meta, q.blocked, q.costs.value);
    ghost var kept;
    merged, kept := Waypoints.CostWaypoints(f, line);
    ClearTotalFinite(f, line, |line| - 1);
    MergedHopsClear(f, line, merged, kept);
  }

  function PathLength(hyp: (real, real) -> real, points: seq<Point>): real {
    if |points| < 2 then 0.0
    else PathLength(hyp, points[..|points| - 1]) + Dist(hyp, points[|points| - 2], points[|points| - 1])
  }

  /** No polyline is shorter than the straight line between its ends. */
  lemma {:induction false} NotShorterThanStraight(hyp: (real, real) -> real, points: seq<Point>)
    requires IsHypot(hyp) && points != []
    ensures PathLength(hyp, points) >= Dist(hyp, points[0], points[|points| - 1])
  {
    if |points| >= 2 {
      var rest := points[..|points| - 1];
      NotShorterThanStraight(hyp, rest);
      var a, b, c := points[0], points[|points| - 2], points[|points| - 1];
      Triangle(hyp, a.x - b.x, a.y - b.y, b.x - c.x, b.y - c.y);
    } else {
      HypotAxis(hyp, 0.0);
    }
  }

  /** The length of a hop, and of lines joined at a point. */
  lemma {:induction false} LengthJoins(hyp: (real, real) -> real, a: seq<Point>, b: seq<Point>)
    requires a != [] && b != [] && a[|a| - 1] == b[0]
    ensures PathLength(hyp, a + b[1..]) == PathLength(hyp, a) + PathLength(hyp, b)
    ensures |b| == 2 ==> PathLength(hyp, b) == Dist(hyp, b[0], b[1])
    decreases |b|
  {
    var n := |b| - 1;
    if n == 0 {
      assert a + b[1..] == a;
    } else {
      LengthJoins(hyp, a, b[..n]);
      assert (a + b[1..])[..|a + b[1..]| - 1] == a + b[..n][1..];
    }
  }

  /** Put the escape connector in front. */
  method Assemble(q: Query, ghost body: Mask, connector: seq<Point>, merged: seq<Point>, start: Point, goalFree: Point,
                  moved: real, startMoved: real)
    returns (plan: Plan)
    requires ValidQuery(q) && merged != [] && merged[|merged| - 1] == goalFree
    requires merged[0] == if connector == [] then start else connector[|connector| - 1]
    requires HopsClear(q.meta, q.blocked, merged)
    requires connector != [] ==> connector[0] == start && HopsClear(q.meta, body, connector)
    ensures plan.reason.Success? && Drivable(q, body, start, plan)
    ensures plan.effective == Some(goalFree) && plan.goalMovedM == moved && plan.startMovedM == startMoved
    ensures plan.waypoints == (if connector == [] then merged else connector + merged[1..])
    ensures plan.escapeEnd == |connector| - 1
    ensures plan.lengthM == PathLength(q.hyp, plan.waypoints) >= Dist(q.hyp, start, goalFree)
  {
    hide Segment.WorldClear, IsHypot;
    var points := if connector == [] then merged else connector + merged[1..];
    var n := |connector|;
    forall i | 0 < i < |points|
      ensures Segment.WorldClear(q.meta, if i <= n - 1 then body else q.blocked, points[i - 1], points[i])
    {
      if n > 0 && i >= n {
        assert points[i] == merged[i - n + 1] && points[i - 1] == merged[i - n];
      }
    }
    NotShorterThanStraight(q.hyp, points);
    plan := Plan(Success, points, PathLength(q.hyp, points), moved, startMoved, Some(goalFree), n - 1);
  }

  /** A cheapest legal route of the planning mask. */
  ghost predicate CheapestRoute(q: Query, from: Cell, to: Cell, route: seq<Cell>) {
    && Route(q.blocked, from, to, route)
    && forall r :: Route(q.blocked, from, to, r) ==>
         Cost(AStar.GridTerrain(q.hyp, q.blocked, q.costs), route) <= Cost(AStar.GridTerrain(q.hyp, q.blocked, q.costs), r)
  }

  /** What happened on the way to a plan. */
  datatype Trace = Trace(body: Mask, connector: seq<Point>, from: Point, route: seq<Cell>, line: seq<Point>, merged: seq<Point>)

  /** The start is on the map and known to be free. */
  predicate Observed(q: Query, start: Point)
    requires q.meta.resolution > 0.0
  {
    var c := ToCell(q.meta, start);
    Inside(q.blocked, c) && !(q.chart.level(c) >= q.params.occThresh) && q.chart.level(c) <= q.params.freeThresh
  }

  /** Everything promised of a finished plan. */
  ghost predicate Sound(q: Query, bodyGiven: Option<Mask>, start: Point, goal: Point, plan: Plan, t: Trace)
    requires ValidQuery(q)
  {
    && plan.effective.Some? && Observed(q, start)
    && StartChosen(q, bodyGiven, start, t.body, t.connector, t.from)
    && GoalChosen(q, ToCell(q.meta, t.from), goal, plan.effective.value, plan.goalMovedM) && WithinSnap(q, plan.goalMovedM)
    && CheapestRoute(q, ToCell(q.meta, t.from), ToCell(q.meta, plan.effective.value), t.route)
    && Drawn(q.hyp, q.meta, q.blocked, t.route, t.from, plan.effective.value, if q.costs.Some? then 0.0 else q.epsM,
             Some(t.line))
    && CheapMerge(q, t.line, t.merged)
    && plan.waypoints == (if t.connector == [] then t.merged else t.connector + t.merged[1..])
    && plan.escapeEnd == |t.connector| - 1 && plan.startMovedM == Dist(q.hyp, start, t.from)
    && plan.lengthM == PathLength(q.hyp, plan.waypoints) >= Dist(q.hyp, start, plan.effective.value)
    && Drivable(q, t.body, start, plan)
  }

  /** Every refusal is for its own reason. The only way to have no path is a line that cannot be drawn, which needs a start
      or goal within the probe offset of a grid line; the search itself never fails. */
  ghost predicate Explained(q: Query, bodyGiven: Option<Mask>, start: Point, goal: Point, plan: Plan, t: Trace)
    requires ValidQuery(q)
  {
    var c := ToCell(q.meta, start);
    match plan.reason
    case Success => Sound(q, bodyGiven, start, goal, plan, t)
    case StartOutsideMap => !Inside(q.blocked, c)
    case StartOccupied => Inside(q.blocked, c) && q.chart.level(c) >= q.params.occThresh
    case StartUnobserved => Inside(q.blocked, c) && !(q.chart.level(c) >= q.params.occThresh) && !(q.chart.level(c) <= q.params.freeThresh)
    case StartClearanceBlocked =>
      && Observed(q, start) && !Segment.WorldClear(q.meta, q.blocked, start, start)
      && BodyUsed(q, bodyGiven, t.body) && Escaped(q, t.body, start, None)
    case GoalUnreachable =>
      && Observed(q, start) && StartChosen(q, bodyGiven, start, t.body, t.connector, t.from)
      && GoalLost(q, ToCell(q.meta, t.from), goal) && plan.startMovedM == Dist(q.hyp, start, t.from)
    case NoPath =>
      && Observed(q, start) && StartChosen(q, bodyGiven, start, t.body, t.connector, t.from)
      && (!Roomy(q.meta, start) || !Roomy(q.meta, goal)) && plan.effective.None?
      && exists effective, moved ::
           && GoalChosen(q, ToCell(q.meta, t.from), goal, effective, moved)
           && CheapestRoute(q, ToCell(q.meta, t.from), ToCell(q.meta, effective), t.route)
           && Drawn(q.hyp, q.meta, q.blocked, t.route, t.from, effective, if q.costs.Some? then 0.0 else q.epsM, None)
  }

  /** With traversal costs in force only exactly straight runs are simplified. */
  function Eps(q: Query): real {
    if q.costs.Some? then 0.0 else q.epsM
  }

  method Search(q: Query, from: Cell, to: Cell) returns (path: Option<seq<Cell>>)
    requires ValidQuery(q) && Free(q.blocked, from)
    ensures path.None? <==> !Reach.Reachable(q.blocked, from, to)
    ensures path.Some? ==> CheapestRoute(q, from, to, path.value)
  {
    path := AStar.AStar(q.hyp, from, to, q.blocked, q.costs);
  }

  method Draw(q: Query, path: seq<Cell>, start: Point, goal: Point) returns (points: Option<seq<Point>>)
    requires ValidQuery(q) && Free(q.blocked, ToCell(q.meta, start))
    requires CheapestRoute(q, ToCell(q.meta, start), ToCell(q.meta, goal), path)
    ensures Drawn(q.hyp, q.meta, q.blocked, path, start, goal, Eps(q), points)
    ensures points.Some? ==> Joins(points.value, start, goal) && HopsClear(q.meta, q.blocked, points.value)
    ensures Roomy(q.meta, start) && Roomy(q.meta, goal) ==> points.Some?
  {
    hide IsHypot, ToCell, HopsClear, Roomy, Drawn;
    points := Polyline(q.hyp, q.meta, q.blocked, path, start, goal, Eps(q));
  }

  /** Between two clear, connected points: search, draw, merge, put the connector in front. */
  method PlanBetween(q: Query, bodyGiven: Option<Mask>, start: Point, goal: Point, connector: seq<Point>, startFree: Point,
                     goalFree: Point, moved: real, ghost body: Mask)
    returns (plan: Plan, ghost t: Trace)
    requires ValidQuery(q) && Observed(q, start) && StartChosen(q, bodyGiven, start, body, connector, startFree)
    requires Free(q.blocked, ToCell(q.meta, startFree)) && (startFree == start || Roomy(q.meta, startFree))
    requires Reach.Reachable(q.blocked, ToCell(q.meta, startFree), ToCell(q.meta, goalFree))
    requires GoalChosen(q, ToCell(q.meta, startFree), goal, goalFree, moved) && WithinSnap(q, moved)
    requires goalFree == goal || Roomy(q.meta, goalFree)
    ensures Explained(q, bodyGiven, start, goal, plan, t) && (plan.reason.Success? || plan.reason.NoPath?)
  {
    assert q.meta.resolution > 0.0;
    ConnectorStarts(q, bodyGiven, start, body, connector, startFree);
    hide *;
    t := Trace(body, connector, startFree, [], [], []);
    var path := Search(q, ToCell(q.meta, startFree), ToCell(q.meta, goalFree));
    if path.None? {
      plan := Refused(NoPath, Dist(q.hyp, start, startFree)).(effective := Some(goalFree));
      return;
    }
    var points := Draw(q, path.value, startFree, goalFree);
    t := t.(route := path.value);
    if points.None? {
      plan := Refused(NoPath, 0.0);
      NoLine(q, bodyGiven, start, goal, goalFree, moved, t);
      return;
    }
    JoinsEnds(points.value, startFree, goalFree);
    var kept := Merge(q, points.value);
    t := t.(line := points.value, merged := kept);
    plan := Assemble(q, body, connector, kept, start, goalFree, moved, Dist(q.hyp, start, startFree));
    AllSound(q, bodyGiven, start, goal, plan, t);
  }

  lemma JoinsEnds(points: seq<Point>, start: Point, goal: Point)
    requires Joins(points, start, goal)
    ensures points != [] && points[0] == start && points[|points| - 1] == goal
  {
  }

  lemma NoLine(q: Query, bodyGiven: Option<Mask>, start: Point, goal: Point, effective: Point, moved: real, t: Trace)
    requires ValidQuery(q) && Observed(q, start) && StartChosen(q, bodyGiven, start, t.body, t.connector, t.from)
    requires GoalChosen(q, ToCell(q.meta, t.from), goal, effective, moved)
    requires CheapestRoute(q, ToCell(q.meta, t.from), ToCell(q.meta, effective), t.route)
    requires Drawn(q.hyp, q.meta, q.blocked, t.route, t.from, effective, Eps(q), None)
    requires t.from == start || Roomy(q.meta, t.from)
    requires effective == goal || Roomy(q.meta, effective)
    requires !(Roomy(q.meta, t.from) && Roomy(q.meta, effective))
    ensures Explained(q, bodyGiven, start, goal, Refused(NoPath, 0.0), t)
  {
    hide GoalChosen, CheapestRoute, Drawn, StartChosen, Observed, Roomy, ToCell, IsHypot;
  }

  lemma AllSound(q: Query, bodyGiven: Option<Mask>, start: Point, goal: Point, plan: Plan, t: Trace)
    requires ValidQuery(q) && plan.reason.Success? && plan.effective.Some? && Observed(q, start)
    requires StartChosen(q, bodyGiven, start, t.body, t.connector, t.from)
    requires GoalChosen(q, ToCell(q.meta, t.from), goal, plan.effective.value, plan.goalMovedM) && WithinSnap(q, plan.goalMovedM)
    requires CheapestRoute(q, ToCell(q.meta, t.from), ToCell(q.meta, plan.effective.value), t.route)
    requires Drawn(q.hyp, q.meta, q.blocked, t.route, t.from, plan.effective.value, Eps(q), Some(t.line))
    requires CheapMerge(q, t.line, t.merged)
    requires plan.waypoints == (if t.connector == [] then t.merged else t.connector + t.merged[1..])
    requires plan.escapeEnd == |t.connector| - 1 && plan.startMovedM == Dist(q.hyp, start, t.from)
    requires plan.lengthM == PathLength(q.hyp, plan.waypoints) >= Dist(q.hyp, start, plan.effective.value)
    requires Drivable(q, t.body, start, plan)
    ensures Explained(q, bodyGiven, start, goal, plan, t)
  {
    hide GoalChosen, CheapestRoute, Drawn, StartChosen, Observed, ToCell, IsHypot, CheapMerge, Drivable, PathLength, Dist;
  }

  lemma ConnectorStarts(q: Query, bodyGiven: Option<Mask>, start: Point, body: Mask, connector: seq<Point>, from: Point)
    requires q.meta.resolution > 0.0 && q.chart.resolution > 0.0
    requires StartChosen(q, bodyGiven, start, body, connector, from)
    ensures from == if connector == [] then start else connector[|connector| - 1]
    ensures connector != [] ==> connector[0] == start && HopsClear(q.meta, body, connector)
  {
    hide Segment.WorldClear, HopsClear, BodyUsed, Escaped;
  }

  /** From a clear start: snap the goal into what can be reached, and plan to it. */
  method PlanFrom(q: Query, bodyGiven: Option<Mask>, start: Point, goal: Point, connector: seq<Point>, startFree: Point,
                  ghost body: Mask)
    returns (plan: Plan, ghost t: Trace)
    requires ValidQuery(q) && Observed(q, start) && StartChosen(q, bodyGiven, start, body, connector, startFree)
    requires Segment.WorldClear(q.meta, q.blocked, startFree, startFree) && (startFree == start || Roomy(q.meta, startFree))
    ensures Explained(q, bodyGiven, start, goal, plan, t)
  {
    assert q.meta.resolution > 0.0;
    hide ValidQuery, Segment.WorldClear, IsHypot, ToCell, Reach.Reachable, Roomy, GoalLost, GoalChosen, StartChosen, Dist,
      Observed, Free, Sound;
    ClearPointCell(q.meta, q.blocked, startFree, startFree);
    var goalFree, moved;
    ghost var best;
    goalFree, moved, best := FindGoal(q, ToCell(q.meta, startFree), goal);
    if moved.None? {
      t := Trace(body, connector, startFree, [], [], []);
      plan := Refused(GoalUnreachable, Dist(q.hyp, start, startFree));
      return;
    }
    plan, t := PlanBetween(q, bodyGiven, start, goal, connector, startFree, goalFree, moved.value, body);
  }

  method PlanTo(q: Query, bodyGiven: Option<Mask>, start: Point, goal: Point) returns (plan: Plan, ghost t: Trace)
    requires ValidQuery(q) && BodyKnown(q, bodyGiven, start)
    ensures Explained(q, bodyGiven, start, goal, plan, t)
  {
    assert q.meta.resolution > 0.0 && q.chart.resolution > 0.0;
    hide ValidQuery, Segment.WorldClear, IsHypot, ToCell, Roomy, StartChosen, BodyUsed, Escaped, BodyKnown, Sound, GoalLost;
    t := Trace(q.blocked, [], start, [], [], []);
    var startCell := ToCell(q.meta, start);
    if !Inside(q.blocked, startCell) {
      plan := Refused(StartOutsideMap, 0.0);
      return;
    }
    if q.chart.level(startCell) >= q.params.occThresh {
      plan := Refused(StartOccupied, 0.0);
      return;
    }
    if !(q.chart.level(startCell) <= q.params.freeThresh) {
      plan := Refused(StartUnobserved, 0.0);
      return;
    }
    var ok, connector, startFree;
    ghost var body;
    ok, connector, startFree, body := FindStart(q, bodyGiven, start);
    if !ok {
      t := t.(body := body);
      plan := Refused(StartClearanceBlocked, 0.0);
      return;
    }
    plan, t := PlanFrom(q, bodyGiven, start, goal, connector, startFree, body);
  }
}

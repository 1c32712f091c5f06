/** Leaving the clearance zone: a bounded Dijkstra over cells the body can occupy, to the nearest planning-free cell. */
module Escape {
  import opened Geometry
  import opened Grid
  import opened Optional
  import opened Lattice
  import opened BestFirst
  import AStar
  import Segment

  ghost predicate HopsClear(meta: Meta, m: Mask, points: seq<Point>)
    requires meta.resolution > 0.0
  {
    forall i :: 0 < i < |points| ==> Segment.WorldClear(meta, m, points[i - 1], points[i])
  }

  // ----- centre to centre -----

  /** A legal step between free cells is collision-free from centre to centre. */
  lemma StepIsClear(meta: Meta, m: Mask, u: Cell, v: Cell)
    requires meta.resolution > 0.0 && Free(m, u) && Legal(m, u, v)
    ensures Segment.WorldClear(meta, m, ToWorld(meta, u), ToWorld(meta, v))
  {
    CentreOfCell(meta, u);
    CentreOfCell(meta, v);
    var r0, r1 := if u.row <= v.row then u.row else v.row, if u.row <= v.row then v.row else u.row;
    var c0, c1 := if u.col <= v.col then u.col else v.col, if u.col <= v.col then v.col else u.col;
    forall r, c | r0 <= r <= r1 && c0 <= c <= c1
      ensures Free(m, Cell(r, c))
    {
      assert Cell(r, c) == u || Cell(r, c) == v || Cell(r, c) == Cell(v.row, u.col) || Cell(r, c) == Cell(u.row, v.col);
    }
    Segment.BlockIsClear(m, Segment.EPS, Centre(u), Centre(v), r0, r1, c0, c1);
  }

  lemma CentreIsClear(meta: Meta, m: Mask, c: Cell)
    requires meta.resolution > 0.0 && Free(m, c)
    ensures Segment.WorldClear(meta, m, ToWorld(meta, c), ToWorld(meta, c))
  {
    CentreOfCell(meta, c);
    Segment.BlockIsClear(m, Segment.EPS, Centre(c), Centre(c), c.row, c.row, c.col, c.col);
  }

  /** A point that passes the check lies in a free cell. */
  lemma ClearPointCell(meta: Meta, m: Mask, p: Point, q: Point)
    requires meta.resolution > 0.0 && Segment.WorldClear(meta, m, p, q)
    ensures Free(m, ToCell(meta, p)) && Free(m, ToCell(meta, q))
  {
    SquareIsTouch(meta, ToCell(meta, p), p);
    SquareIsTouch(meta, ToCell(meta, q), q);
    assert Along(p, q, 0.0) == p && Along(p, q, 1.0) == q;
    Segment.SegmentCovers(meta, m, p, q, 0.0, ToCell(meta, p));
    Segment.SegmentCovers(meta, m, p, q, 1.0, ToCell(meta, q));
  }

  function Centres(meta: Meta, path: seq<Cell>): seq<Point> {
    seq(|path|, i requires 0 <= i < |path| => ToWorld(meta, path[i]))
  }

  /** The centres along a legal route through free cells are joined by collision-free hops. */
  lemma RouteHopsClear(meta: Meta, m: Mask, path: seq<Cell>)
    requires meta.resolution > 0.0 && Chain(m, path) && Free(m, path[0])
    ensures HopsClear(meta, m, Centres(meta, path))
  {
    forall i | 0 < i < |path|
      ensures Segment.WorldClear(meta, m, ToWorld(meta, path[i - 1]), ToWorld(meta, path[i]))
    {
      assert Legal(m, path[i - 1], path[i - 1 + 1]);
      assert i > 1 ==> Legal(m, path[i - 2], path[i - 2 + 1]);
      StepIsClear(meta, m, path[i - 1], path[i]);
    }
  }

  /** Drop every point that equals its predecessor. */
  function Dedupe(points: seq<Point>): (r: seq<Point>)
    ensures points != [] ==> r != [] && r[0] == points[0] && r[|r| - 1] == points[|points| - 1]
  {
    if |points| <= 1 then points
    else
      var rest, last := Dedupe(points[..|points| - 1]), points[|points| - 1];
      if last == points[|points| - 2] then rest else rest + [last]
  }

  /** The same points, and none next to itself. */
  lemma {:induction false} NoneTwice(points: seq<Point>)
    ensures forall i :: 0 < i < |Dedupe(points)| ==> Dedupe(points)[i - 1] != Dedupe(points)[i]
    ensures forall p :: p in Dedupe(points) <==> p in points
  {
    if |points| > 1 {
      NoneTwice(points[..|points| - 1]);
      assert points == points[..|points| - 1] + [points[|points| - 1]];
    }
  }

  lemma {:induction false} DedupeHops(meta: Meta, m: Mask, points: seq<Point>)
    requires meta.resolution > 0.0 && HopsClear(meta, m, points)
    ensures HopsClear(meta, m, Dedupe(points))
  {
    if |points| > 1 {
      DedupeHops(meta, m, points[..|points| - 1]);
    }
  }

  // ----- the search -----

  function EscapeProblem(hyp: (real, real) -> real, meta: Meta, body: Mask, cell: Cell, initial: real, maxM: real): Problem {
    Problem(Terrain(body, meta.resolution, hyp(1.0, 1.0), (c: Cell) => 0.0), cell, initial, initial,
            (c: Cell) => 0.0, Some(maxM))
  }

  /** What a search for the nearest planning-free cell returns: a body-legal route within the limit to a free cell,
      such that no body-legal route to any free cell is cheaper. */
  ghost predicate Nearest(pb: Problem, blocked: Mask, path: seq<Cell>) {
    && path != [] && Leads(pb.t.mask, pb.start, path[|path| - 1], path)
    && path[|path| - 1] !in blocked.blocked
    && pb.base + Cost(pb.t, path) <= pb.limit.GetOr(0.0)
    && forall c, p :: Exit(pb, blocked, c, p) ==> Cost(pb.t, path) <= Cost(pb.t, p)
  }

  /** A body-legal route within the limit to a planning-free cell. */
  ghost predicate Exit(pb: Problem, blocked: Mask, c: Cell, p: seq<Cell>) {
    c !in blocked.blocked && Leads(pb.t.mask, pb.start, c, p) && Within(pb, pb.base + Cost(pb.t, p))
  }

  lemma EscapeValid(hyp: (real, real) -> real, meta: Meta, body: Mask, cell: Cell, initial: real, maxM: real)
    requires IsHypot(hyp) && meta.resolution > 0.0 && Inside(body, cell) && 0.0 <= initial <= maxM
    ensures ValidProblem(EscapeProblem(hyp, meta, body, cell, initial, maxM))
  {
    var pb := EscapeProblem(hyp, meta, body, cell, initial, maxM);
    AStar.DiagonalLength(hyp);
    assert ValidTerrain(pb.t);
    forall u, v | Legal(body, u, v)
      ensures pb.h(u) <= Weight(pb.t, u, v) + pb.h(v)
    {
      WeightPositive(pb.t, u, v);
    }
  }

  /** The code tells a stale entry by its cost alone. */
  lemma StaleByCost(pb: Problem, s: Search, top: Entry)
    requires Inv(pb, s) && pb.f0 == pb.base && (forall c :: pb.h(c) == 0.0)
    requires top in s.open && forall e :: e in s.open ==> top.f <= e.f
    ensures top.cell in s.g && Within(pb, s.g[top.cell]) && s.g[top.cell] <= top.f
    ensures top.cell in s.closed <==> top.f > s.g[top.cell]
  {
    var c := top.cell;
    assert Key(pb, s.g, c) == s.g[c];
    assert s.open[Entry(Key(pb, s.g, c), c)] == if c in s.closed then 0 else 1;
    if c !in s.closed {
      assert Entry(s.g[c], c) in s.open;
    }
  }

  lemma FirstFreeIsNearest(pb: Problem, s: Search, top: Entry, blocked: Mask, path: seq<Cell>)
    requires ValidProblem(pb) && Inv(pb, s) && pb.limit.Some? && pb.f0 == pb.base && (forall c :: pb.h(c) == 0.0)
    requires top in s.open && (forall e :: e in s.open ==> top.f <= e.f) && top.cell !in s.closed
    requires top.cell !in blocked.blocked && s.closed <= blocked.blocked
    requires Leads(pb.t.mask, pb.start, top.cell, path) && pb.base + Cost(pb.t, path) == s.g[top.cell]
    ensures Nearest(pb, blocked, path)
  {
    LeastIsCheapest(pb, s, top);
    StaleByCost(pb, s, top);
    forall c, p | Exit(pb, blocked, c, p)
      ensures Cost(pb.t, path) <= Cost(pb.t, p)
    {
      CostPrefix(pb.t, p, 0);
      if pb.start in s.closed {
        var x := FrontierKey(pb, s, c, p);
        assert Entry(Key(pb, s.g, x), x) in s.open;
      }
    }
  }

  lemma DryMeansNone(pb: Problem, s: Search, blocked: Mask)
    requires ValidProblem(pb) && Inv(pb, s) && s.open == multiset{} && s.closed <= blocked.blocked
    ensures !exists c, p :: Exit(pb, blocked, c, p)
  {
    forall c, p | Exit(pb, blocked, c, p)
      ensures false
    {
      ExhaustedReach(pb, s, c, p);
    }
  }

  /** Try one move out of an expanded cell. */
  lemma ImproveIs(hyp: (real, real) -> real, meta: Meta, body: Mask, maxM: real, pb: Problem, s: Search, u: Cell, v: Cell)
    requires pb == EscapeProblem(hyp, meta, body, pb.start, pb.base, maxM) && u in s.g
    ensures var x := s.g[u] + Weight(pb.t, u, v);
            Improve(pb, s, u, v)
            == if Legal(body, u, v) && x <= maxM && (v in s.g ==> x < s.g[v]) then
                 Search(s.open + multiset{Entry(x, v)}, s.came[v := u], s.g[v := x], s.closed)
               else s
  {
    hide Legal, Weight;
  }

  lemma MoveWeight(hyp: (real, real) -> real, meta: Meta, body: Mask, maxM: real, pb: Problem, u: Cell, mv: Move)
    requires pb == EscapeProblem(hyp, meta, body, pb.start, pb.base, maxM) && IsMove(mv)
    ensures Weight(pb.t, u, Shift(u, mv)) == (if mv.dr != 0 && mv.dc != 0 then hyp(1.0, 1.0) else 1.0) * meta.resolution
  {
    LegalMoveIff(body, u, mv);
  }

  method TryMove(hyp: (real, real) -> real, meta: Meta, body: Mask, maxM: real, current: Cell, mv: Move,
                 queue0: seq<Entry>, parent0: map<Cell, Cell>, costs0: map<Cell, real>,
                 ghost pb: Problem, ghost closed: set<Cell>)
    returns (queue: seq<Entry>, parent: map<Cell, Cell>, costs: map<Cell, real>)
    requires pb == EscapeProblem(hyp, meta, body, pb.start, pb.base, maxM) && current in costs0 && IsMove(mv)
    ensures Search(multiset(queue), parent, costs, closed)
         == Improve(pb, Search(multiset(queue0), parent0, costs0, closed), current, Shift(current, mv))
  {
    hide Legal, Diagonal, Weight, Improve, EscapeProblem;
    queue, parent, costs := queue0, parent0, costs0;
    var nxt := Shift(current, mv);
    ImproveIs(hyp, meta, body, maxM, pb, Search(multiset(queue0), parent0, costs0, closed), current, nxt);
    LegalMoveIff(body, current, mv);
    MoveWeight(hyp, meta, body, maxM, pb, current, mv);
    if !Inside(body, nxt) || nxt in body.blocked {
      return;
    }
    if mv.dr != 0 && mv.dc != 0
       && (Cell(current.row + mv.dr, current.col) in body.blocked || Cell(current.row, current.col + mv.dc) in body.blocked) {
      return;
    }
    var step := if mv.dr != 0 && mv.dc != 0 then hyp(1.0, 1.0) else 1.0;
    var newCost := costs[current] + step * meta.resolution;
    assert newCost == costs[current] + Weight(pb.t, current, nxt);
    if newCost <= maxM && (nxt !in costs || newCost < costs[nxt]) {
      costs := costs[nxt := newCost];
      parent := parent[nxt := current];
      queue := queue + [Entry(newCost, nxt)];
    }
  }

  method Expand(hyp: (real, real) -> real, meta: Meta, body: Mask, maxM: real, current: Cell,
                queue0: seq<Entry>, parent0: map<Cell, Cell>, costs0: map<Cell, real>,
                ghost pb: Problem, ghost closed: set<Cell>)
    returns (queue: seq<Entry>, parent: map<Cell, Cell>, costs: map<Cell, real>)
    requires pb == EscapeProblem(hyp, meta, body, pb.start, pb.base, maxM) && ValidProblem(pb)
    requires current in closed && current in costs0 && pb.start in closed
    requires Core(pb, Search(multiset(queue0), parent0, costs0, closed))
    requires Settled(pb, Search(multiset(queue0), parent0, costs0, closed), Some(current))
    ensures Inv(pb, Search(multiset(queue), parent, costs, closed))
  {
    hide *;
    queue, parent, costs := queue0, parent0, costs0;
    ghost var s := Search(multiset(queue), parent, costs, closed);
    for k := 0 to |MOVES|
      invariant s == Search(multiset(queue), parent, costs, closed) && current in costs
      invariant Core(pb, s) && Settled(pb, s, Some(current))
      invariant forall j :: 0 <= j < k ==> Relaxed(pb, s.g, current, Shift(current, MOVES[j]))
    {
      TableOfMoves(k);
      ImproveKeeps(pb, s, current, Shift(current, MOVES[k]));
      s := Improve(pb, s, current, Shift(current, MOVES[k]));
      queue, parent, costs := TryMove(hyp, meta, body, maxM, current, MOVES[k], queue, parent, costs, pb, closed);
    }
    ExpansionDone(pb, s, current);
  }

  method SearchLoop(hyp: (real, real) -> real, meta: Meta, blocked: Mask, body: Mask, cell: Cell, initial: real,
                    maxM: real, ghost pb: Problem)
    returns (path: Option<seq<Cell>>)
    requires pb == EscapeProblem(hyp, meta, body, cell, initial, maxM) && ValidProblem(pb)
    requires blocked.height == body.height && blocked.width == body.width
    ensures path.Some? ==> Nearest(pb, blocked, path.value)
    ensures path.None? ==> !exists c, p :: Exit(pb, blocked, c, p)
  {
    hide Inv, Core, Settled, Cheapest, ValidProblem, Leads, Nearest, Exit;
    var queue, parent, costs := [Entry(initial, cell)], map[], map[cell := initial];
    BeginInv(pb);
    ghost var s := Begin(pb);
    while queue != []
      invariant s == Search(multiset(queue), parent, costs, s.closed)
      invariant Inv(pb, s)
      invariant s.closed <= blocked.blocked
      decreases AllCells(body) - s.closed, |queue|
    {
      ClosedInside(pb, s);
      var top;
      top, queue := AStar.HeapPop(queue);
      var cost, current := top.f, top.cell;
      StaleByCost(pb, s, top);
      if cost > costs[current] || cost > maxM {
        DropStale(pb, s, top);
        s := Pop(s, top);
      } else {
        if current !in blocked.blocked {
          LeastIsCheapest(pb, s, top);
          var found := Backtrack(pb, parent, s, current);
          FirstFreeIsNearest(pb, s, top, blocked, found);
          return Some(found);
        }
        CloseLeast(pb, s, top);
        ghost var closed := s.closed + {current};
        queue, parent, costs := Expand(hyp, meta, body, maxM, current, queue, parent, costs, pb, closed);
        s := Search(multiset(queue), parent, costs, closed);
      }
    }
    DryMeansNone(pb, s, blocked);
    path := None;
  }

  /** Nothing to search for: the limit is not positive, the body itself does not fit where it stands, or it cannot
      reach the centre of its cell. */
  ghost predicate Stuck(meta: Meta, body: Mask, start: Point, maxM: real)
    requires meta.resolution > 0.0
  {
    || maxM <= 0.0
    || !Segment.WorldClear(meta, body, start, start)
    || !Segment.WorldClear(meta, body, start, ToWorld(meta, ToCell(meta, start)))
  }

  /** The points start at `start`, are joined by hops the body can make, and end planning-free. */
  ghost predicate Connector(meta: Meta, blocked: Mask, body: Mask, start: Point, points: seq<Point>)
    requires meta.resolution > 0.0
  {
    && points != [] && points[0] == start && HopsClear(meta, body, points)
    && Segment.WorldClear(meta, blocked, points[|points| - 1], points[|points| - 1])
  }

  /** The search result of `EscapeStart`: the nearest exit, or none because there is none within the limit. */
  ghost predicate Searched(meta: Meta, blocked: Mask, start: Point, pb: Problem, points: Option<seq<Point>>, path: seq<Cell>) {
    if points.Some? then Nearest(pb, blocked, path) && points.value == Dedupe([start] + Centres(meta, path))
    else pb.base > pb.limit.GetOr(pb.base) || !exists c, p :: Exit(pb, blocked, c, p)
  }

  method EscapeStart(hyp: (real, real) -> real, meta: Meta, blocked: Mask, body: Mask, start: Point, maxM: real)
    returns (points: Option<seq<Point>>, ghost path: seq<Cell>)
    requires IsHypot(hyp) && meta.resolution > 0.0
    requires blocked.height == body.height && blocked.width == body.width
    ensures points.Some? ==> Connector(meta, blocked, body, start, points.value)
    ensures (maxM > 0.0 && Segment.WorldClear(meta, body, start, start) && Segment.WorldClear(meta, blocked, start, start))
              ==> points == Some([start])
    ensures Stuck(meta, body, start, maxM) && !Segment.WorldClear(meta, blocked, start, start) ==> points.None?
    ensures !Stuck(meta, body, start, maxM) && !Segment.WorldClear(meta, blocked, start, start) ==>
              Searched(meta, blocked, start,
                       EscapeProblem(hyp, meta, body, ToCell(meta, start),
                                     Dist(hyp, start, ToWorld(meta, ToCell(meta, start))), maxM),
                       points, path)
  {
    hide Segment.WorldClear, HopsClear, Nearest, Exit, ToCell, ToWorld, Dist;
    path := [];
    if maxM <= 0.0 {
      return None, path;
    }
    var cell := ToCell(meta, start);
    var fits := Segment.SegmentClear(meta, body, start, start);
    if fits {
      ClearPointCell(meta, body, start, start);
    }
    if !Inside(body, cell) || !fits {
      return None, path;
    }
    var free := Segment.SegmentClear(meta, blocked, start, start);
    if free {
      SinglePoint(meta, body, start);
      return Some([start]), path;
    }
    var centre := ToWorld(meta, cell);
    var reaches := Segment.SegmentClear(meta, body, start, centre);
    if !reaches {
      return None, path;
    }
    var initial := Dist(hyp, start, centre);
    DistSign(hyp, start, centre);
    if initial > maxM {
      return None, path; // the only entry is dropped at the first pop
    }
    ghost var pb := EscapeProblem(hyp, meta, body, cell, initial, maxM);
    EscapeValid(hyp, meta, body, cell, initial, maxM);
    var found := SearchLoop(hyp, meta, blocked, body, cell, initial, maxM, pb);
    if found.None? {
      return None, path;
    }
    path := found.value;
    ConnectorClear(meta, blocked, body, start, path, pb);
    points := Some(Dedupe([start] + Centres(meta, found.value)));
  }

  lemma DistSign(hyp: (real, real) -> real, p: Point, q: Point)
    requires IsHypot(hyp)
    ensures Dist(hyp, p, q) >= 0.0
  {
  }

  lemma SinglePoint(meta: Meta, m: Mask, p: Point)
    requires meta.resolution > 0.0
    ensures HopsClear(meta, m, [p])
  {
  }

  lemma ConnectorClear(meta: Meta, blocked: Mask, body: Mask, start: Point, path: seq<Cell>, pb: Problem)
    requires meta.resolution > 0.0 && pb.t.mask == body && Nearest(pb, blocked, path)
    requires blocked.height == body.height && blocked.width == body.width
    requires pb.start == ToCell(meta, start) && Free(body, pb.start)
    requires Segment.WorldClear(meta, body, start, ToWorld(meta, pb.start))
    ensures Connector(meta, blocked, body, start, Dedupe([start] + Centres(meta, path)))
  {
    var cs := Centres(meta, path);
    RouteHopsClear(meta, body, path);
    var raw := [start] + cs;
    forall i | 0 < i < |raw|
      ensures Segment.WorldClear(meta, body, raw[i - 1], raw[i])
    {
      if i > 1 {
        assert raw[i - 1] == cs[i - 2] && raw[i] == cs[i - 1];
      }
    }
    DedupeHops(meta, body, raw);
    var end := path[|path| - 1];
    if |path| > 1 {
      assert Legal(body, path[|path| - 2], path[|path| - 2 + 1]);
    }
    CentreIsClear(meta, blocked, end);
  }
}

/** The planner's A*: eight directions, no corner cutting, traversal costs, Euclidean estimate. */
module AStar {
  import opened Geometry
  import opened Grid
  import opened Optional
  import opened BestFirst

  type Costs = Option<Cell -> real>

  function Extra(costs: Costs): Cell -> real {
    match costs
    case None => (c: Cell) => 0.0
    case Some(f) => f
  }

  ghost predicate NonNegative(costs: Costs) {
    costs.Some? ==> forall c :: costs.value(c) >= 0.0
  }

  function GridTerrain(hyp: (real, real) -> real, m: Mask, costs: Costs): Terrain {
    Terrain(m, 1.0, hyp(1.0, 1.0), Extra(costs))
  }

  function Estimate(hyp: (real, real) -> real, goal: Cell, c: Cell): real {
    hyp((goal.row - c.row) as real, (goal.col - c.col) as real)
  }

  function AStarProblem(hyp: (real, real) -> real, start: Cell, goal: Cell, m: Mask, costs: Costs): Problem {
    Problem(GridTerrain(hyp, m, costs), start, 0.0, 0.0, (c: Cell) => Estimate(hyp, goal, c), None)
  }

  /** What a step weighs, and so a route: its length times one plus the cost of the cell it leads to. */
  lemma RouteCost(hyp: (real, real) -> real, m: Mask, f: Cell -> real, p: seq<Cell>)
    requires |p| >= 2
    ensures var n := |p| - 1;
            var length := if Diagonal(p[n - 1], p[n]) then hyp(1.0, 1.0) else 1.0;
            && Cost(GridTerrain(hyp, m, Some(f)), p) == Cost(GridTerrain(hyp, m, Some(f)), p[..n]) + length * (1.0 + f(p[n]))
            && Cost(GridTerrain(hyp, m, None), p) == Cost(GridTerrain(hyp, m, None), p[..n]) + length
  {
    var n := |p| - 1;
    LastStep(GridTerrain(hyp, m, Some(f)), p);
    LastStep(GridTerrain(hyp, m, None), p);
    StepWeight(hyp, m, f, p[n - 1], p[n]);
    hide Weight, Cost, GridTerrain;
  }

  lemma LastStep(t: Terrain, p: seq<Cell>)
    requires |p| >= 2
    ensures var n := |p| - 1; Cost(t, p) == Cost(t, p[..n]) + Weight(t, p[n - 1], p[n])
  {
    hide Weight;
  }

  lemma StepWeight(hyp: (real, real) -> real, m: Mask, f: Cell -> real, u: Cell, v: Cell)
    ensures var length := if Diagonal(u, v) then hyp(1.0, 1.0) else 1.0;
            && Weight(GridTerrain(hyp, m, Some(f)), u, v) == length * (1.0 + f(v))
            && Weight(GridTerrain(hyp, m, None), u, v) == length
  {
    var length := if Diagonal(u, v) then hyp(1.0, 1.0) else 1.0;
    assert length * (1.0 + 0.0) == length;
  }

  lemma DiagonalLength(hyp: (real, real) -> real)
    requires IsHypot(hyp)
    ensures hyp(1.0, 1.0) >= 1.0 && hyp(1.0, 1.0) * hyp(1.0, 1.0) == 2.0
  {
    RootOrder(1.0, hyp(1.0, 1.0));
  }

  /** The length of a step to a neighbour is its Euclidean length. */
  lemma StepLength(hyp: (real, real) -> real, u: Cell, v: Cell)
    requires IsHypot(hyp) && Adjacent(u, v)
    ensures hyp((v.row - u.row) as real, (v.col - u.col) as real) == if Diagonal(u, v) then hyp(1.0, 1.0) else 1.0
  {
    var x, y := (v.row - u.row) as real, (v.col - u.col) as real;
    HypotSign(hyp, x, y);
    HypotAxis(hyp, 1.0);
  }

  /** The Euclidean estimate is consistent with the step costs, for any non-negative traversal costs. */
  lemma EstimateConsistent(hyp: (real, real) -> real, start: Cell, goal: Cell, m: Mask, costs: Costs)
    requires IsHypot(hyp) && NonNegative(costs)
    ensures Consistent(AStarProblem(hyp, start, goal, m, costs))
  {
    var pb := AStarProblem(hyp, start, goal, m, costs);
    forall u, v | Legal(m, u, v)
      ensures pb.h(u) <= Weight(pb.t, u, v) + pb.h(v)
    {
      StepLength(hyp, u, v);
      Triangle(hyp, (v.row - u.row) as real, (v.col - u.col) as real,
               (goal.row - v.row) as real, (goal.col - v.col) as real);
      var len := if Diagonal(u, v) then hyp(1.0, 1.0) else 1.0;
      assert len * pb.t.extra(v) >= 0.0;
      assert Weight(pb.t, u, v) == len * (1.0 + pb.t.extra(v)) == len + len * pb.t.extra(v);
    }
  }

  /** Tuple order of the heap. */
  predicate Before(a: Entry, b: Entry) {
    || a.f < b.f
    || (a.f == b.f && a.cell.row < b.cell.row)
    || (a.f == b.f && a.cell.row == b.cell.row && a.cell.col < b.cell.col)
  }

  /** `heapq.heappop`: remove a least entry. */
  method HeapPop(open: seq<Entry>) returns (top: Entry, rest: seq<Entry>)
    requires open != []
    ensures top in multiset(open) && multiset(rest) == multiset(open) - multiset{top}
    ensures forall e :: e in multiset(open) ==> !Before(e, top) && top.f <= e.f
    ensures |rest| == |open| - 1
  {
    var best := 0;
    for i := 1 to |open|
      invariant 0 <= best < |open|
      invariant forall j :: 0 <= j < i ==> !Before(open[j], open[best])
    {
      if Before(open[i], open[best]) {
        best := i;
      }
    }
    top := open[best];
    rest := open[..best] + open[best + 1..];
    WithoutOne(open, best);
    forall e | e in multiset(open)
      ensures !Before(e, top) && top.f <= e.f
    {
      assert e in open;
    }
    hide Before;
  }

  lemma WithoutOne(s: seq<Entry>, i: nat)
    requires i < |s|
    ensures multiset(s[..i] + s[i + 1..]) == multiset(s) - multiset{s[i]}
  {
    assert s == s[..i] + [s[i]] + s[i + 1..];
  }

  lemma MoveWeight(hyp: (real, real) -> real, m: Mask, costs: Costs, u: Cell, mv: Move)
    requires IsMove(mv)
    ensures var length := if mv.dr != 0 && mv.dc != 0 then hyp(1.0, 1.0) else 1.0;
            Weight(GridTerrain(hyp, m, costs), u, Shift(u, mv)) == length * (1.0 + Extra(costs)(Shift(u, mv)))
  {
    LegalMoveIff(m, u, mv);
  }

  /** The abstract relaxation for this problem. */
  lemma ImproveIs(hyp: (real, real) -> real, goal: Cell, m: Mask, costs: Costs, pb: Problem, s: Search, u: Cell, v: Cell)
    requires pb == AStarProblem(hyp, pb.start, goal, m, costs) && u in s.g
    ensures var x := s.g[u] + Weight(GridTerrain(hyp, m, costs), u, v);
            Improve(pb, s, u, v)
            == if Legal(m, u, v) && (v in s.g ==> x < s.g[v]) then
                 Search(s.open + multiset{Entry(x + Estimate(hyp, goal, v), v)}, s.came[v := u], s.g[v := x], s.closed)
               else s
  {
    hide Legal, Weight, Estimate;
  }

  /** Try one move out of an expanded cell. */
  method TryMove(hyp: (real, real) -> real, goal: Cell, blocked: Mask, costs: Costs, current: Cell, mv: Move,
                 open0: seq<Entry>, came0: map<Cell, Cell>, g0: map<Cell, real>,
                 ghost pb: Problem, ghost closed: set<Cell>)
    returns (open: seq<Entry>, came: map<Cell, Cell>, g: map<Cell, real>)
    requires pb == AStarProblem(hyp, pb.start, goal, blocked, costs)
    requires goal !in blocked.blocked && current in g0 && IsMove(mv)
    ensures Search(multiset(open), came, g, closed)
         == Improve(pb, Search(multiset(open0), came0, g0, closed), current, Shift(current, mv))
  {
    hide IsHypot, Estimate, Legal, Diagonal, Weight, Improve, AStarProblem;
    open, came, g := open0, came0, g0;
    var neighbour := Shift(current, mv);
    ImproveIs(hyp, goal, blocked, costs, pb, Search(multiset(open0), came0, g0, closed), current, neighbour);
    LegalMoveIff(blocked, current, mv);
    MoveWeight(hyp, blocked, costs, current, mv);
    if !Inside(blocked, neighbour) {
      return;
    }
    if neighbour in blocked.blocked && neighbour != goal {
      return;
    }
    if mv.dr != 0 && mv.dc != 0 {
      var sideA, sideB := Cell(current.row + mv.dr, current.col), Cell(current.row, current.col + mv.dc);
      if sideA in blocked.blocked || sideB in blocked.blocked {
        return;
      }
    }
    var length := if mv.dr != 0 && mv.dc != 0 then hyp(1.0, 1.0) else 1.0;
    var tentative := g[current] + length * (1.0 + Extra(costs)(neighbour));
    assert tentative == g[current] + Weight(GridTerrain(hyp, blocked, costs), current, neighbour);
    if neighbour !in g || tentative < g[neighbour] {
      g := g[neighbour := tentative];
      came := came[neighbour := current];
      var entry := Entry(tentative + Estimate(hyp, goal, neighbour), neighbour);
      open := open + [entry];
      assert multiset(open) == multiset(open0) + multiset{entry};
    }
  }

  /** Try the eight moves out of a freshly expanded cell. */
  method Expand(hyp: (real, real) -> real, goal: Cell, blocked: Mask, costs: Costs, current: Cell,
                open0: seq<Entry>, came0: map<Cell, Cell>, g0: map<Cell, real>,
                ghost pb: Problem, ghost closed: set<Cell>)
    returns (open: seq<Entry>, came: map<Cell, Cell>, g: map<Cell, real>)
    requires pb == AStarProblem(hyp, pb.start, goal, blocked, costs) && ValidProblem(pb)
    requires goal !in blocked.blocked && current in closed && current in g0 && pb.start in closed
    requires Core(pb, Search(multiset(open0), came0, g0, closed))
    requires Settled(pb, Search(multiset(open0), came0, g0, closed), Some(current))
    ensures Inv(pb, Search(multiset(open), came, g, closed))
  {
    hide *;
    open, came, g := open0, came0, g0;
    ghost var s := Search(multiset(open), came, g, closed);
    for k := 0 to |MOVES|
      invariant s == Search(multiset(open), came, g, closed) && current in g
      invariant Core(pb, s) && Settled(pb, s, Some(current))
      invariant forall j :: 0 <= j < k ==> Relaxed(pb, s.g, current, Shift(current, MOVES[j]))
    {
      TableOfMoves(k);
      ImproveKeeps(pb, s, current, Shift(current, MOVES[k]));
      s := Improve(pb, s, current, Shift(current, MOVES[k]));
      open, came, g := TryMove(hyp, goal, blocked, costs, current, MOVES[k], open, came, g, pb, closed);
    }
    ExpansionDone(pb, s, current);
  }

  lemma ProblemValid(hyp: (real, real) -> real, start: Cell, goal: Cell, m: Mask, costs: Costs)
    requires IsHypot(hyp) && NonNegative(costs) && Inside(m, start)
    ensures ValidProblem(AStarProblem(hyp, start, goal, m, costs))
  {
    DiagonalLength(hyp);
    EstimateConsistent(hyp, start, goal, m, costs);
  }

  lemma CheapestRoute(pb: Problem, goal: Cell, p: seq<Cell>)
    requires pb.limit.None? && pb.base == 0.0 && Cheapest(pb, goal, Cost(pb.t, p))
    requires Inside(pb.t.mask, pb.start) && Free(pb.t.mask, goal) && Leads(pb.t.mask, pb.start, goal, p)
    ensures Route(pb.t.mask, pb.start, goal, p)
    ensures forall q :: Route(pb.t.mask, pb.start, goal, q) ==> Cost(pb.t, p) <= Cost(pb.t, q)
  {
    forall q | Route(pb.t.mask, pb.start, goal, q)
      ensures Cost(pb.t, p) <= Cost(pb.t, q)
    {
      assert Leads(pb.t.mask, pb.start, goal, q);
    }
  }

  lemma NoRoute(pb: Problem, s: Search, goal: Cell)
    requires ValidProblem(pb) && Inv(pb, s) && s.open == multiset{} && pb.limit.None? && goal !in s.closed
    ensures !exists q :: Route(pb.t.mask, pb.start, goal, q)
  {
    forall q | Route(pb.t.mask, pb.start, goal, q)
      ensures false
    {
      ExhaustedReach(pb, s, goal, q);
    }
  }

  /** The search loop; `path` is None when the heap runs dry. */
  method SearchLoop(hyp: (real, real) -> real, start: Cell, goal: Cell, blocked: Mask, costs: Costs, ghost pb: Problem)
    returns (path: Option<seq<Cell>>, ghost s: Search)
    requires pb == AStarProblem(hyp, start, goal, blocked, costs) && ValidProblem(pb) && Free(blocked, goal)
    ensures path.Some? ==> Leads(blocked, pb.start, goal, path.value) && Cheapest(pb, goal, Cost(pb.t, path.value))
    ensures path.None? ==> Inv(pb, s) && s.open == multiset{} && goal !in s.closed
  {
    hide Inv, Core, Settled, Cheapest, ValidProblem, Leads;
    var open, came, g := [Entry(0.0, start)], map[], map[start := 0.0];
    var closed: set<Cell> := {};
    BeginInv(pb);
    s := Begin(pb);
    while open != []
      invariant s == Search(multiset(open), came, g, closed)
      invariant Inv(pb, s)
      invariant goal !in closed
      decreases AllCells(blocked) - closed, |open|
    {
      ClosedInside(pb, s);
      var top;
      top, open := HeapPop(open);
      var current := top.cell;
      if current == goal {
        LeastIsCheapest(pb, s, top);
        var p := Backtrack(pb, came, s, current);
        return Some(p), s;
      }
      if current in closed {
        DropStale(pb, s, top);
        s := Pop(s, top);
      } else {
        CloseLeast(pb, s, top);
        closed := closed + {current};
        open, came, g := Expand(hyp, goal, blocked, costs, current, open, came, g, pb, closed);
        s := Search(multiset(open), came, g, closed);
      }
    }
    path := None;
  }

  /** The search: a cheapest legal route, or None exactly when there is no legal route at all. */
  method AStar(hyp: (real, real) -> real, start: Cell, goal: Cell, blocked: Mask, costs: Costs)
    returns (path: Option<seq<Cell>>)
    requires IsHypot(hyp) && NonNegative(costs)
    ensures path.Some? ==> Route(blocked, start, goal, path.value)
    ensures path.Some? ==> forall q :: Route(blocked, start, goal, q) ==>
              Cost(GridTerrain(hyp, blocked, costs), path.value) <= Cost(GridTerrain(hyp, blocked, costs), q)
    ensures path.None? <==> !exists q :: Route(blocked, start, goal, q)
  {
    if !Free(blocked, goal) || !Inside(blocked, start) {
      return None;
    }
    ghost var pb := AStarProblem(hyp, start, goal, blocked, costs);
    ProblemValid(hyp, start, goal, blocked, costs);
    ghost var s;
    path, s := SearchLoop(hyp, start, goal, blocked, costs, pb);
    if path.Some? {
      CheapestRoute(pb, goal, path.value);
    } else {
      NoRoute(pb, s, goal);
    }
  }
}

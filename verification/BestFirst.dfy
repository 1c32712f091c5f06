/** Best-first search with lazy deletion, the common core of the planner's A* and of its bounded Dijkstra escape.
    The search state is a heap of (estimate, cell), a parent map, a best-known-cost map and the expanded cells. */
module BestFirst {
  import opened Grid
  import opened Optional

  datatype Entry = Entry(f: real, cell: Cell)

  /** `base` is the cost already spent at the start, `f0` the estimate it is queued with; no route dearer than
      `limit` is of interest. */
  datatype Problem = Problem(t: Terrain, start: Cell, base: real, f0: real, h: Cell -> real, limit: Option<real>)

  datatype Search = Search(open: multiset<Entry>, came: map<Cell, Cell>, g: map<Cell, real>, closed: set<Cell>)

  predicate Within(pb: Problem, x: real) {
    pb.limit.None? || x <= pb.limit.value
  }

  /** The estimate never drops by more than a step costs. */
  ghost predicate Consistent(pb: Problem) {
    forall u, v :: Legal(pb.t.mask, u, v) ==> pb.h(u) <= Weight(pb.t, u, v) + pb.h(v)
  }

  ghost predicate ValidProblem(pb: Problem) {
    ValidTerrain(pb.t) && Inside(pb.t.mask, pb.start) && pb.base >= 0.0 && Within(pb, pb.base) && Consistent(pb)
  }

  function Key(pb: Problem, g: map<Cell, real>, c: Cell): real
    requires c in g
  {
    if c == pb.start then pb.f0 else g[c] + pb.h(c)
  }

  /** No legal chain from the start to `c` is cheaper than `x`. */
  ghost predicate Cheapest(pb: Problem, c: Cell, x: real) {
    forall p :: Leads(pb.t.mask, pb.start, c, p) && Within(pb, pb.base + Cost(pb.t, p)) ==> x <= pb.base + Cost(pb.t, p)
  }

  /** The step `u` to `v` has been taken into account. */
  predicate Relaxed(pb: Problem, g: map<Cell, real>, u: Cell, v: Cell) {
    u in g && Legal(pb.t.mask, u, v) && Within(pb, g[u] + Weight(pb.t, u, v)) ==> v in g && g[v] <= g[u] + Weight(pb.t, u, v)
  }

  ghost predicate Parents(pb: Problem, s: Search) {
    && s.g.Keys == s.came.Keys + {pb.start}
    && pb.start !in s.came && s.g[pb.start] == pb.base
    && (forall c :: c in s.g ==> s.g[c] >= pb.base)
    && forall c :: c in s.came ==>
         && s.came[c] in s.closed && s.came[c] in s.g
         && Legal(pb.t.mask, s.came[c], c)
         && s.g[c] == s.g[s.came[c]] + Weight(pb.t, s.came[c], c)
  }

  /** Every queued entry is at or above the key of its cell; an unexpanded cell has exactly one entry at its key,
      an expanded one none. */
  ghost predicate Queued(pb: Problem, s: Search) {
    && (forall e :: e in s.open ==> e.cell in s.g && Key(pb, s.g, e.cell) <= e.f)
    && (forall c :: c in s.g ==> s.open[Entry(Key(pb, s.g, c), c)] == if c in s.closed then 0 else 1)
    && (pb.start !in s.closed ==> s.g.Keys == {pb.start})
  }

  ghost predicate Core(pb: Problem, s: Search) {
    && s.closed <= s.g.Keys
    && Parents(pb, s)
    && Queued(pb, s)
    && (forall c :: c in s.g ==> Inside(pb.t.mask, c) && Within(pb, s.g[c]))
    && (forall c :: c in s.closed ==> Cheapest(pb, c, s.g[c]))
  }

  /** All steps out of expanded cells, except possibly those out of `busy`, are accounted for. */
  ghost predicate Settled(pb: Problem, s: Search, busy: Option<Cell>) {
    forall u, v :: u in s.closed && busy != Some(u) ==> Relaxed(pb, s.g, u, v)
  }

  ghost predicate Inv(pb: Problem, s: Search) {
    Core(pb, s) && Settled(pb, s, None)
  }

  function Begin(pb: Problem): Search {
    Search(multiset{Entry(pb.f0, pb.start)}, map[], map[pb.start := pb.base], {})
  }

  lemma BeginInv(pb: Problem)
    requires ValidProblem(pb)
    ensures Inv(pb, Begin(pb))
  {
  }

  /** How many whole units fit below a cost: the measure by which walking back to the start terminates. */
  function Units(x: real, unit: real): nat
    requires x >= 0.0 && unit > 0.0
  {
    assert x / unit >= 0.0;
    (x / unit).Floor
  }

  lemma LessTimes(a: real, b: real, unit: real)
    requires unit > 0.0 && a < b
    ensures a * unit < b * unit
  {
  }

  lemma UnitsDrop(y: real, x: real, unit: real)
    requires unit > 0.0 && y >= 0.0 && y + unit <= x
    ensures Units(y, unit) < Units(x, unit)
  {
    var a, b := x / unit, y / unit;
    assert a * unit == x && b * unit == y;
    if b + 1.0 > a {
      LessTimes(a, b + 1.0, unit);
    }
  }

  /** The parent map spells out a legal chain whose cost is the recorded one. */
  lemma {:induction false} ParentChain(pb: Problem, s: Search, c: Cell) returns (p: seq<Cell>)
    requires ValidProblem(pb) && Parents(pb, s) && c in s.g
    ensures Leads(pb.t.mask, pb.start, c, p) && pb.base + Cost(pb.t, p) == s.g[c]
    decreases Units(s.g[c], pb.t.unit)
  {
    if c == pb.start {
      p := [c];
    } else {
      var u := s.came[c];
      WeightPositive(pb.t, u, c);
      UnitsDrop(s.g[u], s.g[c], pb.t.unit);
      var q := ParentChain(pb, s, u);
      p := q + [c];
      LeadsExtend(pb.t.mask, pb.start, u, q, c);
      CostExtend(pb.t, q, c);
    }
  }

  /** Along a chain the estimate at any cell is at most the rest of the way plus the estimate at the end. */
  lemma {:induction false} EstimateBound(pb: Problem, p: seq<Cell>, i: nat)
    requires Consistent(pb) && Chain(pb.t.mask, p) && i < |p|
    ensures pb.h(p[i]) + Cost(pb.t, p[..i + 1]) <= Cost(pb.t, p) + pb.h(p[|p| - 1])
    decreases |p|
  {
    if i == |p| - 1 {
      assert p[..i + 1] == p;
    } else {
      var q := p[..|p| - 1];
      LeadsPrefix(pb.t.mask, p[0], p[|p| - 1], p, |p| - 2);
      EstimateBound(pb, q, i);
      assert q[..i + 1] == p[..i + 1];
      assert Legal(pb.t.mask, p[|p| - 2], p[|p| - 2 + 1]);
    }
  }

  /** Follow any admissible chain to an unexpanded cell: somewhere on it sits a queued cell whose key does not
      exceed the cost of the whole chain plus the estimate at its end. */
  lemma FrontierKey(pb: Problem, s: Search, c: Cell, p: seq<Cell>) returns (x: Cell)
    requires ValidProblem(pb) && Inv(pb, s) && pb.start in s.closed && c !in s.closed
    requires Leads(pb.t.mask, pb.start, c, p) && Within(pb, pb.base + Cost(pb.t, p))
    ensures x in s.g && x !in s.closed && Entry(Key(pb, s.g, x), x) in s.open
    ensures Key(pb, s.g, x) <= pb.base + Cost(pb.t, p) + pb.h(c)
  {
    var i := Crossing(p, s.closed);
    var u, v := p[i], p[i + 1];
    x := v;
    LeadsPrefix(pb.t.mask, pb.start, c, p, i);
    CostPrefix(pb.t, p, i);
    CostPrefix(pb.t, p, i + 1);
    assert Cheapest(pb, u, s.g[u]);
    assert p[..i + 2] == p[..i + 1] + [v];
    CostExtend(pb.t, p[..i + 1], v);
    assert Legal(pb.t.mask, u, v);
    assert Relaxed(pb, s.g, u, v);
    EstimateBound(pb, p, i + 1);
  }

  /** The least queued entry, if its cell is unexpanded, carries the true cost of that cell. */
  lemma LeastIsCheapest(pb: Problem, s: Search, top: Entry)
    requires ValidProblem(pb) && Inv(pb, s)
    requires top in s.open && (forall e :: e in s.open ==> top.f <= e.f) && top.cell !in s.closed
    ensures top.cell in s.g && top.f == Key(pb, s.g, top.cell)
    ensures Parents(pb, s) && Cheapest(pb, top.cell, s.g[top.cell])
  {
    var c := top.cell;
    assert Entry(Key(pb, s.g, c), c) in s.open;
    forall p | Leads(pb.t.mask, pb.start, c, p) && Within(pb, pb.base + Cost(pb.t, p))
      ensures s.g[c] <= pb.base + Cost(pb.t, p)
    {
      CostPrefix(pb.t, p, 0);
      if pb.start in s.closed {
        var x := FrontierKey(pb, s, c, p);
      }
    }
  }

  /** Nothing queued: every admissible chain ends in an expanded cell. */
  lemma ExhaustedReach(pb: Problem, s: Search, c: Cell, p: seq<Cell>)
    requires ValidProblem(pb) && Inv(pb, s) && s.open == multiset{}
    requires Leads(pb.t.mask, pb.start, c, p) && Within(pb, pb.base + Cost(pb.t, p))
    ensures c in s.closed
  {
    assert pb.start in s.closed by {
      assert s.open[Entry(Key(pb, s.g, pb.start), pb.start)] == 0;
    }
    if c !in s.closed {
      var x := FrontierKey(pb, s, c, p);
    }
  }

  lemma ClosedInside(pb: Problem, s: Search)
    requires Inv(pb, s)
    ensures s.closed <= AllCells(pb.t.mask) && forall c :: c in s.g ==> c in AllCells(pb.t.mask)
  {
  }

  // ----- one expansion -----

  function Pop(s: Search, top: Entry): Search {
    s.(open := s.open - multiset{top})
  }

  function Close(s: Search, c: Cell): Search {
    s.(closed := s.closed + {c})
  }

  /** A stale entry of an expanded cell may be dropped. */
  lemma DropStale(pb: Problem, s: Search, top: Entry)
    requires Inv(pb, s) && top in s.open && top.cell in s.closed
    ensures Inv(pb, Pop(s, top))
  {
    var s' := Pop(s, top);
    assert forall e :: e in s'.open ==> e in s.open;
    forall c | c in s.g
      ensures s'.open[Entry(Key(pb, s.g, c), c)] == if c in s.closed then 0 else 1
    {
    }
  }

  lemma CloseLeast(pb: Problem, s: Search, top: Entry)
    requires ValidProblem(pb) && Inv(pb, s)
    requires top in s.open && (forall e :: e in s.open ==> top.f <= e.f) && top.cell !in s.closed
    ensures var s' := Close(Pop(s, top), top.cell);
            top.cell in s'.g && Core(pb, s') && Settled(pb, s', Some(top.cell)) && pb.start in s'.closed
  {
    LeastIsCheapest(pb, s, top);
    QueuedWhenClosed(pb, s, top);
    SettledWhenClosed(pb, s, top);
    CheapestWhenClosed(pb, s, top);
    hide Queued, Cheapest, Settled, Relaxed, Within, Consistent;
  }

  lemma SettledWhenClosed(pb: Problem, s: Search, top: Entry)
    requires Settled(pb, s, None)
    ensures Settled(pb, Close(Pop(s, top), top.cell), Some(top.cell))
  {
    hide Relaxed;
  }

  lemma CheapestWhenClosed(pb: Problem, s: Search, top: Entry)
    requires Core(pb, s) && top.cell in s.g && Cheapest(pb, top.cell, s.g[top.cell])
    ensures var s' := Close(Pop(s, top), top.cell);
            s'.closed <= s'.g.Keys && forall c :: c in s'.closed ==> Cheapest(pb, c, s'.g[c])
  {
    hide Cheapest, Queued, Parents, Within;
  }

  lemma QueuedWhenClosed(pb: Problem, s: Search, top: Entry)
    requires Parents(pb, s) && Queued(pb, s) && top in s.open && top.cell !in s.closed && top.f == Key(pb, s.g, top.cell)
    ensures Queued(pb, Close(Pop(s, top), top.cell)) && pb.start in Close(Pop(s, top), top.cell).closed
  {
    var s' := Close(Pop(s, top), top.cell);
    assert forall e :: e in s'.open ==> e in s.open;
  }

  function Improve(pb: Problem, s: Search, u: Cell, v: Cell): Search
    requires u in s.g
  {
    if Improves(pb, s, u, v) then Improved(pb, s, u, v) else s
  }

  /** Reaching `v` through `u` beats everything known so far. */
  predicate Improves(pb: Problem, s: Search, u: Cell, v: Cell)
    requires u in s.g
  {
    var x := s.g[u] + Weight(pb.t, u, v);
    Legal(pb.t.mask, u, v) && Within(pb, x) && (v in s.g ==> x < s.g[v])
  }

  function Improved(pb: Problem, s: Search, u: Cell, v: Cell): Search
    requires u in s.g
  {
    var x := s.g[u] + Weight(pb.t, u, v);
    Search(s.open + multiset{Entry(x + pb.h(v), v)}, s.came[v := u], s.g[v := x], s.closed)
  }

  /** An expanded cell is never improved again. */
  lemma ClosedStays(pb: Problem, s: Search, u: Cell, v: Cell)
    requires ValidProblem(pb) && Core(pb, s) && u in s.closed && v in s.closed
    requires Legal(pb.t.mask, u, v) && Within(pb, s.g[u] + Weight(pb.t, u, v))
    ensures s.g[v] <= s.g[u] + Weight(pb.t, u, v)
  {
    var p := ParentChain(pb, s, u);
    LeadsExtend(pb.t.mask, pb.start, u, p, v);
    CostExtend(pb.t, p, v);
    assert Cheapest(pb, v, s.g[v]);
  }

  lemma OnlyOpenImproves(pb: Problem, s: Search, u: Cell, v: Cell)
    requires ValidProblem(pb) && Core(pb, s) && u in s.closed && pb.start in s.closed && Improves(pb, s, u, v)
    ensures v !in s.closed && v != pb.start && u != v
  {
    if v in s.closed {
      ClosedStays(pb, s, u, v);
    }
  }

  lemma ImprovedQueue(pb: Problem, s: Search, u: Cell, v: Cell)
    requires Queued(pb, s) && s.closed <= s.g.Keys && u in s.closed && pb.start in s.closed
    requires v !in s.closed && v != pb.start && Improves(pb, s, u, v)
    ensures Queued(pb, Improved(pb, s, u, v))
  {
    var s' := Improved(pb, s, u, v);
    var added := Entry(s.g[u] + Weight(pb.t, u, v) + pb.h(v), v);
    assert s.open[added] == 0;
    forall c | c in s'.g
      ensures s'.open[Entry(Key(pb, s'.g, c), c)] == if c in s.closed then 0 else 1
    {
      if c != v {
        assert Key(pb, s'.g, c) == Key(pb, s.g, c);
      }
    }
    forall e | e in s'.open
      ensures e.cell in s'.g && Key(pb, s'.g, e.cell) <= e.f
    {
      if e != added {
        assert e in s.open;
      }
    }
  }

  lemma ImprovedParents(pb: Problem, s: Search, u: Cell, v: Cell)
    requires ValidTerrain(pb.t) && Parents(pb, s) && u in s.closed && u in s.g
    requires v !in s.closed && v != pb.start && Improves(pb, s, u, v)
    ensures Parents(pb, Improved(pb, s, u, v))
  {
    WeightPositive(pb.t, u, v);
  }

  lemma ImprovedSettled(pb: Problem, s: Search, u: Cell, v: Cell)
    requires s.closed <= s.g.Keys && Settled(pb, s, Some(u)) && u in s.closed
    requires v !in s.closed && Improves(pb, s, u, v)
    ensures Settled(pb, Improved(pb, s, u, v), Some(u))
  {
    var g' := Improved(pb, s, u, v).g;
    forall a, b | a in s.closed && Some(u) != Some(a)
      ensures Relaxed(pb, g', a, b)
    {
      assert Relaxed(pb, s.g, a, b);
    }
  }

  lemma ImprovedCore(pb: Problem, s: Search, u: Cell, v: Cell)
    requires ValidProblem(pb) && Core(pb, s) && u in s.closed && pb.start in s.closed && Improves(pb, s, u, v)
    ensures Core(pb, Improved(pb, s, u, v))
  {
    OnlyOpenImproves(pb, s, u, v);
    ImprovedQueue(pb, s, u, v);
    ImprovedParents(pb, s, u, v);
    var s' := Improved(pb, s, u, v);
    assert forall c :: c in s.closed ==> s'.g[c] == s.g[c];
  }

  lemma ImprovedRelaxes(pb: Problem, s: Search, u: Cell, v: Cell, w: Cell)
    requires u in s.g && u != v && Improves(pb, s, u, v)
    requires w == v || Relaxed(pb, s.g, u, w)
    ensures Relaxed(pb, Improved(pb, s, u, v).g, u, w)
  {
  }

  /** Trying one step out of an expanded cell keeps the search invariants, accounts for that step and forgets none. */
  lemma ImproveKeeps(pb: Problem, s: Search, u: Cell, v: Cell)
    requires ValidProblem(pb) && Core(pb, s) && Settled(pb, s, Some(u))
    requires u in s.closed && u in s.g && pb.start in s.closed
    ensures var s' := Improve(pb, s, u, v);
            && s'.closed == s.closed && s.g.Keys <= s'.g.Keys
            && Core(pb, s') && Settled(pb, s', Some(u))
            && Relaxed(pb, s'.g, u, v)
            && forall w :: Relaxed(pb, s.g, u, w) ==> Relaxed(pb, s'.g, u, w)
  {
    if Improves(pb, s, u, v) {
      OnlyOpenImproves(pb, s, u, v);
      ImprovedCore(pb, s, u, v);
      ImprovedSettled(pb, s, u, v);
      ImprovedRelaxes(pb, s, u, v, v);
      forall w | Relaxed(pb, s.g, u, w)
        ensures Relaxed(pb, Improved(pb, s, u, v).g, u, w)
      {
        ImprovedRelaxes(pb, s, u, v, w);
      }
    }
  }

  /** Once every move out of `u` has been tried, nothing is left out. */
  lemma ExpansionDone(pb: Problem, s: Search, u: Cell)
    requires Core(pb, s) && Settled(pb, s, Some(u)) && u in s.closed
    requires forall k :: 0 <= k < |MOVES| ==> Relaxed(pb, s.g, u, Shift(u, MOVES[k]))
    ensures Inv(pb, s)
  {
    forall a, b | a in s.closed
      ensures Relaxed(pb, s.g, a, b)
    {
      if a == u && Legal(pb.t.mask, u, b) {
        var k := MovesAreNeighbours(u, b);
      }
    }
  }

  /** Follow the parent map from `c` back to the start (the program appends, then reverses). */
  method Backtrack(ghost pb: Problem, came: map<Cell, Cell>, ghost s: Search, c: Cell) returns (path: seq<Cell>)
    requires ValidProblem(pb) && Parents(pb, s) && c in s.g && came == s.came
    ensures Leads(pb.t.mask, pb.start, c, path) && pb.base + Cost(pb.t, path) == s.g[c]
  {
    path := [c];
    var current := c;
    while current in came
      invariant current in s.g
      invariant Leads(pb.t.mask, current, c, path)
      invariant s.g[current] + Cost(pb.t, path) == s.g[c]
      decreases Units(s.g[current], pb.t.unit)
    {
      ghost var below := current;
      current := came[current];
      LeadsPrepend(pb.t.mask, below, c, path, current);
      CostPrepend(pb.t, current, path);
      WeightPositive(pb.t, current, below);
      UnitsDrop(s.g[current], s.g[below], pb.t.unit);
      path := [current] + path;
    }
  }
}

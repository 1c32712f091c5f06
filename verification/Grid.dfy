/** The cell lattice of the planner: masks, the eight moves, legal steps and weighted routes. */
module Grid {

  import opened Optional

  datatype Cell = Cell(row: int, col: int)

  /** A boolean numpy array, held as its shape and its true cells. */
  datatype Mask = Mask(height: nat, width: nat, blocked: set<Cell>)

  predicate Inside(m: Mask, c: Cell) {
    0 <= c.row < m.height && 0 <= c.col < m.width
  }

  predicate Free(m: Mask, c: Cell) {
    Inside(m, c) && c !in m.blocked
  }

  function AllCells(m: Mask): (cells: set<Cell>)
    ensures forall c :: c in cells <==> Inside(m, c)
  {
    set r, c | 0 <= r < m.height && 0 <= c < m.width :: Cell(r, c)
  }

  /** One entry of the move table: offsets, and whether both are non-zero. */
  datatype Move = Move(dr: int, dc: int)

  const MOVES: seq<Move> := [
    Move(-1, 0), Move(1, 0), Move(0, -1), Move(0, 1),
    Move(-1, -1), Move(-1, 1), Move(1, -1), Move(1, 1)
  ]

  predicate IsMove(mv: Move) {
    -1 <= mv.dr <= 1 && -1 <= mv.dc <= 1 && (mv.dr != 0 || mv.dc != 0)
  }

  lemma TableOfMoves(k: nat)
    requires k < |MOVES|
    ensures IsMove(MOVES[k])
  {
  }

  function Shift(c: Cell, mv: Move): Cell {
    Cell(c.row + mv.dr, c.col + mv.dc)
  }

  predicate Adjacent(u: Cell, v: Cell) {
    u != v && -1 <= v.row - u.row <= 1 && -1 <= v.col - u.col <= 1
  }

  predicate Diagonal(u: Cell, v: Cell) {
    u.row != v.row && u.col != v.col
  }

  /** A step the robot body may take: to a free neighbour, and never diagonally past a blocked side cell. */
  predicate Legal(m: Mask, u: Cell, v: Cell) {
    && Adjacent(u, v)
    && Free(m, v)
    && (Diagonal(u, v) ==> Cell(v.row, u.col) !in m.blocked && Cell(u.row, v.col) !in m.blocked)
  }

  /** What the searches test, move by move. */
  lemma LegalMoveIff(m: Mask, u: Cell, mv: Move)
    requires IsMove(mv)
    ensures Legal(m, u, Shift(u, mv)) <==>
              && Inside(m, Shift(u, mv)) && Shift(u, mv) !in m.blocked
              && (mv.dr != 0 && mv.dc != 0 ==>
                    Cell(u.row + mv.dr, u.col) !in m.blocked && Cell(u.row, u.col + mv.dc) !in m.blocked)
    ensures Diagonal(u, Shift(u, mv)) <==> mv.dr != 0 && mv.dc != 0
  {
    assert Adjacent(u, Shift(u, mv));
  }

  /** The move table lists exactly the neighbours. */
  lemma MovesAreNeighbours(u: Cell, v: Cell) returns (k: nat)
    requires Adjacent(u, v)
    ensures k < |MOVES| && Shift(u, MOVES[k]) == v
  {
    var mv := Move(v.row - u.row, v.col - u.col);
    if mv == MOVES[0] { k := 0; }
    else if mv == MOVES[1] { k := 1; }
    else if mv == MOVES[2] { k := 2; }
    else if mv == MOVES[3] { k := 3; }
    else if mv == MOVES[4] { k := 4; }
    else if mv == MOVES[5] { k := 5; }
    else if mv == MOVES[6] { k := 6; }
    else { k := 7; }
  }

  // ----- routes -----

  ghost predicate Chain(m: Mask, p: seq<Cell>) {
    |p| >= 1 && forall i :: 0 <= i < |p| - 1 ==> Legal(m, p[i], p[i + 1])
  }

  /** `p` leads from `a` to `b` by legal steps. */
  ghost predicate Leads(m: Mask, a: Cell, b: Cell, p: seq<Cell>) {
    Chain(m, p) && p[0] == a && p[|p| - 1] == b
  }

  /** What a planner may return: a legal chain between two cells of the grid whose goal is free. */
  ghost predicate Route(m: Mask, start: Cell, goal: Cell, p: seq<Cell>) {
    Inside(m, start) && Free(m, goal) && Leads(m, start, goal, p)
  }

  lemma LeadsExtend(m: Mask, a: Cell, b: Cell, p: seq<Cell>, c: Cell)
    requires Leads(m, a, b, p) && Legal(m, b, c)
    ensures Leads(m, a, c, p + [c])
  {
    var q := p + [c];
    forall i | 0 <= i < |q| - 1
      ensures Legal(m, q[i], q[i + 1])
    {
      if i < |p| - 1 {
        assert q[i] == p[i] && q[i + 1] == p[i + 1];
      }
    }
  }

  lemma LeadsPrepend(m: Mask, a: Cell, b: Cell, p: seq<Cell>, c: Cell)
    requires Leads(m, a, b, p) && Legal(m, c, a)
    ensures Leads(m, c, b, [c] + p)
  {
    var q := [c] + p;
    forall i | 0 <= i < |q| - 1
      ensures Legal(m, q[i], q[i + 1])
    {
      if i > 0 {
        assert Legal(m, p[i - 1], p[i - 1 + 1]);
      }
    }
  }

  lemma LeadsPrefix(m: Mask, a: Cell, b: Cell, p: seq<Cell>, i: nat)
    requires Leads(m, a, b, p) && i < |p|
    ensures Leads(m, a, p[i], p[..i + 1])
  {
  }

  /** A route that starts in a set and ends outside it crosses out of the set at some step. */
  lemma {:induction false} Crossing(p: seq<Cell>, s: set<Cell>) returns (i: nat)
    requires |p| >= 1 && p[0] in s && p[|p| - 1] !in s
    ensures i + 1 < |p| && p[i] in s && p[i + 1] !in s
  {
    i := 0;
    while p[i + 1] in s
      invariant i + 1 < |p| && p[i] in s
      decreases |p| - i
    {
      i := i + 1;
    }
  }

  // ----- weights -----

  /** What a step costs: its length (`unit` along an axis, `unit * diag` on a diagonal), raised by the
      traversal cost of the cell it enters. */
  datatype Terrain = Terrain(mask: Mask, unit: real, diag: real, extra: Cell -> real)

  ghost predicate ValidTerrain(t: Terrain) {
    t.unit > 0.0 && t.diag >= 1.0 && forall c :: t.extra(c) >= 0.0
  }

  function Weight(t: Terrain, u: Cell, v: Cell): real {
    t.unit * (if Diagonal(u, v) then t.diag else 1.0) * (1.0 + t.extra(v))
  }

  function Cost(t: Terrain, p: seq<Cell>): real {
    if |p| <= 1 then 0.0
    else Cost(t, p[..|p| - 1]) + Weight(t, p[|p| - 2], p[|p| - 1])
  }

  lemma WeightPositive(t: Terrain, u: Cell, v: Cell)
    requires ValidTerrain(t)
    ensures Weight(t, u, v) >= t.unit
  {
    var len := if Diagonal(u, v) then t.diag else 1.0;
    var e := t.extra(v);
    assert len * (1.0 + e) >= 1.0 by {
      assert len * e >= 0.0;
    }
    var k := len * (1.0 + e);
    assert Weight(t, u, v) == t.unit * k;
    assert t.unit * (k - 1.0) >= 0.0;
  }

  lemma CostExtend(t: Terrain, p: seq<Cell>, c: Cell)
    requires |p| >= 1
    ensures Cost(t, p + [c]) == Cost(t, p) + Weight(t, p[|p| - 1], c)
  {
    assert (p + [c])[..|p|] == p;
  }

  lemma {:induction false} CostPrepend(t: Terrain, c: Cell, p: seq<Cell>)
    requires |p| >= 1
    ensures Cost(t, [c] + p) == Weight(t, c, p[0]) + Cost(t, p)
  {
    if |p| == 1 {
      CostExtend(t, [c], p[0]);
      assert [c] + p == [c] + [p[0]];
    } else {
      var q := p[..|p| - 1];
      CostPrepend(t, c, q);
      assert ([c] + p)[..|p|] == [c] + q;
    }
  }

  lemma {:induction false} CostPrefix(t: Terrain, p: seq<Cell>, i: nat)
    requires ValidTerrain(t) && i < |p|
    ensures 0.0 <= Cost(t, p[..i + 1]) <= Cost(t, p)
  {
    if i == |p| - 1 {
      assert p[..i + 1] == p;
      if |p| > 1 {
        CostPrefix(t, p[..|p| - 1], 0);
        WeightPositive(t, p[|p| - 2], p[|p| - 1]);
      }
    } else {
      CostPrefix(t, p[..|p| - 1], i);
      assert p[..|p| - 1][..i + 1] == p[..i + 1];
      WeightPositive(t, p[|p| - 2], p[|p| - 1]);
    }
  }
}

/** The planner's breadth-first reachability mask, and its agreement with A*. */
module Reach {
  import opened Grid
  import opened Geometry
  import AStar

  /** Some legal route leads from the (free) start to `c`. */
  ghost predicate Reachable(m: Mask, start: Cell, c: Cell) {
    Free(m, start) && exists p :: Route(m, start, c, p)
  }

  lemma ReachableStart(m: Mask, start: Cell)
    requires Free(m, start)
    ensures Reachable(m, start, start)
  {
    assert Route(m, start, start, [start]);
  }

  lemma ReachableStep(m: Mask, start: Cell, u: Cell, v: Cell)
    requires Reachable(m, start, u) && Legal(m, u, v)
    ensures Reachable(m, start, v)
  {
    var p :| Route(m, start, u, p);
    LeadsExtend(m, start, u, p, v);
    assert Route(m, start, v, p + [v]);
  }

  /** A set that holds the start and is closed under legal steps holds everything reachable. */
  lemma ClosedHoldsAll(m: Mask, start: Cell, s: set<Cell>, c: Cell)
    requires start in s && (forall u, v :: u in s && Legal(m, u, v) ==> v in s)
    requires Reachable(m, start, c)
    ensures c in s
  {
    var p :| Route(m, start, c, p);
    if c !in s {
      var i := Crossing(p, s);
    }
  }

  /** The seen array and the set of its true cells. */
  ghost predicate Marks(seen: array2<bool>, s: set<Cell>)
    reads seen
  {
    forall c :: c in s <==> 0 <= c.row < seen.Length0 && 0 <= c.col < seen.Length1 && seen[c.row, c.col]
  }

  /** Look at one neighbour of `u`; mark and queue it if it is new. */
  method Look(blocked: Mask, u: Cell, mv: Move, seen: array2<bool>, queue0: seq<Cell>, ghost s0: set<Cell>)
    returns (queue: seq<Cell>, ghost s: set<Cell>)
    requires seen.Length0 == blocked.height && seen.Length1 == blocked.width && Marks(seen, s0) && IsMove(mv)
    modifies seen
    ensures Marks(seen, s) && s == if Legal(blocked, u, Shift(u, mv)) then s0 + {Shift(u, mv)} else s0
    ensures queue == if s == s0 then queue0 else queue0 + [Shift(u, mv)]
  {
    queue, s := queue0, s0;
    var v := Shift(u, mv);
    LegalMoveIff(blocked, u, mv);
    hide Legal;
    if !Inside(blocked, v) || seen[v.row, v.col] || v in blocked.blocked {
      return;
    }
    if mv.dr != 0 && mv.dc != 0
       && (Cell(u.row + mv.dr, u.col) in blocked.blocked || Cell(u.row, u.col + mv.dc) in blocked.blocked) {
      return;
    }
    seen[v.row, v.col] := true;
    s := s + {v};
    queue := queue + [v];
  }

  /** Look at the eight neighbours of `u`. */
  method Visit(blocked: Mask, u: Cell, seen: array2<bool>, queue0: seq<Cell>, ghost s0: set<Cell>)
    returns (queue: seq<Cell>, ghost s: set<Cell>)
    requires seen.Length0 == blocked.height && seen.Length1 == blocked.width && Marks(seen, s0)
    modifies seen
    ensures Marks(seen, s) && s0 <= s
    ensures forall v :: v in s <==> v in s0 || Legal(blocked, u, v)
    ensures queue0 <= queue && forall v :: v in s && v !in s0 ==> v in queue
    ensures forall v :: v in queue ==> v in queue0 || v in s
    ensures s == s0 ==> queue == queue0
  {
    hide Legal, Marks, Shift, IsMove, Adjacent;
    queue, s := queue0, s0;
    for k := 0 to |MOVES|
      invariant Marks(seen, s) && s0 <= s
      invariant forall v :: v in s ==> v in s0 || Legal(blocked, u, v)
      invariant forall j :: 0 <= j < k && Legal(blocked, u, Shift(u, MOVES[j])) ==> Shift(u, MOVES[j]) in s
      invariant queue0 <= queue && forall v :: v in s && v !in s0 ==> v in queue
      invariant forall v :: v in queue ==> v in queue0 || v in s
      invariant s == s0 ==> queue == queue0
    {
      TableOfMoves(k);
      queue, s := Look(blocked, u, MOVES[k], seen, queue, s);
    }
    forall v | Legal(blocked, u, v)
      ensures v in s
    {
      LegalIsNear(blocked, u, v);
      var k := MovesAreNeighbours(u, v);
    }
  }

  lemma LegalIsNear(m: Mask, u: Cell, v: Cell)
    requires Legal(m, u, v)
    ensures Adjacent(u, v)
  {
  }

  /** True at exactly the cells that legal routes reach from the start; all false when the start is not free. */
  method ReachableMask(blocked: Mask, start: Cell) returns (seen: array2<bool>)
    ensures seen.Length0 == blocked.height && seen.Length1 == blocked.width
    ensures forall c :: Inside(blocked, c) ==> (seen[c.row, c.col] <==> Reachable(blocked, start, c))
  {
    seen := new bool[blocked.height, blocked.width]((_, _) => false);
    if !Free(blocked, start) {
      return;
    }
    seen[start.row, start.col] := true;
    var queue := [start];
    ghost var s, done := {start}, {};
    ReachableStart(blocked, start);
    while queue != []
      invariant Marks(seen, s) && start in s
      invariant forall c :: c in s ==> Reachable(blocked, start, c)
      invariant forall c :: c in queue ==> c in s
      invariant forall c :: c in s ==> c in done || c in queue
      invariant forall u, v :: u in done && Legal(blocked, u, v) ==> v in s
      decreases AllCells(blocked) - s, |queue|
    {
      var u := queue[0];
      ghost var s0, queue0 := s, queue;
      queue, s := Visit(blocked, u, seen, queue[1..], s0);
      forall v | v in s
        ensures Reachable(blocked, start, v)
      {
        if v !in s0 {
          ReachableStep(blocked, start, u, v);
        }
      }
      forall c | c in s
        ensures c in done + {u} || c in queue
      {
        if c in s0 && c !in done && c != u {
          assert c in queue0[1..];
        }
      }
      done := done + {u};
      if s != s0 {
        assert s <= AllCells(blocked);
        assert AllCells(blocked) - s < AllCells(blocked) - s0 by {
          var x :| x in s && x !in s0;
          assert x in AllCells(blocked) - s0;
        }
      }
    }
    forall c | Inside(blocked, c)
      ensures seen[c.row, c.col] <==> Reachable(blocked, start, c)
    {
      if Reachable(blocked, start, c) {
        ClosedHoldsAll(blocked, start, s, c);
      }
    }
  }

  /** The two searches agree: from a free start the mask is true at a cell exactly when A* finds a path to it. */
  method SearchesAgree(hyp: (real, real) -> real, blocked: Mask, start: Cell, c: Cell, costs: AStar.Costs)
    returns (inMask: bool, found: bool)
    requires IsHypot(hyp) && AStar.NonNegative(costs) && Free(blocked, start) && Inside(blocked, c)
    ensures inMask == found == Reachable(blocked, start, c)
  {
    var seen := ReachableMask(blocked, start);
    var path := AStar.AStar(hyp, start, c, blocked, costs);
    inMask, found := seen[c.row, c.col], path.Some?;
  }
}

/** Moving a goal to the nearest drivable cell. */
module Snap {
  import opened Geometry
  import opened Grid
  import opened Optional
  import opened Lattice
  import Inflation
  import Segment
  import Escape

  /** A cell the goal may be moved to: unblocked, allowed, and near enough. */
  ghost predicate Candidate(hyp: (real, real) -> real, meta: Meta, blocked: Mask, allowed: set<Cell>, point: Point,
                            maxM: real, c: Cell)
  {
    Free(blocked, c) && c in allowed && Dist(hyp, point, ToWorld(meta, c)) <= maxM
  }

  /** The cells the scan looks at: a disc of cells around the cell of the point. */
  predicate Scanned(meta: Meta, point: Point, maxM: real, c: Cell)
    requires meta.resolution > 0.0
  {
    var home, ring := ToCell(meta, point), Inflation.CellsFor(maxM, meta.resolution);
    InRing(ring, c.row - home.row, c.col - home.col)
  }

  /** The offsets of the scan; none for a negative ring. */
  predicate InRing(ring: int, dr: int, dc: int) {
    Inflation.InRange(ring, dr, dc) && Inflation.InDisc(ring, dr, dc)
  }

  /** `best` is a scanned candidate and no scanned candidate is nearer; None when there is none. */
  ghost predicate NearestScanned(hyp: (real, real) -> real, meta: Meta, blocked: Mask, allowed: set<Cell>, point: Point,
                                 maxM: real, best: Option<Cell>)
    requires meta.resolution > 0.0
  {
    && (best.Some? ==> Candidate(hyp, meta, blocked, allowed, point, maxM, best.value)
                       && Scanned(meta, point, maxM, best.value))
    && forall c :: Candidate(hyp, meta, blocked, allowed, point, maxM, c) && Scanned(meta, point, maxM, c) ==>
         best.Some? && Dist(hyp, point, ToWorld(meta, best.value)) <= Dist(hyp, point, ToWorld(meta, c))
  }

  /** What the documentation promises: the nearest candidate of all, and None only when there is none. */
  ghost predicate NearestOfAll(hyp: (real, real) -> real, meta: Meta, blocked: Mask, allowed: set<Cell>, point: Point,
                               maxM: real, best: Option<Cell>)
  {
    && (best.Some? ==> Candidate(hyp, meta, blocked, allowed, point, maxM, best.value))
    && forall c :: Candidate(hyp, meta, blocked, allowed, point, maxM, c) ==>
         best.Some? && Dist(hyp, point, ToWorld(meta, best.value)) <= Dist(hyp, point, ToWorld(meta, c))
  }

  /** The corners of the square around the scan's disc are out of range: a test of finitely many distances. */
  predicate CornersFar(hyp: (real, real) -> real, meta: Meta, point: Point, maxM: real)
    requires meta.resolution > 0.0
  {
    var home, ring := ToCell(meta, point), Inflation.CellsFor(maxM, meta.resolution);
    forall dr: int, dc: int :: -ring <= dr <= ring && -ring <= dc <= ring && !Inflation.InDisc(ring, dr, dc) ==>
      OutOfRange(hyp, meta, point, maxM, home.row + dr, home.col + dc)
  }

  predicate OutOfRange(hyp: (real, real) -> real, meta: Meta, point: Point, maxM: real, row: int, col: int) {
    row < 0 || col < 0 || Dist(hyp, point, ToWorld(meta, Cell(row, col))) > maxM
  }

  /** A centre in range that the scan leaves out. */
  lemma MissedCorner(hyp: (real, real) -> real, meta: Meta, point: Point, maxM: real) returns (c: Cell)
    requires meta.resolution > 0.0 && !CornersFar(hyp, meta, point, maxM)
    ensures 0 <= c.row && 0 <= c.col && Dist(hyp, point, ToWorld(meta, c)) <= maxM && !Scanned(meta, point, maxM, c)
  {
    hide ToCell, ToWorld, Dist, Inflation.CellsFor, Inflation.InDisc;
    var home, ring := ToCell(meta, point), Inflation.CellsFor(maxM, meta.resolution);
    var dr: int, dc: int :| -ring <= dr <= ring && -ring <= dc <= ring && !Inflation.InDisc(ring, dr, dc)
                            && !OutOfRange(hyp, meta, point, maxM, home.row + dr, home.col + dc);
    c := Cell(home.row + dr, home.col + dc);
    assert c.row - home.row == dr && c.col - home.col == dc;
  }

  /** On the map where only that cell is allowed the scan finds nothing. */
  lemma SnapMisses(hyp: (real, real) -> real, meta: Meta, point: Point, maxM: real) returns (blocked: Mask, c: Cell)
    requires meta.resolution > 0.0 && !CornersFar(hyp, meta, point, maxM)
    ensures NearestScanned(hyp, meta, blocked, {c}, point, maxM, None)
    ensures !NearestOfAll(hyp, meta, blocked, {c}, point, maxM, None)
  {
    hide Scanned, Dist, ToWorld, CornersFar;
    c := MissedCorner(hyp, meta, point, maxM);
    blocked := Mask(c.row + 1, c.col + 1, {});
    assert Candidate(hyp, meta, blocked, {c}, point, maxM, c);
  }

  /** The scan keeps the documented promise on every map exactly when every cell of the square that its disc leaves out is
      out of range. */
  lemma SnapCompleteIff(hyp: (real, real) -> real, meta: Meta, point: Point, maxM: real)
    requires IsHypot(hyp) && meta.resolution > 0.0
    ensures CornersFar(hyp, meta, point, maxM) <==>
            forall blocked, allowed, best :: NearestScanned(hyp, meta, blocked, allowed, point, maxM, best) ==>
              NearestOfAll(hyp, meta, blocked, allowed, point, maxM, best)
  {
    if CornersFar(hyp, meta, point, maxM) {
      forall c: Cell | 0 <= c.row && 0 <= c.col && Dist(hyp, point, ToWorld(meta, c)) <= maxM
        ensures Scanned(meta, point, maxM, c)
      {
        InRangeIsScanned(hyp, meta, point, maxM, c);
      }
      hide Scanned, Dist, ToWorld, IsHypot;
    } else {
      hide *;
      var blocked, c := SnapMisses(hyp, meta, point, maxM);
    }
  }

  lemma InRangeIsScanned(hyp: (real, real) -> real, meta: Meta, point: Point, maxM: real, c: Cell)
    requires IsHypot(hyp) && meta.resolution > 0.0 && CornersFar(hyp, meta, point, maxM)
    requires 0 <= c.row && 0 <= c.col && Dist(hyp, point, ToWorld(meta, c)) <= maxM
    ensures Scanned(meta, point, maxM, c)
  {
    var home, ring := ToCell(meta, point), Inflation.CellsFor(maxM, meta.resolution);
    var dr, dc := c.row - home.row, c.col - home.col;
    SquareCovers(hyp, meta, point, maxM, c);
    hide IsHypot, ToCell, ToWorld, Dist, Inflation.CellsFor;
    assert Inflation.InRange(ring, dr, dc);
    assert Cell(home.row + dr, home.col + dc) == c;
    assert !OutOfRange(hyp, meta, point, maxM, home.row + dr, home.col + dc);
  }

  /** Every centre in range lies in the square of half-width `ring` around the point's own cell. */
  lemma SquareCovers(hyp: (real, real) -> real, meta: Meta, point: Point, maxM: real, c: Cell)
    requires IsHypot(hyp) && meta.resolution > 0.0 && Dist(hyp, point, ToWorld(meta, c)) <= maxM
    ensures var home := ToCell(meta, point);
            Inflation.InRange(Inflation.CellsFor(maxM, meta.resolution), c.row - home.row, c.col - home.col)
  {
    hide IsHypot, Dist, Inflation.CellsFor;
    LegsInRange(hyp, point, ToWorld(meta, c), maxM);
    AxisCovers(meta.originX, meta.resolution, point.x, c.col, maxM);
    AxisCovers(meta.originY, meta.resolution, point.y, c.row, maxM);
  }

  lemma LegsInRange(hyp: (real, real) -> real, p: Point, q: Point, maxM: real)
    requires IsHypot(hyp) && Dist(hyp, p, q) <= maxM
    ensures -maxM <= p.x - q.x <= maxM && -maxM <= p.y - q.y <= maxM
  {
    LegBound(hyp, p.x - q.x, p.y - q.y);
    hide IsHypot;
  }

  lemma AxisCovers(origin: real, resolution: real, v: real, k: int, maxM: real)
    requires resolution > 0.0
    requires -maxM <= v - (origin + (k as real + 0.5) * resolution) <= maxM
    ensures var ring := Inflation.CellsFor(maxM, resolution);
            -ring <= k - ((v - origin) / resolution).Floor <= ring
  {
    var u, m := (v - origin) / resolution, maxM / resolution;
    assert u * resolution == v - origin && m * resolution == maxM;
    var gap := u - (k as real + 0.5);
    assert gap * resolution == v - (origin + (k as real + 0.5) * resolution);
    ProductOrder(gap, m, resolution);
    ProductOrder(-gap, m, resolution);
  }

  lemma ProductOrder(a: real, b: real, r: real)
    requires r > 0.0 && a * r <= b * r
    ensures a <= b
  {
    var d := a - b;
    assert d * r <= 0.0;
  }

  /** So from the centre of a cell the promise is kept. */
  lemma CentreScanCovers(hyp: (real, real) -> real, meta: Meta, home: Cell, maxM: real)
    requires IsHypot(hyp) && meta.resolution > 0.0
    ensures CornersFar(hyp, meta, ToWorld(meta, home), maxM)
  {
    var point, ring := ToWorld(meta, home), Inflation.CellsFor(maxM, meta.resolution);
    CentreOfCell(meta, home);
    forall dr: int, dc: int | -ring <= dr <= ring && -ring <= dc <= ring && !Inflation.InDisc(ring, dr, dc)
      ensures OutOfRange(hyp, meta, point, maxM, home.row + dr, home.col + dc)
    {
      var c := Cell(home.row + dr, home.col + dc);
      Inflation.FarCentre(hyp, meta, maxM, c, home);
      HypotSign(hyp, ToWorld(meta, c).x - point.x, ToWorld(meta, c).y - point.y);
    }
  }

  /** Off centre it need not: on a unit grid, from (0.9, 0.9) with range 1, the only free cell is the diagonal
      neighbour, 0.85 away, and the scan does not look at it. */
  lemma CornerMissed(hyp: (real, real) -> real)
    requires IsHypot(hyp)
    ensures var meta, point := Meta(1.0, 0.0, 0.0), Point(0.9, 0.9);
            var blocked := Mask(2, 2, {Cell(0, 0), Cell(0, 1), Cell(1, 0)});
            && Candidate(hyp, meta, blocked, {Cell(1, 1)}, point, 1.0, Cell(1, 1))
            && NearestScanned(hyp, meta, blocked, {Cell(1, 1)}, point, 1.0, None)
            && !NearestOfAll(hyp, meta, blocked, {Cell(1, 1)}, point, 1.0, None)
  {
    var meta, point := Meta(1.0, 0.0, 0.0), Point(0.9, 0.9);
    var blocked := Mask(2, 2, {Cell(0, 0), Cell(0, 1), Cell(1, 0)});
    var c := Cell(1, 1);
    assert ToWorld(meta, c) == Point(1.5, 1.5);
    var d := Dist(hyp, point, ToWorld(meta, c));
    assert d * d == 0.72;
    RootOrder(d, 1.0);
    assert ToCell(meta, point) == Cell(0, 0);
    assert Inflation.CellsFor(1.0, 1.0) == 1;
    assert Candidate(hyp, meta, blocked, {c}, point, 1.0, c);
    assert !Scanned(meta, point, 1.0, c);
  }

  // ----- the code -----

  ghost predicate InArray(allowed: array2<bool>, blocked: Mask, cells: set<Cell>)
    reads allowed
  {
    && allowed.Length0 == blocked.height && allowed.Length1 == blocked.width
    && forall c :: Inside(blocked, c) ==> (allowed[c.row, c.col] <==> c in cells)
  }

  /** Candidates among the scanned cells that come before (a, b) in loop order. */
  ghost predicate BestBefore(hyp: (real, real) -> real, meta: Meta, blocked: Mask, allowed: set<Cell>, point: Point,
                             maxM: real, a: int, b: int, best: Option<Cell>)
    requires meta.resolution > 0.0
  {
    && (best.Some? ==> Candidate(hyp, meta, blocked, allowed, point, maxM, best.value)
                       && Scanned(meta, point, maxM, best.value))
    && forall c :: Candidate(hyp, meta, blocked, allowed, point, maxM, c) && Scanned(meta, point, maxM, c)
                   && (c.row < a || (c.row == a && c.col < b)) ==>
         best.Some? && Dist(hyp, point, ToWorld(meta, best.value)) <= Dist(hyp, point, ToWorld(meta, c))
  }

  method ScanRow(hyp: (real, real) -> real, meta: Meta, blocked: Mask, allowed: array2<bool>, ghost cells: set<Cell>,
                 point: Point, maxM: real, ring: int, row: int, best0: Option<Cell>)
    returns (best: Option<Cell>)
    requires meta.resolution > 0.0 && InArray(allowed, blocked, cells)
    requires ring == Inflation.CellsFor(maxM, meta.resolution) && ring >= 0
    requires var home := ToCell(meta, point);
             -ring <= row - home.row <= ring && BestBefore(hyp, meta, blocked, cells, point, maxM, row, home.col - ring, best0)
    ensures var home := ToCell(meta, point);
            BestBefore(hyp, meta, blocked, cells, point, maxM, row, home.col + ring + 1, best)
  {
    hide ToCell, ToWorld, Dist, Inflation.InDisc, Inflation.CellsFor;
    var home := ToCell(meta, point);
    best := best0;
    for col := home.col - ring to home.col + ring + 1
      invariant BestBefore(hyp, meta, blocked, cells, point, maxM, row, col, best)
    {
      var c := Cell(row, col);
      assert forall x: Cell :: x.row == row && x.col == col ==> x == c;
      if !Inflation.InDisc(ring, row - home.row, col - home.col) {
        continue;
      }
      if !Free(blocked, c) || !allowed[row, col] {
        continue;
      }
      var dist := Dist(hyp, point, ToWorld(meta, c));
      if dist > maxM {
        continue;
      }
      if best.None? || dist < Dist(hyp, point, ToWorld(meta, best.value)) {
        best := Some(c);
      }
    }
  }

  lemma RowDone(hyp: (real, real) -> real, meta: Meta, blocked: Mask, allowed: set<Cell>, point: Point,
                maxM: real, ring: int, row: int, best: Option<Cell>)
    requires meta.resolution > 0.0 && ring == Inflation.CellsFor(maxM, meta.resolution) && ring >= 0
    requires BestBefore(hyp, meta, blocked, allowed, point, maxM, row, ToCell(meta, point).col + ring + 1, best)
    ensures BestBefore(hyp, meta, blocked, allowed, point, maxM, row + 1, ToCell(meta, point).col - ring, best)
  {
    hide ToCell, ToWorld, Dist;
    forall c | Candidate(hyp, meta, blocked, allowed, point, maxM, c) && Scanned(meta, point, maxM, c)
               && (c.row < row + 1 || (c.row == row + 1 && c.col < ToCell(meta, point).col - ring))
      ensures best.Some? && Dist(hyp, point, ToWorld(meta, best.value)) <= Dist(hyp, point, ToWorld(meta, c))
    {
      var home := ToCell(meta, point);
      Inflation.DiscInRange(ring, c.row - home.row, c.col - home.col);
    }
  }

  lemma ScanEnds(hyp: (real, real) -> real, meta: Meta, blocked: Mask, allowed: set<Cell>, point: Point,
                 maxM: real, ring: int, best: Option<Cell>)
    requires meta.resolution > 0.0 && ring == Inflation.CellsFor(maxM, meta.resolution) && ring >= 0
    ensures BestBefore(hyp, meta, blocked, allowed, point, maxM, ToCell(meta, point).row - ring,
                       ToCell(meta, point).col - ring, None)
    ensures BestBefore(hyp, meta, blocked, allowed, point, maxM, ToCell(meta, point).row + ring + 1, ToCell(meta, point).col - ring, best) ==>
              NearestScanned(hyp, meta, blocked, allowed, point, maxM, best)
  {
    hide ToCell, ToWorld, Dist, Candidate;
    forall c | Scanned(meta, point, maxM, c)
      ensures var home := ToCell(meta, point); -ring <= c.row - home.row <= ring && -ring <= c.col - home.col <= ring
    {
      var home := ToCell(meta, point);
      Inflation.DiscInRange(ring, c.row - home.row, c.col - home.col);
    }
  }

  lemma NothingScanned(hyp: (real, real) -> real, meta: Meta, blocked: Mask, allowed: set<Cell>, point: Point, maxM: real)
    requires meta.resolution > 0.0 && Inflation.CellsFor(maxM, meta.resolution) < 0
    ensures NearestScanned(hyp, meta, blocked, allowed, point, maxM, None)
  {
    hide ToCell, ToWorld, Dist, Inflation.CellsFor, Inflation.InDisc;
  }

  method Scan(hyp: (real, real) -> real, meta: Meta, blocked: Mask, allowed: array2<bool>, ghost cells: set<Cell>,
              point: Point, maxM: real)
    returns (best: Option<Cell>)
    requires meta.resolution > 0.0 && InArray(allowed, blocked, cells)
    ensures NearestScanned(hyp, meta, blocked, cells, point, maxM, best)
  {
    hide NearestScanned, BestBefore, ToCell;
    var home, ring := ToCell(meta, point), Inflation.CellsFor(maxM, meta.resolution);
    best := None;
    if ring < 0 {
      NothingScanned(hyp, meta, blocked, cells, point, maxM);
      return;
    }
    ScanEnds(hyp, meta, blocked, cells, point, maxM, ring, best);
    for row := home.row - ring to home.row + ring + 1
      invariant BestBefore(hyp, meta, blocked, cells, point, maxM, row, home.col - ring, best)
    {
      best := ScanRow(hyp, meta, blocked, allowed, cells, point, maxM, ring, row, best);
      RowDone(hyp, meta, blocked, cells, point, maxM, ring, row, best);
    }
    ScanEnds(hyp, meta, blocked, cells, point, maxM, ring, best);
  }

  /** The goal itself when it is drivable, else the nearest scanned cell centre; None distance means no such cell. */
  method SnapToFree(hyp: (real, real) -> real, meta: Meta, blocked: Mask, allowed: array2<bool>, ghost cells: set<Cell>,
                    point: Point, maxM: real)
    returns (goal: Point, moved: Option<real>, ghost best: Option<Cell>)
    requires meta.resolution > 0.0 && InArray(allowed, blocked, cells)
    ensures Segment.WorldClear(meta, blocked, point, point) && ToCell(meta, point) in cells ==>
              goal == point && moved == Some(0.0)
    ensures !(Segment.WorldClear(meta, blocked, point, point) && ToCell(meta, point) in cells) ==>
              && NearestScanned(hyp, meta, blocked, cells, point, maxM, best)
              && (best.Some? ==> goal == ToWorld(meta, best.value) && moved == Some(Dist(hyp, point, goal)))
              && (best.None? ==> goal == point && moved.None?)
    ensures moved.Some? ==> Segment.WorldClear(meta, blocked, goal, goal) && ToCell(meta, goal) in cells
                            && (moved.value == 0.0 || moved.value <= maxM)
  {
    hide Segment.WorldClear, Dist, ToWorld, ToCell;
    best := None;
    var home := ToCell(meta, point);
    var clear := Segment.SegmentClear(meta, blocked, point, point);
    if clear {
      Escape.ClearPointCell(meta, blocked, point, point);
    }
    if Inside(blocked, home) && clear && allowed[home.row, home.col] {
      return point, Some(0.0), best;
    }
    var found := Scan(hyp, meta, blocked, allowed, cells, point, maxM);
    best := found;
    if found.None? {
      return point, None, best;
    }
    goal := ToWorld(meta, found.value);
    moved := Some(Dist(hyp, point, goal));
    Escape.CentreIsClear(meta, blocked, found.value);
    CentreOfCell(meta, found.value);
  }
}

/** World coordinates and the cell lattice of a map. */
module Lattice {
  import opened Geometry
  import opened Grid

  datatype Meta = Meta(resolution: real, originX: real, originY: real)

  /** World point in cell units: column coordinate in `x`, row coordinate in `y`. */
  function ToGrid(meta: Meta, p: Point): Point
    requires meta.resolution > 0.0
  {
    Point((p.x - meta.originX) / meta.resolution, (p.y - meta.originY) / meta.resolution)
  }

  function CellAt(g: Point): Cell {
    Cell(g.y.Floor, g.x.Floor)
  }

  function ToCell(meta: Meta, p: Point): Cell
    requires meta.resolution > 0.0
  {
    CellAt(ToGrid(meta, p))
  }

  /** The centre of a cell. */
  function ToWorld(meta: Meta, c: Cell): Point {
    Point(meta.originX + (c.col as real + 0.5) * meta.resolution,
          meta.originY + (c.row as real + 0.5) * meta.resolution)
  }

  function Centre(c: Cell): Point {
    Point(c.col as real + 0.5, c.row as real + 0.5)
  }

  lemma MulDiv(k: real, r: real)
    requires r > 0.0
    ensures (k * r) / r == k
  {
  }

  lemma CentreOfCell(meta: Meta, c: Cell)
    requires meta.resolution > 0.0
    ensures ToGrid(meta, ToWorld(meta, c)) == Centre(c)
    ensures ToCell(meta, ToWorld(meta, c)) == c
  {
    var r := meta.resolution;
    MulDiv(c.col as real + 0.5, r);
    MulDiv(c.row as real + 0.5, r);
    assert meta.originX + (c.col as real + 0.5) * r - meta.originX == (c.col as real + 0.5) * r;
    assert meta.originY + (c.row as real + 0.5) * r - meta.originY == (c.row as real + 0.5) * r;
    assert (c.col as real + 0.5).Floor == c.col && (c.row as real + 0.5).Floor == c.row;
  }

  /** A fraction `t` of the way `d`. Named, so that proofs may leave the product alone. */
  function Part(t: real, d: real): real {
    t * d
  }

  /** The value a fraction `t` of the way from `v0` to `v1`. */
  function Lerp(v0: real, v1: real, t: real): real {
    v0 + Part(t, v1 - v0)
  }

  /** The point a fraction `t` of the way from `a` to `b`. */
  function Along(a: Point, b: Point, t: real): Point {
    Point(Lerp(a.x, b.x, t), Lerp(a.y, b.y, t))
  }

  lemma DivideAlong(v0: real, v1: real, o: real, r: real, t: real)
    requires r > 0.0
    ensures (Lerp(v0, v1, t) - o) / r == Lerp((v0 - o) / r, (v1 - o) / r, t)
  {
    var a, b := (v0 - o) / r, (v1 - o) / r;
    assert a * r == v0 - o && b * r == v1 - o;
    var lhs, rhs := v0 + t * (v1 - v0) - o, a + t * (b - a);
    calc {
      rhs * r;
      a * r + t * (b - a) * r;
      { assert t * (b - a) * r == t * (b * r - a * r); }
      a * r + t * (b * r - a * r);
      lhs;
    }
    assert lhs / r == rhs;
  }

  lemma AlongInGrid(meta: Meta, a: Point, b: Point, t: real)
    requires meta.resolution > 0.0
    ensures ToGrid(meta, Along(a, b, t)) == Along(ToGrid(meta, a), ToGrid(meta, b), t)
  {
    DivideAlong(a.x, b.x, meta.originX, meta.resolution, t);
    DivideAlong(a.y, b.y, meta.originY, meta.resolution, t);
  }

  /** The closed square of a cell, in cell units and in world units. */
  predicate Touches(c: Cell, g: Point) {
    c.col as real <= g.x <= c.col as real + 1.0 && c.row as real <= g.y <= c.row as real + 1.0
  }

  predicate SquareHolds(meta: Meta, c: Cell, p: Point) {
    && meta.originX + c.col as real * meta.resolution <= p.x <= meta.originX + (c.col as real + 1.0) * meta.resolution
    && meta.originY + c.row as real * meta.resolution <= p.y <= meta.originY + (c.row as real + 1.0) * meta.resolution
  }

  lemma ScaleOrder(k: real, v: real, o: real, r: real)
    requires r > 0.0
    ensures o + k * r <= v <==> k <= (v - o) / r
    ensures v <= o + k * r <==> (v - o) / r <= k
  {
    var q := (v - o) / r;
    assert q * r == v - o;
    if k < q { assert k * r < q * r; }
    if q < k { assert q * r < k * r; }
  }

  lemma SquareIsTouch(meta: Meta, c: Cell, p: Point)
    requires meta.resolution > 0.0
    ensures SquareHolds(meta, c, p) <==> Touches(c, ToGrid(meta, p))
  {
    ScaleOrder(c.col as real, p.x, meta.originX, meta.resolution);
    ScaleOrder(c.col as real + 1.0, p.x, meta.originX, meta.resolution);
    ScaleOrder(c.row as real, p.y, meta.originY, meta.resolution);
    ScaleOrder(c.row as real + 1.0, p.y, meta.originY, meta.resolution);
  }
}

/** Growing obstacles: the disc dilation, the two-layer planning mask and the body collision mask. */
module Inflation {
  import opened Geometry
  import opened Grid
  import opened Optional
  import opened Lattice
  import Segment

  /** A true cell of the array. */
  predicate On(m: Mask, c: Cell) {
    Inside(m, c) && c in m.blocked
  }

  predicate InRange(k: int, dr: int, dc: int) {
    -k <= dr <= k && -k <= dc <= k
  }

  /** Some cell at a kernel offset from `c` is true. */
  ghost predicate Stamped(m: Mask, k: int, kernel: (int, int) -> bool, c: Cell) {
    On(m, c) || exists dr, dc :: InRange(k, dr, dc) && kernel(dr, dc) && On(m, Cell(c.row - dr, c.col - dc))
  }

  /** The same, over the offsets that come before (a, b) in loop order. */
  ghost predicate StampedBefore(m: Mask, k: int, kernel: (int, int) -> bool, a: int, b: int, c: Cell) {
    On(m, c) || exists dr, dc :: InRange(k, dr, dc) && (dr < a || (dr == a && dc < b))
                                 && kernel(dr, dc) && On(m, Cell(c.row - dr, c.col - dc))
  }

  ghost predicate Holds(out: array2<bool>, m: Mask, k: int, kernel: (int, int) -> bool, a: int, b: int)
    reads out
  {
    && out.Length0 == m.height && out.Length1 == m.width
    && forall c :: Inside(m, c) ==> (out[c.row, c.col] <==> StampedBefore(m, k, kernel, a, b, c))
  }

  /** `out[dst] |= mask[src]` for one offset. */
  method OrShifted(out: array2<bool>, m: Mask, k: int, kernel: (int, int) -> bool, dr: int, dc: int)
    requires InRange(k, dr, dc) && kernel(dr, dc) && Holds(out, m, k, kernel, dr, dc)
    modifies out
    ensures Holds(out, m, k, kernel, dr, dc + 1)
  {
    hide StampedBefore, On;
    forall r, c | 0 <= r < m.height && 0 <= c < m.width {
      out[r, c] := out[r, c] || On(m, Cell(r - dr, c - dc));
    }
    forall c | Inside(m, c)
      ensures out[c.row, c.col] <==> StampedBefore(m, k, kernel, dr, dc + 1, c)
    {
      AddOffset(m, k, kernel, dr, dc, c);
    }
  }

  lemma AddOffset(m: Mask, k: int, kernel: (int, int) -> bool, dr: int, dc: int, c: Cell)
    requires InRange(k, dr, dc) && kernel(dr, dc)
    ensures StampedBefore(m, k, kernel, dr, dc + 1, c) <==>
              StampedBefore(m, k, kernel, dr, dc, c) || On(m, Cell(c.row - dr, c.col - dc))
  {
    hide On;
  }

  lemma SkipOffset(m: Mask, k: int, kernel: (int, int) -> bool, dr: int, dc: int, c: Cell)
    requires !kernel(dr, dc)
    ensures StampedBefore(m, k, kernel, dr, dc, c) <==> StampedBefore(m, k, kernel, dr, dc + 1, c)
  {
  }

  lemma NextRow(m: Mask, k: int, kernel: (int, int) -> bool, dr: int, c: Cell)
    ensures StampedBefore(m, k, kernel, dr, k + 1, c) <==> StampedBefore(m, k, kernel, dr + 1, -k, c)
  {
  }

  method StampRow(out: array2<bool>, m: Mask, k: int, kernel: (int, int) -> bool, dr: int)
    requires -k <= dr <= k && Holds(out, m, k, kernel, dr, -k)
    modifies out
    ensures Holds(out, m, k, kernel, dr + 1, -k)
  {
    hide StampedBefore;
    for dc := -k to k + 1
      invariant Holds(out, m, k, kernel, dr, dc)
    {
      if !kernel(dr, dc) {
        forall c | Inside(m, c)
          ensures StampedBefore(m, k, kernel, dr, dc, c) <==> StampedBefore(m, k, kernel, dr, dc + 1, c)
        {
          SkipOffset(m, k, kernel, dr, dc, c);
        }
      } else {
        OrShifted(out, m, k, kernel, dr, dc);
      }
    }
    forall c | Inside(m, c)
      ensures StampedBefore(m, k, kernel, dr, k + 1, c) <==> StampedBefore(m, k, kernel, dr + 1, -k, c)
    {
      NextRow(m, k, kernel, dr, c);
    }
  }

  lemma FirstOffset(m: Mask, k: int, kernel: (int, int) -> bool, c: Cell)
    ensures StampedBefore(m, k, kernel, -k, -k, c) <==> On(m, c)
    ensures StampedBefore(m, k, kernel, k + 1, -k, c) <==> Stamped(m, k, kernel, c)
  {
  }

  /** Stamp a kernel of half-width `k` on every true cell. */
  method Stamp(m: Mask, k: int, kernel: (int, int) -> bool) returns (out: array2<bool>)
    requires k >= 0
    ensures out.Length0 == m.height && out.Length1 == m.width
    ensures forall c :: Inside(m, c) ==> (out[c.row, c.col] <==> Stamped(m, k, kernel, c))
  {
    hide StampedBefore, Stamped, On;
    out := new bool[m.height, m.width]((r, c) => On(m, Cell(r, c)));
    forall c | Inside(m, c)
      ensures out[c.row, c.col] <==> StampedBefore(m, k, kernel, -k, -k, c)
      ensures StampedBefore(m, k, kernel, k + 1, -k, c) <==> Stamped(m, k, kernel, c)
    {
      FirstOffset(m, k, kernel, c);
    }
    for dr := -k to k + 1
      invariant Holds(out, m, k, kernel, dr, -k)
    {
      StampRow(out, m, k, kernel, dr);
    }
  }

  // ----- disc dilation -----

  predicate InDisc(k: int, dr: int, dc: int) {
    dr * dr + dc * dc <= k * k
  }

  /** Some true cell lies within `k` cells, centre to centre. */
  ghost predicate NearOn(m: Mask, k: nat, c: Cell) {
    exists u :: On(m, u) && InDisc(k, c.row - u.row, c.col - u.col)
  }

  lemma LargeSquare(k: int, x: int)
    requires k >= 0 && (x > k || x < -k)
    ensures x * x > k * k
  {
  }

  lemma DiscInRange(k: int, dr: int, dc: int)
    requires k >= 0 && InDisc(k, dr, dc)
    ensures InRange(k, dr, dc)
  {
    if !InRange(k, dr, dc) {
      assert dr * dr >= 0 && dc * dc >= 0;
      LargeSquare(k, if -k <= dr <= k then dc else dr);
    }
  }

  lemma DiscStamp(m: Mask, k: nat, c: Cell)
    ensures Stamped(m, k, (dr, dc) => InDisc(k, dr, dc), c) <==> NearOn(m, k, c)
  {
    var kernel := (dr, dc) => InDisc(k, dr, dc);
    if On(m, c) {
      assert InDisc(k, c.row - c.row, c.col - c.col);
    }
    if NearOn(m, k, c) {
      var u :| On(m, u) && InDisc(k, c.row - u.row, c.col - u.col);
      var dr, dc := c.row - u.row, c.col - u.col;
      DiscInRange(k, dr, dc);
      assert Cell(c.row - dr, c.col - dc) == u;
      assert kernel(dr, dc);
    }
    if !On(m, c) && Stamped(m, k, kernel, c) {
      var dr, dc :| InRange(k, dr, dc) && kernel(dr, dc) && On(m, Cell(c.row - dr, c.col - dc));
      var u := Cell(c.row - dr, c.col - dc);
      assert c.row - u.row == dr && c.col - u.col == dc;
    }
  }

  /** A cell of the result is true exactly when a true cell lies within `radius` cells of it. */
  method Dilate(m: Mask, radius: int) returns (out: array2<bool>)
    ensures out.Length0 == m.height && out.Length1 == m.width
    ensures forall c :: Inside(m, c) ==> (out[c.row, c.col] <==> NearOn(m, if radius < 0 then 0 else radius, c))
  {
    var k := if radius < 0 then 0 else radius;
    out := Stamp(m, k, (dr, dc) => InDisc(k, dr, dc));
    forall c | Inside(m, c)
      ensures out[c.row, c.col] <==> NearOn(m, k, c)
    {
      DiscStamp(m, k, c);
    }
  }

  // ----- the planning mask -----

  /** A log-odds grid and the thresholds and clearances the planner reads it with. */
  datatype Chart = Chart(height: nat, width: nat, level: Cell -> real, resolution: real)
  datatype Params = Params(occThresh: real, freeThresh: real, hardThresh: real,
                           clearance: real, softClearance: real, bodyRadius: real)

  function Layer(ch: Chart, keep: Cell -> bool): Mask {
    var frame := Mask(ch.height, ch.width, {});
    Mask(ch.height, ch.width, set c | c in AllCells(frame) && keep(c))
  }

  function Occupied(ch: Chart, ps: Params): Mask {
    Layer(ch, (c: Cell) => ch.level(c) >= ps.occThresh)
  }

  function Hard(ch: Chart, ps: Params): Mask {
    Layer(ch, (c: Cell) => ch.level(c) >= ps.hardThresh)
  }

  function Soft(ch: Chart, ps: Params): Mask {
    Layer(ch, (c: Cell) => ch.level(c) >= ps.occThresh && ch.level(c) < ps.hardThresh)
  }

  /** Obstacles are the cells from the occupied threshold up, hard ones from theirs; a soft one is an obstacle that is not hard. */
  lemma LayersAre(ch: Chart, ps: Params, c: Cell)
    ensures c in Occupied(ch, ps).blocked <==> 0 <= c.row < ch.height && 0 <= c.col < ch.width && ch.level(c) >= ps.occThresh
    ensures c in Hard(ch, ps).blocked <==> 0 <= c.row < ch.height && 0 <= c.col < ch.width && ch.level(c) >= ps.hardThresh
    ensures c in Soft(ch, ps).blocked <==> c in Occupied(ch, ps).blocked && ch.level(c) < ps.hardThresh
  {
  }

  function CellsFor(metres: real, resolution: real): int
    requires resolution > 0.0
  {
    Segment.Ceil(metres / resolution)
  }

  function AtLeastZero(k: int): nat { if k < 0 then 0 else k }

  predicate TwoLayers(ch: Chart, ps: Params) {
    ps.softClearance < ps.clearance && Occupied(ch, ps).blocked != {}
  }

  /** Blocked: not known to be free, or too close to an obstacle of its layer. */
  ghost predicate Inflated(ch: Chart, ps: Params, c: Cell)
    requires ch.resolution > 0.0
  {
    || ch.level(c) > ps.freeThresh
    || if TwoLayers(ch, ps) then
         || NearOn(Hard(ch, ps), AtLeastZero(CellsFor(ps.clearance, ch.resolution)), c)
         || NearOn(Soft(ch, ps), AtLeastZero(CellsFor(ps.softClearance, ch.resolution)), c)
       else NearOn(Occupied(ch, ps), AtLeastZero(CellsFor(ps.clearance, ch.resolution)), c)
  }

  method Inflate(ch: Chart, ps: Params) returns (blocked: array2<bool>)
    requires ch.resolution > 0.0
    ensures blocked.Length0 == ch.height && blocked.Length1 == ch.width
    ensures forall r, c :: 0 <= r < ch.height && 0 <= c < ch.width ==>
              (blocked[r, c] <==> Inflated(ch, ps, Cell(r, c)))
  {
    hide NearOn, Occupied, Hard, Soft;
    assert Occupied(ch, ps).height == Hard(ch, ps).height == Soft(ch, ps).height == ch.height
        && Occupied(ch, ps).width == Hard(ch, ps).width == Soft(ch, ps).width == ch.width by {
      LayerShapes(ch, ps);
    }
    var near := CellsFor(ps.clearance, ch.resolution);
    var inflated := Dilate(Occupied(ch, ps), near);
    var other := inflated;
    if TwoLayers(ch, ps) {
      inflated := Dilate(Hard(ch, ps), near);
      other := Dilate(Soft(ch, ps), CellsFor(ps.softClearance, ch.resolution));
    }
    blocked := new bool[ch.height, ch.width]((r, c) reads inflated, other
      requires inflated.Length0 == ch.height && inflated.Length1 == ch.width
      requires other.Length0 == ch.height && other.Length1 == ch.width =>
      0 <= r < ch.height && 0 <= c < ch.width
      && (ch.level(Cell(r, c)) > ps.freeThresh || inflated[r, c] || other[r, c]));
  }

  lemma LayerShapes(ch: Chart, ps: Params)
    ensures Occupied(ch, ps).height == Hard(ch, ps).height == Soft(ch, ps).height == ch.height
    ensures Occupied(ch, ps).width == Hard(ch, ps).width == Soft(ch, ps).width == ch.width
  {
  }

  lemma CeilCovers(metres: real, resolution: real)
    requires resolution > 0.0
    ensures AtLeastZero(CellsFor(metres, resolution)) as real * resolution >= metres
  {
    var q := metres / resolution;
    assert q * resolution == metres;
    var k := AtLeastZero(CellsFor(metres, resolution)) as real;
    assert k >= q;
    assert (k - q) * resolution >= 0.0;
  }

  lemma CentreDelta(meta: Meta, c: Cell, u: Cell)
    ensures ToWorld(meta, c).x - ToWorld(meta, u).x == (c.col - u.col) as real * meta.resolution
    ensures ToWorld(meta, c).y - ToWorld(meta, u).y == (c.row - u.row) as real * meta.resolution
  {
  }

  lemma LessScaled(k: real, h: real, r: real, metres: real)
    requires r > 0.0 && k < h && k * r >= metres
    ensures h * r > metres
  {
    assert (h - k) * r > 0.0;
  }

  lemma FarScaled(hyp: (real, real) -> real, dx: real, dy: real, r: real, k: real, metres: real, a: real, b: real)
    requires IsHypot(hyp) && r > 0.0 && k < hyp(dx, dy) && k * r >= metres && a == dx * r && b == dy * r
    ensures hyp(a, b) > metres
  {
    HypotScale(hyp, dx, dy, r);
    LessScaled(k, hyp(dx, dy), r, metres);
  }

  lemma FarCentre(hyp: (real, real) -> real, meta: Meta, metres: real, c: Cell, u: Cell)
    requires IsHypot(hyp) && meta.resolution > 0.0
    requires !InDisc(AtLeastZero(CellsFor(metres, meta.resolution)), c.row - u.row, c.col - u.col)
    ensures Dist(hyp, ToWorld(meta, c), ToWorld(meta, u)) > metres
  {
    hide IsHypot, ToWorld, AtLeastZero, CellsFor, InDisc;
    var k := AtLeastZero(CellsFor(metres, meta.resolution));
    var dx, dy := (c.col - u.col) as real, (c.row - u.row) as real;
    CeilCovers(metres, meta.resolution);
    DiscOrder(k, c.row - u.row, c.col - u.col);
    BeyondDisc(hyp, k, c.col - u.col, c.row - u.row);
    CentreDelta(meta, c, u);
    var p, q := ToWorld(meta, c), ToWorld(meta, u);
    FarScaled(hyp, dx, dy, meta.resolution, k as real, metres, p.x - q.x, p.y - q.y);
  }

  lemma DiscOrder(k: int, dr: int, dc: int)
    requires !InDisc(k, dr, dc)
    ensures dc * dc + dr * dr > k * k
  {
  }

  lemma BeyondDisc(hyp: (real, real) -> real, k: nat, dx: int, dy: int)
    requires IsHypot(hyp) && dx * dx + dy * dy > k * k
    ensures hyp(dx as real, dy as real) > k as real
  {
    var h := hyp(dx as real, dy as real);
    assert h * h == (dx * dx + dy * dy) as real;
    assert (k as real) * (k as real) == (k * k) as real;
    if h <= k as real {
      SquareOrder(h, k as real);
    }
  }

  lemma SquareOrder(x: real, y: real)
    requires 0.0 <= x <= y
    ensures x * x <= y * y
  {
    assert y * y == x * x + (y - x) * (y + x);
  }

  lemma HypotScale(hyp: (real, real) -> real, x: real, y: real, r: real)
    requires IsHypot(hyp) && r > 0.0
    ensures hyp(x * r, y * r) == hyp(x, y) * r
  {
    var h := hyp(x, y);
    assert (h * r) * (h * r) == (h * h) * (r * r);
    assert (x * r) * (x * r) + (y * r) * (y * r) == (x * x + y * y) * (r * r);
    RootUnique(hyp(x * r, y * r), h * r);
  }

  /** An unblocked cell keeps its centre more than the full clearance from every hard obstacle cell, and more than the
      soft clearance, or the full one if that is less, from every obstacle cell. */
  lemma InflatedClearance(hyp: (real, real) -> real, meta: Meta, ch: Chart, ps: Params, c: Cell, u: Cell)
    requires IsHypot(hyp) && meta.resolution == ch.resolution > 0.0
    requires On(Occupied(ch, ps), u) && !Inflated(ch, ps, c)
    ensures Dist(hyp, ToWorld(meta, c), ToWorld(meta, u))
              > (if ps.softClearance < ps.clearance then ps.softClearance else ps.clearance)
    ensures ch.level(u) >= ps.hardThresh ==> Dist(hyp, ToWorld(meta, c), ToWorld(meta, u)) > ps.clearance
  {
    if TwoLayers(ch, ps) {
      if ch.level(u) >= ps.hardThresh {
        assert On(Hard(ch, ps), u);
        FarCentre(hyp, meta, ps.clearance, c, u);
      } else {
        assert On(Soft(ch, ps), u);
        FarCentre(hyp, meta, ps.softClearance, c, u);
      }
    } else {
      FarCentre(hyp, meta, ps.clearance, c, u);
    }
  }

  /** An obstacle cell of some layer within that layer's reach, rounded up to whole cells. */
  ghost predicate CauseOf(hyp: (real, real) -> real, meta: Meta, ch: Chart, ps: Params, c: Cell, u: Cell)
    requires ch.resolution > 0.0
  {
    var dist := Dist(hyp, ToWorld(meta, c), ToWorld(meta, u));
    var full, soft := AtLeastZero(CellsFor(ps.clearance, ch.resolution)), AtLeastZero(CellsFor(ps.softClearance, ch.resolution));
    if TwoLayers(ch, ps) then
      || (On(Hard(ch, ps), u) && dist <= full as real * ch.resolution)
      || (On(Soft(ch, ps), u) && dist <= soft as real * ch.resolution)
    else On(Occupied(ch, ps), u) && dist <= full as real * ch.resolution
  }

  /** Conversely nothing is blocked without cause: it was not seen free, or an obstacle is within reach - and what is not seen
      free is blocked. */
  lemma BlockedForCause(hyp: (real, real) -> real, meta: Meta, ch: Chart, ps: Params, c: Cell)
    requires IsHypot(hyp) && meta.resolution == ch.resolution > 0.0
    ensures Inflated(ch, ps, c) ==> ch.level(c) > ps.freeThresh || exists u :: CauseOf(hyp, meta, ch, ps, c, u)
    ensures ch.level(c) > ps.freeThresh ==> Inflated(ch, ps, c)
  {
    hide IsHypot, Dist, ToWorld, InDisc, CellsFor;
    if Inflated(ch, ps, c) && ch.level(c) <= ps.freeThresh {
      var full, soft := AtLeastZero(CellsFor(ps.clearance, ch.resolution)), AtLeastZero(CellsFor(ps.softClearance, ch.resolution));
      var (m, k) :=
        if !TwoLayers(ch, ps) then (Occupied(ch, ps), full)
        else if NearOn(Hard(ch, ps), full, c) then (Hard(ch, ps), full) else (Soft(ch, ps), soft);
      var u :| On(m, u) && InDisc(k, c.row - u.row, c.col - u.col);
      NearCentre(hyp, meta, k, c, u);
      assert CauseOf(hyp, meta, ch, ps, c, u);
    }
  }

  lemma NearCentre(hyp: (real, real) -> real, meta: Meta, k: nat, c: Cell, u: Cell)
    requires IsHypot(hyp) && meta.resolution > 0.0 && InDisc(k, c.row - u.row, c.col - u.col)
    ensures Dist(hyp, ToWorld(meta, c), ToWorld(meta, u)) <= k as real * meta.resolution
  {
    hide IsHypot, ToWorld;
    WithinDisc(hyp, k, c.col - u.col, c.row - u.row);
    CentreDelta(meta, c, u);
    var p, q := ToWorld(meta, c), ToWorld(meta, u);
    hide InDisc;
    NearScaled(hyp, (c.col - u.col) as real, (c.row - u.row) as real, meta.resolution, k as real, p.x - q.x, p.y - q.y);
  }

  lemma NearScaled(hyp: (real, real) -> real, dx: real, dy: real, r: real, k: real, a: real, b: real)
    requires IsHypot(hyp) && r > 0.0 && hyp(dx, dy) <= k && a == dx * r && b == dy * r
    ensures hyp(a, b) <= k * r
  {
    HypotScale(hyp, dx, dy, r);
    hide IsHypot;
    AtLeastTimes(k, hyp(dx, dy), r);
  }

  lemma WithinDisc(hyp: (real, real) -> real, k: nat, dx: int, dy: int)
    requires IsHypot(hyp) && dy * dy + dx * dx <= k * k
    ensures hyp(dx as real, dy as real) <= k as real
  {
    var h := hyp(dx as real, dy as real);
    assert h * h == (dy * dy + dx * dx) as real;
    assert (k as real) * (k as real) == (k * k) as real;
    RootOrder(h, k as real);
  }

  /** The rounding adds less than a cell. */
  lemma ReachIsTight(metres: real, resolution: real)
    requires resolution > 0.0 && metres >= 0.0
    ensures metres <= AtLeastZero(CellsFor(metres, resolution)) as real * resolution < metres + resolution
  {
    CeilCovers(metres, resolution);
    CeilBelow(metres, resolution);
    hide CellsFor, AtLeastZero;
    LessThanOneMore(metres, resolution, AtLeastZero(CellsFor(metres, resolution)) as real);
  }

  lemma CeilBelow(metres: real, resolution: real)
    requires resolution > 0.0 && metres >= 0.0
    ensures (AtLeastZero(CellsFor(metres, resolution)) as real) < metres / resolution + 1.0
  {
    assert metres / resolution >= 0.0;
  }

  lemma LessThanOneMore(metres: real, r: real, k: real)
    requires r > 0.0 && k < metres / r + 1.0
    ensures k * r < metres + r
  {
    var q := metres / r;
    assert q * r == metres;
    var d := q + 1.0 - k;
    assert d * r > 0.0;
    assert d * r == q * r + r - k * r;
  }

  // ----- the body collision mask -----

  /** How many whole cells lie between two cells a distance `d` apart on one axis. */
  function Beyond(d: int): nat {
    if d > 1 then d - 1 else if d < -1 then -d - 1 else 0
  }

  /** The smallest distance between points of two cells whose indices differ by (dr, dc). */
  function Gap(hyp: (real, real) -> real, resolution: real, dr: int, dc: int): real {
    hyp(Beyond(dr) as real, Beyond(dc) as real) * resolution
  }

  const SLACK: real := 0.000000001

  predicate BodyKernel(hyp: (real, real) -> real, resolution: real, radius: real, dr: int, dc: int) {
    Gap(hyp, resolution, dr, dc) < radius - SLACK || (dr == 0 && dc == 0)
  }

  /** Where the body must not be: off the map, or not known to be free. */
  predicate Unsafe(ch: Chart, ps: Params, c: Cell) {
    !(0 <= c.row < ch.height && 0 <= c.col < ch.width) || ch.level(c) > ps.freeThresh
  }

  /** A body centred somewhere in `c` could reach an unsafe cell. */
  ghost predicate BodyHits(hyp: (real, real) -> real, ch: Chart, ps: Params, c: Cell) {
    exists u :: Unsafe(ch, ps, u) && BodyKernel(hyp, ch.resolution, ps.bodyRadius, c.row - u.row, c.col - u.col)
  }

  /** The unsafe cells with `pad` rows and columns of unsafe frame around the map. */
  function Framed(ch: Chart, ps: Params, pad: nat): Mask {
    var frame := Mask(ch.height + 2 * pad, ch.width + 2 * pad, {});
    frame.(blocked := set c | c in AllCells(frame) && Unsafe(ch, ps, Cell(c.row - pad, c.col - pad)))
  }

  function Kernel(hyp: (real, real) -> real, resolution: real, radius: real): (int, int) -> bool {
    (dr, dc) => BodyKernel(hyp, resolution, radius, dr, dc)
  }

  method BodyCollisionMask(hyp: (real, real) -> real, ch: Chart, ps: Params) returns (out: Option<array2<bool>>)
    requires IsHypot(hyp) && ch.resolution > 0.0
    ensures out.Some? <==> 0.0 < ps.bodyRadius <= ps.clearance
    ensures out.Some? ==> out.value.Length0 == ch.height && out.value.Length1 == ch.width
    ensures out.Some? ==> forall r, c :: 0 <= r < ch.height && 0 <= c < ch.width ==>
              (out.value[r, c] <==> BodyHits(hyp, ch, ps, Cell(r, c)))
  {
    if ps.bodyRadius <= 0.0 || ps.bodyRadius > ps.clearance {
      return None;
    }
    hide *;
    var pad := AtLeastZero(CellsFor(ps.bodyRadius, ch.resolution)) + 1;
    var stamped := StampFramed(hyp, ch, ps, pad);
    var cropped := Crop(stamped, pad, ch.height, ch.width);
    out := Some(cropped);
  }

  method StampFramed(hyp: (real, real) -> real, ch: Chart, ps: Params, pad: nat) returns (stamped: array2<bool>)
    requires IsHypot(hyp) && ch.resolution > 0.0 && ps.bodyRadius > 0.0
    requires pad == AtLeastZero(CellsFor(ps.bodyRadius, ch.resolution)) + 1
    ensures stamped.Length0 == ch.height + 2 * pad && stamped.Length1 == ch.width + 2 * pad
    ensures forall r, c :: 0 <= r < ch.height && 0 <= c < ch.width ==>
              (stamped[r + pad, c + pad] <==> BodyHits(hyp, ch, ps, Cell(r, c)))
  {
    hide *;
    var frame := Framed(ch, ps, pad);
    FramedSize(ch, ps, pad);
    stamped := Stamp(frame, pad, Kernel(hyp, ch.resolution, ps.bodyRadius));
    forall r, c | 0 <= r < ch.height && 0 <= c < ch.width
      ensures stamped[r + pad, c + pad] <==> BodyHits(hyp, ch, ps, Cell(r, c))
    {
      FrameSuffices(hyp, ch, ps, pad, Cell(r, c));
      FramedHolds(frame, ch.height, ch.width, pad, r, c);
    }
  }

  lemma FramedSize(ch: Chart, ps: Params, pad: nat)
    ensures Framed(ch, ps, pad).height == ch.height + 2 * pad && Framed(ch, ps, pad).width == ch.width + 2 * pad
  {
  }

  lemma FramedHolds(frame: Mask, height: nat, width: nat, pad: nat, r: int, c: int)
    requires frame.height == height + 2 * pad && frame.width == width + 2 * pad && 0 <= r < height && 0 <= c < width
    ensures Inside(frame, Cell(r + pad, c + pad))
  {
  }

  /** `out[pad : pad + h, pad : pad + w]` */
  method Crop(a: array2<bool>, pad: nat, height: nat, width: nat) returns (out: array2<bool>)
    requires a.Length0 == height + 2 * pad && a.Length1 == width + 2 * pad
    ensures out.Length0 == height && out.Length1 == width
    ensures forall r, c :: 0 <= r < height && 0 <= c < width ==> out[r, c] == a[r + pad, c + pad]
  {
    out := new bool[height, width]((r, c) reads a
      requires a.Length0 == height + 2 * pad && a.Length1 == width + 2 * pad =>
      0 <= r < height && 0 <= c < width && a[r + pad, c + pad]);
  }

  /** Cells more than the pad apart keep at least the radius between them. */
  lemma FarGap(hyp: (real, real) -> real, resolution: real, radius: real, pad: nat, dr: int, dc: int)
    requires IsHypot(hyp) && resolution > 0.0 && radius > 0.0
    requires pad == AtLeastZero(CellsFor(radius, resolution)) + 1
    requires !InRange(pad, dr, dc)
    ensures Gap(hyp, resolution, dr, dc) >= radius
  {
    hide IsHypot, CellsFor, AtLeastZero, Beyond, InRange;
    BeyondReach(hyp, pad - 1, dr, dc);
    CeilCovers(radius, resolution);
    AtLeastTimes(hyp(Beyond(dr) as real, Beyond(dc) as real), (pad - 1) as real, resolution);
  }

  lemma BeyondReach(hyp: (real, real) -> real, k: nat, dr: int, dc: int)
    requires IsHypot(hyp) && !InRange(k + 1, dr, dc)
    ensures hyp(Beyond(dr) as real, Beyond(dc) as real) >= k as real
  {
    LegBound(hyp, Beyond(dr) as real, Beyond(dc) as real);
    hide IsHypot;
  }

  lemma AtLeastTimes(x: real, y: real, r: real)
    requires x >= y && r > 0.0
    ensures x * r >= y * r
  {
    assert (x - y) * r >= 0.0;
  }

  lemma KernelReach(hyp: (real, real) -> real, resolution: real, radius: real, pad: nat, dr: int, dc: int)
    requires IsHypot(hyp) && resolution > 0.0 && radius > 0.0
    requires pad == AtLeastZero(CellsFor(radius, resolution)) + 1
    requires BodyKernel(hyp, resolution, radius, dr, dc)
    ensures InRange(pad, dr, dc)
  {
    hide IsHypot, Gap, Beyond, AtLeastZero, CellsFor;
    if !InRange(pad, dr, dc) {
      FarGap(hyp, resolution, radius, pad, dr, dc);
    }
  }

  lemma FramedAt(ch: Chart, ps: Params, pad: nat, v: Cell)
    ensures On(Framed(ch, ps, pad), v)
       <==> && 0 <= v.row < ch.height + 2 * pad && 0 <= v.col < ch.width + 2 * pad
            && Unsafe(ch, ps, Cell(v.row - pad, v.col - pad))
  {
    hide Unsafe, AllCells;
    var frame := Mask(ch.height + 2 * pad, ch.width + 2 * pad, {});
    assert v in AllCells(frame) <==> Inside(frame, v);
  }

  lemma FrameFinds(hyp: (real, real) -> real, ch: Chart, ps: Params, pad: nat, c: Cell)
    requires IsHypot(hyp) && ch.resolution > 0.0 && ps.bodyRadius > 0.0
    requires pad == AtLeastZero(CellsFor(ps.bodyRadius, ch.resolution)) + 1
    requires 0 <= c.row < ch.height && 0 <= c.col < ch.width && BodyHits(hyp, ch, ps, c)
    ensures Stamped(Framed(ch, ps, pad), pad, Kernel(hyp, ch.resolution, ps.bodyRadius), Cell(c.row + pad, c.col + pad))
  {
    hide IsHypot, Framed, BodyKernel, On, Unsafe;
    var m, at := Framed(ch, ps, pad), Cell(c.row + pad, c.col + pad);
    var u :| Unsafe(ch, ps, u) && BodyKernel(hyp, ch.resolution, ps.bodyRadius, c.row - u.row, c.col - u.col);
    var dr, dc := c.row - u.row, c.col - u.col;
    KernelReach(hyp, ch.resolution, ps.bodyRadius, pad, dr, dc);
    var v := Cell(at.row - dr, at.col - dc);
    assert Cell(v.row - pad, v.col - pad) == u;
    FramedAt(ch, ps, pad, v);
    assert On(m, v);
    assert Kernel(hyp, ch.resolution, ps.bodyRadius)(dr, dc);
  }

  lemma ZeroKernel(hyp: (real, real) -> real, resolution: real, radius: real)
    ensures BodyKernel(hyp, resolution, radius, 0, 0)
  {
  }

  lemma FrameOnly(hyp: (real, real) -> real, ch: Chart, ps: Params, pad: nat, c: Cell)
    requires Stamped(Framed(ch, ps, pad), pad, Kernel(hyp, ch.resolution, ps.bodyRadius), Cell(c.row + pad, c.col + pad))
    ensures BodyHits(hyp, ch, ps, c)
  {
    hide Framed, BodyKernel, On, Unsafe;
    var m, at := Framed(ch, ps, pad), Cell(c.row + pad, c.col + pad);
    var kernel := Kernel(hyp, ch.resolution, ps.bodyRadius);
    var u := c;
    if !On(m, at) {
      var dr, dc :| InRange(pad, dr, dc) && kernel(dr, dc) && On(m, Cell(at.row - dr, at.col - dc));
      u := Cell(c.row - dr, c.col - dc);
      FramedAt(ch, ps, pad, Cell(at.row - dr, at.col - dc));
      assert kernel(dr, dc) && c.row - u.row == dr && c.col - u.col == dc;
      assert Cell(at.row - dr - pad, at.col - dc - pad) == u;
    } else {
      FramedAt(ch, ps, pad, at);
      ZeroKernel(hyp, ch.resolution, ps.bodyRadius);
      assert Cell(at.row - pad, at.col - pad) == c;
    }
    assert Unsafe(ch, ps, u);
    assert BodyKernel(hyp, ch.resolution, ps.bodyRadius, c.row - u.row, c.col - u.col);
  }

  /** No unsafe cell beyond the frame can matter. */
  lemma FrameSuffices(hyp: (real, real) -> real, ch: Chart, ps: Params, pad: nat, c: Cell)
    requires IsHypot(hyp) && ch.resolution > 0.0 && ps.bodyRadius > 0.0
    requires pad == AtLeastZero(CellsFor(ps.bodyRadius, ch.resolution)) + 1
    requires 0 <= c.row < ch.height && 0 <= c.col < ch.width
    ensures Stamped(Framed(ch, ps, pad), pad, Kernel(hyp, ch.resolution, ps.bodyRadius), Cell(c.row + pad, c.col + pad))
       <==> BodyHits(hyp, ch, ps, c)
  {
    hide Stamped, BodyHits;
    if BodyHits(hyp, ch, ps, c) {
      FrameFinds(hyp, ch, ps, pad, c);
    } else if Stamped(Framed(ch, ps, pad), pad, Kernel(hyp, ch.resolution, ps.bodyRadius), Cell(c.row + pad, c.col + pad)) {
      FrameOnly(hyp, ch, ps, pad, c);
    }
  }

  /** On one axis, points of two cells are at least the whole cells between them apart. */
  lemma AxisGap(o: real, r: real, k: int, j: int, p: real, q: real)
    requires r > 0.0
    requires o + k as real * r <= p <= o + (k as real + 1.0) * r && o + j as real * r <= q <= o + (j as real + 1.0) * r
    ensures Beyond(k - j) as real * r <= (if p >= q then p - q else q - p)
  {
    if k - j > 1 {
      assert p - q >= (k as real - (j as real + 1.0)) * r;
    } else if k - j < -1 {
      assert q - p >= (j as real - (k as real + 1.0)) * r;
    }
  }

  lemma GapBound(hyp: (real, real) -> real, x: real, y: real, r: real, dx: real, dy: real)
    requires IsHypot(hyp) && r > 0.0 && x >= 0.0 && y >= 0.0
    requires x * r <= (if dx >= 0.0 then dx else -dx) && y * r <= (if dy >= 0.0 then dy else -dy)
    ensures hyp(x, y) * r <= hyp(dx, dy)
  {
    HypotScale(hyp, x, y, r);
    HypotSign(hyp, dx, dy);
    assert x * r >= 0.0 && y * r >= 0.0;
    HypotMonotone(hyp, x * r, y * r, if dx >= 0.0 then dx else -dx, if dy >= 0.0 then dy else -dy);
  }

  lemma AxisGaps(meta: Meta, c: Cell, u: Cell, p: Point, q: Point)
    requires meta.resolution > 0.0 && SquareHolds(meta, c, p) && SquareHolds(meta, u, q)
    ensures Beyond(c.col - u.col) as real * meta.resolution <= if p.x - q.x >= 0.0 then p.x - q.x else -(p.x - q.x)
    ensures Beyond(c.row - u.row) as real * meta.resolution <= if p.y - q.y >= 0.0 then p.y - q.y else -(p.y - q.y)
  {
    AxisGap(meta.originX, meta.resolution, c.col, u.col, p.x, q.x);
    AxisGap(meta.originY, meta.resolution, c.row, u.row, p.y, q.y);
  }

  lemma SquaresApart(hyp: (real, real) -> real, meta: Meta, c: Cell, u: Cell, p: Point, q: Point)
    requires IsHypot(hyp) && meta.resolution > 0.0 && SquareHolds(meta, c, p) && SquareHolds(meta, u, q)
    ensures Gap(hyp, meta.resolution, c.row - u.row, c.col - u.col) <= Dist(hyp, p, q)
  {
    hide IsHypot, SquareHolds, Beyond;
    var x, y := Beyond(c.col - u.col) as real, Beyond(c.row - u.row) as real;
    AxisGaps(meta, c, u, p, q);
    HypotSwap(hyp, x, y);
    GapBound(hyp, x, y, meta.resolution, p.x - q.x, p.y - q.y);
  }

  lemma HypotSwap(hyp: (real, real) -> real, x: real, y: real)
    requires IsHypot(hyp)
    ensures hyp(x, y) == hyp(y, x)
  {
    RootUnique(hyp(x, y), hyp(y, x));
  }

  /** A body mask admits a cell only if a body centred anywhere in it stays clear of everything unsafe. */
  ghost predicate IsBodyMask(hyp: (real, real) -> real, ch: Chart, ps: Params, m: Mask) {
    m.height == ch.height && m.width == ch.width
    && forall c :: Inside(m, c) && BodyHits(hyp, ch, ps, c) ==> c in m.blocked
  }

  /** The whole body is safe along every segment that the finite check accepts: at every moment, every point of every
      cell that is off the map or not known to be free is at least the body radius (less a nanometre) away. */
  lemma BodyClearAlong(hyp: (real, real) -> real, meta: Meta, ch: Chart, ps: Params, body: Mask,
                       start: Point, end: Point, t: real, u: Cell, q: Point)
    requires IsHypot(hyp) && meta.resolution == ch.resolution > 0.0 && IsBodyMask(hyp, ch, ps, body)
    requires Segment.WorldClear(meta, body, start, end) && 0.0 <= t <= 1.0
    requires Unsafe(ch, ps, u) && SquareHolds(meta, u, q)
    ensures Dist(hyp, Along(start, end, t), q) >= ps.bodyRadius - SLACK
  {
    var p := Along(start, end, t);
    var c := ToCell(meta, p);
    SquareIsTouch(meta, c, p);
    Segment.SegmentCovers(meta, body, start, end, t, c);
    assert !BodyHits(hyp, ch, ps, c);
    assert !BodyKernel(hyp, ch.resolution, ps.bodyRadius, c.row - u.row, c.col - u.col);
    SquaresApart(hyp, meta, c, u, p, q);
  }
}

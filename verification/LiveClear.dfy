/** Cells that fresh scans keep seeing free are cleared for planning, for a while. */
module LiveClear {
  import opened Optional
  import opened Grid

  datatype Frame = Frame(resolution: real, originX: real, originY: real, rows: nat, cols: nat)

  datatype ScanId = ScanId(device: int, boot: int, number: int)

  /** One beam: the cells it crosses, the last two of which are no evidence, and the cell it ends in. Which beams are finite
      and in range, and the line through the cells, are given. */
  datatype Beam = Beam(usable: bool, cells: seq<Cell>, end: Cell)

  datatype Scan = Scan(id: ScanId, beams: seq<Beam>)

  datatype Params = Params(needed: nat, maxAge: int, ttl: int)

  predicate CrossedBy(beam: Beam, c: Cell) {
    beam.usable && exists k :: 0 <= k < |beam.cells| - 2 && beam.cells[k] == c
  }

  predicate Hit(beams: seq<Beam>, c: Cell) {
    exists i :: 0 <= i < |beams| && beams[i].usable && beams[i].end == c
  }

  predicate SeenFree(beams: seq<Beam>, c: Cell) {
    !Hit(beams, c) && exists i :: 0 <= i < |beams| && CrossedBy(beams[i], c)
  }

  /** The cells a beam speaks for: none without a usable return, else all but its last two. */
  function SpokenFor(beam: Beam): seq<Cell> {
    if !beam.usable || |beam.cells| < 2 then [] else beam.cells[..|beam.cells| - 2]
  }

  /** A scan sees a cell free exactly if some beam speaks for it and no usable beam ends there. */
  lemma SeenFreeIff(beams: seq<Beam>, c: Cell)
    ensures SeenFree(beams, c)
            <==> (exists b :: b in beams && c in SpokenFor(b)) && (forall b :: b in beams && b.usable ==> b.end != c)
  {
    if SeenFree(beams, c) {
      var i :| 0 <= i < |beams| && CrossedBy(beams[i], c);
      assert beams[i] in beams && c in SpokenFor(beams[i]);
      forall b | b in beams && b.usable
        ensures b.end != c
      {
        var k :| 0 <= k < |beams| && beams[k] == b;
      }
    }
    if b :| b in beams && c in SpokenFor(b) {
      var i :| 0 <= i < |beams| && beams[i] == b;
      assert CrossedBy(beams[i], c);
    }
  }

  // ----- the accepted scans -----

  /** An accepted scan; `restarts` when it came too late, or too early, after the one before. */
  datatype Seen = Seen(id: ScanId, at: int, beams: seq<Beam>, restarts: bool)

  /** What there is to know: the frame, the last accepted scan, and the scans accepted since the evidence was last wiped. */
  datatype History = History(frame: Option<Frame>, lastId: Option<ScanId>, lastAt: Option<int>, log: seq<Seen>)

  const BLANK := History(None, None, None, [])

  function Framed(h: History, frame: Frame): History {
    if h.frame == Some(frame) then h else History(Some(frame), None, None, [])
  }

  predicate SameRun(a: ScanId, b: ScanId) {
    a.device == b.device && a.boot == b.boot
  }

  predicate Stale(last: Option<ScanId>, id: ScanId) {
    last.Some? && SameRun(last.value, id) && id.number <= last.value.number
  }

  predicate Restarts(lastAt: Option<int>, now: int, maxAge: int) {
    lastAt.Some? && !(0 <= now - lastAt.value <= maxAge)
  }

  function Observed(h: History, frame: Frame, scan: Scan, now: int, verified: bool, params: Params): History {
    var f := Framed(h, frame);
    if !verified then f.(log := [])
    else if Stale(f.lastId, scan.id) then f
    else
      var kept := if f.lastId.Some? && !SameRun(f.lastId.value, scan.id) then [] else f.log;
      History(f.frame, Some(scan.id), Some(now), kept + [Seen(scan.id, now, scan.beams, Restarts(f.lastAt, now, params.maxAge))])
  }

  /** How many of the last accepted scans, without a restart, saw the cell free. */
  function Streak(log: seq<Seen>, c: Cell): nat {
    if log == [] then 0
    else
      var last := log[|log| - 1];
      if !SeenFree(last.beams, c) then 0
      else 1 + if last.restarts then 0 else Streak(log[..|log| - 1], c)
  }

  /** When the cell was last cleared and not hit since; -1 for never. */
  function ClearedAt(log: seq<Seen>, c: Cell, needed: nat): int {
    if log == [] then -1
    else
      var last := log[|log| - 1];
      if Hit(last.beams, c) then -1
      else if SeenFree(last.beams, c) && Streak(log, c) >= needed then last.at
      else ClearedAt(log[..|log| - 1], c, needed)
  }

  function Least(a: nat, b: nat): nat { if a < b then a else b }

  class LiveClear {
    const params: Params
    var counts: array2<int>    // empty until the first frame
    var seen: array2<int>
    var frame: Option<Frame>
    var lastId: Option<ScanId>
    var lastAt: Option<int>
    ghost var log: seq<Seen>

    ghost function Abs(): History
      reads this
    {
      History(frame, lastId, lastAt, log)
    }

    ghost predicate Sized()
      reads this
    {
      && counts != seen
      && (frame.Some? ==>
            && counts.Length0 == frame.value.rows && counts.Length1 == frame.value.cols
            && seen.Length0 == frame.value.rows && seen.Length1 == frame.value.cols)
    }

    /** The arrays say what the accepted scans say. */
    ghost predicate Valid()
      reads this, counts, seen
    {
      && Sized()
      && (frame.Some? ==> forall r, c :: 0 <= r < frame.value.rows && 0 <= c < frame.value.cols ==>
            && counts[r, c] == Least(Streak(log, Cell(r, c)), params.needed)
            && seen[r, c] == ClearedAt(log, Cell(r, c), params.needed))
    }

    constructor (params: Params)
      ensures Valid() && fresh(counts) && fresh(seen) && Abs() == BLANK && this.params == params
    {
      this.params := params;
      counts, seen := new int[0, 0], new int[0, 0];
      frame, lastId, lastAt, log := None, None, None, [];
    }

    method Reset(to: Frame)
      modifies this
      ensures Valid() && fresh(counts) && fresh(seen) && Abs() == History(Some(to), None, None, [])
    {
      frame := Some(to);
      counts := new int[to.rows, to.cols]((r, c) => 0);
      seen := new int[to.rows, to.cols]((r, c) => -1);
      lastId, lastAt, log := None, None, [];
    }

    method ClearCounts()
      requires Sized()
      modifies counts
      ensures forall r, c :: 0 <= r < counts.Length0 && 0 <= c < counts.Length1 ==> counts[r, c] == 0
    {
      forall r, c | 0 <= r < counts.Length0 && 0 <= c < counts.Length1 {
        counts[r, c] := 0;
      }
    }

    /** Forget all evidence. */
    method Wipe()
      requires Sized()
      modifies counts, seen, this`log
      ensures Valid() && log == []
    {
      ClearCounts();
      forall r, c | 0 <= r < seen.Length0 && 0 <= c < seen.Length1 {
        seen[r, c] := -1;
      }
      log := [];
    }

    method Observe(to: Frame, scan: Scan, now: int, verified: bool)
      requires Valid()
      modifies this, counts, seen
      ensures Valid() && Abs() == Observed(old(Abs()), to, scan, now, verified, params)
      ensures counts == old(counts) || fresh(counts)
      ensures seen == old(seen) || fresh(seen)
    {
      if frame != Some(to) {
        Reset(to);
      }
      if !verified {
        Wipe();
        return;
      }
      if lastId.Some? && SameRun(lastId.value, scan.id) && scan.id.number <= lastId.value.number {
        return;
      }
      if lastId.Some? && !SameRun(lastId.value, scan.id) {
        Wipe();
      }
      Accept(scan, now);
    }

    method Accept(scan: Scan, now: int)
      requires Valid() && frame.Some?
      modifies this`lastId, this`lastAt, this`log, counts, seen
      ensures Valid() && lastId == Some(scan.id) && lastAt == Some(now)
      ensures log == old(log) + [Seen(scan.id, now, scan.beams, Restarts(old(lastAt), now, params.maxAge))]
    {
      ghost var entry := Seen(scan.id, now, scan.beams, Restarts(lastAt, now, params.maxAge));
      if lastAt.Some? && !(0 <= now - lastAt.value <= params.maxAge) {
        ClearCounts();
      }
      lastId, lastAt := Some(scan.id), Some(now);
      var free, hits := Mark(scan.beams, counts.Length0, counts.Length1);
      Update(free, hits, now, entry);
      log := log + [entry];
    }

    /** Mark the cells the beams cross and hit; a hit cell is not free, whatever other beam crosses it. */
    method Mark(beams: seq<Beam>, rows: nat, cols: nat) returns (free: array2<bool>, hits: array2<bool>)
      ensures fresh(free) && fresh(hits) && free.Length0 == hits.Length0 == rows && free.Length1 == hits.Length1 == cols
      ensures forall r, c :: 0 <= r < rows && 0 <= c < cols ==> free[r, c] == SeenFree(beams, Cell(r, c))
      ensures forall r, c :: 0 <= r < rows && 0 <= c < cols ==> hits[r, c] == Hit(beams, Cell(r, c))
    {
      free := new bool[rows, cols]((r, c) => false);
      hits := new bool[rows, cols]((r, c) => false);
      for i := 0 to |beams|
        invariant forall r, c :: 0 <= r < rows && 0 <= c < cols ==>
                    (free[r, c] <==> exists k :: 0 <= k < i && CrossedBy(beams[k], Cell(r, c)))
        invariant forall r, c :: 0 <= r < rows && 0 <= c < cols ==> (hits[r, c] <==> Hit(beams[..i], Cell(r, c)))
      {
        if beams[i].usable {
          MarkCrossed(free, beams[i]);
          var end := beams[i].end;
          if 0 <= end.row < rows && 0 <= end.col < cols {
            hits[end.row, end.col] := true;
          }
        }
        forall c
          ensures Hit(beams[..i + 1], c) <==> Hit(beams[..i], c) || (beams[i].usable && beams[i].end == c)
        {
          HitMore(beams, i, c);
        }
      }
      assert beams[..|beams|] == beams;
      forall r, c | 0 <= r < rows && 0 <= c < cols {
        free[r, c] := free[r, c] && !hits[r, c];
      }
    }

    method MarkCrossed(free: array2<bool>, beam: Beam)
      requires beam.usable
      modifies free
      ensures forall r, c :: 0 <= r < free.Length0 && 0 <= c < free.Length1 ==>
                (free[r, c] <==> old(free[r, c]) || CrossedBy(beam, Cell(r, c)))
    {
      var n := if |beam.cells| < 2 then 0 else |beam.cells| - 2;
      for k := 0 to n
        invariant forall r, c :: 0 <= r < free.Length0 && 0 <= c < free.Length1 ==>
                    (free[r, c] <==> old(free[r, c]) || exists j :: 0 <= j < k && beam.cells[j] == Cell(r, c))
      {
        var cell := beam.cells[k];
        if 0 <= cell.row < free.Length0 && 0 <= cell.col < free.Length1 {
          free[cell.row, cell.col] := true;
        }
        assert beam.cells[k] == cell;
      }
    }

    method Update(free: array2<bool>, hits: array2<bool>, now: int, ghost entry: Seen)
      requires Sized() && frame.Some? && entry.at == now
      requires free.Length0 == hits.Length0 == counts.Length0 && free.Length1 == hits.Length1 == counts.Length1
      requires forall r, c :: 0 <= r < counts.Length0 && 0 <= c < counts.Length1 ==>
                 && free[r, c] == SeenFree(entry.beams, Cell(r, c)) && hits[r, c] == Hit(entry.beams, Cell(r, c))
                 && counts[r, c] == (if entry.restarts then 0 else Least(Streak(log, Cell(r, c)), params.needed))
                 && seen[r, c] == ClearedAt(log, Cell(r, c), params.needed)
      modifies counts, seen
      ensures forall r, c :: 0 <= r < counts.Length0 && 0 <= c < counts.Length1 ==>
                && counts[r, c] == Least(Streak(log + [entry], Cell(r, c)), params.needed)
                && seen[r, c] == ClearedAt(log + [entry], Cell(r, c), params.needed)
    {
      hide Streak, ClearedAt, Hit, SeenFree;
      forall r, c | 0 <= r < counts.Length0 && 0 <= c < counts.Length1 {
        counts[r, c] := if free[r, c] then Least(counts[r, c] + 1, params.needed) else 0;
      }
      forall r, c | 0 <= r < counts.Length0 && 0 <= c < counts.Length1 {
        seen[r, c] := if hits[r, c] then -1 else if free[r, c] && counts[r, c] >= params.needed then now else seen[r, c];
      }
      forall r, c | 0 <= r < counts.Length0 && 0 <= c < counts.Length1
        ensures counts[r, c] == Least(Streak(log + [entry], Cell(r, c)), params.needed)
        ensures seen[r, c] == ClearedAt(log + [entry], Cell(r, c), params.needed)
      {
        OneMore(log, entry, Cell(r, c), params.needed);
      }
    }

    /** Which cells are cleared now. */
    method Mask(to: Frame, now: int) returns (mask: array2<bool>)
      requires Valid()
      modifies this
      ensures Valid() && Abs() == Framed(old(Abs()), to) && fresh(mask)
      ensures mask.Length0 == to.rows && mask.Length1 == to.cols
      ensures forall r, c :: 0 <= r < to.rows && 0 <= c < to.cols ==>
                mask[r, c] == Cleared(Abs(), Cell(r, c), now, params)
    {
      if frame != Some(to) {
        Reset(to);
      }
      mask := new bool[to.rows, to.cols]((r, c) => false);
      forall r, c | 0 <= r < to.rows && 0 <= c < to.cols {
        mask[r, c] := seen[r, c] >= 0 && now >= seen[r, c] && now - seen[r, c] < params.ttl;
      }
    }
  }

  /** What one more scan does to a cell's streak and to the time it was cleared. */
  lemma OneMore(log: seq<Seen>, entry: Seen, c: Cell, needed: nat)
    ensures Streak(log + [entry], c)
            == if SeenFree(entry.beams, c) then 1 + (if entry.restarts then 0 else Streak(log, c)) else 0
    ensures ClearedAt(log + [entry], c, needed)
            == if Hit(entry.beams, c) then -1
               else if SeenFree(entry.beams, c) && Streak(log + [entry], c) >= needed then entry.at
               else ClearedAt(log, c, needed)
  {
    assert (log + [entry])[..|log|] == log;
  }

  lemma HitMore(beams: seq<Beam>, i: nat, c: Cell)
    requires i < |beams|
    ensures Hit(beams[..i + 1], c) <==> Hit(beams[..i], c) || (beams[i].usable && beams[i].end == c)
  {
    if Hit(beams[..i], c) {
      var k :| 0 <= k < i && beams[..i][k].usable && beams[..i][k].end == c;
      assert beams[..i + 1][k] == beams[..i][k];
    }
    if Hit(beams[..i + 1], c) {
      var k :| 0 <= k < i + 1 && beams[..i + 1][k].usable && beams[..i + 1][k].end == c;
      if k < i {
        assert beams[..i][k] == beams[..i + 1][k];
      }
    }
    assert beams[..i + 1][i] == beams[i];
  }

  predicate Cleared(h: History, c: Cell, now: int, params: Params) {
    var t := ClearedAt(h.log, c, params.needed);
    t >= 0 && now >= t && now - t < params.ttl
  }

  // ----- the evidence behind a cleared cell -----

  /** Two accepted scans in a row: one device and boot, rising numbers, and no gap beyond the age unless the count restarted. */
  predicate Linked(a: Seen, b: Seen, maxAge: int) {
    SameRun(a.id, b.id) && a.id.number < b.id.number && (!b.restarts ==> 0 <= b.at - a.at <= maxAge)
  }

  predicate Chain(log: seq<Seen>, maxAge: int) {
    forall i :: 0 < i < |log| ==> Linked(log[i - 1], log[i], maxAge)
  }

  ghost predicate Chained(h: History, maxAge: int) {
    && Chain(h.log, maxAge)
    && (h.log != [] ==> h.lastId == Some(h.log[|h.log| - 1].id) && h.lastAt == Some(h.log[|h.log| - 1].at))
  }

  lemma ChainAppend(log: seq<Seen>, next: Seen, maxAge: int)
    requires Chain(log, maxAge) && (log != [] ==> Linked(log[|log| - 1], next, maxAge))
    ensures Chain(log + [next], maxAge)
  {
  }

  lemma ObservedKeepsChain(h: History, frame: Frame, scan: Scan, now: int, verified: bool, params: Params)
    requires Chained(h, params.maxAge)
    ensures Chained(Observed(h, frame, scan, now, verified, params), params.maxAge)
  {
    hide Chain;
    assert Chain([], params.maxAge) by { NoChain(params.maxAge); }
    var f := Framed(h, frame);
    if verified && !Stale(f.lastId, scan.id) {
      var kept := if f.lastId.Some? && !SameRun(f.lastId.value, scan.id) then [] else f.log;
      ChainAppend(kept, Seen(scan.id, now, scan.beams, Restarts(f.lastAt, now, params.maxAge)), params.maxAge);
    }
  }

  lemma NoChain(maxAge: int)
    ensures Chain([], maxAge)
  {
  }

  lemma {:induction false} StreakIsARow(log: seq<Seen>, c: Cell, n: nat)
    requires Streak(log, c) >= n
    ensures n <= |log| && forall k :: |log| - n <= k < |log| ==> SeenFree(log[k].beams, c) && (k > |log| - n ==> !log[k].restarts)
    decreases |log|
  {
    if n > 0 {
      var init := log[..|log| - 1];
      if !log[|log| - 1].restarts {
        StreakIsARow(init, c, n - 1);
        forall k | |log| - n <= k < |log|
          ensures SeenFree(log[k].beams, c) && (k > |log| - n ==> !log[k].restarts)
        {
          if k < |log| - 1 {
            assert init[k] == log[k];
          }
        }
      }
    }
  }

  /** The evidence for a cleared cell: `needed` consecutive accepted scans, the last of them number `i`, all saw it free, and
      no scan since has hit it. */
  ghost predicate Evidence(log: seq<Seen>, c: Cell, i: nat, params: Params) {
    && i < |log| && SeenInARow(log[..i + 1], c, params)
    && (forall j :: i < j < |log| ==> !Hit(log[j].beams, c))
  }

  ghost predicate SeenInARow(log: seq<Seen>, c: Cell, params: Params) {
    && log != [] && params.needed <= |log| && SeenFree(log[|log| - 1].beams, c)
    && (forall k :: |log| - params.needed <= k < |log| ==> SeenFree(log[k].beams, c))
    && (forall k :: |log| - params.needed < k < |log| ==>
          && SameRun(log[k - 1].id, log[k].id) && log[k - 1].id.number < log[k].id.number
          && 0 <= log[k].at - log[k - 1].at <= params.maxAge)
  }

  lemma {:induction false} ClearedHasEvidence(log: seq<Seen>, c: Cell, params: Params) returns (i: nat)
    requires Chain(log, params.maxAge) && ClearedAt(log, c, params.needed) >= 0
    ensures Evidence(log, c, i, params) && log[i].at == ClearedAt(log, c, params.needed)
    decreases |log|
  {
    hide SeenFree, Hit, SameRun;
    var n := |log| - 1;
    if SeenFree(log[n].beams, c) && Streak(log, c) >= params.needed {
      i := n;
      StreakIsARow(log, c, params.needed);
      assert forall k :: |log| - params.needed < k < |log| ==> Linked(log[k - 1], log[k], params.maxAge);
      assert log[..n + 1] == log;
    } else {
      i := ClearedHasEvidence(log[..n], c, params);
      assert log[..n][..i + 1] == log[..i + 1];
      forall j | i < j < |log|
        ensures !Hit(log[j].beams, c)
      {
        assert j < n ==> log[..n][j] == log[j];
      }
    }
  }

  // ----- repeated scans -----

  /** A scan that was seen already, or is older, changes nothing exactly when it is verified on the same frame - or there is
      nothing to lose. */
  lemma RepeatChangesNothingIff(h: History, frame: Frame, scan: Scan, now: int, verified: bool, params: Params)
    requires Stale(h.lastId, scan.id) && h.frame.Some?
    ensures Observed(h, frame, scan, now, verified, params) == h <==>
              h.frame == Some(frame) && (verified || h.log == [])
  {
  }

  // ----- whole runs -----

  datatype Sight = Sight(frame: Frame, scan: Scan, now: int, verified: bool)

  function Run(h: History, sights: seq<Sight>, params: Params): History
    decreases |sights|
  {
    if sights == [] then h
    else Run(Observed(h, sights[0].frame, sights[0].scan, sights[0].now, sights[0].verified, params), sights[1..], params)
  }

  lemma {:induction false} RunKeepsChain(h: History, sights: seq<Sight>, params: Params)
    requires Chained(h, params.maxAge)
    ensures Chained(Run(h, sights, params), params.maxAge)
    decreases |sights|
  {
    if sights != [] {
      var s := sights[0];
      ObservedKeepsChain(h, s.frame, s.scan, s.now, s.verified, params);
      RunKeepsChain(Observed(h, s.frame, s.scan, s.now, s.verified, params), sights[1..], params);
    }
  }

  /** Whatever scans came in whatever order: a cell that is cleared now has its evidence, and the evidence is fresh. */
  lemma ClearedCellIsSeenFree(sights: seq<Sight>, c: Cell, now: int, params: Params) returns (i: nat)
    requires Cleared(Run(BLANK, sights, params), c, now, params)
    ensures var h := Run(BLANK, sights, params);
            Evidence(h.log, c, i, params) && 0 <= now - h.log[i].at < params.ttl
  {
    RunKeepsChain(BLANK, sights, params);
    i := ClearedHasEvidence(Run(BLANK, sights, params).log, c, params);
  }

  // ----- the evidence clears -----

  /** `b` continues the evidence of `a`. */
  predicate Follows(a: Sight, b: Sight, maxAge: int) {
    && b.verified && b.frame == a.frame && SameRun(a.scan.id, b.scan.id) && a.scan.id.number < b.scan.id.number
    && 0 <= b.now - a.now <= maxAge
  }

  predicate Row(a: Sight, sights: seq<Sight>, c: Cell, maxAge: int)
    decreases |sights|
  {
    sights != [] ==>
      Follows(a, sights[0], maxAge) && SeenFree(sights[0].scan.beams, c) && Row(sights[0], sights[1..], c, maxAge)
  }

  predicate Stands(h: History, a: Sight) {
    h.frame == Some(a.frame) && h.lastId == Some(a.scan.id) && h.lastAt == Some(a.now)
  }

  lemma OneFollows(h: History, a: Sight, b: Sight, c: Cell, params: Params)
    requires Stands(h, a) && Follows(a, b, params.maxAge) && SeenFree(b.scan.beams, c)
    ensures var h' := Observed(h, b.frame, b.scan, b.now, b.verified, params);
            && Stands(h', b) && Streak(h'.log, c) == Streak(h.log, c) + 1
            && (Streak(h'.log, c) >= params.needed ==> ClearedAt(h'.log, c, params.needed) == b.now)
  {
    hide SeenFree;
    FreeIsNotHit(b.scan.beams, c);
    OneMore(h.log, Seen(b.scan.id, b.now, b.scan.beams, false), c, params.needed);
    hide Streak, ClearedAt;
  }

  lemma FreeIsNotHit(beams: seq<Beam>, c: Cell)
    ensures SeenFree(beams, c) ==> !Hit(beams, c)
  {
  }

  lemma {:induction false} RowGrows(h: History, a: Sight, sights: seq<Sight>, c: Cell, params: Params)
    requires Stands(h, a) && Row(a, sights, c, params.maxAge)
    ensures var end := Run(h, sights, params);
            && Streak(end.log, c) == Streak(h.log, c) + |sights|
            && (sights != [] && Streak(end.log, c) >= params.needed ==>
                  ClearedAt(end.log, c, params.needed) == sights[|sights| - 1].now)
    decreases |sights|
  {
    hide Streak, ClearedAt, SeenFree, Observed;
    if sights != [] {
      var b := sights[0];
      var h' := Observed(h, b.frame, b.scan, b.now, b.verified, params);
      OneFollows(h, a, b, c, params);
      RowGrows(h', b, sights[1..], c, params);
    }
  }

  /** Enough fresh scans in a row that see a cell free clear it, whatever was known before, for as long as the evidence holds. */
  lemma EvidenceClears(h: History, a: Sight, sights: seq<Sight>, c: Cell, now: int, params: Params)
    requires h.frame == Some(a.frame) && a.verified && !Stale(h.lastId, a.scan.id) && SeenFree(a.scan.beams, c)
    requires Row(a, sights, c, params.maxAge) && 1 + |sights| >= params.needed
    requires var last := if sights == [] then a.now else sights[|sights| - 1].now; last >= 0 && 0 <= now - last < params.ttl
    ensures Cleared(Run(h, [a] + sights, params), c, now, params)
  {
    hide SeenFree;
    var h' := Observed(h, a.frame, a.scan, a.now, a.verified, params);
    var kept := if h.lastId.Some? && !SameRun(h.lastId.value, a.scan.id) then [] else h.log;
    FreeIsNotHit(a.scan.beams, c);
    OneMore(kept, Seen(a.scan.id, a.now, a.scan.beams, Restarts(h.lastAt, a.now, params.maxAge)), c, params.needed);
    hide Streak, ClearedAt;
    RowGrows(h', a, sights, c, params);
    assert ([a] + sights)[1..] == sights;
  }
}

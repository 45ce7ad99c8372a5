// The staleness bound cannot be improved: for every configuration there are
// runs that leave two players unseen at distances arbitrarily close to E - 3R.
module AoiTightness {
  import opened Common
  import opened Geometry
  import opened SetMaps
  import opened AoiModel
  import opened AoiInvariant

  const WATCHER: PlayerId := 1
  const WALKER: PlayerId := 2

  // The longitude whose local coordinate is x.
  function LngAt(cfg: Config, x: real): real {
    cfg.originLng + x / cfg.metersPerDegreeLng
  }

  lemma LocalOfLng(cfg: Config, x: real)
    ensures cfg.ToLocal(cfg.originLat, LngAt(cfg, x)) == Point(x, 0.0)
  {
    assert x / cfg.metersPerDegreeLng * cfg.metersPerDegreeLng == x;
  }

  // Cells along the x axis on either side of the origin.
  lemma CellRight(cfg: Config, x: real)
    requires 0.0 <= x < cfg.cellSize
    ensures cfg.CellOf(Point(x, 0.0)) == Cell(0, 0)
  {
    QuotientBetween(x, cfg.cellSize, 0.0);
  }

  lemma CellLeft(cfg: Config, x: real)
    requires -cfg.cellSize <= x < 0.0
    ensures cfg.CellOf(Point(x, 0.0)) == Cell(-1, 0)
  {
    QuotientBetween(x, cfg.cellSize, -1.0);
  }

  lemma QuotientBetween(x: real, width: real, low: real)
    requires 0.0 < width && low * width <= x < low * width + width
    ensures low <= x / width < low + 1.0
  {
    var q := x / width;
    assert q * width == x;
    assert (low - q) * width == low * width - x;
    assert (q - low - 1.0) * width == x - low * width - width;
    if q < low {
      PositiveProduct(low - q, width, low * width - x);
    }
    if q > low + 1.0 {
      PositiveProduct(q - low - 1.0, width, x - low * width - width);
    }
    assert q == low + 1.0 ==> (q - low - 1.0) * width == 0.0;
  }

  lemma AxisDistance(x: real, y: real)
    ensures DistanceSquared(Point(x, 0.0), Point(y, 0.0)) == Square(x - y)
  {
  }

  lemma SmallerSquare(x: real, r: real)
    requires -r < x < r
    ensures Square(x) < Square(r)
  {
    PositiveProduct(r - x, r + x, Square(r) - Square(x));
  }

  // A player standing at x on the axis with its marker at m.
  ghost predicate Stands(s: Index, p: PlayerId, x: real, m: real, cell: Cell) {
    && p in s.players
    && s.players[p].local == Point(x, 0.0)
    && s.players[p].cell == cell && s.players[p].scanCell == cell
    && s.players[p].hasScanMarker && s.players[p].scanPoint == Point(m, 0.0)
  }

  // A step that stays within the rescan distance of the marker, in the same
  // cell, moves the player and discovers nobody.
  lemma QuietStep(cfg: Config, s: Index, p: PlayerId, from: real, x: real, m: real, cell: Cell)
    requires Invariant(cfg, s) && Stands(s, p, from, m, cell)
    requires cfg.CellOf(Point(x, 0.0)) == cell
    requires -cfg.rescanDistance < x - m < cfg.rescanDistance
    ensures var t := Moved(cfg, s, p, cfg.originLat, LngAt(cfg, x));
      && Invariant(cfg, t) && t.players.Keys == s.players.Keys
      && Stands(t, p, x, m, cell)
      && (forall q | q in s.players && q != p :: t.players[q] == s.players[q])
      && (forall q | Sees(t, p, q) :: Sees(s, p, q))
  {
    LocalOfLng(cfg, x);
    var placed := Placed(cfg, s, p, cfg.originLat, LngAt(cfg, x));
    AxisDistance(x, m);
    SmallerSquare(x - m, cfg.rescanDistance);
    assert !MustScan(cfg, placed.players[p]);
    MovedKeeps(cfg, s, p, cfg.originLat, LngAt(cfg, x));
    LookupRewire(placed.visible, p, Kept(cfg, placed, p));
  }

  lemma Arrival(cfg: Config, s: Index, p: PlayerId, x: real, cell: Cell)
    requires Invariant(cfg, s) && p !in s.players
    requires cfg.CellOf(Point(x, 0.0)) == cell
    ensures var t := Inserted(cfg, s, p, cfg.originLat, LngAt(cfg, x));
      && Invariant(cfg, t) && t.players.Keys == s.players.Keys + {p}
      && Stands(t, p, x, x, cell)
      && (forall q | q in s.players :: t.players[q] == s.players[q])
      && (forall q | Sees(t, p, q) :: q in t.players && Gap(t, p, q) <= Square(cfg.enterRadius))
  {
    LocalOfLng(cfg, x);
    var placed := Placed(cfg, s, p, cfg.originLat, LngAt(cfg, x));
    InsertedKeeps(cfg, s, p, cfg.originLat, LngAt(cfg, x));
    UnindexedSeesNobody(s, p);
    LookupRewire(placed.visible, p, Kept(cfg, placed, p) + Nearby(cfg, placed, p));
  }

  // The walker steps away from its marker without a scan, the watcher arrives
  // just out of reach, and then both approach each other without a scan.
  function ApproachRun(cfg: Config, delta: real): seq<Op> {
    var r, e := cfg.rescanDistance, cfg.enterRadius;
    [ OpInsert(WALKER, cfg.originLat, LngAt(cfg, e - 2.0 * r + 2.0 * delta)),
      OpMove(WALKER, cfg.originLat, LngAt(cfg, e - r + delta)),
      OpInsert(WATCHER, cfg.originLat, LngAt(cfg, -r)),
      OpMove(WALKER, cfg.originLat, LngAt(cfg, e - 3.0 * r + 3.0 * delta)),
      OpMove(WATCHER, cfg.originLat, LngAt(cfg, -delta)) ]
  }

  lemma RunOneMore(cfg: Config, ops: seq<Op>, i: nat)
    requires i < |ops|
    ensures Run(cfg, ops[..i + 1]) == Apply(cfg, Run(cfg, ops[..i]), ops[i])
  {
    assert ops[..i + 1][..i] == ops[..i];
  }

  lemma BoundIsTight(cfg: Config, delta: real)
    requires 0.0 < delta < cfg.rescanDistance
    ensures var s := Run(cfg, ApproachRun(cfg, delta));
      && WATCHER in s.players && WALKER in s.players && !Sees(s, WATCHER, WALKER)
      && Gap(s, WATCHER, WALKER) == Square(cfg.enterRadius - 3.0 * cfg.rescanDistance + 4.0 * delta)
  {
    hide Apply, Invariant, DistanceSquared, Square, Sees, Moved, Inserted, ApproachRun;
    var ops := ApproachRun(cfg, delta);
    var s2 := WalkerAlone(cfg, delta);
    var s3 := WatcherArrives(cfg, delta, s2);
    var s5 := BothApproach(cfg, delta, s3);
    assert ops[..5] == ops by { ApproachSteps(cfg, delta); }
  }

  lemma ApproachSteps(cfg: Config, delta: real)
    ensures var ops, r, e := ApproachRun(cfg, delta), cfg.rescanDistance, cfg.enterRadius;
      && |ops| == 5
      && ops[0] == OpInsert(WALKER, cfg.originLat, LngAt(cfg, e - 2.0 * r + 2.0 * delta))
      && ops[1] == OpMove(WALKER, cfg.originLat, LngAt(cfg, e - r + delta))
      && ops[2] == OpInsert(WATCHER, cfg.originLat, LngAt(cfg, -r))
      && ops[3] == OpMove(WALKER, cfg.originLat, LngAt(cfg, e - 3.0 * r + 3.0 * delta))
      && ops[4] == OpMove(WATCHER, cfg.originLat, LngAt(cfg, -delta))
  {
  }

  lemma WalkerAlone(cfg: Config, delta: real) returns (s2: Index)
    requires 0.0 < delta < cfg.rescanDistance
    ensures |ApproachRun(cfg, delta)| == 5 && s2 == Run(cfg, ApproachRun(cfg, delta)[..2])
    ensures Invariant(cfg, s2) && s2.players.Keys == {WALKER}
    ensures var r, e := cfg.rescanDistance, cfg.enterRadius;
      Stands(s2, WALKER, e - r + delta, e - 2.0 * r + 2.0 * delta, Cell(0, 0))
  {
    hide Invariant, DistanceSquared, Square, Sees, Moved, Inserted;
    var ops, r, e := ApproachRun(cfg, delta), cfg.rescanDistance, cfg.enterRadius;
    ApproachSteps(cfg, delta);
    RunOneMore(cfg, ops, 0);
    RunOneMore(cfg, ops, 1);
    RunKeeps(cfg, ops[..0]);
    var m, x := e - 2.0 * r + 2.0 * delta, e - r + delta;
    CellRight(cfg, m);
    CellRight(cfg, x);
    Arrival(cfg, Run(cfg, ops[..0]), WALKER, m, Cell(0, 0));
    QuietStep(cfg, Run(cfg, ops[..1]), WALKER, m, x, m, Cell(0, 0));
    s2 := Run(cfg, ops[..2]);
  }

  lemma WatcherArrives(cfg: Config, delta: real, s2: Index) returns (s3: Index)
    requires 0.0 < delta < cfg.rescanDistance
    requires |ApproachRun(cfg, delta)| == 5 && s2 == Run(cfg, ApproachRun(cfg, delta)[..2])
    requires Invariant(cfg, s2) && s2.players.Keys == {WALKER}
    requires var r, e := cfg.rescanDistance, cfg.enterRadius;
      Stands(s2, WALKER, e - r + delta, e - 2.0 * r + 2.0 * delta, Cell(0, 0))
    ensures s3 == Run(cfg, ApproachRun(cfg, delta)[..3])
    ensures Invariant(cfg, s3) && s3.players.Keys == {WALKER, WATCHER} && !Sees(s3, WATCHER, WALKER)
    ensures var r, e := cfg.rescanDistance, cfg.enterRadius;
      && Stands(s3, WALKER, e - r + delta, e - 2.0 * r + 2.0 * delta, Cell(0, 0))
      && Stands(s3, WATCHER, -r, -r, Cell(-1, 0))
  {
    hide Invariant, DistanceSquared, Square, Moved, Inserted;
    var ops, r, e := ApproachRun(cfg, delta), cfg.rescanDistance, cfg.enterRadius;
    ApproachSteps(cfg, delta);
    RunOneMore(cfg, ops, 2);
    CellLeft(cfg, -r);
    Arrival(cfg, s2, WATCHER, -r, Cell(-1, 0));
    s3 := Run(cfg, ops[..3]);
    AxisDistance(-r, e - r + delta);
    SmallerSquare(e, e + delta);
    assert Square(-r - (e - r + delta)) == Square(e + delta) by { OppositeSquares(e + delta); }
  }

  lemma OppositeSquares(x: real)
    ensures Square(-x) == Square(x)
  {
  }

  lemma BothApproach(cfg: Config, delta: real, s3: Index) returns (s5: Index)
    requires 0.0 < delta < cfg.rescanDistance
    requires |ApproachRun(cfg, delta)| == 5 && s3 == Run(cfg, ApproachRun(cfg, delta)[..3])
    requires Invariant(cfg, s3) && s3.players.Keys == {WALKER, WATCHER} && !Sees(s3, WATCHER, WALKER)
    requires var r, e := cfg.rescanDistance, cfg.enterRadius;
      && Stands(s3, WALKER, e - r + delta, e - 2.0 * r + 2.0 * delta, Cell(0, 0))
      && Stands(s3, WATCHER, -r, -r, Cell(-1, 0))
    ensures s5 == Run(cfg, ApproachRun(cfg, delta)[..5])
    ensures s5.players.Keys == {WALKER, WATCHER} && !Sees(s5, WATCHER, WALKER)
    ensures Gap(s5, WATCHER, WALKER) == Square(cfg.enterRadius - 3.0 * cfg.rescanDistance + 4.0 * delta)
  {
    hide DistanceSquared, Square, Moved, Inserted;
    var ops, r, e := ApproachRun(cfg, delta), cfg.rescanDistance, cfg.enterRadius;
    ApproachSteps(cfg, delta);
    RunOneMore(cfg, ops, 3);
    RunOneMore(cfg, ops, 4);
    var m, x := e - 2.0 * r + 2.0 * delta, e - 3.0 * r + 3.0 * delta;
    CellRight(cfg, x);
    CellLeft(cfg, -delta);
    assert !Sees(s3, WALKER, WATCHER);
    QuietStep(cfg, s3, WALKER, e - r + delta, x, m, Cell(0, 0));
    var s4 := Run(cfg, ops[..4]);
    assert !Sees(s4, WALKER, WATCHER);
    assert !Sees(s4, WATCHER, WALKER);
    QuietStep(cfg, s4, WATCHER, -r, -delta, -r, Cell(-1, 0));
    s5 := Run(cfg, ops[..5]);
    AxisDistance(-delta, x);
    OppositeSquares(-delta - x);
  }
}

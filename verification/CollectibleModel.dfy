// The collectible field as a value: items on a grid, a queue of respawns, and
// what each operation does to them.
module CollectibleModel {
  import opened Common
  import opened Geometry
  import opened SetMaps
  import opened AoiModel
  import opened Grid

  const SEPARATION := 0.5
  const MAX_ATTEMPTS: nat := 10

  datatype Region = Region(
    id: string,
    centerLat: real,
    centerLng: real,
    radius: real,
    targetCount: nat,
    respawnMin: Time,
    respawnMax: Time)

  datatype Collectible = Collectible(id: CollectibleId, regionId: string, lat: real, lng: real)

  datatype Deadline = Deadline(regionId: string, dueAt: Time) {
    predicate Due(now: Time) {
      dueAt <= now
    }
  }

  const ORIGIN := Point(0.0, 0.0)

  // A random direction and relative distance: a point of the unit disc.
  type Draw = d: Point | DistanceSquared(d, ORIGIN) <= Square(1.0) witness ORIGIN

  // draws is the random source: the draw made for an item at an attempt.
  datatype Setup = Setup(cfg: Config, regions: seq<Region>, draws: (CollectibleId, nat) -> Draw) {
    // What a loaded configuration guarantees, and a cell no smaller than the
    // separation.
    ghost predicate Sound() {
      && SEPARATION <= cfg.cellSize
      && (forall i, j | 0 <= i < j < |regions| :: regions[i].id != regions[j].id)
      && (forall r | r in regions :: 0.0 < r.radius && 0 < r.targetCount && 0 < r.respawnMin <= r.respawnMax)
    }
  }

  datatype Field = Field(
    items: map<CollectibleId, Collectible>,
    cells: map<Cell, set<CollectibleId>>,
    queue: seq<Deadline>,
    nextID: CollectibleId)

  const EMPTY_FIELD := Field(map[], map[], [], 1)

  // The first region of that id.
  function Find(regions: seq<Region>, id: string): Option<Region> {
    if regions == [] then None
    else if regions[0].id == id then Some(regions[0])
    else Find(regions[1..], id)
  }

  // ------------------------------------------------------------------
  // Placement
  // ------------------------------------------------------------------

  function ToLatLng(cfg: Config, p: Point): LatLng {
    LatLng(cfg.originLat + p.y / METERS_PER_DEGREE_LATITUDE, cfg.originLng + p.x / cfg.metersPerDegreeLng)
  }

  function PointInCircle(cfg: Config, region: Region, d: Draw): LatLng {
    var c := cfg.ToLocal(region.centerLat, region.centerLng);
    ToLatLng(cfg, Point(c.x + region.radius * d.x, c.y + region.radius * d.y))
  }

  function SpotOf(cfg: Config, c: Collectible): Point {
    cfg.ToLocal(c.lat, c.lng)
  }

  predicate Within(cfg: Config, at: LatLng, c: Collectible, radius: real) {
    DistanceSquared(cfg.ToLocal(at.lat, at.lng), SpotOf(cfg, c)) <= Square(radius)
  }

  ghost predicate Crowded(cfg: Config, items: map<CollectibleId, Collectible>, at: LatLng) {
    exists id :: id in items && Within(cfg, at, items[id], SEPARATION)
  }

  ghost function Trial(setup: Setup, region: Region, id: CollectibleId, attempt: nat): LatLng {
    PointInCircle(setup.cfg, region, setup.draws(id, attempt))
  }

  // The first trial from the given one on that is not crowded; the last is
  // taken as it comes.
  ghost function Place(setup: Setup, items: map<CollectibleId, Collectible>, region: Region,
                       id: CollectibleId, attempt: nat): LatLng
    requires attempt <= MAX_ATTEMPTS
    decreases MAX_ATTEMPTS - attempt
  {
    var at := Trial(setup, region, id, attempt);
    if attempt == MAX_ATTEMPTS || !Crowded(setup.cfg, items, at) then at
    else Place(setup, items, region, id, attempt + 1)
  }

  // ------------------------------------------------------------------
  // Operations
  // ------------------------------------------------------------------

  ghost function NewItem(setup: Setup, s: Field, region: Region): Collectible {
    var at := Place(setup, s.items, region, s.nextID, 0);
    Collectible(s.nextID, region.id, at.lat, at.lng)
  }

  ghost function Spawned(setup: Setup, s: Field, region: Region): Field {
    var c := NewItem(setup, s, region);
    Field(s.items[c.id := c], AddToCell(s.cells, c.id, setup.cfg.CellOf(SpotOf(setup.cfg, c))), s.queue, s.nextID + 1)
  }

  ghost function SpawnedAll(setup: Setup, s: Field, regions: seq<Region>): Field {
    if regions == [] then s
    else Spawned(setup, SpawnedAll(setup, s, regions[..|regions| - 1]), regions[|regions| - 1])
  }

  function Repeated(region: Region, n: nat): seq<Region> {
    seq(n, _ => region)
  }

  // Every region as often as it has items when full.
  function Targets(regions: seq<Region>): seq<Region> {
    if regions == [] then []
    else Targets(regions[..|regions| - 1]) + Repeated(regions[|regions| - 1], regions[|regions| - 1].targetCount)
  }

  ghost function Populated(setup: Setup): Field {
    SpawnedAll(setup, EMPTY_FIELD, Targets(setup.regions))
  }

  // A delay of the region's range, chosen by an arbitrary number.
  function Delay(region: Region, pick: nat): Time
    requires region.respawnMin <= region.respawnMax
  {
    region.respawnMin + pick % (region.respawnMax - region.respawnMin + 1)
  }

  ghost function Collected(setup: Setup, s: Field, id: CollectibleId, now: Time, pick: nat): Field
    requires setup.Sound()
  {
    if id !in s.items then s
    else
      var c := s.items[id];
      var rest := Field(s.items - {id}, RemoveFromCell(s.cells, c.id, setup.cfg.CellOf(SpotOf(setup.cfg, c))),
                        s.queue, s.nextID);
      var region := Find(setup.regions, c.regionId);
      if region == None then rest
      else
        FindIsMember(setup.regions, c.regionId);
        rest.(queue := s.queue + [Deadline(c.regionId, now + Delay(region.value, pick))])
  }

  // The entries not yet due, in their order.
  function Waiting(queue: seq<Deadline>, now: Time): seq<Deadline> {
    if queue == [] then []
    else (if queue[0].Due(now) then [] else [queue[0]]) + Waiting(queue[1..], now)
  }

  // The regions of the due entries, from the back of the queue to the front.
  function DueRegions(regions: seq<Region>, queue: seq<Deadline>, now: Time): seq<Region> {
    if queue == [] then []
    else
      DueRegions(regions, queue[1..], now)
        + if queue[0].Due(now) && Find(regions, queue[0].regionId).Some? then [Find(regions, queue[0].regionId).value]
          else []
  }

  ghost function Advanced(setup: Setup, s: Field, now: Time): Field {
    SpawnedAll(setup, s.(queue := Waiting(s.queue, now)), DueRegions(setup.regions, s.queue, now))
  }

  datatype FieldOp = OpCollect(id: CollectibleId, now: Time, pick: nat) | OpAdvance(now: Time)

  ghost function FieldApply(setup: Setup, s: Field, op: FieldOp): Field
    requires setup.Sound()
  {
    match op
    case OpCollect(id, now, pick) => Collected(setup, s, id, now, pick)
    case OpAdvance(now) => Advanced(setup, s, now)
  }

  // The field after it was populated and then used in any way.
  ghost function FieldRun(setup: Setup, ops: seq<FieldOp>): Field
    requires setup.Sound()
  {
    if ops == [] then Populated(setup)
    else FieldApply(setup, FieldRun(setup, ops[..|ops| - 1]), ops[|ops| - 1])
  }

  // ------------------------------------------------------------------
  // FieldOk
  // ------------------------------------------------------------------

  ghost function Homes(cfg: Config, items: map<CollectibleId, Collectible>): map<CollectibleId, Cell> {
    map id | id in items :: cfg.CellOf(SpotOf(cfg, items[id]))
  }

  ghost predicate InRegion(setup: Setup, c: Collectible) {
    exists r :: r in setup.regions && r.id == c.regionId && InCircle(setup.cfg, r, c)
  }

  ghost predicate InCircle(cfg: Config, r: Region, c: Collectible) {
    DistanceSquared(SpotOf(cfg, c), cfg.ToLocal(r.centerLat, r.centerLng)) <= Square(r.radius)
  }

  ghost predicate ItemOk(setup: Setup, s: Field, id: CollectibleId)
    requires id in s.items
  {
    s.items[id].id == id && 1 <= id < s.nextID && InRegion(setup, s.items[id])
  }

  ghost predicate FieldOk(setup: Setup, s: Field) {
    && Compact(s.cells)
    && Houses(s.cells, Homes(setup.cfg, s.items))
    && 1 <= s.nextID
    && (forall id | id in s.items :: ItemOk(setup, s, id))
    && (forall d | d in s.queue :: Find(setup.regions, d.regionId).Some?)
  }

  lemma {:induction false} FindIsMember(regions: seq<Region>, id: string)
    ensures var r := Find(regions, id);
      if r.Some? then r.value in regions && r.value.id == id else forall x | x in regions :: x.id != id
  {
    if regions != [] && regions[0].id != id {
      FindIsMember(regions[1..], id);
    }
  }

  // With distinct ids, a region is found by its id.
  lemma {:induction false} FindOwn(regions: seq<Region>, r: Region)
    requires forall i, j | 0 <= i < j < |regions| :: regions[i].id != regions[j].id
    requires r in regions
    ensures Find(regions, r.id) == Some(r)
  {
    var i :| 0 <= i < |regions| && regions[i] == r;
    if i > 0 {
      assert regions[1..][i - 1] == r;
      FindOwn(regions[1..], r);
    }
  }

  lemma RoundTrip(cfg: Config, p: Point)
    ensures var at := ToLatLng(cfg, p); cfg.ToLocal(at.lat, at.lng) == p
  {
  }

  // A trial falls inside the region's circle.
  lemma TrialIsInside(cfg: Config, region: Region, d: Draw)
    ensures var at := PointInCircle(cfg, region, d);
      DistanceSquared(cfg.ToLocal(at.lat, at.lng), cfg.ToLocal(region.centerLat, region.centerLng))
        <= Square(region.radius)
  {
    var c := cfg.ToLocal(region.centerLat, region.centerLng);
    var p := Point(c.x + region.radius * d.x, c.y + region.radius * d.y);
    RoundTrip(cfg, p);
    var r2, d2 := Square(region.radius), DistanceSquared(d, ORIGIN);
    assert DistanceSquared(p, c) == r2 * d2 by {
      ScaledSquare(region.radius, d.x, p.x - c.x);
      ScaledSquare(region.radius, d.y, p.y - c.y);
    }
    SquareIsNonNegative(region.radius);
    NonNegativeProduct(r2, 1.0 - d2);
  }

  lemma ScaledSquare(r: real, x: real, product: real)
    requires product == r * x
    ensures Square(product) == Square(r) * Square(x)
  {
  }

  // Every point of the circle can be drawn.
  lemma EveryPointIsDrawn(cfg: Config, region: Region, at: LatLng)
    requires 0.0 < region.radius
    requires DistanceSquared(cfg.ToLocal(at.lat, at.lng), cfg.ToLocal(region.centerLat, region.centerLng))
          <= Square(region.radius)
    ensures exists d: Draw :: PointInCircle(cfg, region, d) == at
  {
    var p, c := cfg.ToLocal(at.lat, at.lng), cfg.ToLocal(region.centerLat, region.centerLng);
    var x, y := (p.x - c.x) / region.radius, (p.y - c.y) / region.radius;
    assert p.x - c.x == region.radius * x && p.y - c.y == region.radius * y;
    InUnitDisc(region.radius, x, y, p.x - c.x, p.y - c.y);
    var d: Draw := Point(x, y);
    RoundTripBack(cfg, at);
    assert PointInCircle(cfg, region, d) == at;
  }

  lemma InUnitDisc(r: real, x: real, y: real, dx: real, dy: real)
    requires 0.0 < r && dx == r * x && dy == r * y && Square(dx) + Square(dy) <= Square(r)
    ensures DistanceSquared(Point(x, y), ORIGIN) <= Square(1.0)
  {
    ScaledSquare(r, x, dx);
    ScaledSquare(r, y, dy);
    PositiveSquare(r);
    var excess := Square(x) + Square(y) - 1.0;
    assert Square(r) * excess == Square(dx) + Square(dy) - Square(r);
    if excess > 0.0 {
      PositiveProduct(Square(r), excess, Square(r) * excess);
    }
  }

  lemma RoundTripBack(cfg: Config, at: LatLng)
    ensures ToLatLng(cfg, cfg.ToLocal(at.lat, at.lng)) == at
  {
  }

  // And every delay of the region's range, the shortest and the longest too.
  lemma EveryDelayIsPicked(region: Region, delay: Time)
    requires region.respawnMin <= delay <= region.respawnMax
    ensures exists pick: nat :: Delay(region, pick) == delay
  {
    assert Delay(region, delay - region.respawnMin) == delay;
  }

  // A placement is the first trial that is not crowded, or else the last.
  lemma {:induction false} PlaceIsTrial(setup: Setup, items: map<CollectibleId, Collectible>, region: Region,
                                        id: CollectibleId, attempt: nat)
    requires attempt <= MAX_ATTEMPTS
    ensures exists k | attempt <= k <= MAX_ATTEMPTS ::
              && Place(setup, items, region, id, attempt) == Trial(setup, region, id, k)
              && (k == 10 || !Crowded(setup.cfg, items, Trial(setup, region, id, k)))
              && forall j | attempt <= j < k :: Crowded(setup.cfg, items, Trial(setup, region, id, j))
    ensures Crowded(setup.cfg, items, Place(setup, items, region, id, attempt))
        <==> forall k | attempt <= k <= MAX_ATTEMPTS :: Crowded(setup.cfg, items, Trial(setup, region, id, k))
    decreases MAX_ATTEMPTS - attempt
  {
    hide Crowded, Trial;
    if attempt < MAX_ATTEMPTS && Crowded(setup.cfg, items, Trial(setup, region, id, attempt)) {
      PlaceIsTrial(setup, items, region, id, attempt + 1);
    } else {
      assert Place(setup, items, region, id, attempt) == Trial(setup, region, id, attempt);
    }
  }

  // ------------------------------------------------------------------
  // The invariant is kept
  // ------------------------------------------------------------------

  lemma SpawnedKeeps(setup: Setup, s: Field, region: Region)
    requires FieldOk(setup, s) && region in setup.regions
    ensures FieldOk(setup, Spawned(setup, s, region))
    ensures Spawned(setup, s, region).items == s.items[s.nextID := NewItem(setup, s, region)]
    ensures s.nextID !in s.items
  {
    hide InRegion, Houses, Place;
    var t, c := Spawned(setup, s, region), NewItem(setup, s, region);
    assert s.nextID !in s.items by {
      assert s.nextID in s.items ==> ItemOk(setup, s, s.nextID);
    }
    NewItemIsInside(setup, s, region);
    AddedHouses(s.cells, Homes(setup.cfg, s.items), c.id, setup.cfg.CellOf(SpotOf(setup.cfg, c)));
    assert Homes(setup.cfg, t.items)
        == Homes(setup.cfg, s.items)[c.id := setup.cfg.CellOf(SpotOf(setup.cfg, c))];
    forall id | id in t.items
      ensures ItemOk(setup, t, id)
    {
      assert id != c.id ==> ItemOk(setup, s, id);
    }
  }

  lemma NewItemIsInside(setup: Setup, s: Field, region: Region)
    requires region in setup.regions
    ensures InRegion(setup, NewItem(setup, s, region))
  {
    PlaceIsTrial(setup, s.items, region, s.nextID, 0);
    hide Place;
    var k :| 0 <= k <= MAX_ATTEMPTS
          && Place(setup, s.items, region, s.nextID, 0) == Trial(setup, region, s.nextID, k);
    TrialIsInside(setup.cfg, region, setup.draws(s.nextID, k));
    assert InCircle(setup.cfg, region, NewItem(setup, s, region));
  }

  lemma {:induction false} SpawnedAllKeeps(setup: Setup, s: Field, regions: seq<Region>)
    requires FieldOk(setup, s) && forall r | r in regions :: r in setup.regions
    ensures var t := SpawnedAll(setup, s, regions);
      FieldOk(setup, t) && t.queue == s.queue && t.nextID == s.nextID + |regions|
  {
    hide FieldOk;
    if regions != [] {
      SpawnedAllKeeps(setup, s, regions[..|regions| - 1]);
      SpawnedKeeps(setup, SpawnedAll(setup, s, regions[..|regions| - 1]), regions[|regions| - 1]);
    }
  }

  lemma CollectedKeeps(setup: Setup, s: Field, id: CollectibleId, now: Time, pick: nat)
    requires setup.Sound() && FieldOk(setup, s)
    ensures FieldOk(setup, Collected(setup, s, id, now, pick))
  {
    if id in s.items {
      hide InRegion, Houses;
      var t := Collected(setup, s, id, now, pick);
      assert ItemOk(setup, s, id);
      RegionIsKnown(setup, s.items[id]);
      RemovedHouses(s.cells, Homes(setup.cfg, s.items), id);
      assert Homes(setup.cfg, t.items) == Homes(setup.cfg, s.items) - {id};
      forall k | k in t.items
        ensures ItemOk(setup, t, k)
      {
        assert ItemOk(setup, s, k);
      }
    }
  }

  lemma RegionIsKnown(setup: Setup, c: Collectible)
    requires InRegion(setup, c)
    ensures Find(setup.regions, c.regionId).Some?
  {
    FindIsMember(setup.regions, c.regionId);
  }

  lemma {:induction false} DueRegionsAreKnown(regions: seq<Region>, queue: seq<Deadline>, now: Time)
    ensures forall r | r in DueRegions(regions, queue, now) :: r in regions
  {
    if queue != [] {
      DueRegionsAreKnown(regions, queue[1..], now);
      FindIsMember(regions, queue[0].regionId);
    }
  }

  lemma {:induction false} WaitingIsNotDue(queue: seq<Deadline>, now: Time)
    ensures forall d :: d in Waiting(queue, now) <==> d in queue && !d.Due(now)
  {
    if queue != [] {
      WaitingIsNotDue(queue[1..], now);
    }
  }

  lemma AdvancedKeeps(setup: Setup, s: Field, now: Time)
    requires FieldOk(setup, s)
    ensures FieldOk(setup, Advanced(setup, s, now))
    ensures Advanced(setup, s, now).queue == Waiting(s.queue, now)
  {
    hide FieldOk;
    DueRegionsAreKnown(setup.regions, s.queue, now);
    WaitingKeeps(setup, s, now);
    SpawnedAllKeeps(setup, s.(queue := Waiting(s.queue, now)), DueRegions(setup.regions, s.queue, now));
  }

  lemma WaitingKeeps(setup: Setup, s: Field, now: Time)
    requires FieldOk(setup, s)
    ensures FieldOk(setup, s.(queue := Waiting(s.queue, now)))
  {
    hide InRegion, Houses;
    WaitingIsNotDue(s.queue, now);
    var w := s.(queue := Waiting(s.queue, now));
    forall id | id in w.items
      ensures ItemOk(setup, w, id)
    {
      assert ItemOk(setup, s, id);
    }
  }

  lemma {:induction false} TargetsAreKnown(regions: seq<Region>)
    ensures forall r | r in Targets(regions) :: r in regions
  {
    if regions != [] {
      TargetsAreKnown(regions[..|regions| - 1]);
    }
  }

  lemma {:induction false} RunKeeps(setup: Setup, ops: seq<FieldOp>)
    requires setup.Sound()
    ensures FieldOk(setup, FieldRun(setup, ops))
  {
    if ops == [] {
      TargetsAreKnown(setup.regions);
      SpawnedAllKeeps(setup, EMPTY_FIELD, Targets(setup.regions));
    } else {
      hide FieldOk;
      var s := FieldRun(setup, ops[..|ops| - 1]);
      RunKeeps(setup, ops[..|ops| - 1]);
      match ops[|ops| - 1]
      case OpCollect(id, now, pick) => CollectedKeeps(setup, s, id, now, pick);
      case OpAdvance(now) => AdvancedKeeps(setup, s, now);
    }
  }
}

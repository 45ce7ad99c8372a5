// What the collectible field conserves, and how exact its grid is.
module CollectibleLaws {
  import opened Common
  import opened Geometry
  import opened AoiModel
  import opened Grid
  import opened CollectibleModel

  // ------------------------------------------------------------------
  // Conservation per region
  // ------------------------------------------------------------------

  ghost function LiveIds(items: map<CollectibleId, Collectible>, region: string): set<CollectibleId> {
    set id | id in items && items[id].regionId == region
  }

  function Pending(queue: seq<Deadline>, region: string): nat {
    if queue == [] then 0
    else (if queue[0].regionId == region then 1 else 0) + Pending(queue[1..], region)
  }

  function Occurrences(regions: seq<Region>, region: string): nat {
    if regions == [] then 0
    else Occurrences(regions[..|regions| - 1], region) + if regions[|regions| - 1].id == region then 1 else 0
  }

  // Live items and pending respawns of a region together.
  ghost function Total(s: Field, region: string): nat {
    |LiveIds(s.items, region)| + Pending(s.queue, region)
  }

  lemma {:induction false} PendingAppend(queue: seq<Deadline>, d: Deadline, region: string)
    ensures Pending(queue + [d], region) == Pending(queue, region) + if d.regionId == region then 1 else 0
  {
    if queue != [] {
      assert (queue + [d])[1..] == queue[1..] + [d];
      PendingAppend(queue[1..], d, region);
    }
  }

  lemma {:induction false} OccurrencesAppend(a: seq<Region>, b: seq<Region>, region: string)
    ensures Occurrences(a + b, region) == Occurrences(a, region) + Occurrences(b, region)
  {
    if b == [] {
      assert a + b == a;
    } else {
      var front := b[..|b| - 1];
      assert (a + b)[..|a + b| - 1] == a + front;
      OccurrencesAppend(a, front, region);
    }
  }

  lemma {:induction false} OccurrencesRepeated(r: Region, n: nat, region: string)
    ensures Occurrences(Repeated(r, n), region) == if r.id == region then n else 0
  {
    if n > 0 {
      assert Repeated(r, n)[..n - 1] == Repeated(r, n - 1);
      OccurrencesRepeated(r, n - 1, region);
    }
  }

  lemma OneMoreLives(items: map<CollectibleId, Collectible>, id: CollectibleId, c: Collectible, region: string)
    requires id !in items
    ensures |LiveIds(items[id := c], region)| == |LiveIds(items, region)| + if c.regionId == region then 1 else 0
  {
    if c.regionId == region {
      assert LiveIds(items[id := c], region) == LiveIds(items, region) + {id};
    } else {
      assert LiveIds(items[id := c], region) == LiveIds(items, region);
    }
  }

  lemma SpawnedLives(setup: Setup, s: Field, r: Region, region: string)
    requires FieldOk(setup, s) && r in setup.regions
    ensures |LiveIds(Spawned(setup, s, r).items, region)|
         == |LiveIds(s.items, region)| + if r.id == region then 1 else 0
  {
    SpawnedKeeps(setup, s, r);
    hide FieldOk, Spawned, LiveIds;
    OneMoreLives(s.items, s.nextID, NewItem(setup, s, r), region);
  }

  lemma {:induction false} SpawnedAllLives(setup: Setup, s: Field, regions: seq<Region>, region: string)
    requires FieldOk(setup, s) && forall r | r in regions :: r in setup.regions
    ensures |LiveIds(SpawnedAll(setup, s, regions).items, region)|
         == |LiveIds(s.items, region)| + Occurrences(regions, region)
  {
    hide FieldOk;
    if regions != [] {
      var front := regions[..|regions| - 1];
      SpawnedAllKeeps(setup, s, front);
      SpawnedAllLives(setup, s, front, region);
      SpawnedLives(setup, SpawnedAll(setup, s, front), regions[|regions| - 1], region);
    }
  }

  lemma {:induction false} QueueSplits(regions: seq<Region>, queue: seq<Deadline>, now: Time, region: string)
    requires forall d | d in queue :: Find(regions, d.regionId).Some?
    ensures Pending(queue, region)
         == Pending(Waiting(queue, now), region) + Occurrences(DueRegions(regions, queue, now), region)
  {
    if queue != [] {
      QueueSplits(regions, queue[1..], now, region);
      FindIsMember(regions, queue[0].regionId);
      if queue[0].Due(now) {
        assert Waiting(queue, now) == Waiting(queue[1..], now);
        var r := Find(regions, queue[0].regionId).value;
        OccurrencesAppend(DueRegions(regions, queue[1..], now), [r], region);
        assert Occurrences([r], region) == (if r.id == region then 1 else 0) + Occurrences([r][..0], region);
      } else {
        assert DueRegions(regions, queue, now) == DueRegions(regions, queue[1..], now);
        assert Waiting(queue, now)[1..] == Waiting(queue[1..], now);
      }
    }
  }

  lemma CollectedConserves(setup: Setup, s: Field, id: CollectibleId, now: Time, pick: nat, region: string)
    requires setup.Sound() && FieldOk(setup, s)
    ensures Total(Collected(setup, s, id, now, pick), region) == Total(s, region)
  {
    if id in s.items {
      var t, c := Collected(setup, s, id, now, pick), s.items[id];
      assert ItemOk(setup, s, id);
      RegionIsKnown(setup, c);
      FindIsMember(setup.regions, c.regionId);
      hide FieldOk;
      PendingAppend(s.queue, t.queue[|t.queue| - 1], region);
      if c.regionId == region {
        assert LiveIds(s.items, region) == LiveIds(t.items, region) + {id};
      } else {
        assert LiveIds(s.items, region) == LiveIds(t.items, region);
      }
    }
  }

  lemma AdvancedConserves(setup: Setup, s: Field, now: Time, region: string)
    requires FieldOk(setup, s)
    ensures Total(Advanced(setup, s, now), region) == Total(s, region)
  {
    hide Houses, ItemOk;
    var w := s.(queue := Waiting(s.queue, now));
    WaitingKeeps(setup, s, now);
    AdvancedKeeps(setup, s, now);
    DueRegionsAreKnown(setup.regions, s.queue, now);
    SpawnedAllLives(setup, w, DueRegions(setup.regions, s.queue, now), region);
    QueueSplits(setup.regions, s.queue, now, region);
    assert LiveIds(w.items, region) == LiveIds(s.items, region);
  }

  lemma {:induction false} TargetsOf(regions: seq<Region>, r: Region)
    requires forall i, j | 0 <= i < j < |regions| :: regions[i].id != regions[j].id
    ensures r in regions ==> Occurrences(Targets(regions), r.id) == r.targetCount
    ensures (forall x | x in regions :: x.id != r.id) ==> Occurrences(Targets(regions), r.id) == 0
  {
    if regions != [] {
      var front, last := regions[..|regions| - 1], regions[|regions| - 1];
      assert regions == front + [last];
      TargetsOf(front, r);
      OccurrencesAppend(Targets(front), Repeated(last, last.targetCount), r.id);
      OccurrencesRepeated(last, last.targetCount, r.id);
    }
  }

  // Whatever is collected and whenever respawns are advanced, the live items
  // and pending respawns of every region stay at its target count.
  lemma {:induction false} RegionsAreConserved(setup: Setup, ops: seq<FieldOp>, r: Region)
    requires setup.Sound() && r in setup.regions
    ensures Total(FieldRun(setup, ops), r.id) == r.targetCount
  {
    if ops == [] {
      RunKeeps(setup, []);
      TargetsAreKnown(setup.regions);
      TargetsOf(setup.regions, r);
      assert LiveIds(EMPTY_FIELD.items, r.id) == {};
      SpawnedAllLives(setup, EMPTY_FIELD, Targets(setup.regions), r.id);
      SpawnedAllKeeps(setup, EMPTY_FIELD, Targets(setup.regions));
    } else {
      hide FieldOk, Total;
      var s := FieldRun(setup, ops[..|ops| - 1]);
      RunKeeps(setup, ops[..|ops| - 1]);
      RegionsAreConserved(setup, ops[..|ops| - 1], r);
      match ops[|ops| - 1]
      case OpCollect(id, now, pick) => CollectedConserves(setup, s, id, now, pick, r.id);
      case OpAdvance(now) => AdvancedConserves(setup, s, now, r.id);
    }
  }

  // ------------------------------------------------------------------
  // Respawning
  // ------------------------------------------------------------------

  function NumberDue(queue: seq<Deadline>, now: Time): nat {
    if queue == [] then 0 else (if queue[0].Due(now) then 1 else 0) + NumberDue(queue[1..], now)
  }

  lemma {:induction false} EachDueOnce(regions: seq<Region>, queue: seq<Deadline>, now: Time)
    requires forall d | d in queue :: Find(regions, d.regionId).Some?
    ensures |DueRegions(regions, queue, now)| == NumberDue(queue, now)
    ensures |Waiting(queue, now)| == |queue| - NumberDue(queue, now)
  {
    if queue != [] {
      EachDueOnce(regions, queue[1..], now);
    }
  }

  // t holds the items of s and new ones, one for each of the regions.
  ghost predicate Grown(s: Field, t: Field, regions: seq<Region>) {
    && t.nextID == s.nextID + |regions|
    && |t.items| == |s.items| + |regions|
    && (forall id :: id in t.items <==> id in s.items || s.nextID <= id < t.nextID)
    && (forall id | id in s.items :: id < s.nextID && t.items[id] == s.items[id])
    && (forall k | 0 <= k < |regions| :: t.items[s.nextID + k].regionId == regions[k].id)
  }

  lemma {:induction false} SpawnedAllItems(setup: Setup, s: Field, regions: seq<Region>)
    requires FieldOk(setup, s) && forall r | r in regions :: r in setup.regions
    ensures Grown(s, SpawnedAll(setup, s, regions), regions)
  {
    if regions == [] {
      NothingGrown(setup, s);
    } else {
      hide FieldOk, Grown, Spawned, NewItem;
      var front, last := regions[..|regions| - 1], regions[|regions| - 1];
      assert regions == front + [last];
      var mid := SpawnedAll(setup, s, front);
      SpawnedAllItems(setup, s, front);
      SpawnedAllKeeps(setup, s, front);
      OneGrown(setup, s, mid, front, last);
    }
  }

  lemma NothingGrown(setup: Setup, s: Field)
    requires FieldOk(setup, s)
    ensures Grown(s, s, [])
  {
    assert forall id | id in s.items :: ItemOk(setup, s, id);
  }

  lemma OneGrown(setup: Setup, s: Field, mid: Field, front: seq<Region>, last: Region)
    requires FieldOk(setup, mid) && last in setup.regions && Grown(s, mid, front)
    ensures Grown(s, Spawned(setup, mid, last), front + [last])
  {
    hide FieldOk, Grown, AddToCell, Place;
    SpawnedKeeps(setup, mid, last);
    GrownByOne(s, mid, Spawned(setup, mid, last), front, last, NewItem(setup, mid, last));
  }

  lemma GrownByOne(s: Field, mid: Field, t: Field, front: seq<Region>, last: Region, c: Collectible)
    requires Grown(s, mid, front) && mid.nextID !in mid.items && c.regionId == last.id
    requires t.items == mid.items[mid.nextID := c] && t.nextID == mid.nextID + 1
    ensures Grown(s, t, front + [last])
  {
    forall k | 0 <= k < |front| + 1
      ensures t.items[s.nextID + k].regionId == (front + [last])[k].id
    {
      if k < |front| {
        assert mid.items[s.nextID + k].regionId == front[k].id;
      }
    }
  }

  // Advancing takes exactly the due entries out of the queue, leaves the rest
  // in order, spawns one item for each, the last entry first, and touches no
  // item already there.
  lemma AdvanceIsExact(setup: Setup, s: Field, now: Time)
    requires FieldOk(setup, s)
    ensures var t := Advanced(setup, s, now);
      var due := DueRegions(setup.regions, s.queue, now);
      && t.queue == Waiting(s.queue, now)
      && (forall d | d in t.queue :: d in s.queue && !d.Due(now))
      && |t.queue| + NumberDue(s.queue, now) == |s.queue|
      && |due| == NumberDue(s.queue, now)
      && Grown(s, t, due)
  {
    EachDueOnce(setup.regions, s.queue, now);
    hide FieldOk, SpawnedAll, Grown, Waiting, DueRegions;
    var due := DueRegions(setup.regions, s.queue, now);
    WaitingKeeps(setup, s, now);
    WaitingIsNotDue(s.queue, now);
    DueRegionsAreKnown(setup.regions, s.queue, now);
    AdvancedKeeps(setup, s, now);
    SpawnedAllItems(setup, s.(queue := Waiting(s.queue, now)), due);
    QueueIsBeside(s, Waiting(s.queue, now), Advanced(setup, s, now), due);
  }

  lemma QueueIsBeside(s: Field, queue: seq<Deadline>, t: Field, regions: seq<Region>)
    requires Grown(s.(queue := queue), t, regions)
    ensures Grown(s, t, regions)
  {
  }

  // Once an entry is due, the next advance takes it out of the queue and spawns
  // an item of its region; until then every advance leaves it where it is.
  lemma DueIsReplaced(setup: Setup, s: Field, k: nat, now: Time)
    requires FieldOk(setup, s) && k < |s.queue|
    ensures var t := Advanced(setup, s, now);
      if s.queue[k].Due(now) then
        && s.queue[k] !in t.queue
        && exists id :: s.nextID <= id && id in t.items && t.items[id].regionId == s.queue[k].regionId
      else s.queue[k] in t.queue
  {
    hide FieldOk, Advanced, DueRegions;
    var t, d := Advanced(setup, s, now), s.queue[k];
    AdvanceIsExact(setup, s, now);
    WaitingIsNotDue(s.queue, now);
    assert d in s.queue;
    if d.Due(now) {
      QueueIsKnown(setup, s);
      var due := DueRegions(setup.regions, s.queue, now);
      var i := DueIsListed(setup.regions, s.queue, now, k);
      assert t.items[s.nextID + i].regionId == due[i].id;
      FindIsMember(setup.regions, d.regionId);
      assert s.nextID <= s.nextID + i && s.nextID + i in t.items;
    }
  }

  lemma QueueIsKnown(setup: Setup, s: Field)
    requires FieldOk(setup, s)
    ensures forall d | d in s.queue :: Find(setup.regions, d.regionId).Some?
  {
  }

  lemma {:induction false} DueIsListed(regions: seq<Region>, queue: seq<Deadline>, now: Time, k: nat) returns (i: nat)
    requires k < |queue| && queue[k].Due(now) && Find(regions, queue[k].regionId).Some?
    ensures i < |DueRegions(regions, queue, now)|
    ensures DueRegions(regions, queue, now)[i] == Find(regions, queue[k].regionId).value
  {
    if k == 0 {
      i := |DueRegions(regions, queue[1..], now)|;
    } else {
      i := DueIsListed(regions, queue[1..], now, k - 1);
    }
  }

  // A collected item is replaced no earlier than its region's shortest delay,
  // and the first advance after the longest delay replaces it.
  lemma RespawnIsScheduled(setup: Setup, s: Field, id: CollectibleId, now: Time, pick: nat, r: Region, later: Time)
    requires setup.Sound() && FieldOk(setup, s) && id in s.items
    requires r in setup.regions && r.id == s.items[id].regionId
    ensures var t := Collected(setup, s, id, now, pick);
      && t.items == s.items - {id}
      && |t.queue| == |s.queue| + 1 && t.queue[..|s.queue|] == s.queue
      && var d := t.queue[|s.queue|];
         && d.regionId == r.id
         && now + r.respawnMin <= d.dueAt <= now + r.respawnMax
         && (later < now + r.respawnMin ==> d in Advanced(setup, t, later).queue)
         && (later >= now + r.respawnMax ==>
               && d !in Advanced(setup, t, later).queue
               && exists k :: t.nextID <= k && k in Advanced(setup, t, later).items
                    && Advanced(setup, t, later).items[k].regionId == r.id)
  {
    FindOwn(setup.regions, r);
    CollectedKeeps(setup, s, id, now, pick);
    hide FieldOk, Advanced;
    DueIsReplaced(setup, Collected(setup, s, id, now, pick), |s.queue|, later);
  }

  // ------------------------------------------------------------------
  // One point per collectible
  // ------------------------------------------------------------------

  ghost predicate Awards(setup: Setup, ops: seq<FieldOp>, k: nat)
    requires setup.Sound() && k < |ops|
  {
    ops[k].OpCollect? && ops[k].id in FieldRun(setup, ops[..k]).items
  }

  ghost function AwardCount(setup: Setup, ops: seq<FieldOp>): nat
    requires setup.Sound()
  {
    if ops == [] then 0
    else AwardCount(setup, ops[..|ops| - 1]) + if Awards(setup, ops, |ops| - 1) then 1 else 0
  }

  // An operation never brings an id back, nor changes an item that stays.
  lemma ApplyIsFresh(setup: Setup, s: Field, op: FieldOp)
    requires setup.Sound() && FieldOk(setup, s)
    ensures var t := FieldApply(setup, s, op);
      && t.nextID >= s.nextID
      && (forall id | id in t.items && id < s.nextID :: id in s.items && t.items[id] == s.items[id])
  {
    hide Houses, ItemOk;
    if op.OpAdvance? {
      AdvanceIsExact(setup, s, op.now);
      AdvancedNextID(setup, s, op.now);
    }
  }

  lemma AdvancedNextID(setup: Setup, s: Field, now: Time)
    requires FieldOk(setup, s)
    ensures Advanced(setup, s, now).nextID == s.nextID + |DueRegions(setup.regions, s.queue, now)|
  {
    WaitingKeeps(setup, s, now);
    DueRegionsAreKnown(setup.regions, s.queue, now);
    SpawnedAllKeeps(setup, s.(queue := Waiting(s.queue, now)), DueRegions(setup.regions, s.queue, now));
  }

  // An id once used and gone never comes back, and an item never changes.
  lemma {:induction false} NeverComesBack(setup: Setup, ops: seq<FieldOp>, i: nat, id: CollectibleId)
    requires setup.Sound() && i <= |ops|
    requires id < FieldRun(setup, ops[..i]).nextID
    ensures id < FieldRun(setup, ops).nextID
    ensures id in FieldRun(setup, ops).items ==>
      id in FieldRun(setup, ops[..i]).items && FieldRun(setup, ops).items[id] == FieldRun(setup, ops[..i]).items[id]
    decreases |ops|
  {
    if i == |ops| {
      assert ops[..i] == ops;
    } else {
      hide FieldOk, FieldApply;
      var front := ops[..|ops| - 1];
      assert front[..i] == ops[..i];
      NeverComesBack(setup, front, i, id);
      RunKeeps(setup, front);
      ApplyIsFresh(setup, FieldRun(setup, front), ops[|ops| - 1]);
    }
  }

  // No collectible is awarded twice, whoever asks for it.
  lemma AwardedOnce(setup: Setup, ops: seq<FieldOp>, i: nat, j: nat)
    requires setup.Sound() && i < j < |ops|
    requires Awards(setup, ops, i) && Awards(setup, ops, j)
    ensures ops[i].id != ops[j].id
  {
    hide FieldOk;
    var upTo := ops[..j];
    assert upTo[..i] == ops[..i] && upTo[..i + 1] == ops[..i + 1];
    var s := FieldRun(setup, ops[..i]);
    RunKeeps(setup, ops[..i]);
    ItemsAreNumbered(setup, s, ops[i].id);
    assert ops[..i + 1][..i] == ops[..i];
    assert ops[i].id !in FieldRun(setup, ops[..i + 1]).items;
    NeverComesBack(setup, upTo, i + 1, ops[i].id);
  }

  lemma ItemsAreNumbered(setup: Setup, s: Field, id: CollectibleId)
    requires FieldOk(setup, s) && id in s.items
    ensures s.items[id].id == id && 1 <= id < s.nextID
  {
    assert ItemOk(setup, s, id);
  }

  // The points awarded are exactly the items ever made that are no longer there.
  lemma {:induction false} OnePointPerCollectible(setup: Setup, ops: seq<FieldOp>)
    requires setup.Sound()
    ensures AwardCount(setup, ops) == FieldRun(setup, ops).nextID - 1 - |FieldRun(setup, ops).items|
  {
    if ops == [] {
      TargetsAreKnown(setup.regions);
      SpawnedAllItems(setup, EMPTY_FIELD, Targets(setup.regions));
    } else {
      var front, op := ops[..|ops| - 1], ops[|ops| - 1];
      var s := FieldRun(setup, front);
      OnePointPerCollectible(setup, front);
      RunKeeps(setup, front);
      hide FieldOk, Place;
      match op
      case OpCollect(id, now, pick) =>
        if id in s.items {
          assert s.items.Keys == FieldRun(setup, ops).items.Keys + {id};
        }
      case OpAdvance(now) =>
        AdvanceIsExact(setup, s, now);
        AdvancedNextID(setup, s, now);
    }
  }

  // ------------------------------------------------------------------
  // Placement and radius queries
  // ------------------------------------------------------------------

  // An item is within half a metre.
  ghost predicate TooNear(cfg: Config, items: map<CollectibleId, Collectible>, at: LatLng) {
    exists id :: id in items && DistanceSquared(cfg.ToLocal(at.lat, at.lng), SpotOf(cfg, items[id])) <= 0.25
  }

  // A new item stands inside its region, and within the separation of another
  // exactly when all eleven trials were.
  lemma SpawnKeepsApart(setup: Setup, s: Field, region: Region)
    requires region in setup.regions
    ensures var c := NewItem(setup, s, region);
      && DistanceSquared(SpotOf(setup.cfg, c), setup.cfg.ToLocal(region.centerLat, region.centerLng))
           <= Square(region.radius)
      && (TooNear(setup.cfg, s.items, LatLng(c.lat, c.lng)) <==>
            forall k | 0 <= k <= 10 :: TooNear(setup.cfg, s.items, Trial(setup, region, s.nextID, k)))
      && exists k | 0 <= k <= 10 ::
           && LatLng(c.lat, c.lng) == Trial(setup, region, s.nextID, k)
           && forall j | 0 <= j < k :: TooNear(setup.cfg, s.items, Trial(setup, region, s.nextID, j))
  {
    assert forall at :: TooNear(setup.cfg, s.items, at) == Crowded(setup.cfg, s.items, at);
    PlaceIsTrial(setup, s.items, region, s.nextID, 0);
    hide Place, Crowded, Trial, TooNear;
    var k :| 0 <= k <= MAX_ATTEMPTS
          && Place(setup, s.items, region, s.nextID, 0) == Trial(setup, region, s.nextID, k)
          && forall j | 0 <= j < k :: Crowded(setup.cfg, s.items, Trial(setup, region, s.nextID, j));
    TrialMeans(setup, region, s.nextID, k);
  }

  lemma TrialMeans(setup: Setup, region: Region, id: CollectibleId, k: nat)
    ensures var at := Trial(setup, region, id, k);
      DistanceSquared(setup.cfg.ToLocal(at.lat, at.lng), setup.cfg.ToLocal(region.centerLat, region.centerLng))
        <= Square(region.radius)
  {
    TrialIsInside(setup.cfg, region, setup.draws(id, k));
  }

  // The live items within a radius of a point, found by looking at every item.
  ghost function InReach(cfg: Config, items: map<CollectibleId, Collectible>, at: LatLng,
                         radius: real): set<CollectibleId> {
    set id | id in items && Within(cfg, at, items[id], radius)
  }

  // Those of them that the grid's nine cells hold.
  ghost function Found(cfg: Config, items: map<CollectibleId, Collectible>, at: LatLng,
                       radius: real): set<CollectibleId> {
    set id | id in Around(Homes(cfg, items), cfg.CellOf(cfg.ToLocal(at.lat, at.lng)))
             && Within(cfg, at, items[id], radius)
  }

  // Up to a radius of one cell the grid agrees with brute force.
  lemma GridIsExact(cfg: Config, items: map<CollectibleId, Collectible>, at: LatLng, radius: real)
    requires 0.0 <= radius <= cfg.cellSize
    ensures Found(cfg, items, at, radius) == InReach(cfg, items, at, radius)
  {
    SquareMonotone(radius, cfg.cellSize);
    var center := cfg.CellOf(cfg.ToLocal(at.lat, at.lng));
    forall id
      ensures id in Found(cfg, items, at, radius) <==> id in InReach(cfg, items, at, radius)
    {
      if id in items && Within(cfg, at, items[id], radius) {
        NearbyIsAdjacent(cfg, cfg.ToLocal(at.lat, at.lng), SpotOf(cfg, items[id]));
        assert id in Homes(cfg, items);
      } else if id in Around(Homes(cfg, items), center) {
        assert id in Homes(cfg, items) && id in items;
      }
    }
  }

  // Beyond one cell it need not: with the point on a cell's corner and an item
  // just over one cell to the left of it, the item is missed.
  lemma GridIsExactUpToOneCell(cfg: Config, radius: real)
    requires 0.0 <= radius
    ensures radius <= cfg.cellSize <==>
      forall items: map<CollectibleId, Collectible>, at: LatLng ::
        Found(cfg, items, at, radius) == InReach(cfg, items, at, radius)
  {
    if radius <= cfg.cellSize {
      forall items: map<CollectibleId, Collectible>, at: LatLng
        ensures Found(cfg, items, at, radius) == InReach(cfg, items, at, radius)
      {
        GridIsExact(cfg, items, at, radius);
      }
    } else {
      var spot := ToLatLng(cfg, Point(-radius, 0.0));
      var items := map[1 := Collectible(1, "", spot.lat, spot.lng)];
      var at := LatLng(cfg.originLat, cfg.originLng);
      RoundTrip(cfg, Point(-radius, 0.0));
      assert SpotOf(cfg, items[1]) == Point(-radius, 0.0);
      assert cfg.ToLocal(at.lat, at.lng) == Point(0.0, 0.0);
      FarCell(cfg, radius);
      assert 1 in InReach(cfg, items, at, radius);
      assert 1 !in Found(cfg, items, at, radius);
    }
  }

  lemma FarCell(cfg: Config, radius: real)
    requires radius > cfg.cellSize
    ensures cfg.CellOf(Point(0.0, 0.0)) == Cell(0, 0) && cfg.CellOf(Point(-radius, 0.0)).x <= -2
    ensures DistanceSquared(Point(0.0, 0.0), Point(-radius, 0.0)) <= Square(radius)
  {
    var c := cfg.cellSize;
    assert 0.0 / c == 0.0;
    var q := -radius / c;
    assert q * c == -radius;
    assert (q + 1.0) * c == q * c + c;
    if q >= -1.0 {
      NonNegativeProduct(q + 1.0, c);
    }
  }
}

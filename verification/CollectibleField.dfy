// The collectible field as the object the server updates in place.
module CollectibleField {
  import opened Common
  import opened Sequences
  import opened AoiModel
  import opened Grid
  import opened CollectibleModel
  import opened CollectibleLaws

  class CollectibleGrid {
    const cfg: Config
    var cells: map<Cell, set<CollectibleId>>

    constructor (cfg: Config)
      ensures this.cfg == cfg && cells == map[]
    {
      this.cfg := cfg;
      cells := map[];
    }

    method Insert(id: CollectibleId, lat: real, lng: real)
      modifies this
      ensures cells == AddToCell(old(cells), id, cfg.CellOf(cfg.ToLocal(lat, lng)))
    {
      var cell := cfg.CellOf(cfg.ToLocal(lat, lng));
      if cell !in cells {
        cells := cells[cell := {}];
      }
      cells := cells[cell := cells[cell] + {id}];
    }

    method Remove(id: CollectibleId, lat: real, lng: real)
      modifies this
      ensures cells == RemoveFromCell(old(cells), id, cfg.CellOf(cfg.ToLocal(lat, lng)))
    {
      var cell := cfg.CellOf(cfg.ToLocal(lat, lng));
      if cell !in cells {
        return;
      }
      cells := cells[cell := cells[cell] - {id}];
      if cells[cell] == {} {
        cells := cells - {cell};
      }
    }

    method CandidateIDs(lat: real, lng: real, ghost homes: map<CollectibleId, Cell>) returns (ids: seq<CollectibleId>)
      requires Houses(cells, homes)
      ensures Lists(ids, Around(homes, cfg.CellOf(cfg.ToLocal(lat, lng))))
    {
      ids := NineCellMembers(cells, cfg.CellOf(cfg.ToLocal(lat, lng)), homes);
    }
  }

  // all are the items made between two states, in the order they were made.
  ghost predicate AreNew(s: Field, t: Field, all: seq<Collectible>) {
    && |all| == t.nextID - s.nextID
    && forall k | 0 <= k < |all| ::
         all[k].id == s.nextID + k && all[k].id in t.items && t.items[all[k].id] == all[k]
  }

  lemma AroundIsLive(cfg: Config, items: map<CollectibleId, Collectible>, center: Cell, id: CollectibleId)
    requires id in Around(Homes(cfg, items), center)
    ensures id in items
  {
  }

  lemma AroundAreLive(cfg: Config, items: map<CollectibleId, Collectible>, center: Cell)
    ensures Around(Homes(cfg, items), center) <= items.Keys
  {
  }

  lemma ItemsDiffer(setup: Setup, s: Field, hits: set<CollectibleId>, id: CollectibleId)
    requires FieldOk(setup, s) && id in s.items && id !in hits && hits <= s.items.Keys
    ensures s.items[id] !in (set k | k in hits :: s.items[k])
  {
    assert ItemOk(setup, s, id);
    forall k | k in hits
      ensures s.items[k] != s.items[id]
    {
      assert ItemOk(setup, s, k);
    }
  }

  lemma NothingNew(s: Field)
    ensures AreNew(s, s, [])
  {
  }

  lemma SameItemsNew(s: Field, mid: Field, t: Field, all: seq<Collectible>)
    requires AreNew(s, mid, all) && t.items == mid.items && t.nextID == mid.nextID
    ensures AreNew(s, t, all)
  {
  }

  lemma OneMoreNew(setup: Setup, s: Field, mid: Field, all: seq<Collectible>, region: Region)
    requires AreNew(s, mid, all)
    ensures AreNew(s, Spawned(setup, mid, region), all + [NewItem(setup, mid, region)])
  {
    hide Place, AddToCell;
    var t, c := Spawned(setup, mid, region), NewItem(setup, mid, region);
    var more := all + [c];
    assert t.nextID == mid.nextID + 1 && t.items == mid.items[mid.nextID := c];
    forall k | 0 <= k < |more|
      ensures more[k].id == s.nextID + k && more[k].id in t.items && t.items[more[k].id] == more[k]
    {
      if k < |all| {
        assert more[k] == all[k];
      }
    }
  }

  // ------------------------------------------------------------------
  // Advancing back to front
  // ------------------------------------------------------------------

  // due lists the positions of the due entries.
  ghost predicate AllDue(queue: seq<Deadline>, now: Time, due: seq<nat>) {
    && (forall a, b | 0 <= a < b < |due| :: due[a] < due[b])
    && (forall a | 0 <= a < |due| :: due[a] < |queue|)
    && (forall i | 0 <= i < |queue| :: queue[i].Due(now) <==> i in due)
  }

  // The entries from the cut on have been dealt with.
  ghost predicate AdvancedFrom(setup: Setup, s: Field, now: Time, cut: nat, t: Field)
    requires cut <= |s.queue|
  {
    && t.queue == s.queue[..cut] + Waiting(s.queue[cut..], now)
    && t == SpawnedAll(setup, s, DueRegions(setup.regions, s.queue[cut..], now)).(queue := t.queue)
  }

  // The region an entry respawns in, if it is known.
  function RegionOf(regions: seq<Region>, d: Deadline): seq<Region> {
    if Find(regions, d.regionId).Some? then [Find(regions, d.regionId).value] else []
  }

  // Entries that are not due are kept and spawn nothing.
  lemma {:induction false} NoneDue(regions: seq<Region>, queue: seq<Deadline>, now: Time, i: nat, cut: nat)
    requires i <= cut <= |queue|
    requires forall k | i <= k < cut :: !queue[k].Due(now)
    ensures Waiting(queue[i..], now) == queue[i..cut] + Waiting(queue[cut..], now)
    ensures DueRegions(regions, queue[i..], now) == DueRegions(regions, queue[cut..], now)
    decreases cut - i
  {
    if i < cut {
      assert queue[i..][1..] == queue[i + 1..];
      NoneDue(regions, queue, now, i + 1, cut);
      assert queue[i..cut] == [queue[i]] + queue[i + 1..cut];
    }
  }

  lemma NothingAdvanced(setup: Setup, s: Field, now: Time)
    ensures AdvancedFrom(setup, s, now, |s.queue|, s)
  {
    assert s.queue[|s.queue|..] == [] && s.queue[..|s.queue|] == s.queue;
  }

  // Before due entry i goes: what deleting it leaves and what it respawns.
  lemma DueStep(setup: Setup, s: Field, now: Time, due: seq<nat>, idx: nat, cut: nat, t: Field)
    requires idx < |due| && AllDue(s.queue, now, due)
    requires cut == if idx + 1 < |due| then due[idx + 1] else |s.queue|
    requires AdvancedFrom(setup, s, now, cut, t)
    ensures var i := due[idx];
      && i < cut && i < |t.queue| && t.queue[i] == s.queue[i]
      && t.queue[..i] + t.queue[i + 1..] == s.queue[..i] + Waiting(s.queue[i..], now)
      && DueRegions(setup.regions, s.queue[i..], now)
           == DueRegions(setup.regions, s.queue[cut..], now) + RegionOf(setup.regions, s.queue[i])
  {
    hide AllDue, Find;
    var i := due[idx];
    NextDue(s.queue, now, due, idx, cut);
    NoneDue(setup.regions, s.queue, now, i + 1, cut);
    var later := Waiting(s.queue[cut..], now);
    assert s.queue[i..][0] == s.queue[i] && s.queue[i..][1..] == s.queue[i + 1..];
    assert Waiting(s.queue[i..], now) == s.queue[i + 1..cut] + later;
    CutOut(s.queue, i, cut, later);
  }

  lemma CutOut(queue: seq<Deadline>, i: nat, cut: nat, later: seq<Deadline>)
    requires i < cut <= |queue|
    ensures var q := queue[..cut] + later;
      q[i] == queue[i] && q[..i] + q[i + 1..] == queue[..i] + (queue[i + 1..cut] + later)
  {
  }

  // Between two due entries none is due.
  lemma NextDue(queue: seq<Deadline>, now: Time, due: seq<nat>, idx: nat, cut: nat)
    requires idx < |due| && AllDue(queue, now, due)
    requires cut == if idx + 1 < |due| then due[idx + 1] else |queue|
    ensures due[idx] < cut <= |queue| && queue[due[idx]].Due(now)
    ensures forall k | due[idx] < k < cut :: !queue[k].Due(now)
  {
    assert due[idx] in due;
    forall k | due[idx] < k < cut
      ensures k !in due
    {
      forall a | 0 <= a < |due|
        ensures due[a] != k
      {
        assert a <= idx || idx + 1 <= a;
      }
    }
  }

  lemma AllAdvanced(setup: Setup, s: Field, now: Time, due: seq<nat>, cut: nat, t: Field)
    requires AllDue(s.queue, now, due) && cut == if 0 < |due| then due[0] else |s.queue|
    requires AdvancedFrom(setup, s, now, cut, t)
    ensures t == Advanced(setup, s, now)
  {
    forall k | 0 <= k < cut
      ensures k !in due
    {
      assert forall a | 0 <= a < |due| :: due[0] <= due[a];
    }
    NoneDue(setup.regions, s.queue, now, 0, cut);
    assert s.queue[0..] == s.queue && s.queue[0..cut] == s.queue[..cut];
    SpawningIgnoresQueue(setup, s, Waiting(s.queue, now), DueRegions(setup.regions, s.queue, now));
  }

  lemma {:induction false} SpawningIgnoresQueue(setup: Setup, s: Field, queue: seq<Deadline>, regions: seq<Region>)
    ensures SpawnedAll(setup, s.(queue := queue), regions) == SpawnedAll(setup, s, regions).(queue := queue)
  {
    if regions != [] {
      SpawningIgnoresQueue(setup, s, queue, regions[..|regions| - 1]);
    }
  }

  lemma DropKeeps(setup: Setup, s: Field, i: nat)
    requires FieldOk(setup, s) && i < |s.queue|
    ensures FieldOk(setup, s.(queue := s.queue[..i] + s.queue[i + 1..]))
  {
    hide Houses, InRegion;
    var t := s.(queue := s.queue[..i] + s.queue[i + 1..]);
    forall id | id in t.items
      ensures ItemOk(setup, t, id)
    {
      assert ItemOk(setup, s, id);
    }
  }

  // Nothing is spawned for an entry of an unknown region.
  lemma DroppedOnly(setup: Setup, s: Field, now: Time, cut: nat, i: nat, mid: Field, t: Field)
    requires i < cut <= |s.queue| && AdvancedFrom(setup, s, now, cut, mid)
    requires DueRegions(setup.regions, s.queue[i..], now) == DueRegions(setup.regions, s.queue[cut..], now)
    requires t == mid.(queue := s.queue[..i] + Waiting(s.queue[i..], now))
    ensures AdvancedFrom(setup, s, now, i, t)
  {
  }

  lemma SpawnedToo(setup: Setup, s: Field, now: Time, cut: nat, i: nat, mid: Field, dropped: Field, region: Region)
    requires i < cut <= |s.queue| && AdvancedFrom(setup, s, now, cut, mid)
    requires DueRegions(setup.regions, s.queue[i..], now) == DueRegions(setup.regions, s.queue[cut..], now) + [region]
    requires dropped == mid.(queue := s.queue[..i] + Waiting(s.queue[i..], now))
    ensures AdvancedFrom(setup, s, now, i, Spawned(setup, dropped, region))
  {
    hide Place;
    var made := DueRegions(setup.regions, s.queue[cut..], now);
    assert (made + [region])[..|made + [region]| - 1] == made;
  }

  class CollectibleField {
    const setup: Setup
    const grid: CollectibleGrid
    var collectibles: map<CollectibleId, Collectible>
    var replacements: seq<Deadline>
    var nextID: CollectibleId

    ghost function State(): Field
      reads this, grid
    {
      Field(collectibles, grid.cells, replacements, nextID)
    }

    ghost predicate Valid()
      reads this, grid
    {
      setup.Sound() && grid.cfg == setup.cfg && FieldOk(setup, State())
    }

    constructor (setup: Setup)
      requires setup.Sound()
      ensures Valid() && this.setup == setup && fresh(grid)
      ensures State() == EMPTY_FIELD
    {
      this.setup := setup;
      grid := new CollectibleGrid(setup.cfg);
      collectibles, replacements, nextID := map[], [], 1;
    }

    method Populate() returns (all: seq<Collectible>)
      requires Valid()
      modifies this, grid
      ensures Valid()
      ensures State() == SpawnedAll(setup, old(State()), Targets(setup.regions))
      ensures AreNew(old(State()), State(), all)
    {
      hide FieldOk, AreNew;
      ghost var before := State();
      all := [];
      NothingNew(before);
      for i := 0 to |setup.regions|
        invariant Valid() && State() == SpawnedAll(setup, before, Targets(setup.regions[..i]))
        invariant AreNew(before, State(), all)
      {
        var region := setup.regions[i];
        var some := FillRegion(region, before, Targets(setup.regions[..i]), all);
        all := some;
        assert setup.regions[..i + 1][..i] == setup.regions[..i];
      }
      assert setup.regions[..|setup.regions|] == setup.regions;
    }

    // The inner loop of Populate.
    method FillRegion(region: Region, ghost before: Field, ghost made: seq<Region>, sofar: seq<Collectible>)
      returns (all: seq<Collectible>)
      requires Valid() && region in setup.regions
      requires State() == SpawnedAll(setup, before, made) && AreNew(before, State(), sofar)
      modifies this, grid
      ensures Valid()
      ensures State() == SpawnedAll(setup, before, made + Repeated(region, region.targetCount))
      ensures AreNew(before, State(), all)
    {
      hide FieldOk, AreNew, Spawned;
      all := sofar;
      assert made + Repeated(region, 0) == made;
      for j := 0 to region.targetCount
        invariant Valid() && State() == SpawnedAll(setup, before, made + Repeated(region, j))
        invariant AreNew(before, State(), all)
      {
        ghost var mid := State();
        var c := SpawnInRegion(region);
        OneMoreNew(setup, before, mid, all, region);
        all := all + [c];
        ghost var more := made + Repeated(region, j + 1);
        assert more[..|more| - 1] == made + Repeated(region, j);
      }
    }

    // The item of that id, if it is there.
    method Lookup(id: CollectibleId) returns (c: Option<Collectible>)
      ensures c == if id in collectibles then Some(collectibles[id]) else None
    {
      if id !in collectibles {
        return None;
      }
      return Some(collectibles[id]);
    }

    // Each live item within the radius exactly once and nothing else, for
    // radii up to one cell; for larger ones, those of the nine cells.
    method CollectiblesWithinRadius(lat: real, lng: real, radius: real) returns (result: seq<Collectible>)
      requires Valid()
      ensures NoDuplicates(result)
      ensures ToSet(result)
           == set id | id in Found(setup.cfg, collectibles, LatLng(lat, lng), radius) :: collectibles[id]
      ensures 0.0 <= radius <= setup.cfg.cellSize ==>
        ToSet(result) == set id | id in InReach(setup.cfg, collectibles, LatLng(lat, lng), radius) :: collectibles[id]
    {
      hide Houses, ItemOk, Within, Around;
      var at := LatLng(lat, lng);
      ghost var all := Around(Homes(setup.cfg, collectibles), setup.cfg.CellOf(setup.cfg.ToLocal(lat, lng)));
      var candidates := grid.CandidateIDs(lat, lng, Homes(setup.cfg, collectibles));
      result := [];
      ghost var hits: set<CollectibleId> := {};
      for i := 0 to |candidates|
        invariant hits == set id | id in ToSet(candidates[..i]) && id in collectibles
                                   && Within(setup.cfg, at, collectibles[id], radius)
        invariant Lists(result, set id | id in hits :: collectibles[id])
      {
        var id := candidates[i];
        assert id in ToSet(candidates);
        AroundIsLive(setup.cfg, collectibles, setup.cfg.CellOf(setup.cfg.ToLocal(lat, lng)), id);
        assert candidates[..i + 1] == candidates[..i] + [id];
        assert ToSet(candidates[..i + 1]) == ToSet(candidates[..i]) + {id};
        var c := collectibles[id];
        if Within(setup.cfg, at, c, radius) {
          ItemsDiffer(setup, State(), hits, id);
          ListsAppend(result, set k | k in hits :: collectibles[k], c);
          assert (set k | k in hits + {id} :: collectibles[k]) == (set k | k in hits :: collectibles[k]) + {c};
          hits := hits + {id};
          result := result + [c];
        }
      }
      assert candidates[..|candidates|] == candidates;
      AroundAreLive(setup.cfg, collectibles, setup.cfg.CellOf(setup.cfg.ToLocal(lat, lng)));
      assert hits == Found(setup.cfg, collectibles, at, radius);
      if 0.0 <= radius <= setup.cfg.cellSize {
        GridIsExact(setup.cfg, collectibles, at, radius);
      }
    }

    method RegionByID(id: string) returns (region: Option<Region>)
      ensures region == Find(setup.regions, id)
    {
      for i := 0 to |setup.regions|
        invariant Find(setup.regions, id) == Find(setup.regions[i..], id)
      {
        if setup.regions[i].id == id {
          return Some(setup.regions[i]);
        }
        assert setup.regions[i..][1..] == setup.regions[i + 1..];
      }
      return None;
    }

    // Collect an item and schedule its replacement, pick deciding the delay.
    method Remove(id: CollectibleId, now: Time, pick: nat) returns (ok: bool)
      requires Valid()
      modifies this, grid
      ensures Valid()
      ensures ok <==> id in old(collectibles)
      ensures State() == Collected(setup, old(State()), id, now, pick)
    {
      hide Houses;
      ghost var before := State();
      CollectedKeeps(setup, before, id, now, pick);
      if id !in collectibles {
        return false;
      }
      var c := collectibles[id];
      assert ItemOk(setup, before, id);
      grid.Remove(c.id, c.lat, c.lng);
      collectibles := collectibles - {c.id};
      var region := RegionByID(c.regionId);
      if region == None {
        return true;
      }
      FindIsMember(setup.regions, c.regionId);
      replacements := replacements + [Deadline(c.regionId, now + Delay(region.value, pick))];
      return true;
    }

    // Respawn what is due, deleting from the queue back to front.
    method AdvanceReplacements(now: Time) returns (spawned: seq<Collectible>)
      requires Valid()
      modifies this, grid
      ensures Valid()
      ensures State() == Advanced(setup, old(State()), now)
      ensures AreNew(old(State()), State(), spawned)
    {
      ghost var before := State();
      hide FieldOk, AreNew, Spawned, DueRegions, Waiting, Find;
      NothingNew(before);
      spawned := [];
      var due := DueEntries(now);
      ghost var cut := |replacements|;
      NothingAdvanced(setup, before, now);
      var idx := |due|;
      while idx > 0
        invariant 0 <= idx <= |due| && AllDue(before.queue, now, due)
        invariant cut == if idx < |due| then due[idx] else |before.queue|
        invariant AdvancedFrom(setup, before, now, cut, State())
        invariant Valid() && AreNew(before, State(), spawned)
      {
        idx := idx - 1;
        var i := due[idx];
        DueStep(setup, before, now, due, idx, cut, State());
        spawned := RespawnOne(i, cut, now, before, spawned);
        cut := i;
      }
      AllAdvanced(setup, before, now, due, cut, State());
    }

    // The loop's body: drop entry i and replace it.
    method RespawnOne(i: nat, ghost cut: nat, now: Time, ghost before: Field, sofar: seq<Collectible>)
      returns (spawned: seq<Collectible>)
      requires Valid() && i < cut <= |before.queue|
      requires AdvancedFrom(setup, before, now, cut, State()) && AreNew(before, State(), sofar)
      requires i < |replacements| && replacements[i] == before.queue[i]
      requires DueRegions(setup.regions, before.queue[i..], now)
            == DueRegions(setup.regions, before.queue[cut..], now) + RegionOf(setup.regions, before.queue[i])
      requires replacements[..i] + replacements[i + 1..] == before.queue[..i] + Waiting(before.queue[i..], now)
      modifies this, grid
      ensures Valid() && AreNew(before, State(), spawned)
      ensures AdvancedFrom(setup, before, now, i, State())
    {
      hide FieldOk, AreNew, Spawned, AdvancedFrom, DueRegions, Waiting, Find;
      spawned := sofar;
      ghost var mid := State();
      DropKeeps(setup, mid, i);
      var region := RegionByID(replacements[i].regionId);
      replacements := replacements[..i] + replacements[i + 1..];
      ghost var dropped := State();
      SameItemsNew(before, mid, dropped, spawned);
      if region == None {
        DroppedOnly(setup, before, now, cut, i, mid, dropped);
        return;
      }
      FindIsMember(setup.regions, before.queue[i].regionId);
      OneMoreNew(setup, before, dropped, spawned, region.value);
      SpawnedToo(setup, before, now, cut, i, mid, dropped, region.value);
      var c := SpawnInRegion(region.value);
      spawned := spawned + [c];
    }

    // The positions of the due entries, in order.
    method DueEntries(now: Time) returns (due: seq<nat>)
      ensures AllDue(replacements, now, due)
    {
      due := [];
      for i := 0 to |replacements|
        invariant AllDue(replacements[..i], now, due)
      {
        if replacements[i].Due(now) {
          due := due + [i];
        }
      }
      assert replacements[..|replacements|] == replacements;
    }

    method SpawnInRegion(region: Region) returns (c: Collectible)
      requires Valid() && region in setup.regions
      modifies this, grid
      ensures Valid()
      ensures State() == Spawned(setup, old(State()), region)
      ensures c == NewItem(setup, old(State()), region)
    {
      hide FieldOk, Place;
      ghost var before := State();
      SpawnedKeeps(setup, before, region);
      var at := PlaceInRegion(region);
      var id := nextID;
      nextID := nextID + 1;
      c := Collectible(id, region.id, at.lat, at.lng);
      collectibles := collectibles[id := c];
      grid.Insert(id, at.lat, at.lng);
    }

    method PlaceInRegion(region: Region) returns (at: LatLng)
      requires Valid()
      ensures at == Place(setup, collectibles, region, nextID, 0)
    {
      hide Crowded, FieldOk;
      var attempt := 0;
      while attempt < MAX_ATTEMPTS
        invariant attempt <= MAX_ATTEMPTS
        invariant Place(setup, collectibles, region, nextID, 0) == Place(setup, collectibles, region, nextID, attempt)
      {
        at := PointInCircle(setup.cfg, region, setup.draws(nextID, attempt));
        var crowded := HasNearbyCollectible(at.lat, at.lng);
        if !crowded {
          return;
        }
        attempt := attempt + 1;
      }
      at := PointInCircle(setup.cfg, region, setup.draws(nextID, attempt));
    }

    method HasNearbyCollectible(lat: real, lng: real) returns (near: bool)
      requires Valid()
      ensures near <==> Crowded(setup.cfg, collectibles, LatLng(lat, lng))
    {
      hide Houses, ItemOk, Within, Around;
      var at := LatLng(lat, lng);
      var candidates := grid.CandidateIDs(lat, lng, Homes(setup.cfg, collectibles));
      GridIsExact(setup.cfg, collectibles, at, SEPARATION);
      for i := 0 to |candidates|
        invariant forall k | 0 <= k < i ::
          candidates[k] in collectibles ==> !Within(setup.cfg, at, collectibles[candidates[k]], SEPARATION)
      {
        assert candidates[i] in ToSet(candidates);
        AroundIsLive(setup.cfg, collectibles, setup.cfg.CellOf(setup.cfg.ToLocal(lat, lng)), candidates[i]);
        if Within(setup.cfg, at, collectibles[candidates[i]], SEPARATION) {
          assert candidates[i] in Found(setup.cfg, collectibles, at, SEPARATION);
          return true;
        }
      }
      forall id | id in collectibles
        ensures !Within(setup.cfg, at, collectibles[id], SEPARATION)
      {
        assert id in InReach(setup.cfg, collectibles, at, SEPARATION) ==> id in ToSet(candidates);
      }
      return false;
    }
  }
}

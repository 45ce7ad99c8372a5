// Normalisation of the changes sent to one client: contradictory lists are
// resolved so that the lists no longer depend on each other.
module Messages {
  import opened Common
  import opened Sequences

  datatype Appearance = Appearance(color: string, shape: string)

  datatype PlayerState = PlayerState(id: PlayerId, username: string, lat: real, lng: real, appearance: Appearance)

  datatype PlayerPosition = PlayerPosition(id: PlayerId, lat: real, lng: real)

  datatype SelfPosition = SelfPosition(lat: real, lng: real)

  datatype AppearanceUpdate = AppearanceUpdate(playerId: PlayerId, appearance: Appearance)

  // Entered and spawned items have the same fields.
  datatype Item = Item(id: CollectibleId, regionId: string, lat: real, lng: real)

  datatype Changes = Changes(
    selfPosition: Option<SelfPosition>,
    entered: seq<PlayerState>,
    leftPlayerIds: seq<PlayerId>,
    positions: seq<PlayerPosition>,
    appearances: seq<AppearanceUpdate>,
    collectiblesEntered: seq<Item>,
    collectibleIdsLeft: seq<CollectibleId>,
    collectiblesSpawned: seq<Item>,
    collectibleIdsCollected: seq<CollectibleId>)
  {
    predicate IsEmpty() {
      && selfPosition == None && entered == [] && leftPlayerIds == [] && positions == [] && appearances == []
      && collectiblesEntered == [] && collectibleIdsLeft == [] && collectiblesSpawned == []
      && collectibleIdsCollected == []
    }
  }

  const NO_CHANGES := Changes(None, [], [], [], [], [], [], [], [])

  function StateId(x: PlayerState): int { x.id }
  function PositionId(x: PlayerPosition): int { x.id }
  function ItemId(x: Item): int { x.id }

  // ------------------------------------------------------------------
  // What normalisation means
  // ------------------------------------------------------------------

  function Ids<T(==)>(items: seq<T>, id: T -> int): set<int> {
    set x | x in items :: id(x)
  }

  // The items whose id is not among those to drop, in their order.
  function Keep<T>(items: seq<T>, id: T -> int, drop: set<int>): seq<T> {
    if items == [] then []
    else
      var front, last := Keep(items[..|items| - 1], id, drop), items[|items| - 1];
      if id(last) in drop then front else front + [last]
  }

  ghost predicate SortedById<T>(items: seq<T>, id: T -> int) {
    forall i, j | 0 <= i < j < |items| :: id(items[i]) <= id(items[j])
  }

  // Ordered by id; the order among equal ids is left open.
  ghost predicate Sorts<T>(sorted: seq<T>, items: seq<T>, id: T -> int) {
    SortedById(sorted, id) && multiset(sorted) == multiset(items)
  }

  // The last update of a player, if it has one.
  function LastUpdate(updates: seq<AppearanceUpdate>, p: PlayerId): Option<AppearanceUpdate> {
    if updates == [] then None
    else if updates[|updates| - 1].playerId == p then Some(updates[|updates| - 1])
    else LastUpdate(updates[..|updates| - 1], p)
  }

  // One update per player, the last, for the players not to drop, by player.
  ghost predicate LatestAppearances(latest: seq<AppearanceUpdate>, updates: seq<AppearanceUpdate>,
                                    drop: set<PlayerId>) {
    && (forall i, j | 0 <= i < j < |latest| :: latest[i].playerId < latest[j].playerId)
    && (forall x | x in latest :: x.playerId !in drop && LastUpdate(updates, x.playerId) == Some(x))
    && (forall x | x in updates && x.playerId !in drop :: exists y | y in latest :: y.playerId == x.playerId)
  }

  // n is a normal form of c for the player it is sent to: left beats entered
  // beats moved, collected and left beat spawned beats entered.
  ghost predicate IsNormalOf(self: PlayerId, c: Changes, n: Changes) {
    var left := ToSet(c.leftPlayerIds);
    var newcomers := Keep(c.entered, StateId, left + {self});
    var gone := ToSet(c.collectibleIdsLeft) + ToSet(c.collectibleIdsCollected);
    var spawned := Keep(c.collectiblesSpawned, ItemId, gone);
    && n.selfPosition == c.selfPosition
    && Sorts(n.entered, newcomers, StateId)
    && Ascending(n.leftPlayerIds) && ToSet(n.leftPlayerIds) == left - {self}
    && Sorts(n.positions, Keep(c.positions, PositionId, left + {self} + Ids(newcomers, StateId)), PositionId)
    && LatestAppearances(n.appearances, c.appearances, left + Ids(newcomers, StateId))
    && Sorts(n.collectiblesEntered, Keep(c.collectiblesEntered, ItemId, gone + Ids(spawned, ItemId)), ItemId)
    && Ascending(n.collectibleIdsLeft) && ToSet(n.collectibleIdsLeft) == ToSet(c.collectibleIdsLeft)
    && Sorts(n.collectiblesSpawned, spawned, ItemId)
    && Ascending(n.collectibleIdsCollected) && ToSet(n.collectibleIdsCollected) == ToSet(c.collectibleIdsCollected)
  }

  // ------------------------------------------------------------------
  // Normalisation
  // ------------------------------------------------------------------

  method NormalizeReplicationChanges(self: PlayerId, changes: Changes) returns (n: Changes)
    ensures IsNormalOf(self, changes, n)
  {
    hide Keep, Ids, Sorts, LatestAppearances, Ascending;
    var left := ToSet(changes.leftPlayerIds);
    var entered := Filtered(changes.entered, StateId, left + {self});
    var enteredIDs := Ids(entered, StateId);
    var sortedEntered := SortSlice(entered, StateId);

    var positions := Filtered(changes.positions, PositionId, left + {self} + enteredIDs);
    var sortedPositions := SortSlice(positions, PositionId);

    var appearances := NormalizeAppearanceUpdates(changes.appearances, left + enteredIDs);
    var leftIDs := SetKeys(left);
    var filteredLeft := FilterSelf(leftIDs, self);

    var spawnedColIDs := Ids(changes.collectiblesSpawned, ItemId);
    var leftColIDs := ToSet(changes.collectibleIdsLeft);
    var collectedColIDs := ToSet(changes.collectibleIdsCollected);
    spawnedColIDs := FilterCollectibleIDs(spawnedColIDs, leftColIDs);
    spawnedColIDs := FilterCollectibleIDs(spawnedColIDs, collectedColIDs);
    KeptIds(changes.collectiblesSpawned, ItemId, leftColIDs + collectedColIDs);
    assert spawnedColIDs == Ids(changes.collectiblesSpawned, ItemId) - (leftColIDs + collectedColIDs);

    var colEntered := Filtered(changes.collectiblesEntered, ItemId, spawnedColIDs + leftColIDs + collectedColIDs);
    assert spawnedColIDs + leftColIDs + collectedColIDs == leftColIDs + collectedColIDs + spawnedColIDs;
    var sortedColEntered := SortSlice(colEntered, ItemId);
    var colSpawned := Filtered(changes.collectiblesSpawned, ItemId, leftColIDs + collectedColIDs);
    var sortedColSpawned := SortSlice(colSpawned, ItemId);
    var idsLeft := SetKeys(leftColIDs);
    var idsCollected := SetKeys(collectedColIDs);

    n := Changes(changes.selfPosition, sortedEntered, filteredLeft, sortedPositions, appearances,
                 sortedColEntered, idsLeft, sortedColSpawned, idsCollected);
  }

  method Filtered<T>(items: seq<T>, id: T -> int, drop: set<int>) returns (kept: seq<T>)
    ensures kept == Keep(items, id, drop)
  {
    kept := [];
    for i := 0 to |items|
      invariant kept == Keep(items[..i], id, drop)
    {
      assert items[..i + 1][..i] == items[..i];
      if id(items[i]) in drop {
        continue;
      }
      kept := kept + [items[i]];
    }
    assert items[..|items|] == items;
  }

  method FilterSelf(ids: seq<int>, self: PlayerId) returns (kept: seq<int>)
    requires Ascending(ids)
    ensures Ascending(kept) && ToSet(kept) == ToSet(ids) - {self}
  {
    kept := [];
    for i := 0 to |ids|
      invariant Ascending(kept) && ToSet(kept) == ToSet(ids[..i]) - {self}
      invariant forall x | x in kept :: x in ids[..i]
    {
      assert ids[..i + 1] == ids[..i] + [ids[i]];
      assert forall x | x in ids[..i] :: x < ids[i];
      AscendingAppend(ids[..i], ids[i]);
      if ids[i] != self {
        AscendingAppend(kept, ids[i]);
        kept := kept + [ids[i]];
      }
    }
    assert ids[..|ids|] == ids;
  }

  method FilterCollectibleIDs(target: set<CollectibleId>, keep: set<CollectibleId>) returns (rest: set<CollectibleId>)
    ensures rest == target - keep
  {
    rest := target;
    var todo := target;
    while todo != {}
      invariant todo <= target && rest == target - (keep - todo)
    {
      var id := AnyOf(todo);
      if id in keep {
        rest := rest - {id};
      }
      todo := todo - {id};
    }
  }

  method NormalizeAppearanceUpdates(updates: seq<AppearanceUpdate>, drop: set<PlayerId>)
    returns (latest: seq<AppearanceUpdate>)
    ensures LatestAppearances(latest, updates, drop)
  {
    var byPlayer: map<PlayerId, AppearanceUpdate> := map[];
    for i := 0 to |updates|
      invariant forall p | p in byPlayer :: p !in drop && LastUpdate(updates[..i], p) == Some(byPlayer[p])
      invariant forall x | x in updates[..i] && x.playerId !in drop :: x.playerId in byPlayer
    {
      assert updates[..i + 1][..i] == updates[..i];
      if updates[i].playerId in drop {
        continue;
      }
      byPlayer := byPlayer[updates[i].playerId := updates[i]];
    }
    assert updates[..|updates|] == updates;
    var keys := SetKeys(byPlayer.Keys);
    latest := [];
    for i := 0 to |keys|
      invariant |latest| == i
      invariant forall k | 0 <= k < i :: keys[k] in byPlayer && latest[k] == byPlayer[keys[k]]
    {
      assert keys[i] in ToSet(keys);
      latest := latest + [byPlayer[keys[i]]];
    }
    forall p | p in byPlayer
      ensures LastUpdate(updates, p).value.playerId == p
    {
      LastUpdateIsOf(updates, p);
    }
    forall x | x in updates && x.playerId !in drop
      ensures exists y | y in latest :: y.playerId == x.playerId
    {
      assert x.playerId in ToSet(keys);
      var k :| 0 <= k < |keys| && keys[k] == x.playerId;
      assert latest[k] in latest;
    }
  }

  lemma {:induction false} LastUpdateIsOf(updates: seq<AppearanceUpdate>, p: PlayerId)
    ensures var last := LastUpdate(updates, p); last.Some? ==> last.value.playerId == p && last.value in updates
    ensures (exists x | x in updates :: x.playerId == p) ==> LastUpdate(updates, p).Some?
  {
    if updates != [] && updates[|updates| - 1].playerId != p {
      LastUpdateIsOf(updates[..|updates| - 1], p);
      assert updates == updates[..|updates| - 1] + [updates[|updates| - 1]];
    }
  }

  // Any sorting by id; equal ids come in no promised order.
  method SortSlice<T>(items: seq<T>, id: T -> int) returns (sorted: seq<T>)
    ensures Sorts(sorted, items, id)
  {
    hide Sorts;
    assert Sorts<T>([], [], id) by { NothingSorted(id); }
    sorted := [];
    for i := 0 to |items|
      invariant Sorts(sorted, items[..i], id)
    {
      var x := items[i];
      var k := 0;
      while k < |sorted| && id(sorted[k]) <= id(x)
        invariant 0 <= k <= |sorted|
        invariant forall j | 0 <= j < k :: id(sorted[j]) <= id(x)
      {
        k := k + 1;
      }
      SortsInsert(sorted, items[..i], id, x, k);
      assert items[..i + 1] == items[..i] + [x];
      sorted := sorted[..k] + [x] + sorted[k..];
    }
    assert items[..|items|] == items;
  }

  // ------------------------------------------------------------------
  // Facts about the pieces
  // ------------------------------------------------------------------

  lemma {:induction false} KeptIds<T>(items: seq<T>, id: T -> int, drop: set<int>)
    ensures Ids(Keep(items, id, drop), id) == Ids(items, id) - drop
    ensures forall x :: x in Keep(items, id, drop) <==> x in items && id(x) !in drop
  {
    if items != [] {
      var front, last := items[..|items| - 1], items[|items| - 1];
      assert items == front + [last];
      KeptIds(front, id, drop);
      assert Ids(items, id) == Ids(front, id) + {id(last)};
      var kept := Keep(front, id, drop);
      assert Ids(kept + [last], id) == Ids(kept, id) + {id(last)};
    }
  }

  lemma SortsInsert<T>(sorted: seq<T>, items: seq<T>, id: T -> int, x: T, k: nat)
    requires Sorts(sorted, items, id) && k <= |sorted|
    requires forall j | 0 <= j < k :: id(sorted[j]) <= id(x)
    requires k < |sorted| ==> id(x) < id(sorted[k])
    ensures Sorts(sorted[..k] + [x] + sorted[k..], items + [x], id)
  {
    InsertCounts(sorted, x, k);
    InsertOrder(sorted, id, x, k);
  }

  lemma NothingSorted<T>(id: T -> int)
    ensures Sorts<T>([], [], id)
  {
  }

  lemma InsertCounts<T>(sorted: seq<T>, x: T, k: nat)
    requires k <= |sorted|
    ensures multiset(sorted[..k] + [x] + sorted[k..]) == multiset(sorted) + multiset{x}
  {
    assert sorted == sorted[..k] + sorted[k..];
  }

  lemma InsertOrder<T>(sorted: seq<T>, id: T -> int, x: T, k: nat)
    requires SortedById(sorted, id) && k <= |sorted|
    requires forall j | 0 <= j < k :: id(sorted[j]) <= id(x)
    requires k < |sorted| ==> id(x) < id(sorted[k])
    ensures SortedById(sorted[..k] + [x] + sorted[k..], id)
  {
    var longer := sorted[..k] + [x] + sorted[k..];
    forall i, j | 0 <= i < j < |longer|
      ensures id(longer[i]) <= id(longer[j])
    {
      assert longer[i] == if i < k then sorted[i] else if i == k then x else sorted[i - 1];
      assert longer[j] == if j < k then sorted[j] else if j == k then x else sorted[j - 1];
      assert k < |sorted| ==> forall h | k <= h < |sorted| :: id(sorted[k]) <= id(sorted[h]);
    }
  }

  lemma SortedIds<T>(sorted: seq<T>, items: seq<T>, id: T -> int)
    requires Sorts(sorted, items, id)
    ensures Ids(sorted, id) == Ids(items, id)
    ensures forall x :: x in sorted <==> x in items
  {
    assert forall x :: x in sorted <==> x in multiset(sorted);
    assert forall x :: x in items <==> x in multiset(items);
  }

  // The lists of a normal form do not contradict each other, and none but the
  // appearances mentions the recipient.
  ghost predicate Consistent(self: PlayerId, n: Changes) {
    && ToSet(n.leftPlayerIds) !! Ids(n.entered, StateId)
    && Ids(n.positions, PositionId) !! ToSet(n.leftPlayerIds) + Ids(n.entered, StateId)
    && (forall x | x in n.appearances :: x.playerId !in ToSet(n.leftPlayerIds) + Ids(n.entered, StateId))
    && self !in ToSet(n.leftPlayerIds) + Ids(n.entered, StateId) + Ids(n.positions, PositionId)
    && Ids(n.collectiblesSpawned, ItemId) !! ToSet(n.collectibleIdsLeft) + ToSet(n.collectibleIdsCollected)
    && Ids(n.collectiblesEntered, ItemId)
         !! ToSet(n.collectibleIdsLeft) + ToSet(n.collectibleIdsCollected) + Ids(n.collectiblesSpawned, ItemId)
  }

  lemma NormalIsConsistent(self: PlayerId, c: Changes, n: Changes)
    requires IsNormalOf(self, c, n)
    ensures Consistent(self, n)
  {
    hide Sorts, Keep, Ids;
    NormalIds(self, c, n);
    KeptIds(c.entered, StateId, ToSet(c.leftPlayerIds) + {self});
  }

  // The ids of a normal form in terms of what was normalised.
  lemma NormalIds(self: PlayerId, c: Changes, n: Changes)
    requires IsNormalOf(self, c, n)
    ensures var left := ToSet(c.leftPlayerIds);
      var gone := ToSet(c.collectibleIdsLeft) + ToSet(c.collectibleIdsCollected);
      && ToSet(n.leftPlayerIds) == left - {self}
      && Ids(n.entered, StateId) == Ids(c.entered, StateId) - left - {self}
      && Ids(n.positions, PositionId) == Ids(c.positions, PositionId) - left - {self} - Ids(c.entered, StateId)
      && ToSet(n.collectibleIdsLeft) == ToSet(c.collectibleIdsLeft)
      && ToSet(n.collectibleIdsCollected) == ToSet(c.collectibleIdsCollected)
      && Ids(n.collectiblesSpawned, ItemId) == Ids(c.collectiblesSpawned, ItemId) - gone
      && Ids(n.collectiblesEntered, ItemId)
         == Ids(c.collectiblesEntered, ItemId) - gone - Ids(c.collectiblesSpawned, ItemId)
  {
    hide Sorts, LatestAppearances, Keep, Ids;
    var left := ToSet(c.leftPlayerIds);
    var newcomers := Keep(c.entered, StateId, left + {self});
    KeptIds(c.entered, StateId, left + {self});
    SortedIds(n.entered, newcomers, StateId);
    var drop := left + {self} + Ids(newcomers, StateId);
    KeptIds(c.positions, PositionId, drop);
    SortedIds(n.positions, Keep(c.positions, PositionId, drop), PositionId);
    var gone := ToSet(c.collectibleIdsLeft) + ToSet(c.collectibleIdsCollected);
    var spawned := Keep(c.collectiblesSpawned, ItemId, gone);
    KeptIds(c.collectiblesSpawned, ItemId, gone);
    SortedIds(n.collectiblesSpawned, spawned, ItemId);
    var colDrop := gone + Ids(spawned, ItemId);
    KeptIds(c.collectiblesEntered, ItemId, colDrop);
    SortedIds(n.collectiblesEntered, Keep(c.collectiblesEntered, ItemId, colDrop), ItemId);
  }
}

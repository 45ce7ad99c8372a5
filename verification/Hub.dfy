// The hub as the actor the server runs: one object that owns the connections,
// the world, the index and the collectible field, and changes them in place.
module Hub {
  import opened Common
  import opened Geometry
  import opened Sequences
  import opened SetMaps
  import opened HubModel
  import opened HubInvariant
  import opened HubLaws
  import opened HubOutbox
  import opened Messages
  import W = World
  import Aoi = AoiModel
  import AoiIndex
  import AoiCount
  import Gems = CollectibleModel
  import GemLaws = CollectibleLaws
  import GemField = CollectibleField
  import Builder = ReplicationBuilder

  // The lists kept for each player, as sets of ids.

  ghost function ItemIds(lists: map<PlayerId, seq<Item>>): map<PlayerId, set<CollectibleId>> {
    map q | q in lists :: Ids(lists[q], ItemId)
  }

  ghost function IdSets(lists: map<PlayerId, seq<CollectibleId>>): map<PlayerId, set<CollectibleId>> {
    map q | q in lists :: ToSet(lists[q])
  }

  datatype HubPlayers = HubPlayers(
    clients: map<PlayerId, Client>,
    scores: map<PlayerId, int>,
    syntheticIDs: set<PlayerId>)

  // submitted is what the position writer has been given.
  datatype HubPersistence = HubPersistence(dirty: set<PlayerId>, numbers: map<PlayerId, nat>,
                                           submitted: seq<Submission>)

  datatype HubReplication = HubReplication(
    pendingEntered: map<PlayerId, PlayerState>,
    pendingLeft: map<PlayerId, seq<PlayerId>>,
    pendingAppearances: map<PlayerId, Appearance>)

  // awards and synced are what the score writer has been given, in passing and
  // for good.
  datatype HubCollectibles = HubCollectibles(
    visibleIDs: map<PlayerId, set<CollectibleId>>,
    pendingEntered: map<PlayerId, seq<Item>>,
    pendingLeftIDs: map<PlayerId, seq<CollectibleId>>,
    pendingSpawned: map<PlayerId, seq<Item>>,
    pendingCollected: map<PlayerId, seq<CollectibleId>>,
    cooldowns: map<PlayerId, Time>,
    awards: seq<Award>,
    synced: seq<ScoreWrite>)

  // What the model keeps beside the hub's own fields.
  datatype Beside = Beside(shown: map<PlayerId, set<CollectibleId>>, joined: map<PlayerId, Join>)

  // What the winner of an item is told.
  datatype CollectResult = CollectResult(item: CollectibleId, score: int)

  // What a client is sent when it registers.
  datatype Snapshot = Snapshot(self: PlayerState, score: int, visible: seq<PlayerState>,
                               regions: seq<Gems.Region>, collectibles: seq<Gems.Collectible>)

  // The player itself, those it sees, and the collectibles in its view.
  ghost predicate SnapshotIs(cfg: HubConfig, s: HubState, p: PlayerId, snapshot: Snapshot)
    requires p in s.world.players
  {
    && snapshot.self == W.PlayerStateOf(p, s.world.players[p])
    && snapshot.score == Number(s.scores, p)
    && Lists(snapshot.visible, W.StatesOf(s.world, Aoi.Neighbors(s.aoi, p)))
    && (!cfg.collecting ==> snapshot.regions == [] && snapshot.collectibles == [])
    && (cfg.collecting ==>
          var seen := InView(cfg, s.field, s.world.players[p].at, VIEW);
          && snapshot.regions == cfg.gems.regions
          && Lists(snapshot.collectibles, set id | id in seen && id in s.field.items :: s.field.items[id])
          && (set c | c in snapshot.collectibles :: c.id) == seen)
  }

  // What is told of an item is what the field has of it.
  ghost predicate TrueItem(live: map<CollectibleId, Gems.Collectible>, x: Item) {
    && x.id in live
    && x.regionId == live[x.id].regionId && x.lat == live[x.id].lat && x.lng == live[x.id].lng
  }

  ghost predicate TrueItems(live: map<CollectibleId, Gems.Collectible>, lists: map<PlayerId, seq<Item>>) {
    forall q, x | q in lists && x in lists[q] :: TrueItem(live, x)
  }

  // The hub's own fields and the states of its parts, as one value.
  ghost function Assembled(world: W.WorldState, aoi: Aoi.Index, field: Gems.Field, players: HubPlayers,
                           persistence: HubPersistence, replication: HubReplication, collectibles: HubCollectibles,
                           beside: Beside): HubState {
    HubState(world, aoi, players.clients, players.scores, players.syntheticIDs,
             persistence.dirty, persistence.numbers,
             replication.pendingEntered.Keys, replication.pendingLeft,
             Outbox(replication.pendingAppearances,
                    ItemIds(collectibles.pendingEntered), IdSets(collectibles.pendingLeftIDs),
                    ItemIds(collectibles.pendingSpawned), IdSets(collectibles.pendingCollected)),
             collectibles.visibleIDs, beside.shown, collectibles.cooldowns, field,
             persistence.submitted, collectibles.awards, collectibles.synced, beside.joined)
  }

  // ------------------------------------------------------------------
  // Facts about the loops
  // ------------------------------------------------------------------

  lemma FinalFrame(cfg: HubConfig, s: HubState, p: PlayerId)
    ensures var t := FinalSubmitted(cfg, s, p); t == s.(numbers := t.numbers, submitted := t.submitted)
  {
  }

  lemma LeftForNobody(pending: map<PlayerId, seq<PlayerId>>, clients: map<PlayerId, Client>, p: PlayerId)
    ensures LeftFor(pending, clients, {}, p) == pending
  {
    var now := LeftFor(pending, clients, {}, p);
    forall q
      ensures q in now <==> q in pending
      ensures q in now && q in pending ==> now[q] == pending[q]
    {
    }
  }

  lemma LeftForOneMore(pending: map<PlayerId, seq<PlayerId>>, clients: map<PlayerId, Client>, players: set<PlayerId>,
                       p: PlayerId, x: PlayerId)
    requires x !in players
    ensures var was := LeftFor(pending, clients, players, p);
      LeftFor(pending, clients, players + {x}, p) == if x in clients then was[x := Listed(was, x) + [p]] else was
  {
    var was, now := LeftFor(pending, clients, players, p), LeftFor(pending, clients, players + {x}, p);
    var next := if x in clients then was[x := Listed(was, x) + [p]] else was;
    forall q
      ensures q in now <==> q in next
      ensures q in now && q in next ==> now[q] == next[q]
    {
    }
  }

  method WithoutId(ids: seq<PlayerId>, p: PlayerId) returns (filtered: seq<PlayerId>)
    ensures filtered == Others(ids, p)
  {
    filtered := [];
    for i := 0 to |ids|
      invariant filtered == Others(ids[..i], p)
    {
      assert ids[..i + 1][..i] == ids[..i];
      if ids[i] != p {
        filtered := filtered + [ids[i]];
      }
    }
    assert ids[..|ids|] == ids;
  }

  // p is forgotten in all the lists but those still to do.
  ghost predicate ForgottenBut(before: map<PlayerId, seq<PlayerId>>, p: PlayerId, rest: set<PlayerId>,
                               now: map<PlayerId, seq<PlayerId>>) {
    && (forall q :: q in now <==> q in before && (q in rest || Others(before[q], p) != []))
    && (forall q | q in now :: now[q] == if q in rest then before[q] else Others(before[q], p))
  }

  lemma AllForgotten(before: map<PlayerId, seq<PlayerId>>, p: PlayerId, now: map<PlayerId, seq<PlayerId>>)
    requires ForgottenBut(before, p, {}, now)
    ensures now == ForgetLeft(before, p)
  {
    var all := ForgetLeft(before, p);
    forall q
      ensures q in now <==> q in all
      ensures q in now && q in all ==> now[q] == all[q]
    {
    }
  }

  lemma ItemIdsWithout(lists: map<PlayerId, seq<Item>>, p: PlayerId)
    ensures ItemIds(lists - {p}) == ItemIds(lists) - {p}
  {
  }

  lemma IdSetsWithout(lists: map<PlayerId, seq<CollectibleId>>, p: PlayerId)
    ensures IdSets(lists - {p}) == IdSets(lists) - {p}
  {
  }

  // An item is no longer seen by the connected players among those given.
  ghost function HideFrom(visible: map<PlayerId, set<CollectibleId>>, clients: map<PlayerId, Client>,
                          players: set<PlayerId>, id: CollectibleId): map<PlayerId, set<CollectibleId>> {
    map q | q in visible :: if q in clients && q in players then visible[q] - {id} else visible[q]
  }

  // Ids are listed for the connected players among those given.
  ghost function TellThem(told: map<PlayerId, set<CollectibleId>>, clients: map<PlayerId, Client>,
                          players: set<PlayerId>, ids: set<CollectibleId>): map<PlayerId, set<CollectibleId>> {
    map q | q in told.Keys + clients.Keys && (q in told || q in players) ::
      Lookup(told, q) + if q in clients && q in players then ids else {}
  }

  lemma ToldNobody(visible: map<PlayerId, set<CollectibleId>>, told: map<PlayerId, set<CollectibleId>>,
                   clients: map<PlayerId, Client>, id: CollectibleId, item: CollectibleId)
    ensures HideFrom(visible, clients, {}, id) == visible && TellThem(told, clients, {}, {item}) == told
  {
    var t := TellThem(told, clients, {}, {item});
    forall q
      ensures q in t <==> q in told
      ensures q in t && q in told ==> t[q] == told[q]
    {
    }
    assert t == told;
  }

  lemma HideFromOneMore(visible: map<PlayerId, set<CollectibleId>>, clients: map<PlayerId, Client>,
                        players: set<PlayerId>, id: CollectibleId, q: PlayerId)
    ensures var was := HideFrom(visible, clients, players, id);
      HideFrom(visible, clients, players + {q}, id)
        == if q in clients && q in was then was[q := was[q] - {id}] else was
  {
    var was, now := HideFrom(visible, clients, players, id), HideFrom(visible, clients, players + {q}, id);
    var next := if q in clients && q in was then was[q := was[q] - {id}] else was;
    forall p
      ensures p in now <==> p in next
      ensures p in now && p in next ==> now[p] == next[p]
    {
    }
  }

  lemma TellOneMore(told: map<PlayerId, set<CollectibleId>>, clients: map<PlayerId, Client>, players: set<PlayerId>,
                    ids: set<CollectibleId>, q: PlayerId)
    ensures var was := TellThem(told, clients, players, ids);
      TellThem(told, clients, players + {q}, ids)
        == if q in clients then was[q := Lookup(was, q) + ids] else was
  {
    var was, now := TellThem(told, clients, players, ids), TellThem(told, clients, players + {q}, ids);
    var next := if q in clients then was[q := Lookup(was, q) + ids] else was;
    forall p
      ensures p in now <==> p in next
      ensures p in now && p in next ==> now[p] == next[p]
    {
    }
  }

  lemma IdSetsAppend(lists: map<PlayerId, seq<CollectibleId>>, q: PlayerId, item: CollectibleId)
    ensures IdSets(lists[q := Listed(lists, q) + [item]]) == IdSets(lists)[q := Lookup(IdSets(lists), q) + {item}]
  {
    assert ToSet(Listed(lists, q) + [item]) == ToSet(Listed(lists, q)) + {item};
    var was := IdSets(lists)[q := Lookup(IdSets(lists), q) + {item}];
    var now := IdSets(lists[q := Listed(lists, q) + [item]]);
    forall p
      ensures p in now <==> p in was
      ensures p in now && p in was ==> now[p] == was[p]
    {
    }
  }

  // ------------------------------------------------------------------
  // Facts about broadcasting
  // ------------------------------------------------------------------

  // What a move of p changed in the index.
  ghost predicate DeltaIs(s: Aoi.Index, t: Aoi.Index, p: PlayerId, delta: AoiIndex.MovementDelta) {
    && delta.playerId == p
    && Lists(delta.entered, Aoi.Entered(s, t, p))
    && Lists(delta.left, Aoi.Left(s, t, p))
    && Lists(delta.stable, Aoi.Stable(s, t, p))
  }

  // One delta for each listed player the world knows, each for its own move.
  ghost predicate DeltasAre(cfg: HubConfig, s: HubState, order: seq<PlayerId>, deltas: seq<AoiIndex.MovementDelta>) {
    if order == [] then deltas == []
    else
      var front, last := order[..|order| - 1], order[|order| - 1];
      var mid := MovedAll(cfg, s, front);
      if last !in mid.world.players then DeltasAre(cfg, s, front, deltas)
      else
        && deltas != []
        && DeltasAre(cfg, s, front, deltas[..|deltas| - 1])
        && DeltaIs(mid.aoi, MovedOne(cfg, mid, last).aoi, last, deltas[|deltas| - 1])
  }

  lemma UnknownStays(cfg: HubConfig, s: HubState, p: PlayerId)
    requires p !in s.world.players
    ensures MovedOne(cfg, s, p) == s
  {
  }

  // The present state of each player to be announced that is still there, once.
  ghost predicate StatesAre(s: HubState, states: seq<PlayerState>) {
    && (forall x | x in states :: x.id in s.world.players && x == W.PlayerStateOf(x.id, s.world.players[x.id]))
    && (forall i, j | 0 <= i < j < |states| :: states[i].id != states[j].id)
    && (set x | x in states :: x.id) == s.pendingEntered * s.world.players.Keys
  }

  // The builder is given what the outbox holds.
  ghost predicate OutboxIs(outbox: Outbox, input: Builder.BuildInput) {
    && input.pendingAppearances == outbox.looks
    && ItemIds(input.collectEntered) == outbox.entered
    && IdSets(input.collectLeft) == outbox.left
    && ItemIds(input.collectSpawned) == outbox.spawned
    && IdSets(input.collectCollected) == outbox.collected
  }

  // What a broadcast from s hands to the builder once everything is gathered:
  // the moves' own changes, the lists, and the present world to look things up.
  ghost predicate TellsOf(cfg: HubConfig, s: HubState, g: HubState, order: seq<PlayerId>,
                          input: Builder.BuildInput, view: Builder.View) {
    && input.tick == s.world.tick
    && DeltasAre(cfg, s.(world := s.world.(moved := {}, removed := {})), order, input.movementDeltas)
    && StatesAre(g, input.pendingEntered)
    && input.pendingLeft == g.pendingLeft
    && OutboxIs(g.outbox, input)
    && view == Builder.View(g.clients, g.aoi.visible, map p | p in g.world.players :: g.world.players[p].at)
  }

  lemma TellsGathered(cfg: HubConfig, s: HubState, g: HubState, order: seq<PlayerId>,
                      input: Builder.BuildInput, view: Builder.View)
    requires input.tick == s.world.tick
    requires DeltasAre(cfg, s.(world := s.world.(moved := {}, removed := {})), order, input.movementDeltas)
    requires StatesAre(g, input.pendingEntered) && input.pendingLeft == g.pendingLeft && OutboxIs(g.outbox, input)
    requires view == Builder.View(g.clients, g.aoi.visible, map p | p in g.world.players :: g.world.players[p].at)
    ensures TellsOf(cfg, s, g, order, input, view)
  {
  }

  lemma {:induction false} DeltasStable(cfg: HubConfig, s: HubState, order: seq<PlayerId>,
                                        deltas: seq<AoiIndex.MovementDelta>)
    requires DeltasAre(cfg, s, order, deltas)
    ensures forall d | d in deltas :: NoDuplicates(d.stable)
  {
    if order != [] {
      hide MovedAll, MovedOne;
      var front, last := order[..|order| - 1], order[|order| - 1];
      if last !in MovedAll(cfg, s, front).world.players {
        DeltasStable(cfg, s, front, deltas);
      } else {
        DeltasStable(cfg, s, front, deltas[..|deltas| - 1]);
        assert deltas == deltas[..|deltas| - 1] + [deltas[|deltas| - 1]];
      }
    }
  }

  lemma GatheredWorld(cfg: HubConfig, s: HubState, order: seq<PlayerId>, now: Time)
    ensures Gathered(cfg, s, order, now).world == s.world.(moved := {}, removed := {})
  {
    hide MovedAll, ViewsRecalculated, SpawnedNear, Gems.Advanced;
    var taken := s.(world := s.world.(moved := {}, removed := {}));
    WorldWhileMoving(cfg, taken, order);
    var shown := SpawnsSeen(cfg, MovedAll(cfg, taken, order), Gems.Advanced(cfg.gems, s.field, now));
    ViewsRecalculatedKeeps(cfg, shown, order);
  }

  lemma {:induction false} WorldWhileMoving(cfg: HubConfig, s: HubState, order: seq<PlayerId>)
    ensures MovedAll(cfg, s, order).world == s.world
  {
    if order != [] {
      hide Aoi.Moved, Aoi.Entered, Aoi.Left, LeftFor;
      WorldWhileMoving(cfg, s, order[..|order| - 1]);
    }
  }

  lemma DeliveredKeeps(s: HubState)
    ensures var t := Delivered(s); t.world == s.world && t.aoi == s.aoi && t.clients == s.clients
  {
    hide ShownAfter;
  }

  lemma NoLists()
    ensures ItemIds(map[]) == map[] && IdSets(map[]) == map[]
  {
  }

  lemma NothingToTell(cfg: HubConfig, s: HubState, order: seq<PlayerId>, view: Builder.View, input: Builder.BuildInput)
    requires order == [] && DeltasAre(cfg, s, order, input.movementDeltas)
    requires |input.pendingEntered| == 0 && |input.pendingLeft| == 0 && |input.pendingAppearances| == 0
    requires |input.collectEntered| == 0 && |input.collectLeft| == 0
    requires |input.collectSpawned| == 0 && |input.collectCollected| == 0
    ensures Builder.JobsGather(view, input, [])
  {
    assert input.movementDeltas == [];
    assert input.pendingAppearances == map[];
    forall r
      ensures !Builder.Concerned(view, input, r)
    {
    }
  }

  // Whatever a job says of anybody or anything holds where it was made.
  ghost predicate TrueJob(s: HubState, job: Builder.ReplicationJob) {
    var c, players := job.changes, s.world.players;
    && (c.selfPosition.Some? ==>
          && job.recipientId in players
          && c.selfPosition.value.lat == players[job.recipientId].at.lat
          && c.selfPosition.value.lng == players[job.recipientId].at.lng)
    && (forall x | x in c.positions ::
          x.id in players && x.lat == players[x.id].at.lat && x.lng == players[x.id].at.lng)
    && (forall x | x in c.entered :: x.id in players && TrueState(players[x.id], x))
    && (forall x | x in c.appearances :: x.playerId in players && x.appearance == players[x.playerId].appearance)
    && (forall x | x in c.collectiblesEntered :: TrueItem(s.field.items, x))
    && (forall x | x in c.collectiblesSpawned :: TrueItem(s.field.items, x))
  }

  ghost predicate TrueState(w: W.Walker, x: PlayerState) {
    x.username == w.username && x.lat == w.at.lat && x.lng == w.at.lng && x.appearance == w.appearance
  }

  lemma {:induction false} PositionsAreTrue(v: Builder.View, deltas: seq<AoiIndex.MovementDelta>, r: PlayerId)
    ensures forall x | x in Builder.StablePositions(v, deltas, r) ::
              x.id in v.places && x.lat == v.places[x.id].lat && x.lng == v.places[x.id].lng
  {
    if deltas != [] {
      PositionsAreTrue(v, deltas[..|deltas| - 1], r);
    }
  }

  lemma {:induction false} NewcomersAreGiven(v: Builder.View, entered: seq<PlayerState>, r: PlayerId)
    ensures forall x | x in Builder.Newcomers(v, entered, r) :: x in entered
  {
    if entered != [] {
      NewcomersAreGiven(v, entered[..|entered| - 1], r);
    }
  }

  lemma JobsAreTrue(cfg: HubConfig, s: HubState, g: HubState, order: seq<PlayerId>, input: Builder.BuildInput,
                    view: Builder.View, jobs: seq<Builder.ReplicationJob>, job: Builder.ReplicationJob)
    requires TellsOf(cfg, s, g, order, input, view) && Builder.JobsGather(view, input, jobs) && job in jobs
    requires LooksOk(g.outbox.looks, g.world)
    requires TrueItems(g.field.items, input.collectEntered) && TrueItems(g.field.items, input.collectSpawned)
    ensures TrueJob(g, job)
  {
    hide ItemIds, IdSets, DeltasAre;
    var r := job.recipientId;
    assert Builder.Gathers(view, input, r, job.changes);
    PositionsAreTrue(view, input.movementDeltas, r);
    NewcomersAreGiven(view, input.pendingEntered, r);
    forall x | x in job.changes.appearances
      ensures x.playerId in g.world.players && x.appearance == g.world.players[x.playerId].appearance
    {
      assert x in ToSet(job.changes.appearances);
    }
  }

  lemma BroadcastIsTrue(cfg: HubConfig, s: HubState, order: seq<PlayerId>, now: Time, input: Builder.BuildInput,
                        view: Builder.View, jobs: seq<Builder.ReplicationJob>)
    requires var g := Gathered(cfg, s, order, now);
      && TellsOf(cfg, s, g, order, input, view) && Builder.JobsGather(view, input, jobs)
    requires var live := Broadcasted(cfg, s, order, now).field.items;
      TrueItems(live, input.collectEntered) && TrueItems(live, input.collectSpawned)
    requires LooksOk(s.outbox.looks, s.world)
    ensures var t := Broadcasted(cfg, s, order, now);
      forall job | job in jobs :: TrueJob(t, job)
  {
    hide TellsOf, Builder.JobsGather, TrueItems, TrueItem, TrueState, Gathered, ShownAfter;
    var g := Gathered(cfg, s, order, now);
    GatheredWorld(cfg, s, order, now);
    GatheredKeepsLooks(cfg, s, order, now);
    forall job | job in jobs
      ensures TrueJob(Broadcasted(cfg, s, order, now), job)
    {
      JobsAreTrue(cfg, s, g, order, input, view, jobs, job);
    }
  }

  lemma NothingToBeTold(live: map<CollectibleId, Gems.Collectible>, lists: map<PlayerId, seq<Item>>)
    requires ItemIds(lists) == map[]
    ensures TrueItems(live, lists)
  {
    assert lists.Keys == ItemIds(lists).Keys;
  }

  // The field is what it was before the moves.
  lemma {:induction false} FieldWhileMoving(cfg: HubConfig, s: HubState, order: seq<PlayerId>)
    ensures MovedAll(cfg, s, order).field == s.field
  {
    if order != [] {
      hide Aoi.Moved, Aoi.Entered, Aoi.Left, LeftFor;
      FieldWhileMoving(cfg, s, order[..|order| - 1]);
    }
  }

  // The new items below an id have been seen.
  ghost function SpawnsSeenUpTo(cfg: HubConfig, s: HubState, f: Gems.Field, upTo: CollectibleId): HubState {
    s.(field := f,
       outbox := s.outbox.(spawned := map q | q in s.outbox.spawned.Keys + s.clients.Keys &&
           (q in s.outbox.spawned || Early(SpawnedNear(cfg, s, f, q), upTo) != {}) ::
         Lookup(s.outbox.spawned, q) + if q in s.clients then Early(SpawnedNear(cfg, s, f, q), upTo) else {}),
       visible := map q | q in s.visible ::
         s.visible[q] + if q in s.clients then Early(SpawnedNear(cfg, s, f, q), upTo) else {})
  }

  ghost function Early(ids: set<CollectibleId>, upTo: CollectibleId): set<CollectibleId> {
    set id | id in ids && id < upTo
  }

  lemma NoneSeen(cfg: HubConfig, s: HubState, f: Gems.Field)
    ensures SpawnsSeenUpTo(cfg, s, f, s.field.nextID) == s.(field := f)
  {
    hide NearIndexed;
    forall q
      ensures Early(SpawnedNear(cfg, s, f, q), s.field.nextID) == {}
    {
    }
    var t := SpawnsSeenUpTo(cfg, s, f, s.field.nextID);
    forall q
      ensures q in t.visible <==> q in s.visible
      ensures q in t.visible && q in s.visible ==> t.visible[q] == s.visible[q]
      ensures q in t.outbox.spawned <==> q in s.outbox.spawned
      ensures q in t.outbox.spawned && q in s.outbox.spawned ==> t.outbox.spawned[q] == s.outbox.spawned[q]
    {
      assert Early(SpawnedNear(cfg, s, f, q), s.field.nextID) == {};
    }
    assert t.visible == s.visible;
    assert t.outbox.spawned == s.outbox.spawned;
  }

  // Every new item is early enough once all have been seen.
  lemma AllEarly(cfg: HubConfig, s: HubState, f: Gems.Field, upTo: CollectibleId, q: PlayerId)
    requires forall id | id in f.items :: id < upTo
    ensures Early(SpawnedNear(cfg, s, f, q), upTo) == SpawnedNear(cfg, s, f, q)
  {
    hide NearIndexed;
  }

  lemma SeenAt(cfg: HubConfig, s: HubState, f: Gems.Field, q: PlayerId)
    ensures var t, ids := SpawnsSeen(cfg, s, f), SpawnedNear(cfg, s, f, q);
      && (q in t.outbox.spawned <==> q in s.outbox.spawned || (q in s.clients && ids != {}))
      && (q in t.outbox.spawned ==>
            t.outbox.spawned[q] == Lookup(s.outbox.spawned, q) + if q in s.clients then ids else {})
      && (q in t.visible <==> q in s.visible)
      && (q in s.visible ==> t.visible[q] == s.visible[q] + if q in s.clients then ids else {})
  {
    hide SpawnedNear;
  }

  lemma UpToAt(cfg: HubConfig, s: HubState, f: Gems.Field, upTo: CollectibleId, q: PlayerId)
    ensures var t := SpawnsSeenUpTo(cfg, s, f, upTo);
      var ids := Early(SpawnedNear(cfg, s, f, q), upTo);
      && (q in t.outbox.spawned <==> q in s.outbox.spawned || (q in s.clients && ids != {}))
      && (q in t.outbox.spawned ==>
            t.outbox.spawned[q] == Lookup(s.outbox.spawned, q) + if q in s.clients then ids else {})
      && (q in t.visible <==> q in s.visible)
      && (q in s.visible ==> t.visible[q] == s.visible[q] + if q in s.clients then ids else {})
  {
    hide Early, SpawnedNear;
  }

  lemma SameMaps<K, V>(m: map<K, V>, n: map<K, V>)
    requires forall q :: q in m <==> q in n
    requires forall q | q in m && q in n :: m[q] == n[q]
    ensures m == n
  {
    assert m.Keys == n.Keys;
  }

  lemma AllTold(cfg: HubConfig, s: HubState, f: Gems.Field, upTo: CollectibleId)
    requires forall id | id in f.items :: id < upTo
    ensures SpawnsSeenUpTo(cfg, s, f, upTo).visible == SpawnsSeen(cfg, s, f).visible
    ensures SpawnsSeenUpTo(cfg, s, f, upTo).outbox.spawned == SpawnsSeen(cfg, s, f).outbox.spawned
  {
    hide SpawnsSeenUpTo, SpawnsSeen, SpawnedNear, Early;
    var t, u := SpawnsSeenUpTo(cfg, s, f, upTo), SpawnsSeen(cfg, s, f);
    forall q
      ensures q in t.visible <==> q in u.visible
      ensures q in t.visible && q in u.visible ==> t.visible[q] == u.visible[q]
      ensures q in t.outbox.spawned <==> q in u.outbox.spawned
      ensures q in t.outbox.spawned && q in u.outbox.spawned ==> t.outbox.spawned[q] == u.outbox.spawned[q]
    {
      AllEarly(cfg, s, f, upTo, q);
      UpToAt(cfg, s, f, upTo, q);
      SeenAt(cfg, s, f, q);
    }
    SameMaps(t.visible, u.visible);
    SameMaps(t.outbox.spawned, u.outbox.spawned);
  }

  lemma UpToFrame(cfg: HubConfig, s: HubState, f: Gems.Field, upTo: CollectibleId)
    ensures var t := SpawnsSeenUpTo(cfg, s, f, upTo);
      t == s.(field := f, visible := t.visible, outbox := s.outbox.(spawned := t.outbox.spawned))
  {
  }

  // An item is seen by those of the connected players given that see anything.
  ghost function ShowTo(visible: map<PlayerId, set<CollectibleId>>, clients: map<PlayerId, Client>,
                        players: set<PlayerId>, id: CollectibleId): map<PlayerId, set<CollectibleId>> {
    map q | q in visible :: if q in clients && q in players then visible[q] + {id} else visible[q]
  }

  lemma SeenFrame(cfg: HubConfig, s: HubState, f: Gems.Field)
    ensures var t := SpawnsSeen(cfg, s, f);
      t == s.(field := f, visible := t.visible, outbox := s.outbox.(spawned := t.outbox.spawned))
  {
  }

  lemma AllSeen(cfg: HubConfig, s: HubState, f: Gems.Field, spawned: seq<Gems.Collectible>)
    requires forall id | id in f.items :: id < s.field.nextID + |spawned|
    ensures SpawnsSeenUpTo(cfg, s, f, s.field.nextID + |spawned|) == SpawnsSeen(cfg, s, f)
  {
    hide SpawnsSeenUpTo, SpawnsSeen;
    AllTold(cfg, s, f, s.field.nextID + |spawned|);
    UpToFrame(cfg, s, f, s.field.nextID + |spawned|);
    SeenFrame(cfg, s, f);
  }

  lemma OneMoreId<T>(items: seq<T>, x: T, id: T -> int)
    ensures Ids(items + [x], id) == Ids(items, id) + {id(x)}
  {
    assert x in items + [x];
  }

  lemma SingleId<T>(x: T, id: T -> int)
    ensures Ids([x], id) == {id(x)}
  {
    assert x in [x];
  }

  lemma NewEnd(s: Gems.Field, f: Gems.Field, spawned: seq<Gems.Collectible>, due: seq<Gems.Region>)
    requires GemField.AreNew(s, f, spawned) && GemLaws.Grown(s, f, due)
    ensures forall id | id in f.items :: id < s.nextID + |spawned|
  {
  }

  lemma AdvanceGives(cfg: HubConfig, f: Gems.Field, now: Time, spawned: seq<Gems.Collectible>)
    requires Gems.FieldOk(cfg.gems, f) && GemField.AreNew(f, Gems.Advanced(cfg.gems, f, now), spawned)
    ensures forall id | id in Gems.Advanced(cfg.gems, f, now).items :: id < f.nextID + |spawned|
  {
    hide Gems.FieldOk, Gems.Advanced, GemField.AreNew, GemLaws.Grown;
    GemLaws.AdvanceIsExact(cfg.gems, f, now);
    NewEnd(f, Gems.Advanced(cfg.gems, f, now), spawned, Gems.DueRegions(cfg.gems.regions, f.queue, now));
  }

  lemma NewIs(s: Gems.Field, f: Gems.Field, spawned: seq<Gems.Collectible>, i: nat)
    requires GemField.AreNew(s, f, spawned) && i < |spawned|
    ensures spawned[i].id == s.nextID + i && spawned[i].id in f.items && f.items[spawned[i].id] == spawned[i]
  {
  }

  lemma ShownNobody(visible: map<PlayerId, set<CollectibleId>>, told: map<PlayerId, set<CollectibleId>>,
                    clients: map<PlayerId, Client>, id: CollectibleId)
    ensures ShowTo(visible, clients, {}, id) == visible && TellThem(told, clients, {}, {id}) == told
  {
    ToldNobody(visible, told, clients, id, id);
  }

  lemma ShowToOneMore(visible: map<PlayerId, set<CollectibleId>>, clients: map<PlayerId, Client>,
                      players: set<PlayerId>, id: CollectibleId, q: PlayerId)
    ensures var was := ShowTo(visible, clients, players, id);
      ShowTo(visible, clients, players + {q}, id)
        == if q in clients && q in was then was[q := was[q] + {id}] else was
  {
    var was, now := ShowTo(visible, clients, players, id), ShowTo(visible, clients, players + {q}, id);
    var next := if q in clients && q in was then was[q := was[q] + {id}] else was;
    forall p
      ensures p in now <==> p in next
      ensures p in now && p in next ==> now[p] == next[p]
    {
    }
  }

  lemma ItemIdsAppend(lists: map<PlayerId, seq<Item>>, q: PlayerId, items: seq<Item>)
    ensures ItemIds(lists[q := Listed(lists, q) + items])
         == ItemIds(lists)[q := Lookup(ItemIds(lists), q) + Ids(items, ItemId)]
  {
    assert Ids(Listed(lists, q) + items, ItemId) == Ids(Listed(lists, q), ItemId) + Ids(items, ItemId);
    var was := ItemIds(lists)[q := Lookup(ItemIds(lists), q) + Ids(items, ItemId)];
    var now := ItemIds(lists[q := Listed(lists, q) + items]);
    forall p
      ensures p in now <==> p in was
      ensures p in now && p in was ==> now[p] == was[p]
    {
    }
  }

  // Seeing the next new item.
  lemma SeenOneMore(cfg: HubConfig, s: HubState, f: Gems.Field, c: Gems.Collectible, nearby: set<PlayerId>)
    requires c.id in f.items && f.items[c.id] == c && s.field.nextID <= c.id
    requires nearby == AoiIndex.NineCells(s.aoi, cfg.aoi.CellOf(cfg.aoi.ToLocal(c.lat, c.lng)))
    ensures var t, u := SpawnsSeenUpTo(cfg, s, f, c.id), SpawnsSeenUpTo(cfg, s, f, c.id + 1);
      && u.visible == ShowTo(t.visible, s.clients, nearby, c.id)
      && u.outbox.spawned == TellThem(t.outbox.spawned, s.clients, nearby, {c.id})
      && u == t.(visible := u.visible, outbox := t.outbox.(spawned := u.outbox.spawned))
  {
    hide NearIndexed, AoiIndex.NineCells;
    forall q
      ensures q in nearby <==> NearIndexed(cfg, s, q, c)
      ensures Early(SpawnedNear(cfg, s, f, q), c.id + 1)
           == Early(SpawnedNear(cfg, s, f, q), c.id) + if q in nearby then {c.id} else {}
    {
      NearbyAreNear(cfg, s, c, q);
    }
    SeenShown(cfg, s, f, c, nearby);
    SeenTold(cfg, s, f, c, nearby);
  }

  lemma SeenShown(cfg: HubConfig, s: HubState, f: Gems.Field, c: Gems.Collectible, nearby: set<PlayerId>)
    requires forall q :: Early(SpawnedNear(cfg, s, f, q), c.id + 1)
                      == Early(SpawnedNear(cfg, s, f, q), c.id) + if q in nearby then {c.id} else {}
    ensures var t, u := SpawnsSeenUpTo(cfg, s, f, c.id), SpawnsSeenUpTo(cfg, s, f, c.id + 1);
      u.visible == ShowTo(t.visible, s.clients, nearby, c.id)
  {
    hide Early, SpawnedNear, SpawnsSeenUpTo;
    var t, u := SpawnsSeenUpTo(cfg, s, f, c.id), SpawnsSeenUpTo(cfg, s, f, c.id + 1);
    var shown := ShowTo(t.visible, s.clients, nearby, c.id);
    forall q
      ensures q in u.visible <==> q in shown
      ensures q in u.visible && q in shown ==> u.visible[q] == shown[q]
    {
      UpToAt(cfg, s, f, c.id, q);
      UpToAt(cfg, s, f, c.id + 1, q);
    }
  }

  lemma SeenTold(cfg: HubConfig, s: HubState, f: Gems.Field, c: Gems.Collectible, nearby: set<PlayerId>)
    requires forall q :: Early(SpawnedNear(cfg, s, f, q), c.id + 1)
                      == Early(SpawnedNear(cfg, s, f, q), c.id) + if q in nearby then {c.id} else {}
    ensures var t, u := SpawnsSeenUpTo(cfg, s, f, c.id), SpawnsSeenUpTo(cfg, s, f, c.id + 1);
      u.outbox.spawned == TellThem(t.outbox.spawned, s.clients, nearby, {c.id})
  {
    hide Early, SpawnedNear, SpawnsSeenUpTo;
    var t, u := SpawnsSeenUpTo(cfg, s, f, c.id), SpawnsSeenUpTo(cfg, s, f, c.id + 1);
    var told := TellThem(t.outbox.spawned, s.clients, nearby, {c.id});
    forall q
      ensures q in u.outbox.spawned <==> q in told
      ensures q in u.outbox.spawned && q in told ==> u.outbox.spawned[q] == told[q]
    {
      UpToAt(cfg, s, f, c.id, q);
      UpToAt(cfg, s, f, c.id + 1, q);
    }
  }


  lemma TrueItemsMore(live: map<CollectibleId, Gems.Collectible>, lists: map<PlayerId, seq<Item>>, q: PlayerId,
                      items: seq<Item>)
    requires TrueItems(live, lists) && forall x | x in items :: TrueItem(live, x)
    ensures TrueItems(live, lists[q := Listed(lists, q) + items])
  {
  }

  lemma TrueItemsStay(cfg: HubConfig, f: Gems.Field, now: Time, lists: map<PlayerId, seq<Item>>)
    requires Gems.FieldOk(cfg.gems, f) && TrueItems(f.items, lists)
    ensures TrueItems(Gems.Advanced(cfg.gems, f, now).items, lists)
  {
    hide Gems.FieldOk, Gems.Advanced;
    GemLaws.AdvanceIsExact(cfg.gems, f, now);
    forall q, x | q in lists && x in lists[q]
      ensures TrueItem(Gems.Advanced(cfg.gems, f, now).items, x)
    {
      assert TrueItem(f.items, x);
    }
  }

  // The items in view that were not, and all that are.
  method Entering500(within500: seq<Gems.Collectible>, prevVisible: set<CollectibleId>)
    returns (entered: seq<Item>, newVisible: set<CollectibleId>)
    ensures newVisible == set c | c in within500 :: c.id
    ensures Ids(entered, ItemId) == newVisible - prevVisible
    ensures forall x | x in entered :: exists c | c in within500 ::
              x.id == c.id && x.regionId == c.regionId && x.lat == c.lat && x.lng == c.lng
  {
    entered, newVisible := [], {};
    for i := 0 to |within500|
      invariant newVisible == set c | c in within500[..i] :: c.id
      invariant Ids(entered, ItemId) == newVisible - prevVisible
      invariant forall x | x in entered :: exists c | c in within500 ::
                  x.id == c.id && x.regionId == c.regionId && x.lat == c.lat && x.lng == c.lng
    {
      var c := within500[i];
      assert within500[..i + 1] == within500[..i] + [c];
      newVisible := newVisible + {c.id};
      if c.id !in prevVisible {
        ghost var was := entered;
        entered := entered + [Item(c.id, c.regionId, c.lat, c.lng)];
        OneMoreId(was, entered[|was|], ItemId);
      }
    }
    assert within500[..|within500|] == within500;
  }

  // What was seen and is out of view.
  method Leaving600(prevVisible: set<CollectibleId>, within600: set<CollectibleId>)
    returns (leftIDs: seq<CollectibleId>)
    ensures ToSet(leftIDs) == prevVisible - within600
  {
    leftIDs := [];
    var rest := prevVisible;
    while rest != {}
      invariant rest <= prevVisible
      invariant ToSet(leftIDs) == prevVisible - rest - within600
    {
      var id := AnyOf(rest);
      rest := rest - {id};
      if id !in within600 {
        ghost var was := leftIDs;
        leftIDs := leftIDs + [id];
        assert ToSet(leftIDs) == ToSet(was) + {id};
      }
    }
  }

  lemma PutItems(lists: map<PlayerId, seq<Item>>, p: PlayerId, items: seq<Item>)
    ensures ItemIds(if |items| > 0 then lists[p := Listed(lists, p) + items] else lists)
         == PutMore(ItemIds(lists), p, Ids(items, ItemId))
  {
    if items != [] {
      assert ItemId(items[0]) in Ids(items, ItemId);
      ItemIdsAppend(lists, p, items);
    }
  }

  lemma PutIds(lists: map<PlayerId, seq<CollectibleId>>, p: PlayerId, ids: seq<CollectibleId>)
    ensures IdSets(if |ids| > 0 then lists[p := Listed(lists, p) + ids] else lists)
         == PutMore(IdSets(lists), p, ToSet(ids))
  {
    if ids != [] {
      assert ids[0] in ToSet(ids);
      assert ToSet(Listed(lists, p) + ids) == ToSet(Listed(lists, p)) + ToSet(ids);
      var now := IdSets(lists[p := Listed(lists, p) + ids]);
      var want := PutMore(IdSets(lists), p, ToSet(ids));
      forall q
        ensures q in now <==> q in want
        ensures q in now && q in want ==> now[q] == want[q]
      {
      }
    }
  }

  // The players a query around an item returns are those near it.
  lemma NearbyAreNear(cfg: HubConfig, s: HubState, c: Gems.Collectible, q: PlayerId)
    ensures q in AoiIndex.NineCells(s.aoi, cfg.aoi.CellOf(cfg.aoi.ToLocal(c.lat, c.lng))) <==> NearIndexed(cfg, s, q, c)
  {
  }

  lemma WonByNear(cfg: HubConfig, s: HubState, c: Gems.Collectible, nearby: set<PlayerId>, item: CollectibleId)
    requires nearby == AoiIndex.NineCells(s.aoi, cfg.aoi.CellOf(cfg.aoi.ToLocal(c.lat, c.lng)))
    ensures HideFrom(s.visible, s.clients, nearby, c.id)
         == map q | q in s.visible ::
              if q in s.clients && NearIndexed(cfg, s, q, c) then s.visible[q] - {c.id} else s.visible[q]
    ensures TellThem(s.outbox.collected, s.clients, nearby, {item})
         == map q | q in s.outbox.collected.Keys + s.clients.Keys
                    && (q in s.outbox.collected || NearIndexed(cfg, s, q, c)) ::
              Lookup(s.outbox.collected, q) + if q in s.clients && NearIndexed(cfg, s, q, c) then {item} else {}
  {
    hide NearIndexed, AoiIndex.NineCells;
    forall q
      ensures q in nearby <==> NearIndexed(cfg, s, q, c)
    {
      NearbyAreNear(cfg, s, c, q);
    }
    var hidden := map q | q in s.visible ::
                    if q in s.clients && NearIndexed(cfg, s, q, c) then s.visible[q] - {c.id} else s.visible[q];
    var mine := HideFrom(s.visible, s.clients, nearby, c.id);
    forall q
      ensures q in hidden <==> q in mine
      ensures q in hidden && q in mine ==> hidden[q] == mine[q]
    {
    }
    var told := map q | q in s.outbox.collected.Keys + s.clients.Keys
                        && (q in s.outbox.collected || NearIndexed(cfg, s, q, c)) ::
      Lookup(s.outbox.collected, q) + if q in s.clients && NearIndexed(cfg, s, q, c) then {item} else {};
    var all := TellThem(s.outbox.collected, s.clients, nearby, {item});
    forall q
      ensures q in told <==> q in all
      ensures q in told && q in all ==> told[q] == all[q]
    {
    }
  }

  lemma WonIs(cfg: HubConfig, s: HubState, p: PlayerId, c: Gems.Collectible, nearby: set<PlayerId>,
              item: CollectibleId, now: Time, pick: nat)
    requires cfg.Sound() && item in s.field.items && s.field.items[item] == c
    requires nearby == AoiIndex.NineCells(s.aoi, cfg.aoi.CellOf(cfg.aoi.ToLocal(c.lat, c.lng)))
    ensures var score := Number(s.scores, p) + 1;
      Won(cfg, s, p, item, now, pick)
      == s.(field := Gems.Collected(cfg.gems, s.field, item, now, pick),
            scores := s.scores[p := score],
            awards := s.awards + [Award(p, item, score, now)],
            outbox := s.outbox.(collected := TellThem(s.outbox.collected, s.clients, nearby, {item})),
            visible := HideFrom(s.visible, s.clients, nearby, c.id))
  {
    hide Gems.Collected, NearIndexed, Number, HideFrom, TellThem, AoiIndex.NineCells;
    WonByNear(cfg, s, c, nearby, item);
  }

  method IdsIn(list: seq<Gems.Collectible>) returns (ids: set<CollectibleId>)
    ensures ids == set c | c in list :: c.id
  {
    ids := {};
    for i := 0 to |list|
      invariant ids == set c | c in list[..i] :: c.id
    {
      assert list[..i + 1] == list[..i] + [list[i]];
      ids := ids + {list[i].id};
    }
    assert list[..|list|] == list;
  }

  // What a radius query returns is live.
  lemma ListedAreLive(cfg: HubConfig, f: Gems.Field, at: LatLng, radius: real, list: seq<Gems.Collectible>)
    requires Gems.FieldOk(cfg.gems, f)
    requires ToSet(list) == set id | id in GemLaws.InReach(cfg.gems.cfg, f.items, at, radius) :: f.items[id]
    ensures forall c | c in list :: c.id in f.items && f.items[c.id] == c
  {
    hide Gems.FieldOk, Gems.Within;
    forall c | c in list
      ensures c.id in f.items && f.items[c.id] == c
    {
      assert c in ToSet(list);
      var id :| id in GemLaws.InReach(cfg.gems.cfg, f.items, at, radius) && f.items[id] == c;
      GemLaws.ItemsAreNumbered(cfg.gems, f, id);
    }
  }

  // The ids of what a radius query returns are those within the radius.
  lemma ListedIds(cfg: HubConfig, f: Gems.Field, at: LatLng, radius: real, list: seq<Gems.Collectible>)
    requires Gems.FieldOk(cfg.gems, f)
    requires ToSet(list) == set id | id in GemLaws.InReach(cfg.gems.cfg, f.items, at, radius) :: f.items[id]
    ensures (set c | c in list :: c.id) == InView(cfg, f, at, radius)
  {
    hide Gems.FieldOk, Gems.Within;
    forall id | id in f.items
      ensures f.items[id].id == id
    {
      GemLaws.ItemsAreNumbered(cfg.gems, f, id);
    }
    forall id | id in InView(cfg, f, at, radius)
      ensures id in set c | c in list :: c.id
    {
      assert f.items[id] in ToSet(list);
    }
    forall c | c in list
      ensures c.id in InView(cfg, f, at, radius)
    {
      assert c in ToSet(list);
    }
  }

  lemma AnyOrder(members: set<PlayerId>) returns (order: seq<PlayerId>)
    ensures Lists(order, members)
  {
    order := [];
    var rest := members;
    while rest != {}
      invariant rest <= members && Lists(order, members - rest)
    {
      var p := AoiCount.Member(rest);
      ListsAppend(order, members - rest, p);
      assert members - (rest - {p}) == members - rest + {p};
      rest := rest - {p};
      order := order + [p];
    }
  }

  class Hub {
    const cfg: HubConfig
    const world: W.World
    const aoi: AoiIndex.AOIIndex
    const field: GemField.CollectibleField
    var players: HubPlayers
    var persistence: HubPersistence
    var replication: HubReplication
    var collectibles: HubCollectibles
    ghost var beside: Beside
    // The steps taken so far.
    ghost var history: seq<Event>

    ghost function State(): HubState
      reads this`players, this`persistence, this`replication, this`collectibles, this`beside
      reads world, aoi, field, field.grid
    {
      Assembled(world.State(), aoi.State(), field.State(), players, persistence, replication, collectibles, beside)
    }

    ghost predicate Valid()
      reads aoi, field, field.grid
    {
      && cfg.Sound()
      && aoi.config == cfg.aoi && aoi.Valid()
      && field.setup == cfg.gems && field.Valid()
    }

    // Everything still to be told of an item is what the field has of it.
    ghost predicate Truthful()
      reads this`collectibles, field
    {
      && TrueItems(field.collectibles, collectibles.pendingEntered)
      && TrueItems(field.collectibles, collectibles.pendingSpawned)
    }

    // The hub is where a run of the steps it has taken leads.
    ghost predicate Lived()
      reads this, world, aoi, field, field.grid
    {
      cfg.Sound() && State() == Run(cfg, history)
    }

    constructor (cfg: HubConfig)
      requires cfg.Sound()
      ensures this.cfg == cfg && fresh(world) && fresh(aoi) && fresh(field) && fresh(field.grid)
      ensures Valid() && Lived() && history == []
    {
      var gems := new GemField.CollectibleField(cfg.gems);
      var _ := gems.Populate();
      this.cfg := cfg;
      world := new W.World();
      aoi := new AoiIndex.AOIIndex(cfg.aoi);
      field := gems;
      players := HubPlayers(map[], map[], {});
      persistence := HubPersistence({}, map[], []);
      replication := HubReplication(map[], map[], map[]);
      collectibles := HubCollectibles(map[], map[], map[], map[], map[], map[], [], []);
      beside := Beside(map[], map[]);
      history := [];
      new;
      assert ItemIds(map[]) == map[] && IdSets(map[]) == map[];
    }

    // ----------------------------------------------------------------
    // Leaving
    // ----------------------------------------------------------------

    method SubmitFinalPosition(p: PlayerId)
      modifies this`persistence
      ensures State() == FinalSubmitted(cfg, old(State()), p)
    {
      if !cfg.persisting {
        return;
      }
      SubmitOne(p);
    }

    // A position for the writer, under the player's next number.
    method SubmitOne(p: PlayerId)
      modifies this`persistence
      ensures State() == SubmittedOne(old(State()), p)
    {
      if p !in world.players {
        return;
      }
      var number := LastNumber(persistence.numbers, p) + 1;
      persistence := persistence.(numbers := persistence.numbers[p := number],
                                  submitted := persistence.submitted + [Submission(p, world.players[p].at, number)]);
    }

    method RemoveClient(c: Client)
      requires Valid()
      modifies this`players, this`persistence, this`replication, this`collectibles, this`beside, world, aoi
      ensures Valid()
      ensures State() == Gone(cfg, old(State()), c)
    {
      hide Aoi.Invariant, Gems.FieldOk, SubmittedOne, LeftFor, Aoi.Removed, Aoi.Neighbors, W.WithoutPlayer, ItemIds,
        IdSets;
      if c.id !in players.clients || players.clients[c.id] != c {
        return;
      }
      players := players.(clients := players.clients - {c.id});
      FinalFrame(cfg, State(), c.id);
      SubmitFinalPosition(c.id);
      SyncScore(c.id);
      var changes := aoi.Remove(c.id);
      AnnounceLeft(changes.left, c.id);
      var _ := world.RemovePlayer(c.id);
      replication := replication.(pendingEntered := replication.pendingEntered - {c.id});
      ClearPendingReplicationFor(c.id);
      persistence := persistence.(dirty := persistence.dirty - {c.id}, numbers := persistence.numbers - {c.id});
      beside := Beside(beside.shown - {c.id}, beside.joined - {c.id});
    }

    // The score goes to the writer for good, if there is one.
    method SyncScore(p: PlayerId)
      modifies this`collectibles
      ensures State() == old(State()).(synced := ScoreSynced(cfg, old(State()).synced, old(State()).scores, p))
    {
      hide ItemIds, IdSets;
      if cfg.scoring && p in players.scores {
        collectibles := collectibles.(synced := collectibles.synced + [ScoreWrite(p, players.scores[p])]);
      }
    }

    // p is gone for each of the players that is connected.
    method AnnounceLeft(neighbors: seq<PlayerId>, p: PlayerId)
      requires NoDuplicates(neighbors)
      modifies this`replication
      ensures State() == old(State()).(pendingLeft :=
                LeftFor(old(replication.pendingLeft), players.clients, ToSet(neighbors), p))
    {
      hide LeftFor, ItemIds, IdSets;
      ghost var before := replication;
      LeftForNobody(before.pendingLeft, players.clients, p);
      assert ToSet(neighbors[..0]) == {};
      for i := 0 to |neighbors|
        invariant replication == before.(pendingLeft :=
                    LeftFor(before.pendingLeft, players.clients, ToSet(neighbors[..i]), p))
      {
        assert neighbors[..i + 1] == neighbors[..i] + [neighbors[i]];
        assert neighbors[i] !in neighbors[..i];
        LeftForOneMore(before.pendingLeft, players.clients, ToSet(neighbors[..i]), p, neighbors[i]);
        assert ToSet(neighbors[..i + 1]) == ToSet(neighbors[..i]) + {neighbors[i]};
        if neighbors[i] in players.clients {
          replication := replication.(pendingLeft :=
            replication.pendingLeft[neighbors[i] := Listed(replication.pendingLeft, neighbors[i]) + [p]]);
        }
      }
      assert neighbors[..|neighbors|] == neighbors;
    }

    method ClearPendingReplicationFor(p: PlayerId)
      modifies this`replication, this`collectibles
      ensures State() == Cleared(old(State()), p)
    {
      hide ItemIds, IdSets;
      ItemIdsWithout(collectibles.pendingEntered, p);
      ItemIdsWithout(collectibles.pendingSpawned, p);
      IdSetsWithout(collectibles.pendingLeftIDs, p);
      IdSetsWithout(collectibles.pendingCollected, p);
      replication := replication.(pendingAppearances := replication.pendingAppearances - {p},
                                  pendingLeft := replication.pendingLeft - {p});
      collectibles := collectibles.(pendingEntered := collectibles.pendingEntered - {p},
                                    pendingLeftIDs := collectibles.pendingLeftIDs - {p},
                                    pendingSpawned := collectibles.pendingSpawned - {p},
                                    pendingCollected := collectibles.pendingCollected - {p},
                                    visibleIDs := collectibles.visibleIDs - {p});
    }

    // ----------------------------------------------------------------
    // Joining
    // ----------------------------------------------------------------

    method RegisterClient(c: Client, saved: Option<Saved>, sent: bool)
      requires Valid()
      modifies this`players, this`persistence, this`replication, this`collectibles, this`beside, world, aoi
      ensures Valid()
      ensures State() == Registered(cfg, old(State()), c, saved, sent)
    {
      hide Aoi.Invariant, Gems.FieldOk, ItemIds, IdSets, Joined, Initialised, W.WithInputReset;
      if c.id in players.clients && players.clients[c.id] != c {
        world.ResetInput(c.id);
        Attach(c);
        var _ := SendInitialization(c, sent);
        return;
      }
      if c.id !in world.players {
        Join(c, saved);
      }
      Attach(c);
      var _ := SendInitialization(c, sent);
    }

    method Attach(c: Client)
      modifies this`players, this`replication, this`collectibles
      ensures State() == Attached(old(State()), c)
    {
      hide ItemIds, IdSets, Cleared;
      players := players.(clients := players.clients[c.id := c]);
      ClearPendingReplicationFor(c.id);
    }

    method Join(c: Client, saved: Option<Saved>)
      requires Valid() && c.id !in world.players
      modifies this`players, this`replication, this`beside, world, aoi
      ensures Valid()
      ensures State() == Joined(cfg, old(State()), c, saved)
    {
      hide Aoi.Invariant, Gems.FieldOk, ItemIds, IdSets, Entering, ForgetLeft;
      EnteringFrame(cfg, old(State()), c, saved);
      Enter(c, saved);
      if players.clients != map[] {
        var state := W.PlayerStateOf(c.id, world.players[c.id]);
        replication := replication.(pendingEntered := replication.pendingEntered[c.id := state]);
        ClearPendingLeftForPlayer(c.id);
      }
    }

    method Enter(c: Client, saved: Option<Saved>)
      requires Valid() && c.id !in world.players
      modifies this`players, this`beside, world, aoi
      ensures Valid() && c.id in world.players
      ensures State() == Entering(cfg, old(State()), c, saved)
    {
      hide Aoi.Invariant, Gems.FieldOk, ItemIds, IdSets, Aoi.Inserted;
      var at := cfg.spawn;
      if saved.Some? && saved.value.hasPosition {
        at := saved.value.at;
      }
      AddPlayer(c, saved, at);
      ghost var start :=
        HubModel.Join(at, |persistence.submitted|, Number(players.scores, c.id), |collectibles.awards|);
      beside := beside.(joined := beside.joined[c.id := start]);
      var _ := aoi.Insert(c.id, at.lat, at.lng);
    }

    method AddPlayer(c: Client, saved: Option<Saved>, at: LatLng)
      requires c.id !in world.players
      modifies this`players, world
      ensures c.id in world.players
      ensures State() == old(State()).(
                world := W.WithPlayer(old(State()).world, c.id, at, StartName(c, saved), StartLook(cfg, saved)),
                scores := StartScores(cfg, old(State()).scores, c.id, saved),
                synthetic := StartSynthetic(old(State()).synthetic, c.id, saved))
    {
      hide ItemIds, IdSets;
      if saved.Some? {
        var username := saved.value.username;
        if username == "" {
          username := c.username;
        }
        var _ := world.AddPlayerWithState(c.id, username, at, saved.value.appearance);
        var scores, synthetic := players.scores, players.syntheticIDs;
        if cfg.collecting {
          scores := scores[c.id := saved.value.score];
        }
        if saved.value.synthetic {
          synthetic := synthetic + {c.id};
        }
        players := players.(scores := scores, syntheticIDs := synthetic);
        return;
      }
      var _ := world.AddPlayerWithState(c.id, c.username, at, cfg.appearance);
    }

    method ClearPendingLeftForPlayer(p: PlayerId)
      modifies this`replication
      ensures State() == old(State()).(pendingLeft := ForgetLeft(old(replication.pendingLeft), p))
    {
      hide ItemIds, IdSets;
      ghost var before := replication;
      var rest := replication.pendingLeft.Keys;
      while rest != {}
        invariant rest <= before.pendingLeft.Keys
        invariant replication == before.(pendingLeft := replication.pendingLeft)
        invariant ForgottenBut(before.pendingLeft, p, rest, replication.pendingLeft)
      {
        var q := AnyOf(rest);
        var filtered := WithoutId(replication.pendingLeft[q], p);
        rest := rest - {q};
        if filtered == [] {
          replication := replication.(pendingLeft := replication.pendingLeft - {q});
        } else {
          replication := replication.(pendingLeft := replication.pendingLeft[q := filtered]);
        }
      }
      AllForgotten(before.pendingLeft, p, replication.pendingLeft);
    }

    // The opening messages: the collectibles in view are part of them.
    // sent says whether all four messages reach the client.
    method SendInitialization(c: Client, sent: bool) returns (snapshot: Option<Snapshot>)
      requires Valid() && c.id !in collectibles.visibleIDs
      modifies this`players, this`persistence, this`replication, this`collectibles, this`beside, world, aoi
      ensures Valid()
      ensures State() == Initialised(cfg, old(State()), c, sent)
      ensures snapshot.Some? <==> c.id in old(State()).world.players && sent
      ensures snapshot.Some? ==>
        && SnapshotIs(cfg, old(State()), c.id, snapshot.value)
        && (set item | item in snapshot.value.collectibles :: item.id) == Lookup(beside.shown, c.id)
    {
      hide Aoi.Invariant, Gems.FieldOk, ItemIds, IdSets, Gone, InView, SnapshotIs;
      if c.id !in world.players {
        RemoveClient(c);
        return None;
      }
      var messages, seen := InitialMessages(c.id);
      if !sent {
        RemoveClient(c);
        return None;
      }
      if seen != {} {
        collectibles := collectibles.(visibleIDs := collectibles.visibleIDs[c.id := seen]);
      } else {
        assert collectibles.visibleIDs - {c.id} == collectibles.visibleIDs;
      }
      beside := beside.(shown := beside.shown[c.id := seen]);
      return Some(messages);
    }

    method InitialMessages(p: PlayerId) returns (messages: Snapshot, seen: set<CollectibleId>)
      requires Valid() && p in world.players
      ensures SnapshotIs(cfg, State(), p, messages)
      ensures seen == if cfg.collecting then InView(cfg, field.State(), world.players[p].at, VIEW) else {}
      ensures seen == set item | item in messages.collectibles :: item.id
    {
      hide Aoi.Invariant, Gems.FieldOk, ItemIds, IdSets, W.StatesOf, Aoi.Neighbors;
      var self := W.PlayerStateOf(p, world.players[p]);
      var visibleIDs := aoi.VisibleNeighbors(p);
      var visible := world.PlayerStates(visibleIDs);
      if !cfg.collecting {
        return Snapshot(self, Number(players.scores, p), visible, [], []), {};
      }
      var at := world.players[p].at;
      var list := field.CollectiblesWithinRadius(at.lat, at.lng, VIEW);
      seen := IdsIn(list);
      ListedIds(cfg, field.State(), at, VIEW, list);
      messages := Snapshot(self, Number(players.scores, p), visible, cfg.gems.regions, list);
    }

    method IdsInView(at: LatLng, radius: real) returns (ids: set<CollectibleId>)
      requires Valid() && 0.0 <= radius <= OUT_OF_VIEW
      ensures ids == InView(cfg, field.State(), at, radius)
    {
      hide Aoi.Invariant, Gems.FieldOk;
      var list := field.CollectiblesWithinRadius(at.lat, at.lng, radius);
      ids := IdsIn(list);
      ListedIds(cfg, field.State(), at, radius, list);
    }

    // ----------------------------------------------------------------
    // Ticks
    // ----------------------------------------------------------------

    method ApplyInput(c: Client, input: W.InputState)
      modifies world
      ensures State() == GivenInput(old(State()), c, input)
    {
      hide ItemIds, IdSets, W.WithInput;
      if c.id in players.clients && players.clients[c.id] == c {
        var _ := world.ApplyInput(c.id, input);
      }
    }

    method ApplyAppearanceUpdate(p: PlayerId, appearance: Appearance)
      modifies this`replication, world
      ensures State() == Dressed(old(State()), p, appearance)
    {
      hide ItemIds, IdSets;
      if p !in world.players {
        return;
      }
      var changed, ok := world.UpdatePlayerAppearance(p, appearance);
      if !ok || !changed {
        return;
      }
      replication := replication.(pendingAppearances := replication.pendingAppearances[p := appearance]);
    }

    method Simulate(places: PlayerId -> LatLng)
      modifies this`persistence, world
      ensures State() == Simulated(old(State()), places)
    {
      hide ItemIds, IdSets, W.Stepped, W.Movers;
      ghost var before := persistence;
      ghost var movers := W.Movers(world.State());
      var moved := world.Step(places);
      for i := 0 to |moved|
        invariant world.State() == W.Stepped(old(world.State()), places)
        invariant persistence == before.(dirty := before.dirty + ToSet(moved[..i]))
      {
        assert moved[..i + 1] == moved[..i] + [moved[i]];
        assert ToSet(moved[..i + 1]) == ToSet(moved[..i]) + {moved[i]};
        persistence := persistence.(dirty := persistence.dirty + {moved[i]});
      }
      assert moved[..|moved|] == moved;
      assert ToSet(moved) == movers;
    }

    method PersistDirtyPositions() returns (ghost order: seq<PlayerId>)
      modifies this`persistence
      ensures Lists(order, old(persistence.dirty))
      ensures State() == Persisted(cfg, old(State()), order)
    {
      hide ItemIds, IdSets, SubmittedOne;
      ghost var before := State();
      order := [];
      var rest := persistence.dirty;
      if !cfg.persisting || persistence.dirty == {} {
        order := AnyOrder(persistence.dirty);
        return;
      }
      while rest != {}
        invariant rest <= before.dirty && Lists(order, before.dirty - rest)
        invariant State() == SubmittedAll(before, order)
      {
        var p := AnyOf(rest);
        ListsAppend(order, before.dirty - rest, p);
        assert before.dirty - (rest - {p}) == before.dirty - rest + {p};
        rest := rest - {p};
        assert (order + [p])[..|order|] == order;
        order := order + [p];
        SubmitOne(p);
      }
      assert before.dirty - rest == before.dirty;
      persistence := persistence.(dirty := {});
    }

    // ----------------------------------------------------------------
    // Collecting
    // ----------------------------------------------------------------

    method ProcessCollect(c: Client, item: CollectibleId, now: Time, pick: nat)
      returns (result: Option<CollectResult>)
      requires Valid()
      modifies this`players, this`collectibles, field, field.grid
      ensures Valid()
      ensures State() == AfterCollect(cfg, old(State()), c, item, now, pick)
      ensures result == if Considered(old(State()), c, now) && Collectable(cfg, old(State()), c.id, item)
                        then Some(CollectResult(item, Number(players.scores, c.id))) else None
    {
      hide Aoi.Invariant, Gems.FieldOk, ItemIds, IdSets, Won, DistanceSquared, Square;
      if c.id !in players.clients || players.clients[c.id] != c {
        return None;
      }
      if c.id in players.syntheticIDs {
        return None;
      }
      if c.id in collectibles.cooldowns && now - collectibles.cooldowns[c.id] < COOLDOWN {
        return None;
      }
      collectibles := collectibles.(cooldowns := collectibles.cooldowns[c.id := now]);
      if !cfg.collecting {
        return None;
      }
      var found := field.Lookup(item);
      if found == None {
        return None;
      }
      if c.id !in collectibles.visibleIDs || found.value.id !in collectibles.visibleIDs[c.id] {
        return None;
      }
      if c.id !in world.players {
        return None;
      }
      var at := world.players[c.id].at;
      var from, to := cfg.aoi.ToLocal(at.lat, at.lng), cfg.aoi.ToLocal(found.value.lat, found.value.lng);
      if DistanceSquared(from, to) > Square(REACH) {
        return None;
      }
      result := Win(c.id, found.value, item, now, pick);
    }

    // The item goes, the player's score goes up, and everybody around it is to
    // be told.
    method Win(p: PlayerId, c: Gems.Collectible, item: CollectibleId, now: Time, pick: nat)
      returns (result: Option<CollectResult>)
      requires Valid() && item in field.collectibles && field.collectibles[item] == c
      modifies this`players, this`collectibles, field, field.grid
      ensures Valid()
      ensures State() == Won(cfg, old(State()), p, item, now, pick)
      ensures result == Some(CollectResult(item, Number(players.scores, p)))
    {
      hide Aoi.Invariant, Gems.FieldOk, ItemIds, IdSets, Gems.Collected, HideFrom, TellThem, Won;
      ghost var before := State();
      var removed := field.Remove(item, now, pick);
      var score := Number(players.scores, p) + 1;
      players := players.(scores := players.scores[p := score]);
      collectibles := collectibles.(awards := collectibles.awards + [Award(p, item, score, now)]);
      result := Some(CollectResult(item, score));
      var nearby := aoi.QueryPlayerIDsNearPoint(c.lat, c.lng);
      TellCollected(nearby, c.id, item);
      WonIs(cfg, before, p, c, ToSet(nearby), item, now, pick);
    }

    method TellCollected(nearby: seq<PlayerId>, id: CollectibleId, item: CollectibleId)
      modifies this`collectibles
      ensures State() == old(State()).(
                visible := HideFrom(old(collectibles.visibleIDs), players.clients, ToSet(nearby), id),
                outbox := old(State()).outbox.(collected :=
                  TellThem(IdSets(old(collectibles.pendingCollected)), players.clients, ToSet(nearby), {item})))
    {
      hide ItemIds, IdSets, HideFrom, TellThem;
      ghost var before := collectibles;
      ToldNobody(before.visibleIDs, IdSets(before.pendingCollected), players.clients, id, item);
      assert ToSet(nearby[..0]) == {};
      for i := 0 to |nearby|
        invariant collectibles
               == before.(visibleIDs := collectibles.visibleIDs, pendingCollected := collectibles.pendingCollected)
        invariant collectibles.visibleIDs == HideFrom(before.visibleIDs, players.clients, ToSet(nearby[..i]), id)
        invariant IdSets(collectibles.pendingCollected)
               == TellThem(IdSets(before.pendingCollected), players.clients, ToSet(nearby[..i]), {item})
      {
        var q := nearby[i];
        assert nearby[..i + 1] == nearby[..i] + [q];
        assert ToSet(nearby[..i + 1]) == ToSet(nearby[..i]) + {q};
        HideFromOneMore(before.visibleIDs, players.clients, ToSet(nearby[..i]), id, q);
        TellOneMore(IdSets(before.pendingCollected), players.clients, ToSet(nearby[..i]), {item}, q);
        if q !in players.clients {
          continue;
        }
        IdSetsAppend(collectibles.pendingCollected, q, item);
        var visible := collectibles.visibleIDs;
        if q in visible {
          visible := visible[q := visible[q] - {id}];
        }
        collectibles := collectibles.(visibleIDs := visible,
          pendingCollected := collectibles.pendingCollected[q := Listed(collectibles.pendingCollected, q) + [item]]);
      }
      assert nearby[..|nearby|] == nearby;
    }

    // ----------------------------------------------------------------
    // Broadcasting
    // ----------------------------------------------------------------

    // The moves reach the index; what each changed there is returned.
    method ApplyMovementAOIDeltas(movedIDs: seq<PlayerId>) returns (deltas: seq<AoiIndex.MovementDelta>)
      requires Valid()
      modifies this`replication, aoi
      ensures Valid()
      ensures State() == MovedAll(cfg, old(State()), movedIDs)
      ensures DeltasAre(cfg, old(State()), movedIDs, deltas)
    {
      hide Aoi.Invariant, Gems.FieldOk, ItemIds, IdSets, MovedOne, DeltaIs;
      ghost var before := State();
      deltas := [];
      for i := 0 to |movedIDs|
        invariant Valid() && State() == MovedAll(cfg, before, movedIDs[..i])
        invariant DeltasAre(cfg, before, movedIDs[..i], deltas)
      {
        assert movedIDs[..i + 1][..i] == movedIDs[..i];
        var p := movedIDs[i];
        if p !in world.players {
          UnknownStays(cfg, State(), p);
          continue;
        }
        var delta := MoveOne(p);
        deltas := deltas + [delta];
      }
      assert movedIDs[..|movedIDs|] == movedIDs;
    }

    method MoveOne(p: PlayerId) returns (delta: AoiIndex.MovementDelta)
      requires Valid() && p in world.players
      modifies this`replication, aoi
      ensures Valid()
      ensures State() == MovedOne(cfg, old(State()), p)
      ensures DeltaIs(old(State()).aoi, State().aoi, p, delta)
    {
      hide Aoi.Invariant, Gems.FieldOk, ItemIds, IdSets, LeftFor, Aoi.Moved, Aoi.Entered, Aoi.Left, Aoi.Stable;
      var at := world.players[p].at;
      ghost var before := State();
      delta := aoi.MoveDetailed(p, at.lat, at.lng);
      NoteEntered(delta.entered, p);
      AnnounceLeft(delta.left, p);
    }

    // p is to be announced if any of the players that came to see it is
    // connected.
    method NoteEntered(entered: seq<PlayerId>, p: PlayerId)
      requires p in world.players
      modifies this`replication
      ensures State() == old(State()).(pendingEntered :=
                if ToSet(entered) !! players.clients.Keys then old(State()).pendingEntered
                else old(State()).pendingEntered + {p})
    {
      hide ItemIds, IdSets;
      ghost var before := replication;
      var state := W.PlayerStateOf(p, world.players[p]);
      for i := 0 to |entered|
        invariant replication == before.(pendingEntered := replication.pendingEntered)
        invariant replication.pendingEntered.Keys ==
          if ToSet(entered[..i]) !! players.clients.Keys then before.pendingEntered.Keys
          else before.pendingEntered.Keys + {p}
      {
        assert entered[..i + 1] == entered[..i] + [entered[i]];
        assert ToSet(entered[..i + 1]) == ToSet(entered[..i]) + {entered[i]};
        if entered[i] !in players.clients {
          continue;
        }
        if p !in replication.pendingEntered {
          replication := replication.(pendingEntered := replication.pendingEntered[p := state]);
        }
      }
      assert entered[..|entered|] == entered;
    }

    // Due respawns appear, and the players around each are to be told.
    method AdvanceCollectibleReplacements(now: Time)
      requires Valid()
      modifies this`collectibles, field, field.grid
      ensures Valid()
      ensures State() == SpawnsSeen(cfg, old(State()), Gems.Advanced(cfg.gems, old(field.State()), now))
      ensures old(Truthful()) ==> Truthful()
    {
      hide Aoi.Invariant, Gems.FieldOk, ItemIds, IdSets, Gems.Advanced, SpawnsSeenUpTo, SpawnsSeen, GemField.AreNew,
        TrueItems;
      ghost var before := State();
      if Truthful() {
        TrueItemsStay(cfg, before.field, now, collectibles.pendingEntered);
        TrueItemsStay(cfg, before.field, now, collectibles.pendingSpawned);
      }
      var spawned := field.AdvanceReplacements(now);
      AdvanceGives(cfg, before.field, now, spawned);
      NoneSeen(cfg, before, field.State());
      TellAllSpawned(spawned, before);
      AllSeen(cfg, before, field.State(), spawned);
    }

    method TellAllSpawned(spawned: seq<Gems.Collectible>, ghost before: HubState)
      requires Valid() && GemField.AreNew(before.field, field.State(), spawned)
      requires State() == SpawnsSeenUpTo(cfg, before, field.State(), before.field.nextID)
      modifies this`collectibles
      ensures State() == SpawnsSeenUpTo(cfg, before, field.State(), before.field.nextID + |spawned|)
      ensures old(Truthful()) ==> Truthful()
    {
      hide Aoi.Invariant, Gems.FieldOk, ItemIds, IdSets, SpawnsSeenUpTo, GemField.AreNew, TrueItems;
      for i := 0 to |spawned|
        invariant State() == SpawnsSeenUpTo(cfg, before, field.State(), before.field.nextID + i)
        invariant old(Truthful()) ==> Truthful()
      {
        NewIs(before.field, field.State(), spawned, i);
        TellSpawned(spawned[i], before, field.State());
      }
    }

    method TellSpawned(c: Gems.Collectible, ghost before: HubState, ghost f: Gems.Field)
      requires Valid() && c.id in f.items && f.items[c.id] == c && before.field.nextID <= c.id
      requires State() == SpawnsSeenUpTo(cfg, before, f, c.id)
      modifies this`collectibles
      ensures State() == SpawnsSeenUpTo(cfg, before, f, c.id + 1)
      ensures old(Truthful()) ==> Truthful()
    {
      hide Aoi.Invariant, Gems.FieldOk, ItemIds, IdSets, SpawnsSeenUpTo, AoiIndex.NineCells, ShowTo, TellThem,
        TrueItems;
      UpToFrame(cfg, before, f, c.id);
      var nearby := aoi.QueryPlayerIDsNearPoint(c.lat, c.lng);
      TellItem(nearby, Item(c.id, c.regionId, c.lat, c.lng));
      SeenOneMore(cfg, before, f, c, ToSet(nearby));
    }

    method TellItem(nearby: seq<PlayerId>, item: Item)
      modifies this`collectibles
      ensures State() == old(State()).(
                visible := ShowTo(old(collectibles.visibleIDs), players.clients, ToSet(nearby), item.id),
                outbox := old(State()).outbox.(spawned :=
                  TellThem(ItemIds(old(collectibles.pendingSpawned)), players.clients, ToSet(nearby), {item.id})))
      ensures old(Truthful()) && TrueItem(field.collectibles, item) ==> Truthful()
    {
      hide ItemIds, IdSets, ShowTo, TellThem, TrueItems;
      ghost var before := collectibles;
      ShownNobody(before.visibleIDs, ItemIds(before.pendingSpawned), players.clients, item.id);
      assert ToSet(nearby[..0]) == {};
      for i := 0 to |nearby|
        invariant collectibles
               == before.(visibleIDs := collectibles.visibleIDs, pendingSpawned := collectibles.pendingSpawned)
        invariant collectibles.visibleIDs == ShowTo(before.visibleIDs, players.clients, ToSet(nearby[..i]), item.id)
        invariant old(Truthful()) && TrueItem(field.collectibles, item) ==> Truthful()
        invariant ItemIds(collectibles.pendingSpawned)
               == TellThem(ItemIds(before.pendingSpawned), players.clients, ToSet(nearby[..i]), {item.id})
      {
        var q := nearby[i];
        assert nearby[..i + 1] == nearby[..i] + [q];
        assert ToSet(nearby[..i + 1]) == ToSet(nearby[..i]) + {q};
        ShowToOneMore(before.visibleIDs, players.clients, ToSet(nearby[..i]), item.id, q);
        TellOneMore(ItemIds(before.pendingSpawned), players.clients, ToSet(nearby[..i]), {item.id}, q);
        if q !in players.clients {
          continue;
        }
        if Truthful() && TrueItem(field.collectibles, item) {
          TrueItemsMore(field.collectibles, collectibles.pendingSpawned, q, [item]);
        }
        ItemIdsAppend(collectibles.pendingSpawned, q, [item]);
        SingleId(item, ItemId);
        var visible := collectibles.visibleIDs;
        if q in visible {
          visible := visible[q := visible[q] + {item.id}];
        }
        collectibles := collectibles.(visibleIDs := visible,
          pendingSpawned := collectibles.pendingSpawned[q := Listed(collectibles.pendingSpawned, q) + [item]]);
      }
      assert nearby[..|nearby|] == nearby;
    }

    // Moved players look around again.
    method RecalcCollectibleVisibility(movedIDs: seq<PlayerId>)
      requires Valid()
      modifies this`collectibles
      ensures State() == ViewsRecalculated(cfg, old(State()), movedIDs)
      ensures old(Truthful()) ==> Truthful()
    {
      hide Aoi.Invariant, Gems.FieldOk, ItemIds, IdSets, ViewRecalculated, TrueItems;
      ghost var before := State();
      for i := 0 to |movedIDs|
        invariant State() == ViewsRecalculated(cfg, before, movedIDs[..i])
        invariant old(Truthful()) ==> Truthful()
      {
        assert movedIDs[..i + 1][..i] == movedIDs[..i];
        RecalcOne(movedIDs[i]);
      }
      assert movedIDs[..|movedIDs|] == movedIDs;
    }

    method RecalcOne(p: PlayerId)
      requires Valid()
      modifies this`collectibles
      ensures State() == ViewRecalculated(cfg, old(State()), p)
      ensures old(Truthful()) ==> Truthful()
    {
      hide Aoi.Invariant, Gems.FieldOk, ItemIds, IdSets, InView, PutMore, TrueItems;
      if p !in players.clients || p !in world.players {
        return;
      }
      var at := world.players[p].at;
      var within500 := field.CollectiblesWithinRadius(at.lat, at.lng, VIEW);
      ListedIds(cfg, field.State(), at, VIEW, within500);
      var within600 := IdsInView(at, OUT_OF_VIEW);
      var prevVisible := Lookup(collectibles.visibleIDs, p);
      var entered, newVisible := Entering500(within500, prevVisible);
      var leftIDs := Leaving600(prevVisible, within600);
      ListedAreLive(cfg, field.State(), at, VIEW, within500);
      if Truthful() {
        TrueItemsMore(field.collectibles, collectibles.pendingEntered, p, entered);
      }
      PutItems(collectibles.pendingEntered, p, entered);
      PutIds(collectibles.pendingLeftIDs, p, leftIDs);
      var pendingEntered, pendingLeftIDs := collectibles.pendingEntered, collectibles.pendingLeftIDs;
      if |entered| > 0 {
        pendingEntered := pendingEntered[p := Listed(pendingEntered, p) + entered];
      }
      if |leftIDs| > 0 {
        pendingLeftIDs := pendingLeftIDs[p := Listed(pendingLeftIDs, p) + leftIDs];
      }
      collectibles := collectibles.(visibleIDs := collectibles.visibleIDs[p := newVisible],
                                    pendingEntered := pendingEntered, pendingLeftIDs := pendingLeftIDs);
    }

    // Everything moved, joined, left, changed or collected since the last
    // broadcast is told to whom it concerns.
    method BroadcastReplication(now: Time)
      returns (jobs: seq<Builder.ReplicationJob>, ghost order: seq<PlayerId>, ghost input: Builder.BuildInput,
               ghost view: Builder.View)
      requires Valid()
      modifies this`replication, this`collectibles, this`beside, world, aoi, field, field.grid
      ensures Valid()
      ensures Ascending(order) && ToSet(order) == old(State()).world.moved
      ensures State() == Broadcasted(cfg, old(State()), order, now)
      ensures TellsOf(cfg, old(State()), Gathered(cfg, old(State()), order, now), order, input, view)
      ensures Builder.JobsGather(view, input, jobs)
      ensures old(Truthful()) ==>
        TrueItems(field.collectibles, input.collectEntered) && TrueItems(field.collectibles, input.collectSpawned)
    {
      hide Aoi.Invariant, Gems.FieldOk, ItemIds, IdSets, Gathered, Delivered, TellsOf, Builder.JobsGather, DeltasAre,
        TrueItems;
      ghost var before := State();
      var movedIDs, deltas := Gather(now);
      order := movedIDs;
      GatheredWorld(cfg, before, movedIDs, now);
      DeliveredKeeps(State());
      DeltasStable(cfg, before.(world := before.world.(moved := {}, removed := {})), movedIDs, deltas);
      var theInput := Take(deltas);
      input := theInput;
      var reader := new Builder.HubReader(players.clients, aoi, world);
      view := reader.Shows();
      TellsGathered(cfg, before, Gathered(cfg, before, order, now), order, input, view);
      if |movedIDs| == 0 && |theInput.pendingEntered| == 0 && |theInput.pendingLeft| == 0
         && |theInput.pendingAppearances| == 0
        && |theInput.collectEntered| == 0 && |theInput.collectLeft| == 0 && |theInput.collectSpawned| == 0
        && |theInput.collectCollected| == 0 {
        NothingToTell(cfg, before.(world := before.world.(moved := {}, removed := {})), movedIDs, view, input);
        jobs := [];
        return;
      }
      jobs := Build(theInput, reader);
    }

    method Build(input: Builder.BuildInput, reader: Builder.HubReader) returns (jobs: seq<Builder.ReplicationJob>)
      requires reader.Valid()
      requires forall d | d in input.movementDeltas :: NoDuplicates(d.stable)
      ensures Builder.JobsGather(reader.Shows(), input, jobs)
    {
      jobs := Builder.Build(input, reader);
    }

    method Gather(now: Time) returns (movedIDs: seq<PlayerId>, deltas: seq<AoiIndex.MovementDelta>)
      requires Valid()
      modifies this`replication, this`collectibles, world, aoi, field, field.grid
      ensures Valid()
      ensures Ascending(movedIDs) && ToSet(movedIDs) == old(State()).world.moved
      ensures State() == Gathered(cfg, old(State()), movedIDs, now)
      ensures DeltasAre(cfg, old(State()).(world := old(State()).world.(moved := {}, removed := {})), movedIDs, deltas)
      ensures old(Truthful()) ==> Truthful()
    {
      hide Aoi.Invariant, Gems.FieldOk, ItemIds, IdSets, MovedAll, SpawnsSeen, ViewsRecalculated, Gems.Advanced,
        DeltasAre, TrueItems;
      ghost var before := State();
      movedIDs := world.TakeMovedPlayerIDs();
      var _ := world.TakeRemovedPlayerIDs();
      FieldWhileMoving(cfg, State(), movedIDs);
      deltas := ApplyMovementAOIDeltas(movedIDs);
      if cfg.collecting {
        AdvanceCollectibleReplacements(now);
        RecalcCollectibleVisibility(movedIDs);
      }
    }

    // The lists are handed over and begun anew.
    method Take(deltas: seq<AoiIndex.MovementDelta>) returns (input: Builder.BuildInput)
      modifies this`replication, this`collectibles, this`beside
      ensures State() == Delivered(old(State()))
      ensures input.tick == old(State()).world.tick && input.movementDeltas == deltas
      ensures StatesAre(old(State()), input.pendingEntered)
      ensures input.pendingLeft == old(State()).pendingLeft
      ensures OutboxIs(old(State()).outbox, input)
      ensures input.collectEntered == old(collectibles).pendingEntered
      ensures input.collectSpawned == old(collectibles).pendingSpawned
    {
      hide ItemIds, IdSets, StatesAre, ShownAfter;
      ghost var before := State();
      var states := EnteredStates();
      input := Builder.BuildInput(world.tick, deltas, states, replication.pendingLeft, replication.pendingAppearances,
        collectibles.pendingEntered, collectibles.pendingLeftIDs,
        collectibles.pendingSpawned, collectibles.pendingCollected);
      replication := HubReplication(map[], map[], map[]);
      collectibles := collectibles.(pendingEntered := map[], pendingLeftIDs := map[], pendingSpawned := map[],
                                    pendingCollected := map[]);
      beside := beside.(shown := Delivered(before).shown);
      NoLists();
    }

    // The present states of the players to be announced.
    method EnteredStates() returns (states: seq<PlayerState>)
      ensures StatesAre(State(), states)
    {
      hide ItemIds, IdSets;
      states := [];
      var rest := replication.pendingEntered.Keys;
      while rest != {}
        invariant rest <= replication.pendingEntered.Keys
        invariant forall x | x in states :: x.id in world.players && x == W.PlayerStateOf(x.id, world.players[x.id])
        invariant forall i, j | 0 <= i < j < |states| :: states[i].id != states[j].id
        invariant (set x | x in states :: x.id) == (replication.pendingEntered.Keys - rest) * world.players.Keys
      {
        var p := AnyOf(rest);
        rest := rest - {p};
        if p !in world.players {
          continue;
        }
        ghost var was := states;
        states := states + [W.PlayerStateOf(p, world.players[p])];
        assert (set x | x in states :: x.id) == (set x | x in was :: x.id) + {p};
        assert forall i | 0 <= i < |was| :: was[i] in was;
      }
    }

    // ----------------------------------------------------------------
    // The loop: one step for each thing received
    // ----------------------------------------------------------------

    ghost method Record(e: Event, before: HubState)
      requires Valid() && before == Run(cfg, history) && State() == Step(cfg, before, e)
      modifies this`history
      ensures Valid() && Lived() && history == old(history) + [e]
    {
      hide Step, Run;
      RunExtends(cfg, history, e);
      history := history + [e];
    }

    method OnRegister(c: Client, saved: Option<Saved>, sent: bool)
      requires Valid() && Lived()
      modifies this, world, aoi
      ensures Valid() && Lived() && history == old(history) + [Register(c, saved, sent)]
    {
      hide Aoi.Invariant, Gems.FieldOk, Run, Registered;
      ghost var before := State();
      RegisterClient(c, saved, sent);
      Record(Register(c, saved, sent), before);
    }

    method OnUnregister(c: Client)
      requires Valid() && Lived()
      modifies this, world, aoi
      ensures Valid() && Lived() && history == old(history) + [Unregister(c)]
    {
      hide Aoi.Invariant, Gems.FieldOk, Run, Gone;
      ghost var before := State();
      RemoveClient(c);
      Record(Unregister(c), before);
    }

    method OnDisconnectUser(p: PlayerId)
      requires Valid() && Lived()
      modifies this, world, aoi
      ensures Valid() && Lived() && history == old(history) + [DisconnectUser(p)]
    {
      hide Aoi.Invariant, Gems.FieldOk, Run, Gone;
      ghost var before := State();
      if p in players.clients {
        RemoveClient(players.clients[p]);
      }
      Record(DisconnectUser(p), before);
    }

    method OnInput(c: Client, input: W.InputState)
      requires Valid() && Lived()
      modifies this, world
      ensures Valid() && Lived() && history == old(history) + [Input(c, input)]
    {
      hide Aoi.Invariant, Gems.FieldOk, Run, GivenInput;
      ghost var before := State();
      ApplyInput(c, input);
      Record(Input(c, input), before);
    }

    method OnAppearance(p: PlayerId, appearance: Appearance)
      requires Valid() && Lived()
      modifies this, world
      ensures Valid() && Lived() && history == old(history) + [UpdateAppearance(p, appearance)]
    {
      hide Aoi.Invariant, Gems.FieldOk, Run, Dressed;
      ghost var before := State();
      ApplyAppearanceUpdate(p, appearance);
      Record(UpdateAppearance(p, appearance), before);
    }

    method OnSimulationTick(places: PlayerId -> LatLng)
      requires Valid() && Lived()
      modifies this, world
      ensures Valid() && Lived() && history == old(history) + [HubModel.Simulate(places)]
    {
      hide Aoi.Invariant, Gems.FieldOk, Run, Simulated;
      ghost var before := State();
      Simulate(places);
      Record(HubModel.Simulate(places), before);
    }

    method OnBroadcastTick(now: Time) returns (jobs: seq<Builder.ReplicationJob>, ghost order: seq<PlayerId>)
      requires Valid() && Lived()
      modifies this, world, aoi, field, field.grid
      ensures Valid() && Lived() && history == old(history) + [Broadcast(order, now)]
      ensures Possible(old(State()), Broadcast(order, now))
      ensures forall job | job in jobs :: TrueJob(State(), job)
    {
      hide Aoi.Invariant, Gems.FieldOk, Run, Broadcasted, TellsOf, Builder.JobsGather, TrueJob, TrueItems, LooksOk,
        ItemIds;
      ghost var before := State();
      ghost var input, view;
      RunOutbox(cfg, history);
      NothingToBeTold(field.collectibles, collectibles.pendingEntered);
      NothingToBeTold(field.collectibles, collectibles.pendingSpawned);
      jobs, order, input, view := BroadcastReplication(now);
      BroadcastIsTrue(cfg, before, order, now, input, view, jobs);
      Record(Broadcast(order, now), before);
    }

    method OnPersistenceTick() returns (ghost order: seq<PlayerId>)
      requires Valid() && Lived()
      modifies this
      ensures Valid() && Lived() && history == old(history) + [Persist(order)]
      ensures Possible(old(State()), Persist(order))
    {
      hide Aoi.Invariant, Gems.FieldOk, Run, Persisted;
      ghost var before := State();
      order := PersistDirtyPositions();
      Record(Persist(order), before);
    }

    method OnCollect(c: Client, item: CollectibleId, now: Time, pick: nat)
      requires Valid() && Lived()
      modifies this, field, field.grid
      ensures Valid() && Lived() && history == old(history) + [Collect(c, item, now, pick)]
    {
      hide Aoi.Invariant, Gems.FieldOk, Run, AfterCollect;
      ghost var before := State();
      var _ := ProcessCollect(c, item, now, pick);
      Record(Collect(c, item, now, pick), before);
    }

    // The last words to the position writer.
    method Stop() returns (ghost order: seq<PlayerId>)
      modifies this`persistence
      ensures Lists(order, players.clients.Keys)
      ensures State() == StoppedBy(cfg, old(State()), order)
    {
      hide ItemIds, IdSets, FinalSubmitted;
      ghost var before := State();
      order := [];
      var all := players.clients.Keys;
      var rest := all;
      while rest != {}
        invariant rest <= all && Lists(order, all - rest)
        invariant State() == StoppedBy(cfg, before, order)
      {
        var p := AnyOf(rest);
        ListsAppend(order, all - rest, p);
        assert all - (rest - {p}) == all - rest + {p};
        rest := rest - {p};
        assert (order + [p])[..|order|] == order;
        order := order + [p];
        SubmitFinalPosition(p);
      }
      assert all - rest == all;
    }
  }
}

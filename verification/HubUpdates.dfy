// From the hub to the screen: what a broadcast's job does to a browser.
module HubUpdates {
  import opened Common
  import opened Sequences
  import opened SetMaps
  import opened Messages
  import opened MessageLaws
  import opened HubModel
  import Aoi = AoiModel
  import AoiIndex
  import Builder = ReplicationBuilder
  import Hub

  // The collectibles a job is about are those the outbox holds for its
  // recipient.
  lemma JobCarriesOutbox(input: Builder.BuildInput, outbox: Outbox, r: PlayerId)
    requires Hub.OutboxIs(outbox, input)
    ensures Ids(Listed(input.collectEntered, r), ItemId) == Lookup(outbox.entered, r)
    ensures ToSet(Listed(input.collectLeft, r)) == Lookup(outbox.left, r)
    ensures Ids(Listed(input.collectSpawned, r), ItemId) == Lookup(outbox.spawned, r)
    ensures ToSet(Listed(input.collectCollected, r)) == Lookup(outbox.collected, r)
  {
    ListedItems(input.collectEntered, r);
    ListedItems(input.collectSpawned, r);
    ListedIds(input.collectLeft, r);
    ListedIds(input.collectCollected, r);
  }

  lemma ListedItems(lists: map<PlayerId, seq<Item>>, r: PlayerId)
    ensures Ids(Listed(lists, r), ItemId) == Lookup(Hub.ItemIds(lists), r)
  {
  }

  lemma ListedIds(lists: map<PlayerId, seq<CollectibleId>>, r: PlayerId)
    ensures ToSet(Listed(lists, r)) == Lookup(Hub.IdSets(lists), r)
  {
  }

  // A browser that shows what the hub thinks it shows does so again once it has
  // handled the update: whatever normal form of the job it is sent and in
  // whatever order it handles its lists. Who gets no job shows what it should
  // already.
  lemma UpdateKeepsScreensRight(cfg: HubConfig, s: HubState, g: HubState, order: seq<PlayerId>,
                                input: Builder.BuildInput, view: Builder.View,
                                jobs: seq<Builder.ReplicationJob>, r: PlayerId,
                                n: Changes, lists: seq<Kind>, browser: Browser)
    requires Hub.TellsOf(cfg, s, g, order, input, view) && Builder.JobsGather(view, input, jobs)
    requires r in g.clients && browser.gems.Keys == Lookup(g.shown, r)
    requires forall k: Kind :: k in lists
    ensures forall job | job in jobs && job.recipientId == r && IsNormalOf(r, job.changes, n) ::
              ApplyLists(lists, r, n, browser).gems.Keys == ShownAfter(g, r)
    ensures (forall job | job in jobs :: job.recipientId != r) ==> browser.gems.Keys == ShownAfter(g, r)
  {
    hide IsNormalOf, ApplyLists, Ids, ToSet, Builder.JobsGather, Hub.OutboxIs;
    JobCarriesOutbox(input, g.outbox, r);
    forall job | job in jobs && job.recipientId == r && IsNormalOf(r, job.changes, n)
      ensures ApplyLists(lists, r, n, browser).gems.Keys == ShownAfter(g, r)
    {
      JobGathers(view, input, jobs, job);
      UpdateMeans(lists, r, job.changes, n, browser);
    }
    if forall job | job in jobs :: job.recipientId != r {
      NoJobNothingListed(view, input, jobs, r);
      NothingListed(input, r);
    }
  }

  lemma JobGathers(view: Builder.View, input: Builder.BuildInput, jobs: seq<Builder.ReplicationJob>,
                   job: Builder.ReplicationJob)
    requires Builder.JobsGather(view, input, jobs) && job in jobs
    ensures Builder.Gathers(view, input, job.recipientId, job.changes)
  {
  }

  lemma NoJobNothingListed(view: Builder.View, input: Builder.BuildInput, jobs: seq<Builder.ReplicationJob>,
                           r: PlayerId)
    requires Builder.JobsGather(view, input, jobs) && r in view.clients
    requires forall job | job in jobs :: job.recipientId != r
    ensures r !in input.collectEntered && r !in input.collectLeft
    ensures r !in input.collectSpawned && r !in input.collectCollected
  {
    assert !Builder.Concerned(view, input, r);
  }

  lemma NothingListed(input: Builder.BuildInput, r: PlayerId)
    requires r !in input.collectEntered && r !in input.collectLeft
    requires r !in input.collectSpawned && r !in input.collectCollected
    ensures Ids(Listed(input.collectEntered, r), ItemId) == {} && Ids(Listed(input.collectSpawned, r), ItemId) == {}
    ensures ToSet(Listed(input.collectLeft, r)) == {} && ToSet(Listed(input.collectCollected, r)) == {}
  {
  }

  // Whom a job announces: exactly the players waiting to be announced that its
  // recipient sees. So a player that moves into the sight of one that stands
  // still is announced to it, but is not told of it: seeing each other is not
  // enough.
  lemma AnnouncedAreSeen(cfg: HubConfig, s: HubState, g: HubState, order: seq<PlayerId>, input: Builder.BuildInput,
                         view: Builder.View, jobs: seq<Builder.ReplicationJob>, job: Builder.ReplicationJob,
                         q: PlayerId)
    requires Hub.TellsOf(cfg, s, g, order, input, view) && Builder.JobsGather(view, input, jobs)
    requires Aoi.Invariant(cfg.aoi, g.aoi) && job in jobs
    ensures (exists x :: x in job.changes.entered && x.id == q)
        <==> q in g.pendingEntered && q in g.world.players && Aoi.Sees(g.aoi, job.recipientId, q)
  {
    hide Builder.JobsGather, Hub.StatesAre;
    JobGathers(view, input, jobs, job);
    NewcomersAre(view, input.pendingEntered, job.recipientId);
    SeesBothWays(g.aoi, job.recipientId, q);
    StatesCover(g, input.pendingEntered, q);
  }

  lemma StatesCover(s: HubState, states: seq<PlayerState>, q: PlayerId)
    requires Hub.StatesAre(s, states)
    ensures (exists x :: x in states && x.id == q) <==> q in s.pendingEntered && q in s.world.players
  {
    var ids := set x | x in states :: x.id;
    assert q in ids <==> q in s.pendingEntered * s.world.players.Keys;
    assert q in ids <==> exists x :: x in states && x.id == q;
  }

  lemma SeesBothWays(s: Aoi.Index, a: PlayerId, b: PlayerId)
    requires Symmetric(s.visible)
    ensures Aoi.Sees(s, a, b) <==> a in Lookup(s.visible, b)
  {
  }

  lemma {:induction false} NewcomersAre(v: Builder.View, entered: seq<PlayerState>, r: PlayerId)
    ensures forall x :: x in Builder.Newcomers(v, entered, r) <==> x in entered && r in Lookup(v.visible, x.id)
  {
    if entered != [] {
      assert entered == entered[..|entered| - 1] + [entered[|entered| - 1]];
      NewcomersAre(v, entered[..|entered| - 1], r);
    }
  }

  // q moved, and r saw it before that move and after it.
  ghost predicate KeepsSight(cfg: HubConfig, s: HubState, order: seq<PlayerId>, q: PlayerId, r: PlayerId) {
    exists k | 0 <= k < |order| :: SeenThrough(cfg, s, order, k, q, r)
  }

  ghost predicate SeenThrough(cfg: HubConfig, s: HubState, order: seq<PlayerId>, k: nat, q: PlayerId, r: PlayerId)
    requires k < |order|
  {
    && order[k] == q && q in s.world.players
    && Aoi.Sees(MovedAll(cfg, s, order[..k]).aoi, q, r)
    && Aoi.Sees(MovedAll(cfg, s, order[..k + 1]).aoi, q, r)
  }

  lemma KeepsSightOneMore(cfg: HubConfig, s: HubState, front: seq<PlayerId>, last: PlayerId, q: PlayerId, r: PlayerId)
    ensures KeepsSight(cfg, s, front + [last], q, r) <==>
      KeepsSight(cfg, s, front, q, r) || SeenThrough(cfg, s, front + [last], |front|, q, r)
  {
    hide MovedAll;
    var order := front + [last];
    forall k | 0 <= k < |front|
      ensures SeenThrough(cfg, s, order, k, q, r) <==> SeenThrough(cfg, s, front, k, q, r)
    {
      assert order[..k] == front[..k] && order[..k + 1] == front[..k + 1];
    }
  }

  lemma {:induction false} StableAreTold(cfg: HubConfig, s: HubState, order: seq<PlayerId>,
                                         deltas: seq<AoiIndex.MovementDelta>, v: Builder.View, q: PlayerId, r: PlayerId)
    requires Hub.DeltasAre(cfg, s, order, deltas) && v.places.Keys == s.world.players.Keys
    ensures IsPlaced(v, deltas, q, r) <==> KeepsSight(cfg, s, order, q, r)
    ensures Builder.HasMoved(deltas, q) <==> q in order && q in s.world.players
  {
    hide MovedAll, MovedOne, KeepsSight, SeenThrough, IsPlaced, Hub.DeltaIs, Hub.DeltasAre, Builder.HasMoved;
    if order == [] {
      NobodyTold(cfg, s, deltas, v, q, r);
    } else {
      var front, last := order[..|order| - 1], order[|order| - 1];
      DeltasParts(cfg, s, order, deltas);
      if last !in s.world.players {
        StableAreTold(cfg, s, front, deltas, v, q, r);
        UnknownNotSeen(cfg, s, order, q, r);
      } else {
        var most, delta := deltas[..|deltas| - 1], deltas[|deltas| - 1];
        StableAreTold(cfg, s, front, most, v, q, r);
        LastDelta(cfg, s, order, delta, q, r);
        LastMoved(most, delta, q);
        LastPlaced(v, most, delta, q, r);
        assert deltas == most + [delta];
      }
      KeepsSightOneMore(cfg, s, front, last, q, r);
      assert order == front + [last];
    }
  }

  lemma NobodyTold(cfg: HubConfig, s: HubState, deltas: seq<AoiIndex.MovementDelta>, v: Builder.View, q: PlayerId,
                   r: PlayerId)
    requires Hub.DeltasAre(cfg, s, [], deltas)
    ensures !IsPlaced(v, deltas, q, r) && !KeepsSight(cfg, s, [], q, r) && !Builder.HasMoved(deltas, q)
  {
  }

  // Whether or not the last player is known.
  lemma DeltasParts(cfg: HubConfig, s: HubState, order: seq<PlayerId>, deltas: seq<AoiIndex.MovementDelta>)
    requires order != [] && Hub.DeltasAre(cfg, s, order, deltas)
    ensures var front, last := order[..|order| - 1], order[|order| - 1];
      if last !in s.world.players then Hub.DeltasAre(cfg, s, front, deltas)
      else
        && deltas != [] && Hub.DeltasAre(cfg, s, front, deltas[..|deltas| - 1])
        && var mid := MovedAll(cfg, s, front);
           Hub.DeltaIs(mid.aoi, MovedOne(cfg, mid, last).aoi, last, deltas[|deltas| - 1])
  {
    hide MovedAll, MovedOne, Hub.DeltaIs;
    Hub.WorldWhileMoving(cfg, s, order[..|order| - 1]);
  }

  lemma UnknownNotSeen(cfg: HubConfig, s: HubState, order: seq<PlayerId>, q: PlayerId, r: PlayerId)
    requires order != [] && order[|order| - 1] !in s.world.players
    ensures !SeenThrough(cfg, s, order, |order| - 1, q, r)
  {
  }

  // The changes gathered for r carry q's place.
  ghost predicate IsPlaced(v: Builder.View, deltas: seq<AoiIndex.MovementDelta>, q: PlayerId, r: PlayerId) {
    exists x :: x in Builder.StablePositions(v, deltas, r) && x.id == q
  }

  lemma LastPlaced(v: Builder.View, most: seq<AoiIndex.MovementDelta>, delta: AoiIndex.MovementDelta, q: PlayerId,
                   r: PlayerId)
    ensures IsPlaced(v, most + [delta], q, r) <==>
      IsPlaced(v, most, q, r) || (delta.playerId == q && q in v.places && r in delta.stable)
  {
    var whole := most + [delta];
    assert whole[..|whole| - 1] == most;
    var before := Builder.StablePositions(v, most, r);
    assert forall x | x in before :: x in Builder.StablePositions(v, whole, r);
    if delta.playerId == q && q in v.places && r in delta.stable {
      assert Builder.PositionOf(v, q).value in Builder.StablePositions(v, whole, r);
    }
  }

  lemma LastMoved(most: seq<AoiIndex.MovementDelta>, delta: AoiIndex.MovementDelta, q: PlayerId)
    ensures Builder.HasMoved(most + [delta], q) <==> Builder.HasMoved(most, q) || delta.playerId == q
  {
    assert delta in most + [delta];
    assert forall d | d in most :: d in most + [delta];
  }

  // The last move's delta keeps exactly those that saw the mover throughout.
  lemma LastDelta(cfg: HubConfig, s: HubState, order: seq<PlayerId>, delta: AoiIndex.MovementDelta, q: PlayerId,
                  r: PlayerId)
    requires order != [] && order[|order| - 1] in s.world.players
    requires var last, mid := order[|order| - 1], MovedAll(cfg, s, order[..|order| - 1]);
      Hub.DeltaIs(mid.aoi, MovedOne(cfg, mid, last).aoi, last, delta)
    ensures delta.playerId == order[|order| - 1]
    ensures SeenThrough(cfg, s, order, |order| - 1, q, r) <==> delta.playerId == q && r in delta.stable
  {
    hide MovedOne;
    assert order[..|order| - 1 + 1] == order;
    assert r in delta.stable <==> r in ToSet(delta.stable);
  }

  // Who is told of a mover's new place: a job carries the place of exactly the
  // movers that its recipient saw before their move and after it, and the
  // recipient's own place exactly when it moved.
  lemma MoversAreTold(cfg: HubConfig, s: HubState, g: HubState, order: seq<PlayerId>, input: Builder.BuildInput,
                      view: Builder.View, jobs: seq<Builder.ReplicationJob>, job: Builder.ReplicationJob, q: PlayerId)
    requires Hub.TellsOf(cfg, s, g, order, input, view) && Builder.JobsGather(view, input, jobs) && job in jobs
    requires g.world.players == s.world.players
    ensures var taken := s.(world := s.world.(moved := {}, removed := {}));
      (exists x :: x in job.changes.positions && x.id == q) <==> KeepsSight(cfg, taken, order, q, job.recipientId)
    ensures job.changes.selfPosition.Some? <==> job.recipientId in order && job.recipientId in s.world.players
  {
    hide Builder.JobsGather, Hub.StatesAre, KeepsSight, Hub.DeltasAre;
    var taken := s.(world := s.world.(moved := {}, removed := {}));
    JobGathers(view, input, jobs, job);
    StableAreTold(cfg, taken, order, input.movementDeltas, view, q, job.recipientId);
    StableAreTold(cfg, taken, order, input.movementDeltas, view, job.recipientId, job.recipientId);
  }

  // Who is told of a new look: exactly the player itself and those that see it.
  lemma LooksAreTold(cfg: HubConfig, s: HubState, g: HubState, order: seq<PlayerId>, input: Builder.BuildInput,
                     view: Builder.View, jobs: seq<Builder.ReplicationJob>, job: Builder.ReplicationJob, q: PlayerId)
    requires Hub.TellsOf(cfg, s, g, order, input, view) && Builder.JobsGather(view, input, jobs) && job in jobs
    requires Aoi.Invariant(cfg.aoi, g.aoi)
    ensures (exists u :: u in job.changes.appearances && u.playerId == q) <==>
      q in g.outbox.looks && (q == job.recipientId || Aoi.Sees(g.aoi, job.recipientId, q))
  {
    hide Builder.JobsGather, Hub.StatesAre, Hub.DeltasAre, Hub.ItemIds, Hub.IdSets;
    JobGathers(view, input, jobs, job);
    SeesBothWays(g.aoi, job.recipientId, q);
    var looks := Builder.Looks(view, input.pendingAppearances, job.recipientId);
    assert forall u :: u in job.changes.appearances <==> u in looks;
    if q in g.outbox.looks && (q == job.recipientId || Aoi.Sees(g.aoi, job.recipientId, q)) {
      assert AppearanceUpdate(q, input.pendingAppearances[q]) in looks;
    }
  }
}

// Nobody is left looking at a collectible that is gone.
module HubViews {
  import opened Common
  import opened Geometry
  import opened Sequences
  import opened World
  import opened HubModel
  import opened HubInvariant
  import opened HubLaws
  import opened Grid
  import Aoi = AoiModel
  import Gems = CollectibleModel
  import GemLaws = CollectibleLaws
  import Messages

  // Whatever the hub holds a player to see is there, in one of the nine cells
  // around the player's indexed position.
  ghost predicate ViewsLive(cfg: HubConfig, s: HubState) {
    forall q, id | q in s.visible && id in s.visible[q] :: SeenIsLive(cfg, s, q, id)
  }

  ghost predicate SeenIsLive(cfg: HubConfig, s: HubState, q: PlayerId, id: CollectibleId) {
    id in s.field.items && NearIndexed(cfg, s, q, s.field.items[id])
  }

  // How far the index may lag behind a player whose connection is replaced.
  ghost predicate Calm(cfg: HubConfig, s: HubState, e: Event) {
    e.Register? && e.client.id in s.world.players && e.client.id in s.aoi.players ==>
      DistanceSquared(s.aoi.players[e.client.id].local, WorldSpot(cfg, s, e.client.id))
      <= Square(cfg.aoi.cellSize - VIEW)
  }

  ghost predicate CalmRun(cfg: HubConfig, events: seq<Event>)
    requires cfg.Sound()
  {
    forall k | 0 <= k < |events| :: Calm(cfg, Run(cfg, events[..k]), events[k])
  }

  // What is in view of a point is in the nine cells around any point close
  // enough to it.
  lemma ViewIsNear(cfg: HubConfig, s: HubState, field: Gems.Field, q: PlayerId, at: LatLng, id: CollectibleId)
    requires cfg.Sound()
    requires q in s.aoi.players && Aoi.PlacedWell(cfg.aoi, s.aoi.players[q])
    requires DistanceSquared(s.aoi.players[q].local, cfg.aoi.ToLocal(at.lat, at.lng)) <= Square(cfg.aoi.cellSize - VIEW)
    requires id in InView(cfg, field, at, VIEW)
    ensures id in field.items && NearIndexed(cfg, s, q, field.items[id])
  {
    hide DistanceSquared, Square;
    var spot := cfg.aoi.ToLocal(field.items[id].lat, field.items[id].lng);
    var here := cfg.aoi.ToLocal(at.lat, at.lng);
    DistanceIsSymmetric(s.aoi.players[q].local, here);
    DistanceIsSymmetric(here, spot);
    TriangleWithin(spot, here, s.aoi.players[q].local, VIEW, cfg.aoi.cellSize - VIEW);
    NearbyIsAdjacent(cfg.aoi, spot, s.aoi.players[q].local);
  }

  lemma PlacedWhereWorldSays(cfg: HubConfig, s: HubState, q: PlayerId)
    requires q in s.aoi.players && q in s.world.players && SamePlace(s, q) && Aoi.PlacedWell(cfg.aoi, s.aoi.players[q])
    ensures DistanceSquared(s.aoi.players[q].local, WorldSpot(cfg, s, q)) <= Square(cfg.aoi.cellSize - VIEW)
  {
    DistanceToSelf(s.aoi.players[q].local);
    SquareIsNonNegative(cfg.aoi.cellSize - VIEW);
  }

  lemma GoneViews(cfg: HubConfig, s: HubState, c: Client)
    requires ViewsLive(cfg, s)
    ensures ViewsLive(cfg, Gone(cfg, s, c))
  {
    hide Aoi.Removed, LeftFor, WithoutPlayer, Adjacent;
    RemovedPlayers(s.aoi, c.id);
    GoneKeepsField(cfg, s, c);
    var t := Gone(cfg, s, c);
    forall q, id | q in t.visible && id in t.visible[q]
      ensures SeenIsLive(cfg, t, q, id)
    {
      assert SeenIsLive(cfg, s, q, id);
    }
  }

  lemma InitialisedViews(cfg: HubConfig, s: HubState, c: Client, sent: bool)
    requires cfg.Sound() && HubOk(cfg, s) && c.id in s.clients && ViewsLive(cfg, s)
    requires c.id in s.world.players && c.id in s.aoi.players ==>
               DistanceSquared(s.aoi.players[c.id].local, WorldSpot(cfg, s, c.id)) <= Square(cfg.aoi.cellSize - VIEW)
    ensures ViewsLive(cfg, Initialised(cfg, s, c, sent))
  {
    hide Gone, InView, NearIndexed, DistanceSquared, Square, Tidy, Recorded, IndexAgrees;
    GoneViews(cfg, s, c);
    assert c.id in s.aoi.players && Aoi.PlacedWell(cfg.aoi, s.aoi.players[c.id]);
    if c.id in s.world.players && sent {
      var t := Initialised(cfg, s, c, sent);
      forall q, id | q in t.visible && id in t.visible[q]
        ensures SeenIsLive(cfg, t, q, id)
      {
        if q == c.id {
          ViewIsNear(cfg, s, s.field, q, s.world.players[q].at, id);
        } else {
          assert SeenIsLive(cfg, s, q, id);
        }
        SameNearness(cfg, s, t, q, t.field.items[id]);
      }
    }
  }

  lemma AttachedViews(cfg: HubConfig, s: HubState, c: Client)
    requires ViewsLive(cfg, s)
    ensures ViewsLive(cfg, Attached(s, c))
  {
    hide NearIndexed;
    var t := Attached(s, c);
    forall q, id | q in t.visible && id in t.visible[q]
      ensures SeenIsLive(cfg, t, q, id)
    {
      assert SeenIsLive(cfg, s, q, id);
      SameNearness(cfg, s, t, q, t.field.items[id]);
    }
  }

  lemma AttachedSees(s: HubState, c: Client)
    ensures Attached(s, c).visible == s.visible - {c.id} && Attached(s, c).field == s.field
  {
  }

  lemma SameNearness(cfg: HubConfig, s: HubState, t: HubState, q: PlayerId, c: Gems.Collectible)
    requires q in s.aoi.players ==> q in t.aoi.players && t.aoi.players[q] == s.aoi.players[q]
    ensures NearIndexed(cfg, s, q, c) ==> NearIndexed(cfg, t, q, c)
  {
  }

  lemma JoinedViews(cfg: HubConfig, s: HubState, c: Client, saved: Option<Saved>)
    requires HubOk(cfg, s) && c.id !in s.world.players && ViewsLive(cfg, s)
    ensures var t := Attached(Joined(cfg, s, c, saved), c);
      && ViewsLive(cfg, t)
      && c.id in t.world.players && c.id in t.aoi.players && SamePlace(t, c.id)
  {
    hide NearIndexed, Aoi.Inserted, Aoi.Invariant, Tidy, Recorded, Joined, Attached;
    var at := StartAt(cfg, saved);
    JoinedParts(cfg, s, c, saved);
    JoinedKeepsField(cfg, s, c, saved);
    JoinedSees(cfg, s, c, saved);
    AttachedSees(Joined(cfg, s, c, saved), c);
    InsertedPlayers(cfg.aoi, s.aoi, c.id, at);
    var t := Attached(Joined(cfg, s, c, saved), c);
    forall q, id | q in t.visible && id in t.visible[q]
      ensures SeenIsLive(cfg, t, q, id)
    {
      assert SeenIsLive(cfg, s, q, id);
      SameNearness(cfg, s, t, q, t.field.items[id]);
    }
  }

  lemma RegisteredViews(cfg: HubConfig, s: HubState, c: Client, saved: Option<Saved>, sent: bool)
    requires cfg.Sound() && HubOk(cfg, s) && ViewsLive(cfg, s)
    requires Calm(cfg, s, Register(c, saved, sent))
    ensures ViewsLive(cfg, Registered(cfg, s, c, saved, sent))
  {
    hide Aoi.Invariant, Joined, Initialised, Attached, Tidy, Recorded, ViewsLive, DistanceSquared, Square;
    if c.id in s.clients && s.clients[c.id] != c {
      var t := s.(world := WithInputReset(s.world, c.id));
      InputResetKeeps(cfg, s, c.id);
      AttachedKeeps(cfg, t, c);
      SameViews(cfg, s, t);
      ReattachedViews(cfg, s, t, c, sent);
    } else if c.id in s.world.players {
      AttachedKeeps(cfg, s, c);
      SameViews(cfg, s, s);
      ReattachedViews(cfg, s, s, c, sent);
    } else {
      JoinedKeeps(cfg, s, c, saved);
      JoinedViews(cfg, s, c, saved);
      var t := Attached(Joined(cfg, s, c, saved), c);
      AttachedHas(Joined(cfg, s, c, saved), c);
      IndexedIsPlaced(cfg, t, c.id);
      PlacedWhereWorldSays(cfg, t, c.id);
      InitialisedViews(cfg, t, c, sent);
    }
  }

  lemma IndexedIsPlaced(cfg: HubConfig, s: HubState, p: PlayerId)
    requires HubOk(cfg, s) && p in s.aoi.players
    ensures Aoi.PlacedWell(cfg.aoi, s.aoi.players[p])
  {
    hide Tidy, Recorded, IndexAgrees;
  }

  lemma ReattachedViews(cfg: HubConfig, s: HubState, t: HubState, c: Client, sent: bool)
    requires cfg.Sound() && HubOk(cfg, Attached(t, c)) && ViewsLive(cfg, t)
    requires c.id in s.world.players && c.id in s.aoi.players && c.id in t.world.players
    requires t.aoi == s.aoi && t.world.players[c.id].at == s.world.players[c.id].at
    requires DistanceSquared(s.aoi.players[c.id].local, WorldSpot(cfg, s, c.id)) <= Square(cfg.aoi.cellSize - VIEW)
    ensures ViewsLive(cfg, Initialised(cfg, Attached(t, c), c, sent))
  {
    hide ViewsLive, HubOk, DistanceSquared, Square, Initialised;
    AttachedViews(cfg, t, c);
    AttachedHas(t, c);
    InitialisedViews(cfg, Attached(t, c), c, sent);
  }

  lemma SameViews(cfg: HubConfig, s: HubState, t: HubState)
    requires ViewsLive(cfg, s) && t.visible == s.visible && t.aoi == s.aoi && t.field == s.field
    ensures ViewsLive(cfg, t)
  {
    hide NearIndexed;
    forall q, id | q in t.visible && id in t.visible[q]
      ensures SeenIsLive(cfg, t, q, id)
    {
      assert SeenIsLive(cfg, s, q, id);
      SameNearness(cfg, s, t, q, t.field.items[id]);
    }
  }

  // Players that do not move stay where the index has them.
  lemma {:induction false} OthersStay(cfg: HubConfig, s: HubState, order: seq<PlayerId>, q: PlayerId)
    requires q in s.aoi.players && q !in order
    ensures q in MovedAll(cfg, s, order).aoi.players
    ensures MovedAll(cfg, s, order).aoi.players[q] == s.aoi.players[q]
  {
    if order != [] {
      hide Aoi.Moved, Aoi.Entered, Aoi.Left, LeftFor;
      var front, last := order[..|order| - 1], order[|order| - 1];
      assert order == front + [last];
      OthersStay(cfg, s, front, q);
      var mid := MovedAll(cfg, s, front);
      if last in mid.world.players {
        MovedPlayers(cfg.aoi, mid.aoi, last, mid.world.players[last].at);
      }
    }
  }

  // Recalculating gives each listed player what is in view of it, and leaves
  // the others' views alone.
  lemma {:induction false} RecalculatedViews(cfg: HubConfig, s: HubState, order: seq<PlayerId>, q: PlayerId)
    ensures var t := ViewsRecalculated(cfg, s, order);
      && (q in order && q in s.clients && q in s.world.players ==>
            q in t.visible && t.visible[q] == InView(cfg, s.field, s.world.players[q].at, VIEW))
      && (q !in order ==> (q in t.visible <==> q in s.visible) && (q in s.visible ==> t.visible[q] == s.visible[q]))
  {
    if order != [] {
      hide ViewRecalculated, InView;
      var front, last := order[..|order| - 1], order[|order| - 1];
      assert order == front + [last];
      RecalculatedViews(cfg, s, front, q);
      ViewsRecalculatedKeeps(cfg, s, front);
      OneRecalculated(cfg, ViewsRecalculated(cfg, s, front), last);
    }
  }

  lemma OneRecalculated(cfg: HubConfig, s: HubState, p: PlayerId)
    ensures ViewRecalculated(cfg, s, p).visible ==
      if p in s.clients && p in s.world.players then
        s.visible[p := InView(cfg, s.field, s.world.players[p].at, VIEW)]
      else s.visible
  {
    hide InView, ComesIntoView, OutOfView, PutMore;
  }

  lemma BroadcastedViews(cfg: HubConfig, s: HubState, order: seq<PlayerId>, now: Time)
    requires cfg.Sound() && HubOk(cfg, s) && ViewsLive(cfg, s)
    requires Gems.FieldOk(cfg.gems, s.field) && ToSet(order) == s.world.moved
    requires OnlyWhenCollecting(cfg, s)
    ensures ViewsLive(cfg, Broadcasted(cfg, s, order, now))
  {
    hide Gathered, HubOk, ViewsLive, ShownAfter;
    GatheredViews(cfg, s, order, now);
    SameViews(cfg, Gathered(cfg, s, order, now), Broadcasted(cfg, s, order, now));
  }

  lemma GatheredViews(cfg: HubConfig, s: HubState, order: seq<PlayerId>, now: Time)
    requires cfg.Sound() && HubOk(cfg, s) && ViewsLive(cfg, s)
    requires Gems.FieldOk(cfg.gems, s.field) && ToSet(order) == s.world.moved
    requires OnlyWhenCollecting(cfg, s)
    ensures ViewsLive(cfg, Gathered(cfg, s, order, now))
  {
    hide Aoi.Invariant, IndexAgrees, Tidy, Recorded, Gathered, NearIndexed, InView, Gems.FieldOk;
    GatheredKeeps(cfg, s, order, now);
    var t := Gathered(cfg, s, order, now);
    if cfg.collecting {
      forall q, id | q in t.visible && id in t.visible[q]
        ensures SeenIsLive(cfg, t, q, id)
      {
        if q in order {
          NewlySeen(cfg, s, order, now, q, id);
        } else {
          StillSeen(cfg, s, order, now, q, id);
        }
      }
    } else {
      NothingSeen(cfg, s, order, now);
    }
  }

  lemma NothingSeen(cfg: HubConfig, s: HubState, order: seq<PlayerId>, now: Time)
    requires !cfg.collecting && Aoi.Invariant(cfg.aoi, s.aoi) && IndexAgrees(s, s.world.moved) && s.visible == map[]
    ensures Gathered(cfg, s, order, now).visible == map[]
  {
    hide MovedAll, Aoi.Invariant, IndexAgrees;
    var taken := s.(world := s.world.(moved := {}, removed := {}));
    SameAgreement(s, taken, s.world.moved);
    MovedAllKeeps(cfg, taken, order, s.world.moved);
  }

  // What a moved player sees is what is in view of where it stands.
  lemma NewlySeen(cfg: HubConfig, s: HubState, order: seq<PlayerId>, now: Time, q: PlayerId, id: CollectibleId)
    requires cfg.Sound() && cfg.collecting && HubOk(cfg, s)
    requires q in order && ToSet(order) == s.world.moved
    requires var t := Gathered(cfg, s, order, now); q in t.visible && id in t.visible[q]
    ensures SeenIsLive(cfg, Gathered(cfg, s, order, now), q, id)
  {
    hide Aoi.Invariant, MovedAll, SpawnsSeen, ViewsRecalculated, Gems.Advanced, NearIndexed, InView, Tidy, Recorded,
      DistanceSquared, Square;
    GatheredKeeps(cfg, s, order, now);
    var t := Gathered(cfg, s, order, now);
    assert q in ToSet(order);
    SpawnsKeepWorld(cfg, s, order, now);
    var mid := SpawnsSeen(cfg, MovedAll(cfg, s.(world := s.world.(moved := {}, removed := {})), order),
                          Gems.Advanced(cfg.gems, s.field, now));
    RecalculatedViews(cfg, mid, order, q);
    assert q in t.world.players && q in t.aoi.players && SamePlace(t, q);
    PlacedInInvariant(cfg, t, q);
    PlacedWhereWorldSays(cfg, t, q);
    ViewIsNear(cfg, t, t.field, q, t.world.players[q].at, id);
  }

  lemma PlacedInInvariant(cfg: HubConfig, s: HubState, p: PlayerId)
    requires Aoi.Invariant(cfg.aoi, s.aoi) && p in s.aoi.players
    ensures Aoi.PlacedWell(cfg.aoi, s.aoi.players[p])
  {
  }

  lemma SpawnsKeepWorld(cfg: HubConfig, s: HubState, order: seq<PlayerId>, now: Time)
    requires Aoi.Invariant(cfg.aoi, s.aoi) && IndexAgrees(s, s.world.moved)
    ensures var taken := s.(world := s.world.(moved := {}, removed := {}));
      var moved := MovedAll(cfg, taken, order);
      var mid := SpawnsSeen(cfg, moved, Gems.Advanced(cfg.gems, s.field, now));
      && moved.visible == s.visible && moved.field == s.field && moved.clients == s.clients
      && mid.clients == s.clients && mid.world.players == s.world.players && mid.aoi == moved.aoi
      && mid.field == Gems.Advanced(cfg.gems, s.field, now)
  {
    hide MovedAll, Aoi.Invariant, IndexAgrees, Gems.Advanced, SpawnedNear;
    var taken := s.(world := s.world.(moved := {}, removed := {}));
    SameAgreement(s, taken, s.world.moved);
    MovedAllKeeps(cfg, taken, order, s.world.moved);
  }

  // A player that did not move sees what it saw and what has spawned near it.
  lemma StillSeen(cfg: HubConfig, s: HubState, order: seq<PlayerId>, now: Time, q: PlayerId, id: CollectibleId)
    requires cfg.Sound() && cfg.collecting && ViewsLive(cfg, s) && q !in order && Gems.FieldOk(cfg.gems, s.field)
    requires Aoi.Invariant(cfg.aoi, s.aoi) && IndexAgrees(s, s.world.moved)
    requires var t := Gathered(cfg, s, order, now); q in t.visible && id in t.visible[q]
    ensures SeenIsLive(cfg, Gathered(cfg, s, order, now), q, id)
  {
    hide MovedAll, ViewsRecalculated, Gems.Advanced, NearIndexed, InView, Gems.FieldOk, Aoi.Invariant, IndexAgrees;
    SpawnsKeepWorld(cfg, s, order, now);
    var taken := s.(world := s.world.(moved := {}, removed := {}));
    var moved := MovedAll(cfg, taken, order);
    var mid := SpawnsSeen(cfg, moved, Gems.Advanced(cfg.gems, s.field, now));
    var t := Gathered(cfg, s, order, now);
    RecalculatedViews(cfg, mid, order, q);
    ViewsRecalculatedKeeps(cfg, mid, order);
    GemLaws.AdvanceIsExact(cfg.gems, s.field, now);
    if id in s.visible[q] {
      assert SeenIsLive(cfg, s, q, id);
      IndexedIfNear(cfg, s, q, s.field.items[id]);
      OthersStay(cfg, taken, order, q);
      SameNearness(cfg, s, t, q, t.field.items[id]);
    } else {
      assert id in SpawnedNear(cfg, moved, mid.field, q);
      SameNearness(cfg, moved, t, q, t.field.items[id]);
    }
  }

  lemma IndexedIfNear(cfg: HubConfig, s: HubState, q: PlayerId, c: Gems.Collectible)
    requires NearIndexed(cfg, s, q, c)
    ensures q in s.aoi.players
  {
  }

  lemma CollectedViews(cfg: HubConfig, s: HubState, c: Client, item: CollectibleId, now: Time, pick: nat)
    requires cfg.Sound() && HubOk(cfg, s) && ViewsLive(cfg, s) && Gems.FieldOk(cfg.gems, s.field)
    ensures ViewsLive(cfg, AfterCollect(cfg, s, c, item, now, pick))
  {
    hide Aoi.Invariant, Recorded, Gems.FieldOk, NearIndexed, Collectable, Considered;
    var t := AfterCollect(cfg, s, c, item, now, pick);
    if Considered(s, c, now) && Collectable(cfg, s, c.id, item) {
      CollectableItem(cfg, s, c.id, item);
      GemLaws.ItemsAreNumbered(cfg.gems, s.field, item);
      CollectedItems(cfg, s.field, item, now, pick);
    }
    forall q, id | q in t.visible && id in t.visible[q]
      ensures SeenIsLive(cfg, t, q, id)
    {
      assert SeenIsLive(cfg, s, q, id);
      SameNearness(cfg, s, s.(cooldowns := s.cooldowns[c.id := now]), q, s.field.items[id]);
      SameNearness(cfg, s, t, q, s.field.items[id]);
    }
  }

  lemma CollectableItem(cfg: HubConfig, s: HubState, p: PlayerId, item: CollectibleId)
    requires Collectable(cfg, s, p, item)
    ensures item in s.field.items
  {
  }

  lemma {:induction false} SubmittedAllViews(cfg: HubConfig, s: HubState, order: seq<PlayerId>)
    ensures var t := SubmittedAll(s, order); t.visible == s.visible && t.aoi == s.aoi && t.field == s.field
  {
    if order != [] {
      SubmittedAllViews(cfg, s, order[..|order| - 1]);
    }
  }

  // Without a field nobody sees anything.
  ghost predicate OnlyWhenCollecting(cfg: HubConfig, s: HubState) {
    cfg.collecting || s.visible == map[]
  }

  lemma StepViews(cfg: HubConfig, s: HubState, e: Event)
    requires cfg.Sound() && HubOk(cfg, s) && Gems.FieldOk(cfg.gems, s.field)
    requires ViewsLive(cfg, s) && OnlyWhenCollecting(cfg, s) && Calm(cfg, s, e)
    ensures ViewsLive(cfg, Step(cfg, s, e))
  {
    hide HubOk, ViewsLive, Gone, Registered, GivenInput, Dressed, Simulated, Broadcasted, Persisted, AfterCollect,
      Calm, Gems.FieldOk;
    if Possible(s, e) {
      match e
      case Register(c, saved, sent) => RegisteredViews(cfg, s, c, saved, sent);
      case Unregister(c) => GoneViews(cfg, s, c);
      case DisconnectUser(p) => if p in s.clients { GoneViews(cfg, s, s.clients[p]); }
      case Input(c, input) => InputViews(cfg, s, c, input);
      case UpdateAppearance(p, appearance) => DressedViews(cfg, s, p, appearance);
      case Simulate(places) => SimulatedViews(cfg, s, places);
      case Broadcast(order, now) => BroadcastedViews(cfg, s, order, now);
      case Persist(order) => PersistedViews(cfg, s, order);
      case Collect(c, item, now, pick) => CollectedViews(cfg, s, c, item, now, pick);
    }
  }

  lemma InputViews(cfg: HubConfig, s: HubState, c: Client, input: InputState)
    requires ViewsLive(cfg, s)
    ensures ViewsLive(cfg, GivenInput(s, c, input))
  {
    hide ViewsLive, WithInput;
    SameViews(cfg, s, GivenInput(s, c, input));
  }

  lemma DressedViews(cfg: HubConfig, s: HubState, p: PlayerId, appearance: Messages.Appearance)
    requires ViewsLive(cfg, s)
    ensures ViewsLive(cfg, Dressed(s, p, appearance))
  {
    hide ViewsLive, WithAppearance;
    SameViews(cfg, s, Dressed(s, p, appearance));
  }

  lemma SimulatedViews(cfg: HubConfig, s: HubState, places: PlayerId -> LatLng)
    requires ViewsLive(cfg, s)
    ensures ViewsLive(cfg, Simulated(s, places))
  {
    hide ViewsLive, Stepped;
    SameViews(cfg, s, Simulated(s, places));
  }

  lemma PersistedViews(cfg: HubConfig, s: HubState, order: seq<PlayerId>)
    requires ViewsLive(cfg, s)
    ensures ViewsLive(cfg, Persisted(cfg, s, order))
  {
    hide ViewsLive, SubmittedAll;
    SubmittedAllViews(cfg, s, order);
    SameViews(cfg, s, Persisted(cfg, s, order));
  }

  lemma StepOnlyWhenCollecting(cfg: HubConfig, s: HubState, e: Event)
    requires cfg.Sound() && HubOk(cfg, s) && OnlyWhenCollecting(cfg, s)
    ensures OnlyWhenCollecting(cfg, Step(cfg, s, e))
  {
    hide Registered, Gone, GivenInput, Dressed, Simulated, Broadcasted, Persisted, AfterCollect;
    if !cfg.collecting && Possible(s, e) {
      match e
      case Register(c, saved, sent) => RegisteredSeesNothing(cfg, s, c, saved, sent);
      case Unregister(c) => GoneSeesNothing(cfg, s, c);
      case DisconnectUser(p) => if p in s.clients { GoneSeesNothing(cfg, s, s.clients[p]); }
      case Input(c, input) => OthersSeeNothing(cfg, s, e);
      case UpdateAppearance(_, _) => OthersSeeNothing(cfg, s, e);
      case Simulate(_) => OthersSeeNothing(cfg, s, e);
      case Broadcast(order, now) => BroadcastSeesNothing(cfg, s, order, now);
      case Persist(order) => OthersSeeNothing(cfg, s, e);
      case Collect(c, item, now, pick) => AfterCollectLists(cfg, s, c, item, now, pick);
    }
  }

  lemma OthersSeeNothing(cfg: HubConfig, s: HubState, e: Event)
    ensures e.Input? ==> GivenInput(s, e.client, e.input).visible == s.visible
    ensures e.UpdateAppearance? ==> Dressed(s, e.player, e.appearance).visible == s.visible
    ensures e.Simulate? ==> Simulated(s, e.places).visible == s.visible
    ensures e.Persist? ==> Persisted(cfg, s, e.order).visible == s.visible
  {
    hide WithInput, WithAppearance, Stepped, SubmittedAll;
    if e.Persist? {
      SubmittedAllViews(cfg, s, e.order);
    }
  }

  lemma GoneSeesNothing(cfg: HubConfig, s: HubState, c: Client)
    requires s.visible == map[]
    ensures Gone(cfg, s, c).visible == map[]
  {
    hide FinalSubmitted, Aoi.Removed, LeftFor, WithoutPlayer;
  }

  lemma BroadcastSeesNothing(cfg: HubConfig, s: HubState, order: seq<PlayerId>, now: Time)
    requires !cfg.collecting && HubOk(cfg, s) && s.visible == map[]
    ensures Broadcasted(cfg, s, order, now).visible == map[]
  {
    hide Gathered, Tidy, Recorded, LockStep, ShownAfter;
    NothingSeen(cfg, s, order, now);
  }

  lemma InitialisedSeesNothing(cfg: HubConfig, s: HubState, c: Client, sent: bool)
    requires !cfg.collecting && s.visible - {c.id} == map[]
    ensures Initialised(cfg, Attached(s, c), c, sent).visible == map[]
  {
    hide FinalSubmitted, Aoi.Removed, LeftFor, WithoutPlayer;
  }

  lemma RegisteredSeesNothing(cfg: HubConfig, s: HubState, c: Client, saved: Option<Saved>, sent: bool)
    requires !cfg.collecting && s.visible == map[]
    ensures Registered(cfg, s, c, saved, sent).visible == map[]
  {
    hide Joined, WithInputReset, Initialised, Attached;
    assert s.visible - {c.id} == map[];
    if c.id in s.clients && s.clients[c.id] != c {
      InitialisedSeesNothing(cfg, s.(world := WithInputReset(s.world, c.id)), c, sent);
    } else if c.id in s.world.players {
      InitialisedSeesNothing(cfg, s, c, sent);
    } else {
      JoinedSees(cfg, s, c, saved);
      InitialisedSeesNothing(cfg, Joined(cfg, s, c, saved), c, sent);
    }
  }

  lemma JoinedSees(cfg: HubConfig, s: HubState, c: Client, saved: Option<Saved>)
    ensures Joined(cfg, s, c, saved).visible == s.visible
  {
    hide ForgetLeft, Aoi.Inserted, WithPlayer, StartAt, StartName, StartLook, StartScores, StartSynthetic;
  }

  // As long as no connection is replaced while the index lags its player by
  // more than a cell less the view, everything the hub holds a player to see
  // is still there: a collectible won by one player is taken out of every
  // other player's view in the same step.
  lemma {:induction false} NobodySeesTheGone(cfg: HubConfig, events: seq<Event>)
    requires cfg.Sound() && CalmRun(cfg, events)
    ensures ViewsLive(cfg, Run(cfg, events)) && OnlyWhenCollecting(cfg, Run(cfg, events))
  {
    if events != [] {
      hide HubOk, ViewsLive, Step, Calm, Gems.FieldOk;
      var front, e := events[..|events| - 1], events[|events| - 1];
      forall k | 0 <= k < |front|
        ensures Calm(cfg, Run(cfg, front[..k]), front[k])
      {
        assert front[..k] == events[..k];
        assert Calm(cfg, Run(cfg, events[..k]), events[k]);
      }
      NobodySeesTheGone(cfg, front);
      RunKeeps(cfg, front);
      FieldRefines(cfg, front);
      Gems.RunKeeps(cfg.gems, FieldHistory(cfg, front));
      StepViews(cfg, Run(cfg, front), e);
      StepOnlyWhenCollecting(cfg, Run(cfg, front), e);
    }
  }
}

// Which collect requests are granted, told from the events of a run.
module HubCollects {
  import opened Common
  import opened Geometry
  import opened HubModel
  import opened HubInvariant
  import opened HubLaws
  import opened HubScores
  import Gems = CollectibleModel
  import GemLaws = CollectibleLaws
  import W = World

  // The database once said of a player joining that it is synthetic.
  ghost predicate JoinedSynthetic(cfg: HubConfig, events: seq<Event>, p: PlayerId)
    requires cfg.Sound()
  {
    && events != []
    && var front, e := events[..|events| - 1], events[|events| - 1];
       || JoinedSynthetic(cfg, front, p)
       || (e.Register? && e.client.id == p && p !in Run(cfg, front).clients
           && e.saved.Some? && e.saved.value.synthetic)
  }

  // When the last request was made that a player's cooldown counts from: by its
  // connection of that time, by no synthetic player, and not within 300 ms of
  // the one before.
  ghost function LastRequest(cfg: HubConfig, events: seq<Event>, p: PlayerId): Option<Time>
    requires cfg.Sound()
    decreases |events|, 0
  {
    if events == [] then None
    else
      var front, e := events[..|events| - 1], events[|events| - 1];
      if e.Collect? && e.client.id == p && MayRequest(cfg, front, e.client, e.now) then Some(e.now)
      else LastRequest(cfg, front, p)
  }

  ghost predicate MayRequest(cfg: HubConfig, events: seq<Event>, c: Client, now: Time)
    requires cfg.Sound()
    decreases |events|, 1
  {
    && c.id in Run(cfg, events).clients && Run(cfg, events).clients[c.id] == c
    && !JoinedSynthetic(cfg, events, c.id)
    && (LastRequest(cfg, events, c.id).Some? ==> now - LastRequest(cfg, events, c.id).value >= 300_000_000)
  }

  // ------------------------------------------------------------------
  // The state knows as much
  // ------------------------------------------------------------------

  lemma RegisteredSynthetic(cfg: HubConfig, s: HubState, c: Client, saved: Option<Saved>, sent: bool)
    requires HubOk(cfg, s)
    ensures Registered(cfg, s, c, saved, sent).synthetic
         == if c.id in s.clients then s.synthetic else StartSynthetic(s.synthetic, c.id, saved)
  {
    hide HubOk, Joined, Attached, Initialised, StartSynthetic;
    KnownIsConnected(cfg, s, c.id);
    var base := if c.id in s.clients && s.clients[c.id] != c then s.(world := W.WithInputReset(s.world, c.id))
                else if c.id in s.world.players then s else Joined(cfg, s, c, saved);
    AttachedScores(base, c);
    InitialisedScores(cfg, Attached(base, c), c, sent);
    JoinedBooks(cfg, s, c, saved);
  }

  lemma StepSynthetic(cfg: HubConfig, s: HubState, e: Event)
    requires cfg.Sound() && HubOk(cfg, s)
    ensures Step(cfg, s, e).synthetic
         == if e.Register? && e.client.id !in s.clients then StartSynthetic(s.synthetic, e.client.id, e.saved)
            else s.synthetic
  {
    hide HubOk, Gone, Registered, GivenInput, Dressed, Simulated, Broadcasted, Persisted, AfterCollect, StartSynthetic;
    if Possible(s, e) {
      match e
      case Register(c, saved, sent) => RegisteredSynthetic(cfg, s, c, saved, sent);
      case Unregister(c) => GoneScores(cfg, s, c);
      case DisconnectUser(p) => if p in s.clients { GoneScores(cfg, s, s.clients[p]); }
      case Input(c, input) => InputScores(s, c, input);
      case UpdateAppearance(p, appearance) => DressedScores(s, p, appearance);
      case Simulate(places) => SimulatedScores(s, places);
      case Broadcast(order, now) => BroadcastedScores(cfg, s, order, now);
      case Persist(order) => PersistedScores(cfg, s, order);
      case Collect(c, item, now, pick) => AfterCollectFrame(cfg, s, c, item, now, pick);
    }
  }

  lemma {:induction false} SyntheticJoined(cfg: HubConfig, events: seq<Event>, p: PlayerId)
    requires cfg.Sound()
    ensures p in Run(cfg, events).synthetic <==> JoinedSynthetic(cfg, events, p)
  {
    if events != [] {
      hide HubOk, Step;
      var front, e := events[..|events| - 1], events[|events| - 1];
      SyntheticJoined(cfg, front, p);
      RunKeeps(cfg, front);
      StepSynthetic(cfg, Run(cfg, front), e);
    }
  }

  lemma {:induction false} CooldownCounts(cfg: HubConfig, events: seq<Event>, p: PlayerId)
    requires cfg.Sound()
    ensures var cooldowns := Run(cfg, events).cooldowns;
      LastRequest(cfg, events, p) == if p in cooldowns then Some(cooldowns[p]) else None
  {
    if events != [] {
      hide HubOk, Step, Wins;
      var front, e := events[..|events| - 1], events[|events| - 1];
      CooldownCounts(cfg, front, p);
      SyntheticJoined(cfg, front, p);
      RunKeeps(cfg, front);
      StepOnField(cfg, Run(cfg, front), e);
    }
  }

  // ------------------------------------------------------------------
  // The result
  // ------------------------------------------------------------------

  // What a request needs to be granted, in the state it arrives in.
  ghost predicate Granted(cfg: HubConfig, events: seq<Event>, c: Client, item: CollectibleId, now: Time)
    requires cfg.Sound()
  {
    var s := Run(cfg, events);
    && cfg.collecting
    && MayRequest(cfg, events, c, now)
    && item in s.field.items
    && c.id in s.visible && item in s.visible[c.id]
    && c.id in s.world.players
    && WithinReach(cfg, s.world.players[c.id].at, s.field.items[item])
  }

  // No more than 20 m apart.
  ghost predicate WithinReach(cfg: HubConfig, at: LatLng, item: Gems.Collectible) {
    var dx := (at.lng - item.lng) * cfg.aoi.metersPerDegreeLng;
    var dy := (at.lat - item.lat) * 111320.0;
    dx * dx + dy * dy <= 400.0
  }

  // Over every run a request is granted if and only if collecting is on, it
  // comes from the current connection of a player that never joined as
  // synthetic, the last request that counted lies at least 300 ms back, and the
  // item is live, held to be seen, and within 20 m. Then the item goes and its
  // finder has one point more, the award says so; otherwise neither changes.
  lemma GrantedIffRightful(cfg: HubConfig, events: seq<Event>, c: Client, item: CollectibleId, now: Time, pick: nat)
    requires cfg.Sound()
    ensures var s, t := Run(cfg, events), Run(cfg, events + [Collect(c, item, now, pick)]);
      if Granted(cfg, events, c, item, now) then
        && t.awards == s.awards + [Award(c.id, item, Number(s.scores, c.id) + 1, now)]
        && t.scores == s.scores[c.id := Number(s.scores, c.id) + 1]
        && t.field.items == s.field.items - {item}
      else
        t.awards == s.awards && t.scores == s.scores && t.field == s.field
  {
    hide HubOk, Run, Step, AfterCollect, Gems.FieldOk, Wins, Granted;
    var s := Run(cfg, events);
    RunExtends(cfg, events, Collect(c, item, now, pick));
    CollectStep(cfg, s, c, item, now, pick);
    CollectOnField(cfg, s, c, item, now, pick);
    WinsIffGranted(cfg, events, c, item, now);
  }

  lemma WinsIffGranted(cfg: HubConfig, events: seq<Event>, c: Client, item: CollectibleId, now: Time)
    requires cfg.Sound()
    ensures Wins(cfg, Run(cfg, events), c, item, now) <==> Granted(cfg, events, c, item, now)
  {
    hide HubOk, Run, Gems.FieldOk, Considered, Collectable, MayRequest, Square, DistanceSquared;
    var s := Run(cfg, events);
    FieldRefines(cfg, events);
    Gems.RunKeeps(cfg.gems, FieldHistory(cfg, events));
    MayRequestIffConsidered(cfg, events, c, now);
    CollectableIff(cfg, s, c.id, item);
  }

  lemma MayRequestIffConsidered(cfg: HubConfig, events: seq<Event>, c: Client, now: Time)
    requires cfg.Sound()
    ensures Considered(Run(cfg, events), c, now) <==> MayRequest(cfg, events, c, now)
  {
    hide Run, LastRequest, JoinedSynthetic;
    SyntheticJoined(cfg, events, c.id);
    CooldownCounts(cfg, events, c.id);
  }

  lemma CollectableIff(cfg: HubConfig, s: HubState, p: PlayerId, item: CollectibleId)
    requires Gems.FieldOk(cfg.gems, s.field)
    ensures Collectable(cfg, s, p, item) <==>
      && cfg.collecting
      && item in s.field.items
      && p in s.visible && item in s.visible[p]
      && p in s.world.players
      && WithinReach(cfg, s.world.players[p].at, s.field.items[item])
  {
    hide Gems.FieldOk, Square, DistanceSquared;
    if item in s.field.items {
      GemLaws.ItemsAreNumbered(cfg.gems, s.field, item);
      if p in s.world.players {
        LocalGap(cfg, s.world.players[p].at, LatLng(s.field.items[item].lat, s.field.items[item].lng));
      }
    }
  }

  lemma CollectStep(cfg: HubConfig, s: HubState, c: Client, item: CollectibleId, now: Time, pick: nat)
    requires cfg.Sound()
    ensures Step(cfg, s, Collect(c, item, now, pick)) == AfterCollect(cfg, s, c, item, now, pick)
  {
    hide AfterCollect;
  }

  lemma LocalGap(cfg: HubConfig, a: LatLng, b: LatLng)
    ensures var dx := (a.lng - b.lng) * cfg.aoi.metersPerDegreeLng;
      var dy := (a.lat - b.lat) * 111320.0;
      && DistanceSquared(cfg.aoi.ToLocal(a.lat, a.lng), cfg.aoi.ToLocal(b.lat, b.lng)) == dx * dx + dy * dy
      && Square(REACH) == 400.0
  {
    var dx := (a.lng - b.lng) * cfg.aoi.metersPerDegreeLng;
    assert cfg.aoi.ToLocal(a.lat, a.lng).x - cfg.aoi.ToLocal(b.lat, b.lng).x == dx;
  }
}

// What a browser shows of the collectibles, step by step.
module HubScreenLaws {
  import opened Common
  import opened Sequences
  import opened SetMaps
  import opened HubModel
  import opened HubInvariant
  import opened HubLaws
  import opened HubViews
  import opened HubShown
  import opened HubCollects
  import Gems = CollectibleModel
  import GemLaws = CollectibleLaws
  import Grid

  // An item made by this broadcast in one of the nine cells around q, where the
  // index then has it.
  ghost predicate Fresh(cfg: HubConfig, s: HubState, t: HubState, q: PlayerId, id: CollectibleId) {
    && id in t.field.items && id >= s.field.nextID && q in t.aoi.players
    && var item := t.field.items[id];
       Grid.Adjacent(cfg.aoi.CellOf(cfg.aoi.ToLocal(item.lat, item.lng)), t.aoi.players[q].cell)
  }

  // Held to be seen once the new items are there.
  ghost predicate Held(cfg: HubConfig, s: HubState, t: HubState, q: PlayerId, id: CollectibleId) {
    q in s.visible && (id in s.visible[q] || Fresh(cfg, s, t, q, id))
  }

  // What a broadcast leaves on q's screen and in its view.
  ghost predicate ScreenIs(cfg: HubConfig, s: HubState, t: HubState, moved: bool, q: PlayerId, id: CollectibleId)
    requires q in s.world.players && q in s.shown && q in t.shown
  {
    var at := s.world.players[q].at;
    var near, around := InView(cfg, t.field, at, 500.0), InView(cfg, t.field, at, 600.0);
    && (id in t.shown[q] <==>
          && (id in s.shown[q] || Fresh(cfg, s, t, q, id) || (moved && id in near && !Held(cfg, s, t, q, id)))
          && !(moved && Held(cfg, s, t, q, id) && id !in around)
          && id !in Lookup(s.outbox.collected, q))
    && (id in Lookup(t.visible, q) <==> if moved then id in near else Held(cfg, s, t, q, id))
  }

  // Over every run: a broadcast adds to a connected player's screen the new
  // items around it and, if it has moved, what is within 500 m of it and was not
  // held to be seen; it takes off what was collected and, if the player has
  // moved, what was held to be seen and is not within 600 m; and leaves all else
  // on it as it was. A player that has moved is then held to see what is within
  // 500 m, any other what it was, and the new items if it saw any at all.
  lemma ScreenAfterBroadcast(cfg: HubConfig, events: seq<Event>, order: seq<PlayerId>, now: Time, q: PlayerId,
                             id: CollectibleId)
    requires cfg.Sound() && cfg.collecting && Possible(Run(cfg, events), Broadcast(order, now))
    requires q in Run(cfg, events).clients
    ensures var s, t := Run(cfg, events), Run(cfg, events + [Broadcast(order, now)]);
      && q in s.world.players && q in s.shown && q in t.shown
      && ScreenIs(cfg, s, t, q in s.world.moved, q, id)
  {
    hide Run, HubOk, Gems.FieldOk, ScreenIs, Broadcasted, ShownBut, Ascending, OnlyWhenCollecting;
    var s := Run(cfg, events);
    RunKeeps(cfg, events);
    RunShown(cfg, events);
    RunExtends(cfg, events, Broadcast(order, now));
    FieldRefines(cfg, events);
    Gems.RunKeeps(cfg.gems, FieldHistory(cfg, events));
    BroadcastScreen(cfg, s, order, now, q, id);
  }

  lemma BroadcastScreen(cfg: HubConfig, s: HubState, order: seq<PlayerId>, now: Time, q: PlayerId, id: CollectibleId)
    requires cfg.Sound() && cfg.collecting && HubOk(cfg, s) && ShownOk(s) && q in s.clients
    requires Ascending(order) && ToSet(order) == s.world.moved
    ensures var t := Broadcasted(cfg, s, order, now);
      && q in s.world.players && q in s.shown && q in t.shown
      && ScreenIs(cfg, s, t, q in s.world.moved, q, id)
  {
    hide HubOk, MovedAll, Gathered, SpawnedNear, InView, Fresh, Delivered;
    ConnectedIsKnown(cfg, s, q);
    var moved := MovedAll(cfg, s.(world := s.world.(moved := {}, removed := {})), order);
    var g := Gathered(cfg, s, order, now);
    GatherTells(cfg, s, order, now, q);
    DeliveredTo(g, q);
    FreshIsSpawned(cfg, s, moved, Broadcasted(cfg, s, order, now), g.field, q, id);
  }

  lemma DeliveredTo(g: HubState, q: PlayerId)
    requires q in g.clients && q in g.shown
    ensures var t := Delivered(g);
      && q in t.shown && t.shown[q] == ShownAfter(g, q)
      && t.field == g.field && t.aoi == g.aoi && t.visible == g.visible
  {
    hide ShownAfter;
  }

  // What gathering puts into q's lists: news are the new items around it.
  lemma GatherTells(cfg: HubConfig, s: HubState, order: seq<PlayerId>, now: Time, q: PlayerId)
    requires cfg.Sound() && cfg.collecting && HubOk(cfg, s) && ShownOk(s) && q in s.clients && q in s.world.players
    requires Ascending(order) && ToSet(order) == s.world.moved
    ensures var moved := MovedAll(cfg, s.(world := s.world.(moved := {}, removed := {})), order);
      var g, at := Gathered(cfg, s, order, now), s.world.players[q].at;
      var news := SpawnedNear(cfg, moved, g.field, q);
      var held := if q in s.visible then s.visible[q] + news else {};
      var near, around := InView(cfg, g.field, at, VIEW), InView(cfg, g.field, at, OUT_OF_VIEW);
      var tells := q in s.world.moved;
      && g.aoi == moved.aoi && moved.field == s.field && g.shown == s.shown && g.clients == s.clients
      && Lookup(g.outbox.spawned, q) == news && Lookup(g.outbox.collected, q) == Lookup(s.outbox.collected, q)
      && Lookup(g.outbox.entered, q) == (if tells then near - held else {})
      && Lookup(g.outbox.left, q) == (if tells then held - around else {})
      && Lookup(g.visible, q) == if tells then near else held
  {
    hide HubOk, Gems.FieldOk, MovedAll, SpawnsSeen, ViewsRecalculated, Gems.Advanced, InView, SpawnedNear,
      ViewRecalculated;
    var f := Gems.Advanced(cfg.gems, s.field, now);
    SpawnsKeep(cfg, s, order, now);
    var moved := MovedAll(cfg, s.(world := s.world.(moved := {}, removed := {})), order);
    var mid := SpawnsSeen(cfg, moved, f);
    SpawnedExactly(cfg, moved, f, q);
    RecalculatedViews(cfg, mid, order, q);
    RecalculatedLists(cfg, mid, order, q);
    ViewsRecalculatedKeeps(cfg, mid, order);
    assert q in order <==> q in ToSet(order);
  }

  lemma ConnectedIsKnown(cfg: HubConfig, s: HubState, q: PlayerId)
    requires HubOk(cfg, s) && q in s.clients
    ensures q in s.world.players
  {
  }

  lemma SpawnedExactly(cfg: HubConfig, s: HubState, field: Gems.Field, q: PlayerId)
    requires OnlyCollected(s) && q in s.clients
    ensures var t := SpawnsSeen(cfg, s, field);
      && Lookup(t.outbox.spawned, q) == SpawnedNear(cfg, s, field, q)
      && t.outbox == s.outbox.(spawned := t.outbox.spawned)
      && t.aoi == s.aoi
      && Lookup(t.visible, q) == if q in s.visible then s.visible[q] + SpawnedNear(cfg, s, field, q) else {}
  {
    hide SpawnedNear;
  }

  lemma FreshIsSpawned(cfg: HubConfig, s: HubState, moved: HubState, g: HubState, field: Gems.Field, q: PlayerId,
                       id: CollectibleId)
    requires g.field == field && g.aoi == moved.aoi && moved.field == s.field
    ensures Fresh(cfg, s, g, q, id) <==> id in SpawnedNear(cfg, moved, field, q)
  {
  }

  // Over every run, when a request is granted the item is taken from the view
  // of, and waits to be told to, exactly the connected players that the index
  // has in the nine cells around it.
  lemma CollectingIsTold(cfg: HubConfig, events: seq<Event>, c: Client, item: CollectibleId, now: Time, pick: nat,
                         q: PlayerId)
    requires cfg.Sound() && Granted(cfg, events, c, item, now) && q in Run(cfg, events).clients
    ensures var s, t := Run(cfg, events), Run(cfg, events + [Collect(c, item, now, pick)]);
      var gem := s.field.items[item];
      var near := q in s.aoi.players
               && Grid.Adjacent(cfg.aoi.CellOf(cfg.aoi.ToLocal(gem.lat, gem.lng)), s.aoi.players[q].cell);
      && Lookup(t.outbox.collected, q) == Lookup(s.outbox.collected, q) + (if near then {item} else {})
      && Lookup(t.visible, q) == Lookup(s.visible, q) - (if near then {item} else {})
      && t.shown == s.shown && t.clients == s.clients
  {
    hide Run, HubOk, Gems.FieldOk, AfterCollect, Considered, Collectable, Granted, Won;
    var s := Run(cfg, events);
    RunExtends(cfg, events, Collect(c, item, now, pick));
    CollectStep(cfg, s, c, item, now, pick);
    WinsIffGranted(cfg, events, c, item, now);
    FieldRefines(cfg, events);
    Gems.RunKeeps(cfg.gems, FieldHistory(cfg, events));
    CollectableItem(cfg, s, c.id, item);
    GemLaws.ItemsAreNumbered(cfg.gems, s.field, item);
    var cooling := s.(cooldowns := s.cooldowns[c.id := now]);
    WinningCollects(cfg, s, c, item, now, pick);
    WonTells(cfg, cooling, c.id, item, now, pick, q);
  }

  lemma WinningCollects(cfg: HubConfig, s: HubState, c: Client, item: CollectibleId, now: Time, pick: nat)
    requires cfg.Sound() && Wins(cfg, s, c, item, now)
    ensures item in s.field.items
    ensures AfterCollect(cfg, s, c, item, now, pick)
         == Won(cfg, s.(cooldowns := s.cooldowns[c.id := now]), c.id, item, now, pick)
  {
    hide Considered, Won;
  }

  lemma WonTells(cfg: HubConfig, s: HubState, p: PlayerId, item: CollectibleId, now: Time, pick: nat, q: PlayerId)
    requires cfg.Sound() && item in s.field.items && s.field.items[item].id == item && q in s.clients
    ensures var t := Won(cfg, s, p, item, now, pick);
      var near := if NearIndexed(cfg, s, q, s.field.items[item]) then {item} else {};
      && Lookup(t.outbox.collected, q) == Lookup(s.outbox.collected, q) + near
      && Lookup(t.visible, q) == Lookup(s.visible, q) - near
      && t.shown == s.shown && t.clients == s.clients
  {
    hide Gems.Collected, NearIndexed, Number;
  }
}

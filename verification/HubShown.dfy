// A browser that has been sent everything shows every collectible that its
// player could be given.
module HubShown {
  import opened Common
  import opened Geometry
  import opened Sequences
  import opened SetMaps
  import opened World
  import opened HubModel
  import opened HubInvariant
  import opened HubLaws
  import opened HubViews
  import Aoi = AoiModel
  import Gems = CollectibleModel
  import GemLaws = CollectibleLaws
  import Messages

  // Collected items still to be told about are gone for good, and not held to
  // be seen by those that will be told.
  ghost predicate CollectedOk(s: HubState) {
    forall q, id | q in s.outbox.collected && id in s.outbox.collected[q] :: GoneFor(s, q, id)
  }

  ghost predicate GoneFor(s: HubState, q: PlayerId, id: CollectibleId) {
    id < s.field.nextID && id !in s.field.items && id !in Lookup(s.visible, q)
  }

  // Fewer are waiting, and no more is seen by those that are.
  lemma CollectedKeeps(s: HubState, t: HubState)
    requires CollectedOk(s) && t.field == s.field
    requires forall q | q in t.outbox.collected ::
               q in s.outbox.collected && t.outbox.collected[q] == s.outbox.collected[q]
               && Lookup(t.visible, q) <= Lookup(s.visible, q)
    ensures CollectedOk(t)
  {
    forall q, id | q in t.outbox.collected && id in t.outbox.collected[q]
      ensures GoneFor(t, q, id)
    {
      assert GoneFor(s, q, id);
    }
  }

  ghost predicate ShowsAll(s: HubState) {
    forall q | q in s.visible :: q in s.shown && s.visible[q] <= s.shown[q]
  }

  // Between steps nothing else is waiting to be told about collectibles.
  ghost predicate OnlyCollected(s: HubState) {
    s.outbox.entered == map[] && s.outbox.left == map[] && s.outbox.spawned == map[]
  }

  // With an exception for a player that is just being initialised.
  ghost predicate ShownBut(s: HubState, starting: set<PlayerId>) {
    && s.shown.Keys <= s.clients.Keys <= s.shown.Keys + starting
    && ShowsAll(s) && CollectedOk(s) && OnlyCollected(s)
  }

  ghost predicate ShownOk(s: HubState) {
    ShownBut(s, {})
  }

  lemma GoneShown(cfg: HubConfig, s: HubState, c: Client)
    requires ShownBut(s, {c.id}) && IsCurrent(s.clients, c)
    ensures ShownOk(Gone(cfg, s, c))
  {
    hide FinalSubmitted, Aoi.Removed, LeftFor, WithoutPlayer;
    GoneKeepsField(cfg, s, c);
    GoneLists(cfg, s, c);
    hide Gone;
    var t := Gone(cfg, s, c);
    assert ShowsAll(t);
    CollectedKeeps(s, t);
  }

  lemma GoneLists(cfg: HubConfig, s: HubState, c: Client)
    requires IsCurrent(s.clients, c)
    ensures var t := Gone(cfg, s, c);
      && t.clients == s.clients - {c.id} && t.shown == s.shown - {c.id}
      && t.visible == s.visible - {c.id} && t.outbox == s.outbox.Without(c.id)
  {
    hide Aoi.Removed, LeftFor, WithoutPlayer;
  }

  // The opening messages replace whatever the browser showed.
  lemma InitialisedShown(cfg: HubConfig, s: HubState, c: Client, sent: bool)
    requires ShownBut(s, {c.id}) && IsCurrent(s.clients, c) && c.id !in s.outbox.collected && c.id !in s.visible
    ensures ShownOk(Initialised(cfg, s, c, sent))
  {
    hide Gone, InView;
    GoneShown(cfg, s, c);
    var t := Initialised(cfg, s, c, sent);
    if c.id in s.world.players && sent {
      assert ShowsAll(t);
      CollectedKeeps(s, t);
    }
  }

  lemma AttachedShown(s: HubState, c: Client)
    requires ShownOk(s)
    ensures var t := Attached(s, c);
      ShownBut(t, {c.id}) && IsCurrent(t.clients, c) && c.id !in t.outbox.collected && c.id !in t.visible
  {
    AttachedLists(s, c);
    hide Attached;
    var t := Attached(s, c);
    assert ShowsAll(t);
    CollectedKeeps(s, t);
  }

  lemma AttachedLists(s: HubState, c: Client)
    ensures var t := Attached(s, c);
      && t.clients == s.clients[c.id := c] && t.shown == s.shown && t.field == s.field
      && t.visible == s.visible - {c.id} && t.outbox == s.outbox.Without(c.id)
  {
  }

  // Nothing about collectibles differs.
  ghost predicate SameGems(s: HubState, t: HubState) {
    && t.shown == s.shown && t.visible == s.visible && t.field == s.field && t.clients == s.clients
    && t.outbox.entered == s.outbox.entered && t.outbox.left == s.outbox.left
    && t.outbox.spawned == s.outbox.spawned && t.outbox.collected == s.outbox.collected
  }

  lemma SameGemsShown(s: HubState, t: HubState)
    requires ShownOk(s) && SameGems(s, t)
    ensures ShownOk(t)
  {
    CollectedKeeps(s, t);
  }

  lemma JoinedGems(cfg: HubConfig, s: HubState, c: Client, saved: Option<Saved>)
    ensures SameGems(s, Joined(cfg, s, c, saved))
  {
    hide Joined;
    JoinedFrame(cfg, s, c, saved);
  }

  lemma RegisteredShown(cfg: HubConfig, s: HubState, c: Client, saved: Option<Saved>, sent: bool)
    requires ShownOk(s)
    ensures ShownOk(Registered(cfg, s, c, saved, sent))
  {
    hide Joined, Attached, Initialised, WithInputReset, ShownBut;
    if c.id in s.clients && s.clients[c.id] != c {
      var t := s.(world := WithInputReset(s.world, c.id));
      SameGemsShown(s, t);
      AttachedShown(t, c);
      InitialisedShown(cfg, Attached(t, c), c, sent);
    } else if c.id in s.world.players {
      AttachedShown(s, c);
      InitialisedShown(cfg, Attached(s, c), c, sent);
    } else {
      JoinedGems(cfg, s, c, saved);
      SameGemsShown(s, Joined(cfg, s, c, saved));
      AttachedShown(Joined(cfg, s, c, saved), c);
      InitialisedShown(cfg, Attached(Joined(cfg, s, c, saved), c), c, sent);
    }
  }

  lemma WonLists(cfg: HubConfig, s: HubState, p: PlayerId, item: CollectibleId, now: Time, pick: nat)
    requires cfg.Sound() && item in s.field.items
    ensures var t := Won(cfg, s, p, item, now, pick);
      var c := s.field.items[item];
      && t.shown == s.shown && t.clients == s.clients && t.outbox == s.outbox.(collected := t.outbox.collected)
      && t.field == Gems.Collected(cfg.gems, s.field, item, now, pick)
      && t.visible.Keys == s.visible.Keys
      && (forall q | q in s.visible ::
            t.visible[q] == if q in s.clients && NearIndexed(cfg, s, q, c) then s.visible[q] - {c.id} else s.visible[q])
      && (forall q | q in t.outbox.collected ::
            t.outbox.collected[q]
              == Lookup(s.outbox.collected, q) + if q in s.clients && NearIndexed(cfg, s, q, c) then {item} else {})
  {
    hide Gems.Collected, NearIndexed;
  }

  lemma AfterCollectShown(cfg: HubConfig, s: HubState, c: Client, item: CollectibleId, now: Time, pick: nat)
    requires cfg.Sound() && Gems.FieldOk(cfg.gems, s.field) && ShownOk(s)
    ensures ShownOk(AfterCollect(cfg, s, c, item, now, pick))
  {
    hide Gems.FieldOk, Won, Collectable, Considered, ShownBut, Gems.Collected;
    if Considered(s, c, now) {
      var mid := s.(cooldowns := s.cooldowns[c.id := now]);
      SameGemsShown(s, mid);
      if Collectable(cfg, s, c.id, item) {
        CollectableItem(cfg, s, c.id, item);
        WonShown(cfg, mid, c.id, item, now, pick);
      }
    }
  }

  lemma WonShown(cfg: HubConfig, s: HubState, p: PlayerId, item: CollectibleId, now: Time, pick: nat)
    requires cfg.Sound() && Gems.FieldOk(cfg.gems, s.field) && item in s.field.items && ShownOk(s)
    ensures ShownOk(Won(cfg, s, p, item, now, pick))
  {
    hide Gems.FieldOk, Won, NearIndexed, Gems.Collected, CollectedOk;
    WonCollected(cfg, s, p, item, now, pick);
    WonLists(cfg, s, p, item, now, pick);
    assert ShowsAll(Won(cfg, s, p, item, now, pick));
  }

  lemma WonCollected(cfg: HubConfig, s: HubState, p: PlayerId, item: CollectibleId, now: Time, pick: nat)
    requires cfg.Sound() && Gems.FieldOk(cfg.gems, s.field) && item in s.field.items && CollectedOk(s)
    ensures CollectedOk(Won(cfg, s, p, item, now, pick))
  {
    hide Gems.FieldOk, Won, NearIndexed, Gems.Collected, GoneFor;
    var t := Won(cfg, s, p, item, now, pick);
    WonLists(cfg, s, p, item, now, pick);
    forall q, id | q in t.outbox.collected && id in t.outbox.collected[q]
      ensures GoneFor(t, q, id)
    {
      WonGoneFor(cfg, s, p, item, now, pick, q, id);
    }
  }

  lemma WonGoneFor(cfg: HubConfig, s: HubState, p: PlayerId, item: CollectibleId, now: Time, pick: nat, q: PlayerId,
                   id: CollectibleId)
    requires cfg.Sound() && Gems.FieldOk(cfg.gems, s.field) && item in s.field.items && CollectedOk(s)
    requires var t := Won(cfg, s, p, item, now, pick); q in t.outbox.collected && id in t.outbox.collected[q]
    ensures GoneFor(Won(cfg, s, p, item, now, pick), q, id)
  {
    hide Gems.FieldOk, Won, NearIndexed, Gems.Collected;
    GemLaws.ItemsAreNumbered(cfg.gems, s.field, item);
    CollectedItems(cfg, s.field, item, now, pick);
    WonLists(cfg, s, p, item, now, pick);
    assert id in Lookup(s.outbox.collected, q) ==> GoneFor(s, q, id);
  }

  // ------------------------------------------------------------------
  // Broadcasting
  // ------------------------------------------------------------------

  // The outbox and the view of a player after the views of the listed players
  // have been recalculated.
  lemma {:induction false} RecalculatedLists(cfg: HubConfig, s: HubState, order: seq<PlayerId>, q: PlayerId)
    requires NoDuplicates(order) && q !in s.outbox.entered && q !in s.outbox.left
    ensures ToldOf(cfg, s, ViewsRecalculated(cfg, s, order), q, q in order && q in s.clients && q in s.world.players)
  {
    if order != [] {
      hide ToldOf, ViewRecalculated;
      var front, last := order[..|order| - 1], order[|order| - 1];
      assert order == front + [last];
      RecalculatedLists(cfg, s, front, q);
      RecalculatedViews(cfg, s, front, q);
      ViewsRecalculatedKeeps(cfg, s, front);
      assert q == last ==> q !in front;
      ToldOneMore(cfg, s, ViewsRecalculated(cfg, s, front), q, last,
                  q in front && q in s.clients && q in s.world.players);
    } else {
      ToldNothing(cfg, s, q);
    }
  }

  // What the outbox tells q of its view is what changed in it, if anything.
  ghost predicate ToldOf(cfg: HubConfig, s: HubState, t: HubState, q: PlayerId, recalculated: bool) {
    && t.outbox == s.outbox.(entered := t.outbox.entered, left := t.outbox.left)
    && (if recalculated then
          && q in s.world.players
          && Lookup(t.outbox.entered, q) == ComesIntoView(cfg, s, q)
          && Lookup(t.outbox.left, q) == OutOfView(cfg, s, q)
        else
          q !in t.outbox.entered && q !in t.outbox.left)
  }

  lemma ToldNothing(cfg: HubConfig, s: HubState, q: PlayerId)
    requires q !in s.outbox.entered && q !in s.outbox.left
    ensures ToldOf(cfg, s, s, q, false)
  {
  }

  lemma ToldOneMore(cfg: HubConfig, s: HubState, mid: HubState, q: PlayerId, last: PlayerId, recalculated: bool)
    requires ToldOf(cfg, s, mid, q, recalculated) && SameButViews(s, mid)
    requires q == last ==> !recalculated && Lookup(mid.visible, q) == Lookup(s.visible, q)
    ensures ToldOf(cfg, s, ViewRecalculated(cfg, mid, last), q,
                   recalculated || (q == last && q in s.clients && q in s.world.players))
  {
    hide ComesIntoView, OutOfView, InView, ViewRecalculated;
    RecalculatedOne(cfg, mid, last);
    if q == last && q in s.world.players {
      SameSights(cfg, s, mid, q);
    }
  }

  lemma RecalculatedOne(cfg: HubConfig, s: HubState, p: PlayerId)
    ensures var t := ViewRecalculated(cfg, s, p);
      if p in s.clients && p in s.world.players then
        t.outbox == s.outbox.(entered := PutMore(s.outbox.entered, p, ComesIntoView(cfg, s, p)),
                              left := PutMore(s.outbox.left, p, OutOfView(cfg, s, p)))
      else t == s
  {
    hide ComesIntoView, OutOfView, InView, PutMore;
  }

  lemma SameSights(cfg: HubConfig, s: HubState, t: HubState, q: PlayerId)
    requires q in s.world.players && t.world == s.world
    requires t.field == s.field && Lookup(t.visible, q) == Lookup(s.visible, q)
    ensures ComesIntoView(cfg, t, q) == ComesIntoView(cfg, s, q) && OutOfView(cfg, t, q) == OutOfView(cfg, s, q)
  {
    hide InView;
  }

  // What a player's browser is told, once the moves and respawns are in: mid is
  // the state between the respawns and the recalculation.
  lemma SpawnedLists(cfg: HubConfig, s: HubState, field: Gems.Field, q: PlayerId)
    requires OnlyCollected(s) && q in s.clients
    ensures var t := SpawnsSeen(cfg, s, field);
      && Lookup(t.outbox.spawned, q) == SpawnedNear(cfg, s, field, q)
      && t.outbox == s.outbox.(spawned := t.outbox.spawned)
      && Lookup(t.visible, q) <= Lookup(s.visible, q) + SpawnedNear(cfg, s, field, q)
      && Lookup(s.visible, q) <= Lookup(t.visible, q)
  {
    hide SpawnedNear;
  }

  lemma ViewWithinOutOfView(cfg: HubConfig, field: Gems.Field, at: LatLng)
    ensures InView(cfg, field, at, VIEW) <= InView(cfg, field, at, OUT_OF_VIEW)
  {
    SquareMonotone(VIEW, OUT_OF_VIEW);
    forall id | id in InView(cfg, field, at, VIEW)
      ensures id in InView(cfg, field, at, OUT_OF_VIEW)
    {
      assert Gems.Within(cfg.gems.cfg, at, field.items[id], VIEW);
    }
  }

  // A player that is connected is shown, after the broadcast, all the hub
  // holds it to see.
  lemma BroadcastShows(cfg: HubConfig, s: HubState, order: seq<PlayerId>, now: Time, q: PlayerId)
    requires cfg.Sound() && cfg.collecting && HubOk(cfg, s) && Gems.FieldOk(cfg.gems, s.field) && ShownOk(s)
    requires Ascending(order) && ToSet(order) == s.world.moved
    ensures var g := Gathered(cfg, s, order, now);
      q in g.visible ==> q in s.clients && q in s.shown && g.visible[q] <= ShownAfter(g, q)
  {
    hide HubOk, Gems.FieldOk, MovedAll, SpawnsSeen, ViewsRecalculated, Gems.Advanced, InView, SpawnedNear,
      ViewRecalculated;
    var f := Gems.Advanced(cfg.gems, s.field, now);
    SpawnsKeep(cfg, s, order, now);
    var moved := MovedAll(cfg, s.(world := s.world.(moved := {}, removed := {})), order);
    var mid := SpawnsSeen(cfg, moved, f);
    RecalculatedViews(cfg, mid, order, q);
    ViewsRecalculatedKeeps(cfg, mid, order);
    var g := Gathered(cfg, s, order, now);
    if q in g.visible {
      assert q in s.clients;
      SpawnedLists(cfg, moved, f, q);
      RecalculatedLists(cfg, mid, order, q);
      forall id | id in g.visible[q]
        ensures id in ShownAfter(g, q)
      {
        if q in order {
          assert q in ToSet(order) && q in mid.world.players by { MovedAreKnown(cfg, s); }
          ViewIsLive(cfg, mid.field, mid.world.players[q].at, id);
          ViewWithinOutOfView(cfg, mid.field, mid.world.players[q].at);
        } else if id in SpawnedNear(cfg, moved, f, q) {
          SpawnedNearIsNew(cfg, moved, f, q, id);
        }
        CollectedStayGone(cfg, s, now, q, id);
      }
    }
  }

  lemma MovedAreKnown(cfg: HubConfig, s: HubState)
    requires HubOk(cfg, s)
    ensures s.world.moved <= s.world.players.Keys
  {
  }

  lemma ViewIsLive(cfg: HubConfig, field: Gems.Field, at: LatLng, id: CollectibleId)
    requires id in InView(cfg, field, at, VIEW)
    ensures id in field.items
  {
  }

  lemma SpawnedNearIsNew(cfg: HubConfig, s: HubState, field: Gems.Field, q: PlayerId, id: CollectibleId)
    requires id in SpawnedNear(cfg, s, field, q)
    ensures id in field.items
  {
  }

  lemma CollectedStayGone(cfg: HubConfig, s: HubState, now: Time, q: PlayerId, id: CollectibleId)
    requires Gems.FieldOk(cfg.gems, s.field) && CollectedOk(s)
    requires id in Gems.Advanced(cfg.gems, s.field, now).items || id in Lookup(s.visible, q)
    ensures id !in Lookup(s.outbox.collected, q)
  {
    hide Gems.FieldOk, Gems.Advanced;
    GemLaws.AdvanceIsExact(cfg.gems, s.field, now);
    assert id in Lookup(s.outbox.collected, q) ==> GoneFor(s, q, id);
  }

  lemma SpawnsKeep(cfg: HubConfig, s: HubState, order: seq<PlayerId>, now: Time)
    requires HubOk(cfg, s)
    ensures var moved := MovedAll(cfg, s.(world := s.world.(moved := {}, removed := {})), order);
      var mid := SpawnsSeen(cfg, moved, Gems.Advanced(cfg.gems, s.field, now));
      && moved.visible == s.visible && moved.field == s.field && moved.clients == s.clients
      && moved.outbox == s.outbox && moved.shown == s.shown
      && mid.clients == s.clients && mid.world.players == s.world.players && mid.shown == s.shown
      && mid.field == Gems.Advanced(cfg.gems, s.field, now) && mid.visible.Keys == s.visible.Keys
      && s.visible.Keys <= s.clients.Keys
  {
    hide MovedAll, Aoi.Invariant, IndexAgrees, Gems.Advanced, SpawnedNear, Recorded;
    var taken := s.(world := s.world.(moved := {}, removed := {}));
    SameAgreement(s, taken, s.world.moved);
    MovedAllKeeps(cfg, taken, order, s.world.moved);
  }

  lemma GatheredWithoutField(cfg: HubConfig, s: HubState, order: seq<PlayerId>, now: Time)
    requires HubOk(cfg, s) && !cfg.collecting
    ensures var g := Gathered(cfg, s, order, now);
      g.outbox == s.outbox && g.visible == s.visible && g.shown == s.shown
  {
    hide MovedAll, Aoi.Invariant, IndexAgrees, Recorded;
    var taken := s.(world := s.world.(moved := {}, removed := {}));
    SameAgreement(s, taken, s.world.moved);
    MovedAllKeeps(cfg, taken, order, s.world.moved);
  }

  lemma BroadcastedShown(cfg: HubConfig, s: HubState, order: seq<PlayerId>, now: Time)
    requires cfg.Sound() && HubOk(cfg, s) && Gems.FieldOk(cfg.gems, s.field) && ShownOk(s) && OnlyWhenCollecting(cfg, s)
    requires Ascending(order) && ToSet(order) == s.world.moved
    ensures ShownOk(Broadcasted(cfg, s, order, now))
  {
    hide HubOk, Gems.FieldOk, Gathered, ShownAfter;
    var g, t := Gathered(cfg, s, order, now), Broadcasted(cfg, s, order, now);
    GatheredLists(cfg, s, order, now);
    forall q | q in t.visible
      ensures q in t.shown && t.visible[q] <= t.shown[q]
    {
      if cfg.collecting {
        BroadcastShows(cfg, s, order, now, q);
      } else {
        GatheredWithoutField(cfg, s, order, now);
      }
    }
    assert CollectedOk(t);
  }

  lemma GatheredLists(cfg: HubConfig, s: HubState, order: seq<PlayerId>, now: Time)
    requires HubOk(cfg, s) && ToSet(order) == s.world.moved
    ensures var g := Gathered(cfg, s, order, now); g.shown == s.shown && g.clients == s.clients
  {
    hide Aoi.Invariant, Gathered, Recorded;
    GatheredKeeps(cfg, s, order, now);
  }

  // ------------------------------------------------------------------
  // Over every run
  // ------------------------------------------------------------------

  lemma InputKeepsGems(s: HubState, c: Client, input: InputState)
    ensures SameGems(s, GivenInput(s, c, input))
  {
    hide WithInput;
  }

  lemma DressedKeepsGems(s: HubState, p: PlayerId, appearance: Messages.Appearance)
    ensures SameGems(s, Dressed(s, p, appearance))
  {
    hide Dressed, WithAppearance, ChangesLook;
    DressedFrame(s, p, appearance);
  }

  lemma SimulatedKeepsGems(s: HubState, places: PlayerId -> LatLng)
    ensures SameGems(s, Simulated(s, places))
  {
    hide Stepped, Movers;
  }

  lemma PersistedKeepsGems(cfg: HubConfig, s: HubState, order: seq<PlayerId>)
    ensures SameGems(s, Persisted(cfg, s, order))
  {
    hide SubmittedAll;
    SubmittedAllNumbers(s, order);
  }

  lemma StepShown(cfg: HubConfig, s: HubState, e: Event)
    requires cfg.Sound() && HubOk(cfg, s) && Gems.FieldOk(cfg.gems, s.field) && ShownOk(s) && OnlyWhenCollecting(cfg, s)
    ensures ShownOk(Step(cfg, s, e))
  {
    hide HubOk, ShownBut, Gone, Registered, GivenInput, Dressed, Simulated, Broadcasted, Persisted, AfterCollect,
      Gems.FieldOk, OnlyWhenCollecting;
    if Possible(s, e) {
      match e
      case Register(c, saved, sent) => RegisteredShown(cfg, s, c, saved, sent);
      case Unregister(c) => LeavingShown(cfg, s, c);
      case DisconnectUser(p) => if p in s.clients { LeavingShown(cfg, s, s.clients[p]); }
      case Input(c, input) =>
        InputKeepsGems(s, c, input);
        SameGemsShown(s, GivenInput(s, c, input));
      case UpdateAppearance(p, appearance) =>
        DressedKeepsGems(s, p, appearance);
        SameGemsShown(s, Dressed(s, p, appearance));
      case Simulate(places) =>
        SimulatedKeepsGems(s, places);
        SameGemsShown(s, Simulated(s, places));
      case Broadcast(order, now) => BroadcastedShown(cfg, s, order, now);
      case Persist(order) =>
        PersistedKeepsGems(cfg, s, order);
        SameGemsShown(s, Persisted(cfg, s, order));
      case Collect(c, item, now, pick) => AfterCollectShown(cfg, s, c, item, now, pick);
    }
  }

  lemma LeavingShown(cfg: HubConfig, s: HubState, c: Client)
    requires ShownOk(s)
    ensures ShownOk(Gone(cfg, s, c))
  {
    hide Gone, ShowsAll, CollectedOk;
    if IsCurrent(s.clients, c) {
      GoneShown(cfg, s, c);
    } else {
      NotGone(cfg, s, c);
    }
  }

  lemma NotGone(cfg: HubConfig, s: HubState, c: Client)
    requires !IsCurrent(s.clients, c)
    ensures Gone(cfg, s, c) == s
  {
  }

  lemma {:induction false} RunShown(cfg: HubConfig, events: seq<Event>)
    requires cfg.Sound()
    ensures ShownOk(Run(cfg, events)) && OnlyWhenCollecting(cfg, Run(cfg, events))
  {
    if events != [] {
      hide HubOk, ShownBut, Step, Gems.FieldOk;
      var front, e := events[..|events| - 1], events[|events| - 1];
      RunShown(cfg, front);
      RunKeeps(cfg, front);
      FieldRefines(cfg, front);
      Gems.RunKeeps(cfg.gems, FieldHistory(cfg, front));
      StepShown(cfg, Run(cfg, front), e);
      StepOnlyWhenCollecting(cfg, Run(cfg, front), e);
    }
  }

  // Whatever a player could be given, its browser shows.
  lemma CollectableIsShown(cfg: HubConfig, events: seq<Event>, p: PlayerId, item: CollectibleId)
    requires cfg.Sound() && Collectable(cfg, Run(cfg, events), p, item)
    ensures p in Run(cfg, events).shown && item in Run(cfg, events).shown[p]
  {
    hide DistanceSquared, Square, Gems.FieldOk;
    RunShown(cfg, events);
    FieldRefines(cfg, events);
    Gems.RunKeeps(cfg.gems, FieldHistory(cfg, events));
    GemLaws.ItemsAreNumbered(cfg.gems, Run(cfg, events).field, item);
  }
}

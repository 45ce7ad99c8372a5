// What waits to be sent between two steps of the hub: nothing of items that
// come into view or appear, and only looks that players have.
module HubOutbox {
  import opened Common
  import opened Sequences
  import opened World
  import opened HubModel
  import opened HubInvariant
  import opened HubLaws
  import Aoi = AoiModel
  import Gems = CollectibleModel
  import Messages

  ghost predicate LooksOk(looks: map<PlayerId, Messages.Appearance>, w: WorldState) {
    forall p | p in looks :: p in w.players && looks[p] == w.players[p].appearance
  }

  ghost predicate OutboxOk(s: HubState) {
    s.outbox.entered == map[] && s.outbox.spawned == map[] && LooksOk(s.outbox.looks, s.world)
  }

  lemma WithoutNobody<K, V>(m: map<K, V>, k: K)
    requires m == map[]
    ensures m - {k} == map[]
  {
  }

  lemma LooksWithout(looks: map<PlayerId, Messages.Appearance>, w: WorldState, p: PlayerId)
    requires LooksOk(looks, w)
    ensures LooksOk(looks - {p}, w) && LooksOk(looks - {p}, WithoutPlayer(w, p))
  {
  }

  lemma OutboxWithout(outbox: Outbox, w: WorldState, p: PlayerId)
    requires outbox.entered == map[] && outbox.spawned == map[] && LooksOk(outbox.looks, w)
    ensures var t := outbox.Without(p);
      && t.entered == map[] && t.spawned == map[]
      && LooksOk(t.looks, w) && LooksOk(t.looks, WithoutPlayer(w, p))
  {
    WithoutNobody(outbox.entered, p);
    WithoutNobody(outbox.spawned, p);
    LooksWithout(outbox.looks, w, p);
  }

  lemma GoneOutbox(cfg: HubConfig, s: HubState, c: Client)
    requires OutboxOk(s)
    ensures OutboxOk(Gone(cfg, s, c))
  {
    hide Aoi.Removed, LeftFor, WithoutPlayer, FinalSubmitted, ScoreSynced, LooksOk;
    OutboxWithout(s.outbox, s.world, c.id);
  }

  lemma AttachedOutbox(s: HubState, c: Client)
    requires OutboxOk(s)
    ensures OutboxOk(Attached(s, c))
  {
    hide LooksOk;
    OutboxWithout(s.outbox, s.world, c.id);
  }

  lemma InitialisedOutbox(cfg: HubConfig, s: HubState, c: Client, sent: bool)
    requires OutboxOk(s)
    ensures OutboxOk(Initialised(cfg, s, c, sent))
  {
    hide Gone, InView, LooksOk;
    GoneOutbox(cfg, s, c);
  }

  lemma JoinedOutbox(cfg: HubConfig, s: HubState, c: Client, saved: Option<Saved>)
    requires OutboxOk(s) && c.id !in s.world.players
    ensures OutboxOk(Joined(cfg, s, c, saved))
  {
    hide Joined, StartAt, StartName, StartLook;
    JoinedFrame(cfg, s, c, saved);
    JoinedOutboxIs(cfg, s, c, saved);
  }

  lemma JoinedOutboxIs(cfg: HubConfig, s: HubState, c: Client, saved: Option<Saved>)
    ensures var t := Joined(cfg, s, c, saved);
      && t.outbox == s.outbox
      && t.world == WithPlayer(s.world, c.id, StartAt(cfg, saved), StartName(c, saved), StartLook(cfg, saved))
  {
    hide Joined, WithPlayer, StartAt, StartName, StartLook;
    JoinedFrame(cfg, s, c, saved);
  }

  lemma RegisteredOutbox(cfg: HubConfig, s: HubState, c: Client, saved: Option<Saved>, sent: bool)
    requires OutboxOk(s)
    ensures OutboxOk(Registered(cfg, s, c, saved, sent))
  {
    hide Joined, Attached, Initialised;
    var base := s;
    if c.id in s.clients && s.clients[c.id] != c {
      base := s.(world := WithInputReset(s.world, c.id));
    } else if c.id !in s.world.players {
      JoinedOutbox(cfg, s, c, saved);
      base := Joined(cfg, s, c, saved);
    }
    AttachedOutbox(base, c);
    InitialisedOutbox(cfg, Attached(base, c), c, sent);
  }

  lemma InputOutbox(s: HubState, c: Client, input: InputState)
    requires OutboxOk(s)
    ensures OutboxOk(GivenInput(s, c, input))
  {
  }

  lemma DressedOutbox(s: HubState, p: PlayerId, appearance: Messages.Appearance)
    requires OutboxOk(s)
    ensures OutboxOk(Dressed(s, p, appearance))
  {
  }

  lemma SimulatedOutbox(s: HubState, places: PlayerId -> LatLng)
    requires OutboxOk(s)
    ensures OutboxOk(Simulated(s, places))
  {
    hide Movers;
  }

  lemma PersistedOutbox(cfg: HubConfig, s: HubState, order: seq<PlayerId>)
    requires OutboxOk(s)
    ensures OutboxOk(Persisted(cfg, s, order))
  {
    hide SubmittedAll;
    SubmittedAllNumbers(s, order);
  }

  lemma BroadcastedOutbox(cfg: HubConfig, s: HubState, order: seq<PlayerId>, now: Time)
    ensures OutboxOk(Broadcasted(cfg, s, order, now))
  {
    hide Gathered, ShownAfter;
  }

  lemma AfterCollectOutbox(cfg: HubConfig, s: HubState, c: Client, item: CollectibleId, now: Time, pick: nat)
    requires cfg.Sound() && OutboxOk(s)
    ensures OutboxOk(AfterCollect(cfg, s, c, item, now, pick))
  {
    AfterCollectFrame(cfg, s, c, item, now, pick);
    hide Considered, Collectable, NearIndexed;
  }

  lemma StepOutbox(cfg: HubConfig, s: HubState, e: Event)
    requires cfg.Sound() && OutboxOk(s)
    ensures OutboxOk(Step(cfg, s, e))
  {
    hide OutboxOk, Gone, Registered, GivenInput, Dressed, Simulated, Broadcasted, Persisted, AfterCollect;
    if Possible(s, e) {
      match e
      case Register(c, saved, sent) => RegisteredOutbox(cfg, s, c, saved, sent);
      case Unregister(c) => GoneOutbox(cfg, s, c);
      case DisconnectUser(p) => if p in s.clients { GoneOutbox(cfg, s, s.clients[p]); }
      case Input(c, input) => InputOutbox(s, c, input);
      case UpdateAppearance(p, appearance) => DressedOutbox(s, p, appearance);
      case Simulate(places) => SimulatedOutbox(s, places);
      case Broadcast(order, now) => BroadcastedOutbox(cfg, s, order, now);
      case Persist(order) => PersistedOutbox(cfg, s, order);
      case Collect(c, item, now, pick) => AfterCollectOutbox(cfg, s, c, item, now, pick);
    }
  }

  lemma {:induction false} RunOutbox(cfg: HubConfig, events: seq<Event>)
    requires cfg.Sound()
    ensures OutboxOk(Run(cfg, events))
  {
    hide Step;
    if events != [] {
      var front := events[..|events| - 1];
      RunOutbox(cfg, front);
      StepOutbox(cfg, Run(cfg, front), events[|events| - 1]);
    }
  }

  // ------------------------------------------------------------------
  // Which looks wait
  // ------------------------------------------------------------------

  // p's look has changed since it last registered and since the last broadcast.
  ghost predicate LookIsNew(cfg: HubConfig, events: seq<Event>, p: PlayerId)
    requires cfg.Sound()
  {
    && events != []
    && var front, e := events[..|events| - 1], events[|events| - 1];
       var s := Run(cfg, front);
       match e
       case UpdateAppearance(who, look) =>
         LookIsNew(cfg, front, p)
         || (who == p && p in s.world.players && look != s.world.players[p].appearance)
       case Register(c, _, _) => c.id != p && LookIsNew(cfg, front, p)
       case Unregister(c) => !(c.id == p && p in s.clients && s.clients[p] == c) && LookIsNew(cfg, front, p)
       case DisconnectUser(who) => !(who == p && p in s.clients) && LookIsNew(cfg, front, p)
       case Broadcast(order, _) => !Possible(s, e) && LookIsNew(cfg, front, p)
       case _ => LookIsNew(cfg, front, p)
  }

  lemma GoneLooks(cfg: HubConfig, s: HubState, c: Client)
    ensures Gone(cfg, s, c).outbox.looks == if IsCurrent(s.clients, c) then s.outbox.looks - {c.id} else s.outbox.looks
  {
    hide Aoi.Removed, LeftFor, WithoutPlayer, FinalSubmitted, ScoreSynced;
  }

  lemma RegisteredLooks(cfg: HubConfig, s: HubState, c: Client, saved: Option<Saved>, sent: bool)
    ensures Registered(cfg, s, c, saved, sent).outbox.looks == s.outbox.looks - {c.id}
  {
    hide Joined, Attached, Gone, InView, WithInputReset;
    var base := s;
    if c.id in s.clients && s.clients[c.id] != c {
      base := s.(world := WithInputReset(s.world, c.id));
    } else if c.id !in s.world.players {
      base := Joined(cfg, s, c, saved);
      JoinedOutboxIs(cfg, s, c, saved);
    }
    AttachedLooks(base, c);
    GoneLooks(cfg, Attached(base, c), c);
    assert s.outbox.looks - {c.id} - {c.id} == s.outbox.looks - {c.id};
  }

  lemma AttachedLooks(s: HubState, c: Client)
    ensures Attached(s, c).outbox.looks == s.outbox.looks - {c.id}
  {
  }

  lemma DressedLooks(s: HubState, p: PlayerId, look: Messages.Appearance)
    ensures var t := Dressed(s, p, look);
      if p in s.world.players && look != s.world.players[p].appearance then
        && t.world.players == s.world.players[p := s.world.players[p].(appearance := look)]
        && t.outbox == s.outbox.(looks := s.outbox.looks[p := look])
      else t == s
  {
    hide Dressed;
    DressedFrame(s, p, look);
  }

  lemma StepLooks(cfg: HubConfig, s: HubState, e: Event, p: PlayerId)
    requires cfg.Sound() && HubOk(cfg, s)
    ensures var t := Step(cfg, s, e);
      p in t.outbox.looks <==>
        match e
        case UpdateAppearance(who, look) =>
          p in s.outbox.looks || (who == p && p in s.world.players && look != s.world.players[p].appearance)
        case Register(c, _, _) => c.id != p && p in s.outbox.looks
        case Unregister(c) => !(c.id == p && p in s.clients && s.clients[p] == c) && p in s.outbox.looks
        case DisconnectUser(who) => !(who == p && p in s.clients) && p in s.outbox.looks
        case Broadcast(order, _) => !Possible(s, e) && p in s.outbox.looks
        case _ => p in s.outbox.looks
  {
    hide HubOk, Gone, Registered, GivenInput, Dressed, Simulated, Broadcasted, Persisted, AfterCollect;
    if Possible(s, e) {
      match e
      case Register(c, saved, sent) => RegisteredLooks(cfg, s, c, saved, sent);
      case Unregister(c) => GoneLooks(cfg, s, c);
      case DisconnectUser(who) =>
        if who in s.clients {
          OwnId(cfg, s, who);
          GoneLooks(cfg, s, s.clients[who]);
        }
      case Input(c, input) => InputLooks(s, c, input);
      case UpdateAppearance(who, look) => DressedLooks(s, who, look);
      case Simulate(places) => SimulatedLooks(s, places);
      case Broadcast(order, now) => BroadcastedLooks(cfg, s, order, now);
      case Persist(order) => PersistedLooks(cfg, s, order);
      case Collect(c, item, now, pick) => CollectedLooks(cfg, s, c, item, now, pick);
    }
  }

  lemma OwnId(cfg: HubConfig, s: HubState, p: PlayerId)
    requires HubOk(cfg, s) && p in s.clients
    ensures s.clients[p].id == p
  {
  }

  lemma InputLooks(s: HubState, c: Client, input: InputState)
    ensures GivenInput(s, c, input).outbox == s.outbox
  {
    hide WithInput;
  }

  lemma SimulatedLooks(s: HubState, places: PlayerId -> LatLng)
    ensures Simulated(s, places).outbox == s.outbox
  {
    hide Stepped, Movers;
  }

  lemma BroadcastedLooks(cfg: HubConfig, s: HubState, order: seq<PlayerId>, now: Time)
    ensures Broadcasted(cfg, s, order, now).outbox.looks == map[]
  {
    hide Gathered, ShownAfter;
  }

  lemma {:induction false} SubmittedLooks(s: HubState, order: seq<PlayerId>)
    ensures SubmittedAll(s, order).outbox == s.outbox
  {
    if order != [] {
      SubmittedLooks(s, order[..|order| - 1]);
    }
  }

  lemma PersistedLooks(cfg: HubConfig, s: HubState, order: seq<PlayerId>)
    ensures Persisted(cfg, s, order).outbox == s.outbox
  {
    hide SubmittedAll;
    SubmittedLooks(s, order);
  }

  lemma CollectedLooks(cfg: HubConfig, s: HubState, c: Client, item: CollectibleId, now: Time, pick: nat)
    requires cfg.Sound()
    ensures AfterCollect(cfg, s, c, item, now, pick).outbox.looks == s.outbox.looks
  {
    hide Considered, Collectable, NearIndexed;
  }

  // Over every run a look waits to be told exactly when it has changed since the
  // player last registered and since the last broadcast; then it is the look the
  // player has.
  lemma {:induction false} ChangedLooksWait(cfg: HubConfig, events: seq<Event>, p: PlayerId)
    requires cfg.Sound()
    ensures var s := Run(cfg, events);
      && (p in s.outbox.looks <==> LookIsNew(cfg, events, p))
      && (p in s.outbox.looks ==> p in s.world.players && s.outbox.looks[p] == s.world.players[p].appearance)
  {
    RunOutbox(cfg, events);
    if events != [] {
      hide HubOk, Step;
      var front, e := events[..|events| - 1], events[|events| - 1];
      ChangedLooksWait(cfg, front, p);
      RunKeeps(cfg, front);
      StepLooks(cfg, Run(cfg, front), e, p);
    }
  }

  // ------------------------------------------------------------------
  // Which newcomers wait
  // ------------------------------------------------------------------

  // p is connected and joined, while anybody was, since the last broadcast.
  ghost predicate IsNewcomer(cfg: HubConfig, events: seq<Event>, p: PlayerId)
    requires cfg.Sound()
  {
    && events != []
    && var front, e := events[..|events| - 1], events[|events| - 1];
       var s := Run(cfg, front);
       && p in Run(cfg, events).clients
       && match e
          case Register(c, _, _) =>
            IsNewcomer(cfg, front, p) || (c.id == p && p !in s.clients && s.clients != map[])
          case Broadcast(_, _) => !Possible(s, e) && IsNewcomer(cfg, front, p)
          case _ => IsNewcomer(cfg, front, p)
  }

  // Those waiting before that are still connected.
  ghost predicate FewerWait(s: HubState, t: HubState, more: set<PlayerId>) {
    forall p :: p in t.pendingEntered <==> p in s.pendingEntered + more && p in t.clients
  }

  lemma GoneWaiting(cfg: HubConfig, s: HubState, c: Client)
    requires s.pendingEntered <= s.clients.Keys
    ensures FewerWait(s, Gone(cfg, s, c), {})
  {
    hide Aoi.Removed, LeftFor, WithoutPlayer, FinalSubmitted, ScoreSynced;
    FinalClients(cfg, s.(clients := s.clients - {c.id}), c.id);
  }

  lemma FinalClients(cfg: HubConfig, s: HubState, p: PlayerId)
    ensures FinalSubmitted(cfg, s, p).clients == s.clients
  {
  }

  lemma InitialisedWaiting(cfg: HubConfig, s: HubState, c: Client, sent: bool)
    requires s.pendingEntered <= s.clients.Keys
    ensures FewerWait(s, Initialised(cfg, s, c, sent), {})
  {
    hide Gone, InView;
    GoneWaiting(cfg, s, c);
  }

  lemma AttachedWaiting(s: HubState, c: Client)
    ensures Attached(s, c).pendingEntered == s.pendingEntered && Attached(s, c).clients == s.clients[c.id := c]
  {
  }

  lemma JoinedWaiting(cfg: HubConfig, s: HubState, c: Client, saved: Option<Saved>)
    ensures var t := Joined(cfg, s, c, saved);
      && t.clients == s.clients
      && t.pendingEntered == s.pendingEntered + if s.clients == map[] then {} else {c.id}
  {
    hide Entering, ForgetLeft, Aoi.Inserted, WithPlayer, StartAt, StartName, StartLook;
    EnteringFrame(cfg, s, c, saved);
  }

  lemma RegisteredWaiting(cfg: HubConfig, s: HubState, c: Client, saved: Option<Saved>, sent: bool)
    requires s.pendingEntered <= s.clients.Keys == s.world.players.Keys
    ensures FewerWait(s, Registered(cfg, s, c, saved, sent),
                      if c.id !in s.clients && s.clients != map[] then {c.id} else {})
  {
    hide Joined, Attached, WithInputReset, Initialised;
    var base := s;
    if c.id in s.clients && s.clients[c.id] != c {
      base := s.(world := WithInputReset(s.world, c.id));
    } else if c.id !in s.world.players {
      base := Joined(cfg, s, c, saved);
      JoinedWaiting(cfg, s, c, saved);
    }
    AttachedWaiting(base, c);
    InitialisedWaiting(cfg, Attached(base, c), c, sent);
  }

  lemma SameWaiting(s: HubState, t: HubState)
    requires s.pendingEntered <= s.clients.Keys && t.pendingEntered == s.pendingEntered && t.clients == s.clients
    ensures FewerWait(s, t, {})
  {
  }

  lemma StepWaiting(cfg: HubConfig, s: HubState, e: Event)
    requires cfg.Sound() && HubOk(cfg, s)
    ensures var t := Step(cfg, s, e);
      match e
      case Broadcast(_, _) => if Possible(s, e) then t.pendingEntered == {} else t == s
      case Register(c, _, _) => FewerWait(s, t, if c.id !in s.clients && s.clients != map[] then {c.id} else {})
      case _ => FewerWait(s, t, {})
  {
    WaitingAreConnected(cfg, s);
    hide HubOk, Gone, Registered, GivenInput, Dressed, Simulated, Persisted, AfterCollect, Gathered, ShownAfter,
      FewerWait;
    SameWaiting(s, s);
    if Possible(s, e) {
      match e
      case Register(c, saved, sent) => RegisteredWaiting(cfg, s, c, saved, sent);
      case Unregister(c) => GoneWaiting(cfg, s, c);
      case DisconnectUser(p) => if p in s.clients { GoneWaiting(cfg, s, s.clients[p]); }
      case Input(c, input) =>
        InputWaits(s, c, input);
        SameWaiting(s, GivenInput(s, c, input));
      case UpdateAppearance(p, look) =>
        DressedWaits(s, p, look);
        SameWaiting(s, Dressed(s, p, look));
      case Simulate(places) =>
        SimulatedWaits(s, places);
        SameWaiting(s, Simulated(s, places));
      case Broadcast(order, now) =>
      case Persist(order) =>
        PersistedWaits(cfg, s, order);
        SameWaiting(s, Persisted(cfg, s, order));
      case Collect(c, item, now, pick) =>
        AfterCollectFrame(cfg, s, c, item, now, pick);
        SameWaiting(s, AfterCollect(cfg, s, c, item, now, pick));
    }
  }

  lemma WaitingAreConnected(cfg: HubConfig, s: HubState)
    requires HubOk(cfg, s)
    ensures s.pendingEntered <= s.clients.Keys == s.world.players.Keys
  {
  }

  lemma InputWaits(s: HubState, c: Client, input: InputState)
    ensures var t := GivenInput(s, c, input); t.pendingEntered == s.pendingEntered && t.clients == s.clients
  {
    hide WithInput;
  }

  lemma DressedWaits(s: HubState, p: PlayerId, look: Messages.Appearance)
    ensures var t := Dressed(s, p, look); t.pendingEntered == s.pendingEntered && t.clients == s.clients
  {
    hide Dressed, WithAppearance, ChangesLook;
    DressedFrame(s, p, look);
  }

  lemma SimulatedWaits(s: HubState, places: PlayerId -> LatLng)
    ensures var t := Simulated(s, places); t.pendingEntered == s.pendingEntered && t.clients == s.clients
  {
    hide Stepped, Movers;
  }

  lemma PersistedWaits(cfg: HubConfig, s: HubState, order: seq<PlayerId>)
    ensures var t := Persisted(cfg, s, order); t.pendingEntered == s.pendingEntered && t.clients == s.clients
  {
    hide SubmittedAll;
    SubmittedAllNumbers(s, order);
  }

  // Over every run exactly those wait to be announced that are connected and
  // joined, while anybody was, since the last broadcast.
  lemma {:induction false} NewcomersWait(cfg: HubConfig, events: seq<Event>, p: PlayerId)
    requires cfg.Sound()
    ensures p in Run(cfg, events).pendingEntered <==> IsNewcomer(cfg, events, p)
  {
    if events != [] {
      hide HubOk, Step, Possible;
      var front, e := events[..|events| - 1], events[|events| - 1];
      NewcomersWait(cfg, front, p);
      RunKeeps(cfg, front);
      RunKeeps(cfg, events);
      WaitingAreConnected(cfg, Run(cfg, events));
      StepWaiting(cfg, Run(cfg, front), e);
    }
  }

  // Over every run nothing waits any more once a broadcast has told it.
  lemma BroadcastSettles(cfg: HubConfig, events: seq<Event>, order: seq<PlayerId>, now: Time)
    requires cfg.Sound() && Possible(Run(cfg, events), Broadcast(order, now))
    ensures var s, t := Run(cfg, events), Run(cfg, events + [Broadcast(order, now)]);
      && t.pendingEntered == {} && t.pendingLeft == map[]
      && t.outbox.looks == map[] && t.outbox.entered == map[] && t.outbox.left == map[]
      && t.outbox.spawned == map[] && t.outbox.collected == map[]
      && t.world.moved == {} && t.world.removed == {} && t.world.players == s.world.players
      && t.clients == s.clients && t.dirty == s.dirty && t.scores == s.scores
  {
    hide Run, HubOk, Gathered, Possible, ShownAfter;
    RunKeeps(cfg, events);
    RunExtends(cfg, events, Broadcast(order, now));
    PossibleOrder(Run(cfg, events), order, now);
    GatheredAgain(cfg, Run(cfg, events), order, now);
  }

  lemma PossibleOrder(s: HubState, order: seq<PlayerId>, now: Time)
    requires Possible(s, Broadcast(order, now))
    ensures ToSet(order) == s.world.moved
  {
  }

  lemma GatheredAgain(cfg: HubConfig, s: HubState, order: seq<PlayerId>, now: Time)
    requires HubOk(cfg, s) && ToSet(order) == s.world.moved
    ensures var g := Gathered(cfg, s, order, now);
      && g.world == s.world.(moved := {}, removed := {})
      && g.clients == s.clients && g.dirty == s.dirty && g.scores == s.scores
  {
    hide Aoi.Invariant, IndexAgrees, Gathered, Recorded;
    GatheredKeeps(cfg, s, order, now);
  }

  // ------------------------------------------------------------------
  // While a broadcast is gathered
  // ------------------------------------------------------------------

  lemma {:induction false} MovesKeepOutbox(cfg: HubConfig, s: HubState, order: seq<PlayerId>)
    ensures MovedAll(cfg, s, order).outbox == s.outbox
  {
    if order != [] {
      hide Aoi.Moved, Aoi.Entered, Aoi.Left, LeftFor;
      MovesKeepOutbox(cfg, s, order[..|order| - 1]);
    }
  }

  lemma {:induction false} ViewsKeepLooks(cfg: HubConfig, s: HubState, order: seq<PlayerId>)
    ensures ViewsRecalculated(cfg, s, order).outbox.looks == s.outbox.looks
  {
    if order != [] {
      hide ComesIntoView, OutOfView, InView, PutMore;
      ViewsKeepLooks(cfg, s, order[..|order| - 1]);
    }
  }

  lemma GatheredKeepsLooks(cfg: HubConfig, s: HubState, order: seq<PlayerId>, now: Time)
    ensures Gathered(cfg, s, order, now).outbox.looks == s.outbox.looks
  {
    hide MovedAll, ViewsRecalculated, SpawnedNear;
    var taken := s.(world := s.world.(moved := {}, removed := {}));
    MovesKeepOutbox(cfg, taken, order);
    var t := MovedAll(cfg, taken, order);
    ViewsKeepLooks(cfg, SpawnsSeen(cfg, t, Gems.Advanced(cfg.gems, s.field, now)), order);
  }
}

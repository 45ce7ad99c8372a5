// What the hub guarantees over every run.
module HubLaws {
  import opened Common
  import opened Geometry
  import opened Sequences
  import opened SetMaps
  import opened World
  import opened HubModel
  import opened HubInvariant
  import Aoi = AoiModel
  import AoiKeeps = AoiInvariant
  import Gems = CollectibleModel
  import GemLaws = CollectibleLaws
  import Messages

  // ------------------------------------------------------------------
  // Connections, world and index
  // ------------------------------------------------------------------

  // Connected players, world players and indexed players are always the same,
  // everything kept per connection belongs to one of them, and nobody who is
  // connected is listed to anybody as gone.
  lemma PlayersStayInStep(cfg: HubConfig, events: seq<Event>)
    requires cfg.Sound()
    ensures var s := Run(cfg, events);
      && s.clients.Keys == s.world.players.Keys == s.aoi.players.Keys
      && s.dirty + s.numbers.Keys + s.pendingEntered + s.pendingLeft.Keys + s.visible.Keys <= s.clients.Keys
      && (forall p | p in s.clients :: s.clients[p].id == p)
      && (forall q, x | q in s.pendingLeft && x in s.pendingLeft[q] :: x !in s.clients)
  {
    RunKeeps(cfg, events);
  }

  ghost function WorldSpot(cfg: HubConfig, s: HubState, p: PlayerId): Point
    requires p in s.world.players
  {
    cfg.aoi.ToLocal(s.world.players[p].at.lat, s.world.players[p].at.lng)
  }

  // Two players see each other only within the leave radius, and fail to only
  // beyond the enter radius less three rescan distances: in world positions,
  // though the index never saw some of them.
  ghost predicate SeenRightly(cfg: HubConfig, s: HubState, a: PlayerId, b: PlayerId) {
    && a in s.world.players && b in s.world.players
    && Aoi.Sees(s.aoi, a, b) == Aoi.Sees(s.aoi, b, a)
    && var gap := DistanceSquared(WorldSpot(cfg, s, a), WorldSpot(cfg, s, b));
       if Aoi.Sees(s.aoi, a, b) then gap <= Square(cfg.aoi.leaveRadius)
       else gap > Square(cfg.aoi.enterRadius - 3.0 * cfg.aoi.rescanDistance)
  }

  lemma SettledAreSeenRightly(cfg: HubConfig, s: HubState, a: PlayerId, b: PlayerId)
    requires HubOk(cfg, s) && a != b && {a, b} <= s.clients.Keys && {a, b} !! s.world.moved
    ensures SeenRightly(cfg, s, a, b)
  {
    hide DistanceSquared, Square, Tidy, Recorded;
    assert a in {a, b} && b in {a, b};
    assert SamePlace(s, a) && SamePlace(s, b);
    assert Aoi.PlacedWell(cfg.aoi, s.aoi.players[a]) && Aoi.PlacedWell(cfg.aoi, s.aoi.players[b]);
    if Aoi.Sees(s.aoi, a, b) {
      assert Aoi.PairOk(cfg.aoi, s.aoi, a, b);
    } else {
      AoiKeeps.UnseenPairIsFar(cfg.aoi, s.aoi, a, b);
    }
  }

  // At any time that holds of two players whose moves have been broadcast.
  lemma WorldDistances(cfg: HubConfig, events: seq<Event>, a: PlayerId, b: PlayerId)
    requires cfg.Sound()
    requires var s := Run(cfg, events); a != b && {a, b} <= s.clients.Keys && {a, b} !! s.world.moved
    ensures SeenRightly(cfg, Run(cfg, events), a, b)
  {
    hide HubOk, SeenRightly;
    RunKeeps(cfg, events);
    SettledAreSeenRightly(cfg, Run(cfg, events), a, b);
  }

  // Right after a broadcast it holds of every two connected players.
  lemma BroadcastCatchesUp(cfg: HubConfig, events: seq<Event>, order: seq<PlayerId>, now: Time, a: PlayerId,
                           b: PlayerId)
    requires cfg.Sound() && Possible(Run(cfg, events), Broadcast(order, now))
    requires a != b && {a, b} <= Run(cfg, events).clients.Keys
    ensures SeenRightly(cfg, Run(cfg, events + [Broadcast(order, now)]), a, b)
  {
    hide HubOk, SeenRightly, Broadcasted, Run, Ascending;
    RunExtends(cfg, events, Broadcast(order, now));
    RunKeeps(cfg, events);
    RunKeeps(cfg, events + [Broadcast(order, now)]);
    BroadcastEmptiesMoved(cfg, Run(cfg, events), order, now);
    SettledAreSeenRightly(cfg, Run(cfg, events + [Broadcast(order, now)]), a, b);
  }

  lemma RunExtends(cfg: HubConfig, events: seq<Event>, e: Event)
    requires cfg.Sound()
    ensures Run(cfg, events + [e]) == Step(cfg, Run(cfg, events), e)
  {
    hide Step;
    assert (events + [e])[..|events + [e]| - 1] == events;
  }

  lemma BroadcastEmptiesMoved(cfg: HubConfig, s: HubState, order: seq<PlayerId>, now: Time)
    requires HubOk(cfg, s) && ToSet(order) == s.world.moved
    ensures var t := Broadcasted(cfg, s, order, now);
      t.world == s.world.(moved := {}, removed := {}) && t.clients == s.clients
  {
    hide Aoi.Invariant, Gathered, Recorded, ShownAfter;
    GatheredKeeps(cfg, s, order, now);
  }

  // ------------------------------------------------------------------
  // Comings and goings
  // ------------------------------------------------------------------

  // A player that leaves is listed as gone to exactly the connected players
  // that saw it, once; nothing else changes in anybody's list.
  lemma LeavingIsAnnounced(cfg: HubConfig, events: seq<Event>, c: Client, q: PlayerId)
    requires cfg.Sound()
    requires var s := Run(cfg, events); IsCurrent(s.clients, c) && q in s.clients && q != c.id
    ensures var s := Run(cfg, events);
      var t := Gone(cfg, s, c);
      && c.id !in Listed(s.pendingLeft, q)
      && Listed(t.pendingLeft, q) == Listed(s.pendingLeft, q) + if Aoi.Sees(s.aoi, q, c.id) then [c.id] else []
  {
    hide Run, Recorded, IndexAgrees;
    var s := Run(cfg, events);
    RunKeeps(cfg, events);
    assert Aoi.Sees(s.aoi, q, c.id) <==> Aoi.Sees(s.aoi, c.id, q);
    GoneLeft(cfg, s, c);
  }

  lemma GoneLeft(cfg: HubConfig, s: HubState, c: Client)
    requires IsCurrent(s.clients, c)
    ensures Gone(cfg, s, c).pendingLeft
         == LeftFor(s.pendingLeft, s.clients - {c.id}, Aoi.Neighbors(s.aoi, c.id), c.id) - {c.id}
  {
    hide FinalSubmitted, LeftFor, Aoi.Removed, Aoi.Neighbors, WithoutPlayer;
  }

  // A move lists the mover as gone to exactly the connected players that lose
  // sight of it, and has it announced if a connected player gains sight of it.
  lemma MoveIsAnnounced(cfg: HubConfig, s: HubState, p: PlayerId, q: PlayerId)
    requires Aoi.Invariant(cfg.aoi, s.aoi) && p in s.world.players && q in s.clients
    ensures var t := MovedOne(cfg, s, p);
      && Listed(t.pendingLeft, q) == Listed(s.pendingLeft, q)
           + (if Aoi.Sees(s.aoi, q, p) && !Aoi.Sees(t.aoi, q, p) then [p] else [])
      && (p in t.pendingEntered <==>
            (p in s.pendingEntered || exists r :: r in s.clients && ComesToSee(s.aoi, t.aoi, r, p)))
  {
    hide Aoi.Moved, Aoi.Invariant;
    var at := s.world.players[p].at;
    AoiKeeps.MovedKeeps(cfg.aoi, s.aoi, p, at.lat, at.lng);
    var t := MovedOne(cfg, s, p);
    forall r
      ensures r in Aoi.Left(s.aoi, t.aoi, p) <==> Aoi.Sees(s.aoi, r, p) && !Aoi.Sees(t.aoi, r, p)
      ensures r in Aoi.Entered(s.aoi, t.aoi, p) <==> ComesToSee(s.aoi, t.aoi, r, p)
    {
      SeeingIsMutual(cfg, s.aoi, r, p);
      SeeingIsMutual(cfg, t.aoi, r, p);
    }
    if exists r :: r in s.clients && ComesToSee(s.aoi, t.aoi, r, p) {
      var r :| r in s.clients && ComesToSee(s.aoi, t.aoi, r, p);
      assert r in Aoi.Entered(s.aoi, t.aoi, p) && r in s.clients.Keys;
    } else {
      assert forall r | r in Aoi.Entered(s.aoi, t.aoi, p) :: r !in s.clients;
    }
  }

  ghost predicate ComesToSee(s: Aoi.Index, t: Aoi.Index, r: PlayerId, p: PlayerId) {
    !Aoi.Sees(s, r, p) && Aoi.Sees(t, r, p)
  }

  lemma SeeingIsMutual(cfg: HubConfig, s: Aoi.Index, a: PlayerId, b: PlayerId)
    requires Aoi.Invariant(cfg.aoi, s)
    ensures Aoi.Sees(s, a, b) <==> Aoi.Sees(s, b, a)
  {
  }

  // A player that joins stands where it was saved, or else at the spawn point,
  // in the world and in the index, sees exactly those within the enter radius,
  // is in nobody's list of gone players, and is to be announced if anybody is
  // connected.
  lemma JoiningIsAnnounced(cfg: HubConfig, events: seq<Event>, c: Client, saved: Option<Saved>)
    requires cfg.Sound() && c.id !in Run(cfg, events).clients
    ensures var s := Run(cfg, events);
      var t := Attached(Joined(cfg, s, c, saved), c);
      && c.id in t.world.players && c.id in t.aoi.players
      && t.world.players[c.id].at == StartAt(cfg, saved) && SamePlace(t, c.id)
      && (forall q :: Aoi.Sees(t.aoi, c.id, q) <==>
            q in t.aoi.players && q != c.id && Aoi.Gap(t.aoi, c.id, q) <= Square(cfg.aoi.enterRadius))
      && (forall q | q in t.pendingLeft :: c.id !in t.pendingLeft[q])
      && (s.clients != map[] ==> c.id in t.pendingEntered)
  {
    hide Run, Aoi.Invariant, Recorded, Aoi.Inserted, Joined, Attached, DistanceSquared, Square;
    var s := Run(cfg, events);
    RunKeeps(cfg, events);
    KnownIsConnected(cfg, s, c.id);
    JoinedKeeps(cfg, s, c, saved);
    JoinedParts(cfg, s, c, saved);
    var at := StartAt(cfg, saved);
    InsertedPlayers(cfg.aoi, s.aoi, c.id, at);
    InsertedSees(cfg, s.aoi, c.id, at);
    if s.clients != map[] {
      JoinedWaits(cfg, s, c, saved);
    }
  }

  lemma JoinedWaits(cfg: HubConfig, s: HubState, c: Client, saved: Option<Saved>)
    requires s.clients != map[]
    ensures c.id in Attached(Joined(cfg, s, c, saved), c).pendingEntered
  {
    hide Entering, ForgetLeft;
  }

  // A newly indexed player sees exactly those within the enter radius.
  lemma InsertedSees(cfg: HubConfig, s: Aoi.Index, p: PlayerId, at: LatLng)
    requires Aoi.Invariant(cfg.aoi, s) && p !in s.players
    ensures var t := Aoi.Inserted(cfg.aoi, s, p, at.lat, at.lng);
      && p in t.players
      && forall q :: Aoi.Sees(t, p, q) <==>
           q in t.players && q != p && Aoi.Gap(t, p, q) <= Square(cfg.aoi.enterRadius)
  {
    hide DistanceSquared, Square;
    AoiKeeps.UnindexedSeesNobody(s, p);
    var placed := Aoi.Placed(cfg.aoi, s, p, at.lat, at.lng);
    var members := Aoi.Kept(cfg.aoi, placed, p) + Aoi.Nearby(cfg.aoi, placed, p);
    LookupRewire(placed.visible, p, members);
    assert Aoi.Kept(cfg.aoi, placed, p) == {};
  }

  // Input changes anything if and only if it comes from the current connection
  // with a number above the last one taken; then it is the player's input.
  lemma OnlyNewerInputCounts(s: HubState, c: Client, input: InputState)
    ensures GivenInput(s, c, input) != s <==>
      IsCurrent(s.clients, c) && c.id in s.world.players && input.sequence > s.world.players[c.id].lastSequence
    ensures GivenInput(s, c, input) != s ==>
      var w := GivenInput(s, c, input).world;
      && w.players[c.id].input == input && w.players[c.id].lastSequence == input.sequence
      && w.players[c.id].at == s.world.players[c.id].at
      && (forall p | p in s.world.players && p != c.id :: w.players[p] == s.world.players[p])
  {
    if IsCurrent(s.clients, c) && Accepts(s.world, c.id, input) {
      assert GivenInput(s, c, input).world.players[c.id].lastSequence != s.world.players[c.id].lastSequence;
    }
  }

  // ------------------------------------------------------------------
  // Positions handed to the writer
  // ------------------------------------------------------------------

  // A session's submissions are numbered from one upwards without a gap; and a
  // connected player whose position is not waiting to be saved stands where
  // the last of them says, or where it joined if there is none.
  lemma NoMoveIsForgotten(cfg: HubConfig, events: seq<Event>, p: PlayerId)
    requires cfg.Sound() && p in Run(cfg, events).clients
    ensures var s := Run(cfg, events);
      && p in s.joined && p in s.world.players
      && var mine := Mine(s.submitted, s.joined[p].since, p);
         && (forall k | 0 <= k < |mine| :: mine[k].number == k + 1)
         && (p !in s.dirty ==> s.world.players[p].at == LastKnown(mine, s.joined[p]))
  {
    RunKeeps(cfg, events);
    assert SessionNow(Run(cfg, events), p);
  }

  // A player that leaves, however it leaves, has its position submitted last,
  // under the next number of its session.
  lemma LeavingIsSubmitted(cfg: HubConfig, events: seq<Event>, c: Client)
    requires cfg.Sound() && cfg.persisting && IsCurrent(Run(cfg, events).clients, c)
    ensures var s := Run(cfg, events);
      && c.id in s.world.players && c.id in s.joined
      && Gone(cfg, s, c).submitted == s.submitted
           + [Submission(c.id, s.world.players[c.id].at, |Mine(s.submitted, s.joined[c.id].since, c.id)| + 1)]
  {
    hide Run, Aoi.Invariant, IndexAgrees, LeftFor, Aoi.Removed, Aoi.Neighbors;
    var s := Run(cfg, events);
    RunKeeps(cfg, events);
    assert SessionNow(s, c.id);
  }

  // Stopping submits everybody: afterwards the writer knows where every
  // connected player stands.
  lemma StoppingSettlesAll(cfg: HubConfig, events: seq<Event>, order: seq<PlayerId>, p: PlayerId)
    requires cfg.Sound() && cfg.persisting && p in Run(cfg, events).clients
    requires Lists(order, Run(cfg, events).clients.Keys)
    ensures var s := Run(cfg, events);
      var t := StoppedBy(cfg, s, order);
      && p in s.joined && p in s.world.players
      && s.world.players[p].at == LastKnown(Mine(t.submitted, s.joined[p].since, p), s.joined[p])
  {
    hide Aoi.Invariant;
    var s := Run(cfg, events);
    RunKeeps(cfg, events);
    StoppingSubmits(cfg, s, order);
    assert SessionNow(s, p);
    assert p in ToSet(order);
    AllSubmittedSettle(s, order, p, p !in s.dirty);
  }

  lemma {:induction false} StoppingSubmits(cfg: HubConfig, s: HubState, order: seq<PlayerId>)
    requires cfg.persisting
    ensures StoppedBy(cfg, s, order) == SubmittedAll(s, order)
  {
    if order != [] {
      StoppingSubmits(cfg, s, order[..|order| - 1]);
    }
  }

  // ------------------------------------------------------------------
  // Collecting
  // ------------------------------------------------------------------

  // The field operation a step comes down to, if any.
  ghost function FieldOps(cfg: HubConfig, s: HubState, e: Event): seq<Gems.FieldOp> {
    match e
    case Broadcast(order, now) => if cfg.collecting && Possible(s, e) then [Gems.OpAdvance(now)] else []
    case Collect(c, item, now, pick) => if Wins(cfg, s, c, item, now) then [Gems.OpCollect(item, now, pick)] else []
    case _ => []
  }

  ghost function FieldHistory(cfg: HubConfig, events: seq<Event>): seq<Gems.FieldOp>
    requires cfg.Sound()
  {
    if events == [] then []
    else
      var front := events[..|events| - 1];
      FieldHistory(cfg, front) + FieldOps(cfg, Run(cfg, front), events[|events| - 1])
  }

  lemma GoneKeepsField(cfg: HubConfig, s: HubState, c: Client)
    ensures var t := Gone(cfg, s, c); t.field == s.field && t.awards == s.awards && t.cooldowns == s.cooldowns
  {
    hide Aoi.Removed, LeftFor, WithoutPlayer;
  }

  // Nothing of what collecting changes differs.
  ghost predicate SameField(s: HubState, t: HubState) {
    t.field == s.field && t.awards == s.awards && t.cooldowns == s.cooldowns
  }

  lemma JoinedKeepsField(cfg: HubConfig, s: HubState, c: Client, saved: Option<Saved>)
    ensures SameField(s, Joined(cfg, s, c, saved))
  {
    hide ForgetLeft, Aoi.Inserted, WithPlayer, StartAt, StartName, StartLook, StartScores, StartSynthetic;
  }

  lemma AttachedKeepsField(s: HubState, c: Client)
    ensures SameField(s, Attached(s, c))
  {
  }

  lemma InitialisedKeepsField(cfg: HubConfig, s: HubState, c: Client, sent: bool)
    ensures SameField(s, Initialised(cfg, s, c, sent))
  {
    hide Gone, InView;
    GoneKeepsField(cfg, s, c);
  }

  lemma RegisteredKeepsField(cfg: HubConfig, s: HubState, c: Client, saved: Option<Saved>, sent: bool)
    ensures SameField(s, Registered(cfg, s, c, saved, sent))
  {
    hide Joined, Initialised, Attached, WithInputReset;
    AttachedKeepsField(s.(world := WithInputReset(s.world, c.id)), c);
    AttachedKeepsField(s, c);
    AttachedKeepsField(Joined(cfg, s, c, saved), c);
    if c.id in s.clients && s.clients[c.id] != c {
      InitialisedKeepsField(cfg, Attached(s.(world := WithInputReset(s.world, c.id)), c), c, sent);
    } else if c.id in s.world.players {
      InitialisedKeepsField(cfg, Attached(s, c), c, sent);
    } else {
      JoinedKeepsField(cfg, s, c, saved);
      InitialisedKeepsField(cfg, Attached(Joined(cfg, s, c, saved), c), c, sent);
    }
  }

  lemma {:induction false} SubmittedAllKeepsField(s: HubState, order: seq<PlayerId>)
    ensures var t := SubmittedAll(s, order);
      t.field == s.field && t.awards == s.awards && t.cooldowns == s.cooldowns
  {
    if order != [] {
      SubmittedAllKeepsField(s, order[..|order| - 1]);
    }
  }

  // Every step changes the field by its field operation alone, gives awards
  // only by winning, and lets only considered requests start a cooldown.
  lemma StepOnField(cfg: HubConfig, s: HubState, e: Event)
    requires cfg.Sound() && HubOk(cfg, s)
    ensures var t := Step(cfg, s, e);
      var ops := FieldOps(cfg, s, e);
      && t.field == (if ops == [] then s.field else Gems.FieldApply(cfg.gems, s.field, ops[0]))
      && t.awards == s.awards + (
           if e.Collect? && Wins(cfg, s, e.client, e.item, e.now) then
             [Award(e.client.id, e.item, Number(s.scores, e.client.id) + 1, e.now)]
           else [])
      && t.cooldowns
         == (if e.Collect? && Considered(s, e.client, e.now) then s.cooldowns[e.client.id := e.now] else s.cooldowns)
  {
    hide Gone, Registered, GivenInput, Dressed, Simulated, Broadcasted, SubmittedAll, AfterCollect, Collectable,
      Considered, Gems.Collected, Gems.Advanced, HubOk;
    if Possible(s, e) {
      match e
      case Register(c, saved, sent) => RegisteredKeepsField(cfg, s, c, saved, sent);
      case Unregister(c) => GoneKeepsField(cfg, s, c);
      case DisconnectUser(p) => if p in s.clients { GoneKeepsField(cfg, s, s.clients[p]); }
      case Input(c, input) => InputKeepsField(s, c, input);
      case UpdateAppearance(p, appearance) => DressedKeepsField(s, p, appearance);
      case Simulate(places) => SimulatedKeepsField(s, places);
      case Broadcast(order, now) => BroadcastOnField(cfg, s, order, now);
      case Persist(order) => SubmittedAllKeepsField(s, order);
      case Collect(c, item, now, pick) => CollectOnField(cfg, s, c, item, now, pick);
    }
  }

  lemma InputKeepsField(s: HubState, c: Client, input: InputState)
    ensures SameField(s, GivenInput(s, c, input))
  {
    hide WithInput;
  }

  lemma DressedKeepsField(s: HubState, p: PlayerId, appearance: Messages.Appearance)
    ensures SameField(s, Dressed(s, p, appearance))
  {
    hide Dressed, WithAppearance, ChangesLook;
    DressedFrame(s, p, appearance);
  }

  lemma SimulatedKeepsField(s: HubState, places: PlayerId -> LatLng)
    ensures SameField(s, Simulated(s, places))
  {
    hide Stepped;
  }

  lemma CollectOnField(cfg: HubConfig, s: HubState, c: Client, item: CollectibleId, now: Time, pick: nat)
    requires cfg.Sound()
    ensures var t := AfterCollect(cfg, s, c, item, now, pick);
      var wins := Wins(cfg, s, c, item, now);
      && t.field == (if wins then Gems.Collected(cfg.gems, s.field, item, now, pick) else s.field)
      && t.awards == s.awards + (if wins then [Award(c.id, item, Number(s.scores, c.id) + 1, now)] else [])
      && t.cooldowns == (if Considered(s, c, now) then s.cooldowns[c.id := now] else s.cooldowns)
      && t.scores == (if wins then s.scores[c.id := Number(s.scores, c.id) + 1] else s.scores)
  {
    hide Collectable, Considered, Gems.Collected, NearIndexed;
  }

  lemma BroadcastOnField(cfg: HubConfig, s: HubState, order: seq<PlayerId>, now: Time)
    requires HubOk(cfg, s) && ToSet(order) == s.world.moved
    ensures var t := Broadcasted(cfg, s, order, now);
      && t.field == (if cfg.collecting then Gems.Advanced(cfg.gems, s.field, now) else s.field)
      && t.awards == s.awards && t.cooldowns == s.cooldowns
  {
    hide Aoi.Invariant, Gathered, Recorded, Gems.Advanced, ShownAfter;
    GatheredKeeps(cfg, s, order, now);
  }

  // The hub drives its field through a run of the field's own operations, so
  // everything proved of those runs holds of it.
  lemma {:induction false} FieldRefines(cfg: HubConfig, events: seq<Event>)
    requires cfg.Sound()
    ensures Run(cfg, events).field == Gems.FieldRun(cfg.gems, FieldHistory(cfg, events))
  {
    if events != [] {
      hide HubOk, Step, Gems.FieldApply;
      var front, e := events[..|events| - 1], events[|events| - 1];
      FieldRefines(cfg, front);
      RunKeeps(cfg, front);
      StepOnField(cfg, Run(cfg, front), e);
      var before, ops := FieldHistory(cfg, front), FieldOps(cfg, Run(cfg, front), e);
      var after := FieldHistory(cfg, events);
      assert after == before + ops;
      if ops == [] {
        assert after == before;
      } else {
        assert after[..|after| - 1] == before && after[|after| - 1] == ops[0];
      }
    }
  }

  // So every region keeps its target count of live and pending collectibles.
  lemma RegionsAreConserved(cfg: HubConfig, events: seq<Event>, r: Gems.Region)
    requires cfg.Sound() && r in cfg.gems.regions
    ensures GemLaws.Total(Run(cfg, events).field, r.id) == r.targetCount
  {
    FieldRefines(cfg, events);
    GemLaws.RegionsAreConserved(cfg.gems, FieldHistory(cfg, events), r);
  }

  // What holds of the awards given so far.
  ghost predicate AwardsOk(s: HubState) {
    && |s.awards| == s.field.nextID - 1 - |s.field.items|
    && (forall k | 0 <= k < |s.awards| :: s.awards[k].item < s.field.nextID && s.awards[k].item !in s.field.items)
    && (forall j, k | 0 <= j < k < |s.awards| :: s.awards[j].item != s.awards[k].item)
    && (forall k | 0 <= k < |s.awards| :: Before(s.cooldowns, s.awards[k]))
    && (forall j, k | 0 <= j < k < |s.awards| && s.awards[j].player == s.awards[k].player ::
          s.awards[k].when - s.awards[j].when >= COOLDOWN)
  }

  ghost predicate Before(cooldowns: map<PlayerId, Time>, a: Award) {
    a.player in cooldowns && a.when <= cooldowns[a.player]
  }

  // One point per collectible, whatever connections race for it: the points
  // awarded are exactly the items ever made that are gone, no item is awarded
  // twice, and a player's awards lie a cooldown apart, also across
  // reconnections.
  lemma {:induction false} OnePointPerCollectible(cfg: HubConfig, events: seq<Event>)
    requires cfg.Sound()
    ensures AwardsOk(Run(cfg, events))
  {
    hide HubOk, Step, AwardsOk, Gems.FieldOk;
    if events == [] {
      NoAwardsYet(cfg);
    } else {
      var front, e := events[..|events| - 1], events[|events| - 1];
      OnePointPerCollectible(cfg, front);
      RunKeeps(cfg, front);
      FieldRefines(cfg, front);
      Gems.RunKeeps(cfg.gems, FieldHistory(cfg, front));
      StepAwards(cfg, Run(cfg, front), e);
    }
  }

  lemma NoAwardsYet(cfg: HubConfig)
    requires cfg.Sound()
    ensures AwardsOk(Initial(cfg))
  {
    Gems.TargetsAreKnown(cfg.gems.regions);
    GemLaws.SpawnedAllItems(cfg.gems, Gems.EMPTY_FIELD, Gems.Targets(cfg.gems.regions));
  }

  lemma StepAwards(cfg: HubConfig, s: HubState, e: Event)
    requires cfg.Sound() && HubOk(cfg, s) && Gems.FieldOk(cfg.gems, s.field) && AwardsOk(s)
    ensures AwardsOk(Step(cfg, s, e))
  {
    hide HubOk, Step, Gems.FieldApply, AwardsOk, Wins, Considered, Gems.FieldOk;
    var t := Step(cfg, s, e);
    StepOnField(cfg, s, e);
    match e
    case Broadcast(order, now) =>
      if FieldOps(cfg, s, e) == [] {
        SameAwards(s, t);
      } else {
        AdvancedAwards(cfg, s, t, now);
      }
    case Collect(c, item, now, pick) => CollectedAwards(cfg, s, t, c, item, now, pick);
    case _ => SameAwards(s, t);
  }

  lemma SameAwards(s: HubState, t: HubState)
    requires AwardsOk(s) && t.field == s.field && t.awards == s.awards && t.cooldowns == s.cooldowns
    ensures AwardsOk(t)
  {
  }

  lemma AdvancedAwards(cfg: HubConfig, s: HubState, t: HubState, now: Time)
    requires cfg.Sound() && Gems.FieldOk(cfg.gems, s.field) && AwardsOk(s)
    requires t.field == Gems.FieldApply(cfg.gems, s.field, Gems.OpAdvance(now))
    requires t.awards == s.awards && t.cooldowns == s.cooldowns
    ensures AwardsOk(t)
  {
    hide Gems.FieldOk, Gems.Advanced;
    GemLaws.AdvanceIsExact(cfg.gems, s.field, now);
    GemLaws.AdvancedNextID(cfg.gems, s.field, now);
  }

  lemma CollectedAwards(cfg: HubConfig, s: HubState, t: HubState, c: Client, item: CollectibleId, now: Time, pick: nat)
    requires cfg.Sound() && Gems.FieldOk(cfg.gems, s.field) && AwardsOk(s)
    requires t.field == if Wins(cfg, s, c, item, now)
                        then Gems.FieldApply(cfg.gems, s.field, Gems.OpCollect(item, now, pick)) else s.field
    requires t.awards == s.awards + (
               if Wins(cfg, s, c, item, now) then [Award(c.id, item, Number(s.scores, c.id) + 1, now)] else [])
    requires t.cooldowns == if Considered(s, c, now) then s.cooldowns[c.id := now] else s.cooldowns
    ensures AwardsOk(t)
  {
    hide Gems.FieldOk;
    if Wins(cfg, s, c, item, now) {
      GemLaws.ItemsAreNumbered(cfg.gems, s.field, item);
      CollectedItems(cfg, s.field, item, now, pick);
      AwardGiven(s, t, Award(c.id, item, Number(s.scores, c.id) + 1, now));
    } else {
      LaterCooldowns(s, t, c.id, now);
    }
  }

  lemma CollectedItems(cfg: HubConfig, f: Gems.Field, item: CollectibleId, now: Time, pick: nat)
    requires cfg.Sound() && Gems.FieldOk(cfg.gems, f) && item in f.items
    ensures var g := Gems.Collected(cfg.gems, f, item, now, pick);
      g.items == f.items - {item} && |g.items| == |f.items| - 1 && g.nextID == f.nextID
  {
    hide Gems.FieldOk;
    var g := Gems.Collected(cfg.gems, f, item, now, pick);
    assert f.items.Keys == g.items.Keys + {item};
  }

  lemma LaterCooldowns(s: HubState, t: HubState, p: PlayerId, now: Time)
    requires AwardsOk(s) && t.field == s.field && t.awards == s.awards
    requires t.cooldowns == s.cooldowns || (t.cooldowns == s.cooldowns[p := now] && !Cooling(s, p, now))
    ensures AwardsOk(t)
  {
    forall k | 0 <= k < |t.awards|
      ensures Before(t.cooldowns, t.awards[k])
    {
      assert Before(s.cooldowns, s.awards[k]);
    }
  }

  lemma AwardGiven(s: HubState, t: HubState, a: Award)
    requires AwardsOk(s) && !Cooling(s, a.player, a.when)
    requires a.item in s.field.items && a.item < s.field.nextID
    requires t.field.items == s.field.items - {a.item} && |t.field.items| == |s.field.items| - 1
    requires t.field.nextID == s.field.nextID && t.awards == s.awards + [a]
    requires t.cooldowns == s.cooldowns[a.player := a.when]
    ensures AwardsOk(t)
  {
    forall k | 0 <= k < |s.awards|
      ensures Before(t.cooldowns, t.awards[k]) && t.awards[k].item != a.item
      ensures t.awards[k].player == a.player ==> a.when - t.awards[k].when >= COOLDOWN
    {
      assert Before(s.cooldowns, s.awards[k]);
    }
  }

  // An award goes to the current connection of a real player that had been
  // shown the item and stood within reach of it.
  lemma AwardIsEarned(cfg: HubConfig, s: HubState, e: Event)
    requires cfg.Sound() && HubOk(cfg, s) && Step(cfg, s, e).awards != s.awards
    ensures e.Collect? && IsCurrent(s.clients, e.client) && e.client.id !in s.synthetic
    ensures var p := e.client.id;
      && p in s.world.players && e.item in s.field.items && p in s.visible
      && s.field.items[e.item].id in s.visible[p]
      && DistanceSquared(WorldSpot(cfg, s, p), cfg.aoi.ToLocal(s.field.items[e.item].lat, s.field.items[e.item].lng))
           <= Square(REACH)
      && (var t := Step(cfg, s, e);
          && t.awards == s.awards + [Award(p, e.item, Number(s.scores, p) + 1, e.now)]
          && t.scores == s.scores[p := Number(s.scores, p) + 1]
          && t.field.items == s.field.items - {e.item})
  {
    hide DistanceSquared, Square, HubOk, Gone, Registered, Broadcasted, Persisted, Simulated, GivenInput, Dressed,
      AfterCollect;
    StepOnField(cfg, s, e);
    assert e.Collect? && Wins(cfg, s, e.client, e.item, e.now);
    CollectOnField(cfg, s, e.client, e.item, e.now, e.pick);
  }
}

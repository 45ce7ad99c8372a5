// What the hub hands to the writers, step by step, and that what is switched
// off does nothing.
module HubBooks {
  import opened Common
  import opened Sequences
  import opened World
  import opened HubModel
  import opened HubInvariant
  import opened HubLaws
  import Aoi = AoiModel
  import Gems = CollectibleModel
  import Messages

  // Nobody comes or goes, and nothing is written for good.
  ghost predicate SameBooks(s: HubState, t: HubState) {
    t.clients == s.clients && t.synced == s.synced && t.scores == s.scores
  }

  // At most one player goes, and its score is written if it has one and there
  // is a writer.
  ghost predicate OneGoes(cfg: HubConfig, s: HubState, t: HubState, p: PlayerId) {
    && t.clients == s.clients - {p}
    && t.scores == s.scores
    && t.synced == s.synced + if cfg.scoring && p in s.scores then [ScoreWrite(p, s.scores[p])] else []
  }

  lemma GoneBooks(cfg: HubConfig, s: HubState, c: Client)
    ensures if IsCurrent(s.clients, c) then OneGoes(cfg, s, Gone(cfg, s, c), c.id) else Gone(cfg, s, c) == s
  {
    hide Aoi.Removed, LeftFor, WithoutPlayer, FinalSubmitted;
    FinalBooks(cfg, s.(clients := s.clients - {c.id}), c.id);
  }

  lemma FinalBooks(cfg: HubConfig, s: HubState, p: PlayerId)
    ensures SameBooks(s, FinalSubmitted(cfg, s, p))
  {
  }

  lemma {:induction false} SubmittedBooks(s: HubState, order: seq<PlayerId>)
    ensures SameBooks(s, SubmittedAll(s, order))
  {
    if order != [] {
      SubmittedBooks(s, order[..|order| - 1]);
    }
  }

  lemma {:induction false} MovedBooks(cfg: HubConfig, s: HubState, order: seq<PlayerId>)
    ensures SameBooks(s, MovedAll(cfg, s, order)) && MovedAll(cfg, s, order).submitted == s.submitted
  {
    if order != [] {
      hide Aoi.Moved, Aoi.Entered, Aoi.Left, LeftFor;
      MovedBooks(cfg, s, order[..|order| - 1]);
    }
  }

  lemma BroadcastedBooks(cfg: HubConfig, s: HubState, order: seq<PlayerId>, now: Time)
    ensures var t := Broadcasted(cfg, s, order, now); SameBooks(s, t) && t.submitted == s.submitted
  {
    hide MovedAll, ViewsRecalculated, SpawnedNear, Gems.Advanced, ShownAfter;
    var taken := s.(world := s.world.(moved := {}, removed := {}));
    MovedBooks(cfg, taken, order);
    ViewsRecalculatedKeeps(cfg, SpawnsSeen(cfg, MovedAll(cfg, taken, order), Gems.Advanced(cfg.gems, s.field, now)),
                           order);
  }

  lemma JoinedBeside(cfg: HubConfig, s: HubState, c: Client, saved: Option<Saved>)
    ensures var t := Joined(cfg, s, c, saved);
      && t.clients == s.clients && t.synced == s.synced && t.submitted == s.submitted
      && t.scores == StartScores(cfg, s.scores, c.id, saved)
  {
    hide Entering, ForgetLeft, Aoi.Inserted, WithPlayer, StartAt, StartName, StartLook, StartScores;
    EnteringFrame(cfg, s, c, saved);
    EnteringScores(cfg, s, c, saved);
  }

  lemma EnteringScores(cfg: HubConfig, s: HubState, c: Client, saved: Option<Saved>)
    ensures Entering(cfg, s, c, saved).scores == StartScores(cfg, s.scores, c.id, saved)
  {
    hide Aoi.Inserted, WithPlayer, StartAt, StartName, StartLook, StartScores, StartJoin, StartSynthetic;
  }

  lemma AttachedBooks(s: HubState, c: Client)
    ensures var t := Attached(s, c);
      t.clients == s.clients[c.id := c] && t.synced == s.synced && t.scores == s.scores && t.submitted == s.submitted
  {
  }

  lemma InitialisedBooks(cfg: HubConfig, s: HubState, c: Client, sent: bool)
    requires IsCurrent(s.clients, c)
    ensures var t := Initialised(cfg, s, c, sent);
      if c.id in s.world.players && sent then SameBooks(s, t) && t.submitted == s.submitted
      else OneGoes(cfg, s, t, c.id)
  {
    hide Gone, InView;
    GoneBooks(cfg, s, c);
  }

  // A registration: the player stays if its opening messages could be sent.
  lemma RegisteredBooks(cfg: HubConfig, s: HubState, c: Client, saved: Option<Saved>, sent: bool)
    ensures var t := Registered(cfg, s, c, saved, sent);
      if c.id in t.clients then t.clients == s.clients[c.id := c] && t.synced == s.synced
      else
        && t.clients == s.clients - {c.id}
        && t.synced == s.synced + if cfg.scoring && c.id in t.scores then [ScoreWrite(c.id, t.scores[c.id])] else []
  {
    hide Joined, Attached, Initialised, WithInputReset;
    var base := s;
    if c.id in s.clients && s.clients[c.id] != c {
      base := s.(world := WithInputReset(s.world, c.id));
    } else if c.id !in s.world.players {
      base := Joined(cfg, s, c, saved);
      JoinedBeside(cfg, s, c, saved);
    }
    AttachedBooks(base, c);
    InitialisedBooks(cfg, Attached(base, c), c, sent);
    assert s.clients[c.id := c] - {c.id} == s.clients - {c.id};
  }

  // A step takes p's connection away, be it one that only just came.
  ghost predicate Leaves(s: HubState, e: Event, t: HubState, p: PlayerId) {
    p !in t.clients && (p in s.clients || (e.Register? && e.client.id == p))
  }

  ghost predicate Written(cfg: HubConfig, s: HubState, e: Event, t: HubState) {
    && (forall p | Leaves(s, e, t, p) ::
          t.synced == s.synced + if cfg.scoring && p in t.scores then [ScoreWrite(p, t.scores[p])] else [])
    && ((forall p :: !Leaves(s, e, t, p)) ==> t.synced == s.synced)
  }

  lemma StepWrites(cfg: HubConfig, s: HubState, e: Event)
    requires cfg.Sound() && HubOk(cfg, s)
    ensures Written(cfg, s, e, Step(cfg, s, e))
  {
    hide HubOk, Written, Gone, Registered, GivenInput, Dressed, Simulated, Broadcasted, Persisted, AfterCollect;
    var t := Step(cfg, s, e);
    if Possible(s, e) {
      match e
      case Register(c, saved, sent) =>
        RegisteredBooks(cfg, s, c, saved, sent);
        WrittenByRegister(cfg, s, e, t);
      case Unregister(c) =>
        GoneBooks(cfg, s, c);
        WrittenByGoing(cfg, s, e, t, c.id);
      case DisconnectUser(p) =>
        if p in s.clients {
          ConnectedUnderOwnId(cfg, s, p);
          GoneBooks(cfg, s, s.clients[p]);
          WrittenByGoing(cfg, s, e, t, p);
        } else {
          WrittenByNobody(cfg, s, e, t);
        }
      case Input(c, input) =>
        InputBooks(s, c, input);
        WrittenByNobody(cfg, s, e, t);
      case UpdateAppearance(p, appearance) =>
        DressedBooks(s, p, appearance);
        WrittenByNobody(cfg, s, e, t);
      case Simulate(places) =>
        SimulatedBooks(s, places);
        WrittenByNobody(cfg, s, e, t);
      case Broadcast(order, now) =>
        BroadcastedBooks(cfg, s, order, now);
        WrittenByNobody(cfg, s, e, t);
      case Persist(order) =>
        PersistedBooks(cfg, s, order);
        WrittenByNobody(cfg, s, e, t);
      case Collect(c, item, now, pick) =>
        AfterCollectFrame(cfg, s, c, item, now, pick);
        WrittenByNobody(cfg, s, e, t);
    } else {
      WrittenByNobody(cfg, s, e, t);
    }
  }

  lemma ConnectedUnderOwnId(cfg: HubConfig, s: HubState, p: PlayerId)
    requires HubOk(cfg, s) && p in s.clients
    ensures s.clients[p].id == p && IsCurrent(s.clients, s.clients[p])
  {
  }

  lemma InputBooks(s: HubState, c: Client, input: InputState)
    ensures SameBooks(s, GivenInput(s, c, input)) && GivenInput(s, c, input).submitted == s.submitted
  {
    hide WithInput;
  }

  lemma DressedBooks(s: HubState, p: PlayerId, appearance: Messages.Appearance)
    ensures SameBooks(s, Dressed(s, p, appearance)) && Dressed(s, p, appearance).submitted == s.submitted
  {
    hide Dressed, WithAppearance, ChangesLook;
    DressedFrame(s, p, appearance);
  }

  lemma SimulatedBooks(s: HubState, places: PlayerId -> LatLng)
    ensures SameBooks(s, Simulated(s, places)) && Simulated(s, places).submitted == s.submitted
  {
    hide Stepped, Movers;
  }

  lemma PersistedBooks(cfg: HubConfig, s: HubState, order: seq<PlayerId>)
    ensures SameBooks(s, Persisted(cfg, s, order))
    ensures !cfg.persisting ==> Persisted(cfg, s, order) == s
  {
    hide SubmittedAll;
    SubmittedBooks(s, order);
  }

  lemma WrittenByNobody(cfg: HubConfig, s: HubState, e: Event, t: HubState)
    requires !e.Register? && t.clients == s.clients && t.synced == s.synced
    ensures Written(cfg, s, e, t)
  {
  }

  lemma WrittenByGoing(cfg: HubConfig, s: HubState, e: Event, t: HubState, p: PlayerId)
    requires !e.Register? && (t == s || (p in s.clients && OneGoes(cfg, s, t, p)))
    ensures Written(cfg, s, e, t)
  {
    assert t != s ==> Leaves(s, e, t, p);
  }

  lemma WrittenByRegister(cfg: HubConfig, s: HubState, e: Event, t: HubState)
    requires e.Register?
    requires var p := e.client.id;
      if p in t.clients then t.clients == s.clients[p := e.client] && t.synced == s.synced
      else
        && t.clients == s.clients - {p}
        && t.synced == s.synced + if cfg.scoring && p in t.scores then [ScoreWrite(p, t.scores[p])] else []
    ensures Written(cfg, s, e, t)
  {
    assert e.client.id !in t.clients ==> Leaves(s, e, t, e.client.id);
  }

  // Over every run a step writes scores for good exactly when a connection goes:
  // the score of its player, if it has one and there is a writer.
  lemma WrittenIffLeaving(cfg: HubConfig, events: seq<Event>, e: Event)
    requires cfg.Sound()
    ensures Written(cfg, Run(cfg, events), e, Run(cfg, events + [e]))
  {
    hide Run, HubOk, Written, Step;
    RunKeeps(cfg, events);
    RunExtends(cfg, events, e);
    StepWrites(cfg, Run(cfg, events), e);
  }

  // ------------------------------------------------------------------
  // What is switched off
  // ------------------------------------------------------------------

  lemma StepSubmitsNothing(cfg: HubConfig, s: HubState, e: Event)
    requires cfg.Sound() && HubOk(cfg, s) && !cfg.persisting
    ensures Step(cfg, s, e).submitted == s.submitted
  {
    hide HubOk, Gone, Registered, GivenInput, Dressed, Simulated, Broadcasted, Persisted, AfterCollect;
    if Possible(s, e) {
      match e
      case Register(c, saved, sent) => RegisteredSubmitsNothing(cfg, s, c, saved, sent);
      case Unregister(c) => GoneSubmitsNothing(cfg, s, c);
      case DisconnectUser(p) => if p in s.clients { GoneSubmitsNothing(cfg, s, s.clients[p]); }
      case Input(c, input) => InputBooks(s, c, input);
      case UpdateAppearance(p, appearance) => DressedBooks(s, p, appearance);
      case Simulate(places) => SimulatedBooks(s, places);
      case Broadcast(order, now) => BroadcastedBooks(cfg, s, order, now);
      case Persist(order) => PersistedBooks(cfg, s, order);
      case Collect(c, item, now, pick) => AfterCollectFrame(cfg, s, c, item, now, pick);
    }
  }

  lemma GoneSubmitsNothing(cfg: HubConfig, s: HubState, c: Client)
    requires !cfg.persisting
    ensures Gone(cfg, s, c).submitted == s.submitted
  {
    hide Aoi.Removed, LeftFor, WithoutPlayer, ScoreSynced;
  }

  lemma RegisteredSubmitsNothing(cfg: HubConfig, s: HubState, c: Client, saved: Option<Saved>, sent: bool)
    requires !cfg.persisting
    ensures Registered(cfg, s, c, saved, sent).submitted == s.submitted
  {
    hide Joined, Attached, WithInputReset, Initialised;
    var base := s;
    if c.id in s.clients && s.clients[c.id] != c {
      base := s.(world := WithInputReset(s.world, c.id));
    } else if c.id !in s.world.players {
      base := Joined(cfg, s, c, saved);
      JoinedBeside(cfg, s, c, saved);
    }
    AttachedBooks(base, c);
    InitialisedSubmitsNothing(cfg, Attached(base, c), c, sent);
  }

  lemma InitialisedSubmitsNothing(cfg: HubConfig, s: HubState, c: Client, sent: bool)
    requires !cfg.persisting
    ensures Initialised(cfg, s, c, sent).submitted == s.submitted
  {
    hide Gone, InView;
    GoneSubmitsNothing(cfg, s, c);
  }

  // Over every run: without a position writer no position is handed over,
  // without a score writer no score is written for good, and without
  // collectibles there are no awards and the field is never touched.
  lemma {:induction false} SwitchedOffDoesNothing(cfg: HubConfig, events: seq<Event>)
    requires cfg.Sound()
    ensures !cfg.persisting ==> Run(cfg, events).submitted == []
    ensures !cfg.scoring ==> Run(cfg, events).synced == []
    ensures !cfg.collecting ==> Run(cfg, events).awards == [] && Run(cfg, events).field == Gems.Populated(cfg.gems)
  {
    if events != [] {
      hide HubOk, Step, Gems.Populated;
      var front, e := events[..|events| - 1], events[|events| - 1];
      SwitchedOffDoesNothing(cfg, front);
      RunKeeps(cfg, front);
      StepOnField(cfg, Run(cfg, front), e);
      StepWrites(cfg, Run(cfg, front), e);
      if !cfg.persisting {
        StepSubmitsNothing(cfg, Run(cfg, front), e);
      }
    }
  }

  // ------------------------------------------------------------------
  // Which positions wait to be saved
  // ------------------------------------------------------------------

  // p has walked in a simulation step since it joined and since the positions
  // were last handed over.
  ghost predicate WalkedSince(cfg: HubConfig, events: seq<Event>, p: PlayerId)
    requires cfg.Sound()
  {
    && events != []
    && var front, e := events[..|events| - 1], events[|events| - 1];
       var s := Run(cfg, front);
       && p in Run(cfg, events).clients
       && match e
          case Simulate(_) =>
            WalkedSince(cfg, front, p) || (p in s.world.players && Walks(s.world.players[p].input))
          case Persist(_) => !(cfg.persisting && Possible(s, e)) && WalkedSince(cfg, front, p)
          case _ => WalkedSince(cfg, front, p)
  }

  // One of two opposite keys is pressed.
  predicate Walks(input: InputState) {
    (input.up && !input.down) || (input.down && !input.up) || (input.left && !input.right)
    || (input.right && !input.left)
  }

  lemma GoneDirty(cfg: HubConfig, s: HubState, c: Client)
    ensures var t := Gone(cfg, s, c);
      if IsCurrent(s.clients, c) then t.dirty == s.dirty - {c.id} && t.clients == s.clients - {c.id} else t == s
  {
    hide Aoi.Removed, LeftFor, WithoutPlayer, FinalSubmitted, ScoreSynced;
    FinalBooks(cfg, s.(clients := s.clients - {c.id}), c.id);
  }

  lemma InitialisedDirty(cfg: HubConfig, s: HubState, c: Client, sent: bool)
    requires IsCurrent(s.clients, c)
    ensures var t := Initialised(cfg, s, c, sent);
      if c.id in t.clients then t.dirty == s.dirty && t.clients == s.clients
      else t.dirty == s.dirty - {c.id} && t.clients == s.clients - {c.id}
  {
    hide Gone, InView;
    GoneDirty(cfg, s, c);
  }

  lemma JoinedDirty(cfg: HubConfig, s: HubState, c: Client, saved: Option<Saved>)
    ensures Joined(cfg, s, c, saved).dirty == s.dirty && Joined(cfg, s, c, saved).clients == s.clients
  {
    hide Joined, WithPlayer, StartAt, StartName, StartLook, Aoi.Inserted;
    JoinedFrame(cfg, s, c, saved);
    JoinedBeside(cfg, s, c, saved);
  }

  lemma AttachedDirty(s: HubState, c: Client)
    ensures Attached(s, c).dirty == s.dirty && Attached(s, c).clients == s.clients[c.id := c]
  {
  }

  lemma RegisteredDirty(cfg: HubConfig, s: HubState, c: Client, saved: Option<Saved>, sent: bool)
    ensures var t := Registered(cfg, s, c, saved, sent);
      && t.dirty == (if c.id in t.clients then s.dirty else s.dirty - {c.id})
      && forall p | p != c.id :: p in t.clients <==> p in s.clients
  {
    hide Joined, Attached, Initialised, WithInputReset;
    var base := s;
    if c.id in s.clients && s.clients[c.id] != c {
      base := s.(world := WithInputReset(s.world, c.id));
    } else if c.id !in s.world.players {
      base := Joined(cfg, s, c, saved);
      JoinedDirty(cfg, s, c, saved);
    }
    AttachedDirty(base, c);
    InitialisedDirty(cfg, Attached(base, c), c, sent);
  }

  ghost predicate FewerDirty(s: HubState, t: HubState) {
    forall p :: p in t.dirty <==> p in s.dirty && p in t.clients
  }

  lemma GoingLeavesDirty(cfg: HubConfig, s: HubState, c: Client)
    requires s.dirty <= s.clients.Keys
    ensures FewerDirty(s, Gone(cfg, s, c))
  {
    hide Gone;
    GoneDirty(cfg, s, c);
  }

  lemma ComingLeavesDirty(cfg: HubConfig, s: HubState, c: Client, saved: Option<Saved>, sent: bool)
    requires s.dirty <= s.clients.Keys
    ensures FewerDirty(s, Registered(cfg, s, c, saved, sent))
  {
    hide Registered;
    RegisteredDirty(cfg, s, c, saved, sent);
  }

  lemma SameDirty(s: HubState, t: HubState)
    requires s.dirty <= s.clients.Keys && t.dirty == s.dirty && t.clients == s.clients
    ensures FewerDirty(s, t)
  {
  }

  // Every other step but a simulation or a persistence step keeps them.
  lemma StepDirty(cfg: HubConfig, s: HubState, e: Event)
    requires cfg.Sound() && HubOk(cfg, s)
    ensures var t := Step(cfg, s, e);
      match e
      case Simulate(_) => t.dirty == s.dirty + Movers(s.world) && t.clients == s.clients
      case Persist(_) =>
        t.clients == s.clients && t.dirty == if cfg.persisting && Possible(s, e) then {} else s.dirty
      case _ => FewerDirty(s, t)
  {
    DirtyAreConnected(cfg, s);
    hide HubOk, Gone, Registered, GivenInput, Dressed, Broadcasted, AfterCollect, SubmittedAll, Stepped, Movers,
      FewerDirty;
    SameDirty(s, s);
    if Possible(s, e) {
      match e
      case Register(c, saved, sent) => ComingLeavesDirty(cfg, s, c, saved, sent);
      case Unregister(c) => GoingLeavesDirty(cfg, s, c);
      case DisconnectUser(p) => if p in s.clients { GoingLeavesDirty(cfg, s, s.clients[p]); }
      case Input(c, input) =>
        InputDirty(s, c, input);
        SameDirty(s, GivenInput(s, c, input));
      case UpdateAppearance(p, appearance) =>
        DressedDirty(s, p, appearance);
        SameDirty(s, Dressed(s, p, appearance));
      case Simulate(places) =>
      case Broadcast(order, now) =>
        BroadcastedDirty(cfg, s, order, now);
        SameDirty(s, Broadcasted(cfg, s, order, now));
      case Persist(order) => SubmittedBooks(s, order);
      case Collect(c, item, now, pick) =>
        AfterCollectFrame(cfg, s, c, item, now, pick);
        SameDirty(s, AfterCollect(cfg, s, c, item, now, pick));
    }
  }

  lemma DirtyAreConnected(cfg: HubConfig, s: HubState)
    requires HubOk(cfg, s)
    ensures s.dirty <= s.clients.Keys <= s.world.players.Keys
  {
  }

  lemma InputDirty(s: HubState, c: Client, input: InputState)
    ensures GivenInput(s, c, input).dirty == s.dirty && GivenInput(s, c, input).clients == s.clients
  {
    hide WithInput;
  }

  lemma DressedDirty(s: HubState, p: PlayerId, appearance: Messages.Appearance)
    ensures Dressed(s, p, appearance).dirty == s.dirty && Dressed(s, p, appearance).clients == s.clients
  {
    hide Dressed, WithAppearance, ChangesLook;
    DressedFrame(s, p, appearance);
  }

  lemma {:induction false} MovedDirty(cfg: HubConfig, s: HubState, order: seq<PlayerId>)
    ensures MovedAll(cfg, s, order).dirty == s.dirty
  {
    if order != [] {
      hide Aoi.Moved, Aoi.Entered, Aoi.Left, LeftFor;
      MovedDirty(cfg, s, order[..|order| - 1]);
    }
  }

  lemma BroadcastedDirty(cfg: HubConfig, s: HubState, order: seq<PlayerId>, now: Time)
    ensures Broadcasted(cfg, s, order, now).dirty == s.dirty && Broadcasted(cfg, s, order, now).clients == s.clients
  {
    hide MovedAll, ViewsRecalculated, SpawnedNear, Gems.Advanced, ShownAfter;
    var taken := s.(world := s.world.(moved := {}, removed := {}));
    MovedBooks(cfg, taken, order);
    MovedDirty(cfg, taken, order);
    ViewsRecalculatedKeeps(cfg, SpawnsSeen(cfg, MovedAll(cfg, taken, order), Gems.Advanced(cfg.gems, s.field, now)),
                           order);
  }

  // Over every run a position waits to be saved exactly when its player is
  // connected and has walked since it joined and since the last handing over.
  lemma {:induction false} DirtyHaveWalked(cfg: HubConfig, events: seq<Event>, p: PlayerId)
    requires cfg.Sound()
    ensures p in Run(cfg, events).dirty <==> WalkedSince(cfg, events, p)
  {
    if events != [] {
      hide HubOk, Step, Possible;
      var front, e := events[..|events| - 1], events[|events| - 1];
      DirtyHaveWalked(cfg, front, p);
      RunKeeps(cfg, front);
      RunKeeps(cfg, events);
      DirtyAreConnected(cfg, Run(cfg, events));
      StepDirty(cfg, Run(cfg, front), e);
    }
  }

  lemma {:induction false} SubmittedInTurn(s: HubState, order: seq<PlayerId>)
    requires forall p | p in order :: p in s.world.players
    ensures var t := SubmittedAll(s, order);
      && t.world == s.world
      && |t.submitted| == |s.submitted| + |order| && t.submitted[..|s.submitted|] == s.submitted
      && forall k | 0 <= k < |order| ::
           && t.submitted[|s.submitted| + k].user == order[k]
           && t.submitted[|s.submitted| + k].at == s.world.players[order[k]].at
  {
    if order != [] {
      assert order == order[..|order| - 1] + [order[|order| - 1]];
      SubmittedInTurn(s, order[..|order| - 1]);
    }
  }

  // Over every run a persistence step hands over the positions of exactly the
  // players whose positions wait, each once, and none waits afterwards.
  lemma PersistingIsExact(cfg: HubConfig, events: seq<Event>, order: seq<PlayerId>)
    requires cfg.Sound() && cfg.persisting && Possible(Run(cfg, events), Persist(order))
    ensures var s, t := Run(cfg, events), Run(cfg, events + [Persist(order)]);
      && Lists(order, s.dirty) && s.dirty <= s.world.players.Keys
      && t.dirty == {} && t.world == s.world
      && |t.submitted| == |s.submitted| + |order| && t.submitted[..|s.submitted|] == s.submitted
      && forall k | 0 <= k < |order| ::
           && order[k] in s.world.players
           && t.submitted[|s.submitted| + k].user == order[k]
           && t.submitted[|s.submitted| + k].at == s.world.players[order[k]].at
  {
    hide Run, HubOk, SubmittedAll;
    var s := Run(cfg, events);
    RunKeeps(cfg, events);
    RunExtends(cfg, events, Persist(order));
    DirtyAreConnected(cfg, s);
    forall p | p in order
      ensures p in s.world.players
    {
      assert p in ToSet(order);
    }
    SubmittedInTurn(s, order);
    OnlyEmptyListsEmpty(order);
  }

  // ------------------------------------------------------------------
  // The tick that updates carry
  // ------------------------------------------------------------------

  ghost function Simulations(events: seq<Event>): nat {
    if events == [] then 0
    else Simulations(events[..|events| - 1]) + if events[|events| - 1].Simulate? then 1 else 0
  }

  lemma GoneTick(cfg: HubConfig, s: HubState, c: Client)
    ensures Gone(cfg, s, c).world.tick == s.world.tick
  {
    hide Aoi.Removed, LeftFor, FinalSubmitted, ScoreSynced;
  }

  lemma RegisteredTick(cfg: HubConfig, s: HubState, c: Client, saved: Option<Saved>, sent: bool)
    ensures Registered(cfg, s, c, saved, sent).world.tick == s.world.tick
  {
    hide Joined, Attached, Gone, InView;
    var base := s;
    if c.id in s.clients && s.clients[c.id] != c {
      base := s.(world := WithInputReset(s.world, c.id));
    } else if c.id !in s.world.players {
      base := Joined(cfg, s, c, saved);
      JoinedTick(cfg, s, c, saved);
    }
    AttachedTick(base, c);
    GoneTick(cfg, Attached(base, c), c);
  }

  lemma AttachedTick(s: HubState, c: Client)
    ensures Attached(s, c).world == s.world
  {
  }

  lemma JoinedTick(cfg: HubConfig, s: HubState, c: Client, saved: Option<Saved>)
    ensures Joined(cfg, s, c, saved).world.tick == s.world.tick
  {
    hide Joined, StartAt, StartName, StartLook, Aoi.Inserted;
    JoinedFrame(cfg, s, c, saved);
  }

  lemma DressedTick(s: HubState, p: PlayerId, appearance: Messages.Appearance)
    ensures Dressed(s, p, appearance).world.tick == s.world.tick
  {
    hide Dressed, ChangesLook;
    DressedFrame(s, p, appearance);
  }

  lemma {:induction false} SubmittedTick(s: HubState, order: seq<PlayerId>)
    ensures SubmittedAll(s, order).world == s.world
  {
    if order != [] {
      SubmittedTick(s, order[..|order| - 1]);
    }
  }

  lemma {:induction false} MovedTick(cfg: HubConfig, s: HubState, order: seq<PlayerId>)
    ensures MovedAll(cfg, s, order).world == s.world
  {
    if order != [] {
      hide Aoi.Moved, Aoi.Entered, Aoi.Left, LeftFor;
      MovedTick(cfg, s, order[..|order| - 1]);
    }
  }

  lemma BroadcastedTick(cfg: HubConfig, s: HubState, order: seq<PlayerId>, now: Time)
    ensures Broadcasted(cfg, s, order, now).world.tick == s.world.tick
  {
    hide MovedAll, ViewsRecalculated, SpawnedNear, Gems.Advanced, ShownAfter;
    var taken := s.(world := s.world.(moved := {}, removed := {}));
    MovedTick(cfg, taken, order);
    ViewsRecalculatedKeeps(cfg, SpawnsSeen(cfg, MovedAll(cfg, taken, order), Gems.Advanced(cfg.gems, s.field, now)),
                           order);
  }

  lemma StepTick(cfg: HubConfig, s: HubState, e: Event)
    requires cfg.Sound()
    ensures Step(cfg, s, e).world.tick == s.world.tick + if e.Simulate? then 1 else 0
  {
    hide Gone, Registered, Dressed, Broadcasted, AfterCollect, SubmittedAll, MovedTo;
    if Possible(s, e) {
      match e
      case Register(c, saved, sent) => RegisteredTick(cfg, s, c, saved, sent);
      case Unregister(c) => GoneTick(cfg, s, c);
      case DisconnectUser(p) => if p in s.clients { GoneTick(cfg, s, s.clients[p]); }
      case Input(c, input) =>
      case UpdateAppearance(p, appearance) => DressedTick(s, p, appearance);
      case Simulate(places) =>
      case Broadcast(order, now) => BroadcastedTick(cfg, s, order, now);
      case Persist(order) => SubmittedTick(s, order);
      case Collect(c, item, now, pick) => AfterCollectFrame(cfg, s, c, item, now, pick);
    }
  }

  // Over every run the tick is the number of simulation steps.
  lemma {:induction false} TickCountsSimulations(cfg: HubConfig, events: seq<Event>)
    requires cfg.Sound()
    ensures Run(cfg, events).world.tick == Simulations(events)
  {
    if events != [] {
      hide Step;
      TickCountsSimulations(cfg, events[..|events| - 1]);
      StepTick(cfg, Run(cfg, events[..|events| - 1]), events[|events| - 1]);
    }
  }
}

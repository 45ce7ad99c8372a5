// Which input moves a player.
module HubInputs {
  import opened Common
  import opened Sequences
  import opened World
  import opened HubModel
  import opened HubInvariant
  import opened HubLaws
  import Aoi = AoiModel
  import Messages

  // What the player's present connection has sent since it took the player's
  // place, taken or not, in order.
  ghost function Received(cfg: HubConfig, events: seq<Event>, p: PlayerId): seq<InputState>
    requires cfg.Sound()
  {
    if events == [] then []
    else
      var front, e := events[..|events| - 1], events[|events| - 1];
      var s := Run(cfg, front);
      if e.Input? && e.client.id == p && IsCurrent(s.clients, e.client) then Received(cfg, front, p) + [e.input]
      else if NewConnection(s, e, p) then []
      else Received(cfg, front, p)
  }

  // A connection takes the player's place, or the player joins.
  ghost predicate NewConnection(s: HubState, e: Event, p: PlayerId) {
    e.Register? && e.client.id == p && !IsCurrent(s.clients, e.client)
  }

  // The first of the highest-numbered of these inputs moves the player; none
  // does if none is numbered above zero.
  ghost predicate MovedBy(received: seq<InputState>, w: Walker) {
    && (forall i | i in received :: i.sequence <= w.lastSequence)
    && if w.lastSequence == 0 then w.input == NO_INPUT
       else exists k | 0 <= k < |received| :: IsFirst(received, k, w)
  }

  ghost predicate IsFirst(received: seq<InputState>, k: nat, w: Walker)
    requires k < |received|
  {
    && received[k] == w.input && w.input.sequence == w.lastSequence
    && forall j | 0 <= j < k :: received[j].sequence < w.lastSequence
  }

  // ------------------------------------------------------------------
  // What a step does to one player's input
  // ------------------------------------------------------------------

  ghost predicate SameInput(s: HubState, t: HubState, p: PlayerId) {
    && p in s.world.players && p in t.world.players
    && t.world.players[p].input == s.world.players[p].input
    && t.world.players[p].lastSequence == s.world.players[p].lastSequence
  }

  ghost predicate NoInputYet(t: HubState, p: PlayerId) {
    p in t.world.players && t.world.players[p].input == NO_INPUT && t.world.players[p].lastSequence == 0
  }

  lemma GoneInput(cfg: HubConfig, s: HubState, c: Client, p: PlayerId)
    requires p in Gone(cfg, s, c).world.players
    ensures SameInput(s, Gone(cfg, s, c), p)
  {
    hide FinalSubmitted, Aoi.Removed, LeftFor, ScoreSynced;
  }

  lemma InitialisedInput(cfg: HubConfig, s: HubState, c: Client, sent: bool, p: PlayerId)
    requires p in Initialised(cfg, Attached(s, c), c, sent).world.players
    ensures SameInput(s, Initialised(cfg, Attached(s, c), c, sent), p)
  {
    hide Gone, InView;
    AttachedWorld(s, c);
    hide Attached;
    if p in Gone(cfg, Attached(s, c), c).world.players {
      GoneInput(cfg, Attached(s, c), c, p);
    }
  }

  lemma AttachedWorld(s: HubState, c: Client)
    ensures Attached(s, c).world == s.world
  {
  }

  lemma RegisteredInput(cfg: HubConfig, s: HubState, c: Client, saved: Option<Saved>, sent: bool, p: PlayerId)
    requires HubOk(cfg, s) && p in Registered(cfg, s, c, saved, sent).world.players
    ensures var t := Registered(cfg, s, c, saved, sent);
      if c.id == p && !IsCurrent(s.clients, c) then NoInputYet(t, p) else SameInput(s, t, p)
  {
    hide HubOk, Joined, Attached, Initialised;
    KnownIsConnected(cfg, s, c.id);
    if c.id in s.clients && s.clients[c.id] != c {
      InitialisedInput(cfg, s.(world := WithInputReset(s.world, c.id)), c, sent, p);
    } else if c.id in s.world.players {
      InitialisedInput(cfg, s, c, sent, p);
    } else {
      InitialisedInput(cfg, Joined(cfg, s, c, saved), c, sent, p);
      JoinedWorld(cfg, s, c, saved);
    }
  }

  lemma JoinedWorld(cfg: HubConfig, s: HubState, c: Client, saved: Option<Saved>)
    ensures Joined(cfg, s, c, saved).world
         == WithPlayer(s.world, c.id, StartAt(cfg, saved), StartName(c, saved), StartLook(cfg, saved))
  {
    hide Joined, WithPlayer, StartAt, StartName, StartLook;
    JoinedFrame(cfg, s, c, saved);
  }

  lemma BroadcastedInput(cfg: HubConfig, s: HubState, order: seq<PlayerId>, now: Time, p: PlayerId)
    requires HubOk(cfg, s) && ToSet(order) == s.world.moved && p in Broadcasted(cfg, s, order, now).world.players
    ensures SameInput(s, Broadcasted(cfg, s, order, now), p)
  {
    hide HubOk, Broadcasted;
    BroadcastEmptiesMoved(cfg, s, order, now);
  }

  lemma PersistedInput(cfg: HubConfig, s: HubState, order: seq<PlayerId>)
    ensures Persisted(cfg, s, order).world == s.world
  {
    hide SubmittedAll;
    SubmittedAllNumbers(s, order);
  }

  lemma AfterCollectInput(cfg: HubConfig, s: HubState, c: Client, item: CollectibleId, now: Time, pick: nat)
    requires cfg.Sound()
    ensures AfterCollect(cfg, s, c, item, now, pick).world == s.world
  {
    hide AfterCollect;
    AfterCollectFrame(cfg, s, c, item, now, pick);
  }

  lemma GivenInputInput(s: HubState, c: Client, input: InputState, p: PlayerId)
    requires p in GivenInput(s, c, input).world.players
    ensures var t := GivenInput(s, c, input);
      && p in s.world.players
      && if c.id == p && IsCurrent(s.clients, c) && input.sequence > s.world.players[p].lastSequence then
           t.world.players[p].input == input && t.world.players[p].lastSequence == input.sequence
         else SameInput(s, t, p)
  {
  }

  lemma LookKeepsInput(w: WorldState, q: PlayerId, appearance: Messages.Appearance, p: PlayerId)
    requires p in WithAppearance(w, q, appearance).players
    ensures p in w.players
    ensures var was, now := w.players[p], WithAppearance(w, q, appearance).players[p];
      now.input == was.input && now.lastSequence == was.lastSequence
  {
  }

  lemma DressedWorld(s: HubState, q: PlayerId, appearance: Messages.Appearance)
    ensures Dressed(s, q, appearance).world == WithAppearance(s.world, q, appearance)
  {
    hide Dressed, Outbox.WithLook;
    DressedFrame(s, q, appearance);
  }

  lemma DressedInput(s: HubState, q: PlayerId, appearance: Messages.Appearance, p: PlayerId)
    requires p in Dressed(s, q, appearance).world.players
    ensures SameInput(s, Dressed(s, q, appearance), p)
  {
    hide Dressed, WithAppearance;
    DressedWorld(s, q, appearance);
    LookKeepsInput(s.world, q, appearance, p);
  }

  lemma SimulatedInput(s: HubState, places: PlayerId -> LatLng, p: PlayerId)
    requires p in Simulated(s, places).world.players
    ensures SameInput(s, Simulated(s, places), p)
  {
  }

  // Only input and a new connection change what moves a player.
  lemma StepInput(cfg: HubConfig, s: HubState, e: Event, p: PlayerId)
    requires cfg.Sound() && HubOk(cfg, s) && p in Step(cfg, s, e).world.players
    ensures var t := Step(cfg, s, e);
      if NewConnection(s, e, p) then NoInputYet(t, p)
      else
        && p in s.world.players
        && if e.Input? && e.client.id == p && IsCurrent(s.clients, e.client)
                && e.input.sequence > s.world.players[p].lastSequence then
             t.world.players[p].input == e.input && t.world.players[p].lastSequence == e.input.sequence
           else SameInput(s, t, p)
  {
    hide HubOk, Gone, Registered, GivenInput, Dressed, Simulated, Broadcasted, Persisted, AfterCollect;
    if Possible(s, e) {
      match e
      case Register(c, saved, sent) => RegisteredInput(cfg, s, c, saved, sent, p);
      case Unregister(c) => GoneInput(cfg, s, c, p);
      case DisconnectUser(q) => if q in s.clients { GoneInput(cfg, s, s.clients[q], p); }
      case Input(c, input) => GivenInputInput(s, c, input, p);
      case UpdateAppearance(q, appearance) => DressedInput(s, q, appearance, p);
      case Simulate(places) => SimulatedInput(s, places, p);
      case Broadcast(order, now) => BroadcastedInput(cfg, s, order, now, p);
      case Persist(order) => PersistedInput(cfg, s, order);
      case Collect(c, item, now, pick) => AfterCollectInput(cfg, s, c, item, now, pick);
    }
  }

  // ------------------------------------------------------------------
  // Over every run
  // ------------------------------------------------------------------

  // A player is moved by the first of the highest-numbered inputs its present
  // connection has sent since it took the player's place.
  lemma {:induction false} HighestInputMoves(cfg: HubConfig, events: seq<Event>, p: PlayerId)
    requires cfg.Sound() && p in Run(cfg, events).world.players
    ensures MovedBy(Received(cfg, events, p), Run(cfg, events).world.players[p])
  {
    if events != [] {
      hide HubOk, Step, SameInput, MovedBy;
      var front, e := events[..|events| - 1], events[|events| - 1];
      var s, t := Run(cfg, front), Run(cfg, events);
      RunKeeps(cfg, front);
      StepInput(cfg, s, e, p);
      if NewConnection(s, e, p) {
        NothingMoves(t, p);
      } else {
        HighestInputMoves(cfg, front, p);
        OneMoreReceived(s, t, e, p, Received(cfg, front, p));
      }
    }
  }

  lemma NothingMoves(t: HubState, p: PlayerId)
    requires NoInputYet(t, p)
    ensures MovedBy([], t.world.players[p])
  {
  }

  lemma OneMoreReceived(s: HubState, t: HubState, e: Event, p: PlayerId, received: seq<InputState>)
    requires p in s.world.players && p in t.world.players && MovedBy(received, s.world.players[p])
    requires if e.Input? && e.client.id == p && IsCurrent(s.clients, e.client)
                 && e.input.sequence > s.world.players[p].lastSequence then
               t.world.players[p].input == e.input && t.world.players[p].lastSequence == e.input.sequence
             else SameInput(s, t, p)
    ensures var arrived := e.Input? && e.client.id == p && IsCurrent(s.clients, e.client);
      MovedBy(if arrived then received + [e.input] else received, t.world.players[p])
  {
    var was, now := s.world.players[p], t.world.players[p];
    if e.Input? && e.client.id == p && IsCurrent(s.clients, e.client) {
      var more := received + [e.input];
      if e.input.sequence > was.lastSequence {
        assert forall j | 0 <= j < |received| :: received[j] in received;
        assert IsFirst(more, |received|, now);
      } else if was.lastSequence > 0 {
        var k :| 0 <= k < |received| && IsFirst(received, k, was);
        assert IsFirst(more, k, now);
      }
    } else if was.lastSequence > 0 {
      var k :| 0 <= k < |received| && IsFirst(received, k, was);
      assert IsFirst(received, k, now);
    }
  }

  // So input changes anything if and only if it is from the current connection
  // and numbered above zero and above all that connection has sent before: the
  // numbers taken in a session strictly increase.
  lemma OnlyHigherInputCounts(cfg: HubConfig, events: seq<Event>, c: Client, input: InputState)
    requires cfg.Sound()
    ensures Run(cfg, events + [Input(c, input)]) != Run(cfg, events) <==>
      && IsCurrent(Run(cfg, events).clients, c)
      && input.sequence > 0
      && forall i | i in Received(cfg, events, c.id) :: input.sequence > i.sequence
  {
    hide HubOk, Step, MovedBy, Run;
    var s := Run(cfg, events);
    RunExtends(cfg, events, Input(c, input));
    RunKeeps(cfg, events);
    KnownIsConnected(cfg, s, c.id);
    InputStep(cfg, s, c, input);
    OnlyNewerInputCounts(s, c, input);
    if IsCurrent(s.clients, c) {
      HighestInputMoves(cfg, events, c.id);
      HighestReceived(Received(cfg, events, c.id), s.world.players[c.id], input);
    }
  }

  lemma InputStep(cfg: HubConfig, s: HubState, c: Client, input: InputState)
    requires cfg.Sound()
    ensures Step(cfg, s, Input(c, input)) == GivenInput(s, c, input)
  {
    hide GivenInput;
  }

  lemma HighestReceived(received: seq<InputState>, w: Walker, input: InputState)
    requires MovedBy(received, w)
    ensures input.sequence > w.lastSequence <==>
      input.sequence > 0 && forall i | i in received :: input.sequence > i.sequence
  {
    if w.lastSequence > 0 {
      var k :| 0 <= k < |received| && IsFirst(received, k, w);
      assert received[k] in received;
    }
  }
}

// What a registration makes of a player.
module HubJoins {
  import opened Common
  import opened SetMaps
  import opened World
  import opened HubModel
  import opened HubInvariant
  import opened HubLaws
  import opened HubScores
  import opened HubOutbox
  import Aoi = AoiModel

  // Nothing that happened before is still to be sent to p.
  ghost predicate NothingWaits(s: HubState, p: PlayerId) {
    && p !in s.pendingLeft
    && p !in s.outbox.looks && p !in s.outbox.entered && p !in s.outbox.left
    && p !in s.outbox.spawned && p !in s.outbox.collected
  }

  lemma AttachedBeside(s: HubState, c: Client)
    ensures var t := Attached(s, c);
      && t.clients == s.clients[c.id := c] && t.world == s.world && t.aoi == s.aoi && t.field == s.field
      && t.scores == s.scores && t.synthetic == s.synthetic && t.joined == s.joined && t.submitted == s.submitted
      && c.id !in t.visible && NothingWaits(t, c.id)
      && (forall q | q != c.id :: (q in t.pendingLeft <==> q in s.pendingLeft)
                                  && (q in s.pendingLeft ==> t.pendingLeft[q] == s.pendingLeft[q]))
  {
  }

  lemma InitialisedBeside(cfg: HubConfig, s: HubState, c: Client)
    requires c.id in s.world.players && c.id !in s.visible
    ensures var t := Initialised(cfg, s, c, true);
      && t.clients == s.clients && t.world == s.world && t.aoi == s.aoi && t.field == s.field
      && t.scores == s.scores && t.synthetic == s.synthetic && t.joined == s.joined && t.submitted == s.submitted
      && t.outbox == s.outbox && t.pendingLeft == s.pendingLeft
      && Seen(t, c.id) == (if cfg.collecting then InView(cfg, s.field, s.world.players[c.id].at, 500.0) else {})
      && c.id in t.shown && t.shown[c.id] == Seen(t, c.id)
  {
    hide InView, Gone;
  }

  function Seen(s: HubState, p: PlayerId): set<CollectibleId> {
    if p in s.visible then s.visible[p] else {}
  }

  // q is told of the same departures as before, but for those of these players.
  ghost predicate LeftWithout(s: HubState, t: HubState, q: PlayerId, back: set<PlayerId>) {
    forall x: PlayerId ::
      multiset(Listed(t.pendingLeft, q))[x] == if x in back then 0 else multiset(Listed(s.pendingLeft, q))[x]
  }

  lemma {:induction false} OthersAre(ids: seq<PlayerId>, p: PlayerId, x: PlayerId)
    ensures multiset(Others(ids, p))[x] == if x == p then 0 else multiset(ids)[x]
  {
    if ids != [] {
      var front, last := ids[..|ids| - 1], ids[|ids| - 1];
      assert ids == front + [last];
      OthersAre(front, p, x);
    }
  }

  lemma JoinedLeft(cfg: HubConfig, s: HubState, c: Client, saved: Option<Saved>, q: PlayerId)
    ensures LeftWithout(s, Joined(cfg, s, c, saved), q, if s.clients == map[] then {} else {c.id})
  {
    hide Aoi.Inserted, WithPlayer, StartAt, StartName, StartLook, StartScores, StartJoin, StartSynthetic, Others;
    forall x: PlayerId
      ensures multiset(Others(Listed(s.pendingLeft, q), c.id))[x]
           == if x == c.id then 0 else multiset(Listed(s.pendingLeft, q))[x]
    {
      OthersAre(Listed(s.pendingLeft, q), c.id, x);
    }
    NobodysOthers(c.id);
  }

  lemma NobodysOthers(p: PlayerId)
    ensures Others([], p) == []
  {
  }

  // A player that registers and is not connected enters the world where it was
  // saved, or at the spawn point if it has no saved position; under its saved
  // name, or its connection's if it has none; with its saved look, or the
  // default one; with its saved score if there are collectibles; standing still;
  // synthetic if it was ever said to be; with all in view of it and nothing else
  // to be seen.
  lemma JoiningIsAsSaved(cfg: HubConfig, events: seq<Event>, c: Client, saved: Option<Saved>)
    requires cfg.Sound() && c.id !in Run(cfg, events).clients
    ensures var s, t := Run(cfg, events), Run(cfg, events + [Register(c, saved, true)]);
      var back := if s.clients == map[] then {} else {c.id};
      && t.clients == s.clients[c.id := c]
      && c.id in t.world.players
      && var w := t.world.players[c.id];
         && t.world.players == s.world.players[c.id := w]
         && w.at == (match saved
                     case None => cfg.spawn
                     case Some(known) => if known.hasPosition then known.at else cfg.spawn)
         && w.username == (match saved
                           case None => c.username
                           case Some(known) => if known.username == "" then c.username else known.username)
         && w.appearance == (match saved case None => cfg.appearance case Some(known) => known.appearance)
         && !w.input.up && !w.input.down && !w.input.left && !w.input.right && w.lastSequence == 0
         && t.scores == (match saved
                         case None => s.scores
                         case Some(known) => if cfg.collecting then s.scores[c.id := known.score] else s.scores)
         && t.synthetic == s.synthetic + (match saved
                                          case None => {}
                                          case Some(known) => if known.synthetic then {c.id} else {})
         && Seen(t, c.id) == (if cfg.collecting then InView(cfg, s.field, w.at, 500.0) else {})
         && NothingWaits(t, c.id)
         && (forall q | q != c.id :: LeftWithout(s, t, q, back))
         && t.submitted == s.submitted && t.field == s.field
  {
    hide HubOk, Joined, Attached, Initialised, Run, InView;
    var s := Run(cfg, events);
    RunKeeps(cfg, events);
    KnownIsConnected(cfg, s, c.id);
    RunExtends(cfg, events, Register(c, saved, true));
    var joined := Joined(cfg, s, c, saved);
    JoinedOutboxIs(cfg, s, c, saved);
    JoinedBooks(cfg, s, c, saved);
    JoinedFrame(cfg, s, c, saved);
    AttachedBeside(joined, c);
    InitialisedBeside(cfg, Attached(joined, c), c);
    var t, back := Run(cfg, events + [Register(c, saved, true)]), if s.clients == map[] then {} else {c.id};
    forall q | q != c.id
      ensures LeftWithout(s, t, q, back)
    {
      JoinedLeft(cfg, s, c, saved, q);
    }
  }

  // A connection that takes a connected player's place takes over the player as
  // it stands, but for its keys and input numbers, which start anew.
  lemma ReplacingTakesOver(cfg: HubConfig, events: seq<Event>, c: Client, saved: Option<Saved>)
    requires cfg.Sound()
    requires c.id in Run(cfg, events).clients && Run(cfg, events).clients[c.id] != c
    ensures var s, t := Run(cfg, events), Run(cfg, events + [Register(c, saved, true)]);
      && t.clients == s.clients[c.id := c]
      && c.id in s.world.players && c.id in t.world.players
      && var was, now := s.world.players[c.id], t.world.players[c.id];
         && t.world.players == s.world.players[c.id := now]
         && now.at == was.at && now.username == was.username && now.appearance == was.appearance
         && !now.input.up && !now.input.down && !now.input.left && !now.input.right && now.lastSequence == 0
         && t.scores == s.scores && t.synthetic == s.synthetic && t.aoi == s.aoi
         && Seen(t, c.id) == (if cfg.collecting then InView(cfg, s.field, was.at, 500.0) else {})
         && NothingWaits(t, c.id)
         && (forall q | q != c.id :: LeftWithout(s, t, q, {}))
         && t.submitted == s.submitted && t.field == s.field
  {
    hide HubOk, Attached, Initialised, Run, InView;
    var s := Run(cfg, events);
    RunKeeps(cfg, events);
    KnownIsConnected(cfg, s, c.id);
    RunExtends(cfg, events, Register(c, saved, true));
    var reset := s.(world := WithInputReset(s.world, c.id));
    AttachedBeside(reset, c);
    InitialisedBeside(cfg, Attached(reset, c), c);
  }

  // A connection that registers once more only has its view shown anew.
  lemma RegisteringTwiceShowsAnew(cfg: HubConfig, events: seq<Event>, c: Client, saved: Option<Saved>)
    requires cfg.Sound()
    requires c.id in Run(cfg, events).clients && Run(cfg, events).clients[c.id] == c
    ensures var s, t := Run(cfg, events), Run(cfg, events + [Register(c, saved, true)]);
      && c.id in s.world.players
      && t.clients == s.clients && t.world == s.world && t.aoi == s.aoi && t.field == s.field
      && t.scores == s.scores && t.synthetic == s.synthetic && t.submitted == s.submitted
      && NothingWaits(t, c.id)
      && Seen(t, c.id)
         == if cfg.collecting then InView(cfg, s.field, s.world.players[c.id].at, 500.0) else {}
  {
    hide HubOk, Attached, Initialised, Run, InView;
    var s := Run(cfg, events);
    RunKeeps(cfg, events);
    KnownIsConnected(cfg, s, c.id);
    RunExtends(cfg, events, Register(c, saved, true));
    AttachedBeside(s, c);
    InitialisedBeside(cfg, Attached(s, c), c);
    assert s.clients[c.id := c] == s.clients;
  }
}

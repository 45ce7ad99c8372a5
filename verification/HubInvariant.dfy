// What every step of the hub keeps.
module HubInvariant {
  import opened Common
  import opened Sequences
  import opened World
  import opened HubModel
  import Aoi = AoiModel
  import AoiKeeps = AoiInvariant
  import Gems = CollectibleModel
  import Messages

  // Connections, world players and indexed players are the same players.
  ghost predicate LockStep(s: HubState) {
    && s.clients.Keys == s.world.players.Keys
    && s.aoi.players.Keys == s.world.players.Keys
    && (forall p | p in s.clients :: s.clients[p].id == p)
    && s.world.moved <= s.world.players.Keys
  }

  // The index has the world's position of every player but the late ones.
  ghost predicate IndexAgrees(s: HubState, late: set<PlayerId>) {
    forall p | p in s.world.players && p in s.aoi.players && p !in late :: SamePlace(s, p)
  }

  ghost predicate SamePlace(s: HubState, p: PlayerId)
    requires p in s.world.players && p in s.aoi.players
  {
    s.aoi.players[p].lat == s.world.players[p].at.lat && s.aoi.players[p].lng == s.world.players[p].at.lng
  }

  // Nothing is kept for players that are not connected, and nobody connected
  // is listed as gone.
  ghost predicate Tidy(s: HubState) {
    && s.dirty <= s.clients.Keys
    && s.numbers.Keys <= s.clients.Keys
    && s.pendingEntered <= s.clients.Keys
    && s.visible.Keys <= s.clients.Keys
    && s.shown.Keys <= s.clients.Keys
    && s.joined.Keys == s.clients.Keys
    && LeftOk(s.pendingLeft, s.clients.Keys)
    && Addressed(s.outbox) <= s.clients.Keys
  }

  // Whom the outbox holds anything for.
  function Addressed(outbox: Outbox): set<PlayerId> {
    outbox.looks.Keys + outbox.entered.Keys + outbox.left.Keys + outbox.spawned.Keys + outbox.collected.Keys
  }

  ghost predicate LeftOk(pending: map<PlayerId, seq<PlayerId>>, connected: set<PlayerId>) {
    && pending.Keys <= connected
    && forall q, x | q in pending && x in pending[q] :: x !in connected
  }

  // A player's submissions since it joined.
  function Mine(submitted: seq<Submission>, since: nat, p: PlayerId): seq<Submission> {
    if |submitted| <= since then []
    else
      var front, last := submitted[..|submitted| - 1], submitted[|submitted| - 1];
      Mine(front, since, p) + if last.user == p then [last] else []
  }

  // The position the writer was last given, or the one the player joined with.
  function LastKnown(mine: seq<Submission>, joined: Join): LatLng {
    if mine == [] then joined.at else mine[|mine| - 1].at
  }

  // A session's submissions are numbered from one, and when the player is
  // settled the last is where it stands.
  ghost predicate SessionOk(submitted: seq<Submission>, joined: Join, number: nat, p: PlayerId, at: LatLng,
                            settled: bool) {
    var mine := Mine(submitted, joined.since, p);
    && joined.since <= |submitted|
    && |mine| == number
    && (forall k | 0 <= k < |mine| :: mine[k].number == k + 1)
    && (settled ==> at == LastKnown(mine, joined))
  }

  ghost predicate SessionIs(s: HubState, p: PlayerId, settled: bool)
    requires p in s.joined && p in s.world.players
  {
    SessionOk(s.submitted, s.joined[p], LastNumber(s.numbers, p), p, s.world.players[p].at, settled)
  }

  ghost predicate SessionNow(s: HubState, p: PlayerId)
    requires p in s.joined && p in s.world.players
  {
    SessionIs(s, p, p !in s.dirty)
  }

  ghost predicate Recorded(s: HubState) {
    forall p | p in s.joined && p in s.world.players :: SessionNow(s, p)
  }

  ghost predicate HubOk(cfg: HubConfig, s: HubState) {
    && LockStep(s)
    && Aoi.Invariant(cfg.aoi, s.aoi)
    && IndexAgrees(s, s.world.moved)
    && Tidy(s)
    && Recorded(s)
  }

  // ------------------------------------------------------------------
  // Submitting
  // ------------------------------------------------------------------

  // Submitting for p settles p and changes nobody else's session.
  lemma SubmittedSettles(s: HubState, p: PlayerId, q: PlayerId, settled: bool)
    requires q in s.joined && q in s.world.players && SessionIs(s, q, settled)
    ensures var t := SubmittedOne(s, p);
      t == s.(numbers := t.numbers, submitted := t.submitted) && SessionIs(t, q, if q == p then true else settled)
  {
    var t := SubmittedOne(s, p);
    if p in s.world.players {
      assert t.submitted[..|t.submitted| - 1] == s.submitted;
    }
  }

  lemma {:induction false} AllSubmittedSettle(s: HubState, order: seq<PlayerId>, q: PlayerId, settled: bool)
    requires q in s.joined && q in s.world.players && SessionIs(s, q, settled)
    ensures var t := SubmittedAll(s, order);
      && t == s.(numbers := t.numbers, submitted := t.submitted)
      && SessionIs(t, q, settled || q in order)
  {
    if order != [] {
      hide SessionIs, SubmittedOne;
      var front, last := order[..|order| - 1], order[|order| - 1];
      assert order == front + [last];
      AllSubmittedSettle(s, front, q, settled);
      SubmittedSettles(SubmittedAll(s, front), last, q, settled || q in front);
    }
  }

  lemma {:induction false} SubmittedAllNumbers(s: HubState, order: seq<PlayerId>)
    ensures var t := SubmittedAll(s, order);
      && t == s.(numbers := t.numbers, submitted := t.submitted)
      && t.numbers.Keys <= s.numbers.Keys + ToSet(order)
  {
    if order != [] {
      assert order == order[..|order| - 1] + [order[|order| - 1]];
      SubmittedAllNumbers(s, order[..|order| - 1]);
    }
  }

  lemma PersistedKeeps(cfg: HubConfig, s: HubState, order: seq<PlayerId>)
    requires HubOk(cfg, s) && Lists(order, s.dirty)
    ensures HubOk(cfg, Persisted(cfg, s, order))
  {
    var t := Persisted(cfg, s, order);
    if cfg.persisting && s.dirty != {} {
      hide SessionIs;
      SubmittedAllNumbers(s, order);
      forall p | p in s.joined && p in s.world.players
        ensures SessionIs(t, p, true)
      {
        AllSubmittedSettle(s, order, p, p !in s.dirty);
        assert p in s.dirty ==> p in ToSet(order);
        SameSession(SubmittedAll(s, order), t, p, true);
      }
    }
  }

  // A session depends on the player's position and the writer's log alone.
  lemma SameSession(s: HubState, t: HubState, p: PlayerId, settled: bool)
    requires p in s.joined && p in s.world.players && SessionIs(s, p, settled)
    requires p in t.joined && t.joined[p] == s.joined[p]
    requires p in t.world.players && t.world.players[p].at == s.world.players[p].at
    requires t.submitted == s.submitted && LastNumber(t.numbers, p) == LastNumber(s.numbers, p)
    ensures SessionIs(t, p, settled)
  {
  }

  // ------------------------------------------------------------------
  // Leaving and joining
  // ------------------------------------------------------------------

  lemma GoneKeeps(cfg: HubConfig, s: HubState, c: Client)
    requires HubOk(cfg, s)
    ensures HubOk(cfg, Gone(cfg, s, c))
  {
    if IsCurrent(s.clients, c) {
      hide LockStep, Aoi.Invariant, IndexAgrees, Tidy, Recorded, Gone;
      GoneInStep(cfg, s, c);
      GoneTidily(cfg, s, c);
      GoneRecorded(cfg, s, c);
    }
  }

  lemma GoneInStep(cfg: HubConfig, s: HubState, c: Client)
    requires LockStep(s) && Aoi.Invariant(cfg.aoi, s.aoi) && IndexAgrees(s, s.world.moved)
    requires IsCurrent(s.clients, c)
    ensures var t := Gone(cfg, s, c);
      LockStep(t) && Aoi.Invariant(cfg.aoi, t.aoi) && IndexAgrees(t, t.world.moved)
  {
    hide Aoi.Invariant, Aoi.Removed, LeftFor;
    AoiKeeps.RemovedKeeps(cfg.aoi, s.aoi, c.id);
    RemovedPlayers(s.aoi, c.id);
    var t := Gone(cfg, s, c);
    forall p | p in t.world.players && p in t.aoi.players && p !in t.world.moved
      ensures SamePlace(t, p)
    {
      assert SamePlace(s, p);
    }
  }

  lemma GoneTidily(cfg: HubConfig, s: HubState, c: Client)
    requires Tidy(s) && IsCurrent(s.clients, c)
    ensures Tidy(Gone(cfg, s, c))
  {
    hide LeftOk, LeftFor, Aoi.Removed;
    LeftForOk(s.pendingLeft, s.clients, Aoi.Neighbors(s.aoi, c.id), c.id);
  }

  lemma GoneRecorded(cfg: HubConfig, s: HubState, c: Client)
    requires Recorded(s) && IsCurrent(s.clients, c)
    ensures Recorded(Gone(cfg, s, c))
  {
    var t := Gone(cfg, s, c);
    hide SessionIs, Gone;
    GonePlayers(cfg, s, c);
    forall p | p in t.joined && p in t.world.players
      ensures SessionNow(t, p)
    {
      assert SessionNow(s, p);
      GoneKeepsSession(cfg, s, c, p);
    }
  }

  lemma GonePlayers(cfg: HubConfig, s: HubState, c: Client)
    requires IsCurrent(s.clients, c)
    ensures var t := Gone(cfg, s, c);
      && t.joined == s.joined - {c.id} && t.dirty == s.dirty - {c.id}
      && t.world.players == s.world.players - {c.id}
      && t.numbers.Keys - {c.id} == s.numbers.Keys - {c.id}
      && t.submitted == FinalSubmitted(cfg, s, c.id).submitted
      && (forall p | p != c.id :: LastNumber(t.numbers, p) == LastNumber(FinalSubmitted(cfg, s, c.id).numbers, p))
  {
    hide Aoi.Removed, LeftFor;
    if c.id !in s.world.players {
      assert s.world.players == s.world.players - {c.id};
    }
  }

  lemma RemovedPlayers(s: Aoi.Index, p: PlayerId)
    ensures Aoi.Removed(s, p).players == s.players - {p}
  {
    if p !in s.players {
      assert s.players - {p} == s.players;
    }
  }

  lemma LeftForOk(pending: map<PlayerId, seq<PlayerId>>, clients: map<PlayerId, Client>, players: set<PlayerId>,
                  p: PlayerId)
    requires LeftOk(pending, clients.Keys) && p in clients
    ensures LeftOk(LeftFor(pending, clients - {p}, players, p) - {p}, clients.Keys - {p})
  {
  }

  lemma GoneKeepsSession(cfg: HubConfig, s: HubState, c: Client, p: PlayerId)
    requires IsCurrent(s.clients, c) && p != c.id
    requires p in s.joined && p in s.world.players && SessionNow(s, p)
    ensures var t := Gone(cfg, s, c);
      p in t.joined && p in t.world.players && SessionNow(t, p)
  {
    hide Gone, SessionIs;
    GonePlayers(cfg, s, c);
    SubmittedSettles(s, c.id, p, p !in s.dirty);
    SameSession(FinalSubmitted(cfg, s, c.id), Gone(cfg, s, c), p, p !in s.dirty);
  }

  lemma AttachedKeeps(cfg: HubConfig, s: HubState, c: Client)
    requires HubOk(cfg, s) && c.id in s.clients
    ensures HubOk(cfg, Attached(s, c))
  {
    hide SessionIs, Aoi.Invariant;
    var t := Attached(s, c);
    assert t.clients.Keys == s.clients.Keys;
    forall p | p in t.joined && p in t.world.players
      ensures SessionNow(t, p)
    {
      SameSession(s, t, p, p !in s.dirty);
    }
  }

  lemma JoinedKeeps(cfg: HubConfig, s: HubState, c: Client, saved: Option<Saved>)
    requires HubOk(cfg, s) && c.id !in s.world.players
    ensures HubOk(cfg, Attached(Joined(cfg, s, c, saved), c))
  {
    hide LockStep, Aoi.Invariant, IndexAgrees, Tidy, Recorded, Attached, Joined;
    JoinedInStep(cfg, s, c, saved);
    JoinedTidily(cfg, s, c, saved);
    JoinedRecorded(cfg, s, c, saved);
  }

  lemma JoinedParts(cfg: HubConfig, s: HubState, c: Client, saved: Option<Saved>)
    requires c.id !in s.world.players
    ensures var t := Attached(Joined(cfg, s, c, saved), c);
      var at := StartAt(cfg, saved);
      && t.clients == s.clients[c.id := c]
      && t.world.players.Keys == s.world.players.Keys + {c.id} && t.world.players[c.id].at == at
      && (forall p | p in s.world.players :: t.world.players[p] == s.world.players[p])
      && t.world.moved == s.world.moved
      && t.aoi == Aoi.Inserted(cfg.aoi, s.aoi, c.id, at.lat, at.lng)
  {
    hide Aoi.Inserted, WithPlayer, StartAt, StartName, StartLook, Joined;
    WithPlayerIs(s.world, c.id, StartAt(cfg, saved), StartName(c, saved), StartLook(cfg, saved));
    JoinedFrame(cfg, s, c, saved);
  }

  lemma WithPlayerIs(w: WorldState, p: PlayerId, at: LatLng, username: string, look: Messages.Appearance)
    requires p !in w.players
    ensures var x := WithPlayer(w, p, at, username, look);
      && x.players.Keys == w.players.Keys + {p} && x.players[p].at == at
      && (forall q | q in w.players :: x.players[q] == w.players[q])
      && x.moved == w.moved
  {
  }

  lemma EnteringFrame(cfg: HubConfig, s: HubState, c: Client, saved: Option<Saved>)
    ensures var t := Entering(cfg, s, c, saved);
      var at := StartAt(cfg, saved);
      t == s.(world := WithPlayer(s.world, c.id, at, StartName(c, saved), StartLook(cfg, saved)),
              aoi := Aoi.Inserted(cfg.aoi, s.aoi, c.id, at.lat, at.lng),
              scores := t.scores, synthetic := t.synthetic, joined := t.joined)
  {
    hide Aoi.Inserted, WithPlayer, StartAt, StartName, StartLook, StartScores, StartSynthetic;
  }

  lemma JoinedFrame(cfg: HubConfig, s: HubState, c: Client, saved: Option<Saved>)
    ensures var t := Joined(cfg, s, c, saved);
      var at := StartAt(cfg, saved);
      t == s.(world := WithPlayer(s.world, c.id, at, StartName(c, saved), StartLook(cfg, saved)),
              aoi := Aoi.Inserted(cfg.aoi, s.aoi, c.id, at.lat, at.lng),
              pendingEntered := t.pendingEntered, pendingLeft := t.pendingLeft,
              scores := t.scores, synthetic := t.synthetic, joined := t.joined)
  {
    hide Entering, Aoi.Inserted, WithPlayer, StartAt, StartName, StartLook, ForgetLeft;
    EnteringFrame(cfg, s, c, saved);
  }

  lemma JoinedInStep(cfg: HubConfig, s: HubState, c: Client, saved: Option<Saved>)
    requires LockStep(s) && Aoi.Invariant(cfg.aoi, s.aoi) && IndexAgrees(s, s.world.moved)
    requires c.id !in s.world.players
    ensures var t := Attached(Joined(cfg, s, c, saved), c);
      LockStep(t) && Aoi.Invariant(cfg.aoi, t.aoi) && IndexAgrees(t, t.world.moved)
  {
    hide Aoi.Invariant, Aoi.Inserted, Joined, Attached;
    var at := StartAt(cfg, saved);
    JoinedParts(cfg, s, c, saved);
    AoiKeeps.InsertedKeeps(cfg.aoi, s.aoi, c.id, at.lat, at.lng);
    InsertedPlayers(cfg.aoi, s.aoi, c.id, at);
    var t := Attached(Joined(cfg, s, c, saved), c);
    forall p | p in t.world.players && p in t.aoi.players && p !in t.world.moved
      ensures SamePlace(t, p)
    {
      assert p != c.id ==> SamePlace(s, p);
    }
  }

  lemma JoinedTidily(cfg: HubConfig, s: HubState, c: Client, saved: Option<Saved>)
    requires Tidy(s)
    ensures Tidy(Attached(Joined(cfg, s, c, saved), c))
  {
    hide LeftOk, ForgetLeft, Aoi.Inserted, StartName, StartLook, StartScores, StartSynthetic, WithPlayer;
    ForgetLeftOk(s.pendingLeft, s.clients.Keys, c.id);
    NobodyLeft(s.clients.Keys + {c.id});
    var t := Attached(Joined(cfg, s, c, saved), c);
    assert t.clients.Keys == s.clients.Keys + {c.id};
    if s.clients == map[] {
      assert t.pendingLeft == map[];
    }
  }

  lemma NobodyLeft(connected: set<PlayerId>)
    ensures LeftOk(map[], connected)
  {
  }

  lemma JoinedRecorded(cfg: HubConfig, s: HubState, c: Client, saved: Option<Saved>)
    requires LockStep(s) && Tidy(s) && Recorded(s) && c.id !in s.world.players
    ensures Recorded(Attached(Joined(cfg, s, c, saved), c))
  {
    hide SessionIs, ForgetLeft, Aoi.Inserted, StartName, StartLook, StartScores, StartSynthetic;
    var t := Attached(Joined(cfg, s, c, saved), c);
    forall p | p in t.joined && p in t.world.players
      ensures SessionNow(t, p)
    {
      if p == c.id {
        SessionStarts(s, t, p);
      } else {
        assert SessionNow(s, p);
        SameSession(s, t, p, p !in s.dirty);
      }
    }
  }

  lemma SessionStarts(s: HubState, t: HubState, p: PlayerId)
    requires p in t.joined && p in t.world.players
    requires t.joined[p].at == t.world.players[p].at && t.joined[p].since == |s.submitted|
    requires t.submitted == s.submitted && p !in t.numbers
    ensures SessionIs(t, p, true)
  {
  }

  lemma InsertedPlayers(cfg: Aoi.Config, s: Aoi.Index, p: PlayerId, at: LatLng)
    requires p !in s.players
    ensures var t := Aoi.Inserted(cfg, s, p, at.lat, at.lng);
      && t.players.Keys == s.players.Keys + {p}
      && t.players[p].lat == at.lat && t.players[p].lng == at.lng
      && forall q | q in s.players :: t.players[q] == s.players[q]
  {
  }

  lemma {:induction false} OthersAre(ids: seq<PlayerId>, p: PlayerId)
    ensures forall x :: x in Others(ids, p) <==> x in ids && x != p
  {
    if ids != [] {
      assert ids == ids[..|ids| - 1] + [ids[|ids| - 1]];
      OthersAre(ids[..|ids| - 1], p);
    }
  }

  lemma ForgetLeftOk(pending: map<PlayerId, seq<PlayerId>>, connected: set<PlayerId>, p: PlayerId)
    requires LeftOk(pending, connected)
    ensures LeftOk(ForgetLeft(pending, p) - {p}, connected + {p})
    ensures connected == {} ==> pending == map[]
  {
    forall q, x | q in ForgetLeft(pending, p) && x in ForgetLeft(pending, p)[q]
      ensures x in pending[q] && x != p
    {
      OthersAre(pending[q], p);
    }
  }

  lemma InitialisedKeeps(cfg: HubConfig, s: HubState, c: Client, sent: bool)
    requires HubOk(cfg, s) && c.id in s.clients
    ensures HubOk(cfg, Initialised(cfg, s, c, sent))
  {
    hide HubOk, Gone;
    GoneKeeps(cfg, s, c);
    if c.id in s.world.players && sent {
      var t := Initialised(cfg, s, c, sent);
      StartedKeeps(cfg, s, c.id, t.visible, t.shown);
    }
  }

  lemma StartedKeeps(cfg: HubConfig, s: HubState, p: PlayerId,
                     visible: map<PlayerId, set<CollectibleId>>, shown: map<PlayerId, set<CollectibleId>>)
    requires HubOk(cfg, s) && p in s.clients
    requires visible.Keys <= s.visible.Keys + {p} && shown.Keys <= s.shown.Keys + {p}
    ensures HubOk(cfg, s.(visible := visible, shown := shown))
  {
    hide Aoi.Invariant, Recorded, IndexAgrees, LeftOk, Addressed;
    var t := s.(visible := visible, shown := shown);
    SameAgreement(s, t, s.world.moved);
    SameRecords(s, t);
  }

  lemma RegisteredKeeps(cfg: HubConfig, s: HubState, c: Client, saved: Option<Saved>, sent: bool)
    requires HubOk(cfg, s)
    ensures HubOk(cfg, Registered(cfg, s, c, saved, sent))
  {
    hide HubOk, Joined, Initialised, Attached;
    if c.id in s.clients && s.clients[c.id] != c {
      InputResetKeeps(cfg, s, c.id);
      var t := s.(world := WithInputReset(s.world, c.id));
      AttachedKeeps(cfg, t, c);
      AttachedHas(t, c);
      InitialisedKeeps(cfg, Attached(t, c), c, sent);
    } else if c.id in s.world.players {
      KnownIsConnected(cfg, s, c.id);
      AttachedKeeps(cfg, s, c);
      AttachedHas(s, c);
      InitialisedKeeps(cfg, Attached(s, c), c, sent);
    } else {
      JoinedKeeps(cfg, s, c, saved);
      AttachedHas(Joined(cfg, s, c, saved), c);
      InitialisedKeeps(cfg, Attached(Joined(cfg, s, c, saved), c), c, sent);
    }
  }

  lemma AttachedHas(s: HubState, c: Client)
    ensures c.id in Attached(s, c).clients && Attached(s, c).clients[c.id] == c
  {
  }

  lemma KnownIsConnected(cfg: HubConfig, s: HubState, p: PlayerId)
    requires HubOk(cfg, s)
    ensures p in s.clients <==> p in s.world.players
  {
  }

  // ------------------------------------------------------------------
  // Ticks
  // ------------------------------------------------------------------

  // Everybody stands where they stood.
  ghost predicate NobodyMoves(w: WorldState, x: WorldState) {
    && x.players.Keys == w.players.Keys && x.moved == w.moved
    && forall p | p in w.players :: x.players[p].at == w.players[p].at
  }

  lemma StandingKeeps(cfg: HubConfig, s: HubState, x: WorldState)
    requires HubOk(cfg, s) && NobodyMoves(s.world, x)
    ensures HubOk(cfg, s.(world := x))
  {
    hide SessionIs, Aoi.Invariant;
    var t := s.(world := x);
    forall p | p in t.joined && p in t.world.players
      ensures SessionNow(t, p)
    {
      SameSession(s, t, p, p !in s.dirty);
    }
  }

  lemma InputResetKeeps(cfg: HubConfig, s: HubState, p: PlayerId)
    requires HubOk(cfg, s)
    ensures HubOk(cfg, s.(world := WithInputReset(s.world, p)))
  {
    StandingKeeps(cfg, s, WithInputReset(s.world, p));
  }

  lemma GivenInputKeeps(cfg: HubConfig, s: HubState, c: Client, input: InputState)
    requires HubOk(cfg, s)
    ensures HubOk(cfg, GivenInput(s, c, input))
  {
    StandingKeeps(cfg, s, WithInput(s.world, c.id, input));
  }

  lemma SimulatedKeeps(cfg: HubConfig, s: HubState, places: PlayerId -> LatLng)
    requires HubOk(cfg, s)
    ensures HubOk(cfg, Simulated(s, places))
  {
    hide SessionIs, Aoi.Invariant;
    var t := Simulated(s, places);
    forall p | p in t.joined && p in t.world.players
      ensures SessionNow(t, p)
    {
      if p in t.dirty {
        Unsettled(s, t, p);
      } else {
        SameSession(s, t, p, true);
      }
    }
  }

  lemma Unsettled(s: HubState, t: HubState, p: PlayerId)
    requires p in s.joined && p in s.world.players && (exists settled :: SessionIs(s, p, settled))
    requires p in t.joined && p in t.world.players && t.joined[p] == s.joined[p]
    requires t.submitted == s.submitted && LastNumber(t.numbers, p) == LastNumber(s.numbers, p)
    ensures SessionIs(t, p, false)
  {
  }

  // Nothing but the index, the lists and the views differ.
  ghost predicate SameButIndex(s: HubState, t: HubState) {
    && t.world.players == s.world.players && t.clients == s.clients
    && t.dirty == s.dirty && t.numbers == s.numbers && t.submitted == s.submitted && t.joined == s.joined
  }

  lemma MovedPlayers(cfg: Aoi.Config, s: Aoi.Index, p: PlayerId, at: LatLng)
    ensures var t := Aoi.Moved(cfg, s, p, at.lat, at.lng);
      && t.players.Keys == s.players.Keys
      && (p in s.players ==> t.players[p].lat == at.lat && t.players[p].lng == at.lng)
      && forall q | q in s.players && q != p :: t.players[q] == s.players[q]
  {
  }

  // Moving players in the index touches it and the lists of who comes and goes.
  ghost predicate OnlyIndexMoves(s: HubState, t: HubState) {
    t == s.(aoi := t.aoi, pendingEntered := t.pendingEntered, pendingLeft := t.pendingLeft)
  }

  lemma MovedOneKeeps(cfg: HubConfig, s: HubState, p: PlayerId, late: set<PlayerId>)
    requires Aoi.Invariant(cfg.aoi, s.aoi) && IndexAgrees(s, late)
    ensures var t := MovedOne(cfg, s, p);
      && Aoi.Invariant(cfg.aoi, t.aoi)
      && IndexAgrees(t, late - {p})
      && OnlyIndexMoves(s, t) && t.aoi.players.Keys == s.aoi.players.Keys
  {
    hide Aoi.Invariant, Aoi.Moved, Aoi.Entered, Aoi.Left, LeftFor;
    if p in s.world.players {
      var at := s.world.players[p].at;
      AoiKeeps.MovedKeeps(cfg.aoi, s.aoi, p, at.lat, at.lng);
      MovedPlayers(cfg.aoi, s.aoi, p, at);
    }
    var t := MovedOne(cfg, s, p);
    forall q | q in t.world.players && q in t.aoi.players && q !in late - {p}
      ensures SamePlace(t, q)
    {
      assert q == p || (q !in late && SamePlace(s, q));
    }
  }

  // Moving the listed players in the index makes it agree with the world on
  // all but those still to come.
  lemma {:induction false} MovedAllKeeps(cfg: HubConfig, s: HubState, order: seq<PlayerId>, late: set<PlayerId>)
    requires Aoi.Invariant(cfg.aoi, s.aoi) && IndexAgrees(s, late)
    ensures var t := MovedAll(cfg, s, order);
      && Aoi.Invariant(cfg.aoi, t.aoi)
      && IndexAgrees(t, late - ToSet(order))
      && OnlyIndexMoves(s, t) && t.aoi.players.Keys == s.aoi.players.Keys
  {
    hide Aoi.Invariant, IndexAgrees, MovedOne;
    if order == [] {
      assert late - ToSet(order) == late;
    } else {
      var front, last := order[..|order| - 1], order[|order| - 1];
      assert order == front + [last];
      assert late - ToSet(order) == late - ToSet(front) - {last};
      MovedAllKeeps(cfg, s, front, late);
      MovedOneKeeps(cfg, MovedAll(cfg, s, front), last, late - ToSet(front));
    }
  }

  lemma SameButIndexKeeps(cfg: HubConfig, s: HubState, t: HubState)
    requires HubOk(cfg, s) && SameButIndex(s, t)
    requires t.world.moved <= t.world.players.Keys && t.aoi.players.Keys == s.aoi.players.Keys
    requires Aoi.Invariant(cfg.aoi, t.aoi) && IndexAgrees(t, t.world.moved)
    requires t.pendingEntered <= t.clients.Keys && LeftOk(t.pendingLeft, t.clients.Keys)
    requires t.visible.Keys <= t.clients.Keys && t.shown.Keys <= t.clients.Keys && Addressed(t.outbox) <= t.clients.Keys
    ensures HubOk(cfg, t)
  {
    hide SessionIs, Aoi.Invariant, IndexAgrees, LeftOk, Addressed;
    forall p | p in t.joined && p in t.world.players
      ensures SessionNow(t, p)
    {
      SameSession(s, t, p, p !in s.dirty);
    }
  }

  // Recalculating the views touches nothing but the views and the outbox.
  ghost predicate SameButViews(s: HubState, t: HubState) {
    t == s.(visible := t.visible, outbox := t.outbox)
  }

  lemma {:induction false} ViewsRecalculatedKeeps(cfg: HubConfig, s: HubState, order: seq<PlayerId>)
    ensures var t := ViewsRecalculated(cfg, s, order);
      && SameButViews(s, t)
      && s.visible.Keys <= t.visible.Keys <= s.visible.Keys + s.clients.Keys
  {
    if order != [] {
      hide ComesIntoView, OutOfView, InView, PutMore;
      ViewsRecalculatedKeeps(cfg, s, order[..|order| - 1]);
    }
  }

  // What gathering leaves as it was.
  lemma GatheredKeeps(cfg: HubConfig, s: HubState, order: seq<PlayerId>, now: Time)
    requires Aoi.Invariant(cfg.aoi, s.aoi) && IndexAgrees(s, s.world.moved) && ToSet(order) == s.world.moved
    ensures var t := Gathered(cfg, s, order, now);
      && Aoi.Invariant(cfg.aoi, t.aoi) && IndexAgrees(t, {})
      && t.world == s.world.(moved := {}, removed := {}) && t.aoi.players.Keys == s.aoi.players.Keys
      && SameButIndex(s, t)
      && t.visible.Keys <= s.visible.Keys + s.clients.Keys && t.shown == s.shown
      && t.field == (if cfg.collecting then Gems.Advanced(cfg.gems, s.field, now) else s.field)
      && t.awards == s.awards && t.synthetic == s.synthetic && t.scores == s.scores && t.cooldowns == s.cooldowns
  {
    hide Aoi.Invariant, IndexAgrees, InView, Gems.Advanced, SpawnedNear, MovedAll, ViewsRecalculated;
    var taken := s.(world := s.world.(moved := {}, removed := {}));
    SameAgreement(s, taken, s.world.moved);
    MovedAllKeeps(cfg, taken, order, s.world.moved);
    assert s.world.moved - ToSet(order) == {};
    var mid := MovedAll(cfg, taken, order);
    if cfg.collecting {
      var spawned := SpawnsSeen(cfg, mid, Gems.Advanced(cfg.gems, s.field, now));
      ViewsRecalculatedKeeps(cfg, spawned, order);
      SameAgreement(mid, ViewsRecalculated(cfg, spawned, order), {});
    }
  }

  lemma SameAgreement(s: HubState, t: HubState, late: set<PlayerId>)
    requires IndexAgrees(s, late) && t.world.players == s.world.players && t.aoi == s.aoi
    ensures IndexAgrees(t, late)
  {
    forall p | p in t.world.players && p in t.aoi.players && p !in late
      ensures SamePlace(t, p)
    {
      assert SamePlace(s, p);
    }
  }

  lemma BroadcastedKeeps(cfg: HubConfig, s: HubState, order: seq<PlayerId>, now: Time)
    requires HubOk(cfg, s) && ToSet(order) == s.world.moved
    ensures HubOk(cfg, Broadcasted(cfg, s, order, now))
  {
    hide Aoi.Invariant, Recorded, IndexAgrees, Gathered, ShownAfter;
    GatheredKeeps(cfg, s, order, now);
    var t := Broadcasted(cfg, s, order, now);
    assert IndexAgrees(t, {}) by { SameAgreement(Gathered(cfg, s, order, now), t, {}); }
    SameButIndexKeeps(cfg, s, t);
  }

  lemma WonFrame(cfg: HubConfig, s: HubState, p: PlayerId, item: CollectibleId, now: Time, pick: nat)
    requires cfg.Sound() && item in s.field.items
    ensures var t := Won(cfg, s, p, item, now, pick);
      t == s.(field := t.field, scores := t.scores, awards := t.awards, visible := t.visible, outbox := t.outbox)
  {
    hide Gems.Collected, NearIndexed, Number;
  }

  // Collecting touches the field and its book-keeping, the views and the outbox.
  lemma AfterCollectFrame(cfg: HubConfig, s: HubState, c: Client, item: CollectibleId, now: Time, pick: nat)
    requires cfg.Sound()
    ensures var t := AfterCollect(cfg, s, c, item, now, pick);
      t == s.(field := t.field, scores := t.scores, awards := t.awards, cooldowns := t.cooldowns,
              visible := t.visible, outbox := t.outbox)
  {
    hide Won, Considered;
    if Collectable(cfg, s, c.id, item) {
      WonFrame(cfg, s.(cooldowns := s.cooldowns[c.id := now]), c.id, item, now, pick);
    }
  }

  lemma AfterCollectLists(cfg: HubConfig, s: HubState, c: Client, item: CollectibleId, now: Time, pick: nat)
    requires cfg.Sound()
    ensures var t := AfterCollect(cfg, s, c, item, now, pick);
      && t.visible.Keys == s.visible.Keys
      && t.outbox == s.outbox.(collected := t.outbox.collected)
      && t.outbox.collected.Keys <= s.outbox.collected.Keys + s.clients.Keys
  {
    hide Gems.Collected, NearIndexed, Collectable, Considered;
  }

  lemma AfterCollectKeeps(cfg: HubConfig, s: HubState, c: Client, item: CollectibleId, now: Time, pick: nat)
    requires cfg.Sound() && HubOk(cfg, s)
    ensures HubOk(cfg, AfterCollect(cfg, s, c, item, now, pick))
  {
    hide Aoi.Invariant, Recorded, IndexAgrees, AfterCollect, Addressed;
    var t := AfterCollect(cfg, s, c, item, now, pick);
    AfterCollectFrame(cfg, s, c, item, now, pick);
    AfterCollectLists(cfg, s, c, item, now, pick);
    assert Addressed(t.outbox) <= s.clients.Keys by { FewAddressed(s.outbox, t.outbox.collected, s.clients.Keys); }
    SameAgreement(s, t, s.world.moved);
    SameButIndexKeeps(cfg, s, t);
  }

  lemma FewAddressed(outbox: Outbox, collected: map<PlayerId, set<CollectibleId>>, connected: set<PlayerId>)
    requires Addressed(outbox) <= connected && collected.Keys <= outbox.collected.Keys + connected
    ensures Addressed(outbox.(collected := collected)) <= connected
  {
  }

  // A new look touches the world and what the outbox holds about looks.
  lemma DressedFrame(s: HubState, p: PlayerId, appearance: Messages.Appearance)
    ensures Dressed(s, p, appearance) ==
      if ChangesLook(s.world, p, appearance) then
        s.(world := WithAppearance(s.world, p, appearance), outbox := s.outbox.WithLook(p, appearance))
      else s
  {
    hide WithAppearance, ChangesLook, Outbox.WithLook;
  }

  lemma DressedKeeps(cfg: HubConfig, s: HubState, p: PlayerId, appearance: Messages.Appearance)
    requires HubOk(cfg, s)
    ensures HubOk(cfg, Dressed(s, p, appearance))
  {
    if ChangesLook(s.world, p, appearance) {
      hide Aoi.Invariant, Recorded;
      var t := s.(world := WithAppearance(s.world, p, appearance));
      StandingKeeps(cfg, s, WithAppearance(s.world, p, appearance));
      var u := Dressed(s, p, appearance);
      SameRecords(t, u);
      SameAgreement(t, u, u.world.moved);
    }
  }

  lemma SameRecords(s: HubState, t: HubState)
    requires Recorded(s) && t.joined == s.joined && t.world.players == s.world.players && t.submitted == s.submitted
    requires t.numbers == s.numbers && t.dirty == s.dirty
    ensures Recorded(t)
  {
    forall p | p in t.joined && p in t.world.players
      ensures SessionNow(t, p)
    {
      assert SessionNow(s, p);
    }
  }

  lemma StepKeeps(cfg: HubConfig, s: HubState, e: Event)
    requires cfg.Sound() && HubOk(cfg, s)
    ensures HubOk(cfg, Step(cfg, s, e))
  {
    hide HubOk;
    if Possible(s, e) {
      match e
      case Register(c, saved, sent) => RegisteredKeeps(cfg, s, c, saved, sent);
      case Unregister(c) => GoneKeeps(cfg, s, c);
      case DisconnectUser(p) => if p in s.clients { GoneKeeps(cfg, s, s.clients[p]); }
      case Input(c, input) => GivenInputKeeps(cfg, s, c, input);
      case UpdateAppearance(p, appearance) => DressedKeeps(cfg, s, p, appearance);
      case Simulate(places) => SimulatedKeeps(cfg, s, places);
      case Broadcast(order, now) => BroadcastedKeeps(cfg, s, order, now);
      case Persist(order) => PersistedKeeps(cfg, s, order);
      case Collect(c, item, now, pick) => AfterCollectKeeps(cfg, s, c, item, now, pick);
    }
  }

  lemma {:induction false} RunKeeps(cfg: HubConfig, events: seq<Event>)
    requires cfg.Sound()
    ensures HubOk(cfg, Run(cfg, events))
  {
    if events == [] {
      AoiKeeps.RunKeeps(cfg.aoi, []);
    } else {
      hide HubOk;
      RunKeeps(cfg, events[..|events| - 1]);
      StepKeeps(cfg, Run(cfg, events[..|events| - 1]), events[|events| - 1]);
    }
  }
}

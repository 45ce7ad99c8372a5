// What a player's score is made of, and that leaving loses none of it.
module HubScores {
  import opened Common
  import opened Sequences
  import opened World
  import opened HubModel
  import opened HubInvariant
  import opened HubLaws
  import Aoi = AoiModel
  import Messages
  import Writer = ScorePersistence
  import WriterRuns = ScoreRuns

  // A player's awards since it joined.
  function Earned(awards: seq<Award>, since: nat, p: PlayerId): seq<Award> {
    if |awards| <= since then []
    else
      var front, last := awards[..|awards| - 1], awards[|awards| - 1];
      Earned(front, since, p) + if last.player == p then [last] else []
  }

  // The score is what the player joined with and one for each award since, and
  // each of these awards was handed out with the score it made.
  ghost predicate ScoreIs(s: HubState, p: PlayerId)
    requires p in s.joined
  {
    var mine := Earned(s.awards, s.joined[p].awarded, p);
    && s.joined[p].awarded <= |s.awards|
    && Number(s.scores, p) == s.joined[p].score + |mine|
    && forall k | 0 <= k < |mine| :: mine[k].score == s.joined[p].score + k + 1
  }

  ghost predicate ScoresOk(s: HubState) {
    forall p | p in s.joined :: ScoreIs(s, p)
  }

  // ------------------------------------------------------------------
  // Every step keeps it
  // ------------------------------------------------------------------

  // Scores and awards are the same, and nobody has joined.
  ghost predicate SameScores(s: HubState, t: HubState) {
    && t.scores == s.scores && t.awards == s.awards && t.synthetic == s.synthetic
    && forall p | p in t.joined :: p in s.joined && t.joined[p] == s.joined[p]
  }

  lemma SameScoresKeep(s: HubState, t: HubState)
    requires ScoresOk(s) && SameScores(s, t)
    ensures ScoresOk(t)
  {
    forall p | p in t.joined
      ensures ScoreIs(t, p)
    {
      assert ScoreIs(s, p);
    }
  }

  lemma FinalScores(cfg: HubConfig, s: HubState, p: PlayerId)
    ensures var t := FinalSubmitted(cfg, s, p);
      t.scores == s.scores && t.awards == s.awards && t.synthetic == s.synthetic && t.joined == s.joined
  {
  }

  lemma GoneScores(cfg: HubConfig, s: HubState, c: Client)
    ensures SameScores(s, Gone(cfg, s, c))
  {
    hide Aoi.Removed, LeftFor, WithoutPlayer, FinalSubmitted, ScoreSynced;
    FinalScores(cfg, s.(clients := s.clients - {c.id}), c.id);
  }

  lemma AttachedScores(s: HubState, c: Client)
    ensures SameScores(s, Attached(s, c))
  {
  }

  lemma InitialisedScores(cfg: HubConfig, s: HubState, c: Client, sent: bool)
    ensures SameScores(s, Initialised(cfg, s, c, sent))
  {
    hide Gone, InView;
    GoneScores(cfg, s, c);
  }

  // A session starts with the score the player joins with.
  lemma JoinedScores(cfg: HubConfig, s: HubState, c: Client, saved: Option<Saved>)
    requires ScoresOk(s)
    ensures ScoresOk(Joined(cfg, s, c, saved))
  {
    JoinedBooks(cfg, s, c, saved);
    hide Joined, StartAt;
    var t := Joined(cfg, s, c, saved);
    forall p | p in t.joined
      ensures ScoreIs(t, p)
    {
      if p != c.id {
        assert ScoreIs(s, p);
      }
    }
  }

  lemma JoinedBooks(cfg: HubConfig, s: HubState, c: Client, saved: Option<Saved>)
    ensures var t := Joined(cfg, s, c, saved);
      && t.scores == StartScores(cfg, s.scores, c.id, saved) && t.awards == s.awards
      && t.synthetic == StartSynthetic(s.synthetic, c.id, saved)
      && t.joined == s.joined[c.id := StartJoin(cfg, s, c.id, saved)]
  {
    hide ForgetLeft, Aoi.Inserted, WithPlayer, StartName, StartLook, StartScores, StartJoin, StartSynthetic;
  }

  lemma RegisteredScores(cfg: HubConfig, s: HubState, c: Client, saved: Option<Saved>, sent: bool)
    requires ScoresOk(s)
    ensures ScoresOk(Registered(cfg, s, c, saved, sent))
  {
    hide ScoresOk, Joined, Attached, Initialised, WithInputReset;
    if c.id in s.clients && s.clients[c.id] != c {
      var t := s.(world := WithInputReset(s.world, c.id));
      SameScoresKeep(s, t);
      StartingScores(cfg, t, c, sent);
    } else if c.id in s.world.players {
      StartingScores(cfg, s, c, sent);
    } else {
      JoinedScores(cfg, s, c, saved);
      StartingScores(cfg, Joined(cfg, s, c, saved), c, sent);
    }
  }

  lemma StartingScores(cfg: HubConfig, s: HubState, c: Client, sent: bool)
    requires ScoresOk(s)
    ensures ScoresOk(Initialised(cfg, Attached(s, c), c, sent))
  {
    hide ScoresOk, Attached, Initialised;
    AttachedScores(s, c);
    SameScoresKeep(s, Attached(s, c));
    InitialisedScores(cfg, Attached(s, c), c, sent);
    SameScoresKeep(Attached(s, c), Initialised(cfg, Attached(s, c), c, sent));
  }

  lemma InputScores(s: HubState, c: Client, input: InputState)
    ensures SameScores(s, GivenInput(s, c, input))
  {
    hide WithInput;
  }

  lemma DressedScores(s: HubState, p: PlayerId, appearance: Messages.Appearance)
    ensures SameScores(s, Dressed(s, p, appearance))
  {
    hide Dressed, WithAppearance, ChangesLook;
    DressedFrame(s, p, appearance);
  }

  lemma SimulatedScores(s: HubState, places: PlayerId -> LatLng)
    ensures SameScores(s, Simulated(s, places))
  {
    hide Stepped, Movers;
  }

  lemma PersistedScores(cfg: HubConfig, s: HubState, order: seq<PlayerId>)
    ensures SameScores(s, Persisted(cfg, s, order))
  {
    hide SubmittedAll;
    SubmittedAllNumbers(s, order);
  }

  lemma BroadcastedScores(cfg: HubConfig, s: HubState, order: seq<PlayerId>, now: Time)
    requires HubOk(cfg, s) && ToSet(order) == s.world.moved
    ensures SameScores(s, Broadcasted(cfg, s, order, now))
  {
    hide Aoi.Invariant, Recorded, IndexAgrees, Gathered, ShownAfter;
    GatheredKeeps(cfg, s, order, now);
  }

  // One award is one point.
  lemma AfterCollectScores(cfg: HubConfig, s: HubState, c: Client, item: CollectibleId, now: Time, pick: nat)
    requires cfg.Sound() && ScoresOk(s)
    ensures ScoresOk(AfterCollect(cfg, s, c, item, now, pick))
  {
    AfterCollectFrame(cfg, s, c, item, now, pick);
    CollectOnField(cfg, s, c, item, now, pick);
    hide AfterCollect, Wins, Considered;
    var t := AfterCollect(cfg, s, c, item, now, pick);
    forall p | p in t.joined
      ensures ScoreIs(t, p)
    {
      assert ScoreIs(s, p);
      if Wins(cfg, s, c, item, now) {
        assert t.awards[..|t.awards| - 1] == s.awards;
      }
    }
  }

  lemma StepScores(cfg: HubConfig, s: HubState, e: Event)
    requires cfg.Sound() && HubOk(cfg, s) && ScoresOk(s)
    ensures ScoresOk(Step(cfg, s, e))
  {
    hide HubOk, ScoresOk, SameScores, Gone, Registered, GivenInput, Dressed, Simulated, Broadcasted, Persisted,
      AfterCollect;
    if Possible(s, e) {
      match e
      case Register(c, saved, sent) => RegisteredScores(cfg, s, c, saved, sent);
      case Unregister(c) =>
        GoneScores(cfg, s, c);
        SameScoresKeep(s, Gone(cfg, s, c));
      case DisconnectUser(p) =>
        if p in s.clients {
          GoneScores(cfg, s, s.clients[p]);
          SameScoresKeep(s, Gone(cfg, s, s.clients[p]));
        }
      case Input(c, input) =>
        InputScores(s, c, input);
        SameScoresKeep(s, GivenInput(s, c, input));
      case UpdateAppearance(p, appearance) =>
        DressedScores(s, p, appearance);
        SameScoresKeep(s, Dressed(s, p, appearance));
      case Simulate(places) =>
        SimulatedScores(s, places);
        SameScoresKeep(s, Simulated(s, places));
      case Broadcast(order, now) =>
        BroadcastedScores(cfg, s, order, now);
        SameScoresKeep(s, Broadcasted(cfg, s, order, now));
      case Persist(order) =>
        PersistedScores(cfg, s, order);
        SameScoresKeep(s, Persisted(cfg, s, order));
      case Collect(c, item, now, pick) => AfterCollectScores(cfg, s, c, item, now, pick);
    }
  }

  lemma {:induction false} RunScores(cfg: HubConfig, events: seq<Event>)
    requires cfg.Sound()
    ensures ScoresOk(Run(cfg, events))
  {
    hide HubOk, Step, ScoreIs;
    if events != [] {
      var front := events[..|events| - 1];
      RunScores(cfg, front);
      RunKeeps(cfg, front);
      StepScores(cfg, Run(cfg, front), events[|events| - 1]);
    }
  }

  // ------------------------------------------------------------------
  // Results
  // ------------------------------------------------------------------

  // Over every run a connected player's score is what it joined with and one
  // for each award since; each award carries the score it made.
  lemma ScoreIsEarned(cfg: HubConfig, events: seq<Event>, p: PlayerId)
    requires cfg.Sound() && p in Run(cfg, events).clients
    ensures var s := Run(cfg, events);
      && p in s.joined
      && var mine := Earned(s.awards, s.joined[p].awarded, p);
         && Number(s.scores, p) == s.joined[p].score + |mine|
         && forall k | 0 <= k < |mine| :: mine[k].score == s.joined[p].score + k + 1
  {
    RunScores(cfg, events);
    RunKeeps(cfg, events);
    assert ScoreIs(Run(cfg, events), p);
  }

  // A player that leaves has its score written for good: all it earned.
  lemma LeavingWritesScore(cfg: HubConfig, events: seq<Event>, c: Client)
    requires cfg.Sound() && cfg.scoring && IsCurrent(Run(cfg, events).clients, c) && c.id in Run(cfg, events).scores
    ensures var s := Run(cfg, events);
      && c.id in s.joined
      && Gone(cfg, s, c).synced == s.synced
           + [ScoreWrite(c.id, s.joined[c.id].score + |Earned(s.awards, s.joined[c.id].awarded, c.id)|)]
  {
    hide Run, Aoi.Removed, LeftFor, WithoutPlayer, FinalSubmitted;
    ScoreIsEarned(cfg, events, c.id);
  }

  // No point is lost across leaving and joining again. A player leaves a run of
  // the hub; in a run of the score writer, whatever else it does and whichever
  // of its writes fail, the SubmitSync of that score has been answered, not cut
  // short by Stop; the player joins any hub again with what the database holds
  // at any later time. Then it has at least the score it had joined with before
  // and all it had earned.
  lemma NoPointIsLost(cfg: HubConfig, events: seq<Event>, c: Client,
                      db: map<UserId, int>, writes: seq<Writer.Event>, i: nat, caller: Writer.CallerId,
                      again: HubState, d: Client, saved: Saved)
    requires cfg.Sound() && cfg.scoring && cfg.collecting
    requires IsCurrent(Run(cfg, events).clients, c) && c.id in Run(cfg, events).scores
    requires i <= |writes|
    requires var synced := Gone(cfg, Run(cfg, events), c).synced;
      var answered := Writer.Run(db, writes[..i]);
      && |synced| > 0 && caller in answered.callers
      && answered.callers[caller] == Writer.Served(c.id, synced[|synced| - 1].score)
      && c.id in answered.db && c.id !in answered.abandoned
    requires d.id == c.id && c.id in Writer.Run(db, writes).db && saved.score == Writer.Run(db, writes).db[c.id]
    ensures var s := Run(cfg, events);
      && c.id in s.joined
      && Number(Joined(cfg, again, d, Some(saved)).scores, c.id)
           >= s.joined[c.id].score + |Earned(s.awards, s.joined[c.id].awarded, c.id)|
  {
    hide Run, Gone, Joined, Writer.Run;
    LeavingWritesScore(cfg, events, c);
    Writer.SubmitSyncIsDurable(db, writes[..i], caller);
    Writer.RunIsMonotone(db, writes, i);
    JoinedBooks(cfg, again, d, Some(saved));
  }

  // What a session hands to the score writer, and anything no higher than what
  // the player joined with.
  ghost predicate OfSession(s: HubState, p: PlayerId, score: int)
    requires p in s.joined
  {
    var mine := Earned(s.awards, s.joined[p].awarded, p);
    || score <= s.joined[p].score || score == s.joined[p].score + |mine|
    || exists k :: 0 <= k < |mine| && mine[k].score == score
  }

  // And no point is made up: if nothing but the session's own scores, or scores
  // no higher than what the player joined with, was stored or handed over for
  // it, then the player comes back with exactly what it had.
  lemma PointsAreExact(cfg: HubConfig, events: seq<Event>, c: Client,
                       db: map<UserId, int>, writes: seq<Writer.Event>, i: nat, caller: Writer.CallerId,
                       again: HubState, d: Client, saved: Saved)
    requires cfg.Sound() && cfg.scoring && cfg.collecting
    requires IsCurrent(Run(cfg, events).clients, c) && c.id in Run(cfg, events).scores
    requires i <= |writes|
    requires var synced := Gone(cfg, Run(cfg, events), c).synced;
      var answered := Writer.Run(db, writes[..i]);
      && |synced| > 0 && caller in answered.callers
      && answered.callers[caller] == Writer.Served(c.id, synced[|synced| - 1].score)
      && c.id in answered.db && c.id !in answered.abandoned
    requires d.id == c.id && c.id in Writer.Run(db, writes).db && saved.score == Writer.Run(db, writes).db[c.id]
    requires var s := Run(cfg, events);
      && c.id in s.joined && c.id in db && OfSession(s, c.id, db[c.id])
      && forall x | WriterRuns.Handed(writes, x) && x.user == c.id :: OfSession(s, c.id, x.score)
    ensures var s := Run(cfg, events);
      Number(Joined(cfg, again, d, Some(saved)).scores, c.id)
        == s.joined[c.id].score + |Earned(s.awards, s.joined[c.id].awarded, c.id)|
  {
    hide Run, Gone, Joined, Writer.Run, Earned, WriterRuns.Handed;
    var s := Run(cfg, events);
    var top := s.joined[c.id].score + |Earned(s.awards, s.joined[c.id].awarded, c.id)|;
    NoPointIsLost(cfg, events, c, db, writes, i, caller, again, d, saved);
    ScoreIsEarned(cfg, events, c.id);
    forall score | OfSession(s, c.id, score)
      ensures score <= top
    {
    }
    WriterRuns.NeverAbove(db, writes, c.id, top);
    JoinedBooks(cfg, again, d, Some(saved));
  }
}

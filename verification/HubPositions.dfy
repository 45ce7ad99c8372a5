// From the hub to the database: what becomes of a session's positions.
module HubPositions {
  import opened Common
  import opened HubModel
  import opened HubInvariant
  import opened HubLaws
  import Writer = PositionPersistence
  import WriterRuns = PositionRuns

  function UpdateOf(x: Submission): Writer.Update {
    Writer.Update(x.user, x.at.lat, x.at.lng, x.number)
  }

  // Of one player the writer has been given exactly these submissions, in
  // whatever batches and order, among any updates of other players.
  ghost predicate GivenExactly(rounds: seq<WriterRuns.Round>, mine: seq<Submission>, p: PlayerId) {
    forall x: Writer.Update :: x in WriterRuns.History(rounds) && x.user == p <==>
      exists k | 0 <= k < |mine| :: UpdateOf(mine[k]) == x
  }

  // The submissions of a session, written without failures in any order and
  // grouping, leave the database where the player stands, once its position is
  // not waiting to be saved; a player that never moved leaves it as it was.
  lemma SessionIsStored(cfg: HubConfig, events: seq<Event>, p: PlayerId,
                        stored: map<UserId, LatLng>, rounds: seq<WriterRuns.Round>)
    requires cfg.Sound() && p in Run(cfg, events).clients && p !in Run(cfg, events).dirty
    requires WriterRuns.Possible(stored, rounds) && WriterRuns.NoFailures(rounds)
    requires var s := Run(cfg, events);
      p in s.joined && GivenExactly(rounds, Mine(s.submitted, s.joined[p].since, p), p)
    ensures var s := Run(cfg, events);
      var after := WriterRuns.After(stored, rounds).stored;
      && p in s.joined && p in s.world.players
      && if Mine(s.submitted, s.joined[p].since, p) != [] then
           p in after && after[p] == s.world.players[p].at
         else
           (p in after <==> p in stored) && (p in stored ==> after[p] == stored[p])
  {
    hide Run, WriterRuns.Possible, WriterRuns.After, WriterRuns.NoFailures, WriterRuns.History;
    NoMoveIsForgotten(cfg, events, p);
    var s := Run(cfg, events);
    MineAreOf(s.submitted, s.joined[p].since, p);
    LastIsStored(stored, rounds, Mine(s.submitted, s.joined[p].since, p), p);
  }

  lemma {:induction false} MineAreOf(submitted: seq<Submission>, since: nat, p: PlayerId)
    ensures forall x | x in Mine(submitted, since, p) :: x.user == p
  {
    if |submitted| > since {
      MineAreOf(submitted[..|submitted| - 1], since, p);
    }
  }

  lemma LastIsStored(stored: map<UserId, LatLng>, rounds: seq<WriterRuns.Round>, mine: seq<Submission>, p: PlayerId)
    requires WriterRuns.Possible(stored, rounds) && WriterRuns.NoFailures(rounds) && GivenExactly(rounds, mine, p)
    requires forall k | 0 <= k < |mine| :: mine[k].number == k + 1
    requires forall x | x in mine :: x.user == p
    ensures var after := WriterRuns.After(stored, rounds);
      if mine != [] then p in after.stored && after.stored[p] == mine[|mine| - 1].at
      else (p in after.stored <==> p in stored) && (p in stored ==> after.stored[p] == stored[p])
  {
    hide WriterRuns.Possible, WriterRuns.After, WriterRuns.NoFailures, WriterRuns.History;
    var after := WriterRuns.After(stored, rounds);
    WriterRuns.NeverRegresses(stored, rounds, p);
    if mine != [] {
      var last := mine[|mine| - 1];
      assert last in mine;
      assert UpdateOf(mine[|mine| - 1]) == UpdateOf(last);
      WriterRuns.ReachesHighest(stored, rounds, UpdateOf(last));
    }
    if p in after.lastSeq {
      var x :| x in WriterRuns.History(rounds) && x.user == p && x.number == after.lastSeq[p]
            && Writer.PlaceOf(x) == after.stored[p];
      var k :| 0 <= k < |mine| && UpdateOf(mine[k]) == x;
    }
  }
}

// The replication builder: what happened is scattered over the players it
// concerns, so that each gets one job with exactly what concerns it.
module ReplicationBuilder {
  import opened Common
  import opened Sequences
  import opened SetMaps
  import opened Messages
  import Aoi = AoiModel
  import Index = AoiIndex
  import World

  datatype BuildInput = BuildInput(
    tick: nat,
    movementDeltas: seq<Index.MovementDelta>,
    pendingEntered: seq<PlayerState>,
    pendingLeft: map<PlayerId, seq<PlayerId>>,
    pendingAppearances: map<PlayerId, Appearance>,
    collectEntered: map<PlayerId, seq<Item>>,
    collectLeft: map<PlayerId, seq<CollectibleId>>,
    collectSpawned: map<PlayerId, seq<Item>>,
    collectCollected: map<PlayerId, seq<CollectibleId>>)

  datatype ReplicationJob = ReplicationJob(recipientId: PlayerId, tick: nat, client: Client, changes: Changes)

  // What the builder may look up: connections, who sees whom, where players are.
  datatype View = View(
    clients: map<PlayerId, Client>,
    visible: map<PlayerId, set<PlayerId>>,
    places: map<PlayerId, LatLng>)

  // The hub's own fields as the builder reads them.
  class HubReader {
    const clients: map<PlayerId, Client>
    const aoi: Index.AOIIndex
    const world: World.World

    constructor (clients: map<PlayerId, Client>, aoi: Index.AOIIndex, world: World.World)
      ensures this.clients == clients && this.aoi == aoi && this.world == world
    {
      this.clients, this.aoi, this.world := clients, aoi, world;
    }

    ghost predicate Valid()
      reads aoi
    {
      aoi.Valid()
    }

    ghost function Shows(): View
      reads aoi, world
    {
      View(clients, aoi.visible, map p | p in world.players :: world.players[p].at)
    }

    predicate Connected(p: PlayerId) {
      p in clients
    }

    method VisibleNeighbors(p: PlayerId) returns (ids: seq<PlayerId>)
      ensures Lists(ids, Lookup(Shows().visible, p))
    {
      ids := aoi.VisibleNeighbors(p);
    }

    function PlayerPosition(p: PlayerId): (at: Option<PlayerPosition>)
      reads aoi, world
      ensures at == PositionOf(Shows(), p)
    {
      if p in world.players then Some(Messages.PlayerPosition(p, world.players[p].at.lat, world.players[p].at.lng))
      else None
    }
  }

  function PositionOf(v: View, p: PlayerId): Option<PlayerPosition> {
    if p in v.places then Some(PlayerPosition(p, v.places[p].lat, v.places[p].lng)) else None
  }

  // ------------------------------------------------------------------
  // What concerns one player
  // ------------------------------------------------------------------

  ghost predicate HasMoved(deltas: seq<Index.MovementDelta>, r: PlayerId) {
    exists d | d in deltas :: d.playerId == r
  }

  // Its own position, if it moved.
  ghost function OwnPosition(v: View, deltas: seq<Index.MovementDelta>, r: PlayerId): Option<SelfPosition> {
    if r in v.places && HasMoved(deltas, r) then Some(SelfPosition(v.places[r].lat, v.places[r].lng)) else None
  }

  // The positions of the movers that keep seeing it, in the order of the moves.
  function StablePositions(v: View, deltas: seq<Index.MovementDelta>, r: PlayerId): seq<PlayerPosition> {
    if deltas == [] then []
    else
      var last := deltas[|deltas| - 1];
      var position := PositionOf(v, last.playerId);
      StablePositions(v, deltas[..|deltas| - 1], r)
        + if position.Some? && r in last.stable then [position.value] else []
  }

  // The newcomers that see it, in their order.
  function Newcomers(v: View, entered: seq<PlayerState>, r: PlayerId): seq<PlayerState> {
    if entered == [] then []
    else
      var last := entered[|entered| - 1];
      Newcomers(v, entered[..|entered| - 1], r) + if r in Lookup(v.visible, last.id) then [last] else []
  }

  // The new appearances of itself and of those that see it.
  ghost function Looks(v: View, looks: map<PlayerId, Appearance>, r: PlayerId): set<AppearanceUpdate> {
    set p | p in looks && (p == r || r in Lookup(v.visible, p)) :: AppearanceUpdate(p, looks[p])
  }

  // Everything that concerns r and nothing else.
  ghost predicate Gathers(v: View, input: BuildInput, r: PlayerId, c: Changes) {
    && c.selfPosition == OwnPosition(v, input.movementDeltas, r)
    && c.positions == StablePositions(v, input.movementDeltas, r)
    && c.entered == Newcomers(v, input.pendingEntered, r)
    && c.leftPlayerIds == Listed(input.pendingLeft, r)
    && Lists(c.appearances, Looks(v, input.pendingAppearances, r))
    && c.collectiblesEntered == Listed(input.collectEntered, r)
    && c.collectibleIdsLeft == Listed(input.collectLeft, r)
    && c.collectiblesSpawned == Listed(input.collectSpawned, r)
    && c.collectibleIdsCollected == Listed(input.collectCollected, r)
  }

  ghost predicate Moving(v: View, deltas: seq<Index.MovementDelta>, r: PlayerId) {
    (r in v.places && HasMoved(deltas, r)) || StablePositions(v, deltas, r) != []
  }

  // Anything at all concerns r.
  ghost predicate Concerned(v: View, input: BuildInput, r: PlayerId) {
    || Moving(v, input.movementDeltas, r)
    || Newcomers(v, input.pendingEntered, r) != []
    || r in input.pendingLeft
    || Looks(v, input.pendingAppearances, r) != {}
    || r in input.collectEntered || r in input.collectLeft
    || r in input.collectSpawned || r in input.collectCollected
  }

  // Exactly one job for each connected player concerned, with what concerns it.
  ghost predicate JobsGather(v: View, input: BuildInput, jobs: seq<ReplicationJob>) {
    && (forall i, j | 0 <= i < j < |jobs| :: jobs[i].recipientId != jobs[j].recipientId)
    && (forall job | job in jobs ::
          && job.recipientId in v.clients && Concerned(v, input, job.recipientId)
          && job.client == v.clients[job.recipientId] && job.tick == input.tick
          && Gathers(v, input, job.recipientId, job.changes))
    && (forall r | r in v.clients && Concerned(v, input, r) :: exists job | job in jobs :: job.recipientId == r)
  }

  // ------------------------------------------------------------------
  // Scattering
  // ------------------------------------------------------------------

  type ByRecipient = map<PlayerId, Changes>

  function At(acc: ByRecipient, r: PlayerId): Changes {
    if r in acc then acc[r] else NO_CHANGES
  }

  // What is appended to a recipient's changes in one go.
  datatype Piece =
    | Own(self: SelfPosition)
    | Place(position: PlayerPosition)
    | Came(state: PlayerState)
    | Went(players: seq<PlayerId>)
    | Look(update: AppearanceUpdate)
    | GemsIn(items: seq<Item>)
    | GemsOut(ids: seq<CollectibleId>)
    | GemsNew(items: seq<Item>)
    | GemsGot(ids: seq<CollectibleId>)

  function With(c: Changes, piece: Piece): Changes {
    match piece
    case Own(self) => c.(selfPosition := Some(self))
    case Place(position) => c.(positions := c.positions + [position])
    case Came(state) => c.(entered := c.entered + [state])
    case Went(players) => c.(leftPlayerIds := c.leftPlayerIds + players)
    case Look(update) => c.(appearances := c.appearances + [update])
    case GemsIn(items) => c.(collectiblesEntered := c.collectiblesEntered + items)
    case GemsOut(ids) => c.(collectibleIdsLeft := c.collectibleIdsLeft + ids)
    case GemsNew(items) => c.(collectiblesSpawned := c.collectiblesSpawned + items)
    case GemsGot(ids) => c.(collectibleIdsCollected := c.collectibleIdsCollected + ids)
  }

  // The piece reached exactly these of the connected players.
  ghost predicate Reached(acc: ByRecipient, after: ByRecipient, reached: set<PlayerId>, piece: Piece) {
    && after.Keys == acc.Keys + reached
    && forall r: PlayerId :: At(after, r) == if r in reached then With(At(acc, r), piece) else At(acc, r)
  }

  method Append(acc: ByRecipient, r: PlayerId, piece: Piece) returns (after: ByRecipient)
    ensures Reached(acc, after, {r}, piece)
  {
    var entry := NO_CHANGES;
    if r in acc {
      entry := acc[r];
    }
    after := acc[r := With(entry, piece)];
  }

  // Those of the targets that are connected.
  ghost function Reachable(targets: seq<PlayerId>, clients: map<PlayerId, Client>): set<PlayerId> {
    set r | r in targets && r in clients
  }

  lemma NobodyReached(acc: ByRecipient, clients: map<PlayerId, Client>, piece: Piece)
    ensures Reached(acc, acc, Reachable([], clients), piece)
  {
  }

  lemma ReachedOneMore(acc: ByRecipient, before: ByRecipient, after: ByRecipient, targets: seq<PlayerId>,
                       clients: map<PlayerId, Client>, r: PlayerId, piece: Piece)
    requires Reached(acc, before, Reachable(targets, clients), piece) && r !in targets
    requires if r in clients then Reached(before, after, {r}, piece) else after == before
    ensures Reached(acc, after, Reachable(targets + [r], clients), piece)
  {
    hide With;
    var reached := Reachable(targets, clients);
    if r in clients {
      assert Reachable(targets + [r], clients) == reached + {r};
      forall q: PlayerId
        ensures At(after, q) == if q in reached + {r} then With(At(acc, q), piece) else At(acc, q)
      {
        assert At(before, q) == if q in reached then With(At(acc, q), piece) else At(acc, q);
      }
    } else {
      assert Reachable(targets + [r], clients) == reached;
    }
  }

  method FanOut(acc: ByRecipient, targets: seq<PlayerId>, clients: map<PlayerId, Client>, piece: Piece)
    returns (after: ByRecipient)
    requires NoDuplicates(targets)
    ensures Reached(acc, after, Reachable(targets, clients), piece)
  {
    hide With, Reached, Reachable;
    after := acc;
    NobodyReached(acc, clients, piece);
    for i := 0 to |targets|
      invariant Reached(acc, after, Reachable(targets[..i], clients), piece)
    {
      assert targets[..i + 1] == targets[..i] + [targets[i]];
      ghost var before := after;
      if targets[i] in clients {
        after := Append(after, targets[i], piece);
      }
      ReachedOneMore(acc, before, after, targets[..i], clients, targets[i], piece);
    }
    assert targets[..|targets|] == targets;
  }

  // Every list but those still to do reached the recipient it is kept for, if
  // connected.
  ghost predicate Delivered<T>(acc: ByRecipient, after: ByRecipient, lists: map<PlayerId, seq<T>>,
                               clients: map<PlayerId, Client>, wrap: seq<T> -> Piece, todo: set<PlayerId>) {
    && after.Keys == acc.Keys + ((lists.Keys - todo) * clients.Keys)
    && forall r: PlayerId :: DeliveredTo(acc, after, lists, clients, wrap, todo, r)
  }

  ghost predicate DeliveredTo<T>(acc: ByRecipient, after: ByRecipient, lists: map<PlayerId, seq<T>>,
                                 clients: map<PlayerId, Client>, wrap: seq<T> -> Piece, todo: set<PlayerId>,
                                 r: PlayerId) {
    At(after, r) == if r in lists && r !in todo && r in clients then With(At(acc, r), wrap(lists[r])) else At(acc, r)
  }

  method DeliverLists<T>(acc: ByRecipient, lists: map<PlayerId, seq<T>>, clients: map<PlayerId, Client>,
                         wrap: seq<T> -> Piece)
    returns (after: ByRecipient)
    ensures Delivered(acc, after, lists, clients, wrap, {})
  {
    hide With, Reached, Delivered;
    after := acc;
    var rest := lists.Keys;
    NoneDelivered(acc, lists, clients, wrap);
    while rest != {}
      invariant rest <= lists.Keys
      invariant Delivered(acc, after, lists, clients, wrap, rest)
    {
      var r := AnyOf(rest);
      ghost var before := after;
      if r in clients {
        after := Append(after, r, wrap(lists[r]));
      }
      OneDelivered(acc, before, after, lists, clients, wrap, rest, r);
      rest := rest - {r};
    }
  }

  lemma NoneDelivered<T>(acc: ByRecipient, lists: map<PlayerId, seq<T>>, clients: map<PlayerId, Client>,
                         wrap: seq<T> -> Piece)
    ensures Delivered(acc, acc, lists, clients, wrap, lists.Keys)
  {
  }

  lemma OneDelivered<T>(acc: ByRecipient, before: ByRecipient, after: ByRecipient, lists: map<PlayerId, seq<T>>,
                        clients: map<PlayerId, Client>, wrap: seq<T> -> Piece, todo: set<PlayerId>, p: PlayerId)
    requires Delivered(acc, before, lists, clients, wrap, todo) && todo <= lists.Keys && p in todo
    requires if p in clients then Reached(before, after, {p}, wrap(lists[p])) else after == before
    ensures Delivered(acc, after, lists, clients, wrap, todo - {p})
  {
    hide With;
    forall r: PlayerId
      ensures DeliveredTo(acc, after, lists, clients, wrap, todo - {p}, r)
    {
      assert DeliveredTo(acc, before, lists, clients, wrap, todo, r);
    }
  }

  // What the moves come to for each player.
  ghost predicate MovesTold(v: View, deltas: seq<Index.MovementDelta>, acc: ByRecipient) {
    && (forall r :: r in acc <==> r in v.clients && Moving(v, deltas, r))
    && (forall r | r in v.clients :: At(acc, r)
          == NO_CHANGES.(selfPosition := OwnPosition(v, deltas, r), positions := StablePositions(v, deltas, r)))
  }

  method TellMoves(deltas: seq<Index.MovementDelta>, reader: HubReader) returns (acc: ByRecipient)
    requires forall d | d in deltas :: NoDuplicates(d.stable)
    ensures MovesTold(reader.Shows(), deltas, acc)
  {
    ghost var v := reader.Shows();
    hide MovesTold, With;
    acc := map[];
    NoMovesTold(v);
    for i := 0 to |deltas|
      invariant MovesTold(v, deltas[..i], acc)
    {
      var delta := deltas[i];
      assert deltas[..i + 1] == deltas[..i] + [delta];
      ghost var before := acc;
      if reader.Connected(delta.playerId) {
        var position := reader.PlayerPosition(delta.playerId);
        if position.Some? {
          acc := Append(acc, delta.playerId, Own(SelfPosition(position.value.lat, position.value.lng)));
        }
      }
      ghost var mid := acc;
      var position := reader.PlayerPosition(delta.playerId);
      if position == None {
        UnplacedTold(v, deltas[..i], delta, before);
        continue;
      }
      acc := FanOut(acc, delta.stable, reader.clients, Place(position.value));
      OneMoveTold(v, deltas[..i], delta, before, mid, acc);
    }
    assert deltas[..|deltas|] == deltas;
  }

  lemma NoMovesTold(v: View)
    ensures MovesTold(v, [], map[])
  {
  }

  lemma UnplacedTold(v: View, deltas: seq<Index.MovementDelta>, delta: Index.MovementDelta, acc: ByRecipient)
    requires MovesTold(v, deltas, acc) && delta.playerId !in v.places
    ensures MovesTold(v, deltas + [delta], acc)
  {
    forall r
      ensures StablePositions(v, deltas + [delta], r) == StablePositions(v, deltas, r)
      ensures r in v.places ==> (HasMoved(deltas + [delta], r) <==> HasMoved(deltas, r))
    {
      MovedOneMore(deltas, delta, r);
      assert (deltas + [delta])[..|deltas|] == deltas;
    }
  }

  lemma MovedOneMore(deltas: seq<Index.MovementDelta>, delta: Index.MovementDelta, r: PlayerId)
    ensures HasMoved(deltas + [delta], r) <==> HasMoved(deltas, r) || delta.playerId == r
  {
    if HasMoved(deltas, r) {
      var d :| d in deltas && d.playerId == r;
      assert d in deltas + [delta];
    }
    if delta.playerId == r {
      assert delta in deltas + [delta];
    }
  }

  lemma OneMoveTold(v: View, deltas: seq<Index.MovementDelta>, delta: Index.MovementDelta,
                    acc: ByRecipient, mid: ByRecipient, after: ByRecipient)
    requires MovesTold(v, deltas, acc) && delta.playerId in v.places
    requires if delta.playerId in v.clients then
               Reached(acc, mid, {delta.playerId},
                       Own(SelfPosition(v.places[delta.playerId].lat, v.places[delta.playerId].lng)))
             else mid == acc
    requires Reached(mid, after, Reachable(delta.stable, v.clients),
                     Place(PositionOf(v, delta.playerId).value))
    ensures MovesTold(v, deltas + [delta], after)
  {
    forall r
      ensures r in after <==> r in v.clients && Moving(v, deltas + [delta], r)
      ensures r in v.clients ==>
        At(after, r) == NO_CHANGES.(selfPosition := OwnPosition(v, deltas + [delta], r),
                                    positions := StablePositions(v, deltas + [delta], r))
    {
      MovedOneMore(deltas, delta, r);
      assert (deltas + [delta])[..|deltas|] == deltas;
      assert r in acc <==> r in v.clients && Moving(v, deltas, r);
    }
  }

  ghost predicate NewcomersTold(v: View, entered: seq<PlayerState>, acc: ByRecipient, after: ByRecipient) {
    && (forall r :: r in after <==> r in acc || (r in v.clients && Newcomers(v, entered, r) != []))
    && (forall r | r in v.clients :: At(after, r) == At(acc, r).(entered := Newcomers(v, entered, r)))
  }

  lemma NoNewcomersTold(v: View, acc: ByRecipient)
    requires forall r: PlayerId :: At(acc, r).entered == []
    ensures NewcomersTold(v, [], acc, acc)
  {
  }

  lemma OneNewcomerTold(v: View, entered: seq<PlayerState>, state: PlayerState, acc: ByRecipient,
                        before: ByRecipient, after: ByRecipient, neighbors: seq<PlayerId>)
    requires NewcomersTold(v, entered, acc, before) && forall r: PlayerId :: At(acc, r).entered == []
    requires Lists(neighbors, Lookup(v.visible, state.id))
    requires Reached(before, after, Reachable(neighbors, v.clients), Came(state))
    ensures NewcomersTold(v, entered + [state], acc, after)
  {
    assert (entered + [state])[..|entered|] == entered;
    assert forall r :: r in neighbors <==> r in ToSet(neighbors);
  }

  method TellNewcomers(acc: ByRecipient, entered: seq<PlayerState>, reader: HubReader) returns (after: ByRecipient)
    requires forall r: PlayerId :: At(acc, r).entered == []
    ensures NewcomersTold(reader.Shows(), entered, acc, after)
  {
    ghost var v := reader.Shows();
    hide NewcomersTold, Reached, Lists;
    after := acc;
    NoNewcomersTold(v, acc);
    for i := 0 to |entered|
      invariant NewcomersTold(v, entered[..i], acc, after)
    {
      assert entered[..i + 1] == entered[..i] + [entered[i]];
      var neighbors := reader.VisibleNeighbors(entered[i].id);
      ghost var before := after;
      after := FanOut(after, neighbors, reader.clients, Came(entered[i]));
      OneNewcomerTold(v, entered[..i], entered[i], acc, before, after, neighbors);
    }
    assert entered[..|entered|] == entered;
  }

  // Those of the appearances dealt with.
  ghost function LooksOf(v: View, looks: map<PlayerId, Appearance>, done: set<PlayerId>,
                         r: PlayerId): set<AppearanceUpdate> {
    set p | p in looks && p in done && (p == r || r in Lookup(v.visible, p)) :: AppearanceUpdate(p, looks[p])
  }

  ghost predicate LooksTold(v: View, looks: map<PlayerId, Appearance>, done: set<PlayerId>, acc: ByRecipient,
                            after: ByRecipient) {
    && (forall r :: r in after <==> r in acc || (r in v.clients && LooksOf(v, looks, done, r) != {}))
    && (forall r | r in v.clients ::
          && At(after, r) == At(acc, r).(appearances := At(after, r).appearances)
          && Lists(At(after, r).appearances, LooksOf(v, looks, done, r)))
  }

  // Who is told about p: itself and those that see it, if connected.
  ghost function Audience(v: View, p: PlayerId): set<PlayerId> {
    set r | r in v.clients && (p == r || r in Lookup(v.visible, p))
  }

  method TellAppearances(acc: ByRecipient, looks: map<PlayerId, Appearance>, reader: HubReader)
    returns (after: ByRecipient)
    requires reader.Valid()
    requires forall r: PlayerId :: At(acc, r).appearances == []
    ensures LooksTold(reader.Shows(), looks, looks.Keys, acc, after)
  {
    ghost var v := reader.Shows();
    hide LooksTold, Audience, Reached;
    after := acc;
    NoLooksTold(v, looks, acc);
    var rest := looks.Keys;
    while rest != {}
      invariant rest <= looks.Keys
      invariant LooksTold(v, looks, looks.Keys - rest, acc, after)
    {
      var p := AnyOf(rest);
      ghost var before := after;
      after := TellAppearance(after, AppearanceUpdate(p, looks[p]), reader);
      OneLookTold(v, looks, looks.Keys - rest, acc, before, after, p);
      assert looks.Keys - (rest - {p}) == looks.Keys - rest + {p};
      rest := rest - {p};
    }
    assert looks.Keys - rest == looks.Keys;
  }

  // The loop's body: one player's new appearance.
  method TellAppearance(acc: ByRecipient, update: AppearanceUpdate, reader: HubReader) returns (after: ByRecipient)
    requires reader.Valid()
    ensures Reached(acc, after, Audience(reader.Shows(), update.playerId), Look(update))
  {
    hide Reached;
    ghost var v := reader.Shows();
    var p := update.playerId;
    after := acc;
    if reader.Connected(p) {
      after := Append(after, p, Look(update));
    }
    ghost var mid := after;
    var neighbors := reader.VisibleNeighbors(p);
    NobodySeesItself(reader, p);
    after := FanOut(after, neighbors, reader.clients, Look(update));
    BothReached(v, acc, mid, after, p, neighbors, Look(update));
  }

  lemma BothReached(v: View, acc: ByRecipient, mid: ByRecipient, after: ByRecipient, p: PlayerId,
                    neighbors: seq<PlayerId>, piece: Piece)
    requires Lists(neighbors, Lookup(v.visible, p)) && p !in Lookup(v.visible, p)
    requires if p in v.clients then Reached(acc, mid, {p}, piece) else mid == acc
    requires Reached(mid, after, Reachable(neighbors, v.clients), piece)
    ensures Reached(acc, after, Audience(v, p), piece)
  {
    hide With;
    forall r
      ensures r in Audience(v, p) <==> (r == p && p in v.clients) || (r in neighbors && r in v.clients)
    {
      assert r in neighbors <==> r in ToSet(neighbors);
    }
    forall r: PlayerId
      ensures At(after, r) == if r in Audience(v, p) then With(At(acc, r), piece) else At(acc, r)
    {
      assert r in neighbors <==> r in ToSet(neighbors);
    }
  }

  lemma NobodySeesItself(reader: HubReader, p: PlayerId)
    requires reader.Valid()
    ensures p !in Lookup(reader.Shows().visible, p)
  {
    assert !Aoi.Sees(reader.aoi.State(), p, p);
  }

  lemma NoLooksTold(v: View, looks: map<PlayerId, Appearance>, acc: ByRecipient)
    requires forall r: PlayerId :: At(acc, r).appearances == []
    ensures LooksTold(v, looks, looks.Keys - looks.Keys, acc, acc)
  {
    forall r
      ensures LooksOf(v, looks, looks.Keys - looks.Keys, r) == {}
    {
    }
  }

  lemma OneLookTold(v: View, looks: map<PlayerId, Appearance>, done: set<PlayerId>, acc: ByRecipient,
                    before: ByRecipient, after: ByRecipient, p: PlayerId)
    requires LooksTold(v, looks, done, acc, before) && p in looks && p !in done
    requires Reached(before, after, Audience(v, p), Look(AppearanceUpdate(p, looks[p])))
    ensures LooksTold(v, looks, done + {p}, acc, after)
  {
    var update := AppearanceUpdate(p, looks[p]);
    forall r
      ensures r in after <==> r in acc || (r in v.clients && LooksOf(v, looks, done + {p}, r) != {})
      ensures r in v.clients ==>
        && At(after, r) == At(acc, r).(appearances := At(after, r).appearances)
        && Lists(At(after, r).appearances, LooksOf(v, looks, done + {p}, r))
    {
      var told, more := LooksOf(v, looks, done, r), LooksOf(v, looks, done + {p}, r);
      if p == r || r in Lookup(v.visible, p) {
        assert more == told + {update};
        if r in v.clients {
          assert At(after, r).appearances == At(before, r).appearances + [update];
          ListsAppend(At(before, r).appearances, told, update);
        }
      } else {
        assert more == told;
      }
    }
  }

  // ------------------------------------------------------------------
  // Building
  // ------------------------------------------------------------------

  method Build(input: BuildInput, reader: HubReader) returns (jobs: seq<ReplicationJob>)
    requires reader.Valid()
    requires forall d | d in input.movementDeltas :: NoDuplicates(d.stable)
    ensures JobsGather(reader.Shows(), input, jobs)
  {
    hide MovesTold, NewcomersTold, Delivered, LooksTold, CollectiblesTold, JobsGather, Gathers, Concerned;
    ghost var v := reader.Shows();
    var moves := TellMoves(input.movementDeltas, reader);
    MovesAlone(v, input.movementDeltas, moves);
    var newcomers := TellNewcomers(moves, input.pendingEntered, reader);
    var left := DeliverLists(newcomers, input.pendingLeft, reader.clients, WrapLeft);
    NoLooksYet(v, input, moves, newcomers, left);
    var looks := TellAppearances(left, input.pendingAppearances, reader);
    var byRecipient := TellCollectibles(looks, input, reader.clients);
    forall r
      ensures r in byRecipient <==> r in v.clients && Concerned(v, input, r)
      ensures r in v.clients ==> Gathers(v, input, r, At(byRecipient, r))
    {
      ToldAll(v, input, moves, newcomers, left, looks, byRecipient, r);
    }
    jobs := Jobs(input.tick, byRecipient, reader.clients);
    JobsAreGathered(v, input, byRecipient, jobs);
  }

  function WrapLeft(ids: seq<PlayerId>): Piece { Went(ids) }
  function WrapEntered(items: seq<Item>): Piece { GemsIn(items) }
  function WrapOut(ids: seq<CollectibleId>): Piece { GemsOut(ids) }
  function WrapSpawned(items: seq<Item>): Piece { GemsNew(items) }
  function WrapCollected(ids: seq<CollectibleId>): Piece { GemsGot(ids) }

  // What the four loops over collectibles append.
  ghost function WithCollectibles(c: Changes, input: BuildInput, r: PlayerId): Changes {
    c.(collectiblesEntered := c.collectiblesEntered + Listed(input.collectEntered, r),
       collectibleIdsLeft := c.collectibleIdsLeft + Listed(input.collectLeft, r),
       collectiblesSpawned := c.collectiblesSpawned + Listed(input.collectSpawned, r),
       collectibleIdsCollected := c.collectibleIdsCollected + Listed(input.collectCollected, r))
  }

  ghost predicate CollectiblesFor(input: BuildInput, r: PlayerId) {
    r in input.collectEntered || r in input.collectLeft || r in input.collectSpawned || r in input.collectCollected
  }

  ghost predicate CollectiblesTold(clients: map<PlayerId, Client>, input: BuildInput, acc: ByRecipient,
                                   after: ByRecipient) {
    && (forall r :: r in after <==> r in acc || (r in clients && CollectiblesFor(input, r)))
    && (forall r | r in clients :: At(after, r) == WithCollectibles(At(acc, r), input, r))
  }

  method TellCollectibles(acc: ByRecipient, input: BuildInput, clients: map<PlayerId, Client>)
    returns (after: ByRecipient)
    ensures CollectiblesTold(clients, input, acc, after)
  {
    hide DeliveredTo, WithCollectibles;
    var a := DeliverLists(acc, input.collectEntered, clients, WrapEntered);
    var b := DeliverLists(a, input.collectLeft, clients, WrapOut);
    var c := DeliverLists(b, input.collectSpawned, clients, WrapSpawned);
    after := DeliverLists(c, input.collectCollected, clients, WrapCollected);
    forall r | r in clients
      ensures At(after, r) == WithCollectibles(At(acc, r), input, r)
    {
      FourDelivered(acc, a, b, c, after, input, clients, r);
    }
  }

  lemma FourDelivered(acc: ByRecipient, a: ByRecipient, b: ByRecipient, c: ByRecipient, after: ByRecipient,
                      input: BuildInput, clients: map<PlayerId, Client>, r: PlayerId)
    requires DeliveredTo(acc, a, input.collectEntered, clients, WrapEntered, {}, r)
    requires DeliveredTo(a, b, input.collectLeft, clients, WrapOut, {}, r)
    requires DeliveredTo(b, c, input.collectSpawned, clients, WrapSpawned, {}, r)
    requires DeliveredTo(c, after, input.collectCollected, clients, WrapCollected, {}, r)
    requires r in clients
    ensures At(after, r) == WithCollectibles(At(acc, r), input, r)
  {
    hide DeliveredTo, Listed;
    EnteredDelivered(acc, a, input.collectEntered, clients, r);
    OutDelivered(a, b, input.collectLeft, clients, r);
    SpawnedDelivered(b, c, input.collectSpawned, clients, r);
    CollectedDelivered(c, after, input.collectCollected, clients, r);
  }

  lemma EnteredDelivered(acc: ByRecipient, after: ByRecipient, lists: map<PlayerId, seq<Item>>,
                         clients: map<PlayerId, Client>, r: PlayerId)
    requires r in clients && DeliveredTo(acc, after, lists, clients, WrapEntered, {}, r)
    ensures At(after, r) == At(acc, r).(collectiblesEntered := At(acc, r).collectiblesEntered + Listed(lists, r))
  {
  }

  lemma OutDelivered(acc: ByRecipient, after: ByRecipient, lists: map<PlayerId, seq<CollectibleId>>,
                     clients: map<PlayerId, Client>, r: PlayerId)
    requires r in clients && DeliveredTo(acc, after, lists, clients, WrapOut, {}, r)
    ensures At(after, r) == At(acc, r).(collectibleIdsLeft := At(acc, r).collectibleIdsLeft + Listed(lists, r))
  {
  }

  lemma SpawnedDelivered(acc: ByRecipient, after: ByRecipient, lists: map<PlayerId, seq<Item>>,
                         clients: map<PlayerId, Client>, r: PlayerId)
    requires r in clients && DeliveredTo(acc, after, lists, clients, WrapSpawned, {}, r)
    ensures At(after, r) == At(acc, r).(collectiblesSpawned := At(acc, r).collectiblesSpawned + Listed(lists, r))
  {
  }

  lemma CollectedDelivered(acc: ByRecipient, after: ByRecipient, lists: map<PlayerId, seq<CollectibleId>>,
                           clients: map<PlayerId, Client>, r: PlayerId)
    requires r in clients && DeliveredTo(acc, after, lists, clients, WrapCollected, {}, r)
    ensures At(after, r)
         == At(acc, r).(collectibleIdsCollected := At(acc, r).collectibleIdsCollected + Listed(lists, r))
  {
  }

  lemma MovesAlone(v: View, deltas: seq<Index.MovementDelta>, acc: ByRecipient)
    requires MovesTold(v, deltas, acc)
    ensures forall r: PlayerId :: At(acc, r).entered == [] && At(acc, r).appearances == []
    ensures forall r :: r in acc ==> r in v.clients
  {
  }

  lemma NoLooksYet(v: View, input: BuildInput, moves: ByRecipient, newcomers: ByRecipient, left: ByRecipient)
    requires forall r: PlayerId :: At(moves, r).appearances == []
    requires forall r :: r in moves ==> r in v.clients
    requires NewcomersTold(v, input.pendingEntered, moves, newcomers)
    requires Delivered(newcomers, left, input.pendingLeft, v.clients, WrapLeft, {})
    ensures forall r: PlayerId :: At(left, r).appearances == []
  {
    forall r: PlayerId
      ensures At(left, r).appearances == []
    {
      assert DeliveredTo(newcomers, left, input.pendingLeft, v.clients, WrapLeft, {}, r);
      if r in v.clients {
        assert At(newcomers, r) == At(moves, r).(entered := Newcomers(v, input.pendingEntered, r));
      }
    }
  }

  // One job for every recipient, in the order the map yields them.
  method Jobs(tick: nat, byRecipient: ByRecipient, clients: map<PlayerId, Client>) returns (jobs: seq<ReplicationJob>)
    ensures forall i, j | 0 <= i < j < |jobs| :: jobs[i].recipientId != jobs[j].recipientId
    ensures forall job | job in jobs ::
              job.recipientId in byRecipient && job.recipientId in clients
              && job == ReplicationJob(job.recipientId, tick, clients[job.recipientId], byRecipient[job.recipientId])
    ensures forall r | r in byRecipient && r in clients :: exists job | job in jobs :: job.recipientId == r
  {
    jobs := [];
    var rest := byRecipient.Keys;
    while rest != {}
      invariant rest <= byRecipient.Keys
      invariant forall i, j | 0 <= i < j < |jobs| :: jobs[i].recipientId != jobs[j].recipientId
      invariant forall job | job in jobs ::
                  job.recipientId in byRecipient && job.recipientId !in rest && job.recipientId in clients
                  && job == ReplicationJob(job.recipientId, tick, clients[job.recipientId],
                                           byRecipient[job.recipientId])
      invariant forall r | r in byRecipient && r !in rest && r in clients ::
        exists job | job in jobs :: job.recipientId == r
    {
      var r := AnyOf(rest);
      rest := rest - {r};
      if r !in clients {
        continue;
      }
      var job := ReplicationJob(r, tick, clients[r], byRecipient[r]);
      ghost var before := jobs;
      jobs := jobs + [job];
      assert job in jobs;
      assert forall x :: x in before ==> x in jobs;
    }
  }

  lemma ToldAll(v: View, input: BuildInput, moves: ByRecipient, newcomers: ByRecipient, left: ByRecipient,
                looks: ByRecipient, all: ByRecipient, r: PlayerId)
    requires MovesTold(v, input.movementDeltas, moves)
    requires NewcomersTold(v, input.pendingEntered, moves, newcomers)
    requires Delivered(newcomers, left, input.pendingLeft, v.clients, WrapLeft, {})
    requires LooksTold(v, input.pendingAppearances, input.pendingAppearances.Keys, left, looks)
    requires CollectiblesTold(v.clients, input, looks, all)
    ensures r in all <==> r in v.clients && Concerned(v, input, r)
    ensures r in v.clients ==> Gathers(v, input, r, At(all, r))
  {
    hide Moving, LooksOf, Looks, Lists;
    AllLooks(v, input.pendingAppearances, r);
    assert DeliveredTo(newcomers, left, input.pendingLeft, v.clients, WrapLeft, {}, r);
    if r in v.clients {
      assert At(newcomers, r) == At(moves, r).(entered := Newcomers(v, input.pendingEntered, r));
      assert At(left, r) == At(newcomers, r).(leftPlayerIds := Listed(input.pendingLeft, r));
      assert At(all, r) == WithCollectibles(At(looks, r), input, r);
    }
  }

  lemma AllLooks(v: View, looks: map<PlayerId, Appearance>, r: PlayerId)
    ensures LooksOf(v, looks, looks.Keys, r) == Looks(v, looks, r)
  {
  }

  lemma JobsAreGathered(v: View, input: BuildInput, all: ByRecipient, jobs: seq<ReplicationJob>)
    requires forall r :: r in all <==> r in v.clients && Concerned(v, input, r)
    requires forall r | r in v.clients :: Gathers(v, input, r, At(all, r))
    requires forall i, j | 0 <= i < j < |jobs| :: jobs[i].recipientId != jobs[j].recipientId
    requires forall job | job in jobs ::
               job.recipientId in all && job.recipientId in v.clients
               && job == ReplicationJob(job.recipientId, input.tick, v.clients[job.recipientId], all[job.recipientId])
    requires forall r | r in all && r in v.clients :: exists job | job in jobs :: job.recipientId == r
    ensures JobsGather(v, input, jobs)
  {
    hide Gathers, Concerned;
    forall job | job in jobs
      ensures Gathers(v, input, job.recipientId, job.changes)
    {
      assert At(all, job.recipientId) == job.changes;
    }
  }
}

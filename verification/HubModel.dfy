// The hub as a value: connections over the world, the index and the collectible
// field, what it has told the writers, and what each of its steps does.
module HubModel {
  import opened Common
  import opened Sequences
  import opened SetMaps
  import opened World
  import Aoi = AoiModel
  import Gems = CollectibleModel
  import GemLaws = CollectibleLaws
  import Geometry
  import Grid
  import Messages

  // What the database knows of a player who has been here before.
  datatype Saved = Saved(
    at: LatLng,
    hasPosition: bool,
    username: string,
    appearance: Messages.Appearance,
    score: int,
    synthetic: bool)

  // Collecting needs a field; without one field stays empty and unused.
  datatype HubConfig = HubConfig(
    aoi: Aoi.Config,
    spawn: LatLng,
    appearance: Messages.Appearance,
    persisting: bool,
    scoring: bool,
    collecting: bool,
    gems: Gems.Setup)
  {
    // The views of the hub's own fit the cells of the grids.
    ghost predicate Sound() {
      gems.Sound() && gems.cfg == aoi && OUT_OF_VIEW <= aoi.cellSize
    }
  }

  const VIEW := 500.0
  const OUT_OF_VIEW := 600.0
  const REACH := 20.0
  const COOLDOWN: Time := 300_000_000

  // A position handed to the position writer.
  datatype Submission = Submission(user: UserId, at: LatLng, number: nat)

  // A collectible given to a player, and the score handed to the score writer.
  datatype Award = Award(player: PlayerId, item: CollectibleId, score: int, when: Time)

  // A score handed to the score writer for good, when a player leaves.
  datatype ScoreWrite = ScoreWrite(user: UserId, score: int)

  // Where and with what score a connected player joined, and how many positions
  // had been submitted and awards given by then.
  datatype Join = Join(at: LatLng, since: nat, score: int, awarded: nat)

  // What is waiting to be sent to each player about appearances and
  // collectibles, the latter by their ids.
  datatype Outbox = Outbox(
    looks: map<PlayerId, Messages.Appearance>,
    entered: map<PlayerId, set<CollectibleId>>,
    left: map<PlayerId, set<CollectibleId>>,
    spawned: map<PlayerId, set<CollectibleId>>,
    collected: map<PlayerId, set<CollectibleId>>)
  {
    function Without(p: PlayerId): Outbox {
      Outbox(looks - {p}, entered - {p}, left - {p}, spawned - {p}, collected - {p})
    }

    function WithLook(p: PlayerId, appearance: Messages.Appearance): Outbox {
      this.(looks := looks[p := appearance])
    }
  }

  const EMPTY_OUTBOX := Outbox(map[], map[], map[], map[], map[])

  // shown is what each browser displays once it has been sent everything.
  datatype HubState = HubState(
    world: WorldState,
    aoi: Aoi.Index,
    clients: map<PlayerId, Client>,
    scores: map<PlayerId, int>,
    synthetic: set<PlayerId>,
    dirty: set<PlayerId>,
    numbers: map<PlayerId, nat>,
    pendingEntered: set<PlayerId>,
    pendingLeft: map<PlayerId, seq<PlayerId>>,
    outbox: Outbox,
    visible: map<PlayerId, set<CollectibleId>>,
    shown: map<PlayerId, set<CollectibleId>>,
    cooldowns: map<PlayerId, Time>,
    field: Gems.Field,
    submitted: seq<Submission>,
    awards: seq<Award>,
    synced: seq<ScoreWrite>,
    joined: map<PlayerId, Join>)

  ghost function Initial(cfg: HubConfig): HubState {
    HubState(EMPTY_WORLD, Aoi.EMPTY_INDEX, map[], map[], {}, {}, map[], {}, map[], EMPTY_OUTBOX, map[], map[], map[],
             Gems.Populated(cfg.gems), [], [], [], map[])
  }

  // Go's zero value for a missing key.
  function Number<T>(m: map<T, int>, k: T): int {
    if k in m then m[k] else 0
  }

  function LastNumber(numbers: map<PlayerId, nat>, p: PlayerId): nat {
    if p in numbers then numbers[p] else 0
  }

  predicate IsCurrent(clients: map<PlayerId, Client>, c: Client) {
    c.id in clients && clients[c.id] == c
  }

  // ------------------------------------------------------------------
  // Leaving
  // ------------------------------------------------------------------

  // A position goes to the writer under the player's next number.
  function SubmittedOne(s: HubState, p: PlayerId): HubState {
    if p !in s.world.players then s
    else
      var number := LastNumber(s.numbers, p) + 1;
      s.(numbers := s.numbers[p := number],
         submitted := s.submitted + [Submission(p, s.world.players[p].at, number)])
  }

  function FinalSubmitted(cfg: HubConfig, s: HubState, p: PlayerId): HubState {
    if cfg.persisting then SubmittedOne(s, p) else s
  }

  // The score a player leaves with, if it has one, is written before anything
  // else happens.
  function ScoreSynced(cfg: HubConfig, synced: seq<ScoreWrite>, scores: map<PlayerId, int>,
                       p: PlayerId): seq<ScoreWrite> {
    if cfg.scoring && p in scores then synced + [ScoreWrite(p, scores[p])] else synced
  }

  // p is listed as gone for every one of the players that is connected.
  ghost function LeftFor(pending: map<PlayerId, seq<PlayerId>>, clients: map<PlayerId, Client>,
                         players: set<PlayerId>, p: PlayerId): map<PlayerId, seq<PlayerId>> {
    map q | q in pending.Keys + clients.Keys && (q in pending || q in players)
      :: Listed(pending, q) + if q in clients && q in players then [p] else []
  }

  ghost function Gone(cfg: HubConfig, s: HubState, c: Client): HubState {
    if !IsCurrent(s.clients, c) then s
    else
      var clients := s.clients - {c.id};
      var t := FinalSubmitted(cfg, s.(clients := clients), c.id);
      t.(synced := ScoreSynced(cfg, s.synced, s.scores, c.id),
         aoi := Aoi.Removed(s.aoi, c.id),
         pendingLeft := LeftFor(s.pendingLeft, clients, Aoi.Neighbors(s.aoi, c.id), c.id) - {c.id},
         world := WithoutPlayer(s.world, c.id),
         pendingEntered := s.pendingEntered - {c.id},
         outbox := s.outbox.Without(c.id),
         visible := s.visible - {c.id},
         shown := s.shown - {c.id},
         dirty := s.dirty - {c.id},
         numbers := t.numbers - {c.id},
         joined := s.joined - {c.id})
  }

  // ------------------------------------------------------------------
  // Joining
  // ------------------------------------------------------------------

  function StartAt(cfg: HubConfig, saved: Option<Saved>): LatLng {
    if saved.Some? && saved.value.hasPosition then saved.value.at else cfg.spawn
  }

  function StartName(c: Client, saved: Option<Saved>): string {
    if saved.Some? && saved.value.username != "" then saved.value.username else c.username
  }

  function StartLook(cfg: HubConfig, saved: Option<Saved>): Messages.Appearance {
    if saved.Some? then saved.value.appearance else cfg.appearance
  }

  function StartScores(cfg: HubConfig, scores: map<PlayerId, int>, p: PlayerId,
                       saved: Option<Saved>): map<PlayerId, int> {
    if saved.Some? && cfg.collecting then scores[p := saved.value.score] else scores
  }

  function StartSynthetic(synthetic: set<PlayerId>, p: PlayerId, saved: Option<Saved>): set<PlayerId> {
    if saved.Some? && saved.value.synthetic then synthetic + {p} else synthetic
  }

  function StartJoin(cfg: HubConfig, s: HubState, p: PlayerId, saved: Option<Saved>): Join {
    Join(StartAt(cfg, saved), |s.submitted|, Number(StartScores(cfg, s.scores, p, saved), p), |s.awards|)
  }

  // A player the world does not know yet enters the world and the index.
  ghost function Entering(cfg: HubConfig, s: HubState, c: Client, saved: Option<Saved>): HubState {
    var at := StartAt(cfg, saved);
    s.(world := WithPlayer(s.world, c.id, at, StartName(c, saved), StartLook(cfg, saved)),
       aoi := Aoi.Inserted(cfg.aoi, s.aoi, c.id, at.lat, at.lng),
       scores := StartScores(cfg, s.scores, c.id, saved),
       synthetic := StartSynthetic(s.synthetic, c.id, saved),
       joined := s.joined[c.id := StartJoin(cfg, s, c.id, saved)])
  }

  // If anybody is connected, the player is to be announced.
  ghost function Joined(cfg: HubConfig, s: HubState, c: Client, saved: Option<Saved>): HubState {
    var t := Entering(cfg, s, c, saved);
    if s.clients == map[] then t
    else t.(pendingEntered := s.pendingEntered + {c.id}, pendingLeft := ForgetLeft(s.pendingLeft, c.id))
  }

  function Others(ids: seq<PlayerId>, p: PlayerId): seq<PlayerId> {
    if ids == [] then []
    else Others(ids[..|ids| - 1], p) + if ids[|ids| - 1] == p then [] else [ids[|ids| - 1]]
  }

  // p is no longer listed as gone for anybody.
  function ForgetLeft(pending: map<PlayerId, seq<PlayerId>>, p: PlayerId): map<PlayerId, seq<PlayerId>> {
    map q | q in pending && Others(pending[q], p) != [] :: Others(pending[q], p)
  }

  function Cleared(s: HubState, p: PlayerId): HubState {
    s.(pendingLeft := s.pendingLeft - {p}, outbox := s.outbox.Without(p), visible := s.visible - {p})
  }

  // The collectibles within a radius of a player's position in the world.
  ghost function InView(cfg: HubConfig, field: Gems.Field, at: LatLng, radius: real): set<CollectibleId> {
    GemLaws.InReach(cfg.gems.cfg, field.items, at, radius)
  }

  // The four opening messages; a failing send drops the connection.
  ghost function Initialised(cfg: HubConfig, s: HubState, c: Client, sent: bool): HubState {
    if c.id !in s.world.players || !sent then Gone(cfg, s, c)
    else
      var seen := if cfg.collecting then InView(cfg, s.field, s.world.players[c.id].at, VIEW) else {};
      s.(visible := Put(s.visible, c.id, seen), shown := s.shown[c.id := seen])
  }

  // The connection takes the player's place.
  function Attached(s: HubState, c: Client): HubState {
    Cleared(s.(clients := s.clients[c.id := c]), c.id)
  }

  ghost function Registered(cfg: HubConfig, s: HubState, c: Client, saved: Option<Saved>, sent: bool): HubState {
    if c.id in s.clients && s.clients[c.id] != c then
      Initialised(cfg, Attached(s.(world := WithInputReset(s.world, c.id)), c), c, sent)
    else
      var t := if c.id in s.world.players then s else Joined(cfg, s, c, saved);
      Initialised(cfg, Attached(t, c), c, sent)
  }

  // ------------------------------------------------------------------
  // Ticks
  // ------------------------------------------------------------------

  function GivenInput(s: HubState, c: Client, input: InputState): HubState {
    if IsCurrent(s.clients, c) then s.(world := WithInput(s.world, c.id, input)) else s
  }

  function Dressed(s: HubState, p: PlayerId, appearance: Messages.Appearance): HubState {
    if ChangesLook(s.world, p, appearance) then
      s.(world := WithAppearance(s.world, p, appearance), outbox := s.outbox.WithLook(p, appearance))
    else s
  }

  function Simulated(s: HubState, places: PlayerId -> LatLng): HubState {
    s.(world := Stepped(s.world, places), dirty := s.dirty + Movers(s.world))
  }

  // One player's new position goes to the index; it is announced to connected
  // players that come to see it, and as gone to those that no longer do.
  ghost function MovedOne(cfg: HubConfig, s: HubState, p: PlayerId): HubState {
    if p !in s.world.players then s
    else
      var at := s.world.players[p].at;
      var aoi := Aoi.Moved(cfg.aoi, s.aoi, p, at.lat, at.lng);
      s.(aoi := aoi,
         pendingEntered :=
           if Aoi.Entered(s.aoi, aoi, p) !! s.clients.Keys then s.pendingEntered else s.pendingEntered + {p},
         pendingLeft := LeftFor(s.pendingLeft, s.clients, Aoi.Left(s.aoi, aoi, p), p))
  }

  ghost function MovedAll(cfg: HubConfig, s: HubState, order: seq<PlayerId>): HubState {
    if order == [] then s
    else MovedOne(cfg, MovedAll(cfg, s, order[..|order| - 1]), order[|order| - 1])
  }

  // q stands, for the index, in one of the nine cells around the item.
  ghost predicate NearIndexed(cfg: HubConfig, s: HubState, q: PlayerId, c: Gems.Collectible) {
    q in s.aoi.players && Grid.Adjacent(cfg.aoi.CellOf(cfg.aoi.ToLocal(c.lat, c.lng)), s.aoi.players[q].cell)
  }

  // The new items around a player.
  ghost function SpawnedNear(cfg: HubConfig, s: HubState, field: Gems.Field, q: PlayerId): set<CollectibleId> {
    set id | id in field.items && id >= s.field.nextID && NearIndexed(cfg, s, q, field.items[id])
  }

  // New items are announced to the players around them and join what those
  // that see anything see.
  ghost function SpawnsSeen(cfg: HubConfig, s: HubState, field: Gems.Field): HubState {
    s.(field := field,
       outbox := s.outbox.(spawned := map q | q in s.outbox.spawned.Keys + s.clients.Keys &&
           (q in s.outbox.spawned || SpawnedNear(cfg, s, field, q) != {}) ::
         Lookup(s.outbox.spawned, q) + if q in s.clients then SpawnedNear(cfg, s, field, q) else {}),
       visible := map q | q in s.visible ::
         s.visible[q] + if q in s.clients then SpawnedNear(cfg, s, field, q) else {})
  }

  // Around a moved player: what comes into view and what has left it. An item
  // between the two radii is neither.
  ghost function ComesIntoView(cfg: HubConfig, s: HubState, q: PlayerId): set<CollectibleId>
    requires q in s.world.players
  {
    InView(cfg, s.field, s.world.players[q].at, VIEW) - Lookup(s.visible, q)
  }

  ghost function OutOfView(cfg: HubConfig, s: HubState, q: PlayerId): set<CollectibleId>
    requires q in s.world.players
  {
    Lookup(s.visible, q) - InView(cfg, s.field, s.world.players[q].at, OUT_OF_VIEW)
  }

  // Adds to a player's list; an empty addition leaves the map as it is.
  function PutMore(m: map<PlayerId, set<CollectibleId>>, q: PlayerId,
                   more: set<CollectibleId>): map<PlayerId, set<CollectibleId>> {
    if more == {} then m else m[q := Lookup(m, q) + more]
  }

  // A moved player then sees what is around its new position, and only that.
  ghost function ViewRecalculated(cfg: HubConfig, s: HubState, q: PlayerId): HubState {
    if q !in s.clients || q !in s.world.players then s
    else
      s.(outbox := s.outbox.(entered := PutMore(s.outbox.entered, q, ComesIntoView(cfg, s, q)),
                             left := PutMore(s.outbox.left, q, OutOfView(cfg, s, q))),
         visible := s.visible[q := InView(cfg, s.field, s.world.players[q].at, VIEW)])
  }

  ghost function ViewsRecalculated(cfg: HubConfig, s: HubState, order: seq<PlayerId>): HubState {
    if order == [] then s
    else ViewRecalculated(cfg, ViewsRecalculated(cfg, s, order[..|order| - 1]), order[|order| - 1])
  }

  // What a browser shows after an update, and the outbox emptied.
  ghost function ShownAfter(s: HubState, q: PlayerId): set<CollectibleId> {
    Lookup(s.shown, q) + Lookup(s.outbox.entered, q) + Lookup(s.outbox.spawned, q)
      - Lookup(s.outbox.left, q) - Lookup(s.outbox.collected, q)
  }

  ghost function Delivered(s: HubState): HubState {
    s.(pendingEntered := {}, pendingLeft := map[], outbox := EMPTY_OUTBOX,
       shown := map q | q in s.shown :: if q in s.clients then ShownAfter(s, q) else s.shown[q])
  }

  // Everything there is to tell once the moves of the listed players, in
  // ascending order, have reached the index.
  ghost function Gathered(cfg: HubConfig, s: HubState, order: seq<PlayerId>, now: Time): HubState {
    var taken := s.(world := s.world.(moved := {}, removed := {}));
    var t := MovedAll(cfg, taken, order);
    if cfg.collecting then
      ViewsRecalculated(cfg, SpawnsSeen(cfg, t, Gems.Advanced(cfg.gems, s.field, now)), order)
    else t
  }

  ghost function Broadcasted(cfg: HubConfig, s: HubState, order: seq<PlayerId>, now: Time): HubState {
    Delivered(Gathered(cfg, s, order, now))
  }

  function SubmittedAll(s: HubState, order: seq<PlayerId>): HubState {
    if order == [] then s
    else SubmittedOne(SubmittedAll(s, order[..|order| - 1]), order[|order| - 1])
  }

  // order lists the dirty players in the order the map yields them.
  function Persisted(cfg: HubConfig, s: HubState, order: seq<PlayerId>): HubState {
    if !cfg.persisting || s.dirty == {} then s else SubmittedAll(s, order).(dirty := {})
  }

  // ------------------------------------------------------------------
  // Collecting
  // ------------------------------------------------------------------

  predicate Cooling(s: HubState, p: PlayerId, now: Time) {
    p in s.cooldowns && now - s.cooldowns[p] < COOLDOWN
  }

  // The request is from the current connection of a real player whose last one
  // was long enough ago.
  predicate Considered(s: HubState, c: Client, now: Time) {
    IsCurrent(s.clients, c) && c.id !in s.synthetic && !Cooling(s, c.id, now)
  }

  // The item is there, seen by the player and within reach of it.
  predicate Collectable(cfg: HubConfig, s: HubState, p: PlayerId, item: CollectibleId) {
    && cfg.collecting
    && item in s.field.items
    && p in s.visible && s.field.items[item].id in s.visible[p]
    && p in s.world.players
    && Geometry.DistanceSquared(
         cfg.aoi.ToLocal(s.world.players[p].at.lat, s.world.players[p].at.lng),
         cfg.aoi.ToLocal(s.field.items[item].lat, s.field.items[item].lng)) <= Geometry.Square(REACH)
  }

  predicate Wins(cfg: HubConfig, s: HubState, c: Client, item: CollectibleId, now: Time) {
    Considered(s, c, now) && Collectable(cfg, s, c.id, item)
  }

  ghost function Won(cfg: HubConfig, s: HubState, p: PlayerId, item: CollectibleId, now: Time, pick: nat): HubState
    requires cfg.Sound() && item in s.field.items
  {
    var score := Number(s.scores, p) + 1;
    var c := s.field.items[item];
    s.(field := Gems.Collected(cfg.gems, s.field, item, now, pick),
       scores := s.scores[p := score],
       awards := s.awards + [Award(p, item, score, now)],
       outbox := s.outbox.(collected := map q | q in s.outbox.collected.Keys + s.clients.Keys &&
           (q in s.outbox.collected || NearIndexed(cfg, s, q, c)) ::
         Lookup(s.outbox.collected, q) + if q in s.clients && NearIndexed(cfg, s, q, c) then {item} else {}),
       visible := map q | q in s.visible ::
         if q in s.clients && NearIndexed(cfg, s, q, c) then s.visible[q] - {c.id} else s.visible[q])
  }

  ghost function AfterCollect(cfg: HubConfig, s: HubState, c: Client, item: CollectibleId, now: Time,
                              pick: nat): HubState
    requires cfg.Sound()
  {
    if !Considered(s, c, now) then s
    else
      var t := s.(cooldowns := s.cooldowns[c.id := now]);
      if Collectable(cfg, s, c.id, item) then Won(cfg, t, c.id, item, now, pick) else t
  }

  // ------------------------------------------------------------------
  // Runs
  // ------------------------------------------------------------------

  // What the actor loop takes from its channels and clocks. sent tells whether
  // the opening messages could be sent, saved what the database answered.
  datatype Event =
    | Register(client: Client, saved: Option<Saved>, sent: bool)
    | Unregister(client: Client)
    | DisconnectUser(player: PlayerId)
    | Input(client: Client, input: InputState)
    | UpdateAppearance(player: PlayerId, appearance: Messages.Appearance)
    | Simulate(places: PlayerId -> LatLng)
    | Broadcast(order: seq<PlayerId>, now: Time)
    | Persist(order: seq<PlayerId>)
    | Collect(client: Client, item: CollectibleId, now: Time, pick: nat)

  // The orders of iteration an event may carry.
  ghost predicate Possible(s: HubState, e: Event) {
    match e
    case Broadcast(order, _) => Ascending(order) && ToSet(order) == s.world.moved
    case Persist(order) => Lists(order, s.dirty)
    case _ => true
  }

  ghost function Step(cfg: HubConfig, s: HubState, e: Event): HubState
    requires cfg.Sound()
  {
    if !Possible(s, e) then s
    else
      match e
      case Register(c, saved, sent) => Registered(cfg, s, c, saved, sent)
      case Unregister(c) => Gone(cfg, s, c)
      case DisconnectUser(p) => if p in s.clients then Gone(cfg, s, s.clients[p]) else s
      case Input(c, input) => GivenInput(s, c, input)
      case UpdateAppearance(p, appearance) => Dressed(s, p, appearance)
      case Simulate(places) => Simulated(s, places)
      case Broadcast(order, now) => Broadcasted(cfg, s, order, now)
      case Persist(order) => Persisted(cfg, s, order)
      case Collect(c, item, now, pick) => AfterCollect(cfg, s, c, item, now, pick)
  }

  ghost function Run(cfg: HubConfig, events: seq<Event>): HubState
    requires cfg.Sound()
  {
    if events == [] then Initial(cfg)
    else Step(cfg, Run(cfg, events[..|events| - 1]), events[|events| - 1])
  }

  // The stop step: every connected player's position is submitted once more.
  function StoppedBy(cfg: HubConfig, s: HubState, order: seq<PlayerId>): HubState {
    if order == [] then s
    else FinalSubmitted(cfg, StoppedBy(cfg, s, order[..|order| - 1]), order[|order| - 1])
  }
}

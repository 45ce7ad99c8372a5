// That nobody is left looking at a collectible that is gone needs connections
// to be replaced while the index does not lag too far: for every configuration
// and every lag over the bound there is a run that leaves a player held to see
// what another has collected.
module HubViewsTight {
  import opened Common
  import opened Geometry
  import opened SetMaps
  import opened World
  import opened HubModel
  import opened HubInvariant
  import opened HubLaws
  import opened HubViews
  import Aoi = AoiModel
  import Line = AoiTightness
  import Gems = CollectibleModel
  import Messages

  // A runner whose connection is replaced, and a collector.
  const RUNNER := Client(1, 1, "")
  const AGAIN := Client(2, 1, "")
  const COLLECTOR := Client(3, 2, "")
  const LOOK := Messages.Appearance("", "")
  const GEM: CollectibleId := 1

  // The place at x on the axis through the origin.
  function Spot(aoi: Aoi.Config, x: real): LatLng {
    LatLng(aoi.originLat, Line.LngAt(aoi, x))
  }

  // One region with one item, which falls on the region's center two cells to
  // the right of the origin.
  function OneGem(aoi: Aoi.Config): Gems.Region {
    var center := Spot(aoi, 2.0 * aoi.cellSize);
    Gems.Region("", center.lat, center.lng, 1.0, 1, 1, 1)
  }

  // Every draw is the center.
  function Centered(id: CollectibleId, attempt: nat): Gems.Draw {
    Gems.ORIGIN
  }

  function SetupOf(aoi: Aoi.Config): Gems.Setup {
    Gems.Setup(aoi, [OneGem(aoi)], Centered)
  }

  function ConfigOf(aoi: Aoi.Config): HubConfig {
    HubConfig(aoi, Spot(aoi, 0.0), LOOK, false, false, true, SetupOf(aoi))
  }

  function SavedAt(at: LatLng): Saved {
    Saved(at, true, "", LOOK, 0, false)
  }

  // The runner joins just inside the first cell,
  function Arrives(aoi: Aoi.Config, delta: real): Event {
    Register(RUNNER, Some(SavedAt(Spot(aoi, aoi.cellSize - delta))), true)
  }

  // presses a key,
  const PRESSES := Input(RUNNER, InputState(1, false, false, false, true))

  // runs to where the item comes into view,
  function Runs(aoi: Aoi.Config): Event {
    Simulate(_ => Spot(aoi, 2.0 * aoi.cellSize - VIEW))
  }

  // and is replaced by a new connection before any broadcast;
  const REPLACED := Register(AGAIN, None, true)

  // a collector joins at the item
  function Follows(aoi: Aoi.Config): Event {
    Register(COLLECTOR, Some(SavedAt(Spot(aoi, 2.0 * aoi.cellSize))), true)
  }

  // and collects it.
  const COLLECTS := Collect(COLLECTOR, GEM, 0, 0)

  // The run up to the replacement, up to the collecting, and in full.

  function Lagging(aoi: Aoi.Config, delta: real): seq<Event> {
    [] + [Arrives(aoi, delta)] + [PRESSES] + [Runs(aoi)]
  }

  function BothConnected(aoi: Aoi.Config, delta: real): seq<Event> {
    Lagging(aoi, delta) + [REPLACED] + [Follows(aoi)]
  }

  function LagRun(aoi: Aoi.Config, delta: real): seq<Event> {
    BothConnected(aoi, delta) + [COLLECTS]
  }

  // ------------------------------------------------------------------
  // The field
  // ------------------------------------------------------------------

  // The item lies on the axis, two cells to the right.
  ghost predicate OnlyGem(aoi: Aoi.Config, field: Gems.Field) {
    && field.items.Keys == {GEM}
    && field.items[GEM].id == GEM
    && Gems.SpotOf(aoi, field.items[GEM]) == Point(2.0 * aoi.cellSize, 0.0)
  }

  lemma OneTarget(r: Gems.Region)
    requires r.targetCount == 1
    ensures Gems.Targets([r]) == [r]
  {
    assert [r][..0] == [] && Gems.Targets([]) == [] && Gems.Repeated(r, 1) == [r];
  }

  lemma OneSpawn(setup: Gems.Setup, r: Gems.Region)
    ensures Gems.SpawnedAll(setup, Gems.EMPTY_FIELD, [r]) == Gems.Spawned(setup, Gems.EMPTY_FIELD, r)
  {
    hide Gems.Spawned, DistanceSquared, Square;
    assert [r][..0] == [];
  }

  lemma FirstTrialStands(setup: Gems.Setup, r: Gems.Region)
    ensures Gems.Place(setup, map[], r, GEM, 0) == Gems.Trial(setup, r, GEM, 0)
  {
    hide Gems.Trial;
    assert !Gems.Crowded(setup.cfg, map[], Gems.Trial(setup, r, GEM, 0));
  }

  lemma CenterOfCircle(aoi: Aoi.Config, r: Gems.Region)
    ensures Gems.PointInCircle(aoi, r, Gems.ORIGIN) == Gems.ToLatLng(aoi, aoi.ToLocal(r.centerLat, r.centerLng))
  {
    hide Aoi.AoiConfig.ToLocal, Gems.ToLatLng;
    assert r.radius * 0.0 == 0.0;
  }

  lemma TrialIsCenter(aoi: Aoi.Config, r: Gems.Region)
    ensures Gems.Trial(SetupOf(aoi), r, GEM, 0) == Gems.PointInCircle(aoi, r, Gems.ORIGIN)
  {
    hide Gems.PointInCircle, OneGem;
  }

  lemma CenteredTrial(aoi: Aoi.Config)
    ensures var at := Gems.Trial(SetupOf(aoi), OneGem(aoi), GEM, 0);
      aoi.ToLocal(at.lat, at.lng) == Point(2.0 * aoi.cellSize, 0.0)
  {
    hide Aoi.AoiConfig.ToLocal, Line.LngAt, Gems.ToLatLng, Gems.PointInCircle, Gems.Trial, SetupOf;
    Line.LocalOfLng(aoi, 2.0 * aoi.cellSize);
    TrialIsCenter(aoi, OneGem(aoi));
    CenterOfCircle(aoi, OneGem(aoi));
    Gems.RoundTrip(aoi, Point(2.0 * aoi.cellSize, 0.0));
  }

  lemma SoundConfig(aoi: Aoi.Config)
    requires OUT_OF_VIEW <= aoi.cellSize
    ensures ConfigOf(aoi).Sound()
  {
    hide Spot, DistanceSquared, Square;
    assert SetupOf(aoi).regions == [OneGem(aoi)];
  }

  lemma PopulatedWithOne(aoi: Aoi.Config)
    ensures OnlyGem(aoi, Gems.Populated(SetupOf(aoi)))
  {
    hide Spot, Gems.Place, Gems.Trial, Aoi.AddToCell, Aoi.AoiConfig.ToLocal, Aoi.AoiConfig.CellOf;
    var setup, r := SetupOf(aoi), OneGem(aoi);
    OneTarget(r);
    OneSpawn(setup, r);
    FirstTrialStands(setup, r);
    CenteredTrial(aoi);
  }

  lemma GemInView(aoi: Aoi.Config, field: Gems.Field, x: real)
    requires OnlyGem(aoi, field) && 2.0 * aoi.cellSize - VIEW <= x <= 2.0 * aoi.cellSize
    ensures GEM in InView(ConfigOf(aoi), field, Spot(aoi, x), VIEW)
  {
    Line.LocalOfLng(aoi, x);
    Line.AxisDistance(x, 2.0 * aoi.cellSize);
    SquareMonotone(2.0 * aoi.cellSize - x, VIEW);
    assert Square(x - 2.0 * aoi.cellSize) == Square(2.0 * aoi.cellSize - x);
    assert Gems.Within(aoi, Spot(aoi, x), field.items[GEM], VIEW);
  }

  // ------------------------------------------------------------------
  // The steps
  // ------------------------------------------------------------------

  // What registering leaves as it was, and whom it puts where.
  ghost predicate Registering(cfg: HubConfig, s: HubState, t: HubState, c: Client) {
    && t.clients == s.clients[c.id := c] && t.synthetic == s.synthetic
    && t.cooldowns == s.cooldowns && t.field == s.field
    && c.id in t.world.players
    && t.visible == Put(s.visible - {c.id}, c.id, InView(cfg, s.field, t.world.players[c.id].at, VIEW))
    && (forall p | p in s.world.players && p != c.id ::
          p in t.world.players && t.world.players[p] == s.world.players[p])
  }

  lemma StartingStep(cfg: HubConfig, s: HubState, c: Client)
    requires cfg.collecting && c.id in s.world.players
    ensures var t := Initialised(cfg, Attached(s, c), c, true);
      && Registering(cfg, s, t, c) && t.world == s.world && t.aoi == s.aoi
  {
    hide InView, DistanceSquared, Square;
  }

  lemma JoinStep(cfg: HubConfig, s: HubState, c: Client, at: LatLng)
    requires cfg.Sound() && cfg.collecting && HubOk(cfg, s) && c.id !in s.clients
    ensures var t := Registered(cfg, s, c, Some(SavedAt(at)), true);
      && Registering(cfg, s, t, c)
      && t.world.players[c.id].at == at && t.world.players[c.id].lastSequence == 0
      && t.aoi == Aoi.Inserted(cfg.aoi, s.aoi, c.id, at.lat, at.lng)
  {
    hide HubOk, Joined, Initialised, Attached, InView, Aoi.Inserted, DistanceSquared, Square;
    KnownIsConnected(cfg, s, c.id);
    var saved := Some(SavedAt(at));
    JoinedFrame(cfg, s, c, saved);
    JoinedSynthetic(cfg, s, c, at);
    JoinedKeepsField(cfg, s, c, saved);
    JoinedSees(cfg, s, c, saved);
    JoinedClients(cfg, s, c, saved);
    StartingStep(cfg, Joined(cfg, s, c, saved), c);
  }

  lemma JoinedSynthetic(cfg: HubConfig, s: HubState, c: Client, at: LatLng)
    ensures Joined(cfg, s, c, Some(SavedAt(at))).synthetic == s.synthetic
  {
    hide ForgetLeft, Aoi.Inserted, WithPlayer, StartAt, StartName, StartLook, StartScores, StartJoin, DistanceSquared,
      Square;
  }

  lemma JoinedClients(cfg: HubConfig, s: HubState, c: Client, saved: Option<Saved>)
    ensures Joined(cfg, s, c, saved).clients == s.clients
  {
    hide Joined, Aoi.Inserted, WithPlayer, StartAt, StartName, StartLook, DistanceSquared, Square;
    JoinedFrame(cfg, s, c, saved);
  }

  lemma ReplaceStep(cfg: HubConfig, s: HubState, c: Client)
    requires cfg.collecting && c.id in s.clients && s.clients[c.id] != c && c.id in s.world.players
    ensures var t := Registered(cfg, s, c, None, true);
      && Registering(cfg, s, t, c) && t.aoi == s.aoi
      && t.world.players[c.id].at == s.world.players[c.id].at
  {
    hide Initialised, Attached, InView, DistanceSquared, Square;
    StartingStep(cfg, s.(world := WithInputReset(s.world, c.id)), c);
  }

  lemma RegisteringKeeps(cfg: HubConfig, s: HubState, t: HubState, c: Client)
    requires Registering(cfg, s, t, c)
    ensures t.clients == s.clients[c.id := c] && c.id in t.world.players
    ensures t.synthetic == s.synthetic && t.cooldowns == s.cooldowns && t.field == s.field
  {
    hide InView, DistanceSquared, Square;
  }

  lemma RegisteringSees(aoi: Aoi.Config, s: HubState, t: HubState, c: Client, x: real)
    requires Registering(ConfigOf(aoi), s, t, c) && c.id in t.world.players && OnlyGem(aoi, s.field)
    requires t.world.players[c.id].at == Spot(aoi, x) && 2.0 * aoi.cellSize - VIEW <= x <= 2.0 * aoi.cellSize
    ensures c.id in t.visible && GEM in t.visible[c.id]
    ensures forall p | p in s.visible && p != c.id :: p in t.visible && t.visible[p] == s.visible[p]
  {
    hide InView, Spot, OnlyGem, ConfigOf, DistanceSquared, Square;
    GemInView(aoi, s.field, x);
  }

  // Where the runner is for the index, and what there is to collect.
  ghost predicate Behind(aoi: Aoi.Config, delta: real, s: HubState) {
    && OnlyGem(aoi, s.field) && s.synthetic == {} && s.cooldowns == map[]
    && RUNNER.id in s.aoi.players
    && s.aoi.players[RUNNER.id].local == Point(aoi.cellSize - delta, 0.0)
    && s.aoi.players[RUNNER.id].cell == Aoi.Cell(0, 0)
  }

  // The runner has joined and not moved yet.
  ghost predicate AtStart(aoi: Aoi.Config, delta: real, s: HubState) {
    && Behind(aoi, delta, s)
    && s.clients == map[RUNNER.id := RUNNER]
    && RUNNER.id in s.world.players && s.world.players[RUNNER.id].lastSequence == 0
  }

  lemma RunnerJoins(aoi: Aoi.Config, delta: real)
    requires OUT_OF_VIEW <= aoi.cellSize && 0.0 < delta <= aoi.cellSize && ConfigOf(aoi).Sound()
    ensures AtStart(aoi, delta, Run(ConfigOf(aoi), [] + [Arrives(aoi, delta)]))
  {
    hide HubOk, Registered, Aoi.Inserted, InView, OnlyGem, Gems.Populated, Run, Spot, ConfigOf, DistanceSquared, Square;
    var cfg, at := ConfigOf(aoi), Spot(aoi, aoi.cellSize - delta);
    PopulatedWithOne(aoi);
    StartsEmpty(aoi);
    RunExtends(cfg, [], Arrives(aoi, delta));
    RunKeeps(cfg, []);
    RunKeeps(cfg, [] + [Arrives(aoi, delta)]);
    JoinStep(cfg, Initial(cfg), RUNNER, at);
    InsertedPlayers(cfg.aoi, Aoi.EMPTY_INDEX, RUNNER.id, at);
    StandsAtStart(aoi, delta, Run(cfg, [] + [Arrives(aoi, delta)]));
  }

  lemma StartsEmpty(aoi: Aoi.Config)
    requires ConfigOf(aoi).Sound()
    ensures var cfg := ConfigOf(aoi);
      && cfg.aoi == aoi && cfg.collecting && cfg.gems == SetupOf(aoi)
      && Run(cfg, []) == Initial(cfg)
  {
    hide Initial, Spot, SetupOf, DistanceSquared, Square;
  }

  lemma StandsAtStart(aoi: Aoi.Config, delta: real, s: HubState)
    requires 0.0 < delta <= aoi.cellSize && HubOk(ConfigOf(aoi), s)
    requires OnlyGem(aoi, s.field) && s.synthetic == {} && s.cooldowns == map[] && s.clients == map[RUNNER.id := RUNNER]
    requires RUNNER.id in s.world.players && s.world.players[RUNNER.id].lastSequence == 0 && RUNNER.id in s.aoi.players
    requires var at := Spot(aoi, aoi.cellSize - delta);
      s.aoi.players[RUNNER.id].lat == at.lat && s.aoi.players[RUNNER.id].lng == at.lng
    ensures AtStart(aoi, delta, s)
  {
    IndexedIsPlaced(ConfigOf(aoi), s, RUNNER.id);
    hide HubOk, OnlyGem, Aoi.AoiConfig.ToLocal, Aoi.AoiConfig.CellOf;
    Line.LocalOfLng(aoi, aoi.cellSize - delta);
    Line.CellRight(aoi, aoi.cellSize - delta);
  }

  // The runner has moved in the world and not in the index.
  ghost predicate HasRun(aoi: Aoi.Config, delta: real, s: HubState) {
    && Behind(aoi, delta, s)
    && s.clients == map[RUNNER.id := RUNNER]
    && RUNNER.id in s.world.players
    && s.world.players[RUNNER.id].at == Spot(aoi, 2.0 * aoi.cellSize - VIEW)
  }

  lemma RunnerRuns(aoi: Aoi.Config, delta: real)
    requires OUT_OF_VIEW <= aoi.cellSize && 0.0 < delta <= aoi.cellSize && ConfigOf(aoi).Sound()
    ensures HasRun(aoi, delta, Run(ConfigOf(aoi), Lagging(aoi, delta)))
  {
    hide Run, Arrives, Behind, ConfigOf, Spot, GivenInput, Simulated, DistanceSquared, Square;
    var cfg, first := ConfigOf(aoi), [] + [Arrives(aoi, delta)];
    RunnerJoins(aoi, delta);
    BehindHasGem(aoi, delta, Run(cfg, first));
    RunExtends(cfg, first, PRESSES);
    RunExtends(cfg, first + [PRESSES], Runs(aoi));
    var s := Run(cfg, first);
    PressingRight(s, PRESSES.input);
    Running(GivenInput(s, RUNNER, PRESSES.input), Runs(aoi).places);
    StillBehind(aoi, delta, s, Run(cfg, Lagging(aoi, delta)));
  }

  lemma PressingRight(s: HubState, input: InputState)
    requires IsCurrent(s.clients, RUNNER) && RUNNER.id in s.world.players
    requires s.world.players[RUNNER.id].lastSequence == 0
    requires input == InputState(1, false, false, false, true)
    ensures var t := GivenInput(s, RUNNER, input);
      && t.clients == s.clients && t.aoi == s.aoi
      && t.field == s.field && t.synthetic == s.synthetic && t.cooldowns == s.cooldowns
      && RUNNER.id in t.world.players && !t.world.players[RUNNER.id].input.Idle()
  {
  }

  lemma Running(s: HubState, places: PlayerId -> LatLng)
    requires RUNNER.id in s.world.players && !s.world.players[RUNNER.id].input.Idle()
    ensures var t := Simulated(s, places);
      && t.clients == s.clients && t.aoi == s.aoi
      && t.field == s.field && t.synthetic == s.synthetic && t.cooldowns == s.cooldowns
      && RUNNER.id in t.world.players && t.world.players[RUNNER.id].at == places(RUNNER.id)
  {
  }

  lemma StillBehind(aoi: Aoi.Config, delta: real, s: HubState, t: HubState)
    requires Behind(aoi, delta, s)
    requires t.field == s.field && t.synthetic == s.synthetic && t.cooldowns == s.cooldowns
    requires RUNNER.id in t.aoi.players && t.aoi.players[RUNNER.id] == s.aoi.players[RUNNER.id]
    ensures Behind(aoi, delta, t)
  {
  }

  // Both are connected and held to see the item.
  ghost predicate BothSee(aoi: Aoi.Config, delta: real, s: HubState) {
    && Behind(aoi, delta, s)
    && IsCurrent(s.clients, COLLECTOR) && COLLECTOR.id in s.world.players
    && s.world.players[COLLECTOR.id].at == Spot(aoi, 2.0 * aoi.cellSize)
    && RUNNER.id in s.visible && GEM in s.visible[RUNNER.id]
    && COLLECTOR.id in s.visible && GEM in s.visible[COLLECTOR.id]
  }

  lemma BothSeeTheGem(aoi: Aoi.Config, delta: real)
    requires OUT_OF_VIEW <= aoi.cellSize && 0.0 < delta <= aoi.cellSize && ConfigOf(aoi).Sound()
    ensures BothSee(aoi, delta, Run(ConfigOf(aoi), BothConnected(aoi, delta)))
  {
    hide Run, Lagging, Registered, HubOk, Behind, Spot, InView, ConfigOf, Registering, BothSee, OnlyGem,
      DistanceSquared, Square;
    var cfg := ConfigOf(aoi);
    var s := Run(cfg, Lagging(aoi, delta));
    RunnerRuns(aoi, delta);
    StartsEmpty(aoi);
    RunExtends(cfg, Lagging(aoi, delta), REPLACED);
    var t := Run(cfg, Lagging(aoi, delta) + [REPLACED]);
    ReplaceStep(cfg, s, AGAIN);
    RegisteringKeeps(cfg, s, t, AGAIN);
    BehindHasGem(aoi, delta, s);
    RegisteringSees(aoi, s, t, AGAIN, 2.0 * aoi.cellSize - VIEW);
    StillBehind(aoi, delta, s, t);
    RunKeeps(cfg, Lagging(aoi, delta) + [REPLACED]);
    CollectorJoins(aoi, delta, t);
    RunExtends(cfg, Lagging(aoi, delta) + [REPLACED], Follows(aoi));
  }

  lemma BehindHasGem(aoi: Aoi.Config, delta: real, s: HubState)
    requires Behind(aoi, delta, s)
    ensures OnlyGem(aoi, s.field) && RUNNER.id in s.aoi.players
  {
  }

  lemma CollectorJoins(aoi: Aoi.Config, delta: real, s: HubState)
    requires ConfigOf(aoi).Sound() && HubOk(ConfigOf(aoi), s) && Behind(aoi, delta, s) && COLLECTOR.id !in s.clients
    requires RUNNER.id in s.visible && GEM in s.visible[RUNNER.id]
    ensures BothSee(aoi, delta, Registered(ConfigOf(aoi), s, COLLECTOR, Follows(aoi).saved, true))
  {
    hide Registered, HubOk, Behind, Spot, InView, Aoi.Inserted, ConfigOf, Registering, OnlyGem, DistanceSquared, Square;
    var cfg, at := ConfigOf(aoi), Spot(aoi, 2.0 * aoi.cellSize);
    var t := Registered(cfg, s, COLLECTOR, Follows(aoi).saved, true);
    StartsEmpty(aoi);
    BehindHasGem(aoi, delta, s);
    JoinStep(cfg, s, COLLECTOR, at);
    RegisteringKeeps(cfg, s, t, COLLECTOR);
    RegisteringSees(aoi, s, t, COLLECTOR, 2.0 * aoi.cellSize);
    KnownIsIndexed(cfg, s, COLLECTOR.id);
    InsertedPlayers(cfg.aoi, s.aoi, COLLECTOR.id, at);
    StillBehind(aoi, delta, s, t);
  }

  lemma KnownIsIndexed(cfg: HubConfig, s: HubState, p: PlayerId)
    requires HubOk(cfg, s)
    ensures p in s.aoi.players <==> p in s.clients
  {
  }

  // The collector wins; the runner, two cells off for the index, is not told.
  lemma GemIsCollected(aoi: Aoi.Config, delta: real, s: HubState)
    requires OUT_OF_VIEW <= aoi.cellSize && ConfigOf(aoi).Sound() && BothSee(aoi, delta, s)
    ensures var t := AfterCollect(ConfigOf(aoi), s, COLLECTOR, GEM, 0, 0);
      RUNNER.id in t.visible && GEM in t.visible[RUNNER.id] && GEM !in t.field.items
  {
    var cfg, at := ConfigOf(aoi), Spot(aoi, 2.0 * aoi.cellSize);
    Line.LocalOfLng(aoi, 2.0 * aoi.cellSize);
    assert aoi.ToLocal(at.lat, at.lng) == Point(2.0 * aoi.cellSize, 0.0);
    DistanceToSelf(Point(2.0 * aoi.cellSize, 0.0));
    SquareIsNonNegative(REACH);
    TwoCellsOff(aoi);
    hide DistanceSquared, Square, Aoi.AoiConfig.ToLocal, Aoi.AoiConfig.CellOf, Spot, SetupOf, AfterCollect,
      Gems.Collected;
    assert Considered(s, COLLECTOR, 0) && Collectable(cfg, s, COLLECTOR.id, GEM);
    assert !NearIndexed(cfg, s, RUNNER.id, s.field.items[GEM]);
    Winning(cfg, s);
  }

  lemma Winning(cfg: HubConfig, s: HubState)
    requires cfg.Sound() && GEM in s.field.items
    requires Considered(s, COLLECTOR, 0) && Collectable(cfg, s, COLLECTOR.id, GEM)
    requires RUNNER.id in s.visible && GEM in s.visible[RUNNER.id] && s.field.items[GEM].id == GEM
    requires !NearIndexed(cfg, s, RUNNER.id, s.field.items[GEM])
    ensures var t := AfterCollect(cfg, s, COLLECTOR, GEM, 0, 0);
      RUNNER.id in t.visible && GEM in t.visible[RUNNER.id] && GEM !in t.field.items
  {
    hide Considered, Collectable;
    SameNearness(cfg, s.(cooldowns := s.cooldowns[COLLECTOR.id := 0]), s, RUNNER.id, s.field.items[GEM]);
    hide NearIndexed;
  }

  lemma TwoCellsOff(aoi: Aoi.Config)
    ensures aoi.CellOf(Point(2.0 * aoi.cellSize, 0.0)).x == 2
  {
    assert 2.0 * aoi.cellSize / aoi.cellSize == 2.0;
  }

  lemma StillHeldToSee(cfg: HubConfig, s: HubState)
    requires RUNNER.id in s.visible && GEM in s.visible[RUNNER.id] && GEM !in s.field.items
    ensures !ViewsLive(cfg, s)
  {
    assert !SeenIsLive(cfg, s, RUNNER.id, GEM);
  }

  // How far the index lags when the connection is replaced.
  lemma LagIs(aoi: Aoi.Config, delta: real, s: HubState)
    requires HasRun(aoi, delta, s)
    ensures RUNNER.id in s.aoi.players && RUNNER.id in s.world.players
    ensures DistanceSquared(s.aoi.players[RUNNER.id].local, WorldSpot(ConfigOf(aoi), s, RUNNER.id))
         == Square(aoi.cellSize - VIEW + delta)
  {
    Line.LocalOfLng(aoi, 2.0 * aoi.cellSize - VIEW);
    Line.AxisDistance(aoi.cellSize - delta, 2.0 * aoi.cellSize - VIEW);
    assert Square(aoi.cellSize - delta - (2.0 * aoi.cellSize - VIEW)) == Square(aoi.cellSize - VIEW + delta);
  }

  // The two players that join are not known before, so nothing lags for them.
  lemma ArrivalsAreCalm(aoi: Aoi.Config, delta: real)
    requires OUT_OF_VIEW <= aoi.cellSize && 0.0 < delta <= aoi.cellSize && ConfigOf(aoi).Sound()
    ensures Calm(ConfigOf(aoi), Run(ConfigOf(aoi), []), Arrives(aoi, delta))
    ensures Calm(ConfigOf(aoi), Run(ConfigOf(aoi), Lagging(aoi, delta) + [REPLACED]), Follows(aoi))
  {
    hide Run, Lagging, Registered, HubOk, Behind, Spot, InView, ConfigOf, Registering, DistanceSquared, Square;
    var cfg := ConfigOf(aoi);
    var s := Run(cfg, Lagging(aoi, delta));
    StartsEmpty(aoi);
    RunnerRuns(aoi, delta);
    RunExtends(cfg, Lagging(aoi, delta), REPLACED);
    ReplaceStep(cfg, s, AGAIN);
    var t := Run(cfg, Lagging(aoi, delta) + [REPLACED]);
    RegisteringKeeps(cfg, s, t, AGAIN);
    RunKeeps(cfg, Lagging(aoi, delta) + [REPLACED]);
    KnownIsConnected(cfg, t, COLLECTOR.id);
  }

  lemma EndsSeeingTheGone(aoi: Aoi.Config, delta: real)
    requires OUT_OF_VIEW <= aoi.cellSize && 0.0 < delta <= aoi.cellSize && ConfigOf(aoi).Sound()
    ensures var t := Run(ConfigOf(aoi), LagRun(aoi, delta));
      && RUNNER.id in t.visible && GEM in t.visible[RUNNER.id] && GEM !in t.field.items
      && !ViewsLive(ConfigOf(aoi), t)
  {
    hide Run, DistanceSquared, Square, AfterCollect, BothSee, ConfigOf, BothConnected, ViewsLive, Spot;
    BothSeeTheGem(aoi, delta);
    RunExtends(ConfigOf(aoi), BothConnected(aoi, delta), COLLECTS);
    GemIsCollected(aoi, delta, Run(ConfigOf(aoi), BothConnected(aoi, delta)));
    StillHeldToSee(ConfigOf(aoi), Run(ConfigOf(aoi), LagRun(aoi, delta)));
  }

  // The bound of NobodySeesTheGone cannot be raised: in this run one connection
  // is replaced when the index lags by delta more, and nothing else lags; it
  // ends with that player held to see a collectible that is gone.
  lemma LagBoundIsTight(aoi: Aoi.Config, delta: real)
    requires OUT_OF_VIEW <= aoi.cellSize && 0.0 < delta <= aoi.cellSize
    ensures ConfigOf(aoi).Sound()
    ensures Calm(ConfigOf(aoi), Run(ConfigOf(aoi), []), Arrives(aoi, delta))
    ensures Calm(ConfigOf(aoi), Run(ConfigOf(aoi), Lagging(aoi, delta) + [REPLACED]), Follows(aoi))
    ensures var s := Run(ConfigOf(aoi), Lagging(aoi, delta));
      && RUNNER.id in s.aoi.players && RUNNER.id in s.world.players
      && DistanceSquared(s.aoi.players[RUNNER.id].local, WorldSpot(ConfigOf(aoi), s, RUNNER.id))
           == Square(aoi.cellSize - VIEW + delta)
    ensures var t := Run(ConfigOf(aoi), LagRun(aoi, delta));
      && RUNNER.id in t.visible && GEM in t.visible[RUNNER.id] && GEM !in t.field.items
      && !ViewsLive(ConfigOf(aoi), t)
  {
    hide *;
    SoundConfig(aoi);
    ArrivalsAreCalm(aoi, delta);
    RunnerRuns(aoi, delta);
    LagIs(aoi, delta, Run(ConfigOf(aoi), Lagging(aoi, delta)));
    EndsSeeingTheGone(aoi, delta);
  }
}

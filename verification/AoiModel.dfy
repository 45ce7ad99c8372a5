// The area-of-interest index as a value: its configuration, its state, what
// each operation does to that state, and the invariant of that state.
module AoiModel {
  import opened Common
  import opened Geometry
  import opened SetMaps

  const METERS_PER_DEGREE_LATITUDE := 111320.0

  datatype Cell = Cell(x: int, y: int)

  // metersPerDegreeLng is the scale at the origin's latitude, a constant of
  // the configuration.
  datatype AoiConfig = AoiConfig(
    originLat: real,
    originLng: real,
    metersPerDegreeLng: real,
    cellSize: real,
    enterRadius: real,
    leaveRadius: real,
    rescanDistance: real)
  {
    predicate Sound() {
      && 0.0 < metersPerDegreeLng
      && 0.0 < rescanDistance
      && 3.0 * rescanDistance < enterRadius
      && enterRadius <= cellSize
      && enterRadius + rescanDistance <= leaveRadius
    }

    function ToLocal(lat: real, lng: real): Point {
      Point((lng - originLng) * metersPerDegreeLng, (lat - originLat) * METERS_PER_DEGREE_LATITUDE)
    }

    function CellOf(p: Point): Cell
      requires 0.0 < cellSize
    {
      Cell((p.x / cellSize).Floor, (p.y / cellSize).Floor)
    }
  }

  // The configuration the server runs with, at an origin of its choice.
  function DefaultConfig(originLat: real, originLng: real, metersPerDegreeLng: real): AoiConfig {
    AoiConfig(originLat, originLng, metersPerDegreeLng, 600.0, 500.0, 600.0, 50.0)
  }

  type Config = c: AoiConfig | c.Sound() witness DefaultConfig(0.0, 0.0, 111320.0)

  datatype Player = Player(
    lat: real,
    lng: real,
    local: Point,
    cell: Cell,
    scanPoint: Point,
    scanCell: Cell,
    hasScanMarker: bool)

  datatype Index = Index(
    players: map<PlayerId, Player>,
    cells: map<Cell, set<PlayerId>>,
    visible: map<PlayerId, set<PlayerId>>)

  const EMPTY_INDEX := Index(map[], map[], map[])

  function Neighbors(s: Index, p: PlayerId): set<PlayerId> {
    Lookup(s.visible, p)
  }

  ghost predicate Sees(s: Index, a: PlayerId, b: PlayerId) {
    b in Neighbors(s, a)
  }

  // The neighbours p gained, lost and kept between two states.

  ghost function Entered(s: Index, t: Index, p: PlayerId): set<PlayerId> {
    set q | q in Neighbors(t, p) && q !in Neighbors(s, p)
  }

  ghost function Left(s: Index, t: Index, p: PlayerId): set<PlayerId> {
    set q | q in Neighbors(s, p) && q !in Neighbors(t, p)
  }

  ghost function Stable(s: Index, t: Index, p: PlayerId): set<PlayerId> {
    set q | q in Neighbors(s, p) && q in Neighbors(t, p)
  }

  // ------------------------------------------------------------------
  // Operations
  // ------------------------------------------------------------------

  function AddToCell(cells: map<Cell, set<PlayerId>>, p: PlayerId, c: Cell): map<Cell, set<PlayerId>> {
    cells[c := Lookup(cells, c) + {p}]
  }

  function RemoveFromCell(cells: map<Cell, set<PlayerId>>, p: PlayerId, c: Cell): map<Cell, set<PlayerId>> {
    if c in cells then Put(cells, c, cells[c] - {p}) else cells
  }

  // Index or re-index p at a position; visibility and markers are untouched.
  function Placed(cfg: Config, s: Index, p: PlayerId, lat: real, lng: real): Index {
    var local := cfg.ToLocal(lat, lng);
    var cell := cfg.CellOf(local);
    if p in s.players then
      var was := s.players[p];
      var cells := if was.cell == cell then s.cells
                   else AddToCell(RemoveFromCell(s.cells, p, was.cell), p, cell);
      s.(players := s.players[p := was.(lat := lat, lng := lng, local := local, cell := cell)],
         cells := cells)
    else
      s.(players := s.players[p := Player(lat, lng, local, cell, Point(0.0, 0.0), Cell(0, 0), false)],
         cells := AddToCell(s.cells, p, cell))
  }

  // Squared distance between two indexed players' positions.
  ghost function Gap(s: Index, p: PlayerId, q: PlayerId): real
    requires p in s.players && q in s.players
  {
    DistanceSquared(s.players[p].local, s.players[q].local)
  }

  // Squared distance between their scan markers.
  ghost function MarkerGap(s: Index, p: PlayerId, q: PlayerId): real
    requires p in s.players && q in s.players
  {
    DistanceSquared(s.players[p].scanPoint, s.players[q].scanPoint)
  }

  predicate MustScan(cfg: Config, me: Player) {
    || !me.hasScanMarker
    || me.cell != me.scanCell
    || DistanceSquared(me.local, me.scanPoint) >= Square(cfg.rescanDistance)
  }

  function Marked(me: Player): Player {
    me.(scanPoint := me.local, scanCell := me.cell, hasScanMarker := true)
  }

  // Present neighbours that are not beyond the leave radius.
  ghost function Kept(cfg: Config, s: Index, p: PlayerId): set<PlayerId>
    requires p in s.players
  {
    set q | q in Neighbors(s, p) && q in s.players && Gap(s, p, q) <= Square(cfg.leaveRadius)
  }

  // Everybody within the enter radius, found by looking at every player.
  ghost function Nearby(cfg: Config, s: Index, p: PlayerId): set<PlayerId>
    requires p in s.players
  {
    set q | q in s.players && q != p && Gap(s, p, q) <= Square(cfg.enterRadius)
  }

  // A leave check with a full enter scan.
  ghost function Scanned(cfg: Config, s: Index, p: PlayerId): Index
    requires p in s.players
  {
    s.(players := s.players[p := Marked(s.players[p])],
       visible := Rewire(s.visible, p, Kept(cfg, s, p) + Nearby(cfg, s, p)))
  }

  // A leave check alone.
  ghost function Skipped(cfg: Config, s: Index, p: PlayerId): Index
    requires p in s.players
  {
    s.(visible := Rewire(s.visible, p, Kept(cfg, s, p)))
  }

  ghost function Inserted(cfg: Config, s: Index, p: PlayerId, lat: real, lng: real): Index {
    if p in s.players then s else Scanned(cfg, Placed(cfg, s, p, lat, lng), p)
  }

  ghost function Moved(cfg: Config, s: Index, p: PlayerId, lat: real, lng: real): Index {
    if p !in s.players then s
    else
      var t := Placed(cfg, s, p, lat, lng);
      if MustScan(cfg, t.players[p]) then Scanned(cfg, t, p) else Skipped(cfg, t, p)
  }

  ghost function Recalculated(cfg: Config, s: Index, p: PlayerId): Index {
    if p in s.players then Scanned(cfg, s, p) else s
  }

  ghost function Removed(s: Index, p: PlayerId): Index {
    if p in s.players then
      Index(s.players - {p}, RemoveFromCell(s.cells, p, s.players[p].cell), Rewire(s.visible, p, {}))
    else s
  }

  // ------------------------------------------------------------------
  // The invariant
  // ------------------------------------------------------------------

  // Each player is in exactly one bucket, the one its position falls in.
  ghost predicate GridOk(cfg: Config, s: Index) {
    && Compact(s.cells)
    && (forall c, p :: p in Lookup(s.cells, c) <==> p in s.players && s.players[p].cell == c)
    && (forall p | p in s.players :: PlacedWell(cfg, s.players[p]))
  }

  ghost predicate PlacedWell(cfg: Config, me: Player) {
    && me.local == cfg.ToLocal(me.lat, me.lng)
    && me.cell == cfg.CellOf(me.local)
  }

  // Visibility is a symmetric, irreflexive relation over indexed players.
  ghost predicate VisibleOk(s: Index) {
    && Compact(s.visible)
    && Symmetric(s.visible)
    && (forall a, b | Sees(s, a, b) :: a != b && a in s.players)
  }

  ghost predicate MarkerOk(cfg: Config, me: Player) {
    && me.hasScanMarker
    && me.scanCell == me.cell == cfg.CellOf(me.scanPoint)
    && DistanceSquared(me.local, me.scanPoint) < Square(cfg.rescanDistance)
  }

  // Visible pairs are no further apart than the leave radius.
  ghost predicate PairWithin(cfg: Config, s: Index, a: PlayerId, b: PlayerId)
    requires a in s.players && b in s.players
  {
    Gap(s, a, b) <= Square(cfg.leaveRadius)
  }

  // Scan markers of other pairs are further apart than the enter radius less
  // one rescan distance.
  ghost predicate PairSpread(cfg: Config, s: Index, a: PlayerId, b: PlayerId)
    requires a in s.players && b in s.players
  {
    MarkerGap(s, a, b) > Square(cfg.enterRadius - cfg.rescanDistance)
  }

  ghost predicate PairOk(cfg: Config, s: Index, a: PlayerId, b: PlayerId)
    requires a in s.players && b in s.players
  {
    if Sees(s, a, b) then PairWithin(cfg, s, a, b) else PairSpread(cfg, s, a, b)
  }

  // Everything but the markers and distances of p.
  ghost predicate InvariantExcept(cfg: Config, s: Index, p: PlayerId) {
    && GridOk(cfg, s)
    && VisibleOk(s)
    && (forall a | a in s.players && a != p :: MarkerOk(cfg, s.players[a]))
    && (forall a, b | a in s.players && b in s.players && a != b && a != p && b != p :: PairOk(cfg, s, a, b))
  }

  ghost predicate Invariant(cfg: Config, s: Index) {
    && GridOk(cfg, s)
    && VisibleOk(s)
    && (forall a | a in s.players :: MarkerOk(cfg, s.players[a]))
    && (forall a, b | a in s.players && b in s.players && a != b :: PairOk(cfg, s, a, b))
  }

  // ------------------------------------------------------------------
  // Runs
  // ------------------------------------------------------------------

  datatype Op =
    | OpInsert(p: PlayerId, lat: real, lng: real)
    | OpMove(p: PlayerId, lat: real, lng: real)
    | OpRecalculate(p: PlayerId)
    | OpRemove(p: PlayerId)

  ghost function Apply(cfg: Config, s: Index, op: Op): Index {
    match op
    case OpInsert(p, lat, lng) => Inserted(cfg, s, p, lat, lng)
    case OpMove(p, lat, lng) => Moved(cfg, s, p, lat, lng)
    case OpRecalculate(p) => Recalculated(cfg, s, p)
    case OpRemove(p) => Removed(s, p)
  }

  // The index after any sequence of operations on an empty one.
  ghost function Run(cfg: Config, ops: seq<Op>): Index {
    if ops == [] then EMPTY_INDEX
    else Apply(cfg, Run(cfg, ops[..|ops| - 1]), ops[|ops| - 1])
  }
}

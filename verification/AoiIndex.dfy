// The area-of-interest index as the object the server updates in place.
module AoiIndex {
  import opened Common
  import opened Geometry
  import opened SetMaps
  import opened Sequences
  import opened AoiModel
  import opened AoiInvariant
  import opened AoiCount
  import opened Grid

  datatype RelationshipChanges = RelationshipChanges(entered: seq<PlayerId>, left: seq<PlayerId>)

  datatype MovementDelta = MovementDelta(
    playerId: PlayerId,
    entered: seq<PlayerId>,
    left: seq<PlayerId>,
    stable: seq<PlayerId>)

  datatype Stats = Stats(
    candidatePairs: int,
    distanceChecks: int,
    relationshipsEntered: int,
    relationshipsLeft: int,
    fullEnterScans: int,
    skippedEnterScans: int,
    leaveChecks: int,
    stableRelationships: int)

  const NO_STATS := Stats(0, 0, 0, 0, 0, 0, 0, 0)

  // Those of the given players, other than p, within the enter radius of p.
  ghost function Hits(cfg: Config, s: Index, p: PlayerId, among: set<PlayerId>): set<PlayerId>
    requires p in s.players
  {
    set q | q in among && q in Nearby(cfg, s, p)
  }

  // The cell of each indexed player.
  ghost function Homes(s: Index): map<PlayerId, Cell> {
    map q | q in s.players :: s.players[q].cell
  }

  // The players of the nine cells around a cell.
  ghost function NineCells(s: Index, center: Cell): set<PlayerId> {
    Around(Homes(s), center)
  }

  lemma HomesAreOfPlayers(s: Index)
    ensures Homes(s).Keys == s.players.Keys
  {
  }

  lemma GridHouses(cfg: Config, s: Index)
    requires GridOk(cfg, s)
    ensures Houses(s.cells, Homes(s))
  {
  }

  lemma NineCellsSuffice(cfg: Config, s: Index, p: PlayerId)
    requires GridOk(cfg, s) && p in s.players
    ensures Nearby(cfg, s, p) <= NineCells(s, s.players[p].cell)
  {
    SquareMonotone(cfg.enterRadius, cfg.cellSize);
    forall q | q in Nearby(cfg, s, p)
      ensures q in NineCells(s, s.players[p].cell)
    {
      NearbyIsAdjacent(cfg, s.players[p].local, s.players[q].local);
    }
  }

  // The relationships of an enter scan of p once the given players have been
  // looked at.
  ghost predicate ScanProgress(cfg: Config, before: Index, p: PlayerId, visited: set<PlayerId>,
                               visible: map<PlayerId, set<PlayerId>>, entered: seq<PlayerId>)
    requires p in before.players
  {
    && visible == Rewire(before.visible, p, Neighbors(before, p) + Hits(cfg, before, p, visited))
    && Lists(entered, Hits(cfg, before, p, visited) - Neighbors(before, p))
  }

  lemma ScanStarts(cfg: Config, before: Index, p: PlayerId)
    requires VisibleOk(before) && p in before.players
    ensures ScanProgress(cfg, before, p, {}, before.visible, []) && Candidates(Neighbors(before, p), p, {}) == {}
  {
    RewireUnchanged(before.visible, p);
    assert Neighbors(before, p) + Hits(cfg, before, p, {}) == Neighbors(before, p);
  }

  // During the scan a player not yet looked at is visible only if it was so
  // before.
  lemma ScanVisible(cfg: Config, before: Index, p: PlayerId, visited: set<PlayerId>,
                    visible: map<PlayerId, set<PlayerId>>, entered: seq<PlayerId>, q: PlayerId)
    requires VisibleOk(before) && p in before.players && q !in visited
    requires ScanProgress(cfg, before, p, visited, visible, entered)
    ensures Compact(visible) && Symmetric(visible)
    ensures q in Lookup(visible, p) <==> q in Neighbors(before, p)
  {
    var members := Neighbors(before, p) + Hits(cfg, before, p, visited);
    LookupRewire(before.visible, p, members);
    RewireKeepsSymmetry(before.visible, p, members);
  }

  // A player that is no candidate, or is out of reach, changes nothing.
  lemma ScanPasses(cfg: Config, before: Index, p: PlayerId, visited: set<PlayerId>,
                   visible: map<PlayerId, set<PlayerId>>, entered: seq<PlayerId>, q: PlayerId)
    requires p in before.players && (q in Neighbors(before, p) || q !in Nearby(cfg, before, p))
    requires ScanProgress(cfg, before, p, visited, visible, entered)
    ensures ScanProgress(cfg, before, p, visited + {q}, visible, entered)
  {
    var hits, more := Hits(cfg, before, p, visited), Hits(cfg, before, p, visited + {q});
    assert Neighbors(before, p) + more == Neighbors(before, p) + hits;
    assert more - Neighbors(before, p) == hits - Neighbors(before, p);
  }

  // A candidate within reach becomes a relationship.
  lemma ScanHits(cfg: Config, before: Index, p: PlayerId, visited: set<PlayerId>,
                 visible: map<PlayerId, set<PlayerId>>, entered: seq<PlayerId>, q: PlayerId)
    requires p in before.players && q !in Neighbors(before, p) && q !in visited
    requires q in Nearby(cfg, before, p)
    requires ScanProgress(cfg, before, p, visited, visible, entered)
    ensures ScanProgress(cfg, before, p, visited + {q}, Rewire(visible, p, Lookup(visible, p) + {q}), entered + [q])
  {
    var hits, more := Hits(cfg, before, p, visited), Hits(cfg, before, p, visited + {q});
    assert more == hits + {q};
    ListsAppend(entered, hits - Neighbors(before, p), q);
    assert more - Neighbors(before, p) == hits - Neighbors(before, p) + {q};
    var members := Neighbors(before, p) + hits;
    LookupRewire(before.visible, p, members);
    RewireTwice(before.visible, p, members, members + {q});
    assert members + {q} == Neighbors(before, p) + more;
  }

  // One step of the scan, whatever it finds.
  lemma ScanStep(cfg: Config, before: Index, p: PlayerId, visited: set<PlayerId>,
                 visible: map<PlayerId, set<PlayerId>>, entered: seq<PlayerId>, q: PlayerId)
    requires VisibleOk(before) && p in before.players && q in before.players && q !in visited
    requires ScanProgress(cfg, before, p, visited, visible, entered)
    ensures Compact(visible) && Symmetric(visible)
    ensures q in Lookup(visible, p) <==> q in Neighbors(before, p)
    ensures q == p || q in Neighbors(before, p) ==>
      && ScanProgress(cfg, before, p, visited + {q}, visible, entered)
      && |Candidates(Neighbors(before, p), p, visited + {q})| == |Candidates(Neighbors(before, p), p, visited)|
    ensures q != p && q !in Neighbors(before, p) ==>
      |Candidates(Neighbors(before, p), p, visited + {q})| == |Candidates(Neighbors(before, p), p, visited)| + 1
    ensures q != p && q !in Neighbors(before, p) && Gap(before, p, q) > Square(cfg.enterRadius) ==>
      ScanProgress(cfg, before, p, visited + {q}, visible, entered)
    ensures q != p && q !in Neighbors(before, p) && Gap(before, p, q) <= Square(cfg.enterRadius) ==>
      ScanProgress(cfg, before, p, visited + {q}, Rewire(visible, p, Lookup(visible, p) + {q}), entered + [q])
  {
    hide ScanProgress, VisibleOk, DistanceSquared, Square;
    ScanVisible(cfg, before, p, visited, visible, entered, q);
    CandidatesOneMore(Neighbors(before, p), p, visited, q);
    if q in Neighbors(before, p) || q !in Nearby(cfg, before, p) {
      ScanPasses(cfg, before, p, visited, visible, entered, q);
    } else {
      ScanHits(cfg, before, p, visited, visible, entered, q);
    }
  }

  // Where a scan of p stands: the index differs from the one before only in its
  // relationships and counters, by what looking at these players has found.
  ghost predicate ScanState(cfg: Config, before: Index, p: PlayerId, visited: set<PlayerId>,
                            now: Index, entered: seq<PlayerId>, stats0: Stats, stats: Stats) {
    && p in before.players
    && now == before.(visible := now.visible)
    && ScanProgress(cfg, before, p, visited, now.visible, entered)
    && stats == ScanStats(stats0, |Candidates(Neighbors(before, p), p, visited)|, |entered|)
  }

  // What looking at q alone does to the index, the list and the counters.
  ghost predicate LookedAt(cfg: Config, s: Index, p: PlayerId, q: PlayerId, t: Index,
                           sofar: seq<PlayerId>, entered: seq<PlayerId>, stats0: Stats, stats: Stats)
    requires p in s.players && q in s.players
  {
    if q == p || q in Neighbors(s, p) then
      t == s && stats == stats0 && entered == sofar
    else if Gap(s, p, q) <= Square(cfg.enterRadius) then
      && t == s.(visible := Rewire(s.visible, p, Neighbors(s, p) + {q}))
      && stats == ScanStats(stats0, 1, 1)
      && entered == sofar + [q]
    else
      t == s && stats == ScanStats(stats0, 1, 0) && entered == sofar
  }

  lemma ScanCanLook(cfg: Config, before: Index, p: PlayerId, visited: set<PlayerId>,
                    now: Index, entered: seq<PlayerId>, stats0: Stats, stats: Stats, q: PlayerId)
    requires VisibleOk(before) && q in before.players && q !in visited
    requires ScanState(cfg, before, p, visited, now, entered, stats0, stats)
    ensures now.players == before.players && now.cells == before.cells
    ensures p in before.players && Compact(now.visible) && Symmetric(now.visible)
  {
    ScanVisible(cfg, before, p, visited, now.visible, entered, q);
  }

  lemma ScanAdvances(cfg: Config, before: Index, p: PlayerId, visited: set<PlayerId>,
                     now: Index, entered: seq<PlayerId>, stats0: Stats, stats: Stats, q: PlayerId,
                     next: Index, more: seq<PlayerId>, after: Stats)
    requires VisibleOk(before) && q in before.players && q !in visited
    requires ScanState(cfg, before, p, visited, now, entered, stats0, stats)
    requires p in now.players && q in now.players
    requires LookedAt(cfg, now, p, q, next, entered, more, stats, after)
    ensures ScanState(cfg, before, p, visited + {q}, next, more, stats0, after)
  {
    hide ScanProgress, Candidates, VisibleOk, DistanceSquared, Square, Rewire, Compact, Symmetric;
    ScanStep(cfg, before, p, visited, now.visible, entered, q);
  }

  // Having looked at the nine cells is as good as having looked at everybody.
  lemma ScanEnds(cfg: Config, before: Index, p: PlayerId,
                 visible: map<PlayerId, set<PlayerId>>, entered: seq<PlayerId>)
    requires GridOk(cfg, before) && p in before.players
    requires ScanProgress(cfg, before, p, NineCells(before, before.players[p].cell), visible, entered)
    ensures visible == Rewire(before.visible, p, Neighbors(before, p) + Nearby(cfg, before, p))
    ensures Lists(entered, Nearby(cfg, before, p) - Neighbors(before, p))
  {
    NineCellsSuffice(cfg, before, p);
    assert Hits(cfg, before, p, NineCells(before, before.players[p].cell)) == Nearby(cfg, before, p);
  }

  // Counters after looking at so many candidates and finding so many new ones.
  function ScanStats(stats: Stats, candidates: int, found: int): Stats {
    stats.(candidatePairs := stats.candidatePairs + candidates,
           distanceChecks := stats.distanceChecks + candidates,
           relationshipsEntered := stats.relationshipsEntered + found)
  }

  // Counters after so many leave checks and so many departures.
  function LeaveStats(stats: Stats, checks: int, gone: int): Stats {
    stats.(distanceChecks := stats.distanceChecks + checks,
           leaveChecks := stats.leaveChecks + checks,
           relationshipsLeft := stats.relationshipsLeft + gone)
  }

  // Those of the players looked at that cost a distance check.
  ghost function Candidates(known: set<PlayerId>, p: PlayerId, visited: set<PlayerId>): set<PlayerId> {
    set q | q in visited && q != p && q !in known
  }

  lemma CandidatesOneMore(known: set<PlayerId>, p: PlayerId, visited: set<PlayerId>, q: PlayerId)
    requires q !in visited
    ensures |Candidates(known, p, visited + {q})|
         == |Candidates(known, p, visited)| + if q == p || q in known then 0 else 1
  {
    if q == p || q in known {
      assert Candidates(known, p, visited + {q}) == Candidates(known, p, visited);
    } else {
      assert Candidates(known, p, visited + {q}) == Candidates(known, p, visited) + {q};
    }
  }

  lemma SameGrid(cfg: Config, s: Index, t: Index)
    requires GridOk(cfg, s) && t.players == s.players && t.cells == s.cells
    ensures GridOk(cfg, t)
  {
  }

  // A leave check and then an enter scan.
  lemma LeaveThenScan(cfg: Config, s: Index, t: Index, p: PlayerId)
    requires GridOk(cfg, s) && VisibleOk(s) && p in s.players
    requires t == Skipped(cfg, s, p)
    ensures GridOk(cfg, t) && VisibleOk(t)
    ensures Neighbors(t, p) == Kept(cfg, s, p) && Nearby(cfg, t, p) == Nearby(cfg, s, p)
    ensures Rewire(t.visible, p, Neighbors(t, p) + Nearby(cfg, t, p)) == Scanned(cfg, s, p).visible
  {
    hide GridOk;
    SameGrid(cfg, s, t);
    assert !Sees(s, p, p);
    RewiredVisibleOk(s, t, p, Kept(cfg, s, p));
    LookupRewire(s.visible, p, Kept(cfg, s, p));
    RewireTwice(s.visible, p, Kept(cfg, s, p), Kept(cfg, s, p) + Nearby(cfg, s, p));
  }

  // An enter scan and then a leave check.
  lemma ScanThenLeave(cfg: Config, s: Index, t: Index, p: PlayerId)
    requires GridOk(cfg, s) && VisibleOk(s) && p in s.players
    requires t == s.(players := s.players[p := Marked(s.players[p])],
                     visible := Rewire(s.visible, p, Neighbors(s, p) + Nearby(cfg, s, p)))
    ensures VisibleOk(t) && Neighbors(t, p) == Neighbors(s, p) + Nearby(cfg, s, p)
    ensures Kept(cfg, t, p) == Kept(cfg, s, p) + Nearby(cfg, s, p)
    ensures Rewire(t.visible, p, Kept(cfg, t, p)) == Scanned(cfg, s, p).visible
  {
    var found := Neighbors(s, p) + Nearby(cfg, s, p);
    assert !Sees(s, p, p);
    NeighborsAreIndexed(s, p);
    RewiredVisibleOk(s, t, p, found);
    LookupRewire(s.visible, p, found);
    KeptFromNearby(cfg, s, p);
    KeptWhenMarked(cfg, s, t, p);
    RewireTwice(s.visible, p, found, Kept(cfg, t, p));
  }

  // A leave check, and an enter scan when one is due.
  ghost function Rechecked(cfg: Config, s: Index, p: PlayerId): Index
    requires p in s.players
  {
    if MustScan(cfg, s.players[p]) then Scanned(cfg, s, p) else Skipped(cfg, s, p)
  }

  ghost function Found(cfg: Config, s: Index, p: PlayerId): set<PlayerId>
    requires p in s.players
  {
    if MustScan(cfg, s.players[p]) then Nearby(cfg, s, p) - Kept(cfg, s, p) else {}
  }

  // The counters after these checks.
  ghost function RecheckStats(cfg: Config, stats: Stats, s: Index, p: PlayerId, found: int, gone: int): Stats
    requires p in s.players
  {
    var checked := LeaveStats(stats, |Neighbors(s, p)|, gone);
    if MustScan(cfg, s.players[p]) then
      ScanStats(checked, |Candidates(Kept(cfg, s, p), p, NineCells(s, s.players[p].cell))|, found)
        .(fullEnterScans := checked.fullEnterScans + 1)
    else
      checked.(skippedEnterScans := checked.skippedEnterScans + 1)
  }

  // The counters after a move, each of its own: every former neighbour costs a
  // leave check, and every other player in the nine cells around the new
  // position an enter check if the move scans.
  lemma MoveIsCounted(cfg: Config, stats: Stats, s: Index, p: PlayerId, lat: real, lng: real, found: int, gone: int)
    requires Invariant(cfg, s) && p in s.players
    ensures var placed := Placed(cfg, s, p, lat, lng);
      var marker, spot := s.players[p].scanPoint, cfg.ToLocal(lat, lng);
      var due := cfg.CellOf(spot) != cfg.CellOf(marker) || DistanceSquared(spot, marker) >= Square(cfg.rescanDistance);
      var known := set q | q in Neighbors(s, p) && q in s.players
                           && DistanceSquared(spot, s.players[q].local) <= Square(cfg.leaveRadius);
      var around := set q | q in s.players && q != p && q !in known
                            && Adjacent(cfg.CellOf(spot), s.players[q].cell);
      && p in placed.players
      && RecheckStats(cfg, stats, placed, p, found, gone)
         == Stats(stats.candidatePairs + if due then |around| else 0,
                  stats.distanceChecks + |Neighbors(s, p)| + if due then |around| else 0,
                  stats.relationshipsEntered + if due then found else 0,
                  stats.relationshipsLeft + gone,
                  stats.fullEnterScans + if due then 1 else 0,
                  stats.skippedEnterScans + if due then 0 else 1,
                  stats.leaveChecks + |Neighbors(s, p)|,
                  stats.stableRelationships)
  {
    hide DistanceSquared, Square, AoiConfig.CellOf;
    var placed := Placed(cfg, s, p, lat, lng);
    var spot := cfg.ToLocal(lat, lng);
    PlacedKeepsRest(cfg, s, p, lat, lng);
    NeighborsAreIndexed(s, p);
    assert !Sees(s, p, p);
    var known := set q | q in Neighbors(s, p) && q in s.players
                         && DistanceSquared(spot, s.players[q].local) <= Square(cfg.leaveRadius);
    assert Kept(cfg, placed, p) == known;
    var around := set q | q in s.players && q != p && q !in known
                          && Adjacent(cfg.CellOf(spot), s.players[q].cell);
    assert Candidates(Kept(cfg, placed, p), p, NineCells(placed, placed.players[p].cell)) == around;
  }

  // The counters of an enter scan followed by a leave check.
  function RecalculateStats(stats: Stats, candidates: int, found: int, checks: int, gone: int): (counted: Stats)
    ensures counted.candidatePairs == stats.candidatePairs + candidates
    ensures counted.distanceChecks == stats.distanceChecks + candidates + checks
    ensures counted.relationshipsEntered == stats.relationshipsEntered + found
    ensures counted.relationshipsLeft == stats.relationshipsLeft + gone
    ensures counted.fullEnterScans == stats.fullEnterScans + 1
    ensures counted.skippedEnterScans == stats.skippedEnterScans
    ensures counted.leaveChecks == stats.leaveChecks + checks
    ensures counted.stableRelationships == stats.stableRelationships
  {
    LeaveStats(ScanStats(stats, candidates, found).(fullEnterScans := stats.fullEnterScans + 1), checks, gone)
  }

  // What a move is made of: a new position and these checks.
  lemma MoveParts(cfg: Config, s: Index, p: PlayerId, lat: real, lng: real)
    requires Invariant(cfg, s) && p in s.players
    ensures var t := Placed(cfg, s, p, lat, lng);
      && p in t.players && GridOk(cfg, t) && VisibleOk(t) && Neighbors(t, p) == Neighbors(s, p)
    ensures var t := Placed(cfg, s, p, lat, lng);
      var u := Rechecked(cfg, t, p);
      && u == Moved(cfg, s, p, lat, lng)
      && Entered(s, u, p) == Found(cfg, t, p)
      && Left(s, u, p) == Neighbors(s, p) - Kept(cfg, t, p)
      && Stable(s, u, p) == Neighbors(s, p) - Left(s, u, p)
      && Invariant(cfg, u)
  {
    var t := Placed(cfg, s, p, lat, lng);
    PlacedKeepsRest(cfg, s, p, lat, lng);
    LookupRewire(t.visible, p, Kept(cfg, t, p) + Nearby(cfg, t, p));
    LookupRewire(t.visible, p, Kept(cfg, t, p));
    KeptFromNearby(cfg, t, p);
    MovedKeeps(cfg, s, p, lat, lng);
  }

  lemma RecalculateParts(cfg: Config, s: Index, p: PlayerId)
    requires InvariantExcept(cfg, s, p) && p in s.players
    ensures GridOk(cfg, s) && VisibleOk(s)
    ensures var u := Scanned(cfg, s, p);
      && Neighbors(u, p) == Kept(cfg, s, p) + Nearby(cfg, s, p)
      && Entered(s, u, p) == Nearby(cfg, s, p) - Neighbors(s, p)
      && Left(s, u, p) == Neighbors(s, p) + Nearby(cfg, s, p) - (Kept(cfg, s, p) + Nearby(cfg, s, p))
  {
    ScannedNeighbors(cfg, s, p);
    KeptFromNearby(cfg, s, p);
  }

  // What a player new to the index is scanned against.
  lemma FreshScan(cfg: Config, s: Index, p: PlayerId, lat: real, lng: real)
    requires Invariant(cfg, s) && p !in s.players
    ensures var t := Placed(cfg, s, p, lat, lng);
      && p in t.players && Neighbors(t, p) == {}
      && Candidates(Neighbors(t, p), p, NineCells(t, t.players[p].cell))
         == (set q | q in s.players && Adjacent(cfg.CellOf(cfg.ToLocal(lat, lng)), s.players[q].cell))
      && Neighbors(t, p) + Nearby(cfg, t, p) == Entered(t, Scanned(cfg, t, p), p)
  {
    hide DistanceSquared, Square;
    var t := Placed(cfg, s, p, lat, lng);
    UnindexedSeesNobody(s, p);
    PlacedKeepsRest(cfg, s, p, lat, lng);
    ScannedNeighbors(cfg, t, p);
    assert Kept(cfg, t, p) == {};
  }

  // A recalculation loses nobody, and looks at everybody around.
  lemma RecalculatedOnlyGains(cfg: Config, s: Index, p: PlayerId)
    requires Invariant(cfg, s) && p in s.players
    ensures var t := Scanned(cfg, s, p);
      && t == Recalculated(cfg, s, p) && Invariant(cfg, t) && InvariantExcept(cfg, s, p)
      && Neighbors(s, p) <= Neighbors(t, p) && Left(s, t, p) == {}
      && Neighbors(t, p) == Neighbors(s, p) + Nearby(cfg, s, p)
      && Candidates(Neighbors(s, p), p, NineCells(s, s.players[p].cell))
         == (set q | q in s.players && q != p && q !in Neighbors(s, p)
                     && Adjacent(s.players[p].cell, s.players[q].cell))
  {
    hide DistanceSquared, Square;
    RecalculatedKeeps(cfg, s, p);
    forall q | q in Neighbors(s, p)
      ensures q in Neighbors(Scanned(cfg, s, p), p)
    {
      assert Sees(s, p, q);
      RecalculatedLosesNothing(cfg, s, p, q);
      assert Sees(Scanned(cfg, s, p), p, q);
    }
    ScannedNeighbors(cfg, s, p);
  }

  lemma ScannedState(cfg: Config, s: Index, t: Index, p: PlayerId)
    requires p in s.players && t.cells == s.cells
    requires t.players == s.players[p := Marked(s.players[p])]
    requires t.visible == Scanned(cfg, s, p).visible
    ensures t == Scanned(cfg, s, p)
  {
  }

  lemma NobodyMoved(cfg: Config, s: Index, p: PlayerId, lat: real, lng: real)
    requires Invariant(cfg, s) && p !in s.players
    ensures Moved(cfg, s, p, lat, lng) == s
    ensures Lists([], Entered(s, s, p)) && Lists([], Left(s, s, p)) && Lists([], Stable(s, s, p))
  {
    UnindexedSeesNobody(s, p);
  }

  lemma NineCellsAfterLeave(cfg: Config, s: Index, p: PlayerId)
    requires p in s.players
    ensures NineCells(Skipped(cfg, s, p), s.players[p].cell) == NineCells(s, s.players[p].cell)
  {
  }

  lemma NeighborsAreIndexed(s: Index, p: PlayerId)
    requires VisibleOk(s)
    ensures Neighbors(s, p) <= s.players.Keys
  {
    forall q | q in Neighbors(s, p)
      ensures q in s.players
    {
      assert Sees(s, p, q);
      assert Sees(s, q, p);
    }
  }

  lemma KeptWhenMarked(cfg: Config, s: Index, t: Index, p: PlayerId)
    requires p in s.players && t.players == s.players[p := Marked(s.players[p])]
    requires Neighbors(t, p) == Neighbors(s, p) + Nearby(cfg, s, p)
    ensures Kept(cfg, t, p) == Kept(cfg, s, p) + Nearby(cfg, s, p)
  {
    KeptFromNearby(cfg, s, p);
    forall q | q in s.players
      ensures Gap(t, p, q) == Gap(s, p, q)
    {
    }
  }

  // p's visible set after a full scan, and its differences from the one before.
  lemma ScannedNeighbors(cfg: Config, s: Index, p: PlayerId)
    requires VisibleOk(s) && p in s.players
    ensures var u := Scanned(cfg, s, p);
      && Neighbors(u, p) == Kept(cfg, s, p) + Nearby(cfg, s, p)
      && Entered(s, u, p) == Nearby(cfg, s, p) - Neighbors(s, p)
      && Left(s, u, p) == Neighbors(s, p) - Kept(cfg, s, p)
  {
    LookupRewire(s.visible, p, Kept(cfg, s, p) + Nearby(cfg, s, p));
    KeptFromNearby(cfg, s, p);
  }

  // The members of a list outside a set, in the list's order.
  method Without(ids: seq<PlayerId>, gone: set<PlayerId>) returns (stable: seq<PlayerId>)
    requires NoDuplicates(ids)
    ensures Lists(stable, ToSet(ids) - gone)
  {
    stable := [];
    for i := 0 to |ids|
      invariant Lists(stable, ToSet(ids[..i]) - gone)
    {
      assert ToSet(ids[..i + 1]) == ToSet(ids[..i]) + {ids[i]};
      if ids[i] !in gone {
        ListsAppend(stable, ToSet(ids[..i]) - gone, ids[i]);
        assert ToSet(ids[..i]) - gone + {ids[i]} == ToSet(ids[..i + 1]) - gone;
        stable := stable + [ids[i]];
      } else {
        assert ToSet(ids[..i]) - gone == ToSet(ids[..i + 1]) - gone;
      }
    }
    assert ids[..|ids|] == ids;
  }

  lemma DetachOne(s: Index, p: PlayerId, left: seq<PlayerId>, i: nat, visible: map<PlayerId, set<PlayerId>>)
    requires VisibleOk(s) && i < |left| && NoDuplicates(left) && ToSet(left) <= Neighbors(s, p)
    requires visible == Rewire(s.visible, p, Neighbors(s, p) - ToSet(left[..i]))
    ensures Compact(visible) && Symmetric(visible) && left[i] != p && left[i] in Lookup(visible, p)
    ensures Rewire(visible, p, Lookup(visible, p) - {left[i]})
         == Rewire(s.visible, p, Neighbors(s, p) - ToSet(left[..i + 1]))
  {
    var members := Neighbors(s, p) - ToSet(left[..i]);
    assert left[i] in ToSet(left);
    assert Sees(s, p, left[i]);
    LookupRewire(s.visible, p, members);
    RewireKeepsSymmetry(s.visible, p, members);
    RewireTwice(s.visible, p, members, members - {left[i]});
    assert ToSet(left[..i + 1]) == ToSet(left[..i]) + {left[i]};
    assert members - {left[i]} == Neighbors(s, p) - ToSet(left[..i + 1]);
  }

  // Those of the given players beyond the leave radius of p.
  ghost function Beyond(cfg: Config, s: Index, p: PlayerId, among: set<PlayerId>): set<PlayerId>
    requires p in s.players
  {
    set q | q in among && q in s.players && Gap(s, p, q) > Square(cfg.leaveRadius)
  }

  lemma LeaveStep(cfg: Config, s: Index, p: PlayerId, checked: set<PlayerId>, left: seq<PlayerId>, q: PlayerId)
    requires VisibleOk(s) && p in s.players && q in Neighbors(s, p) && q !in checked
    requires Lists(left, Beyond(cfg, s, p, checked))
    ensures q in s.players
    ensures Gap(s, p, q) > Square(cfg.leaveRadius) ==> Lists(left + [q], Beyond(cfg, s, p, checked + {q}))
    ensures Gap(s, p, q) <= Square(cfg.leaveRadius) ==> Lists(left, Beyond(cfg, s, p, checked + {q}))
  {
    NeighborsAreIndexed(s, p);
    hide VisibleOk, DistanceSquared, Square;
    var was, more := Beyond(cfg, s, p, checked), Beyond(cfg, s, p, checked + {q});
    if Gap(s, p, q) > Square(cfg.leaveRadius) {
      ListsAppend(left, was, q);
      assert more == was + {q};
    } else {
      assert more == was;
    }
  }

  lemma LeaveEnds(cfg: Config, s: Index, p: PlayerId, checked: set<PlayerId>, left: seq<PlayerId>)
    requires VisibleOk(s) && p in s.players && checked == Neighbors(s, p)
    requires Lists(left, Beyond(cfg, s, p, checked))
    ensures Lists(left, Neighbors(s, p) - Kept(cfg, s, p))
    ensures Neighbors(s, p) - ToSet(left) == Kept(cfg, s, p)
  {
    NeighborsAreIndexed(s, p);
  }

  // Nobody within the enter radius is beyond the leave radius.
  lemma KeptFromNearby(cfg: Config, s: Index, p: PlayerId)
    requires p in s.players
    ensures Neighbors(s, p) * Nearby(cfg, s, p) <= Kept(cfg, s, p)
    ensures forall q | q in Nearby(cfg, s, p) :: Gap(s, p, q) <= Square(cfg.leaveRadius)
  {
    SquareMonotone(cfg.enterRadius, cfg.leaveRadius);
  }

  lemma RemoveOneSide(s: Index, p: PlayerId, left: seq<PlayerId>, i: nat, visible: map<PlayerId, set<PlayerId>>)
    requires VisibleOk(s) && i < |left|
    requires Lists(left, Neighbors(s, p))
    requires visible == Rewire(s.visible, p, ToSet(left[i..]))
    ensures Compact(visible) && Symmetric(visible) && left[i] != p
    ensures Rewire(visible, left[i], Lookup(visible, left[i]) - {p}) == Rewire(s.visible, p, ToSet(left[i + 1..]))
  {
    var q := left[i];
    assert q in ToSet(left);
    assert Sees(s, p, q);
    var members, fewer := ToSet(left[i..]), ToSet(left[i + 1..]);
    assert members == fewer + {q} && q !in fewer by {
      assert left[i..] == [q] + left[i + 1..];
    }
    RewireKeepsSymmetry(s.visible, p, members);
    LookupRewire(s.visible, p, members);
    LookupRewire(s.visible, p, fewer);
    LookupRewire(visible, q, Lookup(visible, q) - {p});
    var l, r := Rewire(visible, q, Lookup(visible, q) - {p}), Rewire(s.visible, p, fewer);
    forall k
      ensures Lookup(l, k) == Lookup(r, k)
    {
      assert Lookup(visible, k) == RewiredSet(s.visible, p, members, k);
      assert k in Lookup(visible, q) <==> q in Lookup(visible, k);
    }
    SameLookups(l, r);
  }

  class AOIIndex {
    const config: Config
    var players: map<PlayerId, Player>
    var cells: map<Cell, set<PlayerId>>
    var visible: map<PlayerId, set<PlayerId>>
    var stats: Stats

    constructor (config: Config)
      ensures this.config == config
      ensures Valid() && State() == EMPTY_INDEX && stats == NO_STATS
    {
      this.config := config;
      players, cells, visible := map[], map[], map[];
      stats := NO_STATS;
    }

    ghost function State(): Index
      reads this
    {
      Index(players, cells, visible)
    }

    ghost predicate Valid()
      reads this
    {
      Invariant(config, State())
    }

    // ----------------------------------------------------------------
    // Queries
    // ----------------------------------------------------------------

    predicate IsVisible(a: PlayerId, b: PlayerId)
      reads this
    {
      b in Lookup(visible, a)
    }

    method VisibleNeighbors(p: PlayerId) returns (ids: seq<PlayerId>)
      ensures Lists(ids, Neighbors(State(), p))
    {
      ids := [];
      var rest := Lookup(visible, p);
      while rest != {}
        invariant rest <= Lookup(visible, p)
        invariant Lists(ids, Lookup(visible, p) - rest)
      {
        var id := AnyOf(rest);
        ListsAppend(ids, Lookup(visible, p) - rest, id);
        assert Lookup(visible, p) - rest + {id} == Lookup(visible, p) - (rest - {id});
        ids := ids + [id];
        rest := rest - {id};
      }
    }

    // Everybody in the nine cells around a point: all players within one cell
    // width of it are among them.
    method QueryPlayerIDsNearPoint(lat: real, lng: real) returns (ids: seq<PlayerId>)
      requires Valid()
      ensures Lists(ids, NineCells(State(), config.CellOf(config.ToLocal(lat, lng))))
      ensures forall q | q in players
                && DistanceSquared(config.ToLocal(lat, lng), players[q].local) <= Square(config.cellSize) :: q in ids
    {
      var local := config.ToLocal(lat, lng);
      GridHouses(config, State());
      ids := NineCellMembers(cells, config.CellOf(local), Homes(State()));
      forall q | q in players && DistanceSquared(local, players[q].local) <= Square(config.cellSize)
        ensures q in ids
      {
        NearbyIsAdjacent(config, local, players[q].local);
        assert q in ToSet(ids);
      }
    }

    // The number of unordered visible pairs, from the sizes of both ends' sets.
    method VisibleRelationshipPairs() returns (pairs: nat)
      requires Valid()
      ensures pairs == |UnorderedPairs(State())|
    {
      var total := 0;
      var rest := visible.Keys;
      while rest != {}
        invariant rest <= visible.Keys
        invariant total == |PairsFrom(visible, visible.Keys - rest)|
      {
        var id := AnyOf(rest);
        PairsFromOneMore(visible, visible.Keys - rest, id);
        assert visible.Keys - rest + {id} == visible.Keys - (rest - {id});
        total := total + |visible[id]|;
        rest := rest - {id};
      }
      assert visible.Keys - {} == visible.Keys;
      Handshake(State());
      return total / 2;
    }

    // ----------------------------------------------------------------
    // Operations
    // ----------------------------------------------------------------

    method TakeStats() returns (taken: Stats)
      modifies this`stats
      ensures taken == old(stats) && stats == NO_STATS
    {
      taken := stats;
      stats := NO_STATS;
    }

    method Insert(p: PlayerId, lat: real, lng: real) returns (changes: RelationshipChanges)
      requires Valid()
      modifies this
      ensures Valid() && State() == Inserted(config, old(State()), p, lat, lng)
      ensures changes.left == []
      ensures Lists(changes.entered, Entered(old(State()), State(), p))
      ensures p in old(players) ==> stats == old(stats)
      ensures p !in old(players) ==>
        var around := set q | q in old(players)
                              && Adjacent(config.CellOf(config.ToLocal(lat, lng)), old(players)[q].cell);
        stats == RecalculateStats(old(stats), |around|, |changes.entered|, |changes.entered|, 0)
    {
      if p in players {
        return RelationshipChanges([], []);
      }
      PlacedKeepsRest(config, State(), p, lat, lng);
      ghost var before := State();
      SetPosition(p, lat, lng);
      ghost var placed := State();
      UnindexedSeesNobody(before, p);
      FreshScan(config, before, p, lat, lng);
      changes := RecalculateKnown(p);
      InsertedKeeps(config, before, p, lat, lng);
      OnlyEmptyListsEmpty(changes.left);
      ListsLength(changes.entered, Entered(placed, State(), p));
    }

    method RecalculateRelationships(p: PlayerId) returns (changes: RelationshipChanges)
      requires Valid()
      modifies this
      ensures Valid() && State() == Recalculated(config, old(State()), p)
      ensures changes.left == []
      ensures Lists(changes.entered, Entered(old(State()), State(), p))
      ensures Neighbors(old(State()), p) <= Neighbors(State(), p)
      ensures p !in old(players) ==> stats == old(stats)
      ensures p in old(players) ==>
        var around := set q | q in old(players) && q != p && q !in Neighbors(old(State()), p)
                              && Adjacent(old(players)[p].cell, old(players)[q].cell);
        stats == RecalculateStats(old(stats), |around|, |changes.entered|, |Neighbors(State(), p)|, 0)
    {
      if p !in players {
        return RelationshipChanges([], []);
      }
      hide Invariant, Kept, Nearby, NineCells, Candidates, Scanned, Entered, Left, Adjacent;
      ghost var before := State();
      RecalculatedOnlyGains(config, before, p);
      changes := RecalculateKnown(p);
      OnlyEmptyListsEmpty(changes.left);
    }

    method Move(p: PlayerId, lat: real, lng: real) returns (changes: RelationshipChanges)
      requires Valid()
      modifies this
      ensures Valid() && State() == Moved(config, old(State()), p, lat, lng)
      ensures Lists(changes.entered, Entered(old(State()), State(), p))
      ensures Lists(changes.left, Left(old(State()), State(), p))
    {
      var delta := MoveDetailed(p, lat, lng);
      return RelationshipChanges(delta.entered, delta.left);
    }

    // Old visible set = left + stable, new visible set = stable + entered,
    // each listed once.
    method MoveDetailed(p: PlayerId, lat: real, lng: real) returns (delta: MovementDelta)
      requires Valid()
      modifies this
      ensures Valid() && State() == Moved(config, old(State()), p, lat, lng)
      ensures delta.playerId == p
      ensures Lists(delta.entered, Entered(old(State()), State(), p))
      ensures Lists(delta.left, Left(old(State()), State(), p))
      ensures Lists(delta.stable, Stable(old(State()), State(), p))
      ensures |UnorderedPairs(State())| == |UnorderedPairs(old(State()))| + |delta.entered| - |delta.left|
      ensures p !in old(players) ==> stats == old(stats)
      ensures p in old(players) ==>
        var placed := Placed(config, old(State()), p, lat, lng);
        && p in placed.players
        && stats == var checked := RecheckStats(config, old(stats), placed, p, |delta.entered|, |delta.left|);
                    checked.(stableRelationships := checked.stableRelationships + |delta.stable|)
    {
      hide Invariant, GridOk, VisibleOk, Kept, Nearby, NineCells, Candidates, Placed, Moved, Rechecked, RecheckStats,
        Found, Rewire, UnorderedPairs, Entered, Left, Stable, DistanceSquared, Square, NoDuplicates;
      ghost var before := State();
      MovedPairs(config, before, p, lat, lng);
      if p !in players {
        NobodyMoved(config, before, p, lat, lng);
        return MovementDelta(p, [], [], []);
      }
      MoveParts(config, before, p, lat, lng);
      var oldNeighborIDs := VisibleNeighbors(p);
      SetPosition(p, lat, lng);
      var entered, left := LeaveAndEnter(p);
      var stable := Without(oldNeighborIDs, ToSet(left));
      stats := stats.(stableRelationships := stats.stableRelationships + |stable|);
      ListsLength(entered, ToSet(entered));
      ListsLength(left, ToSet(left));
      ListsLength(stable, ToSet(stable));
      delta := MovementDelta(p, entered, left, stable);
    }

    // The checks of a move once the player is at its new position.
    method LeaveAndEnter(p: PlayerId) returns (entered: seq<PlayerId>, left: seq<PlayerId>)
      requires p in players && GridOk(config, State()) && VisibleOk(State())
      modifies this
      ensures State() == Rechecked(config, old(State()), p)
      ensures Lists(left, Neighbors(old(State()), p) - Kept(config, old(State()), p))
      ensures Lists(entered, Found(config, old(State()), p))
      ensures stats == RecheckStats(config, old(stats), old(State()), p, |entered|, |left|)
    {
      hide GridOk, VisibleOk, Kept, Nearby, NineCells, Candidates, Rewire, Marked, DistanceSquared, Square;
      ghost var placed := State();
      LeaveThenScan(config, placed, Skipped(config, placed, p), p);
      var self := players[p];
      left := LeaveCheckExistingNeighbors(self, p);
      entered := [];
      if ShouldForceEnterScan(self) {
        NineCellsAfterLeave(config, placed, p);
        entered := EnterScanNineCells(self, p);
        stats := stats.(fullEnterScans := stats.fullEnterScans + 1);
        MarkEnterScan(p);
      } else {
        stats := stats.(skippedEnterScans := stats.skippedEnterScans + 1);
      }
    }

    method Remove(p: PlayerId) returns (changes: RelationshipChanges)
      requires Valid()
      modifies this
      ensures Valid() && State() == Removed(old(State()), p)
      ensures changes.entered == []
      ensures Ascending(changes.left) && Lists(changes.left, Neighbors(old(State()), p))
      ensures |UnorderedPairs(State())| == |UnorderedPairs(old(State()))| - |changes.left|
      ensures stats == old(stats)
    {
      ghost var before := State();
      if p !in players {
        UnindexedSeesNobody(before, p);
        return RelationshipChanges([], []);
      }
      var left := SetKeys(Lookup(visible, p));
      DetachAll(p, left);
      RemoveFromOwnCell(p, players[p].cell);
      players := players - {p};
      LookupRewire(before.visible, p, {});
      assert visible - {p} == visible;
      visible := visible - {p};
      RemovedKeeps(config, before, p);
      ListsLength(left, Neighbors(before, p));
      RemovedPairs(config, before, p);
      changes := RelationshipChanges([], left);
    }

    // ----------------------------------------------------------------
    // Parts of the operations
    // ----------------------------------------------------------------

    method DetachAll(p: PlayerId, left: seq<PlayerId>)
      requires VisibleOk(State()) && Lists(left, Neighbors(State(), p))
      modifies this`visible
      ensures visible == Rewire(old(visible), p, {})
    {
      ghost var before := State();
      RewireUnchanged(visible, p);
      assert left[0..] == left;
      for i := 0 to |left|
        invariant players == before.players && cells == before.cells
        invariant visible == Rewire(before.visible, p, ToSet(left[i..]))
      {
        RemoveOneSide(before, p, left, i, visible);
        var _ := RemoveRelationship(left[i], p);
      }
      assert ToSet(left[|left|..]) == {};
    }

    method SetPosition(p: PlayerId, lat: real, lng: real)
      modifies this`players, this`cells
      ensures State() == Placed(config, old(State()), p, lat, lng)
    {
      var local := config.ToLocal(lat, lng);
      var cell := config.CellOf(local);
      if p in players {
        var existing := players[p];
        if existing.cell != cell {
          RemoveFromOwnCell(p, existing.cell);
          AddToOwnCell(p, cell);
        }
        players := players[p := existing.(lat := lat, lng := lng, local := local, cell := cell)];
        return;
      }
      players := players[p := Player(lat, lng, local, cell, Point(0.0, 0.0), Cell(0, 0), false)];
      AddToOwnCell(p, cell);
    }

    method AddToOwnCell(p: PlayerId, cell: Cell)
      modifies this`cells
      ensures cells == AddToCell(old(cells), p, cell)
    {
      if cell !in cells {
        cells := cells[cell := {}];
      }
      cells := cells[cell := cells[cell] + {p}];
    }

    method RemoveFromOwnCell(p: PlayerId, cell: Cell)
      modifies this`cells
      ensures cells == RemoveFromCell(old(cells), p, cell)
    {
      if cell !in cells {
        return;
      }
      cells := cells[cell := cells[cell] - {p}];
      if cells[cell] == {} {
        cells := cells - {cell};
      }
    }

    predicate ShouldForceEnterScan(self: Player) {
      MustScan(config, self)
    }

    method MarkEnterScan(p: PlayerId)
      requires p in players
      modifies this`players
      ensures players == old(players)[p := Marked(old(players)[p])]
    {
      players := players[p := Marked(players[p])];
    }

    method RecalculateKnown(p: PlayerId) returns (changes: RelationshipChanges)
      requires p in players && InvariantExcept(config, State(), p)
      modifies this
      ensures State() == Scanned(config, old(State()), p)
      ensures Lists(changes.entered, Entered(old(State()), State(), p))
      ensures Lists(changes.left, Left(old(State()), State(), p))
      ensures Neighbors(State(), p) == Kept(config, old(State()), p) + Nearby(config, old(State()), p)
      ensures var s := old(State());
        var candidates := Candidates(Neighbors(s, p), p, NineCells(s, s.players[p].cell));
        stats == RecalculateStats(old(stats), |candidates|, |changes.entered|,
                                  |Neighbors(s, p) + Nearby(config, s, p)|, |changes.left|)
    {
      hide Invariant, InvariantExcept, GridOk, VisibleOk, Kept, Nearby, NineCells, Candidates, Rewire, Scanned,
        DistanceSquared, Square;
      ghost var before := State();
      RecalculateParts(config, before, p);
      var self := players[p];
      var entered := EnterScanNineCells(self, p);
      stats := stats.(fullEnterScans := stats.fullEnterScans + 1);
      MarkEnterScan(p);
      ghost var marked := State();
      ScanThenLeave(config, before, marked, p);
      var left := LeaveCheckExistingNeighbors(players[p], p);
      ScannedState(config, before, State(), p);
      changes := RelationshipChanges(entered, left);
    }

    // The nine-cell scan finds exactly the players a look at everybody finds.
    method EnterScanNineCells(self: Player, p: PlayerId) returns (entered: seq<PlayerId>)
      requires GridOk(config, State()) && VisibleOk(State())
      requires p in players && players[p] == self
      modifies this`visible, this`stats
      ensures visible == Rewire(old(visible), p,
                Neighbors(old(State()), p) + Nearby(config, old(State()), p))
      ensures Lists(entered, Nearby(config, old(State()), p) - Neighbors(old(State()), p))
      ensures var candidates := Candidates(Neighbors(old(State()), p), p, NineCells(old(State()), self.cell));
        stats == ScanStats(old(stats), |candidates|, |entered|)
    {
      ghost var before := State();
      ScanStarts(config, before, p);
      SweptStart(Homes(before), self.cell);
      hide ScanProgress, GridOk, VisibleOk, DistanceSquared, Square, Candidates, Swept, Rewire, Nearby, NineCells;
      entered := [];
      for dx := -1 to 2
        invariant ScanState(config, before, p, Swept(Homes(before), self.cell, dx, -1), State(), entered,
                            old(stats), stats)
      {
        entered := EnterScanColumn(self, p, dx, entered, before, old(stats));
        SweptRow(Homes(before), self.cell, dx);
      }
      SweptAll(Homes(before), self.cell);
      ScanEnds(config, before, p, visible, entered);
    }

    // The middle loop of the scan: three cells above each other.
    method EnterScanColumn(self: Player, p: PlayerId, dx: int, sofar: seq<PlayerId>,
                           ghost before: Index, ghost stats0: Stats)
      returns (entered: seq<PlayerId>)
      requires GridOk(config, before) && VisibleOk(before) && -1 <= dx <= 1
      requires p in before.players && before.players[p] == self
      requires ScanState(config, before, p, Swept(Homes(before), self.cell, dx, -1), State(), sofar, stats0, stats)
      modifies this`visible, this`stats
      ensures ScanState(config, before, p, Swept(Homes(before), self.cell, dx, 2), State(), entered, stats0, stats)
    {
      hide ScanState, GridOk, VisibleOk, Swept;
      entered := sofar;
      for dy := -1 to 2
        invariant ScanState(config, before, p, Swept(Homes(before), self.cell, dx, dy), State(), entered, stats0, stats)
      {
        entered := EnterScanCell(self, p, dx, dy, entered, before, stats0);
      }
    }

    // The innermost loop of the scan: the members of one cell.
    method EnterScanCell(self: Player, p: PlayerId, dx: int, dy: int, sofar: seq<PlayerId>,
                         ghost before: Index, ghost stats0: Stats)
      returns (entered: seq<PlayerId>)
      requires GridOk(config, before) && VisibleOk(before) && -1 <= dx <= 1 && -1 <= dy <= 1
      requires p in before.players && before.players[p] == self
      requires ScanState(config, before, p, Swept(Homes(before), self.cell, dx, dy), State(), sofar, stats0, stats)
      modifies this`visible, this`stats
      ensures ScanState(config, before, p, Swept(Homes(before), self.cell, dx, dy + 1), State(), entered, stats0, stats)
    {
      assert cells == before.cells;
      GridHouses(config, before);
      hide ScanState, GridOk, VisibleOk, Swept, Lookup, Compact, Symmetric, LookedAt, Homes, Houses, Scanned;
      SweptCell(cells, Homes(before), self.cell, dx, dy);
      assert Homes(before).Keys == before.players.Keys by { HomesAreOfPlayers(before); }
      entered := EnterScanMembers(self, p, Lookup(cells, Cell(self.cell.x + dx, self.cell.y + dy)),
                                  Swept(Homes(before), self.cell, dx, dy), sofar, before, stats0);
    }

    method EnterScanMembers(self: Player, p: PlayerId, members: set<PlayerId>, ghost seen: set<PlayerId>,
                            sofar: seq<PlayerId>, ghost before: Index, ghost stats0: Stats)
      returns (entered: seq<PlayerId>)
      requires VisibleOk(before) && members !! seen && members <= before.players.Keys
      requires p in before.players && before.players[p] == self
      requires ScanState(config, before, p, seen, State(), sofar, stats0, stats)
      modifies this`visible, this`stats
      ensures ScanState(config, before, p, seen + members, State(), entered, stats0, stats)
    {
      hide ScanState, VisibleOk, Compact, Symmetric, LookedAt;
      entered := sofar;
      var rest := members;
      ghost var visited := seen;
      while rest != {}
        invariant visited !! rest && visited + rest == seen + members && rest <= before.players.Keys
        invariant ScanState(config, before, p, visited, State(), entered, stats0, stats)
      {
        var candidateID := AnyOf(rest);
        ghost var now, found, counted := State(), entered, stats;
        ScanCanLook(config, before, p, visited, now, found, stats0, counted, candidateID);
        entered := EnterScanCandidate(self, p, candidateID, entered);
        ScanAdvances(config, before, p, visited, now, found, stats0, counted, candidateID, State(), entered, stats);
        visited := visited + {candidateID};
        rest := rest - {candidateID};
      }
      assert visited == seen + members;
    }

    // The body of the scan's loop.
    method EnterScanCandidate(self: Player, p: PlayerId, candidateID: PlayerId, sofar: seq<PlayerId>)
      returns (entered: seq<PlayerId>)
      requires Compact(visible) && Symmetric(visible) && candidateID in players
      requires p in players && players[p] == self
      modifies this`visible, this`stats
      ensures LookedAt(config, old(State()), p, candidateID, State(), sofar, entered, old(stats), stats)
    {
      hide Compact, Symmetric, DistanceSquared, Square, Rewire;
      entered := sofar;
      if candidateID == p || IsVisible(p, candidateID) {
        return;
      }
      stats := stats.(candidatePairs := stats.candidatePairs + 1);
      var candidate := players[candidateID];
      stats := stats.(distanceChecks := stats.distanceChecks + 1);
      if WithinEnterRadius(self, candidate) {
        var added := AddRelationship(p, candidateID);
        if added {
          entered := entered + [candidateID];
          stats := stats.(relationshipsEntered := stats.relationshipsEntered + 1);
        }
      }
    }

    predicate WithinEnterRadius(a: Player, b: Player) {
      DistanceSquared(a.local, b.local) <= Square(config.enterRadius)
    }

    predicate BeyondLeaveRadius(a: Player, b: Player) {
      DistanceSquared(a.local, b.local) > Square(config.leaveRadius)
    }

    method LeaveCheckExistingNeighbors(self: Player, p: PlayerId) returns (left: seq<PlayerId>)
      requires VisibleOk(State()) && p in players && players[p] == self
      modifies this`visible, this`stats
      ensures visible == Rewire(old(visible), p, Kept(config, old(State()), p))
      ensures Lists(left, Neighbors(old(State()), p) - Kept(config, old(State()), p))
      ensures stats == LeaveStats(old(stats), |Neighbors(old(State()), p)|, |left|)
    {
      ghost var before := State();
      hide Kept, VisibleOk, DistanceSquared, Square;
      left := [];
      var rest := Lookup(visible, p);
      ghost var checked: set<PlayerId> := {};
      while rest != {}
        invariant State() == before
        invariant checked !! rest && checked + rest == Neighbors(before, p)
        invariant Lists(left, Beyond(config, before, p, checked))
        invariant stats == LeaveStats(old(stats), |checked|, 0)
      {
        var neighborID := AnyOf(rest);
        LeaveStep(config, before, p, checked, left, neighborID);
        stats := stats.(distanceChecks := stats.distanceChecks + 1);
        stats := stats.(leaveChecks := stats.leaveChecks + 1);
        if BeyondLeaveRadius(self, players[neighborID]) {
          left := left + [neighborID];
        }
        checked := checked + {neighborID};
        rest := rest - {neighborID};
      }
      LeaveEnds(config, before, p, checked, left);
      DetachLeft(p, left);
    }

    method DetachLeft(p: PlayerId, left: seq<PlayerId>)
      requires VisibleOk(State()) && NoDuplicates(left) && ToSet(left) <= Neighbors(State(), p)
      modifies this`visible, this`stats
      ensures visible == Rewire(old(visible), p, Neighbors(old(State()), p) - ToSet(left))
      ensures stats == LeaveStats(old(stats), 0, |left|)
    {
      ghost var before := State();
      RewireUnchanged(visible, p);
      assert Neighbors(before, p) - ToSet(left[..0]) == Neighbors(before, p);
      for i := 0 to |left|
        invariant State() == before.(visible := visible)
        invariant visible == Rewire(before.visible, p, Neighbors(before, p) - ToSet(left[..i]))
        invariant stats == LeaveStats(old(stats), 0, i)
      {
        DetachOne(before, p, left, i, visible);
        var removed := RemoveRelationship(p, left[i]);
        if removed {
          stats := stats.(relationshipsLeft := stats.relationshipsLeft + 1);
        }
      }
      assert left[..|left|] == left;
    }

    method AddRelationship(a: PlayerId, b: PlayerId) returns (added: bool)
      requires Compact(visible) && Symmetric(visible) && a != b
      modifies this`visible
      ensures added <==> b !in Lookup(old(visible), a)
      ensures visible == Rewire(old(visible), a, Lookup(old(visible), a) + {b})
    {
      ghost var before := visible;
      if IsVisible(a, b) {
        assert Lookup(visible, a) + {b} == Lookup(visible, a);
        RewireUnchanged(visible, a);
        return false;
      }
      visible := visible[a := Lookup(visible, a) + {b}];
      visible := visible[b := Lookup(visible, b) + {a}];
      LookupRewire(before, a, Lookup(before, a) + {b});
      forall q
        ensures Lookup(visible, q) == RewiredSet(before, a, Lookup(before, a) + {b}, q)
      {
        assert q in Lookup(before, a) <==> a in Lookup(before, q);
      }
      SameLookups(visible, Rewire(before, a, Lookup(before, a) + {b}));
      return true;
    }

    method RemoveRelationship(a: PlayerId, b: PlayerId) returns (removed: bool)
      requires Compact(visible) && Symmetric(visible) && a != b
      modifies this`visible
      ensures removed <==> b in Lookup(old(visible), a)
      ensures visible == Rewire(old(visible), a, Lookup(old(visible), a) - {b})
    {
      ghost var before := visible;
      if !IsVisible(a, b) {
        assert Lookup(visible, a) - {b} == Lookup(visible, a);
        RewireUnchanged(visible, a);
        return false;
      }
      assert a in Lookup(visible, b);
      visible := visible[a := visible[a] - {b}];
      if visible[a] == {} {
        visible := visible - {a};
      }
      visible := visible[b := visible[b] - {a}];
      if visible[b] == {} {
        visible := visible - {b};
      }
      LookupRewire(before, a, Lookup(before, a) - {b});
      forall q
        ensures Lookup(visible, q) == RewiredSet(before, a, Lookup(before, a) - {b}, q)
      {
        assert q in Lookup(before, a) <==> a in Lookup(before, q);
      }
      SameLookups(visible, Rewire(before, a, Lookup(before, a) - {b}));
      return true;
    }
  }
}

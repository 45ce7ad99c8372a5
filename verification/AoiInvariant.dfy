// What every operation of the area-of-interest index keeps, and what follows
// for every index a run can reach.
module AoiInvariant {
  import opened Common
  import opened Geometry
  import opened SetMaps
  import opened AoiModel

  lemma PlacedKeepsGrid(cfg: Config, s: Index, p: PlayerId, lat: real, lng: real)
    requires GridOk(cfg, s)
    ensures GridOk(cfg, Placed(cfg, s, p, lat, lng))
  {
    var t := Placed(cfg, s, p, lat, lng);
    forall c, q
      ensures q in Lookup(t.cells, c) <==> q in t.players && t.players[q].cell == c
    {
      assert q in Lookup(s.cells, c) <==> q in s.players && s.players[q].cell == c;
    }
  }

  lemma PlacedKeepsRest(cfg: Config, s: Index, p: PlayerId, lat: real, lng: real)
    requires Invariant(cfg, s)
    ensures InvariantExcept(cfg, Placed(cfg, s, p, lat, lng), p)
  {
    PlacedKeepsGrid(cfg, s, p, lat, lng);
    var t := Placed(cfg, s, p, lat, lng);
    forall a, b | a in t.players && b in t.players && a != b && a != p && b != p
      ensures PairOk(cfg, t, a, b)
    {
      assert PairOk(cfg, s, a, b);
      assert Sees(t, a, b) == Sees(s, a, b);
    }
    assert forall a, b | Sees(t, a, b) :: Sees(s, a, b);
  }

  lemma RewiredVisibleOk(s: Index, t: Index, p: PlayerId, members: set<PlayerId>)
    requires VisibleOk(s)
    requires t.visible == Rewire(s.visible, p, members) && t.players.Keys == s.players.Keys
    requires p !in members && p in s.players && members <= s.players.Keys
    ensures VisibleOk(t)
    ensures forall q :: Sees(t, p, q) <==> q in members
    ensures forall q :: Sees(t, q, p) <==> q in members
    ensures forall a, b | a != p && b != p :: Sees(t, a, b) <==> Sees(s, a, b)
  {
    LookupRewire(s.visible, p, members);
    RewireKeepsSymmetry(s.visible, p, members);
    forall q
      ensures Sees(t, q, p) <==> q in members
    {
      assert Lookup(t.visible, q) == RewiredSet(s.visible, p, members, q);
    }
    forall a, b | a != p && b != p
      ensures Sees(t, a, b) <==> Sees(s, a, b)
    {
      assert Lookup(t.visible, a) == RewiredSet(s.visible, p, members, a);
    }
    forall a, b | Sees(t, a, b)
      ensures a != b && a in t.players
    {
      if a != p && b != p {
        assert Sees(s, a, b);
      }
    }
  }

  // A full scan repairs whatever p's move or arrival disturbed.
  lemma ScannedRestores(cfg: Config, s: Index, p: PlayerId)
    requires InvariantExcept(cfg, s, p) && p in s.players
    ensures Invariant(cfg, Scanned(cfg, s, p))
  {
    var t := Scanned(cfg, s, p);
    assert !Sees(s, p, p);
    RewiredVisibleOk(s, t, p, Kept(cfg, s, p) + Nearby(cfg, s, p));
    forall a, b | a in t.players && b in t.players && a != b
      ensures PairOk(cfg, t, a, b)
    {
      if a == p {
        ScannedPair(cfg, s, p, b);
      } else if b == p {
        ScannedPair(cfg, s, p, a);
      } else {
        assert PairOk(cfg, s, a, b);
      }
    }
    MarkedIsOk(cfg, s.players[p]);
  }

  lemma ScannedPair(cfg: Config, s: Index, p: PlayerId, b: PlayerId)
    requires VisibleOk(s)
    requires p in s.players && b in s.players && b != p
    requires MarkerOk(cfg, s.players[b])
    ensures PairOk(cfg, Scanned(cfg, s, p), p, b) && PairOk(cfg, Scanned(cfg, s, p), b, p)
  {
    var t := Scanned(cfg, s, p);
    assert !Sees(s, p, p);
    RewiredVisibleOk(s, t, p, Kept(cfg, s, p) + Nearby(cfg, s, p));
    PairOkIsSymmetric(cfg, t, p, b);
    if Sees(t, p, b) {
      ScannedPairWithin(cfg, s, p, b);
    } else {
      ScannedPairSpread(cfg, s, p, b);
    }
  }

  lemma PairOkIsSymmetric(cfg: Config, s: Index, a: PlayerId, b: PlayerId)
    requires Symmetric(s.visible) && a in s.players && b in s.players
    ensures PairOk(cfg, s, a, b) == PairOk(cfg, s, b, a)
  {
    assert Sees(s, a, b) == Sees(s, b, a);
    DistanceIsSymmetric(s.players[a].local, s.players[b].local);
    DistanceIsSymmetric(s.players[a].scanPoint, s.players[b].scanPoint);
  }

  lemma MarkedIsOk(cfg: Config, me: Player)
    requires PlacedWell(cfg, me)
    ensures MarkerOk(cfg, Marked(me))
  {
    PositiveSquare(cfg.rescanDistance);
    DistanceToSelf(me.local);
  }

  lemma ScannedPairWithin(cfg: Config, s: Index, p: PlayerId, b: PlayerId)
    requires p in s.players && b in s.players
    requires b in Kept(cfg, s, p) + Nearby(cfg, s, p)
    ensures Gap(s, p, b) <= Square(cfg.leaveRadius)
  {
    SquareMonotone(cfg.enterRadius, cfg.leaveRadius);
  }

  // A pair a full scan of p leaves apart has markers more than E - R apart.
  lemma ScannedPairSpread(cfg: Config, s: Index, p: PlayerId, b: PlayerId)
    requires p in s.players && b in s.players && b != p
    requires MarkerOk(cfg, s.players[b])
    requires b !in Nearby(cfg, s, p)
    ensures DistanceSquared(s.players[p].local, s.players[b].scanPoint) > Square(cfg.enterRadius - cfg.rescanDistance)
  {
    var here, there, marker := s.players[p].local, s.players[b].local, s.players[b].scanPoint;
    var r, t := cfg.rescanDistance, cfg.enterRadius - cfg.rescanDistance;
    assert DistanceSquared(here, there) > Square(cfg.enterRadius);
    DistanceIsSymmetric(here, there);
    TriangleBeyond(there, marker, here, r, t);
    DistanceIsSymmetric(marker, here);
  }

  // A skipped scan keeps the invariant: p is still within the rescan distance
  // of its marker, so a neighbour lost beyond the leave radius has its marker
  // far enough away, and every other marker pair is as it was.
  lemma SkippedKeeps(cfg: Config, s: Index, t: Index, p: PlayerId)
    requires Invariant(cfg, s) && InvariantExcept(cfg, t, p)
    requires p in s.players && t.players.Keys == s.players.Keys && t.visible == s.visible
    requires forall q | q in s.players && q != p :: t.players[q] == s.players[q]
    requires t.players[p].scanPoint == s.players[p].scanPoint
    requires MarkerOk(cfg, t.players[p])
    ensures Invariant(cfg, Skipped(cfg, t, p))
  {
    var u := Skipped(cfg, t, p);
    assert !Sees(t, p, p);
    RewiredVisibleOk(t, u, p, Kept(cfg, t, p));
    forall a, b | a in u.players && b in u.players && a != b
      ensures PairOk(cfg, u, a, b)
    {
      if a == p {
        SkippedPair(cfg, s, t, p, b);
      } else if b == p {
        SkippedPair(cfg, s, t, p, a);
      } else {
        assert PairOk(cfg, t, a, b);
      }
    }
  }

  lemma SkippedPair(cfg: Config, s: Index, t: Index, p: PlayerId, b: PlayerId)
    requires VisibleOk(t) && p in t.players && b in t.players && b != p
    requires MarkerOk(cfg, t.players[p]) && MarkerOk(cfg, t.players[b])
    requires p in s.players && b in s.players && PairOk(cfg, s, p, b)
    requires t.visible == s.visible && t.players[b] == s.players[b]
    requires t.players[p].scanPoint == s.players[p].scanPoint
    ensures PairOk(cfg, Skipped(cfg, t, p), p, b) && PairOk(cfg, Skipped(cfg, t, p), b, p)
  {
    var u := Skipped(cfg, t, p);
    assert !Sees(t, p, p);
    RewiredVisibleOk(t, u, p, Kept(cfg, t, p));
    PairOkIsSymmetric(cfg, u, p, b);
    assert Sees(s, p, b) == Sees(t, p, b);
    if Sees(t, p, b) && !Sees(u, p, b) {
      LostPairSpread(cfg, t, p, b);
    }
  }

  lemma LostPairSpread(cfg: Config, s: Index, p: PlayerId, b: PlayerId)
    requires p in s.players && b in s.players
    requires MarkerOk(cfg, s.players[p]) && MarkerOk(cfg, s.players[b])
    requires Gap(s, p, b) > Square(cfg.leaveRadius)
    ensures MarkerGap(s, p, b) > Square(cfg.enterRadius - cfg.rescanDistance)
  {
    var r := cfg.rescanDistance;
    var t := cfg.enterRadius - r;
    SquareMonotone(r + (r + t), cfg.leaveRadius);
    BothEndsMoved(s.players[p].local, s.players[p].scanPoint, s.players[b].local, s.players[b].scanPoint, r, t);
  }

  // ------------------------------------------------------------------
  // Every operation keeps the invariant
  // ------------------------------------------------------------------

  lemma InsertedKeeps(cfg: Config, s: Index, p: PlayerId, lat: real, lng: real)
    requires Invariant(cfg, s)
    ensures Invariant(cfg, Inserted(cfg, s, p, lat, lng))
  {
    if p !in s.players {
      PlacedKeepsRest(cfg, s, p, lat, lng);
      ScannedRestores(cfg, Placed(cfg, s, p, lat, lng), p);
    }
  }

  lemma MovedKeeps(cfg: Config, s: Index, p: PlayerId, lat: real, lng: real)
    requires Invariant(cfg, s)
    ensures Invariant(cfg, Moved(cfg, s, p, lat, lng))
  {
    if p in s.players {
      PlacedKeepsRest(cfg, s, p, lat, lng);
      var t := Placed(cfg, s, p, lat, lng);
      if MustScan(cfg, t.players[p]) {
        ScannedRestores(cfg, t, p);
      } else {
        SkippedKeeps(cfg, s, t, p);
      }
    }
  }

  lemma RecalculatedKeeps(cfg: Config, s: Index, p: PlayerId)
    requires Invariant(cfg, s)
    ensures Invariant(cfg, Recalculated(cfg, s, p))
  {
    if p in s.players {
      ScannedRestores(cfg, s, p);
    }
  }

  lemma RemovedKeeps(cfg: Config, s: Index, p: PlayerId)
    requires Invariant(cfg, s)
    ensures Invariant(cfg, Removed(s, p))
  {
    if p in s.players {
      var t := s.(visible := Rewire(s.visible, p, {}));
      var u := Removed(s, p);
      RewiredVisibleOk(s, t, p, {});
      forall a, b
        ensures Sees(u, a, b) <==> Sees(s, a, b) && a != p && b != p
      {
        assert Sees(u, a, b) == Sees(t, a, b);
      }
      forall c, q
        ensures q in Lookup(u.cells, c) <==> q in u.players && u.players[q].cell == c
      {
        assert q in Lookup(s.cells, c) <==> q in s.players && s.players[q].cell == c;
      }
      forall a, b | a in u.players && b in u.players && a != b
        ensures PairOk(cfg, u, a, b)
      {
        assert PairOk(cfg, s, a, b);
      }
    }
  }

  lemma ApplyKeeps(cfg: Config, s: Index, op: Op)
    requires Invariant(cfg, s)
    ensures Invariant(cfg, Apply(cfg, s, op))
  {
    match op
    case OpInsert(p, lat, lng) => InsertedKeeps(cfg, s, p, lat, lng);
    case OpMove(p, lat, lng) => MovedKeeps(cfg, s, p, lat, lng);
    case OpRecalculate(p) => RecalculatedKeeps(cfg, s, p);
    case OpRemove(p) => RemovedKeeps(cfg, s, p);
  }

  lemma {:induction false} RunKeeps(cfg: Config, ops: seq<Op>)
    ensures Invariant(cfg, Run(cfg, ops))
  {
    if ops != [] {
      RunKeeps(cfg, ops[..|ops| - 1]);
      ApplyKeeps(cfg, Run(cfg, ops[..|ops| - 1]), ops[|ops| - 1]);
    }
  }

  // ------------------------------------------------------------------
  // The staleness bound
  // ------------------------------------------------------------------

  // A pair that does not see each other is more than E - 3R apart.
  lemma UnseenPairIsFar(cfg: Config, s: Index, a: PlayerId, b: PlayerId)
    requires Invariant(cfg, s)
    requires a in s.players && b in s.players && a != b && !Sees(s, a, b)
    ensures Gap(s, a, b) > Square(cfg.enterRadius - 3.0 * cfg.rescanDistance)
  {
    assert PairOk(cfg, s, a, b);
    var r := cfg.rescanDistance;
    var t := cfg.enterRadius - 3.0 * r;
    assert r + (r + t) == cfg.enterRadius - r;
    DistanceIsSymmetric(s.players[a].scanPoint, s.players[a].local);
    DistanceIsSymmetric(s.players[b].scanPoint, s.players[b].local);
    BothEndsMoved(s.players[a].scanPoint, s.players[a].local, s.players[b].scanPoint, s.players[b].local, r, t);
  }

  // In every index any run of operations can reach, although enter scans are
  // skipped: a visible pair is within the leave radius, and a pair that is not
  // visible has its markers more than E - R apart and itself is more than
  // E - 3R apart.
  lemma StalenessBound(cfg: Config, ops: seq<Op>, a: PlayerId, b: PlayerId)
    requires a in Run(cfg, ops).players && b in Run(cfg, ops).players && a != b
    ensures Sees(Run(cfg, ops), a, b) == Sees(Run(cfg, ops), b, a)
    ensures Sees(Run(cfg, ops), a, b) ==> Gap(Run(cfg, ops), a, b) <= Square(cfg.leaveRadius)
    ensures !Sees(Run(cfg, ops), a, b) ==>
      && MarkerGap(Run(cfg, ops), a, b) > Square(cfg.enterRadius - cfg.rescanDistance)
      && Gap(Run(cfg, ops), a, b) > Square(cfg.enterRadius - 3.0 * cfg.rescanDistance)
  {
    RunKeeps(cfg, ops);
    var s := Run(cfg, ops);
    assert PairOk(cfg, s, a, b);
    assert Sees(s, a, b) == Sees(s, b, a);
    if !Sees(s, a, b) {
      UnseenPairIsFar(cfg, s, a, b);
    }
  }

  // With the server's configuration: visible pairs are within 600 m, and any two
  // players no more than 350 m apart see each other.
  lemma DefaultBound(lat: real, lng: real, scale: real, ops: seq<Op>, a: PlayerId, b: PlayerId)
    requires 0.0 < scale
    requires var s := Run(DefaultConfig(lat, lng, scale), ops); a in s.players && b in s.players && a != b
    ensures var s := Run(DefaultConfig(lat, lng, scale), ops);
      && (Sees(s, a, b) ==> DistanceSquared(s.players[a].local, s.players[b].local) <= 360000.0)
      && (DistanceSquared(s.players[a].local, s.players[b].local) <= 122500.0 ==> Sees(s, a, b))
  {
    StalenessBound(DefaultConfig(lat, lng, scale), ops, a, b);
  }

  // ------------------------------------------------------------------
  // What one operation does to visibility
  // ------------------------------------------------------------------

  // A move scans if and only if the floor cell of the new position is not that
  // of p's marker or the new position is at least R from the marker. Then the
  // marker becomes the new position and p sees exactly those within E and its
  // former neighbours within L; otherwise the marker stays and p only loses
  // those beyond L. No other player changes, and no pair without p.
  lemma MovedIsExact(cfg: Config, s: Index, p: PlayerId, lat: real, lng: real)
    requires Invariant(cfg, s) && p in s.players
    ensures var t := Moved(cfg, s, p, lat, lng);
      var marker, spot := s.players[p].scanPoint, cfg.ToLocal(lat, lng);
      var due := (spot.x / cfg.cellSize).Floor != (marker.x / cfg.cellSize).Floor
              || (spot.y / cfg.cellSize).Floor != (marker.y / cfg.cellSize).Floor
              || DistanceSquared(spot, marker) >= Square(cfg.rescanDistance);
      && t.players.Keys == s.players.Keys
      && t.players[p].lat == lat && t.players[p].lng == lng && t.players[p].local == spot
      && t.players[p].scanPoint == (if due then spot else marker)
      && (forall q | q in s.players && q != p :: t.players[q] == s.players[q])
      && (forall q | q in s.players && q != p ::
            Sees(t, p, q) <==>
              || (Sees(s, p, q) && DistanceSquared(spot, s.players[q].local) <= Square(cfg.leaveRadius))
              || (due && DistanceSquared(spot, s.players[q].local) <= Square(cfg.enterRadius)))
      && (forall a, b | a != p && b != p :: Sees(t, a, b) <==> Sees(s, a, b))
  {
    hide DistanceSquared, Square;
    PlacedKeepsRest(cfg, s, p, lat, lng);
    var t := Placed(cfg, s, p, lat, lng);
    assert !Sees(t, p, p);
    var scanned := MustScan(cfg, t.players[p]);
    var members := if scanned then Kept(cfg, t, p) + Nearby(cfg, t, p) else Kept(cfg, t, p);
    RewiredVisibleOk(t, Moved(cfg, s, p, lat, lng), p, members);
  }

  // A player new to the index stands, is marked and sees from where it is put;
  // nobody else changes.
  lemma InsertedIsExact(cfg: Config, s: Index, p: PlayerId, lat: real, lng: real)
    requires Invariant(cfg, s) && p !in s.players
    ensures var t, spot := Inserted(cfg, s, p, lat, lng), cfg.ToLocal(lat, lng);
      && t.players == s.players[p := Player(lat, lng, spot, cfg.CellOf(spot), spot, cfg.CellOf(spot), true)]
      && (forall q :: Sees(t, p, q) <==>
            q in s.players && DistanceSquared(spot, s.players[q].local) <= Square(cfg.enterRadius))
      && (forall a, b | a != p && b != p :: Sees(t, a, b) <==> Sees(s, a, b))
  {
    hide DistanceSquared, Square;
    PlacedKeepsRest(cfg, s, p, lat, lng);
    UnindexedSeesNobody(s, p);
    var t := Placed(cfg, s, p, lat, lng);
    assert !Sees(t, p, p);
    assert Kept(cfg, t, p) == {};
    RewiredVisibleOk(t, Scanned(cfg, t, p), p, Kept(cfg, t, p) + Nearby(cfg, t, p));
  }

  // A removed player is gone, nobody sees it, and nobody else changes.
  lemma RemovedIsExact(cfg: Config, s: Index, p: PlayerId)
    requires Invariant(cfg, s)
    ensures var t := Removed(s, p);
      && t.players == s.players - {p}
      && (forall a, b :: Sees(t, a, b) <==> Sees(s, a, b) && a != p && b != p)
  {
    if p in s.players {
      var t := s.(visible := Rewire(s.visible, p, {}));
      RewiredVisibleOk(s, t, p, {});
      forall a, b
        ensures Sees(Removed(s, p), a, b) <==> Sees(s, a, b) && a != p && b != p
      {
        assert Sees(Removed(s, p), a, b) == Sees(t, a, b);
      }
    } else {
      assert s.players - {p} == s.players;
      forall a, b | Sees(s, a, b)
        ensures a != p && b != p
      {
        assert Sees(s, b, a);
      }
    }
  }

  // Recomputing one player's relationships never loses one of them.
  lemma RecalculatedLosesNothing(cfg: Config, s: Index, p: PlayerId, q: PlayerId)
    requires Invariant(cfg, s) && p in s.players
    ensures Sees(Recalculated(cfg, s, p), p, q) <==>
      Sees(s, p, q) || (q in s.players && q != p && Gap(s, p, q) <= Square(cfg.enterRadius))
    ensures var me := s.players[p];
      Recalculated(cfg, s, p).players == s.players[p := me.(scanPoint := me.local, scanCell := me.cell)]
    ensures forall a, b | a != p && b != p :: Sees(Recalculated(cfg, s, p), a, b) <==> Sees(s, a, b)
  {
    assert !Sees(s, p, p);
    RewiredVisibleOk(s, Recalculated(cfg, s, p), p, Kept(cfg, s, p) + Nearby(cfg, s, p));
    if Sees(s, p, q) {
      assert Sees(s, q, p);
      assert PairOk(cfg, s, p, q);
    }
  }

  lemma UnindexedSeesNobody(s: Index, p: PlayerId)
    requires VisibleOk(s) && p !in s.players
    ensures Neighbors(s, p) == {}
  {
    assert Neighbors(s, p) == set q | q in Neighbors(s, p) && Sees(s, p, q);
  }

  // Removing a player just inserted gives back the index as it was.
  lemma InsertThenRemove(cfg: Config, s: Index, p: PlayerId, lat: real, lng: real)
    requires Invariant(cfg, s) && p !in s.players
    ensures Removed(Inserted(cfg, s, p, lat, lng), p) == s
  {
    hide DistanceSquared, Square;
    var t := Placed(cfg, s, p, lat, lng);
    var u := Scanned(cfg, t, p);
    var v := Removed(u, p);
    assert v.players == s.players;
    UnindexedSeesNobody(s, p);
    RewireTwice(s.visible, p, Kept(cfg, t, p) + Nearby(cfg, t, p), {});
    RewireUnchanged(s.visible, p);
    assert v.visible == s.visible;
    var c := t.players[p].cell;
    assert p !in Lookup(s.cells, c);
    assert Lookup(s.cells, c) + {p} - {p} == Lookup(s.cells, c);
    assert v.cells == s.cells;
  }
}

// Counting visible pairs: the handshake argument behind the pair statistic.
module AoiCount {
  import opened Common
  import opened SetMaps
  import opened AoiModel
  import opened AoiInvariant

  type Pair = (PlayerId, PlayerId)

  // Ordered pairs whose first member is one of the given players.
  ghost function PairsFrom(visible: map<PlayerId, set<PlayerId>>, from: set<PlayerId>): set<Pair> {
    set a, b | a in from && b in Lookup(visible, a) :: (a, b)
  }

  // Each visible pair once, smaller player first.
  ghost function UnorderedPairs(s: Index): set<Pair> {
    set a, b | a in s.visible && b in Lookup(s.visible, a) && a < b :: (a, b)
  }

  lemma Member<T>(s: set<T>) returns (x: T)
    requires s != {}
    ensures x in s
  {
    x :| x in s;
  }

  lemma {:induction false} PairsWith(a: PlayerId, bs: set<PlayerId>)
    ensures |set b | b in bs :: (a, b)| == |bs|
  {
    if bs != {} {
      var x := Member(bs);
      PairsWith(a, bs - {x});
      assert (set b | b in bs :: (a, b)) == (set b | b in bs - {x} :: (a, b)) + {(a, x)};
    }
  }

  lemma PairsFromOneMore(visible: map<PlayerId, set<PlayerId>>, from: set<PlayerId>, a: PlayerId)
    requires a in visible && a !in from
    ensures |PairsFrom(visible, from + {a})| == |PairsFrom(visible, from)| + |visible[a]|
  {
    PairsWith(a, visible[a]);
    var mine := set b | b in visible[a] :: (a, b);
    assert PairsFrom(visible, from + {a}) == PairsFrom(visible, from) + mine;
    assert PairsFrom(visible, from) !! mine;
  }

  lemma {:induction false} FlippedCount(pairs: set<Pair>)
    ensures |set x: Pair | x in pairs :: (x.1, x.0)| == |pairs|
  {
    if pairs != {} {
      var p := Member(pairs);
      FlippedCount(pairs - {p});
      assert (set x: Pair | x in pairs :: (x.1, x.0)) == (set x: Pair | x in pairs - {p} :: (x.1, x.0)) + {(p.1, p.0)};
    }
  }

  // Every visible pair is counted once from each end.
  lemma Handshake(s: Index)
    requires VisibleOk(s)
    ensures |PairsFrom(s.visible, s.visible.Keys)| == 2 * |UnorderedPairs(s)|
  {
    var all, up := PairsFrom(s.visible, s.visible.Keys), UnorderedPairs(s);
    var down := set x: Pair | x in up :: (x.1, x.0);
    FlippedCount(up);
    forall x: Pair | x in all
      ensures x in up + down
    {
      assert Sees(s, x.0, x.1) && Sees(s, x.1, x.0);
      assert x == ((x.1, x.0).1, (x.1, x.0).0);
    }
    forall x: Pair | x in down
      ensures x in all
    {
      assert Sees(s, x.1, x.0) && Sees(s, x.0, x.1);
    }
    assert all == up + down;
    assert up !! down;
  }

  // Visible pairs without p.
  ghost function PairsWithout(s: Index, p: PlayerId): set<Pair> {
    set x: Pair | x in UnorderedPairs(s) && x.0 != p && x.1 != p
  }

  function Ordered(p: PlayerId, q: PlayerId): Pair {
    if p < q then (p, q) else (q, p)
  }

  lemma {:induction false} OrderedCount(p: PlayerId, qs: set<PlayerId>)
    ensures |set q | q in qs :: Ordered(p, q)| == |qs|
  {
    if qs != {} {
      var x := Member(qs);
      OrderedCount(p, qs - {x});
      assert (set q | q in qs :: Ordered(p, q)) == (set q | q in qs - {x} :: Ordered(p, q)) + {Ordered(p, x)};
    }
  }

  lemma PairsOfOne(s: Index, p: PlayerId)
    requires VisibleOk(s)
    ensures |UnorderedPairs(s)| == |PairsWithout(s, p)| + |Neighbors(s, p)|
  {
    var mine := set q | q in Neighbors(s, p) :: Ordered(p, q);
    OrderedCount(p, Neighbors(s, p));
    forall x: Pair | x in UnorderedPairs(s) && x !in PairsWithout(s, p)
      ensures x in mine
    {
      assert Sees(s, x.0, x.1) && Sees(s, x.1, x.0);
      if x.0 == p {
        assert x == Ordered(p, x.1);
      } else {
        assert x == Ordered(p, x.0);
      }
    }
    forall x: Pair | x in mine
      ensures x in UnorderedPairs(s)
    {
      var q :| q in Neighbors(s, p) && x == Ordered(p, q);
      assert Sees(s, p, q) && Sees(s, q, p);
    }
    assert UnorderedPairs(s) == PairsWithout(s, p) + mine;
    assert PairsWithout(s, p) !! mine;
  }

  lemma SamePairsWithout(s: Index, t: Index, p: PlayerId)
    requires forall a, b | a != p && b != p :: Sees(t, a, b) <==> Sees(s, a, b)
    ensures PairsWithout(s, p) == PairsWithout(t, p)
  {
    forall x: Pair
      ensures x in PairsWithout(s, p) <==> x in PairsWithout(t, p)
    {
      assert Sees(t, x.0, x.1) <==> x.1 in Lookup(t.visible, x.0);
      assert Sees(s, x.0, x.1) <==> x.1 in Lookup(s.visible, x.0);
    }
  }

  lemma DifferenceCounts(s: Index, t: Index, p: PlayerId)
    ensures |Neighbors(t, p)| == |Neighbors(s, p)| + |Entered(s, t, p)| - |Left(s, t, p)|
  {
    var entered, left, stable := Entered(s, t, p), Left(s, t, p), Stable(s, t, p);
    assert Neighbors(s, p) == left + stable && left !! stable;
    assert Neighbors(t, p) == entered + stable && entered !! stable;
  }

  // When only p's relationships change, the number of visible pairs changes by
  // what p gains less what it loses.
  lemma OnlyOneChanged(s: Index, t: Index, p: PlayerId)
    requires VisibleOk(s) && VisibleOk(t)
    requires forall a, b | a != p && b != p :: Sees(t, a, b) <==> Sees(s, a, b)
    ensures |UnorderedPairs(t)| == |UnorderedPairs(s)| + |Entered(s, t, p)| - |Left(s, t, p)|
  {
    SamePairsWithout(s, t, p);
    PairsOfOne(s, p);
    PairsOfOne(t, p);
    DifferenceCounts(s, t, p);
  }

  // A move changes the number of visible pairs by what entered less what left.
  lemma MovedPairs(cfg: Config, s: Index, p: PlayerId, lat: real, lng: real)
    requires Invariant(cfg, s)
    ensures var t := Moved(cfg, s, p, lat, lng);
      |UnorderedPairs(t)| == |UnorderedPairs(s)| + |Entered(s, t, p)| - |Left(s, t, p)|
  {
    var t := Moved(cfg, s, p, lat, lng);
    assert t == s ==> Entered(s, t, p) == {} && Left(s, t, p) == {};
    if p in s.players {
      MovedIsExact(cfg, s, p, lat, lng);
      MovedKeeps(cfg, s, p, lat, lng);
      OnlyOneChanged(s, Moved(cfg, s, p, lat, lng), p);
    }
  }

  // Removing a player takes away exactly the pairs it was part of.
  lemma RemovedPairs(cfg: Config, s: Index, p: PlayerId)
    requires Invariant(cfg, s) && p in s.players
    ensures |UnorderedPairs(Removed(s, p))| == |UnorderedPairs(s)| - |Neighbors(s, p)|
  {
    var t := s.(visible := Rewire(s.visible, p, {}));
    RewiredVisibleOk(s, t, p, {});
    assert forall q :: !Sees(t, p, q);
    assert Neighbors(t, p) == {};
    assert Left(s, t, p) == Neighbors(s, p) && Entered(s, t, p) == {};
    OnlyOneChanged(s, t, p);
  }
}

// Maps from keys to sets in which an empty set is never stored: the shape of
// every nested map in the index (a missing key reads as the empty set, and a
// key is deleted with its last member).
module SetMaps {

  function Lookup<K, V>(m: map<K, set<V>>, k: K): set<V> {
    if k in m then m[k] else {}
  }

  // The same for maps to sequences.
  function Listed<K, V>(m: map<K, seq<V>>, k: K): seq<V> {
    if k in m then m[k] else []
  }

  function Put<K, V(==)>(m: map<K, set<V>>, k: K, members: set<V>): map<K, set<V>> {
    if members == {} then m - {k} else m[k := members]
  }

  ghost predicate Compact<K, V>(m: map<K, set<V>>) {
    forall k | k in m :: m[k] != {}
  }

  // Two compact maps with the same lookups are equal.
  lemma SameLookups<K(!new), V>(m: map<K, set<V>>, n: map<K, set<V>>)
    requires Compact(m) && Compact(n)
    requires forall k :: Lookup(m, k) == Lookup(n, k)
    ensures m == n
  {
    forall k
      ensures k in m <==> k in n
      ensures k in m ==> m[k] == n[k]
    {
      assert Lookup(m, k) == Lookup(n, k);
    }
  }

  // A relation on K kept as a map from each element to its partners.

  ghost predicate Symmetric<K(!new)>(m: map<K, set<K>>) {
    forall a, b :: b in Lookup(m, a) ==> a in Lookup(m, b)
  }

  // The partners of q once p's partners have been replaced by members.
  function RewiredSet<K(==)>(m: map<K, set<K>>, p: K, members: set<K>, q: K): set<K> {
    if q == p then members
    else if q in members then Lookup(m, q) + {p}
    else Lookup(m, q) - {p}
  }

  // The relation m with p's partners replaced by members, on both sides.
  function Rewire<K(==)>(m: map<K, set<K>>, p: K, members: set<K>): (r: map<K, set<K>>)
    ensures Compact(r)
  {
    map q | q in m.Keys + members + {p} && RewiredSet(m, p, members, q) != {}
      :: RewiredSet(m, p, members, q)
  }

  lemma LookupRewire<K(!new)>(m: map<K, set<K>>, p: K, members: set<K>)
    ensures forall q :: Lookup(Rewire(m, p, members), q) == RewiredSet(m, p, members, q)
  {
    forall q
      ensures Lookup(Rewire(m, p, members), q) == RewiredSet(m, p, members, q)
    {
      if q !in m.Keys + members + {p} {
        assert RewiredSet(m, p, members, q) == {};
      }
    }
  }

  lemma RewireKeepsSymmetry<K(!new)>(m: map<K, set<K>>, p: K, members: set<K>)
    requires Symmetric(m)
    ensures Symmetric(Rewire(m, p, members))
  {
    LookupRewire(m, p, members);
  }

  lemma RewireTwice<K(!new)>(m: map<K, set<K>>, p: K, first: set<K>, second: set<K>)
    ensures Rewire(Rewire(m, p, first), p, second) == Rewire(m, p, second)
  {
    var once := Rewire(m, p, first);
    LookupRewire(m, p, first);
    LookupRewire(once, p, second);
    LookupRewire(m, p, second);
    forall q
      ensures Lookup(Rewire(once, p, second), q) == Lookup(Rewire(m, p, second), q)
    {
      assert Lookup(once, q) == RewiredSet(m, p, first, q);
      assert RewiredSet(once, p, second, q) == RewiredSet(m, p, second, q);
    }
    SameLookups(Rewire(once, p, second), Rewire(m, p, second));
  }

  lemma RewireUnchanged<K(!new)>(m: map<K, set<K>>, p: K)
    requires Compact(m) && Symmetric(m)
    ensures Rewire(m, p, Lookup(m, p)) == m
  {
    var r := Rewire(m, p, Lookup(m, p));
    LookupRewire(m, p, Lookup(m, p));
    forall q
      ensures Lookup(r, q) == Lookup(m, q)
    {
      assert q in Lookup(m, p) <==> p in Lookup(m, q);
    }
    SameLookups(r, m);
  }
}

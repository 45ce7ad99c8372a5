// Sequences that list a set: no element twice, in some order or sorted.
module Sequences {

  function ToSet<T>(s: seq<T>): set<T> {
    set x | x in s
  }

  ghost predicate NoDuplicates<T>(s: seq<T>) {
    forall i, j | 0 <= i < j < |s| :: s[i] != s[j]
  }

  // s lists the members of the set, each once.
  ghost predicate Lists<T>(s: seq<T>, members: set<T>) {
    NoDuplicates(s) && ToSet(s) == members
  }

  ghost predicate Ascending(s: seq<int>) {
    forall i, j | 0 <= i < j < |s| :: s[i] < s[j]
  }

  lemma ListsAppend<T>(s: seq<T>, members: set<T>, x: T)
    requires Lists(s, members) && x !in members
    ensures Lists(s + [x], members + {x})
  {
    assert ToSet(s + [x]) == members + {x};
    assert forall i | 0 <= i < |s| :: s[i] in ToSet(s);
  }

  lemma {:induction false} ListsLength<T>(s: seq<T>, members: set<T>)
    requires Lists(s, members)
    ensures |s| == |members|
  {
    if s != [] {
      var last := s[|s| - 1];
      var front := s[..|s| - 1];
      assert s == front + [last];
      assert last !in front;
      assert ToSet(front) == members - {last};
      ListsLength(front, members - {last});
    }
  }

  lemma AscendingCons(head: int, rest: seq<int>)
    requires Ascending(rest) && forall y | y in rest :: head < y
    ensures Ascending([head] + rest)
  {
    forall i, j | 0 <= i < j < 1 + |rest|
      ensures ([head] + rest)[i] < ([head] + rest)[j]
    {
      assert rest[j - 1] in rest;
    }
  }

  lemma AscendingAppend(s: seq<int>, last: int)
    requires Ascending(s) && forall y | y in s :: y < last
    ensures Ascending(s + [last]) && ToSet(s + [last]) == ToSet(s) + {last}
  {
    assert forall i | 0 <= i < |s| :: s[i] in s;
  }

  lemma OnlyEmptyListsEmpty<T>(s: seq<T>)
    ensures ToSet(s) == {} <==> s == []
  {
    if s != [] {
      assert s[0] in ToSet(s);
    }
  }

  // Insert x into an ascending sequence that lacks it.
  function InsertSorted(s: seq<int>, x: int): seq<int> {
    if s == [] || x < s[0] then [x] + s else [s[0]] + InsertSorted(s[1..], x)
  }

  lemma {:induction false} InsertSortedKeepsOrder(s: seq<int>, x: int)
    requires Ascending(s) && x !in s
    ensures Ascending(InsertSorted(s, x)) && ToSet(InsertSorted(s, x)) == ToSet(s) + {x}
  {
    if s == [] || x < s[0] {
      assert ToSet([x] + s) == ToSet(s) + {x};
    } else {
      var rest := InsertSorted(s[1..], x);
      InsertSortedKeepsOrder(s[1..], x);
      assert s == [s[0]] + s[1..];
      forall y | y in rest
        ensures s[0] < y
      {
        assert y in ToSet(rest);
      }
      AscendingCons(s[0], rest);
      assert ToSet([s[0]] + rest) == {s[0]} + ToSet(rest);
      assert ToSet([s[0]] + s[1..]) == {s[0]} + ToSet(s[1..]);
    }
  }

  // The next key of a map iteration: any key not yet visited.
  method AnyOf<T(==)>(rest: set<T>) returns (x: T)
    requires rest != {}
    ensures x in rest
  {
    x :| x in rest;
  }

  // The keys of a map in ascending order, whatever order it is walked in.
  method SetKeys(values: set<int>) returns (keys: seq<int>)
    ensures Ascending(keys) && Lists(keys, values)
  {
    keys := [];
    var rest := values;
    while rest != {}
      invariant Ascending(keys)
      invariant rest <= values && ToSet(keys) == values - rest
    {
      var key := AnyOf(rest);
      assert key !in ToSet(keys);
      InsertSortedKeepsOrder(keys, key);
      keys := InsertSorted(keys, key);
      rest := rest - {key};
    }
  }

  // Two ascending lists of the same set are the same list.
  lemma {:induction false} AscendingIsUnique(s: seq<int>, t: seq<int>)
    requires Ascending(s) && Ascending(t) && ToSet(s) == ToSet(t)
    ensures s == t
  {
    if s == [] {
      OnlyEmptyListsEmpty(t);
    } else {
      assert s[0] in ToSet(t) && s[0] in t;
      assert t[0] in ToSet(s) && t[0] in s;
      assert s[0] == t[0];
      assert s == [s[0]] + s[1..] && t == [t[0]] + t[1..];
      assert ToSet(s[1..]) == ToSet(s) - {s[0]};
      assert ToSet(t[1..]) == ToSet(t) - {t[0]};
      AscendingIsUnique(s[1..], t[1..]);
    }
  }
}

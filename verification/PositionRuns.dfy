// What the position writer guarantees over any sequence of batches.
module PositionRuns {
  import opened Common
  import opened Sequences
  import opened PositionPersistence

  // One call of the worker: the batch, what it accepted, and whose update the
  // database took.
  datatype Round = Round(batch: seq<Update>, accepted: map<UserId, Update>, saved: set<UserId>)

  function Begin(stored: map<UserId, LatLng>): Store {
    Store(map[], stored)
  }

  // Rounds the worker can go through.
  ghost predicate Possible(stored: map<UserId, LatLng>, rounds: seq<Round>) {
    rounds == [] || (
      var front, r := rounds[..|rounds| - 1], rounds[|rounds| - 1];
      && Possible(stored, front)
      && Accepts(After(stored, front).lastSeq, r.batch, r.accepted)
      && r.saved <= r.accepted.Keys)
  }

  ghost function After(stored: map<UserId, LatLng>, rounds: seq<Round>): Store {
    if rounds == [] then Begin(stored)
    else
      var front, r := rounds[..|rounds| - 1], rounds[|rounds| - 1];
      Written(After(stored, front), r.accepted, r.saved)
  }

  // Every update submitted so far.
  ghost function History(rounds: seq<Round>): set<Update> {
    if rounds == [] then {}
    else History(rounds[..|rounds| - 1]) + ToSet(rounds[|rounds| - 1].batch)
  }

  // A user and a number determine the position.
  ghost predicate Numbered(updates: set<Update>) {
    forall x, y | x in updates && y in updates && x.user == y.user && x.number == y.number :: PlaceOf(x) == PlaceOf(y)
  }

  // The database refused nothing.
  ghost predicate NoFailures(rounds: seq<Round>) {
    forall r | r in rounds :: r.saved == r.accepted.Keys
  }

  ghost predicate Backed(s: Store, updates: set<Update>, u: UserId)
    requires u in s.lastSeq
  {
    && u in s.stored
    && s.lastSeq[u] > 0
    && exists x :: x in updates && x.user == u && x.number == s.lastSeq[u] && PlaceOf(x) == s.stored[u]
  }

  // A written update comes from its batch and is newer than what was known.
  lemma AcceptedIsNewer(lastSeq: map<UserId, nat>, batch: seq<Update>, accepted: map<UserId, Update>, u: UserId)
    requires Accepts(lastSeq, batch, accepted) && u in accepted
    ensures accepted[u] in batch && accepted[u].user == u && accepted[u].number > Last(lastSeq, u)
    ensures forall x | x in batch && x.user == u :: x.number <= accepted[u].number
  {
    assert IsBest(batch, Last(lastSeq, u), accepted[u]);
  }

  // Whatever order batches arrive in and whichever writes fail, a user's
  // number never goes down, and the stored position is always that of an
  // update with that number; a user never written keeps its old position.
  lemma {:induction false} NeverRegresses(stored: map<UserId, LatLng>, rounds: seq<Round>, u: UserId)
    requires Possible(stored, rounds)
    ensures var s := After(stored, rounds);
      && (u in s.lastSeq ==> Backed(s, History(rounds), u))
      && (u !in s.lastSeq ==> (u in s.stored <==> u in stored) && (u in stored ==> s.stored[u] == stored[u]))
    ensures rounds != [] ==>
      Last(After(stored, rounds[..|rounds| - 1]).lastSeq, u) <= Last(After(stored, rounds).lastSeq, u)
  {
    if rounds != [] {
      var front, r := rounds[..|rounds| - 1], rounds[|rounds| - 1];
      NeverRegresses(stored, front, u);
      var s, t := After(stored, front), After(stored, rounds);
      if u in r.saved {
        AcceptedIsNewer(s.lastSeq, r.batch, r.accepted, u);
        var x := r.accepted[u];
        assert x in History(rounds) && x.number == t.lastSeq[u] && PlaceOf(x) == t.stored[u];
      } else if u in s.lastSeq {
        var x :| x in History(front) && x.user == u && x.number == s.lastSeq[u] && PlaceOf(x) == s.stored[u];
        assert x in History(rounds);
      }
    }
  }

  // Without failures the worker ends at each user's highest number.
  lemma {:induction false} ReachesHighest(stored: map<UserId, LatLng>, rounds: seq<Round>, x: Update)
    requires Possible(stored, rounds) && NoFailures(rounds) && x in History(rounds)
    ensures x.number <= Last(After(stored, rounds).lastSeq, x.user)
  {
    var front, r := rounds[..|rounds| - 1], rounds[|rounds| - 1];
    assert r in rounds && forall q | q in front :: q in rounds;
    var s := After(stored, front);
    NeverRegresses(stored, rounds, x.user);
    if x in r.batch {
      if x.number > Last(s.lastSeq, x.user) {
        AcceptedIsNewer(s.lastSeq, r.batch, r.accepted, x.user);
      }
    } else {
      ReachesHighest(stored, front, x);
    }
  }

  // Convergence: two failure-free runs over the same updates, however they are
  // ordered and split into batches, end in the same store.
  lemma Converges(stored: map<UserId, LatLng>, left: seq<Round>, right: seq<Round>)
    requires Possible(stored, left) && NoFailures(left)
    requires Possible(stored, right) && NoFailures(right)
    requires History(left) == History(right) && Numbered(History(left))
    ensures After(stored, left) == After(stored, right)
  {
    hide After, Possible, History, NoFailures, Numbered;
    forall u
      ensures SameFor(After(stored, left), After(stored, right), u)
    {
      ConvergesFor(stored, left, right, u);
    }
    SameStores(After(stored, left), After(stored, right));
  }

  ghost predicate SameFor(s: Store, t: Store, u: UserId) {
    && (u in s.lastSeq <==> u in t.lastSeq) && (u in s.stored <==> u in t.stored)
    && (u in s.lastSeq ==> u in t.lastSeq && s.lastSeq[u] == t.lastSeq[u])
    && (u in s.stored ==> u in t.stored && s.stored[u] == t.stored[u])
  }

  lemma SameStores(s: Store, t: Store)
    requires forall u :: SameFor(s, t, u)
    ensures s == t
  {
    forall u
      ensures u in s.lastSeq <==> u in t.lastSeq
      ensures u in s.stored <==> u in t.stored
      ensures u in s.lastSeq && u in t.lastSeq ==> s.lastSeq[u] == t.lastSeq[u]
      ensures u in s.stored && u in t.stored ==> s.stored[u] == t.stored[u]
    {
      assert SameFor(s, t, u);
    }
  }

  lemma ConvergesFor(stored: map<UserId, LatLng>, left: seq<Round>, right: seq<Round>, u: UserId)
    requires Possible(stored, left) && NoFailures(left)
    requires Possible(stored, right) && NoFailures(right)
    requires History(left) == History(right) && Numbered(History(left))
    ensures SameFor(After(stored, left), After(stored, right), u)
  {
    hide After, Possible, History, NoFailures;
    NoHigher(stored, left, right, u);
    NoHigher(stored, right, left, u);
    NeverRegresses(stored, left, u);
    NeverRegresses(stored, right, u);
    var s, t := After(stored, left), After(stored, right);
    if u in s.lastSeq && u in t.lastSeq {
      assert Backed(s, History(left), u) && Backed(t, History(right), u);
    }
  }

  lemma NoHigher(stored: map<UserId, LatLng>, left: seq<Round>, right: seq<Round>, u: UserId)
    requires Possible(stored, left)
    requires Possible(stored, right) && NoFailures(right)
    requires History(left) <= History(right)
    ensures u in After(stored, left).lastSeq ==>
      u in After(stored, right).lastSeq && After(stored, left).lastSeq[u] <= After(stored, right).lastSeq[u]
  {
    NeverRegresses(stored, left, u);
    var s := After(stored, left);
    if u in s.lastSeq {
      var x :| x in History(left) && x.user == u && x.number == s.lastSeq[u] && PlaceOf(x) == s.stored[u];
      ReachesHighest(stored, right, x);
    }
  }

  // Writing is decided by the number alone: a lone update reaches the database
  // if and only if it is newer than the last one remembered for its user.
  lemma WrittenIffNewer(s: Store, x: Update, accepted: map<UserId, Update>)
    requires Accepts(s.lastSeq, [x], accepted)
    ensures Written(s, accepted, accepted.Keys)
         == if x.number > Last(s.lastSeq, x.user)
            then Store(s.lastSeq[x.user := x.number], s.stored[x.user := PlaceOf(x)]) else s
  {
    var u := x.user;
    var newer := if x.number > Last(s.lastSeq, u) then {u} else {};
    assert x in [x];
    forall v
      ensures v in accepted.Keys <==> v in newer
    {
      if v in accepted {
        AcceptedIsNewer(s.lastSeq, [x], accepted, v);
      }
    }
    assert accepted.Keys == newer;
    NoneWritten(s, accepted);
    if u in newer {
      AcceptedIsNewer(s.lastSeq, [x], accepted, u);
      WrittenOneMore(s, accepted, {}, u);
      assert {} + {u} == accepted.Keys;
    }
  }

  // A session whose numbers start again is therefore ignored until they pass
  // the old ones: after update 2 of one session, update 1 of the next is lost.
  lemma NewSessionIsIgnored(u: UserId, stored: map<UserId, LatLng>, accepted1: map<UserId, Update>,
                            accepted2: map<UserId, Update>)
    requires Accepts(map[], [Update(u, 0.0, 0.0, 2)], accepted1)
    requires Accepts(Written(Begin(stored), accepted1, accepted1.Keys).lastSeq, [Update(u, 7.0, 7.0, 1)], accepted2)
    ensures var s := Written(Begin(stored), accepted1, accepted1.Keys);
      Written(s, accepted2, accepted2.Keys) == s && s.stored[u] == LatLng(0.0, 0.0)
  {
    WrittenIffNewer(Begin(stored), Update(u, 0.0, 0.0, 2), accepted1);
    WrittenIffNewer(Written(Begin(stored), accepted1, accepted1.Keys), Update(u, 7.0, 7.0, 1), accepted2);
  }
}

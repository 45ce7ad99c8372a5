// What a batch of numbered updates, which may come in any order, does to the
// position writer and its database.
module PositionPersistence {
  import opened Common

  datatype Update = Update(user: UserId, lat: real, lng: real, number: nat)

  // What the worker remembers of each user and what the database holds.
  datatype Store = Store(lastSeq: map<UserId, nat>, stored: map<UserId, LatLng>)

  // A missing user reads as number zero.
  function Last(lastSeq: map<UserId, nat>, u: UserId): nat {
    if u in lastSeq then lastSeq[u] else 0
  }

  function PlaceOf(x: Update): LatLng {
    LatLng(x.lat, x.lng)
  }

  // x is the update a batch has to offer for its user above a given number:
  // none is higher, and none before it is as high.
  ghost predicate IsBest(batch: seq<Update>, floor: nat, x: Update) {
    exists i | 0 <= i < |batch| ::
      && batch[i] == x && x.number > floor
      && (forall j | 0 <= j < |batch| && batch[j].user == x.user :: batch[j].number <= x.number)
      && (forall j | 0 <= j < i && batch[j].user == x.user :: batch[j].number < x.number)
  }

  // The accepted updates of a batch: one for every user with a newer update.
  ghost predicate Accepts(lastSeq: map<UserId, nat>, batch: seq<Update>, accepted: map<UserId, Update>) {
    && (forall u | u in accepted :: accepted[u].user == u && IsBest(batch, Last(lastSeq, u), accepted[u]))
    && (forall x | x in batch && x.number > Last(lastSeq, x.user) :: x.user in accepted)
  }

  // The store after the updates of some of the users have been written.
  function Written(s: Store, accepted: map<UserId, Update>, saved: set<UserId>): Store {
    Store(s.lastSeq + (map u | u in saved && u in accepted :: accepted[u].number),
          s.stored + (map u | u in saved && u in accepted :: PlaceOf(accepted[u])))
  }

  lemma AcceptsOneMore(lastSeq: map<UserId, nat>, batch: seq<Update>, i: nat,
                       before: map<UserId, Update>, after: map<UserId, Update>)
    requires i < |batch| && Accepts(lastSeq, batch[..i], before)
    requires var u := batch[i];
      after == if u.number > Last(lastSeq, u.user) && (u.user !in before || u.number > before[u.user].number)
               then before[u.user := u] else before
    ensures Accepts(lastSeq, batch[..i + 1], after)
  {
    var now, u := batch[..i + 1], batch[i];
    assert now == batch[..i] + [u];
    forall v | v in after
      ensures after[v].user == v && IsBest(now, Last(lastSeq, v), after[v])
    {
      if v == u.user && after[v] == u && (v !in before || before[v] != u) {
        assert forall j | 0 <= j < i && batch[j].user == v :: batch[j].number < u.number by {
          assert forall j | 0 <= j < i :: batch[..i][j] == batch[j] && batch[j] in batch[..i];
          if v in before {
            assert IsBest(batch[..i], Last(lastSeq, v), before[v]);
          }
        }
        assert now[i] == u;
      } else {
        var k :| 0 <= k < i && batch[..i][k] == before[v]
          && (forall j | 0 <= j < i && batch[..i][j].user == v :: batch[..i][j].number <= before[v].number)
          && (forall j | 0 <= j < k && batch[..i][j].user == v :: batch[..i][j].number < before[v].number);
        assert now[k] == before[v];
      }
    }
  }

  lemma NoneWritten(s: Store, accepted: map<UserId, Update>)
    ensures Written(s, accepted, {}) == s
  {
    assert s.lastSeq + map[] == s.lastSeq && s.stored + map[] == s.stored;
  }

  lemma WrittenOneMore(s: Store, accepted: map<UserId, Update>, saved: set<UserId>, u: UserId)
    requires saved <= accepted.Keys && u in accepted
    ensures var t := Written(s, accepted, saved);
      Written(s, accepted, saved + {u})
        == Store(t.lastSeq[u := accepted[u].number], t.stored[u := PlaceOf(accepted[u])])
  {
    var numbers := map v | v in saved && v in accepted :: accepted[v].number;
    var places := map v | v in saved && v in accepted :: PlaceOf(accepted[v]);
    OverlayOneMore(s.lastSeq, numbers, u, accepted[u].number,
                   map v | v in saved + {u} && v in accepted :: accepted[v].number);
    OverlayOneMore(s.stored, places, u, PlaceOf(accepted[u]),
                   map v | v in saved + {u} && v in accepted :: PlaceOf(accepted[v]));
  }

  lemma OverlayOneMore<V>(base: map<UserId, V>, some: map<UserId, V>, u: UserId, x: V, more: map<UserId, V>)
    requires more.Keys == some.Keys + {u} && u in more && more[u] == x
    requires forall v | v in some && v != u :: more[v] == some[v]
    ensures base + more == (base + some)[u := x]
  {
    var a, b := base + more, (base + some)[u := x];
    forall v
      ensures v in a <==> v in b
      ensures v in a && v in b ==> a[v] == b[v]
    {
      assert v in more <==> v in some || v == u;
    }
  }
}

// That a browser shows what is there: a broadcast's update leaves nothing wrong
// about anybody or anything it speaks of.
module HubScreens {
  import opened Common
  import opened Sequences
  import opened Messages
  import opened MessageLaws
  import opened HubModel
  import Builder = ReplicationBuilder
  import Hub

  // ------------------------------------------------------------------
  // Edits that tell the truth
  // ------------------------------------------------------------------

  predicate TruePlace(s: HubState, p: PlayerId, lat: real, lng: real) {
    p in s.world.players && lat == s.world.players[p].at.lat && lng == s.world.players[p].at.lng
  }

  predicate TrueLook(s: HubState, p: PlayerId, appearance: Appearance) {
    p in s.world.players && appearance == s.world.players[p].appearance
  }

  predicate TrueName(s: HubState, p: PlayerId, username: string) {
    p in s.world.players && username == s.world.players[p].username
  }

  predicate TrueGem(s: HubState, id: CollectibleId, gem: Gem) {
    && id in s.field.items
    && gem.regionId == s.field.items[id].regionId
    && gem.lat == s.field.items[id].lat && gem.lng == s.field.items[id].lng
  }

  predicate TrueEdit(s: HubState, e: Edit) {
    match e
    case Upsert(p, m) => TrueName(s, p, m.username) && TruePlace(s, p, m.lat, m.lng) && TrueLook(s, p, m.appearance)
    case SetPlace(p, lat, lng) => TruePlace(s, p, lat, lng)
    case SetLook(p, appearance) => TrueLook(s, p, appearance)
    case AddGem(id, gem) => TrueGem(s, id, gem)
    case _ => true
  }

  predicate PlacedBy(edits: seq<Edit>, p: PlayerId) {
    exists e :: e in edits && (e.Upsert? || e.SetPlace?) && e.id == p
  }

  predicate DressedBy(edits: seq<Edit>, p: PlayerId) {
    exists e :: e in edits && (e.Upsert? || e.SetLook?) && e.id == p
  }

  predicate NamedBy(edits: seq<Edit>, p: PlayerId) {
    exists e :: e in edits && e.Upsert? && e.id == p
  }

  // What a marker says is true if the edits said so, and otherwise as before.
  ghost predicate TrueMarker(s: HubState, st: Browser, edits: seq<Edit>, p: PlayerId, m: Marker) {
    && (if PlacedBy(edits, p) then TruePlace(s, p, m.lat, m.lng)
        else p in st.markers && m.lat == st.markers[p].lat && m.lng == st.markers[p].lng)
    && (if DressedBy(edits, p) then TrueLook(s, p, m.appearance)
        else p in st.markers && m.appearance == st.markers[p].appearance)
    && (if NamedBy(edits, p) then TrueName(s, p, m.username)
        else p in st.markers && m.username == st.markers[p].username)
  }

  lemma {:induction false} MarkersAreTrue(s: HubState, st: Browser, edits: seq<Edit>, p: PlayerId)
    requires forall e | e in edits :: TrueEdit(s, e)
    requires p in ApplyEdits(st, edits).markers
    ensures TrueMarker(s, st, edits, p, ApplyEdits(st, edits).markers[p])
  {
    if edits != [] {
      var front, last := edits[..|edits| - 1], edits[|edits| - 1];
      var mid := ApplyEdits(st, front);
      assert edits == front + [last];
      EditAt(mid, last, p);
      assert MarkerAt(ApplyEdits(st, edits), p).Some?;
      assert last in edits;
      hide ApplyEdits, ApplyEdit;
      if p in mid.markers {
        MarkersAreTrue(s, st, front, p);
      }
      OneEditMore(front, last, p);
    }
  }

  lemma OneEditMore(front: seq<Edit>, last: Edit, p: PlayerId)
    ensures PlacedBy(front + [last], p) <==> PlacedBy(front, p) || ((last.Upsert? || last.SetPlace?) && last.id == p)
    ensures DressedBy(front + [last], p) <==> DressedBy(front, p) || ((last.Upsert? || last.SetLook?) && last.id == p)
    ensures NamedBy(front + [last], p) <==> NamedBy(front, p) || (last.Upsert? && last.id == p)
  {
    assert last in front + [last];
    assert forall e | e in front :: e in front + [last];
  }

  lemma {:induction false} GemsAreTrue(s: HubState, st: Browser, edits: seq<Edit>, id: CollectibleId)
    requires forall e | e in edits :: TrueEdit(s, e)
    requires id in ApplyEdits(st, edits).gems
    ensures var gem := ApplyEdits(st, edits).gems[id];
      TrueGem(s, id, gem) || (id in st.gems && gem == st.gems[id])
  {
    if edits != [] {
      var front, last := edits[..|edits| - 1], edits[|edits| - 1];
      var mid := ApplyEdits(st, front);
      EditAt(mid, last, id);
      assert GemAt(ApplyEdits(st, edits), id).Some?;
      assert last in edits;
      if id in mid.gems {
        GemsAreTrue(s, st, front, id);
      }
    }
  }

  // A gem that is not taken off stays what it was.
  lemma {:induction false} GemsStay(st: Browser, edits: seq<Edit>, id: CollectibleId)
    requires id in st.gems && RemoveGem(id) !in edits
    ensures id in ApplyEdits(st, edits).gems && ApplyEdits(st, edits).gems[id] == st.gems[id]
  {
    if edits != [] {
      var front, last := edits[..|edits| - 1], edits[|edits| - 1];
      assert edits == front + [last];
      GemsStay(st, front, id);
      EditAt(ApplyEdits(st, front), last, id);
      assert GemAt(ApplyEdits(st, edits), id) == Some(st.gems[id]);
    }
  }

  // ------------------------------------------------------------------
  // The edits of an update
  // ------------------------------------------------------------------

  ghost function AllEdits(order: seq<Kind>, self: PlayerId, n: Changes): seq<Edit> {
    if order == [] then []
    else AllEdits(order[..|order| - 1], self, n) + EditsOf(order[|order| - 1], self, n)
  }

  lemma {:induction false} EditsInTurn(st: Browser, front: seq<Edit>, back: seq<Edit>)
    ensures ApplyEdits(st, front + back) == ApplyEdits(ApplyEdits(st, front), back)
  {
    if back == [] {
      assert front + back == front;
    } else {
      var most := back[..|back| - 1];
      assert (front + back)[..|front + back| - 1] == front + most;
      EditsInTurn(st, front, most);
    }
  }

  lemma {:induction false} ListsAreEdits(order: seq<Kind>, self: PlayerId, n: Changes, st: Browser)
    ensures ApplyLists(order, self, n, st) == ApplyEdits(st, AllEdits(order, self, n))
  {
    if order != [] {
      hide EditsOf, ApplyEdits;
      ListsAreEdits(order[..|order| - 1], self, n, st);
      EditsInTurn(st, AllEdits(order[..|order| - 1], self, n), EditsOf(order[|order| - 1], self, n));
    } else {
      assert ApplyEdits(st, []) == st;
    }
  }

  lemma {:induction false} EveryEdit(order: seq<Kind>, self: PlayerId, n: Changes, e: Edit)
    ensures e in AllEdits(order, self, n) <==> exists k :: k in order && e in EditsOf(k, self, n)
  {
    if order != [] {
      hide EditsOf;
      EveryEdit(order[..|order| - 1], self, n, e);
      assert order == order[..|order| - 1] + [order[|order| - 1]];
    }
  }

  // A normal form brings in nothing of its own.
  lemma NormalMembers(self: PlayerId, c: Changes, n: Changes)
    requires IsNormalOf(self, c, n)
    ensures n.selfPosition == c.selfPosition
    ensures forall x | x in n.entered :: x in c.entered
    ensures forall x | x in n.positions :: x in c.positions
    ensures forall x | x in n.appearances :: x in c.appearances
    ensures forall x | x in n.collectiblesEntered :: x in c.collectiblesEntered
    ensures forall x | x in n.collectiblesSpawned :: x in c.collectiblesSpawned
  {
    hide Keep, Ids, ToSet, SortedById, Ascending;
    var left := ToSet(c.leftPlayerIds);
    var newcomers := Keep(c.entered, StateId, left + {self});
    var gone := ToSet(c.collectibleIdsLeft) + ToSet(c.collectibleIdsCollected);
    var spawned := Keep(c.collectiblesSpawned, ItemId, gone);
    SortedMembers(n.entered, c.entered, StateId, left + {self});
    SortedMembers(n.positions, c.positions, PositionId, left + {self} + Ids(newcomers, StateId));
    SortedMembers(n.collectiblesEntered, c.collectiblesEntered, ItemId, gone + Ids(spawned, ItemId));
    SortedMembers(n.collectiblesSpawned, c.collectiblesSpawned, ItemId, gone);
    forall x | x in n.appearances
      ensures x in c.appearances
    {
      LastUpdateIsOf(c.appearances, x.playerId);
    }
  }

  lemma SortedMembers<T>(sorted: seq<T>, items: seq<T>, id: T -> int, drop: set<int>)
    requires Sorts(sorted, Keep(items, id, drop), id)
    ensures forall x | x in sorted :: x in items
  {
    SortedIds(sorted, Keep(items, id, drop), id);
    KeptIds(items, id, drop);
  }

  lemma EditIsOf<T>(items: seq<T>, edit: T -> Edit, e: Edit)
    requires e in Edits(items, edit)
    ensures exists x :: x in items && e == edit(x)
  {
    var i :| 0 <= i < |items| && Edits(items, edit)[i] == e;
    assert items[i] in items;
  }

  lemma EditsAreTrue(s: HubState, job: Builder.ReplicationJob, n: Changes, kind: Kind, e: Edit)
    requires Hub.TrueJob(s, job) && IsNormalOf(job.recipientId, job.changes, n)
    requires e in EditsOf(kind, job.recipientId, n)
    ensures TrueEdit(s, e)
  {
    hide IsNormalOf, Keep;
    var r := job.recipientId;
    NormalMembers(r, job.changes, n);
    var left := ToSet(n.leftPlayerIds);
    match kind
    case EnteredPlayers =>
      KeptIds(n.entered, StateId, left + {r});
      EditIsOf(Keep(n.entered, StateId, left + {r}), UpsertOf, e);
    case Positions =>
      KeptIds(n.positions, PositionId, left + {r});
      EditIsOf(Keep(n.positions, PositionId, left + {r}), SetPlaceOf, e);
    case Appearances =>
      KeptIds(n.appearances, AppearanceId, left);
      EditIsOf(Keep(n.appearances, AppearanceId, left), SetLookOf, e);
    case GemsEntered => EditIsOf(n.collectiblesEntered, AddGemOf, e);
    case GemsSpawned => EditIsOf(n.collectiblesSpawned, AddGemOf, e);
    case _ =>
  }

  // Whom the edits of a normal form tell of.

  lemma EnteredAreNamed(self: PlayerId, n: Changes, p: PlayerId)
    requires Consistent(self, n) && p in Ids(n.entered, StateId)
    ensures var edits := EditsOf(EnteredPlayers, self, n);
      NamedBy(edits, p) && PlacedBy(edits, p) && DressedBy(edits, p)
  {
    hide Keep;
    var drop := ToSet(n.leftPlayerIds) + {self};
    KeptIds(n.entered, StateId, drop);
    IsEdited(Keep(n.entered, StateId, drop), StateId, UpsertOf, p);
  }

  lemma MoversArePlaced(self: PlayerId, n: Changes, p: PlayerId)
    requires Consistent(self, n) && p in Ids(n.positions, PositionId)
    ensures PlacedBy(EditsOf(Positions, self, n), p)
  {
    hide Keep;
    var drop := ToSet(n.leftPlayerIds) + {self};
    KeptIds(n.positions, PositionId, drop);
    IsEdited(Keep(n.positions, PositionId, drop), PositionId, SetPlaceOf, p);
  }

  lemma LooksAreDressed(self: PlayerId, n: Changes, p: PlayerId)
    requires Consistent(self, n) && p in Ids(n.appearances, AppearanceId)
    ensures DressedBy(EditsOf(Appearances, self, n), p)
  {
    hide Keep;
    var drop := ToSet(n.leftPlayerIds);
    KeptIds(n.appearances, AppearanceId, drop);
    var x :| x in n.appearances && AppearanceId(x) == p;
    IsEdited(Keep(n.appearances, AppearanceId, drop), AppearanceId, SetLookOf, p);
  }

  lemma OneselfIsPlaced(self: PlayerId, n: Changes)
    requires n.selfPosition.Some?
    ensures PlacedBy(EditsOf(OwnPosition, self, n), self)
  {
    assert SetPlace(self, n.selfPosition.value.lat, n.selfPosition.value.lng) in EditsOf(OwnPosition, self, n);
  }

  lemma IsEdited<T>(items: seq<T>, id: T -> int, edit: T -> Edit, p: int)
    requires p in Ids(items, id)
    ensures exists x :: x in items && id(x) == p && edit(x) in Edits(items, edit)
  {
    var i :| 0 <= i < |items| && id(items[i]) == p;
    assert Edits(items, edit)[i] == edit(items[i]);
  }

  lemma ByAll(order: seq<Kind>, self: PlayerId, n: Changes, kind: Kind, p: PlayerId)
    requires kind in order
    ensures PlacedBy(EditsOf(kind, self, n), p) ==> PlacedBy(AllEdits(order, self, n), p)
    ensures DressedBy(EditsOf(kind, self, n), p) ==> DressedBy(AllEdits(order, self, n), p)
    ensures NamedBy(EditsOf(kind, self, n), p) ==> NamedBy(AllEdits(order, self, n), p)
  {
    hide EditsOf;
    forall e | e in EditsOf(kind, self, n)
      ensures e in AllEdits(order, self, n)
    {
      EveryEdit(order, self, n, e);
    }
  }

  // ------------------------------------------------------------------
  // The result
  // ------------------------------------------------------------------

  // After a browser has handled a true job's update, in any normal form and any
  // order of its lists: every gem it showed and still shows is as it was, and
  // every other is where the field has it; every marker of a player the job places, names or dresses is right
  // about that, the browser's own marker included; and whatever is said of a
  // player is either right or as it was before.
  lemma UpdateShowsTheTruth(s: HubState, job: Builder.ReplicationJob, n: Changes, lists: seq<Kind>, browser: Browser)
    requires Hub.TrueJob(s, job) && IsNormalOf(job.recipientId, job.changes, n)
    requires forall k: Kind :: k in lists
    ensures var after := ApplyLists(lists, job.recipientId, n, browser);
      && (forall id | id in after.gems ::
            if id in browser.gems then after.gems[id] == browser.gems[id] else TrueGem(s, id, after.gems[id]))
      && (forall p | p in after.markers :: MarkerAfter(s, browser, job, p, after.markers[p]))
  {
    hide IsNormalOf, ApplyLists, AllEdits, EditsOf, Hub.TrueJob, ApplyEdits, TrueMarker, TrueGem, TrueEdit;
    var r := job.recipientId;
    var edits := AllEdits(lists, r, n);
    ListsAreEdits(lists, r, n, browser);
    forall e | e in edits
      ensures TrueEdit(s, e)
    {
      EveryEdit(lists, r, n, e);
      var k :| k in lists && e in EditsOf(k, r, n);
      EditsAreTrue(s, job, n, k, e);
    }
    var after := ApplyEdits(browser, edits);
    forall id | id in after.gems
      ensures if id in browser.gems then after.gems[id] == browser.gems[id] else TrueGem(s, id, after.gems[id])
    {
      GemsAreTrue(s, browser, edits, id);
      if id in browser.gems {
        StillThere(lists, job, n, browser, id);
        GemsStay(browser, edits, id);
      }
    }
    forall p | p in after.markers
      ensures MarkerAfter(s, browser, job, p, after.markers[p])
    {
      MarkersAreTrue(s, browser, edits, p);
      ToldByJob(lists, job, n, browser, p);
      MarkerIsAfter(s, browser, job, edits, p, after.markers[p]);
    }
  }

  // What is still shown is not taken off by any edit.
  lemma StillThere(lists: seq<Kind>, job: Builder.ReplicationJob, n: Changes, browser: Browser, id: CollectibleId)
    requires IsNormalOf(job.recipientId, job.changes, n)
    requires forall k: Kind :: k in lists
    requires id in ApplyLists(lists, job.recipientId, n, browser).gems
    ensures RemoveGem(id) !in AllEdits(lists, job.recipientId, n)
  {
    hide ApplyLists, AllEdits, EditsOf, IsNormalOf, Ids;
    var r, c := job.recipientId, job.changes;
    UpdateMeans(lists, r, c, n, browser);
    NormalIds(r, c, n);
    EveryEdit(lists, r, n, RemoveGem(id));
    forall k: Kind
      ensures RemoveGem(id) !in EditsOf(k, r, n)
    {
      NotTakenOff(k, r, n, id);
    }
  }

  lemma NotTakenOff(kind: Kind, self: PlayerId, n: Changes, id: CollectibleId)
    requires id !in ToSet(n.collectibleIdsLeft) && id !in ToSet(n.collectibleIdsCollected)
    ensures RemoveGem(id) !in EditsOf(kind, self, n)
  {
    hide Keep;
  }

  // Whether a job says where, or who, or how a player is.

  predicate SaysWhere(job: Builder.ReplicationJob, p: PlayerId) {
    var c := job.changes;
    if p == job.recipientId then c.selfPosition.Some?
    else p in Ids(c.positions, PositionId) || p in Ids(c.entered, StateId)
  }

  predicate SaysWho(job: Builder.ReplicationJob, p: PlayerId) {
    p != job.recipientId && p in Ids(job.changes.entered, StateId)
  }

  predicate SaysHow(job: Builder.ReplicationJob, p: PlayerId) {
    || SaysWho(job, p)
    || (p in Ids(job.changes.appearances, AppearanceId) && p !in job.changes.leftPlayerIds)
  }

  predicate MarkerAfter(s: HubState, browser: Browser, job: Builder.ReplicationJob, p: PlayerId, m: Marker) {
    && (TruePlace(s, p, m.lat, m.lng)
        || (!SaysWhere(job, p) && p in browser.markers
            && m.lat == browser.markers[p].lat && m.lng == browser.markers[p].lng))
    && (TrueName(s, p, m.username)
        || (!SaysWho(job, p) && p in browser.markers && m.username == browser.markers[p].username))
    && (TrueLook(s, p, m.appearance)
        || (!SaysHow(job, p) && p in browser.markers && m.appearance == browser.markers[p].appearance))
  }

  // What a job says of a player whose marker stays is among the edits.
  lemma ToldByJob(lists: seq<Kind>, job: Builder.ReplicationJob, n: Changes, browser: Browser, p: PlayerId)
    requires IsNormalOf(job.recipientId, job.changes, n)
    requires forall k: Kind :: k in lists
    requires p in ApplyLists(lists, job.recipientId, n, browser).markers
    ensures var edits := AllEdits(lists, job.recipientId, n);
      && (SaysWhere(job, p) ==> PlacedBy(edits, p))
      && (SaysWho(job, p) ==> NamedBy(edits, p))
      && (SaysHow(job, p) ==> DressedBy(edits, p))
  {
    hide IsNormalOf, ApplyLists, AllEdits, EditsOf, Ids, PlacedBy, NamedBy, DressedBy, Consistent;
    var r, c := job.recipientId, job.changes;
    NormalIsConsistent(r, c, n);
    NormalIds(r, c, n);
    if p in Ids(c.appearances, AppearanceId) && p !in c.leftPlayerIds && p !in Ids(n.entered, StateId) {
      NormalLooks(r, c, n, p);
    }
    UpdateMeans(lists, r, c, n, browser);
    ByAll(lists, r, n, EnteredPlayers, p);
    ByAll(lists, r, n, Positions, p);
    ByAll(lists, r, n, Appearances, p);
    ByAll(lists, r, n, OwnPosition, p);
    if p in Ids(n.entered, StateId) {
      EnteredAreNamed(r, n, p);
    }
    if p in Ids(n.positions, PositionId) {
      MoversArePlaced(r, n, p);
    }
    if p in Ids(n.appearances, AppearanceId) {
      LooksAreDressed(r, n, p);
    }
    if p == r && c.selfPosition.Some? {
      NormalMembers(r, c, n);
      OneselfIsPlaced(r, n);
    }
  }

  // Looks are kept of those that are neither gone nor new.
  lemma NormalLooks(self: PlayerId, c: Changes, n: Changes, p: PlayerId)
    requires IsNormalOf(self, c, n) && p in Ids(c.appearances, AppearanceId)
    requires p !in c.leftPlayerIds && p !in Ids(n.entered, StateId)
    ensures p in Ids(n.appearances, AppearanceId)
  {
    hide Keep, Sorts, Ascending;
    var newcomers := Keep(c.entered, StateId, ToSet(c.leftPlayerIds) + {self});
    SortedIds(n.entered, newcomers, StateId);
    var x :| x in c.appearances && x.playerId == p;
    var y :| y in n.appearances && y.playerId == x.playerId;
    assert AppearanceId(y) == p;
  }

  lemma MarkerIsAfter(s: HubState, browser: Browser, job: Builder.ReplicationJob, edits: seq<Edit>, p: PlayerId,
                      m: Marker)
    requires TrueMarker(s, browser, edits, p, m)
    requires SaysWhere(job, p) ==> PlacedBy(edits, p)
    requires SaysWho(job, p) ==> NamedBy(edits, p)
    requires SaysHow(job, p) ==> DressedBy(edits, p)
    ensures MarkerAfter(s, browser, job, p, m)
  {
  }
}

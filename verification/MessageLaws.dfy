// Why changes are normalised: once they are, a client may apply the lists in
// any order, and normalising again changes nothing.
module MessageLaws {
  import opened Common
  import opened Sequences
  import opened Messages

  // ------------------------------------------------------------------
  // The browser's side
  // ------------------------------------------------------------------

  datatype Marker = Marker(username: string, lat: real, lng: real, appearance: Appearance)

  datatype Gem = Gem(regionId: string, lat: real, lng: real)

  datatype Browser = Browser(markers: map<PlayerId, Marker>, gems: map<CollectibleId, Gem>)

  // What handling one entry of a list does to the client.
  datatype Edit =
    | RemoveMarker(id: int)
    | Upsert(id: int, marker: Marker)
    | SetPlace(id: int, lat: real, lng: real)
    | SetLook(id: int, appearance: Appearance)
    | AddGem(id: int, gem: Gem)
    | RemoveGem(id: int)

  // Updates of unknown players and removals of unknown ids do nothing; a gem
  // already shown is not replaced.
  function ApplyEdit(st: Browser, e: Edit): Browser {
    match e
    case RemoveMarker(id) => st.(markers := st.markers - {id})
    case Upsert(id, marker) => st.(markers := st.markers[id := marker])
    case SetPlace(id, lat, lng) =>
      if id in st.markers then st.(markers := st.markers[id := st.markers[id].(lat := lat, lng := lng)]) else st
    case SetLook(id, appearance) =>
      if id in st.markers then st.(markers := st.markers[id := st.markers[id].(appearance := appearance)]) else st
    case AddGem(id, gem) =>
      if id in st.gems then st else st.(gems := st.gems[id := gem])
    case RemoveGem(id) => st.(gems := st.gems - {id})
  }

  function ApplyEdits(st: Browser, edits: seq<Edit>): Browser {
    if edits == [] then st
    else ApplyEdit(ApplyEdits(st, edits[..|edits| - 1]), edits[|edits| - 1])
  }

  // The lists of an update message.
  datatype Kind =
    | LeftPlayers
    | OwnPosition
    | EnteredPlayers
    | Positions
    | Appearances
    | GemsEntered
    | GemsLeft
    | GemsSpawned
    | GemsCollected

  function UpsertOf(x: PlayerState): Edit { Upsert(x.id, Marker(x.username, x.lat, x.lng, x.appearance)) }
  function SetPlaceOf(x: PlayerPosition): Edit { SetPlace(x.id, x.lat, x.lng) }
  function SetLookOf(x: AppearanceUpdate): Edit { SetLook(x.playerId, x.appearance) }
  function AddGemOf(x: Item): Edit { AddGem(x.id, Gem(x.regionId, x.lat, x.lng)) }
  function AppearanceId(x: AppearanceUpdate): int { x.playerId }
  function Itself(x: int): int { x }

  function Edits<T>(items: seq<T>, edit: T -> Edit): (edits: seq<Edit>)
    ensures |edits| == |items| && forall i | 0 <= i < |items| :: edits[i] == edit(items[i])
  {
    seq(|items|, i requires 0 <= i < |items| => edit(items[i]))
  }

  // The edits one list makes, with the guards the browser has of its own.
  function EditsOf(kind: Kind, self: PlayerId, n: Changes): seq<Edit> {
    var left := ToSet(n.leftPlayerIds);
    match kind
    case LeftPlayers => Edits(Keep(n.leftPlayerIds, Itself, {self}), (id: int) => RemoveMarker(id))
    case OwnPosition =>
      (match n.selfPosition case Some(p) => [SetPlace(self, p.lat, p.lng)] case None => [])
    case EnteredPlayers => Edits(Keep(n.entered, StateId, left + {self}), UpsertOf)
    case Positions => Edits(Keep(n.positions, PositionId, left + {self}), SetPlaceOf)
    case Appearances => Edits(Keep(n.appearances, AppearanceId, left), SetLookOf)
    case GemsEntered => Edits(n.collectiblesEntered, AddGemOf)
    case GemsLeft => Edits(n.collectibleIdsLeft, (id: int) => RemoveGem(id))
    case GemsSpawned => Edits(n.collectiblesSpawned, AddGemOf)
    case GemsCollected => Edits(n.collectibleIdsCollected, (id: int) => RemoveGem(id))
  }

  // Handling the lists one after the other in some order.
  function ApplyLists(order: seq<Kind>, self: PlayerId, n: Changes, st: Browser): Browser {
    if order == [] then st
    else ApplyEdits(ApplyLists(order[..|order| - 1], self, n, st), EditsOf(order[|order| - 1], self, n))
  }

  // ------------------------------------------------------------------
  // Independent edits commute
  // ------------------------------------------------------------------

  predicate OnGem(e: Edit) {
    e.AddGem? || e.RemoveGem?
  }

  predicate Independent(e: Edit, f: Edit) {
    || OnGem(e) != OnGem(f)
    || e.id != f.id
    || (e.RemoveGem? && f.RemoveGem?)
    || (e.SetPlace? && f.SetLook?)
    || (e.SetLook? && f.SetPlace?)
  }

  ghost predicate AllIndependent(es: seq<Edit>, fs: seq<Edit>) {
    forall e, f | e in es && f in fs :: Independent(e, f)
  }

  // Each edit only changes the entry of its own id.
  lemma EditsCommute(st: Browser, e: Edit, f: Edit)
    requires Independent(e, f)
    ensures ApplyEdit(ApplyEdit(st, e), f) == ApplyEdit(ApplyEdit(st, f), e)
  {
    hide ApplyEdit;
    var l, r := ApplyEdit(ApplyEdit(st, e), f), ApplyEdit(ApplyEdit(st, f), e);
    forall k: int
      ensures MarkerAt(l, k) == MarkerAt(r, k) && GemAt(l, k) == GemAt(r, k)
    {
      EditAt(st, e, k);
      EditAt(st, f, k);
      EditAt(ApplyEdit(st, e), f, k);
      EditAt(ApplyEdit(st, f), e, k);
    }
    SameBrowser(l, r);
  }

  function MarkerAt(st: Browser, k: int): Option<Marker> {
    if k in st.markers then Some(st.markers[k]) else None
  }

  function GemAt(st: Browser, k: int): Option<Gem> {
    if k in st.gems then Some(st.gems[k]) else None
  }

  // What an edit does to the marker and the gem of its id.

  function EditMarker(e: Edit, m: Option<Marker>): Option<Marker> {
    match e
    case RemoveMarker(_) => None
    case Upsert(_, marker) => Some(marker)
    case SetPlace(_, lat, lng) => if m.Some? then Some(m.value.(lat := lat, lng := lng)) else m
    case SetLook(_, appearance) => if m.Some? then Some(m.value.(appearance := appearance)) else m
    case _ => m
  }

  function EditGem(e: Edit, g: Option<Gem>): Option<Gem> {
    match e
    case AddGem(_, gem) => if g.Some? then g else Some(gem)
    case RemoveGem(_) => None
    case _ => g
  }

  lemma EditAt(st: Browser, e: Edit, k: int)
    ensures MarkerAt(ApplyEdit(st, e), k) == if k == e.id then EditMarker(e, MarkerAt(st, k)) else MarkerAt(st, k)
    ensures GemAt(ApplyEdit(st, e), k) == if k == e.id then EditGem(e, GemAt(st, k)) else GemAt(st, k)
  {
  }

  lemma SameBrowser(a: Browser, b: Browser)
    requires forall k: int :: MarkerAt(a, k) == MarkerAt(b, k) && GemAt(a, k) == GemAt(b, k)
    ensures a == b
  {
    forall k: int
      ensures k in a.markers <==> k in b.markers
      ensures k in a.markers && k in b.markers ==> a.markers[k] == b.markers[k]
    {
      assert MarkerAt(a, k) == MarkerAt(b, k);
    }
    assert a.markers == b.markers;
    forall k: int
      ensures k in a.gems <==> k in b.gems
      ensures k in a.gems && k in b.gems ==> a.gems[k] == b.gems[k]
    {
      assert GemAt(a, k) == GemAt(b, k);
    }
    assert a.gems == b.gems;
  }

  lemma {:induction false} EditPassesList(st: Browser, e: Edit, fs: seq<Edit>)
    requires forall f | f in fs :: Independent(e, f)
    ensures ApplyEdits(ApplyEdit(st, e), fs) == ApplyEdit(ApplyEdits(st, fs), e)
  {
    if fs != [] {
      var front, last := fs[..|fs| - 1], fs[|fs| - 1];
      EditPassesList(st, e, front);
      EditsCommute(ApplyEdits(st, front), e, last);
    }
  }

  lemma {:induction false} ListsCommute(st: Browser, es: seq<Edit>, fs: seq<Edit>)
    requires AllIndependent(es, fs)
    ensures ApplyEdits(ApplyEdits(st, es), fs) == ApplyEdits(ApplyEdits(st, fs), es)
  {
    if es != [] {
      var front, last := es[..|es| - 1], es[|es| - 1];
      ListsCommute(st, front, fs);
      EditPassesList(ApplyEdits(st, front), last, fs);
    }
  }

  // ------------------------------------------------------------------
  // The lists of a normal form are independent
  // ------------------------------------------------------------------

  // What the edits of a list can look like.
  ghost predicate Possible(kind: Kind, self: PlayerId, n: Changes, e: Edit) {
    match kind
    case LeftPlayers => e.RemoveMarker? && e.id in ToSet(n.leftPlayerIds) && e.id != self
    case OwnPosition => e.SetPlace? && e.id == self
    case EnteredPlayers => e.Upsert? && e.id in Ids(n.entered, StateId) && e.id != self
    case Positions => e.SetPlace? && e.id in Ids(n.positions, PositionId) && e.id != self
    case Appearances => e.SetLook? && exists x | x in n.appearances :: x.playerId == e.id
    case GemsEntered => e.AddGem? && e.id in Ids(n.collectiblesEntered, ItemId)
    case GemsLeft => e.RemoveGem? && e.id in ToSet(n.collectibleIdsLeft)
    case GemsSpawned => e.AddGem? && e.id in Ids(n.collectiblesSpawned, ItemId)
    case GemsCollected => e.RemoveGem? && e.id in ToSet(n.collectibleIdsCollected)
  }

  lemma EditsArePossible(kind: Kind, self: PlayerId, n: Changes, e: Edit)
    requires e in EditsOf(kind, self, n)
    ensures Possible(kind, self, n, e)
  {
    hide Keep;
    var left := ToSet(n.leftPlayerIds);
    KeptIds(n.leftPlayerIds, Itself, {self});
    KeptIds(n.entered, StateId, left + {self});
    KeptIds(n.positions, PositionId, left + {self});
    KeptIds(n.appearances, AppearanceId, left);
    var i :| 0 <= i < |EditsOf(kind, self, n)| && EditsOf(kind, self, n)[i] == e;
    match kind
    case LeftPlayers =>
      assert Keep(n.leftPlayerIds, Itself, {self})[i] in n.leftPlayerIds;
    case OwnPosition =>
    case EnteredPlayers =>
      var x := Keep(n.entered, StateId, left + {self})[i];
      assert x in n.entered && StateId(x) == e.id;
    case Positions =>
      var x := Keep(n.positions, PositionId, left + {self})[i];
      assert x in n.positions && PositionId(x) == e.id;
    case Appearances =>
      assert Keep(n.appearances, AppearanceId, left)[i] in n.appearances;
    case GemsEntered =>
      var x := n.collectiblesEntered[i];
      assert x in n.collectiblesEntered && ItemId(x) == e.id;
    case GemsLeft =>
      assert n.collectibleIdsLeft[i] in n.collectibleIdsLeft;
    case GemsSpawned =>
      var x := n.collectiblesSpawned[i];
      assert x in n.collectiblesSpawned && ItemId(x) == e.id;
    case GemsCollected =>
      assert n.collectibleIdsCollected[i] in n.collectibleIdsCollected;
  }

  lemma KindsAreIndependent(self: PlayerId, c: Changes, n: Changes, a: Kind, b: Kind)
    requires IsNormalOf(self, c, n) && a != b
    ensures AllIndependent(EditsOf(a, self, n), EditsOf(b, self, n))
  {
    NormalIsConsistent(self, c, n);
    forall e, f | e in EditsOf(a, self, n) && f in EditsOf(b, self, n)
      ensures Independent(e, f)
    {
      EditsArePossible(a, self, n, e);
      EditsArePossible(b, self, n, f);
      PossibleIsIndependent(self, n, a, b, e, f);
    }
  }

  lemma PossibleIsIndependent(self: PlayerId, n: Changes, a: Kind, b: Kind, e: Edit, f: Edit)
    requires Consistent(self, n) && a != b
    requires Possible(a, self, n, e) && Possible(b, self, n, f)
    ensures Independent(e, f)
  {
  }

  // ------------------------------------------------------------------
  // Any order
  // ------------------------------------------------------------------

  function WithoutAt<T>(s: seq<T>, i: nat): seq<T>
    requires i < |s|
  {
    s[..i] + s[i + 1..]
  }

  // Any list can be handled last instead.
  lemma {:induction false} HandledLast(order: seq<Kind>, i: nat, self: PlayerId, c: Changes, n: Changes, st: Browser)
    requires IsNormalOf(self, c, n) && NoDuplicates(order) && i < |order|
    ensures ApplyLists(order, self, n, st)
         == ApplyEdits(ApplyLists(WithoutAt(order, i), self, n, st), EditsOf(order[i], self, n))
    decreases |order|
  {
    hide IsNormalOf, EditsOf;
    var front, last := order[..|order| - 1], order[|order| - 1];
    if i == |order| - 1 {
      assert WithoutAt(order, i) == front;
    } else {
      HandledLast(front, i, self, c, n, st);
      var rest := WithoutAt(order, i);
      assert rest[..|rest| - 1] == WithoutAt(front, i) && rest[|rest| - 1] == last;
      KindsAreIndependent(self, c, n, order[i], last);
      ListsCommute(ApplyLists(WithoutAt(front, i), self, n, st), EditsOf(order[i], self, n), EditsOf(last, self, n));
    }
  }

  // A normal form means the same to a client whatever order its lists are
  // handled in.
  lemma {:induction false} OrderOfListsIsIrrelevant(
      a: seq<Kind>, b: seq<Kind>, self: PlayerId, c: Changes, n: Changes, st: Browser)
    requires IsNormalOf(self, c, n)
    requires NoDuplicates(a) && NoDuplicates(b) && ToSet(a) == ToSet(b)
    ensures ApplyLists(a, self, n, st) == ApplyLists(b, self, n, st)
    decreases |a|
  {
    hide IsNormalOf, EditsOf;
    if a == [] {
      OnlyEmptyListsEmpty(b);
    } else {
      var front, last := a[..|a| - 1], a[|a| - 1];
      assert last in ToSet(b);
      var i :| 0 <= i < |b| && b[i] == last;
      HandledLast(b, i, self, c, n, st);
      var rest := WithoutAt(b, i);
      assert ToSet(front) == ToSet(a) - {last} by { assert a == front + [last]; }
      assert ToSet(rest) == ToSet(b) - {last} by { assert b == b[..i] + [last] + b[i + 1..]; }
      OrderOfListsIsIrrelevant(front, rest, self, c, n, st);
    }
  }

  // ------------------------------------------------------------------
  // What the lists come to
  // ------------------------------------------------------------------

  // The ids the edits remove and add.

  ghost function Removed(es: seq<Edit>): set<PlayerId> {
    set e | e in es && e.RemoveMarker? :: e.id
  }

  ghost function Added(es: seq<Edit>): set<PlayerId> {
    set e | e in es && e.Upsert? :: e.id
  }

  ghost function GemsRemoved(es: seq<Edit>): set<CollectibleId> {
    set e | e in es && e.RemoveGem? :: e.id
  }

  ghost function GemsAdded(es: seq<Edit>): set<CollectibleId> {
    set e | e in es && e.AddGem? :: e.id
  }

  lemma {:induction false} EditsKeys(st: Browser, es: seq<Edit>)
    requires Removed(es) !! Added(es) && GemsRemoved(es) !! GemsAdded(es)
    ensures ApplyEdits(st, es).markers.Keys == st.markers.Keys - Removed(es) + Added(es)
    ensures ApplyEdits(st, es).gems.Keys == st.gems.Keys - GemsRemoved(es) + GemsAdded(es)
  {
    if es != [] {
      var front, last := es[..|es| - 1], es[|es| - 1];
      assert es == front + [last];
      assert Removed(es) == Removed(front) + Removed([last]);
      assert Added(es) == Added(front) + Added([last]);
      assert GemsRemoved(es) == GemsRemoved(front) + GemsRemoved([last]);
      assert GemsAdded(es) == GemsAdded(front) + GemsAdded([last]);
      EditsKeys(st, front);
      EditKeys(ApplyEdits(st, front), last);
    }
  }

  lemma EditKeys(st: Browser, e: Edit)
    ensures ApplyEdit(st, e).markers.Keys == st.markers.Keys - Removed([e]) + Added([e])
    ensures ApplyEdit(st, e).gems.Keys == st.gems.Keys - GemsRemoved([e]) + GemsAdded([e])
  {
    assert forall f | f in [e] :: f == e;
    assert e in [e];
  }

  lemma ListKeys(kind: Kind, self: PlayerId, n: Changes, st: Browser)
    requires Consistent(self, n)
    ensures var after := ApplyEdits(st, EditsOf(kind, self, n));
      && after.markers.Keys ==
           (match kind
            case LeftPlayers => st.markers.Keys - ToSet(n.leftPlayerIds)
            case EnteredPlayers => st.markers.Keys + Ids(n.entered, StateId)
            case _ => st.markers.Keys)
      && after.gems.Keys ==
           (match kind
            case GemsLeft => st.gems.Keys - ToSet(n.collectibleIdsLeft)
            case GemsCollected => st.gems.Keys - ToSet(n.collectibleIdsCollected)
            case GemsEntered => st.gems.Keys + Ids(n.collectiblesEntered, ItemId)
            case GemsSpawned => st.gems.Keys + Ids(n.collectiblesSpawned, ItemId)
            case _ => st.gems.Keys)
  {
    hide ApplyEdits, Consistent;
    var es := EditsOf(kind, self, n);
    ListIds(kind, self, n);
    EditsKeys(st, es);
  }

  // The ids a list removes and adds are those it carries.
  lemma ListIds(kind: Kind, self: PlayerId, n: Changes)
    requires Consistent(self, n)
    ensures var es := EditsOf(kind, self, n);
      && Removed(es) == (if kind == LeftPlayers then ToSet(n.leftPlayerIds) else {})
      && Added(es) == (if kind == EnteredPlayers then Ids(n.entered, StateId) else {})
      && GemsRemoved(es) ==
           (if kind == GemsLeft then ToSet(n.collectibleIdsLeft)
            else if kind == GemsCollected then ToSet(n.collectibleIdsCollected) else {})
      && GemsAdded(es) ==
           (if kind == GemsEntered then Ids(n.collectiblesEntered, ItemId)
            else if kind == GemsSpawned then Ids(n.collectiblesSpawned, ItemId) else {})
  {
    var es := EditsOf(kind, self, n);
    forall e | e in es
      ensures Possible(kind, self, n, e)
    {
      EditsArePossible(kind, self, n, e);
    }
    match kind
    case LeftPlayers => LeftIsListed(self, n);
    case EnteredPlayers => EnteredIsListed(self, n);
    case GemsEntered => ItemsAreListed(n.collectiblesEntered);
    case GemsSpawned => ItemsAreListed(n.collectiblesSpawned);
    case GemsLeft => IdsAreListed(n.collectibleIdsLeft);
    case GemsCollected => IdsAreListed(n.collectibleIdsCollected);
    case _ =>
  }

  lemma ItemsAreListed(items: seq<Item>)
    ensures Ids(items, ItemId) == GemsAdded(Edits(items, AddGemOf))
  {
    var es := Edits(items, AddGemOf);
    forall x | x in items
      ensures ItemId(x) in GemsAdded(es)
    {
      var i :| 0 <= i < |items| && items[i] == x;
      assert es[i] in es;
    }
    forall k | k in GemsAdded(es)
      ensures k in Ids(items, ItemId)
    {
      var i :| 0 <= i < |es| && es[i].AddGem? && es[i].id == k;
      assert items[i] in items && ItemId(items[i]) == k;
    }
  }

  lemma IdsAreListed(ids: seq<CollectibleId>)
    ensures ToSet(ids) == GemsRemoved(Edits(ids, (id: int) => RemoveGem(id)))
  {
    var es := Edits(ids, (id: int) => RemoveGem(id));
    forall x | x in ids
      ensures x in GemsRemoved(es)
    {
      var i :| 0 <= i < |ids| && ids[i] == x;
      assert es[i] in es;
    }
  }

  lemma LeftIsListed(self: PlayerId, n: Changes)
    requires self !in ToSet(n.leftPlayerIds)
    ensures ToSet(n.leftPlayerIds) <= Removed(EditsOf(LeftPlayers, self, n))
  {
    var es := EditsOf(LeftPlayers, self, n);
    KeptIds(n.leftPlayerIds, Itself, {self});
    var kept := Keep(n.leftPlayerIds, Itself, {self});
    forall x | x in ToSet(n.leftPlayerIds)
      ensures x in Removed(es)
    {
      assert x in kept;
      var i :| 0 <= i < |kept| && kept[i] == x;
      assert es[i] in es;
    }
  }

  lemma EnteredIsListed(self: PlayerId, n: Changes)
    requires Ids(n.entered, StateId) !! ToSet(n.leftPlayerIds) + {self}
    ensures Ids(n.entered, StateId) <= Added(EditsOf(EnteredPlayers, self, n))
  {
    var es := EditsOf(EnteredPlayers, self, n);
    var drop := ToSet(n.leftPlayerIds) + {self};
    KeptIds(n.entered, StateId, drop);
    var kept := Keep(n.entered, StateId, drop);
    forall x | x in n.entered
      ensures StateId(x) in Added(es)
    {
      assert StateId(x) in Ids(n.entered, StateId);
      assert x in kept;
      var i :| 0 <= i < |kept| && kept[i] == x;
      assert es[i] in es;
    }
  }

  function When(present: bool, ids: set<int>): set<int> {
    if present then ids else {}
  }

  // The markers and gems shown once the lists in the order have been handled:
  // departures and collections win whatever that order is.

  ghost function MarkersShown(order: seq<Kind>, n: Changes, markers: set<PlayerId>): set<PlayerId> {
    markers
      + When(EnteredPlayers in order, Ids(n.entered, StateId))
      - When(LeftPlayers in order, ToSet(n.leftPlayerIds))
  }

  ghost function GemsShown(order: seq<Kind>, n: Changes, gems: set<CollectibleId>): set<CollectibleId> {
    gems
      + When(GemsEntered in order, Ids(n.collectiblesEntered, ItemId))
      + When(GemsSpawned in order, Ids(n.collectiblesSpawned, ItemId))
      - When(GemsLeft in order, ToSet(n.collectibleIdsLeft))
      - When(GemsCollected in order, ToSet(n.collectibleIdsCollected))
  }

  lemma {:induction false} KeysAfterLists(order: seq<Kind>, self: PlayerId, n: Changes, st: Browser)
    requires Consistent(self, n)
    ensures ApplyLists(order, self, n, st).markers.Keys == MarkersShown(order, n, st.markers.Keys)
    ensures ApplyLists(order, self, n, st).gems.Keys == GemsShown(order, n, st.gems.Keys)
  {
    hide EditsOf, ApplyEdits, ToSet, Ids, MarkersShown, GemsShown, Consistent;
    if order == [] {
      NothingShownYet(n, st);
    } else {
      var front, last := order[..|order| - 1], order[|order| - 1];
      assert order == front + [last];
      KeysAfterLists(front, self, n, st);
      ListKeys(last, self, n, ApplyLists(front, self, n, st));
      MarkersStep(front, last, self, n, st.markers.Keys);
      GemsStep(front, last, self, n, st.gems.Keys);
    }
  }

  lemma NothingShownYet(n: Changes, st: Browser)
    ensures MarkersShown([], n, st.markers.Keys) == st.markers.Keys
    ensures GemsShown([], n, st.gems.Keys) == st.gems.Keys
  {
  }

  lemma MarkersStep(front: seq<Kind>, last: Kind, self: PlayerId, n: Changes, markers: set<PlayerId>)
    requires Consistent(self, n)
    ensures MarkersShown(front + [last], n, markers) ==
      (match last
       case LeftPlayers => MarkersShown(front, n, markers) - ToSet(n.leftPlayerIds)
       case EnteredPlayers => MarkersShown(front, n, markers) + Ids(n.entered, StateId)
       case _ => MarkersShown(front, n, markers))
  {
    hide ToSet, Ids;
  }

  lemma GemsStep(front: seq<Kind>, last: Kind, self: PlayerId, n: Changes, gems: set<CollectibleId>)
    requires Consistent(self, n)
    ensures GemsShown(front + [last], n, gems) ==
      (match last
       case GemsLeft => GemsShown(front, n, gems) - ToSet(n.collectibleIdsLeft)
       case GemsCollected => GemsShown(front, n, gems) - ToSet(n.collectibleIdsCollected)
       case GemsEntered => GemsShown(front, n, gems) + Ids(n.collectiblesEntered, ItemId)
       case GemsSpawned => GemsShown(front, n, gems) + Ids(n.collectiblesSpawned, ItemId)
       case _ => GemsShown(front, n, gems))
  {
    hide ToSet, Ids;
  }

  // A client that has handled every list of an update shows exactly: the
  // players it showed or that entered, less those that left; the collectibles
  // it showed or that came in view or appeared, less those out of view or
  // collected. This is in terms of the changes before normalisation.
  lemma UpdateMeans(order: seq<Kind>, self: PlayerId, c: Changes, n: Changes, st: Browser)
    requires IsNormalOf(self, c, n)
    requires forall k: Kind :: k in order
    ensures var after := ApplyLists(order, self, n, st);
      && after.markers.Keys == st.markers.Keys + (Ids(c.entered, StateId) - {self}) - (ToSet(c.leftPlayerIds) - {self})
      && after.gems.Keys == st.gems.Keys + Ids(c.collectiblesEntered, ItemId) + Ids(c.collectiblesSpawned, ItemId)
           - ToSet(c.collectibleIdsLeft) - ToSet(c.collectibleIdsCollected)
  {
    hide ApplyLists, IsNormalOf, Consistent, Ids, ToSet;
    NormalIsConsistent(self, c, n);
    NormalIds(self, c, n);
    KeysAfterLists(order, self, n, st);
  }

  // ------------------------------------------------------------------
  // The last look wins
  // ------------------------------------------------------------------

  // What looks, applied one after the other, leave of a marker.
  lemma {:induction false} LooksInTurn(updates: seq<AppearanceUpdate>, st: Browser, p: PlayerId)
    ensures var after := MarkerAt(ApplyEdits(st, Edits(updates, SetLookOf)), p);
      after == match LastUpdate(updates, p)
               case None => MarkerAt(st, p)
               case Some(u) => if p in st.markers then Some(st.markers[p].(appearance := u.appearance)) else None
  {
    var edits := Edits(updates, SetLookOf);
    if updates != [] {
      var front, last := updates[..|updates| - 1], updates[|updates| - 1];
      assert edits[..|edits| - 1] == Edits(front, SetLookOf);
      LooksInTurn(front, st, p);
      LastUpdateIsOf(front, p);
      EditAt(ApplyEdits(st, Edits(front, SetLookOf)), SetLookOf(last), p);
    }
  }

  // The looks of a normal form do to the marker of a player that is neither gone
  // nor new what all the updates would have done one after the other.
  lemma NormalLooksMeanTheSame(self: PlayerId, c: Changes, n: Changes, st: Browser, p: PlayerId)
    requires IsNormalOf(self, c, n)
    requires p !in c.leftPlayerIds && p !in Ids(n.entered, StateId)
    ensures MarkerAt(ApplyEdits(st, Edits(n.appearances, SetLookOf)), p)
         == MarkerAt(ApplyEdits(st, Edits(c.appearances, SetLookOf)), p)
  {
    hide Keep, Ascending, ApplyEdits, Edits;
    var newcomers := Keep(c.entered, StateId, ToSet(c.leftPlayerIds) + {self});
    SortedIds(n.entered, newcomers, StateId);
    LooksInTurn(n.appearances, st, p);
    LooksInTurn(c.appearances, st, p);
    SameLast(c.appearances, n.appearances, ToSet(c.leftPlayerIds) + Ids(newcomers, StateId), p);
  }

  lemma SameLast(updates: seq<AppearanceUpdate>, latest: seq<AppearanceUpdate>, drop: set<PlayerId>, p: PlayerId)
    requires LatestAppearances(latest, updates, drop) && p !in drop
    ensures LastUpdate(latest, p) == LastUpdate(updates, p)
  {
    LastUpdateIsOf(updates, p);
    LastUpdateIsOf(latest, p);
  }

  // ------------------------------------------------------------------
  // Normalising twice
  // ------------------------------------------------------------------

  // Equal up to the order of entries with the same id.
  ghost predicate SameUpToTies(n: Changes, m: Changes) {
    && n.selfPosition == m.selfPosition
    && multiset(n.entered) == multiset(m.entered)
    && n.leftPlayerIds == m.leftPlayerIds
    && multiset(n.positions) == multiset(m.positions)
    && n.appearances == m.appearances
    && multiset(n.collectiblesEntered) == multiset(m.collectiblesEntered)
    && n.collectibleIdsLeft == m.collectibleIdsLeft
    && multiset(n.collectiblesSpawned) == multiset(m.collectiblesSpawned)
    && n.collectibleIdsCollected == m.collectibleIdsCollected
  }

  lemma {:induction false} KeepAll<T>(items: seq<T>, id: T -> int, drop: set<int>)
    requires Ids(items, id) !! drop
    ensures Keep(items, id, drop) == items
  {
    if items != [] {
      var front, last := items[..|items| - 1], items[|items| - 1];
      assert items == front + [last];
      assert id(last) in Ids(items, id);
      assert Ids(front, id) <= Ids(items, id);
      KeepAll(front, id, drop);
    }
  }

  lemma {:induction false} LastOfAscending(updates: seq<AppearanceUpdate>, x: AppearanceUpdate)
    requires forall i, j | 0 <= i < j < |updates| :: updates[i].playerId < updates[j].playerId
    requires x in updates
    ensures LastUpdate(updates, x.playerId) == Some(x)
  {
    var front, last := updates[..|updates| - 1], updates[|updates| - 1];
    if last.playerId != x.playerId {
      assert updates == front + [last];
      LastOfAscending(front, x);
    } else {
      var i :| 0 <= i < |updates| && updates[i] == x;
    }
  }

  // A normal form is its own normal form.
  lemma NormalIsFixed(self: PlayerId, c: Changes, n: Changes)
    requires IsNormalOf(self, c, n)
    ensures IsNormalOf(self, n, n)
  {
    hide Keep, Ids, ToSet, LatestAppearances, Sorts, Ascending;
    NormalIsConsistent(self, c, n);
    NothingToDrop(self, n);
    var newcomers := Keep(c.entered, StateId, ToSet(c.leftPlayerIds) + {self});
    var gone := ToSet(c.collectibleIdsLeft) + ToSet(c.collectibleIdsCollected);
    var spawned := Keep(c.collectiblesSpawned, ItemId, gone);
    SortsItself(n.entered, newcomers, StateId);
    SortsItself(n.positions,
      Keep(c.positions, PositionId, ToSet(c.leftPlayerIds) + {self} + Ids(newcomers, StateId)), PositionId);
    SortsItself(n.collectiblesSpawned, spawned, ItemId);
    SortsItself(n.collectiblesEntered, Keep(c.collectiblesEntered, ItemId, gone + Ids(spawned, ItemId)), ItemId);
    LatestIsFixed(n.appearances, c.appearances,
      ToSet(c.leftPlayerIds) + Ids(newcomers, StateId), ToSet(n.leftPlayerIds) + Ids(n.entered, StateId));
  }

  lemma SortsItself<T>(sorted: seq<T>, items: seq<T>, id: T -> int)
    requires Sorts(sorted, items, id)
    ensures Sorts(sorted, sorted, id)
  {
  }

  lemma NothingToDrop(self: PlayerId, n: Changes)
    requires Consistent(self, n)
    ensures var left := ToSet(n.leftPlayerIds);
      var gone := ToSet(n.collectibleIdsLeft) + ToSet(n.collectibleIdsCollected);
      && left - {self} == left
      && Keep(n.entered, StateId, left + {self}) == n.entered
      && Keep(n.positions, PositionId, left + {self} + Ids(n.entered, StateId)) == n.positions
      && Keep(n.collectiblesSpawned, ItemId, gone) == n.collectiblesSpawned
      && Keep(n.collectiblesEntered, ItemId, gone + Ids(n.collectiblesSpawned, ItemId)) == n.collectiblesEntered
  {
    hide Keep, Ids, ToSet;
    var left := ToSet(n.leftPlayerIds);
    var gone := ToSet(n.collectibleIdsLeft) + ToSet(n.collectibleIdsCollected);
    KeepAll(n.entered, StateId, left + {self});
    KeepAll(n.positions, PositionId, left + {self} + Ids(n.entered, StateId));
    KeepAll(n.collectiblesSpawned, ItemId, gone);
    KeepAll(n.collectiblesEntered, ItemId, gone + Ids(n.collectiblesSpawned, ItemId));
  }

  lemma LatestIsFixed(
      latest: seq<AppearanceUpdate>, updates: seq<AppearanceUpdate>, drop: set<PlayerId>, dropped: set<PlayerId>)
    requires LatestAppearances(latest, updates, drop)
    requires forall x | x in latest :: x.playerId !in dropped
    ensures LatestAppearances(latest, latest, dropped)
  {
    forall x | x in latest
      ensures LastUpdate(latest, x.playerId) == Some(x)
    {
      LastOfAscending(latest, x);
    }
  }

  // All normal forms of the same changes agree up to ties.
  lemma NormalFormsAgree(self: PlayerId, c: Changes, n: Changes, m: Changes)
    requires IsNormalOf(self, c, n) && IsNormalOf(self, c, m)
    ensures SameUpToTies(n, m)
  {
    hide Keep, Ids, LatestAppearances;
    AscendingIsUnique(n.leftPlayerIds, m.leftPlayerIds);
    AscendingIsUnique(n.collectibleIdsLeft, m.collectibleIdsLeft);
    AscendingIsUnique(n.collectibleIdsCollected, m.collectibleIdsCollected);
    var drop := ToSet(c.leftPlayerIds) + Ids(Keep(c.entered, StateId, ToSet(c.leftPlayerIds) + {self}), StateId);
    LatestIsUnique(n.appearances, m.appearances, c.appearances, drop);
  }

  lemma LatestIsUnique(
      a: seq<AppearanceUpdate>, b: seq<AppearanceUpdate>, updates: seq<AppearanceUpdate>, drop: set<PlayerId>)
    requires LatestAppearances(a, updates, drop) && LatestAppearances(b, updates, drop)
    ensures a == b
  {
    var ps := seq(|a|, i requires 0 <= i < |a| => a[i].playerId);
    var qs := seq(|b|, i requires 0 <= i < |b| => b[i].playerId);
    LatestAmong(a, b, updates, drop);
    LatestAmong(b, a, updates, drop);
    AscendingIsUnique(ps, qs);
    forall i | 0 <= i < |a|
      ensures a[i] == b[i]
    {
      assert a[i] in a && b[i] in b && ps[i] == qs[i];
    }
  }

  lemma LatestAmong(
      a: seq<AppearanceUpdate>, b: seq<AppearanceUpdate>, updates: seq<AppearanceUpdate>, drop: set<PlayerId>)
    requires LatestAppearances(a, updates, drop) && LatestAppearances(b, updates, drop)
    ensures ToSet(seq(|a|, i requires 0 <= i < |a| => a[i].playerId))
         <= ToSet(seq(|b|, i requires 0 <= i < |b| => b[i].playerId))
  {
    var ps := seq(|a|, i requires 0 <= i < |a| => a[i].playerId);
    var qs := seq(|b|, i requires 0 <= i < |b| => b[i].playerId);
    forall p | p in ps
      ensures p in qs
    {
      var i :| 0 <= i < |ps| && ps[i] == p;
      assert a[i] in a;
      LastUpdateIsOf(updates, p);
      assert a[i] in updates;
      var y :| y in b && y.playerId == p;
      var j :| 0 <= j < |b| && b[j] == y;
      assert qs[j] == p;
    }
  }

  // Normalising a normal form gives it back, up to ties.
  lemma NormaliseTwice(self: PlayerId, c: Changes, n: Changes, m: Changes)
    requires IsNormalOf(self, c, n) && IsNormalOf(self, n, m)
    ensures SameUpToTies(n, m)
  {
    NormalIsFixed(self, c, n);
    NormalFormsAgree(self, n, n, m);
  }

  // Nothing is left to send exactly when everything was about the receiver
  // itself or countermanded by its own departure.
  lemma EmptyIffAboutSelf(self: PlayerId, c: Changes, n: Changes)
    requires IsNormalOf(self, c, n)
    ensures n.IsEmpty() <==>
      && c.selfPosition == None
      && ToSet(c.leftPlayerIds) <= {self}
      && Ids(c.entered, StateId) <= {self}
      && Ids(c.positions, PositionId) <= {self}
      && (forall x | x in c.appearances :: x.playerId in ToSet(c.leftPlayerIds))
      && c.collectiblesEntered == [] && c.collectibleIdsLeft == []
      && c.collectiblesSpawned == [] && c.collectibleIdsCollected == []
  {
    hide Keep, Sorts, LatestAppearances, Ids;
    NormalIds(self, c, n);
    EmptyIds(n.entered, StateId);
    EmptyIds(n.positions, PositionId);
    EmptyIds(n.collectiblesEntered, ItemId);
    EmptyIds(n.collectiblesSpawned, ItemId);
    EmptyIds(c.collectiblesEntered, ItemId);
    EmptyIds(c.collectiblesSpawned, ItemId);
    OnlyEmptyListsEmpty(n.leftPlayerIds);
    OnlyEmptyListsEmpty(n.collectibleIdsLeft);
    OnlyEmptyListsEmpty(n.collectibleIdsCollected);
    OnlyEmptyListsEmpty(c.collectibleIdsLeft);
    OnlyEmptyListsEmpty(c.collectibleIdsCollected);
    var newcomers := Keep(c.entered, StateId, ToSet(c.leftPlayerIds) + {self});
    KeptIds(c.entered, StateId, ToSet(c.leftPlayerIds) + {self});
    EmptyLatest(n.appearances, c.appearances, ToSet(c.leftPlayerIds) + Ids(newcomers, StateId));
  }

  lemma EmptyIds<T>(items: seq<T>, id: T -> int)
    ensures Ids(items, id) == {} <==> items == []
  {
    if items != [] {
      assert id(items[0]) in Ids(items, id);
    }
  }

  lemma EmptyLatest(latest: seq<AppearanceUpdate>, updates: seq<AppearanceUpdate>, drop: set<PlayerId>)
    requires LatestAppearances(latest, updates, drop)
    ensures latest == [] <==> forall x | x in updates :: x.playerId in drop
  {
    if latest != [] {
      LastUpdateIsOf(updates, latest[0].playerId);
      assert latest[0] in updates;
    }
  }
}

// A square grid of buckets, as both spatial indexes keep it, and the sweep of
// the nine cells around a point.
module Grid {
  import opened Geometry
  import opened SetMaps
  import opened Sequences
  import opened AoiModel

  ghost predicate Adjacent(a: Cell, b: Cell) {
    -1 <= b.x - a.x <= 1 && -1 <= b.y - a.y <= 1
  }

  // Every member is in the bucket of its home cell and in no other.
  ghost predicate Houses(cells: map<Cell, set<int>>, homes: map<int, Cell>) {
    forall c, q :: q in Lookup(cells, c) <==> q in homes && homes[q] == c
  }

  // The members of the nine cells around a cell.
  ghost function Around(homes: map<int, Cell>, center: Cell): set<int> {
    set q | q in homes && Adjacent(center, homes[q])
  }

  // The members of those of the nine cells around a center that a sweep by
  // columns has passed when it is about to visit the one at offset (dx, dy).
  ghost function Swept(homes: map<int, Cell>, center: Cell, dx: int, dy: int): set<int> {
    set q | q in homes && Adjacent(center, homes[q]) &&
      (homes[q].x - center.x < dx || (homes[q].x - center.x == dx && homes[q].y - center.y < dy))
  }

  // Points within one cell width of each other lie in adjacent cells.
  lemma NearbyIsAdjacent(cfg: Config, a: Point, b: Point)
    requires DistanceSquared(a, b) <= Square(cfg.cellSize)
    ensures Adjacent(cfg.CellOf(a), cfg.CellOf(b))
  {
    CoordinateBound(a, b, cfg.cellSize);
    AdjacentFloors(b.x, a.x, cfg.cellSize);
    AdjacentFloors(b.y, a.y, cfg.cellSize);
  }

  lemma SweptStart(homes: map<int, Cell>, center: Cell)
    ensures Swept(homes, center, -1, -1) == {}
  {
    forall q
      ensures q !in Swept(homes, center, -1, -1)
    {
    }
  }

  lemma SweptCell(cells: map<Cell, set<int>>, homes: map<int, Cell>, center: Cell, dx: int, dy: int)
    requires Houses(cells, homes) && -1 <= dx <= 1 && -1 <= dy <= 1
    ensures var members := Lookup(cells, Cell(center.x + dx, center.y + dy));
      && members !! Swept(homes, center, dx, dy)
      && Swept(homes, center, dx, dy + 1) == Swept(homes, center, dx, dy) + members
      && members <= homes.Keys
  {
    var cell := Cell(center.x + dx, center.y + dy);
    forall q
      ensures q in Lookup(cells, cell) <==> q in homes && homes[q] == cell
      ensures q in Swept(homes, center, dx, dy + 1) <==> q in Swept(homes, center, dx, dy) || q in Lookup(cells, cell)
    {
    }
  }

  lemma SweptRow(homes: map<int, Cell>, center: Cell, dx: int)
    ensures Swept(homes, center, dx, 2) == Swept(homes, center, dx + 1, -1)
  {
    forall q
      ensures q in Swept(homes, center, dx, 2) <==> q in Swept(homes, center, dx + 1, -1)
    {
    }
  }

  lemma SweptAll(homes: map<int, Cell>, center: Cell)
    ensures Swept(homes, center, 2, -1) == Around(homes, center)
  {
    forall q
      ensures q in Swept(homes, center, 2, -1) <==> q in Around(homes, center)
    {
    }
  }

  // The members of the nine cells around a cell, each once.
  method NineCellMembers(cells: map<Cell, set<int>>, center: Cell, ghost homes: map<int, Cell>) returns (ids: seq<int>)
    requires Houses(cells, homes)
    ensures Lists(ids, Around(homes, center))
  {
    hide Houses, Swept, Around, Lookup;
    ids := [];
    SweptStart(homes, center);
    for dx := -1 to 2
      invariant Lists(ids, Swept(homes, center, dx, -1))
    {
      for dy := -1 to 2
        invariant Lists(ids, Swept(homes, center, dx, dy))
      {
        SweptCell(cells, homes, center, dx, dy);
        ids := Appended(ids, Lookup(cells, Cell(center.x + dx, center.y + dy)), Swept(homes, center, dx, dy));
      }
      SweptRow(homes, center, dx);
    }
    SweptAll(homes, center);
  }

  method Appended(before: seq<int>, members: set<int>, ghost listed: set<int>) returns (ids: seq<int>)
    requires Lists(before, listed) && members !! listed
    ensures Lists(ids, listed + members)
  {
    ids := before;
    var rest := members;
    ghost var sofar := listed;
    while rest != {}
      invariant sofar !! rest && sofar + rest == listed + members
      invariant Lists(ids, sofar)
    {
      var id := AnyOf(rest);
      ListsAppend(ids, sofar, id);
      ids := ids + [id];
      sofar := sofar + {id};
      rest := rest - {id};
    }
    assert sofar == listed + members;
  }

  lemma AddedHouses(cells: map<Cell, set<int>>, homes: map<int, Cell>, id: int, c: Cell)
    requires Houses(cells, homes) && Compact(cells) && id !in homes
    ensures Houses(AddToCell(cells, id, c), homes[id := c]) && Compact(AddToCell(cells, id, c))
  {
    var more := AddToCell(cells, id, c);
    forall d, q
      ensures q in Lookup(more, d) <==> q in homes[id := c] && homes[id := c][q] == d
    {
      assert Lookup(more, d) == if d == c then Lookup(cells, c) + {id} else Lookup(cells, d);
      assert q in Lookup(cells, d) <==> q in homes && homes[q] == d;
    }
  }

  lemma RemovedHouses(cells: map<Cell, set<int>>, homes: map<int, Cell>, id: int)
    requires Houses(cells, homes) && Compact(cells) && id in homes
    ensures var rest := RemoveFromCell(cells, id, homes[id]);
      Houses(rest, homes - {id}) && Compact(rest)
  {
    var c := homes[id];
    assert id in Lookup(cells, c);
    var rest := RemoveFromCell(cells, id, c);
    forall d, q
      ensures q in Lookup(rest, d) <==> q in homes - {id} && (homes - {id})[q] == d
    {
      assert Lookup(rest, d) == if d == c then Lookup(cells, c) - {id} else Lookup(cells, d);
      assert q in Lookup(cells, d) <==> q in homes && homes[q] == d;
    }
  }
}

/** The client's position and its map of the world, updated in place. */
module ClientMap {
  import opened Torus
  import opened World
  import opened Pose

  class Position {
    var x: int
    var y: int
    var direction: int
    const worldWidth: int
    const worldHeight: int

    constructor (worldWidth: int, worldHeight: int)
      ensures Value() == ORIGIN && this.worldWidth == worldWidth && this.worldHeight == worldHeight
    {
      x, y, direction := 0, 0, 0;
      this.worldWidth, this.worldHeight := worldWidth, worldHeight;
    }

    ghost function Value(): Reckoning
      reads this
    {
      Reckoning(x, y, direction)
    }

    ghost predicate Valid()
      reads this
    {
      ValidReckoning(worldWidth, worldHeight, Value())
    }

    method MoveForward()
      requires Valid()
      modifies this
      ensures Valid() && Value() == Reckons(worldWidth, worldHeight, old(Value()), Avance)
    {
      if direction == 0 {
        y := Rem(y - 1 + worldHeight, worldHeight);
      } else if direction == 1 {
        x := Rem(x + 1, worldWidth);
      } else if direction == 2 {
        y := Rem(y + 1, worldHeight);
      } else if direction == 3 {
        x := Rem(x - 1 + worldWidth, worldWidth);
      }
    }

    method TurnLeft()
      requires Valid()
      modifies this
      ensures Valid() && Value() == Reckons(worldWidth, worldHeight, old(Value()), Gauche)
    {
      direction := Rem(direction + 3, 4);
    }

    method TurnRight()
      requires Valid()
      modifies this
      ensures Valid() && Value() == Reckons(worldWidth, worldHeight, old(Value()), Droite)
    {
      direction := Rem(direction + 1, 4);
    }
  }

  /** What the client remembers of a tile. */
  class Tile {
    var resources: map<Sight, nat>

    constructor ()
      ensures Remembers([])
    {
      resources := map[];
    }

    function Count(s: Sight): nat
      reads this
    {
      if s in resources then resources[s] else 0
    }

    /** Each thing is counted as often as it was listed. */
    ghost predicate Remembers(contents: seq<Sight>)
      reads this
    {
      forall s: Sight :: Count(s) == multiset(contents)[s]
    }

    method Update(contents: seq<Sight>)
      modifies this
      ensures Remembers(contents)
    {
      resources := map[];
      var i := 0;
      while i < |contents|
        invariant 0 <= i <= |contents|
        invariant Remembers(contents[..i])
      {
        var s := contents[i];
        assert contents[..i + 1] == contents[..i] + [s];
        resources := resources[s := Count(s) + 1];
        i := i + 1;
      }
      assert contents[..|contents|] == contents;
    }
  }

  /** The last place of a list that holds the cell, or -1. */
  ghost function LastAt(cells: seq<(int, int)>, cell: (int, int)): (n: int)
    ensures -1 <= n < |cells|
    ensures n >= 0 ==> cells[n] == cell
    ensures forall m | n < m < |cells| :: cells[m] != cell
  {
    if cells == [] then -1
    else if cells[|cells| - 1] == cell then |cells| - 1
    else LastAt(cells[..|cells| - 1], cell)
  }

  lemma LastAtSnoc(cells: seq<(int, int)>, last: (int, int), cell: (int, int))
    ensures LastAt(cells + [last], cell) == if last == cell then |cells| else LastAt(cells, cell)
  {
    assert (cells + [last])[..|cells|] == cells;
  }

  /** The inner loop of generateRelativeOffsets. */
  method GenerateRow(l: nat) returns (row: seq<(int, int)>)
    ensures row == RowOffsets(l)
  {
    row := [];
    var i := -(l as int);
    while i <= l
      invariant -(l as int) <= i <= l + 1
      invariant row == RowOffsets(l)[..i + l]
    {
      row := row + [(i, -(l as int))];
      i := i + 1;
    }
  }

  lemma OffsetsGrow(n: nat)
    ensures Offsets(n + 1) == Offsets(n) + RowOffsets(n)
  {
    assert OffsetRows(n + 1) == OffsetRows(n) + [RowOffsets(n)];
    FlatOfSnoc(OffsetRows(n), RowOffsets(n));
  }

  /** generateRelativeOffsets */
  method GenerateRelativeOffsets(level: nat) returns (offsets: seq<(int, int)>)
    ensures offsets == Offsets(level + 1)
  {
    offsets := [];
    var l := 0;
    while l <= level
      invariant 0 <= l <= level + 1
      invariant offsets == Offsets(l)
    {
      var row := GenerateRow(l);
      OffsetsGrow(l);
      offsets := offsets + row;
      l := l + 1;
    }
  }

  /** The cells that the entries of a view are filed under. */
  ghost function Cells(width: int, height: int, c: Reckoning, offsets: seq<(int, int)>): (r: seq<(int, int)>)
    requires width > 0 && height > 0 && 0 <= c.dir < 4
    ensures |r| == |offsets|
  {
    seq(|offsets|, j requires 0 <= j < |offsets| => Cell(width, height, c, offsets[j].0, offsets[j].1))
  }

  class WorldMap {
    const width: int
    const height: int
    const grid: seq<Tile>  // row after row

    ghost predicate Valid() {
      && width > 0 && height > 0
      && (forall x, y {:trigger TileIndex(width, x, y)} | InMap(width, height, x, y) :: 0 <= TileIndex(width, x, y) < |grid|)
      && (forall i, j | 0 <= i < j < |grid| :: grid[i] != grid[j])
    }

    constructor (width: int, height: int)
      requires width > 0 && height > 0
      ensures Valid() && this.width == width && this.height == height && fresh(grid)
      ensures forall t <- grid :: t.Remembers([])
    {
      var tiles := MakeTiles(width * height);
      this.width, this.height, grid := width, height, tiles;
      new;
      forall x, y {:trigger TileIndex(width, x, y)} | InMap(width, height, x, y)
        ensures 0 <= TileIndex(width, x, y) < |grid|
      {
        TileIndexInRange(width, height, x, y);
      }
    }

    static method MakeTiles(n: nat) returns (tiles: seq<Tile>)
      ensures |tiles| == n && fresh(tiles)
      ensures forall i, j | 0 <= i < j < |tiles| :: tiles[i] != tiles[j]
      ensures forall t <- tiles :: t.Remembers([])
    {
      tiles := [];
      while |tiles| < n
        invariant |tiles| <= n && fresh(tiles)
        invariant forall i, j | 0 <= i < j < |tiles| :: tiles[i] != tiles[j]
        invariant forall t <- tiles :: t.Remembers([])
      {
        var t := new Tile();
        tiles := tiles + [t];
      }
    }

    /** getTile, for a position already wrapped. */
    ghost function At(x: int, y: int): Tile
      requires Valid() && InMap(width, height, x, y)
    {
      grid[TileIndex(width, x, y)]
    }

    /** Different positions are different tiles. */
    lemma TilesApart(x: int, y: int, u: int, v: int)
      requires Valid() && InMap(width, height, x, y) && InMap(width, height, u, v) && (x, y) != (u, v)
      ensures At(x, y) != At(u, v)
    {
      if y != v {
        MultipleIsFar(y - v, width);
        assert (y - v) * width == y * width - v * width;
      }
    }

    /** updateTile: getTile wraps once more. */
    method UpdateTile(x: int, y: int, contents: seq<Sight>)
      requires Valid() && -width < x < width && -height < y < height
      modifies grid
      ensures var cx, cy := Rem(x + width, width), Rem(y + height, height);
        && InMap(width, height, cx, cy) && At(cx, cy).Remembers(contents)
        && forall t <- grid :: t != At(cx, cy) ==> t.resources == old(t.resources)
    {
      RemIsModUpToSign(x + width, width);
      RemIsModUpToSign(y + height, height);
      var wrappedX, wrappedY := Rem(x + width, width), Rem(y + height, height);
      grid[TileIndex(width, wrappedX, wrappedY)].Update(contents);
    }

    /** The body of the loop of updateVisibleTiles. */
    method FileEntry(c: Reckoning, offset: (int, int), entry: seq<Sight>)
      requires Valid() && 0 <= c.dir < 4
      modifies grid
      ensures var cell := Cell(width, height, c, offset.0, offset.1);
        && At(cell.0, cell.1).Remembers(entry)
        && forall x, y | InMap(width, height, x, y) && (x, y) != cell :: At(x, y).resources == old(At(x, y).resources)
    {
      var (dx, dy) := Rotate(offset.0, offset.1, c.dir);
      var tx, ty := Rem(c.x + dx + width, width), Rem(c.y + dy + height, height);
      RemIsModUpToSign(c.x + dx + width, width);
      RemIsModUpToSign(c.y + dy + height, height);
      UpdateTile(tx, ty, entry);
      ghost var cell := Cell(width, height, c, offset.0, offset.1);
      forall x, y | InMap(width, height, x, y) && (x, y) != cell
        ensures At(x, y).resources == old(At(x, y).resources)
      {
        TilesApart(x, y, cell.0, cell.1);
      }
    }

    /** What all the tiles remember. */
    ghost function Memory(): (m: seq<map<Sight, nat>>)
      reads grid
      ensures |m| == |grid| && forall i | 0 <= i < |m| :: m[i] == grid[i].resources
    {
      seq(|grid|, i requires 0 <= i < |grid| reads grid => grid[i].resources)
    }

    /** One cell after some entries were filed: the last entry for it, or what it was before. */
    ghost predicate Filed(cells: seq<(int, int)>, view: seq<seq<Sight>>, before: seq<map<Sight, nat>>, x: int, y: int)
      requires Valid() && InMap(width, height, x, y) && |cells| <= |view| && |before| == |grid|
      reads grid
    {
      var n := LastAt(cells, (x, y));
      if n >= 0 then At(x, y).Remembers(view[n]) else At(x, y).resources == before[TileIndex(width, x, y)]
    }

    ghost predicate AllFiled(cells: seq<(int, int)>, view: seq<seq<Sight>>, before: seq<map<Sight, nat>>)
      requires Valid() && |cells| <= |view| && |before| == |grid|
      reads grid
    {
      forall x, y {:trigger Filed(cells, view, before, x, y)} | InMap(width, height, x, y) :: Filed(cells, view, before, x, y)
    }

    /** One entry more. */
    method FileNext(c: Reckoning, offset: (int, int), view: seq<seq<Sight>>, i: nat,
                    ghost cells: seq<(int, int)>, ghost before: seq<map<Sight, nat>>)
      requires Valid() && 0 <= c.dir < 4 && |cells| == i < |view| && |before| == |grid| && AllFiled(cells, view, before)
      modifies grid
      ensures AllFiled(cells + [Cell(width, height, c, offset.0, offset.1)], view, before)
    {
      ghost var cell := Cell(width, height, c, offset.0, offset.1);
      FileEntry(c, offset, view[i]);
      forall x, y | InMap(width, height, x, y)
        ensures Filed(cells + [cell], view, before, x, y)
      {
        LastAtSnoc(cells, cell, (x, y));
        assert old(Filed(cells, view, before, x, y));
      }
    }

    /**
     updateVisibleTiles: afterwards every tile of the map holds the last entry of the view for it,
     and what no entry is about is as it was.
     */
    method UpdateVisibleTiles(px: int, py: int, direction: int, level: nat, viewData: seq<seq<Sight>>)
      requires Valid() && 0 <= direction < 4 && |viewData| <= |Offsets(level + 1)|
      modifies grid
      ensures AllFiled(Cells(width, height, Reckoning(px, py, direction), Offsets(level + 1)[..|viewData|]), viewData,
                       old(Memory()))
    {
      var relativeOffsets := GenerateRelativeOffsets(level);
      var c := Reckoning(px, py, direction);
      ghost var before := Memory();
      ghost var cells := Cells(width, height, c, relativeOffsets[..|viewData|]);
      var i := 0;
      while i < |viewData|
        invariant 0 <= i <= |viewData|
        invariant AllFiled(cells[..i], viewData, before)
      {
        FileNext(c, relativeOffsets[i], viewData, i, cells[..i], before);
        assert cells[..i + 1] == cells[..i] + [cells[i]];
        i := i + 1;
      }
      assert cells[..i] == cells;
    }
  }

  // ----- the client's map against the server's -----

  /**
   The main result on the map: when the two are aligned and the client files a view of its own
   `n` rows, the last entry for a cell, which is what its tile then remembers, is what the server
   has on the tile under that cell.
   */
  lemma MapMirrorsServer<K>(w: World<K>, k: K, start: Stance, c: Reckoning, n: nat, x: int, y: int)
    requires Shaped(w) && k in w.players && 0 <= c.dir < 4
    requires AxesFit(w.width, w.height, start.dir) && Aligned(w.width, w.height, start, StanceOf(w, k), c)
    ensures |View(w, k, n)| == |Offsets(n)|
    ensures var m := LastAt(Cells(w.width, w.height, c, Offsets(n)), (x, y));
      m >= 0 ==> 0 <= UnderCell(w, start, x, y) < |w.rows| && View(w, k, n)[m] == Contents(w, k, UnderCell(w, start, x, y))
  {
    ViewSize(w, k, n);
    var cells := Cells(w.width, w.height, c, Offsets(n));
    var m := LastAt(cells, (x, y));
    if m >= 0 {
      ViewIsFiledRight(w, k, start, c, n, m);
      assert cells[m] == Cell(w.width, w.height, c, Offsets(n)[m].0, Offsets(n)[m].1);
    }
  }

  /** What a tile that remembers such an entry counts: each resource once if the server has any of it there. */
  lemma RememberedCounts<K>(t: Tile, w: World<K>, k: K, under: nat, kind: Kind)
    requires Shaped(w) && k in w.players && under < |w.rows| && t.Remembers(Contents(w, k, under))
    ensures t.Count(SeesItem(kind)) == if w.items[under][kind] > 0 then 1 else 0
  {
    ContentsCount(w, k, under, kind);
  }
}

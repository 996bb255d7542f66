/**
 Where a broadcast is heard from, by where the speaker stands: the frame is the one the listener sees
 in, `b` tiles ahead of it and `a` to its right.
 */
module Bearings {
  import opened Wrappers
  import opened Torus
  import opened World
  import opened Broadcast
  import B = Broadcast
  import opened Flow

  /** The position b tiles ahead and a to the right. */
  function Toward(width: int, height: int, x: int, y: int, dir: Direction, a: int, b: int): (int, int)
    requires width > 0 && height > 0
  {
    var o := SightOffset(dir, b, a + b);
    (Wrap(x + o.0, width), Wrap(y + o.1, height))
  }

  /** The way there and no other is the shortest: less than half the map on both axes. */
  predicate Near(width: int, height: int, dir: Direction, a: int, b: int) {
    var o := SightOffset(dir, b, a + b);
    2 * Abs(o.0) < width && 2 * Abs(o.1) < height
  }

  lemma DeltaOfShift(v: int, o: int, max: int)
    requires max > 0 && 0 <= v < max && 2 * Abs(o) < max
    ensures MinimalDelta(Wrap(v + o, max) - v, max) == o
  {
    ModUnique(v + o, max, if v + o < 0 then -1 else if v + o < max then 0 else 1,
              if v + o < 0 then v + o + max else if v + o < max then v + o else v + o - max);
  }

  /** The listener's frame is the one it sees in. */
  lemma FrameIsSight(dir: Direction, a: int, b: int)
    ensures var o := SightOffset(dir, b, a + b);
      InFrame(o.0, o.1, DirectionCode(dir)) == (a, b)
  {
  }

  lemma DirectionInSight(width: int, height: int, x: int, y: int, dir: Direction, a: int, b: int)
    requires OnMap(width, height, x, y) && Near(width, height, dir, a, b)
    ensures var (sx, sy) := Toward(width, height, x, y, dir, a, b);
      DirectionOf(x, y, DirectionCode(dir), sx, sy, width, height) == if a == 0 && b == 0 then 0 else Sector(a, b)
  {
    var o := SightOffset(dir, b, a + b);
    DeltaOfShift(x, o.0, width);
    DeltaOfShift(y, o.1, height);
    FrameIsSight(dir, a, b);
  }

  /** The axis, of the eight, that a vector is nearest to. */
  ghost predicate NearestAxis(a: real, b: real, k: int, root: real) {
    && 1 <= k <= 8
    && forall j | 1 <= j <= 8 && j != k :: Along(a, b, k, root) > Along(a, b, j, root)
  }

  lemma SectorIsNearest(a: int, b: int, root: real)
    requires (a != 0 || b != 0) && root > 0.0 && root * root == 2.0
    ensures NearestAxis(a as real, b as real, Sector(a, b), root)
  {
    var x, y, k := a as real, b as real, Sector(a, b);
    SectorQuarterTurn(a, b);
    forall j | 1 <= j <= 8 && j != k
      ensures Along(x, y, k, root) > Along(x, y, j, root)
    {
      SectorIsNearestAxis(a, b, j, root);
    }
  }

  /** The listener hears from the axis nearest to (a, b), or from 0 on its own tile. */
  ghost predicate HearsFrom(p: Player, from: Player, width: int, height: int, a: int, b: int, root: real)
    requires width > 0 && height > 0
  {
    forall text {:trigger HearsAt(p, from, text, width, height)} ::
      var heard := HearsAt(p, from, text, width, height);
      && heard.Reply? && heard.fd == p.fd && heard.status.Heard? && heard.status.text == text
      && if a == 0 && b == 0 then heard.status.direction == 0
         else NearestAxis(a as real, b as real, heard.status.direction, root)
  }

  lemma HearsFromSector(p: Player, from: Player, width: int, height: int, a: int, b: int, root: real)
    requires width > 0 && height > 0 && root > 0.0 && root * root == 2.0
    requires DirectionOf(p.x, p.y, DirectionCode(p.dir), from.x, from.y, width, height)
          == if a == 0 && b == 0 then 0 else Sector(a, b)
    ensures HearsFrom(p, from, width, height, a, b, root)
  {
    if a != 0 || b != 0 {
      SectorIsNearest(a, b, root);
    }
  }

  /**
   A listener hears a speaker that stands b tiles ahead of it and a to its right, less than half the map
   away, from the one of its eight axes that is nearest to the way there; from 0 on its own tile.
   */
  lemma HeardFromWhereItStands(p: Player, from: Player, width: int, height: int, a: int, b: int, root: real)
    requires OnMap(width, height, p.x, p.y) && Near(width, height, p.dir, a, b)
    requires (from.x, from.y) == Toward(width, height, p.x, p.y, p.dir, a, b)
    requires root > 0.0 && root * root == 2.0
    ensures HearsFrom(p, from, width, height, a, b, root)
  {
    DirectionInSight(width, height, p.x, p.y, p.dir, a, b);
    HearsFromSector(p, from, width, height, a, b, root);
  }

  lemma DeltaLeadsThere(v: int, e: int, max: int)
    requires 0 <= v < max && 0 <= e < max
    ensures Wrap(v + MinimalDelta(e - v, max), max) == e && 2 * Abs(MinimalDelta(e - v, max)) <= max
  {
    var d := MinimalDelta(e - v, max);
    ModUnique(v + d, max, if d == e - v then 0 else if d < e - v then -1 else 1, e);
  }

  /** Every displacement is an offset of sight. */
  lemma SightOfFrame(dx: int, dy: int, dir: Direction) returns (a: int, b: int)
    ensures SightOffset(dir, b, a + b) == (dx, dy)
    ensures B.Heard(dx, dy, DirectionCode(dir)) == if a == 0 && b == 0 then 0 else Sector(a, b)
  {
    a, b := InFrame(dx, dy, DirectionCode(dir)).0, InFrame(dx, dy, DirectionCode(dir)).1;
  }

  lemma FrameLeadsThere(x: int, y: int, dir: Direction, ex: int, ey: int, width: int, height: int) returns (a: int, b: int)
    requires OnMap(width, height, x, y) && OnMap(width, height, ex, ey)
    ensures (ex, ey) == Toward(width, height, x, y, dir, a, b)
    ensures var o := SightOffset(dir, b, a + b);
      2 * Abs(o.0) <= width && 2 * Abs(o.1) <= height
    ensures DirectionOf(x, y, DirectionCode(dir), ex, ey, width, height) == if a == 0 && b == 0 then 0 else Sector(a, b)
  {
    var dx, dy := MinimalDelta(ex - x, width), MinimalDelta(ey - y, height);
    DeltaLeadsThere(x, ex, width);
    DeltaLeadsThere(y, ey, height);
    a, b := SightOfFrame(dx, dy, dir);
  }

  /**
   Any listener and any speaker on the map: the listener hears the speaker from the axis nearest to a
   way there that is at most half the map long on both axes, so that none is shorter.
   */
  lemma HeardOverAShortestWay(p: Player, from: Player, width: int, height: int, root: real) returns (a: int, b: int)
    requires OnMap(width, height, p.x, p.y) && OnMap(width, height, from.x, from.y)
    requires root > 0.0 && root * root == 2.0
    ensures (from.x, from.y) == Toward(width, height, p.x, p.y, p.dir, a, b)
    ensures var o := SightOffset(p.dir, b, a + b);
      2 * Abs(o.0) <= width && 2 * Abs(o.1) <= height
    ensures HearsFrom(p, from, width, height, a, b, root)
  {
    a, b := FrameLeadsThere(p.x, p.y, p.dir, from.x, from.y, width, height);
    HearsFromSector(p, from, width, height, a, b, root);
  }

  lemma AheadIsToward(width: int, height: int, x: int, y: int, dir: Direction)
    requires OnMap(width, height, x, y)
    ensures Toward(width, height, x, y, dir, 0, 1) == Ahead(width, height, x, y, dir)
    ensures Toward(width, height, x, y, dir, -1, 0) == Ahead(width, height, x, y, TurnLeft(dir))
    ensures Toward(width, height, x, y, dir, 0, -1) == Ahead(width, height, x, y, TurnLeft(TurnLeft(dir)))
    ensures Toward(width, height, x, y, dir, 1, 0) == Ahead(width, height, x, y, TurnRight(dir))
  {
    ModShift(x - 1, width, 1);
    ModShift(y - 1, height, 1);
    ModUnique(x, width, 0, x);
    ModUnique(y, height, 0, y);
  }

  /**
   On axes longer than 2: a speaker on the tile ahead of the listener, the one a step would take it to,
   is heard from 1; on the tiles to its left, behind it and to its right from 3, 5 and 7.
   */
  lemma NeighboursAreHeard(width: int, height: int, x: int, y: int, dir: Direction)
    requires OnMap(width, height, x, y) && width > 2 && height > 2
    ensures var (sx, sy) := Ahead(width, height, x, y, dir);
      DirectionOf(x, y, DirectionCode(dir), sx, sy, width, height) == 1
    ensures var (sx, sy) := Ahead(width, height, x, y, TurnLeft(dir));
      DirectionOf(x, y, DirectionCode(dir), sx, sy, width, height) == 3
    ensures var (sx, sy) := Ahead(width, height, x, y, TurnLeft(TurnLeft(dir)));
      DirectionOf(x, y, DirectionCode(dir), sx, sy, width, height) == 5
    ensures var (sx, sy) := Ahead(width, height, x, y, TurnRight(dir));
      DirectionOf(x, y, DirectionCode(dir), sx, sy, width, height) == 7
  {
    AheadIsToward(width, height, x, y, dir);
    DirectionInSight(width, height, x, y, dir, 0, 1);
    DirectionInSight(width, height, x, y, dir, -1, 0);
    DirectionInSight(width, height, x, y, dir, 0, -1);
    DirectionInSight(width, height, x, y, dir, 1, 0);
  }
}

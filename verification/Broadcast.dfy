/**
 The direction a broadcast is heard from. The C code takes the angle of the shortest
 displacement with atan2 and cuts the circle into eight sectors centred on the compass axes;
 here the sectors are exact, and their borders are shown never to be met.
 */
module Broadcast {
  import opened Torus

  /** Brings a coordinate difference to the shorter way round; C's -max/2 is -(max/2). */
  function MinimalDelta(delta: int, max: int): int
    requires max > 0
  {
    var d := if delta > max / 2 then delta - max else delta;
    if d < -(max / 2) then d + max else d
  }

  function Abs(n: int): nat {
    if n < 0 then -n else n
  }

  /** Within an eighth of pi of the vertical axis: (|a| + |b|) / |b| is below the square root of 2. */
  predicate Steep(a: int, b: int) {
    (Abs(a) + Abs(b)) * (Abs(a) + Abs(b)) < 2 * (Abs(b) * Abs(b))
  }

  function SectorCode(steep: bool, flat: bool, left: bool, up: bool): int {
    if steep then if up then 1 else 5
    else if flat then if left then 3 else 7
    else if up then if left then 2 else 8
    else if left then 4 else 6
  }

  /** The sector of a non-zero vector, counted counter-clockwise from straight ahead. */
  function Sector(a: int, b: int): int {
    SectorCode(Steep(a, b), Steep(b, a), a < 0, b > 0)
  }

  /** The displacement in the listener's own frame: (rightwards, forwards). */
  function InFrame(dx: int, dy: int, dir: int): (int, int) {
    match dir % 4
    case 0 => (dx, -dy)
    case 1 => (dy, dx)
    case 2 => (-dx, dy)
    case _ => (-dy, -dx)
  }

  function Heard(dx: int, dy: int, dir: int): int {
    if dx == 0 && dy == 0 then 0
    else Sector(InFrame(dx, dy, dir).0, InFrame(dx, dy, dir).1)
  }

  /** compute_broadcast_direction: 0 for the same tile, else the sector seen by the listener. */
  function DirectionOf(lx: int, ly: int, dir: int, ex: int, ey: int, width: int, height: int): int
    requires width > 0 && height > 0
  {
    Heard(MinimalDelta(ex - lx, width), MinimalDelta(ey - ly, height), dir)
  }

  // ----- the displacement -----

  lemma NextMultiple(j: int, max: int)
    ensures (j + 1) * max == j * max + max && (j - 1) * max == j * max - max
  {
  }

  /** The displacement is congruent to the difference and no way round is shorter. */
  lemma MinimalDeltaIsShortest(delta: int, max: int)
    requires max > 0 && -max < delta < max
    ensures var r := MinimalDelta(delta, max);
      && (r == delta || r == delta - max || r == delta + max)
      && forall j: int :: Abs(r) <= Abs(delta + j * max)
  {
    var r := MinimalDelta(delta, max);
    assert 2 * Abs(r) <= max;
    forall j: int
      ensures Abs(r) <= Abs(delta + j * max)
    {
      var n := if r == delta then j else if r < delta then j + 1 else j - 1;
      NextMultiple(j, max);
      MultipleIsFar(n, max);
      assert delta + j * max == r + n * max;
    }
  }

  lemma ZeroExactlyOnTheSameTile(lx: int, ly: int, dir: int, ex: int, ey: int, width: int, height: int)
    requires 0 <= lx < width && 0 <= ex < width && 0 <= ly < height && 0 <= ey < height
    ensures 0 <= DirectionOf(lx, ly, dir, ex, ey, width, height) <= 8
    ensures DirectionOf(lx, ly, dir, ex, ey, width, height) == 0 <==> lx == ex && ly == ey
  {
  }

  // ----- the sectors -----

  /**
   How far a vector points along the k-th of eight unit axes, counter-clockwise from straight
   ahead, times the square root of 2: the larger, the smaller the angle between them.
   */
  ghost function Along(a: real, b: real, k: int, root: real): real
    requires 1 <= k <= 8
  {
    match k
    case 1 => b * root
    case 2 => b - a
    case 3 => -(a * root)
    case 4 => -a - b
    case 5 => -(b * root)
    case 6 => a - b
    case 7 => a * root
    case _ => a + b
  }

  lemma OddSquare(x: nat)
    ensures x % 2 == 1 ==> (x * x) % 2 == 1
    ensures x % 2 == 0 ==> x == 2 * (x / 2) && x * x == 4 * ((x / 2) * (x / 2))
  {
    var h := x / 2;
    if x % 2 == 1 {
      assert x * x == 2 * (2 * (h * h) + 2 * h) + 1;
    } else {
      assert x * x == (2 * h) * (2 * h);
    }
  }

  lemma LargerSquare(x: nat, y: nat)
    requires 0 < x <= y
    ensures x * x < 2 * (y * y)
  {
    assert x * x <= x * y <= y * y;
  }

  /** Only the zero vector could sit on a border between two sectors: 2 has no rational root. */
  lemma {:induction false} NoTies(x: nat, y: nat)
    requires x * x == 2 * (y * y)
    ensures x == 0 && y == 0
    decreases x
  {
    if x > 0 {
      var h := x / 2;
      OddSquare(x);
      assert y * y == 2 * (h * h);
      if y < x {
        NoTies(y, h);
      } else {
        LargerSquare(x, y);
      }
    }
  }

  lemma CompareSquares(s: real, t: real)
    requires s >= 0.0 && t >= 0.0
    ensures s * s < t * t ==> s < t
    ensures s * s > t * t ==> s > t
  {
    if s <= t {
      assert s * s <= s * t <= t * t;
    }
    if t <= s {
      assert t * t <= s * t <= s * s;
    }
  }

  /** The vertical test, read over the reals. */
  lemma SteepMeans(a: int, b: int, root: real) returns (t: real)
    requires a != 0 || b != 0
    requires root > 0.0 && root * root == 2.0
    ensures t == root * Abs(b) as real
    ensures if Steep(a, b) then (Abs(a) + Abs(b)) as real < t else (Abs(a) + Abs(b)) as real > t
  {
    var s, n := Abs(a) + Abs(b), Abs(b);
    if s * s == 2 * (n * n) {
      NoTies(s, n);
    }
    t := root * n as real;
    assert t * t == 2.0 * (n as real * n as real) by {
      assert t * t == (root * root) * (n as real * n as real);
    }
    assert s as real * s as real == (s * s) as real && n as real * n as real == (n * n) as real;
    CompareSquares(s as real, t);
  }

  lemma SteepFacts(a: int, b: int)
    requires a != 0 || b != 0
    ensures !(Steep(a, b) && Steep(b, a))
    ensures a == 0 ==> Steep(a, b)
    ensures b == 0 ==> Steep(b, a)
  {
    var m, n := Abs(a), Abs(b);
    assert (m + n) * (m + n) == m * m + n * n + 2 * (m * n);
    assert m * n >= 0;
    if m == 0 {
      assert n * n > 0;
    }
    if n == 0 {
      assert m * m > 0;
    }
  }

  /** The eight projections, given the two coordinates and their magnitudes times the root. */
  ghost function Projection(a: real, b: real, ra: real, rb: real, k: int): real {
    match k
    case 1 => if b < 0.0 then -rb else rb
    case 2 => b - a
    case 3 => if a < 0.0 then ra else -ra
    case 4 => -a - b
    case 5 => if b < 0.0 then rb else -rb
    case 6 => a - b
    case 7 => if a < 0.0 then -ra else ra
    case _ => a + b
  }

  ghost function Mag(a: real): real {
    if a < 0.0 then -a else a
  }

  lemma TimesRoot(a: real, root: real)
    ensures a * root == if a < 0.0 then -(root * Mag(a)) else root * Mag(a)
  {
  }

  lemma AlongIsLinear(a: real, b: real, ra: real, rb: real, k: int, root: real)
    requires 1 <= k <= 8
    requires ra == root * Mag(a) && rb == root * Mag(b)
    ensures Along(a, b, k, root) == Projection(a, b, ra, rb, k)
  {
    TimesRoot(a, root);
    TimesRoot(b, root);
  }

  lemma NearestLinear(a: real, b: real, ra: real, rb: real, steep: bool, flat: bool, j: int)
    requires a != 0.0 || b != 0.0
    requires if a != 0.0 then ra > Mag(a) else ra == 0.0
    requires if b != 0.0 then rb > Mag(b) else rb == 0.0
    requires if steep then Mag(a) + Mag(b) < rb else Mag(a) + Mag(b) > rb
    requires if flat then Mag(a) + Mag(b) < ra else Mag(a) + Mag(b) > ra
    requires !(steep && flat)
    requires 1 <= j <= 8 && j != SectorCode(steep, flat, a < 0.0, b > 0.0)
    ensures Projection(a, b, ra, rb, SectorCode(steep, flat, a < 0.0, b > 0.0)) > Projection(a, b, ra, rb, j)
  {
  }

  lemma Stretch(m: real, r: real, root: real)
    requires root > 1.0 && m >= 0.0 && r == root * m
    ensures if m == 0.0 then r == 0.0 else r > m
  {
    if m > 0.0 {
      assert (root - 1.0) * m > 0.0;
    }
  }

  lemma NearestAlong(a: real, b: real, ra: real, rb: real, steep: bool, flat: bool, j: int, root: real)
    requires a != 0.0 || b != 0.0
    requires root > 0.0 && root * root == 2.0
    requires ra == root * Mag(a) && rb == root * Mag(b)
    requires if steep then Mag(a) + Mag(b) < rb else Mag(a) + Mag(b) > rb
    requires if flat then Mag(a) + Mag(b) < ra else Mag(a) + Mag(b) > ra
    requires !(steep && flat)
    requires 1 <= j <= 8 && j != SectorCode(steep, flat, a < 0.0, b > 0.0)
    ensures Along(a, b, SectorCode(steep, flat, a < 0.0, b > 0.0), root) > Along(a, b, j, root)
  {
    var k := SectorCode(steep, flat, a < 0.0, b > 0.0);
    assert Projection(a, b, ra, rb, k) > Projection(a, b, ra, rb, j) by {
      CompareSquares(root, 1.0);
      Stretch(Mag(a), ra, root);
      Stretch(Mag(b), rb, root);
      NearestLinear(a, b, ra, rb, steep, flat, j);
    }
    AlongIsLinear(a, b, ra, rb, j, root);
    AlongIsLinear(a, b, ra, rb, k, root);
  }

  /** The sector reported is the one whose axis makes the strictly smallest angle with the vector. */
  lemma SectorIsNearestAxis(a: int, b: int, j: int, root: real)
    requires a != 0 || b != 0
    requires root > 0.0 && root * root == 2.0
    requires 1 <= j <= 8 && j != Sector(a, b)
    ensures 1 <= Sector(a, b) <= 8
    ensures Along(a as real, b as real, Sector(a, b), root) > Along(a as real, b as real, j, root)
  {
    var rb := SteepMeans(a, b, root);
    var ra := SteepMeans(b, a, root);
    SteepFacts(a, b);
    NearestAlong(a as real, b as real, ra, rb, Steep(a, b), Steep(b, a), j, root);
  }

  // ----- symmetry -----

  lemma SectorQuarterTurn(a: int, b: int)
    requires a != 0 || b != 0
    ensures 1 <= Sector(a, b) <= 8
    ensures Sector(-b, a) == (Sector(a, b) - 1 + 2) % 8 + 1
  {
    SteepFacts(a, b);
    assert Abs(-b) == Abs(b);
    assert Steep(-b, a) == Steep(b, a) && Steep(a, -b) == Steep(a, b);
  }

  lemma HeardQuarterTurn(dx: int, dy: int, dir: int)
    ensures var k, k' := Heard(dx, dy, dir), Heard(dx, dy, dir + 1);
      if k == 0 then k' == 0 else 1 <= k <= 8 && k' == (k - 1 + 2) % 8 + 1
  {
    if dx != 0 || dy != 0 {
      var (a, b) := InFrame(dx, dy, dir);
      assert InFrame(dx, dy, dir + 1) == (-b, a);
      SectorQuarterTurn(a, b);
    }
  }

  /** A right quarter turn of the listener moves the sound two sectors on. */
  lemma QuarterTurnAddsTwo(lx: int, ly: int, dir: int, ex: int, ey: int, width: int, height: int)
    requires width > 0 && height > 0
    ensures var k := DirectionOf(lx, ly, dir, ex, ey, width, height);
      var k' := DirectionOf(lx, ly, dir + 1, ex, ey, width, height);
      if k == 0 then k' == 0 else 1 <= k <= 8 && k' == (k - 1 + 2) % 8 + 1
  {
    HeardQuarterTurn(MinimalDelta(ex - lx, width), MinimalDelta(ey - ly, height), dir);
  }

  lemma SectorHalfTurn(a: int, b: int)
    requires a != 0 || b != 0
    ensures 1 <= Sector(a, b) <= 8
    ensures Sector(-a, -b) == (Sector(a, b) - 1 + 4) % 8 + 1
  {
    SectorQuarterTurn(a, b);
    SectorQuarterTurn(-b, a);
  }

  lemma HeardOpposite(dx: int, dy: int, dir: int)
    ensures var k, k' := Heard(dx, dy, dir), Heard(-dx, -dy, dir);
      if k == 0 then k' == 0 else 1 <= k <= 8 && k' == (k - 1 + 4) % 8 + 1
  {
    if dx != 0 || dy != 0 {
      var (a, b) := InFrame(dx, dy, dir);
      assert InFrame(-dx, -dy, dir) == (-a, -b);
      SectorHalfTurn(a, b);
    }
  }

  lemma OppositeDelta(delta: int, max: int)
    requires max > 0
    ensures MinimalDelta(-delta, max) == -MinimalDelta(delta, max)
  {
  }

  /** Two players facing the same way hear each other from opposite sectors. */
  lemma SwappingAddsFour(lx: int, ly: int, dir: int, ex: int, ey: int, width: int, height: int)
    requires width > 0 && height > 0
    ensures var k := DirectionOf(lx, ly, dir, ex, ey, width, height);
      var k' := DirectionOf(ex, ey, dir, lx, ly, width, height);
      if k == 0 then k' == 0 else 1 <= k <= 8 && k' == (k - 1 + 4) % 8 + 1
  {
    var dx := MinimalDelta(ex - lx, width);
    var dy := MinimalDelta(ey - ly, height);
    OppositeDelta(ex - lx, width);
    OppositeDelta(ey - ly, height);
    assert lx - ex == -(ex - lx) && ly - ey == -(ey - ly);
    HeardOpposite(dx, dy, dir);
  }
}

/** The map is a torus; headings and C arithmetic on it. */
module Torus {

  datatype Direction = North | East | South | West

  function TurnRight(d: Direction): Direction {
    match d
    case North => East
    case East => South
    case South => West
    case West => North
  }

  function TurnLeft(d: Direction): Direction {
    match d
    case North => West
    case East => North
    case South => East
    case West => South
  }

  /** The tile one step ahead, with the source's own wrap-around. */
  function Ahead(w: int, h: int, x: int, y: int, d: Direction): (int, int)
    requires 0 <= x < w && 0 <= y < h
  {
    match d
    case North => (x, (y + h - 1) % h)
    case East => ((x + 1) % w, y)
    case South => (x, (y + 1) % h)
    case West => ((x + w - 1) % w, y)
  }

  /** The remainder operator of C and Java, which takes the sign of the dividend. */
  function Rem(a: int, m: int): int
    requires m > 0
  {
    if a >= 0 then a % m else -((-a) % m)
  }

  lemma MultipleIsFar(d: int, m: int)
    requires m > 0
    ensures d >= 1 ==> d * m >= m
    ensures d <= -1 ==> d * m <= -m
    ensures d == 0 ==> d * m == 0
  {
    if d >= 1 {
      assert (d - 1) * m >= 0;
    } else if d <= -1 {
      assert (-d - 1) * m >= 0;
    }
  }

  lemma MultipleInRange(d: int, m: int, v: int)
    requires m > 0 && d * m == v && -m < v < m
    ensures v == 0
  {
    MultipleIsFar(d, m);
  }

  /** A remainder in range is the remainder. */
  lemma ModUnique(a: int, m: int, q: int, r: int)
    requires m > 0 && 0 <= r < m && a == q * m + r
    ensures a % m == r
  {
    var d := q - a / m;
    assert a == (a / m) * m + a % m;
    MultipleInRange(d, m, a % m - r);
  }

  lemma RemIsModUpToSign(a: int, m: int)
    requires m > 0
    ensures -m < Rem(a, m) < m
    ensures a % m == if Rem(a, m) < 0 then Rem(a, m) + m else Rem(a, m)
  {
    if a < 0 {
      var q, r := (-a) / m, (-a) % m;
      assert -a == q * m + r;
      if r == 0 {
        ModUnique(a, m, -q, 0);
      } else {
        assert a == (-q - 1) * m + (m - r);
        ModUnique(a, m, -q - 1, m - r);
      }
    }
  }

  /** The server's wrap. */
  function Wrap(v: int, m: int): (r: int)
    requires m > 0
    ensures 0 <= r < m
    ensures r == v % m
  {
    RemIsModUpToSign(v, m);
    var r := Rem(v, m);
    if r < 0 then r + m else r
  }

  /** Adding a multiple of the modulus changes nothing. */
  lemma ModShift(a: int, m: int, k: int)
    requires m > 0
    ensures (a + k * m) % m == a % m
  {
    var q, r := a / m, a % m;
    assert a + k * m == (q + k) * m + r;
    ModUnique(a + k * m, m, q + k, r);
  }

  /** Congruent summands may be swapped for each other. */
  lemma ModAdd(a: int, b: int, m: int)
    requires m > 0
    ensures (a % m + b) % m == (a + b) % m
  {
    assert a == (a / m) * m + a % m;
    ModShift(a % m + b, m, a / m);
  }

  /** A division with remainder in range is the division. */
  lemma Quotient(v: nat, n: nat, q: nat, r: nat)
    requires n > 0 && r < n && v == q * n + r
    ensures v / n == q && v % n == r
  {
    ModUnique(v, n, q, r);
    MultipleInRange(v / n - q, n, (v / n) * n - q * n);
    MultipleIsFar(v / n - q, n);
  }
}

/**
 The client reckons its own position: it starts at (0, 0) facing north, wherever the server put
 it, and turns what it sees into tiles of its own map. This module relates the two maps.
 */
module Pose {
  import opened Wrappers
  import opened Torus
  import opened World
  import opened Soundness
  import opened Steps
  import opened Ledger
  import opened Incantations

  /** Where a player stands on the server. */
  datatype Stance = Stance(x: int, y: int, dir: Direction)

  /** Where the client believes it stands; headings are 0 to 3, north, east, south, west. */
  datatype Reckoning = Reckoning(x: int, y: int, dir: int)

  const ORIGIN: Reckoning := Reckoning(0, 0, 0)

  predicate InMap(width: int, height: int, x: int, y: int) {
    0 <= x < width && 0 <= y < height
  }

  predicate ValidReckoning(width: int, height: int, c: Reckoning) {
    InMap(width, height, c.x, c.y) && 0 <= c.dir < 4
  }

  /** What a command does to a player on the server. */
  function Moves(width: int, height: int, s: Stance, c: Command): (r: Stance)
    requires InMap(width, height, s.x, s.y)
    ensures InMap(width, height, r.x, r.y)
  {
    match c
    case Avance => var (x, y) := Ahead(width, height, s.x, s.y, s.dir); Stance(x, y, s.dir)
    case Droite => s.(dir := TurnRight(s.dir))
    case Gauche => s.(dir := TurnLeft(s.dir))
    case _ => s
  }

  /** What its answer does to the client's reckoning, with Java's remainder. */
  function Reckons(width: int, height: int, p: Reckoning, c: Command): (r: Reckoning)
    requires ValidReckoning(width, height, p)
    ensures ValidReckoning(width, height, r)
  {
    match c
    case Avance =>
      if p.dir == 0 then p.(y := Rem(p.y - 1 + height, height))
      else if p.dir == 1 then p.(x := Rem(p.x + 1, width))
      else if p.dir == 2 then p.(y := Rem(p.y + 1, height))
      else p.(x := Rem(p.x - 1 + width, width))
    case Droite => p.(dir := Rem(p.dir + 1, 4))
    case Gauche => p.(dir := Rem(p.dir + 3, 4))
    case _ => p
  }

  function MovesAll(width: int, height: int, s: Stance, cs: seq<Command>): (r: Stance)
    requires InMap(width, height, s.x, s.y)
    ensures InMap(width, height, r.x, r.y)
    decreases |cs|
  {
    if cs == [] then s else MovesAll(width, height, Moves(width, height, s, cs[0]), cs[1..])
  }

  function ReckonsAll(width: int, height: int, p: Reckoning, cs: seq<Command>): (r: Reckoning)
    requires ValidReckoning(width, height, p)
    ensures ValidReckoning(width, height, r)
    decreases |cs|
  {
    if cs == [] then p else ReckonsAll(width, height, Reckons(width, height, p, cs[0]), cs[1..])
  }

  /** The client's rotate. */
  function Rotate(dx: int, dy: int, dir: int): (int, int)
    requires 0 <= dir < 4
  {
    if dir == 0 then (dx, dy)
    else if dir == 1 then (-dy, dx)
    else if dir == 2 then (-dx, -dy)
    else (dy, -dx)
  }

  /** The server tile that a tile of the client's map stands for. */
  function Counterpart(width: int, height: int, start: Stance, x: int, y: int): (int, int)
    requires width > 0 && height > 0
  {
    var (dx, dy) := Rotate(x, y, DirectionCode(start.dir));
    ((start.x + dx) % width, (start.y + dy) % height)
  }

  /** Server stance = start + the client's reckoning turned by the start heading, on the torus. */
  predicate Aligned(width: int, height: int, start: Stance, s: Stance, c: Reckoning)
    requires width > 0 && height > 0
  {
    && (s.x, s.y) == Counterpart(width, height, start, c.x, c.y)
    && DirectionCode(s.dir) == (DirectionCode(start.dir) + c.dir) % 4
  }

  /** A start heading that keeps the client's axes on axes of the same length. */
  predicate AxesFit(width: int, height: int, start: Direction) {
    width == height || start == North || start == South
  }

  // ----- steps on one axis -----

  lemma AddStep(a: int, c: int, e: int, m: int)
    requires m > 0
    ensures ((a + c) % m + e) % m == (a + c + e) % m == (a + (c + e) % m) % m
  {
    ModAdd(a + c, e, m);
    ModAdd(c + e, a, m);
  }

  lemma SubMod(a: int, v: int, m: int)
    requires m > 0
    ensures (a - v % m) % m == (a - v) % m
  {
    assert v == (v / m) * m + v % m;
    ModShift(a - v, m, v / m);
  }

  lemma SubStep(a: int, c: int, e: int, m: int)
    requires m > 0
    ensures ((a - c) % m - e) % m == (a - c - e) % m == (a - (c + e) % m) % m
  {
    ModAdd(a - c, -e, m);
    SubMod(a, c + e, m);
  }

  /** Going round once more changes nothing. */
  lemma OnceRound(v: int, m: int)
    requires m > 0
    ensures (v + m) % m == v % m
  {
    ModShift(v, m, 1);
  }

  /** A coordinate on an axis of length m, for a client axis that runs along the server's or against it. */
  function OnAxis(a: int, c: int, m: int, along: bool): int
    requires m > 0
  {
    if along then (a + c) % m else (a - c) % m
  }

  lemma CounterpartAxes(width: int, height: int, start: Stance, x: int, y: int)
    requires width > 0 && height > 0
    ensures Counterpart(width, height, start, x, y) ==
      match start.dir
      case North => (OnAxis(start.x, x, width, true), OnAxis(start.y, y, height, true))
      case East => (OnAxis(start.x, y, width, false), OnAxis(start.y, x, height, true))
      case South => (OnAxis(start.x, x, width, false), OnAxis(start.y, y, height, false))
      case West => (OnAxis(start.x, y, width, true), OnAxis(start.y, x, height, false))
  {
  }

  /** One step either way on an axis. */
  lemma OnAxisStep(a: int, c: int, m: int, along: bool)
    requires m > 0
    ensures var s := OnAxis(a, c, m, along);
      && OnAxis(a, (c + 1) % m, m, along) == (if along then (s + 1) % m else (s + m - 1) % m)
      && OnAxis(a, (c - 1 + m) % m, m, along) == (if along then (s + m - 1) % m else (s + 1) % m)
  {
    var s := OnAxis(a, c, m, along);
    OnceRound(c - 1, m);
    OnceRound(s - 1, m);
    if along {
      AddStep(a, c, 1, m);
      AddStep(a, c, -1, m);
    } else {
      SubStep(a, c, 1, m);
      SubStep(a, c, -1, m);
    }
  }

  /** None of the remainders is of a negative number. */
  lemma ReckonsByMod(width: int, height: int, p: Reckoning)
    requires ValidReckoning(width, height, p)
    ensures Reckons(width, height, p, Avance) ==
      if p.dir == 0 then p.(y := (p.y - 1 + height) % height)
      else if p.dir == 1 then p.(x := (p.x + 1) % width)
      else if p.dir == 2 then p.(y := (p.y + 1) % height)
      else p.(x := (p.x - 1 + width) % width)
  {
  }

  /** The tile ahead of the server's player is the counterpart of the tile ahead of the client's. */
  lemma AheadIsCounterpart(width: int, height: int, start: Stance, s: Stance, c: Reckoning)
    requires InMap(width, height, s.x, s.y) && ValidReckoning(width, height, c)
    requires AxesFit(width, height, start.dir) && Aligned(width, height, start, s, c)
    ensures var c' := Reckons(width, height, c, Avance);
      Counterpart(width, height, start, c'.x, c'.y) == Ahead(width, height, s.x, s.y, s.dir)
  {
    var c' := Reckons(width, height, c, Avance);
    ReckonsByMod(width, height, c);
    CounterpartAxes(width, height, start, c.x, c.y);
    CounterpartAxes(width, height, start, c'.x, c'.y);
    var straight := start.dir == North || start.dir == South;
    var alongX, alongY := start.dir == North || start.dir == West, start.dir == North || start.dir == East;
    if c.dir == 0 || c.dir == 2 {
      if straight {
        OnAxisStep(start.y, c.y, height, alongY);
      } else {
        OnAxisStep(start.x, c.y, width, alongX);
      }
    } else {
      if straight {
        OnAxisStep(start.x, c.x, width, alongX);
      } else {
        OnAxisStep(start.y, c.x, height, alongY);
      }
    }
  }

  lemma StepAligned(width: int, height: int, start: Stance, s: Stance, c: Reckoning, cmd: Command)
    requires InMap(width, height, s.x, s.y) && ValidReckoning(width, height, c)
    requires AxesFit(width, height, start.dir) && Aligned(width, height, start, s, c)
    ensures Aligned(width, height, start, Moves(width, height, s, cmd), Reckons(width, height, c, cmd))
  {
    if cmd == Avance {
      AheadIsCounterpart(width, height, start, s, c);
    }
  }

  lemma {:induction false} RunAligned(width: int, height: int, start: Stance, s: Stance, c: Reckoning, cs: seq<Command>)
    requires InMap(width, height, s.x, s.y) && ValidReckoning(width, height, c)
    requires AxesFit(width, height, start.dir) && Aligned(width, height, start, s, c)
    ensures Aligned(width, height, start, MovesAll(width, height, s, cs), ReckonsAll(width, height, c, cs))
    decreases |cs|
  {
    if cs != [] {
      StepAligned(width, height, start, s, c, cs[0]);
      RunAligned(width, height, start, Moves(width, height, s, cs[0]), Reckons(width, height, c, cs[0]), cs[1..]);
    }
  }

  lemma StartAligned(width: int, height: int, start: Stance)
    requires InMap(width, height, start.x, start.y)
    ensures Aligned(width, height, start, start, ORIGIN)
  {
  }

  /** The remainder of what is at most one round off. */
  lemma Fold(v: int, m: int)
    requires m > 0 && -m <= v < 2 * m
    ensures v % m == if v < 0 then v + m else if v < m then v else v - m
  {
    ModUnique(v, m, if v < 0 then -1 else if v < m then 0 else 1, if v < 0 then v + m else if v < m then v else v - m);
  }

  /** One step back on a short axis is not one step back on a long one. */
  lemma ShortAxis(a: int, short: int, long: int)
    requires 0 < short < long && 0 <= a < long
    ensures (a + (short - 1)) % long != (a + long - 1) % long
    ensures (a - (short - 1)) % long != (a + 1) % long
  {
    Fold(a + (short - 1), long);
    Fold(a + long - 1, long);
    Fold(a - (short - 1), long);
    Fold(a + 1, long);
  }

  /** On a map wider than high, one step already misleads a player that starts facing east or west. */
  lemma MisledByStep(width: int, height: int, start: Stance)
    requires InMap(width, height, start.x, start.y) && (start.dir == East || start.dir == West) && height < width
    ensures !Aligned(width, height, start, Moves(width, height, start, Avance), Reckons(width, height, ORIGIN, Avance))
  {
    assert Reckons(width, height, ORIGIN, Avance) == Reckoning(0, height - 1, 0);
    ShortAxis(start.x, height, width);
  }

  /** On one higher than wide, a turn to the left and a step do. */
  lemma MisledByTurn(width: int, height: int, start: Stance)
    requires InMap(width, height, start.x, start.y) && (start.dir == East || start.dir == West) && width < height
    ensures !Aligned(width, height, start, Moves(width, height, Moves(width, height, start, Gauche), Avance),
                     Reckons(width, height, Reckons(width, height, ORIGIN, Gauche), Avance))
  {
    assert Reckons(width, height, Reckons(width, height, ORIGIN, Gauche), Avance) == Reckoning(width - 1, 0, 3);
    ShortAxis(start.y, width, height);
  }

  /** Off a square, facing east or west, one of two short walks already breaks the alignment. */
  lemma MisalignedWalk(width: int, height: int, start: Stance) returns (cs: seq<Command>)
    requires InMap(width, height, start.x, start.y) && !AxesFit(width, height, start.dir)
    ensures !Aligned(width, height, start, MovesAll(width, height, start, cs), ReckonsAll(width, height, ORIGIN, cs))
  {
    if width < height {
      cs := [Gauche, Avance];
      assert cs[1..] == [Avance] && cs[1..][1..] == [];
      MisledByTurn(width, height, start);
    } else {
      cs := [Avance];
      assert cs[1..] == [];
      MisledByStep(width, height, start);
    }
  }

  /**
   Reckoning works for every walk exactly when the map is square or the player starts facing
   north or south.
   */
  lemma ReckoningWorksExactlyWhen(width: int, height: int, start: Stance)
    requires InMap(width, height, start.x, start.y)
    ensures AxesFit(width, height, start.dir) <==>
      forall cs: seq<Command> ::
        Aligned(width, height, start, MovesAll(width, height, start, cs), ReckonsAll(width, height, ORIGIN, cs))
  {
    if AxesFit(width, height, start.dir) {
      StartAligned(width, height, start);
      forall cs: seq<Command>
        ensures Aligned(width, height, start, MovesAll(width, height, start, cs), ReckonsAll(width, height, ORIGIN, cs))
      {
        RunAligned(width, height, start, start, ORIGIN, cs);
      }
    } else {
      var cs := MisalignedWalk(width, height, start);
    }
  }

  // ----- sight -----

  lemma TurnsAdd(dx: int, dy: int, a: int, b: int)
    requires 0 <= a < 4 && 0 <= b < 4
    ensures var (x, y) := Rotate(dx, dy, a);
      Rotate(x, y, b) == Rotate(dx, dy, (a + b) % 4)
  {
  }

  /** The server's order of sight is the client's, tile by tile. */
  lemma SightIsRotation(dir: Direction, d: int, i: int)
    ensures SightOffset(dir, d, i) == Rotate(i - d, -d, DirectionCode(dir))
  {
  }

  /** The tile of the client's map for an offset ahead of it: both remainders of the source. */
  function Cell(width: int, height: int, c: Reckoning, dx: int, dy: int): (r: (int, int))
    requires width > 0 && height > 0 && 0 <= c.dir < 4
    ensures InMap(width, height, r.0, r.1)
  {
    var (rx, ry) := Rotate(dx, dy, c.dir);
    var tx, ty := Rem(c.x + rx + width, width), Rem(c.y + ry + height, height);
    RemIsModUpToSign(c.x + rx + width, width);
    RemIsModUpToSign(c.y + ry + height, height);
    (Rem(tx + width, width), Rem(ty + height, height))
  }

  lemma RemOfRange(r: int, v: int, m: int)
    requires m > 0 && -m < r < m && 0 <= v < m && v == if r < 0 then r + m else r
    ensures Rem(r + m, m) == v
  {
    Fold(r + m, m);
  }

  lemma RemTwice(v: int, m: int)
    requires m > 0
    ensures Rem(Rem(v + m, m) + m, m) == v % m
  {
    RemIsModUpToSign(v + m, m);
    OnceRound(v, m);
    RemOfRange(Rem(v + m, m), v % m, m);
  }

  lemma CellIsMod(width: int, height: int, c: Reckoning, dx: int, dy: int)
    requires width > 0 && height > 0 && 0 <= c.dir < 4
    ensures var (rx, ry) := Rotate(dx, dy, c.dir);
      Cell(width, height, c, dx, dy) == ((c.x + rx) % width, (c.y + ry) % height)
  {
    var (rx, ry) := Rotate(dx, dy, c.dir);
    RemTwice(c.x + rx, width);
    RemTwice(c.y + ry, height);
  }

  /** One axis of a counterpart: the client's offset, wrapped, along or against the server's axis. */
  lemma OffsetAlong(a: int, c: int, o: int, m: int)
    requires m > 0
    ensures (a + (c + o) % m) % m == ((a + c) % m + o) % m
  {
    AddStep(a, c, o, m);
  }

  lemma OffsetAgainst(a: int, c: int, o: int, m: int)
    requires m > 0
    ensures (a - (c + o) % m) % m == ((a - c) % m - o) % m
  {
    SubStep(a, c, o, m);
  }

  lemma OnAxisOffset(a: int, c: int, o: int, m: int, along: bool)
    requires m > 0
    ensures OnAxis(a, (c + o) % m, m, along) == (OnAxis(a, c, m, along) + if along then o else -o) % m
  {
    if along {
      OffsetAlong(a, c, o, m);
    } else {
      OffsetAgainst(a, c, o, m);
    }
  }

  lemma CounterpartOfOffset(width: int, height: int, start: Stance, x: int, y: int, ox: int, oy: int)
    requires width > 0 && height > 0 && AxesFit(width, height, start.dir)
    ensures var (sx, sy) := Counterpart(width, height, start, x, y);
      var (rx, ry) := Rotate(ox, oy, DirectionCode(start.dir));
      Counterpart(width, height, start, (x + ox) % width, (y + oy) % height) == ((sx + rx) % width, (sy + ry) % height)
  {
    CounterpartAxes(width, height, start, x, y);
    CounterpartAxes(width, height, start, (x + ox) % width, (y + oy) % height);
    var alongX, alongY := start.dir == North || start.dir == West, start.dir == North || start.dir == East;
    if start.dir == North || start.dir == South {
      OnAxisOffset(start.x, x, ox, width, alongX);
      OnAxisOffset(start.y, y, oy, height, alongY);
    } else {
      OnAxisOffset(start.x, y, oy, width, alongX);
      OnAxisOffset(start.y, x, ox, height, alongY);
    }
  }

  /** What is seen at an offset is the client's offset, turned by its heading and by the start heading. */
  lemma SightTurns(start: Direction, dir: Direction, turned: int, d: int, i: int)
    requires 0 <= turned < 4 && DirectionCode(dir) == (DirectionCode(start) + turned) % 4
    ensures var (rx, ry) := Rotate(i - d, -d, turned);
      SightOffset(dir, d, i) == Rotate(rx, ry, DirectionCode(start))
  {
    TurnsAdd(i - d, -d, turned, DirectionCode(start));
    SightIsRotation(dir, d, i);
  }

  /** While the two are aligned, each tile seen is the counterpart of the cell the client files it under. */
  lemma SeenIsCounterpart(width: int, height: int, start: Stance, s: Stance, c: Reckoning, d: int, i: int)
    requires width > 0 && height > 0 && 0 <= c.dir < 4
    requires AxesFit(width, height, start.dir) && Aligned(width, height, start, s, c)
    ensures var (x, y) := Cell(width, height, c, i - d, -d);
      var (ox, oy) := SightOffset(s.dir, d, i);
      Counterpart(width, height, start, x, y) == (Wrap(s.x + ox, width), Wrap(s.y + oy, height))
  {
    var (rx, ry) := Rotate(i - d, -d, c.dir);
    CellIsMod(width, height, c, i - d, -d);
    CounterpartOfOffset(width, height, start, c.x, c.y, rx, ry);
    SightTurns(start.dir, s.dir, c.dir, d, i);
  }

  // ----- the view as a list -----

  /** Row after row. */
  function Flat<T>(rows: seq<seq<T>>): seq<T> {
    if rows == [] then [] else Flat(rows[..|rows| - 1]) + rows[|rows| - 1]
  }

  ghost predicate Widening<T>(rows: seq<seq<T>>) {
    forall d | 0 <= d < |rows| :: |rows[d]| == 2 * d + 1
  }

  /** Where row d starts. */
  ghost function Base(d: nat): nat {
    if d == 0 then 0 else Base(d - 1) + 2 * (d - 1) + 1
  }

  /** The first d rows have d*d entries. */
  lemma {:induction false} BaseIsSquare(d: nat)
    ensures Base(d) == d * d
  {
    if d > 0 {
      BaseIsSquare(d - 1);
    }
  }

  /** Every place is in a row. */
  lemma {:induction false} RowOfPlace(n: nat, j: nat) returns (d: nat, i: nat)
    requires j < Base(n)
    ensures d < n && i <= 2 * d && j == Base(d) + i
  {
    if j >= Base(n - 1) {
      d, i := n - 1, j - Base(n - 1);
    } else {
      d, i := RowOfPlace(n - 1, j);
    }
  }

  lemma {:induction false} FlatLength<T>(rows: seq<seq<T>>)
    requires Widening(rows)
    ensures |Flat(rows)| == Base(|rows|)
  {
    if rows != [] {
      FlatLength(rows[..|rows| - 1]);
    }
  }

  /** In rows that widen by two, the i-th entry of row d stands at Base(d) + i. */
  lemma {:induction false} FlatAt<T>(rows: seq<seq<T>>, d: nat, i: nat)
    requires Widening(rows) && d < |rows| && i <= 2 * d
    ensures |Flat(rows)| == Base(|rows|) && Base(d) + i < Base(|rows|)
    ensures Flat(rows)[Base(d) + i] == rows[d][i]
  {
    var e := |rows| - 1;
    FlatLength(rows);
    FlatLength(rows[..e]);
    if d < e {
      FlatAt(rows[..e], d, i);
      assert Flat(rows)[Base(d) + i] == Flat(rows[..e])[Base(d) + i];
    }
  }

  /** The client's relative offsets, row by row. */
  function RowOffsets(d: nat): (r: seq<(int, int)>)
    ensures |r| == 2 * d + 1
  {
    seq(2 * d + 1, i requires 0 <= i < 2 * d + 1 => (i - d, -(d as int)))
  }

  function OffsetRows(n: nat): (r: seq<seq<(int, int)>>)
    ensures |r| == n && Widening(r) && forall d | 0 <= d < n :: r[d] == RowOffsets(d)
  {
    seq(n, d requires 0 <= d < n => RowOffsets(d))
  }

  /** All the offsets for a level: those of `level + 1` rows. */
  function Offsets(n: nat): seq<(int, int)> {
    Flat(OffsetRows(n))
  }

  ghost function SightRows<K>(w: World<K>, k: K, n: nat): (r: seq<seq<seq<Sight>>>)
    requires Shaped(w) && k in w.players
    ensures |r| == n && Widening(r)
  {
    if n == 0 then [] else SightRows(w, k, n - 1) + [SightRow(w, k, n - 1)]
  }

  lemma FlatOfSnoc<T>(rows: seq<seq<T>>, row: seq<T>)
    ensures Flat(rows + [row]) == Flat(rows) + row
  {
    assert (rows + [row])[..|rows|] == rows;
  }

  lemma {:induction false} ViewIsFlat<K>(w: World<K>, k: K, n: nat)
    requires Shaped(w) && k in w.players
    ensures Flat(SightRows(w, k, n)) == View(w, k, n)
  {
    if n > 0 {
      ViewIsFlat(w, k, n - 1);
      FlatOfSnoc(SightRows(w, k, n - 1), SightRow(w, k, n - 1));
    }
  }

  lemma {:induction false} SightRowsAt<K>(w: World<K>, k: K, n: nat, d: nat)
    requires Shaped(w) && k in w.players && d < n
    ensures SightRows(w, k, n)[d] == SightRow(w, k, d)
  {
    if d < n - 1 {
      SightRowsAt(w, k, n - 1, d);
    }
  }

  lemma SightRowAt<K>(w: World<K>, k: K, d: nat, i: nat)
    requires Shaped(w) && k in w.players && i <= 2 * d
    ensures SightRow(w, k, d)[i] == Contents(w, k, SeenTile(w, k, d, i))
  {
  }

  /** The server's view is laid out like the client's offsets. */
  lemma ViewAt<K>(w: World<K>, k: K, n: nat, d: nat, i: nat)
    requires Shaped(w) && k in w.players && d < n && i <= 2 * d
    ensures |View(w, k, n)| == Base(n) && Base(d) + i < Base(n)
    ensures View(w, k, n)[Base(d) + i] == Contents(w, k, SeenTile(w, k, d, i))
  {
    ViewIsFlat(w, k, n);
    FlatAt(SightRows(w, k, n), d, i);
    SightRowsAt(w, k, n, d);
    SightRowAt(w, k, d, i);
  }

  lemma OffsetsAt(n: nat, d: nat, i: nat)
    requires d < n && i <= 2 * d
    ensures |Offsets(n)| == Base(n) && Base(d) + i < Base(n)
    ensures Offsets(n)[Base(d) + i] == (i - d, -(d as int))
  {
    FlatAt(OffsetRows(n), d, i);
  }

  // ----- whole runs of the server -----

  ghost function StanceOf<K>(w: World<K>, k: K): Stance
    requires k in w.players
  {
    Stance(w.players[k].x, w.players[k].y, w.players[k].dir)
  }

  /** The command of the player's own that a step executes, if any. */
  ghost function OwnMove<K>(w: World<K>, a: Action<K>, k: K): Option<Command>
    requires Enabled(w, a)
  {
    if RunsFor(w, a, k) && DeedOf(w, a.slot).job.Do? then Some(DeedOf(w, a.slot).job.command) else None
  }

  /** The commands executed for a player in a run, in order. */
  ghost function OwnMoves<K>(w: World<K>, actions: seq<Action<K>>, k: K): seq<Command>
    requires CanRun(w, actions)
    decreases |actions|
  {
    if actions == [] then []
    else
      var rest := OwnMoves(Apply(w, actions[0]), actions[1..], k);
      match OwnMove(w, actions[0], k)
      case None => rest
      case Some(c) => [c] + rest
  }

  /** Nobody pushes the player. */
  ghost predicate Unshoved<K>(actions: seq<Action<K>>, k: K) {
    forall a <- actions :: a.Shoves? ==> a.q != k
  }

  lemma CommandStance<K>(w: World<K>, q: K, c: Command, arg: Option<Arg>, k: K)
    requires Shaped(w) && q in w.players && k in w.players
    ensures var w' := Call(w, q, Do(c), arg);
      && k in w'.players && w'.width == w.width && w'.height == w.height
      && StanceOf(w', k) == if q == k then Moves(w.width, w.height, StanceOf(w, k), c) else StanceOf(w, k)
  {
    match c
    case Avance => assert Call(w, q, Do(c), arg) == Walk(w, q);
    case Incantation => assert StartIncantation(w, q).players == w.players;
    case _ =>
  }

  lemma ResolveStance<K>(w: World<K>, q: K, level: int, k: K)
    requires Shaped(w) && q in w.players && k in w.players
    ensures var w' := FinishIncantation(w, q, level);
      && k in w'.players && w'.width == w.width && w'.height == w.height
      && StanceOf(w', k) == StanceOf(w, k)
  {
    var p := w.players[q];
    TileIndexInRange(w.width, w.height, p.x, p.y);
    RaiseRowExact(w.rows[TileOf(w.width, p)], w.players, level);
  }

  lemma TurnStance<K>(w: World<K>, slot: nat, k: K)
    requires Shaped(w) && slot < |w.slots| && Defined(w, slot) && k in w.players && k in Play(w, slot).players
    ensures var w' := Play(w, slot);
      && w'.width == w.width && w'.height == w.height
      && StanceOf(w', k) ==
           match OwnMove(w, Turn(slot), k)
           case None => StanceOf(w, k)
           case Some(c) => Moves(w.width, w.height, StanceOf(w, k), c)
  {
    TurnIsDeed(w, slot);
    if DeedOf(w, slot).Runs? {
      var Runs(_, q, job, arg) := DeedOf(w, slot);
      match job
      case ResolveIncantation => ResolveStance(w, q, LevelOf(arg), k);
      case Do(c) => CommandStance(w, q, c, arg, k);
    }
  }

  lemma StepStance<K>(w: World<K>, a: Action<K>, k: K)
    requires Enabled(w, a) && k in w.players && k in Apply(w, a).players && (a.Shoves? ==> a.q != k)
    ensures var w' := Apply(w, a);
      && w'.width == w.width && w'.height == w.height
      && StanceOf(w', k) ==
           match OwnMove(w, a, k)
           case None => StanceOf(w, k)
           case Some(c) => Moves(w.width, w.height, StanceOf(w, k), c)
  {
    if a.Turn? {
      TurnStance(w, a.slot, k);
    }
  }

  /**
   A push takes the pushed player, and nobody else, to the tile that a step would take the pusher to; it
   keeps its heading and is told.
   */
  lemma ShoveMovesAhead<K>(w: World<K>, k: K, q: K)
    requires Shaped(w) && k in w.players && q in w.players
    ensures var w' := Shove(w, k, q);
      && q in w'.players && (forall p <- w.players :: p != q ==> p in w'.players && w'.players[p] == w.players[p])
      && StanceOf(w', q) == Moves(w.width, w.height, StanceOf(w, k), Avance).(dir := w.players[q].dir)
      && w'.outbox == w.outbox + [Reply(w.players[q].fd, Do(Expulse), Pushed)]
  {
  }

  lemma MovesAllStep<K>(w: World<K>, actions: seq<Action<K>>, k: K)
    requires CanRun(w, actions) && actions != [] && k in w.players && k in Apply(w, actions[0]).players
    requires InMap(w.width, w.height, w.players[k].x, w.players[k].y) && (actions[0].Shoves? ==> actions[0].q != k)
    ensures var w1 := Apply(w, actions[0]);
      && InMap(w.width, w.height, w1.players[k].x, w1.players[k].y)
      && MovesAll(w.width, w.height, StanceOf(w, k), OwnMoves(w, actions, k))
         == MovesAll(w.width, w.height, StanceOf(w1, k), OwnMoves(w1, actions[1..], k))
  {
    StepStance(w, actions[0], k);
    var own := OwnMove(w, actions[0], k);
    if own.Some? {
      var rest := OwnMoves(Apply(w, actions[0]), actions[1..], k);
      assert ([own.value] + rest)[1..] == rest;
    }
  }

  /** A player that nobody pushes stands where its own executed commands took it. */
  lemma {:induction false} RunStance<K>(w: World<K>, actions: seq<Action<K>>, k: K)
    requires Shaped(w) && CanRun(w, actions) && StaysOn(w, actions, k) && Unshoved(actions, k)
    ensures var w' := Run(w, actions);
      && k in w'.players && w'.width == w.width && w'.height == w.height
      && StanceOf(w', k) == MovesAll(w.width, w.height, StanceOf(w, k), OwnMoves(w, actions, k))
    decreases |actions|
  {
    if actions != [] {
      var w1 := Apply(w, actions[0]);
      assert k in w1.players;
      StepStance(w, actions[0], k);
      if actions[1..] == [] {
        assert OwnMoves(w1, actions[1..], k) == [];
      } else {
        RunStance(w1, actions[1..], k);
      }
      MovesAllStep(w, actions, k);
    }
  }

  /**
   The main result on position: after any run of the server in which the player stays connected
   and is not pushed, its stance is its start turned and moved by the reckoning of a client that
   has seen the answers to the commands executed.
   */
  lemma ClientKnowsWhereItIs<K>(w: World<K>, actions: seq<Action<K>>, k: K)
    requires Shaped(w) && CanRun(w, actions) && StaysOn(w, actions, k) && Unshoved(actions, k)
    requires AxesFit(w.width, w.height, w.players[k].dir)
    ensures var w' := Run(w, actions);
      && k in w'.players
      && Aligned(w.width, w.height, StanceOf(w, k), StanceOf(w', k),
                 ReckonsAll(w.width, w.height, ORIGIN, OwnMoves(w, actions, k)))
  {
    var start := StanceOf(w, k);
    RunStance(w, actions, k);
    StartAligned(w.width, w.height, start);
    RunAligned(w.width, w.height, start, start, ORIGIN, OwnMoves(w, actions, k));
  }

  lemma SeenTileIs<K>(w: World<K>, k: K, d: int, i: int)
    requires Shaped(w) && k in w.players
    ensures var (ox, oy) := SightOffset(w.players[k].dir, d, i);
      SeenTile(w, k, d, i) == TileIndex(w.width, Wrap(w.players[k].x + ox, w.width), Wrap(w.players[k].y + oy, w.height))
  {
  }

  /** The server tile under a cell of the client's map. */
  ghost function UnderCell<K>(w: World<K>, start: Stance, x: int, y: int): int
    requires w.width > 0 && w.height > 0
  {
    var (sx, sy) := Counterpart(w.width, w.height, start, x, y);
    TileIndex(w.width, sx, sy)
  }

  lemma SeenIsUnderCell<K>(w: World<K>, k: K, start: Stance, c: Reckoning, d: nat, i: nat)
    requires Shaped(w) && k in w.players && i <= 2 * d && 0 <= c.dir < 4
    requires AxesFit(w.width, w.height, start.dir) && Aligned(w.width, w.height, start, StanceOf(w, k), c)
    ensures var (x, y) := Cell(w.width, w.height, c, i - d, -(d as int));
      UnderCell(w, start, x, y) == SeenTile(w, k, d, i)
  {
    SeenIsCounterpart(w.width, w.height, start, StanceOf(w, k), c, d, i);
    SeenTileIs(w, k, d, i);
  }

  lemma BothAt<K>(w: World<K>, k: K, n: nat, d: nat, i: nat)
    requires Shaped(w) && k in w.players && d < n && i <= 2 * d
    ensures Base(d) + i < |View(w, k, n)| == |Offsets(n)|
    ensures Offsets(n)[Base(d) + i] == (i - d, -(d as int))
    ensures View(w, k, n)[Base(d) + i] == Contents(w, k, SeenTile(w, k, d, i))
  {
    OffsetsAt(n, d, i);
    ViewAt(w, k, n, d, i);
  }

  /** An entry of a view is what the server has under the cell the client files it under. */
  ghost predicate FiledRight<K>(w: World<K>, k: K, start: Stance, c: Reckoning, offset: (int, int), entry: seq<Sight>)
    requires Shaped(w) && k in w.players && 0 <= c.dir < 4
  {
    var (x, y) := Cell(w.width, w.height, c, offset.0, offset.1);
    0 <= UnderCell(w, start, x, y) < |w.rows| && entry == Contents(w, k, UnderCell(w, start, x, y))
  }

  lemma SeenIsFiledRight<K>(w: World<K>, k: K, start: Stance, c: Reckoning, d: nat, i: nat)
    requires Shaped(w) && k in w.players && i <= 2 * d && 0 <= c.dir < 4
    requires AxesFit(w.width, w.height, start.dir) && Aligned(w.width, w.height, start, StanceOf(w, k), c)
    ensures FiledRight(w, k, start, c, (i - d, -(d as int)), Contents(w, k, SeenTile(w, k, d, i)))
  {
    SeenIsUnderCell(w, k, start, c, d, i);
    var (x, y) := Cell(w.width, w.height, c, i - d, -(d as int));
    assert UnderCell(w, start, x, y) == SeenTile(w, k, d, i);
  }

  lemma ViewSize<K>(w: World<K>, k: K, n: nat)
    requires Shaped(w) && k in w.players
    ensures |View(w, k, n)| == |Offsets(n)| == Base(n)
  {
    ViewIsFlat(w, k, n);
    FlatLength(SightRows(w, k, n));
    FlatLength(OffsetRows(n));
  }

  /** An entry of a view and its offset, given the row and the place in it. */
  lemma EntryAt<K>(w: World<K>, k: K, n: nat, j: nat) returns (d: nat, i: nat)
    requires Shaped(w) && k in w.players && j < |View(w, k, n)|
    ensures i <= 2 * d && |View(w, k, n)| == |Offsets(n)|
    ensures Offsets(n)[j] == (i - d, -(d as int))
    ensures View(w, k, n)[j] == Contents(w, k, SeenTile(w, k, d, i))
  {
    ViewSize(w, k, n);
    d, i := RowOfPlace(n, j);
    BothAt(w, k, n, d, i);
  }

  lemma EntryIsFiledRight<K>(w: World<K>, k: K, start: Stance, c: Reckoning, n: nat, j: nat, offset: (int, int))
    requires Shaped(w) && k in w.players && 0 <= c.dir < 4 && j < |View(w, k, n)| == |Offsets(n)| && offset == Offsets(n)[j]
    requires AxesFit(w.width, w.height, start.dir) && Aligned(w.width, w.height, start, StanceOf(w, k), c)
    ensures FiledRight(w, k, start, c, offset, View(w, k, n)[j])
  {
    var d, i := EntryAt(w, k, n, j);
    SeenIsFiledRight(w, k, start, c, d, i);
  }

  /** Every entry of a view is filed right. */
  lemma ViewIsFiledRight<K>(w: World<K>, k: K, start: Stance, c: Reckoning, n: nat, j: nat)
    requires Shaped(w) && k in w.players && 0 <= c.dir < 4 && j < |View(w, k, n)|
    requires AxesFit(w.width, w.height, start.dir) && Aligned(w.width, w.height, start, StanceOf(w, k), c)
    ensures |View(w, k, n)| == |Offsets(n)|
    ensures FiledRight(w, k, start, c, Offsets(n)[j], View(w, k, n)[j])
  {
    ViewSize(w, k, n);
    EntryIsFiledRight(w, k, start, c, n, j, Offsets(n)[j]);
  }

  // ----- what a tile's entry says -----

  lemma CountsAdd<T>(a: seq<T>, b: seq<T>, x: T)
    ensures multiset(a + b)[x] == multiset(a)[x] + multiset(b)[x]
  {
  }

  lemma {:induction false} PresentCounts(inv: Inventory, from: nat, kind: Kind)
    requires from <= 7
    ensures multiset(Present(inv, from))[SeesItem(kind)] == if from <= kind && inv[kind] > 0 then 1 else 0
    ensures multiset(Present(inv, from))[SeesPlayer] == 0
    decreases 7 - from
  {
    if from < 7 {
      PresentCounts(inv, from + 1, kind);
      var front := if inv[from] > 0 then [SeesItem(from)] else [];
      assert Present(inv, from) == front + Present(inv, from + 1);
      CountsAdd(front, Present(inv, from + 1), SeesItem(kind));
      CountsAdd(front, Present(inv, from + 1), SeesPlayer);
    }
  }

  /** An entry names each resource of the tile once, however much of it there is. */
  lemma ContentsCount<K>(w: World<K>, k: K, t: nat, kind: Kind)
    requires Shaped(w) && k in w.players && t < |w.rows|
    ensures multiset(Contents(w, k, t))[SeesItem(kind)] == if w.items[t][kind] > 0 then 1 else 0
    ensures multiset(Contents(w, k, t))[SeesPlayer] <= 1
  {
    PresentCounts(w.items[t], 0, kind);
    var front := if |Contents(w, k, t)| > |Present(w.items[t], 0)| then [SeesPlayer] else [];
    assert Contents(w, k, t) == front + Present(w.items[t], 0);
  }

  lemma PresentShowsNobody(inv: Inventory)
    ensures SeesPlayer !in Present(inv, 0)
  {
    PresentCounts(inv, 0, FOOD);
    assert multiset(Present(inv, 0))[SeesPlayer] == 0;
  }

  lemma ShownInEntry<K>(w: World<K>, k: K, t: nat)
    requires Shaped(w) && k in w.players && t < |w.rows|
    ensures 0 <= TileOf(w.width, w.players[k]) < |w.rows|
    ensures SeesPlayer in Contents(w, k, t) <==>
      && !IsLast(w.rows[TileOf(w.width, w.players[k])], k)
      && w.rows[t] != [] && w.rows[t][0] in w.players && w.players[w.rows[t][0]].fd != w.players[k].fd
  {
    TileIndexInRange(w.width, w.height, w.players[k].x, w.players[k].y);
    PresentShowsNobody(w.items[t]);
  }

  /** Somebody heads the list of a tile exactly when somebody stands there. */
  lemma HeadStands<K>(w: World<K>, t: nat)
    requires Placed(w) && t < |w.rows|
    ensures w.rows[t] != [] <==> exists q <- w.players :: TileOf(w.width, w.players[q]) == t
    ensures w.rows[t] != [] ==> w.rows[t][0] in w.players && TileOf(w.width, w.players[w.rows[t][0]]) == t
  {
    assert RowOk(w.rows[t], w.players, w.width, t);
    if w.rows[t] != [] {
      assert w.rows[t][0] in w.rows[t];
    }
  }

  /**
   When an entry says "player": never to a player that is last in its own tile's list, as one alone is;
   to any other, of another tile exactly when somebody stands there, and of its own exactly when it is
   not the first in the list either.
   */
  lemma PlayerShownExactlyWhen<K>(w: World<K>, k: K, t: nat)
    requires Ready(w) && k in w.players && t < |w.rows|
    ensures var own := TileOf(w.width, w.players[k]);
      && 0 <= own < |w.rows| && w.rows[own] != []
      && if IsLast(w.rows[own], k) then SeesPlayer !in Contents(w, k, t)
         else if t == own then SeesPlayer in Contents(w, k, t) <==> w.rows[own][0] != k
         else SeesPlayer in Contents(w, k, t) <==> exists q <- w.players :: TileOf(w.width, w.players[q]) == t
  {
    ShownInEntry(w, k, t);
    HeadStands(w, t);
    HeadStands(w, TileOf(w.width, w.players[k]));
  }

  /** So in its whole view a player that is last in its tile's list sees nobody. */
  lemma LastSeesNobody<K>(w: World<K>, k: K, n: nat, j: nat)
    requires Ready(w) && k in w.players && j < |View(w, k, n)|
    requires var own := TileOf(w.width, w.players[k]); 0 <= own < |w.rows| && IsLast(w.rows[own], k)
    ensures SeesPlayer !in View(w, k, n)[j]
  {
    var d, i := EntryAt(w, k, n, j);
    PlayerShownExactlyWhen(w, k, SeenTile(w, k, d, i));
  }
}

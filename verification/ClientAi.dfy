/** The client's decisions: which commands follow a response. */
module ClientAi {
  import opened Wrappers
  import opened World

  /** A command on its way to the server. */
  datatype Order = Order(command: Command, item: Option<Kind>)

  type View = seq<seq<Sight>>

  // ----- the elevation rules -----

  /** The stones a level asks for; None where there is no rule, which the caller dereferences. */
  function GetRule(level: int): Option<map<Kind, nat>> {
    match level
    case 1 => Some(map[1 := 1])
    case 2 => Some(map[1 := 1, 2 := 1, 3 := 1])
    case 3 => Some(map[1 := 2, 3 := 1, 5 := 2])
    case 4 => Some(map[1 := 1, 2 := 1, 3 := 2, 5 := 1])
    case 5 => Some(map[1 := 1, 2 := 2, 3 := 1, 4 := 3])
    case 6 => Some(map[1 := 1, 2 := 2, 3 := 3, 5 := 1])
    case 7 => Some(map[1 := 2, 2 := 2, 3 := 2, 5 := 2, 4 := 2, 6 := 1])
    case _ => None
  }

  /** The players a level asks for, which the AI never looks up. */
  function RulePlayers(level: int): Option<nat> {
    match level
    case 1 => Some(1)
    case 2 => Some(2)
    case 3 => Some(2)
    case 4 => Some(4)
    case 5 => Some(4)
    case 6 => Some(6)
    case 7 => Some(6)
    case _ => None
  }

  function CountOf(inventory: map<Kind, int>, k: Kind): int {
    if k in inventory then inventory[k] else 0
  }

  /** The client has a rule for a level exactly when the server has an entry at the index below it, and they agree. */
  lemma RulesAreRequirements(level: int)
    ensures GetRule(level + 1).Some? <==> 0 <= level < LEVEL_MAX
    ensures 0 <= level < LEVEL_MAX ==>
      && RulePlayers(level + 1) == Some(LevelReqs(level).players)
      && forall k: Kind :: CountOf(GetRule(level + 1).value, k) == LevelReqs(level).stones[k]
  {
  }

  /**
   The server looks up the index of the level itself, one further: at no level does a tile with just the
   stones of the client's rule have the stones that the server asks for.
   */
  lemma RuleNeverSuffices(level: int) returns (short: Kind)
    requires 1 <= level < LEVEL_MAX
    ensures GetRule(level).Some? && CountOf(GetRule(level).value, short) < LevelReqs(level).stones[short]
  {
    short := if level == 1 then 2 else if level == 2 then 5 else if level == 3 then 2 else if level == 4 then 4 else if level == 5 then 3 else 6;
  }

  /** The stones of a rule that the inventory is short of. */
  function Missing(rule: map<Kind, nat>, inventory: map<Kind, int>): set<Kind> {
    set k <- rule | CountOf(inventory, k) < rule[k]
  }

  // ----- looking through the view -----

  /** The order in which row `d` of the view is searched: the middle, then outwards, left before right. */
  function RowOrder(d: nat, offset: nat): (r: seq<int>)
    requires offset <= d
  {
    if offset == 0 then [d * d + d] else RowOrder(d, offset - 1) + [d * d + d - offset, d * d + d + offset]
  }

  /** The search order over the first `rows` rows. */
  function SearchOrder(rows: nat): seq<int> {
    if rows == 0 then [] else SearchOrder(rows - 1) + RowOrder(rows - 1, rows - 1)
  }

  datatype Find = At(tile: int, kind: Kind) | Nowhere | OutOfRange

  /** The first wanted kind a tile shows, in the order of the enumeration. */
  function FirstWanted(tile: seq<Sight>, wanted: set<Kind>, from: nat): (o: Option<Kind>)
    requires from <= 7
    ensures o.Some? ==> o.value in wanted && SeesItem(o.value) in tile
    ensures o.None? ==> forall k: Kind | from <= k && k in wanted :: SeesItem(k) !in tile
    ensures o.Some? ==> forall k: Kind | from <= k < o.value && k in wanted :: SeesItem(k) !in tile
    decreases 7 - from
  {
    if from == 7 then None
    else if from in wanted && SeesItem(from) in tile then Some(from)
    else FirstWanted(tile, wanted, from + 1)
  }

  function Search(view: View, order: seq<int>, wanted: set<Kind>): Find {
    if order == [] then Nowhere
    else if !(0 <= order[0] < |view|) then OutOfRange
    else
      match FirstWanted(view[order[0]], wanted, 0)
      case Some(k) => At(order[0], k)
      case None => Search(view, order[1..], wanted)
  }

  // ----- moves -----

  /** The row getMovesToTile takes a tile to be in, and the first index of that row, from a candidate on. */
  function GuessRow(tile: int, level: nat, leftIdx: int): (nat, int)
    decreases tile - 2 * level
  {
    if 2 * level + 1 < tile then GuessRow(tile, level + 1, leftIdx + 2 * level + 1) else (level, leftIdx)
  }

  function Repeat(c: Command, n: nat): (r: seq<Command>)
    ensures |r| == n && forall i | 0 <= i < n :: r[i] == c
  {
    seq(n, _ => c)
  }

  function Abs(n: int): nat {
    if n < 0 then -n else n
  }

  /** The moves for a guess: ahead, perhaps a turn, ahead again. */
  function MovesFor(level: nat, offset: int): seq<Command> {
    Repeat(Avance, level)
    + (if offset < 0 then [Gauche] else if offset > 0 then [Droite] else [])
    + Repeat(Avance, Abs(offset))
  }

  function MovesToTile(tile: int): seq<Command> {
    if tile <= 0 then []
    else
      var (level, leftIdx) := GuessRow(tile, 1, 1);
      MovesFor(level, tile - (leftIdx + level))
  }

  function Orders(moves: seq<Command>): (r: seq<Order>)
    ensures |r| == |moves| && forall i | 0 <= i < |r| :: r[i] == Order(moves[i], None)
  {
    seq(|moves|, i requires 0 <= i < |moves| => Order(moves[i], None))
  }

  function Fetch(tile: int, kind: Kind): seq<Order> {
    Orders(MovesToTile(tile)) + [Order(Prend, Some(kind))]
  }

  /** A random move, then another look. */
  function Wander(roll: Command): seq<Order> {
    [Order(roll, None), Order(Command.Voir, None)]
  }

  /** Fetch what the search found, wander when it found nothing; None is an exception. */
  function Pursue(found: Find, roll: Command): Option<seq<Order>> {
    match found
    case At(tile, kind) => Some(Fetch(tile, kind))
    case Nowhere => Some(Wander(roll))
    case OutOfRange => None
  }

  // ----- the decision -----

  datatype Mind = Mind(targets: set<Kind>, debugLevel: int, checked: bool)

  /** What the player object tells its AI. */
  datatype Self = Self(level: nat, life: int, inventory: map<Kind, int>)

  const HUNGRY: int := 1500

  /** decideNextMovesViewBased; None stands for an exception. */
  function Decide(m: Mind, self: Self, view: View, roll: Command): (Mind, Option<seq<Order>>) {
    match GetRule(m.debugLevel)
    case None => (m, None)
    case Some(rule) =>
      var targets := Missing(rule, self.inventory);
      var order := SearchOrder(self.level + 1);
      if self.life < HUNGRY then (m.(targets := targets), Pursue(Search(view, order, {FOOD}), roll))
      else if targets != {} then
        (m.(targets := targets, checked := false), Pursue(Search(view, order, targets), roll))
      else if !m.checked then (m.(targets := targets), Some([Order(Inventaire, None)]))
      else (m.(targets := targets, debugLevel := m.debugLevel + 1), Some([Order(Inventaire, None)]))
  }

  // ----- what the decisions are like -----

  predicate HasRule(level: int) {
    1 <= level <= 7
  }

  lemma SquareStep(d: nat)
    ensures (d + 1) * (d + 1) == d * d + 2 * d + 1
  {
  }

  /** Row `d` of the search order is row `d` of the view, each tile once, nearest the middle first. */
  lemma {:induction false} RowOrderIsRow(d: nat, offset: nat)
    requires offset <= d
    ensures |RowOrder(d, offset)| == 2 * offset + 1
    ensures forall j | 0 <= j <= 2 * offset ::
      RowOrder(d, offset)[j] == if j % 2 == 1 then d * d + d - (j + 1) / 2 else d * d + d + j / 2
  {
    if offset > 0 {
      RowOrderIsRow(d, offset - 1);
    }
  }

  /** Where a tile of the view stands in the search order. */
  ghost function Rank(d: nat, i: nat): nat
    requires i <= 2 * d
  {
    d * d + if i < d then 2 * (d - i) - 1 else 2 * (i - d)
  }

  /** Every entry of the search order is a tile of the view, and there are as many as tiles. */
  lemma {:induction false} SearchOrderInView(rows: nat)
    ensures |SearchOrder(rows)| == rows * rows
    ensures forall j | 0 <= j < rows * rows :: 0 <= SearchOrder(rows)[j] < rows * rows
  {
    if rows > 0 {
      var e := rows - 1;
      SearchOrderInView(e);
      RowOrderIsRow(e, e);
      SquareStep(e);
      var sq := e * e;
      assert rows * rows == sq + 2 * e + 1;
      assert SearchOrder(rows) == SearchOrder(e) + RowOrder(e, e);
      forall j | 0 <= j < rows * rows
        ensures 0 <= SearchOrder(rows)[j] < rows * rows
      {
        if j >= sq {
          assert SearchOrder(rows)[j] == RowOrder(e, e)[j - sq];
        }
      }
    }
  }

  lemma LastRowAt(e: nat, j: nat)
    requires j <= 2 * e
    ensures |SearchOrder(e + 1)| == (e + 1) * (e + 1) == e * e + 2 * e + 1 && |RowOrder(e, e)| == 2 * e + 1
    ensures SearchOrder(e + 1)[e * e + j] == RowOrder(e, e)[j]
  {
    SearchOrderInView(e);
    RowOrderIsRow(e, e);
    SquareStep(e);
  }

  lemma RowRank(e: nat, i: nat)
    requires i <= 2 * e
    ensures |RowOrder(e, e)| == 2 * e + 1
    ensures RowOrder(e, e)[if i < e then 2 * (e - i) - 1 else 2 * (i - e)] == e * e + i
  {
    RowOrderIsRow(e, e);
  }

  lemma LastRowRank(e: nat, i: nat)
    requires i <= 2 * e
    ensures |SearchOrder(e + 1)| == (e + 1) * (e + 1) && e * e <= Rank(e, i) < (e + 1) * (e + 1)
    ensures SearchOrder(e + 1)[Rank(e, i)] == e * e + i
  {
    LastRowAt(e, if i < e then 2 * (e - i) - 1 else 2 * (i - e));
    RowRank(e, i);
  }

  lemma Extends(e: nat, j: nat)
    requires j < e * e
    ensures |SearchOrder(e)| == e * e <= |SearchOrder(e + 1)| == (e + 1) * (e + 1)
    ensures SearchOrder(e + 1)[j] == SearchOrder(e)[j]
  {
    SearchOrderInView(e);
    SearchOrderInView(e + 1);
    SquareStep(e);
    assert SearchOrder(e + 1) == SearchOrder(e) + RowOrder(e, e);
  }

  /** Every tile of the view is searched, at its rank: the search order is a permutation, row by row. */
  lemma {:induction false} SearchOrderRanks(rows: nat, d: nat, i: nat)
    requires d < rows && i <= 2 * d
    ensures |SearchOrder(rows)| == rows * rows && d * d <= Rank(d, i) < (d + 1) * (d + 1) <= rows * rows
    ensures SearchOrder(rows)[Rank(d, i)] == d * d + i
  {
    if d == rows - 1 {
      LastRowRank(d, i);
    } else {
      SearchOrderRanks(rows - 1, d, i);
      Extends(rows - 1, Rank(d, i));
    }
  }

  /** Every index is a row and a place in it. */
  lemma {:induction false} RowOfIndex(rows: nat, j: nat) returns (d: nat, i: nat)
    requires j < rows * rows
    ensures d < rows && i <= 2 * d && j == d * d + i
  {
    var e := rows - 1;
    SquareStep(e);
    if j >= e * e {
      d, i := e, j - e * e;
    } else {
      d, i := RowOfIndex(e, j);
    }
  }

  /** The tile found shows the kind, and no tile before it in the search order shows anything wanted. */
  lemma {:induction false} SearchFindsFirst(view: View, order: seq<int>, wanted: set<Kind>)
    requires forall j | 0 <= j < |order| :: 0 <= order[j] < |view|
    ensures var f := Search(view, order, wanted);
      match f
      case OutOfRange => false
      case Nowhere => forall j, k | 0 <= j < |order| && k in wanted :: SeesItem(k) !in view[order[j]]
      case At(tile, kind) =>
        kind in wanted && exists n | 0 <= n < |order| ::
          order[n] == tile && SeesItem(kind) in view[tile]
          && forall j, k | 0 <= j < n && k in wanted :: SeesItem(k) !in view[order[j]]
  {
    if order != [] {
      var here := FirstWanted(view[order[0]], wanted, 0);
      if here.Some? {
        assert order[0] == Search(view, order, wanted).tile;
      } else {
        SearchFindsFirst(view, order[1..], wanted);
        var f := Search(view, order[1..], wanted);
        if f.At? {
          var n :| 0 <= n < |order[1..]| && order[1..][n] == f.tile && SeesItem(f.kind) in view[f.tile]
            && forall j, k | 0 <= j < n && k in wanted :: SeesItem(k) !in view[order[1..][j]];
          forall j, k | 0 <= j < n + 1 && k in wanted
            ensures SeesItem(k) !in view[order[j]]
          {
            if j > 0 {
              assert order[j] == order[1..][j - 1];
            }
          }
          assert order[n + 1] == f.tile;
        } else {
          forall j, k | 0 <= j < |order| && k in wanted
            ensures SeesItem(k) !in view[order[j]]
          {
            if j > 0 {
              assert order[j] == order[1..][j - 1];
            }
          }
        }
      }
    }
  }

  /** With a whole view, nothing is found exactly when no tile of it shows anything wanted. */
  lemma SearchIsComplete(view: View, level: nat, wanted: set<Kind>)
    requires |view| >= (level + 1) * (level + 1)
    ensures var f := Search(view, SearchOrder(level + 1), wanted);
      && !f.OutOfRange?
      && (f.Nowhere? <==> forall j, k | 0 <= j < (level + 1) * (level + 1) && k in wanted :: SeesItem(k) !in view[j])
  {
    var rows := level + 1;
    var order := SearchOrder(rows);
    SearchOrderInView(rows);
    SearchFindsFirst(view, order, wanted);
    if Search(view, order, wanted).Nowhere? {
      forall j, k | 0 <= j < rows * rows && k in wanted
        ensures SeesItem(k) !in view[j]
      {
        var d, i := RowOfIndex(rows, j);
        SearchOrderRanks(rows, d, i);
        assert order[Rank(d, i)] == j;
      }
    }
  }

  lemma DecidesWithRule(m: Mind, self: Self, view: View, roll: Command)
    requires |view| >= (self.level + 1) * (self.level + 1) && HasRule(m.debugLevel)
    ensures var orders := Decide(m, self, view, roll).1;
      orders.Some? && |orders.value| > 0
  {
    SearchIsComplete(view, self.level, {FOOD});
    SearchIsComplete(view, self.level, Missing(GetRule(m.debugLevel).value, self.inventory));
  }

  /**
   With a whole view the AI throws exactly when it has no rule for its level, and otherwise orders
   at least one command.
   */
  lemma DecidesUnlessRulesRunOut(m: Mind, self: Self, view: View, roll: Command)
    requires |view| >= (self.level + 1) * (self.level + 1)
    ensures var (m', orders) := Decide(m, self, view, roll);
      && (orders.None? <==> !HasRule(m.debugLevel))
      && (orders.Some? ==> |orders.value| > 0)
      && (orders.None? ==> m' == m)
  {
    if HasRule(m.debugLevel) {
      DecidesWithRule(m, self, view, roll);
    } else {
      SearchIsComplete(view, self.level, {FOOD});
    }
  }

  // ----- what it decides -----

  /** The orders go to the n-th tile searched, the first that shows anything wanted, and take the first wanted kind there. */
  ghost predicate Fetches(orders: seq<Order>, view: View, order: seq<int>, wanted: set<Kind>, n: nat, kind: Kind)
    requires forall j | 0 <= j < |order| :: 0 <= order[j] < |view|
  {
    && n < |order| && kind in wanted && SeesItem(kind) in view[order[n]]
    && (forall j, k | 0 <= j < n && k in wanted :: SeesItem(k) !in view[order[j]])
    && (forall k: Kind | k < kind && k in wanted :: SeesItem(k) !in view[order[n]])
    && orders == Orders(MovesToTile(order[n])) + [Order(Prend, Some(kind))]
  }

  /** The orders fetch something wanted if any tile of the view shows it, and else are a random move and a look. */
  ghost predicate Goes(orders: seq<Order>, view: View, order: seq<int>, wanted: set<Kind>, roll: Command)
    requires forall j | 0 <= j < |order| :: 0 <= order[j] < |view|
  {
    if exists j, k | 0 <= j < |order| && k in wanted :: SeesItem(k) in view[order[j]] then
      exists n, kind :: Fetches(orders, view, order, wanted, n, kind)
    else orders == [Order(roll, None), Order(Command.Voir, None)]
  }

  lemma {:induction false} SearchTakesFirstKind(view: View, order: seq<int>, wanted: set<Kind>)
    requires forall j | 0 <= j < |order| :: 0 <= order[j] < |view|
    ensures var f := Search(view, order, wanted);
      f.At? ==> 0 <= f.tile < |view| && forall k: Kind | k < f.kind && k in wanted :: SeesItem(k) !in view[f.tile]
  {
    if order != [] && FirstWanted(view[order[0]], wanted, 0).None? {
      SearchTakesFirstKind(view, order[1..], wanted);
    }
  }

  lemma PursuitGoes(view: View, order: seq<int>, wanted: set<Kind>, roll: Command)
    requires forall j | 0 <= j < |order| :: 0 <= order[j] < |view|
    ensures var orders := Pursue(Search(view, order, wanted), roll);
      orders.Some? && Goes(orders.value, view, order, wanted, roll)
  {
    SearchFindsFirst(view, order, wanted);
    SearchTakesFirstKind(view, order, wanted);
    var f := Search(view, order, wanted);
    if f.At? {
      var n :| 0 <= n < |order| && order[n] == f.tile && SeesItem(f.kind) in view[f.tile]
        && forall j, k | 0 <= j < n && k in wanted :: SeesItem(k) !in view[order[j]];
      assert Fetches(Pursue(f, roll).value, view, order, wanted, n, f.kind);
    }
  }

  /**
   What the AI decides with a rule and a whole view: hungry, it goes for food; else for the stones the rule
   asks for and the inventory is short of; with none short it asks for the inventory, and takes up the
   next rule if an inventory was answered since it last went for a stone.
   */
  lemma DecisionIs(m: Mind, self: Self, view: View, roll: Command)
    requires |view| >= (self.level + 1) * (self.level + 1) && HasRule(m.debugLevel)
    ensures var (m', orders) := Decide(m, self, view, roll);
      var rule, order := GetRule(m.debugLevel).value, SearchOrder(self.level + 1);
      var short := set k <- rule | CountOf(self.inventory, k) < rule[k];
      && orders.Some? && m'.targets == short && (forall j | 0 <= j < |order| :: 0 <= order[j] < |view|)
      && if self.life < 1500 then
           Goes(orders.value, view, order, {FOOD}, roll) && m' == m.(targets := short)
         else if short != {} then
           Goes(orders.value, view, order, short, roll) && m' == Mind(short, m.debugLevel, false)
         else
           orders.value == [Order(Inventaire, None)] && m' == Mind({}, m.debugLevel + if m.checked then 1 else 0, m.checked)
  {
    var order := SearchOrder(self.level + 1);
    SearchOrderInView(self.level + 1);
    PursuitGoes(view, order, {FOOD}, roll);
    PursuitGoes(view, order, Missing(GetRule(m.debugLevel).value, self.inventory), roll);
  }

  // ----- how far the levels go -----

  /** The sequence of minds over any sequence of views. */
  datatype Look = Look(self: Self, view: View, roll: Command, checkedNow: bool)

  /** Between two looks an answered inventaire may set the flag. */
  function Think(m: Mind, looks: seq<Look>): Mind
    decreases |looks|
  {
    if looks == [] then m
    else
      var l := looks[0];
      Think(Decide(if l.checkedNow then m.(checked := true) else m, l.self, l.view, l.roll).0, looks[1..])
  }

  /** The AI counts up one rule at a time, never down, and never past the first level without a rule. */
  lemma {:induction false} RulesAreClimbedInOrder(m: Mind, looks: seq<Look>)
    requires 1 <= m.debugLevel <= 8
    ensures m.debugLevel <= Think(m, looks).debugLevel <= 8
    ensures Think(m, looks).debugLevel <= m.debugLevel + |looks|
    ensures m.debugLevel == 8 ==> Think(m, looks).(checked := m.checked) == m
    decreases |looks|
  {
    if looks != [] {
      var l := looks[0];
      var m1 := Decide(if l.checkedNow then m.(checked := true) else m, l.self, l.view, l.roll).0;
      assert m.debugLevel <= m1.debugLevel <= m.debugLevel + 1;
      RulesAreClimbedInOrder(m1, looks[1..]);
    }
  }

  // ----- whether the moves reach the tile -----

  /** Where a player that starts at (0, 0) facing north ends up, in the plane. */
  function Travel(moves: seq<Command>, x: int, y: int, dx: int, dy: int): (int, int)
    decreases |moves|
  {
    if moves == [] then (x, y)
    else if moves[0] == Avance then Travel(moves[1..], x + dx, y + dy, dx, dy)
    else if moves[0] == Droite then Travel(moves[1..], x, y, -dy, dx)
    else if moves[0] == Gauche then Travel(moves[1..], x, y, dy, -dx)
    else Travel(moves[1..], x, y, dx, dy)
  }

  lemma {:induction false} TravelStraight(n: nat, rest: seq<Command>, x: int, y: int, dx: int, dy: int)
    ensures Travel(Repeat(Avance, n) + rest, x, y, dx, dy) == Travel(rest, x + n * dx, y + n * dy, dx, dy)
  {
    var moves := Repeat(Avance, n) + rest;
    if n == 0 {
      assert moves == rest;
    } else {
      assert moves[0] == Avance && moves[1..] == Repeat(Avance, n - 1) + rest;
      TravelStraight(n - 1, rest, x + dx, y + dy, dx, dy);
      assert (n - 1) * dx + dx == n * dx && (n - 1) * dy + dy == n * dy;
    }
  }

  /** The moves for a guess end at the guessed offset of the guessed row. */
  lemma MovesForArrive(level: nat, offset: int)
    ensures var (x, y) := Travel(MovesFor(level, offset), 0, 0, 0, -1);
      x == offset && y + level == 0
  {
    var turn := if offset < 0 then [Gauche] else if offset > 0 then [Droite] else [];
    var side := Repeat(Avance, Abs(offset));
    assert MovesFor(level, offset) == Repeat(Avance, level) + (turn + side);
    TravelStraight(level, turn + side, 0, 0, 0, -1);
    if offset == 0 {
      assert turn + side == [];
    } else {
      assert (turn + side)[1..] == side && side == side + [];
      TravelStraight(Abs(offset), [], 0, -(level as int), if offset < 0 then -1 else 1, 0);
    }
  }

  /** The guess: half the index as the row, and the first index of that row, had each row two tiles more than the one before. */
  lemma {:induction false} GuessIsHalf(tile: int, level: nat, leftIdx: int)
    requires level >= 1 && leftIdx == level * level && (level > 1 ==> 2 * level - 1 < tile)
    ensures var g := GuessRow(tile, level, leftIdx);
      g.0 == (if tile / 2 <= level then level else tile / 2) && g.1 == g.0 * g.0
    decreases tile - 2 * level
  {
    if 2 * level + 1 < tile {
      assert (level + 1) * (level + 1) == level * level + 2 * level + 1;
      GuessIsHalf(tile, level + 1, leftIdx + 2 * level + 1);
    }
  }

  /** Where the moves for a tile lead: half its index ahead, and as far to the side as that row makes of it. */
  lemma MovesLeadTo(tile: int)
    requires tile > 0
    ensures var row := if tile == 1 then 1 else tile / 2;
      Travel(MovesToTile(tile), 0, 0, 0, -1) == (tile - (row * row + row), -row)
  {
    var (level, leftIdx) := GuessRow(tile, 1, 1);
    MovesForArrive(level, tile - (leftIdx + level));
    GuessIsHalf(tile, 1, 1);
  }

  /** Which rows the first tiles are in; later tiles have an index of more than twice their row. */
  lemma SmallRows(d: nat, i: nat)
    requires i <= 2 * d
    ensures d * d + i == 0 <==> d == 0
    ensures 1 <= d * d + i <= 3 <==> d == 1
    ensures d * d + i > 5 ==> d * d + i > 2 * d + 1
    ensures 4 <= d * d + i <= 5 ==> d == 2
  {
    if d >= 3 {
      assert d * d >= 3 * d;
    }
  }

  /**
   The tile with index d*d + i is `i - d` to the right in the d-th row ahead. The moves computed
   for it reach it exactly when the index is at most 5: beyond, the row is overestimated.
   */
  lemma MovesReachExactlyUpToFive(d: nat, i: nat)
    requires i <= 2 * d
    ensures var (x, y) := Travel(MovesToTile(d * d + i), 0, 0, 0, -1);
      x == i - d && y + d == 0 <==> d * d + i <= 5
  {
    var tile := d * d + i;
    SmallRows(d, i);
    if tile > 0 {
      MovesLeadTo(tile);
    }
  }

  // ----- the AI object -----

  class AI {
    var targets: set<Kind>
    var curView: View
    var debugLevel: int
    var inventaireChecked: bool

    constructor ()
      ensures Value() == Mind({}, 1, false)
    {
      targets, curView, debugLevel, inventaireChecked := {}, [], 1, false;
    }

    ghost function Value(): Mind
      reads this`targets, this`debugLevel, this`inventaireChecked
    {
      Mind(targets, debugLevel, inventaireChecked)
    }

    /** setTargets, once the rule is found. */
    method SetTargets(rule: map<Kind, nat>, inventory: map<Kind, int>)
      modifies this`targets
      ensures targets == Missing(rule, inventory)
    {
      targets := {};
      var k: nat := 0;
      while k < 7
        invariant 0 <= k <= 7
        invariant targets == set q <- Missing(rule, inventory) | q < k
      {
        if k in rule && CountOf(inventory, k) < rule[k] {
          targets := targets + {k};
        }
        k := k + 1;
      }
    }

    /** getViewIndicesSortedByDistance */
    static method GetViewIndicesSortedByDistance(level: nat) returns (result: seq<int>)
      ensures result == SearchOrder(level + 1)
    {
      var index := 1;
      result := [0];
      var l := 1;
      while l <= level
        invariant 1 <= l <= level + 1
        invariant index == l * l && result == SearchOrder(l)
      {
        var rowSize := 2 * l + 1;
        var center := index + rowSize / 2;
        ghost var before := result;
        result := result + [center];
        var offset := 1;
        while offset <= rowSize / 2
          invariant 1 <= offset <= l + 1
          invariant result == before + RowOrder(l, offset - 1)
        {
          result := result + [center - offset, center + offset];
          offset := offset + 1;
        }
        index := index + rowSize;
        l := l + 1;
      }
    }

    /** The search of findItemInView and of searchForTarget: the first wanted thing in search order. */
    method FindInView(level: nat, wanted: set<Kind>) returns (found: Find)
      ensures found == Search(curView, SearchOrder(level + 1), wanted)
    {
      var sortedIndices := GetViewIndicesSortedByDistance(level);
      var n := 0;
      while n < |sortedIndices|
        invariant 0 <= n <= |sortedIndices|
        invariant Search(curView, sortedIndices, wanted) == Search(curView, sortedIndices[n..], wanted)
      {
        var i := sortedIndices[n];
        if !(0 <= i < |curView|) {
          return OutOfRange;
        }
        var kind := FirstWanted(curView[i], wanted, 0);
        if kind.Some? {
          return At(i, kind.value);
        }
        assert sortedIndices[n..][1..] == sortedIndices[n + 1..];
        n := n + 1;
      }
      found := Nowhere;
    }

    /** getMovesToTile */
    static method GetMovesToTile(tileIdx: int) returns (moves: seq<Command>)
      ensures moves == MovesToTile(tileIdx)
    {
      moves := [];
      if tileIdx <= 0 {
        return;
      }
      var level, leftIdx := 1, 1;
      while 2 * level + 1 < tileIdx
        invariant level >= 1
        invariant GuessRow(tileIdx, 1, 1) == GuessRow(tileIdx, level, leftIdx)
        decreases tileIdx - 2 * level
      {
        leftIdx := leftIdx + 2 * level + 1;
        level := level + 1;
      }
      var offset := tileIdx - (leftIdx + level);
      var i := 0;
      while i < level
        invariant 0 <= i <= level
        invariant moves == Repeat(Avance, i)
      {
        moves := moves + [Avance];
        i := i + 1;
      }
      if offset < 0 {
        moves := moves + [Gauche];
      } else if offset > 0 {
        moves := moves + [Droite];
      }
      ghost var turned := moves;
      i := 0;
      while i < Abs(offset)
        invariant 0 <= i <= Abs(offset)
        invariant moves == turned + Repeat(Avance, i)
      {
        moves := moves + [Avance];
        i := i + 1;
      }
    }

    /** searchForFood and searchForTarget; None when the view is too short and the search runs off it. */
    method SearchFor(level: nat, wanted: set<Kind>, roll: Command) returns (commands: Option<seq<Order>>)
      ensures commands == Pursue(Search(curView, SearchOrder(level + 1), wanted), roll)
    {
      var found := FindInView(level, wanted);
      match found {
        case At(tile, kind) =>
          var moves := GetMovesToTile(tile);
          commands := Some(Orders(moves) + [Order(Prend, Some(kind))]);
        case Nowhere =>
          commands := Some(Wander(roll));
        case OutOfRange =>
          commands := None;
      }
    }

    /** decideNextMovesViewBased; None stands for an exception. */
    method DecideNextMovesViewBased(self: Self, view: View, roll: Command) returns (commands: Option<seq<Order>>)
      modifies this
      ensures (Value(), commands) == Decide(old(Value()), self, view, roll)
      ensures curView == view
    {
      curView := view;
      var rule := GetRule(debugLevel);
      if rule.None? {
        return None;
      }
      SetTargets(rule.value, self.inventory);
      if self.life < HUNGRY {
        commands := SearchFor(self.level, {FOOD}, roll);
        return;
      }
      if inventaireChecked && targets != {} {
        inventaireChecked := false;
      }
      if targets != {} {
        commands := SearchFor(self.level, targets, roll);
        return;
      } else if !inventaireChecked {
        return Some([Order(Inventaire, None)]);
      }
      debugLevel := debugLevel + 1;
      commands := Some([Order(Inventaire, None)]);
    }

    /** decideNextMoves */
    method DecideNextMoves(roll: Command) returns (commands: seq<Order>)
      ensures commands == Wander(roll)
    {
      commands := [Order(roll, None)];
      commands := commands + [Order(Command.Voir, None)];
    }
  }
}

/** What the client does with one response of the server, as a value. */
module Driving {
  import opened Wrappers
  import opened World
  import W = World
  import opened ClientAi
  import opened Pose

  const WINDOW: int := 10

  // ----- the command manager -----

  /** The command manager: what waits, how many answers are awaited, and everything sent so far. */
  datatype Window = Window(queue: seq<Order>, pending: int, dead: bool, wire: seq<Order>)

  /** sendCommand: a dead client sends nothing. */
  function Send(m: Window, o: Order): Window {
    if m.dead then m else m.(pending := m.pending + 1, wire := m.wire + [o])
  }

  /** The loop that ends every handleResponse. */
  function Drain(m: Window): Window
    decreases |m.queue|
  {
    if m.queue == [] || m.pending >= WINDOW then m
    else Drain(Send(m.(queue := m.queue[1..]), m.queue[0]))
  }

  /** One response handled; `added` is what the player queues because of it, None an exception. */
  function Answered(m: Window, added: Option<seq<Order>>): Window {
    var counted := m.(pending := m.pending - 1);
    match added
    case None => counted
    case Some(orders) => Drain(counted.(queue := counted.queue + orders))
  }

  /** The welcome: one look around is sent at once. */
  function Welcomed(m: Window): Window {
    Drain(Send(m, Order(Command.Voir, None)))
  }

  function Min(a: int, b: int): int {
    if a < b then a else b
  }

  /** Draining sends the longest part of the queue that fits the window, in order. */
  lemma {:induction false} DrainFillsWindow(m: Window)
    requires !m.dead
    ensures var n := if m.pending >= WINDOW then 0 else Min(|m.queue|, WINDOW - m.pending);
      Drain(m) == Window(m.queue[n..], m.pending + n, false, m.wire + m.queue[..n])
    decreases |m.queue|
  {
    if m.queue != [] && m.pending < WINDOW {
      var next := Send(m.(queue := m.queue[1..]), m.queue[0]);
      DrainFillsWindow(next);
      var n := Min(|m.queue|, WINDOW - m.pending);
      assert m.queue[..n] == [m.queue[0]] + m.queue[1..][..n - 1];
    }
  }

  /** A dead client throws its queue away. */
  lemma {:induction false} DrainOfTheDead(m: Window)
    requires m.dead && m.pending < WINDOW
    ensures Drain(m) == m.(queue := [])
    decreases |m.queue|
  {
    if m.queue != [] {
      DrainOfTheDead(m.(queue := m.queue[1..]));
    }
  }

  // ----- responses -----

  /**
   A message of type response, as far as the client reads it. Foreign is a command word the client
   does not know: what others say ("message") and a push ("deplacement").
   */
  datatype Response =
    | Moved(command: Command, ok: bool)
    | Saw(view: View)
    | Stock(counts: map<Kind, int>)
    | Took(kind: Kind, ok: bool)
    | Put(kind: Kind, ok: bool)
    | Noted(command: Command)
    | Foreign
    | Died

  /** The command a response is about. */
  function CommandOf(r: Response): Command
    requires !r.Died? && !r.Foreign?
  {
    match r
    case Moved(c, _) => c
    case Saw(_) => Command.Voir
    case Stock(_) => Inventaire
    case Took(_, _) => Prend
    case Put(_, _) => Command.Pose
    case Noted(c) => c
  }

  predicate IsMove(c: Command) {
    c == Avance || c == Gauche || c == Droite
  }

  /** Moved is about moves only, and Noted about the commands whose answers are only printed. */
  predicate WellTyped(r: Response) {
    match r
    case Moved(c, _) => IsMove(c)
    case Noted(c) => c in {Expulse, Command.Broadcast, Incantation, Fork, ConnectNbr}
    case _ => true
  }

  function TimeUnits(c: Command): int {
    match c
    case Inventaire => 1
    case Incantation => 300
    case Fork => 42
    case ConnectNbr => 0
    case _ => 7
  }

  const FOOD_LIFE: int := 126

  /** computeIfPresent: the last one takes the entry with it. */
  function Removed(inventory: map<Kind, int>, k: Kind): map<Kind, int> {
    if k !in inventory then inventory
    else if inventory[k] > 1 then inventory[k := inventory[k] - 1]
    else inventory - {k}
  }

  // ----- the player -----

  /** The inventory after a response. */
  function Stored(inventory: map<Kind, int>, r: Response): map<Kind, int> {
    match r
    case Stock(counts) => inventory + counts
    case Took(kind, ok) => if ok then inventory[kind := CountOf(inventory, kind) + 1] else inventory
    case Put(kind, ok) => if ok then Removed(inventory, kind) else inventory
    case _ => inventory
  }

  /** The life a response brings before its time is taken off. */
  function Fed(r: Response): int {
    if r == Took(FOOD, true) then FOOD_LIFE else 0
  }

  /** The position after a response. */
  function Reckoned(width: int, height: int, p: Reckoning, r: Response): Reckoning
    requires ValidReckoning(width, height, p)
  {
    if r.Moved? && r.ok then Reckons(width, height, p, r.command) else p
  }

  /** An inventory that was answered sets the AI's flag. */
  function Noticed(m: Mind, r: Response): Mind {
    if r.Stock? && r.counts != map[] then m.(checked := true) else m
  }

  /**
   What a look leads to: a view larger than the client's level is an exception in the map, before
   the AI sees it; else the AI decides.
   */
  function LookAt(m: Mind, self: Self, view: View, roll: Command): (Mind, Option<seq<Order>>) {
    if |view| > |Offsets(self.level + 1)| then (m, None) else Decide(m, self, view, roll)
  }

  /**
   What the AI makes of a response, `pending` being still awaited, and what the player queues; None
   is an exception, which also an unknown command word is.
   */
  function Decision(m: Mind, self: Self, pending: int, r: Response, roll: Command): (Mind, Option<seq<Order>>) {
    match r
    case Saw(view) => LookAt(m, self, view, roll)
    case Foreign => (m, None)
    case Died => (m, Some([]))
    case _ => (Noticed(m, r), Some(if pending == 0 then Wander(roll) else []))
  }

  /** What the player keeps of itself; an exception and a death notice leave it alone. */
  function Outlived(self: Self, r: Response, added: Option<seq<Order>>): Self {
    if added.None? || r.Died? || r.Foreign? then self
    else Self(self.level, self.life + Fed(r) - TimeUnits(CommandOf(r)), Stored(self.inventory, r))
  }

  /** The client's program: command manager, AI, and what the player knows of itself. */
  datatype Driver = Driver(window: Window, mind: Mind, self: Self)

  /** handleResponse, whole. */
  function Respond(d: Driver, r: Response, roll: Command): Driver {
    var (mind, added) := Decision(d.mind, d.self, d.window.pending - 1, r, roll);
    Driver(Answered(d.window, added), mind, Outlived(d.self, r, added))
  }

  /** The client right after the welcome: nothing known, level 1, one look sent. */
  function Newborn(): Driver {
    Driver(Welcomed(Window([], 0, false, [])), Mind({}, 1, false), Self(1, 1260, map[]))
  }

  /** One look sent and awaited, the first rule to go by, ten units of life, nothing held. */
  lemma NewbornIs()
    ensures Newborn() == Driver(Window([], 1, false, [Order(Command.Voir, None)]), Mind({}, 1, false), Self(1, 10 * FOOD_LIFE, map[]))
  {
    DrainFillsWindow(Send(Window([], 0, false, []), Order(Command.Voir, None)));
  }

  // ----- what the decisions are like -----

  /** A command with exactly one answer: an incantation and an own broadcast have more. */
  predicate Single(o: Order) {
    o.command != Incantation && o.command != Command.Broadcast
  }

  ghost predicate AllSingle(orders: seq<Order>) {
    forall o <- orders :: Single(o)
  }

  /** A look is the last of the orders, if there is one at all. */
  ghost predicate LookLast(orders: seq<Order>) {
    forall i | 0 <= i < |orders| - 1 :: orders[i].command != Command.Voir
  }

  /** The orders of a decision. */
  ghost predicate IsDecision(orders: seq<Order>) {
    |orders| > 0 && AllSingle(orders) && LookLast(orders)
  }

  lemma MovesAreMoves(tile: int)
    ensures forall i | 0 <= i < |MovesToTile(tile)| :: IsMove(MovesToTile(tile)[i])
  {
  }

  lemma PursuitIsBatch(found: Find, roll: Command)
    requires IsMove(roll)
    ensures var orders := Pursue(found, roll);
      orders.Some? ==> IsDecision(orders.value)
  {
    if found.At? {
      MovesAreMoves(found.tile);
    }
  }

  /** The AI's decisions are batches: never empty, of commands with one answer, a look only at the end. */
  lemma DecisionsAreBatches(m: Mind, self: Self, view: View, roll: Command)
    requires IsMove(roll)
    ensures var orders := Decide(m, self, view, roll).1;
      orders.Some? ==> IsDecision(orders.value)
    ensures IsDecision(Wander(roll))
  {
    var rule := GetRule(m.debugLevel);
    if rule.Some? {
      var order := SearchOrder(self.level + 1);
      PursuitIsBatch(Search(view, order, {FOOD}), roll);
      PursuitIsBatch(Search(view, order, Missing(rule.value, self.inventory)), roll);
    }
  }

  lemma WayIsShort(tile: int)
    requires 0 <= tile < 4
    ensures |MovesToTile(tile)| <= 3
  {
    if tile > 0 {
      assert GuessRow(tile, 1, 1) == (1, 1);
    }
  }

  lemma PursuitIsShort(view: View, wanted: set<Kind>, roll: Command)
    requires |view| == 4
    ensures var orders := Pursue(Search(view, SearchOrder(2), wanted), roll);
      orders.Some? ==> |orders.value| <= 4
  {
    SearchOrderInView(2);
    SearchFindsFirst(view, SearchOrder(2), wanted);
    var found := Search(view, SearchOrder(2), wanted);
    if found.At? {
      assert 0 <= found.tile < 4;
      WayIsShort(found.tile);
    }
  }

  /** A player of level 1 sees four tiles, and no batch is longer than the way to one of them. */
  lemma BatchesAreShort(m: Mind, self: Self, view: View, roll: Command)
    requires self.level == 1 && |view| == 4 && IsMove(roll)
    ensures var orders := Decide(m, self, view, roll).1;
      orders.Some? ==> |orders.value| <= 4
  {
    var rule := GetRule(m.debugLevel);
    if rule.Some? {
      PursuitIsShort(view, {FOOD}, roll);
      PursuitIsShort(view, Missing(rule.value, self.inventory), roll);
    }
  }

  // ----- when a response is an exception -----

  lemma {:induction false} BaseGrows(a: nat, b: nat)
    requires a <= b
    ensures Base(a) <= Base(b) && (a < b ==> Base(a) < Base(b))
  {
    if a < b {
      BaseGrows(a, b - 1);
    }
  }

  lemma OffsetsSize(n: nat)
    ensures |Offsets(n)| == Base(n) == n * n
  {
    FlatLength(OffsetRows(n));
    BaseIsSquare(n);
  }

  /**
   With a whole view, a look throws if and only if the view is of a higher level than the client's,
   or the AI has run out of rules.
   */
  lemma LookThrowsExactlyWhen(m: Mind, self: Self, view: View, roll: Command)
    requires |view| >= Base(self.level + 1) && IsMove(roll)
    ensures var added := LookAt(m, self, view, roll).1;
      && (added.None? <==> |view| > Base(self.level + 1) || !HasRule(m.debugLevel))
      && (added.Some? ==> IsDecision(added.value))
      && (added.None? ==> LookAt(m, self, view, roll).0 == m)
  {
    OffsetsSize(self.level + 1);
    DecisionsAreBatches(m, self, view, roll);
    DecidesUnlessRulesRunOut(m, self, view, roll);
  }

  /**
   On the view the server makes for a player at least at the client's level: a look throws if and
   only if the server has raised the player further, or the rules ran out.
   */
  lemma RaisedPlayerThrows<K>(w: World<K>, k: K, m: Mind, self: Self, roll: Command)
    requires Shaped(w) && k in w.players && self.level <= w.players[k].level && IsMove(roll)
    ensures LookAt(m, self, W.View(w, k, w.players[k].level + 1), roll).1.None?
      <==> self.level < w.players[k].level || !HasRule(m.debugLevel)
  {
    var n := w.players[k].level + 1;
    ViewSize(w, k, n);
    BaseGrows(self.level + 1, n);
    LookThrowsExactlyWhen(m, self, W.View(w, k, n), roll);
  }

  /** A response that adds nothing and makes the drain loop be left out. */
  predicate Throws(d: Driver, r: Response, roll: Command) {
    Decision(d.mind, d.self, d.window.pending - 1, r, roll).1.None?
  }

  // ----- single responses -----

  /** With little queued, everything decided is sent. */
  lemma AllSent(m: Window, orders: seq<Order>)
    requires !m.dead && m.queue == [] && m.pending - 1 + |orders| <= WINDOW
    ensures Answered(m, Some(orders)) == Window([], m.pending - 1 + |orders|, false, m.wire + orders)
  {
    var counted := m.(pending := m.pending - 1, queue := orders);
    assert m.queue + orders == orders;
    DrainFillsWindow(counted);
    assert orders[|orders|..] == [] && orders[..|orders|] == orders;
  }

  /** The only answer awaited is the one to a look of level 1: decided on, unless the rules are out. */
  lemma LookResponse(d: Driver, view: View, roll: Command) returns (sent: seq<Order>)
    requires !d.window.dead && d.window.pending == 1 && d.window.queue == [] && d.self.level == 1
    requires |view| == Base(2) && IsMove(roll)
    ensures var d' := Respond(d, Saw(view), roll);
      && d'.mind.debugLevel >= d.mind.debugLevel && d'.self.level == 1
      && d'.window == Window([], |sent|, false, d.window.wire + sent)
      && if HasRule(d.mind.debugLevel) then IsDecision(sent) && |sent| <= 4 else sent == [] && d'.mind == d.mind
  {
    LookThrowsExactlyWhen(d.mind, d.self, view, roll);
    if HasRule(d.mind.debugLevel) {
      assert Base(2) == 4;
      BatchesAreShort(d.mind, d.self, view, roll);
      sent := LookAt(d.mind, d.self, view, roll).1.value;
      AllSent(d.window, sent);
    } else {
      sent := [];
      assert d.window.wire + [] == d.window.wire;
    }
  }

  /** Any other answer, or a level-up: the client wanders when it was the last it awaited, and an inventory is noticed. */
  lemma OtherResponse(d: Driver, r: Response, roll: Command) returns (sent: seq<Order>)
    requires !d.window.dead && d.window.pending <= WINDOW && d.window.queue == []
    requires !r.Saw? && !r.Foreign? && !r.Died? && IsMove(roll)
    ensures sent == if d.window.pending == 1 then Wander(roll) else []
    ensures var d' := Respond(d, r, roll);
      && d'.window == Window([], d.window.pending - 1 + |sent|, false, d.window.wire + sent)
      && d'.mind == d.mind.(checked := d.mind.checked || (r.Stock? && r.counts != map[])) && d'.self.level == d.self.level
  {
    sent := if d.window.pending == 1 then Wander(roll) else [];
    AllSent(d.window, sent);
  }

  /** A death notice counts as an answer, makes room for what was kept back, and changes nothing else. */
  lemma DeathResponse(d: Driver, roll: Command)
    requires !d.window.dead
    ensures var m := d.window;
      var n := if m.pending > WINDOW then 0 else Min(|m.queue|, WINDOW - m.pending + 1);
      Respond(d, Died, roll) == d.(window := Window(m.queue[n..], m.pending - 1 + n, false, m.wire + m.queue[..n]))
  {
    assert d.window.queue + [] == d.window.queue;
    DrainFillsWindow(d.window.(pending := d.window.pending - 1, queue := d.window.queue + []));
  }

  /** An exception: one answer less is awaited. */
  lemma ThrownResponse(d: Driver, r: Response, roll: Command)
    requires IsMove(roll) && d.self.level == 1
    requires r.Foreign? || (r.Saw? && |r.view| >= Base(2) && (|r.view| > Base(2) || !HasRule(d.mind.debugLevel)))
    ensures Respond(d, r, roll) == d.(window := d.window.(pending := d.window.pending - 1))
  {
    if r.Saw? {
      LookThrowsExactlyWhen(d.mind, d.self, r.view, roll);
    }
  }
}

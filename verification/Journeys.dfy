/**
 Runs of the flow from the welcome on: to the last rule, where the client stalls, and past a
 level-up or a word of others, where it loses count.
 */
module Journeys {
  import opened Wrappers
  import opened World
  import opened ClientAi
  import opened Pose
  import opened Driving
  import opened Flow
  import opened Silence

  // ----- runs put together -----

  ghost predicate Leads<K>(l: Link<K>, steps: seq<Step>, l': Link<K>) {
    CanRun(l, steps) && RunAll(l, steps) == l'
  }

  lemma Onward<K>(l: Link<K>, a: seq<Step>, l1: Link<K>, b: seq<Step>, l2: Link<K>) returns (steps: seq<Step>)
    requires Leads(l, a, l1) && Leads(l1, b, l2)
    ensures Leads(l, steps, l2)
  {
    RunJoins(l, a, b);
    steps := a + b;
  }

  /** The client awaits `n` answers, the line is these orders, no message is on its way. */
  ghost predicate Poised<K>(l: Link<K>, n: int, line: seq<Order>) {
    Balanced(l) && l.down == [] && l.driver.window.pending == n && l.driver.window.queue == [] && Line(l) == line
  }

  const LOOK: Order := Order(Command.Voir, None)

  /** The first order of the line is answered; `sent` is what the client sends because of it. */
  lemma Serve<K>(l: Link<K>, n: int, line: seq<Order>, content: Response, roll: Command, sent: seq<Order>)
    returns (l': Link<K>, steps: seq<Step>)
    requires Poised(l, n, line) && line != [] && IsMove(roll)
    requires Fits(line[0], content) && (content.Saw? ==> SeenAt(content.view, l.level))
    requires Respond(l.driver, content, roll).window == Window([], n - 1 + |sent|, false, l.driver.window.wire + sent)
    ensures Leads(l, steps, l') && Poised(l', n - 1 + |sent|, line[1..] + sent)
    ensures l'.driver == Respond(l.driver, content, roll)
    ensures l'.strays == l.strays && l'.raised == l.raised && l'.level == l.level
  {
    l', steps := Progress(l, content, roll);
    assert (l.driver.window.wire + sent)[|l.driver.window.wire|..] == sent;
  }

  // ----- what the AI does where there is plenty of everything -----

  const PLENTY: seq<Sight> := [SeesItem(0), SeesItem(1), SeesItem(2), SeesItem(3), SeesItem(4), SeesItem(5), SeesItem(6)]

  const PLENTY_VIEW: View := [PLENTY, [], [], []]

  lemma PlentyShows(k: Kind)
    ensures SeesItem(k) in PLENTY
  {
    assert PLENTY[k] == SeesItem(k);
  }

  lemma PlentySearch(wanted: set<Kind>) returns (k: Kind)
    requires wanted != {}
    ensures k in wanted && Search(PLENTY_VIEW, SearchOrder(2), wanted) == At(0, k)
  {
    var here := FirstWanted(PLENTY, wanted, 0);
    if here.None? {
      var q :| q in wanted;
      PlentyShows(q);
      assert false;
    }
    k := here.value;
    SearchOrderInView(2);
    assert SearchOrder(2)[0] == 0 by {
      LastRowAt(0, 0);
      assert SearchOrder(2) == SearchOrder(1) + RowOrder(1, 1);
      assert SearchOrder(1) == SearchOrder(0) + RowOrder(0, 0);
    }
  }

  /** What is missing of a rule, from a kind on. */
  ghost function DeficitFrom(rule: map<Kind, nat>, inventory: map<Kind, int>, from: nat): nat
    requires from <= 7
    decreases 7 - from
  {
    if from == 7 then 0
    else (if from in rule && CountOf(inventory, from) < rule[from] then rule[from] - CountOf(inventory, from) else 0)
         + DeficitFrom(rule, inventory, from + 1)
  }

  lemma {:induction false} DeficitSame(rule: map<Kind, nat>, a: map<Kind, int>, b: map<Kind, int>, from: nat)
    requires from <= 7 && forall k: Kind | from <= k && k in rule :: CountOf(a, k) == CountOf(b, k)
    ensures DeficitFrom(rule, a, from) == DeficitFrom(rule, b, from)
    decreases 7 - from
  {
    if from < 7 {
      DeficitSame(rule, a, b, from + 1);
    }
  }

  lemma {:induction false} DeficitShrinks(rule: map<Kind, nat>, inventory: map<Kind, int>, k: Kind, from: nat)
    requires from <= k && k in rule && CountOf(inventory, k) < rule[k]
    ensures DeficitFrom(rule, inventory[k := CountOf(inventory, k) + 1], from) == DeficitFrom(rule, inventory, from) - 1
    decreases 7 - from
  {
    var more := inventory[k := CountOf(inventory, k) + 1];
    if from == k {
      DeficitSame(rule, more, inventory, from + 1);
    } else {
      DeficitShrinks(rule, inventory, k, from + 1);
    }
  }

  /** The stones missing for the rule at hand. */
  ghost function Deficit(m: Mind, self: Self): nat {
    match GetRule(m.debugLevel)
    case None => 0
    case Some(rule) => DeficitFrom(rule, self.inventory, 0)
  }

  ghost function Hunger(self: Self): nat {
    if self.life < HUNGRY then HUNGRY - self.life else 0
  }

  /** The first of these to change has become less. */
  ghost predicate Closer(m: Mind, self: Self, m': Mind, self': Self) {
    || m'.debugLevel == m.debugLevel + 1
    || (m'.debugLevel == m.debugLevel &&
          (|| Deficit(m', self') < Deficit(m, self)
           || (Deficit(m', self') == Deficit(m, self) &&
                 (|| (m'.checked && !m.checked)
                  || (m'.checked == m.checked && Hunger(self') < Hunger(self))))))
  }

  /** The inventory as the server would answer it. */
  function Counts(inventory: map<Kind, int>): map<Kind, int> {
    map k: Kind | 0 <= k < 7 :: CountOf(inventory, k)
  }

  function AnswerTo(o: Order, inventory: map<Kind, int>): Response {
    if o.command == Prend && o.item.Some? then Took(o.item.value, true) else Stock(Counts(inventory))
  }

  /** The order a look where there is plenty leads to. */
  ghost predicate Wants(m: Mind, self: Self, m': Mind, o: Order) {
    && HasRule(m.debugLevel)
    && (if self.life < HUNGRY then
          o == Order(Prend, Some(FOOD)) && m'.debugLevel == m.debugLevel && m'.checked == m.checked
        else if Missing(GetRule(m.debugLevel).value, self.inventory) != {} then
          && o.command == Prend && o.item.Some? && o.item.value in Missing(GetRule(m.debugLevel).value, self.inventory)
          && m'.debugLevel == m.debugLevel
        else
          && o == Order(Inventaire, None)
          && m'.debugLevel == m.debugLevel + (if m.checked then 1 else 0) && m'.checked == m.checked)
  }

  lemma FetchHere(k: Kind)
    ensures Fetch(0, k) == [Order(Prend, Some(k))]
  {
    assert MovesToTile(0) == [];
  }

  lemma PlentyDecides(m: Mind, self: Self, roll: Command) returns (o: Order)
    requires HasRule(m.debugLevel) && self.level == 1
    ensures Decide(m, self, PLENTY_VIEW, roll).1 == Some([o])
    ensures Wants(m, self, Decide(m, self, PLENTY_VIEW, roll).0, o)
    ensures o == Order(Inventaire, None) || (o.command == Prend && o.item.Some?)
  {
    var missing := Missing(GetRule(m.debugLevel).value, self.inventory);
    var food := PlentySearch({FOOD});
    if self.life < HUNGRY {
      o := Order(Prend, Some(FOOD));
      FetchHere(FOOD);
    } else if missing != {} {
      var k := PlentySearch(missing);
      o := Order(Prend, Some(k));
      FetchHere(k);
    } else {
      o := Order(Inventaire, None);
    }
  }

  lemma FoodIsNoStone(m: Mind)
    requires HasRule(m.debugLevel)
    ensures FOOD !in GetRule(m.debugLevel).value
  {
  }

  /** What the player knows of itself after a round: a look, the answer to the order, and a move. */
  function SelfAfter(self: Self, o: Order): Self {
    var r := AnswerTo(o, self.inventory);
    Self(self.level, self.life - 7 + Fed(r) - TimeUnits(CommandOf(r)) - 7, Stored(self.inventory, r))
  }

  lemma MealIsCloser(m: Mind, self: Self)
    requires HasRule(m.debugLevel) && self.life < HUNGRY
    ensures var fed := SelfAfter(self, Order(Prend, Some(FOOD)));
      Deficit(m, fed) == Deficit(m, self) && Hunger(fed) < Hunger(self)
  {
    FoodIsNoStone(m);
    DeficitSame(GetRule(m.debugLevel).value, SelfAfter(self, Order(Prend, Some(FOOD))).inventory, self.inventory, 0);
  }

  lemma StoneIsCloser(m: Mind, self: Self, k: Kind)
    requires HasRule(m.debugLevel) && k in Missing(GetRule(m.debugLevel).value, self.inventory)
    ensures Deficit(m, SelfAfter(self, Order(Prend, Some(k)))) < Deficit(m, self)
  {
    var rule := GetRule(m.debugLevel).value;
    assert SelfAfter(self, Order(Prend, Some(k))).inventory == self.inventory[k := CountOf(self.inventory, k) + 1];
    DeficitShrinks(rule, self.inventory, k, 0);
  }

  lemma CheckIsCloser(m: Mind, self: Self)
    requires HasRule(m.debugLevel)
    ensures Deficit(m, SelfAfter(self, Order(Inventaire, None))) == Deficit(m, self)
    ensures Counts(self.inventory) != map[]
  {
    DeficitSame(GetRule(m.debugLevel).value, SelfAfter(self, Order(Inventaire, None)).inventory, self.inventory, 0);
    assert FOOD in Counts(self.inventory);
  }

  /** After a round the AI is closer to its next rule. */
  lemma RoundIsCloser(m: Mind, self: Self, m': Mind, o: Order)
    requires Wants(m, self, m', o)
    ensures Closer(m, self, Noticed(m', AnswerTo(o, self.inventory)), SelfAfter(self, o))
  {
    if self.life < HUNGRY {
      MealIsCloser(m, self);
    } else if Missing(GetRule(m.debugLevel).value, self.inventory) != {} {
      StoneIsCloser(m, self, o.item.value);
    } else {
      CheckIsCloser(m, self);
    }
  }

  // ----- a round: a look, what it leads to, a move -----

  lemma PlentyIsSeen(m: Mind, self: Self, roll: Command)
    requires self.level == 1
    ensures |PLENTY_VIEW| == Base(2) && LookAt(m, self, PLENTY_VIEW, roll) == Decide(m, self, PLENTY_VIEW, roll)
  {
    OffsetsSize(2);
  }

  lemma LooksRound(d: Driver, roll: Command) returns (o: Order)
    requires d.window == Window([], 1, false, d.window.wire) && d.self.level == 1 && HasRule(d.mind.debugLevel) && IsMove(roll)
    ensures var d' := Respond(d, Saw(PLENTY_VIEW), roll);
      && d'.window == Window([], 1, false, d.window.wire + [o]) && d'.self == Self(1, d.self.life - 7, d.self.inventory)
      && Wants(d.mind, d.self, d'.mind, o)
    ensures o == Order(Inventaire, None) || (o.command == Prend && o.item.Some?)
  {
    PlentyIsSeen(d.mind, d.self, roll);
    o := PlentyDecides(d.mind, d.self, roll);
    AllSent(d.window, [o]);
  }

  lemma RoundLooks<K>(l: Link<K>) returns (o: Order, l': Link<K>, steps: seq<Step>)
    requires Poised(l, 1, [LOOK]) && l.strays == 0 && !RulesOut(l)
    ensures Leads(l, steps, l') && Poised(l', 1, [o]) && l'.strays == 0
    ensures l'.driver.self == Self(1, l.driver.self.life - 7, l.driver.self.inventory)
    ensures Wants(l.driver.mind, l.driver.self, l'.driver.mind, o)
    ensures o == Order(Inventaire, None) || (o.command == Prend && o.item.Some?)
  {
    o := LooksRound(l.driver, Avance);
    PlentyIsSeen(l.driver.mind, l.driver.self, Avance);
    l', steps := Serve(l, 1, [LOOK], Saw(PLENTY_VIEW), Avance, [o]);
    assert [LOOK][1..] + [o] == [o];
  }

  /** Any other answer that was the only one awaited: a move and a look are sent. */
  lemma RoundServes<K>(l: Link<K>, o: Order, r: Response) returns (l': Link<K>, steps: seq<Step>)
    requires Poised(l, 1, [o]) && Fits(o, r) && !r.Saw?
    ensures Leads(l, steps, l') && Poised(l', 2, [Order(Avance, None), LOOK]) && l'.strays == l.strays
    ensures l'.driver.self == Outlived(l.driver.self, r, Some([])) && l'.driver.mind == Noticed(l.driver.mind, r)
  {
    var sent := OtherResponse(l.driver, r, Avance);
    l', steps := Serve(l, 1, [o], r, Avance, sent);
    assert [o][1..] + sent == [Order(Avance, None), LOOK];
  }

  lemma RoundMoves<K>(l: Link<K>) returns (l': Link<K>, steps: seq<Step>)
    requires Poised(l, 2, [Order(Avance, None), LOOK])
    ensures Leads(l, steps, l') && Poised(l', 1, [LOOK]) && l'.strays == l.strays
    ensures l'.driver.self == Self(1, l.driver.self.life - 7, l.driver.self.inventory) && l'.driver.mind == l.driver.mind
  {
    var sent := OtherResponse(l.driver, Moved(Avance, true), Avance);
    l', steps := Serve(l, 2, [Order(Avance, None), LOOK], Moved(Avance, true), Avance, sent);
    assert [Order(Avance, None), LOOK][1..] + sent == [LOOK];
  }

  /** One round from a look to the next. */
  lemma Round<K>(l: Link<K>) returns (l': Link<K>, steps: seq<Step>)
    requires Poised(l, 1, [LOOK]) && l.strays == 0 && !RulesOut(l)
    ensures Leads(l, steps, l') && Poised(l', 1, [LOOK]) && l'.strays == 0
    ensures Closer(l.driver.mind, l.driver.self, l'.driver.mind, l'.driver.self)
  {
    var o, l1, first := RoundLooks(l);
    var l2, second := RoundServes(l1, o, AnswerTo(o, l.driver.self.inventory));
    var l3, third := RoundMoves(l2);
    RoundIsCloser(l.driver.mind, l.driver.self, l1.driver.mind, o);
    l' := l3;
    steps := Onward(l1, second, l2, third, l3);
    steps := Onward(l, first, l1, steps, l3);
  }

  /** Rounds lead to the end of the rules. */
  lemma {:induction false} Climb<K>(l: Link<K>) returns (l': Link<K>, steps: seq<Step>)
    requires Poised(l, 1, [LOOK]) && l.strays == 0 && 1 <= l.driver.mind.debugLevel <= 8
    ensures Leads(l, steps, l') && Poised(l', 1, [LOOK]) && l'.strays == 0 && RulesOut(l')
    decreases 8 - l.driver.mind.debugLevel, Deficit(l.driver.mind, l.driver.self),
              if l.driver.mind.checked then 0 else 1, Hunger(l.driver.self)
  {
    if RulesOut(l) {
      l', steps := l, [];
    } else {
      var l1, first := Round(l);
      var l2, rest := Climb(l1);
      steps := Onward(l, first, l1, rest, l2);
      l' := l2;
    }
  }

  /**
   From the welcome on, on a tile with plenty of everything and with answers as the server gives
   them, the client climbs all its rules; its next look stalls it.
   */
  lemma StallIsReachable<K>(l: Link<K>) returns (steps: seq<Step>)
    requires Opened(l)
    ensures CanRun(l, steps) && RunAll(l, steps).strays == 0 && Stalled(RunAll(l, steps)) && RulesOut(RunAll(l, steps))
  {
    OpenedBalanced(l);
    var l1, climb := Climb(l);
    PlentyIsSeen(l1.driver.mind, l1.driver.self, Avance);
    ThrownResponse(l1.driver, Saw(PLENTY_VIEW), Avance);
    assert l1.driver.window.wire + [] == l1.driver.window.wire;
    var l2, look := Serve(l1, 1, [LOOK], Saw(PLENTY_VIEW), Avance, []);
    steps := Onward(l, climb, l1, look, l2);
  }

  // ----- what strays lead to -----

  const MOVE: Order := Order(Avance, None)

  /** Others make the server send one message, and the client handles it. */
  lemma Hear<K>(l: Link<K>, n: int, line: seq<Order>, heard: Response, sent: seq<Order>) returns (l': Link<K>, steps: seq<Step>)
    requires Poised(l, n, line) && IsStray(heard) && l.level < LEVEL_MAX
    requires Respond(l.driver, heard, Avance).window == Window([], n - 1 + |sent|, false, l.driver.window.wire + sent)
    ensures Leads(l, steps, l') && Poised(l', n - 1 + |sent|, line + sent)
    ensures l'.driver == Respond(l.driver, heard, Avance) && l'.strays == l.strays + 1
    ensures l'.raised == l.raised + (if heard == LEVEL_UP then 1 else 0)
    ensures l'.level == l.level + (if heard == LEVEL_UP then 1 else 0)
  {
    assert [heard][1..] == [];
    assert Strays([heard]) == [Stray(heard)] && [Stray(heard)][1..] == [];
    var l1 := Next(l, Intrude([heard]));
    assert l1.down == [Stray(heard)];
    IntrudeBalanced(l, [heard]);
    HandleBalanced(l1, Avance);
    HandleSends(l1, Avance, sent);
    l' := Next(l1, Handle(Avance));
    steps := Before(l1, Handle(Avance), l', []);
    steps := Before(l, Intrude([heard]), l1, steps);
  }

  /** One look more is on its way than the client knows, and none will show it anything. */
  ghost predicate Limping<K>(l: Link<K>) {
    Poised(l, 2, [LOOK, MOVE, LOOK]) && l.raised >= 1
  }

  /** A look of a raised player is answered. */
  lemma LookFails<K>(l: Link<K>, n: int, line: seq<Order>) returns (l': Link<K>, steps: seq<Step>)
    requires Poised(l, n, line) && line != [] && line[0] == LOOK && l.raised >= 1
    ensures Leads(l, steps, l') && Poised(l', n - 1, line[1..])
    ensures l'.driver == l.driver.(window := l.driver.window.(pending := n - 1))
    ensures l'.strays == l.strays && l'.raised == l.raised && l'.level == l.level
  {
    var view := Blank(Base(l.level + 1));
    BaseGrows(2, l.level + 1);
    ThrownResponse(l.driver, Saw(view), Avance);
    assert l.driver.window.wire + [] == l.driver.window.wire && line[1..] + [] == line[1..];
    l', steps := Serve(l, n, line, Saw(view), Avance, []);
  }

  /** A round that shows the client nothing: a look fails, a move is answered, a move and a look are sent. */
  lemma LimpRound<K>(l: Link<K>) returns (l': Link<K>, steps: seq<Step>)
    requires Limping(l)
    ensures Leads(l, steps, l') && Limping(l') && l'.strays == l.strays && l'.raised == l.raised && l'.level == l.level
    ensures l'.driver.window.wire == l.driver.window.wire + [MOVE, LOOK]
    ensures l'.driver.mind.debugLevel == l.driver.mind.debugLevel
  {
    var l1, first := LookFails(l, 2, [LOOK, MOVE, LOOK]);
    assert [LOOK, MOVE, LOOK][1..] == [MOVE, LOOK];
    var sent := OtherResponse(l1.driver, Moved(Avance, true), Avance);
    var l2, second := Serve(l1, 1, [MOVE, LOOK], Moved(Avance, true), Avance, sent);
    assert [MOVE, LOOK][1..] + sent == [LOOK, MOVE, LOOK];
    l' := l2;
    steps := Onward(l, first, l1, second, l2);
  }

  lemma {:induction false} LimpsOn<K>(l: Link<K>, n: nat) returns (l': Link<K>, steps: seq<Step>)
    requires Limping(l)
    ensures Leads(l, steps, l') && Limping(l') && l'.strays == l.strays && l'.level == l.level
    ensures |l'.driver.window.wire| == |l.driver.window.wire| + 2 * n
    ensures l'.driver.mind.debugLevel == l.driver.mind.debugLevel
    decreases n
  {
    if n == 0 {
      l', steps := l, [];
    } else {
      var l1, first := LimpRound(l);
      var l2, rest := LimpsOn(l1, n - 1);
      l' := l2;
      steps := Onward(l, first, l1, rest, l2);
    }
  }

  lemma OpenedIsPoised<K>(l: Link<K>)
    requires Opened(l)
    ensures Poised(l, 1, [LOOK]) && l.strays == 0 && !RulesOut(l) && |l.driver.window.wire| == 1
  {
    OpenedBalanced(l);
  }

  lemma LevelUpMakesLimp<K>(l: Link<K>) returns (l': Link<K>, steps: seq<Step>)
    requires Opened(l)
    ensures Leads(l, steps, l') && Limping(l') && l'.strays == 1 && l'.level == 2 && |l'.driver.window.wire| == 3
    ensures !RulesOut(l')
  {
    OpenedIsPoised(l);
    var sent := OtherResponse(l.driver, LEVEL_UP, Avance);
    l', steps := Hear(l, 1, [LOOK], LEVEL_UP, sent);
    assert [LOOK] + sent == [LOOK, MOVE, LOOK];
  }

  /**
   A player raised once, right after the welcome: its client never sees anything again, and still
   sends a move and a look, over and over, for as long as one likes.
   */
  lemma RaisedWandersBlindly<K>(l: Link<K>, n: nat) returns (steps: seq<Step>)
    requires Opened(l)
    ensures CanRun(l, steps)
    ensures var r := RunAll(l, steps);
      Awake(r) && Blind(r) && r.level == 2 && r.strays == 1 && !RulesOut(r) && |r.driver.window.wire| == 3 + 2 * n
  {
    OpenedIsPoised(l);
    var l1, first := LevelUpMakesLimp(l);
    var l2, rest := LimpsOn(l1, n);
    steps := Onward(l, first, l1, rest, l2);
  }

  /** A player raised twice: its client falls silent. */
  lemma RaisedTwiceSinks<K>(l: Link<K>) returns (steps: seq<Step>)
    requires Opened(l)
    ensures CanRun(l, steps)
    ensures var r := RunAll(l, steps);
      Sunk(r) && |Line(r)| == 2 && r.level == 3 && r.strays == 2
  {
    var l1, first := LevelUpMakesLimp(l);
    var none := OtherResponse(l1.driver, LEVEL_UP, Avance);
    var l2, second := Hear(l1, 2, [LOOK, MOVE, LOOK], LEVEL_UP, none);
    assert [LOOK, MOVE, LOOK] + none == [LOOK, MOVE, LOOK];
    var l3, third := LookFails(l2, 1, [LOOK, MOVE, LOOK]);
    steps := Onward(l1, second, l2, third, l3);
    steps := Onward(l, first, l1, steps, l3);
  }

  /** One word of another player is enough: heard while a single answer is awaited, it silences the client. */
  lemma OneWordSilences<K>(l: Link<K>) returns (steps: seq<Step>)
    requires Opened(l)
    ensures CanRun(l, steps)
    ensures var r := RunAll(l, steps);
      Sunk(r) && |Line(r)| == 1 && r.level == 1 && r.strays == 1 && !RulesOut(r)
  {
    OpenedIsPoised(l);
    var o, l1, first := RoundLooks(l);
    ThrownResponse(l1.driver, Foreign, Avance);
    assert l1.driver.window.wire + [] == l1.driver.window.wire && [o] + [] == [o];
    var l2, second := Hear(l1, 1, [o], Foreign, []);
    steps := Onward(l, first, l1, second, l2);
  }
}

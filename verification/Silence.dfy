/**
 What the messages do that answer nothing. The client takes each for an answer it awaits, so it
 counts less than is on its way: it may decide too early, or miss the moment to decide at all and
 never send anything again.
 */
module Silence {
  import opened EventRing
  import opened World
  import opened ClientAi
  import opened Pose
  import opened Driving
  import opened Flow

  // ----- a client whose looks fail -----

  /** Every look handled from now on is an exception: the client took a level-up, or has no rule left. */
  ghost predicate Blind<K>(l: Link<K>) {
    l.raised >= 1 || RulesOut(l)
  }

  ghost predicate NoLook(orders: seq<Order>) {
    forall o <- orders :: o.command != Command.Voir
  }

  /** The client awaits something and keeps nothing back. */
  ghost predicate Awake<K>(l: Link<K>) {
    Balanced(l) && l.driver.window.pending >= 1 && l.driver.window.queue == []
  }

  /** Nothing can make the client send any more. */
  ghost predicate Sunk<K>(l: Link<K>) {
    Balanced(l) && l.driver.window.pending <= 0 && l.driver.window.queue == [] && (Blind(l) || NoLook(Line(l)))
  }

  /** The size of a view at hand tells how many level-ups were handled before it. */
  lemma LookAtHand<K>(l: Link<K>)
    requires Balanced(l) && l.down != [] && l.down[0].content.Saw?
    ensures l.down[0].Answer? && l.down[0].order.command == Command.Voir
    ensures |l.down[0].content.view| == Base(2 + l.raised) >= Base(2)
    ensures |l.down[0].content.view| > Base(2) <==> l.raised >= 1
    ensures Line(l) != [] && Line(l)[0] == l.down[0].order
  {
    BaseGrows(2, 2 + l.raised);
    AwaitedHead(l.down);
    assert Line(l)[0] == l.down[0].order;
  }

  /**
   A look throws if and only if the client took a level-up before it or has no rule left.
   */
  lemma LookThrowsAfterLevelUp<K>(l: Link<K>, roll: Command)
    requires Balanced(l) && Can(l, Handle(roll)) && l.down[0].content.Saw?
    ensures Throws(l.driver, l.down[0].content, roll) <==> Blind(l)
  {
    LookAtHand(l);
    LookThrowsExactlyWhen(l.driver.mind, l.driver.self, l.down[0].content.view, roll);
  }

  /** An exception takes one from the count and changes nothing else of the client. */
  lemma Exception<K>(l: Link<K>, roll: Command)
    requires Balanced(l) && Can(l, Handle(roll))
    requires l.down[0].content.Foreign? || (l.down[0].content.Saw? && Blind(l))
    ensures var l' := Next(l, Handle(roll));
      && l'.driver == l.driver.(window := l.driver.window.(pending := l.driver.window.pending - 1))
      && Balanced(l') && (Blind(l) ==> Blind(l'))
      && Line(l') == if l.down[0].Answer? then Line(l)[1..] else Line(l)
  {
    if l.down[0].content.Saw? {
      LookAtHand(l);
    }
    ThrownResponse(l.driver, l.down[0].content, roll);
    HandleBalanced(l, roll);
    assert l.driver.window.wire + [] == l.driver.window.wire;
    HandleSends(l, roll, []);
  }

  /** Any other message: the client wanders if it was the last one it awaited. */
  lemma Routine<K>(l: Link<K>, roll: Command) returns (sent: seq<Order>)
    requires Balanced(l) && l.driver.window.queue == [] && Can(l, Handle(roll))
    requires !l.down[0].content.Saw? && !l.down[0].content.Foreign?
    ensures sent == if l.driver.window.pending == 1 then Wander(roll) else []
    ensures var l' := Next(l, Handle(roll));
      && l'.driver.window == Window([], l.driver.window.pending - 1 + |sent|, false, l.driver.window.wire + sent)
      && Balanced(l') && (Blind(l) ==> Blind(l')) && (l.down[0] == Stray(LEVEL_UP) ==> l'.raised >= 1)
      && (RulesOut(l') <==> RulesOut(l))
      && Line(l') == (if l.down[0].Answer? then Line(l)[1..] else Line(l)) + sent
  {
    sent := OtherResponse(l.driver, l.down[0].content, roll);
    HandleBalanced(l, roll);
    HandleSends(l, roll, sent);
  }

  // ----- silence -----

  lemma SunkArrives<K>(l: Link<K>, delay: nat)
    requires Sunk(l) && Can(l, Arrive(delay))
    ensures Sunk(Next(l, Arrive(delay)))
  {
    ArriveBalanced(l, delay);
    if |Live(l.ring)| < MAX_EVENTS {
      ArriveKeepsLine(l, delay);
    } else {
      RefusalShortensLine(l, delay);
    }
  }

  lemma SunkHandles<K>(l: Link<K>, roll: Command)
    requires Sunk(l) && Can(l, Handle(roll))
    ensures Sunk(Next(l, Handle(roll))) && Next(l, Handle(roll)).driver.window.wire == l.driver.window.wire
  {
    var content := l.down[0].content;
    if content.Saw? {
      LookAtHand(l);
    }
    if content.Saw? || content.Foreign? {
      Exception(l, roll);
    } else {
      var sent := Routine(l, roll);
    }
  }

  lemma SunkStays<K>(l: Link<K>, s: Step)
    requires Sunk(l) && Can(l, s)
    ensures Sunk(Next(l, s)) && Next(l, s).driver.window.wire == l.driver.window.wire
  {
    match s
    case Tick(_) =>
    case Arrive(delay) => SunkArrives(l, delay);
    case Run(content) => RunKeepsLine(l, content); StepBalanced(l, s);
    case Intrude(heard) => IntrudeBalanced(l, heard);
    case Handle(roll) => SunkHandles(l, roll);
  }

  /** Whatever happens afterwards, the client sends nothing any more. */
  lemma {:induction false} SunkForever<K>(l: Link<K>, steps: seq<Step>)
    requires Sunk(l) && CanRun(l, steps)
    ensures Sunk(RunAll(l, steps)) && RunAll(l, steps).driver.window.wire == l.driver.window.wire
    decreases |steps|
  {
    if steps != [] {
      SunkStays(l, steps[0]);
      SunkForever(Next(l, steps[0]), steps[1..]);
    }
  }

  lemma StalledIsSunk<K>(l: Link<K>)
    requires Stalled(l)
    ensures Sunk(l)
  {
  }

  // ----- after a level-up, or without a rule -----

  /** An exception comes when the client counts one answer. */
  ghost predicate Misses<K>(l: Link<K>, s: Step) {
    s.Handle? && l.down != [] && l.driver.window.pending == 1 && (l.down[0].content.Saw? || l.down[0].content.Foreign?)
  }

  lemma BlindHandles<K>(l: Link<K>, roll: Command)
    requires Awake(l) && Blind(l) && Can(l, Handle(roll))
    ensures var l' := Next(l, Handle(roll));
      Blind(l') && if Misses(l, Handle(roll)) then Sunk(l') else Awake(l')
  {
    var content := l.down[0].content;
    if content.Saw? || content.Foreign? {
      Exception(l, roll);
    } else {
      var sent := Routine(l, roll);
    }
  }

  lemma BlindStep<K>(l: Link<K>, s: Step)
    requires Awake(l) && Blind(l) && Can(l, s)
    ensures Blind(Next(l, s)) && if Misses(l, s) then Sunk(Next(l, s)) else Awake(Next(l, s))
  {
    if s.Handle? {
      BlindHandles(l, s.roll);
    } else {
      StepBalanced(l, s);
    }
  }

  ghost predicate MissesIn<K>(l: Link<K>, steps: seq<Step>)
    requires CanRun(l, steps)
    decreases |steps|
  {
    steps != [] && (Misses(l, steps[0]) || MissesIn(Next(l, steps[0]), steps[1..]))
  }

  /**
   A blind client goes on as long as no exception comes when it counts one answer, and from then
   on is silent.
   */
  lemma {:induction false} BlindSinksExactlyWhen<K>(l: Link<K>, steps: seq<Step>)
    requires Awake(l) && Blind(l) && CanRun(l, steps)
    ensures var r := RunAll(l, steps);
      && (Sunk(r) <==> MissesIn(l, steps))
      && (Awake(r) && |Line(r)| >= 1 <==> !MissesIn(l, steps))
    decreases |steps|
  {
    if steps != [] {
      var l' := Next(l, steps[0]);
      BlindStep(l, steps[0]);
      if Misses(l, steps[0]) {
        SunkForever(l', steps[1..]);
      } else {
        BlindSinksExactlyWhen(l', steps[1..]);
      }
    }
  }

  // ----- the first stray -----

  /** The first level-up a client takes leaves it awake and blind, for good. */
  lemma FirstLevelUpBlinds<K>(l: Link<K>, roll: Command)
    requires Flowing(l) && Can(l, Handle(roll)) && l.down[0] == Stray(LEVEL_UP)
    ensures Awake(Next(l, Handle(roll))) && Blind(Next(l, Handle(roll)))
  {
    var sent := Routine(l, roll);
  }

  lemma OneOrder(orders: seq<Order>)
    requires |orders| == 1
    ensures NoLook(orders) <==> orders[0].command != Command.Voir
  {
    assert orders == [orders[0]];
  }

  /**
   The first word it does not know, while it has a rule: silence if and only if the client counts
   one answer and that is not the one to a look.
   */
  lemma FirstForeignSinksExactlyWhen<K>(l: Link<K>, roll: Command)
    requires Flowing(l) && !RulesOut(l) && Can(l, Handle(roll)) && l.down[0] == Stray(Foreign)
    ensures |Line(l)| == l.driver.window.pending
    ensures Sunk(Next(l, Handle(roll))) <==> l.driver.window.pending == 1 && Line(l)[0].command != Command.Voir
  {
    Exception(l, roll);
    if l.driver.window.pending == 1 {
      OneOrder(Line(l));
    }
  }

  // ----- the exact condition of silence -----

  function Blank(n: nat): (view: View)
    ensures |view| == n
  {
    seq(n, _ => [])
  }

  /** Some answer to an order, at the level the player is at. */
  ghost function SomeAnswer(o: Order, level: nat): (r: Response)
    requires Single(o)
    ensures Fits(o, r) && (r.Saw? ==> SeenAt(r.view, level))
  {
    match o.command
    case Voir => Saw(Blank(Base(level + 1)))
    case Inventaire => Stock(map[])
    case Prend => Took(FOOD, false)
    case Pose => Put(FOOD, false)
    case c => if IsMove(c) then Moved(c, true) else Noted(c)
  }

  lemma Before<K>(l: Link<K>, s: Step, l': Link<K>, rest: seq<Step>) returns (steps: seq<Step>)
    requires Can(l, s) && l' == Next(l, s) && CanRun(l', rest)
    ensures CanRun(l, steps) && RunAll(l, steps) == RunAll(l', rest)
  {
    steps := [s] + rest;
    assert steps[1..] == rest;
  }

  /** The first order of the line is in the buffer, if it is not there already. */
  lemma Arrived<K>(l: Link<K>) returns (l': Link<K>, steps: seq<Step>)
    requires Balanced(l) && l.down == [] && Line(l) != []
    ensures CanRun(l, steps) && l' == RunAll(l, steps)
    ensures Balanced(l') && Live(l'.ring) != [] && Line(l') == Line(l)
    ensures l' == l.(ring := l'.ring, up := l'.up)
  {
    if Live(l.ring) != [] {
      l', steps := l, [];
    } else {
      assert l.up != [];
      ArriveKeepsLine(l, 0);
      ArriveBalanced(l, 0);
      PushBackAppends(l.ring, l.now, 0, CallOf(l.up[0], l.me), ToArg(l.up[0].item));
      l' := Next(l, Arrive(0));
      steps := Before(l, Arrive(0), l', []);
    }
  }

  lemma Served<K>(l: Link<K>, content: Response, roll: Command) returns (l': Link<K>, steps: seq<Step>)
    requires Balanced(l) && l.down == [] && Live(l.ring) != [] && IsMove(roll)
    requires Fits(Line(l)[0], content) && (content.Saw? ==> SeenAt(content.view, l.level))
    ensures CanRun(l, steps) && l' == RunAll(l, steps) && Balanced(l') && l'.down == []
    ensures l'.driver == Respond(l.driver, content, roll)
    ensures Line(l') == Line(l)[1..] + Sent(l.driver.window, l'.driver.window)
    ensures l'.strays == l.strays && l'.raised == l.raised && l'.level == l.level && l'.lost == l.lost
  {
    var due := if l.now > Live(l.ring)[0].time then l.now else Live(l.ring)[0].time;
    var l1 := Next(l, Tick(due));
    assert Live(l.ring)[0] == l.ring.slots[l.ring.head];
    assert Line(l)[0] == OrderOf(Live(l.ring)[0]);
    var l2 := Next(l1, Run(content));
    RunKeepsLine(l1, content);
    StepBalanced(l1, Run(content));
    assert l2.down == [Answer(Line(l)[0], content)];
    var sent := HandleLine(l2, roll);
    HandleBalanced(l2, roll);
    l' := Next(l2, Handle(roll));
    steps := Before(l2, Handle(roll), l', []);
    steps := Before(l1, Run(content), l2, steps);
    steps := Before(l, Tick(due), l1, steps);
  }

  /** The first order of the line is executed, answered, and its answer handled. */
  lemma Progress<K>(l: Link<K>, content: Response, roll: Command) returns (l': Link<K>, steps: seq<Step>)
    requires Balanced(l) && l.down == [] && Line(l) != [] && IsMove(roll)
    requires Fits(Line(l)[0], content) && (content.Saw? ==> SeenAt(content.view, l.level))
    ensures CanRun(l, steps) && l' == RunAll(l, steps) && Balanced(l') && l'.down == []
    ensures l'.driver == Respond(l.driver, content, roll)
    ensures Line(l') == Line(l)[1..] + Sent(l.driver.window, l'.driver.window)
    ensures l'.strays == l.strays && l'.raised == l.raised && l'.level == l.level && l'.lost == l.lost
  {
    var l1, first := Arrived(l);
    var l2, second := Served(l1, content, roll);
    RunJoins(l, first, second);
    l', steps := l2, first + second;
  }

  ghost predicate Speaks<K>(l: Link<K>, steps: seq<Step>) {
    CanRun(l, steps) && RunAll(l, steps).driver.window.wire != l.driver.window.wire
  }

  lemma LevelUpHeard<K>(l: Link<K>, roll: Command) returns (steps: seq<Step>)
    requires Balanced(l) && l.down == [] && l.level < LEVEL_MAX && IsMove(roll)
    requires l.driver.window.queue != [] || l.driver.window.pending == 1
    ensures Speaks(l, steps)
  {
    var l1 := Next(l, Intrude([LEVEL_UP]));
    assert [LEVEL_UP][1..] == [] && l1.down == [Stray(LEVEL_UP)] && l1.down[1..] == [];
    IntrudeBalanced(l, [LEVEL_UP]);
    var sent := RespondWindow(l.driver, LEVEL_UP, roll);
    assert |sent| > 0;
    steps := Before(l1, Handle(roll), Next(l1, Handle(roll)), []);
    steps := Before(l, Intrude([LEVEL_UP]), l1, steps);
  }

  lemma LineIsSingle<K>(l: Link<K>)
    requires Balanced(l) && l.down == []
    ensures AllSingle(Line(l))
  {
    forall o <- Line(l)
      ensures Single(o)
    {
      if o !in l.up {
        var i :| 0 <= i < |Live(l.ring)| && OrdersOf(Live(l.ring))[i] == o;
        assert Live(l.ring)[i] in Live(l.ring);
      }
    }
  }

  /** Awaiting more than one answer, the client is brought to await one, or sends something on the way. */
  lemma {:induction false} AwakeSpeaks<K>(l: Link<K>, roll: Command) returns (steps: seq<Step>)
    requires Awake(l) && l.down == [] && 1 <= l.level < LEVEL_MAX && IsMove(roll)
    ensures Speaks(l, steps)
    decreases l.driver.window.pending
  {
    if l.driver.window.pending == 1 {
      steps := LevelUpHeard(l, roll);
    } else {
      AwaitedIsInFlight(l);
      LineIsSingle(l);
      var content := SomeAnswer(Line(l)[0], l.level);
      var l1, first := Progress(l, content, roll);
      var sent := RespondWindow(l.driver, content, roll);
      if sent != [] {
        steps := first;
      } else {
        assert l.driver.window.wire + [] == l.driver.window.wire;
        var rest := AwakeSpeaks(l1, roll);
        RunJoins(l, first, rest);
        steps := first + rest;
      }
    }
  }

  lemma Unchanged(wire: seq<Order>, line: seq<Order>)
    ensures wire + [] == wire && wire[|wire|..] == [] && line + [] == line
  {
  }

  lemma SeeingSends(d: Driver, view: View, roll: Command)
    requires !d.window.dead && d.window.pending <= 0 && d.window.queue == [] && d.self.level == 1
    requires |view| == Base(2) && HasRule(d.mind.debugLevel) && IsMove(roll)
    ensures Respond(d, Saw(view), roll).window.wire != d.window.wire
  {
    LookThrowsExactlyWhen(d.mind, d.self, view, roll);
    var sent := RespondWindow(d, Saw(view), roll);
    assert |sent| > 0;
  }

  /** A look that will be answered at the client's own level, with a rule, makes it send. */
  lemma {:induction false} LookSpeaks<K>(l: Link<K>, roll: Command) returns (steps: seq<Step>)
    requires Balanced(l) && l.down == [] && IsMove(roll)
    requires l.driver.window.pending <= 0 && l.driver.window.queue == [] && !Blind(l) && !NoLook(Line(l))
    ensures Speaks(l, steps)
    decreases |Line(l)|
  {
    LineIsSingle(l);
    var o := Line(l)[0];
    var content := SomeAnswer(o, l.level);
    var l1, first := Progress(l, content, roll);
    if content.Saw? {
      SeeingSends(l.driver, content.view, roll);
      steps := first;
    } else {
      var sent := OtherResponse(l.driver, content, roll);
      Unchanged(l.driver.window.wire, Line(l)[1..]);
      var rest := LookSpeaks(l1, roll);
      RunJoins(l, first, rest);
      steps := first + rest;
    }
  }

  /**
   Once the messages on their way are handled: the client never sends anything again, whatever
   happens, if and only if it is sunk. Below the top level, that is, where it can still be raised.
   */
  lemma SilentExactlyWhen<K>(l: Link<K>)
    requires Balanced(l) && l.down == [] && l.level < LEVEL_MAX
    ensures Sunk(l) <==> forall steps :: !Speaks(l, steps)
  {
    if Sunk(l) {
      forall steps
        ensures !Speaks(l, steps)
      {
        if CanRun(l, steps) {
          SunkForever(l, steps);
        }
      }
    } else {
      var steps: seq<Step>;
      if l.driver.window.queue != [] {
        steps := LevelUpHeard(l, Avance);
      } else if l.driver.window.pending >= 1 {
        steps := AwakeSpeaks(l, Avance);
      } else {
        steps := LookSpeaks(l, Avance);
      }
      assert Speaks(l, steps);
    }
  }
}

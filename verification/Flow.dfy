/**
 The flow control between one client and its event buffer on the server: commands travel up a
 FIFO channel, wait in the ten-slot buffer, and their answers travel down another, between the
 messages that answer nothing.
 */
module Flow {
  import opened Wrappers
  import opened EventRing
  import opened World
  import W = World
  import opened Ledger
  import opened ClientAi
  import opened Pose
  import opened Driving
  import B = Broadcast

  // ----- both sides and the channels -----

  /** A response on its way: the answer to an order, or one the client did not ask for. */
  datatype Message = Answer(order: Order, content: Response) | Stray(content: Response)

  /**
   The client of player `me`, which is at `level` on the server: `up` and `down` are the channels,
   `ring` its buffer on the server, `answered` the orders whose answers were handled. Handled were
   also `strays` others, `raised` of them level-ups; `lost` orders were refused by a full buffer.
   */
  datatype Link<K> = Link(me: K, driver: Driver, level: int, up: seq<Order>, ring: Ring<Callback<K>, Arg>,
                          down: seq<Message>, answered: seq<Order>, strays: nat, raised: nat, lost: nat, now: int)

  datatype Step =
    | Tick(to: int)
    | Arrive(delay: nat)
    | Run(content: Response)            // the server executes the head and answers
    | Intrude(heard: seq<Response>)     // others make the server send the client something
    | Handle(roll: Command)

  function ToArg(item: Option<Kind>): Option<Arg> {
    match item
    case None => None
    case Some(k) => Some(Item(k))
  }

  /** The callback an order is queued with. */
  function CallOf<K>(o: Order, me: K): Option<Callback<K>> {
    Some(Callback(Do(o.command), me))
  }

  /** The order a queued event came from. */
  ghost function OrderOf<K>(e: Event<Callback<K>, Arg>): Order {
    Order(if e.call.Some? && e.call.value.job.Do? then e.call.value.job.command else Command.Voir,
          if e.arg.Some? && e.arg.value.Item? then Some(e.arg.value.kind) else None)
  }

  /** The event is an order of this player with one answer, waiting. */
  ghost predicate IsOrder<K>(e: Event<Callback<K>, Arg>, me: K) {
    e.call == CallOf(OrderOf(e), me) && e.arg == ToArg(OrderOf(e).item) && Single(OrderOf(e))
  }

  ghost function OrdersOf<K>(q: seq<Event<Callback<K>, Arg>>): (r: seq<Order>)
    ensures |r| == |q|
  {
    seq(|q|, i requires 0 <= i < |q| => OrderOf(q[i]))
  }

  // ----- messages -----

  /** The response is one to the order. */
  predicate Fits(o: Order, r: Response) {
    && WellTyped(r) && !r.Died? && !r.Foreign? && CommandOf(r) == o.command
    && (r.Took? && r.ok ==> o.item == Some(r.kind)) && (r.Put? && r.ok ==> o.item == Some(r.kind))
  }

  const LEVEL_UP: Response := Noted(Incantation)

  /** What the client can hear unasked: that it was raised, what others say, and that it was pushed. */
  predicate IsStray(r: Response) {
    r == LEVEL_UP || r == Foreign
  }

  ghost function Strays(heard: seq<Response>): (r: seq<Message>)
    ensures |r| == |heard|
  {
    seq(|heard|, i requires 0 <= i < |heard| => Stray(heard[i]))
  }

  /** The orders whose answers are among the messages. */
  ghost function Awaited(down: seq<Message>): (r: seq<Order>)
    ensures |r| <= |down|
  {
    if down == [] then []
    else (if down[0].Answer? then [down[0].order] else []) + Awaited(down[1..])
  }

  /** How many of the messages are level-ups. */
  ghost function LevelUps(down: seq<Message>): nat {
    if down == [] then 0 else (if down[0] == Stray(LEVEL_UP) then 1 else 0) + LevelUps(down[1..])
  }

  /** A view of the size the server makes for a level. */
  ghost predicate SeenAt(view: View, level: int) {
    level >= 0 && |view| == Base(level + 1)
  }

  /** A look in the channel was made at the level that the level-ups before it tell. */
  ghost predicate Fitting(down: seq<Message>, level: int) {
    down == [] ||
    (&& (match down[0]
         case Answer(o, r) => Single(o) && Fits(o, r) && (r.Saw? ==> SeenAt(r.view, level))
         case Stray(r) => IsStray(r))
     && Fitting(down[1..], level + if down[0] == Stray(LEVEL_UP) then 1 else 0))
  }

  lemma Regroup<T>(a: seq<T>, b: seq<T>, c: seq<T>)
    ensures (a + b) + c == a + (b + c)
  {
  }

  lemma {:induction false} AwaitedAdds(a: seq<Message>, b: seq<Message>)
    ensures Awaited(a + b) == Awaited(a) + Awaited(b)
  {
    if a == [] {
      assert a + b == b;
    } else {
      AwaitedAdds(a[1..], b);
      assert (a + b)[1..] == a[1..] + b;
      Regroup(if a[0].Answer? then [a[0].order] else [], Awaited(a[1..]), Awaited(b));
    }
  }

  lemma {:induction false} LevelUpsAdd(a: seq<Message>, b: seq<Message>)
    ensures LevelUps(a + b) == LevelUps(a) + LevelUps(b)
  {
    if a == [] {
      assert a + b == b;
    } else {
      LevelUpsAdd(a[1..], b);
      assert (a + b)[1..] == a[1..] + b;
    }
  }

  lemma {:induction false} FittingAdds(a: seq<Message>, b: seq<Message>, level: int)
    requires Fitting(a, level) && Fitting(b, level + LevelUps(a))
    ensures Fitting(a + b, level)
  {
    if a == [] {
      assert a + b == b;
    } else {
      FittingAdds(a[1..], b, level + if a[0] == Stray(LEVEL_UP) then 1 else 0);
      assert (a + b)[1..] == a[1..] + b;
    }
  }

  lemma {:induction false} StraysFit(heard: seq<Response>, level: int)
    requires forall r <- heard :: IsStray(r)
    ensures Fitting(Strays(heard), level) && Awaited(Strays(heard)) == []
  {
    if heard != [] {
      assert Strays(heard)[1..] == Strays(heard[1..]);
      StraysFit(heard[1..], level + if heard[0] == LEVEL_UP then 1 else 0);
    }
  }

  // ----- the steps -----

  ghost predicate Can<K>(l: Link<K>, s: Step) {
    match s
    case Tick(to) => l.now <= to
    case Arrive(_) => l.up != [] && EventRing.Valid(l.ring)
    case Run(content) =>
      && EventRing.Valid(l.ring) && IsDue(l.ring, l.now) && Fits(OrderOf(Live(l.ring)[0]), content)
      && (content.Saw? ==> SeenAt(content.view, l.level))
    case Intrude(heard) => (forall r <- heard :: IsStray(r)) && l.level + LevelUps(Strays(heard)) <= LEVEL_MAX
    case Handle(roll) => l.down != [] && IsMove(roll)
  }

  /** What was sent between two states of the command manager. */
  function Sent(m: Window, m': Window): seq<Order> {
    m'.wire[Min(|m.wire|, |m'.wire|)..]
  }

  ghost function Next<K>(l: Link<K>, s: Step): Link<K>
    requires Can(l, s)
  {
    match s
    case Tick(to) => l.(now := to)
    case Arrive(delay) =>
      var (ok, ring) := PushBack(l.ring, l.now, delay, CallOf(l.up[0], l.me), ToArg(l.up[0].item));
      l.(up := l.up[1..], ring := ring, lost := l.lost + if ok then 0 else 1)
    case Run(content) =>
      l.(ring := Process(l.ring, l.now, Quiet).ring, down := l.down + [Answer(OrderOf(Live(l.ring)[0]), content)])
    case Intrude(heard) =>
      l.(down := l.down + Strays(heard), level := l.level + LevelUps(Strays(heard)))
    case Handle(roll) =>
      var m := l.down[0];
      var driver := Respond(l.driver, m.content, roll);
      l.(driver := driver, down := l.down[1..],
         answered := l.answered + (if m.Answer? then [m.order] else []),
         strays := l.strays + (if m.Stray? then 1 else 0),
         raised := l.raised + (if m == Stray(LEVEL_UP) then 1 else 0),
         up := l.up + Sent(l.driver.window, driver.window))
  }

  /** Right after the welcome. */
  ghost predicate Opened<K>(l: Link<K>) {
    && l.driver == Newborn() && l.level == 1
    && l.up == l.driver.window.wire && l.ring == Empty() && l.down == [] && l.answered == []
    && l.strays == l.raised == l.lost == 0
  }

  /** Everything on its way between the client and its answers, the next to be handled first. */
  ghost function Line<K>(l: Link<K>): seq<Order>
    requires EventRing.Valid(l.ring)
  {
    Awaited(l.down) + (OrdersOf(Live(l.ring)) + l.up)
  }

  // ----- the balance -----

  /**
   Answers awaited and strays handled make up for everything on its way and everything lost. While
   nothing is lost, what was sent is what was handled and what is on its way, in order.
   */
  ghost predicate Balanced<K>(l: Link<K>) {
    var m := l.driver.window;
    && EventRing.Valid(l.ring) && !m.dead && m.pending <= WINDOW && l.driver.self.level == 1
    && m.pending + l.strays == |Line(l)| + l.lost
    && l.lost <= l.strays && l.raised <= l.strays
    && l.level == 1 + l.raised + LevelUps(l.down)
    && (l.lost == 0 ==> m.wire == l.answered + Line(l))
    && AllSingle(m.queue) && AllSingle(l.up) && (forall e <- Live(l.ring) :: IsOrder(e, l.me))
    && Fitting(l.down, 1 + l.raised)
  }

  lemma OpenedBalanced<K>(l: Link<K>)
    requires Opened(l)
    ensures Balanced(l) && Line(l) == l.up == [Order(Command.Voir, None)]
    ensures l.driver.window.pending == 1 && l.driver.window.queue == []
  {
    DrainFillsWindow(Send(Window([], 0, false, []), Order(Command.Voir, None)));
  }

  /** A command is refused only by a full buffer, and that only after more strays than were lost. */
  lemma RefusedExactlyWhen<K>(l: Link<K>, delay: nat)
    requires Balanced(l) && l.up != []
    ensures var ok := PushBack(l.ring, l.now, delay, CallOf(l.up[0], l.me), ToArg(l.up[0].item)).0;
      && (ok <==> |Live(l.ring)| < MAX_EVENTS)
      && (!ok ==> l.lost < l.strays)
  {
    PushBackAppends(l.ring, l.now, delay, CallOf(l.up[0], l.me), ToArg(l.up[0].item));
  }

  lemma ArriveKeepsLine<K>(l: Link<K>, delay: nat)
    requires Balanced(l) && Can(l, Arrive(delay)) && |Live(l.ring)| < MAX_EVENTS
    ensures var l' := Next(l, Arrive(delay));
      && EventRing.Valid(l'.ring) && Line(l') == Line(l) && l'.lost == l.lost
      && (forall e <- Live(l'.ring) :: IsOrder(e, l.me))
  {
    var o := l.up[0];
    PushBackAppends(l.ring, l.now, delay, CallOf(o, l.me), ToArg(o.item));
    var l' := Next(l, Arrive(delay));
    assert OrdersOf(Live(l'.ring)) == OrdersOf(Live(l.ring)) + [o];
    assert OrdersOf(Live(l'.ring)) + l'.up == OrdersOf(Live(l.ring)) + l.up;
  }

  /** A refused command is lost: the line is one shorter. */
  lemma RefusalShortensLine<K>(l: Link<K>, delay: nat)
    requires Balanced(l) && Can(l, Arrive(delay)) && |Live(l.ring)| == MAX_EVENTS
    ensures var l' := Next(l, Arrive(delay));
      && l'.ring == l.ring && |Line(l')| == |Line(l)| - 1 && l'.lost == l.lost + 1 <= l.strays
  {
    RefusedExactlyWhen(l, delay);
    PushBackAppends(l.ring, l.now, delay, CallOf(l.up[0], l.me), ToArg(l.up[0].item));
  }

  lemma ArriveBalanced<K>(l: Link<K>, delay: nat)
    requires Balanced(l) && Can(l, Arrive(delay))
    ensures Balanced(Next(l, Arrive(delay)))
  {
    if |Live(l.ring)| < MAX_EVENTS {
      ArriveKeepsLine(l, delay);
    } else {
      RefusalShortensLine(l, delay);
    }
  }

  lemma HeadMoves<T>(a: seq<T>, b: seq<T>, rest: seq<T>)
    requires b != []
    ensures (a + [b[0]]) + (b[1..] + rest) == a + (b + rest)
  {
  }

  lemma RunShifts<K>(l: Link<K>, content: Response)
    requires Balanced(l) && Can(l, Run(content))
    ensures var l' := Next(l, Run(content));
      && EventRing.Valid(l'.ring) && OrdersOf(Live(l'.ring)) == OrdersOf(Live(l.ring))[1..]
      && (forall e <- Live(l'.ring) :: IsOrder(e, l.me))
  {
    QuietPass(l.ring, l.now, Quiet);
    var l' := Next(l, Run(content));
    assert OrdersOf(Live(l'.ring)) == OrdersOf(Live(l.ring))[1..];
  }

  lemma RunKeepsLine<K>(l: Link<K>, content: Response)
    requires Balanced(l) && Can(l, Run(content))
    ensures var l' := Next(l, Run(content));
      && EventRing.Valid(l'.ring) && Line(l') == Line(l)
      && OrdersOf(Live(l'.ring)) == OrdersOf(Live(l.ring))[1..] && Awaited(l'.down) == Awaited(l.down) + [OrdersOf(Live(l.ring))[0]]
      && (forall e <- Live(l'.ring) :: IsOrder(e, l.me))
  {
    RunShifts(l, content);
    var waiting := OrdersOf(Live(l.ring));
    var answer := [Answer(waiting[0], content)];
    assert answer[1..] == [];
    AwaitedAdds(l.down, answer);
    HeadMoves(Awaited(l.down), waiting, l.up);
  }

  lemma RunFits<K>(l: Link<K>, content: Response)
    requires Balanced(l) && Can(l, Run(content))
    ensures var l' := Next(l, Run(content));
      Fitting(l'.down, 1 + l.raised) && LevelUps(l'.down) == LevelUps(l.down)
  {
    var head := Live(l.ring)[0];
    assert head in Live(l.ring);
    var answer := [Answer(OrderOf(head), content)];
    assert answer[1..] == [];
    LevelUpsAdd(l.down, answer);
    FittingAdds(l.down, answer, 1 + l.raised);
  }

  lemma IntrudeBalanced<K>(l: Link<K>, heard: seq<Response>)
    requires Balanced(l) && Can(l, Intrude(heard))
    ensures var l' := Next(l, Intrude(heard));
      Balanced(l') && Line(l') == Line(l) && Awaited(l'.down) == Awaited(l.down)
  {
    StraysFit(heard, 1 + l.raised + LevelUps(l.down));
    AwaitedAdds(l.down, Strays(heard));
    LevelUpsAdd(l.down, Strays(heard));
    FittingAdds(l.down, Strays(heard), 1 + l.raised);
  }

  lemma DecisionIsSingle(d: Driver, r: Response, roll: Command)
    requires IsMove(roll) && !Throws(d, r, roll)
    ensures AllSingle(Decision(d.mind, d.self, d.window.pending - 1, r, roll).1.value)
  {
    DecisionsAreBatches(d.mind, d.self, if r.Saw? then r.view else [], roll);
  }

  lemma DrainSends(m: Window, orders: seq<Order>) returns (sent: seq<Order>)
    requires !m.dead && m.pending <= WINDOW && AllSingle(m.queue) && AllSingle(orders)
    ensures var m' := Answered(m, Some(orders));
      && !m'.dead && m'.pending == m.pending - 1 + |sent| <= WINDOW
      && m'.wire == m.wire + sent && sent + m'.queue == m.queue + orders
      && (m'.queue == [] || m'.pending == WINDOW)
      && AllSingle(m'.queue) && AllSingle(sent)
  {
    var all := m.queue + orders;
    DrainFillsWindow(m.(pending := m.pending - 1, queue := all));
    var n := Min(|all|, WINDOW - (m.pending - 1));
    sent := all[..n];
    assert all[..n] + all[n..] == all;
    forall o | o in all
      ensures Single(o)
    {
    }
  }

  /**
   What a response does to the window: one answer less is awaited; an exception changes nothing
   else, and otherwise the longest part that fits is sent.
   */
  lemma RespondWindow(d: Driver, r: Response, roll: Command) returns (sent: seq<Order>)
    requires var m := d.window; !m.dead && m.pending <= WINDOW && AllSingle(m.queue)
    requires IsMove(roll)
    ensures var m, m' := d.window, Respond(d, r, roll).window;
      && !m'.dead && m'.pending == m.pending - 1 + |sent| <= WINDOW
      && m'.wire == m.wire + sent && sent == Sent(m, m')
      && AllSingle(m'.queue) && AllSingle(sent)
      && (Throws(d, r, roll) ==> sent == [] && m'.queue == m.queue)
      && (!Throws(d, r, roll) ==>
            && sent + m'.queue == m.queue + Decision(d.mind, d.self, m.pending - 1, r, roll).1.value
            && (m'.queue == [] || m'.pending == WINDOW))
  {
    var m := d.window;
    var added := Decision(d.mind, d.self, m.pending - 1, r, roll).1;
    match added
    case None => sent := [];
    case Some(orders) =>
      DecisionIsSingle(d, r, roll);
      sent := DrainSends(m, orders);
      assert (m.wire + sent)[|m.wire|..] == sent;
  }

  lemma AwaitedHead(down: seq<Message>)
    requires down != []
    ensures Awaited(down) == if down[0].Answer? then [down[0].order] + Awaited(down[1..]) else Awaited(down[1..])
  {
    assert [] + Awaited(down[1..]) == Awaited(down[1..]);
  }

  lemma FirstLeaves<T>(x: T, a: seq<T>, rest: seq<T>)
    ensures (([x] + a) + rest)[1..] == a + rest
  {
  }

  lemma LineShifts(down: seq<Message>, waiting: seq<Order>, up: seq<Order>, sent: seq<Order>)
    requires down != []
    ensures Awaited(down[1..]) + (waiting + (up + sent))
      == (if down[0].Answer? then (Awaited(down) + (waiting + up))[1..] else Awaited(down) + (waiting + up)) + sent
    ensures down[0].Answer? ==> Awaited(down) != [] && Awaited(down)[0] == down[0].order
  {
    var rest, line := Awaited(down[1..]), waiting + up;
    AwaitedHead(down);
    Regroup(waiting, up, sent);
    Regroup(rest, line, sent);
    if down[0].Answer? {
      FirstLeaves(down[0].order, rest, line);
    }
  }

  lemma HandleFits<K>(l: Link<K>, roll: Command)
    requires Balanced(l) && Can(l, Handle(roll))
    ensures var l' := Next(l, Handle(roll));
      && l'.level == 1 + l'.raised + LevelUps(l'.down) && Fitting(l'.down, 1 + l'.raised)
      && l'.raised <= l'.strays && l'.lost <= l'.strays && l'.driver.self.level == 1
  {
  }

  /** Handling takes the first message, and puts what is sent at the end of the line. */
  lemma HandleLine<K>(l: Link<K>, roll: Command) returns (sent: seq<Order>)
    requires Balanced(l) && Can(l, Handle(roll))
    ensures var l' := Next(l, Handle(roll));
      && sent == Sent(l.driver.window, l'.driver.window)
      && EventRing.Valid(l'.ring)
      && Line(l') == (if l.down[0].Answer? then Line(l)[1..] else Line(l)) + sent
      && (l.down[0].Answer? ==> Line(l) != [] && Line(l)[0] == l.down[0].order)
      && l'.driver.window.pending == l.driver.window.pending - 1 + |sent|
  {
    sent := RespondWindow(l.driver, l.down[0].content, roll);
    LineShifts(l.down, OrdersOf(Live(l.ring)), l.up, sent);
  }

  /** The first of the line moves to what was handled; what is sent goes to the end. */
  lemma Acknowledge(answered: seq<Order>, line: seq<Order>, sent: seq<Order>)
    requires line != []
    ensures (answered + line) + sent == (answered + [line[0]]) + (line[1..] + sent)
  {
  }

  lemma HandleKeepsOrder<K>(l: Link<K>, roll: Command, sent: seq<Order>)
    requires Balanced(l) && Can(l, Handle(roll)) && l.lost == 0
    requires sent == Sent(l.driver.window, Next(l, Handle(roll)).driver.window)
    ensures var l' := Next(l, Handle(roll));
      EventRing.Valid(l'.ring) && l'.driver.window.wire == l'.answered + Line(l')
  {
    var _ := RespondWindow(l.driver, l.down[0].content, roll);
    var _ := HandleLine(l, roll);
    if l.down[0].Answer? {
      Acknowledge(l.answered, Line(l), sent);
    } else {
      Regroup(l.answered, Line(l), sent);
      assert l.answered + [] == l.answered;
    }
  }

  lemma HandleBalanced<K>(l: Link<K>, roll: Command)
    requires Balanced(l) && Can(l, Handle(roll))
    ensures Balanced(Next(l, Handle(roll)))
  {
    var _ := RespondWindow(l.driver, l.down[0].content, roll);
    var sent := HandleLine(l, roll);
    HandleFits(l, roll);
    if l.lost == 0 {
      HandleKeepsOrder(l, roll, sent);
    }
  }

  /** Every step keeps the balance. */
  lemma StepBalanced<K>(l: Link<K>, s: Step)
    requires Balanced(l) && Can(l, s)
    ensures Balanced(Next(l, s))
  {
    match s
    case Tick(_) =>
    case Arrive(delay) => ArriveBalanced(l, delay);
    case Run(content) => RunKeepsLine(l, content); RunFits(l, content);
    case Intrude(heard) => IntrudeBalanced(l, heard);
    case Handle(roll) => HandleBalanced(l, roll);
  }

  /** At least as much is on its way as the client awaits. */
  lemma AwaitedIsInFlight<K>(l: Link<K>)
    requires Balanced(l)
    ensures |Line(l)| >= l.driver.window.pending
  {
  }

  /** While the client awaits anything there is a next step besides waiting, at the latest when the head is due. */
  lemma NeverStuck<K>(l: Link<K>)
    requires Balanced(l) && l.driver.window.pending >= 1
    ensures l.up != [] || l.down != [] || (Live(l.ring) != [] && forall to | to >= Live(l.ring)[0].time :: IsDue(l.ring, to))
  {
    assert l.up == [] && l.down == [] ==> Live(l.ring)[0] == l.ring.slots[l.ring.head];
  }

  // ----- the steps are the server's own -----

  /** A command that arrives does to the buffer of the client found for it what `Arrive` does. */
  lemma ArriveIsExecute<K>(w: World<K>, k: K, fd: int, o: Order)
    requires Shaped(w) && FindFd(w, fd) == Some(k)
    ensures Execute(w, fd, Some(o.command), ToArg(o.item)).1.rings
      == w.rings[k := PushBack(w.rings[k], w.now, w.config.Delay(o.command), CallOf(o, k), ToArg(o.item)).1]
  {
  }

  /** A command with one answer leaves its buffer alone while it runs. */
  lemma RunIsQuiet<K>(w: World<K>, k: K, o: Order)
    requires Shaped(w) && k in w.players && Single(o)
    ensures RunRings(w, k, k, Do(o.command)) == w.rings[k := Process(w.rings[k], w.now, Quiet).ring]
  {
  }

  /** What a command with one answer is answered, by the state it finds. */
  ghost function StatusOf<K>(w: World<K>, k: K, o: Order): Status
    requires Shaped(w) && k in w.players
  {
    match o.command
    case Voir => Seen(W.View(w, k, w.players[k].level + 1))
    case Inventaire => Holds(w.players[k].inv)
    case ConnectNbr => Slots(w.cap - w.counts[w.players[k].team])
    case c => if (c == Prend || c == Command.Pose) && !HasSuch(w, k, c, ToArg(o.item)) then No else Yes
  }

  /** Running a command with one answer answers its player once, and nobody else. */
  lemma AnsweredOnce<K>(w: World<K>, k: K, o: Order)
    requires Shaped(w) && k in w.players && Single(o)
    ensures Call(w, k, Do(o.command), ToArg(o.item)).outbox
         == w.outbox + [Reply(w.players[k].fd, Do(o.command), StatusOf(w, k, o))]
  {
    if o.command == Prend || o.command == Command.Pose {
      TransferAnswers(w, k, o.command, ToArg(o.item));
    }
  }

  /** The time a command takes, where the configuration does not say otherwise: what the client thinks it takes. */
  function Takes(config: Config, c: Command): nat {
    if c == Incantation then 0 else if c in config.delays then config.delays[c] else TimeUnits(c)
  }

  /**
   What becomes of a command that arrives: only an unknown word of a connected client is an error. A known
   one is queued last, to be called with the client's player, and on an empty buffer for the time it takes
   from now; on a full one it is lost without a word.
   */
  lemma SendOutcome<K>(w: World<K>, fd: int, command: Option<Command>, arg: Option<Arg>)
    requires Shaped(w)
    ensures var (code, w') := Execute(w, fd, command, arg);
      var o := FindFd(w, fd);
      && code == (if o.Some? && command.None? then ERROR else SUCCESS)
      && if o.None? || command.None? || |Live(w.rings[o.value])| == MAX_EVENTS then w' == w
         else
           var q := Live(w.rings[o.value]);
           && w' == w.(rings := w'.rings) && o.value in w'.rings && w'.rings == w.rings[o.value := w'.rings[o.value]]
           && EventRing.Valid(w'.rings[o.value]) && |Live(w'.rings[o.value])| == |q| + 1
           && Live(w'.rings[o.value])[..|q|] == q
           && var last := Live(w'.rings[o.value])[|q|];
              && last.call == Some(Callback(Do(command.value), o.value)) && last.arg == arg
              && (q == [] ==> last.time == w.now + Takes(w.config, command.value))
  {
    var o := FindFd(w, fd);
    if o.Some? && command.Some? {
      PushBackAppends(w.rings[o.value], w.now, w.config.Delay(command.value), Some(Callback(Do(command.value), o.value)), arg);
    }
  }

  /** How many clients a part of the table holds. */
  ghost function Taken<K>(slots: seq<Option<K>>, players: map<K, Player>): nat {
    if slots == [] then 0
    else (if slots[0].Some? && slots[0].value in players then 1 else 0) + Taken(slots[1..], players)
  }

  ghost function HearsAt(p: Player, from: Player, text: Option<Arg>, width: int, height: int): Reply
    requires width > 0 && height > 0
  {
    Reply(p.fd, Do(Command.Broadcast),
          Status.Heard(B.DirectionOf(p.x, p.y, DirectionCode(p.dir), from.x, from.y, width, height), text))
  }

  lemma {:induction false} MessagesCount<K>(slots: seq<Option<K>>, players: map<K, Player>, from: Player, text: Option<Arg>,
                                            width: int, height: int)
    requires width > 0 && height > 0
    ensures |Messages(slots, players, from, text, width, height)| == Taken(slots, players)
  {
    if slots != [] {
      MessagesCount(slots[1..], players, from, text, width, height);
    }
  }

  /** A broadcast sends every client of the table one message, with its own direction, in table order. */
  lemma {:induction false} EveryClientHearsOnce<K>(slots: seq<Option<K>>, players: map<K, Player>, from: Player, text: Option<Arg>,
                                                   width: int, height: int, i: nat)
    requires width > 0 && height > 0 && i < |slots| && slots[i].Some? && slots[i].value in players
    ensures var said := Messages(slots, players, from, text, width, height);
      && |said| == Taken(slots, players) > Taken(slots[..i], players)
      && said[Taken(slots[..i], players)] == HearsAt(players[slots[i].value], from, text, width, height)
  {
    MessagesCount(slots, players, from, text, width, height);
    if i > 0 {
      EveryClientHearsOnce(slots[1..], players, from, text, width, height, i - 1);
      assert slots[..i][1..] == slots[1..][..i - 1];
    }
  }

  /** An own broadcast is answered twice: the player hears itself, from its own tile, before the final answer. */
  lemma OwnBroadcastAnsweredTwice<K>(w: World<K>, k: K, text: Option<Arg>)
    requires Shaped(w) && k in w.players && Some(k) in w.slots
    ensures var p := w.players[k];
      var said := Call(w, k, Do(Command.Broadcast), text).outbox[|w.outbox|..];
      && |said| >= 2 && said[|said| - 1] == Reply(p.fd, Do(Command.Broadcast), Yes)
      && Reply(p.fd, Do(Command.Broadcast), Status.Heard(0, text)) in said[..|said| - 1]
  {
    var p := w.players[k];
    var i :| 0 <= i < |w.slots| && w.slots[i] == Some(k);
    EveryClientHearsOnce(w.slots, w.players, p, text, w.width, w.height, i);
    B.ZeroExactlyOnTheSameTile(p.x, p.y, DirectionCode(p.dir), p.x, p.y, w.width, w.height);
    var messages := Messages(w.slots, w.players, p, text, w.width, w.height);
    assert Call(w, k, Do(Command.Broadcast), text).outbox == w.outbox + (messages + [Reply(p.fd, Do(Command.Broadcast), Yes)]);
    assert messages[Taken(w.slots[..i], w.players)] in messages;
  }

  // ----- whole runs -----

  ghost predicate CanRun<K>(l: Link<K>, steps: seq<Step>)
    decreases |steps|
  {
    steps == [] || (Can(l, steps[0]) && CanRun(Next(l, steps[0]), steps[1..]))
  }

  ghost function RunAll<K>(l: Link<K>, steps: seq<Step>): Link<K>
    requires CanRun(l, steps)
    decreases |steps|
  {
    if steps == [] then l else RunAll(Next(l, steps[0]), steps[1..])
  }

  /** So every run keeps the balance, whatever others send the client. */
  lemma {:induction false} EveryRunBalanced<K>(l: Link<K>, steps: seq<Step>)
    requires Balanced(l) && CanRun(l, steps)
    ensures Balanced(RunAll(l, steps))
    decreases |steps|
  {
    if steps != [] {
      StepBalanced(l, steps[0]);
      EveryRunBalanced(Next(l, steps[0]), steps[1..]);
    }
  }

  /**
   From the welcome on: what the client awaits is what is on its way and what is lost, less the
   strays it took for answers; the server drops no command before it took one.
   */
  lemma NoCommandIsDropped<K>(l: Link<K>, steps: seq<Step>, delay: nat)
    requires Opened(l) && CanRun(l, steps)
    ensures var r := RunAll(l, steps);
      && EventRing.Valid(r.ring)
      && r.driver.window.pending + r.strays == |r.up| + |Live(r.ring)| + |Awaited(r.down)| + r.lost
      && r.driver.window.pending <= WINDOW && r.lost <= r.strays
      && (r.strays == 0 && r.up != [] ==>
            PushBack(r.ring, r.now, delay, CallOf(r.up[0], r.me), ToArg(r.up[0].item)).0)
      && (r.strays == 0 ==> r.answered <= r.driver.window.wire)
  {
    OpenedBalanced(l);
    EveryRunBalanced(l, steps);
    var r := RunAll(l, steps);
    if r.up != [] {
      RefusedExactlyWhen(r, delay);
    }
  }

  lemma {:induction false} RunJoins<K>(l: Link<K>, a: seq<Step>, b: seq<Step>)
    requires CanRun(l, a) && CanRun(RunAll(l, a), b)
    ensures CanRun(l, a + b) && RunAll(l, a + b) == RunAll(RunAll(l, a), b)
    decreases |a|
  {
    if a == [] {
      assert a + b == b;
    } else {
      assert (a + b)[1..] == a[1..] + b;
      RunJoins(Next(l, a[0]), a[1..], b);
    }
  }

  lemma OneStep<K>(l: Link<K>, s: Step)
    requires Can(l, s)
    ensures CanRun(l, [s]) && RunAll(l, [s]) == Next(l, s)
  {
    assert [s][1..] == [];
  }

  lemma {:induction false} StraysGrow<K>(l: Link<K>, steps: seq<Step>)
    requires CanRun(l, steps)
    ensures RunAll(l, steps).strays >= l.strays
    decreases |steps|
  {
    if steps != [] {
      StraysGrow(Next(l, steps[0]), steps[1..]);
    }
  }

  // ----- as long as no stray is handled -----

  /** The client awaits something, keeps nothing back, and looks only at the end of its line. */
  ghost predicate Flowing<K>(l: Link<K>) {
    var m := l.driver.window;
    Balanced(l) && l.strays == 0 && 1 <= m.pending <= 4 && m.queue == [] && LookLast(Line(l))
  }

  /** Nothing is on its way, and nothing waits to be sent. */
  ghost predicate Stalled<K>(l: Link<K>) {
    Balanced(l) && l.strays == 0 && l.driver.window.pending == 0 && l.driver.window.queue == [] && Line(l) == []
  }

  lemma OpenedFlows<K>(l: Link<K>)
    requires Opened(l)
    ensures Flowing(l)
  {
    OpenedBalanced(l);
  }

  /** The AI has no rule left to go by. */
  predicate RulesOut<K>(l: Link<K>) {
    !HasRule(l.driver.mind.debugLevel)
  }

  /** The answer to a look is handled without a rule. */
  ghost predicate LooksWithoutRule<K>(l: Link<K>, s: Step) {
    s.Handle? && l.down != [] && l.down[0].Answer? && l.down[0].order.command == Command.Voir && RulesOut(l)
  }

  /** When a look is answered it is the only answer awaited. */
  lemma LookIsAlone<K>(l: Link<K>)
    requires Flowing(l) && l.down != [] && l.down[0].Answer? && l.down[0].order.command == Command.Voir
    ensures l.driver.window.pending == 1 && Line(l) == [l.down[0].order]
  {
    AwaitedHead(l.down);
    assert Line(l)[0] == l.down[0].order;
  }

  /** The line after a message, given what was sent because of it. */
  lemma HandleSends<K>(l: Link<K>, roll: Command, sent: seq<Order>)
    requires Balanced(l) && Can(l, Handle(roll))
    requires Respond(l.driver, l.down[0].content, roll).window.wire == l.driver.window.wire + sent
    ensures var l' := Next(l, Handle(roll));
      && EventRing.Valid(l'.ring) && Line(l') == (if l.down[0].Answer? then Line(l)[1..] else Line(l)) + sent
      && (l.down[0].Answer? ==> Line(l) != [] && Line(l)[0] == l.down[0].order)
  {
    var line := HandleLine(l, roll);
    assert (l.driver.window.wire + sent)[|l.driver.window.wire|..] == sent;
  }

  lemma LookHandled<K>(l: Link<K>, roll: Command)
    requires Flowing(l) && Can(l, Handle(roll)) && l.down[0].Answer? && l.down[0].order.command == Command.Voir
    ensures var l' := Next(l, Handle(roll));
      && l'.driver.mind.debugLevel >= l.driver.mind.debugLevel
      && if RulesOut(l) then Stalled(l') && RulesOut(l') else Flowing(l')
  {
    LookIsAlone(l);
    var sent := LookResponse(l.driver, l.down[0].content.view, roll);
    HandleBalanced(l, roll);
    HandleSends(l, roll, sent);
  }

  /** The first order leaves, and only a line of one is added to, by a batch that ends in a look. */
  lemma LaterLooks(line: seq<Order>, sent: seq<Order>)
    requires line != [] && LookLast(line) && LookLast(sent) && (|line| > 1 ==> sent == [])
    ensures LookLast(line[1..] + sent)
  {
    if |line| > 1 {
      assert line[1..] + sent == line[1..];
    } else {
      assert line[1..] + sent == sent;
    }
  }

  lemma OtherKeepsLooks<K>(l: Link<K>, roll: Command)
    requires Flowing(l) && Can(l, Handle(roll)) && l.down[0].Answer? && l.down[0].order.command != Command.Voir
    ensures EventRing.Valid(Next(l, Handle(roll)).ring) && LookLast(Line(Next(l, Handle(roll))))
  {
    var sent := OtherResponse(l.driver, l.down[0].content, roll);
    HandleSends(l, roll, sent);
    LaterLooks(Line(l), sent);
  }

  lemma OtherHandled<K>(l: Link<K>, roll: Command)
    requires Flowing(l) && Can(l, Handle(roll)) && l.down[0].Answer? && l.down[0].order.command != Command.Voir
    ensures Flowing(Next(l, Handle(roll))) && Next(l, Handle(roll)).driver.mind.debugLevel == l.driver.mind.debugLevel
  {
    var _ := OtherResponse(l.driver, l.down[0].content, roll);
    HandleBalanced(l, roll);
    OtherKeepsLooks(l, roll);
  }

  /** Any step that handles no stray: the client stalls if and only if a look is handled without a rule. */
  lemma StepFlows<K>(l: Link<K>, s: Step)
    requires Flowing(l) && Can(l, s) && Next(l, s).strays == 0
    ensures if LooksWithoutRule(l, s) then Stalled(Next(l, s)) && RulesOut(Next(l, s)) else Flowing(Next(l, s))
  {
    StepBalanced(l, s);
    match s
    case Tick(_) =>
    case Arrive(delay) => ArriveKeepsLine(l, delay);
    case Run(content) => RunKeepsLine(l, content);
    case Intrude(heard) => IntrudeBalanced(l, heard);
    case Handle(roll) =>
      if l.down[0].order.command == Command.Voir {
        LookHandled(l, roll);
      } else {
        OtherHandled(l, roll);
      }
  }

  /** From then on time passes and others talk. */
  lemma StalledForever<K>(l: Link<K>, s: Step)
    requires Stalled(l) && Can(l, s) && Next(l, s).strays == 0
    ensures (s.Tick? || s.Intrude?) && Stalled(Next(l, s)) && Next(l, s).driver == l.driver
  {
    assert Live(l.ring) == [] && l.up == [] && Awaited(l.down) == [];
    match s
    case Intrude(heard) => IntrudeBalanced(l, heard);
    case Handle(_) => AwaitedHead(l.down);
    case _ =>
  }

  /** Some look of the run is handled without a rule. */
  ghost predicate RunsOut<K>(l: Link<K>, steps: seq<Step>)
    requires CanRun(l, steps)
    decreases |steps|
  {
    steps != [] && (LooksWithoutRule(l, steps[0]) || RunsOut(Next(l, steps[0]), steps[1..]))
  }

  lemma {:induction false} StalledRuns<K>(l: Link<K>, steps: seq<Step>)
    requires Stalled(l) && CanRun(l, steps) && RunAll(l, steps).strays == 0
    ensures Stalled(RunAll(l, steps)) && RunAll(l, steps).driver == l.driver && !RunsOut(l, steps)
    decreases |steps|
  {
    if steps != [] {
      StraysGrow(Next(l, steps[0]), steps[1..]);
      StalledForever(l, steps[0]);
      StalledRuns(Next(l, steps[0]), steps[1..]);
    }
  }

  lemma {:induction false} RunFlowsExactlyWhen<K>(l: Link<K>, steps: seq<Step>)
    requires Flowing(l) && CanRun(l, steps) && RunAll(l, steps).strays == 0
    ensures var r := RunAll(l, steps);
      if RunsOut(l, steps) then Stalled(r) && RulesOut(r) else Flowing(r)
    decreases |steps|
  {
    if steps != [] {
      var l' := Next(l, steps[0]);
      StraysGrow(l', steps[1..]);
      StepFlows(l, steps[0]);
      if LooksWithoutRule(l, steps[0]) {
        StalledRuns(l', steps[1..]);
      } else {
        RunFlowsExactlyWhen(l', steps[1..]);
      }
    }
  }

  /**
   From the welcome on, as long as no stray was handled: the client has stalled if and only if it
   handled a look with no rule left; while it has a rule, something is on its way.
   */
  lemma StallsExactlyWhen<K>(l: Link<K>, steps: seq<Step>)
    requires Opened(l) && CanRun(l, steps) && RunAll(l, steps).strays == 0
    ensures var r := RunAll(l, steps);
      && (Stalled(r) <==> RunsOut(l, steps))
      && (Flowing(r) <==> !RunsOut(l, steps))
      && (HasRule(r.driver.mind.debugLevel) ==> Flowing(r))
  {
    OpenedFlows(l);
    RunFlowsExactlyWhen(l, steps);
  }
}

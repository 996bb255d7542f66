/** What the client believes its player holds, against what the server has in the player's inventory. */
module Inventories {
  import opened Wrappers
  import opened EventRing
  import opened World
  import opened Soundness
  import opened Steps
  import opened Ledger
  import opened Incantations
  import opened Hearing
  import opened Pose
  import opened ClientAi
  import opened Driving
  import opened Flow
  import opened Session
  import S = Session
  import F = Flow

  /** The client's inventory once it will have handled these messages. */
  ghost function StoredAll(inventory: map<Kind, int>, down: seq<Message>): map<Kind, int>
    decreases |down|
  {
    if down == [] then inventory else StoredAll(Stored(inventory, down[0].content), down[1..])
  }

  lemma {:induction false} StoredAllJoins(inventory: map<Kind, int>, a: seq<Message>, b: seq<Message>)
    ensures StoredAll(inventory, a + b) == StoredAll(StoredAll(inventory, a), b)
    decreases |a|
  {
    if a == [] {
      assert a + b == b;
    } else {
      assert (a + b)[1..] == a[1..] + b;
      StoredAllJoins(Stored(inventory, a[0].content), a[1..], b);
    }
  }

  /** Level-ups and words bring and take nothing. */
  lemma {:induction false} StraysStoreNothing(inventory: map<Kind, int>, heard: seq<Response>)
    requires forall r <- heard :: IsStray(r)
    ensures StoredAll(inventory, Strays(heard)) == inventory
  {
    if heard != [] {
      assert Strays(heard)[1..] == Strays(heard[1..]);
      assert heard[0] in heard;
      StraysStoreNothing(inventory, heard[1..]);
    }
  }

  /** Whatever a response leads to, exceptions included, the inventory is the stored one. */
  lemma RespondStores(d: Driver, r: Response, roll: Command)
    ensures Respond(d, r, roll).self.inventory == Stored(d.self.inventory, r)
  {
  }

  // ----- the player's inventory on the server -----

  /** The food that a step takes from a player behind its client's back: eaten, or lost with its socket. */
  ghost function Vanished<K>(w: World<K>, a: Action<K>, k: K): int
    requires Enabled(w, a) && k in w.players
  {
    if a.Turn? && DeedOf(w, a.slot) == Eats(k) then 1
    else if a.Disconnects? && FindFd(w, a.fd) == Some(k) then w.players[k].inv[FOOD]
    else 0
  }

  ghost predicate SameBut(inv: Inventory, inv': Inventory, food: int) {
    inv'[FOOD] == inv[FOOD] - food && forall kind: Kind :: kind != FOOD ==> inv'[kind] == inv[kind]
  }

  lemma CommandOfOther<K>(w: World<K>, q: K, c: Command, arg: Option<Arg>, k: K)
    requires Shaped(w) && q in w.players && k in w.players && (q != k || (c != Prend && c != Command.Pose))
    ensures k in Call(w, q, Do(c), arg).players && Call(w, q, Do(c), arg).players[k].inv == w.players[k].inv
  {
    match c
    case Avance => assert Call(w, q, Do(c), arg) == Walk(w, q);
    case Prend => TransferAnswers(w, q, c, arg);
    case Pose => TransferAnswers(w, q, c, arg);
    case Incantation => assert StartIncantation(w, q).players == w.players;
    case _ =>
  }

  lemma ResolutionKeepsInventory<K>(w: World<K>, q: K, level: int, k: K)
    requires Shaped(w) && Placed(w) && q in w.players && k in w.players
    ensures k in FinishIncantation(w, q, level).players && FinishIncantation(w, q, level).players[k].inv == w.players[k].inv
  {
    ResolutionRaisesExactly(w, q, level);
  }

  lemma OtherTurnKeeps<K>(w: World<K>, slot: nat, k: K)
    requires Shaped(w) && Placed(w) && slot < |w.slots| && Defined(w, slot)
    requires k in w.players && k in Play(w, slot).players && !RunsFor(w, Turn(slot), k)
    ensures SameBut(w.players[k].inv, Play(w, slot).players[k].inv, Vanished(w, Turn(slot), k))
  {
    TurnIsDeed(w, slot);
    match DeedOf(w, slot)
    case Runs(_, q, Do(c), arg) => CommandOfOther(w, q, c, arg, k);
    case Runs(_, q, ResolveIncantation, arg) => ResolutionKeepsInventory(w, q, LevelOf(arg), k);
    case _ =>
  }

  /** Nothing but a player's own commands touches its stones, and its food only by vanishing. */
  lemma OtherKeeps<K>(w: World<K>, a: Action<K>, k: K)
    requires Enabled(w, a) && Placed(w) && k in w.players && k in Apply(w, a).players && !RunsFor(w, a, k)
    ensures SameBut(w.players[k].inv, Apply(w, a).players[k].inv, Vanished(w, a, k))
  {
    if a.Turn? {
      OtherTurnKeeps(w, a.slot, k);
    }
  }

  /** One item more or less of a kind, as an answer says. */
  ghost function Brought(r: Response, kind: Kind): int {
    match r
    case Took(of, ok) => if ok && of == kind then 1 else 0
    case Put(of, ok) => if ok && of == kind then -1 else 0
    case _ => 0
  }

  /** An own command changes the inventory by what its answer says. */
  lemma OwnKeeps<K>(w: World<K>, k: K, o: Order, r: Response)
    requires Shaped(w) && k in w.players && Single(o) && AnsweredIn(w, k, o, r)
    ensures var w' := Call(w, k, Do(o.command), ToArg(o.item));
      && k in w'.players
      && forall kind: Kind :: w'.players[k].inv[kind] == w.players[k].inv[kind] + Brought(r, kind)
  {
    if o.command == Prend || o.command == Command.Pose {
      TransferAnswers(w, k, o.command, ToArg(o.item));
    } else {
      CommandOfOther(w, k, o.command, ToArg(o.item), k);
    }
  }

  // ----- what the client makes of it -----

  /** The client counts every stone right, and `owed` food too much. */
  ghost predicate CountsBut(inventory: map<Kind, int>, inv: Inventory, owed: int) {
    CountOf(inventory, FOOD) == inv[FOOD] + owed && forall kind: Kind :: kind != FOOD ==> CountOf(inventory, kind) == inv[kind]
  }

  /** The food owed after an answer: an inventory settles it. */
  ghost function OwedAfter(owed: int, r: Response): int {
    if r.Stock? then 0 else owed
  }

  lemma StockCounts(inventory: map<Kind, int>, inv: Inventory)
    ensures CountsBut(Stored(inventory, Stock(InventoryCounts(inv))), inv, 0)
  {
    var counts := InventoryCounts(inv);
    forall kind: Kind
      ensures CountOf(inventory + counts, kind) == inv[kind]
    {
      assert kind in counts;
    }
  }

  /** The answer to an own command leaves the client's count as right as it was, an inventory puts it right. */
  lemma AnswerCounts<K>(w: World<K>, k: K, o: Order, r: Response, inventory: map<Kind, int>, inv': Inventory, owed: int)
    requires Shaped(w) && k in w.players && Single(o) && AnsweredIn(w, k, o, r)
    requires owed >= 0 && CountsBut(inventory, w.players[k].inv, owed)
    requires forall kind: Kind :: inv'[kind] == w.players[k].inv[kind] + Brought(r, kind)
    ensures CountsBut(Stored(inventory, r), inv', OwedAfter(owed, r))
  {
    if r.Stock? {
      StockCounts(inventory, w.players[k].inv);
      assert forall kind: Kind :: inv'[kind] == w.players[k].inv[kind];
    }
  }

  // ----- over sessions -----

  /** What the client will count when it has handled everything in its channel. */
  ghost predicate InventoryHolds<K>(s: Session<K>, owed: int) {
    && s.link.me in s.w.players && owed >= 0
    && CountsBut(StoredAll(s.link.driver.self.inventory, s.link.down), s.w.players[s.link.me].inv, owed)
  }

  /** The food owed after a step: what others let vanish is added, the answer to an inventory settles it. */
  ghost function Owed<K>(s: Session<K>, e: Move<K>, owed: int): int
    requires S.Can(s, e)
  {
    match e
    case Other(a) => owed + Vanished(s.w, a, s.link.me)
    case Executes(slot) =>
      if Live(s.link.ring) != [] then OwedAfter(owed, AnswerOf(OrderOf(Live(s.link.ring)[0]), LastStatus(Play(s.w, slot)))) else owed
    case _ => owed
  }

  /** More messages in the channel, and what the player holds then. */
  lemma InventoryGoesOn<K>(s: Session<K>, s': Session<K>, more: seq<Message>, owed: int)
    requires s'.link.me == s.link.me && s.link.me in s'.w.players && s'.link.driver == s.link.driver
    requires s'.link.down == s.link.down + more && owed >= 0
    requires CountsBut(StoredAll(StoredAll(s.link.driver.self.inventory, s.link.down), more), s'.w.players[s.link.me].inv, owed)
    ensures InventoryHolds(s', owed)
  {
    StoredAllJoins(s.link.driver.self.inventory, s.link.down, more);
  }

  lemma OtherInventory<K>(w: World<K>, a: Action<K>, k: K)
    requires Ready(w) && Enabled(w, a) && k in w.players && k in Apply(w, a).players && !RunsFor(w, a, k)
    ensures SameBut(w.players[k].inv, Apply(w, a).players[k].inv, Vanished(w, a, k)) && Vanished(w, a, k) >= 0
  {
    OtherKeeps(w, a, k);
  }

  lemma OtherHoldsInventory<K>(s: Session<K>, a: Action<K>, start: Stance, owed: int)
    requires S.Holds(s, start) && S.Can(s, Other(a)) && InventoryHolds(s, owed)
    ensures InventoryHolds(S.Next(s, Other(a)), Owed(s, Other(a), owed))
  {
    var w', k := Apply(s.w, a), s.link.me;
    assert Overheard(s.w, w', k) && Shaped(w') by {
      OtherServer(s.w, a, k);
    }
    OtherInventory(s.w, a, k);
    HeardAre(s, w');
    StraysStoreNothing(StoredAll(s.link.driver.self.inventory, s.link.down), HeardIn(s, w'));
    InventoryGoesOn(s, After(s, w'), Strays(HeardIn(s, w')), Owed(s, Other(a), owed));
  }

  lemma ArriveKeepsDriver<K>(l: Link<K>, delay: nat)
    requires F.Can(l, Arrive(delay))
    ensures var l' := F.Next(l, Arrive(delay));
      l'.driver == l.driver && l'.down == l.down && l'.me == l.me
  {
  }

  lemma ArrivesHoldsInventory<K>(s: Session<K>, start: Stance, owed: int)
    requires S.Holds(s, start) && S.Can(s, Arrives) && InventoryHolds(s, owed)
    ensures InventoryHolds(S.Next(s, Arrives), owed)
  {
    var k, o := s.link.me, s.link.up[0];
    var w' := Execute(s.w, s.w.players[k].fd, Some(o.command), ToArg(o.item)).1;
    var l' := F.Next(s.link, Arrive(s.w.config.Delay(o.command)));
    assert S.Next(s, Arrives) == s.(w := w', link := l');
    assert w'.players == s.w.players by {
      ArrivalServer(s.w, k, o);
    }
    ArriveKeepsDriver(s.link, s.w.config.Delay(o.command));
  }

  lemma ExecutedInventory<K>(w: World<K>, slot: nat, k: K, o: Order, r: Response)
    requires RunsOrder(w, slot, k, o) && AnsweredIn(w, k, o, r)
    ensures var w' := Play(w, slot);
      k in w'.players && forall kind: Kind :: w'.players[k].inv[kind] == w.players[k].inv[kind] + Brought(r, kind)
  {
    ExecutedIsCall(w, slot, k, o);
    OwnKeeps(w, k, o, r);
  }

  /** What the channel holds after the answer leaves the count as right as it was. */
  lemma AnsweredCounts<K>(w: World<K>, slot: nat, k: K, o: Order, r: Response, held: map<Kind, int>, owed: int)
    requires RunsOrder(w, slot, k, o) && AnsweredIn(w, k, o, r) && owed >= 0 && CountsBut(held, w.players[k].inv, owed)
    ensures k in Play(w, slot).players
    ensures CountsBut(StoredAll(held, [Answer(o, r)]), Play(w, slot).players[k].inv, OwedAfter(owed, r))
  {
    ExecutedInventory(w, slot, k, o, r);
    AnswerCounts(w, k, o, r, held, Play(w, slot).players[k].inv, owed);
    assert [Answer(o, r)][1..] == [];
    assert StoredAll(held, [Answer(o, r)]) == Stored(held, r);
  }

  lemma ExecutesHoldsInventory<K>(s: Session<K>, slot: nat, start: Stance, owed: int)
    requires S.Holds(s, start) && S.Can(s, Executes(slot)) && InventoryHolds(s, owed)
    ensures InventoryHolds(S.Next(s, Executes(slot)), Owed(s, Executes(slot), owed))
  {
    ExecutesOrder(s, slot, start);
    var k, o := s.link.me, OrderOf(Live(s.link.ring)[0]);
    var r := AnswerOf(o, LastStatus(Play(s.w, slot)));
    AnswerFits(s.w, slot, k, o);
    AnsweredCounts(s.w, slot, k, o, r, StoredAll(s.link.driver.self.inventory, s.link.down), owed);
    assert S.Next(s, Executes(slot)) == Served(s, Play(s.w, slot), o, r);
    InventoryGoesOn(s, Served(s, Play(s.w, slot), o, r), [Answer(o, r)], OwedAfter(owed, r));
  }

  lemma HandlesHoldsInventory<K>(s: Session<K>, roll: Command, owed: int)
    requires S.Can(s, Handles(roll)) && InventoryHolds(s, owed)
    ensures InventoryHolds(S.Next(s, Handles(roll)), owed)
  {
    RespondStores(s.link.driver, s.link.down[0].content, roll);
  }

  lemma StepHoldsInventory<K>(s: Session<K>, e: Move<K>, start: Stance, owed: int)
    requires S.Holds(s, start) && S.Can(s, e) && InventoryHolds(s, owed)
    ensures InventoryHolds(S.Next(s, e), Owed(s, e, owed))
  {
    match e
    case Other(a) => OtherHoldsInventory(s, a, start, owed);
    case Arrives => ArrivesHoldsInventory(s, start, owed);
    case Executes(slot) => ExecutesHoldsInventory(s, slot, start, owed);
    case Handles(roll) => HandlesHoldsInventory(s, roll, owed);
  }

  /** The food owed after a whole session. */
  ghost function OwedIn<K>(s: Session<K>, es: seq<Move<K>>, owed: int): int
    requires CanRunAll(s, es)
    decreases |es|
  {
    if es == [] then owed else OwedIn(S.Next(s, es[0]), es[1..], Owed(s, es[0], owed))
  }

  lemma {:induction false} RunHoldsInventory<K>(s: Session<K>, es: seq<Move<K>>, start: Stance, owed: int)
    requires S.Holds(s, start) && CanRunAll(s, es) && InventoryHolds(s, owed)
    ensures InventoryHolds(RunSession(s, es), OwedIn(s, es, owed))
    decreases |es|
  {
    if es != [] {
      StepHolds(s, es[0], start);
      StepHoldsInventory(s, es[0], start, owed);
      RunHoldsInventory(S.Next(s, es[0]), es[1..], start, Owed(s, es[0], owed));
    }
  }

  lemma NewbornCounts<K>(s: Session<K>)
    requires Begins(s) && s.w.players[s.link.me].inv == NOTHING
    ensures InventoryHolds(s, 0)
  {
    assert s.link.driver.self.inventory == map[] && s.link.down == [];
  }

  /**
   In any session from the welcome on: once the client has handled every message in its channel, it
   counts each stone exactly as often as its player has it on the server, and of food as much as the
   player has and what it ate since the last inventory was answered.
   */
  lemma InventoryIsKnown<K>(s: Session<K>, es: seq<Move<K>>)
    requires Begins(s) && s.w.players[s.link.me].inv == NOTHING && CanRunAll(s, es) && RunSession(s, es).link.down == []
    ensures var r := RunSession(s, es);
      && r.link.me in r.w.players && OwedIn(s, es, 0) >= 0
      && CountsBut(r.link.driver.self.inventory, r.w.players[r.link.me].inv, OwedIn(s, es, 0))
  {
    BeginsHolds(s);
    NewbornCounts(s);
    RunHoldsInventory(s, es, StanceOf(s.w, s.link.me), 0);
  }
}

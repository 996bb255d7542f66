/** How long the client believes its player has to live, against what the server has it live. */
module ClientLife {
  import opened Wrappers
  import opened EventRing
  import opened World
  import W = World
  import opened Soundness
  import opened Steps
  import opened Ledger
  import opened Incantations
  import opened Lifetime
  import opened Hearing
  import opened Pose
  import opened ClientAi
  import opened Driving
  import opened Flow
  import opened Session
  import opened Inventories
  import S = Session
  import F = Flow

  /** The configuration with nothing changed. */
  const DEFAULT: Config := Config(126, 10, map[])

  /** What the client takes for granted are the server's defaults. */
  lemma ClientAssumesDefaults()
    ensures Newborn().self.life == DEFAULT.TimeToDie() && FOOD_LIFE == DEFAULT.lifeUnit
    ensures forall c: Command :: TimeUnits(c) == DEFAULT.Configured(c)
  {
    assert Newborn().self.life == 1260;
  }

  /** The life that the messages in the channel will bring. */
  ghost function FedAll(down: seq<Message>): int {
    if down == [] then 0 else Fed(down[0].content) + FedAll(down[1..])
  }

  lemma {:induction false} FedAllAdds(a: seq<Message>, b: seq<Message>)
    ensures FedAll(a + b) == FedAll(a) + FedAll(b)
  {
    if a == [] {
      assert a + b == b;
    } else {
      assert (a + b)[1..] == a[1..] + b;
      FedAllAdds(a[1..], b);
    }
  }

  lemma {:induction false} StraysFeedNobody(heard: seq<Response>)
    requires forall r <- heard :: IsStray(r)
    ensures FedAll(Strays(heard)) == 0
  {
    if heard != [] {
      assert Strays(heard)[1..] == Strays(heard[1..]);
      assert heard[0] in heard;
      StraysFeedNobody(heard[1..]);
    }
  }

  // ----- one step -----

  /** The time units the client takes off for a response: those of its command, unless it is an exception. */
  ghost function Charged(d: Driver, r: Response, roll: Command): int
  {
    if Throws(d, r, roll) || r.Foreign? || r.Died? then 0 else TimeUnits(CommandOf(r))
  }

  lemma RespondLives(d: Driver, r: Response, roll: Command)
    ensures Respond(d, r, roll).self.life == d.self.life + Fed(r) - Charged(d, r, roll)
  {
  }

  /** The time units taken off in a step, and the food that the step made the player put down. */
  ghost function ChargedIn<K>(s: Session<K>, e: Move<K>): int
    requires S.Can(s, e)
  {
    if e.Handles? then Charged(s.link.driver, s.link.down[0].content, e.roll) else 0
  }

  ghost function PutIn<K>(s: Session<K>, e: Move<K>): int
    requires S.Can(s, e)
  {
    if e.Executes? && Live(s.link.ring) != []
       && AnswerOf(OrderOf(Live(s.link.ring)[0]), LastStatus(Play(s.w, e.slot))) == Put(FOOD, true) then 1 else 0
  }

  /** The socket of the player is not lost. */
  ghost predicate Keeps<K>(s: Session<K>, e: Move<K>) {
    e.Other? ==> Spares(s.w, e.a, s.link.me)
  }

  /** Client's life, what is still to come and what was taken off, against the server's reckoning of the same life. */
  ghost predicate LifeHolds<K>(s: Session<K>, spent: int, put: int) {
    var k := s.link.me;
    && k in s.w.players && s.w.config.lifeUnit == FOOD_LIFE
    && s.link.driver.self.life + FedAll(s.link.down) + spent
       == LastBreath(s.w, k) - s.w.players[k].startTime + FOOD_LIFE * put
  }

  lemma OtherHoldsLife<K>(s: Session<K>, a: Action<K>, start: Stance, spent: int, put: int)
    requires S.Holds(s, start) && S.Can(s, Other(a)) && Keeps(s, Other(a)) && LifeHolds(s, spent, put)
    ensures LifeHolds(S.Next(s, Other(a)), spent, put)
  {
    var w', k := Apply(s.w, a), s.link.me;
    OtherServer(s.w, a, k);
    StepLastBreath(s.w, a, k);
    assert FoodTaken(s.w, a, k) == 0;
    HeardAre(s, w');
    FedAllAdds(s.link.down, Strays(HeardIn(s, w')));
    StraysFeedNobody(HeardIn(s, w'));
  }

  lemma ArrivesHoldsLife<K>(s: Session<K>, start: Stance, spent: int, put: int)
    requires S.Holds(s, start) && S.Can(s, Arrives) && LifeHolds(s, spent, put)
    ensures LifeHolds(S.Next(s, Arrives), spent, put)
  {
    var k, o := s.link.me, s.link.up[0];
    var w' := Execute(s.w, s.w.players[k].fd, Some(o.command), ToArg(o.item)).1;
    var l' := F.Next(s.link, Arrive(s.w.config.Delay(o.command)));
    assert S.Next(s, Arrives) == s.(w := w', link := l');
    assert w'.players == s.w.players && w'.config == s.w.config by {
      ArrivalServer(s.w, k, o);
    }
    ArriveKeepsDriver(s.link, s.w.config.Delay(o.command));
  }

  lemma MovedIfHad<K>(w: World<K>, k: K, c: Command, arg: Option<Arg>)
    requires Stands(w, k) && (c == Prend || c == Command.Pose)
    ensures W.Moved(w, k, c, arg).Some? <==> HasSuch(w, k, c, arg)
  {
  }

  /** Food taken and food put down, as the answer has it. */
  lemma OwnFood<K>(w: World<K>, slot: nat, k: K, o: Order, r: Response)
    requires RunsOrder(w, slot, k, o) && AnsweredIn(w, k, o, r)
    ensures FoodTaken(w, Turn(slot), k) == Brought(r, FOOD)
  {
    if o.command == Prend || o.command == Command.Pose {
      MovedIfHad(w, k, o.command, ToArg(o.item));
    }
  }

  lemma ExecutedBreath<K>(w: World<K>, slot: nat, k: K, o: Order, r: Response)
    requires RunsOrder(w, slot, k, o) && AnsweredIn(w, k, o, r) && w.config.lifeUnit == FOOD_LIFE
    ensures var w' := Play(w, slot);
      && k in w'.players && w'.config == w.config && w'.players[k].startTime == w.players[k].startTime
      && LastBreath(w', k) == LastBreath(w, k) + FOOD_LIFE * Brought(r, FOOD)
  {
    ExecutedStance(w, slot, k, o);
    StepLastBreath(w, Turn(slot), k);
    OwnFood(w, slot, k, o, r);
  }

  /** What the client credits is what the server does, but that food put down is not taken off. */
  lemma FedIsBrought(down: seq<Message>, o: Order, r: Response)
    ensures FedAll(down + [Answer(o, r)]) == FedAll(down) + FOOD_LIFE * Brought(r, FOOD) + if r == Put(FOOD, true) then FOOD_LIFE else 0
  {
    var answer := [Answer(o, r)];
    FedAllAdds(down, answer);
    assert answer[1..] == [];
    assert FedAll(answer) == Fed(r);
  }

  lemma ExecutesHoldsLife<K>(s: Session<K>, slot: nat, start: Stance, spent: int, put: int)
    requires S.Holds(s, start) && S.Can(s, Executes(slot)) && LifeHolds(s, spent, put)
    ensures LifeHolds(S.Next(s, Executes(slot)), spent, put + PutIn(s, Executes(slot)))
  {
    ExecutesOrder(s, slot, start);
    var k, o := s.link.me, OrderOf(Live(s.link.ring)[0]);
    var r := AnswerOf(o, LastStatus(Play(s.w, slot)));
    AnswerFits(s.w, slot, k, o);
    ExecutedBreath(s.w, slot, k, o, r);
    FedIsBrought(s.link.down, o, r);
  }

  lemma HandlesHoldsLife<K>(s: Session<K>, roll: Command, spent: int, put: int)
    requires S.Can(s, Handles(roll)) && LifeHolds(s, spent, put)
    ensures LifeHolds(S.Next(s, Handles(roll)), spent + ChargedIn(s, Handles(roll)), put)
  {
    RespondLives(s.link.driver, s.link.down[0].content, roll);
  }

  lemma StepHoldsLife<K>(s: Session<K>, e: Move<K>, start: Stance, spent: int, put: int)
    requires S.Holds(s, start) && S.Can(s, e) && Keeps(s, e) && LifeHolds(s, spent, put)
    ensures LifeHolds(S.Next(s, e), spent + ChargedIn(s, e), put + PutIn(s, e))
  {
    match e
    case Other(a) => OtherHoldsLife(s, a, start, spent, put);
    case Arrives => ArrivesHoldsLife(s, start, spent, put);
    case Executes(slot) => ExecutesHoldsLife(s, slot, start, spent, put);
    case Handles(roll) => HandlesHoldsLife(s, roll, spent, put);
  }

  // ----- whole sessions -----

  ghost predicate KeepsAll<K>(s: Session<K>, es: seq<Move<K>>)
    requires CanRunAll(s, es)
    decreases |es|
  {
    es == [] || (Keeps(s, es[0]) && KeepsAll(S.Next(s, es[0]), es[1..]))
  }

  /** The time units taken off in a session, and the food put down. */
  ghost function ChargedOver<K>(s: Session<K>, es: seq<Move<K>>): int
    requires CanRunAll(s, es)
    decreases |es|
  {
    if es == [] then 0 else ChargedIn(s, es[0]) + ChargedOver(S.Next(s, es[0]), es[1..])
  }

  ghost function PutOver<K>(s: Session<K>, es: seq<Move<K>>): int
    requires CanRunAll(s, es)
    decreases |es|
  {
    if es == [] then 0 else PutIn(s, es[0]) + PutOver(S.Next(s, es[0]), es[1..])
  }

  lemma {:induction false} RunHoldsLife<K>(s: Session<K>, es: seq<Move<K>>, start: Stance, spent: int, put: int)
    requires S.Holds(s, start) && CanRunAll(s, es) && KeepsAll(s, es) && LifeHolds(s, spent, put)
    ensures LifeHolds(RunSession(s, es), spent + ChargedOver(s, es), put + PutOver(s, es))
    decreases |es|
  {
    if es != [] {
      StepHolds(s, es[0], start);
      StepHoldsLife(s, es[0], start, spent, put);
      RunHoldsLife(S.Next(s, es[0]), es[1..], start, spent + ChargedIn(s, es[0]), put + PutIn(s, es[0]));
    }
  }

  /** The player has just logged in. */
  ghost predicate JustIn<K>(s: Session<K>) {
    && Begins(s) && s.w.config.lifeUnit == DEFAULT.lifeUnit && s.w.config.startLifeUnits == DEFAULT.startLifeUnits
    && var p := s.w.players[s.link.me];
       p.inv == NOTHING && p.startTime == s.w.now && p.dieTime == s.w.now + s.w.config.TimeToDie()
  }

  lemma NewbornLives<K>(s: Session<K>)
    requires JustIn(s)
    ensures LifeHolds(s, 0, 0)
  {
    assert s.link.driver.self.life == 1260 && s.link.down == [];
  }

  /**
   With the default worth of food, in any session in which the socket is not lost: once the client has
   handled every message in its channel, its life is the time that food and death time leave the player on
   the server, plus the time that passed without being taken off, plus the worth of the food put down.
   */
  lemma LifeIsOverestimatedBy<K>(s: Session<K>, es: seq<Move<K>>)
    requires JustIn(s) && CanRunAll(s, es) && KeepsAll(s, es) && RunSession(s, es).link.down == []
    ensures var r := RunSession(s, es);
      && r.link.me in r.w.players
      && r.link.driver.self.life == (LastBreath(r.w, r.link.me) - r.w.now)
           + (r.w.now - r.w.players[r.link.me].startTime - ChargedOver(s, es)) + FOOD_LIFE * PutOver(s, es)
  {
    BeginsHolds(s);
    NewbornLives(s);
    RunHoldsLife(s, es, StanceOf(s.w, s.link.me), 0, 0);
  }
}

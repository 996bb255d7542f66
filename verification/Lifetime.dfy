/** How long a player lives: its death time is paid for, unit by unit, by the food it took. */
module Lifetime {
  import opened Wrappers
  import opened World
  import opened Soundness
  import opened Steps
  import opened Ledger

  /** The time that some food is worth. */
  ghost function Worth(config: Config, food: int): int {
    config.lifeUnit * food
  }

  /** The time the player would die at if it ate all its food and took no more. */
  ghost function LastBreath<K>(w: World<K>, k: K): int
    requires k in w.players
  {
    w.players[k].dieTime + Worth(w.config, w.players[k].inv[FOOD])
  }

  /** Food taken from a tile by `k` in this step, less food put down. */
  ghost function FoodTaken<K>(w: World<K>, a: Action<K>, k: K): int
    requires Enabled(w, a)
  {
    if !a.Turn? then 0
    else
      match DeedOf(w, a.slot)
      case Runs(_, q, Do(c), arg) =>
        if q == k && arg == Some(Item(FOOD)) && (c == Prend || c == Pose) && Moved(w, k, c, arg).Some? then
          if c == Prend then 1 else -1
        else 0
      case _ => 0
  }

  /** The step is not the loss of this player's socket. */
  ghost predicate Spares<K>(w: World<K>, a: Action<K>, k: K) {
    !(a.Disconnects? && FindFd(w, a.fd) == Some(k))
  }

  // ----- one step -----

  /** Nothing that counts for a player's lifetime differs. */
  ghost predicate SameLife(p: Player, q: Player) {
    p.dieTime == q.dieTime && p.startTime == q.startTime && p.inv[FOOD] == q.inv[FOOD]
  }

  /** One unit of life and food: unchanged but for food taken, or one item eaten for one unit of life. */
  ghost predicate LifeStep(p: Player, q: Player, unit: int, taken: int) {
    && p.startTime == q.startTime
    && (|| (q.dieTime == p.dieTime && q.inv[FOOD] == p.inv[FOOD] + taken)
        || (taken == 0 && q.dieTime == p.dieTime + unit && q.inv[FOOD] == p.inv[FOOD] - 1))
  }

  lemma CommandKeepsLife<K>(w: World<K>, q: K, c: Command, arg: Option<Arg>, k: K)
    requires Shaped(w) && q in w.players && k in w.players && c != Prend && c != Pose
    ensures var w' := Call(w, q, Do(c), arg);
      k in w'.players && w'.config == w.config && SameLife(w.players[k], w'.players[k])
  {
    match c
    case Avance => assert Call(w, q, Do(c), arg) == Walk(w, q);
    case Incantation => assert StartIncantation(w, q).players == w.players;
    case _ =>
  }

  lemma TransferLife<K>(w: World<K>, q: K, c: Command, arg: Option<Arg>, k: K)
    requires Shaped(w) && q in w.players && k in w.players && (c == Prend || c == Pose)
    ensures var w' := DoTransfer(w, q, c, arg);
      && k in w'.players && w'.config == w.config
      && w'.players[k].dieTime == w.players[k].dieTime && w'.players[k].startTime == w.players[k].startTime
      && w'.players[k].inv[FOOD] == w.players[k].inv[FOOD] +
           if q == k && arg == Some(Item(FOOD)) && Moved(w, k, c, arg).Some? then if c == Prend then 1 else -1 else 0
  {
  }

  lemma ResolveKeepsLife<K>(w: World<K>, q: K, level: int, k: K)
    requires Shaped(w) && q in w.players && k in w.players
    ensures var w' := FinishIncantation(w, q, level);
      k in w'.players && w'.config == w.config && SameLife(w.players[k], w'.players[k])
  {
    var p := w.players[q];
    TileIndexInRange(w.width, w.height, p.x, p.y);
    RaiseRowExact(w.rows[TileOf(w.width, p)], w.players, level);
  }

  lemma RunsLife<K>(w: World<K>, slot: nat, k: K)
    requires Shaped(w) && slot < |w.slots| && Defined(w, slot) && DeedOf(w, slot).Runs? && k in w.players
    ensures var w' := Play(w, slot);
      && k in w'.players && w'.config == w.config
      && LifeStep(w.players[k], w'.players[k], w.config.lifeUnit, FoodTaken(w, Turn(slot), k))
  {
    TurnIsDeed(w, slot);
    var Runs(_, q, job, arg) := DeedOf(w, slot);
    match job
    case ResolveIncantation => ResolveKeepsLife(w, q, LevelOf(arg), k);
    case Do(c) =>
      if c == Prend || c == Pose {
        TransferLife(w, q, c, arg, k);
      } else {
        CommandKeepsLife(w, q, c, arg, k);
      }
  }

  lemma StepLife<K>(w: World<K>, a: Action<K>, k: K)
    requires Enabled(w, a) && k in w.players && k in Apply(w, a).players && Spares(w, a, k)
    ensures var w' := Apply(w, a);
      && w'.config == w.config
      && LifeStep(w.players[k], w'.players[k], w.config.lifeUnit, FoodTaken(w, a, k))
  {
    if a.Turn? {
      TurnIsDeed(w, a.slot);
      if DeedOf(w, a.slot).Runs? {
        RunsLife(w, a.slot, k);
      }
    }
  }

  lemma WorthAdds(config: Config, a: int, b: int)
    ensures Worth(config, a + b) == Worth(config, a) + Worth(config, b)
  {
  }

  /** Products add up: death times and food, before and after. */
  lemma BreathAdds(unit: int, food: int, taken: int)
    ensures unit * (food + taken) == unit * food + unit * taken
  {
  }

  lemma LifeStepBreath(p: Player, q: Player, unit: int, taken: int)
    requires LifeStep(p, q, unit, taken)
    ensures q.dieTime + unit * q.inv[FOOD] == p.dieTime + unit * p.inv[FOOD] + unit * taken
  {
    BreathAdds(unit, p.inv[FOOD], taken);
    BreathAdds(unit, p.inv[FOOD], -1);
  }

  lemma StepLastBreath<K>(w: World<K>, a: Action<K>, k: K)
    requires Enabled(w, a) && k in w.players && k in Apply(w, a).players && Spares(w, a, k)
    ensures var w' := Apply(w, a);
      && w'.config == w.config && w'.players[k].startTime == w.players[k].startTime
      && LastBreath(w', k) == LastBreath(w, k) + Worth(w.config, FoodTaken(w, a, k))
  {
    StepLife(w, a, k);
    LifeStepBreath(w.players[k], Apply(w, a).players[k], w.config.lifeUnit, FoodTaken(w, a, k));
  }

  lemma TurnLeavesOnlyWhenSpent<K>(w: World<K>, slot: nat, k: K)
    requires Shaped(w) && Stocked(w) && slot < |w.slots| && Defined(w, slot) && k in w.players && k !in Play(w, slot).players
    ensures w.players[k].inv[FOOD] == 0 && w.players[k].dieTime <= w.now
  {
    TurnIsDeed(w, slot);
    if DeedOf(w, slot).Runs? {
      RunsLife(w, slot, k);
    }
  }

  /** A player leaves the server only at a turn, out of food, with its death time reached. */
  lemma LeavesOnlyWhenSpent<K>(w: World<K>, a: Action<K>, k: K)
    requires Enabled(w, a) && Stocked(w) && k in w.players && k !in Apply(w, a).players
    ensures w.players[k].inv[FOOD] == 0 && w.players[k].dieTime <= w.now
  {
    if a.Turn? {
      TurnLeavesOnlyWhenSpent(w, a.slot, k);
    }
  }

  // ----- runs -----

  /** The player stays connected, with its socket open, through the whole run. */
  ghost predicate Survives<K>(w: World<K>, actions: seq<Action<K>>, k: K)
    requires CanRun(w, actions)
    decreases actions
  {
    && k in w.players
    && (actions != [] ==> Spares(w, actions[0], k) && Survives(Apply(w, actions[0]), actions[1..], k))
  }

  ghost function FoodTakenIn<K>(w: World<K>, actions: seq<Action<K>>, k: K): int
    requires CanRun(w, actions)
    decreases actions
  {
    if actions == [] then 0
    else FoodTaken(w, actions[0], k) + FoodTakenIn(Apply(w, actions[0]), actions[1..], k)
  }

  /** Between two states the player took so much food, and its life is paid for by it. */
  ghost predicate Breathes<K>(w: World<K>, w': World<K>, k: K, taken: int) {
    && k in w.players && k in w'.players && w'.config == w.config
    && w'.players[k].startTime == w.players[k].startTime
    && LastBreath(w', k) == LastBreath(w, k) + Worth(w.config, taken)
  }

  lemma ChainBreath<K>(w: World<K>, w1: World<K>, w2: World<K>, k: K, a: int, b: int)
    requires Breathes(w, w1, k, a) && Breathes(w1, w2, k, b)
    ensures Breathes(w, w2, k, a + b)
  {
    WorthAdds(w.config, a, b);
  }

  lemma {:induction false} RunLastBreath<K>(w: World<K>, actions: seq<Action<K>>, k: K)
    requires CanRun(w, actions) && Survives(w, actions, k)
    ensures Breathes(w, Run(w, actions), k, FoodTakenIn(w, actions, k))
    decreases actions
  {
    if actions != [] {
      var w1 := Apply(w, actions[0]);
      assert k in w1.players;
      StepLastBreath(w, actions[0], k);
      RunLastBreath(w1, actions[1..], k);
      ChainBreath(w, w1, Run(w1, actions[1..]), k, FoodTaken(w, actions[0], k), FoodTakenIn(w1, actions[1..], k));
    }
  }

  lemma LoginBreath<K>(w: World<K>, login: Action<K>)
    requires login.LogsIn? && Enabled(w, login) && login.k in Apply(w, login).players
    ensures var w1 := Apply(w, login);
      && w1.config == w.config && w1.players[login.k].startTime == w.now
      && LastBreath(w1, login.k) == w.now + Worth(w.config, w.config.startLifeUnits)
  {
    assert Apply(w, login).players[login.k].inv[FOOD] == 0;
  }

  /**
   From login on, while the socket is open: death time plus the worth of the food held is the
   start time plus the worth of the starting units and of all food taken, less food put down.
   */
  lemma LifeEquation<K>(w: World<K>, login: Action<K>, actions: seq<Action<K>>)
    requires login.LogsIn? && Enabled(w, login)
    requires CanRun(Apply(w, login), actions) && Survives(Apply(w, login), actions, login.k)
    ensures var w' := Run(Apply(w, login), actions);
      && login.k in w'.players
      && w'.players[login.k].startTime == w.now
      && LastBreath(w', login.k)
         == w.now + Worth(w.config, w.config.startLifeUnits + FoodTakenIn(Apply(w, login), actions, login.k))
  {
    LoginBreath(w, login);
    RunLastBreath(Apply(w, login), actions, login.k);
    WorthAdds(w.config, w.config.startLifeUnits, FoodTakenIn(Apply(w, login), actions, login.k));
  }

  /** Nobody is removed before its starting units and its food are used up. */
  lemma NotRemovedEarly<K>(w: World<K>, login: Action<K>, actions: seq<Action<K>>, last: Action<K>)
    requires Sound(w) && login.LogsIn? && Enabled(w, login)
    requires CanRun(Apply(w, login), actions) && Survives(Apply(w, login), actions, login.k)
    requires Enabled(Run(Apply(w, login), actions), last)
    requires login.k !in Apply(Run(Apply(w, login), actions), last).players
    ensures Run(Apply(w, login), actions).now
         >= w.now + Worth(w.config, w.config.startLifeUnits + FoodTakenIn(Apply(w, login), actions, login.k))
  {
    var w' := Run(Apply(w, login), actions);
    assert Stocked(w') by {
      StepSound(w, login);
      EveryRunSound(Apply(w, login), actions);
    }
    LifeEquation(w, login, actions);
    LeavesOnlyWhenSpent(w', last, login.k);
  }

  /** A lost socket is an error exactly when no client has it; else it takes the time and the food of the first that does. */
  lemma KillOutcome<K>(w: World<K>, fd: int)
    ensures var (code, w') := Kill(w, fd);
      var o := FindFd(w, fd);
      && code == (if o.None? then ERROR else SUCCESS)
      && w' == w.(players := w'.players) && w'.players.Keys == w.players.Keys
      && forall k <- w.players :: w'.players[k] ==
           if o == Some(k) then w.players[k].(dieTime := 0, inv := w'.players[k].inv) else w.players[k]
    ensures var w' := Kill(w, fd).1;
      forall k <- w.players, kind: Kind :: FindFd(w, fd) == Some(k) && k in w'.players ==>
        w'.players[k].inv[kind] == if kind == FOOD then 0 else w.players[k].inv[kind]
  {
  }

  /** A turn of a player with its time reached and nothing to eat. */
  lemma SpentLeaves<K>(w: World<K>, k: K, slot: nat)
    requires Sound(w) && slot < |w.slots| && w.slots[slot] == Some(k)
    requires w.players[k].dieTime <= w.now && w.players[k].inv[FOOD] == 0
    ensures Defined(w, slot) && Play(w, slot).players == w.players - {k}
    ensures Some(k) !in Play(w, slot).slots
    ensures Play(w, slot).outbox == w.outbox + [DeathNotice(w.players[k].fd)]
  {
    RemovalNeverFails(w, k);
    LeaveSeated(w, k);
    assert Play(w, slot) == Leave(w, k).1;
  }

  /** A player whose socket is gone leaves at its next turn, whatever it had to eat. */
  lemma KilledLeavesAtNextTurn<K>(w: World<K>, fd: int, k: K, slot: nat)
    requires Sound(w) && FindFd(w, fd) == Some(k) && w.now >= 0 && slot < |w.slots| && w.slots[slot] == Some(k)
    ensures var killed := Kill(w, fd).1;
      && Shaped(killed) && Defined(killed, slot) && Play(killed, slot).players == killed.players - {k}
      && Some(k) !in Play(killed, slot).slots
      && Play(killed, slot).outbox == w.outbox + [DeathNotice(w.players[k].fd)]
  {
    KillSound(w, fd);
    SpentLeaves(Kill(w, fd).1, k, slot);
  }
}

/** Every step of the server, whole runs of steps, and what all of them keep. */
module Steps {
  import opened Wrappers
  import opened Torus
  import opened EventRing
  import opened World
  import opened Soundness

  /**
   What can happen to the server. Keys of new players, start positions, clock readings and
   spawned amounts are chosen by the environment; `Shove` is one move of an expulse loop.
   */
  datatype Action<K> =
    | Tick(to: int)
    | LogsIn(k: K, fd: int, team: int, x: int, y: int, dir: Direction)
    | Sends(fd: int, command: Option<Command>, arg: Option<Arg>)
    | Disconnects(fd: int)
    | Turn(slot: nat)
    | Shoves(k: K, q: K)
    | Spawns(drops: seq<Inventory>)

  /** The environment may take the step. */
  ghost predicate Offered<K>(w: World<K>, a: Action<K>) {
    Shaped(w) &&
    match a
    case Tick(to) => w.now <= to
    case LogsIn(k, _, team, x, y, _) => k !in w.players && team < |w.counts| && OnMap(w.width, w.height, x, y)
    case Sends(_, _, _) => true
    case Disconnects(_) => true
    case Turn(slot) => slot < |w.slots|
    case Shoves(k, q) => k in w.players && q in w.players && k != q
    case Spawns(drops) => w.nextIdx >= 0 && |drops| == Batch(|w.items|) && forall d <- drops :: Covers(d, NOTHING)
  }

  /** And what the server does then is defined: a turn does not call back with a player that was released. */
  ghost predicate Enabled<K>(w: World<K>, a: Action<K>) {
    Offered(w, a) && (a.Turn? ==> Defined(w, a.slot))
  }

  ghost function Apply<K>(w: World<K>, a: Action<K>): World<K>
    requires Enabled(w, a)
  {
    match a
    case Tick(to) => w.(now := to)
    case LogsIn(k, fd, team, x, y, dir) => Login(w, k, fd, team, x, y, dir).1
    case Sends(fd, command, arg) => Execute(w, fd, command, arg).1
    case Disconnects(fd) => Kill(w, fd).1
    case Turn(slot) => Play(w, slot)
    case Shoves(k, q) => Shove(w, k, q)
    case Spawns(drops) => Spawn(w, drops)
  }

  // ----- the commands keep the server sound -----

  lemma TransferSound<K>(w: World<K>, k: K, kind: Kind, take: bool)
    requires Sound(w) && k in w.players
    ensures Transfer(w, k, kind, take).Some? ==> Sound(Transfer(w, k, kind, take).value)
  {
    var o := Transfer(w, k, kind, take);
    if o.Some? {
      var p := w.players[k];
      TileIndexInRange(w.width, w.height, p.x, p.y);
      RestockSound(w, o.value.items);
      ReplaceSound(w.(items := o.value.items), k, o.value.players[k]);
    }
  }

  lemma MinusCovers(a: Inventory, b: Inventory)
    requires Covers(a, b)
    ensures Covers(Minus(a, b), NOTHING)
  {
  }

  lemma StonesStayCovered<K>(w: World<K>, k: K)
    requires Shaped(w) && Stocked(w) && k in w.players
    ensures var items := StartIncantation(w, k).items;
      |items| == |w.items| && forall t | 0 <= t < |items| :: Covers(items[t], NOTHING)
  {
    if CanIncantate(w, k, true) {
      var p := w.players[k];
      TileIndexInRange(w.width, w.height, p.x, p.y);
      MinusCovers(w.items[TileOf(w.width, p)], LevelReqs(p.level).stones);
    }
  }

  lemma StartSound<K>(w: World<K>, k: K)
    requires Sound(w) && k in w.players
    ensures Sound(StartIncantation(w, k))
  {
    var w' := StartIncantation(w, k);
    StonesStayCovered(w, k);
    RestockSound(w, w'.items);
    SpokenSound(w.(items := w'.items), w'.outbox);
  }

  /** Exactly the players of the list that are at the level rise, each by one. */
  lemma {:induction false} RaiseRowExact<K>(row: seq<K>, players: map<K, Player>, level: int)
    ensures var r := RaiseRow(row, players, level).0;
      && r.Keys == players.Keys
      && forall q <- players :: r[q] ==
           if q in row && players[q].level == level then players[q].(level := level + 1) else players[q]
  {
    if row != [] {
      if row[0] in players && players[row[0]].level == level {
        RaiseRowExact(row[1..], players[row[0] := players[row[0]].(level := level + 1)], level);
      } else {
        RaiseRowExact(row[1..], players, level);
      }
    }
  }

  lemma FinishRelabels<K>(w: World<K>, k: K, level: int)
    requires Shaped(w) && Stocked(w) && k in w.players
    ensures var w' := FinishIncantation(w, k, level);
      && SamePlaces(w.players, w'.players)
      && (forall q <- w'.players :: 1 <= w'.players[q].level <= LEVEL_MAX && Covers(w'.players[q].inv, NOTHING))
      && w' == w.(players := w'.players, outbox := w'.outbox)
  {
    var p := w.players[k];
    TileIndexInRange(w.width, w.height, p.x, p.y);
    RaiseRowExact(w.rows[TileOf(w.width, p)], w.players, level);
  }

  lemma FinishSound<K>(w: World<K>, k: K, level: int)
    requires Sound(w) && k in w.players
    ensures Sound(FinishIncantation(w, k, level))
  {
    var w' := FinishIncantation(w, k, level);
    FinishRelabels(w, k, level);
    RelabelSound(w, w'.players);
    SpokenSound(w.(players := w'.players), w'.outbox);
  }

  lemma DoTransferSound<K>(w: World<K>, k: K, command: Command, arg: Option<Arg>)
    requires Sound(w) && k in w.players
    ensures Sound(DoTransfer(w, k, command, arg))
  {
    var o := Moved(w, k, command, arg);
    if o.Some? {
      TransferSound(w, k, arg.value.kind, command == Prend);
      SpokenSound(o.value, o.value.outbox + [Reply(w.players[k].fd, Do(command), Yes)]);
    } else {
      SpokenSound(w, w.outbox + [Reply(w.players[k].fd, Do(command), No)]);
    }
  }

  lemma CarrierSound<K>(w: World<K>, k: K, c: Command, arg: Option<Arg>)
    requires Sound(w) && k in w.players && (c == Prend || c == Pose)
    ensures Sound(Call(w, k, Do(c), arg))
  {
    DoTransferSound(w, k, c, arg);
  }

  lemma PayerSound<K>(w: World<K>, k: K, arg: Option<Arg>)
    requires Sound(w) && k in w.players
    ensures Sound(Call(w, k, Do(Incantation), arg))
  {
    assert Call(w, k, Do(Incantation), arg) == StartIncantation(w, k);
    StartSound(w, k);
  }

  lemma AnswerSound<K>(w: World<K>, k: K, c: Command, arg: Option<Arg>)
    requires Sound(w) && k in w.players
    requires c !in {Command.Avance, Command.Droite, Command.Gauche, Command.Prend, Command.Pose, Command.Incantation}
    ensures Sound(Call(w, k, Do(c), arg))
  {
    SpokenSound(w, w.outbox + Answers(w, k, c, arg));
  }

  lemma WalkSound<K>(w: World<K>, k: K)
    requires Sound(w) && k in w.players
    ensures Sound(Walk(w, k))
  {
    var (x, y) := StepAhead(w, k);
    MoveSound(w, k, x, y);
    SpokenSound(MovePlayer(w, k, x, y), Walk(w, k).outbox);
  }

  lemma FaceSound<K>(w: World<K>, k: K, dir: Direction, c: Command)
    requires Sound(w) && k in w.players
    ensures Sound(Face(w, k, dir, c))
  {
    var w' := w.(players := w.players[k := w.players[k].(dir := dir)]);
    ReplaceSound(w, k, w.players[k].(dir := dir));
    SpokenSound(w', Face(w, k, dir, c).outbox);
  }

  lemma MoverSound<K>(w: World<K>, k: K, c: Command, arg: Option<Arg>)
    requires Sound(w) && k in w.players && (c == Avance || c == Droite || c == Gauche)
    ensures Sound(Call(w, k, Do(c), arg))
  {
    if c == Avance {
      WalkSound(w, k);
    } else if c == Droite {
      FaceSound(w, k, TurnRight(w.players[k].dir), c);
    } else {
      FaceSound(w, k, TurnLeft(w.players[k].dir), c);
    }
  }

  lemma CommandSound<K>(w: World<K>, k: K, c: Command, arg: Option<Arg>)
    requires Sound(w) && k in w.players
    ensures Sound(Call(w, k, Do(c), arg))
  {
    if c == Avance || c == Droite || c == Gauche {
      MoverSound(w, k, c, arg);
    } else if c == Prend || c == Pose {
      CarrierSound(w, k, c, arg);
    } else if c == Incantation {
      PayerSound(w, k, arg);
    } else {
      AnswerSound(w, k, c, arg);
    }
  }

  lemma CallSound<K>(w: World<K>, k: K, job: Job, arg: Option<Arg>)
    requires Sound(w) && k in w.players
    ensures Sound(Call(w, k, job, arg))
  {
    match job
    case ResolveIncantation =>
      FinishSound(w, k, LevelOf(arg));
    case Do(c) =>
      CommandSound(w, k, c, arg);
  }

  lemma CallKeepsRings<K>(w: World<K>, k: K, job: Job, arg: Option<Arg>)
    requires Shaped(w) && k in w.players
    ensures Call(w, k, job, arg).rings == w.rings && Call(w, k, job, arg).slots == w.slots
  {
  }

  lemma RunRingsValid<K>(w: World<K>, o: K, k: K, job: Job)
    requires Shaped(w) && o in w.players && k in w.players
    requires IsDue(w.rings[o], w.now) && Live(w.rings[o])[0].call.Some?
    ensures RunRings(w, o, k, job).Keys == w.rings.Keys
    ensures forall q <- w.rings :: Valid(RunRings(w, o, k, job)[q])
  {
    var reaction := Reacts(w, o, k, job);
    if reaction.Quiet? {
      QuietPass(w.rings[o], w.now, reaction);
    } else {
      FrontPass(w.rings[o], w.now, reaction.delay, reaction.call, reaction.arg);
    }
    var c := QueuesSecondPhase(w, k, job);
    if c.Some? {
      PushFrontPrepends(w.rings[c.value], w.now, w.config.IncantationTime(),
                        SecondPhaseOf(k), Some(Level(w.players[k].level)));
    }
  }

  lemma RunHeadSound<K>(w: World<K>, o: K)
    requires Sound(w) && o in w.players && IsDue(w.rings[o], w.now) && CallsSomebody(w, o)
    ensures Sound(RunHead(w, o))
  {
    var r := w.rings[o];
    var ev := r.slots[r.head];
    assert Live(r)[0] == ev;
    if ev.call.None? {
      QuietPass(r, w.now, Quiet);
      RequeueSound(w, RunHead(w, o).rings);
    } else {
      var Callback(job, k) := ev.call.value;
      CallSound(w, k, job, ev.arg);
      CallKeepsRings(w, k, job, ev.arg);
      RunRingsValid(w, o, k, job);
      RequeueSound(Call(w, k, job, ev.arg), RunRings(w, o, k, job));
    }
  }

  lemma SendsSound<K>(w: World<K>, fd: int, command: Option<Command>, arg: Option<Arg>)
    requires Sound(w)
    ensures Sound(Execute(w, fd, command, arg).1)
  {
    var o := FindFd(w, fd);
    if o.Some? && command.Some? {
      PushBackAppends(w.rings[o.value], w.now, w.config.Delay(command.value), Some(Callback(Do(command.value), o.value)), arg);
      RequeueSound(w, Execute(w, fd, command, arg).1.rings);
    }
  }

  lemma KillSound<K>(w: World<K>, fd: int)
    requires Sound(w)
    ensures Sound(Kill(w, fd).1)
  {
    var o := FindFd(w, fd);
    if o.Some? {
      var p := w.players[o.value];
      ReplaceSound(w, o.value, p.(dieTime := 0, inv := p.inv[FOOD := 0]));
    }
  }

  /** Spawning lowers nothing and leaves well-stocked tiles alone. */
  lemma {:induction false} SpawnOnlyAdds(items: seq<Inventory>, from: int, drops: seq<Inventory>, n: nat)
    requires |items| > 0 && from >= 0 && n <= |drops|
    requires forall d <- drops :: Covers(d, NOTHING)
    ensures forall t | 0 <= t < |items| :: Covers(SpawnOn(items, from, drops, n)[t], items[t])
    ensures forall t | 0 <= t < |items| && InventorySum(items[t]) > 15 :: SpawnOn(items, from, drops, n)[t] == items[t]
  {
    if n > 0 {
      SpawnOnlyAdds(items, from, drops, n - 1);
      var before := SpawnOn(items, from, drops, n - 1);
      var t := (from + n - 1) % |items|;
      assert drops[n - 1] in drops;
      assert Covers(Refill(before[t], drops[n - 1]), before[t]);
    }
  }

  lemma SpawnSound<K>(w: World<K>, drops: seq<Inventory>)
    requires Sound(w) && Enabled(w, Spawns(drops))
    ensures Sound(Spawn(w, drops))
  {
    SpawnOnlyAdds(w.items, w.nextIdx, drops, |drops|);
    RestockSound(w, Spawn(w, drops).items);
  }

  // ----- steps and runs -----

  lemma TurnSound<K>(w: World<K>, slot: nat)
    requires Sound(w) && slot < |w.slots| && Defined(w, slot)
    ensures Sound(Play(w, slot))
  {
    if w.slots[slot].Some? {
      var k := w.slots[slot].value;
      if w.players[k].dieTime <= w.now {
        DieSound(w, k);
      } else if IsDue(w.rings[k], w.now) {
        RunHeadSound(w, k);
      }
    }
  }

  lemma TurnKeepsTableSize<K>(w: World<K>, slot: nat)
    requires Shaped(w) && slot < |w.slots| && Defined(w, slot)
    ensures |Play(w, slot).slots| == |w.slots|
  {
    if w.slots[slot].Some? {
      var o := w.slots[slot].value;
      var ev := w.rings[o].slots[w.rings[o].head];
      if w.now < w.players[o].dieTime && IsDue(w.rings[o], w.now) && ev.call.Some? {
        CallKeepsRings(w, ev.call.value.data, ev.call.value.job, ev.arg);
      }
    }
  }

  lemma ShoveSound<K>(w: World<K>, k: K, q: K)
    requires Sound(w) && k in w.players && q in w.players
    ensures Sound(Shove(w, k, q))
  {
    var (x, y) := StepAhead(w, k);
    MoveSound(w, q, x, y);
    SpokenSound(MovePlayer(w, q, x, y), Shove(w, k, q).outbox);
  }

  lemma StepSound<K>(w: World<K>, a: Action<K>)
    requires Sound(w) && Enabled(w, a)
    ensures Sound(Apply(w, a))
  {
    match a
    case Tick(to) => TickSound(w, to);
    case LogsIn(k, fd, team, x, y, dir) => LoginSound(w, k, fd, team, x, y, dir);
    case Sends(fd, command, arg) => SendsSound(w, fd, command, arg);
    case Disconnects(fd) => KillSound(w, fd);
    case Turn(slot) => TurnSound(w, slot);
    case Shoves(k, q) => ShoveSound(w, k, q);
    case Spawns(drops) => SpawnSound(w, drops);
  }

  ghost predicate CanRun<K>(w: World<K>, actions: seq<Action<K>>)
    decreases actions
  {
    actions == [] || (Enabled(w, actions[0]) && CanRun(Apply(w, actions[0]), actions[1..]))
  }

  ghost function Run<K>(w: World<K>, actions: seq<Action<K>>): World<K>
    requires CanRun(w, actions)
    decreases actions
  {
    if actions == [] then w else Run(Apply(w, actions[0]), actions[1..])
  }

  /**
   Every run from a sound server ends in a sound server, as far as its turns are defined; with one
   login per socket they all are (`Incantations`).
   */
  lemma {:induction false} EveryRunSound<K>(w: World<K>, actions: seq<Action<K>>)
    requires Sound(w) && CanRun(w, actions)
    ensures Sound(Run(w, actions))
    decreases actions
  {
    if actions != [] {
      StepSound(w, actions[0]);
      EveryRunSound(Apply(w, actions[0]), actions[1..]);
    }
  }

  /** The server as game_init leaves it. */
  ghost predicate Initial<K>(w: World<K>) {
    && w.width > 0 && w.height > 0
    && |w.items| == |w.rows| == w.width * w.height
    && (forall t | 0 <= t < |w.rows| :: w.rows[t] == [] && Covers(w.items[t], NOTHING))
    && w.players == map[] && w.rings == map[]
    && (forall i | 0 <= i < |w.slots| :: w.slots[i] == None)
    && |w.counts| > 0 && w.cap == |w.slots| / |w.counts|
    && (forall t | 0 <= t < |w.counts| :: w.counts[t] == 0)
    && w.nextIdx == 0
  }

  lemma {:induction false} EmptyTable<K>(slots: seq<Option<K>>, wt: map<K, int>)
    requires forall i | 0 <= i < |slots| :: slots[i] == None
    ensures Tally.Sum(slots, wt) == 0
  {
    if slots != [] {
      EmptyTable(slots[1..], wt);
    }
  }

  lemma InitialSound<K>(w: World<K>)
    requires Initial(w)
    ensures Sound(w)
  {
    assert w.cap * |w.counts| <= |w.slots|;
    forall t | 0 <= t < |w.counts|
      ensures Tally.Sum(w.slots, OnTeam(w.players, t)) == 0
    {
      EmptyTable(w.slots, OnTeam(w.players, t));
    }
  }
}

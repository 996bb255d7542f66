/** Where every item goes, and what keeps a player alive, over whole runs. */
module Ledger {
  import opened Wrappers
  import opened Torus
  import opened EventRing
  import opened World
  import opened Tally
  import opened Soundness
  import opened Steps

  /** What one turn of the play loop does for a slot: the event it runs is the owner's, and calls back with player k. */
  datatype Deed<K> = Idle | Eats(k: K) | Leaves(k: K) | Runs(owner: K, k: K, job: Job, arg: Option<Arg>)

  ghost function DeedOf<K>(w: World<K>, slot: nat): Deed<K>
    requires Shaped(w) && slot < |w.slots|
  {
    match w.slots[slot]
    case None => Idle
    case Some(k) =>
      if w.players[k].dieTime <= w.now then if w.players[k].inv[FOOD] > 0 then Eats(k) else Leaves(k)
      else if IsDue(w.rings[k], w.now) && Live(w.rings[k])[0].call.Some? then
        var ev := Live(w.rings[k])[0];
        Runs(k, ev.call.value.data, ev.call.value.job, ev.arg)
      else Idle
  }

  // ----- totals -----

  ghost function OnTiles(items: seq<Inventory>, kind: Kind): int {
    if items == [] then 0 else items[0][kind] + OnTiles(items[1..], kind)
  }

  ghost function Holdings<K>(players: map<K, Player>, kind: Kind): map<K, int> {
    map k <- players :: players[k].inv[kind]
  }

  /** All items of a kind, on tiles and in the inventories of the connected players. */
  ghost function Total<K>(w: World<K>, kind: Kind): int {
    OnTiles(w.items, kind) + Sum(w.slots, Holdings(w.players, kind))
  }

  // ----- what a step brings in or takes out -----

  ghost function Dropped(items: seq<Inventory>, from: int, drops: seq<Inventory>, n: nat, kind: Kind): int
    requires |items| > 0 && from >= 0 && n <= |drops|
  {
    if n == 0 then 0
    else
      Dropped(items, from, drops, n - 1, kind) +
      if InventorySum(SpawnOn(items, from, drops, n - 1)[(from + n - 1) % |items|]) > 15 then 0 else drops[n - 1][kind]
  }

  ghost function Spawned<K>(w: World<K>, a: Action<K>, kind: Kind): int
    requires Enabled(w, a)
  {
    if a.Spawns? then Dropped(w.items, w.nextIdx, a.drops, |a.drops|, kind) else 0
  }

  ghost predicate Pays<K>(w: World<K>, a: Action<K>)
    requires Enabled(w, a)
  {
    && a.Turn?
    && DeedOf(w, a.slot).Runs?
    && DeedOf(w, a.slot).job == Do(Incantation)
    && CanIncantate(w, DeedOf(w, a.slot).k, true)
  }

  ghost function Paid<K>(w: World<K>, a: Action<K>, kind: Kind): int
    requires Enabled(w, a)
  {
    if Pays(w, a) then LevelReqs(w.players[DeedOf(w, a.slot).k].level).stones[kind] else 0
  }

  ghost function Eaten<K>(w: World<K>, a: Action<K>, kind: Kind): int
    requires Enabled(w, a)
  {
    if a.Turn? && DeedOf(w, a.slot).Eats? && kind == FOOD then 1 else 0
  }

  /** What vanishes with a player that leaves, and the food of one whose socket is gone. */
  ghost function Lost<K>(w: World<K>, a: Action<K>, kind: Kind): int
    requires Enabled(w, a)
  {
    if a.Turn? && DeedOf(w, a.slot).Leaves? then w.players[DeedOf(w, a.slot).k].inv[kind]
    else if a.Disconnects? && FindFd(w, a.fd).Some? && kind == FOOD then w.players[FindFd(w, a.fd).value].inv[FOOD]
    else 0
  }

  // ----- conservation, step by step -----

  lemma {:induction false} OnTilesUpdate(items: seq<Inventory>, t: nat, inv: Inventory, kind: Kind)
    requires t < |items|
    ensures OnTiles(items[t := inv], kind) == OnTiles(items, kind) - items[t][kind] + inv[kind]
  {
    if t == 0 {
      assert items[0 := inv][1..] == items[1..];
    } else {
      assert items[t := inv][1..] == items[1..][t - 1 := inv];
      OnTilesUpdate(items[1..], t - 1, inv, kind);
    }
  }

  /** Changing one connected player's inventory changes the total by the difference. */
  lemma HoldingsUpdate<K>(w: World<K>, k: K, p: Player, kind: Kind)
    requires Seated(w) && k in w.players
    ensures Sum(w.slots, Holdings(w.players[k := p], kind))
         == Sum(w.slots, Holdings(w.players, kind)) - w.players[k].inv[kind] + p.inv[kind]
  {
    SumOfReweight(w.slots, Holdings(w.players, kind), Holdings(w.players[k := p], kind), k);
  }

  /** An unchanged inventory everywhere leaves the total as it is. */
  lemma HoldingsSame<K>(slots: seq<Option<K>>, a: map<K, Player>, b: map<K, Player>, kind: Kind)
    requires a.Keys == b.Keys && forall k <- a :: a[k].inv == b[k].inv
    ensures Sum(slots, Holdings(a, kind)) == Sum(slots, Holdings(b, kind))
  {
    assert Holdings(a, kind) == Holdings(b, kind);
  }

  /** A prend or pose moves an item between tile and player; refused, it changes nothing but the reply. */
  lemma TransferConserves<K>(w: World<K>, k: K, c: Command, arg: Option<Arg>, kind: Kind)
    requires Stands(w, k) && Seated(w)
    ensures Total(DoTransfer(w, k, c, arg), kind) == Total(w, kind)
    ensures Moved(w, k, c, arg).None? ==> DoTransfer(w, k, c, arg) == w.(outbox := DoTransfer(w, k, c, arg).outbox)
  {
    var o := Moved(w, k, c, arg);
    if o.Some? {
      var p := w.players[k];
      TileIndexInRange(w.width, w.height, p.x, p.y);
      var t := TileOf(w.width, p);
      OnTilesUpdate(w.items, t, o.value.items[t], kind);
      HoldingsUpdate(w, k, o.value.players[k], kind);
    }
  }

  /** There is one of the kind named: on the tile for a prend, with the player for a pose. */
  ghost predicate HasSuch<K>(w: World<K>, k: K, c: Command, arg: Option<Arg>)
    requires Stands(w, k)
  {
    TileIndexInRange(w.width, w.height, w.players[k].x, w.players[k].y);
    && arg.Some? && arg.value.Item?
    && (if c == Prend then w.items[TileOf(w.width, w.players[k])] else w.players[k].inv)[arg.value.kind] > 0
  }

  /** `one` item of a kind went from the tile under player k to the player, and nothing else moved. */
  ghost predicate HandsOver<K>(w: World<K>, w': World<K>, k: K, kind: Kind, one: int)
    requires k in w.players
  {
    && w'.players.Keys == w.players.Keys && |w'.items| == |w.items|
    && w'.players[k] == w.players[k].(inv := w'.players[k].inv)
    && (forall q <- w.players :: q != k ==> w'.players[q] == w.players[q])
    && (forall other: Kind ::
          w'.players[k].inv[other] == w.players[k].inv[other] + if other == kind then one else 0)
    && (forall t, other: Kind | 0 <= t < |w.items| ::
          w'.items[t][other] == w.items[t][other] - if t == TileOf(w.width, w.players[k]) && other == kind then one else 0)
  }

  /**
   The answer to a prend or a pose: yes if and only if there is one of the kind named, and then
   exactly one of it changes hands; else no, and nothing happens besides the answer.
   */
  lemma TransferAnswers<K>(w: World<K>, k: K, c: Command, arg: Option<Arg>)
    requires Stands(w, k) && (c == Prend || c == Pose)
    ensures var w' := DoTransfer(w, k, c, arg);
      && w'.outbox == w.outbox + [Reply(w.players[k].fd, Do(c), if HasSuch(w, k, c, arg) then Yes else No)]
      && w' == w.(items := w'.items, players := w'.players, outbox := w'.outbox)
      && if HasSuch(w, k, c, arg) then HandsOver(w, w', k, arg.value.kind, if c == Prend then 1 else -1)
         else w'.items == w.items && w'.players == w.players
  {
    TileIndexInRange(w.width, w.height, w.players[k].x, w.players[k].y);
  }

  lemma StartConserves<K>(w: World<K>, k: K, kind: Kind)
    requires Stands(w, k)
    ensures Total(StartIncantation(w, k), kind)
         == Total(w, kind) - if CanIncantate(w, k, true) then LevelReqs(w.players[k].level).stones[kind] else 0
  {
    if CanIncantate(w, k, true) {
      var p := w.players[k];
      TileIndexInRange(w.width, w.height, p.x, p.y);
      var t := TileOf(w.width, p);
      OnTilesUpdate(w.items, t, Minus(w.items[t], LevelReqs(p.level).stones), kind);
    }
  }

  lemma FinishConserves<K>(w: World<K>, k: K, level: int, kind: Kind)
    requires Stands(w, k)
    ensures Total(FinishIncantation(w, k, level), kind) == Total(w, kind)
  {
    var p := w.players[k];
    TileIndexInRange(w.width, w.height, p.x, p.y);
    RaiseRowExact(w.rows[TileOf(w.width, p)], w.players, level);
    HoldingsSame(w.slots, w.players, RaiseRow(w.rows[TileOf(w.width, p)], w.players, level).0, kind);
  }

  lemma EmptyHandedConserves<K>(w: World<K>, k: K, c: Command, arg: Option<Arg>, kind: Kind)
    requires Shaped(w) && k in w.players && c != Prend && c != Pose && c != Incantation
    ensures Total(Call(w, k, Do(c), arg), kind) == Total(w, kind)
  {
    if c == Avance {
      HoldingsSame(w.slots, w.players, Walk(w, k).players, kind);
    } else if c == Droite || c == Gauche {
      HoldingsSame(w.slots, w.players, Call(w, k, Do(c), arg).players, kind);
    }
  }

  lemma CommandConserves<K>(w: World<K>, k: K, c: Command, arg: Option<Arg>, kind: Kind)
    requires Shaped(w) && Seated(w) && k in w.players
    ensures Total(Call(w, k, Do(c), arg), kind) == Total(w, kind) -
      if c == Incantation && CanIncantate(w, k, true) then LevelReqs(w.players[k].level).stones[kind] else 0
  {
    if c == Prend || c == Pose {
      assert Call(w, k, Do(c), arg) == DoTransfer(w, k, c, arg);
      TransferConserves(w, k, c, arg, kind);
    } else if c == Incantation {
      assert Call(w, k, Do(c), arg) == StartIncantation(w, k);
      StartConserves(w, k, kind);
    } else {
      EmptyHandedConserves(w, k, c, arg, kind);
    }
  }

  lemma {:induction false} SpawnConserves(items: seq<Inventory>, from: int, drops: seq<Inventory>, n: nat, kind: Kind)
    requires |items| > 0 && from >= 0 && n <= |drops|
    ensures OnTiles(SpawnOn(items, from, drops, n), kind) == OnTiles(items, kind) + Dropped(items, from, drops, n, kind)
  {
    if n > 0 {
      SpawnConserves(items, from, drops, n - 1, kind);
      var before := SpawnOn(items, from, drops, n - 1);
      var t := (from + n - 1) % |items|;
      OnTilesUpdate(before, t, Refill(before[t], drops[n - 1]), kind);
    }
  }

  lemma LeaveHoldings<K>(slots: seq<Option<K>>, players: map<K, Player>, i: nat, k: K, kind: Kind)
    requires Once(slots) && i < |slots| && slots[i] == Some(k) && k in players
    ensures Sum(slots[i := None], Holdings(players - {k}, kind)) == Sum(slots, Holdings(players, kind)) - players[k].inv[kind]
  {
    SumOfUpdate(slots, i, None, Holdings(players, kind));
    SumAgrees(slots[i := None], Holdings(players, kind), Holdings(players - {k}, kind));
  }

  lemma LeaveConserves<K>(w: World<K>, k: K, kind: Kind)
    requires Shaped(w) && Seated(w) && Counted(w) && k in w.players
    ensures Total(Leave(w, k).1, kind) == Total(w, kind) - w.players[k].inv[kind]
  {
    RemovalNeverFails(w, k);
    LeaveHoldings(w.slots, w.players, FirstSlot(w.slots, Some(k)), k, kind);
  }

  lemma LoginHoldings<K>(slots: seq<Option<K>>, players: map<K, Player>, i: nat, k: K, p: Player, kind: Kind)
    requires i < |slots| && slots[i] == None && k !in players && p.inv == NOTHING
    requires forall j | 0 <= j < |slots| && slots[j].Some? :: slots[j].value in players
    ensures Sum(slots[i := Some(k)], Holdings(players[k := p], kind)) == Sum(slots, Holdings(players, kind))
  {
    SumOfUpdate(slots, i, Some(k), Holdings(players[k := p], kind));
    SumAgrees(slots, Holdings(players, kind), Holdings(players[k := p], kind));
  }

  lemma LoginConserves<K>(w: World<K>, k: K, fd: int, team: int, x: int, y: int, dir: Direction, kind: Kind)
    requires Sound(w)
    requires k !in w.players && OnMap(w.width, w.height, x, y) && team < |w.counts|
    ensures Total(Login(w, k, fd, team, x, y, dir).1, kind) == Total(w, kind)
  {
    if team >= 0 && w.counts[team] < w.cap {
      RoomOnTeamMeansFreeSlot(w, team);
      var w' := Login(w, k, fd, team, x, y, dir).1;
      LoginHoldings(w.slots, w.players, FirstSlot(w.slots, None), k, w'.players[k], kind);
    }
  }

  lemma CallConserves<K>(w: World<K>, k: K, job: Job, arg: Option<Arg>, kind: Kind)
    requires Shaped(w) && Seated(w) && k in w.players
    ensures Total(Call(w, k, job, arg), kind) == Total(w, kind) -
      if job == Do(Incantation) && CanIncantate(w, k, true) then LevelReqs(w.players[k].level).stones[kind] else 0
  {
    match job
    case ResolveIncantation => FinishConserves(w, k, LevelOf(arg), kind);
    case Do(c) => CommandConserves(w, k, c, arg, kind);
  }

  /** A turn is the deed found for it. */
  lemma TurnIsDeed<K>(w: World<K>, slot: nat)
    requires Shaped(w) && slot < |w.slots| && Defined(w, slot)
    ensures match DeedOf(w, slot)
      case Idle => Play(w, slot) == w.(rings := Play(w, slot).rings)
      case Eats(k) => k in w.players && Play(w, slot) == Eat(w, k)
      case Leaves(k) => k in w.players && Play(w, slot) == Leave(w, k).1
      case Runs(o, k, job, arg) =>
        && o in w.players && k in w.players && IsDue(w.rings[o], w.now)
        && Live(w.rings[o])[0].call == Some(Callback(job, k)) && Live(w.rings[o])[0].arg == arg
        && Play(w, slot) == Call(w, k, job, arg).(rings := RunRings(w, o, k, job))
  {
  }

  /** A due event without a callback is taken off the buffer, and that is all. */
  lemma NullEventIsDropped<K>(w: World<K>, slot: nat, o: K)
    requires Shaped(w) && slot < |w.slots| && Defined(w, slot) && w.slots[slot] == Some(o) && w.now < w.players[o].dieTime
    requires IsDue(w.rings[o], w.now) && Live(w.rings[o])[0].call.None?
    ensures var w' := Play(w, slot);
      && w' == w.(rings := w'.rings) && o in w'.rings && w'.rings == w.rings[o := w'.rings[o]]
      && EventRing.Valid(w'.rings[o]) && Live(w'.rings[o]) == Live(w.rings[o])[1..]
  {
    QuietPass(w.rings[o], w.now, Quiet);
  }

  lemma RunsIsCall<K>(w: World<K>, slot: nat)
    requires Shaped(w) && slot < |w.slots| && Defined(w, slot) && DeedOf(w, slot).Runs?
    ensures var Runs(o, k, job, arg) := DeedOf(w, slot);
      o in w.players && k in w.players && Play(w, slot) == Call(w, k, job, arg).(rings := RunRings(w, o, k, job))
  {
    TurnIsDeed(w, slot);
  }

  lemma TurnConserves<K>(w: World<K>, slot: nat, kind: Kind)
    requires Shaped(w) && Seated(w) && Counted(w) && slot < |w.slots| && Defined(w, slot)
    ensures Total(Play(w, slot), kind)
         == Total(w, kind) - Paid(w, Turn(slot), kind) - Eaten(w, Turn(slot), kind) - Lost(w, Turn(slot), kind)
  {
    TurnIsDeed(w, slot);
    match DeedOf(w, slot)
    case Idle =>
    case Eats(k) => HoldingsUpdate(w, k, Eat(w, k).players[k], kind);
    case Leaves(k) => LeaveConserves(w, k, kind);
    case Runs(_, k, job, arg) => CallConserves(w, k, job, arg, kind);
  }

  /** A lost socket takes the player's food away. */
  lemma KillConserves<K>(w: World<K>, fd: int, kind: Kind)
    requires Sound(w)
    ensures Total(Apply(w, Disconnects(fd)), kind) == Total(w, kind) - Lost(w, Disconnects(fd), kind)
  {
    var o := FindFd(w, fd);
    if o.Some? {
      HoldingsUpdate(w, o.value, Kill(w, fd).1.players[o.value], kind);
    }
  }

  /** A tick, a login, a command that arrives and a shove move no items. */
  lemma OtherConserves<K>(w: World<K>, a: Action<K>, kind: Kind)
    requires Sound(w) && Enabled(w, a) && (a.Tick? || a.LogsIn? || a.Sends? || a.Shoves?)
    ensures Total(Apply(w, a), kind) == Total(w, kind)
  {
    if a.LogsIn? {
      LoginConserves(w, a.k, a.fd, a.team, a.x, a.y, a.dir, kind);
    } else if a.Shoves? {
      HoldingsSame(w.slots, w.players, Shove(w, a.k, a.q).players, kind);
    }
  }

  lemma StepConserves<K>(w: World<K>, a: Action<K>, kind: Kind)
    requires Sound(w) && Enabled(w, a)
    ensures Total(Apply(w, a), kind)
         == Total(w, kind) + Spawned(w, a, kind) - Paid(w, a, kind) - Eaten(w, a, kind) - Lost(w, a, kind)
  {
    if a.Turn? {
      TurnConserves(w, a.slot, kind);
    } else if a.Spawns? {
      SpawnConserves(w.items, w.nextIdx, a.drops, |a.drops|, kind);
    } else if a.Disconnects? {
      KillConserves(w, a.fd, kind);
    } else {
      OtherConserves(w, a, kind);
    }
  }

  // ----- conservation, over runs -----

  datatype Flow = Flow(spawned: int, paid: int, eaten: int, lost: int)

  /** What a run brings in and takes out of one kind of item, added up step by step. */
  ghost function FlowOf<K>(w: World<K>, actions: seq<Action<K>>, kind: Kind): Flow
    requires CanRun(w, actions)
    decreases actions
  {
    if actions == [] then Flow(0, 0, 0, 0)
    else
      var a := actions[0];
      var rest := FlowOf(Apply(w, a), actions[1..], kind);
      Flow(Spawned(w, a, kind) + rest.spawned, Paid(w, a, kind) + rest.paid,
           Eaten(w, a, kind) + rest.eaten, Lost(w, a, kind) + rest.lost)
  }

  /** Over every run: what is there in the end is what was there, plus spawned, minus paid, eaten and lost. */
  lemma {:induction false} RunsConserve<K>(w: World<K>, actions: seq<Action<K>>, kind: Kind)
    requires Sound(w) && CanRun(w, actions)
    ensures var f := FlowOf(w, actions, kind);
      Total(Run(w, actions), kind) == Total(w, kind) + f.spawned - f.paid - f.eaten - f.lost
    decreases actions
  {
    if actions != [] {
      StepConserves(w, actions[0], kind);
      StepSound(w, actions[0]);
      RunsConserve(Apply(w, actions[0]), actions[1..], kind);
    }
  }
}

/**
 The two-phase incantation: the stones are paid at once and the second phase is pushed to the
 front of the player's own buffer, from inside the callback that was popped from it.
 */
module Incantations {
  import opened Wrappers
  import opened EventRing
  import opened World
  import opened Soundness
  import opened Steps
  import opened Ledger

  /** No two connected players share a socket: the precondition of finding a client by its socket. */
  ghost predicate UniqueFds<K>(w: World<K>) {
    forall k <- w.players, q <- w.players :: k != q ==> w.players[k].fd != w.players[q].fd
  }

  ghost predicate OneLoginPerFd<K>(w: World<K>, a: Action<K>) {
    a.LogsIn? ==> forall k <- w.players :: w.players[k].fd != a.fd
  }

  /** The event is the second phase of an incantation. */
  ghost predicate Resolves<K>(e: Event<Callback<K>, Arg>) {
    e.call.Some? && e.call.value.job == ResolveIncantation
  }

  /**
   Every event of a buffer calls back with the buffer's owner; a second phase is only ever at the
   head, and knows the level it was paid at.
   */
  ghost predicate Orderly<K>(r: Ring<Callback<K>, Arg>, owner: K)
    requires EventRing.Valid(r)
  {
    && (forall e <- Live(r) :: e.call.Some? && e.call.value.data == owner)
    && (forall i | 0 < i < r.count :: !Resolves(Live(r)[i]))
    && (r.count > 0 && Resolves(Live(r)[0]) ==> Live(r)[0].arg.Some? && Live(r)[0].arg.value.Level?)
  }

  ghost predicate AllOrderly<K>(w: World<K>)
    requires Shaped(w)
  {
    forall k <- w.rings :: Orderly(w.rings[k], k)
  }

  ghost predicate Ready<K>(w: World<K>) {
    Sound(w) && UniqueFds(w) && AllOrderly(w)
  }

  // ----- every turn is defined -----

  /** In orderly buffers no event calls back with a player that was released. */
  lemma OrderlyIsDefined<K>(w: World<K>, slot: nat)
    requires Shaped(w) && AllOrderly(w) && slot < |w.slots|
    ensures Defined(w, slot)
  {
    if w.slots[slot].Some? {
      var o := w.slots[slot].value;
      if IsDue(w.rings[o], w.now) {
        assert Live(w.rings[o])[0] in Live(w.rings[o]);
      }
    }
  }

  lemma OfferedIsEnabled<K>(w: World<K>, a: Action<K>)
    requires Ready(w) && Offered(w, a)
    ensures Enabled(w, a)
  {
    if a.Turn? {
      OrderlyIsDefined(w, a.slot);
    }
  }

  // ----- finding the client -----

  lemma {:induction false} SlotFound<K>(slots: seq<Option<K>>, players: map<K, Player>, k: K)
    requires Some(k) in slots && k in players
    ensures SlotOfFd(slots, players, players[k].fd) < |slots|
  {
    if !(slots[0].Some? && slots[0].value in players && players[slots[0].value].fd == players[k].fd) {
      SlotFound(slots[1..], players, k);
    }
  }

  /** With one login per socket, looking a player up by its socket finds that player. */
  lemma FindsItself<K>(w: World<K>, k: K)
    requires Seated(w) && UniqueFds(w) && k in w.players
    ensures FindFd(w, w.players[k].fd) == Some(k)
  {
    SlotFound(w.slots, w.players, k);
  }

  // ----- buffers stay orderly -----

  /** The level of the second phase that waits at the head of a buffer, if there is one. */
  ghost function AwaitsLevels<K>(r: Ring<Callback<K>, Arg>): (levels: seq<int>)
    requires EventRing.Valid(r)
    ensures |levels| <= 1
  {
    if r.count > 0 && Resolves(Live(r)[0]) then [LevelOf(Live(r)[0].arg)] else []
  }

  lemma CommandQueuesOrderly<K>(r: Ring<Callback<K>, Arg>, owner: K, now: int, delay: nat, c: Command, arg: Option<Arg>)
    requires EventRing.Valid(r) && Orderly(r, owner)
    ensures var r' := PushBack(r, now, delay, Some(Callback(Do(c), owner)), arg).1;
      && EventRing.Valid(r') && Orderly(r', owner)
      && AwaitsLevels(r') == AwaitsLevels(r)
      && (r.count > 0 ==> r'.count > 0 && Live(r')[0] == Live(r)[0])
  {
    PushBackAppends(r, now, delay, Some(Callback(Do(c), owner)), arg);
  }

  lemma QuietPassOrderly<K>(r: Ring<Callback<K>, Arg>, owner: K, now: int)
    requires EventRing.Valid(r) && Orderly(r, owner) && IsDue(r, now)
    ensures var r' := Process(r, now, Quiet).ring;
      && EventRing.Valid(r') && Orderly(r', owner)
      && AwaitsLevels(r') == []
  {
    QuietPass(r, now, Quiet);
    var r' := Process(r, now, Quiet).ring;
    assert r'.count == |Live(r')|;
    forall i | 0 <= i < r'.count
      ensures !Resolves(Live(r')[i]) && Live(r')[i] in Live(r)
    {
      assert Live(r')[i] == Live(r)[i + 1];
    }
  }

  lemma FrontPassOrderly<K>(r: Ring<Callback<K>, Arg>, owner: K, now: int, delay: nat, level: int)
    requires EventRing.Valid(r) && Orderly(r, owner) && IsDue(r, now)
    ensures var r' := Process(r, now, PushesFront(delay, SecondPhaseOf(owner), Some(Level(level)))).ring;
      && EventRing.Valid(r') && Orderly(r', owner)
      && Live(r') == [Event(now + delay, SecondPhaseOf(owner), Some(Level(level)))] + Live(r)[1..]
      && AwaitsLevels(r') == [level]
  {
    assert Live(r)[0] in Live(r);
    FrontPass(r, now, delay, SecondPhaseOf(owner), Some(Level(level)));
    var r' := Process(r, now, PushesFront(delay, SecondPhaseOf(owner), Some(Level(level)))).ring;
    assert r'.count == |Live(r')|;
    forall i | 0 < i < r'.count
      ensures Live(r')[i] == Live(r)[i]
    {
    }
  }

  // ----- the first phase -----

  ghost function SecondPhase<K>(w: World<K>, k: K): Event<Callback<K>, Arg>
    requires k in w.players
  {
    Event(w.now + w.config.IncantationTime(), SecondPhaseOf(k), Some(Level(w.players[k].level)))
  }

  lemma PaymentRings<K>(w: World<K>, k: K)
    requires Shaped(w) && Seated(w) && UniqueFds(w) && k in w.players
    requires IsDue(w.rings[k], w.now) && Orderly(w.rings[k], k) && CanIncantate(w, k, true)
    ensures var rings := RunRings(w, k, k, Do(Incantation));
      && k in rings && EventRing.Valid(rings[k]) && Orderly(rings[k], k)
      && Live(rings[k]) == [SecondPhase(w, k)] + Live(w.rings[k])[1..]
      && rings == w.rings[k := rings[k]]
  {
    FindsItself(w, k);
    FrontPassOrderly(w.rings[k], k, w.now, w.config.IncantationTime(), w.players[k].level);
  }

  lemma PaymentReply<K>(w: World<K>, k: K)
    requires Shaped(w) && Seated(w) && UniqueFds(w) && k in w.players && CanIncantate(w, k, true)
    ensures StartIncantation(w, k).outbox == w.outbox + [Reply(w.players[k].fd, Do(Incantation), InProgress)]
  {
    FindsItself(w, k);
  }

  /** In orderly buffers the player called back with is the owner. */
  lemma OwnerRuns<K>(w: World<K>, slot: nat)
    requires Shaped(w) && AllOrderly(w) && slot < |w.slots| && DeedOf(w, slot).Runs?
    ensures DeedOf(w, slot).owner == DeedOf(w, slot).k
  {
    var o := DeedOf(w, slot).owner;
    assert Live(w.rings[o])[0] in Live(w.rings[o]);
  }

  /**
   When a player pays, its second phase becomes the head of its own buffer, stamped with the
   incantation time and its level; the push cannot fail, because the slot of the event being
   processed is free. No other buffer changes.
   */
  lemma PaymentQueuesSecondPhase<K>(w: World<K>, slot: nat)
    requires Shaped(w) && Seated(w) && UniqueFds(w) && AllOrderly(w) && slot < |w.slots| && Defined(w, slot) && Pays(w, Turn(slot))
    ensures var k := DeedOf(w, slot).k;
      var rings := Play(w, slot).rings;
      && k in rings && EventRing.Valid(rings[k])
      && Live(rings[k]) == [SecondPhase(w, k)] + Live(w.rings[k])[1..]
      && rings == w.rings[k := rings[k]]
  {
    TurnIsDeed(w, slot);
    OwnerRuns(w, slot);
    PaymentRings(w, DeedOf(w, slot).k);
  }

  lemma PaymentRingsAre<K>(w: World<K>, k: K)
    requires Shaped(w) && k in w.players && CanIncantate(w, k, true) && FindFd(w, w.players[k].fd).Some?
    requires IsDue(w.rings[k], w.now) && Live(w.rings[k])[0].call.Some?
    ensures var c := FindFd(w, w.players[k].fd).value;
      var rings := RunRings(w, k, k, Do(Incantation));
      && c in rings && k in rings && EventRing.Valid(rings[k]) && EventRing.Valid(rings[c])
      && Live(rings[k]) == (if c == k then [SecondPhase(w, k)] else []) + Live(w.rings[k])[1..]
      && (c != k && |Live(w.rings[c])| < MAX_EVENTS ==> Live(rings[c]) == [SecondPhase(w, k)] + Live(w.rings[c]))
  {
    var c := FindFd(w, w.players[k].fd).value;
    if c == k {
      FrontPass(w.rings[k], w.now, w.config.IncantationTime(), SecondPhaseOf(k), Some(Level(w.players[k].level)));
    } else {
      QuietPass(w.rings[k], w.now, Quiet);
      PushFrontPrepends(w.rings[c], w.now, w.config.IncantationTime(), SecondPhaseOf(k), Some(Level(w.players[k].level)));
    }
  }

  /**
   Where the second phase goes: to the payer's own buffer exactly when the first client found with
   its socket is the payer itself. Otherwise it waits in another client's buffer, and calls back
   with the payer all the same.
   */
  lemma PaymentStaysHomeExactlyWhen<K>(w: World<K>, slot: nat)
    requires Shaped(w) && Seated(w) && slot < |w.slots| && Defined(w, slot) && Pays(w, Turn(slot))
    requires DeedOf(w, slot).owner == DeedOf(w, slot).k
    ensures var k := DeedOf(w, slot).k;
      var found := FindFd(w, w.players[k].fd);
      var rings := Play(w, slot).rings;
      && found.Some? && found.value in rings && k in rings && EventRing.Valid(rings[k]) && EventRing.Valid(rings[found.value])
      && (Live(rings[k]) == [SecondPhase(w, k)] + Live(w.rings[k])[1..] <==> found == Some(k))
      && (found != Some(k) && |Live(w.rings[found.value])| < MAX_EVENTS ==>
            Live(rings[found.value]) == [SecondPhase(w, k)] + Live(w.rings[found.value]))
  {
    var k := DeedOf(w, slot).k;
    TurnIsDeed(w, slot);
    SlotFound(w.slots, w.players, k);
    PaymentRingsAre(w, k);
  }

  /** And it is answered "in progress". */
  lemma PaymentIsAnswered<K>(w: World<K>, slot: nat)
    requires Shaped(w) && Seated(w) && UniqueFds(w) && slot < |w.slots| && Defined(w, slot) && Pays(w, Turn(slot))
    ensures Play(w, slot).outbox
         == w.outbox + [Reply(w.players[DeedOf(w, slot).k].fd, Do(Incantation), InProgress)]
  {
    RunsIsCall(w, slot);
    PaymentReply(w, DeedOf(w, slot).k);
  }

  // ----- the requirements, in terms of the board -----

  /** The players standing on a tile that are at a level. */
  ghost function Peers<K>(w: World<K>, t: int, level: int): set<K> {
    set k <- w.players | TileOf(w.width, w.players[k]) == t && w.players[k].level == level
  }

  lemma {:induction false} CountLevelIsCard<K>(row: seq<K>, players: map<K, Player>, level: int)
    requires NoDup(row)
    ensures CountLevel(row, players, level) == |set k <- row | k in players && players[k].level == level|
  {
    var all := set k <- row | k in players && players[k].level == level;
    if row != [] {
      var rest := set k <- row[1..] | k in players && players[k].level == level;
      CountLevelIsCard(row[1..], players, level);
      assert row == [row[0]] + row[1..];
      assert row[0] !in row[1..];
      if row[0] in players && players[row[0]].level == level {
        assert all == rest + {row[0]};
      } else {
        assert all == rest;
      }
    } else {
      assert all == {};
    }
  }

  /**
   An incantation can go on exactly when the player is below the top level, enough players of
   its level stand on its tile and, for the first phase, the tile holds all the stones.
   */
  lemma CanIncantateMeans<K>(w: World<K>, k: K, checkItems: bool)
    requires Shaped(w) && Placed(w) && k in w.players
    ensures var p := w.players[k];
      var t := TileOf(w.width, p);
      && 0 <= t < |w.items|
      && (CanIncantate(w, k, checkItems) <==>
          && p.level < LEVEL_MAX
          && |Peers(w, t, p.level)| >= LevelReqs(p.level).players
          && (checkItems ==> forall kind: Kind :: w.items[t][kind] >= LevelReqs(p.level).stones[kind]))
  {
    var p := w.players[k];
    TileIndexInRange(w.width, w.height, p.x, p.y);
    var t := TileOf(w.width, p);
    assert RowOk(w.rows[t], w.players, w.width, t);
    CountLevelIsCard(w.rows[t], w.players, p.level);
    assert Peers(w, t, p.level) == set q <- w.rows[t] | q in w.players && w.players[q].level == p.level;
    if p.level < LEVEL_MAX {
      assert Covers(w.items[t], LevelReqs(p.level).stones) <==>
        forall kind: Kind :: w.items[t][kind] >= LevelReqs(p.level).stones[kind];
    }
  }

  // ----- the second phase -----

  /**
   A second phase succeeds exactly when the player is still at the level it paid at and still
   has its peers; then exactly the players of that level on the tile rise, by one. Otherwise
   nobody changes.
   */
  lemma ResolutionRaisesExactly<K>(w: World<K>, k: K, level: int)
    requires Shaped(w) && Placed(w) && k in w.players
    ensures var p := w.players[k];
      var w' := FinishIncantation(w, k, level);
      var t := TileOf(w.width, p);
      var succeeds := p.level == level < LEVEL_MAX && |Peers(w, t, level)| >= LevelReqs(level).players;
      && w'.players.Keys == w.players.Keys
      && (forall q <- w.players :: w'.players[q] ==
           if succeeds && q in Peers(w, t, level) then w.players[q].(level := level + 1) else w.players[q])
      && w'.outbox != [] && w'.outbox[|w'.outbox| - 1] ==
           Reply(p.fd, ResolveIncantation, if succeeds then Yes else No)
  {
    var p := w.players[k];
    TileIndexInRange(w.width, w.height, p.x, p.y);
    CanIncantateMeans(w, k, false);
    assert RowOk(w.rows[TileOf(w.width, p)], w.players, w.width, TileOf(w.width, p));
    RaiseRowExact(w.rows[TileOf(w.width, p)], w.players, level);
  }

  lemma CommandKeepsLevel<K>(w: World<K>, q: K, c: Command, arg: Option<Arg>, k: K)
    requires Shaped(w) && q in w.players && k in w.players
    ensures var w' := Call(w, q, Do(c), arg);
      && w'.players.Keys == w.players.Keys
      && w'.players[k].level == w.players[k].level && w'.players[k].fd == w.players[k].fd
  {
    match c
    case Avance => assert Call(w, q, Do(c), arg) == Walk(w, q);
    case Prend => assert Call(w, q, Do(c), arg) == DoTransfer(w, q, c, arg);
    case Pose => assert Call(w, q, Do(c), arg) == DoTransfer(w, q, c, arg);
    case Incantation => assert StartIncantation(w, q).players == w.players;
    case _ =>
  }

  lemma RunsLevels<K>(w: World<K>, q: K, job: Job, arg: Option<Arg>, k: K)
    requires Shaped(w) && Placed(w) && q in w.players && k in w.players
    ensures var w' := Call(w, q, job, arg);
      && w'.players.Keys == w.players.Keys
      && w.players[k].level <= w'.players[k].level <= w.players[k].level + 1
      && (w'.players[k].level > w.players[k].level ==> job == ResolveIncantation)
      && w'.players[k].fd == w.players[k].fd
  {
    match job
    case ResolveIncantation =>
      ResolutionRaisesExactly(w, q, LevelOf(arg));
    case Do(c) =>
      CommandKeepsLevel(w, q, c, arg, k);
  }

  lemma TurnLevels<K>(w: World<K>, slot: nat, k: K)
    requires Shaped(w) && Placed(w) && slot < |w.slots| && Defined(w, slot) && k in w.players && k in Play(w, slot).players
    ensures w.players[k].level <= Play(w, slot).players[k].level <= w.players[k].level + 1
    ensures Play(w, slot).players[k].level > w.players[k].level ==>
      DeedOf(w, slot).Runs? && DeedOf(w, slot).job == ResolveIncantation
  {
    TurnIsDeed(w, slot);
    if DeedOf(w, slot).Runs? {
      RunsLevels(w, DeedOf(w, slot).k, DeedOf(w, slot).job, DeedOf(w, slot).arg, k);
    }
  }

  /** No step lowers the level of a connected player, and only a second phase raises one, by one. */
  lemma LevelsNeverFall<K>(w: World<K>, a: Action<K>, k: K)
    requires Enabled(w, a) && Placed(w) && k in w.players && k in Apply(w, a).players
    ensures w.players[k].level <= Apply(w, a).players[k].level <= w.players[k].level + 1
    ensures Apply(w, a).players[k].level > w.players[k].level ==>
      a.Turn? && DeedOf(w, a.slot).Runs? && DeedOf(w, a.slot).job == ResolveIncantation
  {
    if a.Turn? {
      TurnLevels(w, a.slot, k);
    }
  }

  // ----- every step, one player's buffer -----

  ghost predicate RunsFor<K>(w: World<K>, a: Action<K>, k: K)
    requires Enabled(w, a)
  {
    a.Turn? && DeedOf(w, a.slot).Runs? && DeedOf(w, a.slot).k == k
  }

  ghost predicate Opens<K>(w: World<K>, a: Action<K>, k: K)
    requires Enabled(w, a)
  {
    RunsFor(w, a, k) && Pays(w, a)
  }

  ghost predicate Closes<K>(w: World<K>, a: Action<K>, k: K)
    requires Enabled(w, a)
  {
    RunsFor(w, a, k) && DeedOf(w, a.slot).job == ResolveIncantation
  }

  /** The level a step makes the player pay at, if it does. */
  ghost function PaidAt<K>(w: World<K>, a: Action<K>, k: K): seq<int>
    requires Enabled(w, a) && k in w.players
  {
    if Opens(w, a, k) then [w.players[k].level] else []
  }

  /** The level a step resolves for the player, if it does. */
  ghost function ResolvedAt<K>(w: World<K>, a: Action<K>, k: K): seq<int>
    requires Enabled(w, a)
  {
    if Closes(w, a, k) then [LevelOf(DeedOf(w, a.slot).arg)] else []
  }

  /** A buffer after a step: appended to, processed, or untouched. */
  ghost function RingAfter<K>(w: World<K>, a: Action<K>, k: K): Ring<Callback<K>, Arg>
    requires Enabled(w, a) && k in w.players
  {
    if a.Sends? && FindFd(w, a.fd) == Some(k) && a.command.Some? then
      PushBack(w.rings[k], w.now, w.config.Delay(a.command.value), Some(Callback(Do(a.command.value), k)), a.arg).1
    else if RunsFor(w, a, k) then
      Process(w.rings[k], w.now, Reacts(w, k, k, DeedOf(w, a.slot).job)).ring
    else w.rings[k]
  }

  lemma RunRingsOwn<K>(w: World<K>, q: K, job: Job, k: K)
    requires Shaped(w) && Seated(w) && UniqueFds(w) && q in w.players && k in w.players
    ensures k in RunRings(w, q, q, job)
    ensures RunRings(w, q, q, job)[k] == if k == q then Process(w.rings[q], w.now, Reacts(w, q, q, job)).ring else w.rings[k]
  {
    FindsItself(w, q);
  }

  /** In an orderly buffer every event has a callback, so a turn either runs one or does not touch buffers. */
  lemma IdleKeepsRings<K>(w: World<K>, slot: nat)
    requires Shaped(w) && AllOrderly(w) && slot < |w.slots| && Defined(w, slot) && DeedOf(w, slot).Idle?
    ensures Play(w, slot) == w
  {
    if w.slots[slot].Some? {
      var r := w.rings[w.slots[slot].value];
      if r.count > 0 {
        assert Live(r)[0] in Live(r);
      }
    }
  }

  lemma RunsRing<K>(w: World<K>, slot: nat, k: K)
    requires Shaped(w) && Seated(w) && UniqueFds(w) && AllOrderly(w) && slot < |w.slots| && Defined(w, slot)
    requires DeedOf(w, slot).Runs? && k in w.players
    ensures k in Play(w, slot).rings && Play(w, slot).rings[k] == RingAfter(w, Turn(slot), k)
  {
    RunsIsCall(w, slot);
    OwnerRuns(w, slot);
    RunRingsOwn(w, DeedOf(w, slot).k, DeedOf(w, slot).job, k);
  }

  lemma UnhurtRing<K>(w: World<K>, slot: nat, k: K)
    requires Shaped(w) && slot < |w.slots| && Defined(w, slot) && (DeedOf(w, slot).Eats? || DeedOf(w, slot).Leaves?)
    requires k in w.players && k in Play(w, slot).players
    ensures k in Play(w, slot).rings && Play(w, slot).rings[k] == w.rings[k]
  {
    TurnIsDeed(w, slot);
  }

  lemma TurnRing<K>(w: World<K>, slot: nat, k: K)
    requires Shaped(w) && Seated(w) && UniqueFds(w) && AllOrderly(w) && slot < |w.slots| && Defined(w, slot)
    requires k in w.players && k in Play(w, slot).players
    ensures k in Play(w, slot).rings && Play(w, slot).rings[k] == RingAfter(w, Turn(slot), k)
  {
    if DeedOf(w, slot).Idle? {
      IdleKeepsRings(w, slot);
    } else if DeedOf(w, slot).Runs? {
      RunsRing(w, slot, k);
    } else {
      UnhurtRing(w, slot, k);
    }
  }

  lemma SentRing<K>(w: World<K>, fd: int, command: Option<Command>, arg: Option<Arg>, k: K)
    requires Shaped(w) && k in w.players
    ensures var rings := Execute(w, fd, command, arg).1.rings;
      k in rings && rings[k] == RingAfter(w, Sends(fd, command, arg), k)
  {
  }

  lemma UntouchedRing<K>(w: World<K>, a: Action<K>, k: K)
    requires Enabled(w, a) && !a.Turn? && !a.Sends? && k in w.players
    ensures k in Apply(w, a).rings && Apply(w, a).rings[k] == w.rings[k]
  {
  }

  lemma StepRing<K>(w: World<K>, a: Action<K>, k: K)
    requires Enabled(w, a) && Seated(w) && UniqueFds(w) && AllOrderly(w)
    requires k in w.players && k in Apply(w, a).players
    ensures k in Apply(w, a).rings && Apply(w, a).rings[k] == RingAfter(w, a, k)
  {
    if a.Turn? {
      TurnRing(w, a.slot, k);
    } else if a.Sends? {
      SentRing(w, a.fd, a.command, a.arg, k);
    } else {
      UntouchedRing(w, a, k);
    }
  }

  lemma RunOrderly<K>(w: World<K>, slot: nat, k: K)
    requires Enabled(w, Turn(slot)) && Seated(w) && UniqueFds(w) && AllOrderly(w) && k in w.players
    requires RunsFor(w, Turn(slot), k)
    ensures var r' := RingAfter(w, Turn(slot), k);
      && EventRing.Valid(r') && Orderly(r', k)
      && AwaitsLevels(w.rings[k]) == ResolvedAt(w, Turn(slot), k)
      && AwaitsLevels(r') == PaidAt(w, Turn(slot), k)
  {
    var r := w.rings[k];
    TurnIsDeed(w, slot);
    OwnerRuns(w, slot);
    FindsItself(w, k);
    if Pays(w, Turn(slot)) {
      FrontPassOrderly(r, k, w.now, w.config.IncantationTime(), w.players[k].level);
    } else {
      QuietPassOrderly(r, k, w.now);
    }
  }

  /** The buffer stays orderly, and the level pending at its head changes only by paying and by resolving. */
  lemma RingAfterOrderly<K>(w: World<K>, a: Action<K>, k: K)
    requires Enabled(w, a) && Seated(w) && UniqueFds(w) && AllOrderly(w) && k in w.players
    ensures var r, r' := w.rings[k], RingAfter(w, a, k);
      && EventRing.Valid(r') && Orderly(r', k)
      && AwaitsLevels(r) + PaidAt(w, a, k) == ResolvedAt(w, a, k) + AwaitsLevels(r')
      && (AwaitsLevels(r) != [] && !Closes(w, a, k) ==>
            !RunsFor(w, a, k) && AwaitsLevels(r') != [] && Live(r')[0] == Live(r)[0])
  {
    if a.Sends? && FindFd(w, a.fd) == Some(k) && a.command.Some? {
      CommandQueuesOrderly(w.rings[k], k, w.now, w.config.Delay(a.command.value), a.command.value, a.arg);
    } else if RunsFor(w, a, k) {
      RunOrderly(w, a.slot, k);
    }
  }

  /**
   While a second phase is pending, no step runs any other command of that player, and the same
   event stays at the head of its buffer, until it is the one that runs.
   */
  lemma PendingPhaseRunsNext<K>(w: World<K>, a: Action<K>, k: K)
    requires Ready(w) && Enabled(w, a) && k in w.players && k in Apply(w, a).players
    requires AwaitsLevels(w.rings[k]) != [] && !Closes(w, a, k)
    ensures !RunsFor(w, a, k)
    ensures k in Apply(w, a).rings && EventRing.Valid(Apply(w, a).rings[k])
    ensures AwaitsLevels(Apply(w, a).rings[k]) == AwaitsLevels(w.rings[k]) && Live(Apply(w, a).rings[k])[0] == Live(w.rings[k])[0]
  {
    StepRing(w, a, k);
    RingAfterOrderly(w, a, k);
  }

  // ----- the invariant over runs -----

  lemma TurnKeepsFds<K>(w: World<K>, slot: nat, k: K)
    requires Shaped(w) && Placed(w) && slot < |w.slots| && Defined(w, slot) && k in w.players && k in Play(w, slot).players
    ensures Play(w, slot).players[k].fd == w.players[k].fd
  {
    TurnIsDeed(w, slot);
    if DeedOf(w, slot).Runs? {
      RunsLevels(w, DeedOf(w, slot).k, DeedOf(w, slot).job, DeedOf(w, slot).arg, k);
    }
  }

  /** Sockets do not change hands. */
  lemma StepKeepsFds<K>(w: World<K>, a: Action<K>, k: K)
    requires Enabled(w, a) && Placed(w) && k in w.players && k in Apply(w, a).players
    ensures Apply(w, a).players[k].fd == w.players[k].fd
  {
    if a.Turn? {
      TurnKeepsFds(w, a.slot, k);
    }
  }

  /** Only a login adds a player. */
  lemma NewcomersLogIn<K>(w: World<K>, a: Action<K>, k: K)
    requires Enabled(w, a) && Placed(w) && k !in w.players && k in Apply(w, a).players
    ensures a.LogsIn? && a.k == k
    ensures Apply(w, a).players[k].fd == a.fd && Apply(w, a).players[k].level == 1
    ensures k in Apply(w, a).rings && Apply(w, a).rings[k] == Empty()
  {
    if a.Turn? {
      TurnIsDeed(w, a.slot);
      if DeedOf(w, a.slot).Runs? {
        var q := DeedOf(w, a.slot).k;
        RunsLevels(w, q, DeedOf(w, a.slot).job, DeedOf(w, a.slot).arg, q);
      }
    }
  }

  lemma StepKeepsUniqueFds<K>(w: World<K>, a: Action<K>)
    requires Enabled(w, a) && Placed(w) && UniqueFds(w) && OneLoginPerFd(w, a)
    ensures UniqueFds(Apply(w, a))
  {
    var w' := Apply(w, a);
    forall k <- w'.players, q <- w'.players | k != q
      ensures w'.players[k].fd != w'.players[q].fd
    {
      if k in w.players { StepKeepsFds(w, a, k); } else { NewcomersLogIn(w, a, k); }
      if q in w.players { StepKeepsFds(w, a, q); } else { NewcomersLogIn(w, a, q); }
    }
  }

  lemma StepKeepsReady<K>(w: World<K>, a: Action<K>)
    requires Ready(w) && Enabled(w, a) && OneLoginPerFd(w, a)
    ensures Ready(Apply(w, a))
  {
    StepSound(w, a);
    StepKeepsUniqueFds(w, a);
    forall k <- Apply(w, a).rings
      ensures Orderly(Apply(w, a).rings[k], k)
    {
      if k in w.players {
        StepRing(w, a, k);
        RingAfterOrderly(w, a, k);
      } else {
        NewcomersLogIn(w, a, k);
      }
    }
  }

  ghost predicate OneLoginEach<K>(w: World<K>, actions: seq<Action<K>>)
    requires CanRun(w, actions)
    decreases actions
  {
    actions == [] || (OneLoginPerFd(w, actions[0]) && OneLoginEach(Apply(w, actions[0]), actions[1..]))
  }

  ghost predicate StaysOn<K>(w: World<K>, actions: seq<Action<K>>, k: K)
    requires CanRun(w, actions)
    decreases actions
  {
    k in w.players && (actions != [] ==> StaysOn(Apply(w, actions[0]), actions[1..], k))
  }

  /** The levels the player paid at in a run, in order. */
  ghost function Opened<K>(w: World<K>, actions: seq<Action<K>>, k: K): seq<int>
    requires CanRun(w, actions) && StaysOn(w, actions, k)
    decreases actions
  {
    if actions == [] then [] else PaidAt(w, actions[0], k) + Opened(Apply(w, actions[0]), actions[1..], k)
  }

  /** The levels of the second phases of the player that ran, in order. */
  ghost function Closed<K>(w: World<K>, actions: seq<Action<K>>, k: K): seq<int>
    requires CanRun(w, actions)
    decreases actions
  {
    if actions == [] then [] else ResolvedAt(w, actions[0], k) + Closed(Apply(w, actions[0]), actions[1..], k)
  }

  lemma ChainLevels(a0: seq<int>, o: seq<int>, c: seq<int>, a1: seq<int>, os: seq<int>, cs: seq<int>, a2: seq<int>)
    requires a0 + o == c + a1 && a1 + os == cs + a2
    ensures a0 + (o + os) == (c + cs) + a2
  {
    assert a0 + (o + os) == (a0 + o) + os;
    assert (c + a1) + os == c + (a1 + os);
    assert c + (cs + a2) == (c + cs) + a2;
  }

  /**
   Over every run with one login per socket, the levels paid at and the levels resolved are the
   same, in the same order, but for at most one that is still pending at the end.
   */
  lemma {:induction false} EveryStartResolvesOnce<K>(w: World<K>, actions: seq<Action<K>>, k: K)
    requires Ready(w) && CanRun(w, actions) && OneLoginEach(w, actions) && StaysOn(w, actions, k)
    ensures Ready(Run(w, actions)) && k in Run(w, actions).players
    ensures AwaitsLevels(w.rings[k]) + Opened(w, actions, k)
         == Closed(w, actions, k) + AwaitsLevels(Run(w, actions).rings[k])
    decreases actions
  {
    if actions != [] {
      var w1 := Apply(w, actions[0]);
      assert k in w1.players;
      StepKeepsReady(w, actions[0]);
      StepRing(w, actions[0], k);
      RingAfterOrderly(w, actions[0], k);
      EveryStartResolvesOnce(w1, actions[1..], k);
      ChainLevels(AwaitsLevels(w.rings[k]), PaidAt(w, actions[0], k), ResolvedAt(w, actions[0], k),
                  AwaitsLevels(w1.rings[k]), Opened(w1, actions[1..], k), Closed(w1, actions[1..], k),
                  AwaitsLevels(Run(w, actions).rings[k]));
    }
  }

  // ----- from the start -----

  /** What the environment offers, one login per socket; the server's own turns need not be known to be defined. */
  ghost predicate OfferedEach<K>(w: World<K>, actions: seq<Action<K>>)
    decreases actions
  {
    actions == []
    || (Offered(w, actions[0]) && OneLoginPerFd(w, actions[0])
        && (Enabled(w, actions[0]) ==> OfferedEach(Apply(w, actions[0]), actions[1..])))
  }

  /** With one login per socket every turn of every run is defined, and the server stays ready. */
  lemma {:induction false} EveryRunReady<K>(w: World<K>, actions: seq<Action<K>>)
    requires Ready(w) && OfferedEach(w, actions)
    ensures CanRun(w, actions) && OneLoginEach(w, actions) && Ready(Run(w, actions))
    decreases actions
  {
    if actions != [] {
      OfferedIsEnabled(w, actions[0]);
      StepKeepsReady(w, actions[0]);
      EveryRunReady(Apply(w, actions[0]), actions[1..]);
    }
  }

  /** A server without players is ready. */
  lemma InitialReady<K>(w: World<K>)
    requires Initial(w)
    ensures Ready(w)
  {
    InitialSound(w);
  }

  /** From game_init on: the server is sound after every run, and no turn of it is undefined. */
  lemma EveryRunFromInit<K>(w: World<K>, actions: seq<Action<K>>)
    requires Initial(w) && OfferedEach(w, actions)
    ensures CanRun(w, actions) && Ready(Run(w, actions))
  {
    InitialReady(w);
    EveryRunReady(w, actions);
  }

  /**
   From game_init on, for a player that logs in at some time and stays on: it resolves exactly the
   levels it paid at, in order, but for at most the last one, which is pending at the head.
   */
  lemma EveryStartResolvesOnceFromInit<K>(w: World<K>, before: seq<Action<K>>, login: Action<K>, after: seq<Action<K>>)
    requires Initial(w) && OfferedEach(w, before) && login.LogsIn?
    requires CanRun(w, before) && OfferedEach(Run(w, before), [login] + after)
    requires Enabled(Run(w, before), login)
    requires var w1 := Apply(Run(w, before), login); CanRun(w1, after) && StaysOn(w1, after, login.k)
    ensures var w1 := Apply(Run(w, before), login);
      && Ready(Run(w1, after)) && login.k in Run(w1, after).players
      && Opened(w1, after, login.k) == Closed(w1, after, login.k) + AwaitsLevels(Run(w1, after).rings[login.k])
  {
    EveryRunFromInit(w, before);
    var w0 := Run(w, before);
    var w1 := Apply(w0, login);
    assert ([login] + after)[1..] == after;
    StepKeepsReady(w0, login);
    EveryRunReady(w1, after);
    EveryStartResolvesOnce(w1, after, login.k);
    NewcomersLogIn(w0, login, login.k);
    assert [] + Opened(w1, after, login.k) == Opened(w1, after, login.k);
  }

  // ----- a pass of the play loop -----

  /** One pass of game_play over the first `n` slots; a ready server takes every turn. */
  ghost function PlayUpTo<K>(w: World<K>, n: nat): World<K> {
    if n == 0 then w
    else
      var before := PlayUpTo(w, n - 1);
      if Shaped(before) && n - 1 < |before.slots| && Defined(before, n - 1) then Play(before, n - 1) else before
  }

  lemma TurnKeepsReady<K>(w: World<K>, slot: nat)
    requires Ready(w) && slot < |w.slots|
    ensures Defined(w, slot) && Ready(Play(w, slot)) && |Play(w, slot).slots| == |w.slots|
  {
    OrderlyIsDefined(w, slot);
    StepKeepsReady(w, Turn(slot));
    TurnKeepsTableSize(w, slot);
  }

  lemma PassNext<K>(w: World<K>, n: nat)
    requires var before := PlayUpTo(w, n); Shaped(before) && n < |before.slots| && Defined(before, n)
    ensures PlayUpTo(w, n + 1) == Play(PlayUpTo(w, n), n)
  {
  }

  lemma {:induction false} PassInduction<K>(w: World<K>, n: nat, P: World<K> -> bool)
    requires P(w) && forall i: nat | i < n && P(PlayUpTo(w, i)) :: P(PlayUpTo(w, i + 1))
    ensures P(PlayUpTo(w, n))
    decreases n
  {
    if n > 0 {
      PassInduction(w, n - 1, P);
      assert P(PlayUpTo(w, n - 1 + 1));
    }
  }

  lemma NextReady<K>(before: World<K>, w: World<K>, n: nat)
    requires before == PlayUpTo(w, n) && Ready(before) && n < |before.slots|
    ensures Ready(PlayUpTo(w, n + 1)) && |PlayUpTo(w, n + 1).slots| == |before.slots|
  {
    TurnKeepsReady(before, n);
    PassNext(w, n);
  }

  lemma PassReady<K>(w: World<K>, n: nat)
    requires Ready(w) && n <= |w.slots|
    ensures Ready(PlayUpTo(w, n)) && |PlayUpTo(w, n).slots| == |w.slots|
  {
    var size := |w.slots|;
    var P := (x: World<K>) => Ready(x) && |x.slots| == size;
    forall i: nat | i < n && P(PlayUpTo(w, i))
      ensures P(PlayUpTo(w, i + 1))
    {
      NextReady(PlayUpTo(w, i), w, i);
    }
    PassInduction(w, n, P);
  }
}

/**
 What two logins on one socket lead to: a second phase that waits in another client's buffer and
 calls back with a player that is gone. Every state of the run is written out.
 */
module SharedSocket {
  import opened Wrappers
  import opened Torus
  import opened EventRing
  import opened World
  import opened Steps
  import opened Incantations

  type State = World<nat>

  // ----- runs of the server's loop -----

  /** Something from outside, or a pass of game_play over the whole client table with one clock. */
  datatype Happening = Outside(a: Action<nat>) | WholePass

  /** Every turn of the pass is defined. */
  ghost predicate PassDefined(w: State) {
    forall i: nat {:trigger PlayUpTo(w, i)} | i < |w.slots| ::
      Shaped(PlayUpTo(w, i)) && |PlayUpTo(w, i).slots| == |w.slots| && Defined(PlayUpTo(w, i), i)
  }

  ghost predicate CanHappen(w: State, h: Happening) {
    match h
    case Outside(a) => !a.Turn? && Enabled(w, a)
    case WholePass => PassDefined(w)
  }

  ghost function Happens(w: State, h: Happening): State
    requires CanHappen(w, h)
  {
    match h
    case Outside(a) => Apply(w, a)
    case WholePass => PlayUpTo(w, |w.slots|)
  }

  ghost predicate CanGo(w: State, hs: seq<Happening>)
    decreases |hs|
  {
    hs == [] || (CanHappen(w, hs[0]) && CanGo(Happens(w, hs[0]), hs[1..]))
  }

  ghost function Go(w: State, hs: seq<Happening>): State
    requires CanGo(w, hs)
    decreases |hs|
  {
    if hs == [] then w else Go(Happens(w, hs[0]), hs[1..])
  }

  /** A pass over three slots, turn by turn. */
  lemma ThreeTurns(w: State, w1: State, w2: State, w3: State)
    requires |w.slots| == |w1.slots| == |w2.slots| == 3
    requires Enabled(w, Turn(0)) && Apply(w, Turn(0)) == w1
    requires Enabled(w1, Turn(1)) && Apply(w1, Turn(1)) == w2
    requires Enabled(w2, Turn(2)) && Apply(w2, Turn(2)) == w3
    ensures CanHappen(w, WholePass) && Happens(w, WholePass) == w3
  {
    PassNext(w, 0);
    PassNext(w, 1);
    PassNext(w, 2);
    forall i: nat | i < 3
      ensures Shaped(PlayUpTo(w, i)) && |PlayUpTo(w, i).slots| == 3 && Defined(PlayUpTo(w, i), i)
    {
      if i == 0 {
      } else if i == 1 {
      } else {
        assert i == 2;
      }
    }
  }

  lemma IdleTurn<K>(w: World<K>, i: nat)
    requires Shaped(w) && i < |w.slots|
    requires w.slots[i].Some? ==> w.now < w.players[w.slots[i].value].dieTime && !IsDue(w.rings[w.slots[i].value], w.now)
    ensures Enabled(w, Turn(i)) && Apply(w, Turn(i)) == w
  {
  }

  lemma DyingTurn<K>(w: World<K>, i: nat, o: K)
    requires Shaped(w) && i < |w.slots| && w.slots[i] == Some(o)
    requires w.players[o].dieTime <= w.now && w.players[o].inv[FOOD] <= 0
    ensures Enabled(w, Turn(i)) && Apply(w, Turn(i)) == Leave(w, o).1
  {
  }

  lemma DueTurn<K>(w: World<K>, i: nat, o: K, ev: Event<Callback<K>, Arg>)
    requires Shaped(w) && i < |w.slots| && w.slots[i] == Some(o) && w.now < w.players[o].dieTime
    requires IsDue(w.rings[o], w.now) && w.rings[o].slots[w.rings[o].head] == ev
    requires ev.call.Some? && ev.call.value.data in w.players
    ensures Enabled(w, Turn(i))
    ensures Apply(w, Turn(i)) == Call(w, ev.call.value.data, ev.call.value.job, ev.arg)
                                   .(rings := RunRings(w, o, ev.call.value.data, ev.call.value.job))
  {
  }

  // ----- at time 0: two logins, two commands, a lost socket, a pass -----

  /** One tile with the stones for level 1, one team with room for three; a step takes 7, a second phase 5. */
  ghost function Start(): State {
    World(Config(1, 10, map[Avance := 7, Incantation := 5]), 1, 1, 0, [STONES], [[]], map[], [None, None, None], [0], 3, map[], 0, [])
  }

  const STONES: Inventory := [0, 1, 1, 1, 0, 0, 0]

  ghost function Newcomer(fd: int, now: int): Player {
    Player(fd, 0, 1, 0, 0, North, NOTHING, now + 10, now)
  }

  ghost function OneIn(): State {
    Start().(rows := [[0]], players := map[0 := Newcomer(7, 0)], slots := [Some(0), None, None],
             counts := [1], rings := map[0 := Empty()])
  }

  /** A login on the only tile, of the only team, into slot `i`. */
  lemma LoggingIn(w: State, k: nat, fd: int, i: nat)
    requires Shaped(w) && w.width == w.height == 1 && |w.counts| == 1 && w.counts[0] < w.cap && k !in w.players
    requires FirstSlot(w.slots, None) == i < |w.slots|
    ensures |w.rows| == 1 && Enabled(w, LogsIn(k, fd, 0, 0, 0, North))
    ensures Apply(w, LogsIn(k, fd, 0, 0, 0, North)) == w.(
      rows := w.rows[0 := [k] + w.rows[0]],
      players := w.players[k := Player(fd, 0, 1, 0, 0, North, NOTHING, w.now + w.config.TimeToDie(), w.now)],
      counts := w.counts[0 := w.counts[0] + 1], slots := w.slots[i := Some(k)], rings := w.rings[k := Empty()])
  {
  }

  lemma StartShaped()
    ensures Shaped(Start())
  {
  }

  lemma OneInShaped()
    ensures Shaped(OneIn())
  {
  }

  lemma FirstLogin()
    ensures Enabled(Start(), LogsIn(0, 7, 0, 0, 0, North)) && Apply(Start(), LogsIn(0, 7, 0, 0, 0, North)) == OneIn()
  {
    var w := Start();
    StartShaped();
    LoggingIn(w, 0, 7, 0);
    assert w.slots[0 := Some(0)] == [Some(0), None, None];
    assert [0] + w.rows[0] == [0];
    assert w.rows[0 := [0] + w.rows[0]] == [[0]];
    assert w.counts[0 := 1] == [1];
  }

  ghost function TwoIn(): State {
    Start().(rows := [[1, 0]], players := map[0 := Newcomer(7, 0), 1 := Newcomer(5, 0)],
             slots := [Some(0), Some(1), None], counts := [2], rings := map[0 := Empty(), 1 := Empty()])
  }

  lemma SecondLogin()
    ensures Enabled(OneIn(), LogsIn(1, 5, 0, 0, 0, North))
    ensures Apply(OneIn(), LogsIn(1, 5, 0, 0, 0, North)) == TwoIn()
  {
    var w := OneIn();
    OneInShaped();
    assert w.slots[1..][0] == None;
    LoggingIn(w, 1, 5, 1);
    assert w.slots[1 := Some(1)] == [Some(0), Some(1), None];
    assert [1] + w.rows[0] == [1, 0];
    assert w.rows[0 := [1] + w.rows[0]] == [[1, 0]];
    assert w.counts[0 := 2] == [2];
  }

  const STEP_EVENT: Event<Callback<nat>, Arg> := Event(7, Some(Callback(Do(Avance), 1)), None)

  /** Queued behind the step, the incantation is stamped from the free slot: it will be due at once. */
  const START_EVENT: Event<Callback<nat>, Arg> := Event(0, Some(Callback(Do(Incantation), 1)), None)

  ghost function OneQueued(): Ring<Callback<nat>, Arg> {
    Ring(Empty<Callback<nat>, Arg>().slots[0 := STEP_EVENT], 0, 1, 1)
  }

  ghost function TwoQueued(): Ring<Callback<nat>, Arg> {
    Ring(Empty<Callback<nat>, Arg>().slots[0 := STEP_EVENT][1 := START_EVENT], 0, 2, 2)
  }

  ghost function StepSent(): State {
    TwoIn().(rings := map[0 := Empty(), 1 := OneQueued()])
  }

  ghost function Sent(): State {
    TwoIn().(rings := map[0 := Empty(), 1 := TwoQueued()])
  }

  lemma Queueing<K>(w: World<K>, fd: int, k: K, c: Command)
    requires Shaped(w) && FindFd(w, fd) == Some(k) && k in w.players
    ensures Enabled(w, Sends(fd, Some(c), None))
    ensures Apply(w, Sends(fd, Some(c), None))
         == w.(rings := w.rings[k := PushBack(w.rings[k], w.now, w.config.Delay(c), Some(Callback(Do(c), k)), None).1])
  {
  }

  lemma TwoInShaped()
    ensures Shaped(TwoIn())
  {
  }

  lemma StepSentShaped()
    ensures Shaped(StepSent())
  {
  }

  lemma SendingStep()
    ensures Enabled(TwoIn(), Sends(5, Some(Avance), None))
    ensures Apply(TwoIn(), Sends(5, Some(Avance), None)) == StepSent()
  {
    var w := TwoIn();
    TwoInShaped();
    assert w.slots[1..][0] == Some(1);
    assert SlotOfFd(w.slots, w.players, 5) == 1;
    Queueing(w, 5, 1, Avance);
    assert w.rings[1 := OneQueued()] == StepSent().rings;
  }

  lemma SendingStart()
    ensures Enabled(StepSent(), Sends(5, Some(Incantation), None))
    ensures Apply(StepSent(), Sends(5, Some(Incantation), None)) == Sent()
  {
    var w := StepSent();
    StepSentShaped();
    assert w.slots[1..][0] == Some(1);
    assert SlotOfFd(w.slots, w.players, 5) == 1;
    Queueing(w, 5, 1, Incantation);
    assert w.rings[1 := TwoQueued()] == Sent().rings;
  }

  /** Players 0 and 1 are in, player 1 has sent its commands, and the socket of player 0 is gone. */
  ghost function Waiting(): State {
    Sent().(players := map[0 := Newcomer(7, 0).(dieTime := 0), 1 := Newcomer(5, 0)])
  }

  lemma SentShaped()
    ensures Shaped(Sent())
  {
  }

  lemma Killing<K>(w: World<K>, fd: int, k: K)
    requires Shaped(w) && FindFd(w, fd) == Some(k) && k in w.players
    ensures Enabled(w, Disconnects(fd))
    ensures var p := w.players[k];
      Apply(w, Disconnects(fd)) == w.(players := w.players[k := p.(dieTime := 0, inv := p.inv[FOOD := 0])])
  {
  }

  lemma Losing()
    ensures Enabled(Sent(), Disconnects(7)) && Apply(Sent(), Disconnects(7)) == Waiting()
  {
    var w := Sent();
    SentShaped();
    assert SlotOfFd(w.slots, w.players, 7) == 0;
    Killing(w, 7, 0);
    assert NOTHING[FOOD := 0] == NOTHING;
    assert w.players[0 := Newcomer(7, 0).(dieTime := 0)] == Waiting().players;
  }

  ghost function Left(): State {
    Start().(rows := [[1]], players := map[1 := Newcomer(5, 0)], slots := [None, Some(1), None], counts := [1],
             rings := map[1 := TwoQueued()], outbox := [DeathNotice(7)])
  }

  lemma WaitingShaped()
    ensures Shaped(Waiting())
  {
  }

  lemma OutOfRow(a: nat, b: nat)
    requires a != b
    ensures [Without([a, b], a)] == [[a, b]][0 := Without([a, b], a)] && Without([a, b], a) == [b]
    ensures [Without([a, b], b)] == [[a, b]][0 := Without([a, b], b)] && Without([a, b], b) == [a]
  {
    assert [a, b][1..] == [b];
  }

  lemma FirstOutRows()
    ensures Shaped(Waiting()) && Lift(Waiting(), 0).rows == [[1]]
  {
    WaitingShaped();
    OutOfRow(1, 0);
  }

  lemma OutOfMap<T>(i: nat, j: nat, a: T, b: T)
    requires i != j
    ensures map[i := a, j := b] - {i} == map[j := b]
  {
  }

  lemma FirstOut()
    ensures Shaped(Waiting()) && 0 in Waiting().players && Leave(Waiting(), 0).1 == Left()
  {
    var w := Waiting();
    FirstOutRows();
    OutOfMap(0, 1, Newcomer(7, 0).(dieTime := 0), Newcomer(5, 0));
    OutOfMap(0, 1, Empty<Callback<nat>, Arg>(), TwoQueued());
    assert FirstSlot(w.slots, Some(0)) == 0;
    assert w.slots[0 := None] == Left().slots && w.counts[0 := 1] == [1];
  }

  lemma FirstLeaves()
    ensures Enabled(Waiting(), Turn(0)) && Apply(Waiting(), Turn(0)) == Left()
  {
    FirstOut();
    DyingTurn(Waiting(), 0, 0);
  }

  lemma LeftShaped()
    ensures Shaped(Left())
  {
  }

  /** Player 0 leaves; the step of player 1 is not due. */
  lemma FirstPass()
    ensures CanHappen(Waiting(), WholePass) && Happens(Waiting(), WholePass) == Left()
  {
    FirstLeaves();
    LeftShaped();
    IdleTurn(Left(), 1);
    IdleTurn(Left(), 2);
    ThreeTurns(Waiting(), Left(), Left(), Left());
  }

  // ----- at time 5: a second login on the socket -----

  ghost function Later(): State {
    Left().(now := 5)
  }

  /** Player 2 has logged in on the socket of player 1, in the slot before it. */
  ghost function Shared(): State {
    Start().(now := 5, rows := [[2, 1]], players := map[1 := Newcomer(5, 0), 2 := Newcomer(5, 5)],
             slots := [Some(2), Some(1), None], counts := [2],
             rings := map[1 := TwoQueued(), 2 := Empty()], outbox := [DeathNotice(7)])
  }

  lemma LaterShaped()
    ensures Shaped(Later())
  {
  }

  lemma Returning()
    ensures Enabled(Later(), LogsIn(2, 5, 0, 0, 0, North))
    ensures Apply(Later(), LogsIn(2, 5, 0, 0, 0, North)) == Shared()
  {
    var w := Later();
    LaterShaped();
    LoggingIn(w, 2, 5, 0);
    assert w.slots[0 := Some(2)] == [Some(2), Some(1), None];
    assert [2] + w.rows[0] == [2, 1];
    assert w.rows[0 := [2] + w.rows[0]] == [[2, 1]];
    assert w.counts[0 := 2] == [2];
  }

  // ----- at time 7: a pass with the step, a pass with the incantation -----

  ghost function Seven(): State {
    Shared().(now := 7)
  }

  /** The buffer of player 1 after its step. */
  ghost function Stepped(): Ring<Callback<nat>, Arg> {
    Ring(Empty<Callback<nat>, Arg>().slots[0 := STEP_EVENT][1 := START_EVENT], 1, 2, 1)
  }

  /** On a map of one tile the step leads back, to the head of the list. */
  ghost function Walked(): State {
    Seven().(rows := [[1, 2]], rings := map[1 := Stepped(), 2 := Empty()],
             outbox := [DeathNotice(7), Reply(5, Do(Avance), Yes)])
  }

  lemma SevenShaped()
    ensures Shaped(Seven())
  {
  }

  lemma StepCall()
    ensures Shaped(Seven()) && 1 in Seven().players
    ensures Call(Seven(), 1, Do(Avance), None) == Walked().(rings := Seven().rings)
  {
    var w := Seven();
    SevenShaped();
    OutOfRow(2, 1);
    assert StepAhead(w, 1) == (0, 0);
    assert Lift(w, 1).rows == [[2]];
    assert [1] + [2] == [1, 2];
    assert [[2]][0 := [1, 2]] == [[1, 2]];
    assert w.players[1 := w.players[1].(x := 0, y := 0)] == w.players;
  }

  lemma StepRings()
    ensures Shaped(Seven()) && 1 in Seven().players && RunRings(Seven(), 1, 1, Do(Avance)) == Walked().rings
  {
    var w := Seven();
    SevenShaped();
    assert Process(w.rings[1], 7, Quiet).ring == Stepped();
    assert w.rings[1 := Stepped()] == Walked().rings;
  }

  lemma WalkedShaped()
    ensures Shaped(Walked())
  {
  }

  lemma StepPass()
    ensures CanHappen(Seven(), WholePass) && Happens(Seven(), WholePass) == Walked()
  {
    SevenShaped();
    IdleTurn(Seven(), 0);
    StepCall();
    StepRings();
    DueTurn(Seven(), 1, 1, STEP_EVENT);
    WalkedShaped();
    IdleTurn(Walked(), 2);
    ThreeTurns(Seven(), Seven(), Walked(), Walked());
  }

  const SECOND_PHASE: Event<Callback<nat>, Arg> := Event(12, Some(Callback(ResolveIncantation, 1)), Some(Level(1)))

  /** The buffer of player 1 after its incantation was processed. */
  ghost function Spent(): Ring<Callback<nat>, Arg> {
    Ring(Empty<Callback<nat>, Arg>().slots[0 := STEP_EVENT][1 := START_EVENT], 2, 2, 0)
  }

  /** The buffer of player 2 with the second phase pushed to its front. */
  ghost function Stray(): Ring<Callback<nat>, Arg> {
    Ring(Empty<Callback<nat>, Arg>().slots[9 := SECOND_PHASE], 9, 0, 1)
  }

  ghost function Paid(): State {
    Walked().(items := [NOTHING], rings := map[1 := Spent(), 2 := Stray()],
              outbox := Walked().outbox + [Reply(5, Do(Incantation), InProgress)])
  }

  lemma Enough()
    ensures Shaped(Walked()) && CanIncantate(Walked(), 1, true)
  {
    var w := Walked();
    WalkedShaped();
    assert w.rows[0][1..] == [2] && w.rows[0][1..][1..] == [];
    assert CountLevel(w.rows[0], w.players, 1) == 2;
  }

  /** The event pays with player 1, and the lookup by its socket finds player 2's buffer. */
  lemma PayingRings()
    ensures Shaped(Walked()) && 1 in Walked().players && RunRings(Walked(), 1, 1, Do(Incantation)) == Paid().rings
  {
    var w := Walked();
    Enough();
    assert SlotOfFd(w.slots, w.players, 5) == 0;
    assert Process(w.rings[1], 7, Quiet).ring == Spent();
    assert PushFront(w.rings[2], 7, 5, SecondPhaseOf(1), Some(Level(1))).1 == Stray();
    assert w.rings[1 := Spent()][2 := Stray()] == Paid().rings;
  }

  lemma PayingCall()
    ensures Shaped(Walked()) && 1 in Walked().players
    ensures Call(Walked(), 1, Do(Incantation), None) == Paid().(rings := Walked().rings)
  {
    var w := Walked();
    Enough();
    assert SlotOfFd(w.slots, w.players, 5) == 0;
    assert Minus(STONES, LevelReqs(1).stones) == NOTHING;
    assert w.items[0 := NOTHING] == [NOTHING];
  }

  lemma PaidShaped(now: int)
    ensures Shaped(Paid().(now := now))
  {
  }

  lemma PayingPass()
    ensures CanHappen(Walked(), WholePass) && Happens(Walked(), WholePass) == Paid()
  {
    WalkedShaped();
    IdleTurn(Walked(), 0);
    PayingCall();
    PayingRings();
    DueTurn(Walked(), 1, 1, START_EVENT);
    PaidShaped(7);
    IdleTurn(Paid(), 2);
    ThreeTurns(Walked(), Walked(), Paid(), Paid());
  }

  // ----- at time 10: the payer starves -----

  ghost function Ten(): State {
    Paid().(now := 10)
  }

  ghost function Gone(): State {
    Ten().(rows := [[2]], players := map[2 := Newcomer(5, 5)], slots := [Some(2), None, None], counts := [1],
           rings := map[2 := Stray()], outbox := Paid().outbox + [DeathNotice(5)])
  }

  lemma PayerOutRows()
    ensures Shaped(Ten()) && 1 in Ten().players && Lift(Ten(), 1).rows == [[2]]
  {
    PaidShaped(10);
    OutOfRow(1, 2);
  }

  lemma PayerOut()
    ensures Shaped(Ten()) && 1 in Ten().players && Leave(Ten(), 1).1 == Gone()
  {
    var w := Ten();
    PayerOutRows();
    assert w.slots[1..][0] == Some(1);
    assert FirstSlot(w.slots, Some(1)) == 1;
    assert w.slots[1 := None] == Gone().slots && w.counts[0 := 1] == [1];
    OutOfMap(1, 2, Newcomer(5, 0), Newcomer(5, 5));
    OutOfMap(1, 2, Spent(), Stray());
  }

  lemma GoneShaped(now: int)
    ensures Shaped(Gone().(now := now))
  {
  }

  lemma StarvingPass()
    ensures CanHappen(Ten(), WholePass) && Happens(Ten(), WholePass) == Gone()
  {
    PaidShaped(10);
    IdleTurn(Ten(), 0);
    PayerOut();
    DyingTurn(Ten(), 1, 1);
    GoneShaped(10);
    IdleTurn(Gone(), 2);
    ThreeTurns(Ten(), Ten(), Gone(), Gone());
  }

  // ----- at time 12 -----

  ghost function Twelve(): State {
    Gone().(now := 12)
  }

  /** The first turn of the next pass calls back with a player that is gone. */
  lemma Dangling()
    ensures Offered(Twelve(), Turn(0)) && !Enabled(Twelve(), Turn(0)) && !CanHappen(Twelve(), WholePass)
  {
    var w := Twelve();
    GoneShaped(12);
    assert w.rings[2].slots[9] == SECOND_PHASE;
    assert PlayUpTo(w, 0) == w;
  }

  // ----- the run put together -----

  /** The happenings lead to the state in which the stray second phase is due and its payer is gone. */
  ghost predicate LeadsToTwelve(w: State, hs: seq<Happening>) {
    CanGo(w, hs) && Go(w, hs) == Twelve()
  }

  lemma Before(w: State, h: Happening, w': State, rest: seq<Happening>) returns (hs: seq<Happening>)
    requires CanHappen(w, h) && Happens(w, h) == w' && LeadsToTwelve(w', rest)
    ensures LeadsToTwelve(w, hs)
  {
    hs := [h] + rest;
    assert hs[1..] == rest;
  }

  lemma Ticking(w: State, to: int)
    requires Shaped(w) && w.now <= to
    ensures CanHappen(w, Outside(Tick(to))) && Happens(w, Outside(Tick(to))) == w.(now := to)
  {
  }

  lemma FromPaid() returns (hs: seq<Happening>)
    ensures LeadsToTwelve(Paid(), hs)
  {
    GoneShaped(10);
    Ticking(Gone(), 12);
    hs := Before(Gone(), Outside(Tick(12)), Twelve(), []);
    StarvingPass();
    hs := Before(Ten(), WholePass, Gone(), hs);
    PaidShaped(7);
    Ticking(Paid(), 10);
    hs := Before(Paid(), Outside(Tick(10)), Ten(), hs);
  }

  lemma SharedShaped()
    ensures Shaped(Shared())
  {
  }

  lemma FromShared() returns (hs: seq<Happening>)
    ensures LeadsToTwelve(Shared(), hs)
  {
    hs := FromPaid();
    PayingPass();
    hs := Before(Walked(), WholePass, Paid(), hs);
    StepPass();
    hs := Before(Seven(), WholePass, Walked(), hs);
    SharedShaped();
    Ticking(Shared(), 7);
    hs := Before(Shared(), Outside(Tick(7)), Seven(), hs);
  }

  lemma FromWaiting() returns (hs: seq<Happening>)
    ensures LeadsToTwelve(Waiting(), hs)
  {
    hs := FromShared();
    Returning();
    hs := Before(Later(), Outside(LogsIn(2, 5, 0, 0, 0, North)), Shared(), hs);
    LeftShaped();
    Ticking(Left(), 5);
    hs := Before(Left(), Outside(Tick(5)), Later(), hs);
    FirstPass();
    hs := Before(Waiting(), WholePass, Left(), hs);
  }

  lemma FromTwoIn() returns (hs: seq<Happening>)
    ensures LeadsToTwelve(TwoIn(), hs)
  {
    hs := FromWaiting();
    Losing();
    hs := Before(Sent(), Outside(Disconnects(7)), Waiting(), hs);
    SendingStart();
    hs := Before(StepSent(), Outside(Sends(5, Some(Incantation), None)), Sent(), hs);
    SendingStep();
    hs := Before(TwoIn(), Outside(Sends(5, Some(Avance), None)), StepSent(), hs);
  }

  lemma FromStart() returns (hs: seq<Happening>)
    ensures LeadsToTwelve(Start(), hs)
  {
    hs := FromTwoIn();
    SecondLogin();
    hs := Before(OneIn(), Outside(LogsIn(1, 5, 0, 0, 0, North)), TwoIn(), hs);
    FirstLogin();
    hs := Before(Start(), Outside(LogsIn(0, 7, 0, 0, 0, North)), OneIn(), hs);
  }

  lemma StartIsInitial()
    ensures Initial(Start())
  {
  }

  /**
   With two logins on one socket the invariant breaks: from game_init, with whole passes over the
   client table, the server comes to a pass whose first turn calls back with a player whose memory
   was released.
   */
  lemma SharedSocketDangles() returns (hs: seq<Happening>)
    ensures Initial(Start()) && CanGo(Start(), hs)
    ensures Offered(Go(Start(), hs), Turn(0)) && !Enabled(Go(Start(), hs), Turn(0))
  {
    hs := FromStart();
    StartIsInitial();
    Dangling();
  }
}

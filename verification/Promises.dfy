/** What a player is told about its incantations: every "in_progress" has a second phase behind it. */
module Promises {
  import opened Wrappers
  import opened EventRing
  import opened World
  import opened Soundness
  import opened Steps
  import opened Ledger
  import opened Incantations
  import opened Hearing

  /** The two answers of an incantation: the promise that it is in progress, and the verdict in the end. */
  datatype Word = Promise | Verdict

  predicate Is(r: Reply, fd: int, word: Word) {
    && r.Reply? && r.fd == fd
    && match word
       case Promise => r.status == InProgress
       case Verdict => r.about == ResolveIncantation && (r.status == Yes || r.status == No)
  }

  /** How often a word is among the messages to a socket. */
  ghost function Times(said: seq<Reply>, fd: int, word: Word): nat {
    if said == [] then 0 else (if Is(said[0], fd, word) then 1 else 0) + Times(said[1..], fd, word)
  }

  lemma {:induction false} TimesAdds(a: seq<Reply>, b: seq<Reply>, fd: int, word: Word)
    ensures Times(a + b, fd, word) == Times(a, fd, word) + Times(b, fd, word)
  {
    if a == [] {
      assert a + b == b;
    } else {
      assert (a + b)[1..] == a[1..] + b;
      TimesAdds(a[1..], b, fd, word);
    }
  }

  lemma {:induction false} NeverSaid(said: seq<Reply>, fd: int, word: Word)
    requires forall r <- said :: !Is(r, fd, word)
    ensures Times(said, fd, word) == 0
  {
    if said != [] {
      NeverSaid(said[1..], fd, word);
    }
  }

  lemma SaidOnce(r: Reply, fd: int, word: Word)
    ensures Times([r], fd, word) == if Is(r, fd, word) then 1 else 0
  {
    assert [r][1..] == [];
  }

  // ----- one step -----

  /** What was added to the outbox has each word as often as the step paid and resolved. */
  ghost predicate Tells<K>(w: World<K>, w': World<K>, k: K, paid: nat, resolved: nat)
    requires k in w.players
  {
    && w.outbox <= w'.outbox
    && Times(SaidSince(w, w'), w.players[k].fd, Promise) == paid
    && Times(SaidSince(w, w'), w.players[k].fd, Verdict) == resolved
  }

  lemma TellsOnce<K>(w: World<K>, w': World<K>, k: K, said: seq<Reply>, last: Reply)
    requires k in w.players && w'.outbox == w.outbox + (said + [last])
    requires forall r <- said, word :: !Is(r, w.players[k].fd, word)
    ensures Tells(w, w', k, if Is(last, w.players[k].fd, Promise) then 1 else 0, if Is(last, w.players[k].fd, Verdict) then 1 else 0)
  {
    var fd := w.players[k].fd;
    assert SaidSince(w, w') == said + [last];
    NeverSaid(said, fd, Promise);
    NeverSaid(said, fd, Verdict);
    TimesAdds(said, [last], fd, Promise);
    TimesAdds(said, [last], fd, Verdict);
    SaidOnce(last, fd, Promise);
    SaidOnce(last, fd, Verdict);
  }

  /** The words of others are no answers to an own incantation. */
  lemma OthersPromiseNothing<K>(w: World<K>, w': World<K>, k: K)
    requires k in w.players && k in w'.players && Overheard(w, w', k)
    ensures Tells(w, w', k, 0, 0)
  {
    NeverSaid(SaidSince(w, w'), w.players[k].fd, Promise);
    NeverSaid(SaidSince(w, w'), w.players[k].fd, Verdict);
  }

  lemma SingleTells<K>(w: World<K>, k: K, c: Command, arg: Option<Arg>)
    requires Shaped(w) && k in w.players && c != Incantation && c != Command.Broadcast
    ensures Tells(w, Call(w, k, Do(c), arg), k, 0, 0)
  {
    AnswersOne(w, k, c, arg);
    var w' := Call(w, k, Do(c), arg);
    var last := w'.outbox[|w.outbox|];
    assert !last.status.InProgress? && last.about == Do(c);
    assert w'.outbox == w.outbox + ([] + [last]);
    TellsOnce(w, w', k, [], last);
  }

  lemma BroadcastTells<K>(w: World<K>, k: K, arg: Option<Arg>)
    requires Shaped(w) && k in w.players
    ensures Tells(w, Call(w, k, Do(Command.Broadcast), arg), k, 0, 0)
  {
    var p := w.players[k];
    var messages := Messages(w.slots, w.players, p, arg, w.width, w.height);
    MessagesAreWords(w.slots, w.players, p, arg, w.width, w.height, p.fd);
    BroadcastSays(w, k, arg);
    TellsOnce(w, Call(w, k, Do(Command.Broadcast), arg), k, messages, Reply(p.fd, Do(Command.Broadcast), Yes));
  }

  lemma StartTells<K>(w: World<K>, k: K)
    requires Ready(w) && k in w.players
    ensures Tells(w, StartIncantation(w, k), k, if CanIncantate(w, k, true) then 1 else 0, 0)
  {
    var last := Reply(w.players[k].fd, Do(Incantation), if CanIncantate(w, k, true) then InProgress else No);
    FindsItself(w, k);
    assert StartIncantation(w, k).outbox == w.outbox + ([] + [last]);
    TellsOnce(w, StartIncantation(w, k), k, [], last);
  }

  lemma VerdictSays<K>(w: World<K>, k: K, level: int) returns (raises: seq<Reply>, status: Status)
    requires Ready(w) && k in w.players
    ensures FinishIncantation(w, k, level).outbox == w.outbox + (raises + [Reply(w.players[k].fd, ResolveIncantation, status)])
    ensures (status == Yes || status == No) && forall r <- raises :: r.Reply? && r.status.LevelUp?
  {
    raises, status := ResolutionAnswers(w, k, level);
    ResolutionRaisesExactly(w, k, level);
    var said := FinishIncantation(w, k, level).outbox;
    assert said[|said| - 1] == Reply(w.players[k].fd, ResolveIncantation, status);
  }

  lemma FinishTells<K>(w: World<K>, k: K, level: int)
    requires Ready(w) && k in w.players
    ensures Tells(w, FinishIncantation(w, k, level), k, 0, 1)
  {
    var raises, status := VerdictSays(w, k, level);
    TellsOnce(w, FinishIncantation(w, k, level), k, raises, Reply(w.players[k].fd, ResolveIncantation, status));
  }

  lemma CommandTells<K>(w: World<K>, k: K, c: Command, arg: Option<Arg>)
    requires Ready(w) && k in w.players
    ensures Tells(w, Call(w, k, Do(c), arg), k, if c == Incantation && CanIncantate(w, k, true) then 1 else 0, 0)
  {
    if c == Incantation {
      StartTells(w, k);
    } else if c == Command.Broadcast {
      BroadcastTells(w, k, arg);
    } else {
      SingleTells(w, k, c, arg);
    }
  }

  /** Only the outbox counts. */
  lemma TellsTheSame<K>(w: World<K>, w1: World<K>, w2: World<K>, k: K, paid: nat, resolved: nat)
    requires k in w.players && Tells(w, w1, k, paid, resolved) && w2.outbox == w1.outbox
    ensures Tells(w, w2, k, paid, resolved)
  {
  }

  lemma RunTells<K>(w: World<K>, slot: nat, k: K)
    requires Ready(w) && slot < |w.slots| && Defined(w, slot) && DeedOf(w, slot).Runs? && DeedOf(w, slot).k == k
    ensures k in w.players
    ensures Tells(w, Play(w, slot), k, if Pays(w, Turn(slot)) then 1 else 0, if DeedOf(w, slot).job.ResolveIncantation? then 1 else 0)
  {
    RunsIsCall(w, slot);
    var Runs(_, _, job, arg) := DeedOf(w, slot);
    match job
    case ResolveIncantation =>
      FinishTells(w, k, LevelOf(arg));
      TellsTheSame(w, FinishIncantation(w, k, LevelOf(arg)), Play(w, slot), k, 0, 1);
    case Do(c) =>
      CommandTells(w, k, c, arg);
      TellsTheSame(w, Call(w, k, job, arg), Play(w, slot), k, if Pays(w, Turn(slot)) then 1 else 0, 0);
  }

  /**
   A step says "in_progress" to a player exactly if it makes the player pay, once, and gives a final
   answer exactly if it runs a second phase of the player, once.
   */
  lemma StepTells<K>(w: World<K>, a: Action<K>, k: K)
    requires Ready(w) && Enabled(w, a) && k in w.players && k in Apply(w, a).players
    ensures Tells(w, Apply(w, a), k, |PaidAt(w, a, k)|, |ResolvedAt(w, a, k)|)
  {
    if RunsFor(w, a, k) {
      RunTells(w, a.slot, k);
    } else {
      OthersTell(w, a, k);
      OthersPromiseNothing(w, Apply(w, a), k);
    }
  }

  lemma {:induction false} SaidIfCounted(said: seq<Reply>, fd: int, word: Word)
    ensures Times(said, fd, word) > 0 <==> exists r <- said :: Is(r, fd, word)
  {
    if said != [] {
      SaidIfCounted(said[1..], fd, word);
      if exists r <- said :: Is(r, fd, word) {
        var i :| 0 <= i < |said| && Is(said[i], fd, word);
        assert i > 0 ==> said[i] == said[1..][i - 1];
      }
    }
  }

  /**
   "in_progress" is said to a player in a step if and only if the step pays for it; and then its second
   phase, with its level, is the head of its buffer.
   */
  lemma PromiseHasSecondPhase<K>(w: World<K>, a: Action<K>, k: K)
    requires Ready(w) && Enabled(w, a) && k in w.players && k in Apply(w, a).players
    ensures w.outbox <= Apply(w, a).outbox
    ensures (exists r <- SaidSince(w, Apply(w, a)) :: Is(r, w.players[k].fd, Promise)) <==> Opens(w, a, k)
    ensures (exists r <- SaidSince(w, Apply(w, a)) :: Is(r, w.players[k].fd, Promise)) ==>
      var rings := Apply(w, a).rings;
      k in rings && EventRing.Valid(rings[k]) && Live(rings[k]) != [] && Live(rings[k])[0] == SecondPhase(w, k)
  {
    StepTells(w, a, k);
    SaidIfCounted(SaidSince(w, Apply(w, a)), w.players[k].fd, Promise);
    if Opens(w, a, k) {
      PaymentQueuesSecondPhase(w, a.slot);
    }
  }

  // ----- the first phase, whole -----

  /** The stones and the peers a player needs are there. */
  ghost predicate Qualified<K>(w: World<K>, k: K)
    requires Shaped(w) && k in w.players
  {
    var p := w.players[k];
    TileIndexInRange(w.width, w.height, p.x, p.y);
    var t := TileOf(w.width, p);
    && p.level < LEVEL_MAX
    && |Peers(w, t, p.level)| >= LevelReqs(p.level).players
    && forall kind: Kind :: w.items[t][kind] >= LevelReqs(p.level).stones[kind]
  }

  /** The answer is "ko", and nothing else happened but that the event was processed. */
  ghost predicate Refused<K>(w: World<K>, w': World<K>, k: K)
    requires Shaped(w) && k in w.players
  {
    w' == w.(rings := w.rings[k := Process(w.rings[k], w.now, Quiet).ring],
             outbox := w.outbox + [Reply(w.players[k].fd, Do(Incantation), No)])
  }

  /** The tile has lost the stones of the level, and no other tile anything. */
  ghost predicate StonesTaken<K>(w: World<K>, w': World<K>, k: K)
    requires Shaped(w) && k in w.players
  {
    var p := w.players[k];
    && |w'.items| == |w.items| && p.level < LEVEL_MAX
    && forall t, kind: Kind | 0 <= t < |w.items| :: w'.items[t][kind] ==
         w.items[t][kind] - if t == TileOf(w.width, p) then LevelReqs(p.level).stones[kind] else 0
  }

  /** The stones are gone, the answer is "in_progress", and the second phase is the head of the buffer. */
  ghost predicate PaidFor<K>(w: World<K>, w': World<K>, k: K)
    requires Shaped(w) && k in w.players
  {
    && w' == w.(items := w'.items, rings := w'.rings,
                outbox := w.outbox + [Reply(w.players[k].fd, Do(Incantation), InProgress)])
    && StonesTaken(w, w', k)
    && k in w'.rings && w'.rings == w.rings[k := w'.rings[k]] && EventRing.Valid(w'.rings[k])
    && Live(w.rings[k]) != [] && Live(w'.rings[k]) == [SecondPhase(w, k)] + Live(w.rings[k])[1..]
  }

  lemma IncantationCalls<K>(w: World<K>, k: K, arg: Option<Arg>)
    requires Shaped(w) && k in w.players
    ensures Call(w, k, Do(Incantation), arg) == StartIncantation(w, k)
  {
  }

  /** The first phase, and what it does to the buffers. */
  lemma FirstPhaseRuns<K>(w: World<K>, slot: nat, k: K)
    requires Ready(w) && slot < |w.slots| && Defined(w, slot) && DeedOf(w, slot).Runs? && k in w.players
    requires DeedOf(w, slot).k == k && DeedOf(w, slot).job == Do(Incantation)
    ensures Play(w, slot) == StartIncantation(w, k).(rings := RunRings(w, k, k, Do(Incantation)))
    ensures Live(w.rings[k]) != []
  {
    TurnIsDeed(w, slot);
    OwnerRuns(w, slot);
    IncantationCalls(w, k, DeedOf(w, slot).arg);
  }

  lemma RefusalRefuses<K>(w: World<K>, slot: nat, k: K)
    requires Ready(w) && slot < |w.slots| && Defined(w, slot) && DeedOf(w, slot).Runs? && k in w.players
    requires DeedOf(w, slot).k == k && DeedOf(w, slot).job == Do(Incantation) && !CanIncantate(w, k, true)
    ensures Refused(w, Play(w, slot), k)
  {
    FirstPhaseRuns(w, slot, k);
    assert RunRings(w, k, k, Do(Incantation)) == w.rings[k := Process(w.rings[k], w.now, Quiet).ring];
  }

  lemma PaymentTakesStones<K>(w: World<K>, k: K)
    requires Shaped(w) && k in w.players && CanIncantate(w, k, true)
    ensures var w' := StartIncantation(w, k);
      StonesTaken(w, w', k) && w' == w.(items := w'.items, outbox := w'.outbox)
  {
    TileIndexInRange(w.width, w.height, w.players[k].x, w.players[k].y);
  }

  lemma PaymentPays<K>(w: World<K>, slot: nat, k: K)
    requires Ready(w) && slot < |w.slots| && Defined(w, slot) && DeedOf(w, slot).Runs? && k in w.players
    requires DeedOf(w, slot).k == k && DeedOf(w, slot).job == Do(Incantation) && CanIncantate(w, k, true)
    ensures PaidFor(w, Play(w, slot), k)
  {
    FirstPhaseRuns(w, slot, k);
    PaymentTakesStones(w, k);
    PaymentIsAnswered(w, slot);
    PaymentQueuesSecondPhase(w, slot);
  }

  /**
   An incantation that comes to be run: at the top level, or with a peer or a stone missing, it is
   refused and nothing else happens; otherwise it is paid for.
   */
  lemma IncantationIsPaidOrRefused<K>(w: World<K>, slot: nat, k: K)
    requires Ready(w) && slot < |w.slots| && Defined(w, slot) && DeedOf(w, slot).Runs?
    requires DeedOf(w, slot).k == k && DeedOf(w, slot).job == Do(Incantation)
    ensures k in w.players
    ensures if Qualified(w, k) then PaidFor(w, Play(w, slot), k) else Refused(w, Play(w, slot), k)
  {
    TurnIsDeed(w, slot);
    CanIncantateMeans(w, k, true);
    if Qualified(w, k) {
      PaymentPays(w, slot, k);
    } else {
      RefusalRefuses(w, slot, k);
    }
  }

  // ----- over runs -----

  lemma SaidJoins<K>(w: World<K>, w1: World<K>, w2: World<K>, fd: int, word: Word)
    requires w.outbox <= w1.outbox <= w2.outbox
    ensures Times(SaidSince(w, w2), fd, word) == Times(SaidSince(w, w1), fd, word) + Times(SaidSince(w1, w2), fd, word)
  {
    assert SaidSince(w, w2) == SaidSince(w, w1) + SaidSince(w1, w2);
    TimesAdds(SaidSince(w, w1), SaidSince(w1, w2), fd, word);
  }

  lemma TellsOn<K>(w: World<K>, w1: World<K>, w2: World<K>, k: K, paid1: nat, resolved1: nat, paid2: nat, resolved2: nat)
    requires k in w.players && k in w1.players && w1.players[k].fd == w.players[k].fd
    requires Tells(w, w1, k, paid1, resolved1) && Tells(w1, w2, k, paid2, resolved2)
    ensures Tells(w, w2, k, paid1 + paid2, resolved1 + resolved2)
  {
    SaidJoins(w, w1, w2, w.players[k].fd, Promise);
    SaidJoins(w, w1, w2, w.players[k].fd, Verdict);
  }

  lemma {:induction false} RunTellsAll<K>(w: World<K>, actions: seq<Action<K>>, k: K)
    requires Ready(w) && CanRun(w, actions) && OneLoginEach(w, actions) && StaysOn(w, actions, k)
    ensures Tells(w, Run(w, actions), k, |Opened(w, actions, k)|, |Closed(w, actions, k)|)
    decreases actions
  {
    if actions == [] {
      assert SaidSince(w, w) == [];
    } else {
      var w1 := Apply(w, actions[0]);
      assert k in w1.players;
      StepKeepsReady(w, actions[0]);
      StepKeepsFds(w, actions[0], k);
      StepTells(w, actions[0], k);
      RunTellsAll(w1, actions[1..], k);
      TellsOn(w, w1, Run(w1, actions[1..]), k, |PaidAt(w, actions[0], k)|, |ResolvedAt(w, actions[0], k)|,
              |Opened(w1, actions[1..], k)|, |Closed(w1, actions[1..], k)|);
    }
  }

  /**
   Over every run with one login per socket: a player is told "in_progress" as often as it is given a
   final answer, but for at most one that is pending at the head of its buffer.
   */
  lemma PromisesAreKept<K>(w: World<K>, actions: seq<Action<K>>, k: K)
    requires Ready(w) && CanRun(w, actions) && OneLoginEach(w, actions) && StaysOn(w, actions, k)
    ensures var w' := Run(w, actions);
      && w.outbox <= w'.outbox && k in w'.players && Ready(w')
      && |AwaitsLevels(w.rings[k])| + Times(SaidSince(w, w'), w.players[k].fd, Promise)
         == Times(SaidSince(w, w'), w.players[k].fd, Verdict) + |AwaitsLevels(w'.rings[k])|
  {
    EveryStartResolvesOnce(w, actions, k);
    RunTellsAll(w, actions, k);
    var lhs := AwaitsLevels(w.rings[k]) + Opened(w, actions, k);
    var rhs := Closed(w, actions, k) + AwaitsLevels(Run(w, actions).rings[k]);
    assert |lhs| == |rhs|;
  }
}

/** What the server sends a client that it did not ask for. */
module Hearing {
  import opened Wrappers
  import opened World
  import opened Soundness
  import opened Steps
  import opened Ledger
  import opened Incantations
  import opened Driving
  import opened Flow

  /** A level-up, a word of another player, a push: about no command of the client. */
  predicate Unasked(status: Status) {
    status.LevelUp? || status.Heard? || status.Pushed?
  }

  /** What the client reads of it. */
  function ToStray(status: Status): Response {
    if status.LevelUp? then LEVEL_UP else Foreign
  }

  /** The unasked messages to a socket. */
  ghost function Told(said: seq<Reply>, fd: int): seq<Response> {
    if said == [] then []
    else (if said[0].Reply? && said[0].fd == fd then [ToStray(said[0].status)] else []) + Told(said[1..], fd)
  }

  /** Nothing else goes to the socket. */
  ghost predicate OnlyUnasked(said: seq<Reply>, fd: int) {
    forall r <- said :: r.Reply? && r.fd == fd ==> Unasked(r.status)
  }

  /** The level-ups among the messages to a socket. */
  ghost function LevelUpsFor(said: seq<Reply>, fd: int): nat {
    LevelUps(Strays(Told(said, fd)))
  }

  /** What a step adds to everything the server has said. */
  ghost function SaidSince<K>(w: World<K>, w': World<K>): seq<Reply>
    requires |w.outbox| <= |w'.outbox|
  {
    w'.outbox[|w.outbox|..]
  }

  // ----- counting -----

  lemma {:induction false} ToldAdds(a: seq<Reply>, b: seq<Reply>, fd: int)
    ensures Told(a + b, fd) == Told(a, fd) + Told(b, fd)
  {
    if a == [] {
      assert a + b == b;
    } else {
      assert (a + b)[1..] == a[1..] + b;
      ToldAdds(a[1..], b, fd);
      Regroup(if a[0].Reply? && a[0].fd == fd then [ToStray(a[0].status)] else [], Told(a[1..], fd), Told(b, fd));
    }
  }

  lemma {:induction false} ToldAreStrays(said: seq<Reply>, fd: int)
    ensures forall r <- Told(said, fd) :: IsStray(r)
  {
    if said != [] {
      ToldAreStrays(said[1..], fd);
    }
  }

  lemma {:induction false} ElsewhereTellsNothing(said: seq<Reply>, fd: int)
    requires forall r <- said :: r.Reply? ==> r.fd != fd
    ensures Told(said, fd) == [] && LevelUpsFor(said, fd) == 0 && OnlyUnasked(said, fd)
  {
    if said != [] {
      ElsewhereTellsNothing(said[1..], fd);
    }
  }

  lemma LevelUpsForAdds(a: seq<Reply>, b: seq<Reply>, fd: int)
    ensures LevelUpsFor(a + b, fd) == LevelUpsFor(a, fd) + LevelUpsFor(b, fd)
  {
    ToldAdds(a, b, fd);
    assert Strays(Told(a, fd) + Told(b, fd)) == Strays(Told(a, fd)) + Strays(Told(b, fd));
    LevelUpsAdd(Strays(Told(a, fd)), Strays(Told(b, fd)));
  }

  lemma OneReply(r: Reply, fd: int)
    requires r.Reply?
    ensures LevelUpsFor([r], fd) == if r.fd == fd && r.status.LevelUp? then 1 else 0
  {
    assert [r][1..] == [];
    var heard := ToStray(r.status);
    if r.fd == fd {
      assert Told([r], fd) == [heard];
      assert Strays([heard]) == [Stray(heard)] && [Stray(heard)][1..] == [];
      assert LevelUps([Stray(heard)]) == if heard == LEVEL_UP then 1 else 0;
    } else {
      assert Told([r], fd) == [] && Strays([]) == [];
    }
  }

  /** Words of a broadcast raise nobody. */
  lemma {:induction false} MessagesAreWords<K>(slots: seq<Option<K>>, players: map<K, Player>, from: Player, text: Option<Arg>,
                                               width: int, height: int, fd: int)
    requires width > 0 && height > 0
    ensures var said := Messages(slots, players, from, text, width, height);
      (forall r <- said :: r.Reply? && r.status.Heard?) && LevelUpsFor(said, fd) == 0
  {
    if slots != [] {
      MessagesAreWords(slots[1..], players, from, text, width, height, fd);
      if slots[0].Some? && slots[0].value in players {
        var said := Messages(slots, players, from, text, width, height);
        OneReply(said[0], fd);
        LevelUpsForAdds([said[0]], Messages(slots[1..], players, from, text, width, height), fd);
      } else {
        assert Messages(slots, players, from, text, width, height) == Messages(slots[1..], players, from, text, width, height);
      }
    }
  }

  /** The walk of a resolution tells every player it raises, once, and nobody else. */
  lemma {:induction false} RaiseTells<K>(row: seq<K>, players: map<K, Player>, level: int, k: K)
    requires NoDup(row) && k in players
    requires forall q <- players :: q != k ==> players[q].fd != players[k].fd
    ensures var said := RaiseRow(row, players, level).1;
      && (forall r <- said :: r.Reply? && r.status.LevelUp?)
      && LevelUpsFor(said, players[k].fd) == if k in row && players[k].level == level then 1 else 0
  {
    if row != [] {
      assert row[0] !in row[1..];
      if row[0] in players && players[row[0]].level == level {
        var p := players[row[0]];
        var rest := players[row[0] := p.(level := level + 1)];
        RaiseTells(row[1..], rest, level, k);
        var r := Reply(p.fd, Do(Incantation), LevelUp);
        OneReply(r, players[k].fd);
        LevelUpsForAdds([r], RaiseRow(row[1..], rest, level).1, players[k].fd);
      } else {
        RaiseTells(row[1..], players, level, k);
      }
    }
  }

  // ----- what the commands of others say -----

  /** What was added to the outbox is unasked where it goes to player k, with a level-up for every level. */
  ghost predicate Overheard<K>(w: World<K>, w': World<K>, k: K)
    requires k in w.players && k in w'.players
  {
    var fd := w.players[k].fd;
    && w.outbox <= w'.outbox && OnlyUnasked(SaidSince(w, w'), fd)
    && w'.players[k].level == w.players[k].level + LevelUpsFor(SaidSince(w, w'), fd)
  }

  lemma NothingSaid<K>(w: World<K>, w': World<K>, k: K)
    requires k in w.players && k in w'.players && w'.players[k].level == w.players[k].level && w'.outbox == w.outbox
    ensures Overheard(w, w', k)
  {
    assert SaidSince(w, w') == [];
    ElsewhereTellsNothing([], w.players[k].fd);
  }

  lemma SaidElsewhere<K>(w: World<K>, w': World<K>, k: K, said: seq<Reply>)
    requires k in w.players && k in w'.players && w'.players[k].level == w.players[k].level && w'.outbox == w.outbox + said
    requires forall r <- said :: r.Reply? ==> r.fd != w.players[k].fd
    ensures Overheard(w, w', k)
  {
    assert SaidSince(w, w') == said;
    ElsewhereTellsNothing(said, w.players[k].fd);
  }

  lemma AnswerElsewhere(said: seq<Reply>, last: Reply, fd: int)
    requires OnlyUnasked(said, fd) && last.Reply? && last.fd != fd
    ensures OnlyUnasked(said + [last], fd) && LevelUpsFor(said + [last], fd) == LevelUpsFor(said, fd)
  {
    OneReply(last, fd);
    LevelUpsForAdds(said, [last], fd);
  }

  lemma SaidThis<K>(w: World<K>, w': World<K>, k: K, said: seq<Reply>)
    requires k in w.players && k in w'.players && w'.outbox == w.outbox + said && OnlyUnasked(said, w.players[k].fd)
    requires w'.players[k].level == w.players[k].level + LevelUpsFor(said, w.players[k].fd)
    ensures Overheard(w, w', k)
  {
    assert SaidSince(w, w') == said;
  }

  lemma RaisesOverheard<K>(w: World<K>, q: K, level: int, k: K)
    requires Ready(w) && q in w.players && k in w.players && q != k
    requires w.players[q].level == level && CanIncantate(w, q, false)
    ensures k in FinishIncantation(w, q, level).players && Overheard(w, FinishIncantation(w, q, level), k)
  {
    var p, fd := w.players[q], w.players[k].fd;
    TileIndexInRange(w.width, w.height, p.x, p.y);
    var row := w.rows[TileOf(w.width, p)];
    assert RowOk(row, w.players, w.width, TileOf(w.width, p));
    var raises := RaiseRow(row, w.players, level).1;
    RaiseRowExact(row, w.players, level);
    RaiseTells(row, w.players, level, k);
    var last := Reply(p.fd, ResolveIncantation, Yes);
    AnswerElsewhere(raises, last, fd);
    var w' := FinishIncantation(w, q, level);
    assert w'.outbox == w.outbox + (raises + [last]);
    SaidThis(w, w', k, raises + [last]);
  }

  /** The second phase of another player. */
  lemma ResolutionOverheard<K>(w: World<K>, q: K, level: int, k: K)
    requires Ready(w) && q in w.players && k in w.players && q != k
    ensures k in FinishIncantation(w, q, level).players && Overheard(w, FinishIncantation(w, q, level), k)
  {
    var w' := FinishIncantation(w, q, level);
    ResolutionRaisesExactly(w, q, level);
    var p := w.players[q];
    if p.level != level || !CanIncantate(w, q, false) {
      SaidElsewhere(w, w', k, [Reply(p.fd, ResolveIncantation, No)]);
    } else {
      RaisesOverheard(w, q, level, k);
    }
  }

  lemma BroadcastSays<K>(w: World<K>, q: K, arg: Option<Arg>)
    requires Shaped(w) && q in w.players
    ensures var w' := Call(w, q, Do(Command.Broadcast), arg);
      && w'.players == w.players
      && w'.outbox == w.outbox + (Messages(w.slots, w.players, w.players[q], arg, w.width, w.height)
                                  + [Reply(w.players[q].fd, Do(Command.Broadcast), Yes)])
  {
  }

  lemma BroadcastOverheard<K>(w: World<K>, q: K, arg: Option<Arg>, k: K)
    requires Ready(w) && q in w.players && k in w.players && q != k
    ensures k in Call(w, q, Do(Command.Broadcast), arg).players && Overheard(w, Call(w, q, Do(Command.Broadcast), arg), k)
  {
    var p, fd := w.players[q], w.players[k].fd;
    var messages := Messages(w.slots, w.players, p, arg, w.width, w.height);
    MessagesAreWords(w.slots, w.players, p, arg, w.width, w.height, fd);
    var last := Reply(p.fd, Do(Command.Broadcast), Yes);
    AnswerElsewhere(messages, last, fd);
    BroadcastSays(w, q, arg);
    SaidThis(w, Call(w, q, Do(Command.Broadcast), arg), k, messages + [last]);
  }

  lemma AnswersOne<K>(w: World<K>, q: K, c: Command, arg: Option<Arg>)
    requires Shaped(w) && q in w.players && c != Command.Broadcast && c != Incantation
    ensures var said := Call(w, q, Do(c), arg).outbox;
      |said| == |w.outbox| + 1 && said[..|w.outbox|] == w.outbox
      && said[|w.outbox|].Reply? && said[|w.outbox|].fd == w.players[q].fd
  {
  }

  lemma AnswerOverheard<K>(w: World<K>, q: K, c: Command, arg: Option<Arg>, k: K)
    requires Shaped(w) && UniqueFds(w) && q in w.players && k in w.players && q != k && c != Command.Broadcast && c != Incantation
    requires k in Call(w, q, Do(c), arg).players && Call(w, q, Do(c), arg).players[k].level == w.players[k].level
    ensures Overheard(w, Call(w, q, Do(c), arg), k)
  {
    AnswersOne(w, q, c, arg);
    var w' := Call(w, q, Do(c), arg);
    SaidElsewhere(w, w', k, [w'.outbox[|w.outbox|]]);
  }

  lemma PaymentSays<K>(w: World<K>, q: K)
    requires Shaped(w) && q in w.players && FindFd(w, w.players[q].fd).Some?
    ensures var w' := StartIncantation(w, q);
      && w'.players == w.players && |w'.outbox| == |w.outbox| + 1 && w'.outbox[..|w.outbox|] == w.outbox
      && w'.outbox[|w.outbox|].Reply? && w'.outbox[|w.outbox|].fd == w.players[q].fd
  {
  }

  lemma PaymentOverheard<K>(w: World<K>, q: K, arg: Option<Arg>, k: K)
    requires Ready(w) && q in w.players && k in w.players && q != k
    ensures k in Call(w, q, Do(Incantation), arg).players && Overheard(w, Call(w, q, Do(Incantation), arg), k)
  {
    FindsItself(w, q);
    PaymentSays(w, q);
    var w' := StartIncantation(w, q);
    SaidElsewhere(w, w', k, [w'.outbox[|w.outbox|]]);
  }

  lemma CommandOverheard<K>(w: World<K>, q: K, c: Command, arg: Option<Arg>, k: K)
    requires Ready(w) && q in w.players && k in w.players && q != k
    ensures k in Call(w, q, Do(c), arg).players && Overheard(w, Call(w, q, Do(c), arg), k)
  {
    CommandKeepsLevel(w, q, c, arg, k);
    if c == Command.Broadcast {
      BroadcastOverheard(w, q, arg, k);
    } else if c == Incantation {
      PaymentOverheard(w, q, arg, k);
    } else {
      AnswerOverheard(w, q, c, arg, k);
    }
  }

  // ----- any step of others -----

  lemma LeavingSays<K>(w: World<K>, q: K)
    requires Shaped(w) && q in w.players && Leave(w, q).0 == SUCCESS
    ensures var w' := Leave(w, q).1;
      w'.players == w.players - {q} && w'.outbox == w.outbox + [DeathNotice(w.players[q].fd)]
  {
  }

  lemma LeavingOverheard<K>(w: World<K>, q: K, k: K)
    requires Ready(w) && q in w.players && k in w.players && k in Leave(w, q).1.players
    ensures Overheard(w, Leave(w, q).1, k)
  {
    RemovalNeverFails(w, q);
    LeavingSays(w, q);
    SaidElsewhere(w, Leave(w, q).1, k, [DeathNotice(w.players[q].fd)]);
  }

  lemma RunOverheard<K>(w: World<K>, slot: nat, k: K)
    requires Ready(w) && slot < |w.slots| && Defined(w, slot) && k in w.players
    requires DeedOf(w, slot).Runs? && DeedOf(w, slot).k != k
    ensures k in Play(w, slot).players && Overheard(w, Play(w, slot), k)
  {
    RunsIsCall(w, slot);
    var Runs(_, q, job, arg) := DeedOf(w, slot);
    match job
    case ResolveIncantation => ResolutionOverheard(w, q, LevelOf(arg), k);
    case Do(c) => CommandOverheard(w, q, c, arg, k);
  }

  lemma TurnOverheard<K>(w: World<K>, slot: nat, k: K)
    requires Ready(w) && slot < |w.slots| && Defined(w, slot) && k in w.players && k in Play(w, slot).players
    requires !RunsFor(w, Turn(slot), k)
    ensures Overheard(w, Play(w, slot), k)
  {
    TurnIsDeed(w, slot);
    match DeedOf(w, slot)
    case Idle => NothingSaid(w, Play(w, slot), k);
    case Eats(q) => NothingSaid(w, Play(w, slot), k);
    case Leaves(q) => LeavingOverheard(w, q, k);
    case Runs(_, q, job, arg) => RunOverheard(w, slot, k);
  }

  lemma QuietStep<K>(w: World<K>, a: Action<K>, k: K)
    requires Enabled(w, a) && k in w.players && k in Apply(w, a).players && !a.Turn? && !a.Shoves?
    ensures Apply(w, a).outbox == w.outbox && Apply(w, a).players[k].level == w.players[k].level
  {
  }

  lemma ShoveOverheard<K>(w: World<K>, p: K, q: K, k: K)
    requires Ready(w) && p in w.players && q in w.players && k in w.players
    ensures k in Shove(w, p, q).players && Overheard(w, Shove(w, p, q), k)
  {
    var w' := Shove(w, p, q);
    var r := Reply(w.players[q].fd, Do(Expulse), Pushed);
    assert w'.outbox == w.outbox + [r];
    assert SaidSince(w, w') == [r];
    OneReply(r, w.players[k].fd);
  }

  /**
   Whatever the server does that is not a command of player k: all it sends to k's socket is
   level-ups, one for each level k rises, and words the client does not know.
   */
  lemma OthersTell<K>(w: World<K>, a: Action<K>, k: K)
    requires Ready(w) && Enabled(w, a) && k in w.players && k in Apply(w, a).players && !RunsFor(w, a, k)
    ensures Overheard(w, Apply(w, a), k)
  {
    if a.Turn? {
      TurnOverheard(w, a.slot, k);
    } else if a.Shoves? {
      ShoveOverheard(w, a.k, a.q, k);
    } else {
      QuietStep(w, a, k);
      NothingSaid(w, Apply(w, a), k);
    }
  }

  // ----- an own incantation -----

  lemma {:induction false} RaisesNobody<K>(row: seq<K>, players: map<K, Player>, level: int)
    requires forall q <- players :: false
    ensures RaiseRow(row, players, level).1 == []
  {
    if row != [] {
      RaisesNobody(row[1..], players, level);
    }
  }

  lemma RaisesTell<K>(row: seq<K>, players: map<K, Player>, level: int)
    requires NoDup(row) && forall q <- players, p <- players :: q != p ==> players[q].fd != players[p].fd
    ensures var said := RaiseRow(row, players, level).1;
      && (forall r <- said :: r.Reply? && r.status.LevelUp?)
      && forall q <- players :: LevelUpsFor(said, players[q].fd) == if q in row && players[q].level == level then 1 else 0
  {
    var said := RaiseRow(row, players, level).1;
    forall q <- players
      ensures LevelUpsFor(said, players[q].fd) == if q in row && players[q].level == level then 1 else 0
    {
      RaiseTells(row, players, level, q);
    }
    if q :| q in players {
      RaiseTells(row, players, level, q);
    } else {
      RaisesNobody(row, players, level);
    }
  }

  lemma SuccessAnswers<K>(w: World<K>, k: K, level: int) returns (raises: seq<Reply>)
    requires Ready(w) && k in w.players && w.players[k].level == level && CanIncantate(w, k, false)
    ensures var w' := FinishIncantation(w, k, level);
      && w'.outbox == w.outbox + (raises + [Reply(w.players[k].fd, ResolveIncantation, Yes)])
      && (forall r <- raises :: r.Reply? && r.status.LevelUp?)
      && (forall q <- w.players :: q in w'.players &&
            LevelUpsFor(raises, w.players[q].fd) == w'.players[q].level - w.players[q].level)
  {
    var p := w.players[k];
    TileIndexInRange(w.width, w.height, p.x, p.y);
    var row := w.rows[TileOf(w.width, p)];
    assert RowOk(row, w.players, w.width, TileOf(w.width, p));
    RaiseRowExact(row, w.players, level);
    raises := RaiseRow(row, w.players, level).1;
    RaisesTell(row, w.players, level);
  }

  lemma ResolutionAnswers<K>(w: World<K>, k: K, level: int) returns (raises: seq<Reply>, status: Status)
    requires Ready(w) && k in w.players
    ensures var w' := FinishIncantation(w, k, level);
      && w'.outbox == w.outbox + (raises + [Reply(w.players[k].fd, ResolveIncantation, status)])
      && (forall r <- raises :: r.Reply? && r.status.LevelUp?)
      && (forall q <- w.players :: q in w'.players &&
            LevelUpsFor(raises, w.players[q].fd) == w'.players[q].level - w.players[q].level)
  {
    var p := w.players[k];
    if p.level != level || !CanIncantate(w, k, false) {
      raises, status := [], No;
      forall q <- w.players
        ensures LevelUpsFor(raises, w.players[q].fd) == 0
      {
        ElsewhereTellsNothing(raises, w.players[q].fd);
      }
      assert [] + [Reply(p.fd, ResolveIncantation, No)] == [Reply(p.fd, ResolveIncantation, No)];
    } else {
      raises := SuccessAnswers(w, k, level);
      status := Yes;
    }
  }

  /**
   The answers to a paid incantation: in progress when it is paid; when it is resolved a level-up
   for each player raised, and the final answer.
   */
  lemma IncantationAnswers<K>(w: World<K>, slot: nat, k: K)
    requires Ready(w) && slot < |w.slots| && Defined(w, slot) && DeedOf(w, slot).Runs? && DeedOf(w, slot).k == k
    ensures Pays(w, Turn(slot)) ==>
      Play(w, slot).outbox == w.outbox + [Reply(w.players[k].fd, Do(Incantation), InProgress)]
    ensures DeedOf(w, slot).job == ResolveIncantation ==>
      exists raises, status ::
        && Play(w, slot).outbox == w.outbox + (raises + [Reply(w.players[k].fd, ResolveIncantation, status)])
        && (forall r <- raises :: r.Reply? && r.status.LevelUp?)
        && (forall q <- w.players :: q in Play(w, slot).players &&
              LevelUpsFor(raises, w.players[q].fd) == Play(w, slot).players[q].level - w.players[q].level)
  {
    RunsIsCall(w, slot);
    if Pays(w, Turn(slot)) {
      PaymentIsAnswered(w, slot);
    }
    if DeedOf(w, slot).job == ResolveIncantation {
      var raises, status := ResolutionAnswers(w, k, LevelOf(DeedOf(w, slot).arg));
    }
  }
}

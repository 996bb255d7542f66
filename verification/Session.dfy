/**
 Server, channels and client together: what the client reckons when it handles the answer to a look
 is where its player stood when the server made that answer.
 */
module Session {
  import opened Wrappers
  import opened EventRing
  import opened World
  import W = World
  import opened Steps
  import opened Ledger
  import opened Incantations
  import opened Pose
  import opened ClientAi
  import opened Driving
  import opened Flow
  import opened Hearing
  import F = Flow

  /** `notes` are the states of the server when it sent the messages that are on their way to the client. */
  datatype Session<K> = Session(w: World<K>, link: Link<K>, notes: seq<World<K>>, reckoning: Reckoning)

  datatype Move<K> =
    | Other(a: Action<K>)       // the server does something that is not a command of the client
    | Arrives                   // a command of the client reaches the server
    | Executes(slot: nat)       // the server executes the command at the head of the client's buffer
    | Handles(roll: Command)    // the client handles a message

  function Commands(orders: seq<Order>): (r: seq<Command>)
    ensures |r| == |orders|
  {
    seq(|orders|, i requires 0 <= i < |orders| => orders[i].command)
  }

  /** The arrival of a command, as an action of the server. */
  ghost function Arrival<K>(s: Session<K>): Action<K>
    requires s.link.me in s.w.players && s.link.up != []
  {
    Sends(s.w.players[s.link.me].fd, Some(s.link.up[0].command), ToArg(s.link.up[0].item))
  }

  function InventoryCounts(inv: Inventory): map<Kind, int> {
    map k: Kind | 0 <= k < 7 :: inv[k]
  }

  /** The server's answer to an order, as the client reads it. */
  function AnswerOf(o: Order, status: Status): Response {
    match o.command
    case Voir => Saw(if status.Seen? then status.view else [])
    case Inventaire => Stock(if status.Holds? then InventoryCounts(status.inv) else map[])
    case Prend => Took(if o.item.Some? then o.item.value else FOOD, o.item.Some? && status.Yes?)
    case Pose => Put(if o.item.Some? then o.item.value else FOOD, o.item.Some? && status.Yes?)
    case c => if IsMove(c) then Moved(c, status.Yes?) else Noted(c)
  }

  /** The last thing the server said. */
  function LastStatus<K>(w: World<K>): Status {
    if w.outbox != [] && w.outbox[|w.outbox| - 1].Reply? then w.outbox[|w.outbox| - 1].status else No
  }

  ghost predicate Can<K>(s: Session<K>, e: Move<K>) {
    var k := s.link.me;
    k in s.w.players &&
    match e
    case Other(a) =>
      && Enabled(s.w, a) && OneLoginPerFd(s.w, a) && k in Apply(s.w, a).players
      && !RunsFor(s.w, a, k)
      && (a.Sends? ==> a.fd != s.w.players[k].fd)
      && (a.Shoves? ==> a.q != k)
    case Arrives => s.link.up != [] && Shaped(s.w) && EventRing.Valid(s.link.ring)
    case Executes(slot) =>
      && Shaped(s.w) && slot < |s.w.slots| && s.w.slots[slot] == Some(k) && Defined(s.w, slot)
      && s.w.now < s.w.players[k].dieTime && IsDue(s.w.rings[k], s.w.now)
      && EventRing.Valid(s.link.ring) && IsDue(s.link.ring, s.link.now)
    case Handles(roll) =>
      s.link.down != [] && IsMove(roll) && s.notes != [] && ValidReckoning(s.w.width, s.w.height, s.reckoning)
  }

  /** What others make the server send the client. */
  ghost function HeardIn<K>(s: Session<K>, w: World<K>): seq<Response>
    requires s.link.me in s.w.players
  {
    if |s.w.outbox| <= |w.outbox| then Told(SaidSince(s.w, w), s.w.players[s.link.me].fd) else []
  }

  ghost function Overhears<K>(l: Link<K>, now: int, heard: seq<Response>): Link<K> {
    l.(now := now, down := l.down + Strays(heard), level := l.level + LevelUps(Strays(heard)))
  }

  ghost function Copies<K>(w: World<K>, n: nat): (r: seq<World<K>>)
    ensures |r| == n && forall i | 0 <= i < n :: r[i] == w
  {
    seq(n, _ => w)
  }

  /** The session after others brought the server to `w`. */
  ghost function After<K>(s: Session<K>, w: World<K>): Session<K>
    requires s.link.me in s.w.players
  {
    var heard := HeardIn(s, w);
    s.(w := w, notes := s.notes + Copies(s.w, |heard|), link := Overhears(s.link, w.now, heard))
  }

  ghost function Next<K>(s: Session<K>, e: Move<K>): Session<K>
    requires Can(s, e)
  {
    match e
    case Other(a) =>
      After(s, Apply(s.w, a))
    case Arrives =>
      s.(w := Apply(s.w, Arrival(s)), link := F.Next(s.link, Arrive(s.w.config.Delay(s.link.up[0].command))))
    case Executes(slot) =>
      var w := Play(s.w, slot);
      var o := OrderOf(Live(s.link.ring)[0]);
      s.(w := w, notes := s.notes + [s.w],
         link := s.link.(ring := Process(s.link.ring, s.link.now, Quiet).ring,
                         down := s.link.down + [Answer(o, AnswerOf(o, LastStatus(w)))]))
    case Handles(roll) =>
      s.(link := F.Next(s.link, Handle(roll)), notes := s.notes[1..],
         reckoning := Reckoned(s.w.width, s.w.height, s.reckoning, s.link.down[0].content))
  }

  // ----- the invariant -----

  /** Where the player stood after these commands. */
  ghost predicate StoodAfter<K>(w: World<K>, k: K, start: Stance, done: seq<Order>) {
    && Shaped(w) && k in w.players && InMap(w.width, w.height, start.x, start.y)
    && StanceOf(w, k) == MovesAll(w.width, w.height, start, Commands(done))
  }

  /** The view the server makes for a player. */
  ghost function Sees<K>(w: World<K>, k: K): View
    requires Shaped(w) && k in w.players
  {
    W.View(w, k, w.players[k].level + 1)
  }

  /**
   A move succeeds, a look shows what the server sees at that moment, an inventory is the player's
   own, and an item is taken or put down if and only if there is one.
   */
  ghost predicate AnsweredIn<K>(w: World<K>, k: K, o: Order, r: Response)
    requires Shaped(w) && k in w.players
  {
    match o.command
    case Voir => r == Saw(Sees(w, k))
    case Inventaire => r == Stock(InventoryCounts(w.players[k].inv))
    case Prend => r.Took? && (r.ok <==> HasSuch(w, k, Prend, ToArg(o.item))) && (r.ok ==> o.item == Some(r.kind))
    case Pose => r.Put? && (r.ok <==> HasSuch(w, k, Command.Pose, ToArg(o.item))) && (r.ok ==> o.item == Some(r.kind))
    case c => if IsMove(c) then r == Moved(c, true) else r == Noted(c)
  }

  /** A message was sent after the commands before it were executed. */
  ghost predicate NoteOk<K>(w: World<K>, width: int, height: int, k: K, start: Stance, before: seq<Order>, m: Message) {
    && StoodAfter(w, k, start, before) && w.width == width && w.height == height
    && (m.Answer? ==> AnsweredIn(w, k, m.order, m.content))
  }

  ghost predicate NotesOk<K>(s: Session<K>, start: Stance) {
    && |s.notes| == |s.link.down|
    && forall j {:trigger s.notes[j]} | 0 <= j < |s.notes| ::
         NoteOk(s.notes[j], s.w.width, s.w.height, s.link.me, start, s.link.answered + Awaited(s.link.down[..j]), s.link.down[j])
  }

  ghost predicate Holds<K>(s: Session<K>, start: Stance) {
    && Ready(s.w) && Balanced(s.link)
    && s.link.me in s.w.players && s.w.rings[s.link.me] == s.link.ring && s.link.now == s.w.now
    && s.link.level == s.w.players[s.link.me].level
    && StoodAfter(s.w, s.link.me, start, s.link.answered + Awaited(s.link.down))
    && s.reckoning == ReckonsAll(s.w.width, s.w.height, ORIGIN, Commands(s.link.answered))
    && NotesOk(s, start)
  }

  /** Right after the welcome: the player has just logged in. */
  ghost predicate Begins<K>(s: Session<K>) {
    && Ready(s.w) && s.link.me in s.w.players && s.w.players[s.link.me].level == 1
    && F.Opened(s.link) && s.w.rings[s.link.me] == Empty() && s.link.now == s.w.now
    && s.notes == [] && s.reckoning == ORIGIN
  }

  /** A login on a socket of its own, and the welcome, begin a session; the player has nothing yet, and its time starts. */
  lemma LoginBegins<K>(w: World<K>, login: Action<K>, link: Link<K>)
    requires Ready(w) && login.LogsIn? && Enabled(w, login) && OneLoginPerFd(w, login) && login.k in Apply(w, login).players
    requires F.Opened(link) && link.me == login.k && link.now == w.now
    ensures Begins(Session(Apply(w, login), link, [], ORIGIN))
    ensures var p := Apply(w, login).players[login.k];
      && p.inv == NOTHING && p.startTime == w.now && p.dieTime == w.now + w.config.TimeToDie()
      && StanceOf(Apply(w, login), login.k) == Stance(login.x, login.y, login.dir)
  {
    StepKeepsReady(w, login);
    NewcomersLogIn(w, login, login.k);
  }

  lemma BeginsHolds<K>(s: Session<K>)
    requires Begins(s)
    ensures Holds(s, StanceOf(s.w, s.link.me))
  {
    OpenedBalanced(s.link);
    assert s.link.answered + Awaited(s.link.down) == [];
  }

  lemma {:induction false} MovesAllSnoc(width: int, height: int, s: Stance, cs: seq<Command>, c: Command)
    requires InMap(width, height, s.x, s.y)
    ensures MovesAll(width, height, s, cs + [c]) == Moves(width, height, MovesAll(width, height, s, cs), c)
    decreases |cs|
  {
    if cs == [] {
      assert cs + [c] == [c] && [c][1..] == [];
    } else {
      assert (cs + [c])[1..] == cs[1..] + [c];
      MovesAllSnoc(width, height, Moves(width, height, s, cs[0]), cs[1..], c);
    }
  }

  lemma {:induction false} ReckonsAllSnoc(width: int, height: int, p: Reckoning, cs: seq<Command>, c: Command)
    requires ValidReckoning(width, height, p)
    ensures ReckonsAll(width, height, p, cs + [c]) == Reckons(width, height, ReckonsAll(width, height, p, cs), c)
    decreases |cs|
  {
    if cs == [] {
      assert cs + [c] == [c] && [c][1..] == [];
    } else {
      assert (cs + [c])[1..] == cs[1..] + [c];
      ReckonsAllSnoc(width, height, Reckons(width, height, p, cs[0]), cs[1..], c);
    }
  }

  lemma CommandsSnoc(orders: seq<Order>, o: Order)
    ensures Commands(orders + [o]) == Commands(orders) + [o.command]
  {
  }

  // ----- the steps of others -----

  lemma CommandKeepsClock<K>(w: World<K>, k: K, c: Command, arg: Option<Arg>)
    requires Shaped(w) && k in w.players
    ensures Call(w, k, Do(c), arg).now == w.now
  {
  }

  lemma ResolutionKeepsClock<K>(w: World<K>, k: K, level: int)
    requires Shaped(w) && k in w.players
    ensures FinishIncantation(w, k, level).now == w.now
  {
  }

  lemma TurnKeepsClock<K>(w: World<K>, slot: nat)
    requires Shaped(w) && slot < |w.slots| && Defined(w, slot)
    ensures Play(w, slot).now == w.now
  {
    TurnIsDeed(w, slot);
    match DeedOf(w, slot)
    case Runs(_, k, Do(c), arg) => CommandKeepsClock(w, k, c, arg);
    case Runs(_, k, ResolveIncantation, arg) => ResolutionKeepsClock(w, k, LevelOf(arg));
    case _ =>
  }

  lemma ClockGoesOn<K>(w: World<K>, a: Action<K>)
    requires Enabled(w, a)
    ensures w.now <= Apply(w, a).now
  {
    if a.Turn? {
      TurnKeepsClock(w, a.slot);
    }
  }

  /** What others do leaves the buffer and the stance, and reaches the client as strays. */
  lemma OtherServer<K>(w: World<K>, a: Action<K>, k: K)
    requires Ready(w) && Enabled(w, a) && OneLoginPerFd(w, a) && k in w.players && k in Apply(w, a).players
    requires !RunsFor(w, a, k) && (a.Sends? ==> a.fd != w.players[k].fd) && (a.Shoves? ==> a.q != k)
    ensures var w' := Apply(w, a);
      && Ready(w') && w'.width == w.width && w'.height == w.height && w.now <= w'.now
      && w'.rings[k] == w.rings[k] && StanceOf(w', k) == StanceOf(w, k) && Overheard(w, w', k)
  {
    StepKeepsReady(w, a);
    StepRing(w, a, k);
    StepStance(w, a, k);
    OthersTell(w, a, k);
    ClockGoesOn(w, a);
    assert OwnMove(w, a, k).None?;
    assert RingAfter(w, a, k) == w.rings[k];
  }

  /** For the link, others let time pass, and then send the client what it hears. */
  lemma OverhearsInSteps<K>(l: Link<K>, now: int, heard: seq<Response>)
    requires Balanced(l) && l.now <= now && (forall r <- heard :: IsStray(r)) && l.level + LevelUps(Strays(heard)) <= LEVEL_MAX
    ensures F.Can(l, F.Tick(now)) && F.Can(F.Next(l, F.Tick(now)), Intrude(heard))
    ensures Overhears(l, now, heard) == F.Next(F.Next(l, F.Tick(now)), Intrude(heard)) && Balanced(Overhears(l, now, heard))
  {
    StepBalanced(l, F.Tick(now));
    IntrudeBalanced(F.Next(l, F.Tick(now)), heard);
  }

  /** What is heard are strays, and tells the new level. */
  lemma HeardAre<K>(s: Session<K>, w': World<K>)
    requires s.link.me in s.w.players && s.link.me in w'.players && Shaped(w') && Overheard(s.w, w', s.link.me)
    requires s.link.level == s.w.players[s.link.me].level
    ensures forall r <- HeardIn(s, w') :: IsStray(r)
    ensures s.link.level + LevelUps(Strays(HeardIn(s, w'))) == w'.players[s.link.me].level <= LEVEL_MAX
  {
    ToldAreStrays(SaidSince(s.w, w'), s.w.players[s.link.me].fd);
  }

  lemma {:induction false} StraysAnswerNothing(down: seq<Message>)
    requires forall m <- down :: m.Stray?
    ensures Awaited(down) == []
  {
    if down != [] {
      assert down[0] in down;
      AwaitedHead(down);
      StraysAnswerNothing(down[1..]);
    }
  }

  lemma AwaitedBefore(down: seq<Message>, heard: seq<Response>, i: nat)
    requires i <= |heard|
    ensures Awaited(down + Strays(heard)[..i]) == Awaited(down)
  {
    AwaitedAdds(down, Strays(heard)[..i]);
    StraysAnswerNothing(Strays(heard)[..i]);
  }

  lemma NotesHeard<K>(s: Session<K>, s': Session<K>, heard: seq<Response>, start: Stance)
    requires NotesOk(s, start) && s'.link.me == s.link.me && s'.link.answered == s.link.answered
    requires StoodAfter(s.w, s.link.me, start, s.link.answered + Awaited(s.link.down))
    requires s'.link.down == s.link.down + Strays(heard) && s'.notes == s.notes + Copies(s.w, |heard|)
    requires s'.w.width == s.w.width && s'.w.height == s.w.height
    ensures NotesOk(s', start)
  {
    forall j | 0 <= j < |s'.notes|
      ensures NoteOk(s'.notes[j], s.w.width, s.w.height, s.link.me, start,
                     s'.link.answered + Awaited(s'.link.down[..j]), s'.link.down[j])
    {
      if j < |s.notes| {
        assert s'.notes[j] == s.notes[j] && s'.link.down[..j] == s.link.down[..j];
      } else {
        var i := j - |s.notes|;
        assert s'.link.down[..j] == s.link.down + Strays(heard)[..i];
        AwaitedBefore(s.link.down, heard, i);
        assert s'.link.down[j] == Strays(heard)[i];
      }
    }
  }

  lemma OverheardHolds<K>(s: Session<K>, s': Session<K>, heard: seq<Response>, start: Stance)
    requires Holds(s, start) && (forall r <- heard :: IsStray(r))
    requires s'.link.me == s.link.me && s'.link.answered == s.link.answered && s'.link.down == s.link.down + Strays(heard)
    requires Ready(s'.w) && Balanced(s'.link) && s.link.me in s'.w.players
    requires s'.w.rings[s.link.me] == s'.link.ring && s'.link.now == s'.w.now
    requires s'.link.level == s'.w.players[s.link.me].level && s'.w.width == s.w.width && s'.w.height == s.w.height
    requires StanceOf(s'.w, s.link.me) == StanceOf(s.w, s.link.me)
    requires s'.reckoning == s.reckoning && s'.notes == s.notes + Copies(s.w, |heard|)
    ensures Holds(s', start)
  {
    StraysFit(heard, 0);
    AwaitedAdds(s.link.down, Strays(heard));
    assert Awaited(s'.link.down) == Awaited(s.link.down);
    NotesHeard(s, s', heard, start);
  }

  lemma ServerMoves<K>(s: Session<K>, w': World<K>, start: Stance)
    requires Holds(s, start) && Ready(w') && s.link.me in w'.players && w'.width == s.w.width && w'.height == s.w.height
    requires s.w.now <= w'.now && s.link.me in w'.rings && w'.rings[s.link.me] == s.w.rings[s.link.me]
    requires StanceOf(w', s.link.me) == StanceOf(s.w, s.link.me) && Overheard(s.w, w', s.link.me)
    ensures Holds(After(s, w'), start)
  {
    HeardAre(s, w');
    OverhearsInSteps(s.link, w'.now, HeardIn(s, w'));
    OverheardHolds(s, After(s, w'), HeardIn(s, w'), start);
  }

  lemma OtherHolds<K>(s: Session<K>, a: Action<K>, start: Stance)
    requires Holds(s, start) && Can(s, Other(a))
    ensures Holds(Next(s, Other(a)), start)
  {
    OtherServer(s.w, a, s.link.me);
    ServerMoves(s, Apply(s.w, a), start);
  }

  // ----- the arrival of a command -----

  lemma ArrivalServer<K>(w: World<K>, k: K, o: Order)
    requires Ready(w) && k in w.players
    ensures var w' := Execute(w, w.players[k].fd, Some(o.command), ToArg(o.item)).1;
      && Ready(w') && w'.players == w.players && w'.width == w.width && w'.height == w.height && w'.now == w.now
      && w'.rings == w.rings[k := PushBack(w.rings[k], w.now, w.config.Delay(o.command), CallOf(o, k), ToArg(o.item)).1]
  {
    FindsItself(w, k);
    StepKeepsReady(w, Sends(w.players[k].fd, Some(o.command), ToArg(o.item)));
    ArriveIsExecute(w, k, w.players[k].fd, o);
  }

  lemma ArrivedHolds<K>(s: Session<K>, s': Session<K>, start: Stance)
    requires Holds(s, start) && s.link.me == s'.link.me && Balanced(s'.link)
    requires s'.link.answered == s.link.answered && s'.link.down == s.link.down && s'.link.now == s.link.now
    requires s'.link.level == s.link.level && s'.notes == s.notes && s'.reckoning == s.reckoning
    requires Ready(s'.w) && s'.w.players == s.w.players && s'.w.width == s.w.width && s'.w.height == s.w.height
    requires s'.w.now == s.w.now
    requires s.link.me in s'.w.rings && s'.w.rings[s.link.me] == s'.link.ring
    ensures Holds(s', start)
  {
    assert StanceOf(s'.w, s.link.me) == StanceOf(s.w, s.link.me);
    forall j | 0 <= j < |s'.notes|
      ensures NoteOk(s'.notes[j], s.w.width, s.w.height, s.link.me, start,
                     s'.link.answered + Awaited(s'.link.down[..j]), s'.link.down[j])
    {
      assert s'.notes[j] == s.notes[j];
    }
  }

  lemma ArrivesHolds<K>(s: Session<K>, start: Stance)
    requires Holds(s, start) && Can(s, Arrives)
    ensures Holds(Next(s, Arrives), start)
  {
    var l' := F.Next(s.link, Arrive(s.w.config.Delay(s.link.up[0].command)));
    ArrivalServer(s.w, s.link.me, s.link.up[0]);
    ArriveBalanced(s.link, s.w.config.Delay(s.link.up[0].command));
    ArrivedHolds(s, s.(w := Apply(s.w, Arrival(s)), link := l'), start);
  }

  // ----- the execution of a command -----

  /** The turn of a slot that runs one command of its own player. */
  ghost predicate RunsOrder<K>(w: World<K>, slot: nat, k: K, o: Order) {
    && Ready(w) && k in w.players && slot < |w.slots| && Defined(w, slot) && Single(o)
    && DeedOf(w, slot) == Runs(k, k, Do(o.command), ToArg(o.item))
  }

  /** The head of the client's buffer is the next of its orders, and the turn runs it. */
  lemma ExecutesOrder<K>(s: Session<K>, slot: nat, start: Stance)
    requires Holds(s, start) && Can(s, Executes(slot))
    ensures Live(s.link.ring) != [] && RunsOrder(s.w, slot, s.link.me, OrderOf(Live(s.link.ring)[0]))
  {
    var head := Live(s.link.ring)[0];
    assert head in Live(s.link.ring);
  }

  lemma ExecutedIsCall<K>(w: World<K>, slot: nat, k: K, o: Order)
    requires RunsOrder(w, slot, k, o)
    ensures Play(w, slot) == Call(w, k, Do(o.command), ToArg(o.item)).(rings := RunRings(w, k, k, Do(o.command)))
  {
    TurnIsDeed(w, slot);
  }

  lemma ExecutedRings<K>(w: World<K>, slot: nat, k: K, o: Order)
    requires RunsOrder(w, slot, k, o)
    ensures Play(w, slot).rings == w.rings[k := Process(w.rings[k], w.now, Quiet).ring]
    ensures Play(w, slot).now == w.now
  {
    ExecutedIsCall(w, slot, k, o);
    RunIsQuiet(w, k, o);
    CommandKeepsClock(w, k, o.command, ToArg(o.item));
  }

  lemma AnsweredAsFound<K>(w: World<K>, k: K, o: Order)
    requires Shaped(w) && k in w.players && Single(o)
    ensures var r := AnswerOf(o, StatusOf(w, k, o));
      Fits(o, r) && AnsweredIn(w, k, o, r) && (r.Saw? ==> SeenAt(r.view, w.players[k].level))
  {
    if o.command == Command.Voir {
      ViewSize(w, k, w.players[k].level + 1);
    }
  }

  lemma CallFits<K>(w: World<K>, k: K, o: Order)
    requires Shaped(w) && k in w.players && Single(o)
    ensures var r := AnswerOf(o, LastStatus(Call(w, k, Do(o.command), ToArg(o.item))));
      Fits(o, r) && AnsweredIn(w, k, o, r) && (r.Saw? ==> SeenAt(r.view, w.players[k].level))
  {
    AnsweredOnce(w, k, o);
    AnsweredAsFound(w, k, o);
  }

  /** The answer to an order fits it, and a view in it has the size of the player's level. */
  lemma AnswerFits<K>(w: World<K>, slot: nat, k: K, o: Order)
    requires RunsOrder(w, slot, k, o)
    ensures var r := AnswerOf(o, LastStatus(Play(w, slot)));
      Fits(o, r) && AnsweredIn(w, k, o, r) && (r.Saw? ==> SeenAt(r.view, w.players[k].level))
  {
    ExecutedIsCall(w, slot, k, o);
    CallFits(w, k, o);
  }

  lemma ExecutedStance<K>(w: World<K>, slot: nat, k: K, o: Order)
    requires RunsOrder(w, slot, k, o)
    ensures var w' := Play(w, slot);
      && Ready(w') && k in w'.players && w'.width == w.width && w'.height == w.height
      && w'.players[k].level == w.players[k].level
      && StanceOf(w', k) == Moves(w.width, w.height, StanceOf(w, k), o.command)
  {
    StepKeepsReady(w, Turn(slot));
    ExecutedIsCall(w, slot, k, o);
    CommandKeepsLevel(w, k, o.command, ToArg(o.item), k);
    StepStance(w, Turn(slot), k);
  }

  /** One command more was executed. */
  lemma StoodSnoc<K>(w: World<K>, w': World<K>, k: K, start: Stance, done: seq<Order>, o: Order)
    requires StoodAfter(w, k, start, done) && Shaped(w') && k in w'.players && w'.width == w.width && w'.height == w.height
    requires StanceOf(w', k) == Moves(w.width, w.height, StanceOf(w, k), o.command)
    ensures StoodAfter(w', k, start, done + [o])
  {
    CommandsSnoc(done, o);
    MovesAllSnoc(w.width, w.height, start, Commands(done), o.command);
  }

  /** For the link, the server runs the head and answers. */
  lemma ExecutesIsRun<K>(s: Session<K>, slot: nat, start: Stance)
    requires Holds(s, start) && Can(s, Executes(slot))
    ensures var r := AnswerOf(OrderOf(Live(s.link.ring)[0]), LastStatus(Play(s.w, slot)));
      F.Can(s.link, Run(r)) && Next(s, Executes(slot)).link == F.Next(s.link, Run(r))
  {
    ExecutesOrder(s, slot, start);
    AnswerFits(s.w, slot, s.link.me, OrderOf(Live(s.link.ring)[0]));
  }

  /** The session after the server executed order `o`, answered `r` and is at `w`. */
  ghost function Served<K>(s: Session<K>, w: World<K>, o: Order, r: Response): Session<K>
    requires EventRing.Valid(s.link.ring) && IsDue(s.link.ring, s.link.now)
  {
    s.(w := w, notes := s.notes + [s.w],
       link := s.link.(ring := Process(s.link.ring, s.link.now, Quiet).ring, down := s.link.down + [Answer(o, r)]))
  }

  lemma NotesSnoc<K>(s: Session<K>, s': Session<K>, o: Order, r: Response, start: Stance)
    requires NotesOk(s, start) && s'.link.me == s.link.me && s'.link.answered == s.link.answered
    requires StoodAfter(s.w, s.link.me, start, s.link.answered + Awaited(s.link.down)) && AnsweredIn(s.w, s.link.me, o, r)
    requires s'.link.down == s.link.down + [Answer(o, r)] && s'.notes == s.notes + [s.w]
    requires s'.w.width == s.w.width && s'.w.height == s.w.height
    ensures NotesOk(s', start)
  {
    forall j | 0 <= j < |s'.notes|
      ensures NoteOk(s'.notes[j], s.w.width, s.w.height, s.link.me, start,
                     s'.link.answered + Awaited(s'.link.down[..j]), s'.link.down[j])
    {
      if j < |s.notes| {
        assert s'.notes[j] == s.notes[j] && s'.link.down[..j] == s.link.down[..j];
      } else {
        assert s'.link.down[..j] == s.link.down;
      }
    }
  }

  lemma ServerRuns<K>(s: Session<K>, w': World<K>, o: Order, r: Response, start: Stance)
    requires Holds(s, start) && EventRing.Valid(s.link.ring) && Live(s.link.ring) != [] && o == OrderOf(Live(s.link.ring)[0])
    requires F.Can(s.link, Run(r)) && AnsweredIn(s.w, s.link.me, o, r)
    requires Ready(w') && s.link.me in w'.players && w'.width == s.w.width && w'.height == s.w.height && w'.now == s.w.now
    requires w'.players[s.link.me].level == s.w.players[s.link.me].level
    requires w'.rings == s.w.rings[s.link.me := Process(s.w.rings[s.link.me], s.w.now, Quiet).ring]
    requires StanceOf(w', s.link.me) == Moves(s.w.width, s.w.height, StanceOf(s.w, s.link.me), o.command)
    ensures Holds(Served(s, w', o, r), start)
  {
    var s' := Served(s, w', o, r);
    StepBalanced(s.link, Run(r));
    assert s'.link == F.Next(s.link, Run(r));
    RunKeepsLine(s.link, r);
    var done := s.link.answered + Awaited(s.link.down);
    Regroup(s.link.answered, Awaited(s.link.down), [o]);
    StoodSnoc(s.w, w', s.link.me, start, done, o);
    NotesSnoc(s, s', o, r, start);
  }

  lemma ExecutesHolds<K>(s: Session<K>, slot: nat, start: Stance)
    requires Holds(s, start) && Can(s, Executes(slot))
    ensures Holds(Next(s, Executes(slot)), start)
  {
    var k, o := s.link.me, OrderOf(Live(s.link.ring)[0]);
    ExecutesOrder(s, slot, start);
    AnswerFits(s.w, slot, k, o);
    ExecutesIsRun(s, slot, start);
    ExecutedRings(s.w, slot, k, o);
    ExecutedStance(s.w, slot, k, o);
    ServerRuns(s, Play(s.w, slot), o, AnswerOf(o, LastStatus(Play(s.w, slot))), start);
  }

  // ----- the handling of a message -----

  ghost function AnsweredBy(m: Message): seq<Order> {
    if m.Answer? then [m.order] else []
  }

  lemma OnlyMovesMove(width: int, height: int, p: Reckoning, c: Command)
    requires ValidReckoning(width, height, p) && !IsMove(c)
    ensures Reckons(width, height, p, c) == p
  {
  }

  lemma MessageReckoned(width: int, height: int, answered: seq<Order>, m: Message)
    requires width > 0 && height > 0
    requires m.Stray? ==> IsStray(m.content)
    requires m.Answer? ==> Fits(m.order, m.content) && (IsMove(m.order.command) ==> m.content == Moved(m.order.command, true))
    ensures var p := ReckonsAll(width, height, ORIGIN, Commands(answered));
      && ValidReckoning(width, height, p)
      && Reckoned(width, height, p, m.content) == ReckonsAll(width, height, ORIGIN, Commands(answered + AnsweredBy(m)))
  {
    var p := ReckonsAll(width, height, ORIGIN, Commands(answered));
    if m.Answer? {
      CommandsSnoc(answered, m.order);
      ReckonsAllSnoc(width, height, ORIGIN, Commands(answered), m.order.command);
      if !IsMove(m.order.command) {
        OnlyMovesMove(width, height, p, m.order.command);
      }
    } else {
      assert answered + [] == answered;
    }
  }

  /** The answer to a move moves the reckoning; nothing else does. */
  lemma HandledReckoning<K>(s: Session<K>, start: Stance)
    requires Holds(s, start) && s.link.down != []
    ensures ValidReckoning(s.w.width, s.w.height, s.reckoning)
    ensures Reckoned(s.w.width, s.w.height, s.reckoning, s.link.down[0].content)
         == ReckonsAll(s.w.width, s.w.height, ORIGIN, Commands(s.link.answered + AnsweredBy(s.link.down[0])))
  {
    var width, height, m := s.w.width, s.w.height, s.link.down[0];
    assert NoteOk(s.notes[0], width, height, s.link.me, start, s.link.answered + Awaited(s.link.down[..0]), m);
    MessageReckoned(width, height, s.link.answered, m);
  }

  /** Orders whose answers are handled and orders whose answers are on their way, before and after one is handled. */
  lemma AwaitedShifts(answered: seq<Order>, down: seq<Message>)
    requires down != []
    ensures (answered + AnsweredBy(down[0])) + Awaited(down[1..]) == answered + Awaited(down)
  {
    AwaitedHead(down);
    if down[0].Answer? {
      Regroup(answered, [down[0].order], Awaited(down[1..]));
    } else {
      assert answered + [] == answered;
    }
  }

  lemma NotesTail<K>(s: Session<K>, s': Session<K>, start: Stance)
    requires NotesOk(s, start) && s.link.down != [] && s'.w == s.w && s'.link.me == s.link.me
    requires s'.link.down == s.link.down[1..] && s'.notes == s.notes[1..]
    requires s'.link.answered == s.link.answered + AnsweredBy(s.link.down[0])
    ensures NotesOk(s', start)
  {
    forall j | 0 <= j < |s'.notes|
      ensures NoteOk(s'.notes[j], s.w.width, s.w.height, s.link.me, start,
                     s'.link.answered + Awaited(s'.link.down[..j]), s'.link.down[j])
    {
      assert s'.notes[j] == s.notes[j + 1] && s'.link.down[j] == s.link.down[j + 1];
      var before := s.link.down[..j + 1];
      assert before[1..] == s'.link.down[..j] && before[0] == s.link.down[0];
      AwaitedShifts(s.link.answered, before);
    }
  }

  lemma HandledHolds<K>(s: Session<K>, s': Session<K>, start: Stance)
    requires Holds(s, start) && s.link.down != [] && s'.w == s.w
    requires Balanced(s'.link) && s'.link.me == s.link.me && s'.link.ring == s.link.ring && s'.link.now == s.link.now
    requires s'.link.level == s.link.level && s'.link.down == s.link.down[1..] && s'.notes == s.notes[1..]
    requires s'.link.answered == s.link.answered + AnsweredBy(s.link.down[0])
    requires s'.reckoning == ReckonsAll(s.w.width, s.w.height, ORIGIN, Commands(s'.link.answered))
    ensures Holds(s', start)
  {
    AwaitedShifts(s.link.answered, s.link.down);
    NotesTail(s, s', start);
  }

  lemma HandlesHolds<K>(s: Session<K>, roll: Command, start: Stance)
    requires Holds(s, start) && Can(s, Handles(roll))
    ensures Holds(Next(s, Handles(roll)), start)
  {
    HandleBalanced(s.link, roll);
    assert s.link.down[..0] == [] && s.notes[0] == s.notes[0];
    HandledReckoning(s, start);
    HandledHolds(s, Next(s, Handles(roll)), start);
  }

  // ----- any step -----

  /** Every step of server, channels and client keeps where the player stood when it was answered, and what its client reckons. */
  lemma StepHolds<K>(s: Session<K>, e: Move<K>, start: Stance)
    requires Holds(s, start) && Can(s, e)
    ensures Holds(Next(s, e), start)
  {
    match e
    case Other(a) => OtherHolds(s, a, start);
    case Arrives => ArrivesHolds(s, start);
    case Executes(slot) => ExecutesHolds(s, slot, start);
    case Handles(roll) => HandlesHolds(s, roll, start);
  }

  // ----- whole sessions -----

  ghost predicate CanRunAll<K>(s: Session<K>, es: seq<Move<K>>)
    decreases |es|
  {
    es == [] || (Can(s, es[0]) && CanRunAll(Next(s, es[0]), es[1..]))
  }

  ghost function RunSession<K>(s: Session<K>, es: seq<Move<K>>): Session<K>
    requires CanRunAll(s, es)
    decreases |es|
  {
    if es == [] then s else RunSession(Next(s, es[0]), es[1..])
  }

  lemma {:induction false} RunHolds<K>(s: Session<K>, es: seq<Move<K>>, start: Stance)
    requires Holds(s, start) && CanRunAll(s, es)
    ensures Holds(RunSession(s, es), start)
    decreases |es|
  {
    if es != [] {
      StepHolds(s, es[0], start);
      RunHolds(Next(s, es[0]), es[1..], start);
    }
  }

  /** The message at hand is the answer to a look. */
  ghost predicate AboutToSee<K>(s: Session<K>) {
    s.link.down != [] && s.link.down[0].Answer? && s.link.down[0].order.command == Command.Voir && s.notes != []
  }

  /**
   The message is the view at `w`; the player stood then where `c` reckons it from `start`, and every
   entry the client files, as far as its own level goes, is filed under the cell of its tile.
   */
  ghost predicate FiledFor<K>(w: World<K>, k: K, start: Stance, c: Reckoning, m: Message, level: nat) {
    && Shaped(w) && k in w.players && 0 <= c.dir < 4
    && Aligned(w.width, w.height, start, StanceOf(w, k), c)
    && m.content == Saw(Sees(w, k))
    && forall j | 0 <= j < |Sees(w, k)| && j < |Offsets(level + 1)| ::
         FiledRight(w, k, start, c, Offsets(level + 1)[j], Sees(w, k)[j])
  }

  /** The offsets of a level are the first of those of a higher one. */
  lemma OffsetsGrow(n: nat, m: nat, j: nat)
    requires n <= m && j < |Offsets(n)|
    ensures j < |Offsets(m)| && Offsets(n)[j] == Offsets(m)[j]
  {
    OffsetsSize(n);
    var d, i := RowOfPlace(n, j);
    OffsetsAt(n, d, i);
    OffsetsAt(m, d, i);
  }

  lemma SameOffset(n: nat, m: nat, j: nat)
    requires j < |Offsets(n)| && j < |Offsets(m)|
    ensures Offsets(n)[j] == Offsets(m)[j]
  {
    if n <= m {
      OffsetsGrow(n, m, j);
    } else {
      OffsetsGrow(m, n, j);
    }
  }

  lemma EntryIsFiled<K>(w: World<K>, k: K, start: Stance, c: Reckoning, level: nat, j: nat)
    requires Shaped(w) && k in w.players && 0 <= c.dir < 4
    requires AxesFit(w.width, w.height, start.dir) && Aligned(w.width, w.height, start, StanceOf(w, k), c)
    requires j < |Sees(w, k)| && j < |Offsets(level + 1)|
    ensures FiledRight(w, k, start, c, Offsets(level + 1)[j], Sees(w, k)[j])
  {
    var n := w.players[k].level + 1;
    ViewSize(w, k, n);
    SameOffset(level + 1, n, j);
    EntryIsFiledRight(w, k, start, c, n, j, Offsets(level + 1)[j]);
  }

  lemma EntriesAreFiled<K>(w: World<K>, k: K, start: Stance, c: Reckoning, level: nat)
    requires Shaped(w) && k in w.players && 0 <= c.dir < 4
    requires AxesFit(w.width, w.height, start.dir) && Aligned(w.width, w.height, start, StanceOf(w, k), c)
    ensures forall j | 0 <= j < |Sees(w, k)| && j < |Offsets(level + 1)| ::
      FiledRight(w, k, start, c, Offsets(level + 1)[j], Sees(w, k)[j])
  {
    forall j | 0 <= j < |Sees(w, k)| && j < |Offsets(level + 1)|
      ensures FiledRight(w, k, start, c, Offsets(level + 1)[j], Sees(w, k)[j])
    {
      EntryIsFiled(w, k, start, c, level, j);
    }
  }

  lemma LookIsFiledRight<K>(s: Session<K>, start: Stance)
    requires Holds(s, start) && AboutToSee(s) && AxesFit(s.w.width, s.w.height, start.dir)
    ensures FiledFor(s.notes[0], s.link.me, start, s.reckoning, s.link.down[0], s.link.driver.self.level)
  {
    var k, w, c := s.link.me, s.notes[0], s.reckoning;
    assert s.link.answered + Awaited(s.link.down[..0]) == s.link.answered;
    assert NoteOk(w, s.w.width, s.w.height, k, start, s.link.answered + Awaited(s.link.down[..0]), s.link.down[0]);
    StartAligned(w.width, w.height, start);
    RunAligned(w.width, w.height, start, start, ORIGIN, Commands(s.link.answered));
    EntriesAreFiled(w, k, start, c, s.link.driver.self.level);
  }

  lemma QueueingKeepsMap<K>(w: World<K>, fd: int, c: Option<Command>, arg: Option<Arg>)
    requires Shaped(w)
    ensures Execute(w, fd, c, arg).1.width == w.width && Execute(w, fd, c, arg).1.height == w.height
  {
  }

  lemma ArrivesKeepsMap<K>(s: Session<K>, start: Stance)
    requires Holds(s, start) && Can(s, Arrives)
    ensures Next(s, Arrives).w.width == s.w.width && Next(s, Arrives).w.height == s.w.height
    ensures Next(s, Arrives).link.me == s.link.me
  {
    QueueingKeepsMap(s.w, s.w.players[s.link.me].fd, Some(s.link.up[0].command), ToArg(s.link.up[0].item));
  }

  lemma OtherKeepsMap<K>(s: Session<K>, a: Action<K>, start: Stance)
    requires Holds(s, start) && Can(s, Other(a))
    ensures Next(s, Other(a)).w.width == s.w.width && Next(s, Other(a)).w.height == s.w.height
    ensures Next(s, Other(a)).link.me == s.link.me
  {
    OtherServer(s.w, a, s.link.me);
  }

  lemma ExecutesKeepsMap<K>(s: Session<K>, slot: nat, start: Stance)
    requires Holds(s, start) && Can(s, Executes(slot))
    ensures Next(s, Executes(slot)).w.width == s.w.width && Next(s, Executes(slot)).w.height == s.w.height
    ensures Next(s, Executes(slot)).link.me == s.link.me
  {
    ExecutesOrder(s, slot, start);
    ExecutedStance(s.w, slot, s.link.me, OrderOf(Live(s.link.ring)[0]));
  }

  lemma StepKeepsMap<K>(s: Session<K>, e: Move<K>, start: Stance)
    requires Holds(s, start) && Can(s, e)
    ensures Next(s, e).w.width == s.w.width && Next(s, e).w.height == s.w.height && Next(s, e).link.me == s.link.me
  {
    match e
    case Other(a) => OtherKeepsMap(s, a, start);
    case Arrives => ArrivesKeepsMap(s, start);
    case Executes(slot) => ExecutesKeepsMap(s, slot, start);
    case Handles(_) =>
  }

  /** The map has the same size, and the client is the same player's, all along. */
  lemma {:induction false} RunKeepsMap<K>(s: Session<K>, es: seq<Move<K>>, start: Stance)
    requires Holds(s, start) && CanRunAll(s, es)
    ensures var r := RunSession(s, es);
      r.w.width == s.w.width && r.w.height == s.w.height && r.link.me == s.link.me
    decreases |es|
  {
    if es != [] {
      StepHolds(s, es[0], start);
      StepKeepsMap(s, es[0], start);
      RunKeepsMap(Next(s, es[0]), es[1..], start);
    }
  }

  /**
   In any session from the welcome on, with any interleaving of everyone else, level-ups and
   broadcasts included: whenever the client comes to handle the answer to a look, that answer is the
   view of a moment at which the player stood exactly where the client now reckons it.
   */
  lemma LooksAreFiledRight<K>(s: Session<K>, es: seq<Move<K>>)
    requires Begins(s) && CanRunAll(s, es) && AboutToSee(RunSession(s, es))
    requires AxesFit(s.w.width, s.w.height, s.w.players[s.link.me].dir)
    ensures var r := RunSession(s, es);
      FiledFor(r.notes[0], s.link.me, StanceOf(s.w, s.link.me), r.reckoning, r.link.down[0], r.link.driver.self.level)
  {
    var start := StanceOf(s.w, s.link.me);
    BeginsHolds(s);
    RunHolds(s, es, start);
    RunKeepsMap(s, es, start);
    LookIsFiledRight(RunSession(s, es), start);
  }

  // ----- sessions are runs of the flow -----

  lemma ServerMoveIsLinkRun<K>(s: Session<K>, w': World<K>, start: Stance) returns (steps: seq<F.Step>)
    requires Holds(s, start) && Shaped(w') && s.link.me in w'.players && s.w.now <= w'.now && Overheard(s.w, w', s.link.me)
    ensures F.CanRun(s.link, steps) && F.RunAll(s.link, steps) == After(s, w').link
  {
    var heard := HeardIn(s, w');
    HeardAre(s, w');
    OverhearsInSteps(s.link, w'.now, heard);
    OneStep(s.link, F.Tick(w'.now));
    OneStep(F.Next(s.link, F.Tick(w'.now)), Intrude(heard));
    RunJoins(s.link, [F.Tick(w'.now)], [Intrude(heard)]);
    steps := [F.Tick(w'.now)] + [Intrude(heard)];
  }

  lemma OtherIsLinkRun<K>(s: Session<K>, a: Action<K>, start: Stance) returns (steps: seq<F.Step>)
    requires Holds(s, start) && Can(s, Other(a))
    ensures F.CanRun(s.link, steps) && F.RunAll(s.link, steps) == Next(s, Other(a)).link
  {
    var w' := Apply(s.w, a);
    OtherServer(s.w, a, s.link.me);
    steps := ServerMoveIsLinkRun(s, w', start);
  }

  /** A step of a session is one or two steps of the link. */
  lemma StepIsLinkRun<K>(s: Session<K>, e: Move<K>, start: Stance) returns (steps: seq<F.Step>)
    requires Holds(s, start) && Can(s, e)
    ensures F.CanRun(s.link, steps) && F.RunAll(s.link, steps) == Next(s, e).link
  {
    match e
    case Other(a) => steps := OtherIsLinkRun(s, a, start);
    case Arrives =>
      steps := [Arrive(s.w.config.Delay(s.link.up[0].command))];
      OneStep(s.link, steps[0]);
    case Executes(slot) =>
      ExecutesIsRun(s, slot, start);
      steps := [Run(AnswerOf(OrderOf(Live(s.link.ring)[0]), LastStatus(Play(s.w, slot))))];
      OneStep(s.link, steps[0]);
    case Handles(roll) =>
      steps := [Handle(roll)];
      OneStep(s.link, steps[0]);
  }

  /** So what is proved of every run of the flow is true of every session. */
  lemma {:induction false} SessionIsLinkRun<K>(s: Session<K>, es: seq<Move<K>>, start: Stance) returns (steps: seq<F.Step>)
    requires Holds(s, start) && CanRunAll(s, es)
    ensures F.CanRun(s.link, steps) && F.RunAll(s.link, steps) == RunSession(s, es).link
    decreases |es|
  {
    if es == [] {
      steps := [];
    } else {
      StepHolds(s, es[0], start);
      var first := StepIsLinkRun(s, es[0], start);
      var rest := SessionIsLinkRun(Next(s, es[0]), es[1..], start);
      RunJoins(s.link, first, rest);
      steps := first + rest;
    }
  }

  /**
   In any session from the welcome on, before the client took a message for an answer: while its AI
   has a rule, something is on its way, and the server refuses nothing; else it flows, or has stalled.
   */
  lemma SessionsFlow<K>(s: Session<K>, es: seq<Move<K>>)
    requires Begins(s) && CanRunAll(s, es) && RunSession(s, es).link.strays == 0
    ensures var l := RunSession(s, es).link;
      && (Flowing(l) || (Stalled(l) && RulesOut(l))) && l.lost == 0
      && (!RulesOut(l) ==> Flowing(l) && |Line(l)| == l.driver.window.pending >= 1)
  {
    BeginsHolds(s);
    var steps := SessionIsLinkRun(s, es, StanceOf(s.w, s.link.me));
    StallsExactlyWhen(s.link, steps);
  }
}

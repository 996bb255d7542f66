/**
 Whole runs of one event buffer: who owns the heap-allocated arguments, and how late a
 queued event may be stamped.
 */
module RingRuns {
  import opened Wrappers
  import opened EventRing

  ghost function OfArg<A>(arg: Option<A>): multiset<A> {
    if arg.Some? then multiset{arg.value} else multiset{}
  }

  /** The arguments held by a sequence of slots, each counted as often as it occurs. */
  ghost function Args<J, A>(q: seq<Event<J, A>>): multiset<A> {
    if q == [] then multiset{} else OfArg(q[0].arg) + Args(q[1..])
  }

  lemma {:induction false} ArgsOfConcat<J, A>(p: seq<Event<J, A>>, q: seq<Event<J, A>>)
    ensures Args(p + q) == Args(p) + Args(q)
  {
    if p == [] {
      assert p + q == q;
    } else {
      assert (p + q)[1..] == p[1..] + q;
      ArgsOfConcat(p[1..], q);
    }
  }

  lemma {:induction false} ArgsOfClean<J, A>(q: seq<Event<J, A>>)
    requires forall e <- q :: e.arg.None?
    ensures Args(q) == multiset{}
  {
    if q != [] {
      ArgsOfClean(q[1..]);
    }
  }

  ghost predicate DeadClean<J, A>(r: Ring<J, A>)
    requires Valid(r)
  {
    forall e <- Dead(r) :: e.arg.None?
  }

  ghost predicate DeadPast<J, A>(r: Ring<J, A>, now: int)
    requires Valid(r)
  {
    forall e <- Dead(r) :: e.time <= now
  }

  // ----- the history of one buffer -----

  /**
   A buffer with its history. `due[i]` is, for the i-th queued event, the time it was scheduled
   at plus its delay. `taken`, `freed` and `leaked` count the arguments handed to the buffer,
   released by it, and dropped without being released.
   */
  datatype Log<J, A> = Log(ring: Ring<J, A>, now: int, due: seq<int>,
                           taken: multiset<A>, freed: multiset<A>, leaked: multiset<A>)

  datatype Op<J, A> =
    | Advance(to: int)
    | Schedule(delay: nat, call: Option<J>, arg: Option<A>)
    | Pump(reaction: Reaction<J, A>)

  /** The clock is monotone. */
  ghost predicate Enabled<J, A>(s: Log<J, A>, op: Op<J, A>) {
    match op
    case Advance(to) => s.now <= to
    case Schedule(_, _, _) => true
    case Pump(_) => true
  }

  /** A NULL callback cannot react. */
  ghost function Effective<J, A>(r: Ring<J, A>, reaction: Reaction<J, A>): Reaction<J, A>
    requires Valid(r) && r.count > 0
  {
    if Live(r)[0].call.Some? then reaction else Quiet
  }

  ghost function Step<J, A>(s: Log<J, A>, op: Op<J, A>): Log<J, A>
    requires Valid(s.ring) && |s.due| == s.ring.count
  {
    match op
    case Advance(to) => s.(now := to)
    case Schedule(delay, call, arg) =>
      var (ok, ring) := PushBack(s.ring, s.now, delay, call, arg);
      if ok then s.(ring := ring, due := s.due + [s.now + delay], taken := s.taken + OfArg(arg))
      else s.(taken := s.taken + OfArg(arg), leaked := s.leaked + OfArg(arg))
    case Pump(reaction) =>
      var p := Process(s.ring, s.now, reaction);
      if p.ran.None? then s
      else
        match Effective(s.ring, reaction)
        case Quiet =>
          s.(ring := p.ring, due := s.due[1..], freed := s.freed + OfArg(p.freed))
        case PushesFront(delay, _, arg) =>
          s.(ring := p.ring, due := [s.now + delay] + s.due[1..], taken := s.taken + OfArg(arg),
             freed := s.freed + OfArg(p.freed), leaked := s.leaked + OfArg(p.ran.value.arg))
        case PushesBack(delay, _, arg) =>
          s.(ring := p.ring, due := s.due[1..] + [s.now + delay], taken := s.taken + OfArg(arg),
             freed := s.freed + OfArg(p.freed),
             leaked := s.leaked + if s.ring.count == MAX_EVENTS then OfArg(p.ran.value.arg) else multiset{})
  }

  ghost predicate Timely<J, A>(s: Log<J, A>) {
    && Valid(s.ring)
    && |s.due| == s.ring.count
    && (forall i | 0 <= i < |s.due| :: Live(s.ring)[i].time <= s.due[i])
    && DeadPast(s.ring, s.now)
  }

  ghost predicate Accounted<J, A>(s: Log<J, A>) {
    && Valid(s.ring)
    && DeadClean(s.ring)
    && s.taken == Args(Live(s.ring)) + s.freed + s.leaked
  }

  lemma FrontKeepsTimely<J, A>(s: Log<J, A>, delay: nat, call: Option<J>, arg: Option<A>)
    requires Timely(s) && IsDue(s.ring, s.now) && Live(s.ring)[0].call.Some?
    ensures Timely(Step(s, Pump(PushesFront(delay, call, arg))))
  {
    FrontPass(s.ring, s.now, delay, call, arg);
  }

  /** Popping makes the head slot dead, and only that one. */
  lemma PoppedDead<J, A>(r: Ring<J, A>)
    requires Valid(r) && r.count > 0
    ensures Dead(Popped(r)) == Dead(r) + [Live(r)[0]]
  {
  }

  /**
   A back push stamps from the free slot at the tail, so it may stamp too early but never later
   than the delay that was asked for.
   */
  lemma StampWithinDelay<J, A>(r: Ring<J, A>, now: int, delay: nat)
    requires Valid(r) && DeadPast(r, now) && r.count < MAX_EVENTS
    ensures Stamp(r, now, delay) <= now + delay
  {
    assert Dead(r)[0] == r.slots[r.tail];
  }

  lemma BackKeepsTimely<J, A>(s: Log<J, A>, delay: nat, call: Option<J>, arg: Option<A>)
    requires Timely(s) && IsDue(s.ring, s.now) && Live(s.ring)[0].call.Some?
    ensures Timely(Step(s, Pump(PushesBack(delay, call, arg))))
  {
    PoppedDead(s.ring);
    StampWithinDelay(Popped(s.ring), s.now, delay);
    if s.ring.count < MAX_EVENTS {
      BackPass(s.ring, s.now, delay, call, arg);
    } else {
      FullBackPass(s.ring, s.now, delay, call, arg);
    }
  }

  lemma PumpKeepsTimely<J, A>(s: Log<J, A>, reaction: Reaction<J, A>)
    requires Timely(s) && Enabled(s, Pump(reaction)) && IsDue(s.ring, s.now)
    ensures Timely(Step(s, Pump(reaction)))
  {
    match Effective(s.ring, reaction)
    case Quiet =>
      QuietPass(s.ring, s.now, reaction);
    case PushesFront(delay, call, arg) =>
      FrontKeepsTimely(s, delay, call, arg);
    case PushesBack(delay, call, arg) =>
      BackKeepsTimely(s, delay, call, arg);
  }

  lemma StepKeepsTimely<J, A>(s: Log<J, A>, op: Op<J, A>)
    requires Timely(s) && Enabled(s, op)
    ensures Timely(Step(s, op))
  {
    match op
    case Advance(to) =>
    case Schedule(delay, call, arg) =>
      PushBackAppends(s.ring, s.now, delay, call, arg);
      if s.ring.count < MAX_EVENTS {
        StampWithinDelay(s.ring, s.now, delay);
      }
    case Pump(reaction) =>
      if IsDue(s.ring, s.now) {
        PumpKeepsTimely(s, reaction);
      }
  }

  /** The stamp is the promised `now + delay` exactly when the queue is empty or the free slot was popped just now. */
  lemma StampExactWhen<J, A>(r: Ring<J, A>, now: int, delay: nat)
    requires Valid(r) && r.count < MAX_EVENTS
    ensures PushBack(r, now, delay, None, None).0
    ensures var q := Live(PushBack(r, now, delay, None, None).1);
      q[|q| - 1].time == now + delay <==> Live(r) == [] || Dead(r)[0].time == now
  {
    PushBackAppends(r, now, delay, None, None);
    assert Dead(r)[0] == r.slots[r.tail];
  }

  /** Two commands scheduled in a row on a fresh buffer at time 100: the second is stamped 7. */
  lemma StampsNeedNotIncrease(job: nat)
    ensures var r1 := PushBack(Empty<nat, nat>(), 100, 7, Some(job), None).1;
      var r2 := PushBack(r1, 100, 7, Some(job), None).1;
      && Valid(r2) && |Live(r2)| == 2
      && Live(r2)[0].time == 107 && Live(r2)[1].time == 7
  {
    var r1 := PushBack(Empty<nat, nat>(), 100, 7, Some(job), None).1;
    PushBackAppends(Empty<nat, nat>(), 100, 7, Some(job), None);
    PushBackAppends(r1, 100, 7, Some(job), None);
  }

  lemma ArgsSplitHead<J, A>(q: seq<Event<J, A>>)
    requires q != []
    ensures Args(q) == OfArg(q[0].arg) + Args(q[1..])
  {
  }

  lemma QuietKeepsAccounted<J, A>(s: Log<J, A>, reaction: Reaction<J, A>)
    requires Accounted(s) && |s.due| == s.ring.count && IsDue(s.ring, s.now)
    requires Effective(s.ring, reaction).Quiet?
    ensures Accounted(Step(s, Pump(reaction)))
  {
    QuietPass(s.ring, s.now, reaction);
    ArgsSplitHead(Live(s.ring));
  }

  lemma FrontKeepsAccounted<J, A>(s: Log<J, A>, delay: nat, call: Option<J>, arg: Option<A>)
    requires Accounted(s) && |s.due| == s.ring.count && IsDue(s.ring, s.now) && Live(s.ring)[0].call.Some?
    ensures Accounted(Step(s, Pump(PushesFront(delay, call, arg))))
  {
    FrontPass(s.ring, s.now, delay, call, arg);
    ArgsSplitHead(Live(s.ring));
    var e := Event(s.now + delay, call, arg);
    assert ([e] + Live(s.ring)[1..])[1..] == Live(s.ring)[1..];
    ArgsSplitHead([e] + Live(s.ring)[1..]);
  }

  lemma CleanAfterPass<J, A>(dead: seq<Event<J, A>>, spent: Event<J, A>)
    requires dead != [] && spent.arg.None? && forall e <- dead :: e.arg.None?
    ensures forall e <- dead[1..] + [spent] :: e.arg.None?
  {
  }

  lemma ArgsOfAppend<J, A>(q: seq<Event<J, A>>, e: Event<J, A>)
    ensures Args(q + [e]) == Args(q) + OfArg(e.arg)
  {
    ArgsOfConcat(q, [e]);
    ArgsSplitHead([e]);
  }

  /** What a pass with a push to the back does to the arguments queued: one comes, one is freed. */
  lemma BackArgs<J, A>(r: Ring<J, A>, now: int, delay: nat, call: Option<J>, arg: Option<A>)
    requires Valid(r) && DeadClean(r) && IsDue(r, now) && Live(r)[0].call.Some? && |Live(r)| < MAX_EVENTS
    ensures var p := Process(r, now, PushesBack(delay, call, arg));
      && Valid(p.ring) && DeadClean(p.ring)
      && Args(Live(p.ring)) + OfArg(p.freed) == Args(Live(r)) + OfArg(arg)
  {
    var q, e := Live(r), Event(Stamp(Popped(r), now, delay), call, arg);
    BackPass(r, now, delay, call, arg);
    CleanAfterPass(Dead(r), q[0].(arg := None));
    ArgsSplitHead(q);
    ArgsOfAppend(q[1..], e);
  }

  lemma BackStep<J, A>(s: Log<J, A>, delay: nat, call: Option<J>, arg: Option<A>)
    requires |s.due| == s.ring.count < MAX_EVENTS && EventRing.Valid(s.ring) && IsDue(s.ring, s.now)
    requires Live(s.ring)[0].call.Some?
    ensures var p, s' := Process(s.ring, s.now, PushesBack(delay, call, arg)), Step(s, Pump(PushesBack(delay, call, arg)));
      && s'.ring == p.ring && s'.taken == s.taken + OfArg(arg)
      && s'.freed == s.freed + OfArg(p.freed) && s'.leaked == s.leaked
  {
  }

  /** One argument in, one out: the accounts still balance. */
  lemma Balance<A>(queued: multiset<A>, after: multiset<A>, pushed: multiset<A>, freeing: multiset<A>,
                   freed: multiset<A>, leaked: multiset<A>)
    requires after + freeing == queued + pushed
    ensures (queued + freed + leaked) + pushed == after + (freed + freeing) + leaked
  {
    assert (queued + freed + leaked) + pushed == (queued + pushed) + (freed + leaked);
  }

  lemma StillAccounted<J, A>(s: Log<J, A>, s': Log<J, A>, pushed: multiset<A>, freeing: multiset<A>)
    requires Accounted(s) && EventRing.Valid(s'.ring) && DeadClean(s'.ring)
    requires Args(Live(s'.ring)) + freeing == Args(Live(s.ring)) + pushed
    requires s'.taken == s.taken + pushed && s'.freed == s.freed + freeing && s'.leaked == s.leaked
    ensures Accounted(s')
  {
    Balance(Args(Live(s.ring)), Args(Live(s'.ring)), pushed, freeing, s.freed, s.leaked);
  }

  lemma BackKeepsAccounted<J, A>(s: Log<J, A>, delay: nat, call: Option<J>, arg: Option<A>)
    requires Accounted(s) && |s.due| == s.ring.count < MAX_EVENTS && IsDue(s.ring, s.now)
    requires Live(s.ring)[0].call.Some?
    ensures Accounted(Step(s, Pump(PushesBack(delay, call, arg))))
  {
    BackStep(s, delay, call, arg);
    BackArgs(s.ring, s.now, delay, call, arg);
    StillAccounted(s, Step(s, Pump(PushesBack(delay, call, arg))), OfArg(arg),
                   OfArg(Process(s.ring, s.now, PushesBack(delay, call, arg)).freed));
  }

  /** On a full buffer the event pushed loses its argument, and the one that ran drops its own. */
  lemma FullBackKeepsAccounted<J, A>(s: Log<J, A>, delay: nat, call: Option<J>, arg: Option<A>)
    requires Accounted(s) && |s.due| == s.ring.count == MAX_EVENTS && IsDue(s.ring, s.now)
    requires Live(s.ring)[0].call.Some?
    ensures Accounted(Step(s, Pump(PushesBack(delay, call, arg))))
  {
    var q, e := Live(s.ring), Event(Stamp(Popped(s.ring), s.now, delay), call, None);
    FullBackPass(s.ring, s.now, delay, call, arg);
    assert Dead(Process(s.ring, s.now, PushesBack(delay, call, arg)).ring) == [];
    ArgsSplitHead(q);
    ArgsOfAppend(q[1..], e);
  }

  lemma PumpKeepsAccounted<J, A>(s: Log<J, A>, reaction: Reaction<J, A>)
    requires Accounted(s) && |s.due| == s.ring.count && Enabled(s, Pump(reaction)) && IsDue(s.ring, s.now)
    ensures Accounted(Step(s, Pump(reaction)))
  {
    match Effective(s.ring, reaction)
    case Quiet =>
      QuietKeepsAccounted(s, reaction);
    case PushesFront(delay, call, arg) =>
      FrontKeepsAccounted(s, delay, call, arg);
    case PushesBack(delay, call, arg) =>
      if s.ring.count < MAX_EVENTS {
        BackKeepsAccounted(s, delay, call, arg);
      } else {
        FullBackKeepsAccounted(s, delay, call, arg);
      }
  }

  lemma StepKeepsAccounted<J, A>(s: Log<J, A>, op: Op<J, A>)
    requires Accounted(s) && |s.due| == s.ring.count && Enabled(s, op)
    ensures Accounted(Step(s, op))
  {
    match op
    case Advance(to) =>
    case Schedule(delay, call, arg) =>
      PushBackAppends(s.ring, s.now, delay, call, arg);
      ArgsOfConcat(Live(s.ring), [Event(Stamp(s.ring, s.now, delay), call, arg)]);
      assert Args([Event(Stamp(s.ring, s.now, delay), call, arg)]) == OfArg(arg);
    case Pump(reaction) =>
      if IsDue(s.ring, s.now) {
        PumpKeepsAccounted(s, reaction);
      }
  }

  ghost predicate RunEnabled<J, A>(s: Log<J, A>, ops: seq<Op<J, A>>)
    requires Timely(s) && Accounted(s)
    decreases ops
  {
    ops == [] ||
    (&& Enabled(s, ops[0])
     && (StepKeepsTimely(s, ops[0]); StepKeepsAccounted(s, ops[0]); RunEnabled(Step(s, ops[0]), ops[1..])))
  }

  ghost function Run<J, A>(s: Log<J, A>, ops: seq<Op<J, A>>): Log<J, A>
    requires Timely(s) && Accounted(s)
    requires RunEnabled(s, ops)
    decreases ops
  {
    if ops == [] then s
    else
      StepKeepsTimely(s, ops[0]);
      StepKeepsAccounted(s, ops[0]);
      Run(Step(s, ops[0]), ops[1..])
  }

  /** A zeroed buffer, at some time. */
  ghost function Fresh<J, A>(now: nat): (s: Log<J, A>)
    ensures Timely(s) && Accounted(s)
  {
    Log(Empty(), now, [], multiset{}, multiset{}, multiset{})
  }

  /**
   Every run: no queued event is stamped later than the moment it was scheduled plus its delay,
   and every argument handed in is either still queued, or freed, or dropped; with distinct
   arguments none is freed twice and none is freed while queued.
   */
  lemma {:induction false} EveryRunIsSound<J, A>(s: Log<J, A>, ops: seq<Op<J, A>>)
    requires Timely(s) && Accounted(s) && RunEnabled(s, ops)
    ensures var e := Run(s, ops);
      && Timely(e) && Accounted(e)
      && forall a :: e.taken[a] <= 1 ==> Args(Live(e.ring))[a] + e.freed[a] + e.leaked[a] <= 1
    decreases ops
  {
    if ops != [] {
      StepKeepsTimely(s, ops[0]);
      StepKeepsAccounted(s, ops[0]);
      EveryRunIsSound(Step(s, ops[0]), ops[1..]);
    }
  }

  lemma ArgsCommute<J, A>(p: seq<Event<J, A>>, q: seq<Event<J, A>>)
    ensures Args(p + q) == Args(q + p)
  {
    ArgsOfConcat(p, q);
    ArgsOfConcat(q, p);
  }

  /** What the loop over all ten slots frees when the client dies: exactly the arguments still queued. */
  lemma DeathFreesExactlyTheLive<J, A>(r: Ring<J, A>)
    requires Valid(r) && DeadClean(r)
    ensures Args(r.slots) == Args(Live(r))
  {
    LiveThenDeadIsRotation(r);
    ArgsCommute(r.slots[..r.head], r.slots[r.head..]);
    assert r.slots == r.slots[..r.head] + r.slots[r.head..];
    ArgsOfConcat(Live(r), Dead(r));
    ArgsOfClean(Dead(r));
  }

  /**
   From a zeroed buffer on: every queued event is stamped within its bound, every argument is
   queued, freed or dropped, and what the owner's death would free is exactly what is queued.
   */
  lemma EveryRunFromFresh<J, A>(now: nat, ops: seq<Op<J, A>>)
    requires RunEnabled(Fresh<J, A>(now), ops)
    ensures var e := Run(Fresh<J, A>(now), ops);
      && Timely(e) && Accounted(e)
      && e.taken == Args(e.ring.slots) + e.freed + e.leaked
  {
    EveryRunIsSound(Fresh<J, A>(now), ops);
    DeathFreesExactlyTheLive(Run(Fresh<J, A>(now), ops).ring);
  }

  ghost predicate Drops<J, A>(s: Log<J, A>, op: Op<J, A>)
    requires Valid(s.ring)
  {
    match op
    case Advance(_) => false
    case Schedule(_, _, arg) => |Live(s.ring)| == MAX_EVENTS && arg.Some?
    case Pump(reaction) =>
      && IsDue(s.ring, s.now)
      && Live(s.ring)[0].call.Some?
      && Live(s.ring)[0].arg.Some?
      && (reaction.PushesFront? || (reaction.PushesBack? && |Live(s.ring)| == MAX_EVENTS))
  }

  /** A step drops an argument exactly when it is refused, or overwrites the slot of an event that has one. */
  lemma DropsExactlyWhen<J, A>(s: Log<J, A>, op: Op<J, A>)
    requires Valid(s.ring) && |s.due| == s.ring.count
    ensures Step(s, op).leaked != s.leaked <==> Drops(s, op)
  {
    assert forall m: multiset<A>, a :: (m + multiset{a})[a] == m[a] + 1;
    if op.Pump? && IsDue(s.ring, s.now) {
      assert Process(s.ring, s.now, op.reaction).ran == Some(Live(s.ring)[0]);
    }
  }

  // ----- the owner dies -----

  lemma ArgsOfNextPrefix<J, A>(q: seq<Event<J, A>>, i: nat)
    requires i < |q|
    ensures Args(q[..i + 1]) == Args(q[..i]) + OfArg(q[i].arg)
  {
    assert q[..i + 1] == q[..i] + [q[i]];
    ArgsOfConcat(q[..i], [q[i]]);
    ArgsSplitHead([q[i]]);
  }

  // ----- draining -----

  /** `n` processing calls at one time, with callbacks that schedule nothing; also the events that ran, in order. */
  ghost function Drain<J, A>(r: Ring<J, A>, now: int, n: nat): (d: (Ring<J, A>, seq<Event<J, A>>))
    requires Valid(r)
    decreases n
  {
    if n == 0 then (r, [])
    else if !IsDue(r, now) then Drain(r, now, n - 1)
    else
      QuietPass(r, now, Quiet);
      var p := Process(r, now, Quiet);
      var (end, ran) := Drain(p.ring, now, n - 1);
      (end, [p.ran.value] + ran)
  }

  lemma {:induction false} DrainRunsAllInOrder<J, A>(r: Ring<J, A>, now: int)
    requires Valid(r)
    requires forall e <- Live(r) :: e.time <= now
    ensures var (end, ran) := Drain(r, now, |Live(r)|);
      && Valid(end) && Live(end) == []
      && ran == Live(r)
    decreases r.count
  {
    if r.count > 0 {
      assert Live(r)[0] == r.slots[r.head];
      assert IsDue(r, now);
      QuietPass(r, now, Quiet);
      var p := Process(r, now, Quiet);
      DrainRunsAllInOrder(p.ring, now);
      assert Live(r) == [Live(r)[0]] + Live(r)[1..];
    } else {
      assert Live(r) == [];
    }
  }

  /** Once the clock has passed every deadline, as many calls as there are events empty the buffer. */
  lemma PastDeadlinesEverythingRuns<J, A>(s: Log<J, A>)
    requires Timely(s)
    requires forall d <- s.due :: d <= s.now
    ensures var (end, ran) := Drain(s.ring, s.now, |s.due|);
      Valid(end) && Live(end) == [] && ran == Live(s.ring)
  {
    forall e | e in Live(s.ring)
      ensures e.time <= s.now
    {
      var i :| 0 <= i < |Live(s.ring)| && Live(s.ring)[i] == e;
      assert s.due[i] in s.due;
    }
    DrainRunsAllInOrder(s.ring, s.now);
  }
}

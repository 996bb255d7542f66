/**
 The ten-slot event buffer of the game server: a circular deque that is filled at
 the back by client commands, at the front by the two-phase incantation, and
 drained from the head, one event a call, by a callback that may push into the
 very buffer (and the very slot) it was taken from.

 `Ring` is the value of the C struct; `EventBuffer` is the struct updated in place.
 */
module EventRing {
  import opened Wrappers

  const MAX_EVENTS: nat := 10

  /** A slot of the buffer. A zeroed slot is `Event(0, None, None)`. */
  datatype Event<+J, +A> = Event(time: int, call: Option<J>, arg: Option<A>)

  datatype Ring<+J, +A> = Ring(slots: seq<Event<J, A>>, head: nat, tail: nat, count: nat)

  /** What a callback does to the buffer its own event was popped from. */
  datatype Reaction<+J, +A> =
    | Quiet
    | PushesFront(delay: nat, call: Option<J>, arg: Option<A>)
    | PushesBack(delay: nat, call: Option<J>, arg: Option<A>)

  /** Result of one processing call: the new ring, the event that ran, the argument passed to free. */
  datatype Pass<+J, +A> = Pass(ring: Ring<J, A>, ran: Option<Event<J, A>>, freed: Option<A>)

  /** The index reached from slot `base` by `i` steps around the buffer. */
  function Slot(base: nat, i: nat): (k: nat)
    requires base < MAX_EVENTS && i <= MAX_EVENTS
    ensures k < MAX_EVENTS && k == (base + i) % MAX_EVENTS
  {
    if base + i < MAX_EVENTS then base + i else base + i - MAX_EVENTS
  }

  ghost predicate Valid<J, A>(r: Ring<J, A>) {
    && |r.slots| == MAX_EVENTS
    && r.head < MAX_EVENTS
    && r.count <= MAX_EVENTS
    && r.tail == Slot(r.head, r.count)
  }

  /** The queue the ring stands for: `count` events from the head on. */
  ghost function Live<J, A>(r: Ring<J, A>): (q: seq<Event<J, A>>)
    requires Valid(r)
  {
    seq(r.count, i requires 0 <= i < r.count => r.slots[Slot(r.head, i)])
  }

  /** The remaining slots, from the tail on. */
  ghost function Dead<J, A>(r: Ring<J, A>): (q: seq<Event<J, A>>)
    requires Valid(r)
  {
    seq(MAX_EVENTS - r.count, i requires 0 <= i < MAX_EVENTS - r.count => r.slots[Slot(r.tail, i)])
  }

  lemma LiveThenDeadIsRotation<J, A>(r: Ring<J, A>)
    requires Valid(r)
    ensures Live(r) + Dead(r) == r.slots[r.head..] + r.slots[..r.head]
  {
    forall i | 0 <= i < MAX_EVENTS
      ensures (Live(r) + Dead(r))[i] == r.slots[Slot(r.head, i)]
    {
      assert i >= r.count ==> Slot(r.tail, i - r.count) == Slot(r.head, i);
    }
  }

  /** A zero-initialised buffer. */
  function Empty<J, A>(): (r: Ring<J, A>)
    ensures Valid(r) && Live(r) == []
  {
    Ring(seq(MAX_EVENTS, _ => Event(0, None, None)), 0, 0, 0)
  }

  // ----- the operations, on values -----

  function Stamp<J, A>(r: Ring<J, A>, now: int, delay: nat): int
    requires Valid(r)
  {
    if r.count > 0 then r.slots[r.tail].time + delay else now + delay
  }

  function PushBack<J, A>(r: Ring<J, A>, now: int, delay: nat, call: Option<J>, arg: Option<A>): (bool, Ring<J, A>)
    requires Valid(r)
  {
    if r.count >= MAX_EVENTS then (false, r)
    else (true, Ring(r.slots[r.tail := Event(Stamp(r, now, delay), call, arg)],
                     r.head, (r.tail + 1) % MAX_EVENTS, r.count + 1))
  }

  function PushFront<J, A>(r: Ring<J, A>, now: int, delay: nat, call: Option<J>, arg: Option<A>): (bool, Ring<J, A>)
    requires Valid(r)
  {
    if r.count == MAX_EVENTS then (false, r)
    else
      var h := (r.head + MAX_EVENTS - 1) % MAX_EVENTS;
      (true, Ring(r.slots[h := Event(now + delay, call, arg)], h, r.tail, r.count + 1))
  }

  function React<J, A>(r: Ring<J, A>, now: int, reaction: Reaction<J, A>): (r': Ring<J, A>)
    requires Valid(r)
    ensures |r'.slots| == MAX_EVENTS
  {
    match reaction
    case Quiet => r
    case PushesFront(delay, call, arg) => PushFront(r, now, delay, call, arg).1
    case PushesBack(delay, call, arg) => PushBack(r, now, delay, call, arg).1
  }

  predicate IsDue<J, A>(r: Ring<J, A>, now: int)
    requires Valid(r)
  {
    r.count > 0 && r.slots[r.head].time <= now
  }

  function Popped<J, A>(r: Ring<J, A>): (p: Ring<J, A>)
    requires Valid(r) && r.count > 0
    ensures Valid(p) && Live(p) == Live(r)[1..]
  {
    r.(head := (r.head + 1) % MAX_EVENTS, count := r.count - 1)
  }

  /** One processing call; `reaction` is what the popped event's callback does to this buffer. */
  function Process<J, A>(r: Ring<J, A>, now: int, reaction: Reaction<J, A>): Pass<J, A>
    requires Valid(r)
  {
    if !IsDue(r, now) then Pass(r, None, None)
    else
      var ev := r.head;
      var popped := Popped(r);
      var after := if r.slots[ev].call.Some? then React(popped, now, reaction) else popped;
      if popped.head == after.head && after.slots[ev].arg.Some? then
        Pass(after.(slots := after.slots[ev := after.slots[ev].(arg := None)]),
             Some(r.slots[ev]), after.slots[ev].arg)
      else
        Pass(after, Some(r.slots[ev]), None)
  }

  // ----- refinement: a deque of at most ten events -----

  lemma PushBackAppends<J, A>(r: Ring<J, A>, now: int, delay: nat, call: Option<J>, arg: Option<A>)
    requires Valid(r)
    ensures var (ok, r') := PushBack(r, now, delay, call, arg);
      && Valid(r')
      && (ok <==> |Live(r)| < MAX_EVENTS)
      && (!ok ==> r' == r)
      && (ok ==> Live(r') == Live(r) + [Event(Stamp(r, now, delay), call, arg)])
      && (ok ==> Dead(r') == Dead(r)[1..])
  {
    if r.count < MAX_EVENTS {
      var e := Event(Stamp(r, now, delay), call, arg);
      var r' := PushBack(r, now, delay, call, arg).1;
      assert Valid(r');
      forall i | 0 <= i < r'.count
        ensures Live(r')[i] == (Live(r) + [e])[i]
      {
        assert i < r.count ==> Slot(r.head, i) != r.tail;
      }
      forall i | 0 <= i < MAX_EVENTS - r'.count
        ensures Dead(r')[i] == Dead(r)[1..][i]
      {
        assert Slot(r'.tail, i) == Slot(r.tail, i + 1) != r.tail;
      }
    }
  }

  lemma PushFrontLive<J, A>(r: Ring<J, A>, now: int, delay: nat, call: Option<J>, arg: Option<A>)
    requires Valid(r) && r.count < MAX_EVENTS
    ensures Live(PushFront(r, now, delay, call, arg).1) == [Event(now + delay, call, arg)] + Live(r)
  {
  }

  lemma PushFrontDead<J, A>(r: Ring<J, A>, now: int, delay: nat, call: Option<J>, arg: Option<A>)
    requires Valid(r) && r.count < MAX_EVENTS
    ensures Dead(PushFront(r, now, delay, call, arg).1) == Dead(r)[..|Dead(r)| - 1]
  {
  }

  lemma PushFrontPrepends<J, A>(r: Ring<J, A>, now: int, delay: nat, call: Option<J>, arg: Option<A>)
    requires Valid(r)
    ensures var (ok, r') := PushFront(r, now, delay, call, arg);
      && Valid(r')
      && (ok <==> |Live(r)| < MAX_EVENTS)
      && (!ok ==> r' == r)
      && (ok ==> Live(r') == [Event(now + delay, call, arg)] + Live(r))
      && (ok ==> Dead(r') == Dead(r)[..|Dead(r)| - 1])
  {
    if r.count < MAX_EVENTS {
      PushFrontLive(r, now, delay, call, arg);
      PushFrontDead(r, now, delay, call, arg);
    }
  }

  lemma NotDueIsNoOp<J, A>(r: Ring<J, A>, now: int, reaction: Reaction<J, A>)
    requires Valid(r) && !IsDue(r, now)
    ensures Process(r, now, reaction) == Pass(r, None, None)
    ensures Live(r) == [] || Live(r)[0].time > now
  {
  }

  /** The callback leaves the buffer alone: the head leaves, its argument is freed, its slot is clean. */
  lemma QuietPass<J, A>(r: Ring<J, A>, now: int, reaction: Reaction<J, A>)
    requires Valid(r) && IsDue(r, now)
    requires reaction.Quiet? || Live(r)[0].call.None?
    ensures var p := Process(r, now, reaction);
      && Valid(p.ring)
      && p.ran == Some(Live(r)[0])
      && p.freed == Live(r)[0].arg
      && Live(p.ring) == Live(r)[1..]
      && Dead(p.ring) == Dead(r) + [Live(r)[0].(arg := None)]
  {
    var p := Process(r, now, reaction);
    forall i | 0 <= i < p.ring.count
      ensures Live(p.ring)[i] == Live(r)[1..][i]
    {
      assert Slot(p.ring.head, i) == Slot(r.head, i + 1) != r.head;
    }
    forall i | 0 <= i < MAX_EVENTS - p.ring.count
      ensures Dead(p.ring)[i] == (Dead(r) + [Live(r)[0].(arg := None)])[i]
    {
      assert i < MAX_EVENTS - r.count ==> Slot(r.tail, i) != r.head;
    }
  }

  /**
   The callback pushes to the front, into the slot the processed event still sits in: the push
   cannot fail, nothing is freed, and the queue gains the new event at its head.
   */
  lemma FrontPass<J, A>(r: Ring<J, A>, now: int, delay: nat, call: Option<J>, arg: Option<A>)
    requires Valid(r) && IsDue(r, now) && Live(r)[0].call.Some?
    ensures PushFront(Popped(r), now, delay, call, arg).0
    ensures var p := Process(r, now, PushesFront(delay, call, arg));
      && Valid(p.ring)
      && p.ran == Some(Live(r)[0])
      && p.freed == None
      && Live(p.ring) == [Event(now + delay, call, arg)] + Live(r)[1..]
      && Dead(p.ring) == Dead(r)
  {
    PushFrontPrepends(Popped(r), now, delay, call, arg);
    var p := Process(r, now, PushesFront(delay, call, arg));
    assert p.ring.head == r.head;
    forall i | 0 <= i < MAX_EVENTS - r.count
      ensures Dead(p.ring)[i] == Dead(r)[i]
    {
      assert Slot(r.tail, i) != r.head;
    }
  }

  /** The callback pushes to the back of a buffer that was not full: a pop, then an append. */
  lemma BackPass<J, A>(r: Ring<J, A>, now: int, delay: nat, call: Option<J>, arg: Option<A>)
    requires Valid(r) && IsDue(r, now) && Live(r)[0].call.Some? && |Live(r)| < MAX_EVENTS
    ensures var p := Process(r, now, PushesBack(delay, call, arg));
      && Valid(p.ring)
      && p.ran == Some(Live(r)[0])
      && p.freed == Live(r)[0].arg
      && Live(p.ring) == Live(r)[1..] + [Event(Stamp(Popped(r), now, delay), call, arg)]
      && Dead(p.ring) == Dead(r)[1..] + [Live(r)[0].(arg := None)]
  {
    var popped := Popped(r);
    PushBackAppends(popped, now, delay, call, arg);
    var pushed := PushBack(popped, now, delay, call, arg).1;
    var p := Process(r, now, PushesBack(delay, call, arg));
    assert p.ring == pushed.(slots := pushed.slots[r.head := pushed.slots[r.head].(arg := None)]);
    forall i | 0 <= i < r.count
      ensures Live(p.ring)[i] == Live(pushed)[i]
    {
      assert Slot(pushed.head, i) == Slot(r.head, i + 1) != r.head;
    }
    forall i | 0 <= i < MAX_EVENTS - r.count
      ensures Dead(p.ring)[i] == (Dead(r)[1..] + [Live(r)[0].(arg := None)])[i]
    {
      assert Slot(p.ring.tail, i) == Slot(r.tail, i + 1);
      assert i + 1 < MAX_EVENTS - r.count ==> Slot(r.tail, i + 1) != r.head;
    }
  }

  /** The same on a full buffer: the new event takes the slot being read, and loses its argument. */
  lemma FullBackPass<J, A>(r: Ring<J, A>, now: int, delay: nat, call: Option<J>, arg: Option<A>)
    requires Valid(r) && IsDue(r, now) && Live(r)[0].call.Some? && |Live(r)| == MAX_EVENTS
    ensures var p := Process(r, now, PushesBack(delay, call, arg));
      && Valid(p.ring)
      && p.ran == Some(Live(r)[0])
      && p.freed == arg
      && Live(p.ring) == Live(r)[1..] + [Event(Stamp(Popped(r), now, delay), call, None)]
  {
    var popped := Popped(r);
    PushBackAppends(popped, now, delay, call, arg);
    var pushed := PushBack(popped, now, delay, call, arg).1;
    var p := Process(r, now, PushesBack(delay, call, arg));
    assert r.tail == r.head;
    assert pushed.slots[r.head] == Event(Stamp(popped, now, delay), call, arg);
    forall i | 0 <= i < MAX_EVENTS
      ensures Live(p.ring)[i] == (Live(r)[1..] + [Event(Stamp(Popped(r), now, delay), call, None)])[i]
    {
      assert Slot(p.ring.head, i) == Slot(r.head, i + 1);
      assert i < r.count - 1 ==> Live(pushed)[i] == Live(r)[1..][i];
    }
  }
}

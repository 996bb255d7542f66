/**
 The event buffer updated in place, operation by operation, against the values of `EventRing`.
 A callback is represented by the push it makes into the buffer its event came from, and that
 push is made re-entrantly, through the same methods.
 */
module TimeApi {
  import opened Wrappers
  import opened EventRing
  import opened RingRuns

  class EventBuffer<J(0), A(0)> {
    const events: array<Event<J, A>>
    var head: nat
    var tail: nat
    var count: nat

    /** The ring this buffer holds. */
    ghost function View(): (r: Ring<J, A>)
      reads this, events
    {
      Ring(events[..], head, tail, count)
    }

    ghost predicate Ok()
      reads this, events
    {
      Valid(View())
    }

    constructor ()
      ensures Ok() && fresh(events)
      ensures View() == Empty()
    {
      events := new Event<J, A>[MAX_EVENTS](_ => Event(0, None, None));
      head, tail, count := 0, 0, 0;
    }

    /** Returns 0 and appends, or returns -1 and changes nothing when the buffer is full. */
    method ScheduleClientEvent(now: int, delay: nat, call: Option<J>, arg: Option<A>) returns (ret: int)
      requires Ok()
      modifies this, events
      ensures Ok()
      ensures View() == PushBack(old(View()), now, delay, call, arg).1
      ensures ret == if |Live(old(View()))| < MAX_EVENTS then 0 else -1
    {
      if count >= MAX_EVENTS {
        return -1;
      }
      var execTime: int;
      if count > 0 {
        execTime := events[tail].time + delay;
      } else {
        execTime := now + delay;
      }
      events[tail] := Event(execTime, call, arg);
      tail := (tail + 1) % MAX_EVENTS;
      count := count + 1;
      return 0;
    }

    /** Moves the head backwards and inserts there. */
    method ScheduleClientEventFront(now: int, delay: nat, call: Option<J>, arg: Option<A>) returns (ret: int)
      requires Ok()
      modifies this, events
      ensures Ok()
      ensures View() == PushFront(old(View()), now, delay, call, arg).1
      ensures ret == if |Live(old(View()))| < MAX_EVENTS then 0 else -1
    {
      if count == MAX_EVENTS {
        return -1;
      }
      head := (head + MAX_EVENTS - 1) % MAX_EVENTS;
      events[head] := Event(now + delay, call, arg);
      count := count + 1;
      return 0;
    }

    /** The popped event's callback, as far as this buffer can tell. */
    method RunCallback(now: int, reaction: Reaction<J, A>)
      requires Ok()
      modifies this, events
      ensures Ok()
      ensures View() == React(old(View()), now, reaction)
    {
      match reaction
      case Quiet =>
      case PushesFront(delay, call, arg) =>
        var _ := ScheduleClientEventFront(now, delay, call, arg);
      case PushesBack(delay, call, arg) =>
        var _ := ScheduleClientEvent(now, delay, call, arg);
    }

    /** Pops and runs the head event if it is due; `freed` is the argument passed to free, if any. */
    method ProcessClientEvents(now: int, reaction: Reaction<J, A>) returns (ran: Option<Event<J, A>>, freed: Option<A>)
      requires Ok()
      modifies this, events
      ensures Ok()
      ensures Pass(View(), ran, freed) == Process(old(View()), now, reaction)
    {
      ran, freed := None, None;
      if count > 0 {
        var ev := head;
        if events[ev].time <= now {
          ran := Some(events[ev]);
          head := (head + 1) % MAX_EVENTS;
          count := count - 1;
          var prevHead := head;
          label popped:
          assert View() == Popped(old(View()));
          if events[ev].call.Some? {
            RunCallback(now, reaction);
          }
          if prevHead == head && events[ev].arg.Some? {
            freed := events[ev].arg;
            events[ev] := events[ev].(arg := None);
          }
        }
      }
    }

    /** The loop at the death of the owner: every slot that still holds an argument has it freed. */
    method FreeArguments() returns (freed: seq<A>)
      requires Ok()
      ensures multiset(freed) == Args(View().slots)
    {
      ghost var q := events[..];
      freed := [];
      var i := 0;
      while i < MAX_EVENTS
        invariant 0 <= i <= MAX_EVENTS
        invariant multiset(freed) == Args(q[..i])
      {
        ArgsOfNextPrefix(q, i);
        if events[i].arg.Some? {
          freed := freed + [events[i].arg.value];
        }
        i := i + 1;
      }
      assert q[..MAX_EVENTS] == q;
    }
  }
}

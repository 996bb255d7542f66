/**
 The handshake pipeline: the main thread queues accepted connections, one worker takes them, and
 those whose handshake succeeds come back through a second ring. A ring has only a head and a
 tail, so a full one looks empty.
 */
module Handshake {
  import opened Wrappers

  const SIZE: nat := 1024

  /** A connection: its socket and its TLS object. */
  datatype Task = Task(fd: int, ssl: nat)

  // ----- one ring -----

  datatype Ring = Ring(slots: seq<Task>, head: nat, tail: nat)

  ghost predicate Valid(r: Ring) {
    |r.slots| == SIZE && r.head < SIZE && r.tail < SIZE
  }

  function Count(r: Ring): (n: nat)
    requires r.head < SIZE && r.tail < SIZE
    ensures n < SIZE
  {
    if r.head <= r.tail then r.tail - r.head else r.tail + SIZE - r.head
  }

  function Index(base: nat, i: nat): (k: nat)
    requires base < SIZE && i < SIZE
    ensures k < SIZE && k == (base + i) % SIZE
  {
    if base + i < SIZE then base + i else base + i - SIZE
  }

  /** The tasks from the head up to the tail. */
  ghost function Contents(r: Ring): (q: seq<Task>)
    requires Valid(r)
    ensures |q| == Count(r)
  {
    seq(Count(r), i requires 0 <= i < Count(r) => r.slots[Index(r.head, i)])
  }

  function Put(r: Ring, t: Task): Ring
    requires Valid(r)
  {
    Ring(r.slots[r.tail := t], r.head, (r.tail + 1) % SIZE)
  }

  function Removed(r: Ring): Ring
    requires Valid(r)
  {
    r.(head := (r.head + 1) % SIZE)
  }

  /** Below 1023 tasks, a task joins the end; the 1024th makes the ring look empty and loses them all. */
  lemma PutAppendsOrLosesAll(r: Ring, t: Task)
    requires Valid(r)
    ensures Valid(Put(r, t))
    ensures Contents(Put(r, t)) == if Count(r) < SIZE - 1 then Contents(r) + [t] else []
  {
    if Count(r) < SIZE - 1 {
      forall i | 0 <= i < Count(r) + 1
        ensures Contents(Put(r, t))[i] == (Contents(r) + [t])[i]
      {
        assert i < Count(r) ==> Index(r.head, i) != r.tail;
      }
    }
  }

  lemma RemovedIsTail(r: Ring)
    requires Valid(r) && r.head != r.tail
    ensures Valid(Removed(r)) && Contents(r) != [] && Contents(r)[0] == r.slots[r.head]
    ensures Contents(Removed(r)) == Contents(r)[1..]
  {
    forall i | 0 <= i < Count(r) - 1
      ensures Contents(Removed(r))[i] == Contents(r)[1..][i]
    {
      assert Index(Removed(r).head, i) == Index(r.head, i + 1);
    }
  }

  // ----- the pipeline -----

  /**
   `accepted` is every task ever queued, `verdicts` what became of the handshakes that are over,
   in the order the worker took them, and `delivered` what the main thread was given back.
   */
  datatype Pool = Pool(q: Ring, hand: Option<Task>, dq: Ring, accepted: seq<Task>, verdicts: seq<bool>, delivered: seq<Task>)

  /** The critical sections of the two threads; any order of them is an interleaving. */
  datatype Step =
    | Queue(t: Task)  // main thread
    | Take            // worker, when the first ring is not empty
    | Fail            // worker: the handshake failed, the connection is closed
    | Finish          // worker: the handshake is done
    | Dequeue         // main thread

  ghost predicate Shaped(p: Pool) {
    Valid(p.q) && Valid(p.dq)
  }

  ghost predicate Can(p: Pool, s: Step) {
    match s
    case Queue(_) => true
    case Take => p.hand.None? && p.q.head != p.q.tail
    case Fail => p.hand.Some?
    case Finish => p.hand.Some?
    case Dequeue => true
  }

  ghost function Next(p: Pool, s: Step): Pool
    requires Shaped(p) && Can(p, s)
  {
    match s
    case Queue(t) => p.(q := Put(p.q, t), accepted := p.accepted + [t])
    case Take => p.(q := Removed(p.q), hand := Some(p.q.slots[p.q.head]))
    case Fail => p.(hand := None, verdicts := p.verdicts + [false])
    case Finish => p.(hand := None, dq := Put(p.dq, p.hand.value), verdicts := p.verdicts + [true])
    case Dequeue =>
      if p.dq.head == p.dq.tail then p
      else p.(dq := Removed(p.dq), delivered := p.delivered + [p.dq.slots[p.dq.head]])
  }

  /** The ring a step adds to still has room: fewer than 1024 tasks after it. */
  ghost predicate Roomy(p: Pool, s: Step)
    requires Shaped(p)
  {
    (s.Queue? ==> |Contents(p.q)| < SIZE - 1) && (s.Finish? ==> |Contents(p.dq)| < SIZE - 1)
  }

  ghost function InHand(p: Pool): seq<Task> {
    if p.hand.Some? then [p.hand.value] else []
  }

  /** The tasks with a verdict, in order. */
  ghost function Chosen(tasks: seq<Task>, verdicts: seq<bool>, which: bool): seq<Task>
    requires |tasks| == |verdicts|
  {
    if tasks == [] then []
    else
      var n := |tasks| - 1;
      Chosen(tasks[..n], verdicts[..n], which) + if verdicts[n] == which then [tasks[n]] else []
  }

  /** The accepted tasks: those decided, then the one in the worker's hand, then the first ring. */
  ghost predicate InOrder(p: Pool) {
    && Shaped(p)
    && |p.verdicts| <= |p.accepted|
    && p.accepted[|p.verdicts|..] == InHand(p) + Contents(p.q)
    && Chosen(p.accepted[..|p.verdicts|], p.verdicts, true) == p.delivered + Contents(p.dq)
  }

  lemma ChosenSnoc(tasks: seq<Task>, verdicts: seq<bool>, t: Task, v: bool, which: bool)
    requires |tasks| == |verdicts|
    ensures Chosen(tasks + [t], verdicts + [v], which) == Chosen(tasks, verdicts, which) + if v == which then [t] else []
  {
    assert (tasks + [t])[..|tasks|] == tasks && (verdicts + [v])[..|tasks|] == verdicts;
  }

  /** The worker's task gets its verdict. */
  lemma Decided(p: Pool, v: bool)
    requires InOrder(p) && p.hand.Some?
    ensures var n := |p.verdicts|;
      && n < |p.accepted| && p.accepted[n] == p.hand.value
      && p.accepted[n + 1..] == Contents(p.q)
      && Chosen(p.accepted[..n + 1], p.verdicts + [v], true)
         == Chosen(p.accepted[..n], p.verdicts, true) + if v then [p.hand.value] else []
  {
    var n := |p.verdicts|;
    assert p.accepted[n] == p.accepted[n..][0];
    assert p.accepted[n + 1..] == p.accepted[n..][1..];
    assert p.accepted[..n + 1] == p.accepted[..n] + [p.hand.value];
    ChosenSnoc(p.accepted[..n], p.verdicts, p.hand.value, v, true);
  }

  lemma QueueInOrder(p: Pool, t: Task)
    requires InOrder(p) && |Contents(p.q)| < SIZE - 1
    ensures InOrder(Next(p, Queue(t)))
  {
    var n := |p.verdicts|;
    PutAppendsOrLosesAll(p.q, t);
    assert (p.accepted + [t])[n..] == p.accepted[n..] + [t];
    assert (p.accepted + [t])[..n] == p.accepted[..n];
    assert InHand(p) + (Contents(p.q) + [t]) == (InHand(p) + Contents(p.q)) + [t];
  }

  lemma TakeInOrder(p: Pool)
    requires InOrder(p) && Can(p, Take)
    ensures InOrder(Next(p, Take))
  {
    RemovedIsTail(p.q);
    assert [] + Contents(p.q) == [Contents(p.q)[0]] + Contents(p.q)[1..];
  }

  lemma JoinsLast(a: seq<Task>, b: seq<Task>, t: Task)
    ensures a + (b + [t]) == (a + b) + [t]
  {
  }

  lemma FirstMoves(a: seq<Task>, b: seq<Task>)
    requires b != []
    ensures (a + [b[0]]) + b[1..] == a + b
  {
  }

  lemma FinishInOrder(p: Pool)
    requires InOrder(p) && p.hand.Some? && |Contents(p.dq)| < SIZE - 1
    ensures InOrder(Next(p, Finish))
  {
    Decided(p, true);
    PutAppendsOrLosesAll(p.dq, p.hand.value);
    JoinsLast(p.delivered, Contents(p.dq), p.hand.value);
    assert InHand(Next(p, Finish)) + Contents(p.q) == Contents(p.q);
  }

  lemma FailInOrder(p: Pool)
    requires InOrder(p) && p.hand.Some?
    ensures InOrder(Next(p, Fail))
  {
    Decided(p, false);
    assert InHand(Next(p, Fail)) + Contents(p.q) == Contents(p.q);
  }

  lemma DequeueInOrder(p: Pool)
    requires InOrder(p)
    ensures InOrder(Next(p, Dequeue))
  {
    if p.dq.head != p.dq.tail {
      RemovedIsTail(p.dq);
      var c := Contents(p.dq);
      FirstMoves(p.delivered, c);
    }
  }

  lemma StepInOrder(p: Pool, s: Step)
    requires InOrder(p) && Can(p, s) && Roomy(p, s)
    ensures InOrder(Next(p, s))
  {
    match s
    case Queue(t) => QueueInOrder(p, t);
    case Take => TakeInOrder(p);
    case Fail => FailInOrder(p);
    case Finish => FinishInOrder(p);
    case Dequeue => DequeueInOrder(p);
  }

  /** Exactly: adding to a ring keeps the order if and only if the ring has room. */
  lemma RoomIsNeeded(p: Pool, s: Step)
    requires InOrder(p) && Can(p, s)
    ensures InOrder(Next(p, s)) <==> Roomy(p, s)
  {
    if Roomy(p, s) {
      StepInOrder(p, s);
    } else if s.Queue? {
      PutAppendsOrLosesAll(p.q, s.t);
      var p' := Next(p, s);
      assert |p'.accepted[|p'.verdicts|..]| == |p.accepted| + 1 - |p.verdicts|;
      assert |p.accepted[|p.verdicts|..]| == |InHand(p)| + |Contents(p.q)|;
    } else {
      Decided(p, true);
      PutAppendsOrLosesAll(p.dq, p.hand.value);
      assert |Chosen(p.accepted[..|p.verdicts| + 1], p.verdicts + [true], true)| == |p.delivered| + SIZE;
    }
  }

  /** Two empty rings and nothing accepted. */
  ghost predicate Initial(p: Pool) {
    && Shaped(p) && p.q.head == p.q.tail && p.dq.head == p.dq.tail
    && p.hand == None && p.accepted == [] && p.verdicts == [] && p.delivered == []
  }

  ghost predicate CanRun(p: Pool, steps: seq<Step>)
    decreases |steps|
  {
    steps == [] || (Shaped(p) && Can(p, steps[0]) && Roomy(p, steps[0]) && CanRun(Next(p, steps[0]), steps[1..]))
  }

  ghost function Run(p: Pool, steps: seq<Step>): Pool
    requires CanRun(p, steps)
    decreases |steps|
  {
    if steps == [] then p else Run(Next(p, steps[0]), steps[1..])
  }

  lemma {:induction false} RunInOrder(p: Pool, steps: seq<Step>)
    requires InOrder(p) && CanRun(p, steps)
    ensures InOrder(Run(p, steps))
    decreases |steps|
  {
    if steps != [] {
      StepInOrder(p, steps[0]);
      RunInOrder(Next(p, steps[0]), steps[1..]);
    }
  }

  lemma {:induction false} ChosenSplits(tasks: seq<Task>, verdicts: seq<bool>)
    requires |tasks| == |verdicts|
    ensures multiset(tasks) == multiset(Chosen(tasks, verdicts, true)) + multiset(Chosen(tasks, verdicts, false))
  {
    if tasks != [] {
      var n := |tasks| - 1;
      ChosenSplits(tasks[..n], verdicts[..n]);
      assert tasks == tasks[..n] + [tasks[n]];
    }
  }

  ghost function Trues(n: nat): (r: seq<bool>)
    ensures |r| == n && forall i | 0 <= i < n :: r[i]
  {
    seq(n, _ => true)
  }

  /** The handshakes that are over, then the ones still to come, all taken as successes. */
  ghost function Outlook(p: Pool): seq<bool>
    requires |p.verdicts| <= |p.accepted|
  {
    p.verdicts + Trues(|p.accepted| - |p.verdicts|)
  }

  lemma {:induction false} ChosenConcat(a: seq<Task>, b: seq<Task>, u: seq<bool>, v: seq<bool>)
    requires |a| == |u| && |b| == |v| && forall i | 0 <= i < |v| :: v[i]
    ensures Chosen(a + b, u + v, true) == Chosen(a, u, true) + b
  {
    if b == [] {
      assert a + b == a && u + v == u;
    } else {
      var n := |b| - 1;
      ChosenConcat(a, b[..n], u, v[..n]);
      ChosenSnoc(a + b[..n], u + v[..n], b[n], true, true);
      assert a + b == (a + b[..n]) + [b[n]] && u + v == (u + v[..n]) + [true];
      assert b == b[..n] + [b[n]];
    }
  }

  /** The tasks decided and the rest, put together. */
  lemma Halves(done: seq<Task>, rest: seq<Task>, verdicts: seq<bool>)
    requires |done| == |verdicts|
    ensures Chosen(done, verdicts, true) + rest == Chosen(done + rest, verdicts + Trues(|rest|), true)
    ensures multiset(done + rest) == multiset(Chosen(done, verdicts, true) + rest) + multiset(Chosen(done, verdicts, false))
  {
    ChosenConcat(done, rest, verdicts, Trues(|rest|));
    ChosenSplits(done, verdicts);
  }

  lemma SplitAt<T>(s: seq<T>, n: nat)
    requires n <= |s|
    ensures s[..n] + s[n..] == s && |s[n..]| == |s| - n
  {
  }

  lemma FourParts<T>(a: seq<T>, b: seq<T>, c: seq<T>, d: seq<T>)
    ensures (a + b) + (c + d) == a + b + c + d
    ensures multiset(a + b + c + d) == multiset(a) + multiset(b) + multiset(c) + multiset(d)
  {
  }

  lemma InOrderMeans(r: Pool)
    requires InOrder(r)
    ensures r.delivered + Contents(r.dq) + InHand(r) + Contents(r.q) == Chosen(r.accepted, Outlook(r), true)
    ensures multiset(r.accepted) == multiset(r.delivered) + multiset(Contents(r.dq)) + multiset(InHand(r)) + multiset(Contents(r.q))
                                    + multiset(Chosen(r.accepted[..|r.verdicts|], r.verdicts, false))
  {
    var n := |r.verdicts|;
    SplitAt(r.accepted, n);
    Halves(r.accepted[..n], r.accepted[n..], r.verdicts);
    FourParts(r.delivered, Contents(r.dq), InHand(r), Contents(r.q));
  }

  /**
   Under every interleaving in which the rings have room: delivered, second ring, hand and first
   ring, in this order, are the accepted tasks without the failed ones; and every accepted task is
   in exactly one of these places or failed.
   */
  lemma EveryInterleavingDeliversInOrder(p: Pool, steps: seq<Step>)
    requires Initial(p) && CanRun(p, steps)
    ensures var r := Run(p, steps);
      && InOrder(r)
      && r.delivered + Contents(r.dq) + InHand(r) + Contents(r.q) == Chosen(r.accepted, Outlook(r), true)
      && multiset(r.accepted) == multiset(r.delivered) + multiset(Contents(r.dq)) + multiset(InHand(r)) + multiset(Contents(r.q))
                                 + multiset(Chosen(r.accepted[..|r.verdicts|], r.verdicts, false))
  {
    RunInOrder(p, steps);
    InOrderMeans(Run(p, steps));
  }

  // ----- a ring that fills up -----

  /** The main thread queues one task after the other. */
  ghost function Queues(tasks: seq<Task>): seq<Step> {
    if tasks == [] then [] else [Queue(tasks[0])] + Queues(tasks[1..])
  }

  lemma {:induction false} QueuesFill(p: Pool, tasks: seq<Task>)
    requires Shaped(p) && |Contents(p.q)| + |tasks| <= SIZE - 1
    ensures CanRun(p, Queues(tasks)) && Shaped(Run(p, Queues(tasks)))
    ensures Contents(Run(p, Queues(tasks)).q) == Contents(p.q) + tasks
    ensures Run(p, Queues(tasks)).accepted == p.accepted + tasks
    decreases |tasks|
  {
    if tasks != [] {
      PutAppendsOrLosesAll(p.q, tasks[0]);
      var p1 := Next(p, Queue(tasks[0]));
      QueuesFill(p1, tasks[1..]);
      assert Queues(tasks)[1..] == Queues(tasks[1..]);
      FirstMoves(Contents(p.q), tasks);
      FirstMoves(p.accepted, tasks);
    }
  }

  /** From the start, 1024 tasks queued before the worker takes one leave nothing for it to take. */
  lemma FullRingLosesAll(p: Pool, tasks: seq<Task>, last: Task)
    requires Initial(p) && |tasks| == SIZE - 1
    ensures CanRun(p, Queues(tasks)) && Shaped(Run(p, Queues(tasks)))
    ensures var full := Next(Run(p, Queues(tasks)), Queue(last));
      && Shaped(full) && full.accepted == tasks + [last]
      && Contents(full.q) == [] && !Can(full, Take)
  {
    QueuesFill(p, tasks);
    PutAppendsOrLosesAll(Run(p, Queues(tasks)).q, last);
  }

  // ----- the rings and the worker's hand, in place -----

  class Workers {
    const tasksQ: array<Task>
    const tasksDq: array<Task>
    var headQ: nat
    var tailQ: nat
    var headDq: nat
    var tailDq: nat
    var hand: Option<Task>
    ghost var accepted: seq<Task>
    ghost var verdicts: seq<bool>
    ghost var delivered: seq<Task>

    ghost function Value(): Pool
      reads this, tasksQ, tasksDq
    {
      Pool(Ring(tasksQ[..], headQ, tailQ), hand, Ring(tasksDq[..], headDq, tailDq), accepted, verdicts, delivered)
    }

    ghost predicate Holds()
      reads this, tasksQ, tasksDq
    {
      Shaped(Value()) && tasksQ != tasksDq
    }

    constructor ()
      ensures Holds() && Initial(Value()) && fresh(tasksQ) && fresh(tasksDq)
    {
      tasksQ := new Task[SIZE](_ => Task(0, 0));
      tasksDq := new Task[SIZE](_ => Task(0, 0));
      headQ, tailQ, headDq, tailDq, hand := 0, 0, 0, 0, None;
      accepted, verdicts, delivered := [], [], [];
    }

    /** ssl_al_worker_queue */
    method WorkerQueue(fd: int, ssl: nat) returns (ret: int)
      requires Holds()
      modifies this`tailQ, this`accepted, tasksQ
      ensures Holds() && ret == 1 && Value() == Next(old(Value()), Queue(Task(fd, ssl)))
    {
      tasksQ[tailQ] := Task(fd, ssl);
      tailQ := (tailQ + 1) % SIZE;
      accepted := accepted + [Task(fd, ssl)];
      ret := 1;
    }

    /** handshake_worker, up to the unlock; the worker waits while the ring looks empty. */
    method WorkerTake() returns (took: bool)
      requires Holds() && hand.None?
      modifies this`headQ, this`hand
      ensures Holds() && took == Can(old(Value()), Take)
      ensures Value() == if took then Next(old(Value()), Take) else old(Value())
    {
      if headQ == tailQ {
        return false;
      }
      hand := Some(tasksQ[headQ]);
      headQ := (headQ + 1) % SIZE;
      took := true;
    }

    /** The rest of handshake_worker, for a handshake that ended as `ok` says. */
    method WorkerFinish(ok: bool)
      requires Holds() && hand.Some?
      modifies this`hand, this`tailDq, this`verdicts, tasksDq
      ensures Holds() && Value() == Next(old(Value()), if ok then Finish else Fail)
    {
      if ok {
        tasksDq[tailDq] := hand.value;
        tailDq := (tailDq + 1) % SIZE;
      }
      hand := None;
      verdicts := verdicts + [ok];
    }

    /** ssl_al_worker_dequeue */
    method WorkerDequeue() returns (ret: int, task: Option<Task>)
      requires Holds()
      modifies this`headDq, this`delivered
      ensures Holds() && Value() == Next(old(Value()), Dequeue)
      ensures ret == (if old(headDq) == old(tailDq) then 0 else 1) && (ret == 1 <==> task.Some?)
      ensures task == if old(headDq) == old(tailDq) then None else Some(old(tasksDq[headDq]))
    {
      if headDq == tailDq {
        return 0, None;
      }
      task := Some(tasksDq[headDq]);
      headDq := (headDq + 1) % SIZE;
      delivered := delivered + [task.value];
      ret := 1;
    }

    /** ssl_al_worker_dequeue_all, while the worker adds nothing: everything waiting is handed over, in order. */
    method WorkerDequeueAll() returns (ret: int, handed: seq<Task>)
      requires Holds()
      modifies this`headDq, this`delivered
      ensures Holds() && headDq == tailDq
      ensures handed == Contents(old(Value()).dq) && delivered == old(delivered) + handed
      ensures ret == if handed == [] then 0 else 1
    {
      ghost var waiting := Contents(Value().dq);
      ghost var before := Value().dq;
      var more, task := WorkerDequeue();
      if more == 0 {
        return 0, [];
      }
      RemovedIsTail(before);
      handed := [task.value];
      while more != 0
        invariant Holds() && more != 0
        invariant handed != [] && handed + Contents(Value().dq) == waiting
        invariant delivered == old(delivered) + handed
        invariant headDq < SIZE && tailDq < SIZE
        decreases |Contents(Value().dq)|
      {
        before := Value().dq;
        more, task := WorkerDequeue();
        if more == 0 {
          break;
        }
        RemovedIsTail(before);
        FirstMoves(handed, Contents(before));
        handed := handed + [task.value];
      }
      ret := 1;
    }
  }
}

/** Round-robin spawning: which tiles a spawn call visits, and when the next call comes. */
module SpawnFairness {
  import opened Wrappers
  import opened Torus
  import opened EventRing
  import opened World
  import opened Steps
  import opened Ledger

  // ----- how often a tile is visited -----

  /** How many of `len` tiles in a row, from index `start` on around the map, are tile t. */
  ghost function Visits(n: nat, start: int, len: nat, t: int): nat
    requires n > 0
  {
    if len == 0 then 0
    else Visits(n, start, len - 1, t) + if (start + (len - 1)) % n == t then 1 else 0
  }

  /** The steps from `start` forward to tile t. */
  ghost function Distance(n: nat, start: int, t: int): (d: nat)
    requires n > 0
    ensures d < n
  {
    (t - start) % n
  }

  /** A step is at tile t exactly when it is a whole number of rounds past the distance. */
  lemma VisitedWhen(n: nat, start: int, j: nat, t: int)
    requires 0 <= t < n
    ensures (start + j) % n == t <==> j % n == Distance(n, start, t)
  {
    var d := Distance(n, start, t);
    if (start + j) % n == t {
      ModAdd(start + j, -start, n);
    }
    if j % n == d {
      ModAdd(j, start, n);
      ModAdd(t - start, start, n);
      ModUnique(t, n, 0, t);
    }
  }

  lemma NextLength(len: nat, n: nat)
    requires n > 0
    ensures len % n + 1 < n ==> (len + 1) % n == len % n + 1 && (len + 1) / n == len / n
    ensures len % n + 1 == n ==> (len + 1) % n == 0 && (len + 1) / n == len / n + 1
  {
    var q, r := len / n, len % n;
    assert len == q * n + r;
    if r + 1 < n {
      Quotient(len + 1, n, q, r + 1);
    } else {
      assert (q + 1) * n == q * n + n;
      Quotient(len + 1, n, q + 1, 0);
    }
  }

  /** One visit a round, and one more in the last, broken round if it gets that far. */
  ghost function Share(n: nat, len: nat, d: nat): nat
    requires n > 0
  {
    len / n + if len % n > d then 1 else 0
  }

  lemma ShareNext(n: nat, len: nat, d: nat)
    requires d < n
    ensures Share(n, len + 1, d) == Share(n, len, d) + if len % n == d then 1 else 0
  {
    NextLength(len, n);
  }

  lemma {:induction false} VisitsExactly(n: nat, start: int, len: nat, t: int)
    requires 0 <= t < n
    ensures Visits(n, start, len, t) == Share(n, len, Distance(n, start, t))
  {
    if len > 0 {
      VisitsExactly(n, start, len - 1, t);
      VisitedWhen(n, start, len - 1, t);
      ShareNext(n, len - 1, Distance(n, start, t));
    }
  }

  /** No tile gets ahead of another by more than one visit: floor or ceiling of len / n. */
  lemma VisitsAreFair(n: nat, start: int, len: nat, t: int)
    requires 0 <= t < n
    ensures Visits(n, start, len, t) == len / n || (len % n > 0 && Visits(n, start, len, t) == len / n + 1)
  {
    VisitsExactly(n, start, len, t);
  }

  lemma {:induction false} VisitsAdd(n: nat, start: int, a: nat, b: nat, t: int)
    requires n > 0
    ensures Visits(n, start, a + b, t) == Visits(n, start, a, t) + Visits(n, (start + a) % n, b, t)
  {
    if b > 0 {
      VisitsAdd(n, start, a, b - 1, t);
      ModAdd(start + a, b - 1, n);
      assert start + (a + b - 1) == start + a + (b - 1);
    }
  }

  // ----- one spawn call -----

  /** A call visits a tile at most once: the result on a tile is one refill or nothing. */
  lemma {:induction false} SpawnOnAt(items: seq<Inventory>, from: int, drops: seq<Inventory>, len: nat, t: nat)
    requires |items| > 0 && from >= 0 && len <= |drops| && len <= |items| && t < |items|
    ensures var d := Distance(|items|, from, t);
      SpawnOn(items, from, drops, len)[t] == if d < len then Refill(items[t], drops[d]) else items[t]
  {
    if len > 0 {
      SpawnOnAt(items, from, drops, len - 1, t);
      VisitedWhen(|items|, from, len - 1, t);
      Quotient(len - 1, |items|, 0, len - 1);
    }
  }

  /** All items of a list, of whatever kind. */
  ghost function CountAll(counts: seq<int>): int {
    if counts == [] then 0 else CountAll(counts[..|counts| - 1]) + counts[|counts| - 1]
  }

  /** The sum the source writes out leaves no kind out. */
  lemma InventorySumIsAll(inv: Inventory)
    ensures InventorySum(inv) == CountAll(inv)
  {
    assert inv[..6][..5] == inv[..5] && inv[..5][..4] == inv[..4] && inv[..4][..3] == inv[..3];
    assert inv[..3][..2] == inv[..2] && inv[..2][..1] == inv[..1] && inv[..1][..0] == [];
    assert CountAll(inv[..1]) == inv[0];
    assert CountAll(inv[..2]) == inv[0] + inv[1];
    assert CountAll(inv[..3]) == CountAll(inv[..2]) + inv[2];
    assert CountAll(inv[..4]) == CountAll(inv[..3]) + inv[3];
    assert CountAll(inv[..5]) == CountAll(inv[..4]) + inv[4];
    assert CountAll(inv[..6]) == CountAll(inv[..5]) + inv[5];
  }

  /** A call visits five percent of the map, rounded up, and at most 1000 tiles. */
  lemma BatchIsFivePercent(size: nat)
    requires size > 0
    ensures if size <= 20000 then 100 * (Batch(size) - 1) < 5 * size <= 100 * Batch(size) else Batch(size) == 1000
  {
  }

  /** The j-th tile from an index on is tile t. */
  ghost predicate Reaches(n: nat, from: int, j: nat, t: int)
    requires n > 0
  {
    (from + j) % n == t
  }

  /** A spawn call comes past the tile. */
  ghost predicate Visited<K>(w: World<K>, a: Action<K>, t: int)
    requires Enabled(w, a)
  {
    a.Spawns? && exists j: nat | j < |a.drops| :: Reaches(|w.items|, w.nextIdx, j, t)
  }

  /** Within one round a tile has one place. */
  lemma PlaceInRound(n: nat, start: int, len: nat, t: int)
    requires 0 <= t < n && len <= n
    ensures (exists j: nat | j < len :: Reaches(n, start, j, t)) <==> Distance(n, start, t) < len
  {
    var d := Distance(n, start, t);
    VisitedWhen(n, start, d, t);
    ModUnique(d, n, 0, d);
    assert Reaches(n, start, d, t);
    if j: nat :| j < len && Reaches(n, start, j, t) {
      VisitedWhen(n, start, j, t);
      ModUnique(j, n, 0, j);
    }
  }

  lemma VisitedPlace<K>(w: World<K>, drops: seq<Inventory>, t: int)
    requires Enabled(w, Spawns(drops)) && 0 <= t < |w.items|
    ensures Visited(w, Spawns(drops), t) <==> Distance(|w.items|, w.nextIdx, t) < |drops|
  {
    PlaceInRound(|w.items|, w.nextIdx, |drops|, t);
  }

  /**
   What a spawn call does to a tile: if it is visited and holds at most 15 items, what was drawn for its
   place in the batch is added, kind by kind; else it stays as it is.
   */
  lemma SpawnedAt<K>(w: World<K>, drops: seq<Inventory>, t: nat, kind: Kind)
    requires Enabled(w, Spawns(drops)) && t < |w.items|
    ensures var d := Distance(|w.items|, w.nextIdx, t);
      && (Visited(w, Spawns(drops), t) <==> d < |drops|)
      && |Apply(w, Spawns(drops)).items| == |w.items|
      && Apply(w, Spawns(drops)).items[t][kind] ==
           w.items[t][kind] + if Visited(w, Spawns(drops), t) && CountAll(w.items[t]) <= 15 then drops[d][kind] else 0
  {
    VisitedPlace(w, drops, t);
    SpawnOnAt(w.items, w.nextIdx, drops, |drops|, t);
    InventorySumIsAll(w.items[t]);
  }

  // ----- over the runs of the server -----

  /** How many spawn calls a run makes. */
  ghost function Calls<K>(actions: seq<Action<K>>): nat {
    if actions == [] then 0 else (if actions[0].Spawns? then 1 else 0) + Calls(actions[1..])
  }

  /** How often the spawn calls of a run come past a tile. */
  ghost function VisitsIn<K>(w: World<K>, actions: seq<Action<K>>, t: int): nat
    requires CanRun(w, actions)
    decreases actions
  {
    if actions == [] then 0
    else (if Visited(w, actions[0], t) then 1 else 0) + VisitsIn(Apply(w, actions[0]), actions[1..], t)
  }

  /** The next index and the number of tiles are as they were. */
  ghost predicate SameRound<K>(w: World<K>, w': World<K>) {
    w'.nextIdx == w.nextIdx && |w'.items| == |w.items|
  }

  lemma CarrierKeepsIndex<K>(w: World<K>, k: K, c: Command, arg: Option<Arg>)
    requires Shaped(w) && k in w.players && (c == Prend || c == Pose)
    ensures SameRound(w, Call(w, k, Do(c), arg))
  {
    TransferAnswers(w, k, c, arg);
  }

  lemma StartKeepsIndex<K>(w: World<K>, k: K)
    requires Stands(w, k)
    ensures SameRound(w, StartIncantation(w, k))
  {
    if CanIncantate(w, k, true) {
      TileIndexInRange(w.width, w.height, w.players[k].x, w.players[k].y);
    }
  }

  lemma PayerKeepsIndex<K>(w: World<K>, k: K, arg: Option<Arg>)
    requires Shaped(w) && k in w.players
    ensures SameRound(w, Call(w, k, Do(Incantation), arg))
  {
    StartKeepsIndex(w, k);
    assert Call(w, k, Do(Incantation), arg) == StartIncantation(w, k);
  }

  lemma CommandKeepsIndex<K>(w: World<K>, k: K, c: Command, arg: Option<Arg>)
    requires Shaped(w) && k in w.players
    ensures SameRound(w, Call(w, k, Do(c), arg))
  {
    if c == Prend || c == Pose {
      CarrierKeepsIndex(w, k, c, arg);
    } else if c == Incantation {
      PayerKeepsIndex(w, k, arg);
    }
  }

  lemma ResolutionKeepsIndex<K>(w: World<K>, k: K, level: int)
    requires Shaped(w) && k in w.players
    ensures SameRound(w, FinishIncantation(w, k, level))
  {
  }

  /** Nothing but a spawn call moves the next index, and nothing changes the size of the map. */
  lemma OtherKeepsIndex<K>(w: World<K>, a: Action<K>)
    requires Enabled(w, a) && !a.Spawns?
    ensures SameRound(w, Apply(w, a))
  {
    if a.Turn? {
      TurnIsDeed(w, a.slot);
      match DeedOf(w, a.slot)
      case Runs(_, k, Do(c), arg) => CommandKeepsIndex(w, k, c, arg);
      case Runs(_, k, ResolveIncantation, arg) => ResolutionKeepsIndex(w, k, LevelOf(arg));
      case _ =>
    }
  }

  /** A call comes past a tile as often as the tile is among the next Batch(n) indices. */
  lemma VisitedIsVisits<K>(w: World<K>, drops: seq<Inventory>, t: int)
    requires Enabled(w, Spawns(drops)) && 0 <= t < |w.items|
    ensures Visits(|w.items|, w.nextIdx, Batch(|w.items|), t) == if Visited(w, Spawns(drops), t) then 1 else 0
  {
    var n, len := |w.items|, Batch(|w.items|);
    VisitedPlace(w, drops, t);
    VisitsExactly(n, w.nextIdx, len, t);
    if len < n {
      Quotient(len, n, 0, len);
    } else {
      Quotient(len, n, 1, 0);
    }
  }

  /** One call, then the others: the indices join, and so do the visits. */
  lemma CallsJoin(start: int, n: nat, batch: nat, calls: nat, t: int)
    requires 0 <= start < n
    ensures calls * batch >= 0 && (calls + 1) * batch == batch + calls * batch
    ensures ((start + batch) % n + calls * batch) % n == (start + (calls + 1) * batch) % n
    ensures Visits(n, start, (calls + 1) * batch, t) == Visits(n, start, batch, t) + Visits(n, (start + batch) % n, calls * batch, t)
  {
    var rest := calls * batch;
    ModAdd(start + batch, rest, n);
    VisitsAdd(n, start, batch, rest, t);
  }

  lemma SpawnMovesIndex<K>(w: World<K>, drops: seq<Inventory>)
    requires Enabled(w, Spawns(drops))
    ensures var w1 := Apply(w, Spawns(drops));
      w1.nextIdx == (w.nextIdx + Batch(|w.items|)) % |w.items| && |w1.items| == |w.items|
  {
  }

  /** The spawn calls of a run go round the map, one after the other, whatever happens between them. */
  lemma {:induction false} RunVisits<K>(w: World<K>, actions: seq<Action<K>>, t: int)
    requires CanRun(w, actions) && 0 <= w.nextIdx < |w.items| && 0 <= t < |w.items|
    ensures var n, w' := |w.items|, Run(w, actions);
      var visited := Calls(actions) * Batch(n);
      && |w'.items| == n && visited >= 0
      && w'.nextIdx == (w.nextIdx + visited) % n
      && VisitsIn(w, actions, t) == Visits(n, w.nextIdx, visited, t)
    decreases actions
  {
    var n := |w.items|;
    if actions == [] {
      ModUnique(w.nextIdx, n, 0, w.nextIdx);
    } else {
      var w1 := Apply(w, actions[0]);
      if actions[0].Spawns? {
        SpawnMovesIndex(w, actions[0].drops);
        RunVisits(w1, actions[1..], t);
        VisitedIsVisits(w, actions[0].drops, t);
        CallsJoin(w.nextIdx, n, Batch(n), Calls(actions[1..]), t);
      } else {
        OtherKeepsIndex(w, actions[0]);
        RunVisits(w1, actions[1..], t);
      }
    }
  }

  /**
   From game_init, over any run: after k spawn calls the next index is k batches on, and every tile was
   visited the floor or the ceiling of k * batch / size times.
   */
  lemma SpawningIsFair<K>(w: World<K>, actions: seq<Action<K>>, t: int)
    requires Initial(w) && CanRun(w, actions) && 0 <= t < |w.items|
    ensures var n := |w.items|;
      var total := Calls(actions) * Batch(n);
      && |Run(w, actions).items| == n && total >= 0
      && Run(w, actions).nextIdx == total % n
      && (VisitsIn(w, actions, t) == total / n || (total % n > 0 && VisitsIn(w, actions, t) == total / n + 1))
  {
    RunVisits(w, actions, t);
    VisitsAreFair(|w.items|, 0, Calls(actions) * Batch(|w.items|), t);
  }

  // ----- the spawn event of the server -----

  /** The server's own buffer beside the server, and how often it has spawned. */
  datatype Respawn<K> = Respawn(ring: Ring<(), ()>, w: World<K>, calls: nat)

  /** What happens up to the end of a pass: anything but spawning, and what is drawn in case a spawn call is due. */
  datatype Beat<K> = Beat(others: seq<Action<K>>, drops: seq<Inventory>)

  ghost predicate NoSpawns<K>(actions: seq<Action<K>>) {
    forall a <- actions :: !a.Spawns?
  }

  ghost predicate CanPass<K>(s: Respawn<K>, b: Beat<K>) {
    && EventRing.Valid(s.ring) && CanRun(s.w, b.others) && NoSpawns(b.others)
    && Enabled(Run(s.w, b.others), Spawns(b.drops))
  }

  /** The head of the server's buffer is processed at the end of a pass; a spawn schedules the next one. */
  ghost function Pass<K>(s: Respawn<K>, b: Beat<K>, period: nat): Respawn<K>
    requires CanPass(s, b)
  {
    var w := Run(s.w, b.others);
    var p := Process(s.ring, w.now, PushesBack(period, Some(()), None));
    if p.ran.None? then s.(w := w) else Respawn(p.ring, Apply(w, Spawns(b.drops)), s.calls + 1)
  }

  /** Exactly one spawn event is queued, and it runs the spawn. */
  ghost predicate Armed(ring: Ring<(), ()>) {
    EventRing.Valid(ring) && |Live(ring)| == 1 && Live(ring)[0].call == Some(()) && Live(ring)[0].arg == None
  }

  /** game_init arms the buffer. */
  lemma InitArms(now: int, period: nat)
    ensures Armed(PushBack(Empty(), now, period, Some(()), None).1)
  {
    PushBackAppends<(), ()>(Empty(), now, period, Some(()), None);
  }

  /** The steps of the server that a pass makes. */
  ghost function PassActions<K>(s: Respawn<K>, b: Beat<K>): seq<Action<K>>
    requires CanPass(s, b)
  {
    b.others + if IsDue(s.ring, Run(s.w, b.others).now) then [Spawns(b.drops)] else []
  }

  /**
   A pass spawns if and only if the event is due, and leaves exactly one event queued; if it spawned, that
   is due a period later.
   */
  lemma PassKeepsArmed<K>(s: Respawn<K>, b: Beat<K>, period: nat)
    requires Armed(s.ring) && CanPass(s, b)
    ensures var s', now := Pass(s, b, period), Run(s.w, b.others).now;
      && Armed(s'.ring)
      && if Live(s.ring)[0].time <= now then s'.calls == s.calls + 1 && Live(s'.ring)[0].time == now + period
         else s'.calls == s.calls && s'.ring == s.ring
  {
    var now := Run(s.w, b.others).now;
    assert Live(s.ring)[0] == s.ring.slots[s.ring.head];
    if IsDue(s.ring, now) {
      BackPass(s.ring, now, period, Some(()), None);
    } else {
      NotDueIsNoOp(s.ring, now, PushesBack(period, Some(()), None));
    }
  }

  lemma {:induction false} RunsJoin<K>(w: World<K>, a: seq<Action<K>>, b: seq<Action<K>>)
    requires CanRun(w, a) && CanRun(Run(w, a), b)
    ensures CanRun(w, a + b) && Run(w, a + b) == Run(Run(w, a), b) && Calls(a + b) == Calls(a) + Calls(b)
    decreases a
  {
    if a == [] {
      assert a + b == b;
    } else {
      assert (a + b)[1..] == a[1..] + b;
      RunsJoin(Apply(w, a[0]), a[1..], b);
    }
  }

  lemma {:induction false} NoSpawnsNoCalls<K>(actions: seq<Action<K>>)
    requires NoSpawns(actions)
    ensures Calls(actions) == 0
  {
    if actions != [] {
      assert !actions[0].Spawns?;
      NoSpawnsNoCalls(actions[1..]);
    }
  }

  /** A pass is a run of the server that calls the spawn as often as the pass counts. */
  lemma PassIsRun<K>(s: Respawn<K>, b: Beat<K>, period: nat)
    requires Armed(s.ring) && CanPass(s, b)
    ensures var s', acts := Pass(s, b, period), PassActions(s, b);
      CanRun(s.w, acts) && Run(s.w, acts) == s'.w && s'.calls == s.calls + Calls(acts)
  {
    var w := Run(s.w, b.others);
    var last := if IsDue(s.ring, w.now) then [Spawns(b.drops)] else [];
    PassKeepsArmed(s, b, period);
    assert Live(s.ring)[0] == s.ring.slots[s.ring.head];
    assert last != [] ==> last[1..] == [];
    RunsJoin(s.w, b.others, last);
    NoSpawnsNoCalls(b.others);
    if !IsDue(s.ring, w.now) {
      NotDueIsNoOp(s.ring, w.now, PushesBack(period, Some(()), None));
    }
  }

  ghost predicate CanPassAll<K>(s: Respawn<K>, beats: seq<Beat<K>>, period: nat)
    decreases |beats|
  {
    beats == [] || (CanPass(s, beats[0]) && CanPassAll(Pass(s, beats[0], period), beats[1..], period))
  }

  ghost function Passes<K>(s: Respawn<K>, beats: seq<Beat<K>>, period: nat): Respawn<K>
    requires CanPassAll(s, beats, period)
    decreases |beats|
  {
    if beats == [] then s else Passes(Pass(s, beats[0], period), beats[1..], period)
  }

  /** Any passes are a run of the server, and leave exactly one spawn event queued. */
  lemma {:induction false} PassesAreRun<K>(s: Respawn<K>, beats: seq<Beat<K>>, period: nat) returns (acts: seq<Action<K>>)
    requires Armed(s.ring) && CanPassAll(s, beats, period)
    ensures var s' := Passes(s, beats, period);
      Armed(s'.ring) && CanRun(s.w, acts) && Run(s.w, acts) == s'.w && s'.calls == s.calls + Calls(acts)
    decreases |beats|
  {
    acts := [];
    if beats != [] {
      var s1 := Pass(s, beats[0], period);
      PassKeepsArmed(s, beats[0], period);
      PassIsRun(s, beats[0], period);
      var rest := PassesAreRun(s1, beats[1..], period);
      RunsJoin(s.w, PassActions(s, beats[0]), rest);
      acts := PassActions(s, beats[0]) + rest;
    }
  }

  /**
   From game_init with respawn on, over any passes and whatever the clients do: exactly one spawn event is
   queued between passes, the next index is that of the calls made, and these were fair to every tile.
   */
  lemma RespawnGoesOn<K>(w: World<K>, period: nat, beats: seq<Beat<K>>, t: int) returns (acts: seq<Action<K>>)
    requires Initial(w) && 0 <= t < |w.items|
    requires CanPassAll(Respawn(PushBack(Empty(), w.now, period, Some(()), None).1, w, 0), beats, period)
    ensures var s := Passes(Respawn(PushBack(Empty(), w.now, period, Some(()), None).1, w, 0), beats, period);
      var n := |w.items|;
      var total := s.calls * Batch(n);
      && Armed(s.ring) && total >= 0
      && CanRun(w, acts) && s.w == Run(w, acts) && s.calls == Calls(acts)
      && s.w.nextIdx == total % n
      && (VisitsIn(w, acts, t) == total / n || (total % n > 0 && VisitsIn(w, acts, t) == total / n + 1))
  {
    InitArms(w.now, period);
    acts := PassesAreRun(Respawn(PushBack(Empty(), w.now, period, Some(()), None).1, w, 0), beats, period);
    SpawningIsFair(w, acts, t);
  }
}

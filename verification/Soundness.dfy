/**
 What every operation of the server keeps: the tile lists, the client table, the team
 counters, and stocks that never go negative.
 */
module Soundness {
  import opened Wrappers
  import opened Torus
  import opened EventRing
  import opened World
  import opened Tally

  ghost predicate NoDup<T>(s: seq<T>) {
    forall i, j | 0 <= i < j < |s| :: s[i] != s[j]
  }

  /** A list without repetitions, of players standing on tile `t`. */
  ghost predicate RowOk<K>(row: seq<K>, players: map<K, Player>, width: int, t: int) {
    NoDup(row) && forall k <- row :: k in players && TileOf(width, players[k]) == t
  }

  /** Every player is in exactly one tile list, once: the list of the tile it stands on. */
  ghost predicate Placed<K>(w: World<K>) {
    && (forall t {:trigger RowOk(w.rows[t], w.players, w.width, t)} | 0 <= t < |w.rows| ::
          RowOk(w.rows[t], w.players, w.width, t))
    && (forall k <- w.players ::
          0 <= TileOf(w.width, w.players[k]) < |w.rows| && k in w.rows[TileOf(w.width, w.players[k])])
  }

  /** Every player is in exactly one slot of the client table. */
  ghost predicate Seated<K>(w: World<K>) {
    && Once(w.slots)
    && (forall k <- w.players :: Some(k) in w.slots)
  }

  ghost function OnTeam<K>(players: map<K, Player>, team: int): map<K, int> {
    map k <- players :: if players[k].team == team then 1 else 0
  }

  /** Each counter is the number of slots held by the team, and at most its room. */
  ghost predicate Counted<K>(w: World<K>) {
    && w.cap * |w.counts| <= |w.slots|
    && forall t | 0 <= t < |w.counts| ::
         w.counts[t] == Sum(w.slots, OnTeam(w.players, t)) && w.counts[t] <= w.cap
  }

  ghost predicate Stocked<K>(w: World<K>) {
    && (forall t | 0 <= t < |w.items| :: Covers(w.items[t], NOTHING))
    && (forall k <- w.players :: Covers(w.players[k].inv, NOTHING))
    && w.nextIdx >= 0
  }

  ghost predicate Sound<K>(w: World<K>) {
    Shaped(w) && Placed(w) && Seated(w) && Counted(w) && Stocked(w)
  }

  // ----- lists -----

  lemma TakeShift<T>(s: seq<T>, j: nat)
    requires j < |s|
    ensures s[..j + 1] == [s[0]] + s[1..][..j]
  {
  }

  lemma DropShift<T>(s: seq<T>, j: nat)
    requires j < |s|
    ensures s[j + 1..] == s[1..][j..]
  {
  }

  lemma {:induction false} WithoutSplices<T>(s: seq<T>, k: T) returns (i: nat)
    requires k in s
    ensures i < |s| && s[i] == k && k !in s[..i]
    ensures Without(s, k) == s[..i] + s[i + 1..]
  {
    if s[0] == k {
      i := 0;
    } else {
      var j := WithoutSplices(s[1..], k);
      i := j + 1;
      TakeShift(s, j);
      DropShift(s, j + 1);
    }
  }

  /** Removal takes out the named member only and leaves the others in order. */
  lemma WithoutNoDup<T>(s: seq<T>, k: T)
    requires NoDup(s) && k in s
    ensures NoDup(Without(s, k))
    ensures k !in Without(s, k)
    ensures forall q :: q != k ==> (q in Without(s, k) <==> q in s)
    ensures exists i | 0 <= i < |s| :: s[i] == k && Without(s, k) == s[..i] + s[i + 1..]
  {
    var i := WithoutSplices(s, k);
    forall q | q != k && q in s
      ensures q in Without(s, k)
    {
      var j :| 0 <= j < |s| && s[j] == q;
      assert Without(s, k)[if j < i then j else j - 1] == q;
    }
    assert s[i] == k;
  }

  // ----- changes that move nobody -----

  /** The same players in the same places and teams. */
  ghost predicate SamePlaces<K>(a: map<K, Player>, b: map<K, Player>) {
    && a.Keys == b.Keys
    && forall k <- a :: a[k].x == b[k].x && a[k].y == b[k].y && a[k].team == b[k].team
  }

  lemma RelabelSound<K>(w: World<K>, players: map<K, Player>)
    requires Sound(w)
    requires SamePlaces(w.players, players)
    requires forall k <- players :: 1 <= players[k].level <= LEVEL_MAX && Covers(players[k].inv, NOTHING)
    ensures Sound(w.(players := players))
  {
    var w' := w.(players := players);
    assert Shaped(w');
    assert forall t :: OnTeam(players, t) == OnTeam(w.players, t);
    forall t | 0 <= t < |w.rows|
      ensures RowOk(w.rows[t], players, w.width, t)
    {
      assert RowOk(w.rows[t], w.players, w.width, t);
    }
  }

  /** One player changes, without moving or changing team. */
  lemma ReplaceSound<K>(w: World<K>, k: K, p: Player)
    requires Sound(w) && k in w.players
    requires p.x == w.players[k].x && p.y == w.players[k].y && p.team == w.players[k].team
    requires 1 <= p.level <= LEVEL_MAX && Covers(p.inv, NOTHING)
    ensures Sound(w.(players := w.players[k := p]))
  {
    RelabelSound(w, w.players[k := p]);
  }

  lemma RestockSound<K>(w: World<K>, items: seq<Inventory>)
    requires Sound(w)
    requires |items| == |w.items| && forall t | 0 <= t < |items| :: Covers(items[t], NOTHING)
    ensures Sound(w.(items := items))
  {
  }

  lemma RequeueSound<K>(w: World<K>, rings: map<K, Ring<Callback<K>, Arg>>)
    requires Sound(w)
    requires rings.Keys == w.rings.Keys && forall k <- rings :: EventRing.Valid(rings[k])
    ensures Sound(w.(rings := rings))
  {
  }

  /** Replies and the clock do not matter. */
  lemma SpokenSound<K>(w: World<K>, outbox: seq<Reply>)
    requires Sound(w)
    ensures Sound(w.(outbox := outbox))
  {
  }

  lemma TickSound<K>(w: World<K>, now: int)
    requires Sound(w)
    ensures Sound(w.(now := now))
  {
  }

  // ----- moving -----

  lemma MoveShaped<K>(w: World<K>, k: K, x: int, y: int)
    requires Shaped(w) && k in w.players && OnMap(w.width, w.height, x, y)
    ensures Shaped(MovePlayer(w, k, x, y))
  {
    TileIndexInRange(w.width, w.height, x, y);
  }

  /** The same for everyone but `k`, who is in no list. */
  ghost predicate PlacedBut<K>(w: World<K>, k: K) {
    && (forall t {:trigger RowOk(w.rows[t], w.players, w.width, t)} | 0 <= t < |w.rows| ::
          RowOk(w.rows[t], w.players, w.width, t) && k !in w.rows[t])
    && (forall q <- w.players :: q != k ==>
         0 <= TileOf(w.width, w.players[q]) < |w.rows| && q in w.rows[TileOf(w.width, w.players[q])])
  }

  lemma LiftPlaced<K>(w: World<K>, k: K)
    requires Shaped(w) && Placed(w) && k in w.players
    ensures PlacedBut(Lift(w, k), k)
    ensures Shaped(Lift(w, k))
  {
    TileIndexInRange(w.width, w.height, w.players[k].x, w.players[k].y);
    var from := TileOf(w.width, w.players[k]);
    assert RowOk(w.rows[from], w.players, w.width, from);
    WithoutNoDup(w.rows[from], k);
    var lifted := Lift(w, k);
    forall t | 0 <= t < |w.rows|
      ensures RowOk(lifted.rows[t], w.players, w.width, t) && k !in lifted.rows[t]
    {
      assert RowOk(w.rows[t], w.players, w.width, t);
    }
  }

  lemma DropPlaced<K>(w: World<K>, k: K, x: int, y: int)
    requires Shaped(w) && PlacedBut(w, k) && k in w.players && OnMap(w.width, w.height, x, y)
    ensures Placed(Drop(w, k, x, y))
  {
    TileIndexInRange(w.width, w.height, x, y);
    var to := TileIndex(w.width, x, y);
    var w' := Drop(w, k, x, y);
    assert TileOf(w.width, w'.players[k]) == to;
    forall t | 0 <= t < |w.rows|
      ensures RowOk(w'.rows[t], w'.players, w.width, t)
    {
      assert RowOk(w.rows[t], w.players, w.width, t) && k !in w.rows[t];
    }
    forall q | q in w.players && q != k
      ensures q in w'.rows[TileOf(w.width, w'.players[q])]
    {
      assert w'.players[q] == w.players[q];
    }
  }

  lemma MovePlaced<K>(w: World<K>, k: K, x: int, y: int)
    requires Shaped(w) && Placed(w) && k in w.players && OnMap(w.width, w.height, x, y)
    ensures Placed(MovePlayer(w, k, x, y))
  {
    LiftPlaced(w, k);
    DropPlaced(Lift(w, k), k, x, y);
  }

  lemma {:induction false} WithoutAbsent<T>(s: seq<T>, k: T)
    requires k !in s
    ensures Without(s, k) == s
    ensures Without([k] + s, k) == s
  {
    if s != [] {
      WithoutAbsent(s[1..], k);
    }
  }

  /** A move puts the player at the head of its new list and leaves everyone else's order alone. */
  lemma MoveSplices<K>(w: World<K>, k: K, x: int, y: int)
    requires Shaped(w) && Placed(w) && k in w.players && OnMap(w.width, w.height, x, y)
    ensures var w' := MovePlayer(w, k, x, y);
      && 0 <= TileIndex(w.width, x, y) < |w'.rows| == |w.rows|
      && w'.rows[TileIndex(w.width, x, y)][..1] == [k]
      && forall t | 0 <= t < |w.rows| :: Without(w'.rows[t], k) == Without(w.rows[t], k)
  {
    TileIndexInRange(w.width, w.height, x, y);
    LiftPlaced(w, k);
    var lifted, w' := Lift(w, k), MovePlayer(w, k, x, y);
    forall t | 0 <= t < |w.rows|
      ensures Without(w'.rows[t], k) == Without(w.rows[t], k)
    {
      assert RowOk(lifted.rows[t], w.players, w.width, t) && k !in lifted.rows[t];
      WithoutAbsent(lifted.rows[t], k);
    }
  }

  lemma MoveCounted<K>(w: World<K>, k: K, x: int, y: int)
    requires Shaped(w) && Counted(w) && k in w.players && OnMap(w.width, w.height, x, y)
    ensures Counted(MovePlayer(w, k, x, y))
  {
    var w' := MovePlayer(w, k, x, y);
    forall t | 0 <= t < |w.counts|
      ensures OnTeam(w'.players, t) == OnTeam(w.players, t)
    {
    }
  }

  lemma MoveSound<K>(w: World<K>, k: K, x: int, y: int)
    requires Sound(w) && k in w.players && OnMap(w.width, w.height, x, y)
    ensures Sound(MovePlayer(w, k, x, y))
  {
    MoveShaped(w, k, x, y);
    MovePlaced(w, k, x, y);
    MoveCounted(w, k, x, y);
  }

  // ----- joining -----

  /** Players of the first n teams. */
  ghost function OnTeamsBelow<K>(players: map<K, Player>, n: int): map<K, int> {
    map k <- players :: if players[k].team < n then 1 else 0
  }

  lemma {:induction false} TeamsBelowBounded<K>(w: World<K>, n: nat, team: nat)
    requires Counted(w) && n <= |w.counts| && team < |w.counts| && w.counts[team] < w.cap
    ensures Sum(w.slots, OnTeamsBelow(w.players, n)) <= n * w.cap - (if team < n then 1 else 0)
  {
    if n == 0 {
      SumAgrees(w.slots, OnTeamsBelow(w.players, 0), map[]);
      SumAdds(w.slots, map[], map[], map[]);
    } else {
      TeamsBelowBounded(w, n - 1, team);
      SumAdds(w.slots, OnTeamsBelow(w.players, n - 1), OnTeam(w.players, n - 1), OnTeamsBelow(w.players, n));
      assert n * w.cap == (n - 1) * w.cap + w.cap;
    }
  }

  /** Whenever a team has room, the client table has a free slot, so the ignored result of adding the client is success. */
  lemma RoomOnTeamMeansFreeSlot<K>(w: World<K>, team: nat)
    requires Shaped(w) && Counted(w) && team < |w.counts| && w.counts[team] < w.cap
    ensures FirstSlot(w.slots, None) < |w.slots|
  {
    if None !in w.slots {
      var wt := OnTeamsBelow(w.players, |w.counts|);
      forall o <- w.slots
        ensures Weight(o, wt) == 1
      {
        var i :| 0 <= i < |w.slots| && w.slots[i] == o;
      }
      SumOfOnes(w.slots, wt);
      TeamsBelowBounded(w, |w.counts|, team);
      assert false;
    }
  }

  /**
   What connect_nbr answers is the room left: it is never negative, and a login to the team
   succeeds, and finds a free slot, exactly while it is not zero.
   */
  lemma ConnectNbrIsRoomLeft<K>(w: World<K>, k: K, arg: Option<Arg>, q: K, fd: int, x: int, y: int, dir: Direction)
    requires Shaped(w) && Counted(w) && k in w.players && q !in w.players && OnMap(w.width, w.height, x, y)
    ensures var team := w.players[k].team;
      exists n ::
        && Answers(w, k, ConnectNbr, arg) == [Reply(w.players[k].fd, Do(ConnectNbr), Slots(n))]
        && 0 <= n <= w.cap
        && (n > 0 <==> Login(w, q, fd, team, x, y, dir).0 == SUCCESS)
        && (n > 0 ==> Some(q) in Login(w, q, fd, team, x, y, dir).1.slots)
        && (n == 0 ==> Login(w, q, fd, team, x, y, dir) == (ERROR, w))
  {
    var team := w.players[k].team;
    var n := w.cap - w.counts[team];
    SumNonNegative(w.slots, OnTeam(w.players, team));
    if n > 0 {
      RoomOnTeamMeansFreeSlot(w, team);
      var w' := Login(w, q, fd, team, x, y, dir).1;
      assert w'.slots[FirstSlot(w.slots, None)] == Some(q);
    }
    assert Answers(w, k, ConnectNbr, arg) == [Reply(w.players[k].fd, Do(ConnectNbr), Slots(n))];
  }

  /** A login succeeds exactly with a known team that has room; otherwise it leaves no trace. */
  lemma LoginOutcome<K>(w: World<K>, k: K, fd: int, team: int, x: int, y: int, dir: Direction)
    requires Shaped(w) && k !in w.players && OnMap(w.width, w.height, x, y) && team < |w.counts|
    ensures var (code, w') := Login(w, k, fd, team, x, y, dir);
      && (code == SUCCESS <==> team >= 0 && w.counts[team] < w.cap)
      && (code == SUCCESS <==> k in w'.players)
      && (code != SUCCESS ==> w' == w && code < 0)
  {
  }

  lemma LoginPlaced<K>(w: World<K>, k: K, fd: int, team: nat, x: int, y: int, dir: Direction)
    requires Shaped(w) && Placed(w)
    requires k !in w.players && OnMap(w.width, w.height, x, y) && team < |w.counts|
    ensures Placed(Login(w, k, fd, team, x, y, dir).1)
  {
    var w' := Login(w, k, fd, team, x, y, dir).1;
    if w.counts[team] < w.cap {
      TileIndexInRange(w.width, w.height, x, y);
      assert TileOf(w.width, w'.players[k]) == TileIndex(w.width, x, y);
      forall t | 0 <= t < |w.rows|
        ensures RowOk(w'.rows[t], w'.players, w.width, t)
      {
        assert RowOk(w.rows[t], w.players, w.width, t);
      }
      forall q <- w.players
        ensures q in w'.rows[TileOf(w.width, w'.players[q])]
      {
        assert w'.players[q] == w.players[q];
      }
    }
  }

  lemma LoginCountedFor<K>(slots: seq<Option<K>>, players: map<K, Player>, i: nat, k: K, p: Player, t: int)
    requires i < |slots| && slots[i] == None && k !in players
    requires forall j | 0 <= j < |slots| && slots[j].Some? :: slots[j].value in players
    ensures Sum(slots[i := Some(k)], OnTeam(players[k := p], t)) == Sum(slots, OnTeam(players, t)) + if p.team == t then 1 else 0
  {
    SumOfUpdate(slots, i, Some(k), OnTeam(players[k := p], t));
    SumAgrees(slots, OnTeam(players, t), OnTeam(players[k := p], t));
  }

  lemma LoginCounted<K>(w: World<K>, k: K, fd: int, team: nat, x: int, y: int, dir: Direction)
    requires Shaped(w) && Counted(w)
    requires k !in w.players && OnMap(w.width, w.height, x, y) && team < |w.counts|
    ensures Counted(Login(w, k, fd, team, x, y, dir).1)
  {
    if w.counts[team] < w.cap {
      RoomOnTeamMeansFreeSlot(w, team);
      var w' := Login(w, k, fd, team, x, y, dir).1;
      var i := FirstSlot(w.slots, None);
      assert w'.slots == w.slots[i := Some(k)];
      forall t | 0 <= t < |w.counts|
        ensures w'.counts[t] == Sum(w'.slots, OnTeam(w'.players, t))
      {
        LoginCountedFor(w.slots, w.players, i, k, w'.players[k], t);
      }
    }
  }

  lemma LoginStocked<K>(w: World<K>, k: K, fd: int, team: nat, x: int, y: int, dir: Direction)
    requires Shaped(w) && Stocked(w)
    requires k !in w.players && OnMap(w.width, w.height, x, y) && team < |w.counts|
    ensures Stocked(Login(w, k, fd, team, x, y, dir).1)
  {
  }

  lemma LoginShaped<K>(w: World<K>, k: K, fd: int, team: nat, x: int, y: int, dir: Direction)
    requires Shaped(w)
    requires k !in w.players && OnMap(w.width, w.height, x, y) && team < |w.counts|
    ensures Shaped(Login(w, k, fd, team, x, y, dir).1)
  {
    TileIndexInRange(w.width, w.height, x, y);
  }

  lemma LoginSeated<K>(w: World<K>, k: K, fd: int, team: nat, x: int, y: int, dir: Direction)
    requires Shaped(w) && Seated(w) && Counted(w)
    requires k !in w.players && OnMap(w.width, w.height, x, y) && team < |w.counts| && w.counts[team] < w.cap
    ensures Seated(Login(w, k, fd, team, x, y, dir).1)
  {
    RoomOnTeamMeansFreeSlot(w, team);
    var w' := Login(w, k, fd, team, x, y, dir).1;
    var i := FirstSlot(w.slots, None);
    assert w'.slots == w.slots[i := Some(k)];
    assert w'.slots[i] == Some(k);
    forall q <- w.players
      ensures Some(q) in w'.slots
    {
      var j :| 0 <= j < |w.slots| && w.slots[j] == Some(q);
      assert w'.slots[j] == Some(q);
    }
  }

  lemma LoginSound<K>(w: World<K>, k: K, fd: int, team: int, x: int, y: int, dir: Direction)
    requires Sound(w)
    requires k !in w.players && OnMap(w.width, w.height, x, y) && team < |w.counts|
    ensures Sound(Login(w, k, fd, team, x, y, dir).1)
  {
    if team >= 0 && w.counts[team] < w.cap {
      RoomOnTeamMeansFreeSlot(w, team);
      LoginPlaced(w, k, fd, team, x, y, dir);
      LoginCounted(w, k, fd, team, x, y, dir);
      LoginSeated(w, k, fd, team, x, y, dir);
      LoginShaped(w, k, fd, team, x, y, dir);
      LoginStocked(w, k, fd, team, x, y, dir);
    }
  }

  // ----- leaving -----

  /** At a death, the slot of the client is found and the counter of its team is positive. */
  lemma RemovalNeverFails<K>(w: World<K>, k: K)
    requires Shaped(w) && Seated(w) && Counted(w) && k in w.players
    ensures FirstSlot(w.slots, Some(k)) < |w.slots|
    ensures w.counts[w.players[k].team] > 0
    ensures Leave(w, k).0 == SUCCESS
  {
    SumCovers(w.slots, OnTeam(w.players, w.players[k].team), k);
  }

  lemma LeavePlaced<K>(w: World<K>, k: K)
    requires Shaped(w) && Placed(w) && Seated(w) && Counted(w) && k in w.players
    ensures Placed(Leave(w, k).1)
  {
    RemovalNeverFails(w, k);
    LiftPlaced(w, k);
    var lifted, w' := Lift(w, k), Leave(w, k).1;
    assert w'.rows == lifted.rows;
    forall t | 0 <= t < |w'.rows|
      ensures RowOk(w'.rows[t], w'.players, w.width, t)
    {
      assert RowOk(lifted.rows[t], w.players, w.width, t) && k !in lifted.rows[t];
    }
  }

  lemma LeaveSeated<K>(w: World<K>, k: K)
    requires Shaped(w) && Seated(w) && Counted(w) && k in w.players
    ensures Seated(Leave(w, k).1)
    ensures Some(k) !in Leave(w, k).1.slots
  {
    RemovalNeverFails(w, k);
    var w' := Leave(w, k).1;
    var i := FirstSlot(w.slots, Some(k));
    forall q <- w'.players
      ensures Some(q) in w'.slots
    {
      var j :| 0 <= j < |w.slots| && w.slots[j] == Some(q);
      assert w'.slots[j] == Some(q);
    }
  }

  lemma LeaveCountedFor<K>(slots: seq<Option<K>>, players: map<K, Player>, i: nat, k: K, t: int)
    requires Once(slots) && i < |slots| && slots[i] == Some(k) && k in players
    ensures Sum(slots[i := None], OnTeam(players - {k}, t))
         == Sum(slots, OnTeam(players, t)) - if players[k].team == t then 1 else 0
  {
    SumOfUpdate(slots, i, None, OnTeam(players, t));
    SumAgrees(slots[i := None], OnTeam(players, t), OnTeam(players - {k}, t));
  }

  lemma LeaveCounted<K>(w: World<K>, k: K)
    requires Shaped(w) && Seated(w) && Counted(w) && k in w.players
    ensures Counted(Leave(w, k).1)
  {
    RemovalNeverFails(w, k);
    LeaveSeated(w, k);
    var w' := Leave(w, k).1;
    var i := FirstSlot(w.slots, Some(k));
    assert w'.slots == w.slots[i := None] && w'.players == w.players - {k};
    assert |w'.counts| == |w.counts| && |w'.slots| == |w.slots|;
    forall t | 0 <= t < |w.counts|
      ensures w'.counts[t] == Sum(w'.slots, OnTeam(w'.players, t)) <= w.cap
    {
      LeaveCountedFor(w.slots, w.players, i, k, t);
    }
  }

  lemma LeaveShaped<K>(w: World<K>, k: K)
    requires Shaped(w) && Placed(w) && Seated(w) && Counted(w) && k in w.players
    ensures Shaped(Leave(w, k).1)
  {
    RemovalNeverFails(w, k);
    LiftPlaced(w, k);
    LeaveSeated(w, k);
    var w' := Leave(w, k).1;
    assert w'.rows == Lift(w, k).rows;
  }

  lemma LeaveSound<K>(w: World<K>, k: K)
    requires Sound(w) && k in w.players
    ensures Sound(Leave(w, k).1)
  {
    LeaveShaped(w, k);
    LeavePlaced(w, k);
    LeaveSeated(w, k);
    LeaveCounted(w, k);
    RemovalNeverFails(w, k);
    assert Stocked(Leave(w, k).1);
  }

  lemma EatSound<K>(w: World<K>, k: K)
    requires Sound(w) && k in w.players && w.players[k].inv[FOOD] > 0
    ensures Sound(Eat(w, k))
  {
    ReplaceSound(w, k, Eat(w, k).players[k]);
  }

  lemma DieSound<K>(w: World<K>, k: K)
    requires Sound(w) && k in w.players
    ensures Sound(Die(w, k).1)
  {
    if w.players[k].inv[FOOD] > 0 {
      EatSound(w, k);
    } else {
      LeaveSound(w, k);
    }
  }
}

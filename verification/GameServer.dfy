/**
 The game server updated in place. The ghost field `w` is the value the heap holds; `Holds` ties
 tiles, players, client table and team counters to it, and every method ends in the value that
 the function of the same operation in `World` gives.
 */
module GameServer {
  import opened Wrappers
  import opened Torus
  import opened EventRing
  import opened World
  import opened Tally
  import opened Soundness
  import opened Steps
  import opened Incantations
  import opened TileLists
  import B = Broadcast

  class ClientObj {
    const fd: int
    const player: PlayerObj
    var buffer: Ring<Callback<PlayerObj>, Arg>

    constructor (player: PlayerObj)
      ensures this.player == player && fd == player.fd && buffer == Empty()
    {
      this.fd, this.player, this.buffer := player.fd, player, Empty();
    }
  }

  /** A place of the client table holds what the value says: nothing, or a client with its buffer. */
  ghost predicate SlotHolds(c: ClientObj?, o: Option<PlayerObj>, rings: map<PlayerObj, Ring<Callback<PlayerObj>, Arg>>,
                            seats: set<ClientObj>)
    reads c
  {
    if c == null then o == None
    else c in seats && o == Some(c.player) && c.fd == c.player.fd && c.player in rings && rings[c.player] == c.buffer
  }

  /** The tile of a position, with that position written in it. */
  ghost predicate GridAt(tiles: seq<TileObj>, width: int, x: int, y: int) {
    var t := TileIndex(width, x, y);
    0 <= t < |tiles| && tiles[t].x == x && tiles[t].y == y
  }

  /** An index holds one position only. */
  lemma TileIndexSplits(width: int, x: int, y: int)
    requires 0 <= x < width
    ensures TileIndex(width, x, y) % width == x && TileIndex(width, x, y) / width == y
  {
    var t := TileIndex(width, x, y);
    ModUnique(t, width, y, x);
    assert (t / width) * width == y * width;
    MultipleInRange(t / width - y, width, 0);
    MultipleIsFar(t / width - y, width);
  }

  /** The tiles in index order, on no list. */
  method BuildTiles(width: int, height: int, stock: seq<Inventory>) returns (tiles: seq<TileObj>)
    requires width > 0 && height > 0 && |stock| == width * height
    ensures |tiles| == |stock| && NoDup(tiles) && fresh(tiles)
    ensures forall t {:trigger tiles[t]} | 0 <= t < |tiles| ::
      tiles[t].x == t % width && tiles[t].y == t / width && tiles[t].items == stock[t] && tiles[t].players == null
  {
    tiles := [];
    var t := 0;
    while t < |stock|
      invariant 0 <= t == |tiles| <= |stock| && NoDup(tiles) && fresh(tiles)
      invariant forall i {:trigger tiles[i]} | 0 <= i < t ::
        tiles[i].x == i % width && tiles[i].y == i / width && tiles[i].items == stock[i] && tiles[i].players == null
    {
      var tile := new TileObj(t % width, t / width, stock[t]);
      tiles := tiles + [tile];
      t := t + 1;
    }
  }

  /** The value that game_init builds. */
  ghost function NewGame(config: Config, width: int, height: int, now: int, stock: seq<Inventory>, clients: nat, teams: nat)
    : (w: World<PlayerObj>)
    requires width > 0 && height > 0 && |stock| == width * height && teams > 0
    requires forall t | 0 <= t < |stock| :: Covers(stock[t], NOTHING)
    ensures Initial(w)
  {
    World(config, width, height, now, stock, seq(|stock|, _ => []), map[], seq(clients, _ => None),
          seq(teams, _ => 0), clients / teams, map[], 0, [])
  }

  /** Tiles in index order make a grid. */
  lemma GridBuilt(tiles: seq<TileObj>, width: int, height: int)
    requires width > 0 && height > 0 && |tiles| == width * height
    requires forall t {:trigger tiles[t]} | 0 <= t < |tiles| :: tiles[t].x == t % width && tiles[t].y == t / width
    ensures forall x, y {:trigger GridAt(tiles, width, x, y)} | OnMap(width, height, x, y) :: GridAt(tiles, width, x, y)
    ensures forall x, y {:trigger TileIndex(width, x, y)} | OnMap(width, height, x, y) :: 0 <= TileIndex(width, x, y) < |tiles|
  {
    forall x, y | OnMap(width, height, x, y)
      ensures GridAt(tiles, width, x, y) && 0 <= TileIndex(width, x, y) < |tiles|
    {
      TileIndexInRange(width, height, x, y);
      TileIndexSplits(width, x, y);
    }
  }

  /** A run with one login per socket leads from one server to another. */
  ghost predicate Reached(w0: World<PlayerObj>, actions: seq<Action<PlayerObj>>, w: World<PlayerObj>) {
    CanRun(w0, actions) && OneLoginEach(w0, actions) && w == Run(w0, actions)
  }

  lemma ReachedReady(w0: World<PlayerObj>, actions: seq<Action<PlayerObj>>, w: World<PlayerObj>)
    requires Ready(w0) && Reached(w0, actions, w)
    ensures Ready(w)
    decreases actions
  {
    if actions != [] {
      StepKeepsReady(w0, actions[0]);
      ReachedReady(Apply(w0, actions[0]), actions[1..], w);
    }
  }

  /** Nobody is connected on a socket that no client is found for. */
  lemma NotFoundIsFree(w: World<PlayerObj>, fd: int)
    requires Seated(w) && FindFd(w, fd).None?
    ensures forall k <- w.players :: w.players[k].fd != fd
  {
    forall k <- w.players
      ensures w.players[k].fd != fd
    {
      if w.players[k].fd == fd {
        SlotFound(w.slots, w.players, k);
      }
    }
  }

  lemma StepStaysReady(w: World<PlayerObj>, a: Action<PlayerObj>)
    requires Ready(w) && Enabled(w, a) && (a.LogsIn? ==> FindFd(w, a.fd).None?)
    ensures OneLoginPerFd(w, a) && Ready(Apply(w, a))
  {
    if a.LogsIn? {
      NotFoundIsFree(w, a.fd);
    }
    StepKeepsReady(w, a);
  }

  lemma {:induction false} RunSnoc(w: World<PlayerObj>, actions: seq<Action<PlayerObj>>, a: Action<PlayerObj>)
    requires CanRun(w, actions) && Enabled(Run(w, actions), a)
    requires OneLoginEach(w, actions) && OneLoginPerFd(Run(w, actions), a)
    ensures CanRun(w, actions + [a]) && Run(w, actions + [a]) == Apply(Run(w, actions), a)
    ensures OneLoginEach(w, actions + [a])
    decreases |actions|
  {
    if actions == [] {
      assert actions + [a] == [a] && [a][1..] == [];
    } else {
      assert (actions + [a])[0] == actions[0] && (actions + [a])[1..] == actions[1..] + [a];
      RunSnoc(Apply(w, actions[0]), actions[1..], a);
    }
  }

  lemma ReachedNext(w0: World<PlayerObj>, actions: seq<Action<PlayerObj>>, w: World<PlayerObj>, a: Action<PlayerObj>)
    requires Reached(w0, actions, w) && Ready(w) && Enabled(w, a) && (a.LogsIn? ==> FindFd(w, a.fd).None?)
    ensures Reached(w0, actions + [a], Apply(w, a))
  {
    StepStaysReady(w, a);
    RunSnoc(w0, actions, a);
  }

  /** The server after the first `n` players of a list were raised. */
  ghost function RaisedUpTo(w: World<PlayerObj>, row: seq<PlayerObj>, level: int, n: nat): World<PlayerObj>
    requires n <= |row|
  {
    var (players, replies) := RaiseRow(row[..n], w.players, level);
    w.(players := players, outbox := w.outbox + replies)
  }

  lemma TakeNext<T>(s: seq<T>, i: nat)
    requires i < |s|
    ensures s[..i + 1] == s[..i] + [s[i]]
  {
  }

  lemma {:induction false} RaiseRowSplit(row: seq<PlayerObj>, q: PlayerObj, players: map<PlayerObj, Player>, level: int)
    ensures var (before, said) := RaiseRow(row, players, level);
      var (after, last) := RaiseRow([q], before, level);
      RaiseRow(row + [q], players, level) == (after, said + last)
  {
    if row == [] {
      assert row + [q] == [q];
      var last := RaiseRow([q], players, level).1;
      assert [] + last == last;
    } else {
      assert (row + [q])[1..] == row[1..] + [q];
      if row[0] in players && players[row[0]].level == level {
        var p := players[row[0]];
        var raised := players[row[0] := p.(level := level + 1)];
        RaiseRowSplit(row[1..], q, raised, level);
        var (before, said) := RaiseRow(row[1..], raised, level);
        var last := RaiseRow([q], before, level).1;
        assert [Reply(p.fd, Do(Command.Incantation), LevelUp)] + (said + last)
            == ([Reply(p.fd, Do(Command.Incantation), LevelUp)] + said) + last;
      } else {
        RaiseRowSplit(row[1..], q, players, level);
      }
    }
  }

  lemma RaiseRowNext(w: World<PlayerObj>, row: seq<PlayerObj>, level: int, i: nat)
    requires i < |row|
    ensures var before := RaisedUpTo(w, row, level, i);
      var (players, replies) := RaiseRow([row[i]], before.players, level);
      && RaisedUpTo(w, row, level, i + 1) == before.(players := players, outbox := before.outbox + replies)
      && players.Keys == before.players.Keys
  {
    RaiseRowSplit(row[..i], row[i], w.players, level);
    TakeNext(row, i);
    RaiseRowExact([row[i]], RaisedUpTo(w, row, level, i).players, level);
  }

  lemma {:induction false} MessagesSplit(slots: seq<Option<PlayerObj>>, o: Option<PlayerObj>, players: map<PlayerObj, Player>,
                                         from: Player, text: Option<Arg>, width: int, height: int)
    requires width > 0 && height > 0
    ensures Messages(slots + [o], players, from, text, width, height)
      == Messages(slots, players, from, text, width, height) + Messages([o], players, from, text, width, height)
  {
    if slots == [] {
      assert slots + [o] == [o];
    } else {
      assert (slots + [o])[1..] == slots[1..] + [o];
      MessagesSplit(slots[1..], o, players, from, text, width, height);
    }
  }

  /** The states of a pass, turn by turn. */
  ghost predicate IsPass(w0: World<PlayerObj>, states: seq<World<PlayerObj>>) {
    && |states| == |w0.slots| + 1 && states[0] == w0
    && forall i {:trigger PlayUpTo(w0, i)} | 0 <= i < |states| :: states[i] == PlayUpTo(w0, i)
  }

  lemma PassOf(w0: World<PlayerObj>) returns (states: seq<World<PlayerObj>>)
    ensures IsPass(w0, states)
  {
    states := seq(|w0.slots| + 1, i requires 0 <= i => PlayUpTo(w0, i));
  }

  lemma NextTurn(w0: World<PlayerObj>, i: nat)
    requires Ready(w0) && i < |w0.slots|
    ensures var w := PlayUpTo(w0, i);
      && Shaped(w) && Placed(w) && Seated(w) && Counted(w) && |w.slots| == |w0.slots|
      && Defined(w, i) && PlayUpTo(w0, i + 1) == Play(w, i)
  {
    PassReady(w0, i);
    OrderlyIsDefined(PlayUpTo(w0, i), i);
    PassNext(w0, i);
  }

  /** The buffers after slot `i` was processed with a push to slot `push`, for the player that paid. */
  ghost function Written(w: World<PlayerObj>, i: nat, push: Option<nat>, payer: PlayerObj, level: int)
    : map<PlayerObj, Ring<Callback<PlayerObj>, Arg>>
    requires i < |w.slots| && w.slots[i].Some? && w.slots[i].value in w.rings
    requires forall r <- w.rings :: Valid(w.rings[r])
    requires push.Some? && push.value < |w.slots| ==> w.slots[push.value].Some? && w.slots[push.value].value in w.rings
  {
    var k := w.slots[i].value;
    var delay, call, arg := w.config.IncantationTime(), SecondPhaseOf(payer), Some(Level(level));
    var own := w.rings[k := Process(w.rings[k], w.now, if push == Some(i) then PushesFront(delay, call, arg) else Quiet).ring];
    if push.Some? && push.value != i && push.value < |w.slots| then
      var c := w.slots[push.value].value;
      own[c := PushFront(w.rings[c], w.now, delay, call, arg).1]
    else own
  }

  lemma RunRingsAre(w: World<PlayerObj>, i: nat, p: PlayerObj, job: Job, push: Option<nat>, level: int)
    requires Shaped(w) && Once(w.slots) && i < |w.slots| && w.slots[i].Some? && p in w.players
    requires level == w.players[p].level
    requires push == if job == Do(Command.Incantation) && CanIncantate(w, p, true)
                     then Some(SlotOfFd(w.slots, w.players, w.players[p].fd)) else None
    ensures RunRings(w, w.slots[i].value, p, job) == Written(w, i, push, p, level)
  {
    if push.Some? && push.value < |w.slots| && push.value != i {
      assert w.slots[push.value] != w.slots[i];
    }
  }

  /** The record of a player at login. */
  ghost function Newcomer(w: World<PlayerObj>, fd: int, team: nat, x: int, y: int, dir: Direction): Player {
    Player(fd, team, 1, x, y, dir, NOTHING, w.now + w.config.TimeToDie(), w.now)
  }

  /** A server with one more player, on the tile where it stands, not yet in the client table. */
  ghost function Enrolled(w: World<PlayerObj>, p: PlayerObj, v: Player): World<PlayerObj>
    requires v.team < |w.counts| && 0 <= TileOf(w.width, v) < |w.rows|
  {
    var t := TileOf(w.width, v);
    w.(rows := w.rows[t := [p] + w.rows[t]], players := w.players[p := v],
       counts := w.counts[v.team := w.counts[v.team] + 1], rings := w.rings[p := Empty()])
  }

  ghost function Joined(w: World<PlayerObj>, p: PlayerObj, v: Player): World<PlayerObj>
    requires v.team < |w.counts| && 0 <= TileOf(w.width, v) < |w.rows|
  {
    var i := FirstSlot(w.slots, None);
    Enrolled(w, p, v).(slots := if i < |w.slots| then w.slots[i := Some(p)] else w.slots)
  }

  lemma JoinedIsLogin(w: World<PlayerObj>, p: PlayerObj, fd: int, team: nat, x: int, y: int, dir: Direction)
    requires Shaped(w) && p !in w.players && OnMap(w.width, w.height, x, y) && team < |w.counts| && w.counts[team] < w.cap
    ensures 0 <= TileIndex(w.width, x, y) < |w.rows|
    ensures Login(w, p, fd, team, x, y, dir) == (SUCCESS, Joined(w, p, Newcomer(w, fd, team, x, y, dir)))
  {
    TileIndexInRange(w.width, w.height, x, y);
  }

  lemma NewcomerRows(w: World<PlayerObj>, p: PlayerObj, v: Player)
    requires RowsOk(w.rows, w.players, w.width) && p !in w.players
    ensures RowsOk(w.rows, w.players[p := v], w.width) && InNoRow(w.rows, p)
  {
    forall t | 0 <= t < |w.rows|
      ensures RowOk(w.rows[t], w.players[p := v], w.width, t) && p !in w.rows[t]
    {
      assert RowOk(w.rows[t], w.players, w.width, t);
    }
  }

  /** A server without one player. */
  ghost function Detached(w: World<PlayerObj>, p: PlayerObj, i: nat): World<PlayerObj>
    requires Stands(w, p) && i < |w.slots| && w.players[p].team < |w.counts|
  {
    var team := w.players[p].team;
    w.(slots := w.slots[i := None], counts := w.counts[team := w.counts[team] - 1],
       rows := Lift(w, p).rows, players := w.players - {p}, rings := w.rings - {p})
  }

  class Server {
    const config: Config
    const width: int
    const height: int
    const tiles: seq<TileObj>
    const names: seq<string>
    const clients: array<ClientObj?>
    const current: array<int>
    const cap: int
    var now: int
    var nextIdx: int
    var outbox: seq<Reply>
    ghost var w: World<PlayerObj>
    ghost var everyone: set<PlayerObj>  // all players ever created
    ghost var seats: set<ClientObj>     // all clients ever created

    ghost predicate FieldsMatch()
      reads this, current
    {
      && w.config == config && w.width == width && w.height == height && w.cap == cap
      && w.now == now && w.nextIdx == nextIdx && w.outbox == outbox
      && w.counts == current[..] && |names| == current.Length
      && w.players.Keys <= everyone
    }

    ghost predicate TilesMatch()
      reads this`w, tiles, w.players.Keys`next, w.players.Keys`prev
    {
      && |tiles| == |w.rows| == |w.items| && NoDup(tiles)
      && (forall t {:trigger tiles[t].items} {:trigger w.items[t]} | 0 <= t < |tiles| :: tiles[t].items == w.items[t])
      && AllHead(tiles, w.rows, w.players.Keys)
      && (forall x, y {:trigger TileIndex(width, x, y)} | OnMap(width, height, x, y) :: 0 <= TileIndex(width, x, y) < |tiles|)
      && (forall x, y {:trigger GridAt(tiles, width, x, y)} | OnMap(width, height, x, y) :: GridAt(tiles, width, x, y))
    }

    ghost predicate PlayersMatch()
      reads this`w, w.players.Keys
    {
      forall p <- w.players :: p.Value() == w.players[p]
    }

    ghost predicate ClientsMatch()
      reads this`w, this`seats, clients, clients[..]
    {
      && clients.Length == |w.slots|
      && forall i {:trigger SlotHolds(clients[i], w.slots[i], w.rings, seats)} | 0 <= i < clients.Length ::
           SlotHolds(clients[i], w.slots[i], w.rings, seats)
    }

    /** The heap holds the value `w`. */
    ghost predicate Holds()
      reads this, tiles, clients, current, clients[..], w.players.Keys
    {
      FieldsMatch() && TilesMatch() && PlayersMatch() && ClientsMatch()
    }

    /** game_init: `stock` are the counts drawn at random for the tiles, in index order. */
    constructor (config: Config, width: int, height: int, names: seq<string>, clientCount: nat, stock: seq<Inventory>, now: int)
      requires width > 0 && height > 0 && |names| > 0
      requires |stock| == width * height && forall t | 0 <= t < |stock| :: Covers(stock[t], NOTHING)
      ensures Holds() && Initial(w)
      ensures w.config == config && w.width == width && w.height == height && w.items == stock && w.now == now
      ensures |w.slots| == clientCount && |w.counts| == |names| && w.outbox == []
      ensures this.names == names && fresh(clients) && fresh(current) && fresh(tiles) && everyone == {} && seats == {}
    {
      var all := BuildTiles(width, height, stock);
      var table := new ClientObj?[clientCount](_ => null);
      var zeros := new int[|names|](_ => 0);
      this.config, this.width, this.height, this.names := config, width, height, names;
      tiles, clients, current, cap := all, table, zeros, clientCount / |names|;
      this.now, nextIdx, outbox, everyone, seats := now, 0, [], {}, {};
      w := NewGame(config, width, height, now, stock, clientCount, |names|);
      new;
      GridBuilt(tiles, width, height);
    }

    /** MAP(x, y) */
    function TileAt(x: int, y: int): (t: TileObj)
      requires 0 <= TileIndex(width, x, y) < |tiles|
    {
      tiles[TileIndex(width, x, y)]
    }

    // ----- moving -----

    /** m_game_remove_player_from_tile, on the player's own tile. */
    method LiftOff(p: PlayerObj)
      requires Holds() && Stands(w, p) && RowsOk(w.rows, w.players, w.width)
      requires p in w.rows[TileOf(w.width, w.players[p])]
      modifies this`w, tiles`players, w.players.Keys`next, w.players.Keys`prev
      ensures Holds()
      ensures w == Lift(old(w), p)
      ensures p.next == null && p.prev == null
    {
      ghost var w0 := w;
      LiftFrom(tiles, TileIndex(width, p.x, p.y), p, w0.rows, w0.players, w0.width);
      w := Lift(w0, p);
    }

    method SetX(p: PlayerObj, x: int)
      requires Holds() && p in w.players
      modifies this`w, p`x
      ensures Holds()
      ensures w == old(w).(players := old(w).players[p := old(w).players[p].(x := x)])
    {
      ghost var w0 := w;
      p.x := x;
      w := w0.(players := w0.players[p := w0.players[p].(x := x)]);
      assert w.players.Keys == w0.players.Keys;
    }

    method SetY(p: PlayerObj, y: int)
      requires Holds() && p in w.players
      modifies this`w, p`y
      ensures Holds()
      ensures w == old(w).(players := old(w).players[p := old(w).players[p].(y := y)])
    {
      ghost var w0 := w;
      p.y := y;
      w := w0.(players := w0.players[p := w0.players[p].(y := y)]);
      assert w.players.Keys == w0.players.Keys;
    }

    /** m_game_add_player_to_tile, for the tile at the player's position. */
    method SetHead(p: PlayerObj, t: nat)
      requires Holds() && p in w.players && t < |tiles| && tiles[t].x == p.x && tiles[t].y == p.y
      requires RowsOk(w.rows, w.players, w.width) && InNoRow(w.rows, p)
      modifies this`w, tiles`players, w.players.Keys`next, w.players.Keys`prev, p`x, p`y
      ensures Holds()
      ensures w == old(w).(rows := old(w).rows[t := [p] + old(w).rows[t]])
    {
      ghost var w0 := w;
      DropOn(tiles, t, p, w0.rows, w0.players, w0.width);
      assert w0.players.Keys + {p} == w0.players.Keys;
      w := w0.(rows := w0.rows[t := [p] + w0.rows[t]]);
      assert FieldsMatch() && ClientsMatch();
    }

    /** The position is set, then the player joins the list there. */
    method SetDown(p: PlayerObj, x: int, y: int)
      requires Holds() && Stands(w, p) && OnMap(width, height, x, y)
      requires RowsOk(w.rows, w.players, w.width) && InNoRow(w.rows, p)
      modifies this`w, tiles`players, w.players.Keys`next, w.players.Keys`prev, p`x, p`y
      ensures Holds()
      ensures w == Drop(old(w), p, x, y)
    {
      OffListMoves(w.rows, w.players, w.width, p, w.players[p].(x := x));
      SetX(p, x);
      OffListMoves(w.rows, w.players, w.width, p, w.players[p].(y := y));
      SetY(p, y);
      assert GridAt(tiles, width, x, y);
      SetHead(p, TileIndex(width, x, y));
    }

    /** m_game_move_player */
    method Relocate(p: PlayerObj, newX: int, newY: int)
      requires Holds() && Stands(w, p) && OnMap(width, height, newX, newY)
      requires RowsOk(w.rows, w.players, w.width) && p in w.rows[TileOf(w.width, w.players[p])]
      modifies this`w, tiles`players, w.players.Keys`next, w.players.Keys`prev, p`x, p`y
      ensures Holds()
      ensures w == MovePlayer(old(w), p, newX, newY)
    {
      LiftedRows(w.rows, w.players, w.width, TileOf(w.width, w.players[p]), p);
      LiftOff(p);
      SetDown(p, newX, newY);
    }

    method Append(replies: seq<Reply>)
      requires Holds()
      modifies this`w, this`outbox
      ensures Holds()
      ensures w == old(w).(outbox := old(w).outbox + replies)
    {
      outbox := outbox + replies;
      w := w.(outbox := outbox);
    }

    method Say1(r: Reply)
      requires Holds()
      modifies this`w, this`outbox
      ensures Holds()
      ensures w == Say(old(w), r)
    {
      outbox := outbox + [r];
      w := Say(w, r);
    }

    /** The tile ahead, as avance and expulse compute it. */
    method NextTile(p: PlayerObj) returns (newX: int, newY: int)
      requires Holds() && Stands(w, p)
      ensures Holds()
      ensures (newX, newY) == StepAhead(w, p)
    {
      newX, newY := p.x, p.y;
      match p.dir {
        case North => newY := (p.y + height - 1) % height;
        case East => newX := (p.x + 1) % width;
        case South => newY := (p.y + 1) % height;
        case West => newX := (p.x + width - 1) % width;
      }
    }

    /** m_command_avance */
    method Avance(p: PlayerObj)
      requires Holds() && Shaped(w) && Placed(w) && p in w.players
      modifies this`w, this`outbox, tiles`players, w.players.Keys`next, w.players.Keys`prev, p`x, p`y
      ensures Holds()
      ensures w == Walk(old(w), p)
    {
      var newX, newY := NextTile(p);
      Relocate(p, newX, newY);
      Say1(Reply(p.fd, Do(Command.Avance), Yes));
    }

    /** One move of the loop of m_command_expulse: `q` is pushed to the tile ahead of `k`. */
    method Push(k: PlayerObj, q: PlayerObj)
      requires Holds() && Shaped(w) && Placed(w) && k in w.players && q in w.players
      modifies this`w, this`outbox, tiles`players, w.players.Keys`next, w.players.Keys`prev, q`x, q`y
      ensures Holds()
      ensures w == Shove(old(w), k, q)
    {
      var newX, newY := NextTile(k);
      Relocate(q, newX, newY);
      Say1(Reply(q.fd, Do(Expulse), Pushed));
    }

    method SetDirection(p: PlayerObj, dir: Direction)
      requires Holds() && p in w.players
      modifies this`w, p`dir
      ensures Holds()
      ensures w == old(w).(players := old(w).players[p := old(w).players[p].(dir := dir)])
    {
      ghost var w0 := w;
      p.dir := dir;
      w := w0.(players := w0.players[p := w0.players[p].(dir := dir)]);
      assert w.players.Keys == w0.players.Keys;
    }

    /** m_command_droite */
    method Droite(p: PlayerObj)
      requires Holds() && p in w.players
      modifies this`w, this`outbox, p`dir
      ensures Holds()
      ensures w == Face(old(w), p, TurnRight(old(p.dir)), Command.Droite)
    {
      var dir;
      match p.dir {
        case North => dir := East;
        case East => dir := South;
        case South => dir := West;
        case West => dir := North;
      }
      SetDirection(p, dir);
      Say1(Reply(p.fd, Do(Command.Droite), Yes));
    }

    /** m_command_gauche */
    method Gauche(p: PlayerObj)
      requires Holds() && p in w.players
      modifies this`w, this`outbox, p`dir
      ensures Holds()
      ensures w == Face(old(w), p, TurnLeft(old(p.dir)), Command.Gauche)
    {
      var dir;
      match p.dir {
        case North => dir := West;
        case East => dir := North;
        case South => dir := East;
        case West => dir := South;
      }
      SetDirection(p, dir);
      Say1(Reply(p.fd, Do(Command.Gauche), Yes));
    }

    // ----- items -----

    method SetTileItems(t: nat, items: Inventory)
      requires Holds() && t < |tiles|
      modifies this`w, {tiles[t]}`items
      ensures Holds()
      ensures w == old(w).(items := old(w).items[t := items])
    {
      tiles[t].items := items;
      w := w.(items := w.items[t := items]);
    }

    method SetInventory(p: PlayerObj, inv: Inventory)
      requires Holds() && p in w.players
      modifies this`w, p`inv
      ensures Holds()
      ensures w == old(w).(players := old(w).players[p := old(w).players[p].(inv := inv)])
    {
      ghost var w0 := w;
      p.inv := inv;
      w := w0.(players := w0.players[p := w0.players[p].(inv := inv)]);
      assert w.players.Keys == w0.players.Keys;
    }

    method SetDieTime(p: PlayerObj, dieTime: int)
      requires Holds() && p in w.players
      modifies this`w, p`dieTime
      ensures Holds()
      ensures w == old(w).(players := old(w).players[p := old(w).players[p].(dieTime := dieTime)])
    {
      ghost var w0 := w;
      p.dieTime := dieTime;
      w := w0.(players := w0.players[p := w0.players[p].(dieTime := dieTime)]);
      assert w.players.Keys == w0.players.Keys;
    }

    /** m_helper_items_to_tiles */
    method MoveItem(p: PlayerObj, kind: Kind, take: bool) returns (ret: int)
      requires Holds() && Stands(w, p)
      modifies this`w, tiles`items, p`inv
      ensures Holds()
      ensures match Transfer(old(w), p, kind, take)
        case None => ret == ERROR && w == old(w)
        case Some(w') => ret == SUCCESS && w == w'
    {
      TileIndexInRange(width, height, p.x, p.y);
      var t := TileIndex(width, p.x, p.y);
      var there, here := tiles[t].items[kind], p.inv[kind];
      if take {
        if there <= 0 {
          return ERROR;
        }
        SetTileItems(t, tiles[t].items[kind := there - 1]);
        SetInventory(p, p.inv[kind := here + 1]);
      } else {
        if here <= 0 {
          return ERROR;
        }
        SetTileItems(t, tiles[t].items[kind := there + 1]);
        SetInventory(p, p.inv[kind := here - 1]);
      }
      ret := SUCCESS;
    }

    /** m_command_prend, m_command_pose */
    method PrendOrPose(p: PlayerObj, c: Command, arg: Option<Arg>)
      requires Holds() && Stands(w, p)
      modifies this`w, this`outbox, tiles`items, p`inv
      ensures Holds()
      ensures w == DoTransfer(old(w), p, c, arg)
    {
      var ret := ERROR;
      if arg.Some? && arg.value.Item? {
        ret := MoveItem(p, arg.value.kind, c == Prend);
      }
      Say1(Reply(p.fd, Do(c), if ret == ERROR then No else Yes));
    }

    // ----- the client table -----

    /** m_game_get_client_from_fd: the index of the first client with the socket, or the table's size. */
    method FindClient(fd: int) returns (i: nat)
      requires Holds() && Shaped(w)
      ensures Holds()
      ensures i == SlotOfFd(w.slots, w.players, fd)
    {
      i := 0;
      while i < clients.Length
        invariant 0 <= i <= clients.Length
        invariant SlotOfFd(w.slots, w.players, fd) == i + SlotOfFd(w.slots[i..], w.players, fd)
      {
        assert SlotHolds(clients[i], w.slots[i], w.rings, seats);
        assert w.slots[i..][1..] == w.slots[i + 1..];
        if clients[i] != null && clients[i].fd == fd {
          return;
        }
        i := i + 1;
      }
    }

    /** The slot of a client object, compared by reference; the table's size when it is not there. */
    method SlotOfClient(c: ClientObj) returns (i: nat)
      requires Holds() && Shaped(w) && Seated(w)
      requires exists j | 0 <= j < clients.Length :: clients[j] == c
      ensures Holds()
      ensures i == FirstSlot(w.slots, Some(c.player)) && i < clients.Length && clients[i] == c
    {
      ghost var j :| 0 <= j < clients.Length && clients[j] == c;
      assert SlotHolds(clients[j], w.slots[j], w.rings, seats);
      i := 0;
      while i < clients.Length
        invariant 0 <= i <= j
        invariant FirstSlot(w.slots, Some(c.player)) == i + FirstSlot(w.slots[i..], Some(c.player))
        decreases clients.Length - i
      {
        assert SlotHolds(clients[i], w.slots[i], w.rings, seats);
        assert w.slots[i..][1..] == w.slots[i + 1..];
        if clients[i] == c {
          return;
        }
        i := i + 1;
      }
    }

    /** The first free slot, or the table's size. */
    method FreeSlot() returns (i: nat)
      requires Holds()
      ensures Holds()
      ensures i == FirstSlot(w.slots, None)
    {
      i := 0;
      while i < clients.Length
        invariant 0 <= i <= clients.Length
        invariant FirstSlot(w.slots, None) == i + FirstSlot(w.slots[i..], None)
      {
        assert SlotHolds(clients[i], w.slots[i], w.rings, seats);
        assert w.slots[i..][1..] == w.slots[i + 1..];
        if clients[i] == null {
          return;
        }
        i := i + 1;
      }
    }

    // ----- incantation -----

    /** m_game_check_can_incantation */
    method CheckCanIncantate(p: PlayerObj, checkItems: bool) returns (ok: bool)
      requires Holds() && Stands(w, p) && RowsOk(w.rows, w.players, w.width)
      ensures Holds()
      ensures ok == CanIncantate(w, p, checkItems)
    {
      TileIndexInRange(width, height, p.x, p.y);
      var t := TileIndex(width, p.x, p.y);
      if p.level >= LEVEL_MAX {
        return false;
      }
      var reqs := LevelReqs(p.level);
      if checkItems && !Covers(tiles[t].items, reqs.stones) {
        return false;
      }
      assert Heads(tiles[t], w.rows[t], w.players.Keys) && RowOk(w.rows[t], w.players, w.width, t);
      var count := CountPlayersAtLevel(tiles[t], p.level, w.rows[t], w.players);
      ok := count >= reqs.players;
    }

    /** m_command_incantation, up to the push of the second phase, which goes to the client in slot `target`. */
    method PayIncantation(p: PlayerObj) returns (paid: bool, target: nat)
      requires Holds() && Shaped(w) && p in w.players && RowsOk(w.rows, w.players, w.width)
      modifies this`w, this`outbox, tiles`items
      ensures Holds()
      ensures w == StartIncantation(old(w), p)
      ensures paid == CanIncantate(old(w), p, true)
      ensures paid ==> target == SlotOfFd(w.slots, old(w).players, p.fd)
    {
      target := 0;
      paid := CheckCanIncantate(p, true);
      if !paid {
        Say1(Reply(p.fd, Do(Command.Incantation), No));
      } else {
        TileIndexInRange(width, height, p.x, p.y);
        var t := TileIndex(width, p.x, p.y);
        target := FindClient(p.fd);
        SetTileItems(t, Minus(tiles[t].items, LevelReqs(p.level).stones));
        if target < clients.Length {
          Say1(Reply(p.fd, Do(Command.Incantation), InProgress));
        }
      }
    }

    method SetLevel(p: PlayerObj, level: int)
      requires Holds() && p in w.players
      modifies this`w, p`level
      ensures Holds()
      ensures w == old(w).(players := old(w).players[p := old(w).players[p].(level := level)])
    {
      ghost var w0 := w;
      p.level := level;
      w := w0.(players := w0.players[p := w0.players[p].(level := level)]);
      assert w.players.Keys == w0.players.Keys;
    }

    /** One player of the walk of m_command_real_incantation. */
    method RaiseOne(q: PlayerObj, level: int)
      requires Holds() && q in w.players
      modifies this`w, this`outbox, q`level
      ensures Holds()
      ensures var (players, replies) := RaiseRow([q], old(w).players, level);
        w == old(w).(players := players, outbox := old(w).outbox + replies)
    {
      assert [q][1..] == [];
      if q.level == level {
        SetLevel(q, level + 1);
        Say1(Reply(q.fd, Do(Command.Incantation), LevelUp));
      }
    }

    lemma NextInRow(t: nat, i: nat)
      requires Holds() && t < |tiles| && i < |w.rows[t]|
      ensures w.rows[t][i].next == if i + 1 < |w.rows[t]| then w.rows[t][i + 1] else null
    {
      assert Heads(tiles[t], w.rows[t], w.players.Keys);
    }

    /** The walk of m_command_real_incantation over the tile's list. */
    method RaisePlayers(t: nat, level: int)
      requires Holds() && t < |tiles| && RowOk(w.rows[t], w.players, w.width, t)
      modifies this`w, this`outbox, w.players.Keys`level
      ensures Holds()
      ensures var (players, replies) := RaiseRow(old(w).rows[t], old(w).players, level);
        w == old(w).(players := players, outbox := old(w).outbox + replies)
    {
      ghost var w0 := w;
      ghost var row := w.rows[t];
      assert Heads(tiles[t], row, w.players.Keys);
      var q := tiles[t].players;
      ghost var i := 0;
      while q != null
        invariant Holds()
        invariant 0 <= i <= |row|
        invariant q == if i < |row| then row[i] else null
        invariant w == RaisedUpTo(w0, row, level, i) && w.players.Keys == w0.players.Keys
        decreases |row| - i
      {
        assert row[i] in row;
        RaiseOne(q, level);
        RaiseRowNext(w0, row, level, i);
        NextInRow(t, i);
        q := q.next;
        i := i + 1;
      }
      assert row[..|row|] == row;
    }

    /** m_command_real_incantation */
    method ResolveIncantation(p: PlayerObj, level: int)
      requires Holds() && Stands(w, p) && RowsOk(w.rows, w.players, w.width)
      modifies this`w, this`outbox, w.players.Keys`level
      ensures Holds()
      ensures w == FinishIncantation(old(w), p, level)
    {
      TileIndexInRange(width, height, p.x, p.y);
      var ok := false;
      if p.level == level {
        ok := CheckCanIncantate(p, false);
      }
      if ok {
        var t := TileIndex(width, p.x, p.y);
        assert RowOk(w.rows[t], w.players, w.width, t);
        RaisePlayers(t, level);
      }
      Say1(Reply(p.fd, Job.ResolveIncantation, if ok then Yes else No));
    }

    // ----- joining and leaving -----

    method SetSlot(i: nat, c: ClientObj?)
      requires Holds() && i < clients.Length && i < |w.slots|
      requires c != null ==> c in seats && c.fd == c.player.fd && c.player in w.rings && w.rings[c.player] == c.buffer
      modifies this`w, clients
      ensures Holds()
      ensures w == old(w).(slots := old(w).slots[i := if c == null then None else Some(c.player)])
      ensures clients[..] == old(clients[..])[i := c]
    {
      ghost var w0 := w;
      ghost var o := if c == null then None else Some(c.player);
      clients[i] := c;
      w := w0.(slots := w0.slots[i := o]);
      forall j | 0 <= j < clients.Length
        ensures SlotHolds(clients[j], w.slots[j], w.rings, seats)
      {
        assert old(SlotHolds(clients[j], w0.slots[j], w0.rings, seats));
      }
    }

    method AddToCount(team: nat, delta: int)
      requires Holds() && team < current.Length && team < |w.counts|
      modifies this`w, current
      ensures Holds()
      ensures w == old(w).(counts := old(w).counts[team := old(w).counts[team] + delta])
    {
      current[team] := current[team] + delta;
      w := w.(counts := w.counts[team := w.counts[team] + delta]);
    }

    /** The player's memory is released. */
    ghost method Forget(p: PlayerObj)
      requires Holds() && p in w.players && InNoRow(w.rows, p) && Some(p) !in w.slots
      modifies this`w
      ensures Holds()
      ensures w == old(w).(players := old(w).players - {p}, rings := old(w).rings - {p})
    {
      ghost var w0 := w;
      w := w0.(players := w0.players - {p}, rings := w0.rings - {p});
      forall t | 0 <= t < |tiles|
        ensures Heads(tiles[t], w.rows[t], w.players.Keys)
      {
        assert Heads(tiles[t], w0.rows[t], w0.players.Keys) && p !in w0.rows[t];
      }
      forall i | 0 <= i < clients.Length
        ensures SlotHolds(clients[i], w.slots[i], w.rings, seats)
      {
        assert SlotHolds(clients[i], w0.slots[i], w0.rings, seats) && w0.slots[i] in w0.slots;
      }
    }

    /** The removals of game_player_die, once the slot is found: client table, team, tile. */
    method Detach(p: PlayerObj, i: nat)
      requires Holds() && Stands(w, p) && RowsOk(w.rows, w.players, w.width)
      requires p in w.rows[TileOf(w.width, w.players[p])] && p.team < |w.counts|
      requires i < |w.slots| && Some(p) !in w.slots[i := None]
      modifies this`w, clients, current, tiles`players, w.players.Keys`next, w.players.Keys`prev
      ensures Holds()
      ensures w == Detached(old(w), p, i)
    {
      LiftedRows(w.rows, w.players, w.width, TileOf(w.width, w.players[p]), p);
      SetSlot(i, null);
      AddToCount(p.team, -1);
      LiftOff(p);
      Forget(p);
    }

    /** The player leaves: its slot is looked up, it is detached, and its client is told. */
    method Remove(c: ClientObj)
      requires Holds() && Shaped(w) && Placed(w) && Seated(w) && Counted(w)
      requires exists j | 0 <= j < clients.Length :: clients[j] == c
      requires c.player in w.players
      modifies this`w, this`outbox, clients, current, tiles`players, w.players.Keys`next, w.players.Keys`prev
      ensures Holds()
      ensures w == Leave(old(w), c.player).1
    {
      RemovalNeverFails(w, c.player);
      LeaveSeated(w, c.player);
      var i := SlotOfClient(c);
      Detach(c.player, i);
      Say1(DeathNotice(c.player.fd));
    }

    method SetLife(p: PlayerObj, inv: Inventory, dieTime: int)
      requires Holds() && p in w.players
      modifies this`w, p`inv, p`dieTime
      ensures Holds()
      ensures w == old(w).(players := old(w).players[p := old(w).players[p].(inv := inv, dieTime := dieTime)])
    {
      SetInventory(p, inv);
      SetDieTime(p, dieTime);
    }

    /** The first half of game_player_die: one food is eaten for one unit of life. */
    method EatOne(p: PlayerObj)
      requires Holds() && p in w.players
      modifies this`w, p`inv, p`dieTime
      ensures Holds()
      ensures w == Eat(old(w), p)
    {
      SetLife(p, p.inv[FOOD := p.inv[FOOD] - 1], p.dieTime + config.lifeUnit);
    }

    /** game_player_die */
    method PlayerDie(c: ClientObj)
      requires Holds() && Shaped(w) && Placed(w) && Seated(w) && Counted(w)
      requires exists j | 0 <= j < clients.Length :: clients[j] == c
      requires c.player in w.players
      modifies this`w, this`outbox, clients, current, tiles`players, w.players.Keys
      ensures Holds()
      ensures w == Die(old(w), c.player).1
    {
      var p := c.player;
      if p.inv[FOOD] > 0 {
        EatOne(p);
      } else {
        Remove(c);
      }
    }

    /** game_kill_player */
    method KillPlayer(fd: int) returns (ret: int)
      requires Holds() && Shaped(w)
      modifies this`w, w.players.Keys`inv, w.players.Keys`dieTime
      ensures Holds()
      ensures (ret, w) == Kill(old(w), fd)
    {
      var i := FindClient(fd);
      if i == clients.Length {
        return ERROR;
      }
      assert SlotHolds(clients[i], w.slots[i], w.rings, seats);
      var p := clients[i].player;
      SetLife(p, p.inv[FOOD := 0], 0);
      ret := SUCCESS;
    }

    method SetBuffer(i: nat, buffer: Ring<Callback<PlayerObj>, Arg>)
      requires Holds() && i < clients.Length && clients[i] != null && Once(w.slots)
      modifies this`w, {clients[i]}`buffer
      ensures Holds()
      ensures w == old(w).(rings := old(w).rings[clients[i].player := buffer])
    {
      ghost var w0 := w;
      clients[i].buffer := buffer;
      w := w0.(rings := w0.rings[clients[i].player := buffer]);
      forall j | 0 <= j < clients.Length
        ensures SlotHolds(clients[j], w.slots[j], w.rings, seats)
      {
        assert old(SlotHolds(clients[j], w0.slots[j], w0.rings, seats));
        assert old(SlotHolds(clients[i], w0.slots[i], w0.rings, seats));
        if j != i && clients[j] != null {
          assert w0.slots[j] != w0.slots[i];
        }
      }
    }

    /** game_execute_command; the buffer is the in-place one of TimeApi, used here as a value. */
    method ExecuteCommand(fd: int, command: Option<Command>, arg: Option<Arg>) returns (ret: int)
      requires Holds() && Shaped(w) && Seated(w)
      modifies this`w, seats
      ensures Holds()
      ensures (ret, w) == Execute(old(w), fd, command, arg)
    {
      var i := FindClient(fd);
      if i == clients.Length {
        return SUCCESS;
      }
      if command.None? {
        return ERROR;
      }
      assert SlotHolds(clients[i], w.slots[i], w.rings, seats);
      SetBuffer(i, PushBack(clients[i].buffer, now, config.Delay(command.value),
                            Some(Callback(Do(command.value), clients[i].player)), arg).1);
      ret := SUCCESS;
    }

    /** m_game_get_team_id */
    method TeamId(name: string) returns (id: int)
      requires Holds()
      ensures Holds()
      ensures id == if name in names then FirstSlot(names, name) else ERROR
    {
      var i := 0;
      while i < |names|
        invariant 0 <= i <= |names|
        invariant FirstSlot(names, name) == i + FirstSlot(names[i..], name)
        invariant name in names <==> name in names[i..]
      {
        assert names[i..][1..] == names[i + 1..];
        if names[i] == name {
          return i;
        }
        i := i + 1;
      }
      id := ERROR;
    }

    /** A new player's record, before it is put anywhere. */
    ghost method Admit(p: PlayerObj)
      requires Holds() && p !in w.players && p !in w.rings
      modifies this`w, this`everyone
      ensures Holds() && everyone == old(everyone) + {p}
      ensures w == old(w).(players := old(w).players[p := p.Value()], rings := old(w).rings[p := Empty()])
    {
      ghost var w0 := w;
      w := w0.(players := w0.players[p := p.Value()], rings := w0.rings[p := Empty()]);
      everyone := everyone + {p};
      forall t | 0 <= t < |tiles|
        ensures Heads(tiles[t], w.rows[t], w.players.Keys)
      {
        assert Heads(tiles[t], w0.rows[t], w0.players.Keys);
      }
      forall i | 0 <= i < clients.Length
        ensures SlotHolds(clients[i], w.slots[i], w.rings, seats)
      {
        assert SlotHolds(clients[i], w0.slots[i], w0.rings, seats);
      }
    }

    /** The new player takes its place on the map and in its team. */
    method Enrol(p: PlayerObj)
      requires Holds() && p !in w.players && p !in w.rings && p.team < |w.counts| && |w.items| == width * height
      requires OnMap(width, height, p.x, p.y) && 1 <= p.level <= LEVEL_MAX
      requires RowsOk(w.rows, w.players[p := p.Value()], w.width) && InNoRow(w.rows, p)
      modifies this`w, this`everyone, current, tiles`players, w.players.Keys`next, w.players.Keys`prev, p`next, p`prev, p`x, p`y
      ensures Holds() && everyone == old(everyone) + {p}
      ensures w == Enrolled(old(w), p, old(p.Value()))
    {
      Admit(p);
      SetDown(p, p.x, p.y);
      AddToCount(p.team, 1);
    }

    /** And in the client table; the result of looking for a slot is ignored. */
    method Seat(p: PlayerObj)
      requires Holds() && p in w.rings && w.rings[p] == Empty()
      modifies this`w, this`seats, clients
      ensures Holds() && fresh(seats - old(seats))
      ensures var i := FirstSlot(old(w).slots, None);
        w == old(w).(slots := if i < |old(w).slots| then old(w).slots[i := Some(p)] else old(w).slots)
    {
      var i := FreeSlot();
      var c := new ClientObj(p);
      seats := seats + {c};
      forall j | 0 <= j < clients.Length
        ensures SlotHolds(clients[j], w.slots[j], w.rings, seats)
      {
        assert old(SlotHolds(clients[j], w.slots[j], w.rings, seats));
      }
      if i < clients.Length {
        SetSlot(i, c);
      }
    }

    /** The new player on tile, team and table. */
    method Settle(p: PlayerObj)
      requires Holds() && p !in w.players && p !in w.rings && p.team < |w.counts| && |w.items| == width * height
      requires OnMap(width, height, p.x, p.y) && 1 <= p.level <= LEVEL_MAX
      requires RowsOk(w.rows, w.players[p := p.Value()], w.width) && InNoRow(w.rows, p)
      modifies this`w, this`everyone, this`seats, clients, current, tiles`players, w.players.Keys`next, w.players.Keys`prev,
               p`next, p`prev, p`x, p`y
      ensures Holds() && everyone == old(everyone) + {p} && fresh(seats - old(seats))
      ensures w == Joined(old(w), p, old(p.Value()))
    {
      Enrol(p);
      Seat(p);
    }

    /** A team with room takes a new player in. */
    method Join(fd: int, team: nat, x: int, y: int, dir: Direction) returns (p: PlayerObj)
      requires Holds() && RowsOk(w.rows, w.players, w.width) && w.rings.Keys == w.players.Keys
      requires OnMap(width, height, x, y) && team < |w.counts| && |w.items| == width * height
      modifies this`w, this`everyone, this`seats, clients, current, tiles`players, w.players.Keys`next, w.players.Keys`prev
      ensures Holds() && everyone == old(everyone) + {p} && fresh(seats - old(seats))
      ensures fresh(p) && p !in old(w).players
      ensures w == Joined(old(w), p, Newcomer(old(w), fd, team, x, y, dir))
    {
      p := new PlayerObj(fd, team, x, y, dir, now + config.TimeToDie(), now);
      NewcomerRows(w, p, p.Value());
      Settle(p);
    }

    /** game_register_player, for the position and heading drawn at random; `p` is the new player. */
    method RegisterPlayer(fd: int, teamName: string, x: int, y: int, dir: Direction) returns (ret: int, p: PlayerObj?)
      requires Holds() && Shaped(w) && Placed(w) && OnMap(width, height, x, y)
      modifies this`w, this`everyone, this`seats, clients, current, tiles`players, w.players.Keys`next, w.players.Keys`prev
      ensures Holds() && fresh(everyone - old(everyone)) && fresh(seats - old(seats))
      ensures if teamName !in names || old(w).counts[FirstSlot(names, teamName)] >= cap
              then p == null && ret == ERROR && w == old(w)
              else ret == SUCCESS && p != null && fresh(p) && p !in old(w).players
                   && w == Login(old(w), p, fd, FirstSlot(names, teamName), x, y, dir).1
    {
      ghost var w0 := w;
      var team := TeamId(teamName);
      if team < 0 || current[team] >= cap {
        return ERROR, null;
      }
      p := Join(fd, team, x, y, dir);
      JoinedIsLogin(w0, p, fd, team, x, y, dir);
      ret := SUCCESS;
    }

    // ----- looking -----

    /** build_tile_vision */
    method TileVision(p: PlayerObj, t: nat) returns (seen: seq<Sight>)
      requires Holds() && Shaped(w) && p in w.players && RowsOk(w.rows, w.players, w.width) && t < |tiles|
      requires p in w.rows[TileOf(w.width, w.players[p])]
      ensures Holds()
      ensures seen == Contents(w, p, t)
    {
      ghost var mine := w.rows[TileOf(w.width, w.players[p])];
      NextOnTile(p);
      assert Heads(tiles[t], w.rows[t], w.players.Keys);
      var head := tiles[t].players;
      seen := [];
      if head != null && head.fd != p.fd && p.next != null {
        seen := [SeesPlayer];
      }
      seen := seen + Present(tiles[t].items, 0);
    }

    /** A player has nobody after it exactly when it is the last of its tile's list. */
    lemma NextOnTile(p: PlayerObj)
      requires Holds() && Stands(w, p) && RowsOk(w.rows, w.players, w.width)
      requires p in w.rows[TileOf(w.width, w.players[p])]
      ensures p.next == null <==> IsLast(w.rows[TileOf(w.width, w.players[p])], p)
    {
      var t := TileOf(w.width, w.players[p]);
      var row := w.rows[t];
      assert Heads(tiles[t], row, w.players.Keys) && RowOk(row, w.players, w.width, t);
      var i :| 0 <= i < |row| && row[i] == p;
      if i < |row| - 1 {
        assert row[i].next == row[i + 1];
      }
    }

    /** One tile of m_command_voir. */
    method VoirTile(p: PlayerObj, d: nat, i: nat) returns (seen: seq<Sight>)
      requires Holds() && Shaped(w) && p in w.players && RowsOk(w.rows, w.players, w.width)
      requires p in w.rows[TileOf(w.width, w.players[p])] && i < 2 * d + 1
      ensures Holds()
      ensures seen == SightRow(w, p, d)[i]
    {
      var o := SightOffset(p.dir, d, i);
      var x, y := Wrap(p.x + o.0, width), Wrap(p.y + o.1, height);
      TileIndexInRange(width, height, x, y);
      assert TileIndex(width, x, y) == SeenTile(w, p, d, i);
      seen := TileVision(p, TileIndex(width, x, y));
    }

    /** The inner loop of m_command_voir: one row of sight. */
    method VoirRow(p: PlayerObj, d: nat) returns (row: seq<seq<Sight>>)
      requires Holds() && Shaped(w) && p in w.players && RowsOk(w.rows, w.players, w.width)
      requires p in w.rows[TileOf(w.width, w.players[p])]
      ensures Holds()
      ensures row == SightRow(w, p, d)
    {
      ghost var all := SightRow(w, p, d);
      row := [];
      var i := 0;
      while i < 2 * d + 1
        invariant 0 <= i <= |all| == 2 * d + 1
        invariant row == all[..i]
      {
        var seen := VoirTile(p, d, i);
        TakeNext(all, i);
        row := row + [seen];
        i := i + 1;
      }
    }

    /** The outer loop of m_command_voir. */
    method Voir(p: PlayerObj) returns (view: seq<seq<Sight>>)
      requires Holds() && Shaped(w) && p in w.players && RowsOk(w.rows, w.players, w.width)
      requires p in w.rows[TileOf(w.width, w.players[p])]
      ensures Holds()
      ensures view == View(w, p, p.level + 1)
    {
      view := [];
      var d := 0;
      while d <= p.level
        invariant 0 <= d <= p.level + 1
        invariant view == View(w, p, d)
      {
        var row := VoirRow(p, d);
        view := view + row;
        d := d + 1;
      }
    }

    /** What the client in slot `i` hears of a broadcast, if there is one. */
    method MessageTo(i: nat, from: PlayerObj, text: Option<Arg>) returns (said: seq<Reply>)
      requires Holds() && Shaped(w) && from in w.players && i < clients.Length
      ensures Holds()
      ensures i < |w.slots| && said == Messages([w.slots[i]], w.players, w.players[from], text, w.width, w.height)
    {
      assert SlotHolds(clients[i], w.slots[i], w.rings, seats);
      ghost var one: seq<Option<PlayerObj>> := [w.slots[i]];
      assert |one[1..]| == 0;
      said := [];
      if clients[i] != null {
        var q := clients[i].player;
        said := [Reply(q.fd, Do(Command.Broadcast), Status.Heard(
          B.DirectionOf(q.x, q.y, DirectionCode(q.dir), from.x, from.y, width, height), text))];
      }
    }

    /** The loop of m_command_broadcast over the client table. */
    method BroadcastMessages(from: PlayerObj, text: Option<Arg>) returns (messages: seq<Reply>)
      requires Holds() && Shaped(w) && from in w.players
      ensures Holds()
      ensures messages == Messages(w.slots, w.players, w.players[from], text, w.width, w.height)
    {
      messages := [];
      var i := 0;
      while i < clients.Length
        invariant 0 <= i <= clients.Length == |w.slots|
        invariant messages == Messages(w.slots[..i], w.players, w.players[from], text, w.width, w.height)
      {
        var said := MessageTo(i, from, text);
        MessagesSplit(w.slots[..i], w.slots[i], w.players, w.players[from], text, w.width, w.height);
        assert w.slots[..i + 1] == w.slots[..i] + [w.slots[i]];
        messages := messages + said;
        i := i + 1;
      }
      assert w.slots[..|w.slots|] == w.slots;
    }

    /** What the commands that only answer say. */
    method AnswerTo(p: PlayerObj, c: Command, arg: Option<Arg>) returns (replies: seq<Reply>)
      requires Holds() && Shaped(w) && p in w.players && RowsOk(w.rows, w.players, w.width)
      requires p in w.rows[TileOf(w.width, w.players[p])]
      requires c in {Command.Voir, Inventaire, Expulse, Command.Broadcast, Fork, ConnectNbr}
      ensures replies == Answers(w, p, c, arg)
    {
      replies := [Reply(p.fd, Do(c), Yes)];
      if c == Command.Voir {
        var view := Voir(p);
        replies := [Reply(p.fd, Do(c), Seen(view))];
      } else if c == Inventaire {
        replies := [Reply(p.fd, Do(c), Status.Holds(p.inv))];
      } else if c == Command.Broadcast {
        var messages := BroadcastMessages(p, arg);
        replies := messages + replies;
      } else if c == ConnectNbr {
        replies := [Reply(p.fd, Do(c), Slots(cap - current[p.team]))];
      }
    }

    method Answer(p: PlayerObj, c: Command, arg: Option<Arg>)
      requires Holds() && Shaped(w) && p in w.players && RowsOk(w.rows, w.players, w.width)
      requires p in w.rows[TileOf(w.width, w.players[p])]
      requires c in {Command.Voir, Inventaire, Expulse, Command.Broadcast, Fork, ConnectNbr}
      modifies this`w, this`outbox
      ensures Holds()
      ensures w == old(w).(outbox := old(w).outbox + Answers(old(w), p, c, arg))
    {
      var replies := AnswerTo(p, c, arg);
      Append(replies);
    }

    // ----- taking turns -----

    /** Runs the callback of an event; `push` is the slot whose buffer gets the second phase of an incantation, if any. */
    method RunCallback(p: PlayerObj, job: Job, arg: Option<Arg>) returns (push: Option<nat>)
      requires Holds() && Shaped(w) && Placed(w) && p in w.players
      modifies this`w, this`outbox, tiles, everyone
      ensures Holds()
      ensures w == Call(old(w), p, job, arg)
      ensures push == if job == Do(Command.Incantation) && CanIncantate(old(w), p, true)
                      then Some(SlotOfFd(old(w).slots, old(w).players, old(w).players[p].fd)) else None
    {
      push := None;
      match job {
        case ResolveIncantation =>
          ResolveIncantation(p, LevelOf(arg));
        case Do(c) =>
          push := RunCommand(p, c, arg);
      }
    }

    method Effect(p: PlayerObj, c: Command, arg: Option<Arg>)
      requires Holds() && Shaped(w) && Placed(w) && p in w.players
      requires c in {Command.Avance, Command.Droite, Command.Gauche, Prend, Command.Pose}
      modifies this`w, this`outbox, tiles, everyone
      ensures Holds()
      ensures w == Call(old(w), p, Do(c), arg)
    {
      if c == Command.Avance {
        Avance(p);
      } else if c == Command.Droite {
        Droite(p);
      } else if c == Command.Gauche {
        Gauche(p);
      } else {
        PrendOrPose(p, c, arg);
      }
    }

    /** m_command_incantation; the slot whose buffer gets the second phase, if it is paid. */
    method Pay(p: PlayerObj, arg: Option<Arg>) returns (push: Option<nat>)
      requires Holds() && Shaped(w) && Placed(w) && p in w.players
      modifies this`w, this`outbox, tiles`items
      ensures Holds()
      ensures w == Call(old(w), p, Do(Command.Incantation), arg)
      ensures push == if CanIncantate(old(w), p, true)
                      then Some(SlotOfFd(old(w).slots, old(w).players, old(w).players[p].fd)) else None
    {
      var paid, target := PayIncantation(p);
      push := if paid then Some(target) else None;
    }

    method RunCommand(p: PlayerObj, c: Command, arg: Option<Arg>) returns (push: Option<nat>)
      requires Holds() && Shaped(w) && Placed(w) && p in w.players
      modifies this`w, this`outbox, tiles, everyone
      ensures Holds()
      ensures w == Call(old(w), p, Do(c), arg)
      ensures push == if c == Command.Incantation && CanIncantate(old(w), p, true)
                      then Some(SlotOfFd(old(w).slots, old(w).players, old(w).players[p].fd)) else None
    {
      push := None;
      if c == Command.Incantation {
        push := Pay(p, arg);
      } else if c in {Command.Avance, Command.Droite, Command.Gauche, Prend, Command.Pose} {
        Effect(p, c, arg);
      } else {
        Answer(p, c, arg);
      }
    }

    /**
     Runs an event of the client in slot `i`, which calls back with player `p`. The callback answers
     with the push it makes, and the buffers are written once it is known; TimeApi shows the same
     push made re-entrantly.
     */
    method RunEvent(i: nat, c: ClientObj, p: PlayerObj, job: Job, arg: Option<Arg>)
      requires Holds() && Shaped(w) && Placed(w) && Once(w.slots) && p in w.players
      requires i < |w.slots| && clients[i] == c && w.slots[i] == Some(c.player) && c.player in w.players
      modifies this`w, this`outbox, tiles, everyone, seats
      ensures Holds()
      ensures w == Call(old(w), p, job, arg).(rings := RunRings(old(w), c.player, p, job))
    {
      ghost var w0 := w;
      var level := p.level;
      CallKeepsRings(w0, p, job, arg);
      var push := RunCallback(p, job, arg);
      if push.Some? && push.value < clients.Length {
        assert SlotHolds(clients[push.value], w.slots[push.value], w.rings, seats);
      }
      assert SlotHolds(clients[i], w.slots[i], w.rings, seats);
      WriteBuffers(i, push, p, level);
      RunRingsAre(w0, i, p, job, push, level);
    }

    /** Processes the due head of the buffer in slot `i`. */
    method ProcessHead(i: nat, c: ClientObj)
      requires Holds() && Shaped(w) && Placed(w) && Once(w.slots)
      requires i < |w.slots| && clients[i] == c && w.slots[i] == Some(c.player) && c.player in w.players
      requires IsDue(w.rings[c.player], w.now) && CallsSomebody(w, c.player)
      modifies this`w, this`outbox, tiles, everyone, seats
      ensures Holds()
      ensures w == RunHead(old(w), c.player)
    {
      assert SlotHolds(clients[i], w.slots[i], w.rings, seats);
      var ev := c.buffer.slots[c.buffer.head];
      if ev.call.None? {
        SetBuffer(i, Process(c.buffer, now, Quiet).ring);
      } else {
        RunEvent(i, c, ev.call.value.data, ev.call.value.job, ev.arg);
      }
    }

    /** The turn of a client. */
    method PlayClient(i: nat, c: ClientObj)
      requires Holds() && Shaped(w) && Placed(w) && Seated(w) && Counted(w) && i < clients.Length && Defined(w, i)
      requires clients[i] == c && i < |w.slots| && w.slots[i] == Some(c.player) && c.player in w.players
      modifies this`w, this`outbox, clients, current, tiles, everyone, seats
      ensures Holds()
      ensures w == Play(old(w), i)
    {
      assert SlotHolds(clients[i], w.slots[i], w.rings, seats);
      if c.player.dieTime <= now {
        PlayerDie(c);
      } else if IsDue(c.buffer, now) {
        ProcessHead(i, c);
      }
    }

    /** One turn of the loop of game_play. */
    method PlaySlot(i: nat)
      requires Holds() && Shaped(w) && Placed(w) && Seated(w) && Counted(w) && i < clients.Length && Defined(w, i)
      modifies this`w, this`outbox, clients, current, tiles, everyone, seats
      ensures Holds()
      ensures w == Play(old(w), i)
    {
      assert SlotHolds(clients[i], w.slots[i], w.rings, seats);
      var c := clients[i];
      if c != null {
        PlayClient(i, c);
      }
    }

    /** The next turn of a pass that started from `w0`. */
    method PlayNext(i: nat, ghost w0: World<PlayerObj>, ghost states: seq<World<PlayerObj>>)
      requires Holds() && Ready(w0) && i < |w0.slots| && IsPass(w0, states) && w == states[i]
      modifies this`w, this`outbox, clients, current, tiles, everyone, seats
      ensures Holds()
      ensures w == states[i + 1]
    {
      NextTurn(w0, i);
      assert states[i] == PlayUpTo(w0, i) && states[i + 1] == PlayUpTo(w0, i + 1);
      PlaySlot(i);
    }

    /** game_play, over the client table. */
    method GamePlay()
      requires Holds() && Ready(w)
      modifies this`w, this`outbox, clients, current, tiles, everyone, seats
      ensures Holds()
      ensures w == PlayUpTo(old(w), clients.Length)
    {
      ghost var states := PassOf(w);
      PlayEach(states);
    }

    /** The loop of game_play. */
    method PlayEach(ghost states: seq<World<PlayerObj>>)
      requires Holds() && Ready(w) && IsPass(w, states)
      modifies this`w, this`outbox, clients, current, tiles, everyone, seats
      ensures Holds()
      ensures w == states[clients.Length]
    {
      ghost var w0 := w;
      var i := 0;
      while i < clients.Length
        invariant 0 <= i <= clients.Length && Holds()
        invariant w == states[i]
      {
        PlayNext(i, w0, states);
        i := i + 1;
      }
    }

    /** m_game_spawn_resources; `drops` are the counts drawn at random for the visited tiles. */
    method SpawnResources(drops: seq<Inventory>)
      requires Holds() && Shaped(w) && nextIdx >= 0 && |drops| == Batch(|tiles|)
      modifies this`w, this`nextIdx, tiles`items
      ensures Holds()
      ensures w == Spawn(old(w), drops)
    {
      ghost var w0 := w;
      var size := width * height;
      var batch := Batch(size);
      var i := 0;
      while i < batch
        invariant 0 <= i <= batch && Holds()
        invariant w == w0.(items := SpawnOn(w0.items, w0.nextIdx, drops, i))
      {
        var t := (nextIdx + i) % size;
        SetTileItems(t, Refill(tiles[t].items, drops[i]));
        i := i + 1;
      }
      SetNextIdx((nextIdx + batch) % size);
    }

    method SetNextIdx(i: int)
      requires Holds()
      modifies this`w, this`nextIdx
      ensures Holds()
      ensures w == old(w).(nextIdx := i)
    {
      nextIdx := i;
      w := w.(nextIdx := i);
    }

    /** The popped buffer is written back, with the second phase pushed where it belongs. */
    method WriteBuffers(i: nat, push: Option<nat>, payer: PlayerObj, level: int)
      requires Holds() && Once(w.slots) && i < clients.Length && clients[i] != null && Valid(clients[i].buffer)
      requires forall r <- w.rings :: Valid(w.rings[r])
      requires push.Some? && push.value < clients.Length ==> clients[push.value] != null
      modifies this`w, seats
      ensures Holds()
      ensures i < |w.slots| && w.slots == old(w).slots && w.slots[i].Some? && w.slots[i].value in old(w).rings
      ensures push.Some? && push.value < |w.slots| ==> w.slots[push.value].Some? && w.slots[push.value].value in old(w).rings
      ensures w == old(w).(rings := Written(old(w), i, push, payer, level))
    {
      ghost var w0 := w;
      assert SlotHolds(clients[i], w.slots[i], w.rings, seats);
      var delay, call, arg := config.IncantationTime(), SecondPhaseOf(payer), Some(Level(level));
      var reaction := if push == Some(i) then PushesFront(delay, call, arg) else Quiet;
      var own := Process(clients[i].buffer, now, reaction).ring;
      if push.Some? && push.value != i && push.value < clients.Length {
        assert SlotHolds(clients[push.value], w.slots[push.value], w.rings, seats);
        var other := PushFront(clients[push.value].buffer, now, delay, call, arg).1;
        SetBuffer(i, own);
        SetBuffer(push.value, other);
      } else {
        SetBuffer(i, own);
      }
    }

    // ----- whole runs in place -----

    /** The environment's choices that the server relies on: positions on the map, one draw for each tile of a batch. */
    ghost predicate Possible(h: Happening) {
      && (h.Joins? ==> OnMap(width, height, h.x, h.y))
      && (h.Grows? ==> width > 0 && height > 0 && 0 < width * height && |h.drops| == Batch(width * height)
                       && forall d <- h.drops :: Covers(d, NOTHING))
    }

    method Clock(to: int) returns (ghost a: Action<PlayerObj>)
      requires Holds() && Shaped(w)
      modifies this`w, this`now
      ensures Holds() && Enabled(old(w), a) && w == Apply(old(w), a) && !a.LogsIn?
    {
      ghost var w0 := w;
      if now < to {
        now := to;
      }
      w := w.(now := now);
      a := Tick(now);
    }

    method Joins(fd: int, teamName: string, x: int, y: int, dir: Direction) returns (ghost a: Action<PlayerObj>)
      requires Holds() && Shaped(w) && Placed(w) && OnMap(width, height, x, y)
      modifies this`w, this`everyone, this`seats, clients, current, tiles`players, w.players.Keys`next, w.players.Keys`prev
      ensures Holds() && Enabled(old(w), a) && w == Apply(old(w), a) && (a.LogsIn? ==> a.fd == fd)
      ensures fresh(everyone - old(everyone)) && fresh(seats - old(seats))
    {
      var ret, p := RegisterPlayer(fd, teamName, x, y, dir);
      a := Tick(w.now);
      if p != null {
        ghost var q: PlayerObj := p;
        a := LogsIn(q, fd, FirstSlot(names, teamName), x, y, dir);
      }
    }

    method Plays(slot: nat) returns (ghost a: Action<PlayerObj>)
      requires Holds() && Shaped(w) && Placed(w) && Seated(w) && Counted(w) && AllOrderly(w)
      modifies this`w, this`outbox, clients, current, tiles, everyone, seats
      ensures Holds() && Enabled(old(w), a) && w == Apply(old(w), a) && !a.LogsIn?
    {
      if slot < clients.Length {
        OrderlyIsDefined(w, slot);
        PlaySlot(slot);
        a := Turn(slot);
      } else {
        a := Tick(w.now);
      }
    }

    method Pushes(slot: nat, other: nat) returns (ghost a: Action<PlayerObj>)
      requires Holds() && Shaped(w) && Placed(w)
      modifies this`w, this`outbox, tiles`players, everyone`next, everyone`prev, everyone`x, everyone`y
      ensures Holds() && Enabled(old(w), a) && w == Apply(old(w), a) && !a.LogsIn?
    {
      a := Tick(w.now);
      if slot < clients.Length && other < clients.Length {
        assert SlotHolds(clients[slot], w.slots[slot], w.rings, seats);
        assert SlotHolds(clients[other], w.slots[other], w.rings, seats);
        var c, d := clients[slot], clients[other];
        if c != null && d != null && c.player != d.player {
          a := Shoves(c.player, d.player);
          Push(c.player, d.player);
        }
      }
    }

    method Says(fd: int, command: Option<Command>, arg: Option<Arg>) returns (ghost a: Action<PlayerObj>)
      requires Holds() && Shaped(w) && Seated(w)
      modifies this`w, seats
      ensures Holds() && Enabled(old(w), a) && w == Apply(old(w), a) && !a.LogsIn?
    {
      var _ := ExecuteCommand(fd, command, arg);
      a := Sends(fd, command, arg);
    }

    method Hangs(fd: int) returns (ghost a: Action<PlayerObj>)
      requires Holds() && Shaped(w)
      modifies this`w, w.players.Keys`inv, w.players.Keys`dieTime
      ensures Holds() && Enabled(old(w), a) && w == Apply(old(w), a) && !a.LogsIn?
    {
      var _ := KillPlayer(fd);
      a := Disconnects(fd);
    }

    method Grows(drops: seq<Inventory>) returns (ghost a: Action<PlayerObj>)
      requires Holds() && Shaped(w) && nextIdx >= 0 && |drops| == Batch(|tiles|) && forall d <- drops :: Covers(d, NOTHING)
      modifies this`w, this`nextIdx, tiles`items
      ensures Holds() && Enabled(old(w), a) && w == Apply(old(w), a) && !a.LogsIn?
    {
      SpawnResources(drops);
      a := Spawns(drops);
    }

    /** Whatever happens to the server in place, but for a second login on a socket, is a step of the value. */
    method Perform(h: Happening) returns (ghost a: Action<PlayerObj>)
      requires Holds() && Ready(w) && Possible(h) && (h.Joins? ==> FindFd(w, h.fd).None?)
      modifies this, clients, current, tiles, everyone, seats
      ensures Holds() && Enabled(old(w), a) && w == Apply(old(w), a) && (a.LogsIn? ==> h.Joins? && a.fd == h.fd)
      ensures fresh(everyone - old(everyone)) && fresh(seats - old(seats))
    {
      match h {
        case Clock(to) => a := Clock(to);
        case Joins(fd, team, x, y, dir) => a := Joins(fd, team, x, y, dir);
        case Says(fd, c, arg) => a := Says(fd, c, arg);
        case Hangs(fd) => a := Hangs(fd);
        case Plays(slot) => a := Plays(slot);
        case Pushes(slot, other) => a := Pushes(slot, other);
        case Grows(drops) => a := Grows(drops);
      }
    }

    /** The happening is a login on a socket that is connected already. */
    ghost predicate SharesSocket(h: Happening)
      reads this`w
    {
      h.Joins? && FindFd(w, h.fd).Some?
    }

    /** One happening more. */
    method PerformOne(h: Happening, ghost w0: World<PlayerObj>, ghost sofar: seq<Action<PlayerObj>>)
      returns (ghost actions: seq<Action<PlayerObj>>)
      requires Holds() && Possible(h) && !SharesSocket(h) && Ready(w0) && Reached(w0, sofar, w)
      modifies this, clients, current, tiles, everyone, seats
      ensures Holds() && Reached(w0, actions, w)
      ensures fresh(everyone - old(everyone)) && fresh(seats - old(seats))
    {
      ReachedReady(w0, sofar, w);
      ghost var before := w;
      ghost var a := Perform(h);
      ReachedNext(w0, sofar, before, a);
      actions := sofar + [a];
    }

    /** Whether a happening is a login on a connected socket. */
    method Shares(h: Happening) returns (shared: bool)
      requires Holds() && Shaped(w)
      ensures Holds()
      ensures shared == SharesSocket(h)
    {
      shared := false;
      if h.Joins? {
        var i := FindClient(h.fd);
        shared := i < clients.Length;
      }
    }

    /** One happening more, unless it shares a socket. */
    method PerformNext(h: Happening, ghost w0: World<PlayerObj>, ghost sofar: seq<Action<PlayerObj>>)
      returns (shared: bool, ghost actions: seq<Action<PlayerObj>>)
      requires Holds() && Possible(h) && Ready(w0) && Reached(w0, sofar, w)
      modifies this, clients, current, tiles, everyone, seats
      ensures Holds() && Reached(w0, actions, w)
      ensures shared ==> SharesSocket(h)
      ensures fresh(everyone - old(everyone)) && fresh(seats - old(seats))
    {
      ReachedReady(w0, sofar, w);
      shared := Shares(h);
      if shared {
        return true, sofar;
      }
      actions := PerformOne(h, w0, sofar);
    }

    /**
     Any sequence of happenings, up to the first login on a connected socket: the heap goes through
     a run of the value, so everything that is proved of every run holds of it, every turn is
     defined, and the invariant is kept. `n` happenings are performed.
     */
    method PerformAll(hs: seq<Happening>) returns (n: nat, ghost actions: seq<Action<PlayerObj>>)
      requires Holds() && Ready(w) && forall h <- hs :: Possible(h)
      modifies this, clients, current, tiles, everyone, seats
      ensures Holds() && Reached(old(w), actions, w) && Ready(w)
      ensures n <= |hs| && (n < |hs| ==> SharesSocket(hs[n]))
    {
      ghost var w0 := w;
      actions := [];
      n := 0;
      while n < |hs|
        invariant 0 <= n <= |hs|
        invariant Holds() && Reached(w0, actions, w)
        invariant fresh(everyone - old(everyone)) && fresh(seats - old(seats))
      {
        var shared;
        shared, actions := PerformNext(hs[n], w0, actions);
        if shared {
          break;
        }
        n := n + 1;
      }
      ReachedReady(w0, actions, w);
    }
  }

  /** What can happen to the server from outside, for slots and sockets instead of players. */
  datatype Happening =
    | Clock(to: int)
    | Joins(fd: int, team: string, x: int, y: int, dir: Direction)
    | Says(fd: int, command: Option<Command>, arg: Option<Arg>)
    | Hangs(fd: int)
    | Plays(slot: nat)
    | Pushes(slot: nat, other: nat)
    | Grows(drops: seq<Inventory>)
}

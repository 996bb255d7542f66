/** The intrusive doubly linked list of players that every tile heads, relinked in place. */
module TileLists {
  import opened Torus
  import opened World
  import opened Soundness

  class PlayerObj {
    const fd: int
    const team: nat
    const startTime: int
    var level: int
    var x: int
    var y: int
    var dir: Direction
    var inv: Inventory
    var dieTime: int
    var next: PlayerObj?
    var prev: PlayerObj?

    /** A fresh player, on no list. */
    constructor (fd: int, team: nat, x: int, y: int, dir: Direction, dieTime: int, startTime: int)
      ensures next == null && prev == null
      ensures Value() == Player(fd, team, 1, x, y, dir, NOTHING, dieTime, startTime)
    {
      this.fd, this.team, this.startTime := fd, team, startTime;
      this.level, this.x, this.y, this.dir := 1, x, y, dir;
      this.inv, this.dieTime := NOTHING, dieTime;
      this.next, this.prev := null, null;
    }

    ghost function Value(): Player
      reads this`level, this`x, this`y, this`dir, this`inv, this`dieTime
    {
      Player(fd, team, level, x, y, dir, inv, dieTime, startTime)
    }
  }

  class TileObj {
    const x: int
    const y: int
    var items: Inventory
    var players: PlayerObj?

    constructor (x: int, y: int, items: Inventory)
      ensures this.x == x && this.y == y && this.items == items && players == null
    {
      this.x, this.y, this.items, this.players := x, y, items, null;
    }
  }

  /** The list that starts at `head` is `row`, and every link has its counterpart. */
  ghost predicate Linked(head: PlayerObj?, row: seq<PlayerObj>)
    reads row`next, row`prev
  {
    && (row == [] ==> head == null)
    && (row != [] ==> head == row[0] && row[0].prev == null && row[|row| - 1].next == null)
    && (forall i {:trigger row[i].next} | 0 <= i < |row| - 1 :: row[i].next == row[i + 1])
    && (forall i {:trigger row[i].prev} | 0 < i < |row| :: row[i].prev == row[i - 1])
  }

  /** m_game_add_player_to_tile: the player becomes the head and takes the tile's position. */
  method AddPlayerToTile(t: TileObj, p: PlayerObj, ghost row: seq<PlayerObj>)
    requires Linked(t.players, row) && p !in row
    modifies t`players, p`next, p`prev, p`x, p`y, row`prev
    ensures Linked(t.players, [p] + row)
    ensures p.x == t.x && p.y == t.y
  {
    p.next := t.players;
    p.prev := null;
    if t.players != null {
      t.players.prev := p;
    }
    t.players := p;
    p.x, p.y := t.x, t.y;
  }

  /** Two linked halves, joined over the gap left by `row[i]`. */
  lemma GapJoined(head: PlayerObj?, row: seq<PlayerObj>, i: nat)
    requires i < |row|
    requires forall k {:trigger row[k].next} | 0 <= k < |row| - 1 && k != i && k + 1 != i :: row[k].next == row[k + 1]
    requires forall k {:trigger row[k].prev} | 0 < k < |row| && k != i && k != i + 1 :: row[k].prev == row[k - 1]
    requires if i > 0 then head == row[0] && row[0].prev == null
                           && row[i - 1].next == (if i + 1 < |row| then row[i + 1] else null)
             else head == if |row| > 1 then row[1] else null
    requires i + 1 < |row| ==> row[|row| - 1].next == null && row[i + 1].prev == if i > 0 then row[i - 1] else null
    ensures Linked(head, row[..i] + row[i + 1..])
  {
    var rest := row[..i] + row[i + 1..];
    forall k | 0 <= k < |rest| - 1
      ensures rest[k].next == rest[k + 1]
    {
      assert rest[k] == if k < i then row[k] else row[k + 1];
    }
    forall k | 0 < k < |rest|
      ensures rest[k].prev == rest[k - 1]
    {
      assert rest[k] == if k < i then row[k] else row[k + 1];
    }
  }

  /** m_game_remove_player_from_tile: splices the player out; everyone else keeps its order. */
  method RemovePlayerFromTile(t: TileObj, p: PlayerObj, ghost row: seq<PlayerObj>)
    requires Linked(t.players, row) && NoDup(row) && p in row
    modifies t`players, row`next, row`prev
    ensures Linked(t.players, Without(row, p))
    ensures p.next == null && p.prev == null
  {
    ghost var i := WithoutSplices(row, p);
    assert p.prev == if i > 0 then row[i - 1] else null;
    assert p.next == if i + 1 < |row| then row[i + 1] else null;
    if p.prev != null {
      p.prev.next := p.next;
    } else {
      t.players := p.next;
    }
    if p.next != null {
      p.next.prev := p.prev;
    }
    p.next, p.prev := null, null;
    GapJoined(t.players, row, i);
  }

  // ----- all the lists of the map -----

  /** The tile heads the row, whose members are among `all`. */
  ghost predicate Heads(t: TileObj, row: seq<PlayerObj>, all: set<PlayerObj>)
    reads t`players, all`next, all`prev
  {
    (forall q <- row :: q in all) && Linked(t.players, row)
  }

  ghost predicate AllHead(tiles: seq<TileObj>, rows: seq<seq<PlayerObj>>, all: set<PlayerObj>)
    requires |tiles| == |rows|
    reads tiles`players, all`next, all`prev
  {
    forall t {:trigger Heads(tiles[t], rows[t], all)} | 0 <= t < |tiles| :: Heads(tiles[t], rows[t], all)
  }

  /** Every row is sound, so no player is in two rows. */
  ghost predicate RowsOk(rows: seq<seq<PlayerObj>>, players: map<PlayerObj, Player>, width: int) {
    forall t {:trigger RowOk(rows[t], players, width, t)} | 0 <= t < |rows| :: RowOk(rows[t], players, width, t)
  }

  ghost predicate InNoRow(rows: seq<seq<PlayerObj>>, p: PlayerObj) {
    forall t {:trigger rows[t]} | 0 <= t < |rows| :: p !in rows[t]
  }

  /** Members of different rows are different players. */
  lemma RowsApart(rows: seq<seq<PlayerObj>>, players: map<PlayerObj, Player>, width: int, t: nat, u: nat)
    requires RowsOk(rows, players, width) && t < |rows| && u < |rows| && t != u
    ensures forall i | 0 <= i < |rows[u]| :: rows[u][i] !in rows[t] && rows[u][i] in players
  {
    assert RowOk(rows[t], players, width, t) && RowOk(rows[u], players, width, u);
    forall i | 0 <= i < |rows[u]|
      ensures rows[u][i] !in rows[t] && rows[u][i] in players
    {
      assert rows[u][i] in rows[u];
    }
  }

  /** Takes a player off its tile; no other list is touched. */
  method LiftFrom(tiles: seq<TileObj>, from: nat, p: PlayerObj,
                  ghost rows: seq<seq<PlayerObj>>, ghost players: map<PlayerObj, Player>, ghost width: int)
    requires |tiles| == |rows| && NoDup(tiles) && AllHead(tiles, rows, players.Keys) && RowsOk(rows, players, width)
    requires from < |tiles| && p in rows[from]
    modifies {tiles[from]}`players, players.Keys`next, players.Keys`prev
    ensures AllHead(tiles, rows[from := Without(rows[from], p)], players.Keys)
    ensures p.next == null && p.prev == null
  {
    assert Heads(tiles[from], rows[from], players.Keys) && RowOk(rows[from], players, width, from);
    RemovePlayerFromTile(tiles[from], p, rows[from]);
    WithoutNoDup(rows[from], p);
    ghost var rows' := rows[from := Without(rows[from], p)];
    forall t | 0 <= t < |tiles|
      ensures Heads(tiles[t], rows'[t], players.Keys)
    {
      if t != from {
        RowsApart(rows, players, width, from, t);
        assert old(Heads(tiles[t], rows[t], players.Keys));
      }
    }
  }

  /** The rows that are left are sound, and the player is in none of them. */
  lemma LiftedRows(rows: seq<seq<PlayerObj>>, players: map<PlayerObj, Player>, width: int, from: nat, p: PlayerObj)
    requires RowsOk(rows, players, width) && from < |rows| && p in rows[from]
    ensures var rows' := rows[from := Without(rows[from], p)];
      RowsOk(rows', players, width) && InNoRow(rows', p)
  {
    var rows' := rows[from := Without(rows[from], p)];
    assert RowOk(rows[from], players, width, from);
    WithoutNoDup(rows[from], p);
    forall t | 0 <= t < |rows|
      ensures RowOk(rows'[t], players, width, t) && p !in rows'[t]
    {
      assert RowOk(rows[t], players, width, t);
    }
  }

  /** Puts a player that is in no list on a tile. */
  method DropOn(tiles: seq<TileObj>, to: nat, p: PlayerObj,
                ghost rows: seq<seq<PlayerObj>>, ghost players: map<PlayerObj, Player>, ghost width: int)
    requires |tiles| == |rows| && NoDup(tiles) && AllHead(tiles, rows, players.Keys) && RowsOk(rows, players, width)
    requires to < |tiles| && InNoRow(rows, p)
    modifies {tiles[to]}`players, p`next, p`prev, p`x, p`y, players.Keys`prev
    ensures AllHead(tiles, rows[to := [p] + rows[to]], players.Keys + {p})
    ensures p.x == tiles[to].x && p.y == tiles[to].y
  {
    assert Heads(tiles[to], rows[to], players.Keys) && p !in rows[to];
    AddPlayerToTile(tiles[to], p, rows[to]);
    ghost var rows' := rows[to := [p] + rows[to]];
    forall t | 0 <= t < |tiles|
      ensures Heads(tiles[t], rows'[t], players.Keys + {p})
    {
      if t != to {
        RowsApart(rows, players, width, to, t);
        assert old(Heads(tiles[t], rows[t], players.Keys)) && p !in rows[t];
      }
    }
  }

  /** A player that is in no list may be anywhere. */
  lemma OffListMoves(rows: seq<seq<PlayerObj>>, players: map<PlayerObj, Player>, width: int, p: PlayerObj, v: Player)
    requires RowsOk(rows, players, width) && InNoRow(rows, p)
    ensures RowsOk(rows, players[p := v], width)
  {
    forall t | 0 <= t < |rows|
      ensures RowOk(rows[t], players[p := v], width, t)
    {
      assert RowOk(rows[t], players, width, t) && p !in rows[t];
    }
  }

  /** The walk over a tile's list that counts the players of a level. */
  method CountPlayersAtLevel(t: TileObj, level: int, ghost row: seq<PlayerObj>, ghost players: map<PlayerObj, Player>)
    returns (count: nat)
    requires Linked(t.players, row)
    requires forall q <- row :: q in players && q.level == players[q].level
    ensures count == CountLevel(row, players, level)
  {
    count := 0;
    var p := t.players;
    ghost var i := 0;
    while p != null
      invariant 0 <= i <= |row|
      invariant p == if i < |row| then row[i] else null
      invariant count + CountLevel(row[i..], players, level) == CountLevel(row, players, level)
      decreases |row| - i
    {
      assert row[i..][1..] == row[i + 1..];
      if p.level == level {
        count := count + 1;
      }
      p := p.next;
      i := i + 1;
    }
  }
}

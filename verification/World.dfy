/**
 The state of the game server and everything that changes it, as functions on values. A player
 is named by a key of some type K, which stands for the address the server holds; the
 imperative server of `GameServer` instantiates K with its player objects.
 */
module World {
  import opened Wrappers
  import opened Torus
  import opened EventRing
  import Broadcast

  // ----- inventories -----

  const KINDS: nat := 7

  /** A resource, in the order of the C enum: food, linemate, deraumere, sibur, mendiane, phiras, thystame. */
  type Kind = k: nat | k < 7

  const FOOD: Kind := 0

  type Inventory = s: seq<int> | |s| == 7 witness [0, 0, 0, 0, 0, 0, 0]

  const NOTHING: Inventory := [0, 0, 0, 0, 0, 0, 0]

  function Plus(a: Inventory, b: Inventory): Inventory {
    seq(7, i requires 0 <= i < 7 => a[i] + b[i])
  }

  function Minus(a: Inventory, b: Inventory): Inventory {
    seq(7, i requires 0 <= i < 7 => a[i] - b[i])
  }

  function InventorySum(a: Inventory): int {
    a[0] + a[1] + a[2] + a[3] + a[4] + a[5] + a[6]
  }

  predicate Covers(a: Inventory, b: Inventory) {
    forall i | 0 <= i < 7 :: a[i] >= b[i]
  }

  // ----- players, commands, replies -----

  datatype Player = Player(fd: int, team: nat, level: int, x: int, y: int, dir: Direction,
                           inv: Inventory, dieTime: int, startTime: int)

  datatype Command = Avance | Droite | Gauche | Voir | Inventaire | Prend | Pose
                   | Expulse | Broadcast | Incantation | Fork | ConnectNbr

  /** The callbacks a client buffer can hold: a command, or the second phase of an incantation. */
  datatype Job = Do(command: Command) | ResolveIncantation

  /** What an event calls: the callback, and the player it is called with. */
  datatype Callback<+K> = Callback(job: Job, data: K)

  /** The text argument of an event: a resource name, any other text, or the printed level of an incantation. */
  datatype Arg = Item(kind: Kind) | Words(text: string) | Level(level: int)

  datatype Sight = SeesPlayer | SeesItem(kind: Kind)

  datatype Status = Yes | No | InProgress | LevelUp | Pushed
                  | Seen(view: seq<seq<Sight>>) | Holds(inv: Inventory) | Slots(free: int)
                  | Heard(direction: int, text: Option<Arg>)

  /** A message to the client on socket `fd`, about a job. */
  datatype Reply = Reply(fd: int, about: Job, status: Status) | DeathNotice(fd: int)

  datatype Requisites = Requisites(players: int, stones: Inventory)

  const LEVEL_MAX: int := 7

  /** level_reqs, indexed by the level itself. */
  function LevelReqs(level: int): Requisites
    requires 0 <= level < LEVEL_MAX
  {
    match level
    case 0 => Requisites(1, [0, 1, 0, 0, 0, 0, 0])
    case 1 => Requisites(2, [0, 1, 1, 1, 0, 0, 0])
    case 2 => Requisites(2, [0, 2, 0, 1, 0, 2, 0])
    case 3 => Requisites(4, [0, 1, 1, 2, 0, 1, 0])
    case 4 => Requisites(4, [0, 1, 2, 1, 3, 0, 0])
    case 5 => Requisites(6, [0, 1, 2, 3, 0, 1, 0])
    case _ => Requisites(6, [0, 2, 2, 2, 2, 2, 1])
  }

  /** The delay of a command that the configuration file does not mention. */
  function DefaultDelay(c: Command): nat {
    match c
    case Inventaire => 1
    case Incantation => 300
    case Fork => 42
    case ConnectNbr => 0
    case _ => 7
  }

  /** What the configuration fixes for the whole run; `delays` are those the file mentions. */
  datatype Config = Config(lifeUnit: int, startLifeUnits: int, delays: map<Command, nat>) {
    function Configured(c: Command): nat {
      if c in delays then delays[c] else DefaultDelay(c)
    }

    /** The delay a command is queued with: an incantation is checked at once. */
    function Delay(c: Command): nat {
      if c == Incantation then 0 else Configured(c)
    }

    /** The delay of the second phase: the one configured for the incantation. */
    function IncantationTime(): nat {
      Configured(Incantation)
    }

    /** TIME_TO_DIE */
    function TimeToDie(): int {
      lifeUnit * startLifeUnits
    }
  }

  // ----- the server -----

  /**
   `rows[t]` is the list of players on tile t from the head on, `slots` the client table,
   `counts[i]` the counter of team i, `cap` the room of every team, `rings` the event buffer
   of each client, `outbox` every reply so far.
   */
  datatype World<K(==)> = World(
    config: Config, width: int, height: int, now: int,
    items: seq<Inventory>, rows: seq<seq<K>>, players: map<K, Player>,
    slots: seq<Option<K>>, counts: seq<int>, cap: int,
    rings: map<K, Ring<Callback<K>, Arg>>, nextIdx: int, outbox: seq<Reply>)

  function TileIndex(width: int, x: int, y: int): int {
    y * width + x
  }

  /** The tile under a position. */
  function TileOf(width: int, p: Player): int {
    TileIndex(width, p.x, p.y)
  }

  predicate OnMap(width: int, height: int, x: int, y: int) {
    0 <= x < width && 0 <= y < height
  }

  lemma RowBounds(width: int, above: int, below: int)
    requires width >= 0 && above >= 0 && below >= 0
    ensures above * width >= 0
    ensures above * width + width <= width * (above + below + 1)
  {
    assert below * width >= 0;
    assert width * (above + below + 1) == above * width + below * width + width;
  }

  lemma TileIndexInRange(width: int, height: int, x: int, y: int)
    requires OnMap(width, height, x, y)
    ensures 0 <= TileIndex(width, x, y) < width * height
  {
    RowBounds(width, y, height - 1 - y);
  }

  /** The list without the given member. */
  function Without<T(==)>(s: seq<T>, k: T): seq<T> {
    if s == [] then [] else if s[0] == k then s[1..] else [s[0]] + Without(s[1..], k)
  }

  /** The least of everything the operations need: sizes, and every player on the map. */
  ghost predicate Shaped<K>(w: World<K>) {
    && w.width > 0 && w.height > 0
    && |w.items| == |w.rows| == w.width * w.height
    && (forall k <- w.players :: OnMap(w.width, w.height, w.players[k].x, w.players[k].y))
    && (forall k <- w.players :: 1 <= w.players[k].level <= LEVEL_MAX)
    && w.rings.Keys == w.players.Keys
    && (forall k <- w.rings :: EventRing.Valid(w.rings[k]))
    && (forall i | 0 <= i < |w.slots| && w.slots[i].Some? :: w.slots[i].value in w.players)
    && (forall k <- w.players :: w.players[k].team < |w.counts|)
  }

  /** What an operation on one player needs: a full map, and the player on it at a legal level. */
  predicate Stands<K>(w: World<K>, k: K) {
    && k in w.players
    && |w.items| == |w.rows| == w.width * w.height
    && OnMap(w.width, w.height, w.players[k].x, w.players[k].y)
    && 1 <= w.players[k].level <= LEVEL_MAX
  }

  function Say<K>(w: World<K>, r: Reply): World<K> {
    w.(outbox := w.outbox + [r])
  }

  // ----- moving -----

  /** Takes a player off its tile's list. */
  function Lift<K>(w: World<K>, k: K): (lifted: World<K>)
    requires Stands(w, k)
    ensures Stands(lifted, k)
  {
    TileIndexInRange(w.width, w.height, w.players[k].x, w.players[k].y);
    var t := TileOf(w.width, w.players[k]);
    w.(rows := w.rows[t := Without(w.rows[t], k)])
  }

  /** Puts a player at the head of a tile's list. */
  function Drop<K>(w: World<K>, k: K, x: int, y: int): World<K>
    requires Stands(w, k) && OnMap(w.width, w.height, x, y)
  {
    TileIndexInRange(w.width, w.height, x, y);
    var t := TileIndex(w.width, x, y);
    w.(rows := w.rows[t := [k] + w.rows[t]], players := w.players[k := w.players[k].(x := x, y := y)])
  }

  function MovePlayer<K>(w: World<K>, k: K, x: int, y: int): World<K>
    requires Stands(w, k) && OnMap(w.width, w.height, x, y)
  {
    Drop(Lift(w, k), k, x, y)
  }

  function StepAhead<K>(w: World<K>, k: K): (r: (int, int))
    requires Stands(w, k)
    ensures OnMap(w.width, w.height, r.0, r.1)
  {
    Ahead(w.width, w.height, w.players[k].x, w.players[k].y, w.players[k].dir)
  }

  // ----- the client table -----

  function SlotOfFd<K>(slots: seq<Option<K>>, players: map<K, Player>, fd: int): (i: nat)
    ensures i <= |slots|
    ensures i < |slots| ==> slots[i].Some? && slots[i].value in players && players[slots[i].value].fd == fd
  {
    if slots == [] then 0
    else if slots[0].Some? && slots[0].value in players && players[slots[0].value].fd == fd then 0
    else 1 + SlotOfFd(slots[1..], players, fd)
  }

  /** The first client whose socket is `fd`. */
  function FindFd<K>(w: World<K>, fd: int): (o: Option<K>)
    ensures o.Some? ==> o.value in w.players && w.players[o.value].fd == fd && o in w.slots
  {
    var i := SlotOfFd(w.slots, w.players, fd);
    if i < |w.slots| then w.slots[i] else None
  }

  /** The first slot holding `o`, or the number of slots. */
  function FirstSlot<T(==)>(slots: seq<T>, o: T): (i: nat)
    ensures i <= |slots|
    ensures i < |slots| ==> slots[i] == o
    ensures o !in slots[..i]
    ensures i == |slots| <==> o !in slots
  {
    if slots == [] then 0 else if slots[0] == o then 0 else 1 + FirstSlot(slots[1..], o)
  }

  const ERROR: int := -1
  const SUCCESS: int := 0

  /** game_register_player; `team` is the index found for the team's name, negative if none. */
  function Login<K>(w: World<K>, k: K, fd: int, team: int, x: int, y: int, dir: Direction): (int, World<K>)
    requires Shaped(w) && k !in w.players && OnMap(w.width, w.height, x, y) && team < |w.counts|
  {
    if team < 0 then (team, w)
    else if w.counts[team] >= w.cap then (ERROR, w)
    else
      TileIndexInRange(w.width, w.height, x, y);
      var t := TileIndex(w.width, x, y);
      var p := Player(fd, team, 1, x, y, dir, NOTHING,
                      w.now + w.config.TimeToDie(), w.now);
      var i := FirstSlot(w.slots, None);
      (SUCCESS, w.(
        rows := w.rows[t := [k] + w.rows[t]],
        players := w.players[k := p],
        counts := w.counts[team := w.counts[team] + 1],
        slots := if i < |w.slots| then w.slots[i := Some(k)] else w.slots,
        rings := w.rings[k := Empty()]))
  }

  /** game_execute_command; an unknown command word is None. */
  function Execute<K>(w: World<K>, fd: int, command: Option<Command>, arg: Option<Arg>): (int, World<K>)
    requires Shaped(w)
  {
    match FindFd(w, fd)
    case None => (SUCCESS, w)
    case Some(k) =>
      if command.None? then (ERROR, w)
      else
        (SUCCESS, w.(rings := w.rings[k := PushBack(w.rings[k], w.now, w.config.Delay(command.value),
                                                    Some(Callback(Do(command.value), k)), arg).1]))
  }

  /** game_kill_player: the socket is gone, so the player starves at its next turn. */
  function Kill<K>(w: World<K>, fd: int): (int, World<K>) {
    match FindFd(w, fd)
    case None => (ERROR, w)
    case Some(k) =>
      (SUCCESS, w.(players := w.players[k := w.players[k].(dieTime := 0, inv := w.players[k].inv[FOOD := 0])]))
  }

  function Eat<K>(w: World<K>, k: K): World<K>
    requires k in w.players
  {
    var p := w.players[k];
    w.(players := w.players[k := p.(inv := p.inv[FOOD := p.inv[FOOD] - 1], dieTime := p.dieTime + w.config.lifeUnit)])
  }

  /** Takes the player out of the client table, its team's counter and its tile, in that order. */
  function Leave<K>(w: World<K>, k: K): (int, World<K>)
    requires Shaped(w) && k in w.players
  {
    var p := w.players[k];
    var i := FirstSlot(w.slots, Some(k));
    if i == |w.slots| then (ERROR, w)
    else if w.counts[p.team] <= 0 then (ERROR, w.(slots := w.slots[i := None]))
    else
      (SUCCESS, w.(
        slots := w.slots[i := None],
        counts := w.counts[p.team := w.counts[p.team] - 1],
        rows := Lift(w, k).rows,
        players := w.players - {k},
        rings := w.rings - {k},
        outbox := w.outbox + [DeathNotice(p.fd)]))
  }

  /** game_player_die: eats if it can, else leaves the server. */
  function Die<K>(w: World<K>, k: K): (int, World<K>)
    requires Shaped(w) && k in w.players
  {
    if w.players[k].inv[FOOD] > 0 then (SUCCESS, Eat(w, k)) else Leave(w, k)
  }

  // ----- the commands -----

  /** Takes one item from the tile, or puts one there; None when there is nothing to move. */
  function Transfer<K>(w: World<K>, k: K, kind: Kind, take: bool): Option<World<K>>
    requires Stands(w, k)
  {
    var p := w.players[k];
    TileIndexInRange(w.width, w.height, p.x, p.y);
    var t := TileOf(w.width, p);
    var there, here := w.items[t][kind], p.inv[kind];
    if take then
      if there <= 0 then None
      else Some(w.(items := w.items[t := w.items[t][kind := there - 1]],
                   players := w.players[k := p.(inv := p.inv[kind := here + 1])]))
    else
      if here <= 0 then None
      else Some(w.(items := w.items[t := w.items[t][kind := there + 1]],
                   players := w.players[k := p.(inv := p.inv[kind := here - 1])]))
  }

  /** What a prend or a pose moves; None when it is refused. */
  function Moved<K>(w: World<K>, k: K, command: Command, arg: Option<Arg>): Option<World<K>>
    requires Stands(w, k)
  {
    if arg.None? || !arg.value.Item? then None else Transfer(w, k, arg.value.kind, command == Prend)
  }

  function DoTransfer<K>(w: World<K>, k: K, command: Command, arg: Option<Arg>): World<K>
    requires Stands(w, k)
  {
    match Moved(w, k, command, arg)
    case None => Say(w, Reply(w.players[k].fd, Do(command), No))
    case Some(w') => Say(w', Reply(w.players[k].fd, Do(command), Yes))
  }

  /** How many players of a list are at a level. */
  function CountLevel<K>(row: seq<K>, players: map<K, Player>, level: int): nat {
    if row == [] then 0
    else (if row[0] in players && players[row[0]].level == level then 1 else 0)
         + CountLevel(row[1..], players, level)
  }

  predicate CanIncantate<K>(w: World<K>, k: K, checkItems: bool)
    requires Stands(w, k)
  {
    var p := w.players[k];
    TileIndexInRange(w.width, w.height, p.x, p.y);
    var t := TileOf(w.width, p);
    && p.level < LEVEL_MAX
    && (checkItems ==> Covers(w.items[t], LevelReqs(p.level).stones))
    && CountLevel(w.rows[t], w.players, p.level) >= LevelReqs(p.level).players
  }

  /** The first phase: pays the stones; `RunHead` queues the second phase. */
  function StartIncantation<K>(w: World<K>, k: K): World<K>
    requires Stands(w, k)
  {
    var p := w.players[k];
    if !CanIncantate(w, k, true) then Say(w, Reply(p.fd, Do(Incantation), No))
    else
      TileIndexInRange(w.width, w.height, p.x, p.y);
      var t := TileOf(w.width, p);
      var paid := w.(items := w.items[t := Minus(w.items[t], LevelReqs(p.level).stones)]);
      if FindFd(w, p.fd).None? then paid else Say(paid, Reply(p.fd, Do(Incantation), InProgress))
  }

  /** Raises every player of the list that is at the level. */
  function RaiseRow<K>(row: seq<K>, players: map<K, Player>, level: int): (map<K, Player>, seq<Reply>) {
    if row == [] then (players, [])
    else if row[0] in players && players[row[0]].level == level then
      var p := players[row[0]];
      var (rest, replies) := RaiseRow(row[1..], players[row[0] := p.(level := level + 1)], level);
      (rest, [Reply(p.fd, Do(Incantation), LevelUp)] + replies)
    else RaiseRow(row[1..], players, level)
  }

  /** The second phase, for a player that paid at `level`. */
  function FinishIncantation<K>(w: World<K>, k: K, level: int): World<K>
    requires Stands(w, k)
  {
    var p := w.players[k];
    if p.level != level || !CanIncantate(w, k, false) then Say(w, Reply(p.fd, ResolveIncantation, No))
    else
      TileIndexInRange(w.width, w.height, p.x, p.y);
      var (players, replies) := RaiseRow(w.rows[TileOf(w.width, p)], w.players, level);
      Say(w.(players := players, outbox := w.outbox + replies), Reply(p.fd, ResolveIncantation, Yes))
  }

  predicate IsLast<T(==)>(s: seq<T>, k: T) {
    s != [] && s[|s| - 1] == k
  }

  function Present(inv: Inventory, from: nat): seq<Sight>
    requires from <= 7
    decreases 7 - from
  {
    if from == 7 then []
    else (if inv[from] > 0 then [SeesItem(from)] else []) + Present(inv, from + 1)
  }

  /** What a tile looks like to a player: one entry per resource present, and perhaps "player". */
  function Contents<K>(w: World<K>, k: K, t: nat): seq<Sight>
    requires Shaped(w) && k in w.players && t < |w.rows|
  {
    var p := w.players[k];
    TileIndexInRange(w.width, w.height, p.x, p.y);
    var mine := w.rows[TileOf(w.width, p)];
    var row := w.rows[t];
    (if row != [] && row[0] in w.players && w.players[row[0]].fd != p.fd && !IsLast(mine, k) then [SeesPlayer] else [])
    + Present(w.items[t], 0)
  }

  /** The offset of the i-th tile of the d-th row of sight, for each heading. */
  function SightOffset(dir: Direction, d: int, i: int): (int, int) {
    match dir
    case North => (-d + i, -d)
    case East => (d, -d + i)
    case South => (d - i, d)
    case West => (-d, d - i)
  }

  /** The tile seen at an offset. */
  function SeenTile<K>(w: World<K>, k: K, d: int, i: int): (t: nat)
    requires Shaped(w) && k in w.players
    ensures t < |w.rows|
  {
    var p := w.players[k];
    var o := SightOffset(p.dir, d, i);
    var x, y := Wrap(p.x + o.0, w.width), Wrap(p.y + o.1, w.height);
    TileIndexInRange(w.width, w.height, x, y);
    TileIndex(w.width, x, y)
  }

  function SightRow<K>(w: World<K>, k: K, d: nat): (row: seq<seq<Sight>>)
    requires Shaped(w) && k in w.players
    ensures |row| == 2 * d + 1
  {
    seq(2 * d + 1, i requires 0 <= i < 2 * d + 1 => Contents(w, k, SeenTile(w, k, d, i)))
  }

  /** The first `rows` rows of sight, nearest first. */
  function View<K>(w: World<K>, k: K, rows: nat): seq<seq<Sight>>
    requires Shaped(w) && k in w.players
  {
    if rows == 0 then [] else View(w, k, rows - 1) + SightRow(w, k, rows - 1)
  }

  function DirectionCode(d: Direction): int {
    match d
    case North => 0
    case East => 1
    case South => 2
    case West => 3
  }

  /** The messages of a broadcast, one to each client in table order. */
  function Messages<K>(slots: seq<Option<K>>, players: map<K, Player>, from: Player, text: Option<Arg>,
                       width: int, height: int): seq<Reply>
    requires width > 0 && height > 0
  {
    if slots == [] then []
    else
      (if slots[0].Some? && slots[0].value in players then
         var p := players[slots[0].value];
         [Reply(p.fd, Do(Command.Broadcast),
                Status.Heard(Broadcast.DirectionOf(p.x, p.y, DirectionCode(p.dir), from.x, from.y, width, height), text))]
       else []) + Messages(slots[1..], players, from, text, width, height)
  }

  function Walk<K>(w: World<K>, k: K): World<K>
    requires Stands(w, k)
  {
    var (x, y) := StepAhead(w, k);
    Say(MovePlayer(w, k, x, y), Reply(w.players[k].fd, Do(Avance), Yes))
  }

  function Face<K>(w: World<K>, k: K, dir: Direction, c: Command): World<K>
    requires k in w.players
  {
    Say(w.(players := w.players[k := w.players[k].(dir := dir)]), Reply(w.players[k].fd, Do(c), Yes))
  }

  /**
   The replies to the commands that change nothing but the outbox. The shoves of an expulse are
   steps of their own; the command itself only answers.
   */
  function Answers<K>(w: World<K>, k: K, c: Command, arg: Option<Arg>): seq<Reply>
    requires Shaped(w) && k in w.players
  {
    var p := w.players[k];
    match c
    case Voir => [Reply(p.fd, Do(c), Seen(View(w, k, p.level + 1)))]
    case Inventaire => [Reply(p.fd, Do(c), Holds(p.inv))]
    case Expulse => [Reply(p.fd, Do(c), Yes)]
    case Broadcast => Messages(w.slots, w.players, p, arg, w.width, w.height) + [Reply(p.fd, Do(c), Yes)]
    case Fork => [Reply(p.fd, Do(c), Yes)]
    case ConnectNbr => [Reply(p.fd, Do(c), Slots(w.cap - w.counts[p.team]))]
    case _ => []
  }

  /** The level printed into an argument; anything else reads as 0. */
  function LevelOf(arg: Option<Arg>): int {
    if arg.Some? && arg.value.Level? then arg.value.level else 0
  }

  /** The effect of a callback on everything but the event buffers. */
  function Call<K>(w: World<K>, k: K, job: Job, arg: Option<Arg>): World<K>
    requires Shaped(w) && k in w.players
  {
    match job
    case ResolveIncantation =>
      FinishIncantation(w, k, LevelOf(arg))
    case Do(c) =>
      match c
      case Avance => Walk(w, k)
      case Droite => Face(w, k, TurnRight(w.players[k].dir), c)
      case Gauche => Face(w, k, TurnLeft(w.players[k].dir), c)
      case Prend => DoTransfer(w, k, c, arg)
      case Pose => DoTransfer(w, k, c, arg)
      case Incantation => StartIncantation(w, k)
      case _ => w.(outbox := w.outbox + Answers(w, k, c, arg))
  }

  /** The client whose buffer receives the second phase of an incantation: the first one found with the player's socket. */
  function QueuesSecondPhase<K>(w: World<K>, k: K, job: Job): Option<K>
    requires Stands(w, k)
  {
    if job == Do(Incantation) && CanIncantate(w, k, true) then FindFd(w, w.players[k].fd) else None
  }

  /** The callback of a second phase: it is called with the player that paid. */
  function SecondPhaseOf<K>(k: K): Option<Callback<K>> {
    Some(Callback(ResolveIncantation, k))
  }

  /**
   What a callback called with player `k` does to the buffer of `o` that its event came from: only
   a paid incantation pushes, to the front.
   */
  function Reacts<K>(w: World<K>, o: K, k: K, job: Job): Reaction<Callback<K>, Arg>
    requires Stands(w, k)
  {
    if QueuesSecondPhase(w, k, job) == Some(o) then
      PushesFront(w.config.IncantationTime(), SecondPhaseOf(k), Some(Level(w.players[k].level)))
    else Quiet
  }

  /** The buffers after one event of `o`, called with `k`, has been processed. */
  function RunRings<K>(w: World<K>, o: K, k: K, job: Job): map<K, Ring<Callback<K>, Arg>>
    requires Shaped(w) && o in w.players && k in w.players
  {
    var own := w.rings[o := Process(w.rings[o], w.now, Reacts(w, o, k, job)).ring];
    match QueuesSecondPhase(w, k, job)
    case None => own
    case Some(c) =>
      if c == o then own
      else own[c := PushFront(w.rings[c], w.now, w.config.IncantationTime(),
                              SecondPhaseOf(k), Some(Level(w.players[k].level))).1]
  }

  /** The event at the head of a client's buffer is called with a player that is still there. */
  ghost predicate CallsSomebody<K>(w: World<K>, o: K)
    requires Shaped(w) && o in w.players
  {
    IsDue(w.rings[o], w.now) && w.rings[o].slots[w.rings[o].head].call.Some? ==>
      w.rings[o].slots[w.rings[o].head].call.value.data in w.players
  }

  /** Processes the head of a client's buffer. */
  function RunHead<K>(w: World<K>, o: K): World<K>
    requires Shaped(w) && o in w.players && IsDue(w.rings[o], w.now) && CallsSomebody(w, o)
  {
    var ev := w.rings[o].slots[w.rings[o].head];
    if ev.call.None? then w.(rings := w.rings[o := Process(w.rings[o], w.now, Quiet).ring])
    else
      var Callback(job, k) := ev.call.value;
      Call(w, k, job, ev.arg).(rings := RunRings(w, o, k, job))
  }

  /** The turn of a slot is defined: it does not call back with a player whose memory was released. */
  ghost predicate Defined<K>(w: World<K>, i: nat)
    requires Shaped(w) && i < |w.slots|
  {
    w.slots[i].Some? && w.now < w.players[w.slots[i].value].dieTime ==> CallsSomebody(w, w.slots[i].value)
  }

  /** One turn of the loop of game_play, for one slot of the client table. */
  function Play<K>(w: World<K>, i: nat): World<K>
    requires Shaped(w) && i < |w.slots| && Defined(w, i)
  {
    match w.slots[i]
    case None => w
    case Some(o) =>
      if w.players[o].dieTime <= w.now then Die(w, o).1
      else if IsDue(w.rings[o], w.now) then RunHead(w, o)
      else w
  }

  /** One move of the expulse loop: player `q` is pushed to the tile ahead of `k`. */
  function Shove<K>(w: World<K>, k: K, q: K): World<K>
    requires Shaped(w) && k in w.players && q in w.players
  {
    var (x, y) := StepAhead(w, k);
    Say(MovePlayer(w, q, x, y), Reply(w.players[q].fd, Do(Expulse), Pushed))
  }

  // ----- spawning -----

  /** How many tiles one spawn call visits. */
  function Batch(size: int): (b: int)
    requires size > 0
    ensures 1 <= b <= 1000 && b <= size
  {
    var b := (size * 5 + 99) / 100;
    var b1 := if b < 1 then 1 else b;
    if b1 > 1000 then 1000 else b1
  }

  function Refill(tile: Inventory, drop: Inventory): Inventory {
    if InventorySum(tile) > 15 then tile else Plus(tile, drop)
  }

  /** Visits `n` tiles from index `from` on, dropping `drops[j]` on the j-th unless it is well stocked. */
  function SpawnOn(items: seq<Inventory>, from: int, drops: seq<Inventory>, n: nat): (r: seq<Inventory>)
    requires |items| > 0 && from >= 0 && n <= |drops|
    ensures |r| == |items|
  {
    if n == 0 then items
    else
      var before := SpawnOn(items, from, drops, n - 1);
      var t := (from + n - 1) % |items|;
      before[t := Refill(before[t], drops[n - 1])]
  }

  /** m_game_spawn_resources; `drops` are the random counts drawn for the visited tiles. */
  function Spawn<K>(w: World<K>, drops: seq<Inventory>): World<K>
    requires Shaped(w) && w.nextIdx >= 0 && |drops| == Batch(|w.items|)
  {
    w.(items := SpawnOn(w.items, w.nextIdx, drops, |drops|),
       nextIdx := (w.nextIdx + |drops|) % |w.items|)
  }
}

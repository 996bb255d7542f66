/** The client's player and command manager, updated in place by the server's responses. */
module Client {
  import opened Wrappers
  import opened World
  import opened Pose
  import opened ClientAi
  import opened ClientMap
  import opened Driving

  class Player {
    const level: nat
    var life: int
    var nour: int
    var inventory: map<Kind, int>
    const position: Position
    const world: WorldMap
    const ai: AI

    constructor (width: int, height: int)
      requires width > 0 && height > 0
      ensures Valid() && fresh(Repr()) && level == 1 && life == 1260 && nour == 0 && inventory == map[]
      ensures position.Value() == ORIGIN && ai.Value() == Mind({}, 1, false)
      ensures position.worldWidth == world.width == width && position.worldHeight == world.height == height
    {
      level, life, nour, inventory := 1, 1260, 0, map[];
      position := new Position(width, height);
      world := new WorldMap(width, height);
      ai := new AI();
    }

    ghost function Repr(): set<object>
    {
      {this, position, ai} + set t <- world.grid
    }

    ghost predicate Valid()
      reads position
    {
      position.Valid() && world.Valid()
    }

    function Tells(): Self
      reads this`life, this`inventory
    {
      Self(level, life, inventory)
    }

    /** The handlers of everything but a look. */
    method Record(r: Response)
      requires Valid() && WellTyped(r) && !r.Saw? && !r.Died?
      modifies this, position, ai
      ensures Valid()
      ensures position.Value() == Reckoned(position.worldWidth, position.worldHeight, old(position.Value()), r)
      ensures inventory == Stored(old(inventory), r)
      ensures life == old(life) + Fed(r)
      ensures nour == old(nour) + if r == Took(FOOD, true) then 1 else 0
      ensures ai.Value() == Noticed(old(ai.Value()), r)
    {
      match r {
        case Moved(c, ok) =>
          if ok {
            match c {
              case Avance => position.MoveForward();
              case Droite => position.TurnRight();
              case Gauche => position.TurnLeft();
            }
          }
        case Stock(counts) =>
          inventory := inventory + counts;
          if counts != map[] {
            ai.inventaireChecked := true;
          }
        case Took(kind, ok) =>
          if ok {
            inventory := inventory[kind := CountOf(inventory, kind) + 1];
            if kind == FOOD {
              life := life + FOOD_LIFE;
              nour := nour + 1;
            }
          }
        case Put(kind, ok) =>
          if ok {
            inventory := Removed(inventory, kind);
          }
        case Noted(_) =>
        case Foreign =>
      }
    }

    /** The first half of handleVoirResponse: the view goes into the map, as far as it has offsets. */
    method FileView(view: View)
      requires Valid()
      modifies world.grid
      ensures Valid()
      ensures var n := Min(|view|, |Offsets(level + 1)|);
        world.AllFiled(Cells(world.width, world.height, position.Value(), Offsets(level + 1)[..n]), view[..n], old(world.Memory()))
    {
      var n := Min(|view|, |Offsets(level + 1)|);
      world.UpdateVisibleTiles(position.x, position.y, position.direction, level, view[..n]);
    }

    /** handleVoirResponse; None is an exception. */
    method See(view: View, roll: Command) returns (added: Option<seq<Order>>)
      requires Valid()
      modifies ai, world.grid
      ensures Valid()
      ensures (ai.Value(), added) == LookAt(old(ai.Value()), Tells(), view, roll)
      ensures var n := Min(|view|, |Offsets(level + 1)|);
        world.AllFiled(Cells(world.width, world.height, position.Value(), Offsets(level + 1)[..n]), view[..n], old(world.Memory()))
    {
      FileView(view);
      if |view| > |Offsets(level + 1)| {
        return None;
      }
      added := ai.DecideNextMovesViewBased(Tells(), view, roll);
    }

    /**
     handleResponse, `pending` answers being still awaited: what the player queues because of a
     response, and what it and its AI keep of it; None is an exception.
     */
    method HandleResponse(r: Response, pending: int, roll: Command) returns (added: Option<seq<Order>>)
      requires Valid() && WellTyped(r)
      modifies Repr()
      ensures Valid()
      ensures (ai.Value(), added) == Decision(old(ai.Value()), old(Tells()), pending, r, roll)
      ensures Tells() == Outlived(old(Tells()), r, added)
      ensures position.Value() == Reckoned(position.worldWidth, position.worldHeight, old(position.Value()), r)
      ensures nour == old(nour) + if r == Took(FOOD, true) then 1 else 0
      ensures r.Saw? ==>
        var n := Min(|r.view|, |Offsets(level + 1)|);
        world.AllFiled(Cells(world.width, world.height, old(position.Value()), Offsets(level + 1)[..n]), r.view[..n],
                       old(world.Memory()))
      ensures !r.Saw? ==> world.Memory() == old(world.Memory())
    {
      match r {
        case Died =>
          return Some([]);
        case Saw(view) =>
          added := See(view, roll);
          if added.None? {
            return;
          }
        case _ =>
          Record(r);
          added := Some([]);
      }
      if r.Foreign? {
        return None;
      }
      life := life - TimeUnits(CommandOf(r));
      if !r.Saw? && pending == 0 {
        var nextMoves := ai.DecideNextMoves(roll);
        added := Some(nextMoves);
      }
    }
  }

  class CommandManager {
    const player: Player
    var commandQueue: seq<Order>
    var pendingResponses: int
    var dead: bool
    var wire: seq<Order>  // everything handed to the send function

    ghost function Manager(): Window
      reads this
    {
      Window(commandQueue, pendingResponses, dead, wire)
    }

    /** The client's program as a value. */
    ghost function Value(): Driver
      reads this, player, player.ai
    {
      Driver(Manager(), player.ai.Value(), player.Tells())
    }

    constructor (player: Player)
      ensures Manager() == Window([], 0, false, []) && this.player == player
    {
      this.player, commandQueue, pendingResponses, dead, wire := player, [], 0, false, [];
    }

    method SendCommand(command: Order)
      modifies this
      ensures Manager() == Send(old(Manager()), command)
    {
      if dead {
        return;
      }
      pendingResponses := pendingResponses + 1;
      wire := wire + [command];
    }

    method AddCommands(commands: seq<Order>)
      modifies this`commandQueue
      ensures commandQueue == old(commandQueue) + commands
    {
      var i := 0;
      while i < |commands|
        invariant 0 <= i <= |commands|
        invariant commandQueue == old(commandQueue) + commands[..i]
      {
        commandQueue := commandQueue + [commands[i]];
        i := i + 1;
      }
    }

    /** The loop that ends handleResponse. */
    method SendQueued()
      modifies this
      ensures Manager() == Drain(old(Manager()))
    {
      while commandQueue != [] && pendingResponses < WINDOW
        invariant Drain(Manager()) == Drain(old(Manager()))
        decreases |commandQueue|
      {
        var nextCommand := commandQueue[0];
        commandQueue := commandQueue[1..];
        SendCommand(nextCommand);
      }
    }

    /** handleWelcomeMsg, and the loop after it. */
    method HandleWelcome()
      modifies this
      ensures Manager() == Welcomed(old(Manager()))
    {
      SendCommand(Order(Command.Voir, None));
      SendQueued();
    }

    /** What was decided is queued, and as much as fits is sent. */
    method SendAll(commands: seq<Order>)
      modifies this
      ensures Manager() == Drain(old(Manager()).(queue := old(commandQueue) + commands))
      ensures player.Tells() == old(player.Tells()) && player.ai.Value() == old(player.ai.Value())
      ensures player.position.Value() == old(player.position.Value())
    {
      AddCommands(commands);
      SendQueued();
    }

    /** The count goes down, then the player handles the response. */
    method Ask(r: Response, roll: Command) returns (moves: Option<seq<Order>>)
      requires player.Valid() && WellTyped(r) && this !in player.Repr()
      modifies this`pendingResponses, player.Repr()
      ensures player.Valid()
      ensures Manager() == old(Manager()).(pending := old(pendingResponses) - 1)
      ensures (player.ai.Value(), moves) == Decision(old(player.ai.Value()), old(player.Tells()), pendingResponses, r, roll)
      ensures player.Tells() == Outlived(old(player.Tells()), r, moves)
      ensures player.position.Value()
           == Reckoned(player.position.worldWidth, player.position.worldHeight, old(player.position.Value()), r)
    {
      pendingResponses := pendingResponses - 1;
      moves := player.HandleResponse(r, pendingResponses, roll);
    }

    /** handleResponse for a message of type response; an exception leaves the loop out. */
    method HandleResponse(r: Response, roll: Command)
      requires player.Valid() && WellTyped(r) && this !in player.Repr()
      modifies this, player.Repr()
      ensures player.Valid()
      ensures Value() == Respond(old(Value()), r, roll)
      ensures player.position.Value()
           == Reckoned(player.position.worldWidth, player.position.worldHeight, old(player.position.Value()), r)
    {
      var moves := Ask(r, roll);
      if moves.Some? {
        SendAll(moves.value);
      }
    }
  }

  /** A client that has logged in is the one the runs of the flow start from. */
  method Connect(width: int, height: int) returns (client: CommandManager)
    requires width > 0 && height > 0
    ensures fresh(client) && client.player.Valid() && client !in client.player.Repr()
    ensures client.Value() == Newborn() && client.player.position.Value() == ORIGIN
  {
    var player := new Player(width, height);
    client := new CommandManager(player);
    client.HandleWelcome();
  }
}

# Zappy: server and client, modelled and proved

Zappy is a game played over the network: a C server keeps a torus of tiles with resources and
players, and Java clients steer one player each through text commands. This project models the
server's state machine, its event buffers and its helpers, and the part of the client that has to
stay in step with the server, and proves what they keep over whole runs.

| file | what it holds |
|---|---|
| `EventRing.dfy`, `RingRuns.dfy`, `EventBuffer.dfy` | the ten-slot event buffer: as a value, over runs, and updated in place with re-entrant callbacks |
| `World.dfy` | the server as a value: tiles, lists, client table, team counters, inventories, commands, spawning |
| `Soundness.dfy`, `Tally.dfy`, `Steps.dfy` | the invariant of the server, kept by every step and every run |
| `Ledger.dfy`, `Lifetime.dfy`, `Incantations.dfy` | conservation of items, the life equation, the two-phase incantation |
| `SharedSocket.dfy` | what two logins on one socket lead to: a run of whole passes to a callback on released memory |
| `Hearing.dfy`, `Promises.dfy` | what the server sends a client that it did not ask for; what "in_progress" promises |
| `TileLists.dfy`, `GameServer.dfy` | the server in place: intrusive doubly linked lists, arrays, fields, refining `World` |
| `Torus.dfy`, `Broadcast.dfy`, `Bearings.dfy` | C remainders, sectors, and where a broadcast is heard from by where the speaker stands |
| `SpawnFairness.dfy` | round-robin spawning over the runs of the server, and the event that keeps it going |
| `ClientAi.dfy`, `ClientMap.dfy`, `Client.dfy` | the client's decisions, position, map, player and command manager, in place |
| `Pose.dfy` | the client's dead reckoning and map against the server's |
| `Driving.dfy` | what the client's program does with one response, as a value |
| `Flow.dfy` | the window of ten commands against the ten-slot buffer, with the messages that answer nothing |
| `Silence.dfy`, `Journeys.dfy` | when the client never sends again, and runs from the welcome that lead there |
| `Session.dfy` | server, channels and client together: every look is handled where it was made |
| `Inventories.dfy`, `ClientLife.dfy` | what the client believes its player holds and how long it will live, against the server |
| `Handshake.dfy`, `SslTable.dfy`, `FtList.dfy`, `WebSocket.dfy` | the handshake pipeline, the hash table, the circular list, the frames |

A player of the server is a key of `World`: the run-level theorems hold for every key type, and
`GameServer` instantiates it with its player objects. A method there ends in exactly the value the
function of the same operation gives (`ensures w == Walk(old(w), p)`), with `Holds()` tying that
value to tiles, links, arrays and fields. An event carries the player its callback is called with, and
a turn is defined as long as that player has not been released. With one login per socket every turn of
every run is defined (`Incantations.EveryRunFromInit`). `GameServer.Server.PerformAll` closes the loop: any
sequence of things happening to the heap, up to the first login on a connected socket, is a run of the
value, so what is proved of every such run is true of the heap.

Clocks, random draws, start positions, chunk sizes of reads and the order of threads are parameters
or steps that the environment chooses, and every theorem holds for all choices.

Where the code does something else than its comments or names say, the code is modelled, and the
exact condition is a theorem:

- an event queued behind others is stamped from the free slot at the tail, so stamps need not
  increase (`RingRuns.StampsNeedNotIncrease`); the stamp is now plus delay if and only if the buffer
  is empty or that slot was last stamped with the present time (`RingRuns.StampExactWhen`);
- a callback that pushes to the back of a full buffer loses the argument of the event it pushes
  (`EventRing.FullBackPass`), and arguments are dropped exactly in the cases of
  `RingRuns.DropsExactlyWhen`;
- nothing stops a socket from logging in twice; a paid incantation then goes to the payer's own buffer
  if and only if the lookup by its socket finds it (`Incantations.PaymentStaysHomeExactlyWhen`), and a run
  from `game_init` reaches a turn that calls back with a player already released
  (`SharedSocket.SharedSocketDangles`);
- the 1024th task in a handshake ring makes it look empty, and all are lost (`Handshake.RoomIsNeeded`,
  `Handshake.FullRingLosesAll`);
- dead reckoning works for every walk if and only if the map is square or the player starts facing
  north or south (`Pose.ReckoningWorksExactlyWhen`);
- the moves to a tile of the view reach it if and only if its index is at most 5
  (`ClientAi.MovesReachExactlyUpToFive`; where they lead instead is `ClientAi.MovesLeadTo`);
- the server looks up an elevation at the index of the level itself, one further than the client's rule: at no
  level do the stones of the client's rule suffice (`ClientAi.RulesAreRequirements`, `ClientAi.RuleNeverSuffices`);
- a look never shows a player to one that is last in its own tile's list, as one alone is
  (`Pose.PlayerShownExactlyWhen`);
- the client counts its stones right, but not the food its player eats, and takes the default configuration for
  granted: by how much it is wrong is `Inventories.InventoryIsKnown` and `ClientLife.LifeIsOverestimatedBy`;
- the mask of a masked ping is read as its first bytes, and four bytes of the frame are left over
  (`WebSocket.MaskedPingIsMisread`); the length returned is right exactly below 2 to the 31
  (`WebSocket.ReturnsLengthExactlyWhen`);
- the client takes every message of type response for an answer it awaits. Level-ups, what others say and
  pushes answer nothing, so what it awaits is what is on its way and what the buffer refused, less the strays
  it took for answers (`Flow.NoCommandIsDropped`). A player's own broadcast is answered twice
  (`Flow.OwnBroadcastAnsweredTwice`), a paid incantation when it is paid and when it is resolved, with a
  level-up for each player raised (`Hearing.IncantationAnswers`); this client sends neither
  (`Driving.DecisionsAreBatches`);
- before it took a stray, the client stalls if and only if it handles a look with no rule left
  (`Flow.StallsExactlyWhen`), and the way there is walked (`Journeys.StallIsReachable`);
- a look throws if and only if a level-up was handled before it or the rules ran out
  (`Silence.LookThrowsAfterLevelUp`), since the client never raises its own level. After its first level-up the
  client still sends, blindly, until an exception comes when it counts one answer, and then never again
  (`Silence.FirstLevelUpBlinds`, `Silence.BlindSinksExactlyWhen`): raised once it may wander for ever, raised
  twice it can fall silent (`Journeys.RaisedWandersBlindly`, `Journeys.RaisedTwiceSinks`);
- one word of another player, heard while the client counts one answer that is not a look's, silences it for
  good (`Silence.FirstForeignSinksExactlyWhen`, `Journeys.OneWordSilences`). With no message on its way, the
  client never sends again if and only if it awaits nothing by its own count, keeps nothing back, and has no
  look on its way that it could still use (`Silence.SilentExactlyWhen`).

## Model

| member | source | states |
|---|---|---|
| EventRing.LiveThenDeadIsRotation | server/srcs/time_api/time_api.c:100-106 | the queued slots from the head and the free ones from the tail are all ten slots, each once |
| EventRing.PushBackAppends | server/srcs/time_api/time_api.c:108-139 | succeeds exactly below ten events, then appends one event and takes the first free slot; refused, it changes nothing |
| EventRing.PushFrontPrepends | server/srcs/time_api/time_api.c:141-170 | succeeds exactly below ten events, then puts the event stamped now plus delay at the head and takes the last free slot |
| EventRing.NotDueIsNoOp | server/srcs/time_api/time_api.c:185-190 | with no due head nothing runs, nothing is freed and nothing changes |
| EventRing.QuietPass | server/srcs/time_api/time_api.c:185-204 | a callback that pushes nothing: the head leaves, exactly its argument is freed, its slot is left clean |
| EventRing.FrontPass | server/srcs/time_api/time_api.c:141-204 | a callback that pushes to the front cannot fail, reuses the slot being read, and nothing live is freed |
| EventRing.BackPass | server/srcs/time_api/time_api.c:125-204 | a callback that pushes to the back of a buffer that was not full: the head leaves, its argument is freed, the new event is last |
| EventRing.FullBackPass | server/srcs/time_api/time_api.c:125-204 | on a full buffer the new event takes the slot being read, and its own argument is freed in place of the old one |
| TimeApi.EventBuffer.ScheduleClientEvent | server/srcs/time_api/time_api.c:108-139 | the buffer in place does what the push to the back of its value does; 0 exactly when there was room |
| TimeApi.EventBuffer.ScheduleClientEventFront | server/srcs/time_api/time_api.c:141-170 | the buffer in place does what the push to the front of its value does; 0 exactly when there was room |
| TimeApi.EventBuffer.ProcessClientEvents | server/srcs/time_api/time_api.c:172-204 | one call with a re-entrant callback ends in the value, the event run and the argument freed that the passes above describe |
| TimeApi.EventBuffer.FreeArguments | server/srcs/game/game.c:1404-1408 | the loop over all slots frees exactly the arguments the slots hold, each as often as it is held |
| RingRuns.StampWithinDelay | server/srcs/time_api/time_api.c:125-130 | while free slots carry no future time, an event is stamped no later than now plus its delay |
| RingRuns.StampExactWhen | server/srcs/time_api/time_api.c:125-130 | the stamp is now plus delay if and only if the buffer is empty or the slot at the tail is stamped with now |
| RingRuns.StampsNeedNotIncrease | server/srcs/time_api/time_api.c:125-126 | two events queued at time 100 with delay 7 are stamped 107 and 7 |
| RingRuns.StepKeepsTimely | server/srcs/time_api/time_api.c:108-204 | every operation keeps queued stamps within their bounds and free slots in the past |
| RingRuns.StepKeepsAccounted | server/srcs/time_api/time_api.c:108-204 | every operation keeps: arguments taken = queued + freed + dropped, and free slots hold none |
| RingRuns.EveryRunIsSound | server/srcs/time_api/time_api.c:108-204 | both hold after any run; an argument handed in once is in at most one of queue, freed and dropped, at most once |
| RingRuns.EveryRunFromFresh | server/srcs/game/game.c:1277 | so from a zeroed buffer on: every stamp is within its bound, and all arguments taken are in the ten slots, freed or dropped |
| RingRuns.DropsExactlyWhen | server/srcs/time_api/time_api.c:120-204 | an argument is dropped if and only if it is refused by a full buffer or its event's slot is reused by its own callback |
| RingRuns.DeathFreesExactlyTheLive | server/srcs/game/game.c:1404-1408 | with clean free slots, freeing the arguments of all ten slots frees exactly those of the queued events, once each |
| RingRuns.DrainRunsAllInOrder | server/srcs/time_api/time_api.c:172-204 | n calls on n due events with quiet callbacks run all of them, in queue order, and empty the buffer |
| RingRuns.PastDeadlinesEverythingRuns | server/srcs/time_api/time_api.c:125-204 | once the clock has passed every scheduling time plus delay, n calls run all n events in order |
| Torus.Wrap | server/srcs/game/game.c:447-451 | the C remainder, corrected for negatives, is the mathematical one |
| Broadcast.MinimalDeltaIsShortest | server/srcs/game/game.c:852-857 | the result is congruent to the displacement and no congruent displacement is shorter |
| Broadcast.ZeroExactlyOnTheSameTile | server/srcs/game/game.c:859-902 | the direction is in 0..8, and 0 if and only if both stand on the same tile |
| Broadcast.NoTies | server/srcs/game/game.c:877-901 | x squared equals twice y squared only for 0 and 0, so a sector test never meets its boundary |
| Broadcast.SteepMeans | server/srcs/game/game.c:877-901 | the integer sector test is the comparison of slopes against the square root of two, and is strict |
| Broadcast.SectorIsNearestAxis | server/srcs/game/game.c:877-901 | over the reals, the sector found is the one of eight axes with the strictly largest projection |
| Bearings.HeardFromWhereItStands | server/srcs/game/game.c:859-929 | a speaker b tiles ahead of a listener and a to its right, less than half the map away, is heard from the one of the listener's eight axes that is nearest to the way there, and from 0 on its own tile |
| Bearings.HeardOverAShortestWay | server/srcs/game/game.c:852-902 | so for any two places on the map, with a way there that is at most half the map long on both axes |
| Bearings.NeighboursAreHeard | server/srcs/game/game.c:859-902 | on axes longer than 2, a speaker on the tile a step would take the listener to is heard from 1; from the tiles to its left, behind it and to its right from 3, 5 and 7 |
| Broadcast.QuarterTurnAddsTwo | server/srcs/game/game.c:859-902 | turning the listener a quarter adds 2 modulo 8 and keeps 0 |
| Broadcast.SwappingAddsFour | server/srcs/game/game.c:859-902 | swapping speaker and listener that face the same way adds 4 modulo 8 and keeps 0 |
| Soundness.WithoutNoDup | server/srcs/game/game.c:341-355 | removal takes out the named player only, at its place, and leaves the order of the others |
| Soundness.MoveSplices | server/srcs/game/game.c:341-365 | a move puts the player at the head of the new tile's list, and without the player every list is as before |
| Soundness.MoveSound | server/srcs/game/game.c:357-365 | a move keeps the whole invariant |
| Soundness.RoomOnTeamMeansFreeSlot | server/srcs/game/game.c:417-430 | whenever the team-full test lets a player in, the client table has a free slot, so the ignored result is always success |
| Soundness.ConnectNbrIsRoomLeft | server/srcs/game/game.c:1072-1084 | the answer is never negative, and a login to the team succeeds and gets a slot if and only if it is positive |
| Soundness.LoginOutcome | server/srcs/game/game.c:1255-1302 | a login succeeds if and only if the team is known and has room, and otherwise leaves no trace |
| Soundness.LoginSound | server/srcs/game/game.c:1255-1307 | a login, accepted or refused, keeps the whole invariant |
| Soundness.RemovalNeverFails | server/srcs/game/game.c:1379-1390 | at death the player's slot is found and its team's counter is positive |
| Soundness.LeaveSound | server/srcs/game/game.c:1365-1412 | leaving keeps the whole invariant |
| Soundness.LeaveSeated | server/srcs/game/game.c:432-445 | after leaving, no slot holds the player, and everyone else is in exactly one |
| Soundness.DieSound | server/srcs/game/game.c:1353-1412 | eating or leaving keeps the whole invariant |
| Steps.RaiseRowExact | server/srcs/game/game.c:1005-1014 | the walk raises exactly the players of the list that are at the level, each by one |
| Steps.CallSound | server/srcs/game/game.c:497-1181 | every callback of a command, called with any connected player, keeps the whole invariant |
| Steps.RunHeadSound | server/srcs/game/game.c:1439-1443 | running the head event of a client's buffer with the player it carries keeps the whole invariant, as long as that player is connected |
| Steps.SendsSound | server/srcs/game/game.c:1309-1351 | queueing a command, known or unknown, keeps the whole invariant |
| Steps.KillSound | server/srcs/game/game.c:1454-1475 | killing a player on disconnect keeps the whole invariant |
| Steps.SpawnOnlyAdds | server/srcs/game/game.c:1494-1511 | spawning lowers no count and changes no tile with more than 15 items |
| Steps.ShoveSound | server/srcs/game/game.c:838-847 | a push of another player to the tile ahead keeps the whole invariant |
| Steps.StepSound | server/srcs/game/game.c:1255-1525 | every step that is defined keeps: lists without repetition, each player in exactly one, its own tile's; slots and counters in agreement; no negative stock; levels 1 to 7 |
| Steps.EveryRunSound | server/srcs/game/game.c:1255-1525 | so does every run whose turns are defined |
| Steps.InitialSound | server/srcs/game/game.c:1588-1633 | the server as game_init leaves it satisfies the invariant |
| Ledger.TransferConserves | server/srcs/game/game.c:629-735 | prend and pose conserve every resource; a refused one changes nothing but the outbox |
| Ledger.TransferAnswers | server/srcs/game/game.c:629-802 | a prend or pose is answered yes if and only if the tile, or the player, has one of the kind named; then exactly one of it changes hands and nothing else moves; otherwise no, and nothing happens but the answer |
| Ledger.TurnIsDeed | server/srcs/game/game.c:1424-1444 | a turn idles, eats, leaves or runs the callback at the head of the player's buffer, as clock, food and buffer decide |
| Ledger.StepConserves | server/srcs/game/game.c:629-1525 | one step: total on tiles and players changes by spawned - paid - eaten - lost, for each resource |
| Ledger.RunsConserve | server/srcs/game/game.c:629-1525 | the same over every run |
| Ledger.NullEventIsDropped | server/srcs/time_api/time_api.c:185-204 | a due event without a callback is taken off its buffer, and that is all |
| Lifetime.StepLastBreath | server/srcs/game/game.c:1353-1363 | no step but taking and dropping food changes death time + life unit * food |
| Lifetime.LifeEquation | server/srcs/game/game.c:1295-1296 | from login on, over any run without disconnect: death time + life unit * food = start + life unit * (start units + food taken - food dropped) |
| Lifetime.LeavesOnlyWhenSpent | server/srcs/game/game.c:1353-1390 | a player leaves only with no food and its death time reached |
| Lifetime.NotRemovedEarly | server/srcs/game/game.c:1433-1437 | hence no player is removed before the time its start and food taken pay for |
| Lifetime.KillOutcome | server/srcs/game/game.c:1454-1475 | losing a socket is an error exactly when no client has it; else the first that has it loses its time and its food, and nobody anything else |
| Lifetime.KilledLeavesAtNextTurn | server/srcs/game/game.c:1454-1475 | a killed player leaves at its next turn, and its death is announced |
| Incantations.FindsItself | server/srcs/game/game.c:367-383 | with one login per socket, looking a player up by its socket finds that player |
| Incantations.CountLevelIsCard | server/srcs/game/game.c:970-984 | the walk counts the different players of the level on the tile |
| Incantations.CanIncantateMeans | server/srcs/game/game.c:938-984 | the check passes if and only if the level is below 7, enough players of the level stand there and, if asked, every stone is there |
| Incantations.PaymentQueuesSecondPhase | server/srcs/game/game.c:1040-1058 | when a player pays, the second phase with its level becomes the head of its own buffer, and no other buffer changes |
| Incantations.PaymentStaysHomeExactlyWhen | server/srcs/game/game.c:1048-1056 | whatever the sockets: the second phase becomes the head of the payer's buffer if and only if the first client found with its socket is its own; else, if there is room, of the other one's |
| Incantations.PaymentIsAnswered | server/srcs/game/game.c:1040-1058 | a payment is answered in progress, to the player, once |
| Incantations.ResolutionRaisesExactly | server/srcs/game/game.c:986-1017 | a resolution raises by one exactly the players of the paid level on the tile if enough are there, else nobody, and answers accordingly |
| Incantations.LevelsNeverFall | server/srcs/game/game.c:986-1017 | in any step a level stays or rises by one, and rises only in a second phase |
| Incantations.PendingPhaseRunsNext | server/srcs/time_api/time_api.c:141-204 | while a second phase is pending, no other command of that player runs, and the same event stays at the head with the level paid |
| Incantations.StepKeepsReady | server/srcs/game/game.c:986-1059 | with one login per socket every step keeps: the server sound, every queued event called with the owner of its buffer, second phases at the head only, each with its level |
| Incantations.EveryStartResolvesOnce | server/srcs/game/game.c:986-1059 | over every run with one login per socket, the levels a player paid at are, in order, the levels of its second phases, but for at most one still pending at the head |
| Incantations.EveryStartResolvesOnceFromInit | server/srcs/game/game.c:1588-1633 | so from game_init and the player's login on, with nothing pending at first |
| Incantations.OfferedIsEnabled | server/srcs/time_api/time_api.c:185-199 | in a ready server every turn is defined: the player at the head of a buffer is its owner and connected |
| Incantations.EveryRunReady | server/srcs/game/game.c:1255-1525 | with one login per socket, every turn of every run is defined, and the invariant holds at its end |
| Incantations.EveryRunFromInit | server/srcs/game/game.c:1588-1633 | so from game_init on |
| Incantations.PassReady | server/srcs/game/game.c:1424-1444 | a pass of the play loop over any part of the client table takes every turn and keeps the whole invariant |
| SharedSocket.SharedSocketDangles | server/srcs/game/game.c:1414-1444 | with two logins on a socket, from game_init and in whole passes over the table, the payer leaves while its second phase waits in another client's buffer, and a pass comes whose first turn calls back with it |
| TileLists.AddPlayerToTile | server/srcs/game/game.c:329-339 | relinking puts the player at the head of a well-linked list and gives it the tile's position |
| TileLists.RemovePlayerFromTile | server/srcs/game/game.c:341-355 | relinking leaves a well-linked list without the player, and the player without links |
| TileLists.LiftFrom | server/srcs/game/game.c:341-355 | no other tile's list is touched by a removal |
| TileLists.DropOn | server/srcs/game/game.c:329-339 | nor by an insertion |
| TileLists.CountPlayersAtLevel | server/srcs/game/game.c:970-980 | the walk over the links ends and counts the players of the level |
| GameServer.Server.constructor | server/srcs/game/game.c:1588-1633 | the heap built at start holds an initial server with the given sizes, stock and teams |
| GameServer.Server.Relocate | server/srcs/game/game.c:357-365 | moves the player in the heap as in the value, all lists staying linked |
| GameServer.Server.Avance | server/srcs/game/game.c:1144-1181 | one step ahead on the torus, answered |
| GameServer.Server.Droite | server/srcs/game/game.c:1086-1113 | a quarter turn to the right, answered |
| GameServer.Server.Gauche | server/srcs/game/game.c:1115-1142 | a quarter turn to the left, answered |
| GameServer.Server.MoveItem | server/srcs/game/game.c:629-735 | moves one item between tile and player, or fails and leaves everything |
| GameServer.Server.PrendOrPose | server/srcs/game/game.c:737-802 | the whole command, with its answer, for known and unknown arguments |
| GameServer.Server.FindClient | server/srcs/game/game.c:367-383 | the first client with the socket, or none |
| GameServer.Server.CheckCanIncantate | server/srcs/game/game.c:938-984 | decides exactly the condition of Incantations.CanIncantateMeans |
| GameServer.Server.PayIncantation | server/srcs/game/game.c:1019-1058 | the first phase: stones paid and answered, or refused |
| GameServer.Server.RaisePlayers | server/srcs/game/game.c:1005-1014 | the walk over the links raises and tells exactly the players the value raises, in order |
| GameServer.Server.ResolveIncantation | server/srcs/game/game.c:986-1017 | the second phase |
| GameServer.Server.SetSlot | server/srcs/game/game.c:417-445 | changes one slot and no other |
| GameServer.Server.Remove | server/srcs/game/game.c:1379-1412 | takes the player out of table, counter and list, in this order, and announces it |
| GameServer.Server.PlayerDie | server/srcs/game/game.c:1353-1412 | eats one food, or leaves |
| GameServer.Server.KillPlayer | server/srcs/game/game.c:1454-1475 | ends food and time of the first client with the socket, or reports an error |
| GameServer.Server.ExecuteCommand | server/srcs/game/game.c:1309-1351 | queues a known command with its delay, ignores unknown sockets, refuses unknown words |
| GameServer.Server.TeamId | server/srcs/game/game.c:152-162 | the first team of the name, or an error |
| GameServer.Server.RegisterPlayer | server/srcs/game/game.c:1255-1307 | refuses unknown and full teams without a trace, else adds a new player on tile, team and table |
| GameServer.Server.TileVision | server/srcs/game/game.c:453-495 | the entry of one tile, from its first player's socket, the looker's own link and the counts |
| GameServer.Server.Voir | server/srcs/game/game.c:497-596 | all rows of sight, nearest first |
| GameServer.Server.BroadcastMessages | server/srcs/game/game.c:904-931 | one message per connected client, in table order, with its direction and the text |
| GameServer.Server.RunEvent | server/srcs/time_api/time_api.c:185-204 | a due event: its callback runs with the player it carries and the buffers end as in the value, second phase included, wherever it goes |
| GameServer.Server.PlaySlot | server/srcs/game/game.c:1424-1444 | one turn of the play loop, whenever it is defined |
| GameServer.Server.GamePlay | server/srcs/game/game.c:1414-1452 | a whole pass over the client table of a ready server |
| GameServer.Server.Push | server/srcs/game/game.c:838-847 | one move of the expulse loop, in place |
| GameServer.Server.Perform | server/srcs/game/game.c:1255-1525 | whatever happens to a ready server in place, but a login on a connected socket, is an enabled step of the value, and nothing but new players and clients is added to the heap |
| GameServer.Server.PerformAll | server/srcs/game/game.c:1255-1525 | any sequence of logins, commands, disconnects, turns, pushes and spawns, up to the first login on a connected socket, takes the heap through a run of the value whose turns are all defined, and keeps links, table, counters and stocks sound |
| GameServer.Server.SpawnResources | server/srcs/game/game.c:1477-1513 | one spawn call, tile by tile |
| SpawnFairness.SpawnOnAt | server/srcs/game/game.c:1494-1511 | one call refills a tile once, with its own draw, if it is within the batch from the start index, and else leaves it |
| SpawnFairness.VisitsExactly | server/srcs/game/game.c:1494-1496 | the exact number of visits of a tile among any number of consecutive indices |
| SpawnFairness.InventorySumIsAll | server/srcs/game/game.c:1501 | the sum that decides whether a tile is well stocked is over all kinds |
| SpawnFairness.BatchIsFivePercent | server/srcs/game/game.c:1489-1492 | a call visits five percent of the tiles, rounded up, and 1000 on maps of more than 20000 |
| SpawnFairness.SpawnedAt | server/srcs/game/game.c:1494-1511 | what a spawn step of the server adds to a tile, kind by kind: what was drawn for its place in the batch if it is visited and holds at most 15 items, else nothing |
| SpawnFairness.OtherKeepsIndex | server/srcs/game/game.c:1513 | nothing but a spawn step moves the next index |
| SpawnFairness.RunVisits | server/srcs/game/game.c:1494-1513 | the spawn steps of any run, whatever happens between them, visit consecutive tiles: next index and visits are those of k batches in a row |
| SpawnFairness.SpawningIsFair | server/srcs/game/game.c:1477-1513 | from game_init, over any run with k spawn steps: the next index is k * batch modulo size, and every tile was visited the floor or the ceiling of k * batch / size times |
| SpawnFairness.InitArms | server/srcs/game/game.c:1628-1630 | game_init leaves exactly one spawn event queued |
| SpawnFairness.PassKeepsArmed | server/srcs/game/game.c:1515-1522 | a pass spawns if and only if the event is due, and leaves exactly one event, then due a period later |
| SpawnFairness.PassesAreRun | server/srcs/game/game.c:1414-1452 | any passes, with anything the clients do between them, are a run of the server with as many spawn steps as the event caused |
| SpawnFairness.RespawnGoesOn | server/srcs/game/game.c:1446 | so from game_init with respawn on: between any passes exactly one spawn event is queued, and next index and visits are fair as above |
| ClientAi.SearchOrderInView | client/src/main/java/com/example/AI.java:264-285 | the search order has (level+1)^2 entries, all tiles of the view |
| ClientAi.SearchOrderRanks | client/src/main/java/com/example/AI.java:264-285 | every tile of the view is in it, row by row and from the middle outwards, so it is a permutation |
| ClientAi.SearchFindsFirst | client/src/main/java/com/example/AI.java:116-123 | the tile found shows a wanted thing and no tile searched before it does |
| ClientAi.SearchIsComplete | client/src/main/java/com/example/AI.java:167-177 | with a whole view, nothing is found if and only if no tile shows anything wanted |
| ClientAi.DecidesUnlessRulesRunOut | client/src/main/java/com/example/AI.java:35-75 | with a whole view the decision throws if and only if there is no rule for the level, and is otherwise never empty |
| ClientAi.RulesAreClimbedInOrder | client/src/main/java/com/example/AI.java:66-70 | over any views the rule level never falls, rises one at a time and stops at 8, for good |
| ClientAi.MovesReachExactlyUpToFive | client/src/main/java/com/example/AI.java:192-220 | the moves computed for a tile reach it if and only if its index is at most 5 |
| ClientAi.MovesLeadTo | client/src/main/java/com/example/AI.java:192-220 | where the moves for any index lead: half the index ahead, and as far to the side as that row makes of it |
| ClientAi.DecisionIs | client/src/main/java/com/example/AI.java:35-165 | with a rule and a whole view: hungry, the orders fetch the first food searched, else the first stone the inventory is short of by the rule, or wander when none is shown; with none short they ask for the inventory, and the next rule is taken up if one was answered |
| ClientAi.RulesAreRequirements | client/src/main/java/com/example/ElevationRules.java:27-71 | the client has a rule for a level if and only if the server has an entry at the index below it, and stones and players are the same |
| ClientAi.RuleNeverSuffices | server/srcs/game/game.c:950-968 | at every level the server asks for more of some stone than the client's rule for that level has |
| ClientAi.AI.SetTargets | client/src/main/java/com/example/AI.java:135-151 | the targets are exactly the stones of the rule the inventory is short of |
| ClientAi.AI.GetViewIndicesSortedByDistance | client/src/main/java/com/example/AI.java:264-285 | the loops build the search order above |
| ClientAi.AI.FindInView | client/src/main/java/com/example/AI.java:167-177 | the first wanted thing in search order, nothing, or an index off the view |
| ClientAi.AI.GetMovesToTile | client/src/main/java/com/example/AI.java:192-220 | the loops build the moves above |
| ClientAi.AI.DecideNextMovesViewBased | client/src/main/java/com/example/AI.java:35-75 | the new state and the orders of every branch, the exceptions included |
| ClientMap.Position.MoveForward | client/src/main/java/com/example/Position.java:20-35 | one step of the reckoning, in range |
| ClientMap.Position.TurnLeft | client/src/main/java/com/example/Position.java:37-39 | the reckoning of a turn to the left |
| ClientMap.Position.TurnRight | client/src/main/java/com/example/Position.java:41-43 | the reckoning of a turn to the right |
| ClientMap.Tile.Update | client/src/main/java/com/example/Tile.java:28-41 | afterwards each thing is counted exactly as often as it was listed |
| ClientMap.GenerateRelativeOffsets | client/src/main/java/com/example/World.java:121-129 | the loops build the offsets row by row |
| ClientMap.WorldMap.UpdateVisibleTiles | client/src/main/java/com/example/World.java:30-49 | every tile of the map holds the last entry of the view for it, and tiles without an entry are unchanged |
| ClientMap.MapMirrorsServer | client/src/main/java/com/example/World.java:30-49 | while aligned, the last entry for a cell is what the server has on the tile under that cell, for any level |
| ClientMap.RememberedCounts | client/src/main/java/com/example/Tile.java:28-41 | a tile that remembers such an entry counts a resource once if the server has any of it there, else not |
| Pose.AheadIsCounterpart | client/src/main/java/com/example/Position.java:20-35 | a step of the aligned player on the server leads to the tile the client's step stands for |
| Pose.RunAligned | client/src/main/java/com/example/Position.java:20-43 | over any commands, stance = start + reckoning turned by the start heading, modulo the map |
| Pose.MisalignedWalk | client/src/main/java/com/example/Position.java:20-43 | on a map that is not square, starting east or west, a walk of one or two commands already breaks this |
| Pose.ReckoningWorksExactlyWhen | client/src/main/java/com/example/Position.java:20-43 | it holds for every walk if and only if the map is square or the start faces north or south |
| Pose.SightIsRotation | server/srcs/game/game.c:543-566 | the server's order of sight is the client's offsets turned by the heading, tile by tile |
| Pose.FlatAt | client/src/main/java/com/example/World.java:121-129 | in rows of 1, 3, 5, ... entries the i-th of row d stands right after the rows before it, at Base(d) + i |
| Pose.BaseIsSquare | client/src/main/java/com/example/World.java:121-129 | those rows have d*d entries, so a view has (level+1)^2 |
| Pose.ViewAt | server/srcs/game/game.c:538-578 | so does the i-th tile of row d in the server's view, which has as many entries |
| Pose.OffsetsAt | client/src/main/java/com/example/World.java:121-129 | and the offset (i - d, -d) in the client's list |
| Pose.CellIsMod | client/src/main/java/com/example/World.java:43-44 | the two Java remainders give the wrapped cell even for offsets larger than the map |
| Pose.SeenIsCounterpart | client/src/main/java/com/example/World.java:36-44 | while aligned, each tile seen is the counterpart of the cell the client files it under |
| Pose.ViewIsFiledRight | server/srcs/game/game.c:538-578 | the same for the entries: each is what the server has under the client's cell |
| Pose.RunStance | server/srcs/game/game.c:1086-1181 | over any run of the server without pushes, a player stands where its own executed commands took it |
| Pose.ClientKnowsWhereItIs | client/src/main/java/com/example/Position.java:20-43 | after any such run the player's stance is its start turned and moved by the reckoning of its executed commands |
| Pose.ShoveMovesAhead | server/srcs/game/game.c:838-847 | a push takes the pushed player, and nobody else, to the tile ahead of the pusher; it keeps its heading and is told |
| Pose.PlayerShownExactlyWhen | server/srcs/game/game.c:470-471 | a player last in its own tile's list is shown nobody; any other is shown a player on another tile exactly when somebody stands there, and on its own exactly when it is not first in the list either |
| Pose.LastSeesNobody | server/srcs/game/game.c:470-578 | so in the whole view of a player that is last in its tile's list |
| Driving.DrainFillsWindow | client/src/main/java/com/example/CommandManager.java:70-73 | the loop sends the longest part of the queue that fits the window, in order |
| Driving.DrainOfTheDead | client/src/main/java/com/example/CommandManager.java:185-189 | a dead client throws its queue away and sends nothing |
| Driving.NewbornIs | client/src/main/java/com/example/Player.java:28-36 | right after the welcome one look is sent and awaited, the AI goes by the first rule, and the player believes in ten units of life and an empty inventory |
| Driving.DecisionsAreBatches | client/src/main/java/com/example/AI.java:29-75 | the AI's decisions are never empty, only of commands with one answer, and have a look only as their last command |
| Driving.BatchesAreShort | client/src/main/java/com/example/AI.java:192-220 | on the view of its own level the client decides on at most four commands |
| Driving.LookThrowsExactlyWhen | client/src/main/java/com/example/World.java:31-44 | with a whole view, a look throws if and only if the view has more entries than the client's level has offsets or there is no rule for the AI's level |
| Driving.RaisedPlayerThrows | server/srcs/game/game.c:986-1017 | on the view the server makes, that is if and only if the server has the player above the client's level or the rules ran out |
| Driving.DeathResponse | client/src/main/java/com/example/Player.java:85-87 | a death notice counts as an answer, makes room for what was kept back, and changes nothing else |
| Flow.OpenedBalanced | client/src/main/java/com/example/CommandManager.java:104 | after the welcome one look around is on its way |
| Flow.RefusedExactlyWhen | server/srcs/time_api/time_api.c:120-123 | an arriving command is refused if and only if the buffer holds ten, and then more strays were handled than commands refused |
| Flow.StepBalanced | client/src/main/java/com/example/CommandManager.java:108-112 | every step, strays and exceptions included, keeps: awaited + strays handled = on its way + refused, awaited at most 10, refused at most the strays; every view in the channel has the size of the level that the level-ups before it tell; and while nothing is refused, sent = handled and on its way, in order |
| Flow.EveryRunBalanced | client/src/main/java/com/example/CommandManager.java:70-112 | so in every state of every run |
| Flow.NoCommandIsDropped | server/srcs/time_api/time_api.c:120-138 | from the welcome on that is the balance; before a stray is handled the buffer refuses no command, and the answers handled are those of the commands sent, in order |
| Flow.ArriveIsExecute | server/srcs/game/game.c:1345-1350 | the arrival step is what the server does to the buffer of the client it finds |
| Flow.RunIsQuiet | server/srcs/time_api/time_api.c:185-204 | a command with one answer leaves its buffer alone while it runs |
| Flow.SendOutcome | server/srcs/game/game.c:1309-1351 | only an unknown word of a connected client is an error; a known command is queued last, for the connected player, and on an empty buffer for the time it takes from now, an incantation for none; on a full one it is lost without a word |
| Flow.AnsweredOnce | server/srcs/game/game.c:497-1181 | running a command other than incantation and broadcast adds exactly one message, to its player, about that command: the view, the player's own inventory, the room left on the team, no for an item that is not there, and yes otherwise |
| Flow.OwnBroadcastAnsweredTwice | server/srcs/game/game.c:914-931 | a player's own broadcast sends it two: what it hears of itself, from direction 0, then the final answer |
| Flow.EveryClientHearsOnce | server/srcs/game/game.c:914-929 | there are as many messages as clients in the table, and each client's is at its place in table order, with its own direction and the text |
| Flow.LookIsAlone | client/src/main/java/com/example/Player.java:98-106 | before a stray is handled, a look that is answered is the only answer awaited |
| Flow.StepFlows | client/src/main/java/com/example/Player.java:98-106 | any step that handles no stray leaves one to four answers awaited, nothing kept back and a look only at the end of the line, unless a look is handled without a rule; then nothing is on its way |
| Flow.StalledForever | client/src/main/java/com/example/CommandManager.java:70-73 | from then on time passes and others talk, until a stray is handled |
| Flow.RunFlowsExactlyWhen | client/src/main/java/com/example/Player.java:160-164 | a run that handles no stray ends stalled if some look of it was handled without a rule, and flowing otherwise |
| Flow.StallsExactlyWhen | client/src/main/java/com/example/Player.java:160-164 | so from the welcome on, both ways; and while the AI has a rule, something is on its way |
| Flow.NeverStuck | client/src/main/java/com/example/CommandManager.java:70-73 | while anything is awaited there is a message to deliver, or a head event that is due once the clock reaches its stamp |
| Hearing.RaiseTells | server/srcs/game/game.c:1005-1014 | the walk of a resolution sends each player it raises one level-up, and nobody else any |
| Hearing.OthersTell | server/srcs/game/game.c:497-1525 | whatever the server does that is not a player's own command sends that player level-ups, one for each level it rises, and words its client does not know, and nothing else |
| Hearing.IncantationAnswers | server/srcs/game/game.c:986-1059 | a paid incantation is answered in progress when paid, and finally when resolved, after a level-up to each player raised |
| Promises.StepTells | server/srcs/game/game.c:986-1059 | a step says "in_progress" to a player exactly if it makes it pay, once, and gives a final answer exactly if it runs its second phase, once |
| Promises.PromiseHasSecondPhase | server/srcs/game/game.c:1048-1058 | "in_progress" is said to a player if and only if the step pays for it; then its second phase, with its level, is the head of its buffer |
| Promises.IncantationIsPaidOrRefused | server/srcs/game/game.c:938-1058 | at the top level, or with a peer or a stone missing, an incantation is answered "ko" and nothing else happens; otherwise the tile loses exactly the stones, the answer is "in_progress", and the second phase is the head of the buffer |
| Promises.PromisesAreKept | server/srcs/game/game.c:986-1059 | over every run with one login per socket, a player is told "in_progress" as often as it is given a final answer, but for at most one pending at the head |
| Silence.LookThrowsAfterLevelUp | client/src/main/java/com/example/World.java:31-44 | in any state of any run, a look throws if and only if a level-up was handled before it or no rule is left |
| Silence.SunkForever | client/src/main/java/com/example/Player.java:98-106 | a client that counts no answer awaited, keeps nothing back and has no look on its way that it could use sends nothing in any run from then on |
| Silence.SilentExactlyWhen | client/src/main/java/com/example/Player.java:98-106 | and conversely: with no message on its way, and below the top level, any other client sends something in some run |
| Silence.BlindSinksExactlyWhen | client/src/main/java/com/example/Player.java:98-164 | over every run of a client that took a level-up or has no rule: it is silent for good if and only if an exception came when it counted one answer, and else awaits something and something is on its way |
| Silence.FirstLevelUpBlinds | server/srcs/game/game.c:1008-1011 | the first level-up leaves the client awake, and every later look an exception |
| Silence.FirstForeignSinksExactlyWhen | client/src/main/java/com/example/Player.java:89-95 | the first word it does not know silences a client that has a rule if and only if it counts one answer and that is not a look's |
| Journeys.StallIsReachable | client/src/main/java/com/example/AI.java:54-71 | from the welcome, where there is plenty of everything and answered as the server answers, a run through all rules ends in the stall |
| Journeys.RaisedWandersBlindly | server/srcs/game/game.c:1008-1011 | raised once, right after the welcome, the client sends a move and a look as often as one likes, and sees nothing |
| Journeys.RaisedTwiceSinks | server/srcs/game/game.c:1008-1011 | raised twice it can fall silent with two commands on their way |
| Journeys.OneWordSilences | server/srcs/game/game.c:927 | one word of another player can silence it, with a rule left and a command on its way |
| Client.Player.Record | client/src/main/java/com/example/Player.java:111-206 | what each answer does to position, inventory, life and the AI's flag, refused ones included |
| Client.Player.FileView | client/src/main/java/com/example/World.java:30-49 | every cell of the map holds the last entry filed for it, also when the view is larger than the client's level |
| Client.Player.See | client/src/main/java/com/example/Player.java:145-165 | a look is filed in the map as far as the client's level has offsets, then decided on; a view larger than that is an exception before the decision |
| Client.Player.HandleResponse | client/src/main/java/com/example/Player.java:38-107 | for every kind of response, exceptions and death notices included: what is queued, the AI's state, life, inventory, food count, position and map |
| Client.CommandManager.SendQueued | client/src/main/java/com/example/CommandManager.java:70-73 | the loop in place does what the drain of the value does |
| Client.CommandManager.HandleWelcome | client/src/main/java/com/example/CommandManager.java:91-106 | one look around is sent |
| Client.CommandManager.HandleResponse | client/src/main/java/com/example/CommandManager.java:36-112 | one response handled in place brings the whole client to the value that the runs of the flow go through |
| Client.Connect | client/src/main/java/com/example/CommandManager.java:91-106 | a client that was welcomed is the one these runs start from |
| Session.LoginBegins | server/srcs/game/game.c:1255-1307 | a login on a socket of its own and the welcome begin a session: nothing in the inventory, the time started, the player where it was put |
| Session.StepHolds | client/src/main/java/com/example/Player.java:145-165 | every step of server, channels and client, level-ups and broadcasts of others included, keeps: reckoning = start moved by the commands whose answers were handled, and each message on its way was sent where the commands before it led, and says what the server had then: the view, the inventory, and yes to a prend or pose if and only if the item was there |
| Session.LooksAreFiledRight | client/src/main/java/com/example/World.java:30-49 | in any session from the welcome, under any interleaving of everyone else: when a look is handled, its answer is the view of a moment at which the player stood where the client now reckons it, and every entry the client's level has an offset for is filed under the cell of its tile |
| Session.SessionIsLinkRun | server/srcs/game/game.c:1255-1525 | every session is a run of the flow, with the answers and strays the server gives, so what is proved of every run holds of it |
| Session.SessionsFlow | client/src/main/java/com/example/Player.java:98-106 | in any session, before the client took a stray: while its AI has a rule something is on its way, and nothing is refused |
| Inventories.RespondStores | client/src/main/java/com/example/Player.java:167-206 | whatever a response leads to, exceptions included, the client's inventory becomes the stored one |
| Inventories.OtherKeeps | server/srcs/game/game.c:1353-1475 | nothing but a player's own commands touches its stones; its food goes behind its client's back only by being eaten or lost with the socket |
| Inventories.InventoryIsKnown | client/src/main/java/com/example/Player.java:167-206 | in any session from the welcome, with everything in the channel handled: the client counts each stone as often as the server has it, and of food that much more as was eaten or lost since the last inventory |
| ClientLife.ClientAssumesDefaults | client/src/main/java/com/example/CommandType.java:3-15 | the client's time units, its life at the start and the worth of food are the server's default configuration |
| ClientLife.LifeIsOverestimatedBy | client/src/main/java/com/example/Player.java:89-95 | with the default worth of food, in any session in which the socket is not lost, with everything in the channel handled: the client's life is the time the server leaves the player, plus the time that passed without being taken off, plus the worth of food put down |
| Pose.ContentsCount | server/srcs/game/game.c:470-493 | an entry names each resource of the tile once, however much of it there is |
| Handshake.PutAppendsOrLosesAll | server/srcs/server/ssl_al_workers.c:88-97 | below 1023 tasks a task joins the end; the 1024th leaves a ring that looks empty |
| Handshake.RemovedIsTail | server/srcs/server/ssl_al_workers.c:99-112 | taking gives the first task and leaves the others in order |
| Handshake.StepInOrder | server/srcs/server/ssl_al_workers.c:39-112 | every critical section of either thread keeps the order, while the ring it adds to has room |
| Handshake.RoomIsNeeded | server/srcs/server/ssl_al_workers.c:88-97 | it keeps the order if and only if that ring has room |
| Handshake.FullRingLosesAll | server/srcs/server/ssl_al_workers.c:88-97 | 1023 tasks queued from the start are all there, and one more leaves nothing to take |
| Handshake.EveryInterleavingDeliversInOrder | server/srcs/server/ssl_al_workers.c:39-137 | under every interleaving, delivered, second ring, hand and first ring are the accepted tasks without the failed ones, in order, and each task is in exactly one place |
| Handshake.Workers.WorkerQueue | server/srcs/server/ssl_al_workers.c:88-97 | the step of the main thread that queues, in place |
| Handshake.Workers.WorkerTake | server/srcs/server/ssl_al_workers.c:41-49 | the step of the worker that takes, or that waits while the ring looks empty |
| Handshake.Workers.WorkerFinish | server/srcs/server/ssl_al_workers.c:54-75 | the steps of the worker that fail or finish a handshake |
| Handshake.Workers.WorkerDequeue | server/srcs/server/ssl_al_workers.c:99-112 | the step of the main thread that takes back; 0 exactly when nothing is there |
| Handshake.Workers.WorkerDequeueAll | server/srcs/server/ssl_al_workers.c:114-137 | hands over everything waiting, in order, once each |
| SslTable.JoinedOnce | server/srcs/server/ssl_table.c:45-66 | chains of different buckets share nothing, so all chains together hold every entry once |
| SslTable.CastKeepsBucket | server/srcs/server/ssl_table.c:28-31 | the cast of a negative socket to an unsigned word keeps its bucket |
| SslTable.Table.Init | server/srcs/server/ssl_table.c:33-43 | an empty map |
| SslTable.Table.Find | server/srcs/server/ssl_table.c:78-85 | the walk finds the entry of a socket if and only if the map has it |
| SslTable.Table.Add | server/srcs/server/ssl_table.c:68-95 | inserts or overwrites one key; refused before init |
| SslTable.Table.Get | server/srcs/server/ssl_table.c:97-113 | agrees with the map; NULL for absent keys and before init |
| SslTable.Table.Remove | server/srcs/server/ssl_table.c:115-138 | deletes that key only |
| SslTable.Table.Relink | server/srcs/server/ssl_table.c:126-137 | bypasses one entry and leaves every other chain as it was |
| SslTable.Table.Free | server/srcs/server/ssl_table.c:45-66 | releases every entry of every chain, in order; the initialised flag stays set |
| FtList.List.AddLast | server/inc/ft_list.c:5-28 | appends, or refuses NULL |
| FtList.List.Pop | server/inc/ft_list.c:106-140 | deletes exactly the given member, moves the head when needed and clears its links |
| FtList.List.GetNext | server/inc/ft_list.c:60-81 | the member after it, NULL for the last |
| FtList.List.GetLast | server/inc/ft_list.c:203-225 | the walk ends at the last member |
| FtList.List.PopLast | server/inc/ft_list.c:147-150 | deletes the last member |
| FtList.List.GetSize | server/inc/ft_list.c:152-177 | the walk ends and counts the members |
| FtList.List.FindNode | server/inc/ft_list.c:227-257 | the index of a member, FAILURE for any other node, INVALID_ARGS for NULL or an empty list |
| FtList.CircleWithout | server/inc/ft_list.c:119-132 | the links past one member close the circle of the others |
| WebSocket.ValueOfBigEndian | server/srcs/server/ssl_al.c:246-248 | shifting in the bytes of a number gives the number |
| WebSocket.XorBit | server/srcs/server/ssl_al.c:293-294 | every bit of a masked byte is one exactly when one of the two bits is |
| WebSocket.XorOfUnmasks | server/srcs/server/ssl_al.c:293-294 | bytes that are, bit for bit, the exclusive or of a payload and the mask byte of each place modulo four are unmasked to that payload |
| WebSocket.MaskedTwice | server/srcs/server/ssl_al.c:293-294 | masking twice is not masking |
| WebSocket.HeaderStatesLength | server/srcs/server/ssl_al.c:322-342 | for every length of 64 bits the header is that of a final, unmasked text frame, and decodes by the reader's length path to the same length |
| WebSocket.HeaderIsShortest | server/srcs/server/ssl_al.c:311-317 | no header that states the same length is shorter (section 5.2 of RFC 6455) |
| WebSocket.WsSend | server/srcs/server/ssl_al.c:299-346 | the frame allocated is filled exactly, with header and payload |
| WebSocket.ReadsTheXor | server/srcs/server/ssl_al.c:152-297 | for any bytes that fit, any mask and any chunking of header and bytes, what is read is at every place, bit for bit, the exclusive or of the byte on the wire and the mask byte of its place modulo four |
| WebSocket.ReadsWhatWasSent | server/srcs/server/ssl_al.c:152-297 | so for every payload that fits and every mask (section 5.3 of RFC 6455) the payload is recovered, and nothing after the frame is touched |
| WebSocket.ReturnsLengthExactlyWhen | server/srcs/server/ssl_al.c:296 | the cast returns the length if and only if it is below 2 to the 31 |
| WebSocket.TooLongIsRefused | server/srcs/server/ssl_al.c:252-256 | a payload larger than the buffer is refused before its mask is read |
| WebSocket.OpcodeDecides | server/srcs/server/ssl_al.c:190-223 | a close is answered with 1000, any frame but text and ping with 1002; both return 0 and read nothing more |
| WebSocket.PingComesBack | server/srcs/server/ssl_al.c:197-217 | the bytes after the header of a ping, as many as it states, come back in a pong |
| WebSocket.MaskedPingIsMisread | server/srcs/server/ssl_al.c:197-217 | of a masked ping the mask is taken for the first of these bytes, and the last four bytes of the frame are left in the stream |
| WebSocket.LongPingIsNotRead | server/srcs/server/ssl_al.c:197-217 | a ping that states an extended length gets an empty pong, and nothing of it is read |
| WebSocket.HeaderCutShort | server/srcs/server/ssl_al.c:174-184 | a connection that ends within the header is an error |
| WebSocket.LengthInPieces | server/srcs/server/ssl_al.c:225-250 | an extended length that comes in two pieces is an error |
| WebSocket.MaskInPieces | server/srcs/server/ssl_al.c:258-264 | a mask that comes in two pieces ends the connection with 1002 |
| WebSocket.PayloadCutShort | server/srcs/server/ssl_al.c:266-291 | a payload that the connection does not bring to its end is an error |
| WebSocket.PingInPieces | server/srcs/server/ssl_al.c:200-209 | a ping whose bytes come in two pieces gets an empty pong, and the second piece is read as the next frame |
| WebSocket.Socket.FillFrom | server/srcs/server/ssl_al.c:174-184 | the read loop fills the buffer with the next bytes, whatever the pieces, or fails |
| WebSocket.Socket.Unmask | server/srcs/server/ssl_al.c:293-294 | takes the mask off in place, bit for bit as above, and leaves the rest of the buffer alone |
| WebSocket.Socket.Ping | server/srcs/server/ssl_al.c:197-217 | a pong with the bytes read, or an empty one |
| WebSocket.Socket.WsRead | server/srcs/server/ssl_al.c:152-297 | every branch: close, ping, other opcodes, lengths, mask, payload, errors, with what is sent and returned |

## Left out

- The expulse loop continues in the list of the destination tile and need not terminate when that tile is occupied; each of its moves is a step of its own (`Shove`), with any player pushed, and the command itself answers.
- GameServer.Server.RunEvent: the push of a second phase is written to the buffer after the callback has returned; `TimeApi.EventBuffer` has the same push made re-entrantly, into the slot being read.
- GameServer.Server.GamePlay: the server's own buffer, which holds the spawn event, is a step beside the pass over the clients; `SpawnFairness.RespawnGoesOn` runs both together, on values.
- GameServer.Server.ExecuteCommand: the client's buffer is held as a value in the client object; `TimeApi.EventBuffer` has its array.
- Incantations.EveryStartResolvesOnce: stated for one login per socket, which nothing in the code enforces; without it the promise is false (`SharedSocket.SharedSocketDangles`), and what the code does with released memory is undefined.
- Broadcast.SectorIsNearestAxis: the rounding of the floating-point angle is not modelled; sectors are exact over the reals.
- Flow.StepBalanced: for a client that sends only commands with one answer, as this one does; a death notice, which closes the session, is not in the channel.
- Silence.SilentExactlyWhen: messages already in the channel are handled first; at the top level nobody can raise the player any more, so that a client counting several answers may have no way left to send.
- Session.LooksAreFiledRight: for sessions in which nobody pushes the player, which the client's reckoning does not notice, and for the start headings of `Pose.ReckoningWorksExactlyWhen`.
- Flow.NeverStuck: that the server's clock reaches the head's stamp and that channels deliver is up to the environment.
- Client.Player.HandleResponse: JSON parsing, printing and unknown message types are not modelled, and the session is taken as open after a death notice.
- Handshake.Workers.WorkerDequeueAll: stated for a worker that adds nothing meanwhile; with one that does, each of its calls is a `Dequeue` step of the interleavings.
- SslTable.Table.Free: entries are counted as released, not taken off the heap; after it the table is not used.
- WebSocket.Socket.WsRead: reads of ping payloads, extended length and mask must come in one piece, as in the code; what the buffer holds after an error is not stated.
- WebSocket.WsSend: the result of the write is the TLS library's and is not modelled.
- The clock as an unsigned 64-bit counter that could wrap around, and 32-bit counts of items and food: integers are unbounded.
- Text arguments and levels printed into arguments are values of a datatype; the parsing of the level is the constructor.
- Observers, the map sent to them, the contents of the team rosters and the freeing of the whole server.
- The random counts drawn for spawning, whose loop ends only with probability one: any natural numbers.
- ft_list_get_first, add_first, get_prev and what uses them: on two or more members they do not do what their names say.
- Sockets, TLS, threads as such, memory failure, logging, configuration files, the WebSocket handshake.

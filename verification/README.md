# Verification of the Spectranet sources

Dafny models, with proofs, of four parts of this repository:

* **The Spectank game server and its clients** (`examples/ctfgame`). The server is a machine whose
  steps are client messages and 43 ms frames over a list of 48 objects and 16 client slots.
  `Game.dfy` gives every operation as a function of the state, `GameServer.dfy` has the server as
  a class over arrays whose loops are proved to compute those functions, and the invariant of
  `GameInvariant.dfy` is carried through each phase of a frame (`FrameInvariant.dfy`,
  `LeavingInvariant.dfy`, `RunInvariant.dfy`) to every state of every run (`Runs.dfy`);
  `Guarantees.dfy` says what that means: no flag is ever lost, every object's motion stays in
  bounds, every player has its one tank, every spawn point its one powerup. `LifeCycle.dfy`,
  `Lives.dfy`, `TankRuns.dfy`, `MissileRuns.dfy`, `SpawnerRuns.dfy` and `Scores.dfy` are about what
  happens over time: one life for each tank, a new tank within sixteen frames, shots at least eighteen frames
  apart, at most two missiles from one tank in the air, one new cooldown for each destroyed powerup,
  a match that ends in the very frame in which it is won. What each operation does is said in numbers,
  apart from how it is computed, in `Driving.dfy` and `DrivingRuns.dfy` (steering, motion, shots),
  `Impacts.dfy` (collisions, from a pair to a frame), `Captures.dfy` and `GoalRuns.dfy` (goals and flags),
  `Spawning.dfy` (how clients, tanks and powerups come in), `Clock.dfy` (start and end of a match) and
  `ViewportRequests.dfy`.
  `ClientSlots.dfy` has what the server holds for each client besides: address, message buffer and
  Player record, of which each is always in exactly one place.
  `Sprites.dfy`, `SpriteRuns.dfy`, `Viewports.dfy` and `ViewportRuns.dfy` say exactly when a client's
  sprite table agrees with the server's objects, given what the message buffer refuses and whose
  sends fail; `SpriteDelivery.dfy` takes the sprite messages through the bytes of the datagram,
  `DeliveryRuns.dfy` does so over whole runs of the server, and `Skirmish.dfy` has runs from
  start-up in which a table goes wrong in three ways. `Framing.dfy` has the
  packed message buffers and both decoders, `Ping.dfy` the ping timeout, `KeyRing.dfy` and
  `LineEditor.dfy` the keyboard input of the client's matchmaker.
* **The Z80 base 64 encoder** (`z88dk/libhttp/base64enc.c`, `asmsnippets/base64enc.asm`), register by
  register in `Base64Z80.dfy`, against section 4 of RFC 4648 in `Rfc4648.dfy`.
* **The HTTP response reader** (`z88dk/libhttp/readHeaders.c`, `readData.c`): `Http.dfy` as functions,
  `HttpReader.dfy` as the code that works on the header buffer in place, `HttpText.dfy`,
  `HttpChunks.dfy` and `HttpBody.dfy` for what it makes of a response, whatever pieces it arrives in.
* **Arithmetic and strings** under these: `Vectors.dfy`, `GameMap.dfy`, `MapRows.dfy`,
  `CStrings.dfy`, `Memory.dfy`.

`dafny verify dfyconfig.toml` checks everything.

## How the model reads the code

* An `Object` or `Player` record is a value in a slot of an array, and the pointer `playerobj` is a
  slot number; that the pointer never dangles is part of what is proved (`Guarantees.PlayersManned`).
* A flag byte is a record of the bits that the code looks at; a direction is a number from 0 to 15.
* `rand` is an arbitrary stream of numbers, the state of the network is an arbitrary set of clients
  to whom a send fails in a frame, and a datagram to the server carries one message.
* Clients are assumed to start once and on team 0 or 1, not to leave their team for none after that,
  to send controls only when they have a tank, and spectators not to start matchmaking
  (`Game.Allowed`).
* `addObject` drops an object when all 48 slots are taken. The model records the kind of what was
  dropped in `dropped`, which a reset clears. What is said about flags is said of states in which no
  flag has been dropped, about powerups, no powerup of that kind, about respawning, no tank.
* `Player` records are told apart by a number. Everything else that the server may queue for a client
  before and after the sprite messages of a frame is an arbitrary list of messages. START sends a
  player's buffer at once, and that send may fail too.
* The Z80's memory is an array of bytes, and its stack a list of words outside of it.
* A vanished tank has owner -1, for which `destroyPlayerObj` finds no player.
* `addVector` works in doubles; here a root is its integer part and a table index the nearest whole
  number, found by comparing squares.
* The identifiers in `protocol.txt` differ from those in `ctfmessage.h`; the code is followed.

## What turned out false

* A sprite table need not agree after a round of updates, because `addMessage` refuses what would pass
  256 bytes and `makeSpriteUpdates` does not look at its result. It agrees if and only if no refused
  message would have changed it (`SpriteRuns.ReceivedAgree`, over runs `SpriteRuns.RunAgrees`); on an
  empty screen, if and only if the sprites fit (`SpriteRuns.FullScreen`: 31 of the 48 objects at most). It
  fails in `Skirmish.CrowdedBuffer`, with the talk of `Skirmish.TalkFills` queued before.
* A sprite can stay when a send fails. What a player has been shown stays in the list if and only if
  it does not belong to a lost client (`SpriteRuns.CutOffExact`); it fails in `Skirmish.SpriteLeftBehind`.
* A sprite can stay when a viewport message arrives. What is shown stands for objects in view of the new
  viewport if and only if it already does (`SpriteRuns.ViewportExact`); it fails in
  `Skirmish.ViewportTooLate`, where a tank is back in its old screen before its client has answered the
  request to leave it.
* `SpriteRuns.RunBacked` and `RunAgrees` are about runs that keep to these conditions
  (`SpriteRuns.Orderly`); `SpriteRuns.FrameExact` says what that comes to for each kind of frame.
* Right does not always undo left: it does not after a number of frames that leaves 1 when divided by
  three (`Driving.TurnBack`).
* Two players can be given the same spawn point: `Spawning.SharedSpawn`.
* A time limit of 0 is none: the clock goes from 0 to -1, and only a clock at 1 ends a match
  (`Clock.FrameClock`).
* A chunked response whose first size line is cut in half fails: `HttpChunks.ChunkedOfText`, and
  `HttpChunks.CutSizeLine`.
* A viewport does not contain its position near the end of the 16-bit range: `Viewports.ScreenContains`.
* Unconverted padding makes the assembler listing's encoder differ from RFC 4648: `Base64Z80.OutIsRfc`.
* `readHeaders` takes an early close for success: `HttpText.ClosedEarly`, and `HttpText.TruncatedLine`. If
  nothing arrived, it even reports an earlier response's status: `HttpText.StaleStatus`, and
  `HttpText.EmptyAfterComplete`.
* `readData` can lose bytes it has copied: `HttpBody.LossExact`, and `HttpBody.LostBytes` and
  `HttpBody.LostToTimeout`. It copies a negative number of bytes when the content length is negative:
  `HttpBody.WildExact` and `HttpBody.WildResponse`, and `HttpBody.NegativeCopy`.
* A NUL in the part of the body that comes with the headers cuts that part short:
  `HttpText.UnreadIsBody`, and `HttpText.NulInBody`.
* The eighth key waiting makes the key ring look empty: `KeyRing.RingExact`, and `KeyRing.EightKeys`.
* Enter stores a byte past the line buffer when the field is 140 characters or longer and full:
  `LineEditor.SpillsExact` and `LineEditor.Editor.HandleKeys`, and `LineEditor.FullLineSpills`.

## Model

| member | source | states |
|---|---|---|
| `Runs.RunBoundary` | examples/ctfgame/server/object.c:330-408 | Every state of every run from a fresh game, under any allowed messages, frames, random numbers and failing sends, satisfies `Boundary`: objects sound and none destroyed, owners connected, players linked to their tanks, spawn points and powerups in step, numbers distinct, a flag for each team. |
| `Guarantees.FlagNeverLost` | examples/ctfgame/server/object.c:202-228 | In every state of every run each team has a whole flag on the map or on a live enemy tank of a connected player, through steals, captures, deaths, disconnects and resets, unless a flag itself has found no free slot since the last reset. |
| `Guarantees.ObjectsBehave` | examples/ctfgame/server/object.c:461-496 | In every state of every run no coordinate or speed is negative, a tank's commanded speed and push are at most 40 and its actual speed at most 84, ammunition is 0..20 and gun cooldown 0..18, a tank whose player is here has at least 1 hit point, every owner is a connected player, and nothing destroyed is left in the list. |
| `Guarantees.PlayersManned` | examples/ctfgame/server/object.c:283-318 | In every state of every run no connected player has died out, its `playerobj` is its own tank or that tank's wreckage in the list, and it owns no second one. |
| `Lives.LivesLast` | examples/ctfgame/server/object.c:1278-1291 | Over any stay of a player that starts it with lives: if they are counted it always has at least one left and they never rise, and otherwise they stay the same. |
| `Guarantees.PlayersNumbered` | examples/ctfgame/server/object.c:243-247 | In every state of every run `playerCount` is the number of connected players that are not spectators, and no two players of team 0 or of team 1 share a number. |
| `Guarantees.SpawnersExact` | examples/ctfgame/server/powerups.c:80-122 | In every state of every run a spawn point that cools down has no powerup on the map, and any other has exactly one that points back to it, or none if a powerup of its kind has found no free slot since the last reset. |
| `Runs.InitBoundary` | examples/ctfgame/server/object.c:104-119 | The state after start-up satisfies the invariant. |
| `Runs.StepBoundary` | examples/ctfgame/server/ctfsocket.c:142-256 | Every message, every removal and every frame keeps the invariant. |
| `Runs.FrameBoundary` | examples/ctfgame/server/object.c:330-408 | A whole frame (updates, viewports, clock, sends that may fail, cleaning, burying, reset) keeps the invariant. |
| `Runs.ResetFresh` | examples/ctfgame/server/object.c:952-981 | A reset is a fresh start: object list, score, clock and flags at home are as after start-up, exactly the spectators stay and nothing of theirs changes but the number, and every spawn point draws a new cooldown from 240 to 719, one draw each. |
| `Runs.ResetBoundary` | examples/ctfgame/server/object.c:952-981 | The state after a reset satisfies the boundary invariant. |
| `Runs.JoinInv` | examples/ctfgame/server/object.c:165-200 | A new player or spectator in a free slot keeps the invariant, after renumbering. |
| `Runs.TeamInv` | examples/ctfgame/server/matchmake.c:33-44 | A change of team, with or without a tank on the map, keeps the invariant, after renumbering. |
| `Runs.LeaveStep` | examples/ctfgame/server/object.c:202-249 | Removing a client keeps the invariant, flag carriers and spectators included. |
| `Spawning.JoinExact` | examples/ctfgame/server/object.c:165-200 | A client that joins has the first free slot, all the lives, no tank and no team, and a player is counted; the others change in nothing but their number. |
| `Spawning.TeamExact` | examples/ctfgame/server/matchmake.c:33-61 | The team asked for, the players of each team numbered in slot order, nothing else changed, and no effect for a fourth team. |
| `Spawning.StartExact` | examples/ctfgame/server/object.c:253-318 | A whole tank with 100 points and 10 rounds, at rest at the spawn point of its player's team and number, in the first free slot, linked to the player; the match is running, and nothing else changes. |
| `Spawning.SharedSpawn` | examples/ctfgame/server/map.c:255-267 | Two players never have the same spawn point if they are on one team, and on different teams exactly if the number of the one of team 0 is two higher. |
| `Spawning.CleanSlotExact` | examples/ctfgame/server/object.c:617-631 | Cleaning empties a slot exactly if its object is destroyed or has vanished, and gives the player of a destroyed tank a new one in the first slot free before that. |
| `GameInvariant.UpdateInv` | examples/ctfgame/server/object.c:416-439 | The first loop of a frame (timers, controls, shots, push, movement) keeps the invariant inside a frame and leaves what the destructors need. |
| `GameInvariant.FireInv` | examples/ctfgame/server/object.c:753-784 | A shot keeps the invariant, with a missile at most as fast as the tank's own speed allows. |
| `GameInvariant.SteerSane` | examples/ctfgame/server/control.c:34-66 | Any controls keep every object sound, a tank's commanded speed in 0..40 and its cooldown and ammunition in range; what they do is `Driving.TurnRate`, `Accelerates` and `Brakes`. |
| `Driving.ControlExact` | examples/ctfgame/server/ctfsocket.c:188-192 | A client's controls reach its own tank and nothing else. |
| `Driving.TurnRate` | examples/ctfgame/server/control.c:49-64 | While a turn is held the heading changes by a sixteenth in every third frame, counted from the wait that is left: down if left is held, whatever else is, and up if only right is. |
| `Driving.TurnLeft` | examples/ctfgame/server/control.c:49-55 | From no wait, n frames of left take the heading d to (d - ceil(n/3)) mod 16. |
| `Driving.TurnRight` | examples/ctfgame/server/control.c:57-64 | And n frames of right alone take it to (d + ceil(n/3)) mod 16. |
| `Driving.TurnBack` | examples/ctfgame/server/control.c:49-64 | As many frames of right after them bring it back, exactly unless n leaves 1 when divided by 3: then the last turn to the left is one too many. |
| `Driving.Accelerates` | examples/ctfgame/server/control.c:38-42 | After n frames of accelerating from v the commanded speed is min(40, v + 4n), also with the brake held. |
| `Driving.Brakes` | examples/ctfgame/server/control.c:43-47 | After n frames of the brake alone it is max(0, v - 4n). |
| `Driving.KeepsOn` | examples/ctfgame/server/control.c:34-67 | With neither it stays, and with no turn held so do the heading and the wait. |
| `Driving.WreckIgnores` | examples/ctfgame/server/control.c:35-36 | Wreckage keeps speed, heading and ammunition whatever its controls are. |
| `DrivingRuns.SteeredFrame` | examples/ctfgame/server/control.c:34-67 | In any frame that a tank survives its heading and wait become what its controls say, whatever it meets, and so does its commanded speed, unless it has hit a wall and stands. |
| `DrivingRuns.TurnsInRun` | examples/ctfgame/server/control.c:49-64 | The same turning rate over any run: while a player drives one tank and holds a turn, only the frames that have gone by count, not the messages or collisions between them. |
| `Driving.StepExact` | examples/ctfgame/server/object.c:461-482 | An object that is not pushed goes one step along the heading and speed that its controls left, stops at the upper and left edge, and its old place is kept. |
| `Driving.StaysPut` | examples/ctfgame/server/object.c:430-433 | At rest and not pushed it stays. |
| `Driving.PushedStep` | examples/ctfgame/server/object.c:453-482 | A pushed tank goes where the sum of heading and push takes it, and the push is one weaker. |
| `Driving.PushWearsOff` | examples/ctfgame/server/object.c:455-457 | A tank's push of p is max(0, p - n) after n frames. |
| `Driving.FudgeWearsOff` | examples/ctfgame/server/object.c:424-425 | And of the frames in which walls are ignored max(0, f - n) are left. |
| `Driving.MissileFlight` | examples/ctfgame/server/object.c:416-439 | Away from the edges a missile is n equal steps further after n frames, with n frames less to fly and to be blind for its owner. |
| `Driving.TimeUp` | examples/ctfgame/server/object.c:419-422 | An object's own update destroys it exactly if its time is up. |
| `Driving.ShotExact` | examples/ctfgame/server/object.c:753-784 | A tank shoots exactly if its trigger is held, its gun cold and a round left: a missile of its owner, from its place and along its new heading, 100 faster than it moved, with 20 frames to fly, in the first free slot or none; the tank has a round less and 17 frames to cool, and nothing else changes. |
| `GameInvariant.PlaceFlagInv` | examples/ctfgame/server/object.c:937-947 | Placing a flag keeps the invariant and drops it only if the list is full. |
| `FrameInvariant.SpawnTicksInv` | examples/ctfgame/server/powerups.c:80-105 | A round of spawn point ticks keeps spawn points and powerups in step. |
| `Spawning.PowerupArrives` | examples/ctfgame/server/powerups.c:80-105 | A spawn point at its last frame gets a powerup of its own kind, at its own place, in that round, or there is no slot for it. |
| `Spawning.RestartExact` | examples/ctfgame/server/powerups.c:71-76 | Destroying a powerup sets the spawn point it came from to the next random number modulo 720 and at least 240, and no other. |
| `FrameInvariant.MapInv` | examples/ctfgame/server/object.c:652-700 | The map and flag point pass, captures and the end of a match in it included, keeps the invariant, so that each team keeps a flag. |
| `FrameInvariant.CaptureInv` | examples/ctfgame/server/object.c:1064-1088 | A capture, whichever team it is by, keeps the invariant: each team still has a flag, and whoever carries one is a live enemy tank. Whose goal it is, is `Captures.SlotGoal`. |
| `Captures.SlotGoal` | examples/ctfgame/server/object.c:1064-1087 | In one slot of the map pass the score of a team rises by one exactly if the slot holds a carrier of that team less than 256 units from its own base both ways, the other score stays, and the match ends exactly if that is the winning goal of that team. |
| `Captures.SlotFlag` | examples/ctfgame/server/object.c:1064-1072 | And the other team's flag is put up at its base in the first free slot, the carrier has it no more, and no other slot changes. |
| `Captures.FrameGoals` | examples/ctfgame/server/object.c:652-700 | Over a whole frame each team's score rises by the number of its own carriers whose updates bring them home, and a match that no team has won yet ends exactly if one has the winning score by that. |
| `GoalRuns.GoalsInRun` | examples/ctfgame/server/object.c:1075-1087 | Over any run, while any one player stays: each score is what it was plus the homecomings of that team in the frames since. |
| `Captures.FlagTouchExact` | examples/ctfgame/server/object.c:1002-1043 | A flag that a tank of its team touches goes to its base, one that the other team's tank touches is destroyed and carried by it, and nothing happens to any other pair with a flag in it, or to any other object. |
| `Captures.WreckDropsFlag` | examples/ctfgame/server/object.c:1268-1298 | A wrecked carrier leaves the other team's flag where it stands, in the first free slot. |
| `Captures.LeaverDropsFlag` | examples/ctfgame/server/object.c:212-227 | So does every carrier when anybody leaves; the leaver's objects vanish and all others stay. |
| `Captures.FlagsAtBases` | examples/ctfgame/server/object.c:924-947 | A new match has two objects, each team's flag at its own base. |
| `FrameInvariant.FlagTouchedInv` | examples/ctfgame/server/object.c:1002-1043 | Touching a flag returns it home or marks it destroyed with a carrier; either way the team still has one. |
| `FrameInvariant.BumpSane` | examples/ctfgame/server/object.c:788-846 | Refilling, shoving and damaging two colliding objects keeps both sound and in their roles; by how much is `Impacts.PairExact` and `ReboundExact`. |
| `Impacts.PairExact` | examples/ctfgame/server/object.c:702-728 | Two objects, neither a flag, less than 256 units apart both ways and not blind to each other: each loses 45 if the other is a missile, after a tank has got up to 50 fuel (100 at most) or 10 rounds (20 at most) from a powerup; each is destroyed exactly if it was before, has no armour, or has less than 1 left; all else but the pushes, and all other objects, stay. Any other two stay as they are. |
| `Impacts.ReboundExact` | examples/ctfgame/server/object.c:788-811 | Tanks and missiles are pushed apart: the later one along the first one's movement relative to its own, less than an eighth of a turn off, 8 faster than that but 40 at most, and the first one just as fast the opposite way; if one is at rest, exactly along the movement of the first or back against that of the later one. |
| `Impacts.WallExact` | examples/ctfgame/server/object.c:662-687 | In a wall an object without armour is destroyed; another loses its speed and ten, but no more than the limit, and is destroyed exactly if less than 1 is left, or else stands, is pushed back with 16 and ignores walls for three frames. |
| `Impacts.PassExact` | examples/ctfgame/server/object.c:704-727 | The two loops let every object but the flags meet each other one once, in the order of their slots, at the places where the pass found them: what is left of it is that fold, whatever happens in between. |
| `Impacts.FrameWear` | examples/ctfgame/server/object.c:412-440 | The same for a whole frame, from what an object's own update and the walls have left of it. |
| `Impacts.FrameUnderFire` | examples/ctfgame/server/object.c:814-846 | A tank that touches n missiles and no fuel in a frame loses 45n and what a wall takes, and is wreckage with 15 frames to burn exactly if that is all it had. |
| `Impacts.FragileFrame` | examples/ctfgame/server/object.c:416-450 | A missile or powerup is destroyed by a frame exactly if its time is up, or it is in a wall, or touches anything that is not a flag. |
| `FrameInvariant.PairsInv` | examples/ctfgame/server/object.c:702-728 | All pairwise collisions of a frame keep the invariant. |
| `FrameInvariant.EndMatchInv` | examples/ctfgame/server/endgame.c:32-44 | Ending a match keeps the invariant. |
| `Clock.EndMatchExact` | examples/ctfgame/server/endgame.c:32-44 | Every player is neither playing nor ready nor dead after it, with nothing else changed; spectators stay as they are. |
| `Clock.FrameClock` | examples/ctfgame/server/object.c:359-407 | A frame ends the match exactly if it was over, a team has won it, its clock stood at 1, or it runs and nobody is left, and then score, clock and start are set back; otherwise it takes one off a limited match's clock and adds the goals of its updates. |
| `Clock.ClockInRun` | examples/ctfgame/server/object.c:359-375 | Over any run, while any one player stays, a running match goes on and its clock falls by one in each frame, so that it has fewer frames than were on the clock. |
| `LeavingInvariant.DestroyInv` | examples/ctfgame/server/object.c:1268-1298 | The destruction of one tank moves the invariant on by one slot: the team whose flag it carried has one, and its player, if still there, has lives left or is marked dead. |
| `LeavingInvariant.DestructInv` | examples/ctfgame/server/object.c:443-449 | Running the destructors turns 'marked destroyed' into 'gone' one slot at a time; until its turn a stolen flag has a carrier and a destroyed powerup its spawn point at zero. |
| `LeavingInvariant.ResetSpawnInv` | examples/ctfgame/server/powerups.c:119-122 | The destruction of one powerup moves the invariant on by one slot, and the spawn point it came from has a cooldown from 240 to 719. |
| `LeavingInvariant.VanishInv` | examples/ctfgame/server/object.c:202-228 | A leaving player's objects lose their owner and vanish, and a flag one of them carries goes back on the map first. |
| `LeavingInvariant.RemoveInv` | examples/ctfgame/server/ctfsocket.c:318-331 | Removing a client in the middle of a frame or between frames keeps the invariant. |
| `RunInvariant.SpawnInv` | examples/ctfgame/server/object.c:283-318 | A spawned tank is linked to its player and sound. |
| `RunInvariant.CleanInv` | examples/ctfgame/server/object.c:614-637 | Cleaning, respawning included, keeps the invariant and ends with nothing destroyed or vanished in the list. |
| `RunInvariant.SendInv` | examples/ctfgame/server/ctfsocket.c:351-365 | Removing the clients that cannot be sent to keeps the invariant. |
| `RunInvariant.BuryInv` | examples/ctfgame/server/object.c:379-386 | Removing the dead players keeps the invariant and leaves none dead. |
| `Matchmake.OrderedTeams` | examples/ctfgame/server/matchmake.c:47-61 | After `orderTeams` a player's number is the count of team mates in lower slots, numbers within a team are distinct, and nothing else about any player changes. |
| `Clock.StartableFrom` | examples/ctfgame/server/matchmake.c:81-101 | The loop says yes exactly if everybody connected is ready and on a team or a spectator, and they are as many as the minimum. |
| `Clock.MatchStopExact` | examples/ctfgame/server/matchmake.c:105-129 | Then, and only then, those at the matchmaking screen leave it, ready; nobody else changes. |
| `Clock.WordExact` | examples/ctfgame/server/ctfsocket.c:198-240 | A client's word that it has its map, what its viewport is, that it is at the matchmaking screen, or, on a team, that it is ready, is noted in its own record and changes nothing else. |
| `Tracking.UpdatesAt` | examples/ctfgame/server/object.c:412-450 | Through a frame's updates every object keeps its slot; if it moved, its previous position is the one it had when the frame began; a destroyed tank has become wreckage and all else is as the collisions left it. |
| `LifeCycle.FrameLives` | examples/ctfgame/server/object.c:1268-1298 | In one frame a player whose lives are counted loses exactly one if its tank was destroyed, however often it was hit, and otherwise none, and a player that is still there afterwards has not lost its last one. |
| `LifeCycle.CleanRespawn` | examples/ctfgame/server/object.c:614-637 | A player whose wreckage burnt out gets exactly one new tank, which is its `playerobj`. |
| `TankRuns.WreckFrame` | examples/ctfgame/server/object.c:416-422 | In one frame wreckage burns down by one or is replaced by a new tank. |
| `TankRuns.TankFrame` | examples/ctfgame/server/object.c:424-438 | In one frame a tank stays in its slot with its gun one frame cooler or just fired, or becomes wreckage with 15 frames to burn. |
| `TankRuns.RespawnWithinSixteen` | examples/ctfgame/server/object.c:614-637 | In any run in which no new tank finds the list full, a player that stays connected drives a new tank within 16 frames of its tank being wrecked. |
| `TankRuns.GunHot` | examples/ctfgame/server/object.c:753-784 | At any point of a run after a shot from a tank, the gun's remaining cooldown and the frames since then make at least 18. |
| `TankRuns.ShotsApart` | examples/ctfgame/server/object.c:753-784 | In any run two shots from one tank are at least 18 frames apart. |
| `MissileRuns.FrameMissiles` | examples/ctfgame/server/object.c:412-450 | Through a frame in which a player keeps its tank, each of its missiles was in the same slot with one more frame to fly, or is the one that the tank shot, in the slot that shot took. |
| `MissileRuns.ShotsSpread` | examples/ctfgame/server/object.c:753-784 | In every state of a run in which a player drives one tank, the missiles shot since are at least 17 frames apart in what is left of their flight, and none has more than three frames more than the gun's cooldown. |
| `MissileRuns.TwoMissiles` | examples/ctfgame/server/object.c:753-784 | So at most two of the missiles shot from one tank are in the air at any frame boundary. |
| `SpawnerRuns.SpawnerFrame` | examples/ctfgame/server/powerups.c:80-122 | In a frame without a reset a spawn point restarts exactly if its powerup is destroyed in it, from at most 1 to 240..719, and otherwise its cooldown falls by one down to zero; there are as many draws as destroyed powerups. |
| `SpawnerRuns.DestructSpawner` | examples/ctfgame/server/powerups.c:71-76 | The destructors from any slot on restart a spawn point exactly if a powerup of its own is destroyed there, leave the others alone, and draw once for each destroyed powerup. |
| `SpawnerRuns.SmashedOnce` | examples/ctfgame/server/powerups.c:119-122 | No two powerups destroyed in one frame belong to one spawn point. |
| `Scores.WonExactly` | examples/ctfgame/server/object.c:1064-1088 | The updates of a frame never take a goal away, leave clock and start of the match alone, and end it exactly if they bring some team from below the winning score to it or past it; which team, is `Captures.FrameGoals`. |
| `Scores.FrameScore` | examples/ctfgame/server/object.c:1075-1087 | After a frame the score is what its updates made it or nil, and nil, in a game that is not running, if a team reached the winning score. |
| `Guarantees.NobodyPastWinning` | examples/ctfgame/server/object.c:1083-1087 | In no state between the frames and messages of any run does a team have the winning score or more. |
| `Sprites.ObjectMsgsApplied` | examples/ctfgame/server/object.c:499-541 | A round of sprite messages sets the table entry of each slot to what the object's place before and after the frame and its fate say, and touches no other. |
| `Sprites.ObjectMsgsBytes` | examples/ctfgame/server/object.c:543-576 | Every message is about a slot of the list and a sprite's offsets lie within the viewport's size. |
| `Sprites.NewsExact` | examples/ctfgame/server/object.c:499-576 | The messages of a round are exactly its news: a sprite for each live object in view, at the offset of its pixel from the viewport's corner, and a removal for each that is gone from view or from the game. |
| `Sprites.SpriteTable.ManageSprite` | examples/ctfgame/client/sprites.c:174-197 | An unknown sprite is created, a known one kept; no other entry changes. |
| `Sprites.SpriteTable.RemoveSprite` | examples/ctfgame/client/sprites.c:270-278 | The entry is cleared if set; no other changes. |
| `Sprites.SpriteTable.RemoveAllSprites` | examples/ctfgame/client/sprites.c:254-268 | The table is empty. |
| `Sprites.SpriteTable.Receive` | examples/ctfgame/client/rxtx.c:160-177 | The messages of a datagram take effect in order. |
| `SpriteRuns.UpdatesAgree` | examples/ctfgame/server/object.c:499-541 | If every sprite shown stands for an object in view before a frame, then after its sprite updates the sprites are exactly the live objects in view, whatever moved out, died, vanished or took over a slot. |
| `Sprites.AllAdmitted` | examples/ctfgame/server/ctfsocket.c:446-462 | All messages of a list are accepted exactly if they fit the buffer together. |
| `Sprites.AdmittedSame` | examples/ctfgame/server/ctfsocket.c:446-462 | What gets through of a round of sprite messages leaves the same table as all of it would, exactly if no refused message would have changed the table. |
| `Sprites.SpritesAdmitted` | examples/ctfgame/server/ctfsocket.c:446-462 | Of a round of sprites the first get through, as many as eight goes into the bytes that are left. |
| `SpriteDelivery.UnpackPack` | examples/ctfgame/server/ctfsocket.c:446-462 | Packing a sprite, removal or viewport message and taking it apart again gives it back, for slots, offsets and positions that fit their fields. |
| `SpriteDelivery.AcceptedPack` | examples/ctfgame/server/ctfsocket.c:446-462 | Behind any queue, of the packed messages the buffer takes exactly those that are counted as admitted for the bytes in use. |
| `SpriteDelivery.DatagramReceived` | examples/ctfgame/client/rxtx.c:157-215 | From buffer to table, byte by byte: the client's loop over the datagram applies exactly the sprite messages that fitted behind what was queued before them, or none of them if that holds a message which ends the loop, whatever was queued behind them and whatever lies behind the datagram in the receive buffer. |
| `SpriteRuns.ReceivedAgree` | examples/ctfgame/server/object.c:499-541 | After a round of sprite updates, behind any number of bytes in use, the table shows exactly the live objects in view, if and only if no message that the buffer refused would have changed the table. |
| `SpriteRuns.ReceivedLive` | examples/ctfgame/server/object.c:523-540 | Every sprite shown stands for a live object in view, if and only if no removal of a sprite shown was refused. |
| `SpriteRuns.FullScreen` | examples/ctfgame/server/object.c:523-540 | On an empty screen a round of sprites agrees exactly if there are no more of them than eight goes into the bytes left: 31 in an otherwise empty buffer, and never all 48. |
| `SpriteRuns.RoomForAll` | examples/ctfgame/server/ctfsocket.c:446-462 | If the whole round fits the bytes that are left, nothing that matters is refused. |
| `SpriteRuns.CutOffExact` | examples/ctfgame/server/ctfsocket.c:351-365 | With any set of clients lost in a frame, everything a player has just been shown is still there after the clean-up, if and only if none of it belonged to a lost client. |
| `SpriteRuns.CutOffFrame` | examples/ctfgame/server/ctfsocket.c:351-365 | At the end of the frame a live object of a lost client is no longer in its slot, and any other live object is in its slot at its place. |
| `SpriteRuns.ViewportExact` | examples/ctfgame/server/ctfsocket.c:202-209 | After a viewport message the sprites on the client's screen stand for objects in its view, if and only if they all stand for objects in view of the new viewport. |
| `ViewportRequests.RequestsApart` | examples/ctfgame/server/object.c:506-520 | In any run a player that drives one tank is asked for a viewport at most once in five frames. |
| `SpriteRuns.FrameExact` | examples/ctfgame/server/object.c:499-541 | What a frame leaves on a screen is live and in view, if and only if: of a round of updates, no removal of a sprite shown is refused; of any other frame, a viewport request got through, or what was shown before is still live and in view. |
| `SpriteRuns.RunBacked` | examples/ctfgame/server/object.c:330-357 | In every state of an orderly run, frames with failing sends and viewport messages at any time included, each sprite on a player's screen stands for an object in its view. |
| `SpriteRuns.RunAgrees` | examples/ctfgame/server/object.c:499-541 | After every round of sprite updates of an orderly run the client's table is non-null at exactly the ids of live objects in its view, if and only if no refused message would have changed it. |
| `Skirmish.SkirmishRun` | examples/ctfgame/server/object.c:330-408 | Two players join, pick sides, spawn and are shown to each other, one drives into a wall and is thrown back: a run from start-up, which may be left at any stage for any other input. |
| `Skirmish.CrowdedBuffer` | examples/ctfgame/server/ctfsocket.c:446-454 | With both tanks in view the first player's table is right after a frame exactly if at most 239 bytes are in use before the two sprites. |
| `Skirmish.TalkFills` | examples/ctfgame/server/ctfsocket.c:446-462 | Five status lines and three scores all fit a buffer and leave no room for the two. |
| `Skirmish.SpriteLeftBehind` | examples/ctfgame/server/ctfsocket.c:351-365 | The second client is cut off in the frame in which the first is shown its tank: the table was right, the tank's slot is empty at the end of the frame, and the sprite is still shown. |
| `Skirmish.ViewportTooLate` | examples/ctfgame/server/object.c:506-520 | At the wall the first tank is out of its screen and the client is asked for a viewport; thrown back, it is in view and the client is shown both tanks; then the client's answer to the request arrives, and the sprite of the second tank stands for nothing in view. |
| `Viewports.ClientView.FindViewport` | examples/ctfgame/client/viewport.c:34-42 | The chosen viewport is the 224 by 184 screen that the position is on, with 16-bit corners. |
| `Viewports.ClientView.SwitchViewport` | examples/ctfgame/client/viewport.c:49-52 | The sprite table is emptied and the viewport chosen. |
| `Viewports.ScreenContains` | examples/ctfgame/client/viewport.c:34-42 | The chosen viewport contains the position exactly when the position is below 65408 by 65504, that is, unless a 16-bit corner wraps. |
| `ViewportRuns.ViewKept` | examples/ctfgame/server/ctfsocket.c:202-209 | In every run the server goes by the viewport that a client last sent, through frames, other messages and other clients' leaving. |
| `ViewportRuns.ViewportHolds` | examples/ctfgame/server/object.c:506-520 | From the choice of the viewport for a position below 65408 by 65504 until the client's next one, no frame at whose end its tank is in view asks it for another, and every sprite offset it is sent is in 0..224 by 0..184. |
| `Vectors.AddVectorSpeed` | examples/ctfgame/server/object.c:860-921 | The sum's speed is never negative and, for speeds up to 40, at most v1 + v2 + 4, the bound behind a tank's top speed of 84; its direction and exact speed are `AddVectorExact`. |
| `Vectors.AddVectorExact` | examples/ctfgame/server/object.c:860-921 | The sum with a vector at rest is the other one; if the displacements cancel out it is at rest; otherwise it points into the quadrant of the summed displacement and less than an eighth of a turn off it, and its speed is the whole part of its length. |
| `Driving.Compass` | examples/ctfgame/server/object.c:35-60 | Headings 0, 4, 8 and 12 are up, right, down and left on the map, at full speed. |
| `Driving.Rose` | examples/ctfgame/server/object.c:35-60 | Each row of the table is a sixteenth of a turn clockwise of the one before, within a degree and a half, 16 long within three per cent, and opposite to the row half a turn on. |
| `Vectors.TableEntry` | examples/ctfgame/server/object.c:893-921 | The arc-cosine tables are indexed from 0 to 7, for every displacement but (0, 0). |
| `Vectors.HeadingQuadrant` | examples/ctfgame/server/object.c:893-921 | The direction found lies in the quadrant of the displacement. |
| `Vectors.StepLength` | examples/ctfgame/server/object.c:35-60 | A step is at most two units longer than its speed, in every direction of the table. |
| `MapRows.BuildMapRow` | examples/ctfgame/server/map.c:92-139 | A row's tiles are exactly the printable characters before its end, in strictly increasing columns, with spawn digits repainted in the text and nothing else of it changed; each digit and flag letter moves its point to the last place where it stands in the row, every digit is counted, and powerups are added in order up to twenty. |
| `GameMap.DetectMapCollision` | examples/ctfgame/server/map.c:191-237 | The early break and the two edge tests find a collision exactly when some tile 'A'..'Z' of some row overlaps the object; flags never collide. |
| `GameMap.MapCollisionExact` | examples/ctfgame/server/map.c:191-237 | That is, exactly if some point of the object's square is in a tile's, where both ends of a tile count sideways and only the upper one downwards. |
| `GameServer.Server.AddObject` | examples/ctfgame/server/object.c:132-141 | Takes the first free slot, or records that the object was dropped. |
| `GameServer.Server.SpawnPlayer` | examples/ctfgame/server/object.c:283-318 | The loop for a free slot puts the tank into the first one and links the player to that slot; everything else stays as it was. |
| `GameServer.Server.OrderTeams` | examples/ctfgame/server/matchmake.c:47-61 | The loop with its counter array computes the numbering that `OrderedTeams` is about. |
| `GameServer.Server.RemoveClient` | examples/ctfgame/server/ctfsocket.c:318-331 | In place: the sweep over the objects, the three arrays' slots cleared together, the record in the register of the dead or freed, the others renumbered; game and slots are those of `ClientSlots.Remove`. |
| `GameServer.Server.SweepObjects` | examples/ctfgame/server/object.c:212-227 | The sweep puts down every carried flag at its carrier's place and turns exactly the leaver's objects into vanished ones without an owner, although the flags it places land in the list it is sweeping. |
| `GameServer.Server.EndMatch` | examples/ctfgame/server/endgame.c:32-44 | The loop sets the flags of every player who is not a spectator to those of somebody who is neither running nor ready, and leaves spectators alone. |
| `GameServer.Server.UpdatePowerSpawns` | examples/ctfgame/server/powerups.c:80-105 | The loop counts every spawn point's cooldown down once and puts out a powerup at exactly those that were at 1. |
| `GameServer.Server.CollisionDetect` | examples/ctfgame/server/object.c:652-728 | The two loops over the list compute in place the collisions that `Impacts.WallExact`, `PairExact` and `PassExact` are about, keeping the invariant that map coordinates are not negative. |
| `GameServer.Server.DoObjectUpdates` | examples/ctfgame/server/object.c:412-450 | Three loops in place, each over a list that the one before has changed, compute the updates that all of the frame lemmas are about. |
| `GameServer.Server.RunDestructors` | examples/ctfgame/server/object.c:443-449 | The loop runs the destructor of every object that is marked when its slot is reached, also of those that an earlier destructor has added. |
| `GameServer.Server.UpdateViews` | examples/ctfgame/server/object.c:337-357 | The loop clears the new-viewport flag and counts the wait between viewport requests, for running players only. |
| `GameServer.Server.MakeSpriteUpdates` | examples/ctfgame/server/object.c:499-541 | The messages in order, for every slot. |
| `GameServer.Server.SendClientMessages` | examples/ctfgame/server/ctfsocket.c:351-365 | Exactly the clients that cannot be sent to are removed. |
| `GameServer.Server.CleanObjects` | examples/ctfgame/server/object.c:614-637 | The loop empties the slots of what is destroyed or vanished and respawns the owners of destroyed player objects into slots that may lie on either side of it. |
| `GameServer.Server.BuryDead` | examples/ctfgame/server/object.c:376-386 | The loop removes the dead players, whose slots, buffers and records go with them. |
| `GameServer.Server.EvictPlayers` | examples/ctfgame/server/object.c:953-959 | The loop removes every player but the spectators. |
| `GameServer.Server.FreeDead` | examples/ctfgame/server/object.c:961-967 | The loop frees every record in the register of the dead once and empties it. |
| `GameServer.Server.Queue` | examples/ctfgame/server/ctfsocket.c:446-462 | Offering messages one after the other leaves a client's buffer with those accepted behind what was there. |
| `GameServer.Server.QueueSprites` | examples/ctfgame/server/object.c:330-357 | The loop queues for every client the sprite messages of the frame that its buffer has room for, and touches no buffer of an empty slot. |
| `GameServer.Server.MakeUpdates` | examples/ctfgame/server/object.c:330-408 | A frame computed in place, messages queued and sent, equals the frame of the runs above and of `ClientSlots`, and keeps both invariants. |
| `GameServer.Server.AddNewClient` | examples/ctfgame/server/ctfsocket.c:259-315 | The loop over `cliaddr` takes the first unset slot and fills its address, buffer, record and player, or changes nothing when all are set. |
| `GameServer.Server.IsGameStartable` | examples/ctfgame/server/matchmake.c:81-101 | Whether all are ready and on a team and there are enough of them. |
| `GameServer.Server.TryToStopMatchmaking` | examples/ctfgame/server/matchmake.c:105-129 | The players leave matchmaking, or nothing changes. |
| `GameServer.Server.MessageLoopTurn` | examples/ctfgame/server/ctfsocket.c:92-139 | Every turn is a step of the runs above and of the runs of `ClientSlots`, and keeps both invariants. |
| `GameServer.Server.constructor` | examples/ctfgame/server/object.c:104-119 | The state after start-up with every slot empty, which satisfies both invariants. |
| `ClientSlots.SlotsInStep` | examples/ctfgame/server/object.c:229-243 | In every state of every run `cliaddr`, `playerBuf` and `players` are set together or not at all in each slot, no buffer is over full, and every Player record ever made is in `players`, in the register of the dead, or freed, in one of the three and once. |
| `ClientSlots.TurnSync` | examples/ctfgame/server/ctfsocket.c:92-139 | Every turn of the message loop keeps that, and does to the game what the step of the game does. |
| `ClientSlots.GamesRun` | examples/ctfgame/server/ctfsocket.c:92-139 | The games of a run with clients' slots are a run of the game, so all that is proved of those holds of them. |
| `ClientSlots.VacateSync` | examples/ctfgame/server/ctfsocket.c:318-331 | Giving up a slot moves its record to exactly one other place: to the register of the dead if it is that of a player who runs or is dead and there is room, and else it is freed. |
| `ClientSlots.OccupySync` | examples/ctfgame/server/ctfsocket.c:263-285 | Taking a free slot sets all three and makes one new record. |
| `ClientSlots.StartAckPlace` | examples/ctfgame/server/object.c:266-270 | The two words of the message to a starting client are the pixel that its tank is at. |
| `ClientSlots.FrameReceived` | examples/ctfgame/server/object.c:330-357 | The datagram that a client is sent in a frame, whatever else was queued, taken apart by the client, applies to its sprite table the frame's sprite messages that its buffer had room for, or none if a message queued before them ends its loop. |
| `DeliveryRuns.ClientBacked` | examples/ctfgame/server/object.c:330-357 | In every state of a run that is orderly for a client, whose table comes from the datagrams it is sent, each of its sprites stands for an object in its view. |
| `DeliveryRuns.ClientAgrees` | examples/ctfgame/client/rxtx.c:157-215 | From the server's arrays to the client's table over whole runs: after the datagram of a round of updates the sprites are exactly the live objects in view, if and only if no sprite message that was refused, or that the client did not come to, would have changed the table. |
| `Framing.RoundTrip` | examples/ctfgame/server/ctfsocket.c:446-462 | For any messages offered between two sends a reader decodes exactly the accepted ones, in order, up to the first that ends its loop, and reads nothing behind them, whatever is in its buffer there. |
| `Framing.AcceptedFit` | examples/ctfgame/server/ctfsocket.c:446-462 | However many messages are offered, at most 255 bytes are used and the one-byte count does not wrap. |
| `Framing.AllListened` | examples/ctfgame/spectator/rxtx.c:153-230 | A reader that knows every message and is not told to leave hears them all. |
| `Framing.MessageBuffer.AddMessage` | examples/ctfgame/server/ctfsocket.c:446-462 | A message is accepted exactly when it fits, in its packed form behind the others; a refused one changes nothing. |
| `Framing.MessageBuffer.SendMessage` | examples/ctfgame/server/ctfsocket.c:368-390 | What goes out is the count and all queued messages; nothing goes out of an empty buffer and a failed send keeps the queue. |
| `Framing.ReadMessages` | examples/ctfgame/client/rxtx.c:157-215 | The loop over the receive buffer computes the decoding, with an overrun as an outcome. |
| `Ping.PingExact` | examples/ctfgame/server/ctfsocket.c:513-550 | Silent calls are 62 * rspmiss + frames, and a client is removed exactly when 311 flagged calls have gone by without a datagram from it. |
| `Ping.PingTimes` | examples/ctfgame/server/ctfsocket.c:537-545 | A ping goes out at every 62nd silent call, and the removal at the 311th. |
| `Ping.PingData.DoPing` | examples/ctfgame/server/ctfsocket.c:513-550 | The loop over the clients does to each what the client's own counters and flags say. |
| `Ping.PingData.Reset` | examples/ctfgame/server/ctfsocket.c:174-175 | One client's counters are cleared and no other's. |
| `Rfc4648.DecodeEncode` | z88dk/libhttp/base64enc.c:155-159 | A decoder for this alphabet recovers every input of the section 4 encoder. |
| `Base64Z80.Z80.Convert` | z88dk/libhttp/base64enc.c:114-124 | A becomes its letter; DE, HL and the stack are restored and the carry is clear. |
| `Base64Z80.Z80.FirstIndex` | z88dk/libhttp/base64enc.c:65-70 | A is the first index and C holds the two bits left over, with the carry clear. |
| `Base64Z80.Z80.SecondIndex` | z88dk/libhttp/base64enc.c:77-87 | From those bits and a clear carry, A is the second index and C the four bits left over. |
| `Base64Z80.Z80.ThirdIndex` | z88dk/libhttp/base64enc.c:93-100 | A is the third index. |
| `Base64Z80.Z80.PadTwo` | z88dk/libhttp/base64enc.c:127-140 | The last index and two pad characters for a group of one byte; DE and HL advance. |
| `Base64Z80.Z80.PadOne` | z88dk/libhttp/base64enc.c:142-153 | The last index and one pad character for a group of two bytes. |
| `Base64Z80.Z80.EncodeTriplet` | z88dk/libhttp/base64enc.c:63-111 | Memory changes in exactly the four output bytes, B falls by the bytes taken, HL and DE advance past them, the stack is restored. |
| `Base64Z80.Z80.EncodeShort` | z88dk/libhttp/base64enc.c:51-58 | For every count from 1 to 255, and 256 for a count of 0, memory changes in exactly the output of the whole input, HL advances by n and DE by 4 * ceil(n / 3). |
| `Base64Z80.Z80.EncodeLong` | asmsnippets/base64enc.asm:28-48 | The same for every 16-bit count, with BC pushed around the calls. |
| `Base64Z80.OutIsRfc` | asmsnippets/base64enc.asm:118-142 | The output is the RFC's exactly when the padding is converted or the length is divisible by three. |
| `Base64Z80.WrittenIsRfc` | z88dk/libhttp/base64enc.c:126-153 | What lies in memory is the RFC's encoding, which a decoder turns back into the input, exactly under that condition. |
| `HttpText.FragmentationIndependent` | z88dk/libhttp/readHeaders.c:35-73 | For a response without NULs and without chunks, whose headers end within 1399 bytes and all hold a ': ', every cut into non-empty pieces gives the same result, status, headers and content length, and every byte of the body is still there to read. |
| `HttpText.ReadHeadersOfText` | z88dk/libhttp/readHeaders.c:35-73 | The same for responses with NULs in the body, with what the buffer keeps stated exactly. |
| `HttpText.UnreadIsBody` | z88dk/libhttp/readHeaders.c:140-141 | What is left to read is the body exactly when no NUL of it was received with the headers. |
| `HttpText.NulInBody` | z88dk/libhttp/readHeaders.c:140-141 | An instance: of a body of three bytes with a NUL in the middle, received in one piece with its headers, not all can be read. |
| `HttpText.LinesOfText` | z88dk/libhttp/readHeaders.c:130-149 | Taking the lines apart in place finds the headers of the text and leaves everything behind them as it was. |
| `HttpText.BodyAfterSep` | z88dk/libhttp/readHeaders.c:104-122 | The lines end at the first empty line, where the receive loop looked for it. |
| `HttpText.HeadersTooLong` | z88dk/libhttp/readHeaders.c:111-115 | With no end of the headers in the first 1399 bytes the call fails with -13. |
| `HttpText.ClosedEarly` | z88dk/libhttp/readHeaders.c:92-99 | When the peer closes before the headers end the call nevertheless succeeds, exactly if what arrived holds a space, with the number behind it for a status and no body or headers; if nothing arrived, exactly if what the buffer still holds has one. |
| `HttpText.StaleStatus` | z88dk/libhttp/readHeaders.c:64-73 | After any call that found a status, a connection that closes at once gives success with that same status. |
| `HttpText.EmptyAfterComplete` | z88dk/libhttp/readHeaders.c:80-99 | An instance: a complete response with status 204, then a connection on which nothing arrives, and 204 again. |
| `HttpText.TruncatedLine` | z88dk/libhttp/readHeaders.c:94-99 | An instance: three characters of a status line, then the peer closes, and the call succeeds. |
| `HttpBody.OneCall` | z88dk/libhttp/readData.c:41-91 | One call hands out the next part of the body, no more than the content length and the buffer allow, and what it takes from the socket is what the content length still had coming from there and no longer has. |
| `HttpBody.BodyDelivered` | z88dk/libhttp/readData.c:41-91 | Over any run of calls that return positive counts the output is the prefix of the body by which the content length fell, and all of it when that is zero. |
| `HttpBody.SocketBound` | z88dk/libhttp/readData.c:64-80 | Over any run of calls, whatever they return, no byte beyond the content length is taken from the socket. |
| `HttpBody.WildExact` | z88dk/libhttp/readData.c:46-60 | A call copies a negative number of bytes exactly when the content length is below zero with bytes buffered. |
| `HttpBody.WildResponse` | z88dk/libhttp/readData.c:46-60 | The first call for a response does so exactly when its content length is below zero and some of its body came with the headers. |
| `HttpBody.NegativeCopy` | z88dk/libhttp/readData.c:46-60 | An instance: a content length of -1 and a body of one byte. |
| `HttpBody.LossExact` | z88dk/libhttp/readData.c:64-85 | A call loses the bytes that it copied exactly when it empties the header buffer short of the content length and then has no room left to receive into, or the receive brings nothing: an error, a timeout, or the end. |
| `HttpBody.LostBytes` | z88dk/libhttp/readData.c:64-85 | An instance: three of five bytes buffered, three asked for, 0 returned. |
| `HttpBody.LostToTimeout` | z88dk/libhttp/readData.c:82-84 | An instance: three of five bytes buffered, room for all, and a timeout; the error is returned, and the next call returns the last two. |
| `HttpBody.ResponseDelivered` | z88dk/libhttp/readData.c:41-91 | From socket to caller: pieces and buffer sizes make no difference to the bytes delivered. |
| `Http.DataLeftExact` | z88dk/libhttp/readHeaders.c:184-191 | The length is the number in the last Content-Length among the headers, or what it was if there is none. |
| `HttpChunks.ChunkedOfText` | z88dk/libhttp/readHeaders.c:47-72 | A chunked response, however cut: the call fails with -15 exactly if the line with the first chunk's size has not come in with the headers; otherwise its status is the text's, the length is that line read as a hexadecimal number, and what is left to read starts behind the line's end, exactly if no NUL of it came with the headers. |
| `HttpChunks.ChunkDelivered` | z88dk/libhttp/readData.c:41-91 | And any calls that return positive counts then deliver that chunk's bytes in order, all of them when the length has come to zero. |
| `HttpChunks.FiveBytes` | z88dk/libhttp/readHeaders.c:51-58 | An instance: the size 5, its line end and `hello` behind the headers, in one piece; `hello` is left to read. |
| `HttpChunks.CutSizeLine` | z88dk/libhttp/readHeaders.c:60-63 | An instance: the same cut behind the 5, and the call fails. |
| `HttpReader.Reader.GetSingleHeader` | z88dk/libhttp/readHeaders.c:156-207 | The whole effect on the buffer and the globals, and where the next header starts, in every case. |
| `HttpReader.Reader.FillBuffer` | z88dk/libhttp/readHeaders.c:92-116 | The receive loop, with every way it can end. |
| `HttpReader.Reader.GetHeaders` | z88dk/libhttp/readHeaders.c:75-154 | The whole effect and result. |
| `HttpReader.Reader.ReadHeaders` | z88dk/libhttp/readHeaders.c:35-73 | The whole effect and result in place, equal to the function whose results on texts are `HttpText.FragmentationIndependent` and, for chunked responses, `HttpChunks.ChunkedOfText`. |
| `HttpReader.Reader.ReadData` | z88dk/libhttp/readData.c:41-91 | The whole effect and result, and exactly which bytes of the caller's buffer change, with a copy of negative size as an outcome. |
| `HttpReader.Reader.Htrecv` | z88dk/libhttp/htrecv.c:31-46 | What one receive puts where. |
| `KeyRing.RingExact` | examples/ctfgame/client/mminput.c:234-260 | Under any interleaving of interrupts with the single steps of `checkKey`, keys come out in order and none is lost, exactly as long as there are never eight waiting. |
| `KeyRing.EightKeys` | examples/ctfgame/client/mminput.c:292-305 | An instance: eight keys pressed while `checkKey` stands still leave a ring that looks empty, and all are lost. |
| `KeyRing.Keyboard.Interrupt` | examples/ctfgame/client/mminput.c:292-305 | The ring after a key. |
| `KeyRing.Keyboard.CheckKey` | examples/ctfgame/client/mminput.c:234-247 | The oldest key, or none, as the steps of the runs. |
| `LineEditor.Editor.HandleKey` | examples/ctfgame/client/mminput.c:164-232 | The text, the debouncing and the completion after any key; the buffer holds the text with zeros behind it, until completion the cursor is at index mod width, index div width, and a byte is stored past the buffer exactly when Enter completes a text of 140 characters. |
| `LineEditor.Editor.HandleKeys` | examples/ctfgame/client/mminput.c:164-232 | The same after any keys whatever, and a byte has been stored past the buffer exactly if one of the keys did so. |
| `LineEditor.SpillsExact` | examples/ctfgame/client/mminput.c:193-203 | Keys store a byte past the buffer exactly if some Enter among them finds a text of 140 characters after an effective key. |
| `LineEditor.ShortFieldSafe` | examples/ctfgame/client/mminput.c:204-211 | In a field of less than 140 characters no keys do. |
| `LineEditor.FullLineSpills` | examples/ctfgame/client/mminput.c:193-203 | An instance: 140 printable keys and Enter in a field of 140. |
| `LineEditor.Editor.constructor` | examples/ctfgame/client/mminput.c:69-92 | An empty line with the cursor at the start, for any width and length. |
| `LineEditor.ReadyExact` | examples/ctfgame/client/mminput.c:193-203 | A line is complete exactly when an Enter has come after some effective key. |
| `LineEditor.PrintableKeys` | examples/ctfgame/client/mminput.c:204-230 | Printable keys leave the first of them, as many as fit. |
| `LineEditor.DeleteUndoes` | examples/ctfgame/client/mminput.c:171-180 | Delete undoes a typed key. |
| `LineEditor.TypedFits` | examples/ctfgame/client/mminput.c:208-211 | The text never outgrows the field. |

## Left out

- "Exactly one flag for each team" is not claimed, because the code can duplicate a flag: two enemies may
  touch it in one frame, and any player's leaving puts down a flag for a carrier it does not own.
- MissileRuns.TwoMissiles: for one tank, not one player: wreckage that is hit again is replaced early, and the
  new tank may shoot while its predecessor's missiles are still flying.
- Goals, kills, points, colours, `flagTaken` and `flagloc` with the flag indicators they drive, the texts
  of status messages and scoreboards, and what spectators are sent: the model has the team scores that
  end a match and no others.
- GameServer.Server.SpawnPlayer: with a full list the code links the player to a tank that is in no slot;
  the model leaves the player without one.
- MapRows.BuildMapRow: the cooldown that each registered powerup draws; map commands and the loop that loads the
  rows of a file are not modelled.
- That nothing is sent to a client whose buffer is empty: the set of failing sends is arbitrary, so the model
  has runs in which such a client is removed too.
- The other datagrams that reach a player's client, such as the one that START sends and the map: they hold
  no sprite messages.
- GameServer.Server.MakeSpriteUpdates: the 16-bit sprite messages for spectators.
- Sockets, `select`, timing, name lookup, drawing, sound and the score file.
- Allocation: `malloc` succeeds, and `free` is forgetting a record. The records of a list share nothing,
  so aliasing between them is not captured.
- `sendMapMsg` and the map messages: they take a datagram of their own, which ends both decoders' loops.
- Datagrams with more than one message: each message of one is a step of its own.
- Reading past the receive buffer, and strings that run past the header buffer, end in `Overrun` or at
  the buffer's end; a status line's NUL that would lie past the header buffer is not stored.
- `base64enc.c` for more than 255 bytes: it jumps back to instructions that pop its return address.
- Base64Z80.Z80.EncodeShort: input, output and table lie below the top of memory and apart.
- HttpText.FragmentationIndependent: not for chunked responses, which `HttpChunks` is about; the code reads no chunk
  after the first.
- HttpText.LinesOfText: for header lines that all hold a ": "; a line without one is taken apart at a later
  line's separator, which `Http.SingleHeader` models and no theorem is about.
- HttpReader.Reader.ReadData: a copy of negative size is an outcome, behind which nothing is modelled.
- The linked list of headers, whose tail is never set, is the sequence of headers visited.
- LineEditor.Editor.HandleKey: cursor coordinates do not wrap, and the byte stored past the buffer is
  recorded, not stored.
- Ping.PingData.DoPing: the queued ping message and the notice of removal are left out.
- The matchmaker's own receive loop (`mmsocket.c`), which does not skip a ping's payload.
- The programs under `experiments`, `tester` and `libspdos`, and the hardware.

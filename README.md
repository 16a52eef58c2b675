# Turn engine of BrackeysJam2020 in Dafny

This project models the turn engine of the time-loop puzzle game
Wills-M/BrackeysJam2020, a Unity game in C#. It covers the current revision
under `Assets/Scripts/Actions`, `Actors`, `Objects` and `Utilities`, and proves
properties of the model.

In the game, a player moves on a tile grid. Each resolved task is recorded in
the player's `actionQueue`. When the player ends the round with Space, the
`PhaseManager` does three things:

- it spawns a ghost that carries a copy of that record, re-pointed to the ghost;
- it rewinds every actor to its starting tile;
- it rewinds every stone, except time cubes.

On later turns, every ghost replays one recorded task per turn, in the order
the player recorded them.

## Modules

| file | module | what it models |
|---|---|---|
| `wrappers.dfy` | `Wrappers` | `Option`, for null references |
| `grid.dfy` | `Grid` | integer tiles `Vec2`, positions `Vec3`, the four steps, and the occupancy query `Occupancy = Vec2 -> bool` |
| `movement.dfy` | `Movement` | the movement resolver `MoveTask.TryMove` |
| `levers.dfy` | `Levers` | `Lever` and the scene objects it switches |
| `actors.dfy` | `Actors` | the task datatype (`MoveTask`, `WaitTask`, `FlipLeverTask`), `CanPerform`, `Execute`, and class `Actor` |
| `player.dfy` | `Players` | class `Player` |
| `ghost.dfy` | `Ghosts` | class `Ghost` |
| `stone.dfy` | `Stones` | class `Stone` |
| `phase_manager.dfy` | `Phases` | class `PhaseManager` |

### Movement resolver

The resolver is stated twice:

- as the function `Destination`, which every other part of the model uses;
- as the probing loop `TryMove` that the source runs, proved equal to `Destination`.

The lemmas relate `Destination` to an independent reference definition of a
landing (`LandsAt`). They prove two defects of the source, both modelled as
written:

- a drop of exactly 50 rows is rejected;
- a legitimate destination of (0,0) reads as a rejection.

### Tasks

Tasks are values. Re-pointing a task to the ghost is `t.(actor := g)`.

### Actors

`Player`, `Ghost` and `Stone` are classes that each hold their `Actor`. The
subclass dispatch of the source (`Actor.Resolve`, `Actor.Reset`) becomes a
call from the subclass's own method.

### The world

The occupancy every probe reads is computed by
`PhaseManager.Occupied`. A tile is occupied when any of these stands on it:

- a fixed collider (`scenery`);
- the body of the player, a ghost or a stone;
- an active object switched by a lever.

The physics queries for the goal layer and for the lever under the player are
parameters, `goalAt` and `interactableAt`.

### Errors

The source hits two exceptions: a null task reached by `Actor.Resolve`, and
`Dequeue` on an empty ghost queue. Unity logs such an exception and the game
goes on. Here each is a `Status` value (`NullTask`, `EmptyQueue`).

### One atomic step

One turn, and the round reset that may follow it, is one step of the model.
After resolution, `PhaseManager.ResolvePhase` sets `player.waitingForInput` to
true unconditionally. This overrides the goal branch of `Player.Resolve`, so
the model reports reaching the goal as a boolean and nothing else.

### What the code has and does not have

- None of the scripts shown calls `Stone.TryPush`: a mover never pushes a stone, and a stone moves only through a push it already holds.
- There are no ladders, no `Interact` task and no death of an actor. The only interaction is flipping a lever.
- `CanPerform` recomputes the destination, and `Execute` recomputes it again and writes it unchecked.
- A fall past the limit is only a rejection.
- A rejection is reported as the tile (0,0), so a legitimate destination of (0,0) reads as a rejection (`Movement.SentinelCollision`).

## Model

| member | source | states |
|---|---|---|
| Movement.TryMove | Assets/Scripts/Actions/MoveTask.cs:28-72 | The probing loop, with its bounded fall counter, returns exactly `Destination` for every world, position and direction. |
| Movement.DestinationSpec | Assets/Scripts/Actions/MoveTask.cs:28-72 | Cases: free target with a landing k rows down gives that tile; free target with nothing within the 50 probes gives (0,0); occupied target with a free tile above gives the step-up tile; otherwise (0,0). |
| Movement.FreeTargetFalls | Assets/Scripts/Actions/MoveTask.cs:35-57 | From a free target, the result either is a landing tile (every tile passed is free, the tile beneath is occupied, fewer than 50 rows down) or is (0,0) after every probe found nothing. |
| Movement.FallSpec | Assets/Scripts/Actions/MoveTask.cs:35-57 | The fall search ends exactly on the reference landing tile when there is one, and in (0,0) when all 50 probed tiles are free. |
| Movement.FallFrom | Assets/Scripts/Actions/MoveTask.cs:39-52 | Resumed after c free rows, the search ends on the reference landing tile (at least c rows down) or, when every probed tile is free, in the rejection value. |
| Movement.LandingIsUnique | Assets/Scripts/Actions/MoveTask.cs:39-45 | The landing depth, when there is one, is unique. |
| Movement.FallOutcomes | Assets/Scripts/Actions/MoveTask.cs:39-52 | Exactly one of the two fall outcomes holds: the budget runs out if and only if there is no landing tile. |
| Movement.FallLimitBoundary | Assets/Scripts/Actions/MoveTask.cs:48-52 | Ground found by the 50th probe (a drop of 49 rows) is accepted. A drop of exactly 50 rows, whose last probe found ground, is rejected: the off-by-one. |
| Movement.AcceptedIff | Assets/Scripts/Actions/MoveTask.cs:20-23 | The result differs from (0,0) if and only if the move is accepted by the reference definition (landing or step-up onto a tile other than (0,0)). |
| Movement.SentinelCollision | Assets/Scripts/Actions/MoveTask.cs:20-23 | A legitimate landing or step-up onto (0,0) yields the rejection value, so `CanPerform` reports false for it. |
| Movement.SentinelCollisionExample | Assets/Scripts/Actions/MoveTask.cs:20-23 | A concrete world where stepping left from (1,0) lands legitimately on (0,0) and is rejected. |
| Actors.CanPerform | Assets/Scripts/Actions/MoveTask.cs:20-23 | A move task can be performed exactly when the resolver accepts it from its actor's tile. A wait task (WaitTask.cs:14-17) and a lever task (FlipLeverTask.cs:15-19) can always be performed, whatever their actor. |
| Actors.Execute | Assets/Scripts/Actions/MoveTask.cs:15-18 | A move recomputes the resolver's destination from the actor's tile and writes it unchecked: the actor lands there with z = 0, a move `CanPerform` would reject puts it on (0,0), and nothing else of the actor changes. A wait (WaitTask.cs:19-25) is running while suspended and not running once done, and changes nothing else. A lever task (FlipLeverTask.cs:21-24) flips its lever exactly once. |
| Actors.Move | Assets/Scripts/Actions/MoveTask.cs:74-77 | Only the actor's position changes; it becomes the given tile with z = 0. |
| Actors.NewWaitTask | Assets/Scripts/Actions/WaitTask.cs:9-12 | The delay defaults to 0; the new task has no actor and is not running. |
| Actors.NewFlipLeverTask | Assets/Scripts/Actions/FlipLeverTask.cs:9-13 | The new task holds exactly the given actor and lever. |
| Actors.EffectIgnoresActor | Assets/Scripts/Actions/FlipLeverTask.cs:21-24 | Re-pointing a lever (or wait) task to any actor leaves its footprint and effect unchanged: a ghost flips the same lever. |
| Actors.ExecuteFlipTwice | Assets/Scripts/Actions/FlipLeverTask.cs:21-24 | Executing the same lever task twice restores the lever's state and every switched object's activity. |
| Actors.Actor.IsPerformingTask | Assets/Scripts/Actors/Actor.cs:18-25 | False when the actor holds no task; otherwise exactly the held task's `isExecuting` flag. `Actor.Resolve`, `Ghost.Resolve`, `Stone.Resolve` and `Player.Update` act only when it is false. |
| Actors.Actor.IsResetting | Assets/Scripts/Actors/Actor.cs:26 | Exactly whether a reset is running (`resetting` stands for `resetCoroutine != null`): `BeginReset` makes it true and `FinishReset` false. |
| Actors.Actor.Start | Assets/Scripts/Actors/Actor.cs:67-74 | Actions become enabled; every actor but a ghost records its position as its starting position. |
| Actors.Actor.BeginReset | Assets/Scripts/Actors/Actor.cs:79-86 | Actions are enabled, a character's sprite faces right (flipX false), and the actor reports that it is resetting. |
| Actors.Actor.FinishReset | Assets/Scripts/Actors/Actor.cs:88-96 | The actor stands exactly on its starting position and no longer reports resetting. |
| Actors.Actor.Resolve | Assets/Scripts/Actors/Actor.cs:102-113 | The task is executed only when actions are enabled and no task is running, and then its effect happens; otherwise its footprint is unchanged; a missing task is the null error; only the position can change, and only through the actor's own move. |
| Actors.Actor.DropIfFalling | Assets/Scripts/Actors/Actor.cs:119-136 | A floating actor moves to the tile of a downward move exactly when that move can be performed; otherwise it stays; the task field and all other state are as before. |
| Players.NextCachedInput | Assets/Scripts/Actors/Player.cs:128-172 | Space overrides; otherwise the first pressed key of W, A, S, D, E wins; with none pressed the cached key stays. |
| Players.Player.CacheInput | Assets/Scripts/Actors/Player.cs:128-172 | The cached key becomes `NextCachedInput` of the old one and the frame's keys. |
| Players.PerformableFromActor | Assets/Scripts/Actions/MoveTask.cs:20-23 | The heap-free check a frame of input uses, taken from where the task's actor stands, is exactly `CanPerform`. |
| Players.Player.Offer | Assets/Scripts/Actors/Player.cs:39-48 | A proposed task is adopted, and the wait ends, exactly when it can be performed; otherwise task and wait are unchanged. |
| Players.Player.Update | Assets/Scripts/Actors/Player.cs:22-95 | The cached key is updated from the frame's keys. Input is acted on only while waiting and idle, and then the cached key is consumed. Space disables actions and ends the wait with no task. W/A/S/D propose the up/left/down/right move and E a flip of the lever on the player's tile; the proposal is adopted, and the wait ends, exactly when it exists and can be performed. The wait ends in no other case, and nothing else of the player changes (`InputStep`). |
| Players.Player.Respond | Assets/Scripts/Actors/Player.cs:38-92 | For a key other than Space, the cached key is consumed; the key's proposal is adopted, and the wait ends, exactly when it exists and can be performed; otherwise task and wait are unchanged. |
| Players.Player.Reset | Assets/Scripts/Actors/Player.cs:97-104 | The actor is rewound (enabled, facing right, on its starting tile, not resetting) and its record is emptied. |
| Players.Player.Resolve | Assets/Scripts/Actors/Player.cs:106-126 | With actions enabled, the task is resolved and appended to the end of the record; the player waits again unless it stands on a goal tile. With actions disabled nothing changes. |
| Players.Player.constructor | Assets/Scripts/Actors/Player.cs:7-12 | A player starts waiting for input with no cached key. |
| Ghosts.Ghost.constructor | Assets/Scripts/Actors/Ghost.cs:7-10 | A ghost starts with nothing left to replay. |
| Ghosts.Ghost.InitializeActions | Assets/Scripts/Actors/Ghost.cs:38-43 | The record becomes the given tasks in the same order; as a value, later changes to the source queue cannot reach it. |
| Ghosts.Ghost.Reset | Assets/Scripts/Actors/Ghost.cs:12-18 | The actor is rewound; the tasks to replay are refilled from the record, which is unchanged. |
| Ghosts.Ghost.Resolve | Assets/Scripts/Actors/Ghost.cs:20-36 | Acts only when enabled and idle. It dequeues exactly the front task, executes it only if it can be performed (consumed either way), and disables the ghost exactly when nothing remains. When it does not act, its script, its actor and the front task's footprint are unchanged. Acting on an empty queue is the empty-queue error. |
| Stones.Stone.constructor | Assets/Scripts/Objects/Stone.cs:7-11 | A stone keeps its actor and whether it rewinds (`resetPosition`, false for a time cube). |
| Stones.Stone.TryPush | Assets/Scripts/Objects/Stone.cs:13-20 | Returns exactly whether a move in the direction is accepted. The stone then holds that move task, or no task after a failure. |
| Stones.Stone.Reset | Assets/Scripts/Objects/Stone.cs:22-28 | A stone is rewound to its starting tile; a time cube keeps its state and never reports resetting. |
| Stones.Stone.Resolve | Assets/Scripts/Objects/Stone.cs:30-41 | A pending task that is not running is executed once and cleared, so a push never repeats; with no task, or one running, nothing changes. |
| Levers.Lever.UpdateSprite | Assets/Scripts/Objects/Lever.cs:30-36 | The sprite is `onSprite` exactly when the lever is on. |
| Levers.Lever.Start | Assets/Scripts/Objects/Lever.cs:25-28 | After start the sprite shows the lever's state. |
| Levers.Lever.Flip | Assets/Scripts/Objects/Lever.cs:38-46 | `on` is negated and the sprite shows it. Each listed object's activity is toggled once per listing. Only `on`, the sprite and the listed objects may change; the list is a constant. |
| Levers.FlipTwice | Assets/Scripts/Objects/Lever.cs:38-46 | Flipping twice restores `on` and every listed object's activity. |
| Levers.Toggled | Assets/Scripts/Objects/Lever.cs:38-46 | On a switchboard (the levers' states and the objects' activity), one flip negates the lever and toggles each listed object once per listing; every other lever and object keeps its value, and the board covers the same levers and objects. |
| Levers.ToggledAllAppend | Assets/Scripts/Objects/Lever.cs:38-46 | Flipping one run of levers and then another is flipping their concatenation. |
| Levers.ToggledTwice | Assets/Scripts/Objects/Lever.cs:38-46 | Two flips of the same lever restore the switchboard. |
| Phases.PhaseManager.constructor | Assets/Scripts/Utilities/PhaseManager.cs:19-24 | The actor list starts as the player alone, and the level invariant holds. |
| Phases.PhaseManager.TurnPhase | Assets/Scripts/Utilities/PhaseManager.cs:36-43 | Frames are handled one at a time while the player waits, each as one `InputStep` against the world as the turn found it (`Waited`). The turn is resolved exactly when the player stopped waiting, and frames run out before that only if it never stops. Without resolution the player is as the last frame left it, and the ghosts, the stones, the levers and the switched objects are exactly as they were (`Views`, `StoneStates`, `Board`); no ghost is added. With it, the round is reset exactly when the player could no longer act, the goal is reached exactly when the player resolved a task and stands on a goal tile, and the switchboard ends with the player's lever flip, if any, and then each ghost's flip in spawn order applied (`ToggledAll`). The player waits for input afterwards. |
| Phases.PhaseManager.AwaitInput | Assets/Scripts/Utilities/PhaseManager.cs:38-41 | While the player waits and frames remain, each frame is one `InputStep` against the unchanged world; frames are left over only once the player stopped waiting. |
| Phases.WaitedExtend | Assets/Scripts/Utilities/PhaseManager.cs:38-41 | A frame handled while the player still waits extends the run of input steps by that step. |
| Phases.PhaseManager.OthersStill | Assets/Scripts/Utilities/PhaseManager.cs:38-41 | A step that changes only the player leaves the ghosts' views, the stones' states and the switchboard as they were. |
| Phases.PhaseManager.BodiesStill | Assets/Scripts/Utilities/PhaseManager.cs:51-58 | A step that changes neither ghosts nor stones leaves their views, states and tiles as they were. |
| Phases.PhaseManager.WorldKept | Assets/Scripts/Utilities/PhaseManager.cs:38-41 | A step that moves no body and switches no object leaves the occupancy of the world unchanged. |
| Phases.PhaseManager.ResolvePhase | Assets/Scripts/Utilities/PhaseManager.cs:48-81 | The round is reset exactly when the player can no longer act, and then exactly one ghost is appended after the existing ones, holding the player's record re-pointed to it, and the player is rewound with an empty record. Otherwise the player's task is appended to its record and a move lands on the resolver's destination in the world as the turn found it. The switchboard ends with the player's flip and then the ghosts' flips applied in order; the reset does not touch it. The goal is reached exactly when the player resolved a task and stands on a goal tile. The player waits for input afterwards. The invariant is kept. |
| Phases.PhaseManager.ResolveTurn | Assets/Scripts/Utilities/PhaseManager.cs:50-68 | With actions enabled and a task, the player's task is appended to its record and a move lands on the resolver's destination in the world as the turn found it; otherwise it stays. The goal is reached exactly when the player resolved a task and stands on a goal tile, and the player waits again unless it did. Later actors do not change the player. Then the ghosts replay in spawn order (`ReplayedInOrder`) and the stones push in list order (`PushedInOrder`), each against exactly the world the bodies and flips before it left; every stone's push is consumed. The switchboard ends with the player's flip and then the ghosts' flips applied in order. |
| Phases.PhaseManager.HandleFrame | Assets/Scripts/Utilities/PhaseManager.cs:36-43 | One frame of the wait is the player's `InputStep` against the current world, which the frame leaves unchanged; the invariant is kept. |
| Phases.PhaseManager.Listen | Assets/Scripts/Actors/Player.cs:22-95 | The player's `InputStep` against a given world keeps the level invariant: any task it adopts is its own, at rest, and flips only a lever of the level. |
| Phases.PhaseManager.ResolveActors | Assets/Scripts/Utilities/PhaseManager.cs:51-58 | The actor loop: the player steps first against the world as the turn found it, then every ghost replays in spawn order (`ReplayedInOrder`) against exactly the world the player and the earlier ghosts left, starting from the switchboard after the player's flip. The switchboard ends with the player's flip and then the ghosts' flips applied in order; no stone changes. |
| Phases.PhaseManager.ResolvePlayer | Assets/Scripts/Utilities/PhaseManager.cs:51-58 | The player's step against a given world: with actions enabled and a task, the task is appended to the record, has its effect (`Performed`: a move lands at the resolver's destination, a lever flips once) and the switchboard changes by exactly that flip and nothing else; otherwise the player's state and the switchboard are unchanged. The goal is reached exactly when a task was resolved and the player stands on a goal tile, and the player waits again unless it was. Ghosts and stones do not change. |
| Phases.PhaseManager.FlipsOnBoard | Assets/Scripts/Objects/Lever.cs:38-46 | A step in which at most one lever of the level flipped, and nothing else it switches changed, moves the switchboard by exactly that flip. |
| Phases.PhaseManager.StepPlayer | Assets/Scripts/Actors/Player.cs:106-126 | The player's resolution changes only its position and record, gives its task its effect (`Performed`), changes the switchboard by exactly the player's lever flip when it has one and otherwise not at all, reports the goal exactly when a task was resolved on a goal tile, waits again unless it was, and keeps every task it holds its own. |
| Phases.PhaseManager.AllHeldAppend | Assets/Scripts/Actors/Player.cs:116-117 | Recording a task the player may hold keeps its whole record held. |
| Phases.PhaseManager.ResolveGhosts | Assets/Scripts/Utilities/PhaseManager.cs:51-58 | Every ghost, in spawn order, takes exactly one `ReplayStep` from its state at the start of the loop (`ReplayedInOrder`). Its world is exactly the player, the ghosts before it where their steps put them, itself and the later ghosts where they stood, the stones, and the objects active once the earlier ghosts' flips are applied to the starting switchboard (`GhostSeen`). The switchboard ends with every ghost's flip applied in spawn order. The player and the stones are not changed. |
| Phases.PhaseManager.ReplayAll | Assets/Scripts/Utilities/PhaseManager.cs:51-58 | The ghost loop from the first ghost to the last keeps `GhostLoop`: every ghost has replayed in order against its exact world, and the switchboard holds every ghost's flip; no stone changes. |
| Phases.PhaseManager.ReplayNext | Assets/Scripts/Utilities/PhaseManager.cs:51-58 | One more pass of the ghost loop takes `GhostLoop` from `i` ghosts to `i + 1`. |
| Phases.PhaseManager.ResolveNext | Assets/Scripts/Utilities/PhaseManager.cs:51-58 | One pass of the ghost loop: ghost `i` replays against a world that is exactly `GhostSeen` of `i` (the player, the ghosts where the loop has them, the stones and the objects active after the earlier ghosts' flips), and the switchboard gains ghost `i`'s flip. |
| Phases.ReplayedExtend | Assets/Scripts/Utilities/PhaseManager.cs:51-58 | A next ghost's replay step, against exactly the world `GhostSeen` gives it, extends the in-order round by one. |
| Phases.GhostSeenPrefix | Assets/Scripts/Utilities/PhaseManager.cs:51-58 | A ghost's world does not depend on the ghosts that replay after it. |
| Phases.GhostSeenHere | Assets/Scripts/Utilities/PhaseManager.cs:51-58 | The solid tiles of the loop's moment, with the objects active on the switchboard the earlier ghosts' flips produced, are exactly `GhostSeen`. |
| Phases.ReplayFlipsNext | Assets/Scripts/Utilities/PhaseManager.cs:51-58 | Ghost `i`'s flip, applied after the flips of the ghosts before it, gives the flips of the first `i + 1` ghosts. |
| Phases.PhaseManager.GhostWorld | Assets/Scripts/Utilities/PhaseManager.cs:51-58 | In the middle of the ghost loop, the solid tiles are exactly the player, every ghost where the loop has it, the stones and the active lever-switched objects. |
| Phases.PhaseManager.ActiveOnBoard | Assets/Scripts/Objects/Lever.cs:38-46 | The tiles of the active switched objects are those the switchboard shows active. |
| Phases.PhaseManager.ResolveGhost | Assets/Scripts/Utilities/PhaseManager.cs:51-58 | One ghost takes its `ReplayStep` against the world as the step found it, and its front task, when it can be performed there, has its effect (a move lands, a lever flips once). The switchboard changes by exactly that ghost's flip, if it makes one, and nothing else. Every other ghost and the player are unchanged; the invariant is kept. |
| Phases.PhaseManager.ReplayGhost | Assets/Scripts/Actors/Ghost.cs:20-36 | A ghost's resolution against a given world is one `ReplayStep`. A front task that can be performed has its effect: a move lands at the resolver's destination, a lever flips once. The switchboard changes by exactly that flip and nothing else. Every task the ghost holds stays its own. |
| Phases.PhaseManager.ResolveStones | Assets/Scripts/Utilities/PhaseManager.cs:60-68 | Every stone, in list order, runs its pending push once (`PushStep`: carried out and dropped; `PushedInOrder`). Its world's solid tiles are exactly the player and the ghosts, the active lever-switched objects, the stones before it where their pushes put them, and itself and the later stones where they stood. Every push is consumed; the player, the ghosts and the switchboard are not changed. |
| Phases.PhaseManager.StoneNext | Assets/Scripts/Utilities/PhaseManager.cs:61-68 | One pass of the stone loop: stone `i` pushes against a world whose solid tiles are exactly the actors, the active lever-switched objects and the stones where the loop has them. |
| Phases.PhaseManager.StoneWorld | Assets/Scripts/Utilities/PhaseManager.cs:61-68 | In the middle of the stone loop, the solid tiles are exactly the actors, the active lever-switched objects and every stone where the loop has it. |
| Phases.PushedExtend | Assets/Scripts/Utilities/PhaseManager.cs:61-68 | A next stone's push, against the world `PushedInOrder` demands (the stones before it moved, the rest where they stood, and the other solid tiles), extends the in-order round by one. |
| Phases.PhaseManager.ResolveStone | Assets/Scripts/Utilities/PhaseManager.cs:61-68 | One stone takes its `PushStep` against the world as the step found it; the other stones and the player are unchanged; the invariant is kept. |
| Phases.PhaseManager.RunStone | Assets/Scripts/Objects/Stone.cs:30-41 | A stone's resolution against a given world is one `PushStep`: a pending push lands on the resolver's destination, (0,0) for a rejected one, and is dropped; the invariant is kept. |
| Phases.PhaseManager.FinishPhase | Assets/Scripts/Utilities/PhaseManager.cs:70-80 | The round is reset exactly when the player can no longer act: then one ghost is appended after the existing ones, holding the player's record re-pointed to it, and the player is rewound with an empty record; the existing ghosts are rewound with their scripts refilled, every stone is rewound and every time cube kept. Otherwise the ghost list, every ghost's view, every stone's state and the player are unchanged. The switchboard is unchanged either way, and the player waits for input afterwards. |
| Phases.PhaseManager.EnlistGhost | Assets/Scripts/Utilities/PhaseManager.cs:85-100 | One fresh ghost joins the end of the list, holding the player's record re-pointed to it and the player's starting position; the invariant is kept. |
| Phases.PhaseManager.SpawnGhost | Assets/Scripts/Utilities/PhaseManager.cs:85-97 | A new ghost stands on the player's current tile, with the player's starting position and the player's record re-pointed to it. |
| Phases.PhaseManager.RepointTasks | Assets/Scripts/Utilities/PhaseManager.cs:93-97 | Every recorded task, in order, now names the ghost as its actor. |
| Phases.PhaseManager.AllHeldRepointed | Assets/Scripts/Utilities/PhaseManager.cs:93-97 | A record re-pointed to the ghost holds only the ghost's own tasks. |
| Phases.PhaseManager.AdmitGhost | Assets/Scripts/Utilities/PhaseManager.cs:100 | The ghost is appended to the end of the actor list, keeping the invariant. |
| Phases.PhaseManager.ResetRound | Assets/Scripts/Utilities/PhaseManager.cs:83-113 | Exactly one fresh ghost is appended, holding the player's record re-pointed to it and standing on the player's starting tile. The player is rewound with its record cleared. Every ghost is rewound with its script refilled and enabled. Stones are rewound, time cubes kept. |
| Phases.PhaseManager.ResetActors | Assets/Scripts/Utilities/PhaseManager.cs:101-106 | The player, then each ghost in list order, is rewound; each ghost's script equals its record. |
| Phases.PhaseManager.ResetPlayer | Assets/Scripts/Utilities/PhaseManager.cs:101-106 | The player, first in the list, is rewound with its record cleared; no ghost changes. |
| Phases.PhaseManager.ResetGhost | Assets/Scripts/Utilities/PhaseManager.cs:101-106 | One ghost is rewound with its script refilled from its record; the other ghosts and the player are unchanged. |
| Phases.PhaseManager.ResetStones | Assets/Scripts/Utilities/PhaseManager.cs:107-112 | Each stone is rewound if it resets its position and is unchanged otherwise; no other actor changes. |
| Phases.PhaseManager.ResetStone | Assets/Scripts/Objects/Stone.cs:22-28 | One stone is rewound or kept according to `resetPosition`; the other stones are unchanged. |

## Left out

- Unity physics queries: tile occupancy, the goal layer, the lever under the player and `MoveTask.IsFloating` are parameters of the operations that read them.
- The occupancy of the world assumes every actor's collider covers its own tile and every active lever-switched object covers the tile given for it (`PhaseManager.placed`). Prefabs and colliders are not part of this model.
- Floating-point animation and timing: the reset lerp, the `WaitForSeconds` delays and the one-second expiry of a cached key (`CacheThenErase`). Only their end states are modelled, and positions are integer tiles.
- Coroutine interleaving: a turn, and the reset that may follow it, is one atomic step. The source starts `ResetRound` without awaiting it and restarts `TurnPhase` before setting `waitingForInput`. The spawned ghost's Unity `Start` runs within `SpawnGhost`.
- Task aliasing: the source's tasks are shared objects, so re-pointing the ghost's tasks also re-points the same objects in the player's queue. That queue is cleared by the reset that follows at once. The player's own `task` field still refers to its last recorded task, which the source re-points to the ghost as well. The model re-points the ghost's copy only and leaves the player's task as it was; only because the model makes a turn and its reset one atomic step can that stale task not be observed here.
- The turn after Space, in the source: `ResetRound` is started without being awaited (Utilities/PhaseManager.cs:74). It re-points the tasks, and its first steps re-enable the player (Actor.cs:82) and clear its queue (Player.cs:102). `TurnPhase` is then restarted before `waitingForInput` is set (Utilities/PhaseManager.cs:78-80), so its wait ends at once and a second `ResolvePhase` runs. There `Actor.Resolve` executes the player's stale task, which now moves the new ghost, and `Player.Resolve` records that task in the just-cleared queue (Player.cs:106-117). If the player adopted no task that round, the task is null and `Execute` throws. The atomic model has no such second resolution.
- Presentation: sprites, animation, sound, the fade and post-processing effects, menus and the turn counter. Of `SetDirection` only the sprite's `flipX` is kept.
- Scene loading: `LevelManager.NextLevel` is reported as the boolean `reachedGoal`.
- The superseded root-level revisions of `Actor`, `Player`, `Ghost`, `Stone`, `Lever` and `PhaseManager` are not part of this model.
- `DropIfFalling` is called by none of the scripts shown; it is modelled on its own.
- The task files and `Actor.cs` disagree on the task interface. `Actions/Task.cs:13` declares a plain `void Execute()` and no `IsExecuting`, and `Actions/MoveTask.cs:15` and `FlipLeverTask.cs:21` override it as such. `Actors/Actor.cs:21` and `Actors/Actor.cs:107-110`, `Actors/Player.cs:113`, `Actors/Ghost.cs:29` and `Objects/Stone.cs:35-36` instead start `Execute` as a coroutine and poll `task.IsExecuting`, as only `Actions/WaitTask.cs:19-24` provides. `MoveTask.IsFloating` (`Actors/Actor.cs:121`) and `PhaseManager.resetSpeed` (`Actors/Actor.cs:90`) are not defined in the files shown. The model follows the callers: every task carries an `isExecuting` flag, which is false at rest and which only a wait task raises, and only during its own execution. Floating is a parameter, and the reset speed is timing, which is left out above.
- Phases.PhaseManager.ResolvePhase: does not describe the ghosts and stones beyond the invariant and the list growth. `ResolveTurn` and `ResetRound` describe them.
- Phases.PhaseManager.ResolveActors: states the player's task's effect (`Performed`) only through the switchboard and the player's landing, because a later ghost may flip the same lever back, so "flipped once" does not hold of the whole loop.
- Phases.PhaseManager.ResolveTurn: states the player's task's effect through the switchboard and the landing only, as `ResolveActors` does.
- Phases.PhaseManager.ResolvePhase: states the player's task's effect through the switchboard and the landing only, as `ResolveActors` does.
- Phases.PhaseManager.TurnPhase: states the player's task's effect through the switchboard only, as `ResolveActors` does; the ghosts' and stones' steps are stated by `ResolveTurn`.

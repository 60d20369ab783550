# 3D ball runner: the game simulation

A model of the game-state core of a browser endless-runner (`game.js`).
A ball rolls down a three-segment track that scrolls towards it. The
player steers it left and right, speeds it up or brakes, and jumps over
obstacles. Obstacles come in waves whose size grows with the level.
Golden power-ups give a five-second shield. A collision without a shield
ends the game. A restart resets the session and lays out ten fresh
obstacles.

The module-level variables of the script become the fields of one class,
`GameState.Game`. Its methods update those fields in place, one per
handler of the source:

- `Tick`: the game part of the animation frame.
- `MoveBall`: the ball update.
- `StartJump`: the jump branch of the key-down handler.
- `UpdateObstacles`, `UpdatePowerUps`, `UpdateGrounds`: the per-frame list updates.
- `IncreaseDifficulty`, `GameOver`, `Restart`: the timer and button handlers.
- `CreateObstacle`, `CreateInitialObstacles`, `CreateObstacleAt`, `CreatePowerUp`: the spawners.

Each method is proved against pure step functions in the other modules:

- `Geometry`: positions and the collision test.
- `Physics`: lateral step, speed step and jump integration.
- `Difficulty`: spawn interval and speeds by level.
- `Entities`: obstacles, power-ups and how they move.
- `Spawner`: waves and power-ups.
- `Sweeps`: what one frame does to the obstacle list, the power-up list, the shield timer and the ground segments.

The properties of the game are proved as lemmas about those functions.

The source's obstacle and power-up loops run backwards over the list and
splice entries out in place. The model runs these loops the same way, on
a local sequence (`Sweeps.AdvanceObstacles`, `Sweeps.CollectInPlace`). A
mirror function (`SweepDown`, `CollectDown`) runs the loop exactly as
written. Lemmas prove it equal to a plain front-to-back definition
(`SweepObstacles`, `CollectPowerUps`), and the game properties are stated
on those definitions.

`Math.random()` is modelled as a finite stream `rand` of draws in
[0, 1). The draws are consumed in the source's order, including those
that only pick a colour or a rotation. A stream that runs out before a
spawn is finished gives `complete == false`. `CreatePowerUp` takes only
its x draw; its other draws set the rotation and the floating phase,
which the model leaves out.

Three consequences of the code are worth stating:

- From level 5 on, a wave has 3 obstacles with probability 0.2, 2 with 0.4 and 1 with 0.4. The code draws once against 0.2 and then once against 0.5 (game.js:194-196).
- After k ticks of a jump from the ground, the ball's height is 0.3 + 0.2k - 0.005k(k-1). It is in the air for 40 ticks and lands on tick 41.
- Speed is not confined to [baseSpeed, maxSpeed]. Accelerating may overshoot the maximum by one step of 0.0005. Braking applies only while speed is above half the base speed, so one brake step leaves speed above baseSpeed/2 - 0.001 (`SpeedStep`). `Valid()` keeps speed below maxSpeed + 0.0005 and above the fixed floor 0.2/2 - 0.001 = 0.099. After a level-up raises the base speed, the current speed may lie below the new baseSpeed/2 - 0.001.

## Model

| member | source | states |
|---|---|---|
| Geometry.CollisionIffDistance | game.js:499-505 | for the Euclidean distance d, the squared test of the model holds iff d < 0.7 |
| Geometry.HeadOnCollision | game.js:499-505 | an object at the ball's x and y collides iff its z is within 0.7 of the ball's |
| Geometry.FarNeverCollides | game.js:499-505 | nothing more than 10 down the track from the ball can collide with it |
| Physics.LateralStep | game.js:342-347 | left moves -0.1 only while x > -2.0, right +0.1 only while x < 2.0; no key, no move; an on-track x stays on track |
| Physics.LateralRunStaysOnTrack | game.js:342-347 | from any x in (-2.1, 2.1), whatever keys are held for any number of ticks, x stays in (-2.1, 2.1) |
| Physics.SpeedStep | game.js:350-355 | up raises speed only while below maxSpeed, down lowers it only while above baseSpeed/2; speed rises to at most maxSpeed + 0.0005 and falls to no less than baseSpeed/2 - 0.001 |
| Physics.Launch | game.js:313-320 | a jump starts iff the game is active, the ball is not jumping and is at or below 0.3; it sets the velocity to 0.2 |
| Physics.JumpStep | game.js:358-368 | a jumping tick moves y by v, then lowers v by 0.01; landing sets y to 0.3; a non-jumping ball is unchanged; the ball never ends below 0.3 |
| Physics.ArcStep | game.js:358-368 | one tick of the arc in closed form, with the ball still above ground for the first 40 ticks |
| Physics.JumpArc | game.js:358-368 | k <= 40 ticks after take-off the ball is in the air at 0.3 + 0.2k - 0.005k(k-1) with velocity 0.2 - 0.01k |
| Physics.JumpLands | game.js:358-368 | the ball is airborne exactly for ticks 0..40 after take-off, and from tick 41 on rests at 0.3 |
| Difficulty.SpawnInterval | game.js:530 | the interval is at least 500, at most 2000 from level 1 on, 2000 at level 1, and 500 exactly from level 9 on |
| Difficulty.SpawnIntervalNonIncreasing | game.js:530 | a higher level never has a longer interval |
| Difficulty.MaxSpeedAt | game.js:519-526 | the maximum speed at a level exceeds that level's base speed |
| Spawner.LaneX | game.js:203 | every drawn lateral position lies in [-2, 2) |
| Spawner.SingleObstacle | game.js:213-272 | the obstacle sits at the given x and z, at a height its shape allows, is lifted only from level 2 on, and consumes at most 12 draws (10 below level 2); with that many draws left it is always built |
| Spawner.DrawWave | game.js:186-211 | a wave has at most 1, 2 or 3 obstacles by level, pairwise at least 1 apart, in lane, at the wave's z; the sizes follow the 0.3 and 0.2/0.5 draws; at level 1 it takes one obstacle and at most 11 draws |
| Spawner.SpawnedPowerUp | game.js:289-291 | a power-up appears in lane, at height 1, at z = -150 |
| Sweeps.SweepObstacles | game.js:383-412 | obstacles are only removed, 10 points per removed one; a shielded ball never ends the game; obstacles stay in lane |
| Sweeps.SweepDown | game.js:385-411 | the obstacle loop run as written, backwards and in place, stopping at a hit; it never adds entries |
| Sweeps.SweepLoopStep | game.js:385-411 | one step of the backward loop on the in-place list turns the prefix-plus-sweep form for i into the one for i - 1, and a hit settles the sweep of the whole list |
| Sweeps.SweepDownIsSweep | game.js:385-411 | the loop as written, started from the prefix-plus-sweep form, ends with the front-to-back sweep and earns the missing bonus |
| Sweeps.LoopMatchesSweep | game.js:385-411 | the loop as written over the whole list is the front-to-back sweep |
| Sweeps.AdvanceObstacles | game.js:385-411 | the in-place backward loop returns exactly the sweep's list, bonus and hit |
| Sweeps.SweepHitIff | game.js:407-410 | the obstacle update ends the game iff the ball is unshielded and some advanced obstacle is within 0.7 of it |
| Sweeps.SweepWithoutHit | game.js:385-404 | without a collision the list becomes exactly the advanced obstacles that have not passed z = 10, in their original order |
| Sweeps.SweepHitFreezesPrefix | game.js:407-410 | after a collision, the obstacles before it in the list are kept unmoved and unscored |
| Sweeps.CollectPowerUps | game.js:414-446 | power-ups are only removed, at most one pickup per removed one; every power-up left is at z <= 10 and does not touch the ball |
| Sweeps.CollectIsFilter | game.js:416-446 | the list keeps exactly the moved power-ups that have not passed z = 10 and do not touch the ball, in their original order, and the pickup count is the number of moved power-ups touching the ball |
| Sweeps.CollectDown | game.js:416-446 | the power-up loop run as written, backwards and in place, with both splices; each pickup removes at least one entry |
| Sweeps.CollectLoopStep | game.js:431-442 | one step of the backward loop on the in-place list; a power-up past z = 10 never touches the ball, so the source's two splices never both fire |
| Sweeps.CollectDownIsCollect | game.js:416-446 | the loop as written, with both splices, ends with the front-to-back collection and counts the missing pickups |
| Sweeps.CollectInPlace | game.js:416-446 | the in-place backward loop returns exactly the collection's list and pickup count |
| Sweeps.PickupIff | game.js:438-442 | a tick has a pickup iff some moved power-up touches the ball |
| Sweeps.ShieldStep | game.js:448-454 | any pickup leaves the shield on with 4984 ms; with none, an active shield loses 16 ms and is on iff time remains; an inactive one is unchanged |
| Sweeps.ShieldLasts | game.js:448-454 | after a pickup the shield stays on for the next 311 ticks and is off from the 312th |
| Sweeps.InitialTiled | game.js:123 | the start layout z = 0, -100, -200 covers the track without gaps |
| Sweeps.RecycleKeepsTiled | game.js:486-497 | recycling at any speed up to 100 per tick keeps the three segments end to end |
| GameState.Game.constructor | game.js:43-86 | the initial session with level 1, the grounds at 0, -100, -200 and, given enough draws, ten obstacles at z = -20 ... -110 |
| GameState.Game.StartJump | game.js:313-320 | the vertical state becomes Launch of the old one |
| GameState.Game.Steer | game.js:342-347 | x becomes LateralStep of the old x |
| GameState.Game.ControlSpeed | game.js:350-355 | speed becomes SpeedStep of the old speed |
| GameState.Game.StepJump | game.js:358-368 | the vertical state becomes JumpStep of the old one |
| GameState.Game.MoveBall | game.js:340-368 | lateral, speed and jump steps in that order; keeps the session invariant |
| GameState.Game.GameOver | game.js:546-547 | the game is no longer active |
| GameState.Game.UpdateObstacles | game.js:383-412 | the list, score and active flag become those of SweepObstacles; the invariant is kept |
| GameState.Game.ActivatePowerUp | game.js:457-471 | shield on, timer at 5000 (refreshed, not added to), score +50 |
| GameState.Game.DeactivatePowerUp | game.js:474-475 | shield off |
| GameState.Game.UpdatePowerUps | game.js:414-455 | the list becomes CollectPowerUps', score +50 per pickup, shield by ShieldStep |
| GameState.Game.RunShield | game.js:438-454 | one activation per pickup then the 16 ms timer tick, as ShieldStep |
| GameState.Game.UpdateGrounds | game.js:486-497 | each segment moves `speed` closer and jumps back 300 once past 50, in order (RecycleAll of the old segments) |
| GameState.Game.IncreaseDifficulty | game.js:515-531 | while active: level +1, maxSpeed +0.05, baseSpeed +0.02, interval by level, never longer; inactive: nothing changes |
| GameState.Game.CreateObstacleAt | game.js:186-211 | the wave is appended after the existing obstacles, fits its level and z; at level 1 exactly one obstacle |
| GameState.Game.CreateObstacle | game.js:181-184 | while active a wave at z = -150 is appended; inactive: nothing changes |
| GameState.Game.CreateInitialObstacles | game.js:174-179 | ten waves appended; at level 1 exactly ten obstacles at z = -20, -30, ..., -110 |
| GameState.Game.CreatePowerUp | game.js:274-311 | while active one power-up is appended at the spawn z; inactive: nothing changes |
| GameState.Game.ResetDifficulty | game.js:557-596 | level 1, speed and base speed 0.2, maximum 0.5, interval 2000 |
| GameState.Game.ResetBall | game.js:563-567 | not jumping, ball at (0, 0.3) |
| GameState.Game.ResetTrack | game.js:557-582 | score 0, active, no shield, no obstacles or power-ups |
| GameState.Game.ResetSession | game.js:555-596 | all the reset values together, the invariant kept |
| GameState.Game.Restart | game.js:555-596 | reset values, power-up timer, jump velocity and grounds untouched, no lifted obstacles, and with enough draws exactly ten at z = -20 ... -110 |
| GameState.Game.MoveAndSweep | game.js:606-615 | +1, the ball update, then the obstacle update |
| GameState.Game.CollectAndScroll | game.js:617-621 | the power-up update, then the ground update |
| GameState.Game.Tick | game.js:601-628 | an active frame scores 1 + avoid bonus + pickup bonus, moves the ball, sweeps obstacles (ending the game on a hit) and still runs power-ups and grounds; an inactive frame changes nothing; level, base and maximum speed and the obstacle interval are untouched |

## Left out

- Rendering, the scene graph, lights, meshes, materials and the camera follow: foreign library calls with no game logic.
- DOM output (score and level text, the power-up indicator, the game-over panel): user-interface I/O.
- Timers (`setInterval`, `setTimeout`, `clearInterval`, `requestAnimationFrame`): the model keeps only the obstacle interval value and the `gameActive` guards. `Restart` does not model the re-arming of intervals.
- The key-up handler and the window-resize handler: the held keys of a frame are a `Keys` parameter of `Tick`.
- The power-up float height `1 + sin(Date.now() ...)`: wall-clock time and transcendental functions; it is the `heights` parameter of `UpdatePowerUps` and `Tick`, one value per power-up.
- Colours, spins, the level-up flash and the ball's rotation and lean: visual only.
- IEEE-754 rounding: positions and speeds are exact reals, so the model makes no claim of bit-exact agreement with JavaScript numbers.
- The ball's z: the source never changes it (restart sets it to 0, as at start), so it is the constant 0 in `BallPos()`.
- Spawner.DrawWave: a draw stream that runs out before the rejection loop or a shape is finished yields `complete == false` with a shorter wave, where the source would keep drawing.
- Sweeps.AdvanceObstacles and Sweeps.CollectInPlace: the loops run on a local copy of the list that the Game methods write back, and `gameOver`/`activatePowerUp` are applied after the loop instead of inside it. No other field is read between those points, so the resulting state is the same.
- GameState.Game.ResetSession: the obstacle interval is reset before the opening obstacles are laid out, where the source re-arms the timer after; laying them out does not read the interval.
- Sweeps.CollectDown: a power-up that both passed z = 10 and touches the ball would be spliced out twice, and the second splice would remove its neighbour (or nothing, for the last entry). The function keeps that as written; it cannot occur, since the ball sits at z = 0 (`CollectLoopStep`).

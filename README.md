# TumblePop game logic in Dafny

This project models the per-frame game logic of TumblePop, a 2D platformer. The player walks and jumps over a 14 x 18 grid of tiles. A vacuum captures enemies into a small stack, and captured enemies are fired back as rolling projectiles. It also models the earlier, procedural version of the physics that ships alongside the game.

Floats are modelled as exact reals. Every `(int)` cast of a float becomes `Numeric.Trunc`, which truncates toward zero as C++ does, and `std::round` becomes `Numeric.RoundHalfAway`. Objects whose fields the game updates in place are classes (`Player`, `Enemy`, `Projectile`, `ScoreManager`, `Game`, `Level`). Each of their methods is proved against a pure function of the old state, and the properties are proved as lemmas about those functions.

Modules, one per file:

- `Numeric` (`numeric.dfy`): the C++ numeric conversions.
- `Grid` (`grid.dfy`): the screen and grid constants, the `Level` class, and the surface height of a cell.
- `Physics` (`physics.dfy`): gravity integration, the three-sample floor probe with its row search order, the two-of-three ceiling probe, and the screen clamps. Both the player's rule and the enemies' rule are here.
- `LevelBuilder` (`level_builder.dfy`): the two fixed platform layouts, and the ramp helpers that collect wall runs, check that a ramp fits, and write a ramp.
- `Scoring` (`score.dfy`): the score, combo and bonus engine.
- `PlayerModel` (`player.dfy`): the capture stack, powerup timers, animation state choice, the vacuum beam animation machine, and the player object.
- `Enemies` (`enemy.dfy`): capture rules and points, the enemy floor pass, and the jump-target search.
- `Projectiles` (`projectile.dfy`): launch, the three phases (travelling to a row, flying, rolling), and expiry.
- `GameLoop` (`game.dfy`): the best platform row, the same-row separation push, the wave schedule, and the vacuum animation step.
- `PreviousCode` (`previous.dfy`): `previous_code.cpp`, covering its flat surface heights, box overlap, procedural player resolver and enemy wall bounce.

Three behaviours of the code are easy to misread, and the model follows the code in each:

- `releaseAllEnemies` hands out the captured types newest first, not oldest first.
- The enemy floor pass differs from the player's. Any one of the three foot samples supports, it snaps only while not rising, it has no ceiling probe, and it never clamps x.
- Releasing the vacuum button makes a growing or sustained beam shrink. An idle beam stays off.

In `previous_code.cpp` the snap window compares the feet (`y + pH`) with the standing height minus five (`topY - 5`), and `topY` already has the height subtracted. The model keeps this comparison as written (`PreviousCode.Snaps`).

## Model

| member | source | states |
|---|---|---|
| Numeric.Trunc | tumblepop_final.cpp:1142-1143 | the `(int)` cast: the integer part toward zero, within one of the real and never past it |
| Grid.PlatformTopYAt | tumblepop_final.cpp:64-89 | surface height is `row*64`, 44 pixels higher on row 11, plus the slope offset only for cells on the grid |
| Physics.FloorHitRow | tumblepop_final.cpp:1188-1195 | the floor row is the first supporting row in the order base, base+1, base-1; -1 exactly when none of the three supports |
| Physics.Integrate | tumblepop_final.cpp:943-953 | gravity only while airborne, set to exactly the terminal velocity when it would pass it; x moves by `vx*dt*60` and y by the new vertical speed |
| Physics.PlayerStaysOnScreen | tumblepop_final.cpp:1205-1214 | after the pass 0 <= x <= width - w (when the player fits), x is unchanged when already inside, y <= height - h, and grounded implies vy == 0 |
| Physics.PlayerSnapsToFloorRow | tumblepop_final.cpp:1188-1214 | when the snap applies the player stands on the found row's surface (or the screen floor), at rest and grounded; otherwise only the screen floor grounds it |
| Physics.PlayerGroundedOnSurface | tumblepop_final.cpp:1196-1214 | a grounded player stands on the probed row's surface or on the screen floor |
| Physics.EnemyLandsOnFloorRow | tumblepop_final.cpp:2305-2349 | x is untouched; a falling enemy over a supporting row lands on it; a rising enemy passes through; grounded means at rest on a surface or the screen floor |
| LevelBuilder.Runs | tumblepop_final.cpp:3300-3351 | every platform run of both layouts lies on the grid |
| LevelBuilder.BuildLayout | tumblepop_final.cpp:3290-3351 | after building, a cell is a wall exactly when a run of the layout covers it, and every slope offset is zero |
| LevelBuilder.ClearLevel | tumblepop_final.cpp:3290-3298 | every tile is empty and every offset zero |
| LevelBuilder.FillRun | tumblepop_final.cpp:3303-3304 | the run's cells become walls and no other cell changes |
| LevelBuilder.GroundRowFull | tumblepop_final.cpp:3303-3304 | row 13 is a full wall row in both layouts |
| LevelBuilder.LayoutRows | tumblepop_final.cpp:3300-3351 | layout walls lie only on rows 2, 5, 8, 11, 13, and row 2 only on the later layout |
| LevelBuilder.RampStep | tumblepop_final.cpp:3356 | a 45-degree ramp drops a full cell per tile, any other ramp 37 pixels |
| LevelBuilder.RampEnd | tumblepop_final.cpp:3357-3358 | a ramp of n tiles spans exactly n columns |
| LevelBuilder.CollectSpans | tumblepop_final.cpp:3374-3390 | the result is the maximal runs of `#` in the row, left to right, covering every wall of the row |
| LevelBuilder.CanPlaceRamp | tumblepop_final.cpp:3392-3404 | true exactly when the ramp's columns lie on the grid and are all empty |
| LevelBuilder.AttachRamp | tumblepop_final.cpp:3354-3372 | the ramp columns get the ramp symbol and offset `k*step`; the wall past the far end is cleared; nothing else changes |
| LevelBuilder.RampSurfaceStraight | tumblepop_final.cpp:3360-3365 | a ramp starts at offset 0 and each further column is exactly one step lower (right edge) or higher (left edge) |
| Scoring.ResetLevel | tumblepop_final.cpp:343-350 | the score is kept and all per-level bookkeeping restarts |
| Scoring.Tick | tumblepop_final.cpp:352-366 | the level clock advances; a running combo timer counts down and drops the combo when it runs out; an expired timer leaves the combo alone |
| Scoring.Capture | tumblepop_final.cpp:368-375 | the score rises by the points; combo and no-damage flag are kept |
| Scoring.DefeatPoints | tumblepop_final.cpp:377-387 | a defeat is worth 2b below combo 3, 3b from combo 3, 4b from combo 5 |
| Scoring.Defeat | tumblepop_final.cpp:377-392 | the score rises by the tier's points, the combo by one, and the window restarts at 3 seconds |
| Scoring.MultiKillBonus | tumblepop_final.cpp:394-403 | 500 for three or more, 200 for two, nothing otherwise |
| Scoring.BurstBonus | tumblepop_final.cpp:405-409 | 300 for a burst of three or more, nothing otherwise |
| Scoring.Hit | tumblepop_final.cpp:422-430 | a hit costs 50, never below zero, and clears combo, combo timer and the no-damage flag |
| Scoring.Death | tumblepop_final.cpp:432-437 | a death costs 200, never below zero, and changes nothing else |
| Scoring.TimeBonus | tumblepop_final.cpp:439-465 | the time bonus is positive exactly under 60 s (level 1) or 120 s (later), capped at 2000 or 3000 |
| Scoring.LevelClearBonus | tumblepop_final.cpp:439-465 | base plus no-damage bonus plus time bonus, within 1000..4500 on level 1 and 2000..7500 later |
| Scoring.FasterClearNeverWorse | tumblepop_final.cpp:439-465 | a faster clear never earns a smaller time bonus |
| Scoring.ScoreNeverNegative | tumblepop_final.cpp:368-437 | from a non-negative score, no sequence of events makes it negative |
| Scoring.ScoreMonotoneWithoutHarm | tumblepop_final.cpp:368-437 | without hits or deaths the score never decreases |
| Scoring.ExpiredComboStays | tumblepop_final.cpp:352-366 | once the combo timer has run out, further frames leave combo and timer alone |
| Scoring.ComboHoldsWithinWindow | tumblepop_final.cpp:352-366 | the combo survives frames totalling less than its remaining time |
| Scoring.ComboExpires | tumblepop_final.cpp:352-366 | the combo drops to 0 once frames totalling its remaining time pass |
| Scoring.DefeatOpensWindow | tumblepop_final.cpp:352-392 | after a defeat the raised combo lasts for any frames totalling under 3 seconds |
| Scoring.ScoreManager.constructor | tumblepop_final.cpp:331-341 | a new manager is all zero with the no-damage flag set |
| Scoring.ScoreManager.Reset | tumblepop_final.cpp:333-341 | back to the fresh state |
| Scoring.ScoreManager.ResetLevel | tumblepop_final.cpp:343-350 | the new state is ResetLevel of the old one |
| Scoring.ScoreManager.Update | tumblepop_final.cpp:352-366 | the new state is Tick of the old one |
| Scoring.ScoreManager.AddCapturePoints | tumblepop_final.cpp:368-375 | the new state is Capture of the old one |
| Scoring.ScoreManager.AddDefeatPoints | tumblepop_final.cpp:377-392 | the new state is Defeat of the old one |
| Scoring.ScoreManager.AddMultiKillBonus | tumblepop_final.cpp:394-403 | the score rises by MultiKillBonus |
| Scoring.ScoreManager.AddVacuumBurstBonus | tumblepop_final.cpp:405-409 | the score rises by BurstBonus |
| Scoring.ScoreManager.AddAerialBonus | tumblepop_final.cpp:411-414 | the score rises by 150 |
| Scoring.ScoreManager.AddCharacterBonus | tumblepop_final.cpp:416-420 | the score rises by 500 |
| Scoring.ScoreManager.PlayerHit | tumblepop_final.cpp:422-430 | the new state is Hit of the old one |
| Scoring.ScoreManager.PlayerDeath | tumblepop_final.cpp:432-437 | the new state is Death of the old one |
| Scoring.ScoreManager.LevelComplete | tumblepop_final.cpp:439-465 | the score rises by LevelClearBonus of the level, flag and clock |
| PlayerModel.CaptureSpec | tumblepop_final.cpp:909-915 | a capture pushes the type when there is room, keeping 0 <= count <= capacity; on a full stack nothing changes |
| PlayerModel.ReleaseOneSpec | tumblepop_final.cpp:917-926 | a release pops the newest type and clears its slot; on an empty stack it returns -1 and changes nothing |
| PlayerModel.ReleaseAllSpec | tumblepop_final.cpp:928-936 | releasing all empties the stack, keeps the capacity, and returns as many types as were held |
| PlayerModel.CaptureThenRelease | tumblepop_final.cpp:909-926 | a capture followed by a release returns the captured type and the former stack |
| PlayerModel.ReleaseAllIsRepeatedRelease | tumblepop_final.cpp:917-936 | releasing all at once gives the same types, newest first, as releasing one at a time until empty |
| PlayerModel.ApplyPowerupSpec | tumblepop_final.cpp:863-885 | a timed powerup starts its 10 s timer at base times its factor and touches no other boost; an extra life adds one health below 5 and sets exactly 5 otherwise |
| PlayerModel.TimersStepIndependently | tumblepop_final.cpp:887-907 | each timer steps on its own and restores its base value when it runs out; bases and health are kept |
| PlayerModel.BoostHolds | tumblepop_final.cpp:887-907 | a boost keeps its value while frames total less than its timer |
| PlayerModel.ExpiredBoostStays | tumblepop_final.cpp:887-907 | an expired boost keeps its value and timer |
| PlayerModel.BoostExpires | tumblepop_final.cpp:887-907 | a running boost returns to its base once frames totalling its timer pass |
| PlayerModel.PowerupLastsTenSeconds | tumblepop_final.cpp:863-907 | a collected timed powerup is boosted for under 10 s of frames and back at base from 10 s on |
| PlayerModel.AnimChoiceFollowsMotion | tumblepop_final.cpp:963-1003 | committed poses are kept; on the ground idle exactly when still and power run exactly when moving while boosted; in the air the phase follows vy, with a hold band |
| PlayerModel.FrameStaysInSequence | tumblepop_final.cpp:1020-1026 | the frame stays inside the sequence; either the timer accumulates or the frame steps with wrap-around and the timer restarts |
| PlayerModel.VacuumStep | tumblepop_final.cpp:3819-3871 | holding gives grow or sustain, releasing gives off or shrink; a growing beam turns to sustain exactly when it reaches the last frame and rests there; sustain loops back to 60% of the sheet past its end; shrinking runs back at 1.5 times the speed and is off exactly at frame 0; the frame stays in the sheet and an off beam rests on frame 0 |
| PlayerModel.Player.constructor | tumblepop_final.cpp:643-699 | a new player at (100, 500) with three health, base boosts, an empty stack of capacity 3 |
| PlayerModel.Player.SetCharacter | tumblepop_final.cpp:701-719 | the chosen character's bases, with every boosted value restarted from its base |
| PlayerModel.Player.ApplyPowerup | tumblepop_final.cpp:863-885 | the boosts become ApplyPowerupSpec of the old ones |
| PlayerModel.Player.UpdatePowerups | tumblepop_final.cpp:887-907 | the boosts become UpdatePowerupsSpec of the old ones |
| PlayerModel.Player.CaptureEnemy | tumblepop_final.cpp:909-915 | the stack becomes CaptureSpec of the old one |
| PlayerModel.Player.ReleaseOneEnemy | tumblepop_final.cpp:917-926 | the stack and result are ReleaseOneSpec of the old stack |
| PlayerModel.Player.ReleaseAllEnemies | tumblepop_final.cpp:928-936 | count is the old count, types[i] is the i-th newest capture, later entries are untouched, and the stack is empty |
| PlayerModel.Player.ClearSlots | tumblepop_final.cpp:934-935 | all five slots hold -1 |
| PlayerModel.Player.CheckCollisions | tumblepop_final.cpp:1137-1215 | the new body is ResolvePlayer of the old one |
| PlayerModel.Player.Move | tumblepop_final.cpp:943-953 | the new body is Integrate of the old one |
| PlayerModel.Player.Animate | tumblepop_final.cpp:956-1120 | the state is the motion choice (or slide on a ramp); frame and timers restart on a change and then advance |
| PlayerModel.Player.MoveAndCollide | tumblepop_final.cpp:943-955 | the new body is ResolvePlayer after Integrate |
| PlayerModel.Player.Update | tumblepop_final.cpp:938-1120 | powerups step, the body moves and collides, and the animation state follows the new motion |
| PlayerModel.Player.Reset | tumblepop_final.cpp:1217-1237 | back at (100, 700) with 3 health, boosts at base, and an empty stack of capacity 3 on level 1 and 5 after |
| Enemies.CapturePointsRiseWithKind | tumblepop_final.cpp:1358-1372 | capture points are 50..200 and strictly increase with the kind |
| Enemies.EachFlagGuardsOneKind | tumblepop_final.cpp:2351-2358 | the walking kinds are always capturable, visibility matters only to the invisible kind and shooting only to the shooter, and a visible enemy that is not shooting is always capturable |
| Enemies.OverlapIsTranslationInvariant | tumblepop_final.cpp:2391-2395 | the overlap test with the player's shrunk box is translation invariant, and a box left of it never overlaps |
| Enemies.WallAbove | tumblepop_final.cpp:1452-1459 | the nearest wall in the column at or above the row, or -1 when there is none |
| Enemies.WallBelow | tumblepop_final.cpp:1461-1471 | the nearest wall in the column at or below the row, or -1 when there is none |
| Enemies.JumpTargetRowIsNearestWall | tumblepop_final.cpp:1449-1474 | the target row is a wall other than the current row, the nearest above when any, else the nearest below; -1 exactly when the column has no other wall |
| Enemies.WalkLeft | tumblepop_final.cpp:1477-1478 | the walk passes only walls and stops at a non-wall or at column 0 |
| Enemies.WalkRight | tumblepop_final.cpp:1479-1480 | the walk passes only walls and stops at a non-wall or at column 17 |
| Enemies.AsWrittenMissesColumnZero | tumblepop_final.cpp:1476-1484 | the written clamp returns the centre away from the edges; a centre in column 0 always gets column 1, a wall exactly when column 1 is one; a centre in column 17 gets column 16 when that is a wall and stays otherwise |
| Enemies.AsWrittenTargetsEmptyCell | tumblepop_final.cpp:1476-1484 | with a wall in column 0 and an empty column 1, the written target is empty column 1 |
| Enemies.JumpTargetOnSegment | tumblepop_final.cpp:1476-1484 | the intended clamp (a reference, not used by the enemy) finds the maximal wall segment holding the centre, and the target is that wall centre |
| Enemies.Enemy.constructor | tumblepop_final.cpp:1311-1373 | a new enemy is active, visible, airborne, walks at speed 2 the drawn way, and is worth its kind's points |
| Enemies.Enemy.CheckPlatformCollision | tumblepop_final.cpp:2305-2349 | the new body is ResolveEnemy of the old one |
| Enemies.Enemy.FindJumpTarget | tumblepop_final.cpp:1447-1489 | success exactly when a target row exists; then the row and the x of the as-written clamped column (`col*64 + 8`) are stored, otherwise nothing changes |
| Enemies.SearchJumpTarget | tumblepop_final.cpp:1449-1484 | the scans yield JumpTargetRow and the clamp yields the as-written JumpTargetColAsWritten |
| Enemies.ScanTargetRow | tumblepop_final.cpp:1452-1471 | the two loops yield JumpTargetRow |
| Enemies.ClampIntoSegment | tumblepop_final.cpp:1476-1484 | the two walks and the clamp into [left walk + 1, right walk - 1] yield JumpTargetColAsWritten |
| Projectiles.RollVelocity | tumblepop_final.cpp:2540 | the roll speed is never zero, follows a requested direction, and is a coin flip of ±0.9 otherwise |
| Projectiles.LaunchStartsConsistent | tumblepop_final.cpp:2504-2565 | a launch is active with full lifetime; sideways shots roll at once; vertical shots travel exactly when a row lies that way |
| Projectiles.PhasesOnlyAdvance | tumblepop_final.cpp:2575-2665 | rolling is never cleared, travelling never starts, and an expired projectile is deactivated whatever its phase |
| Projectiles.ReachingRowStartsRolling | tumblepop_final.cpp:2588-2602 | on reaching the target row it lands on the row's surface and rolls; before that it keeps travelling |
| Projectiles.AerialLandingStartsRolling | tumblepop_final.cpp:2604-2623 | a flying projectile meeting a standable tile lands on its surface and rolls; over empty cells it keeps flying |
| Projectiles.RollingStaysOnScreen | tumblepop_final.cpp:2625-2659 | a rolling projectile stays between the bounce walls and above the screen floor, and turns inward after a bounce |
| Projectiles.LifetimeCountsDown | tumblepop_final.cpp:2580-2585 | every active frame costs its time, and the projectile stays active exactly while lifetime remains |
| Projectiles.Projectile.constructor | tumblepop_final.cpp:2504-2565 | the new shot is Launch of the arguments, with the spawn row and the desired row one up or down |
| Projectiles.Projectile.SetRollDirection | tumblepop_final.cpp:3960-3961 | a sideways shot rolls the way the player faces; other shots keep their roll direction |
| Projectiles.Projectile.AimAtRow | tumblepop_final.cpp:3963-3972 | with a best row other than the spawn row, the shot travels straight to it; otherwise nothing changes |
| Projectiles.Projectile.Update | tumblepop_final.cpp:2575-2665 | the new shot is Step of the old one, and the phase flags stay exclusive |
| GameLoop.CountOnRow | tumblepop_final.cpp:4720-4728 | the live enemies standing in a row number at most the list's length |
| GameLoop.PushApartSeparates | tumblepop_final.cpp:4356-4376 | an overlapping pair ends exactly the half-sum of widths apart, each walking away from the other, with the total x kept; without overlap nothing moves |
| GameLoop.Game.BestPlatformRow | tumblepop_final.cpp:4703-4737 | the row with a wall holding the most live enemies, the topmost on a tie; -1 exactly when no row has a wall |
| GameLoop.Game.ScanRowForWall | tumblepop_final.cpp:4709-4718 | true exactly when the row holds a `#` tile |
| GameLoop.Game.CountLiveOnRow | tumblepop_final.cpp:4720-4728 | the number of live enemies whose foot cell is in the row |
| GameLoop.Game.SeparateEnemies | tumblepop_final.cpp:4341-4378 | the enemy list becomes SeparatePass of the old list: each live enemy pushed in turn against every later live enemy on its row |
| GameLoop.SeparatePassKeeps | tumblepop_final.cpp:4341-4378 | the pass keeps the total x and every enemy's row, size and status; an enemy out of play, or alone on its row, is left exactly as it was |
| GameLoop.SeparatePassOnPair | tumblepop_final.cpp:4341-4378 | on two enemies the pass is exactly one PushApart when they are live on one row, and nothing otherwise |
| GameLoop.Game.SpawnNextWave | tumblepop_final.cpp:3624-3647 | the wave and the spawned kind and count are NextWave of the old wave; wave 1, 2 and 3 spawn (3, 4), (1, 9) and (0, 4); the delay restarts whenever the wave advances |
| GameLoop.WaveScheduleEndsAtThree | tumblepop_final.cpp:3624-3647 | from wave 0 the waves are 4 shooters, 9 skeletons, 4 ghosts, and then nothing; the count stops at 3 |
| GameLoop.WavesStayDone | tumblepop_final.cpp:3628-3629 | after three waves no call spawns or advances |
| GameLoop.NoWavesWhenDisabled | tumblepop_final.cpp:3626-3627 | with wave spawning off no call spawns or advances |
| GameLoop.UpdateVacuumAnimation | tumblepop_final.cpp:3815-3871 | the beam follows the button and the state and frame become VacuumStep of the old ones |
| PreviousCode.FlatTopIgnoresColumn | previous_code.cpp:42-70 | surface height is `row*64`, or `11*64 - 44` on row 11, whatever the column |
| PreviousCode.FlatTopAgreesWithFlatLevel | previous_code.cpp:61-70 | on a level with no slopes, the later version's surface height is the same |
| PreviousCode.CollisionSymmetric | previous_code.cpp:142-145 | box overlap is symmetric, touching boxes do not overlap, and overlap needs positive combined size |
| PreviousCode.FirstWallRow | previous_code.cpp:174-186 | the first of base-1, base, base+1 with a wall under any of the three samples, or -1 when none has one |
| PreviousCode.PrevGravityOnlyWhenAirborne | previous_code.cpp:153-161 | gravity applies only when airborne on entry, and vy never ends above the terminal velocity unless it entered grounded above it |
| PreviousCode.PrevSnapRule | previous_code.cpp:174-199 | a falling player inside the window stands on the first wall row's surface, grounded and at rest; otherwise only the screen floor grounds it |
| PreviousCode.PrevPlayerStaysOnScreen | previous_code.cpp:215-221 | after the pass x is inside the screen, y <= height - pH, grounded means vy == 0, and a floor clamp grounds and stops the player |
| PreviousCode.ScanFloorRows | previous_code.cpp:174-186 | the loop yields FirstWallRow |
| PreviousCode.UpdatePlayer | previous_code.cpp:148-222 | the new reference values are PrevUpdatePlayer of the old ones |
| PreviousCode.Resolve | previous_code.cpp:164-221 | the collision part yields the screen clamp of the head bump of the floor snap |
| PreviousCode.Bounce | previous_code.cpp:228-241 | x ends in [10, 1072]; a bounce off the left wall points right, off the right wall points left; otherwise a plain move |
| PreviousCode.UpdateEnemy | previous_code.cpp:225-252 | an inactive entry changes nothing; an active entry becomes Bounce of its old values; no other entry changes |

## Left out

- Rendering, sprites, animation sheet slicing, audio, asset loading, keyboard input and the `cout` logging are not modelled. They have no stated behaviour beyond I/O. Key states become method parameters, such as `active` of `UpdateVacuumAnimation`.
- Every `rand()` draw becomes a parameter: `headRight` of the enemy constructor, and `coin` of the projectile methods. The random ramp placement (`placeRandomRamps`), the enemies' random pauses, jumps and teleports, and the spawn jitter in `spawnWave` are not modelled.
- Sprite frame sizes are fixed when an object is made. The player reads `frameW`/`frameH` from the current sprite rectangle each frame (tumblepop_final.cpp:1042-1043), and the frame count and rate of an animation come from the sprite-sheet table. Both enter as constants or parameters.
- The vacuum cone test (`isInVacuumRange`, using `atan2` and `sqrt`), `pullTowards`, the enemy projectiles, particles, effects, powerup bobbing and the slope rotation angle are floating-point geometry. They are not modelled.
- The per-type enemy behaviours (`updateGhost`, `updateSkeleton`, `updateInvisibleMan`, `updateChelnov`, `chooseReappearPosition`) are timer- and `rand()`-driven AI and are not modelled. So are the rest of `updateGameplay` and the level and wave lifecycle around `spawnNextWave`.
- The game's enemy list is modelled as an array of `Foe` values, holding position, speed, box size and whether the enemy is in play. It is not an array of `Enemy` objects.
- Enemies.Enemy.constructor: requires a kind from 0 to 3, because for any other kind the source leaves `capturePoints` uninitialised.
- Projectiles.Projectile.constructor: requires a direction from 0 to 3, because for any other direction the source leaves the velocities uninitialised.
- Projectiles.RollVelocity: states only the sign of the speed for a requested direction other than -1, 0 and 1, because the launcher only ever sets -1, 0 or 1.
- PreviousCode.UpdateEnemy: requires the position and speed arrays to be distinct, because the source passes separate arrays and aliasing them has no meaning in the game.
- `player_gravity` in `previous_code.cpp` is never called and is not modelled. Its `main` loop and drawing are not modelled either.
- Float rounding is not modelled: all arithmetic is exact.

## Findings

| source | as written | input that shows it | evidently intended | confidence | as-written member | corrected member |
|---|---|---|---|---|---|---|
| tumblepop_final.cpp:1476-1484 | `findJumpTarget` walks left only while `leftCol > 0`, then takes `leftCol + 1` as the segment's left end even when column 0 is itself a wall | an enemy whose centre column is 0, over a target row with `#` in column 0 and ` ` in column 1: the target column is 1, an empty cell | clamp the centre into the wall segment that holds it, so the target is the centre column, a wall | low, not executed | Enemies.AsWrittenTargetsEmptyCell | Enemies.JumpTargetOnSegment |

The enemy's own search (`Enemies.Enemy.FindJumpTarget`, `Enemies.SearchJumpTarget`, `Enemies.ClampIntoSegment`) keeps the clamp as written, since the two clamps also differ on rows the game builds: on the full ground row a centre in column 0 targets column 1 and one in column 17 targets column 16, both walls. The intended clamp `Enemies.JumpTargetCol` is kept beside it as the reference for this row. Neither fixed layout has a row with a wall in column 0 and an empty column 1: column 0 holds a wall only on row 13, and on row 11 of the later layout, and both rows also have a wall in column 1. The model does not say whether the random ramps can make such a row.

# XBlaster game-world model

XBlaster is a small SpriteKit space shooter. The player's ship sits at the bottom of a
playable area and moves with the finger, firing a bullet every 0.15 s. Enemies steer
toward waypoints with Craig Reynolds' Seek behaviour and then chase the ship. A bullet
costs an enemy 10 health; an enemy touching the ship costs the ship 5. A killed enemy
awards its score, is restored to full health and reappears at the top. When the ship's
health reaches 0 the game is over, and a tap restarts it.

This project models the game's rules underneath the SpriteKit glue: the steering agent,
the entities (ship, enemies, bullets), and the scene that owns them, shoots, updates the
enemies each frame, dispatches contacts, keeps the score and restarts the game.

Modules:

- `Geometry` (geometry.dfy): points, vectors, rectangles and the per-axis clamp, with exact
  `real` coordinates. A vector's length (a square root in the game) is never computed.
  Wherever the game measures one, the caller supplies `d` with `d > 0 && d * d == LengthSq(v)`.
- `Seek` (seek.dfy): one step of the Seek behaviour on values (`SeekStep`), the re-target
  (`Retarget`), and what they guarantee:
  - the new direction is a convex blend of the old direction and the desired one;
  - speed never exceeds `maxVelocity` with the default tuning;
  - a straight-line approach gains exactly `maxVelocity` per step;
  - the reach test uses the distance measured before the move.
- `Combat` (combat.dfy): an enemy losing 10 per hit and respawning on the tenth; the ship
  losing 5 per contact, clamped at 0, with the venting threshold at 30; and the
  `Int(n · health / 100)` prefix of the health-bar strings.
- `Kinds` (kinds.dfy): the closed family Entity / PlayerShip / EnemyA / EnemyB / Bullet,
  their node names, the collider category bits and contact-test masks, and which bodies
  the name-based contact dispatch lets through.
- `Decimal` (decimal.dfy): the text of the score label, `"Score: \(score)"`, with a
  round-trip proof that the label determines the score.
- `SceneRules` (scene_rules.dfy): the playable rectangle, the bullet-cadence accumulator,
  removal of a node from its layer, the spawn range, and one enemy's per-frame update on
  values (`EnemyTick`, and `TickAll` for a whole layer).
- `World` (world.dfy): the classes `AISteering`, `Entity` and `GameScene`. Their fields
  change in place. Each method's `modifies` clause names the objects and fields it may
  change. Its `ensures` give the new values of those fields in terms of the old state and
  the value rules above. Every scene method keeps the scene invariant `GameScene.Valid`:
  - the current ship is a PlayerShip with health in [0, 100];
  - the player layer holds only ships;
  - distinct enemies, each with its own steering agent, default tuning and health in (0, 100];
  - the bullet layer holds only bullets;
  - a score label that matches the score.

The subclasses of Entity are one class told apart by a constant `kind`. The fields only a
subclass has (an enemy's steering agent, rectangle, score, `dead` flag and health meter; the
ship's venting flag) are present in every kind. The other kinds' initialisers give them
neutral values, and no behaviour of those kinds reads them. Random values
(`CGFloat.random`) and the lengths the game measures are method parameters. Each one has a
precondition stating its range or what it measures.

Behaviour of the game that the contracts pin down:

- `addEnemyOfType(type, count:)` loops over the closed range `0...count`. It therefore
  adds `count + 1` enemies, so the scene starts with 4 EnemyA and 4 EnemyB, although
  `configureEntities` passes 3 (`World.GameScene.AddEnemyOfType`, `World.GameScene.constructor`).
- The steering agent latches `waypointReached` by the distance measured before it moves.
  An agent can end a step inside the radius without the latch being set (`Seek.PreMoveDistanceCheck`).
- The step divides by the distance to the waypoint. An agent standing exactly on its
  waypoint has no defined step, so `AISteering.Update` requires a positive distance.
- Contact dispatch is asymmetric. bodyA is hit only when it is named "enemy", and bodyB
  only when it is named "playerShip" or "bullet". For a pair the physics engine reports,
  both bodies are hit when the enemy is bodyA and neither is when it is bodyB
  (`Kinds.DispatchIsAllOrNothing`).
- A respawned or newly spawned enemy's x is drawn from [origin.x, width], not from
  [origin.x, origin.x + width]. The right-most strip of the playable area never sees a
  spawn (`SceneRules.SpawnMissesRightStrip`).
- A lethal hit restores the enemy's health to `maxHealth` in the same call. An enemy is
  never seen at 0 health.
- From full health the twentieth contact is the one that empties the ship.
- `restartGame` calls `configureEntities` without clearing the enemy layer. Restarting
  from a screen whose layers were already emptied gives 8 enemies. In general the 8 new
  ones are appended to whatever the layer holds.
- A tap between the frame that ends the game and the next frame restarts before the GAME
  OVER teardown has run. The old ship then stays in the player layer beside the new one,
  and contacts with it are still dispatched (`World.GameScene.DidBeginContact` admits any
  ship of the player layer).
- The ship's health label starts as the first `20 * 75 / 100 == 15` characters of the
  bar, not the full bar for the ship's 100 health.

## Model

| member | source | states |
|---|---|---|
| Geometry.Clamp | XBlaster/GameScene.swift:81-82 | the result lies between the two bounds (in either order); a value already between them is kept; below or above, the nearer bound is returned |
| Geometry.ClampInto | XBlaster/GameScene.swift:80-83 | the clamped point lies in the rectangle; a point already inside is unchanged, and each coordinate already in range is kept |
| Seek.SeekStep | XBlaster/AISteering.swift:46-84 | one update keeps the waypoint; the new position is the position read at the start plus the new direction; the latch is set iff it was set or the pre-move distance is below waypointRadius (update never clears it) |
| Seek.Retarget | XBlaster/AISteering.swift:87-90 | updateWaypoint stores the new waypoint and clears the latch whatever its prior value, leaving position and direction alone |
| Seek.SeekDirectionIsBlend | XBlaster/AISteering.swift:59-70 | the new direction is the convex combination (1 - f/v)·old + (f/v)·desired, with f = maxSteeringForce and v = maxVelocity |
| Seek.DesiredLength | XBlaster/AISteering.swift:52-59 | the desired vector, rescaled by maxVelocity / distance, has length exactly maxVelocity |
| Seek.SpeedBound | XBlaster/AISteering.swift:59-70 | with 0 <= maxSteeringForce <= maxVelocity, a step that starts at speed at most maxVelocity ends at speed at most maxVelocity |
| Seek.DefaultsKeepSpeed | XBlaster/AISteering.swift:32-34 | with the default tuning (10, 0.06) the speed never exceeds 10 |
| Seek.StraightApproach | XBlaster/AISteering.swift:59-75 | an agent already heading straight at the waypoint at full speed keeps its direction and ends exactly maxVelocity closer |
| Seek.PreMoveDistanceCheck | XBlaster/AISteering.swift:55-83 | from a distance in [radius, radius + maxVelocity), heading straight in, the agent ends inside the radius yet the latch stays clear |
| Combat.EnemyHit | XBlaster/Enemy.swift:175-187 | a hit is lethal iff health <= 10; a non-lethal hit lowers health by exactly 10; a lethal hit restores maxHealth |
| Combat.EnemyHitKeepsRange | XBlaster/Enemy.swift:175-187 | a hit keeps 0 < health <= maxHealth, and a non-lethal hit strictly lowers health |
| Combat.TenHitCycle | XBlaster/Enemy.swift:175-187 | from full health, after n hits the enemy shows 100 - 10·(n mod 10) health and has awarded its score n div 10 times |
| Combat.TenthHitAwards | XBlaster/Enemy.swift:175-184 | hits 1 to 9 award nothing; the tenth awards once and leaves the enemy at full health |
| Combat.PlayerHit | XBlaster/PlayerShip.swift:76-86 | a contact lowers health by 5, clamped to 0; never negative; the venting emitter shows iff the result is <= 30 |
| Combat.PlayerHitNonIncreasing | XBlaster/PlayerShip.swift:79-85 | a contact never raises a non-negative health, and strictly lowers a positive one |
| Combat.ContactsFromFull | XBlaster/PlayerShip.swift:79-85 | from full health, n contacts leave 100 - 5n while that is non-negative, and 0 after |
| Combat.TwentiethContactEmpties | XBlaster/PlayerShip.swift:79-85 | fewer than 20 contacts leave positive health; the 20th and later leave exactly 0 |
| Combat.TruncateToInt | XBlaster/Enemy.swift:137 | Int(x) truncates toward zero: the integer part of x, for either sign |
| Combat.BarLengthInRange | XBlaster/Enemy.swift:136-137 | for health in [0, 100] the bar index Int(n·health/100) stays within 0..n, and is n at full health |
| Combat.BarLengthMonotone | XBlaster/GameScene.swift:96-97 | more health never shows a shorter bar |
| Combat.Bar | XBlaster/Enemy.swift:136-137 | the shown text is a prefix of the bar string, of length Int(n·health/100) |
| Kinds.CategoriesAreDistinctBits | XBlaster/Entity.swift:13-17 | Player = 1, Enemy = 2 and Bullet = 4 are pairwise disjoint single bits |
| Kinds.MasksSelectNamedKinds | XBlaster/Enemy.swift:145-149 | each contact-test mask (ship: Enemy; bullet: Enemy; enemy: Player or Bullet) selects exactly the kinds it names; every collision mask is 0, so no body collides with any kind |
| Kinds.ReportedPairs | XBlaster/Enemy.swift:147-149 | a contact is reported for exactly the enemy/ship and enemy/bullet pairs |
| Kinds.NamesRoute | XBlaster/GameScene.swift:338-349 | the bodyA name test passes exactly for enemies, the bodyB test exactly for the ship and bullets |
| Kinds.DispatchIsAllOrNothing | XBlaster/GameScene.swift:337-351 | for a reported pair both bodies are dispatched or neither is, and both are iff bodyA is the enemy |
| Decimal.NatToString | XBlaster/GameScene.swift:268 | the spelling is non-empty, all digits, and starts with '0' only for 0 |
| Decimal.NatToStringRoundTrip | XBlaster/GameScene.swift:268 | reading the digits back gives the number |
| Decimal.IntToString | XBlaster/GameScene.swift:268 | the spelling starts with '-' iff the number is negative |
| Decimal.IntToStringInjective | XBlaster/GameScene.swift:268 | distinct integers are spelled differently |
| Decimal.ScoreLabel | XBlaster/GameScene.swift:268 | the label is "Score: " followed by the score's spelling |
| Decimal.ScoreLabelFaithful | XBlaster/GameScene.swift:266-277 | the label determines the score, and the literal "Score: 0" is the label of 0 |
| SceneRules.PlayableRect | XBlaster/GameScene.swift:55-59 | the playable area starts at y = 0, is as tall as the scene minus the 90-point HUD, has aspect 16:9 against the scene's height, and is centred horizontally |
| SceneRules.PlayerStartsCentred | XBlaster/GameScene.swift:242 | the ship's start x is the centre of the playable area |
| SceneRules.ShootStep | XBlaster/GameScene.swift:116-129 | the frame time is 0 on the first frame and currentTime - lastUpdateTime after; a shot fires iff the accumulator passes 0.15, which then restarts at 0 |
| SceneRules.CadenceBounded | XBlaster/GameScene.swift:116-127 | while time does not run backwards the accumulator stays in [0, 0.15], and the first frame never fires |
| SceneRules.ShootRunRateLimit | XBlaster/GameScene.swift:116-129 | over any run of frames with a running clock, 0.15 times the number of shots plus the accumulator never exceeds the elapsed time plus the starting accumulator |
| SceneRules.Remove | XBlaster/Bullet.swift:53-55 | removeFromParent: the node is no longer a child, every other child stays, and nothing is added |
| SceneRules.RemoveDistinct | XBlaster/Bullet.swift:53-55 | removing a child from distinct children keeps them distinct and drops exactly one |
| SceneRules.SpawnMissesRightStrip | XBlaster/Enemy.swift:121-122 | a spawn x drawn from [origin.x, width] never lies in the right-most origin.x of the playable area |
| SceneRules.EnemyTick | XBlaster/Enemy.swift:115-133 | Enemy.update leaves the enemy alive with its health; a dead one restarts at (x, height); the waypoint becomes the target iff it had been reached; the latch afterwards is the pre-move distance test; the position is the start plus the new direction |
| SceneRules.TickAll | XBlaster/GameScene.swift:90-93 | a frame of the enemy layer applies EnemyTick to every enemy, in order |
| World.AISteering.constructor | XBlaster/AISteering.swift:29-44 | a new agent has the default tuning, the given waypoint, zero position and direction, and the latch clear |
| World.AISteering.Update | XBlaster/AISteering.swift:46-84 | the agent's new state is SeekStep of its old state at the entity's old position; the entity is moved to the new currentPosition; nothing else changes |
| World.AISteering.UpdateWaypoint | XBlaster/AISteering.swift:87-90 | the agent's new state is Retarget of the old one |
| World.Entity.Plain | XBlaster/Entity.swift:19-30 | a bare entity starts at the given position, direction zero, health == maxHealth == 100 |
| World.Entity.PlayerShip | XBlaster/PlayerShip.swift:19-26 | the ship starts at the given position with full health and the venting emitter hidden |
| World.Entity.EnemyA | XBlaster/EnemyA.swift:53-68 | an EnemyA starts alive at the given position and rectangle, worth 225, full health and meter, with its own new agent heading for (0, 0) with the latch clear |
| World.Entity.EnemyB | XBlaster/GameScene.swift:257 | an EnemyB starts like an EnemyA, with the score it is given |
| World.Entity.Bullet | XBlaster/Bullet.swift:17-22 | a bullet starts at the given position with full health |
| World.Entity.Update | XBlaster/Enemy.swift:115-140 | for an enemy the new fields are EnemyTick of the old ones and the meter shows the health prefix of "________"; the base update of the other kinds changes nothing |
| World.Entity.CollidedWith | XBlaster/Enemy.swift:152-187 | per kind: the ship takes PlayerHit; an enemy takes EnemyHit, is marked dead and awards its score once on a lethal hit; a bullet leaves the bullet layer and changes no health or score; a bare entity changes nothing |
| World.Entity.EnemyCollided | XBlaster/Enemy.swift:174-187 | the health, dead flag, scene score and score label after an enemy hit, as EnemyHit gives them |
| World.GameScene.constructor | XBlaster/GameScene.swift:55-68 | the scene starts Running with the playable rectangle, score 0, a 15-character health bar, a new ship at the start position, no bullets, and 4 EnemyA then 4 EnemyB in the spawn order |
| World.GameScene.Update | XBlaster/GameScene.swift:79-114 | the ship moves by deltaPoint clamped into the playable area, deltaPoint is spent, and no other field of the ship changes; Running: the timing fields follow ShootStep, the enemy layer becomes TickAll of its old views toward the ship, every enemy's meter shows its health, the health bar is redrawn, GameOver iff health <= 0; GameOver: stays GameOver, the enemies, timing and HUD texts keep their values, and the layers are torn down only the first time |
| World.GameScene.MovePlayer | XBlaster/GameScene.swift:80-84 | the ship's new position is its old position plus deltaPoint, clamped into the playable area; deltaPoint becomes zero |
| World.GameScene.RunningFrame | XBlaster/GameScene.swift:87-101 | the Running branch: the timing fields follow ShootStep, the enemy layer becomes TickAll of its old views, every enemy's meter shows its health, the health bar is redrawn, GameOver iff the ship's health is <= 0 |
| World.GameScene.EnemiesAndHud | XBlaster/GameScene.swift:90-101 | every enemy takes one EnemyTick toward the ship and its meter shows its health; only the enemies' position, dead flag and meter and their agents change; the health bar shows the ship's health, and the state becomes GameOver iff health <= 0 |
| World.GameScene.RedrawHealth | XBlaster/GameScene.swift:95-101 | the ship's health label shows Int(20·health/100) characters of the bar, and the state becomes GameOver iff health <= 0; nothing else changes |
| World.GameScene.GameOverFrame | XBlaster/GameScene.swift:102-110 | the first time through, the bullet and enemy layers are emptied and the ship leaves its layer; afterwards nothing changes |
| World.GameScene.UpdateEnemies | XBlaster/GameScene.swift:90-93 | the loop leaves the layer's views equal to TickAll of the old views, keeps every enemy well-formed, and sets each meter from its health |
| World.GameScene.ShootBullet | XBlaster/GameScene.swift:116-138 | the timing fields follow ShootStep; on a shot exactly one new bullet at the ship's position is appended to the bullet layer, otherwise the layer is unchanged |
| World.GameScene.TouchesBegan | XBlaster/GameScene.swift:140-144 | a touch while Running changes nothing; a touch in GameOver restarts the game with everything RestartGame states: Running, score 0, a new ship at the start position, 8 enemies appended, bullets, timing and HUD bar untouched |
| World.GameScene.TouchesMoved | XBlaster/GameScene.swift:146-151 | deltaPoint becomes the touch's displacement |
| World.GameScene.TouchesEnded | XBlaster/GameScene.swift:153-155 | deltaPoint becomes zero |
| World.GameScene.TouchesCancelled | XBlaster/GameScene.swift:157-159 | deltaPoint becomes zero |
| World.GameScene.ConfigureEntities | XBlaster/GameScene.swift:241-247 | a new ship at the start position is added to the player layer, then 4 EnemyA and 4 EnemyB are appended |
| World.GameScene.AddEnemyOfType | XBlaster/GameScene.swift:249-264 | count + 1 new enemies of the type are appended in spawn order, each at (x, height) and heading for its random waypoint; the existing ones are untouched |
| World.GameScene.SpawnEnemy | XBlaster/GameScene.swift:253-261 | one new enemy of the type, alive at full health at (x, height), heading for the waypoint with the latch clear |
| World.GameScene.IncreaseScoreBy | XBlaster/GameScene.swift:266-268 | the score rises by exactly the increment and the label reads "Score: <score>" |
| World.GameScene.RestartGame | XBlaster/GameScene.swift:273-283 | Running again, score 0 and "Score: 0", a new ship at full health at (width/2, 100) appended to the player layer, GAME OVER taken down, 8 more enemies appended; bullets, deltaPoint, the timing fields and the ship's health text keep their values |
| World.GameScene.ResetScoreAndShip | XBlaster/GameScene.swift:276-282 | the score and label reset to 0, the ship restored to maxHealth and placed at the start position, GAME OVER taken down |
| World.GameScene.DidBeginContact | XBlaster/GameScene.swift:337-351 | bodyA is hit only if it is an enemy, bodyB only if it is a ship (the current one or one left over in the player layer) or a bullet; only the bodies' health, dead and venting fields, the score and the bullet layer may change; the enemy takes EnemyHit and awards its score on a lethal hit, the ship takes PlayerHit, a bullet leaves the bullet layer unchanged itself, and an undispatched body is unchanged |

## Left out

- Rendering: textures, labels' fonts and colours, the starfield emitters, particle emitters (engine, venting plasma and death explosions), the GAME OVER and "Tap Screen to Restart" labels beyond whether GAME OVER is shown.
- Every SKAction: the hit rotations, the damage colourise, the move-back nudge, the score flash and pulse, and the bullet's flight up the screen with its automatic removal. The contact-side and `currentDirection.y < 0` tests only select among these.
- Sounds and background music.
- The physics engine. A contact is an input naming two bodies; overlap detection and `convertPoint` are not modelled.
- Floating point. Coordinates and health are exact reals. The health arithmetic (multiples of 5 and 10) is exact in Double anyway.
- The square root of the vector length. The caller supplies the distance, tied to the squared length by a precondition.
- `CGFloat.random` and `drand48`. Random positions, waypoints and respawn x values are parameters with range preconditions.
- EnemyB.swift is not part of this model. EnemyB is taken as an Enemy named "enemy" with the inherited update and collidedWith, whose score is a scene constructor parameter.
- UITouch and UIEvent plumbing beyond the displacement assigned to deltaPoint; the `init(coder:)` initialisers; `didMoveToView`; `PlayerShip.createEngine`; the node z-ordering.
- The enemy's floating score label (its text and position) and the health meter's colour.
- The weak `entity` back-reference of AISteering is attached right after the agent is created, and is not an initialiser argument. The tuning fields, `faceDirectionOfTravel`, an enemy's agent, rectangle and score are constants, because the game assigns them only when the object is created.
- The node tree is three sequences (player, enemy and bullet layers). A node's parent link is not modelled, and the enemy loop does not model a child being removed mid-iteration.
- World.AISteering.Update: requires a positive distance to the waypoint. On the waypoint itself the game divides by zero and Swift's CGFloat arithmetic yields NaN coordinates, which reals cannot represent, so that case is not modelled.

# Space Invaders game scene, modelled in Dafny

This project models the game-state core of the Phaser scene `GameScene`
(`src/scenes/GameScene.js`) of a small single-screen shooter: the score and
high score, the 3 × 10 enemy formation that sweeps side to side and drops,
the three barriers with their hit-point counters, the player's horizontal
velocity, and the two bullet pools. The scene becomes the class
`Scene.GameScene`. Each handler of the scene becomes one of its methods.
Phaser calls these handlers; in the model a caller does:

- a collision is a call with the indices of the two colliding members;
- held cursor keys and touch buttons are booleans passed to `Update`;
- the enemy that `enemyShoot` picks is an index argument;
- the player's position, which the physics engine owns, is passed to `ShootBullet`.

The value-level rules live in module `Rules` (`rules.dfy`). That module holds
the layout, the formation sweep, the barrier countdown, the steering precedence
and the high-score rule, with lemmas about each. Module `Scene`
(`game_scene.dfy`) holds the class. Its object invariant `Valid()` keeps these facts:

- score and high score are non-negative multiples of 10;
- the formation stays within x ∈ [-201, 201], with direction ±1 and y a multiple of 10 that is at least 0;
- every barrier has 0 ≤ hit points ≤ 5 and is alive exactly while its hit points are positive.

Points where the code, which this model follows, differs from what one might expect:

- Touch buttons override the keyboard. `update` sets the velocity from the keys first. The button branch then overwrites it, and leaves it alone only when no button is pressed.
- The formation turns in the same `update` in which x first exceeds ±200. From the start this is the 201st update, at x = 201.
- Winning (`gameOver`) changes neither score nor high score. Only a player hit records the high score and resets the score, so the score carries into the next round after a win.
- `enemyShoot` has no guard for an empty enemy group. The model requires a valid enemy index.
- Both bullet pools are unbounded, so a shot always yields a bullet. The model does not drop shots.
- `enemyShoot` spawns its bullet at the enemy's own `x`/`y`, which are container-local coordinates. The model does the same and does not add the container offset.

## Model

| member | source | states |
|---|---|---|
| `Scene.GameScene.constructor` | src/scenes/GameScene.js:2-6 | score and high score start at 0; no entities exist before `create` |
| `Scene.GameScene.Create` | src/scenes/GameScene.js:8-75 | a fresh round: the 30-enemy grid, three fresh barriers, no bullets, container at (0, 0) moving right, velocity 0; score and high score are unchanged |
| `Scene.GameScene.CreateEnemies` | src/scenes/GameScene.js:135-154 | the nested loops add exactly `InitialEnemies()`, row by row |
| `Scene.GameScene.CreateBarriers` | src/scenes/GameScene.js:156-167 | a new barrier group equal to `InitialBarriers()` |
| `Scene.GameScene.ShootBullet` | src/scenes/GameScene.js:113-121 | exactly one new player bullet, at the player's position with vertical velocity -300; nothing else changes |
| `Scene.GameScene.EnemyShoot` | src/scenes/GameScene.js:123-133 | for a chosen enemy of a non-empty group, exactly one new enemy bullet at that enemy's position with vertical velocity 100 |
| `Scene.GameScene.HitEnemy` | src/scenes/GameScene.js:169-181 | exactly the struck bullet and enemy are removed, score rises by exactly 10, and the scene is left (game over) exactly when no enemy remains |
| `Scene.GameScene.PlayerHit` | src/scenes/GameScene.js:183-193 | high score becomes max(high score, score) and never decreases, score becomes 0, and the round restarts with the full layout |
| `Scene.GameScene.HitBarrier` | src/scenes/GameScene.js:195-203 | the bullet is removed and only the struck barrier changes: hit points drop by exactly 1 and it is destroyed exactly when they reach ≤ 0 |
| `Scene.GameScene.Update` | src/scenes/GameScene.js:205-232 | velocity follows the touch-first precedence; the formation takes one `Sweep` step; y never decreases; the invariant is kept |
| `Scene.GameScene.GameOver` | src/scenes/GameScene.js:234-239 | leaves the scene and changes neither score nor high score |
| `Scene.SteerVelocity` | src/scenes/GameScene.js:206-222 | the two-phase key-then-button code computes exactly the precedence left button, right button, left key, right key, else 0 |
| `Rules.SteeringVelocity` | src/scenes/GameScene.js:205-222 | the velocity is one of -200, 0, 200 |
| `Rules.TouchOverridesKeys` | src/scenes/GameScene.js:216-219 | while a touch button is pressed, the keys do not affect the velocity |
| `Rules.RemoveAt` | src/scenes/GameScene.js:170-171 | destroying one member removes exactly that member: one fewer, the rest kept in order |
| `Rules.GridRowAt` | src/scenes/GameScene.js:143-148 | the inner loop's row holds column i at (50 + 80 i, 50 + 50 row) |
| `Rules.EnemyGridAt` | src/scenes/GameScene.js:142-150 | the grid has 10 enemies per row and column i of row r at index 10 r + i |
| `Rules.GridRowDistinct` | src/scenes/GameScene.js:143-148 | one row holds no position twice, all at one height |
| `Rules.EnemyGridDistinct` | src/scenes/GameScene.js:142-150 | the rows built so far hold no position twice |
| `Rules.InitialEnemiesDistinct` | src/scenes/GameScene.js:135-150 | createEnemies yields exactly 30 enemies at pairwise distinct positions |
| `Rules.EnemyGridPositions` | src/scenes/GameScene.js:142-150 | the rows built so far hold exactly the grid positions of those rows |
| `Rules.InitialEnemiesPositions` | src/scenes/GameScene.js:135-150 | a position is in the formation exactly when it is (50 + 80 i, 50 + 50 row) for i < 10, row < 3 |
| `Rules.InitialBarriers` | src/scenes/GameScene.js:156-166 | exactly three barriers, at x = 200, 400, 600 and y = 450, each alive with 5 hit points |
| `Rules.Strike` | src/scenes/GameScene.js:195-203 | a strike keeps the barrier's position and keeps the hit-point invariant of a live barrier |
| `Rules.FreshBarrierStrikes` | src/scenes/GameScene.js:195-203 | after n ≤ 5 strikes a barrier created with 5 hit points (line 164) has 5 - n hit points; it survives four and is destroyed by the fifth |
| `Rules.Sweep` | src/scenes/GameScene.js:224-231 | one step keeps the formation invariant, y rises by 0 or 10, and the direction changes exactly when the new x is beyond ±200 |
| `Rules.SweepsSplit` | src/scenes/GameScene.js:224-231 | m + n updates are m updates followed by n updates |
| `Rules.SweepsOk` | src/scenes/GameScene.js:224-231 | any number of updates keeps the formation invariant |
| `Rules.StartSweepsOk` | src/scenes/GameScene.js:224-231 | from x = 0 and direction 1 (line 45): x stays in [-201, 201], direction in {-1, 1}, y a multiple of 10 |
| `Rules.SweepsDescend` | src/scenes/GameScene.js:224-231 | the formation's y never decreases over updates |
| `Rules.FirstLeg` | src/scenes/GameScene.js:224-231 | from x = 0 and direction 1 (line 45), x = n after n ≤ 200 updates, and the 201st update reaches x = 201 and turns down-and-left in that same call |
| `Rules.SweepLeg` | src/scenes/GameScene.js:224-231 | from one edge the formation crosses in 401 updates and turns on the 402nd, dropping 10 |
| `Rules.SweepPeriod` | src/scenes/GameScene.js:224-231 | a full left-and-back period is 804 updates and drops the formation by 20 |
| `Rules.RecordHighScore` | src/scenes/GameScene.js:185-187 | the recorded high score is the maximum of the old high score and the score |

## Left out

- Arcade physics is not modelled: overlap and collider detection, world-bounds clamping of the player, and velocity integration. Collisions are handler calls with indices, so bullets and the player never move in the model.
- The player sprite's position is owned by the physics engine, so `ShootBullet` takes it as an argument.
- Nothing removes bullets that leave the screen, in the source or in the model.
- Rendering is not modelled: the camera colour, sprites, the score and high-score texts, and bringing the player to the top. The texts only display `score` and `highScore`.
- The wiring of the on-screen buttons and of the space key (`createControls`, keyboard events) is not modelled. Button and key states are booleans passed to `Update`; a fire press is a call to `ShootBullet`.
- The 2000 ms looping timer is host scheduling, so `EnemyShoot` can be called at any step.
- `Phaser.Utils.Array.GetRandom` is library randomness, so it is an index argument.
- `scene.restart` and `scene.start` are modelled as re-running `Create` (player hit) and as clearing `playing` (game over). The start screen's button that starts the scene again is a call to `Create`. Phaser's queuing of scene operations until the end of the frame is not modelled: transitions take effect at once.
- A destroyed barrier keeps its slot in the barrier array with `alive == false`. Only live barriers can be struck, because the engine reports collisions only for group members.
- `src/scenes/PreloadScene.js` (asset loading and a start button) and `src/main.js` (engine configuration) have no game logic and are not part of this model.

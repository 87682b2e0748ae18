// The game scene of src/scenes/GameScene.js as a state machine. Each method
// is one of the scene's handlers; Phaser invokes them, here a caller does:
// collisions arrive as calls with the indices of the colliding members,
// held keys and touch buttons as booleans passed to Update, and the player's
// position (owned by the physics engine) as arguments to ShootBullet.

module Scene {
  import opened Rules

  /** update()'s two-phase steering: the cursor keys set a velocity, then the touch buttons may overwrite it. */
  method SteerVelocity(leftKey: bool, rightKey: bool, leftButton: bool, rightButton: bool) returns (v: int)
    ensures v == SteeringVelocity(leftKey, rightKey, leftButton, rightButton)
  {
    if leftKey {
      v := -PlayerSpeed;
    } else if rightKey {
      v := PlayerSpeed;
    } else {
      v := 0;
    }
    if leftButton {
      v := -PlayerSpeed;
    } else if rightButton {
      v := PlayerSpeed;
    } else if !leftKey && !rightKey {
      v := 0;
    }
  }

  class GameScene {
    var score: int
    var highScore: int
    /** True while this scene runs; gameOver hands control back to the start screen. */
    var playing: bool

    /** The members of the enemy group, in container coordinates. */
    var enemies: seq<Pos>
    var containerX: int
    var containerY: int
    var enemyDirection: int

    /** The barrier group; a destroyed barrier keeps its slot with alive == false. */
    var barriers: array<Barrier>

    /** The two bullet pools; both are unbounded, so every shot yields a bullet. */
    var bullets: seq<Bullet>
    var enemyBullets: seq<Bullet>

    var playerVelocityX: int

    ghost predicate Valid()
      reads this, barriers
    {
      ScoreOk(score) && ScoreOk(highScore) &&
      FormationOk(FormationState()) &&
      forall k :: 0 <= k < barriers.Length ==> BarrierOk(barriers[k])
    }

    function FormationState(): Formation
      reads this
    {
      Formation(containerX, containerY, enemyDirection)
    }

    /** The state create() leaves: full grid, fresh barriers, no bullets, container at rest. */
    ghost predicate FreshRound()
      reads this, barriers
    {
      playing &&
      enemies == InitialEnemies() &&
      barriers[..] == InitialBarriers() &&
      FormationState() == StartFormation &&
      bullets == [] && enemyBullets == [] &&
      playerVelocityX == 0
    }

    /** The scene object is built once per session; create() has not run yet. */
    constructor ()
      ensures Valid()
      ensures score == 0 && highScore == 0 && !playing
      ensures enemies == [] && barriers.Length == 0 && bullets == [] && enemyBullets == []
    {
      score := 0;
      highScore := 0;
      playing := false;
      enemies := [];
      containerX, containerY, enemyDirection := 0, 0, 1;
      barriers := new Barrier[0];
      bullets, enemyBullets := [], [];
      playerVelocityX := 0;
    }

    /** create(): lays out a new round; score and high score carry over. */
    method Create()
      requires Valid()
      modifies this
      ensures Valid() && FreshRound() && fresh(barriers)
      ensures score == old(score) && highScore == old(highScore)
    {
      playerVelocityX := 0;
      bullets, enemyBullets := [], [];
      containerX, containerY := 0, 0;
      CreateEnemies();
      CreateBarriers();
      enemyDirection := 1;
      playing := true;
    }

    /** createEnemies(): three rows of ten, added row by row. */
    method CreateEnemies()
      modifies this`enemies
      ensures enemies == InitialEnemies()
    {
      enemies := [];
      var row := 0;
      while row < EnemyRows
        invariant 0 <= row <= EnemyRows
        invariant enemies == EnemyGrid(row)
      {
        var i := 0;
        while i < EnemyColumns
          invariant 0 <= i <= EnemyColumns
          invariant enemies == EnemyGrid(row) + GridRow(row, i)
        {
          enemies := enemies + [Pos(GridOrigin + i * EnemySpacing, GridOrigin + row * RowSpacing)];
          assert GridRow(row, i + 1) == GridRow(row, i) + [GridPos(row, i)];
          assert enemies == EnemyGrid(row) + (GridRow(row, i) + [GridPos(row, i)]);
          i := i + 1;
        }
        assert EnemyGrid(row + 1) == EnemyGrid(row) + GridRow(row, EnemyColumns);
        row := row + 1;
      }
    }

    /** createBarriers(): a new group with one fresh barrier per fixed x. */
    method CreateBarriers()
      modifies this`barriers
      ensures fresh(barriers)
      ensures barriers[..] == InitialBarriers()
    {
      var group := new Barrier[|BarrierXs|];
      for k := 0 to |BarrierXs|
        invariant group[..k] == InitialBarriers()[..k]
      {
        group[k] := FreshBarrier(BarrierXs[k]);
      }
      barriers := group;
    }

    /** shootBullet(): one more player bullet at the player's position, moving up. */
    method ShootBullet(playerX: int, playerY: int)
      modifies this`bullets
      ensures bullets == old(bullets) + [Bullet(playerX, playerY, PlayerBulletVelocity)]
    {
      bullets := bullets + [Bullet(playerX, playerY, PlayerBulletVelocity)];
    }

    /** enemyShoot(): one more enemy bullet at the chosen enemy's position, moving down. */
    method EnemyShoot(chosen: nat)
      requires chosen < |enemies|
      modifies this`enemyBullets
      ensures enemyBullets == old(enemyBullets) +
                [Bullet(enemies[chosen].x, enemies[chosen].y, EnemyBulletVelocity)]
    {
      var enemy := enemies[chosen];
      enemyBullets := enemyBullets + [Bullet(enemy.x, enemy.y, EnemyBulletVelocity)];
    }

    /** hitEnemy(): both destroyed, ten points, and the round is won when no enemy is left. */
    method HitEnemy(bullet: nat, enemy: nat)
      requires Valid()
      requires bullet < |bullets| && enemy < |enemies|
      modifies this`bullets, this`enemies, this`score, this`playing
      ensures Valid()
      ensures bullets == RemoveAt(old(bullets), bullet)
      ensures enemies == RemoveAt(old(enemies), enemy)
      ensures score == old(score) + ScoreStep
      ensures playing == (old(playing) && enemies != [])
    {
      bullets := RemoveAt(bullets, bullet);
      enemies := RemoveAt(enemies, enemy);
      score := score + ScoreStep;
      if |enemies| == 0 {
        GameOver();
      }
    }

    /** playerHit(): record the high score, reset the score and restart the round. */
    method PlayerHit()
      requires Valid()
      modifies this
      ensures Valid() && FreshRound() && fresh(barriers)
      ensures highScore == RecordHighScore(old(highScore), old(score))
      ensures highScore >= old(highScore)
      ensures score == 0
    {
      if score > highScore {
        highScore := score;
      }
      score := 0;
      Create();
    }

    /** hitBarrier(): the bullet goes and the struck barrier loses one hit point. */
    method HitBarrier(bullet: nat, barrier: nat)
      requires Valid()
      requires bullet < |enemyBullets| && barrier < barriers.Length && barriers[barrier].alive
      modifies this`enemyBullets, barriers
      ensures Valid()
      ensures enemyBullets == RemoveAt(old(enemyBullets), bullet)
      ensures barriers[..] == old(barriers[..])[barrier := Strike(old(barriers[barrier]))]
      ensures barriers[barrier].hitPoints == old(barriers[barrier].hitPoints) - 1
      ensures !barriers[barrier].alive <==> barriers[barrier].hitPoints <= 0
    {
      enemyBullets := RemoveAt(enemyBullets, bullet);
      var hitPoints := barriers[barrier].hitPoints - 1;
      barriers[barrier] := barriers[barrier].(hitPoints := hitPoints);
      if hitPoints <= 0 {
        barriers[barrier] := barriers[barrier].(alive := false);
      }
    }

    /** update(): steer the ship, then move the formation one step and turn it at the bound. */
    method Update(leftKey: bool, rightKey: bool, leftButton: bool, rightButton: bool)
      requires Valid()
      modifies this`playerVelocityX, this`containerX, this`containerY, this`enemyDirection
      ensures Valid()
      ensures playerVelocityX == SteeringVelocity(leftKey, rightKey, leftButton, rightButton)
      ensures FormationState() == Sweep(old(FormationState()))
      ensures containerY >= old(containerY)
    {
      playerVelocityX := SteerVelocity(leftKey, rightKey, leftButton, rightButton);
      containerX := containerX + enemyDirection;
      if containerX > SweepBound || containerX < -SweepBound {
        enemyDirection := enemyDirection * -1;
        containerY := containerY + DescentStep;
      }
    }

    /** gameOver(): leave for the start screen; score and high score are left as they are. */
    method GameOver()
      modifies this`playing
      ensures !playing
      ensures score == old(score) && highScore == old(highScore)
    {
      playing := false;
    }
  }
}

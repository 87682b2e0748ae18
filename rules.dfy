// The value-level rules of the game scene: the fixed layout of enemies and
// barriers, the formation sweep, the barrier hit-point countdown, the
// steering precedence of the player's ship and the high-score rule.
// The class in game_scene.dfy holds the state and applies these rules.

module Rules {

  // ---------------------------------------------------------------------
  // Constants of src/scenes/GameScene.js
  // ---------------------------------------------------------------------

  const EnemyColumns := 10          // numEnemies per row
  const EnemyRows := 3
  const EnemySpacing := 80          // horizontal distance between columns
  const RowSpacing := 50            // vertical distance between rows
  const GridOrigin := 50            // first enemy sits at (50, 50)

  const BarrierXs: seq<int> := [200, 400, 600]
  const BarrierY := 450
  const BarrierHitPoints := 5

  const PlayerSpeed := 200          // |velocity x| while steering
  const PlayerBulletVelocity := -300
  const EnemyBulletVelocity := 100

  const SweepBound := 200           // the formation turns once |x| exceeds this
  const DescentStep := 10           // and drops by this much when it turns

  const ScoreStep := 10             // points per enemy destroyed

  // ---------------------------------------------------------------------
  // Entities
  // ---------------------------------------------------------------------

  /** A position in the enemy container's own coordinates. */
  datatype Pos = Pos(x: int, y: int)

  /** A bullet of either pool: where it was spawned and its vertical velocity. */
  datatype Bullet = Bullet(x: int, y: int, velocityY: int)

  /** A barrier sprite with its 'hitPoints' data entry; alive until destroyed. */
  datatype Barrier = Barrier(x: int, y: int, hitPoints: int, alive: bool)

  /** The enemy container's offset together with the scene's enemyDirection. */
  datatype Formation = Formation(x: int, y: int, direction: int)

  // ---------------------------------------------------------------------
  // Removing one member of a group
  // ---------------------------------------------------------------------

  /** The group `s` after the member at index `i` is destroyed. */
  function RemoveAt<T>(s: seq<T>, i: nat): (r: seq<T>)
    requires i < |s|
    ensures |r| == |s| - 1
    ensures multiset(r) + multiset{s[i]} == multiset(s)
    ensures forall k :: 0 <= k < i ==> r[k] == s[k]
    ensures forall k :: i <= k < |r| ==> r[k] == s[k + 1]
  {
    assert s == s[..i] + [s[i]] + s[i + 1..];
    s[..i] + s[i + 1..]
  }

  // ---------------------------------------------------------------------
  // Enemy layout (createEnemies)
  // ---------------------------------------------------------------------

  /** Where createEnemies places column `i` of row `row`. */
  function GridPos(row: int, i: int): Pos
  {
    Pos(GridOrigin + i * EnemySpacing, GridOrigin + row * RowSpacing)
  }

  /** The first `n` enemies of row `row`, in the order the inner loop adds them. */
  function GridRow(row: nat, n: nat): seq<Pos>
  {
    if n == 0 then [] else GridRow(row, n - 1) + [GridPos(row, n - 1)]
  }

  /** The enemies of the first `rows` rows, in the order the loops add them. */
  function EnemyGrid(rows: nat): seq<Pos>
  {
    if rows == 0 then [] else EnemyGrid(rows - 1) + GridRow(rows - 1, EnemyColumns)
  }

  /** The full formation built by createEnemies. */
  function InitialEnemies(): seq<Pos>
  {
    EnemyGrid(EnemyRows)
  }

  /** The index at which column `i` of row `row` is added. */
  function Slot(row: int, i: int): int
  {
    row * 10 + i
  }

  lemma {:induction false} GridRowAt(row: nat, n: nat)
    ensures |GridRow(row, n)| == n
    ensures forall i :: 0 <= i < n ==> GridRow(row, n)[i] == GridPos(row, i)
  {
    if n > 0 {
      GridRowAt(row, n - 1);
    }
  }

  lemma {:induction false} EnemyGridAt(rows: nat)
    ensures |EnemyGrid(rows)| == rows * 10
    ensures forall row, i :: 0 <= row < rows && 0 <= i < EnemyColumns ==>
              EnemyGrid(rows)[Slot(row, i)] == GridPos(row, i)
  {
    if rows > 0 {
      EnemyGridAt(rows - 1);
      GridRowAt(rows - 1, EnemyColumns);
      var prefix := EnemyGrid(rows - 1);
      forall row, i | 0 <= row < rows && 0 <= i < EnemyColumns
        ensures EnemyGrid(rows)[Slot(row, i)] == GridPos(row, i)
      {
        if row < rows - 1 {
          assert EnemyGrid(rows)[Slot(row, i)] == prefix[Slot(row, i)];
        } else {
          assert Slot(row, i) == |prefix| + i;
          assert EnemyGrid(rows)[Slot(row, i)] == GridRow(rows - 1, EnemyColumns)[i];
        }
      }
    }
  }

  /** No two members of `s` are equal. */
  ghost predicate Distinct<T>(s: seq<T>)
  {
    forall j, k :: 0 <= j < k < |s| ==> s[j] != s[k]
  }

  /** Each row holds its columns once, at one height. */
  lemma GridRowDistinct(row: nat, n: nat)
    ensures Distinct(GridRow(row, n))
    ensures forall p :: p in GridRow(row, n) ==> p.y == GridOrigin + row * RowSpacing
  {
    GridRowAt(row, n);
  }

  /** The first `rows` rows hold no position twice, and all lie above row `rows`. */
  lemma {:induction false} EnemyGridDistinct(rows: nat)
    ensures Distinct(EnemyGrid(rows))
    ensures forall p :: p in EnemyGrid(rows) ==> p.y < GridOrigin + rows * RowSpacing
  {
    if rows > 0 {
      EnemyGridDistinct(rows - 1);
      GridRowDistinct(rows - 1, EnemyColumns);
      var prefix, last := EnemyGrid(rows - 1), GridRow(rows - 1, EnemyColumns);
      forall j, k | 0 <= j < k < |prefix + last|
        ensures (prefix + last)[j] != (prefix + last)[k]
      {
        if j < |prefix| && |prefix| <= k {
          assert (prefix + last)[j] in prefix;
          assert (prefix + last)[k] in last;
        }
      }
    }
  }

  /** createEnemies yields 30 enemies, no two at the same position. */
  lemma InitialEnemiesDistinct()
    ensures |InitialEnemies()| == EnemyRows * EnemyColumns
    ensures Distinct(InitialEnemies())
  {
    EnemyGridAt(EnemyRows);
    EnemyGridDistinct(EnemyRows);
  }

  /** The first `rows` rows hold exactly the grid positions of those rows. */
  lemma {:induction false} EnemyGridPositions(rows: nat, p: Pos)
    ensures p in EnemyGrid(rows) <==>
              exists row, i :: 0 <= row < rows && 0 <= i < EnemyColumns && p == GridPos(row, i)
  {
    if rows > 0 {
      var top := rows - 1;
      EnemyGridPositions(top, p);
      GridRowAt(top, EnemyColumns);
      var prefix, last := EnemyGrid(top), GridRow(top, EnemyColumns);
      assert EnemyGrid(rows) == prefix + last;
      if p in prefix {
        var row, i :| 0 <= row < top && 0 <= i < EnemyColumns && p == GridPos(row, i);
        assert 0 <= row < rows;
      } else if p in last {
        var i :| 0 <= i < |last| && last[i] == p;
        assert p == GridPos(top, i);
      }
      if exists row, i :: 0 <= row < rows && 0 <= i < EnemyColumns && p == GridPos(row, i) {
        var row, i :| 0 <= row < rows && 0 <= i < EnemyColumns && p == GridPos(row, i);
        if row < top {
          assert p in prefix;
        } else {
          assert last[i] == p;
        }
      }
    }
  }

  /** The formation holds exactly the positions (50 + 80 i, 50 + 50 row), i < 10, row < 3. */
  lemma InitialEnemiesPositions(p: Pos)
    ensures p in InitialEnemies() <==>
              exists row, i :: 0 <= row < EnemyRows && 0 <= i < EnemyColumns && p == GridPos(row, i)
  {
    EnemyGridPositions(EnemyRows, p);
  }

  // ---------------------------------------------------------------------
  // Barriers (createBarriers, hitBarrier)
  // ---------------------------------------------------------------------

  /** A barrier as createBarriers places it at `x`. */
  function FreshBarrier(x: int): Barrier
  {
    Barrier(x, BarrierY, BarrierHitPoints, true)
  }

  /** The three barriers createBarriers places. */
  function InitialBarriers(): (bs: seq<Barrier>)
    ensures |bs| == 3
    ensures forall k :: 0 <= k < |bs| ==>
              bs[k].x == 200 * (k + 1) && bs[k].y == 450 && bs[k].hitPoints == 5 && bs[k].alive
  {
    seq(|BarrierXs|, k requires 0 <= k < |BarrierXs| => FreshBarrier(BarrierXs[k]))
  }

  /** A barrier's counter stays within [0, 5] and it is alive exactly while the counter is positive. */
  ghost predicate BarrierOk(b: Barrier)
  {
    0 <= b.hitPoints <= BarrierHitPoints && (b.alive <==> b.hitPoints > 0)
  }

  /** A barrier after one enemy bullet strikes it. */
  function Strike(b: Barrier): (r: Barrier)
    ensures r.x == b.x && r.y == b.y
    ensures BarrierOk(b) && b.alive ==> BarrierOk(r)
    ensures !r.alive ==> r.hitPoints <= 0 || !b.alive
  {
    var hitPoints := b.hitPoints - 1;
    b.(hitPoints := hitPoints, alive := b.alive && hitPoints > 0)
  }

  /** A barrier after `n` strikes. */
  function Strikes(b: Barrier, n: nat): Barrier
  {
    if n == 0 then b else Strike(Strikes(b, n - 1))
  }

  /** A fresh barrier has 5 - n hit points after n strikes: it survives four and goes on the fifth. */
  lemma {:induction false} FreshBarrierStrikes(x: int, n: nat)
    requires n <= BarrierHitPoints
    ensures Strikes(FreshBarrier(x), n) == Barrier(x, BarrierY, BarrierHitPoints - n, n < BarrierHitPoints)
  {
    if n > 0 {
      FreshBarrierStrikes(x, n - 1);
    }
  }

  // ---------------------------------------------------------------------
  // Formation sweep (update)
  // ---------------------------------------------------------------------

  /** The formation as create leaves it: container at (0, 0), moving right. */
  const StartFormation := Formation(0, 0, 1)

  /** The states the sweep can reach from StartFormation. */
  ghost predicate FormationOk(f: Formation)
  {
    (f.direction == 1 || f.direction == -1) &&
    -SweepBound - 1 <= f.x <= SweepBound + 1 &&
    (f.x == SweepBound + 1 ==> f.direction == -1) &&
    (f.x == -SweepBound - 1 ==> f.direction == 1) &&
    f.y >= 0 && f.y % DescentStep == 0
  }

  /** One update of the formation: move one step, then turn and drop if past the bound. */
  function Sweep(f: Formation): (g: Formation)
    ensures FormationOk(f) ==> FormationOk(g)
    ensures f.y <= g.y <= f.y + DescentStep
    ensures f.direction != 0 ==> (g.direction == f.direction <==> -SweepBound <= g.x <= SweepBound)
  {
    var x := f.x + f.direction;
    if x > SweepBound || x < -SweepBound then
      Formation(x, f.y + DescentStep, f.direction * -1)
    else
      Formation(x, f.y, f.direction)
  }

  /** The formation after `n` updates. */
  function Sweeps(f: Formation, n: nat): Formation
  {
    if n == 0 then f else Sweep(Sweeps(f, n - 1))
  }

  lemma {:induction false} SweepsSplit(f: Formation, m: nat, n: nat)
    ensures Sweeps(f, m + n) == Sweeps(Sweeps(f, m), n)
  {
    if n > 0 {
      SweepsSplit(f, m, n - 1);
    }
  }

  /** Every reachable formation keeps the sweep invariant. */
  lemma {:induction false} SweepsOk(f: Formation, n: nat)
    requires FormationOk(f)
    ensures FormationOk(Sweeps(f, n))
  {
    if n > 0 {
      SweepsOk(f, n - 1);
    }
  }

  /** From the start, x stays in [-201, 201], the direction in {-1, 1}, y a multiple of 10. */
  lemma {:induction false} StartSweepsOk(n: nat)
    ensures FormationOk(Sweeps(StartFormation, n))
    ensures -201 <= Sweeps(StartFormation, n).x <= 201
    ensures Sweeps(StartFormation, n).direction in {-1, 1}
    ensures Sweeps(StartFormation, n).y % 10 == 0
  {
    SweepsOk(StartFormation, n);
  }

  /** The formation never rises. */
  lemma {:induction false} SweepsDescend(f: Formation, m: nat, n: nat)
    requires m <= n
    ensures Sweeps(f, m).y <= Sweeps(f, n).y
  {
    if m < n {
      SweepsDescend(f, m, n - 1);
    }
  }

  /** Leaving one edge, the formation crosses in 401 steps and turns on the 402nd, dropping 10. */
  lemma {:induction false} SweepLeg(d: int, y: int, n: nat)
    requires d == 1 || d == -1
    requires n <= 402
    ensures Sweeps(Formation(-201 * d, y, d), n) ==
              if n < 402 then Formation(if d == 1 then -201 + n else 201 - n, y, d)
              else Formation(201 * d, y + DescentStep, -d)
  {
    if n > 0 {
      SweepLeg(d, y, n - 1);
      var before := Sweeps(Formation(-201 * d, y, d), n - 1);
      assert Sweeps(Formation(-201 * d, y, d), n) == Sweep(before);
    }
  }

  /** From the start the formation reaches x = n for n <= 200 and turns on the 201st update. */
  lemma {:induction false} FirstLeg(n: nat)
    requires n <= 201
    ensures Sweeps(StartFormation, n) ==
              if n <= 200 then Formation(n, 0, 1) else Formation(201, DescentStep, -1)
  {
    if n > 0 {
      FirstLeg(n - 1);
      var before := Sweeps(StartFormation, n - 1);
      assert before == Formation(n - 1, 0, 1);
      assert Sweeps(StartFormation, n) == Sweep(before);
    }
  }

  /** A full left-and-back period takes 804 updates and drops the formation by 20. */
  lemma SweepPeriod(y: int)
    ensures Sweeps(Formation(201, y, -1), 804) == Formation(201, y + 2 * DescentStep, -1)
  {
    SweepsSplit(Formation(201, y, -1), 402, 402);
    SweepLeg(-1, y, 402);
    SweepLeg(1, y + DescentStep, 402);
  }

  // ---------------------------------------------------------------------
  // Steering (update) and scoring (hitEnemy, playerHit)
  // ---------------------------------------------------------------------

  /** The velocity update() gives the ship: touch buttons first, then the cursor keys. */
  function SteeringVelocity(leftKey: bool, rightKey: bool, leftButton: bool, rightButton: bool): (v: int)
    ensures v == -PlayerSpeed || v == 0 || v == PlayerSpeed
  {
    if leftButton then -PlayerSpeed
    else if rightButton then PlayerSpeed
    else if leftKey then -PlayerSpeed
    else if rightKey then PlayerSpeed
    else 0
  }

  /** A pressed touch button decides the velocity whatever the keys say. */
  lemma TouchOverridesKeys(leftKey: bool, rightKey: bool, leftKey': bool, rightKey': bool,
                           leftButton: bool, rightButton: bool)
    requires leftButton || rightButton
    ensures SteeringVelocity(leftKey, rightKey, leftButton, rightButton) ==
            SteeringVelocity(leftKey', rightKey', leftButton, rightButton)
  {
  }

  /** Scores are non-negative multiples of 10. */
  ghost predicate ScoreOk(s: int)
  {
    s >= 0 && s % ScoreStep == 0
  }

  /** The high score playerHit records: the larger of the two. */
  function RecordHighScore(highScore: int, score: int): (r: int)
    ensures r >= highScore && r >= score
    ensures r == highScore || r == score
  {
    if score > highScore then score else highScore
  }
}

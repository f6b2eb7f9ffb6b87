/**
 * The objects of tank_battle.py: tanks, bullets and obstacles whose fields the game changes in place, and
 * the game that owns them. Every method is proved to do exactly what the matching function of TankSpec
 * says, and to keep the game's invariant `Valid()`.
 */
module TankBattle {
  import opened Wrappers
  import opened TankSpec

  class Tank {
    var x: int
    var y: int
    var direction: Direction
    var symbol: char
    var health: int
    var lastShotTime: int
    var alive: bool

    function View(): TankView
      reads this
    {
      TankView(x, y, direction, symbol, health, lastShotTime, alive)
    }

    constructor (x: int, y: int, symbol: char)
      ensures View() == TankView(x, y, Up, symbol, InitialHealth, 0, true)
    {
      this.x, this.y, this.symbol := x, y, symbol;
      direction := Up;
      health := InitialHealth;
      lastShotTime := 0;
      alive := true;
    }

    method Move(dx: int, dy: int, maxX: int, maxY: int)
      modifies this
      ensures View() == Moved(old(View()), dx, dy, maxX, maxY)
    {
      var newX := x + dx;
      var newY := y + dy;
      if 0 < newX < maxX - 1 && 0 < newY < maxY - 1 {
        x, y := newX, newY;
        if dx > 0 {
          direction, symbol := Right, '>';
        } else if dx < 0 {
          direction, symbol := Left, '<';
        } else if dy > 0 {
          direction, symbol := Down, 'v';
        } else if dy < 0 {
          direction, symbol := Up, '^';
        }
      }
    }

    method CanShoot(now: int) returns (ok: bool)
      modifies this
      ensures (View(), ok) == TryShot(old(View()), now)
    {
      if now - lastShotTime > ShotCooldown {
        lastShotTime := now;
        return true;
      }
      return false;
    }

    method Shoot(now: int) returns (bullet: Bullet?)
      modifies this
      ensures View() == Shot(old(View()), now).0
      ensures bullet == null <==> Shot(old(View()), now).1.None?
      ensures bullet != null ==> fresh(bullet) && bullet.View() == Shot(old(View()), now).1.value
    {
      var ok := CanShoot(now);
      if ok {
        bullet := new Bullet(x + DX(direction), y + DY(direction), direction, now);
        return;
      }
      return null;
    }

    method Hit()
      modifies this
      ensures View() == Damaged(old(View()))
    {
      health := health - 1;
      if health <= 0 {
        alive := false;
      }
    }
  }

  class Bullet {
    var x: int
    var y: int
    const direction: Direction
    var lastMoveTime: int
    var alive: bool

    function View(): BulletView
      reads this
    {
      BulletView(x, y, direction, lastMoveTime, alive)
    }

    /** `now` is the clock value read when the bullet is created. */
    constructor (x: int, y: int, direction: Direction, now: int)
      ensures View() == BulletView(x, y, direction, now, true)
    {
      this.x, this.y, this.direction := x, y, direction;
      lastMoveTime := now;
      alive := true;
    }

    method Update(now: int, maxX: int, maxY: int)
      modifies this
      ensures View() == Advanced(old(View()), now, maxX, maxY)
    {
      if now - lastMoveTime > BulletSpeed {
        x := x + DX(direction);
        y := y + DY(direction);
        lastMoveTime := now;
        if x <= 0 || x >= maxX - 1 || y <= 0 || y >= maxY - 1 {
          alive := false;
        }
      }
    }
  }

  class Obstacle {
    const x: int
    const y: int
    var alive: bool
    const destructible: bool

    function View(): ObstacleView
      reads this
    {
      ObstacleView(x, y, alive, destructible)
    }

    constructor (x: int, y: int)
      ensures View() == ObstacleView(x, y, true, true)
    {
      this.x, this.y := x, y;
      alive := true;
      destructible := true;
    }
  }

  function BulletViews(bs: seq<Bullet>): seq<BulletView>
    reads bs
  {
    seq(|bs|, k requires 0 <= k < |bs| reads bs => bs[k].View())
  }

  function ObstacleViews(os: seq<Obstacle>): seq<ObstacleView>
    reads os
  {
    seq(|os|, k requires 0 <= k < |os| reads os => os[k].View())
  }

  /** `[b for b in bullets if b.alive]` */
  function LiveBullets(bs: seq<Bullet>): (r: seq<Bullet>)
    reads bs
    ensures forall b :: b in r ==> b in bs && b.alive
    ensures Distinct(bs) ==> Distinct(r)
    decreases |bs|
  {
    if bs == [] then []
    else
      var rest := LiveBullets(bs[1..]);
      assert Distinct(bs) ==> Distinct(bs[1..]) && bs[0] !in bs[1..];
      (if bs[0].alive then [bs[0]] else []) + rest
  }

  lemma BulletViewsAppend(s: seq<Bullet>, t: seq<Bullet>)
    ensures BulletViews(s + t) == BulletViews(s) + BulletViews(t)
  {
  }

  /** The views of the kept bullets are the kept views. */
  lemma {:induction false} LiveBulletsViews(bs: seq<Bullet>)
    ensures BulletViews(LiveBullets(bs)) == Keep(BulletViews(bs), BulletLive)
    decreases |bs|
  {
    if bs != [] {
      var h := if bs[0].alive then [bs[0]] else [];
      var vs := BulletViews(bs);
      calc {
        BulletViews(LiveBullets(bs));
        { assert LiveBullets(bs) == h + LiveBullets(bs[1..]); }
        BulletViews(h + LiveBullets(bs[1..]));
        { BulletViewsAppend(h, LiveBullets(bs[1..])); }
        BulletViews(h) + BulletViews(LiveBullets(bs[1..]));
        { LiveBulletsViews(bs[1..]); }
        BulletViews(h) + Keep(BulletViews(bs[1..]), BulletLive);
        { assert vs[1..] == BulletViews(bs[1..]); }
        BulletViews(h) + Keep(vs[1..], BulletLive);
        { assert vs[0] == bs[0].View(); }
        Keep(vs, BulletLive);
      }
    }
  }

  /** `[o for o in obstacles if o.alive]` */
  function LiveObstacles(os: seq<Obstacle>): (r: seq<Obstacle>)
    reads os
    ensures forall o :: o in r ==> o in os && o.alive
    ensures Distinct(os) ==> Distinct(r)
    decreases |os|
  {
    if os == [] then []
    else
      var rest := LiveObstacles(os[1..]);
      assert Distinct(os) ==> Distinct(os[1..]) && os[0] !in os[1..];
      (if os[0].alive then [os[0]] else []) + rest
  }

  lemma ObstacleViewsAppend(s: seq<Obstacle>, t: seq<Obstacle>)
    ensures ObstacleViews(s + t) == ObstacleViews(s) + ObstacleViews(t)
  {
  }

  /** The views of the kept obstacles are the kept views. */
  lemma {:induction false} LiveObstaclesViews(os: seq<Obstacle>)
    ensures ObstacleViews(LiveObstacles(os)) == Keep(ObstacleViews(os), ObstacleLive)
    decreases |os|
  {
    if os != [] {
      var h := if os[0].alive then [os[0]] else [];
      var vs := ObstacleViews(os);
      calc {
        ObstacleViews(LiveObstacles(os));
        { assert LiveObstacles(os) == h + LiveObstacles(os[1..]); }
        ObstacleViews(h + LiveObstacles(os[1..]));
        { ObstacleViewsAppend(h, LiveObstacles(os[1..])); }
        ObstacleViews(h) + ObstacleViews(LiveObstacles(os[1..]));
        { LiveObstaclesViews(os[1..]); }
        ObstacleViews(h) + Keep(ObstacleViews(os[1..]), ObstacleLive);
        { assert vs[1..] == ObstacleViews(os[1..]); }
        ObstacleViews(h) + Keep(vs[1..], ObstacleLive);
        { assert vs[0] == os[0].View(); }
        Keep(vs, ObstacleLive);
      }
    }
  }

  class Game {
    const maxX: int
    const maxY: int
    const player1: Tank
    const player2: Tank
    var bullets: seq<Bullet>
    var obstacles: seq<Obstacle>
    var gameOver: bool
    var winner: Option<Player>

    ghost function View(): Arena
      reads this, player1, player2, bullets, obstacles
    {
      Arena(player1.View(), player2.View(), BulletViews(bullets), ObstacleViews(obstacles), gameOver, winner)
    }

    ghost predicate Valid()
      reads this, player1, player2, bullets, obstacles
    {
      player1 != player2 && Distinct(bullets) && Distinct(obstacles) && ArenaOk(View(), maxX, maxY)
    }

    /** Game.__init__ and Game.init_game for a maxX by maxY screen; `spots` are the obstacle positions the
        random draw produced. */
    constructor (maxX: nat, maxY: nat, spots: seq<(int, int)>)
      requires ObstacleSpots(spots, maxX, maxY)
      ensures Valid() && View() == StartArena(maxX, maxY, spots)
      ensures this.maxX == maxX && this.maxY == maxY
      ensures fresh(player1) && fresh(player2) && forall k :: 0 <= k < |obstacles| ==> fresh(obstacles[k])
    {
      this.maxX, this.maxY := maxX, maxY;
      player1 := new Tank(5, maxY / 2, '^');
      player2 := new Tank(maxX - 5, maxY / 2, '^');
      bullets := [];
      obstacles := [];
      gameOver := false;
      winner := None;
      new;
      var k := 0;
      while k < ObstacleCount
        invariant 0 <= k <= ObstacleCount && |obstacles| == k && bullets == []
        invariant forall m :: 0 <= m < k ==>
          fresh(obstacles[m]) && obstacles[m].View() == ObstacleView(spots[m].0, spots[m].1, true, true)
        invariant Distinct(obstacles)
        modifies this`obstacles
      {
        var o := new Obstacle(spots[k].0, spots[k].1);
        obstacles := obstacles + [o];
        k := k + 1;
      }
      assert ObstacleViews(obstacles) == StartArena(maxX, maxY, spots).obstacles;
      assert View() == StartArena(maxX, maxY, spots);
    }

    /** Game.handle_input. Its single if/elif chain is split here at the comments that divide it: the keys of
        player 1, the keys of player 2, and the quit key. */
    method HandleInput(key: int, now: int)
      requires Valid()
      modifies this, player1, player2
      ensures Valid()
      ensures View() == Dispatch(old(View()), key, now, maxX, maxY)
      ensures obstacles == old(obstacles)
      ensures bullets == old(bullets) ||
        (|bullets| == |old(bullets)| + 1 && bullets[..|old(bullets)|] == old(bullets) && fresh(bullets[|old(bullets)|]))
    {
      if key == NoKey {
        return;
      }
      if key == KeyW || key == KeyS || key == KeyA || key == KeyD || key == KeySpace {
        Player1Input(key, now);
      } else if key == KeyUp || key == KeyDown || key == KeyLeft || key == KeyRight || key == KeyEnter {
        Player2Input(key, now);
      } else if key == KeyQuit {
        gameOver := true;
      }
    }

    /** The branches of Game.handle_input for W, S, A, D and space. */
    method Player1Input(key: int, now: int)
      requires key == KeyW || key == KeyS || key == KeyA || key == KeyD || key == KeySpace
      requires player1 != player2 && Distinct(bullets)
      modifies player1, this`bullets
      ensures Distinct(bullets)
      ensures View() == Dispatch(old(View()), key, now, maxX, maxY)
      ensures bullets == old(bullets) ||
        (|bullets| == |old(bullets)| + 1 && bullets[..|old(bullets)|] == old(bullets) && fresh(bullets[|old(bullets)|]))
    {
      if key == KeyW {
        player1.Move(0, -1, maxX, maxY);
      } else if key == KeyS {
        player1.Move(0, 1, maxX, maxY);
      } else if key == KeyA {
        player1.Move(-1, 0, maxX, maxY);
      } else if key == KeyD {
        player1.Move(1, 0, maxX, maxY);
      } else {
        Fire(player1, now);
      }
    }

    /** The branches of Game.handle_input for the four arrow keys and Enter. */
    method Player2Input(key: int, now: int)
      requires key == KeyUp || key == KeyDown || key == KeyLeft || key == KeyRight || key == KeyEnter
      requires player1 != player2 && Distinct(bullets)
      modifies player2, this`bullets
      ensures Distinct(bullets)
      ensures View() == Dispatch(old(View()), key, now, maxX, maxY)
      ensures bullets == old(bullets) ||
        (|bullets| == |old(bullets)| + 1 && bullets[..|old(bullets)|] == old(bullets) && fresh(bullets[|old(bullets)|]))
    {
      if key == KeyUp {
        player2.Move(0, -1, maxX, maxY);
      } else if key == KeyDown {
        player2.Move(0, 1, maxX, maxY);
      } else if key == KeyLeft {
        player2.Move(-1, 0, maxX, maxY);
      } else if key == KeyRight {
        player2.Move(1, 0, maxX, maxY);
      } else {
        Fire(player2, now);
      }
    }

    /** The shooting branches of Game.handle_input: `bullet = tank.shoot()`, appended when one is fired. */
    method Fire(tank: Tank, now: int)
      requires Distinct(bullets)
      modifies tank, this`bullets
      ensures tank.View() == Shot(old(tank.View()), now).0
      ensures Distinct(bullets)
      ensures var b := Shot(old(tank.View()), now).1;
        BulletViews(bullets) == old(BulletViews(bullets)) + (if b.Some? then [b.value] else [])
      ensures bullets == old(bullets) ||
        (|bullets| == |old(bullets)| + 1 && bullets[..|old(bullets)|] == old(bullets) && fresh(bullets[|old(bullets)|]))
    {
      var bullet := tank.Shoot(now);
      if bullet != null {
        bullets := bullets + [bullet];
      }
    }

    /** Game.update: every bullet is updated, then collisions are checked. The model reads the clock once per call, so every bullet sees the same `now`. */
    method Update(now: int)
      requires Valid()
      modifies this, player1, player2, bullets, obstacles
      ensures Valid()
      ensures View() == Tick(old(View()), now, maxX, maxY)
    {
      var i := 0;
      while i < |bullets|
        invariant 0 <= i <= |bullets|
        invariant forall k :: 0 <= k < i ==> bullets[k].View() == Advanced(old(bullets[k].View()), now, maxX, maxY)
        invariant forall k :: i <= k < |bullets| ==> bullets[k].View() == old(bullets[k].View())
        modifies bullets
      {
        bullets[i].Update(now, maxX, maxY);
        i := i + 1;
      }
      assert View() == AdvanceAll(old(View()), now, maxX, maxY);
      CheckCollisions();
    }

    /** Game.check_collisions: the scan over every bullet, then the compaction of both lists. */
    method CheckCollisions()
      requires Valid()
      modifies this, player1, player2, bullets, obstacles
      ensures Valid()
      ensures View() == Collisions(old(View()))
    {
      ScanAll();
      RemoveDead();
      CollisionsKeepArenaOk(old(View()), maxX, maxY);
    }

    /** The loop of Game.check_collisions over every bullet, before the dead ones are removed. */
    method ScanAll()
      requires player1 != player2 && Distinct(bullets) && Distinct(obstacles)
      modifies player1, player2, bullets, obstacles, this`winner, this`gameOver
      ensures bullets == old(bullets) && obstacles == old(obstacles)
      ensures View() == Scan(old(View()), |bullets|)
    {
      ghost var a := View();
      var i := 0;
      while i < |bullets|
        invariant 0 <= i <= |bullets|
        invariant View() == Scan(a, i)
      {
        ScanBullet(a, i);
        i := i + 1;
      }
    }

    /** The two list comprehensions that end Game.check_collisions. */
    method RemoveDead()
      requires Distinct(bullets) && Distinct(obstacles)
      modifies this`bullets, this`obstacles
      ensures Distinct(bullets) && Distinct(obstacles)
      ensures View() == Compact(old(View()))
    {
      RemoveDeadBullets();
      RemoveDeadObstacles();
    }

    /** `self.bullets = [b for b in self.bullets if b.alive]` */
    method RemoveDeadBullets()
      requires Distinct(bullets)
      modifies this`bullets
      ensures Distinct(bullets)
      ensures View() == old(View()).(bullets := Keep(old(View()).bullets, BulletLive))
    {
      var live := LiveBullets(bullets);
      LiveBulletsViews(bullets);
      ghost var a := View();
      bullets := live;
      assert BulletViews(bullets) == Keep(a.bullets, BulletLive);
    }

    /** `self.obstacles = [o for o in self.obstacles if o.alive]` */
    method RemoveDeadObstacles()
      requires Distinct(obstacles)
      modifies this`obstacles
      ensures Distinct(obstacles)
      ensures View() == old(View()).(obstacles := Keep(old(View()).obstacles, ObstacleLive))
    {
      var live := LiveObstacles(obstacles);
      LiveObstaclesViews(obstacles);
      ghost var a := View();
      obstacles := live;
      assert ObstacleViews(obstacles) == Keep(a.obstacles, ObstacleLive);
    }

    /** One iteration of the loop in Game.check_collisions: the scan of a has reached bullet i. */
    method ScanBullet(ghost a: Arena, i: nat)
      requires player1 != player2 && Distinct(bullets) && Distinct(obstacles)
      requires i < |a.bullets| && View() == Scan(a, i)
      modifies player1, player2, bullets, obstacles, this`winner, this`gameOver
      ensures View() == Scan(a, i + 1)
    {
      assert |bullets| == |View().bullets|;
      assert Scan(a, i + 1) == CollideBullet(View(), i);
      if bullets[i].alive {
        CheckTanks(i);
        CheckObstacles(i);
      }
    }

    /** The tests of one bullet against player 1 and player 2. */
    method CheckTanks(i: nat)
      requires i < |bullets| && player1 != player2 && Distinct(bullets)
      modifies player1, player2, bullets[i], this`winner, this`gameOver
      ensures View() == HitTanks(old(View()), i)
    {
      CheckPlayer1(i);
      CheckPlayer2(i);
    }

    method CheckPlayer1(i: nat)
      requires i < |bullets| && player1 != player2 && Distinct(bullets)
      modifies player1, bullets[i], this`winner, this`gameOver
      ensures View() == HitPlayer1(old(View()), i)
    {
      var bullet := bullets[i];
      if player1.alive && bullet.x == player1.x && bullet.y == player1.y {
        player1.Hit();
        bullet.alive := false;
        if !player1.alive {
          winner := Some(Player2);
          gameOver := true;
        }
      }
    }

    method CheckPlayer2(i: nat)
      requires i < |bullets| && player1 != player2 && Distinct(bullets)
      modifies player2, bullets[i], this`winner, this`gameOver
      ensures View() == HitPlayer2(old(View()), i)
    {
      var bullet := bullets[i];
      if player2.alive && bullet.x == player2.x && bullet.y == player2.y {
        player2.Hit();
        bullet.alive := false;
        if !player2.alive {
          winner := Some(Player1);
          gameOver := true;
        }
      }
    }

    /** The test of one bullet against every obstacle. */
    method CheckObstacles(i: nat)
      requires i < |bullets| && Distinct(bullets) && Distinct(obstacles)
      modifies bullets[i], obstacles
      ensures View() == HitObstacles(old(View()), i)
    {
      var bullet := bullets[i];
      SweepObstacles(bullet, obstacles);
    }
  }

  /** The inner loop of Game.check_collisions: one bullet against every obstacle, in list order. */
  method SweepObstacles(bullet: Bullet, obstacles: seq<Obstacle>)
    requires Distinct(obstacles)
    modifies bullet, obstacles
    ensures bullet.View() == old(bullet.View()).(alive := old(bullet.alive) && !AnyBlocks(old(ObstacleViews(obstacles)), bullet.x, bullet.y))
    ensures ObstacleViews(obstacles) == StrikeAll(old(ObstacleViews(obstacles)), bullet.x, bullet.y)
  {
    ghost var before := ObstacleViews(obstacles);
    var j := 0;
    while j < |obstacles|
      invariant 0 <= j <= |obstacles|
      invariant bullet.View() == old(bullet.View()).(alive := bullet.alive)
      invariant forall k :: 0 <= k < j ==> obstacles[k].View() == Struck(before[k], bullet.x, bullet.y)
      invariant forall k :: j <= k < |obstacles| ==> obstacles[k].View() == before[k]
      invariant bullet.alive == (old(bullet.alive) && !AnyBlocks(before[..j], bullet.x, bullet.y))
    {
      var obstacle := obstacles[j];
      AnyBlocksSnoc(before[..j + 1], bullet.x, bullet.y);
      assert before[..j + 1][..j] == before[..j];
      if obstacle.alive && bullet.x == obstacle.x && bullet.y == obstacle.y {
        bullet.alive := false;
        if obstacle.destructible {
          obstacle.alive := false;
        }
      }
      j := j + 1;
    }
    assert before[..j] == before;
  }
}
